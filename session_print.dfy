/**
 * The "Print Tickets" button of a session card
 * (app/dashboard/_components/session-actions.tsx, `handlePrint`): the
 * decoded PDF text is copied byte by byte into a `Uint8Array`, and the
 * download is named `Tickets_<template>_<year>-<Mon>-<DD>.pdf` from the
 * template name and the session's `YYYY-MM-DD` date.
 * Producing the PDF and the base64 decoding itself are inputs; the browser
 * download is not modelled.
 */
module SessionPrint {
  import opened Wrappers
  import opened JsStrings

  /** What the browser is asked to save. */
  datatype Download = Download(bytes: seq<int>, filename: string)

  const Months: seq<string> :=
    ["Jan", "Feb", "Mar", "Apr", "May", "Jun", "Jul", "Aug", "Sep", "Oct", "Nov", "Dec"]

  /** The byte a `Uint8Array` stores for one character code. */
  function ByteValues(binary: string): (r: seq<int>)
    ensures |r| == |binary|
    ensures forall i :: 0 <= i < |r| ==> 0 <= r[i] < 256
  {
    seq(|binary|, i requires 0 <= i < |binary| => binary[i] as int % 256)
  }

  /** The Latin-1 string a byte sequence denotes. */
  function ByteString(bytes: seq<int>): string
    requires forall i :: 0 <= i < |bytes| ==> 0 <= bytes[i] < 256
  {
    seq(|bytes|, i requires 0 <= i < |bytes| => bytes[i] as char)
  }

  /**
   * The decoding loop: one byte per character, byte i the code of character i.
   * `atob` only yields codes below 256, where nothing is truncated.
   */
  method DecodeBytes(binary: string) returns (bytes: array<int>)
    ensures bytes.Length == |binary|
    ensures bytes[..] == ByteValues(binary)
    ensures forall i :: 0 <= i < |binary| && binary[i] as int < 256 ==> bytes[i] == binary[i] as int
  {
    var len := |binary|;
    bytes := new int[len];
    for i := 0 to len
      invariant forall k :: 0 <= k < i ==> bytes[k] == binary[k] as int % 256
    {
      bytes[i] := binary[i] as int % 256;
    }
    assert bytes[..] == ByteValues(binary);
  }

  /** For a binary string, as `atob` returns, the bytes spell the string back. */
  lemma DecodeRoundTrip(binary: string)
    requires forall i :: 0 <= i < |binary| ==> binary[i] as int < 256
    ensures ByteString(ByteValues(binary)) == binary
  {
  }

  /** A character `[^a-zA-Z0-9-_]` does not match. */
  predicate SafeChar(c: char) {
    ('a' <= c <= 'z') || ('A' <= c <= 'Z') || ('0' <= c <= '9') || c == '-' || c == '_'
  }

  /** `templateName.replace(/[^a-zA-Z0-9-_]/g, '_')`. */
  function SafeName(name: string): (r: string)
    ensures |r| == |name|
    ensures forall i :: 0 <= i < |r| ==> SafeChar(r[i])
    ensures forall i :: 0 <= i < |r| ==> r[i] == (if SafeChar(name[i]) then name[i] else '_')
  {
    seq(|name|, i requires 0 <= i < |name| => if SafeChar(name[i]) then name[i] else '_')
  }

  /** A name already made of safe characters is left as it is. */
  lemma SafeNameKeepsSafe(name: string)
    requires forall i :: 0 <= i < |name| ==> SafeChar(name[i])
    ensures SafeName(name) == name
  {
  }

  /** Replacing twice is replacing once. */
  lemma SafeNameIdempotent(name: string)
    ensures SafeName(SafeName(name)) == SafeName(name)
  {
    SafeNameKeepsSafe(SafeName(name));
  }

  /** The longest prefix of decimal digits. */
  function DigitPrefix(s: string): (r: string)
    ensures |r| <= |s| && r == s[..|r|] && AllDigits(r)
    ensures |r| < |s| ==> !IsDigit(s[|r|])
  {
    if s != [] && IsDigit(s[0]) then [s[0]] + DigitPrefix(s[1..]) else []
  }

  /**
   * `parseInt(s)`: leading whitespace skipped, an optional sign, then the
   * longest run of decimal digits; `None` is `NaN` (no digits).
   */
  function ParseInt(s: string): Option<int> {
    var t := TrimStart(s);
    var negative := t != [] && t[0] == '-';
    var rest := if t != [] && (t[0] == '-' || t[0] == '+') then t[1..] else t;
    var digits := DigitPrefix(rest);
    if digits == [] then None
    else if negative then Some(-(DigitsValue(digits) as int))
    else Some(DigitsValue(digits))
  }

  /** A plain digit string parses to the number it denotes. */
  lemma {:induction false} ParseIntOfDigits(d: string)
    requires d != [] && AllDigits(d)
    ensures ParseInt(d) == Some(DigitsValue(d))
  {
    assert !IsWhitespace(d[0]);
    assert TrimStart(d) == d;
    DigitPrefixOfDigits(d);
  }

  lemma {:induction false} DigitPrefixOfDigits(d: string)
    requires AllDigits(d)
    ensures DigitPrefix(d) == d
  {
    if d != [] {
      DigitPrefixOfDigits(d[1..]);
    }
  }

  /** `parseInt(parts[k])`; a missing part is `undefined`, which parses to `NaN`. */
  function ParsePart(parts: seq<string>, k: nat): (r: Option<int>)
    ensures k >= |parts| ==> r == None
    ensures k < |parts| ==> r == ParseInt(parts[k])
  {
    if k < |parts| then ParseInt(parts[k]) else None
  }

  /** A number in a template literal: its decimal form, or `NaN`. */
  function NumberText(n: Option<int>): (r: string)
    ensures n.None? ==> r == "NaN"
    ensures n.Some? ==> r == IntToString(n.value)
  {
    if n.None? then "NaN" else IntToString(n.value)
  }

  /** `months[monthIdx]` in a template literal: out of range reads `undefined`. */
  function MonthName(monthIdx: Option<int>): (r: string)
    ensures monthIdx.Some? && 0 <= monthIdx.value < 12 ==> r == Months[monthIdx.value]
    ensures !(monthIdx.Some? && 0 <= monthIdx.value < 12) ==> r == "undefined"
  {
    if monthIdx.Some? && 0 <= monthIdx.value < 12 then Months[monthIdx.value] else "undefined"
  }

  /** `parseInt(parts[1]) - 1`; `NaN` stays `NaN`. */
  function MonthIndex(parts: seq<string>): Option<int> {
    match ParsePart(parts, 1)
    case None => None
    case Some(m) => Some(m - 1)
  }

  /** `formattedDate`: year, month abbreviation and two-digit day from the split date. */
  function FormattedDate(sessionDate: string): string {
    var parts := Split(sessionDate, '-');
    NumberText(ParsePart(parts, 0)) + "-" + MonthName(MonthIndex(parts)) + "-"
      + PadTwo(NumberText(ParsePart(parts, 2)))
  }

  /** `filename`. */
  function FileName(templateName: string, sessionDate: string): string {
    "Tickets_" + SafeName(templateName) + "_" + FormattedDate(sessionDate) + ".pdf"
  }

  /** A session date as stored: `YYYY-MM-DD` in digits. */
  predicate IsoDate(s: string) {
    |s| == 10 && s[4] == '-' && s[7] == '-'
    && AllDigits(s[..4]) && AllDigits(s[5..7]) && AllDigits(s[8..])
  }

  lemma {:induction false} SplitIsoDate(s: string)
    requires IsoDate(s)
    ensures Split(s, '-') == [s[..4], s[5..7], s[8..]]
  {
    assert s == s[..4] + ['-'] + (s[5..7] + ['-'] + s[8..]);
    assert forall i :: 0 <= i < 4 ==> IsDigit(s[..4][i]);
    SplitFirst(s[..4], s[5..7] + ['-'] + s[8..], '-');
    assert forall i :: 0 <= i < 2 ==> IsDigit(s[5..7][i]) && IsDigit(s[8..][i]);
    SplitTwo(s[5..7], s[8..], '-');
  }

  lemma {:induction false} YearText(y: string)
    requires y != [] && AllDigits(y)
    ensures NumberText(ParseInt(y)) == NatToString(DigitsValue(y))
  {
    ParseIntOfDigits(y);
  }

  lemma {:induction false} MonthOfParts(y: string, m: string, d: string)
    requires m != [] && AllDigits(m)
    ensures MonthIndex([y, m, d]) == Some(DigitsValue(m) - 1)
  {
    ParseIntOfDigits(m);
  }

  lemma {:induction false} DayText(d: string)
    requires |d| == 2 && AllDigits(d)
    ensures PadTwo(NumberText(ParseInt(d))) == d
  {
    ParseIntOfDigits(d);
    assert d == [d[0], d[1]];
    TwoDigitsRoundTrip(d[0], d[1]);
  }

  /**
   * For a stored date with month 01..12 the date part is the year's
   * decimal value, the month's abbreviation, and the day's two digits as
   * written.
   */
  lemma {:induction false} FormattedDateOfIso(s: string)
    requires IsoDate(s) && 1 <= DigitsValue(s[5..7]) <= 12
    ensures FormattedDate(s) == NatToString(DigitsValue(s[..4])) + "-" + Months[DigitsValue(s[5..7]) - 1] + "-" + s[8..]
  {
    var y, m, d := s[..4], s[5..7], s[8..];
    SplitIsoDate(s);
    YearText(y);
    MonthOfParts(y, m, d);
    DayText(d);
  }

  /** A month outside 01..12 leaves `undefined` in the name. */
  lemma {:induction false} FormattedDateBadMonth(s: string)
    requires IsoDate(s) && !(1 <= DigitsValue(s[5..7]) <= 12)
    ensures MonthName(MonthIndex(Split(s, '-'))) == "undefined"
  {
    SplitIsoDate(s);
    MonthOfParts(s[..4], s[5..7], s[8..]);
  }

  /**
   * `handlePrint`: `binary` is the decoded PDF or the error raised while
   * producing or decoding it. Success yields the bytes and the file name; a
   * failure becomes the alert text.
   */
  method HandlePrint(binary: Result<string>, sessionDate: string, templateName: string)
    returns (r: Result<Download>)
    ensures binary.Err? ==> r == Err("Failed to generate PDF: " + binary.error)
    ensures binary.Ok? ==> r == Ok(Download(ByteValues(binary.value), FileName(templateName, sessionDate)))
  {
    if binary.Err? {
      return Err("Failed to generate PDF: " + binary.error);
    }
    var bytes := DecodeBytes(binary.value);
    r := Ok(Download(bytes[..], FileName(templateName, sessionDate)));
  }
}
