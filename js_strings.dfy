/**
 * String primitives of the JavaScript runtime that the modelled code relies on:
 * decimal rendering of integers (`String(n)`), `padStart(2, '0')`, `split` on one
 * character, `trim`, `substring(0, n)` and ASCII `toUpperCase`.
 * A `char` is one Unicode character, where JavaScript counts UTF-16 code
 * units: the two differ only on characters outside the Basic Multilingual
 * Plane.
 */
module JsStrings {
  import opened Wrappers

  predicate IsDigit(c: char) { '0' <= c <= '9' }

  predicate AllDigits(s: string) { forall i :: 0 <= i < |s| ==> IsDigit(s[i]) }

  function DigitChar(d: nat): (c: char)
    requires d < 10
    ensures IsDigit(c) && c as int - '0' as int == d
  {
    ('0' as int + d) as char
  }

  function DigitValue(c: char): (d: nat)
    requires IsDigit(c)
    ensures d < 10 && DigitChar(d) == c
  {
    c as int - '0' as int
  }

  /** The number a string of decimal digits denotes (most significant digit first). */
  function DigitsValue(s: string): nat
    requires AllDigits(s)
  {
    if s == [] then 0 else DigitsValue(s[..|s| - 1]) * 10 + DigitValue(s[|s| - 1])
  }

  /** `String(n)` for a non-negative integer: shortest decimal form. */
  function NatToString(n: nat): (s: string)
    ensures 1 <= |s| && AllDigits(s)
    ensures DigitsValue(s) == n
    ensures |s| == 1 <==> n < 10
    ensures n >= 10 ==> s[0] != '0'
  {
    if n < 10 then [DigitChar(n)]
    else
      var p := NatToString(n / 10);
      var s := p + [DigitChar(n % 10)];
      assert s[..|s| - 1] == p;
      s
  }

  /** `String(i)` for any integer. */
  function IntToString(i: int): (s: string)
    ensures 1 <= |s|
    ensures i >= 0 ==> s == NatToString(i)
    ensures i < 0 ==> s == "-" + NatToString(-i)
  {
    if i < 0 then "-" + NatToString(-i) else NatToString(i)
  }

  /** `s.padStart(2, '0')`. */
  function PadTwo(s: string): (r: string)
    ensures |s| >= 2 ==> r == s
    ensures |s| < 2 ==> |r| == 2 && r[2 - |s|..] == s
    ensures forall i :: 0 <= i < 2 - |s| ==> r[i] == '0'
  {
    if |s| >= 2 then s else if |s| == 1 then "0" + s else "00"
  }

  /** A two-digit rendering of 0..99, as `String(n).padStart(2, '0')` gives it. */
  lemma {:induction false} PadTwoOfSmall(n: nat)
    requires n < 100
    ensures |PadTwo(NatToString(n))| == 2
    ensures PadTwo(NatToString(n)) == [DigitChar(n / 10), DigitChar(n % 10)]
  {
    if n >= 10 {
      assert NatToString(n / 10) == [DigitChar(n / 10)];
    }
  }

  /** The two-digit rendering of 0..99 reads back as the number. */
  lemma {:induction false} PadTwoValue(n: nat)
    requires n < 100
    ensures |PadTwo(NatToString(n))| == 2 && AllDigits(PadTwo(NatToString(n)))
    ensures DigitsValue(PadTwo(NatToString(n))) == n
  {
    PadTwoOfSmall(n);
    var r := PadTwo(NatToString(n));
    assert r[..1] == [r[0]];
    assert [r[0]][..0] == [];
    assert DigitValue(r[0]) == n / 10 && DigitValue(r[1]) == n % 10;
  }

  /** Reading back a two-digit rendering gives the number again. */
  lemma {:induction false} TwoDigitsRoundTrip(a: char, b: char)
    requires IsDigit(a) && IsDigit(b)
    ensures PadTwo(NatToString(DigitsValue([a, b]))) == [a, b]
  {
    var n := DigitsValue([a, b]);
    assert [a, b][..1] == [a];
    assert [a][..0] == [];
    assert DigitsValue([a]) == DigitValue(a);
    assert n == DigitsValue([a]) * 10 + DigitValue(b);
    PadTwoOfSmall(n);
  }

  /** Index of the first occurrence of `c` in `s`. */
  function IndexOf(s: string, c: char): (r: Option<nat>)
    ensures r.Some? ==> r.value < |s| && s[r.value] == c
    ensures r.Some? ==> forall i :: 0 <= i < r.value ==> s[i] != c
    ensures r.None? ==> forall i :: 0 <= i < |s| ==> s[i] != c
  {
    if s == [] then None
    else if s[0] == c then Some(0)
    else match IndexOf(s[1..], c)
      case None => None
      case Some(k) => Some(k + 1)
  }

  /** `s.split(c)` for a one-character separator. */
  function Split(s: string, c: char): (parts: seq<string>)
    ensures |parts| >= 1
    decreases |s|
  {
    match IndexOf(s, c)
    case None => [s]
    case Some(i) => [s[..i]] + Split(s[i + 1..], c)
  }

  lemma SplitNoSeparator(s: string, c: char)
    requires forall i :: 0 <= i < |s| ==> s[i] != c
    ensures Split(s, c) == [s]
  {
  }

  /** Splitting at a first separator: the part before it, then the splitting of the rest. */
  lemma {:induction false} SplitFirst(x: string, rest: string, c: char)
    requires forall i :: 0 <= i < |x| ==> x[i] != c
    ensures Split(x + [c] + rest, c) == [x] + Split(rest, c)
  {
    var s := x + [c] + rest;
    assert s[|x|] == c;
    assert forall i :: 0 <= i < |x| ==> s[i] == x[i];
    assert IndexOf(s, c) == Some(|x|);
    assert s[..|x|] == x;
    assert s[|x| + 1..] == rest;
  }

  /** Splitting `x + [c] + y`, when neither part holds `c`, yields exactly the two parts. */
  lemma {:induction false} SplitTwo(x: string, y: string, c: char)
    requires forall i :: 0 <= i < |x| ==> x[i] != c
    requires forall i :: 0 <= i < |y| ==> y[i] != c
    ensures Split(x + [c] + y, c) == [x, y]
  {
    var s := x + [c] + y;
    assert s[|x|] == c;
    assert forall i :: 0 <= i < |x| ==> s[i] == x[i];
    assert IndexOf(s, c) == Some(|x|);
    assert s[..|x|] == x;
    assert s[|x| + 1..] == y;
    SplitNoSeparator(y, c);
  }

  /** The characters `String.prototype.trim` removes (ASCII and the common Unicode spaces). */
  predicate IsWhitespace(c: char) {
    c == ' ' || c == '\t' || c == '\n' || c == '\r' || c == '\U{000B}' || c == '\U{000C}'
    || c == '\U{00A0}' || c == '\U{FEFF}' || c == '\U{2028}' || c == '\U{2029}'
  }

  function TrimStart(s: string): (r: string)
  {
    if s != [] && IsWhitespace(s[0]) then TrimStart(s[1..]) else s
  }

  function TrimEnd(s: string): (r: string)
  {
    if s != [] && IsWhitespace(s[|s| - 1]) then TrimEnd(s[..|s| - 1]) else s
  }

  /** `s.trim()`. */
  function Trim(s: string): (r: string)
  {
    TrimEnd(TrimStart(s))
  }

  /** `trimStart` drops exactly the leading whitespace. */
  lemma {:induction false} TrimStartDrops(s: string)
    ensures var r := TrimStart(s);
      |r| <= |s| && r == s[|s| - |r|..]
      && (r != [] ==> !IsWhitespace(r[0]))
      && forall i :: 0 <= i < |s| - |r| ==> IsWhitespace(s[i])
  {
    if s != [] && IsWhitespace(s[0]) {
      TrimStartDrops(s[1..]);
      var r := TrimStart(s);
      forall i | 0 <= i < |s| - |r| ensures IsWhitespace(s[i]) {
        if i > 0 { assert s[i] == s[1..][i - 1]; }
      }
    }
  }

  /** `trimEnd` drops exactly the trailing whitespace. */
  lemma {:induction false} TrimEndDrops(s: string)
    ensures var r := TrimEnd(s);
      |r| <= |s| && r == s[..|r|]
      && (r != [] ==> !IsWhitespace(r[|r| - 1]))
      && forall i :: |r| <= i < |s| ==> IsWhitespace(s[i])
  {
    if s != [] && IsWhitespace(s[|s| - 1]) {
      TrimEndDrops(s[..|s| - 1]);
    }
  }

  /** A string trims to empty exactly when every character is whitespace. */
  lemma {:induction false} TrimEmptyIff(s: string)
    ensures Trim(s) == [] <==> forall i :: 0 <= i < |s| ==> IsWhitespace(s[i])
  {
    var t := TrimStart(s);
    TrimStartDrops(s);
    TrimEndDrops(t);
    if Trim(s) == [] {
      assert t == [];
    } else {
      var r := Trim(s);
      assert !IsWhitespace(r[0]);
      assert r[0] == t[0] == s[|s| - |t|];
    }
  }

  /** `s.substring(0, n)`. */
  function Prefix(s: string, n: nat): (r: string)
    ensures |r| == if n < |s| then n else |s|
    ensures forall i :: 0 <= i < |r| ==> r[i] == s[i]
  {
    if n < |s| then s[..n] else s
  }

  function UpperChar(c: char): (u: char)
    ensures 'a' <= c <= 'z' ==> u as int == c as int - 32
    ensures !('a' <= c <= 'z') ==> u == c
  {
    if 'a' <= c <= 'z' then (c as int - 32) as char else c
  }

  /** `s.toUpperCase()` on ASCII letters; every other character is kept. */
  function ToUpper(s: string): (r: string)
    ensures |r| == |s|
    ensures forall i :: 0 <= i < |s| ==> r[i] == UpperChar(s[i])
  {
    seq(|s|, i requires 0 <= i < |s| => UpperChar(s[i]))
  }
}
