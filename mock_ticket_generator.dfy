/**
 * lib/MockTicketGenerator.ts: drawing unique six-character ticket keys,
 * generating a numbered batch of mock tickets, the `YYYYMMDD-HHMMSS`
 * timestamp of the output file name, and the 3 × 6 page grid.
 *
 * `Math.random()` is a stream of draws in `[0, 1)`; the model runs out of
 * draws where the program would go on drawing, and then yields `None`.
 */
module MockTicketGenerator {
  import opened Wrappers
  import opened JsStrings
  import opened PageGrid

  /** `Ticket` as this file declares it. */
  datatype Ticket = Ticket(qrCode: string, id: int)

  /** One value of `Math.random()`. */
  type Draw = r: real | 0.0 <= r < 1.0 witness 0.0

  /** The key alphabet, `A-Z0-9`. */
  const Chars: string := "ABCDEFGHIJKLMNOPQRSTUVWXYZ0123456789"

  const KeyLength: nat := 6

  predicate InAlphabet(c: char) {
    'A' <= c <= 'Z' || '0' <= c <= '9'
  }

  /** A ticket key: six characters of the alphabet. */
  predicate ValidKey(k: string) {
    |k| == KeyLength && forall i :: 0 <= i < |k| ==> InAlphabet(k[i])
  }

  /** `Math.floor(Math.random() * chars.length)`. */
  function CharIndex(u: Draw): (i: nat)
    ensures i < |Chars|
  {
    (u * 36.0).Floor
  }

  lemma AlphabetChars()
    ensures |Chars| == 36
    ensures forall i :: 0 <= i < |Chars| ==> InAlphabet(Chars[i])
    ensures forall c :: InAlphabet(c) ==> c in Chars
  {
  }

  /** The key six draws spell. */
  function KeyOf(draws: seq<Draw>): (k: string)
    requires |draws| >= KeyLength
    ensures ValidKey(k)
  {
    AlphabetChars();
    seq(KeyLength, i requires 0 <= i < KeyLength => Chars[CharIndex(draws[i])])
  }

  /** The key the do/while loop settles on: the first six-draw key not in `used`. */
  function FirstFreshKey(draws: seq<Draw>, used: set<string>): (r: Option<string>)
    ensures r.Some? ==> ValidKey(r.value) && r.value !in used
    decreases |draws|
  {
    if |draws| < KeyLength then None
    else if KeyOf(draws) !in used then Some(KeyOf(draws))
    else FirstFreshKey(draws[KeyLength..], used)
  }

  /** The draws left once `FirstFreshKey` has accepted a key; none when they ran out. */
  function AfterFreshKey(draws: seq<Draw>, used: set<string>): (rest: seq<Draw>)
    ensures FirstFreshKey(draws, used).Some? ==> |rest| <= |draws| - KeyLength
    ensures FirstFreshKey(draws, used).None? ==> rest == []
    decreases |draws|
  {
    if |draws| < KeyLength then []
    else if KeyOf(draws) !in used then draws[KeyLength..]
    else AfterFreshKey(draws[KeyLength..], used)
  }

  /** Every key the generator can produce is a key drawn from some six consecutive draws. */
  lemma {:induction false} FirstFreshKeyIsDrawn(draws: seq<Draw>, used: set<string>)
    requires FirstFreshKey(draws, used).Some?
    ensures exists n :: (0 <= n && n * KeyLength + KeyLength <= |draws|
      && FirstFreshKey(draws, used).value == KeyOf(draws[n * KeyLength..]))
    decreases |draws|
  {
    if KeyOf(draws) !in used {
      assert draws[0 * KeyLength..] == draws;
    } else {
      FirstFreshKeyIsDrawn(draws[KeyLength..], used);
      var n :| 0 <= n && n * KeyLength + KeyLength <= |draws[KeyLength..]|
        && FirstFreshKey(draws[KeyLength..], used).value == KeyOf(draws[KeyLength..][n * KeyLength..]);
      assert draws[KeyLength..][n * KeyLength..] == draws[(n + 1) * KeyLength..];
    }
  }

  /** The remaining values of `Math.random()`. */
  class RandomStream {
    var draws: seq<Draw>

    constructor (draws: seq<Draw>)
      ensures this.draws == draws
    {
      this.draws := draws;
    }

    /** `Math.random()`: the next draw, if any is left. */
    method Next() returns (u: Option<Draw>)
      modifies this
      ensures old(draws) == [] ==> u == None && draws == []
      ensures old(draws) != [] ==> u == Some(old(draws)[0]) && draws == old(draws)[1..]
    {
      if draws == [] {
        return None;
      }
      u := Some(draws[0]);
      draws := draws[1..];
    }
  }

  /** A `Set<string>` that the generator adds to. */
  class KeySet {
    var keys: set<string>

    constructor ()
      ensures keys == {}
    {
      keys := {};
    }
  }

  /** One pass of the `for` loop: six draws appended to an empty key. */
  method DrawKey(rng: RandomStream) returns (key: Option<string>)
    modifies rng
    ensures |old(rng.draws)| >= KeyLength ==>
      key == Some(KeyOf(old(rng.draws))) && rng.draws == old(rng.draws)[KeyLength..]
    ensures |old(rng.draws)| < KeyLength ==> key == None && rng.draws == []
  {
    ghost var d := rng.draws;
    var k := "";
    for i := 0 to KeyLength
      invariant |k| == i <= |d|
      invariant rng.draws == d[i..]
      invariant forall m :: 0 <= m < i ==> k[m] == Chars[CharIndex(d[m])]
    {
      var u := rng.Next();
      if u.None? {
        return None;
      }
      k := k + [Chars[CharIndex(u.value)]];
    }
    assert k == KeyOf(d);
    return Some(k);
  }

  /**
   * `generateUniqueTicketKey`: draws keys until one is not in `existing`,
   * adds it and returns it.
   */
  method GenerateUniqueTicketKey(existing: KeySet, rng: RandomStream) returns (key: Option<string>)
    modifies existing, rng
    ensures key == FirstFreshKey(old(rng.draws), old(existing.keys))
    ensures key.Some? ==> ValidKey(key.value) && key.value !in old(existing.keys)
    ensures key.Some? ==> existing.keys == old(existing.keys) + {key.value}
    ensures key.None? ==> existing.keys == old(existing.keys)
    ensures rng.draws == AfterFreshKey(old(rng.draws), old(existing.keys))
  {
    while true
      invariant existing.keys == old(existing.keys)
      invariant FirstFreshKey(rng.draws, existing.keys) == FirstFreshKey(old(rng.draws), old(existing.keys))
      invariant AfterFreshKey(rng.draws, existing.keys) == AfterFreshKey(old(rng.draws), old(existing.keys))
      decreases |rng.draws|
    {
      var k := DrawKey(rng);
      if k.None? {
        return None;
      }
      if k.value !in existing.keys {
        existing.keys := existing.keys + {k.value};
        return k;
      }
    }
  }

  /** The keys of a batch. */
  function KeysOf(tickets: seq<Ticket>): set<string> {
    set i | 0 <= i < |tickets| :: tickets[i].qrCode
  }

  /**
   * The batch `generateTickets(count)` builds from `draws`, continuing from
   * the tickets `acc` made so far: ticket `|acc| + 1` gets the first key of
   * the remaining draws that is not in the batch yet. `None` when the draws
   * run out first.
   */
  function Batch(draws: seq<Draw>, acc: seq<Ticket>, count: int): Option<seq<Ticket>>
    decreases count - |acc|
  {
    if |acc| >= count then Some(acc)
    else match FirstFreshKey(draws, KeysOf(acc))
      case None => None
      case Some(k) => Batch(AfterFreshKey(draws, KeysOf(acc)), acc + [Ticket(k, |acc| + 1)], count)
  }

  /** A well-formed partial batch: tickets numbered from 1 with valid, pairwise distinct keys. */
  predicate NumberedDistinct(tickets: seq<Ticket>) {
    && (forall m :: 0 <= m < |tickets| ==> tickets[m].id == m + 1 && ValidKey(tickets[m].qrCode))
    && (forall m, n :: 0 <= m < n < |tickets| ==> tickets[m].qrCode != tickets[n].qrCode)
  }

  /**
   * A batch that completes extends the partial batch to `count` tickets
   * (or keeps it when it already has that many), numbered from 1 with
   * valid, pairwise distinct keys.
   */
  lemma {:induction false} BatchShape(draws: seq<Draw>, acc: seq<Ticket>, count: int)
    requires NumberedDistinct(acc)
    ensures Batch(draws, acc, count).Some? ==>
      var ts := Batch(draws, acc, count).value;
      && |ts| == (if count > |acc| then count else |acc|)
      && ts[..|acc|] == acc
      && NumberedDistinct(ts)
    decreases count - |acc|
  {
    if |acc| < count && FirstFreshKey(draws, KeysOf(acc)).Some? {
      var k := FirstFreshKey(draws, KeysOf(acc)).value;
      var next := acc + [Ticket(k, |acc| + 1)];
      forall m | 0 <= m < |acc| ensures acc[m].qrCode != k {
        assert acc[m].qrCode in KeysOf(acc);
      }
      assert NumberedDistinct(next);
      BatchShape(AfterFreshKey(draws, KeysOf(acc)), next, count);
      if Batch(draws, acc, count).Some? {
        var ts := Batch(draws, acc, count).value;
        assert ts[..|next|] == next;
        assert ts[..|acc|] == next[..|acc|];
      }
    }
  }

  /**
   * Every accepted key uses up at least six draws, so fewer draws than six
   * per missing ticket cannot complete the batch.
   */
  lemma {:induction false} BatchNeedsDraws(draws: seq<Draw>, acc: seq<Ticket>, count: int)
    requires |draws| < KeyLength * (count - |acc|)
    ensures Batch(draws, acc, count) == None
    decreases count - |acc|
  {
    if FirstFreshKey(draws, KeysOf(acc)).Some? {
      var k := FirstFreshKey(draws, KeysOf(acc)).value;
      BatchNeedsDraws(AfterFreshKey(draws, KeysOf(acc)), acc + [Ticket(k, |acc| + 1)], count);
    }
  }

  /**
   * `generateTickets(count)`: tickets numbered 1..count, each with a key
   * unique within the batch. `None` when the draws run out.
   */
  method GenerateTickets(count: int, rng: RandomStream) returns (r: Option<seq<Ticket>>)
    modifies rng
    ensures r == Batch(old(rng.draws), [], count)
    ensures count <= 0 ==> r == Some([])
    ensures r.Some? ==> |r.value| == (if count > 0 then count else 0)
    ensures r.Some? ==> forall i :: 0 <= i < |r.value| ==> r.value[i].id == i + 1 && ValidKey(r.value[i].qrCode)
    ensures r.Some? ==> forall i, j :: 0 <= i < j < |r.value| ==> r.value[i].qrCode != r.value[j].qrCode
  {
    var tickets: seq<Ticket> := [];
    var usedKeys := new KeySet();
    var i := 1;
    while i <= count
      invariant 1 <= i <= (if count > 0 then count else 0) + 1
      invariant |tickets| == i - 1
      invariant usedKeys.keys == KeysOf(tickets)
      invariant Batch(rng.draws, tickets, count) == Batch(old(rng.draws), [], count)
      invariant forall m :: 0 <= m < |tickets| ==> tickets[m].id == m + 1 && ValidKey(tickets[m].qrCode)
      invariant forall m, n :: 0 <= m < n < |tickets| ==> tickets[m].qrCode != tickets[n].qrCode
      decreases count - i
    {
      var key := GenerateUniqueTicketKey(usedKeys, rng);
      if key.None? {
        return None;
      }
      forall m | 0 <= m < |tickets| ensures tickets[m].qrCode != key.value {
        assert tickets[m].qrCode in KeysOf(tickets);
      }
      var t := Ticket(key.value, i);
      assert KeysOf(tickets + [t]) == KeysOf(tickets) + {key.value} by {
        var ts := tickets + [t];
        assert forall m :: 0 <= m < |tickets| ==> ts[m] == tickets[m];
        assert ts[|tickets|] == t;
      }
      tickets := tickets + [t];
      i := i + 1;
    }
    return Some(tickets);
  }

  /** `padTwoDigits`. */
  function PadTwoDigits(num: int): (s: string)
    ensures 0 <= num < 100 ==> |s| == 2 && AllDigits(s) && DigitsValue(s) == num
  {
    if 0 <= num < 100 then PadTwoValue(num); PadTwo(IntToString(num))
    else PadTwo(IntToString(num))
  }

  /**
   * `getFormattedDateTime`: the local-time fields of the date are inputs,
   * with `monthIndex` as `getMonth()` gives it (0 for January).
   */
  function FormattedDateTime(year: int, monthIndex: int, day: int, hours: int, minutes: int, seconds: int): string {
    IntToString(year) + PadTwoDigits(monthIndex + 1) + PadTwoDigits(day) + "-"
      + PadTwoDigits(hours) + PadTwoDigits(minutes) + PadTwoDigits(seconds)
  }

  /** Where each field of the stamp sits. */
  lemma StampSlices(y: string, mo: string, d: string, h: string, mi: string, se: string)
    requires |mo| == 2 && |d| == 2 && |h| == 2 && |mi| == 2 && |se| == 2
    ensures var s, n := y + mo + d + "-" + h + mi + se, |y|;
      && |s| == n + 11 && s[..n] == y && s[n + 4] == '-'
      && s[n..n + 2] == mo && s[n + 2..n + 4] == d
      && s[n + 5..n + 7] == h && s[n + 7..n + 9] == mi && s[n + 9..] == se
  {
  }

  /**
   * `s` reads as the stamp of a date: the year `y`, then two-digit month,
   * day, a `-`, then two-digit hours, minutes and seconds.
   */
  predicate StampReads(s: string, y: string, month: nat, day: nat, hours: nat, minutes: nat, seconds: nat) {
    var n := |s| - 11;
    && |s| >= 11 && n == |y| && s[..n] == y && s[n + 4] == '-'
    && AllDigits(s[n..n + 2]) && AllDigits(s[n + 2..n + 4])
    && AllDigits(s[n + 5..n + 7]) && AllDigits(s[n + 7..n + 9]) && AllDigits(s[n + 9..])
    && DigitsValue(s[n..n + 2]) == month && DigitsValue(s[n + 2..n + 4]) == day
    && DigitsValue(s[n + 5..n + 7]) == hours && DigitsValue(s[n + 7..n + 9]) == minutes
    && DigitsValue(s[n + 9..]) == seconds
  }

  /** The stamp layout read back field by field, for any two-digit fields. */
  lemma StampFields(y: string, mo: string, d: string, h: string, mi: string, se: string,
                    vmo: nat, vd: nat, vh: nat, vmi: nat, vse: nat)
    requires |mo| == 2 && |d| == 2 && |h| == 2 && |mi| == 2 && |se| == 2
    requires AllDigits(mo) && AllDigits(d) && AllDigits(h) && AllDigits(mi) && AllDigits(se)
    requires DigitsValue(mo) == vmo && DigitsValue(d) == vd && DigitsValue(h) == vh
    requires DigitsValue(mi) == vmi && DigitsValue(se) == vse
    ensures StampReads(y + mo + d + "-" + h + mi + se, y, vmo, vd, vh, vmi, vse)
  {
    StampSlices(y, mo, d, h, mi, se);
  }

  /** For a real date the stamp is the year, then `MMDD-HHMMSS` with the month counted from 1. */
  lemma {:induction false} FormattedDateTimeShape(year: nat, monthIndex: int, day: int, hours: int, minutes: int, seconds: int)
    requires 0 <= monthIndex < 12 && 1 <= day <= 31
    requires 0 <= hours < 24 && 0 <= minutes < 60 && 0 <= seconds < 60
    ensures StampReads(FormattedDateTime(year, monthIndex, day, hours, minutes, seconds),
                       NatToString(year), monthIndex + 1, day, hours, minutes, seconds)
  {
    var y, mo, d := IntToString(year), PadTwoDigits(monthIndex + 1), PadTwoDigits(day);
    var h, mi, se := PadTwoDigits(hours), PadTwoDigits(minutes), PadTwoDigits(seconds);
    assert FormattedDateTime(year, monthIndex, day, hours, minutes, seconds) == y + mo + d + "-" + h + mi + se;
    StampFields(y, mo, d, h, mi, se, monthIndex + 1, day, hours, minutes, seconds);
  }

  /** The grid of the mock sheet: 3 columns by 6 rows, 18 tickets per page. */
  method LayOutMockSheet(tickets: seq<Ticket>) returns (pages: seq<seq<Placed<Ticket>>>)
    ensures |pages| == (|tickets| + 17) / 18
    ensures forall k :: 0 <= k < |pages| ==>
      18 * k < |tickets| && |pages[k]| == Min(18, |tickets| - 18 * k)
      && forall j :: 0 <= j < |pages[k]| ==> pages[k][j].ticket == tickets[18 * k + j]
    ensures forall k, j :: 0 <= k < |pages| && 0 <= j < |pages[k]| ==>
      pages[k][j].col == j % 3 < 3 && pages[k][j].row == j / 3 < 6
  {
    pages := LayOutPages(tickets, 3, 6);
  }
}
