/**
 * The scanning device's offline store (lib/OfflineService.ts): tickets keyed by
 * `qr_code`, template summaries keyed by id, and an append-only log of failed
 * pushes; with the download, lookup, redeem and sync operations over it.
 *
 * The authoritative store is not modelled: what a query returns, and whether
 * each push succeeds, are inputs of the operations.
 */
module OfflineService {
  import opened Wrappers
  import opened JsValues

  datatype Status = Generated | Redeemed

  /** A ticket row as the authoritative store returns it; its status may be missing. */
  datatype RemoteTicket = RemoteTicket(
    qrCode: string,
    id: int,
    orgId: string,
    sessionId: string,
    templateId: string,
    ticketNumberStr: Option<string>,
    assignedStartTime: Option<string>,
    status: Option<Status>,
    userData: Value)

  /** A ticket as the device keeps it (`LocalTicket`). */
  datatype LocalTicket = LocalTicket(
    qrCode: string,
    id: int,
    orgId: string,
    sessionId: string,
    templateId: string,
    ticketNumberStr: Option<string>,
    assignedStartTime: Option<string>,
    status: Status,
    userData: Value,
    lastScanTimestamp: Option<int>,
    synced: bool)

  /** A template summary (`LocalTemplate`). */
  datatype LocalTemplate = LocalTemplate(id: string, requiredUserFields: Value, ticketFormat: string)

  datatype SyncLogEntry = SyncLogEntry(timestamp: int, ticket: string, error: string)

  datatype SyncError = SyncError(ticket: string, error: string)

  datatype SyncSummary = SyncSummary(total: nat, success: nat, failed: nat, errors: seq<SyncError>)

  /** The record download stores for a fetched row: clean, never scanned, status defaulting to generated. */
  function Localize(t: RemoteTicket): LocalTicket {
    LocalTicket(t.qrCode, t.id, t.orgId, t.sessionId, t.templateId, t.ticketNumberStr,
                t.assignedStartTime, t.status.GetOr(Generated), t.userData, None, true)
  }

  /** The record a scan stores: `user_data` is replaced by a truthy update, never merged. */
  function Redeem(t: LocalTicket, userDataUpdate: Value, now: int): (r: LocalTicket)
    ensures r.status == Redeemed && !r.synced && r.lastScanTimestamp == Some(now)
    ensures Truthy(userDataUpdate) ==> r.userData == userDataUpdate
    ensures !Truthy(userDataUpdate) ==> r.userData == t.userData
    ensures r.(userData := t.userData, status := t.status, lastScanTimestamp := t.lastScanTimestamp,
               synced := t.synced) == t
  {
    t.(status := Redeemed,
       userData := if Truthy(userDataUpdate) then userDataUpdate else t.userData,
       lastScanTimestamp := Some(now),
       synced := false)
  }

  /** Successive `put`s of fetched rows: a later row with the same code overwrites an earlier one. */
  function PutAll(m: map<string, LocalTicket>, rows: seq<RemoteTicket>): map<string, LocalTicket>
    decreases |rows|
  {
    if rows == [] then m else PutAll(m[rows[0].qrCode := Localize(rows[0])], rows[1..])
  }

  /** Successive `put`s of template summaries, keyed by id. */
  function UpsertTemplates(m: map<string, LocalTemplate>, tpls: seq<LocalTemplate>): map<string, LocalTemplate>
    decreases |tpls|
  {
    if tpls == [] then m else UpsertTemplates(m[tpls[0].id := tpls[0]], tpls[1..])
  }

  /** The sync candidates: `synced === false && status === 'redeemed'`. */
  predicate Dirty(t: LocalTicket) {
    !t.synced && t.status == Redeemed
  }

  function DirtyCodes(m: map<string, LocalTicket>): set<string> {
    set c | c in m && Dirty(m[c])
  }

  /** Dirty codes whose push succeeds (`push` answers `None`). */
  function Pushed(m: map<string, LocalTicket>, push: LocalTicket -> Option<string>): set<string> {
    set c | c in m && Dirty(m[c]) && push(m[c]).None?
  }

  /** Dirty codes whose push fails. */
  function Rejected(m: map<string, LocalTicket>, push: LocalTicket -> Option<string>): set<string> {
    set c | c in m && Dirty(m[c]) && push(m[c]).Some?
  }

  /** The ticket store after the final pass of sync: the pushed codes are marked synced. */
  function MarkSynced(m: map<string, LocalTicket>, done: set<string>): map<string, LocalTicket> {
    map c | c in m :: if c in done then m[c].(synced := true) else m[c]
  }

  function CodesOf(s: seq<string>): set<string> {
    set k | 0 <= k < |s| :: s[k]
  }

  function ErrorCodes(errs: seq<SyncError>): set<string> {
    set k | 0 <= k < |errs| :: errs[k].ticket
  }

  lemma CodesOfSnoc(s: seq<string>, x: string)
    ensures CodesOf(s + [x]) == CodesOf(s) + {x}
  {
    forall c | c in CodesOf(s) ensures c in CodesOf(s + [x]) {
      var k :| 0 <= k < |s| && s[k] == c;
      assert (s + [x])[k] == c;
    }
    assert (s + [x])[|s|] == x;
  }

  lemma ErrorCodesSnoc(s: seq<SyncError>, x: SyncError)
    ensures ErrorCodes(s + [x]) == ErrorCodes(s) + {x.ticket}
  {
    forall c | c in ErrorCodes(s) ensures c in ErrorCodes(s + [x]) {
      var k :| 0 <= k < |s| && s[k].ticket == c;
      assert (s + [x])[k].ticket == c;
    }
    assert (s + [x])[|s|] == x;
  }

  predicate Distinct(s: seq<string>) {
    forall i, j :: 0 <= i < j < |s| ==> s[i] != s[j]
  }

  lemma DistinctSnoc(s: seq<string>, x: string)
    requires Distinct(s) && x !in CodesOf(s)
    ensures Distinct(s + [x])
  {
    forall i, j | 0 <= i < j < |s| + 1 ensures (s + [x])[i] != (s + [x])[j] {
      if j == |s| { assert s[i] in CodesOf(s); }
    }
  }

  /** A list without repetitions has as many elements as its set. */
  lemma {:induction false} DistinctCardinality(s: seq<string>)
    requires Distinct(s)
    ensures |CodesOf(s)| == |s|
  {
    if s != [] {
      var t := s[..|s| - 1];
      DistinctCardinality(t);
      assert s == t + [s[|s| - 1]];
      CodesOfSnoc(t, s[|s| - 1]);
      assert s[|s| - 1] !in CodesOf(t);
    }
  }

  /** The `qr_code`s of a list of tickets, in order. */
  function QrCodes(ts: seq<LocalTicket>): (r: seq<string>)
    ensures |r| == |ts| && forall k :: 0 <= k < |ts| ==> r[k] == ts[k].qrCode
  {
    if ts == [] then [] else QrCodes(ts[..|ts| - 1]) + [ts[|ts| - 1].qrCode]
  }

  /** `t` is the record the ticket store holds under `t`'s own code. */
  predicate Stored(m: map<string, LocalTicket>, t: LocalTicket) {
    t.qrCode in m && m[t.qrCode] == t
  }

  /** The codes whose push succeeded, in push order (`successfulQrCodes`). */
  function OkCodes(ts: seq<LocalTicket>, push: LocalTicket -> Option<string>): seq<string> {
    if ts == [] then []
    else OkCodes(ts[..|ts| - 1], push) + (if push(ts[|ts| - 1]).None? then [ts[|ts| - 1].qrCode] else [])
  }

  /** One `{ticket, error}` entry per failed push, in push order (`errors`). */
  function Failures(ts: seq<LocalTicket>, push: LocalTicket -> Option<string>): seq<SyncError> {
    if ts == [] then []
    else
      var t := ts[|ts| - 1];
      Failures(ts[..|ts| - 1], push) + (if push(t).Some? then [SyncError(t.qrCode, push(t).value)] else [])
  }

  /** The log entries of the failures, in order, stamped `now` (`syncLogs`). */
  function LogEntries(errs: seq<SyncError>, now: int): (r: seq<SyncLogEntry>)
    ensures |r| == |errs|
    ensures forall k :: 0 <= k < |errs| ==> r[k] == SyncLogEntry(now, errs[k].ticket, errs[k].error)
  {
    seq(|errs|, k requires 0 <= k < |errs| => SyncLogEntry(now, errs[k].ticket, errs[k].error))
  }

  /** Codes of a snapshot whose push succeeds. */
  function OkSet(ts: seq<LocalTicket>, push: LocalTicket -> Option<string>): set<string> {
    set k | 0 <= k < |ts| && push(ts[k]).None? :: ts[k].qrCode
  }

  /** Codes of a snapshot whose push fails. */
  function FailSet(ts: seq<LocalTicket>, push: LocalTicket -> Option<string>): set<string> {
    set k | 0 <= k < |ts| && push(ts[k]).Some? :: ts[k].qrCode
  }

  lemma OkSetSnoc(ts: seq<LocalTicket>, t: LocalTicket, push: LocalTicket -> Option<string>)
    ensures OkSet(ts + [t], push) == OkSet(ts, push) + (if push(t).None? then {t.qrCode} else {})
    ensures FailSet(ts + [t], push) == FailSet(ts, push) + (if push(t).Some? then {t.qrCode} else {})
  {
    var u := ts + [t];
    assert forall k :: 0 <= k < |ts| ==> u[k] == ts[k];
    assert u[|ts|] == t;
  }

  /** Each pushed ticket is counted once, as a success or as a failure. */
  lemma {:induction false} PushCount(ts: seq<LocalTicket>, push: LocalTicket -> Option<string>)
    ensures |OkCodes(ts, push)| + |Failures(ts, push)| == |ts|
  {
    if ts != [] {
      PushCount(ts[..|ts| - 1], push);
    }
  }

  /** The successful codes are exactly the snapshot's codes whose push succeeds, each once. */
  lemma {:induction false} OkCodesSet(ts: seq<LocalTicket>, push: LocalTicket -> Option<string>)
    requires Distinct(QrCodes(ts))
    ensures Distinct(OkCodes(ts, push))
    ensures CodesOf(OkCodes(ts, push)) == OkSet(ts, push)
  {
    if ts != [] {
      var init, t := ts[..|ts| - 1], ts[|ts| - 1];
      assert ts == init + [t];
      assert forall i :: 0 <= i < |init| ==> QrCodes(init)[i] == QrCodes(ts)[i];
      OkCodesSet(init, push);
      OkSetSnoc(init, t, push);
      if push(t).None? {
        assert t.qrCode !in OkSet(init, push);
        assert OkCodes(ts, push) == OkCodes(init, push) + [t.qrCode];
        DistinctSnoc(OkCodes(init, push), t.qrCode);
        CodesOfSnoc(OkCodes(init, push), t.qrCode);
      } else {
        assert OkCodes(ts, push) == OkCodes(init, push);
        assert OkSet(ts, push) == OkSet(init, push);
      }
    }
  }

  /** The failures name exactly the snapshot's codes whose push fails, with their messages. */
  lemma {:induction false} FailuresSet(ts: seq<LocalTicket>, push: LocalTicket -> Option<string>)
    ensures ErrorCodes(Failures(ts, push)) == FailSet(ts, push)
    ensures forall k :: 0 <= k < |Failures(ts, push)| ==>
      exists i :: 0 <= i < |ts| && ts[i].qrCode == Failures(ts, push)[k].ticket
        && push(ts[i]) == Some(Failures(ts, push)[k].error)
  {
    if ts != [] {
      var init, t := ts[..|ts| - 1], ts[|ts| - 1];
      assert ts == init + [t];
      FailuresSet(init, push);
      OkSetSnoc(init, t, push);
      var f := Failures(ts, push);
      if push(t).Some? {
        assert f == Failures(init, push) + [SyncError(t.qrCode, push(t).value)];
        ErrorCodesSnoc(Failures(init, push), SyncError(t.qrCode, push(t).value));
      } else {
        assert f == Failures(init, push);
        assert FailSet(ts, push) == FailSet(init, push);
      }
      forall k | 0 <= k < |f|
        ensures exists i :: 0 <= i < |ts| && ts[i].qrCode == f[k].ticket && push(ts[i]) == Some(f[k].error)
      {
        if k < |Failures(init, push)| {
          assert f[k] == Failures(init, push)[k];
          var i :| 0 <= i < |init| && init[i].qrCode == f[k].ticket && push(init[i]) == Some(f[k].error);
          assert ts[i] == init[i];
        } else {
          assert ts[|ts| - 1] == t;
        }
      }
    }
  }

  /** On a snapshot of the dirty stored tickets, the codes that push well are the pushed codes. */
  lemma SnapshotPushed(m: map<string, LocalTicket>, ts: seq<LocalTicket>, push: LocalTicket -> Option<string>)
    requires forall k :: 0 <= k < |ts| ==> Stored(m, ts[k])
    requires CodesOf(QrCodes(ts)) == DirtyCodes(m)
    ensures OkSet(ts, push) == Pushed(m, push)
  {
    forall c | c in Pushed(m, push) ensures c in OkSet(ts, push) {
      assert c in DirtyCodes(m);
      var k :| 0 <= k < |ts| && QrCodes(ts)[k] == c;
      assert Stored(m, ts[k]);
    }
    forall c | c in OkSet(ts, push) ensures c in Pushed(m, push) {
      var k :| 0 <= k < |ts| && push(ts[k]).None? && ts[k].qrCode == c;
      assert Stored(m, ts[k]);
      assert QrCodes(ts)[k] == c;
      assert c in CodesOf(QrCodes(ts));
    }
  }

  /** On a snapshot of the dirty stored tickets, the codes that fail are the rejected codes. */
  lemma SnapshotRejected(m: map<string, LocalTicket>, ts: seq<LocalTicket>, push: LocalTicket -> Option<string>)
    requires forall k :: 0 <= k < |ts| ==> Stored(m, ts[k])
    requires CodesOf(QrCodes(ts)) == DirtyCodes(m)
    ensures FailSet(ts, push) == Rejected(m, push)
  {
    forall c | c in Rejected(m, push) ensures c in FailSet(ts, push) {
      assert c in DirtyCodes(m);
      var k :| 0 <= k < |ts| && QrCodes(ts)[k] == c;
      assert Stored(m, ts[k]);
    }
    forall c | c in FailSet(ts, push) ensures c in Rejected(m, push) {
      var k :| 0 <= k < |ts| && push(ts[k]).Some? && ts[k].qrCode == c;
      assert Stored(m, ts[k]);
      assert QrCodes(ts)[k] == c;
      assert c in CodesOf(QrCodes(ts));
    }
  }

  /**
   * The scan of the ticket store has collected, once each and as stored,
   * exactly the dirty tickets whose codes are no longer `remaining`.
   */
  ghost predicate SnapshotSoFar(m: map<string, LocalTicket>, dirty: seq<LocalTicket>, remaining: set<string>) {
    && remaining <= m.Keys
    && (forall k :: 0 <= k < |dirty| ==> Stored(m, dirty[k]))
    && Distinct(QrCodes(dirty))
    && CodesOf(QrCodes(dirty)) == DirtyCodes(m) - remaining
  }

  /** Scanning a dirty ticket appends it to the snapshot. */
  lemma SnapshotTake(m: map<string, LocalTicket>, dirty: seq<LocalTicket>, remaining: set<string>, c: string)
    requires SnapshotSoFar(m, dirty, remaining) && c in remaining
    requires m[c].qrCode == c && Dirty(m[c])
    ensures SnapshotSoFar(m, dirty + [m[c]], remaining - {c})
  {
    var d := dirty + [m[c]];
    assert d[..|dirty|] == dirty;
    assert QrCodes(d) == QrCodes(dirty) + [c];
    assert c !in CodesOf(QrCodes(dirty));
    CodesOfSnoc(QrCodes(dirty), c);
    DistinctSnoc(QrCodes(dirty), c);
    assert DirtyCodes(m) - (remaining - {c}) == (DirtyCodes(m) - remaining) + {c};
  }

  /** Scanning a clean ticket leaves the snapshot as it is. */
  lemma SnapshotSkip(m: map<string, LocalTicket>, dirty: seq<LocalTicket>, remaining: set<string>, c: string)
    requires SnapshotSoFar(m, dirty, remaining) && c in remaining
    requires !Dirty(m[c])
    ensures SnapshotSoFar(m, dirty, remaining - {c})
  {
    assert DirtyCodes(m) - (remaining - {c}) == DirtyCodes(m) - remaining;
  }

  /**
   * Pushing a snapshot of every dirty ticket, each once and as stored: the
   * successes are the pushed codes and the failures the rejected ones, each
   * failure carrying the message its push answered.
   */
  lemma SnapshotOutcomes(m: map<string, LocalTicket>, dirty: seq<LocalTicket>, push: LocalTicket -> Option<string>)
    requires SnapshotSoFar(m, dirty, {})
    ensures |dirty| == |DirtyCodes(m)|
    ensures CodesOf(OkCodes(dirty, push)) == Pushed(m, push)
    ensures |OkCodes(dirty, push)| == |Pushed(m, push)|
    ensures ErrorCodes(Failures(dirty, push)) == Rejected(m, push)
    ensures |Failures(dirty, push)| == |Rejected(m, push)|
    ensures forall k :: 0 <= k < |Failures(dirty, push)| ==>
      var e := Failures(dirty, push)[k]; e.ticket in m && push(m[e.ticket]) == Some(e.error)
  {
    SnapshotSize(m, dirty);
    SnapshotSuccesses(m, dirty, push);
    SnapshotFailures(m, dirty, push);
    SnapshotFailureMessages(m, dirty, push);
  }

  lemma SnapshotSize(m: map<string, LocalTicket>, dirty: seq<LocalTicket>)
    requires SnapshotSoFar(m, dirty, {})
    ensures CodesOf(QrCodes(dirty)) == DirtyCodes(m)
    ensures |dirty| == |DirtyCodes(m)|
  {
    assert DirtyCodes(m) - {} == DirtyCodes(m);
    DistinctCardinality(QrCodes(dirty));
  }

  lemma SnapshotSuccesses(m: map<string, LocalTicket>, dirty: seq<LocalTicket>, push: LocalTicket -> Option<string>)
    requires SnapshotSoFar(m, dirty, {})
    ensures CodesOf(OkCodes(dirty, push)) == Pushed(m, push)
    ensures |OkCodes(dirty, push)| == |Pushed(m, push)|
  {
    SnapshotSize(m, dirty);
    OkCodesSet(dirty, push);
    SnapshotPushed(m, dirty, push);
    DistinctCardinality(OkCodes(dirty, push));
  }

  lemma SnapshotFailures(m: map<string, LocalTicket>, dirty: seq<LocalTicket>, push: LocalTicket -> Option<string>)
    requires SnapshotSoFar(m, dirty, {})
    ensures ErrorCodes(Failures(dirty, push)) == Rejected(m, push)
    ensures |Failures(dirty, push)| == |Rejected(m, push)|
  {
    SnapshotSize(m, dirty);
    SnapshotSuccesses(m, dirty, push);
    SyncPartition(m, push);
    PushCount(dirty, push);
    FailuresSet(dirty, push);
    SnapshotRejected(m, dirty, push);
  }

  lemma SnapshotFailureMessages(m: map<string, LocalTicket>, dirty: seq<LocalTicket>, push: LocalTicket -> Option<string>)
    requires SnapshotSoFar(m, dirty, {})
    ensures forall k :: 0 <= k < |Failures(dirty, push)| ==>
      var e := Failures(dirty, push)[k]; e.ticket in m && push(m[e.ticket]) == Some(e.error)
  {
    FailuresSet(dirty, push);
    var f := Failures(dirty, push);
    forall k | 0 <= k < |f|
      ensures f[k].ticket in m && push(m[f[k].ticket]) == Some(f[k].error)
    {
      var i :| 0 <= i < |dirty| && dirty[i].qrCode == f[k].ticket && push(dirty[i]) == Some(f[k].error);
      assert Stored(m, dirty[i]);
    }
  }

  /** Every dirty ticket is either pushed or rejected, never both. */
  lemma SyncPartition(m: map<string, LocalTicket>, push: LocalTicket -> Option<string>)
    ensures Pushed(m, push) + Rejected(m, push) == DirtyCodes(m)
    ensures Pushed(m, push) !! Rejected(m, push)
    ensures |Pushed(m, push)| + |Rejected(m, push)| == |DirtyCodes(m)|
  {
    assert Pushed(m, push) + Rejected(m, push) == DirtyCodes(m);
  }

  /**
   * After sync, the candidates of the next sync are exactly the rejected
   * tickets: a failure stays dirty for retry, a success is never pushed again.
   */
  lemma SyncLeavesOnlyRejectedDirty(m: map<string, LocalTicket>, push: LocalTicket -> Option<string>)
    ensures DirtyCodes(MarkSynced(m, Pushed(m, push))) == Rejected(m, push)
  {
    var m' := MarkSynced(m, Pushed(m, push));
    forall c | c in DirtyCodes(m') ensures c in Rejected(m, push) {
      assert c in m && c !in Pushed(m, push);
    }
    forall c | c in Rejected(m, push) ensures c in DirtyCodes(m') {
      assert c !in Pushed(m, push);
      assert m'[c] == m[c];
    }
  }

  /** Sync changes nothing but the `synced` flag of pushed tickets, and keeps every key. */
  lemma MarkSyncedOnlyFlips(m: map<string, LocalTicket>, push: LocalTicket -> Option<string>, c: string)
    requires c in m
    ensures var m' := MarkSynced(m, Pushed(m, push));
      c in m' && m'[c].(synced := m[c].synced) == m[c]
      && (c in Pushed(m, push) ==> m'[c].synced)
      && (c !in DirtyCodes(m) ==> m'[c] == m[c])
  {
  }

  /** Neither a scan nor a sync returns a redeemed ticket to `generated`. */
  lemma {:induction false} RedemptionIsOneWay(t: LocalTicket, u: Value, now: int,
                                             m: map<string, LocalTicket>, done: set<string>, c: string)
    ensures Redeem(t, u, now).status == Redeemed
    ensures c in m && m[c].status == Redeemed ==> MarkSynced(m, done)[c].status == Redeemed
  {
  }

  /** The codes of a batch of rows. */
  function Codes(rows: seq<RemoteTicket>): set<string> {
    set i | 0 <= i < |rows| :: rows[i].qrCode
  }

  lemma CodesCons(rows: seq<RemoteTicket>)
    requires rows != []
    ensures Codes(rows) == {rows[0].qrCode} + Codes(rows[1..])
  {
    forall c | c in Codes(rows) ensures c in {rows[0].qrCode} + Codes(rows[1..]) {
      var i :| 0 <= i < |rows| && rows[i].qrCode == c;
      if i > 0 { assert rows[1..][i - 1].qrCode == c; }
    }
    forall c | c in Codes(rows[1..]) ensures c in Codes(rows) {
      var i :| 0 <= i < |rows[1..]| && rows[1..][i].qrCode == c;
      assert rows[i + 1].qrCode == c;
    }
  }

  /** What successive puts leave under one code: the last row with that code, else the old entry. */
  lemma {:induction false} PutAllAt(m: map<string, LocalTicket>, rows: seq<RemoteTicket>, c: string)
    ensures c in PutAll(m, rows) <==> c in m || c in Codes(rows)
    ensures c in Codes(rows) ==>
      exists i :: 0 <= i < |rows| && rows[i].qrCode == c && PutAll(m, rows)[c] == Localize(rows[i])
    ensures c !in Codes(rows) && c in m ==> PutAll(m, rows)[c] == m[c]
    decreases |rows|
  {
    if rows != [] {
      var m1 := m[rows[0].qrCode := Localize(rows[0])];
      assert PutAll(m, rows) == PutAll(m1, rows[1..]);
      PutAllAt(m1, rows[1..], c);
      CodesCons(rows);
      if c in Codes(rows[1..]) {
        var k :| 0 <= k < |rows[1..]| && rows[1..][k].qrCode == c && PutAll(m1, rows[1..])[c] == Localize(rows[1..][k]);
        assert rows[k + 1] == rows[1..][k];
      } else if c == rows[0].qrCode {
        assert PutAll(m, rows)[c] == Localize(rows[0]);
      }
    }
  }

  /** Every ticket a download stores is clean: synced, never scanned, keyed by its own code. */
  lemma DownloadedTicketsAreClean(rows: seq<RemoteTicket>)
    ensures PutAll(map[], rows).Keys == Codes(rows)
    ensures forall c :: c in PutAll(map[], rows) ==>
      var t := PutAll(map[], rows)[c];
      t.qrCode == c && t.synced && t.lastScanTimestamp == None && !Dirty(t)
      && exists i :: 0 <= i < |rows| && rows[i].qrCode == c && t == Localize(rows[i])
  {
    forall c ensures c in PutAll(map[], rows) <==> c in Codes(rows) {
      PutAllAt(map[], rows, c);
    }
    forall c | c in PutAll(map[], rows)
      ensures exists i :: 0 <= i < |rows| && rows[i].qrCode == c && PutAll(map[], rows)[c] == Localize(rows[i])
    {
      PutAllAt(map[], rows, c);
    }
  }

  /**
   * Download does not protect unsynced redemptions: a locally redeemed, dirty
   * ticket whose server row still says `generated` comes back as `generated`.
   */
  lemma DownloadCanDiscardRedemption(t: LocalTicket, row: RemoteTicket)
    requires Dirty(t) && row.qrCode == t.qrCode && row.status != Some(Redeemed)
    ensures t.qrCode in PutAll(map[], [row])
    ensures PutAll(map[], [row])[t.qrCode].status == Generated
    ensures !Dirty(PutAll(map[], [row])[t.qrCode])
  {
    assert PutAll(map[], [row]) == PutAll(map[row.qrCode := Localize(row)], []);
  }

  class OfflineStore {
    /** The `tickets` object store, keyed by `qr_code`. */
    var tickets: map<string, LocalTicket>
    /** The `templates` object store, keyed by id. */
    var templates: map<string, LocalTemplate>
    /** The `sync_logs` store, in insertion (auto-increment key) order. */
    var syncLog: seq<SyncLogEntry>

    /** Each ticket is stored under its own `qr_code` (the store's key path). */
    ghost predicate Valid()
      reads this
    {
      forall c :: c in tickets ==> tickets[c].qrCode == c
    }

    constructor ()
      ensures Valid() && tickets == map[] && templates == map[] && syncLog == []
    {
      tickets, templates, syncLog := map[], map[], [];
    }

    /** `getTicket`. */
    function GetTicket(qrCode: string): (r: Option<LocalTicket>)
      reads this
      ensures r.Some? <==> qrCode in tickets
      ensures r.Some? ==> r.value == tickets[qrCode]
    {
      if qrCode in tickets then Some(tickets[qrCode]) else None
    }

    /** `getTemplate`. */
    function GetTemplate(templateId: string): (r: Option<LocalTemplate>)
      reads this
      ensures r.Some? <==> templateId in templates
      ensures r.Some? ==> r.value == templates[templateId]
    {
      if templateId in templates then Some(templates[templateId]) else None
    }

    /**
     * `downloadSessionData`: `ticketFetch` is what the ticket query for the
     * session returned, `templateFetch` what the query for their template ids
     * returned. A fetch error is thrown before any write; an empty result
     * writes nothing; otherwise the template summaries are upserted and the
     * ticket store is cleared and refilled.
     */
    method DownloadSessionData(ticketFetch: Result<seq<RemoteTicket>>, templateFetch: Result<seq<LocalTemplate>>)
      returns (r: Result<nat>)
      modifies this
      ensures ticketFetch.Err? ==> r == Err(ticketFetch.error) && unchanged(this)
      ensures ticketFetch == Ok([]) ==> r == Ok(0) && unchanged(this)
      ensures ticketFetch.Ok? && ticketFetch.value != [] && templateFetch.Err? ==>
        r == Err(templateFetch.error) && unchanged(this)
      ensures ticketFetch.Ok? && ticketFetch.value != [] && templateFetch.Ok? ==>
        && r == Ok(|ticketFetch.value|)
        && tickets == PutAll(map[], ticketFetch.value)
        && templates == UpsertTemplates(old(templates), templateFetch.value)
        && syncLog == old(syncLog)
        && Valid()
    {
      if ticketFetch.Err? {
        return Err(ticketFetch.error);
      }
      var rows := ticketFetch.value;
      if |rows| == 0 {
        return Ok(0);
      }
      // The distinct template ids of a non-empty batch are never empty, so the
      // template query always runs here.
      if templateFetch.Err? {
        return Err(templateFetch.error);
      }
      var tpls := templateFetch.value;

      for i := 0 to |tpls|
        invariant UpsertTemplates(templates, tpls[i..]) == UpsertTemplates(old(templates), tpls)
        invariant tickets == old(tickets) && syncLog == old(syncLog)
      {
        assert tpls[i..][0] == tpls[i] && tpls[i..][1..] == tpls[i + 1..];
        templates := templates[tpls[i].id := tpls[i]];
      }
      assert tpls[|tpls|..] == [];

      tickets := map[];
      for i := 0 to |rows|
        invariant PutAll(tickets, rows[i..]) == PutAll(map[], rows)
        invariant templates == UpsertTemplates(old(templates), tpls) && syncLog == old(syncLog)
        invariant forall c :: c in tickets ==> tickets[c].qrCode == c
      {
        assert rows[i..][0] == rows[i] && rows[i..][1..] == rows[i + 1..];
        tickets := tickets[rows[i].qrCode := Localize(rows[i])];
      }
      assert rows[|rows|..] == [];
      return Ok(|rows|);
    }

    /**
     * `scanTicket`: an unknown code throws "Ticket not found" and writes
     * nothing; otherwise only that ticket is rewritten, as `Redeem` gives it.
     * `userDataUpdate` is `updates.user_data` (`Undefined` when not given).
     */
    method ScanTicket(qrCode: string, userDataUpdate: Value, now: int) returns (r: Result<()>)
      requires Valid()
      modifies this
      ensures Valid()
      ensures qrCode !in old(tickets) ==> r == Err("Ticket not found") && unchanged(this)
      ensures qrCode in old(tickets) ==>
        && r == Ok(())
        && tickets == old(tickets)[qrCode := Redeem(old(tickets)[qrCode], userDataUpdate, now)]
        && templates == old(templates) && syncLog == old(syncLog)
    {
      if qrCode !in tickets {
        return Err("Ticket not found");
      }
      var ticket := tickets[qrCode];
      var updated := Redeem(ticket, userDataUpdate, now);
      tickets := tickets[updated.qrCode := updated];
      return Ok(());
    }

    /**
     * `db.getAll` followed by the dirty filter: every dirty ticket once, as
     * stored. The order in which the store enumerates is left open.
     */
    method DirtySnapshot() returns (dirty: seq<LocalTicket>)
      requires Valid()
      ensures Distinct(QrCodes(dirty))
      ensures forall k :: 0 <= k < |dirty| ==> Stored(tickets, dirty[k])
      ensures CodesOf(QrCodes(dirty)) == DirtyCodes(tickets)
      ensures |dirty| == |DirtyCodes(tickets)|
      ensures SnapshotSoFar(tickets, dirty, {})
    {
      var remaining := tickets.Keys;
      dirty := [];
      while remaining != {}
        invariant SnapshotSoFar(tickets, dirty, remaining)
        decreases |remaining|
      {
        var c :| c in remaining;
        if Dirty(tickets[c]) {
          SnapshotTake(tickets, dirty, remaining, c);
          dirty := dirty + [tickets[c]];
        } else {
          SnapshotSkip(tickets, dirty, remaining, c);
        }
        remaining := remaining - {c};
      }
      DistinctCardinality(QrCodes(dirty));
    }

    /**
     * The push loop of `syncSessionData`, one push per snapshot entry in
     * order (`push` gives the outcome of a push: `None` on success,
     * `Some(message)` on failure); nothing is written to the device here.
     */
    static method PushDirtyTickets(dirty: seq<LocalTicket>, push: LocalTicket -> Option<string>, now: int)
      returns (successfulQrCodes: seq<string>, errors: seq<SyncError>, syncLogs: seq<SyncLogEntry>)
      ensures successfulQrCodes == OkCodes(dirty, push)
      ensures errors == Failures(dirty, push)
      ensures syncLogs == LogEntries(errors, now)
    {
      successfulQrCodes, errors, syncLogs := [], [], [];
      for i := 0 to |dirty|
        invariant successfulQrCodes == OkCodes(dirty[..i], push)
        invariant errors == Failures(dirty[..i], push)
        invariant |syncLogs| == |errors|
        invariant forall k :: 0 <= k < |errors| ==> syncLogs[k] == SyncLogEntry(now, errors[k].ticket, errors[k].error)
      {
        assert dirty[..i + 1][..i] == dirty[..i];
        var ticket := dirty[i];
        var outcome := push(ticket);
        if outcome.Some? {
          errors := errors + [SyncError(ticket.qrCode, outcome.value)];
          syncLogs := syncLogs + [SyncLogEntry(now, ticket.qrCode, outcome.value)];
        } else {
          successfulQrCodes := successfulQrCodes + [ticket.qrCode];
        }
      }
      assert dirty[..|dirty|] == dirty;
      assert syncLogs == LogEntries(errors, now);
    }

    /** The final pass of sync, first half: each listed code still stored is marked synced. */
    method MarkCodesSynced(codes: seq<string>)
      requires Valid()
      modifies this
      ensures Valid()
      ensures tickets == MarkSynced(old(tickets), CodesOf(codes))
      ensures templates == old(templates) && syncLog == old(syncLog)
    {
      for j := 0 to |codes|
        invariant tickets == MarkSynced(old(tickets), CodesOf(codes[..j]))
        invariant templates == old(templates) && syncLog == old(syncLog)
      {
        var qr := codes[j];
        assert codes[..j + 1] == codes[..j] + [qr];
        CodesOfSnoc(codes[..j], qr);
        if qr in tickets {
          tickets := tickets[qr := tickets[qr].(synced := true)];
        }
      }
      assert codes[..|codes|] == codes;
    }

    /** The final pass of sync, second half: the failure entries are appended to the log. */
    method AppendSyncLogs(entries: seq<SyncLogEntry>)
      modifies this
      ensures syncLog == old(syncLog) + entries
      ensures tickets == old(tickets) && templates == old(templates)
    {
      for j := 0 to |entries|
        invariant syncLog == old(syncLog) + entries[..j]
        invariant tickets == old(tickets) && templates == old(templates)
      {
        assert entries[..j + 1] == entries[..j] + [entries[j]];
        syncLog := syncLog + [entries[j]];
      }
      assert entries[..|entries|] == entries;
    }

    /**
     * `syncSessionData`: pushes each dirty ticket in turn, then marks the
     * pushed tickets synced and appends one log entry per failure. `now` is
     * the time stamped on the log entries.
     */
    method SyncSessionData(push: LocalTicket -> Option<string>, now: int) returns (r: SyncSummary)
      requires Valid()
      modifies this
      ensures Valid()
      ensures DirtyCodes(old(tickets)) == {} ==> r == SyncSummary(0, 0, 0, []) && unchanged(this)
      ensures r.total == |DirtyCodes(old(tickets))| == r.success + r.failed
      ensures r.success == |Pushed(old(tickets), push)| && r.failed == |Rejected(old(tickets), push)|
      ensures |r.errors| == r.failed && ErrorCodes(r.errors) == Rejected(old(tickets), push)
      ensures forall k :: 0 <= k < |r.errors| ==>
        r.errors[k].ticket in old(tickets) && push(old(tickets)[r.errors[k].ticket]) == Some(r.errors[k].error)
      ensures tickets == MarkSynced(old(tickets), Pushed(old(tickets), push))
      ensures templates == old(templates)
      ensures syncLog == old(syncLog) + LogEntries(r.errors, now)
    {
      var dirty := DirtySnapshot();
      ghost var m := tickets;
      SyncPartition(m, push);
      if |dirty| == 0 {
        return SyncSummary(0, 0, 0, []);
      }

      var successfulQrCodes, errors, syncLogs := PushDirtyTickets(dirty, push, now);
      var successCount, failCount := |successfulQrCodes|, |errors|;
      SnapshotOutcomes(m, dirty, push);

      if |successfulQrCodes| > 0 || |syncLogs| > 0 {
        MarkCodesSynced(successfulQrCodes);
        AppendSyncLogs(syncLogs);
      }

      r := SyncSummary(|dirty|, successCount, failCount, errors);
    }
  }
}
