/** Exactly when recovery falls short: two conditions that a caller can check beforehand. */
module RowLogLimits {
  import Journal
  import opened Wrappers
  import opened RowLog
  import opened RowLogRecovery
  import opened RowLogWrites
  import opened RowLogRuns

  // ----- inserts that carry a row ETag -----

  /** From the crash after `k` writes every recovery finds what it needs and restores the table. */
  ghost predicate RecoverableAt(s: State, p: Plan, k: nat) {
    var m := Crash(s, WriteCommands(s, p), k);
    forall order :: ListsPending(m, order) ==>
      RevertSucceeds(m, order) && TableOf(Replay(m, RevertCommands(m, order))) == TableOf(s)
  }

  /** The same wherever the write stops before its commit. */
  ghost predicate RecoverableEverywhere(s: State, p: Plan) {
    forall k: nat :: k < |WriteCommands(s, p)| ==> RecoverableAt(s, p, k)
  }

  lemma UndoLeaves(s: State, e: Uri)
    requires e in s.log && CanUndo(s, e)
    ensures Replay(s, UndoCommands(s, e)) == ResetState(s, e).(log := s.log - {e})
  {
    ResetWrites(s, e);
    Journal.ReplayConcat(Apply, s, ResetRow(s, e), [DropLog(e)]);
    Journal.One(Apply, ResetState(s, e), DropLog(e), 1);
  }

  /** Undoing one log row after the others. */
  lemma {:induction false} RevertLast(s: State, order: seq<Uri>, e: Uri)
    ensures
      var s' := Replay(s, RevertCommands(s, order));
      RevertSucceeds(s, order + [e]) ==>
        && RevertSucceeds(s, order) && e in s'.log && CanUndo(s', e)
        && Replay(s, RevertCommands(s, order + [e])) == Replay(s', UndoCommands(s', e))
    decreases |order|
  {
    if order == [] {
      Journal.Nothing(Apply, s, [], 0);
      if e in s.log && CanUndo(s, e) {
        var c := UndoCommands(s, e);
        assert order + [e] == [e] && [e][1..] == [] && c + [] == c;
        assert RevertCommands(s, [e]) == c + RevertCommands(Replay(s, c), []);
      }
    } else if order[0] in s.log && CanUndo(s, order[0]) {
      var c := UndoCommands(s, order[0]);
      var s1 := Replay(s, c);
      assert (order + [e])[1..] == order[1..] + [e];
      RevertLast(s1, order[1..], e);
      Journal.ReplayConcat(Apply, s, c, RevertCommands(s1, order[1..]));
      Journal.ReplayConcat(Apply, s, c, RevertCommands(s1, order[1..] + [e]));
    }
  }

  /** A recovery that succeeds drops the log rows that it is given, and no others. */
  lemma {:induction false} RevertDrops(s: State, order: seq<Uri>)
    requires RevertSucceeds(s, order)
    ensures
      var s' := Replay(s, RevertCommands(s, order));
      s'.entry == s.entry && forall f :: f in s'.log <==> f in s.log && f !in order
    ensures PartOf(Replay(s, RevertCommands(s, order)).log, s.log)
    decreases |order|
  {
    if order != [] {
      var c := UndoCommands(s, order[0]);
      UndoLeaves(s, order[0]);
      Journal.ReplayConcat(Apply, s, c, RevertCommands(Replay(s, c), order[1..]));
      RevertDrops(Replay(s, c), order[1..]);
      assert order == [order[0]] + order[1..];
    }
  }

  /** Undone as the last one, a log row with a previous ETag leaves its data row there, or fails. */
  lemma LastBringsRow(m: State, order: seq<Uri>, e: Uri)
    requires e in m.log && m.log[e].prev.Some? && ListsPending(m, order + [e])
    requires RevertSucceeds(m, order + [e])
    ensures m.log[e].rowId in TableOf(Replay(m, RevertCommands(m, order + [e]))).head
  {
    RevertLast(m, order, e);
    RevertDrops(m, order);
    RevertDrops(m, order + [e]);
    var s' := Replay(m, RevertCommands(m, order));
    var u := Replay(s', UndoCommands(s', e));
    UndoLeaves(s', e);
    var r, x := m.log[e].rowId, m.log[e].prev.value;
    assert s'.log[e] == m.log[e];
    hide RevertSucceeds, RevertCommands, UndoCommands, Journal.Replay;
    assert r in u.rows && u.rows[r].etag == x;
    assert forall f :: f in u.log ==> f in m.log && u.log[f] == m.log[f] && f !in order + [e];
    assert !IsPending(u, x);
    assert Base(u, r) == Some(x);
  }

  /** The log rows that are stored after `k` writes are those that are pending then. */
  lemma CutPending(s: State, next: nat, clock: nat, p: Plan, k: nat)
    requires Clean(s) && Issued(s, next, clock) && BuiltPlan(s, next, clock, p) && 0 < k < |WriteCommands(s, p)|
    ensures
      var m, logs := Crash(s, WriteCommands(s, p), k), MapOf(LogsBy(p, k));
      && (forall f :: IsPending(m, f) <==> f in logs) && (forall f :: f in logs ==> f in m.log && m.log[f] == logs[f])
  {
    hide Journal.Crash, WriteCommands, MapOf, EntriesShow;
    CutWrite(s, p, k);
    CutPart(p, k);
    MidPendingParts(s, next, clock, p, MapOf(LogsBy(p, k)), MapOf(RowsBy(p, k)));
  }

  lemma MidPendingParts(
      s: State, next: nat, clock: nat, p: Plan, logs: map<Uri, LogRow>, rows: map<RowId, Row>)
    requires Clean(s) && Issued(s, next, clock) && BuiltPlan(s, next, clock, p) && PartOf(logs, MapOf(p.logs))
    ensures forall f :: IsPending(Mid(s, p.tag, logs, rows), f) <==> f in logs
  {
    hide EntriesShow, MapOf, TableOf;
    FreshIsNew(s, next, clock, p.tag, MapOf(p.logs), logs);
    assert forall e :: e in logs ==> logs[e].tag == p.tag;
    MidPendingAre(s, p.tag, logs, rows);
  }

  lemma LastOf(m: State, es: set<Uri>, rest: seq<Uri>, e: Uri)
    requires e in es && forall f :: f in rest <==> f in es && f != e
    requires forall i, j :: 0 <= i < j < |rest| ==> rest[i] != rest[j]
    requires forall f :: IsPending(m, f) <==> f in es
    ensures ListsPending(m, rest + [e])
  {
    hide IsPending;
    assert forall f :: f in rest + [e] <==> f in rest || f == e;
  }

  /** An insert with an ETag among the log rows that are stored makes some order of recovery go wrong. */
  lemma ETagOnInsertBlocksRecovery(s: State, next: nat, clock: nat, p: Plan, k: nat, e: Uri)
    requires Clean(s) && Issued(s, next, clock) && BuiltPlan(s, next, clock, p) && 0 < k < |WriteCommands(s, p)|
    requires e in MapOf(LogsBy(p, k)) && MapOf(LogsBy(p, k))[e].rowId !in TableOf(s).head
    requires MapOf(LogsBy(p, k))[e].prev.Some?
    ensures !RecoverableAt(s, p, k)
  {
    var logs := MapOf(LogsBy(p, k));
    CutPending(s, next, clock, p, k);
    hide Journal.Crash, WriteCommands, Issued, BuiltPlan, MapOf, TableOf;
    hide Clean, RevertSucceeds, RevertCommands, IsPending;
    hide Journal.Replay, LogsBy;
    var m := Crash(s, WriteCommands(s, p), k);
    var rest := Listing(logs.Keys - {e});
    var order := rest + [e];
    LastOf(m, logs.Keys, rest, e);
    hide ListsPending;
    if RevertSucceeds(m, order) {
      LastBringsRow(m, rest, e);
    }
  }

  lemma {:induction false} Listing(es: set<Uri>) returns (order: seq<Uri>)
    ensures forall e :: e in order <==> e in es
    ensures forall i, j :: 0 <= i < j < |order| ==> order[i] != order[j]
  {
    if es == {} {
      order := [];
    } else {
      var e :| e in es;
      var rest := Listing(es - {e});
      order := [e] + rest;
    }
  }

  lemma {:induction false} Bound(logs: map<Uri, LogRow>, low: nat) returns (high: nat)
    ensures low <= high && forall e :: e in logs ==> e < high && logs[e].seqv < high
    decreases |logs|
  {
    if logs == map[] {
      high := low;
    } else {
      var e :| e in logs;
      var rest := logs - {e};
      assert logs == rest[e := logs[e]];
      var h := Bound(rest, low);
      high := h + e + logs[e].seqv + 1;
    }
  }

  /**
    From any crash point before the commit the table can be restored if and only if none of the
    log rows stored by then is an insert that was sent with a row ETag.
   */
  lemma RecoverableAtIff(s: State, next: nat, clock: nat, p: Plan, k: nat)
    requires Inv(s) && Clean(s) && Issued(s, next, clock) && BuiltPlan(s, next, clock, p)
    requires k < |WriteCommands(s, p)|
    ensures RecoverableAt(s, p, k) <==> InsertsSendNoETag(TableOf(s), MapOf(LogsBy(p, k)))
  {
    var t, logs := TableOf(s), MapOf(LogsBy(p, k));
    if InsertsSendNoETag(t, logs) {
      hide Inv, TableOf, Journal.Crash, WriteCommands, Issued, BuiltPlan, RevertSucceeds, RevertCommands, ListsPending;
      hide InsertsSendNoETag;
      var high := Bound(MapOf(p.logs), next + clock + p.tag + 1);
      CutWriteKeeps(s, next, clock, high, high, p, k);
      var m := Crash(s, WriteCommands(s, p), k);
      forall order | ListsPending(m, order)
        ensures RevertSucceeds(m, order) && TableOf(Replay(m, RevertCommands(m, order))) == t
      {
        RevertReaches(m, order);
      }
    } else {
      assert k > 0;
      var e :| e in logs && logs[e].rowId !in t.head && logs[e].prev != None;
      ETagOnInsertBlocksRecovery(s, next, clock, p, k, e);
    }
  }

  /** The write can always be undone if and only if its inserts carry no row ETag. */
  lemma RecoverableIffInsertsSendNoETag(s: State, next: nat, clock: nat, p: Plan)
    requires Inv(s) && Clean(s) && Issued(s, next, clock) && BuiltPlan(s, next, clock, p)
    ensures RecoverableEverywhere(s, p) <==> InsertsSendNoETag(TableOf(s), MapOf(p.logs))
  {
    hide Inv, Clean, TableOf, Issued, MapOf, RecoverableAt;
    var late := 1 + |p.logs|;
    assert LogsBy(p, late) == p.logs && late < |WriteCommands(s, p)|;
    RecoverableAtIff(s, next, clock, p, late);
    if InsertsSendNoETag(TableOf(s), MapOf(p.logs)) {
      forall k: nat | k < |WriteCommands(s, p)| ensures RecoverableAt(s, p, k) {
        RecoverableAtIff(s, next, clock, p, k);
        BuiltParts(s, next, clock, p, k);
      }
    }
  }

  /** Undoing some log row never brings back a data row that is not there. */
  lemma UndoAddsNoRow(s: State, e: Uri)
    requires e in s.log && CanUndo(s, e)
    ensures
      var s' := Replay(s, UndoCommands(s, e));
      && s'.entry == s.entry && s'.log == s.log - {e}
      && (forall r :: r !in s.rows ==> r !in s'.rows)
  {
    ResetWrites(s, e);
    Journal.ReplayConcat(Apply, s, ResetRow(s, e), [DropLog(e)]);
    Journal.One(Apply, ResetState(s, e), DropLog(e), 1);
  }

  /** A log row with a previous ETag but without a data row makes every recovery fail. */
  lemma {:induction false} RevertFails(s: State, order: seq<Uri>, e: Uri)
    requires e in order && e in s.log
    requires s.log[e].prev.Some? && s.log[e].rowId !in s.rows
    ensures !RevertSucceeds(s, order)
    decreases |order|
  {
    var f := order[0];
    if f != e && f in s.log && CanUndo(s, f) {
      UndoAddsNoRow(s, f);
      RevertFails(Replay(s, UndoCommands(s, f)), order[1..], e);
    }
  }

  /** The state in which all log rows but no data row of the change set are stored. */
  lemma LogsOnly(s: State, p: Plan)
    ensures
      var k := 1 + |p.logs|;
      && k < |WriteCommands(s, p)|
      && Crash(s, WriteCommands(s, p), k) == Mid(s, p.tag, MapOf(p.logs), map[])
  {
    var k := 1 + |p.logs|;
    CutWrite(s, p, k);
    assert LogsBy(p, k) == p.logs;
    assert RowsBy(p, k) == [];
  }

  // ----- fields that the log does not carry -----

  /** Rewriting the row from its own log row would not change it. */
  predicate LogHoldsAll(s: State, r: RowId)
    requires r in s.rows && s.rows[r].etag in s.log
  {
    s.rows[r].device == None && s.rows[r].office == None && s.rows[r].tag == s.log[s.rows[r].etag].tag
  }

  /** The log row of some row that was already stored is among the first `k` writes. */
  ghost predicate Relogged(s: State, logs: map<Uri, LogRow>, r: RowId) {
    r in s.rows && exists e :: e in logs && logs[e].rowId == r
  }

  lemma RecoveredRow(
      s: State, next: nat, clock: nat, tag: Uri,
      allLogs: map<Uri, LogRow>, allRows: map<RowId, Row>,
      logs: map<Uri, LogRow>, rows: map<RowId, Row>, r: RowId)
    requires Inv(s) && Clean(s) && Issued(s, next, clock)
    requires Built(TableOf(s), s.columns, tag, allLogs, allRows) && Fresh(next, clock, tag, allLogs)
    requires PartOf(logs, allLogs) && RowsShow(allLogs, rows) && InsertsSendNoETag(TableOf(s), logs)
    requires forall q :: q in rows ==> rows[q].etag in logs
    requires r in s.rows
    ensures
      var m := Recovered(Mid(s, tag, logs, rows));
      && r in m.rows && s.rows[r].etag in s.log
      && m.rows[r] == if Relogged(s, logs, r) then Restore(s.rows[r], s.rows[r].etag, s.log[s.rows[r].etag])
                      else s.rows[r]
  {
    var m := Mid(s, tag, logs, rows);
    assert RowShows(s.log, r, s.rows[r]);
    hide Inv, Issued, Built, InsertsSendNoETag, Fresh, Shows, RowsShow, TableOf, PartOf, Clean, Recovered, Committed;
    MidKeeps(s, next, clock, tag, allLogs, allRows, logs, rows);
    MidBases(s, next, clock, tag, allLogs, allRows, logs, rows, r);
    assert Survives(m, r);
    SurvivorIs(m, r);
    SurvivorShows(m, r);
    TouchedIffRelogged(s, m, logs, r);
    ShowsSameCreator(RowAfter(m, r), s.rows[r], s.log[s.rows[r].etag]);
    WrittenIsRelogged(s, allLogs, logs, rows, r);
    hide Relogged, Touched, IsPending, Base;
  }

  lemma SurvivorIs(m: State, r: RowId)
    requires Survives(m, r)
    ensures r in Recovered(m).rows && Recovered(m).rows[r] == RowAfter(m, r)
  {
  }

  lemma MidBases(
      s: State, next: nat, clock: nat, tag: Uri,
      allLogs: map<Uri, LogRow>, allRows: map<RowId, Row>,
      logs: map<Uri, LogRow>, rows: map<RowId, Row>, r: RowId)
    requires Inv(s) && Clean(s) && Issued(s, next, clock)
    requires Built(TableOf(s), s.columns, tag, allLogs, allRows) && Fresh(next, clock, tag, allLogs)
    requires PartOf(logs, allLogs) && RowsShow(allLogs, rows) && InsertsSendNoETag(TableOf(s), logs)
    requires forall q :: q in rows ==> rows[q].etag in logs
    requires r in s.rows
    ensures Base(Mid(s, tag, logs, rows), r) == Some(s.rows[r].etag) && s.rows[r].etag in s.log
    ensures (s.log + logs)[s.rows[r].etag] == s.log[s.rows[r].etag]
  {
    hide TableInv, Built, InsertsSendNoETag, RowsShow, TableOf, Shows;
    PartFits(TableOf(s), s.columns, tag, allLogs, allRows, logs, rows);
    FreshIsNew(s, next, clock, tag, allLogs, logs);
    MatchedHaveLogs(s);
    MidTable(s, tag, logs, rows);
    CleanHead(s, r);
  }

  lemma TouchedIffRelogged(s: State, m: State, logs: map<Uri, LogRow>, r: RowId)
    requires r in s.rows && m.log == s.log + logs
    requires forall e :: IsPending(m, e) <==> e in logs
    ensures Touched(m, r) <==> Relogged(s, logs, r)
  {
    if Relogged(s, logs, r) {
      var e :| e in logs && logs[e].rowId == r;
      assert IsPending(m, e) && m.log[e].rowId == r;
    }
  }

  lemma ShowsSameCreator(a: Row, b: Row, l: LogRow)
    requires Shows(a, l) && Shows(b, l)
    ensures a.createUser == b.createUser
  {
  }

  lemma WrittenIsRelogged(s: State, allLogs: map<Uri, LogRow>, logs: map<Uri, LogRow>, rows: map<RowId, Row>, r: RowId)
    requires PartOf(logs, allLogs) && RowsShow(allLogs, rows)
    requires forall q :: q in rows ==> rows[q].etag in logs
    requires r in s.rows
    ensures r in rows ==> Relogged(s, logs, r)
  {
    hide Shows;
    if r in rows {
      assert RowShows(allLogs, r, rows[r]);
      assert logs[rows[r].etag].rowId == r;
    }
  }

  lemma RecoveredKeys(s: State, m: State)
    requires Inv(s) && Clean(s) && Inv(m) && TableOf(m) == TableOf(s)
    ensures Recovered(m).rows.Keys == s.rows.Keys && Recovered(m).log == s.log
  {
    RecoveredShowsTable(m);
    CleanIsRecovered(s);
    RecoveredShowsTable(s);
  }

  lemma RestoreIsSame(s: State, r: RowId)
    requires RowsMatchLog(s) && LogTyped(s) && r in s.rows
    ensures s.rows[r].etag in s.log
    ensures Restore(s.rows[r], s.rows[r].etag, s.log[s.rows[r].etag]) == s.rows[r] <==> LogHoldsAll(s, r)
  {
    assert Shows(s.rows[r], s.log[s.rows[r].etag]);
  }

  lemma ExactRow(
      s: State, next: nat, clock: nat, tag: Uri,
      allLogs: map<Uri, LogRow>, allRows: map<RowId, Row>,
      logs: map<Uri, LogRow>, rows: map<RowId, Row>, r: RowId)
    requires Inv(s) && Clean(s) && Issued(s, next, clock)
    requires Built(TableOf(s), s.columns, tag, allLogs, allRows) && Fresh(next, clock, tag, allLogs)
    requires PartOf(logs, allLogs) && RowsShow(allLogs, rows) && InsertsSendNoETag(TableOf(s), logs)
    requires forall q :: q in rows ==> rows[q].etag in logs
    requires r in s.rows
    ensures s.rows[r].etag in s.log
    ensures
      var m := Recovered(Mid(s, tag, logs, rows));
      r in m.rows && (m.rows[r] == s.rows[r] <==> (Relogged(s, logs, r) ==> LogHoldsAll(s, r)))
  {
    RecoveredRow(s, next, clock, tag, allLogs, allRows, logs, rows, r);
    RestoreIsSame(s, r);
  }

  lemma ExactFromRows(s: State, m: State, logs: map<Uri, LogRow>)
    requires m.columns == s.columns && m.log == s.log && m.rows.Keys == s.rows.Keys
    requires forall r :: r in s.rows ==>
      && s.rows[r].etag in s.log
      && (m.rows[r] == s.rows[r] <==> (Relogged(s, logs, r) ==> LogHoldsAll(s, r)))
    ensures m == s.(entry := m.entry) <==> forall r :: Relogged(s, logs, r) ==> LogHoldsAll(s, r)
  {
    if forall r :: Relogged(s, logs, r) ==> LogHoldsAll(s, r) {
      assert m.rows == s.rows;
    }
  }

  lemma ExactMid(
      s: State, next: nat, clock: nat, tag: Uri,
      allLogs: map<Uri, LogRow>, allRows: map<RowId, Row>,
      logs: map<Uri, LogRow>, rows: map<RowId, Row>)
    requires Inv(s) && Clean(s) && Issued(s, next, clock)
    requires Built(TableOf(s), s.columns, tag, allLogs, allRows) && Fresh(next, clock, tag, allLogs)
    requires PartOf(logs, allLogs) && RowsShow(allLogs, rows) && InsertsSendNoETag(TableOf(s), logs)
    requires forall q :: q in rows ==> rows[q].etag in logs
    ensures forall r :: r in s.rows ==> s.rows[r].etag in s.log
    ensures
      var m := Mid(s, tag, logs, rows);
      Recovered(m) == s.(entry := m.entry) <==> forall r :: Relogged(s, logs, r) ==> LogHoldsAll(s, r)
  {
    hide Inv, Issued, Built, InsertsSendNoETag, Fresh, LogHoldsAll, Relogged;
    var m := Mid(s, tag, logs, rows);
    MidKeeps(s, next, clock, tag, allLogs, allRows, logs, rows);
    RecoveredKeys(s, m);
    forall r | r in s.rows
      ensures s.rows[r].etag in s.log && r in Recovered(m).rows
      ensures Recovered(m).rows[r] == s.rows[r] <==> (Relogged(s, logs, r) ==> LogHoldsAll(s, r))
    {
      ExactRow(s, next, clock, tag, allLogs, allRows, logs, rows, r);
    }
    ExactFromRows(s, Recovered(m), logs);
  }

  /**
    Recovery brings back the stored state of the last commit exactly when no data row whose
    change had reached the log holds something that its log row does not: a device, an
    office, or, after a delete, the tag of an older change.
   */
  lemma RecoveryIsExactIff(s: State, next: nat, clock: nat, p: Plan, k: nat)
    requires Inv(s) && Clean(s) && Issued(s, next, clock) && BuiltPlan(s, next, clock, p)
    requires 0 < k < |WriteCommands(s, p)| && InsertsSendNoETag(TableOf(s), MapOf(LogsBy(p, k)))
    ensures forall r :: r in s.rows ==> s.rows[r].etag in s.log
    ensures
      var m := Crash(s, WriteCommands(s, p), k);
      Recovered(m) == s.(entry := m.entry) <==>
        forall r :: Relogged(s, MapOf(LogsBy(p, k)), r) ==> LogHoldsAll(s, r)
  {
    CutWrite(s, p, k);
    CutPart(p, k);
    ExactMid(s, next, clock, p.tag, MapOf(p.logs), MapOf(p.rows), MapOf(LogsBy(p, k)), MapOf(RowsBy(p, k)));
  }

  // An update of a row that records a device.

  const BODY := Body("ann", Scope("DEFAULT", None), Meta(None, None, None, None, None), map[])
  const STORED := LogRow(0, 0, None, 0, "ann", false, BODY, None, None)
  const UPDATE := LogRow(0, 1, Some(1), 2, "ann", false, BODY, None, None)
  const TABLET :=
    State([], Entry(Some(0), None, 0), map[0 := Row(1, 0, "ann", false, BODY, Some("tablet"), None)], map[1 := STORED])
  const CHANGE := Plan(2, [(3, UPDATE)], [(0, Row(3, 2, "ann", false, BODY, None, None))])

  lemma TabletTable()
    ensures Clean(TABLET) && TableOf(TABLET) == Table(Some(0), map[1 := STORED], map[0 := 1])
  {
    assert Committed(TABLET) == map[1 := STORED];
    assert TableOf(TABLET).head == map[0 := 1];
  }

  lemma TabletTableInv()
    ensures TableInv(Table(Some(0), map[1 := STORED], map[0 := 1]))
  {
  }

  lemma TabletRows()
    ensures RowsMatchLog(TABLET) && LogTyped(TABLET)
  {
  }

  lemma TabletIssued()
    ensures Issued(TABLET, 2, 1)
  {
  }

  lemma TabletInv()
    ensures Inv(TABLET)
  {
    TabletTable();
    TabletTableInv();
    TabletRows();
  }

  // An insert that is sent with a row ETag.

  const NEWROW := Row(3, 2, "ann", false, BODY, None, None)
  const INSERT := Plan(2, [(3, LogRow(5, 1, Some(9), 2, "ann", false, BODY, None, None))], [(5, NEWROW)])

  lemma InsertMaps()
    ensures MapOf(INSERT.logs) == map[3 := INSERT.logs[0].1] && MapOf(INSERT.rows) == map[5 := NEWROW]
  {
    assert INSERT.logs[..0] == [] && INSERT.rows[..0] == [];
  }

  /** Row 5 is inserted with the ETag 9; cut off after its log row, no later access gets past its recovery. */
  lemma InsertWithETagLocksTable()
    ensures Inv(TABLET) && Clean(TABLET) && BuiltPlan(TABLET, 2, 1, INSERT)
    ensures
      var m := Crash(TABLET, WriteCommands(TABLET, INSERT), 2);
      forall order :: ListsPending(m, order) ==> !RevertSucceeds(m, order) && RevertCommands(m, order) == []
  {
    hide Journal.Crash, WriteCommands, Inv, MapOf, RevertSucceeds, RevertCommands;
    TabletTable();
    TabletInv();
    InsertMaps();
    InsertBuilt();
    LogsOnly(TABLET, INSERT);
    var m := Crash(TABLET, WriteCommands(TABLET, INSERT), 2);
    InsertMid();
    forall order | ListsPending(m, order) ensures !RevertSucceeds(m, order) && RevertCommands(m, order) == [] {
      OnlyInsertPending(m, order);
    }
  }

  lemma InsertMid()
    ensures
      var m := Mid(TABLET, 2, map[3 := INSERT.logs[0].1], map[]);
      m.log == map[1 := STORED, 3 := INSERT.logs[0].1] && m.rows == TABLET.rows
  {
  }

  lemma InsertBuilt()
    ensures BuiltPlan(TABLET, 2, 1, INSERT)
  {
    TabletTable();
    InsertMaps();
  }

  lemma OnlyInsertPending(m: State, order: seq<Uri>)
    requires m.entry.pending == Some(2) && m.log == map[1 := STORED, 3 := INSERT.logs[0].1] && m.rows == TABLET.rows
    requires ListsPending(m, order)
    ensures !RevertSucceeds(m, order) && RevertCommands(m, order) == []
  {
    assert IsPending(m, 3) && !CanUndo(m, 3);
    RevertFails(m, order, 3);
    assert order[0] in order;
  }

  lemma ChangeMaps()
    ensures MapOf(CHANGE.logs) == map[3 := UPDATE] && MapOf(CHANGE.rows) == map[0 := CHANGE.rows[0].1]
  {
    assert CHANGE.logs[..0] == [] && CHANGE.rows[..0] == [];
  }

  lemma ChangeValid()
    ensures BuiltPlan(TABLET, 2, 1, CHANGE) && InsertsSendNoETag(TableOf(TABLET), MapOf(CHANGE.logs))
  {
    TabletTable();
    ChangeMaps();
  }

  /** Cut off after its log row, the update makes recovery forget the device of the stored row. */
  lemma DeviceIsForgotten()
    ensures Inv(TABLET) && Clean(TABLET) && BuiltPlan(TABLET, 2, 1, CHANGE)
    ensures
      var m := Recovered(Crash(TABLET, WriteCommands(TABLET, CHANGE), 2));
      && 0 in TABLET.rows && TABLET.rows[0].device == Some("tablet")
      && 0 in m.rows && m.rows[0].device == None
  {
    TabletTable();
    TabletInv();
    TabletIssued();
    ChangeValid();
    ChangeMaps();
    var logs := MapOf(CHANGE.logs);
    CutWrite(TABLET, CHANGE, 2);
    assert LogsBy(CHANGE, 2) == CHANGE.logs && RowsBy(CHANGE, 2) == [];
    RecoveredRow(TABLET, 2, 1, 2, logs, MapOf(CHANGE.rows), logs, map[], 0);
    assert 3 in logs && logs[3].rowId == 0;
  }
}
