/** The previous ETags of a row link its log rows into one list, newest first. */
module RowLogChains {
  import opened Wrappers
  import opened RowLog
  import opened RowLogRecovery
  import opened RowLogRuns
  import opened RowLogLimits

  /** The log rows met by following the previous ETags from `e`. */
  function Chain(log: map<Uri, LogRow>, e: Uri): seq<Uri>
    requires e in log
    decreases log[e].seqv
  {
    var p := log[e].prev;
    if p.Some? && p.value in log && log[p.value].seqv < log[e].seqv then [e] + Chain(log, p.value) else [e]
  }

  /** From `e` the chain follows the previous ETags down, on one row, to an entry that has none. */
  ghost predicate Descends(log: map<Uri, LogRow>, e: Uri, c: seq<Uri>)
    requires e in log
  {
    && c != [] && c[0] == e
    && (forall f :: f in c ==> f in log && log[f].rowId == log[e].rowId && log[f].seqv <= log[e].seqv)
    && (forall i :: 0 <= i < |c| - 1 ==> log[c[i]].prev == Some(c[i + 1]) && log[c[i + 1]].seqv < log[c[i]].seqv)
    && log[c[|c| - 1]].prev == None
  }

  /** The chain meets every older log row of the row. */
  ghost predicate FullHistory(log: map<Uri, LogRow>, e: Uri, c: seq<Uri>)
    requires e in log
  {
    && Descends(log, e, c)
    && (forall f :: f in log && log[f].rowId == log[e].rowId && log[f].seqv <= log[e].seqv ==> f in c)
  }

  lemma LinkMore(log: map<Uri, LogRow>, e: Uri, p: Uri, c: seq<Uri>)
    requires e in log && p in log && log[e].prev == Some(p)
    requires log[p].rowId == log[e].rowId && log[p].seqv < log[e].seqv && Descends(log, p, c)
    ensures Descends(log, e, [e] + c)
  {
    var d := [e] + c;
    forall i | 0 <= i < |d| - 1 ensures log[d[i]].prev == Some(d[i + 1]) && log[d[i + 1]].seqv < log[d[i]].seqv {
      if i > 0 { assert d[i] == c[i - 1] && d[i + 1] == c[i]; }
    }
  }

  /** Where the previous ETags are linked, the chain of a log row goes down to the creation of its row. */
  lemma {:induction false} ChainDescends(t: Table, e: Uri)
    requires Chained(t) && e in t.log
    ensures Descends(t.log, e, Chain(t.log, e))
    decreases t.log[e].seqv
  {
    assert Linked(t.log, e);
    hide Descends;
    if t.log[e].prev.Some? {
      var p := t.log[e].prev.value;
      ChainDescends(t, p);
      LinkMore(t.log, e, p, Chain(t.log, p));
    } else {
      OnlyLink(t.log, e);
    }
  }

  lemma OnlyLink(log: map<Uri, LogRow>, e: Uri)
    requires e in log && log[e].prev.None?
    ensures Descends(log, e, [e])
  {
  }

  /** A chain that is complete from the previous change on is complete from this change on. */
  lemma OneMore(t: Table, e: Uri, p: Uri, c: seq<Uri>)
    requires NoGaps(t) && SeqDistinct(t) && e in t.log && t.log[e].prev == Some(p)
    requires p in t.log && t.log[p].rowId == t.log[e].rowId && t.log[p].seqv < t.log[e].seqv
    requires FullHistory(t.log, p, c)
    ensures FullHistory(t.log, e, [e] + c)
  {
    hide SeqDistinct;
    var log := t.log;
    LinkMore(log, e, p, c);
    hide Descends;
    forall f | f in log && log[f].rowId == log[e].rowId && log[f].seqv <= log[e].seqv ensures f in [e] + c {
      if f != e {
        SameSeqSame(t, e, f);
        assert Older(log, f, e) && PrevCovers(log, e, f);
      }
    }
  }

  lemma SameSeqSame(t: Table, e: Uri, f: Uri)
    requires SeqDistinct(t) && e in t.log && f in t.log && e != f
    ensures t.log[e].seqv != t.log[f].seqv
  {
  }

  lemma OnlyOne(t: Table, e: Uri)
    requires NoGaps(t) && SeqDistinct(t) && e in t.log && t.log[e].prev.None?
    ensures FullHistory(t.log, e, [e])
  {
    hide SeqDistinct;
    var log := t.log;
    forall f | f in log && log[f].rowId == log[e].rowId && log[f].seqv <= log[e].seqv ensures f == e {
      if f != e { SameSeqSame(t, e, f); }
      assert Older(log, f, e) ==> PrevCovers(log, e, f);
    }
  }

  /** The previous ETags are linked, and none of them passes over a log row. */
  ghost predicate Whole(t: Table) {
    Chained(t) && NoGaps(t)
  }

  /** Where they also leave no gaps, the chain meets every older log row of the row. */
  lemma {:induction false} ChainIsFull(t: Table, e: Uri)
    requires Whole(t) && SeqDistinct(t) && e in t.log
    ensures FullHistory(t.log, e, Chain(t.log, e))
    decreases t.log[e].seqv
  {
    hide NoGaps, SeqDistinct, FullHistory;
    assert Linked(t.log, e);
    if t.log[e].prev.Some? {
      var p := t.log[e].prev.value;
      ChainIsFull(t, p);
      OneMore(t, e, p, Chain(t.log, p));
    } else {
      OnlyOne(t, e);
    }
  }

  /** In a table with a whole history the chain of a row's ETag is the whole history of that row. */
  lemma HistoryOfRow(t: Table, r: RowId)
    requires TableInv(t) && Whole(t) && r in t.head
    ensures t.head[r] in t.log
    ensures
      var c := Chain(t.log, t.head[r]);
      && FullHistory(t.log, t.head[r], c)
      && (forall f :: f in c <==> f in t.log && t.log[f].rowId == r)
  {
    ChainIsFull(t, t.head[r]);
  }

  // ----- when the history is whole -----

  /** The change set logs no data row twice. */
  ghost predicate OnceEach(logs: map<Uri, LogRow>) {
    forall e, f :: e in logs && f in logs && logs[e].rowId == logs[f].rowId ==> e == f
  }

  /** The new log rows are newer than all others. */
  ghost predicate Newer(t: Table, logs: map<Uri, LogRow>) {
    && (forall e, f :: e in t.log && f in logs ==> e != f && t.log[e].seqv < logs[f].seqv)
    && (forall e, f :: e in logs && f in logs && logs[e].seqv == logs[f].seqv ==> e == f)
  }

  ghost predicate FollowHeads(t: Table, logs: map<Uri, LogRow>) {
    forall e :: e in logs && logs[e].rowId in t.head ==>
      && logs[e].prev == Some(t.head[logs[e].rowId])
      && t.head[logs[e].rowId] in t.log
      && t.log[t.head[logs[e].rowId]].createUser == logs[e].createUser
  }

  /** No client sends an ETag before it is issued: none is the ETag of a new log row. */
  ghost predicate NoneGuessed(logs: map<Uri, LogRow>) {
    forall e :: e in logs && logs[e].prev.Some? ==> logs[e].prev.value !in logs
  }

  /** A new log row follows the old head, the newest of the older log rows of its row. */
  lemma CommitFollows(t: Table, logs: map<Uri, LogRow>, e: Uri, f: Uri)
    requires HeadsNewest(t)
    requires e in logs && FollowHeads(t, logs)
    requires f in t.log && t.log[f].rowId == logs[e].rowId
    ensures logs[e].prev.Some? && logs[e].prev.value in t.log
    ensures t.log[f].seqv <= t.log[logs[e].prev.value].seqv
  {
  }

  lemma CommitNoGaps(t: Table, tag: Uri, logs: map<Uri, LogRow>, rows: map<RowId, Row>)
    requires HeadsNewest(t) && NoGaps(t) && Newer(t, logs) && OnceEach(logs) && FollowHeads(t, logs)
    ensures NoGaps(Commit(t, tag, logs, rows))
  {
    var u := Commit(t, tag, logs, rows);
    forall e, f | Older(u.log, f, e) ensures PrevCovers(u.log, e, f) {
      assert f !in logs && u.log[f] == t.log[f];
      if e in logs {
        CommitFollows(t, logs, e, f);
      } else {
        assert Older(t.log, f, e) && PrevCovers(t.log, e, f);
      }
    }
  }

  /** Of two log rows for one data row, the second does not lead to the first. */
  lemma TwiceLeavesGap(t: Table, tag: Uri, logs: map<Uri, LogRow>, rows: map<RowId, Row>, e: Uri, f: Uri)
    requires HeadsNewest(t) && Newer(t, logs) && NoneGuessed(logs)
    requires e in logs && f in logs && logs[e].rowId == logs[f].rowId && logs[f].seqv < logs[e].seqv
    ensures !NoGaps(Commit(t, tag, logs, rows))
  {
    var u := Commit(t, tag, logs, rows);
    assert Older(u.log, f, e);
    if logs[e].prev.Some? && logs[e].prev.value in u.log {
      var p := logs[e].prev.value;
      assert p in t.log && u.log[p] == t.log[p];
    }
    assert !PrevCovers(u.log, e, f);
  }

  lemma OldGap(t: Table, tag: Uri, logs: map<Uri, LogRow>, rows: map<RowId, Row>)
    requires Chained(t) && Newer(t, logs) && NoGaps(Commit(t, tag, logs, rows))
    ensures NoGaps(t)
  {
    var u := Commit(t, tag, logs, rows);
    forall e, f | Older(t.log, f, e) ensures PrevCovers(t.log, e, f) {
      assert Linked(t.log, e);
      assert Older(u.log, f, e) && PrevCovers(u.log, e, f);
    }
  }

  lemma CommitChained(t: Table, tag: Uri, logs: map<Uri, LogRow>, rows: map<RowId, Row>)
    requires HeadsNewest(t) && Chained(t) && Newer(t, logs) && FollowHeads(t, logs) && InsertsSendNoETag(t, logs)
    ensures Chained(Commit(t, tag, logs, rows))
  {
    var u := Commit(t, tag, logs, rows);
    forall e | e in u.log ensures Linked(u.log, e) {
      if e in logs {
        if logs[e].prev.Some? { assert logs[e].prev.value == t.head[logs[e].rowId]; }
      } else {
        assert Linked(t.log, e);
      }
    }
  }

  /** A commit leaves the previous ETags linked just when they were and no insert was sent with a row ETag. */
  lemma CommitChainedIff(t: Table, tag: Uri, logs: map<Uri, LogRow>, rows: map<RowId, Row>)
    requires HeadsNewest(t) && Newer(t, logs) && FollowHeads(t, logs) && NoneGuessed(logs)
    ensures Chained(Commit(t, tag, logs, rows)) <==> Chained(t) && InsertsSendNoETag(t, logs)
  {
    var u := Commit(t, tag, logs, rows);
    if Chained(t) && InsertsSendNoETag(t, logs) {
      CommitChained(t, tag, logs, rows);
    }
    if Chained(u) {
      forall e | e in t.log ensures Linked(t.log, e) {
        assert Linked(u.log, e);
      }
      forall e | e in logs && logs[e].rowId !in t.head ensures logs[e].prev == None {
        assert Linked(u.log, e);
      }
    }
  }

  /**
    A commit leaves a whole history just when there was one, no data row is logged twice and no
    insert was sent with a row ETag.
   */
  lemma CommitWholeIff(t: Table, tag: Uri, logs: map<Uri, LogRow>, rows: map<RowId, Row>)
    requires HeadsNewest(t) && Newer(t, logs) && FollowHeads(t, logs) && NoneGuessed(logs)
    ensures Whole(Commit(t, tag, logs, rows)) <==> Whole(t) && InsertsSendNoETag(t, logs) && OnceEach(logs)
  {
    CommitChainedIff(t, tag, logs, rows);
    hide NoGaps, HeadsNewest, Chained, FollowHeads, InsertsSendNoETag, NoneGuessed, Commit;
    if NoGaps(t) && OnceEach(logs) {
      CommitNoGaps(t, tag, logs, rows);
    }
    if Whole(Commit(t, tag, logs, rows)) {
      OldGap(t, tag, logs, rows);
      forall e, f | e in logs && f in logs && logs[e].rowId == logs[f].rowId ensures e == f {
        if logs[f].seqv < logs[e].seqv {
          TwiceLeavesGap(t, tag, logs, rows, e, f);
        } else if logs[e].seqv < logs[f].seqv {
          TwiceLeavesGap(t, tag, logs, rows, f, e);
        }
      }
    }
  }

  lemma BuiltNewer(
      t: Table, columns: seq<string>, next: nat, clock: nat, tag: Uri, logs: map<Uri, LogRow>, rows: map<RowId, Row>)
    requires forall e :: e in t.log ==> e < next && t.log[e].seqv < clock
    requires Built(t, columns, tag, logs, rows) && Fresh(next, clock, tag, logs)
    ensures Newer(t, logs) && FollowHeads(t, logs)
  {
  }

  /** The log rows that the attempt commits, if it does, with the table before. */
  function CommittedBy(w: World, a: Attempt): seq<(Table, map<Uri, LogRow>)> {
    if Commits(w, a) then [(TableOf(w.st), MapOf(a.plan.value.logs))] else []
  }

  function CommittedLogs(w: World, run: seq<Attempt>): seq<(Table, map<Uri, LogRow>)>
    decreases |run|
  {
    if run == [] then [] else CommittedBy(w, run[0]) + CommittedLogs(Step(w, run[0]), run[1..])
  }

  ghost predicate AllNoneGuessed(sets: seq<(Table, map<Uri, LogRow>)>) {
    forall i :: 0 <= i < |sets| ==> NoneGuessed(sets[i].1)
  }

  ghost predicate AllSendNoETag(sets: seq<(Table, map<Uri, LogRow>)>) {
    forall i :: 0 <= i < |sets| ==> InsertsSendNoETag(sets[i].0, sets[i].1)
  }

  ghost predicate AllOnceEach(sets: seq<(Table, map<Uri, LogRow>)>) {
    forall i :: 0 <= i < |sets| ==> OnceEach(sets[i].1)
  }

  /** The committed change set is newer than the table, and follows its heads. */
  lemma CommittedNewer(w: World, a: Attempt)
    requires WorldInv(w) && ValidAttempt(w, a) && a.plan.Some?
    ensures HeadsNewest(TableOf(w.st))
    ensures Newer(TableOf(w.st), MapOf(a.plan.value.logs)) && FollowHeads(TableOf(w.st), MapOf(a.plan.value.logs))
  {
    hide Newer, FollowHeads, MapOf, TableOf, InsertsSendNoETag, Within, Built, Fresh, DistinctKeys, EntriesShow;
    var p := a.plan.value;
    RevertReaches(w.st, a.order);
    CommittedIssued(w.st, w.next, w.clock);
    BuiltNewer(
      TableOf(w.st), Recovered(w.st).columns, w.next, w.clock, p.tag, MapOf(p.logs), MapOf(p.rows));
  }

  lemma AttemptKeepsHistoryIff(w: World, a: Attempt)
    requires WorldInv(w) && ValidAttempt(w, a) && AllNoneGuessed(CommittedBy(w, a))
    ensures
      var t, u, sets := TableOf(w.st), TableOf(Step(w, a).st), CommittedBy(w, a);
      && (Chained(u) <==> Chained(t) && AllSendNoETag(sets))
      && (Whole(u) <==> Whole(t) && AllSendNoETag(sets) && AllOnceEach(sets))
  {
    AttemptIsAtomic(w, a);
    hide Chained, Whole, MapOf, Step, TableOf, Commit, AllNoneGuessed, AllSendNoETag, AllOnceEach, Newer, FollowHeads;
    hide InsertsSendNoETag, OnceEach, NoneGuessed, HeadsNewest;
    if Commits(w, a) {
      var t, p := TableOf(w.st), a.plan.value;
      CommittedNewer(w, a);
      hide WorldInv, ValidAttempt, Commits;
      OneSet(t, MapOf(p.logs));
      CommitChainedIff(t, p.tag, MapOf(p.logs), MapOf(p.rows));
      CommitWholeIff(t, p.tag, MapOf(p.logs), MapOf(p.rows));
    } else {
      NoSets();
    }
  }

  lemma OneSet(t: Table, logs: map<Uri, LogRow>)
    ensures AllNoneGuessed([(t, logs)]) <==> NoneGuessed(logs)
    ensures AllSendNoETag([(t, logs)]) <==> InsertsSendNoETag(t, logs)
    ensures AllOnceEach([(t, logs)]) <==> OnceEach(logs)
  {
    hide NoneGuessed, InsertsSendNoETag, OnceEach;
    assert [(t, logs)][0] == (t, logs);
  }

  lemma CommittedIssued(s: State, next: nat, clock: nat)
    requires Issued(s, next, clock)
    ensures forall e :: e in TableOf(s).log ==> e < next && TableOf(s).log[e].seqv < clock
  {
  }

  /**
    After any run the previous ETags are linked just when they were before and no committed insert
    was sent with a row ETag; and the history of every data row is whole just when, besides, no
    committed change set logged a row twice.
   */
  lemma {:induction false} RunKeepsHistoryIff(w: World, run: seq<Attempt>)
    requires WorldInv(w) && ValidRun(w, run) && AllNoneGuessed(CommittedLogs(w, run))
    ensures
      var t, u, sets := TableOf(w.st), TableOf(Run(w, run).st), CommittedLogs(w, run);
      && (Chained(u) <==> Chained(t) && AllSendNoETag(sets))
      && (Whole(u) <==> Whole(t) && AllSendNoETag(sets) && AllOnceEach(sets))
    decreases |run|
  {
    hide WorldInv, Chained, Whole, ValidAttempt, Step, CommittedBy, TableOf, AllNoneGuessed, AllSendNoETag, AllOnceEach;
    if run == [] {
      NoSets();
    } else {
      AllSplit(CommittedBy(w, run[0]), CommittedLogs(Step(w, run[0]), run[1..]));
      AttemptKeepsHistoryIff(w, run[0]);
      AttemptIsAtomic(w, run[0]);
      RunKeepsHistoryIff(Step(w, run[0]), run[1..]);
    }
  }

  lemma NoSets()
    ensures AllSendNoETag([]) && AllOnceEach([])
  {
  }

  lemma AllSplit(a: seq<(Table, map<Uri, LogRow>)>, b: seq<(Table, map<Uri, LogRow>)>)
    ensures AllNoneGuessed(a + b) <==> AllNoneGuessed(a) && AllNoneGuessed(b)
    ensures AllSendNoETag(a + b) <==> AllSendNoETag(a) && AllSendNoETag(b)
    ensures AllOnceEach(a + b) <==> AllOnceEach(a) && AllOnceEach(b)
  {
    hide NoneGuessed, InsertsSendNoETag, OnceEach;
    var c := a + b;
    assert forall i :: 0 <= i < |a| ==> c[i] == a[i];
    assert forall j :: 0 <= j < |b| ==> c[|a| + j] == b[j];
    assert forall i :: |a| <= i < |c| ==> c[i] == b[i - |a|];
  }

  // Two updates of one row in one change set.

  const AGAIN := LogRow(0, 2, Some(1), 2, "ann", false, BODY, None, None)
  const TWICE := Plan(2, [(3, UPDATE), (4, AGAIN)],
    [(0, Row(3, 2, "ann", false, BODY, None, None)), (0, Row(4, 2, "ann", false, BODY, None, None))])

  lemma TwiceMaps()
    ensures MapOf(TWICE.logs) == map[3 := UPDATE, 4 := AGAIN] && MapOf(TWICE.rows) == map[0 := TWICE.rows[1].1]
  {
    assert TWICE.logs[..1][..0] == [] && TWICE.rows[..1][..0] == [];
    assert MapOf(TWICE.logs[..1]) == map[3 := UPDATE];
    assert MapOf(TWICE.rows[..1]) == map[0 := TWICE.rows[0].1];
  }

  lemma TwiceValid()
    ensures BuiltPlan(TABLET, 2, 1, TWICE) && InsertsSendNoETag(TableOf(TABLET), MapOf(TWICE.logs))
  {
    TabletTable();
    TwiceMaps();
    var logs, rows := MapOf(TWICE.logs), MapOf(TWICE.rows);
    hide MapOf, TableOf, Clean;
    assert LogBuilt(ONE, [], 2, UPDATE) && LogBuilt(ONE, [], 2, AGAIN);
    assert RowShows(logs, 0, TWICE.rows[0].1) && RowShows(logs, 0, TWICE.rows[1].1);
    assert NewestIn(logs, rows, 3) && NewestIn(logs, rows, 4);
  }

  /** The change set is valid, and after its commit the chain of the row does not meet its first log row. */
  lemma TwoUpdatesSkipOne()
    ensures BuiltPlan(TABLET, 2, 1, TWICE) && InsertsSendNoETag(TableOf(TABLET), MapOf(TWICE.logs))
    ensures NoGaps(TableOf(TABLET)) && !NoGaps(Commit(TableOf(TABLET), 2, MapOf(TWICE.logs), MapOf(TWICE.rows)))
  {
    TabletTable();
    TwiceMaps();
    TwiceValid();
    hide MapOf, TableOf, BuiltPlan, NoGaps, Commit;
    TwoAfterOne();
    TwiceLeavesGap(ONE, 2, map[3 := UPDATE, 4 := AGAIN], MapOf(TWICE.rows), 4, 3);
  }

  const ONE := Table(Some(0), map[1 := STORED], map[0 := 1])

  lemma TwoAfterOne()
    ensures NoGaps(ONE) && HeadsNewest(ONE)
    ensures
      var logs := map[3 := UPDATE, 4 := AGAIN];
      Newer(ONE, logs) && NoneGuessed(logs)
  {
  }
}
