/** Recovery keeps the committed table at every step and ends in one state, whatever interrupted it. */
module RowLogRecovery {
  import Journal
  import opened Wrappers
  import opened RowLog

  lemma BaseIsCommitted(s: State)
    requires Inv(s)
    ensures forall q :: Base(s, q).Some? ==> Base(s, q).value in s.log && !IsPending(s, Base(s, q).value)
  {
    forall q | Base(s, q).Some? ensures Base(s, q).value in s.log && !IsPending(s, Base(s, q).value) {
      assert q in TableOf(s).head;
    }
  }

  /** A pending log row's previous log row is committed and belongs to the same data row. */
  lemma PriorIsCommitted(s: State, e: Uri)
    requires Inv(s) && IsPending(s, e)
    ensures CanUndo(s, e)
    ensures s.log[e].prev.Some? ==>
      var p, r := s.log[e].prev.value, s.log[e].rowId;
      r in s.rows && p in s.log && !IsPending(s, p) && s.log[p].rowId == r && Base(s, r) == Some(p)
  {
    var t := TableOf(s);
    if s.log[e].prev.Some? {
      assert s.log[e].rowId in t.head;
      assert t.head[s.log[e].rowId] in t.log;
    }
  }

  /** The data row `r` already is what undoing `e` would make of it. */
  ghost predicate AlreadyReset(s: State, e: Uri)
    requires e in s.log && CanUndo(s, e)
  {
    var l := s.log[e];
    if l.prev.None? then l.rowId !in s.rows
    else s.rows[l.rowId] == Restore(s.rows[l.rowId], l.prev.value, s.log[l.prev.value])
  }

  /** Only the data row `r` differs, and it has the same committed ETag in both states. */
  ghost predicate SameButRow(s: State, s': State, r: RowId) {
    && s' == s.(rows := s'.rows)
    && (forall q :: q != r ==>
          && (q in s.rows <==> q in s'.rows)
          && (q in s.rows && q in s'.rows ==> s.rows[q] == s'.rows[q]))
    && Base(s', r) == Base(s, r)
  }

  lemma SameTable(s: State, s': State, r: RowId)
    requires SameButRow(s, s', r)
    ensures TableOf(s') == TableOf(s)
    ensures forall e :: IsPending(s', e) <==> IsPending(s, e)
    ensures forall q :: Base(s', q) == Base(s, q)
    ensures forall q :: Touched(s', q) <==> Touched(s, q)
  {
    assert forall e :: IsPending(s', e) <==> IsPending(s, e);
    assert forall q :: Base(s', q) == Base(s, q);
    assert TableOf(s').head == TableOf(s).head;
    assert Committed(s') == Committed(s);
    forall q ensures Touched(s', q) <==> Touched(s, q) {}
  }

  /** The row `r` comes out of recovery the same from both states. */
  ghost predicate SameAfter(s: State, s': State, r: RowId) {
    (Survives(s, r) <==> Survives(s', r)) && (Survives(s, r) && Survives(s', r) ==> RowAfter(s, r) == RowAfter(s', r))
  }

  lemma SameRecovered(s: State, s': State)
    requires s'.columns == s.columns && s'.entry == s.entry && Committed(s') == Committed(s)
    requires forall r :: SameAfter(s, s', r)
    ensures Recovered(s') == Recovered(s)
  {
    hide RowAfter, Committed;
    var a, b := Recovered(s).rows, Recovered(s').rows;
    forall r ensures (r in a <==> r in b) && (r in a && r in b ==> a[r] == b[r]) {
      assert SameAfter(s, s', r);
    }
    assert a == b;
  }

  lemma OtherSameAfter(s: State, s': State, r: RowId, q: RowId)
    requires SameButRow(s, s', r) && q != r
    ensures SameAfter(s, s', q)
  {
    SameTable(s, s', r);
  }

  /** The invariants hold if they held before and the row that changed shows a log row of its own. */
  lemma InvSameTable(s: State, s': State, r: RowId)
    requires Inv(s) && SameButRow(s, s', r) && (r in s'.rows ==> RowShows(s.log, r, s'.rows[r]))
    ensures Inv(s')
  {
    hide TableInv, TableOf, Shows, Base;
    SameTable(s, s', r);
    forall q | q in s'.rows ensures RowShows(s'.log, q, s'.rows[q]) {
      if q != r { assert RowShows(s.log, q, s.rows[q]); }
    }
  }

  lemma ResetToNothing(s: State, e: Uri)
    requires Inv(s) && IsPending(s, e) && s.log[e].prev.None? && s.log[e].rowId in s.rows
    ensures
      var s' := s.(rows := s.rows - {s.log[e].rowId});
      SameButRow(s, s', s.log[e].rowId) && Inv(s') && Recovered(s') == Recovered(s)
  {
    hide TableInv, TableOf, RowsMatchLog, LogTyped;
    var r := s.log[e].rowId;
    var s' := s.(rows := s.rows - {r});
    assert Base(s, r) == None;
    hide Inv, IsPending;
    assert SameButRow(s, s', r);
    hide SameButRow;
    InvSameTable(s, s', r);
    forall q ensures SameAfter(s, s', q) {
      if q != r { OtherSameAfter(s, s', r, q); }
    }
    SameRecovered(s, s');
  }

  /** The row as it is restored shows the log row that it goes back to. */
  lemma RestoredShows(s: State, e: Uri)
    requires Inv(s) && IsPending(s, e) && s.log[e].prev.Some?
    ensures CanUndo(s, e)
    ensures
      var r, p := s.log[e].rowId, s.log[e].prev.value;
      RowShows(s.log, r, Restore(s.rows[r], p, s.log[p])) && !IsPending(s, p) && Base(s, r) == Some(p)
  {
    PriorIsCommitted(s, e);
    CreatorKept(s, e);
  }

  lemma ResetToPrior(s: State, e: Uri)
    requires Inv(s) && IsPending(s, e) && s.log[e].prev.Some?
    ensures CanUndo(s, e)
    ensures
      var r, p := s.log[e].rowId, s.log[e].prev.value;
      var s' := s.(rows := s.rows[r := Restore(s.rows[r], p, s.log[p])]);
      SameButRow(s, s', r) && Inv(s') && Recovered(s') == Recovered(s)
  {
    hide Inv, TableOf, Shows;
    RestoredShows(s, e);
    var r, p := s.log[e].rowId, s.log[e].prev.value;
    var s' := s.(rows := s.rows[r := Restore(s.rows[r], p, s.log[p])]);
    assert SameButRow(s, s', r);
    InvSameTable(s, s', r);
    forall q ensures SameAfter(s, s', q) {
      if q != r {
        OtherSameAfter(s, s', r, q);
      } else {
        SameTable(s, s', r);
        assert Touched(s, r);
      }
    }
    hide SameButRow, SameAfter, RowAfter;
    SameRecovered(s, s');
  }

  lemma CreatorKept(s: State, e: Uri)
    requires Inv(s) && IsPending(s, e) && s.log[e].prev.Some?
    ensures s.log[e].rowId in s.rows && s.log[e].prev.value in s.log
    ensures s.rows[s.log[e].rowId].createUser == s.log[e].createUser == s.log[s.log[e].prev.value].createUser
  {
    PriorIsCommitted(s, e);
    var r := s.log[e].rowId;
    var h := s.rows[r].etag;
    assert Shows(s.rows[r], s.log[h]);
    if IsPending(s, h) {
      assert s.log[h].prev == Base(s, r) == s.log[e].prev;
    } else {
      assert h == s.log[e].prev.value;
    }
  }

  /** The effect of the writes of `ResetRow`. */
  function ResetState(s: State, e: Uri): State
    requires e in s.log && CanUndo(s, e)
  {
    var l := s.log[e];
    if l.prev.Some? then
      s.(rows := s.rows[l.rowId := Restore(s.rows[l.rowId], l.prev.value, s.log[l.prev.value])])
    else s.(rows := s.rows - {l.rowId})
  }

  lemma ResetWrites(s: State, e: Uri)
    requires e in s.log && CanUndo(s, e)
    ensures Replay(s, ResetRow(s, e)) == ResetState(s, e)
  {
    var ps := ResetRow(s, e);
    if ps == [] {
      assert s.rows - {s.log[e].rowId} == s.rows;
    } else {
      Journal.One(Apply, s, ps[0], 1);
    }
  }

  /** Resetting the data row changes neither the committed table nor where recovery leads. */
  lemma ResetKeeps(s: State, e: Uri)
    requires Inv(s) && IsPending(s, e)
    ensures CanUndo(s, e)
    ensures
      var s' := ResetState(s, e);
      && Inv(s') && TableOf(s') == TableOf(s) && Recovered(s') == Recovered(s)
  {
    PriorIsCommitted(s, e);
    var l := s.log[e];
    if l.prev.Some? {
      ResetToPrior(s, e);
      SameTable(s, ResetState(s, e), l.rowId);
    } else if l.rowId in s.rows {
      ResetToNothing(s, e);
      SameTable(s, ResetState(s, e), l.rowId);
    } else {
      assert ResetState(s, e) == s;
    }
  }

  lemma ResetIsReset(s: State, e: Uri)
    requires e in s.log && CanUndo(s, e)
    ensures CanUndo(ResetState(s, e), e) && AlreadyReset(ResetState(s, e), e)
  {
  }

  ghost predicate NoRowHolds(s: State, e: Uri) {
    forall q :: q in s.rows ==> s.rows[q].etag != e
  }

  lemma ResetRowHoldsNothing(s: State, e: Uri)
    requires Inv(s) && IsPending(s, e) && CanUndo(s, e) && AlreadyReset(s, e)
    ensures NoRowHolds(s, e)
  {
    PriorIsCommitted(s, e);
    forall q | q in s.rows ensures s.rows[q].etag != e {
      assert s.log[s.rows[q].etag].rowId == q;
    }
  }

  lemma DropSameTable(s: State, e: Uri)
    requires IsPending(s, e) && NoRowHolds(s, e)
    ensures
      var s' := Apply(s, DropLog(e));
      && (forall f :: IsPending(s', f) <==> IsPending(s, f) && f != e)
      && (forall q :: Base(s', q) == Base(s, q))
      && TableOf(s') == TableOf(s)
  {
    var s' := Apply(s, DropLog(e));
    assert forall f :: IsPending(s', f) <==> IsPending(s, f) && f != e;
    assert forall q :: Base(s', q) == Base(s, q);
    assert Committed(s') == Committed(s);
    assert TableOf(s').head == TableOf(s).head;
  }

  lemma DropTouches(s: State, e: Uri, q: RowId)
    requires IsPending(s, e) && q != s.log[e].rowId
    ensures Touched(Apply(s, DropLog(e)), q) <==> Touched(s, q)
  {
    var s' := Apply(s, DropLog(e));
    if Touched(s, q) {
      var f :| IsPending(s, f) && s.log[f].rowId == q;
      assert IsPending(s', f) && s'.log[f].rowId == q;
    }
    if Touched(s', q) {
      var f :| IsPending(s', f) && s'.log[f].rowId == q;
      assert IsPending(s, f) && s.log[f].rowId == q;
    }
  }

  lemma DropSameAfter(s: State, e: Uri, q: RowId)
    requires IsPending(s, e) && CanUndo(s, e) && AlreadyReset(s, e) && NoRowHolds(s, e)
    requires Base(s, s.log[e].rowId) == s.log[e].prev
    requires Base(s, q) != Some(e)
    ensures SameAfter(s, Apply(s, DropLog(e)), q)
  {
    hide TableOf;
    DropSameTable(s, e);
    if q != s.log[e].rowId {
      DropTouches(s, e, q);
    } else {
      assert Touched(s, q);
    }
  }

  lemma DropSameGoal(s: State, e: Uri)
    requires IsPending(s, e) && CanUndo(s, e) && AlreadyReset(s, e) && NoRowHolds(s, e)
    requires Base(s, s.log[e].rowId) == s.log[e].prev
    requires forall q :: Base(s, q) != Some(e)
    ensures Recovered(Apply(s, DropLog(e))) == Recovered(s)
  {
    hide Base, Recovered, SameAfter, AlreadyReset, NoRowHolds;
    DropSameTable(s, e);
    forall q ensures SameAfter(s, Apply(s, DropLog(e)), q) { DropSameAfter(s, e, q); }
    SameRecovered(s, Apply(s, DropLog(e)));
  }

  /** Once its data row is reset, the pending log row can be dropped. */
  lemma DropKeeps(s: State, e: Uri)
    requires Inv(s) && IsPending(s, e) && CanUndo(s, e) && AlreadyReset(s, e)
    ensures
      var s' := Apply(s, DropLog(e));
      && Inv(s') && TableOf(s') == TableOf(s) && Recovered(s') == Recovered(s)
      && (forall f :: IsPending(s', f) <==> IsPending(s, f) && f != e)
  {
    PriorIsCommitted(s, e);
    ResetRowHoldsNothing(s, e);
    DropSameTable(s, e);
    BaseIsCommitted(s);
    DropSameGoal(s, e);
    var s' := Apply(s, DropLog(e));
    assert PendingChained(s') by {
      forall f | IsPending(s', f) ensures s'.log[f].prev == Base(s', s'.log[f].rowId) { assert IsPending(s, f); }
    }
  }

  lemma UndoKeeps(s: State, e: Uri)
    requires Inv(s) && IsPending(s, e)
    ensures CanUndo(s, e)
    ensures
      var s' := Replay(s, UndoCommands(s, e));
      && Inv(s') && TableOf(s') == TableOf(s) && Recovered(s') == Recovered(s)
      && (forall f :: IsPending(s', f) <==> IsPending(s, f) && f != e)
  {
    PriorIsCommitted(s, e);
    ResetKeeps(s, e);
    ResetIsReset(s, e);
    ResetWrites(s, e);
    Journal.ReplayConcat(Apply, s, ResetRow(s, e), [DropLog(e)]);
    Journal.One(Apply, ResetState(s, e), DropLog(e), 1);
    assert forall f :: IsPending(ResetState(s, e), f) <==> IsPending(s, f);
    DropKeeps(ResetState(s, e), e);
  }

  /** The first k writes of undoing one log row; all of them when k is large. */
  lemma UndoPrefixKeeps(s: State, e: Uri, k: nat)
    requires Inv(s) && IsPending(s, e) && CanUndo(s, e)
    ensures
      var s' := Crash(s, UndoCommands(s, e), k);
      Inv(s') && TableOf(s') == TableOf(s) && Recovered(s') == Recovered(s)
  {
    var a, c := ResetRow(s, e), UndoCommands(s, e);
    Journal.CrashIsPrefix(Apply, s, c, k);
    if k >= |c| {
      UndoKeeps(s, e);
    } else if k == |a| {
      assert c[..k] == a;
      ResetWrites(s, e);
      ResetKeeps(s, e);
    } else {
      assert c[..k] == [];
    }
  }

  // ----- whole recoveries -----

  lemma ListsRest(s: State, s': State, order: seq<Uri>)
    requires ListsPending(s, order) && order != []
    requires forall f :: IsPending(s', f) <==> IsPending(s, f) && f != order[0]
    ensures ListsPending(s', order[1..])
  {
    forall f ensures f in order[1..] <==> IsPending(s', f) {
      if f in order[1..] { var i :| 1 <= i < |order| && order[i] == f; }
      if IsPending(s', f) { assert f in order; assert f != order[0]; }
    }
  }

  lemma CleanIsRecovered(s: State)
    requires RowsMatchLog(s) && Clean(s)
    ensures Recovered(s) == s
  {
    hide Shows;
    assert Committed(s) == s.log;
    var a := Recovered(s).rows;
    forall r ensures (r in a <==> r in s.rows) && (r in a ==> a[r] == s.rows[r]) {
      assert Base(s, r) == if r in s.rows then Some(s.rows[r].etag) else None;
    }
    assert a == s.rows;
  }

  /** An uninterrupted recovery succeeds and reaches the same state for every order of the log rows. */
  lemma {:induction false} RevertReaches(s: State, order: seq<Uri>)
    requires Inv(s) && ListsPending(s, order)
    ensures RevertSucceeds(s, order)
    ensures Replay(s, RevertCommands(s, order)) == Recovered(s)
    ensures Inv(Recovered(s)) && Clean(Recovered(s)) && TableOf(Recovered(s)) == TableOf(s)
    decreases |order|
  {
    if order == [] {
      CleanIsRecovered(s);
    } else {
      var e := order[0];
      assert e in order;
      UndoKeeps(s, e);
      var c := UndoCommands(s, e);
      var s' := Replay(s, c);
      ListsRest(s, s', order);
      RevertReaches(s', order[1..]);
      Journal.ReplayConcat(Apply, s, c, RevertCommands(s', order[1..]));
    }
  }

  /**
    A recovery cut off after any number of writes keeps the committed table, and a later
    recovery still leads to the same state.
   */
  lemma {:induction false} RevertPrefixKeeps(s: State, order: seq<Uri>, k: nat)
    requires Inv(s) && ListsPending(s, order)
    ensures
      var s' := Crash(s, RevertCommands(s, order), k);
      Inv(s') && TableOf(s') == TableOf(s) && Recovered(s') == Recovered(s)
    decreases |order|
  {
    hide Inv, TableOf, Recovered, Journal.Replay, Journal.Crash, UndoCommands;
    if order == [] {
      Journal.Nothing(Apply, s, [], k);
    } else {
      var e := order[0];
      assert e in order;
      UndoKeeps(s, e);
      var c := UndoCommands(s, e);
      var s' := Replay(s, c);
      var rest := RevertCommands(s', order[1..]);
      Journal.CrashConcat(Apply, s, c, rest, k);
      if k < |c| {
        UndoPrefixKeeps(s, e, k);
      } else {
        ListsRest(s, s', order);
        RevertPrefixKeeps(s', order[1..], k - |c|);
      }
    }
  }

  lemma FirstIsPending(s: State, order: seq<Uri>)
    requires ListsPending(s, order)
    ensures order == [] || IsPending(s, order[0])
  {
    assert order == [] || order[0] in order;
  }

  /** Recovery again, with the pending tag still set, issues no write. */
  lemma RevertAgainIsEmpty(s: State, order: seq<Uri>)
    requires Inv(s) && ListsPending(Recovered(s), order)
    ensures RevertCommands(Recovered(s), order) == []
    ensures Recovered(s).entry == s.entry
  {
    FirstIsPending(Recovered(s), order);
    assert Clean(Recovered(s));
  }

  /** Recovery interrupted as often as `cuts` says, then rerun to the end. */
  function InterruptedRecovery(s: State, tries: seq<(seq<Uri>, nat)>): State
    decreases |tries|
  {
    if tries == [] then s
    else InterruptedRecovery(Crash(s, RevertCommands(s, tries[0].0), tries[0].1), tries[1..])
  }

  /** Each attempt of `tries` meets exactly the log rows that are pending when it starts. */
  ghost predicate TriesListPending(s: State, tries: seq<(seq<Uri>, nat)>)
    decreases |tries|
  {
    tries != [] ==>
      && ListsPending(s, tries[0].0)
      && TriesListPending(Crash(s, RevertCommands(s, tries[0].0), tries[0].1), tries[1..])
  }

  lemma {:induction false} RecoveryIsReentrant(s: State, tries: seq<(seq<Uri>, nat)>, order: seq<Uri>)
    requires Inv(s) && TriesListPending(s, tries)
    requires ListsPending(InterruptedRecovery(s, tries), order)
    ensures
      var s' := InterruptedRecovery(s, tries);
      && RevertSucceeds(s', order)
      && Replay(s', RevertCommands(s', order)) == Recovered(s)
      && TableOf(s') == TableOf(s) && TableOf(Recovered(s)) == TableOf(s)
    decreases |tries|
  {
    if tries == [] {
      RevertReaches(s, order);
    } else {
      RevertPrefixKeeps(s, tries[0].0, tries[0].1);
      RecoveryIsReentrant(Crash(s, RevertCommands(s, tries[0].0), tries[0].1), tries[1..], order);
    }
  }

  /** A row that survives recovery shows the log row that it goes back to. */
  lemma SurvivorShows(s: State, r: RowId)
    requires Inv(s) && Survives(s, r)
    ensures RowAfter(s, r).etag == Base(s, r).value && Shows(RowAfter(s, r), s.log[Base(s, r).value])
    ensures s.log[Base(s, r).value].rowId == r
  {
    if Touched(s, r) {
      var e :| IsPending(s, e) && s.log[e].rowId == r;
      CreatorKept(s, e);
      PriorIsCommitted(s, e);
    } else {
      assert RowShows(s.log, r, s.rows[r]);
      assert !IsPending(s, s.rows[r].etag);
    }
  }

  lemma SurvivorsAreHeads(s: State, r: RowId)
    requires Inv(s)
    ensures Survives(s, r) <==> r in TableOf(s).head
    ensures Survives(s, r) ==> TableOf(s).head[r] == Base(s, r).value && Base(s, r).value in TableOf(s).log
  {
    BaseIsCommitted(s);
  }

  /** After recovery the stored rows show the committed table: same keys, same ETags, same contents. */
  lemma RecoveredShowsTable(s: State)
    requires Inv(s)
    ensures
      var s', t := Recovered(s), TableOf(s);
      && s'.log == t.log && s'.entry.tag == t.tag
      && s'.rows.Keys == t.head.Keys
      && (forall r :: r in t.head ==>
            && s'.rows[r].etag == t.head[r] && t.head[r] in t.log && t.log[t.head[r]].rowId == r
            && Shows(s'.rows[r], t.log[t.head[r]]))
  {
    hide Inv, Shows, RowAfter, Base;
    var s', t := Recovered(s), TableOf(s);
    forall r ensures Survives(s, r) <==> r in t.head { SurvivorsAreHeads(s, r); }
    assert s'.rows.Keys == t.head.Keys;
    forall r | r in t.head
      ensures s'.rows[r].etag == t.head[r] && t.head[r] in t.log && t.log[t.head[r]].rowId == r
              && Shows(s'.rows[r], t.log[t.head[r]])
    {
      SurvivorsAreHeads(s, r);
      SurvivorShows(s, r);
    }
  }
}
