/** Attempts as the methods of the data manager make them. */
module RowAttempts {
  import Journal
  import opened Wrappers
  import opened RowLog
  import opened RowLogRecovery
  import opened RowLogWrites
  import opened RowLogRuns
  import opened RowLogLimits
  import opened RowEntities

  /** The writes that the attempt carried out. */
  function Taken(s: State, a: Attempt): seq<Put> {
    var c := Commands(s, a);
    if a.cut < |c| then c[..a.cut] else c
  }

  /** The state that the recovery of the attempt reaches when it is not cut off. */
  function AfterRecovery(w: World, a: Attempt): State {
    Replay(w.st, RevertCommands(w.st, a.order))
  }

  /** It is the one state that every recovery reaches. */
  lemma AfterRecoveryIsRecovered(w: World, a: Attempt)
    requires WorldInv(w) && ListsPending(w.st, a.order)
    ensures AfterRecovery(w, a) == Recovered(w.st)
  {
    RevertReaches(w.st, a.order);
  }

  lemma ValidLists(w: World, a: Attempt)
    requires ValidAttempt(w, a)
    ensures ListsPending(w.st, a.order)
  {
  }

  lemma AfterRecoveryTable(w: World, a: Attempt)
    requires WorldInv(w) && ListsPending(w.st, a.order)
    ensures TableOf(AfterRecovery(w, a)) == TableOf(w.st)
  {
    RevertReaches(w.st, a.order);
  }

  lemma RecoveredWorld(w: World, a: Attempt)
    requires WorldInv(w) && ListsPending(w.st, a.order)
    ensures
      var s := AfterRecovery(w, a);
      Inv(s) && Clean(s) && Issued(s, w.next, w.clock)
  {
    var c := RevertCommands(w.st, a.order);
    RevertReaches(w.st, a.order);
    Journal.CrashAll(Apply, w.st, c, |c|);
    RevertShrinks(w.st, a.order, |c|);
    ShrunkIssued(w.st, AfterRecovery(w, a), w.next, w.clock);
  }

  /** Nothing was written, not even by recovery. */
  ghost predicate Untouched(w: World, a: Attempt) {
    a.plan == None && a.cut == 0
  }

  /** Recovery ran to its end and nothing else was written. */
  ghost predicate OnlyRecovered(w: World, a: Attempt) {
    a.plan == None && a.cut == |RevertCommands(w.st, a.order)|
  }

  /** After recovery the entry was marked as pending, and that was all. */
  ghost predicate OnlyMarked(w: World, a: Attempt) {
    && a.plan.Some? && a.plan.value.logs == [] && a.plan.value.rows == []
    && a.cut == |RevertCommands(w.st, a.order)| + 1
  }

  lemma PendingListing(s: State) returns (order: seq<Uri>)
    ensures ListsPending(s, order)
  {
    order := Listing(set e | e in s.log && IsPending(s, e));
  }

  lemma UntouchedStep(w: World, a: Attempt)
    requires Untouched(w, a)
    ensures Step(w, a).st == w.st && Taken(w.st, a) == []
  {
    assert Commands(w.st, a)[..0] == [];
  }

  lemma RecoveredStep(w: World, a: Attempt)
    requires OnlyRecovered(w, a)
    ensures Step(w, a).st == Replay(w.st, RevertCommands(w.st, a.order))
    ensures Taken(w.st, a) == RevertCommands(w.st, a.order)
  {
    Journal.CrashIsPrefix(Apply, w.st, Commands(w.st, a), a.cut);
  }

  /** After recovery, the first `n` writes of the change set were carried out. */
  lemma PartStep(w: World, a: Attempt, n: nat)
    requires a.plan.Some? && a.cut == |RevertCommands(w.st, a.order)| + n
    requires n <= |WriteCommands(AfterRecovery(w, a), a.plan.value)|
    ensures
      var cs := WriteCommands(AfterRecovery(w, a), a.plan.value);
      && Step(w, a).st == Replay(AfterRecovery(w, a), cs[..n])
      && Taken(w.st, a) == RevertCommands(w.st, a.order) + cs[..n]
      && (Commits(w, a) <==> n == |cs|)
  {
    hide WriteCommands, RevertCommands, Journal.Replay, Journal.Crash;
    var c := RevertCommands(w.st, a.order);
    var s1 := Replay(w.st, c);
    var cs := WriteCommands(s1, a.plan.value);
    Journal.CrashConcat(Apply, w.st, c, cs, a.cut);
    Journal.CrashIsPrefix(Apply, s1, cs, n);
    assert cs[..|cs|] == cs;
    assert (c + cs)[..|c| + n] == c + cs[..n];
  }

  lemma MarkedStep(w: World, a: Attempt)
    requires OnlyMarked(w, a)
    ensures
      var c := RevertCommands(w.st, a.order);
      var s1 := Replay(w.st, c);
      var p := PutEntry(s1.entry.(pending := Some(a.plan.value.tag)));
      && Step(w, a).st == Apply(s1, p)
      && Taken(w.st, a) == c + [p]
  {
    hide Journal.Replay, RevertCommands;
    var s1 := AfterRecovery(w, a);
    var p := PutEntry(s1.entry.(pending := Some(a.plan.value.tag)));
    PartStep(w, a, 1);
    assert WriteCommands(s1, a.plan.value)[..1] == [p];
    Journal.One(Apply, s1, p, 1);
  }

  lemma FullStep(w: World, a: Attempt)
    requires a.plan.Some? && a.cut == |Commands(w.st, a)|
    ensures
      var c := RevertCommands(w.st, a.order);
      var s1 := Replay(w.st, c);
      && Step(w, a).st == Replay(s1, WriteCommands(s1, a.plan.value))
      && Taken(w.st, a) == c + WriteCommands(s1, a.plan.value)
      && Commits(w, a)
  {
    hide Journal.Replay, RevertCommands, WriteCommands;
    var cs := WriteCommands(AfterRecovery(w, a), a.plan.value);
    PartStep(w, a, |cs|);
    assert cs[..|cs|] == cs;
  }

  lemma EmptyPlanValid(s: State, next: nat, clock: nat, tag: Uri)
    requires next <= tag
    ensures BuiltPlan(s, next, clock, Plan(tag, [], []))
  {
  }

  // ----- a change set of one row -----

  function OneRow(tag: Uri, r: RowId, row: Row, prev: Option<Uri>, seqv: nat): Plan {
    Plan(tag, [(row.etag, NewLogRow(r, row, tag, prev, seqv))], [(r, row)])
  }

  lemma OneRowMaps(tag: Uri, r: RowId, row: Row, prev: Option<Uri>, seqv: nat)
    ensures
      var p := OneRow(tag, r, row, prev, seqv);
      && MapOf(p.logs) == map[row.etag := NewLogRow(r, row, tag, prev, seqv)]
      && MapOf(p.rows) == map[r := row]
  {
    var p := OneRow(tag, r, row, prev, seqv);
    assert p.logs[..0] == [] && p.rows[..0] == [];
  }

  lemma OneRowWrites(s: State, tag: Uri, r: RowId, row: Row, prev: Option<Uri>, seqv: nat)
    ensures
      var l := NewLogRow(r, row, tag, prev, seqv);
      WriteCommands(s, OneRow(tag, r, row, prev, seqv)) ==
      [PutEntry(s.entry.(pending := Some(tag)))] + [PutLog(row.etag, l)] + [PutRow(r, row)]
      + [PutEntry(s.entry.(tag := Some(tag), pending := None))]
  {
    var p := OneRow(tag, r, row, prev, seqv);
    assert LogPuts(p.logs) == [PutLog(row.etag, NewLogRow(r, row, tag, prev, seqv))];
    assert RowPuts(p.rows) == [PutRow(r, row)];
  }

  /** What a one-row change takes over from the row that is stored. */
  ghost predicate Follows(s: State, r: RowId, row: Row, prev: Option<Uri>) {
    if r in s.rows then prev == Some(s.rows[r].etag) && row.createUser == s.rows[r].createUser else prev == None
  }

  lemma OneRowShows(tag: Uri, r: RowId, row: Row, prev: Option<Uri>, seqv: nat)
    requires !row.deleted ==> row.tag == tag
    ensures
      var p := OneRow(tag, r, row, prev, seqv);
      && DistinctKeys(p.logs) && EntriesShow(MapOf(p.logs), p.rows)
      && NewestWritten(MapOf(p.logs), MapOf(p.rows)) && RowsShow(MapOf(p.logs), MapOf(p.rows))
  {
    OneRowMaps(tag, r, row, prev, seqv);
    var p := OneRow(tag, r, row, prev, seqv);
    assert RowShows(MapOf(p.logs), r, row);
  }

  lemma OneRowFollows(s: State, tag: Uri, r: RowId, row: Row, prev: Option<Uri>, seqv: nat)
    requires RowsMatchLog(s) && Clean(s)
    requires Typed(s.columns, row.body) && (r in s.rows ==> Follows(s, r, row, prev))
    ensures LogBuilt(TableOf(s), s.columns, tag, NewLogRow(r, row, tag, prev, seqv))
  {
    hide Clean, RowsMatchLog, TableOf, Typed;
    HeadIsRow(s, r);
  }

  /** A one-row change as it is built, whatever ETag an insert carries. */
  lemma OneRowBuilt(s: State, next: nat, clock: nat, tag: Uri, r: RowId, row: Row, prev: Option<Uri>, seqv: nat)
    requires Inv(s) && Clean(s)
    requires next <= tag && next <= row.etag && clock <= seqv
    requires Typed(s.columns, row.body) && (r in s.rows ==> Follows(s, r, row, prev))
    requires !row.deleted ==> row.tag == tag
    ensures BuiltPlan(s, next, clock, OneRow(tag, r, row, prev, seqv))
    ensures InsertsSendNoETag(TableOf(s), MapOf(OneRow(tag, r, row, prev, seqv).logs)) <==> r in s.rows || prev == None
  {
    OneRowMaps(tag, r, row, prev, seqv);
    OneRowShows(tag, r, row, prev, seqv);
    OneRowFollows(s, tag, r, row, prev, seqv);
    HeadIsRow(s, r);
    hide Inv, Clean, TableOf, Typed, Follows, LogBuilt, NewestWritten, RowsShow, EntriesShow, MapOf, DistinctKeys;
    var logs := MapOf(OneRow(tag, r, row, prev, seqv).logs);
    assert row.etag in logs && logs[row.etag].rowId == r && logs[row.etag].prev == prev;
  }

  lemma MarkedValid(w: World, a: Attempt)
    requires ListsPending(w.st, a.order) && OnlyMarked(w, a) && w.clock <= a.clock
    requires w.next <= a.plan.value.tag < a.next
    ensures ValidAttempt(w, a) && ValidWhereverCut(w, a)
  {
    var p := a.plan.value;
    assert p == Plan(p.tag, [], []);
    EmptyPlanValid(Recovered(w.st), w.next, w.clock, p.tag);
    assert MapOf(p.logs) == map[];
    PlanValid(w, a);
  }

  /** A committed one-row change is valid; without an ETag on an insert it is valid wherever it is cut off. */
  lemma OneRowAttemptValid(
      w: World, a: Attempt, tag: Uri, r: RowId, row: Row, prev: Option<Uri>, seqv: nat)
    requires WorldInv(w) && ListsPending(w.st, a.order)
    requires a.plan == Some(OneRow(tag, r, row, prev, seqv)) && Commits(w, a)
    requires w.next <= tag < a.next && w.next <= row.etag < a.next && w.clock <= seqv < a.clock
    requires Typed(w.st.columns, row.body) && (r in Recovered(w.st).rows ==> Follows(Recovered(w.st), r, row, prev))
    requires !row.deleted ==> row.tag == tag
    ensures ValidAttempt(w, a)
    ensures r in Recovered(w.st).rows || prev == None ==> ValidWhereverCut(w, a)
  {
    hide Inv, Clean, TableOf, Typed, BuiltPlan, InsertsSendNoETag, MapOf, ListsPending, Follows, RevertSucceeds;
    hide Journal.Replay, Commits, ValidWhereverCut;
    RevertReaches(w.st, a.order);
    OneRowBuilt(Recovered(w.st), w.next, w.clock, tag, r, row, prev, seqv);
    OneRowMaps(tag, r, row, prev, seqv);
    PlanValid(w, a);
  }
}
