/** Whole runs: attempts that may stop after any write, one after the other. */
module RowLogRuns {
  import Journal
  import opened Wrappers
  import opened RowLog
  import opened RowLogRecovery
  import opened RowLogWrites

  /** The stored state and the counters behind new identifiers and sequence values. */
  datatype World = World(st: State, next: nat, clock: nat)

  /**
    One holder of the table lock.  It recovers, meeting the pending log rows in `order`,
    writes the change set if it has one, and stops after `cut` writes.  A reader has no
    change set.  The counters move on even when the attempt stops early.
   */
  datatype Attempt = Attempt(order: seq<Uri>, plan: Option<Plan>, cut: nat, next: nat, clock: nat)

  function Commands(s: State, a: Attempt): seq<Put> {
    var c := RevertCommands(s, a.order);
    if a.plan.Some? then c + WriteCommands(Replay(s, c), a.plan.value) else c
  }

  predicate Commits(w: World, a: Attempt) {
    a.plan.Some? && a.cut >= |Commands(w.st, a)|
  }

  /**
    The change set is one that the writers build.  When the attempt stops before its commit, none
    of the log rows that it has written is an insert that was sent with a row ETag.
   */
  ghost predicate ValidAttempt(w: World, a: Attempt) {
    && ListsPending(w.st, a.order)
    && w.next <= a.next && w.clock <= a.clock
    && (a.plan.Some? ==>
          var p := a.plan.value;
          && BuiltPlan(Recovered(w.st), w.next, w.clock, p)
          && Within(p.tag, MapOf(p.logs), a.next, a.clock)
          && (Commits(w, a) || InsertsSendNoETag(TableOf(w.st), MapOf(LoggedBy(w, a)))))
  }

  /** The log rows of the change set that the attempt gets to write. */
  function LoggedBy(w: World, a: Attempt): seq<(Uri, LogRow)>
    requires a.plan.Some?
  {
    var n := |RevertCommands(w.st, a.order)|;
    LogsBy(a.plan.value, if a.cut < n then 0 else a.cut - n)
  }

  /** The identifiers and sequence values of the change set lie below the counters. */
  ghost predicate Within(tag: Uri, logs: map<Uri, LogRow>, next: nat, clock: nat) {
    tag < next && forall e :: e in logs ==> e < next && logs[e].seqv < clock
  }

  /** The attempt is valid wherever it stops. */
  ghost predicate ValidWhereverCut(w: World, a: Attempt) {
    forall k: nat :: ValidAttempt(w, a.(cut := k))
  }

  /** It is just when no insert of the change set was sent with a row ETag. */
  lemma ValidWhereverCutIff(w: World, a: Attempt)
    requires ValidAttempt(w, a)
    ensures ValidWhereverCut(w, a)
      <==> (a.plan.Some? ==> InsertsSendNoETag(TableOf(w.st), MapOf(a.plan.value.logs)))
  {
    if a.plan.Some? {
      hide TableOf, BuiltPlan, MapOf, Recovered, RevertCommands, ListsPending, Within;
      var p, n := a.plan.value, |RevertCommands(w.st, a.order)|;
      var late := a.(cut := n + 1 + |p.logs|);
      assert LoggedBy(w, late) == p.logs;
      LateIsCut(w, late);
      if InsertsSendNoETag(TableOf(w.st), MapOf(p.logs)) {
        forall k: nat ensures ValidAttempt(w, a.(cut := k)) {
          var b := a.(cut := k);
          BuiltParts(Recovered(w.st), w.next, w.clock, p, if k < n then 0 else k - n);
          assert InsertsSendNoETag(TableOf(w.st), MapOf(LoggedBy(w, b)));
        }
      }
    }
  }

  /** A change set that is built is valid once it is committed, or when its inserts send no ETag. */
  lemma PlanValid(w: World, a: Attempt)
    requires ListsPending(w.st, a.order) && w.next <= a.next && w.clock <= a.clock && a.plan.Some?
    requires
      var p := a.plan.value;
      && BuiltPlan(Recovered(w.st), w.next, w.clock, p) && Within(p.tag, MapOf(p.logs), a.next, a.clock)
      && (Commits(w, a) || InsertsSendNoETag(TableOf(w.st), MapOf(p.logs)))
    ensures ValidAttempt(w, a)
    ensures InsertsSendNoETag(TableOf(w.st), MapOf(a.plan.value.logs)) ==> ValidWhereverCut(w, a)
  {
    hide TableOf, BuiltPlan, MapOf, Recovered, RevertCommands, ListsPending, Within, Commits, ValidWhereverCut;
    var p, n := a.plan.value, |RevertCommands(w.st, a.order)|;
    BuiltParts(Recovered(w.st), w.next, w.clock, p, if a.cut < n then 0 else a.cut - n);
    ValidWhereverCutIff(w, a);
  }

  /** With all its log rows written, the attempt has not committed yet. */
  lemma LateIsCut(w: World, a: Attempt)
    requires a.plan.Some? && a.cut == |RevertCommands(w.st, a.order)| + 1 + |a.plan.value.logs|
    ensures !Commits(w, a)
  {
  }

  lemma BuiltParts(s: State, next: nat, clock: nat, p: Plan, k: nat)
    requires BuiltPlan(s, next, clock, p)
    ensures PartOf(MapOf(LogsBy(p, k)), MapOf(p.logs))
  {
    CutPart(p, k);
  }

  function Step(w: World, a: Attempt): World {
    World(Crash(w.st, Commands(w.st, a), a.cut), a.next, a.clock)
  }

  /** The atomic table takes the whole change set or none of it. */
  function AtomicStep(t: Table, commits: bool, a: Attempt): Table
    requires commits ==> a.plan.Some?
  {
    if commits then Commit(t, a.plan.value.tag, MapOf(a.plan.value.logs), MapOf(a.plan.value.rows)) else t
  }

  ghost predicate WorldInv(w: World) {
    Inv(w.st) && Issued(w.st, w.next, w.clock)
  }

  /** A table without rows is one that runs may start from. */
  lemma EmptyTableOk(columns: seq<string>, apriori: nat, next: nat, clock: nat)
    requires apriori <= clock
    ensures WorldInv(World(State(columns, Entry(None, None, apriori), map[], map[]), next, clock))
  {
    hide HeadsNewest;
    var s := State(columns, Entry(None, None, apriori), map[], map[]);
    assert TableOf(s) == Table(None, map[], map[]);
    EmptyTableInv();
  }

  lemma EmptyTableInv()
    ensures TableInv(Table(None, map[], map[]))
  {
  }

  // ----- recovery issues no identifiers -----

  predicate OnlyUndoes(ps: seq<Put>) {
    forall i :: 0 <= i < |ps| ==> ps[i].DropLog? || ps[i].PutRow? || ps[i].DropRow?
  }

  ghost predicate Shrinks(s: State, s': State) {
    s'.entry == s.entry && s'.columns == s.columns && PartOf(s'.log, s.log)
  }

  lemma {:induction false} UndoesShrink(s: State, ps: seq<Put>)
    requires OnlyUndoes(ps)
    ensures Shrinks(s, Replay(s, ps))
    decreases |ps|
  {
    if ps != [] {
      UndoesShrink(Apply(s, ps[0]), ps[1..]);
    }
  }

  lemma {:induction false} RevertOnlyUndoes(s: State, order: seq<Uri>)
    ensures OnlyUndoes(RevertCommands(s, order))
    decreases |order|
  {
    if order != [] && order[0] in s.log && CanUndo(s, order[0]) {
      RevertOnlyUndoes(Replay(s, UndoCommands(s, order[0])), order[1..]);
    }
  }

  lemma RevertShrinks(s: State, order: seq<Uri>, k: nat)
    ensures Shrinks(s, Crash(s, RevertCommands(s, order), k))
  {
    RevertOnlyUndoes(s, order);
    var c := RevertCommands(s, order);
    Journal.CrashIsPrefix(Apply, s, c, k);
    UndoesShrink(s, if k < |c| then c[..k] else c);
  }

  lemma ShrunkIssued(s: State, s': State, next: nat, clock: nat)
    requires Issued(s, next, clock) && Shrinks(s, s')
    ensures Issued(s', next, clock)
  {
  }

  // ----- one change set, cut off anywhere -----

  /** The log rows carry the tag of the change set and new sequence values. */
  ghost predicate Stamped(clock: nat, tag: Uri, logs: map<Uri, LogRow>) {
    forall e :: e in logs ==> logs[e].tag == tag && clock <= logs[e].seqv
  }

  lemma PlanStamped(s: State, next: nat, clock: nat, p: Plan, logs: map<Uri, LogRow>)
    requires BuiltPlan(s, next, clock, p) && PartOf(logs, MapOf(p.logs))
    ensures Stamped(clock, p.tag, logs)
  {
  }

  lemma PartWithin(tag: Uri, all: map<Uri, LogRow>, logs: map<Uri, LogRow>, next: nat, clock: nat)
    requires Within(tag, all, next, clock) && PartOf(logs, all)
    ensures Within(tag, logs, next, clock)
  {
  }

  lemma MidIssued(
      s: State, next: nat, clock: nat, next': nat, clock': nat, tag: Uri,
      logs: map<Uri, LogRow>, rows: map<RowId, Row>)
    requires Issued(s, next, clock) && Stamped(clock, tag, logs) && Within(tag, logs, next', clock')
    requires next <= next' && clock <= clock'
    ensures Issued(Mid(s, tag, logs, rows), next', clock')
    ensures Issued(CommitState(s, tag, logs, rows), next', clock')
  {
  }

  /** Whatever rows are written first, each of them shows one of the log rows. */
  lemma PrefixShows(logs: map<Uri, LogRow>, entries: seq<(RowId, Row)>, some: seq<(RowId, Row)>)
    requires EntriesShow(logs, entries) && some <= entries
    ensures RowsShow(logs, MapOf(some))
  {
    forall r | r in MapOf(some) ensures RowShows(logs, r, MapOf(some)[r]) {
      MapOfIn(some, r);
      var i :| 0 <= i < |some| && some[i] == (r, MapOf(some)[r]);
      assert RowShows(logs, entries[i].0, entries[i].1);
    }
  }

  lemma CutPart(p: Plan, k: nat)
    requires DistinctKeys(p.logs) && EntriesShow(MapOf(p.logs), p.rows)
    ensures PartOf(MapOf(LogsBy(p, k)), MapOf(p.logs)) && RowsShow(MapOf(p.logs), MapOf(RowsBy(p, k)))
    ensures forall r :: r in MapOf(RowsBy(p, k)) ==> MapOf(RowsBy(p, k))[r].etag in MapOf(LogsBy(p, k))
  {
    PrefixPart(p.logs, |LogsBy(p, k)|);
    assert LogsBy(p, k) == p.logs[..|LogsBy(p, k)|];
    PrefixShows(MapOf(p.logs), p.rows, RowsBy(p, k));
    if k < 1 + |p.logs| {
      assert MapOf(RowsBy(p, k)) == map[];
    }
  }

  lemma CutWriteKeeps(s: State, next: nat, clock: nat, next': nat, clock': nat, p: Plan, k: nat)
    requires Inv(s) && Clean(s) && Issued(s, next, clock) && BuiltPlan(s, next, clock, p)
    requires next <= next' && clock <= clock' && Within(p.tag, MapOf(p.logs), next', clock')
    requires k < |WriteCommands(s, p)| && InsertsSendNoETag(TableOf(s), MapOf(LogsBy(p, k)))
    ensures
      var m := Crash(s, WriteCommands(s, p), k);
      Inv(m) && Issued(m, next', clock') && TableOf(m) == TableOf(s)
  {
    if k == 0 {
      assert WriteCommands(s, p)[..0] == [];
    } else {
      var logs, rows := MapOf(LogsBy(p, k)), MapOf(RowsBy(p, k));
      CutWrite(s, p, k);
      CutPart(p, k);
      PlanStamped(s, next, clock, p, logs);
      PartWithin(p.tag, MapOf(p.logs), logs, next', clock');
      MidIssued(s, next, clock, next', clock', p.tag, logs, rows);
      MidKeeps(s, next, clock, p.tag, MapOf(p.logs), MapOf(p.rows), logs, rows);
    }
  }

  lemma FullWriteCommits(s: State, next: nat, clock: nat, next': nat, clock': nat, p: Plan)
    requires Inv(s) && Clean(s) && Issued(s, next, clock) && BuiltPlan(s, next, clock, p)
    requires next <= next' && clock <= clock' && Within(p.tag, MapOf(p.logs), next', clock')
    ensures
      var m := Replay(s, WriteCommands(s, p));
      && Inv(m) && Clean(m) && Issued(m, next', clock')
      && TableOf(m) == Commit(TableOf(s), p.tag, MapOf(p.logs), MapOf(p.rows))
  {
    FullWrite(s, p);
    PlanStamped(s, next, clock, p, MapOf(p.logs));
    MidIssued(s, next, clock, next', clock', p.tag, MapOf(p.logs), MapOf(p.rows));
    CommitKeeps(s, next, clock, p.tag, MapOf(p.logs), MapOf(p.rows));
  }

  // ----- runs -----

  /** Wherever an attempt stops, the table is the old one, or the new one if it got to its last write. */
  lemma AttemptIsAtomic(w: World, a: Attempt)
    requires WorldInv(w) && ValidAttempt(w, a)
    ensures WorldInv(Step(w, a))
    ensures TableOf(Step(w, a).st) == AtomicStep(TableOf(w.st), Commits(w, a), a)
  {
    hide Inv, TableOf, Issued, BuiltPlan, InsertsSendNoETag, Journal.Replay, Journal.Crash;
    hide Recovered, ListsPending, RevertCommands, Shrinks, WriteCommands;
    var s := w.st;
    var c := RevertCommands(s, a.order);
    RevertReaches(s, a.order);
    CleanAfterRecovery(s);
    Journal.CrashAll(Apply, s, c, |c|);
    RevertPrefixKeeps(s, a.order, |c|);
    RevertPrefixKeeps(s, a.order, a.cut);
    RevertShrinks(s, a.order, a.cut);
    ShrunkIssued(s, Crash(s, c, a.cut), w.next, w.clock);
    IssuedLater(Crash(s, c, a.cut), w.next, w.clock, a.next, a.clock);
    if a.plan.Some? {
      var p, s1 := a.plan.value, Recovered(s);
      RevertShrinks(s, a.order, |c|);
      ShrunkIssued(s, s1, w.next, w.clock);
      Journal.CrashConcat(Apply, s, c, WriteCommands(s1, p), a.cut);
      if |c| <= a.cut < |Commands(s, a)| {
        CutWriteKeeps(s1, w.next, w.clock, a.next, a.clock, p, a.cut - |c|);
      } else if a.cut >= |Commands(s, a)| {
        Journal.CrashAll(Apply, s1, WriteCommands(s1, p), a.cut - |c|);
        FullWriteCommits(s1, w.next, w.clock, a.next, a.clock, p);
      }
    }
  }

  lemma IssuedLater(s: State, next: nat, clock: nat, next': nat, clock': nat)
    requires Issued(s, next, clock) && next <= next' && clock <= clock'
    ensures Issued(s, next', clock')
  {
  }

  lemma CleanAfterRecovery(s: State)
    ensures Clean(Recovered(s))
  {
  }

  /** The first sequence value of the table never changes. */
  lemma StepKeepsApriori(w: World, a: Attempt)
    requires WorldInv(w) && ValidAttempt(w, a)
    ensures Step(w, a).st.entry.apriori == w.st.entry.apriori
  {
    hide Inv, Issued, BuiltPlan, InsertsSendNoETag, Journal.Replay, Journal.Crash;
    hide Recovered, ListsPending, RevertCommands, WriteCommands;
    var c := RevertCommands(w.st, a.order);
    RevertReaches(w.st, a.order);
    RevertShrinks(w.st, a.order, a.cut);
    RevertShrinks(w.st, a.order, |c|);
    Journal.CrashAll(Apply, w.st, c, |c|);
    if a.plan.Some? {
      var p, s1 := a.plan.value, Recovered(w.st);
      var k := a.cut - |c|;
      Journal.CrashConcat(Apply, w.st, c, WriteCommands(s1, p), a.cut);
      if k >= |WriteCommands(s1, p)| {
        Journal.CrashAll(Apply, s1, WriteCommands(s1, p), k);
        FullWrite(s1, p);
      } else if k > 0 {
        CutWrite(s1, p, k);
      } else {
        Journal.Nothing(Apply, s1, WriteCommands(s1, p), 0);
      }
    }
  }

  function Run(w: World, run: seq<Attempt>): World
    decreases |run|
  {
    if run == [] then w else Run(Step(w, run[0]), run[1..])
  }

  ghost predicate ValidRun(w: World, run: seq<Attempt>)
    decreases |run|
  {
    run != [] ==> ValidAttempt(w, run[0]) && ValidRun(Step(w, run[0]), run[1..])
  }

  /** The atomic table `t` after the committed attempts of the run, ignoring all others. */
  function AtomicFold(t: Table, w: World, run: seq<Attempt>): Table
    decreases |run|
  {
    if run == [] then t
    else AtomicFold(AtomicStep(t, Commits(w, run[0]), run[0]), Step(w, run[0]), run[1..])
  }

  /**
    Crash atomicity.  After any run, a completed recovery shows exactly the table that
    the committed change sets make, one after the other, on an atomic table.
   */
  lemma {:induction false} RunsAreAtomic(w: World, run: seq<Attempt>)
    requires WorldInv(w) && ValidRun(w, run)
    ensures WorldInv(Run(w, run))
    ensures TableOf(Run(w, run).st) == AtomicFold(TableOf(w.st), w, run)
    decreases |run|
  {
    if run != [] {
      AttemptIsAtomic(w, run[0]);
      RunsAreAtomic(Step(w, run[0]), run[1..]);
    }
  }
}
