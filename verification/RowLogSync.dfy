/** Synchronization: clients that read the log by sequence value end up with the current rows. */
module RowLogSync {
  import opened Wrappers
  import opened RowLog
  import opened RowLogRecovery
  import opened RowLogRuns

  // ----- queries on the log -----

  /** `hits` lists the log rows `es` by ascending sequence value. */
  ghost predicate InOrder(log: map<Uri, LogRow>, hits: seq<Uri>, es: set<Uri>) {
    && (forall e :: e in hits <==> e in es)
    && es <= log.Keys
    && (forall i, j :: 0 <= i < j < |hits| ==> log[hits[i]].seqv < log[hits[j]].seqv)
  }

  function Since(log: map<Uri, LogRow>, v: nat): set<Uri> {
    set e | e in log && v < log[e].seqv
  }

  function FromStart(log: map<Uri, LogRow>, apriori: nat): set<Uri> {
    set e | e in log && apriori <= log[e].seqv
  }

  /** `v` is the sequence value of the last log row with this tag, None if there is none. */
  ghost predicate IsSeqOf(log: map<Uri, LogRow>, tag: Uri, v: Option<nat>) {
    if v.None? then forall e :: e in log ==> log[e].tag != tag
    else
      && (exists e :: e in log && log[e].tag == tag && log[e].seqv == v.value)
      && (forall e :: e in log && log[e].tag == tag ==> log[e].seqv <= v.value)
  }

  function Matches(log: map<Uri, LogRow>, apriori: nat, v: Option<nat>): set<Uri> {
    if v.None? then FromStart(log, apriori) else Since(log, v.value)
  }

  type View = map<RowId, (Uri, LogRow)>

  /** The rows of the table as a client sees them. */
  function ViewOf(t: Table): View {
    map r | r in t.head && t.head[r] in t.log :: (t.head[r], t.log[t.head[r]])
  }

  /** Of several log rows of one data row only the last is kept. */
  function Diff(log: map<Uri, LogRow>, hits: seq<Uri>): View
    requires forall e :: e in hits ==> e in log
  {
    if hits == [] then map[]
    else
      var e := hits[|hits| - 1];
      Diff(log, hits[..|hits| - 1])[log[e].rowId := (e, log[e])]
  }

  /** `e` is the newest log row of data row `r` among `es`. */
  ghost predicate Newest(log: map<Uri, LogRow>, es: set<Uri>, r: RowId, e: Uri) {
    && e in es && e in log && log[e].rowId == r
    && (forall f :: f in es && f in log && log[f].rowId == r ==> log[f].seqv <= log[e].seqv)
  }

  lemma OrderFront(log: map<Uri, LogRow>, hits: seq<Uri>, es: set<Uri>)
    requires InOrder(log, hits, es) && hits != []
    ensures
      var n := |hits| - 1;
      var e := hits[n];
      && e in es && e in log && InOrder(log, hits[..n], es - {e})
      && forall f :: f in es && f != e ==> f in log && log[f].seqv < log[e].seqv
  {
    var n := |hits| - 1;
    var e := hits[n];
    assert e in hits;
    forall f | f in es && f != e ensures f in hits[..n] && f in log && log[f].seqv < log[e].seqv {
      var i :| 0 <= i < |hits| && hits[i] == f;
      assert hits[..n][i] == f;
    }
    forall f | f in hits[..n] ensures f in es && f != e {
      var i :| 0 <= i < n && hits[i] == f;
      assert f in hits;
    }
  }

  lemma {:induction false} DiffKeepsNewest(log: map<Uri, LogRow>, hits: seq<Uri>, es: set<Uri>)
    requires InOrder(log, hits, es)
    ensures forall r :: r in Diff(log, hits) ==>
      Newest(log, es, r, Diff(log, hits)[r].0) && Diff(log, hits)[r].1 == log[Diff(log, hits)[r].0]
    ensures forall e :: e in es ==> log[e].rowId in Diff(log, hits)
  {
    if hits != [] {
      var n := |hits| - 1;
      var e := hits[n];
      OrderFront(log, hits, es);
      DiffKeepsNewest(log, hits[..n], es - {e});
      forall r | r in Diff(log, hits)
        ensures Newest(log, es, r, Diff(log, hits)[r].0) && Diff(log, hits)[r].1 == log[Diff(log, hits)[r].0]
      {
        if r != log[e].rowId { assert r in Diff(log, hits[..n]); }
      }
    }
  }

  // ----- how the table grows -----

  /** Everything in `t` is still in `u`, and what is new uses identifiers and sequence values from here on. */
  ghost predicate Grew(t: Table, u: Table, next: nat, clock: nat) {
    && (forall e :: e in t.log ==> e in u.log && u.log[e] == t.log[e])
    && (forall e :: e in u.log && e !in t.log ==> next <= e && next <= u.log[e].tag && clock <= u.log[e].seqv)
  }

  /** What is in the table was issued before. */
  ghost predicate Before(t: Table, next: nat, clock: nat) {
    && (forall e :: e in t.log ==> t.log[e].tag < next && t.log[e].seqv < clock)
    && (t.tag.Some? ==> t.tag.value < next)
  }

  lemma IssuedBefore(w: World)
    requires WorldInv(w)
    ensures Before(TableOf(w.st), w.next, w.clock)
  {
  }

  lemma GrewTwice(t: Table, u: Table, v: Table, next: nat, clock: nat, next': nat, clock': nat)
    requires next <= next' && clock <= clock'
    requires Grew(t, u, next, clock) && Grew(u, v, next', clock')
    ensures Grew(t, v, next, clock)
  {
  }

  lemma CommitGrows(s: State, next: nat, clock: nat, p: Plan)
    requires Issued(s, next, clock) && BuiltPlan(s, next, clock, p)
    ensures Grew(TableOf(s), Commit(TableOf(s), p.tag, MapOf(p.logs), MapOf(p.rows)), next, clock)
  {
    assert forall e :: e in MapOf(p.logs) ==> e !in s.log;
  }

  lemma AttemptGrows(w: World, a: Attempt)
    requires WorldInv(w) && ValidAttempt(w, a)
    ensures Grew(TableOf(w.st), TableOf(Step(w, a).st), w.next, w.clock)
  {
    hide Inv, TableOf, BuiltPlan, InsertsSendNoETag, Journal.Crash, RevertCommands, Recovered, Shrinks;
    AttemptIsAtomic(w, a);
    if Commits(w, a) {
      Journal.CrashAll(Apply, w.st, RevertCommands(w.st, a.order), |RevertCommands(w.st, a.order)|);
      RevertReaches(w.st, a.order);
      RevertShrinks(w.st, a.order, |RevertCommands(w.st, a.order)|);
      ShrunkIssued(w.st, Recovered(w.st), w.next, w.clock);
      CommitGrows(Recovered(w.st), w.next, w.clock, a.plan.value);
    }
  }

  lemma {:induction false} RunGrows(w: World, run: seq<Attempt>)
    requires WorldInv(w) && ValidRun(w, run)
    ensures WorldInv(Run(w, run)) && w.next <= Run(w, run).next && w.clock <= Run(w, run).clock
    ensures Grew(TableOf(w.st), TableOf(Run(w, run).st), w.next, w.clock)
    ensures Run(w, run).st.entry.apriori == w.st.entry.apriori
    decreases |run|
  {
    if run != [] {
      var w' := Step(w, run[0]);
      StepKeepsApriori(w, run[0]);
      AttemptIsAtomic(w, run[0]);
      AttemptGrows(w, run[0]);
      RunGrows(w', run[1..]);
      GrewTwice(TableOf(w.st), TableOf(w'.st), TableOf(Run(w, run).st), w.next, w.clock, w'.next, w'.clock);
    }
  }

  // ----- one query -----

  /** With a log row, all later log rows of the same data row are included. */
  ghost predicate UpClosed(log: map<Uri, LogRow>, es: set<Uri>) {
    forall e, f :: e in es && f in log && Older(log, e, f) ==> f in es
  }

  lemma NewestIsHead(u: Table, es: set<Uri>, r: RowId, e: Uri)
    requires HeadsNewest(u) && SeqDistinct(u) && UpClosed(u.log, es)
    requires Newest(u.log, es, r, e)
    ensures r in u.head && u.head[r] == e
  {
    var h := u.head[r];
    if u.log[e].seqv < u.log[h].seqv { assert Older(u.log, e, h); }
  }

  /** A data row without a new log row keeps its head. */
  lemma HeadKept(t: Table, u: Table, next: nat, clock: nat, r: RowId)
    requires HeadsNewest(t) && HeadsNewest(u) && SeqDistinct(u) && Grew(t, u, next, clock)
    requires r in u.head && u.head[r] in t.log
    ensures r in t.head && t.head[r] == u.head[r]
  {
    var h := u.head[r];
    assert t.log[h].rowId == r;
    assert t.head[r] in u.log && u.log[t.head[r]] == t.log[t.head[r]];
  }

  lemma ApplyAt(t: Table, u: Table, next: nat, clock: nat, hits: seq<Uri>, es: set<Uri>, r: RowId)
    requires HeadsNewest(t) && HeadsNewest(u) && SeqDistinct(u) && Grew(t, u, next, clock)
    requires InOrder(u.log, hits, es) && UpClosed(u.log, es)
    requires forall e :: e in u.log && e !in t.log ==> e in es
    ensures
      var a, d, b := ViewOf(t), Diff(u.log, hits), ViewOf(u);
      && (r in d ==> r in b && d[r] == b[r])
      && (r in b && r !in d ==> r in a && a[r] == b[r])
      && (r in a ==> r in b)
  {
    DiffKeepsNewest(u.log, hits, es);
    var d := Diff(u.log, hits);
    if r in d {
      NewestIsHead(u, es, r, d[r].0);
    } else if r in u.head {
      assert u.head[r] in u.log && u.log[u.head[r]].rowId == r;
      HeadKept(t, u, next, clock, r);
    }
  }

  lemma MergeIs(a: View, d: View, b: View)
    requires forall r :: r in d ==> r in b && d[r] == b[r]
    requires forall r :: r in b && r !in d ==> r in a && a[r] == b[r]
    requires forall r :: r in a ==> r in b
    ensures a + d == b
  {
  }

  lemma ApplyDiff(t: Table, u: Table, next: nat, clock: nat, hits: seq<Uri>, es: set<Uri>)
    requires HeadsNewest(t) && HeadsNewest(u) && SeqDistinct(u) && Grew(t, u, next, clock)
    requires InOrder(u.log, hits, es) && UpClosed(u.log, es)
    requires forall e :: e in u.log && e !in t.log ==> e in es
    ensures ViewOf(t) + Diff(u.log, hits) == ViewOf(u)
  {
    var a, d, b := ViewOf(t), Diff(u.log, hits), ViewOf(u);
    forall r
      ensures r in d ==> r in b && d[r] == b[r]
      ensures r in b && r !in d ==> r in a && a[r] == b[r]
      ensures r in a ==> r in b
    {
      ApplyAt(t, u, next, clock, hits, es, r);
    }
    MergeIs(a, d, b);
  }

  /** Growth does not move the last sequence value of an older tag. */
  lemma SeqOfKept(t: Table, u: Table, next: nat, clock: nat, tag: Uri, v: Option<nat>)
    requires Grew(t, u, next, clock) && tag < next
    ensures IsSeqOf(t.log, tag, v) <==> IsSeqOf(u.log, tag, v)
  {
    forall e | e in u.log && u.log[e].tag == tag ensures e in t.log {}
    if v.Some? && IsSeqOf(t.log, tag, v) {
      var e :| e in t.log && t.log[e].tag == tag && t.log[e].seqv == v.value;
      assert e in u.log && u.log[e].tag == tag && u.log[e].seqv == v.value;
    }
  }

  /** Above the last sequence value of the data tag of `t` lies exactly what came after `t`. */
  lemma SinceIsNew(t: Table, u: Table, next: nat, clock: nat, tag: Uri, v: nat)
    requires TagLast(t) && Before(t, next, clock) && Grew(t, u, next, clock)
    requires t.tag == Some(tag) && IsSeqOf(t.log, tag, Some(v))
    ensures Since(u.log, v) == u.log.Keys - t.log.Keys
  {
    var e :| e in t.log && t.log[e].tag == tag && t.log[e].seqv == v;
    forall f | f in t.log ensures t.log[f].seqv <= v {
      if t.log[f].tag != tag { assert t.log[f].seqv < t.log[e].seqv; }
    }
  }

  /** What a query from the data tag `tag` matches, with the sequence value that it finds for the tag. */
  ghost predicate Answers(log: map<Uri, LogRow>, apriori: nat, tag: Option<Uri>, hits: seq<Uri>) {
    exists v: Option<nat> ::
      && (if tag.Some? then IsSeqOf(log, tag.value, v) else v == None)
      && InOrder(log, hits, Matches(log, apriori, v))
  }

  ghost predicate AboveApriori(log: map<Uri, LogRow>, apriori: nat) {
    forall e :: e in log ==> apriori <= log[e].seqv
  }

  /**
    Applying the answer to a snapshot taken when `t` was current gives the current rows,
    also when the tag has no log row and the query starts from the beginning.
   */
  lemma SyncConverges(t: Table, u: Table, next: nat, clock: nat, apriori: nat, hits: seq<Uri>)
    requires TableInv(t) && TableInv(u) && Before(t, next, clock) && Grew(t, u, next, clock)
    requires AboveApriori(u.log, apriori)
    requires Answers(u.log, apriori, t.tag, hits)
    ensures ViewOf(t) + Diff(u.log, hits) == ViewOf(u)
  {
    var v: Option<nat> :|
      && (if t.tag.Some? then IsSeqOf(u.log, t.tag.value, v) else v == None)
      && InOrder(u.log, hits, Matches(u.log, apriori, v));
    var es := Matches(u.log, apriori, v);
    MatchesCover(t, u, next, clock, apriori, v);
    ApplyDiff(t, u, next, clock, hits, es);
  }

  /** From the last sequence value of the data tag on, or from the beginning, nothing new is left out. */
  lemma MatchesCover(t: Table, u: Table, next: nat, clock: nat, apriori: nat, v: Option<nat>)
    requires TableInv(t) && Before(t, next, clock) && Grew(t, u, next, clock) && AboveApriori(u.log, apriori)
    requires if t.tag.Some? then IsSeqOf(u.log, t.tag.value, v) else v == None
    ensures
      var es := Matches(u.log, apriori, v);
      && UpClosed(u.log, es) && forall e :: e in u.log && e !in t.log ==> e in es
  {
    hide HeadsNewest, SeqDistinct, IsSeqOf;
    if v.Some? {
      SeqOfKept(t, u, next, clock, t.tag.value, v);
      SinceIsNew(t, u, next, clock, t.tag.value, v.value);
      hide Grew, Before, TagLast;
    }
  }

  /** The same for any run: from the commit that the client last saw to the recovered table now. */
  lemma SyncConvergesOverRuns(w: World, run: seq<Attempt>, apriori: nat, hits: seq<Uri>)
    requires WorldInv(w) && ValidRun(w, run)
    requires apriori == Run(w, run).st.entry.apriori
    requires Answers(TableOf(Run(w, run).st).log, apriori, TableOf(w.st).tag, hits)
    ensures ViewOf(TableOf(w.st)) + Diff(TableOf(Run(w, run).st).log, hits) == ViewOf(TableOf(Run(w, run).st))
  {
    RunGrows(w, run);
    IssuedBefore(w);
    var t, u := TableOf(w.st), TableOf(Run(w, run).st);
    assert TableInv(t) && TableInv(u);
    assert AboveApriori(u.log, apriori);
    SyncConverges(t, u, w.next, w.clock, apriori, hits);
  }
}
