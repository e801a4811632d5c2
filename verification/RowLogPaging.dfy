/** Reading the log in pages, and polling it for change sets, while it keeps growing. */
module RowLogPaging {
  import opened Wrappers
  import opened RowLog
  import opened RowLogRuns
  import opened RowLogSync

  // ----- pages -----

  /** What follows the row that the last page ended with; nothing if that row is gone. */
  function After(hits: seq<Uri>, anchor: Option<Uri>): seq<Uri>
    decreases |hits|
  {
    if anchor.None? then hits
    else if hits == [] then []
    else if hits[0] == anchor.value then hits[1..]
    else After(hits[1..], anchor)
  }

  /** One page of at most `limit` rows; 0 means no limit. */
  function Page(hits: seq<Uri>, anchor: Option<Uri>, limit: nat): seq<Uri> {
    var rest := After(hits, anchor);
    if limit == 0 || |rest| <= limit then rest else rest[..limit]
  }

  function HasMore(hits: seq<Uri>, anchor: Option<Uri>, limit: nat): bool {
    limit != 0 && |After(hits, anchor)| > limit
  }

  /** The resume point after a page. */
  function Resume(page: seq<Uri>, anchor: Option<Uri>): Option<Uri> {
    if page == [] then anchor else Some(page[|page| - 1])
  }

  lemma {:induction false} AfterPrefix(hits: seq<Uri>, n: nat)
    requires 0 < n <= |hits|
    requires forall i, j :: 0 <= i < j < |hits| ==> hits[i] != hits[j]
    ensures After(hits, Some(hits[n - 1])) == hits[n..]
  {
    if n > 1 {
      assert hits[1..][n - 2] == hits[n - 1];
      AfterPrefix(hits[1..], n - 1);
      assert hits[1..][n - 1..] == hits[n..];
    }
  }

  /** Where the page ends that starts after the first `n` of so many rows. */
  function PageEnd(total: nat, n: nat, limit: nat): nat {
    if limit == 0 || total <= n + limit then total else n + limit
  }

  /** The resume point of a client that has seen the first `n` rows. */
  function Cursor(hits: seq<Uri>, n: nat): Option<Uri>
    requires n <= |hits|
  {
    if n == 0 then None else Some(hits[n - 1])
  }

  /** A page after the first `n` rows is filled up to its limit, and there are more just when rows are left. */
  lemma PageIs(hits: seq<Uri>, n: nat, limit: nat)
    requires n <= |hits| && forall i, j :: 0 <= i < j < |hits| ==> hits[i] != hits[j]
    ensures
      var anchor, end := Cursor(hits, n), PageEnd(|hits|, n, limit);
      && Page(hits, anchor, limit) == hits[n..end]
      && (HasMore(hits, anchor, limit) <==> end < |hits|)
      && Resume(Page(hits, anchor, limit), anchor) == Cursor(hits, end)
  {
    if n == 0 {
      assert hits[0..] == hits;
    } else {
      AfterPrefix(hits, n);
    }
  }

  /** After a row that is not among them there is nothing, and the client stays where it is. */
  lemma {:induction false} GoneCursor(hits: seq<Uri>, cursor: Uri, limit: nat)
    requires cursor !in hits
    ensures Page(hits, Some(cursor), limit) == [] && !HasMore(hits, Some(cursor), limit)
    ensures Resume(Page(hits, Some(cursor), limit), Some(cursor)) == Some(cursor)
    decreases |hits|
  {
    if hits != [] { GoneCursor(hits[1..], cursor, limit); }
  }

  lemma {:induction false} DiffConcat(log: map<Uri, LogRow>, a: seq<Uri>, b: seq<Uri>)
    requires forall e :: e in a || e in b ==> e in log
    ensures forall e :: e in a + b ==> e in log
    ensures Diff(log, a + b) == Diff(log, a) + Diff(log, b)
  {
    if b == [] {
      assert a + b == a;
    } else {
      var n := |b| - 1;
      assert (a + b)[..|a + b| - 1] == a + b[..n];
      DiffConcat(log, a, b[..n]);
    }
  }

  lemma {:induction false} DiffSame(t: map<Uri, LogRow>, u: map<Uri, LogRow>, hits: seq<Uri>)
    requires forall e :: e in hits ==> e in t && e in u && t[e] == u[e]
    ensures Diff(t, hits) == Diff(u, hits)
  {
    if hits != [] {
      assert hits[|hits| - 1] in hits;
      DiffSame(t, u, hits[..|hits| - 1]);
    }
  }

  lemma DropLast(log: map<Uri, LogRow>, b: seq<Uri>, fs: set<Uri>)
    requires InOrder(log, b, fs) && b != []
    ensures b[|b| - 1] in fs && InOrder(log, b[..|b| - 1], fs - {b[|b| - 1]})
  {
    var n := |b| - 1;
    assert b[n] in b;
    forall e ensures e in b[..n] <==> e in fs - {b[n]} {
      if e in fs && e != b[n] { assert e in b; }
      if e in b[..n] { var i :| 0 <= i < n && b[i] == e; assert e in b; }
    }
  }

  lemma LastIsLargest(log: map<Uri, LogRow>, b: seq<Uri>, fs: set<Uri>)
    requires InOrder(log, b, fs) && b != []
    ensures forall g :: g in fs ==> log[g].seqv <= log[b[|b| - 1]].seqv
  {
    forall g | g in fs ensures log[g].seqv <= log[b[|b| - 1]].seqv {
      assert g in b;
    }
  }

  lemma EmptyOrder(log: map<Uri, LogRow>, b: seq<Uri>, fs: set<Uri>)
    requires InOrder(log, b, fs)
    ensures b == [] <==> fs == {}
  {
    if b != [] { assert b[0] in b; }
    if fs != {} { var e :| e in fs; assert e in b; }
  }

  lemma SameLast(log: map<Uri, LogRow>, a: seq<Uri>, b: seq<Uri>, es: set<Uri>)
    requires InOrder(log, a, es) && InOrder(log, b, es) && a != [] && b != []
    ensures a[|a| - 1] == b[|b| - 1]
  {
    var f, g := b[|b| - 1], a[|a| - 1];
    LastIsLargest(log, a, es);
    LastIsLargest(log, b, es);
    assert f in b && f in a && g in a && g in b;
    var i :| 0 <= i < |a| && a[i] == f;
  }

  /** The log rows in order are one list only. */
  lemma {:induction false} OrderIsUnique(log: map<Uri, LogRow>, a: seq<Uri>, b: seq<Uri>, es: set<Uri>)
    requires InOrder(log, a, es) && InOrder(log, b, es)
    ensures a == b
    decreases |b|
  {
    EmptyOrder(log, a, es);
    EmptyOrder(log, b, es);
    if b != [] {
      SameLast(log, a, b, es);
      DropLast(log, a, es);
      DropLast(log, b, es);
      OrderIsUnique(log, a[..|a| - 1], b[..|b| - 1], es - {b[|b| - 1]});
      assert a == a[..|a| - 1] + [b[|b| - 1]] && b == b[..|b| - 1] + [b[|b| - 1]];
    }
  }

  /** When everything added is newer, the old list is a prefix of the new one. */
  lemma {:induction false} OrderedPrefix(log: map<Uri, LogRow>, a: seq<Uri>, b: seq<Uri>, es: set<Uri>, fs: set<Uri>)
    requires InOrder(log, a, es) && InOrder(log, b, fs) && es <= fs
    requires forall e, f :: e in es && f in fs && f !in es ==> log[e].seqv < log[f].seqv
    ensures a <= b
    decreases |b|
  {
    if es == fs {
      OrderIsUnique(log, a, b, es);
    } else {
      var g :| g in fs && g !in es;
      assert g in b;
      LastIsLargest(log, b, fs);
      DropLast(log, b, fs);
      var f := b[|b| - 1];
      assert f !in es;
      OrderedPrefix(log, a, b[..|b| - 1], es, fs - {f});
      assert b[..|b| - 1] <= b;
    }
  }

  lemma InOrderKept(t: map<Uri, LogRow>, u: map<Uri, LogRow>, hits: seq<Uri>, es: set<Uri>)
    requires InOrder(t, hits, es)
    requires forall e :: e in t ==> e in u && u[e] == t[e]
    ensures InOrder(u, hits, es)
  {
    forall i, j | 0 <= i < j < |hits| ensures u[hits[i]].seqv < u[hits[j]].seqv {
      assert hits[i] in hits && hits[j] in hits;
    }
  }

  lemma OneSeqOf(log: map<Uri, LogRow>, tag: Uri, v: Option<nat>, v': Option<nat>)
    requires IsSeqOf(log, tag, v) && IsSeqOf(log, tag, v')
    ensures v == v'
  {
  }

  /** The answer to one and the same query only gets longer while the table grows. */
  lemma AnswerGrows(
      t: Table, u: Table, next: nat, clock: nat, apriori: nat, tag: Option<Uri>, a: seq<Uri>, b: seq<Uri>)
    requires Before(t, next, clock) && Grew(t, u, next, clock)
    requires tag.Some? ==> tag.value < next
    requires Answers(t.log, apriori, tag, a) && Answers(u.log, apriori, tag, b)
    ensures a <= b
  {
    var v: Option<nat> :| (if tag.Some? then IsSeqOf(t.log, tag.value, v) else v == None)
      && InOrder(t.log, a, Matches(t.log, apriori, v));
    var v': Option<nat> :| (if tag.Some? then IsSeqOf(u.log, tag.value, v') else v' == None)
      && InOrder(u.log, b, Matches(u.log, apriori, v'));
    if tag.Some? {
      SeqOfKept(t, u, next, clock, tag.value, v);
      OneSeqOf(u.log, tag.value, v, v');
    }
    var es, fs := Matches(t.log, apriori, v), Matches(u.log, apriori, v);
    InOrderKept(t.log, u.log, a, es);
    OrderedPrefix(u.log, a, b, es, fs);
  }

  /** One page request, after the attempts that took place since the last one. */
  datatype Fetch = Fetch(run: seq<Attempt>, hits: seq<Uri>, limit: nat)

  ghost predicate ValidFetches(w: World, tag: Option<Uri>, fetches: seq<Fetch>)
    decreases |fetches|
  {
    fetches != [] ==>
      var f := fetches[0];
      var w' := Run(w, f.run);
      && ValidRun(w, f.run)
      && Answers(TableOf(w'.st).log, w'.st.entry.apriori, tag, f.hits)
      && ValidFetches(w', tag, fetches[1..])
  }

  function Final(w: World, fetches: seq<Fetch>): World
    decreases |fetches|
  {
    if fetches == [] then w else Final(Run(w, fetches[0].run), fetches[1..])
  }

  /** The client applies the difference of each page to its copy, page by page. */
  ghost function Pull(w: World, view: View, anchor: Option<Uri>, fetches: seq<Fetch>): View
    decreases |fetches|
  {
    if fetches == [] then view
    else
      var f := fetches[0];
      var w' := Run(w, f.run);
      var page := Page(f.hits, anchor, f.limit);
      var log := TableOf(w'.st).log;
      if forall e :: e in page ==> e in log then
        Pull(w', view + Diff(log, page), Resume(page, anchor), fetches[1..])
      else view
  }

  /** The last page says that there are no more rows. */
  predicate Finished(w: World, anchor: Option<Uri>, fetches: seq<Fetch>)
    decreases |fetches|
  {
    && fetches != []
    && var f := fetches[0];
       if |fetches| == 1 then !HasMore(f.hits, anchor, f.limit)
       else Finished(Run(w, f.run), Resume(Page(f.hits, anchor, f.limit), anchor), fetches[1..])
  }

  /** The copy is the snapshot plus the rows seen so far. */
  ghost function Copy(w0: World, w: World, seen: seq<Uri>): View
    requires forall e :: e in seen ==> e in TableOf(w.st).log
  {
    ViewOf(TableOf(w0.st)) + Diff(TableOf(w.st).log, seen)
  }

  /** What has been seen is a prefix of what the query matches. */
  ghost predicate Reading(w0: World, w: World, seen: seq<Uri>, anchor: Option<Uri>) {
    var t, u := TableOf(w0.st), TableOf(w.st);
    && (forall e :: e in seen ==> e in u.log)
    && anchor == Resume(seen, None)
    && (seen != [] ==>
          exists hits :: Answers(u.log, w.st.entry.apriori, t.tag, hits) && seen <= hits)
  }

  ghost predicate Later(w0: World, w: World) {
    && WorldInv(w0) && WorldInv(w) && w0.next <= w.next && w0.clock <= w.clock
    && w.st.entry.apriori == w0.st.entry.apriori
    && Grew(TableOf(w0.st), TableOf(w.st), w0.next, w0.clock)
  }

  lemma LaterRun(w0: World, w: World, run: seq<Attempt>)
    requires Later(w0, w) && ValidRun(w, run)
    ensures Later(w0, Run(w, run))
  {
    RunGrows(w, run);
    GrewTwice(TableOf(w0.st), TableOf(w.st), TableOf(Run(w, run).st), w0.next, w0.clock, w.next, w.clock);
  }

  lemma SeenIsPrefix(w0: World, w: World, seen: seq<Uri>, anchor: Option<Uri>, f: Fetch)
    requires Later(w0, w) && Reading(w0, w, seen, anchor) && ValidRun(w, f.run)
    requires Answers(TableOf(Run(w, f.run).st).log, Run(w, f.run).st.entry.apriori, TableOf(w0.st).tag, f.hits)
    ensures seen <= f.hits
  {
    var t, u, u' := TableOf(w0.st), TableOf(w.st), TableOf(Run(w, f.run).st);
    if seen != [] {
      var hits :| Answers(u.log, w.st.entry.apriori, t.tag, hits) && seen <= hits;
      IssuedBefore(w0);
      IssuedBefore(w);
      RunGrows(w, f.run);
      AnswerGrows(u, u', w.next, w.clock, w.st.entry.apriori, t.tag, hits, f.hits);
    }
  }

  lemma AfterSeen(hits: seq<Uri>, seen: seq<Uri>, anchor: Option<Uri>)
    requires seen <= hits && anchor == Resume(seen, None)
    requires forall i, j :: 0 <= i < j < |hits| ==> hits[i] != hits[j]
    ensures After(hits, anchor) == hits[|seen|..]
  {
    if seen != [] {
      AfterPrefix(hits, |seen|);
      assert hits[|seen| - 1] == seen[|seen| - 1];
    } else {
      assert hits[0..] == hits;
    }
  }

  /** A prefix of what follows extends the prefix that was seen. */
  lemma SeenMore(hits: seq<Uri>, seen: seq<Uri>, page: seq<Uri>)
    requires seen <= hits && page <= hits[|seen|..]
    ensures seen + page <= hits && (page == hits[|seen|..] ==> seen + page == hits)
  {
    assert seen + hits[|seen|..] == hits;
    forall i | 0 <= i < |page| ensures hits[|seen| + i] == page[i] {
      assert hits[|seen|..][i] == page[i];
    }
  }

  lemma ResumeFollows(seen: seq<Uri>, page: seq<Uri>)
    ensures Resume(page, Resume(seen, None)) == Resume(seen + page, None)
  {
    if page == [] { assert seen + page == seen; }
  }

  lemma PageFollows(hits: seq<Uri>, seen: seq<Uri>, anchor: Option<Uri>, limit: nat)
    requires seen <= hits && anchor == Resume(seen, None)
    requires forall i, j :: 0 <= i < j < |hits| ==> hits[i] != hits[j]
    ensures After(hits, anchor) == hits[|seen|..]
    ensures seen + Page(hits, anchor, limit) <= hits
    ensures !HasMore(hits, anchor, limit) ==> seen + Page(hits, anchor, limit) == hits
    ensures Resume(Page(hits, anchor, limit), anchor) == Resume(seen + Page(hits, anchor, limit), None)
  {
    hide After, Resume;
    AfterSeen(hits, seen, anchor);
    SeenMore(hits, seen, Page(hits, anchor, limit));
    ResumeFollows(seen, Page(hits, anchor, limit));
  }

  lemma AnswersDistinct(log: map<Uri, LogRow>, apriori: nat, tag: Option<Uri>, hits: seq<Uri>)
    requires Answers(log, apriori, tag, hits)
    ensures forall i, j :: 0 <= i < j < |hits| ==> hits[i] != hits[j]
    ensures forall e :: e in hits ==> e in log
  {
    var v: Option<nat> :| InOrder(log, hits, Matches(log, apriori, v));
    forall i, j | 0 <= i < j < |hits| ensures hits[i] != hits[j] {
      assert hits[i] in hits && hits[j] in hits;
      assert log[hits[i]].seqv < log[hits[j]].seqv;
    }
  }

  lemma MergeAssociates(a: View, b: View, c: View)
    ensures (a + b) + c == a + (b + c)
  {
  }

  lemma CopyAfterPage(
      start: View, before: map<Uri, LogRow>, log: map<Uri, LogRow>, seen: seq<Uri>, page: seq<Uri>, view: View)
    requires forall e :: e in seen ==> e in before && e in log && before[e] == log[e]
    requires forall e :: e in page ==> e in log
    requires view == start + Diff(before, seen)
    ensures forall e :: e in seen + page ==> e in log
    ensures view + Diff(log, page) == start + Diff(log, seen + page)
  {
    DiffSame(before, log, seen);
    DiffConcat(log, seen, page);
    MergeAssociates(start, Diff(log, seen), Diff(log, page));
  }

  /** What has been seen with one more page. */
  lemma SeenWithPage(w0: World, w: World, seen: seq<Uri>, anchor: Option<Uri>, f: Fetch)
    requires Later(w0, w) && Reading(w0, w, seen, anchor) && ValidRun(w, f.run)
    requires Answers(TableOf(Run(w, f.run).st).log, Run(w, f.run).st.entry.apriori, TableOf(w0.st).tag, f.hits)
    ensures
      var page := Page(f.hits, anchor, f.limit);
      && (forall e :: e in page ==> e in TableOf(Run(w, f.run).st).log)
      && seen + page <= f.hits
      && Resume(page, anchor) == Resume(seen + page, None)
      && (!HasMore(f.hits, anchor, f.limit) ==> seen + page == f.hits)
  {
    var w', page := Run(w, f.run), Page(f.hits, anchor, f.limit);
    SeenIsPrefix(w0, w, seen, anchor, f);
    AnswersDistinct(TableOf(w'.st).log, w'.st.entry.apriori, TableOf(w0.st).tag, f.hits);
    PageFollows(f.hits, seen, anchor, f.limit);
    forall e | e in page ensures e in TableOf(w'.st).log { assert e in seen + page; assert e in f.hits; }
  }

  lemma GrewLog(w: World, run: seq<Attempt>, seen: seq<Uri>)
    requires WorldInv(w) && ValidRun(w, run)
    requires forall e :: e in seen ==> e in TableOf(w.st).log
    ensures forall e :: e in seen ==>
      e in TableOf(Run(w, run).st).log && TableOf(w.st).log[e] == TableOf(Run(w, run).st).log[e]
  {
    RunGrows(w, run);
  }

  /** One more page: what has been seen is a longer prefix, or everything when there is no more. */
  lemma ReadPage(w0: World, w: World, seen: seq<Uri>, anchor: Option<Uri>, f: Fetch)
    requires Later(w0, w) && Reading(w0, w, seen, anchor) && ValidRun(w, f.run)
    requires Answers(TableOf(Run(w, f.run).st).log, Run(w, f.run).st.entry.apriori, TableOf(w0.st).tag, f.hits)
    ensures
      var w', page := Run(w, f.run), Page(f.hits, anchor, f.limit);
      var log := TableOf(w'.st).log;
      && (forall e :: e in page ==> e in log)
      && Reading(w0, w', seen + page, Resume(page, anchor))
      && Copy(w0, w, seen) + Diff(log, page) == Copy(w0, w', seen + page)
  {
    hide WorldInv, Grew, TableOf, ViewOf, Diff, Answers, ValidRun, Page, Resume, Run;
    var page := Page(f.hits, anchor, f.limit);
    SeenWithPage(w0, w, seen, anchor, f);
    GrewLog(w, f.run, seen);
    CopyAfterPage(ViewOf(TableOf(w0.st)), TableOf(w.st).log, TableOf(Run(w, f.run).st).log, seen, page,
                  Copy(w0, w, seen));
  }

  lemma LastPage(w0: World, w: World, seen: seq<Uri>, anchor: Option<Uri>, f: Fetch)
    requires Later(w0, w) && Reading(w0, w, seen, anchor) && ValidRun(w, f.run)
    requires Answers(TableOf(Run(w, f.run).st).log, Run(w, f.run).st.entry.apriori, TableOf(w0.st).tag, f.hits)
    requires !HasMore(f.hits, anchor, f.limit)
    ensures
      var u, page := TableOf(Run(w, f.run).st), Page(f.hits, anchor, f.limit);
      (forall e :: e in page ==> e in u.log) && Copy(w0, w, seen) + Diff(u.log, page) == ViewOf(u)
  {
    var w', page := Run(w, f.run), Page(f.hits, anchor, f.limit);
    SeenWithPage(w0, w, seen, anchor, f);
    ReadPage(w0, w, seen, anchor, f);
    LaterRun(w0, w, f.run);
    SyncLater(w0, w', f.hits);
  }

  lemma SyncLater(w0: World, w: World, hits: seq<Uri>)
    requires Later(w0, w)
    requires Answers(TableOf(w.st).log, w.st.entry.apriori, TableOf(w0.st).tag, hits)
    ensures ViewOf(TableOf(w0.st)) + Diff(TableOf(w.st).log, hits) == ViewOf(TableOf(w.st))
  {
    IssuedBefore(w0);
    assert TableInv(TableOf(w0.st)) && TableInv(TableOf(w.st));
    assert AboveApriori(TableOf(w.st).log, w.st.entry.apriori);
    SyncConverges(TableOf(w0.st), TableOf(w.st), w0.next, w0.clock, w.st.entry.apriori, hits);
  }

  lemma PullStep(w: World, view: View, anchor: Option<Uri>, fetches: seq<Fetch>)
    requires fetches != []
    requires forall e :: e in Page(fetches[0].hits, anchor, fetches[0].limit) ==>
      e in TableOf(Run(w, fetches[0].run).st).log
    ensures
      var f := fetches[0];
      var w', page := Run(w, f.run), Page(f.hits, anchor, f.limit);
      Pull(w, view, anchor, fetches) ==
      Pull(w', view + Diff(TableOf(w'.st).log, page), Resume(page, anchor), fetches[1..])
  {
  }

  lemma PullNothing(w: World, view: View, anchor: Option<Uri>)
    ensures Pull(w, view, anchor, []) == view && Final(w, []) == w
  {
  }

  lemma {:induction false} PullReaches(
      w0: World, w: World, seen: seq<Uri>, anchor: Option<Uri>, fetches: seq<Fetch>)
    requires Later(w0, w) && Reading(w0, w, seen, anchor)
    requires ValidFetches(w, TableOf(w0.st).tag, fetches) && Finished(w, anchor, fetches)
    ensures Pull(w, Copy(w0, w, seen), anchor, fetches) == ViewOf(TableOf(Final(w, fetches).st))
    decreases |fetches|
  {
    var f, view := fetches[0], Copy(w0, w, seen);
    var w', page := Run(w, f.run), Page(f.hits, anchor, f.limit);
    var log := TableOf(w'.st).log;
    ReadPage(w0, w, seen, anchor, f);
    PullStep(w, view, anchor, fetches);
    if |fetches| == 1 {
      LastPage(w0, w, seen, anchor, f);
      assert fetches[1..] == [];
      PullNothing(w', view + Diff(log, page), Resume(page, anchor));
    } else {
      LaterRun(w0, w, f.run);
      PullReaches(w0, w', seen + page, Resume(page, anchor), fetches[1..]);
    }
  }

  lemma LaterSelf(w: World)
    requires WorldInv(w)
    ensures Later(w, w) && Reading(w, w, [], None) && Copy(w, w, []) == ViewOf(TableOf(w.st))
  {
    hide WorldInv;
    hide Inv, TableOf;
    NothingMerged(ViewOf(TableOf(w.st)));
  }

  lemma NothingMerged(view: View)
    ensures view + map[] == view
  {
  }

  /**
    A client that pages through the log until there is no more, while other attempts write
    and crash in between, ends with the rows that are current at its last page.
   */
  lemma PagedSyncConverges(w: World, fetches: seq<Fetch>)
    requires WorldInv(w)
    requires ValidFetches(w, TableOf(w.st).tag, fetches) && Finished(w, None, fetches)
    ensures Pull(w, ViewOf(TableOf(w.st)), None, fetches) == ViewOf(TableOf(Final(w, fetches).st))
  {
    LaterSelf(w);
    PullReaches(w, w, [], None, fetches);
  }

  // ----- paging ends -----

  lemma {:induction false} LastOf(log: map<Uri, LogRow>, es: set<Uri>) returns (e: Uri)
    requires es != {} && es <= log.Keys
    ensures e in es && forall f :: f in es ==> log[f].seqv <= log[e].seqv
    decreases |es|
  {
    var some :| some in es;
    var rest := es - {some};
    assert es == rest + {some};
    if rest == {} {
      e := some;
    } else {
      e := LastOf(log, rest);
      if log[e].seqv < log[some].seqv { e := some; }
    }
  }

  /** Any log rows can be listed in order. */
  lemma {:induction false} Ascending(log: map<Uri, LogRow>, es: set<Uri>) returns (hits: seq<Uri>)
    requires es <= log.Keys
    requires forall e, f :: e in es && f in es && log[e].seqv == log[f].seqv ==> e == f
    ensures InOrder(log, hits, es)
    decreases |es|
  {
    hits := [];
    if es != {} {
      var e := LastOf(log, es);
      var front := Ascending(log, es - {e});
      hits := front + [e];
      forall i, j | 0 <= i < j < |hits| ensures log[hits[i]].seqv < log[hits[j]].seqv {
        assert hits[i] in front;
      }
    }
  }

  /** Every query has an answer. */
  lemma AnswerExists(log: map<Uri, LogRow>, apriori: nat, tag: Option<Uri>) returns (hits: seq<Uri>)
    requires SeqDistinct(Table(None, log, map[]))
    ensures Answers(log, apriori, tag, hits)
  {
    var v: Option<nat> := None;
    if tag.Some? {
      var es := set e | e in log && log[e].tag == tag.value;
      if es == {} {
        assert forall e :: e in log && log[e].tag == tag.value ==> e in es;
      } else {
        var e := LastOf(log, es);
        v := Some(log[e].seqv);
        assert forall f :: f in log && log[f].tag == tag.value ==> f in es;
      }
      assert IsSeqOf(log, tag.value, v);
    }
    hits := Ascending(log, Matches(log, apriori, v));
  }

  /** Every query has one answer only. */
  lemma AnswerIsUnique(log: map<Uri, LogRow>, apriori: nat, tag: Option<Uri>, a: seq<Uri>, b: seq<Uri>)
    requires Answers(log, apriori, tag, a) && Answers(log, apriori, tag, b)
    ensures a == b
  {
    var v: Option<nat> :|
      (if tag.Some? then IsSeqOf(log, tag.value, v) else v == None) && InOrder(log, a, Matches(log, apriori, v));
    var v': Option<nat> :|
      (if tag.Some? then IsSeqOf(log, tag.value, v') else v' == None) && InOrder(log, b, Matches(log, apriori, v'));
    if tag.Some? { OneSeqOf(log, tag.value, v, v'); }
    OrderIsUnique(log, a, b, Matches(log, apriori, v));
  }

  /** Nothing is written between the pages, and all have the same limit. */
  predicate Quiet(fetches: seq<Fetch>, limit: nat) {
    forall i :: 0 <= i < |fetches| ==> fetches[i].run == [] && fetches[i].limit == limit
  }

  lemma MorePages(seen: nat, pages: nat, limit: nat, total: nat)
    requires 0 < pages && 0 < limit && seen <= total
    ensures seen + pages * limit >= total
      <==> total <= seen + limit || (pages > 1 && seen + limit + (pages - 1) * limit >= total)
  {
    assert pages * limit == (pages - 1) * limit + limit;
  }

  /** A client that has seen `n` rows is done with so many pages just when these hold all the others. */
  lemma {:induction false} QuietFinishesIff(
      w: World, tag: Option<Uri>, hits: seq<Uri>, n: nat, fetches: seq<Fetch>, limit: nat)
    requires limit > 0 && n <= |hits| && Quiet(fetches, limit)
    requires Answers(TableOf(w.st).log, w.st.entry.apriori, tag, hits) && ValidFetches(w, tag, fetches)
    ensures Finished(w, Cursor(hits, n), fetches) <==> fetches != [] && n + |fetches| * limit >= |hits|
    decreases |fetches|
  {
    hide TableOf, Page, HasMore, Resume, Answers;
    if fetches != [] {
      var f := fetches[0];
      assert Run(w, f.run) == w;
      AnswerIsUnique(TableOf(w.st).log, w.st.entry.apriori, tag, hits, f.hits);
      AnswersDistinct(TableOf(w.st).log, w.st.entry.apriori, tag, hits);
      PageIs(hits, n, limit);
      MorePages(n, |fetches|, limit, |hits|);
      if |fetches| > 1 {
        var end := PageEnd(|hits|, n, limit);
        QuietFinishesIff(w, tag, hits, end, fetches[1..], limit);
        assert (|fetches| - 1) * limit >= 0;
      }
    }
  }

  lemma {:induction false} SameFetches(w: World, tag: Option<Uri>, f: Fetch, k: nat) returns (fetches: seq<Fetch>)
    requires f.run == [] && Answers(TableOf(w.st).log, w.st.entry.apriori, tag, f.hits)
    ensures |fetches| == k && Quiet(fetches, f.limit)
    ensures ValidFetches(w, tag, fetches) && Final(w, fetches) == w
  {
    hide TableOf, Answers;
    fetches := [];
    if k > 0 {
      var rest := SameFetches(w, tag, f, k - 1);
      fetches := [f] + rest;
      assert fetches[1..] == rest;
    }
  }

  /** The number of pages that `n` rows take: all are full but the last, and there is at least one. */
  function PagesFor(n: nat, limit: nat): (k: nat)
    requires limit > 0
    ensures k > 0 && k * limit >= n && (k > 1 ==> (k - 1) * limit < n)
  {
    if n == 0 then 1 else (n - 1) / limit + 1
  }

  /**
    Whatever was written since the client last had everything, it can catch up: once nothing is
    written any more, it is done after just as many pages as the new rows take, and then it has
    the current rows.
   */
  lemma PagingEnds(w: World, run: seq<Attempt>, limit: nat) returns (hits: seq<Uri>, fetches: seq<Fetch>)
    requires WorldInv(w) && ValidRun(w, run) && limit > 0
    ensures
      var w', tag := Run(w, run), TableOf(w.st).tag;
      && Answers(TableOf(w'.st).log, w'.st.entry.apriori, tag, hits)
      && |fetches| == PagesFor(|hits|, limit) && fetches[0].run == run && Quiet(fetches[1..], limit)
      && ValidFetches(w, tag, fetches) && Finished(w, None, fetches) && Final(w, fetches) == w'
      && Pull(w, ViewOf(TableOf(w.st)), None, fetches) == ViewOf(TableOf(w'.st))
  {
    hide TableOf, Answers, Inv, Pull;
    var w', tag := Run(w, run), TableOf(w.st).tag;
    RunGrows(w, run);
    RecoveredDistinct(w');
    hits := AnswerExists(TableOf(w'.st).log, w'.st.entry.apriori, tag);
    var quiet := SameFetches(w', tag, Fetch([], hits, limit), PagesFor(|hits|, limit));
    QuietFinishesIff(w', tag, hits, 0, quiet, limit);
    fetches := [quiet[0].(run := run)] + quiet[1..];
    assert fetches[1..] == quiet[1..];
    PagedSyncConverges(w, fetches);
  }

  lemma RecoveredDistinct(w: World)
    requires WorldInv(w)
    ensures SeqDistinct(Table(None, TableOf(w.st).log, map[]))
  {
    assert SeqDistinct(TableOf(w.st));
  }

  // ----- polling for change sets -----

  /** The later of the two starting points of a poll; None when there is neither. */
  function Unified(fromTag: Option<nat>, sequenceValue: Option<nat>): Option<nat> {
    if sequenceValue.Some? && (fromTag.None? || fromTag.value < sequenceValue.value) then sequenceValue
    else fromTag
  }

  /** A poll from two starting points finds what lies after both of them. */
  lemma UnifiedIsLater(
      log: map<Uri, LogRow>, apriori: nat, fromTag: Option<nat>, sequenceValue: Option<nat>, e: Uri)
    requires e in log && AboveApriori(log, apriori)
    ensures e in Matches(log, apriori, Unified(fromTag, sequenceValue)) <==>
      && (fromTag.Some? ==> fromTag.value < log[e].seqv)
      && (sequenceValue.Some? ==> sequenceValue.value < log[e].seqv)
  {
    assert apriori <= log[e].seqv;
  }

  /** The log row comes after all log rows of the change set. */
  ghost predicate AfterTag(log: map<Uri, LogRow>, tag: Uri, e: Uri)
    requires e in log
  {
    forall f :: f in log && log[f].tag == tag ==> log[f].seqv < log[e].seqv
  }

  lemma SeqOfSplits(log: map<Uri, LogRow>, tag: Uri, v: Option<nat>, e: Uri)
    requires e in log && IsSeqOf(log, tag, v)
    ensures AfterTag(log, tag, e) <==> (v.Some? ==> v.value < log[e].seqv)
  {
    if v.Some? {
      var f :| f in log && log[f].tag == tag && log[f].seqv == v.value;
    }
  }

  /** A query lists, oldest first, the log rows after all of the given change set, each once. */
  lemma AnswersAre(log: map<Uri, LogRow>, apriori: nat, tag: Option<Uri>, hits: seq<Uri>)
    requires AboveApriori(log, apriori) && Answers(log, apriori, tag, hits)
    ensures forall e :: e in hits <==> e in log && (tag.Some? ==> AfterTag(log, tag.value, e))
    ensures forall i, j :: 0 <= i < j < |hits| ==>
      hits[i] in log && hits[j] in log && log[hits[i]].seqv < log[hits[j]].seqv
  {
    AnswersDistinct(log, apriori, tag, hits);
    var v: Option<nat> :|
      (if tag.Some? then IsSeqOf(log, tag.value, v) else v == None) && InOrder(log, hits, Matches(log, apriori, v));
    forall e ensures e in hits <==> e in log && (tag.Some? ==> AfterTag(log, tag.value, e)) {
      if e in log {
        UnifiedIsLater(log, apriori, v, None, e);
        if tag.Some? { SeqOfSplits(log, tag.value, v, e); }
      }
    }
  }

  function TagsOf(log: map<Uri, LogRow>, es: set<Uri>): set<Uri> {
    set e | e in es && e in log :: log[e].tag
  }

  /** The change sets of the run that were committed and wrote at least one log row. */
  function CommittedTags(w: World, run: seq<Attempt>): set<Uri>
    decreases |run|
  {
    if run == [] then {}
    else
      (if Commits(w, run[0]) && run[0].plan.value.logs != [] then {run[0].plan.value.tag} else {})
      + CommittedTags(Step(w, run[0]), run[1..])
  }

  /** Log rows of `u` that are not in `t`, by tag. */
  function NewTags(t: Table, u: Table): set<Uri> {
    set e | e in u.log && e !in t.log :: u.log[e].tag
  }

  lemma NewTagsOfCommit(t: Table, p: Plan)
    requires forall e :: e in MapOf(p.logs) ==> e !in t.log && MapOf(p.logs)[e].tag == p.tag
    ensures NewTags(t, Commit(t, p.tag, MapOf(p.logs), MapOf(p.rows))) == if p.logs != [] then {p.tag} else {}
  {
    var logs := MapOf(p.logs);
    var u := Commit(t, p.tag, logs, MapOf(p.rows));
    if p.logs != [] {
      var e := p.logs[|p.logs| - 1].0;
      assert e in logs && e in u.log && e !in t.log && u.log[e].tag == p.tag;
    } else {
      assert logs == map[];
    }
  }

  lemma PlanIsNew(w: World, a: Attempt)
    requires WorldInv(w) && ValidAttempt(w, a) && a.plan.Some?
    ensures forall e :: e in MapOf(a.plan.value.logs) ==>
      e !in TableOf(w.st).log && MapOf(a.plan.value.logs)[e].tag == a.plan.value.tag
  {
    PlanStamped(Recovered(w.st), w.next, w.clock, a.plan.value, MapOf(a.plan.value.logs));
    assert forall e :: e in w.st.log ==> e < w.next;
    assert Fresh(w.next, w.clock, a.plan.value.tag, MapOf(a.plan.value.logs));
  }

  lemma NewTagsOfStep(w: World, a: Attempt)
    requires WorldInv(w) && ValidAttempt(w, a)
    ensures NewTags(TableOf(w.st), TableOf(Step(w, a).st)) ==
      if Commits(w, a) && a.plan.value.logs != [] then {a.plan.value.tag} else {}
  {
    AttemptIsAtomic(w, a);
    if Commits(w, a) {
      PlanIsNew(w, a);
      NewTagsOfCommit(TableOf(w.st), a.plan.value);
    }
  }

  lemma NewTagsAdd(t: Table, u: Table, v: Table, next: nat, clock: nat, next': nat, clock': nat)
    requires Grew(t, u, next, clock) && Grew(u, v, next', clock')
    ensures NewTags(t, v) == NewTags(t, u) + NewTags(u, v)
  {
    forall x ensures x in NewTags(t, v) <==> x in NewTags(t, u) || x in NewTags(u, v) {
      if x in NewTags(t, u) {
        var e :| e in u.log && e !in t.log && u.log[e].tag == x;
        assert e in v.log && v.log[e].tag == x;
      }
    }
  }

  lemma {:induction false} NewTagsOfRun(w: World, run: seq<Attempt>)
    requires WorldInv(w) && ValidRun(w, run)
    ensures NewTags(TableOf(w.st), TableOf(Run(w, run).st)) == CommittedTags(w, run)
    decreases |run|
  {
    if run != [] {
      var w' := Step(w, run[0]);
      AttemptIsAtomic(w, run[0]);
      AttemptGrows(w, run[0]);
      NewTagsOfStep(w, run[0]);
      RunGrows(w', run[1..]);
      NewTagsOfRun(w', run[1..]);
      NewTagsAdd(TableOf(w.st), TableOf(w'.st), TableOf(Run(w, run).st), w.next, w.clock, w'.next, w'.clock);
    }
  }

  lemma SinceTags(t: Table, u: Table, next: nat, clock: nat, value: nat)
    requires Grew(t, u, next, clock) && value < clock
    requires forall e :: e in t.log ==> t.log[e].seqv < value
    ensures TagsOf(u.log, Since(u.log, value)) == NewTags(t, u)
  {
    assert Since(u.log, value) == u.log.Keys - t.log.Keys;
  }

  lemma OlderTagIsBelow(t: Table, u: Table, next: nat, clock: nat, value: nat, older: Uri, fromTag: Option<nat>)
    requires Grew(t, u, next, clock) && older < next && IsSeqOf(u.log, older, fromTag)
    requires forall e :: e in t.log ==> t.log[e].seqv < value
    ensures Unified(fromTag, Some(value)) == Some(value)
  {
    SeqOfKept(t, u, next, clock, older, fromTag);
  }

  /**
    A poll that returned `value` leaves the world `w`.  Polling again with it, with or
    without an older tag, gives exactly the change sets committed since then.
   */
  lemma PollingMissesNothing(
      w: World, run: seq<Attempt>, value: nat, older: Option<Uri>, fromTag: Option<nat>)
    requires WorldInv(w) && ValidRun(w, run)
    requires value < w.clock && forall e :: e in TableOf(w.st).log ==> TableOf(w.st).log[e].seqv < value
    requires older.Some? ==> older.value < w.next
    requires if older.Some? then IsSeqOf(TableOf(Run(w, run).st).log, older.value, fromTag) else fromTag == None
    ensures
      var log, apriori := TableOf(Run(w, run).st).log, w.st.entry.apriori;
      && Unified(fromTag, Some(value)) == Some(value)
      && TagsOf(log, Matches(log, apriori, Unified(fromTag, Some(value)))) == CommittedTags(w, run)
  {
    hide Inv, TagsOf, CommittedTags, IsSeqOf;
    var t, u := TableOf(w.st), TableOf(Run(w, run).st);
    RunGrows(w, run);
    NewTagsOfRun(w, run);
    if older.Some? {
      OlderTagIsBelow(t, u, w.next, w.clock, value, older.value, fromTag);
    }
    SinceTags(t, u, w.next, w.clock, value);
  }
}
