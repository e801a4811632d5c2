/** The deletion of all attachments of one parent, stopped after any number of its writes. */
module BlobDeletion {
  import Journal
  import opened Wrappers
  import opened BlobStore
  import opened BlobSteps
  import opened BlobUploads
  import opened BlobAttachments

  /** A content with a hash loses its parts as well; the record goes first. */
  ghost function DeleteOnePuts(s: State, u: Uri): seq<Put> {
    [DropContent(u)] + if u in s.contents && s.contents[u].hash.Some? then DeletePuts(s, PartsOf(s, u)) else []
  }

  /** The last record of `list` goes first. */
  ghost function DeleteAllPuts(s: State, list: seq<Uri>): seq<Put>
    decreases |list|
  {
    if list == [] then []
    else DeleteOnePuts(s, list[|list| - 1]) + DeleteAllPuts(s, list[..|list| - 1])
  }

  /** The references of a complete content among `list`. */
  ghost predicate Gone(s: State, list: seq<Uri>, r: Uri) {
    && r in s.refs && s.refs[r].dom in list
    && s.refs[r].dom in s.contents && s.contents[s.refs[r].dom].hash.Some?
  }

  ghost function GoneRefs(s: State, list: seq<Uri>): set<Uri> {
    set r | r in s.refs && Gone(s, list, r)
  }

  ghost function GoneBlobs(s: State, list: seq<Uri>): set<Uri> {
    set r | r in s.refs && Gone(s, list, r) :: s.refs[r].sub
  }

  // ----- lists of deletions -----

  predicate DropsOnly(ps: seq<Put>) {
    forall p :: p in ps ==> p.DropContent? || p.DropRef? || p.DropBlob?
  }

  function ContentsIn(ps: seq<Put>): set<Uri> {
    set p | p in ps && p.DropContent? :: p.u
  }

  function RefsIn(ps: seq<Put>): set<Uri> {
    set p | p in ps && p.DropRef? :: p.r
  }

  function BlobsIn(ps: seq<Put>): set<Uri> {
    set p | p in ps && p.DropBlob? :: p.b
  }

  function Without(s: State, ps: seq<Put>): State {
    State(s.contents - ContentsIn(ps), s.refs - RefsIn(ps), s.blobs - BlobsIn(ps))
  }

  /** In whatever order deletions are carried out, the same is left. */
  lemma {:induction false} DropsLeave(s: State, ps: seq<Put>)
    requires DropsOnly(ps)
    ensures Replay(s, ps) == Without(s, ps)
    decreases |ps|
  {
    if ps == [] {
      assert Without(s, ps) == s;
    } else {
      assert ps[0] in ps;
      DropsLeave(Apply(s, ps[0]), ps[1..]);
      DropsSplit(s, ps);
    }
  }

  lemma DropsSplit(s: State, ps: seq<Put>)
    requires DropsOnly(ps) && ps != []
    ensures Without(Apply(s, ps[0]), ps[1..]) == Without(s, ps)
  {
    var p, rest := ps[0], ps[1..];
    assert ps == [p] + rest;
    assert ContentsIn(ps) == ContentsIn([p]) + ContentsIn(rest);
    assert RefsIn(ps) == RefsIn([p]) + RefsIn(rest);
    assert BlobsIn(ps) == BlobsIn([p]) + BlobsIn(rest);
    assert Apply(s, p) == Without(s, [p]) by { DropFirst(s, p); }
    assert s.contents - ContentsIn([p]) - ContentsIn(rest) == s.contents - ContentsIn(ps);
    assert s.refs - RefsIn([p]) - RefsIn(rest) == s.refs - RefsIn(ps);
    assert s.blobs - BlobsIn([p]) - BlobsIn(rest) == s.blobs - BlobsIn(ps);
  }

  lemma DropFirst(s: State, p: Put)
    requires p.DropContent? || p.DropRef? || p.DropBlob?
    ensures Apply(s, p) == Without(s, [p])
  {
    assert p in [p];
    assert ContentsIn([p]) == if p.DropContent? then {p.u} else {};
    assert RefsIn([p]) == if p.DropRef? then {p.r} else {};
    assert BlobsIn([p]) == if p.DropBlob? then {p.b} else {};
  }

  lemma DropsJoin(a: seq<Put>, b: seq<Put>)
    ensures ContentsIn(a + b) == ContentsIn(a) + ContentsIn(b)
    ensures RefsIn(a + b) == RefsIn(a) + RefsIn(b)
    ensures BlobsIn(a + b) == BlobsIn(a) + BlobsIn(b)
  {
  }

  lemma {:induction false} PartDrops(s: State, parts: seq<Uri>)
    requires Readable(s, parts)
    ensures DropsOnly(DeletePuts(s, parts)) && ContentsIn(DeletePuts(s, parts)) == {}
    ensures RefsIn(DeletePuts(s, parts)) == set r | r in parts
    ensures BlobsIn(DeletePuts(s, parts)) == set r | r in parts :: s.refs[r].sub
    decreases |parts|
  {
    if parts != [] {
      var n := |parts| - 1;
      var r := parts[n];
      PartDrops(s, parts[..n]);
      hide ContentsIn, RefsIn, BlobsIn;
      PairDrops(r, s.refs[r].sub, DeletePuts(s, parts[..n]));
      assert parts == parts[..n] + [r];
      assert (set q | q in parts) == (set q | q in parts[..n]) + {r};
      assert (set q | q in parts :: s.refs[q].sub) == (set q | q in parts[..n] :: s.refs[q].sub) + {s.refs[r].sub};
    }
  }

  lemma PairDrops(r: Uri, b: Uri, rest: seq<Put>)
    ensures DropsOnly(rest) ==> DropsOnly([DropRef(r), DropBlob(b)] + rest)
    ensures ContentsIn([DropRef(r), DropBlob(b)] + rest) == ContentsIn(rest)
    ensures RefsIn([DropRef(r), DropBlob(b)] + rest) == RefsIn(rest) + {r}
    ensures BlobsIn([DropRef(r), DropBlob(b)] + rest) == BlobsIn(rest) + {b}
  {
    var first := [DropRef(r), DropBlob(b)];
    DropsJoin(first, rest);
    assert first[0] in first && first[1] in first;
    assert RefsIn(first) == {r} && BlobsIn(first) == {b} && ContentsIn(first) == {};
  }

  // ----- one content, then all of them -----

  lemma GoneOne(s: State, u: Uri, parts: seq<Uri>)
    requires u in s.contents && Lists(s, u, parts) && Readable(s, parts)
    ensures s.contents[u].hash.Some? ==>
      && GoneRefs(s, [u]) == (set r | r in parts)
      && GoneBlobs(s, [u]) == set r | r in parts :: s.refs[r].sub
    ensures s.contents[u].hash.None? ==> GoneRefs(s, [u]) == {} && GoneBlobs(s, [u]) == {}
  {
    assert forall r :: r in s.refs ==> (Gone(s, [u], r) <==> r in parts && s.contents[u].hash.Some?);
  }

  lemma OneDrops(md5: Digest, s: State, u: Uri)
    requires Inv(md5, s) && u in s.contents
    ensures
      var ps := DeleteOnePuts(s, u);
      && DropsOnly(ps) && ContentsIn(ps) == {u}
      && RefsIn(ps) == GoneRefs(s, [u]) && BlobsIn(ps) == GoneBlobs(s, [u])
  {
    hide PartsOf, GoneRefs, GoneBlobs;
    hide ContentsIn, RefsIn, BlobsIn;
    var rest := if s.contents[u].hash.Some? then DeletePuts(s, PartsOf(s, u)) else [];
    RecordDrops(u, rest);
    NothingDrops();
    var parts :| PartsOk(md5, s, u, parts);
    hide Inv, Resolves, Lists;
    PartsOfIs(s, u, parts);
    PartDrops(s, parts);
    GoneOne(s, u, parts);
  }

  lemma RecordDrops(u: Uri, rest: seq<Put>)
    ensures DropsOnly(rest) ==> DropsOnly([DropContent(u)] + rest)
    ensures ContentsIn([DropContent(u)] + rest) == {u} + ContentsIn(rest)
    ensures RefsIn([DropContent(u)] + rest) == RefsIn(rest) && BlobsIn([DropContent(u)] + rest) == BlobsIn(rest)
  {
    var first := [DropContent(u)];
    assert first[0] in first;
    DropsJoin(first, rest);
    assert ContentsIn(first) == {u} && RefsIn(first) == {} && BlobsIn(first) == {};
  }

  lemma NothingDrops()
    ensures DropsOnly([]) && ContentsIn([]) == {} && RefsIn([]) == {} && BlobsIn([]) == {}
  {
  }

  lemma GoneSplit(s: State, front: seq<Uri>, u: Uri)
    ensures GoneRefs(s, front + [u]) == GoneRefs(s, front) + GoneRefs(s, [u])
    ensures GoneBlobs(s, front + [u]) == GoneBlobs(s, front) + GoneBlobs(s, [u])
    ensures (set v | v in front + [u]) == (set v | v in front) + {u}
  {
    assert forall r :: Gone(s, front + [u], r) <==> Gone(s, front, r) || Gone(s, [u], r);
  }

  lemma {:induction false} AllDrops(md5: Digest, s: State, list: seq<Uri>)
    requires Inv(md5, s) && forall u :: u in list ==> u in s.contents
    ensures
      var ps := DeleteAllPuts(s, list);
      && DropsOnly(ps) && ContentsIn(ps) == (set u | u in list)
      && RefsIn(ps) == GoneRefs(s, list) && BlobsIn(ps) == GoneBlobs(s, list)
    decreases |list|
  {
    hide Inv, DeleteOnePuts, Gone;
    if list == [] {
      GoneNone(s);
    } else {
      hide GoneRefs, GoneBlobs;
      var n := |list| - 1;
      var u := list[n];
      OneDrops(md5, s, u);
      AllDrops(md5, s, list[..n]);
      DropsJoin(DeleteOnePuts(s, u), DeleteAllPuts(s, list[..n]));
      assert list == list[..n] + [u];
      GoneSplit(s, list[..n], u);
    }
  }

  lemma GoneNone(s: State)
    ensures GoneRefs(s, []) == {} && GoneBlobs(s, []) == {}
  {
  }

  /** What a finished deletion leaves: the records are gone, and of the complete ones all parts. */
  lemma DeletionLeaves(md5: Digest, s: State, list: seq<Uri>)
    requires Inv(md5, s) && forall u :: u in list ==> u in s.contents
    ensures Replay(s, DeleteAllPuts(s, list)) ==
      State(s.contents - (set u | u in list), s.refs - GoneRefs(s, list), s.blobs - GoneBlobs(s, list))
  {
    AllDrops(md5, s, list);
    DropsLeave(s, DeleteAllPuts(s, list));
  }

  /**
    A finished deletion leaves no reference of the set just when every record without a hash
    had none to begin with.
   */
  lemma NothingRemainsIff(md5: Digest, s: State, parent: Uri)
    requires AllOk(md5, s)
    ensures
      var list := ListOf(s, parent);
      var s' := Replay(s, DeleteAllPuts(s, list));
      && (forall u :: u in s'.contents ==> s'.contents[u].parent != parent)
      && (forall r :: Gone(s, list, r) ==> s.refs[r].sub !in s'.blobs)
      && ((forall r :: r in s'.refs ==> s'.refs[r].dom !in list)
          <==> (forall r :: r in s.refs && s.refs[r].dom in list ==> s.contents[s.refs[r].dom].hash.Some?))
  {
    var list := ListOf(s, parent);
    assert SetOk(s, parent);
    DeletionLeaves(md5, s, list);
    var s' := Replay(s, DeleteAllPuts(s, list));
    forall r | r in s.refs && s.refs[r].dom in list && s.contents[s.refs[r].dom].hash.None?
      ensures r in s'.refs
    {
    }
  }

  // ----- stopped anywhere -----

  /** The records `list` and their parts are still as they were in `s`. */
  ghost predicate Intact(s: State, t: State, list: seq<Uri>) {
    forall u :: u in list ==> IntactOne(s, t, u)
  }

  ghost predicate IntactOne(s: State, t: State, u: Uri) {
    && u in s.contents && u in t.contents && s.contents[u] == t.contents[u]
    && Lists(t, u, PartsOf(s, u)) && SameRefs(s, t, PartsOf(s, u))
  }

  predicate SameRefs(s: State, t: State, parts: seq<Uri>) {
    forall r :: r in parts ==> r in s.refs && r in t.refs && s.refs[r] == t.refs[r]
  }

  lemma IntactAtFirst(md5: Digest, s: State, u: Uri)
    requires Inv(md5, s) && u in s.contents
    ensures IntactOne(s, s, u)
  {
    var l :| PartsOk(md5, s, u, l);
    PartsOfIs(s, u, l);
  }

  lemma IntactStill(md5: Digest, s: State, t: State, t': State, u: Uri, v: Uri)
    requires IntactOne(s, t, v) && Inv(md5, t) && Inv(md5, t') && OthersSame(t, t', u) && v != u
    ensures IntactOne(s, t', v)
  {
    var l :| PartsOk(md5, t, v, l);
    OneListing(t, v, l, PartsOf(s, v));
    OtherKept(md5, t, t', u, v, l);
    forall r | r in l ensures r in t'.refs && t'.refs[r] == t.refs[r] {
      assert SamePart(t, t', r);
    }
  }

  /** The writes that delete one content, stopped anywhere. */
  lemma OneStops(md5: Digest, s: State, t: State, u: Uri, next: nat, k: nat, t': State)
    requires Inv(md5, t) && Used(t, next) && IntactOne(s, t, u) && k > 0
    requires t' == Crash(t, DeleteOnePuts(s, u), k)
    ensures Inv(md5, t') && Used(t', next) && OthersSame(t, t', u) && t'.contents == t.contents - {u}
  {
    hide Inv, Used, OthersSame, Journal.Crash, PartsOf;
    var parts := PartsOf(s, u);
    var rest := if s.contents[u].hash.Some? then DeletePuts(s, parts) else [];
    var t1 := Apply(t, DropContent(u));
    StepDropContent(md5, t, u, parts);
    RecordUsed(t, u, next);
    DropFirstCrash(t, u, rest, k);
    DeletePutsSame(s, t1, parts);
    SameReadable(t1, s, parts);
    if s.contents[u].hash.Some? {
      hide DeletePuts;
      var left := DropParts(md5, t, t1, u, None, parts, next, k - 1, t');
    }
  }

  lemma RecordUsed(t: State, u: Uri, next: nat)
    requires Used(t, next)
    ensures Used(Apply(t, DropContent(u)), next)
  {
  }

  lemma SameReadable(t: State, s: State, parts: seq<Uri>)
    requires SameRefs(s, t, parts)
    ensures Resolves(t) ==> Readable(t, parts)
  {
  }

  lemma DropFirstCrash(t: State, u: Uri, rest: seq<Put>, k: nat)
    requires k > 0
    ensures Crash(t, [DropContent(u)] + rest, k) == Crash(Apply(t, DropContent(u)), rest, k - 1)
    ensures Crash(Apply(t, DropContent(u)), [], k - 1) == Apply(t, DropContent(u))
  {
    assert ([DropContent(u)] + rest)[1..] == rest;
  }

  /** `list` are records of `t`, each once. */
  ghost predicate Records(t: State, list: seq<Uri>) {
    && (forall u :: u in list ==> u in t.contents)
    && (forall i, j :: 0 <= i < j < |list| ==> list[i] != list[j])
  }

  ghost predicate SetsOk(t: State) {
    forall p :: SetOk(t, p)
  }

  lemma SetShrinks(t: State, t': State, parent: Uri, list: seq<Uri>)
    requires Attached(t, parent, list) && list != []
    requires t'.contents == t.contents - {list[|list| - 1]}
    requires SetsOk(t)
    ensures Attached(t', parent, list[..|list| - 1]) && SetsOk(t')
  {
    var n := |list| - 1;
    forall v | v in t'.contents && t'.contents[v].parent == parent ensures v in list[..n] {
      var i :| 0 <= i < |list| && list[i] == v;
      assert list[..n][i] == v;
    }
    forall p ensures SetOk(t', p) {
      if p == parent {
        assert Attached(t', p, list[..n]);
      } else {
        assert Attached(t', p, ListOf(t, p));
      }
    }
  }

  /**
    The deletion of some records, the last of the list first, stopped after any number of its
    writes: no reference is left without its blob and no complete record without its parts; and
    if the list is an attachment set, the ordinals that are left are 1, 2, and so on.
   */
  lemma {:induction false} DeletionStopsSafely(
      md5: Digest, s: State, t: State, parent: Uri, list: seq<Uri>, next: nat, k: nat, t': State)
    requires Inv(md5, t) && Used(t, next) && Records(t, list) && Intact(s, t, list)
    requires t' == Crash(t, DeleteAllPuts(s, list), k)
    ensures Inv(md5, t')
    ensures Attached(t, parent, list) && SetsOk(t) ==> SetsOk(t')
    decreases |list|
  {
    hide Inv, Used, OthersSame, DeleteOnePuts, SetsOk, IntactOne, Attached;
    if list != [] && k > 0 {
      var n := |list| - 1;
      var u, front := list[n], list[..n];
      var one, rest := DeleteOnePuts(s, u), DeleteAllPuts(s, front);
      Journal.CrashConcat(Apply, t, one, rest, k);
      assert IntactOne(s, t, u);
      var t1 := Crash(t, one, k);
      OneStops(md5, s, t, u, next, k, t1);
      if Attached(t, parent, list) && SetsOk(t) { SetShrinks(t, t1, parent, list); }
      if k >= |one| {
        Journal.CrashAll(Apply, t, one, k);
        forall v | v in front ensures v in t1.contents && IntactOne(s, t1, v) {
          Distinct(t, list, v);
          IntactStill(md5, s, t, t1, u, v);
        }
        DeletionStopsSafely(md5, s, t1, parent, front, next, k - |one|, t');
      }
    }
  }

  lemma Distinct(t: State, list: seq<Uri>, v: Uri)
    requires Records(t, list) && list != [] && v in list[..|list| - 1]
    ensures v != list[|list| - 1] && v in list
  {
    var i :| 0 <= i < |list| - 1 && list[..|list| - 1][i] == v;
  }

  lemma DeleteAllStopsSafely(md5: Digest, s: State, parent: Uri, next: nat, k: nat)
    requires AllOk(md5, s) && Used(s, next)
    ensures AllOk(md5, Crash(s, DeleteAllPuts(s, ListOf(s, parent)), k))
  {
    var list := ListOf(s, parent);
    assert SetOk(s, parent) && SetsOk(s);
    forall u | u in list ensures IntactOne(s, s, u) {
      IntactAtFirst(md5, s, u);
    }
    DeletionStopsSafely(md5, s, s, parent, list, next, k, Crash(s, DeleteAllPuts(s, list), k));
  }

  // ----- a datastore that goes on after a failed deletion -----

  /** The deletions that take place when those in `failed` fail and the others are still tried. */
  function Carried(ps: seq<Put>, failed: set<Put>): seq<Put> {
    if ps == [] then [] else (if ps[0] in failed then [] else [ps[0]]) + Carried(ps[1..], failed)
  }

  lemma {:induction false} CarriedAre(ps: seq<Put>, failed: set<Put>, p: Put)
    ensures p in Carried(ps, failed) <==> p in ps && p !in failed
  {
    if ps != [] {
      CarriedAre(ps[1..], failed, p);
      assert ps == [ps[0]] + ps[1..];
    }
  }

  lemma CarriedLeaves(s: State, ps: seq<Put>, failed: set<Put>)
    requires DropsOnly(ps)
    ensures DropsOnly(Carried(ps, failed))
    ensures Replay(s, Carried(ps, failed)) == Without(s, Carried(ps, failed))
    ensures forall r :: r in RefsIn(Carried(ps, failed)) <==> r in RefsIn(ps) && DropRef(r) !in failed
    ensures forall b :: b in BlobsIn(Carried(ps, failed)) <==> b in BlobsIn(ps) && DropBlob(b) !in failed
  {
    var qs := Carried(ps, failed);
    forall p ensures p in qs <==> p in ps && p !in failed { CarriedAre(ps, failed, p); }
    DropsLeave(s, qs);
    forall r ensures r in RefsIn(qs) <==> DropRef(r) in qs { InRefs(qs, r); }
    forall r ensures r in RefsIn(ps) <==> DropRef(r) in ps { InRefs(ps, r); }
    forall b ensures b in BlobsIn(qs) <==> DropBlob(b) in qs { InBlobs(qs, b); }
    forall b ensures b in BlobsIn(ps) <==> DropBlob(b) in ps { InBlobs(ps, b); }
  }

  lemma InRefs(ps: seq<Put>, r: Uri)
    ensures r in RefsIn(ps) <==> DropRef(r) in ps
  {
    if DropRef(r) in ps { assert DropRef(r).r in RefsIn(ps); }
  }

  lemma InBlobs(ps: seq<Put>, b: Uri)
    ensures b in BlobsIn(ps) <==> DropBlob(b) in ps
  {
    if DropBlob(b) in ps { assert DropBlob(b).b in BlobsIn(ps); }
  }

  /**
    The datastore deletes the whole list in one call and goes on after a failure, so the order
    of the list does not protect the references: after that call every reference has its blob
    just when each failed deletion of a reference is matched by a failed one of its blob.
   */
  lemma FailuresLeaveReferencesIff(md5: Digest, s: State, parent: Uri, failed: set<Put>)
    requires AllOk(md5, s)
    ensures
      var list := ListOf(s, parent);
      var s' := Replay(s, Carried(DeleteAllPuts(s, list), failed));
      (forall r :: r in s'.refs ==> s'.refs[r].sub in s'.blobs)
      <==> (forall r :: Gone(s, list, r) && DropRef(r) in failed ==> DropBlob(s.refs[r].sub) in failed)
  {
    hide DeleteAllPuts, Carried, RefsIn, BlobsIn;
    var list := ListOf(s, parent);
    assert SetOk(s, parent);
    var ps := DeleteAllPuts(s, list);
    AllDrops(md5, s, list);
    CarriedLeaves(s, ps, failed);
    var s' := Replay(s, Carried(ps, failed));
    forall r | r in s.refs ensures s.refs[r].sub in GoneBlobs(s, list) <==> Gone(s, list, r) {
      GoneBlob(s, list, r);
    }
    forall r | Gone(s, list, r) ensures r in s'.refs <==> DropRef(r) in failed {
      assert r in GoneRefs(s, list);
    }
  }

  lemma GoneBlob(s: State, list: seq<Uri>, r: Uri)
    requires Resolves(s) && r in s.refs
    ensures s.refs[r].sub in GoneBlobs(s, list) <==> Gone(s, list, r)
  {
  }

  /** Deleting one by one afterwards leaves what the one call should have left. */
  lemma FallbackFinishes(s: State, ps: seq<Put>, failed: set<Put>)
    requires DropsOnly(ps)
    ensures Replay(Replay(s, Carried(ps, failed)), ps) == Replay(s, ps)
  {
    hide Carried;
    var qs := Carried(ps, failed);
    CarriedLeaves(s, ps, failed);
    DropsLeave(Without(s, qs), ps);
    DropsLeave(s, ps);
    forall p ensures p in qs ==> p in ps { CarriedAre(ps, failed, p); }
    assert ContentsIn(qs) <= ContentsIn(ps);
    assert s.contents - ContentsIn(qs) - ContentsIn(ps) == s.contents - ContentsIn(ps);
    assert s.refs - RefsIn(qs) - RefsIn(ps) == s.refs - RefsIn(ps);
    assert s.blobs - BlobsIn(qs) - BlobsIn(ps) == s.blobs - BlobsIn(ps);
  }

  /** One complete content of one part: its record 0, its blob 1 and the reference 2. */
  function OnePart(md5: Digest): State {
    State(map[0 := Content(0, 1, Some("a"), Some("b"), Some(1), Some(md5([1])))], map[2 := Ref(0, 1, 1)], map[1 := [1]])
  }

  lemma OnePartInv(md5: Digest)
    ensures Inv(md5, OnePart(md5))
  {
    var s := OnePart(md5);
    assert [2][..0] == [];
    assert Joined(s, [2]) == [1];
    assert PartsOk(md5, s, 0, [2]);
  }

  lemma OnePartOk(md5: Digest)
    ensures AllOk(md5, OnePart(md5)) && Inv(md5, OnePart(md5))
    ensures ListOf(OnePart(md5), 0) == [0] && Used(OnePart(md5), 3)
  {
    hide Inv;
    var s := OnePart(md5);
    OnePartInv(md5);
    assert Attached(s, 0, [0]);
    ListOfIs(s, 0, [0]);
    forall p ensures SetOk(s, p) {
      if p != 0 { assert Attached(s, p, []); }
    }
  }

  /** Only the deletion of the reference fails: it is left, and its blob is gone. */
  lemma ReferenceWithoutBlob(md5: Digest)
    ensures
      var s := OnePart(md5);
      var t := Replay(s, Carried(DeleteAllPuts(s, ListOf(s, 0)), {DropRef(2)}));
      AllOk(md5, s) && 2 in t.refs && t.refs[2].sub == 1 && 1 !in t.blobs
  {
    hide AllOk, Inv, Carried, DeleteAllPuts, ListOf, Journal.Replay;
    var s := OnePart(md5);
    OnePartOk(md5);
    var ps := DeleteAllPuts(s, [0]);
    AllDrops(md5, s, [0]);
    CarriedLeaves(s, ps, {DropRef(2)});
    assert Gone(s, [0], 2);
    assert 2 in GoneRefs(s, [0]);
    assert 1 in GoneBlobs(s, [0]);
  }

  /** Stopped after the record, the deletion leaves a part that a second one does not find. */
  lemma PartIsStranded(md5: Digest)
    ensures
      var s := OnePart(md5);
      var t := Crash(s, DeleteAllPuts(s, ListOf(s, 0)), 1);
      var again := Replay(t, DeleteAllPuts(t, ListOf(t, 0)));
      && AllOk(md5, s) && ListOf(t, 0) == []
      && 2 in again.refs && 2 !in Replay(s, DeleteAllPuts(s, ListOf(s, 0))).refs
  {
    hide AllOk, Inv, DeleteAllPuts, DeleteOnePuts, PartsOf, GoneBlobs, ListOf, Journal.Replay, Journal.Crash;
    var s := OnePart(md5);
    OnePartOk(md5);
    FirstIsRecord(s);
    var t := Crash(s, DeleteAllPuts(s, [0]), 1);
    assert t.contents == map[] && t.refs == s.refs;
    assert Attached(t, 0, []);
    ListOfIs(t, 0, []);
    NoneToDelete(t);
    DeletionLeaves(md5, s, [0]);
    assert Gone(s, [0], 2);
    assert 2 in GoneRefs(s, [0]);
  }

  lemma FirstIsRecord(s: State)
    ensures Crash(s, DeleteAllPuts(s, [0]), 1) == Apply(s, DropContent(0))
  {
    hide DeletePuts, PartsOf, Journal.Crash;
    var ps := DeleteAllPuts(s, [0]);
    assert ps[0] == DropContent(0);
    Journal.First(Apply, s, ps, 1);
    Journal.Nothing(Apply, Apply(s, ps[0]), ps[1..], 0);
  }

  lemma NoneToDelete(s: State)
    ensures Replay(s, DeleteAllPuts(s, [])) == s
  {
  }

  // ----- a deletion that is given up half-way -----

  /** Each blob is dropped right after its reference, and a reference that is dropped is followed by its blob. */
  ghost predicate Paired(s: State, ps: seq<Put>) {
    && (forall n :: 0 <= n < |ps| && ps[n].DropBlob? ==>
          n > 0 && ps[n - 1].DropRef? && ps[n - 1].r in s.refs && s.refs[ps[n - 1].r].sub == ps[n].b)
    && (forall r :: DropRef(r) in ps ==> r in s.refs && DropBlob(s.refs[r].sub) in ps)
  }

  lemma PairedConcat(s: State, a: seq<Put>, b: seq<Put>)
    requires Paired(s, a) && Paired(s, b)
    ensures Paired(s, a + b)
  {
    forall n | 0 <= n < |a + b| && (a + b)[n].DropBlob?
      ensures n > 0 && (a + b)[n - 1].DropRef? && (a + b)[n - 1].r in s.refs
              && s.refs[(a + b)[n - 1].r].sub == (a + b)[n].b
    {
      if n >= |a| { assert b[n - |a|].DropBlob?; }
    }
  }

  lemma {:induction false} PartsPaired(s: State, parts: seq<Uri>)
    requires Readable(s, parts)
    ensures Paired(s, DeletePuts(s, parts))
    decreases |parts|
  {
    if parts != [] {
      var n := |parts| - 1;
      var r := parts[n];
      var first := [DropRef(r), DropBlob(s.refs[r].sub)];
      assert r in parts && first[1] in first;
      assert Paired(s, first);
      PartsPaired(s, parts[..n]);
      PairedConcat(s, first, DeletePuts(s, parts[..n]));
    }
  }

  lemma {:induction false} AllPaired(s: State, list: seq<Uri>)
    ensures Paired(s, DeleteAllPuts(s, list))
    decreases |list|
  {
    hide DeletePuts, PartsOf, Paired;
    if list == [] {
      NothingPaired(s);
    } else {
      var n := |list| - 1;
      var u := list[n];
      RecordPaired(s, u);
      PartsPaired(s, PartsOf(s, u));
      NothingPaired(s);
      PairedConcat(s, [DropContent(u)],
        if u in s.contents && s.contents[u].hash.Some? then DeletePuts(s, PartsOf(s, u)) else []);
      AllPaired(s, list[..n]);
      PairedConcat(s, DeleteOnePuts(s, u), DeleteAllPuts(s, list[..n]));
    }
  }

  lemma NothingPaired(s: State)
    ensures Paired(s, [])
  {
  }

  lemma RecordPaired(s: State, u: Uri)
    ensures Paired(s, [DropContent(u)])
  {
  }

  /** The state after one call in which `failed` fail, and then the first `i` deletions one by one. */
  function GivenUp(s: State, ps: seq<Put>, failed: set<Put>, i: nat): State
    requires i <= |ps|
  {
    Replay(Replay(s, Carried(ps, failed)), ps[..i])
  }

  lemma GivenUpLeaves(s: State, ps: seq<Put>, failed: set<Put>, i: nat)
    requires DropsOnly(ps) && i <= |ps|
    ensures
      var t := GivenUp(s, ps, failed, i);
      && (forall r :: r in t.refs <==>
            r in s.refs && (DropRef(r) in ps ==> DropRef(r) in failed && DropRef(r) !in ps[..i]))
      && (forall b :: b in t.blobs <==>
            b in s.blobs && (DropBlob(b) in ps ==> DropBlob(b) in failed && DropBlob(b) !in ps[..i]))
      && (forall r :: r in t.refs ==> t.refs[r] == s.refs[r])
  {
    hide Carried, RefsIn, BlobsIn, ContentsIn;
    var qs := Carried(ps, failed);
    CarriedLeaves(s, ps, failed);
    DropsLeave(Replay(s, qs), ps[..i]);
    forall r ensures r in RefsIn(ps) <==> DropRef(r) in ps { InRefs(ps, r); }
    forall r ensures r in RefsIn(ps[..i]) <==> DropRef(r) in ps[..i] { InRefs(ps[..i], r); }
    forall b ensures b in BlobsIn(ps) <==> DropBlob(b) in ps { InBlobs(ps, b); }
    forall b ensures b in BlobsIn(ps[..i]) <==> DropBlob(b) in ps[..i] { InBlobs(ps[..i], b); }
  }

  /**
    Given up half-way, a deletion leaves those references that it could not delete in one call
    and did not get to afterwards.  Such a reference still has its blob just when the blob could
    not be deleted either; all other references have theirs.
   */
  lemma GivenUpLeavesReferencesIff(s: State, ps: seq<Put>, failed: set<Put>, i: nat)
    requires Resolves(s) && DropsOnly(ps) && Paired(s, ps) && i <= |ps|
    ensures
      var t := GivenUp(s, ps, failed, i);
      && (forall r :: r in t.refs <==>
            r in s.refs && (DropRef(r) in ps ==> DropRef(r) in failed && DropRef(r) !in ps[..i]))
      && (forall r :: r in t.refs ==>
            t.refs[r] == s.refs[r]
            && (s.refs[r].sub in t.blobs <==> (DropRef(r) in ps ==> DropBlob(s.refs[r].sub) in failed)))
  {
    var t := GivenUp(s, ps, failed, i);
    GivenUpLeaves(s, ps, failed, i);
    hide GivenUp;
    forall r | r in t.refs
      ensures s.refs[r].sub in t.blobs <==> (DropRef(r) in ps ==> DropBlob(s.refs[r].sub) in failed)
    {
      BlobAfterRef(s, ps, r, i);
    }
  }

  /** What a deletion of some records that was given up leaves of the references. */
  lemma GivenUpDeletionIff(md5: Digest, s: State, list: seq<Uri>, failed: set<Put>, i: nat)
    requires Inv(md5, s) && (forall u :: u in list ==> u in s.contents) && i <= |DeleteAllPuts(s, list)|
    ensures
      var ps := DeleteAllPuts(s, list);
      var t := GivenUp(s, ps, failed, i);
      && (forall r :: r in t.refs <==>
            r in s.refs && (Gone(s, list, r) ==> DropRef(r) in failed && DropRef(r) !in ps[..i]))
      && (forall r :: r in t.refs ==>
            t.refs[r] == s.refs[r]
            && (s.refs[r].sub in t.blobs <==> (Gone(s, list, r) ==> DropBlob(s.refs[r].sub) in failed)))
  {
    hide Inv, DeleteAllPuts, GivenUp, Gone, Paired, GoneBlobs, RefsIn;
    var ps := DeleteAllPuts(s, list);
    AllDrops(md5, s, list);
    AllPaired(s, list);
    SoundResolves(md5, s);
    GivenUpLeavesReferencesIff(s, ps, failed, i);
    forall r | r in s.refs ensures DropRef(r) in ps <==> Gone(s, list, r) { InRefs(ps, r); }
  }

  /** The blob of a reference is dropped just when the reference is, and after it. */
  lemma BlobAfterRef(s: State, ps: seq<Put>, r: Uri, i: nat)
    requires Resolves(s) && Paired(s, ps) && i <= |ps| && r in s.refs
    ensures DropBlob(s.refs[r].sub) in ps <==> DropRef(r) in ps
    ensures DropBlob(s.refs[r].sub) in ps[..i] ==> DropRef(r) in ps[..i]
  {
    var p := DropBlob(s.refs[r].sub);
    if p in ps {
      var n :| 0 <= n < |ps| && ps[n] == p;
      assert ps[n - 1].r == r;
    }
    if p in ps[..i] {
      var n :| 0 <= n < i && ps[n] == p;
      assert ps[n - 1].r == r && ps[..i][n - 1] == ps[n - 1];
    }
  }

  // ----- deleting again -----

  /** No reference of the set has lost its record, and no part its reference. */
  ghost predicate NothingStranded(s: State, list: seq<Uri>, t: State) {
    forall r :: Gone(s, list, r) ==>
      && (r in t.refs ==> s.refs[r].dom in t.contents)
      && (s.refs[r].sub in t.blobs ==> r in t.refs)
  }

  /** Some of what is to be deleted is gone, and all else is as it was. */
  ghost predicate PartlyGone(s: State, list: seq<Uri>, t: State) {
    && (forall u :: u in t.contents ==> u in s.contents && t.contents[u] == s.contents[u])
    && (forall r :: r in t.refs ==> r in s.refs && t.refs[r] == s.refs[r])
    && (forall b :: b in t.blobs ==> b in s.blobs && t.blobs[b] == s.blobs[b])
    && (forall u :: u in s.contents && u !in t.contents ==> u in list)
    && (forall r :: r in s.refs && r !in t.refs ==> Gone(s, list, r))
    && (forall b :: b in s.blobs && b !in t.blobs ==> b in GoneBlobs(s, list))
  }

  lemma StoppedPartlyGone(md5: Digest, s: State, list: seq<Uri>, k: nat)
    requires Inv(md5, s) && forall u :: u in list ==> u in s.contents
    ensures PartlyGone(s, list, Crash(s, DeleteAllPuts(s, list), k))
  {
    hide DeleteAllPuts, Gone, GoneBlobs, ContentsIn, RefsIn, BlobsIn;
    var ps := DeleteAllPuts(s, list);
    var qs := if k < |ps| then ps[..k] else ps;
    AllDrops(md5, s, list);
    Journal.CrashIsPrefix(Apply, s, ps, k);
    DropsLeave(s, qs);
    assert ps == qs + ps[|qs|..];
    DropsJoin(qs, ps[|qs|..]);
    forall r | r in GoneRefs(s, list) ensures Gone(s, list, r) { }
  }

  /** What is deleted the second time: the complete contents whose records are still there. */
  lemma GoneAgain(s: State, list: seq<Uri>, t: State, list': seq<Uri>)
    requires PartlyGone(s, list, t)
    requires forall u :: u in list' <==> u in list && u in t.contents
    ensures forall r :: Gone(t, list', r) <==> r in t.refs && Gone(s, list, r) && s.refs[r].dom in t.contents
  {
    hide GoneBlobs;
  }

  lemma AgainRefs(s: State, list: seq<Uri>, t: State, list': seq<Uri>)
    requires PartlyGone(s, list, t)
    requires forall r :: Gone(t, list', r) <==> r in t.refs && Gone(s, list, r) && s.refs[r].dom in t.contents
    ensures t.refs - GoneRefs(t, list') == s.refs - GoneRefs(s, list)
      <==> forall r :: Gone(s, list, r) && r in t.refs ==> s.refs[r].dom in t.contents
  {
    hide Gone, GoneBlobs;
    var a, b := t.refs - GoneRefs(t, list'), s.refs - GoneRefs(s, list);
    forall r | r in s.refs ensures r in a <==> r in t.refs && !Gone(t, list', r) { }
    forall r | r in s.refs ensures r in b <==> !Gone(s, list, r) { }
    if forall r :: Gone(s, list, r) && r in t.refs ==> s.refs[r].dom in t.contents {
      assert a == b;
    }
  }

  lemma GoneIn(s: State, list: seq<Uri>, r: Uri)
    requires Gone(s, list, r)
    ensures s.refs[r].sub in GoneBlobs(s, list)
  {
  }

  lemma AgainBlobs(s: State, list: seq<Uri>, t: State, list': seq<Uri>)
    requires PartlyGone(s, list, t) && Resolves(s)
    requires forall r :: Gone(t, list', r) <==> r in t.refs && Gone(s, list, r) && s.refs[r].dom in t.contents
    ensures t.blobs - GoneBlobs(t, list') == s.blobs - GoneBlobs(s, list)
      <==> forall r :: r in s.refs && Gone(s, list, r) && s.refs[r].sub in t.blobs ==> Gone(t, list', r)
  {
    hide Gone;
    var a, b := t.blobs - GoneBlobs(t, list'), s.blobs - GoneBlobs(s, list);
    forall r | r in s.refs && Gone(s, list, r) && s.refs[r].sub in t.blobs && !Gone(t, list', r) ensures a != b {
      assert s.refs[r].sub in a && s.refs[r].sub !in b;
    }
    if forall r :: r in s.refs && Gone(s, list, r) && s.refs[r].sub in t.blobs ==> Gone(t, list', r) {
      forall c ensures c in a <==> c in b {
        if c in GoneBlobs(s, list) && c in t.blobs {
          var r :| r in s.refs && Gone(s, list, r) && s.refs[r].sub == c;
          GoneIn(t, list', r);
        }
      }
      assert a == b;
    }
  }

  lemma ListedAre(s: State, parent: Uri, u: Uri)
    requires SetOk(s, parent)
    ensures u in ListOf(s, parent) <==> u in s.contents && s.contents[u].parent == parent
  {
    var list := ListOf(s, parent);
    if u in list { var i :| 0 <= i < |list| && list[i] == u; }
  }

  /** Deleting again from such a state leaves what one whole deletion leaves just when nothing is stranded. */
  lemma AgainLeavesIff(md5: Digest, s: State, parent: Uri, t: State)
    requires AllOk(md5, s) && AllOk(md5, t) && PartlyGone(s, ListOf(s, parent), t)
    ensures
      var list := ListOf(s, parent);
      Replay(t, DeleteAllPuts(t, ListOf(t, parent))) == Replay(s, DeleteAllPuts(s, list))
      <==> NothingStranded(s, list, t)
  {
    hide DeleteAllPuts, SetOk, Journal.Replay, Inv, PartlyGone, GoneRefs, GoneBlobs;
    var list, list' := ListOf(s, parent), ListOf(t, parent);
    assert SetOk(s, parent) && SetOk(t, parent);
    DeletionLeaves(md5, s, list);
    DeletionLeaves(md5, t, list');
    AgainListed(s, parent, t);
    GoneAgain(s, list, t, list');
    hide Gone;
    assert Resolves(s) by { SoundResolves(md5, s); }
    AgainRefs(s, list, t, list');
    AgainBlobs(s, list, t, list');
    StrandedSplit(s, list, t, list');
  }

  lemma SoundResolves(md5: Digest, s: State)
    requires Inv(md5, s)
    ensures Resolves(s)
  {
  }

  lemma AgainListed(s: State, parent: Uri, t: State)
    requires SetOk(s, parent) && SetOk(t, parent) && PartlyGone(s, ListOf(s, parent), t)
    ensures forall u :: u in ListOf(t, parent) <==> u in ListOf(s, parent) && u in t.contents
    ensures t.contents - (set u | u in ListOf(t, parent)) == s.contents - (set u | u in ListOf(s, parent))
  {
    hide SetOk, Gone, GoneBlobs;
    var list, list' := ListOf(s, parent), ListOf(t, parent);
    forall u ensures u in list <==> u in s.contents && s.contents[u].parent == parent { ListedAre(s, parent, u); }
    forall u ensures u in list' <==> u in t.contents && t.contents[u].parent == parent { ListedAre(t, parent, u); }
    var a, b := t.contents - (set u | u in list'), s.contents - (set u | u in list);
    assert a == b;
  }

  lemma StrandedSplit(s: State, list: seq<Uri>, t: State, list': seq<Uri>)
    requires PartlyGone(s, list, t)
    requires forall r :: Gone(t, list', r) <==> r in t.refs && Gone(s, list, r) && s.refs[r].dom in t.contents
    ensures NothingStranded(s, list, t) <==>
      && (forall r :: Gone(s, list, r) && r in t.refs ==> s.refs[r].dom in t.contents)
      && (forall r :: r in s.refs && Gone(s, list, r) && s.refs[r].sub in t.blobs ==> Gone(t, list', r))
  {
  }

  /**
    A deletion that was stopped is completed by a second one just when it did not stop inside
    a complete content, between the deletion of its record and of its last part.
   */
  lemma DeletingAgainCompletesIff(md5: Digest, s: State, parent: Uri, next: nat, k: nat)
    requires AllOk(md5, s) && Used(s, next)
    ensures
      var list := ListOf(s, parent);
      var t := Crash(s, DeleteAllPuts(s, list), k);
      Replay(t, DeleteAllPuts(t, ListOf(t, parent))) == Replay(s, DeleteAllPuts(s, list))
      <==> NothingStranded(s, list, t)
  {
    hide Inv, DeleteAllPuts, Journal.Replay, Journal.Crash, NothingStranded;
    var list := ListOf(s, parent);
    DeleteAllStopsSafely(md5, s, parent, next, k);
    StoppedPartlyGone(md5, s, list, k);
    AgainLeavesIff(md5, s, parent, Crash(s, DeleteAllPuts(s, list), k));
  }
}
