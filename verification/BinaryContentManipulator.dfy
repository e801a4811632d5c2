/** The attachments of one parent record: reading, saving, renaming and deleting them. */
module BinaryContentManipulator {
  import Journal
  import opened Wrappers
  import opened BlobStore
  import opened BlobSteps
  import opened BlobUploads
  import opened BlobAttachments
  import opened BlobRuns
  import opened BlobDeletion
  import opened BlobEntities
  import DeleteHelper
  import RowStore

  /** A record as it is held in memory. */
  datatype Entity = Entity(uri: Uri, row: Content)

  /** The records of `parent` by ordinal: 1, 2, and so on; their paths may coincide. */
  ghost predicate Ordered(contents: map<Uri, Content>, parent: Uri, list: seq<Uri>) {
    && (forall i :: 0 <= i < |list| ==>
          list[i] in contents && contents[list[i]].parent == parent && contents[list[i]].ordinal == i + 1)
    && (forall u :: u in contents && contents[u].parent == parent ==> u in list)
  }

  /** `list` are the records of `parent` by ascending ordinal, whatever the ordinals are. */
  ghost predicate Sorted(contents: map<Uri, Content>, parent: Uri, list: seq<Uri>) {
    && (forall u :: u in list <==> u in contents && contents[u].parent == parent)
    && (forall i, j :: 0 <= i < j < |list| ==> list[i] != list[j])
    && (forall i, j :: 0 <= i < j < |list| && list[i] in contents && list[j] in contents ==>
          contents[list[i]].ordinal <= contents[list[j]].ordinal)
  }

  /** The records `list` by position. */
  ghost predicate Mirrors(held: map<nat, Entity>, contents: map<Uri, Content>, list: seq<Uri>) {
    && (forall i :: i in held <==> 1 <= i <= |list|)
    && (forall i :: 1 <= i <= |list| && i in held && list[i - 1] in contents ==>
          held[i] == Entity(list[i - 1], contents[list[i - 1]]))
  }

  /** Keys numbered 1, 2, and so on come out of a sorted query in that order. */
  lemma {:induction false} SortedIsNumbered(rank: map<Uri, nat>, hits: seq<Uri>, list: seq<Uri>, i: nat)
    requires forall j :: 0 <= j < |list| ==> list[j] in rank && rank[list[j]] == j + 1
    requires forall u :: u in hits <==> u in list
    requires forall j, k :: 0 <= j < k < |hits| ==> hits[j] != hits[k]
    requires forall j, k :: 0 <= j < k < |hits| && hits[j] in rank && hits[k] in rank ==> rank[hits[j]] <= rank[hits[k]]
    requires i <= |hits|
    ensures i <= |list| && forall j :: 0 <= j < i ==> hits[j] == list[j]
    decreases i
  {
    if i > 0 {
      var n := i - 1;
      SortedIsNumbered(rank, hits, list, n);
      assert hits[n] in hits && hits[n] in list;
      var p :| 0 <= p < |list| && list[p] == hits[n];
      assert p >= n;
      assert list[n] in list && list[n] in hits;
      var q :| 0 <= q < |hits| && hits[q] == list[n];
      assert q >= n;
      assert rank[hits[n]] == p + 1 && rank[hits[q]] == n + 1;
    }
  }

  lemma SameNumbering(rank: map<Uri, nat>, hits: seq<Uri>, list: seq<Uri>)
    requires forall j :: 0 <= j < |list| ==> list[j] in rank && rank[list[j]] == j + 1
    requires forall u :: u in hits <==> u in list
    requires forall j, k :: 0 <= j < k < |hits| ==> hits[j] != hits[k]
    requires forall j, k :: 0 <= j < k < |hits| && hits[j] in rank && hits[k] in rank ==> rank[hits[j]] <= rank[hits[k]]
    ensures hits == list
  {
    SortedIsNumbered(rank, hits, list, |hits|);
    if list != [] {
      var u := list[|list| - 1];
      assert u in list && u in hits;
      var q :| 0 <= q < |hits| && hits[q] == u;
      assert rank[list[q]] == q + 1 && rank[u] == |list|;
    }
  }

  // ----- parts -----

  lemma {:induction false} UploadMore(chunks: seq<Bytes>, dom: Uri, part: nat, next: nat, i: nat)
    requires i < |chunks|
    ensures UploadPuts(chunks[..i + 1], dom, part, next) == UploadPuts(chunks[..i], dom, part, next)
      + [PutBlob(next + 2 * i, chunks[i]), PutRef(next + 2 * i + 1, Ref(dom, next + 2 * i, part + i))]
    decreases i
  {
    if i == 0 {
      assert UploadPuts([], dom, part + 1, next + 2) == [];
    } else {
      var rest := chunks[1..];
      assert chunks[..i + 1][1..] == rest[..i] && chunks[..i][1..] == rest[..i - 1];
      UploadMore(rest, dom, part + 1, next + 2, i - 1);
    }
  }

  /** The keys of the parts of a content: of each part, the blob before its reference. */
  function PartKeys(refs: map<Uri, Ref>, parts: seq<Uri>): seq<Key>
    requires forall r :: r in parts ==> r in refs
  {
    if parts == [] then []
    else
      var r := parts[|parts| - 1];
      PartKeys(refs, parts[..|parts| - 1]) + [BlobKey(refs[r].sub), RefKey(r)]
  }

  lemma ReversedPair(front: seq<Key>, a: Key, b: Key)
    ensures Drops(Reversed(front + [a, b])) == [Drop(b), Drop(a)] + Drops(Reversed(front))
  {
    ReversedConcat(front, [a, b]);
    assert Reversed([a, b]) == [b, a] by {
      assert [a, b][1..] == [b] && [b][1..] == [];
      assert Reversed([b]) == [b];
    }
    DropsConcat([b, a], Reversed(front));
    assert [b, a][1..] == [a] && Drops([a]) == [Drop(a)];
  }

  lemma {:induction false} PartKeysDrop(s: State, parts: seq<Uri>)
    requires forall r :: r in parts ==> r in s.refs
    ensures Drops(Reversed(PartKeys(s.refs, parts))) == DeletePuts(s, parts)
  {
    if parts != [] {
      var n := |parts| - 1;
      var r := parts[n];
      PartKeysDrop(s, parts[..n]);
      ReversedPair(PartKeys(s.refs, parts[..n]), BlobKey(s.refs[r].sub), RefKey(r));
    }
  }

  ghost function AllKeys(s: State, list: seq<Uri>): seq<Key>
    requires forall u :: u in list ==> u in s.contents
  {
    if list == [] then []
    else
      var u := list[|list| - 1];
      AllKeys(s, list[..|list| - 1]) + (if s.contents[u].hash.Some? then PartKeys(s.refs, PartsOf(s, u)) else [])
      + [ContentKey(u)]
  }

  lemma {:induction false} AllKeysDrop(s: State, list: seq<Uri>)
    requires forall u :: u in list ==> u in s.contents
    ensures Drops(Reversed(AllKeys(s, list))) == DeleteAllPuts(s, list)
  {
    hide PartsOf, PartKeys, DeletePuts, Drops, Reversed;
    if list == [] {
      NothingDropped();
    } else {
      var n := |list| - 1;
      var u, front := list[n], AllKeys(s, list[..n]);
      var parts := if s.contents[u].hash.Some? then PartKeys(s.refs, PartsOf(s, u)) else [];
      AllKeysDrop(s, list[..n]);
      if s.contents[u].hash.Some? { PartKeysDrop(s, PartsOf(s, u)); } else { NothingDropped(); }
      RecordDropped(front, parts, u);
    }
  }

  lemma NothingDropped()
    ensures Reversed([]) == [] && Drops([]) == []
  {
  }

  /** The key of a record that comes last is dropped first, then those of its parts, then the rest. */
  lemma RecordDropped(front: seq<Key>, parts: seq<Key>, u: Uri)
    ensures Drops(Reversed(front + parts + [ContentKey(u)]))
      == [DropContent(u)] + Drops(Reversed(parts)) + Drops(Reversed(front))
  {
    var first := [ContentKey(u)];
    assert Reversed(first) == first && Drops(first) == [DropContent(u)] by { assert first[1..] == []; }
    hide Drops, Reversed;
    ReversedConcat(front + parts, first);
    ReversedConcat(front, parts);
    DropsConcat(first, Reversed(parts) + Reversed(front));
    DropsConcat(Reversed(parts), Reversed(front));
  }

  lemma NoKeys(s: State)
    ensures AllKeys(s, []) == []
  {
  }

  lemma AllKeysMore(s: State, list: seq<Uri>, i: nat)
    requires i < |list| && forall u :: u in list ==> u in s.contents
    ensures list[i] in s.contents
    ensures AllKeys(s, list[..i + 1]) == AllKeys(s, list[..i])
      + (if s.contents[list[i]].hash.Some? then PartKeys(s.refs, PartsOf(s, list[i])) else []) + [ContentKey(list[i])]
  {
    assert list[..i + 1][..i] == list[..i] && list[i] in list;
  }

  lemma ChunkStep(blob: Bytes, index: nat, limit: nat, chunks: seq<Bytes>, i: nat)
    requires limit > 0 && index < |blob| && i <= |chunks| && Chunks(blob[index..], limit) == chunks[i..]
    ensures i < |chunks|
    ensures chunks[i] == blob[index..if index + limit > |blob| then |blob| else index + limit]
    ensures index + limit < |blob| ==> Chunks(blob[index + limit..], limit) == chunks[i + 1..]
    ensures index + limit >= |blob| ==> i + 1 == |chunks|
  {
    var rest := blob[index..];
    assert chunks[i..][0] == chunks[i];
    assert chunks[i..][1..] == chunks[i + 1..];
    if |rest| > limit {
      assert rest[limit..] == blob[index + limit..];
    } else {
      assert |chunks[i..]| == 1;
    }
  }

  lemma NothingUploaded(s: State, j: seq<Put>, chunks: seq<Bytes>, limit: nat, dom: Uri, next: nat)
    requires limit > 0
    ensures Chunks([], limit) == [] && chunks[0..] == chunks
    ensures Replay(s, UploadPuts(chunks[..0], dom, 1, next)) == s && j + UploadPuts(chunks[..0], dom, 1, next) == j
  {
  }

  lemma WroteTwo(s: State, j: seq<Put>, ps: seq<Put>, a: Put, b: Put)
    ensures Replay(s, ps + [a, b]) == Apply(Apply(Replay(s, ps), a), b)
    ensures j + (ps + [a, b]) == ((j + ps) + [a]) + [b]
  {
    assert ps + [a, b] == (ps + [a]) + [b];
    Journal.ReplayAppend(Apply, s, ps, a);
    Journal.ReplayAppend(Apply, s, ps + [a], b);
  }

  /** A stored reference, and a stored part. */
  datatype PartRef = PartRef(uri: Uri, ref: Ref)
  datatype RefBlob = RefBlob(uri: Uri, value: Bytes)

  /** `refList` and `blobList` hold the parts `parts` as they are stored. */
  ghost predicate Loaded(s: State, parts: seq<Uri>, refList: seq<PartRef>, blobList: seq<RefBlob>) {
    && |refList| == |parts| && |blobList| == |parts| && Readable(s, parts)
    && forall i :: 0 <= i < |parts| ==>
         && parts[i] in parts
         && refList[i] == PartRef(parts[i], s.refs[parts[i]])
         && blobList[i] == RefBlob(s.refs[parts[i]].sub, s.blobs[s.refs[parts[i]].sub])
  }

  function ValuesOf(blobList: seq<RefBlob>): Bytes {
    if blobList == [] then [] else ValuesOf(blobList[..|blobList| - 1]) + blobList[|blobList| - 1].value
  }

  lemma {:induction false} LoadedJoins(s: State, parts: seq<Uri>, refList: seq<PartRef>, blobList: seq<RefBlob>)
    requires Loaded(s, parts, refList, blobList)
    ensures ValuesOf(blobList) == Joined(s, parts)
  {
    if parts != [] {
      var n := |parts| - 1;
      LoadedJoins(s, parts[..n], refList[..n], blobList[..n]);
    }
  }

  /** The parts of the content are numbered 1, 2, and so on, and all are there. */
  ghost predicate Whole(s: State, dom: Uri) {
    exists l :: Lists(s, dom, l) && Readable(s, l)
  }

  lemma ListsIsNumbered(s: State, dom: Uri, hits: seq<Uri>, l: seq<Uri>)
    requires Lists(s, dom, l)
    requires forall r :: r in hits <==> r in s.refs && s.refs[r].dom == dom
    requires forall i, j :: 0 <= i < j < |hits| ==> hits[i] != hits[j]
    requires forall i, j :: 0 <= i < j < |hits| && hits[i] in s.refs && hits[j] in s.refs ==>
      s.refs[hits[i]].part <= s.refs[hits[j]].part
    ensures hits == l
  {
    SameNumbering(map r | r in s.refs :: s.refs[r].part, hits, l);
  }

  /** Reads and writes the parts of one content. */
  class BlobManipulator {
    const store: ContentStore
    var refList: seq<PartRef>
    var blobList: seq<RefBlob>

    constructor Of(store: ContentStore, refList: seq<PartRef>, blobList: seq<RefBlob>)
      ensures this.store == store && this.refList == refList && this.blobList == blobList
    {
      this.store, this.refList, this.blobList := store, refList, blobList;
    }

    /** Cuts the bytes into parts and writes each as a blob and then a reference to it. */
    constructor Write(store: ContentStore, uris: RowStore.UriSource, blobLimit: nat, blob: Bytes, dom: Uri)
      requires blobLimit > 0
      modifies store`refs, store`blobs, store`journal, uris
      ensures store.Wrote(old(store.Stored()), old(store.journal),
        UploadPuts(Chunks(blob, blobLimit), dom, 1, old(uris.next)))
      ensures uris.next == old(uris.next) + 2 * |Chunks(blob, blobLimit)|
    {
      this.store, refList, blobList := store, [], [];
      new;
      hide Chunks, UploadPuts, Journal.Replay;
      NothingUploaded(store.Stored(), store.journal, Chunks(blob, blobLimit), blobLimit, dom, uris.next);
      assert blob[0..] == blob;
      ghost var s0, j0, next0 := store.Stored(), store.journal, uris.next;
      ghost var chunks := Chunks(blob, blobLimit);
      ghost var i := 0;
      var index, part := 0, 1;
      while index < |blob|
        invariant part == i + 1 && i <= |chunks|
        invariant if index < |blob| then Chunks(blob[index..], blobLimit) == chunks[i..] else i == |chunks|
        invariant uris.next == next0 + 2 * i
        invariant store.Wrote(s0, j0, UploadPuts(chunks[..i], dom, 1, next0))
        decreases |blob| - index
      {
        var endCopy := if index + blobLimit > |blob| then |blob| else index + blobLimit;
        ChunkStep(blob, index, blobLimit, chunks, i);
        UploadMore(chunks, dom, 1, next0, i);
        WroteTwo(s0, j0, UploadPuts(chunks[..i], dom, 1, next0),
                 PutBlob(uris.next, blob[index..endCopy]), PutRef(uris.next + 1, Ref(dom, uris.next, part)));
        WritePart(uris, dom, part, blob[index..endCopy]);
        index, part, i := index + blobLimit, part + 1, i + 1;
      }
      assert chunks[..|chunks|] == chunks;
    }

    /** Writes one part: the blob, and then the reference to it. */
    method WritePart(uris: RowStore.UriSource, dom: Uri, part: nat, value: Bytes)
      modifies `refList, `blobList, store`refs, store`blobs, store`journal, uris
      ensures
        var next := old(uris.next);
        var a, b := PutBlob(next, value), PutRef(next + 1, Ref(dom, next, part));
        && store.Stored() == Apply(Apply(old(store.Stored()), a), b)
        && store.journal == (old(store.journal) + [a]) + [b]
        && uris.next == next + 2
    {
      var sub := uris.NewUri();
      var blobEntity := RefBlob(sub, value);
      blobList := blobList + [blobEntity];
      var uri := uris.NewUri();
      var refEntity := PartRef(uri, Ref(dom, sub, part));
      refList := refList + [refEntity];
      store.PutBlob(sub, blobEntity.value);
      store.PutRef(uri, refEntity.ref);
    }

    /** Collects the parts of a content; they must be numbered 1, 2, and so on, and all be there. */
    static method Read(store: ContentStore, dom: Uri) returns (r: Result<BlobManipulator, Error>, ghost parts: seq<Uri>)
      ensures r.Ok? <==> Whole(store.Stored(), dom)
      ensures r.Ok? ==> Lists(store.Stored(), dom, parts) && fresh(r.value) && r.value.store == store
      ensures r.Ok? ==> Loaded(store.Stored(), parts, r.value.refList, r.value.blobList)
      ensures r.Err? ==>
        r.error == if exists l :: Lists(store.Stored(), dom, l) then MissingPart else EnumeratedElement
    {
      var hits := store.QueryRefs(dom);
      ghost var s := store.Stored();
      parts := hits;
      forall l | Lists(s, dom, l) ensures l == hits { ListsIsNumbered(s, dom, hits, l); }
      var refList: seq<PartRef>, expectedPart := [], 1;
      for i := 0 to |hits|
        invariant expectedPart == i + 1 && |refList| == i
        invariant forall j :: 0 <= j < i ==>
          hits[j] in s.refs && s.refs[hits[j]].part == j + 1 && refList[j] == PartRef(hits[j], s.refs[hits[j]])
      {
        var ref := store.refs[hits[i]];
        if ref.part != expectedPart {
          return Err(EnumeratedElement), [];
        }
        expectedPart := expectedPart + 1;
        refList := refList + [PartRef(hits[i], ref)];
      }
      assert Lists(s, dom, hits);
      var blobList: seq<RefBlob> := [];
      for i := 0 to |refList|
        invariant |blobList| == i
        invariant forall j :: 0 <= j < i ==>
          s.refs[hits[j]].sub in s.blobs && blobList[j] == RefBlob(s.refs[hits[j]].sub, s.blobs[s.refs[hits[j]].sub])
      {
        if refList[i].ref.sub !in store.blobs {
          assert hits[i] in hits && !Readable(s, hits);
          return Err(MissingPart), [];
        }
        blobList := blobList + [RefBlob(refList[i].ref.sub, store.blobs[refList[i].ref.sub])];
      }
      var b := new BlobManipulator.Of(store, refList, blobList);
      assert Loaded(s, hits, refList, blobList) && Whole(s, dom);
      return Ok(b), hits;
    }

    method GetBlob() returns (bytes: Bytes)
      ensures bytes == ValuesOf(blobList)
    {
      bytes := [];
      for i := 0 to |blobList|
        invariant bytes == ValuesOf(blobList[..i])
      {
        bytes := bytes + blobList[i].value;
        assert blobList[..i + 1][..i] == blobList[..i];
      }
      assert blobList[..|blobList|] == blobList;
    }

    /** Adds the keys of the parts so that deletion in reverse order never leaves a reference without its blob. */
    method RecursivelyAddEntityKeysForDeletion(keyList: seq<Key>, ghost s: State, ghost parts: seq<Uri>)
      returns (keys: seq<Key>)
      requires Loaded(s, parts, refList, blobList) && Resolves(s)
      requires forall i, j :: 0 <= i < j < |parts| ==> parts[i] != parts[j]
      ensures keys == keyList + PartKeys(s.refs, parts)
    {
      keys := keyList;
      var blobs := set r | r in blobList :: r.uri;
      for i := 0 to |refList|
        invariant keys == keyList + PartKeys(s.refs, parts[..i])
        invariant forall b :: b in blobs <==> exists j :: i <= j < |parts| && s.refs[parts[j]].sub == b
      {
        var sub := refList[i].ref.sub;
        assert sub in blobs by { assert s.refs[parts[i]].sub == sub; }
        if sub in blobs {
          keys := keys + [BlobKey(sub)];
          blobs := blobs - {sub};
        }
        keys := keys + [RefKey(refList[i].uri)];
        assert parts[..i + 1][..i] == parts[..i];
        assert PartKeys(s.refs, parts[..i + 1]) == PartKeys(s.refs, parts[..i]) + [BlobKey(sub), RefKey(parts[i])];
      }
      // every blob in hand came from a reference, so none remains to be added
      assert parts[..|parts|] == parts && blobs == {};
    }
  }

  // ----- the attachment set -----

  lemma AttachedIsOrdered(s: State, parent: Uri, list: seq<Uri>)
    requires Attached(s, parent, list)
    ensures Ordered(s.contents, parent, list)
  {
  }

  /** Consecutive ordinals leave only one order. */
  lemma OrderedHits(contents: map<Uri, Content>, parent: Uri, hits: seq<Uri>, list: seq<Uri>)
    requires Ordered(contents, parent, list) && Sorted(contents, parent, hits)
    ensures hits == list
  {
    SameNumbering(map u | u in contents :: contents[u].ordinal, hits, list);
  }

  lemma AttachedIsSorted(s: State, parent: Uri, list: seq<Uri>)
    requires Attached(s, parent, list)
    ensures Sorted(s.contents, parent, list)
  {
    forall u | u in list ensures u in s.contents && s.contents[u].parent == parent {
      var i :| 0 <= i < |list| && list[i] == u;
    }
  }

  lemma FourPhases(s: State, a: Put, dels: seq<Put>, ups: seq<Put>, b: Put, j: seq<Put>)
    ensures Replay(s, [a] + dels + ups + [b]) == Apply(Replay(Replay(Apply(s, a), dels), ups), b)
    ensures j + ([a] + dels + ups + [b]) == (((j + [a]) + dels) + ups) + [b]
  {
    Journal.ReplayAppend(Apply, s, [], a);
    assert [] + [a] == [a];
    Journal.ReplayConcat(Apply, s, [a], dels);
    Journal.ReplayConcat(Apply, s, [a] + dels, ups);
    Journal.ReplayAppend(Apply, s, [a] + dels + ups, b);
  }

  // ----- what an operation that is not stopped leaves -----

  /** The record as the operation leaves it. */
  function Final(md5: Digest, plan: Plan): Content
    requires !plan.Idle?
  {
    if plan.Upload? then plan.c.(hash := Some(md5(plan.bytes))) else plan.c
  }

  function ListAfter(list: seq<Uri>, u: Uri): seq<Uri> {
    if u in list then list else list + [u]
  }

  lemma PlanEnds(md5: Digest, s: State, parent: Uri, op: Op, limit: nat, next: nat, s': State)
    requires limit > 0 && AllOk(md5, s) && Used(s, next)
    requires s' == Replay(s, Commands(md5, s, PlanOf(md5, s, parent, op, next), limit))
    ensures
      var plan := PlanOf(md5, s, parent, op, next);
      && AllOk(md5, s') && Used(s', Later(plan, limit, next))
      && (plan.Idle? ==> s' == s)
      && (!plan.Idle? ==>
            && s'.contents == s.contents[plan.u := Final(md5, plan)]
            && Joining(s, parent, ListOf(s, parent), plan.u, Final(md5, plan))
            && ListOf(s', parent) == ListAfter(ListOf(s, parent), plan.u))
  {
    hide AllOk, Used, OthersSame, Holds, PlanOf, ReplaceCommands, Joining, Inv, Journal.Replay, Journal.Crash, Chunks;
    var plan := PlanOf(md5, s, parent, op, next);
    var ps := Commands(md5, s, plan, limit);
    var n := |ps| + 1;
    Journal.CrashAll(Apply, s, ps, n);
    PlanStops(md5, s, parent, op, limit, next, n, s');
    var e := Event(parent, op, limit, next, n);
    StopKeeps(md5, s, e);
    assert Stop(md5, s, e) == s';
    if !plan.Idle? {
      FinalJoins(md5, s, parent, op, next, plan);
      JoinedSet(s, s', parent, ListOf(s, parent), plan.u, Final(md5, plan));
      ListOfIs(s', parent, ListAfter(ListOf(s, parent), plan.u));
    }
  }

  lemma FinalJoins(md5: Digest, s: State, parent: Uri, op: Op, next: nat, plan: Plan)
    requires AllOk(md5, s) && Used(s, next) && plan == PlanOf(md5, s, parent, op, next) && !plan.Idle?
    ensures Joining(s, parent, ListOf(s, parent), plan.u, Final(md5, plan))
  {
    hide PlanOf, Used, Inv, Joining;
    assert SetOk(s, parent);
    PlanJoins(md5, s, parent, op, next);
    SameJoining(s, parent, plan.u, plan.c, Final(md5, plan));
  }

  /** The record held in memory is replaced together with the stored one. */
  lemma MirrorsPut(
      held: map<nat, Entity>, s: State, parent: Uri, list: seq<Uri>, u: Uri, c: Content, contents: map<Uri, Content>)
    requires Mirrors(held, s.contents, list) && Joining(s, parent, list, u, c)
    requires contents == s.contents[u := c]
    ensures Mirrors(held[c.ordinal := Entity(u, c)], contents, ListAfter(list, u))
  {
    if u in list {
      var i :| 0 <= i < |list| && list[i] == u;
      assert c.ordinal == i + 1;
      forall j | 0 <= j < |list| && j != i ensures list[j] != u { }
    }
    forall v | v in list ensures v in s.contents {
      var i :| 0 <= i < |list| && list[i] == v;
    }
  }

  /** The ordinals of these records are 1, 2, and so on. */
  ghost predicate InPlace(contents: map<Uri, Content>, list: seq<Uri>) {
    forall i :: 0 <= i < |list| ==> list[i] in contents && contents[list[i]].ordinal == i + 1
  }

  lemma InPlaceIsOrdered(contents: map<Uri, Content>, parent: Uri, list: seq<Uri>)
    requires Sorted(contents, parent, list)
    ensures InPlace(contents, list) <==> Ordered(contents, parent, list)
  {
    if InPlace(contents, list) {
      forall i | 0 <= i < |list| ensures contents[list[i]].parent == parent { assert list[i] in list; }
    }
  }

  lemma NoneHeld(contents: map<Uri, Content>, list: seq<Uri>)
    ensures InPlace(contents, list[..0]) && Mirrors(map[], contents, list[..0])
  {
  }

  /** One more record is held under the next position. */
  lemma HeldMore(held: map<nat, Entity>, contents: map<Uri, Content>, list: seq<Uri>, i: nat)
    requires i < |list| && list[i] in contents && Mirrors(held, contents, list[..i])
    ensures InPlace(contents, list[..i + 1]) <==> InPlace(contents, list[..i]) && contents[list[i]].ordinal == i + 1
    ensures Mirrors(held[i + 1 := Entity(list[i], contents[list[i]])], contents, list[..i + 1])
  {
    forall j | 0 <= j < i ensures list[..i + 1][j] == list[..i][j] { }
  }

  class Manipulator {
    const store: ContentStore
    const uris: RowStore.UriSource
    const parentKey: Uri
    const md5: Digest
    const blobLimit: nat
    var refreshBeforeUse: bool
    var attachments: map<nat, Entity>

    constructor (store: ContentStore, uris: RowStore.UriSource, parentKey: Uri, md5: Digest, blobLimit: nat)
      ensures this.store == store && this.uris == uris && this.parentKey == parentKey
      ensures this.md5 == md5 && this.blobLimit == blobLimit && refreshBeforeUse
    {
      this.store, this.uris, this.parentKey, this.md5, this.blobLimit := store, uris, parentKey, md5, blobLimit;
      refreshBeforeUse, attachments := true, map[];
    }

    ghost function Now(): State
      reads store
    {
      store.Stored()
    }

    ghost function List(): seq<Uri>
      reads store
    {
      ListOf(Now(), parentKey)
    }

    /** The stored state is as every run leaves it, and what is held in memory agrees with it. */
    ghost predicate Valid()
      reads this, store, uris
    {
      && blobLimit > 0 && AllOk(md5, Now()) && Used(Now(), uris.next) && store.AllRelations()
      && (refreshBeforeUse || Mirrors(attachments, store.contents, List()))
    }

    /** What is held in memory are the stored records, whatever their ordinals are. */
    ghost predicate Holding()
      reads this, store
    {
      exists list :: Sorted(store.contents, parentKey, list) && Mirrors(attachments, store.contents, list)
    }

    /** As `Valid`, but the ordinals and paths of the records may be anything. */
    ghost predicate Loose()
      reads this, store, uris
    {
      && blobLimit > 0 && Inv(md5, Now()) && Used(Now(), uris.next) && store.AllRelations()
      && (refreshBeforeUse || Holding())
    }

    lemma ValidIsLoose()
      requires Valid()
      ensures Loose() && Sorted(store.contents, parentKey, List())
    {
      assert SetOk(Now(), parentKey);
      AttachedIsSorted(Now(), parentKey, List());
    }

    /** Reads the records of the parent; an ordinal out of place is an error, but all are held. */
    method Refresh() returns (error: Option<Error>, ghost hits: seq<Uri>)
      modifies this
      ensures !refreshBeforeUse
      ensures error == if Ordered(store.contents, parentKey, hits) then None else Some(EnumeratedElement)
      ensures forall list :: Ordered(store.contents, parentKey, list) ==> list == hits
      ensures Sorted(store.contents, parentKey, hits) && Mirrors(attachments, store.contents, hits)
    {
      hide Mirrors, Ordered;
      error, attachments := None, map[];
      var records := store.QueryContents(parentKey);
      NoneHeld(store.contents, records);
      var expectedOrdinal := 1;
      for i := 0 to |records|
        invariant expectedOrdinal == i + 1
        invariant error == if InPlace(store.contents, records[..i]) then None else Some(EnumeratedElement)
        invariant Mirrors(attachments, store.contents, records[..i])
      {
        assert records[i] in records;
        HeldMore(attachments, store.contents, records, i);
        var row := store.contents[records[i]];
        if row.ordinal != expectedOrdinal {
          error := Some(EnumeratedElement);
        }
        attachments := attachments[expectedOrdinal := Entity(records[i], row)];
        expectedOrdinal := expectedOrdinal + 1;
      }
      assert records[..|records|] == records;
      refreshBeforeUse := false;
      hits := records;
      InPlaceIsOrdered(store.contents, parentKey, hits);
      forall list | Ordered(store.contents, parentKey, list) ensures list == hits {
        OrderedHits(store.contents, parentKey, hits, list);
      }
    }

    /** Reads the records of the parent again if need be; their ordinals must be 1, 2, and so on. */
    method UpdateAttachments() returns (error: Option<Error>)
      modifies this
      ensures !refreshBeforeUse
      ensures !old(refreshBeforeUse) ==> error.None? && attachments == old(attachments)
      ensures old(refreshBeforeUse) ==>
        (error == if exists list :: Ordered(store.contents, parentKey, list) then None else Some(EnumeratedElement))
      ensures old(Valid()) ==> error.None? && Valid()
      ensures old(refreshBeforeUse) ==> Holding()
    {
      error := None;
      if refreshBeforeUse {
        ghost var hits;
        error, hits := Refresh();
        if old(Valid()) {
          assert SetOk(Now(), parentKey);
          AttachedIsOrdered(Now(), parentKey, List());
        }
      }
    }

    method InternalGetAttachmentCount() returns (max: nat)
      ensures max == 0 || max in attachments
      ensures forall k :: k in attachments ==> k <= max
    {
      max := 0;
      var left := attachments.Keys;
      while left != {}
        invariant left <= attachments.Keys
        invariant max == 0 || max in attachments
        invariant forall k :: k in attachments && k !in left ==> k <= max
        decreases |left|
      {
        var k :| k in left;
        left := left - {k};
        if k > max { max := k; }
      }
    }

    /** The record held in memory under a path. */
    method FindEntity(path: Option<string>, ghost list: seq<Uri>) returns (matched: Option<Entity>)
      requires Mirrors(attachments, store.contents, list)
      requires forall u :: u in list ==> u in store.contents
      ensures
        var u := Find(store.contents, list, path);
        matched == if u.None? then None else Some(Entity(u.value, store.contents[u.value]))
      ensures matched.Some? ==>
        matched.value.row.ordinal in attachments || !Ordered(store.contents, parentKey, list)
    {
      matched := None;
      var count := InternalGetAttachmentCount();
      assert |list| > 0 ==> |list| in attachments;
      var i := 1;
      while i <= count
        invariant 1 <= i <= count + 1
        invariant Find(store.contents, list, path) == Find(store.contents, list[i - 1..], path)
      {
        assert list[i - 1..][1..] == list[i..];
        if attachments[i].row.path == path {
          matched := Some(attachments[i]);
          assert list[i - 1] in list;
          return;
        }
        i := i + 1;
      }
    }

    /** The datastore will not fail to delete these parts in one call. */
    ghost predicate Deletable(s: State, parts: seq<Uri>)
      requires Readable(s, parts)
      reads store
    {
      forall p :: p in DeletePuts(s, parts) ==> p !in store.manyFail
    }

    /** Deletion of the parts in one call failed, and going on one by one did not get to the end. */
    ghost predicate GaveUp(s: State, parts: seq<Uri>)
      requires Readable(s, parts)
      reads store
    {
      exists i :: DeleteHelper.Aborted(s, Now(), DeletePuts(s, parts), store.manyFail, store.oneFails, i)
    }

    /** Drops the parts that a content has. */
    method DropOldParts(u: Uri, ghost listed: seq<Uri>) returns (ok: bool)
      requires Resolves(Now()) && Lists(Now(), u, listed) && Readable(Now(), listed) && store.AllRelations()
      modifies store`contents, store`refs, store`blobs, store`journal
      ensures ok ==> Now() == Replay(old(Now()), DeletePuts(old(Now()), listed))
      ensures Deletable(old(Now()), listed) ==>
        ok && store.Wrote(old(Now()), old(store.journal), DeletePuts(old(Now()), listed))
      ensures !ok ==> GaveUp(old(Now()), listed)
    {
      hide DeletePuts, Journal.Replay, PartKeys;
      var b, parts := BlobManipulator.Read(store, u);
      OneListing(Now(), u, listed, parts);
      var keys := b.value.RecursivelyAddEntityKeysForDeletion([], Now(), parts);
      assert [] + PartKeys(store.refs, parts) == PartKeys(store.refs, parts);
      PartKeysDrop(Now(), parts);
      forall k | k in Reversed(keys) ensures Drop(k) in DeletePuts(Now(), parts) { DropsAre(Reversed(keys), k); }
      ghost var s := Now();
      ok := DeleteHelper.DeleteEntities(store, keys);
      if !ok {
        ghost var i :| DeleteHelper.Aborted(s, Now(), Drops(Reversed(keys)), store.manyFail, store.oneFails, i);
        assert DeleteHelper.Aborted(s, Now(), DeletePuts(s, listed), store.manyFail, store.oneFails, i);
      }
    }

    /**
      Writes the record with a null hash, drops the parts it has, writes the new parts, and
      writes the record with its hash.
     */
    method ReplaceContent(u: Uri, c: Content, byteArray: Bytes, ghost listed: seq<Uri>) returns (ok: bool)
      requires blobLimit > 0
      requires Resolves(Now()) && Lists(Now(), u, listed) && Readable(Now(), listed) && store.AllRelations()
      modifies store`contents, store`refs, store`blobs, store`journal, uris
      ensures
        var ps := ReplaceCommands(md5, old(Now()), u, c, listed, byteArray, blobLimit, old(uris.next));
        && (ok ==> Now() == Replay(old(Now()), ps))
        && (Deletable(old(Now()), listed) ==> ok && store.Wrote(old(Now()), old(store.journal), ps))
      ensures ok ==> uris.next == old(uris.next) + 2 * |Chunks(byteArray, blobLimit)|
      ensures !ok ==> GaveUp(Apply(old(Now()), PutContent(u, c)), listed)
    {
      hide DeletePuts, UploadPuts, Chunks, Journal.Replay;
      ghost var s, j := Now(), store.journal;
      ghost var dels, ups := DeletePuts(s, listed), UploadPuts(Chunks(byteArray, blobLimit), u, 1, uris.next);
      var done := c.(hash := Some(md5(byteArray)));
      FourPhases(s, PutContent(u, c), dels, ups, PutContent(u, done), j);
      store.PutContent(u, c);
      DeletePutsSame(s, Now(), listed);
      ok := DropOldParts(u, listed);
      if !ok { return; }
      var subBlob := new BlobManipulator.Write(store, uris, blobLimit, byteArray, u);
      store.PutContent(u, done);
    }

    /** The datastore will not fail to delete what the plan replaces. */
    ghost predicate Unfailing(s: State, plan: Plan)
      reads store
    {
      plan.Upload? ==> Deletable(s, PartsOf(s, plan.u))
    }

    /**
      The store is as the writes of `plan` leave it.  They are also what was written, unless
      some part had to be deleted more than once.
     */
    ghost predicate Did(s: State, j: seq<Put>, next: nat, plan: Plan)
      reads this, store, uris
    {
      && blobLimit > 0 && uris.next == Later(plan, blobLimit, next)
      && Now() == Replay(s, Commands(md5, s, plan, blobLimit))
      && (Unfailing(s, plan) ==> store.journal == j + Commands(md5, s, plan, blobLimit))
    }

    /** The record has lost its hash, and its old parts could not all be deleted. */
    ghost predicate HalfWay(s: State, plan: Plan)
      reads store
    {
      plan.Upload? && !Unfailing(s, plan) && GaveUp(Apply(s, PutContent(plan.u, plan.c)), PartsOf(s, plan.u))
    }

    /** What an operation that is not refused holds in memory afterwards. */
    function HeldAfter(held: map<nat, Entity>, plan: Plan): map<nat, Entity> {
      if plan.Idle? then held else held[Final(md5, plan).ordinal := Entity(plan.u, Final(md5, plan))]
    }

    lemma StillSound(s: State, j: seq<Put>, op: Op, next: nat)
      requires blobLimit > 0 && AllOk(md5, s) && Used(s, next)
      requires Did(s, j, next, PlanOf(md5, s, parentKey, op, next))
      ensures AllOk(md5, Now()) && Used(Now(), uris.next)
    {
      hide AllOk, Used, PlanOf, Commands, Journal.Replay, Later;
      PlanEnds(md5, s, parentKey, op, blobLimit, next, Now());
    }

    lemma StillValid(s: State, j: seq<Put>, held: map<nat, Entity>, op: Op, next: nat)
      requires blobLimit > 0 && AllOk(md5, s) && Used(s, next) && Mirrors(held, s.contents, ListOf(s, parentKey))
      requires Did(s, j, next, PlanOf(md5, s, parentKey, op, next))
      requires attachments == HeldAfter(held, PlanOf(md5, s, parentKey, op, next)) && store.AllRelations()
      ensures Valid()
    {
      hide AllOk, Used, PlanOf, Mirrors, Commands, Joining, Journal.Replay, Later;
      var plan := PlanOf(md5, s, parentKey, op, next);
      PlanEnds(md5, s, parentKey, op, blobLimit, next, Now());
      if !plan.Idle? {
        MirrorsPut(held, s, parentKey, ListOf(s, parentKey), plan.u, Final(md5, plan), store.contents);
      }
    }

    /** Adds a record for the path without any file. */
    method AddPlaceholder(matched: Option<Entity>, path: Option<string>, overwriteOK: bool)
      returns (r: Result<Outcome, Error>)
      requires blobLimit > 0 && Mirrors(attachments, store.contents, List())
      requires matched.Some? <==> Find(store.contents, List(), path).Some?
      modifies this, store`contents, store`journal, uris
      ensures
        var plan := PlanOf(md5, old(Now()), parentKey, Save(None, None, path, overwriteOK), old(uris.next));
        && Did(old(Now()), old(store.journal), old(uris.next), plan)
        && plan.answer == (if r.Ok? then Saved(r.value) else Failed(r.error))
        && attachments == HeldAfter(old(attachments), plan) && !refreshBeforeUse == old(!refreshBeforeUse)
    {
      hide Journal.Replay, ReplaceCommands, PartsOf, SetOk, Attached, Mirrors;
      ghost var plan := PlanOf(md5, Now(), parentKey, Save(None, None, path, overwriteOK), uris.next);
      if plan.Idle? { NothingPlanned(plan); }
      if matched.Some? { return Ok(FileUnchanged); }
      if !Fits(path, MAX_PATH) { return Err(Overflow); }
      var count := InternalGetAttachmentCount();
      CountIs(attachments, store.contents, List());
      var row := Content(parentKey, count + 1, path, None, None, None);
      Journal.One(Apply, Now(), PutContent(uris.next, row), 1);
      var uri := uris.NewUri();
      store.PutContent(uri, row);
      attachments := attachments[row.ordinal := Entity(uri, row)];
      return Ok(CompletelyNewFile);
    }

    lemma NothingPlanned(plan: Plan)
      requires blobLimit > 0 && plan.Idle?
      ensures Did(Now(), store.journal, uris.next, plan)
    {
      assert store.journal + [] == store.journal;
    }

    /** The writes of an upload into `u` carry out its plan. */
    lemma ReplacedAsPlanned(s: State, j: seq<Put>, next: nat, plan: Plan)
      requires blobLimit > 0 && plan.Upload?
      requires
        var ps := ReplaceCommands(md5, s, plan.u, plan.c, PartsOf(s, plan.u), plan.bytes, blobLimit, plan.first);
        && Now() == Replay(s, ps)
        && (Deletable(s, PartsOf(s, plan.u)) ==> store.journal == j + ps)
      requires uris.next == plan.first + 2 * |Chunks(plan.bytes, blobLimit)|
      ensures Did(s, j, next, plan)
    {
    }

    /** Carries out an upload that is planned, and holds the record with its hash. */
    method StoreFile(uri: Uri, row: Content, byteArray: Bytes, ghost plan: Plan, ghost next: nat) returns (ok: bool)
      requires blobLimit > 0 && plan.Upload? && plan.u == uri && plan.c == row && plan.bytes == byteArray
      requires plan.first == uris.next
      requires Resolves(Now()) && Lists(Now(), uri, PartsOf(Now(), uri)) && Readable(Now(), PartsOf(Now(), uri))
      requires store.AllRelations()
      modifies this`attachments, store`contents, store`refs, store`blobs, store`journal, uris
      ensures ok ==> Did(old(Now()), old(store.journal), next, plan) && attachments == HeldAfter(old(attachments), plan)
      ensures !ok ==> HalfWay(old(Now()), plan)
    {
      hide Journal.Replay, ReplaceCommands, Chunks, PartsOf, Commands, Later;
      ghost var s, j := Now(), store.journal;
      ok := ReplaceContent(uri, row, byteArray, PartsOf(s, uri));
      if !ok { return; }
      ReplacedAsPlanned(s, j, next, plan);
      attachments := attachments[row.ordinal := Entity(uri, row.(hash := Some(md5(byteArray))))];
    }

    /** Writes the file into a new record, into one without a file, or over another file. */
    method SaveFile(
        matched: Option<Entity>, byteArray: Bytes, contentType: Option<string>, path: Option<string>,
        overwriteOK: bool)
      returns (r: Result<Outcome, Error>)
      requires Valid() && !refreshBeforeUse && contentType.Some?
      requires
        var u := Find(store.contents, List(), path);
        matched == if u.None? then None else Some(Entity(u.value, store.contents[u.value]))
      modifies this, store`contents, store`refs, store`blobs, store`journal, uris
      ensures
        var plan := PlanOf(
          md5, old(Now()), parentKey, Save(Some(byteArray), contentType, path, overwriteOK), old(uris.next));
        && (r == Err(NotDeleted) ==> HalfWay(old(Now()), plan))
        && (r != Err(NotDeleted) ==>
              && Did(old(Now()), old(store.journal), old(uris.next), plan)
              && plan.answer == (if r.Ok? then Saved(r.value) else Failed(r.error)))
        && (r.Ok? ==> attachments == HeldAfter(old(attachments), plan) && !refreshBeforeUse)
    {
      hide AllOk, Used, Mirrors, Commands, Later, Lists, HalfWay;
      ghost var s, j, next := Now(), store.journal, uris.next;
      ghost var plan := PlanOf(md5, s, parentKey, Save(Some(byteArray), contentType, path, overwriteOK), next);
      if plan.Idle? { NothingPlanned(plan); }
      var md5Hash := md5(byteArray);
      var newBc := matched.None?;
      var stored := if newBc then None else matched.value.row.hash;
      if stored == Some(md5Hash) { return Ok(FileUnchanged); }
      if stored.Some? && !overwriteOK { return Ok(NewFileVersion); }
      if newBc && !Fits(path, MAX_PATH) { return Err(Overflow); }
      var count := InternalGetAttachmentCount();
      CountIs(attachments, store.contents, List());
      var row := if newBc then Content(parentKey, count + 1, path, None, None, None) else matched.value.row;
      row := row.(hash := None);
      if !Fits(contentType, MAX_CONTENT_TYPE) {
        if !newBc {
          // the record in memory has lost its hash and holds what fits of the content type
          var kept := contentType.value[..MAX_CONTENT_TYPE];
          attachments := attachments[row.ordinal := Entity(matched.value.uri, row.(contentType := Some(kept)))];
        }
        return Err(Overflow);
      }
      row := row.(contentType := contentType, length := Some(|byteArray|));
      UploadTarget(s, parentKey, Save(Some(byteArray), contentType, path, overwriteOK), next);
      var uri;
      if newBc { uri := uris.NewUri(); } else { uri := matched.value.uri; }
      assert plan.Upload? && plan.u == uri && plan.c == row && plan.bytes == byteArray && plan.first == uris.next;
      var done := StoreFile(uri, row, byteArray, plan, next);
      if !done { return Err(NotDeleted); }
      return Ok(if stored.Some? then NewFileVersion else CompletelyNewFile);
    }

    lemma UploadTarget(s: State, parent: Uri, op: Op, next: nat)
      requires AllOk(md5, s) && Used(s, next)
      ensures
        var plan := PlanOf(md5, s, parent, op, next);
        plan.Upload? ==> Resolves(s) && Lists(s, plan.u, PartsOf(s, plan.u)) && Readable(s, PartsOf(s, plan.u))
    {
      hide PlanOf, Used, Joining, Lists;
      assert SetOk(s, parent);
      PlanJoins(md5, s, parent, op, next);
      var plan := PlanOf(md5, s, parent, op, next);
      if plan.Upload? { PartsOfListed(md5, s, plan.u, next); }
    }

    /**
      Adds a placeholder, or saves the bytes under the path.  A stored file with other bytes is
      replaced only if `overwriteOK`.
     */
    method SetValueFromByteArray(
        byteArray: Option<Bytes>, contentType: Option<string>, path: Option<string>, overwriteOK: bool)
      returns (r: Result<Outcome, Error>)
      requires Valid()
      modifies this, store`contents, store`refs, store`blobs, store`journal, uris
      ensures
        var plan := PlanOf(
          md5, old(Now()), parentKey, Save(byteArray, contentType, path, overwriteOK), old(uris.next));
        && (r == Err(NotDeleted) ==> HalfWay(old(Now()), plan))
        && (r != Err(NotDeleted) ==>
              && Did(old(Now()), old(store.journal), old(uris.next), plan)
              && plan.answer == (if r.Ok? then Saved(r.value) else Failed(r.error)))
      ensures r != Err(NotDeleted) ==> AllOk(md5, Now()) && Used(Now(), uris.next)
      ensures r.Ok? ==> Valid()
    {
      hide AllOk, Used, Mirrors, Did, HalfWay, HeldAfter;
      ghost var s, j, next := Now(), store.journal, uris.next;
      ghost var op := Save(byteArray, contentType, path, overwriteOK);
      var error := UpdateAttachments();
      ghost var held := attachments;
      var matched := FindEntity(path, List());
      if byteArray.None? && contentType.None? {
        r := AddPlaceholder(matched, path, overwriteOK);
      } else if byteArray.Some? && contentType.Some? {
        r := SaveFile(matched, byteArray.value, contentType, path, overwriteOK);
      } else {
        NothingPlanned(PlanOf(md5, s, parentKey, op, next));
        r := Err(IllegalArgument);
      }
      if r == Err(NotDeleted) { return; }
      StillSound(s, j, op, next);
      if r.Ok? { StillValid(s, j, held, op, next); }
    }

    /** Gives the record that has the path `src` the path `dest`. */
    method ChangePath(matchedSrc: Option<Entity>, matchedDest: Option<Entity>, src: Option<string>, dest: Option<string>)
      returns (r: Result<bool, Error>)
      requires Valid() && !refreshBeforeUse && src != dest
      requires
        var u := Find(store.contents, List(), src);
        matchedSrc == if u.None? then None else Some(Entity(u.value, store.contents[u.value]))
      requires matchedDest.Some? <==> Find(store.contents, List(), dest).Some?
      modifies this, store`contents, store`journal
      ensures
        var plan := PlanOf(md5, old(Now()), parentKey, Rename(src, dest), uris.next);
        && Did(old(Now()), old(store.journal), uris.next, plan)
        && plan.answer == (if r.Ok? then Renamed(r.value) else Failed(r.error))
        && (r.Ok? ==> attachments == HeldAfter(old(attachments), plan) && !refreshBeforeUse)
    {
      hide Inv, Mirrors, SetOk;
      ghost var plan := PlanOf(md5, Now(), parentKey, Rename(src, dest), uris.next);
      if plan.Idle? { NothingPlanned(plan); }
      if matchedSrc.Some? && matchedDest.Some? { return Ok(false); }
      if matchedSrc.None? { return Ok(true); }
      var uri, row := matchedSrc.value.uri, matchedSrc.value.row;
      if !Fits(dest, MAX_PATH) {
        // the record in memory holds what fits of the path
        var kept := row.(path := Some(dest.value[..MAX_PATH]));
        attachments := attachments[row.ordinal := Entity(uri, kept)];
        return Err(Overflow);
      }
      row := row.(path := dest);
      Journal.One(Apply, Now(), PutContent(uri, row), 1);
      store.PutContent(uri, row);
      attachments := attachments[row.ordinal := Entity(uri, row)];
      return Ok(true);
    }

    /** Changes the path of a record unless another record has the new path. */
    method RenameFilePath(src: Option<string>, dest: Option<string>) returns (r: Result<bool, Error>)
      requires Valid()
      modifies this, store`contents, store`journal
      ensures
        var plan := PlanOf(md5, old(Now()), parentKey, Rename(src, dest), uris.next);
        && Did(old(Now()), old(store.journal), uris.next, plan)
        && plan.answer == (if r.Ok? then Renamed(r.value) else Failed(r.error))
      ensures AllOk(md5, Now()) && Used(Now(), uris.next)
      ensures r.Ok? ==> Valid()
    {
      hide AllOk, Used, Mirrors, Did, HeldAfter;
      ghost var s, j := Now(), store.journal;
      ghost var op := Rename(src, dest);
      if src == dest {
        NothingPlanned(PlanOf(md5, s, parentKey, op, uris.next));
        return Ok(true);
      }
      var error := UpdateAttachments();
      ghost var held := attachments;
      var matchedSrc := FindEntity(src, List());
      var matchedDest := FindEntity(dest, List());
      r := ChangePath(matchedSrc, matchedDest, src, dest);
      StillSound(s, j, op, uris.next);
      if r.Ok? { StillValid(s, j, held, op, uris.next); }
    }

    /** The bytes of the attachment with this ordinal. */
    method GetBlob(ordinal: nat) returns (r: Result<Bytes, Error>)
      requires Valid()
      modifies this
      ensures Valid() && Now() == old(Now())
      ensures r.Ok? <==> 1 <= ordinal <= |List()|
      ensures r.Err? ==> r.error == MissingAttachment
      ensures r.Ok? ==>
        var u := List()[ordinal - 1];
        && u in store.contents && Reads(Now(), u, PartsOf(Now(), u), r.value)
        && (store.contents[u].hash.Some? ==>
              store.contents[u].hash == Some(md5(r.value)) && store.contents[u].length == Some(|r.value|))
    {
      var error := UpdateAttachments();
      if ordinal !in attachments { return Err(MissingAttachment); }
      var entity := attachments[ordinal];
      ghost var s := Now();
      assert entity.uri in List();
      PartsReadable(s, entity.uri);
      var b, parts := BlobManipulator.Read(store, entity.uri);
      OneListing(s, entity.uri, parts, PartsOf(s, entity.uri));
      LoadedJoins(s, parts, b.value.refList, b.value.blobList);
      var bytes := b.value.GetBlob();
      return Ok(bytes);
    }

    /** The keys of the records `list` and, if one is complete, before it those of its parts. */
    method CollectKeys(ghost list: seq<Uri>) returns (keyList: seq<Key>)
      requires Inv(md5, Now()) && Mirrors(attachments, store.contents, list)
      requires forall u :: u in list ==> u in store.contents
      ensures keyList == AllKeys(Now(), list)
    {
      hide Inv, PartsOf, PartKeys, AllKeys;
      keyList := [];
      ghost var s := Now();
      var count := InternalGetAttachmentCount();
      CountIs(attachments, store.contents, list);
      NoKeys(s);
      var i := 1;
      while i <= count
        invariant 1 <= i <= count + 1
        invariant keyList == AllKeys(s, list[..i - 1])
      {
        var entity := attachments[i];
        AllKeysMore(s, list, i - 1);
        keyList := AddKeys(entity, keyList);
        i := i + 1;
      }
      assert list[..count] == list;
    }

    /** Reads the records if need be, which may find their ordinals out of place, and collects their keys. */
    method RecursivelyAddEntityKeysForDeletion() returns (r: Result<seq<Key>, Error>, ghost list: seq<Uri>)
      requires Loose()
      modifies this
      ensures Loose() && !refreshBeforeUse && Sorted(store.contents, parentKey, list)
      ensures Mirrors(attachments, store.contents, list)
      ensures old(Valid()) ==> list == List() && Valid() && r.Ok?
      ensures r.Err? ==> old(refreshBeforeUse) && r.error == EnumeratedElement
      ensures r.Err? ==> forall l :: !Ordered(store.contents, parentKey, l)
      ensures r.Ok? ==> (forall u :: u in list ==> u in store.contents) && r.value == AllKeys(Now(), list)
    {
      hide Inv, Used, PartsOf, PartKeys, AllKeys, Sorted, Mirrors, AllOk;
      ghost var was := Valid();
      var error := UpdateAttachments();
      list :| Sorted(store.contents, parentKey, list) && Mirrors(attachments, store.contents, list);
      if was {
        ValidIsLoose();
        SameList(list);
      }
      if error.Some? { return Err(error.value), list; }
      SortedStored(store.contents, parentKey, list);
      var keyList := CollectKeys(list);
      r := Ok(keyList);
    }

    lemma SameList(list: seq<Uri>)
      requires Valid() && Sorted(store.contents, parentKey, list)
      ensures list == List()
    {
      assert SetOk(Now(), parentKey);
      AttachedIsOrdered(Now(), parentKey, List());
      OrderedHits(store.contents, parentKey, list, List());
    }

    /** The keys of one record, after those of its parts if it is complete. */
    method AddKeys(entity: Entity, keyList: seq<Key>) returns (keys: seq<Key>)
      requires Inv(md5, Now()) && entity.uri in store.contents && store.contents[entity.uri] == entity.row
      ensures keys == keyList
        + (if entity.row.hash.Some? then PartKeys(store.refs, PartsOf(Now(), entity.uri)) else [])
        + [ContentKey(entity.uri)]
    {
      keys := keyList;
      if entity.row.hash.Some? {
        PartsReadable(Now(), entity.uri);
        var b, parts := BlobManipulator.Read(store, entity.uri);
        OneListing(Now(), entity.uri, parts, PartsOf(Now(), entity.uri));
        keys := b.value.RecursivelyAddEntityKeysForDeletion(keys, Now(), parts);
      }
      keys := keys + [ContentKey(entity.uri)];
    }

    /**
      Deletes all attachments, also those with an ordinal out of place: the last record first,
      and each record before its parts.
     */
    method DeleteAll() returns (ok: bool, ghost list: seq<Uri>)
      requires Loose()
      modifies this, store`contents, store`refs, store`blobs, store`journal
      ensures Sorted(old(store.contents), parentKey, list) && (old(Valid()) ==> list == old(List()))
      ensures (forall p :: p in DeleteAllPuts(old(Now()), list) ==> p !in store.manyFail) ==>
        ok && store.Wrote(old(Now()), old(store.journal), DeleteAllPuts(old(Now()), list))
      ensures ok ==> Now() == Replay(old(Now()), DeleteAllPuts(old(Now()), list)) && attachments == map[]
      ensures ok && old(Valid()) ==> Valid()
      ensures !ok ==> exists i :: DeleteHelper.Aborted(
        old(Now()), Now(), DeleteAllPuts(old(Now()), list), store.manyFail, store.oneFails, i)
      ensures refreshBeforeUse <==> !ok
    {
      hide AllOk, Used, Mirrors, DeleteAllPuts, AllKeys, Journal.Replay, Sorted, Inv;
      ghost var s, was := Now(), Valid();
      // problems with the ordinals do not matter, as everything is deleted
      var error := UpdateAttachments();
      var keys;
      keys, list := RecursivelyAddEntityKeysForDeletion();
      AllKeysDrop(s, list);
      forall k | k in Reversed(keys.value) ensures Drop(k) in DeleteAllPuts(s, list) {
        DropsAre(Reversed(keys.value), k);
      }
      ok := DeleteHelper.DeleteEntities(store, keys.value);
      refreshBeforeUse := !ok;
      if ok {
        attachments := map[];
        if was { AllDeleted(md5, s, parentKey, uris.next, Now()); }
      } else {
        ghost var i :| DeleteHelper.Aborted(
          s, Now(), Drops(Reversed(keys.value)), store.manyFail, store.oneFails, i);
        assert DeleteHelper.Aborted(s, Now(), DeleteAllPuts(s, list), store.manyFail, store.oneFails, i);
      }
    }

    lemma PartsReadable(s: State, u: Uri)
      requires Inv(md5, s) && u in s.contents
      ensures Whole(s, u) && PartsOk(md5, s, u, PartsOf(s, u))
    {
      var l :| PartsOk(md5, s, u, l);
      PartsOfIs(s, u, l);
    }
  }

  lemma SortedStored(contents: map<Uri, Content>, parent: Uri, list: seq<Uri>)
    requires Sorted(contents, parent, list)
    ensures forall u :: u in list ==> u in contents
  {
  }

  lemma CountIs(held: map<nat, Entity>, contents: map<Uri, Content>, list: seq<Uri>)
    requires Mirrors(held, contents, list)
    ensures |list| > 0 ==> |list| in held
    ensures forall k :: k in held ==> k <= |list|
    ensures list == [] ==> held == map[]
  {
    if |list| > 0 { assert |list| in held; }
  }

  lemma AllDeleted(md5: Digest, s: State, parent: Uri, next: nat, s': State)
    requires AllOk(md5, s) && Used(s, next) && s' == Replay(s, DeleteAllPuts(s, ListOf(s, parent)))
    ensures AllOk(md5, s') && Used(s', next) && ListOf(s', parent) == []
    ensures Mirrors(map[], s'.contents, ListOf(s', parent))
  {
    hide DeleteAllPuts, Inv;
    var ps := DeleteAllPuts(s, ListOf(s, parent));
    assert SetOk(s, parent);
    DeleteAllStopsSafely(md5, s, parent, next, |ps|);
    Journal.CrashAll(Apply, s, ps, |ps|);
    DeletionLeaves(md5, s, ListOf(s, parent));
    assert Attached(s', parent, []);
    ListOfIs(s', parent, []);
  }
}
