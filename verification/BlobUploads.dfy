/** An upload, and the deletion of a whole attachment set, stopped after any number of their writes. */
module BlobUploads {
  import Journal
  import opened Wrappers
  import opened BlobStore
  import opened BlobSteps

  // ----- cutting and joining -----

  lemma {:induction false} ConcatChunks(bytes: Bytes, limit: nat)
    requires limit > 0
    ensures Concat(Chunks(bytes, limit)) == bytes
    decreases |bytes|
  {
    if bytes == [] {
    } else if |bytes| <= limit {
      assert Concat([bytes]) == bytes + Concat([]);
    } else {
      ConcatChunks(bytes[limit..], limit);
      assert Chunks(bytes, limit)[1..] == Chunks(bytes[limit..], limit);
      assert bytes[..limit] + bytes[limit..] == bytes;
    }
  }

  /** Every part but the last is full, and none is empty. */
  lemma {:induction false} ChunkSizes(bytes: Bytes, limit: nat, i: nat)
    requires limit > 0 && i < |Chunks(bytes, limit)|
    ensures 0 < |Chunks(bytes, limit)[i]| <= limit
    ensures i < |Chunks(bytes, limit)| - 1 ==> |Chunks(bytes, limit)[i]| == limit
    decreases |bytes|
  {
    if |bytes| > limit && i > 0 { ChunkSizes(bytes[limit..], limit, i - 1); }
  }

  // ----- dropping parts -----

  lemma {:induction false} DeletePutsSame(s: State, s': State, parts: seq<Uri>)
    requires forall r :: r in parts ==> r in s.refs && r in s'.refs && s.refs[r] == s'.refs[r]
    ensures DeletePuts(s, parts) == DeletePuts(s', parts)
  {
    if parts != [] { DeletePutsSame(s, s', parts[..|parts| - 1]); }
  }

  lemma CrashTwo(s: State, p: Put, q: Put, rest: seq<Put>, k: nat)
    ensures Crash(s, [p, q] + rest, k) ==
      if k == 0 then s else if k == 1 then Apply(s, p) else Crash(Apply(Apply(s, p), q), rest, k - 2)
  {
    assert ([p, q] + rest)[1..] == [q] + rest && ([q] + rest)[1..] == rest;
    Journal.First(Apply, s, [p, q] + rest, k);
    Journal.First(Apply, Apply(s, p), [q] + rest, if k == 0 then 0 else k - 1);
  }

  lemma DropOne(
      md5: Digest, s0: State, s: State, u: Uri, c: Option<Content>, parts: seq<Uri>, r: Uri, b: Uri, s1: State, s2: State)
    requires InFlight(md5, s0, s, u, c, parts) && parts != [] && Readable(s, parts)
    requires r == parts[|parts| - 1] && b == s.refs[r].sub
    requires s1 == Apply(s, DropRef(r)) && s2 == Apply(s1, DropBlob(b))
    ensures InFlight(md5, s0, s1, u, c, parts[..|parts| - 1])
    ensures InFlight(md5, s0, s2, u, c, parts[..|parts| - 1])
    ensures Readable(s2, parts[..|parts| - 1])
    ensures DeletePuts(s, parts[..|parts| - 1]) == DeletePuts(s2, parts[..|parts| - 1])
  {
    hide Inv, OthersSame, Recorded, Lists, Resolves, Unreferenced;
    var front := parts[..|parts| - 1];
    StepDropRef(md5, s0, s, u, c, parts);
    StepDropBlob(md5, s0, s1, u, c, front, b);
    ListedReadable(s2, u, front);
    hide InFlight;
    DeletePutsSame(s, s2, front);
  }

  lemma DropUsed(s: State, r: Uri, b: Uri, next: nat)
    requires Used(s, next)
    ensures Used(Apply(s, DropRef(r)), next) && Used(Apply(s, DropBlob(b)), next)
  {
  }

  /** Where a worker on the parts of `u` may stop: its record and all other contents are untouched. */
  ghost predicate Stops(
      md5: Digest, s0: State, s: State, s': State, u: Uri, c: Option<Content>, parts: seq<Uri>, next: nat)
  {
    InFlight(md5, s0, s', u, c, parts) && Used(s', next) && s'.contents == s.contents
  }

  lemma StopsAt(
      md5: Digest, s0: State, s: State, s': State, u: Uri, c: Option<Content>, parts: seq<Uri>, next: nat)
    requires s'.contents == s.contents
    ensures InFlight(md5, s0, s', u, c, parts) && Used(s', next) ==> Stops(md5, s0, s, s', u, c, parts, next)
  {
  }

  lemma StopsLater(
      md5: Digest, s0: State, s: State, s1: State, s': State, u: Uri, c: Option<Content>, parts: seq<Uri>,
      next: nat)
    requires Stops(md5, s0, s1, s', u, c, parts, next) && s1.contents == s.contents
    ensures Stops(md5, s0, s, s', u, c, parts, next)
  {
  }

  /** Dropping the parts of a content, stopped anywhere. */
  lemma {:induction false} DropParts(
      md5: Digest, s0: State, s: State, u: Uri, c: Option<Content>, parts: seq<Uri>, next: nat, k: nat, s': State)
      returns (left: seq<Uri>)
    requires InFlight(md5, s0, s, u, c, parts) && Used(s, next) && Readable(s, parts)
    requires s' == Crash(s, DeletePuts(s, parts), k)
    ensures Stops(md5, s0, s, s', u, c, left, next)
    ensures k >= |DeletePuts(s, parts)| ==> left == []
    decreases |parts|
  {
    hide InFlight, Used;
    left := parts;
    if parts != [] {
      var n := |parts| - 1;
      var r, front := parts[n], parts[..n];
      var b := s.refs[r].sub;
      var s1 := Apply(s, DropRef(r));
      var s2 := Apply(s1, DropBlob(b));
      DropOne(md5, s0, s, u, c, parts, r, b, s1, s2);
      hide Stops;
      StopsAt(md5, s0, s, s, u, c, parts, next);
      StopsAt(md5, s0, s, s1, u, c, front, next);
      DropUsed(s, r, b, next);
      DropUsed(s1, r, b, next);
      CrashTwo(s, DropRef(r), DropBlob(b), DeletePuts(s, front), k);
      if k == 1 { left := front; }
      if k >= 2 {
        left := DropParts(md5, s0, s2, u, c, front, next, k - 2, s');
        StopsLater(md5, s0, s, s2, s', u, c, left, next);
      }
    }
  }

  // ----- writing parts -----

  lemma StepPart(
      md5: Digest, s0: State, s: State, u: Uri, c: Option<Content>, parts: seq<Uri>, chunk: Bytes, next: nat,
      s1: State, s2: State)
    requires InFlight(md5, s0, s, u, c, parts) && Used(s, next)
    requires s1 == Apply(s, PutBlob(next, chunk))
    requires s2 == Apply(s1, PutRef(next + 1, Ref(u, next, |parts| + 1)))
    ensures InFlight(md5, s0, s1, u, c, parts)
    ensures InFlight(md5, s0, s2, u, c, parts + [next + 1])
  {
    hide Inv, OthersSame, Recorded, Resolves, Lists;
    StepPutBlob(md5, s0, s, u, c, parts, next, chunk);
    StepPutRef(md5, s0, s1, u, c, parts, next + 1, next);
  }

  lemma PartUsed(s: State, u: Uri, part: nat, chunk: Bytes, next: nat)
    requires Used(s, next) && u < next
    ensures
      var s1 := Apply(s, PutBlob(next, chunk));
      Used(s1, next + 2) && Used(Apply(s1, PutRef(next + 1, Ref(u, next, part))), next + 2)
  {
  }

  lemma PartJoins(s: State, u: Uri, parts: seq<Uri>, chunk: Bytes, next: nat, s1: State, s2: State)
    requires Used(s, next) && Readable(s, parts)
    requires s1 == Apply(s, PutBlob(next, chunk))
    requires s2 == Apply(s1, PutRef(next + 1, Ref(u, next, |parts| + 1)))
    ensures Readable(s2, parts + [next + 1])
    ensures Joined(s2, parts + [next + 1]) == Joined(s, parts) + chunk
  {
    forall r | r in parts ensures r in s2.refs && s2.refs[r].sub in s2.blobs && SamePart(s, s2, r) {
      assert r < next;
    }
    JoinedSame(s, s2, parts);
    assert (parts + [next + 1])[..|parts|] == parts;
  }

  lemma WriteFew(
      md5: Digest, s0: State, s: State, u: Uri, c: Option<Content>, parts: seq<Uri>, chunks: seq<Bytes>,
      next: nat, k: nat, s': State)
    requires InFlight(md5, s0, s, u, c, parts) && Used(s, next) && u < next && Readable(s, parts)
    requires s' == Crash(s, UploadPuts(chunks, u, |parts| + 1, next), k)
    requires chunks == [] || k < 2
    ensures Stops(md5, s0, s, s', u, c, parts, next + 2 * |chunks|)
    ensures k >= 2 * |chunks| ==> Joins(s', parts, Joined(s, parts) + Concat(chunks))
  {
    hide InFlight, Readable, Joins;
    UsedMore(s, next, next + 2 * |chunks|);
    if chunks == [] {
      JoinsNothing(s, parts);
    } else {
      var ref := Ref(u, next, |parts| + 1);
      var s1 := Apply(s, PutBlob(next, chunks[0]));
      StepPart(md5, s0, s, u, c, parts, chunks[0], next, s1, Apply(s1, PutRef(next + 1, ref)));
      PartUsed(s, u, |parts| + 1, chunks[0], next);
      UsedMore(s1, next + 2, next + 2 * |chunks|);
      CrashTwo(s, PutBlob(next, chunks[0]), PutRef(next + 1, ref),
               UploadPuts(chunks[1..], u, |parts| + 2, next + 2), k);
    }
  }

  /** Writing the parts of a content, stopped anywhere. */
  lemma {:induction false} WriteParts(
      md5: Digest, s0: State, s: State, u: Uri, c: Option<Content>, parts: seq<Uri>, chunks: seq<Bytes>,
      next: nat, k: nat, s': State)
      returns (now: seq<Uri>)
    requires InFlight(md5, s0, s, u, c, parts) && Used(s, next) && u < next && Readable(s, parts)
    requires s' == Crash(s, UploadPuts(chunks, u, |parts| + 1, next), k)
    ensures Stops(md5, s0, s, s', u, c, now, next + 2 * |chunks|)
    ensures k >= 2 * |chunks| ==> Joins(s', now, Joined(s, parts) + Concat(chunks))
    decreases |chunks|
  {
    hide InFlight, Readable, Joins, Stops, Used;
    if chunks == [] || k < 2 {
      now := parts;
      WriteFew(md5, s0, s, u, c, parts, chunks, next, k, s');
    } else {
      var ref, rest := Ref(u, next, |parts| + 1), chunks[1..];
      var s1 := Apply(s, PutBlob(next, chunks[0]));
      var s2 := Apply(s1, PutRef(next + 1, ref));
      StepPart(md5, s0, s, u, c, parts, chunks[0], next, s1, s2);
      PartUsed(s, u, |parts| + 1, chunks[0], next);
      PartJoins(s, u, parts, chunks[0], next, s1, s2);
      CrashTwo(s, PutBlob(next, chunks[0]), PutRef(next + 1, ref), UploadPuts(rest, u, |parts| + 2, next + 2), k);
      now := WriteParts(md5, s0, s2, u, c, parts + [next + 1], rest, next + 2, k - 2, s');
      StopsLater(md5, s0, s, s2, s', u, c, now, next + 2 * |chunks|);
      JoinsMore(Joined(s, parts), chunks);
    }
  }

  lemma JoinsNothing(s: State, parts: seq<Uri>)
    requires Readable(s, parts)
    ensures Joins(s, parts, Joined(s, parts) + Concat([]))
  {
    assert Joined(s, parts) + [] == Joined(s, parts);
  }

  lemma UsedMore(s: State, next: nat, later: nat)
    requires Used(s, next) && next <= later
    ensures Used(s, later)
  {
  }

  lemma JoinsMore(bytes: Bytes, chunks: seq<Bytes>)
    requires chunks != []
    ensures (bytes + chunks[0]) + Concat(chunks[1..]) == bytes + Concat(chunks)
  {
  }

  lemma {:induction false} UploadLength(chunks: seq<Bytes>, u: Uri, part: nat, next: nat)
    ensures |UploadPuts(chunks, u, part, next)| == 2 * |chunks|
  {
    if chunks != [] { UploadLength(chunks[1..], u, part + 1, next + 2); }
  }

  // ----- one upload -----

  /** The writes between the two of the record. */
  function PartPuts(s: State, u: Uri, parts: seq<Uri>, bytes: Bytes, limit: nat, next: nat): seq<Put>
    requires limit > 0 && forall r :: r in parts ==> r in s.refs
  {
    DeletePuts(s, parts) + UploadPuts(Chunks(bytes, limit), u, 1, next)
  }

  lemma WriteBytes(
      md5: Digest, s0: State, s: State, u: Uri, c: Option<Content>, bytes: Bytes, limit: nat, next: nat, k: nat,
      s': State)
      returns (now: seq<Uri>)
    requires limit > 0 && InFlight(md5, s0, s, u, c, []) && Used(s, next) && u < next
    requires s' == Crash(s, UploadPuts(Chunks(bytes, limit), u, 1, next), k)
    ensures Stops(md5, s0, s, s', u, c, now, next + 2 * |Chunks(bytes, limit)|)
    ensures k >= |UploadPuts(Chunks(bytes, limit), u, 1, next)| ==> Joins(s', now, bytes)
  {
    hide InFlight, Used, Stops, Joins, Journal.Crash;
    NothingReadable(s);
    UploadLength(Chunks(bytes, limit), u, 1, next);
    ConcatChunks(bytes, limit);
    now := WriteParts(md5, s0, s, u, c, [], Chunks(bytes, limit), next, k, s');
    assert [] + bytes == bytes;
  }

  /** Once the record has a null hash, its old parts are replaced by the new ones. */
  lemma BetweenRecords(
      md5: Digest, s0: State, s: State, u: Uri, c: Content, parts: seq<Uri>, bytes: Bytes, limit: nat, next: nat,
      k: nat, s': State)
      returns (now: seq<Uri>)
    requires limit > 0
    requires InFlight(md5, s0, s, u, Some(c), parts) && Used(s, next) && u < next && Readable(s, parts)
    requires s' == Crash(s, PartPuts(s, u, parts, bytes, limit, next), k)
    ensures Stops(md5, s0, s, s', u, Some(c), now, next + 2 * |Chunks(bytes, limit)|)
    ensures k >= |PartPuts(s, u, parts, bytes, limit, next)| ==> Joins(s', now, bytes)
  {
    hide InFlight, Used, Journal.Crash, Joins, Chunks, DeletePuts, UploadPuts;
    var dels, ups := DeletePuts(s, parts), UploadPuts(Chunks(bytes, limit), u, 1, next);
    var later := next + 2 * |Chunks(bytes, limit)|;
    Journal.CrashConcat(Apply, s, dels, ups, k);
    var s1 := Crash(s, dels, k);
    now := DropParts(md5, s0, s, u, Some(c), parts, next, k, s1);
    if k < |dels| {
      UsedMore(s1, next, later);
    } else {
      Journal.CrashAll(Apply, s, dels, k);
      now := WriteBytes(md5, s0, s1, u, Some(c), bytes, limit, next, k - |dels|, s');
      StopsLater(md5, s0, s, s1, s', u, Some(c), now, later);
    }
  }

  lemma NothingReadable(s: State)
    ensures Readable(s, []) && Joined(s, []) == []
  {
  }

  /** The content `u` carries the hash of `bytes`, and reading it gives `bytes`. */
  ghost predicate Holds(md5: Digest, s: State, u: Uri, bytes: Bytes) {
    && u in s.contents && s.contents[u].hash == Some(md5(bytes)) && s.contents[u].length == Some(|bytes|)
    && exists parts :: Reads(s, u, parts, bytes)
  }

  /** The stored records after the first `k` of `n` writes of an upload. */
  function RecordsAt(m: map<Uri, Content>, u: Uri, c: Content, hash: string, k: nat, n: nat): map<Uri, Content> {
    if k == 0 then m else m[u := if k < n then c else c.(hash := Some(hash))]
  }

  lemma SplitCrash(
      md5: Digest, s: State, u: Uri, c: Content, parts: seq<Uri>, bytes: Bytes, limit: nat, next: nat, k: nat)
    requires limit > 0 && Readable(s, parts) && k > 0
    ensures
      var mid := PartPuts(s, u, parts, bytes, limit, next);
      var s1 := Apply(s, PutContent(u, c));
      && mid == PartPuts(s1, u, parts, bytes, limit, next)
      && Crash(s, ReplaceCommands(md5, s, u, c, parts, bytes, limit, next), k)
         == if k < |mid| + 2 then Crash(s1, mid, k - 1)
            else Apply(Crash(s1, mid, k - 1), PutContent(u, c.(hash := Some(md5(bytes)))))
  {
    var mid, last := PartPuts(s, u, parts, bytes, limit, next), [PutContent(u, c.(hash := Some(md5(bytes))))];
    var s1 := Apply(s, PutContent(u, c));
    DeletePutsSame(s, s1, parts);
    assert ReplaceCommands(md5, s, u, c, parts, bytes, limit, next) == [PutContent(u, c)] + (mid + last);
    Journal.CrashConcat(Apply, s, [PutContent(u, c)], mid + last, k);
    Journal.CrashConcat(Apply, s1, mid, last, k - 1);
    Journal.One(Apply, s, PutContent(u, c), 0);
    if k - 1 >= |mid| {
      Journal.CrashAll(Apply, s1, mid, k - 1);
      Journal.One(Apply, Replay(s1, mid), last[0], k - 1 - |mid|);
    }
  }

  /**
    An upload stopped after `k` writes.  Other contents are as they were, everything that
    has a hash can be read, and an upload that is not stopped leaves exactly its bytes.
   */
  lemma UploadStopsSafely(
      md5: Digest, s: State, u: Uri, c: Content, parts: seq<Uri>, bytes: Bytes, limit: nat, next: nat, k: nat,
      s': State)
    requires limit > 0
    requires Inv(md5, s) && Used(s, next) && u < next && Lists(s, u, parts) && Readable(s, parts)
    requires c.hash == None && c.length == Some(|bytes|)
    requires s' == Crash(s, ReplaceCommands(md5, s, u, c, parts, bytes, limit, next), k)
    ensures Inv(md5, s') && OthersSame(s, s', u) && Used(s', next + 2 * |Chunks(bytes, limit)|)
    ensures
      var n := |ReplaceCommands(md5, s, u, c, parts, bytes, limit, next)|;
      && s'.contents == RecordsAt(s.contents, u, c, md5(bytes), k, n)
      && (k >= n ==> Holds(md5, s', u, bytes))
  {
    hide Inv, Journal.Crash, Chunks, ReplaceCommands, RecordsAt;
    var later := next + 2 * |Chunks(bytes, limit)|;
    ReplaceSize(md5, s, u, c, parts, bytes, limit, next);
    RecordsAre(s.contents, u, c, md5(bytes), k, |ReplaceCommands(md5, s, u, c, parts, bytes, limit, next)|);
    if k == 0 {
      Journal.Nothing(Apply, s, ReplaceCommands(md5, s, u, c, parts, bytes, limit, next), 0);
      OthersSameSelf(s, u);
      UsedMore(s, next, later);
    } else {
      SplitCrash(md5, s, u, c, parts, bytes, limit, next, k);
      StepStart(md5, s, u, c, parts);
      var s1 := Apply(s, PutContent(u, c));
      var mid := PartPuts(s, u, parts, bytes, limit, next);
      var s2 := Crash(s1, mid, k - 1);
      hide Used, Lists, PartPuts, Joins, OthersSame, Resolves, Readable, Holds, Recorded;
      StartUsed(s, u, c, next);
      var now := BetweenRecords(md5, s, s1, u, c, parts, bytes, limit, next, k - 1, s2);
      if k >= |mid| + 2 {
        StepFinish(md5, s, s2, u, c, now, bytes);
        StartUsed(s2, u, c.(hash := Some(md5(bytes))), later);
        assert Holds(md5, s', u, bytes) by { HoldsNow(md5, s', u, now, bytes); }
      }
    }
  }

  lemma RecordsAre(m: map<Uri, Content>, u: Uri, c: Content, hash: string, k: nat, n: nat)
    ensures k == 0 ==> RecordsAt(m, u, c, hash, k, n) == m
    ensures 0 < k < n ==> RecordsAt(m, u, c, hash, k, n) == m[u := c]
    ensures 0 < n <= k ==> RecordsAt(m, u, c, hash, k, n) == m[u := c][u := c.(hash := Some(hash))]
  {
  }

  lemma HoldsNow(md5: Digest, s: State, u: Uri, parts: seq<Uri>, bytes: Bytes)
    requires u in s.contents && s.contents[u].hash == Some(md5(bytes)) && s.contents[u].length == Some(|bytes|)
    requires Reads(s, u, parts, bytes)
    ensures Holds(md5, s, u, bytes)
  {
  }

  lemma ReplaceSize(
      md5: Digest, s: State, u: Uri, c: Content, parts: seq<Uri>, bytes: Bytes, limit: nat, next: nat)
    requires limit > 0 && Readable(s, parts)
    ensures |ReplaceCommands(md5, s, u, c, parts, bytes, limit, next)|
            == 2 + |PartPuts(s, u, parts, bytes, limit, next)|
  {
  }

  lemma StartUsed(s: State, u: Uri, c: Content, next: nat)
    requires Used(s, next) && u < next
    ensures Used(Apply(s, PutContent(u, c)), next)
  {
  }
}
