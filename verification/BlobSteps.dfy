/** Each single write of an upload or of a deletion keeps every content readable. */
module BlobSteps {
  import opened Wrappers
  import opened BlobStore

  lemma {:induction false} JoinedSame(s: State, s': State, parts: seq<Uri>)
    requires Readable(s, parts) && Readable(s', parts)
    requires forall r :: r in parts ==> SamePart(s, s', r)
    ensures Joined(s, parts) == Joined(s', parts)
  {
    if parts != [] {
      assert parts[|parts| - 1] in parts;
      JoinedSame(s, s', parts[..|parts| - 1]);
    }
  }

  lemma OtherKept(md5: Digest, s: State, s': State, u: Uri, v: Uri, parts: seq<Uri>)
    requires Resolves(s) && Resolves(s') && OthersSame(s, s', u)
    requires v != u && v in s.contents && PartsOk(md5, s, v, parts)
    ensures v in s'.contents && s'.contents[v] == s.contents[v] && PartsOk(md5, s', v, parts)
    ensures Joined(s', parts) == Joined(s, parts)
  {
    assert v in s.contents - {u} && v in s'.contents - {u};
    forall r | r in parts ensures r in s'.refs && SamePart(s, s', r) && s'.refs[r].dom == v {
      var i :| 0 <= i < |parts| && parts[i] == r;
      assert s.refs[r].dom == v;
      assert SamePart(s, s', r);
    }
    forall i | 0 <= i < |parts| ensures s'.refs[parts[i]].part == i + 1 {
      assert parts[i] in parts && SamePart(s, s', parts[i]);
    }
    forall r | r in s'.refs && s'.refs[r].dom == v ensures r in parts {
      assert SamePart(s, s', r);
    }
    JoinedSame(s, s', parts);
  }

  /** Only `u` was worked on, and it is fine. */
  lemma InvKept(md5: Digest, s: State, s': State, u: Uri)
    requires Inv(md5, s) && Resolves(s') && OthersSame(s, s', u)
    requires u in s'.contents ==> exists parts :: PartsOk(md5, s', u, parts)
    ensures Inv(md5, s')
  {
    forall v | v in s'.contents ensures exists parts :: PartsOk(md5, s', v, parts) {
      if v != u {
        assert v in s'.contents - {u} && v in s.contents;
        var parts :| PartsOk(md5, s, v, parts);
        OtherKept(md5, s, s', u, v, parts);
      }
    }
  }

  lemma OthersSameTrans(s: State, s': State, s'': State, u: Uri)
    requires Resolves(s) && Resolves(s') && Resolves(s'')
    requires OthersSame(s, s', u) && OthersSame(s', s'', u)
    ensures OthersSame(s, s'', u)
  {
    forall r | (r in s.refs && s.refs[r].dom != u) || (r in s''.refs && s''.refs[r].dom != u)
      ensures SamePart(s, s'', r)
    {
      assert SamePart(s, s', r) || SamePart(s', s'', r);
    }
  }

  lemma OthersSameSelf(s: State, u: Uri)
    ensures OthersSame(s, s, u)
  {
  }

  /** The listing of a content is unique. */
  lemma OneListing(s: State, u: Uri, a: seq<Uri>, b: seq<Uri>)
    requires Lists(s, u, a) && Lists(s, u, b)
    ensures a == b
  {
    ListingFits(s, u, a, b);
    ListingFits(s, u, b, a);
  }

  lemma ListingFits(s: State, u: Uri, a: seq<Uri>, b: seq<Uri>)
    requires Lists(s, u, a) && Lists(s, u, b)
    ensures |a| <= |b| && forall i :: 0 <= i < |a| ==> a[i] == b[i]
  {
    forall i | 0 <= i < |a| ensures i < |b| && a[i] == b[i] {
      var j :| 0 <= j < |b| && b[j] == a[i];
    }
    if a != [] { assert a[|a| - 1] == b[|a| - 1]; }
  }

  /**
    The parts of `u` are being written or dropped: its record, if any, has a null hash, and
    all else is as it was in `s0`.
   */
  ghost predicate InFlight(md5: Digest, s0: State, s: State, u: Uri, c: Option<Content>, parts: seq<Uri>) {
    && Inv(md5, s) && OthersSame(s0, s, u) && Resolves(s0) && Resolves(s)
    && Recorded(s, u, c) && Lists(s, u, parts)
  }

  ghost predicate Recorded(s: State, u: Uri, c: Option<Content>) {
    && (u in s.contents <==> c.Some?)
    && (u in s.contents && c.Some? ==> s.contents[u] == c.value && c.value.hash == None)
  }

  /** No reference names the blob `b`. */
  ghost predicate Unreferenced(s: State, b: Uri) {
    forall r :: r in s.refs ==> s.refs[r].sub != b
  }

  lemma ListedReadable(s: State, u: Uri, parts: seq<Uri>)
    requires Resolves(s) && Lists(s, u, parts)
    ensures Readable(s, parts)
  {
    forall r | r in parts ensures r in s.refs && s.refs[r].sub in s.blobs {
      var i :| 0 <= i < |parts| && parts[i] == r;
    }
  }

  lemma FlightFrom(md5: Digest, s0: State, s: State, s': State, u: Uri, c: Option<Content>, parts: seq<Uri>)
    requires Resolves(s0) && OthersSame(s0, s, u) && Inv(md5, s)
    requires Resolves(s') && OthersSame(s, s', u)
    requires Recorded(s', u, c) && Lists(s', u, parts)
    ensures InFlight(md5, s0, s', u, c, parts)
  {
    ListedReadable(s', u, parts);
    if u in s'.contents { assert PartsOk(md5, s', u, parts); }
    InvKept(md5, s, s', u);
    OthersSameTrans(s0, s, s', u);
  }

  /** Only the record of `u` is written. */
  lemma RecordPut(s: State, u: Uri, c: Content)
    requires Resolves(s)
    ensures
      var s' := Apply(s, PutContent(u, c));
      Resolves(s') && OthersSame(s, s', u) && s'.refs == s.refs && s'.blobs == s.blobs
  {
    assert s.contents - {u} == Apply(s, PutContent(u, c)).contents - {u};
  }

  lemma StepStart(md5: Digest, s: State, u: Uri, c: Content, parts: seq<Uri>)
    requires Inv(md5, s) && c.hash == None && Lists(s, u, parts)
    ensures InFlight(md5, s, Apply(s, PutContent(u, c)), u, Some(c), parts)
  {
    var s' := Apply(s, PutContent(u, c));
    OthersSameSelf(s, u);
    assert s.contents - {u} == s'.contents - {u};
    FlightFrom(md5, s, s, s', u, Some(c), parts);
  }

  lemma StepDropContent(md5: Digest, s: State, u: Uri, parts: seq<Uri>)
    requires Inv(md5, s) && Lists(s, u, parts)
    ensures InFlight(md5, s, Apply(s, DropContent(u)), u, None, parts)
  {
    var s' := Apply(s, DropContent(u));
    OthersSameSelf(s, u);
    assert s.contents - {u} == s'.contents - {u};
    FlightFrom(md5, s, s, s', u, None, parts);
  }

  lemma StepDropRef(md5: Digest, s0: State, s: State, u: Uri, c: Option<Content>, parts: seq<Uri>)
    requires InFlight(md5, s0, s, u, c, parts) && parts != []
    ensures
      var r := parts[|parts| - 1];
      r in s.refs && InFlight(md5, s0, Apply(s, DropRef(r)), u, c, parts[..|parts| - 1])
      && Unreferenced(Apply(s, DropRef(r)), s.refs[r].sub)
  {
    var r := parts[|parts| - 1];
    FrontLists(s, u, parts);
    DroppedResolves(s, u, r);
    hide Inv, Resolves, OthersSame, Lists, Unreferenced;
    FlightFrom(md5, s0, s, Apply(s, DropRef(r)), u, c, parts[..|parts| - 1]);
  }

  lemma FrontLists(s: State, u: Uri, parts: seq<Uri>)
    requires Lists(s, u, parts) && parts != []
    ensures
      var r := parts[|parts| - 1];
      r in s.refs && s.refs[r].dom == u && Lists(Apply(s, DropRef(r)), u, parts[..|parts| - 1])
  {
    var n := |parts| - 1;
    var s' := Apply(s, DropRef(parts[n]));
    forall q | q in s'.refs && s'.refs[q].dom == u ensures q in parts[..n] {
      var i :| 0 <= i < |parts| && parts[i] == q;
      assert i != n;
      assert parts[..n][i] == q;
    }
  }

  lemma DroppedResolves(s: State, u: Uri, r: Uri)
    requires Resolves(s) && r in s.refs && s.refs[r].dom == u
    ensures
      var s' := Apply(s, DropRef(r));
      Resolves(s') && OthersSame(s, s', u) && Unreferenced(s', s.refs[r].sub)
  {
  }

  lemma StepDropBlob(md5: Digest, s0: State, s: State, u: Uri, c: Option<Content>, parts: seq<Uri>, b: Uri)
    requires InFlight(md5, s0, s, u, c, parts) && Unreferenced(s, b)
    ensures InFlight(md5, s0, Apply(s, DropBlob(b)), u, c, parts)
  {
    FlightFrom(md5, s0, s, Apply(s, DropBlob(b)), u, c, parts);
  }

  lemma StepPutBlob(
      md5: Digest, s0: State, s: State, u: Uri, c: Option<Content>, parts: seq<Uri>, b: Uri, value: Bytes)
    requires InFlight(md5, s0, s, u, c, parts) && Unreferenced(s, b)
    ensures InFlight(md5, s0, Apply(s, PutBlob(b, value)), u, c, parts)
  {
    FlightFrom(md5, s0, s, Apply(s, PutBlob(b, value)), u, c, parts);
  }

  lemma StepPutRef(
      md5: Digest, s0: State, s: State, u: Uri, c: Option<Content>, parts: seq<Uri>, r: Uri, b: Uri)
    requires InFlight(md5, s0, s, u, c, parts) && Unreferenced(s, b) && b in s.blobs && r !in s.refs
    ensures InFlight(md5, s0, Apply(s, PutRef(r, Ref(u, b, |parts| + 1))), u, c, parts + [r])
  {
    FlightFrom(md5, s0, s, Apply(s, PutRef(r, Ref(u, b, |parts| + 1))), u, c, parts + [r]);
  }

  /** With its hash set, the record has its parts complete. */
  lemma FinishedParts(md5: Digest, s: State, u: Uri, c: Content, parts: seq<Uri>, bytes: Bytes)
    requires Resolves(s) && c.length == Some(|bytes|) && Reads(s, u, parts, bytes)
    ensures
      var s' := Apply(s, PutContent(u, c.(hash := Some(md5(bytes)))));
      && Resolves(s') && OthersSame(s, s', u)
      && PartsOk(md5, s', u, parts) && Reads(s', u, parts, bytes)
  {
    var s' := Apply(s, PutContent(u, c.(hash := Some(md5(bytes)))));
    RecordPut(s, u, c.(hash := Some(md5(bytes))));
    hide Resolves, OthersSame;
    JoinedSame(s, s', parts);
  }

  /** The hash may be set once the parts join to bytes with that digest and length. */
  lemma StepFinish(md5: Digest, s0: State, s: State, u: Uri, c: Content, parts: seq<Uri>, bytes: Bytes)
    requires InFlight(md5, s0, s, u, Some(c), parts) && c.length == Some(|bytes|)
    requires Reads(s, u, parts, bytes)
    ensures
      var s' := Apply(s, PutContent(u, c.(hash := Some(md5(bytes)))));
      Inv(md5, s') && OthersSame(s0, s', u) && Reads(s', u, parts, bytes)
  {
    hide Inv, Resolves, OthersSame, Reads, PartsOk, Lists, Recorded;
    var s' := Apply(s, PutContent(u, c.(hash := Some(md5(bytes)))));
    FinishedParts(md5, s, u, c, parts, bytes);
    InvKept(md5, s, s', u);
    OthersSameTrans(s0, s, s', u);
  }
}
