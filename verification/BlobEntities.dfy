/** The datastore behind the attachments, with the writes it has carried out, and deletion from it. */
module BlobEntities {
  import Journal
  import opened BlobStore
  import opened BlobDeletion

  datatype Key = ContentKey(u: Uri) | RefKey(r: Uri) | BlobKey(b: Uri)

  /** The relation that holds the row of a key. */
  datatype Kind = Contents | Refs | Blobs

  function KindOf(k: Key): Kind {
    match k
    case ContentKey(_) => Contents
    case RefKey(_) => Refs
    case BlobKey(_) => Blobs
  }

  function Drop(k: Key): Put {
    match k
    case ContentKey(u) => DropContent(u)
    case RefKey(r) => DropRef(r)
    case BlobKey(b) => DropBlob(b)
  }

  function Drops(keys: seq<Key>): seq<Put> {
    if keys == [] then [] else [Drop(keys[0])] + Drops(keys[1..])
  }

  function Reversed(keys: seq<Key>): (r: seq<Key>)
    ensures |r| == |keys|
  {
    if keys == [] then [] else Reversed(keys[1..]) + [keys[0]]
  }

  lemma {:induction false} DropsConcat(a: seq<Key>, b: seq<Key>)
    ensures Drops(a + b) == Drops(a) + Drops(b)
  {
    if a == [] {
      assert a + b == b;
    } else {
      assert (a + b)[1..] == a[1..] + b;
      DropsConcat(a[1..], b);
    }
  }

  lemma {:induction false} DropsLength(keys: seq<Key>)
    ensures |Drops(keys)| == |keys|
  {
    if keys != [] { DropsLength(keys[1..]); }
  }

  lemma DropsAt(keys: seq<Key>, i: nat)
    requires i <= |keys|
    ensures |Drops(keys)| == |keys| && Drops(keys[..i]) == Drops(keys)[..i]
    ensures i < |keys| ==> Drops(keys)[i] == Drop(keys[i])
  {
    DropsLength(keys);
    DropsLength(keys[..i]);
    assert keys == keys[..i] + keys[i..];
    DropsConcat(keys[..i], keys[i..]);
    if i < |keys| { assert Drops(keys[i..])[0] == Drop(keys[i]); }
  }

  lemma {:induction false} ReversedConcat(a: seq<Key>, b: seq<Key>)
    ensures Reversed(a + b) == Reversed(b) + Reversed(a)
  {
    if a == [] {
      assert a + b == b;
    } else {
      assert (a + b)[1..] == a[1..] + b;
      ReversedConcat(a[1..], b);
    }
  }

  lemma {:induction false} DropsAre(keys: seq<Key>, k: Key)
    ensures Drop(k) in Drops(keys) <==> k in keys
    ensures DropsOnly(Drops(keys))
  {
    if keys != [] {
      DropsAre(keys[1..], k);
      assert keys == [keys[0]] + keys[1..];
    }
  }

  /** The keys by ascending rank; keys of the same rank come in any order. */
  method SortedBy(keys: set<Uri>, rank: map<Uri, nat>) returns (hits: seq<Uri>)
    requires keys <= rank.Keys
    ensures forall u :: u in hits <==> u in keys
    ensures forall i, j :: 0 <= i < j < |hits| ==> hits[i] != hits[j]
    ensures forall i, j :: 0 <= i < j < |hits| && hits[i] in rank && hits[j] in rank ==> rank[hits[i]] <= rank[hits[j]]
  {
    hits := [];
    var left := keys;
    while left != {}
      invariant left <= keys
      invariant forall u :: u in keys <==> u in left || u in hits
      invariant forall u :: u in hits ==> u !in left
      invariant forall i, j :: 0 <= i < j < |hits| ==> hits[i] != hits[j]
      invariant forall i, j :: 0 <= i < j < |hits| ==> rank[hits[i]] <= rank[hits[j]]
      invariant forall u, v :: u in hits && v in left ==> rank[u] <= rank[v]
      decreases |left|
    {
      var least := Least(left, rank);
      hits, left := hits + [least], left - {least};
    }
  }

  method Least(keys: set<Uri>, rank: map<Uri, nat>) returns (least: Uri)
    requires keys != {} && keys <= rank.Keys
    ensures least in keys && forall u :: u in keys ==> rank[least] <= rank[u]
  {
    least :| least in keys;
    var left := keys - {least};
    while left != {}
      invariant left <= keys && least in keys
      invariant forall u :: u in keys && u !in left ==> rank[least] <= rank[u]
      decreases |left|
    {
      var u :| u in left;
      left := left - {u};
      if rank[u] < rank[least] { least := u; }
    }
  }

  /** Every `put` and `delete` is one atomic write; `journal` lists them. */
  class ContentStore {
    var contents: map<Uri, Content>
    var refs: map<Uri, Ref>
    var blobs: map<Uri, Bytes>
    /** The relations that exist. */
    var relations: set<Kind>
    /** The deletions that fail in a call for many keys, and those that fail alone. */
    var manyFail: set<Put>
    var oneFails: set<Put>
    ghost var journal: seq<Put>

    constructor ()
      ensures Stored() == State(map[], map[], map[]) && journal == [] && manyFail == {} && oneFails == {}
      ensures AllRelations()
    {
      contents, refs, blobs, manyFail, oneFails, journal := map[], map[], map[], {}, {}, [];
      relations := {Contents, Refs, Blobs};
    }

    predicate AllRelations()
      reads `relations
    {
      relations == {Contents, Refs, Blobs}
    }

    /** A relation that does not exist has no rows. */
    ghost predicate RowsHaveRelations()
      reads this
    {
      && (Contents in relations || contents == map[])
      && (Refs in relations || refs == map[])
      && (Blobs in relations || blobs == map[])
    }

    method HasRelation(kind: Kind) returns (found: bool)
      ensures found <==> kind in relations
    {
      return kind in relations;
    }

    ghost function Stored(): State
      reads this
    {
      State(contents, refs, blobs)
    }

    /** The writes `ps` were added to `j` and took the store from `s` to where it is now. */
    ghost predicate Wrote(s: State, j: seq<Put>, ps: seq<Put>)
      reads this
    {
      Stored() == Replay(s, ps) && journal == j + ps
    }

    method PutContent(u: Uri, c: Content)
      modifies this`contents, this`journal
      ensures Stored() == Apply(old(Stored()), Put.PutContent(u, c))
      ensures journal == old(journal) + [Put.PutContent(u, c)]
    {
      contents := contents[u := c];
      journal := journal + [Put.PutContent(u, c)];
    }

    method PutRef(r: Uri, ref: Ref)
      modifies this`refs, this`journal
      ensures Stored() == Apply(old(Stored()), Put.PutRef(r, ref))
      ensures journal == old(journal) + [Put.PutRef(r, ref)]
    {
      refs := refs[r := ref];
      journal := journal + [Put.PutRef(r, ref)];
    }

    method PutBlob(b: Uri, value: Bytes)
      modifies this`blobs, this`journal
      ensures Stored() == Apply(old(Stored()), Put.PutBlob(b, value))
      ensures journal == old(journal) + [Put.PutBlob(b, value)]
    {
      blobs := blobs[b := value];
      journal := journal + [Put.PutBlob(b, value)];
    }

    method Delete(k: Key)
      modifies this`contents, this`refs, this`blobs, this`journal
      ensures Stored() == Apply(old(Stored()), Drop(k))
      ensures journal == old(journal) + [Drop(k)]
      ensures old(RowsHaveRelations()) ==> RowsHaveRelations()
    {
      match k {
        case ContentKey(u) => contents := contents - {u};
        case RefKey(r) => refs := refs - {r};
        case BlobKey(b) => blobs := blobs - {b};
      }
      journal := journal + [Drop(k)];
    }

    predicate Has(k: Key)
      reads this
    {
      match k
      case ContentKey(u) => u in contents
      case RefKey(r) => r in refs
      case BlobKey(b) => b in blobs
    }

    /** Deletes the keys one after the other and goes on after a failure. */
    method DeleteEntities(keys: seq<Key>) returns (ok: bool)
      modifies this`contents, this`refs, this`blobs, this`journal
      ensures Wrote(old(Stored()), old(journal), Carried(Drops(keys), manyFail))
      ensures ok <==> forall k :: k in keys ==> Drop(k) !in manyFail
      ensures old(RowsHaveRelations()) ==> RowsHaveRelations()
    {
      ok := true;
      ghost var s0, j0 := Stored(), journal;
      for i := 0 to |keys|
        invariant Wrote(s0, j0, Carried(Drops(keys[..i]), manyFail))
        invariant ok <==> forall k :: k in keys[..i] ==> Drop(k) !in manyFail
        invariant manyFail == old(manyFail) && (old(RowsHaveRelations()) ==> RowsHaveRelations())
      {
        assert keys[..i + 1] == keys[..i] + [keys[i]];
        CarriedMore(Drops(keys[..i]), Drop(keys[i]), manyFail);
        DropsConcat(keys[..i], [keys[i]]);
        assert Drops([keys[i]]) == [Drop(keys[i])];
        if Drop(keys[i]) in manyFail {
          ok := false;
        } else {
          Journal.ReplayAppend(Apply, s0, Carried(Drops(keys[..i]), manyFail), Drop(keys[i]));
          Delete(keys[i]);
        }
      }
      assert keys[..|keys|] == keys;
    }

    /** The records of one parent by ascending ordinal. */
    method QueryContents(parent: Uri) returns (hits: seq<Uri>)
      ensures forall u :: u in hits <==> u in contents && contents[u].parent == parent
      ensures forall i, j :: 0 <= i < j < |hits| ==> hits[i] != hits[j]
      ensures forall i, j :: 0 <= i < j < |hits| && hits[i] in contents && hits[j] in contents ==>
        contents[hits[i]].ordinal <= contents[hits[j]].ordinal
    {
      hits := SortedBy(
        set u | u in contents && contents[u].parent == parent, map u | u in contents :: contents[u].ordinal);
    }

    /** The references of one content by ascending part number. */
    method QueryRefs(dom: Uri) returns (hits: seq<Uri>)
      ensures forall r :: r in hits <==> r in refs && refs[r].dom == dom
      ensures forall i, j :: 0 <= i < j < |hits| ==> hits[i] != hits[j]
      ensures forall i, j :: 0 <= i < j < |hits| && hits[i] in refs && hits[j] in refs ==>
        refs[hits[i]].part <= refs[hits[j]].part
    {
      hits := SortedBy(set r | r in refs && refs[r].dom == dom, map r | r in refs :: refs[r].part);
    }
  }

  lemma {:induction false} CarriedMore(ps: seq<Put>, p: Put, failed: set<Put>)
    ensures Carried(ps + [p], failed) == if p in failed then Carried(ps, failed) else Carried(ps, failed) + [p]
  {
    if ps == [] {
      assert ps + [p] == [p];
      assert [p][1..] == [];
    } else {
      assert (ps + [p])[1..] == ps[1..] + [p];
      CarriedMore(ps[1..], p, failed);
    }
  }

  lemma {:induction false} CarriedWhole(ps: seq<Put>, failed: set<Put>)
    requires forall p :: p in ps ==> p !in failed
    ensures Carried(ps, failed) == ps
  {
    if ps != [] {
      assert ps == [ps[0]] + ps[1..];
      CarriedWhole(ps[1..], failed);
    }
  }
}
