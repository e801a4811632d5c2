/** Deletion of a list of entities in reverse order, in one call if possible and one by one if not. */
module DeleteHelper {
  import Journal
  import opened BlobStore
  import opened BlobDeletion
  import opened BlobEntities

  method Reverse(keys: seq<Key>) returns (r: seq<Key>)
    ensures r == Reversed(keys)
  {
    r := [];
    for i := 0 to |keys|
      invariant r == Reversed(keys[..i])
    {
      assert keys[..i + 1] == keys[..i] + [keys[i]];
      ReversedConcat(keys[..i], [keys[i]]);
      assert Reversed([keys[i]]) == [keys[i]];
      r := [keys[i]] + r;
    }
    assert keys[..|keys|] == keys;
  }

  /** Deletion number `i` failed in the call for all and alone, and what is left is `s'`. */
  ghost predicate Aborted(s: State, s': State, ps: seq<Put>, manyFail: set<Put>, oneFails: set<Put>, i: nat) {
    i < |ps| && ps[i] in manyFail && ps[i] in oneFails && s' == GivenUp(s, ps, manyFail, i)
  }

  lemma DropAbsent(store: ContentStore, k: Key)
    ensures !store.Has(k) ==> Apply(store.Stored(), Drop(k)) == store.Stored()
  {
    if !store.Has(k) {
      match k
      case ContentKey(u) => assert store.contents - {u} == store.contents;
      case RefKey(r) => assert store.refs - {r} == store.refs;
      case BlobKey(b) => assert store.blobs - {b} == store.blobs;
    }
  }

  lemma DropsMore(s: State, keys: seq<Key>, i: nat)
    requires i < |keys|
    ensures Replay(s, Drops(keys[..i + 1])) == Apply(Replay(s, Drops(keys[..i])), Drop(keys[i]))
  {
    assert keys[..i + 1] == keys[..i] + [keys[i]];
    DropsConcat(keys[..i], [keys[i]]);
    assert Drops([keys[i]]) == [Drop(keys[i])];
    Journal.ReplayAppend(Apply, s, Drops(keys[..i]), Drop(keys[i]));
  }

  lemma NoneFails(rev: seq<Key>, failed: set<Put>)
    ensures (forall k :: k in rev ==> Drop(k) !in failed) ==> Carried(Drops(rev), failed) == Drops(rev)
  {
    if forall k :: k in rev ==> Drop(k) !in failed {
      forall p | p in Drops(rev) ensures p !in failed { DropsFrom(rev, p); }
      CarriedWhole(Drops(rev), failed);
    }
  }

  lemma {:induction false} DropsFrom(rev: seq<Key>, p: Put)
    requires p in Drops(rev)
    ensures exists k :: k in rev && Drop(k) == p
  {
    if Drop(rev[0]) == p {
    } else {
      DropsFrom(rev[1..], p);
    }
  }

  /** A key that is left after the first call failed there. */
  lemma LeftFailed(s: State, rev: seq<Key>, failed: set<Put>, i: nat, store: ContentStore)
    requires i < |rev|
    requires store.Stored() == Replay(Replay(s, Carried(Drops(rev), failed)), Drops(rev[..i]))
    ensures store.Has(rev[i]) ==> Drop(rev[i]) in failed
  {
    var p, ps, qs := Drop(rev[i]), Drops(rev), Carried(Drops(rev), failed);
    DropsAre(rev, rev[i]);
    DropsAre(rev[..i], rev[i]);
    CarriedLeaves(s, ps, failed);
    DropsLeave(Replay(s, qs), Drops(rev[..i]));
    CarriedAre(ps, failed, p);
    match rev[i]
    case ContentKey(u) => if p in qs { assert p.u in ContentsIn(qs); }
    case RefKey(r) => InRefs(qs, r);
    case BlobKey(b) => InBlobs(qs, b);
  }

  lemma NothingDropped(s: State, rev: seq<Key>)
    ensures Replay(s, Drops(rev[..0])) == s
  {
  }

  method DeleteEntities(store: ContentStore, keys: seq<Key>) returns (ok: bool)
    requires store.RowsHaveRelations()
    modifies store`contents, store`refs, store`blobs, store`journal
    ensures (forall k :: k in Reversed(keys) ==> Drop(k) !in store.manyFail) ==>
      ok && store.Wrote(old(store.Stored()), old(store.journal), Drops(Reversed(keys)))
    ensures ok ==> store.Stored() == Replay(old(store.Stored()), Drops(Reversed(keys)))
    ensures !ok ==>
      exists i :: Aborted(
        old(store.Stored()), store.Stored(), Drops(Reversed(keys)), store.manyFail, store.oneFails, i)
  {
    hide Drops, Carried, Journal.Replay, Reversed;
    ghost var s0 := store.Stored();
    var rev := Reverse(keys);
    ok := store.DeleteEntities(rev);
    NoneFails(rev, store.manyFail);
    if ok { return; }
    ghost var s1 := store.Stored();
    NothingDropped(s1, rev);
    // the relations that are known to exist, and those known not to
    var relations, nonRelations: set<Kind> := {}, {};
    for i := 0 to |rev|
      invariant store.Stored() == Replay(s1, Drops(rev[..i])) && store.RowsHaveRelations()
      invariant relations <= store.relations && nonRelations !! store.relations
    {
      DropsMore(s1, rev, i);
      DropAbsent(store, rev[i]);
      LeftFailed(s0, rev, store.manyFail, i, store);
      var kind := KindOf(rev[i]);
      if kind in nonRelations { continue; }
      if kind !in relations {
        var found := store.HasRelation(kind);
        if found {
          relations := relations + {kind};
        } else {
          nonRelations := nonRelations + {kind};
          continue;
        }
      }
      if store.Has(rev[i]) {
        if Drop(rev[i]) in store.oneFails {
          DropsAt(rev, i);
          assert Aborted(s0, store.Stored(), Drops(rev), store.manyFail, store.oneFails, i);
          return false;
        }
        store.Delete(rev[i]);
      }
    }
    assert rev[..|rev|] == rev;
    DropsAreDrops(rev);
    FallbackFinishes(s0, Drops(rev), store.manyFail);
    return true;
  }

  lemma {:induction false} DropsAreDrops(keys: seq<Key>)
    ensures DropsOnly(Drops(keys))
  {
    if keys != [] { DropsAreDrops(keys[1..]); }
  }
}
