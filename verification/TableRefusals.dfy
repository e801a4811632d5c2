/** Tables whose relations cannot be opened: which deletions finish, and what the others leave for ever. */
module TableRefusals {
  import Journal
  import opened Wrappers
  import opened BackingNames
  import opened TableState
  import opened AclPaging
  import opened TableDeletion

  /** All relations that go with the schema `t` can be opened. */
  ghost predicate Removable(q: Queries, s: State, t: ETag)
    requires t in s.defs
  {
    AllAccepted(s, Openings(q, s, t)) && BaseOk(AttachmentsBase(s.id))
  }

  /** What there is of the table can be deleted. */
  ghost predicate Clearable(q: Queries, s: State) {
    forall t :: t in s.defs ==> Removable(q, s, t)
  }

  // ----- one round -----

  /** The openings are made from the identifier, the definitions and the columns. */
  lemma SameOpenings(q: Queries, s: State, s': State, t: ETag)
    requires t in s.defs && s'.defs == s.defs && s'.cols == s.cols && s'.id == s.id
    ensures Openings(q, s', t) == Openings(q, s, t)
  {
  }

  lemma SameClearable(q: Queries, s: State, s': State)
    requires s'.defs == s.defs && s'.cols == s.cols && s'.id == s.id && s'.relations == s.relations
    ensures Clearable(q, s') <==> Clearable(q, s)
  {
    hide BaseOk, AttachmentsBase, Openings;
    forall t | t in s.defs ensures Removable(q, s, t) <==> Removable(q, s', t) {
      SameOpenings(q, s, s', t);
      SameAccepted(s, s', Openings(q, s, t));
    }
    hide Removable;
  }

  lemma SameAccepted(s: State, s': State, list: seq<Put>)
    requires s'.relations == s.relations
    ensures AllAccepted(s', list) <==> AllAccepted(s, list)
  {
    hide NameOk, BaseOk, FieldsOk;
    assert forall p :: p in list ==> (Accepted(s, p) <==> Accepted(s', p));
  }

  lemma WorkFinishesIff(q: Queries, s: State, t: ETag)
    requires t in s.defs && s.defs[t] == ConvertIdentifier(s.id)
    ensures Finishes(s, WorkPuts(q, s, t)) <==> Removable(q, s, t)
    ensures !AllAccepted(s, Openings(q, s, t)) ==>
      Written(s, WorkPuts(q, s, t)) == Written(s, OpenDrops(Openings(q, s, t)))
    ensures AllAccepted(s, Openings(q, s, t)) && !Removable(q, s, t) ==>
      Written(s, WorkPuts(q, s, t)) == OpenDrops(Openings(q, s, t))
  {
    OpeningsDiffer(q, s, t);
    hide Journal.Replay, OpenDrops, BlobPuts, PlainPuts, Openings;
    hide ConvertIdentifier, BaseOk, DistinctNames, AllAccepted;
    var a, b, c := OpenDrops(Openings(q, s, t)), BlobPuts(AttachmentsBase(s.id)), PlainPuts(q, s, t);
    var s1 := Replay(s, a);
    OpenDropsFinishIff(s, Openings(q, s, t));
    WrittenConcat(s, a, b + c);
    BlobPutsFinishIff(s1, AttachmentsBase(s.id));
    WrittenConcat(s1, b, c);
    forall p | p in c ensures !p.AddRelation? { PlainPutsAre(q, s, t, p); }
    PlainFinishes(Replay(s1, b), c);
  }

  lemma StaleFinishesIff(q: Queries, s: State, m: Entry)
    requires Sound(q) && Inv(s) && s.entry == Some(m)
    ensures Finishes(s, StalePuts(q, s, m)) <==>
      (m.stale.Some? && m.stale.value in s.defs ==> Removable(q, s, m.stale.value))
    ensures m.stale.Some? && m.stale.value in s.defs && !Removable(q, s, m.stale.value) ==>
      Written(s, StalePuts(q, s, m)) == Written(s, WorkPuts(q, s, m.stale.value))
  {
    if m.stale.Some? && m.stale.value in s.defs {
      var t := m.stale.value;
      DefName(s, t);
      hide Inv, Removable, WorkPuts, ConvertIdentifier, Sound;
      WorkFinishesIff(q, s, t);
      WrittenConcat(s, WorkPuts(q, s, t), [DropDef(t)]);
      PlainFinishes(Replay(s, WorkPuts(q, s, t)), [DropDef(t)]);
    }
  }

  /** The schema whose relations are refused keeps its definition and its columns, wherever its removal stops. */
  lemma WorkResists(q: Queries, s: State, t: ETag, k: nat)
    requires t in s.defs && s.defs[t] == ConvertIdentifier(s.id) && !Removable(q, s, t)
    requires k <= |Written(s, WorkPuts(q, s, t))|
    ensures
      var s' := Crash(s, WorkPuts(q, s, t), k);
      s' == s.(relations := s'.relations) && !Removable(q, s', t)
  {
    WorkFinishesIff(q, s, t);
    OpeningsDiffer(q, s, t);
    var list := Openings(q, s, t);
    hide OpenDrops, BlobPuts, PlainPuts, Openings, ConvertIdentifier, BaseOk, DistinctNames, AllAccepted, Journal.Crash;
    var a, rest := OpenDrops(list), BlobPuts(AttachmentsBase(s.id)) + PlainPuts(q, s, t);
    Journal.CrashConcat(Apply, s, a, rest, k);
    Journal.CrashAll(Apply, s, a, |a|);
    WrittenIsPrefix(s, a);
    OpenDropsFinishIff(s, list);
    var s' := Crash(s, a, k);
    if AllAccepted(s, list) {
      OpenDropsStop(s, list, k);
      if k == |a| { Journal.Nothing(Apply, Replay(s, a), rest, 0); }
    } else {
      OpenDropsResist(s, list, k);
    }
    SameOpenings(q, s, s', t);
  }

  /** Opening and dropping relations changes nothing else. */
  lemma OpenDropsStop(s: State, list: seq<Put>, k: nat)
    requires AllOpenings(list)
    ensures Crash(s, OpenDrops(list), k) == s.(relations := Crash(s, OpenDrops(list), k).relations)
  {
    forall p | p in OpenDrops(list) ensures p.AddRelation? || p.DropRelation? { OpenDropsAre(list, p); }
    RelationsOnly(s, OpenDrops(list), k);
  }

  lemma {:induction false} RelationsOnly(s: State, ps: seq<Put>, k: nat)
    requires forall p :: p in ps ==> p.AddRelation? || p.DropRelation?
    ensures Crash(s, ps, k) == s.(relations := Crash(s, ps, k).relations)
    decreases |ps|
  {
    if ps != [] && k > 0 {
      assert ps[0] in ps;
      RelationsOnly(Apply(s, ps[0]), ps[1..], k - 1);
    }
  }

  /** An opening that succeeds makes no difference to what can be opened. */
  lemma AddedAccepted(s: State, list: seq<Put>, i: nat)
    requires DistinctNames(list) && i < |list| && Accepted(s, list[i])
    ensures AllAccepted(Apply(s, list[i]), list) <==> AllAccepted(s, list)
  {
    var p := list[i];
    assert p in list;
    OpenDropOne(s, p);
    OpenedAgain(s, p);
    forall x | x in list ensures Accepted(Apply(s, p), x) <==> Accepted(s, x) {
      var j :| 0 <= j < |list| && list[j] == x;
      if j != i { OtherRelation(s, Apply(s, p), x); }
    }
    hide Accepted, Apply;
  }

  lemma AddedRemovable(q: Queries, s: State, t: ETag, i: nat)
    requires t in s.defs && s.defs[t] == ConvertIdentifier(s.id) && i < 3 && Accepted(s, Openings(q, s, t)[i])
    ensures
      var s1 := Apply(s, Openings(q, s, t)[i]);
      && s1 == s.(relations := s1.relations) && Openings(q, s1, t) == Openings(q, s, t)
      && (Removable(q, s1, t) <==> Removable(q, s, t))
  {
    OpeningsDiffer(q, s, t);
    var list := Openings(q, s, t);
    assert list[i] in list;
    EntryStays(s, list[i]);
    AddedAccepted(s, list, i);
    hide Openings, Accepted, AllAccepted, Apply, BaseOk;
    SameOpenings(q, s, Apply(s, list[i]), t);
  }

  lemma DefIsOnly(q: Queries, s: State, t: ETag)
    requires Inv(s) && t in s.defs
    ensures Clearable(q, s) <==> Removable(q, s, t)
  {
    hide Removable;
    assert forall u :: u in s.defs ==> u == t;
  }

  /** With a change of data pending: its clean-up opens relations that the deletion opens too. */
  lemma PendingClearable(q: Queries, s: State, m: Entry)
    requires Inv(s) && s.entry.Some? && Fits(s, m)
    ensures
      var ps := PendingPuts(q, s, m);
      Clearable(q, s) <==> Finishes(s, ps) && Clearable(q, Replay(s, ps))
  {
    var ps := PendingPuts(q, s, m);
    if ps == [] {
      Journal.Nothing(Apply, s, [], 0);
    } else {
      PendingThree(q, s, m);
    }
  }

  lemma PendingThree(q: Queries, s: State, m: Entry)
    requires Inv(s) && PendingPuts(q, s, m) != []
    ensures
      var ps := PendingPuts(q, s, m);
      Clearable(q, s) <==> Finishes(s, ps) && Clearable(q, Replay(s, ps))
  {
    var t, ps := m.live.value, PendingPuts(q, s, m);
    DefName(s, t);
    DefIsOnly(q, s, t);
    OpeningsAre(q, s, t);
    var list := Openings(q, s, t);
    assert list[0] in list && list[1] in list;
    hide Inv, Openings, Accepted, Apply, BaseOk, ConvertIdentifier;
    ThreeFinish(s, ps[0], ps[1], ps[2]);
    CrashThree(s, ps[0], ps[1], ps[2], 3);
    if Accepted(s, ps[0]) {
      AddedRemovable(q, s, t, 0);
      var s1 := Apply(s, ps[0]);
      if Accepted(s1, ps[1]) {
        AddedRemovable(q, s1, t, 1);
        EntryPut(Apply(s1, ps[1]), ps[2].e);
        OneRemovable(q, s, Apply(s1, ps[1]), t);
        SameClearable(q, Apply(s1, ps[1]), Apply(Apply(s1, ps[1]), ps[2]));
      }
    }
    hide Clearable;
  }

  lemma EntryPut(s: State, m: Entry)
    ensures Apply(s, PutEntry(m)) == s.(entry := Some(m)) && Accepted(s, PutEntry(m))
  {
  }

  lemma OneRemovable(q: Queries, s: State, s': State, t: ETag)
    requires t in s.defs && s'.defs == s.defs && (Clearable(q, s) <==> Removable(q, s, t))
    requires forall u :: u in s.defs ==> u == t
    ensures Clearable(q, s') <==> Removable(q, s', t)
  {
    hide Removable;
  }

  lemma ThreeFinish(s: State, a: Put, b: Put, c: Put)
    requires c.PutEntry?
    ensures
      var s1 := Apply(s, a);
      && (Finishes(s, [a, b, c]) <==> Accepted(s, a) && Accepted(s1, b))
      && Written(s, [a, b, c]) ==
           if !Accepted(s, a) then [] else if !Accepted(s1, b) then [a] else [a, b, c]
  {
    var s1 := Apply(s, a);
    var s2 := Apply(s1, b);
    assert [a, b, c][1..] == [b, c] && [b, c][1..] == [c] && [c][1..] == [];
    assert Accepted(s2, c);
    hide NameOk, BaseOk, FieldsOk, Apply;
    assert Finishes(s2, [c]) && Written(s2, [c]) == [c];
    assert Finishes(s1, [b, c]) <==> Accepted(s1, b);
    assert Written(s1, [b, c]) == if Accepted(s1, b) then [b] + [c] else [];
  }

  /** A schema that cannot be removed stays one when the clean-up of a pending change stops. */
  lemma PendingResists(q: Queries, s: State, m: Entry, k: nat)
    requires Inv(s) && s.entry.Some? && Fits(s, m) && !Clearable(q, s)
    requires k <= |Written(s, PendingPuts(q, s, m))|
    ensures !Clearable(q, Crash(s, PendingPuts(q, s, m), k))
  {
    var ps := PendingPuts(q, s, m);
    if ps == [] {
      Journal.Nothing(Apply, s, [], k);
    } else {
      PendingClearable(q, s, m);
      PendingPart(q, s, m, k);
      if k == 3 { Journal.CrashAll(Apply, s, ps, 3); }
    }
  }

  lemma PendingPart(q: Queries, s: State, m: Entry, k: nat)
    requires Inv(s) && PendingPuts(q, s, m) != [] && !Clearable(q, s)
    requires k <= |Written(s, PendingPuts(q, s, m))|
    ensures k < 3 ==> !Clearable(q, Crash(s, PendingPuts(q, s, m), k))
    ensures k <= 3 && (k == 3 ==> Finishes(s, PendingPuts(q, s, m)))
  {
    var t, ps := m.live.value, PendingPuts(q, s, m);
    DefName(s, t);
    DefIsOnly(q, s, t);
    OpeningsAre(q, s, t);
    hide Inv, Openings, Accepted, Apply, BaseOk, ConvertIdentifier;
    ThreeFinish(s, ps[0], ps[1], ps[2]);
    CrashThree(s, ps[0], ps[1], ps[2], k);
    if k > 0 {
      AddedRemovable(q, s, t, 0);
      var s1 := Apply(s, ps[0]);
      OneRemovable(q, s, s1, t);
      if k > 1 {
        AddedRemovable(q, s1, t, 1);
        OneRemovable(q, s, Apply(s1, ps[1]), t);
      }
    }
    hide Clearable;
  }

  /** The table can be cleared just when the round finishes and it can be cleared after it. */
  lemma RoundClearable(q: Queries, s: State, m: Entry)
    requires Sound(q) && Inv(s) && s.entry == Some(m)
    ensures Clearable(q, s) <==> Finishes(s, RoundPuts(q, s, m)) && Clearable(q, Replay(s, RoundPuts(q, s, m)))
  {
    hide Inv, Fits, StalePuts, PendingPuts, Journal.Replay, TakenApart, Removable, Sound;
    var a := StalePuts(q, s, m);
    var s1 := Replay(s, a);
    StaleDone(q, s, m);
    StaleFinishesIff(q, s, m);
    var b := PendingPuts(q, s1, m.(stale := None));
    WrittenConcat(s, a, b);
    Journal.ReplayConcat(Apply, s, a, b);
    PendingClearable(q, s1, m.(stale := None));
    if m.stale.Some? && m.stale.value in s.defs {
      DefIsOnly(q, s, m.stale.value);
    }
  }

  /** A schema that cannot be removed stays one when a round stops. */
  lemma RoundResists(q: Queries, s: State, m: Entry, k: nat)
    requires Sound(q) && Inv(s) && s.entry == Some(m) && !Clearable(q, s)
    requires k <= |Written(s, RoundPuts(q, s, m))|
    ensures !Clearable(q, Crash(s, RoundPuts(q, s, m), k))
  {
    hide Fits, PendingPuts, Journal.Replay, TakenApart, Removable, Sound, Journal.Crash, WorkPuts;
    var a := StalePuts(q, s, m);
    var s1 := Replay(s, a);
    StaleDone(q, s, m);
    StaleFinishesIff(q, s, m);
    var b := PendingPuts(q, s1, m.(stale := None));
    WrittenConcat(s, a, b);
    Journal.CrashConcat(Apply, s, a, b, k);
    if m.stale.Some? && m.stale.value in s.defs {
      DefIsOnly(q, s, m.stale.value);
      StaleResists(q, s, m, k);
    } else {
      assert s1 == s;
      PendingResists(q, s, m.(stale := None), k);
    }
  }

  lemma StaleResists(q: Queries, s: State, m: Entry, k: nat)
    requires Sound(q) && Inv(s) && s.entry == Some(m) && m.stale.Some? && m.stale.value in s.defs
    requires !Removable(q, s, m.stale.value) && k <= |Written(s, StalePuts(q, s, m))|
    ensures k < |StalePuts(q, s, m)| && !Clearable(q, Crash(s, StalePuts(q, s, m), k))
  {
    var t := m.stale.value;
    DefName(s, t);
    StaleFinishesIff(q, s, m);
    hide Inv, WorkPuts, ConvertIdentifier, Sound, Journal.Crash, Removable;
    WrittenIsPrefix(s, WorkPuts(q, s, t));
    WorkResists(q, s, t, k);
    Journal.CrashConcat(Apply, s, WorkPuts(q, s, t), [DropDef(t)], k);
    WorkFinishesIff(q, s, t);
    assert t in Crash(s, WorkPuts(q, s, t), k).defs;
  }

  // ----- the whole deletion -----

  lemma AclsPlain(q: Queries, s: State)
    requires q.page > 0
    ensures Finishes(s, AclPuts(q, s))
  {
    hide Select;
    var list := q.acls(s.acls);
    var read := list[..Visited(list, Owners(s.acls), q.page)];
    forall p | p in AclPuts(q, s) ensures !p.AddRelation? {
      DropAclsAre(Select(s.acls, read, false), p);
      DropAclsAre(Select(s.acls, read, true), p);
    }
    PlainFinishes(s, AclPuts(q, s));
  }

  lemma {:induction false} DropAclsAre(list: seq<Uri>, p: Put)
    ensures p in DropAcls(list) ==> p.DropAcl?
  {
    if list != [] { DropAclsAre(list[1..], p); }
  }

  lemma NoDefsClearable(q: Queries, s: State)
    requires s.defs == map[]
    ensures Clearable(q, s)
  {
  }

  /** What a deletion does after its first round. */
  function RestPuts(q: Queries, s2: State, m: Entry, deleteCurrent: bool): seq<Put>
    requires q.page > 0
  {
    var next := Next(Cleaned(m), deleteCurrent);
    if next.Some? then
      [PutEntry(next.value)] + DeletePuts(q, Apply(s2, PutEntry(next.value)), next.value, deleteCurrent)
    else if deleteCurrent then AclPuts(q, s2) else []
  }

  lemma EntryFirst(s: State, m: Entry, rest: seq<Put>, k: nat)
    ensures Finishes(s, [PutEntry(m)] + rest) <==> Finishes(Apply(s, PutEntry(m)), rest)
    ensures Written(s, [PutEntry(m)] + rest) == [PutEntry(m)] + Written(Apply(s, PutEntry(m)), rest)
    ensures Crash(s, [PutEntry(m)] + rest, k) == if k == 0 then s else Crash(Apply(s, PutEntry(m)), rest, k - 1)
  {
    assert ([PutEntry(m)] + rest)[1..] == rest;
    assert Accepted(s, PutEntry(m));
  }

  /**
    From whatever state it starts, a deletion finishes just when the relations of the definition
    that there is, if any, can all be opened: the data relation, its log, the manifests and the
    blob store of the attachments.
   */
  lemma {:induction false} DeletionFinishesIff(q: Queries, s: State, m: Entry)
    requires Sound(q) && Inv(s) && s.entry == Some(m)
    ensures Finishes(s, DeletePuts(q, s, m, true)) <==> Clearable(q, s)
    decreases Open(m)
  {
    hide Inv, Fits, RoundPuts, AclPuts, Journal.Replay, DeletePuts, OnlyAdded, AfterStale, Clearable, Sound;
    PageIsPositive(q);
    var round := RoundPuts(q, s, m);
    var s2, next := Replay(s, round), Next(Cleaned(m), true);
    DeleteSplit(q, s, m, true);
    RoundDone(q, s, m);
    RoundClearable(q, s, m);
    WrittenConcat(s, round, RestPuts(q, s2, m, true));
    NextFits(s2, Cleaned(m), true);
    if next.Some? {
      var s3 := Apply(s2, PutEntry(next.value));
      FitsEntry(s2, next.value);
      EntryFirst(s2, next.value, DeletePuts(q, s3, next.value, true), 0);
      DeletionFinishesIff(q, s3, next.value);
      SameClearable(q, s2, s3);
    } else {
      NoDefs(s2);
      NoDefsClearable(q, s2);
      AclsPlain(q, s2);
    }
  }

  /** A table that cannot be cleared stays one, wherever its deletion stops or is refused. */
  lemma {:induction false} DeletionResists(q: Queries, s: State, m: Entry, deleteCurrent: bool, k: nat)
    requires Sound(q) && Inv(s) && s.entry == Some(m) && !Clearable(q, s)
    requires k <= |Written(s, DeletePuts(q, s, m, deleteCurrent))|
    ensures !Clearable(q, Crash(s, DeletePuts(q, s, m, deleteCurrent), k))
    decreases Open(m)
  {
    hide Inv, Fits, RoundPuts, AclPuts, Journal.Replay, Journal.Crash;
    hide DeletePuts, OnlyAdded, AfterStale, Clearable, Sound;
    PageIsPositive(q);
    var round := RoundPuts(q, s, m);
    var s2, next := Replay(s, round), Next(Cleaned(m), deleteCurrent);
    DeleteSplit(q, s, m, deleteCurrent);
    RoundDone(q, s, m);
    RoundClearable(q, s, m);
    var rest := RestPuts(q, s2, m, deleteCurrent);
    WrittenConcat(s, round, rest);
    WrittenIsPrefix(s, round);
    Journal.CrashConcat(Apply, s, round, rest, k);
    if k < |round| || !Finishes(s, round) {
      RoundResists(q, s, m, k);
    } else {
      NextFits(s2, Cleaned(m), deleteCurrent);
      RestResists(q, s2, m, deleteCurrent, k - |round|);
    }
  }

  lemma RestResists(q: Queries, s2: State, m: Entry, deleteCurrent: bool, k: nat)
    requires Sound(q) && Inv(s2) && s2.entry.Some? && Fits(s2, Cleaned(m)) && !Clearable(q, s2)
    requires k <= |Written(s2, RestPuts(q, s2, m, deleteCurrent))|
    ensures !Clearable(q, Crash(s2, RestPuts(q, s2, m, deleteCurrent), k))
    decreases Open(m), 0
  {
    hide Inv, Fits, AclPuts, Journal.Crash, DeletePuts, Clearable, Sound;
    PageIsPositive(q);
    var next := Next(Cleaned(m), deleteCurrent);
    NextFits(s2, Cleaned(m), deleteCurrent);
    if next.Some? {
      var s3 := Apply(s2, PutEntry(next.value));
      FitsEntry(s2, next.value);
      SameClearable(q, s2, s3);
      EntryFirst(s2, next.value, DeletePuts(q, s3, next.value, deleteCurrent), k);
      if k > 0 { DeletionResists(q, s3, next.value, deleteCurrent, k - 1); }
    } else if deleteCurrent {
      NoDefs(s2);
      NoDefsClearable(q, s2);
    } else {
      Journal.Nothing(Apply, s2, [], k);
    }
  }

  // ----- a schema in use -----

  /** None of the writes puts a schema into use. */
  ghost predicate NeverLive(ps: seq<Put>) {
    forall p :: p in ps && p.PutEntry? ==> p.e.live.None?
  }

  lemma {:induction false} NeverLiveStops(s: State, ps: seq<Put>, k: nat)
    requires !IsLive(s) && NeverLive(ps)
    ensures !IsLive(Crash(s, ps, k))
    decreases |ps|
  {
    if ps != [] && k > 0 {
      assert ps[0] in ps;
      assert forall p :: p in ps[1..] ==> p in ps;
      NeverLiveStep(s, ps[0]);
      hide Apply, IsLive;
      NeverLiveStops(Apply(s, ps[0]), ps[1..], k - 1);
    }
  }

  lemma NeverLiveStep(s: State, p: Put)
    requires !IsLive(s) && (p.PutEntry? ==> p.e.live.None?)
    ensures !IsLive(Apply(s, p))
  {
  }

  lemma RoundNeverLive(q: Queries, s: State, m: Entry)
    requires m.live.None?
    ensures NeverLive(RoundPuts(q, s, m))
  {
    hide WorkPuts;
    if m.stale.Some? && m.stale.value in s.defs { WorkOnStale(q, s, m.stale.value); }
  }

  lemma {:induction false} DeletionNeverLive(q: Queries, s: State, m: Entry, deleteCurrent: bool)
    requires q.page > 0 && m.live.None?
    ensures NeverLive(DeletePuts(q, s, m, deleteCurrent))
    decreases Open(m)
  {
    hide RoundPuts, DeletePuts, Journal.Replay;
    RoundNeverLive(q, s, m);
    DeleteSplit(q, s, m, deleteCurrent);
    var s2, next := Replay(s, RoundPuts(q, s, m)), Next(Cleaned(m), deleteCurrent);
    if next.Some? {
      DeletionNeverLive(q, Apply(s2, PutEntry(next.value)), next.value, deleteCurrent);
    } else if deleteCurrent {
      AclsNeverLive(q, s2);
    }
  }

  lemma AclsNeverLive(q: Queries, s: State)
    requires q.page > 0
    ensures NeverLive(AclPuts(q, s))
  {
    hide Select;
    var list := q.acls(s.acls);
    var read := list[..Visited(list, Owners(s.acls), q.page)];
    forall p | p in AclPuts(q, s) ensures !p.PutEntry? {
      DropAclsAre(Select(s.acls, read, false), p);
      DropAclsAre(Select(s.acls, read, true), p);
    }
  }
}
