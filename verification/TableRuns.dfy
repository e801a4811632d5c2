/** Runs of creations and deletions of a table, each stopped after any of its writes or ended by a refusal. */
module TableRuns {
  import Journal
  import opened Wrappers
  import opened BackingNames
  import opened TableState
  import opened TableDeletion
  import opened TableRefusals
  import opened TableCreation

  /** One operation on the table, stopped after `cut` writes. */
  datatype Event = Create(r: Request, cut: nat) | Delete(deleteCurrent: bool, cut: nat)

  /** The writes of the operation, if no relation is refused. */
  function PlanOf(q: Queries, s: State, e: Event): seq<Put>
    requires q.page > 0
  {
    match e
    case Create(r, _) => CreatePuts(q, s, r)
    case Delete(deleteCurrent, _) => if s.entry.Some? then DeletePuts(q, s, s.entry.value, deleteCurrent) else []
  }

  ghost function AfterEvent(q: Queries, s: State, e: Event): State
    requires q.page > 0
  {
    Crash(s, Written(s, PlanOf(q, s, e)), e.cut)
  }

  ghost function RunOf(q: Queries, s: State, es: seq<Event>): State
    requires q.page > 0
    decreases |es|
  {
    if es == [] then s else RunOf(q, AfterEvent(q, s, es[0]), es[1..])
  }

  lemma EventKeeps(q: Queries, s: State, e: Event)
    requires Sound(q) && Inv(s)
    ensures q.page > 0 && Inv(AfterEvent(q, s, e)) && AfterEvent(q, s, e).id == s.id
  {
    hide Inv, Journal.Crash, CreatePuts, DeletePuts, Sound, Written;
    PageIsPositive(q);
    var ps := PlanOf(q, s, e);
    var n := WrittenStops(s, ps, e.cut);
    SameId(s, ps, n);
    match e {
      case Create(r, _) => CreationStops(q, s, r, n);
      case Delete(deleteCurrent, _) =>
        if s.entry.Some? {
          DeletionStops(q, s, s.entry.value, deleteCurrent, n);
        } else {
          Journal.Nothing(Apply, s, [], n);
        }
    }
  }

  lemma {:induction false} SameId(s: State, ps: seq<Put>, k: nat)
    ensures Crash(s, ps, k).id == s.id
    decreases |ps|
  {
    if ps != [] && k > 0 {
      OneKeepsId(s, ps[0]);
      hide Apply;
      SameId(Apply(s, ps[0]), ps[1..], k - 1);
    }
  }

  lemma OneKeepsId(s: State, p: Put)
    ensures Apply(s, p).id == s.id
  {
  }

  /**
    After any run of creations and deletions, each stopped anywhere or refused: every definition
    is named by the entry, every column has its definition, an entry has an owner, and a schema
    in use has its relations.
   */
  lemma {:induction false} RunsLeaveNoOrphans(q: Queries, s: State, es: seq<Event>)
    requires Sound(q) && Inv(s)
    ensures q.page > 0 && Inv(RunOf(q, s, es)) && RunOf(q, s, es).id == s.id
    decreases |es|
  {
    hide Inv, AfterEvent, Sound;
    PageIsPositive(q);
    if es != [] {
      EventKeeps(q, s, es[0]);
      RunsLeaveNoOrphans(q, AfterEvent(q, s, es[0]), es[1..]);
    }
  }

  // ----- a table that is stuck -----

  lemma RefusedWritten(q: Queries, s: State, r: Request)
    requires Sound(q) && Inv(s) && !IsLive(s) && !Clearable(q, s)
    ensures q.page > 0 && s.entry.Some?
    ensures Written(s, CreatePuts(q, s, r)) == Written(s, DeletePuts(q, s, s.entry.value, true))
    ensures !Finishes(s, CreatePuts(q, s, r))
  {
    hide BuildPuts, DeletePuts, Sound, Written, Finishes, Removable;
    PageIsPositive(q);
    if s.entry.None? {
      NoEntry(s);
      NoDefsClearable(q, s);
    } else {
      hide Inv, Clearable;
      ClearStops(q, s, 0);
      if r.offices != Some([]) {
        WrittenConcat(s, ClearPuts(q, s), BuildPuts(q, Replay(s, ClearPuts(q, s)), r));
      }
    }
  }

  lemma DeletionStuck(q: Queries, s: State, deleteCurrent: bool, k: nat)
    requires Sound(q) && Inv(s) && s.entry.Some? && !Clearable(q, s)
    ensures q.page > 0
    ensures
      var s' := Crash(s, Written(s, DeletePuts(q, s, s.entry.value, deleteCurrent)), k);
      !Clearable(q, s') && (!IsLive(s) ==> !IsLive(s'))
  {
    hide Inv, DeletePuts, Sound, Written, Clearable, Journal.Crash;
    PageIsPositive(q);
    var m := s.entry.value;
    var n := WrittenStops(s, DeletePuts(q, s, m, deleteCurrent), k);
    DeletionResists(q, s, m, deleteCurrent, n);
    if !IsLive(s) {
      DeletionNeverLive(q, s, m, deleteCurrent);
      NeverLiveStops(s, DeletePuts(q, s, m, deleteCurrent), n);
    }
  }

  lemma EventStuck(q: Queries, s: State, e: Event)
    requires Sound(q) && Inv(s) && !Clearable(q, s)
    ensures q.page > 0 && !Clearable(q, AfterEvent(q, s, e)) && (!IsLive(s) ==> !IsLive(AfterEvent(q, s, e)))
  {
    hide DeletePuts, Sound, Written, Journal.Crash, CreatePuts, Removable;
    PageIsPositive(q);
    if s.entry.None? {
      NoEntry(s);
      NoDefsClearable(q, s);
    } else {
      hide Inv, Clearable;
      match e {
        case Create(r, cut) =>
          if IsLive(s) {
            NoWrites(q, s, r);
            NothingWritten(s, cut);
          } else {
            RefusedWritten(q, s, r);
            DeletionStuck(q, s, true, cut);
          }
        case Delete(deleteCurrent, cut) => DeletionStuck(q, s, deleteCurrent, cut);
      }
    }
  }

  lemma NoWrites(q: Queries, s: State, r: Request)
    requires q.page > 0 && IsLive(s)
    ensures CreatePuts(q, s, r) == []
  {
  }

  lemma NothingWritten(s: State, k: nat)
    ensures Crash(s, Written(s, []), k) == s
  {
  }

  /**
    Once there is a definition with a relation that is refused, the table stays as it is for
    ever: no later deletion finishes, and no later creation finishes either unless the schema is
    still in use, when it writes nothing.
   */
  lemma {:induction false} StuckForEver(q: Queries, s: State, es: seq<Event>, r: Request)
    requires Sound(q) && Inv(s) && !Clearable(q, s)
    ensures q.page > 0
    ensures
      var t := RunOf(q, s, es);
      && !Clearable(q, t) && t.entry.Some? && !Finishes(t, DeletePuts(q, t, t.entry.value, true))
      && (!IsLive(s) ==> !IsLive(t)) && (!IsLive(t) ==> !Finishes(t, CreatePuts(q, t, r)))
    decreases |es|
  {
    hide Inv, Clearable, DeletePuts, CreatePuts, AfterEvent, Sound, Finishes, IsLive;
    PageIsPositive(q);
    if es == [] {
      if !IsLive(s) { RefusedWritten(q, s, r); }
      HasEntry(q, s);
      DeletionFinishesIff(q, s, s.entry.value);
    } else {
      EventKeeps(q, s, es[0]);
      EventStuck(q, s, es[0]);
      StuckForEver(q, AfterEvent(q, s, es[0]), es[1..], r);
    }
  }

  lemma HasEntry(q: Queries, s: State)
    requires Inv(s) && !Clearable(q, s)
    ensures s.entry.Some?
  {
    if s.entry.None? {
      NoEntry(s);
      NoDefsClearable(q, s);
    }
  }

  // ----- creations that are refused -----

  lemma RequestedAre(q: Queries, s: State, r: Request)
    requires q.page > 0
    ensures
      var p := Prepared(q, s, r);
      && p.id == s.id && p.relations == s.relations && p.defs == map[r.schema := ConvertIdentifier(s.id)]
      && p.entry == Some(Started(r))
      && Openings(q, p, r.schema)[0] == DataOpenings(q, s.id, r)[0]
      && Openings(q, p, r.schema)[1] == DataOpenings(q, s.id, r)[1]
  {
    hide HowTo, RowsOf, ConvertIdentifier, LogName, ColsFrom, AclsFor;
  }

  /** What a creation leaves that got as far as the relations. */
  lemma RefusedBuild(q: Queries, s: State, r: Request)
    requires Sound(q) && Inv(s) && s.entry.None? && !Buildable(q, s, r)
    ensures q.page > 0
    ensures
      var s' := Replay(s, Written(s, BuildPuts(q, s, r)));
      !Clearable(q, s') && !IsLive(s')
  {
    PageIsPositive(q);
    BuildWritten(q, s, r);
    RequestedAre(q, s, r);
    DataAre(q, s.id, r);
    hide Sound, Inv, BuildPuts, Written, Buildable, DataOpenings, ConvertIdentifier, Journal.Replay, Prepared;
    hide Accepted, Openings, OpenPuts, DefPuts;
    var p, ps, last := Prepared(q, s, r), DataOpenings(q, s.id, r), LastPuts(q, s.id, r);
    var before := OpenPuts(q, s, r) + DefPuts(s.id, r);
    ThreeFinish(p, ps[0], ps[1], PutEntry(Live(r)));
    Journal.ReplayConcat(Apply, s, before, Written(p, last));
    SameBuildable(q, s, p, r);
    LogAfterData(q, p, r);
    NotRemovable(q, p, r);
    if Accepted(p, ps[0]) {
      AddedRemovable(q, p, r.schema, 0);
      Journal.One(Apply, p, ps[0], 1);
      Unclearable(q, Apply(p, ps[0]), r.schema);
    } else {
      Journal.Nothing(Apply, p, [], 0);
      Unclearable(q, p, r.schema);
    }
  }

  lemma Unclearable(q: Queries, s: State, t: ETag)
    requires t in s.defs && !Removable(q, s, t)
    ensures !Clearable(q, s)
  {
  }

  lemma NotRemovable(q: Queries, p: State, r: Request)
    requires r.schema in p.defs && !Buildable(q, p, r)
    requires Openings(q, p, r.schema)[0] == DataOpenings(q, p.id, r)[0]
    requires Openings(q, p, r.schema)[1] == DataOpenings(q, p.id, r)[1]
    ensures !Removable(q, p, r.schema)
  {
    hide Accepted, HowTo, RowsOf, ConvertIdentifier, LogName, BaseOk;
    var list := Openings(q, p, r.schema);
    assert list[0] in list && list[1] in list;
  }

  /** The first creation with relations that are refused makes the table stuck. */
  lemma FirstAttemptSticks(q: Queries, s: State, r: Request)
    requires Sound(q) && Inv(s) && !IsLive(s) && r.offices != Some([])
    requires Clearable(q, s) && q.page > 0 && !Buildable(q, Cleared(q, s), r)
    ensures
      var s' := Replay(s, Written(s, CreatePuts(q, s, r)));
      Inv(s') && !Clearable(q, s') && !IsLive(s')
  {
    hide Sound, Inv, BuildPuts, ClearPuts, Written, Buildable;
    hide Journal.Replay, Journal.Crash, Cleared, Clearable, IsLive;
    var clear := ClearPuts(q, s);
    var c := Cleared(q, s);
    ClearStops(q, s, 0);
    CreateSplit(q, s, r);
    WrittenConcat(s, clear, BuildPuts(q, c, r));
    Journal.ReplayConcat(Apply, s, clear, Written(c, BuildPuts(q, c, r)));
    RefusedBuild(q, c, r);
    var ps := CreatePuts(q, s, r);
    EventKeeps(q, s, Create(r, |Written(s, ps)|));
    Journal.CrashAll(Apply, s, Written(s, ps), |Written(s, ps)|);
  }

  lemma CreateSplit(q: Queries, s: State, r: Request)
    requires q.page > 0 && !IsLive(s) && r.offices != Some([])
    ensures CreatePuts(q, s, r) == ClearPuts(q, s) + BuildPuts(q, Replay(s, ClearPuts(q, s)), r)
  {
    hide ClearPuts, BuildPuts, Journal.Replay;
  }

  // ----- names that are refused -----

  /** The names of the data relation and its log are accepted. */
  ghost predicate DataNamesOk(id: string) {
    NameOk(ConvertIdentifier(id)) && NameOk(LogName(ConvertIdentifier(id)))
  }

  lemma RefusedNames(q: Queries, s: State, r: Request)
    requires !DataNamesOk(s.id)
    ensures !Buildable(q, s, r)
  {
    hide NameOk, ConvertIdentifier, LogName, FieldsOk;
  }

  lemma PrepareNeverLive(q: Queries, s: State, r: Request)
    requires q.page > 0
    ensures NeverLive(OpenPuts(q, s, r) + DefPuts(s.id, r))
  {
    forall p | p in OpenPuts(q, s, r) + DefPuts(s.id, r) && p.PutEntry? ensures p.e.live.None? {
      DropAclsAre(FirstPage(q, s.acls), p);
      PutColsAre(r.columns, r.schema, r.first, p);
    }
  }

  lemma ClearNeverLive(q: Queries, s: State)
    requires q.page > 0 && !IsLive(s)
    ensures NeverLive(ClearPuts(q, s))
  {
    hide DeletePuts;
    if s.entry.Some? { DeletionNeverLive(q, s, s.entry.value, true); }
  }

  lemma PrefixNeverLive(a: seq<Put>, b: seq<Put>)
    requires NeverLive(b) && a <= b
    ensures NeverLive(a)
  {
    forall p | p in a && p.PutEntry? ensures p.e.live.None? { assert p in b; }
  }

  /** No creation puts the schema into use whose relations are refused. */
  lemma RefusedNeverLive(q: Queries, s: State, r: Request)
    requires Sound(q) && Inv(s) && !IsLive(s) && !DataNamesOk(s.id)
    ensures q.page > 0 && NeverLive(Written(s, CreatePuts(q, s, r)))
  {
    hide Sound, Inv, BuildPuts, ClearPuts, Written, Buildable;
    hide Journal.Replay, Journal.Crash, Cleared, Clearable, IsLive;
    hide DataNamesOk, NeverLive, OpenPuts, DefPuts, LastPuts, Prepared;
    PageIsPositive(q);
    var clear := ClearPuts(q, s);
    var c := Cleared(q, s);
    ClearStops(q, s, 0);
    ClearNeverLive(q, s);
    WrittenIsPrefix(s, clear);
    PrefixNeverLive(Written(s, clear), clear);
    if r.offices == Some([]) {
      ClearOnly(q, s, r);
    } else {
      CreateSplit(q, s, r);
      WrittenConcat(s, clear, BuildPuts(q, c, r));
      SameId(s, clear, |clear|);
      Journal.CrashAll(Apply, s, clear, |clear|);
      BuildWritten(q, c, r);
      PrepareNeverLive(q, c, r);
      LastNeverLive(q, c, Prepared(q, c, r), r);
      TwoNeverLive(clear, OpenPuts(q, c, r) + DefPuts(c.id, r), Written(Prepared(q, c, r), LastPuts(q, c.id, r)));
    }
  }

  lemma ClearOnly(q: Queries, s: State, r: Request)
    requires q.page > 0 && !IsLive(s) && r.offices == Some([])
    ensures CreatePuts(q, s, r) == ClearPuts(q, s)
  {
  }

  lemma TwoNeverLive(a: seq<Put>, b: seq<Put>, c: seq<Put>)
    requires NeverLive(a) && NeverLive(b) && NeverLive(c)
    ensures NeverLive(a + (b + c))
  {
  }

  lemma LastNeverLive(q: Queries, c: State, p: State, r: Request)
    requires q.page > 0 && !DataNamesOk(c.id) && p == Prepared(q, c, r)
    ensures NeverLive(Written(p, LastPuts(q, c.id, r)))
  {
    RequestedAre(q, c, r);
    hide Prepared, DataNamesOk, Accepted, Written, Finishes, DataOpenings;
    var ps := DataOpenings(q, c.id, r);
    DataAre(q, c.id, r);
    ThreeFinish(p, ps[0], ps[1], PutEntry(Live(r)));
    LogAfterData(q, p, r);
    RefusedNames(q, p, r);
  }

  /** Where the names of its two relations are refused, a table never comes into use. */
  lemma {:induction false} RefusedNamesNeverLive(q: Queries, s: State, es: seq<Event>)
    requires Sound(q) && Inv(s) && !IsLive(s) && !DataNamesOk(s.id)
    ensures q.page > 0 && !IsLive(RunOf(q, s, es))
    decreases |es|
  {
    hide Sound, Inv, DataNamesOk, IsLive, AfterEvent;
    PageIsPositive(q);
    if es != [] {
      EventKeeps(q, s, es[0]);
      EventNeverLive(q, s, es[0]);
      RefusedNamesNeverLive(q, AfterEvent(q, s, es[0]), es[1..]);
    }
  }

  lemma EventNeverLive(q: Queries, s: State, e: Event)
    requires Sound(q) && Inv(s) && !IsLive(s) && !DataNamesOk(s.id)
    ensures q.page > 0 && !IsLive(AfterEvent(q, s, e))
  {
    hide Sound, Inv, DataNamesOk, Written, Journal.Crash, CreatePuts, DeletePuts;
    PageIsPositive(q);
    var ps := PlanOf(q, s, e);
    match e {
      case Create(r, cut) => RefusedNeverLive(q, s, r);
      case Delete(deleteCurrent, cut) =>
        if s.entry.Some? { DeletionNeverLive(q, s, s.entry.value, deleteCurrent); }
        WrittenIsPrefix(s, ps);
        PrefixNeverLive(Written(s, ps), ps);
    }
    NeverLiveStops(s, Written(s, ps), e.cut);
  }

  // ----- from whatever a run leaves -----

  /**
    From whatever a run leaves: a full creation finishes just when what is there can be cleared
    and the two relations of the data can be opened, and then it leaves the schema that was asked
    for; a full deletion finishes just when what is there can be cleared, and then nothing is
    left.  If it cannot be cleared now, it never can.
   */
  lemma RunThenFinish(q: Queries, s: State, es: seq<Event>, r: Request, later: seq<Event>)
    requires Sound(q) && Inv(s) && r.offices != Some([])
    ensures q.page > 0
    ensures
      var t := RunOf(q, s, es);
      && (!IsLive(t) ==>
            && (Finishes(t, CreatePuts(q, t, r)) <==> Clearable(q, t) && Buildable(q, Cleared(q, t), r))
            && Replay(t, CreatePuts(q, t, r)) == Built(q, Cleared(q, t), r))
      && (IsLive(t) ==> CreatePuts(q, t, r) == [])
      && (t.entry.Some? ==>
            && (Finishes(t, DeletePuts(q, t, t.entry.value, true)) <==> Clearable(q, t))
            && Replay(t, DeletePuts(q, t, t.entry.value, true)) == Emptied(q, t))
      && (t.entry.None? ==> t.defs == map[] && t.cols == map[])
      && (!Clearable(q, t) ==> !Clearable(q, RunOf(q, t, later)))
  {
    hide Inv, CreatePuts, DeletePuts, AclsLeft, RunOf, Sound, Clearable, Buildable, Cleared, Emptied, Built, Finishes;
    PageIsPositive(q);
    var t := RunOf(q, s, es);
    RunsLeaveNoOrphans(q, s, es);
    if IsLive(t) {
      NoWrites(q, t, r);
    } else {
      CreationFinishesIff(q, t, r);
      CreationDone(q, t, r);
    }
    if t.entry.Some? {
      DeletionFinishesIff(q, t, t.entry.value);
      DeletionDone(q, t, t.entry.value);
    } else {
      NoEntry(t);
    }
    if !Clearable(q, t) { StuckForEver(q, t, later, r); }
  }
}
