/** Inputs for which a table is stuck, and tables that meet in one relation. */
module TableCases {
  import Journal
  import opened Wrappers
  import opened BackingNames
  import opened TableState
  import opened TableDeletion
  import opened TableRefusals
  import opened TableCreation
  import opened TableRuns
  import opened TableOrder

  /** Nothing is stored about the table, and no relation has one of its names. */
  ghost predicate Untouched(s: State) {
    && s == Nothing(s.id, s.relations, s.tag, s.files, s.contents)
    && Quiet(s) && ManifestName(s.id) !in s.relations
  }

  lemma UntouchedIs(q: Queries, s: State)
    requires Untouched(s)
    ensures Inv(s) && Clearable(q, s) && !IsLive(s) && s.entry.None? && s.defs == map[]
  {
    NothingStoredOk(s.id, s.relations, s.tag, s.files, s.contents);
  }

  // ----- a table that cannot be created -----

  /**
    The table a--b: its first creation is refused when its owner, its entry, its definition and its
    columns have been written.  No later creation or deletion finishes, and it never comes into use.
   */
  lemma TwoHyphensStick(q: Queries, s: State, r: Request, es: seq<Event>, r2: Request)
    requires Sound(q) && Untouched(s) && s.id == "a--b" && r.offices != Some([])
    ensures q.page > 0 && !Finishes(s, CreatePuts(q, s, r))
    ensures
      var t := RunOf(q, Replay(s, Written(s, CreatePuts(q, s, r))), es);
      && t.entry.Some? && t.defs != map[] && !IsLive(t)
      && !Finishes(t, CreatePuts(q, t, r2)) && !Finishes(t, DeletePuts(q, t, t.entry.value, true))
  {
    PageIsPositive(q);
    TwoHyphensRefused();
    UntouchedIs(q, s);
    RefusedNames(q, Cleared(q, s), r);
    hide Sound, Inv, Clearable, Buildable, Untouched, CreatePuts, DeletePuts, Written, Finishes, RunOf, Journal.Replay;
    CreationFinishesIff(q, s, r);
    FirstAttemptSticks(q, s, r);
    var s1 := Replay(s, Written(s, CreatePuts(q, s, r)));
    StuckForEver(q, s1, es, r2);
    StuckDefs(q, RunOf(q, s1, es));
  }

  lemma StuckDefs(q: Queries, s: State)
    requires !Clearable(q, s)
    ensures s.defs != map[]
  {
  }

  // ----- a table that cannot be deleted -----

  /** The deletion of a table in use whose manifests have a name that is refused. */
  lemma DataIsLost(q: Queries, s: State)
    requires q.page > 0 && Inv(s) && IsLive(s)
    requires s.entry.value == Entry(None, s.entry.value.live, None, None, s.entry.value.offices)
    requires
      var list := Openings(q, s, s.entry.value.live.value);
      Accepted(s, list[0]) && Accepted(s, list[1]) && !NameOk(ManifestName(s.id))
    ensures
      var s' := Replay(s, Written(s, DeletePuts(q, s, s.entry.value, true)));
      Quiet(s') && !IsLive(s') && !Clearable(q, s') && Inv(s')
  {
    hide Inv, Accepted, Openings, NameOk, ManifestName, ConvertIdentifier, LogName;
    var m := s.entry.value;
    var t := m.live.value;
    var m1 := m.(stale := m.live, live := None);
    var s1 := Apply(s, PutEntry(m1));
    InvEntry(s, m);
    LiveFacts(s);
    FirstRound(q, s, m);
    FitsEntry(s, m1) by { LiveToStale(s, m); }
    SameOpenings(q, s, s1, t);
    var list := Openings(q, s, t);
    OpeningsAre(q, s, t);
    AcceptedHere(s, s1, list);
    hide DeletePuts, Written, Apply, Journal.Replay;
    StaleRefused(q, s1, m1);
    EntryFirst(s, m1, DeletePuts(q, s1, m1, true), 0);
    var w := Written(s1, DeletePuts(q, s1, m1, true));
    Journal.ReplayConcat(Apply, s, [PutEntry(m1)], w);
    Journal.One(Apply, s, PutEntry(m1), 1);
  }

  lemma LiveFacts(s: State)
    requires Inv(s) && IsLive(s)
    ensures s.entry.value.live.value in s.defs && s.defs[s.entry.value.live.value] == ConvertIdentifier(s.id)
  {
  }

  lemma LiveToStale(s: State, m: Entry)
    requires Inv(s) && s.entry == Some(m) && m.live.Some? && m.pendingData.None? && m.pending.None? && m.stale.None?
    ensures Fits(s, m.(stale := m.live, live := None))
  {
  }

  lemma FirstRound(q: Queries, s: State, m: Entry)
    requires q.page > 0 && m == Entry(None, m.live, None, None, m.offices) && m.live.Some?
    ensures
      var m1 := m.(stale := m.live, live := None);
      DeletePuts(q, s, m, true) == [PutEntry(m1)] + DeletePuts(q, Apply(s, PutEntry(m1)), m1, true)
  {
    DeleteSplit(q, s, m, true);
    assert RoundPuts(q, s, m) == [];
    Journal.Nothing(Apply, s, [], 0);
  }

  lemma AcceptedHere(s: State, s1: State, list: seq<Put>)
    requires s1.relations == s.relations && |list| == 3 && forall i :: 0 <= i < 3 ==> list[i].AddRelation?
    ensures Accepted(s1, list[0]) <==> Accepted(s, list[0])
    ensures Accepted(s1, list[1]) <==> Accepted(s, list[1])
  {
    OtherRelation(s, s1, list[0]);
    OtherRelation(s, s1, list[1]);
  }

  /** The removal drops the two relations of the data and is refused at the third. */
  lemma StaleRefused(q: Queries, s: State, m: Entry)
    requires q.page > 0 && Inv(s) && s.entry == Some(m) && m.live.None? && m.stale.Some? && m.stale.value in s.defs
    requires
      var list := Openings(q, s, m.stale.value);
      Accepted(s, list[0]) && Accepted(s, list[1]) && !NameOk(ManifestName(s.id))
    ensures
      var s' := Replay(s, Written(s, DeletePuts(q, s, m, true)));
      Quiet(s') && !IsLive(s') && !Clearable(q, s') && Inv(s')
  {
    var t := m.stale.value;
    DefName(s, t);
    TwoGone(q, s, t);
    hide Accepted, Openings, NameOk, WorkPuts, DeletePuts, Journal.Replay, ManifestName;
    hide Written, Finishes, Inv, Quiet, Apply;
    var work := WorkPuts(q, s, t);
    DeleteStarts(q, s, m);
    WrittenConcat(s, work, DeletePuts(q, s, m, true)[|work|..]);
    PrefixAnd(work, DeletePuts(q, s, m, true));
    var s' := Replay(s, Written(s, work));
    WorkedInv(s, s');
    ManifestRefused(q, s', t);
  }

  lemma PrefixAnd(a: seq<Put>, b: seq<Put>)
    requires a <= b
    ensures b == a + b[|a|..]
  {
  }

  lemma TwoGone(q: Queries, s: State, t: ETag)
    requires t in s.defs && s.defs[t] == ConvertIdentifier(s.id)
    requires
      var list := Openings(q, s, t);
      Accepted(s, list[0]) && Accepted(s, list[1]) && !NameOk(ManifestName(s.id))
    ensures !Finishes(s, WorkPuts(q, s, t))
    ensures
      var s' := Replay(s, Written(s, WorkPuts(q, s, t)));
      Quiet(s') && s' == s.(relations := s'.relations)
  {
    var list := Openings(q, s, t);
    OpeningsDiffer(q, s, t);
    OpeningsAre(q, s, t);
    assert list[2] in list && !Accepted(s, list[2]);
    hide Accepted, NameOk, ManifestName, OpenDrops, Written, Finishes, WorkPuts, Journal.Replay;
    hide ConvertIdentifier, LogName, HowTo, RowsOf, DistinctNames;
    WorkFinishesIff(q, s, t);
    TwoDropped(s, list);
  }

  lemma DeleteStarts(q: Queries, s: State, m: Entry)
    requires q.page > 0 && m.stale.Some? && m.stale.value in s.defs
    ensures WorkPuts(q, s, m.stale.value) <= DeletePuts(q, s, m, true)
  {
    hide WorkPuts, PendingPuts;
    DeleteSplit(q, s, m, true);
    hide DeletePuts, AclPuts;
    var work := WorkPuts(q, s, m.stale.value);
    assert work <= StalePuts(q, s, m) <= RoundPuts(q, s, m) <= DeletePuts(q, s, m, true);
  }

  lemma ManifestRefused(q: Queries, s: State, t: ETag)
    requires t in s.defs && !NameOk(ManifestName(s.id))
    ensures !Clearable(q, s)
  {
    hide NameOk, ManifestName, HowTo, RowsOf;
    var list := Openings(q, s, t);
    assert list[2] in list && !Accepted(s, list[2]);
    assert !Removable(q, s, t);
  }

  /** An opening that is accepted leaves the answer for the relations after it. */
  lemma NextOpening(s: State, list: seq<Put>)
    requires DistinctNames(list) && list != []
    ensures AllOpenings(list) && DistinctNames(list[1..])
    ensures
      var s2 := s.(relations := s.relations - {list[0].name});
      && (forall p :: p in list[1..] ==> (Accepted(s2, p) <==> Accepted(s, p)))
      && Written(s, OpenDrops(list)) == (
           if Accepted(s, list[0]) then [list[0], DropRelation(list[0].name)] + Written(s2, OpenDrops(list[1..]))
           else [])
      && Replay(s, [list[0], DropRelation(list[0].name)]) == s2
  {
    var p, d := list[0], DropRelation(list[0].name);
    SplitNames(list);
    OpenDropOne(s, p);
    CrashPair(s, p, d, 2);
    PairWritten(s, p, OpenDrops(list[1..]));
    var s2 := s.(relations := s.relations - {p.name});
    forall x | x in list[1..] ensures Accepted(s2, x) <==> Accepted(s, x) { OtherRelation(s, s2, x); }
  }

  lemma TwoDropped(s: State, list: seq<Put>)
    requires DistinctNames(list) && |list| == 3
    requires Accepted(s, list[0]) && Accepted(s, list[1]) && !Accepted(s, list[2])
    ensures AllOpenings(list)
    ensures Replay(s, Written(s, OpenDrops(list))) == s.(relations := s.relations - {list[0].name} - {list[1].name})
  {
    hide Accepted, DistinctNames, AllOpenings, OpenDrops, Written, Apply, Journal.Replay;
    var rest := list[1..];
    NextOpening(s, list);
    assert rest[0] == list[1] && rest[0] in rest && rest[1] == list[2] && rest[1] in rest;
    var s2 := s.(relations := s.relations - {list[0].name});
    NextOpening(s2, rest);
    assert rest[1..][0] == rest[1] && rest[1] in rest[1..];
    var s4 := s2.(relations := s2.relations - {rest[0].name});
    NextOpening(s4, rest[1..]);
    var a, b := [list[0], DropRelation(list[0].name)], [rest[0], DropRelation(rest[0].name)];
    assert Written(s, OpenDrops(list)) == a + (b + []) == a + b;
    Journal.ReplayConcat(Apply, s, a, b);
  }

  /**
    The table a-b can be created.  Its deletion drops its data and is refused at the manifests
    of its attachments; the table is out of use, and no later deletion or creation finishes.
   */
  lemma HyphenTableIsLost(q: Queries, s: State, r: Request, es: seq<Event>, r2: Request)
    requires Sound(q) && Untouched(s) && s.id == "a-b" && r.offices != Some([]) && GoodRows(q, Requested(r))
    ensures q.page > 0 && Finishes(s, CreatePuts(q, s, r))
    ensures
      var s1 := Replay(s, CreatePuts(q, s, r));
      && s1.entry == Some(Live(r)) && !Finishes(s1, DeletePuts(q, s1, Live(r), true))
      && var s2 := Replay(s1, Written(s1, DeletePuts(q, s1, Live(r), true)));
         var t := RunOf(q, s2, es);
         && Quiet(s2) && t.entry.Some? && !IsLive(t)
         && !Finishes(t, CreatePuts(q, t, r2)) && !Finishes(t, DeletePuts(q, t, t.entry.value, true))
  {
    PageIsPositive(q);
    HyphenStaysForEver();
    DeletableNot();
    UntouchedIs(q, s);
    UntouchedBuildable(q, s, r);
    hide Sound, Inv, Clearable, Buildable, Untouched, CreatePuts, DeletePuts, Written, Finishes, RunOf, Journal.Replay;
    hide NameOk, ConvertIdentifier, ManifestName, GoodRows, Requested, Built, Accepted, Openings, Quiet;
    CreationFinishesIff(q, s, r);
    CreationDone(q, s, r);
    var s1 := Built(q, s, r);
    BuiltFacts(q, s, r);
    DeletionFinishesIff(q, s1, Live(r));
    DataIsLost(q, s1);
    var s2 := Replay(s1, Written(s1, DeletePuts(q, s1, Live(r), true)));
    ManifestRefused(q, s1, r.schema);
    StuckForEver(q, s2, es, r2);
  }

  lemma DeletableNot()
    ensures !NameOk(ManifestName("a-b"))
  {
    assert "a-b"[1] == '-';
    HyphensStay("a-b");
    PlainJoined(Upper("a-b"), "_MFE");
  }

  lemma UntouchedBuildable(q: Queries, s: State, r: Request)
    requires Untouched(s) && DataNamesOk(s.id) && GoodRows(q, Requested(r))
    ensures Buildable(q, s, r)
  {
    var rows := Requested(r);
    assert SubMap(rows, rows);
    assert GoodFields(HowTo(q, false, rows)) && GoodFields(HowTo(q, true, rows));
    hide NameOk, FieldsOk, ConvertIdentifier, LogName, GoodRows, HowTo, Requested;
  }

  /** Right after its creation, the relations of the data can be opened again. */
  lemma BuiltFacts(q: Queries, s: State, r: Request)
    requires Sound(q) && Untouched(s) && Buildable(q, s, r) && q.page > 0
    ensures
      var s1 := Built(q, s, r);
      && Inv(s1) && IsLive(s1) && s1.entry.value == Live(r) && s1.id == s.id && r.schema in s1.defs
      && Accepted(s1, Openings(q, s1, r.schema)[0]) && Accepted(s1, Openings(q, s1, r.schema)[1])
  {
    UntouchedIs(q, s);
    BuildDone(q, s, r);
    BuildStops(q, s, r, |BuildPuts(q, s, r)|);
    Journal.CrashAll(Apply, s, BuildPuts(q, s, r), |BuildPuts(q, s, r)|);
    BuiltIs(q, s, r);
    BuiltOpens(q, s, r);
  }

  lemma BuiltOpens(q: Queries, s: State, r: Request)
    requires q.page > 0 && Buildable(q, s, r)
    ensures
      var s1 := Built(q, s, r);
      && r.schema in s1.defs
      && Accepted(s1, Openings(q, s1, r.schema)[0]) && Accepted(s1, Openings(q, s1, r.schema)[1])
  {
    var p := Prepared(q, s, r);
    RequestedAre(q, s, r);
    SameBuildable(q, s, p, r);
    hide Prepared;
    var ps := DataOpenings(q, s.id, r);
    DataAre(q, s.id, r);
    EntryStays(p, ps[0]);
    LogAfterData(q, p, r);
    var p1 := Apply(p, ps[0]);
    OpenedAgain(p, ps[0]);
    EntryStays(p1, ps[1]);
    OpenedAgain(p1, ps[1]);
    var p2 := Apply(p1, ps[1]);
    TableNamesDiffer(s.id);
    OpenDropOne(p1, ps[1]);
    OtherRelation(p1, p2, ps[0]);
    WithDataIs(q, p, r);
    var s1 := p2.(entry := Some(Live(r)));
    hide Accepted, Apply;
    SameOpenings(q, p, s1, r.schema);
    AcceptedHere(p2, s1, Openings(q, p, r.schema)) by { OpeningsAre(q, p, r.schema); }
  }

  // ----- a creation that stops between two columns -----

  /** The first of two columns is written and the second is not. */
  function HalfPuts(q: Queries, s: State, r: Request): seq<Put>
    requires q.page > 0 && r.columns != []
  {
    OpenPuts(q, s, r)
    + [PutDef(r.schema, ConvertIdentifier(s.id)), PutCol(r.first, ColumnRow(r.schema, r.columns[0]))]
  }

  lemma HalfIsPrefix(q: Queries, s: State, r: Request)
    requires q.page > 0 && r.columns != []
    ensures HalfPuts(q, s, r) <= OpenPuts(q, s, r) + DefPuts(s.id, r)
  {
    hide OpenPuts, ConvertIdentifier;
    var two := [PutDef(r.schema, ConvertIdentifier(s.id)), PutCol(r.first, ColumnRow(r.schema, r.columns[0]))];
    assert DefPuts(s.id, r) == two + PutCols(r.columns[1..], r.schema, r.first + 1);
  }

  lemma HalfState(q: Queries, s: State, r: Request)
    requires Sound(q) && Inv(s) && s.entry.None? && r.columns != []
    ensures q.page > 0
    ensures
      var h := Replay(s, HalfPuts(q, s, r));
      r.schema in h.defs && RowsOf(h.cols, r.schema) == map[r.first := r.columns[0]]
  {
    PageIsPositive(q);
    OpenStops(q, s, r, 0);
    NoEntry(s);
    hide Sound, Inv, OpenPuts, ConvertIdentifier, AclsFor, Journal.Replay, Opened, Apply, RowsOf;
    var s1 := Replay(s, OpenPuts(q, s, r));
    var def, col := PutDef(r.schema, ConvertIdentifier(s.id)), PutCol(r.first, ColumnRow(r.schema, r.columns[0]));
    Journal.ReplayConcat(Apply, s, OpenPuts(q, s, r), [def, col]);
    CrashPair(s1, def, col, 2);
    OneRow(s1, r.schema, r.first, r.columns[0]);
  }

  lemma OneRow(s: State, t: ETag, u: Uri, column: Column)
    requires s.cols == map[]
    ensures
      var h := Apply(Apply(s, PutDef(t, ConvertIdentifier(s.id))), PutCol(u, ColumnRow(t, column)));
      t in h.defs && RowsOf(h.cols, t) == map[u := column]
  {
    hide ConvertIdentifier;
  }

  /**
    A column whose fields need another one that is not stored yet: a creation that stops between
    the two leaves a table that cannot be cleared, although the whole request is accepted.
   */
  lemma HalfWrittenColumnsStick(q: Queries, s: State, r: Request, es: seq<Event>, r2: Request)
    requires Sound(q) && Untouched(s) && r.columns != [] && r.offices != Some([])
    requires HowTo(q, false, map[r.first := r.columns[0]]).fields == None
    ensures q.page > 0
    ensures
      var h := AfterEvent(q, s, Create(r, |HalfPuts(q, s, r)|));
      var t := RunOf(q, h, es);
      && !Clearable(q, h) && t.entry.Some? && !Finishes(t, DeletePuts(q, t, t.entry.value, true))
      && (!IsLive(h) ==> !IsLive(t) && !Finishes(t, CreatePuts(q, t, r2)))
  {
    PageIsPositive(q);
    UntouchedIs(q, s);
    HalfState(q, s, r);
    HalfStops(q, s, r);
    var h := Replay(s, HalfPuts(q, s, r));
    FieldsMissing(q, h, r.schema);
    EventKeeps(q, s, Create(r, |HalfPuts(q, s, r)|));
    hide Sound, Inv, Clearable, Untouched, CreatePuts, DeletePuts, HalfPuts, Finishes, RunOf, AfterEvent, IsLive;
    StuckForEver(q, h, es, r2);
  }

  lemma FirstBuild(q: Queries, s: State, r: Request)
    requires q.page > 0 && s.entry.None? && r.offices != Some([])
    ensures CreatePuts(q, s, r) == BuildPuts(q, s, r)
  {
    hide BuildPuts;
    Journal.Nothing(Apply, s, [], 0);
  }

  lemma StoppedAt(s: State, ps: seq<Put>, half: seq<Put>)
    requires half <= ps
    ensures Crash(s, ps, |half|) == Replay(s, half)
  {
    Journal.CrashIsPrefix(Apply, s, ps, |half|);
    assert ps[..|half|] == half;
    if |half| == |ps| { assert half == ps; }
  }

  /** Nothing is refused before the second column. */
  lemma HalfStops(q: Queries, s: State, r: Request)
    requires Sound(q) && Untouched(s) && r.columns != [] && r.offices != Some([])
    ensures q.page > 0 && AfterEvent(q, s, Create(r, |HalfPuts(q, s, r)|)) == Replay(s, HalfPuts(q, s, r))
  {
    PageIsPositive(q);
    UntouchedIs(q, s);
    FirstBuild(q, s, r);
    hide Sound, Inv, Untouched, OpenPuts, DefPuts, Written, Journal.Replay, Journal.Crash, HalfPuts, BuildPuts;
    hide Finishes, CreatePuts, Prepared, LastPuts, Buildable;
    BuildWritten(q, s, r);
    HalfIsPrefix(q, s, r);
    var half, before := HalfPuts(q, s, r), OpenPuts(q, s, r) + DefPuts(s.id, r);
    assert half <= before <= Written(s, BuildPuts(q, s, r));
    StoppedAt(s, Written(s, BuildPuts(q, s, r)), half);
  }

  lemma FieldsMissing(q: Queries, s: State, t: ETag)
    requires t in s.defs && HowTo(q, false, RowsOf(s.cols, t)).fields == None
    ensures !Clearable(q, s)
  {
    hide RowsOf;
    var list := Openings(q, s, t);
    assert list[0] in list && !Accepted(s, list[0]);
    assert !Removable(q, s, t);
  }

  // ----- tables that meet in one relation -----

  /** The deletion of one of two tables with alike identifiers takes the relations of the other. */
  lemma DeletingSharedRelation(q: Queries, a: State, b: State)
    requires Sound(q) && Inv(a) && Inv(b) && a.relations == b.relations && Alike(a.id, b.id)
    requires a.entry.Some? && a.defs != map[] && IsLive(b)
    ensures q.page > 0
    ensures
      var after := b.(relations := Replay(a, DeletePuts(q, a, a.entry.value, true)).relations);
      Backed(b, b.entry.value.live.value) && Quiet(after) && !Backed(after, b.entry.value.live.value)
  {
    PageIsPositive(q);
    DeletionDone(q, a, a.entry.value);
    ConvertSameIff("table:" + a.id, "table:" + b.id);
    AlikeAfter("table:", a.id, b.id);
    LiveFacts(b);
    hide Sound, DeletePuts, Journal.Replay, ConvertIdentifier, LogName, ManifestName, AclsLeft, Lower;
  }

  /** The table table_a cannot be deleted while there is a data relation of the table a_mfe. */
  lemma ManifestTaken(q: Queries, s: State)
    requires s.id == "table_a" && s.defs != map[]
    requires ConvertIdentifier("a_mfe") in s.relations && MANIFEST_ETAG !in s.relations[ConvertIdentifier("a_mfe")]
    ensures !Clearable(q, s)
  {
    ManifestMeetsData();
    hide NameOk, ManifestName, ConvertIdentifier, HowTo, RowsOf;
    var t :| t in s.defs;
    var list := Openings(q, s, t);
    assert MANIFEST_ETAG in FieldSet(list[2].how);
    assert list[2] in list && !Accepted(s, list[2]);
    assert !Removable(q, s, t);
  }
}
