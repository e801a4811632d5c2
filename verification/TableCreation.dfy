/** The creation of a table, stopped after any number of its writes, and runs of creations and deletions. */
module TableCreation {
  import Journal
  import opened Wrappers
  import opened BackingNames
  import opened TableState
  import opened AclPaging
  import opened TableDeletion
  import opened TableRefusals

  /** A request to create a table, with the identifiers that its rows are given. */
  datatype Request = Request(
    columns: seq<Column>, offices: Option<seq<string>>, schema: ETag, owner: Uri, first: Uri)

  /** A creation is refused when a relation cannot be opened, or the stored columns cannot be told apart. */
  datatype Answer = Existing(entry: Entry) | New(entry: Entry) | AlreadyExists | NoOffices | Refused

  // ----- comparing schemas -----

  predicate Accepts(stored: Column, columns: seq<Column>) {
    && (exists i :: 0 <= i < |columns| && columns[i].key == stored.key)
    && (forall i :: 0 <= i < |columns| && columns[i].key == stored.key ==> columns[i] == stored)
  }

  predicate Matches(stored: seq<Column>, columns: seq<Column>) {
    |stored| == |columns| && forall i :: 0 <= i < |stored| ==> Accepts(stored[i], columns)
  }

  predicate DistinctKeys(columns: seq<Column>) {
    forall i, j :: 0 <= i < j < |columns| ==> columns[i].key != columns[j].key
  }

  lemma MatchedIndices(stored: seq<Column>, columns: seq<Column>)
    requires Matches(stored, columns) && DistinctKeys(stored)
    ensures multiset(stored) <= multiset(columns)
    decreases |stored|
  {
    forall c | c in multiset(stored) ensures multiset(stored)[c] <= multiset(columns)[c] {
      OnceOnly(stored, c);
      var i :| 0 <= i < |stored| && stored[i] == c;
      assert Accepts(stored[i], columns);
      var j :| 0 <= j < |columns| && columns[j].key == stored[i].key;
      assert columns[j] in multiset(columns);
    }
  }

  lemma {:induction false} OnceOnly(stored: seq<Column>, c: Column)
    requires DistinctKeys(stored)
    ensures multiset(stored)[c] <= 1
  {
    if stored != [] {
      assert stored == [stored[0]] + stored[1..];
      OnceOnly(stored[1..], c);
      if stored[0] == c { assert c !in stored[1..]; }
    }
  }

  lemma SameSize(a: multiset<Column>, b: multiset<Column>)
    requires a <= b && |a| == |b|
    ensures a == b
  {
    assert b == a + (b - a);
  }

  /** A table whose columns have distinct keys accepts a request just when it names the same columns. */
  lemma MatchesIff(stored: seq<Column>, columns: seq<Column>)
    requires DistinctKeys(stored)
    ensures Matches(stored, columns) <==> multiset(stored) == multiset(columns)
  {
    if Matches(stored, columns) {
      MatchedIndices(stored, columns);
      assert |multiset(stored)| == |multiset(columns)|;
      SameSize(multiset(stored), multiset(columns));
    }
    if multiset(stored) == multiset(columns) {
      assert |multiset(stored)| == |multiset(columns)|;
      forall i | 0 <= i < |stored| ensures Accepts(stored[i], columns) {
        assert stored[i] in multiset(columns);
        forall j | 0 <= j < |columns| && columns[j].key == stored[i].key ensures columns[j] == stored[i] {
          assert columns[j] in multiset(stored);
          var k :| 0 <= k < |stored| && stored[k] == columns[j];
        }
      }
    }
  }

  // ----- the writes -----

  function PutCols(columns: seq<Column>, schema: ETag, first: Uri): seq<Put> {
    if columns == [] then []
    else [PutCol(first, ColumnRow(schema, columns[0]))] + PutCols(columns[1..], schema, first + 1)
  }

  function Joined(offices: seq<string>): string {
    if offices == [] then "" else if |offices| == 1 then offices[0] else offices[0] + "," + Joined(offices[1..])
  }

  /** The texts between the commas. */
  function Split(s: string): (parts: seq<string>)
    ensures parts != []
  {
    if s == "" then [""]
    else if s[0] == ',' then [""] + Split(s[1..])
    else
      var rest := Split(s[1..]);
      [[s[0]] + rest[0]] + rest[1..]
  }

  lemma {:induction false} SplitHasNoCommas(s: string)
    ensures forall o :: o in Split(s) ==> ',' !in o
  {
    if s != "" {
      SplitHasNoCommas(s[1..]);
      var rest := Split(s[1..]);
      assert rest[0] in rest;
    }
  }

  lemma {:induction false} SplitFirst(o: string, rest: string)
    requires ',' !in o
    ensures Split(o) == [o] && Split(o + "," + rest) == [o] + Split(rest)
  {
    var s := o + "," + rest;
    if o == "" {
      assert s[1..] == rest;
    } else {
      assert s[1..] == o[1..] + "," + rest;
      SplitFirst(o[1..], rest);
      assert [o[0]] + o[1..] == o;
    }
  }

  /** The joined offices can be told apart again just when none of them has a comma in it. */
  lemma {:induction false} JoinedSplitsIff(offices: seq<string>)
    requires offices != []
    ensures Split(Joined(offices)) == offices <==> forall o :: o in offices ==> ',' !in o
  {
    SplitHasNoCommas(Joined(offices));
    if forall o :: o in offices ==> ',' !in o {
      SplitFirst(offices[0], if |offices| == 1 then "" else Joined(offices[1..]));
      if |offices| > 1 { JoinedSplitsIff(offices[1..]); }
    }
  }

  /** Each office with a comma after it. */
  function Terminated(offices: seq<string>): string {
    if offices == [] then "" else offices[0] + "," + Terminated(offices[1..])
  }

  /** The joined offices are these without the last comma. */
  lemma {:induction false} JoinedIsTerminated(offices: seq<string>)
    requires offices != []
    ensures Joined(offices) + "," == Terminated(offices)
  {
    if |offices| == 1 {
      assert offices[1..] == [];
    } else {
      JoinedIsTerminated(offices[1..]);
      assert Joined(offices) + "," == offices[0] + "," + (Joined(offices[1..]) + ",");
    }
  }

  function OfficesOf(r: Request): string {
    if r.offices.None? then "" else Joined(r.offices.value)
  }

  function Started(r: Request): Entry {
    Entry(Some(r.schema), None, None, None, OfficesOf(r))
  }

  function Live(r: Request): Entry {
    Entry(None, Some(r.schema), None, None, OfficesOf(r))
  }

  /** The rows of the access control list that the first page shows. */
  function FirstPage(q: Queries, acls: map<Uri, Role>): seq<Uri>
    requires q.page > 0
  {
    q.acls(acls)[..Visited(q.acls(acls), {}, q.page)]
  }

  /** The columns of the request, as a query for them finds them. */
  function Requested(r: Request): map<Uri, Column> {
    RowsOf(ColsFrom(r.columns, r.schema, r.first), r.schema)
  }

  /** The openings of the two relations of the data. */
  function DataOpenings(q: Queries, id: string, r: Request): (ps: seq<Put>)
    ensures |ps| == 2
  {
    var name := ConvertIdentifier(id);
    [AddRelation(name, HowTo(q, false, Requested(r))),
     AddRelation(LogName(name), HowTo(q, true, Requested(r)))]
  }

  /** The relations and last the entry in use. */
  function LastPuts(q: Queries, id: string, r: Request): seq<Put> {
    var ps := DataOpenings(q, id, r);
    [ps[0], ps[1], PutEntry(Live(r))]
  }

  /** The definition and the columns. */
  function DefPuts(id: string, r: Request): seq<Put> {
    [PutDef(r.schema, ConvertIdentifier(id))] + PutCols(r.columns, r.schema, r.first)
  }

  /** The first page of the list goes; the owner is written, and the entry with the new schema as pending. */
  function OpenPuts(q: Queries, s: State, r: Request): seq<Put>
    requires q.page > 0
  {
    DropAcls(FirstPage(q, s.acls)) + [PutAcl(r.owner, Owner), PutEntry(Started(r))]
  }

  function BuildPuts(q: Queries, s: State, r: Request): seq<Put>
    requires q.page > 0
  {
    OpenPuts(q, s, r) + (DefPuts(s.id, r) + LastPuts(q, s.id, r))
  }

  function ClearPuts(q: Queries, s: State): seq<Put>
    requires q.page > 0
  {
    if s.entry.Some? then DeletePuts(q, s, s.entry.value, true) else []
  }

  /** The writes of a creation, if no relation is refused. */
  function CreatePuts(q: Queries, s: State, r: Request): seq<Put>
    requires q.page > 0
  {
    if IsLive(s) then []
    else if r.offices == Some([]) then ClearPuts(q, s)
    else ClearPuts(q, s) + BuildPuts(q, Replay(s, ClearPuts(q, s)), r)
  }

  // ----- building a schema where there is none -----

  /** The columns of the request, each under its own identifier. */
  function ColsFrom(columns: seq<Column>, schema: ETag, first: Uri): (m: map<Uri, ColumnRow>)
    ensures forall u :: u in m ==> first <= u
  {
    if columns == [] then map[]
    else ColsFrom(columns[1..], schema, first + 1)[first := ColumnRow(schema, columns[0])]
  }

  /** There are as many as in the request, and number `i` of the request is under `first + i`. */
  lemma {:induction false} ColsFromAre(columns: seq<Column>, schema: ETag, first: Uri, i: nat)
    requires i < |columns|
    ensures
      var m := ColsFrom(columns, schema, first);
      |m| == |columns| && first + i in m && m[first + i] == ColumnRow(schema, columns[i])
  {
    if |columns| == 1 {
      assert ColsFrom(columns[1..], schema, first + 1) == map[];
    } else {
      ColsFromAre(columns[1..], schema, first + 1, if i == 0 then 0 else i - 1);
    }
  }

  lemma {:induction false} ColsWritten(s: State, columns: seq<Column>, schema: ETag, first: Uri)
    ensures Replay(s, PutCols(columns, schema, first)) == s.(cols := s.cols + ColsFrom(columns, schema, first))
    decreases |columns|
  {
    if columns == [] {
      assert s.cols + ColsFrom(columns, schema, first) == s.cols;
    } else {
      var s1 := Apply(s, PutCol(first, ColumnRow(schema, columns[0])));
      ColsWritten(s1, columns[1..], schema, first + 1);
      AddedFirst(s.cols, ColsFrom(columns[1..], schema, first + 1), first, ColumnRow(schema, columns[0]));
    }
  }

  lemma AddedFirst(a: map<Uri, ColumnRow>, b: map<Uri, ColumnRow>, u: Uri, row: ColumnRow)
    requires u !in b
    ensures a + b[u := row] == a[u := row] + b
  {
  }

  lemma {:induction false} ColsStop(s: State, columns: seq<Column>, schema: ETag, first: Uri, k: nat)
    requires Inv(s) && schema in s.defs
    ensures Inv(Crash(s, PutCols(columns, schema, first), k))
    ensures schema in Crash(s, PutCols(columns, schema, first), k).defs
    decreases |columns|
  {
    if columns != [] && k > 0 {
      ColsStop(Apply(s, PutCol(first, ColumnRow(schema, columns[0]))), columns[1..], schema, first + 1, k - 1);
    }
  }

  /** The table is being created: its entry names the new schema as pending. */
  ghost predicate Opened(s: State, r: Request) {
    Inv(s) && s.entry == Some(Started(r)) && s.defs == map[]
  }

  lemma DefWritten(s: State, r: Request)
    requires Opened(s, r)
    ensures Inv(Apply(s, PutDef(r.schema, ConvertIdentifier(s.id))))
  {
    hide ConvertIdentifier;
  }

  lemma DefStops(s: State, r: Request, k: nat)
    requires Opened(s, r)
    ensures Inv(Crash(s, DefPuts(s.id, r), k))
  {
    hide Inv, Journal.Crash, Journal.Replay, PutCols, ConvertIdentifier;
    var def := PutDef(r.schema, ConvertIdentifier(s.id));
    DefWritten(s, r);
    Journal.One(Apply, s, def, 0);
    Journal.CrashConcat(Apply, s, [def], PutCols(r.columns, r.schema, r.first), k);
    if k > 0 { ColsStop(Apply(s, def), r.columns, r.schema, r.first, k - 1); }
  }

  /** With the definition and the columns written, the relations are still missing. */
  function Defined(s: State, r: Request): State {
    s.(defs := map[r.schema := ConvertIdentifier(s.id)], cols := ColsFrom(r.columns, r.schema, r.first))
  }

  lemma DefDone(s: State, r: Request)
    requires Opened(s, r)
    ensures Replay(s, DefPuts(s.id, r)) == Defined(s, r) && Inv(Defined(s, r))
  {
    hide Journal.Crash, ConvertIdentifier, DefPuts, Defined;
    DefStops(s, r, |DefPuts(s.id, r)|);
    Journal.CrashAll(Apply, s, DefPuts(s.id, r), |DefPuts(s.id, r)|);
    EmptyCols(s);
    DefReplay(s, r);
  }

  lemma DefReplay(s: State, r: Request)
    requires s.defs == map[] && s.cols == map[]
    ensures Replay(s, DefPuts(s.id, r)) == Defined(s, r)
  {
    hide PutCols, ConvertIdentifier;
    var def := PutDef(r.schema, ConvertIdentifier(s.id));
    Journal.One(Apply, s, def, 1);
    Journal.ReplayConcat(Apply, s, [def], PutCols(r.columns, r.schema, r.first));
    ColsWritten(Apply(s, def), r.columns, r.schema, r.first);
    assert map[] + ColsFrom(r.columns, r.schema, r.first) == ColsFrom(r.columns, r.schema, r.first);
  }

  /** The state with the two relations opened. */
  function WithData(q: Queries, s: State, r: Request): State {
    Apply(Apply(s, DataOpenings(q, s.id, r)[0]), DataOpenings(q, s.id, r)[1])
  }

  lemma DataAre(q: Queries, id: string, r: Request)
    ensures DataOpenings(q, id, r)[0].AddRelation? && DataOpenings(q, id, r)[1].AddRelation?
  {
  }

  lemma WithDataIs(q: Queries, s: State, r: Request)
    ensures
      var s2 := WithData(q, s, r);
      && s2 == s.(relations := s2.relations)
      && ConvertIdentifier(s.id) in s2.relations && LogName(ConvertIdentifier(s.id)) in s2.relations
  {
    hide FieldSet, ConvertIdentifier, HowTo;
    EntryStays(s, DataOpenings(q, s.id, r)[0]);
    EntryStays(Apply(s, DataOpenings(q, s.id, r)[0]), DataOpenings(q, s.id, r)[1]);
  }

  lemma LiveFits(s: State, r: Request)
    requires s.defs == map[r.schema := ConvertIdentifier(s.id)]
    requires ConvertIdentifier(s.id) in s.relations && LogName(ConvertIdentifier(s.id)) in s.relations
    ensures Fits(s, Live(r))
  {
  }

  /** The last three writes of a creation. */
  lemma LastStop(q: Queries, s: State, r: Request, k: nat)
    requires Inv(s) && s.entry == Some(Started(r)) && s.defs == map[r.schema := ConvertIdentifier(s.id)]
    ensures Inv(Crash(s, LastPuts(q, s.id, r), k))
    ensures Replay(s, LastPuts(q, s.id, r)) == WithData(q, s, r).(entry := Some(Live(r)))
  {
    hide Inv, Fits, Journal.Crash, Journal.Replay, ConvertIdentifier, DataOpenings;
    var ps := DataOpenings(q, s.id, r);
    DataAre(q, s.id, r);
    var s1 := Apply(s, ps[0]);
    var s2 := Apply(s1, ps[1]);
    RelationAdded(s, ps[0]);
    RelationAdded(s1, ps[1]);
    WithDataIs(q, s, r);
    LiveFits(s2, r);
    EntryWritten(s2, Live(r));
    CrashThree(s, ps[0], ps[1], PutEntry(Live(r)), k);
  }

  lemma SchemaStops(q: Queries, s: State, r: Request, k: nat)
    requires Opened(s, r)
    ensures Inv(Crash(s, DefPuts(s.id, r) + LastPuts(q, s.id, r), k))
  {
    hide Inv, Opened, Journal.Crash, Journal.Replay, DefPuts, LastPuts, ConvertIdentifier;
    var a, b := DefPuts(s.id, r), LastPuts(q, s.id, r);
    DefStops(s, r, k);
    DefDone(s, r);
    Journal.CrashConcat(Apply, s, a, b, k);
    OpenedEntry(s, r);
    if k >= |a| { LastStop(q, Defined(s, r), r, k - |a|); }
  }

  lemma OpenedEntry(s: State, r: Request)
    requires Opened(s, r)
    ensures s.entry == Some(Started(r)) && Inv(s)
  {
  }

  /** The access control list while the table is being created. */
  function AclsFor(q: Queries, acls: map<Uri, Role>, owner: Uri): map<Uri, Role>
    requires q.page > 0
  {
    (acls - (set u | u in FirstPage(q, acls)))[owner := Owner]
  }

  lemma OwnerWritten(s: State, r: Request)
    requires Inv(s) && s.entry.None?
    ensures
      var s1 := Apply(s, PutAcl(r.owner, Owner));
      && Inv(s1) && Opened(Apply(s1, PutEntry(Started(r))), r)
  {
    var s1 := Apply(s, PutAcl(r.owner, Owner));
    assert s.defs.Keys == {};
    assert s.defs == map[];
    assert s1.acls[r.owner] == Owner;
  }

  /** Before the entry is written, its owner is. */
  lemma OpenStops(q: Queries, s: State, r: Request, k: nat)
    requires Sound(q) && Inv(s) && s.entry.None?
    ensures
      var ps := OpenPuts(q, s, r);
      && Inv(Crash(s, ps, k))
      && Opened(Replay(s, ps), r)
      && Replay(s, ps) == s.(acls := AclsFor(q, s.acls, r.owner), entry := Some(Started(r)))
  {
    hide Journal.Crash, Journal.Replay, DropAcls, Inv, Opened, FirstPage, Sound;
    PageIsPositive(q);
    var page := FirstPage(q, s.acls);
    var two := [PutAcl(r.owner, Owner), PutEntry(Started(r))];
    AclsCrash(s, page, k);
    OwnersStop(s, page, k);
    OwnersStop(s, page, |page|);
    AclsDropped(s, page);
    Journal.CrashAll(Apply, s, DropAcls(page), |page|);
    Journal.CrashConcat(Apply, s, DropAcls(page), two, k);
    Journal.ReplayConcat(Apply, s, DropAcls(page), two);
    var s1 := Replay(s, DropAcls(page));
    OwnerWritten(s1, r);
    CrashPair(s1, two[0], two[1], if k < |page| then 0 else k - |page|);
  }

  lemma BuildStops(q: Queries, s: State, r: Request, k: nat)
    requires Sound(q) && Inv(s) && s.entry.None?
    ensures Inv(Crash(s, BuildPuts(q, s, r), k))
  {
    hide Journal.Crash, Journal.Replay, Inv, Opened, OpenPuts, DefPuts, LastPuts, Sound;
    PageIsPositive(q);
    var open, rest := OpenPuts(q, s, r), DefPuts(s.id, r) + LastPuts(q, s.id, r);
    OpenStops(q, s, r, k);
    Journal.CrashConcat(Apply, s, open, rest, k);
    if k >= |open| { SchemaStops(q, Replay(s, open), r, k - |open|); }
  }

  /** The state while a creation has everything written but the relations. */
  function Prepared(q: Queries, s: State, r: Request): State
    requires q.page > 0
  {
    Defined(s.(acls := AclsFor(q, s.acls, r.owner), entry := Some(Started(r))), r)
  }

  /** What a creation that finishes leaves, of a state without the table. */
  function Built(q: Queries, s: State, r: Request): State
    requires q.page > 0
  {
    WithData(q, Prepared(q, s, r), r).(entry := Some(Live(r)))
  }

  /** It has the schema that was asked for, both relations and an owner; all else is as it was. */
  lemma BuiltIs(q: Queries, s: State, r: Request)
    requires q.page > 0
    ensures
      var u := Built(q, s, r);
      && u.entry == Some(Live(r)) && u.defs == map[r.schema := ConvertIdentifier(s.id)]
      && u.cols == ColsFrom(r.columns, r.schema, r.first) && u.acls == AclsFor(q, s.acls, r.owner)
      && ConvertIdentifier(s.id) in u.relations && LogName(ConvertIdentifier(s.id)) in u.relations
      && u.id == s.id && u.tag == s.tag && u.files == s.files && u.contents == s.contents
  {
    hide WithData, ConvertIdentifier, AclsFor, ColsFrom;
    WithDataIs(q, Prepared(q, s, r), r);
  }

  lemma OpenDone(q: Queries, s: State, r: Request)
    requires Sound(q) && Inv(s) && s.entry.None?
    ensures q.page > 0
    ensures
      var open := OpenPuts(q, s, r);
      var s1 := Replay(s, open);
      && Opened(s1, r) && s1.id == s.id && s1.relations == s.relations
      && Replay(s1, DefPuts(s.id, r)) == Prepared(q, s, r) && Inv(Prepared(q, s, r))
  {
    hide Journal.Replay, Inv, Opened, OpenPuts, DefPuts, Sound, ConvertIdentifier, AclsFor, ColsFrom;
    PageIsPositive(q);
    OpenStops(q, s, r, 0);
    DefDone(Replay(s, OpenPuts(q, s, r)), r);
  }

  lemma BuildDone(q: Queries, s: State, r: Request)
    requires Sound(q) && Inv(s) && s.entry.None?
    ensures q.page > 0 && Replay(s, BuildPuts(q, s, r)) == Built(q, s, r)
  {
    hide Journal.Replay, Inv, Opened, OpenPuts, DefPuts, LastPuts, Sound, ConvertIdentifier, AclsFor, ColsFrom;
    OpenDone(q, s, r);
    var open, b, c := OpenPuts(q, s, r), DefPuts(s.id, r), LastPuts(q, s.id, r);
    Journal.ReplayConcat(Apply, s, open, b + c);
    Journal.ReplayConcat(Apply, Replay(s, open), b, c);
    LastStop(q, Prepared(q, s, r), r, 3);
  }

  // ----- creations -----

  /** Without an entry, nothing of the table is stored but access controls, relations and files. */
  lemma NoEntry(s: State)
    requires Inv(s) && s.entry.None?
    ensures s.defs == map[] && s.cols == map[]
  {
    assert s.defs.Keys == {};
    assert s.cols.Keys == {};
  }

  /** The state from which a creation builds. */
  function Cleared(q: Queries, s: State): State
    requires q.page > 0
  {
    if s.entry.Some? then Emptied(q, s) else s
  }

  /** Before anything is built, whatever was there of the table is deleted. */
  lemma ClearStops(q: Queries, s: State, k: nat)
    requires Sound(q) && Inv(s)
    ensures q.page > 0 && Inv(Crash(s, ClearPuts(q, s), k))
    ensures Replay(s, ClearPuts(q, s)) == Cleared(q, s) && Inv(Cleared(q, s)) && Cleared(q, s).entry.None?
    ensures Finishes(s, ClearPuts(q, s)) <==> Clearable(q, s)
  {
    hide Inv, DeletePuts, Journal.Crash, AclsLeft, Sound, Clearable;
    PageIsPositive(q);
    var ps := ClearPuts(q, s);
    if s.entry.Some? {
      var m := s.entry.value;
      DeletionStops(q, s, m, true, k);
      DeletionStops(q, s, m, true, |ps|);
      Journal.CrashAll(Apply, s, ps, |ps|);
      DeletionDone(q, s, m);
      DeletionFinishesIff(q, s, m);
    } else {
      Journal.Nothing(Apply, s, [], k);
      NoEntry(s);
      NoDefsClearable(q, s);
    }
  }

  /** The creation of a table may stop anywhere. */
  lemma CreationStops(q: Queries, s: State, r: Request, k: nat)
    requires Sound(q) && Inv(s)
    ensures q.page > 0 && Inv(Crash(s, CreatePuts(q, s, r), k))
  {
    hide Inv, ClearPuts, BuildPuts, Journal.Crash, Journal.Replay, AclsLeft, Sound;
    PageIsPositive(q);
    if IsLive(s) {
      Journal.Nothing(Apply, s, [], k);
    } else {
      var clear := ClearPuts(q, s);
      var s1 := Replay(s, clear);
      ClearStops(q, s, k);
      if r.offices != Some([]) {
        Journal.CrashConcat(Apply, s, clear, BuildPuts(q, s1, r), k);
        if k >= |clear| { BuildStops(q, s1, r, k - |clear|); }
      }
    }
  }

  /** A creation that finishes, and is not refused for its offices, leaves exactly the schema that was asked for. */
  lemma CreationDone(q: Queries, s: State, r: Request)
    requires Sound(q) && Inv(s) && !IsLive(s) && r.offices != Some([])
    ensures q.page > 0 && Replay(s, CreatePuts(q, s, r)) == Built(q, Cleared(q, s), r)
  {
    hide Inv, ClearPuts, BuildPuts, Journal.Crash, Journal.Replay, AclsLeft, Sound, Built, Cleared;
    PageIsPositive(q);
    var clear := ClearPuts(q, s);
    ClearStops(q, s, 0);
    Journal.ReplayConcat(Apply, s, clear, BuildPuts(q, Replay(s, clear), r));
    BuildDone(q, Replay(s, clear), r);
  }

  // ----- creations that finish -----

  /** The two relations of the data can be opened. */
  ghost predicate Buildable(q: Queries, s: State, r: Request) {
    Accepted(s, DataOpenings(q, s.id, r)[0]) && Accepted(s, DataOpenings(q, s.id, r)[1])
  }

  lemma {:induction false} PutColsAre(columns: seq<Column>, schema: ETag, first: Uri, p: Put)
    ensures p in PutCols(columns, schema, first) ==> p.PutCol?
  {
    if columns != [] { PutColsAre(columns[1..], schema, first + 1, p); }
  }

  /** Up to the relations, a creation cannot be refused. */
  lemma PrepareFinishes(q: Queries, s: State, r: Request)
    requires q.page > 0
    ensures Finishes(s, OpenPuts(q, s, r)) && forall s1 :: Finishes(s1, DefPuts(s.id, r))
  {
    forall p | p in OpenPuts(q, s, r) ensures !p.AddRelation? { DropAclsAre(FirstPage(q, s.acls), p); }
    PlainFinishes(s, OpenPuts(q, s, r));
    forall p | p in DefPuts(s.id, r) ensures !p.AddRelation? { PutColsAre(r.columns, r.schema, r.first, p); }
    forall s1 ensures Finishes(s1, DefPuts(s.id, r)) { PlainFinishes(s1, DefPuts(s.id, r)); }
  }

  /** The log is another relation than the one that was opened just before. */
  lemma LogAfterData(q: Queries, s: State, r: Request)
    ensures
      var ps := DataOpenings(q, s.id, r);
      Accepted(Apply(s, ps[0]), ps[1]) <==> Accepted(s, ps[1])
  {
    var ps := DataOpenings(q, s.id, r);
    TableNamesDiffer(s.id);
    OpenDropOne(s, ps[0]);
    OtherRelation(s, Apply(s, ps[0]), ps[1]);
  }

  /** What a creation writes after the table has been cleared. */
  lemma BuildWritten(q: Queries, s: State, r: Request)
    requires Sound(q) && Inv(s) && s.entry.None?
    ensures q.page > 0
    ensures
      var before, last := OpenPuts(q, s, r) + DefPuts(s.id, r), LastPuts(q, s.id, r);
      && BuildPuts(q, s, r) == before + last && Replay(s, before) == Prepared(q, s, r)
      && Written(s, BuildPuts(q, s, r)) == before + Written(Prepared(q, s, r), last)
      && (Finishes(s, BuildPuts(q, s, r)) <==> Buildable(q, s, r))
  {
    hide Journal.Replay, Inv, Opened, OpenPuts, DefPuts, Sound, ConvertIdentifier, AclsFor, ColsFrom, Accepted;
    hide DataOpenings;
    PageIsPositive(q);
    OpenDone(q, s, r);
    PrepareFinishes(q, s, r);
    var open, def, last := OpenPuts(q, s, r), DefPuts(s.id, r), LastPuts(q, s.id, r);
    assert BuildPuts(q, s, r) == (open + def) + last;
    WrittenConcat(s, open + def, last);
    WrittenConcat(s, open, def);
    Journal.ReplayConcat(Apply, s, open, def);
    var p := Prepared(q, s, r);
    DataAre(q, s.id, r);
    var ps := DataOpenings(q, s.id, r);
    ThreeFinish(p, ps[0], ps[1], PutEntry(Live(r)));
    LogAfterData(q, p, r);
    SameBuildable(q, s, p, r);
  }

  lemma SameBuildable(q: Queries, s: State, p: State, r: Request)
    requires p.id == s.id && p.relations == s.relations
    ensures Buildable(q, p, r) <==> Buildable(q, s, r)
  {
    hide NameOk, FieldsOk, ConvertIdentifier, HowTo;
    OtherRelation(s, p, DataOpenings(q, s.id, r)[0]);
    OtherRelation(s, p, DataOpenings(q, s.id, r)[1]);
  }

  /**
    From whatever state it starts, a creation finishes just when what was left of the table can
    be cleared and the two relations of the data can be opened.
   */
  lemma CreationFinishesIff(q: Queries, s: State, r: Request)
    requires Sound(q) && Inv(s) && !IsLive(s) && r.offices != Some([])
    ensures q.page > 0
    ensures Finishes(s, CreatePuts(q, s, r)) <==> Clearable(q, s) && Buildable(q, Cleared(q, s), r)
  {
    hide Inv, ClearPuts, BuildPuts, Journal.Replay, AclsLeft, Sound, Cleared, Clearable, Buildable;
    PageIsPositive(q);
    ClearStops(q, s, 0);
    WrittenConcat(s, ClearPuts(q, s), BuildPuts(q, Cleared(q, s), r));
    BuildWritten(q, Cleared(q, s), r);
  }

  // ----- the same table once more -----

  lemma {:induction false} ColumnsConcat(cols: map<Uri, ColumnRow>, a: seq<Uri>, b: seq<Uri>)
    ensures ColumnsAt(cols, a + b) == ColumnsAt(cols, a) + ColumnsAt(cols, b)
  {
    if b == [] {
      assert a + b == a;
    } else {
      assert (a + b)[..|a + b| - 1] == a + b[..|b| - 1];
      ColumnsConcat(cols, a, b[..|b| - 1]);
    }
  }

  lemma ColumnsWithout(cols: map<Uri, ColumnRow>, list: seq<Uri>, i: nat)
    requires i < |list| && list[i] in cols
    ensures multiset(ColumnsAt(cols, list))
      == multiset(ColumnsAt(cols, list[..i] + list[i + 1..])) + multiset{cols[list[i]].column}
  {
    var a, u, b := list[..i], list[i], list[i + 1..];
    assert list == (a + [u]) + b;
    ColumnsConcat(cols, a + [u], b);
    ColumnsConcat(cols, a, b);
    assert (a + [u])[..i] == a;
  }

  lemma ListedWithout(list: seq<Uri>, all: set<Uri>, i: nat)
    requires Listing(list, all) && i < |list|
    ensures Listing(list[..i] + list[i + 1..], all - {list[i]})
  {
    var rest := list[..i] + list[i + 1..];
    assert forall k :: 0 <= k < |rest| ==> rest[k] == list[if k < i then k else k + 1];
    forall v | v in all && v != list[i] ensures v in rest {
      var k :| 0 <= k < |list| && list[k] == v;
      assert rest[if k < i then k else k - 1] == v;
    }
  }

  /** A query finds the columns of the request, in whatever order. */
  lemma {:induction false} ColumnsFound(columns: seq<Column>, schema: ETag, first: Uri, list: seq<Uri>)
    requires Listing(list, ColsFrom(columns, schema, first).Keys)
    ensures multiset(ColumnsAt(ColsFrom(columns, schema, first), list)) == multiset(columns)
    decreases |columns|
  {
    var cols := ColsFrom(columns, schema, first);
    if columns == [] {
      ListingSize(list, cols.Keys);
    } else {
      var more := ColsFrom(columns[1..], schema, first + 1);
      assert first in list;
      var i :| 0 <= i < |list| && list[i] == first;
      var rest := list[..i] + list[i + 1..];
      ListedWithout(list, cols.Keys, i);
      assert cols.Keys - {first} == more.Keys;
      ColumnsWithout(cols, list, i);
      ColumnsFound(columns[1..], schema, first + 1, rest);
      SameColumns(cols, more, rest);
      OneMore(columns, multiset(ColumnsAt(more, rest)));
    }
  }

  lemma OneMore(columns: seq<Column>, rest: multiset<Column>)
    requires columns != [] && rest == multiset(columns[1..])
    ensures rest + multiset{columns[0]} == multiset(columns)
  {
    assert columns == [columns[0]] + columns[1..];
  }

  lemma {:induction false} SameColumns(a: map<Uri, ColumnRow>, b: map<Uri, ColumnRow>, list: seq<Uri>)
    requires forall u :: u in list ==> u in a && u in b && a[u] == b[u]
    ensures ColumnsAt(a, list) == ColumnsAt(b, list)
  {
    if list != [] {
      assert list[|list| - 1] in list;
      SameColumns(a, b, list[..|list| - 1]);
    }
  }

  /** Columns with the same key are the same. */
  predicate KeysAgree(columns: seq<Column>) {
    forall i, j :: 0 <= i < |columns| && 0 <= j < |columns| && columns[i].key == columns[j].key ==>
      columns[i] == columns[j]
  }

  lemma MatchesSelfIff(stored: seq<Column>, columns: seq<Column>)
    requires multiset(stored) == multiset(columns)
    ensures Matches(stored, columns) <==> KeysAgree(columns)
  {
    assert |multiset(stored)| == |multiset(columns)|;
    forall c ensures c in stored <==> c in columns {
      assert c in multiset(stored) <==> c in multiset(columns);
    }
    forall i | 0 <= i < |columns| ensures exists k :: 0 <= k < |stored| && stored[k] == columns[i] {
      assert columns[i] in stored;
    }
    if Matches(stored, columns) {
      forall i, j | 0 <= i < |columns| && 0 <= j < |columns| && columns[i].key == columns[j].key
        ensures columns[i] == columns[j]
      {
        var k :| 0 <= k < |stored| && stored[k] == columns[i];
        assert Accepts(stored[k], columns);
      }
    }
    if KeysAgree(columns) {
      forall i | 0 <= i < |stored| ensures Accepts(stored[i], columns) {
        assert stored[i] in columns;
      }
    }
  }

  lemma AgreePermuted(a: seq<Column>, b: seq<Column>)
    requires multiset(a) == multiset(b)
    ensures KeysAgree(a) <==> KeysAgree(b)
  {
    forall c ensures c in a <==> c in b {
      assert c in multiset(a) <==> c in multiset(b);
    }
    AgreeIsOver(a, b);
    AgreeIsOver(b, a);
  }

  lemma AgreeIsOver(a: seq<Column>, b: seq<Column>)
    requires forall c :: c in a ==> c in b
    ensures KeysAgree(b) ==> KeysAgree(a)
  {
    if KeysAgree(b) {
      forall i, j | 0 <= i < |a| && 0 <= j < |a| && a[i].key == a[j].key ensures a[i] == a[j] {
        assert a[i] in b && a[j] in b;
      }
    }
  }

  lemma DistinctPermuted(a: seq<Column>, b: seq<Column>)
    requires multiset(a) == multiset(b) && DistinctKeys(b)
    ensures DistinctKeys(a)
  {
    forall i, j | 0 <= i < j < |a| ensures a[i].key != a[j].key {
      assert a[i] in multiset(b) && a[j] in multiset(b);
      OnceOnly(b, a[i]);
      assert a == a[..j] + [a[j]] + a[j + 1..];
      assert a[i] in multiset(a[..j]);
    }
  }

  /** The new owner is alone on the list just when what was left of it fits one page. */
  lemma OnlyOwnerIff(q: Queries, acls: map<Uri, Role>, owner: Uri)
    requires Sound(q) && owner !in acls
    ensures AclsFor(q, acls, owner) == map[owner := Owner] <==> |q.acls(acls)| <= q.page
  {
    var list := q.acls(acls);
    var n := Visited(list, {}, q.page);
    assert ListsAcls(q, acls);
    NoneKeptIff(list, q.page);
    if n == |list| {
      assert list[..n] == list;
      assert acls - (set u | u in list) == map[];
    } else {
      assert list[n] in list && list[n] !in list[..n];
      assert list[n] in AclsFor(q, acls, owner) && list[n] != owner;
    }
  }

  /** A list of `n` readers and no owner. */
  function Readers(n: nat): (acls: map<Uri, Role>)
    ensures |acls| == n && forall u: nat :: u in acls <==> u < n
    ensures forall u :: u in acls ==> acls[u] == Other("reader")
  {
    if n == 0 then map[] else Readers(n - 1)[n - 1 := Other("reader")]
  }

  /** A table in use, with an owner and as many readers as two pages hold. */
  function SharedTable(page: nat): State {
    var name := ConvertIdentifier("t");
    State("t", Some(Entry(None, Some(1), None, None, "")), map[1 := name], map[],
          Readers(2 * page)[2 * page := Owner], map[name := {}, LogName(name) := {}], false, {}, {})
  }

  lemma SharedTableOk(page: nat)
    ensures Inv(SharedTable(page)) && IsLive(SharedTable(page))
  {
    hide ConvertIdentifier, LogName;
    var s := SharedTable(page);
    assert s.acls[2 * page] == Owner;
  }

  /** One owner cannot end two pages: his table leaves a reader when it is deleted. */
  lemma OneOwnerTooFew(q: Queries, acls: map<Uri, Role>, owner: Uri)
    requires Sound(q) && |acls| > 2 * q.page && forall u :: u in acls && acls[u] == Owner ==> u == owner
    ensures AclsLeft(q, acls) != map[]
  {
    hide AclsLeft;
    var list := q.acls(acls);
    assert ListsAcls(q, acls);
    ListingSize(list, acls.Keys);
    assert |acls.Keys| == |acls|;
    AclsGoneIff(q, acls);
    assert FullPage(|list|, q.page, 1) && FullPage(|list|, q.page, 2);
    assert list[q.page * 1 - 1] != list[q.page * 2 - 1];
  }

  /**
    With readers for two pages, the deletion of a table in use leaves some of them; with a reader
    more than a page, left behind by a deletion, the creation leaves one beside the owner.
   */
  lemma OneReaderTooMany(q: Queries)
    requires Sound(q)
    ensures Inv(SharedTable(q.page)) && IsLive(SharedTable(q.page)) && Emptied(q, SharedTable(q.page)).acls != map[]
    ensures AclsFor(q, Readers(q.page + 1), q.page + 1) != map[q.page + 1 := Owner]
  {
    SharedTableOk(q.page);
    var s := SharedTable(q.page);
    OneOwnerTooFew(q, s.acls, 2 * q.page);
    var acls := Readers(q.page + 1);
    var list := q.acls(acls);
    assert ListsAcls(q, acls);
    ListingSize(list, acls.Keys);
    assert |acls.Keys| == |acls|;
    OnlyOwnerIff(q, acls, q.page + 1);
  }
}
