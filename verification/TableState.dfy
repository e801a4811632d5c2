/**
  What is stored about one table: its entry, the schema definitions with their columns, the
  access control list, the relations in the datastore, the tag of its manifest and its files.
 */
module TableState {
  import opened Wrappers
  import Journal
  import opened BackingNames

  type Uri = nat
  type ETag = nat

  datatype Column = Column(key: string, name: string, elementType: string, children: Option<string>)
  datatype ColumnRow = ColumnRow(schema: ETag, column: Column)
  datatype Role = Owner | Other(name: string)

  /** Schema ETags of the table: one being created, the one in use, and one being deleted. */
  datatype Entry = Entry(
    pending: Option<ETag>, live: Option<ETag>, stale: Option<ETag>, pendingData: Option<ETag>, offices: string)

  /**
    `relations` are those of the whole datastore, with their fields; a relation of the tables is
    given without its namespace.  `tag` says whether there is an ETag for the manifest of the
    table, `files` are its files and `contents` those that have their contents.
   */
  datatype State = State(
    id: string,
    entry: Option<Entry>,
    defs: map<ETag, string>,
    cols: map<Uri, ColumnRow>,
    acls: map<Uri, Role>,
    relations: map<string, set<Field>>,
    tag: bool,
    files: set<Uri>,
    contents: set<Uri>)

  /** How a relation is opened: with its fields, if they can be made, or as one of a blob store. */
  datatype How = Fields(fields: Option<seq<Field>>) | Blobs(base: string)

  datatype Put =
    | PutEntry(e: Entry)
    | DropEntry
    | PutDef(t: ETag, name: string)
    | DropDef(t: ETag)
    | PutCol(u: Uri, row: ColumnRow)
    | DropCol(u: Uri)
    | PutAcl(u: Uri, role: Role)
    | DropAcl(u: Uri)
    | AddRelation(name: string, how: How)
    | DropRelation(name: string)
    | DropTag
    | DropFile(u: Uri)
    | DropContents(u: Uri)

  function FieldSet(how: How): set<Field> {
    if how.Fields? && how.fields.Some? then set f | f in how.fields.value else {}
  }

  function Apply(s: State, p: Put): State {
    match p
    case PutEntry(e) => s.(entry := Some(e))
    case DropEntry => s.(entry := None)
    case PutDef(t, name) => s.(defs := s.defs[t := name])
    case DropDef(t) => s.(defs := s.defs - {t})
    case PutCol(u, row) => s.(cols := s.cols[u := row])
    case DropCol(u) => s.(cols := s.cols - {u})
    case PutAcl(u, role) => s.(acls := s.acls[u := role])
    case DropAcl(u) => s.(acls := s.acls - {u})
    case AddRelation(name, how) =>
      if name in s.relations then s else s.(relations := s.relations[name := FieldSet(how)])
    case DropRelation(name) => s.(relations := s.relations - {name})
    case DropTag => s.(tag := false)
    case DropFile(u) => s.(files := s.files - {u})
    case DropContents(u) => s.(contents := s.contents - {u})
  }

  function Replay(s: State, ps: seq<Put>): State {
    Journal.Replay(Apply, s, ps)
  }

  function Crash(s: State, ps: seq<Put>, k: nat): State {
    Journal.Crash(Apply, s, ps, k)
  }

  // ----- relations that cannot be opened -----

  /**
    Opening a relation creates it if it is missing.  It fails if its name or its fields are
    refused, or if it is there without one of the fields.
   */
  ghost predicate Accepted(s: State, p: Put) {
    match p
    case AddRelation(name, Fields(fields)) =>
      && NameOk(name) && fields.Some? && FieldsOk(fields.value)
      && (name in s.relations ==> FieldSet(Fields(fields)) <= s.relations[name])
    case AddRelation(_, Blobs(base)) => BaseOk(base)
    case _ => true
  }

  /** Of the writes that an operation has before it, those that it gets to: a relation that is refused ends it. */
  ghost function Written(s: State, ps: seq<Put>): seq<Put>
    decreases |ps|
  {
    if ps == [] || !Accepted(s, ps[0]) then [] else [ps[0]] + Written(Apply(s, ps[0]), ps[1..])
  }

  /** The operation is not ended by a relation that is refused. */
  ghost predicate Finishes(s: State, ps: seq<Put>)
    decreases |ps|
  {
    ps == [] || (Accepted(s, ps[0]) && Finishes(Apply(s, ps[0]), ps[1..]))
  }

  lemma {:induction false} WrittenIsPrefix(s: State, ps: seq<Put>)
    ensures Written(s, ps) <= ps && (Finishes(s, ps) <==> Written(s, ps) == ps)
    ensures Finishes(s, ps) <==> |Written(s, ps)| == |ps|
    decreases |ps|
  {
    if ps != [] && Accepted(s, ps[0]) {
      WrittenIsPrefix(Apply(s, ps[0]), ps[1..]);
      assert ps == [ps[0]] + ps[1..];
    }
  }

  lemma {:induction false} WrittenConcat(s: State, a: seq<Put>, b: seq<Put>)
    ensures Written(s, a + b) == if Finishes(s, a) then a + Written(Replay(s, a), b) else Written(s, a)
    ensures Finishes(s, a + b) <==> Finishes(s, a) && Finishes(Replay(s, a), b)
    decreases |a|
  {
    if a == [] {
      assert a + b == b && a + Written(Replay(s, a), b) == Written(s, b);
    } else if Accepted(s, a[0]) {
      assert (a + b)[1..] == a[1..] + b;
      WrittenConcat(Apply(s, a[0]), a[1..], b);
      if Finishes(s, a) { assert [a[0]] + (a[1..] + Written(Replay(s, a), b)) == a + Written(Replay(s, a), b); }
    }
  }

  /** Nothing but the opening of a relation is ever refused. */
  lemma {:induction false} PlainFinishes(s: State, ps: seq<Put>)
    requires forall p :: p in ps ==> !p.AddRelation?
    ensures Finishes(s, ps)
    decreases |ps|
  {
    if ps != [] {
      assert ps[0] in ps;
      PlainFinishes(Apply(s, ps[0]), ps[1..]);
    }
  }

  /** Stopped after some write, an operation that is refused has written a part of its list like any other. */
  lemma WrittenStops(s: State, ps: seq<Put>, k: nat) returns (n: nat)
    ensures n <= |Written(s, ps)| && n <= |ps| && Crash(s, Written(s, ps), k) == Crash(s, ps, n)
  {
    var done := Written(s, ps);
    WrittenIsPrefix(s, ps);
    n := if k < |done| then k else |done|;
    Journal.CrashIsPrefix(Apply, s, done, k);
    Journal.CrashIsPrefix(Apply, s, ps, n);
    assert (if k < |done| then done[..k] else done) == ps[..n];
    assert n == |ps| ==> ps[..n] == ps;
  }

  /** An operation that finishes carries out all of its writes. */
  lemma WrittenReplay(s: State, ps: seq<Put>)
    ensures Finishes(s, ps) ==> Replay(s, Written(s, ps)) == Replay(s, ps)
  {
    WrittenIsPrefix(s, ps);
  }

  // ----- what holds between any two writes -----

  function Tags(e: Option<Entry>): set<ETag> {
    if e.None? then {}
    else
      (if e.value.pending.Some? then {e.value.pending.value} else {})
      + (if e.value.live.Some? then {e.value.live.value} else {})
      + (if e.value.stale.Some? then {e.value.stale.value} else {})
  }

  /** The three schema ETags differ, and a change of data is pending only on a schema in use. */
  predicate EntryOk(e: Entry) {
    && (e.pending.Some? ==> e.pending != e.live && e.pending != e.stale)
    && (e.live.Some? ==> e.live != e.stale)
    && (e.pendingData.Some? ==> e.live.Some?)
  }

  /** The schema in use has its definition, and both its relations are there. */
  predicate Backed(s: State, t: ETag) {
    t in s.defs && s.defs[t] in s.relations && LogName(s.defs[t]) in s.relations
  }

  predicate IsLive(s: State) {
    s.entry.Some? && s.entry.value.live.Some?
  }

  ghost predicate HasOwner(acls: map<Uri, Role>) {
    exists u :: u in acls && acls[u] == Owner
  }

  /** There is one definition at most, and it names the relation that is made from the identifier. */
  ghost predicate OneDef(s: State) {
    && (forall t, u :: t in s.defs && u in s.defs ==> t == u)
    && (forall t :: t in s.defs ==> s.defs[t] == ConvertIdentifier(s.id))
  }

  /** No definition without an ETag in the entry, no column without a definition, no entry without an owner. */
  ghost predicate Inv(s: State) {
    && s.defs.Keys <= Tags(s.entry) && OneDef(s)
    && (forall u :: u in s.cols ==> s.cols[u].schema in s.defs)
    && (s.entry.Some? ==> HasOwner(s.acls) && EntryOk(s.entry.value))
    && (s.entry.Some? && s.entry.value.live.Some? ==> Backed(s, s.entry.value.live.value))
  }

  /** What is stored about a table before it is first created, whatever relations and files there are. */
  function Nothing(
      id: string, relations: map<string, set<Field>>, tag: bool, files: set<Uri>, contents: set<Uri>): State
  {
    State(id, None, map[], map[], map[], relations, tag, files, contents)
  }

  lemma NothingStoredOk(
      id: string, relations: map<string, set<Field>>, tag: bool, files: set<Uri>, contents: set<Uri>)
    ensures Inv(Nothing(id, relations, tag, files, contents))
  {
  }

  // ----- queries -----

  /**
    The order in which a query returns its rows, and the size of a page of the access control
    list.  `marks` says whether the columns that are kept in the data relation can be told from
    the others, and `fields` gives the fields of the data relation, or of its log, if the
    columns have types that can be read.
   */
  datatype Queries = Queries(
    cols: set<Uri> -> seq<Uri>, acls: map<Uri, Role> -> seq<Uri>, page: nat, files: set<Uri> -> seq<Uri>,
    marks: map<Uri, Column> -> bool, fields: (bool, map<Uri, Column>) -> Option<seq<Field>>)

  /** How the data relation of these columns, or its log, is opened. */
  function HowTo(q: Queries, log: bool, columns: map<Uri, Column>): How {
    Fields(if q.marks(columns) then q.fields(log, columns) else None)
  }

  function ColsWith(s: State, t: ETag): set<Uri> {
    set u | u in s.cols && s.cols[u].schema == t
  }

  /** The stored columns of a schema. */
  function ColumnsOf(q: Queries, s: State, t: ETag): seq<Column> {
    ColumnsAt(s.cols, q.cols(ColsWith(s, t)))
  }

  function ColumnsAt(cols: map<Uri, ColumnRow>, list: seq<Uri>): seq<Column> {
    if list == [] then []
    else
      var u := list[|list| - 1];
      ColumnsAt(cols, list[..|list| - 1]) + if u in cols then [cols[u].column] else []
  }

  /** The columns of a schema by their identifiers. */
  function RowsOf(cols: map<Uri, ColumnRow>, t: ETag): map<Uri, Column> {
    map u | u in cols && cols[u].schema == t :: cols[u].column
  }

  ghost predicate Listing(list: seq<Uri>, all: set<Uri>) {
    && (forall u :: u in list <==> u in all)
    && (forall i, j :: 0 <= i < j < |list| ==> list[i] != list[j])
  }

  lemma {:induction false} ListingSize(list: seq<Uri>, all: set<Uri>)
    requires Listing(list, all)
    ensures |list| == |all|
    decreases |list|
  {
    if list == [] {
      assert all == {};
    } else {
      assert list[0] in all;
      ListingSize(list[1..], all - {list[0]});
    }
  }

  function Remove(list: seq<Uri>, u: Uri): seq<Uri> {
    if list == [] then [] else if list[0] == u then list[1..] else [list[0]] + Remove(list[1..], u)
  }

  /** A query lists every row once. */
  ghost predicate ListsCols(q: Queries, all: set<Uri>) {
    Listing(q.cols(all), all)
  }

  ghost predicate ListsAcls(q: Queries, acls: map<Uri, Role>) {
    Listing(q.acls(acls), acls.Keys)
  }

  ghost predicate ListsFiles(q: Queries, all: set<Uri>) {
    Listing(q.files(all), all)
  }

  /** The list of access controls is sorted, so a deletion leaves the order of the rest. */
  predicate KeepsOrder(q: Queries, acls: map<Uri, Role>, u: Uri) {
    q.acls(acls - {u}) == Remove(q.acls(acls), u)
  }

  ghost predicate Sound(q: Queries) {
    && q.page > 0
    && (forall all: set<Uri> :: ListsCols(q, all))
    && (forall all: set<Uri> :: ListsFiles(q, all))
    && (forall acls: map<Uri, Role> :: ListsAcls(q, acls))
    && (forall acls: map<Uri, Role>, u: Uri :: KeepsOrder(q, acls, u))
  }

  // ----- queries that sort by the identifier are sound -----

  ghost predicate IsSmallest(all: set<Uri>, u: Uri) {
    u in all && forall v :: v in all ==> u <= v
  }

  ghost function Smallest(all: set<Uri>): (u: Uri)
    ensures all != {} ==> IsSmallest(all, u)
  {
    SmallestExists(all);
    if all == {} then 0 else var u: Uri :| IsSmallest(all, u); u
  }

  lemma {:induction false} SmallestExists(all: set<Uri>)
    ensures all != {} ==> exists u :: IsSmallest(all, u)
    decreases |all|
  {
    if all != {} {
      var w :| w in all;
      var rest := all - {w};
      if rest == {} {
        assert all == {w};
        assert IsSmallest(all, w);
      } else {
        SmallestExists(rest);
        var u :| IsSmallest(rest, u);
        assert all == rest + {w};
        assert IsSmallest(all, if u <= w then u else w);
      }
    }
  }

  ghost function Ascending(all: set<Uri>): seq<Uri>
    decreases |all|
  {
    if all == {} then [] else [Smallest(all)] + Ascending(all - {Smallest(all)})
  }

  lemma {:induction false} AscendingLists(all: set<Uri>)
    ensures Listing(Ascending(all), all)
    decreases |all|
  {
    if all != {} {
      AscendingLists(all - {Smallest(all)});
    }
  }

  lemma {:induction false} AscendingWithout(all: set<Uri>, u: Uri)
    ensures Ascending(all - {u}) == Remove(Ascending(all), u)
    decreases |all|
  {
    if all != {} {
      var least := Smallest(all);
      var rest := all - {least};
      AscendingWithout(rest, u);
      if u == least {
        assert Remove(Ascending(all), u) == Ascending(rest);
      } else {
        assert least in all - {u} && Smallest(all - {u}) == least;
        assert all - {u} - {least} == rest - {u};
      }
    } else {
      assert all - {u} == all;
    }
  }

  /** Sound queries exist, with pages of any size and any rule for the fields. */
  lemma SoundQueries(
      page: nat, marks: map<Uri, Column> -> bool, fields: (bool, map<Uri, Column>) -> Option<seq<Field>>)
    returns (q: Queries)
    ensures q.page == page && q.marks == marks && q.fields == fields && (page > 0 ==> Sound(q))
  {
    q := Queries(
      all => Ascending(all), (acls: map<Uri, Role>) => Ascending(acls.Keys), page, all => Ascending(all),
      marks, fields);
    forall all: set<Uri> ensures ListsCols(q, all) && ListsFiles(q, all) { AscendingLists(all); }
    forall acls: map<Uri, Role> ensures ListsAcls(q, acls) { AscendingLists(acls.Keys); }
    forall acls: map<Uri, Role>, u: Uri ensures KeepsOrder(q, acls, u) {
      AscendingWithout(acls.Keys, u);
      assert (acls - {u}).Keys == acls.Keys - {u};
    }
  }
}
