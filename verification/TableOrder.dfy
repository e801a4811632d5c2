/** Tables whose names and fields are accepted: every creation and every deletion finishes, after any run. */
module TableOrder {
  import Journal
  import opened Wrappers
  import opened BackingNames
  import opened TableState
  import opened AclPaging
  import opened TableDeletion
  import opened TableRefusals
  import opened TableCreation
  import opened TableRuns

  /** The fields of these columns, and of any part of them, are accepted. */
  ghost predicate GoodRows(q: Queries, rows: map<Uri, Column>) {
    forall log, part: map<Uri, Column> {:trigger HowTo(q, log, part)} ::
      SubMap(part, rows) ==> GoodFields(HowTo(q, log, part))
  }

  ghost predicate GoodFields(how: How) {
    how.Fields? && how.fields.Some? && FieldsOk(how.fields.value)
  }

  ghost predicate SubMap(a: map<Uri, Column>, b: map<Uri, Column>) {
    forall u :: u in a ==> u in b && a[u] == b[u]
  }

  lemma GoodPart(q: Queries, part: map<Uri, Column>, rows: map<Uri, Column>)
    requires GoodRows(q, rows) && SubMap(part, rows)
    ensures GoodRows(q, part)
  {
    forall log, sub: map<Uri, Column> | SubMap(sub, part) ensures GoodFields(HowTo(q, log, sub)) {
      assert SubMap(sub, rows);
    }
  }

  /** Neither the data relation nor its log is there. */
  predicate Quiet(s: State) {
    ConvertIdentifier(s.id) !in s.relations && LogName(ConvertIdentifier(s.id)) !in s.relations
  }

  /** If the relation is there, it has the fields of the schema. */
  predicate HasFields(s: State, name: string, how: How) {
    name in s.relations ==> FieldSet(how) <= s.relations[name]
  }

  /** The relations of the schema have its fields. */
  predicate Matched(q: Queries, s: State, t: ETag) {
    && HasFields(s, ConvertIdentifier(s.id), HowTo(q, false, RowsOf(s.cols, t)))
    && HasFields(s, LogName(ConvertIdentifier(s.id)), HowTo(q, true, RowsOf(s.cols, t)))
  }

  ghost predicate NamesOk(id: string) {
    DataNamesOk(id) && OthersOk(id)
  }

  /** Names and fields are accepted, and the relations of the table are its own. */
  ghost predicate Orderly(q: Queries, s: State) {
    && NamesOk(s.id) && OneDef(s)
    && HasFields(s, ManifestName(s.id), Fields(Some([MANIFEST_ETAG])))
    && (s.defs == map[] ==> Quiet(s))
    && (forall t :: t in s.defs ==> GoodRows(q, RowsOf(s.cols, t)) && Matched(q, s, t))
  }

  /** Before a table is created, all is in order if no relation has one of its names. */
  lemma OrderlyStart(
      q: Queries, id: string, relations: map<string, set<Field>>, tag: bool, files: set<Uri>, contents: set<Uri>)
    requires NamesOk(id) && ConvertIdentifier(id) !in relations && LogName(ConvertIdentifier(id)) !in relations
    requires ManifestName(id) !in relations
    ensures Orderly(q, Nothing(id, relations, tag, files, contents))
  {
    hide NamesOk, ConvertIdentifier, LogName, ManifestName;
  }

  // ----- what is in order can be opened -----

  lemma OrderlyClearable(q: Queries, s: State)
    requires Orderly(q, s)
    ensures Clearable(q, s)
  {
    forall t | t in s.defs ensures Removable(q, s, t) { OrderlyRemovable(q, s, t); }
  }

  lemma OrderlyRemovable(q: Queries, s: State, t: ETag)
    requires Orderly(q, s) && t in s.defs
    ensures Removable(q, s, t)
  {
    var rows := RowsOf(s.cols, t);
    assert SubMap(rows, rows);
    assert GoodFields(HowTo(q, false, rows)) && GoodFields(HowTo(q, true, rows));
    assert s.defs[t] == ConvertIdentifier(s.id);
    ManifestFields();
    hide NameOk, BaseOk, FieldsOk, ConvertIdentifier, LogName, ManifestName, AttachmentsBase, GoodRows, HowTo, RowsOf;
    var list := Openings(q, s, t);
    forall p | p in list ensures Accepted(s, p) { }
  }

  lemma ManifestFields()
    ensures FieldsOk([MANIFEST_ETAG])
  {
    assert FieldNameOk(MANIFEST_ETAG.name);
    assert MANIFEST_ETAG.name[1] == 'M';
    assert MANIFEST_ETAG.name !in RESERVED by {
      assert forall name :: name in RESERVED ==> name[1] != 'M';
    }
  }

  lemma OrderlyBuildable(q: Queries, s: State, r: Request)
    requires Orderly(q, s) && s.defs == map[] && GoodRows(q, Requested(r))
    ensures Buildable(q, s, r)
  {
    var rows := Requested(r);
    assert SubMap(rows, rows);
    assert GoodFields(HowTo(q, false, rows)) && GoodFields(HowTo(q, true, rows));
    hide NameOk, FieldsOk, ConvertIdentifier, LogName, GoodRows, HowTo, Requested, OthersOk, OneDef;
  }

  // ----- writes that keep the order -----

  /** The opening is one that the table makes of its own relations. */
  ghost predicate Own(q: Queries, s: State, p: Put)
    requires p.AddRelation?
  {
    && (p.name == ConvertIdentifier(s.id) ==>
          s.defs != map[] && forall t :: t in s.defs ==> p.how == HowTo(q, false, RowsOf(s.cols, t)))
    && (p.name == LogName(ConvertIdentifier(s.id)) ==>
          s.defs != map[] && forall t :: t in s.defs ==> p.how == HowTo(q, true, RowsOf(s.cols, t)))
    && (p.name == ManifestName(s.id) ==> p.how == Fields(Some([MANIFEST_ETAG])))
  }

  ghost predicate Allowed(q: Queries, s: State, p: Put) {
    match p
    case AddRelation(_, _) => Own(q, s, p)
    case PutCol(u, row) =>
      Quiet(s) && forall t :: t in s.defs ==> GoodRows(q, RowsOf(s.cols[u := row], t))
    case DropCol(_) => Quiet(s)
    case PutDef(t, name) =>
      Quiet(s) && s.defs == map[] && name == ConvertIdentifier(s.id) && GoodRows(q, RowsOf(s.cols, t))
    case DropDef(_) => Quiet(s)
    case _ => true
  }

  lemma AddKeeps(q: Queries, s: State, p: Put)
    requires Orderly(q, s) && p.AddRelation? && Own(q, s, p)
    ensures Orderly(q, Apply(s, p))
  {
    hide NamesOk, ConvertIdentifier, LogName, ManifestName, GoodRows, HowTo, RowsOf, FieldSet;
  }

  lemma ColDropped(q: Queries, s: State, u: Uri)
    requires Orderly(q, s) && Quiet(s)
    ensures Orderly(q, Apply(s, DropCol(u)))
  {
    forall t | t in s.defs ensures GoodRows(q, RowsOf(s.cols - {u}, t)) {
      GoodPart(q, RowsOf(s.cols - {u}, t), RowsOf(s.cols, t));
    }
    hide NamesOk, ConvertIdentifier, LogName, ManifestName, GoodRows, HowTo, RowsOf, FieldSet;
  }

  lemma AllowedKeeps(q: Queries, s: State, p: Put)
    requires Orderly(q, s) && Allowed(q, s, p)
    ensures Orderly(q, Apply(s, p))
  {
    if p.AddRelation? {
      AddKeeps(q, s, p);
    } else if p.DropCol? {
      ColDropped(q, s, p.u);
    } else if p.PutCol? || p.PutDef? {
      SchemaPut(q, s, p);
    } else if p.DropRelation? || p.DropDef? {
      SchemaGoes(q, s, p);
    } else {
      var s' := Apply(s, p);
      assert s'.id == s.id && s'.defs == s.defs && s'.cols == s.cols && s'.relations == s.relations;
      hide Apply, Allowed;
      SameOrderly(q, s, s');
    }
  }

  lemma SameOrderly(q: Queries, s: State, s': State)
    requires Orderly(q, s)
    requires s'.id == s.id && s'.defs == s.defs && s'.cols == s.cols && s'.relations == s.relations
    ensures Orderly(q, s')
  {
    hide NamesOk, ConvertIdentifier, LogName, ManifestName, GoodRows, HowTo, RowsOf, FieldSet;
  }

  lemma SchemaGoes(q: Queries, s: State, p: Put)
    requires Orderly(q, s) && Allowed(q, s, p) && (p.DropRelation? || p.DropDef?)
    ensures Orderly(q, Apply(s, p))
  {
    hide NamesOk, ConvertIdentifier, LogName, ManifestName, GoodRows, HowTo, RowsOf, FieldSet, Own;
  }

  lemma SchemaPut(q: Queries, s: State, p: Put)
    requires Orderly(q, s) && Allowed(q, s, p) && (p.PutCol? || p.PutDef?)
    ensures Orderly(q, Apply(s, p))
  {
    hide NamesOk, ConvertIdentifier, LogName, ManifestName, GoodRows, HowTo, RowsOf, FieldSet, Own;
  }

  ghost predicate AllAllowed(q: Queries, s: State, ps: seq<Put>)
    decreases |ps|
  {
    ps == [] || (Allowed(q, s, ps[0]) && AllAllowed(q, Apply(s, ps[0]), ps[1..]))
  }

  lemma {:induction false} AllowedStops(q: Queries, s: State, ps: seq<Put>, k: nat)
    requires Orderly(q, s) && AllAllowed(q, s, ps)
    ensures Orderly(q, Crash(s, ps, k))
    decreases |ps|
  {
    hide Orderly, Allowed, Apply;
    if ps != [] && k > 0 {
      AllowedKeeps(q, s, ps[0]);
      AllowedStops(q, Apply(s, ps[0]), ps[1..], k - 1);
    }
  }

  lemma {:induction false} AllowedConcat(q: Queries, s: State, a: seq<Put>, b: seq<Put>)
    ensures AllAllowed(q, s, a + b) <==> AllAllowed(q, s, a) && AllAllowed(q, Replay(s, a), b)
    decreases |a|
  {
    hide Allowed, Apply;
    if a == [] {
      assert a + b == b;
    } else {
      assert (a + b)[1..] == a[1..] + b;
      AllowedConcat(q, Apply(s, a[0]), a[1..], b);
    }
  }

  // ----- the deletion keeps the order -----

  lemma OwnAnywhere(q: Queries, s: State, s': State, p: Put)
    requires p.AddRelation? && s'.id == s.id && s'.defs == s.defs && s'.cols == s.cols
    ensures Own(q, s', p) <==> Own(q, s, p)
  {
  }

  lemma {:induction false} OpenDropsAllowed(q: Queries, s: State, list: seq<Put>)
    requires AllOpenings(list) && forall p :: p in list ==> Own(q, s, p)
    ensures AllAllowed(q, s, OpenDrops(list))
    decreases |list|
  {
    if list != [] {
      var p, rest := list[0], OpenDrops(list[1..]);
      assert p in list;
      var s1 := Apply(s, p);
      var s2 := Apply(s1, DropRelation(p.name));
      EntryStays(s, p);
      OpenDropOne(s, p);
      hide Own;
      forall x | x in list[1..] ensures Own(q, s2, x) {
        assert x in list;
        OwnAnywhere(q, s, s2, x);
      }
      OpenDropsAllowed(q, s2, list[1..]);
      var ps := [p, DropRelation(p.name)] + rest;
      assert ps[1..] == [DropRelation(p.name)] + rest && ([DropRelation(p.name)] + rest)[1..] == rest;
      hide Apply;
      assert AllAllowed(q, s1, [DropRelation(p.name)] + rest);
    }
  }

  lemma OpeningsOwn(q: Queries, s: State, t: ETag)
    requires OneDef(s) && t in s.defs
    ensures forall p :: p in Openings(q, s, t) ==> p.AddRelation? && Own(q, s, p)
  {
    TableNamesDiffer(s.id);
    hide ConvertIdentifier, LogName, ManifestName, HowTo, RowsOf;
    forall p | p in Openings(q, s, t) ensures p.AddRelation? && Own(q, s, p) {
      assert forall u :: u in s.defs ==> u == t;
    }
  }

  /** The relation is none of the table but one of its blob store. */
  predicate Foreign(s: State, name: string) {
    && name != ConvertIdentifier(s.id) && name != LogName(ConvertIdentifier(s.id)) && name != ManifestName(s.id)
  }

  /** The relations of a blob store begin with underscores. */
  lemma BlobIsForeign(s: State, base: string, suffix: string)
    requires NamesOk(s.id)
    ensures Foreign(s, Lower(Static(base)) + suffix)
  {
    var blob := Lower(Static(base));
    assert blob[0] == '_';
    assert (blob + suffix)[0] == '_';
    hide ConvertIdentifier, LogName, ManifestName, Lower;
  }

  lemma {:induction false} ForeignAllowed(q: Queries, s: State, ps: seq<Put>)
    requires NamesOk(s.id)
    requires forall p :: p in ps ==> p.DropRelation? || (p.AddRelation? && Foreign(s, p.name))
    ensures AllAllowed(q, s, ps)
    decreases |ps|
  {
    hide NamesOk, ConvertIdentifier, LogName, ManifestName;
    if ps != [] {
      assert ps[0] in ps;
      OneKeepsId(s, ps[0]);
      assert Allowed(q, s, ps[0]);
      hide Apply, Allowed;
      ForeignAllowed(q, Apply(s, ps[0]), ps[1..]);
    }
  }

  lemma BlobsAllowed(q: Queries, s: State, base: string)
    requires NamesOk(s.id)
    ensures AllAllowed(q, s, BlobPuts(base))
  {
    BlobIsForeign(s, base, CTNT_SUFFIX);
    BlobIsForeign(s, base, VREF_SUFFIX);
    BlobIsForeign(s, base, BLOB_SUFFIX);
    hide NamesOk, Foreign, Lower, Static;
    ForeignAllowed(q, s, BlobPuts(base));
  }

  /** Writes that touch neither relations nor definitions, once the data relation and its log are gone. */
  lemma {:induction false} QuietAllowed(q: Queries, s: State, ps: seq<Put>)
    requires Quiet(s)
    requires forall p :: p in ps ==> p.DropCol? || p.DropTag? || p.DropFile? || p.DropContents?
    ensures AllAllowed(q, s, ps)
    decreases |ps|
  {
    hide ConvertIdentifier, LogName;
    if ps != [] {
      assert ps[0] in ps;
      QuietAllowed(q, Apply(s, ps[0]), ps[1..]);
    }
  }

  /** Writes to the entry and to the access control list. */
  lemma {:induction false} ListAllowed(q: Queries, s: State, ps: seq<Put>)
    requires forall p :: p in ps ==> p.PutAcl? || p.DropAcl? || p.PutEntry? || p.DropEntry?
    ensures AllAllowed(q, s, ps)
    decreases |ps|
  {
    if ps != [] {
      assert ps[0] in ps;
      hide Apply;
      ListAllowed(q, Apply(s, ps[0]), ps[1..]);
    }
  }

  lemma WorkAllowed(q: Queries, s: State, t: ETag)
    requires OneDef(s) && NamesOk(s.id) && t in s.defs
    ensures AllAllowed(q, s, WorkPuts(q, s, t)) && Quiet(Replay(s, WorkPuts(q, s, t)))
  {
    OpeningsDiffer(q, s, t);
    OpeningsOwn(q, s, t);
    hide NamesOk, OneDef, OpenDrops, Openings, BlobPuts, PlainPuts, ConvertIdentifier, LogName, ManifestName, Own;
    hide Journal.Replay, Lower, AllAllowed, Allowed;
    var list := Openings(q, s, t);
    var a, rest := OpenDrops(list), BlobPuts(AttachmentsBase(s.id)) + PlainPuts(q, s, t);
    OpenDropsAllowed(q, s, list);
    OpenDropsDone(s, list);
    var s1 := Replay(s, a);
    assert Quiet(s1);
    QuietWork(q, s1, AttachmentsBase(s.id), PlainPuts(q, s, t), s, t);
    AllowedConcat(q, s, a, rest);
    Journal.ReplayConcat(Apply, s, a, rest);
  }

  /** The rest of the work, once the data relation and its log are gone. */
  lemma QuietWork(q: Queries, s1: State, base: string, c: seq<Put>, s: State, t: ETag)
    requires Quiet(s1) && NamesOk(s1.id) && c == PlainPuts(q, s, t)
    ensures AllAllowed(q, s1, BlobPuts(base) + c) && Quiet(Replay(s1, BlobPuts(base) + c))
  {
    hide NamesOk, BlobPuts, PlainPuts, ConvertIdentifier, LogName, Journal.Replay, Lower, AllAllowed;
    var b := BlobPuts(base);
    BlobsAllowed(q, s1, base);
    BlobPutsDone(s1, base);
    var s2 := Replay(s1, b);
    assert Quiet(s2);
    forall p | p in c ensures p.DropCol? || p.DropTag? || p.DropFile? || p.DropContents? { PlainPutsAre(q, s, t, p); }
    QuietAllowed(q, s2, c);
    AllowedConcat(q, s1, b, c);
    Journal.ReplayConcat(Apply, s1, b, c);
    RelationsStay(s2, c);
  }

  lemma {:induction false} RelationsStay(s: State, ps: seq<Put>)
    requires forall p :: p in ps ==> p.DropCol? || p.DropTag? || p.DropFile? || p.DropContents?
    ensures Replay(s, ps).relations == s.relations && Replay(s, ps).id == s.id
    decreases |ps|
  {
    if ps != [] {
      assert ps[0] in ps;
      RelationsStay(Apply(s, ps[0]), ps[1..]);
    }
  }

  lemma StaleAllowed(q: Queries, s: State, m: Entry)
    requires Orderly(q, s)
    ensures AllAllowed(q, s, StalePuts(q, s, m))
  {
    if m.stale.Some? && m.stale.value in s.defs {
      var t := m.stale.value;
      hide NamesOk, WorkPuts, Quiet, Journal.Replay;
      WorkAllowed(q, s, t);
      var s1 := Replay(s, WorkPuts(q, s, t));
      AllowedConcat(q, s, WorkPuts(q, s, t), [DropDef(t)]);
      assert [DropDef(t)][1..] == [];
      assert AllAllowed(q, s1, [DropDef(t)]);
    }
  }

  lemma PendingAllowed(q: Queries, s: State, m: Entry)
    requires Orderly(q, s)
    ensures AllAllowed(q, s, PendingPuts(q, s, m))
  {
    if m.pendingData.Some? && m.live.Some? && m.live.value in s.defs {
      var t, ps := m.live.value, PendingPuts(q, s, m);
      OpeningsOwn(q, s, t);
      var list := Openings(q, s, t);
      assert list[0] in list && list[1] in list;
      EntryStays(s, list[0]);
      OwnAnywhere(q, s, Apply(s, list[0]), list[1]);
      hide NamesOk, Openings, Own, Apply;
      ThreeAllowed(q, s, list[0], list[1], ps[2]);
    }
  }

  lemma ThreeAllowed(q: Queries, s: State, a: Put, b: Put, c: Put)
    requires Allowed(q, s, a) && Allowed(q, Apply(s, a), b) && c.PutEntry?
    ensures AllAllowed(q, s, [a, b, c])
  {
    assert [a, b, c][1..] == [b, c] && [b, c][1..] == [c] && [c][1..] == [];
    var s1 := Apply(s, a);
    var s2 := Apply(s1, b);
    assert Allowed(q, s2, c);
    hide Allowed, Apply;
    assert AllAllowed(q, s2, [c]);
    assert AllAllowed(q, s1, [b, c]);
  }

  lemma RoundAllowed(q: Queries, s: State, m: Entry)
    requires Orderly(q, s)
    ensures AllAllowed(q, s, RoundPuts(q, s, m))
  {
    hide Orderly, StalePuts, PendingPuts, Journal.Replay, Journal.Crash, AllAllowed;
    var a := StalePuts(q, s, m);
    var s1 := Replay(s, a);
    StaleAllowed(q, s, m);
    AllowedStops(q, s, a, |a|);
    Journal.CrashAll(Apply, s, a, |a|);
    PendingAllowed(q, s1, m.(stale := None));
    AllowedConcat(q, s, a, PendingPuts(q, s1, m.(stale := None)));
  }

  lemma AclsAllowed(q: Queries, s: State)
    requires q.page > 0
    ensures AllAllowed(q, s, AclPuts(q, s))
  {
    hide Select;
    var list := q.acls(s.acls);
    var read := list[..Visited(list, Owners(s.acls), q.page)];
    forall p | p in AclPuts(q, s) ensures p.DropAcl? || p.DropEntry? {
      DropAclsAre(Select(s.acls, read, false), p);
      DropAclsAre(Select(s.acls, read, true), p);
    }
    ListAllowed(q, s, AclPuts(q, s));
  }

  lemma {:induction false} DeletionAllowed(q: Queries, s: State, m: Entry, deleteCurrent: bool)
    requires q.page > 0 && Orderly(q, s)
    ensures AllAllowed(q, s, DeletePuts(q, s, m, deleteCurrent))
    decreases Open(m)
  {
    hide Orderly, RoundPuts, AclPuts, Journal.Replay, Journal.Crash, DeletePuts, AllAllowed;
    var round := RoundPuts(q, s, m);
    var s2, next := Replay(s, round), Next(Cleaned(m), deleteCurrent);
    DeleteSplit(q, s, m, deleteCurrent);
    RoundAllowed(q, s, m);
    AllowedStops(q, s, round, |round|);
    Journal.CrashAll(Apply, s, round, |round|);
    var rest := RestPuts(q, s2, m, deleteCurrent);
    AllowedConcat(q, s, round, rest);
    if next.Some? {
      var first := PutEntry(next.value);
      var s3 := Apply(s2, first);
      AllowedKeeps(q, s2, first);
      DeletionAllowed(q, s3, next.value, deleteCurrent);
      AllowedConcat(q, s2, [first], DeletePuts(q, s3, next.value, deleteCurrent));
      Journal.One(Apply, s2, first, 1);
      ListAllowed(q, s2, [first]);
    } else if deleteCurrent {
      AclsAllowed(q, s2);
    } else {
      ListAllowed(q, s2, []);
    }
  }

  // ----- the creation keeps the order -----

  lemma {:induction false} PutColsAllowed(q: Queries, s: State, r: Request, columns: seq<Column>, first: Uri)
    requires Quiet(s) && GoodRows(q, Requested(r)) && (forall t :: t in s.defs ==> t == r.schema)
    requires SubMap(RowsOf(s.cols + ColsFrom(columns, r.schema, first), r.schema), Requested(r))
    requires forall u :: u in s.cols ==> u < first
    ensures AllAllowed(q, s, PutCols(columns, r.schema, first))
    decreases |columns|
  {
    hide GoodRows, ConvertIdentifier, LogName, Requested, RowsOf, SubMap;
    if columns != [] {
      var row, rest := ColumnRow(r.schema, columns[0]), ColsFrom(columns[1..], r.schema, first + 1);
      AddedFirst(s.cols, rest, first, row);
      var s1 := Apply(s, PutCol(first, row));
      MorePart(s1.cols, rest, r.schema, Requested(r));
      GoodPart(q, RowsOf(s1.cols, r.schema), Requested(r));
      assert Allowed(q, s, PutCol(first, row));
      PutColsAllowed(q, s1, r, columns[1..], first + 1);
    }
  }

  lemma MorePart(a: map<Uri, ColumnRow>, b: map<Uri, ColumnRow>, t: ETag, all: map<Uri, Column>)
    requires SubMap(RowsOf(a + b, t), all) && forall u :: u in b ==> u !in a
    ensures SubMap(RowsOf(a, t), all)
  {
    var x, y := RowsOf(a, t), RowsOf(a + b, t);
    forall u | u in x ensures u in all && x[u] == all[u] { assert u in y && y[u] == x[u]; }
  }

  lemma DefAllowed(q: Queries, s: State, r: Request)
    requires Orderly(q, s) && s.defs == map[] && s.cols == map[] && GoodRows(q, Requested(r))
    ensures AllAllowed(q, s, DefPuts(s.id, r))
  {
    hide NamesOk, ConvertIdentifier, LogName, ManifestName, GoodRows, HowTo;
    var def := PutDef(r.schema, ConvertIdentifier(s.id));
    var s1 := Apply(s, def);
    assert SubMap(RowsOf(s.cols, r.schema), Requested(r));
    GoodPart(q, RowsOf(s.cols, r.schema), Requested(r));
    assert s1.cols + ColsFrom(r.columns, r.schema, r.first) == ColsFrom(r.columns, r.schema, r.first);
    assert SubMap(Requested(r), Requested(r));
    PutColsAllowed(q, s1, r, r.columns, r.first);
    assert DefPuts(s.id, r)[1..] == PutCols(r.columns, r.schema, r.first);
  }

  lemma LastAllowed(q: Queries, s: State, r: Request)
    requires s.defs == map[r.schema := ConvertIdentifier(s.id)] && RowsOf(s.cols, r.schema) == Requested(r)
    ensures AllAllowed(q, s, LastPuts(q, s.id, r))
  {
    TableNamesDiffer(s.id);
    DataAre(q, s.id, r);
    hide ConvertIdentifier, LogName, ManifestName, HowTo, RowsOf, Requested;
    var ps := DataOpenings(q, s.id, r);
    assert s.defs != map[] by { assert r.schema in s.defs; }
    assert Own(q, s, ps[0]) && Own(q, s, ps[1]);
    EntryStays(s, ps[0]);
    OwnAnywhere(q, s, Apply(s, ps[0]), ps[1]);
    hide Own, Apply;
    ThreeAllowed(q, s, ps[0], ps[1], PutEntry(Live(r)));
  }

  lemma BuildAllowed(q: Queries, s: State, r: Request)
    requires Sound(q) && Inv(s) && s.entry.None? && Orderly(q, s) && GoodRows(q, Requested(r))
    ensures q.page > 0 && AllAllowed(q, s, BuildPuts(q, s, r))
  {
    hide Sound, Inv, Orderly, GoodRows, OpenPuts, DefPuts, LastPuts, AllAllowed, Journal.Replay, Journal.Crash;
    hide AclsFor, ColsFrom, Prepared, Requested, Opened;
    PageIsPositive(q);
    OpenDone(q, s, r);
    var open, def, last := OpenPuts(q, s, r), DefPuts(s.id, r), LastPuts(q, s.id, r);
    OpenAllowed(q, s, r);
    AllowedStops(q, s, open, |open|);
    Journal.CrashAll(Apply, s, open, |open|);
    var s1 := Replay(s, open);
    OpenedIs(s1, r);
    DefAllowed(q, s1, r);
    PreparedIs(q, s, r);
    LastAllowed(q, Prepared(q, s, r), r);
    AllowedConcat(q, s, open, def + last);
    AllowedConcat(q, s1, def, last);
  }

  lemma OpenAllowed(q: Queries, s: State, r: Request)
    requires q.page > 0
    ensures AllAllowed(q, s, OpenPuts(q, s, r))
  {
    forall p | p in OpenPuts(q, s, r) ensures p.PutAcl? || p.DropAcl? || p.PutEntry? {
      DropAclsAre(FirstPage(q, s.acls), p);
    }
    ListAllowed(q, s, OpenPuts(q, s, r));
  }

  lemma OpenedIs(s: State, r: Request)
    requires Opened(s, r)
    ensures s.defs == map[] && s.cols == map[]
  {
    EmptyCols(s);
  }

  lemma PreparedIs(q: Queries, s: State, r: Request)
    requires q.page > 0
    ensures
      var p := Prepared(q, s, r);
      p.id == s.id && p.defs == map[r.schema := ConvertIdentifier(s.id)] && RowsOf(p.cols, r.schema) == Requested(r)
  {
  }

  lemma CreationAllowed(q: Queries, s: State, r: Request)
    requires Sound(q) && Inv(s) && Orderly(q, s) && GoodRows(q, Requested(r))
    ensures q.page > 0 && AllAllowed(q, s, CreatePuts(q, s, r))
  {
    hide Sound, Inv, Orderly, GoodRows, ClearPuts, BuildPuts, AllAllowed, Journal.Replay, Journal.Crash, Cleared;
    PageIsPositive(q);
    if IsLive(s) {
      ListAllowed(q, s, []);
    } else {
      var clear := ClearPuts(q, s);
      ClearAllowed(q, s);
      ClearStops(q, s, 0);
      AllowedStops(q, s, clear, |clear|);
      Journal.CrashAll(Apply, s, clear, |clear|);
      if r.offices != Some([]) {
        var s1 := Cleared(q, s);
        BuildAllowed(q, s1, r);
        AllowedConcat(q, s, clear, BuildPuts(q, s1, r));
      }
    }
  }

  lemma ClearAllowed(q: Queries, s: State)
    requires q.page > 0 && Orderly(q, s)
    ensures AllAllowed(q, s, ClearPuts(q, s))
  {
    hide Orderly, DeletePuts;
    if s.entry.Some? { DeletionAllowed(q, s, s.entry.value, true); } else { ListAllowed(q, s, []); }
  }

  // ----- runs -----

  /** The columns that are asked for make fields that are accepted. */
  ghost predicate GoodEvent(q: Queries, e: Event) {
    e.Create? ==> GoodRows(q, Requested(e.r))
  }

  lemma EventOrderly(q: Queries, s: State, e: Event)
    requires Sound(q) && Inv(s) && Orderly(q, s) && GoodEvent(q, e)
    ensures q.page > 0 && Orderly(q, AfterEvent(q, s, e))
  {
    hide Sound, Inv, Orderly, GoodRows, AllAllowed, Journal.Crash, CreatePuts, DeletePuts, Written, Requested;
    PageIsPositive(q);
    var ps := PlanOf(q, s, e);
    var n := WrittenStops(s, ps, e.cut);
    match e {
      case Create(r, _) => CreationAllowed(q, s, r);
      case Delete(deleteCurrent, _) =>
        if s.entry.Some? {
          DeletionAllowed(q, s, s.entry.value, deleteCurrent);
        } else {
          ListAllowed(q, s, []);
        }
    }
    AllowedStops(q, s, ps, n);
  }

  /**
    Where the names of a table are accepted, and the fields of the columns that are asked for, a
    full creation and a full deletion finish from whatever any run leaves.
   */
  lemma {:induction false} EveryRunCanFinish(q: Queries, s: State, es: seq<Event>, r: Request)
    requires Sound(q) && Inv(s) && Orderly(q, s) && (forall e :: e in es ==> GoodEvent(q, e))
    requires GoodRows(q, Requested(r)) && r.offices != Some([])
    ensures q.page > 0
    ensures
      var t := RunOf(q, s, es);
      && Inv(t) && Orderly(q, t) && Finishes(t, CreatePuts(q, t, r))
      && (t.entry.Some? ==> Finishes(t, DeletePuts(q, t, t.entry.value, true)))
    decreases |es|
  {
    hide Sound, Inv, Orderly, GoodRows, CreatePuts, DeletePuts, AfterEvent, Requested, Finishes;
    PageIsPositive(q);
    if es == [] {
      CanFinish(q, s, r);
    } else {
      assert es[0] in es;
      EventKeeps(q, s, es[0]);
      EventOrderly(q, s, es[0]);
      EveryRunCanFinish(q, AfterEvent(q, s, es[0]), es[1..], r);
    }
  }

  lemma CanFinish(q: Queries, s: State, r: Request)
    requires Sound(q) && Inv(s) && Orderly(q, s) && GoodRows(q, Requested(r)) && r.offices != Some([])
    ensures q.page > 0 && Finishes(s, CreatePuts(q, s, r))
    ensures s.entry.Some? ==> Finishes(s, DeletePuts(q, s, s.entry.value, true))
  {
    hide Sound, Inv, Orderly, GoodRows, CreatePuts, DeletePuts, Requested, Clearable, Buildable, Cleared;
    hide Journal.Replay, Journal.Crash, ClearPuts;
    PageIsPositive(q);
    OrderlyClearable(q, s);
    if s.entry.Some? { DeletionFinishesIff(q, s, s.entry.value); }
    if IsLive(s) {
      NoWrites(q, s, r);
    } else {
      ClearAllowed(q, s);
      var clear := ClearPuts(q, s);
      AllowedStops(q, s, clear, |clear|);
      Journal.CrashAll(Apply, s, clear, |clear|);
      ClearStops(q, s, 0);
      NoEntry(Cleared(q, s));
      OrderlyBuildable(q, Cleared(q, s), r);
      CreationFinishesIff(q, s, r);
    }
  }
}
