/** Creating and deleting a table, under the table lock. */
module TableManager {
  import Journal
  import opened Wrappers
  import opened BackingNames
  import opened TableState
  import opened AclPaging
  import opened TableDeletion
  import opened TableRefusals
  import opened TableCreation
  import opened TableRuns

  // ----- pages of the access control list -----

  /** The rows after the row `start`; none if that row is not there. */
  function After(list: seq<Uri>, start: Option<Uri>): seq<Uri> {
    if start.None? then list
    else if list == [] then []
    else if list[0] == start.value then list[1..]
    else After(list[1..], start)
  }

  lemma {:induction false} AfterMember(a: seq<Uri>, u: Uri, b: seq<Uri>)
    requires u !in a
    ensures After(a + [u] + b, Some(u)) == b
  {
    if a == [] {
      assert (a + [u] + b)[1..] == b;
    } else {
      assert (a + [u] + b)[1..] == a[1..] + [u] + b;
      AfterMember(a[1..], u, b);
    }
  }

  lemma {:induction false} AfterAbsent(list: seq<Uri>, u: Uri)
    requires u !in list
    ensures After(list, Some(u)) == []
  {
    if list != [] { AfterAbsent(list[1..], u); }
  }

  lemma {:induction false} RemoveMiddle(a: seq<Uri>, u: Uri, b: seq<Uri>)
    requires u !in a
    ensures Remove(a + [u] + b, u) == a + b
  {
    if a == [] {
      assert (a + [u] + b)[1..] == b && a + b == b;
    } else {
      assert (a + [u] + b)[1..] == a[1..] + [u] + b;
      RemoveMiddle(a[1..], u, b);
      assert a + b == [a[0]] + (a[1..] + b);
    }
  }

  lemma {:induction false} SelectMore(acls: map<Uri, Role>, list: seq<Uri>, owner: bool, i: nat)
    requires i < |list| && list[i] in acls
    ensures Select(acls, list[..i + 1], owner) ==
      if (acls[list[i]] == Owner) == owner then Select(acls, list[..i], owner) + [list[i]]
      else Select(acls, list[..i], owner)
    decreases i
  {
    if i == 0 {
      assert list[..1][1..] == [];
    } else {
      assert list[..i + 1][1..] == list[1..][..i] && list[..i][1..] == list[1..][..i - 1];
      SelectMore(acls, list[1..], owner, i - 1);
    }
  }

  lemma {:induction false} DropAclsMore(list: seq<Uri>, u: Uri)
    ensures DropAcls(list + [u]) == DropAcls(list) + [DropAcl(u)]
  {
    if list == [] {
      assert (list + [u])[1..] == [];
    } else {
      assert (list + [u])[1..] == list[1..] + [u];
      DropAclsMore(list[1..], u);
    }
  }

  lemma {:induction false} DropColsMore(list: seq<Uri>, u: Uri)
    ensures DropCols(list + [u]) == DropCols(list) + [DropCol(u)]
  {
    if list == [] {
      assert (list + [u])[1..] == [];
    } else {
      assert (list + [u])[1..] == list[1..] + [u];
      DropColsMore(list[1..], u);
    }
  }

  /** Every write is one step; `journal` lists them. */
  class TableStore {
    const q: Queries
    const id: string
    var entry: Option<Entry>
    var defs: map<ETag, string>
    var cols: map<Uri, ColumnRow>
    var acls: map<Uri, Role>
    var relations: map<string, set<Field>>
    var tag: bool
    var files: set<Uri>
    var contents: set<Uri>
    ghost var journal: seq<Put>

    constructor (q: Queries, id: string)
      ensures this.q == q && Stored() == Nothing(id, map[], false, {}, {}) && journal == []
    {
      this.q, this.id := q, id;
      entry, defs, cols, acls, relations, journal := None, map[], map[], map[], map[], [];
      tag, files, contents := false, {}, {};
    }

    ghost function Stored(): State
      reads this
    {
      State(id, entry, defs, cols, acls, relations, tag, files, contents)
    }

    /** The writes `ps` were added to `j` and took the store from `s` to where it is now. */
    ghost predicate Wrote(s: State, j: seq<Put>, ps: seq<Put>)
      reads this
    {
      Stored() == Replay(s, ps) && journal == j + ps
    }

    /** The same for an operation that a relation may have ended: `ok` says that it got through. */
    ghost predicate Tried(s: State, j: seq<Put>, ps: seq<Put>, ok: bool)
      reads this
    {
      Stored() == Replay(s, Written(s, ps)) && journal == j + Written(s, ps) && (ok <==> Finishes(s, ps))
    }

    method Write(p: Put)
      modifies this
      ensures Stored() == Apply(old(Stored()), p) && journal == old(journal) + [p]
    {
      var s := Apply(State(id, entry, defs, cols, acls, relations, tag, files, contents), p);
      entry, defs, cols, acls, relations := s.entry, s.defs, s.cols, s.acls, s.relations;
      tag, files, contents := s.tag, s.files, s.contents;
      journal := journal + [p];
      OneKeepsId(old(Stored()), p);
    }

    /** The name and the fields of a relation are accepted, and if it is there it has these fields. */
    method MayOpen(name: string, how: How) returns (ok: bool)
      ensures ok <==> Accepted(Stored(), AddRelation(name, how))
    {
      match how
      case Blobs(base) => ok := CheckBase(base);
      case Fields(fields) =>
        var backing := PlacedName(NAMESPACE, name);
        NamespaceOk();
        if backing.Err? || fields.None? { return false; }
        var accepted := CheckFields(fields.value);
        return accepted && (name in relations ==> FieldSet(how) <= relations[name]);
    }

    /** Opens a relation, which creates it if it is missing, unless it is refused. */
    method Open(name: string, how: How) returns (ok: bool)
      modifies this
      ensures Tried(old(Stored()), old(journal), [AddRelation(name, how)], ok)
    {
      OneTried(Stored(), AddRelation(name, how));
      ok := MayOpen(name, how);
      if ok { Write(AddRelation(name, how)); }
    }

    /** The columns of one schema. */
    method QueryCols(t: ETag) returns (hits: seq<Uri>)
      ensures hits == q.cols(ColsWith(Stored(), t))
    {
      hits := q.cols(set u | u in cols && cols[u].schema == t);
      assert (set u | u in cols && cols[u].schema == t) == ColsWith(Stored(), t);
    }

    /** One page of the access control list, from the row after `start` on. */
    method QueryAcls(start: Option<Uri>, fetchLimit: nat) returns (page: seq<Uri>, hasMore: bool)
      requires fetchLimit > 0
      ensures
        var rest := After(q.acls(acls), start);
        page == rest[..if |rest| <= fetchLimit then |rest| else fetchLimit] && hasMore == (|rest| > fetchLimit)
    {
      var rows := q.acls(acls);
      page, hasMore := [], false;
      var beforeUri := start.Some?;
      for i := 0 to |rows|
        invariant beforeUri ==> start.Some? && page == [] && After(rows, start) == After(rows[i..], start)
        invariant !beforeUri ==> After(rows, start) == page + rows[i..] && |page| <= fetchLimit
      {
        assert rows[i..][1..] == rows[i + 1..];
        if beforeUri {
          if rows[i] == start.value { beforeUri := false; }
        } else if |page| < fetchLimit {
          page := page + [rows[i]];
        } else {
          return page, true;
        }
      }
    }
  }

  // ----- reading the list while it is being deleted -----

  /** The rows of `list` numbered from `n` on have not been read; of the others, only the owners are left. */
  ghost predicate Reading(q: Queries, acls0: map<Uri, Role>, list: seq<Uri>, n: nat, acls: map<Uri, Role>) {
    && n <= |list| && q.acls(acls) == Select(acls0, list[..n], true) + list[n..]
    && (forall u :: u in list[n..] ==> u in acls && u in acls0 && acls[u] == acls0[u])
  }

  /** A row that has not been read is still to come in the list, after the owners read before it. */
  lemma ReadOne(q: Queries, acls0: map<Uri, Role>, list: seq<Uri>, n: nat, acls: map<Uri, Role>)
    requires Sound(q) && Listing(list, acls0.Keys) && Reading(q, acls0, list, n, acls) && n < |list|
    ensures list[n] in acls && list[n] in acls0 && acls[list[n]] == acls0[list[n]]
    ensures Reading(q, acls0, list, n + 1, if acls0[list[n]] == Owner then acls else acls - {list[n]})
  {
    hide Sound, Select, Remove;
    var u, kept, rest := list[n], Select(acls0, list[..n], true), list[n + 1..];
    assert list[n..] == [u] + rest && u in list[n..];
    SelectMore(acls0, list, true, n);
    assert kept + list[n..] == kept + [u] + rest;
    forall v | v in rest ensures v in list[n..] && v != u { }
    if acls0[u] != Owner {
      SelectedBefore(acls0, list, n);
      RemoveMiddle(kept, u, rest);
      AfterRemoval(q, acls, u);
    }
  }

  lemma SelectedBefore(acls0: map<Uri, Role>, list: seq<Uri>, n: nat)
    requires Listing(list, acls0.Keys) && n < |list|
    ensures list[n] !in Select(acls0, list[..n], true)
  {
    SelectIn(acls0, list[..n], true, list[n]);
  }

  lemma AfterRemoval(q: Queries, acls: map<Uri, Role>, u: Uri)
    requires Sound(q) && u in acls
    ensures q.acls(acls - {u}) == Remove(q.acls(acls), u)
  {
    assert KeepsOrder(q, acls, u);
  }

  /** The next page starts after the last row read, if that row is still there. */
  lemma NextPage(q: Queries, acls0: map<Uri, Role>, list: seq<Uri>, n: nat, acls: map<Uri, Role>)
    requires Listing(list, acls0.Keys) && Reading(q, acls0, list, n, acls) && n > 0
    ensures After(q.acls(acls), Some(list[n - 1])) == if list[n - 1] in Owners(acls0) then list[n..] else []
  {
    var u := list[n - 1];
    assert u in list && u in acls0;
    SelectMore(acls0, list, true, n - 1);
    var kept := Select(acls0, list[..n - 1], true);
    forall v ensures v in kept ==> v in list[..n - 1] { SelectIn(acls0, list[..n - 1], true, v); }
    assert u !in kept && u !in list[n..];
    if u in Owners(acls0) {
      AfterMember(kept, u, list[n..]);
    } else {
      assert Select(acls0, list[..n], true) == kept;
      AfterAbsent(kept + list[n..], u);
    }
  }

  class Manager {
    const store: TableStore

    constructor (store: TableStore)
      ensures this.store == store
    {
      this.store := store;
    }

    /** Deletes the rows of one page but the owners, and holds these back. */
    method DeletePage(
        page: seq<Uri>, heldBack: seq<Uri>, ghost s0: State, ghost j0: seq<Put>, ghost list: seq<Uri>, ghost n: nat)
      returns (held: seq<Uri>)
      requires Sound(store.q) && Listing(list, s0.acls.Keys) && Reading(store.q, s0.acls, list, n, store.acls)
      requires n + |page| <= |list| && page == list[n..n + |page|]
      requires heldBack == Select(s0.acls, list[..n], true)
      requires store.Wrote(s0, j0, DropAcls(Select(s0.acls, list[..n], false)))
      modifies store
      ensures Reading(store.q, s0.acls, list, n + |page|, store.acls)
      ensures held == Select(s0.acls, list[..n + |page|], true)
      ensures store.Wrote(s0, j0, DropAcls(Select(s0.acls, list[..n + |page|], false)))
    {
      hide Reading, Journal.Replay, Select, DropAcls, Sound, Listing;
      held := heldBack;
      for i := 0 to |page|
        invariant Reading(store.q, s0.acls, list, n + i, store.acls)
        invariant held == Select(s0.acls, list[..n + i], true)
        invariant store.Wrote(s0, j0, DropAcls(Select(s0.acls, list[..n + i], false)))
      {
        ghost var k := n + i;
        assert page[i] == list[k];
        ReadOne(store.q, s0.acls, list, k, store.acls);
        SelectMore(s0.acls, list, true, k);
        SelectMore(s0.acls, list, false, k);
        if store.acls[page[i]] == Owner {
          held := held + [page[i]];
        } else {
          ghost var done := Select(s0.acls, list[..k], false);
          DropAclsMore(done, page[i]);
          Journal.ReplayAppend(Apply, s0, DropAcls(done), DropAcl(page[i]));
          store.Write(DropAcl(page[i]));
        }
      }
    }

    /** Reads the next page, deletes its rows but the owners, and finds where the page after it starts. */
    method DeleteNextPage(
        start: Option<Uri>, heldBack: seq<Uri>, ghost s0: State, ghost j0: seq<Put>, ghost list: seq<Uri>, ghost n: nat)
      returns (held: seq<Uri>, next: Option<Uri>, ghost n': nat)
      requires Sound(store.q) && Listing(list, s0.acls.Keys) && n <= |list|
      requires Reading(store.q, s0.acls, list, n, store.acls)
      requires start == if n == 0 then None else Some(list[n - 1])
      requires heldBack == Select(s0.acls, list[..n], true)
      requires store.Wrote(s0, j0, DropAcls(Select(s0.acls, list[..n], false)))
      modifies store
      ensures n <= n' <= |list| && Reading(store.q, s0.acls, list, n', store.acls)
      ensures held == Select(s0.acls, list[..n'], true)
      ensures store.Wrote(s0, j0, DropAcls(Select(s0.acls, list[..n'], false)))
      ensures next.Some? ==> n' > n && next == Some(list[n' - 1])
      ensures store.q.page > 0
      ensures StillRead(list, Owners(s0.acls), store.q.page, n)
        == n' - n + if next.Some? then StillRead(list, Owners(s0.acls), store.q.page, n') else 0
    {
      hide Select, DropAcls, Journal.Replay, Reading, Visited, StillRead, After, Sound, Listing, Owners;
      PageIsPositive(store.q);
      RestIs(store.q, s0.acls, list, n, store.acls, start, Owners(s0.acls));
      var page, hasMore := store.QueryAcls(start, store.q.page);
      PageRead(list, Owners(s0.acls), store.q.page, n, page, hasMore);
      held := DeletePage(page, heldBack, s0, j0, list, n);
      n' := n + |page|;
      next := if hasMore then Some(page[|page| - 1]) else None;
    }

    /**
      Deletes the rows of the access control list but the owners, page by page, and holds the
      owners back.
     */
    method DeleteOthers() returns (heldBack: seq<Uri>)
      requires Sound(store.q)
      modifies store
      ensures
        var acls := old(store.acls);
        var list := store.q.acls(acls);
        var read := list[..Visited(list, Owners(acls), store.q.page)];
        && heldBack == Select(acls, read, true)
        && store.Wrote(old(store.Stored()), old(store.journal), DropAcls(Select(acls, read, false)))
    {
      hide Select, DropAcls, Journal.Replay, Reading, Visited, StillRead, After, Sound, Listing, Owners;
      PageIsPositive(store.q);
      ghost var s0, j0, p := store.Stored(), store.journal, store.q.page;
      ghost var list, kept := store.q.acls(s0.acls), Owners(s0.acls);
      ghost var n: nat := 0;
      ReadingStarts(store.q, s0);
      AllToRead(list, kept, p);
      var start;
      heldBack, start, n := DeleteNextPage(None, [], s0, j0, list, 0);
      while start.Some?
        invariant n <= |list| && Reading(store.q, s0.acls, list, n, store.acls)
        invariant heldBack == Select(s0.acls, list[..n], true)
        invariant store.Wrote(s0, j0, DropAcls(Select(s0.acls, list[..n], false)))
        invariant start.Some? ==> n > 0 && start == Some(list[n - 1])
        invariant Visited(list, kept, p) == n + if start.Some? then StillRead(list, kept, p, n) else 0
        decreases start.Some?, |list| - n
      {
        heldBack, start, n := DeleteNextPage(start, heldBack, s0, j0, list, n);
      }
    }

    /** Opens a relation and drops it. */
    method OpenDrop(name: string, how: How) returns (ok: bool)
      modifies store
      ensures store.Tried(
        old(store.Stored()), old(store.journal), [AddRelation(name, how), DropRelation(name)], ok)
    {
      hide Accepted, Apply;
      ghost var s0, j0 := store.Stored(), store.journal;
      Composed(s0, j0, [AddRelation(name, how)], [DropRelation(name)]);
      Journal.One(Apply, s0, AddRelation(name, how), 1);
      ok := store.Open(name, how);
      if ok {
        PlainTried(store.Stored(), [DropRelation(name)]);
        Journal.One(Apply, store.Stored(), DropRelation(name), 1);
        store.Write(DropRelation(name));
      }
    }

    /** Drops the data relation, its log and the manifests of the attachments, until one is refused. */
    method DropRelations(t: ETag) returns (ok: bool)
      requires t in store.defs
      modifies store
      ensures store.Tried(
        old(store.Stored()), old(store.journal), OpenDropsOf(store.q, old(store.Stored()), t), ok)
    {
      ghost var s0, j0 := store.Stored(), store.journal;
      var name, rows := store.defs[t], RowsOf(store.cols, t);
      ghost var list := Openings(store.q, s0, t);
      hide Apply, Accepted, Finishes, Written, OpenDropsOf, HowTo, RowsOf, LogName, ManifestName, Journal.Replay;
      OpenDropsThree(store.q, s0, t);
      ghost var a := [list[0], DropRelation(name)];
      ghost var b := [list[1], DropRelation(LogName(name))];
      ghost var c := [list[2], DropRelation(ManifestName(s0.id))];
      Composed(s0, j0, a, b + c);
      ok := OpenDrop(name, HowTo(store.q, false, rows));
      if ok {
        ghost var s1, j1 := store.Stored(), store.journal;
        FinishedTried(s0, a);
        Composed(s1, j1, b, c);
        ok := OpenDrop(LogName(name), HowTo(store.q, true, rows));
        if ok {
          FinishedTried(s1, b);
          ok := OpenDrop(ManifestName(store.id), Fields(Some([MANIFEST_ETAG])));
        }
      }
    }

    /** Opens the three relations of a blob store and drops them. */
    method DropBlobRelationSet(base: string) returns (ok: bool)
      modifies store
      ensures store.Tried(old(store.Stored()), old(store.journal), BlobPuts(base), ok)
    {
      var name := Lower(Static(base));
      ghost var s0, j0 := store.Stored(), store.journal;
      BlobPutsFinishIff(s0, base);
      ok := CheckBase(base);
      if ok {
        hide Apply, Written, Finishes, Lower, Static, BaseOk, Journal.Replay;
        ghost var ps := BlobPuts(base);
        FinishedTried(s0, ps);
        SixPuts(s0, j0, ps);
        hide BlobPuts;
        store.Write(AddRelation(name + CTNT_SUFFIX, Blobs(base)));
        store.Write(AddRelation(name + VREF_SUFFIX, Blobs(base)));
        store.Write(AddRelation(name + BLOB_SUFFIX, Blobs(base)));
        store.Write(DropRelation(name + BLOB_SUFFIX));
        store.Write(DropRelation(name + VREF_SUFFIX));
        store.Write(DropRelation(name + CTNT_SUFFIX));
      }
    }

    /** Deletes the files of the table, each with its contents first. */
    method DropTableFiles()
      modifies store
      ensures store.Wrote(
        old(store.Stored()), old(store.journal), DropFiles(store.q.files(old(store.files))))
    {
      hide Journal.Replay, DropFiles, Apply;
      ghost var s0, j0 := store.Stored(), store.journal;
      var entries := store.q.files(store.files);
      NoFiles(s0);
      for i := 0 to |entries|
        invariant store.Wrote(s0, j0, DropFiles(entries[..i]))
      {
        assert entries[..i + 1] == entries[..i] + [entries[i]];
        DropFilesMore(s0, entries[..i], entries[i]);
        store.Write(DropContents(entries[i]));
        store.Write(DropFile(entries[i]));
      }
      assert entries[..|entries|] == entries;
    }

    /** Deletes the given columns. */
    method DropColumns(colDefs: seq<Uri>)
      modifies store
      ensures store.Wrote(old(store.Stored()), old(store.journal), DropCols(colDefs))
    {
      hide Journal.Replay, DropCols, Apply;
      ghost var s0, j0 := store.Stored(), store.journal;
      NoColumns(s0);
      for i := 0 to |colDefs|
        invariant store.Wrote(s0, j0, DropCols(colDefs[..i]))
      {
        assert colDefs[..i + 1] == colDefs[..i] + [colDefs[i]];
        DropColsMore(colDefs[..i], colDefs[i]);
        Journal.ReplayAppend(Apply, s0, DropCols(colDefs[..i]), DropCol(colDefs[i]));
        store.Write(DropCol(colDefs[i]));
      }
      assert colDefs[..|colDefs|] == colDefs;
    }

    /** Deletes the tag of the manifest, if there is one, the files and the columns. */
    method DropPlain(colDefs: seq<Uri>, ghost t: ETag)
      requires colDefs == store.q.cols(ColsWith(store.Stored(), t))
      modifies store
      ensures store.Wrote(old(store.Stored()), old(store.journal), PlainPuts(store.q, old(store.Stored()), t))
    {
      hide Journal.Replay, DropCols, DropFiles;
      ghost var s0, j0 := store.Stored(), store.journal;
      ghost var first: seq<Put> := if s0.tag then [DropTag] else [];
      Journal.Nothing(Apply, s0, [], 0);
      Journal.One(Apply, s0, DropTag, 1);
      if store.tag { store.Write(DropTag); }
      ghost var s1 := store.Stored();
      var n := store.files;
      DropTableFiles();
      Journal.ReplayConcat(Apply, s1, DropFiles(store.q.files(n)), DropCols(colDefs));
      DropColumns(colDefs);
      Journal.ReplayConcat(Apply, s0, first, DropFiles(store.q.files(n)) + DropCols(colDefs));
    }

    /** Takes the stale schema apart, up to a relation that is refused. */
    method DropStale(m: Entry) returns (ok: bool)
      modifies store
      ensures store.Tried(old(store.Stored()), old(store.journal), StalePuts(store.q, old(store.Stored()), m), ok)
    {
      ghost var s0, j0 := store.Stored(), store.journal;
      Journal.Nothing(Apply, s0, [], 0);
      ok := true;
      if m.stale.Some? {
        var colDefs := store.QueryCols(m.stale.value);
        if m.stale.value in store.defs {
          ok := DropSchema(m.stale.value, colDefs);
        }
      }
    }

    /** Takes a schema apart; its definition goes last. */
    method DropSchema(t: ETag, colDefs: seq<Uri>) returns (ok: bool)
      requires t in store.defs && colDefs == store.q.cols(ColsWith(store.Stored(), t))
      modifies store
      ensures store.Tried(
        old(store.Stored()), old(store.journal), WorkPuts(store.q, old(store.Stored()), t) + [DropDef(t)], ok)
    {
      ghost var s0, j0 := store.Stored(), store.journal;
      ghost var base := AttachmentsBase(store.id);
      ghost var a, b := OpenDropsOf(store.q, s0, t), BlobPuts(base);
      ghost var c := PlainPuts(store.q, s0, t) + [DropDef(t)];
      WorkSplit(store.q, s0, t);
      hide Finishes, Written, OpenDropsOf, BlobPuts, PlainPuts, AttachmentsBase, Journal.Replay, WorkPuts, Apply;
      Composed(s0, j0, a, b + c);
      ok := DropRelations(t);
      if ok {
        ghost var s1, j1 := store.Stored(), store.journal;
        FinishedTried(s0, a);
        OnlyRelations(store.q, s0, t, s1);
        Composed(s1, j1, b, c);
        ok := DropBlobRelationSet(AttachmentsBase(store.id));
        if ok {
          ghost var s2, j2 := store.Stored(), store.journal;
          FinishedTried(s1, b);
          BlobPutsOnly(s1, base);
          SamePlain(store.q, s0, s2, t);
          DropPlain(colDefs, t);
          PlainDone(store.q, s0, s2, t);
          Journal.ReplayAppend(Apply, s2, PlainPuts(store.q, s0, t), DropDef(t));
          store.Write(DropDef(t));
          AppendAssociates(j2, PlainPuts(store.q, s0, t), [DropDef(t)]);
        }
      }
    }

    /** Forgets a change of data that is pending, unless a relation is refused. */
    method ForgetPending(m: Entry) returns (ok: bool)
      requires m.pendingData.Some? ==> m.live.Some? && m.live.value in store.defs
      modifies store
      ensures store.Tried(old(store.Stored()), old(store.journal), PendingPuts(store.q, old(store.Stored()), m), ok)
    {
      ghost var s0, j0 := store.Stored(), store.journal;
      Journal.Nothing(Apply, s0, [], 0);
      ok := true;
      if m.pendingData.Some? {
        var t := m.live.value;
        var name, rows := store.defs[t], RowsOf(store.cols, t);
        hide Apply, Accepted, HowTo, RowsOf, LogName;
        ok := OpenTwo(name, HowTo(store.q, false, rows), HowTo(store.q, true, rows), m.(pendingData := None));
      }
    }

    /** Opens the two relations of the data and then writes the entry, unless one is refused. */
    method OpenTwo(name: string, data: How, log: How, m: Entry) returns (ok: bool)
      modifies store
      ensures store.Tried(
        old(store.Stored()), old(store.journal),
        [AddRelation(name, data), AddRelation(LogName(name), log), PutEntry(m)], ok)
      ensures ok ==> store.entry == Some(m)
    {
      ghost var s0, j0 := store.Stored(), store.journal;
      ghost var a, b := [AddRelation(name, data)], [AddRelation(LogName(name), log)];
      hide Apply, Accepted, Finishes, Written, LogName;
      assert [AddRelation(name, data), AddRelation(LogName(name), log), PutEntry(m)] == a + (b + [PutEntry(m)]);
      Composed(s0, j0, a, b + [PutEntry(m)]);
      ok := store.Open(name, data);
      if ok {
        ghost var s1, j1 := store.Stored(), store.journal;
        FinishedTried(s0, a);
        Composed(s1, j1, b, [PutEntry(m)]);
        ok := store.Open(LogName(name), log);
        if ok {
          FinishedTried(s1, b);
          PlainTried(store.Stored(), [PutEntry(m)]);
          Journal.One(Apply, store.Stored(), PutEntry(m), 1);
          EntryPut(store.Stored(), m);
          store.Write(PutEntry(m));
        }
      }
    }

    /** Deletes the access control list, with the table entry before the owners. */
    method DeleteAcls()
      requires Sound(store.q)
      modifies store
      ensures store.Wrote(old(store.Stored()), old(store.journal), AclPuts(store.q, old(store.Stored())))
    {
      hide Select, Journal.Replay, Visited, Owners, DropAcls;
      ghost var s0, j0 := store.Stored(), store.journal;
      var heldBack := DeleteOthers();
      ghost var list := store.q.acls(s0.acls);
      ghost var others := DropAcls(Select(s0.acls, list[..Visited(list, Owners(s0.acls), store.q.page)], false));
      Journal.ReplayAppend(Apply, s0, others, DropEntry);
      store.Write(DropEntry);
      DropAclsNone(others + [DropEntry]);
      for i := 0 to |heldBack|
        invariant store.Wrote(s0, j0, others + [DropEntry] + DropAcls(heldBack[..i]))
      {
        assert heldBack[..i + 1] == heldBack[..i] + [heldBack[i]];
        DropAclsMore(heldBack[..i], heldBack[i]);
        WriteMore(s0, j0, others + [DropEntry], DropAcls(heldBack[..i]), DropAcl(heldBack[i]));
        store.Write(DropAcl(heldBack[i]));
      }
      assert heldBack[..|heldBack|] == heldBack;
    }

    /** Cleans up what is stale and forgets a pending change of data, up to a relation that is refused. */
    method CleanUp(tableEntry: Entry) returns (ok: bool)
      requires Sound(store.q) && Inv(store.Stored()) && store.entry == Some(tableEntry)
      modifies store
      ensures store.Tried(
        old(store.Stored()), old(store.journal), RoundPuts(store.q, old(store.Stored()), tableEntry), ok)
    {
      hide Inv, StalePuts, PendingPuts, Journal.Replay, Sound, Written, Finishes, TakenApart;
      ghost var s0, j0 := store.Stored(), store.journal;
      ghost var a := StalePuts(store.q, s0, tableEntry);
      ghost var b := PendingPuts(store.q, Replay(s0, a), tableEntry.(stale := None));
      StaleDone(store.q, s0, tableEntry);
      Composed(s0, j0, a, b);
      ok := DropStale(tableEntry);
      if ok {
        FinishedTried(s0, a);
        ok := ForgetPending(tableEntry.(stale := None));
      }
    }

    /**
      Deletes the stale and the pending schema and, if `deleteCurrent`, also the one in use, the
      access control list and the table entry, up to a relation that is refused.
     */
    method DeleteVersionedTable(tableEntry: Entry, deleteCurrent: bool) returns (ok: bool)
      requires Sound(store.q) && Inv(store.Stored()) && store.entry == Some(tableEntry)
      modifies store
      ensures store.q.page > 0
      ensures store.Tried(old(store.Stored()), old(store.journal),
        DeletePuts(store.q, old(store.Stored()), tableEntry, deleteCurrent), ok)
      decreases Open(tableEntry), 0
    {
      hide Inv, Fits, RoundPuts, AclPuts, Journal.Replay, DeletePuts, OnlyAdded, AfterStale, Sound, Written, Finishes;
      ghost var s0, j0 := store.Stored(), store.journal;
      ghost var round := RoundPuts(store.q, s0, tableEntry);
      PageIsPositive(store.q);
      DeleteSplit(store.q, s0, tableEntry, deleteCurrent);
      RoundDone(store.q, s0, tableEntry);
      Composed(s0, j0, round, RestPuts(store.q, Replay(s0, round), tableEntry, deleteCurrent));
      ok := CleanUp(tableEntry);
      if ok {
        FinishedTried(s0, round);
        var m := tableEntry.(stale := None, pendingData := None);
        NextFits(store.Stored(), m, deleteCurrent);
        m := m.(stale := m.pending, pending := None);
        if m.stale.Some? {
          ok := DeleteNext(m, deleteCurrent);
        } else if deleteCurrent {
          m := m.(stale := m.live, live := None);
          if m.stale.Some? {
            ok := DeleteNext(m, deleteCurrent);
          } else {
            AclsPlain(store.q, store.Stored());
            FinishedTried(store.Stored(), AclPuts(store.q, store.Stored()));
            DeleteAcls();
          }
        } else {
          PlainTried(store.Stored(), []);
          Journal.Nothing(Apply, store.Stored(), [], 0);
        }
      }
    }

    /** Marks the next schema as stale and deletes it. */
    method DeleteNext(m: Entry, deleteCurrent: bool) returns (ok: bool)
      requires Sound(store.q) && Inv(store.Stored()) && store.entry.Some? && Fits(store.Stored(), m)
      modifies store
      ensures store.q.page > 0
      ensures store.Tried(old(store.Stored()), old(store.journal), [PutEntry(m)]
        + DeletePuts(store.q, Apply(old(store.Stored()), PutEntry(m)), m, deleteCurrent), ok)
      decreases Open(m), 1
    {
      hide Inv, Fits, Journal.Replay, DeletePuts, Sound, Written, Finishes;
      ghost var s0, j0 := store.Stored(), store.journal;
      PageIsPositive(store.q);
      FitsEntry(store.Stored(), m);
      ghost var rest := DeletePuts(store.q, Apply(store.Stored(), PutEntry(m)), m, deleteCurrent);
      Composed(s0, j0, [PutEntry(m)], rest);
      PlainTried(s0, [PutEntry(m)]);
      Journal.One(Apply, s0, PutEntry(m), 1);
      store.Write(PutEntry(m));
      ok := DeleteVersionedTable(m, deleteCurrent);
    }

    /**
      Deletes the table, if there is one.  It gets through just when every relation that goes with
      the table can be opened; if not, the table is stuck.
     */
    method DeleteTable() returns (outcome: Outcome)
      requires Sound(store.q) && Inv(store.Stored())
      modifies store
      ensures store.q.page > 0
      ensures match outcome
        case NotFound => old(store.entry).None? && store.Stored() == old(store.Stored())
        case Gone => Clearable(store.q, old(store.Stored())) && store.Stored() == Emptied(store.q, old(store.Stored()))
        case Stuck => !Clearable(store.q, old(store.Stored())) && !Clearable(store.q, store.Stored())
      ensures old(store.entry).Some? ==> outcome != NotFound && store.Tried(
        old(store.Stored()), old(store.journal),
        DeletePuts(store.q, old(store.Stored()), old(store.entry).value, true), outcome.Gone?)
    {
      hide Inv, DeletePuts, Journal.Replay, Emptied, Sound, Written, Finishes, Clearable;
      PageIsPositive(store.q);
      if store.entry.None? { return NotFound; }
      ghost var s0, m := store.Stored(), store.entry.value;
      ghost var ps := DeletePuts(store.q, s0, m, true);
      DeletionDone(store.q, s0, m);
      DeletionFinishesIff(store.q, s0, m);
      WrittenReplay(s0, ps);
      Journal.CrashAll(Apply, s0, Written(s0, ps), |Written(s0, ps)|);
      if !Clearable(store.q, s0) { DeletionStuck(store.q, s0, true, |Written(s0, ps)|); }
      var ok := DeleteVersionedTable(store.entry.value, true);
      return if ok then Gone else Stuck;
    }

    /** The stored columns are those of the request. */
    method MatchesSchema(cols: seq<Column>, columns: seq<Column>) returns (same: bool)
      ensures same <==> Matches(cols, columns)
    {
      if |cols| != |columns| { return false; }
      for i := 0 to |cols|
        invariant forall k :: 0 <= k < i ==> Accepts(cols[k], columns)
      {
        var found := false;
        for j := 0 to |columns|
          invariant found <==> exists k :: 0 <= k < j && columns[k].key == cols[i].key
          invariant forall k :: 0 <= k < j && columns[k].key == cols[i].key ==> columns[k] == cols[i]
        {
          if columns[j].key == cols[i].key {
            found := true;
            if columns[j] != cols[i] {
              assert !Accepts(cols[i], columns);
              return false;
            }
          }
        }
        if !found {
          assert !Accepts(cols[i], columns);
          return false;
        }
      }
      return true;
    }

    /** Deletes every row of one page. */
    method ClearPage(page: seq<Uri>, ghost s0: State, ghost j0: seq<Put>, ghost list: seq<Uri>, ghost n: nat)
      requires n + |page| <= |list| && page == list[n..n + |page|]
      requires store.Wrote(s0, j0, DropAcls(list[..n]))
      modifies store
      ensures store.Wrote(s0, j0, DropAcls(list[..n + |page|]))
    {
      hide Journal.Replay, DropAcls;
      for i := 0 to |page|
        invariant store.Wrote(s0, j0, DropAcls(list[..n + i]))
      {
        ghost var k := n + i;
        assert list[..k + 1] == list[..k] + [list[k]] && page[i] == list[k];
        DropAclsMore(list[..k], list[k]);
        Journal.ReplayAppend(Apply, s0, DropAcls(list[..k]), DropAcl(list[k]));
        store.Write(DropAcl(page[i]));
      }
    }

    /** Deletes the access control list page by page; a next page would start after a deleted row. */
    method ClearAcls()
      requires Sound(store.q)
      modifies store
      ensures store.Wrote(old(store.Stored()), old(store.journal), DropAcls(FirstPage(store.q, old(store.acls))))
    {
      hide Journal.Replay, DropAcls, Visited, After, Sound, Listing, Reading, Select;
      PageIsPositive(store.q);
      ghost var s0, j0 := store.Stored(), store.journal;
      ghost var list := store.q.acls(s0.acls);
      ghost var n: nat := 0;
      ReadingStarts(store.q, s0);
      var start: Option<Uri> := None;
      var more := true;
      while more
        invariant n <= |list| && store.Wrote(s0, j0, DropAcls(list[..n]))
        invariant more && n == 0 ==> start.None?
        invariant more && n > 0 ==> start == Some(list[n - 1])
        invariant (more && n == 0) || n == Visited(list, {}, store.q.page)
        decreases more, if n == 0 then 1 else 0
      {
        RestCleared(store.q, s0, n, store.acls, start);
        var page, hasMore := store.QueryAcls(start, store.q.page);
        FirstRead(list, store.q.page, n, page, hasMore);
        ClearPage(page, s0, j0, list, n);
        more := hasMore;
        n := n + |page|;
        if hasMore { start := Some(page[|page| - 1]); }
      }
    }

    /** The stored columns of a schema. */
    method ColumnDefinitions(t: ETag) returns (columns: seq<Column>)
      requires Sound(store.q)
      ensures columns == ColumnsOf(store.q, store.Stored(), t)
    {
      var list := store.QueryCols(t);
      assert ListsCols(store.q, ColsWith(store.Stored(), t));
      columns := [];
      for i := 0 to |list|
        invariant columns == ColumnsAt(store.cols, list[..i])
      {
        assert list[..i + 1][..i] == list[..i] && list[i] in list;
        columns := columns + [store.cols[list[i]].column];
      }
      assert list[..|list|] == list;
    }

    /** Writes the definition and the columns. */
    method WriteDefinition(r: Request)
      modifies store
      ensures store.Wrote(old(store.Stored()), old(store.journal), DefPuts(store.id, r))
    {
      hide Journal.Replay, PutCols, ConvertIdentifier, Apply;
      ghost var s0, j0 := store.Stored(), store.journal;
      // the look-up for a name that is taken never finds one
      var tableName := ConvertIdentifier(store.id);
      ghost var def := [PutDef(r.schema, tableName)];
      Journal.One(Apply, s0, PutDef(r.schema, tableName), 1);
      store.Write(PutDef(r.schema, tableName));
      NoCols(def, r.schema, r.first);
      for i := 0 to |r.columns|
        invariant store.Wrote(s0, j0, def + PutCols(r.columns[..i], r.schema, r.first))
      {
        var row := ColumnRow(r.schema, r.columns[i]);
        PutColsMore(r.columns, r.schema, r.first, i);
        WriteMore(s0, j0, def, PutCols(r.columns[..i], r.schema, r.first), PutCol(r.first + i, row));
        store.Write(PutCol(r.first + i, row));
      }
      assert r.columns[..|r.columns|] == r.columns;
    }

    /** Opens the two relations of the data, and writes the entry with the schema in use. */
    method WriteLive(r: Request) returns (ok: bool)
      modifies store
      ensures store.Tried(old(store.Stored()), old(store.journal), LastPuts(store.q, store.id, r), ok)
      ensures ok ==> store.entry == Some(Live(r))
    {
      var rows := Requested(r);
      hide HowTo, ConvertIdentifier, LogName, Requested, Written, Finishes;
      ok := OpenTwo(
        ConvertIdentifier(store.id), HowTo(store.q, false, rows), HowTo(store.q, true, rows), Live(r));
    }

    /** Writes the owner and the entry with the pending schema. */
    method WriteOwner(r: Request)
      requires Sound(store.q)
      modifies store
      ensures store.q.page > 0
      ensures store.Wrote(old(store.Stored()), old(store.journal), OpenPuts(store.q, old(store.Stored()), r))
    {
      hide Journal.Replay, FirstPage, Sound, DropAcls;
      PageIsPositive(store.q);
      ghost var s1 := store.Stored();
      ghost var page, two := DropAcls(FirstPage(store.q, s1.acls)), [PutAcl(r.owner, Owner), PutEntry(Started(r))];
      Journal.ReplayConcat(Apply, s1, page, two);
      ClearAcls();
      CrashPair(store.Stored(), PutAcl(r.owner, Owner), PutEntry(Started(r)), 2);
      store.Write(PutAcl(r.owner, Owner));
      store.Write(PutEntry(Started(r)));
    }

    /** Writes the owner, the entry with the pending schema, and the schema, up to a relation that is refused. */
    method Build(r: Request) returns (ok: bool)
      requires Sound(store.q) && Inv(store.Stored()) && store.entry.None?
      modifies store
      ensures store.q.page > 0
      ensures store.Tried(old(store.Stored()), old(store.journal), BuildPuts(store.q, old(store.Stored()), r), ok)
      ensures ok ==> store.entry == Some(Live(r))
    {
      ghost var s0, j0 := store.Stored(), store.journal;
      BuildWritten(store.q, s0, r);
      hide Journal.Replay, Inv, OpenPuts, DefPuts, LastPuts, Sound, Written, Finishes, Prepared, Buildable, BuildPuts;
      ghost var open, def, last := OpenPuts(store.q, s0, r), DefPuts(s0.id, r), LastPuts(store.q, s0.id, r);
      PrepareFinishes(store.q, s0, r);
      Composed(s0, j0, open, def);
      Composed(s0, j0, open + def, last);
      WriteOwner(r);
      FinishedTried(s0, open);
      FinishedTried(store.Stored(), def);
      FinishedTried(s0, open + def);
      WriteDefinition(r);
      ok := WriteLive(r);
    }

    /** Creates the table unless its schema is in use already; then the schemas are compared. */
    method CreateTable(r: Request) returns (answer: Answer)
      requires Sound(store.q) && Inv(store.Stored())
      modifies store
      ensures store.q.page > 0
      ensures
        var s, ps := old(store.Stored()), CreatePuts(store.q, old(store.Stored()), r);
        && store.Tried(s, old(store.journal), ps, Finishes(s, ps))
        && answer == AnswerTo(store.q, s, r)
        && AnswerFits(store.q, s, r, answer)
      ensures answer.New? ==> store.entry == Some(answer.entry)
      ensures IsLive(old(store.Stored())) ==> store.Stored() == old(store.Stored())
    {
      hide Inv, Journal.Replay, DeletePuts, Matches, BuildPuts, Sound, ColumnsOf, Written, Finishes, Clearable, RowsOf;
      hide AnswerFits;
      PageIsPositive(store.q);
      AnswerToFits(store.q, store.Stored(), r);
      ghost var s0, j0 := store.Stored(), store.journal;
      Journal.Nothing(Apply, s0, [], 0);
      PlainTried(s0, []);
      if store.entry.Some? && store.entry.value.live.Some? {
        // the table is there; see if its schema matches
        NoWrites(store.q, s0, r);
        var live := store.entry.value.live.value;
        if live !in store.defs { return AlreadyExists; }
        if !store.q.marks(RowsOf(store.cols, live)) { return Refused; }
        var cols := ColumnDefinitions(live);
        var same := MatchesSchema(cols, r.columns);
        return if same then Existing(store.entry.value) else AlreadyExists;
      }
      answer := CreateNew(r);
    }

    /** Creates a table whose schema is not in use. */
    method CreateNew(r: Request) returns (answer: Answer)
      requires Sound(store.q) && Inv(store.Stored()) && !IsLive(store.Stored())
      modifies store
      ensures store.q.page > 0
      ensures
        var s, ps := old(store.Stored()), CreatePuts(store.q, old(store.Stored()), r);
        && store.Tried(s, old(store.journal), ps, Finishes(s, ps))
        && answer == AnswerTo(store.q, s, r)
      ensures answer.New? ==> store.entry == Some(answer.entry)
    {
      ghost var s0, j0 := store.Stored(), store.journal;
      ClearStops(store.q, s0, 0);
      hide Inv, Journal.Replay, DeletePuts, BuildPuts, Sound, Written, Finishes, Clearable, Cleared, Journal.Crash;
      ghost var clear, build := ClearPuts(store.q, s0), BuildPuts(store.q, Cleared(store.q, s0), r);
      Composed(s0, j0, clear, build);
      if store.entry.Some? {
        // an earlier creation or deletion did not finish; remove everything
        var ok := DeleteVersionedTable(store.entry.value, true);
        if !ok { return Refused; }
      } else {
        Journal.Nothing(Apply, s0, [], 0);
      }
      FinishedTried(s0, clear);
      if r.offices == Some([]) { return NoOffices; }
      var ok := Build(r);
      if !ok { return Refused; }
      return New(Live(r));
    }
  }

  /** What a deletion answers. */
  datatype Outcome = NotFound | Gone | Stuck

  lemma SixPuts(s: State, j: seq<Put>, ps: seq<Put>)
    requires |ps| == 6
    ensures Replay(s, ps) ==
      Apply(Apply(Apply(Apply(Apply(Apply(s, ps[0]), ps[1]), ps[2]), ps[3]), ps[4]), ps[5])
    ensures j + ps == (((((j + [ps[0]]) + [ps[1]]) + [ps[2]]) + [ps[3]]) + [ps[4]]) + [ps[5]]
  {
    hide Apply;
    assert ps == ps[..3] + ps[3..] && ps[..3] == [ps[0], ps[1], ps[2]] && ps[3..] == [ps[3], ps[4], ps[5]];
    Journal.ReplayConcat(Apply, s, ps[..3], ps[3..]);
    CrashThree(s, ps[0], ps[1], ps[2], 3);
    CrashThree(Replay(s, ps[..3]), ps[3], ps[4], ps[5], 3);
  }

  lemma NamespaceOk()
    ensures ValidName(NAMESPACE)
  {
  }

  lemma OneTried(s: State, p: Put)
    ensures Written(s, [p]) == (if Accepted(s, p) then [p] else []) && (Finishes(s, [p]) <==> Accepted(s, p))
    ensures Replay(s, [p]) == Apply(s, p) && Replay(s, []) == s
  {
    assert [p][1..] == [];
    Journal.One(Apply, s, p, 1);
    Journal.Nothing(Apply, s, [], 0);
    hide Accepted, Apply;
  }

  /** What `a` and then `b` write, when `a` gets through and when it does not. */
  lemma Composed(s: State, j: seq<Put>, a: seq<Put>, b: seq<Put>)
    ensures !Finishes(s, a) ==> Written(s, a + b) == Written(s, a) && !Finishes(s, a + b)
    ensures Finishes(s, a) ==>
      var s1 := Replay(s, a);
      var w := Written(s1, b);
      && Written(s, a) == a && Written(s, a + b) == a + w && (Finishes(s, a + b) <==> Finishes(s1, b))
      && Replay(s, a + w) == Replay(s1, w) && j + (a + w) == (j + a) + w
  {
    WrittenConcat(s, a, b);
    WrittenIsPrefix(s, a);
    var s1 := Replay(s, a);
    Journal.ReplayConcat(Apply, s, a, Written(s1, b));
  }

  lemma FinishedTried(s: State, ps: seq<Put>)
    ensures Finishes(s, ps) ==> Written(s, ps) == ps
  {
    WrittenIsPrefix(s, ps);
  }

  lemma PlainTried(s: State, ps: seq<Put>)
    requires forall p :: p in ps ==> !p.AddRelation?
    ensures Finishes(s, ps) && Written(s, ps) == ps
  {
    PlainFinishes(s, ps);
    WrittenIsPrefix(s, ps);
  }

  lemma AppendAssociates(a: seq<Put>, b: seq<Put>, c: seq<Put>)
    ensures (a + b) + c == a + (b + c)
  {
  }

  ghost function OpenDropsOf(q: Queries, s: State, t: ETag): seq<Put>
    requires t in s.defs
  {
    OpenDrops(Openings(q, s, t))
  }

  lemma OpenDropsThree(q: Queries, s: State, t: ETag)
    requires t in s.defs
    ensures
      var list := Openings(q, s, t);
      && |list| == 3 && list[0] == AddRelation(s.defs[t], HowTo(q, false, RowsOf(s.cols, t)))
      && list[1] == AddRelation(LogName(s.defs[t]), HowTo(q, true, RowsOf(s.cols, t)))
      && list[2] == AddRelation(ManifestName(s.id), Fields(Some([MANIFEST_ETAG])))
      && OpenDropsOf(q, s, t) ==
           [list[0], DropRelation(s.defs[t])] + ([list[1], DropRelation(LogName(s.defs[t]))]
             + [list[2], DropRelation(ManifestName(s.id))])
  {
    hide HowTo, RowsOf, LogName, ManifestName;
    var list := Openings(q, s, t);
    assert list[0] in list && list[1] in list && list[2] in list;
    assert list[1..] == [list[1], list[2]] && list[1..][1..] == [list[2]] && list[1..][1..][1..] == [];
    assert OpenDrops([list[2]]) == [list[2], DropRelation(list[2].name)];
    assert OpenDrops([list[1], list[2]]) == [list[1], DropRelation(list[1].name)] + OpenDrops([list[2]]);
  }

  lemma WorkSplit(q: Queries, s: State, t: ETag)
    requires t in s.defs
    ensures WorkPuts(q, s, t) + [DropDef(t)]
      == OpenDropsOf(q, s, t) + (BlobPuts(AttachmentsBase(s.id)) + (PlainPuts(q, s, t) + [DropDef(t)]))
  {
    hide OpenDrops, BlobPuts, PlainPuts, AttachmentsBase;
  }

  /** Opening and dropping relations changes nothing else. */
  lemma OnlyRelations(q: Queries, s: State, t: ETag, s1: State)
    requires t in s.defs && s1 == Replay(s, OpenDropsOf(q, s, t))
    ensures s1 == s.(relations := s1.relations)
  {
    var ps := OpenDropsOf(q, s, t);
    OpenDropsStop(s, Openings(q, s, t), |ps|);
    Journal.CrashAll(Apply, s, ps, |ps|);
  }

  lemma BlobPutsOnly(s: State, base: string)
    ensures Replay(s, BlobPuts(base)) == s.(relations := Replay(s, BlobPuts(base)).relations)
  {
    BlobPutsDone(s, base);
  }

  lemma SamePlain(q: Queries, s: State, s2: State, t: ETag)
    requires s2 == s.(relations := s2.relations)
    ensures PlainPuts(q, s2, t) == PlainPuts(q, s, t) && ColsWith(s2, t) == ColsWith(s, t)
  {
  }

  lemma PlainDone(q: Queries, s: State, s2: State, t: ETag)
    ensures
      var ps := PlainPuts(q, s, t) + [DropDef(t)];
      Finishes(s2, ps) && Written(s2, ps) == ps
  {
    forall p | p in PlainPuts(q, s, t) ensures !p.AddRelation? { PlainPutsAre(q, s, t, p); }
    PlainTried(s2, PlainPuts(q, s, t) + [DropDef(t)]);
  }

  lemma NoFiles(s: State)
    ensures DropFiles([]) == [] && Replay(s, []) == s
  {
  }

  lemma NoColumns(s: State)
    ensures DropCols([]) == [] && Replay(s, []) == s
  {
  }

  lemma {:induction false} FilesAppend(list: seq<Uri>, u: Uri)
    ensures DropFiles(list + [u]) == (DropFiles(list) + [DropContents(u)]) + [DropFile(u)]
  {
    if list == [] {
      assert (list + [u])[1..] == [];
    } else {
      assert (list + [u])[1..] == list[1..] + [u];
      FilesAppend(list[1..], u);
    }
  }

  lemma DropFilesMore(s: State, list: seq<Uri>, u: Uri)
    ensures DropFiles(list + [u]) == (DropFiles(list) + [DropContents(u)]) + [DropFile(u)]
    ensures Replay(s, DropFiles(list + [u]))
      == Apply(Apply(Replay(s, DropFiles(list)), DropContents(u)), DropFile(u))
  {
    FilesAppend(list, u);
    Journal.ReplayAppend(Apply, s, DropFiles(list) + [DropContents(u)], DropFile(u));
    Journal.ReplayAppend(Apply, s, DropFiles(list), DropContents(u));
  }

  /** What a creation answers. */
  ghost function AnswerTo(q: Queries, s: State, r: Request): Answer
    requires q.page > 0
  {
    if IsLive(s) then
      var t := s.entry.value.live.value;
      if t !in s.defs then AlreadyExists
      else if !q.marks(RowsOf(s.cols, t)) then Refused
      else if Matches(ColumnsOf(q, s, t), r.columns) then Existing(s.entry.value) else AlreadyExists
    else if !Finishes(s, CreatePuts(q, s, r)) then Refused
    else if r.offices == Some([]) then NoOffices
    else New(Live(r))
  }

  /** Each stored column is asked for, and none is asked for under the same key but different. */
  ghost predicate SameSchema(stored: seq<Column>, columns: seq<Column>) {
    && |stored| == |columns|
    && (forall c :: c in stored ==> c in columns)
    && (forall c, d :: c in stored && d in columns && c.key == d.key ==> c == d)
  }

  /**
    How a creation is answered.  For a table in use, the columns decide; if their keys differ,
    the request has to name the same columns.  Any other table is created, unless what was left
    of it cannot be deleted, its list of offices is empty, or a relation of its data is refused.
   */
  ghost predicate AnswerFits(q: Queries, s: State, r: Request, answer: Answer)
    requires q.page > 0
  {
    if IsLive(s) then
      var t := s.entry.value.live.value;
      var stored := ColumnsOf(q, s, t);
      && (answer == Refused <==> !q.marks(RowsOf(s.cols, t)))
      && (answer != Refused ==>
            answer == if SameSchema(stored, r.columns) then Existing(s.entry.value) else AlreadyExists)
      && (DistinctKeys(stored) ==> (SameSchema(stored, r.columns) <==> multiset(stored) == multiset(r.columns)))
    else
      && (answer == Refused <==>
            !Clearable(q, s) || (r.offices != Some([]) && !Buildable(q, Cleared(q, s), r)))
      && (answer != Refused ==> answer == if r.offices == Some([]) then NoOffices else New(Live(r)))
  }

  lemma MatchesIsSame(stored: seq<Column>, columns: seq<Column>)
    ensures Matches(stored, columns) <==> SameSchema(stored, columns)
  {
    if Matches(stored, columns) {
      forall c | c in stored
        ensures c in columns && forall d :: d in columns && c.key == d.key ==> c == d
      {
        var i :| 0 <= i < |stored| && stored[i] == c;
        assert Accepts(stored[i], columns);
      }
    }
    if SameSchema(stored, columns) {
      forall i | 0 <= i < |stored| ensures Accepts(stored[i], columns) {
        assert stored[i] in columns;
      }
    }
  }

  lemma AnswerToFits(q: Queries, s: State, r: Request)
    requires Sound(q) && Inv(s)
    ensures q.page > 0 && AnswerFits(q, s, r, AnswerTo(q, s, r))
  {
    hide Sound, Buildable, Clearable, Cleared, CreatePuts, Finishes, Matches, SameSchema, ColumnsOf, RowsOf, ClearPuts;
    PageIsPositive(q);
    if IsLive(s) {
      var stored := ColumnsOf(q, s, s.entry.value.live.value);
      MatchesIsSame(stored, r.columns);
      if DistinctKeys(stored) { MatchesIff(stored, r.columns); }
    } else if r.offices != Some([]) {
      CreationFinishesIff(q, s, r);
    } else {
      ClearStops(q, s, 0);
      assert CreatePuts(q, s, r) == ClearPuts(q, s) by { NoOfficesPuts(q, s, r); }
    }
  }

  lemma NoOfficesPuts(q: Queries, s: State, r: Request)
    requires q.page > 0 && !IsLive(s) && r.offices == Some([])
    ensures CreatePuts(q, s, r) == ClearPuts(q, s)
  {
  }

  /** The columns that a creation leaves, as they are found again. */
  lemma CreatedColumns(q: Queries, s: State, r: Request)
    requires Sound(q) && Inv(s) && !IsLive(s) && r.offices != Some([]) && Finishes(s, CreatePuts(q, s, r))
    ensures
      var u := Replay(s, CreatePuts(q, s, r));
      && Inv(u) && u.entry == Some(Live(r)) && q.marks(RowsOf(u.cols, r.schema))
      && multiset(ColumnsOf(q, u, r.schema)) == multiset(r.columns)
  {
    hide Inv, Journal.Replay, CreatePuts, Finishes, Cleared, Clearable, ConvertIdentifier, AclsFor, Built;
    var u := Replay(s, CreatePuts(q, s, r));
    CreationDone(q, s, r);
    CreationFinishesIff(q, s, r);
    BuiltIs(q, Cleared(q, s), r);
    CreationStops(q, s, r, |CreatePuts(q, s, r)|);
    Journal.CrashAll(Apply, s, CreatePuts(q, s, r), |CreatePuts(q, s, r)|);
    ColsFromSchema(r.columns, r.schema, r.first);
    assert ColsWith(u, r.schema) == u.cols.Keys;
    assert ListsCols(q, u.cols.Keys);
    ColumnsFound(r.columns, r.schema, r.first, q.cols(u.cols.Keys));
  }

  /** The entry that a creation leaves: the new schema is in use, and the offices are those asked for. */
  lemma CreatedEntry(q: Queries, s: State, r: Request)
    requires Sound(q) && Inv(s) && !IsLive(s) && r.offices != Some([]) && Finishes(s, CreatePuts(q, s, r))
    ensures
      var e := Replay(s, CreatePuts(q, s, r)).entry;
      && e.Some? && e.value.live == Some(r.schema)
      && e.value.pending == None && e.value.stale == None && e.value.pendingData == None
      && (r.offices.None? ==> e.value.offices == "")
      && (r.offices.Some? ==>
            && e.value.offices + "," == Terminated(r.offices.value)
            && (Split(e.value.offices) == r.offices.value <==> forall o :: o in r.offices.value ==> ',' !in o))
  {
    hide Inv, Journal.Replay, CreatePuts, Finishes;
    CreatedColumns(q, s, r);
    if r.offices.Some? {
      JoinedIsTerminated(r.offices.value);
      JoinedSplitsIff(r.offices.value);
    }
  }

  lemma {:induction false} ColsFromSchema(columns: seq<Column>, schema: ETag, first: Uri)
    ensures forall u :: u in ColsFrom(columns, schema, first) ==> ColsFrom(columns, schema, first)[u].schema == schema
    decreases |columns|
  {
    if columns != [] { ColsFromSchema(columns[1..], schema, first + 1); }
  }

  /**
    A table that has been created can be created again, and nothing is written: with the same
    columns, in any order, unless two of them have one key and differ.  If their keys differ, a
    request for any other columns fails.
   */
  lemma CreatedAgain(q: Queries, s: State, r: Request, again: Request)
    requires Sound(q) && Inv(s) && !IsLive(s) && r.offices != Some([]) && Finishes(s, CreatePuts(q, s, r))
    ensures q.page > 0
    ensures
      var u := Replay(s, CreatePuts(q, s, r));
      var answer := AnswerTo(q, u, again);
      && CreatePuts(q, u, again) == [] && (answer == Existing(Live(r)) || answer == AlreadyExists)
      && (multiset(again.columns) == multiset(r.columns) ==> (answer.Existing? <==> KeysAgree(r.columns)))
      && (DistinctKeys(r.columns) ==> (answer.Existing? <==> multiset(again.columns) == multiset(r.columns)))
  {
    hide Inv, Journal.Replay, Finishes, Sound, Matches, ColumnsOf, RowsOf, ClearPuts, BuildPuts;
    PageIsPositive(q);
    CreatedColumns(q, s, r);
    var stored := ColumnsOf(q, Replay(s, CreatePuts(q, s, r)), r.schema);
    LiveHasDefinition(Replay(s, CreatePuts(q, s, r)));
    if multiset(again.columns) == multiset(r.columns) {
      MatchesSelfIff(stored, again.columns);
      AgreePermuted(again.columns, r.columns);
    }
    if DistinctKeys(r.columns) {
      DistinctPermuted(stored, r.columns);
      MatchesIff(stored, again.columns);
    }
  }

  lemma LiveHasDefinition(s: State)
    requires Inv(s) && IsLive(s)
    ensures s.entry.value.live.value in s.defs
  {
  }

  lemma {:induction false} PutColsMore(columns: seq<Column>, schema: ETag, first: Uri, i: nat)
    requires i < |columns|
    ensures PutCols(columns[..i + 1], schema, first)
      == PutCols(columns[..i], schema, first) + [PutCol(first + i, ColumnRow(schema, columns[i]))]
    decreases i
  {
    if i == 0 {
      assert columns[..1][1..] == [];
    } else {
      assert columns[..i + 1][1..] == columns[1..][..i] && columns[..i][1..] == columns[1..][..i - 1];
      PutColsMore(columns[1..], schema, first + 1, i - 1);
    }
  }

  lemma RestCleared(q: Queries, s: State, n: nat, acls: map<Uri, Role>, start: Option<Uri>)
    requires Sound(q) && n <= |q.acls(s.acls)|
    requires acls == Replay(s, DropAcls(q.acls(s.acls)[..n])).acls
    requires start == if n == 0 then None else Some(q.acls(s.acls)[n - 1])
    ensures After(q.acls(acls), start) == if n == 0 then q.acls(s.acls) else []
  {
    var list := q.acls(s.acls);
    AclsDropped(s, list[..n]);
    assert ListsAcls(q, acls);
    if n > 0 {
      assert list[n - 1] in list[..n];
      AfterAbsent(q.acls(acls), list[n - 1]);
    } else {
      assert acls == s.acls;
    }
  }

  lemma FirstRead(list: seq<Uri>, limit: nat, n: nat, page: seq<Uri>, hasMore: bool)
    requires limit > 0 && n <= |list| && (n > 0 ==> n == Visited(list, {}, limit))
    requires
      var rest := if n == 0 then list else [];
      page == rest[..if |rest| <= limit then |rest| else limit] && hasMore == (|rest| > limit)
    ensures n + |page| <= |list| && page == list[n..n + |page|] && n + |page| == Visited(list, {}, limit)
    ensures hasMore ==> n == 0 && |page| > 0 && page[|page| - 1] == list[n + |page| - 1]
  {
  }

  lemma NoCols(ps: seq<Put>, schema: ETag, first: Uri)
    ensures ps + PutCols([], schema, first) == ps
  {
  }

  lemma DropAclsNone(ps: seq<Put>)
    ensures ps + DropAcls([]) == ps
  {
  }

  lemma WriteMore(s: State, j: seq<Put>, a: seq<Put>, b: seq<Put>, p: Put)
    ensures Replay(s, a + (b + [p])) == Apply(Replay(s, a + b), p)
    ensures j + (a + (b + [p])) == (j + (a + b)) + [p]
  {
    assert a + (b + [p]) == (a + b) + [p];
    Journal.ReplayAppend(Apply, s, a + b, p);
  }

  lemma ReadingStarts(q: Queries, s: State)
    requires Sound(q)
    ensures Listing(q.acls(s.acls), s.acls.Keys) && Reading(q, s.acls, q.acls(s.acls), 0, s.acls)
    ensures Select(s.acls, q.acls(s.acls)[..0], true) == [] && Select(s.acls, q.acls(s.acls)[..0], false) == []
    ensures Replay(s, DropAcls([])) == s && DropAcls([]) == []
  {
    assert ListsAcls(q, s.acls);
    assert [] + q.acls(s.acls)[0..] == q.acls(s.acls);
  }

  /** How many rows are still to be read once `n` have been. */
  function StillRead(list: seq<Uri>, kept: set<Uri>, page: nat, n: nat): nat
    requires page > 0 && n <= |list|
  {
    if n == 0 || list[n - 1] in kept then Visited(list[n..], kept, page) else 0
  }

  lemma AllToRead(list: seq<Uri>, kept: set<Uri>, page: nat)
    requires page > 0
    ensures StillRead(list, kept, page, 0) == Visited(list, kept, page)
  {
    assert list[0..] == list;
  }

  /** What the query from `start` on finds. */
  function Rest(list: seq<Uri>, kept: set<Uri>, n: nat): seq<Uri>
    requires n <= |list|
  {
    if n == 0 || list[n - 1] in kept then list[n..] else []
  }

  lemma RestIs(
      q: Queries, acls0: map<Uri, Role>, list: seq<Uri>, n: nat, acls: map<Uri, Role>, start: Option<Uri>,
      kept: set<Uri>)
    requires Listing(list, acls0.Keys) && Reading(q, acls0, list, n, acls) && kept == Owners(acls0)
    requires start == if n == 0 then None else Some(list[n - 1])
    ensures After(q.acls(acls), start) == Rest(list, kept, n)
  {
    if n > 0 {
      NextPage(q, acls0, list, n, acls);
    } else {
      assert Select(acls0, list[..0], true) + list[0..] == list[0..];
    }
  }

  lemma PageRead(list: seq<Uri>, kept: set<Uri>, limit: nat, n: nat, page: seq<Uri>, hasMore: bool)
    requires limit > 0 && n <= |list|
    requires
      var rest := Rest(list, kept, n);
      page == rest[..if |rest| <= limit then |rest| else limit] && hasMore == (|rest| > limit)
    ensures n + |page| <= |list| && page == list[n..n + |page|]
    ensures StillRead(list, kept, limit, n)
      == |page| + if hasMore then StillRead(list, kept, limit, n + |page|) else 0
    ensures hasMore ==> |page| > 0 && page[|page| - 1] == list[n + |page| - 1]
  {
    if hasMore {
      assert list[n..][limit..] == list[n + limit..];
      assert list[n..][limit - 1] == list[n + limit - 1];
    }
  }
}
