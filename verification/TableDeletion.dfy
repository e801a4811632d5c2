/** The recursive deletion of a table, stopped after any number of its writes and started again. */
module TableDeletion {
  import Journal
  import opened Wrappers
  import opened BackingNames
  import opened TableState
  import opened AclPaging

  function DropCols(list: seq<Uri>): seq<Put> {
    if list == [] then [] else [DropCol(list[0])] + DropCols(list[1..])
  }

  /** The contents of a file go before its entry. */
  function DropFiles(list: seq<Uri>): seq<Put> {
    if list == [] then [] else [DropContents(list[0]), DropFile(list[0])] + DropFiles(list[1..])
  }

  function DropAcls(list: seq<Uri>): seq<Put> {
    if list == [] then [] else [DropAcl(list[0])] + DropAcls(list[1..])
  }

  /** The entries of `list` that are, or are not, owners. */
  function Select(acls: map<Uri, Role>, list: seq<Uri>, owner: bool): seq<Uri> {
    if list == [] then []
    else (if list[0] in acls && (acls[list[0]] == Owner) == owner then [list[0]] else [])
         + Select(acls, list[1..], owner)
  }

  function Owners(acls: map<Uri, Role>): set<Uri> {
    set u | u in acls && acls[u] == Owner
  }

  const MANIFEST_ETAG := Field("_MANIFEST_ETAG", "STRING")

  /** The openings of the data relation, its log and the manifests of the attachments. */
  function Openings(q: Queries, s: State, t: ETag): seq<Put>
    requires t in s.defs
  {
    [AddRelation(s.defs[t], HowTo(q, false, RowsOf(s.cols, t))),
     AddRelation(LogName(s.defs[t]), HowTo(q, true, RowsOf(s.cols, t))),
     AddRelation(ManifestName(s.id), Fields(Some([MANIFEST_ETAG])))]
  }

  ghost predicate AllOpenings(list: seq<Put>) {
    forall p :: p in list ==> p.AddRelation?
  }

  /** Each relation is opened, which creates it if it is missing, and dropped. */
  function OpenDrops(list: seq<Put>): seq<Put>
    requires AllOpenings(list)
  {
    if list == [] then []
    else
      assert list[0] in list;
      [list[0], DropRelation(list[0].name)] + OpenDrops(list[1..])
  }

  /** The three relations of a blob store are opened together and then dropped. */
  function BlobPuts(base: string): seq<Put> {
    var name := Lower(Static(base));
    [AddRelation(name + CTNT_SUFFIX, Blobs(base)), AddRelation(name + VREF_SUFFIX, Blobs(base)),
     AddRelation(name + BLOB_SUFFIX, Blobs(base))]
    + [DropRelation(name + BLOB_SUFFIX), DropRelation(name + VREF_SUFFIX), DropRelation(name + CTNT_SUFFIX)]
  }

  /** The tag of the manifest, the files and the columns. */
  function PlainPuts(q: Queries, s: State, t: ETag): seq<Put> {
    (if s.tag then [DropTag] else []) + (DropFiles(q.files(s.files)) + DropCols(q.cols(ColsWith(s, t))))
  }

  /** The writes that take a schema apart, up to its definition. */
  function WorkPuts(q: Queries, s: State, t: ETag): seq<Put>
    requires t in s.defs
  {
    OpenDrops(Openings(q, s, t)) + (BlobPuts(AttachmentsBase(s.id)) + PlainPuts(q, s, t))
  }

  /** The schema that the entry marks as stale is taken apart, its definition last. */
  function StalePuts(q: Queries, s: State, m: Entry): seq<Put> {
    if m.stale.Some? && m.stale.value in s.defs then WorkPuts(q, s, m.stale.value) + [DropDef(m.stale.value)]
    else []
  }

  /** A change of data that is pending is forgotten; the relations are opened, and left as they are. */
  function PendingPuts(q: Queries, s: State, m: Entry): seq<Put> {
    if m.pendingData.Some? && m.live.Some? && m.live.value in s.defs then
      var openings := Openings(q, s, m.live.value);
      [openings[0], openings[1], PutEntry(m.(pendingData := None))]
    else []
  }

  /** The other entries go before the table entry, the owners after it. */
  function AclPuts(q: Queries, s: State): seq<Put>
    requires q.page > 0
  {
    var list := q.acls(s.acls);
    var read := list[..Visited(list, Owners(s.acls), q.page)];
    DropAcls(Select(s.acls, read, false)) + [DropEntry] + DropAcls(Select(s.acls, read, true))
  }

  /** Schema ETags that are still to become stale. */
  function Open(m: Entry): nat {
    (if m.pending.Some? then 1 else 0) + (if m.live.Some? then 1 else 0)
  }

  function Cleaned(m: Entry): Entry {
    m.(stale := None, pendingData := None)
  }

  /** The schema ETag that becomes stale next, if any. */
  function Next(m: Entry, deleteCurrent: bool): Option<Entry> {
    if m.pending.Some? then Some(m.(stale := m.pending, pending := None))
    else if deleteCurrent && m.live.Some? then Some(m.(stale := m.live, live := None))
    else None
  }

  /** The writes of the deletion of the entry `m`, read from the state `s`, if no relation is refused. */
  function DeletePuts(q: Queries, s: State, m: Entry, deleteCurrent: bool): seq<Put>
    requires q.page > 0
    decreases Open(m)
  {
    var a := StalePuts(q, s, m);
    var s1 := Replay(s, a);
    var b := PendingPuts(q, s1, m.(stale := None));
    var s2 := Replay(s1, b);
    var next := Next(Cleaned(m), deleteCurrent);
    if next.Some? then
      a + b + [PutEntry(next.value)] + DeletePuts(q, Apply(s2, PutEntry(next.value)), next.value, deleteCurrent)
    else if deleteCurrent then a + b + AclPuts(q, s2)
    else a + b
  }

  // ----- opening and dropping relations -----

  ghost predicate AllAccepted(s: State, list: seq<Put>) {
    forall p :: p in list ==> Accepted(s, p)
  }

  function NamesOf(list: seq<Put>): set<string> {
    set p | p in list && p.AddRelation? :: p.name
  }

  ghost predicate DistinctNames(list: seq<Put>) {
    AllOpenings(list) && forall i, j :: 0 <= i < j < |list| ==> list[i].name != list[j].name
  }

  /** A write to another relation does not matter to an opening. */
  lemma OtherRelation(s: State, s': State, p: Put)
    requires p.AddRelation? && (p.name in s.relations <==> p.name in s'.relations)
    requires p.name in s.relations && p.name in s'.relations ==> s.relations[p.name] == s'.relations[p.name]
    ensures Accepted(s, p) <==> Accepted(s', p)
  {
    hide NameOk, BaseOk, FieldsOk;
  }

  /** Once a relation has been opened, it can be opened again. */
  lemma OpenedAgain(s: State, p: Put)
    requires p.AddRelation? && Accepted(s, p)
    ensures Accepted(Apply(s, p), p)
  {
    hide NameOk, BaseOk, FieldsOk;
  }

  lemma SplitNames(list: seq<Put>)
    requires DistinctNames(list) && list != []
    ensures DistinctNames(list[1..]) && list[0].AddRelation?
    ensures NamesOf(list) == {list[0].name} + NamesOf(list[1..])
    ensures forall p :: p in list[1..] ==> p.name != list[0].name
    ensures forall s :: AllAccepted(s, list) <==> Accepted(s, list[0]) && AllAccepted(s, list[1..])
  {
    hide Accepted;
    assert list[0] in list;
    assert list == [list[0]] + list[1..];
    forall p | p in list[1..] ensures p in list && p.name != list[0].name {
      var i :| 0 <= i < |list| - 1 && list[1..][i] == p;
      assert list[i + 1] == p;
    }
  }

  /** What happens to other relations does not matter to a list of openings. */
  lemma OthersAccepted(s: State, s': State, list: seq<Put>, name: string)
    requires AllOpenings(list) && forall p :: p in list ==> p.name != name
    requires forall n :: n != name ==> (n in s.relations <==> n in s'.relations)
    requires forall n :: n != name && n in s.relations && n in s'.relations ==> s.relations[n] == s'.relations[n]
    ensures AllAccepted(s, list) <==> AllAccepted(s', list)
  {
    forall p | p in list ensures Accepted(s, p) <==> Accepted(s', p) { OtherRelation(s, s', p); }
    hide Accepted;
  }

  lemma OpenDropOne(s: State, p: Put)
    requires p.AddRelation?
    ensures
      var s1 := Apply(Apply(s, p), DropRelation(p.name));
      && s1 == s.(relations := s.relations - {p.name})
      && Apply(s, p) == s.(relations := Apply(s, p).relations)
      && (forall n :: n != p.name ==>
            && (n in s.relations <==> n in s1.relations) && (n in s.relations <==> n in Apply(s, p).relations)
            && (n in s.relations ==>
                  s1.relations[n] == s.relations[n] && Apply(s, p).relations[n] == s.relations[n]))
  {
  }

  lemma {:induction false} OpenDropsDone(s: State, list: seq<Put>)
    requires DistinctNames(list)
    ensures Replay(s, OpenDrops(list)) == s.(relations := s.relations - NamesOf(list))
    decreases |list|
  {
    if list == [] {
      assert s.relations - NamesOf(list) == s.relations;
    } else {
      SplitNames(list);
      var rest := OpenDrops(list[1..]);
      var two := [list[0], DropRelation(list[0].name)];
      OpenDropOne(s, list[0]);
      CrashPair(s, two[0], two[1], 2);
      Journal.ReplayConcat(Apply, s, two, rest);
      OpenDropsDone(Replay(s, two), list[1..]);
      assert s.relations - {list[0].name} - NamesOf(list[1..]) == s.relations - NamesOf(list);
    }
  }

  lemma CrashPair(s: State, a: Put, b: Put, k: nat)
    ensures Crash(s, [a, b], k) == if k == 0 then s else if k == 1 then Apply(s, a) else Apply(Apply(s, a), b)
    ensures Replay(s, [a, b]) == Apply(Apply(s, a), b)
  {
    assert [a, b][1..] == [b] && [b][1..] == [];
    Journal.One(Apply, Apply(s, a), b, if k == 0 then 0 else k - 1);
  }

  lemma PairWritten(s: State, p: Put, rest: seq<Put>)
    requires p.AddRelation?
    ensures
      var ps, d := [p, DropRelation(p.name)] + rest, DropRelation(p.name);
      var s2 := Apply(Apply(s, p), d);
      && Written(s, ps) == (if Accepted(s, p) then [p, d] + Written(s2, rest) else [])
      && (Finishes(s, ps) <==> Accepted(s, p) && Finishes(s2, rest))
  {
    var d := DropRelation(p.name);
    var ps := [p, d] + rest;
    assert ps[1..] == [d] + rest && ([d] + rest)[1..] == rest;
    hide NameOk, BaseOk, FieldsOk;
    var s1 := Apply(s, p);
    assert Written(s1, [d] + rest) == [d] + Written(Apply(s1, d), rest);
    assert [p] + ([d] + Written(Apply(s1, d), rest)) == [p, d] + Written(Apply(s1, d), rest);
  }

  /** All relations can be opened and dropped, one after the other, just when each of them can be opened now. */
  lemma {:induction false} OpenDropsFinishIff(s: State, list: seq<Put>)
    requires DistinctNames(list)
    ensures Finishes(s, OpenDrops(list)) <==> AllAccepted(s, list)
    decreases |list|
  {
    if list != [] {
      SplitNames(list);
      var p := list[0];
      var s2 := Apply(Apply(s, p), DropRelation(p.name));
      OpenDropOne(s, p);
      PairWritten(s, p, OpenDrops(list[1..]));
      OpenDropsFinishIff(s2, list[1..]);
      OthersAccepted(s, s2, list[1..], p.name);
    }
  }

  /** Between the openings of the first relation and the next, or before the first, a refusal stays. */
  lemma FirstResists(s: State, list: seq<Put>, k: nat)
    requires DistinctNames(list) && list != [] && !AllAccepted(s, list) && k <= 2
    requires k > 0 ==> Accepted(s, list[0])
    ensures
      var s' := Crash(s, [list[0], DropRelation(list[0].name)], k);
      && s' == s.(relations := s'.relations) && !AllAccepted(s', list)
      && (k == 2 ==> !AllAccepted(s', list[1..]))
  {
    hide Accepted, Journal.Crash;
    SplitNames(list);
    var p := list[0];
    CrashPair(s, p, DropRelation(p.name), k);
    OpenDropOne(s, p);
    if k == 1 { OthersAccepted(s, Apply(s, p), list[1..], p.name); }
    if k == 2 { OthersAccepted(s, Apply(Apply(s, p), DropRelation(p.name)), list[1..], p.name); }
  }

  /** A relation that is refused stays refused, wherever the work before it stops. */
  lemma {:induction false} OpenDropsResist(s: State, list: seq<Put>, k: nat)
    requires DistinctNames(list) && !AllAccepted(s, list) && k <= |Written(s, OpenDrops(list))|
    ensures
      var s' := Crash(s, OpenDrops(list), k);
      s' == s.(relations := s'.relations) && !AllAccepted(s', list)
    decreases |list|
  {
    SplitNames(list);
    var p, rest := list[0], OpenDrops(list[1..]);
    var two := [p, DropRelation(p.name)];
    PairWritten(s, p, rest);
    FirstResists(s, list, if k < 2 then k else 2);
    Journal.CrashConcat(Apply, s, two, rest, k);
    if k >= 2 {
      Journal.CrashAll(Apply, s, two, 2);
      CrashPair(s, two[0], two[1], 2);
      hide Accepted, Apply, Journal.Crash, Journal.Replay, OpenDrops, DistinctNames, NamesOf;
      OpenDropsResist(Replay(s, two), list[1..], k - 2);
    }
  }

  /** The name of a blob store decides whether its relations can be opened. */
  lemma {:induction false} BlobsFinishIff(s: State, base: string, adds: seq<Put>)
    requires adds != [] && forall p :: p in adds ==> p.AddRelation? && p.how == Blobs(base)
    ensures Finishes(s, adds) <==> BaseOk(base)
    ensures !BaseOk(base) ==> Written(s, adds) == []
    decreases |adds|
  {
    hide BaseOk;
    assert adds[0] in adds;
    if |adds| == 1 {
      assert adds[1..] == [];
    } else {
      BlobsFinishIff(Apply(s, adds[0]), base, adds[1..]);
    }
  }

  lemma BlobPutsFinishIff(s: State, base: string)
    ensures Finishes(s, BlobPuts(base)) <==> BaseOk(base)
    ensures !BaseOk(base) ==> Written(s, BlobPuts(base)) == []
  {
    hide BaseOk, Apply, Lower;
    var adds, drops := BlobPuts(base)[..3], BlobPuts(base)[3..];
    assert BlobPuts(base) == adds + drops;
    WrittenConcat(s, adds, drops);
    PlainFinishes(Replay(s, adds), drops);
    BlobsFinishIff(s, base, adds);
  }

  lemma AddThree(s: State, a: Put, b: Put, c: Put)
    requires a.AddRelation? && b.AddRelation? && c.AddRelation?
    ensures
      var s1 := Apply(Apply(Apply(s, a), b), c);
      && s1 == s.(relations := s1.relations)
      && forall n :: n !in {a.name, b.name, c.name} ==>
           (n in s.relations <==> n in s1.relations) && (n in s.relations ==> s.relations[n] == s1.relations[n])
  {
    OpenDropOne(s, a);
    OpenDropOne(Apply(s, a), b);
    OpenDropOne(Apply(Apply(s, a), b), c);
    hide Apply;
  }

  lemma DropThree(s: State, a: string, b: string, c: string)
    ensures Apply(Apply(Apply(s, DropRelation(a)), DropRelation(b)), DropRelation(c)) ==
      s.(relations := s.relations - {a} - {b} - {c})
  {
  }

  lemma BlobPutsDone(s: State, base: string)
    ensures
      var name := Lower(Static(base));
      Replay(s, BlobPuts(base)) ==
        s.(relations := s.relations - {name + CTNT_SUFFIX, name + VREF_SUFFIX, name + BLOB_SUFFIX})
  {
    hide Apply, Lower, Static;
    var name := Lower(Static(base));
    var a, b, c := name + CTNT_SUFFIX, name + VREF_SUFFIX, name + BLOB_SUFFIX;
    var adds := [AddRelation(a, Blobs(base)), AddRelation(b, Blobs(base)), AddRelation(c, Blobs(base))];
    var drops := [DropRelation(c), DropRelation(b), DropRelation(a)];
    Journal.ReplayConcat(Apply, s, adds, drops);
    CrashThree(s, adds[0], adds[1], adds[2], 3);
    AddThree(s, adds[0], adds[1], adds[2]);
    var s1 := Replay(s, adds);
    hide Journal.Replay;
    CrashThree(s1, drops[0], drops[1], drops[2], 3);
    DropThree(s1, c, b, a);
    ThreeGone(s.relations, s1.relations, a, b, c);
  }

  lemma ThreeGone(r: map<string, set<Field>>, r': map<string, set<Field>>, a: string, b: string, c: string)
    requires forall n :: n !in {a, b, c} ==> (n in r <==> n in r')
    requires forall n :: n !in {a, b, c} && n in r && n in r' ==> r[n] == r'[n]
    ensures r' - {c} - {b} - {a} == r - {a, b, c}
  {
  }

  lemma CrashThree(s: State, a: Put, b: Put, c: Put, k: nat)
    ensures Crash(s, [a, b, c], k) ==
      if k == 0 then s else if k == 1 then Apply(s, a) else if k == 2 then Apply(Apply(s, a), b)
      else Apply(Apply(Apply(s, a), b), c)
    ensures Replay(s, [a, b, c]) == Apply(Apply(Apply(s, a), b), c)
  {
    var s1 := Apply(s, a);
    assert [a, b, c][1..] == [b, c] && [b, c][1..] == [c];
    Journal.First(Apply, s, [a, b, c], k);
    Journal.First(Apply, s1, [b, c], if k == 0 then 0 else k - 1);
    Journal.One(Apply, Apply(s1, b), c, if k < 2 then 0 else k - 2);
  }

  // ----- taking the stale schema apart -----

  /** The relations that go with a schema. */
  function OwnNames(s: State, name: string): set<string> {
    var blobs := Lower(Static(AttachmentsBase(s.id)));
    {name, LogName(name), ManifestName(s.id), blobs + CTNT_SUFFIX, blobs + VREF_SUFFIX, blobs + BLOB_SUFFIX}
  }

  /** The relations, the tag of the manifest and the files that go with a schema are gone. */
  function Stripped(s: State, name: string): State {
    s.(relations := s.relations - OwnNames(s, name), tag := false, files := {}, contents := s.contents - s.files)
  }

  /** Only the columns of the schema may have gone, and what is not tied to the entry. */
  ghost predicate Worked(s: State, s': State) {
    && s'.entry == s.entry && s'.defs == s.defs && s'.acls == s.acls && s'.id == s.id
    && (forall u :: u in s'.cols ==> u in s.cols && s'.cols[u] == s.cols[u])
  }

  predicate OnStale(p: Put) {
    p.AddRelation? || p.DropRelation? || p.DropCol? || p.DropTag? || p.DropFile? || p.DropContents?
  }

  lemma {:induction false} WorkStops(s: State, s': State, ps: seq<Put>, k: nat)
    requires Worked(s, s') && forall p :: p in ps ==> OnStale(p)
    ensures Worked(s, Crash(s', ps, k))
    decreases |ps|
  {
    if ps != [] && k > 0 {
      assert ps[0] in ps;
      WorkStep(s, s', ps[0]);
      hide Apply, Worked, OnStale;
      WorkStops(s, Apply(s', ps[0]), ps[1..], k - 1);
    }
  }

  lemma WorkStep(s: State, s': State, p: Put)
    requires Worked(s, s') && OnStale(p)
    ensures Worked(s, Apply(s', p))
  {
  }

  lemma WorkedInv(s: State, s': State)
    requires Inv(s) && Worked(s, s') && (s.entry.Some? ==> s.entry.value.live.None?)
    ensures Inv(s')
  {
  }

  /** Where the stale schema still has its definition, no schema is in use. */
  lemma StaleAlone(s: State, m: Entry)
    requires Inv(s) && s.entry == Some(m) && m.stale.Some? && m.stale.value in s.defs
    ensures m.live.None? && s.defs == map[m.stale.value := ConvertIdentifier(s.id)]
  {
    assert forall t :: t in s.defs ==> t == m.stale.value;
  }

  lemma {:induction false} ColsDropped(s: State, list: seq<Uri>)
    ensures Replay(s, DropCols(list)) == s.(cols := s.cols - set u | u in list)
    decreases |list|
  {
    if list == [] {
      assert s.cols - (set u | u in list) == s.cols;
    } else {
      ColsDropped(Apply(s, DropCol(list[0])), list[1..]);
      assert list == [list[0]] + list[1..];
      assert s.cols - (set u | u in list) == s.cols - {list[0]} - set u | u in list[1..];
    }
  }

  lemma {:induction false} DropColsAre(list: seq<Uri>, p: Put)
    ensures p in DropCols(list) ==> p.DropCol?
  {
    if list != [] { DropColsAre(list[1..], p); }
  }

  lemma {:induction false} FilesDropped(s: State, list: seq<Uri>)
    ensures Replay(s, DropFiles(list)) ==
      s.(files := s.files - (set u | u in list), contents := s.contents - (set u | u in list))
    decreases |list|
  {
    if list == [] {
      assert s.files - (set u | u in list) == s.files && s.contents - (set u | u in list) == s.contents;
    } else {
      var two := [DropContents(list[0]), DropFile(list[0])];
      var s2 := s.(files := s.files - {list[0]}, contents := s.contents - {list[0]});
      CrashPair(s, two[0], two[1], 2);
      Journal.ReplayConcat(Apply, s, two, DropFiles(list[1..]));
      hide Journal.Replay, Apply;
      FilesDropped(s2, list[1..]);
      FirstGone(s.files, list);
      FirstGone(s.contents, list);
    }
  }

  lemma FirstGone(all: set<Uri>, list: seq<Uri>)
    requires list != []
    ensures all - (set u | u in list) == all - {list[0]} - set u | u in list[1..]
  {
    assert list == [list[0]] + list[1..];
  }

  lemma {:induction false} DropFilesAre(list: seq<Uri>, p: Put)
    ensures p in DropFiles(list) ==> p.DropFile? || p.DropContents?
  {
    if list != [] { DropFilesAre(list[1..], p); }
  }

  lemma PlainPutsAre(q: Queries, s: State, t: ETag, p: Put)
    ensures p in PlainPuts(q, s, t) ==> p.DropCol? || p.DropTag? || p.DropFile? || p.DropContents?
  {
    DropFilesAre(q.files(s.files), p);
    DropColsAre(q.cols(ColsWith(s, t)), p);
  }

  lemma PlainPutsDone(q: Queries, s0: State, s: State, t: ETag)
    requires Sound(q) && s == s0.(relations := s.relations)
    ensures Replay(s, PlainPuts(q, s0, t)) == s.(
      tag := false, files := {}, contents := s.contents - s.files, cols := s.cols - ColsWith(s, t))
  {
    hide Sound, Journal.Replay;
    assert ListsFiles(q, s.files) && ListsCols(q, ColsWith(s, t)) by { SoundLists(q, s, t); }
    var tag, files, cols := if s.tag then [DropTag] else [], q.files(s.files), q.cols(ColsWith(s, t));
    assert ColsWith(s0, t) == ColsWith(s, t);
    Journal.ReplayConcat(Apply, s, tag, DropFiles(files) + DropCols(cols));
    Journal.Nothing(Apply, s, [], 0);
    Journal.One(Apply, s, DropTag, 1);
    var s1 := s.(tag := false);
    Journal.ReplayConcat(Apply, s1, DropFiles(files), DropCols(cols));
    FilesDropped(s1, files);
    assert (set u | u in files) == s.files && s.files - s.files == {};
    ColsDropped(Replay(s1, DropFiles(files)), cols);
    assert (set u | u in cols) == ColsWith(s, t);
  }

  lemma SoundLists(q: Queries, s: State, t: ETag)
    requires Sound(q)
    ensures ListsFiles(q, s.files) && ListsCols(q, ColsWith(s, t))
  {
  }

  lemma {:induction false} OpenDropsAre(list: seq<Put>, p: Put)
    requires AllOpenings(list)
    ensures p in OpenDrops(list) ==> p.AddRelation? || p.DropRelation?
  {
    if list != [] {
      assert list[0] in list;
      OpenDropsAre(list[1..], p);
    }
  }

  lemma WorkOnStale(q: Queries, s: State, t: ETag)
    requires t in s.defs
    ensures forall p :: p in WorkPuts(q, s, t) ==> OnStale(p)
  {
    forall p | p in WorkPuts(q, s, t) ensures OnStale(p) {
      OpenDropsAre(Openings(q, s, t), p);
      PlainPutsAre(q, s, t, p);
    }
  }

  lemma OpeningsDiffer(q: Queries, s: State, t: ETag)
    requires t in s.defs && s.defs[t] == ConvertIdentifier(s.id)
    ensures DistinctNames(Openings(q, s, t))
    ensures NamesOf(Openings(q, s, t)) == {s.defs[t], LogName(s.defs[t]), ManifestName(s.id)}
  {
    TableNamesDiffer(s.id);
    hide RowsOf, LogName, ManifestName, ConvertIdentifier;
    var list := Openings(q, s, t);
    assert list[0] in list && list[1] in list && list[2] in list;
  }

  /** What is left once the schema `t` has been taken apart. */
  function TakenApart(s: State, t: ETag): State
    requires t in s.defs
  {
    Stripped(s, s.defs[t]).(defs := s.defs - {t}, cols := s.cols - ColsWith(s, t))
  }

  lemma WorkDone(q: Queries, s: State, t: ETag)
    requires Sound(q) && t in s.defs && s.defs[t] == ConvertIdentifier(s.id)
    ensures Apply(Replay(s, WorkPuts(q, s, t)), DropDef(t)) == TakenApart(s, t)
  {
    hide Sound, Journal.Replay, OpenDrops, BlobPuts, PlainPuts, Openings, NamesOf, LogName, ManifestName;
    hide ConvertIdentifier, Lower;
    OpeningsDiffer(q, s, t);
    hide DistinctNames;
    var a, b, c := OpenDrops(Openings(q, s, t)), BlobPuts(AttachmentsBase(s.id)), PlainPuts(q, s, t);
    OpenDropsDone(s, Openings(q, s, t));
    var s1 := Replay(s, a);
    BlobPutsDone(s1, AttachmentsBase(s.id));
    var s2 := Replay(s1, b);
    Journal.ReplayConcat(Apply, s, a, b + c);
    Journal.ReplayConcat(Apply, s1, b, c);
    PlainPutsDone(q, s, s2, t);
    assert s2.relations == s.relations - OwnNames(s, s.defs[t]);
    assert ColsWith(s2, t) == ColsWith(s, t);
  }

  /** The entry `m` could be written now. */
  predicate Fits(s: State, m: Entry) {
    && s.defs.Keys <= Tags(Some(m)) && EntryOk(m)
    && (m.live.Some? ==> Backed(s, m.live.value))
  }

  lemma TakenApartInv(s: State, t: ETag, m: Entry)
    requires Inv(s) && t in s.defs && s.entry == Some(m) && m.stale == Some(t)
    ensures Inv(TakenApart(s, t)) && Fits(TakenApart(s, t), m.(stale := None)) && TakenApart(s, t).defs == map[]
  {
    StaleAlone(s, m);
    assert TakenApart(s, t).defs.Keys == {};
    assert s.cols.Keys == ColsWith(s, t);
    assert TakenApart(s, t).cols.Keys == {};
  }

  lemma DefName(s: State, t: ETag)
    requires Inv(s) && t in s.defs
    ensures s.defs[t] == ConvertIdentifier(s.id)
  {
  }

  lemma StaleStops(q: Queries, s: State, m: Entry, k: nat)
    requires Sound(q) && Inv(s) && s.entry == Some(m)
    ensures Inv(Crash(s, StalePuts(q, s, m), k))
  {
    if m.stale.Some? && m.stale.value in s.defs {
      var t := m.stale.value;
      DefName(s, t);
      StaleAlone(s, m);
      hide Inv, Journal.Crash, Journal.Replay, WorkPuts, TakenApart, ConvertIdentifier;
      var work := WorkPuts(q, s, t);
      WorkOnStale(q, s, t);
      assert Worked(s, s);
      WorkStops(s, s, work, k);
      WorkedInv(s, Crash(s, work, k));
      Journal.CrashConcat(Apply, s, work, [DropDef(t)], k);
      WorkDone(q, s, t);
      Journal.One(Apply, Replay(s, work), DropDef(t), if k < |work| then 0 else k - |work|);
      if k >= |work| { Journal.CrashAll(Apply, s, work, k); }
      TakenApartInv(s, t, m);
    }
  }

  lemma InvEntry(s: State, m: Entry)
    requires Inv(s) && s.entry == Some(m)
    ensures EntryOk(m) && Fits(s, m) && HasOwner(s.acls)
  {
  }

  /** Nothing of the stale schema is left, and nothing else has gone. */
  lemma StaleDone(q: Queries, s: State, m: Entry)
    requires Sound(q) && Inv(s) && s.entry == Some(m)
    ensures
      var s1 := Replay(s, StalePuts(q, s, m));
      && Inv(s1) && Fits(s1, m.(stale := None)) && s1.entry == s.entry && s1.acls == s.acls && s1.id == s.id
      && s1 == (if m.stale.Some? && m.stale.value in s.defs then TakenApart(s, m.stale.value) else s)
      && (m.stale.Some? && m.stale.value in s.defs ==> s1.defs == map[])
  {
    if m.stale.Some? && m.stale.value in s.defs {
      var t := m.stale.value;
      DefName(s, t);
      hide Inv, Journal.Crash, Journal.Replay, WorkPuts, Fits, ConvertIdentifier;
      WorkDone(q, s, t);
      Journal.ReplayAppend(Apply, s, WorkPuts(q, s, t), DropDef(t));
      TakenApartInv(s, t, m);
    } else {
      InvEntry(s, m);
    }
  }

  // ----- forgetting a pending change, and writing the entry -----

  lemma EntryWritten(s: State, m: Entry)
    requires Inv(s) && s.entry.Some? && Fits(s, m)
    ensures Inv(Apply(s, PutEntry(m))) && Fits(Apply(s, PutEntry(m)), m)
  {
  }

  lemma RelationAdded(s: State, p: Put)
    requires Inv(s) && p.AddRelation?
    ensures Inv(Apply(s, p))
    ensures forall m :: Fits(s, m) ==> Fits(Apply(s, p), m)
  {
  }

  lemma FitsCleaned(s: State, m: Entry)
    requires Fits(s, m)
    ensures Fits(s, m.(pendingData := None))
  {
  }

  lemma PendingStops(q: Queries, s: State, m: Entry, k: nat)
    requires Inv(s) && s.entry.Some? && Fits(s, m)
    ensures Inv(Crash(s, PendingPuts(q, s, m), k))
  {
    hide Inv, Fits, RowsOf, Apply;
    var ps := PendingPuts(q, s, m);
    if ps != [] {
      var s1 := Apply(s, ps[0]);
      var s2 := Apply(s1, ps[1]);
      RelationAdded(s, ps[0]);
      RelationAdded(s1, ps[1]);
      EntryStays(s, ps[0]);
      EntryStays(s1, ps[1]);
      FitsCleaned(s2, m);
      EntryWritten(s2, m.(pendingData := None));
      CrashThree(s, ps[0], ps[1], ps[2], k);
    }
  }

  lemma EntryStays(s: State, p: Put)
    requires p.AddRelation?
    ensures Apply(s, p) == s.(relations := Apply(s, p).relations)
  {
  }

  /** Only the two relations of the schema in use may be new. */
  predicate OnlyAdded(s: State, s2: State) {
    && s2 == s.(entry := s2.entry, relations := s2.relations)
    && (forall n :: n in s.relations ==> n in s2.relations && s2.relations[n] == s.relations[n])
    && (forall n :: n in s2.relations && n !in s.relations ==>
          exists t :: t in s.defs && (n == s.defs[t] || n == LogName(s.defs[t])))
  }

  lemma OpeningAdds(q: Queries, s0: State, s: State, t: ETag, i: nat)
    requires t in s0.defs && i < 2 && OnlyAdded(s0, s)
    ensures OnlyAdded(s0, Apply(s, Openings(q, s0, t)[i]))
  {
    hide RowsOf;
  }

  lemma PendingDone(q: Queries, s: State, m: Entry)
    requires Inv(s) && s.entry.Some? && Fits(s, m)
    ensures
      var s2 := Replay(s, PendingPuts(q, s, m));
      Inv(s2) && Fits(s2, m.(pendingData := None)) && s2.entry.Some? && OnlyAdded(s, s2)
  {
    var ps := PendingPuts(q, s, m);
    FitsCleaned(s, m);
    assert OnlyAdded(s, s);
    if ps != [] {
      hide Inv, Fits, OnlyAdded, Openings;
      var t := m.live.value;
      var s1 := Apply(s, ps[0]);
      var s2 := Apply(s1, ps[1]);
      OpeningsAre(q, s, t);
      OpeningAdds(q, s, s, t, 0);
      OpeningAdds(q, s, s1, t, 1);
      RelationAdded(s, ps[0]);
      RelationAdded(s1, ps[1]);
      FitsCleaned(s2, m);
      EntryWritten(s2, m.(pendingData := None));
      CrashThree(s, ps[0], ps[1], ps[2], 3);
      AddedEntry(s, s2, m.(pendingData := None));
    }
  }

  lemma OpeningsAre(q: Queries, s: State, t: ETag)
    requires t in s.defs
    ensures |Openings(q, s, t)| == 3 && forall i :: 0 <= i < 3 ==> Openings(q, s, t)[i].AddRelation?
  {
  }

  lemma AddedEntry(s: State, s2: State, m: Entry)
    requires OnlyAdded(s, s2)
    ensures OnlyAdded(s, Apply(s2, PutEntry(m)))
  {
  }

  // ----- the access control list -----

  lemma {:induction false} SelectIn(acls: map<Uri, Role>, list: seq<Uri>, owner: bool, u: Uri)
    ensures u in Select(acls, list, owner) <==> u in list && u in acls && (acls[u] == Owner) == owner
  {
    if list != [] {
      SelectIn(acls, list[1..], owner, u);
      assert list == [list[0]] + list[1..];
    }
  }

  function Least(a: nat, b: nat): nat {
    if a < b then a else b
  }

  lemma {:induction false} AclsDropped(s: State, list: seq<Uri>)
    ensures Replay(s, DropAcls(list)) == s.(acls := s.acls - set u | u in list)
    decreases |list|
  {
    if list == [] {
      assert s.acls - (set u | u in list) == s.acls;
    } else {
      AclsDropped(Apply(s, DropAcl(list[0])), list[1..]);
      assert list == [list[0]] + list[1..];
      assert s.acls - (set u | u in list) == s.acls - {list[0]} - set u | u in list[1..];
    }
  }

  lemma {:induction false} DropAclsTake(list: seq<Uri>, n: nat)
    requires n <= |list|
    ensures |DropAcls(list)| == |list| && DropAcls(list)[..n] == DropAcls(list[..n])
  {
    if n > 0 {
      DropAclsTake(list[1..], n - 1);
      assert list[..n][1..] == list[1..][..n - 1];
    } else if list != [] {
      DropAclsTake(list[1..], 0);
    }
  }

  lemma AclsCrash(s: State, list: seq<Uri>, k: nat)
    ensures |DropAcls(list)| == |list|
    ensures Crash(s, DropAcls(list), k) == s.(acls := s.acls - set u | u in list[..Least(k, |list|)])
  {
    var n := Least(k, |list|);
    DropAclsTake(list, n);
    Journal.CrashIsPrefix(Apply, s, DropAcls(list), k);
    assert list[..|list|] == list;
    AclsDropped(s, list[..n]);
  }

  lemma AclsChange(s: State, acls: map<Uri, Role>)
    requires Inv(s) && (s.entry.Some? ==> HasOwner(acls))
    ensures Inv(s.(acls := acls))
  {
  }

  lemma EntryDropped(s: State)
    requires Inv(s) && s.defs == map[]
    ensures Inv(Apply(s, DropEntry))
  {
  }

  /** What the deletion leaves of the access control list: the rows that were not read. */
  function AclsLeft(q: Queries, acls: map<Uri, Role>): map<Uri, Role>
    requires q.page > 0
  {
    acls - (set u | u in q.acls(acls)[..Visited(q.acls(acls), Owners(acls), q.page)])
  }

  /** No owner is in the list. */
  predicate NoOwner(acls: map<Uri, Role>, list: seq<Uri>) {
    forall u :: u in list ==> u in acls && acls[u] != Owner
  }

  lemma OwnerKept(acls: map<Uri, Role>, list: seq<Uri>, n: nat)
    requires HasOwner(acls) && NoOwner(acls, list) && n <= |list|
    ensures HasOwner(acls - set u | u in list[..n])
  {
    var o :| o in acls && acls[o] == Owner;
    assert o in acls - set u | u in list[..n];
  }

  lemma OthersStop(s: State, others: seq<Uri>, k: nat)
    requires Inv(s) && NoOwner(s.acls, others)
    ensures Inv(Crash(s, DropAcls(others), k))
  {
    AclsCrash(s, others, k);
    var n := Least(k, |others|);
    if s.entry.Some? { OwnerKept(s.acls, others, n); }
    AclsChange(s, s.acls - set u | u in others[..n]);
  }

  lemma OwnersStop(s: State, owners: seq<Uri>, k: nat)
    requires Inv(s) && s.entry.None?
    ensures Inv(Crash(s, DropAcls(owners), k))
  {
    AclsCrash(s, owners, k);
    AclsChange(s, s.acls - set u | u in owners[..Least(k, |owners|)]);
  }

  lemma Selected(acls: map<Uri, Role>, read: seq<Uri>)
    requires forall u :: u in read ==> u in acls
    ensures NoOwner(acls, Select(acls, read, false))
    ensures forall u :: u in read <==> u in Select(acls, read, false) || u in Select(acls, read, true)
  {
    forall u
      ensures u in Select(acls, read, false) <==> u in read && u in acls && acls[u] != Owner
      ensures u in Select(acls, read, true) <==> u in read && u in acls && acls[u] == Owner
    {
      SelectIn(acls, read, false, u);
      SelectIn(acls, read, true, u);
    }
  }

  lemma ReadListed(q: Queries, acls: map<Uri, Role>, n: nat)
    requires Sound(q) && n <= |q.acls(acls)|
    ensures forall u :: u in q.acls(acls)[..n] ==> u in acls
  {
    assert ListsAcls(q, acls);
  }

  lemma AclsStop(q: Queries, s: State, k: nat)
    requires Sound(q) && Inv(s) && s.defs == map[] && s.entry.Some?
    ensures Inv(Crash(s, AclPuts(q, s), k))
  {
    hide Inv, Journal.Crash, Journal.Replay, Select, DropAcls, Sound;
    var n := Visited(q.acls(s.acls), Owners(s.acls), q.page) by { assert q.page > 0 by { PageIsPositive(q); } }
    var read := q.acls(s.acls)[..n];
    ReadListed(q, s.acls, n);
    Selected(s.acls, read);
    var others, owners := Select(s.acls, read, false), Select(s.acls, read, true);
    var s1 := Replay(s, DropAcls(others));
    var s2 := Apply(s1, DropEntry);
    Journal.CrashConcat(Apply, s, DropAcls(others), [DropEntry] + DropAcls(owners), k);
    assert AclPuts(q, s) == DropAcls(others) + ([DropEntry] + DropAcls(owners));
    OthersStop(s, others, k);
    AclsDropped(s, others);
    AclsCrash(s, others, |others|);
    Journal.CrashAll(Apply, s, DropAcls(others), |others|);
    OthersStop(s, others, |others|);
    if k >= |DropAcls(others)| {
      var j := k - |DropAcls(others)|;
      Journal.CrashConcat(Apply, s1, [DropEntry], DropAcls(owners), j);
      Journal.One(Apply, s1, DropEntry, j);
      EntryDropped(s1);
      if j > 0 { OwnersStop(s2, owners, j - 1); }
    }
  }

  lemma PageIsPositive(q: Queries)
    requires Sound(q)
    ensures q.page > 0
  {
  }

  /** The deletion of the list reads some of it, and deletes what it reads. */
  lemma AclsDone(q: Queries, s: State)
    requires Sound(q)
    ensures Replay(s, AclPuts(q, s)) == s.(entry := None, acls := AclsLeft(q, s.acls))
  {
    hide Journal.Replay, Select, DropAcls, Sound, Visited, Owners, NoOwner;
    PageIsPositive(q);
    var n := Visited(q.acls(s.acls), Owners(s.acls), q.page);
    var read := q.acls(s.acls)[..n];
    ReadListed(q, s.acls, n);
    Selected(s.acls, read);
    var others, owners := Select(s.acls, read, false), Select(s.acls, read, true);
    Journal.ReplayConcat(Apply, s, DropAcls(others) + [DropEntry], DropAcls(owners));
    Journal.ReplayAppend(Apply, s, DropAcls(others), DropEntry);
    AclsDropped(s, others);
    AclsDropped(Apply(Replay(s, DropAcls(others)), DropEntry), owners);
    assert (set u | u in read) == (set u | u in others) + set u | u in owners;
    assert s.acls - (set u | u in others) - (set u | u in owners) == s.acls - set u | u in read;
  }

  /** Nothing of the list is left just when each page but the last ends with an owner. */
  lemma AclsGoneIff(q: Queries, acls: map<Uri, Role>)
    requires Sound(q)
    ensures
      var list := q.acls(acls);
      AclsLeft(q, acls) == map[]
      <==> forall j: nat :: FullPage(|list|, q.page, j) ==>
             q.page * j > 0 && list[q.page * j - 1] in acls && acls[list[q.page * j - 1]] == Owner
  {
    var list := q.acls(acls);
    var n := Visited(list, Owners(acls), q.page);
    assert ListsAcls(q, acls);
    AllVisitedIff(list, Owners(acls), q.page);
    if n == |list| {
      assert list[..n] == list;
      assert AclsLeft(q, acls) == map[];
    } else {
      assert list[n] in list && list[n] !in list[..n];
      assert list[n] in AclsLeft(q, acls);
    }
  }

  // ----- the whole deletion -----

  lemma NextFits(s: State, m: Entry, deleteCurrent: bool)
    requires Fits(s, m) && m.stale.None? && m.pendingData.None?
    ensures
      var next := Next(m, deleteCurrent);
      && (next.Some? ==> Fits(s, next.value))
      && (next.None? && deleteCurrent ==> s.defs.Keys == {})
  {
  }

  /** What the deletion writes before the next schema becomes stale. */
  function RoundPuts(q: Queries, s: State, m: Entry): seq<Put> {
    var a := StalePuts(q, s, m);
    a + PendingPuts(q, Replay(s, a), m.(stale := None))
  }

  lemma RoundStops(q: Queries, s: State, m: Entry, k: nat)
    requires Sound(q) && Inv(s) && s.entry == Some(m)
    ensures Inv(Crash(s, RoundPuts(q, s, m), k))
  {
    hide Inv, Fits, StalePuts, PendingPuts, Journal.Replay, Journal.Crash, TakenApart;
    var a := StalePuts(q, s, m);
    var s1 := Replay(s, a);
    StaleStops(q, s, m, k);
    StaleDone(q, s, m);
    Journal.CrashConcat(Apply, s, a, PendingPuts(q, s1, m.(stale := None)), k);
    if k >= |a| { PendingStops(q, s1, m.(stale := None), k - |a|); }
  }

  /** The state after a round, but for the relations of a schema in use that were missing. */
  function AfterStale(s: State, m: Entry): State {
    if m.stale.Some? && m.stale.value in s.defs then TakenApart(s, m.stale.value) else s
  }

  /** After a round, the definition that is left, if any, is that of a schema that is not stale. */
  lemma RoundDone(q: Queries, s: State, m: Entry)
    requires Sound(q) && Inv(s) && s.entry == Some(m)
    ensures
      var s2 := Replay(s, RoundPuts(q, s, m));
      && Inv(s2) && Fits(s2, Cleaned(m)) && s2.entry.Some? && s2.acls == s.acls && s2.id == s.id
      && OnlyAdded(AfterStale(s, m), s2) && (m.stale.Some? && m.stale.value in s.defs ==> s2.defs == map[])
  {
    hide Inv, Fits, StalePuts, PendingPuts, Journal.Replay, TakenApart;
    var a := StalePuts(q, s, m);
    var s1 := Replay(s, a);
    StaleDone(q, s, m);
    Journal.ReplayConcat(Apply, s, a, PendingPuts(q, s1, m.(stale := None)));
    PendingDone(q, s1, m.(stale := None));
  }

  lemma DeleteSplit(q: Queries, s: State, m: Entry, deleteCurrent: bool)
    requires q.page > 0
    ensures
      var s2 := Replay(s, RoundPuts(q, s, m));
      var next := Next(Cleaned(m), deleteCurrent);
      DeletePuts(q, s, m, deleteCurrent) ==
        RoundPuts(q, s, m)
        + if next.Some? then
            [PutEntry(next.value)] + DeletePuts(q, Apply(s2, PutEntry(next.value)), next.value, deleteCurrent)
          else if deleteCurrent then AclPuts(q, s2)
          else []
  {
    hide StalePuts, PendingPuts, AclPuts;
    var a := StalePuts(q, s, m);
    Journal.ReplayConcat(Apply, s, a, PendingPuts(q, Replay(s, a), m.(stale := None)));
  }

  lemma FitsEntry(s: State, m: Entry)
    requires Inv(s) && s.entry.Some? && Fits(s, m)
    ensures Inv(Apply(s, PutEntry(m))) && Apply(s, PutEntry(m)).entry == Some(m)
  {
  }

  lemma NoDefs(s: State)
    requires s.defs.Keys == {}
    ensures s.defs == map[]
  {
  }

  /** The deletion of a table may stop anywhere. */
  lemma {:induction false} DeletionStops(q: Queries, s: State, m: Entry, deleteCurrent: bool, k: nat)
    requires Sound(q) && Inv(s) && s.entry == Some(m)
    ensures Inv(Crash(s, DeletePuts(q, s, m, deleteCurrent), k))
    decreases Open(m)
  {
    hide Inv, Fits, RoundPuts, AclPuts, Journal.Replay, Journal.Crash, DeletePuts, OnlyAdded, AfterStale;
    var round := RoundPuts(q, s, m);
    var s2, next := Replay(s, round), Next(Cleaned(m), deleteCurrent);
    DeleteSplit(q, s, m, deleteCurrent);
    RoundStops(q, s, m, k);
    RoundDone(q, s, m);
    NextFits(s2, Cleaned(m), deleteCurrent);
    var rest := DeletePuts(q, s, m, deleteCurrent)[|round|..];
    Journal.CrashConcat(Apply, s, round, rest, k);
    assert round + rest == DeletePuts(q, s, m, deleteCurrent);
    if k >= |round| {
      var j := k - |round|;
      if next.Some? {
        var s3 := Apply(s2, PutEntry(next.value));
        FitsEntry(s2, next.value);
        Journal.CrashConcat(Apply, s2, [PutEntry(next.value)], DeletePuts(q, s3, next.value, deleteCurrent), j);
        Journal.One(Apply, s2, PutEntry(next.value), 0);
        DeletionStops(q, s3, next.value, deleteCurrent, if j == 0 then 0 else j - 1);
      } else if deleteCurrent {
        NoDefs(s2);
        AclsStop(q, s2, j);
      } else {
        Journal.Nothing(Apply, s2, [], j);
      }
    }
  }

  /** The state without the table: what is left of the list are the rows that were not read. */
  function Emptied(q: Queries, s: State): State
    requires q.page > 0
  {
    (if s.defs == map[] then s else Stripped(s, ConvertIdentifier(s.id)))
    .(entry := None, defs := map[], cols := map[], acls := AclsLeft(q, s.acls))
  }

  lemma EmptyCols(s: State)
    requires Inv(s) && s.defs == map[]
    ensures s.cols == map[]
  {
    assert s.cols.Keys == {};
  }

  lemma EmptiedNow(q: Queries, s: State)
    requires q.page > 0 && Inv(s) && s.defs == map[]
    ensures s.(entry := None, acls := AclsLeft(q, s.acls)) == Emptied(q, s)
  {
    hide AclsLeft, Stripped;
    EmptyCols(s);
  }

  /** Taken apart, or with its relations there again, the table leaves the same when it is gone. */
  lemma EmptiedLater(q: Queries, s: State, m: Entry, s2: State)
    requires q.page > 0 && Inv(s) && s.entry == Some(m) && OnlyAdded(AfterStale(s, m), s2)
    ensures Emptied(q, s2) == Emptied(q, s)
  {
    hide AclsLeft;
    var s1 := AfterStale(s, m);
    if m.stale.Some? && m.stale.value in s.defs {
      StaleAlone(s, m);
      assert s1.defs == map[] by { assert s1.defs.Keys == {}; }
      NoneAdded(s1, s2);
    } else if s.defs == map[] {
      NoneAdded(s1, s2);
    } else {
      AddedStripped(s1, s2);
    }
  }

  lemma NoneAdded(s: State, s2: State)
    requires OnlyAdded(s, s2) && s.defs == map[]
    ensures s2 == s.(entry := s2.entry)
  {
    assert s2.relations == s.relations;
  }

  lemma AddedStripped(s: State, s2: State)
    requires OnlyAdded(s, s2) && Inv(s)
    ensures Stripped(s2, ConvertIdentifier(s.id)) == Stripped(s, ConvertIdentifier(s.id)).(entry := s2.entry)
  {
    hide ConvertIdentifier, LogName, ManifestName, Lower;
    var own := OwnNames(s, ConvertIdentifier(s.id));
    assert own == OwnNames(s2, ConvertIdentifier(s.id));
    assert s2.relations - own == s.relations - own;
  }

  /** A deletion whose relations can all be opened leaves no schema, from whatever state it starts. */
  lemma {:induction false} DeletionDone(q: Queries, s: State, m: Entry)
    requires Sound(q) && Inv(s) && s.entry == Some(m)
    ensures Replay(s, DeletePuts(q, s, m, true)) == Emptied(q, s)
    decreases Open(m)
  {
    hide Inv, Fits, RoundPuts, AclPuts, Journal.Replay, Journal.Crash;
    hide DeletePuts, AclsLeft, Emptied, OnlyAdded, AfterStale;
    PageIsPositive(q);
    var round := RoundPuts(q, s, m);
    var s2, next := Replay(s, round), Next(Cleaned(m), true);
    DeleteSplit(q, s, m, true);
    RoundDone(q, s, m);
    EmptiedLater(q, s, m, s2);
    NextFits(s2, Cleaned(m), true);
    if next.Some? {
      var s3 := Apply(s2, PutEntry(next.value));
      FitsEntry(s2, next.value);
      var rest := DeletePuts(q, s3, next.value, true);
      Journal.ReplayConcat(Apply, s, round, [PutEntry(next.value)] + rest);
      Journal.ReplayConcat(Apply, s2, [PutEntry(next.value)], rest);
      Journal.One(Apply, s2, PutEntry(next.value), 1);
      DeletionDone(q, s3, next.value);
      EmptiedEntry(q, s2, next.value);
    } else {
      NoDefs(s2);
      Journal.ReplayConcat(Apply, s, round, AclPuts(q, s2));
      AclsDone(q, s2);
      EmptiedNow(q, s2);
    }
  }

  lemma EmptiedEntry(q: Queries, s: State, m: Entry)
    requires q.page > 0
    ensures Emptied(q, Apply(s, PutEntry(m))) == Emptied(q, s)
  {
    hide AclsLeft;
  }

  // ----- the clean-up that keeps the schema in use -----

  /** The entry after a round: it is written only when a change of data was pending. */
  lemma RoundEntry(q: Queries, s: State, m: Entry)
    requires Sound(q) && Inv(s) && s.entry == Some(m)
    ensures Replay(s, RoundPuts(q, s, m)).entry == Some(if m.pendingData.Some? then Cleaned(m) else m)
  {
    hide Inv, Fits, StalePuts, Journal.Replay, TakenApart, OpenDrops, Openings;
    var a := StalePuts(q, s, m);
    var s1 := Replay(s, a);
    StaleDone(q, s, m);
    var b := PendingPuts(q, s1, m.(stale := None));
    Journal.ReplayConcat(Apply, s, a, b);
    Journal.Nothing(Apply, s1, [], 0);
    LiveStays(s1, m.(stale := None));
    if b != [] { CrashThree(s1, b[0], b[1], b[2], 3); }
  }

  lemma LiveStays(s: State, m: Entry)
    requires Fits(s, m)
    ensures m.live.Some? ==> m.live.value in s.defs
    ensures m.pendingData.Some? ==> m.live.Some?
  {
  }

  /** A round changes nothing about a schema in use. */
  lemma RoundKeeps(q: Queries, s: State, m: Entry)
    requires Sound(q) && Inv(s) && s.entry == Some(m) && m.live.Some?
    ensures
      var s2 := Replay(s, RoundPuts(q, s, m));
      s2 == s.(entry := s2.entry)
  {
    RoundDone(q, s, m);
    hide RoundPuts, Journal.Replay, LogName, ConvertIdentifier, TakenApart;
    var s2 := Replay(s, RoundPuts(q, s, m));
    assert AfterStale(s, m) == s;
    assert s2.relations == s.relations;
  }

  /**
    Without `deleteCurrent`, a deletion cleans up what is pending and stale, and that only.  A
    schema in use stays, with its relations and its files; otherwise no definition is left.  The
    entry and its access control list stay in any case.
   */
  lemma {:induction false} CleanUpDone(q: Queries, s: State, m: Entry)
    requires Sound(q) && Inv(s) && s.entry == Some(m)
    ensures q.page > 0
    ensures
      var u := Replay(s, DeletePuts(q, s, m, false));
      && Inv(u) && u.entry.Some? && u.acls == s.acls
      && u.entry.value.live == m.live && u.entry.value.offices == m.offices
      && u.entry.value.pending == None && u.entry.value.pendingData == None
      && if m.live.Some? then u == s.(entry := u.entry) else u.defs == map[] && u.cols == map[]
    decreases Open(m)
  {
    hide Inv, Fits, RoundPuts, AclPuts, Journal.Replay, DeletePuts, OnlyAdded, AfterStale;
    PageIsPositive(q);
    var round := RoundPuts(q, s, m);
    var s2, next := Replay(s, round), Next(Cleaned(m), false);
    DeleteSplit(q, s, m, false);
    RoundDone(q, s, m);
    RoundEntry(q, s, m);
    if m.live.Some? { RoundKeeps(q, s, m); }
    NextFits(s2, Cleaned(m), false);
    if next.Some? {
      var s3 := Apply(s2, PutEntry(next.value));
      FitsEntry(s2, next.value);
      var rest := DeletePuts(q, s3, next.value, false);
      Journal.ReplayConcat(Apply, s, round, [PutEntry(next.value)] + rest);
      Journal.ReplayConcat(Apply, s2, [PutEntry(next.value)], rest);
      Journal.One(Apply, s2, PutEntry(next.value), 1);
      CleanUpDone(q, s3, next.value);
    } else {
      assert round + [] == round;
      if m.live.None? { NoneLeft(s2, m); }
    }
  }

  lemma NoneLeft(s: State, m: Entry)
    requires Inv(s) && Fits(s, Cleaned(m)) && m.live.None? && m.pending.None?
    ensures s.defs == map[] && s.cols == map[]
  {
    assert s.defs.Keys == {};
    EmptyCols(s);
  }
}
