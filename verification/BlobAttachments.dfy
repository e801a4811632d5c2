/** The attachments of one parent: uploads, placeholders and renames over whole runs. */
module BlobAttachments {
  import Journal
  import opened Wrappers
  import opened BlobStore
  import opened BlobSteps
  import opened BlobUploads

  const MAX_PATH := 4096
  const MAX_CONTENT_TYPE := 80

  datatype Outcome = FileUnchanged | NewFileVersion | CompletelyNewFile

  datatype Error = EnumeratedElement | MissingPart | MissingAttachment | IllegalArgument | Overflow | NotDeleted

  datatype Op =
    | Save(bytes: Option<Bytes>, contentType: Option<string>, path: Option<string>, overwriteOK: bool)
    | Rename(src: Option<string>, dest: Option<string>)

  /** `list` holds the records of `parent`: their ordinals are 1, 2, and so on, and their paths differ. */
  ghost predicate Attached(s: State, parent: Uri, list: seq<Uri>) {
    && (forall i :: 0 <= i < |list| ==>
          list[i] in s.contents && s.contents[list[i]].parent == parent && s.contents[list[i]].ordinal == i + 1)
    && (forall u :: u in s.contents && s.contents[u].parent == parent ==> u in list)
    && (forall i, j :: 0 <= i < j < |list| && list[i] in s.contents && list[j] in s.contents ==>
          s.contents[list[i]].path != s.contents[list[j]].path)
  }

  ghost predicate SetOk(s: State, parent: Uri) {
    exists list :: Attached(s, parent, list)
  }

  /** What holds of the stored state between any two writes. */
  ghost predicate AllOk(md5: Digest, s: State) {
    Inv(md5, s) && forall parent :: SetOk(s, parent)
  }

  const EMPTY: State := State(map[], map[], map[])

  /** An empty store is one that runs may start from. */
  lemma EmptyOk(md5: Digest)
    ensures AllOk(md5, EMPTY) && Used(EMPTY, 0)
  {
    forall parent ensures SetOk(EMPTY, parent) {
      assert Attached(EMPTY, parent, []);
    }
  }

  ghost function ListOf(s: State, parent: Uri): (list: seq<Uri>)
    ensures SetOk(s, parent) ==> Attached(s, parent, list)
    ensures forall v :: v in list ==> v in s.contents
  {
    if SetOk(s, parent) then var list :| Attached(s, parent, list); list else []
  }

  ghost function PartsOf(s: State, u: Uri): (parts: seq<Uri>)
    ensures Readable(s, parts)
  {
    if exists l :: Lists(s, u, l) && Readable(s, l) then var l :| Lists(s, u, l) && Readable(s, l); l else []
  }

  lemma PartsOfIs(s: State, u: Uri, l: seq<Uri>)
    requires Lists(s, u, l) && Readable(s, l)
    ensures PartsOf(s, u) == l
  {
    OneListing(s, u, l, PartsOf(s, u));
  }

  lemma ListOfIs(s: State, parent: Uri, list: seq<Uri>)
    requires Attached(s, parent, list)
    ensures ListOf(s, parent) == list
  {
    AttachedFits(s, parent, list, ListOf(s, parent));
    AttachedFits(s, parent, ListOf(s, parent), list);
  }

  lemma AttachedFits(s: State, parent: Uri, a: seq<Uri>, b: seq<Uri>)
    requires Attached(s, parent, a) && Attached(s, parent, b)
    ensures |a| <= |b| && forall i :: 0 <= i < |a| ==> a[i] == b[i]
  {
    forall i | 0 <= i < |a| ensures i < |b| && a[i] == b[i] {
      var j :| 0 <= j < |b| && b[j] == a[i];
    }
    if a != [] { assert a[|a| - 1] == b[|a| - 1]; }
  }

  function Find(contents: map<Uri, Content>, list: seq<Uri>, path: Option<string>): (u: Option<Uri>)
    requires forall v :: v in list ==> v in contents
    ensures u.Some? ==> u.value in list && contents[u.value].path == path
    ensures u.None? ==> forall v :: v in list ==> contents[v].path != path
  {
    if list == [] then None
    else if contents[list[0]].path == path then Some(list[0])
    else Find(contents, list[1..], path)
  }

  // ----- what one operation writes -----

  datatype Answer = Saved(outcome: Outcome) | Renamed(done: bool) | Failed(error: Error)

  /** Nothing, one write of a record, or an upload whose parts take the identifiers from `first` on. */
  datatype Plan =
    | Idle(answer: Answer)
    | Place(u: Uri, c: Content, answer: Answer)
    | Upload(u: Uri, c: Content, bytes: Bytes, first: nat, answer: Answer)

  predicate Fits(value: Option<string>, max: nat) {
    value.None? || |value.value| <= max
  }

  function PlanSave(
      md5: Digest, contents: map<Uri, Content>, list: seq<Uri>, parent: Uri, bytes: Option<Bytes>,
      contentType: Option<string>, path: Option<string>, overwriteOK: bool, next: nat): Plan
    requires forall v :: v in list ==> v in contents
  {
    var matched := Find(contents, list, path);
    var added := Content(parent, |list| + 1, path, None, None, None);
    match (bytes, contentType)
    case (None, None) =>
      if matched.Some? then Idle(Saved(FileUnchanged))
      else if !Fits(path, MAX_PATH) then Idle(Failed(Overflow))
      else Place(next, added, Saved(CompletelyNewFile))
    case (Some(data), Some(_)) =>
      var prior := if matched.Some? then contents[matched.value] else added;
      var c := prior.(contentType := contentType, length := Some(|data|), hash := None);
      if matched.None? then
        if !Fits(path, MAX_PATH) || !Fits(contentType, MAX_CONTENT_TYPE) then Idle(Failed(Overflow))
        else Upload(next, c, data, next + 1, Saved(CompletelyNewFile))
      else if prior.hash == Some(md5(data)) then Idle(Saved(FileUnchanged))
      else if prior.hash.Some? && !overwriteOK then Idle(Saved(NewFileVersion))
      else if !Fits(contentType, MAX_CONTENT_TYPE) then Idle(Failed(Overflow))
      else Upload(matched.value, c, data, next, Saved(if prior.hash.Some? then NewFileVersion else CompletelyNewFile))
    case _ => Idle(Failed(IllegalArgument))
  }

  function PlanRename(
      contents: map<Uri, Content>, list: seq<Uri>, src: Option<string>, dest: Option<string>): Plan
    requires forall v :: v in list ==> v in contents
  {
    var from, to := Find(contents, list, src), Find(contents, list, dest);
    if src == dest then Idle(Renamed(true))
    else if from.None? then Idle(Renamed(true))
    else if to.Some? then Idle(Renamed(false))
    else if !Fits(dest, MAX_PATH) then Idle(Failed(Overflow))
    else Place(from.value, contents[from.value].(path := dest), Renamed(true))
  }

  ghost function PlanOf(md5: Digest, s: State, parent: Uri, op: Op, next: nat): Plan {
    var list := ListOf(s, parent);
    match op
    case Save(bytes, contentType, path, overwriteOK) =>
      PlanSave(md5, s.contents, list, parent, bytes, contentType, path, overwriteOK, next)
    case Rename(src, dest) => PlanRename(s.contents, list, src, dest)
  }

  ghost function Commands(md5: Digest, s: State, plan: Plan, limit: nat): seq<Put>
    requires limit > 0
  {
    match plan
    case Idle(_) => []
    case Place(u, c, _) => [PutContent(u, c)]
    case Upload(u, c, bytes, first, _) =>
      ReplaceCommands(md5, s, u, c, PartsOf(s, u), bytes, limit, first)
  }

  /** Identifiers from here on are still new after the operation. */
  function Later(plan: Plan, limit: nat, next: nat): nat
    requires limit > 0
  {
    match plan
    case Idle(_) => next
    case Place(u, _, _) => if u < next then next else next + 1
    case Upload(_, _, bytes, first, _) => first + 2 * |Chunks(bytes, limit)|
  }

  // ----- the attachment set -----

  /** The record `c` of `u` takes its place among the records `list` of its parent. */
  ghost predicate Joining(s: State, parent: Uri, list: seq<Uri>, u: Uri, c: Content) {
    && Attached(s, parent, list) && c.parent == parent
    && (forall v :: v in list && v in s.contents && v != u ==> s.contents[v].path != c.path)
    && (if u in list && u in s.contents then c.ordinal == s.contents[u].ordinal
        else u !in s.contents && c.ordinal == |list| + 1)
  }

  lemma PlanJoins(md5: Digest, s: State, parent: Uri, op: Op, next: nat)
    requires SetOk(s, parent) && Used(s, next)
    ensures
      var plan := PlanOf(md5, s, parent, op, next);
      && (!plan.Idle? ==> Joining(s, parent, ListOf(s, parent), plan.u, plan.c))
      && (!plan.Idle? ==> plan.u in s.contents || plan.u == next)
      && (plan.Upload? ==> plan.c.hash == None && plan.c.length == Some(|plan.bytes|)
                           && next <= plan.first && plan.u < plan.first)
      && (plan.Place? && plan.u in s.contents ==> plan.c == s.contents[plan.u].(path := plan.c.path))
      && (plan.Place? && plan.u !in s.contents ==> plan.c.hash == None)
  {
    hide SetOk;
    var list := ListOf(s, parent);
    var plan := PlanOf(md5, s, parent, op, next);
    if !plan.Idle? && plan.u in s.contents {
      var i :| 0 <= i < |list| && list[i] == plan.u;
      forall v | v in list && v != plan.u ensures s.contents[v].path != plan.c.path {
        var j :| 0 <= j < |list| && list[j] == v;
      }
    }
  }

  lemma JoinedSet(s: State, s': State, parent: Uri, list: seq<Uri>, u: Uri, c: Content)
    requires Joining(s, parent, list, u, c) && s'.contents == s.contents[u := c]
    ensures Attached(s', parent, if u in list then list else list + [u])
  {
    var list' := if u in list then list else list + [u];
    forall i, j | 0 <= i < j < |list'| ensures s'.contents[list'[i]].path != s'.contents[list'[j]].path {
      assert list'[i] == u || list'[i] in list;
      assert list'[j] == u || list'[j] in list;
    }
  }

  lemma OtherSet(s: State, s': State, u: Uri, c: Content, p: Uri)
    requires SetOk(s, p) && s'.contents == s.contents[u := c] && c.parent != p
    requires u in s.contents ==> s.contents[u].parent != p
    ensures SetOk(s', p)
  {
    var list := ListOf(s, p);
    assert Attached(s', p, list);
  }

  lemma SetsJoin(md5: Digest, s: State, s': State, parent: Uri, u: Uri, c: Content)
    requires AllOk(md5, s) && Joining(s, parent, ListOf(s, parent), u, c)
    requires s'.contents == s.contents[u := c]
    ensures forall p :: SetOk(s', p)
  {
    JoinedSet(s, s', parent, ListOf(s, parent), u, c);
    forall p ensures SetOk(s', p) {
      if p != parent { OtherSet(s, s', u, c, p); }
    }
  }

  lemma SetsSame(s: State, s': State)
    requires s'.contents == s.contents && forall p :: SetOk(s, p)
    ensures forall p :: SetOk(s', p)
  {
    forall p ensures SetOk(s', p) {
      assert Attached(s', p, ListOf(s, p));
    }
  }

  // ----- one operation, stopped anywhere -----

  /** The record of `u` and the bytes it carries are the same in both states. */
  ghost predicate Untouched(s: State, s': State, u: Uri) {
    && (u in s.contents <==> u in s'.contents)
    && (u in s.contents && u in s'.contents ==> s.contents[u] == s'.contents[u])
    && forall parts, bytes :: Reads(s, u, parts, bytes) ==> Reads(s', u, parts, bytes)
  }

  lemma OthersUntouched(md5: Digest, s: State, s': State, u: Uri, v: Uri)
    requires Inv(md5, s) && Inv(md5, s') && OthersSame(s, s', u) && v != u && v in s.contents
    ensures Untouched(s, s', v)
  {
    assert v in s.contents - {u} && v in s'.contents - {u};
    forall parts, bytes | Reads(s, v, parts, bytes) ensures Reads(s', v, parts, bytes) {
      var l :| PartsOk(md5, s, v, l);
      OneListing(s, v, l, parts);
      OtherKept(md5, s, s', u, v, parts);
    }
  }

  lemma ListedNew(s: State, next: nat, u: Uri)
    requires Used(s, next) && u >= next
    ensures Lists(s, u, []) && Readable(s, [])
  {
  }

  lemma PartsOfListed(md5: Digest, s: State, u: Uri, next: nat)
    requires Inv(md5, s) && Used(s, next) && (u in s.contents || u >= next)
    ensures Lists(s, u, PartsOf(s, u))
  {
    if u in s.contents {
      var l :| PartsOk(md5, s, u, l);
      PartsOfIs(s, u, l);
    } else {
      ListedNew(s, next, u);
      PartsOfIs(s, u, []);
    }
  }

  /** One write of a record that keeps its hash and length, or of a new record without a hash. */
  lemma PlaceKeeps(md5: Digest, s: State, u: Uri, c: Content, s': State)
    requires Inv(md5, s) && Lists(s, u, PartsOf(s, u)) && s' == Apply(s, PutContent(u, c))
    requires if u in s.contents then c == s.contents[u].(path := c.path) else c.hash == None
    ensures Inv(md5, s') && OthersSame(s, s', u)
    ensures forall parts, bytes :: Reads(s, u, parts, bytes) ==> Reads(s', u, parts, bytes)
  {
    PlacedParts(md5, s, u, c, s');
    hide Resolves, PartsOk, Lists, OthersSame;
    InvKept(md5, s, s', u);
    forall l, bytes | Reads(s, u, l, bytes) ensures Reads(s', u, l, bytes) {
      SameReads(s, s', u, l, bytes);
    }
  }

  lemma PlacedParts(md5: Digest, s: State, u: Uri, c: Content, s': State)
    requires Inv(md5, s) && Lists(s, u, PartsOf(s, u)) && s' == Apply(s, PutContent(u, c))
    requires if u in s.contents then c == s.contents[u].(path := c.path) else c.hash == None
    ensures Resolves(s') && OthersSame(s, s', u) && PartsOk(md5, s', u, PartsOf(s, u))
  {
    var parts := PartsOf(s, u);
    RecordPut(s, u, c);
    if u in s.contents {
      var l :| PartsOk(md5, s, u, l);
      OneListing(s, u, l, parts);
    }
    hide Inv, PartsOf, Resolves, OthersSame;
    SamePartsListed(s, s', u, parts);
    JoinedSame(s, s', parts);
  }

  lemma SamePartsListed(s: State, s': State, u: Uri, parts: seq<Uri>)
    requires s'.refs == s.refs && s'.blobs == s.blobs && Lists(s, u, parts)
    ensures Lists(s', u, parts) && (forall r :: SamePart(s, s', r))
  {
  }

  /** Reading looks at the references and the parts only. */
  lemma SameReads(s: State, s': State, u: Uri, parts: seq<Uri>, bytes: Bytes)
    requires s'.refs == s.refs && s'.blobs == s.blobs && Reads(s, u, parts, bytes)
    ensures Reads(s', u, parts, bytes)
  {
    JoinedSame(s, s', parts);
  }

  /** What one operation, stopped after `k` writes, leaves of the records. */
  function RecordsLeft(md5: Digest, contents: map<Uri, Content>, plan: Plan, k: nat, n: nat): map<Uri, Content> {
    match plan
    case Idle(_) => contents
    case Place(u, c, _) => if k == 0 then contents else contents[u := c]
    case Upload(u, c, bytes, _, _) => RecordsAt(contents, u, c, md5(bytes), k, n)
  }

  lemma PlanStops(md5: Digest, s: State, parent: Uri, op: Op, limit: nat, next: nat, k: nat, s': State)
    requires limit > 0 && AllOk(md5, s) && Used(s, next)
    requires s' == Crash(s, Commands(md5, s, PlanOf(md5, s, parent, op, next), limit), k)
    ensures
      var plan := PlanOf(md5, s, parent, op, next);
      var n := |Commands(md5, s, plan, limit)|;
      && Inv(md5, s') && Used(s', Later(plan, limit, next))
      && s'.contents == RecordsLeft(md5, s.contents, plan, k, n)
      && (plan.Idle? ==> s' == s)
      && (!plan.Idle? ==> OthersSame(s, s', plan.u))
      && (plan.Upload? && k >= n ==> Holds(md5, s', plan.u, plan.bytes))
  {
    hide Inv, Used, OthersSame, Holds, PlanOf, RecordsAt, Chunks, ReplaceCommands, PartsOf;
    var plan := PlanOf(md5, s, parent, op, next);
    assert SetOk(s, parent);
    PlanJoins(md5, s, parent, op, next);
    match plan
    case Idle(_) =>
    case Place(u, c, _) =>
      PartsOfListed(md5, s, u, next);
      Journal.One(Apply, s, PutContent(u, c), k);
      OthersSameSelf(s, u);
      UsedMore(s, next, Later(plan, limit, next));
      PlaceKeeps(md5, s, u, c, Apply(s, PutContent(u, c)));
      StartUsed(s, u, c, Later(plan, limit, next));
    case Upload(u, c, bytes, first, _) =>
      PartsOfListed(md5, s, u, next);
      UsedMore(s, next, first);
      UploadStopsSafely(md5, s, u, c, PartsOf(s, u), bytes, limit, first, k, s');
  }
}
