/** Any number of operations on attachments, each of them stopped after any number of its writes. */
module BlobRuns {
  import Journal
  import opened Wrappers
  import opened BlobStore
  import opened BlobUploads
  import opened BlobAttachments

  /** One operation that takes identifiers from `next` on and is stopped after `cut` writes. */
  datatype Event = Event(parent: Uri, op: Op, limit: nat, next: nat, cut: nat)

  ghost predicate CanRun(s: State, e: Event) {
    e.limit > 0 && Used(s, e.next)
  }

  ghost function PlanAt(md5: Digest, s: State, e: Event): Plan {
    PlanOf(md5, s, e.parent, e.op, e.next)
  }

  ghost function Stop(md5: Digest, s: State, e: Event): State
    requires e.limit > 0
  {
    Crash(s, Commands(md5, s, PlanAt(md5, s, e), e.limit), e.cut)
  }

  ghost predicate Completes(md5: Digest, s: State, e: Event)
    requires e.limit > 0
  {
    e.cut >= |Commands(md5, s, PlanAt(md5, s, e), e.limit)|
  }

  ghost predicate ValidRun(md5: Digest, s: State, es: seq<Event>)
    decreases |es|
  {
    es == [] || (CanRun(s, es[0]) && ValidRun(md5, Stop(md5, s, es[0]), es[1..]))
  }

  ghost function RunOf(md5: Digest, s: State, es: seq<Event>): State
    requires ValidRun(md5, s, es)
    decreases |es|
  {
    if es == [] then s else RunOf(md5, Stop(md5, s, es[0]), es[1..])
  }

  /** What one event does to the records and to the other contents. */
  ghost predicate Effect(md5: Digest, s: State, e: Event, s': State)
    requires e.limit > 0
  {
    var plan := PlanAt(md5, s, e);
    && s'.contents == RecordsLeft(md5, s.contents, plan, e.cut, |Commands(md5, s, plan, e.limit)|)
    && (plan.Idle? || e.cut == 0 ==> s' == s)
    && (!plan.Idle? ==> OthersSame(s, s', plan.u))
    && (plan.Upload? && Completes(md5, s, e) ==> Holds(md5, s', plan.u, plan.bytes))
  }

  lemma StopHas(md5: Digest, s: State, e: Event)
    requires AllOk(md5, s) && CanRun(s, e)
    ensures Effect(md5, s, e, Stop(md5, s, e)) && Inv(md5, Stop(md5, s, e))
  {
    hide Inv, Used, OthersSame, Holds, PlanOf, Commands, RecordsLeft;
    PlanStops(md5, s, e.parent, e.op, e.limit, e.next, e.cut, Stop(md5, s, e));
  }

  lemma StopKeeps(md5: Digest, s: State, e: Event)
    requires AllOk(md5, s) && CanRun(s, e)
    ensures AllOk(md5, Stop(md5, s, e))
  {
    hide Inv, Used, OthersSame, Holds, PlanOf, Commands, Stop, Joining, SetOk;
    StopHas(md5, s, e);
    var s', plan := Stop(md5, s, e), PlanAt(md5, s, e);
    assert SetOk(s, e.parent);
    PlanJoins(md5, s, e.parent, e.op, e.next);
    if s'.contents == s.contents {
      SetsSame(s, s');
    } else if plan.Upload? && e.cut >= |Commands(md5, s, plan, e.limit)| {
      SameJoining(s, e.parent, plan.u, plan.c, plan.c.(hash := Some(md5(plan.bytes))));
      SetsJoin(md5, s, s', e.parent, plan.u, plan.c.(hash := Some(md5(plan.bytes))));
    } else {
      SetsJoin(md5, s, s', e.parent, plan.u, plan.c);
    }
  }

  lemma SameJoining(s: State, parent: Uri, u: Uri, c: Content, c': Content)
    requires Joining(s, parent, ListOf(s, parent), u, c)
    requires c'.parent == c.parent && c'.ordinal == c.ordinal && c'.path == c.path
    ensures Joining(s, parent, ListOf(s, parent), u, c')
  {
  }

  /**
    After any run of uploads, placeholders and renames, each stopped anywhere: the references of
    every content are numbered 1 to k and resolve, a content with a hash carries bytes of that
    digest and length, and the ordinals of every parent are 1 to n with distinct paths.
   */
  lemma {:induction false} RunsKeepAll(md5: Digest, s: State, es: seq<Event>)
    requires AllOk(md5, s) && ValidRun(md5, s, es)
    ensures AllOk(md5, RunOf(md5, s, es))
    decreases |es|
  {
    hide AllOk, Used, Stop;
    if es != [] {
      StopKeeps(md5, s, es[0]);
      RunsKeepAll(md5, Stop(md5, s, es[0]), es[1..]);
    }
  }

  // ----- outcomes -----

  /** The record at `path`, if there is one. */
  ghost function At(s: State, parent: Uri, path: Option<string>): Option<Uri> {
    Find(s.contents, ListOf(s, parent), path)
  }

  lemma AtIs(s: State, parent: Uri, path: Option<string>, u: Uri)
    requires SetOk(s, parent) && u in s.contents && s.contents[u].parent == parent && s.contents[u].path == path
    ensures At(s, parent, path) == Some(u)
  {
    var list := ListOf(s, parent);
    var v := At(s, parent, path).value;
    var i, j :| 0 <= i < |list| && 0 <= j < |list| && list[i] == u && list[j] == v;
  }

  /** The hash of the record at `path`, if it has one. */
  ghost function HashAt(s: State, parent: Uri, path: Option<string>): Option<string> {
    var at := At(s, parent, path);
    if at.Some? then s.contents[at.value].hash else None
  }

  /** Whether a save writes, and what it answers, by the hash that is stored at its path. */
  lemma SavePlanned(md5: Digest, s: State, e: Event)
    requires SetOk(s, e.parent) && e.op.Save? && e.op.bytes.Some? && e.op.contentType.Some?
    requires Fits(e.op.path, MAX_PATH) && Fits(e.op.contentType, MAX_CONTENT_TYPE)
    ensures
      var stored, sent := HashAt(s, e.parent, e.op.path), Some(md5(e.op.bytes.value));
      var plan := PlanAt(md5, s, e);
      && plan.answer == Saved(
           if stored == None then CompletelyNewFile else if stored == sent then FileUnchanged else NewFileVersion)
      && (plan.Upload? <==> stored == None || (stored != sent && e.op.overwriteOK))
      && (plan.Upload? || plan.Idle?)
      && (plan.Upload? ==>
            && plan.bytes == e.op.bytes.value && plan.c.path == e.op.path && plan.c.parent == e.parent
            && (At(s, e.parent, e.op.path).Some? ==> At(s, e.parent, e.op.path) == Some(plan.u)))
      && (plan.Idle? ==> At(s, e.parent, e.op.path).Some?)
  {
    var at := At(s, e.parent, e.op.path);
    if at.Some? { ListedParent(s, e.parent, at.value); }
  }

  /**
    A save that is not stopped and is not refused leaves, at its path, a record with the digest
    of its bytes; unless that digest was already there, reading gives exactly its bytes.
   */
  lemma SaveIsRead(md5: Digest, s: State, e: Event)
    requires AllOk(md5, s) && CanRun(s, e) && Completes(md5, s, e)
    requires e.op.Save? && e.op.bytes.Some? && e.op.contentType.Some?
    requires Fits(e.op.path, MAX_PATH) && Fits(e.op.contentType, MAX_CONTENT_TYPE)
    ensures
      var stored, sent := HashAt(s, e.parent, e.op.path), Some(md5(e.op.bytes.value));
      var after := At(Stop(md5, s, e), e.parent, e.op.path);
      && PlanAt(md5, s, e).answer == Saved(
           if stored == None then CompletelyNewFile else if stored == sent then FileUnchanged else NewFileVersion)
      && after.Some?
      && if stored == None || (stored != sent && e.op.overwriteOK)
         then Holds(md5, Stop(md5, s, e), after.value, e.op.bytes.value)
         else Stop(md5, s, e) == s
  {
    hide Inv, Used, OthersSame, Holds, ReplaceCommands, Stop, PlanOf, SetOk, HashAt, At;
    StopHas(md5, s, e);
    StopKeeps(md5, s, e);
    var s', plan := Stop(md5, s, e), PlanAt(md5, s, e);
    assert SetOk(s, e.parent) && SetOk(s', e.parent);
    SavePlanned(md5, s, e);
    if plan.Upload? {
      UploadWrites(md5, s, plan, e.limit);
      AtIs(s', e.parent, e.op.path, plan.u);
    }
  }

  /** The record that the save leaves: it keeps its place, and has the content type and the length that were sent. */
  lemma SaveRecords(md5: Digest, s: State, e: Event)
    requires AllOk(md5, s) && CanRun(s, e) && Completes(md5, s, e)
    requires e.op.Save? && e.op.bytes.Some? && e.op.contentType.Some?
    requires Fits(e.op.path, MAX_PATH) && Fits(e.op.contentType, MAX_CONTENT_TYPE)
    requires
      var stored := HashAt(s, e.parent, e.op.path);
      stored == None || (stored != Some(md5(e.op.bytes.value)) && e.op.overwriteOK)
    ensures
      var at, bytes := At(s, e.parent, e.op.path), e.op.bytes.value;
      var u := if at.Some? then at.value else e.next;
      var ordinal := if at.Some? then s.contents[u].ordinal else |ListOf(s, e.parent)| + 1;
      Stop(md5, s, e).contents == s.contents[
        u := Content(e.parent, ordinal, e.op.path, e.op.contentType, Some(|bytes|), Some(md5(bytes)))]
  {
    hide Inv, Used, OthersSame, Holds, ReplaceCommands, Stop, SetOk;
    StopHas(md5, s, e);
    var at, plan := At(s, e.parent, e.op.path), PlanAt(md5, s, e);
    assert SetOk(s, e.parent);
    if at.Some? { ListedParent(s, e.parent, at.value); }
    UploadWrites(md5, s, plan, e.limit);
  }

  /** Which saves fail; nothing is written for them. */
  lemma SaveFailsIff(md5: Digest, s: State, e: Event)
    requires e.limit > 0 && e.op.Save?
    ensures
      var answer, at := PlanAt(md5, s, e).answer, At(s, e.parent, e.op.path);
      var stored := HashAt(s, e.parent, e.op.path);
      var file := e.op.bytes.Some? && e.op.contentType.Some?;
      && (answer == Failed(IllegalArgument) <==> e.op.bytes.Some? != e.op.contentType.Some?)
      && (answer == Failed(Overflow) <==>
            || (at.None? && (file || (e.op.bytes.None? && e.op.contentType.None?))
                && !(Fits(e.op.path, MAX_PATH) && Fits(e.op.contentType, MAX_CONTENT_TYPE)))
            || (at.Some? && file && !Fits(e.op.contentType, MAX_CONTENT_TYPE)
                && (stored == None || (stored != Some(md5(e.op.bytes.value)) && e.op.overwriteOK))))
      && (answer.Failed? ==>
            Stop(md5, s, e) == s && (answer == Failed(IllegalArgument) || answer == Failed(Overflow)))
  {
    var plan := PlanAt(md5, s, e);
    if plan.answer.Failed? {
      hide PlanOf;
      assert plan.Idle? ==> Commands(md5, s, plan, e.limit) == [];
      Journal.Nothing(Apply, s, [], e.cut);
    }
  }

  /** A placeholder is added once: a new record, in the last place, without content type, length and hash. */
  lemma PlaceholderIs(md5: Digest, s: State, e: Event)
    requires AllOk(md5, s) && CanRun(s, e) && Completes(md5, s, e)
    requires e.op.Save? && e.op.bytes.None? && e.op.contentType.None? && Fits(e.op.path, MAX_PATH)
    ensures
      var at, answer, s' := At(s, e.parent, e.op.path), PlanAt(md5, s, e).answer, Stop(md5, s, e);
      if at.Some? then answer == Saved(FileUnchanged) && s' == s
      else
        && answer == Saved(CompletelyNewFile)
        && s' == s.(contents := s.contents[
             e.next := Content(e.parent, |ListOf(s, e.parent)| + 1, e.op.path, None, None, None)])
        && At(s', e.parent, e.op.path) == Some(e.next)
  {
    hide Inv, Used, OthersSame, Holds, ReplaceCommands, SetOk;
    StopKeeps(md5, s, e);
    var plan, s' := PlanAt(md5, s, e), Stop(md5, s, e);
    assert SetOk(s', e.parent);
    if plan.Place? {
      Journal.One(Apply, s, PutContent(plan.u, plan.c), e.cut);
      AtIs(s', e.parent, e.op.path, e.next);
    } else {
      Journal.Nothing(Apply, s, [], e.cut);
    }
  }

  lemma UploadWrites(md5: Digest, s: State, plan: Plan, limit: nat)
    requires limit > 0 && plan.Upload?
    ensures |Commands(md5, s, plan, limit)| >= 2
  {
  }

  /** Whether a rename writes, and what it answers, by the records at its paths. */
  lemma RenamePlanned(md5: Digest, s: State, e: Event)
    requires SetOk(s, e.parent) && e.op.Rename? && e.op.src != e.op.dest && Fits(e.op.dest, MAX_PATH)
    ensures
      var from, to := At(s, e.parent, e.op.src), At(s, e.parent, e.op.dest);
      var plan := PlanAt(md5, s, e);
      && plan.answer == Renamed(from.None? || to.None?)
      && (if from.Some? && to.None? then
            && plan.Place? && plan.u == from.value && plan.u in s.contents && s.contents[plan.u].parent == e.parent
            && plan.c == s.contents[plan.u].(path := e.op.dest)
          else plan.Idle?)
  {
    var from := At(s, e.parent, e.op.src);
    if from.Some? { ListedParent(s, e.parent, from.value); }
  }

  /**
    A rename is refused just when both paths are taken, and does nothing if the old path is not.
    Otherwise the record and its bytes are found under the new path, at once, and under the old
    path there is nothing any more.
   */
  lemma RenameMoves(md5: Digest, s: State, e: Event)
    requires AllOk(md5, s) && CanRun(s, e)
    requires e.op.Rename? && e.op.src != e.op.dest && Fits(e.op.dest, MAX_PATH)
    ensures
      var from, to := At(s, e.parent, e.op.src), At(s, e.parent, e.op.dest);
      var answer, s' := PlanAt(md5, s, e).answer, Stop(md5, s, e);
      && (answer == Renamed(false) <==> from.Some? && to.Some?)
      && (answer != Renamed(false) ==> answer == Renamed(true))
      && (from.None? || to.Some? || e.cut == 0 ==> s' == s)
      && (from.Some? && to.None? && e.cut > 0 ==>
            && At(s', e.parent, e.op.src) == None && At(s', e.parent, e.op.dest) == from
            && s'.contents == s.contents[from.value := s.contents[from.value].(path := e.op.dest)]
            && forall parts, bytes :: Reads(s, from.value, parts, bytes) ==> Reads(s', from.value, parts, bytes))
  {
    hide Inv, Used, OthersSame, Holds, Reads, Stop, PlanOf, SetOk, At;
    StopHas(md5, s, e);
    StopKeeps(md5, s, e);
    var s', plan := Stop(md5, s, e), PlanAt(md5, s, e);
    assert SetOk(s, e.parent) && SetOk(s', e.parent);
    RenamePlanned(md5, s, e);
    if plan.Place? && e.cut > 0 {
      AtIs(s', e.parent, e.op.dest, plan.u);
      OnlyAt(s, e.parent, e.op.src, plan.u);
      NotAt(s', e.parent, e.op.src);
      PlacedReads(md5, s, e);
    }
  }

  /** A rename fails just when it would move a record to a path that is too long; then nothing is written. */
  lemma RenameFailsIff(md5: Digest, s: State, e: Event)
    requires e.limit > 0 && e.op.Rename?
    ensures
      var from, to := At(s, e.parent, e.op.src), At(s, e.parent, e.op.dest);
      var answer := PlanAt(md5, s, e).answer;
      && (answer.Failed? <==> e.op.src != e.op.dest && from.Some? && to.None? && !Fits(e.op.dest, MAX_PATH))
      && (answer.Failed? ==> answer == Failed(Overflow) && Stop(md5, s, e) == s)
      && (e.op.src == e.op.dest ==> answer == Renamed(true) && Stop(md5, s, e) == s)
  {
    var plan := PlanAt(md5, s, e);
    if plan.Idle? {
      hide PlanOf;
      assert Commands(md5, s, plan, e.limit) == [];
      Journal.Nothing(Apply, s, [], e.cut);
    }
  }

  lemma OnlyAt(s: State, parent: Uri, path: Option<string>, u: Uri)
    requires SetOk(s, parent) && At(s, parent, path) == Some(u)
    ensures forall v :: v in s.contents && s.contents[v].parent == parent && s.contents[v].path == path ==> v == u
  {
    forall v | v in s.contents && s.contents[v].parent == parent && s.contents[v].path == path ensures v == u {
      AtIs(s, parent, path, v);
    }
  }

  lemma NotAt(s: State, parent: Uri, path: Option<string>)
    requires SetOk(s, parent)
    requires forall v :: v in s.contents && s.contents[v].parent == parent ==> s.contents[v].path != path
    ensures At(s, parent, path) == None
  {
    var u := At(s, parent, path);
    if u.Some? { ListedParent(s, parent, u.value); }
  }

  lemma PlacedReads(md5: Digest, s: State, e: Event)
    requires AllOk(md5, s) && CanRun(s, e) && e.cut > 0
    requires var plan := PlanAt(md5, s, e); plan.Place? && plan.u in s.contents
    ensures
      var plan := PlanAt(md5, s, e);
      forall parts, bytes :: Reads(s, plan.u, parts, bytes) ==> Reads(Stop(md5, s, e), plan.u, parts, bytes)
  {
    hide Inv, Used, OthersSame, Reads, PlanOf, PartsOf, Joining;
    var plan := PlanAt(md5, s, e);
    assert SetOk(s, e.parent);
    PlanJoins(md5, s, e.parent, e.op, e.next);
    PartsOfListed(md5, s, plan.u, e.next);
    PlaceKeeps(md5, s, plan.u, plan.c, Apply(s, PutContent(plan.u, plan.c)));
    Journal.One(Apply, s, PutContent(plan.u, plan.c), e.cut);
  }

  // ----- trying again -----

  predicate CompleteAt(contents: map<Uri, Content>, u: Uri, parent: Uri, path: Option<string>) {
    && u in contents && contents[u].parent == parent && contents[u].path == path && contents[u].hash.Some?
  }

  /** Whatever is complete at `path` has exactly the bytes `bytes`, or, if `over`, another digest than theirs. */
  ghost predicate Awaits(md5: Digest, s: State, parent: Uri, path: Option<string>, bytes: Bytes, over: bool) {
    forall u :: CompleteAt(s.contents, u, parent, path) ==>
      Holds(md5, s, u, bytes) || (over && s.contents[u].hash != Some(md5(bytes)))
  }

  /** The event saves these bytes at this path, adds its placeholder, or does not concern the path. */
  predicate Tries(e: Event, parent: Uri, path: Option<string>, bytes: Bytes) {
    || e.parent != parent
    || match e.op
       case Save(data, _, p, _) => p != path || data == None || data == Some(bytes)
       case Rename(src, dest) => src != path && dest != path
  }

  lemma HoldsOn(md5: Digest, s: State, s': State, u: Uri, v: Uri, bytes: Bytes)
    requires Inv(md5, s) && Inv(md5, s') && OthersSame(s, s', u) && v != u && Holds(md5, s, v, bytes)
    ensures Holds(md5, s', v, bytes)
  {
    hide Inv, OthersSame, Reads;
    OthersUntouched(md5, s, s', u, v);
    var parts :| Reads(s, v, parts, bytes);
    assert Reads(s', v, parts, bytes);
  }

  lemma PlanOnPath(md5: Digest, s: State, e: Event, path: Option<string>, bytes: Bytes)
    requires AllOk(md5, s) && CanRun(s, e) && Tries(e, e.parent, path, bytes)
    ensures
      var plan := PlanAt(md5, s, e);
      !plan.Idle? && plan.c.path == path ==>
        if plan.Upload? then plan.bytes == bytes else plan.c.hash == None
  {
    hide Inv, Used, SetOk;
    match e.op {
      case Save(_, _, _, _) =>
      case Rename(_, _) =>
    }
  }

  lemma TryKeeps(md5: Digest, s: State, e: Event, parent: Uri, path: Option<string>, bytes: Bytes, over: bool)
    requires AllOk(md5, s) && CanRun(s, e)
    requires Awaits(md5, s, parent, path, bytes, over) && Tries(e, parent, path, bytes)
    ensures Awaits(md5, Stop(md5, s, e), parent, path, bytes, over)
  {
    hide Inv, Used, OthersSame, Holds, PlanOf, Commands, Stop, SetOk, Tries;
    StopHas(md5, s, e);
    var s', plan := Stop(md5, s, e), PlanAt(md5, s, e);
    if plan.Idle? || e.cut == 0 { return; }
    assert SetOk(s, e.parent);
    PlanJoins(md5, s, e.parent, e.op, e.next);
    forall u | CompleteAt(s'.contents, u, parent, path)
      ensures Holds(md5, s', u, bytes) || (over && s'.contents[u].hash != Some(md5(bytes)))
    {
      if u != plan.u {
        assert CompleteAt(s.contents, u, parent, path);
        if Holds(md5, s, u, bytes) { HoldsOn(md5, s, s', plan.u, u, bytes); }
      } else {
        PlanOnPath(md5, s, e, path, bytes);
      }
    }
  }

  lemma {:induction false} TriesKeep(
      md5: Digest, s: State, es: seq<Event>, parent: Uri, path: Option<string>, bytes: Bytes, over: bool)
    requires AllOk(md5, s) && ValidRun(md5, s, es)
    requires Awaits(md5, s, parent, path, bytes, over) && forall e :: e in es ==> Tries(e, parent, path, bytes)
    ensures AllOk(md5, RunOf(md5, s, es)) && Awaits(md5, RunOf(md5, s, es), parent, path, bytes, over)
    decreases |es|
  {
    hide AllOk, Used, Stop, Awaits, Tries;
    if es != [] {
      assert es[0] in es;
      StopKeeps(md5, s, es[0]);
      TryKeeps(md5, s, es[0], parent, path, bytes, over);
      TriesKeep(md5, Stop(md5, s, es[0]), es[1..], parent, path, bytes, over);
    }
  }

  /**
    Nothing complete is stored at a path, or an older version with another digest that may be
    overwritten.  Then any number of attempts to save the same bytes there are made, each stopped
    anywhere, among operations on other paths.  A save of these bytes that is not stopped then
    succeeds, and reading gives exactly these bytes.
   */
  lemma RetrySucceeds(md5: Digest, s: State, es: seq<Event>, e: Event)
    requires AllOk(md5, s) && ValidRun(md5, s, es)
    requires e.op.Save? && e.op.bytes.Some? && e.op.contentType.Some?
    requires Fits(e.op.path, MAX_PATH) && Fits(e.op.contentType, MAX_CONTENT_TYPE)
    requires forall u :: CompleteAt(s.contents, u, e.parent, e.op.path) ==>
      e.op.overwriteOK && s.contents[u].hash != Some(md5(e.op.bytes.value))
    requires forall f :: f in es ==> Tries(f, e.parent, e.op.path, e.op.bytes.value)
    requires CanRun(RunOf(md5, s, es), e) && Completes(md5, RunOf(md5, s, es), e)
    ensures
      var t := RunOf(md5, s, es);
      var after := At(Stop(md5, t, e), e.parent, e.op.path);
      && PlanAt(md5, t, e).answer.Saved?
      && (PlanAt(md5, t, e).answer == Saved(NewFileVersion) ==> e.op.overwriteOK)
      && after.Some? && Holds(md5, Stop(md5, t, e), after.value, e.op.bytes.value)
  {
    hide Inv, CanRun, Completes, Holds, PlanOf, Stop, ValidRun, RunOf;
    var t, bytes := RunOf(md5, s, es), e.op.bytes.value;
    TriesKeep(md5, s, es, e.parent, e.op.path, bytes, e.op.overwriteOK);
    SaveIsRead(md5, t, e);
    var before := At(t, e.parent, e.op.path);
    if before.Some? && t.contents[before.value].hash.Some? {
      assert t.contents[before.value].parent == e.parent by { ListedParent(t, e.parent, before.value); }
      assert CompleteAt(t.contents, before.value, e.parent, e.op.path);
      if Holds(md5, t, before.value, bytes) { HoldsHash(md5, t, before.value, bytes); }
    }
  }

  lemma ListedParent(s: State, parent: Uri, u: Uri)
    requires SetOk(s, parent) && u in ListOf(s, parent)
    ensures s.contents[u].parent == parent
  {
    var list := ListOf(s, parent);
    var i :| 0 <= i < |list| && list[i] == u;
  }

  lemma HoldsHash(md5: Digest, s: State, u: Uri, bytes: Bytes)
    requires Holds(md5, s, u, bytes)
    ensures s.contents[u].hash == Some(md5(bytes))
  {
  }
}
