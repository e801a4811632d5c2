/** The files attached to one row: a file, once stored under a path, is never written again. */
module InstanceFiles {
  import RowStore
  import Journal
  import opened Wrappers
  import opened BlobStore
  import opened BlobUploads
  import opened BlobAttachments
  import opened BlobRuns
  import opened BlobEntities
  import opened BinaryContentManipulator

  /** One file sent for a row; `hash` is the digest that the sender states. */
  datatype FileContentInfo =
    FileContentInfo(path: string, contentType: Option<string>, hash: string, blob: Option<Bytes>)

  datatype Change = FilePresent | FileIncompatible

  function SaveOnce(fi: FileContentInfo): Op {
    Save(fi.blob, fi.contentType, Some(fi.path), false)
  }

  /** Only a path that no record has is written to. */
  ghost function PlanPut(md5: Digest, s: State, parent: Uri, fi: FileContentInfo, next: nat): Plan {
    var at := At(s, parent, Some(fi.path));
    if at.Some? then
      Idle(Saved(if s.contents[at.value].hash == Some(fi.hash) then FileUnchanged else NewFileVersion))
    else PlanOf(md5, s, parent, SaveOnce(fi), next)
  }

  function AnswerOf(answer: Answer): Result<Change, Error> {
    match answer
    case Failed(e) => Err(e)
    case Saved(NewFileVersion) => Ok(FileIncompatible)
    case _ => Ok(FilePresent)
  }

  // ----- one file, stopped anywhere -----

  lemma PutStops(md5: Digest, s: State, parent: Uri, fi: FileContentInfo, limit: nat, next: nat, k: nat)
    requires AllOk(md5, s) && limit > 0 && Used(s, next)
    ensures
      var s' := Crash(s, Commands(md5, s, PlanPut(md5, s, parent, fi, next), limit), k);
      AllOk(md5, s') && forall v :: v in s.contents ==> Untouched(s, s', v)
  {
    hide Inv, Used, OthersSame, Holds, PlanOf, Commands, Joining, SetOk;
    var f := Event(parent, SaveOnce(fi), limit, next, k);
    var plan := PlanPut(md5, s, parent, fi, next);
    var s' := Crash(s, Commands(md5, s, plan, limit), k);
    if At(s, parent, Some(fi.path)).None? {
      assert s' == Stop(md5, s, f);
      StopHas(md5, s, f);
      StopKeeps(md5, s, f);
      if !plan.Idle? {
        NewRecord(md5, s, parent, fi, next);
        forall v | v in s.contents ensures Untouched(s, s', v) {
          OthersUntouched(md5, s, s', plan.u, v);
        }
      }
    } else {
      NoCommands(md5, s, plan, limit, k);
    }
  }

  lemma NoCommands(md5: Digest, s: State, plan: Plan, limit: nat, k: nat)
    requires plan.Idle? && limit > 0
    ensures Commands(md5, s, plan, limit) == []
    ensures Crash(s, Commands(md5, s, plan, limit), k) == s == Replay(s, Commands(md5, s, plan, limit))
  {
  }

  /** A path without a record is given a new one. */
  lemma NewRecord(md5: Digest, s: State, parent: Uri, fi: FileContentInfo, next: nat)
    requires AllOk(md5, s) && Used(s, next) && At(s, parent, Some(fi.path)).None?
    ensures
      var plan := PlanPut(md5, s, parent, fi, next);
      !plan.Idle? ==>
        && plan.u !in s.contents && plan.c.parent == parent && plan.c.path == Some(fi.path)
        && (plan.Place? ==> plan.c.hash == None)
        && (plan.Upload? <==> fi.blob.Some?) && (plan.Upload? ==> plan.bytes == fi.blob.value)
  {
  }

  lemma PutEnds(md5: Digest, s: State, parent: Uri, fi: FileContentInfo, limit: nat, next: nat)
    requires AllOk(md5, s) && limit > 0 && Used(s, next)
    ensures
      var plan := PlanPut(md5, s, parent, fi, next);
      var s' := Replay(s, Commands(md5, s, plan, limit));
      && AllOk(md5, s') && Used(s', Later(plan, limit, next))
      && forall v :: v in s.contents ==> Untouched(s, s', v)
  {
    hide Inv, Used, Untouched, PlanOf, Commands, Joining, SetOk;
    var plan := PlanPut(md5, s, parent, fi, next);
    var ps := Commands(md5, s, plan, limit);
    Journal.CrashAll(Apply, s, ps, |ps|);
    PutStops(md5, s, parent, fi, limit, next, |ps|);
    if At(s, parent, Some(fi.path)).None? {
      PlanEnds(md5, s, parent, SaveOnce(fi), limit, next, Replay(s, ps));
    } else {
      NoCommands(md5, s, plan, limit, 0);
    }
  }

  /** The hash that makes a file count as present: the stated one if the path is taken, or that of its bytes. */
  ghost function Expected(md5: Digest, s: State, parent: Uri, fi: FileContentInfo): Option<string> {
    if At(s, parent, Some(fi.path)).Some? then Some(fi.hash)
    else if fi.blob.Some? then Some(md5(fi.blob.value))
    else None
  }

  /** In `s'` there is a record at the path, and it has that hash. */
  ghost predicate FoundAs(s': State, parent: Uri, path: string, hash: Option<string>) {
    var at := At(s', parent, Some(path));
    at.Some? && s'.contents[at.value].hash == hash
  }

  /**
    A file is answered as present just when the state that is left has a record at its path with
    the hash that is expected there; if the path was new, reading that record gives its bytes.
   */
  lemma PresentIff(md5: Digest, s: State, parent: Uri, fi: FileContentInfo, limit: nat, next: nat)
    requires AllOk(md5, s) && limit > 0 && Used(s, next)
    ensures
      var plan := PlanPut(md5, s, parent, fi, next);
      var s', path := Replay(s, Commands(md5, s, plan, limit)), Some(fi.path);
      && (AnswerOf(plan.answer) == Ok(FilePresent) <==> FoundAs(s', parent, fi.path, Expected(md5, s, parent, fi)))
      && (AnswerOf(plan.answer) == Ok(FilePresent) && At(s, parent, path).None? && fi.blob.Some? ==>
            At(s', parent, path).Some? && Holds(md5, s', At(s', parent, path).value, fi.blob.value))
  {
    hide Inv, Used, PlanOf, Commands, Joining, Holds, SetOk, At, OthersSame;
    var plan := PlanPut(md5, s, parent, fi, next);
    var ps := Commands(md5, s, plan, limit);
    var s', path := Replay(s, ps), Some(fi.path);
    if At(s, parent, path).None? {
      NewAnswer(md5, s, parent, fi, next);
      NewRecord(md5, s, parent, fi, next);
      PlanEnds(md5, s, parent, SaveOnce(fi), limit, next, s');
      if !plan.Idle? {
        assert SetOk(s', parent);
        AtIs(s', parent, path, plan.u);
        Journal.CrashAll(Apply, s, ps, |ps|);
        PlanStops(md5, s, parent, SaveOnce(fi), limit, next, |ps|, s');
      }
    } else {
      NoCommands(md5, s, plan, limit, 0);
    }
  }

  /** A file for a new path is either written and present, or refused. */
  lemma NewAnswer(md5: Digest, s: State, parent: Uri, fi: FileContentInfo, next: nat)
    requires At(s, parent, Some(fi.path)).None?
    ensures
      var plan := PlanPut(md5, s, parent, fi, next);
      if plan.Idle? then AnswerOf(plan.answer).Err? else AnswerOf(plan.answer) == Ok(FilePresent)
  {
  }

  /** Why a file, with or without bytes, is not stored under a path that has no record; None if it is. */
  function SaveObstacle(bytes: bool, contentType: Option<string>, path: Option<string>): Option<Error> {
    if bytes != contentType.Some? then Some(IllegalArgument)
    else if !Fits(path, MAX_PATH) || !Fits(contentType, MAX_CONTENT_TYPE) then Some(Overflow)
    else None
  }

  function PutObstacle(fi: FileContentInfo): Option<Error> {
    SaveObstacle(fi.blob.Some?, fi.contentType, Some(fi.path))
  }

  /** A file is refused only under a new path. */
  lemma PutFailsIff(md5: Digest, s: State, parent: Uri, fi: FileContentInfo, limit: nat, next: nat)
    requires limit > 0
    ensures
      var plan := PlanPut(md5, s, parent, fi, next);
      var answer := AnswerOf(plan.answer);
      && (answer.Err? <==> At(s, parent, Some(fi.path)) == None && PutObstacle(fi).Some?)
      && (answer.Err? ==>
            answer == Err(PutObstacle(fi).value) && Replay(s, Commands(md5, s, plan, limit)) == s)
  {
    var plan := PlanPut(md5, s, parent, fi, next);
    if plan.Idle? {
      hide PlanPut;
      NoCommands(md5, s, plan, limit, 0);
    }
  }

  // ----- requests with several parts -----

  /** One part of a multi-part request. */
  datatype BodyPart = BodyPart(hasDisposition: bool, path: Option<string>, contentType: Option<string>, content: Bytes)

  datatype PostError = FilesOnlyExpected | FilenameExpected | FileVersionDiffers(path: string)

  /** What comes of a request: nothing, the last complaint, or a refusal that ends it. */
  datatype PostOutcome = Done | Complaint(e: PostError) | Refused(error: Error)

  /** The parts that name a file, with the digest of their content. */
  function FileOf(md5: Digest, p: BodyPart): Option<FileContentInfo> {
    if p.hasDisposition && p.path.Some?
    then Some(FileContentInfo(p.path.value, p.contentType, md5(p.content), Some(p.content)))
    else None
  }

  /** The outcome of a request, its writes, and the identifiers that are new after it. */
  datatype Posted = Posted(outcome: PostOutcome, puts: seq<Put>, next: nat)

  function After(ps: seq<Put>, rest: Posted): Posted {
    rest.(puts := ps + rest.puts)
  }

  /** What a request does about one part: a complaint replaces the one before, and a refusal ends the request. */
  ghost function PostOne(
      md5: Digest, s: State, parent: Uri, p: BodyPart, limit: nat, next: nat, e: PostOutcome): Posted
    requires limit > 0
  {
    var file := FileOf(md5, p);
    if file.None? then Posted(Complaint(if p.hasDisposition then FilenameExpected else FilesOnlyExpected), [], next)
    else
      var plan := PlanPut(md5, s, parent, file.value, next);
      var outcome :=
        match AnswerOf(plan.answer)
        case Err(error) => Refused(error)
        case Ok(FilePresent) => e
        case Ok(FileIncompatible) => Complaint(FileVersionDiffers(file.value.path));
      Posted(outcome, Commands(md5, s, plan, limit), Later(plan, limit, next))
  }

  /** What a request does part by part. */
  ghost function Post(
      md5: Digest, s: State, parent: Uri, parts: seq<BodyPart>, limit: nat, next: nat, e: PostOutcome): Posted
    requires limit > 0
    decreases |parts|
  {
    if parts == [] then Posted(e, [], next)
    else
      var one := PostOne(md5, s, parent, parts[0], limit, next, e);
      if one.outcome.Refused? then one
      else After(one.puts, Post(md5, Replay(s, one.puts), parent, parts[1..], limit, one.next, one.outcome))
  }

  /** One part, stopped anywhere, changes no record that was there before it. */
  lemma OneStops(
      md5: Digest, s: State, parent: Uri, p: BodyPart, limit: nat, next: nat, e: PostOutcome, k: nat)
    requires AllOk(md5, s) && limit > 0 && Used(s, next)
    ensures
      var one := PostOne(md5, s, parent, p, limit, next, e);
      var s', t := Crash(s, one.puts, k), Replay(s, one.puts);
      && AllOk(md5, s') && (forall v :: v in s.contents ==> Untouched(s, s', v))
      && AllOk(md5, t) && Used(t, one.next) && (forall v :: v in s.contents ==> Untouched(s, t, v))
  {
    hide AllOk, Used, PlanPut, Commands, Journal.Replay, Journal.Crash, Later, AnswerOf, Untouched;
    var file := FileOf(md5, p);
    if file.Some? {
      PutStops(md5, s, parent, file.value, limit, next, k);
      PutEnds(md5, s, parent, file.value, limit, next);
    } else {
      Journal.Nothing(Apply, s, [], k);
      UntouchedSelf(s);
    }
  }

  /** A request stopped between or inside its parts changes no record that was there before it. */
  lemma {:induction false} PostStops(
      md5: Digest, s: State, parent: Uri, parts: seq<BodyPart>, limit: nat, next: nat, e: PostOutcome, k: nat)
    requires AllOk(md5, s) && limit > 0 && Used(s, next)
    ensures
      var s' := Crash(s, Post(md5, s, parent, parts, limit, next, e).puts, k);
      AllOk(md5, s') && forall v :: v in s.contents ==> Untouched(s, s', v)
    decreases |parts|
  {
    hide AllOk, Used, PostOne, Journal.Replay, Journal.Crash, Untouched;
    if parts == [] {
      Journal.Nothing(Apply, s, [], k);
      UntouchedSelf(s);
      return;
    }
    var one := PostOne(md5, s, parent, parts[0], limit, next, e);
    OneStops(md5, s, parent, parts[0], limit, next, e, k);
    if !one.outcome.Refused? {
      var s1 := Replay(s, one.puts);
      var rest := Post(md5, s1, parent, parts[1..], limit, one.next, one.outcome).puts;
      Journal.CrashConcat(Apply, s, one.puts, rest, k);
      if k >= |one.puts| {
        PostStops(md5, s1, parent, parts[1..], limit, one.next, one.outcome, k - |one.puts|);
        UntouchedLater(s, s1, Crash(s1, rest, k - |one.puts|));
      }
    }
  }

  lemma UntouchedSelf(s: State)
    ensures forall v :: v in s.contents ==> Untouched(s, s, v)
  {
  }

  lemma UntouchedLater(s: State, s1: State, s2: State)
    requires forall v :: v in s.contents ==> Untouched(s, s1, v)
    requires forall v :: v in s1.contents ==> Untouched(s1, s2, v)
    ensures forall v :: v in s.contents ==> Untouched(s, s2, v)
  {
    forall v | v in s.contents ensures Untouched(s, s2, v) {
      assert Untouched(s, s1, v);
    }
  }

  // ----- what a request with several parts answers -----

  predicate Names(p: BodyPart) {
    p.hasDisposition && p.path.Some?
  }

  /** The part names a file, and a record at its path has the digest of its content. */
  ghost predicate IsStored(md5: Digest, t: State, parent: Uri, p: BodyPart) {
    Names(p) && FoundAs(t, parent, p.path.value, Some(md5(p.content)))
  }

  /** The part names a file, and there is no record at its path. */
  ghost predicate IsMissing(t: State, parent: Uri, p: BodyPart) {
    Names(p) && At(t, parent, p.path) == None
  }

  /** The same for a part that names a file; it always has bytes. */
  function Obstacle(p: BodyPart): Option<Error> {
    SaveObstacle(true, p.contentType, p.path)
  }

  /** The complaint about a part that is not stored. */
  function ComplaintOf(p: BodyPart): PostError {
    if !p.hasDisposition then FilesOnlyExpected
    else if p.path.None? then FilenameExpected
    else FileVersionDiffers(p.path.value)
  }

  /** Part `i` is the first whose path has no record. */
  ghost predicate FirstMissing(t: State, parent: Uri, parts: seq<BodyPart>, i: nat) {
    && i < |parts| && IsMissing(t, parent, parts[i])
    && forall j :: 0 <= j < i ==> !IsMissing(t, parent, parts[j])
  }

  /** Part `i` is the last one that is not stored. */
  ghost predicate LastNotStored(md5: Digest, t: State, parent: Uri, parts: seq<BodyPart>, i: nat) {
    && i < |parts| && !IsStored(md5, t, parent, parts[i])
    && forall j :: i < j < |parts| ==> IsStored(md5, t, parent, parts[j])
  }

  /**
    What the state `t` at the end shows of the outcome.  A part whose path has no record ended the
    request; the first such part could not be stored.  Otherwise the outcome is the complaint
    about the last part that is not stored; when all parts are, it is `e`, that of before them.
   */
  ghost predicate ShownBy(
      md5: Digest, t: State, parent: Uri, parts: seq<BodyPart>, e: PostOutcome, outcome: PostOutcome)
  {
    if exists p :: p in parts && IsMissing(t, parent, p) then
      exists i: nat ::
        && FirstMissing(t, parent, parts, i)
        && Obstacle(parts[i]).Some? && outcome == Refused(Obstacle(parts[i]).value)
    else if forall p :: p in parts ==> IsStored(md5, t, parent, p) then outcome == e
    else exists i: nat ::
      LastNotStored(md5, t, parent, parts, i) && outcome == Complaint(ComplaintOf(parts[i]))
  }

  /** One more part in front of those that are shown. */
  lemma ShownMore(
      md5: Digest, t: State, parent: Uri, parts: seq<BodyPart>, e: PostOutcome, e': PostOutcome, outcome: PostOutcome)
    requires parts != [] && !IsMissing(t, parent, parts[0])
    requires e' == if IsStored(md5, t, parent, parts[0]) then e else Complaint(ComplaintOf(parts[0]))
    requires ShownBy(md5, t, parent, parts[1..], e', outcome)
    ensures ShownBy(md5, t, parent, parts, e, outcome)
  {
    hide IsMissing, IsStored, Obstacle, ComplaintOf;
    var rest := parts[1..];
    assert forall p :: p in parts <==> p == parts[0] || p in rest;
    assert forall j :: 0 < j < |parts| ==> parts[j] == rest[j - 1];
    if exists p :: p in rest && IsMissing(t, parent, p) {
      var i: nat :| FirstMissing(t, parent, rest, i)
        && Obstacle(rest[i]).Some? && outcome == Refused(Obstacle(rest[i]).value);
      assert FirstMissing(t, parent, parts, i + 1);
    } else if forall p :: p in rest ==> IsStored(md5, t, parent, p) {
      if !IsStored(md5, t, parent, parts[0]) { assert LastNotStored(md5, t, parent, parts, 0); }
    } else {
      var i: nat :| LastNotStored(md5, t, parent, rest, i) && outcome == Complaint(ComplaintOf(rest[i]));
      assert LastNotStored(md5, t, parent, parts, i + 1);
      assert parts[i + 1] in parts;
    }
  }

  /** What one part answers, by what it leaves at its path. */
  lemma PartAnswer(md5: Digest, s: State, parent: Uri, p: BodyPart, limit: nat, next: nat, e: PostOutcome)
    requires AllOk(md5, s) && limit > 0 && Used(s, next) && !e.Refused?
    ensures
      var one := PostOne(md5, s, parent, p, limit, next, e);
      var t := Replay(s, one.puts);
      if one.outcome.Refused? then
        t == s && IsMissing(s, parent, p) && Obstacle(p) == Some(one.outcome.error)
      else
        && !(IsMissing(s, parent, p) && Obstacle(p).Some?) && !IsMissing(t, parent, p)
        && one.outcome == if IsStored(md5, t, parent, p) then e else Complaint(ComplaintOf(p))
  {
    hide AllOk, Used, Commands, PlanOf, Holds, At, Journal.Replay, SaveObstacle, Later;
    if !Names(p) {
      NotNamed(md5, s, parent, p);
      Journal.Nothing(Apply, s, [], 0);
      return;
    }
    var fi := FileOf(md5, p).value;
    PresentIff(md5, s, parent, fi, limit, next);
    var plan := PlanPut(md5, s, parent, fi, next);
    if At(s, parent, p.path).None? {
      NewAnswer(md5, s, parent, fi, next);
      NewObstacle(md5, s, parent, p, next);
    }
    if plan.Idle? { NoCommands(md5, s, plan, limit, 0); }
  }

  lemma NewObstacle(md5: Digest, s: State, parent: Uri, p: BodyPart, next: nat)
    requires Names(p) && At(s, parent, p.path).None?
    ensures
      var plan := PlanPut(md5, s, parent, FileOf(md5, p).value, next);
      if Obstacle(p).Some? then plan == Idle(Failed(Obstacle(p).value)) else !plan.Idle?
  {
  }

  /** A record stays at its path, as it is, when nothing that was there is touched. */
  lemma StaysAt(md5: Digest, s: State, t: State, parent: Uri, p: BodyPart)
    requires AllOk(md5, s) && AllOk(md5, t) && forall v :: v in s.contents ==> Untouched(s, t, v)
    requires !IsMissing(s, parent, p)
    ensures !IsMissing(t, parent, p) && (IsStored(md5, t, parent, p) <==> IsStored(md5, s, parent, p))
  {
    hide Inv, SetOk;
    if !Names(p) { return; }
    var u := At(s, parent, p.path).value;
    assert SetOk(s, parent) && SetOk(t, parent);
    ListedParent(s, parent, u);
    assert Untouched(s, t, u);
    AtIs(t, parent, p.path, u);
  }

  /** The state that a request leaves shows its outcome. */
  lemma {:induction false} PostShown(
      md5: Digest, s: State, parent: Uri, parts: seq<BodyPart>, limit: nat, next: nat, e: PostOutcome)
    requires AllOk(md5, s) && limit > 0 && Used(s, next) && !e.Refused?
    ensures
      var done := Post(md5, s, parent, parts, limit, next, e);
      AllOk(md5, Replay(s, done.puts)) && ShownBy(md5, Replay(s, done.puts), parent, parts, e, done.outcome)
    decreases |parts|
  {
    hide AllOk, Used, PostOne, Journal.Replay, Journal.Crash, Untouched, Obstacle, IsStored, IsMissing, ComplaintOf;
    var done := Post(md5, s, parent, parts, limit, next, e);
    Journal.CrashAll(Apply, s, done.puts, |done.puts|);
    PostStops(md5, s, parent, parts, limit, next, e, |done.puts|);
    if parts == [] { return; }
    var p, rest := parts[0], parts[1..];
    var one := PostOne(md5, s, parent, p, limit, next, e);
    PartAnswer(md5, s, parent, p, limit, next, e);
    if one.outcome.Refused? {
      assert FirstMissing(s, parent, parts, 0);
      assert p in parts;
    } else {
      var s1 := Replay(s, one.puts);
      var more := Post(md5, s1, parent, rest, limit, one.next, one.outcome);
      var t := Replay(s1, more.puts);
      OneStops(md5, s, parent, p, limit, next, e, 0);
      PostShown(md5, s1, parent, rest, limit, one.next, one.outcome);
      Journal.ReplayConcat(Apply, s, one.puts, more.puts);
      Journal.CrashAll(Apply, s1, more.puts, |more.puts|);
      PostStops(md5, s1, parent, rest, limit, one.next, one.outcome, |more.puts|);
      StaysAt(md5, s1, t, parent, p);
      ShownMore(md5, t, parent, parts, e, one.outcome, done.outcome);
    }
  }

  /** A part changes nothing about the other paths. */
  lemma OtherPaths(
      md5: Digest, s: State, parent: Uri, p: BodyPart, limit: nat, next: nat, e: PostOutcome, q: BodyPart)
    requires AllOk(md5, s) && limit > 0 && Used(s, next) && Names(q) && (Names(p) ==> q.path != p.path)
    ensures
      IsMissing(Replay(s, PostOne(md5, s, parent, p, limit, next, e).puts), parent, q) <==> IsMissing(s, parent, q)
  {
    hide Inv, Used, Untouched, PlanOf, Commands, Joining, SetOk;
    if !Names(p) {
      Journal.Nothing(Apply, s, [], 0);
      return;
    }
    var fi := FileOf(md5, p).value;
    var plan := PlanPut(md5, s, parent, fi, next);
    var s' := Replay(s, Commands(md5, s, plan, limit));
    assert SetOk(s, parent);
    if At(s, parent, p.path).Some? {
      NoCommands(md5, s, plan, limit, 0);
      return;
    }
    NewRecord(md5, s, parent, fi, next);
    PlanEnds(md5, s, parent, SaveOnce(fi), limit, next, s');
    if plan.Idle? { return; }
    assert SetOk(s', parent);
    if At(s, parent, q.path).Some? {
      var u := At(s, parent, q.path).value;
      ListedParent(s, parent, u);
      AtIs(s', parent, q.path, u);
    } else {
      forall v | v in s'.contents && s'.contents[v].parent == parent ensures s'.contents[v].path != q.path {
        assert v == plan.u || v in ListOf(s, parent);
      }
      NotAt(s', parent, q.path);
    }
  }

  /** Part `i` is the first to name its path, the path has no record, and the part cannot be stored. */
  ghost predicate CannotStore(s: State, parent: Uri, parts: seq<BodyPart>, i: nat) {
    && i < |parts| && IsMissing(s, parent, parts[i]) && Obstacle(parts[i]).Some?
    && forall j :: 0 <= j < i && Names(parts[j]) ==> parts[j].path != parts[i].path
  }

  /** After a part that is not refused, the others are refused as before it. */
  lemma RefusedLater(s: State, s1: State, parent: Uri, parts: seq<BodyPart>)
    requires parts != [] && !(IsMissing(s, parent, parts[0]) && Obstacle(parts[0]).Some?)
    requires Names(parts[0]) ==> !IsMissing(s1, parent, parts[0])
    requires forall q :: q in parts && Names(q) && (Names(parts[0]) ==> q.path != parts[0].path) ==>
      (IsMissing(s1, parent, q) <==> IsMissing(s, parent, q))
    ensures (exists i: nat :: CannotStore(s, parent, parts, i))
      <==> exists i: nat :: CannotStore(s1, parent, parts[1..], i)
  {
    hide Obstacle, At;
    var rest := parts[1..];
    assert forall j :: 0 < j < |parts| ==> parts[j] == rest[j - 1] && parts[j] in parts;
    if exists i: nat :: CannotStore(s, parent, parts, i) {
      var i: nat :| CannotStore(s, parent, parts, i);
      assert CannotStore(s1, parent, rest, i - 1);
    }
    if exists i: nat :: CannotStore(s1, parent, rest, i) {
      var i: nat :| CannotStore(s1, parent, rest, i);
      assert CannotStore(s, parent, parts, i + 1);
    }
  }

  /** When a request is refused, by the state that it starts from. */
  lemma {:induction false} PostRefusedIff(
      md5: Digest, s: State, parent: Uri, parts: seq<BodyPart>, limit: nat, next: nat, e: PostOutcome)
    requires AllOk(md5, s) && limit > 0 && Used(s, next) && !e.Refused?
    ensures Post(md5, s, parent, parts, limit, next, e).outcome.Refused?
      <==> exists i: nat :: CannotStore(s, parent, parts, i)
    decreases |parts|
  {
    hide AllOk, Used, PostOne, Journal.Replay, Obstacle, IsMissing, IsStored, Untouched;
    if parts == [] { return; }
    var p, rest := parts[0], parts[1..];
    var one := PostOne(md5, s, parent, p, limit, next, e);
    var s1 := Replay(s, one.puts);
    PartAnswer(md5, s, parent, p, limit, next, e);
    if one.outcome.Refused? {
      assert CannotStore(s, parent, parts, 0);
    } else {
      OneStops(md5, s, parent, p, limit, next, e, 0);
      PostRefusedIff(md5, s1, parent, rest, limit, one.next, one.outcome);
      forall q | q in parts && Names(q) && (Names(p) ==> q.path != p.path)
        ensures IsMissing(s1, parent, q) <==> IsMissing(s, parent, q)
      {
        OtherPaths(md5, s, parent, p, limit, next, e, q);
      }
      RefusedLater(s, s1, parent, parts);
    }
  }

  /** A request is done just when each of its parts names a file that is then stored with its digest. */
  lemma DoneIff(md5: Digest, t: State, parent: Uri, parts: seq<BodyPart>, outcome: PostOutcome)
    requires ShownBy(md5, t, parent, parts, Done, outcome)
    ensures outcome == Done <==> forall p :: p in parts ==> IsStored(md5, t, parent, p)
    ensures outcome.Refused? <==> exists p :: p in parts && IsMissing(t, parent, p)
  {
    hide At;
  }

  lemma NotNamed(md5: Digest, t: State, parent: Uri, p: BodyPart)
    requires !Names(p)
    ensures !IsStored(md5, t, parent, p) && !IsMissing(t, parent, p)
  {
  }

  /**
    The outcome of a request from `s` that leaves `t`.  It is done just when each part names a file
    that is then stored with its digest, and refused just when some part cannot be stored; the
    state that is left shows which complaint or which error it is.
   */
  ghost predicate Answers(
      md5: Digest, s: State, t: State, parent: Uri, parts: seq<BodyPart>, outcome: PostOutcome)
  {
    && (outcome == Done <==> forall p :: p in parts ==> IsStored(md5, t, parent, p))
    && (outcome.Refused? <==> exists i: nat :: CannotStore(s, parent, parts, i))
    && ShownBy(md5, t, parent, parts, Done, outcome)
  }

  lemma PostAnswers(md5: Digest, s: State, parent: Uri, parts: seq<BodyPart>, limit: nat, next: nat)
    requires AllOk(md5, s) && limit > 0 && Used(s, next)
    ensures
      var done := Post(md5, s, parent, parts, limit, next, Done);
      Answers(md5, s, Replay(s, done.puts), parent, parts, done.outcome)
  {
    hide AllOk, Used, Post, Journal.Replay, CannotStore, ShownBy;
    var done := Post(md5, s, parent, parts, limit, next, Done);
    PostShown(md5, s, parent, parts, limit, next, Done);
    PostRefusedIff(md5, s, parent, parts, limit, next, Done);
    DoneIff(md5, Replay(s, done.puts), parent, parts, done.outcome);
  }

  // ----- runs -----

  datatype Request = PutOf(fi: FileContentInfo) | PostOf(parts: seq<BodyPart>)

  /** One request, stopped after `cut` of its writes. */
  datatype Sent = Sent(parent: Uri, request: Request, limit: nat, next: nat, cut: nat)

  /** The writes of a request. */
  ghost function PutsOf(md5: Digest, s: State, e: Sent): seq<Put>
    requires e.limit > 0
  {
    match e.request
    case PutOf(fi) => Commands(md5, s, PlanPut(md5, s, e.parent, fi, e.next), e.limit)
    case PostOf(parts) => Post(md5, s, e.parent, parts, e.limit, e.next, Done).puts
  }

  ghost function StopSent(md5: Digest, s: State, e: Sent): State
    requires e.limit > 0
  {
    Crash(s, PutsOf(md5, s, e), e.cut)
  }

  ghost predicate ValidSent(md5: Digest, s: State, es: seq<Sent>)
    decreases |es|
  {
    es == [] || (es[0].limit > 0 && Used(s, es[0].next) && ValidSent(md5, StopSent(md5, s, es[0]), es[1..]))
  }

  ghost function RunSent(md5: Digest, s: State, es: seq<Sent>): State
    requires ValidSent(md5, s, es)
    decreases |es|
  {
    if es == [] then s else RunSent(md5, StopSent(md5, s, es[0]), es[1..])
  }

  /** One request, of one file or of many, stopped anywhere. */
  lemma SentTouchesNothing(md5: Digest, s: State, e: Sent)
    requires AllOk(md5, s) && e.limit > 0 && Used(s, e.next)
    ensures AllOk(md5, StopSent(md5, s, e))
    ensures forall v :: v in s.contents ==> Untouched(s, StopSent(md5, s, e), v)
  {
    hide AllOk, Used, PlanPut, Commands, Journal.Crash, Untouched, Post;
    match e.request
    case PutOf(fi) => PutStops(md5, s, e.parent, fi, e.limit, e.next, e.cut);
    case PostOf(parts) => PostStops(md5, s, e.parent, parts, e.limit, e.next, Done, e.cut);
  }

  /**
    No run of requests, with one file or with many and each stopped anywhere, changes the path,
    the ordinal, the hash or the bytes of a record that was there before it.
   */
  lemma {:induction false} WriteOnce(md5: Digest, s: State, es: seq<Sent>)
    requires AllOk(md5, s) && ValidSent(md5, s, es)
    ensures AllOk(md5, RunSent(md5, s, es))
    ensures forall v :: v in s.contents ==> Untouched(s, RunSent(md5, s, es), v)
    decreases |es|
  {
    hide AllOk, Used, StopSent, Untouched;
    if es == [] {
      UntouchedSelf(s);
    } else {
      SentTouchesNothing(md5, s, es[0]);
      var s1 := StopSent(md5, s, es[0]);
      WriteOnce(md5, s1, es[1..]);
      UntouchedLater(s, s1, RunSent(md5, s1, es[1..]));
    }
  }

  /**
    A record left without a hash by an upload that was stopped is not repaired: whatever is
    sent to its path, after any run, is answered as incompatible and nothing is written.
   */
  lemma NeverRepaired(md5: Digest, s: State, es: seq<Sent>, u: Uri, fi: FileContentInfo, next: nat)
    requires AllOk(md5, s) && ValidSent(md5, s, es)
    requires u in s.contents && s.contents[u].path == Some(fi.path) && s.contents[u].hash.None?
    ensures
      var t := RunSent(md5, s, es);
      && u in t.contents && t.contents[u] == s.contents[u]
      && PlanPut(md5, t, s.contents[u].parent, fi, next).Idle?
      && AnswerOf(PlanPut(md5, t, s.contents[u].parent, fi, next).answer) == Ok(FileIncompatible)
  {
    hide Inv, RunSent, ValidSent;
    var t := RunSent(md5, s, es);
    WriteOnce(md5, s, es);
    assert Untouched(s, t, u);
    assert SetOk(t, s.contents[u].parent);
    AtIs(t, s.contents[u].parent, Some(fi.path), u);
  }

  /** The first upload of all, of one byte, stopped after its first write ... */
  ghost function FirstUpload(md5: Digest): Sent {
    Sent(0, PutOf(FileContentInfo("a", Some("b"), md5([1]), Some([1]))), 1, 0, 1)
  }

  lemma FirstRecord(md5: Digest)
    ensures StopSent(md5, EMPTY, FirstUpload(md5)).contents
      == map[0 := Content(0, 1, Some("a"), Some("b"), Some(1), None)]
  {
    hide AllOk, Inv, Used, ReplaceCommands, PartsOf;
    var fi := FirstUpload(md5).request.fi;
    var f := Event(0, SaveOnce(fi), 1, 0, 1);
    EmptyOk(md5);
    assert SetOk(EMPTY, 0);
    assert ListOf(EMPTY, 0) == [] by { ListOfIs(EMPTY, 0, []); }
    var plan := PlanAt(md5, EMPTY, f);
    assert plan == Upload(0, Content(0, 1, Some("a"), Some("b"), Some(1), None), [1], 1, Saved(CompletelyNewFile));
    assert StopSent(md5, EMPTY, FirstUpload(md5)) == Stop(md5, EMPTY, f);
    StopHas(md5, EMPTY, f);
    UploadWrites(md5, EMPTY, plan, 1);
  }

  /** ... and sent once more, to the end: the same file is refused, and nothing is written. */
  lemma StoppedUploadIsStuck(md5: Digest)
    ensures
      var e := FirstUpload(md5);
      var s, fi := StopSent(md5, EMPTY, e), e.request.fi;
      && AllOk(md5, EMPTY) && Used(EMPTY, 0) && AllOk(md5, s)
      && 0 in s.contents && s.contents[0].path == Some("a") && s.contents[0].hash == None
      && forall next :: PlanPut(md5, s, 0, fi, next) == Idle(Saved(NewFileVersion))
  {
    hide AllOk, Inv, Used;
    var e := FirstUpload(md5);
    EmptyOk(md5);
    SentTouchesNothing(md5, EMPTY, e);
    var s, fi := StopSent(md5, EMPTY, e), e.request.fi;
    FirstRecord(md5);
    assert s == RunSent(md5, s, []);
    forall next ensures PlanPut(md5, s, 0, fi, next) == Idle(Saved(NewFileVersion)) {
      NeverRepaired(md5, s, [], 0, fi, next);
    }
  }

  /** A new record has no parts, so that nothing is deleted for it. */
  lemma NewHasNoParts(md5: Digest, s: State, parent: Uri, fi: FileContentInfo, next: nat)
    requires AllOk(md5, s) && Used(s, next) && At(s, parent, Some(fi.path)).None?
    ensures
      var plan := PlanPut(md5, s, parent, fi, next);
      plan.Upload? ==> PartsOf(s, plan.u) == []
  {
    hide PlanOf, Used;
    var plan := PlanPut(md5, s, parent, fi, next);
    assert SetOk(s, parent);
    PlanJoins(md5, s, parent, SaveOnce(fi), next);
    NewRecord(md5, s, parent, fi, next);
    if plan.Upload? {
      ListedNew(s, next, plan.u);
      PartsOfIs(s, plan.u, []);
    }
  }

  // ----- the manager -----

  class InstanceFileManager {
    const store: ContentStore
    const uris: RowStore.UriSource
    const md5: Digest
    const blobLimit: nat

    constructor (store: ContentStore, uris: RowStore.UriSource, md5: Digest, blobLimit: nat)
      ensures this.store == store && this.uris == uris && this.md5 == md5 && this.blobLimit == blobLimit
    {
      this.store, this.uris, this.md5, this.blobLimit := store, uris, md5, blobLimit;
    }

    ghost predicate Valid()
      reads store, uris
    {
      blobLimit > 0 && AllOk(md5, store.Stored()) && Used(store.Stored(), uris.next) && store.AllRelations()
    }

    /** The manipulator works on this store. */
    ghost predicate Mine(instance: Manipulator)
    {
      instance.store == store && instance.uris == uris && instance.md5 == md5 && instance.blobLimit == blobLimit
    }

    /** The record that has the path, by going through the ordinals. */
    method FindPath(instance: Manipulator, path: string) returns (hash: Option<Option<string>>)
      requires Mine(instance) && instance.Valid()
      modifies instance
      ensures instance.Valid()
      ensures
        var at := At(store.Stored(), instance.parentKey, Some(path));
        hash == if at.None? then None else Some(store.contents[at.value].hash)
    {
      var error := instance.UpdateAttachments();
      var matched := instance.FindEntity(Some(path), instance.List());
      return if matched.None? then None else Some(matched.value.row.hash);
    }

    /** Stores one file unless its path has a record already. */
    method AddFile(instance: Manipulator, fi: FileContentInfo) returns (r: Result<Change, Error>)
      requires Mine(instance) && instance.Valid()
      modifies instance, store`contents, store`refs, store`blobs, store`journal, uris
      ensures
        var plan := PlanPut(md5, old(store.Stored()), instance.parentKey, fi, old(uris.next));
        && store.Wrote(old(store.Stored()), old(store.journal), Commands(md5, old(store.Stored()), plan, blobLimit))
        && uris.next == Later(plan, blobLimit, old(uris.next))
        && r == AnswerOf(plan.answer)
      ensures Valid() && (r.Ok? ==> instance.Valid())
    {
      hide AllOk, Used, Commands, Later, PlanOf, Journal.Replay;
      var hash := FindPath(instance, fi.path);
      if hash.Some? {
        instance.NothingPlanned(PlanPut(md5, store.Stored(), instance.parentKey, fi, uris.next));
        return Ok(if hash.value == Some(fi.hash) then FilePresent else FileIncompatible);
      }
      NewHasNoParts(md5, store.Stored(), instance.parentKey, fi, uris.next);
      var outcome := instance.SetValueFromByteArray(fi.blob, fi.contentType, Some(fi.path), false);
      match outcome
      case Err(e) => return Err(e);
      case Ok(FileUnchanged) => return Ok(FilePresent);
      case Ok(NewFileVersion) => return Ok(FileIncompatible);
      case Ok(CompletelyNewFile) => return Ok(FilePresent);
    }

    /** Stores one file of a row. */
    method PutFile(rowId: Uri, fi: FileContentInfo) returns (r: Result<Change, Error>)
      requires Valid()
      modifies store`contents, store`refs, store`blobs, store`journal, uris
      ensures
        var s := old(store.Stored());
        var plan := PlanPut(md5, s, rowId, fi, old(uris.next));
        && store.Wrote(s, old(store.journal), Commands(md5, s, plan, blobLimit))
        && r == AnswerOf(plan.answer)
      ensures r == Ok(FilePresent) <==>
        FoundAs(store.Stored(), rowId, fi.path, Expected(md5, old(store.Stored()), rowId, fi))
      ensures r.Err? <==> At(old(store.Stored()), rowId, Some(fi.path)) == None && PutObstacle(fi).Some?
      ensures r.Err? ==> r == Err(PutObstacle(fi).value) && store.Stored() == old(store.Stored())
      ensures Valid()
    {
      PutFailsIff(md5, store.Stored(), rowId, fi, blobLimit, uris.next);
      PresentIff(md5, store.Stored(), rowId, fi, blobLimit, uris.next);
      var instance := new Manipulator(store, uris, rowId, md5, blobLimit);
      r := AddFile(instance, fi);
    }

    /** Stores the file of one part, unless it names none; `e` is the outcome so far. */
    method AddPart(instance: Manipulator, part: BodyPart, e: PostOutcome) returns (outcome: PostOutcome)
      requires Mine(instance) && instance.Valid()
      modifies instance, store`contents, store`refs, store`blobs, store`journal, uris
      ensures
        var one := PostOne(md5, old(store.Stored()), instance.parentKey, part, blobLimit, old(uris.next), e);
        && store.Wrote(old(store.Stored()), old(store.journal), one.puts)
        && uris.next == one.next && outcome == one.outcome
      ensures Valid() && (!outcome.Refused? ==> instance.Valid())
    {
      hide AllOk, Used, PlanPut, Commands, Journal.Replay, Later, AnswerOf;
      Journal.Nothing(Apply, store.Stored(), [], 0);
      if !part.hasDisposition { return Complaint(FilesOnlyExpected); }
      if part.path.None? { return Complaint(FilenameExpected); }
      var fi := FileContentInfo(part.path.value, part.contentType, md5(part.content), Some(part.content));
      var r := AddFile(instance, fi);
      match r
      case Err(error) => return Refused(error);
      case Ok(FileIncompatible) => return Complaint(FileVersionDiffers(fi.path));
      case Ok(FilePresent) => return e;
    }

    /** Stores the files of a request one after the other; the last complaint is the outcome. */
    method PostFiles(rowId: Uri, bodyParts: seq<BodyPart>) returns (outcome: PostOutcome)
      requires Valid()
      modifies store`contents, store`refs, store`blobs, store`journal, uris
      ensures
        var done := Post(md5, old(store.Stored()), rowId, bodyParts, blobLimit, old(uris.next), Done);
        && store.Wrote(old(store.Stored()), old(store.journal), done.puts)
        && outcome == done.outcome && uris.next == done.next
      ensures Answers(md5, old(store.Stored()), store.Stored(), rowId, bodyParts, outcome)
      ensures Valid()
    {
      hide AllOk, Used, Journal.Replay, PostOne, Post, After, Answers;
      PostAnswers(md5, store.Stored(), rowId, bodyParts, blobLimit, uris.next);
      ghost var s0, j0, next0 := store.Stored(), store.journal, uris.next;
      ghost var done: seq<Put> := [];
      PostStarts(md5, s0, rowId, bodyParts, blobLimit, next0, j0);
      var instance := new Manipulator(store, uris, rowId, md5, blobLimit);
      outcome := Done;
      for i := 0 to |bodyParts|
        invariant instance.Valid() && Mine(instance) && instance.parentKey == rowId
        invariant store.Wrote(s0, j0, done)
        invariant Post(md5, s0, rowId, bodyParts, blobLimit, next0, Done)
          == After(done, Post(md5, store.Stored(), rowId, bodyParts[i..], blobLimit, uris.next, outcome))
      {
        ghost var s, one := store.Stored(),
          PostOne(md5, store.Stored(), rowId, bodyParts[i], blobLimit, uris.next, outcome);
        PostNext(md5, s0, j0, done, s, rowId, bodyParts, i, blobLimit, uris.next, outcome);
        outcome := AddPart(instance, bodyParts[i], outcome);
        done := done + one.puts;
        if outcome.Refused? { return; }
      }
      PostEnded(md5, store.Stored(), rowId, bodyParts[|bodyParts|..], blobLimit, uris.next, outcome, done);
    }
  }

  lemma PostStarts(
      md5: Digest, s: State, parent: Uri, parts: seq<BodyPart>, limit: nat, next: nat, j: seq<Put>)
    requires limit > 0
    ensures Replay(s, []) == s && j + [] == j && parts[0..] == parts
    ensures
      var all := Post(md5, s, parent, parts, limit, next, Done);
      After([], all) == all
  {
    hide Post;
    Journal.Nothing(Apply, s, [], 0);
    var all := Post(md5, s, parent, parts, limit, next, Done);
    assert [] + all.puts == all.puts;
  }

  lemma PostEnded(
      md5: Digest, s: State, parent: Uri, parts: seq<BodyPart>, limit: nat, next: nat, e: PostOutcome,
      done: seq<Put>)
    requires limit > 0 && parts == []
    ensures After(done, Post(md5, s, parent, parts, limit, next, e)) == Posted(e, done, next)
  {
    assert done + [] == done;
  }

  /** What the request does from part `i` on, after the writes `done`. */
  lemma PostNext(
      md5: Digest, s0: State, j0: seq<Put>, done: seq<Put>, s: State, parent: Uri, parts: seq<BodyPart>, i: nat,
      limit: nat, next: nat, e: PostOutcome)
    requires limit > 0 && i < |parts| && s == Replay(s0, done)
    ensures
      var one := PostOne(md5, s, parent, parts[i], limit, next, e);
      var s1 := Replay(s, one.puts);
      && Replay(s0, done + one.puts) == s1 && (j0 + done) + one.puts == j0 + (done + one.puts)
      && After(done, Post(md5, s, parent, parts[i..], limit, next, e)) ==
           if one.outcome.Refused? then Posted(one.outcome, done + one.puts, one.next)
           else After(done + one.puts, Post(md5, s1, parent, parts[i + 1..], limit, one.next, one.outcome))
  {
    hide PostOne, Journal.Replay;
    var one := PostOne(md5, s, parent, parts[i], limit, next, e);
    assert parts[i..][0] == parts[i] && parts[i..][1..] == parts[i + 1..];
    Journal.ReplayConcat(Apply, s0, done, one.puts);
    if !one.outcome.Refused? {
      AfterTwice(done, one.puts, Post(md5, Replay(s, one.puts), parent, parts[i + 1..], limit, one.next, one.outcome));
    }
  }

  lemma AfterTwice(a: seq<Put>, b: seq<Put>, rest: Posted)
    ensures After(a, After(b, rest)) == After(a + b, rest)
  {
    assert a + (b + rest.puts) == (a + b) + rest.puts;
  }
}
