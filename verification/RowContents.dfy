/** What is stored once a write has committed, and what its caller is told, field by field. */
module RowContents {
  import Journal
  import opened Wrappers
  import opened RowLog
  import opened RowLogWrites
  import opened RowLogRuns
  import opened RowEntities
  import opened RowAttempts
  import opened BulkRows
  import opened DataManager

  function RowOf(s: State, r: RowId): Option<Row> {
    if r in s.rows then Some(s.rows[r]) else None
  }

  /** The scope that is sent; without one, that of the row before, or the empty one. */
  function ScopeSent(before: Option<Row>, req: RowReq): Scope {
    if req.scope.Some? then req.scope.value
    else if before.Some? then before.value.body.scope
    else EMPTY_SCOPE
  }

  /** The row has what the request sends, and for what it does not send what it had before. */
  ghost predicate Carries(row: Row, before: Option<Row>, req: RowReq, user: string, columns: seq<string>) {
    && !row.deleted
    && row.createUser == (if before.Some? then before.value.createUser else user)
    && row.body.lastUpdateUser == user
    && row.body.meta == req.meta
    && row.body.scope == ScopeSent(before, req)
    && HoldsSent(
         row.body.values, if before.Some? then before.value.body.values else map[], req.values, columns)
  }

  lemma FieldsSet(
      m: Manager, s: State, r: RowId, req: RowReq, etag: Uri, tag: Uri, device: Option<string>,
      office: Option<string>, row: Row)
    requires
      var before := if r in s.rows then s.rows[r] else NewRow(m.user);
      SetRowFields(before, etag, tag, m.user, false, m.ScopeFor(s, r, req), req.meta, device, office, req.values,
                   s.columns, m.folded) == Ok(row)
    ensures Carries(row, RowOf(s, r), req, m.user, s.columns)
    ensures row.etag == etag && row.tag == tag && row.device == device && row.office == office
  {
    var before := if r in s.rows then s.rows[r] else NewRow(m.user);
    SetValuesHolds(before.body.values, req.values, s.columns, m.folded);
  }

  /** A committed attempt writes the data rows of its change set, and no others. */
  lemma CommittedState(w: World, a: Attempt)
    requires Commits(w, a)
    ensures
      var s, p := AfterRecovery(w, a), a.plan.value;
      Step(w, a).st == State(
        s.columns, s.entry.(tag := Some(p.tag), pending := None), s.rows + MapOf(p.rows), s.log + MapOf(p.logs))
  {
    var s, c := AfterRecovery(w, a), RevertCommands(w.st, a.order);
    var cs := WriteCommands(s, a.plan.value);
    FullWrite(s, a.plan.value);
    hide Journal.Replay, Journal.Crash, RevertCommands, WriteCommands;
    Journal.CrashConcat(Apply, w.st, c, cs, a.cut);
    Journal.CrashAll(Apply, s, cs, a.cut - |c|);
  }

  /** Every other row is as it was. */
  ghost predicate OthersKept(s: State, s': State, changed: set<RowId>) {
    forall q :: q !in changed ==> RowOf(s', q) == RowOf(s, q)
  }

  lemma OneRowCommitted(w: World, a: Attempt, tag: Uri, r: RowId, row: Row, prev: Option<Uri>, seqv: nat)
    requires Commits(w, a) && a.plan == Some(OneRow(tag, r, row, prev, seqv))
    ensures
      var s, s' := AfterRecovery(w, a), Step(w, a).st;
      && s'.rows == s.rows[r := row] && s'.entry.tag == Some(tag) && s'.entry.pending == None
      && s'.log == s.log[row.etag := NewLogRow(r, row, tag, prev, seqv)]
  {
    CommittedState(w, a);
    OneRowMaps(tag, r, row, prev, seqv);
  }

  // ----- one row -----

  /** Inserts and updates need the right to create the row, or to read and write the one that is stored. */
  predicate Allowed(p: Permissions, s: State, r: RowId) {
    if r in s.rows then p.CanRead(r) && p.CanWrite(r) else p.unfilteredWrite
  }

  /** The table can be written, and an identifier that was made for the request is new. */
  predicate Ready(m: Manager, s: State, r: RowId, req: RowReq) {
    m.perms.writeTable && m.schemaDefined && (r in s.rows ==> req.rowId.Some?)
  }

  /** The request names an ETag that the stored row does not have, or none. */
  predicate Stale(s: State, r: RowId, req: RowReq) {
    r in s.rows && req.etag != Some(s.rows[r].etag)
  }

  /** Leaving out the ETag, the request says what is stored. */
  predicate Same(m: Manager, s: State, r: RowId, req: RowReq)
    requires r in s.rows
  {
    m.significant(req.(rowId := Some(r), scope := Some(ScopeSent(Some(s.rows[r]), req))), s.rows[r])
  }

  /**
    How an insert or update is answered.  A stale ETag is answered as a success just when the
    request matches the stored row everywhere else, and then nothing is written.
   */
  lemma UpsertAnswers(m: Manager, w: World, s: State, t: RowId, req: RowReq, r: Result<(RowId, Row), Error>, a: Attempt)
    requires m.UpsertAnswer(w, s, t, req, r, a)
    ensures !m.perms.writeTable ==> r == Err(PermissionDenied)
    ensures m.perms.writeTable && !Ready(m, s, t, req) ==> r == Err(InconsistentState)
    ensures Ready(m, s, t, req) && !Allowed(m.perms, s, t) ==> r == Err(PermissionDenied)
    ensures Ready(m, s, t, req) && Allowed(m.perms, s, t) && Stale(s, t, req) ==>
      r == if Same(m, s, t, req) then Ok((t, s.rows[t])) else Err(ETagMismatch)
    ensures Ready(m, s, t, req) && Allowed(m.perms, s, t) && !Stale(s, t, req) ==>
      if forall i :: 0 <= i < |req.values| ==> Known(req.values[i].0, s.columns, m.folded)
      then r.Ok? && Commits(w, a)
      else exists i: nat :: FirstUnknown(req.values, s.columns, m.folded, i) && r == Err(BadColumn(req.values[i].0))
    ensures Commits(w, a) ==> Ready(m, s, t, req) && Allowed(m.perms, s, t) && !Stale(s, t, req)
  {
    hide Commands, RevertCommands, SetValues, Known;
    var before := if t in s.rows then s.rows[t] else NewRow(m.user);
    SetValuesFailsOnColumn(before.body.values, req.values, s.columns, m.folded);
  }

  lemma MarkedIsCut(w: World, a: Attempt)
    requires OnlyMarked(w, a)
    ensures !Commits(w, a)
  {
    var s := AfterRecovery(w, a);
    hide RevertCommands, Journal.Replay;
    assert |WriteCommands(s, a.plan.value)| == 2;
  }

  /** What a committed insert or update leaves: the row as it was sent, over the one before. */
  lemma UpsertHolds(m: Manager, w: World, t: RowId, req: RowReq, r: Result<(RowId, Row), Error>, a: Attempt)
    requires m.UpsertAnswer(w, AfterRecovery(w, a), t, req, r, a) && Commits(w, a)
    ensures
      var s, s', tag := AfterRecovery(w, a), Step(w, a).st, a.plan.value.tag;
      && t in s'.rows && r == Ok((t, s'.rows[t]))
      && Carries(s'.rows[t], RowOf(s, t), req, m.user, s.columns)
      && s'.rows[t].tag == tag && s'.rows[t].device == None && s'.rows[t].office == None
      && s'.rows[t].etag == tag + 1 && w.next <= tag
      && OthersKept(s, s', {t}) && s'.entry.tag == Some(tag)
  {
    hide Carries, Commands, AfterRecovery, SetRowFields;
    var s, tag := AfterRecovery(w, a), a.plan.value.tag;
    if OnlyMarked(w, a) { MarkedIsCut(w, a); }
    var row := r.value.1;
    FieldsSet(m, s, t, req, tag + 1, tag, None, None, row);
    OneRowCommitted(w, a, tag, t, row, req.etag, w.clock);
  }

  /** How a delete is answered. */
  lemma DeleteAnswers(m: Manager, w: World, s: State, t: RowId, etag: Option<Uri>, r: Result<Uri, Error>, a: Attempt)
    requires m.DeleteAnswer(w, s, t, etag, r, a)
    ensures !m.perms.deleteTable ==> r == Err(PermissionDenied)
    ensures m.perms.deleteTable && !m.schemaDefined ==> r == Err(InconsistentState)
    ensures m.perms.deleteTable && m.schemaDefined ==>
      && (t !in s.rows ==> r == Err(NotFound))
      && (t in s.rows ==>
            && (etag == None ==> r == Err(NullETag))
            && (etag.Some? && etag.value != s.rows[t].etag ==> r == Err(ETagMismatch))
            && (etag == Some(s.rows[t].etag) ==>
                  if m.perms.CanRead(t) && m.perms.CanDelete(t) then r.Ok? && Commits(w, a)
                  else r == Err(PermissionDenied)))
  {
    hide Commits;
  }

  /** A committed delete marks the row as deleted, under a new ETag, and leaves all else of it alone. */
  lemma DeleteHolds(m: Manager, w: World, t: RowId, etag: Option<Uri>, r: Result<Uri, Error>, a: Attempt)
    requires m.DeleteAnswer(w, AfterRecovery(w, a), t, etag, r, a) && Commits(w, a)
    ensures
      var s, s', tag := AfterRecovery(w, a), Step(w, a).st, a.plan.value.tag;
      && r == Ok(tag) && s'.entry.tag == Some(tag) && w.next <= tag
      && t in s.rows && t in s'.rows && Deleted(s.rows[t], s'.rows[t]) && s'.rows[t].etag == tag + 1
      && OthersKept(s, s', {t})
  {
    hide Commands, AfterRecovery;
    var s, tag := AfterRecovery(w, a), a.plan.value.tag;
    OneRowCommitted(w, a, tag, t, s.rows[t].(etag := tag + 1, deleted := true), Some(s.rows[t].etag), w.clock);
  }

  /** The row is deleted; its contents, its creator, its own tag, its device and its office are kept. */
  predicate Deleted(before: Row, row: Row) {
    && row.deleted && row.body == before.body && row.createUser == before.createUser
    && row.tag == before.tag && row.device == before.device && row.office == before.office
  }

  // ----- batches -----

  /** The user may read the row, and delete or write it as the request asks. */
  predicate MayAlter(p: Permissions, r: RowId, req: RowReq) {
    p.CanRead(r) && if req.deleted then p.CanDelete(r) else p.CanWrite(r)
  }

  /** A made identifier that is taken, or a delete of a row that is not there. */
  predicate TurnedDown(s: State, r: RowId, req: RowReq) {
    if r in s.rows then req.rowId.None? else req.deleted
  }

  predicate AltersRow(m: Manager, s: State, r: RowId, req: RowReq) {
    !TurnedDown(s, r, req) && MayAlter(m.perms, r, req) && !Stale(s, r, req)
  }

  /** Request `k` changes its row. */
  predicate AltersAt(m: Manager, s: State, reqs: seq<RowReq>, low: nat, k: nat)
    requires k < |reqs|
  {
    AltersRow(m, s, m.RowAt(s, reqs, low, k), reqs[k])
  }

  /** Request `k` is the last one that changes its row. */
  ghost predicate LastAlters(m: Manager, s: State, reqs: seq<RowReq>, low: nat, k: nat)
    requires k < |reqs|
  {
    && AltersAt(m, s, reqs, low, k)
    && forall j: nat :: k < j < |reqs| && AltersAt(m, s, reqs, low, j) ==>
         m.RowAt(s, reqs, low, j) != m.RowAt(s, reqs, low, k)
  }

  /** What a request makes of its row: deleted, and else unchanged, or as it was sent. */
  ghost predicate AlteredTo(
      m: Manager, s: State, r: RowId, req: RowReq, device: Option<string>, office: Option<string>, tag: Uri, row: Row)
  {
    if req.deleted then r in s.rows && Deleted(s.rows[r], row)
    else
      && Carries(row, RowOf(s, r), req, m.user, s.columns)
      && row.tag == tag && row.device == device && row.office == office
  }

  /** What the client is told about a request. */
  ghost predicate Tells(
      m: Manager, s: State, r: RowId, req: RowReq, device: Option<string>, office: Option<string>, tag: Uri,
      o: RowOutcome)
  {
    if TurnedDown(s, r, req) then o == OfRequest(if r in s.rows then IN_CONFLICT else DENIED, req)
    else if !MayAlter(m.perms, r, req) then o == OfRequest(DENIED, req)
    else if Stale(s, r, req) then o == OfServer(if Same(m, s, r, req) then SUCCESS else IN_CONFLICT, r, s.rows[r])
    else o.OfServer? && o.kind == SUCCESS && o.rowId == r && AlteredTo(m, s, r, req, device, office, tag, o.row)
  }

  lemma JudgedTells(
      m: Manager, s: State, req: RowReq, device: Option<string>, office: Option<string>, tag: Uri,
      low: nat, clock0: nat, next: nat, clock1: nat, item: Item)
    requires m.Judged(s, req, device, office, tag, low, clock0, next, clock1, item)
    ensures item.verdict.Change? <==> AltersRow(m, s, item.rowId, req)
    ensures item.verdict.Change? ==> AlteredTo(m, s, item.rowId, req, device, office, tag, item.verdict.row)
    ensures item.verdict.Turned? <==> TurnedDown(s, item.rowId, req)
    ensures forall o :: o in Told(item) ==> Tells(m, s, item.rowId, req, device, office, tag, o)
  {
    hide Carries, SetRowFields;
    if item.verdict.Change? && !req.deleted {
      FieldsSet(m, s, item.rowId, req, item.verdict.row.etag, tag, device, office, item.verdict.row);
    }
  }

  /** What the judgment of a batch says about its request number `k`. */
  lemma JudgedAt(
      m: Manager, s: State, reqs: seq<RowReq>, device: Option<string>, office: Option<string>, tag: Uri,
      marks: seq<(nat, nat)>, items: seq<Item>, k: nat)
    requires m.AllJudged(s, reqs, device, office, tag, marks, items) && k < |reqs|
    ensures
      var low, item := marks[0].0, items[k];
      && item.rowId == m.RowAt(s, reqs, low, k)
      && (item.verdict.Change? <==> AltersAt(m, s, reqs, low, k))
      && (item.verdict.Change? ==> AlteredTo(m, s, item.rowId, reqs[k], device, office, tag, item.verdict.row))
      && (item.verdict.Turned? <==> TurnedDown(s, item.rowId, reqs[k]))
      && (forall o :: o in Told(item) ==> Tells(m, s, item.rowId, reqs[k], device, office, tag, o))
  {
    hide AltersRow, AlteredTo, Tells, TurnedDown;
    m.MarkIs(s, reqs, device, office, tag, marks, items, k);
    hide m.IdAt, m.Refusal;
    JudgedTells(m, s, reqs[k], device, office, tag, marks[k].0, marks[k].1, marks[k + 1].0, marks[k + 1].1, items[k]);
  }

  /** The judgment of a batch that has committed. */
  lemma CommittedBatch(
      m: Manager, w: World, reqs: seq<RowReq>, listTag: Option<Uri>, device: Option<string>, office: Option<string>,
      r: Result<(seq<RowOutcome>, Uri), Error>, a: Attempt, items: seq<Item>, marks: seq<(nat, nat)>)
    requires m.BatchAnswer(w, reqs, listTag, device, office, r, a, items, marks) && Commits(w, a)
    ensures
      var tag := a.plan.value.tag;
      && m.AllJudged(AfterRecovery(w, a), reqs, device, office, tag, marks, items)
      && |items| == |reqs| && |marks| == |reqs| + 1 && marks[0].0 == tag + 1
      && a.plan.value == PlanOf(tag, items)
      && r == if reqs == [] then Err(DivisionByZero) else Ok((Outcomes(items), tag))
  {
    hide Commands, AfterRecovery, PlanOf, Outcomes, m.Judged;
  }

  /** The rows that the plan of a batch writes, by the requests that alter them. */
  lemma PlanAlters(
      m: Manager, s: State, reqs: seq<RowReq>, device: Option<string>, office: Option<string>, tag: Uri,
      marks: seq<(nat, nat)>, items: seq<Item>)
    requires m.AllJudged(s, reqs, device, office, tag, marks, items) && Sorted(s, items)
    ensures
      var low, rows := marks[0].0, MapOf(PlanOf(tag, items).rows);
      && (forall k: nat :: k < |reqs| && LastAlters(m, s, reqs, low, k) ==>
            var q := m.RowAt(s, reqs, low, k);
            q in rows && AlteredTo(m, s, q, reqs[k], device, office, tag, rows[q]))
      && (forall q :: q in rows ==>
            exists k: nat :: k < |reqs| && AltersAt(m, s, reqs, low, k) && m.RowAt(s, reqs, low, k) == q)
  {
    hide m.AllJudged, AltersAt, AlteredTo, TurnedDown, Tells, m.RowAt, Sorted;
    m.JudgedSize(s, reqs, device, office, tag, marks, items);
    var low, p := marks[0].0, PlanOf(tag, items);
    forall k: nat | k < |reqs| && LastAlters(m, s, reqs, low, k)
      ensures
        var q := m.RowAt(s, reqs, low, k);
        q in MapOf(p.rows) && AlteredTo(m, s, q, reqs[k], device, office, tag, MapOf(p.rows)[q])
    {
      JudgedAt(m, s, reqs, device, office, tag, marks, items, k);
      var n := PlanHasRow(s, tag, items, k);
      JudgedAt(m, s, reqs, device, office, tag, marks, items, n);
    }
    forall q | q in MapOf(p.rows)
      ensures exists k: nat :: k < |reqs| && AltersAt(m, s, reqs, low, k) && m.RowAt(s, reqs, low, k) == q
    {
      var k := ItemOfRow(tag, items, q);
      JudgedAt(m, s, reqs, device, office, tag, marks, items, k);
    }
  }

  lemma ItemOfRow(tag: Uri, items: seq<Item>, q: RowId) returns (k: nat)
    requires q in MapOf(PlanOf(tag, items).rows)
    ensures k < |items| && items[k].verdict.Change? && items[k].rowId == q
  {
    var p := PlanOf(tag, items);
    var x := (q, MapOf(p.rows)[q]);
    MapOfIn(p.rows, q);
    var update := x in RowsOf(items, true);
    RowsHave(items, update, x);
    k :| MakesRow(items, update, k, x);
  }

  /**
    What a committed batch leaves.  A row is as the last request that alters it asks: deleted just
    when that one is a delete, and then with its contents as they were, or else with what was
    sent, over the row before the batch.  A row that no request alters is as it was.
   */
  lemma BatchHolds(
      m: Manager, w: World, reqs: seq<RowReq>, listTag: Option<Uri>, device: Option<string>, office: Option<string>,
      r: Result<(seq<RowOutcome>, Uri), Error>, a: Attempt, items: seq<Item>, marks: seq<(nat, nat)>)
    requires WorldInv(w) && m.BatchAnswer(w, reqs, listTag, device, office, r, a, items, marks) && Commits(w, a)
    ensures
      var s, s', tag := AfterRecovery(w, a), Step(w, a).st, a.plan.value.tag;
      var low := tag + 1;
      && s'.entry.tag == Some(tag)
      && (forall k: nat :: k < |reqs| && LastAlters(m, s, reqs, low, k) ==>
            var q := m.RowAt(s, reqs, low, k);
            && q in s'.rows && AlteredTo(m, s, q, reqs[k], device, office, tag, s'.rows[q])
            && (s'.rows[q].deleted <==> reqs[k].deleted))
      && OthersKept(s, s', set k: nat | k < |reqs| && AltersAt(m, s, reqs, low, k) :: m.RowAt(s, reqs, low, k))
  {
    hide Commands, AfterRecovery, PlanOf, Outcomes, m.AllJudged, m.RowAt, LastAlters, Inv, ListsPending, Sorted;
    hide HoldsSent, AltersAt, Step, MapOf, ValidAttempt;
    var s, tag := AfterRecovery(w, a), a.plan.value.tag;
    CommittedBatch(m, w, reqs, listTag, device, office, r, a, items, marks);
    ValidLists(w, a);
    RecoveredWorld(w, a);
    InvColumnsOnly(s);
    m.JudgedSorted(s, reqs, device, office, tag, marks, items);
    PlanAlters(m, s, reqs, device, office, tag, marks, items);
    CommittedState(w, a);
    forall q | q !in MapOf(PlanOf(tag, items).rows) ensures RowOf(Step(w, a).st, q) == RowOf(s, q) { }
  }

  /** The error names the first unknown column that the request sends. */
  ghost predicate NamesUnknown(m: Manager, s: State, req: RowReq, e: Error) {
    exists i: nat :: FirstUnknown(req.values, s.columns, m.folded, i) && e == BadColumn(req.values[i].0)
  }

  /** Request `k` is the first that ends the batch. */
  ghost predicate FirstSpoiling(m: Manager, s: State, reqs: seq<RowReq>, low: nat, k: nat) {
    && k < |reqs| && m.SpoilsAt(s, reqs, low, k)
    && forall j: nat :: j < k ==> !m.SpoilsAt(s, reqs, low, j)
  }

  lemma SpoilsNames(
      m: Manager, s: State, r: RowId, req: RowReq, device: Option<string>, office: Option<string>, e: Error)
    requires m.Spoils(s, r, req, device, office, e)
    ensures NamesUnknown(m, s, req, e)
  {
    var before := if r in s.rows then s.rows[r] else NewRow(m.user);
    SetValuesFailsOnColumn(before.body.values, req.values, s.columns, m.folded);
  }

  lemma FirstSpoilsIsFirst(
      m: Manager, s: State, reqs: seq<RowReq>, device: Option<string>, office: Option<string>, tag: Uri,
      marks: seq<(nat, nat)>, items: seq<Item>, e: Error)
    requires m.FirstSpoils(s, reqs, device, office, tag, marks, items, e)
    ensures marks != [] && FirstSpoiling(m, s, reqs, marks[0].0, |items|) && NamesUnknown(m, s, reqs[|items|], e)
  {
    hide m.AllJudged, m.Spoils, m.SendsUnknownColumn, m.IdAt, NamesUnknown;
    var k := |items|;
    m.JudgedSize(s, reqs[..k], device, office, tag, marks, items);
    m.FirstSpoilsAt(s, reqs, device, office, tag, marks, items, e);
    SpoilsNames(m, s, m.Target(reqs[k], marks[k].0), reqs[k], device, office, e);
    m.AllJudgedMeans(s, reqs[..k], device, office, tag, marks, items);
    forall j: nat | j < k ensures !m.SpoilsAt(s, reqs, marks[0].0, j) {
      m.IdsOfPart(s, reqs, marks[0].0, k, j);
      assert reqs[..k][j] == reqs[j] && !m.SpoilsAt(s, reqs[..k], marks[0].0, j);
    }
  }

  /**
    Why a batch does not commit: the first request that alters its row and sends an unknown column
    names the column, and if there is none, a row was inserted twice.
   */
  lemma BatchFails(
      m: Manager, w: World, reqs: seq<RowReq>, listTag: Option<Uri>, device: Option<string>, office: Option<string>,
      r: Result<(seq<RowOutcome>, Uri), Error>, a: Attempt, items: seq<Item>, marks: seq<(nat, nat)>)
    requires m.perms.writeTable && m.schemaDefined && w.st.entry.tag == listTag
    requires m.BatchAnswer(w, reqs, listTag, device, office, r, a, items, marks) && !Commits(w, a)
    ensures a.plan.Some? && r.Err?
    ensures
      var s, low := AfterRecovery(w, a), a.plan.value.tag + 1;
      if exists k: nat :: k < |reqs| && m.SpoilsAt(s, reqs, low, k) then
        exists k: nat :: FirstSpoiling(m, s, reqs, low, k) && NamesUnknown(m, s, reqs[k], r.error)
      else r == Err(RowExists)
  {
    hide Commands, AfterRecovery, PlanOf, m.AllJudged, m.SpoilsAt, m.FirstSpoils, NamesUnknown, OnlyMarked;
    var s, tag := AfterRecovery(w, a), a.plan.value.tag;
    if r == Err(RowExists) {
      m.AllJudgedMeans(s, reqs, device, office, tag, marks, items);
    } else {
      FirstSpoilsIsFirst(m, s, reqs, device, office, tag, marks, items, r.error);
    }
  }

  /** Where the outcome of request `k` is in the answer: one that was turned down has two. */
  function PlaceOf(m: Manager, s: State, reqs: seq<RowReq>, low: nat, k: nat): nat
    requires k <= |reqs|
  {
    if k == 0 then 0
    else
      var n := PlaceOf(m, s, reqs, low, k - 1);
      if TurnedDown(s, m.RowAt(s, reqs, low, k - 1), reqs[k - 1]) then n + 2 else n + 1
  }

  /** The outcomes of request `k` are all there, and tell what is to be told. */
  ghost predicate TellsAt(
      m: Manager, s: State, reqs: seq<RowReq>, device: Option<string>, office: Option<string>, tag: Uri,
      low: nat, k: nat, out: seq<RowOutcome>)
    requires k < |reqs|
  {
    var r := m.RowAt(s, reqs, low, k);
    && PlaceOf(m, s, reqs, low, k) < PlaceOf(m, s, reqs, low, k + 1) <= |out|
    && forall p :: PlaceOf(m, s, reqs, low, k) <= p < PlaceOf(m, s, reqs, low, k + 1) ==>
         Tells(m, s, r, reqs[k], device, office, tag, out[p])
  }

  lemma {:induction false} OutcomesAt(
      m: Manager, s: State, reqs: seq<RowReq>, device: Option<string>, office: Option<string>, tag: Uri,
      marks: seq<(nat, nat)>, items: seq<Item>, n: nat)
    requires m.AllJudged(s, reqs, device, office, tag, marks, items) && n <= |reqs|
    ensures |items| == |reqs| && |Outcomes(items[..n])| == PlaceOf(m, s, reqs, marks[0].0, n)
    ensures forall k: nat :: k < n ==>
      TellsAt(m, s, reqs, device, office, tag, marks[0].0, k, Outcomes(items[..n]))
  {
    hide m.AllJudged, AlteredTo, TurnedDown, Tells, m.RowAt, AltersAt;
    m.JudgedSize(s, reqs, device, office, tag, marks, items);
    if n > 0 {
      var low := marks[0].0;
      OutcomesAt(m, s, reqs, device, office, tag, marks, items, n - 1);
      JudgedAt(m, s, reqs, device, office, tag, marks, items, n - 1);
      assert items[..n][..n - 1] == items[..n - 1];
      var out, before := Outcomes(items[..n]), Outcomes(items[..n - 1]);
      assert out == before + Told(items[n - 1]);
      forall k: nat | k < n ensures TellsAt(m, s, reqs, device, office, tag, low, k, out) {
        if k == n - 1 {
          forall p | |before| <= p < |out| ensures out[p] in Told(items[n - 1]) {
            assert out[p] == Told(items[n - 1])[p - |before|];
          }
        } else {
          assert TellsAt(m, s, reqs, device, office, tag, low, k, before);
        }
      }
    }
  }

  /** What the client of a committed batch is told about each of its requests, in their order. */
  lemma BatchTells(
      m: Manager, w: World, reqs: seq<RowReq>, listTag: Option<Uri>, device: Option<string>, office: Option<string>,
      r: Result<(seq<RowOutcome>, Uri), Error>, a: Attempt, items: seq<Item>, marks: seq<(nat, nat)>)
    requires m.BatchAnswer(w, reqs, listTag, device, office, r, a, items, marks) && Commits(w, a) && reqs != []
    ensures r.Ok?
    ensures
      var s, tag, out := AfterRecovery(w, a), a.plan.value.tag, r.value.0;
      var low := tag + 1;
      && r.value.1 == tag && |out| == PlaceOf(m, s, reqs, low, |reqs|)
      && forall k: nat :: k < |reqs| ==> TellsAt(m, s, reqs, device, office, tag, low, k, out)
  {
    hide Commands, AfterRecovery, PlanOf, Outcomes, m.AllJudged, TellsAt, PlaceOf;
    var s, tag := AfterRecovery(w, a), a.plan.value.tag;
    CommittedBatch(m, w, reqs, listTag, device, office, r, a, items, marks);
    OutcomesAt(m, s, reqs, device, office, tag, marks, items, |reqs|);
    assert items[..|reqs|] == items;
  }

  /** A request is about the row that it names, or about one with an identifier made for it. */
  lemma {:induction false} RowsNamed(m: Manager, s: State, reqs: seq<RowReq>, low: nat, j: nat, k: nat)
    requires j <= k < |reqs|
    ensures low <= m.IdAt(s, reqs, low, j) <= m.IdAt(s, reqs, low, k)
    ensures j < k && reqs[j].rowId.None? ==> m.IdAt(s, reqs, low, j) < m.IdAt(s, reqs, low, k)
    ensures reqs[k].rowId.Some? ==> m.RowAt(s, reqs, low, k) == reqs[k].rowId.value
    ensures reqs[k].rowId.None? ==> m.RowAt(s, reqs, low, k) >= low
    ensures j < k && reqs[j].rowId.None? && reqs[k].rowId.None? ==>
      m.RowAt(s, reqs, low, j) < m.RowAt(s, reqs, low, k)
    decreases k
  {
    hide m.Refusal;
    if j < k {
      RowsNamed(m, s, reqs, low, j, k - 1);
    } else if k > 0 {
      RowsNamed(m, s, reqs, low, k - 1, k - 1);
    }
  }
}
