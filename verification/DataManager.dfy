/** Reads and writes of the rows of one table, under the table lock. */
module DataManager {
  import Journal
  import opened Wrappers
  import opened RowLog
  import opened RowLogRecovery
  import opened RowLogWrites
  import opened RowLogRuns
  import opened RowLogLimits
  import opened RowLogSync
  import opened RowLogPaging
  import opened RowLogChains
  import opened RowEntities
  import opened RowStore
  import opened RowAttempts
  import opened BulkRows

  lemma AppendAssociates(a: seq<Put>, b: seq<Put>, c: seq<Put>)
    ensures (a + b) + c == a + (b + c)
  {
  }

  /** Data rows and log rows hold values only for columns of the table. */
  ghost predicate ColumnsOnly(s: State) {
    && (forall r :: r in s.rows ==> Typed(s.columns, s.rows[r].body))
    && (forall e :: e in s.log ==> Typed(s.columns, s.log[e].body))
  }

  lemma InvColumnsOnly(s: State)
    requires Inv(s)
    ensures ColumnsOnly(s)
  {
    forall r | r in s.rows ensures Typed(s.columns, s.rows[r].body) {
      assert Shows(s.rows[r], s.log[s.rows[r].etag]);
    }
  }

  lemma UndoColumnsOnly(s: State, e: Uri)
    requires ColumnsOnly(s) && e in s.log && CanUndo(s, e)
    ensures ColumnsOnly(Replay(s, UndoCommands(s, e)))
    ensures Replay(s, UndoCommands(s, e)) == ResetState(s, e).(log := s.log - {e})
  {
    ResetWrites(s, e);
    Journal.ReplayConcat(Apply, s, ResetRow(s, e), [DropLog(e)]);
    Journal.One(Apply, ResetState(s, e), DropLog(e), 1);
  }

  class Manager {
    const store: Store
    const uris: UriSource
    const clock: SequenceSource
    const user: string
    const perms: Permissions
    const schemaDefined: bool
    /** Columns whose values are folded into another column. */
    const folded: seq<string>
    /** The sent row matches the stored row everywhere but on the row ETag. */
    const significant: (RowReq, Row) -> bool

    constructor (
        store: Store, uris: UriSource, clock: SequenceSource, user: string, perms: Permissions,
        schemaDefined: bool, folded: seq<string>, significant: (RowReq, Row) -> bool)
      ensures this.store == store && this.uris == uris && this.clock == clock
      ensures this.user == user && this.perms == perms && this.schemaDefined == schemaDefined
      ensures this.folded == folded && this.significant == significant
    {
      this.store, this.uris, this.clock := store, uris, clock;
      this.user, this.perms, this.schemaDefined := user, perms, schemaDefined;
      this.folded, this.significant := folded, significant;
    }

    ghost function Now(): World
      reads store, uris, clock
    {
      World(store.Stored(), uris.next, clock.now)
    }

    ghost predicate Valid()
      reads store, uris, clock
    {
      WorldInv(Now())
    }

    /** The writes `ps` took the store from `s` and `journal` to where it is now. */
    ghost predicate Wrote(s: State, journal: seq<Put>, ps: seq<Put>)
      reads store
    {
      store.Stored() == Replay(s, ps) && store.journal == journal + ps
    }

    /** Resets the data row of one pending log row and drops the log row. */
    method UndoChange(id: Uri, l: LogRow) returns (ok: bool)
      requires id in store.log && store.log[id] == l && ColumnsOnly(store.Stored())
      modifies store
      ensures ok <==> CanUndo(old(store.Stored()), id)
      ensures ok ==> Wrote(old(store.Stored()), old(store.journal), UndoCommands(old(store.Stored()), id))
      ensures !ok ==> store.Stored() == old(store.Stored()) && store.journal == old(store.journal)
    {
      ok := true;
      ghost var s := store.Stored();
      if l.prev.None? {
        // the row did not exist before this change
        if l.rowId in store.rows {
          store.DeleteRow(l.rowId);
        }
      } else {
        if l.rowId !in store.rows || l.prev.value !in store.log {
          return false;
        }
        var row, prior := store.rows[l.rowId], store.log[l.prev.value];
        RestoreBySetRowFields(row, l.prev.value, prior, store.columns, folded);
        var reset := SetRowFields(
          row, l.prev.value, prior.tag, prior.body.lastUpdateUser, prior.deleted, prior.body.scope,
          prior.body.meta, prior.device, prior.office, RowValues(prior.body.values, store.columns),
          store.columns, folded);
        store.PutRow(l.rowId, reset.value);
      }
      if ResetRow(s, id) != [] { Journal.One(Apply, s, ResetRow(s, id)[0], 1); }
      assert Wrote(s, old(store.journal), ResetRow(s, id));
      store.DeleteLog(id);
      Journal.ReplayAppend(Apply, s, ResetRow(s, id), DropLog(id));
    }

    /** Undoes the given log rows, one after the other, until a lookup fails. */
    method UndoChanges(ids: seq<Uri>, entities: seq<LogRow>) returns (ok: bool)
      requires Progress(store.Stored(), ids, entities, 0, [], store.Stored())
      modifies store
      ensures Wrote(old(store.Stored()), old(store.journal), RevertCommands(old(store.Stored()), ids))
      ensures ok <==> RevertSucceeds(old(store.Stored()), ids)
    {
      ghost var s0, j0 := store.Stored(), store.journal;
      ghost var done: seq<Put> := [];
      for i := 0 to |ids|
        invariant store.journal == j0 + done
        invariant Progress(s0, ids, entities, i, done, store.Stored())
      {
        ghost var s := store.Stored();
        RevertNext(s0, ids, entities, i, done, s);
        var undone := UndoChange(ids[i], entities[i]);
        if !undone { return false; }
        AppendAssociates(j0, done, UndoCommands(s, ids[i]));
        done := done + UndoCommands(s, ids[i]);
      }
      RevertEnd(s0, ids, entities, done, store.Stored());
      return true;
    }

    /** Undoes the change set that the entry marks as pending. */
    method RevertPendingChanges(entry: Entry) returns (ok: bool, ghost order: seq<Uri>)
      requires entry == store.entry && ColumnsOnly(store.Stored())
      modifies store
      ensures ListsPending(old(store.Stored()), order)
      ensures Wrote(old(store.Stored()), old(store.journal), RevertCommands(old(store.Stored()), order))
      ensures ok <==> RevertSucceeds(old(store.Stored()), order)
    {
      ok, order := true, [];
      if entry.pending.None? { return; }
      var ids := store.QueryLogByTag(entry.pending.value);
      var log := store.log;
      var entities := seq(|ids|, i requires 0 <= i < |ids| && ids[i] in log => log[ids[i]]);
      order := ids;
      RevertStart(store.Stored(), ids, entities);
      ok := UndoChanges(ids, entities);
    }

    /** Recovery from a valid state always succeeds. */
    method Recover() returns (ghost order: seq<Uri>)
      requires Valid()
      modifies store
      ensures ListsPending(old(store.Stored()), order)
      ensures Wrote(old(store.Stored()), old(store.journal), RevertCommands(old(store.Stored()), order))
      ensures store.entry == old(store.entry)
    {
      InvColumnsOnly(store.Stored());
      ghost var s := store.Stored();
      var ok;
      ok, order := RevertPendingChanges(store.entry);
      RevertReaches(s, order);
      RevertShrinks(s, order, |RevertCommands(s, order)|);
    }

    /** The attempt `a` is what has happened since the world was `w`. */
    ghost predicate Did(w: World, journal: seq<Put>, a: Attempt)
      reads store, uris, clock
    {
      Now() == Step(w, a) && store.journal == journal + Taken(w.st, a)
    }

    /** Logs the change of one row, writes the row, and commits. */
    method WriteOne(entry: Entry, tag: Uri, r: RowId, row: Row, prev: Option<Uri>) returns (ghost seqv: nat)
      modifies store, clock
      ensures seqv == old(clock.now) && clock.now == seqv + 1
      ensures Wrote(old(store.Stored()), old(store.journal),
        [PutLog(row.etag, NewLogRow(r, row, tag, prev, seqv))] + [PutRow(r, row)]
        + [PutEntry(entry.(tag := Some(tag), pending := None))])
    {
      ghost var s := store.Stored();
      var v := clock.NextSequenceValue();
      seqv := v;
      var l := NewLogRow(r, row, tag, prev, v);
      store.PutLog(row.etag, l);
      Journal.One(Apply, s, PutLog(row.etag, l), 1);
      store.PutRow(r, row);
      Journal.ReplayAppend(Apply, s, [PutLog(row.etag, l)], PutRow(r, row));
      store.PutEntry(entry.(tag := Some(tag), pending := None));
      Journal.ReplayAppend(
        Apply, s, [PutLog(row.etag, l)] + [PutRow(r, row)], PutEntry(entry.(tag := Some(tag), pending := None)));
    }

    /** The row that a request is about; a request without a row id gets the identifier `newId`. */
    function Target(req: RowReq, newId: Uri): RowId {
      if req.rowId.Some? then req.rowId.value else newId
    }

    /** The user may read and write the row if it is stored, and create it if it is not. */
    predicate MayChange(s: State, r: RowId) {
      if r in s.rows then perms.CanRead(r) && perms.CanWrite(r) else perms.unfilteredWrite
    }

    /** The request names the ETag that the stored row has. */
    predicate Current(s: State, r: RowId, etag: Option<Uri>) {
      r in s.rows && etag == Some(s.rows[r].etag)
    }

    /** An ETag is sent only for a row that is stored. */
    predicate SendsKnownETag(s: State, r: RowId, etag: Option<Uri>) {
      r in s.rows || etag == None
    }

    /** The request with the row id and, if it has none, the scope that it is taken to have. */
    function Completed(s: State, r: RowId, req: RowReq): RowReq {
      req.(rowId := Some(r), scope := Some(ScopeFor(s, r, req)))
    }

    function ScopeFor(s: State, r: RowId, req: RowReq): Scope {
      if req.scope.Some? then req.scope.value else if r in s.rows then s.rows[r].body.scope else EMPTY_SCOPE
    }

    /** The fields of the request over the stored row, or over a new row. */
    function Filled(s: State, r: RowId, req: RowReq, etag: Uri, tag: Uri): Result<Row, Error> {
      var row := if r in s.rows then s.rows[r] else NewRow(user);
      SetRowFields(row, etag, tag, user, false, ScopeFor(s, r, req), req.meta, None, None, req.values, s.columns, folded)
    }

    lemma FilledTyped(s: State, r: RowId, req: RowReq, etag: Uri, tag: Uri)
      requires Inv(s) && Filled(s, r, req, etag, tag).Ok?
      ensures
        var row := Filled(s, r, req, etag, tag).value;
        && Typed(s.columns, row.body) && row.etag == etag && row.tag == tag && !row.deleted
        && row.createUser == if r in s.rows then s.rows[r].createUser else user
    {
      InvColumnsOnly(s);
      var row := if r in s.rows then s.rows[r] else NewRow(user);
      SetValuesTyped(row.body.values, req.values, s.columns, folded);
    }

    /** The answer that stops the request before anything is written; None if it may go through. */
    function Stopped(s: State, r: RowId, req: RowReq): Option<Result<(RowId, Row), Error>> {
      if !perms.writeTable then Some(Err(PermissionDenied))
      else if !schemaDefined then Some(Err(InconsistentState))
      else if r in s.rows && req.rowId.None? then Some(Err(InconsistentState))
      else if !MayChange(s, r) then Some(Err(PermissionDenied))
      else if r in s.rows && !Current(s, r, req.etag) then
        Some(if significant(Completed(s, r, req), s.rows[r]) then Ok((r, s.rows[r])) else Err(ETagMismatch))
      else None
    }

    /** Looks up the row and decides whether the request may go through. */
    method PrepareRow(req: RowReq, rowId: RowId) returns (p: Prepared)
      requires perms.writeTable && schemaDefined
      ensures match p
        case Go(entity, scope) =>
          && Stopped(store.Stored(), rowId, req) == None
          && forall etag, tag :: Filled(store.Stored(), rowId, req, etag, tag) ==
               SetRowFields(entity, etag, tag, user, false, scope, req.meta, None, None, req.values, store.columns, folded)
        case Stop(answer) => Stopped(store.Stored(), rowId, req) == Some(answer)
    {
      var scope := if req.scope.Some? then req.scope.value else EMPTY_SCOPE;
      var entity;
      if rowId in store.rows {
        entity := store.rows[rowId];
        if req.rowId.None? { return Stop(Err(InconsistentState)); }
        if req.scope.None? { scope := entity.body.scope; }
        if !perms.CanRead(rowId) { return Stop(Err(PermissionDenied)); }
        if !perms.CanWrite(rowId) { return Stop(Err(PermissionDenied)); }
        if req.etag.None? || req.etag.value != entity.etag {
          // a row that matches everywhere else is returned as it is
          if significant(req.(rowId := Some(rowId), scope := Some(scope)), entity) { return Stop(Ok((rowId, entity))); }
          return Stop(Err(ETagMismatch));
        }
      } else {
        if !perms.unfilteredWrite { return Stop(Err(PermissionDenied)); }
        entity := NewRow(user);
      }
      return Go(entity, scope);
    }

    /** Marks the change as pending, fills in the row and writes it, unless a column is unknown. */
    method Upsert(entry: Entry, rowId: RowId, entity: Row, scope: Scope, req: RowReq)
      returns (r: Result<Row, Error>, ghost tag: Uri, ghost seqv: nat)
      modifies store, uris, clock
      ensures tag == old(uris.next) && uris.next == tag + 2
      ensures seqv == old(clock.now)
      ensures r == SetRowFields(
        entity, tag + 1, tag, user, false, scope, req.meta, None, None, req.values, store.columns, folded)
      ensures clock.now == if r.Ok? then old(clock.now) + 1 else old(clock.now)
      ensures entry == old(store.entry) ==>
        UpsertWrote(old(store.Stored()), rowId, r, req.etag, tag, seqv, store.Stored(), old(store.journal), store.journal)
    {
      seqv := clock.now;
      var newTag := uris.NewUri();
      tag := newTag;
      store.PutEntry(entry.(pending := Some(newTag)));
      var etag := uris.NewUri();
      r := SetRowFields(
        entity, etag, newTag, user, false, scope, req.meta, None, None, req.values, store.columns, folded);
      if r.Ok? {
        seqv := WriteOne(entry, newTag, rowId, r.value, req.etag);
      }
    }

    /** The answer to an insert or update, and what was written for it, after recovery to `s`. */
    ghost predicate UpsertAnswer(
        w: World, s: State, t: RowId, req: RowReq, r: Result<(RowId, Row), Error>, a: Attempt)
    {
      match Stopped(s, t, req)
      case Some(answer) => r == answer && a.plan == None
      case None =>
        && a.plan.Some?
        && var tag := a.plan.value.tag;
           match Filled(s, t, req, tag + 1, tag)
           case Err(e) => r == Err(e) && OnlyMarked(w, a)
           case Ok(row) =>
             && r == Ok((t, row)) && Commits(w, a)
             && w.next <= tag && a.plan.value == OneRow(tag, t, row, req.etag, w.clock)
    }

    /**
      Wherever it stops, an insert or update can be undone just when it does not insert a row
      with an ETag.
     */
    lemma UpsertRecoverableIff(w: World, t: RowId, req: RowReq, r: Result<(RowId, Row), Error>, a: Attempt)
      requires WorldInv(w) && ListsPending(w.st, a.order)
      requires Stopped(AfterRecovery(w, a), t, req) == None && UpsertAnswer(w, AfterRecovery(w, a), t, req, r, a)
      requires r.Ok?
      ensures RecoverableEverywhere(AfterRecovery(w, a), a.plan.value)
        <==> SendsKnownETag(AfterRecovery(w, a), t, req.etag)
    {
      hide ListsPending, RecoverableEverywhere, BuiltPlan, InsertsSendNoETag, Inv, Issued, Clean, AfterRecovery;
      var s, tag := AfterRecovery(w, a), a.plan.value.tag;
      RecoveredWorld(w, a);
      FilledTyped(s, t, req, tag + 1, tag);
      var row := Filled(s, t, req, tag + 1, tag).value;
      OneRowBuilt(s, w.next, w.clock, tag, t, row, req.etag, w.clock);
      RecoverableIffInsertsSendNoETag(s, w.next, w.clock, a.plan.value);
    }

    function WithRow(r: RowId, row: Result<Row, Error>): Result<(RowId, Row), Error> {
      match row
      case Ok(row) => Ok((r, row))
      case Err(e) => Err(e)
    }

    /** Once the change is carried out, or its columns turned out to be unknown, this is its answer. */
    lemma UpsertAnswered(w: World, s: State, t: RowId, req: RowReq, row: Result<Row, Error>, tag: Uri, a: Attempt)
      requires Stopped(s, t, req) == None && w.next <= tag && row == Filled(s, t, req, tag + 1, tag)
      requires match row
        case Ok(row) => a.plan == Some(OneRow(tag, t, row, req.etag, w.clock)) && Commits(w, a)
        case Err(_) => a.plan == Some(Plan(tag, [], [])) && OnlyMarked(w, a)
      ensures UpsertAnswer(w, s, t, req, WithRow(t, row), a)
    {
      hide Stopped, Filled, Commits, OnlyMarked;
    }

    lemma StoppedAnswer(w: World, s: State, t: RowId, req: RowReq, answer: Result<(RowId, Row), Error>, a: Attempt)
      requires Stopped(s, t, req) == Some(answer) && a.plan == None
      ensures UpsertAnswer(w, s, t, req, answer, a)
    {
    }

    /** The attempt that an insert or update makes, whether or not its columns are known. */
    lemma UpsertAttempt(
        w: World, order: seq<Uri>, req: RowReq, r: RowId, row: Result<Row, Error>, tag: Uri, seqv: nat, w': World,
        journal: seq<Put>, journal': seq<Put>)
      returns (a: Attempt)
      requires WorldInv(w) && ListsPending(w.st, order)
      requires w.next <= tag && w'.next == tag + 2 && seqv == w.clock
      requires
        var c := RevertCommands(w.st, order);
        var s1 := Replay(w.st, c);
        && Stopped(s1, r, req) == None
        && row == Filled(s1, r, req, tag + 1, tag)
        && UpsertWrote(s1, r, row, req.etag, tag, seqv, w'.st, journal + c, journal')
      requires w'.clock == if row.Ok? then seqv + 1 else seqv
      ensures Step(w, a) == w' && journal' == journal + Taken(w.st, a) && a.order == order
      ensures UpsertAnswer(w, AfterRecovery(w, a), r, req, WithRow(r, row), a)
      ensures ValidAttempt(w, a)
      ensures SendsKnownETag(AfterRecovery(w, a), r, req.etag) ==> ValidWhereverCut(w, a)
    {
      hide UpsertAnswer, Journal.Replay, Journal.Crash, Commands, RevertCommands, WorldInv, Taken, ValidAttempt, Filled;
      hide OnlyMarked, ValidWhereverCut, Commits;
      match row {
        case Err(_) =>
          a := MarkedAttempt(w, order, tag, w', journal, journal');
        case Ok(row) =>
          a := OneRowAttempt(w, order, r, row, req.etag, tag, seqv, w', journal, journal');
          UpsertValid(w, a, r, req, row, tag);
      }
      UpsertAnswered(w, AfterRecovery(w, a), r, req, row, tag, a);
    }

    lemma UpsertValid(w: World, a: Attempt, r: RowId, req: RowReq, row: Row, tag: Uri)
      requires WorldInv(w) && ListsPending(w.st, a.order)
      requires a.plan == Some(OneRow(tag, r, row, req.etag, w.clock)) && Commits(w, a)
      requires w.next <= tag && a.next == tag + 2 && a.clock == w.clock + 1
      requires
        var s1 := AfterRecovery(w, a);
        Stopped(s1, r, req) == None && Ok(row) == Filled(s1, r, req, tag + 1, tag)
      ensures ValidAttempt(w, a)
      ensures SendsKnownETag(AfterRecovery(w, a), r, req.etag) ==> ValidWhereverCut(w, a)
    {
      hide Journal.Replay, RevertCommands, Inv, Filled, ListsPending, ValidAttempt, ValidWhereverCut, Typed, Commits;
      var s1 := AfterRecovery(w, a);
      RevertReaches(w.st, a.order);
      FilledTyped(s1, r, req, tag + 1, tag);
      OneRowAttemptValid(w, a, tag, r, row, req.etag, w.clock);
    }

    /** Inserts or updates one row. */
    method InsertOrUpdateRow(req: RowReq) returns (r: Result<(RowId, Row), Error>, ghost a: Attempt)
      requires Valid()
      modifies store, uris, clock
      ensures Did(old(Now()), old(store.journal), a)
      ensures
        var s, t := AfterRecovery(old(Now()), a), Target(req, old(uris.next));
        && ValidAttempt(old(Now()), a)
        && (SendsKnownETag(s, t, req.etag) ==> ValidWhereverCut(old(Now()), a))
        && UpsertAnswer(old(Now()), s, t, req, r, a)
    {
      hide WorldInv, Inv, Journal.Replay, RevertCommands, ListsPending, Step, Taken, UpsertAnswer, ValidAttempt;
      hide ValidWhereverCut;
      ghost var w, journal := Now(), store.journal;
      if !perms.writeTable || !schemaDefined {
        a := Idle(w);
        r := Err(if !perms.writeTable then PermissionDenied else InconsistentState);
        StoppedAnswer(w, AfterRecovery(w, a), Target(req, w.next), req, r, a);
        return;
      }
      var entry := store.entry;
      ghost var order := Recover();
      var rowId;
      if req.rowId.None? { rowId := uris.NewUri(); } else { rowId := req.rowId.value; }
      var prepared := PrepareRow(req, rowId);
      match prepared
      case Stop(answer) =>
        a := OnlyRecovery(w, order, Now());
        r := answer;
        StoppedAnswer(w, AfterRecovery(w, a), rowId, req, r, a);
      case Go(entity, scope) =>
        ghost var tag, seqv;
        var row;
        row, tag, seqv := Upsert(entry, rowId, entity, scope, req);
        a := UpsertAttempt(w, order, req, rowId, row, tag, seqv, Now(), journal, store.journal);
        match row {
          case Ok(row) => r := Ok((rowId, row));
          case Err(e) => r := Err(e);
        }
    }

    /** The error that stops a delete before anything is written; None if it may go through. */
    function DeleteStopped(s: State, r: RowId, etag: Option<Uri>): Option<Error> {
      if !perms.deleteTable then Some(PermissionDenied)
      else if !schemaDefined then Some(InconsistentState)
      else if r !in s.rows then Some(NotFound)
      else if etag.None? then Some(NullETag)
      else if !Current(s, r, etag) then Some(ETagMismatch)
      else if !perms.CanRead(r) || !perms.CanDelete(r) then Some(PermissionDenied)
      else None
    }

    /** The answer to a delete, and what was written for it, after recovery to `s`. */
    ghost predicate DeleteAnswer(
        w: World, s: State, rowId: RowId, etag: Option<Uri>, r: Result<Uri, Error>, a: Attempt)
    {
      match DeleteStopped(s, rowId, etag)
      case Some(e) => r == Err(e) && a.plan == None
      case None =>
        && a.plan.Some? && Commits(w, a) && rowId in s.rows
        && var tag := a.plan.value.tag;
           && r == Ok(tag) && w.next <= tag
           && a.plan.value == OneRow(
                tag, rowId, s.rows[rowId].(etag := tag + 1, deleted := true), Some(s.rows[rowId].etag), w.clock)
    }

    method PrepareDelete(rowId: RowId, etag: Option<Uri>) returns (r: Result<Row, Error>)
      requires perms.deleteTable && schemaDefined
      ensures match r
        case Ok(row) =>
          DeleteStopped(store.Stored(), rowId, etag) == None && rowId in store.rows && row == store.rows[rowId]
        case Err(e) => DeleteStopped(store.Stored(), rowId, etag) == Some(e)
    {
      if rowId !in store.rows { return Err(NotFound); }
      var entity := store.rows[rowId];
      if etag.None? { return Err(NullETag); }
      if etag.value != entity.etag { return Err(ETagMismatch); }
      if !perms.CanRead(rowId) { return Err(PermissionDenied); }
      if !perms.CanDelete(rowId) { return Err(PermissionDenied); }
      return Ok(entity);
    }

    /** Marks the delete as pending and writes the row with a new ETag, as deleted. */
    method WriteDelete(entry: Entry, rowId: RowId, entity: Row) returns (tag: Uri, ghost seqv: nat)
      modifies store, uris, clock
      ensures tag == old(uris.next) && uris.next == tag + 2
      ensures seqv == old(clock.now) && clock.now == seqv + 1
      ensures entry == old(store.entry) ==>
        UpsertWrote(
          old(store.Stored()), rowId, Ok(entity.(etag := tag + 1, deleted := true)), Some(entity.etag), tag, seqv,
          store.Stored(), old(store.journal), store.journal)
    {
      tag := uris.NewUri();
      store.PutEntry(entry.(pending := Some(tag)));
      var previous := entity.etag;
      var newETag := uris.NewUri();
      seqv := WriteOne(entry, tag, rowId, entity.(etag := newETag, deleted := true), Some(previous));
    }

    /** Deletes a row: it stays in the table, marked as deleted. */
    method DeleteRow(rowId: RowId, etag: Option<Uri>) returns (r: Result<Uri, Error>, ghost a: Attempt)
      requires Valid()
      modifies store, uris, clock
      ensures Did(old(Now()), old(store.journal), a) && ValidAttempt(old(Now()), a) && ValidWhereverCut(old(Now()), a)
      ensures DeleteAnswer(old(Now()), AfterRecovery(old(Now()), a), rowId, etag, r, a)
    {
      ghost var w, journal := Now(), store.journal;
      if !perms.deleteTable || !schemaDefined {
        a := Idle(w);
        return Err(if !perms.deleteTable then PermissionDenied else InconsistentState), a;
      }
      var entry := store.entry;
      ghost var order := Recover();
      var prepared := PrepareDelete(rowId, etag);
      match prepared
      case Err(e) =>
        a := OnlyRecovery(w, order, Now());
        r := Err(e);
      case Ok(entity) =>
        ghost var seqv;
        var tag;
        tag, seqv := WriteDelete(entry, rowId, entity);
        a := DeleteAttempt(w, order, rowId, etag, entity, tag, seqv, Now(), journal, store.journal);
        r := Ok(tag);
    }

    /** Once the delete is committed, its answer is the tag of the change. */
    lemma DeleteAnswered(w: World, r: RowId, etag: Option<Uri>, entity: Row, tag: Uri, a: Attempt)
      requires DeleteStopped(AfterRecovery(w, a), r, etag) == None
      requires r in AfterRecovery(w, a).rows && AfterRecovery(w, a).rows[r] == entity && Commits(w, a) && w.next <= tag
      requires a.plan == Some(OneRow(tag, r, entity.(etag := tag + 1, deleted := true), Some(entity.etag), w.clock))
      ensures DeleteAnswer(w, AfterRecovery(w, a), r, etag, Ok(tag), a)
    {
      hide AfterRecovery, Commits, DeleteStopped;
    }

    /** The attempt that a delete makes. */
    lemma DeleteAttempt(
        w: World, order: seq<Uri>, r: RowId, etag: Option<Uri>, entity: Row, tag: Uri, seqv: nat, w': World,
        journal: seq<Put>, journal': seq<Put>)
      returns (a: Attempt)
      requires WorldInv(w) && ListsPending(w.st, order)
      requires w.next <= tag && w'.next == tag + 2 && seqv == w.clock && w'.clock == seqv + 1
      requires
        var c := RevertCommands(w.st, order);
        var s1 := Replay(w.st, c);
        && DeleteStopped(s1, r, etag) == None && r in s1.rows && s1.rows[r] == entity
        && UpsertWrote(s1, r, Ok(entity.(etag := tag + 1, deleted := true)), Some(entity.etag), tag, seqv,
                       w'.st, journal + c, journal')
      ensures Step(w, a) == w' && journal' == journal + Taken(w.st, a) && a.order == order
      ensures ValidAttempt(w, a) && ValidWhereverCut(w, a)
      ensures DeleteAnswer(w, AfterRecovery(w, a), r, etag, Ok(tag), a)
    {
      hide Journal.Replay, RevertCommands, Typed, ListsPending, DeleteAnswer, ValidAttempt, ValidWhereverCut, Commits;
      var s1 := Replay(w.st, RevertCommands(w.st, order));
      var row := entity.(etag := tag + 1, deleted := true);
      a := OneRowAttempt(w, order, r, row, Some(entity.etag), tag, seqv, w', journal, journal');
      RevertReaches(w.st, order);
      InvColumnsOnly(s1);
      OneRowAttemptValid(w, a, tag, r, row, Some(entity.etag), seqv);
      DeleteAnswered(w, r, etag, entity, tag, a);
    }

    /** Reads one row, deleted or not. */
    method GetRow(rowId: RowId) returns (r: Result<Row, Error>, ghost a: Attempt)
      requires Valid()
      modifies store
      ensures Did(old(Now()), old(store.journal), a) && ValidAttempt(old(Now()), a) && a.plan == None
      ensures
        var t := TableOf(old(store.Stored()));
        match r
        case Ok(row) =>
          && perms.readTable && schemaDefined && perms.CanRead(rowId)
          && rowId in t.head && row.etag == t.head[rowId] && row.etag in t.log && Shows(row, t.log[row.etag])
        case Err(NotFound) => perms.readTable && schemaDefined && rowId !in t.head
        case Err(InconsistentState) => perms.readTable && !schemaDefined
        case Err(PermissionDenied) => !perms.readTable || (rowId in t.head && !perms.CanRead(rowId))
        case Err(_) => false
    {
      ghost var w := Now();
      if !perms.readTable || !schemaDefined {
        a := Idle(w);
        return Err(if !perms.readTable then PermissionDenied else InconsistentState), a;
      }
      ghost var order := Recover();
      a := OnlyRecovery(w, order, Now());
      RevertReaches(w.st, order);
      RecoveredShowsTable(w.st);
      if rowId !in store.rows { return Err(NotFound), a; }
      var row := store.rows[rowId];
      if !perms.CanRead(rowId) { return Err(PermissionDenied), a; }
      return Ok(row), a;
    }

    /** The sequence value of the last log row of the change set, None if it has no log row. */
    method GetSequenceValueForDataETag(tag: Uri) returns (v: Option<nat>)
      requires SeqDistinct(Table(None, store.log, map[]))
      ensures IsSeqOf(store.log, tag, v)
    {
      var es := set e | e in store.log && store.log[e].tag == tag;
      var values := store.QueryLogAscending(es);
      EmptyOrder(store.log, values, es);
      assert forall e :: e in store.log && store.log[e].tag == tag ==> e in es;
      if values == [] { return None; }
      // the last in ascending order is the first in descending order
      var last := values[|values| - 1];
      LastIsLargest(store.log, values, es);
      assert last in values;
      return Some(store.log[last].seqv);
    }

    /** Keeps the last of several log rows of one data row. */
    method ComputeDiff(log: map<Uri, LogRow>, hits: seq<Uri>) returns (diff: View)
      requires forall e :: e in hits ==> e in log
      ensures diff == Diff(log, hits)
    {
      diff := map[];
      for i := 0 to |hits|
        invariant diff == Diff(log, hits[..i])
      {
        var e := hits[i];
        diff := diff[log[e].rowId := (e, log[e])];
        assert hits[..i + 1][..i] == hits[..i];
      }
      assert hits[..|hits|] == hits;
    }

    /** The log rows of a page whose data rows the user may read. */
    function Readable(log: map<Uri, LogRow>, hits: seq<Uri>): (kept: seq<Uri>)
      requires forall e :: e in hits ==> e in log
      ensures forall e :: e in kept <==> e in hits && perms.CanRead(log[e].rowId)
      ensures perms.unfilteredRead ==> kept == hits
    {
      if hits == [] then []
      else
        var n := |hits| - 1;
        var rest := Readable(log, hits[..n]);
        if perms.CanRead(log[hits[n]].rowId) then rest + [hits[n]] else rest
    }

    /** The difference of the readable log rows is the part of the whole difference that may be read. */
    lemma {:induction false} ReadableDiff(log: map<Uri, LogRow>, hits: seq<Uri>)
      requires forall e :: e in hits ==> e in log
      ensures forall r :: r in Diff(log, Readable(log, hits)) <==> r in Diff(log, hits) && perms.CanRead(r)
      ensures forall r :: r in Diff(log, hits) && perms.CanRead(r) ==>
        Diff(log, Readable(log, hits))[r] == Diff(log, hits)[r]
    {
      if hits != [] {
        var n := |hits| - 1;
        ReadableDiff(log, hits[..n]);
        var kept := Readable(log, hits);
        if perms.CanRead(log[hits[n]].rowId) { assert kept[..|kept| - 1] == Readable(log, hits[..n]); }
      }
    }

    /** Reads a page of the changes since the change set `tag`, or of all changes. */
    method GetRowsSince(tag: Option<Uri>, startCursor: Option<Uri>, limit: nat)
      returns (r: Result<RowChanges, Error>, ghost a: Attempt, ghost hits: seq<Uri>)
      requires Valid()
      modifies store
      ensures Did(old(Now()), old(store.journal), a) && ValidAttempt(old(Now()), a) && a.plan == None
      ensures
        var t := TableOf(old(store.Stored()));
        match r
        case Err(e) =>
          (e == PermissionDenied && !perms.readTable) || (e == InconsistentState && perms.readTable && !schemaDefined)
        case Ok(changes) =>
          var page := Page(hits, startCursor, limit);
          && Answers(t.log, old(store.entry.apriori), tag, hits)
          && (forall e :: e in page ==> e in t.log)
          && changes.rows == Diff(t.log, Readable(t.log, page))
          && changes.tag == t.tag
          && changes.resume == Resume(page, startCursor)
          && changes.hasMore == HasMore(hits, startCursor, limit)
    {
      ghost var w := Now();
      hits := [];
      if !perms.readTable || !schemaDefined {
        a := Idle(w);
        return Err(if !perms.readTable then PermissionDenied else InconsistentState), a, hits;
      }
      var entry := store.entry;
      ghost var order := Recover();
      a := OnlyRecovery(w, order, Now());
      RecoveredLog(w.st, order);
      var v := None;
      if tag.Some? { v := GetSequenceValueForDataETag(tag.value); }
      var matches := QueryFrom(entry, v);
      hits := matches;
      AnswersDistinct(store.log, entry.apriori, tag, matches);
      var changes := ReadChanges(entry, matches, startCursor, limit);
      return Ok(changes), a, hits;
    }

    /** The readable rows of the page after the cursor, and where the next page starts. */
    method ReadChanges(entry: Entry, matches: seq<Uri>, startCursor: Option<Uri>, limit: nat)
      returns (changes: RowChanges)
      requires forall e :: e in matches ==> e in store.log
      ensures
        var page := Page(matches, startCursor, limit);
        && (forall e :: e in page ==> e in store.log)
        && changes.rows == Diff(store.log, Readable(store.log, page)) && changes.tag == entry.tag
        && changes.resume == Resume(page, startCursor) && changes.hasMore == HasMore(matches, startCursor, limit)
    {
      var page := Page(matches, startCursor, limit);
      AfterInHits(matches, startCursor);
      var diff := ComputeDiff(store.log, Readable(store.log, page));
      return RowChanges(diff, entry.tag, Resume(page, startCursor), HasMore(matches, startCursor, limit));
    }

    /** The log rows after a sequence value, or all from the first one of the table on. */
    method QueryFrom(entry: Entry, v: Option<nat>) returns (hits: seq<Uri>)
      requires SeqDistinct(Table(None, store.log, map[]))
      ensures InOrder(store.log, hits, Matches(store.log, entry.apriori, v))
    {
      if v.None? {
        hits := store.QueryLogAscending(FromStart(store.log, entry.apriori));
      } else {
        hits := store.QueryLogAscending(Since(store.log, v.value));
      }
    }

    /** The change sets after a change set and after a sequence value, and a value to ask with next time. */
    method GetChangeSetsSince(tag: Option<Uri>, sequenceValue: Option<nat>)
      returns (r: Result<ChangeSets, Error>, ghost a: Attempt)
      requires Valid()
      modifies store, clock
      ensures Did(old(Now()), old(store.journal), a) && ValidAttempt(old(Now()), a) && a.plan == None
      ensures
        var t := TableOf(old(store.Stored()));
        match r
        case Err(e) =>
          (e == PermissionDenied && !perms.readTable) || (e == InconsistentState && perms.readTable && !schemaDefined)
        case Ok(sets) =>
          && sets.tag == t.tag
          && sets.sequenceValue < clock.now
          && (forall e :: e in t.log ==> t.log[e].seqv < sets.sequenceValue)
          && Polled(t.log, old(store.entry.apriori), tag, sequenceValue, sets.tags)
    {
      ghost var w := Now();
      if !perms.readTable {
        a := Idle(w);
        return Err(PermissionDenied), a;
      }
      var retrieval := clock.NextSequenceValue();
      if !schemaDefined {
        a := IdleUntil(w, Now());
        return Err(InconsistentState), a;
      }
      var entry := store.entry;
      ghost var order := Recover();
      a := OnlyRecovery(w, order, Now());
      RecoveredLog(w.st, order);
      var tags := PollLog(entry, tag, sequenceValue);
      return Ok(ChangeSets(tags, entry.tag, retrieval)), a;
    }

    /** The tags of the log rows after the later of the two starting points. */
    method PollLog(entry: Entry, tag: Option<Uri>, sequenceValue: Option<nat>) returns (tags: set<Uri>)
      requires SeqDistinct(Table(None, store.log, map[]))
      ensures Polled(store.log, entry.apriori, tag, sequenceValue, tags)
    {
      var unified := None;
      if tag.Some? { unified := GetSequenceValueForDataETag(tag.value); }
      ghost var from := unified;
      if sequenceValue.Some? && (unified.None? || unified.value < sequenceValue.value) {
        unified := sequenceValue;
      }
      assert unified == Unified(from, sequenceValue);
      var hits := QueryFrom(entry, unified);
      tags := set e | e in hits :: store.log[e].tag;
      assert tags == TagsOf(store.log, Matches(store.log, entry.apriori, unified));
    }

    /** How one row of a batch is answered without a change; None if it changes the table. */
    function Refusal(s: State, r: RowId, req: RowReq): Option<Verdict> {
      var stored := r in s.rows;
      if stored && req.rowId.None? then Some(Turned(OfRequest(IN_CONFLICT, req)))
      else if !stored && req.deleted then Some(Turned(OfRequest(DENIED, req)))
      else if !perms.CanRead(r) then Some(Answered(OfRequest(DENIED, req)))
      else if !(if req.deleted then perms.CanDelete(r) else perms.CanWrite(r)) then
        Some(Answered(OfRequest(DENIED, req)))
      else if stored && !Current(s, r, req.etag) then
        var kind := if significant(Completed(s, r, req), s.rows[r]) then SUCCESS else IN_CONFLICT;
        Some(Answered(OfServer(kind, r, s.rows[r])))
      else None
    }

    /** The change that one row of a batch makes, given its new ETag. */
    function Changed(
        s: State, r: RowId, req: RowReq, device: Option<string>, office: Option<string>, etag: Uri, tag: Uri
        ): Result<Verdict, Error>
    {
      if r in s.rows && req.deleted then
        Ok(Change(s.rows[r].(etag := etag, deleted := true), Some(s.rows[r].etag), true))
      else
        var row := if r in s.rows then s.rows[r] else NewRow(user);
        match SetRowFields(row, etag, tag, user, false, ScopeFor(s, r, req), req.meta, device, office,
                           req.values, s.columns, folded)
        case Err(e) => Err(e)
        case Ok(row) => Ok(Change(row, req.etag, r in s.rows))
    }

    /** Sets the outcome of a row that the user may not change, or that the client does not know yet. */
    method PrepareRowForInsertUpdateOrDelete(wrapper: BulkRowObjWrapper, ghost req: RowReq)
      requires wrapper.entity.Some? && wrapper.row.rowId.Some? && wrapper.outcome == None
      requires
        var r, s := wrapper.row.rowId.value, store.Stored();
        && (r in s.rows ==> wrapper.entity.value == s.rows[r])
        && wrapper.nullIncomingScope == req.scope.None? && wrapper.newRowId == req.rowId.None?
        && wrapper.row == req.(rowId := Some(r), scope := Some(wrapper.rowFilterScope))
        && wrapper.rowFilterScope == (if req.scope.Some? then req.scope.value else EMPTY_SCOPE)
        && (req.rowId.Some? ==> r == req.rowId.value)
        && !(r in s.rows && req.rowId.None?) && !(r !in s.rows && req.deleted)
      modifies wrapper
      ensures wrapper.entity == old(wrapper.entity)
      ensures
        var r, s := old(wrapper.row.rowId.value), store.Stored();
        match wrapper.outcome
        case Some(outcome) => Refusal(s, r, req) == Some(Answered(outcome))
        case None =>
          && Refusal(s, r, req) == None
          && wrapper.rowFilterScope == ScopeFor(s, r, req) && wrapper.row == Completed(s, r, req)
    {
      var rowId := wrapper.row.rowId.value;
      var entity := wrapper.entity.value;
      var fromDatabase := rowId in store.rows;
      if wrapper.nullIncomingScope && fromDatabase {
        wrapper.SetRowFilterScope(entity.body.scope);
      }
      if !perms.CanRead(rowId) {
        wrapper.SetOutcome(DENIED);
        return;
      }
      var hasPermissions := if wrapper.row.deleted then perms.CanDelete(rowId) else perms.CanWrite(rowId);
      if !hasPermissions {
        wrapper.SetOutcome(DENIED);
        return;
      }
      if fromDatabase {
        if wrapper.row.etag.None? || wrapper.row.etag.value != entity.etag {
          if significant(wrapper.row, entity) {
            wrapper.SetServerOutcome(rowId, entity, SUCCESS);
            return;
          }
          wrapper.SetServerOutcome(rowId, entity, IN_CONFLICT);
          return;
        }
      }
    }

    /** The next new identifier after the request: one for a row without an id, and one for a new row ETag. */
    function NextId(s: State, req: RowReq, low: nat): nat {
      low + (if req.rowId.None? then 1 else 0) + if Refusal(s, Target(req, low), req) == None then 1 else 0
    }

    /** `item` says what happens to the request, with identifiers from `low` on and the next sequence value. */
    ghost predicate Judged(
        s: State, req: RowReq, device: Option<string>, office: Option<string>, tag: Uri,
        low: nat, clock0: nat, next: nat, clock1: nat, item: Item)
    {
      && item.req == req && item.rowId == Target(req, low) && next == NextId(s, req, low)
      && match Refusal(s, item.rowId, req)
         case Some(verdict) => item.verdict == verdict && clock1 == clock0
         case None =>
           && item.verdict.Change? && clock1 == clock0 + 1 && item.seqv == clock0
           && item.verdict.row.etag == next - 1
           && Changed(s, item.rowId, req, device, office, item.verdict.row.etag, tag) == Ok(item.verdict)
    }

    /** Looks up one row of the batch and decides whether it changes the table. */
    method LookUpRow(req: RowReq)
      returns (wrapper: BulkRowObjWrapper, rowId: RowId, refusal: Option<Verdict>)
      modifies uris
      ensures fresh(wrapper) && rowId == Target(req, old(uris.next))
      ensures uris.next == old(uris.next) + if req.rowId.None? then 1 else 0
      ensures refusal == Refusal(store.Stored(), rowId, req)
      ensures match refusal
        case Some(Turned(o)) => wrapper.outcome == Some(o)
        case Some(Answered(o)) => wrapper.outcome == Some(o)
        case Some(_) => false
        case None =>
          && wrapper.outcome == None
          && wrapper.entity == Some(if rowId in store.rows then store.rows[rowId] else NewRow(user))
          && wrapper.row.rowId == Some(rowId) && wrapper.rowFilterScope == ScopeFor(store.Stored(), rowId, req)
    {
      if req.rowId.None? { rowId := uris.NewUri(); } else { rowId := req.rowId.value; }
      wrapper := new BulkRowObjWrapper(req, rowId);
      var stored := rowId in store.rows;
      if stored && wrapper.newRowId {
        // a generated row id collides with a stored one
        wrapper.SetOutcome(IN_CONFLICT);
        refusal := Some(Turned(OfRequest(IN_CONFLICT, wrapper.row)));
        return;
      }
      if !stored && req.deleted {
        wrapper.SetOutcome(DENIED);
        refusal := Some(Turned(OfRequest(DENIED, wrapper.row)));
        return;
      }
      wrapper.SetEntity(if stored then store.rows[rowId] else NewRow(user));
      PrepareRowForInsertUpdateOrDelete(wrapper, req);
      refusal := if wrapper.outcome.Some? then Some(Answered(wrapper.outcome.value)) else None;
    }

    /** Fills in the new contents of a row that changes. */
    method FillInRow(
        wrapper: BulkRowObjWrapper, req: RowReq, rowId: RowId, device: Option<string>, office: Option<string>, tag: Uri)
      returns (r: Result<Verdict, Error>)
      requires wrapper.entity == Some(if rowId in store.rows then store.rows[rowId] else NewRow(user))
      requires wrapper.rowFilterScope == ScopeFor(store.Stored(), rowId, req)
      requires rowId in store.rows || !req.deleted
      modifies wrapper`entity, uris
      ensures uris.next == old(uris.next) + 1
      ensures r == Changed(store.Stored(), rowId, req, device, office, old(uris.next), tag)
      ensures r.Err? ==> r.error.BadColumn?
      ensures r.Ok? ==>
        && r.value.Change? && r.value.row.etag == old(uris.next) && wrapper.entity == Some(r.value.row)
    {
      var entity, stored := wrapper.entity.value, rowId in store.rows;
      var etag := uris.NewUri();
      var previous := req.etag;
      if req.deleted {
        previous := Some(entity.etag);
        entity := entity.(etag := etag, deleted := true);
      } else {
        var filled := SetRowFields(
          entity, etag, tag, user, false, wrapper.rowFilterScope, req.meta, device, office, req.values,
          store.columns, folded);
        if filled.Err? {
          SetValuesFailsOnColumn(entity.body.values, req.values, store.columns, folded);
          return Err(filled.error);
        }
        entity := filled.value;
      }
      wrapper.SetEntity(entity);
      return Ok(Change(entity, previous, stored));
    }

    /** Whether a column is unknown does not depend on the new identifiers. */
    lemma SpoilsAny(
        s: State, r: RowId, req: RowReq, device: Option<string>, office: Option<string>, etag: Uri, tag: Uri)
      ensures Changed(s, r, req, device, office, etag, tag).Err? ==>
        Changed(s, r, req, device, office, 0, 0) == Err(Changed(s, r, req, device, office, etag, tag).error)
      ensures Changed(s, r, req, device, office, etag, tag).Ok? <==> Changed(s, r, req, device, office, 0, 0).Ok?
    {
    }

    /** Judges one row of the batch and fills in its new contents. */
    method ProcessRow(req: RowReq, device: Option<string>, office: Option<string>, tag: Uri)
      returns (wrapper: BulkRowObjWrapper, r: Result<Item, Error>)
      modifies uris, clock
      ensures fresh(wrapper) && old(uris.next) <= uris.next && old(clock.now) <= clock.now
      ensures match r
        case Ok(item) =>
          && Judged(store.Stored(), req, device, office, tag, old(uris.next), old(clock.now), uris.next, clock.now, item)
          && Wraps(wrapper, item)
        case Err(e) => e.BadColumn? && Spoils(store.Stored(), Target(req, old(uris.next)), req, device, office, e)
    {
      var rowId, refusal;
      wrapper, rowId, refusal := LookUpRow(req);
      if refusal.Some? {
        r := Ok(Item(req, rowId, refusal.value, 0));
        return;
      }
      var verdict := FillInRow(wrapper, req, rowId, device, office, tag);
      if verdict.Err? {
        SpoilsAny(store.Stored(), rowId, req, device, office, uris.next - 1, tag);
        r := Err(verdict.error);
        return;
      }
      var v := clock.NextSequenceValue();
      r := Ok(Item(req, rowId, verdict.value, v));
    }

    /** The items judge the requests one after the other; `marks` are the counters in between. */
    ghost predicate AllJudged(
        s: State, reqs: seq<RowReq>, device: Option<string>, office: Option<string>, tag: Uri,
        marks: seq<(nat, nat)>, items: seq<Item>)
    {
      && |items| == |reqs| && |marks| == |reqs| + 1
      && forall k :: 0 <= k < |items| ==>
           Judged(s, reqs[k], device, office, tag, marks[k].0, marks[k].1, marks[k + 1].0, marks[k + 1].1, items[k])
    }

    lemma NoneJudged(s: State, device: Option<string>, office: Option<string>, tag: Uri, mark: (nat, nat))
      ensures AllJudged(s, [], device, office, tag, [mark], [])
    {
    }

    lemma JudgedMore(
        s: State, reqs: seq<RowReq>, device: Option<string>, office: Option<string>, tag: Uri,
        marks: seq<(nat, nat)>, items: seq<Item>, k: nat, item: Item, mark: (nat, nat))
      requires k < |reqs| && |marks| == k + 1 && AllJudged(s, reqs[..k], device, office, tag, marks, items)
      requires Judged(s, reqs[k], device, office, tag, marks[k].0, marks[k].1, mark.0, mark.1, item)
      ensures AllJudged(s, reqs[..k + 1], device, office, tag, marks + [mark], items + [item])
    {
      hide Judged;
    }

    /** Judges all rows of the batch, in order, and collects what is to be written. */
    method ProcessRows(reqs: seq<RowReq>, device: Option<string>, office: Option<string>, tag: Uri)
      returns (failed: Option<Error>, logs: seq<(Uri, LogRow)>, updates: seq<(RowId, Row)>, inserts: seq<(RowId, Row)>,
               wrappers: seq<BulkRowObjWrapper>, ghost items: seq<Item>, ghost marks: seq<(nat, nat)>)
      modifies uris, clock
      ensures old(uris.next) <= uris.next && old(clock.now) <= clock.now
      ensures forall w :: w in wrappers ==> fresh(w)
      ensures failed.Some? ==>
        && failed.value.BadColumn?
        && FirstSpoils(store.Stored(), reqs, device, office, tag, marks, items, failed.value)
        && marks != [] && marks[0] == (old(uris.next), old(clock.now))
      ensures failed == None ==>
        && AllJudged(store.Stored(), reqs, device, office, tag, marks, items)
        && marks[0] == (old(uris.next), old(clock.now)) && marks[|reqs|] == (uris.next, clock.now)
        && logs == Logs(tag, items) && updates == RowsOf(items, true) && inserts == RowsOf(items, false)
        && AllReady(wrappers, Outcomes(items))
    {
      hide Judged, AllJudged, Ready, Spoils;
      NoneJudged(store.Stored(), device, office, tag, (uris.next, clock.now));
      failed, logs, updates, inserts, wrappers := None, [], [], [], [];
      items, marks := [], [(uris.next, clock.now)];
      for k := 0 to |reqs|
        invariant old(uris.next) <= uris.next && old(clock.now) <= clock.now
        invariant forall w :: w in wrappers ==> fresh(w)
        invariant |items| == k && |marks| == k + 1
        invariant AllJudged(store.Stored(), reqs[..k], device, office, tag, marks, items)
        invariant marks[0] == (old(uris.next), old(clock.now)) && marks[k] == (uris.next, clock.now)
        invariant logs == Logs(tag, items) && updates == RowsOf(items, true) && inserts == RowsOf(items, false)
        invariant AllReady(wrappers, Outcomes(items))
      {
        var wrapper, r := ProcessRow(reqs[k], device, office, tag);
        if r.Err? {
          failed := Some(r.error);
          return;
        }
        wrappers := ListWrapper(wrappers, items, wrapper, r.value);
        logs, updates, inserts := ListWrites(tag, items, r.value, logs, updates, inserts);
        JudgedMore(store.Stored(), reqs, device, office, tag, marks, items, k, r.value, (uris.next, clock.now));
        items, marks := items + [r.value], marks + [(uris.next, clock.now)];
      }
      assert reqs[..|reqs|] == reqs;
    }

    lemma MarksGrow(
        s: State, reqs: seq<RowReq>, device: Option<string>, office: Option<string>, tag: Uri,
        marks: seq<(nat, nat)>, items: seq<Item>, j: nat, k: nat)
      requires AllJudged(s, reqs, device, office, tag, marks, items) && j <= k <= |reqs|
      ensures marks[j].0 <= marks[k].0 && marks[j].1 <= marks[k].1
      decreases k
    {
      if j < k { MarksGrow(s, reqs, device, office, tag, marks, items, j, k - 1); }
    }

    /** A judged change is sound, and its identifiers lie between the marks of its item. */
    lemma JudgedIsSound(
        s: State, req: RowReq, device: Option<string>, office: Option<string>, tag: Uri,
        low: nat, clock0: nat, next: nat, clock1: nat, item: Item)
      requires ColumnsOnly(s) && Judged(s, req, device, office, tag, low, clock0, next, clock1, item)
      ensures SoundChange(s, low, clock0, tag, item)
      ensures item.verdict.Change? ==> low <= item.verdict.row.etag < next && clock0 <= item.seqv < clock1
      ensures item.verdict.Change? && item.rowId in s.rows ==> req.etag == Some(s.rows[item.rowId].etag)
      ensures item.verdict.Change? && item.rowId !in s.rows ==> item.verdict.prev == req.etag
    {
      if item.verdict.Change? && !(item.rowId in s.rows && req.deleted) {
        var row := if item.rowId in s.rows then s.rows[item.rowId] else NewRow(user);
        SetValuesTyped(row.body.values, req.values, s.columns, folded);
      }
    }

    lemma JudgedNumbered(
        s: State, reqs: seq<RowReq>, device: Option<string>, office: Option<string>, tag: Uri,
        marks: seq<(nat, nat)>, items: seq<Item>)
      requires ColumnsOnly(s) && AllJudged(s, reqs, device, office, tag, marks, items)
      ensures Numbered(items)
    {
      forall j, k | 0 <= j < k < |items| && items[j].verdict.Change? && items[k].verdict.Change?
        ensures items[j].verdict.row.etag != items[k].verdict.row.etag && items[j].seqv < items[k].seqv
      {
        JudgedIsSound(s, reqs[j], device, office, tag, marks[j].0, marks[j].1, marks[j + 1].0, marks[j + 1].1, items[j]);
        JudgedIsSound(s, reqs[k], device, office, tag, marks[k].0, marks[k].1, marks[k + 1].0, marks[k + 1].1, items[k]);
        MarksGrow(s, reqs, device, office, tag, marks, items, j + 1, k);
      }
    }

    lemma JudgedAllSound(
        s: State, reqs: seq<RowReq>, device: Option<string>, office: Option<string>, tag: Uri,
        marks: seq<(nat, nat)>, items: seq<Item>, next: nat, clock0: nat)
      requires ColumnsOnly(s) && AllJudged(s, reqs, device, office, tag, marks, items)
      requires next <= marks[0].0 && clock0 <= marks[0].1
      ensures forall k :: 0 <= k < |items| ==> SoundChange(s, next, clock0, tag, items[k])
      ensures forall k :: 0 <= k < |items| && items[k].verdict.Change? ==>
        && items[k].verdict.row.etag < marks[|reqs|].0 && items[k].seqv < marks[|reqs|].1
        && (items[k].rowId in s.rows ==> reqs[k].etag == Some(s.rows[items[k].rowId].etag))
        && (items[k].rowId !in s.rows ==> items[k].verdict.prev == reqs[k].etag)
    {
      forall k | 0 <= k < |items|
        ensures SoundChange(s, next, clock0, tag, items[k])
        ensures items[k].verdict.Change? ==>
          && items[k].verdict.row.etag < marks[|reqs|].0 && items[k].seqv < marks[|reqs|].1
          && (items[k].rowId in s.rows ==> reqs[k].etag == Some(s.rows[items[k].rowId].etag))
          && (items[k].rowId !in s.rows ==> items[k].verdict.prev == reqs[k].etag)
      {
        JudgedIsSound(s, reqs[k], device, office, tag, marks[k].0, marks[k].1, marks[k + 1].0, marks[k + 1].1, items[k]);
        MarksGrow(s, reqs, device, office, tag, marks, items, 0, k);
        MarksGrow(s, reqs, device, office, tag, marks, items, k + 1, |reqs|);
      }
    }

    /**
      A committed batch is a valid attempt, even if it names a row twice; without ETags on its
      inserts it is valid wherever it is cut off.
     */
    lemma BatchAttemptValid(
        w: World, a: Attempt, reqs: seq<RowReq>, device: Option<string>, office: Option<string>, tag: Uri,
        marks: seq<(nat, nat)>, items: seq<Item>)
      requires WorldInv(w) && ListsPending(w.st, a.order) && a.plan == Some(PlanOf(tag, items))
      requires AllJudged(AfterRecovery(w, a), reqs, device, office, tag, marks, items)
      requires w.next <= tag < marks[0].0 && w.clock <= marks[0].1
      requires a.next == marks[|reqs|].0 && a.clock == marks[|reqs|].1
      requires Commits(w, a) || NoETagOnInserts(AfterRecovery(w, a), items)
      ensures ValidAttempt(w, a)
      ensures NoETagOnInserts(AfterRecovery(w, a), items) ==> ValidWhereverCut(w, a)
    {
      hide Commits, ValidWhereverCut, TableOf, InsertsSendNoETag, NoETagOnInserts, BuiltPlan, AllJudged, SoundChange;
      hide Inv, Clean, ListsPending, Numbered;
      var s := AfterRecovery(w, a);
      RecoveredWorld(w, a);
      RevertReaches(w.st, a.order);
      InvColumnsOnly(s);
      JudgedNumbered(s, reqs, device, office, tag, marks, items);
      JudgedAllSound(s, reqs, device, office, tag, marks, items, w.next, w.clock);
      BatchValid(s, w.next, w.clock, tag, items);
      MarksGrow(s, reqs, device, office, tag, marks, items, 0, |reqs|);
      var logs := MapOf(Logs(tag, items));
      forall e | e in logs ensures e < a.next && logs[e].seqv < a.clock {
        var k := ItemOfLog(tag, items, e);
      }
      PlanLogs(tag, items);
      PlanValid(w, a);
    }

    /**
      A batch that names a row twice or inserts a row with an ETag is as atomic as any other, but
      it keeps the history whole just when it changes no row twice and inserts none with an ETag.
      The ETags that the requests carry have been issued before.
     */
    lemma BatchKeepsHistoryIff(
        w: World, a: Attempt, reqs: seq<RowReq>, device: Option<string>, office: Option<string>, tag: Uri,
        marks: seq<(nat, nat)>, items: seq<Item>)
      requires WorldInv(w) && ValidAttempt(w, a) && a.plan == Some(PlanOf(tag, items)) && Commits(w, a)
      requires AllJudged(AfterRecovery(w, a), reqs, device, office, tag, marks, items)
      requires w.next <= tag < marks[0].0 && w.clock <= marks[0].1
      requires forall k :: 0 <= k < |reqs| && reqs[k].etag.Some? ==> reqs[k].etag.value < w.next
      ensures Whole(TableOf(Step(w, a).st)) <==>
        && Whole(TableOf(w.st)) && NoETagOnInserts(AfterRecovery(w, a), items)
        && DifferentRows(items, true) && DifferentRows(items, false)
    {
      hide WorldInv, Whole, Commits, DifferentRows, Step, TableOf, AllJudged, OnceEach, ListsPending, BuiltPlan;
      hide InsertsSendNoETag, NoneGuessed, NoETagOnInserts, AllNoneGuessed, AllSendNoETag, AllOnceEach, Inv, Clean;
      hide ValidAttempt, AfterRecovery, Issued, MapOf, PlanOf;
      var s := AfterRecovery(w, a);
      ValidLists(w, a);
      RecoveredWorld(w, a);
      AfterRecoveryTable(w, a);
      MatchesHere(s);
      InvColumnsOnly(s);
      JudgedNumbered(s, reqs, device, office, tag, marks, items);
      JudgedSorted(s, reqs, device, office, tag, marks, items);
      OnceEachIff(s, tag, items);
      NoETagIff(s, tag, items);
      BatchGuessesNone(s, reqs, device, office, tag, marks, items, w.next, w.clock);
      OneSet(TableOf(w.st), MapOf(PlanOf(tag, items).logs));
      AttemptKeepsHistoryIff(w, a);
    }

    /** Requests with ETags that have been issued name none of the new ones. */
    lemma BatchGuessesNone(
        s: State, reqs: seq<RowReq>, device: Option<string>, office: Option<string>, tag: Uri,
        marks: seq<(nat, nat)>, items: seq<Item>, next: nat, clock0: nat)
      requires ColumnsOnly(s) && AllJudged(s, reqs, device, office, tag, marks, items)
      requires next <= marks[0].0 && clock0 <= marks[0].1
      requires forall k :: 0 <= k < |reqs| && reqs[k].etag.Some? ==> reqs[k].etag.value < next
      ensures NoneGuessed(MapOf(PlanOf(tag, items).logs))
    {
      hide Judged;
      JudgedAllSound(s, reqs, device, office, tag, marks, items, next, clock0);
      PlanLogs(tag, items);
      var logs := MapOf(Logs(tag, items));
      forall e | e in logs ensures next <= e && (logs[e].prev.Some? ==> logs[e].prev.value < next) {
        var k := ItemOfLog(tag, items, e);
        assert SoundChange(s, next, clock0, tag, items[k]);
        assert items[k].verdict.prev == reqs[k].etag;
      }
    }

    lemma JudgedSorted(
        s: State, reqs: seq<RowReq>, device: Option<string>, office: Option<string>, tag: Uri,
        marks: seq<(nat, nat)>, items: seq<Item>)
      requires ColumnsOnly(s) && AllJudged(s, reqs, device, office, tag, marks, items)
      ensures Sorted(s, items)
    {
      forall k | 0 <= k < |items| && items[k].verdict.Change?
        ensures items[k].verdict.update <==> items[k].rowId in s.rows
      {
        JudgedIsSound(s, reqs[k], device, office, tag, marks[k].0, marks[k].1, marks[k + 1].0, marks[k + 1].1, items[k]);
      }
    }

    /** The judgment looks at the data rows and the columns only. */
    lemma JudgedByRows(
        s: State, s': State, reqs: seq<RowReq>, device: Option<string>, office: Option<string>, tag: Uri,
        marks: seq<(nat, nat)>, items: seq<Item>)
      requires s.rows == s'.rows && s.columns == s'.columns
      requires AllJudged(s, reqs, device, office, tag, marks, items)
      ensures AllJudged(s', reqs, device, office, tag, marks, items)
    {
      forall k | 0 <= k < |items|
        ensures Judged(
          s', reqs[k], device, office, tag, marks[k].0, marks[k].1, marks[k + 1].0, marks[k + 1].1, items[k])
      {
        assert Judged(s, reqs[k], device, office, tag, marks[k].0, marks[k].1, marks[k + 1].0, marks[k + 1].1, items[k]);
      }
    }

    /** The request is to change the row, but it sends a value for an unknown column. */
    ghost predicate Spoils(
        s: State, r: RowId, req: RowReq, device: Option<string>, office: Option<string>, e: Error)
    {
      Refusal(s, r, req) == None && Changed(s, r, req, device, office, 0, 0) == Err(e)
    }

    /** The first requests were judged, as `items`, and the next one spoils the batch. */
    ghost predicate FirstSpoils(
        s: State, reqs: seq<RowReq>, device: Option<string>, office: Option<string>, tag: Uri,
        marks: seq<(nat, nat)>, items: seq<Item>, e: Error)
    {
      var k := |items|;
      && k < |reqs| && AllJudged(s, reqs[..k], device, office, tag, marks, items)
      && Spoils(s, Target(reqs[k], marks[k].0), reqs[k], device, office, e)
    }

    lemma SpoilsByRows(
        s: State, s': State, reqs: seq<RowReq>, device: Option<string>, office: Option<string>, tag: Uri,
        marks: seq<(nat, nat)>, items: seq<Item>, e: Error)
      requires s.rows == s'.rows && s.columns == s'.columns
      requires FirstSpoils(s, reqs, device, office, tag, marks, items, e)
      ensures FirstSpoils(s', reqs, device, office, tag, marks, items, e)
    {
      hide AllJudged;
      JudgedByRows(s, s', reqs[..|items|], device, office, tag, marks, items);
      var k := |items|;
      SpoilsByRow(s, s', Target(reqs[k], marks[k].0), reqs[k], device, office, e);
    }

    lemma SpoilsByRow(
        s: State, s': State, r: RowId, req: RowReq, device: Option<string>, office: Option<string>, e: Error)
      requires s.rows == s'.rows && s.columns == s'.columns && Spoils(s, r, req, device, office, e)
      ensures Spoils(s', r, req, device, office, e)
    {
    }

    /** The answer to a batch, and what was written for it. */
    ghost predicate BatchAnswer(
        w: World, reqs: seq<RowReq>, listTag: Option<Uri>, device: Option<string>, office: Option<string>,
        r: Result<(seq<RowOutcome>, Uri), Error>, a: Attempt, items: seq<Item>, marks: seq<(nat, nat)>)
    {
      if !perms.writeTable then r == Err(PermissionDenied) && a.plan == None
      else if !schemaDefined then r == Err(InconsistentState) && a.plan == None
      else if w.st.entry.tag != listTag then r == Err(TableTagMismatch) && a.plan == None
      else
        && a.plan.Some?
        && var tag := a.plan.value.tag;
           && marks != [] && marks[0].0 == tag + 1
           && if Commits(w, a) then
             && a.plan == Some(PlanOf(tag, items))
             && AllJudged(AfterRecovery(w, a), reqs, device, office, tag, marks, items)
             // an empty batch is committed, and then the time per row cannot be computed
             && r == (if reqs == [] then Err(DivisionByZero) else Ok((Outcomes(items), tag)))
             && DifferentRows(items, false) && ValidAttempt(w, a)
             && (NoETagOnInserts(AfterRecovery(w, a), items) ==> ValidWhereverCut(w, a))
           else if r == Err(RowExists) then
             // a row that is inserted twice ends the batch before its commit
             && a.plan == Some(PlanOf(tag, items))
             && AllJudged(AfterRecovery(w, a), reqs, device, office, tag, marks, items)
             && !DifferentRows(items, false)
             && (NoETagOnInserts(AfterRecovery(w, a), items) ==> ValidAttempt(w, a) && ValidWhereverCut(w, a))
           else
             // the first request with an unknown column ends the batch when it has only been marked
             && OnlyMarked(w, a) && ValidAttempt(w, a) && ValidWhereverCut(w, a) && r.Err? && r.error.BadColumn?
             && FirstSpoils(AfterRecovery(w, a), reqs, device, office, tag, marks, items, r.error)
    }

    /** The request changes its row, and some value that it sends has no column. */
    predicate SendsUnknownColumn(s: State, r: RowId, req: RowReq) {
      && Refusal(s, r, req) == None && !(r in s.rows && req.deleted)
      && exists i :: 0 <= i < |req.values| && !Known(req.values[i].0, s.columns, folded)
    }

    lemma SpoilsIff(s: State, r: RowId, req: RowReq, device: Option<string>, office: Option<string>)
      ensures SendsUnknownColumn(s, r, req) <==> exists e :: Spoils(s, r, req, device, office, e)
    {
      hide Refusal, ScopeFor;
      var row := if r in s.rows then s.rows[r] else NewRow(user);
      SetValuesFailsOnColumn(row.body.values, req.values, s.columns, folded);
      if SendsUnknownColumn(s, r, req) {
        assert Spoils(s, r, req, device, office, Changed(s, r, req, device, office, 0, 0).error);
      }
    }

    predicate InsertsRow(s: State, r: RowId, req: RowReq) {
      Refusal(s, r, req) == None && r !in s.rows
    }

    /** The identifiers that were handed out before request `k`, when the first one is `low`. */
    function IdAt(s: State, reqs: seq<RowReq>, low: nat, k: nat): nat
      requires k <= |reqs|
    {
      if k == 0 then low else NextId(s, reqs[k - 1], IdAt(s, reqs, low, k - 1))
    }

    /** The row that request `k` is about: its own, or a new one. */
    function RowAt(s: State, reqs: seq<RowReq>, low: nat, k: nat): RowId
      requires k < |reqs|
    {
      Target(reqs[k], IdAt(s, reqs, low, k))
    }

    /** Request `k` is what ends a batch. */
    predicate SpoilsAt(s: State, reqs: seq<RowReq>, low: nat, k: nat)
      requires k < |reqs|
    {
      SendsUnknownColumn(s, RowAt(s, reqs, low, k), reqs[k])
    }

    predicate InsertsAt(s: State, reqs: seq<RowReq>, low: nat, k: nat)
      requires k < |reqs|
    {
      InsertsRow(s, RowAt(s, reqs, low, k), reqs[k])
    }

    /** No two requests insert the same row. */
    ghost predicate InsertsDiffer(s: State, reqs: seq<RowReq>, low: nat) {
      forall j, k :: 0 <= j < k < |reqs| && InsertsAt(s, reqs, low, j) && InsertsAt(s, reqs, low, k) ==>
        RowAt(s, reqs, low, j) != RowAt(s, reqs, low, k)
    }

    lemma RefusalChangesNothing(s: State, r: RowId, req: RowReq)
      ensures Refusal(s, r, req).Some? ==> !Refusal(s, r, req).value.Change?
    {
    }

    /** A judged request sends no unknown column, and what it inserts is its own row. */
    lemma JudgedMeans(
        s: State, req: RowReq, device: Option<string>, office: Option<string>, tag: Uri,
        low: nat, clock0: nat, next: nat, clock1: nat, item: Item)
      requires Judged(s, req, device, office, tag, low, clock0, next, clock1, item)
      ensures item.rowId == Target(req, low) && next == NextId(s, req, low)
      ensures !SendsUnknownColumn(s, item.rowId, req)
      ensures Alters(item, false) <==> InsertsRow(s, item.rowId, req)
    {
      RefusalChangesNothing(s, item.rowId, req);
      hide Refusal, ScopeFor;
      SpoilsIff(s, item.rowId, req, device, office);
      if item.verdict.Change? { SpoilsAny(s, item.rowId, req, device, office, item.verdict.row.etag, tag); }
    }

    lemma AllJudgedMeans(
        s: State, reqs: seq<RowReq>, device: Option<string>, office: Option<string>, tag: Uri,
        marks: seq<(nat, nat)>, items: seq<Item>)
      requires AllJudged(s, reqs, device, office, tag, marks, items)
      ensures forall k :: 0 <= k < |reqs| ==> !SpoilsAt(s, reqs, marks[0].0, k)
      ensures DifferentRows(items, false) <==> InsertsDiffer(s, reqs, marks[0].0)
    {
      var low := marks[0].0;
      forall k | 0 <= k < |reqs|
        ensures items[k].rowId == RowAt(s, reqs, low, k) && !SpoilsAt(s, reqs, low, k)
        ensures Alters(items[k], false) <==> InsertsAt(s, reqs, low, k)
      {
        MarkIs(s, reqs, device, office, tag, marks, items, k);
        JudgedMeans(
          s, reqs[k], device, office, tag, marks[k].0, marks[k].1, marks[k + 1].0, marks[k + 1].1, items[k]);
      }
      hide Judged, Alters, InsertsAt, SpoilsAt, RowAt;
    }

    lemma MarkIs(
        s: State, reqs: seq<RowReq>, device: Option<string>, office: Option<string>, tag: Uri,
        marks: seq<(nat, nat)>, items: seq<Item>, k: nat)
      requires AllJudged(s, reqs, device, office, tag, marks, items) && k <= |reqs|
      ensures marks[k].0 == IdAt(s, reqs, marks[0].0, k)
      decreases k
    {
      hide Refusal;
      if k > 0 {
        MarkIs(s, reqs, device, office, tag, marks, items, k - 1);
        assert Judged(
          s, reqs[k - 1], device, office, tag, marks[k - 1].0, marks[k - 1].1, marks[k].0, marks[k].1, items[k - 1]);
      }
    }

    /** The identifiers before request `k` depend on the requests before it. */
    lemma {:induction false} IdsOfPart(s: State, reqs: seq<RowReq>, low: nat, n: nat, k: nat)
      requires k <= n <= |reqs|
      ensures IdAt(s, reqs[..n], low, k) == IdAt(s, reqs, low, k)
    {
      hide NextId;
      if k > 0 { IdsOfPart(s, reqs, low, n, k - 1); }
    }

    /** Where the first request spoils the batch, a request does. */
    lemma FirstSpoilsAt(
        s: State, reqs: seq<RowReq>, device: Option<string>, office: Option<string>, tag: Uri,
        marks: seq<(nat, nat)>, items: seq<Item>, e: Error)
      requires FirstSpoils(s, reqs, device, office, tag, marks, items, e)
      ensures |items| < |reqs| && marks != [] && SpoilsAt(s, reqs, marks[0].0, |items|)
    {
      hide Judged, Spoils, SendsUnknownColumn, NextId;
      var k := |items|;
      MarkIs(s, reqs[..k], device, office, tag, marks, items, k);
      IdsOfPart(s, reqs, marks[0].0, k, k);
      SpoilsIff(s, Target(reqs[k], marks[k].0), reqs[k], device, office);
    }

    /**
      Which batches commit: those in which every request that changes its row sends known columns
      only, and no two requests insert the same row.  A batch that commits answers with its
      outcomes, but an empty one fails after its commit.
     */
    lemma BatchCommitsIff(
        w: World, reqs: seq<RowReq>, listTag: Option<Uri>, device: Option<string>, office: Option<string>,
        r: Result<(seq<RowOutcome>, Uri), Error>, a: Attempt, items: seq<Item>, marks: seq<(nat, nat)>)
      requires perms.writeTable && schemaDefined && w.st.entry.tag == listTag
      requires BatchAnswer(w, reqs, listTag, device, office, r, a, items, marks)
      ensures a.plan.Some?
      ensures
        var s, low := AfterRecovery(w, a), a.plan.value.tag + 1;
        Commits(w, a) <==>
          (forall k :: 0 <= k < |reqs| ==> !SpoilsAt(s, reqs, low, k)) && InsertsDiffer(s, reqs, low)
      ensures Commits(w, a) <==> r.Ok? || r == Err(DivisionByZero)
      ensures r == Err(DivisionByZero) ==> reqs == []
    {
      hide Commits, SpoilsAt, InsertsDiffer, DifferentRows, AllJudged, AfterRecovery, ValidAttempt, Outcomes;
      hide ValidWhereverCut, NoETagOnInserts, OnlyMarked, PlanOf, FirstSpoils;
      var s, tag := AfterRecovery(w, a), a.plan.value.tag;
      if Commits(w, a) || r == Err(RowExists) {
        AllJudgedMeans(s, reqs, device, office, tag, marks, items);
      } else {
        FirstSpoilsAt(s, reqs, device, office, tag, marks, items, r.error);
      }
    }

    lemma JudgedSize(
        s: State, reqs: seq<RowReq>, device: Option<string>, office: Option<string>, tag: Uri,
        marks: seq<(nat, nat)>, items: seq<Item>)
      requires AllJudged(s, reqs, device, office, tag, marks, items)
      ensures |items| == |reqs| && |marks| == |reqs| + 1
    {
    }

    /** An empty batch gives the table a new data tag, and then it fails. */
    lemma EmptyBatchCommits(
        w: World, listTag: Option<Uri>, device: Option<string>, office: Option<string>,
        r: Result<(seq<RowOutcome>, Uri), Error>, a: Attempt, items: seq<Item>, marks: seq<(nat, nat)>)
      requires WorldInv(w) && perms.writeTable && schemaDefined && w.st.entry.tag == listTag
      requires BatchAnswer(w, [], listTag, device, office, r, a, items, marks)
      ensures r == Err(DivisionByZero) && Commits(w, a)
      ensures TableOf(Step(w, a).st).tag == Some(a.plan.value.tag) && a.plan.value.logs == []
    {
      hide WorldInv, Commits, AfterRecovery, ValidAttempt, Step, TableOf, ValidWhereverCut, NoETagOnInserts, OnlyMarked;
      BatchCommitsIff(w, [], listTag, device, office, r, a, items, marks);
      JudgedSize(AfterRecovery(w, a), [], device, office, a.plan.value.tag, marks, items);
      AttemptIsAtomic(w, a);
    }

    /** A batch that is refused before anything is written. */
    lemma BatchRefused(
        w: World, reqs: seq<RowReq>, listTag: Option<Uri>, device: Option<string>, office: Option<string>,
        r: Result<(seq<RowOutcome>, Uri), Error>, a: Attempt)
      requires !perms.writeTable || !schemaDefined || w.st.entry.tag != listTag
      requires a.plan == None && r == Err(
        if !perms.writeTable then PermissionDenied
        else if !schemaDefined then InconsistentState else TableTagMismatch)
      ensures BatchAnswer(w, reqs, listTag, device, office, r, a, [], [])
    {
    }

    /** A batch with an unknown column. */
    lemma BatchMarked(
        w: World, reqs: seq<RowReq>, listTag: Option<Uri>, device: Option<string>, office: Option<string>,
        r: Result<(seq<RowOutcome>, Uri), Error>, a: Attempt, items: seq<Item>, marks: seq<(nat, nat)>)
      requires perms.writeTable && schemaDefined && w.st.entry.tag == listTag
      requires OnlyMarked(w, a) && ValidAttempt(w, a) && ValidWhereverCut(w, a) && r.Err? && r.error.BadColumn?
      requires FirstSpoils(AfterRecovery(w, a), reqs, device, office, a.plan.value.tag, marks, items, r.error)
      requires marks != [] && marks[0].0 == a.plan.value.tag + 1
      ensures BatchAnswer(w, reqs, listTag, device, office, r, a, items, marks)
    {
      hide RevertCommands, Journal.Replay, ValidAttempt, ValidWhereverCut, FirstSpoils, AfterRecovery;
    }

    /** A batch of which all rows were judged. */
    lemma BatchJudged(
        w: World, reqs: seq<RowReq>, listTag: Option<Uri>, device: Option<string>, office: Option<string>, tag: Uri,
        r: Result<(seq<RowOutcome>, Uri), Error>, a: Attempt, items: seq<Item>, marks: seq<(nat, nat)>)
      requires perms.writeTable && schemaDefined && w.st.entry.tag == listTag
      requires a.plan == Some(PlanOf(tag, items)) && (Commits(w, a) <==> DifferentRows(items, false))
      requires AllJudged(AfterRecovery(w, a), reqs, device, office, tag, marks, items)
      requires Commits(w, a) ==> ValidAttempt(w, a)
      requires NoETagOnInserts(AfterRecovery(w, a), items) ==> ValidAttempt(w, a) && ValidWhereverCut(w, a)
      requires marks != [] && marks[0].0 == tag + 1
      requires r ==
        if !DifferentRows(items, false) then Err(RowExists)
        else if reqs == [] then Err(DivisionByZero) else Ok((Outcomes(items), tag))
      ensures BatchAnswer(w, reqs, listTag, device, office, r, a, items, marks)
    {
      hide DifferentRows, AllJudged, Commits, NoETagOnInserts, AfterRecovery, ValidAttempt, Logs, RowsOf, Outcomes;
      hide ValidWhereverCut;
    }

    method AlterLog(changes: seq<(Uri, LogRow)>)
      modifies store
      ensures Wrote(old(store.Stored()), old(store.journal), LogPuts(changes))
    {
      if changes != [] {
        store.BulkAlterLog(changes);
      } else {
        assert LogPuts(changes) == [];
      }
    }

    method AlterRows(changes: seq<(RowId, Row)>)
      modifies store
      ensures Wrote(old(store.Stored()), old(store.journal), RowPuts(changes))
    {
      if changes != [] {
        store.BulkAlterRows(changes);
      } else {
        assert RowPuts(changes) == [];
      }
    }

    method InsertRows(changes: seq<(RowId, Row)>) returns (done: nat)
      modifies store
      ensures done <= |changes|
      ensures Wrote(old(store.Stored()), old(store.journal), RowPuts(changes[..done]))
      ensures (forall i :: 0 <= i < |changes| ==> changes[i].0 !in old(store.rows)) ==>
        (done == |changes| <==> DistinctKeys(changes))
    {
      if changes != [] {
        done := store.BulkInsertRows(changes);
      } else {
        done := 0;
        assert RowPuts(changes[..0]) == [];
      }
    }

    /** Writes the change set of a batch and commits it, unless a row that is inserted is already there. */
    method WriteBatch(
        entry: Entry, tag: Uri, logs: seq<(Uri, LogRow)>, updates: seq<(RowId, Row)>, inserts: seq<(RowId, Row)>)
      returns (done: nat)
      modifies store
      ensures done <= |inserts|
      ensures Wrote(old(store.Stored()), old(store.journal),
        BodyPuts(logs, updates, inserts[..done])
        + if done == |inserts| then [PutEntry(entry.(tag := Some(tag), pending := None))] else [])
      ensures
        (forall i, j :: 0 <= i < |inserts| ==>
           inserts[i].0 !in old(store.rows) && (0 <= j < |updates| ==> updates[j].0 != inserts[i].0)) ==>
        (done == |inserts| <==> DistinctKeys(inserts))
    {
      ghost var s, journal := store.Stored(), store.journal;
      ghost var a, b := LogPuts(logs), RowPuts(updates);
      // the log change must be done first
      AlterLog(logs);
      LogPutsReplay(s, logs);
      AlterRows(updates);
      Journal.ReplayConcat(Apply, s, a, b);
      AppendAssociates(journal, a, b);
      RowPutsReplay(Replay(s, a), updates);
      MapOfKeys(updates);
      done := InsertRows(inserts);
      ghost var c := RowPuts(inserts[..done]);
      Journal.ReplayConcat(Apply, s, a + b, c);
      AppendAssociates(journal, a + b, c);
      if done < |inserts| {
        assert BodyPuts(logs, updates, inserts[..done]) + [] == a + b + c;
        return;
      }
      assert inserts[..done] == inserts;
      ghost var end := PutEntry(entry.(tag := Some(tag), pending := None));
      store.PutEntry(entry.(tag := Some(tag), pending := None));
      Journal.ReplayAppend(Apply, s, a + b + c, end);
      AppendAssociates(journal, a + b + c, [end]);
    }

    /** Marks the change as pending, judges the rows, and writes and commits their changes. */
    method ChangeRows(entry: Entry, reqs: seq<RowReq>, device: Option<string>, office: Option<string>)
      returns (failed: Option<Error>, tag: Uri, wrappers: seq<BulkRowObjWrapper>,
               ghost items: seq<Item>, ghost marks: seq<(nat, nat)>, ghost done: nat)
      requires entry == store.entry && ColumnsOnly(store.Stored())
      modifies store, uris, clock
      ensures tag == old(uris.next) < uris.next && old(clock.now) <= clock.now
      ensures forall i :: 0 <= i < |wrappers| ==> fresh(wrappers[i])
      ensures failed.Some? && failed.value != RowExists ==>
        && failed.value.BadColumn?
        && FirstSpoils(old(store.Stored()), reqs, device, office, tag, marks, items, failed.value)
        && marks != [] && marks[0].0 == tag + 1
        && BatchWrote(old(store.Stored()), [], store.Stored(), old(store.journal), store.journal, tag)
      ensures failed == None || failed == Some(RowExists) ==>
        && AllJudged(old(store.Stored()), reqs, device, office, tag, marks, items)
        && marks != [] && marks[0] == (tag + 1, old(clock.now)) && marks[|reqs|] == (uris.next, clock.now)
        && AllReady(wrappers, Outcomes(items))
        && (failed == None <==> DifferentRows(items, false))
        && done <= |RowsOf(items, false)| && (failed == None <==> done == |RowsOf(items, false)|)
        && BatchWrote(old(store.Stored()), BatchPuts(entry, tag, items, done), store.Stored(),
                      old(store.journal), store.journal, tag)
    {
      hide AllJudged, AllReady, DifferentRows, DistinctKeys, Outcomes, Logs, Sorted, FirstSpoils;
      ghost var s1 := store.Stored();
      done := 0;
      tag := uris.NewUri();
      store.PutEntry(entry.(pending := Some(tag)));
      var logs, updates, inserts;
      failed, logs, updates, inserts, wrappers, items, marks := ProcessRows(reqs, device, office, tag);
      assert forall i :: 0 <= i < |wrappers| ==> wrappers[i] in wrappers;
      if failed.None? {
        JudgedByRows(store.Stored(), s1, reqs, device, office, tag, marks, items);
        JudgedSorted(s1, reqs, device, office, tag, marks, items);
        InsertsAreNew(s1, items);
        RowKeysDistinctIff(items, false);
        var d := WriteBatch(entry, tag, logs, updates, inserts);
        done := d;
        if d < |inserts| { failed := Some(RowExists); }
      } else {
        SpoilsByRows(store.Stored(), s1, reqs, device, office, tag, marks, items, failed.value);
      }
    }

    /** Inserts, updates and deletes rows in one change set. */
    method InsertOrUpdateRows(
        reqs: seq<RowReq>, listTag: Option<Uri>, device: Option<string>, office: Option<string>)
      returns (r: Result<(seq<RowOutcome>, Uri), Error>, ghost a: Attempt,
               ghost items: seq<Item>, ghost marks: seq<(nat, nat)>)
      requires Valid()
      modifies store, uris, clock
      ensures Did(old(Now()), old(store.journal), a)
      ensures BatchAnswer(old(Now()), reqs, listTag, device, office, r, a, items, marks)
    {
      hide WorldInv, Inv, RevertCommands, ListsPending, AllJudged, Step, Taken, BatchAnswer, ValidAttempt, OnlyMarked;
      hide ValidWhereverCut, FirstSpoils, Commits;
      ghost var w, journal := Now(), store.journal;
      items, marks := [], [];
      if !perms.writeTable || !schemaDefined || store.entry.tag != listTag {
        a := Idle(w);
        r := Err(if !perms.writeTable then PermissionDenied
                 else if !schemaDefined then InconsistentState else TableTagMismatch);
        BatchRefused(w, reqs, listTag, device, office, r, a);
        return;
      }
      var entry := store.entry;
      ghost var order := Recover();
      RecoveredColumns(w, order);
      ghost var done;
      var failed, tag, wrappers;
      failed, tag, wrappers, items, marks, done := ChangeRows(entry, reqs, device, office);
      if failed.Some? && failed.value != RowExists {
        a := MarkedAttempt(w, order, tag, Now(), journal, store.journal);
        r := Err(failed.value);
        BatchMarked(w, reqs, listTag, device, office, r, a, items, marks);
        return;
      }
      a := JudgedAttempt(w, order, reqs, device, office, tag, marks, items, done, Now(), journal, store.journal);
      if failed.Some? {
        r := Err(failed.value);
      } else {
        var rowOutcomes := CollectOutcomes(wrappers, Outcomes(items));
        r := if |reqs| == 0 then Err(DivisionByZero) else Ok((rowOutcomes, tag));
      }
      BatchJudged(w, reqs, listTag, device, office, tag, r, a, items, marks);
    }

    /** The attempt that a batch makes when all its columns are known and `done` of its inserts succeed. */
    lemma JudgedAttempt(
        w: World, order: seq<Uri>, reqs: seq<RowReq>, device: Option<string>, office: Option<string>, tag: Uri,
        marks: seq<(nat, nat)>, items: seq<Item>, done: nat, w': World, journal: seq<Put>, journal': seq<Put>)
      returns (a: Attempt)
      requires WorldInv(w) && ListsPending(w.st, order) && done <= |RowsOf(items, false)|
      requires
        var c := RevertCommands(w.st, order);
        var s1 := Replay(w.st, c);
        && AllJudged(s1, reqs, device, office, tag, marks, items)
        && BatchWrote(s1, BatchPuts(s1.entry, tag, items, done), w'.st, journal + c, journal', tag)
      requires w.next <= tag < marks[0].0 && w.clock <= marks[0].1
      requires w'.next == marks[|reqs|].0 && w'.clock == marks[|reqs|].1
      ensures Step(w, a) == w' && journal' == journal + Taken(w.st, a) && a.order == order
      ensures a.plan == Some(PlanOf(tag, items)) && (Commits(w, a) <==> done == |RowsOf(items, false)|)
      ensures Commits(w, a) ==> ValidAttempt(w, a)
      ensures NoETagOnInserts(AfterRecovery(w, a), items) ==> ValidAttempt(w, a) && ValidWhereverCut(w, a)
    {
      hide ValidAttempt, ValidWhereverCut, Commits, NoETagOnInserts, AllJudged, BatchWrote;
      a := BatchAttempt(w, order, tag, items, done, w', journal, journal');
      if Commits(w, a) || NoETagOnInserts(AfterRecovery(w, a), items) {
        BatchAttemptValid(w, a, reqs, device, office, tag, marks, items);
      }
    }
  }

  /** After recovery too, rows hold values only for columns of the table. */
  lemma RecoveredColumns(w: World, order: seq<Uri>)
    requires WorldInv(w) && ListsPending(w.st, order)
    ensures ColumnsOnly(Replay(w.st, RevertCommands(w.st, order)))
  {
    RevertReaches(w.st, order);
    InvColumnsOnly(Recovered(w.st));
  }

  /** The rows that a batch inserts are neither stored nor updated by it. */
  lemma InsertsAreNew(s: State, items: seq<Item>)
    requires Sorted(s, items)
    ensures forall i :: 0 <= i < |RowsOf(items, false)| ==> RowsOf(items, false)[i].0 !in s.rows
    ensures forall j :: 0 <= j < |RowsOf(items, true)| ==> RowsOf(items, true)[j].0 in s.rows
  {
    forall i | 0 <= i < |RowsOf(items, false)| ensures RowsOf(items, false)[i].0 !in s.rows {
      RowsHave(items, false, RowsOf(items, false)[i]);
    }
    forall j | 0 <= j < |RowsOf(items, true)| ensures RowsOf(items, true)[j].0 in s.rows {
      RowsHave(items, true, RowsOf(items, true)[j]);
    }
  }

  function BodyPuts(logs: seq<(Uri, LogRow)>, updates: seq<(RowId, Row)>, inserts: seq<(RowId, Row)>): seq<Put> {
    LogPuts(logs) + RowPuts(updates) + RowPuts(inserts)
  }

  /** The writes of a batch of which `done` inserts succeed, after it has been marked as pending. */
  function BatchPuts(entry: Entry, tag: Uri, items: seq<Item>, done: nat): seq<Put>
    requires done <= |RowsOf(items, false)|
  {
    BodyPuts(Logs(tag, items), RowsOf(items, true), RowsOf(items, false)[..done])
    + if done == |RowsOf(items, false)| then [PutEntry(entry.(tag := Some(tag), pending := None))] else []
  }

  /** From `s` and `journal`, the change was marked as pending and then `rest` was written. */
  ghost predicate BatchWrote(
      s: State, rest: seq<Put>, s': State, journal: seq<Put>, journal': seq<Put>, tag: Uri)
  {
    var mark := PutEntry(s.entry.(pending := Some(tag)));
    s' == Replay(Apply(s, mark), rest) && journal' == (journal + [mark]) + rest
  }

  /** Cut off after the mark and the writes of `done` inserts, or not at all, a batch has these writes behind it. */
  lemma BatchPrefix(s: State, tag: Uri, items: seq<Item>, done: nat) returns (n: nat)
    requires done <= |RowsOf(items, false)|
    ensures
      var cs := WriteCommands(s, PlanOf(tag, items));
      && n <= |cs| && (n == |cs| <==> done == |RowsOf(items, false)|)
      && cs[..n] == [PutEntry(s.entry.(pending := Some(tag)))] + BatchPuts(s.entry, tag, items, done)
  {
    var logs, u, v := Logs(tag, items), RowsOf(items, true), RowsOf(items, false);
    var mark, end := PutEntry(s.entry.(pending := Some(tag))), PutEntry(s.entry.(tag := Some(tag), pending := None));
    var cs := WriteCommands(s, PlanOf(tag, items));
    BatchWrites(s, tag, items);
    if done == |v| {
      n := |cs|;
      assert v[..done] == v;
      assert cs == [mark] + (LogPuts(logs) + RowPuts(u) + RowPuts(v) + [end]);
    } else {
      n := 1 + |logs| + |u| + done;
      assert RowPuts(v) == RowPuts(v[..done]) + RowPuts(v[done..]);
      assert cs == [mark] + (LogPuts(logs) + RowPuts(u) + RowPuts(v[..done])) + (RowPuts(v[done..]) + [end]);
      assert BatchPuts(s.entry, tag, items, done) == LogPuts(logs) + RowPuts(u) + RowPuts(v[..done]);
    }
  }

  /** The attempt that recovered and wrote a batch, up to its commit or to an insert that failed. */
  lemma BatchAttempt(
      w: World, order: seq<Uri>, tag: Uri, items: seq<Item>, done: nat, w': World, journal: seq<Put>, journal': seq<Put>)
    returns (a: Attempt)
    requires done <= |RowsOf(items, false)|
    requires
      var c := RevertCommands(w.st, order);
      var s1 := Replay(w.st, c);
      BatchWrote(s1, BatchPuts(s1.entry, tag, items, done), w'.st, journal + c, journal', tag)
    ensures Step(w, a) == w' && journal' == journal + Taken(w.st, a) && a.order == order
    ensures a.plan == Some(PlanOf(tag, items)) && a.next == w'.next && a.clock == w'.clock
    ensures Commits(w, a) <==> done == |RowsOf(items, false)|
  {
    hide WriteCommands, BatchPuts, PlanOf, Journal.Replay;
    var c := RevertCommands(w.st, order);
    var s1 := Replay(w.st, c);
    var mark := PutEntry(s1.entry.(pending := Some(tag)));
    var rest := BatchPuts(s1.entry, tag, items, done);
    var n := BatchPrefix(s1, tag, items, done);
    a := Attempt(order, Some(PlanOf(tag, items)), |c| + n, w'.next, w'.clock);
    PartStep(w, a, n);
    Journal.One(Apply, s1, mark, 1);
    Journal.ReplayConcat(Apply, s1, [mark], rest);
    AppendAssociates(journal, c, [mark]);
    AppendAssociates(journal, c + [mark], rest);
    AppendAssociates(c, [mark], rest);
  }

  /** The answer of `GetRowsSince`. */
  datatype RowChanges = RowChanges(rows: View, tag: Option<Uri>, resume: Option<Uri>, hasMore: bool)

  /** The answer of `GetChangeSetsSince`. */
  datatype ChangeSets = ChangeSets(tags: set<Uri>, tag: Option<Uri>, sequenceValue: nat)

  /** `tags` are the change sets after the later of the two starting points. */
  ghost predicate Polled(
      log: map<Uri, LogRow>, apriori: nat, tag: Option<Uri>, sequenceValue: Option<nat>, tags: set<Uri>)
  {
    exists from: Option<nat> ::
      && (if tag.Some? then IsSeqOf(log, tag.value, from) else from == None)
      && tags == TagsOf(log, Matches(log, apriori, Unified(from, sequenceValue)))
  }

  /** A poll finds the change sets with a log row after the sequence value and after all of the change set. */
  lemma PolledAre(
      log: map<Uri, LogRow>, apriori: nat, tag: Option<Uri>, sequenceValue: Option<nat>, tags: set<Uri>)
    requires AboveApriori(log, apriori) && Polled(log, apriori, tag, sequenceValue, tags)
    ensures forall x :: x in tags <==> exists e ::
      && e in log && log[e].tag == x
      && (tag.Some? ==> AfterTag(log, tag.value, e))
      && (sequenceValue.Some? ==> sequenceValue.value < log[e].seqv)
  {
    var from: Option<nat> :|
      && (if tag.Some? then IsSeqOf(log, tag.value, from) else from == None)
      && tags == TagsOf(log, Matches(log, apriori, Unified(from, sequenceValue)));
    var es := Matches(log, apriori, Unified(from, sequenceValue));
    hide AfterTag, IsSeqOf, Matches, AboveApriori, Unified;
    forall e | e in log
      ensures e in es <==>
        (tag.Some? ==> AfterTag(log, tag.value, e)) && (sequenceValue.Some? ==> sequenceValue.value < log[e].seqv)
    {
      UnifiedIsLater(log, apriori, from, sequenceValue, e);
      if tag.Some? { SeqOfSplits(log, tag.value, from, e); }
    }
  }

  /** After recovery the log is the committed log. */
  lemma RecoveredLog(s: State, order: seq<Uri>)
    requires Inv(s) && ListsPending(s, order)
    ensures
      var s' := Replay(s, RevertCommands(s, order));
      && s'.log == TableOf(s).log && s'.entry == s.entry
      && SeqDistinct(Table(None, s'.log, map[]))
  {
    RevertReaches(s, order);
    RevertShrinks(s, order, |RevertCommands(s, order)|);
    assert SeqDistinct(TableOf(s));
  }

  lemma {:induction false} AfterInHits(hits: seq<Uri>, anchor: Option<Uri>)
    ensures forall e :: e in After(hits, anchor) ==> e in hits
    decreases |hits|
  {
    if hits != [] && anchor.Some? { AfterInHits(hits[1..], anchor); }
  }

  /** What the lookup of a row decides: go on with this entity and scope, or answer at once. */
  datatype Prepared = Stop(answer: Result<(RowId, Row), Error>) | Go(entity: Row, scope: Scope)

  /** From `s` and `journal`, the change of one row was marked and, with its columns known, carried out. */
  ghost predicate UpsertWrote(
      s: State, r: RowId, row: Result<Row, Error>, prev: Option<Uri>, tag: Uri, seqv: nat, s': State,
      journal: seq<Put>, journal': seq<Put>)
  {
    var mark := PutEntry(s.entry.(pending := Some(tag)));
    match row
    case Err(_) => s' == Apply(s, mark) && journal' == journal + [mark]
    case Ok(row) =>
      var rest := OneRowPuts(s.entry, tag, r, row, prev, seqv);
      s' == Replay(Apply(s, mark), rest) && journal' == (journal + [mark]) + rest
  }

  /** The writes of a one-row change after it has been marked as pending. */
  function OneRowPuts(entry: Entry, tag: Uri, r: RowId, row: Row, prev: Option<Uri>, seqv: nat): seq<Put> {
    [PutLog(row.etag, NewLogRow(r, row, tag, prev, seqv))] + [PutRow(r, row)]
    + [PutEntry(entry.(tag := Some(tag), pending := None))]
  }

  /** The attempt that stopped before recovery. */
  lemma IdleUntil(w: World, w': World) returns (a: Attempt)
    requires w'.st == w.st && w.next <= w'.next && w.clock <= w'.clock
    ensures Step(w, a) == w' && Taken(w.st, a) == [] && a.plan == None
    ensures ValidAttempt(w, a) && ValidWhereverCut(w, a)
  {
    var listed := PendingListing(w.st);
    a := Attempt(listed, None, 0, w'.next, w'.clock);
    UntouchedStep(w, a);
  }

  lemma Idle(w: World) returns (a: Attempt)
    ensures Step(w, a) == w && Taken(w.st, a) == [] && a.plan == None
    ensures ValidAttempt(w, a) && ValidWhereverCut(w, a)
  {
    a := IdleUntil(w, w);
  }

  /** The attempt that only recovered. */
  lemma OnlyRecovery(w: World, order: seq<Uri>, w': World) returns (a: Attempt)
    requires ListsPending(w.st, order) && w'.st == Replay(w.st, RevertCommands(w.st, order))
    requires w.next <= w'.next && w.clock <= w'.clock
    ensures Step(w, a) == w' && Taken(w.st, a) == RevertCommands(w.st, order) && a.order == order
    ensures a.plan == None && ValidAttempt(w, a) && ValidWhereverCut(w, a)
  {
    a := Attempt(order, None, |RevertCommands(w.st, order)|, w'.next, w'.clock);
    RecoveredStep(w, a);
  }

  /** The attempt that recovered and then only marked its change as pending. */
  lemma MarkedAttempt(w: World, order: seq<Uri>, tag: Uri, w': World, journal: seq<Put>, journal': seq<Put>)
    returns (a: Attempt)
    requires ListsPending(w.st, order) && w.next <= tag < w'.next && w.clock <= w'.clock
    requires
      var c := RevertCommands(w.st, order);
      var mark := PutEntry(Replay(w.st, c).entry.(pending := Some(tag)));
      w'.st == Apply(Replay(w.st, c), mark) && journal' == (journal + c) + [mark]
    ensures Step(w, a) == w' && journal' == journal + Taken(w.st, a) && a.order == order
    ensures a.plan == Some(Plan(tag, [], [])) && OnlyMarked(w, a) && ValidAttempt(w, a) && ValidWhereverCut(w, a)
  {
    var c := RevertCommands(w.st, order);
    a := Attempt(order, Some(Plan(tag, [], [])), |c| + 1, w'.next, w'.clock);
    MarkedStep(w, a);
    MarkedValid(w, a);
    AppendAssociates(journal, c, [PutEntry(Replay(w.st, c).entry.(pending := Some(tag)))]);
  }

  /** The attempt that recovered, wrote one row and committed. */
  lemma OneRowAttempt(
      w: World, order: seq<Uri>, r: RowId, row: Row, prev: Option<Uri>, tag: Uri, seqv: nat, w': World,
      journal: seq<Put>, journal': seq<Put>)
    returns (a: Attempt)
    requires
      var c := RevertCommands(w.st, order);
      var s1 := Replay(w.st, c);
      var mark := PutEntry(s1.entry.(pending := Some(tag)));
      var rest := OneRowPuts(s1.entry, tag, r, row, prev, seqv);
      w'.st == Replay(Apply(s1, mark), rest) && journal' == ((journal + c) + [mark]) + rest
    ensures Step(w, a) == w' && journal' == journal + Taken(w.st, a) && a.order == order
    ensures a.plan == Some(OneRow(tag, r, row, prev, seqv)) && Commits(w, a)
  {
    a := Attempt(order, Some(OneRow(tag, r, row, prev, seqv)), 0, w'.next, w'.clock);
    a := a.(cut := |Commands(w.st, a)|);
    OneRowDone(w, a, journal, journal', w'.st, r, row, prev, tag, seqv);
  }

  /** The steps of a one-row attempt put together. */
  lemma OneRowDone(
      w: World, a: Attempt, journal: seq<Put>, journal': seq<Put>, s': State,
      r: RowId, row: Row, prev: Option<Uri>, tag: Uri, seqv: nat)
    requires a.plan == Some(OneRow(tag, r, row, prev, seqv)) && a.cut == |Commands(w.st, a)|
    requires
      var c := RevertCommands(w.st, a.order);
      var s1 := Replay(w.st, c);
      var mark := PutEntry(s1.entry.(pending := Some(tag)));
      var rest :=
        [PutLog(row.etag, NewLogRow(r, row, tag, prev, seqv))] + [PutRow(r, row)]
        + [PutEntry(s1.entry.(tag := Some(tag), pending := None))];
      s' == Replay(Apply(s1, mark), rest) && journal' == ((journal + c) + [mark]) + rest
    ensures s' == Step(w, a).st && journal' == journal + Taken(w.st, a) && Commits(w, a)
  {
    var c := RevertCommands(w.st, a.order);
    var s1 := Replay(w.st, c);
    var mark := PutEntry(s1.entry.(pending := Some(tag)));
    var rest :=
      [PutLog(row.etag, NewLogRow(r, row, tag, prev, seqv))] + [PutRow(r, row)]
      + [PutEntry(s1.entry.(tag := Some(tag), pending := None))];
    FullStep(w, a);
    OneRowWrites(s1, tag, r, row, prev, seqv);
    Journal.One(Apply, s1, mark, 1);
    Journal.ReplayConcat(Apply, s1, [mark], rest);
    assert WriteCommands(s1, a.plan.value) == [mark] + rest;
    AppendAssociates(journal, c, [mark]);
    AppendAssociates(journal, c + [mark], rest);
    AppendAssociates(c, [mark], rest);
  }

  /** Recovery has undone the first `i` log rows with the writes `done` and is now at `s`. */
  ghost predicate Progress(s0: State, ids: seq<Uri>, entities: seq<LogRow>, i: nat, done: seq<Put>, s: State)
  {
    && i <= |ids| == |entities|
    && s == Replay(s0, done) && ColumnsOnly(s)
    && (forall j :: i <= j < |ids| ==> ids[j] in s.log && s.log[ids[j]] == entities[j])
    && (forall j, k :: 0 <= j < k < |ids| ==> ids[j] != ids[k])
    && RevertCommands(s0, ids) == done + RevertCommands(s, ids[i..])
    && (RevertSucceeds(s0, ids) <==> RevertSucceeds(s, ids[i..]))
  }

  lemma RevertStart(s0: State, ids: seq<Uri>, entities: seq<LogRow>)
    requires ColumnsOnly(s0) && |ids| == |entities|
    requires forall j :: 0 <= j < |ids| ==> ids[j] in s0.log && s0.log[ids[j]] == entities[j]
    requires forall j, k :: 0 <= j < k < |ids| ==> ids[j] != ids[k]
    ensures Progress(s0, ids, entities, 0, [], s0)
  {
    assert ids[0..] == ids;
  }

  lemma RevertNext(s0: State, ids: seq<Uri>, entities: seq<LogRow>, i: nat, done: seq<Put>, s: State)
    requires i < |ids| && Progress(s0, ids, entities, i, done, s)
    ensures !CanUndo(s, ids[i]) ==> RevertCommands(s0, ids) == done && !RevertSucceeds(s0, ids)
    ensures CanUndo(s, ids[i]) ==>
      var c := UndoCommands(s, ids[i]);
      && Replay(s0, done + c) == Replay(s, c)
      && Progress(s0, ids, entities, i + 1, done + c, Replay(s, c))
  {
    hide UndoCommands, Typed, Journal.Replay;
    assert ids[i..][0] == ids[i] && ids[i..][1..] == ids[i + 1..];
    if CanUndo(s, ids[i]) {
      var c := UndoCommands(s, ids[i]);
      UndoColumnsOnly(s, ids[i]);
      Journal.ReplayConcat(Apply, s0, done, c);
      AppendAssociates(done, c, RevertCommands(Replay(s, c), ids[i + 1..]));
    }
  }

  lemma RevertEnd(s0: State, ids: seq<Uri>, entities: seq<LogRow>, done: seq<Put>, s: State)
    requires Progress(s0, ids, entities, |ids|, done, s)
    ensures RevertCommands(s0, ids) == done && RevertSucceeds(s0, ids)
  {
    assert ids[|ids|..] == [];
  }
}
