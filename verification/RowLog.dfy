/**
  The persistent side of one table: its entry, its data rows and its log rows, and
  the two protocols that write them.  A writer marks the entry as pending, writes log
  rows, writes data rows and commits by moving the pending tag into the data tag.
  Recovery undoes every log row that carries the pending tag.

  A protocol is described by the list of single writes it issues.  Each write is
  atomic; a crash keeps some prefix of the list.
 */
module RowLog {
  import opened Wrappers
  import Journal

  // Identifiers are compared for equality only; a new one is never reissued.
  type Uri = nat
  type RowId = nat

  datatype Scope = Scope(kind: string, value: Option<string>)

  datatype Meta = Meta(
    formId: Option<string>,
    locale: Option<string>,
    savepointType: Option<string>,
    savepointTimestamp: Option<string>,
    savepointCreator: Option<string>)

  /** What a client writes.  A user-defined column without a key in `values` is null. */
  datatype Body = Body(lastUpdateUser: string, scope: Scope, meta: Meta, values: map<string, string>)

  /** A data row.  `tag` is DATA_ETAG_AT_MODIFICATION. */
  datatype Row = Row(
    etag: Uri,
    tag: Uri,
    createUser: string,
    deleted: bool,
    body: Body,
    device: Option<string>,
    office: Option<string>)

  /** A log row; its key is the ETag that the data row has at that change. */
  datatype LogRow = LogRow(
    rowId: RowId,
    seqv: nat,
    prev: Option<Uri>,
    tag: Uri,
    createUser: string,
    deleted: bool,
    body: Body,
    device: Option<string>,
    office: Option<string>)

  /** The table entry.  `tag` is the data ETag and `pending` the pending data ETag. */
  datatype Entry = Entry(tag: Option<Uri>, pending: Option<Uri>, apriori: nat)

  datatype State = State(
    columns: seq<string>,
    entry: Entry,
    rows: map<RowId, Row>,
    log: map<Uri, LogRow>)

  // ----- single writes -----

  datatype Put =
    | PutEntry(entry: Entry)
    | PutLog(id: Uri, logRow: LogRow)
    | DropLog(id: Uri)
    | PutRow(rowId: RowId, row: Row)
    | DropRow(rowId: RowId)

  function Apply(s: State, p: Put): State {
    match p
    case PutEntry(entry) => s.(entry := entry)
    case PutLog(id, l) => s.(log := s.log[id := l])
    case DropLog(id) => s.(log := s.log - {id})
    case PutRow(r, row) => s.(rows := s.rows[r := row])
    case DropRow(r) => s.(rows := s.rows - {r})
  }

  function Replay(s: State, ps: seq<Put>): State {
    Journal.Replay(Apply, s, ps)
  }

  function Crash(s: State, ps: seq<Put>, k: nat): State {
    Journal.Crash(Apply, s, ps, k)
  }

  // ----- pending log rows and the committed table -----

  predicate IsPending(s: State, e: Uri) {
    e in s.log && s.entry.pending == Some(s.log[e].tag)
  }

  predicate Clean(s: State) {
    forall e :: e in s.log ==> !IsPending(s, e)
  }

  /** The ETag that row `r` has when unfinished changes are ignored; None if it has no row. */
  function Base(s: State, r: RowId): Option<Uri> {
    if r !in s.rows then None
    else
      var e := s.rows[r].etag;
      if IsPending(s, e) then s.log[e].prev else Some(e)
  }

  /**
    The atomic table that the stored state stands for: the data tag, the committed log,
    and for each row the log row that holds its current contents.
   */
  datatype Table = Table(tag: Option<Uri>, log: map<Uri, LogRow>, head: map<RowId, Uri>)

  function Committed(s: State): map<Uri, LogRow> {
    map e | e in s.log && !IsPending(s, e) :: s.log[e]
  }

  function TableOf(s: State): Table {
    Table(s.entry.tag, Committed(s), map r | r in s.rows && Base(s, r).Some? :: Base(s, r).value)
  }

  function HeadOf(t: Table, r: RowId): Option<Uri> {
    if r in t.head then Some(t.head[r]) else None
  }

  /** The data row shows the contents of the log row.  A delete leaves the row's own tag alone. */
  predicate Shows(row: Row, l: LogRow) {
    && row.createUser == l.createUser
    && row.deleted == l.deleted
    && row.body == l.body
    && (!row.deleted ==> row.tag == l.tag)
  }

  // ----- recovery -----

  /** The row rewritten from the log row `id`; the creator of the row is left alone. */
  function Restore(row: Row, id: Uri, l: LogRow): Row {
    Row(id, l.tag, row.createUser, l.deleted, l.body, l.device, l.office)
  }

  /** Undoing the log row `e` finds the row and the previous log row that it needs. */
  predicate CanUndo(s: State, e: Uri)
    requires e in s.log
  {
    var l := s.log[e];
    l.prev.None? || (l.rowId in s.rows && l.prev.value in s.log)
  }

  function ResetRow(s: State, e: Uri): seq<Put>
    requires e in s.log && CanUndo(s, e)
  {
    var l := s.log[e];
    if l.prev.Some? then
      [PutRow(l.rowId, Restore(s.rows[l.rowId], l.prev.value, s.log[l.prev.value]))]
    else if l.rowId in s.rows then [DropRow(l.rowId)]
    else []
  }

  /** The writes that undo one pending log row. */
  function UndoCommands(s: State, e: Uri): seq<Put>
    requires e in s.log && CanUndo(s, e)
  {
    ResetRow(s, e) + [DropLog(e)]
  }

  /** The writes of one recovery that meets the matching log rows in the given order. */
  function RevertCommands(s: State, order: seq<Uri>): seq<Put>
    decreases |order|
  {
    if order == [] || order[0] !in s.log || !CanUndo(s, order[0]) then []
    else
      var c := UndoCommands(s, order[0]);
      c + RevertCommands(Replay(s, c), order[1..])
  }

  /** No lookup of that recovery fails. */
  predicate RevertSucceeds(s: State, order: seq<Uri>)
    decreases |order|
  {
    order == [] ||
    (order[0] in s.log && CanUndo(s, order[0]) &&
     RevertSucceeds(Replay(s, UndoCommands(s, order[0])), order[1..]))
  }

  /** `order` is a possible answer to the query for the pending log rows. */
  ghost predicate ListsPending(s: State, order: seq<Uri>) {
    && (forall e :: e in order <==> IsPending(s, e))
    && (forall i, j :: 0 <= i < j < |order| ==> order[i] != order[j])
  }

  ghost predicate Touched(s: State, r: RowId) {
    exists e :: IsPending(s, e) && s.log[e].rowId == r
  }

  /** The data row is there, and so is the log row that it goes back to. */
  predicate Survives(s: State, r: RowId) {
    r in s.rows && Base(s, r).Some? && Base(s, r).value in s.log
  }

  /** A row with a pending log row goes back; the others are left alone. */
  ghost function RowAfter(s: State, r: RowId): Row
    requires Survives(s, r)
  {
    if Touched(s, r) then Restore(s.rows[r], Base(s, r).value, s.log[Base(s, r).value]) else s.rows[r]
  }

  /** The state that recovery reaches, described without its steps. */
  ghost function Recovered(s: State): State {
    s.(log := Committed(s), rows := map r | r in s.rows && Survives(s, r) :: RowAfter(s, r))
  }

  // ----- a change set -----

  /** A change set: the log rows and the data rows, each in the order in which it is written. */
  datatype Plan = Plan(tag: Uri, logs: seq<(Uri, LogRow)>, rows: seq<(RowId, Row)>)

  function LogPuts(logs: seq<(Uri, LogRow)>): seq<Put> {
    seq(|logs|, i requires 0 <= i < |logs| => PutLog(logs[i].0, logs[i].1))
  }

  function RowPuts(rows: seq<(RowId, Row)>): seq<Put> {
    seq(|rows|, i requires 0 <= i < |rows| => PutRow(rows[i].0, rows[i].1))
  }

  function WriteCommands(s: State, p: Plan): seq<Put> {
    [PutEntry(s.entry.(pending := Some(p.tag)))]
    + LogPuts(p.logs)
    + RowPuts(p.rows)
    + [PutEntry(s.entry.(tag := Some(p.tag), pending := None))]
  }

  function MapOf<K, V>(entries: seq<(K, V)>): map<K, V> {
    if entries == [] then map[]
    else MapOf(entries[..|entries| - 1])[entries[|entries| - 1].0 := entries[|entries| - 1].1]
  }

  ghost predicate DistinctKeys<K, V>(entries: seq<(K, V)>) {
    forall i, j :: 0 <= i < j < |entries| ==> entries[i].0 != entries[j].0
  }

  /** The log row that each data row shows. */
  function ETags(rows: map<RowId, Row>): map<RowId, Uri> {
    map r | r in rows :: rows[r].etag
  }

  /** The atomic table after the change set. */
  function Commit(t: Table, tag: Uri, logs: map<Uri, LogRow>, rows: map<RowId, Row>): Table {
    Table(Some(tag), t.log + logs, t.head + ETags(rows))
  }

  // ----- invariants -----

  /** Heads are the newest log rows of their row, and every logged row has one. */
  ghost predicate HeadsNewest(t: Table) {
    && (forall r :: r in t.head ==> t.head[r] in t.log && t.log[t.head[r]].rowId == r)
    && (forall e :: e in t.log ==>
          t.log[e].rowId in t.head && t.log[e].seqv <= t.log[t.head[t.log[e].rowId]].seqv)
  }

  /** A previous ETag names an older log row of the same row. */
  predicate Linked(log: map<Uri, LogRow>, e: Uri)
    requires e in log
  {
    log[e].prev.Some? ==>
      var p := log[e].prev.value;
      && p in log
      && log[p].rowId == log[e].rowId && log[p].createUser == log[e].createUser
      && log[p].seqv < log[e].seqv
  }

  ghost predicate Chained(t: Table) {
    forall e {:trigger Linked(t.log, e)} :: e in t.log ==> Linked(t.log, e)
  }

  predicate Older(log: map<Uri, LogRow>, f: Uri, e: Uri) {
    e in log && f in log && log[e].rowId == log[f].rowId && log[f].seqv < log[e].seqv
  }

  /** The previous ETag of `e` is that of `f` or of a later log row. */
  predicate PrevCovers(log: map<Uri, LogRow>, e: Uri, f: Uri)
    requires e in log && f in log
  {
    log[e].prev.Some? && log[e].prev.value in log && log[f].seqv <= log[log[e].prev.value].seqv
  }

  /** No log row of a data row lies between another one and its previous ETag. */
  ghost predicate NoGaps(t: Table) {
    forall e, f {:trigger PrevCovers(t.log, e, f)} :: Older(t.log, f, e) ==> PrevCovers(t.log, e, f)
  }

  ghost predicate SeqDistinct(t: Table) {
    forall e, f :: e in t.log && f in t.log && t.log[e].seqv == t.log[f].seqv ==> e == f
  }

  /** The change set named by the data tag is the last one in the log. */
  ghost predicate TagLast(t: Table) {
    forall e, f :: e in t.log && f in t.log && t.tag == Some(t.log[e].tag) && t.tag != Some(t.log[f].tag) ==>
      t.log[f].seqv < t.log[e].seqv
  }

  ghost predicate TableInv(t: Table) {
    HeadsNewest(t) && SeqDistinct(t) && TagLast(t)
  }

  ghost predicate RowsMatchLog(s: State) {
    forall r :: r in s.rows ==>
      && s.rows[r].etag in s.log
      && s.log[s.rows[r].etag].rowId == r
      && Shows(s.rows[r], s.log[s.rows[r].etag])
  }

  ghost predicate PendingChained(s: State) {
    forall e :: IsPending(s, e) ==>
      && s.log[e].prev == Base(s, s.log[e].rowId)
      && (s.log[e].prev.Some? && s.log[e].prev.value in s.log ==>
            s.log[s.log[e].prev.value].createUser == s.log[e].createUser)
  }

  predicate Typed(columns: seq<string>, b: Body) {
    forall c :: c in b.values ==> c in columns
  }

  /** Log rows carry no device and no office: nothing ever sets those two fields. */
  ghost predicate LogTyped(s: State) {
    forall e :: e in s.log ==>
      Typed(s.columns, s.log[e].body) && s.log[e].device == None && s.log[e].office == None
  }

  /** What holds of the stored state between any two writes. */
  ghost predicate Inv(s: State) {
    && RowsMatchLog(s) && PendingChained(s) && LogTyped(s) && TableInv(TableOf(s))
    && (s.entry.pending.Some? ==> s.entry.pending != s.entry.tag)
  }

  /** Identifiers below `next` and sequence values below `clock` have been issued. */
  ghost predicate Issued(s: State, next: nat, clock: nat) {
    && (forall e :: e in s.log ==> e < next && s.log[e].tag < next && s.entry.apriori <= s.log[e].seqv < clock)
    && (s.entry.tag.Some? ==> s.entry.tag.value < next)
    && (s.entry.pending.Some? ==> s.entry.pending.value < next)
    && s.entry.apriori <= clock
  }

  /**
    The log rows and data rows of a change set as the writers build them from the table `t`.
    The log row of an insert records whatever row ETag the client sent, and a data row that is
    changed twice has two log rows, both after the one that was current before.
   */
  ghost predicate Built(t: Table, columns: seq<string>, tag: Uri, logs: map<Uri, LogRow>, rows: map<RowId, Row>) {
    && (forall e :: e in logs ==> LogBuilt(t, columns, tag, logs[e]))
    && NewestWritten(logs, rows)
    && (forall e, f :: e in logs && f in logs && logs[e].seqv == logs[f].seqv ==> e == f)
    && RowsShow(logs, rows)
  }

  /** A new log row carries the tag of the change set, and follows the current one of its data row. */
  predicate LogBuilt(t: Table, columns: seq<string>, tag: Uri, l: LogRow) {
    && l.tag == tag && l.device == None && l.office == None
    && Typed(columns, l.body)
    && (l.rowId in t.head ==>
          && l.prev == Some(t.head[l.rowId])
          && t.head[l.rowId] in t.log
          && t.log[t.head[l.rowId]].createUser == l.createUser)
  }

  /** The data row of `e` is written as the newest of its log rows has it. */
  predicate NewestIn(logs: map<Uri, LogRow>, rows: map<RowId, Row>, e: Uri)
    requires e in logs
  {
    && logs[e].rowId in rows && rows[logs[e].rowId].etag in logs
    && logs[e].seqv <= logs[rows[logs[e].rowId].etag].seqv
  }

  ghost predicate NewestWritten(logs: map<Uri, LogRow>, rows: map<RowId, Row>) {
    forall e {:trigger NewestIn(logs, rows, e)} :: e in logs ==> NewestIn(logs, rows, e)
  }

  /** The data row is written as one of the log rows has it. */
  predicate RowShows(logs: map<Uri, LogRow>, r: RowId, row: Row) {
    row.etag in logs && logs[row.etag].rowId == r && Shows(row, logs[row.etag])
  }

  ghost predicate RowsShow(logs: map<Uri, LogRow>, rows: map<RowId, Row>) {
    forall r :: r in rows ==> RowShows(logs, r, rows[r])
  }

  ghost predicate EntriesShow(logs: map<Uri, LogRow>, entries: seq<(RowId, Row)>) {
    forall i :: 0 <= i < |entries| ==> RowShows(logs, entries[i].0, entries[i].1)
  }

  /** A row that is not stored yet is sent without a row ETag. */
  ghost predicate InsertsSendNoETag(t: Table, logs: map<Uri, LogRow>) {
    forall e :: e in logs && logs[e].rowId !in t.head ==> logs[e].prev == None
  }

  /** A change set for the clean state `s`, written with new identifiers and sequence values. */
  ghost predicate BuiltPlan(s: State, next: nat, clock: nat, p: Plan) {
    && DistinctKeys(p.logs) && EntriesShow(MapOf(p.logs), p.rows)
    && Built(TableOf(s), s.columns, p.tag, MapOf(p.logs), MapOf(p.rows))
    && Fresh(next, clock, p.tag, MapOf(p.logs))
  }

  /** The change set uses only new identifiers and new sequence values. */
  ghost predicate Fresh(next: nat, clock: nat, tag: Uri, logs: map<Uri, LogRow>) {
    && next <= tag
    && (forall e :: e in logs ==> next <= e && clock <= logs[e].seqv)
  }
}
