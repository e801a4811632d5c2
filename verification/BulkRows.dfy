/** The batch write: what happens to each of its rows, and the change set they make together. */
module BulkRows {
  import opened Wrappers
  import opened RowLog
  import opened RowLogWrites
  import opened RowLogRuns
  import opened RowLogChains
  import opened RowEntities

  datatype OutcomeType = SUCCESS | DENIED | IN_CONFLICT

  /** What a client is told about one row: its request, or the row on the server. */
  datatype RowOutcome =
    | OfRequest(kind: OutcomeType, req: RowReq)
    | OfServer(kind: OutcomeType, rowId: RowId, row: Row)

  /** The state of one row of a batch while it is processed. */
  class BulkRowObjWrapper {
    var row: RowReq
    var entity: Option<Row>
    var outcome: Option<RowOutcome>
    var rowFilterScope: Scope
    const newRowId: bool
    const nullIncomingScope: bool

    /** `newId` is used when the request has no row id. */
    constructor (inputRow: RowReq, newId: RowId)
      ensures outcome == None && entity == None
      ensures newRowId == inputRow.rowId.None? && nullIncomingScope == inputRow.scope.None?
      ensures rowFilterScope == if inputRow.scope.Some? then inputRow.scope.value else EMPTY_SCOPE
      ensures row == inputRow.(
        rowId := Some(if inputRow.rowId.Some? then inputRow.rowId.value else newId),
        scope := Some(if inputRow.scope.Some? then inputRow.scope.value else EMPTY_SCOPE))
    {
      outcome, entity := None, None;
      newRowId, nullIncomingScope := inputRow.rowId.None?, inputRow.scope.None?;
      var scope := if inputRow.scope.Some? then inputRow.scope.value else EMPTY_SCOPE;
      rowFilterScope := scope;
      row := inputRow.(
        rowId := Some(if inputRow.rowId.Some? then inputRow.rowId.value else newId), scope := Some(scope));
    }

    method SetEntity(e: Row)
      modifies `entity
      ensures entity == Some(e)
    {
      entity := Some(e);
    }

    /** Anything but success gives the request back as it came in. */
    method SetOutcome(kind: OutcomeType)
      modifies `outcome, `row
      ensures row == if kind == SUCCESS then old(row)
                     else old(row).(rowId := if newRowId then None else old(row).rowId,
                                    scope := if nullIncomingScope then None else old(row).scope)
      ensures outcome == Some(OfRequest(kind, row))
    {
      if kind != SUCCESS {
        if newRowId { row := row.(rowId := None); }
        if nullIncomingScope { row := row.(scope := None); }
      }
      outcome := Some(OfRequest(kind, row));
    }

    method SetServerOutcome(rowId: RowId, revised: Row, kind: OutcomeType)
      modifies `outcome
      ensures outcome == Some(OfServer(kind, rowId, revised))
    {
      outcome := Some(OfServer(kind, rowId, revised));
    }

    predicate OutcomeAlreadySet()
      reads `outcome
    {
      outcome.Some?
    }

    /** Only for a request that came without a scope. */
    method SetRowFilterScope(scope: Scope)
      requires nullIncomingScope
      modifies `rowFilterScope, `row
      ensures rowFilterScope == scope && row == old(row).(scope := Some(scope))
    {
      rowFilterScope := scope;
      row := row.(scope := Some(scope));
    }
  }

  /** What happens to one row of a batch. */
  datatype Verdict =
    | Turned(outcome: RowOutcome)                 // turned down when it is looked up
    | Answered(outcome: RowOutcome)               // answered without a change
    | Change(row: Row, prev: Option<Uri>, update: bool)

  /** One row of a batch after it has been judged. */
  datatype Item = Item(req: RowReq, rowId: RowId, verdict: Verdict, seqv: nat)

  // ----- the change set -----

  function Entry1(tag: Uri, item: Item): (Uri, LogRow)
    requires item.verdict.Change?
  {
    (item.verdict.row.etag, NewLogRow(item.rowId, item.verdict.row, tag, item.verdict.prev, item.seqv))
  }

  function Logs(tag: Uri, items: seq<Item>): seq<(Uri, LogRow)> {
    if items == [] then []
    else
      var n := |items| - 1;
      Logs(tag, items[..n]) + if items[n].verdict.Change? then [Entry1(tag, items[n])] else []
  }

  /** The data rows of the changes that are updates, or of those that are inserts. */
  function RowsOf(items: seq<Item>, update: bool): seq<(RowId, Row)> {
    if items == [] then []
    else
      var n := |items| - 1;
      RowsOf(items[..n], update) +
      if items[n].verdict.Change? && items[n].verdict.update == update
      then [(items[n].rowId, items[n].verdict.row)] else []
  }

  function PlanOf(tag: Uri, items: seq<Item>): Plan {
    Plan(tag, Logs(tag, items), RowsOf(items, true) + RowsOf(items, false))
  }

  /** What the client is told, in order; a row turned down at its lookup is listed twice. */
  function Outcomes(items: seq<Item>): seq<RowOutcome> {
    if items == [] then []
    else
      var n := |items| - 1;
      Outcomes(items[..n]) + Told(items[n])
  }

  function Told(item: Item): seq<RowOutcome> {
    match item.verdict
    case Turned(o) => [o, o]
    case Answered(o) => [o]
    case Change(row, _, _) => [OfServer(SUCCESS, item.rowId, row)]
  }

  function Changes(items: seq<Item>): nat {
    if items == [] then 0
    else Changes(items[..|items| - 1]) + if items[|items| - 1].verdict.Change? then 1 else 0
  }

  /** As many log rows as updates and inserts, one for each row that is changed. */
  lemma {:induction false} Conservation(tag: Uri, items: seq<Item>)
    ensures |Logs(tag, items)| == |RowsOf(items, true)| + |RowsOf(items, false)| == Changes(items)
  {
    if items != [] { Conservation(tag, items[..|items| - 1]); }
  }

  /** `x` is the log row that the `k`-th item of the batch makes. */
  predicate MakesLog(tag: Uri, items: seq<Item>, k: int, x: (Uri, LogRow)) {
    0 <= k < |items| && items[k].verdict.Change? && x == Entry1(tag, items[k])
  }

  /** `x` is the data row that the `k`-th item of the batch updates or inserts. */
  predicate MakesRow(items: seq<Item>, update: bool, k: int, x: (RowId, Row)) {
    && 0 <= k < |items| && items[k].verdict.Change? && items[k].verdict.update == update
    && x == (items[k].rowId, items[k].verdict.row)
  }

  lemma {:induction false} LogsHave(tag: Uri, items: seq<Item>, x: (Uri, LogRow))
    ensures x in Logs(tag, items) <==> exists k :: MakesLog(tag, items, k, x)
  {
    if items != [] {
      var n := |items| - 1;
      LogsHave(tag, items[..n], x);
      if x in Logs(tag, items[..n]) {
        var k :| MakesLog(tag, items[..n], k, x);
        assert MakesLog(tag, items, k, x);
      } else if x in Logs(tag, items) {
        assert MakesLog(tag, items, n, x);
      }
      if exists k :: MakesLog(tag, items, k, x) {
        var k :| MakesLog(tag, items, k, x);
        if k < n { assert MakesLog(tag, items[..n], k, x); }
      }
    }
  }

  lemma {:induction false} RowsHave(items: seq<Item>, update: bool, x: (RowId, Row))
    ensures x in RowsOf(items, update) <==> exists k :: MakesRow(items, update, k, x)
  {
    if items != [] {
      var n := |items| - 1;
      RowsHave(items[..n], update, x);
      if x in RowsOf(items[..n], update) {
        var k :| MakesRow(items[..n], update, k, x);
        assert MakesRow(items, update, k, x);
      } else if x in RowsOf(items, update) {
        assert MakesRow(items, update, n, x);
      }
      if exists k :: MakesRow(items, update, k, x) {
        var k :| MakesRow(items, update, k, x);
        if k < n { assert MakesRow(items[..n], update, k, x); }
      }
    }
  }

  // ----- entries as maps -----

  lemma {:induction false} MapOfAt<K, V>(entries: seq<(K, V)>, x: (K, V))
    requires DistinctKeys(entries) && x in entries
    ensures x.0 in MapOf(entries) && MapOf(entries)[x.0] == x.1
  {
    var n := |entries| - 1;
    if x != entries[n] {
      assert x in entries[..n];
      MapOfAt(entries[..n], x);
      var i :| 0 <= i < n && entries[i] == x;
      assert entries[i].0 != entries[n].0;
    }
  }

  /** The changes of the batch have different new ETags, and ascending sequence values. */
  ghost predicate Numbered(items: seq<Item>) {
    forall j, k :: 0 <= j < k < |items| && items[j].verdict.Change? && items[k].verdict.Change? ==>
      items[j].verdict.row.etag != items[k].verdict.row.etag && items[j].seqv < items[k].seqv
  }

  predicate Alters(item: Item, update: bool) {
    item.verdict.Change? && item.verdict.update == update
  }

  /** No two changes of this kind, updates or inserts, are of the same data row. */
  ghost predicate DifferentRows(items: seq<Item>, update: bool) {
    forall j, k :: 0 <= j < k < |items| && Alters(items[j], update) && Alters(items[k], update) ==>
      items[j].rowId != items[k].rowId
  }

  lemma {:induction false} LogKeysDistinct(tag: Uri, items: seq<Item>)
    requires Numbered(items)
    ensures DistinctKeys(Logs(tag, items))
  {
    if items != [] {
      var n := |items| - 1;
      LogKeysDistinct(tag, items[..n]);
      var before := Logs(tag, items[..n]);
      if items[n].verdict.Change? {
        forall i | 0 <= i < |before| ensures before[i].0 != items[n].verdict.row.etag {
          LogsHave(tag, items[..n], before[i]);
          var k :| MakesLog(tag, items[..n], k, before[i]);
          assert items[k] == items[..n][k];
        }
      }
    }
  }

  /** The list of updates, or of inserts, names no row twice just when the batch does not. */
  lemma {:induction false} RowKeysDistinctIff(items: seq<Item>, update: bool)
    ensures DistinctKeys(RowsOf(items, update)) <==> DifferentRows(items, update)
  {
    if items != [] {
      var n := |items| - 1;
      var front, before := items[..n], RowsOf(items[..n], update);
      RowKeysDistinctIff(front, update);
      assert RowsOf(items, update)[..|before|] == before;
      if items[n].verdict.Change? && items[n].verdict.update == update {
        assert RowsOf(items, update)[|before|].0 == items[n].rowId;
        forall i | 0 <= i < |before| && before[i].0 == items[n].rowId ensures !DifferentRows(items, update) {
          RowsHave(front, update, before[i]);
          var k :| MakesRow(front, update, k, before[i]);
          assert items[k] == front[k];
        }
        forall k | 0 <= k < n && items[k].verdict.Change? && items[k].verdict.update == update
            && items[k].rowId == items[n].rowId
          ensures !DistinctKeys(RowsOf(items, update))
        {
          var x := (items[k].rowId, items[k].verdict.row);
          RowsHave(front, update, x);
          assert MakesRow(front, update, k, x);
          var i :| 0 <= i < |before| && before[i] == x;
        }
      }
      DifferentSplit(items, update);
      DistinctSplit(RowsOf(items, update), |before|);
    }
  }

  lemma DifferentSplit(items: seq<Item>, update: bool)
    requires items != []
    ensures
      var n := |items| - 1;
      DifferentRows(items, update) <==>
        && DifferentRows(items[..n], update)
        && (items[n].verdict.Change? && items[n].verdict.update == update ==>
              forall k :: 0 <= k < n && items[k].verdict.Change? && items[k].verdict.update == update ==>
                items[k].rowId != items[n].rowId)
  {
    var n := |items| - 1;
    forall k | 0 <= k < n ensures items[..n][k] == items[k] { }
  }

  lemma DistinctSplit(rows: seq<(RowId, Row)>, n: nat)
    requires n <= |rows| <= n + 1
    ensures DistinctKeys(rows) <==>
      DistinctKeys(rows[..n]) && (n < |rows| ==> forall i :: 0 <= i < n ==> rows[i].0 != rows[n].0)
  {
    forall i | 0 <= i < n ensures rows[..n][i] == rows[i] { }
  }

  /** The item behind a log row of the plan. */
  lemma ItemOfLog(tag: Uri, items: seq<Item>, e: Uri) returns (k: nat)
    requires e in MapOf(Logs(tag, items))
    ensures MakesLog(tag, items, k, (e, MapOf(Logs(tag, items))[e]))
  {
    var x := (e, MapOf(Logs(tag, items))[e]);
    MapOfIn(Logs(tag, items), e);
    LogsHave(tag, items, x);
    k :| MakesLog(tag, items, k, x);
  }

  lemma PlanHasLog(tag: Uri, items: seq<Item>, k: nat)
    requires Numbered(items) && k < |items| && items[k].verdict.Change?
    ensures
      var logs, etag := MapOf(Logs(tag, items)), items[k].verdict.row.etag;
      etag in logs && logs[etag] == Entry1(tag, items[k]).1
  {
    var x := Entry1(tag, items[k]);
    LogKeysDistinct(tag, items);
    LogsHave(tag, items, x);
    assert MakesLog(tag, items, k, x);
    MapOfAt(Logs(tag, items), x);
  }

  /** Of several updates, or inserts, of one data row, the last one is what is written. */
  lemma {:induction false} LastIsWritten(items: seq<Item>, update: bool, k: nat) returns (m: nat)
    requires k < |items| && items[k].verdict.Change? && items[k].verdict.update == update
    ensures k <= m < |items| && items[m].verdict.Change? && items[m].rowId == items[k].rowId
    ensures
      var rows := MapOf(RowsOf(items, update));
      items[k].rowId in rows && rows[items[k].rowId] == items[m].verdict.row
  {
    var n := |items| - 1;
    var before, all := RowsOf(items[..n], update), RowsOf(items, update);
    if items[n].verdict.Change? && items[n].verdict.update == update {
      assert all[..|all| - 1] == before;
    } else {
      assert all == before;
    }
    if items[n].verdict.Change? && items[n].verdict.update == update && items[n].rowId == items[k].rowId {
      m := n;
    } else {
      m := LastIsWritten(items[..n], update, k);
    }
  }

  lemma {:induction false} MapOfConcat<K, V>(a: seq<(K, V)>, b: seq<(K, V)>)
    ensures MapOf(a + b) == MapOf(a) + MapOf(b)
  {
    if b == [] {
      assert a + b == a;
    } else {
      var n := |b| - 1;
      assert (a + b)[..|a + b| - 1] == a + b[..n];
      MapOfConcat(a, b[..n]);
    }
  }

  /** Updates are of rows that are stored, and inserts of rows that are not. */
  ghost predicate Sorted(s: State, items: seq<Item>) {
    forall k :: 0 <= k < |items| && items[k].verdict.Change? ==>
      (items[k].verdict.update <==> items[k].rowId in s.rows)
  }

  /** No insert concerns a row that is updated. */
  lemma NotBoth(s: State, items: seq<Item>, k: nat)
    requires Sorted(s, items) && k < |items| && items[k].verdict.Change?
    ensures items[k].rowId !in MapOf(RowsOf(items, !items[k].verdict.update))
  {
    var update := !items[k].verdict.update;
    var rows := RowsOf(items, update);
    MapOfKeys(rows);
    forall i | 0 <= i < |rows| ensures rows[i].0 != items[k].rowId {
      RowsHave(items, update, rows[i]);
    }
  }

  /** The data row of a change is written as the last change of that row has it. */
  lemma PlanHasRow(s: State, tag: Uri, items: seq<Item>, k: nat) returns (m: nat)
    requires Sorted(s, items) && k < |items| && items[k].verdict.Change?
    ensures k <= m < |items| && items[m].verdict.Change? && items[m].rowId == items[k].rowId
    ensures
      var rows := MapOf(PlanOf(tag, items).rows);
      items[k].rowId in rows && rows[items[k].rowId] == items[m].verdict.row
  {
    m := LastIsWritten(items, items[k].verdict.update, k);
    NotBoth(s, items, k);
    MapOfConcat(RowsOf(items, true), RowsOf(items, false));
  }

  // ----- a valid change set -----

  /** The change starts from the stored row, if there is one, and uses new identifiers. */
  ghost predicate SoundChange(s: State, next: nat, clock: nat, tag: Uri, item: Item) {
    item.verdict.Change? ==>
      var row := item.verdict.row;
      && next <= row.etag && clock <= item.seqv
      && Typed(s.columns, row.body)
      && (!row.deleted ==> row.tag == tag)
      && (item.verdict.update <==> item.rowId in s.rows)
      && (item.rowId in s.rows ==>
            && item.verdict.prev == Some(s.rows[item.rowId].etag)
            && row.createUser == s.rows[item.rowId].createUser)
  }

  /** No insert of the batch carries a row ETag. */
  ghost predicate NoETagOnInserts(s: State, items: seq<Item>) {
    forall k :: 0 <= k < |items| && items[k].verdict.Change? && items[k].rowId !in s.rows ==>
      items[k].verdict.prev == None
  }

  lemma LogFits(s: State, next: nat, clock: nat, tag: Uri, items: seq<Item>, e: Uri)
    requires Inv(s) && Clean(s) && Numbered(items)
    requires forall k :: 0 <= k < |items| ==> SoundChange(s, next, clock, tag, items[k])
    requires e in MapOf(PlanOf(tag, items).logs)
    ensures
      var t, logs, rows := TableOf(s), MapOf(PlanOf(tag, items).logs), MapOf(PlanOf(tag, items).rows);
      && next <= e && clock <= logs[e].seqv
      && LogBuilt(t, s.columns, tag, logs[e]) && NewestIn(logs, rows, e)
  {
    hide TableInv, RowsMatchLog, PendingChained, LogTyped, Clean, TableOf, Shows;
    var k := ItemOfLog(tag, items, e);
    PlanHasLog(tag, items, k);
    var m := PlanHasRow(s, tag, items, k);
    PlanHasLog(tag, items, m);
    HeadIsRow(s, items[k].rowId);
  }

  /** The log rows of the plan are sent without an ETag just when the inserts of the batch are. */
  lemma NoETagIff(s: State, tag: Uri, items: seq<Item>)
    requires RowsMatchLog(s) && Clean(s) && Numbered(items)
    ensures NoETagOnInserts(s, items) <==> InsertsSendNoETag(TableOf(s), MapOf(PlanOf(tag, items).logs))
  {
    hide RowsMatchLog, Clean, TableOf;
    var logs := MapOf(Logs(tag, items));
    PlanLogs(tag, items);
    forall k | 0 <= k < |items| && items[k].verdict.Change?
      ensures
        var e := items[k].verdict.row.etag;
        e in logs && logs[e].rowId == items[k].rowId && logs[e].prev == items[k].verdict.prev
      ensures items[k].rowId in TableOf(s).head <==> items[k].rowId in s.rows
    {
      PlanHasLog(tag, items, k);
      HeadIsRow(s, items[k].rowId);
    }
    forall e | e in logs && logs[e].rowId !in TableOf(s).head && NoETagOnInserts(s, items)
      ensures logs[e].prev == None
    {
      var k := ItemOfLog(tag, items, e);
    }
  }

  lemma EntryShows(tag: Uri, items: seq<Item>, x: (RowId, Row))
    requires Numbered(items) && x in PlanOf(tag, items).rows
    requires forall k :: 0 <= k < |items| && items[k].verdict.Change? && !items[k].verdict.row.deleted ==>
      items[k].verdict.row.tag == tag
    ensures RowShows(MapOf(PlanOf(tag, items).logs), x.0, x.1)
  {
    var update := x in RowsOf(items, true);
    RowsHave(items, update, x);
    var k :| MakesRow(items, update, k, x);
    PlanHasLog(tag, items, k);
  }

  lemma SeqsDiffer(tag: Uri, items: seq<Item>, e: Uri, f: Uri)
    requires Numbered(items)
    requires e in MapOf(Logs(tag, items)) && f in MapOf(Logs(tag, items))
    requires MapOf(Logs(tag, items))[e].seqv == MapOf(Logs(tag, items))[f].seqv
    ensures e == f
  {
    var j := ItemOfLog(tag, items, e);
    var k := ItemOfLog(tag, items, f);
  }

  lemma MatchesHere(s: State)
    requires Inv(s)
    ensures RowsMatchLog(s)
  {
  }

  /** The batch makes a change set that fits the table, even if it names a row twice. */
  lemma BatchValid(s: State, next: nat, clock: nat, tag: Uri, items: seq<Item>)
    requires Inv(s) && Clean(s) && next <= tag && Numbered(items)
    requires forall k :: 0 <= k < |items| ==> SoundChange(s, next, clock, tag, items[k])
    ensures BuiltPlan(s, next, clock, PlanOf(tag, items))
    ensures NoETagOnInserts(s, items) <==> InsertsSendNoETag(TableOf(s), MapOf(PlanOf(tag, items).logs))
  {
    hide Inv, Clean, TableOf, LogBuilt, NewestIn, SoundChange, RowShows, Numbered, PlanOf, NoETagOnInserts;
    hide InsertsSendNoETag;
    var p := PlanOf(tag, items);
    MatchesHere(s);
    NoETagIff(s, tag, items);
    PlanLogs(tag, items);
    LogKeysDistinct(tag, items);
    assert forall k :: 0 <= k < |items| && items[k].verdict.Change? && !items[k].verdict.row.deleted ==>
      items[k].verdict.row.tag == tag by { SoundTags(s, next, clock, tag, items); }
    forall i | 0 <= i < |p.rows| ensures RowShows(MapOf(p.logs), p.rows[i].0, p.rows[i].1) {
      EntryShows(tag, items, p.rows[i]);
    }
    PrefixShows(MapOf(p.logs), p.rows, p.rows);
    forall e | e in MapOf(p.logs) { LogFits(s, next, clock, tag, items, e); }
    forall e, f | e in MapOf(p.logs) && f in MapOf(p.logs) && MapOf(p.logs)[e].seqv == MapOf(p.logs)[f].seqv {
      SeqsDiffer(tag, items, e, f);
    }
  }

  lemma PlanLogs(tag: Uri, items: seq<Item>)
    ensures PlanOf(tag, items).logs == Logs(tag, items) && PlanOf(tag, items).tag == tag
  {
  }

  lemma SoundTags(s: State, next: nat, clock: nat, tag: Uri, items: seq<Item>)
    requires forall k :: 0 <= k < |items| ==> SoundChange(s, next, clock, tag, items[k])
    ensures forall k :: 0 <= k < |items| && items[k].verdict.Change? && !items[k].verdict.row.deleted ==>
      items[k].verdict.row.tag == tag
    ensures Sorted(s, items)
  {
    forall k | 0 <= k < |items| ensures SoundChange(s, next, clock, tag, items[k]) { }
  }

  /** The batch logs no data row twice just when it changes none twice. */
  lemma OnceEachIff(s: State, tag: Uri, items: seq<Item>)
    requires Numbered(items) && Sorted(s, items)
    ensures OnceEach(MapOf(PlanOf(tag, items).logs)) <==> DifferentRows(items, true) && DifferentRows(items, false)
  {
    var logs := MapOf(Logs(tag, items));
    forall j, k | 0 <= j < k < |items| && items[j].verdict.Change? && items[k].verdict.Change?
        && items[j].rowId == items[k].rowId
      ensures !OnceEach(logs)
    {
      PlanHasLog(tag, items, j);
      PlanHasLog(tag, items, k);
    }
    forall e, f | e in logs && f in logs && logs[e].rowId == logs[f].rowId && e != f
      ensures !(DifferentRows(items, true) && DifferentRows(items, false))
    {
      var j := ItemOfLog(tag, items, e);
      var k := ItemOfLog(tag, items, f);
      assert j != k;
    }
  }

  // ----- the writes of a batch -----

  lemma BatchWrites(s: State, tag: Uri, items: seq<Item>)
    ensures WriteCommands(s, PlanOf(tag, items)) ==
      [PutEntry(s.entry.(pending := Some(tag)))]
      + (LogPuts(Logs(tag, items)) + RowPuts(RowsOf(items, true)) + RowPuts(RowsOf(items, false)))
      + [PutEntry(s.entry.(tag := Some(tag), pending := None))]
  {
    var u, v := RowsOf(items, true), RowsOf(items, false);
    assert RowPuts(u + v) == RowPuts(u) + RowPuts(v);
  }

  // ----- outcomes -----

  /** The wrapper has the outcome `o`, or will get it once the change set is committed. */
  ghost predicate Ready(wrapper: BulkRowObjWrapper, o: RowOutcome)
    reads wrapper
  {
    || wrapper.outcome == Some(o)
    || (wrapper.outcome == None && wrapper.entity.Some? && wrapper.row.rowId.Some?
        && o == OfServer(SUCCESS, wrapper.row.rowId.value, wrapper.entity.value))
  }

  /** The list of wrappers leads to these outcomes; only a wrapper with an outcome is listed twice. */
  ghost predicate AllReady(wrappers: seq<BulkRowObjWrapper>, outcomes: seq<RowOutcome>)
    reads wrappers
  {
    && |wrappers| == |outcomes|
    && (forall i :: 0 <= i < |wrappers| ==> Ready(wrappers[i], outcomes[i]))
    && (forall i, j :: 0 <= i < j < |wrappers| && wrappers[i] == wrappers[j] ==> wrappers[i].outcome.Some?)
  }

  /** The rows whose outcome is still open have been written: sets their outcomes, and lists all. */
  method CollectOutcomes(wrappers: seq<BulkRowObjWrapper>, ghost outcomes: seq<RowOutcome>)
    returns (rowOutcomes: seq<RowOutcome>)
    requires AllReady(wrappers, outcomes)
    modifies wrappers
    ensures rowOutcomes == outcomes
  {
    rowOutcomes := [];
    for i := 0 to |wrappers|
      invariant rowOutcomes == outcomes[..i]
      invariant forall j :: i <= j < |wrappers| ==> Ready(wrappers[j], outcomes[j])
      invariant forall j, k :: i <= j < k < |wrappers| && wrappers[j] == wrappers[k] ==> wrappers[j].outcome.Some?
    {
      var wrapper := wrappers[i];
      if !wrapper.OutcomeAlreadySet() {
        wrapper.SetServerOutcome(wrapper.row.rowId.value, wrapper.entity.value, SUCCESS);
      }
      rowOutcomes := rowOutcomes + [wrapper.outcome.value];
    }
    assert outcomes[..|wrappers|] == outcomes;
  }

  /** The wrapper carries the outcome of the item, or the new row if the outcome is still open. */
  ghost predicate Wraps(wrapper: BulkRowObjWrapper, item: Item)
    reads wrapper
  {
    match item.verdict
    case Turned(o) => wrapper.outcome == Some(o)
    case Answered(o) => wrapper.outcome == Some(o)
    case Change(row, _, _) =>
      wrapper.outcome == None && wrapper.entity == Some(row) && wrapper.row.rowId == Some(item.rowId)
  }

  /** Lists the wrapper of one more item, a second time if it was turned down at its lookup. */
  method ListWrapper(
      wrappers: seq<BulkRowObjWrapper>, ghost items: seq<Item>, wrapper: BulkRowObjWrapper, item: Item)
    returns (listed: seq<BulkRowObjWrapper>)
    requires AllReady(wrappers, Outcomes(items)) && Wraps(wrapper, item) && wrapper !in wrappers
    ensures forall w :: w in listed ==> w in wrappers || w == wrapper
    ensures AllReady(listed, Outcomes(items + [item]))
  {
    assert (items + [item])[..|items|] == items;
    listed := wrappers + [wrapper];
    if item.verdict.Turned? { listed := listed + [wrapper]; }
  }

  /** Adds the writes of one more item to the lists. */
  method ListWrites(
      tag: Uri, ghost items: seq<Item>, item: Item,
      logs: seq<(Uri, LogRow)>, updates: seq<(RowId, Row)>, inserts: seq<(RowId, Row)>)
    returns (logs': seq<(Uri, LogRow)>, updates': seq<(RowId, Row)>, inserts': seq<(RowId, Row)>)
    requires logs == Logs(tag, items) && updates == RowsOf(items, true) && inserts == RowsOf(items, false)
    ensures logs' == Logs(tag, items + [item])
    ensures updates' == RowsOf(items + [item], true) && inserts' == RowsOf(items + [item], false)
  {
    assert (items + [item])[..|items|] == items;
    logs', updates', inserts' := logs, updates, inserts;
    if item.verdict.Change? {
      logs' := logs + [Entry1(tag, item)];
      if item.verdict.update {
        updates' := updates + [(item.rowId, item.verdict.row)];
      } else {
        inserts' := inserts + [(item.rowId, item.verdict.row)];
      }
    }
  }

  /** The number of rows that were turned down at their lookup. */
  function Twice(items: seq<Item>): nat {
    if items == [] then 0
    else Twice(items[..|items| - 1]) + if items[|items| - 1].verdict.Turned? then 1 else 0
  }

  /** One outcome for each row, and a second one for each row turned down at its lookup. */
  lemma {:induction false} OutcomeCount(items: seq<Item>)
    ensures |Outcomes(items)| == |items| + Twice(items)
  {
    if items != [] { OutcomeCount(items[..|items| - 1]); }
  }
}
