/** Change sets are atomic: any run of cut-off writes and recoveries refines the atomic table. */
module RowLogWrites {
  import Journal
  import opened Wrappers
  import opened RowLog

  /** The state while a change set is under way: these of its rows have been written. */
  function Mid(s: State, tag: Uri, logs: map<Uri, LogRow>, rows: map<RowId, Row>): State {
    s.(entry := s.entry.(pending := Some(tag)), log := s.log + logs, rows := s.rows + rows)
  }

  lemma {:induction false} LogPutsReplay(s: State, logs: seq<(Uri, LogRow)>)
    ensures Replay(s, LogPuts(logs)) == s.(log := s.log + MapOf(logs))
  {
    if logs == [] {
      assert s.log + MapOf(logs) == s.log;
    } else {
      var n := |logs| - 1;
      assert LogPuts(logs) == LogPuts(logs[..n]) + [PutLog(logs[n].0, logs[n].1)];
      Journal.ReplayAppend(Apply, s, LogPuts(logs[..n]), PutLog(logs[n].0, logs[n].1));
      LogPutsReplay(s, logs[..n]);
      assert s.log + MapOf(logs) == (s.log + MapOf(logs[..n]))[logs[n].0 := logs[n].1];
    }
  }

  lemma {:induction false} RowPutsReplay(s: State, rows: seq<(RowId, Row)>)
    ensures Replay(s, RowPuts(rows)) == s.(rows := s.rows + MapOf(rows))
  {
    if rows == [] {
      assert s.rows + MapOf(rows) == s.rows;
    } else {
      var n := |rows| - 1;
      assert RowPuts(rows) == RowPuts(rows[..n]) + [PutRow(rows[n].0, rows[n].1)];
      Journal.ReplayAppend(Apply, s, RowPuts(rows[..n]), PutRow(rows[n].0, rows[n].1));
      RowPutsReplay(s, rows[..n]);
      assert s.rows + MapOf(rows) == (s.rows + MapOf(rows[..n]))[rows[n].0 := rows[n].1];
    }
  }

  /** The log rows and data rows that are stored after the first k writes of a change set. */
  function LogsBy(p: Plan, k: nat): seq<(Uri, LogRow)> {
    if k == 0 then [] else if k - 1 < |p.logs| then p.logs[..k - 1] else p.logs
  }

  function RowsBy(p: Plan, k: nat): seq<(RowId, Row)> {
    if k < 1 + |p.logs| then [] else if k - 1 - |p.logs| < |p.rows| then p.rows[..k - 1 - |p.logs|] else p.rows
  }

  /** Every state before the commit is a `Mid` state. */
  lemma CutWrite(s: State, p: Plan, k: nat)
    requires 0 < k < |WriteCommands(s, p)|
    ensures Crash(s, WriteCommands(s, p), k) == Mid(s, p.tag, MapOf(LogsBy(p, k)), MapOf(RowsBy(p, k)))
  {
    var e := [PutEntry(s.entry.(pending := Some(p.tag)))];
    var a, b := LogPuts(LogsBy(p, k)), RowPuts(RowsBy(p, k));
    Journal.CrashIsPrefix(Apply, s, WriteCommands(s, p), k);
    assert WriteCommands(s, p)[..k] == e + (a + b);
    Journal.One(Apply, s, e[0], 1);
    var s1 := Replay(s, e);
    Journal.ReplayConcat(Apply, s, e, a + b);
    Journal.ReplayConcat(Apply, s1, a, b);
    LogPutsReplay(s1, LogsBy(p, k));
    RowPutsReplay(Replay(s1, a), RowsBy(p, k));
  }

  lemma FullWrite(s: State, p: Plan)
    ensures
      Replay(s, WriteCommands(s, p)) ==
      Mid(s, p.tag, MapOf(p.logs), MapOf(p.rows)).(entry := s.entry.(tag := Some(p.tag), pending := None))
  {
    var c := WriteCommands(s, p);
    var n := |c| - 1;
    CutWrite(s, p, n);
    Journal.CrashIsPrefix(Apply, s, c, n);
    assert c == c[..n] + [c[n]];
    Journal.ReplayAppend(Apply, s, c[..n], c[n]);
    assert LogsBy(p, n) == p.logs && RowsBy(p, n) == p.rows;
  }

  ghost predicate PartOf<K, V>(a: map<K, V>, b: map<K, V>) {
    forall k :: k in a ==> k in b && a[k] == b[k]
  }

  lemma {:induction false} MapOfKeys<K, V>(entries: seq<(K, V)>)
    ensures forall k :: k in MapOf(entries) <==> exists i :: 0 <= i < |entries| && entries[i].0 == k
  {
    if entries != [] {
      var n := |entries| - 1;
      MapOfKeys(entries[..n]);
      forall k ensures k in MapOf(entries) <==> exists i :: 0 <= i < |entries| && entries[i].0 == k {
        if k in MapOf(entries[..n]) {
          var i :| 0 <= i < n && entries[..n][i].0 == k;
          assert entries[i].0 == k;
        }
        if i :| 0 <= i < n && entries[i].0 == k {
          assert entries[..n][i].0 == k;
        }
      }
    }
  }

  lemma {:induction false} MapOfIn<K, V>(entries: seq<(K, V)>, k: K)
    requires k in MapOf(entries)
    ensures (k, MapOf(entries)[k]) in entries
  {
    var n := |entries| - 1;
    if k != entries[n].0 {
      MapOfIn(entries[..n], k);
    }
  }

  lemma {:induction false} PrefixPart<K, V>(entries: seq<(K, V)>, k: nat)
    requires DistinctKeys(entries) && k <= |entries|
    ensures PartOf(MapOf(entries[..k]), MapOf(entries))
    decreases |entries|
  {
    if k < |entries| {
      var n := |entries| - 1;
      assert entries[..n][..k] == entries[..k];
      PrefixPart(entries[..n], k);
      MapOfKeys(entries[..n]);
    } else {
      assert entries[..k] == entries;
    }
  }

  // ----- one change set -----

  /** Nothing in the clean state `s` uses the identifiers of the change set. */
  ghost predicate NewTo(s: State, tag: Uri, logs: map<Uri, LogRow>) {
    forall e :: e in s.log ==> e !in logs && s.log[e].tag != tag
  }

  ghost predicate RowsHaveLogs(s: State) {
    forall r :: r in s.rows ==> s.rows[r].etag in s.log
  }

  /** The data rows of a change set come after its log rows, which chain to the current heads. */
  ghost predicate WellChained(t: Table, tag: Uri, logs: map<Uri, LogRow>, rows: map<RowId, Row>) {
    && (forall e :: e in logs ==> logs[e].tag == tag && logs[e].prev == HeadOf(t, logs[e].rowId))
    && RowsShow(logs, rows)
  }

  /** A change keeps the creator of the row. */
  ghost predicate SameCreators(before: map<Uri, LogRow>, logs: map<Uri, LogRow>) {
    forall e :: e in logs && logs[e].prev.Some? && logs[e].prev.value in before ==>
      before[logs[e].prev.value].createUser == logs[e].createUser
  }

  lemma MidPendingAre(s: State, tag: Uri, logs: map<Uri, LogRow>, rows: map<RowId, Row>)
    requires NewTo(s, tag, logs) && forall e :: e in logs ==> logs[e].tag == tag
    ensures forall e :: IsPending(Mid(s, tag, logs, rows), e) <==> e in logs
  {
  }

  lemma MidCommitted(s: State, tag: Uri, logs: map<Uri, LogRow>, rows: map<RowId, Row>)
    requires Clean(s) && NewTo(s, tag, logs) && forall e :: e in logs ==> logs[e].tag == tag
    ensures Committed(Mid(s, tag, logs, rows)) == s.log == Committed(s)
  {
    MidPendingAre(s, tag, logs, rows);
  }

  /** A data row that is written has its old base: the log row that its new one follows. */
  lemma MidBase(s: State, tag: Uri, logs: map<Uri, LogRow>, rows: map<RowId, Row>, r: RowId)
    requires Clean(s) && RowsHaveLogs(s) && NewTo(s, tag, logs) && WellChained(TableOf(s), tag, logs, rows)
    ensures Base(Mid(s, tag, logs, rows), r) == Base(s, r)
  {
    hide Shows, TableOf;
    var m := Mid(s, tag, logs, rows);
    MidPendingAre(s, tag, logs, rows);
    CleanHead(s, r);
    if r in rows {
      assert RowShows(logs, r, rows[r]);
      assert IsPending(m, rows[r].etag);
    }
  }

  lemma CleanHead(s: State, r: RowId)
    requires Clean(s)
    ensures HeadOf(TableOf(s), r) == Base(s, r) == if r in s.rows then Some(s.rows[r].etag) else None
  {
  }

  /** The table is read off the data tag, the committed log and the bases of the rows. */
  lemma SameBasesSameTable(s: State, m: State)
    requires s.entry.tag == m.entry.tag && Committed(s) == Committed(m)
    requires forall r :: Base(m, r) == Base(s, r)
    ensures TableOf(m) == TableOf(s)
  {
    hide Committed;
    var a, b := TableOf(s).head, TableOf(m).head;
    forall r ensures (r in a <==> Base(s, r).Some?) && (r in b <==> Base(m, r).Some?) {
      hide IsPending;
    }
    assert a == b;
  }

  lemma MidTable(s: State, tag: Uri, logs: map<Uri, LogRow>, rows: map<RowId, Row>)
    requires Clean(s) && RowsHaveLogs(s) && NewTo(s, tag, logs) && WellChained(TableOf(s), tag, logs, rows)
    ensures
      var m := Mid(s, tag, logs, rows);
      && (forall e :: IsPending(m, e) <==> e in logs)
      && (forall r :: Base(m, r) == Base(s, r))
      && TableOf(m) == TableOf(s)
  {
    hide Base, TableOf, Committed, Clean, RowsHaveLogs, RowsShow, NewTo, IsPending;
    MidPendingAre(s, tag, logs, rows);
    MidCommitted(s, tag, logs, rows);
    forall r ensures Base(Mid(s, tag, logs, rows), r) == Base(s, r) {
      MidBase(s, tag, logs, rows, r);
    }
    SameBasesSameTable(s, Mid(s, tag, logs, rows));
  }

  lemma MidRows(s: State, tag: Uri, logs: map<Uri, LogRow>, rows: map<RowId, Row>)
    requires RowsMatchLog(s) && NewTo(s, tag, logs) && RowsShow(logs, rows)
    ensures RowsMatchLog(Mid(s, tag, logs, rows))
  {
    var m := Mid(s, tag, logs, rows);
    forall r | r in m.rows
      ensures m.rows[r].etag in m.log && m.log[m.rows[r].etag].rowId == r && Shows(m.rows[r], m.log[m.rows[r].etag])
    {
      if r !in rows { assert r in s.rows && s.rows[r].etag in s.log; }
    }
  }

  lemma MidPending(s: State, tag: Uri, logs: map<Uri, LogRow>, rows: map<RowId, Row>)
    requires Clean(s) && RowsHaveLogs(s) && NewTo(s, tag, logs) && WellChained(TableOf(s), tag, logs, rows)
    requires SameCreators(s.log, logs)
    ensures PendingChained(Mid(s, tag, logs, rows))
  {
    var m, t := Mid(s, tag, logs, rows), TableOf(s);
    MidTable(s, tag, logs, rows);
    forall e | IsPending(m, e)
      ensures m.log[e].prev == Base(m, m.log[e].rowId)
      ensures m.log[e].prev.Some? && m.log[e].prev.value in m.log ==>
        m.log[m.log[e].prev.value].createUser == m.log[e].createUser
    {
      assert e in logs && m.log[e] == logs[e];
      assert Base(s, logs[e].rowId) == HeadOf(t, logs[e].rowId);
    }
  }

  lemma PartFits(
      t: Table, columns: seq<string>, tag: Uri,
      allLogs: map<Uri, LogRow>, allRows: map<RowId, Row>,
      logs: map<Uri, LogRow>, rows: map<RowId, Row>)
    requires Built(t, columns, tag, allLogs, allRows) && InsertsSendNoETag(t, logs)
    requires PartOf(logs, allLogs) && RowsShow(allLogs, rows)
    requires forall r :: r in rows ==> rows[r].etag in logs
    ensures WellChained(t, tag, logs, rows)
  {
    hide Shows;
    forall e | e in logs ensures logs[e].tag == tag && logs[e].prev == HeadOf(t, logs[e].rowId) {
      assert e in allLogs;
    }
    forall r | r in rows ensures RowShows(logs, r, rows[r]) {
      assert RowShows(allLogs, r, rows[r]);
    }
  }

  lemma PartCreators(
      t: Table, columns: seq<string>, tag: Uri,
      allLogs: map<Uri, LogRow>, allRows: map<RowId, Row>, logs: map<Uri, LogRow>)
    requires Built(t, columns, tag, allLogs, allRows) && InsertsSendNoETag(t, logs) && PartOf(logs, allLogs)
    ensures SameCreators(t.log, logs)
  {
    forall e | e in logs && logs[e].prev.Some? && logs[e].prev.value in t.log
      ensures t.log[logs[e].prev.value].createUser == logs[e].createUser
    {
      assert e in allLogs;
    }
  }

  lemma FreshIsNew(s: State, next: nat, clock: nat, tag: Uri, allLogs: map<Uri, LogRow>, logs: map<Uri, LogRow>)
    requires Issued(s, next, clock) && Fresh(next, clock, tag, allLogs) && PartOf(logs, allLogs)
    ensures NewTo(s, tag, logs)
  {
  }

  /** With nothing pending, the table is what is stored. */
  lemma CleanTable(s: State)
    requires Clean(s)
    ensures TableOf(s) == Table(s.entry.tag, s.log, ETags(s.rows))
  {
    assert Committed(s) == s.log;
    forall r ensures Base(s, r) == if r in s.rows then Some(s.rows[r].etag) else None { }
  }

  /** The head of a stored row is the log row that it shows. */
  lemma HeadIsRow(s: State, r: RowId)
    requires RowsMatchLog(s) && Clean(s)
    ensures r in TableOf(s).head <==> r in s.rows
    ensures r in s.rows ==>
      var h := s.rows[r].etag;
      TableOf(s).head[r] == h && h in TableOf(s).log && TableOf(s).log[h].createUser == s.rows[r].createUser
  {
    CleanTable(s);
    if r in s.rows {
      assert Shows(s.rows[r], s.log[s.rows[r].etag]);
    }
  }

  lemma MatchedHaveLogs(s: State)
    requires RowsMatchLog(s)
    ensures RowsHaveLogs(s)
  {
  }

  lemma MidTyped(
      s: State, tag: Uri, t: Table, allLogs: map<Uri, LogRow>, allRows: map<RowId, Row>,
      logs: map<Uri, LogRow>, rows: map<RowId, Row>)
    requires LogTyped(s) && Built(t, s.columns, tag, allLogs, allRows) && PartOf(logs, allLogs)
    ensures LogTyped(Mid(s, tag, logs, rows))
  {
  }

  /**
    Any part of the log rows, and any part of the data rows whose log rows are stored.  No log row
    in that part is an insert that was sent with a row ETag.
   */
  lemma MidKeeps(
      s: State, next: nat, clock: nat, tag: Uri,
      allLogs: map<Uri, LogRow>, allRows: map<RowId, Row>,
      logs: map<Uri, LogRow>, rows: map<RowId, Row>)
    requires Inv(s) && Clean(s) && Issued(s, next, clock)
    requires Built(TableOf(s), s.columns, tag, allLogs, allRows) && Fresh(next, clock, tag, allLogs)
    requires PartOf(logs, allLogs) && RowsShow(allLogs, rows) && InsertsSendNoETag(TableOf(s), logs)
    requires forall r :: r in rows ==> rows[r].etag in logs
    ensures
      var m := Mid(s, tag, logs, rows);
      && Inv(m) && TableOf(m) == TableOf(s)
      && (forall e :: IsPending(m, e) <==> e in logs)
  {
    hide TableInv, Built, InsertsSendNoETag, RowsShow, PartOf, Base, IsPending, RowsMatchLog, PendingChained, LogTyped;
    var m, t := Mid(s, tag, logs, rows), TableOf(s);
    CleanTable(s);
    MatchedHaveLogs(s);
    PartFits(t, s.columns, tag, allLogs, allRows, logs, rows);
    FreshIsNew(s, next, clock, tag, allLogs, logs);
    MidTable(s, tag, logs, rows);
    MidRows(s, tag, logs, rows);
    MidTyped(s, tag, t, allLogs, allRows, logs, rows);
    PartCreators(t, s.columns, tag, allLogs, allRows, logs);
    MidPending(s, tag, logs, rows);
  }

  lemma CommitHead(t: Table, tag: Uri, logs: map<Uri, LogRow>, rows: map<RowId, Row>, r: RowId)
    ensures HeadOf(Commit(t, tag, logs, rows), r) == if r in rows then Some(rows[r].etag) else HeadOf(t, r)
  {
  }

  /** The head of a data row that is written is its new log row, and it is the newest. */
  lemma CommitHeadIs(t: Table, tag: Uri, logs: map<Uri, LogRow>, rows: map<RowId, Row>, r: RowId)
    requires HeadsNewest(t) && r in rows && RowShows(logs, r, rows[r])
    requires forall e, f :: e in t.log && f in logs ==> e != f && t.log[e].seqv < logs[f].seqv
    ensures
      var u := Commit(t, tag, logs, rows);
      && r in u.head && u.head[r] == rows[r].etag && u.head[r] in u.log && u.log[u.head[r]] == logs[rows[r].etag]
      && u.log[u.head[r]].rowId == r
  {
    hide Shows;
  }

  lemma CommitHeads(t: Table, tag: Uri, logs: map<Uri, LogRow>, rows: map<RowId, Row>)
    requires HeadsNewest(t)
    requires forall e, f :: e in t.log && f in logs ==> e != f && t.log[e].seqv < logs[f].seqv
    requires NewestWritten(logs, rows) && RowsShow(logs, rows)
    ensures HeadsNewest(Commit(t, tag, logs, rows))
  {
    var u := Commit(t, tag, logs, rows);
    assert u.log == t.log + logs;
    hide Commit, RowShows;
    forall r | r in u.head ensures u.head[r] in u.log && u.log[u.head[r]].rowId == r {
      CommitHead(t, tag, logs, rows, r);
      if r in rows { CommitHeadIs(t, tag, logs, rows, r); }
    }
    forall e | e in u.log
      ensures u.log[e].rowId in u.head && u.log[e].seqv <= u.log[u.head[u.log[e].rowId]].seqv
    {
      var r := u.log[e].rowId;
      CommitHead(t, tag, logs, rows, r);
      if e in logs { assert NewestIn(logs, rows, e); }
      if r in rows { CommitHeadIs(t, tag, logs, rows, r); }
    }
  }

  lemma CommitOrder(t: Table, tag: Uri, logs: map<Uri, LogRow>, rows: map<RowId, Row>)
    requires SeqDistinct(t)
    requires forall e, f :: e in t.log && f in logs ==> e != f && t.log[e].seqv < logs[f].seqv
    requires forall e, f :: e in logs && f in logs && logs[e].seqv == logs[f].seqv ==> e == f
    requires forall e :: e in t.log ==> t.log[e].tag != tag
    requires forall e :: e in logs ==> logs[e].tag == tag
    ensures SeqDistinct(Commit(t, tag, logs, rows)) && TagLast(Commit(t, tag, logs, rows))
  {
  }

  lemma CommitKeepsTable(
      t: Table, columns: seq<string>, next: nat, clock: nat, tag: Uri,
      logs: map<Uri, LogRow>, rows: map<RowId, Row>)
    requires TableInv(t)
    requires forall e :: e in t.log ==> e < next && t.log[e].tag < next && t.log[e].seqv < clock
    requires Built(t, columns, tag, logs, rows) && Fresh(next, clock, tag, logs)
    ensures TableInv(Commit(t, tag, logs, rows))
  {
    assert forall e, f :: e in t.log && f in logs ==> e != f && t.log[e].seqv < logs[f].seqv;
    CommitHeads(t, tag, logs, rows);
    CommitOrder(t, tag, logs, rows);
  }

  function CommitState(s: State, tag: Uri, logs: map<Uri, LogRow>, rows: map<RowId, Row>): State {
    Mid(s, tag, logs, rows).(entry := s.entry.(tag := Some(tag), pending := None))
  }

  lemma CommitTable(s: State, tag: Uri, logs: map<Uri, LogRow>, rows: map<RowId, Row>)
    requires Clean(s)
    ensures
      var m := CommitState(s, tag, logs, rows);
      Clean(m) && TableOf(m) == Commit(TableOf(s), tag, logs, rows)
  {
    var m := CommitState(s, tag, logs, rows);
    assert Clean(m);
    hide TableOf, Clean;
    CleanTable(s);
    CleanTable(m);
    hide ETags;
    MergedETags(s.rows, rows);
  }

  lemma MergedETags(a: map<RowId, Row>, b: map<RowId, Row>)
    ensures ETags(a + b) == ETags(a) + ETags(b)
  {
  }

  /** The commit makes the whole change set part of the table, at once, whatever ETags its inserts carry. */
  lemma CommitKeeps(
      s: State, next: nat, clock: nat, tag: Uri, logs: map<Uri, LogRow>, rows: map<RowId, Row>)
    requires Inv(s) && Clean(s) && Issued(s, next, clock)
    requires Built(TableOf(s), s.columns, tag, logs, rows) && Fresh(next, clock, tag, logs)
    ensures
      var m := CommitState(s, tag, logs, rows);
      && Inv(m) && Clean(m) && TableOf(m) == Commit(TableOf(s), tag, logs, rows)
  {
    hide TableInv, Shows, NewestWritten, LogBuilt, RowsShow, RowsMatchLog, LogTyped, PendingChained;
    var t := TableOf(s);
    assert Committed(s) == s.log;
    CommitTable(s, tag, logs, rows);
    CommitKeepsTable(t, s.columns, next, clock, tag, logs, rows);
    hide Built, TableOf, Committed;
    FreshIsNew(s, next, clock, tag, logs, logs);
    BuiltShows(t, s.columns, tag, logs, rows);
    MidRows(s, tag, logs, rows);
    MidTyped(s, tag, t, logs, rows, logs, rows);
    CommittedRows(s, tag, logs, rows);
  }

  lemma BuiltShows(t: Table, columns: seq<string>, tag: Uri, logs: map<Uri, LogRow>, rows: map<RowId, Row>)
    requires Built(t, columns, tag, logs, rows)
    ensures RowsShow(logs, rows)
  {
  }

  /** The commit changes nothing but the entry, and leaves nothing pending. */
  lemma CommittedRows(s: State, tag: Uri, logs: map<Uri, LogRow>, rows: map<RowId, Row>)
    requires RowsMatchLog(Mid(s, tag, logs, rows)) && LogTyped(Mid(s, tag, logs, rows))
    ensures
      var m := CommitState(s, tag, logs, rows);
      RowsMatchLog(m) && LogTyped(m) && PendingChained(m)
  {
    hide Shows, Typed;
  }
}
