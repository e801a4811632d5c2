/** The datastore behind one table, with the writes it has carried out. */
module RowStore {
  import Journal
  import opened RowLog
  import opened RowLogSync

  /** Hands out identifiers that were never handed out before. */
  class UriSource {
    var next: nat

    constructor ()
      ensures next == 0
    {
      next := 0;
    }

    method NewUri() returns (u: Uri)
      modifies this
      ensures u == old(next) && next == u + 1
    {
      u := next;
      next := next + 1;
    }
  }

  /**
    Hands out sequence values.  A value stands for the place of its string in the order of
    issue; module Sequencer shows that the strings sort in that order.
   */
  class SequenceSource {
    var now: nat

    constructor ()
      ensures now == 0
    {
      now := 0;
    }

    method NextSequenceValue() returns (v: nat)
      modifies this
      ensures v == old(now) && now == v + 1
    {
      v := now;
      now := now + 1;
    }
  }

  /** Every `put` and `delete` is one atomic write; `journal` lists them. */
  class Store {
    const columns: seq<string>
    var entry: Entry
    var rows: map<RowId, Row>
    var log: map<Uri, LogRow>
    ghost var journal: seq<Put>

    constructor (columns: seq<string>, entry: Entry)
      ensures this.columns == columns && this.entry == entry
      ensures rows == map[] && log == map[] && journal == []
    {
      this.columns, this.entry := columns, entry;
      rows, log, journal := map[], map[], [];
    }

    ghost function Stored(): State
      reads this
    {
      State(columns, entry, rows, log)
    }

    method PutEntry(e: Entry)
      modifies this
      ensures Stored() == Apply(old(Stored()), Put.PutEntry(e))
      ensures journal == old(journal) + [Put.PutEntry(e)]
    {
      entry := e;
      journal := journal + [Put.PutEntry(e)];
    }

    method PutLog(id: Uri, l: LogRow)
      modifies this
      ensures Stored() == Apply(old(Stored()), Put.PutLog(id, l))
      ensures journal == old(journal) + [Put.PutLog(id, l)]
    {
      log := log[id := l];
      journal := journal + [Put.PutLog(id, l)];
    }

    method DeleteLog(id: Uri)
      modifies this
      ensures Stored() == Apply(old(Stored()), DropLog(id))
      ensures journal == old(journal) + [DropLog(id)]
    {
      log := log - {id};
      journal := journal + [DropLog(id)];
    }

    method PutRow(r: RowId, row: Row)
      modifies this
      ensures Stored() == Apply(old(Stored()), Put.PutRow(r, row))
      ensures journal == old(journal) + [Put.PutRow(r, row)]
    {
      rows := rows[r := row];
      journal := journal + [Put.PutRow(r, row)];
    }

    method DeleteRow(r: RowId)
      modifies this
      ensures Stored() == Apply(old(Stored()), DropRow(r))
      ensures journal == old(journal) + [DropRow(r)]
    {
      rows := rows - {r};
      journal := journal + [DropRow(r)];
    }

    /** Writes log rows one by one; a crash may come after any of them. */
    method BulkAlterLog(changes: seq<(Uri, LogRow)>)
      modifies this
      ensures Stored() == Replay(old(Stored()), LogPuts(changes))
      ensures journal == old(journal) + LogPuts(changes)
    {
      for i := 0 to |changes|
        invariant Stored() == Replay(old(Stored()), LogPuts(changes[..i]))
        invariant journal == old(journal) + LogPuts(changes[..i])
      {
        ghost var done, p := LogPuts(changes[..i]), Put.PutLog(changes[i].0, changes[i].1);
        assert LogPuts(changes[..i + 1]) == done + [p];
        Journal.ReplayAppend(Apply, old(Stored()), done, p);
        PutLog(changes[i].0, changes[i].1);
      }
      assert changes[..|changes|] == changes;
    }

    /** Writes data rows one by one; a crash may come after any of them. */
    method BulkAlterRows(changes: seq<(RowId, Row)>)
      modifies this
      ensures Stored() == Replay(old(Stored()), RowPuts(changes))
      ensures journal == old(journal) + RowPuts(changes)
    {
      for i := 0 to |changes|
        invariant Stored() == Replay(old(Stored()), RowPuts(changes[..i]))
        invariant journal == old(journal) + RowPuts(changes[..i])
      {
        ghost var done, p := RowPuts(changes[..i]), Put.PutRow(changes[i].0, changes[i].1);
        assert RowPuts(changes[..i + 1]) == done + [p];
        Journal.ReplayAppend(Apply, old(Stored()), done, p);
        PutRow(changes[i].0, changes[i].1);
      }
      assert changes[..|changes|] == changes;
    }

    /** Inserts data rows one by one; the first that is already there fails and ends the call. */
    method BulkInsertRows(changes: seq<(RowId, Row)>) returns (done: nat)
      modifies this
      ensures done <= |changes|
      ensures Stored() == Replay(old(Stored()), RowPuts(changes[..done]))
      ensures journal == old(journal) + RowPuts(changes[..done])
      ensures (forall i :: 0 <= i < |changes| ==> changes[i].0 !in old(rows)) ==>
        (done == |changes| <==> DistinctKeys(changes))
    {
      done := 0;
      while done < |changes| && changes[done].0 !in rows
        invariant done <= |changes|
        invariant Stored() == Replay(old(Stored()), RowPuts(changes[..done]))
        invariant journal == old(journal) + RowPuts(changes[..done])
        invariant forall r :: r in rows <==> r in old(rows) || exists i :: 0 <= i < done && changes[i].0 == r
        invariant forall i, j :: 0 <= i < j < done ==> changes[i].0 != changes[j].0
      {
        ghost var before, p := RowPuts(changes[..done]), Put.PutRow(changes[done].0, changes[done].1);
        assert RowPuts(changes[..done + 1]) == before + [p];
        Journal.ReplayAppend(Apply, old(Stored()), before, p);
        PutRow(changes[done].0, changes[done].1);
        done := done + 1;
      }
    }

    /** The log rows of one change set, in no particular order. */
    method QueryLogByTag(tag: Uri) returns (ids: seq<Uri>)
      ensures forall e :: e in ids <==> e in log && log[e].tag == tag
      ensures forall i, j :: 0 <= i < j < |ids| ==> ids[i] != ids[j]
    {
      ids := [];
      var left := set e | e in log && log[e].tag == tag;
      while left != {}
        invariant forall e :: e in left ==> e in log && log[e].tag == tag && e !in ids
        invariant forall e :: e in log && log[e].tag == tag ==> e in left || e in ids
        invariant forall e :: e in ids ==> e in log && log[e].tag == tag
        invariant forall i, j :: 0 <= i < j < |ids| ==> ids[i] != ids[j]
        decreases |left|
      {
        var e :| e in left;
        ids, left := ids + [e], left - {e};
      }
    }

    /** The log rows `es` by ascending sequence value. */
    method QueryLogAscending(es: set<Uri>) returns (hits: seq<Uri>)
      requires es <= log.Keys
      requires forall e, f :: e in es && f in es && log[e].seqv == log[f].seqv ==> e == f
      ensures InOrder(log, hits, es)
    {
      hits := [];
      var left := es;
      while left != {}
        invariant Sorting(log, es, hits, left)
        decreases |left|
      {
        var e := First(log, left);
        OneSorted(log, es, hits, left, e);
        hits, left := hits + [e], left - {e};
      }
    }
  }

  /** A log row with the smallest sequence value. */
  method First(log: map<Uri, LogRow>, es: set<Uri>) returns (least: Uri)
    requires es != {} && es <= log.Keys
    ensures least in es && forall e :: e in es ==> log[least].seqv <= log[e].seqv
  {
    least :| least in es;
    var left := es - {least};
    while left != {}
      invariant left <= es && least in es
      invariant forall e :: e in es && e !in left ==> log[least].seqv <= log[e].seqv
      decreases |left|
    {
      var e :| e in left;
      left := left - {e};
      if log[e].seqv < log[least].seqv { least := e; }
    }
  }

  /** `hits` are the first of the log rows `es` in order, and `left` is the rest. */
  ghost predicate Sorting(log: map<Uri, LogRow>, es: set<Uri>, hits: seq<Uri>, left: set<Uri>) {
    && left <= es <= log.Keys
    && (forall e :: e in es <==> e in left || e in hits)
    && (forall e :: e in hits ==> e !in left)
    && (forall i, j :: 0 <= i < j < |hits| ==> log[hits[i]].seqv < log[hits[j]].seqv)
    && (forall e, f :: e in hits && f in left ==> log[e].seqv < log[f].seqv)
  }

  lemma OneSorted(log: map<Uri, LogRow>, es: set<Uri>, hits: seq<Uri>, left: set<Uri>, e: Uri)
    requires Sorting(log, es, hits, left) && e in left
    requires forall f :: f in left ==> log[e].seqv <= log[f].seqv
    requires forall f, g :: f in es && g in es && log[f].seqv == log[g].seqv ==> f == g
    ensures Sorting(log, es, hits + [e], left - {e})
  {
    forall i, j | 0 <= i < j < |hits + [e]| ensures log[(hits + [e])[i]].seqv < log[(hits + [e])[j]].seqv {
      if j == |hits| { assert hits[i] in hits; }
    }
  }
}
