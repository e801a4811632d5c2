/** Requests, and how a data row and its log row are filled in from them. */
module RowEntities {
  import opened Wrappers
  import opened RowLog

  datatype Error =
    | PermissionDenied
    | NotFound
    | ETagMismatch
    | TableTagMismatch
    | RowExists
    | InconsistentState
    | BadColumn(name: string)
    | NullETag
    | DivisionByZero

  /** Column values as a client sends them; None stands for null. */
  type Values = seq<(string, Option<string>)>

  /** A row as a client sends it. */
  datatype RowReq = RowReq(
    rowId: Option<RowId>,
    etag: Option<Uri>,
    deleted: bool,
    scope: Option<Scope>,
    meta: Meta,
    values: Values)

  const EMPTY_SCOPE := Scope("DEFAULT", None)

  /** What the user may do: table-wide rights, and rights that are limited to some rows. */
  datatype Permissions = Permissions(
    readTable: bool,
    writeTable: bool,
    deleteTable: bool,
    unfilteredRead: bool,
    unfilteredWrite: bool,
    unfilteredDelete: bool,
    readable: set<RowId>,
    writable: set<RowId>,
    deletable: set<RowId>)
  {
    predicate CanRead(r: RowId) { unfilteredRead || r in readable }

    predicate CanWrite(r: RowId) { unfilteredWrite || r in writable }

    predicate CanDelete(r: RowId) { unfilteredDelete || r in deletable }
  }

  /**
    The values of `kvs` written over `values`.  A column that is folded into another one is
    skipped; a column that the table does not have is an error.
   */
  function SetValues(
      values: map<string, string>, kvs: Values, columns: seq<string>, folded: seq<string>
      ): Result<map<string, string>, Error>
    decreases |kvs|
  {
    if kvs == [] then Ok(values)
    else
      var (c, v) := kvs[0];
      if c in columns then
        SetValues(if v.Some? then values[c := v.value] else values - {c}, kvs[1..], columns, folded)
      else if c in folded then SetValues(values, kvs[1..], columns, folded)
      else Err(BadColumn(c))
  }

  /** The value of every column of the table, null or not. */
  function RowValues(values: map<string, string>, columns: seq<string>): Values {
    seq(|columns|, i requires 0 <= i < |columns| =>
      (columns[i], if columns[i] in values then Some(values[columns[i]]) else None))
  }

  function SetRowFields(
      row: Row, etag: Uri, tag: Uri, user: string, deleted: bool, scope: Scope, meta: Meta,
      device: Option<string>, office: Option<string>, kvs: Values, columns: seq<string>, folded: seq<string>
      ): Result<Row, Error>
  {
    match SetValues(row.body.values, kvs, columns, folded)
    case Err(e) => Err(e)
    case Ok(values) =>
      Ok(Row(etag, tag, row.createUser, deleted, Body(user, scope, meta, values), device, office))
  }

  /** A data row that is not stored yet; every column is null. */
  function NewRow(user: string): Row {
    Row(0, 0, user, false, Body("", EMPTY_SCOPE, Meta(None, None, None, None, None), map[]), None, None)
  }

  /** The log row of a change: the fields of the data row, except its device and its office. */
  function NewLogRow(r: RowId, row: Row, tag: Uri, prev: Option<Uri>, seqv: nat): LogRow {
    LogRow(r, seqv, prev, tag, row.createUser, row.deleted, row.body, None, None)
  }

  lemma {:induction false} SetValuesTyped(
      values: map<string, string>, kvs: Values, columns: seq<string>, folded: seq<string>)
    requires forall c :: c in values ==> c in columns
    requires SetValues(values, kvs, columns, folded).Ok?
    ensures forall c :: c in SetValues(values, kvs, columns, folded).value ==> c in columns
    decreases |kvs|
  {
    if kvs != [] {
      var (c, v) := kvs[0];
      if c in columns {
        SetValuesTyped(if v.Some? then values[c := v.value] else values - {c}, kvs[1..], columns, folded);
      } else {
        SetValuesTyped(values, kvs[1..], columns, folded);
      }
    }
  }

  /** A sent value belongs to a column, or is folded into one. */
  predicate Known(c: string, columns: seq<string>, folded: seq<string>) {
    c in columns || c in folded
  }

  /** The first sent value without a column is number `i`. */
  predicate FirstUnknown(kvs: Values, columns: seq<string>, folded: seq<string>, i: nat) {
    && i < |kvs| && !Known(kvs[i].0, columns, folded)
    && forall j :: 0 <= j < i ==> Known(kvs[j].0, columns, folded)
  }

  /** Setting values fails just when some sent value has no column, and names the first of these. */
  lemma {:induction false} SetValuesFailsOnColumn(
      values: map<string, string>, kvs: Values, columns: seq<string>, folded: seq<string>)
    ensures
      var r := SetValues(values, kvs, columns, folded);
      && (r.Ok? <==> forall i :: 0 <= i < |kvs| ==> Known(kvs[i].0, columns, folded))
      && (r.Err? ==> exists i: nat :: FirstUnknown(kvs, columns, folded, i) && r.error == BadColumn(kvs[i].0))
    decreases |kvs|
  {
    if kvs != [] {
      var (c, v) := kvs[0];
      if Known(c, columns, folded) {
        var next := if c !in columns then values else if v.Some? then values[c := v.value] else values - {c};
        SetValuesFailsOnColumn(next, kvs[1..], columns, folded);
        assert forall i :: 1 <= i < |kvs| ==> kvs[i] == kvs[1..][i - 1];
        var r := SetValues(values, kvs, columns, folded);
        if r.Err? {
          var i: nat :| FirstUnknown(kvs[1..], columns, folded, i) && r.error == BadColumn(kvs[1..][i].0);
          forall j | 0 <= j < i + 1 ensures Known(kvs[j].0, columns, folded) {
            if j > 0 { assert kvs[j] == kvs[1..][j - 1]; }
          }
          assert FirstUnknown(kvs, columns, folded, i + 1);
        }
      } else {
        assert FirstUnknown(kvs, columns, folded, 0);
      }
    }
  }

  /** The value of a column, None for null. */
  function ValueOf(values: map<string, string>, c: string): Option<string> {
    if c in values then Some(values[c]) else None
  }

  /** Sent value number `i` is the last one for the column. */
  predicate LastSent(kvs: Values, c: string, i: int) {
    && 0 <= i < |kvs| && kvs[i].0 == c
    && forall j :: i < j < |kvs| ==> kvs[j].0 != c
  }

  predicate NotSent(kvs: Values, c: string) {
    forall i :: 0 <= i < |kvs| ==> kvs[i].0 != c
  }

  /** Each column has the last value that was sent for it, null or not, and all else is as it was. */
  ghost predicate HoldsSent(
      after: map<string, string>, before: map<string, string>, kvs: Values, columns: seq<string>)
  {
    && (forall c, i :: c in columns && LastSent(kvs, c, i) ==> ValueOf(after, c) == kvs[i].1)
    && (forall c :: c !in columns || NotSent(kvs, c) ==> ValueOf(after, c) == ValueOf(before, c))
  }

  lemma {:induction false} SetValuesHolds(
      values: map<string, string>, kvs: Values, columns: seq<string>, folded: seq<string>)
    requires SetValues(values, kvs, columns, folded).Ok?
    ensures HoldsSent(SetValues(values, kvs, columns, folded).value, values, kvs, columns)
    decreases |kvs|
  {
    if kvs != [] {
      var (d, v) := kvs[0];
      var rest, after := kvs[1..], SetValues(values, kvs, columns, folded).value;
      var next := if d !in columns then values else if v.Some? then values[d := v.value] else values - {d};
      SetValuesHolds(next, rest, columns, folded);
      assert forall j :: 1 <= j < |kvs| ==> kvs[j] == rest[j - 1];
      forall c, i | c in columns && LastSent(kvs, c, i) ensures ValueOf(after, c) == kvs[i].1 {
        if i > 0 { assert LastSent(rest, c, i - 1); } else { assert NotSent(rest, c); }
      }
      forall c | c !in columns || NotSent(kvs, c) ensures ValueOf(after, c) == ValueOf(values, c) {
        if c in columns {
          assert d != c;
          assert NotSent(rest, c);
        }
      }
    }
  }

  /** The columns from `i` on already hold the values of `to`. */
  ghost predicate AgreeUpTo(from: map<string, string>, to: map<string, string>, columns: seq<string>, i: nat)
    requires i <= |columns|
  {
    forall j :: 0 <= j < i ==>
      && (columns[j] in from <==> columns[j] in to)
      && (columns[j] in from && columns[j] in to ==> from[columns[j]] == to[columns[j]])
  }

  lemma {:induction false} OverwriteFrom(
      from: map<string, string>, to: map<string, string>, columns: seq<string>, folded: seq<string>, i: nat)
    requires i <= |columns| && AgreeUpTo(from, to, columns, i)
    requires forall c :: c in from || c in to ==> c in columns
    ensures SetValues(from, RowValues(to, columns)[i..], columns, folded) == Ok(to)
    decreases |columns| - i
  {
    var kvs := RowValues(to, columns);
    if i == |columns| {
      assert kvs[i..] == [];
      assert from == to;
    } else {
      var (c, v) := kvs[i];
      var next := if v.Some? then from[c := v.value] else from - {c};
      assert kvs[i..][0] == kvs[i] && kvs[i..][1..] == kvs[i + 1..];
      assert c in columns;
      OverwriteFrom(next, to, columns, folded, i + 1);
    }
  }

  /** Writing every column of a log row over a data row leaves the values of the log row. */
  lemma RestoreBySetRowFields(row: Row, id: Uri, l: LogRow, columns: seq<string>, folded: seq<string>)
    requires Typed(columns, row.body) && Typed(columns, l.body)
    ensures
      SetRowFields(row, id, l.tag, l.body.lastUpdateUser, l.deleted, l.body.scope, l.body.meta, l.device, l.office,
                   RowValues(l.body.values, columns), columns, folded)
      == Ok(Restore(row, id, l))
  {
    OverwriteFrom(row.body.values, l.body.values, columns, folded, 0);
    assert RowValues(l.body.values, columns)[0..] == RowValues(l.body.values, columns);
  }
}
