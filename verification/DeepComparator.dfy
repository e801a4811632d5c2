/** Comparing two values of a column; numbers that are nearly the same compare as equal. */
module DeepComparator {
  import opened Strings
  import opened Wrappers

  /** Encodings of positive magnitudes below infinity, in ascending order, as in section 3.4 of IEEE 754-2008. */
  const INFINITY: nat := 0x7ff0_0000_0000_0000

  type Magnitude = m: nat | m < INFINITY

  /** A binary64 value; `magnitude` counts representable steps from zero, and both zeros are values. */
  datatype Double = NaN | Infinite(negative: bool) | Finite(negative: bool, magnitude: Magnitude)

  datatype DataKeyValue = DataKeyValue(column: Option<string>, value: Option<string>)

  datatype Error = NullPointer | NumberFormat

  /** Representable steps from zero, upwards positive; both zeros are at 0. */
  function Steps(d: Double): int
    requires d.Finite?
  {
    if d.negative then 0 - d.magnitude else d.magnitude
  }

  function AtSteps(n: int): (d: Double)
    requires Abs(n) < INFINITY
    ensures d.Finite? && Steps(d) == n
  {
    if n < 0 then Finite(true, -n) else Finite(false, n)
  }

  /** The neighbour of `start` in the direction of `direction`: nextUp or nextDown of section 5.3.1. */
  function NextAfter(start: Double, direction: Double): (d: Double)
    requires start.Finite? && direction.Finite?
    ensures d.Finite?
  {
    if Steps(start) < Steps(direction) then AtSteps(Steps(start) + 1)
    else if Steps(start) > Steps(direction) then AtSteps(Steps(start) - 1)
    else direction
  }

  function Sign(n: int): int {
    if n < 0 then -1 else if n > 0 then 1 else 0
  }

  function Abs(n: int): nat {
    if n < 0 then -n else n
  }

  /** The total order of `Double.compareTo`: minus zero is below zero, and NaN above everything. */
  function TotalOrder(a: Double, b: Double): int {
    Sign(TotalRank(a) - TotalRank(b))
  }

  function TotalRank(d: Double): int {
    match d
    case NaN => 2 * INFINITY + 2
    case Infinite(negative) => if negative then 0 - 2 * INFINITY else 2 * INFINITY
    case Finite(negative, m) => if negative then 0 - 2 * m - 1 else 2 * m
  }

  const MAX_STEPS: nat := 2

  /** Goes at most two representable steps towards the other value. */
  method Near(localDbl: Double, serverDbl: Double) returns (near: bool)
    requires localDbl.Finite? && serverDbl.Finite? && Steps(localDbl) != Steps(serverDbl)
    ensures near <==> Abs(Steps(localDbl) - Steps(serverDbl)) <= MAX_STEPS
  {
    var localNear := localDbl;
    var idist := 0;
    while idist < MAX_STEPS
      invariant 0 <= idist <= MAX_STEPS && localNear.Finite?
      invariant Steps(localNear) != Steps(serverDbl)
      invariant Abs(Steps(localNear) - Steps(serverDbl)) == Abs(Steps(localDbl) - Steps(serverDbl)) - idist
    {
      localNear := NextAfter(localNear, serverDbl);
      if Steps(localNear) == Steps(serverDbl) {
        return true;
      }
      idist := idist + 1;
    }
    return false;
  }

  /** A number line on which different kinds of values are more than two steps apart. */
  function Rank(d: Double): int {
    match d
    case NaN => 0 - INFINITY - 6
    case Infinite(negative) => if negative then 0 - INFINITY - 3 else INFINITY + 3
    case Finite(_, _) => Steps(d)
  }

  /** Values at most two steps apart are equal, and all others are in their order on the line. */
  function Spaced(a: Double, b: Double): int {
    if Abs(Rank(a) - Rank(b)) <= MAX_STEPS then 0 else Sign(Rank(a) - Rank(b))
  }

  method CompareNumbers(localNumber: Double, serverNumber: Double) returns (cmp: int)
    ensures cmp == Spaced(localNumber, serverNumber)
  {
    if localNumber == serverNumber {
      return 0;
    } else if localNumber.Infinite? && serverNumber.Infinite? {
      if localNumber.negative == serverNumber.negative {
        return 0;
      }
      return if localNumber.negative then -1 else 1;
    } else if localNumber.NaN? {
      return -1;
    } else if serverNumber.NaN? {
      return 1;
    } else if localNumber.Infinite? {
      return if localNumber.negative then -1 else 1;
    } else if serverNumber.Infinite? {
      return if serverNumber.negative then 1 else -1;
    } else {
      if Steps(localNumber) == Steps(serverNumber) {
        return 0;
      }
      var near := Near(localNumber, serverNumber);
      if near {
        return 0;
      }
      return TotalOrder(localNumber, serverNumber);
    }
  }

  // ----- what the comparison of numbers satisfies -----

  lemma SpacedIsAntisymmetric(a: Double, b: Double)
    ensures Spaced(a, b) == -Spaced(b, a)
  {
    assert Rank(a) - Rank(b) == -(Rank(b) - Rank(a));
  }

  /** Two numbers compare as equal just when they are the same kind, and if finite at most two steps apart. */
  lemma SpacedIsZeroIff(a: Double, b: Double)
    ensures Spaced(a, b) == 0 <==>
      || (a.NaN? && b.NaN?)
      || (a.Infinite? && b.Infinite? && a.negative == b.negative)
      || (a.Finite? && b.Finite? && Abs(Steps(a) - Steps(b)) <= MAX_STEPS)
  {
    if a.Finite? { assert Abs(Steps(a)) < INFINITY; }
    if b.Finite? { assert Abs(Steps(b)) < INFINITY; }
  }

  /** NaN is below everything else, then come the negative infinity, the numbers and the other infinity. */
  predicate Below(a: Double, b: Double) {
    match a
    case NaN => !b.NaN?
    case Infinite(negative) => negative && (b.Finite? || b == Infinite(false))
    case Finite(_, _) => b == Infinite(false) || (b.Finite? && Steps(a) + MAX_STEPS < Steps(b))
  }

  lemma SpacedIsBelowIff(a: Double, b: Double)
    ensures Spaced(a, b) < 0 <==> Below(a, b)
    ensures Spaced(a, b) > 0 <==> Below(b, a)
  {
    if a.Finite? { assert Abs(Steps(a)) < INFINITY; }
    if b.Finite? { assert Abs(Steps(b)) < INFINITY; }
  }

  /** Of three numbers of which neighbours compare as equal, the outer two may differ. */
  lemma EqualityIsNotTransitive()
    ensures exists a, b, c :: Spaced(a, b) == 0 && Spaced(b, c) == 0 && Spaced(a, c) < 0
  {
    var a, b, c := Finite(false, 0), Finite(false, 2), Finite(false, 4);
    assert Spaced(a, b) == 0 && Spaced(b, c) == 0 && Spaced(a, c) < 0;
  }

  /** The largest finite number of representable steps from zero. */
  const LARGEST: nat := INFINITY - 1

  /** Everything that compares as equal to `b` compares as equal to `a` as well. */
  ghost predicate EqualityCarries(a: Double, b: Double) {
    forall c :: Spaced(b, c) == 0 ==> Spaced(a, c) == 0
  }

  /** Between `a` and the end of the line, on the side of `b`, there are at most two steps. */
  predicate NearEnd(a: Double, b: Double)
    requires a.Finite? && b.Finite?
  {
    || (Steps(b) < Steps(a) && LARGEST + Steps(a) <= MAX_STEPS)
    || (Steps(a) < Steps(b) && LARGEST - Steps(a) <= MAX_STEPS)
  }

  /**
    When equality is transitive.  Of two values that compare as equal, the first takes over
    all that equals the second just when they are no numbers, or the same number, or so close
    to the largest number on that side that nothing further away is left.
   */
  lemma EqualityCarriesIff(a: Double, b: Double)
    requires Spaced(a, b) == 0
    ensures EqualityCarries(a, b) <==> (a.Finite? && b.Finite? ==> Steps(a) == Steps(b) || NearEnd(a, b))
  {
    SpacedIsZeroIff(a, b);
    if a.Finite? && Steps(a) != Steps(b) && !NearEnd(a, b) {
      // the value two steps beyond `b`, on the side away from `a`, or the last one there
      var c := AtSteps(
        if Steps(b) < Steps(a) then Larger(Steps(b) - MAX_STEPS, 0 - LARGEST)
        else Smaller(Steps(b) + MAX_STEPS, LARGEST));
      assert Spaced(b, c) == 0 && Spaced(a, c) != 0;
    }
  }

  function Larger(m: int, n: int): int {
    if m < n then n else m
  }

  function Smaller(m: int, n: int): int {
    if m < n then m else n
  }

  /** Away from the two ends, only the same number takes over all that equals another. */
  lemma EqualityCarriesInside(a: Double, b: Double)
    requires a.Finite? && b.Finite? && Spaced(a, b) == 0 && Abs(Steps(b)) + MAX_STEPS < INFINITY
    ensures EqualityCarries(a, b) <==> Steps(a) == Steps(b)
  {
    EqualityCarriesIff(a, b);
  }

  /** The order is transitive once equality is left out. */
  lemma StrictIsTransitive(a: Double, b: Double, c: Double)
    requires Spaced(a, b) < 0 && Spaced(b, c) < 0
    ensures Spaced(a, c) < 0
  {
  }

  // ----- whole values -----

  /** The columns that hold numbers, and what a string means as a number. */
  datatype Setting = Setting(numeric: set<string>, parse: string -> Option<Double>)

  /** What the comparison answers; it fails on a missing column name on the right, and on a malformed number. */
  function Compared(g: Setting, o1: Option<DataKeyValue>, o2: Option<DataKeyValue>): Result<int, Error> {
    if o1.None? then Ok(if o2.None? then 0 else -1)
    else if o2.None? then Ok(1)
    else
      var a, b := o1.value, o2.value;
      if a.column.None? then Ok(if b.column.None? then 0 else -1)
      else if b.column.None? then Err(NullPointer)
      else if a.column != b.column then Ok(CompareTo(a.column.value, b.column.value))
      else if a.value.None? then Ok(if b.value.None? then 0 else -1)
      else if b.value.None? then Ok(1)
      else if a.value == b.value then Ok(0)
      else if a.column.value in g.numeric then
        var x, y := g.parse(a.value.value), g.parse(b.value.value);
        if x.None? || y.None? then Err(NumberFormat) else Ok(Spaced(x.value, y.value))
      else Ok(CompareTo(a.value.value, b.value.value))
  }

  /**
    Two different strings in a number column.  Both have to be numbers; they compare as equal just
    when these are of the same kind and, if finite, at most two steps apart.
   */
  lemma NumbersCompare(g: Setting, column: string, v: string, w: string)
    requires column in g.numeric && v != w
    ensures
      var a, b := DataKeyValue(Some(column), Some(v)), DataKeyValue(Some(column), Some(w));
      var x, y, r := g.parse(v), g.parse(w), Compared(g, Some(a), Some(b));
      && (x.None? || y.None? ==> r == Err(NumberFormat))
      && (x.Some? && y.Some? ==>
            && r.Ok?
            && (r.value < 0 <==> Below(x.value, y.value)) && (r.value > 0 <==> Below(y.value, x.value))
            && (r.value == 0 <==>
                  || (x.value.NaN? && y.value.NaN?)
                  || (x.value.Infinite? && x.value == y.value)
                  || (x.value.Finite? && y.value.Finite? && Abs(Steps(x.value) - Steps(y.value)) <= MAX_STEPS)))
  {
    var x, y := g.parse(v), g.parse(w);
    if x.Some? && y.Some? {
      SpacedIsZeroIff(x.value, y.value);
      SpacedIsBelowIff(x.value, y.value);
    }
  }

  /** The same string is equal to itself, number or not; in any other column strings are in their order. */
  lemma StringsCompare(g: Setting, column: string, v: string, w: string)
    ensures
      var a, b := DataKeyValue(Some(column), Some(v)), DataKeyValue(Some(column), Some(w));
      var r := Compared(g, Some(a), Some(b));
      && (v == w ==> r == Ok(0))
      && (column !in g.numeric ==> r.Ok? && (r.value == 0 <==> v == w) && (r.value < 0 <==> CompareTo(v, w) < 0))
  {
    CompareIsAntisymmetric(v, w);
  }

  /** What is missing comes first: a pair, a column name, and within one column a value; then the names decide. */
  lemma MissingIsLeast(g: Setting, a: DataKeyValue, b: DataKeyValue)
    ensures Compared(g, None, None) == Ok(0)
    ensures Compared(g, None, Some(b)) == Ok(-1) && Compared(g, Some(a), None) == Ok(1)
    ensures a.column.None? ==> Compared(g, Some(a), Some(b)) == Ok(if b.column.None? then 0 else -1)
    ensures a.column.Some? && b.column.Some? && a.column != b.column ==>
      var r := Compared(g, Some(a), Some(b));
      r.Ok? && r.value != 0 && (r.value < 0 <==> CompareTo(a.column.value, b.column.value) < 0)
    ensures a.column.Some? && a.column == b.column ==>
      && (a.value.None? && b.value.None? ==> Compared(g, Some(a), Some(b)) == Ok(0))
      && (a.value.None? && b.value.Some? ==> Compared(g, Some(a), Some(b)) == Ok(-1))
      && (a.value.Some? && b.value.None? ==> Compared(g, Some(a), Some(b)) == Ok(1))
  {
    if a.column.Some? && b.column.Some? { CompareIsAntisymmetric(a.column.value, b.column.value); }
  }

  /** One side lacks a column name, and the other has one. */
  predicate OneUnnamed(o1: Option<DataKeyValue>, o2: Option<DataKeyValue>) {
    o1.Some? && o2.Some? && o1.value.column.None? != o2.value.column.None?
  }

  /** Swapping the operands swaps the sign just when it is not that only one of them lacks a column name. */
  lemma ComparisonFlipsIff(g: Setting, o1: Option<DataKeyValue>, o2: Option<DataKeyValue>)
    ensures
      var r1, r2 := Compared(g, o1, o2), Compared(g, o2, o1);
      (r1.Ok? && r2.Ok? && Sign(r1.value) == -Sign(r2.value)) || (r1.Err? && r2.Err? && r1.error == r2.error)
      <==> !OneUnnamed(o1, o2)
  {
    if o1.Some? && o2.Some? {
      var a, b := o1.value, o2.value;
      if a.column.Some? && b.column.Some? {
        CompareIsAntisymmetric(a.column.value, b.column.value);
        if a.value.Some? && b.value.Some? {
          CompareIsAntisymmetric(a.value.value, b.value.value);
          var x, y := g.parse(a.value.value), g.parse(b.value.value);
          if x.Some? && y.Some? { SpacedIsAntisymmetric(x.value, y.value); }
        }
      }
    }
  }

  /** A value without a column name is below a named one, but the comparison the other way round fails. */
  lemma OneUnnamedFails(g: Setting)
    ensures
      var a, b := Some(DataKeyValue(None, None)), Some(DataKeyValue(Some("c"), None));
      Compared(g, a, b) == Ok(-1) && Compared(g, b, a) == Err(NullPointer)
  {
  }

  datatype ElementType = Number | OtherType

  /** Compares values of the columns it was made for. */
  class DataKeyValueDeepComparator {
    const parse: string -> Option<Double>
    var columnMap: map<string, ElementType>

    constructor (columns: seq<(string, ElementType)>, parse: string -> Option<Double>)
      ensures this.parse == parse
      ensures forall k :: k in columnMap <==> exists i :: 0 <= i < |columns| && columns[i].0 == k
      ensures forall i :: 0 <= i < |columns| && (forall j :: i < j < |columns| ==> columns[j].0 != columns[i].0) ==>
        columns[i].0 in columnMap && columnMap[columns[i].0] == columns[i].1
    {
      this.parse, columnMap := parse, map[];
      new;
      for i := 0 to |columns|
        invariant forall k :: k in columnMap <==> exists m :: 0 <= m < i && columns[m].0 == k
        invariant forall m :: 0 <= m < i && (forall j :: m < j < i ==> columns[j].0 != columns[m].0) ==>
          columns[m].0 in columnMap && columnMap[columns[m].0] == columns[m].1
      {
        columnMap := columnMap[columns[i].0 := columns[i].1];
      }
    }

    function Setup(): Setting
      reads this
    {
      Setting((set k | k in columnMap && columnMap[k] == Number), parse)
    }

    method Compare(o1: Option<DataKeyValue>, o2: Option<DataKeyValue>) returns (r: Result<int, Error>)
      ensures r == Compared(Setup(), o1, o2)
    {
      if o1.None? { return Ok(if o2.None? then 0 else -1); }
      if o2.None? { return Ok(1); }
      var a, b := o1.value, o2.value;
      if a.column.None? { return Ok(if b.column.None? then 0 else -1); }
      if b.column.None? { return Err(NullPointer); }
      var cmp := CompareTo(a.column.value, b.column.value);
      CompareIsAntisymmetric(a.column.value, b.column.value);
      if cmp != 0 { return Ok(cmp); }
      if a.value.None? { return Ok(if b.value.None? then 0 else -1); }
      if b.value.None? { return Ok(1); }
      cmp := CompareTo(a.value.value, b.value.value);
      CompareIsAntisymmetric(a.value.value, b.value.value);
      if cmp == 0 { return Ok(0); }
      if a.column.value in columnMap && columnMap[a.column.value] == Number {
        var local, server := parse(a.value.value), parse(b.value.value);
        if local.None? || server.None? { return Err(NumberFormat); }
        cmp := CompareNumbers(local.value, server.value);
      }
      return Ok(cmp);
    }
  }
}
