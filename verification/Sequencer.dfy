/** Sequence values as strings: compared as strings, they are in the order in which they were issued. */
module Sequencer {
  import opened Strings

  const DECIMAL_PLACES: nat := 10
  const MAX_INT: int := 0x7fff_ffff

  // ----- strings -----

  function Digit(d: nat): char
    requires d < 10
  {
    '0' + d as char
  }

  /** Decimal digits, without leading zeros. */
  function ToString(n: nat): string {
    if n < 10 then [Digit(n)] else ToString(n / 10) + [Digit(n % 10)]
  }

  function Zeros(n: nat): string {
    if n == 0 then "" else "0" + Zeros(n - 1)
  }

  function LeftPad(s: string, width: nat): string {
    if |s| >= width then s else Zeros(width - |s|) + s
  }

  /** A Java `int` as a string. */
  function IntToString(n: int): string {
    if n < 0 then "-" + ToString(-n) else ToString(n)
  }

  function Value(base: string, counter: int): string {
    base + "." + LeftPad(IntToString(counter), DECIMAL_PLACES)
  }

  // ----- padded numbers compare like numbers -----

  function Pow10(n: nat): nat {
    if n == 0 then 1 else 10 * Pow10(n - 1)
  }

  /** The last `width` digits. */
  function Fixed(n: nat, width: nat): (s: string)
    ensures |s| == width
  {
    if width == 0 then "" else Fixed(n / 10, width - 1) + [Digit(n % 10)]
  }

  lemma {:induction false} FixedZero(width: nat)
    ensures Fixed(0, width) == Zeros(width)
  {
    if width > 0 {
      FixedZero(width - 1);
      ZerosEnd(width - 1);
    }
  }

  lemma {:induction false} ZerosEnd(n: nat)
    ensures Zeros(n) + "0" == "0" + Zeros(n)
  {
    if n > 0 {
      ZerosEnd(n - 1);
      assert "0" + Zeros(n - 1) + "0" == "0" + (Zeros(n - 1) + "0");
    }
  }

  lemma {:induction false} PaddedIsFixed(n: nat, width: nat)
    requires n < Pow10(width) && width > 0
    ensures |ToString(n)| <= width && LeftPad(ToString(n), width) == Fixed(n, width)
    decreases n
  {
    if n < 10 {
      FixedZero(width - 1);
    } else {
      assert Pow10(0) == 1 && width > 1;
      PaddedIsFixed(n / 10, width - 1);
      var s := ToString(n / 10);
      assert LeftPad(ToString(n), width) == LeftPad(s, width - 1) + [Digit(n % 10)];
    }
  }

  lemma {:induction false} CompareAppend(a: string, b: string, x: string, y: string)
    requires |a| == |b| && CompareTo(a, b) < 0
    ensures CompareTo(a + x, b + y) < 0
  {
    assert a != "";
    assert (a + x)[1..] == a[1..] + x && (b + y)[1..] == b[1..] + y;
    if a[0] == b[0] { CompareAppend(a[1..], b[1..], x, y); }
  }

  lemma {:induction false} CompareSame(p: string, a: string, b: string)
    ensures CompareTo(p + a, p + b) == CompareTo(a, b)
  {
    if p == "" {
      assert p + a == a && p + b == b;
    } else {
      assert (p + a)[1..] == p[1..] + a && (p + b)[1..] == p[1..] + b;
      CompareSame(p[1..], a, b);
    }
  }

  lemma {:induction false} FixedOrder(n: nat, m: nat, width: nat)
    requires n < m < Pow10(width)
    ensures CompareTo(Fixed(n, width), Fixed(m, width)) < 0
  {
    if n / 10 < m / 10 {
      FixedOrder(n / 10, m / 10, width - 1);
      CompareAppend(Fixed(n / 10, width - 1), Fixed(m / 10, width - 1), [Digit(n % 10)], [Digit(m % 10)]);
    } else {
      CompareSame(Fixed(n / 10, width - 1), [Digit(n % 10)], [Digit(m % 10)]);
    }
  }

  lemma TenPlaces()
    ensures Pow10(9) == 1_000_000_000 && Pow10(DECIMAL_PLACES) == 10_000_000_000
  {
    assert Pow10(3) == 1000;
    assert Pow10(5) == 10 * (10 * Pow10(3));
    assert Pow10(7) == 10 * (10 * Pow10(5));
    assert Pow10(9) == 10 * (10 * Pow10(7));
  }

  /** Within one holding of the lock: ten places are enough for every positive Java `int`. */
  lemma CountersIncrease(base: string, i: int, j: int)
    requires 0 <= i < j <= MAX_INT
    ensures CompareTo(Value(base, i), Value(base, j)) < 0
  {
    TenPlaces();
    PaddedIsFixed(i, DECIMAL_PLACES);
    PaddedIsFixed(j, DECIMAL_PLACES);
    FixedOrder(i, j, DECIMAL_PLACES);
    CompareSame(base + ".", Fixed(i, DECIMAL_PLACES), Fixed(j, DECIMAL_PLACES));
  }

  /** Across holdings of the lock: the bases decide, whatever the counters are. */
  lemma BasesIncrease(base: string, later: string, i: int, j: int)
    requires |base| == |later| && CompareTo(base, later) < 0
    ensures CompareTo(Value(base, i), Value(later, j)) < 0
  {
    var x, y := LeftPad(IntToString(i), DECIMAL_PLACES), LeftPad(IntToString(j), DECIMAL_PLACES);
    assert Value(base, i) == base + ("." + x) && Value(later, j) == later + ("." + y);
    CompareAppend(base, later, "." + x, "." + y);
  }

  // ----- issuing values -----

  /** A Java `int` plus one. */
  function Next(counter: int): int {
    if counter == MAX_INT then -MAX_INT - 1 else counter + 1
  }

  lemma {:induction false} Long(n: nat, k: nat)
    requires n >= Pow10(k)
    ensures |ToString(n)| > k
    decreases k
  {
    if k > 0 { Long(n / 10, k - 1); }
  }

  lemma {:induction false} DigitFirst(n: nat, width: nat)
    requires width > 0
    ensures Fixed(n, width)[0] >= '0'
  {
    if width > 1 { DigitFirst(n / 10, width - 1); }
  }

  /** The next value is greater just when the counter does not overflow. */
  lemma NextIncreasesIff(base: string, counter: int)
    requires 0 <= counter <= MAX_INT
    ensures CompareTo(Value(base, counter), Value(base, Next(counter))) < 0 <==> counter < MAX_INT
  {
    if counter < MAX_INT {
      CountersIncrease(base, counter, counter + 1);
    } else {
      TenPlaces();
      PaddedIsFixed(counter, DECIMAL_PLACES);
      DigitFirst(counter, DECIMAL_PLACES);
      Long(MAX_INT + 1, 9);
      var x, y := Fixed(counter, DECIMAL_PLACES), "-" + ToString(MAX_INT + 1);
      assert LeftPad(IntToString(Next(counter)), DECIMAL_PLACES) == y;
      CompareSame(base + ".", x, y);
      assert y[0] == '-' && x[0] != y[0];
    }
  }

  /** A value is issued by one holding of the lock, known by its base. */
  datatype Issue = Issue(base: string, counter: int)

  /** Issue `a` comes before issue `b`: in the same holding of the lock, or in an earlier one. */
  predicate Before(a: Issue, b: Issue) {
    || (a.base == b.base && a.counter < b.counter)
    || (|a.base| == |b.base| && CompareTo(a.base, b.base) < 0)
  }

  /** Values compare as strings in the order of issue. */
  lemma ValuesFollowIssue(a: Issue, b: Issue)
    requires 0 < a.counter <= MAX_INT && 0 < b.counter <= MAX_INT && Before(a, b)
    ensures CompareTo(Value(a.base, a.counter), Value(b.base, b.counter)) < 0
  {
    if a.base == b.base && a.counter < b.counter {
      CountersIncrease(a.base, a.counter, b.counter);
    } else {
      BasesIncrease(a.base, b.base, a.counter, b.counter);
    }
  }

  /** Issues values while the lock is held. */
  class Sequencer {
    const sequenceBase: string
    var counter: int

    constructor (sequenceBase: string)
      ensures this.sequenceBase == sequenceBase && counter == 0
    {
      this.sequenceBase, counter := sequenceBase, 0;
    }

    method GetNextSequenceValue() returns (value: string)
      modifies this
      ensures counter == Next(old(counter)) && value == Value(sequenceBase, counter)
      ensures 0 <= old(counter) < MAX_INT ==> CompareTo(Value(sequenceBase, old(counter)), value) < 0
    {
      if 0 <= counter <= MAX_INT { NextIncreasesIff(sequenceBase, counter); }
      counter := Next(counter);
      value := sequenceBase + "." + LeftPad(IntToString(counter), DECIMAL_PLACES);
    }
  }
}
