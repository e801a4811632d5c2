/**
  The base of the sequence values: the time as a string, or one millisecond after the saved base
  when the clock is not ahead of it.  Each holding of a lock gets its own base.
 */
module SequencerBase {
  import opened Wrappers
  import opened Strings
  import opened Sequencer

  // ----- the calendar -----

  const DAY: nat := 86_400_000

  predicate Leap(year: nat) {
    year % 4 == 0 && (year % 100 != 0 || year % 400 == 0)
  }

  function DaysInYear(year: nat): nat {
    if Leap(year) then 366 else 365
  }

  function DaysInMonth(year: nat, month: nat): nat {
    if month == 2 then (if Leap(year) then 29 else 28)
    else if month in {4, 6, 9, 11} then 30 else 31
  }

  /** The year, and the day in the year, of the day `rest` after the first day of `year`. */
  function YearFrom(rest: nat, year: nat): (nat, nat) {
    if rest < DaysInYear(year) then (year, rest) else YearFrom(rest - DaysInYear(year), year + 1)
  }

  /** The month and the day in the month, both from 1 on; the last month takes what is left. */
  function MonthFrom(rest: nat, year: nat, month: nat): (nat, nat)
    requires month <= 12
    decreases 12 - month
  {
    if rest < DaysInMonth(year, month) || month == 12 then (month, rest + 1)
    else MonthFrom(rest - DaysInMonth(year, month), year, month + 1)
  }

  /** Days left in the year from the first day of `month` on. */
  function DaysFrom(year: nat, month: nat): nat
    requires month <= 12
    decreases 12 - month
  {
    DaysInMonth(year, month) + if month == 12 then 0 else DaysFrom(year, month + 1)
  }

  datatype Date = Date(year: nat, month: nat, day: nat)

  /** The date of the day that is `days` after the first day of 1970. */
  function DateOf(days: nat): Date {
    var (year, day) := YearFrom(days, 1970);
    var (month, dayOfMonth) := MonthFrom(day, year, 1);
    Date(year, month, dayOfMonth)
  }

  predicate Earlier(x: Date, y: Date) {
    x.year < y.year || (x.year == y.year && (x.month < y.month || (x.month == y.month && x.day < y.day)))
  }

  function Dated(x: Date, p: seq<nat>): seq<nat> {
    [x.year] + ([x.month] + ([x.day] + p))
  }

  /** Year, month, day, hour, minute, second and millisecond; `t` counts milliseconds from 1970 on. */
  function Fields(t: nat): seq<nat> {
    Dated(DateOf(t / DAY), TimeOfDay(t % DAY))
  }

  function TimeOfDay(ms: nat): seq<nat> {
    [ms / 3_600_000, ms / 60_000 % 60, ms / 1000 % 60, ms % 1000]
  }

  function Year(t: nat): nat {
    YearFrom(t / DAY, 1970).0
  }

  lemma MonthStep(a: nat, year: nat, month: nat)
    requires month <= 12
    ensures MonthFrom(a, year, month) ==
      if a < DaysInMonth(year, month) || month == 12 then (month, a + 1)
      else MonthFrom(a - DaysInMonth(year, month), year, month + 1)
    ensures DaysFrom(year, month) == DaysInMonth(year, month) + if month == 12 then 0 else DaysFrom(year, month + 1)
  {
  }

  lemma MonthsFillYear(year: nat)
    ensures DaysFrom(year, 1) == DaysInYear(year)
  {
    assert DaysFrom(year, 10) == 92;
    assert DaysFrom(year, 7) == 31 + 31 + 30 + DaysFrom(year, 10);
    assert DaysFrom(year, 4) == 30 + 31 + 30 + DaysFrom(year, 7);
    assert DaysFrom(year, 1) == 31 + DaysInMonth(year, 2) + 31 + DaysFrom(year, 4);
  }

  /** Days from the first day of `from` to the first day of `year`. */
  function DaysToYear(from: nat, year: nat): nat
    requires from <= year
  {
    if from == year then 0 else DaysToYear(from, year - 1) + DaysInYear(year - 1)
  }

  /** Days of the year before the first day of `month`. */
  function DaysToMonth(year: nat, month: nat): nat {
    if month <= 1 then 0 else DaysToMonth(year, month - 1) + DaysInMonth(year, month - 1)
  }

  lemma {:induction false} YearIsDay(rest: nat, year: nat)
    ensures
      var (y, d) := YearFrom(rest, year);
      year <= y && d < DaysInYear(y) && DaysToYear(year, y) + d == rest
  {
    if rest >= DaysInYear(year) {
      YearIsDay(rest - DaysInYear(year), year + 1);
      FirstYear(year, YearFrom(rest, year).0);
    }
  }

  lemma {:induction false} FirstYear(from: nat, year: nat)
    requires from < year
    ensures DaysToYear(from, year) == DaysInYear(from) + DaysToYear(from + 1, year)
    decreases year
  {
    if from + 1 < year { FirstYear(from, year - 1); }
  }

  lemma {:induction false} MonthIsDay(rest: nat, year: nat, month: nat)
    requires 1 <= month <= 12 && rest < DaysFrom(year, month)
    ensures
      var (m, d) := MonthFrom(rest, year, month);
      && month <= m <= 12 && 1 <= d <= DaysInMonth(year, m)
      && DaysToMonth(year, m) + d == DaysToMonth(year, month) + rest + 1
    decreases 12 - month
  {
    MonthStep(rest, year, month);
    if rest >= DaysInMonth(year, month) && month < 12 {
      MonthIsDay(rest - DaysInMonth(year, month), year, month + 1);
    }
  }

  /** The date is that of the day: as many days come before it since the first day of 1970. */
  lemma DateIsDay(days: nat)
    ensures
      var x := DateOf(days);
      && 1970 <= x.year && 1 <= x.month <= 12 && 1 <= x.day <= DaysInMonth(x.year, x.month)
      && DaysToYear(1970, x.year) + DaysToMonth(x.year, x.month) + x.day - 1 == days
  {
    hide YearFrom, MonthFrom, DaysToYear, DaysFrom;
    var (year, day) := YearFrom(days, 1970);
    YearIsDay(days, 1970);
    MonthsFillYear(year);
    MonthIsDay(day, year, 1);
  }

  // ----- the time as a string -----

  /** The fields in their widths, each followed by its separator. */
  function Render(fields: seq<nat>, widths: seq<nat>, ends: seq<string>): string
    requires |fields| == |widths| == |ends|
  {
    if fields == [] then ""
    else Fixed(fields[0], widths[0]) + ends[0] + Render(fields[1..], widths[1..], ends[1..])
  }

  const WIDTHS: seq<nat> := [4, 2, 2, 2, 2, 2, 3]
  const ENDS: seq<string> := ["-", "-", "T", ":", ":", ".", "+0000"]

  /** The time in universal time, as ISO 8601 writes it, up to the year 9999. */
  function Iso8601Date(t: nat): string {
    Render(Fields(t), WIDTHS, ENDS)
  }

  // ----- times compare like their fields -----

  predicate LexLess(a: seq<nat>, b: seq<nat>)
    requires |a| == |b|
  {
    a != [] && (a[0] < b[0] || (a[0] == b[0] && LexLess(a[1..], b[1..])))
  }

  predicate FitIn(fields: seq<nat>, widths: seq<nat>)
    requires |fields| == |widths|
  {
    forall i :: 0 <= i < |fields| ==> fields[i] < Pow10(widths[i])
  }

  lemma {:induction false} RenderOrder(a: seq<nat>, b: seq<nat>, widths: seq<nat>, ends: seq<string>)
    requires |a| == |b| == |widths| == |ends| && FitIn(b, widths) && LexLess(a, b)
    ensures CompareTo(Render(a, widths, ends), Render(b, widths, ends)) < 0
  {
    var x, y := Fixed(a[0], widths[0]), Fixed(b[0], widths[0]);
    var p, q := Render(a[1..], widths[1..], ends[1..]), Render(b[1..], widths[1..], ends[1..]);
    assert x + ends[0] + p == x + (ends[0] + p) && y + ends[0] + q == y + (ends[0] + q);
    if a[0] < b[0] {
      FixedOrder(a[0], b[0], widths[0]);
      CompareAppend(x, y, ends[0] + p, ends[0] + q);
    } else {
      assert forall i :: 0 <= i < |b| - 1 ==> b[1..][i] == b[i + 1] && widths[1..][i] == widths[i + 1];
      RenderOrder(a[1..], b[1..], widths[1..], ends[1..]);
      CompareSame(x + ends[0], p, q);
    }
  }

  lemma {:induction false} RenderLength(a: seq<nat>, b: seq<nat>, widths: seq<nat>, ends: seq<string>)
    requires |a| == |b| == |widths| == |ends|
    ensures |Render(a, widths, ends)| == |Render(b, widths, ends)|
  {
    if a != [] { RenderLength(a[1..], b[1..], widths[1..], ends[1..]); }
  }

  lemma {:induction false} YearOrder(a: nat, b: nat, year: nat)
    requires a < b
    ensures
      var (x, i), (y, j) := YearFrom(a, year), YearFrom(b, year);
      && (x < y || (x == y && i < j)) && year <= x && j < DaysInYear(y) && i < DaysInYear(x)
    decreases a
  {
    if a >= DaysInYear(year) {
      YearOrder(a - DaysInYear(year), b - DaysInYear(year), year + 1);
    } else if b >= DaysInYear(year) {
      YearIsDay(b - DaysInYear(year), year + 1);
    }
  }

  lemma {:induction false} MonthOrder(a: nat, b: nat, year: nat, month: nat)
    requires 1 <= month <= 12 && a < b < DaysFrom(year, month)
    ensures
      var (x, i), (y, j) := MonthFrom(a, year, month), MonthFrom(b, year, month);
      x < y || (x == y && i < j)
    decreases 12 - month
  {
    hide MonthFrom, DaysFrom, DaysInMonth;
    MonthStep(a, year, month);
    MonthStep(b, year, month);
    if a >= DaysInMonth(year, month) && month < 12 {
      MonthOrder(a - DaysInMonth(year, month), b - DaysInMonth(year, month), year, month + 1);
    } else if b >= DaysInMonth(year, month) && month < 12 {
      MonthIsDay(b - DaysInMonth(year, month), year, month + 1);
    }
  }

  lemma LexFirst(x: nat, y: nat, p: seq<nat>, q: seq<nat>)
    requires |p| == |q|
    ensures LexLess([x] + p, [y] + q) <==> x < y || (x == y && LexLess(p, q))
  {
    assert ([x] + p)[1..] == p && ([y] + q)[1..] == q;
  }

  lemma TimeParts(a: nat)
    ensures a / 60_000 == 60 * (a / 3_600_000) + a / 60_000 % 60
    ensures a / 1000 == 60 * (a / 60_000) + a / 1000 % 60
    ensures a == 1000 * (a / 1000) + a % 1000
  {
    assert a / 60_000 / 60 == a / 3_600_000;
    assert a / 1000 / 60 == a / 60_000;
  }

  lemma TimeOrder(a: nat, b: nat)
    requires a < b
    ensures LexLess(TimeOfDay(a), TimeOfDay(b))
  {
    var x, y := TimeOfDay(a), TimeOfDay(b);
    TimeParts(a);
    TimeParts(b);
    LexFour(x, y);
    assert a / 3_600_000 <= b / 3_600_000 && a / 60_000 <= b / 60_000 && a / 1000 <= b / 1000;
  }

  lemma LexFour(x: seq<nat>, y: seq<nat>)
    requires |x| == |y| == 4
    ensures LexLess(x, y) <==>
      x[0] < y[0] || (x[0] == y[0] && (x[1] < y[1] || (x[1] == y[1]
        && (x[2] < y[2] || (x[2] == y[2] && x[3] < y[3])))))
  {
    assert x == [x[0]] + ([x[1]] + ([x[2]] + ([x[3]] + []))) && y == [y[0]] + ([y[1]] + ([y[2]] + ([y[3]] + [])));
    assert !LexLess([], []);
    hide LexLess;
    LexFirst(x[3], y[3], [], []);
    LexFirst(x[2], y[2], [x[3]] + [], [y[3]] + []);
    LexFirst(x[1], y[1], [x[2]] + ([x[3]] + []), [y[2]] + ([y[3]] + []));
    LexFirst(x[0], y[0], [x[1]] + ([x[2]] + ([x[3]] + [])), [y[1]] + ([y[2]] + ([y[3]] + [])));
  }

  lemma DateBounds(days: nat)
    ensures 1 <= DateOf(days).month <= 12 && 1 <= DateOf(days).day <= 31
  {
    DateIsDay(days);
  }

  lemma FieldsFit(t: nat)
    requires Year(t) <= 9999
    ensures |Fields(t)| == |WIDTHS| && FitIn(Fields(t), WIDTHS)
  {
    assert Pow10(2) == 100 && Pow10(3) == 1000 && Pow10(4) == 10 * Pow10(3);
    DateBounds(t / DAY);
    TimeFits(t % DAY);
    hide DateOf, TimeOfDay, Pow10;
    var x, p := DateOf(t / DAY), TimeOfDay(t % DAY);
    assert Fields(t) == [x.year, x.month, x.day, p[0], p[1], p[2], p[3]];
  }

  lemma TimeFits(ms: nat)
    requires ms < DAY
    ensures TimeOfDay(ms)[0] < 24 && TimeOfDay(ms)[1] < 60 && TimeOfDay(ms)[2] < 60 && TimeOfDay(ms)[3] < 1000
  {
  }

  lemma DaysOrder(a: nat, b: nat)
    requires a < b
    ensures Earlier(DateOf(a), DateOf(b))
  {
    YearOrder(a, b, 1970);
    var (x, i) := YearFrom(a, 1970);
    var (y, j) := YearFrom(b, 1970);
    if x == y {
      MonthsFillYear(x);
      MonthOrder(i, j, x, 1);
    }
  }

  /** Dates decide before times do. */
  lemma LexDated(x: Date, y: Date, p: seq<nat>, q: seq<nat>)
    requires |p| == |q| && (Earlier(x, y) || (x == y && LexLess(p, q)))
    ensures LexLess(Dated(x, p), Dated(y, q))
  {
    hide LexLess;
    LexFirst(x.day, y.day, p, q);
    LexFirst(x.month, y.month, [x.day] + p, [y.day] + q);
    LexFirst(x.year, y.year, [x.month] + ([x.day] + p), [y.month] + ([y.day] + q));
  }

  lemma DayOrTime(t: nat, u: nat)
    requires t < u
    ensures
      var x, y := DateOf(t / DAY), DateOf(u / DAY);
      Earlier(x, y) || (x == y && LexLess(TimeOfDay(t % DAY), TimeOfDay(u % DAY)))
  {
    hide LexLess, DateOf, TimeOfDay, Earlier;
    if t / DAY < u / DAY { DaysOrder(t / DAY, u / DAY); } else { TimeOrder(t % DAY, u % DAY); }
  }

  /** Up to the year 9999 the strings have one width and compare like the times. */
  lemma TimesIncrease(t: nat, u: nat)
    requires t < u && Year(u) <= 9999
    ensures CompareTo(Iso8601Date(t), Iso8601Date(u)) < 0
    ensures |Iso8601Date(t)| == |Iso8601Date(u)|
  {
    FieldsFit(u);
    hide LexLess, FitIn, Render, Pow10, DateOf, TimeOfDay, Earlier, CompareTo;
    RenderLength(Fields(t), Fields(u), WIDTHS, ENDS);
    DayOrTime(t, u);
    LexDated(DateOf(t / DAY), DateOf(u / DAY), TimeOfDay(t % DAY), TimeOfDay(u % DAY));
    RenderOrder(Fields(t), Fields(u), WIDTHS, ENDS);
  }

  lemma TimesCompare(t: nat, u: nat)
    requires Year(t) <= 9999 && Year(u) <= 9999
    ensures CompareTo(Iso8601Date(t), Iso8601Date(u)) < 0 <==> t < u
  {
    hide Iso8601Date, Year, CompareTo;
    CompareIsAntisymmetric(Iso8601Date(t), Iso8601Date(u));
    if t < u { TimesIncrease(t, u); } else if u < t { TimesIncrease(u, t); }
  }

  // ----- the next base -----

  datatype Error = Unparsable | NotGreater

  /** The base of the next holding of the lock; `parse` reads a date. */
  function NextBase(saved: Option<string>, now: nat, parse: string -> Option<nat>): Result<string, Error> {
    var time := Iso8601Date(now);
    if saved.None? || CompareTo(saved.value, time) < 0 then Ok(time)
    else
      match parse(saved.value)
      case None => Err(Unparsable)
      case Some(t) =>
        var next := Iso8601Date(t + 1);
        if CompareTo(saved.value, next) < 0 then Ok(next) else Err(NotGreater)
  }

  /** Whatever the clock and the parser do, a base that is given out is greater than the saved one. */
  lemma NextIsGreater(saved: string, now: nat, parse: string -> Option<nat>)
    ensures
      var r := NextBase(Some(saved), now, parse);
      r.Ok? ==> CompareTo(saved, r.value) < 0
  {
  }

  /** The parser reads back what the formatter writes. */
  ghost predicate ReadsBack(parse: string -> Option<nat>) {
    forall t: nat {:trigger Iso8601Date(t)} :: Year(t) <= 9999 ==> parse(Iso8601Date(t)) == Some(t)
  }

  /**
    A logical clock: the time of the base is the time of the clock, or one millisecond after the
    last base if the clock is not past it, and the look-up never fails.
   */
  lemma NextBaseIs(last: nat, now: nat, parse: string -> Option<nat>)
    requires ReadsBack(parse) && Year(After(last, now)) <= 9999
    ensures NextBase(Some(Iso8601Date(last)), now, parse) == Ok(Iso8601Date(After(last, now)))
  {
    YearGrows(last, After(last, now));
    YearGrows(now, After(last, now));
    hide Iso8601Date, Year, CompareTo;
    assert parse(Iso8601Date(last)) == Some(last);
    hide ReadsBack;
    TimesCompare(last, now);
    TimesCompare(last, After(last, now));
  }

  lemma YearGrows(t: nat, u: nat)
    requires t <= u
    ensures Year(t) <= Year(u)
  {
    if t / DAY < u / DAY { YearOrder(t / DAY, u / DAY, 1970); }
  }

  /** The time of a base that is taken when the clock shows `now`, after one with the time `last`. */
  function After(last: nat, now: nat): nat {
    if last < now then now else last + 1
  }

  /** The times of the bases when the clock shows `nows` at the holdings of the lock. */
  function Times(last: nat, nows: seq<nat>): (times: seq<nat>)
    ensures |times| == |nows|
    decreases |nows|
  {
    if nows == [] then [] else [After(last, nows[0])] + Times(After(last, nows[0]), nows[1..])
  }

  /** The bases that the holdings get, up to the first that fails. */
  function Bases(saved: Option<string>, nows: seq<nat>, parse: string -> Option<nat>): seq<string>
    decreases |nows|
  {
    if nows == [] || NextBase(saved, nows[0], parse).Err? then []
    else
      var base := NextBase(saved, nows[0], parse).value;
      [base] + Bases(Some(base), nows[1..], parse)
  }

  lemma {:induction false} CompareIsTransitive(a: string, b: string, c: string)
    requires CompareTo(a, b) < 0 && CompareTo(b, c) < 0
    ensures CompareTo(a, c) < 0
  {
    if a != "" && a[0] == b[0] == c[0] { CompareIsTransitive(a[1..], b[1..], c[1..]); }
  }

  /** The bases increase over all holdings, even if the clock is set back in between. */
  lemma {:induction false} BasesAlwaysIncrease(
      saved: Option<string>, nows: seq<nat>, parse: string -> Option<nat>, i: nat, j: nat)
    requires i < j < |Bases(saved, nows, parse)|
    ensures CompareTo(Bases(saved, nows, parse)[i], Bases(saved, nows, parse)[j]) < 0
    decreases j
  {
    hide CompareTo, NextBase;
    var base := NextBase(saved, nows[0], parse).value;
    var rest := Bases(Some(base), nows[1..], parse);
    if i > 0 {
      BasesAlwaysIncrease(Some(base), nows[1..], parse, i - 1, j - 1);
    } else {
      NextIsGreater(base, nows[1..][0], parse);
      if j > 1 {
        BasesAlwaysIncrease(Some(base), nows[1..], parse, 0, j - 1);
        CompareIsTransitive(base, rest[0], rest[j - 1]);
      }
    }
  }

  /** With a parser that reads the dates back, every holding gets the base of its logical time. */
  lemma {:induction false} BasesAre(last: nat, nows: seq<nat>, parse: string -> Option<nat>)
    requires ReadsBack(parse) && forall t :: t in Times(last, nows) ==> Year(t) <= 9999
    ensures |Bases(Some(Iso8601Date(last)), nows, parse)| == |nows|
    ensures forall i :: 0 <= i < |nows| ==>
      Bases(Some(Iso8601Date(last)), nows, parse)[i] == Iso8601Date(Times(last, nows)[i])
    decreases |nows|
  {
    hide Iso8601Date, Year, NextBase, ReadsBack;
    if nows != [] {
      var t := After(last, nows[0]);
      assert Times(last, nows)[0] == t && Times(last, nows)[1..] == Times(t, nows[1..]);
      NextBaseIs(last, nows[0], parse);
      BasesAre(t, nows[1..], parse);
    }
  }

  lemma {:induction false} TimesAscend(last: nat, nows: seq<nat>, i: nat, j: nat)
    requires i < j < |nows|
    ensures last < Times(last, nows)[i] < Times(last, nows)[j]
    decreases j
  {
    var t := After(last, nows[0]);
    if i > 0 { TimesAscend(t, nows[1..], i - 1, j - 1); } else if j > 1 { TimesAscend(t, nows[1..], 0, j - 1); }
  }

  /**
    However the clock is set between the holdings, no holding fails for want of a base, and every
    value that a later one issues compares as greater than every value of an earlier one.
   */
  lemma ValuesAlwaysIncrease(
      last: nat, nows: seq<nat>, parse: string -> Option<nat>, i: nat, j: nat, c: int, d: int)
    requires ReadsBack(parse) && forall t :: t in Times(last, nows) ==> Year(t) <= 9999
    requires i < j < |nows| && 0 < c <= MAX_INT && 0 < d <= MAX_INT
    ensures
      var bases := Bases(Some(Iso8601Date(last)), nows, parse);
      |bases| == |nows| && CompareTo(Value(bases[i], c), Value(bases[j], d)) < 0
  {
    hide Iso8601Date, Year, CompareTo, Value, ReadsBack;
    var times := Times(last, nows);
    BasesAre(last, nows, parse);
    TimesAscend(last, nows, i, j);
    TimesIncrease(times[i], times[j]);
    ValuesFollowIssue(Issue(Iso8601Date(times[i]), c), Issue(Iso8601Date(times[j]), d));
  }

  /** The preferences that are stored for the server. */
  class Preferences {
    var sequencerBase: Option<string>
    const parse: string -> Option<nat>

    constructor (sequencerBase: Option<string>, parse: string -> Option<nat>)
      ensures this.sequencerBase == sequencerBase && this.parse == parse
    {
      this.sequencerBase, this.parse := sequencerBase, parse;
    }

    /** Takes the next base and saves it; `now` is the time of the clock. */
    method IncOdkTablesSequencerBase(now: nat) returns (r: Result<string, Error>)
      modifies this
      ensures r == NextBase(old(sequencerBase), now, parse)
      ensures sequencerBase == if r.Ok? then Some(r.value) else old(sequencerBase)
      ensures r.Ok? && old(sequencerBase).Some? ==> CompareTo(old(sequencerBase).value, r.value) < 0
    {
      var newValue := Iso8601Date(now);
      if sequencerBase.Some? && CompareTo(sequencerBase.value, newValue) >= 0 {
        // the clock is not ahead of the saved base
        var d := parse(sequencerBase.value);
        if d.None? { return Err(Unparsable); }
        newValue := Iso8601Date(d.value + 1);
        if CompareTo(sequencerBase.value, newValue) >= 0 { return Err(NotGreater); }
      }
      sequencerBase := Some(newValue);
      return Ok(newValue);
    }
  }
}
