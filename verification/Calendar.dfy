/**
  The proleptic Gregorian calendar: civil dates, day numbers counted from
  1970-01-01, and the conversions between them.  The leap-year rule is the one
  of Appendix C of RFC 3339.
 */
module Calendar {

  predicate IsLeap(y: int) {
    y % 4 == 0 && (y % 100 != 0 || y % 400 == 0)
  }

  function DaysInMonth(y: int, m: int): int {
    if m == 2 then (if IsLeap(y) then 29 else 28)
    else if m == 4 || m == 6 || m == 9 || m == 11 then 30
    else 31
  }

  function DaysInYear(y: int): int {
    if IsLeap(y) then 366 else 365
  }

  datatype RawYearMonth = YearMonth(year: int, month: int)
  type YearMonth = ym: RawYearMonth | 1 <= ym.month <= 12 witness YearMonth(1970, 1)

  datatype RawDate = Date(year: int, month: int, day: int)
  type Date = d: RawDate | 1 <= d.month <= 12 && 1 <= d.day <= DaysInMonth(d.year, d.month)
    witness Date(1970, 1, 1)

  /** The order of `year_month` values: lexicographic. */
  predicate MonthBefore(a: YearMonth, b: YearMonth) {
    a.year < b.year || (a.year == b.year && a.month < b.month)
  }

  /** The order of `year_month_day` values: lexicographic. */
  predicate DateBefore(a: Date, b: Date) {
    a.year < b.year
    || (a.year == b.year && (a.month < b.month || (a.month == b.month && a.day < b.day)))
  }

  function NextMonth(ym: YearMonth): YearMonth {
    if ym.month == 12 then YearMonth(ym.year + 1, 1) else YearMonth(ym.year, ym.month + 1)
  }

  /** The civil day after d, by the rules of the calendar alone. */
  function NextDay(d: Date): Date {
    if d.day < DaysInMonth(d.year, d.month) then Date(d.year, d.month, d.day + 1)
    else if d.month < 12 then Date(d.year, d.month + 1, 1)
    else Date(d.year + 1, 1, 1)
  }

  function MonthIndex(ym: YearMonth): int {
    12 * ym.year + ym.month - 1
  }

  function MonthFromIndex(k: int): YearMonth {
    YearMonth(k / 12, k % 12 + 1)
  }

  function MonthOf(d: Date): YearMonth {
    YearMonth(d.year, d.month)
  }

  // ---------- day numbers ----------

  /** Days from 0000-01-01 to the first day of year y. */
  function DaysBeforeYear(y: int): int {
    365 * y + (y + 3) / 4 - (y + 99) / 100 + (y + 399) / 400
  }

  function DaysBeforeMonth(y: int, m: int): int
    requires 1 <= m <= 12
  {
    if m == 1 then 0 else DaysBeforeMonth(y, m - 1) + DaysInMonth(y, m - 1)
  }

  /** Days from 0000-01-01 to 1970-01-01. */
  const EPOCH: int := 719528

  /** Days from 1970-01-01 to d (`sys_days`). */
  function SysDays(d: Date): int {
    DaysBeforeYear(d.year) + DaysBeforeMonth(d.year, d.month) + d.day - 1 - EPOCH
  }

  function YearOf(n: int): int {
    var guess := 400 * n / 146097;
    if n < DaysBeforeYear(guess) then guess - 1
    else if DaysBeforeYear(guess + 1) <= n then guess + 1
    else guess
  }

  /** The date that lies rest days after the first of month m in year y. */
  function DateInYear(y: int, m: int, rest: int): (d: Date)
    requires 1 <= m <= 12 && 0 <= rest < DaysInYear(y) - DaysBeforeMonth(y, m)
    ensures d.year == y && m <= d.month
    ensures DaysBeforeMonth(y, d.month) + d.day - 1 == DaysBeforeMonth(y, m) + rest
    decreases 12 - m
  {
    MonthEnds(y);
    if rest < DaysInMonth(y, m) then Date(y, m, rest + 1)
    else DateInYear(y, m + 1, rest - DaysInMonth(y, m))
  }

  function FromSysDays(n: int): Date {
    YearOfBounds(n + EPOCH);
    var y := YearOf(n + EPOCH);
    DateInYear(y, 1, n + EPOCH - DaysBeforeYear(y))
  }

  lemma MonthEnds(y: int)
    ensures DaysBeforeMonth(y, 12) + 31 == DaysInYear(y)
  {
    assert DaysBeforeMonth(y, 2) == 31;
    assert DaysBeforeMonth(y, 4) == DaysBeforeMonth(y, 3) + 31;
    assert DaysBeforeMonth(y, 6) == DaysBeforeMonth(y, 5) + 31;
    assert DaysBeforeMonth(y, 8) == DaysBeforeMonth(y, 7) + 31;
    assert DaysBeforeMonth(y, 10) == DaysBeforeMonth(y, 9) + 30;
  }

  lemma RoundedUpStep4(y: int)
    ensures (y + 4) / 4 - (y + 3) / 4 == if y % 4 == 0 then 1 else 0
  {
    var q, r := y / 4, y % 4;
    assert (y + 3) / 4 == if r == 0 then q else q + 1;
  }

  lemma RoundedUpStep100(y: int)
    ensures (y + 100) / 100 - (y + 99) / 100 == if y % 100 == 0 then 1 else 0
  {
    var q, r := y / 100, y % 100;
    assert (y + 99) / 100 == if r == 0 then q else q + 1;
  }

  lemma RoundedUpStep400(y: int)
    ensures (y + 400) / 400 - (y + 399) / 400 == if y % 400 == 0 then 1 else 0
  {
    var q, r := y / 400, y % 400;
    assert (y + 399) / 400 == if r == 0 then q else q + 1;
  }

  lemma Multiples(k: int)
    ensures (100 * k) % 100 == 0 && (4 * k) % 4 == 0
  {
  }

  lemma LeapNesting(y: int)
    ensures y % 400 == 0 ==> y % 100 == 0
    ensures y % 100 == 0 ==> y % 4 == 0
  {
    Multiples(4 * (y / 400));
    Multiples(25 * (y / 100));
  }

  lemma YearStep(y: int)
    ensures DaysBeforeYear(y + 1) == DaysBeforeYear(y) + DaysInYear(y)
  {
    RoundedUpStep4(y);
    RoundedUpStep100(y);
    RoundedUpStep400(y);
    LeapNesting(y);
  }

  lemma {:induction false} YearsGrow(y: int, z: int)
    requires y < z
    ensures DaysBeforeYear(y) + DaysInYear(y) <= DaysBeforeYear(z)
    decreases z - y
  {
    YearStep(y);
    if y + 1 < z {
      YearsGrow(y + 1, z);
    }
  }

  lemma {:induction false} MonthsGrow(y: int, m: int, k: int)
    requires 1 <= m < k <= 12
    ensures DaysBeforeMonth(y, m) + DaysInMonth(y, m) <= DaysBeforeMonth(y, k)
    decreases k
  {
    if m + 1 < k {
      MonthsGrow(y, m, k - 1);
    }
  }

  lemma YearOfBounds(n: int)
    ensures DaysBeforeYear(YearOf(n)) <= n < DaysBeforeYear(YearOf(n)) + DaysInYear(YearOf(n))
  {
    var guess := 400 * n / 146097;
    assert DaysBeforeYear(guess - 1) <= n < DaysBeforeYear(guess + 2);
    YearStep(guess - 1);
    YearStep(guess);
    YearStep(guess + 1);
  }

  /** A date's day number lies within its year. */
  lemma WithinYear(d: Date)
    ensures DaysBeforeYear(d.year) <= SysDays(d) + EPOCH < DaysBeforeYear(d.year) + DaysInYear(d.year)
  {
    MonthEnds(d.year);
    if d.month > 1 {
      MonthsGrow(d.year, 1, d.month);
    }
    if d.month < 12 {
      MonthsGrow(d.year, d.month, 12);
    }
  }

  // ---------- main results ----------

  /**
    The day number in closed form: years and months are counted from March, and a
    month starts (153m + 2) / 5 days into its year.
   */
  function MarchFormula(d: Date): int {
    var y := if d.month <= 2 then d.year - 1 else d.year;
    var m := (d.month + 9) % 12;
    365 * y + y / 4 - y / 100 + y / 400 + (153 * m + 2) / 5 + d.day - 1 - 719468
  }

  /** Day numbers are anchored at 1970-01-01 and follow the civil successor, which determines them. */
  lemma SysDaysCountDays(d: Date)
    ensures SysDays(Date(1970, 1, 1)) == 0
    ensures SysDays(NextDay(d)) == SysDays(d) + 1
    ensures MarchFormula(NextDay(d)) == MarchFormula(d) + 1
  {
    hide MarchFormula;
    MonthEnds(d.year);
    YearStep(d.year);
    CivilFormula(d);
    CivilFormula(NextDay(d));
  }

  /** Months counted from March start (153m + 2) / 5 days after it; January and February follow the others. */
  lemma MonthStarts(y: int, month: int)
    requires 1 <= month <= 12
    ensures var m := (month + 9) % 12;
      DaysBeforeMonth(y, month)
      == (153 * m + 2) / 5 + if month <= 2 then -306 else 59 + DaysInYear(y) - 365
  {
    assert DaysBeforeMonth(y, 3) == DaysBeforeMonth(y, 2) + DaysInMonth(y, 2);
    assert DaysBeforeMonth(y, 5) == DaysBeforeMonth(y, 4) + DaysInMonth(y, 4);
    assert DaysBeforeMonth(y, 7) == DaysBeforeMonth(y, 6) + DaysInMonth(y, 6);
    assert DaysBeforeMonth(y, 9) == DaysBeforeMonth(y, 8) + DaysInMonth(y, 8);
    assert DaysBeforeMonth(y, 11) == DaysBeforeMonth(y, 10) + DaysInMonth(y, 10);
  }

  /** Days before a year that is counted from March, when the leap day comes last. */
  lemma MarchYear(y: int)
    ensures DaysBeforeYear(y + 1) == 365 * y + y / 4 - y / 100 + y / 400 + 366
  {
  }

  /** The closed form gives the day number of every date. */
  lemma CivilFormula(d: Date)
    ensures SysDays(d) == MarchFormula(d)
  {
    hide DaysBeforeYear, DaysBeforeMonth;
    MonthStarts(d.year, d.month);
    if d.month <= 2 {
      MarchYear(d.year - 1);
    } else {
      MarchYear(d.year);
      YearStep(d.year);
    }
  }

  /** The lexicographic order of dates is the order of their day numbers. */
  lemma SysDaysOrder(a: Date, b: Date)
    ensures DateBefore(a, b) <==> SysDays(a) < SysDays(b)
    ensures a == b <==> SysDays(a) == SysDays(b)
  {
    StrictlyIncreasing(a, b);
    StrictlyIncreasing(b, a);
  }

  lemma StrictlyIncreasing(a: Date, b: Date)
    ensures DateBefore(a, b) ==> SysDays(a) < SysDays(b)
  {
    if a.year < b.year {
      WithinYear(a);
      WithinYear(b);
      YearsGrow(a.year, b.year);
    } else if a.year == b.year && a.month < b.month {
      MonthsGrow(a.year, a.month, b.month);
    }
  }

  /** The two conversions are inverse to each other. */
  lemma SysDaysInverse(n: int, d: Date)
    ensures SysDays(FromSysDays(n)) == n
    ensures FromSysDays(SysDays(d)) == d
  {
    var back := FromSysDays(SysDays(d));
    SysDaysOrder(back, d);
  }

  /** Month numbering: a bijection that follows NextMonth and keeps the order. */
  lemma MonthIndexing(a: YearMonth, b: YearMonth, k: int)
    ensures MonthFromIndex(MonthIndex(a)) == a
    ensures MonthIndex(MonthFromIndex(k)) == k
    ensures MonthIndex(NextMonth(a)) == MonthIndex(a) + 1
    ensures MonthBefore(a, b) <==> MonthIndex(a) < MonthIndex(b)
  {
  }
}
