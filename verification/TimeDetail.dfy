/** Time points, half-open time periods, and the periods of calendar months and days. */
module TimeDetail {
  import opened Calendar

  /** Ticks of `system_clock` since 1970-01-01T00:00:00Z. */
  type TimePoint = int

  const TICKS_PER_MILLISECOND: int := 1_000_000
  const TICKS_PER_DAY: int := 86_400_000_000_000

  datatype RawPeriod = TimePeriod(begin: TimePoint, end: TimePoint)

  /** The constructor asserts begin <= end. */
  type TimePeriod = p: RawPeriod | p.begin <= p.end witness TimePeriod(0, 0)

  predicate IsInside(p: TimePeriod, t: TimePoint) {
    p.begin <= t < p.end
  }

  /** `date::floor<date::days>`: rounds towards the past, also before 1970. */
  function FloorDays(t: TimePoint): int {
    t / TICKS_PER_DAY
  }

  function DateOf(t: TimePoint): Date {
    FromSysDays(FloorDays(t))
  }

  function StartOfDay(d: Date): TimePoint {
    SysDays(d) * TICKS_PER_DAY
  }

  function FirstOf(ym: YearMonth): Date {
    Date(ym.year, ym.month, 1)
  }

  function YearMonthPeriod(ym: YearMonth): TimePeriod {
    SysDaysOrder(FirstOf(ym), FirstOf(NextMonth(ym)));
    TimePeriod(StartOfDay(FirstOf(ym)), StartOfDay(FirstOf(NextMonth(ym))))
  }

  function YearMonthDayPeriod(d: Date): TimePeriod {
    TimePeriod(StartOfDay(d), StartOfDay(d) + TICKS_PER_DAY)
  }

  lemma FloorDaysBounds(t: TimePoint, n: int)
    ensures n <= FloorDays(t) <==> n * TICKS_PER_DAY <= t
  {
  }

  /** A day's period holds exactly the instants whose civil date is that day. */
  lemma DayPeriodIsTheDay(d: Date, t: TimePoint)
    ensures IsInside(YearMonthDayPeriod(d), t) <==> DateOf(t) == d
    ensures IsInside(YearMonthDayPeriod(d), t)
       <==> SysDays(d) * 86_400_000_000_000 <= t < (SysDays(d) + 1) * 86_400_000_000_000
  {
    hide SysDays, FromSysDays;
    FloorDaysBounds(t, SysDays(d));
    FloorDaysBounds(t, SysDays(d) + 1);
    SysDaysInverse(FloorDays(t), d);
  }

  /** A month's period holds exactly the instants whose civil date falls in that month. */
  lemma MonthPeriodIsTheMonth(ym: YearMonth, t: TimePoint)
    ensures IsInside(YearMonthPeriod(ym), t) <==> MonthOf(DateOf(t)) == ym
  {
    var d := DateOf(t);
    SysDaysInverse(FloorDays(t), d);
    FloorDaysBounds(t, SysDays(FirstOf(ym)));
    FloorDaysBounds(t, SysDays(FirstOf(NextMonth(ym))));
    SysDaysOrder(d, FirstOf(ym));
    SysDaysOrder(d, FirstOf(NextMonth(ym)));
  }

  /** Consecutive units share an endpoint, over month ends, year ends and leap days. */
  lemma UnitsMeet(ym: YearMonth, d: Date)
    ensures YearMonthPeriod(ym).end == YearMonthPeriod(NextMonth(ym)).begin
    ensures YearMonthDayPeriod(d).end == YearMonthDayPeriod(NextDay(d)).begin
  {
    SysDaysCountDays(d);
  }
}
