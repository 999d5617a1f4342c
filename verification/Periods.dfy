/** Cutting a time period into the calendar units that logs are served in. */
module Periods {
  import opened Calendar
  import opened TimeDetail

  // ---------- the unit lists ----------

  function PeriodDates(p: TimePeriod): seq<Date> {
    seq<Date>(FloorDays(p.end) - FloorDays(p.begin) + 1, i requires 0 <= i => FromSysDays(FloorDays(p.begin) + i))
  }

  function FirstMonth(p: TimePeriod): int {
    MonthIndex(MonthOf(DateOf(p.begin)))
  }

  function LastMonth(p: TimePeriod): (k: int)
    ensures FirstMonth(p) <= k
  {
    DatesInOrder(p.begin, p.end);
    MonthIndex(MonthOf(DateOf(p.end)))
  }

  function PeriodYearMonths(p: TimePeriod): seq<YearMonth> {
    seq<YearMonth>(LastMonth(p) - FirstMonth(p) + 1, i requires 0 <= i => MonthFromIndex(FirstMonth(p) + i))
  }

  lemma DatesInOrder(s: TimePoint, t: TimePoint)
    requires s <= t
    ensures FloorDays(s) <= FloorDays(t)
    ensures DateOf(s) == DateOf(t) || DateBefore(DateOf(s), DateOf(t))
    ensures MonthIndex(MonthOf(DateOf(s))) <= MonthIndex(MonthOf(DateOf(t)))
  {
    SysDaysInverse(FloorDays(s), DateOf(s));
    SysDaysInverse(FloorDays(t), DateOf(t));
    SysDaysOrder(DateOf(s), DateOf(t));
  }

  lemma DatesByFormula(p: TimePeriod)
    ensures FloorDays(p.begin) <= FloorDays(p.end)
    ensures var ds := PeriodDates(p); forall i :: 0 <= i < |ds| ==> MarchFormula(ds[i]) == FloorDays(p.begin) + i
  {
    hide SysDays, FromSysDays, MarchFormula;
    FloorDaysBounds(p.end, FloorDays(p.begin));
    FloorDaysBounds(p.begin, FloorDays(p.begin));
    var ds := PeriodDates(p);
    forall i | 0 <= i < |ds|
      ensures MarchFormula(ds[i]) == FloorDays(p.begin) + i
    {
      SysDaysInverse(FloorDays(p.begin) + i, ds[i]);
      CivilFormula(ds[i]);
    }
  }

  method PeriodToDates(period: TimePeriod) returns (dates: seq<Date>)
    ensures |dates| == FloorDays(period.end) - FloorDays(period.begin) + 1
    ensures forall i :: 0 <= i < |dates| ==> MarchFormula(dates[i]) == FloorDays(period.begin) + i
    ensures dates == PeriodDates(period)
  {
    hide SysDays, FromSysDays, MarchFormula;
    dates := [];
    var begin := DateOf(period.begin);
    var end := DateOf(period.end);
    ghost var first, last := FloorDays(period.begin), FloorDays(period.end);
    SysDaysInverse(first, begin);
    SysDaysInverse(last, end);
    end := FromSysDays(SysDays(end) + 1);
    SysDaysInverse(last + 1, end);
    SysDaysOrder(begin, end);
    while DateBefore(begin, end)
      invariant SysDays(begin) == first + |dates| <= last + 1
      invariant DateBefore(begin, end) <==> SysDays(begin) < last + 1
      invariant forall i :: 0 <= i < |dates| ==> dates[i] == FromSysDays(first + i)
      decreases last + 1 - SysDays(begin)
    {
      SysDaysInverse(SysDays(begin), begin);
      dates := dates + [begin];
      var next := FromSysDays(SysDays(begin) + 1);
      SysDaysInverse(SysDays(begin) + 1, next);
      SysDaysOrder(next, end);
      begin := next;
    }
    assert dates == PeriodDates(period);
    DatesByFormula(period);
  }

  method PeriodToYearMonths(period: TimePeriod) returns (yearMonths: seq<YearMonth>)
    ensures yearMonths == PeriodYearMonths(period)
  {
    hide MonthIndex, MonthFromIndex, DateOf;
    yearMonths := [];
    var beginMonth: YearMonth := MonthOf(DateOf(period.begin));
    var endMonth: YearMonth := NextMonth(MonthOf(DateOf(period.end)));
    ghost var first, last := FirstMonth(period), LastMonth(period);
    MonthIndexing(MonthOf(DateOf(period.end)), endMonth, 0);
    MonthIndexing(beginMonth, endMonth, 0);
    while MonthBefore(beginMonth, endMonth)
      invariant MonthIndex(beginMonth) == first + |yearMonths| <= last + 1
      invariant MonthBefore(beginMonth, endMonth) <==> MonthIndex(beginMonth) < last + 1
      invariant forall i :: 0 <= i < |yearMonths| ==> yearMonths[i] == MonthFromIndex(first + i)
      decreases last + 1 - MonthIndex(beginMonth)
    {
      MonthIndexing(beginMonth, endMonth, 0);
      MonthIndexing(NextMonth(beginMonth), endMonth, 0);
      yearMonths := yearMonths + [beginMonth];
      beginMonth := NextMonth(beginMonth);
    }
  }

  // ---------- units as periods ----------

  function DayPeriods(p: TimePeriod): seq<TimePeriod> {
    seq<TimePeriod>(|PeriodDates(p)|, i requires 0 <= i < |PeriodDates(p)| => YearMonthDayPeriod(PeriodDates(p)[i]))
  }

  function MonthPeriods(p: TimePeriod): seq<TimePeriod> {
    seq<TimePeriod>(|PeriodYearMonths(p)|,
                    i requires 0 <= i < |PeriodYearMonths(p)| => YearMonthPeriod(PeriodYearMonths(p)[i]))
  }

  /** Neighbours share an endpoint, and the whole reaches from lo to hi. */
  ghost predicate Tiles(units: seq<TimePeriod>, lo: TimePoint, hi: TimePoint) {
    && units != []
    && units[0].begin == lo
    && units[|units| - 1].end == hi
    && forall i :: 0 < i < |units| ==> units[i - 1].end == units[i].begin
  }

  /** The units cover the period p, and end in the one that holds p.end. */
  ghost predicate Covers(units: seq<TimePeriod>, p: TimePeriod) {
    && units != []
    && Tiles(units, units[0].begin, units[|units| - 1].end)
    && IsInside(units[0], p.begin)
    && IsInside(units[|units| - 1], p.end)
  }

  lemma DatesAreConsecutive(p: TimePeriod)
    ensures var ds := PeriodDates(p);
      && |ds| >= 1 && ds[0] == DateOf(p.begin) && ds[|ds| - 1] == DateOf(p.end)
      && (forall i :: 0 < i < |ds| ==> ds[i] == NextDay(ds[i - 1]))
  {
    hide SysDays, FromSysDays, FloorDays, NextDay;
    var ds := PeriodDates(p);
    var first := FloorDays(p.begin);
    DatesInOrder(p.begin, p.end);
    forall i | 0 < i < |ds|
      ensures ds[i] == NextDay(ds[i - 1])
    {
      assert ds[i - 1] == FromSysDays(first + i - 1);
      SysDaysInverse(first + i - 1, NextDay(ds[i - 1]));
      SysDaysCountDays(ds[i - 1]);
    }
  }

  lemma MonthsAreConsecutive(p: TimePeriod)
    ensures var ms := PeriodYearMonths(p);
      && |ms| >= 1 && ms[0] == MonthOf(DateOf(p.begin)) && ms[|ms| - 1] == MonthOf(DateOf(p.end))
      && (forall i :: 0 < i < |ms| ==> ms[i] == NextMonth(ms[i - 1]))
  {
    hide MonthIndex, MonthFromIndex, DateOf;
    var ms := PeriodYearMonths(p);
    MonthIndexing(MonthOf(DateOf(p.begin)), MonthOf(DateOf(p.end)), 0);
    MonthIndexing(MonthOf(DateOf(p.end)), MonthOf(DateOf(p.end)), 0);
    forall i | 0 < i < |ms|
      ensures ms[i] == NextMonth(ms[i - 1])
    {
      MonthIndexing(ms[i - 1], ms[i], FirstMonth(p) + i - 1);
      MonthIndexing(NextMonth(ms[i - 1]), ms[i], 0);
    }
  }

  lemma DayPeriodsCover(p: TimePeriod)
    ensures Covers(DayPeriods(p), p)
  {
    hide PeriodDates, YearMonthDayPeriod, DateOf, IsInside, NextDay;
    var units, ds := DayPeriods(p), PeriodDates(p);
    DatesAreConsecutive(p);
    DayPeriodIsTheDay(ds[0], p.begin);
    DayPeriodIsTheDay(ds[|ds| - 1], p.end);
    forall i | 0 < i < |units|
      ensures units[i - 1].end == units[i].begin
    {
      UnitsMeet(MonthOf(ds[i - 1]), ds[i - 1]);
    }
  }

  lemma MonthPeriodsCover(p: TimePeriod)
    ensures Covers(MonthPeriods(p), p)
  {
    hide PeriodYearMonths, YearMonthPeriod, DateOf, IsInside, NextMonth;
    var units, ms := MonthPeriods(p), PeriodYearMonths(p);
    MonthsAreConsecutive(p);
    MonthPeriodIsTheMonth(ms[0], p.begin);
    MonthPeriodIsTheMonth(ms[|ms| - 1], p.end);
    forall i | 0 < i < |units|
      ensures units[i - 1].end == units[i].begin
    {
      UnitsMeet(ms[i - 1], FirstOf(ms[i - 1]));
    }
  }

  // ---------- tiling ----------

  /** How many of the units hold t. */
  ghost function Holding(units: seq<TimePeriod>, t: TimePoint): nat {
    if units == [] then 0
    else Holding(units[..|units| - 1], t) + if IsInside(units[|units| - 1], t) then 1 else 0
  }

  lemma {:induction false} TilesHoldOnce(units: seq<TimePeriod>, lo: TimePoint, hi: TimePoint, t: TimePoint)
    requires Tiles(units, lo, hi)
    ensures lo <= hi
    ensures Holding(units, t) == if lo <= t < hi then 1 else 0
  {
    var front := units[..|units| - 1];
    if front != [] {
      TilesHoldOnce(front, lo, units[|units| - 1].begin, t);
    } else {
      assert Holding(front, t) == 0;
    }
  }

  /** Every instant of the period lies in exactly one unit. */
  lemma CoveredOnce(units: seq<TimePeriod>, p: TimePeriod, t: TimePoint)
    requires Covers(units, p) && IsInside(p, t)
    ensures Holding(units, t) == 1
  {
    TilesHoldOnce(units, units[0].begin, units[|units| - 1].end, t);
  }

  lemma {:induction false} HeldSomewhere(units: seq<TimePeriod>, t: TimePoint) returns (i: nat)
    requires Holding(units, t) >= 1
    ensures i < |units| && IsInside(units[i], t)
  {
    if IsInside(units[|units| - 1], t) {
      i := |units| - 1;
    } else {
      i := HeldSomewhere(units[..|units| - 1], t);
    }
  }

  lemma {:induction false} UnitBounds(units: seq<TimePeriod>, i: nat, j: nat)
    requires units != [] && Tiles(units, units[0].begin, units[|units| - 1].end)
    requires i < j < |units|
    ensures units[i].end <= units[j].begin
    decreases j
  {
    if i + 1 < j {
      UnitBounds(units, i, j - 1);
    }
  }

  /** The same with indices: there is one unit holding t, and no other does. */
  lemma CoveredByExactlyOne(units: seq<TimePeriod>, p: TimePeriod, t: TimePoint)
    requires Covers(units, p) && IsInside(p, t)
    ensures exists i :: 0 <= i < |units| && IsInside(units[i], t)
                        && forall j :: 0 <= j < |units| && IsInside(units[j], t) ==> j == i
  {
    CoveredOnce(units, p, t);
    var i := HeldSomewhere(units, t);
    forall j | 0 <= j < |units| && IsInside(units[j], t)
      ensures j == i
    {
      if j < i {
        UnitBounds(units, j, i);
      } else if i < j {
        UnitBounds(units, i, j);
      }
    }
  }

  /**
    The unit holding p.end is fetched in any case.  It contributes an instant of
    [begin, end) exactly when the end lies past the start of that unit and the
    period is not empty; otherwise all its lines are filtered away.
   */
  lemma LastUnitNeeded(units: seq<TimePeriod>, p: TimePeriod)
    requires Covers(units, p)
    ensures (exists t :: IsInside(units[|units| - 1], t) && IsInside(p, t))
            <==> units[|units| - 1].begin < p.end && p.begin < p.end
  {
    var last := units[|units| - 1];
    if last.begin < p.end && p.begin < p.end {
      assert IsInside(last, p.end - 1) && IsInside(p, p.end - 1);
    }
  }
}
