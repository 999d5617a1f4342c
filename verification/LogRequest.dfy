/** The targets of a log request: one download for each channel, user and calendar unit. */
module LogRequest {
  import opened Calendar
  import opened TimeDetail
  import opened Periods
  import opened LogParser

  /** A log kept by a service: of one user in a channel, or of a whole channel. */
  datatype Source = UserLog(channel: string, user: string) | ChannelLog(channel: string)

  /** User logs are served by the month, channel logs by the day. */
  datatype Unit = Month(yearMonth: YearMonth) | Day(date: Date)

  function PeriodOf(unit: Unit): TimePeriod {
    match unit
    case Month(ym) => YearMonthPeriod(ym)
    case Day(d) => YearMonthDayPeriod(d)
  }

  /** The source and unit stand for the URL built from them. */
  datatype Target = Target(period: TimePeriod, channel: string, source: Source, unit: Unit)

  datatype LogRequest = LogRequest(parser: LogService, host: string, targets: seq<Target>)

  function UnitsOf(allUsers: bool, p: TimePeriod): seq<Unit> {
    if allUsers then seq(|PeriodDates(p)|, i requires 0 <= i < |PeriodDates(p)| => Day(PeriodDates(p)[i]))
    else seq(|PeriodYearMonths(p)|, i requires 0 <= i < |PeriodYearMonths(p)| => Month(PeriodYearMonths(p)[i]))
  }

  function UserLogs(channel: string, users: seq<string>): seq<Source> {
    seq(|users|, i requires 0 <= i < |users| => UserLog(channel, users[i]))
  }

  function SourcesOf(allUsers: bool, channels: seq<string>, users: seq<string>): seq<Source> {
    if channels == [] then []
    else
      var last := channels[|channels| - 1];
      SourcesOf(allUsers, channels[..|channels| - 1], users)
      + if allUsers then [ChannelLog(last)] else UserLogs(last, users)
  }

  function UnitTargets(source: Source, units: seq<Unit>): seq<Target> {
    seq(|units|, i requires 0 <= i < |units| => Target(PeriodOf(units[i]), source.channel, source, units[i]))
  }

  function TargetsOf(sources: seq<Source>, units: seq<Unit>): seq<Target> {
    if sources == [] then []
    else TargetsOf(sources[..|sources| - 1], units) + UnitTargets(sources[|sources| - 1], units)
  }

  function HostOf(service: LogService): string {
    match service
    case Gempir => "api.gempir.com"
    case Overrustle => "overrustlelogs.net"
  }

  // ---------- which target stands where ----------

  lemma {:induction false} TargetAt(sources: seq<Source>, units: seq<Unit>, s: nat, k: nat)
    requires s < |sources| && k < |units|
    ensures 0 <= s * |units| + k < |TargetsOf(sources, units)| == |sources| * |units|
    ensures TargetsOf(sources, units)[s * |units| + k]
         == Target(PeriodOf(units[k]), sources[s].channel, sources[s], units[k])
    decreases |sources|
  {
    var front, n := sources[..|sources| - 1], |units|;
    TargetCount(sources, units);
    TargetCount(front, units);
    assert |front| * n + n == |sources| * n;
    if s < |front| {
      TargetAt(front, units, s, k);
    } else {
      assert s * n == |front| * n;
    }
  }

  lemma {:induction false} SourceAt(allUsers: bool, channels: seq<string>, users: seq<string>, i: nat, j: nat)
    requires i < |channels|
    ensures allUsers ==>
      |SourcesOf(true, channels, users)| == |channels| && SourcesOf(true, channels, users)[i] == ChannelLog(channels[i])
    ensures !allUsers && j < |users| ==>
      && 0 <= i * |users| + j < |SourcesOf(false, channels, users)| == |channels| * |users|
      && SourcesOf(false, channels, users)[i * |users| + j] == UserLog(channels[i], users[j])
    decreases |channels|
  {
    var front, n := channels[..|channels| - 1], |users|;
    SourceCount(allUsers, channels, users);
    SourceCount(allUsers, front, users);
    assert |front| * n + n == |channels| * n;
    if i < |front| {
      SourceAt(allUsers, front, users, i, j);
    } else {
      assert i * n == |front| * n;
    }
  }

  /** The target for channel i, user j and unit k of a query by user. */
  lemma UserTargetAt(p: TimePeriod, channels: seq<string>, users: seq<string>, i: nat, j: nat, k: nat)
    requires i < |channels| && j < |users| && k < |PeriodYearMonths(p)|
    ensures var targets := TargetsOf(SourcesOf(false, channels, users), UnitsOf(false, p));
      var at := (i * |users| + j) * |PeriodYearMonths(p)| + k;
      && |targets| == |channels| * |users| * |PeriodYearMonths(p)|
      && 0 <= at < |targets|
      && targets[at] == Target(YearMonthPeriod(PeriodYearMonths(p)[k]), channels[i],
                               UserLog(channels[i], users[j]), Month(PeriodYearMonths(p)[k]))
  {
    hide PeriodYearMonths, YearMonthPeriod, TargetsOf, SourcesOf;
    SourceAt(false, channels, users, i, j);
    TargetAt(SourcesOf(false, channels, users), UnitsOf(false, p), i * |users| + j, k);
  }

  /** The target for channel i and unit k of a query for all users. */
  lemma ChannelTargetAt(p: TimePeriod, channels: seq<string>, users: seq<string>, i: nat, k: nat)
    requires i < |channels| && k < |PeriodDates(p)|
    ensures var targets := TargetsOf(SourcesOf(true, channels, users), UnitsOf(true, p));
      var at := i * |PeriodDates(p)| + k;
      && |targets| == |channels| * |PeriodDates(p)|
      && 0 <= at < |targets|
      && targets[at] == Target(YearMonthDayPeriod(PeriodDates(p)[k]), channels[i],
                               ChannelLog(channels[i]), Day(PeriodDates(p)[k]))
  {
    hide PeriodDates, YearMonthDayPeriod, TargetsOf, SourcesOf;
    SourceAt(true, channels, users, i, 0);
    TargetAt(SourcesOf(true, channels, users), UnitsOf(true, p), i, k);
  }

  /** Every channel, user and month has its target, in this order. */
  ghost predicate UserTargets(targets: seq<Target>, p: TimePeriod, channels: seq<string>, users: seq<string>) {
    var months := PeriodYearMonths(p);
    && |targets| == |channels| * |users| * |months|
    && forall i: nat, j: nat, k: nat :: i < |channels| && j < |users| && k < |months| ==>
         UserTargetIs(targets, (i * |users| + j) * |months| + k, channels[i], users[j], months[k])
  }

  ghost predicate UserTargetIs(targets: seq<Target>, at: int, channel: string, user: string, month: YearMonth) {
    && 0 <= at < |targets|
    && targets[at] == Target(YearMonthPeriod(month), channel, UserLog(channel, user), Month(month))
  }

  /** Every channel and date has its target, in this order. */
  ghost predicate ChannelTargets(targets: seq<Target>, p: TimePeriod, channels: seq<string>) {
    var dates := PeriodDates(p);
    && |targets| == |channels| * |dates|
    && forall i: nat, k: nat :: i < |channels| && k < |dates| ==>
         ChannelTargetIs(targets, i * |dates| + k, channels[i], dates[k])
  }

  ghost predicate ChannelTargetIs(targets: seq<Target>, at: int, channel: string, date: Date) {
    && 0 <= at < |targets|
    && targets[at] == Target(YearMonthDayPeriod(date), channel, ChannelLog(channel), Day(date))
  }

  lemma UserTargetsListed(p: TimePeriod, channels: seq<string>, users: seq<string>)
    ensures UserTargets(TargetsOf(SourcesOf(false, channels, users), UnitsOf(false, p)), p, channels, users)
  {
    hide PeriodYearMonths, YearMonthPeriod, TargetsOf, SourcesOf;
    var targets, months := TargetsOf(SourcesOf(false, channels, users), UnitsOf(false, p)), PeriodYearMonths(p);
    TargetCount(SourcesOf(false, channels, users), UnitsOf(false, p));
    SourceCount(false, channels, users);
    forall i: nat, j: nat, k: nat | i < |channels| && j < |users| && k < |months|
      ensures UserTargetIs(targets, (i * |users| + j) * |months| + k, channels[i], users[j], months[k])
    {
      UserTargetAt(p, channels, users, i, j, k);
    }
  }

  lemma ChannelTargetsListed(p: TimePeriod, channels: seq<string>, users: seq<string>)
    ensures ChannelTargets(TargetsOf(SourcesOf(true, channels, users), UnitsOf(true, p)), p, channels)
  {
    hide PeriodDates, YearMonthDayPeriod, TargetsOf, SourcesOf;
    var targets, dates := TargetsOf(SourcesOf(true, channels, users), UnitsOf(true, p)), PeriodDates(p);
    TargetCount(SourcesOf(true, channels, users), UnitsOf(true, p));
    SourceCount(true, channels, users);
    forall i: nat, k: nat | i < |channels| && k < |dates|
      ensures ChannelTargetIs(targets, i * |dates| + k, channels[i], dates[k])
    {
      ChannelTargetAt(p, channels, users, i, k);
    }
  }

  lemma TargetsSnoc(sources: seq<Source>, source: Source, units: seq<Unit>)
    ensures TargetsOf(sources + [source], units) == TargetsOf(sources, units) + UnitTargets(source, units)
  {
    assert (sources + [source])[..|sources|] == sources;
  }

  lemma SourcesSnoc(allUsers: bool, channels: seq<string>, i: nat, users: seq<string>)
    requires i < |channels|
    ensures SourcesOf(allUsers, channels[..i + 1], users)
         == SourcesOf(allUsers, channels[..i], users)
            + if allUsers then [ChannelLog(channels[i])] else UserLogs(channels[i], users)
  {
    assert channels[..i + 1][..i] == channels[..i];
  }

  lemma NoTargets(allUsers: bool, users: seq<string>, units: seq<Unit>)
    ensures TargetsOf(SourcesOf(allUsers, [], users), units) == []
  {
  }

  method FillLogRequestTargetFields(service: LogService, allUsers: bool, period: TimePeriod,
                                    channels: seq<string>, users: seq<string>)
    returns (request: LogRequest)
    ensures request.parser == service
    ensures request.host == if service == Gempir then "api.gempir.com" else "overrustlelogs.net"
    ensures if allUsers then ChannelTargets(request.targets, period, channels)
            else UserTargets(request.targets, period, channels, users)
    ensures request.targets == TargetsOf(SourcesOf(allUsers, channels, users), UnitsOf(allUsers, period))
  {
    var targets;
    if allUsers {
      targets := DateList(period, channels, users);
    } else {
      targets := YearMonthUserList(period, channels, users);
    }
    request := LogRequest(service, HostOf(service), targets);
  }

  /** `generate_year_month_user_list` */
  method YearMonthUserList(period: TimePeriod, channels: seq<string>, users: seq<string>)
    returns (vec: seq<Target>)
    ensures UserTargets(vec, period, channels, users)
    ensures vec == TargetsOf(SourcesOf(false, channels, users), UnitsOf(false, period))
  {
    UserTargetsListed(period, channels, users);
    hide PeriodYearMonths, YearMonthPeriod, SourcesOf, TargetsOf;
    NoTargets(false, users, UnitsOf(false, period));
    assert channels[..0] == [];
    var yearMonths := PeriodToYearMonths(period);
    ghost var units := UnitsOf(false, period);
    vec := [];
    for i := 0 to |channels|
      invariant vec == TargetsOf(SourcesOf(false, channels[..i], users), units)
    {
      ghost var earlier := SourcesOf(false, channels[..i], users);
      ghost var logs := UserLogs(channels[i], users);
      assert earlier + logs[..0] == earlier;
      for j := 0 to |users|
        invariant vec == TargetsOf(earlier + logs[..j], units)
      {
        ghost var before := vec;
        for k := 0 to |yearMonths|
          invariant vec == before + UnitTargets(logs[j], units)[..k]
        {
          var ym := yearMonths[k];
          vec := vec + [Target(YearMonthPeriod(ym), channels[i], UserLog(channels[i], users[j]), Month(ym))];
        }
        TargetsSnoc(earlier + logs[..j], logs[j], units);
        assert earlier + logs[..j] + [logs[j]] == earlier + logs[..j + 1];
      }
      assert logs[..|users|] == logs;
      SourcesSnoc(false, channels, i, users);
    }
    assert channels[..|channels|] == channels;
  }

  /** `generate_date_list` */
  method DateList(period: TimePeriod, channels: seq<string>, users: seq<string>) returns (vec: seq<Target>)
    ensures ChannelTargets(vec, period, channels)
    ensures vec == TargetsOf(SourcesOf(true, channels, users), UnitsOf(true, period))
  {
    ChannelTargetsListed(period, channels, users);
    hide PeriodDates, YearMonthDayPeriod, SourcesOf, TargetsOf;
    NoTargets(true, users, UnitsOf(true, period));
    assert channels[..0] == [];
    var dates := PeriodToDates(period);
    ghost var units := UnitsOf(true, period);
    vec := [];
    for i := 0 to |channels|
      invariant vec == TargetsOf(SourcesOf(true, channels[..i], users), units)
    {
      ghost var before := vec;
      ghost var source := ChannelLog(channels[i]);
      for k := 0 to |dates|
        invariant vec == before + UnitTargets(source, units)[..k]
      {
        vec := vec + [Target(YearMonthDayPeriod(dates[k]), channels[i], ChannelLog(channels[i]), Day(dates[k]))];
      }
      TargetsSnoc(SourcesOf(true, channels[..i], users), source, units);
      SourcesSnoc(true, channels, i, users);
    }
    assert channels[..|channels|] == channels;
  }

  // ---------- how many targets ----------

  lemma {:induction false} TargetCount(sources: seq<Source>, units: seq<Unit>)
    ensures |TargetsOf(sources, units)| == |sources| * |units|
  {
    if sources != [] {
      TargetCount(sources[..|sources| - 1], units);
      assert |sources| * |units| == (|sources| - 1) * |units| + |units|;
    }
  }

  lemma UserLogCount(channel: string, users: seq<string>)
    ensures |UserLogs(channel, users)| == |users|
  {
  }

  lemma {:induction false} SourceCount(allUsers: bool, channels: seq<string>, users: seq<string>)
    ensures |SourcesOf(allUsers, channels, users)| == |channels| * (if allUsers then 1 else |users|)
  {
    if channels != [] {
      hide UserLogs;
      var n := if allUsers then 1 else |users|;
      SourceCount(allUsers, channels[..|channels| - 1], users);
      assert (|channels| - 1) * n + n == |channels| * n;
      UserLogCount(channels[|channels| - 1], users);
    }
  }

  function UnitPeriods(units: seq<Unit>): seq<TimePeriod> {
    seq<TimePeriod>(|units|, i requires 0 <= i < |units| => PeriodOf(units[i]))
  }

  lemma UnitsCover(allUsers: bool, p: TimePeriod)
    ensures Covers(UnitPeriods(UnitsOf(allUsers, p)), p)
  {
    hide PeriodDates, PeriodYearMonths, Covers, YearMonthPeriod, YearMonthDayPeriod;
    var periods := UnitPeriods(UnitsOf(allUsers, p));
    if allUsers {
      DayPeriodsCover(p);
      assert periods == DayPeriods(p);
    } else {
      MonthPeriodsCover(p);
      assert periods == MonthPeriods(p);
    }
  }

  lemma UnitCount(allUsers: bool, p: TimePeriod)
    ensures |UnitsOf(allUsers, p)|
         == if allUsers then FloorDays(p.end) - FloorDays(p.begin) + 1 else LastMonth(p) - FirstMonth(p) + 1
    ensures UnitsOf(allUsers, p) != []
  {
    hide FloorDays, LastMonth, FirstMonth, FromSysDays, MonthFromIndex;
    DatesInOrder(p.begin, p.end);
  }

  /**
    One target for each source and unit; the request has none exactly when no
    channel, or no user where users matter, is given.
   */
  lemma RequestSize(allUsers: bool, p: TimePeriod, channels: seq<string>, users: seq<string>)
    ensures var targets := TargetsOf(SourcesOf(allUsers, channels, users), UnitsOf(allUsers, p));
      && |targets| == |channels| * (if allUsers then 1 else |users|) * |UnitsOf(allUsers, p)|
      && (targets == [] <==> channels == [] || (!allUsers && users == []))
  {
    hide TargetsOf, SourcesOf, UnitsOf;
    var sources, units := SourcesOf(allUsers, channels, users), UnitsOf(allUsers, p);
    TargetCount(sources, units);
    SourceCount(allUsers, channels, users);
    UnitCount(allUsers, p);
    var n := if allUsers then 1 else |users|;
    assert |channels| * n == 0 <==> |channels| == 0 || n == 0;
    assert (|channels| * n) * |units| == 0 <==> |channels| * n == 0;
  }
}
