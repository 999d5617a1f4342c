/**
  What the log query pipeline works out, compared with one direct pass over the
  complete logs.  The services are described by an archive: the records of every
  user's and every channel's log.
 */
module Pipeline {
  import opened StringViews
  import opened TimeDetail
  import opened Periods
  import opened LogParser
  import opened LogRoundTrip
  import opened LogRequest
  import opened Hits
  import opened Downloader
  import opened QueryProtocol

  datatype Query = Query(service: LogService, allUsers: bool, period: TimePeriod,
                         channels: seq<string>, users: seq<string>,
                         target: string, caseless: bool)

  function Sources(q: Query): seq<Source> {
    SourcesOf(q.allUsers, q.channels, q.users)
  }

  function Targets(q: Query): seq<Target> {
    TargetsOf(Sources(q), UnitsOf(q.allUsers, q.period))
  }

  // ---------- what the callbacks collect ----------

  /** The parser is defined on the body (see LogParser.ParseDefined). */
  ghost predicate Readable(service: LogService, body: string) {
    body == Sentinel(service) || service == Overrustle || forall l :: l in SplitLines(body) ==> !ColonLast(l)
  }

  /** The lines of a downloaded log; the sentinel text makes the log invalid. */
  function HitsOfLog(service: LogService, parseTime: TimeParser, channel: string, body: string): seq<Hit> {
    if body == Sentinel(service) then [] else Tag(channel, Entries(service, parseTime, SplitLines(body)))
  }

  ghost predicate Refer(logs: seq<Download>, targets: seq<Target>) {
    forall i :: 0 <= i < |logs| ==> logs[i].target < |targets|
  }

  function Collected(q: Query, parseTime: TimeParser, targets: seq<Target>, logs: seq<Download>): seq<Hit>
    requires Refer(logs, targets)
  {
    if logs == [] then []
    else
      var last := logs[|logs| - 1];
      Collected(q, parseTime, targets, logs[..|logs| - 1])
      + HitsOfLog(q.service, parseTime, targets[last.target].channel, last.body)
  }

  lemma CollectedSnoc(q: Query, parseTime: TimeParser, targets: seq<Target>, logs: seq<Download>, last: Download)
    requires Refer(logs, targets) && last.target < |targets|
    ensures Refer(logs + [last], targets)
    ensures Collected(q, parseTime, targets, logs + [last])
         == Collected(q, parseTime, targets, logs)
            + HitsOfLog(q.service, parseTime, targets[last.target].channel, last.body)
  {
    assert (logs + [last])[..|logs|] == logs;
  }

  // ---------- the archive, and honest servers ----------

  type Archive = Source -> seq<Record>

  function RecordsIn(rs: seq<Record>, p: TimePeriod): seq<Record> {
    if rs == [] then []
    else RecordsIn(rs[..|rs| - 1], p) + if IsInside(p, rs[|rs| - 1].time) then [rs[|rs| - 1]] else []
  }

  ghost predicate ArchiveOk(service: LogService, parseTime: TimeParser, archive: Archive) {
    forall source :: forall r :: r in archive(source) ==> WellFormed(service, parseTime, r)
  }

  /** The body holds exactly the unit's lines; a service may answer with its sentinel when there are none. */
  ghost predicate Serves(service: LogService, archive: Archive, target: Target, body: string) {
    var rs := RecordsIn(archive(target.source), target.period);
    body == Render(service, rs) || (rs == [] && body == Sentinel(service))
  }

  ghost predicate Served(q: Query, archive: Archive, bodies: seq<string>) {
    |bodies| <= |Targets(q)|
    && forall i :: 0 <= i < |bodies| ==> Serves(q.service, archive, Targets(q)[i], bodies[i])
  }

  // ---------- one direct pass ----------

  function SourceHits(archive: Archive, source: Source): seq<Hit> {
    Tag(source.channel, AllSaid(archive(source)))
  }

  /** All lines of the period in the complete logs of the sources. */
  function DirectHits(archive: Archive, sources: seq<Source>, p: TimePeriod): seq<Hit> {
    if sources == [] then []
    else
      DirectHits(archive, sources[..|sources| - 1], p)
      + InPeriod(SourceHits(archive, sources[|sources| - 1]), p)
  }

  // ---------- downloading and parsing lose nothing ----------

  lemma {:induction false} TagFilter(channel: string, rs: seq<Record>, p: TimePeriod)
    ensures Tag(channel, AllSaid(RecordsIn(rs, p))) == InPeriod(Tag(channel, AllSaid(rs)), p)
    ensures forall r :: r in RecordsIn(rs, p) ==> r in rs
  {
    if rs != [] {
      var front, r := rs[..|rs| - 1], rs[|rs| - 1];
      TagFilter(channel, front, p);
      var hits := Tag(channel, AllSaid(rs));
      assert hits[..|hits| - 1] == Tag(channel, AllSaid(front));
      var kept := RecordsIn(front, p);
      assert Tag(channel, AllSaid(kept + [r])) == Tag(channel, AllSaid(kept)) + [Hit(channel, Said(r))];
    }
  }

  lemma ServedLogHits(service: LogService, parseTime: TimeParser, archive: Archive, target: Target, body: string)
    requires ArchiveOk(service, parseTime, archive) && Serves(service, archive, target, body)
    requires target.channel == target.source.channel
    ensures HitsOfLog(service, parseTime, target.channel, body)
         == InPeriod(SourceHits(archive, target.source), target.period)
    ensures Readable(service, body)
  {
    hide Render, RenderLine, Entries, SplitLines, ParseLine, Sentinel, WellFormed, ColonLast, RecordsIn, InPeriod;
    var rs := RecordsIn(archive(target.source), target.period);
    TagFilter(target.channel, archive(target.source), target.period);
    assert forall r :: r in rs ==> WellFormed(service, parseTime, r);
    SplitRendered(service, parseTime, rs);
    EntriesOfLines(service, parseTime, rs, SplitLines(Render(service, rs)));
    NeverTheSentinel(service, rs);
  }

  /** The units' parts of the sources' logs, target by target. */
  function TargetHits(archive: Archive, targets: seq<Target>): seq<Hit> {
    if targets == [] then []
    else
      var last := targets[|targets| - 1];
      TargetHits(archive, targets[..|targets| - 1]) + InPeriod(SourceHits(archive, last.source), last.period)
  }

  ghost predicate OwnChannel(targets: seq<Target>) {
    forall i :: 0 <= i < |targets| ==> targets[i].channel == targets[i].source.channel
  }

  lemma {:induction false} TargetsOwnChannel(sources: seq<Source>, units: seq<Unit>)
    ensures OwnChannel(TargetsOf(sources, units))
  {
    if sources != [] {
      TargetsOwnChannel(sources[..|sources| - 1], units);
    }
  }

  lemma {:induction false} CollectedIsServed(q: Query, parseTime: TimeParser, archive: Archive, bodies: seq<string>)
    requires ArchiveOk(q.service, parseTime, archive) && Served(q, archive, bodies)
    ensures Refer(Logs(bodies), Targets(q))
    ensures Collected(q, parseTime, Targets(q), Logs(bodies)) == TargetHits(archive, Targets(q)[..|bodies|])
    decreases |bodies|
  {
    hide Targets, HitsOfLog, InPeriod, SourceHits, ArchiveOk, Serves;
    var targets := Targets(q);
    if bodies != [] {
      var n := |bodies| - 1;
      CollectedIsServed(q, parseTime, archive, bodies[..n]);
      assert Logs(bodies)[..n] == Logs(bodies[..n]);
      assert targets[..n + 1][..n] == targets[..n];
      assert OwnChannel(targets) by { OwnChannelOf(q); }
      ServedLogHits(q.service, parseTime, archive, targets[n], bodies[n]);
    }
  }

  lemma OwnChannelOf(q: Query)
    ensures OwnChannel(Targets(q))
  {
    TargetsOwnChannel(Sources(q), UnitsOf(q.allUsers, q.period));
  }

  lemma {:induction false} TargetHitsAppend(archive: Archive, a: seq<Target>, b: seq<Target>)
    ensures TargetHits(archive, a + b) == TargetHits(archive, a) + TargetHits(archive, b)
    decreases |b|
  {
    hide InPeriod, SourceHits;
    if b == [] {
      assert a + b == a;
    } else {
      assert (a + b)[..|a + b| - 1] == a + b[..|b| - 1];
      TargetHitsAppend(archive, a, b[..|b| - 1]);
    }
  }

  lemma {:induction false} UnitTargetHits(archive: Archive, source: Source, units: seq<Unit>)
    ensures TargetHits(archive, UnitTargets(source, units)) == UnitLogs(SourceHits(archive, source), UnitPeriods(units))
    decreases |units|
  {
    hide SourceHits, InPeriod, PeriodOf;
    if units != [] {
      var front := units[..|units| - 1];
      UnitTargetHits(archive, source, front);
      assert UnitTargets(source, units)[..|units| - 1] == UnitTargets(source, front);
      assert UnitPeriods(units)[..|units| - 1] == UnitPeriods(front);
    }
  }

  lemma {:induction false} FilteredTargetHits(archive: Archive, sources: seq<Source>, units: seq<Unit>, p: TimePeriod)
    requires Covers(UnitPeriods(units), p)
    ensures multiset(InPeriod(TargetHits(archive, TargetsOf(sources, units)), p))
         == multiset(DirectHits(archive, sources, p))
    decreases |sources|
  {
    hide Covers, SourceHits, InPeriod, UnitTargets, UnitPeriods, UnitLogs;
    if sources == [] {
      assert InPeriod([], p) == [] by { EmptyFilter(p); }
    } else {
      var front, last := sources[..|sources| - 1], sources[|sources| - 1];
      FilteredTargetHits(archive, front, units, p);
      TargetHitsAppend(archive, TargetsOf(front, units), UnitTargets(last, units));
      InPeriodAppend(TargetHits(archive, TargetsOf(front, units)), TargetHits(archive, UnitTargets(last, units)), p);
      UnitTargetHits(archive, last, units);
      CutAndFiltered(SourceHits(archive, last), UnitPeriods(units), p);
    }
  }

  lemma EmptyFilter(p: TimePeriod)
    ensures InPeriod([], p) == []
  {
  }

  /**
    Cutting the period into units, downloading, parsing and filtering collects
    the lines of the period in the complete logs, each as often as it is there.
   */
  lemma PipelineIsDirect(q: Query, parseTime: TimeParser, archive: Archive, bodies: seq<string>)
    requires ArchiveOk(q.service, parseTime, archive) && Served(q, archive, bodies) && |bodies| == |Targets(q)|
    ensures Refer(Logs(bodies), Targets(q))
    ensures multiset(InPeriod(Collected(q, parseTime, Targets(q), Logs(bodies)), q.period))
         == multiset(DirectHits(archive, Sources(q), q.period))
  {
    hide Covers, InPeriod, Collected, TargetHits, ArchiveOk, Served, TargetsOf, DirectHits;
    CollectedIsServed(q, parseTime, archive, bodies);
    assert Targets(q)[..|bodies|] == Targets(q);
    UnitsCover(q.allUsers, q.period);
    FilteredTargetHits(archive, Sources(q), UnitsOf(q.allUsers, q.period), q.period);
  }

  // ---------- the answers, over every run ----------

  function CountOf(q: Query, hits: seq<Hit>): nat {
    CountIn(InPeriod(hits, q.period), q.target, q.caseless)
  }

  function FoundIn(q: Query, hits: seq<Hit>): seq<Hit> {
    Containing(InPeriod(hits, q.period), q.target, q.caseless)
  }

  lemma AnswersHaveAllLogs(targets: nat, es: seq<Event>, logs: seq<Download>)
    requires After(targets, es).Some? && Answer(logs) in After(targets, es).value.shared.replies
    ensures var received := After(targets, es).value.received;
      |received| == targets && logs == Logs(received)
  {
    AtMostOneReply(targets, es);
  }

  /**
    End to end: whatever the interleaving of the handlers, if a query gets a
    result at all, the count is the number of occurrences in all messages of the
    period in the complete logs of every listed channel and user.
   */
  lemma CountIsDirect(q: Query, parseTime: TimeParser, archive: Archive, es: seq<Event>, logs: seq<Download>)
    requires ArchiveOk(q.service, parseTime, archive)
    requires After(|Targets(q)|, es).Some? && Answer(logs) in After(|Targets(q)|, es).value.shared.replies
    requires Served(q, archive, After(|Targets(q)|, es).value.received)
    ensures Refer(logs, Targets(q))
    ensures CountOf(q, Collected(q, parseTime, Targets(q), logs))
         == CountIn(DirectHits(archive, Sources(q), q.period), q.target, q.caseless)
  {
    hide Targets, After, Collected, InPeriod, CountIn, DirectHits, ArchiveOk, Served;
    AnswersHaveAllLogs(|Targets(q)|, es, logs);
    PipelineIsDirect(q, parseTime, archive, After(|Targets(q)|, es).value.received);
    CountIgnoresOrder(InPeriod(Collected(q, parseTime, Targets(q), logs), q.period),
                      DirectHits(archive, Sources(q), q.period), q.target, q.caseless);
  }

  /** End to end for `find`: the lines found are those of the direct pass, each as often as it is there. */
  lemma FoundIsDirect(q: Query, parseTime: TimeParser, archive: Archive, es: seq<Event>, logs: seq<Download>)
    requires ArchiveOk(q.service, parseTime, archive)
    requires After(|Targets(q)|, es).Some? && Answer(logs) in After(|Targets(q)|, es).value.shared.replies
    requires Served(q, archive, After(|Targets(q)|, es).value.received)
    ensures Refer(logs, Targets(q))
    ensures multiset(FoundIn(q, Collected(q, parseTime, Targets(q), logs)))
         == multiset(Containing(DirectHits(archive, Sources(q), q.period), q.target, q.caseless))
  {
    hide Targets, After, Collected, InPeriod, Containing, DirectHits, ArchiveOk, Served;
    AnswersHaveAllLogs(|Targets(q)|, es, logs);
    PipelineIsDirect(q, parseTime, archive, After(|Targets(q)|, es).value.received);
    ContainingIgnoresOrder(InPeriod(Collected(q, parseTime, Targets(q), logs), q.period),
                           DirectHits(archive, Sources(q), q.period), q.target, q.caseless);
  }

  // ---------- prefixes of a run ----------

  lemma {:induction false} PrefixOfRun(targets: nat, es: seq<Event>, i: nat)
    requires After(targets, es).Some? && i <= |es|
    ensures After(targets, es[..i]).Some?
    ensures After(targets, es[..i]).value.received <= After(targets, es).value.received
    decreases |es| - i
  {
    hide Step, Enabled;
    if i == |es| {
      assert es[..i] == es;
    } else {
      PrefixOfRun(targets, es, i + 1);
      assert es[..i + 1][..i] == es[..i];
      StepExtends(After(targets, es[..i]).value, es[i]);
    }
  }

  lemma StepExtends(s: State, e: Event)
    requires Enabled(s.net, e)
    ensures s.received <= Step(s, e).received
  {
  }

  lemma NextEvent(targets: nat, es: seq<Event>, i: nat)
    requires After(targets, es).Some? && i < |es|
    ensures var s := After(targets, es[..i]);
      s.Some? && Enabled(s.value.net, es[i]) && After(targets, es[..i + 1]) == Some(Step(s.value, es[i]))
  {
    hide Step, Enabled;
    PrefixOfRun(targets, es, i);
    PrefixOfRun(targets, es, i + 1);
    assert es[..i + 1][..i] == es[..i];
  }

  lemma HeldIsReadable(q: Query, parseTime: TimeParser, archive: Archive, bodies: seq<string>, s: State)
    requires ArchiveOk(q.service, parseTime, archive) && Served(q, archive, bodies)
    requires Inv(s) && s.net.held.Some? && s.received <= bodies
    ensures Readable(q.service, s.net.held.value.body)
  {
    hide ArchiveOk, Targets, Readable, Serves, Inv;
    HeldIsServed(s);
    var k := Taken(s.net) - 1;
    assert s.received[k] == bodies[k];
    OwnChannelOf(q);
    ServedLogHits(q.service, parseTime, archive, Targets(q)[k], s.received[k]);
  }

  /** In a run with honest servers, each next event is enabled and each callback gets a readable log. */
  lemma RunPrefix(q: Query, parseTime: TimeParser, archive: Archive, es: seq<Event>, i: nat)
    requires ArchiveOk(q.service, parseTime, archive)
    requires After(|Targets(q)|, es).Some? && i < |es|
    requires Served(q, archive, After(|Targets(q)|, es).value.received)
    ensures var s := After(|Targets(q)|, es[..i]);
      && s.Some? && Enabled(s.value.net, es[i])
      && After(|Targets(q)|, es[..i + 1]) == Some(Step(s.value, es[i]))
      && (es[i].Callback? ==> Readable(q.service, s.value.net.held.value.body))
  {
    hide ArchiveOk, Targets, Step, Readable, Served, After, Inv;
    var n := |Targets(q)|;
    NextEvent(n, es, i);
    PrefixOfRun(n, es, i);
    RunKeepsInv(n, es[..i]);
    if es[i].Callback? {
      HeldIsReadable(q, parseTime, archive, After(n, es).value.received, After(n, es[..i]).value);
    }
  }

  lemma HeldIsServed(s: State)
    requires Inv(s) && s.net.held.Some?
    ensures 0 < Taken(s.net) <= |s.received| && s.net.held.value.body == s.received[Taken(s.net) - 1]
  {
  }
}
