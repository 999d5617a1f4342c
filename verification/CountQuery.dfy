/** The `count` command: its shared callback data, and a whole query driven by any sequence of handler events. */
module CountQuery {
  import opened StringViews
  import opened TimeDetail
  import opened LogParser
  import opened LogRoundTrip
  import opened LogRequest
  import opened Search
  import opened Hits
  import opened Downloader
  import opened QueryProtocol
  import opened Pipeline
  import opened DirectPass

  datatype Sent = CountIs(count: nat) | DownloadFailed

  lemma CountOfAppend(q: Query, a: seq<Hit>, b: seq<Hit>)
    ensures CountOf(q, a + b) == CountOf(q, a) + CountOf(q, b)
  {
    InPeriodAppend(a, b, q.period);
    CountInAppend(InPeriod(a, q.period), InPeriod(b, q.period), q.target, q.caseless);
  }

  lemma CountOfOne(q: Query, h: Hit)
    ensures CountOf(q, [h])
         == if IsInside(q.period, h.entry.time) then |Matches(h.entry.message, q.target, q.caseless)| else 0
  {
    assert [h][..0] == [];
    assert InPeriod([h], q.period) == if IsInside(q.period, h.entry.time) then [h] else [];
    assert CountIn([h], q.target, q.caseless) == |Matches(h.entry.message, q.target, q.caseless)|;
  }

  class CountCallbackSharedData {
    const query: Query
    const parseTime: TimeParser
    const targets: seq<Target>
    var referenceCount: nat
    var sharedCount: nat
    var sent: seq<Sent>
    ghost var delivered: seq<Download>
    ghost var replies: seq<Reply>

    ghost function Counted(logs: seq<Download>): nat
      requires Refer(logs, targets)
    {
      CountOf(query, Collected(query, parseTime, targets, logs))
    }

    ghost predicate SentAs(message: Sent, reply: Reply) {
      match reply
      case ErrorReply => message == DownloadFailed
      case Answer(logs) => Refer(logs, targets) && message == CountIs(Counted(logs))
    }

    ghost predicate Valid()
      reads this
    {
      && Refer(delivered, targets)
      && sharedCount == Counted(delivered)
      && |sent| == |replies|
      && forall i :: 0 <= i < |sent| ==> SentAs(sent[i], replies[i])
    }

    ghost function View(): Shared
      reads this
    {
      Shared(referenceCount, delivered, replies)
    }

    constructor (query: Query, parseTime: TimeParser, targets: seq<Target>)
      ensures Valid() && View() == Shared(|targets|, [], []) && sent == []
      ensures this.query == query && this.parseTime == parseTime && this.targets == targets
    {
      this.query, this.parseTime, this.targets := query, parseTime, targets;
      referenceCount, sharedCount, sent := |targets|, 0, [];
      delivered, replies := [], [];
    }

    /** Parses the log and counts in the messages of the period, without touching shared data. */
    method CountLines(channel: string, data: string) returns (count: nat)
      requires Readable(query.service, data)
      ensures count == CountOf(query, HitsOfLog(query.service, parseTime, channel, data))
    {
      hide ParseEach, SplitFrom, Entries, CountOf, Matches, ColonLast, Sentinel, ParseLine;
      var valid, outcome := ParseLog(query.service, parseTime, data);
      count := 0;
      ghost var hits := HitsOfLog(query.service, parseTime, channel, data);
      CountOfNone();
      if valid {
        ParseDefined(query.service, parseTime, SplitLines(data), 0);
        ViewsReadLines(query.service, parseTime, data, 0);
        var lines := outcome.lines;
        for i := 0 to |lines|
          invariant count == CountOf(query, hits[..i])
        {
          if IsInside(query.period, lines[i].time) {
            var n := CountTargetOccurrences(Text(data, lines[i].message), query.target, query.caseless);
            count := count + n;
          }
          CountOfOne(query, hits[i]);
          CountOfAppend(query, hits[..i], [hits[i]]);
          assert hits[..i + 1] == hits[..i] + [hits[i]];
        }
        assert hits[..|lines|] == hits;
      }
    }

    lemma CountOfNone()
      ensures CountOf(query, []) == 0
    {
    }

    method CountCommandCallback(download: Download)
      requires Valid() && download.target < |targets| && Readable(query.service, download.body)
      modifies this
      ensures Valid() && View() == Apply(old(View()), CallbackWith(download))
    {
      hide CountOf, Readable, HitsOfLog, Collected;
      var channel := targets[download.target].channel;
      var count := CountLines(channel, download.body);
      if referenceCount > 0 {
        CountOfAppend(query, Collected(query, parseTime, targets, delivered),
                      HitsOfLog(query.service, parseTime, channel, download.body));
        sharedCount := sharedCount + count;
        CollectedSnoc(query, parseTime, targets, delivered, download);
        delivered := delivered + [download];
        referenceCount := referenceCount - 1;
        if referenceCount <= 0 {
          sent := sent + [CountIs(sharedCount)];
          replies := replies + [Answer(delivered)];
        }
      }
    }

    method CountCommandErrorHandler()
      requires Valid()
      modifies this
      ensures Valid() && View() == Apply(old(View()), ErrorHandler)
    {
      referenceCount := 0;
      sent := sent + [DownloadFailed];
      replies := replies + [ErrorReply];
    }
  }

  class CountCommand {
    const downloader: LogDownloader
    const shared: CountCallbackSharedData
    ghost var received: seq<string>

    ghost function View(): State
      reads this, downloader, shared
    {
      State(downloader.State(), shared.View(), received)
    }

    ghost predicate Valid()
      reads this, downloader, shared
    {
      shared.Valid() && Inv(View()) && downloader.targetCount == |shared.targets|
    }

    constructor (query: Query, parseTime: TimeParser, targets: seq<Target>)
      ensures Valid() && View() == Init(|targets|) && shared.sent == []
      ensures fresh(downloader) && fresh(shared)
      ensures shared.query == query && shared.parseTime == parseTime && shared.targets == targets
    {
      downloader := new LogDownloader(|targets|);
      shared := new CountCallbackSharedData(query, parseTime, targets);
      received := [];
    }

    /** Runs the handler of one event. */
    method Handle(e: Event)
      requires Valid() && Enabled(downloader.State(), e)
      requires e.Callback? ==> Readable(shared.query.service, downloader.held.value.body)
      modifies this, downloader, shared
      ensures Valid() && View() == Step(old(View()), e)
    {
      hide Inv, Readable, Apply;
      StepKeepsInv(View(), e);
      var call := NoCall;
      match e {
        case Run(ok) => downloader.Run(ok);
        case Resolve(ok) => call := downloader.ResolveHandler(ok);
        case Connect(ok) => call := downloader.ConnectHandler(ok);
        case Handshake(ok) => call := downloader.HandshakeHandler(ok);
        case Write(ok) => call := downloader.WriteHandler(ok);
        case Read(ok, body) =>
          call := downloader.ReadHandler(ok, body);
          received := if ok then received + [body] else received;
        case Lock => downloader.ReadHandlerLocked();
        case Callback =>
          HeldIsTarget(View());
          call := downloader.ReadHandlerCallback();
        case Shutdown => downloader.ShutdownHandler();
      }
      match call {
        case NoCall => NothingApplied(shared.View());
        case ErrorHandler => shared.CountCommandErrorHandler();
        case CallbackWith(download) => shared.CountCommandCallback(download);
      }
    }
  }

  method CountEvents(q: Query, parseTime: TimeParser, events: seq<Event>, ghost archive: Archive)
    returns (command: CountCommand)
    requires ArchiveOk(q.service, parseTime, archive)
    requires QueryProtocol.After(|Targets(q)|, events).Some?
    requires Served(q, archive, QueryProtocol.After(|Targets(q)|, events).value.received)
    ensures fresh(command) && command.Valid() && command.shared.query == q && command.shared.parseTime == parseTime
    ensures command.shared.targets == Targets(q)
    ensures QueryProtocol.After(|Targets(q)|, events) == Some(command.View())
  {
    hide ArchiveOk, Inv, TargetsOf, Step, Enabled, Readable, Served;
    var request := FillLogRequestTargetFields(q.service, q.allUsers, q.period, q.channels, q.users);
    command := new CountCommand(q, parseTime, request.targets);
    ghost var n := |Targets(q)|;
    for i := 0 to |events|
      invariant fresh(command) && fresh(command.downloader) && fresh(command.shared)
      invariant command.Valid() && command.shared.query == q && command.shared.parseTime == parseTime
      invariant command.shared.targets == Targets(q)
      invariant QueryProtocol.After(n, events[..i]) == Some(command.View())
    {
      RunPrefix(q, parseTime, archive, events, i);
      command.Handle(events[i]);
    }
    assert events[..|events|] == events;
  }

  /**
    A whole count query: the request is filled in and the events are handled in
    the order the scheduler happens to run them.
   */
  method CountCommandRun(q: Query, parseTime: TimeParser, events: seq<Event>, ghost archive: Archive)
    returns (sent: seq<Sent>)
    requires ArchiveOk(q.service, parseTime, archive)
    requires QueryProtocol.After(|Targets(q)|, events).Some?
    requires Served(q, archive, Bodies(events))
    ensures |sent| <= 1
    ensures forall m :: m in sent && m.CountIs? ==>
      m.count == CountIn(DirectHits(archive, Sources(q), q.period), q.target, q.caseless)
              == DirectSum(q, archive, CountWeight(q))
    ensures |sent| == |QueryProtocol.After(|Targets(q)|, events).value.shared.replies|
    ensures DownloadFailed in sent <==> exists e :: e in events && NetworkFailed(e)
    ensures Targets(q) != [] && Quiet(QueryProtocol.After(|Targets(q)|, events).value)
            && (forall e :: e in events ==> !FailedEvent(e))
      ==> sent == [CountIs(DirectSum(q, archive, CountWeight(q)))]
  {
    hide ArchiveOk, Inv, DirectHits, DirectSum, CountWeight, Bodies, Targets, CountOf, Served, Quiet, FailedEvent;
    hide QueryProtocol.After;
    DirectCount(q, archive);
    ReceivedAreBodies(|Targets(q)|, events);
    var command := CountEvents(q, parseTime, events, archive);
    ghost var n := |Targets(q)|;
    sent := command.shared.sent;
    AtMostOneReply(n, events);
    FailureIsRemembered(n, events);
    if n > 0 && Quiet(QueryProtocol.After(n, events).value) {
      MaximalRunsReply(n, events);
    }
    if forall e :: e in events ==> !FailedEvent(e) {
      NoFailures(events);
    }
    ghost var replies := command.shared.replies;
    forall k | 0 <= k < |sent| && sent[k].CountIs?
      ensures sent[k].count == CountIn(DirectHits(archive, Sources(q), q.period), q.target, q.caseless)
    {
      assert command.shared.SentAs(sent[k], replies[k]);
      assert replies[k] in replies;
      CountIsDirect(q, parseTime, archive, events, replies[k].logs);
    }
    assert forall k :: 0 <= k < |sent| ==> command.shared.SentAs(sent[k], replies[k]);
  }
}
