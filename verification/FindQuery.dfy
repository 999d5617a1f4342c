/** The `find` command: its shared callback data, and a whole query driven by any sequence of handler events. */
module FindQuery {
  import opened StringViews
  import opened TimeDetail
  import opened LogParser
  import opened LogRoundTrip
  import opened LogRequest
  import opened OwnedLine
  import opened Search
  import opened Hits
  import opened Downloader
  import opened QueryProtocol
  import opened Pipeline
  import opened DirectPass

  /** A found line: its channel, and a copy of the line with views into itself. */
  datatype RawFound = Found(channel: string, line: Line)
  type Found = f: RawFound | ViewsOk(f.line) witness Found("", Line("", View(0, 0), 0, View(0, 0), View(0, 0)))

  datatype Sent = Upload(lines: seq<Found>) | NoHit | DownloadFailed

  function Says(f: Found): Hit {
    Hit(f.channel, LineEntry(f.line))
  }

  function AllSay(fs: seq<Found>): seq<Hit> {
    seq(|fs|, i requires 0 <= i < |fs| => Says(fs[i]))
  }

  ghost predicate SortedByTime(fs: seq<Found>) {
    forall i, j :: 0 <= i < j < |fs| ==> fs[i].line.time <= fs[j].line.time
  }

  // ---------- sorting ----------

  lemma Spliced(sorted: seq<Found>, f: Found, i: nat)
    requires SortedByTime(sorted) && i <= |sorted|
    requires i > 0 ==> sorted[i - 1].line.time <= f.line.time
    requires i < |sorted| ==> f.line.time <= sorted[i].line.time
    ensures SortedByTime(sorted[..i] + [f] + sorted[i..])
  {
    var r := sorted[..i] + [f] + sorted[i..];
    assert forall j :: 0 <= j < i ==> sorted[j].line.time <= f.line.time;
    assert forall j :: i <= j < |sorted| ==> f.line.time <= sorted[j].line.time;
    forall j, k | 0 <= j < k < |r|
      ensures r[j].line.time <= r[k].line.time
    {
      assert r[j] == if j < i then sorted[j] else if j == i then f else sorted[j - 1];
      assert r[k] == if k < i then sorted[k] else if k == i then f else sorted[k - 1];
    }
  }

  lemma SplicedContents(sorted: seq<Found>, f: Found, i: nat)
    requires i <= |sorted|
    ensures multiset(sorted[..i] + [f] + sorted[i..]) == multiset(sorted) + multiset{f}
  {
    assert sorted == sorted[..i] + sorted[i..];
  }

  method InsertByTime(sorted: seq<Found>, f: Found) returns (r: seq<Found>)
    requires SortedByTime(sorted)
    ensures SortedByTime(r) && multiset(r) == multiset(sorted) + multiset{f}
  {
    hide SortedByTime;
    var i := |sorted|;
    while i > 0 && f.line.time < sorted[i - 1].line.time
      invariant 0 <= i <= |sorted|
      invariant i < |sorted| ==> f.line.time < sorted[i].line.time
    {
      i := i - 1;
    }
    Spliced(sorted, f, i);
    SplicedContents(sorted, f, i);
    r := sorted[..i] + [f] + sorted[i..];
  }

  /** `std::sort` by time; callers know no more than its contract, so ties may fall either way. */
  method SortByTime(lines: seq<Found>) returns (sorted: seq<Found>)
    ensures SortedByTime(sorted) && multiset(sorted) == multiset(lines)
  {
    sorted := [];
    for i := 0 to |lines|
      invariant SortedByTime(sorted) && multiset(sorted) == multiset(lines[..i])
    {
      sorted := InsertByTime(sorted, lines[i]);
      assert lines[..i + 1] == lines[..i] + [lines[i]];
    }
    assert lines[..|lines|] == lines;
  }

  lemma AllSayTakenOut(b: seq<Found>, i: nat)
    requires i < |b|
    ensures multiset(AllSay(b)) == multiset(AllSay(b[..i] + b[i + 1..])) + multiset{Says(b[i])}
  {
    hide Says;
    assert AllSay(b) == AllSay(b[..i]) + [Says(b[i])] + AllSay(b[i + 1..]);
    assert AllSay(b[..i] + b[i + 1..]) == AllSay(b[..i]) + AllSay(b[i + 1..]);
  }

  lemma TakenOut(a: seq<Found>, rest: multiset<Found>, x: Found)
    requires a != [] && x == a[|a| - 1] && multiset(a) == rest + multiset{x}
    ensures multiset(a[..|a| - 1]) == rest
  {
    var front := multiset(a[..|a| - 1]);
    assert a == a[..|a| - 1] + [x];
    assert multiset(a) == front + multiset{x};
    assert front == front + multiset{x} - multiset{x} == rest + multiset{x} - multiset{x} == rest;
  }

  lemma {:induction false} SayIgnoresOrder(a: seq<Found>, b: seq<Found>)
    requires multiset(a) == multiset(b)
    ensures multiset(AllSay(a)) == multiset(AllSay(b))
    decreases |a|
  {
    hide Says, AllSay;
    if a == [] {
      assert |multiset(b)| == 0;
      assert a == b;
    } else {
      var n := |a| - 1;
      assert a[n] in multiset(b);
      var i := TakeOut(b, a[n]);
      TakenOut(a, multiset(b[..i] + b[i + 1..]), a[n]);
      SayIgnoresOrder(a[..n], b[..i] + b[i + 1..]);
      AllSayTakenOut(b, i);
      AllSayTakenOut(a, n);
      assert a[..n] + a[n + 1..] == a[..n];
    }
  }

  lemma AllSaySize(fs: seq<Found>)
    ensures |AllSay(fs)| == |fs|
  {
  }

  lemma AllSayAppend(a: seq<Found>, b: seq<Found>)
    ensures AllSay(a + b) == AllSay(a) + AllSay(b)
  {
  }

  lemma FoundInAppend(q: Query, a: seq<Hit>, b: seq<Hit>)
    ensures FoundIn(q, a + b) == FoundIn(q, a) + FoundIn(q, b)
  {
    InPeriodAppend(a, b, q.period);
    ContainingAppend(InPeriod(a, q.period), InPeriod(b, q.period), q.target, q.caseless);
  }

  lemma FoundInOne(q: Query, h: Hit)
    ensures FoundIn(q, [h])
         == if IsInside(q.period, h.entry.time) && FindFunc(h.entry.message, q.target, q.caseless) then [h] else []
    ensures FoundIn(q, []) == []
  {
    assert [h][..0] == [];
    assert InPeriod([h], q.period) == if IsInside(q.period, h.entry.time) then [h] else [];
    assert Containing([h], q.target, q.caseless)
      == if FindFunc(h.entry.message, q.target, q.caseless) then [h] else [];
  }

  /** What `insert` into the shared lines does to each line. */
  function Copied(fs: seq<Found>): seq<Found> {
    seq(|fs|, i requires 0 <= i < |fs| =>
      CopyOfCopy(fs[i].line);
      var copy: Found := Found(fs[i].channel, CopyLine(fs[i].line));
      copy)
  }

  lemma CopyingSaysTheSame(fs: seq<Found>)
    ensures AllSay(Copied(fs)) == AllSay(fs)
  {
    forall i | 0 <= i < |fs|
      ensures Says(Copied(fs)[i]) == Says(fs[i])
    {
      CopyOfCopy(fs[i].line);
    }
  }

  // ---------- the lookup of the channel ----------

  lemma {:induction false} SourceChannels(allUsers: bool, channels: seq<string>, users: seq<string>)
    ensures forall source :: source in SourcesOf(allUsers, channels, users) ==> source.channel in channels
  {
    if channels != [] {
      SourceChannels(allUsers, channels[..|channels| - 1], users);
    }
  }

  lemma {:induction false} TargetSources(sources: seq<Source>, units: seq<Unit>)
    ensures forall t :: t in TargetsOf(sources, units) ==> t.source in sources
  {
    if sources != [] {
      TargetSources(sources[..|sources| - 1], units);
    }
  }

  /** The callback's lookup of the log's channel always finds it. */
  lemma LookupNeverFails(q: Query, i: nat)
    requires i < |Targets(q)|
    ensures Targets(q)[i].channel in q.channels
  {
    TargetSources(Sources(q), UnitsOf(q.allUsers, q.period));
    SourceChannels(q.allUsers, q.channels, q.users);
    OwnChannelOf(q);
    assert Targets(q)[i] in Targets(q);
  }

  class FindCallbackSharedData {
    const query: Query
    const parseTime: TimeParser
    const targets: seq<Target>
    const channels: set<string>
    var referenceCount: nat
    var sharedLinesFound: seq<Found>
    var sent: seq<Sent>
    ghost var delivered: seq<Download>
    ghost var replies: seq<Reply>

    ghost function Wanted(logs: seq<Download>): seq<Hit>
      requires Refer(logs, targets)
    {
      FoundIn(query, Collected(query, parseTime, targets, logs))
    }

    ghost predicate SentAs(message: Sent, reply: Reply) {
      match reply
      case ErrorReply => message == DownloadFailed
      case Answer(logs) =>
        && Refer(logs, targets)
        && match message
           case Upload(lines) =>
             lines != [] && SortedByTime(lines) && multiset(AllSay(lines)) == multiset(Wanted(logs))
           case NoHit => Wanted(logs) == []
           case DownloadFailed => false
    }

    /** After the reply the found lines are not used any more; dumping sorts them in place. */
    ghost predicate Valid()
      reads this
    {
      && Refer(delivered, targets)
      && (referenceCount > 0 ==> AllSay(sharedLinesFound) == Wanted(delivered))
      && |sent| == |replies|
      && (forall i :: 0 <= i < |sent| ==> SentAs(sent[i], replies[i]))
      && (forall t :: t in targets ==> t.channel in channels)
    }

    ghost function View(): Shared
      reads this
    {
      Shared(referenceCount, delivered, replies)
    }

    constructor (query: Query, parseTime: TimeParser, targets: seq<Target>)
      requires targets == Targets(query)
      ensures Valid() && View() == Shared(|targets|, [], []) && sent == []
      ensures this.query == query && this.parseTime == parseTime && this.targets == targets
    {
      hide FoundIn, Targets;
      this.query, this.parseTime, this.targets := query, parseTime, targets;
      channels := set c | c in query.channels;
      referenceCount, sharedLinesFound, sent := |targets|, [], [];
      delivered, replies := [], [];
      new;
      FoundInOne(query, Hit("", Entry(0, "", "")));
      forall i | 0 <= i < |targets|
        ensures targets[i].channel in channels
      {
        LookupNeverFails(query, i);
      }
    }

    /** Parses the log and copies the matching lines of the period, without touching shared data. */
    method FindLines(channel: string, data: string) returns (linesFound: seq<Found>)
      requires Readable(query.service, data) && channel in channels
      ensures AllSay(linesFound) == FoundIn(query, HitsOfLog(query.service, parseTime, channel, data))
    {
      hide ParseEach, SplitFrom, Entries, FoundIn, ColonLast, Sentinel, ParseLine, CopyLineView, FindFunc;
      var valid, outcome := ParseLog(query.service, parseTime, data);
      linesFound := [];
      ghost var hits := HitsOfLog(query.service, parseTime, channel, data);
      FoundInOne(query, Hit("", Entry(0, "", "")));
      if valid {
        assert channel in channels;
        ParseDefined(query.service, parseTime, SplitLines(data), 0);
        ViewsReadLines(query.service, parseTime, data, 0);
        ViewsInsideOwnLine(query.service, parseTime, SplitLines(data), 0);
        LengthOfSplit(data, 0);
        var lines := outcome.lines;
        for i := 0 to |lines|
          invariant AllSay(linesFound) == FoundIn(query, hits[..i])
        {
          CopyKeepsContent(data, lines[i]);
          FoundInOne(query, hits[i]);
          if IsInside(query.period, lines[i].time) {
            if FindFunc(Text(data, lines[i].message), query.target, query.caseless) {
              var found: Found := Found(channel, CopyLineView(data, lines[i]));
              AllSayAppend(linesFound, [found]);
              assert AllSay([found]) == [hits[i]];
              linesFound := linesFound + [found];
            }
          }
          FoundInAppend(query, hits[..i], [hits[i]]);
          assert hits[..i + 1] == hits[..i] + [hits[i]];
        }
        assert hits[..|lines|] == hits;
      }
    }

    method FindCommandCallback(download: Download)
      requires Valid() && download.target < |targets| && Readable(query.service, download.body)
      modifies this
      ensures Valid() && View() == Apply(old(View()), CallbackWith(download))
    {
      hide FoundIn, Readable, HitsOfLog, Collected, SortedByTime, AllSay;
      var channel := targets[download.target].channel;
      var linesFound := FindLines(channel, download.body);
      if referenceCount > 0 {
        referenceCount := referenceCount - 1;
        FoundInAppend(query, Collected(query, parseTime, targets, delivered),
                      HitsOfLog(query.service, parseTime, channel, download.body));
        CollectedSnoc(query, parseTime, targets, delivered, download);
        AllSayAppend(sharedLinesFound, linesFound);
        AllSayAppend(sharedLinesFound, Copied(linesFound));
        if linesFound != [] {
          CopyingSaysTheSame(linesFound);
          sharedLinesFound := sharedLinesFound + Copied(linesFound);
        } else {
          assert sharedLinesFound + linesFound == sharedLinesFound;
        }
        delivered := delivered + [download];
        assert AllSay(sharedLinesFound) == Wanted(delivered);
        AllSaySize(sharedLinesFound);
        if referenceCount == 0 {
          var message := NoHit;
          if sharedLinesFound != [] {
            var sorted := SortByTime(sharedLinesFound);
            SayIgnoresOrder(sorted, sharedLinesFound);
            assert |multiset(sorted)| == |sharedLinesFound|;
            sharedLinesFound := sorted;
            message := Upload(sorted);
          }
          assert SentAs(message, Answer(delivered));
          sent := sent + [message];
          replies := replies + [Answer(delivered)];
        }
      }
    }

    method FindCommandErrorHandler()
      requires Valid()
      modifies this
      ensures Valid() && View() == Apply(old(View()), ErrorHandler)
    {
      referenceCount := 0;
      sent := sent + [DownloadFailed];
      replies := replies + [ErrorReply];
    }
  }

  class FindCommand {
    const downloader: LogDownloader
    const shared: FindCallbackSharedData
    ghost var received: seq<string>

    ghost function View(): State
      reads this, downloader, shared
    {
      State(downloader.State(), shared.View(), received)
    }

    ghost predicate Valid()
      reads this, downloader, shared
    {
      shared.Valid() && Inv(View()) && downloader.targetCount == |shared.targets|
    }

    constructor (query: Query, parseTime: TimeParser, targets: seq<Target>)
      requires targets == Targets(query)
      ensures Valid() && View() == Init(|targets|) && shared.sent == []
      ensures fresh(downloader) && fresh(shared)
      ensures shared.query == query && shared.parseTime == parseTime && shared.targets == targets
    {
      hide Targets;
      downloader := new LogDownloader(|targets|);
      shared := new FindCallbackSharedData(query, parseTime, targets);
      received := [];
    }

    /** Runs the handler of one event. */
    method Handle(e: Event)
      requires Valid() && Enabled(downloader.State(), e)
      requires e.Callback? ==> Readable(shared.query.service, downloader.held.value.body)
      modifies this, downloader, shared
      ensures Valid() && View() == Step(old(View()), e)
    {
      hide Inv, Readable, Apply;
      StepKeepsInv(View(), e);
      var call := NoCall;
      match e {
        case Run(ok) => downloader.Run(ok);
        case Resolve(ok) => call := downloader.ResolveHandler(ok);
        case Connect(ok) => call := downloader.ConnectHandler(ok);
        case Handshake(ok) => call := downloader.HandshakeHandler(ok);
        case Write(ok) => call := downloader.WriteHandler(ok);
        case Read(ok, body) =>
          call := downloader.ReadHandler(ok, body);
          received := if ok then received + [body] else received;
        case Lock => downloader.ReadHandlerLocked();
        case Callback =>
          HeldIsTarget(View());
          call := downloader.ReadHandlerCallback();
        case Shutdown => downloader.ShutdownHandler();
      }
      match call {
        case NoCall => NothingApplied(shared.View());
        case ErrorHandler => shared.FindCommandErrorHandler();
        case CallbackWith(download) => shared.FindCommandCallback(download);
      }
    }
  }

  method FindEvents(q: Query, parseTime: TimeParser, events: seq<Event>, ghost archive: Archive)
    returns (command: FindCommand)
    requires ArchiveOk(q.service, parseTime, archive)
    requires QueryProtocol.After(|Targets(q)|, events).Some?
    requires Served(q, archive, QueryProtocol.After(|Targets(q)|, events).value.received)
    ensures fresh(command) && command.Valid() && command.shared.query == q && command.shared.parseTime == parseTime
    ensures command.shared.targets == Targets(q)
    ensures QueryProtocol.After(|Targets(q)|, events) == Some(command.View())
  {
    hide ArchiveOk, Inv, TargetsOf, Step, Enabled, Readable, Served;
    var request := FillLogRequestTargetFields(q.service, q.allUsers, q.period, q.channels, q.users);
    command := new FindCommand(q, parseTime, request.targets);
    ghost var n := |Targets(q)|;
    for i := 0 to |events|
      invariant fresh(command) && fresh(command.downloader) && fresh(command.shared)
      invariant command.Valid() && command.shared.query == q && command.shared.parseTime == parseTime
      invariant command.shared.targets == Targets(q)
      invariant QueryProtocol.After(n, events[..i]) == Some(command.View())
    {
      RunPrefix(q, parseTime, archive, events, i);
      command.Handle(events[i]);
    }
    assert events[..|events|] == events;
  }

  /**
    A whole find query: the request is filled in and the events are handled in
    the order the scheduler happens to run them.
   */
  method FindCommandRun(q: Query, parseTime: TimeParser, events: seq<Event>, ghost archive: Archive)
    returns (sent: seq<Sent>)
    requires ArchiveOk(q.service, parseTime, archive)
    requires QueryProtocol.After(|Targets(q)|, events).Some?
    requires Served(q, archive, Bodies(events))
    ensures |sent| <= 1 && |sent| == |QueryProtocol.After(|Targets(q)|, events).value.shared.replies|
    ensures DownloadFailed in sent <==> exists e :: e in events && NetworkFailed(e)
    ensures var direct := Containing(DirectHits(archive, Sources(q), q.period), q.target, q.caseless);
      && (NoHit in sent ==> direct == [])
      && (forall m :: m in sent && m.Upload? ==>
            m.lines != [] && SortedByTime(m.lines) && multiset(AllSay(m.lines)) == multiset(direct))
    ensures forall m, x :: m in sent && m.Upload? ==>
      multiset(AllSay(m.lines))[x] == DirectSum(q, archive, FindWeight(q, x))
    ensures NoHit in sent ==> forall x :: DirectSum(q, archive, FindWeight(q, x)) == 0
    ensures Targets(q) != [] && Quiet(QueryProtocol.After(|Targets(q)|, events).value)
            && (forall e :: e in events ==> !FailedEvent(e))
      ==> var direct := Containing(DirectHits(archive, Sources(q), q.period), q.target, q.caseless);
          |sent| == 1 && !sent[0].DownloadFailed? && (sent[0].NoHit? <==> direct == [])
  {
    hide ArchiveOk, Inv, DirectHits, DirectSum, FindWeight, Bodies, Targets, FoundIn, Served, Containing;
    hide QueryProtocol.After, AllSay, SortedByTime;
    hide Quiet, FailedEvent;
    ReceivedAreBodies(|Targets(q)|, events);
    var command := FindEvents(q, parseTime, events, archive);
    ghost var n := |Targets(q)|;
    sent := command.shared.sent;
    AtMostOneReply(n, events);
    FailureIsRemembered(n, events);
    if n > 0 && Quiet(QueryProtocol.After(n, events).value) {
      MaximalRunsReply(n, events);
    }
    if forall e :: e in events ==> !FailedEvent(e) {
      NoFailures(events);
    }
    ghost var replies := command.shared.replies;
    forall k | 0 <= k < |sent| && !sent[k].DownloadFailed?
      ensures var direct := Containing(DirectHits(archive, Sources(q), q.period), q.target, q.caseless);
        match sent[k]
        case NoHit => direct == []
        case Upload(lines) =>
          lines != [] && SortedByTime(lines) && multiset(AllSay(lines)) == multiset(direct) && direct != []
        case DownloadFailed => true
    {
      assert command.shared.SentAs(sent[k], replies[k]);
      assert replies[k] in replies;
      FoundIsDirect(q, parseTime, archive, events, replies[k].logs);
      assert multiset(Containing(DirectHits(archive, Sources(q), q.period), q.target, q.caseless))
          == multiset(command.shared.Wanted(replies[k].logs));
      EmptyByMultiset(Containing(DirectHits(archive, Sources(q), q.period), q.target, q.caseless));
      if sent[k].Upload? {
        AllSaySize(sent[k].lines);
        assert |multiset(AllSay(sent[k].lines))| > 0;
      }
    }
    assert forall k :: 0 <= k < |sent| ==> command.shared.SentAs(sent[k], replies[k]);
    forall x: Hit
      ensures multiset(Containing(DirectHits(archive, Sources(q), q.period), q.target, q.caseless))[x]
           == DirectSum(q, archive, FindWeight(q, x))
    {
      DirectFinds(q, archive, x);
    }
  }

  lemma EmptyByMultiset(hits: seq<Hit>)
    ensures multiset(hits) == multiset{} ==> hits == []
  {
    if hits != [] {
      assert hits[0] in multiset(hits);
    }
  }
}
