/** How far apart writes start, in runs whose clock does not go back and whose timers are not early. */
module Pacing {
  import opened TimeDetail
  import opened StringViews
  import opened WireForm
  import opened SendQueue

  /** The clock does not run backwards and timers do not fire early. */
  predicate Timely(s: State, e: Event) {
    match e
    case RunJob(_, now) => s.clock <= now
    case TimerFires(expiry, now) => s.clock <= now && expiry <= now
    case RunSend(now) => s.clock <= now
    case WriteCompletes(_, now, later) => s.clock <= now <= later
    case _ => true
  }

  ghost predicate TimelyRun(c: Config, es: seq<Event>) {
    es == [] ||
    (var front := es[..|es| - 1];
     TimelyRun(c, front) && After(c, front).Some? && Timely(After(c, front).value, es[|es| - 1]))
  }

  /** Each write of the session starts a pause after the one before it completed. */
  ghost predicate Paced(starts: seq<TimePoint>, dones: seq<TimePoint>) {
    && |dones| <= |starts| <= |dones| + 1
    && (forall i :: 0 <= i < |dones| ==> starts[i] <= dones[i])
    && (forall i :: 0 < i < |starts| ==> dones[i - 1] + PAUSE <= starts[i])
  }

  /** Over all sessions: each write starts a pause after the end of every write before it that was noticed. */
  ghost predicate PacedAcross(begun: seq<TimePoint>, ended: seq<Option<TimePoint>>) {
    && |ended| <= |begun| <= |ended| + 1
    && forall i, j :: 0 <= i < j < |begun| && i < |ended| && ended[i].Some? ==> ended[i].value + PAUSE <= begun[j]
  }

  ghost predicate Noticed(ended: seq<Option<TimePoint>>, lastTime: TimePoint) {
    forall i :: 0 <= i < |ended| && ended[i].Some? ==> ended[i].value <= lastTime
  }

  ghost predicate OnTime(s: State) {
    && Paced(s.starts, s.dones)
    && PacedAcross(s.begun, s.ended) && Noticed(s.ended, s.lastTime)
    && s.lastTime <= s.clock
    && (|s.dones| > 0 ==> s.lastTime == s.dones[|s.dones| - 1])
    && (|s.starts| > 0 ==> s.starts[|s.starts| - 1] <= s.clock)
    && (forall p :: p in s.pending && p.TimerWait? ==> s.lastTime + PAUSE <= p.expiry)
    && (SendHandler in s.pending || WriteHandler in s.pending ==> s.lastTime + PAUSE <= s.clock)
  }

  lemma StartWriteOnTime(s: State, now: TimePoint)
    requires OnTime(s) && |s.starts| == |s.dones| && |s.begun| == |s.ended|
    requires s.lastTime + PAUSE <= now && s.queue != [] && s.pending == multiset{} && s.clock <= now
    ensures OnTime(StartWrite(s, now))
  {
  }

  lemma DoSendQueueOnTime(s: State, now: TimePoint)
    requires OnTime(s) && |s.starts| == |s.dones| && |s.begun| == |s.ended|
    requires s.pending == multiset{} && s.queue != [] && s.clock <= now
    ensures OnTime(DoSendQueue(s, now))
  {
    if s.lastTime + PAUSE <= now {
      StartWriteOnTime(s, now);
    }
  }

  lemma JobOnTime(c: Config, s: State, k: nat, now: TimePoint)
    requires Inv(c, s) && k < |s.mail| && OnTime(s) && s.clock <= now
    ensures OnTime(Step(c, s, RunJob(k, now)))
  {
    hide Link, Idle, WireOk, DoSendQueue, OnTime, Without;
    OnTimeFrame(s, Taken(s, k));
    if s.mail[k].Suspend? {
      OnTimeFrame(s, Step(c, s, RunJob(k, now)));
    } else if !s.suspended {
      var message := s.mail[k].message;
      var t := Taken(s, k).(queue := s.queue + [message], accepted := s.accepted + [message]);
      OnTimeFrame(s, t);
      if !s.busy {
        NothingPending(s);
        OnTimeFrame(s, t.(busy := true));
        DoSendQueueOnTime(t.(busy := true), now);
      }
    }
  }

  /** Being on time does not depend on the rest of the state. */
  lemma OnTimeFrame(s: State, t: State)
    requires OnTime(s)
    requires t.starts == s.starts && t.dones == s.dones && t.lastTime == s.lastTime
    requires t.begun == s.begun && t.ended == s.ended
    requires t.clock >= s.clock && t.pending <= s.pending
    ensures OnTime(t)
  {
  }

  lemma PoppedOnTime(s: State, now: TimePoint)
    requires OnTime(s) && s.queue != [] && s.clock <= now && s.pending == multiset{WriteHandler}
    requires |s.starts| == |s.dones| + 1 && |s.begun| == |s.ended| + 1
    ensures OnTime(Popped(s, now)) && OnTime(WriteEnded(s, None, now))
  {
    hide PacedAcross, Noticed, Paced;
    PacedEnd(s, now);
    AcrossEnd(s, now);
  }

  lemma PacedEnd(s: State, now: TimePoint)
    requires OnTime(s) && s.clock <= now && |s.starts| == |s.dones| + 1
    ensures Paced(s.starts, s.dones + [now])
  {
    hide PacedAcross, Noticed;
  }

  lemma AcrossEnd(s: State, now: TimePoint)
    requires OnTime(s) && s.clock <= now && |s.begun| == |s.ended| + 1
    ensures PacedAcross(s.begun, s.ended + [None]) && Noticed(s.ended + [None], s.lastTime)
    ensures PacedAcross(s.begun, s.ended + [Some(now)]) && Noticed(s.ended + [Some(now)], now)
  {
    hide Paced;
  }

  lemma WriteInFlight(c: Config, s: State)
    requires Inv(c, s) && WriteHandler in s.pending
    ensures s.pending == multiset{WriteHandler} && s.queue != [] && !s.fault
    ensures |s.starts| == |s.dones| + 1 && |s.begun| == |s.ended| + 1
  {
    hide Link, Idle, WireOk;
    OnePending(s, WriteHandler);
  }

  lemma WriteOnTime(c: Config, s: State, ok: bool, now: TimePoint, later: TimePoint)
    requires Inv(c, s) && WriteHandler in s.pending && OnTime(s) && s.clock <= now <= later
    ensures OnTime(Step(c, s, WriteCompletes(ok, now, later)))
  {
    hide Inv, DoSendQueue, OnTime;
    WriteInFlight(c, s);
    PoppedOnTime(s, now);
    var t := Step(c, s, WriteCompletes(ok, now, later));
    if s.suspended || !ok {
      OnTimeFrame(WriteEnded(s, None, now), t);
    } else if s.queue[1..] == [] {
      OnTimeFrame(Popped(s, now), t);
    } else {
      DoSendQueueOnTime(Popped(s, now), later);
    }
  }

  lemma SendOnTime(c: Config, s: State, now: TimePoint)
    requires Inv(c, s) && SendHandler in s.pending && OnTime(s) && s.clock <= now
    ensures OnTime(Step(c, s, RunSend(now)))
  {
    hide Inv, StartWrite, OnTime;
    UnwrittenFront(c, s, SendHandler);
    SendHandlerTime(s);
    OnTimeFrame(s, s.(pending := multiset{}));
    StartWriteOnTime(s.(pending := multiset{}), now);
  }

  lemma SendHandlerTime(s: State)
    requires OnTime(s) && SendHandler in s.pending
    ensures s.lastTime + PAUSE <= s.clock
  {
  }

  lemma UnwrittenFront(c: Config, s: State, p: Pending)
    requires Inv(c, s) && p in s.pending && p != WriteHandler
    ensures s.pending - multiset{p} == multiset{} && |s.starts| == |s.dones| && s.queue != []
    ensures |s.begun| == |s.ended|
  {
    hide Link, Idle, WireOk;
    OnePending(s, p);
  }

  lemma TimerOnTime(c: Config, s: State, expiry: TimePoint, now: TimePoint)
    requires Inv(c, s) && TimerWait(expiry) in s.pending && OnTime(s) && s.clock <= now && expiry <= now
    ensures OnTime(Step(c, s, TimerFires(expiry, now)))
  {
    hide Link, Idle, Messages, Paced, PacedAcross, Noticed;
    OnePending(s, TimerWait(expiry));
  }

  lemma ReconnectOnTime(c: Config, s: State)
    requires Inv(c, s) && s.reconnects > 0 && OnTime(s)
    ensures OnTime(Step(c, s, RunReconnect))
  {
    hide PacedAcross, Noticed, WireOk;
    NothingPending(s);
  }

  lemma StepOnTime(c: Config, s: State, e: Event)
    requires Inv(c, s) && Enabled(s, e) && OnTime(s) && Timely(s, e)
    ensures OnTime(Step(c, s, e))
  {
    hide Inv, OnTime;
    match e
    case RunJob(k, now) => JobOnTime(c, s, k, now);
    case TimerFires(expiry, now) => TimerOnTime(c, s, expiry, now);
    case RunSend(now) => SendOnTime(c, s, now);
    case WriteCompletes(ok, now, later) => WriteOnTime(c, s, ok, now, later);
    case RunReconnect => ReconnectOnTime(c, s);
    case _ => OnTimeFrame(s, Step(c, s, e));
  }

  lemma {:induction false} WritesArePaced(c: Config, es: seq<Event>)
    requires After(c, es).Some? && Calm(c, es, 0) && TimelyRun(c, es)
    ensures OnTime(After(c, es).value)
    decreases |es|
  {
    if es != [] {
      var front := es[..|es| - 1];
      WritesArePaced(c, front);
      RunKeepsInv(c, front);
      StepOnTime(c, After(c, front).value, es[|es| - 1]);
    }
  }

  lemma {:induction false} PacedSpan(starts: seq<TimePoint>, dones: seq<TimePoint>, i: nat, j: nat)
    requires Paced(starts, dones) && i <= j < |starts|
    ensures starts[j] - starts[i] >= (j - i) * PAUSE
    decreases j
  {
    if i < j {
      PacedSpan(starts, dones, i, j - 1);
      assert starts[j - 1] <= dones[j - 1] && dones[j - 1] + PAUSE <= starts[j];
    }
  }

  /** Any writes i to j of a session start at least j - i pauses apart. */
  lemma WriteStartsSpan(c: Config, es: seq<Event>, i: nat, j: nat)
    requires After(c, es).Some? && Calm(c, es, 0) && TimelyRun(c, es)
    requires i <= j < |After(c, es).value.starts|
    ensures var starts := After(c, es).value.starts; starts[j] - starts[i] >= (j - i) * 1_500_000_000
  {
    WritesArePaced(c, es);
    PacedSpan(After(c, es).value.starts, After(c, es).value.dones, i, j);
  }

  // ---------- over all sessions ----------

  /**
    Whatever happens between them, reconnects included, a write that was seen to
    end in an unsuspended session is followed by a pause before any later write.
   */
  lemma PausesAcrossSessions(c: Config, es: seq<Event>, i: nat, j: nat)
    requires After(c, es).Some? && Calm(c, es, 0) && TimelyRun(c, es)
    requires i < j < |After(c, es).value.wire|
    ensures var s := After(c, es).value;
      && |s.begun| == |s.wire| && i < |s.ended|
      && (s.ended[i].Some? ==> s.begun[j] - s.ended[i].value >= PAUSE)
  {
    hide After, Calm, TimelyRun, Messages, Link, Idle, Paced;
    RunKeepsInv(c, es);
    WritesArePaced(c, es);
  }

  /** What the completions of a run show: when a write ended, unless it failed or sending was suspended. */
  function Endings(c: Config, es: seq<Event>): seq<Option<TimePoint>>
    requires After(c, es).Some?
  {
    if es == [] then []
    else
      var front, e := es[..|es| - 1], es[|es| - 1];
      var s := After(c, front).value;
      Endings(c, front)
      + if e.WriteCompletes? then [if e.ok && !s.suspended then Some(e.now) else None] else []
  }

  lemma StepEnds(c: Config, s: State, e: Event)
    requires Enabled(s, e) && !Step(c, s, e).fault
    ensures Step(c, s, e).ended
         == s.ended + if e.WriteCompletes? then [if e.ok && !s.suspended then Some(e.now) else None] else []
  {
    hide EnqueueStep, SuspendStep, StartWrite, WriteCompleted, ReconnectStep, HandshakeStep;
    if !Writes(s, e) {
      OtherSteps(c, s, e);
      return;
    }
    match e
    case RunJob(k, now) => EnqueueEndsNothing(Taken(s, k), s.mail[k].message, now);
    case RunSend(now) => StartWriteLinks(s.(pending := s.pending - multiset{SendHandler}), now);
    case WriteCompletes(ok, now, later) => WriteEnds(s, ok, now, later);
  }

  lemma EnqueueEndsNothing(s: State, message: string, now: TimePoint)
    ensures EnqueueStep(s, message, now).ended == s.ended
  {
    hide DoSendQueue;
    var t := s.(queue := s.queue + [message], accepted := s.accepted + [message]);
    DoSendQueueLinks(t.(busy := true), now);
  }

  lemma WriteEnds(s: State, ok: bool, now: TimePoint, later: TimePoint)
    requires !WriteCompleted(s, ok, now, later).fault
    ensures WriteCompleted(s, ok, now, later).ended == s.ended + [if ok && !s.suspended then Some(now) else None]
  {
    hide DoSendQueue;
    if s.queue != [] {
      DoSendQueueLinks(Popped(s, now), later);
    }
  }

  lemma {:induction false} EndedIsEndings(c: Config, es: seq<Event>)
    requires After(c, es).Some? && !After(c, es).value.fault
    ensures After(c, es).value.ended == Endings(c, es)
    decreases |es|
  {
    hide Step;
    if es != [] {
      var front := es[..|es| - 1];
      EndedIsEndings(c, front);
      StepEnds(c, After(c, front).value, es[|es| - 1]);
    }
  }

  // ---------- the exception ----------

  /** The first write of a session ends while the sender is drained; the next session writes at once. */
  function Unpaced(): seq<Event> {
    [Handshake(true, []), RunJob(0, PAUSE), RunJob(0, PAUSE), ReconnectMessage, RunJob(0, PAUSE),
     WriteCompletes(true, PAUSE, PAUSE), RunReconnect, Handshake(true, []), RunJob(0, PAUSE)]
  }

  function UnpacedState(c: Config, i: nat): State {
    var join := Greeting(c, [])[0].message;
    var hello := Greeting(c, [])[1];
    var queue := [Pass(c), Nick(c)];
    var first := Decorate(Pass(c), "");
    var second := Decorate(Pass(c), first);
    var met := INITIAL.(connecting := 0, linked := true, suspended := false, reading := true,
                        queue := queue, accepted := queue, mail := Greeting(c, []));
    var writing := met.(mail := [hello], busy := true, last := first, clock := PAUSE,
                        queue := [first + CRLF, Nick(c), join], accepted := queue + [join],
                        pending := multiset{WriteHandler},
                        starts := [PAUSE], begun := [PAUSE], wire := [first]);
    var greeted := writing.(mail := [],
                            queue := writing.queue + [hello.message], accepted := writing.accepted + [hello.message]);
    var asked := greeted.(reading := false, mail := [Suspend], asked := 1);
    var draining := asked.(mail := [], suspended := true);
    var drained := draining.(pending := multiset{}, reconnects := 1, drained := true, ended := [None]);
    var connecting := drained.(queue := [], busy := false, reconnects := 0, connecting := 1, accepted := [],
                               starts := [], base := 1, drained := false, handled := 1);
    var again := connecting.(connecting := 0, suspended := false, reading := true,
                             queue := queue, accepted := queue, mail := Greeting(c, []));
    if i == 0 then INITIAL
    else if i == 1 then met
    else if i == 2 then writing
    else if i == 3 then greeted
    else if i == 4 then asked
    else if i == 5 then draining
    else if i == 6 then drained
    else if i == 7 then connecting
    else if i == 8 then again
    else again.(mail := [hello], busy := true, last := second,
                queue := [second + CRLF, Nick(c), join], accepted := queue + [join],
                pending := multiset{WriteHandler},
                starts := [PAUSE], begun := [PAUSE, PAUSE], wire := [first, second])
  }

  lemma UnpacedSessionStep(c: Config, i: nat)
    requires i < 4
    ensures var s, e := UnpacedState(c, i), Unpaced()[i];
      Enabled(s, e) && Step(c, s, e) == UnpacedState(c, i + 1) && !Overruns(s, e) && Timely(s, e)
  {
    hide Decorate;
    var own := ChannelName(c.nick);
    assert Greeting(c, []) == [Enqueue("JOIN " + own), Enqueue("PRIVMSG " + own + " :monkaMEGA")];
  }

  lemma UnpacedDrainStep(c: Config, i: nat)
    requires 4 <= i < 7
    ensures var s, e := UnpacedState(c, i), Unpaced()[i];
      Enabled(s, e) && Step(c, s, e) == UnpacedState(c, i + 1) && !Overruns(s, e) && Timely(s, e)
  {
    hide Decorate;
    var own := ChannelName(c.nick);
    assert Greeting(c, []) == [Enqueue("JOIN " + own), Enqueue("PRIVMSG " + own + " :monkaMEGA")];
  }

  lemma UnpacedReconnectStep(c: Config, i: nat)
    requires 7 <= i < 9
    ensures var s, e := UnpacedState(c, i), Unpaced()[i];
      Enabled(s, e) && Step(c, s, e) == UnpacedState(c, i + 1) && !Overruns(s, e) && Timely(s, e)
  {
    hide Decorate;
    var own := ChannelName(c.nick);
    assert Greeting(c, []) == [Enqueue("JOIN " + own), Enqueue("PRIVMSG " + own + " :monkaMEGA")];
  }

  lemma {:induction false} TimelyTrace(c: Config, es: seq<Event>, f: nat -> State, i: nat)
    requires Traces(c, es, f) && i <= |es| && forall k :: 0 <= k < |es| ==> Timely(f(k), es[k])
    ensures TimelyRun(c, es[..i])
    decreases i
  {
    hide Step, Enabled, Timely;
    if i > 0 {
      TimelyTrace(c, es, f, i - 1);
      TraceRun(c, es, f, i - 1);
      assert es[..i][..i - 1] == es[..i - 1];
    }
  }

  /** Without the end being noticed there need be no pause at all: both writes start at the same time. */
  lemma UnpacedExample(c: Config)
    ensures After(c, Unpaced()).Some? && Calm(c, Unpaced(), 0) && TimelyRun(c, Unpaced())
    ensures var s := After(c, Unpaced()).value; s.ended == [None] && s.begun == [PAUSE, PAUSE]
  {
    hide Step, Enabled, Overruns, Timely, UnpacedState;
    var f := (i: nat) => UnpacedState(c, i);
    forall i | 0 <= i < 9
      ensures Enabled(f(i), Unpaced()[i]) && Step(c, f(i), Unpaced()[i]) == f(i + 1)
      ensures !Overruns(f(i), Unpaced()[i]) && Timely(f(i), Unpaced()[i])
    {
      if i < 4 {
        UnpacedSessionStep(c, i);
      } else if i < 7 {
        UnpacedDrainStep(c, i);
      } else {
        UnpacedReconnectStep(c, i);
      }
    }
    UnpacedEnds(c);
    TraceRun(c, Unpaced(), f, 9);
    TimelyTrace(c, Unpaced(), f, 9);
    assert Unpaced()[..9] == Unpaced();
  }

  lemma UnpacedEnds(c: Config)
    ensures UnpacedState(c, 0) == INITIAL
    ensures UnpacedState(c, 9).ended == [None] && UnpacedState(c, 9).begun == [PAUSE, PAUSE]
  {
  }
}
