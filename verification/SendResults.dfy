/** What the send queue guarantees in every run. */
module SendResults {
  import opened TimeDetail
  import opened StringViews
  import opened WireForm
  import opened SendQueue

  // ---------- one thing at a time, in order ----------

  /**
    In every calm run the busy flag says whether exactly one thing is
    outstanding, never two, and the front of the queue was never taken when the
    queue was empty.  (What a run that is not calm leads to: Reconnects.OverrunExactly.)
   */
  lemma BusyMeansOneOutstanding(c: Config, es: seq<Event>)
    requires After(c, es).Some? && Calm(c, es, 0)
    ensures var s := After(c, es).value;
      && !s.fault
      && |s.pending| <= 1
      && (s.busy <==> |s.pending| == 1 || s.drained || s.failed)
      && !(|s.pending| == 1 && s.drained) && !(|s.pending| == 1 && s.failed) && !(s.drained && s.failed)
      && (s.drained ==> s.suspended && s.reconnects == 1)
      && (s.busy ==> s.queue != [])
  {
    RunKeepsInv(c, es);
  }

  /**
    Within a session, what was written is determined by the accepted messages:
    the first |starts| of them in order, decorated; the rest is still queued, in
    order.  At most the last write has not completed.
   */
  lemma SessionIsFifo(c: Config, es: seq<Event>)
    requires After(c, es).Some? && Calm(c, es, 0)
    ensures var s := After(c, es).value; var k := |s.starts|;
      && k <= |s.accepted| && s.base + k == |s.wire|
      && s.wire[s.base..] == Wire(Last(s.wire[..s.base], ""), s.accepted[..k])
      && s.queue == (if k > |s.dones| then [s.wire[|s.wire| - 1] + CRLF] else []) + s.accepted[k..]
      && |s.dones| <= k <= |s.dones| + 1
  {
    RunKeepsInv(c, es);
  }

  /** No two consecutive messages on the wire are equal, in any run whatsoever, reconnects included. */
  lemma {:induction false} WireNeverRepeats(c: Config, es: seq<Event>)
    requires After(c, es).Some?
    ensures Fresh(After(c, es).value) && NoRepeats(After(c, es).value.wire)
    decreases |es|
  {
    hide Step, Enabled, NoRepeats;
    if es == [] {
      assert NoRepeats([]) by { NothingRepeats(); }
    } else {
      WireNeverRepeats(c, es[..|es| - 1]);
      StepNeverRepeats(c, After(c, es[..|es| - 1]).value, es[|es| - 1]);
    }
  }

  lemma NothingRepeats()
    ensures NoRepeats([])
  {
  }

  ghost predicate Fresh(s: State) {
    NoRepeats(s.wire) && s.last == Last(s.wire, "")
  }

  lemma StartWriteFresh(s: State, now: TimePoint)
    requires Fresh(s)
    ensures Fresh(StartWrite(s, now)) && Fresh(DoSendQueue(s, now))
  {
    hide NoRepeats, Decorate;
    if s.queue != [] {
      NextIsDifferent(s.wire, s.queue[0]);
    }
  }

  lemma EnqueueFresh(s: State, message: string, now: TimePoint)
    requires Fresh(s)
    ensures Fresh(EnqueueStep(s, message, now))
  {
    hide NoRepeats, DoSendQueue;
    var t := s.(queue := s.queue + [message], accepted := s.accepted + [message]);
    StartWriteFresh(t.(busy := true), now);
  }

  lemma WriteCompletedFresh(s: State, ok: bool, now: TimePoint, later: TimePoint)
    requires Fresh(s)
    ensures Fresh(WriteCompleted(s, ok, now, later))
  {
    hide NoRepeats, DoSendQueue;
    if s.queue != [] {
      StartWriteFresh(Popped(s, now), later);
    }
  }

  lemma StepNeverRepeats(c: Config, s: State, e: Event)
    requires Enabled(s, e) && Fresh(s)
    ensures Fresh(Step(c, s, e))
  {
    hide NoRepeats, EnqueueStep, SuspendStep, StartWrite, WriteCompleted, ReconnectStep, HandshakeStep;
    if !Writes(s, e) {
      OtherSteps(c, s, e);
      return;
    }
    match e
    case RunJob(k, now) => EnqueueFresh(Taken(s, k), s.mail[k].message, now);
    case RunSend(now) => StartWriteFresh(s.(pending := s.pending - multiset{SendHandler}), now);
    case WriteCompletes(ok, now, later) => WriteCompletedFresh(s, ok, now, later);
  }

  /** Every session opens with PASS and then NICK, up to the suffix. */
  lemma SessionOpening(c: Config, es: seq<Event>)
    requires After(c, es).Some? && Calm(c, es, 0)
    ensures var s := After(c, es).value;
      && (!s.suspended ==> |s.accepted| >= 2)
      && s.base + |s.starts| == |s.wire|
      && (|s.starts| > 0 ==> s.wire[s.base] == Decorate("PASS " + c.password, Last(s.wire[..s.base], "")))
      && (|s.starts| > 1 ==> s.wire[s.base + 1] == Decorate("NICK " + c.nick, s.wire[s.base]))
  {
    hide After, Calm, WireOk, Link, Idle, Timing, Decorate;
    RunKeepsInv(c, es);
    var s := After(c, es).value;
    var k := |s.starts|;
    var sent := s.accepted[..k];
    WireOkLength(s.wire, s.base, sent, s.last);
    if k > 0 {
      WireOkAt(s.wire, s.base, sent, s.last, 0);
      assert sent[0] == s.accepted[0] == [Pass(c), Nick(c)][0];
    }
    if k > 1 {
      WireOkAt(s.wire, s.base, sent, s.last, 1);
      assert sent[1] == s.accepted[1] == [Pass(c), Nick(c)][1];
    }
  }

  lemma WireOkLength(wire: seq<string>, base: nat, sent: seq<string>, last: string)
    requires WireOk(wire, base, sent, last)
    ensures |wire| == base + |sent|
  {
  }

  /**
    A timer is set for the end of the pause and is alone; when it fires it leads,
    through one posted send, to writing exactly the next accepted message.
   */
  lemma TimerLeadsToNextWrite(c: Config, es: seq<Event>, expiry: TimePoint, t: TimePoint, now: TimePoint)
    requires After(c, es).Some? && Calm(c, es, 0) && Enabled(After(c, es).value, TimerFires(expiry, t))
    ensures var s := After(c, es).value;
      && s.pending == multiset{TimerWait(expiry)} && expiry == s.lastTime + PAUSE
      && |s.starts| < |s.accepted|
      && var fired := Step(c, s, TimerFires(expiry, t));
         && fired.pending == multiset{SendHandler}
         && Enabled(fired, RunSend(now))
         && var sent := Step(c, fired, RunSend(now));
            && sent.pending == multiset{WriteHandler}
            && sent.wire == s.wire + [Decorate(s.accepted[|s.starts|], s.last)]
  {
    hide After, Calm, WireOk, Link, Idle, Decorate;
    RunKeepsInv(c, es);
    OnePending(After(c, es).value, TimerWait(expiry));
  }

  // ---------- progress ----------

  /** Steps of the bot itself, as opposed to messages, requests and connections from outside. */
  predicate Internal(e: Event) {
    e.RunJob? || e.TimerFires? || e.RunSend? || e.WriteCompletes? || e.RunReconnect?
  }

  function MailWeight(mail: seq<Job>): nat {
    if mail == [] then 0 else JobWeight(mail[0]) + MailWeight(mail[1..])
  }

  function JobWeight(job: Job): nat {
    if job.Enqueue? then 9 else 2
  }

  lemma {:induction false} WeightWithout(mail: seq<Job>, k: nat)
    requires k < |mail|
    ensures MailWeight(Without(mail, k)) == MailWeight(mail) - JobWeight(mail[k])
    decreases k
  {
    if k == 0 {
      assert Without(mail, 0) == mail[1..];
    } else {
      WeightWithout(mail[1..], k - 1);
      assert Without(mail, k)[1..] == Without(mail[1..], k - 1);
    }
  }

  function Stage(s: State): nat {
    if WriteHandler in s.pending then 3
    else if SendHandler in s.pending then 2
    else if s.pending != multiset{} then 1
    else if s.drained then 5
    else if s.failed then 4
    else 0
  }

  function Measure(s: State): int {
    8 * |s.queue| - Stage(s) + MailWeight(s.mail) + s.reconnects
  }

  lemma MeasureIsNatural(c: Config, s: State)
    requires Inv(c, s)
    ensures Measure(s) >= 0
  {
    if Stage(s) > 0 {
      assert s.busy;
    }
  }

  lemma DoSendQueueMeasure(s: State, now: TimePoint)
    requires s.pending == multiset{} && !s.drained && !s.failed && s.queue != []
    ensures var t := DoSendQueue(s, now);
      |t.queue| == |s.queue| && Stage(t) >= 1 && t.mail == s.mail && t.reconnects == s.reconnects
  {
  }

  lemma JobDecreases(c: Config, s: State, k: nat, now: TimePoint)
    requires Inv(c, s) && k < |s.mail|
    ensures Measure(Step(c, s, RunJob(k, now))) < Measure(s)
  {
    hide Messages, Idle, Link, DoSendQueue, Without, MailWeight;
    WeightWithout(s.mail, k);
    if s.mail[k].Enqueue? && !s.suspended && !s.busy {
      NothingPending(s);
      var message := s.mail[k].message;
      DoSendQueueMeasure(Taken(s, k).(queue := s.queue + [message],
                                      accepted := s.accepted + [message], busy := true), now);
    }
  }

  lemma WriteDecreases(c: Config, s: State, ok: bool, now: TimePoint, later: TimePoint)
    requires Inv(c, s) && WriteHandler in s.pending
    ensures Measure(Step(c, s, WriteCompletes(ok, now, later))) < Measure(s)
  {
    hide Idle, Link, DoSendQueue, WireOk;
    OnePending(s, WriteHandler);
    if !s.suspended && ok && s.queue[1..] != [] {
      DoSendQueueMeasure(Popped(s, now), later);
    }
  }

  lemma InternalStepDecreases(c: Config, s: State, e: Event)
    requires Inv(c, s) && Enabled(s, e) && Internal(e)
    ensures Measure(Step(c, s, e)) < Measure(s)
  {
    match e
    case RunJob(k, now) => JobDecreases(c, s, k, now);
    case WriteCompletes(ok, now, later) => WriteDecreases(c, s, ok, now, later);
    case TimerFires(expiry, _) => OnePending(s, TimerWait(expiry));
    case RunSend(_) => OnePending(s, SendHandler);
    case RunReconnect =>
      NothingPending(s);
      MeasureIsNatural(c, s);
    case _ =>
  }

  /** Left to itself, the bot comes to rest: a run of internal steps is bounded by the measure. */
  lemma {:induction false} InternalStepsEnd(c: Config, es: seq<Event>, more: seq<Event>)
    requires After(c, es + more).Some? && Calm(c, es + more, 0)
    requires forall e :: e in more ==> Internal(e)
    ensures After(c, es).Some? && Calm(c, es, 0)
    ensures |more| + Measure(After(c, es + more).value) <= Measure(After(c, es).value)
    ensures Measure(After(c, es + more).value) >= 0
    decreases |more|
  {
    hide Measure, Step, Enabled, Overruns, Inv, Internal;
    RunKeepsInv(c, es + more);
    MeasureIsNatural(c, After(c, es + more).value);
    if more == [] {
      assert es + more == es;
    } else {
      var front, e := more[..|more| - 1], more[|more| - 1];
      assert (es + more)[..|es + more| - 1] == es + front;
      InternalStepsEnd(c, es, front);
      RunKeepsInv(c, es + front);
      InternalStepDecreases(c, After(c, es + front).value, e);
    }
  }

  ghost predicate AtRest(s: State) {
    forall e :: Internal(e) ==> !Enabled(s, e)
  }

  lemma NothingLeft(c: Config, s: State)
    requires Inv(c, s) && AtRest(s)
    ensures s.mail == [] && s.pending == multiset{} && s.reconnects == 0
  {
    assert !Enabled(s, RunJob(0, 0)) && !Enabled(s, RunSend(0)) && !Enabled(s, WriteCompletes(true, 0, 0));
    assert !Enabled(s, RunReconnect);
    forall p
      ensures p !in s.pending
    {
      if p.TimerWait? {
        assert !Enabled(s, TimerFires(p.expiry, 0));
      }
    }
  }

  /**
    At rest, a live session without a failed write has written every message it
    accepted.  Every RECONNECT has been carried out, except those that joined one
    that was under way, and the one that found its sender stopped by a failed write.
   */
  lemma RestMeansDone(c: Config, es: seq<Event>)
    requires After(c, es).Some? && Calm(c, es, 0) && AtRest(After(c, es).value)
    ensures var s := After(c, es).value;
      && s.base <= |s.wire|
      && (!s.suspended && !s.failed ==>
            && s.queue == [] && |s.dones| == |s.accepted|
            && s.wire[s.base..] == Wire(Last(s.wire[..s.base], ""), s.accepted))
      && s.asked == s.handled + s.lost + One(s.suspended && s.failed)
  {
    RunKeepsInv(c, es);
    var s := After(c, es).value;
    NothingLeft(c, s);
    assert s.accepted[..|s.accepted|] == s.accepted;
  }

  // ---------- failed writes ----------

  /** A write of a session that is not suspended completes with an error. */
  predicate FailedWrite(s: State, e: Event) {
    e.WriteCompletes? && !e.ok && !s.suspended
  }

  lemma EnqueueFailsNothing(s: State, message: string, now: TimePoint)
    ensures EnqueueStep(s, message, now).failed == s.failed
  {
    hide DoSendQueue;
    var t := s.(queue := s.queue + [message], accepted := s.accepted + [message]);
    DoSendQueueLinks(t.(busy := true), now);
  }

  lemma WriteCompletedFailure(s: State, ok: bool, now: TimePoint, later: TimePoint)
    ensures WriteCompleted(s, ok, now, later).failed <==> s.failed || (!ok && !s.suspended)
  {
    hide DoSendQueue;
    if s.queue != [] {
      DoSendQueueLinks(Popped(s, now), later);
    }
  }

  lemma StepFailure(c: Config, s: State, e: Event)
    requires Enabled(s, e)
    ensures Step(c, s, e).failed <==> s.failed || FailedWrite(s, e)
  {
    hide EnqueueStep, SuspendStep, StartWrite, WriteCompleted, ReconnectStep, HandshakeStep;
    if !Writes(s, e) {
      OtherSteps(c, s, e);
      return;
    }
    match e
    case RunJob(k, now) => EnqueueFailsNothing(Taken(s, k), s.mail[k].message, now);
    case RunSend(now) => StartWriteLinks(s.(pending := s.pending - multiset{SendHandler}), now);
    case WriteCompletes(ok, now, later) => WriteCompletedFailure(s, ok, now, later);
  }

  /** In any run, the sender has failed exactly when an unsuspended write of the run did. */
  lemma {:induction false} FailureIsRemembered(c: Config, es: seq<Event>)
    requires After(c, es).Some?
    ensures After(c, es).value.failed
       <==> exists i :: 0 <= i < |es| && After(c, es[..i]).Some? && FailedWrite(After(c, es[..i]).value, es[i])
    decreases |es|
  {
    hide Step, Enabled, FailedWrite;
    if es != [] {
      var n := |es| - 1;
      var front := es[..n];
      FailureIsRemembered(c, front);
      StepFailure(c, After(c, front).value, es[n]);
      assert forall i :: 0 <= i < n ==> front[..i] == es[..i] && front[i] == es[i];
      if FailedWrite(After(c, front).value, es[n]) {
        assert After(c, es[..n]).Some? && FailedWrite(After(c, es[..n]).value, es[n]);
      }
    }
  }

  lemma StepAfterFailure(c: Config, s: State, e: Event)
    requires Inv(c, s) && s.failed && Enabled(s, e)
    ensures var t := Step(c, s, e); t.failed && t.wire == s.wire && t.handled == s.handled && !Overruns(s, e)
  {
    NothingPending(s);
  }

  /** However a run goes on after a failed write, nothing is written any more and no RECONNECT is carried out. */
  lemma {:induction false} FailureIsFinal(c: Config, es: seq<Event>, more: seq<Event>)
    requires After(c, es).Some? && Calm(c, es, 0) && After(c, es).value.failed && After(c, es + more).Some?
    ensures Calm(c, es + more, 0)
    ensures var s, t := After(c, es).value, After(c, es + more).value;
      t.failed && t.wire == s.wire && t.handled == s.handled
    decreases |more|
  {
    hide Step, Enabled, Overruns;
    if more == [] {
      assert es + more == es;
    } else {
      var front, e := more[..|more| - 1], more[|more| - 1];
      assert (es + more)[..|es + more| - 1] == es + front;
      FailureIsFinal(c, es, front);
      RunKeepsInv(c, es + front);
      StepAfterFailure(c, After(c, es + front).value, e);
    }
  }
}
