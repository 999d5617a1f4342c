/** Exactly which completions are followed by a pause. */
module Pauses {
  import opened TimeDetail
  import opened StringViews
  import opened WireForm
  import opened SendQueue
  import opened SendResults
  import opened Reconnects
  import opened Pacing

  ghost predicate CalmTimely(c: Config, es: seq<Event>) {
    After(c, es).Some? && Calm(c, es, 0) && TimelyRun(c, es)
  }

  /** The writes of the run from number n on start at `time` or later. */
  ghost predicate StartsFrom(c: Config, es: seq<Event>, n: nat, time: TimePoint)
    requires After(c, es).Some?
  {
    var begun := After(c, es).value.begun;
    forall j :: n <= j < |begun| ==> time <= begun[j]
  }

  /** Write n of the continued run starts at `time`; nothing unusual is needed for it. */
  ghost predicate WritesAt(c: Config, es: seq<Event>, more: seq<Event>, n: nat, time: TimePoint) {
    && CalmTimely(c, es + more)
    && ReconnectMessage !in more && InOrder(more)
    && var begun := After(c, es + more).value.begun;
       n < |begun| && begun[n] == time
  }

  lemma ExtendCalmTimely(c: Config, es: seq<Event>, e: Event)
    requires CalmTimely(c, es)
    requires var s := After(c, es).value; Enabled(s, e) && !Overruns(s, e) && Timely(s, e)
    ensures CalmTimely(c, es + [e]) && After(c, es + [e]) == Some(Step(c, After(c, es).value, e))
  {
    hide Step, Enabled, Overruns, Timely;
    Extend(c, es, e);
    assert (es + [e])[..|es|] == es;
  }

  // ---------- a completion during a suspension ----------

  /** The connection is being made again, and the pause is over. */
  ghost predicate Reconnecting(s: State, now: TimePoint, n: nat) {
    && s.suspended && !s.busy && s.queue == [] && s.pending == multiset{} && !s.fault
    && s.reconnects == 0 && s.connecting == 1
    && s.clock <= now && s.lastTime + PAUSE <= now && |s.begun| == n
  }

  ghost predicate Possible(s: State, e: Event) {
    Enabled(s, e) && !Overruns(s, e) && Timely(s, e)
  }

  /** The next session writes at once if the first handler posted is that of a message. */
  lemma SessionWrites(c: Config, s: State, now: TimePoint, n: nat)
    requires Reconnecting(s, now, n) && (s.mail == [] || s.mail[0].Enqueue?)
    ensures Possible(s, Handshake(true, []))
    ensures
      var s1 := Step(c, s, Handshake(true, []));
      && Possible(s1, RunJob(0, now))
      && Step(c, s1, RunJob(0, now)).begun == s.begun + [now]
  {
    hide Decorate, ChannelName, Without;
    var s1 := Step(c, s, Handshake(true, []));
    assert s1.mail == s.mail + Greeting(c, []) && s1.mail[0].Enqueue?;
    assert s1.queue != [] && !s1.suspended && !s1.busy && s1.begun == s.begun && s1.lastTime == s.lastTime;
  }

  /** Otherwise it is suspended, too, and the connection made again. */
  lemma SessionSuspends(c: Config, s: State, now: TimePoint, n: nat)
    requires Reconnecting(s, now, n) && s.mail != [] && s.mail[0].Suspend?
    ensures Possible(s, Handshake(true, []))
    ensures
      var s1 := Step(c, s, Handshake(true, []));
      && Possible(s1, RunJob(0, now))
      && var s2 := Step(c, s1, RunJob(0, now));
         && Possible(s2, RunReconnect)
         && var s3 := Step(c, s2, RunReconnect);
            Reconnecting(s3, now, n) && Suspends(s3.mail) < Suspends(s.mail)
  {
    hide Greeting;
    var s1 := Step(c, s, Handshake(true, []));
    assert s1.mail == s.mail + Greeting(c, []) && s1.mail[0] == Suspend;
    assert Without(s1.mail, 0) == s.mail[1..] + Greeting(c, []);
    GreetingSuspendsNothing(c, s.mail[1..], []);
  }

  lemma {:induction false} NextSessionWrites(c: Config, es: seq<Event>, now: TimePoint, n: nat)
    returns (more: seq<Event>)
    requires CalmTimely(c, es) && Reconnecting(After(c, es).value, now, n)
    ensures WritesAt(c, es, more, n, now)
    decreases Suspends(After(c, es).value.mail)
  {
    hide Step, Enabled, Overruns, Timely, After, Calm, TimelyRun;
    var s := After(c, es).value;
    var es1 := es + [Handshake(true, [])];
    var es2 := es1 + [RunJob(0, now)];
    if s.mail == [] || s.mail[0].Enqueue? {
      SessionWrites(c, s, now, n);
      ExtendCalmTimely(c, es, Handshake(true, []));
      ExtendCalmTimely(c, es1, RunJob(0, now));
      more := [Handshake(true, []), RunJob(0, now)];
      assert es + more == es2;
    } else {
      SessionSuspends(c, s, now, n);
      ExtendCalmTimely(c, es, Handshake(true, []));
      ExtendCalmTimely(c, es1, RunJob(0, now));
      ExtendCalmTimely(c, es2, RunReconnect);
      more := NextSessionWrites(c, es2 + [RunReconnect], now, n);
      assert es2 + [RunReconnect] + more == es + ([Handshake(true, []), RunJob(0, now), RunReconnect] + more);
      more := [Handshake(true, []), RunJob(0, now), RunReconnect] + more;
    }
  }

  /** After the completion the drained sender reconnects. */
  lemma DrainedReconnects(c: Config, s: State, e: Event)
    requires Inv(c, s) && OnTime(s) && s.suspended
    requires e.WriteCompletes? && Enabled(s, e) && Timely(s, e)
    ensures
      var t := Step(c, s, e);
      && Possible(t, RunReconnect)
      && Reconnecting(Step(c, t, RunReconnect), e.now, |s.begun|)
  {
    hide Messages, Idle, Paced, PacedAcross, Noticed;
    OnePending(s, WriteHandler);
  }

  lemma SuspendedCompletion(c: Config, es: seq<Event>, e: Event) returns (more: seq<Event>)
    requires CalmTimely(c, es) && After(c, es).value.suspended
    requires e.WriteCompletes? && Enabled(After(c, es).value, e) && Timely(After(c, es).value, e)
    ensures WritesAt(c, es + [e], more, |After(c, es).value.begun|, e.now)
  {
    hide Step, Enabled, Timely, After, Calm, TimelyRun, Inv, OnTime, Reconnecting;
    var s := After(c, es).value;
    RunKeepsInv(c, es);
    WritesArePaced(c, es);
    DrainedReconnects(c, s, e);
    ExtendCalmTimely(c, es, e);
    ExtendCalmTimely(c, es + [e], RunReconnect);
    more := NextSessionWrites(c, es + [e] + [RunReconnect], e.now, |s.begun|);
    assert es + [e] + [RunReconnect] + more == es + [e] + ([RunReconnect] + more);
    more := [RunReconnect] + more;
  }

  // ---------- a completion outside a suspension ----------

  lemma {:induction false} EndingsGrow(c: Config, es: seq<Event>, more: seq<Event>)
    requires After(c, es + more).Some?
    ensures After(c, es).Some? && Endings(c, es) <= Endings(c, es + more)
    decreases |more|
  {
    hide Step, Enabled;
    if more == [] {
      assert es + more == es;
    } else {
      assert (es + more)[..|es + more| - 1] == es + more[..|more| - 1];
      EndingsGrow(c, es, more[..|more| - 1]);
    }
  }

  lemma EndingsNext(c: Config, es: seq<Event>, e: Event)
    requires After(c, es).Some? && Enabled(After(c, es).value, e) && e.WriteCompletes?
    ensures After(c, es + [e]).Some?
    ensures Endings(c, es + [e])
         == Endings(c, es) + [if e.ok && !After(c, es).value.suspended then Some(e.now) else None]
  {
    hide Step, Enabled;
    Extend(c, es, e);
    assert (es + [e])[..|es|] == es;
  }

  lemma InFlight(c: Config, s: State)
    requires Inv(c, s)
    ensures |s.begun| == |s.wire| && !s.fault
    ensures WriteHandler in s.pending ==> |s.begun| == |s.ended| + 1
  {
    hide Messages, Link, Idle;
  }

  /** The completion is noticed, so every later write keeps its distance. */
  lemma NoticedCompletion(c: Config, es: seq<Event>, e: Event, more: seq<Event>)
    requires CalmTimely(c, es) && !After(c, es).value.suspended && CalmTimely(c, es + [e] + more)
    requires e.WriteCompletes? && e.ok && Enabled(After(c, es).value, e)
    ensures StartsFrom(c, es + [e] + more, |After(c, es).value.begun|, e.now + PAUSE)
  {
    hide Step, After, Calm, TimelyRun, Inv, Endings;
    var s, whole := After(c, es).value, es + [e] + more;
    RunKeepsInv(c, es);
    RunKeepsInv(c, whole);
    InFlight(c, s);
    InFlight(c, After(c, whole).value);
    EndedIsEndings(c, es);
    EndedIsEndings(c, whole);
    EndingsNext(c, es, e);
    EndingsGrow(c, es + [e], more);
    var n := |s.begun|;
    assert After(c, whole).value.ended[n - 1] == Some(e.now);
    forall j | n <= j < |After(c, whole).value.begun|
      ensures e.now + PAUSE <= After(c, whole).value.begun[j]
    {
      PausesAcrossSessions(c, whole, n - 1, j);
    }
  }

  lemma CompletionFails(c: Config, s: State, e: Event)
    requires e.WriteCompletes? && !e.ok && Enabled(s, e) && !s.suspended
    ensures var t := Step(c, s, e); t.failed && t.wire == s.wire && !Overruns(s, e)
  {
  }

  /** After a failed write there is none to keep a distance. */
  lemma FailedCompletion(c: Config, es: seq<Event>, e: Event, more: seq<Event>)
    requires CalmTimely(c, es) && !After(c, es).value.suspended && CalmTimely(c, es + [e] + more)
    requires e.WriteCompletes? && !e.ok && Enabled(After(c, es).value, e) && Timely(After(c, es).value, e)
    ensures |After(c, es + [e] + more).value.begun| == |After(c, es).value.begun|
  {
    hide Step, Enabled, Timely, After, Calm, TimelyRun, Inv, Overruns;
    RunKeepsInv(c, es);
    CompletionFails(c, After(c, es).value, e);
    ExtendCalmTimely(c, es, e);
    FailureIsFinal(c, es + [e], more);
    RunKeepsInv(c, es + [e] + more);
    InFlight(c, After(c, es).value);
    InFlight(c, After(c, es + [e] + more).value);
  }

  /**
    Exactly when the pause after a completion can be relied on: whatever calm and
    timely continuation follows, reconnects included, all later writes start at
    least a pause after it, if and only if sending is not suspended at that moment.
    If it is, the next session may write at the very instant of the completion.
   */
  lemma PauseExactly(c: Config, es: seq<Event>, e: Event)
    requires CalmTimely(c, es)
    requires e.WriteCompletes? && Enabled(After(c, es).value, e) && Timely(After(c, es).value, e)
    ensures var s := After(c, es).value;
      (forall more :: CalmTimely(c, es + [e] + more)
                      ==> StartsFrom(c, es + [e] + more, |s.begun|, e.now + PAUSE))
      <==> !s.suspended
    ensures var s := After(c, es).value;
      s.suspended ==> exists more :: WritesAt(c, es + [e], more, |s.begun|, e.now)
  {
    hide Step, Enabled, Timely, After, Calm, TimelyRun;
    var s := After(c, es).value;
    if s.suspended {
      var more := SuspendedCompletion(c, es, e);
      assert WritesAt(c, es + [e], more, |s.begun|, e.now);
      assert !StartsFrom(c, es + [e] + more, |s.begun|, e.now + PAUSE);
    } else {
      forall more | CalmTimely(c, es + [e] + more)
        ensures StartsFrom(c, es + [e] + more, |s.begun|, e.now + PAUSE)
      {
        if e.ok {
          NoticedCompletion(c, es, e, more);
        } else {
          FailedCompletion(c, es, e, more);
        }
      }
    }
  }
}
