/** The buffer that drops each message a fixed time after it was sent, driven by one timer. */
module TimedBuffer {
  import opened TimeDetail
  import opened StringViews

  datatype Timed = Timed(time: TimePoint, text: string)

  /**
    timers: the waits outstanding, each with its expiry.  pushed and leaving are
    a history: all messages ever pushed, and when the first |leaving| of them left.
    fault records a pop of an empty queue.
   */
  datatype State = State(timeout: nat, queue: seq<Timed>, timers: multiset<TimePoint>,
                         pushed: seq<Timed>, leaving: seq<TimePoint>, clock: TimePoint, fault: bool)

  datatype Event = Push(msg: Timed) | Fires(expiry: TimePoint, now: TimePoint)

  function Init(timeout: nat, clock: TimePoint): State {
    State(timeout, [], multiset{}, [], [], clock, false)
  }

  /** `push` asserts that a non-empty queue is pushed to in order of time. */
  predicate Enabled(s: State, e: Event) {
    match e
    case Push(msg) => s.queue != [] ==> s.queue[|s.queue| - 1].time <= msg.time
    case Fires(expiry, _) => expiry in s.timers
  }

  function Armed(s: State): State {
    if s.queue == [] then s else s.(timers := s.timers + multiset{s.queue[0].time + s.timeout})
  }

  function Step(s: State, e: Event): State
    requires Enabled(s, e)
  {
    match e
    case Push(msg) =>
      var t := s.(queue := s.queue + [msg], pushed := s.pushed + [msg]);
      if s.queue == [] then Armed(t) else t
    case Fires(expiry, now) =>
      var t := s.(timers := s.timers - multiset{expiry}, clock := now);
      if t.queue == [] then t.(fault := true)
      else Armed(t.(queue := t.queue[1..], leaving := t.leaving + [now]))
  }

  function After(s: State, es: seq<Event>): Option<State> {
    if es == [] then Some(s)
    else
      match After(s, es[..|es| - 1])
      case None => None
      case Some(t) => if Enabled(t, es[|es| - 1]) then Some(Step(t, es[|es| - 1])) else None
  }

  // ---------- the code ----------

  class IRCMessageTimedBuffer {
    const timeout: nat
    var queue: seq<Timed>

    /** The waits of `m_timer` that the event loop holds. */
    var timers: multiset<TimePoint>
    ghost var model: State

    ghost predicate Valid()
      reads this
    {
      model.timeout == timeout && model.queue == queue && model.timers == timers
    }

    constructor (timeout: nat, ghost clock: TimePoint)
      ensures Valid() && model == Init(timeout, clock)
    {
      this.timeout := timeout;
      queue, timers := [], multiset{};
      model := Init(timeout, clock);
    }

    /** Sets the timer to the time and starts a wait. */
    method Arm(expiry: TimePoint)
      modifies `timers, `model
      ensures timers == old(timers) + multiset{expiry}
      ensures model == old(model).(timers := old(model).timers + multiset{expiry})
    {
      timers := timers + multiset{expiry};
      model := model.(timers := model.timers + multiset{expiry});
    }

    method Push(msg: Timed)
      requires Valid() && Enabled(model, Event.Push(msg))
      modifies this
      ensures Valid() && model == Step(old(model), Event.Push(msg))
    {
      if queue == [] {
        Arm(msg.time + timeout);
        queue := queue + [msg];
      } else {
        queue := queue + [msg];
      }
      model := model.(queue := queue, pushed := model.pushed + [msg]);
    }

    method TimerHandler(expiry: TimePoint, now: TimePoint)
      requires Valid() && Enabled(model, Fires(expiry, now)) && queue != []
      modifies this
      ensures Valid() && model == Step(old(model), Fires(expiry, now))
    {
      timers := timers - multiset{expiry};
      queue := queue[1..];
      model := model.(timers := model.timers - multiset{expiry}, clock := now,
                      queue := queue, leaving := model.leaving + [now]);
      if queue != [] {
        Arm(queue[0].time + timeout);
      }
    }
  }

  // ---------- every reachable state ----------

  /** The buffer driven by any sequence of pushes and timer expiries goes through the states of the model. */
  method RunBuffer(timeout: nat, clock: TimePoint, events: seq<Event>) returns (buffer: IRCMessageTimedBuffer)
    requires After(Init(timeout, clock), events).Some?
    ensures fresh(buffer) && buffer.Valid() && buffer.model == After(Init(timeout, clock), events).value
  {
    hide Step, Enabled;
    buffer := new IRCMessageTimedBuffer(timeout, clock);
    for i := 0 to |events|
      invariant fresh(buffer) && buffer.Valid()
      invariant After(Init(timeout, clock), events[..i]) == Some(buffer.model)
    {
      NextEvent(Init(timeout, clock), events, i);
      OneTimer(timeout, clock, events[..i]);
      match events[i] {
        case Push(msg) => buffer.Push(msg);
        case Fires(expiry, now) =>
          assert expiry in buffer.model.timers by { FiresEnabled(buffer.model, expiry, now); }
          buffer.TimerHandler(expiry, now);
      }
    }
    assert events[..|events|] == events;
  }

  lemma FiresEnabled(s: State, expiry: TimePoint, now: TimePoint)
    requires Enabled(s, Fires(expiry, now))
    ensures expiry in s.timers
  {
  }

  lemma {:induction false} NextEvent(s: State, es: seq<Event>, i: nat)
    requires After(s, es).Some? && i < |es|
    ensures var t := After(s, es[..i]);
      t.Some? && Enabled(t.value, es[i]) && After(s, es[..i + 1]) == Some(Step(t.value, es[i]))
    decreases |es|
  {
    hide Step, Enabled;
    var front := es[..|es| - 1];
    if i < |front| {
      NextEvent(s, front, i);
      assert front[..i] == es[..i] && front[..i + 1] == es[..i + 1];
    } else {
      assert es[..i] == front && es[..i + 1] == es;
    }
  }

  ghost predicate Sorted(ms: seq<Timed>) {
    forall i, j :: 0 <= i < j < |ms| ==> ms[i].time <= ms[j].time
  }

  ghost predicate Inv(s: State) {
    && !s.fault
    && |s.leaving| + |s.queue| == |s.pushed|
    && s.queue == s.pushed[|s.leaving|..]
    && Sorted(s.queue)
    && s.timers == if s.queue == [] then multiset{} else multiset{s.queue[0].time + s.timeout}
  }

  lemma PushKeepsInv(s: State, msg: Timed)
    requires Inv(s) && Enabled(s, Push(msg))
    ensures Inv(Step(s, Push(msg)))
  {
    var n := |s.leaving|;
    assert (s.pushed + [msg])[n..] == s.pushed[n..] + [msg];
    if s.queue != [] {
      assert forall i :: 0 <= i < |s.queue| ==> s.queue[i].time <= s.queue[|s.queue| - 1].time;
    }
  }

  lemma FireKeepsInv(s: State, expiry: TimePoint, now: TimePoint)
    requires Inv(s) && Enabled(s, Fires(expiry, now))
    ensures Inv(Step(s, Fires(expiry, now)))
  {
    assert s.timers - multiset{expiry} == multiset{};
    assert s.queue[1..] == s.pushed[|s.leaving| + 1..];
  }

  lemma StepKeepsInv(s: State, e: Event)
    requires Inv(s) && Enabled(s, e)
    ensures Inv(Step(s, e))
  {
    hide Inv, Step, Enabled;
    match e
    case Push(msg) => PushKeepsInv(s, msg);
    case Fires(expiry, now) => FireKeepsInv(s, expiry, now);
  }

  /**
    Whatever is pushed and whenever the timer fires: one wait is outstanding
    exactly while the buffer holds messages, set for the first of them; the
    buffer holds the most recent pushes, sorted by time; and the timer never
    finds it empty.
   */
  lemma {:induction false} OneTimer(timeout: nat, clock: TimePoint, es: seq<Event>)
    requires After(Init(timeout, clock), es).Some?
    ensures Inv(After(Init(timeout, clock), es).value) && After(Init(timeout, clock), es).value.timeout == timeout
    decreases |es|
  {
    if es != [] {
      OneTimer(timeout, clock, es[..|es| - 1]);
      StepKeepsInv(After(Init(timeout, clock), es[..|es| - 1]).value, es[|es| - 1]);
    }
  }

  // ---------- timing ----------

  /** The clock does not run backwards and the timer does not fire early. */
  predicate Timely(s: State, e: Event) {
    e.Fires? ==> s.clock <= e.now && e.expiry <= e.now
  }

  ghost predicate TimelyRun(s: State, es: seq<Event>) {
    es == [] ||
    (var front := es[..|es| - 1];
     TimelyRun(s, front) && After(s, front).Some? && Timely(After(s, front).value, es[|es| - 1]))
  }

  ghost predicate StayedLongEnough(s: State) {
    |s.leaving| <= |s.pushed|
    && forall i :: 0 <= i < |s.leaving| ==> s.pushed[i].time + s.timeout <= s.leaving[i] <= s.clock
  }

  lemma StepKeepsTime(s: State, e: Event)
    requires Inv(s) && Enabled(s, e) && Timely(s, e) && StayedLongEnough(s)
    ensures StayedLongEnough(Step(s, e))
  {
    if e.Fires? {
      assert s.queue[0] == s.pushed[|s.leaving|];
    }
  }

  /** No message leaves before its own time plus the timeout. */
  lemma {:induction false} NoMessageLeavesEarly(timeout: nat, clock: TimePoint, es: seq<Event>)
    requires After(Init(timeout, clock), es).Some? && TimelyRun(Init(timeout, clock), es)
    ensures StayedLongEnough(After(Init(timeout, clock), es).value)
    decreases |es|
  {
    if es != [] {
      var front := es[..|es| - 1];
      NoMessageLeavesEarly(timeout, clock, front);
      OneTimer(timeout, clock, front);
      StepKeepsTime(After(Init(timeout, clock), front).value, es[|es| - 1]);
    }
  }

  /** The messages not older than the timeout. */
  function Recent(ms: seq<Timed>, timeout: nat, now: TimePoint): seq<Timed> {
    if ms == [] then []
    else Recent(ms[..|ms| - 1], timeout, now)
         + if now < ms[|ms| - 1].time + timeout then [ms[|ms| - 1]] else []
  }

  lemma {:induction false} RecentIsSuffix(ms: seq<Timed>, timeout: nat, now: TimePoint, n: nat)
    requires n <= |ms|
    requires forall i :: 0 <= i < n ==> ms[i].time + timeout <= now
    requires forall i :: n <= i < |ms| ==> now < ms[i].time + timeout
    ensures Recent(ms, timeout, now) == ms[n..]
    decreases |ms|
  {
    if n < |ms| {
      RecentIsSuffix(ms[..|ms| - 1], timeout, now, n);
    } else if ms != [] {
      RecentIsSuffix(ms[..|ms| - 1], timeout, now, n - 1);
    }
  }

  /** The messages pushed in a run. */
  function Pushes(es: seq<Event>): seq<Timed> {
    if es == [] then []
    else Pushes(es[..|es| - 1]) + if es[|es| - 1].Push? then [es[|es| - 1].msg] else []
  }

  lemma {:induction false} PushedArePushes(timeout: nat, clock: TimePoint, es: seq<Event>)
    requires After(Init(timeout, clock), es).Some?
    ensures After(Init(timeout, clock), es).value.pushed == Pushes(es)
    decreases |es|
  {
    hide Enabled;
    if es != [] {
      PushedArePushes(timeout, clock, es[..|es| - 1]);
    }
  }

  /** With no timer due, the buffer is exactly the window of pushed messages younger than the timeout. */
  lemma BufferIsWindow(timeout: nat, clock: TimePoint, es: seq<Event>)
    requires After(Init(timeout, clock), es).Some? && TimelyRun(Init(timeout, clock), es)
    requires var s := After(Init(timeout, clock), es).value; forall expiry :: expiry in s.timers ==> s.clock < expiry
    ensures var s := After(Init(timeout, clock), es).value; s.queue == Recent(Pushes(es), timeout, s.clock)
  {
    hide After, Recent, Pushes;
    PushedArePushes(timeout, clock, es);
    OneTimer(timeout, clock, es);
    NoMessageLeavesEarly(timeout, clock, es);
    var s := After(Init(timeout, clock), es).value;
    var n := |s.leaving|;
    assert forall i :: 0 <= i < n ==> s.pushed[i].time + timeout <= s.clock;
    forall i | n <= i < |s.pushed|
      ensures s.clock < s.pushed[i].time + timeout
    {
      assert s.pushed[i] == s.queue[i - n];
      assert s.queue[0].time + timeout in s.timers;
    }
    RecentIsSuffix(s.pushed, timeout, s.clock, n);
  }
}
