/**
  A query as a whole: the downloader together with the reference count that the
  callbacks and the error handler share.  The results hold for every run, that
  is, for every interleaving of the handlers and every outcome of the network.
 */
module QueryProtocol {
  import opened StringViews
  import opened Downloader

  /** Answer carries the logs the reply was computed from. */
  datatype Reply = ErrorReply | Answer(logs: seq<Download>)

  datatype Shared = Shared(referenceCount: nat, delivered: seq<Download>, replies: seq<Reply>)

  /** received: the bodies of the successful reads, in order (a history). */
  datatype State = State(net: Net, shared: Shared, received: seq<string>)

  function Init(targets: nat): State {
    State(Net(targets, Start, None, None), Shared(targets, [], []), [])
  }

  /** The critical sections of the callback and of the error handler. */
  function Apply(shared: Shared, call: Call): Shared {
    match call
    case NoCall => shared
    case ErrorHandler => Shared(0, shared.delivered, shared.replies + [ErrorReply])
    case CallbackWith(download) =>
      if shared.referenceCount == 0 then shared
      else
        var delivered := shared.delivered + [download];
        var count := shared.referenceCount - 1;
        Shared(count, delivered, if count == 0 then shared.replies + [Answer(delivered)] else shared.replies)
  }

  function Step(s: State, e: Event): State
    requires Enabled(s.net, e)
  {
    State(NetStep(s.net, e), Apply(s.shared, CallOf(s.net, e)),
          if e.Read? && e.ok then s.received + [e.body] else s.received)
  }

  /** The state after the events es, provided each of them was enabled. */
  function After(targets: nat, es: seq<Event>): Option<State> {
    if es == [] then Some(Init(targets))
    else
      match After(targets, es[..|es| - 1])
      case None => None
      case Some(s) => if Enabled(s.net, es[|es| - 1]) then Some(Step(s, es[|es| - 1])) else None
  }

  // ---------- the invariant ----------

  function Logs(bodies: seq<string>): seq<Download> {
    seq(|bodies|, i requires 0 <= i < |bodies| => Download(i, bodies[i]))
  }

  ghost predicate PhaseOk(net: Net) {
    match net.phase
    case Writing(i) => i < net.count
    case Reading(i) => i < net.count
    case Locking(i) => i < net.count
    case Closing => net.count > 0
    case Closed => net.count > 0
    case Failed(i) => i == 0 || i < net.count
    case Undefined => net.count == 0
    case _ => true
  }

  ghost predicate Inv(s: State) {
    var taken := Taken(s.net);
    && PhaseOk(s.net)
    && |s.received| == taken + (if s.net.phase.Locking? then 1 else 0)
    && (s.net.response.Some? <==> s.net.phase.Locking?)
    && (s.net.response.Some? ==> s.net.response.value == s.received[taken])
    && (s.net.held.Some? ==> taken > 0 && s.net.held.value == Download(taken - 1, s.received[taken - 1]))
    && SharedOk(s, taken)
  }

  ghost predicate SharedOk(s: State, taken: nat)
    requires taken <= |s.received|
    requires s.net.held.Some? ==> taken > 0
  {
    if s.net.phase.Failed? then
      && s.shared.referenceCount == 0
      && s.shared.replies == [ErrorReply]
      && s.shared.delivered <= Logs(s.received)
    else
      && s.shared.delivered == Logs(s.received[..taken - (if s.net.held.Some? then 1 else 0)])
      && s.shared.referenceCount + |s.shared.delivered| == s.net.count
      && s.shared.replies
         == if s.shared.referenceCount == 0 && s.net.count > 0 then [Answer(s.shared.delivered)] else []
  }

  lemma CallbackKeepsInv(s: State)
    requires Inv(s) && Enabled(s.net, Callback)
    ensures Inv(Step(s, Callback))
  {
    var taken := Taken(s.net);
    if !s.net.phase.Failed? {
      assert Logs(s.received[..taken]) == Logs(s.received[..taken - 1]) + [s.net.held.value];
    }
  }

  lemma ErrorKeepsInv(s: State, e: Event)
    requires Inv(s) && Enabled(s.net, e) && CallOf(s.net, e) == ErrorHandler
    ensures Inv(Step(s, e))
  {
    assert s.shared.delivered <= Logs(s.received);
  }

  lemma ReadKeepsInv(s: State, body: string)
    requires Inv(s) && Enabled(s.net, Read(true, body))
    ensures Inv(Step(s, Read(true, body)))
  {
    var n := Taken(s.net) - (if s.net.held.Some? then 1 else 0);
    assert (s.received + [body])[..n] == s.received[..n];
  }

  lemma LockKeepsInv(s: State)
    requires Inv(s) && Enabled(s.net, Lock)
    ensures Inv(Step(s, Lock))
  {
    var i := s.net.phase.i;
    assert Taken(Step(s, Lock).net) == i + 1;
    assert s.shared.delivered == Logs(s.received[..i]);
  }

  /** The remaining steps leave the logs and the shared data alone. */
  lemma AdvanceKeepsInv(s: State, e: Event)
    requires Inv(s) && Enabled(s.net, e) && CallOf(s.net, e) == NoCall && !e.Lock? && !e.Read?
    ensures Inv(Step(s, e))
  {
    assert Taken(Step(s, e).net) == Taken(s.net);
    assert Step(s, e).shared == s.shared && Step(s, e).received == s.received;
  }

  lemma StepKeepsInv(s: State, e: Event)
    requires Inv(s) && Enabled(s.net, e)
    ensures Inv(Step(s, e))
  {
    hide Inv;
    if e.Callback? {
      CallbackKeepsInv(s);
    } else if CallOf(s.net, e) == ErrorHandler {
      ErrorKeepsInv(s, e);
    } else if e.Read? {
      ReadKeepsInv(s, e.body);
    } else if e.Lock? {
      LockKeepsInv(s);
    } else {
      AdvanceKeepsInv(s, e);
    }
  }

  lemma {:induction false} RunKeepsInv(targets: nat, es: seq<Event>)
    requires After(targets, es).Some?
    ensures Inv(After(targets, es).value) && After(targets, es).value.net.count == targets
    decreases |es|
  {
    if es != [] {
      RunKeepsInv(targets, es[..|es| - 1]);
      StepKeepsInv(After(targets, es[..|es| - 1]).value, es[|es| - 1]);
    }
  }

  // ---------- safety ----------

  /**
    A query gets at most one reply, never both an error and a result.  A result
    is only sent when the log of every target has been delivered, in order.
    As long as no error occurred, the reference count and the delivered
    callbacks add up to the number of targets.
   */
  lemma AtMostOneReply(targets: nat, es: seq<Event>)
    requires After(targets, es).Some?
    ensures var s := After(targets, es).value;
      && |s.shared.replies| <= 1
      && (forall r :: r in s.shared.replies && r.Answer? ==> |s.received| == targets && r.logs == Logs(s.received))
      && (ErrorReply in s.shared.replies <==> s.net.phase.Failed?)
      && (!s.net.phase.Failed? ==> s.shared.referenceCount + |s.shared.delivered| == targets)
  {
    RunKeepsInv(targets, es);
    var s := After(targets, es).value;
    if s.shared.replies != [] && !s.net.phase.Failed? {
      assert |Logs(s.received[..Taken(s.net)])| == Taken(s.net);
      assert s.received[..targets] == s.received;
    }
  }

  /** The first target is dereferenced safely in every run exactly when there is a target. */
  lemma FirstTargetDefined(targets: nat)
    ensures (forall es :: After(targets, es).Some? ==> !After(targets, es).value.net.phase.Undefined?)
            <==> targets > 0
  {
    forall es | After(targets, es).Some? && targets > 0
      ensures !After(targets, es).value.net.phase.Undefined?
    {
      RunKeepsInv(targets, es);
    }
    if targets == 0 {
      var start: seq<Event> := [];
      var run := start + [Run(true)];
      var resolved := run + [Resolve(true)];
      var connected := resolved + [Connect(true)];
      Extend(0, start, Run(true));
      Extend(0, run, Resolve(true));
      Extend(0, resolved, Connect(true));
      Extend(0, connected, Handshake(true));
      assert After(0, connected + [Handshake(true)]).value.net.phase.Undefined?;
    }
  }

  lemma Extend(targets: nat, es: seq<Event>, e: Event)
    requires After(targets, es).Some? && Enabled(After(targets, es).value.net, e)
    ensures After(targets, es + [e]) == Some(Step(After(targets, es).value, e))
  {
    assert (es + [e])[..|es|] == es;
  }

  // ---------- progress ----------

  /** An upper bound on the number of steps still possible. */
  function Measure(net: Net): nat
    requires Taken(net) <= net.count
  {
    var left := 4 * (net.count - Taken(net));
    (match net.phase
     case Start => left + 5
     case Resolving => left + 4
     case Connecting => left + 3
     case Handshaking => left + 2
     case Writing(_) => left + 1
     case Reading(_) => left
     case Locking(_) => if left > 0 then left - 1 else 0
     case Closing => 1
     case _ => 0)
    + if net.held.Some? then 1 else 0
  }

  lemma NetStepDecreases(net: Net, e: Event)
    requires PhaseOk(net) && Enabled(net, e)
    ensures Taken(net) <= net.count && Taken(NetStep(net, e)) <= net.count
    ensures Measure(NetStep(net, e)) < Measure(net)
  {
    if net.phase.Failed? || net.phase.Closed? || net.phase.Aborted? || net.phase.Undefined? {
      assert e.Callback?;
    }
  }

  lemma StepDecreases(s: State, e: Event)
    requires Inv(s) && Enabled(s.net, e)
    ensures Taken(s.net) <= s.net.count && Taken(NetStep(s.net, e)) <= s.net.count
    ensures Measure(NetStep(s.net, e)) < Measure(s.net)
  {
    hide SharedOk, Measure, NetStep;
    NetStepDecreases(s.net, e);
  }

  lemma {:induction false} RunsAreFinite(targets: nat, es: seq<Event>)
    requires After(targets, es).Some?
    ensures var net := After(targets, es).value.net;
      Taken(net) <= net.count && |es| + Measure(net) <= 4 * targets + 5
    decreases |es|
  {
    RunKeepsInv(targets, es);
    if es != [] {
      var front := es[..|es| - 1];
      RunsAreFinite(targets, front);
      RunKeepsInv(targets, front);
      StepDecreases(After(targets, front).value, es[|es| - 1]);
    }
  }

  /** No handler is left to run. */
  ghost predicate Quiet(s: State) {
    forall e :: !Enabled(s.net, e)
  }

  ghost predicate FailedEvent(e: Event) {
    !e.Lock? && !e.Callback? && !e.Shutdown? && !e.ok
  }

  lemma QuietPhases(s: State)
    requires Inv(s) && s.net.count > 0 && Quiet(s)
    ensures s.net.held.None? && (s.net.phase.Closed? || s.net.phase.Failed? || s.net.phase.Aborted?)
  {
    assert !Enabled(s.net, Run(true)) && !Enabled(s.net, Resolve(true)) && !Enabled(s.net, Connect(true));
    assert !Enabled(s.net, Handshake(true)) && !Enabled(s.net, Write(true)) && !Enabled(s.net, Read(true, ""));
    assert !Enabled(s.net, Callback) && !Enabled(s.net, Shutdown) && !Enabled(s.net, Lock);
  }

  /** A network operation failed, as opposed to a host name that could not be set. */
  ghost predicate NetworkFailed(e: Event) {
    FailedEvent(e) && !e.Run?
  }

  lemma NoFailures(es: seq<Event>)
    requires forall e :: e in es ==> !FailedEvent(e)
    ensures Run(false) !in es && forall e :: e in es ==> !NetworkFailed(e)
  {
    assert FailedEvent(Run(false));
  }

  lemma StepFailure(s: State, e: Event)
    requires Enabled(s.net, e)
    ensures var before, after := s.net.phase, Step(s, e).net.phase;
      && (after.Failed? <==> before.Failed? || NetworkFailed(e))
      && (after.Aborted? <==> before.Aborted? || e == Run(false))
  {
  }

  /** A run has failed, or was refused, exactly when one of its events says so. */
  lemma {:induction false} FailureIsRemembered(targets: nat, es: seq<Event>)
    requires After(targets, es).Some?
    ensures var phase := After(targets, es).value.net.phase;
      && (phase.Failed? <==> exists e :: e in es && NetworkFailed(e))
      && (phase.Aborted? <==> Run(false) in es)
    ensures !(Run(false) in es && exists e :: e in es && NetworkFailed(e))
    decreases |es|
  {
    hide Step, Enabled, NetworkFailed;
    if es != [] {
      var front, e := es[..|es| - 1], es[|es| - 1];
      FailureIsRemembered(targets, front);
      StepFailure(After(targets, front).value, e);
      assert es == front + [e];
      assert e in es;
    }
  }

  /**
    Every run ends after at most 4n+5 steps, and a run that cannot go on has
    sent exactly one reply: the result for all targets if no step failed, an
    error if a network operation failed; a request that could not even be started
    gets none.
   */
  lemma MaximalRunsReply(targets: nat, es: seq<Event>)
    requires targets > 0 && After(targets, es).Some? && Quiet(After(targets, es).value)
    ensures |es| <= 4 * targets + 5
    ensures var s := After(targets, es).value;
      s.shared.replies == if Run(false) in es then []
                          else if exists e :: e in es && NetworkFailed(e) then [ErrorReply]
                          else [Answer(Logs(s.received))]
  {
    RunsAreFinite(targets, es);
    RunKeepsInv(targets, es);
    var s := After(targets, es).value;
    QuietPhases(s);
    FailureIsRemembered(targets, es);
    if s.net.phase.Closed? {
      assert s.received[..targets] == s.received;
      assert |Logs(s.received)| == targets;
    }
  }

  lemma NothingApplied(shared: Shared)
    ensures Apply(shared, NoCall) == shared
  {
  }

  lemma HeldIsTarget(s: State)
    requires Inv(s) && s.net.held.Some?
    ensures s.net.held.value.target < s.net.count
  {
  }

  // ---------- what a run consists of ----------

  /** The bodies that the server sent. */
  function Bodies(es: seq<Event>): seq<string> {
    if es == [] then []
    else
      var e := es[|es| - 1];
      Bodies(es[..|es| - 1]) + if e.Read? && e.ok then [e.body] else []
  }

  lemma {:induction false} ReceivedAreBodies(targets: nat, es: seq<Event>)
    requires After(targets, es).Some?
    ensures After(targets, es).value.received == Bodies(es)
    decreases |es|
  {
    hide Enabled, NetStep, Apply;
    if es != [] {
      ReceivedAreBodies(targets, es[..|es| - 1]);
    }
  }

  /** The steps of the network and of the mutex, without the callbacks that may come between them. */
  function Exchanges(es: seq<Event>): seq<Event> {
    if es == [] then []
    else
      var e := es[|es| - 1];
      Exchanges(es[..|es| - 1]) + if e.Callback? then [] else [e]
  }

  /** Step k of an undisturbed query for n targets, and the phase before it. */
  ghost predicate InScript(n: nat, k: nat, e: Event) {
    if k < 4 then e == [Run(true), Resolve(true), Connect(true), Handshake(true)][k]
    else if (k - 4) / 3 < n then
      if (k - 4) % 3 == 0 then e == Write(true)
      else if (k - 4) % 3 == 1 then e.Read? && e.ok
      else e == Lock
    else k == 3 * n + 4 && e == Shutdown
  }

  function ScriptPhase(n: nat, k: nat): Phase {
    if k < 4 then [Start, Resolving, Connecting, Handshaking][k]
    else
      var i := (k - 4) / 3;
      if i < n then
        if (k - 4) % 3 == 0 then Writing(i) else if (k - 4) % 3 == 1 then Reading(i) else Locking(i)
      else if k == 3 * n + 4 then Closing
      else Closed
  }

  lemma ScriptStep(s: State, n: nat, k: nat, e: Event)
    requires n > 0 && s.net.count == n && s.net.phase == ScriptPhase(n, k) && k <= 3 * n + 5
    requires Enabled(s.net, e) && !FailedEvent(e) && !e.Callback?
    ensures k < 3 * n + 5 && InScript(n, k, e) && Step(s, e).net.phase == ScriptPhase(n, k + 1)
  {
    hide Apply;
    if k >= 4 {
      var i, r := (k - 4) / 3, (k - 4) % 3;
      assert k - 4 == 3 * i + r;
      assert (k + 1 - 4) / 3 == if r == 2 then i + 1 else i;
      assert (k + 1 - 4) % 3 == if r == 2 then 0 else r + 1;
    }
  }

  /**
    As long as nothing fails, a query opens the connection, then writes, reads and
    takes over the log of one target after the other, and then closes; only the
    callbacks may come at different times.
   */
  lemma {:induction false} ScriptFollowed(n: nat, es: seq<Event>)
    requires n > 0 && After(n, es).Some? && forall e :: e in es ==> !FailedEvent(e)
    ensures |Exchanges(es)| <= 3 * n + 5
    ensures forall k: nat :: k < |Exchanges(es)| ==> InScript(n, k, Exchanges(es)[k])
    ensures var net := After(n, es).value.net; net.count == n && net.phase == ScriptPhase(n, |Exchanges(es)|)
    decreases |es|
  {
    hide Enabled, Step, InScript, ScriptPhase, FailedEvent;
    if es == [] {
      assert ScriptPhase(n, 0) == Start by { ScriptStarts(n); }
    } else {
      var front, e := es[..|es| - 1], es[|es| - 1];
      ScriptFollowed(n, front);
      assert e in es;
      RunKeepsInv(n, es);
      if e.Callback? {
        CallbackLeavesPhase(After(n, front).value);
      } else {
        ScriptStep(After(n, front).value, n, |Exchanges(front)|, e);
      }
    }
  }

  lemma ScriptStarts(n: nat)
    ensures ScriptPhase(n, 0) == Start
  {
  }

  lemma CallbackLeavesPhase(s: State)
    requires Enabled(s.net, Callback)
    ensures Step(s, Callback).net.phase == s.net.phase
  {
  }
}
