/** What becomes of RECONNECT requests, and the runs in which two of them collide. */
module Reconnects {
  import opened TimeDetail
  import opened StringViews
  import opened WireForm
  import opened SendQueue
  import opened SendResults

  ghost predicate Kept(s: State, t: State) {
    t.suspended && t.accepted == s.accepted && |t.queue| == |s.queue|
  }

  lemma CompletionKeeps(s: State, ok: bool, now: TimePoint, later: TimePoint)
    requires s.suspended
    ensures Kept(s, WriteCompleted(s, ok, now, later))
  {
  }

  lemma StartWriteKeepsLength(s: State, now: TimePoint)
    requires s.suspended
    ensures Kept(s, StartWrite(s, now))
  {
    hide Decorate;
    StartWriteLinks(s, now);
  }

  lemma SuspendedStep(c: Config, s: State, e: Event)
    requires Enabled(s, e) && s.suspended && !(e.Handshake? && e.ok)
    ensures var t := Step(c, s, e);
      if e.RunReconnect? then t.suspended && t.accepted == [] && t.queue == [] else Kept(s, t)
  {
    hide StartWrite, WriteCompleted, Greeting, DoSendQueue;
    match e
    case RunSend(now) => StartWriteKeepsLength(s.(pending := s.pending - multiset{SendHandler}), now);
    case WriteCompletes(ok, now, later) => CompletionKeeps(s, ok, now, later);
    case _ =>
  }

  /**
    From a suspension to the next successful handshake no message enters the queue,
    whatever is posted; only the reconnectHandler empties it.
   */
  lemma {:induction false} SuspendedAcceptsNothing(c: Config, es: seq<Event>, more: seq<Event>)
    requires After(c, es).Some? && After(c, es).value.suspended && After(c, es + more).Some?
    requires forall e :: e in more ==> !(e.Handshake? && e.ok)
    ensures var s, t := After(c, es).value, After(c, es + more).value;
      if RunReconnect in more then t.suspended && t.accepted == [] && t.queue == [] else Kept(s, t)
    decreases |more|
  {
    hide Step, Enabled;
    if more == [] {
      assert es + more == es;
    } else {
      var front, e := more[..|more| - 1], more[|more| - 1];
      assert (es + more)[..|es + more| - 1] == es + front;
      SuspendedAcceptsNothing(c, es, front);
      SuspendedStep(c, After(c, es + front).value, e);
      assert more == front + [e];
    }
  }

  /** The RECONNECT messages of a run. */
  function Requests(es: seq<Event>): nat {
    if es == [] then 0 else Requests(es[..|es| - 1]) + One(es[|es| - 1] == ReconnectMessage)
  }

  /** The reconnectHandlers of a run. */
  function Reconnections(es: seq<Event>): nat {
    if es == [] then 0 else Reconnections(es[..|es| - 1]) + One(es[|es| - 1] == RunReconnect)
  }

  /** A RECONNECT is carried out on a sender that is suspended and still busy. */
  predicate Joins(s: State, e: Event) {
    e.RunJob? && e.k < |s.mail| && s.mail[e.k].Suspend? && s.suspended && s.busy
  }

  /** The RECONNECTs of a run that joined another one. */
  function Joined(c: Config, es: seq<Event>): nat
    requires After(c, es).Some?
  {
    if es == [] then 0
    else
      var front := es[..|es| - 1];
      Joined(c, front) + One(Joins(After(c, front).value, es[|es| - 1]))
  }

  ghost predicate Accounts(s: State, t: State, asked: nat, handled: nat, lost: nat) {
    t.asked == s.asked + asked && t.handled == s.handled + handled && t.lost == s.lost + lost
  }

  lemma EnqueueAccount(s: State, message: string, now: TimePoint)
    ensures Accounts(s, EnqueueStep(s, message, now), 0, 0, 0)
  {
    hide DoSendQueue;
    var t := s.(queue := s.queue + [message], accepted := s.accepted + [message]);
    DoSendQueueLinks(t.(busy := true), now);
  }

  lemma CompletionAccount(s: State, ok: bool, now: TimePoint, later: TimePoint)
    ensures Accounts(s, WriteCompleted(s, ok, now, later), 0, 0, 0)
  {
    hide DoSendQueue;
    if s.queue != [] {
      DoSendQueueLinks(Popped(s, now), later);
    }
  }

  lemma SuspendAccount(s: State)
    ensures Accounts(s, SuspendStep(s), 0, 0, One(s.suspended && s.busy))
  {
  }

  lemma WriteAccount(s: State, pending: multiset<Pending>, now: TimePoint)
    ensures Accounts(s, StartWrite(s.(pending := pending), now), 0, 0, 0)
  {
    hide StartWrite;
    StartWriteLinks(s.(pending := pending), now);
  }

  lemma ReconnectAccount(s: State)
    requires s.reconnects > 0
    ensures Accounts(s, ReconnectStep(s), 0, 1, 0)
  {
  }

  lemma HandshakeAccount(c: Config, s: State, ok: bool, channels: seq<string>)
    requires s.connecting > 0
    ensures Accounts(s, HandshakeStep(c, s, ok, channels), 0, 0, 0)
  {
    hide Greeting;
  }

  lemma MailAccount(s: State, mail: seq<Job>)
    ensures Accounts(s, s.(mail := mail), 0, 0, 0)
    ensures Accounts(s, s.(reading := false, mail := mail, asked := s.asked + 1), 1, 0, 0)
  {
  }

  lemma TimerAccount(s: State, pending: multiset<Pending>, now: TimePoint)
    ensures Accounts(s, s.(pending := pending, clock := now), 0, 0, 0)
  {
  }

  lemma JobAccount(s: State, k: nat, now: TimePoint)
    requires k < |s.mail|
    ensures Accounts(s, (match s.mail[k]
                         case Enqueue(message) => EnqueueStep(Taken(s, k), message, now)
                         case Suspend => SuspendStep(Taken(s, k))),
                     0, 0, One(s.mail[k].Suspend? && s.suspended && s.busy))
  {
    hide EnqueueStep, SuspendStep, Without;
    if s.mail[k].Enqueue? {
      EnqueueAccount(Taken(s, k), s.mail[k].message, now);
    } else {
      SuspendAccount(Taken(s, k));
    }
  }

  lemma StepAccount(c: Config, s: State, e: Event)
    requires Enabled(s, e)
    ensures Accounts(s, Step(c, s, e), One(e == ReconnectMessage), One(e == RunReconnect), One(Joins(s, e)))
  {
    hide EnqueueStep, SuspendStep, WriteCompleted, StartWrite, ReconnectStep, HandshakeStep, Taken, Accounts;
    match e
    case Post(message) => MailAccount(s, s.mail + [Enqueue(message)]);
    case ReconnectMessage => MailAccount(s, s.mail + [Suspend]);
    case RunJob(k, now) => JobAccount(s, k, now);
    case TimerFires(expiry, now) =>
      TimerAccount(s, s.pending - multiset{TimerWait(expiry)} + multiset{SendHandler}, now);
    case RunSend(now) => WriteAccount(s, s.pending - multiset{SendHandler}, now);
    case WriteCompletes(ok, now, later) => CompletionAccount(s, ok, now, later);
    case RunReconnect => ReconnectAccount(s);
    case Handshake(ok, channels) => HandshakeAccount(c, s, ok, channels);
  }

  lemma {:induction false} AccountIsCounted(c: Config, es: seq<Event>)
    requires After(c, es).Some?
    ensures var s := After(c, es).value;
      s.asked == Requests(es) && s.handled == Reconnections(es) && s.lost == Joined(c, es)
    decreases |es|
  {
    hide Step, Enabled, Joins;
    if es != [] {
      AccountIsCounted(c, es[..|es| - 1]);
      StepAccount(c, After(c, es[..|es| - 1]).value, es[|es| - 1]);
    }
  }

  /**
    In a calm run every RECONNECT is accounted for: its handler is still posted,
    or it joined a reconnect that was under way, or the sender is being drained
    for it (or was stopped by a failed write), or exactly one reconnectHandler is
    posted or has run for it.
   */
  lemma ReconnectsAddUp(c: Config, es: seq<Event>)
    requires After(c, es).Some? && Calm(c, es, 0)
    ensures var s := After(c, es).value;
      && Requests(es) == Reconnections(es) + Joined(c, es)
                         + Suspends(s.mail) + s.reconnects + One(s.suspended && s.busy && !s.drained)
      && s.reconnects + s.connecting <= 1
  {
    hide After, Calm, Joined, Requests, Reconnections;
    AccountIsCounted(c, es);
    RunKeepsInv(c, es);
  }

  /** At rest, the account is down to those carried out, those that joined, and one that met a failed write. */
  lemma RestingAccount(c: Config, es: seq<Event>)
    requires After(c, es).Some? && Calm(c, es, 0) && AtRest(After(c, es).value)
    ensures var s := After(c, es).value;
      Requests(es) == Reconnections(es) + Joined(c, es) + One(s.suspended && s.failed)
  {
    hide After, Calm, Joined, Requests, Reconnections, AtRest;
    AccountIsCounted(c, es);
    RestMeansDone(c, es);
  }

  // ---------- one request a session ----------

  /** Every RECONNECT comes while the bot still reads on, so it is the only one of its session. */
  ghost predicate Single(c: Config, es: seq<Event>) {
    es == [] ||
    (var front := es[..|es| - 1];
     && Single(c, front) && After(c, front).Some?
     && (es[|es| - 1].ReconnectMessage? ==> After(c, front).value.reading))
  }

  ghost predicate OneAsked(s: State) {
    && s.lost == 0
    && (s.reading ==> !s.suspended)
    && Suspends(s.mail) == One(!s.suspended && !s.reading)
  }

  lemma SingleStep(c: Config, s: State, e: Event)
    requires Inv(c, s) && Enabled(s, e) && OneAsked(s) && (e.ReconnectMessage? ==> s.reading)
    ensures !Overruns(s, e) && OneAsked(Step(c, s, e))
  {
    hide Messages, Idle, Timing, Greeting, EnqueueStep, WriteCompleted, Without;
    match e
    case Post(message) => SuspendsOfOne(s.mail, Enqueue(message));
    case ReconnectMessage => SuspendsOfOne(s.mail, Suspend);
    case RunJob(k, now) =>
      SuspendsWithout(s.mail, k);
      if s.mail[k].Enqueue? {
        EnqueueLeaves(Taken(s, k), s.mail[k].message, now);
      }
    case WriteCompletes(ok, now, later) => WriteCompletedLeaves(s, ok, now, later);
    case Handshake(ok, channels) => GreetingSuspendsNothing(c, s.mail, channels);
    case _ =>
  }

  lemma SuspendsOfOne(mail: seq<Job>, job: Job)
    ensures Suspends(mail + [job]) == Suspends(mail) + One(job.Suspend?)
  {
    SuspendsAppend(mail, [job]);
    assert [job][1..] == [];
  }

  lemma GreetingSuspendsNothing(c: Config, mail: seq<Job>, channels: seq<string>)
    ensures Suspends(mail + Greeting(c, channels)) == Suspends(mail)
  {
    SuspendsAppend(mail, Greeting(c, channels));
    EnqueuesOnly(Greeting(c, channels));
  }

  ghost predicate SameRequests(s: State, t: State) {
    t.lost == s.lost && t.reading == s.reading && t.suspended == s.suspended && t.mail == s.mail
  }

  lemma EnqueueLeaves(s: State, message: string, now: TimePoint)
    ensures SameRequests(s, EnqueueStep(s, message, now))
  {
    hide DoSendQueue;
    var t := s.(queue := s.queue + [message], accepted := s.accepted + [message]);
    DoSendQueueLinks(t.(busy := true), now);
  }

  lemma WriteCompletedLeaves(s: State, ok: bool, now: TimePoint, later: TimePoint)
    ensures SameRequests(s, WriteCompleted(s, ok, now, later))
  {
    hide DoSendQueue;
    if s.queue != [] {
      DoSendQueueLinks(Popped(s, now), later);
    }
  }

  /**
    With one RECONNECT a session the run is calm, none joins another, and all but
    the latest have had exactly one reconnectHandler.
   */
  lemma {:induction false} OneReconnectEach(c: Config, es: seq<Event>)
    requires After(c, es).Some? && Single(c, es)
    ensures Calm(c, es, 0)
    ensures OneAsked(After(c, es).value)
    ensures Joined(c, es) == 0 && Reconnections(es) <= Requests(es) <= Reconnections(es) + 1
    decreases |es|
  {
    AccountIsCounted(c, es);
    hide Step, Enabled, Overruns, OneAsked, Messages, Idle, Timing;
    if es == [] {
      assert OneAsked(INITIAL) by { NothingAsked(); }
    } else {
      var front := es[..|es| - 1];
      OneReconnectEach(c, front);
      RunKeepsInv(c, front);
      SingleStep(c, After(c, front).value, es[|es| - 1]);
      RunKeepsInv(c, es);
      OneOpen(c, After(c, es).value);
    }
  }

  lemma NothingAsked()
    ensures OneAsked(INITIAL)
  {
  }

  lemma OneOpen(c: Config, s: State)
    requires Inv(c, s) && OneAsked(s)
    ensures s.handled <= s.asked <= s.handled + 1
  {
    hide Messages, Idle, Timing;
  }

  // ---------- colliding requests ----------

  /**
    The run es can be continued to the use of an empty queue: calmly, without a
    further RECONNECT, and without one posted handler overtaking another.
   */
  ghost predicate EndsInFault(c: Config, es: seq<Event>, more: seq<Event>) {
    && After(c, es + more).Some? && After(c, es + more).value.fault
    && Calm(c, es + more, |es|)
    && ReconnectMessage !in more && InOrder(more)
  }

  /** The posted handlers run in the order in which they were posted. */
  ghost predicate InOrder(es: seq<Event>) {
    forall e :: e in es && e.RunJob? ==> e.k == 0
  }

  /** Two reconnects are open, and the sender has nothing to do. */
  ghost predicate TwoOpen(s: State) {
    && s.suspended && !s.busy && s.pending == multiset{} && !s.fault
    && s.reconnects > 0 && s.reconnects + s.connecting == 2
  }

  lemma OneStepEarlier(c: Config, es: seq<Event>, e: Event, more: seq<Event>)
    requires After(c, es).Some? && Enabled(After(c, es).value, e) && !e.ReconnectMessage?
    requires !Overruns(After(c, es).value, e) && EndsInFault(c, es + [e], more)
    requires e.RunJob? ==> e.k == 0
    ensures EndsInFault(c, es, [e] + more)
  {
    hide After, Calm, Overruns;
    var whole := es + ([e] + more);
    assert whole == (es + [e]) + more;
    assert whole[..|es|] == es && whole[|es|] == e;
    CalmSooner(c, whole, |es|);
  }

  /** The last steps: a new session writes, the second reconnect empties its queue, and the write completes. */
  lemma PopsEmptyQueue(c: Config, es: seq<Event>) returns (more: seq<Event>)
    requires After(c, es).Some? && TwoOpen(After(c, es).value)
    requires After(c, es).value.mail == [] && After(c, es).value.connecting == 1
    ensures EndsInFault(c, es, more)
  {
    hide Step, Enabled, Overruns, TwoOpen;
    var s := After(c, es).value;
    var now := s.lastTime + PAUSE;
    LastSteps(c, s, now);
    var es1 := es + [Handshake(true, [])];
    Extend(c, es, Handshake(true, []));
    var es2 := es1 + [RunJob(0, now)];
    Extend(c, es1, RunJob(0, now));
    var es3 := es2 + [RunReconnect];
    Extend(c, es2, RunReconnect);
    var es4 := es3 + [WriteCompletes(true, now, now)];
    Extend(c, es3, WriteCompletes(true, now, now));
    more := [];
    assert es4 + more == es4;
    assert EndsInFault(c, es4, more);
    OneStepEarlier(c, es3, WriteCompletes(true, now, now), more);
    more := [WriteCompletes(true, now, now)] + more;
    OneStepEarlier(c, es2, RunReconnect, more);
    more := [RunReconnect] + more;
    OneStepEarlier(c, es1, RunJob(0, now), more);
    more := [RunJob(0, now)] + more;
    OneStepEarlier(c, es, Handshake(true, []), more);
    more := [Handshake(true, [])] + more;
  }

  ghost predicate Quietly(s: State, e: Event) {
    Enabled(s, e) && !Overruns(s, e)
  }

  lemma LastSteps(c: Config, s: State, now: TimePoint)
    requires TwoOpen(s) && s.mail == [] && s.connecting == 1 && now == s.lastTime + PAUSE
    ensures Quietly(s, Handshake(true, []))
    ensures
      var s1 := Step(c, s, Handshake(true, []));
      && Quietly(s1, RunJob(0, now))
      && var s2 := Step(c, s1, RunJob(0, now));
         && Quietly(s2, RunReconnect)
         && var s3 := Step(c, s2, RunReconnect);
            && Quietly(s3, WriteCompletes(true, now, now))
            && Step(c, s3, WriteCompletes(true, now, now)).fault
  {
    hide Decorate;
    var own := ChannelName(c.nick);
    assert Greeting(c, []) == [Enqueue("JOIN " + own), Enqueue("PRIVMSG " + own + " :monkaMEGA")];
    var s1 := Step(c, s, Handshake(true, []));
    assert s1.mail == Greeting(c, []) && !s1.suspended && !s1.busy && s1.queue != [] && s1.lastTime == s.lastTime;
    var s2 := Step(c, s1, RunJob(0, now));
    assert s2.pending == multiset{WriteHandler} && !s2.suspended && s2.reconnects == 1 && !s2.fault;
    var s3 := Step(c, s2, RunReconnect);
    assert s3.pending == multiset{WriteHandler} && !s3.suspended && s3.queue == [] && !s3.fault;
  }

  /** A posted suspension, run in the session that one of the two reconnects opened, leaves two open again. */
  lemma SuspendsAgain(c: Config, s: State)
    requires TwoOpen(s) && s.mail != [] && s.mail[0].Suspend? && s.connecting == 1
    ensures Quietly(s, Handshake(true, []))
    ensures
      var s1 := Step(c, s, Handshake(true, []));
      && Quietly(s1, RunJob(0, 0))
      && var s2 := Step(c, s1, RunJob(0, 0));
         TwoOpen(s2) && Suspends(s2.mail) < Suspends(s.mail)
  {
    hide Greeting;
    var s1 := Step(c, s, Handshake(true, []));
    assert s1.mail == s.mail + Greeting(c, []) && s1.mail[0] == Suspend;
    assert Without(s1.mail, 0) == s.mail[1..] + Greeting(c, []);
    GreetingSuspendsNothing(c, s.mail[1..], []);
  }

  lemma {:induction false} TwoOpenEndInFault(c: Config, es: seq<Event>) returns (more: seq<Event>)
    requires After(c, es).Some? && TwoOpen(After(c, es).value)
    ensures EndsInFault(c, es, more)
    decreases Suspends(After(c, es).value.mail), |After(c, es).value.mail|, After(c, es).value.reconnects
  {
    hide Step, Enabled, Overruns, TwoOpen;
    var s := After(c, es).value;
    CaseOf(c, s);
    if s.reconnects == 2 {
      Extend(c, es, RunReconnect);
      more := TwoOpenEndInFault(c, es + [RunReconnect]);
      OneStepEarlier(c, es, RunReconnect, more);
      more := [RunReconnect] + more;
    } else if s.mail == [] {
      more := PopsEmptyQueue(c, es);
    } else if s.mail[0].Enqueue? {
      Extend(c, es, RunJob(0, 0));
      more := TwoOpenEndInFault(c, es + [RunJob(0, 0)]);
      OneStepEarlier(c, es, RunJob(0, 0), more);
      more := [RunJob(0, 0)] + more;
    } else {
      SuspendsAgain(c, s);
      var es1 := es + [Handshake(true, [])];
      Extend(c, es, Handshake(true, []));
      Extend(c, es1, RunJob(0, 0));
      more := TwoOpenEndInFault(c, es1 + [RunJob(0, 0)]);
      OneStepEarlier(c, es1, RunJob(0, 0), more);
      more := [RunJob(0, 0)] + more;
      OneStepEarlier(c, es, Handshake(true, []), more);
      more := [Handshake(true, [])] + more;
    }
  }

  /** While two reconnects are open, a reconnectHandler and a posted message leave them open. */
  lemma CaseOf(c: Config, s: State)
    requires TwoOpen(s)
    ensures s.reconnects <= 2 && (s.reconnects != 2 ==> s.connecting == 1)
    ensures s.reconnects == 2 ==>
      && Quietly(s, RunReconnect)
      && var t := Step(c, s, RunReconnect);
         TwoOpen(t) && t.mail == s.mail && t.reconnects == 1
    ensures s.mail != [] && s.mail[0].Enqueue? ==>
      && Quietly(s, RunJob(0, 0))
      && var t := Step(c, s, RunJob(0, 0));
         TwoOpen(t) && t.mail == s.mail[1..] && Suspends(t.mail) == Suspends(s.mail)
  {
    if s.mail != [] {
      assert Without(s.mail, 0) == s.mail[1..];
    }
  }

  lemma OverrunOpensTwo(c: Config, s: State, e: Event)
    requires Inv(c, s) && Enabled(s, e) && Overruns(s, e)
    ensures TwoOpen(Step(c, s, e))
  {
    NothingPending(s);
  }

  /**
    Exactly when RECONNECTs collide: after a calm run, carrying one out on a
    suspended, idle sender with a reconnect open is what makes it possible that a
    calm continuation uses the front of an empty queue.  Neither a further
    RECONNECT nor a change in the order of the posted handlers is needed for that.
   */
  lemma OverrunExactly(c: Config, es: seq<Event>, e: Event)
    requires After(c, es).Some? && Calm(c, es, 0) && Enabled(After(c, es).value, e)
    ensures (forall more :: After(c, es + [e] + more).Some? && Calm(c, es + [e] + more, |es| + 1)
                            ==> !After(c, es + [e] + more).value.fault)
            <==> !Overruns(After(c, es).value, e)
    ensures Overruns(After(c, es).value, e) ==> exists more :: EndsInFault(c, es + [e], more)
  {
    hide Step, Enabled, Overruns, Inv;
    var s := After(c, es).value;
    Extend(c, es, e);
    if Overruns(s, e) {
      RunKeepsInv(c, es);
      OverrunOpensTwo(c, s, e);
      var more := TwoOpenEndInFault(c, es + [e]);
      assert EndsInFault(c, es + [e], more);
    } else {
      forall more | After(c, es + [e] + more).Some? && Calm(c, es + [e] + more, |es| + 1)
        ensures !After(c, es + [e] + more).value.fault
      {
        assert (es + [e])[..|es|] == es;
        CalmTogether(c, es + [e], more);
        RunKeepsInv(c, es + [e] + more);
        NoFault(c, After(c, es + [e] + more).value);
      }
    }
  }

  lemma NoFault(c: Config, s: State)
    requires Inv(c, s)
    ensures !s.fault
  {
  }

  /** Two RECONNECT lines in one read, and what comes of them. */
  function Collision(): seq<Event> {
    [Handshake(true, []), ReconnectMessage, ReconnectMessage, RunJob(0, PAUSE), RunJob(0, PAUSE), RunJob(0, PAUSE),
     WriteCompletes(true, PAUSE, PAUSE), RunReconnect, RunJob(0, PAUSE)]
    + [Handshake(true, []), RunJob(0, PAUSE), RunReconnect, WriteCompletes(true, PAUSE, PAUSE)]
  }

  /** The states before the events of the collision, up to the one in which two reconnects are open. */
  function CollisionState(c: Config, i: nat): State {
    var join := Greeting(c, [])[0].message;
    var hello := Greeting(c, [])[1];
    var queue := [Pass(c), Nick(c)];
    var written := Decorate(Pass(c), "");
    var met := INITIAL.(connecting := 0, linked := true, suspended := false, reading := true,
                        queue := queue, accepted := queue, mail := Greeting(c, []));
    var asked := met.(reading := false, mail := Greeting(c, []) + [Suspend, Suspend], asked := 2);
    var writing := asked.(mail := [hello, Suspend, Suspend], busy := true, last := written, clock := PAUSE,
                          queue := [written + CRLF, Nick(c), join], accepted := queue + [join],
                          pending := multiset{WriteHandler},
                          starts := [PAUSE], begun := [PAUSE], wire := [written]);
    var greeted := writing.(mail := [Suspend, Suspend],
                            queue := writing.queue + [hello.message], accepted := writing.accepted + [hello.message]);
    var draining := greeted.(mail := [Suspend], suspended := true);
    var drained := draining.(pending := multiset{}, reconnects := 1, drained := true, ended := [None]);
    var connecting := drained.(queue := [], busy := false, reconnects := 0, connecting := 1, accepted := [],
                               starts := [], base := 1, drained := false, handled := 1);
    if i == 0 then INITIAL
    else if i == 1 then met
    else if i == 2 then met.(reading := false, mail := Greeting(c, []) + [Suspend], asked := 1)
    else if i == 3 then asked
    else if i == 4 then writing
    else if i == 5 then greeted
    else if i == 6 then draining
    else if i == 7 then drained
    else if i == 8 then connecting
    else connecting.(mail := [], reconnects := 1)
  }

  lemma CollisionOpens(c: Config, i: nat)
    requires i < 4
    ensures var s, e := CollisionState(c, i), Collision()[i];
      Enabled(s, e) && Step(c, s, e) == CollisionState(c, i + 1) && (Overruns(s, e) <==> i == 8)
  {
    hide Decorate;
    var own := ChannelName(c.nick);
    assert Greeting(c, []) == [Enqueue("JOIN " + own), Enqueue("PRIVMSG " + own + " :monkaMEGA")];
  }

  lemma CollisionCloses(c: Config, i: nat)
    requires 4 <= i < 9
    ensures var s, e := CollisionState(c, i), Collision()[i];
      Enabled(s, e) && Step(c, s, e) == CollisionState(c, i + 1) && (Overruns(s, e) <==> i == 8)
  {
    hide Decorate;
    var own := ChannelName(c.nick);
    assert Greeting(c, []) == [Enqueue("JOIN " + own), Enqueue("PRIVMSG " + own + " :monkaMEGA")];
  }

  lemma CollisionStep(c: Config, i: nat)
    requires i < 9
    ensures var s, e := CollisionState(c, i), Collision()[i];
      Enabled(s, e) && Step(c, s, e) == CollisionState(c, i + 1) && (Overruns(s, e) <==> i == 8)
  {
    hide CollisionState, Collision, Step, Enabled, Overruns;
    if i < 4 {
      CollisionOpens(c, i);
    } else {
      CollisionCloses(c, i);
    }
  }

  lemma CollisionStarts(c: Config)
    ensures CollisionState(c, 0) == INITIAL
  {
  }

  lemma CollisionLength()
    ensures |Collision()| == 13
    ensures Collision() == Collision()[..9]
              + [Handshake(true, [])] + [RunJob(0, PAUSE)] + [RunReconnect] + [WriteCompletes(true, PAUSE, PAUSE)]
  {
  }

  lemma CollisionOpensTwo(c: Config)
    ensures var s := CollisionState(c, 9);
      TwoOpen(s) && s.mail == [] && s.connecting == 1 && s.lastTime == 0
  {
  }

  /** The two lines make the bot pop an empty queue while a write of its next session is in flight. */
  lemma CollisionExample(c: Config)
    ensures After(c, Collision()).Some? && After(c, Collision()).value.fault
    ensures Calm(c, Collision()[..8], 0) && After(c, Collision()[..8]).Some?
    ensures Overruns(After(c, Collision()[..8]).value, Collision()[8])
  {
    hide Step, Enabled, Overruns, CollisionState, Collision, TwoOpen;
    CollisionLength();
    var es9, f := Collision()[..9], (i: nat) => CollisionState(c, i);
    CollisionStarts(c);
    forall i | 0 <= i < 9
      ensures Enabled(f(i), es9[i]) && Step(c, f(i), es9[i]) == f(i + 1) && (Overruns(f(i), es9[i]) <==> i == 8)
    {
      CollisionStep(c, i);
    }
    TraceRun(c, es9, f, 8);
    TraceRun(c, es9, f, 9);
    assert es9[..8] == Collision()[..8] && es9[..9] == es9;
    CollisionOpensTwo(c);
    LastSteps(c, CollisionState(c, 9), PAUSE);
    Extend(c, es9, Handshake(true, []));
    Extend(c, es9 + [Handshake(true, [])], RunJob(0, PAUSE));
    Extend(c, es9 + [Handshake(true, [])] + [RunJob(0, PAUSE)], RunReconnect);
    Extend(c, es9 + [Handshake(true, [])] + [RunJob(0, PAUSE)] + [RunReconnect], WriteCompletes(true, PAUSE, PAUSE));
  }

  // ---------- a request that is never carried out ----------

  /** A write fails, and a RECONNECT follows. */
  function Stuck(): seq<Event> {
    [Handshake(true, []), RunJob(0, PAUSE), WriteCompletes(false, PAUSE, PAUSE),
     ReconnectMessage, RunJob(0, PAUSE), RunJob(0, PAUSE)]
  }

  function StuckState(c: Config, i: nat): State {
    var join := Greeting(c, [])[0].message;
    var hello := Greeting(c, [])[1];
    var queue := [Pass(c), Nick(c)];
    var written := Decorate(Pass(c), "");
    var met := INITIAL.(connecting := 0, linked := true, suspended := false, reading := true,
                        queue := queue, accepted := queue, mail := Greeting(c, []));
    var writing := met.(mail := [hello], busy := true, last := written, clock := PAUSE,
                        queue := [written + CRLF, Nick(c), join], accepted := queue + [join],
                        pending := multiset{WriteHandler},
                        starts := [PAUSE], begun := [PAUSE], wire := [written]);
    var failed := writing.(pending := multiset{}, failed := true, ended := [None]);
    var asked := failed.(reading := false, mail := [hello, Suspend], asked := 1);
    var greeted := asked.(mail := [Suspend],
                          queue := asked.queue + [hello.message], accepted := asked.accepted + [hello.message]);
    if i == 0 then INITIAL
    else if i == 1 then met
    else if i == 2 then writing
    else if i == 3 then failed
    else if i == 4 then asked
    else if i == 5 then greeted
    else greeted.(mail := [], suspended := true)
  }

  lemma StuckFails(c: Config, i: nat)
    requires i < 3
    ensures var s, e := StuckState(c, i), Stuck()[i];
      Enabled(s, e) && Step(c, s, e) == StuckState(c, i + 1) && !Overruns(s, e)
  {
    hide Decorate;
    var own := ChannelName(c.nick);
    assert Greeting(c, []) == [Enqueue("JOIN " + own), Enqueue("PRIVMSG " + own + " :monkaMEGA")];
  }

  lemma StuckStays(c: Config, i: nat)
    requires 3 <= i < 6
    ensures var s, e := StuckState(c, i), Stuck()[i];
      Enabled(s, e) && Step(c, s, e) == StuckState(c, i + 1) && !Overruns(s, e)
  {
    hide Decorate;
    var own := ChannelName(c.nick);
    assert Greeting(c, []) == [Enqueue("JOIN " + own), Enqueue("PRIVMSG " + own + " :monkaMEGA")];
  }

  lemma StuckStep(c: Config, i: nat)
    requires i < 6
    ensures var s, e := StuckState(c, i), Stuck()[i];
      Enabled(s, e) && Step(c, s, e) == StuckState(c, i + 1) && !Overruns(s, e)
  {
    hide StuckState, Stuck, Step, Enabled, Overruns;
    if i < 3 {
      StuckFails(c, i);
    } else {
      StuckStays(c, i);
    }
  }

  lemma StuckAtRest(c: Config)
    ensures StuckState(c, 0) == INITIAL
    ensures var s := StuckState(c, 6); AtRest(s) && s.asked == 1 && s.handled == 0 && s.lost == 0
  {
  }

  /** The bot rests with a RECONNECT that was asked for and is not carried out. */
  lemma StuckExample(c: Config)
    ensures var end := After(c, Stuck());
      end.Some? && Calm(c, Stuck(), 0) && AtRest(end.value) && end.value.asked == 1 && end.value.handled == 0
  {
    hide Step, Enabled, Overruns, StuckState;
    var f := (i: nat) => StuckState(c, i);
    StuckAtRest(c);
    forall i | 0 <= i < 6
      ensures Enabled(f(i), Stuck()[i]) && Step(c, f(i), Stuck()[i]) == f(i + 1) && !Overruns(f(i), Stuck()[i])
    {
      StuckStep(c, i);
    }
    TraceRun(c, Stuck(), f, 6);
    assert Stuck()[..6] == Stuck();
  }
}
