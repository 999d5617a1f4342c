/**
  The send queue: one outstanding operation at a time, a pause between messages,
  and draining before a reconnect.  Every handler is one atomic step; handlers
  posted to the send strand run one at a time, in any order, as several threads
  may carry them there.
 */
module SendQueue {
  import opened TimeDetail
  import opened Search
  import opened WireForm
  import opened StringViews

  /** `m_send_message_duration`: 1500 ms. */
  const PAUSE: int := 1500 * TICKS_PER_MILLISECOND

  /** What the sender has started and not yet seen the end of. */
  datatype Pending = TimerWait(expiry: TimePoint) | SendHandler | WriteHandler

  /** Handlers posted to the send strand by other parts of the bot. */
  datatype Job = Enqueue(message: string) | Suspend

  datatype Config = Config(password: string, nick: string)

  function Pass(c: Config): string { "PASS " + c.password }
  function Nick(c: Config): string { "NICK " + c.nick }

  /** `formatIRCChannelName` */
  function ChannelName(source: string): string {
    if source == "" then "#"
    else if source[0] == '#' then Lowered(source)
    else "#" + Lowered(source)
  }

  function Joins(channels: seq<string>): seq<Job> {
    seq(|channels|, i requires 0 <= i < |channels| => Enqueue("JOIN " + channels[i]))
  }

  function Greeting(c: Config, channels: seq<string>): seq<Job> {
    var own := ChannelName(c.nick);
    [Enqueue("JOIN " + own), Enqueue("PRIVMSG " + own + " :monkaMEGA")] + Joins(channels)
  }

  /**
    The members of the bot and whether it has ever read, then the handlers that
    are pending, then a history.  Of the session: the messages accepted, the start
    and completion times of its writes.  Of the run: everything written (without
    line ends), where the session begins in it, when each write began and, unless
    it failed or a suspension hid it, ended; and what became of the RECONNECT
    requests (lost: found a sender that was being drained already).  fault: the
    front of an empty queue was used, which is undefined behaviour.
   */
  datatype State = State(
    suspended: bool, reading: bool, linked: bool, busy: bool, queue: seq<string>, last: string, lastTime: TimePoint,
    pending: multiset<Pending>, mail: seq<Job>, reconnects: nat, connecting: nat, fault: bool,
    accepted: seq<string>, starts: seq<TimePoint>, dones: seq<TimePoint>,
    wire: seq<string>, base: nat, begun: seq<TimePoint>, ended: seq<Option<TimePoint>>,
    drained: bool, failed: bool, asked: nat, handled: nat, lost: nat, clock: TimePoint)

  /** After construction and `run()`. */
  const INITIAL: State :=
    State(true, false, false, false, [], "", 0, multiset{}, [], 0, 1, false,
          [], [], [], [], 0, [], [], false, false, 0, 0, 0, 0)

  datatype Event =
    | Post(message: string)
    | ReconnectMessage
    | RunJob(k: nat, now: TimePoint)
    | TimerFires(expiry: TimePoint, now: TimePoint)
    | RunSend(now: TimePoint)
    | WriteCompletes(ok: bool, now: TimePoint, later: TimePoint)
    | RunReconnect
    | Handshake(ok: bool, channels: seq<string>)

  /**
    RECONNECT lines come in any number: those of one read are all handled,
    although the first of them suspends reading.
   */
  predicate Enabled(s: State, e: Event) {
    && !s.fault
    && match e
       case Post(_) => true
       case ReconnectMessage => s.linked
       case RunJob(k, _) => k < |s.mail|
       case TimerFires(expiry, _) => TimerWait(expiry) in s.pending
       case RunSend(_) => SendHandler in s.pending
       case WriteCompletes(_, _, _) => WriteHandler in s.pending
       case RunReconnect => s.reconnects > 0
       case Handshake(_, _) => s.connecting > 0
  }

  // ---------- the handlers ----------

  function Without(mail: seq<Job>, k: nat): seq<Job>
    requires k < |mail|
  {
    mail[..k] + mail[k + 1..]
  }

  /** The strand takes job k. */
  function Taken(s: State, k: nat): State
    requires k < |s.mail|
  {
    s.(mail := Without(s.mail, k))
  }

  /** `send_handler`; fault records a `front()` of an empty queue. */
  function StartWrite(s: State, now: TimePoint): State {
    if s.queue == [] then s.(fault := true)
    else
      var message := Decorate(s.queue[0], s.last);
      s.(queue := [message + CRLF] + s.queue[1..], last := message,
         pending := s.pending + multiset{WriteHandler},
         starts := s.starts + [now], wire := s.wire + [message], begun := s.begun + [now], clock := now)
  }

  function DoSendQueue(s: State, now: TimePoint): State {
    var nextExpire := s.lastTime + PAUSE;
    if now < nextExpire then s.(pending := s.pending + multiset{TimerWait(nextExpire)}, clock := now)
    else StartWrite(s, now)
  }

  /** The handler of `postSendIRC`. */
  function EnqueueStep(s: State, message: string, now: TimePoint): State {
    if s.suspended then s
    else
      var t := s.(queue := s.queue + [message], accepted := s.accepted + [message]);
      if t.busy then t else DoSendQueue(t.(busy := true), now)
  }

  /** The handler of `postDoRECONNECT`. */
  function SuspendStep(s: State): State {
    s.(suspended := true,
       reconnects := if s.busy then s.reconnects else s.reconnects + 1,
       lost := if s.suspended && s.busy then s.lost + 1 else s.lost)
  }

  /** A completed write, before anything is done about it. */
  function WriteEnded(s: State, end: Option<TimePoint>, now: TimePoint): State {
    s.(pending := s.pending - multiset{WriteHandler}, ended := s.ended + [end], clock := now)
  }

  function Popped(s: State, now: TimePoint): State
    requires s.queue != []
  {
    WriteEnded(s, Some(now), now).(lastTime := now, queue := s.queue[1..], dones := s.dones + [now])
  }

  /** `onSendQueue`; an error outside a suspension is thrown, and nothing is started any more. */
  function WriteCompleted(s: State, ok: bool, now: TimePoint, later: TimePoint): State {
    if s.suspended then WriteEnded(s, None, now).(reconnects := s.reconnects + 1, drained := true)
    else if !ok then WriteEnded(s, None, now).(failed := true)
    else if s.queue == [] then s.(fault := true)
    else
      var t := Popped(s, now);
      if t.queue == [] then t.(busy := false) else DoSendQueue(t, later)
  }

  /** `reconnectHandler`, which ends the session and starts connecting. */
  function ReconnectStep(s: State): State
    requires s.reconnects > 0
  {
    s.(queue := [], busy := false, reconnects := s.reconnects - 1, connecting := s.connecting + 1,
       accepted := [], starts := [], dones := [], base := |s.wire|, drained := false, handled := s.handled + 1)
  }

  /** `onHandshake`: the first two messages bypass the strand, the others are posted. */
  function HandshakeStep(c: Config, s: State, ok: bool, channels: seq<string>): State
    requires s.connecting > 0
  {
    var t := s.(connecting := s.connecting - 1);
    if !ok then t
    else
      t.(queue := t.queue + [Pass(c), Nick(c)], accepted := t.accepted + [Pass(c), Nick(c)],
         reading := true, linked := true, suspended := false, mail := t.mail + Greeting(c, channels))
  }

  function Step(c: Config, s: State, e: Event): State
    requires Enabled(s, e)
  {
    match e
    case Post(message) => s.(mail := s.mail + [Enqueue(message)])
    case ReconnectMessage => s.(reading := false, mail := s.mail + [Suspend], asked := s.asked + 1)
    case RunJob(k, now) =>
      (match s.mail[k]
       case Enqueue(message) => EnqueueStep(Taken(s, k), message, now)
       case Suspend => SuspendStep(Taken(s, k)))
    case TimerFires(expiry, now) =>
      s.(pending := s.pending - multiset{TimerWait(expiry)} + multiset{SendHandler}, clock := now)
    case RunSend(now) => StartWrite(s.(pending := s.pending - multiset{SendHandler}), now)
    case WriteCompletes(ok, now, later) => WriteCompleted(s, ok, now, later)
    case RunReconnect => ReconnectStep(s)
    case Handshake(ok, channels) => HandshakeStep(c, s, ok, channels)
  }

  /** The state after the events es, provided each of them was enabled. */
  function After(c: Config, es: seq<Event>): Option<State> {
    if es == [] then Some(INITIAL)
    else
      match After(c, es[..|es| - 1])
      case None => None
      case Some(s) => if Enabled(s, es[|es| - 1]) then Some(Step(c, s, es[|es| - 1])) else None
  }

  // ---------- the invariant ----------

  function Suspends(mail: seq<Job>): nat {
    if mail == [] then 0 else (if mail[0].Suspend? then 1 else 0) + Suspends(mail[1..])
  }

  function One(b: bool): nat { if b then 1 else 0 }

  /**
    The sender is busy exactly when one thing is outstanding, never two: a timer,
    a posted send, a write, the reconnect it was drained for, or nothing any more
    because a write failed.
   */
  ghost predicate Flags(s: State) {
    |s.pending| + One(s.drained) + One(s.failed) == One(s.busy)
  }

  /** At most one reconnect is open, and every RECONNECT is accounted for. */
  ghost predicate Link(s: State) {
    && s.reconnects + s.connecting <= 1
    && (!s.suspended ==> s.reconnects == 0 && s.connecting == 0 && !s.drained)
    && (s.drained ==> s.reconnects == 1)
    && (s.reconnects == 1 ==> !s.failed && s.busy == s.drained)
    && (s.connecting == 1 ==> !s.busy)
    && (s.suspended && !s.busy && s.reconnects == 0 ==> s.accepted == [])
    && s.asked == s.handled + Suspends(s.mail) + s.reconnects + One(s.suspended && s.busy && !s.drained) + s.lost
  }

  /** The first message of the queue has been handed to a write that is not yet popped. */
  ghost predicate FrontWritten(s: State) {
    WriteHandler in s.pending || s.drained || s.failed
  }

  ghost predicate Messages(c: Config, s: State) {
    var k := |s.starts|;
    && k == |s.dones| + One(FrontWritten(s))
    && k <= |s.accepted|
    && s.queue == (if FrontWritten(s) then [s.last + CRLF] else []) + s.accepted[k..]
    && WireOk(s.wire, s.base, s.accepted[..k], s.last)
    && (s.accepted == [] || [Pass(c), Nick(c)] <= s.accepted)
    && (!s.suspended ==> s.accepted != [])
    && (s.busy && !FrontWritten(s) ==> k < |s.accepted|)
  }

  /** An idle sender with messages is only found right after a handshake; the next job starts or suspends it. */
  ghost predicate Idle(s: State) {
    !s.suspended && !s.busy && s.queue != [] ==> s.mail != []
  }

  /** Timers are set for the end of the pause; every write but one in flight has ended. */
  ghost predicate Timing(s: State) {
    && (forall p :: p in s.pending && p.TimerWait? ==> p.expiry == s.lastTime + PAUSE)
    && |s.begun| == |s.wire|
    && |s.ended| + One(WriteHandler in s.pending) == |s.begun|
  }

  ghost predicate Inv(c: Config, s: State) {
    Flags(s) && Link(s) && Messages(c, s) && Idle(s) && Timing(s) && !s.fault
  }

  /** A RECONNECT is carried out on a suspended, idle sender for which a reconnect is open already. */
  predicate Overruns(s: State, e: Event) {
    && e.RunJob? && e.k < |s.mail| && s.mail[e.k].Suspend?
    && s.suspended && !s.busy && s.reconnects + s.connecting > 0
  }

  /** From position `from` on, no event of the run es overruns. */
  ghost predicate Calm(c: Config, es: seq<Event>, from: nat) {
    |es| <= from ||
    (var front := es[..|es| - 1];
     Calm(c, front, from) && After(c, front).Some? && !Overruns(After(c, front).value, es[|es| - 1]))
  }

  lemma {:induction false} SuspendsAppend(a: seq<Job>, b: seq<Job>)
    ensures Suspends(a + b) == Suspends(a) + Suspends(b)
    decreases |a|
  {
    if a == [] {
      assert a + b == b;
    } else {
      assert (a + b)[1..] == a[1..] + b;
      SuspendsAppend(a[1..], b);
    }
  }

  lemma {:induction false} EnqueuesOnly(mail: seq<Job>)
    requires forall j :: j in mail ==> j.Enqueue?
    ensures Suspends(mail) == 0
  {
    if mail != [] {
      assert mail[0] in mail;
      EnqueuesOnly(mail[1..]);
    }
  }

  lemma NothingPending(s: State)
    requires |s.pending| == 0
    ensures s.pending == multiset{}
  {
  }

  lemma OnePending(s: State, p: Pending)
    requires |s.pending| <= 1 && p in s.pending
    ensures s.pending == multiset{p} && s.pending - multiset{p} == multiset{}
  {
    assert |s.pending - multiset{p}| == 0;
  }

  /** What starting an operation leaves alone. */
  ghost predicate SameLink(s: State, t: State) {
    && t.suspended == s.suspended && t.reading == s.reading && t.linked == s.linked && t.busy == s.busy
    && t.mail == s.mail && t.reconnects == s.reconnects && t.connecting == s.connecting
    && t.accepted == s.accepted && t.lastTime == s.lastTime && t.dones == s.dones && t.ended == s.ended
    && t.drained == s.drained && t.failed == s.failed
    && t.asked == s.asked && t.handled == s.handled && t.lost == s.lost
  }

  lemma StartWriteLinks(s: State, now: TimePoint)
    ensures SameLink(s, StartWrite(s, now))
  {
    hide Decorate;
    if s.queue != [] {
      var message := Decorate(s.queue[0], s.last);
      var t := StartWrite(s, now);
      assert t == s.(queue := t.queue, last := t.last, pending := t.pending,
                     starts := t.starts, wire := t.wire, begun := t.begun, clock := t.clock);
    }
  }

  lemma DoSendQueueLinks(s: State, now: TimePoint)
    ensures SameLink(s, DoSendQueue(s, now))
  {
    hide StartWrite;
    StartWriteLinks(s, now);
  }

  /** Steps that may start or end a write. */
  predicate Writes(s: State, e: Event) {
    e.RunSend? || e.WriteCompletes? || (e.RunJob? && e.k < |s.mail| && s.mail[e.k].Enqueue?)
  }

  /** The other steps leave the wire, its completions and failures alone. */
  lemma OtherSteps(c: Config, s: State, e: Event)
    requires Enabled(s, e) && !Writes(s, e)
    ensures SameWire(s, Step(c, s, e))
  {
    hide SameWire, EnqueueStep, SuspendStep, StartWrite, WriteCompleted, ReconnectStep, HandshakeStep;
    match e
    case Post(message) => MailLeavesWire(s, s.mail + [Enqueue(message)]);
    case ReconnectMessage =>
      RequestLeavesWire(s);
    case RunJob(k, _) =>
      MailLeavesWire(s, Without(s.mail, k));
      SuspendLeavesWire(s, Taken(s, k));
    case TimerFires(expiry, now) => TimerLeavesWire(s, expiry, now);
    case RunReconnect => ReconnectLeavesWire(s);
    case Handshake(ok, channels) => HandshakeLeavesWire(c, s, ok, channels);
  }

  predicate SameWire(s: State, t: State) {
    && t.last == s.last && t.wire == s.wire && t.begun == s.begun && t.ended == s.ended
    && t.failed == s.failed && t.fault == s.fault
  }

  lemma MailLeavesWire(s: State, mail: seq<Job>)
    ensures SameWire(s, s.(mail := mail))
  {
  }

  lemma RequestLeavesWire(s: State)
    ensures SameWire(s, s.(reading := false, mail := s.mail + [Suspend], asked := s.asked + 1))
  {
  }

  lemma SuspendLeavesWire(s: State, t: State)
    requires SameWire(s, t)
    ensures SameWire(s, SuspendStep(t))
  {
  }

  lemma TimerLeavesWire(s: State, expiry: TimePoint, now: TimePoint)
    ensures SameWire(s, s.(pending := s.pending - multiset{TimerWait(expiry)} + multiset{SendHandler}, clock := now))
  {
  }

  lemma ReconnectLeavesWire(s: State)
    requires s.reconnects > 0
    ensures SameWire(s, ReconnectStep(s))
  {
  }

  lemma HandshakeLeavesWire(c: Config, s: State, ok: bool, channels: seq<string>)
    requires s.connecting > 0
    ensures SameWire(s, HandshakeStep(c, s, ok, channels))
  {
    hide Greeting;
  }

  /** Starting a write with nothing pending and an unwritten message at the front. */
  lemma StartWriteKeeps(c: Config, s: State, now: TimePoint)
    requires s.pending == multiset{} && !s.drained && !s.failed && s.busy && !s.fault
    requires Messages(c, s) && Timing(s)
    ensures var t := StartWrite(s, now); Flags(t) && Messages(c, t) && Timing(t) && !t.fault
  {
    hide WireOk, Decorate;
    var k := |s.starts|;
    WireOkNext(s.wire, s.base, s.accepted[..k], s.last, s.accepted[k]);
    assert s.accepted[..k] + [s.accepted[k]] == s.accepted[..k + 1];
    assert s.queue[1..] == s.accepted[k + 1..];
  }

  lemma DoSendQueueKeeps(c: Config, s: State, now: TimePoint)
    requires s.pending == multiset{} && !s.drained && !s.failed && s.busy && !s.fault
    requires Messages(c, s) && Timing(s)
    ensures var t := DoSendQueue(s, now);
      Flags(t) && Messages(c, t) && Timing(t) && !t.fault && SameLink(s, t)
  {
    hide StartWrite;
    DoSendQueueLinks(s, now);
    if now >= s.lastTime + PAUSE {
      StartWriteKeeps(c, s, now);
    }
  }

  lemma PostKeepsInv(c: Config, s: State, job: Job)
    requires Inv(c, s)
    ensures Inv(c, if job.Suspend? then s.(reading := false, mail := s.mail + [job], asked := s.asked + 1)
                   else s.(mail := s.mail + [job]))
  {
    hide WireOk;
    SuspendsAppend(s.mail, [job]);
    assert Suspends([job]) == One(job.Suspend?) by { assert [job][1..] == []; }
  }

  lemma {:induction false} SuspendsWithout(mail: seq<Job>, k: nat)
    requires k < |mail|
    ensures Suspends(Without(mail, k)) == Suspends(mail) - One(mail[k].Suspend?)
    decreases k
  {
    if k == 0 {
      assert Without(mail, 0) == mail[1..];
    } else {
      SuspendsWithout(mail[1..], k - 1);
      assert Without(mail, k)[1..] == Without(mail[1..], k - 1);
    }
  }

  /** A message handler that the strand has taken, and the queue it leads to. */
  lemma AcceptKeeps(c: Config, s: State, message: string)
    requires Messages(c, s) && !s.suspended
    ensures Messages(c, s.(queue := s.queue + [message], accepted := s.accepted + [message]))
  {
    hide WireOk;
    var k := |s.starts|;
    var accepted := s.accepted + [message];
    assert accepted[k..] == s.accepted[k..] + [message];
    assert accepted[..k] == s.accepted[..k];
  }

  lemma EnqueueKeepsInv(c: Config, s: State, k: nat, now: TimePoint)
    requires Inv(c, s) && k < |s.mail| && s.mail[k].Enqueue?
    ensures Inv(c, EnqueueStep(Taken(s, k), s.mail[k].message, now))
  {
    hide Messages, DoSendQueue, Without;
    var message := s.mail[k].message;
    SuspendsWithout(s.mail, k);
    MessagesFrame(c, s, Taken(s, k));
    if !s.suspended {
      var u := Taken(s, k).(queue := s.queue + [message], accepted := s.accepted + [message]);
      AcceptKeeps(c, Taken(s, k), message);
      MessagesFrame(c, u, u.(busy := true)) by { StartsAccepted(c, s, u); }
      if !s.busy {
        NothingPending(s);
        DoSendQueueKeeps(c, u.(busy := true), now);
      }
    }
  }

  /** What Messages looks at. */
  lemma MessagesFrame(c: Config, s: State, t: State)
    requires Messages(c, s)
    requires t.starts == s.starts && t.dones == s.dones && t.accepted == s.accepted && t.queue == s.queue
    requires t.wire == s.wire && t.base == s.base && t.last == s.last && t.suspended == s.suspended
    requires FrontWritten(t) == FrontWritten(s)
    requires t.busy && !FrontWritten(t) ==> s.busy || |t.starts| < |t.accepted|
    ensures Messages(c, t)
  {
    hide WireOk;
  }

  lemma StartsAccepted(c: Config, s: State, u: State)
    requires Messages(c, s) && u.starts == s.starts && |u.accepted| == |s.accepted| + 1
    ensures |u.starts| < |u.accepted|
  {
    hide WireOk;
  }

  lemma SuspendKeepsInv(c: Config, s: State, k: nat)
    requires Inv(c, s) && k < |s.mail| && s.mail[k].Suspend?
    requires s.suspended && !s.busy ==> s.reconnects + s.connecting == 0
    ensures Inv(c, SuspendStep(Taken(s, k)))
  {
    hide WireOk, Without;
    SuspendsWithout(s.mail, k);
  }

  lemma PoppedKeeps(c: Config, s: State, now: TimePoint)
    requires Inv(c, s) && s.pending == multiset{WriteHandler} && !s.suspended
    ensures s.queue != []
    ensures var t := Popped(s, now);
      && Messages(c, t.(busy := t.queue != [])) && Timing(t)
      && t.pending == multiset{} && !t.drained && !t.failed && t.busy && !t.fault
  {
    hide WireOk;
    assert Popped(s, now).queue == s.accepted[|s.starts|..];
  }

  lemma WriteCompletedKeepsInv(c: Config, s: State, ok: bool, now: TimePoint, later: TimePoint)
    requires Inv(c, s) && WriteHandler in s.pending
    ensures Inv(c, WriteCompleted(s, ok, now, later))
  {
    hide WireOk, DoSendQueue;
    OnePending(s, WriteHandler);
    if !s.suspended && ok {
      PoppedKeeps(c, s, now);
      hide Messages;
      var t := Popped(s, now);
      assert t.queue != [] ==> t.(busy := t.queue != []) == t;
      if t.queue != [] {
        DoSendQueueKeeps(c, t, later);
      }
    }
  }

  lemma HandshakeKeepsInv(c: Config, s: State, channels: seq<string>)
    requires Inv(c, s) && s.connecting > 0
    ensures Inv(c, HandshakeStep(c, s, true, channels))
  {
    hide WireOk;
    NothingPending(s);
    SuspendsAppend(s.mail, Greeting(c, channels));
    EnqueuesOnly(Greeting(c, channels));
    assert (s.accepted + [Pass(c), Nick(c)])[..0] == s.accepted[..0];
  }

  lemma ReconnectKeepsInv(c: Config, s: State)
    requires Inv(c, s) && s.reconnects > 0
    ensures Inv(c, ReconnectStep(s))
  {
    hide WireOk;
    NothingPending(s);
    WireOkRestart(s.wire, s.base, s.accepted[..|s.starts|], s.last);
  }

  lemma TimerKeepsInv(c: Config, s: State, expiry: TimePoint, now: TimePoint)
    requires Inv(c, s) && TimerWait(expiry) in s.pending
    ensures Inv(c, Step(c, s, TimerFires(expiry, now)))
  {
    hide WireOk;
    OnePending(s, TimerWait(expiry));
  }

  lemma SendKeepsInv(c: Config, s: State, now: TimePoint)
    requires Inv(c, s) && SendHandler in s.pending
    ensures Inv(c, Step(c, s, RunSend(now)))
  {
    hide WireOk;
    OnePending(s, SendHandler);
    StartWriteKeeps(c, s.(pending := multiset{}), now);
  }

  lemma HandshakeFailKeepsInv(c: Config, s: State, channels: seq<string>)
    requires Inv(c, s) && s.connecting > 0
    ensures Inv(c, HandshakeStep(c, s, false, channels))
  {
    hide WireOk;
  }

  lemma StepKeepsInv(c: Config, s: State, e: Event)
    requires Inv(c, s) && Enabled(s, e) && !Overruns(s, e)
    ensures Inv(c, Step(c, s, e))
  {
    hide Inv, EnqueueStep, SuspendStep, WriteCompleted, ReconnectStep, HandshakeStep;
    match e
    case Post(message) => PostKeepsInv(c, s, Enqueue(message));
    case ReconnectMessage => PostKeepsInv(c, s, Suspend);
    case RunJob(k, now) =>
      if s.mail[k].Enqueue? {
        EnqueueKeepsInv(c, s, k, now);
      } else {
        SuspendKeepsInv(c, s, k);
      }
    case TimerFires(expiry, now) => TimerKeepsInv(c, s, expiry, now);
    case RunSend(now) => SendKeepsInv(c, s, now);
    case WriteCompletes(ok, now, later) => WriteCompletedKeepsInv(c, s, ok, now, later);
    case RunReconnect => ReconnectKeepsInv(c, s);
    case Handshake(ok, channels) =>
      if ok {
        HandshakeKeepsInv(c, s, channels);
      } else {
        HandshakeFailKeepsInv(c, s, channels);
      }
  }

  lemma {:induction false} RunKeepsInv(c: Config, es: seq<Event>)
    requires After(c, es).Some? && Calm(c, es, 0)
    ensures Inv(c, After(c, es).value)
    decreases |es|
  {
    hide Step, Enabled, Overruns, Inv;
    if es == [] {
      InitialInv(c);
    } else {
      RunKeepsInv(c, es[..|es| - 1]);
      StepKeepsInv(c, After(c, es[..|es| - 1]).value, es[|es| - 1]);
    }
  }

  lemma InitialInv(c: Config)
    ensures Inv(c, INITIAL)
  {
  }

  // ---------- runs ----------

  lemma Extend(c: Config, es: seq<Event>, e: Event)
    requires After(c, es).Some? && Enabled(After(c, es).value, e)
    ensures After(c, es + [e]) == Some(Step(c, After(c, es).value, e))
  {
    assert (es + [e])[..|es|] == es;
  }

  /** The state of a run before event i, and how it goes on. */
  lemma {:induction false} NextEvent(c: Config, es: seq<Event>, i: nat)
    requires After(c, es).Some? && i < |es|
    ensures var s := After(c, es[..i]);
      s.Some? && Enabled(s.value, es[i]) && After(c, es[..i + 1]) == Some(Step(c, s.value, es[i]))
    decreases |es|
  {
    hide Step, Enabled;
    var front := es[..|es| - 1];
    if i < |front| {
      NextEvent(c, front, i);
      assert front[..i] == es[..i] && front[..i + 1] == es[..i + 1];
    } else {
      assert es[..i] == front && es[..i + 1] == es;
    }
  }

  /** Calm from n on, and at n, is calm from n. */
  lemma {:induction false} CalmSooner(c: Config, es: seq<Event>, n: nat)
    requires n < |es| && Calm(c, es, n + 1)
    requires After(c, es[..n]).Some? && !Overruns(After(c, es[..n]).value, es[n])
    ensures Calm(c, es, n)
    decreases |es|
  {
    var front := es[..|es| - 1];
    if n < |front| {
      assert front[..n] == es[..n];
      CalmSooner(c, front, n);
    } else {
      assert es[..n] == front;
    }
  }

  lemma {:induction false} CalmTogether(c: Config, es: seq<Event>, more: seq<Event>)
    requires Calm(c, es, 0) && Calm(c, es + more, |es|)
    ensures Calm(c, es + more, 0)
    decreases |more|
  {
    if more == [] {
      assert es + more == es;
    } else {
      assert (es + more)[..|es + more| - 1] == es + more[..|more| - 1];
      CalmTogether(c, es, more[..|more| - 1]);
    }
  }

  /** f lists the states of the run es. */
  ghost predicate Traces(c: Config, es: seq<Event>, f: nat -> State) {
    && f(0) == INITIAL
    && forall i :: 0 <= i < |es| ==> Enabled(f(i), es[i]) && Step(c, f(i), es[i]) == f(i + 1)
  }

  lemma {:induction false} TraceRun(c: Config, es: seq<Event>, f: nat -> State, i: nat)
    requires Traces(c, es, f) && i <= |es|
    ensures After(c, es[..i]) == Some(f(i))
    ensures (forall k :: 0 <= k < i ==> !Overruns(f(k), es[k])) ==> Calm(c, es[..i], 0)
    decreases i
  {
    hide Step, Enabled, Overruns;
    if i > 0 {
      TraceRun(c, es, f, i - 1);
      Extend(c, es[..i - 1], es[i - 1]);
      assert es[..i - 1] + [es[i - 1]] == es[..i];
      assert es[..i][..i - 1] == es[..i - 1];
    }
  }
}
