/** From the messages that are posted to the bytes on the wire, in terms of the events of a run. */
module Delivery {
  import opened StringViews
  import opened TimeDetail
  import opened Search
  import opened WireForm
  import opened SendQueue
  import opened SendResults
  import Framing

  // ---------- what a session accepts ----------

  /**
    PASS and NICK, and then the messages of all handlers that the strand has run in
    the session while sending was not suspended, in that order.
   */
  function Handed(c: Config, es: seq<Event>): seq<string>
    requires After(c, es).Some?
  {
    if es == [] then []
    else
      var front, e := es[..|es| - 1], es[|es| - 1];
      var s := After(c, front).value;
      if e.Handshake? && e.ok then ["PASS " + c.password, "NICK " + c.nick]
      else if e.RunReconnect? then []
      else if e.RunJob? && s.mail[e.k].Enqueue? && !s.suspended then Handed(c, front) + [s.mail[e.k].message]
      else Handed(c, front)
  }

  lemma EnqueueAccepts(s: State, message: string, now: TimePoint)
    ensures EnqueueStep(s, message, now).accepted == if s.suspended then s.accepted else s.accepted + [message]
  {
    hide DoSendQueue;
    var t := s.(queue := s.queue + [message], accepted := s.accepted + [message]);
    DoSendQueueLinks(t.(busy := true), now);
  }

  lemma CompletionAccepts(s: State, ok: bool, now: TimePoint, later: TimePoint)
    ensures WriteCompleted(s, ok, now, later).accepted == s.accepted
  {
    hide DoSendQueue;
    if s.queue != [] {
      DoSendQueueLinks(Popped(s, now), later);
    }
  }

  lemma StepAccepts(c: Config, s: State, e: Event)
    requires Inv(c, s) && Enabled(s, e)
    ensures Step(c, s, e).accepted
         == if e.Handshake? && e.ok then ["PASS " + c.password, "NICK " + c.nick]
            else if e.RunReconnect? then []
            else if e.RunJob? && s.mail[e.k].Enqueue? && !s.suspended then s.accepted + [s.mail[e.k].message]
            else s.accepted
  {
    hide EnqueueStep, WriteCompleted, StartWrite, Messages, Idle, Timing, Greeting, Without;
    match e
    case RunJob(k, now) =>
      if s.mail[k].Enqueue? {
        EnqueueAccepts(SendQueue.Taken(s, k), s.mail[k].message, now);
      }
    case RunSend(now) => StartWriteLinks(s.(pending := s.pending - multiset{SendHandler}), now);
    case WriteCompletes(ok, now, later) => CompletionAccepts(s, ok, now, later);
    case _ =>
  }

  lemma {:induction false} AcceptedIsHanded(c: Config, es: seq<Event>)
    requires After(c, es).Some? && Calm(c, es, 0)
    ensures After(c, es).value.accepted == Handed(c, es)
    decreases |es|
  {
    hide Step, Enabled, Overruns, Inv;
    if es != [] {
      var front := es[..|es| - 1];
      AcceptedIsHanded(c, front);
      RunKeepsInv(c, front);
      StepAccepts(c, After(c, front).value, es[|es| - 1]);
    }
  }

  /**
    In every calm run, what a session has written is what was handed to it, in that
    order; the rest is still queued.
   */
  lemma HandedIsFifo(c: Config, es: seq<Event>)
    requires After(c, es).Some? && Calm(c, es, 0)
    ensures var s, handed := After(c, es).value, Handed(c, es);
      var k := |s.wire| - s.base;
      && 0 <= k <= |handed|
      && s.wire[s.base..] == Wire(Last(s.wire[..s.base], ""), handed[..k])
      && s.queue == (if k > |s.dones| then [s.wire[|s.wire| - 1] + "\r\n"] else []) + handed[k..]
  {
    hide After, Calm, Handed;
    SessionIsFifo(c, es);
    AcceptedIsHanded(c, es);
  }

  // ---------- nothing that is posted gets lost on the way to the strand ----------

  /** The messages in posted handlers. */
  function Waiting(mail: seq<Job>): multiset<string> {
    if mail == [] then multiset{}
    else Waiting(mail[1..]) + MessagesOf(mail[0])
  }

  lemma {:induction false} WaitingAppend(a: seq<Job>, b: seq<Job>)
    ensures Waiting(a + b) == Waiting(a) + Waiting(b)
    decreases |a|
  {
    if a == [] {
      assert a + b == b;
    } else {
      assert (a + b)[1..] == a[1..] + b;
      WaitingAppend(a[1..], b);
    }
  }

  lemma WaitingOne(job: Job)
    ensures Waiting([job]) == MessagesOf(job)
  {
    assert [job][1..] == [];
  }

  function MessagesOf(job: Job): multiset<string> {
    if job.Enqueue? then multiset{job.message} else multiset{}
  }

  lemma {:induction false} WaitingWithout(mail: seq<Job>, k: nat)
    requires k < |mail|
    ensures Waiting(mail) == Waiting(Without(mail, k)) + MessagesOf(mail[k])
    decreases k
  {
    hide MessagesOf;
    if k == 0 {
      assert Without(mail, 0) == mail[1..];
    } else {
      WaitingWithout(mail[1..], k - 1);
      assert Without(mail, k)[1..] == Without(mail[1..], k - 1);
      SwapLast(Waiting(Without(mail[1..], k - 1)), MessagesOf(mail[k]), MessagesOf(mail[0]));
    }
  }

  lemma SwapLast<T>(a: multiset<T>, b: multiset<T>, c: multiset<T>)
    ensures a + b + c == a + c + b
  {
  }

  /** The first messages of a session: the bot joins its own channel, greets it, and joins the others again. */
  function GreetingTexts(c: Config, channels: seq<string>): seq<string> {
    var own := ChannelName(c.nick);
    ["JOIN " + own, "PRIVMSG " + own + " :monkaMEGA"]
    + seq(|channels|, i requires 0 <= i < |channels| => "JOIN " + channels[i])
  }

  /** The bot's own channel is its nick in lower case after one '#'. */
  lemma OwnChannel(nick: string)
    ensures var own := ChannelName(nick);
      && own != "" && own[0] == '#' && (forall i :: 0 <= i < |own| ==> !('A' <= own[i] <= 'Z'))
      && Alike(true, own, if nick != "" && nick[0] == '#' then nick else "#" + nick)
  {
    var own, whole := ChannelName(nick), if nick != "" && nick[0] == '#' then nick else "#" + nick;
    forall i | 0 <= i < |whole|
      ensures SameLetter(own[i], whole[i])
    {
      SameExactly(true, own[i], whole[i]);
    }
  }

  lemma {:induction false} WaitingTexts(texts: seq<string>, mail: seq<Job>)
    requires |mail| == |texts| && forall i :: 0 <= i < |mail| ==> mail[i] == Enqueue(texts[i])
    ensures Waiting(mail) == multiset(texts)
    decreases |mail|
  {
    if mail != [] {
      WaitingTexts(texts[1..], mail[1..]);
      assert texts == [texts[0]] + texts[1..];
    } else {
      assert texts == [];
    }
  }

  /** A handshake posts the greeting behind what is posted already. */
  lemma HandshakePosts(c: Config, s: State, channels: seq<string>)
    requires Enabled(s, Handshake(true, channels))
    ensures var mail, texts := Step(c, s, Handshake(true, channels)).mail, GreetingTexts(c, channels);
      && |mail| == |s.mail| + |texts| && mail[..|s.mail|] == s.mail
      && forall i :: 0 <= i < |texts| ==> mail[|s.mail| + i] == Enqueue(texts[i])
  {
  }

  /** The messages of the handlers that the strand has run. */
  function Run(c: Config, es: seq<Event>): multiset<string>
    requires After(c, es).Some?
  {
    if es == [] then multiset{}
    else
      var front, e := es[..|es| - 1], es[|es| - 1];
      var s := After(c, front).value;
      Run(c, front) + Taking(s, e)
  }

  /** The message of the handler that an event runs. */
  function Taking(s: State, e: Event): multiset<string> {
    if e.RunJob? && e.k < |s.mail| then MessagesOf(s.mail[e.k]) else multiset{}
  }

  /** The messages that come with an event. */
  function Giving(c: Config, e: Event): multiset<string> {
    if e.Post? then multiset{e.message}
    else if e.Handshake? && e.ok then multiset(GreetingTexts(c, e.channels))
    else multiset{}
  }

  /** The messages that were given to the bot, and the greetings of its sessions. */
  function Given(c: Config, es: seq<Event>): multiset<string> {
    if es == [] then multiset{}
    else Given(c, es[..|es| - 1]) + Giving(c, es[|es| - 1])
  }

  /** What becomes of the posted handlers in a step. */
  lemma MailAfter(c: Config, s: State, e: Event)
    requires Enabled(s, e)
    ensures Step(c, s, e).mail
         == match e
            case Post(message) => s.mail + [Enqueue(message)]
            case ReconnectMessage => s.mail + [Suspend]
            case RunJob(k, _) => Without(s.mail, k)
            case Handshake(ok, channels) => if ok then s.mail + Greeting(c, channels) else s.mail
            case _ => s.mail
  {
    hide EnqueueStep, SuspendStep, WriteCompleted, StartWrite, ReconnectStep, HandshakeStep, Greeting, Without;
    match e
    case RunJob(k, now) =>
      if s.mail[k].Enqueue? {
        EnqueueKeepsMail(SendQueue.Taken(s, k), s.mail[k].message, now);
      } else {
        SuspendKeepsMail(SendQueue.Taken(s, k));
      }
    case RunSend(now) => StartWriteLinks(s.(pending := s.pending - multiset{SendHandler}), now);
    case WriteCompletes(ok, now, later) => CompletionKeepsMail(s, ok, now, later);
    case RunReconnect => ReconnectKeepsMail(s);
    case Handshake(ok, channels) => HandshakeAddsMail(c, s, ok, channels);
    case _ =>
  }

  lemma SuspendKeepsMail(s: State)
    ensures SuspendStep(s).mail == s.mail
  {
  }

  lemma ReconnectKeepsMail(s: State)
    requires s.reconnects > 0
    ensures ReconnectStep(s).mail == s.mail
  {
  }

  lemma HandshakeAddsMail(c: Config, s: State, ok: bool, channels: seq<string>)
    requires s.connecting > 0
    ensures HandshakeStep(c, s, ok, channels).mail == if ok then s.mail + Greeting(c, channels) else s.mail
  {
    hide Greeting;
  }

  lemma GreetingWaits(c: Config, channels: seq<string>)
    ensures Waiting(Greeting(c, channels)) == multiset(GreetingTexts(c, channels))
  {
    WaitingTexts(GreetingTexts(c, channels), Greeting(c, channels));
  }

  lemma StepMail(c: Config, s: State, e: Event)
    requires Enabled(s, e)
    ensures Waiting(Step(c, s, e).mail) + Taking(s, e) == Waiting(s.mail) + Giving(c, e)
  {
    hide Step, Greeting, GreetingTexts, Without, Waiting;
    MailAfter(c, s, e);
    match e
    case Post(message) =>
      WaitingAppend(s.mail, [Enqueue(message)]);
      WaitingOne(Enqueue(message));
    case ReconnectMessage =>
      WaitingAppend(s.mail, [Suspend]);
      WaitingOne(Suspend);
    case RunJob(k, now) => WaitingWithout(s.mail, k);
    case Handshake(ok, channels) =>
      WaitingAppend(s.mail, Greeting(c, channels));
      GreetingWaits(c, channels);
    case _ =>
  }

  lemma EnqueueKeepsMail(s: State, message: string, now: TimePoint)
    ensures EnqueueStep(s, message, now).mail == s.mail
  {
    hide DoSendQueue;
    var t := s.(queue := s.queue + [message], accepted := s.accepted + [message]);
    DoSendQueueLinks(t.(busy := true), now);
  }

  lemma CompletionKeepsMail(s: State, ok: bool, now: TimePoint, later: TimePoint)
    ensures WriteCompleted(s, ok, now, later).mail == s.mail
  {
    hide DoSendQueue;
    if s.queue != [] {
      DoSendQueueLinks(Popped(s, now), later);
    }
  }

  /** In any run, the strand has run the handlers of all messages given to the bot but those still posted. */
  lemma {:induction false} NothingIsLost(c: Config, es: seq<Event>)
    requires After(c, es).Some?
    ensures Run(c, es) + Waiting(After(c, es).value.mail) == Given(c, es)
    decreases |es|
  {
    hide Step, Enabled, Waiting, Taking, Giving;
    if es == [] {
      assert Waiting([]) == multiset{} by { NothingWaits(); }
    } else {
      var front := es[..|es| - 1];
      NothingIsLost(c, front);
      var s, e := After(c, front).value, es[|es| - 1];
      StepMail(c, s, e);
      Rearranged(Run(c, front), Waiting(s.mail), Taking(s, e), Waiting(Step(c, s, e).mail), Giving(c, e));
    }
  }

  lemma Rearranged<T>(run: multiset<T>, before: multiset<T>, taken: multiset<T>, after: multiset<T>, given: multiset<T>)
    requires after + taken == before + given
    ensures run + taken + after == run + before + given
  {
    assert run + taken + after == run + (after + taken);
    assert run + before + given == run + (before + given);
  }

  lemma NothingWaits()
    ensures Waiting([]) == multiset{}
  {
  }

  /**
    At rest, an unsuspended session without a failed write has written every
    message that was handed to it, once and in order, and no message is left
    anywhere else.
   */
  lemma EveryMessageIsWritten(c: Config, es: seq<Event>)
    requires After(c, es).Some? && Calm(c, es, 0) && AtRest(After(c, es).value)
    requires !After(c, es).value.suspended && !After(c, es).value.failed
    ensures Run(c, es) == Given(c, es)
    ensures var s, handed := After(c, es).value, Handed(c, es);
      && s.queue == [] && |s.wire| == s.base + |handed|
      && forall i :: 0 <= i < |handed| ==>
           s.wire[s.base + i] == handed[i] || s.wire[s.base + i] == handed[i] + " \U{E2}\U{81}\U{AD}"
  {
    hide After, Calm, Step, Enabled, AtRest, Run, Given, Handed;
    var s := After(c, es).value;
    RestMeansDone(c, es);
    AcceptedIsHanded(c, es);
    NothingIsLost(c, es);
    RunKeepsInv(c, es);
    NothingLeft(c, s);
    var before := Last(s.wire[..s.base], "");
    forall i | 0 <= i < |s.accepted|
      ensures s.wire[s.base + i] == s.accepted[i] || s.wire[s.base + i] == s.accepted[i] + " \U{E2}\U{81}\U{AD}"
    {
      WireCarriesMessages(before, s.accepted, i);
      assert s.wire[s.base + i] == s.wire[s.base..][i];
    }
  }

  // ---------- the bytes ----------

  function Bytes(buffers: seq<string>): string {
    if buffers == [] then "" else buffers[0] + Bytes(buffers[1..])
  }

  /** Whoever frames what was written as the bot does gets the texts back. */
  lemma {:induction false} WrittenIsFramed(texts: seq<string>, buffers: seq<string>)
    requires |buffers| == |texts| && forall i :: 0 <= i < |texts| ==> buffers[i] == texts[i] + CRLF
    requires forall text :: text in texts ==> Framing.Clean(text)
    ensures Framing.Frame(Bytes(buffers)) == Framing.Framed(texts, "")
  {
    BytesAreStream(texts, buffers);
    assert Framing.Stream(texts) + "" == Framing.Stream(texts);
    Framing.FrameInvertsStream(texts, "");
  }

  lemma {:induction false} BytesAreStream(texts: seq<string>, buffers: seq<string>)
    requires |buffers| == |texts| && forall i :: 0 <= i < |texts| ==> buffers[i] == texts[i] + CRLF
    ensures Bytes(buffers) == Framing.Stream(texts)
    decreases |texts|
  {
    if texts != [] {
      BytesAreStream(texts[1..], buffers[1..]);
    }
  }
}
