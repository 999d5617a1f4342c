/** The sending half of the bot: its members and handlers, tied to the protocol of SendQueue. */
module SenderClass {
  import opened TimeDetail
  import opened StringViews
  import opened WireForm
  import opened SendQueue

  /** The buffers are the texts, each with its line end. */
  ghost predicate WithLineEnds(buffers: seq<string>, texts: seq<string>) {
    |buffers| == |texts| && forall i :: 0 <= i < |buffers| ==> buffers[i] == texts[i] + "\r\n"
  }

  lemma NextBuffer(buffers: seq<string>, texts: seq<string>, text: string)
    requires WithLineEnds(buffers, texts)
    ensures WithLineEnds(buffers + [text + CRLF], texts + [text])
  {
  }

  class Sender {
    const config: Config
    var suspendRead: bool
    var suspendSend: bool
    var sendQueueBusy: bool
    var sendQueue: seq<string>
    var lastMessageSent: string
    var lastMessageSentTime: TimePoint

    /**
      What the event loop holds for the sender: operations and their handlers, the
      handlers posted to the send strand, reconnectHandlers, and connections.
     */
    var pending: multiset<Pending>
    var mail: seq<Job>
    var reconnects: nat
    var connecting: nat

    /** The buffers that were passed to `async_write`, in order. */
    var written: seq<string>

    /** `front()` or `pop()` was called on an empty queue. */
    var undefined: bool

    /** The state of the protocol: all of this and the history. */
    ghost var model: State

    ghost predicate Valid()
      reads this
    {
      && model.suspended == suspendSend && model.reading == !suspendRead
      && model.busy == sendQueueBusy && model.queue == sendQueue
      && model.last == lastMessageSent && model.lastTime == lastMessageSentTime
      && model.pending == pending && model.mail == mail
      && model.reconnects == reconnects && model.connecting == connecting
      && model.fault == undefined
      && WithLineEnds(written, model.wire)
    }

    /** Construction, and `run()` from main. */
    constructor (config: Config)
      ensures Valid() && model == INITIAL && this.config == config
    {
      this.config := config;
      suspendRead, suspendSend, sendQueueBusy := true, true, false;
      sendQueue, lastMessageSent, lastMessageSentTime := [], "", 0;
      pending, mail, reconnects, connecting, undefined := multiset{}, [], 0, 1, false;
      written := [];
      model := INITIAL;
    }

    method PostSendIRC(message: string)
      requires Valid() && !undefined
      modifies this
      ensures Valid() && model == Step(config, old(model), Post(message))
    {
      mail := mail + [Enqueue(message)];
      model := Step(config, model, Post(message));
    }

    method PostDoRECONNECT()
      requires Valid() && Enabled(model, ReconnectMessage)
      modifies this
      ensures Valid() && model == Step(config, old(model), ReconnectMessage)
    {
      suspendRead := true;
      mail := mail + [Suspend];
      model := Step(config, model, ReconnectMessage);
    }

    method EnqueueHandler(message: string, now: TimePoint)
      requires Valid()
      modifies this
      ensures Valid() && model == EnqueueStep(old(model), message, now)
      ensures old(suspendSend) ==> sendQueue == old(sendQueue) && sendQueueBusy == old(sendQueueBusy)
      ensures !old(suspendSend) ==> |sendQueue| == |old(sendQueue)| + 1 && sendQueueBusy
      ensures !old(suspendSend) && old(sendQueueBusy) ==> sendQueue == old(sendQueue) + [message]
    {
      hide SendQueue.DoSendQueue;
      if !suspendSend {
        sendQueue := sendQueue + [message];
        model := model.(queue := sendQueue, accepted := model.accepted + [message]);
        if !sendQueueBusy {
          sendQueueBusy := true;
          model := model.(busy := true);
          DoSendQueue(now);
        }
      }
    }

    method SuspendWriteHandler()
      requires Valid()
      modifies this
      ensures Valid() && model == SuspendStep(old(model))
    {
      model := SuspendStep(model);
      suspendSend := true;
      if !sendQueueBusy {
        reconnects := reconnects + 1;
      }
    }

    method DoSendQueue(now: TimePoint)
      requires Valid()
      modifies this
      ensures Valid() && model == SendQueue.DoSendQueue(old(model), now)
      ensures |sendQueue| == |old(sendQueue)| && sendQueueBusy == old(sendQueueBusy)
    {
      hide StartWrite;
      var nextExpire := lastMessageSentTime + PAUSE;
      if now < nextExpire {
        pending := pending + multiset{TimerWait(nextExpire)};
        model := model.(pending := pending, clock := now);
      } else {
        SendFront(now);
      }
    }

    /**
      The timer's handler posts the send, which is then the only thing outstanding;
      it fires at the end of the pause, with a message to send.
     */
    method WaitHandler(expiry: TimePoint, now: TimePoint)
      requires Valid() && Enabled(model, TimerFires(expiry, now))
      modifies this
      ensures Valid() && model == Step(config, old(model), TimerFires(expiry, now))
      ensures Inv(config, old(model)) ==>
        && pending == multiset{SendHandler} && expiry == lastMessageSentTime + PAUSE
        && sendQueue == old(sendQueue) != []
    {
      if Inv(config, model) {
        TimerAlone(config, model, expiry);
      }
      pending := pending - multiset{TimerWait(expiry)};
      pending := pending + multiset{SendHandler};
      model := Step(config, model, TimerFires(expiry, now));
    }

    /** `send_handler`: decorates the front of the queue in place and writes it. */
    method SendFront(now: TimePoint)
      requires Valid()
      modifies this
      ensures Valid() && model == StartWrite(old(model), now)
      ensures |sendQueue| == |old(sendQueue)| && sendQueueBusy == old(sendQueueBusy)
    {
      hide WithLineEnds;
      ghost var before := model;
      if sendQueue == [] {
        undefined := true;
      } else {
        NextBuffer(written, model.wire, Decorate(sendQueue[0], lastMessageSent));
        var message := sendQueue[0];
        if message == lastMessageSent {
          message := message + TRANSPARENT;
        }
        lastMessageSent := message;
        message := message + CRLF;
        sendQueue := [message] + sendQueue[1..];
        written := written + [message];
        pending := pending + multiset{WriteHandler};
      }
      model := StartWrite(before, now);
    }

    method OnSendQueue(ok: bool, now: TimePoint, later: TimePoint)
      requires Valid() && Enabled(model, WriteCompletes(ok, now, later))
      modifies this
      ensures Valid() && model == WriteCompleted(old(model), ok, now, later)
    {
      hide SendQueue.DoSendQueue;
      if suspendSend {
        DropWrite(None, now);
        reconnects := reconnects + 1;
        model := model.(reconnects := reconnects, drained := true);
        return;
      }
      if !ok {
        DropWrite(None, now);
        model := model.(failed := true);
        return;
      }
      if sendQueue == [] {
        undefined := true;
        model := model.(fault := true);
        return;
      }
      PopFront(now);
      GoOn(later);
    }

    /** Falls idle, or sends the next message. */
    method GoOn(later: TimePoint)
      requires Valid()
      modifies this
      ensures Valid()
      ensures model == if old(model).queue == [] then old(model).(busy := false)
                       else SendQueue.DoSendQueue(old(model), later)
    {
      hide SendQueue.DoSendQueue;
      if sendQueue == [] {
        sendQueueBusy := false;
        model := model.(busy := false);
      } else {
        DoSendQueue(later);
      }
    }

    /** The event loop forgets the write. */
    method DropWrite(ghost end: Option<TimePoint>, now: TimePoint)
      requires Valid()
      modifies `pending, `model
      ensures Valid() && model == WriteEnded(old(model), end, now)
    {
      pending := pending - multiset{WriteHandler};
      model := WriteEnded(model, end, now);
    }

    method PopFront(now: TimePoint)
      requires Valid() && sendQueue != []
      modifies this
      ensures Valid() && model == Popped(old(model), now)
    {
      DropWrite(Some(now), now);
      lastMessageSentTime := now;
      sendQueue := sendQueue[1..];
      model := Popped(old(model), now);
    }

    method ReconnectHandler()
      requires Valid() && Enabled(model, RunReconnect)
      modifies this
      ensures Valid() && model == ReconnectStep(old(model))
    {
      reconnects := reconnects - 1;
      sendQueue := [];
      sendQueueBusy := false;
      connecting := connecting + 1;
      model := ReconnectStep(model);
    }

    method OnHandshake(ok: bool, channels: seq<string>)
      requires Valid() && Enabled(model, Handshake(ok, channels))
      modifies this
      ensures Valid() && model == HandshakeStep(config, old(model), ok, channels)
    {
      model := HandshakeStep(config, model, ok, channels);
      connecting := connecting - 1;
      if !ok {
        return;
      }
      sendQueue := sendQueue + ["PASS " + config.password];
      sendQueue := sendQueue + ["NICK " + config.nick];
      suspendRead := false;
      suspendSend := false;
      mail := mail + Greeting(config, channels);
      assert sendQueue == old(sendQueue) + [Pass(config), Nick(config)];
    }

    /** Runs the handler of one event. */
    method Handle(e: Event)
      requires Valid() && Enabled(model, e)
      modifies this
      ensures Valid() && model == Step(config, old(model), e)
    {
      hide StartWrite, SendQueue.DoSendQueue, EnqueueStep, WriteCompleted, SuspendStep;
      match e {
        case Post(message) => PostSendIRC(message);
        case ReconnectMessage => PostDoRECONNECT();
        case RunJob(k, now) =>
          var job := mail[k];
          mail := mail[..k] + mail[k + 1..];
          model := model.(mail := mail);
          match job {
            case Enqueue(message) => EnqueueHandler(message, now);
            case Suspend => SuspendWriteHandler();
          }
        case TimerFires(expiry, now) => WaitHandler(expiry, now);
        case RunSend(now) =>
          pending := pending - multiset{SendHandler};
          model := model.(pending := pending);
          SendFront(now);
        case WriteCompletes(ok, now, later) => OnSendQueue(ok, now, later);
        case RunReconnect => ReconnectHandler();
        case Handshake(ok, channels) => OnHandshake(ok, channels);
      }
    }
  }

  lemma TimerAlone(c: Config, s: State, expiry: TimePoint)
    requires Inv(c, s) && TimerWait(expiry) in s.pending
    ensures s.pending == multiset{TimerWait(expiry)} && expiry == s.lastTime + PAUSE && s.queue != []
  {
    hide Link, Idle, WireOk;
    OnePending(s, TimerWait(expiry));
  }

  /**
    The bot's sender, driven by any sequence of handler events, goes through the
    states of the protocol; in a calm run it never calls for the front of an empty queue.
   */
  method RunSender(c: Config, events: seq<Event>) returns (sender: Sender)
    requires After(c, events).Some?
    ensures fresh(sender) && sender.Valid() && sender.model == After(c, events).value
    ensures Calm(c, events, 0) ==> !sender.undefined
  {
    hide Step, Enabled, Overruns;
    sender := new Sender(c);
    for i := 0 to |events|
      invariant fresh(sender) && sender.config == c && sender.Valid()
      invariant After(c, events[..i]) == Some(sender.model)
    {
      NextEvent(c, events, i);
      sender.Handle(events[i]);
    }
    assert events[..|events|] == events;
    if Calm(c, events, 0) {
      RunKeepsInv(c, events);
    }
  }
}
