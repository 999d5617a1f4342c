/**
  Downloading the targets of a log request one HTTP exchange at a time, as the
  handlers of `LogDownloader` do it.  Each handler is one atomic step, except
  `readHandler`: waiting for its mutex, issuing the next write, and running the
  callback (which ends with the mutex released) are separate steps, between
  which handlers of the next exchange may run on other threads.
 */
module Downloader {
  import opened StringViews

  /** What the network does next.  Failed(i): an error after i bodies were taken over. */
  datatype Phase =
    | Start | Resolving | Connecting | Handshaking
    | Writing(i: nat) | Reading(i: nat) | Locking(i: nat)
    | Closing | Closed
    | Failed(i: nat) | Aborted | Undefined

  datatype Download = Download(target: nat, body: string)

  /**
    response: the body in the response parser, read but not yet moved out;
    held: the log of the handler that holds the read-handler mutex.
   */
  datatype Net = Net(count: nat, phase: Phase, response: Option<string>, held: Option<Download>)

  datatype Event =
    | Run(ok: bool) | Resolve(ok: bool) | Connect(ok: bool) | Handshake(ok: bool)
    | Write(ok: bool) | Read(ok: bool, body: string)
    | Lock | Callback | Shutdown

  /** Which function of the request a handler calls. */
  datatype Call = NoCall | ErrorHandler | CallbackWith(download: Download)

  predicate Enabled(net: Net, e: Event) {
    match e
    case Run(_) => net.phase.Start?
    case Resolve(_) => net.phase.Resolving?
    case Connect(_) => net.phase.Connecting?
    case Handshake(_) => net.phase.Handshaking?
    case Write(_) => net.phase.Writing?
    case Read(_, _) => net.phase.Reading?
    case Lock => net.phase.Locking? && net.held.None? && net.response.Some?
    case Callback => net.held.Some?
    case Shutdown => net.phase.Closing?
  }

  function Taken(net: Net): nat {
    match net.phase
    case Writing(i) => i
    case Reading(i) => i
    case Locking(i) => i
    case Failed(i) => i
    case Closing => net.count
    case Closed => net.count
    case _ => 0
  }

  function AfterError(net: Net): Net {
    net.(phase := Failed(Taken(net)))
  }

  function NetStep(net: Net, e: Event): Net
    requires Enabled(net, e)
  {
    match e
    case Run(ok) => net.(phase := if ok then Resolving else Aborted)
    case Resolve(ok) => if ok then net.(phase := Connecting) else AfterError(net)
    case Connect(ok) => if ok then net.(phase := Handshaking) else AfterError(net)
    case Handshake(ok) =>
      if !ok then AfterError(net)
      else net.(phase := if net.count == 0 then Undefined else Writing(0))
    case Write(ok) => if ok then net.(phase := Reading(net.phase.i)) else AfterError(net)
    case Read(ok, body) =>
      if ok then net.(phase := Locking(net.phase.i), response := Some(body)) else AfterError(net)
    case Lock =>
      var i := net.phase.i;
      net.(phase := if i + 1 < net.count then Writing(i + 1) else Closing,
           response := None, held := Some(Download(i, net.response.value)))
    case Callback => net.(held := None)
    case Shutdown => net.(phase := Closed)
  }

  function CallOf(net: Net, e: Event): Call
    requires Enabled(net, e)
  {
    match e
    case Callback => CallbackWith(net.held.value)
    case Run(_) => NoCall
    case Lock => NoCall
    case Shutdown => NoCall
    case _ => if e.ok then NoCall else ErrorHandler
  }

  class LogDownloader {
    const targetCount: nat
    var phase: Phase
    var response: Option<string>
    var held: Option<Download>

    function State(): Net
      reads this
    {
      Net(targetCount, phase, response, held)
    }

    constructor (targets: nat)
      ensures State() == Net(targets, Start, None, None)
    {
      targetCount := targets;
      phase := Start;
      response := None;
      held := None;
    }

    /** ok: the TLS host name could be set; otherwise nothing is ever started. */
    method Run(ok: bool)
      requires Enabled(State(), Event.Run(ok))
      modifies this
      ensures State() == NetStep(old(State()), Event.Run(ok))
    {
      phase := if ok then Resolving else Aborted;
    }

    /** Calls the request's error handler and throws, so the chain of handlers ends here. */
    method Error() returns (call: Call)
      modifies this
      ensures State() == AfterError(old(State())) && call == ErrorHandler
    {
      phase := Failed(Taken(State()));
      call := ErrorHandler;
    }

    method ResolveHandler(ok: bool) returns (call: Call)
      requires Enabled(State(), Resolve(ok))
      modifies this
      ensures State() == NetStep(old(State()), Resolve(ok)) && call == CallOf(old(State()), Resolve(ok))
    {
      if !ok {
        call := Error();
        return;
      }
      phase, call := Connecting, NoCall;
    }

    method ConnectHandler(ok: bool) returns (call: Call)
      requires Enabled(State(), Connect(ok))
      modifies this
      ensures State() == NetStep(old(State()), Connect(ok)) && call == CallOf(old(State()), Connect(ok))
    {
      if !ok {
        call := Error();
        return;
      }
      phase, call := Handshaking, NoCall;
    }

    /** Dereferences the first target, whether or not there is one. */
    method HandshakeHandler(ok: bool) returns (call: Call)
      requires Enabled(State(), Handshake(ok))
      modifies this
      ensures State() == NetStep(old(State()), Handshake(ok)) && call == CallOf(old(State()), Handshake(ok))
    {
      if !ok {
        call := Error();
        return;
      }
      phase, call := if targetCount == 0 then Undefined else Writing(0), NoCall;
    }

    method WriteHandler(ok: bool) returns (call: Call)
      requires Enabled(State(), Write(ok))
      modifies this
      ensures State() == NetStep(old(State()), Write(ok)) && call == CallOf(old(State()), Write(ok))
    {
      if !ok {
        call := Error();
        return;
      }
      phase, call := Reading(phase.i), NoCall;
    }

    /** `readHandler` up to its mutex. */
    method ReadHandler(ok: bool, body: string) returns (call: Call)
      requires Enabled(State(), Read(ok, body))
      modifies this
      ensures State() == NetStep(old(State()), Read(ok, body)) && call == CallOf(old(State()), Read(ok, body))
    {
      if !ok {
        call := Error();
        return;
      }
      phase, response, call := Locking(phase.i), Some(body), NoCall;
    }

    /** `readHandler` takes the mutex, moves the body out and issues the next operation. */
    method ReadHandlerLocked()
      requires Enabled(State(), Lock)
      modifies this
      ensures State() == NetStep(old(State()), Lock)
    {
      var it := phase.i;
      var tempData := response.value;
      response := None;
      var nextIt := it + 1;
      if nextIt < targetCount {
        phase := Writing(nextIt);
      } else {
        phase := Closing;
      }
      held := Some(Download(it, tempData));
    }

    /** `readHandler` passes the log to the callback and lets go of the mutex. */
    method ReadHandlerCallback() returns (call: Call)
      requires Enabled(State(), Callback)
      modifies this
      ensures State() == NetStep(old(State()), Callback) && call == CallOf(old(State()), Callback)
    {
      call := CallbackWith(held.value);
      held := None;
    }

    method ShutdownHandler()
      requires Enabled(State(), Shutdown)
      modifies this
      ensures State() == NetStep(old(State()), Shutdown)
    {
      phase := Closed;
    }
  }
}
