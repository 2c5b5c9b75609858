/**
 * The connection router: the loop that sits between the host's
 * newline-delimited JSON pipes and the kernel's shell, iopub, stdin and
 * control connections. Each pass handles exactly one ready source, so the
 * loop is a state machine driven by a sequence of events. `Next` and
 * `RunAll` give its meaning on values; `ConnectionHandler` runs it in place.
 */
module Router {
  import opened Wrappers
  import opened Jupyter

  /**
   * One ready source, together with what the environment answers to every
   * I/O call the pass could make on it (None: the call succeeds).
   */
  datatype Event =
    /** The host wrote `line` into the inbound pipe. */
    | PipeLine(line: string, sendError: Option<string>, flushError: Option<string>)
    /** The connection `from` produced a message or failed. */
    | Recv(from: Transport, received: Result<Message, string>,
           writeError: Option<string>, flushError: Option<string>)

  /**
   * What the host and the kernel can observe of the router: whether it still
   * runs (and if not, the error it ended with), the messages sent on each
   * sendable connection, the lines written to the outbound pipe, how many
   * flushes succeeded and how many of the written lines a flush has pushed out.
   */
  datatype RouterState = RouterState(
    status: Option<JupyterApiError>,
    shell: seq<Message>,
    stdin: seq<Message>,
    control: seq<Message>,
    written: seq<string>,
    flushes: nat,
    flushed: nat)
  {
    predicate Running() {
      status.None?
    }

    /** The messages sent on the connection of channel `c` (none for IOPub and Heartbeat). */
    function SentOn(c: Channel): seq<Message> {
      match c
      case Shell => shell
      case Stdin => stdin
      case Control => control
      case _ => []
    }

    function SendCount(): nat {
      |shell| + |stdin| + |control|
    }
  }

  /** The router as it starts: running, nothing sent, nothing written. */
  function Initial(): RouterState {
    RouterState(None, [], [], [], [], 0, 0)
  }

  /**
   * The inbound-pipe decoding steps, in the source's order: parse the line as
   * a message, parse it again as a key/value object, look up "content", and
   * replace the message's content by the type-directed reparse of that raw
   * value under the header's message type.
   */
  function Decode(codec: Codec, line: string): (r: Result<Message, JupyterApiError>)
    ensures r.Success? ==>
      && codec.parseMessage(line).Success?
      && r.value == codec.parseMessage(line).value.(content := r.value.content)
    ensures r.Success? ==>
      && codec.parseObject(line).Success?
      && "content" in codec.parseObject(line).value
      && codec.contentFromType(r.value.header.msgType, codec.parseObject(line).value["content"])
         == Success(r.value.content)
    ensures r.Failure? ==> r.error.SerdeJsonError? || r.error == ReceiveNoContentError
    ensures codec.parseMessage(line).Failure? ==>
      r == Failure(SerdeJsonError(codec.parseMessage(line).error))
    ensures codec.parseMessage(line).Success? && codec.parseObject(line).Failure? ==>
      r == Failure(SerdeJsonError(codec.parseObject(line).error))
    ensures codec.parseMessage(line).Success? && codec.parseObject(line).Success?
            && "content" in codec.parseObject(line).value ==>
      var parsed := codec.parseMessage(line).value;
      var reparsed := codec.contentFromType(parsed.header.msgType, codec.parseObject(line).value["content"]);
      && (reparsed.Success? ==> r == Success(parsed.(content := reparsed.value)))
      && (reparsed.Failure? ==> r == Failure(SerdeJsonError(reparsed.error)))
    ensures r == Failure(ReceiveNoContentError) <==>
      && codec.parseMessage(line).Success?
      && codec.parseObject(line).Success?
      && "content" !in codec.parseObject(line).value
  {
    match codec.parseMessage(line)
    case Failure(e) => Failure(SerdeJsonError(e))
    case Success(message) =>
      match codec.parseObject(line)
      case Failure(e) => Failure(SerdeJsonError(e))
      case Success(fields) =>
        if "content" !in fields then
          Failure(ReceiveNoContentError)
        else
          match codec.contentFromType(message.header.msgType, fields["content"])
          case Failure(e) => Failure(SerdeJsonError(e))
          case Success(content) => Success(message.(content := content))
  }

  /** The connection a decoded host message is sent on, chosen by its channel tag. */
  function Target(m: Message): (r: Result<Channel, JupyterApiError>)
    ensures r.Success? <==> m.channel.Some? && IsSendTarget(m.channel.value)
    ensures r.Success? ==> m.channel == Some(r.value)
    ensures r.Failure? && m.channel.None? ==> r.error == SendNoChannelError
    ensures r.Failure? && m.channel.Some? ==> r.error == SendSubChannelError
  {
    match m.channel
    case None => Failure(SendNoChannelError)
    case Some(Shell) => Success(Shell)
    case Some(Stdin) => Success(Stdin)
    case Some(Control) => Success(Control)
    case Some(_) => Failure(SendSubChannelError)
  }

  /** A received message tagged with the transport it arrived on. */
  function Stamp(m: Message, from: Transport): (r: Message)
    ensures r.channel == Some(from)
    ensures r.(channel := m.channel) == m
  {
    m.(channel := Some(from))
  }

  /** One outbound-pipe line: the serialised message and its newline. */
  function Frame(text: string): (r: string)
    ensures |r| == |text| + 1 && r[..|text|] == text && r[|text|] == '\n'
  {
    text + "\n"
  }

  /** The state after appending `m` to the log of connection `t`. */
  function WithSend(s: RouterState, t: Channel, m: Message): (r: RouterState)
    requires IsSendTarget(t)
    ensures r.SentOn(t) == s.SentOn(t) + [m]
    ensures forall c :: c != t ==> r.SentOn(c) == s.SentOn(c)
    ensures r.status == s.status && r.written == s.written
    ensures r.flushes == s.flushes && r.flushed == s.flushed
  {
    match t
    case Shell => s.(shell := s.shell + [m])
    case Stdin => s.(stdin := s.stdin + [m])
    case Control => s.(control := s.control + [m])
  }

  /** The flush that closes every pass that got this far without an error. */
  function Flush(s: RouterState, flushError: Option<string>): (r: RouterState)
    ensures r.shell == s.shell && r.stdin == s.stdin && r.control == s.control && r.written == s.written
    ensures r.Running() <==> s.Running() && flushError.None?
    ensures flushError.None? ==> r.flushes == s.flushes + 1 && r.flushed == |r.written|
    ensures flushError.Some? ==> r == s.(status := Some(IOError(flushError.value)))
  {
    match flushError
    case Some(e) => s.(status := Some(IOError(e)))
    case None => s.(flushes := s.flushes + 1, flushed := |s.written|)
  }

  /**
   * The inbound-pipe branch up to its flush: decode the line, pick the
   * connection from the channel tag and send the decoded message on it.
   */
  function ForwardLine(codec: Codec, s: RouterState, line: string, sendError: Option<string>): (r: RouterState)
    requires s.Running()
    ensures r.written == s.written && r.flushes == s.flushes && r.flushed == s.flushed
    ensures r.Running() <==>
      Decode(codec, line).Success? && Target(Decode(codec, line).value).Success? && sendError.None?
    ensures r.Running() ==>
      var m := Decode(codec, line).value;
      && r.SentOn(m.channel.value) == s.SentOn(m.channel.value) + [m]
      && forall c :: c != m.channel.value ==> r.SentOn(c) == s.SentOn(c)
    ensures !r.Running() ==> r == s.(status := r.status)
  {
    match Decode(codec, line)
    case Failure(e) => s.(status := Some(e))
    case Success(m) =>
      match Target(m)
      case Failure(e) => s.(status := Some(e))
      case Success(t) =>
        match sendError
        case Some(e) => s.(status := Some(RuntimelibError(e)))
        case None => WithSend(s, t, m)
  }

  /**
   * A receive branch up to its flush: stamp the message with the transport it
   * came from, serialise it and write it as one line to the outbound pipe.
   */
  function DeliverMessage(codec: Codec, s: RouterState, from: Transport,
                          received: Result<Message, string>, writeError: Option<string>): (r: RouterState)
    requires s.Running()
    ensures r.shell == s.shell && r.stdin == s.stdin && r.control == s.control
    ensures r.flushes == s.flushes && r.flushed == s.flushed
    ensures r.Running() <==>
      received.Success? && codec.toJson(Stamp(received.value, from)).Success? && writeError.None?
    ensures r.Running() ==>
      r.written == s.written + [Frame(codec.toJson(Stamp(received.value, from)).value)]
    ensures !r.Running() ==> r == s.(status := r.status)
    ensures received.Failure? ==> r.status == Some(RuntimelibError(received.error))
  {
    match received
    case Failure(e) => s.(status := Some(RuntimelibError(e)))
    case Success(m) =>
      match codec.toJson(Stamp(m, from))
      case Failure(e) => s.(status := Some(SerdeJsonError(e)))
      case Success(text) =>
        match writeError
        case Some(e) => s.(status := Some(IOError(e)))
        case None => s.(written := s.written + [Frame(text)])
  }

  /** One pass of the router's loop: the ready branch, then the flush; a terminated router does nothing. */
  function Next(codec: Codec, s: RouterState, ev: Event): (r: RouterState)
    ensures !s.Running() ==> r == s
    ensures s.SendCount() + |s.written| <= r.SendCount() + |r.written| <= s.SendCount() + |s.written| + 1
    ensures s.flushes <= r.flushes <= s.flushes + 1
    ensures r.Running() ==> s.Running() && r.flushes == s.flushes + 1
  {
    if !s.Running() then s
    else
      var handled :=
        match ev
        case PipeLine(line, sendError, _) => ForwardLine(codec, s, line, sendError)
        case Recv(from, received, writeError, _) => DeliverMessage(codec, s, from, received, writeError);
      if handled.Running() then Flush(handled, ev.flushError) else handled
  }

  /** The router after handling `events` in order. */
  function RunAll(codec: Codec, s: RouterState, events: seq<Event>): (r: RouterState)
    ensures r.SendCount() + |r.written| <= s.SendCount() + |s.written| + |events|
    ensures r.flushes <= s.flushes + |events|
    decreases |events|
  {
    if events == [] then s else RunAll(codec, Next(codec, s, events[0]), events[1..])
  }

  /** Every message in `log` is tagged with channel `c`. */
  ghost predicate TaggedWith(log: seq<Message>, c: Channel) {
    forall i :: 0 <= i < |log| ==> log[i].channel == Some(c)
  }

  /** Every line in `lines` is non-empty and ends in a newline. */
  ghost predicate NewlineTerminated(lines: seq<string>) {
    forall i :: 0 <= i < |lines| ==> |lines[i]| > 0 && lines[i][|lines[i]| - 1] == '\n'
  }

  /**
   * What holds of every state the router reaches from `Initial()`:
   * every message sent on a connection carries that connection's tag, every
   * written line ends in a newline, each successful pass sent or wrote exactly
   * once and flushed once, and a running router has flushed all it wrote.
   */
  ghost predicate Inv(s: RouterState) {
    && TaggedWith(s.shell, Shell)
    && TaggedWith(s.stdin, Stdin)
    && TaggedWith(s.control, Control)
    && NewlineTerminated(s.written)
    && s.flushed <= |s.written| <= s.flushed + 1
    && s.flushes <= s.SendCount() + |s.written| <= s.flushes + 1
    && (s.Running() ==> s.flushed == |s.written| && s.SendCount() + |s.written| == s.flushes)
  }

  /**
   * The router task in place: the pipe halves become the two logs, the three
   * sendable connections their send logs, `failure` the error the loop broke with.
   */
  class ConnectionHandler {
    const codec: Codec
    var failure: Option<JupyterApiError>
    var shellSent: seq<Message>
    var stdinSent: seq<Message>
    var controlSent: seq<Message>
    var outPipe: seq<string>
    var flushes: nat
    var flushed: nat

    function State(): RouterState
      reads this
    {
      RouterState(failure, shellSent, stdinSent, controlSent, outPipe, flushes, flushed)
    }

    ghost predicate Valid()
      reads this
    {
      Inv(State())
    }

    constructor (codec: Codec)
      ensures this.codec == codec
      ensures Valid() && State() == Initial()
    {
      this.codec := codec;
      failure := None;
      shellSent, stdinSent, controlSent := [], [], [];
      outPipe := [];
      flushes, flushed := 0, 0;
    }

    /** One pass of the loop: handle the ready source `ev`, then flush. */
    method Step(ev: Event)
      requires Valid()
      modifies this
      ensures Valid()
      ensures State() == Next(codec, old(State()), ev)
    {
      NextPreservesInv(codec, State(), ev);
      if failure.Some? {
        return;
      }
      match ev {
        case PipeLine(line, sendError, _) => HandlePipeLine(line, sendError);
        case Recv(from, received, writeError, _) => HandleRecv(from, received, writeError);
      }
      if failure.None? {
        FlushOut(ev.flushError);
      }
    }

    /** The inbound-pipe branch: decode, dispatch on the channel tag, send. */
    method HandlePipeLine(line: string, sendError: Option<string>)
      requires failure.None?
      modifies this
      ensures State() == ForwardLine(codec, old(State()), line, sendError)
    {
      var parsed := codec.parseMessage(line);
      if parsed.Failure? {
        failure := Some(SerdeJsonError(parsed.error));
        return;
      }
      var message := parsed.value;
      var fields := codec.parseObject(line);
      if fields.Failure? {
        failure := Some(SerdeJsonError(fields.error));
        return;
      }
      if "content" !in fields.value {
        failure := Some(ReceiveNoContentError);
        return;
      }
      var content := codec.contentFromType(message.header.msgType, fields.value["content"]);
      if content.Failure? {
        failure := Some(SerdeJsonError(content.error));
        return;
      }
      message := message.(content := content.value);
      assert Decode(codec, line) == Success(message);
      match message.channel {
        case None =>
          failure := Some(SendNoChannelError);
        case Some(channel) =>
          if !IsSendTarget(channel) {
            failure := Some(SendSubChannelError);
          } else if sendError.Some? {
            failure := Some(RuntimelibError(sendError.value));
          } else {
            match channel {
              case Shell => shellSent := shellSent + [message];
              case Stdin => stdinSent := stdinSent + [message];
              case Control => controlSent := controlSent + [message];
            }
          }
      }
    }

    /** A receive branch: stamp the message with its transport and write it out as one line. */
    method HandleRecv(from: Transport, received: Result<Message, string>, writeError: Option<string>)
      requires failure.None?
      modifies this
      ensures State() == DeliverMessage(codec, old(State()), from, received, writeError)
    {
      if received.Failure? {
        failure := Some(RuntimelibError(received.error));
        return;
      }
      var message := received.value;
      message := message.(channel := Some(from));
      var text := codec.toJson(message);
      if text.Failure? {
        failure := Some(SerdeJsonError(text.error));
        return;
      }
      if writeError.Some? {
        failure := Some(IOError(writeError.value));
        return;
      }
      outPipe := outPipe + [text.value + "\n"];
    }

    /** The flush of the outbound pipe that ends every pass. */
    method FlushOut(flushError: Option<string>)
      modifies this
      ensures State() == Flush(old(State()), flushError)
    {
      if flushError.Some? {
        failure := Some(IOError(flushError.value));
      } else {
        flushes := flushes + 1;
        flushed := |outPipe|;
      }
    }

    /**
     * The loop itself: handle `events` in order until one ends the router.
     * Returns the error it ended with, or None if it is still running when
     * the events run out; it never ends successfully.
     */
    method Run(events: seq<Event>) returns (outcome: Option<JupyterApiError>)
      requires Valid()
      modifies this
      ensures Valid()
      ensures State() == RunAll(codec, old(State()), events)
      ensures outcome == State().status
    {
      var i := 0;
      while i < |events| && failure.None?
        invariant 0 <= i <= |events|
        invariant Valid()
        invariant RunAll(codec, State(), events[i..]) == RunAll(codec, old(State()), events)
      {
        assert events[i..][0] == events[i] && events[i..][1..] == events[i + 1..];
        Step(events[i]);
        i := i + 1;
      }
      if i < |events| {
        TerminatedIsFinal(codec, State(), events[i..]);
      }
      outcome := failure;
    }
  }

  /** Every pass keeps the invariant. */
  lemma NextPreservesInv(codec: Codec, s: RouterState, ev: Event)
    requires Inv(s)
    ensures Inv(Next(codec, s, ev))
  {
    if s.Running() {
      match ev
      case PipeLine(line, sendError, flushError) =>
        if Decode(codec, line).Success? && Target(Decode(codec, line).value).Success? && sendError.None? {
          var m := Decode(codec, line).value;
          SendKeepsInv(s, Target(m).value, m, flushError);
        }
      case Recv(from, received, writeError, flushError) =>
        if received.Success? && codec.toJson(Stamp(received.value, from)).Success? && writeError.None? {
          WriteKeepsInv(s, codec.toJson(Stamp(received.value, from)).value, flushError);
        }
    }
  }

  /** A successful send followed by a flush keeps the invariant. */
  lemma SendKeepsInv(s: RouterState, t: Channel, m: Message, flushError: Option<string>)
    requires Inv(s) && s.Running()
    requires IsSendTarget(t) && m.channel == Some(t)
    ensures Inv(Flush(WithSend(s, t, m), flushError))
  {
  }

  /** A successful write followed by a flush keeps the invariant. */
  lemma WriteKeepsInv(s: RouterState, text: string, flushError: Option<string>)
    requires Inv(s) && s.Running()
    ensures Inv(Flush(s.(written := s.written + [Frame(text)]), flushError))
  {
  }

  /** Once the router has ended, no later event has any effect. */
  lemma {:induction false} TerminatedIsFinal(codec: Codec, s: RouterState, events: seq<Event>)
    requires !s.Running()
    ensures RunAll(codec, s, events) == s
    decreases |events|
  {
    if events != [] {
      TerminatedIsFinal(codec, s, events[1..]);
    }
  }
}
