/**
 * What one pass of the router does with each kind of ready source, and what
 * holds of whole runs of the loop.
 */
module RouterProperties {
  import opened Wrappers
  import opened Jupyter
  import opened Router

  // ---------------------------------------------------------------------------
  // The inbound-pipe branch
  // ---------------------------------------------------------------------------

  /**
   * A host line whose channel tag is Shell, Stdin or Control is sent exactly
   * once, on that connection, with its content replaced by the type-directed
   * reparse of the raw "content" value and every other field as parsed. Nothing
   * is written to the outbound pipe and no other connection sees a send.
   */
  lemma ForwardSendsOnTaggedConnection(
    codec: Codec, s: RouterState, line: string, flushError: Option<string>,
    parsed: Message, fields: map<string, Json>, content: Content, t: Channel)
    requires s.Running()
    requires codec.parseMessage(line) == Success(parsed)
    requires codec.parseObject(line) == Success(fields)
    requires "content" in fields
    requires codec.contentFromType(parsed.header.msgType, fields["content"]) == Success(content)
    requires parsed.channel == Some(t) && IsSendTarget(t)
    ensures var s' := Next(codec, s, PipeLine(line, None, flushError));
      && s'.SentOn(t) == s.SentOn(t) + [parsed.(content := content)]
      && (forall c :: c != t ==> s'.SentOn(c) == s.SentOn(c))
      && s'.written == s.written
      && s'.status == (if flushError.None? then None else Some(IOError(flushError.value)))
      && (flushError.None? ==> s'.flushes == s.flushes + 1 && s'.flushed == |s.written|)
  {
  }

  /** A send the connection refuses ends the router with that library error; nothing is recorded as sent. */
  lemma SendFailureTerminates(codec: Codec, s: RouterState, line: string, e: string, flushError: Option<string>)
    requires s.Running()
    requires Decode(codec, line).Success? && Target(Decode(codec, line).value).Success?
    ensures Next(codec, s, PipeLine(line, Some(e), flushError)) == s.(status := Some(RuntimelibError(e)))
  {
  }

  /** A host line tagged IOPub or Heartbeat ends the router with SendSubChannelError and sends nothing. */
  lemma SubChannelIsRejected(codec: Codec, s: RouterState, line: string, m: Message,
                             sendError: Option<string>, flushError: Option<string>)
    requires s.Running()
    requires Decode(codec, line) == Success(m)
    requires m.channel == Some(IOPub) || m.channel == Some(Heartbeat)
    ensures Next(codec, s, PipeLine(line, sendError, flushError)) == s.(status := Some(SendSubChannelError))
  {
  }

  /** A host line with no channel tag ends the router with SendNoChannelError and sends nothing. */
  lemma MissingChannelIsRejected(codec: Codec, s: RouterState, line: string, m: Message,
                                 sendError: Option<string>, flushError: Option<string>)
    requires s.Running()
    requires Decode(codec, line) == Success(m) && m.channel.None?
    ensures Next(codec, s, PipeLine(line, sendError, flushError)) == s.(status := Some(SendNoChannelError))
  {
  }

  /**
   * A host line without a "content" key ends the router with
   * ReceiveNoContentError, whatever its channel tag says.
   */
  lemma MissingContentIsRejected(codec: Codec, s: RouterState, line: string,
                                 sendError: Option<string>, flushError: Option<string>)
    requires s.Running()
    requires codec.parseMessage(line).Success? && codec.parseObject(line).Success?
    requires "content" !in codec.parseObject(line).value
    ensures Next(codec, s, PipeLine(line, sendError, flushError)) == s.(status := Some(ReceiveNoContentError))
  {
  }

  /**
   * Decoding runs before dispatch: a line that fails to parse, to parse as an
   * object, to carry content or to reparse under its type ends the router with
   * that error, and no send takes place whatever the channel tag says.
   */
  lemma DecodeFailureSendsNothing(codec: Codec, s: RouterState, line: string,
                                  sendError: Option<string>, flushError: Option<string>)
    requires s.Running()
    requires Decode(codec, line).Failure?
    ensures Next(codec, s, PipeLine(line, sendError, flushError)) == s.(status := Some(Decode(codec, line).error))
  {
  }

  // ---------------------------------------------------------------------------
  // The receive branches
  // ---------------------------------------------------------------------------

  /**
   * A message received on transport `from` becomes exactly one outbound line:
   * the serialisation of the message with only its channel overwritten to
   * `from`, followed by a newline. Nothing is sent to the kernel.
   */
  lemma RecvWritesStampedLine(codec: Codec, s: RouterState, from: Transport, m: Message,
                              text: string, flushError: Option<string>)
    requires s.Running()
    requires codec.toJson(m.(channel := Some(from))) == Success(text)
    ensures var s' := Next(codec, s, Recv(from, Success(m), None, flushError));
      && s'.written == s.written + [text + "\n"]
      && s'.shell == s.shell && s'.stdin == s.stdin && s'.control == s.control
      && s'.status == (if flushError.None? then None else Some(IOError(flushError.value)))
  {
  }

  /** A message that cannot be serialised ends the router with the JSON error; nothing is written. */
  lemma RecvSerialiseFailureTerminates(codec: Codec, s: RouterState, from: Transport, m: Message,
                                       writeError: Option<string>, flushError: Option<string>)
    requires s.Running()
    requires codec.toJson(m.(channel := Some(from))).Failure?
    ensures Next(codec, s, Recv(from, Success(m), writeError, flushError))
         == s.(status := Some(SerdeJsonError(codec.toJson(m.(channel := Some(from))).error)))
  {
  }

  /** A failed write to the outbound pipe ends the router with an IO error. */
  lemma WriteFailureTerminates(codec: Codec, s: RouterState, from: Transport, m: Message,
                               e: string, flushError: Option<string>)
    requires s.Running()
    requires codec.toJson(m.(channel := Some(from))).Success?
    ensures Next(codec, s, Recv(from, Success(m), Some(e), flushError)) == s.(status := Some(IOError(e)))
  {
  }

  /** A receive error on any transport ends the router with that error, without a flush. */
  lemma RecvErrorTerminates(codec: Codec, s: RouterState, from: Transport, e: string,
                            writeError: Option<string>, flushError: Option<string>)
    requires s.Running()
    ensures Next(codec, s, Recv(from, Failure(e), writeError, flushError)) == s.(status := Some(RuntimelibError(e)))
  {
  }

  // ---------------------------------------------------------------------------
  // Every pass
  // ---------------------------------------------------------------------------

  /**
   * A pass that does not end the router performed exactly one send or one
   * write, then exactly one flush that pushed out everything written.
   */
  lemma CleanPassActsOnceAndFlushes(codec: Codec, s: RouterState, ev: Event)
    requires s.Running() && Next(codec, s, ev).Running()
    ensures var s' := Next(codec, s, ev);
      && s'.SendCount() + |s'.written| == s.SendCount() + |s.written| + 1
      && s'.flushes == s.flushes + 1
      && s'.flushed == |s'.written|
  {
  }

  /**
   * A failing flush ends the router. When the pass's branch itself succeeded,
   * the router ends with the flush's IO error; the send or write the branch
   * made is kept, but the flush is not counted.
   */
  lemma FlushFailureTerminates(codec: Codec, s: RouterState, ev: Event)
    requires ev.flushError.Some?
    ensures !Next(codec, s, ev).Running()
    ensures var clean := Next(codec, s, ev.(flushError := None));
      s.Running() && clean.Running() ==>
        Next(codec, s, ev) == clean.(status := Some(IOError(ev.flushError.value)),
                                     flushes := s.flushes, flushed := s.flushed)
  {
  }

  /** A pass never takes anything away: every log only grows. */
  lemma NextOnlyAppends(codec: Codec, s: RouterState, ev: Event)
    ensures var s' := Next(codec, s, ev);
      && s.shell <= s'.shell && s.stdin <= s'.stdin && s.control <= s'.control
      && s.written <= s'.written && s.flushes <= s'.flushes
  {
  }

  // ---------------------------------------------------------------------------
  // Runs of the loop
  // ---------------------------------------------------------------------------

  /** The logs of a run extend those of its start state, and an error once raised stays. */
  lemma {:induction false} RunOnlyAppends(codec: Codec, s: RouterState, events: seq<Event>)
    ensures var r := RunAll(codec, s, events);
      && s.shell <= r.shell && s.stdin <= r.stdin && s.control <= r.control
      && s.written <= r.written && s.flushes <= r.flushes
      && (!s.Running() ==> r.status == s.status)
    decreases |events|
  {
    if events != [] {
      NextOnlyAppends(codec, s, events[0]);
      RunOnlyAppends(codec, Next(codec, s, events[0]), events[1..]);
    }
  }

  /** A receive error ends the loop with that error: nothing after it is sent, written or flushed. */
  lemma RecvErrorEndsRun(codec: Codec, s: RouterState, from: Transport, e: string,
                         writeError: Option<string>, flushError: Option<string>, rest: seq<Event>)
    requires s.Running()
    ensures RunAll(codec, s, [Recv(from, Failure(e), writeError, flushError)] + rest)
         == s.(status := Some(RuntimelibError(e)))
  {
    var events := [Recv(from, Failure(e), writeError, flushError)] + rest;
    assert events[1..] == rest;
    TerminatedIsFinal(codec, s.(status := Some(RuntimelibError(e))), rest);
  }

  /** The invariant holds after any run that starts where it holds. */
  lemma {:induction false} RunPreservesInv(codec: Codec, s: RouterState, events: seq<Event>)
    requires Inv(s)
    ensures Inv(RunAll(codec, s, events))
    decreases |events|
  {
    if events != [] {
      NextPreservesInv(codec, s, events[0]);
      RunPreservesInv(codec, Next(codec, s, events[0]), events[1..]);
    }
  }

  /**
   * Every state the router reaches: all sends carry the tag of the connection
   * they went to, all lines end in a newline, and a running router has flushed
   * every line it wrote.
   */
  lemma ReachableStatesSatisfyInv(codec: Codec, events: seq<Event>)
    ensures Inv(RunAll(codec, Initial(), events))
  {
    RunPreservesInv(codec, Initial(), events);
  }

  /**
   * A run that leaves the router running handled every event cleanly: it
   * flushed once per event.
   */
  lemma {:induction false} RunningRunFlushesOncePerEvent(codec: Codec, s: RouterState, events: seq<Event>)
    requires RunAll(codec, s, events).Running()
    ensures s.Running()
    ensures RunAll(codec, s, events).flushes == s.flushes + |events|
    decreases |events|
  {
    if events != [] {
      var s1 := Next(codec, s, events[0]);
      RunningRunFlushesOncePerEvent(codec, s1, events[1..]);
      CleanPassActsOnceAndFlushes(codec, s, events[0]);
    }
  }

  /**
   * From the start, a router still running after `events` has performed
   * exactly one send or write per event.
   */
  lemma RunningRunActsOncePerEvent(codec: Codec, events: seq<Event>)
    requires RunAll(codec, Initial(), events).Running()
    ensures var r := RunAll(codec, Initial(), events);
      r.SendCount() + |r.written| == r.flushes == |events|
  {
    RunningRunFlushesOncePerEvent(codec, Initial(), events);
    ReachableStatesSatisfyInv(codec, events);
  }

  /**
   * A message sent on a connection and received back from it unchanged is
   * written out as the serialisation of the very message sent: the stamp
   * leaves its channel as it was, and its type and content as the host gave them.
   */
  lemma EchoRoundTrip(codec: Codec, s: RouterState, line: string, m: Message, t: Channel, text: string)
    requires s.Running()
    requires Decode(codec, line) == Success(m)
    requires m.channel == Some(t) && IsSendTarget(t)
    requires codec.toJson(m) == Success(text)
    ensures var r := RunAll(codec, s, [PipeLine(line, None, None), Recv(t, Success(m), None, None)]);
      && r.Running()
      && r.SentOn(t) == s.SentOn(t) + [m]
      && r.written == s.written + [text + "\n"]
      && r.flushes == s.flushes + 2
  {
    var s1 := Next(codec, s, PipeLine(line, None, None));
    assert s1.written == s.written && s1.SentOn(t) == s.SentOn(t) + [m];
    assert Stamp(m, t) == m;
    var s2 := Next(codec, s1, Recv(t, Success(m), None, None));
    assert RunAll(codec, s, [PipeLine(line, None, None), Recv(t, Success(m), None, None)])
        == RunAll(codec, s2, []);
  }
}
