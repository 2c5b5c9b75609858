# jupyter-api.nvim connection router, in Dafny

This project models the connection router of jupyter-api.nvim (`connection_handler`
in `src/lib.rs`). The router is the background loop that bridges one Neovim host to
one Jupyter kernel session. The host writes newline-delimited JSON messages into an
inbound pipe. The router decodes each one and sends it on the kernel connection its
`channel` tag names. Messages arriving on the shell, iopub, stdin and control
connections are tagged with the connection they came from and written as JSON lines
to the outbound pipe. Any error ends the loop for good.

Each pass of the loop handles exactly one ready source (the `select!`). So the router
is modelled as a state machine driven by an arbitrary sequence of events:

- `PipeLine(line, sendError, flushError)`: the line read from the inbound pipe completed with `line`.
- `Recv(from, received, writeError, flushError)`: connection `from` produced a message or an error.

An event also carries what the environment answers to each I/O call the pass could
make: the connection's send, the pipe's `write_all`, and the pipe's `flush`.

Files:

- `Wrappers.dfy`: the `Option` and `Result` datatypes.
- `Jupyter.dfy`: the channels, the JSON value, the message envelope, the
  `JupyterApiError` enum, and `Codec`.
  - `Codec` holds the foreign JSON calls: the two parses of an inbound line, the
    type-directed content reparse (`from_type_and_content`) and serialisation.
  - These calls are arbitrary functions that may fail. Every property holds for all of them.
- `Router.dfy`: the router on values and in place.
  - On values: `RouterState`, `Decode` (the decoding steps), `Target` (the choice of
    connection), `Stamp`, `ForwardLine` and `DeliverMessage` (one per `select!` branch),
    `Flush`, `Next` (one pass) and `RunAll` (the loop).
  - In place: the class `ConnectionHandler`. `Step` is proved to do what `Next` says,
    and `Run` what `RunAll` says.
  - The invariant `Inv`, which every pass keeps.
- `RouterProperties.dfy`: what each kind of event does, and what holds of whole runs.
- `InboundPipe.dfy`: the reader of the inbound pipe across passes of the loop. It shows
  how a line read that `select!` drops loses the bytes it had taken (see "## Findings").

The router's state has these parts:

- whether it runs, or the error it ended with;
- the messages sent on each of the shell, stdin and control connections;
- the lines written to the outbound pipe;
- the number of successful flushes, and how many written lines a flush has pushed out.

## Model

| member | source | states |
|---|---|---|
| `Jupyter.Describe` | src/lib.rs:33-49 | each error variant is displayed with its own text; the three library errors are their fixed prefix followed by the library's description |
| `Jupyter.DescribeLeadingChars` | src/lib.rs:35-48 | the library errors' texts start with F, r and I; the router's own three start with "Error ", then r for receive and s for send |
| `Jupyter.DescribeIsInjective` | src/lib.rs:33-49 | two errors with the same text are the same error, so the error enum and its messages correspond one to one |
| `Router.Decode` | src/lib.rs:95-99 | both directions: when both parses succeed, "content" is present and the reparse succeeds, the result is the parsed envelope with only its content replaced by that reparse under `header.msg_type`; each failing step, in the source's order, gives its own error (a JSON error carrying that call's description, or ReceiveNoContentError exactly when "content" is missing) |
| `Router.Target` | src/lib.rs:100-113 | a decoded message can be sent exactly when its channel tag is Shell, Stdin or Control, and then on that same connection; no tag gives SendNoChannelError; IOPub or Heartbeat gives SendSubChannelError |
| `Router.Stamp` | src/lib.rs:117-119 | a received message gets `channel` set to the transport it came from, and no other field changes |
| `Router.Frame` | src/lib.rs:120-122 | an outbound line is the serialised message followed by exactly one newline |
| `Router.WithSend` | src/lib.rs:103-105 | a send appends the message to the log of its connection only, and nothing else changes |
| `Router.Flush` | src/lib.rs:169 | a flush never touches the logs; it succeeds exactly when its answer is no error, then counts one flush and covers every written line; otherwise it ends the router with that IO error and nothing else changes |
| `Router.ForwardLine` | src/lib.rs:95-115 | the inbound-pipe branch never writes or flushes; the router keeps running exactly when decoding, dispatch and the send all succeed, and then the decoded message was appended to the log of the connection its tag names and to no other; on any failure only the status changes |
| `Router.DeliverMessage` | src/lib.rs:116-167 | a receive branch never sends; the router keeps running exactly when the receive, the serialisation of the stamped message and the write succeed, and then exactly that framed line was appended; a receive error ends it with that library error; on any failure only the status changes |
| `Router.Next` | src/lib.rs:92-169 | one pass: a terminated router is left as it is; each pass makes at most one send or write and at most one flush, and a pass that leaves the router running flushed exactly once |
| `Router.RunAll` | src/lib.rs:92-170 | over a run, sends plus written lines grow by at most the number of events, and so do flushes |
| `Router.ConnectionHandler.constructor` | src/lib.rs:81-91 | the router starts running, with nothing sent, written or flushed, and satisfies the invariant |
| `Router.ConnectionHandler.Step` | src/lib.rs:92-170 | one pass of the loop changes the router's fields exactly as `Next` says, and keeps the invariant |
| `Router.ConnectionHandler.HandlePipeLine` | src/lib.rs:95-115 | the inbound-pipe branch: parse, parse as object, look up content, reparse, dispatch on the tag, send, with early return on each error |
| `Router.ConnectionHandler.HandleRecv` | src/lib.rs:116-167 | a receive branch: break with a library error on failure, otherwise stamp, serialise and write one line |
| `Router.ConnectionHandler.FlushOut` | src/lib.rs:169 | the flush that ends a pass: it either fails and ends the router with an IO error, or counts one flush and pushes out every written line |
| `Router.ConnectionHandler.Run` | src/lib.rs:92-170 | the loop handles events in order until one ends it; the state is `RunAll` of the events; the result is the error it ended with, never a success |
| `Router.NextPreservesInv` | src/lib.rs:92-170 | every pass keeps the invariant: sends carry their connection's tag, lines end in a newline, a clean pass sent or wrote once and flushed once, and a running router has flushed all it wrote |
| `Router.SendKeepsInv` | src/lib.rs:100-105 | a message sent on the connection its tag names keeps the invariant, together with the flush that follows |
| `Router.WriteKeepsInv` | src/lib.rs:116-122 | writing one newline-terminated line, and the flush that follows, keep the invariant |
| `Router.TerminatedIsFinal` | src/lib.rs:92-170 | after the loop has ended, later events send nothing, write nothing and flush nothing |
| `RouterProperties.ForwardSendsOnTaggedConnection` | src/lib.rs:96-105 | a line tagged Shell, Stdin or Control is sent once, on that connection, with its content reparsed and every other field as parsed; no other connection and no outbound line change; the pass ends with a flush |
| `RouterProperties.SendFailureTerminates` | src/lib.rs:103-105 | a send the connection refuses ends the router with that library error, and no send is recorded |
| `RouterProperties.SubChannelIsRejected` | src/lib.rs:106-108 | a line tagged IOPub or Heartbeat ends the router with SendSubChannelError, and nothing is sent |
| `RouterProperties.MissingChannelIsRejected` | src/lib.rs:111-113 | a line with no channel tag ends the router with SendNoChannelError, and nothing is sent |
| `RouterProperties.MissingContentIsRejected` | src/lib.rs:98 | a line without a "content" key ends the router with ReceiveNoContentError, whatever its tag |
| `RouterProperties.DecodeFailureSendsNothing` | src/lib.rs:96-99 | any failure while decoding ends the router with that error before dispatch, so no send happens whatever the tag |
| `RouterProperties.RecvWritesStampedLine` | src/lib.rs:116-122 | a message received on X appends exactly one outbound line: the serialisation of the message with only `channel` set to X, then a newline; nothing is sent |
| `RouterProperties.RecvSerialiseFailureTerminates` | src/lib.rs:121 | a received message that cannot be serialised ends the router with the JSON error, and nothing is written |
| `RouterProperties.WriteFailureTerminates` | src/lib.rs:120-122 | a failed write to the outbound pipe ends the router with an IO error |
| `RouterProperties.RecvErrorTerminates` | src/lib.rs:124-126 | a receive error on any transport ends the router with that library error, with no write and no flush |
| `RouterProperties.CleanPassActsOnceAndFlushes` | src/lib.rs:94-169 | a pass that does not end the router made exactly one send or one write, then exactly one flush that pushed out every written line |
| `RouterProperties.FlushFailureTerminates` | src/lib.rs:169 | a failing flush ends the router; after a successful branch it ends it with the flush's IO error, keeps the send or write the branch made, and counts no flush |
| `RouterProperties.NextOnlyAppends` | src/lib.rs:92-170 | a pass only appends to the send logs and the outbound pipe, and never lowers the flush count |
| `RouterProperties.RunOnlyAppends` | src/lib.rs:92-170 | a run only extends the logs, and an error, once raised, stays |
| `RouterProperties.RecvErrorEndsRun` | src/lib.rs:124-126 | a receive error ends the loop with that error: the events after it change nothing |
| `RouterProperties.RunPreservesInv` | src/lib.rs:92-170 | the invariant holds after any run that starts where it holds |
| `RouterProperties.ReachableStatesSatisfyInv` | src/lib.rs:92-170 | every state reachable from the start satisfies the invariant |
| `RouterProperties.RunningRunFlushesOncePerEvent` | src/lib.rs:92-170 | a run that leaves the router running started running and flushed once per event |
| `RouterProperties.RunningRunActsOncePerEvent` | src/lib.rs:92-170 | from the start, a router still running after n events has made exactly n sends and writes in total, and n flushes |
| `RouterProperties.EchoRoundTrip` | src/lib.rs:96-122 | a decoded message sent on a connection and received back from it unchanged is written out as the serialisation of the decoded message, because stamping it with the connection it was sent on leaves it unchanged; its content is the reparse, not the host's raw text, and nothing byte-level is claimed |
| `InboundPipe.Poll` | src/lib.rs:95 | one poll of the line read loses no byte; it completes at most one line, and that line ends in a newline |
| `InboundPipe.StepAsWritten` | src/lib.rs:93-95 | as the source does it: the same as the corrected step except when another branch wins, where the bytes the dropped read had taken are gone |
| `InboundPipe.StepKeepingPartial` | src/lib.rs:93-95 | the corrected step: the reader holds exactly its old bytes plus what the host wrote |
| `InboundPipe.KeepingPartialLosesNothing` | src/lib.rs:93-95 | with the corrected reader, over any interleaving of host writes, polls and other branches winning, the reader holds exactly the host's bytes in order |
| `InboundPipe.DeliveredLinesArePrefix` | src/lib.rs:93-95 | with the corrected reader, the lines handed to the router, joined, are a prefix of what the host wrote |
| `InboundPipe.AsWrittenLosesPartialLine` | src/lib.rs:93-95 | as written, a line the host writes in two pieces with a kernel message arriving between them reaches the router as its second piece only; the corrected reader delivers the whole line |

## Left out

- Concurrency: the Tokio runtime and the fairness of `select!` are not modelled. Whichever source is ready is the next event of an arbitrary sequence, so every order in which whole passes happen is covered.
- The line of a `PipeLine` event need not be a line the host wrote. `select!` drops the line read when another branch wins, with the bytes it had taken (see "## Findings"). The router model covers the outcome only because its line is arbitrary. `InboundPipe` models that loss on its own, and the router model does not connect the lines it parses to the host's writes.
- The loop runs forever in the source. `Run` handles a finite event sequence, and it returns None when the events run out while the router is still running.
- Pipes and raw file descriptors are not modelled as I/O. `write_all` and `flush` are modelled only as a log and as failure answers carried by the event.
- A `write_all` that fails is modelled as writing nothing, although it may have written part of the line.
- A send that the connection refuses is modelled as recording no send.
- The result of `read_line` is discarded by the source. A read error or end of file therefore surfaces only through the text of the line, for example an empty line whose parse fails. So the event carries an arbitrary line and has no read error.
- The runtimelib connections and their creation, `send` and `read` are foreign library calls. Their outcomes are parameters of the events.
- `serde_json` parsing and serialisation and `JupyterMessageContent::from_type_and_content` are foreign calls. They are the arbitrary, possibly failing functions of `Codec`.
- Message fields: the message's ZeroMQ identities and binary buffers are not modelled. The source never touches them.
- Message content: the typed content is an opaque record, and its variants are not modelled.
- `connect` (src/lib.rs:173-230) is not part of this model. It generates the session id, creates the pipes and opens the five connections. It spawns the router only after every connection at src/lib.rs:188-196 has been opened.
- The heartbeat connection and the router's own copies of the other pipe ends are only held open by the source, so they have no state here.
- The Lua bridge is host glue and is not part of this model. This covers `FromLua`, the `UserData` fields, `list_kernels`, `PENDING` and the module exports.
- `eprintln!` logging of the router's result (src/lib.rs:210-217) is not modelled. The texts it would print are modelled by `Describe`.

## Findings

| source | as written | input that shows it | evidently intended | confidence | as-written member | corrected member |
|---|---|---|---|---|---|---|
| src/lib.rs:93-95 | each pass starts a fresh `read_line` inside `select!`; when a receive branch wins, the dropped read loses the bytes it had already taken from the pipe | the host writes `ab`, the read takes it, an iopub message wins the pass, the host writes `c` and a newline: the router parses `c` alone, and the JSON error ends the session | every line the host writes reaches the router whole, for example through a cancellation-safe line stream that keeps the partial line | not executed; read from the code and the documented cancellation behaviour of `read_line` | `InboundPipe.StepAsWritten`, `InboundPipe.AsWrittenLosesPartialLine` | `InboundPipe.StepKeepingPartial`, `InboundPipe.KeepingPartialLosesNothing` |
