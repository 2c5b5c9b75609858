/**
 * The vocabulary the connection router works in: the kernel channels, the
 * Jupyter message envelope, the error enum the router raises, and the foreign
 * JSON calls it makes, which stay uninterpreted.
 */
module Jupyter {
  import opened Wrappers

  /** The five logical channels of one kernel session. */
  datatype Channel = Shell | IOPub | Stdin | Control | Heartbeat

  /** The channels the router may forward a host message to. */
  predicate IsSendTarget(c: Channel) {
    c == Shell || c == Stdin || c == Control
  }

  /** The four channels whose connections the router reads from (heartbeat is only held open). */
  type Transport = c: Channel | c != Heartbeat witness Shell

  /** A JSON value, as serde_json represents one. */
  datatype Json =
    | Null
    | Bool(b: bool)
    | Number(n: int)
    | Str(s: string)
    | Array(items: seq<Json>)
    | Object(fields: map<string, Json>)

  /** The header of a Jupyter message; `msgType` decides how its content is parsed. */
  datatype Header = Header(
    msgId: string,
    username: string,
    session: string,
    date: string,
    msgType: string,
    version: string)

  /**
   * The typed message content (runtimelib's JupyterMessageContent). Its
   * variants are the foreign library's business: the model only carries the
   * type name the content was read under and the fields it holds.
   */
  datatype Content = TypedContent(msgType: string, fields: Json)

  /** A Jupyter message envelope; `channel` records the transport it belongs to. */
  datatype Message = Message(
    header: Header,
    parentHeader: Option<Header>,
    metadata: Json,
    content: Content,
    channel: Option<Channel>)

  /** The errors the router ends with. Foreign errors carry the library's description. */
  datatype JupyterApiError =
    | SerdeJsonError(json: string)
    | RuntimelibError(runtime: string)
    | IOError(io: string)
    | ReceiveNoContentError
    | SendNoChannelError
    | SendSubChannelError

  const ReceiveFailed := "Error receiving message: "
  const SendFailed := "Error sending message: "

  /** The text each error is displayed with; foreign errors append the library's description. */
  function Describe(e: JupyterApiError): (r: string)
    ensures e.SerdeJsonError? ==> r == "Failed to parse JSON, " + e.json
    ensures e.RuntimelibError? ==> r == "runtimelib error, " + e.runtime
    ensures e.IOError? ==> r == "IO error, " + e.io
    ensures e.ReceiveNoContentError? ==> ReceiveFailed <= r
    ensures e.SendNoChannelError? || e.SendSubChannelError? ==> SendFailed <= r
  {
    match e
    case SerdeJsonError(d) => "Failed to parse JSON, " + d
    case RuntimelibError(d) => "runtimelib error, " + d
    case IOError(d) => "IO error, " + d
    case ReceiveNoContentError =>
      ReceiveFailed + "No content! (although this should already be caught by now!)"
    case SendNoChannelError => SendFailed + "no channel!"
    case SendSubChannelError => SendFailed + "cannot send to sub channel!"
  }

  /** `p + a == p + b` only when `a == b`. */
  lemma PrefixCancels(p: string, a: string, b: string)
    requires p + a == p + b
    ensures a == b
  {
    assert a == (p + a)[|p|..];
    assert b == (p + b)[|p|..];
  }

  /** The first character of each error's text, and the seventh, which tells receive from send. */
  lemma DescribeLeadingChars(e: JupyterApiError)
    ensures |Describe(e)| > 6
    ensures Describe(e)[0] == match e
      case SerdeJsonError(_) => 'F'
      case RuntimelibError(_) => 'r'
      case IOError(_) => 'I'
      case _ => 'E'
    ensures e.ReceiveNoContentError? ==> Describe(e)[6] == 'r'
    ensures e.SendNoChannelError? || e.SendSubChannelError? ==> Describe(e)[6] == 's'
  {
    var r := Describe(e);
    match e
    case SerdeJsonError(d) =>
      assert r[0] == "Failed to parse JSON, "[0];
    case RuntimelibError(d) =>
      assert r[0] == "runtimelib error, "[0];
    case IOError(d) =>
      assert r[0] == "IO error, "[0];
    case ReceiveNoContentError =>
      assert r[0] == ReceiveFailed[0] && r[6] == ReceiveFailed[6];
    case SendNoChannelError =>
      assert r[0] == SendFailed[0] && r[6] == SendFailed[6];
    case SendSubChannelError =>
      assert r[0] == SendFailed[0] && r[6] == SendFailed[6];
  }

  /** Different errors are displayed differently, so the logged text identifies the error. */
  lemma DescribeIsInjective(e1: JupyterApiError, e2: JupyterApiError)
    requires Describe(e1) == Describe(e2)
    ensures e1 == e2
  {
    DescribeLeadingChars(e1);
    DescribeLeadingChars(e2);
    match e1
    case SerdeJsonError(d) =>
      PrefixCancels("Failed to parse JSON, ", d, e2.json);
    case RuntimelibError(d) =>
      PrefixCancels("runtimelib error, ", d, e2.runtime);
    case IOError(d) =>
      PrefixCancels("IO error, ", d, e2.io);
    case ReceiveNoContentError =>
    case SendNoChannelError =>
      if e2.SendSubChannelError? {
        PrefixCancels(SendFailed, "no channel!", "cannot send to sub channel!");
      }
    case SendSubChannelError =>
      if e2.SendNoChannelError? {
        PrefixCancels(SendFailed, "cannot send to sub channel!", "no channel!");
      }
  }

  /**
   * The foreign calls the router makes on text and messages. Each is an
   * arbitrary function that may fail with an error description:
   *  - parseMessage: decoding a line as a whole message envelope;
   *  - parseObject: decoding a line as a map from keys to raw JSON values;
   *  - contentFromType: the type-directed reparse of raw content under a message type;
   *  - toJson: serialising a message to one line of JSON text.
   */
  datatype Codec = Codec(
    parseMessage: string -> Result<Message, string>,
    parseObject: string -> Result<map<string, Json>, string>,
    contentFromType: (string, Json) -> Result<Content, string>,
    toJson: Message -> Result<string, string>)
}
