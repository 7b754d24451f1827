/**
 * What crosses the backend's socket and what its collaborators answer: decoded
 * JSON values, the Python dictionary keys they can become, inbound and outbound
 * frames, and the oracle results for one frame (JSON decoding, transcription,
 * completion, speech synthesis).
 */
module Wire {
  import opened Optional
  import opened Bytes

  /** A decoded JSON value. Numbers are integers; fractional numbers are not modelled. */
  datatype Json =
    | JNull
    | JBool(b: bool)
    | JNum(n: int)
    | JStr(s: string)
    | JArr(items: seq<Json>)
    | JObj(fields: map<string, Json>)

  /** Python truthiness of a decoded value. */
  predicate Truthy(j: Json)
  {
    match j
    case JNull => false
    case JBool(b) => b
    case JNum(n) => n != 0
    case JStr(s) => s != ""
    case JArr(items) => |items| > 0
    case JObj(fields) => |fields| > 0
  }

  /** A hashable Python value used as a dictionary key. `True` and `False` are the
      keys `1` and `0`, as in Python. */
  datatype Key = KNone | KInt(i: int) | KStr(s: string)

  /** The dictionary key a decoded value denotes; lists and dicts are unhashable. */
  function KeyOf(j: Json): (k: Option<Key>)
    ensures k.None? <==> j.JArr? || j.JObj?
    ensures j.JStr? ==> k == Some(KStr(j.s))
  {
    match j
    case JNull => Some(KNone)
    case JBool(b) => Some(KInt(if b then 1 else 0))
    case JNum(n) => Some(KInt(n))
    case JStr(s) => Some(KStr(s))
    case JArr(_) => None
    case JObj(_) => None
  }

  /** `dict.get(name)`. */
  function Field(fields: map<string, Json>, name: string): Option<Json>
  {
    if name in fields then Some(fields[name]) else None
  }

  /** One message from `websocket.receive()`: a text or binary data frame (section
      5.6 of RFC 6455), or the disconnect notification. */
  datatype Inbound = TextFrame(text: string) | BinaryFrame(data: seq<Byte>) | DisconnectFrame

  /** One JSON object the server sends; `AudioResponse` carries the synthesized
      bytes, which go out base64-encoded. */
  datatype OutFrame =
    | AgentMessage(text: string)
    | AudioResponse(audio: seq<Byte>, format: string)
    | Transcription(text: string)
    | ErrorFrame(message: string)

  /** `json.loads`: a decoding error or the decoded value. */
  datatype Decoded = Malformed | Parsed(value: Json)

  /** The chat-completion call: the reply text, or any exception. */
  datatype Completion = Completed(text: string) | CompletionFailed

  /** Text-to-speech: audio bytes, or any exception. */
  datatype Speech = Spoken(audio: seq<Byte>) | SpeechFailed

  /** The collaborators' answers while one frame is handled. The transcription
      service never raises: every failure comes back as the empty transcript. */
  datatype Oracles = Oracles(decoded: Decoded, transcript: string, completion: Completion, speech: Speech)

  /** A session-table entry: the socket it belongs to and the last loop-top time
      (seconds of the event-loop clock). */
  datatype Session = Session(socket: nat, lastActivity: real)
}
