/**
 * The per-connection protocol both backend endpoints implement: register the
 * connection under a fresh id and greet it; then, once per inbound frame,
 * dispatch on the frame (an `init` re-key, a typed `message`, a binary audio
 * chunk, or the disconnect) and refresh the session's activity time at the top
 * of the loop; finally drop the current id from the session table and the
 * history.
 *
 * The two endpoints differ only in the greeting text, the messages a prompt
 * starts with and whether replies are also spoken; `Flavor` carries those.
 * Each step is one frame handled to completion; sends are assumed to succeed.
 */
module Protocol {
  import opened Optional
  import opened Wire
  import opened OpenAIService

  const INVALID_JSON := "Invalid JSON format"
  const UNTRANSCRIBED := "Could not transcribe audio"
  const AUDIO_FORMAT := "mp3"

  /** The two process-wide maps a connection touches. */
  datatype Tables = Tables(sessions: map<Key, Session>, history: History)

  /** The loop's local state: the current session id and the socket it serves. */
  datatype Conn = Conn(sid: Key, socket: nat)

  /** After one frame, the loop either goes on or has left the endpoint. A session
      that ends normally has run its `finally` block; `escaped` says the
      `finally` block itself raised, so nothing after the raise was cleaned up. */
  datatype Outcome =
    | Running(tables: Tables, conn: Conn, out: seq<OutFrame>)
    | Ended(tables: Tables, out: seq<OutFrame>, escaped: bool)

  /** What distinguishes the two endpoints. */
  datatype Flavor = Flavor(welcome: string, preamble: seq<ChatMessage>, speaks: bool)

  /** The optional `audio_response` that follows a text the endpoint speaks; a
      synthesis failure is logged and swallowed. */
  function Voice(f: Flavor, sp: Speech): (fs: seq<OutFrame>)
    ensures |fs| <= 1
    ensures |fs| == 1 <==> f.speaks && sp.Spoken?
    ensures |fs| == 1 ==> fs[0] == AudioResponse(sp.audio, AUDIO_FORMAT)
  {
    if f.speaks && sp.Spoken? then [AudioResponse(sp.audio, AUDIO_FORMAT)] else []
  }

  /** Accepting a connection: register it under `uuid`, send the welcome (and its
      audio when the endpoint speaks), and start its history with the welcome. */
  function Accept(t: Tables, socket: nat, uuid: string, now: real, speech: Speech, f: Flavor): (o: Outcome)
    ensures o.Running? && o.conn == Conn(KStr(uuid), socket)
    ensures o.tables.sessions.Keys == t.sessions.Keys + {KStr(uuid)}
    ensures o.tables.sessions[KStr(uuid)] == Session(socket, now)
    ensures KStr(uuid) in o.tables.history && o.tables.history[KStr(uuid)] == [ChatMessage(AssistantRole, JStr(f.welcome))]
    ensures 1 <= |o.out| <= 2 && o.out[0] == AgentMessage(f.welcome)
    ensures |o.out| == 2 <==> f.speaks && speech.Spoken?
    ensures forall k :: k != KStr(uuid) && k in t.sessions ==> o.tables.sessions[k] == t.sessions[k]
  {
    var sid := KStr(uuid);
    Running(Tables(t.sessions[sid := Session(socket, now)], InitializeConversation(t.history, sid, f.welcome)),
            Conn(sid, socket),
            [AgentMessage(f.welcome)] + Voice(f, speech))
  }

  /** The `finally` block: drop the current id from both maps. */
  function Finish(t: Tables, sid: Key): (o: Outcome)
    ensures o.Ended? && !o.escaped && o.out == []
    ensures o.tables.sessions.Keys == t.sessions.Keys - {sid}
    ensures o.tables.history.Keys == t.history.Keys - {sid}
    ensures forall k :: k in o.tables.sessions ==> o.tables.sessions[k] == t.sessions[k]
    ensures forall k :: k in o.tables.history ==> o.tables.history[k] == t.history[k]
  {
    Ended(Tables(t.sessions - {sid}, CleanupConversation(t.history, sid)), [], false)
  }

  /** The `init` message. A missing or falsy id changes nothing. Otherwise the
      current entry is deleted and the connection re-registered under the new id;
      an unhashable id (a list or object) makes the insertion raise after the
      deletion, and the `finally` block's membership test raises again. */
  function Rekey(t: Tables, conn: Conn, now: real, requested: Option<Json>): (o: Outcome)
    ensures o.out == [] && o.tables.history == t.history
    ensures requested.None? || !Truthy(requested.value) ==> o == Running(t, conn, [])
    ensures requested.Some? && Truthy(requested.value) ==>
      && conn.sid !in o.tables.sessions - (if o.Running? then {o.conn.sid} else {})
      && (o.Ended? <==> KeyOf(requested.value).None?)
      && (o.Ended? ==> o.escaped)
      && (o.Running? ==> o.conn == Conn(KeyOf(requested.value).value, conn.socket)
                         && o.conn.sid in o.tables.sessions
                         && o.tables.sessions[o.conn.sid] == Session(conn.socket, now))
    ensures forall k :: k != conn.sid && !(o.Running? && k == o.conn.sid) ==>
      (k in o.tables.sessions <==> k in t.sessions) && (k in t.sessions ==> o.tables.sessions[k] == t.sessions[k])
  {
    if requested.None? || !Truthy(requested.value) then Running(t, conn, [])
    else
      var rest := t.sessions - {conn.sid};
      match KeyOf(requested.value)
      case None => Ended(t.(sessions := rest), [], true)
      case Some(k) => Running(t.(sessions := rest[k := Session(conn.socket, now)]), Conn(k, conn.socket), [])
  }

  /** A completion request for `message`, its reply sent as `agent_message`, then
      the optional audio. */
  function Answer(t: Tables, conn: Conn, message: Json, or: Oracles, f: Flavor): (o: Outcome)
    ensures o.Running? && o.conn == conn && o.tables.sessions == t.sessions
    ensures 1 <= |o.out| <= 2 && o.out[0] == AgentMessage(Converse(t.history, conn.sid, message, f.preamble, or.completion).text)
    ensures |o.out| == 2 <==> f.speaks && or.speech.Spoken?
    ensures |o.out| == 2 ==> o.out[1] == AudioResponse(or.speech.audio, AUDIO_FORMAT)
    ensures or.completion.Completed? ==> o.out[0] == AgentMessage(or.completion.text)
    ensures or.completion.CompletionFailed? ==> o.out[0] == AgentMessage(APOLOGY)
    ensures forall k :: k != conn.sid ==> (k in o.tables.history <==> k in t.history)
    ensures forall k :: k != conn.sid && k in t.history ==> o.tables.history[k] == t.history[k]
  {
    var r := Converse(t.history, conn.sid, message, f.preamble, or.completion);
    Running(t.(history := r.history), conn, [AgentMessage(r.text)] + Voice(f, or.speech))
  }

  /** `dict.get(name, default)`. */
  function FieldOr(fields: map<string, Json>, name: string, default: Json): Json
  {
    match Field(fields, name)
    case Some(v) => v
    case None => default
  }

  /** The table after the loop-top refresh of the current session's activity time. */
  function Touch(t: Tables, sid: Key, now: real): (r: Tables)
    requires sid in t.sessions
    ensures r.history == t.history && r.sessions.Keys == t.sessions.Keys
    ensures r.sessions[sid] == Session(t.sessions[sid].socket, now)
    ensures forall k :: k in t.sessions && k != sid ==> r.sessions[k] == t.sessions[k]
  {
    t.(sessions := t.sessions[sid := t.sessions[sid].(lastActivity := now)])
  }

  /** The text frame, once decoded: anything but a JSON object has no `.get` and
      ends the session; unknown or missing types are ignored. */
  function Command(t: Tables, conn: Conn, now: real, v: Json, or: Oracles, f: Flavor): Outcome
  {
    if !v.JObj? then Finish(t, conn.sid)
    else
      var kind := Field(v.fields, "type");
      if kind == Some(JStr("init")) then Rekey(t, conn, now, Field(v.fields, "session_id"))
      else if kind == Some(JStr("message")) then
        var text := FieldOr(v.fields, "text", JStr(""));
        if Truthy(text) then Answer(t, conn, text, or, f) else Running(t, conn, [])
      else Running(t, conn, [])
  }

  /** The frame's own handling, against the tables as they are when it arrives.
      A disconnect makes the following `receive()` raise, which ends the session. */
  function Dispatch(t: Tables, conn: Conn, now: real, frame: Inbound, or: Oracles, f: Flavor): (d: Outcome)
    ensures frame.DisconnectFrame? || (frame.TextFrame? && or.decoded.Parsed? && !or.decoded.value.JObj?) ==>
      d == Finish(t, conn.sid)
    ensures d.Ended? ==> d == Finish(t, conn.sid) || (d.escaped && RekeyFrame(frame, or) && KeyOf(RequestedId(frame, or)).None?)
    ensures RekeyFrame(frame, or) && KeyOf(RequestedId(frame, or)).Some? ==>
      && d.Running? && d.conn == Conn(KeyOf(RequestedId(frame, or)).value, conn.socket) && d.out == []
      && d.conn.sid in d.tables.sessions && d.tables.history == t.history
    ensures !RekeyFrame(frame, or) && !frame.DisconnectFrame?
            && !(frame.TextFrame? && or.decoded.Parsed? && !or.decoded.value.JObj?) ==>
      d.Running? && d.conn == conn && d.tables.sessions == t.sessions
    ensures d.Running? && d.conn.sid != conn.sid ==> RekeyFrame(frame, or) && conn.sid !in d.tables.sessions
    ensures d.Running? ==> d.conn.socket == conn.socket
    ensures d.out == [ErrorFrame(INVALID_JSON)] <==> frame.TextFrame? && or.decoded.Malformed?
    ensures d.out == [ErrorFrame(UNTRANSCRIBED)] <==> frame.BinaryFrame? && or.transcript == ""
    ensures (frame.BinaryFrame? && or.transcript == "") || (frame.TextFrame? && or.decoded.Malformed?) ==>
      d == Running(t, conn, d.out)
    ensures frame.BinaryFrame? && or.transcript != "" ==>
      && 2 <= |d.out| <= 3
      && d.out[0] == Transcription(or.transcript)
      && d.out[1].AgentMessage?
      && (|d.out| == 3 <==> f.speaks && or.speech.Spoken?)
    ensures forall k :: k != conn.sid ==> (k in d.tables.history <==> k in t.history)
    ensures forall k :: k != conn.sid && k in t.history ==> d.tables.history[k] == t.history[k]
    ensures forall k :: k != conn.sid && !(d.Running? && k == d.conn.sid) ==>
      (k in d.tables.sessions <==> k in t.sessions) && (k in t.sessions ==> d.tables.sessions[k] == t.sessions[k])
  {
    match frame
    case DisconnectFrame => Finish(t, conn.sid)
    case BinaryFrame(_) =>
      if or.transcript == "" then Running(t, conn, [ErrorFrame(UNTRANSCRIBED)])
      else
        var a := Answer(t, conn, JStr(or.transcript), or, f);
        Running(a.tables, a.conn, [Transcription(or.transcript)] + a.out)
    case TextFrame(_) =>
      match or.decoded
      case Malformed => Running(t, conn, [ErrorFrame(INVALID_JSON)])
      case Parsed(v) => Command(t, conn, now, v, or, f)
  }

  /** The top of the loop, reached again once a frame has been handled: refresh
      the activity time of the current id, or, when that id is no longer
      registered (another connection re-keyed onto it and left, or a sweep
      removed it), raise and run the `finally` block. What the frame sent stays
      sent. */
  function LoopTop(o: Outcome, now: real): (r: Outcome)
    ensures r.out == o.out
    ensures o.Ended? ==> r == o
    ensures o.Running? && o.conn.sid in o.tables.sessions ==>
      r == Running(Touch(o.tables, o.conn.sid, now), o.conn, o.out)
    ensures o.Running? && o.conn.sid !in o.tables.sessions ==>
      && r.Ended? && !r.escaped
      && r.tables.sessions == o.tables.sessions
      && r.tables.history.Keys == o.tables.history.Keys - {o.conn.sid}
      && forall k :: k in r.tables.history ==> r.tables.history[k] == o.tables.history[k]
  {
    if o.Ended? then o
    else if o.conn.sid in o.tables.sessions then Running(Touch(o.tables, o.conn.sid, now), o.conn, o.out)
    else Ended(Finish(o.tables, o.conn.sid).tables, o.out, false)
  }

  /** Whether the frame is an `init` carrying a truthy `session_id`. */
  predicate RekeyFrame(frame: Inbound, or: Oracles)
  {
    && frame.TextFrame? && or.decoded.Parsed? && or.decoded.value.JObj?
    && Field(or.decoded.value.fields, "type") == Some(JStr("init"))
    && Field(or.decoded.value.fields, "session_id").Some?
    && Truthy(Field(or.decoded.value.fields, "session_id").value)
  }

  /** The id a re-keying frame asks for. */
  function RequestedId(frame: Inbound, or: Oracles): Json
    requires RekeyFrame(frame, or)
  {
    Field(or.decoded.value.fields, "session_id").value
  }

  /** One turn of the receive loop: the frame `receive()` returned is handled in
      full, and then the loop-top refresh runs for the id the connection now has.
      The refresh before the very first frame is part of `Accept`. */
  function Receive(t: Tables, conn: Conn, now: real, frame: Inbound, or: Oracles, f: Flavor): (o: Outcome)
    ensures frame.DisconnectFrame? ==> o.Ended? && !o.escaped && o.out == []
    ensures o.Ended? && !o.escaped ==> conn.sid !in o.tables.sessions && conn.sid !in o.tables.history
    ensures o.Ended? && o.escaped ==> RekeyFrame(frame, or) && KeyOf(RequestedId(frame, or)).None?
    ensures conn.sid !in t.sessions && !RekeyFrame(frame, or) ==> o.Ended?
    ensures conn.sid in t.sessions && !RekeyFrame(frame, or) && !frame.DisconnectFrame?
            && !(frame.TextFrame? && or.decoded.Parsed? && !or.decoded.value.JObj?) ==>
      o.Running? && o.conn == conn
    ensures RekeyFrame(frame, or) && KeyOf(RequestedId(frame, or)).Some? ==>
      o.Running? && o.conn == Conn(KeyOf(RequestedId(frame, or)).value, conn.socket) && o.out == []
    ensures o.Running? ==>
      && o.conn.socket == conn.socket
      && o.conn.sid in o.tables.sessions
      && o.tables.sessions[o.conn.sid].lastActivity == now
    ensures o.Running? && o.conn.sid != conn.sid ==> frame.TextFrame? && conn.sid !in o.tables.sessions
    ensures o.out == [ErrorFrame(INVALID_JSON)] <==> frame.TextFrame? && or.decoded.Malformed?
    ensures o.out == [ErrorFrame(UNTRANSCRIBED)] <==> frame.BinaryFrame? && or.transcript == ""
    ensures conn.sid in t.sessions && ((frame.BinaryFrame? && or.transcript == "") || (frame.TextFrame? && or.decoded.Malformed?)) ==>
      o.tables.history == t.history
    ensures frame.BinaryFrame? && or.transcript != "" ==>
      && 2 <= |o.out| <= 3
      && o.out[0] == Transcription(or.transcript)
      && o.out[1].AgentMessage?
      && (|o.out| == 3 <==> f.speaks && or.speech.Spoken?)
    ensures forall k :: k != conn.sid ==> (k in o.tables.history <==> k in t.history)
    ensures forall k :: k != conn.sid && k in t.history ==> o.tables.history[k] == t.history[k]
    ensures forall k :: k != conn.sid && !(o.Running? && k == o.conn.sid) ==>
      (k in o.tables.sessions <==> k in t.sessions) && (k in t.sessions ==> o.tables.sessions[k] == t.sessions[k])
  {
    LoopTop(Dispatch(t, conn, now, frame, or, f), now)
  }

  /** A `message` frame with truthy text yields one `agent_message`, then at most
      one `audio_response`; falsy or missing text yields nothing and changes no
      history. */
  lemma MessageFrame(t: Tables, conn: Conn, now: real, text: string, or: Oracles, f: Flavor, fields: map<string, Json>)
    requires conn.sid in t.sessions
    requires or.decoded == Parsed(JObj(fields)) && Field(fields, "type") == Some(JStr("message"))
    ensures var o := Receive(t, conn, now, TextFrame(text), or, f);
      var body := FieldOr(fields, "text", JStr(""));
      && o.Running? && o.conn == conn
      && (Truthy(body) ==> 1 <= |o.out| <= 2 && o.out[0].AgentMessage?
                           && (|o.out| == 2 <==> f.speaks && or.speech.Spoken?))
      && (!Truthy(body) ==> o.out == [] && o.tables.history == t.history)
  {
  }

  /** An `init` frame without a truthy id only refreshes the activity time. */
  lemma InitWithoutId(t: Tables, conn: Conn, now: real, text: string, or: Oracles, f: Flavor, fields: map<string, Json>)
    requires conn.sid in t.sessions
    requires or.decoded == Parsed(JObj(fields)) && Field(fields, "type") == Some(JStr("init"))
    requires Field(fields, "session_id").None? || !Truthy(Field(fields, "session_id").value)
    ensures Receive(t, conn, now, TextFrame(text), or, f) == Running(Touch(t, conn.sid, now), conn, [])
  {
  }

  /** Decoded JSON that is not an object ends the session (no error frame). */
  lemma NonObjectEnds(t: Tables, conn: Conn, now: real, text: string, or: Oracles, f: Flavor)
    requires or.decoded.Parsed? && !or.decoded.value.JObj?
    ensures var o := Receive(t, conn, now, TextFrame(text), or, f);
      o.Ended? && !o.escaped && o.out == []
  {
  }
}
