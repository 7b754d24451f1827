/**
 * The current WebSocket endpoint: the shared protocol with the Lisa greeting,
 * the service's two-message prompt preamble and spoken replies, run inside a
 * process that also holds the sweep module's own session table.
 */
module WebSocketRouter {
  import opened Optional
  import opened Wire
  import opened OpenAIService
  import opened Protocol
  import Cleanup

  const ROUTER: Flavor := Flavor(WELCOME_MESSAGE, Preamble(), true)

  /** The process: the shared tables, the open connections by socket, and the
      separate table the periodic sweep reads. */
  datatype Server = Server(tables: Tables, conns: map<nat, Conn>, sweepTable: map<Key, Session>)

  /** What can happen to the process: a connection opens, a frame arrives on an
      open connection, or the sweep task wakes up. Each carries the clock. */
  datatype ServerEvent =
    | Open(socket: nat, uuid: string, speech: Speech, at: real)
    | Deliver(socket: nat, frame: Inbound, or: Oracles, at: real)
    | SweepTick(at: real)

  function ServerStep(s: Server, e: ServerEvent): (r: Server)
    ensures r.sweepTable.Keys <= s.sweepTable.Keys
    ensures e.SweepTick? ==> r.tables == s.tables && r.conns == s.conns
    ensures !e.SweepTick? ==> r.sweepTable == s.sweepTable
  {
    match e
    case Open(socket, uuid, speech, at) =>
      if socket in s.conns then s
      else
        var o := Accept(s.tables, socket, uuid, at, speech, ROUTER);
        s.(tables := o.tables, conns := s.conns[socket := o.conn])
    case Deliver(socket, frame, or, at) =>
      if socket !in s.conns then s
      else
        var o := Receive(s.tables, s.conns[socket], at, frame, or, ROUTER);
        if o.Running? then s.(tables := o.tables, conns := s.conns[socket := o.conn])
        else s.(tables := o.tables, conns := s.conns - {socket})
    case SweepTick(at) =>
      s.(sweepTable := Cleanup.Swept(s.sweepTable, at, Cleanup.FIVE_MINUTES))
  }

  function ServerRun(s: Server, es: seq<ServerEvent>): Server
    decreases |es|
  {
    if |es| == 0 then s else ServerRun(ServerStep(s, es[0]), es[1..])
  }

  function WithoutSweeps(es: seq<ServerEvent>): (r: seq<ServerEvent>)
    ensures |r| <= |es|
    ensures forall i :: 0 <= i < |r| ==> !r[i].SweepTick?
  {
    if |es| == 0 then []
    else if es[0].SweepTick? then WithoutSweeps(es[1..])
    else [es[0]] + WithoutSweeps(es[1..])
  }

  /** The sweep reads a table no connection ever writes: starting empty, it
      stays empty, and a run with sweeps ends exactly where the same run without
      them does. No session is ever expired, however long it idles. */
  lemma {:induction false} SweepsChangeNothing(s: Server, es: seq<ServerEvent>)
    requires s.sweepTable == map[]
    ensures ServerRun(s, es).sweepTable == map[]
    ensures ServerRun(s, es) == ServerRun(s, WithoutSweeps(es))
    decreases |es|
  {
    if |es| > 0 {
      var next := ServerStep(s, es[0]);
      assert next.sweepTable == map[];
      SweepsChangeNothing(next, es[1..]);
      if es[0].SweepTick? {
        assert next == s;
      } else {
        var rest := WithoutSweeps(es[1..]);
        assert WithoutSweeps(es) == [es[0]] + rest;
        assert ([es[0]] + rest)[1..] == rest;
      }
    }
  }

  /** The init frame of the scenarios below. */
  function InitFrame(client: Json): Oracles
  {
    Oracles(Parsed(JObj(map["type" := JStr("init"), "session_id" := client])), "", CompletionFailed, SpeechFailed)
  }

  /** After a re-key to a different id, the history entry started under the
      server's own id outlives the connection: the `finally` block only knows
      the new id. */
  lemma OrphanedWelcomeHistory(t: Tables, socket: nat, uuid: string, now: real, speech: Speech,
                               text: string, client: Json, later: real, closing: Oracles)
    requires Truthy(client) && KeyOf(client).Some? && KeyOf(client) != Some(KStr(uuid))
    ensures
      var a := Accept(t, socket, uuid, now, speech, ROUTER);
      var b := Receive(a.tables, a.conn, now, TextFrame(text), InitFrame(client), ROUTER);
      && b.Running? && b.conn.sid == KeyOf(client).value
      && var c := Receive(b.tables, b.conn, later, DisconnectFrame, closing, ROUTER);
      && c.Ended? && !c.escaped
      && KStr(uuid) !in c.tables.sessions && b.conn.sid !in c.tables.sessions
      && KStr(uuid) in c.tables.history
      && c.tables.history[KStr(uuid)] == [ChatMessage(AssistantRole, JStr(WELCOME_MESSAGE))]
  {
    var a := Accept(t, socket, uuid, now, speech, ROUTER);
    assert Field(InitFrame(client).decoded.value.fields, "type") == Some(JStr("init"));
    assert Field(InitFrame(client).decoded.value.fields, "session_id") == Some(client);
    var b := Receive(a.tables, a.conn, now, TextFrame(text), InitFrame(client), ROUTER);
    assert b.Running? && b.conn.sid == KeyOf(client).value;
  }

  /** An unhashable `session_id` (a non-empty list or object) unregisters the
      connection and then escapes the endpoint without cleaning its history. */
  lemma UnhashableIdEscapes(t: Tables, socket: nat, uuid: string, now: real, speech: Speech,
                            text: string, client: Json)
    requires Truthy(client) && (client.JArr? || client.JObj?)
    ensures
      var a := Accept(t, socket, uuid, now, speech, ROUTER);
      var b := Receive(a.tables, a.conn, now, TextFrame(text), InitFrame(client), ROUTER);
      && b.Ended? && b.escaped && b.out == []
      && KStr(uuid) !in b.tables.sessions
      && KStr(uuid) in b.tables.history
  {
    var a := Accept(t, socket, uuid, now, speech, ROUTER);
    assert Field(InitFrame(client).decoded.value.fields, "type") == Some(JStr("init"));
    assert Field(InitFrame(client).decoded.value.fields, "session_id") == Some(client);
  }

  /** A `message` frame with the given text. */
  function MessageOracles(text: string, c: Completion, sp: Speech): Oracles
  {
    Oracles(Parsed(JObj(map["type" := JStr("message"), "text" := JStr(text)])), "", c, sp)
  }

  /** Two connections: once one re-keys onto the other's id and leaves, the
      other's registration and conversation are gone. Its next message is still
      answered, with the reply produced from an empty history, and only the
      refresh at the top of the loop then ends the session, dropping that reply's
      history again. */
  lemma TakeoverAnswersThenEnds(t: Tables, mine: Conn, theirs: Conn, now: real, text: string, closing: Oracles,
                                later: real, said: string, c: Completion, sp: Speech)
    requires mine.sid in t.sessions && theirs.sid in t.sessions && mine.sid != theirs.sid
    requires theirs.sid.KStr? && theirs.sid.s != "" && said != ""
    ensures
      var b := Receive(t, mine, now, TextFrame(text), InitFrame(JStr(theirs.sid.s)), ROUTER);
      && b.Running? && b.conn == Conn(theirs.sid, mine.socket)
      && var c0 := Receive(b.tables, b.conn, now, DisconnectFrame, closing, ROUTER);
      && c0.Ended? && theirs.sid !in c0.tables.sessions && theirs.sid !in c0.tables.history
      && var d := Receive(c0.tables, theirs, later, TextFrame(said), MessageOracles(said, c, sp), ROUTER);
      && d.Ended? && !d.escaped
      && 1 <= |d.out| <= 2 && d.out[0].AgentMessage?
      && (|d.out| == 2 <==> sp.Spoken?)
      && theirs.sid !in d.tables.history
  {
    var client := JStr(theirs.sid.s);
    assert Field(InitFrame(client).decoded.value.fields, "type") == Some(JStr("init"));
    assert Field(InitFrame(client).decoded.value.fields, "session_id") == Some(client);
    var fields := MessageOracles(said, c, sp).decoded.value.fields;
    assert Field(fields, "type") == Some(JStr("message"));
    assert Field(fields, "text") == Some(JStr(said));
  }

  /** After the same takeover, an `init` frame naming any other id re-registers the
      other connection, and it goes on running under that id. */
  lemma TakeoverRekeySurvives(t: Tables, mine: Conn, theirs: Conn, now: real, text: string, closing: Oracles,
                              later: real, newId: string)
    requires mine.sid in t.sessions && theirs.sid in t.sessions && mine.sid != theirs.sid
    requires theirs.sid.KStr? && theirs.sid.s != "" && newId != ""
    ensures
      var b := Receive(t, mine, now, TextFrame(text), InitFrame(JStr(theirs.sid.s)), ROUTER);
      var c0 := Receive(b.tables, b.conn, now, DisconnectFrame, closing, ROUTER);
      && theirs.sid !in c0.tables.sessions
      && var d := Receive(c0.tables, theirs, later, TextFrame(text), InitFrame(JStr(newId)), ROUTER);
      && d.Running? && d.conn == Conn(KStr(newId), theirs.socket) && d.out == []
      && d.tables.sessions[KStr(newId)] == Session(theirs.socket, later)
  {
    var client := JStr(theirs.sid.s);
    assert Field(InitFrame(client).decoded.value.fields, "type") == Some(JStr("init"));
    assert Field(InitFrame(client).decoded.value.fields, "session_id") == Some(client);
    assert Field(InitFrame(JStr(newId)).decoded.value.fields, "type") == Some(JStr("init"));
    assert Field(InitFrame(JStr(newId)).decoded.value.fields, "session_id") == Some(JStr(newId));
  }
}
