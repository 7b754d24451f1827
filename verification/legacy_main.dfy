/**
 * The earlier single-file endpoint: the same protocol with its own greeting, a
 * one-message prompt preamble and no speech, and a sweep that expires sessions
 * after ten minutes and drops their history with them.
 */
module LegacyMain {
  import opened Wire
  import opened Bytes
  import OpenAIService
  import opened Protocol
  import Cleanup

  const LEGACY_WELCOME := "Hello! I'm your AI assistant. How can I help you today?"
  const LEGACY_SYSTEM_PROMPT := "You are a helpful AI assistant in a voice conversation. Keep your responses conversational, helpful, and concise."
  const TEN_MINUTES: real := 600.0

  function LegacyPreamble(): seq<OpenAIService.ChatMessage>
  {
    [OpenAIService.ChatMessage(OpenAIService.SystemRole, JStr(LEGACY_SYSTEM_PROMPT))]
  }

  const LEGACY: Flavor := Flavor(LEGACY_WELCOME, LegacyPreamble(), false)

  /** This endpoint's `generate_response`: the prompt is the system message
      followed by the stored conversation, which already opens with the welcome. */
  function GenerateResponse(h: OpenAIService.History, sid: Key, message: Json, c: Completion): (r: OpenAIService.Reply)
    ensures |r.prompt| >= 2 && r.prompt[0] == LegacyPreamble()[0]
    ensures c.Completed? ==>
      && r.text == c.text && sid in r.history
      && r.history[sid] == r.prompt[1..] + [OpenAIService.ChatMessage(OpenAIService.AssistantRole, JStr(c.text))]
    ensures c.CompletionFailed? ==> r.text == OpenAIService.APOLOGY
  {
    OpenAIService.Converse(h, sid, message, LegacyPreamble(), c)
  }

  /** Connecting: registration, the greeting and nothing else. */
  function Connect(t: Tables, socket: nat, uuid: string, now: real): (o: Outcome)
    ensures o.Running? && o.conn == Conn(KStr(uuid), socket)
    ensures o.out == [AgentMessage(LEGACY_WELCOME)]
    ensures KStr(uuid) in o.tables.sessions && KStr(uuid) in o.tables.history
    ensures o.tables.history[KStr(uuid)] == [OpenAIService.ChatMessage(OpenAIService.AssistantRole, JStr(LEGACY_WELCOME))]
  {
    Accept(t, socket, uuid, now, SpeechFailed, LEGACY)
  }

  /** One turn of this endpoint's receive loop. A transcribed chunk is answered
      even when its session has meanwhile been swept; the refresh at the top of
      the loop then ends the session. */
  function Handle(t: Tables, conn: Conn, now: real, frame: Inbound, or: Oracles): (o: Outcome)
    ensures forall i :: 0 <= i < |o.out| ==> !o.out[i].AudioResponse?
    ensures frame.BinaryFrame? && or.transcript != "" ==>
      && |o.out| == 2 && o.out[0] == Transcription(or.transcript) && o.out[1].AgentMessage?
      && (o.Running? <==> conn.sid in t.sessions)
    ensures o.Ended? && !o.escaped ==> conn.sid !in o.tables.sessions && conn.sid !in o.tables.history
  {
    Receive(t, conn, now, frame, or, LEGACY)
  }

  /** The tables after one pass of this endpoint's sweep, as a reference
      definition: expired sessions go, and so does the history under their ids. */
  function SweptTables(t: Tables, now: real): Tables
  {
    Tables(Cleanup.Swept(t.sessions, now, TEN_MINUTES),
           t.history - Cleanup.InactiveKeys(t.sessions, now, TEN_MINUTES))
  }

  /** One pass of this endpoint's `cleanup_inactive_sessions`. */
  method Sweep(t: Tables, now: real) returns (r: Tables)
    ensures r == SweptTables(t, now)
  {
    var inactive := Cleanup.InactiveKeys(t.sessions, now, TEN_MINUTES);
    var todo := inactive;
    r := t;
    while todo != {}
      invariant todo <= inactive
      invariant r.sessions.Keys == t.sessions.Keys - (inactive - todo)
      invariant r.history.Keys == t.history.Keys - (inactive - todo)
      invariant forall k :: k in r.sessions ==> r.sessions[k] == t.sessions[k]
      invariant forall k :: k in r.history ==> r.history[k] == t.history[k]
      decreases todo
    {
      var k :| k in todo;
      if k in r.sessions {
        r := r.(sessions := r.sessions - {k});
      }
      if k in r.history {
        r := r.(history := r.history - {k});
      }
      todo := todo - {k};
    }
    assert r.sessions.Keys == SweptTables(t, now).sessions.Keys;
    assert r.history.Keys == SweptTables(t, now).history.Keys;
  }

  /** The sweep keeps exactly the sessions idle for at most ten minutes, and a
      history entry survives exactly when it has no expired session. */
  lemma SweptTablesKeep(t: Tables, now: real, k: Key)
    ensures k in SweptTables(t, now).sessions <==> k in t.sessions && now - t.sessions[k].lastActivity <= TEN_MINUTES
    ensures k in SweptTables(t, now).history <==>
      k in t.history && !(k in t.sessions && now - t.sessions[k].lastActivity > TEN_MINUTES)
  {
  }

  /** A session idle for more than ten minutes is swept while its connection
      waits; the next transcribed chunk is still transcribed and answered, and
      only then does the connection end, leaving neither map holding its id. */
  lemma SweptSessionAnsweredOnce(t: Tables, conn: Conn, sweptAt: real, now: real, data: seq<Byte>, or: Oracles)
    requires conn.sid in t.sessions && sweptAt - t.sessions[conn.sid].lastActivity > TEN_MINUTES
    requires or.transcript != ""
    ensures conn.sid !in SweptTables(t, sweptAt).sessions
    ensures var o := Handle(SweptTables(t, sweptAt), conn, now, BinaryFrame(data), or);
      && o.Ended? && !o.escaped
      && o.out == [Transcription(or.transcript),
                   AgentMessage(LegacyGenerateText(SweptTables(t, sweptAt).history, conn.sid, or))]
      && conn.sid !in o.tables.sessions && conn.sid !in o.tables.history
  {
    SweptTablesKeep(t, sweptAt, conn.sid);
  }

  /** The reply text `generate_response` yields for the chunk's transcript. */
  function LegacyGenerateText(h: OpenAIService.History, sid: Key, or: Oracles): string
  {
    GenerateResponse(h, sid, JStr(or.transcript), or.completion).text
  }

  /** After a re-key, the history entry started under the server's own id has no
      session left, so no sweep ever reclaims it. */
  lemma {:induction false} OrphanOutlivesSweeps(t: Tables, k: Key, times: seq<real>)
    requires k in t.history && k !in t.sessions
    ensures k in SweepAll(t, times).history && SweepAll(t, times).history[k] == t.history[k]
    ensures k !in SweepAll(t, times).sessions
    decreases |times|
  {
    if |times| > 0 {
      OrphanOutlivesSweeps(SweptTables(t, times[0]), k, times[1..]);
    }
  }

  /** Sweeps at each of the given times, in order. */
  function SweepAll(t: Tables, times: seq<real>): Tables
    decreases |times|
  {
    if |times| == 0 then t else SweepAll(SweptTables(t, times[0]), times[1..])
  }
}
