/**
 * The conversation-history map kept by the completion service: one list of chat
 * messages per session key, initialised with the welcome, extended by every
 * completion request and dropped when the session ends.
 */
module OpenAIService {
  import opened Wire

  const WELCOME_MESSAGE := "Hello! I'm Lisa, your personal assistant. How can I help you? You can ask me anything."
  const SYSTEM_PROMPT := "Your name is Lisa. You are a helpful AI assistant in a voice conversation. Keep your responses conversational, helpful, and concise."
  const APOLOGY := "I'm sorry, I encountered an error while processing your request."

  datatype Role = SystemRole | AssistantRole | UserRole

  /** One `{"role": ..., "content": ...}` entry; user content is whatever value the
      client sent. */
  datatype ChatMessage = ChatMessage(role: Role, content: Json)

  type History = map<Key, seq<ChatMessage>>

  /** What a completion request leaves behind: the text handed back to the caller,
      the history map afterwards, and the messages sent to the model. */
  datatype Reply = Reply(text: string, history: History, prompt: seq<ChatMessage>)

  /** The messages every prompt of this service starts with. */
  function Preamble(): seq<ChatMessage>
  {
    [ChatMessage(SystemRole, JStr(SYSTEM_PROMPT)), ChatMessage(AssistantRole, JStr(WELCOME_MESSAGE))]
  }

  /** One completion request against `h` for key `sid`, with the prompt opened by
      `preamble`. The user entry is appended to the stored list before the request:
      when the key already exists, that list is the one in the map, so a failed
      request still leaves the user entry behind; a new list is only stored on
      success. Only the entry for `sid` can change. */
  function Converse(h: History, sid: Key, message: Json, preamble: seq<ChatMessage>, c: Completion): (r: Reply)
    ensures |r.prompt| > |preamble| && r.prompt[..|preamble|] == preamble
    ensures r.prompt[|r.prompt| - 1] == ChatMessage(UserRole, message)
    ensures sid in h ==> r.prompt[|preamble|..|r.prompt| - 1] == h[sid]
    ensures sid !in h ==> |r.prompt| == |preamble| + 1
    ensures c.Completed? ==>
      && r.text == c.text && sid in r.history
      && r.history[sid] == r.prompt[|preamble|..] + [ChatMessage(AssistantRole, JStr(c.text))]
    ensures c.CompletionFailed? ==>
      && r.text == APOLOGY
      && (sid in h ==> sid in r.history && r.history[sid] == r.prompt[|preamble|..])
      && (sid !in h ==> r.history == h)
    ensures sid in h ==> sid in r.history && h[sid] <= r.history[sid]
    ensures forall k :: k != sid ==> (k in r.history <==> k in h)
    ensures forall k :: k != sid && k in h ==> r.history[k] == h[k]
  {
    var stored := if sid in h then h[sid] else [];
    var sent := stored + [ChatMessage(UserRole, message)];
    var prompt := preamble + sent;
    assert prompt[|preamble|..] == sent;
    match c
    case Completed(text) =>
      Reply(text, h[sid := sent + [ChatMessage(AssistantRole, JStr(text))]], prompt)
    case CompletionFailed =>
      Reply(APOLOGY, if sid in h then h[sid := sent] else h, prompt)
  }

  /** `generate_response`. */
  function GenerateResponse(h: History, sid: Key, message: Json, c: Completion): (r: Reply)
    ensures |r.prompt| > 2 && r.prompt[..2] == Preamble()
    ensures c.Completed? ==> sid in r.history && r.history[sid] == r.prompt[2..] + [ChatMessage(AssistantRole, JStr(c.text))]
  {
    Converse(h, sid, message, Preamble(), c)
  }

  /** `initialize_conversation`: the key now holds exactly the welcome, whatever it
      held before. */
  function InitializeConversation(h: History, sid: Key, welcome: string): (r: History)
    ensures sid in r && r[sid] == [ChatMessage(AssistantRole, JStr(welcome))]
    ensures r.Keys == h.Keys + {sid}
    ensures forall k :: k in h && k != sid ==> r[k] == h[k]
  {
    h[sid := [ChatMessage(AssistantRole, JStr(welcome))]]
  }

  /** `cleanup_conversation`: drops the key if present, otherwise changes nothing. */
  function CleanupConversation(h: History, sid: Key): (r: History)
    ensures r.Keys == h.Keys - {sid}
    ensures forall k :: k in r ==> r[k] == h[k]
    ensures sid !in h ==> r == h
  {
    h - {sid}
  }

  lemma CleanupIdempotent(h: History, sid: Key)
    ensures CleanupConversation(CleanupConversation(h, sid), sid) == CleanupConversation(h, sid)
  {
  }

  /** A successful request on a freshly initialised key stores the welcome, the
      user entry and the reply, and sent the welcome twice: once from the
      preamble and once from the stored history. */
  lemma FirstExchange(h: History, sid: Key, message: Json, text: string)
    ensures var r := GenerateResponse(InitializeConversation(h, sid, WELCOME_MESSAGE), sid, message, Completed(text));
      && r.history[sid] == [ChatMessage(AssistantRole, JStr(WELCOME_MESSAGE)),
                            ChatMessage(UserRole, message),
                            ChatMessage(AssistantRole, JStr(text))]
      && r.prompt == Preamble() + [ChatMessage(AssistantRole, JStr(WELCOME_MESSAGE)), ChatMessage(UserRole, message)]
  {
  }
}
