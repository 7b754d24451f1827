/**
 * The `useVoiceChat` hook: the message log, the call status and the two speaking
 * flags, driven by the five operations the hook exposes and by the `setTimeout`
 * callbacks those operations arm. Each armed callback is an explicit `Timer` in
 * `pending`; nothing ever cancels one, so a timer armed by one call can still fire
 * after a later operation has moved the state on.
 */
module VoiceChat {
  import opened ChatTypes

  const WELCOME_TEXT := "Welcome to our AI-powered call center. How can I assist you today?"

  /** The canned agent replies, one of which is drawn for every user message. */
  const RESPONSES: seq<string> := [
    "I understand your concern. Let me help you with that.",
    "Thanks for providing that information. Is there anything else you'd like to know?",
    "I'm checking our system for that information. One moment please.",
    "That's a great question. Here's what I can tell you.",
    "I'd be happy to assist with your request."
  ]

  /** The text `stopUserSpeaking` submits in place of a real transcript. */
  const SIMULATED_UTTERANCE := "This is a simulated user message from voice input."

  const WELCOME_SPEECH_MS: nat := 4000
  const CONNECT_DELAY_MS: nat := 1500
  const SETTLE_DELAY_MS: nat := 2000
  const THINKING_DELAY_MS: nat := 1500
  const REPLY_DELAY_MS: nat := 1000
  const REPLY_SPEECH_MS: nat := 3000

  const CONNECTED_TOAST := Toast("Call connected", "You're now connected to our AI assistant", false)
  const ENDED_TOAST := Toast("Call ended", "Your call has been disconnected", false)

  /** What an armed `setTimeout` callback does when it runs. */
  datatype TimerEvent =
    | WelcomeSpoken   // clears the agent flag raised by the mount-time welcome
    | Connected       // connecting -> active, with a toast
    | Settled         // disconnected -> idle
    | AgentStarts     // raises the agent flag and arms AgentReplies
    | AgentReplies    // appends a canned reply and arms ReplySpoken
    | ReplySpoken     // clears the agent flag

  /** A pending callback and the clock value (ms) at which it becomes due. */
  datatype Timer = Timer(due: nat, event: TimerEvent)

  /** A value of `Math.random()`, written as the fraction num/den. */
  datatype Fraction = Fraction(num: nat, den: nat)
  type Draw = f: Fraction | f.num < f.den witness Fraction(0, 1)

  datatype Hook = Hook(
    messages: seq<Message>,
    status: CallStatus,
    agentSpeaking: bool,
    userSpeaking: bool,
    now: nat,              // model clock in ms
    pending: seq<Timer>,   // armed callbacks, in the order they were armed
    nextId: nat,           // stands for the uuid source: every id below it is taken
    toasts: seq<Toast>)    // every notice emitted so far

  /** The inputs the hook reacts to: its five operations, a timer firing (with the
      random draw the reply callback consumes) and the passage of time. */
  datatype Event =
    | OnStartCall
    | OnEndCall
    | OnSend(text: string)
    | OnStartSpeaking
    | OnStopSpeaking
    | OnTimer(draw: Draw)
    | OnWait(ms: nat)

  function Max(a: nat, b: nat): nat { if a < b then b else a }

  /** The `useState` initial values at clock `t`, before any effect has run. */
  function Fresh(t: nat): Hook
  {
    Hook([], Idle, false, false, t, [], 0, [])
  }

  function Append(s: Hook, text: string, who: Sender): Hook
  {
    s.(messages := s.messages + [Message(s.nextId, text, who, s.now)], nextId := s.nextId + 1)
  }

  function Arm(s: Hook, delay: nat, e: TimerEvent): Hook
  {
    s.(pending := s.pending + [Timer(s.now + delay, e)])
  }

  /** The mount-time effect: the log is REPLACED by the welcome message, the agent
      flag is raised and its clearing is armed. */
  function Mount(s: Hook): (r: Hook)
    ensures |r.messages| == 1 && r.messages[0].sender == Agent && r.messages[0].text == WELCOME_TEXT
    ensures r.agentSpeaking && r.status == s.status
    ensures r.pending == s.pending + [Timer(s.now + WELCOME_SPEECH_MS, WelcomeSpoken)]
  {
    Arm(s.(messages := [Message(s.nextId, WELCOME_TEXT, Agent, s.now)],
           nextId := s.nextId + 1,
           agentSpeaking := true),
        WELCOME_SPEECH_MS, WelcomeSpoken)
  }

  /** `startCall`: no guard on the current status. */
  function StartCall(s: Hook): (r: Hook)
    ensures r.status == Connecting
    ensures r.messages == s.messages && r.agentSpeaking == s.agentSpeaking && r.userSpeaking == s.userSpeaking
    ensures r.pending == s.pending + [Timer(s.now + CONNECT_DELAY_MS, Connected)]
  {
    Arm(s.(status := Connecting), CONNECT_DELAY_MS, Connected)
  }

  /** `endCall`: disconnects at once, silences both parties, returns to idle later. */
  function EndCall(s: Hook): (r: Hook)
    ensures r.status == Disconnected && !r.agentSpeaking && !r.userSpeaking
    ensures r.messages == s.messages
    ensures r.toasts == s.toasts + [ENDED_TOAST]
    ensures r.pending == s.pending + [Timer(s.now + SETTLE_DELAY_MS, Settled)]
  {
    Arm(s.(status := Disconnected, agentSpeaking := false, userSpeaking := false,
           toasts := s.toasts + [ENDED_TOAST]),
        SETTLE_DELAY_MS, Settled)
  }

  /** `sendUserMessage`: appends the text as given (no filtering), forces the
      status to active whatever it was, and arms the simulated agent turn. */
  function SendUserMessage(s: Hook, text: string): (r: Hook)
    ensures r.messages == s.messages + [Message(s.nextId, text, User, s.now)]
    ensures r.status == Active && !r.userSpeaking && r.agentSpeaking == s.agentSpeaking
    ensures r.pending == s.pending + [Timer(s.now + THINKING_DELAY_MS, AgentStarts)]
  {
    Arm(Append(s, text, User).(userSpeaking := false, status := Active), THINKING_DELAY_MS, AgentStarts)
  }

  /** `startUserSpeaking`: the user takes the floor from the agent. */
  function StartUserSpeaking(s: Hook): (r: Hook)
    ensures r.userSpeaking && !r.agentSpeaking
    ensures r.messages == s.messages && r.status == s.status && r.pending == s.pending
  {
    s.(userSpeaking := true, agentSpeaking := false)
  }

  /** `stopUserSpeaking`: clears the user flag and submits the fixed utterance. */
  function StopUserSpeaking(s: Hook): (r: Hook)
    ensures r.messages == s.messages + [Message(s.nextId, SIMULATED_UTTERANCE, User, s.now)]
    ensures !r.userSpeaking && r.status == Active
  {
    SendUserMessage(s.(userSpeaking := false), SIMULATED_UTTERANCE)
  }

  /** `Math.floor(Math.random() * responses.length)`. */
  function ResponseIndex(d: Draw): (k: nat)
    ensures k < |RESPONSES|
  {
    assert d.num * |RESPONSES| < d.den * |RESPONSES|;
    d.num * |RESPONSES| / d.den
  }

  /** The first pending timer among those due earliest. */
  function EarliestIndex(p: seq<Timer>): (i: nat)
    requires |p| > 0
    ensures i < |p|
    ensures forall j :: 0 <= j < |p| ==> p[i].due <= p[j].due
    ensures forall j :: 0 <= j < i ==> p[i].due < p[j].due
  {
    if |p| == 1 then 0
    else
      var k := EarliestIndex(p[1..]);
      if p[0].due <= p[k + 1].due then 0 else k + 1
  }

  /** The effect of one timer callback, run at the moment it fires. */
  function Apply(s: Hook, e: TimerEvent, d: Draw): (r: Hook)
    ensures r.now == s.now && r.userSpeaking == s.userSpeaking && s.toasts <= r.toasts
    ensures s.messages <= r.messages && |r.messages| <= |s.messages| + 1
    ensures |r.pending| <= |s.pending| + 1
    ensures e == WelcomeSpoken || e == ReplySpoken ==>
      && !r.agentSpeaking && r.status == s.status
      && r.messages == s.messages && r.pending == s.pending && r.toasts == s.toasts
    ensures e == Connected ==>
      && r.status == Active && r.toasts == s.toasts + [CONNECTED_TOAST]
      && r.agentSpeaking == s.agentSpeaking && r.messages == s.messages && r.pending == s.pending
    ensures e == Settled ==>
      && r.status == Idle && r.toasts == s.toasts
      && r.agentSpeaking == s.agentSpeaking && r.messages == s.messages && r.pending == s.pending
    ensures e == AgentStarts ==>
      && r.agentSpeaking && r.status == s.status && r.toasts == s.toasts && r.messages == s.messages
      && r.pending == s.pending + [Timer(s.now + REPLY_DELAY_MS, AgentReplies)]
    ensures e == AgentReplies ==>
      && r.agentSpeaking == s.agentSpeaking && r.status == s.status && r.toasts == s.toasts
      && r.messages == s.messages + [Message(s.nextId, RESPONSES[ResponseIndex(d)], Agent, s.now)]
      && r.pending == s.pending + [Timer(s.now + REPLY_SPEECH_MS, ReplySpoken)]
  {
    match e
    case WelcomeSpoken => s.(agentSpeaking := false)
    case Connected => s.(status := Active, toasts := s.toasts + [CONNECTED_TOAST])
    case Settled => s.(status := Idle)
    case AgentStarts => Arm(s.(agentSpeaking := true), REPLY_DELAY_MS, AgentReplies)
    case AgentReplies => Arm(Append(s, RESPONSES[ResponseIndex(d)], Agent), REPLY_SPEECH_MS, ReplySpoken)
    case ReplySpoken => s.(agentSpeaking := false)
  }

  /** The event loop runs the earliest due callback: the clock jumps to its due
      time, the timer leaves `pending`, and its effect is applied. No timer is
      ever skipped over. */
  function Fire(s: Hook, d: Draw): (r: Hook)
    ensures r.now >= s.now
    ensures forall j :: 0 <= j < |s.pending| && s.now <= s.pending[j].due ==> r.now <= s.pending[j].due
    ensures |s.pending| > 0 ==> |r.pending| <= |s.pending|
    ensures s.messages <= r.messages && |r.messages| <= |s.messages| + 1
  {
    if |s.pending| == 0 then s
    else
      var i := EarliestIndex(s.pending);
      var t := s.pending[i];
      Apply(s.(now := Max(s.now, t.due), pending := s.pending[..i] + s.pending[i + 1..]), t.event, d)
  }

  /** Time passes without any operation, but never beyond the earliest due timer:
      a due callback runs before anything else happens. */
  function Wait(s: Hook, ms: nat): (r: Hook)
    ensures r.now >= s.now
    ensures forall j :: 0 <= j < |s.pending| && s.now <= s.pending[j].due ==> r.now <= s.pending[j].due
    ensures |s.pending| == 0 ==> r.now == s.now + ms
    ensures r == s.(now := r.now)
  {
    if |s.pending| > 0 && s.pending[EarliestIndex(s.pending)].due < s.now + ms then
      s.(now := Max(s.now, s.pending[EarliestIndex(s.pending)].due))
    else
      s.(now := s.now + ms)
  }

  /** One input. The log only ever grows by appending at most one message. */
  function Step(s: Hook, e: Event): (r: Hook)
    ensures s.messages <= r.messages && |r.messages| <= |s.messages| + 1
    ensures r.now >= s.now
  {
    match e
    case OnStartCall => StartCall(s)
    case OnEndCall => EndCall(s)
    case OnSend(text) => SendUserMessage(s, text)
    case OnStartSpeaking => StartUserSpeaking(s)
    case OnStopSpeaking => StopUserSpeaking(s)
    case OnTimer(d) => Fire(s, d)
    case OnWait(ms) => Wait(s, ms)
  }

  /** A sequence of inputs. Messages already in the log are never removed,
      reordered or edited, whatever happens next. */
  function Run(s: Hook, es: seq<Event>): (r: Hook)
    ensures s.messages <= r.messages && |r.messages| <= |s.messages| + |es|
    ensures r.now >= s.now
    decreases |es|
  {
    if |es| == 0 then s else Run(Step(s, es[0]), es[1..])
  }

  // ---------------------------------------------------------------------------
  // Invariants over reachable states

  /** No pending timer is overdue, every message id was minted (is below
      `nextId`), ids strictly increase along the log, and no message is dated
      in the future. */
  ghost predicate Wf(s: Hook)
  {
    && (forall j :: 0 <= j < |s.pending| ==> s.now <= s.pending[j].due)
    && (forall i :: 0 <= i < |s.messages| ==> s.messages[i].id < s.nextId && s.messages[i].timestamp <= s.now)
    && (forall i, j :: 0 <= i < j < |s.messages| ==> s.messages[i].id < s.messages[j].id)
  }

  /** Every agent message is the welcome or one of the canned replies. */
  ghost predicate KnownAgentTexts(s: Hook)
  {
    forall i :: 0 <= i < |s.messages| && s.messages[i].sender == Agent ==>
      s.messages[i].text == WELCOME_TEXT || s.messages[i].text in RESPONSES
  }

  predicate Owes(t: Timer)
  {
    t.event == AgentStarts || t.event == AgentReplies
  }

  /** Number of pending timers that are still on their way to an agent reply. */
  function Owed(p: seq<Timer>): nat
  {
    if |p| == 0 then 0 else (if Owes(p[0]) then 1 else 0) + Owed(p[1..])
  }

  lemma {:induction false} OwedConcat(a: seq<Timer>, b: seq<Timer>)
    ensures Owed(a + b) == Owed(a) + Owed(b)
  {
    if |a| == 0 {
      assert a + b == b;
    } else {
      assert (a + b)[1..] == a[1..] + b;
      OwedConcat(a[1..], b);
    }
  }

  lemma OwedCons(t: Timer, b: seq<Timer>)
    ensures Owed([t] + b) == (if Owes(t) then 1 else 0) + Owed(b)
  {
    assert ([t] + b)[1..] == b;
  }

  lemma OwedSplit(a: seq<Timer>, t: Timer, b: seq<Timer>)
    ensures Owed(a + ([t] + b)) == Owed(a + b) + (if Owes(t) then 1 else 0)
  {
    OwedConcat(a, [t] + b);
    OwedCons(t, b);
    OwedConcat(a, b);
  }

  lemma SplitAround(p: seq<Timer>, i: nat)
    requires i < |p|
    ensures p == p[..i] + ([p[i]] + p[i + 1..])
  {
    assert p[i..] == [p[i]] + p[i + 1..];
    assert p == p[..i] + p[i..];
  }

  lemma OwedRemove(p: seq<Timer>, i: nat)
    requires i < |p|
    ensures Owed(p[..i] + p[i + 1..]) + (if Owes(p[i]) then 1 else 0) == Owed(p)
  {
    SplitAround(p, i);
    OwedSplit(p[..i], p[i], p[i + 1..]);
  }

  /** Every user message is matched by exactly one agent reply, either already in
      the log or still on its way through the timers; the welcome is the one agent
      message with no user message before it. */
  ghost predicate Balanced(s: Hook)
  {
    CountBy(s.messages, Agent) + Owed(s.pending) == CountBy(s.messages, User) + 1
  }

  lemma MountEstablishes(t: nat)
    ensures Wf(Mount(Fresh(t))) && Balanced(Mount(Fresh(t))) && KnownAgentTexts(Mount(Fresh(t)))
  {
    var r := Mount(Fresh(t));
    assert r.messages[1..] == [];
    assert r.pending[1..] == [];
  }

  lemma ApplyKeepsWf(s: Hook, e: TimerEvent, d: Draw)
    requires Wf(s)
    ensures Wf(Apply(s, e, d))
  {
    match e
    case AgentReplies =>
      var s1 := Append(s, RESPONSES[ResponseIndex(d)], Agent);
      assert Wf(s1);
    case _ =>
  }

  /** Taking the earliest timer out and moving the clock to its due time keeps
      every other timer in the future. */
  lemma TakeEarliestKeepsWf(s: Hook)
    requires Wf(s) && |s.pending| > 0
    ensures var i := EarliestIndex(s.pending);
      Wf(s.(now := Max(s.now, s.pending[i].due), pending := s.pending[..i] + s.pending[i + 1..]))
  {
    var i := EarliestIndex(s.pending);
    var rest := s.pending[..i] + s.pending[i + 1..];
    forall j | 0 <= j < |rest|
      ensures s.pending[i].due <= rest[j].due
    {
      if j < i { assert rest[j] == s.pending[j]; } else { assert rest[j] == s.pending[j + 1]; }
    }
  }

  lemma FireKeepsWf(s: Hook, d: Draw)
    requires Wf(s)
    ensures Wf(Fire(s, d))
  {
    if |s.pending| > 0 {
      var i := EarliestIndex(s.pending);
      TakeEarliestKeepsWf(s);
      ApplyKeepsWf(s.(now := Max(s.now, s.pending[i].due), pending := s.pending[..i] + s.pending[i + 1..]),
                   s.pending[i].event, d);
    }
  }

  lemma StepKeepsWf(s: Hook, e: Event)
    requires Wf(s)
    ensures Wf(Step(s, e))
  {
    match e
    case OnTimer(d) => FireKeepsWf(s, d);
    case _ =>
  }

  lemma AppendCounts(s: Hook, text: string, who: Sender)
    ensures CountBy(Append(s, text, who).messages, who) == CountBy(s.messages, who) + 1
    ensures forall other :: other != who ==> CountBy(Append(s, text, who).messages, other) == CountBy(s.messages, other)
  {
    var m := Message(s.nextId, text, who, s.now);
    assert [m][1..] == [];
    CountByConcat(s.messages, [m], who);
    forall other | other != who
      ensures CountBy(s.messages + [m], other) == CountBy(s.messages, other)
    {
      CountByConcat(s.messages, [m], other);
    }
  }

  lemma ArmOwes(s: Hook, delay: nat, e: TimerEvent)
    ensures Owed(Arm(s, delay, e).pending) == Owed(s.pending) + (if Owes(Timer(s.now + delay, e)) then 1 else 0)
  {
    var t := Timer(s.now + delay, e);
    OwedConcat(s.pending, [t]);
    assert [t][1..] == [];
  }

  /** A callback whose own timer was still owed a reply restores the balance. */
  lemma ApplyBalance(s: Hook, e: TimerEvent, d: Draw)
    requires CountBy(s.messages, Agent) + Owed(s.pending) + (if Owes(Timer(0, e)) then 1 else 0)
             == CountBy(s.messages, User) + 1
    ensures Balanced(Apply(s, e, d))
  {
    match e
    case AgentStarts =>
      ArmOwes(s.(agentSpeaking := true), REPLY_DELAY_MS, AgentReplies);
    case AgentReplies =>
      var s2 := Append(s, RESPONSES[ResponseIndex(d)], Agent);
      AppendCounts(s, RESPONSES[ResponseIndex(d)], Agent);
      ArmOwes(s2, REPLY_SPEECH_MS, ReplySpoken);
    case _ =>
  }

  lemma {:induction false} FireKeepsBalance(s: Hook, d: Draw)
    requires Balanced(s)
    ensures Balanced(Fire(s, d))
  {
    if |s.pending| > 0 {
      var i := EarliestIndex(s.pending);
      var t := s.pending[i];
      var s1 := s.(now := Max(s.now, t.due), pending := s.pending[..i] + s.pending[i + 1..]);
      assert Fire(s, d) == Apply(s1, t.event, d);
      OwedRemove(s.pending, i);
      ApplyBalance(s1, t.event, d);
    }
  }

  lemma {:induction false} StepKeepsBalance(s: Hook, e: Event)
    requires Balanced(s)
    ensures Balanced(Step(s, e))
  {
    match e
    case OnStartCall => ArmOwes(s.(status := Connecting), CONNECT_DELAY_MS, Connected);
    case OnEndCall =>
      ArmOwes(s.(status := Disconnected, agentSpeaking := false, userSpeaking := false,
                 toasts := s.toasts + [ENDED_TOAST]), SETTLE_DELAY_MS, Settled);
    case OnSend(text) =>
      AppendCounts(s, text, User);
      ArmOwes(Append(s, text, User).(userSpeaking := false, status := Active), THINKING_DELAY_MS, AgentStarts);
    case OnStartSpeaking =>
    case OnStopSpeaking =>
      var s0 := s.(userSpeaking := false);
      AppendCounts(s0, SIMULATED_UTTERANCE, User);
      ArmOwes(Append(s0, SIMULATED_UTTERANCE, User).(userSpeaking := false, status := Active),
              THINKING_DELAY_MS, AgentStarts);
    case OnTimer(d) => FireKeepsBalance(s, d);
    case OnWait(ms) =>
  }

  lemma StepKeepsKnownAgentTexts(s: Hook, e: Event)
    requires KnownAgentTexts(s)
    ensures KnownAgentTexts(Step(s, e))
  {
    if e.OnTimer? && |s.pending| > 0 {
      var i := EarliestIndex(s.pending);
      if s.pending[i].event == AgentReplies {
        assert RESPONSES[ResponseIndex(e.draw)] in RESPONSES;
      }
    }
  }

  /** The three invariants hold in every state reachable from the mounted hook. */
  lemma {:induction false} RunKeepsInvariants(s: Hook, es: seq<Event>)
    requires Wf(s) && Balanced(s) && KnownAgentTexts(s)
    ensures Wf(Run(s, es)) && Balanced(Run(s, es)) && KnownAgentTexts(Run(s, es))
    decreases |es|
  {
    if |es| > 0 {
      StepKeepsWf(s, es[0]);
      StepKeepsBalance(s, es[0]);
      StepKeepsKnownAgentTexts(s, es[0]);
      RunKeepsInvariants(Step(s, es[0]), es[1..]);
    }
  }

  /** Once every timer has run, the log holds exactly one agent reply per user
      message, plus the welcome. */
  lemma QuiescentRepliesMatchSends(t: nat, es: seq<Event>)
    requires |Run(Mount(Fresh(t)), es).pending| == 0
    ensures var r := Run(Mount(Fresh(t)), es);
      CountBy(r.messages, Agent) == CountBy(r.messages, User) + 1
  {
    MountEstablishes(t);
    RunKeepsInvariants(Mount(Fresh(t)), es);
  }

  // ---------------------------------------------------------------------------
  // Timing scenarios

  /** Whatever else is queued, firing runs the earliest due timer (the first
      armed among equals): the clock moves to its due time, that timer alone
      leaves the queue, and its callback's effect is applied. */
  lemma FireRuns(s: Hook, d: Draw)
    requires |s.pending| > 0
    ensures var i := EarliestIndex(s.pending);
      Fire(s, d) == Apply(s.(now := Max(s.now, s.pending[i].due), pending := s.pending[..i] + s.pending[i + 1..]),
                          s.pending[i].event, d)
    ensures s.now <= s.pending[EarliestIndex(s.pending)].due ==> Fire(s, d).now == s.pending[EarliestIndex(s.pending)].due
  {
  }

  /** The timer that fires next, and the queue without it. */
  function Next(s: Hook): Timer
    requires |s.pending| > 0
  {
    s.pending[EarliestIndex(s.pending)]
  }

  function Others(s: Hook): seq<Timer>
    requires |s.pending| > 0
  {
    var i := EarliestIndex(s.pending);
    s.pending[..i] + s.pending[i + 1..]
  }

  /** The welcome's speech timer clears the agent flag and changes nothing else. */
  lemma WelcomeEnds(a: Hook, d: Draw)
    requires |a.pending| > 0 && Next(a).event == WelcomeSpoken && a.now <= Next(a).due
    ensures var b := Fire(a, d);
      && !b.agentSpeaking && b.now == Next(a).due && b.messages == a.messages
      && b.status == a.status && b.pending == Others(a)
  {
    FireRuns(a, d);
  }

  /** Right after mounting, nothing happens for 4000 ms; then the welcome's speech
      ends and the agent flag drops. */
  lemma MountedWelcomeEnds(t: nat, d: Draw)
    ensures var m := Mount(Fresh(t));
      && m.agentSpeaking && m.pending == [Timer(t + WELCOME_SPEECH_MS, WelcomeSpoken)]
      && var b := Fire(m, d);
      && !b.agentSpeaking && b.now == t + WELCOME_SPEECH_MS && b.messages == m.messages && b.pending == []
  {
    var m := Mount(Fresh(t));
    assert EarliestIndex(m.pending) == 0;
    WelcomeEnds(m, d);
  }

  /** The connect timer makes the call active, whatever its status by then, and
      announces the connection. */
  lemma ConnectLands(a: Hook, d: Draw)
    requires |a.pending| > 0 && Next(a).event == Connected && a.now <= Next(a).due
    ensures var b := Fire(a, d);
      && b.status == Active && b.toasts == a.toasts + [CONNECTED_TOAST]
      && b.now == Next(a).due && b.messages == a.messages && b.pending == Others(a)
  {
    FireRuns(a, d);
  }

  /** The settle timer puts the call back to idle, whatever its status by then. */
  lemma SettleLands(a: Hook, d: Draw)
    requires |a.pending| > 0 && Next(a).event == Settled && a.now <= Next(a).due
    ensures var b := Fire(a, d);
      && b.status == Idle && b.now == Next(a).due && b.messages == a.messages && b.pending == Others(a)
  {
    FireRuns(a, d);
  }

  /** The thinking timer of a user message raises the agent flag when it fires and
      arms the reply 1000 ms later. */
  lemma ThinkingEnds(a: Hook, d: Draw)
    requires |a.pending| > 0 && Next(a).event == AgentStarts && a.now <= Next(a).due
    ensures var b := Fire(a, d);
      && b.agentSpeaking && b.now == Next(a).due && b.messages == a.messages
      && b.pending == Others(a) + [Timer(b.now + REPLY_DELAY_MS, AgentReplies)]
  {
    FireRuns(a, d);
  }

  /** The reply timer appends one canned agent message, dated when it fires, and
      arms the end of the agent's speech 3000 ms later. */
  lemma ReplyLands(a: Hook, d: Draw)
    requires |a.pending| > 0 && Next(a).event == AgentReplies && a.now <= Next(a).due
    ensures var b := Fire(a, d);
      && b.now == Next(a).due
      && b.messages == a.messages + [Message(a.nextId, RESPONSES[ResponseIndex(d)], Agent, b.now)]
      && b.agentSpeaking == a.agentSpeaking
      && b.pending == Others(a) + [Timer(b.now + REPLY_SPEECH_MS, ReplySpoken)]
  {
    FireRuns(a, d);
  }

  /** The speech timer clears the agent flag and nothing else. */
  lemma SpeechEnds(a: Hook, d: Draw)
    requires |a.pending| > 0 && Next(a).event == ReplySpoken && a.now <= Next(a).due
    ensures var b := Fire(a, d);
      && !b.agentSpeaking && b.now == Next(a).due && b.messages == a.messages
      && b.status == a.status && b.pending == Others(a)
  {
    FireRuns(a, d);
  }

  /** A user message sent while no timer is pending produces, three timer firings
      later, exactly one canned agent reply: the agent flag goes up 1500 ms after
      the send, the reply lands 1000 ms after that, and the flag drops 3000 ms
      after the reply, leaving nothing pending. */
  lemma SendThenReply(s: Hook, text: string, d1: Draw, d2: Draw, d3: Draw)
    requires |s.pending| == 0
    ensures var c := Fire(Fire(Fire(SendUserMessage(s, text), d1), d2), d3);
      && c.messages == s.messages + [Message(s.nextId, text, User, s.now),
                                     Message(s.nextId + 1, RESPONSES[ResponseIndex(d2)], Agent,
                                             s.now + THINKING_DELAY_MS + REPLY_DELAY_MS)]
      && !c.agentSpeaking && c.status == Active && |c.pending| == 0
      && c.now == s.now + THINKING_DELAY_MS + REPLY_DELAY_MS + REPLY_SPEECH_MS
  {
    var t0 := s.now + THINKING_DELAY_MS;
    var s1 := SendUserMessage(s, text);
    assert s1.pending == [Timer(t0, AgentStarts)];
    assert EarliestIndex(s1.pending) == 0 && Others(s1) == [];
    ThinkingEnds(s1, d1);
    var a := Fire(s1, d1);
    assert a.pending == [Timer(t0 + REPLY_DELAY_MS, AgentReplies)];
    assert EarliestIndex(a.pending) == 0 && Others(a) == [];
    ReplyLands(a, d2);
    var b := Fire(a, d2);
    assert b.pending == [Timer(t0 + REPLY_DELAY_MS + REPLY_SPEECH_MS, ReplySpoken)];
    assert EarliestIndex(b.pending) == 0 && Others(b) == [];
    SpeechEnds(b, d3);
  }

  /** The connect timer is not cancelled by `endCall`: ending a call while it is
      still connecting is undone 1500 ms later, when the call turns active, and
      only 500 ms after that does the settle timer put it back to idle. */
  lemma StaleConnectTimerRevivesCall(s: Hook, d1: Draw, d2: Draw)
    requires |s.pending| == 0
    ensures EndCall(StartCall(s)).status == Disconnected
    ensures var a := Fire(EndCall(StartCall(s)), d1);
      a.status == Active && a.now == s.now + CONNECT_DELAY_MS && a.toasts[|a.toasts| - 1] == CONNECTED_TOAST
    ensures var b := Fire(Fire(EndCall(StartCall(s)), d1), d2);
      b.status == Idle && b.now == s.now + SETTLE_DELAY_MS && |b.pending| == 0
  {
    var e := EndCall(StartCall(s));
    assert e.pending == [Timer(s.now + CONNECT_DELAY_MS, Connected), Timer(s.now + SETTLE_DELAY_MS, Settled)];
    var a := Fire(e, d1);
    assert EarliestIndex(e.pending) == 0;
    assert a.pending == [Timer(s.now + SETTLE_DELAY_MS, Settled)];
  }

  /** A reply armed before `endCall` still arrives. The thinking timer makes the
      agent speak while the call shows as disconnected; the settle timer then
      returns the call to idle with the agent still speaking; and the canned
      reply lands 1000 ms after the thinking timer, in an idle call, with only
      the end of its speech left pending. */
  lemma StaleReplyAfterEndCall(s: Hook, text: string, d1: Draw, d2: Draw, d3: Draw)
    requires |s.pending| == 0
    ensures var a := Fire(EndCall(SendUserMessage(s, text)), d1);
      a.status == Disconnected && a.agentSpeaking && a.now == s.now + THINKING_DELAY_MS
    ensures var b := Fire(Fire(EndCall(SendUserMessage(s, text)), d1), d2);
      b.status == Idle && b.agentSpeaking && b.now == s.now + SETTLE_DELAY_MS
    ensures var c := Fire(Fire(Fire(EndCall(SendUserMessage(s, text)), d1), d2), d3);
      && c.status == Idle && c.agentSpeaking
      && c.now == s.now + THINKING_DELAY_MS + REPLY_DELAY_MS
      && c.pending == [Timer(c.now + REPLY_SPEECH_MS, ReplySpoken)]
      && c.messages == s.messages + [Message(s.nextId, text, User, s.now),
                                     Message(s.nextId + 1, RESPONSES[ResponseIndex(d3)], Agent, c.now)]
  {
    var e := EndCall(SendUserMessage(s, text));
    assert e.pending == [Timer(s.now + THINKING_DELAY_MS, AgentStarts), Timer(s.now + SETTLE_DELAY_MS, Settled)];
    assert EarliestIndex(e.pending) == 0;
    var a := Fire(e, d1);
    assert a == e.(now := s.now + THINKING_DELAY_MS, agentSpeaking := true,
                   pending := [Timer(s.now + SETTLE_DELAY_MS, Settled),
                               Timer(s.now + THINKING_DELAY_MS + REPLY_DELAY_MS, AgentReplies)]);
    SettleFirst(a, d2, s.now + SETTLE_DELAY_MS, s.now + THINKING_DELAY_MS + REPLY_DELAY_MS);
    var b := Fire(a, d2);
    LastReplyLands(b, d3, s.now + THINKING_DELAY_MS + REPLY_DELAY_MS);
  }

  /** With the settle timer queued before a reply, firing runs the settle timer. */
  lemma SettleFirst(a: Hook, d: Draw, settleAt: nat, replyAt: nat)
    requires a.pending == [Timer(settleAt, Settled), Timer(replyAt, AgentReplies)] && a.now <= settleAt < replyAt
    ensures Fire(a, d) == a.(status := Idle, now := settleAt, pending := [Timer(replyAt, AgentReplies)])
  {
    assert EarliestIndex(a.pending) == 0;
  }

  /** With only a reply queued, firing appends the reply and arms its speech end. */
  lemma LastReplyLands(b: Hook, d: Draw, replyAt: nat)
    requires b.pending == [Timer(replyAt, AgentReplies)] && b.now <= replyAt
    ensures Fire(b, d) == b.(now := replyAt,
                             messages := b.messages + [Message(b.nextId, RESPONSES[ResponseIndex(d)], Agent, replyAt)],
                             nextId := b.nextId + 1,
                             pending := [Timer(replyAt + REPLY_SPEECH_MS, ReplySpoken)])
  {
    assert EarliestIndex(b.pending) == 0;
    assert b.pending[..0] + b.pending[1..] == [];
  }

  /** Starting to speak only clears the agent flag at that moment: a thinking
      timer armed by an earlier message raises it again while the user still
      holds the floor, so both flags end up set. */
  lemma BothFlagsCanBeRaised(s: Hook, text: string, d: Draw)
    requires |s.pending| == 0
    ensures var a := Fire(StartUserSpeaking(SendUserMessage(s, text)), d);
      a.userSpeaking && a.agentSpeaking
  {
    var a := StartUserSpeaking(SendUserMessage(s, text));
    assert EarliestIndex(a.pending) == 0;
    ThinkingEnds(a, d);
  }
}
