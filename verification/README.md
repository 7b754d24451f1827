# Lisa voice call center, modelled in Dafny

Lisa is a browser voice-chat client with a Python WebSocket backend. This project
models two parts of it and proves properties about each.

**The call/speaking state machine of the frontend.** The `useVoiceChat` hook holds
the message log, the call status (`idle`, `connecting`, `active`, `disconnected`,
`error`) and the two speaking flags. The hook does not open any connection. It
simulates the agent with chains of `setTimeout` callbacks:

- a welcome that is "spoken" for 4 s;
- a connect delay of 1.5 s;
- a settle delay of 2 s after a call ends;
- a thinking delay of 1.5 s, a reply delay of 1 s and a reply speech of 3 s after each user message.

The model makes every armed callback an explicit pending `Timer(due, event)`. A
`Fire` step runs the earliest-due timer, taking the first armed one on a tie, and
moves the clock to its due time. No operation cancels a timer, as in the source.
Around the hook:

- the page (`Index.tsx`) adds the mute flag, the microphone-permission gate, the hint line and the effects that start and stop audio;
- the visualizer derives its caption, ring colour, ten bars and buttons from the status and flags;
- the standalone control bar renders guarded button blocks.

**The backend's per-connection protocol.** Each WebSocket connection goes through
these steps:

1. It is registered under a fresh UUID and greeted.
2. Every received frame is handled:
   - a text frame carries JSON: `init` with a `session_id`, or `message` with `text`;
   - a binary frame carries audio, which is transcribed and answered;
   - a disconnect ends the loop.

   Back at the top of the loop, the session's activity time is refreshed before
   the next `receive()`. If the current id is no longer registered, that refresh
   raises and the loop ends. So a frame that arrives after the registration
   vanished is still handled in full, and only then does the session end.
3. A `finally` block removes the current id from the session table and drops its conversation history.

The completion service keeps that history per session key. A periodic task
sweeps sessions that have been idle too long. The older single-file endpoint
(`backend/main.py`) runs the same protocol with these differences:

- a different greeting;
- a one-message prompt preamble;
- no speech;
- a 600 s sweep that also drops history.

The shared protocol is `Protocol`, parameterised by a `Flavor`. `WebSocketRouter`
and `LegacyMain` instantiate it.

Modules: `Bytes` (shared); `ChatTypes`, `VoiceChat`, `IndexPage`, `VoiceVisualizer`,
`CallControls` (frontend); `Optional`, `Wire`, `OpenAIService`, `Cleanup`,
`Protocol`, `WebSocketRouter`, `LegacyMain` (backend).

Modelling choices:

- `Math.random()` is a fraction `num/den` with `num < den`.
- `uuidv4()` is a counter (`nextId`). `new Date()` is the model clock in ms.
- The outcome of `getUserMedia` is a boolean input of the page's start-call event.
- The backend's collaborators are oracles carried by each frame:
  - JSON decoding: malformed, or a value;
  - transcription: a possibly empty string;
  - chat completion: a text, or a failure;
  - speech synthesis: bytes, or a failure.
- Decoded JSON is a `Json` datatype, with Python truthiness. A value used as a
  dictionary key goes through `KeyOf`: `True`/`False` become `1`/`0`, and lists
  and objects are unhashable.
- The backend's `asyncio` clock is a `real` in seconds.

## Model

| member | source | states |
|---|---|---|
| VoiceChat.Mount | src/hooks/useVoiceChat.ts:23-46 | On mount the log is replaced by exactly one agent message, the welcome; the agent flag goes up and a timer to clear it is armed 4000 ms ahead; the status is untouched |
| VoiceChat.StartCall | src/hooks/useVoiceChat.ts:49-60 | Starting a call from any status shows connecting, keeps the log and flags, and arms the connect timer 1500 ms ahead |
| VoiceChat.EndCall | src/hooks/useVoiceChat.ts:63-77 | Ending a call disconnects at once, silences both parties, emits the "Call ended" notice, keeps the log, and arms the return to idle 2000 ms ahead |
| VoiceChat.SendUserMessage | src/hooks/useVoiceChat.ts:80-128 | The text is appended unfiltered as a user message with a fresh id and the current time; the call becomes active whatever it was; the user flag drops; the agent turn is armed 1500 ms ahead |
| VoiceChat.StartUserSpeaking | src/hooks/useVoiceChat.ts:131-134 | The user takes the floor: user flag up, agent flag down, nothing else changes |
| VoiceChat.StopUserSpeaking | src/hooks/useVoiceChat.ts:137-143 | Stopping submits the fixed simulated utterance as a user message, leaves the user flag down and the call active |
| VoiceChat.ResponseIndex | src/hooks/useVoiceChat.ts:103-111 | Every random draw selects one of the five canned replies (the index is in range) |
| VoiceChat.EarliestIndex | src/hooks/useVoiceChat.ts:97-127 | The timer run next is due no later than every pending timer and is the first armed among those due at the same time |
| VoiceChat.Apply | src/hooks/useVoiceChat.ts:40-127 | Each callback's effect: the welcome and reply speech timers clear the agent flag; the connect timer sets active and announces it; the settle timer sets idle; the thinking timer raises the agent flag and arms the reply 1000 ms ahead; the reply timer appends one canned agent message and arms the end of speech 3000 ms ahead; nothing else changes |
| VoiceChat.Fire | src/hooks/useVoiceChat.ts:97-127 | Running a callback never moves the clock backwards or past any pending timer, and only appends to the log, by at most one message |
| VoiceChat.FireRuns | src/hooks/useVoiceChat.ts:40-127 | Whatever else is queued, firing removes exactly the earliest due timer (first armed on a tie), moves the clock to its due time and applies that callback's effect |
| VoiceChat.Wait | src/hooks/useVoiceChat.ts:40-42 | Idle time passes without any state change other than the clock, and never beyond the earliest due callback |
| VoiceChat.Step | src/hooks/useVoiceChat.ts:48-143 | No operation or callback removes, reorders or edits logged messages; each adds at most one |
| VoiceChat.Run | src/hooks/useVoiceChat.ts:12-156 | Over any input sequence the earlier log is a prefix of the later one and grows by at most one message per input |
| VoiceChat.MountEstablishes | src/hooks/useVoiceChat.ts:23-46 | The mounted hook satisfies the well-formedness, balance and known-agent-text invariants |
| VoiceChat.FireKeepsWf | src/hooks/useVoiceChat.ts:97-127 | After a callback runs, no timer is overdue, ids stay minted and strictly increasing, and no message is dated in the future |
| VoiceChat.StepKeepsWf | src/hooks/useVoiceChat.ts:48-143 | Every input preserves well-formedness |
| VoiceChat.FireKeepsBalance | src/hooks/useVoiceChat.ts:97-127 | A callback preserves: agent messages plus replies still on their way through timers equal user messages plus one |
| VoiceChat.StepKeepsBalance | src/hooks/useVoiceChat.ts:80-143 | Every input preserves that balance; each user message arms exactly one future reply |
| VoiceChat.StepKeepsKnownAgentTexts | src/hooks/useVoiceChat.ts:103-120 | Every agent message is the welcome or one of the canned replies, after any input |
| VoiceChat.RunKeepsInvariants | src/hooks/useVoiceChat.ts:12-156 | All three invariants hold in every state reachable from the mounted hook |
| VoiceChat.QuiescentRepliesMatchSends | src/hooks/useVoiceChat.ts:80-128 | Once no timer is pending, the log holds exactly one agent reply per user message plus the welcome |
| VoiceChat.WelcomeEnds | src/hooks/useVoiceChat.ts:40-42 | When the welcome's timer is next, firing clears the agent flag at its due time and leaves the log, the status and the other timers alone |
| VoiceChat.MountedWelcomeEnds | src/hooks/useVoiceChat.ts:36-42 | After mounting, the agent flag stays up until 4000 ms later, when it drops and nothing is left pending |
| VoiceChat.ConnectLands | src/hooks/useVoiceChat.ts:53-59 | When the connect timer is next, firing makes the call active whatever its status, emits "Call connected" and leaves the other timers alone |
| VoiceChat.SettleLands | src/hooks/useVoiceChat.ts:74-76 | When the settle timer is next, firing returns the call to idle whatever its status and leaves the other timers alone |
| VoiceChat.ThinkingEnds | src/hooks/useVoiceChat.ts:97-101 | When the thinking timer is next, whatever else is queued, it raises the agent flag at its due time and arms the reply 1000 ms later |
| VoiceChat.ReplyLands | src/hooks/useVoiceChat.ts:101-126 | When the reply timer is next, it appends one canned agent message dated at its due time and arms the end of speech 3000 ms later, next to the other timers |
| VoiceChat.SpeechEnds | src/hooks/useVoiceChat.ts:123-125 | When the speech timer is next, it clears the agent flag and changes nothing else |
| VoiceChat.SendThenReply | src/hooks/useVoiceChat.ts:80-128 | A message sent with nothing pending yields exactly one agent reply 2500 ms later, and silence and nothing pending 5500 ms after the send |
| VoiceChat.StaleConnectTimerRevivesCall | src/hooks/useVoiceChat.ts:49-77 | Ending a call while it connects is undone: 1500 ms later it is active with a "Call connected" notice, and only at 2000 ms does it return to idle |
| VoiceChat.StaleReplyAfterEndCall | src/hooks/useVoiceChat.ts:63-127 | A reply armed before ending the call still makes the agent speak while the call shows disconnected; the settle timer then makes the call idle with the agent still speaking, and the canned reply lands after that, in an idle call, with only the end of its speech left pending |
| VoiceChat.BothFlagsCanBeRaised | src/hooks/useVoiceChat.ts:97-134 | A pending thinking timer raises the agent flag while the user holds the floor, so both speaking flags are set together |
| IndexPage.HandleToggleMute | src/pages/Index.tsx:54-68 | The mute flag flips and one notice is added that names the new state; the hook is otherwise untouched |
| IndexPage.HandleStartCall | src/pages/Index.tsx:71-84 | The call starts only after microphone access is granted; a refusal leaves the call as it was and adds a destructive notice |
| IndexPage.HandleStartSpeaking | src/pages/Index.tsx:87-98 | While muted, speaking is refused with a destructive notice and no change to the hook; otherwise the user takes the floor |
| IndexPage.MutedNeverListens | src/pages/Index.tsx:87-122 | While the page stays muted, no sequence of clicks, timers or waiting ever makes the user a speaker |
| IndexPage.HintText | src/pages/Index.tsx:125-140 | Each hint line is shown exactly for its status/mute/speaking combination; disconnected and error share "Call ended" |
| IndexPage.Render | src/pages/Index.tsx:114-123 | The visualizer sees the user speaking exactly when the user flag is up and the page is not muted; visualization runs exactly while the call is active |
| IndexPage.HintAndStatusAgree | src/pages/Index.tsx:125-140 | Hint and visualizer caption agree on "listening" while the agent is silent, and disagree when both flags are up |
| IndexPage.Effects | src/pages/Index.tsx:36-51 | A commit sends exactly one command per flag that changed and none for a flag that did not: the agent's comes first and is a start exactly when its flag rose; the user's comes last and is a start exactly when its flag rose |
| IndexPage.FirstCommitEffects | src/pages/Index.tsx:36-51 | The first commit runs both effects: the agent command matching its flag, then the user command matching its flag |
| IndexPage.FirstCommitSyncs | src/pages/Index.tsx:36-51 | After the first commit, the last command each audio channel received is a start exactly when its speaking flag is up |
| IndexPage.EffectsResync | src/pages/Index.tsx:36-51 | The effects of any later commit keep the last command each channel received in agreement with its speaking flag |
| VoiceVisualizer.StatusText | src/components/VoiceVisualizer.tsx:69-80 | Each caption is shown exactly for its status/flag combination, the agent taking precedence over the user; it is never empty |
| VoiceVisualizer.StateColor | src/components/VoiceVisualizer.tsx:83-91 | The ring is red exactly after disconnect or error, amber exactly while connecting, and primary exactly while someone speaks in an active call |
| VoiceVisualizer.Ripple | src/components/VoiceVisualizer.tsx:100-104 | The ripple is drawn exactly while someone speaks, in the stronger colour exactly when the agent does |
| VoiceVisualizer.CallButtonFor | src/components/VoiceVisualizer.tsx:120-137 | Exactly one call button: end while active, otherwise start, disabled exactly while connecting or just disconnected |
| VoiceVisualizer.MicButtonFor | src/components/VoiceVisualizer.tsx:140-158 | A microphone button exists exactly while active and offers to stop exactly when the user is shown speaking |
| VoiceVisualizer.SampleIndex | src/components/VoiceVisualizer.tsx:34 | Every bar samples inside a non-empty frequency array |
| VoiceVisualizer.SampleIndexMonotone | src/components/VoiceVisualizer.tsx:33-35 | Bars further right never sample a lower frequency bin |
| VoiceVisualizer.AudioLines | src/components/VoiceVisualizer.tsx:28-66 | Ten bars, driven by the sample at their index exactly when data is present and someone speaks, otherwise all static; with non-empty data every driven bar has a sample |
| CallControls.Controls | src/components/CallControls.tsx:24-82 | No button in error; two exactly while active; a disabled, callback-less button exactly while connecting; End Call exactly while active; Start Call or Reconnect exactly when idle or disconnected; "Unmute" exactly when active and muted |
| CallControls.AtMostOneBlock | src/components/CallControls.tsx:26-80 | The four guarded blocks are mutually exclusive and none renders in error |
| CallControls.SpeakingIrrelevant | src/components/CallControls.tsx:16-23 | The speaking prop never changes what is rendered |
| Wire.KeyOf | backend/routers/websocket.py:81-86 | A client id becomes a dictionary key unless it is a list or object (unhashable); a string id is itself the key |
| OpenAIService.Converse | backend/services/openai_service.py:25-60 | The prompt is the preamble, the stored conversation and the user entry; on success the stored conversation becomes exactly what was sent plus the reply; on failure the apology is returned and an existing conversation keeps the user entry while a new key is not stored; other keys are untouched |
| OpenAIService.GenerateResponse | backend/services/openai_service.py:25-56 | The prompt opens with the system message and the welcome, and a success stores what followed them plus the reply |
| OpenAIService.InitializeConversation | backend/services/openai_service.py:62-66 | The key holds exactly the welcome afterwards, whatever it held; no other key changes |
| OpenAIService.CleanupConversation | backend/services/openai_service.py:68-71 | The key is removed if present, other entries are kept, and a missing key changes nothing |
| OpenAIService.CleanupIdempotent | backend/services/openai_service.py:68-71 | Cleaning a conversation twice equals cleaning it once |
| OpenAIService.FirstExchange | backend/services/openai_service.py:37-54 | The first exchange after initialisation stores welcome, user entry and reply, and sends the welcome twice |
| Cleanup.InactiveKeys | backend/services/cleanup.py:18-22 | The collected keys are exactly the sessions idle for more than the limit |
| Cleanup.Swept | backend/services/cleanup.py:18-26 | After a sweep, no entry is idle beyond the limit, every other entry is kept unchanged, and nothing is added |
| Cleanup.SweepOnce | backend/services/cleanup.py:16-26 | Deleting the collected keys one by one leaves exactly the swept table |
| Cleanup.SweepIdempotent | backend/services/cleanup.py:18-26 | Sweeping twice at the same time equals sweeping once |
| Cleanup.BoundaryKept | backend/services/cleanup.py:21 | A session idle for exactly five minutes is kept |
| Protocol.Voice | backend/routers/websocket.py:105-123 | At most one audio frame follows a text, with format mp3, exactly when the endpoint speaks and synthesis succeeded |
| Protocol.Accept | backend/routers/websocket.py:34-66 | The connection is registered under its UUID at the current time; the first frame is the welcome, followed by at most one audio frame; the history starts with the welcome; other sessions are untouched |
| Protocol.Finish | backend/routers/websocket.py:187-190 | Leaving removes the current id from both maps and nothing else |
| Protocol.Rekey | backend/routers/websocket.py:80-89 | A missing or falsy id changes nothing; otherwise the old id is unregistered and the connection re-registered under the new one on the same socket, or, for an unhashable id, the session escapes uncleaned; history is untouched |
| Protocol.Answer | backend/routers/websocket.py:94-123 | Exactly one agent message carrying the completion or the apology, then at most one mp3 audio frame; only the current conversation changes |
| Protocol.Touch | backend/routers/websocket.py:68-71 | The loop-top refresh sets only the current session's activity time |
| Protocol.Dispatch | backend/routers/websocket.py:73-181 | A frame handled on its own: a disconnect or a non-object JSON value runs the `finally` cleanup; a truthy hashable `init` id re-registers the connection under it with no output; an unhashable one escapes; a registered session's untranscribed or undecodable frame changes no table; other frames keep the connection and the session table |
| Protocol.LoopTop | backend/routers/websocket.py:68-71 | The loop-top refresh keeps what the frame sent; it refreshes the current id's activity time when that id is registered, and otherwise ends the session, dropping that id's history and nothing else |
| Protocol.Receive | backend/routers/websocket.py:68-190 | Per frame, handled before the loop-top refresh: a disconnect ends the session; a frame arriving after the registration vanished is still handled and then ends the session unless it re-keys; a re-key to a hashable id keeps the session running under that id; an ended session has cleaned its id unless an unhashable re-key escaped; a running session is registered and fresh; "Invalid JSON format" is the sole output exactly for undecodable text, and "Could not transcribe audio" exactly for an empty transcript, both leaving a registered session's history untouched; a transcript yields transcription, agent message and optional audio in that order; only the current id's entries change |
| Protocol.MessageFrame | backend/routers/websocket.py:91-123 | A message with truthy text yields one agent message and at most one audio frame; empty or missing text yields nothing and keeps the history |
| Protocol.InitWithoutId | backend/routers/websocket.py:80-82 | An init without a truthy id only refreshes the activity time |
| Protocol.NonObjectEnds | backend/routers/websocket.py:77-78 | Decoded JSON that is not an object ends the session without an error frame |
| WebSocketRouter.ServerStep | backend/routers/websocket.py:21-190 | Opening a connection and delivering a frame act on the shared session table and history through the endpoint; the cleanup service's sweep acts only on its own separate table, connection events never touch that table, and the sweep never adds to it |
| WebSocketRouter.SweepsChangeNothing | backend/routers/websocket.py:21 | The sweep's table stays empty, so any run of the server ends exactly where the same run without sweeps does: no session is ever expired |
| WebSocketRouter.OrphanedWelcomeHistory | backend/routers/websocket.py:66-190 | After a re-key to another id and a disconnect, neither id is registered but the welcome history under the original UUID remains |
| WebSocketRouter.UnhashableIdEscapes | backend/routers/websocket.py:81-190 | A truthy list or object id unregisters the connection and escapes the endpoint, leaving its history behind |
| WebSocketRouter.TakeoverAnswersThenEnds | backend/routers/websocket.py:68-190 | After a connection re-keys onto another's id and leaves, the other's registration and history are gone; its next message is still answered, and then the loop-top refresh ends it and drops the new history |
| WebSocketRouter.TakeoverRekeySurvives | backend/routers/websocket.py:68-190 | After the same takeover, an `init` naming another id re-registers the other connection, which goes on running under it |
| LegacyMain.GenerateResponse | backend/main.py:77-113 | The prompt opens with the one system message; a success stores what followed it plus the reply; a failure returns the apology |
| LegacyMain.Connect | backend/main.py:118-138 | The only frame sent on connect is the greeting, and the history starts with it |
| LegacyMain.Handle | backend/main.py:141-227 | No audio frame is ever sent; a transcript yields exactly transcription then agent message, and the session runs on exactly when it was still registered; leaving cleans both maps |
| LegacyMain.SweptSessionAnsweredOnce | backend/main.py:141-251 | A session swept while its connection waits still has its next transcribed chunk transcribed and answered; only then does the connection end, and neither map holds its id |
| LegacyMain.Sweep | backend/main.py:234-253 | Deleting the expired ids one by one from both maps leaves exactly the reference swept tables |
| LegacyMain.SweptTablesKeep | backend/main.py:241-251 | A session survives exactly when idle for at most ten minutes; a history entry survives exactly when its id has no expired session |
| LegacyMain.OrphanOutlivesSweeps | backend/main.py:155-251 | A history entry with no session (left by a re-key) survives every sweep unchanged |

## Left out

- `src/hooks/useAudioVisualization.ts`, `src/utils/sounds.ts`, `src/components/ChatHistory.tsx`, `src/components/WaveAnimation.tsx` and `src/pages/Landing.tsx` are presentation and audio plumbing. The analysed audio appears only as the visualizer's optional frequency array and the page's start/stop audio commands.
- `backend/services/deepgram_service.py`, `backend/routers/voice.py`, `backend/routers/tts.py` and `backend/app.py` are SDK wrappers and wiring. Transcription and synthesis are oracles.
- Styling: bar heights and opacities, and every class string except the ring's colour scheme, are not modelled.
- VoiceVisualizer.SampleIndex: computed in exact arithmetic. JavaScript computes `i * (length / 10)` in floating point, which can round differently when `length` is not a multiple of 10.
- React details: StrictMode's double effect run and batching inside one handler are not modelled. Effects are modelled per committed render.
- Notices are a list of title/description/variant. How they are displayed is out of scope.
- The microphone stream that `handleStartCall` acquires is never released by the source. The model keeps only whether the request succeeded.
- `handleToggleMute` is not bound to any control on the page, and `CallControls` is not rendered by it. The model's page event `ToggleMute` stands for a control the page does not have, and `CallControls` is modelled standalone.
- VoiceChat.Fire: its contract states clock and log bounds only. Which timer runs is stated by `FireRuns`, and each callback's effect by `Apply`'s contract.
- IndexPage.Exec: records only the last command each audio channel received. What the audio-visualisation hook then does is not modelled: it ignores a user start while the microphone is already open, and the agent's stop cancels the one animation frame both channels share. So a channel whose last command was a start is not necessarily animating.
- JSON decoding and base64 encoding are opaque oracles. JSON numbers are integers. A `null` completion text is not distinguished from a string.
- Sends are assumed to succeed. A failed `send_json` would raise and end the session like any other exception.
- Concurrency: each frame is handled to completion. The `await` points inside a frame, where another connection could change the same maps, are not interleaved.
- The backend clock is read once per frame: the loop-top refresh and an `init` re-registration get the same time.
- The sweep loop's one-minute sleep, its error handler and its ten-second retry are not modelled. Sweeps are explicit events at given times.
- `main.py`'s health endpoint, CORS setup, environment loading and logging, and `init_router`, are configuration.
