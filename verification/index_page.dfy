/**
 * The call page: it owns the `isMuted` flag, gates the hook's operations behind
 * the mute and microphone checks, derives what the visualizer and the hint line
 * show, and sends each audio channel a start or stop command when its speaking
 * flag changes.
 */
module IndexPage {
  import opened ChatTypes
  import VoiceChat
  import VoiceVisualizer

  const MUTED_TOAST := Toast("Microphone muted", "The AI assistant won't be able to hear you", false)
  const UNMUTED_TOAST := Toast("Microphone unmuted", "The AI assistant can now hear you", false)
  const MIC_DENIED_TOAST := Toast("Microphone access denied", "Please allow microphone access to use the voice chat", true)
  const MUTED_SPEAK_TOAST := Toast("Microphone is muted", "Please unmute your microphone to speak", true)

  datatype Page = Page(hook: VoiceChat.Hook, muted: bool)

  /** What the user can do on the page, plus the hook's timers and the passage of
      time. `ClickStartCall` carries the outcome of the microphone request. */
  datatype PageEvent =
    | ToggleMute
    | ClickStartCall(micGranted: bool)
    | ClickEndCall
    | ClickStartSpeaking
    | ClickStopSpeaking
    | TimerFires(draw: VoiceChat.Draw)
    | TimePasses(ms: nat)

  function Notify(p: Page, t: Toast): Page
  {
    p.(hook := p.hook.(toasts := p.hook.toasts + [t]))
  }

  /** `handleToggleMute`: flips the flag; the notice reports the NEW state, so it
      reads "Microphone muted" exactly when the page was not muted before. */
  function HandleToggleMute(p: Page): (r: Page)
    ensures r.muted == !p.muted
    ensures |r.hook.toasts| == |p.hook.toasts| + 1 && r.hook.toasts[..|p.hook.toasts|] == p.hook.toasts
    ensures r.hook.toasts[|p.hook.toasts|].title == "Microphone muted" <==> !p.muted
    ensures r.hook == p.hook.(toasts := r.hook.toasts)
  {
    Notify(p.(muted := !p.muted), if p.muted then UNMUTED_TOAST else MUTED_TOAST)
  }

  /** `handleStartCall`: the call starts only once the microphone request has
      succeeded; a refusal leaves the call untouched and raises a destructive notice. */
  function HandleStartCall(p: Page, micGranted: bool): (r: Page)
    ensures micGranted ==> r.hook.status == Connecting && r.hook.toasts == p.hook.toasts
    ensures !micGranted ==> r.hook == p.hook.(toasts := p.hook.toasts + [MIC_DENIED_TOAST])
    ensures !micGranted ==> r.hook.toasts[|r.hook.toasts| - 1].destructive
    ensures r.muted == p.muted
  {
    if micGranted then p.(hook := VoiceChat.StartCall(p.hook)) else Notify(p, MIC_DENIED_TOAST)
  }

  /** `handleStartSpeaking`: while muted, refuses with a destructive notice and
      leaves the hook alone; otherwise delegates to `startUserSpeaking` once. */
  function HandleStartSpeaking(p: Page): (r: Page)
    ensures p.muted ==> r.hook == p.hook.(toasts := p.hook.toasts + [MUTED_SPEAK_TOAST])
    ensures p.muted ==> r.hook.userSpeaking == p.hook.userSpeaking
    ensures !p.muted ==> r.hook.userSpeaking && !r.hook.agentSpeaking && r.hook.toasts == p.hook.toasts
    ensures r.muted == p.muted
  {
    if p.muted then Notify(p, MUTED_SPEAK_TOAST) else p.(hook := VoiceChat.StartUserSpeaking(p.hook))
  }

  /** The page's reaction to one input; the visualizer's buttons are bound to
      `handleStartCall`, `endCall`, `handleStartSpeaking` and `stopUserSpeaking`. */
  function PageStep(p: Page, e: PageEvent): Page
  {
    match e
    case ToggleMute => HandleToggleMute(p)
    case ClickStartCall(ok) => HandleStartCall(p, ok)
    case ClickEndCall => p.(hook := VoiceChat.EndCall(p.hook))
    case ClickStartSpeaking => HandleStartSpeaking(p)
    case ClickStopSpeaking => p.(hook := VoiceChat.StopUserSpeaking(p.hook))
    case TimerFires(d) => p.(hook := VoiceChat.Fire(p.hook, d))
    case TimePasses(ms) => p.(hook := VoiceChat.Wait(p.hook, ms))
  }

  function PageRun(p: Page, es: seq<PageEvent>): Page
    decreases |es|
  {
    if |es| == 0 then p else PageRun(PageStep(p, es[0]), es[1..])
  }

  /** One input other than the mute toggle leaves a muted, silent page muted and
      silent: the mute gate is the only path to `startUserSpeaking`, and no
      timer raises the user flag. */
  lemma MutedStepSilent(p: Page, e: PageEvent)
    requires p.muted && !p.hook.userSpeaking && e != ToggleMute
    ensures PageStep(p, e).muted && !PageStep(p, e).hook.userSpeaking
  {
    if e.TimerFires? && |p.hook.pending| > 0 {
      var h := p.hook;
      var i := VoiceChat.EarliestIndex(h.pending);
      var h1 := h.(now := VoiceChat.Max(h.now, h.pending[i].due), pending := h.pending[..i] + h.pending[i + 1..]);
      assert !VoiceChat.Apply(h1, h.pending[i].event, e.draw).userSpeaking;
    }
  }

  /** While the page stays muted, no input makes the user a speaker. */
  lemma {:induction false} MutedNeverListens(p: Page, es: seq<PageEvent>)
    requires p.muted && !p.hook.userSpeaking
    requires forall i :: 0 <= i < |es| ==> es[i] != ToggleMute
    ensures PageRun(p, es).muted && !PageRun(p, es).hook.userSpeaking
    decreases |es|
  {
    if |es| > 0 {
      MutedStepSilent(p, es[0]);
      MutedNeverListens(PageStep(p, es[0]), es[1..]);
    }
  }

  // ---------------------------------------------------------------------------
  // Derived display

  /** What the page hands to the visualizer and shows underneath it. */
  datatype View = View(
    status: CallStatus,
    agentSpeaking: bool,
    userSpeaking: bool,      // the flag the visualizer receives
    visualization: bool,     // the argument of the audio-visualization hook
    hint: string)

  /** The hint line under the visualizer. */
  function HintText(status: CallStatus, muted: bool, userSpeaking: bool): (t: string)
    ensures t == "Microphone is muted" <==> status == Active && muted
    ensures t == "Listening to you..." <==> status == Active && !muted && userSpeaking
    ensures t == "Press the microphone button to speak" <==> status == Active && !muted && !userSpeaking
    ensures t == "Press the phone button to connect" <==> status == Idle
    ensures t == "Establishing secure connection..." <==> status == Connecting
    ensures t == "Call ended" <==> status == Disconnected || status == Error
  {
    match status
    case Active =>
      if muted then "Microphone is muted"
      else if userSpeaking then "Listening to you..." else "Press the microphone button to speak"
    case Idle => "Press the phone button to connect"
    case Connecting => "Establishing secure connection..."
    case Disconnected | Error => "Call ended"
  }

  /** The muted page never shows the user as speaking; visualization runs exactly
      while the call is active. */
  function Render(p: Page): (v: View)
    ensures v.userSpeaking <==> p.hook.userSpeaking && !p.muted
    ensures v.visualization <==> p.hook.status == Active
    ensures v.status == p.hook.status && v.agentSpeaking == p.hook.agentSpeaking
  {
    View(p.hook.status, p.hook.agentSpeaking, p.hook.userSpeaking && !p.muted,
         p.hook.status == Active, HintText(p.hook.status, p.muted, p.hook.userSpeaking))
  }

  /** The hint line and the visualizer's status text agree on "listening" only
      while the agent is silent: with both flags up, the hint says the user is
      heard while the visualizer says the agent speaks. */
  lemma HintAndStatusAgree(p: Page)
    ensures var v := Render(p);
      var s := VoiceVisualizer.StatusText(v.status, v.agentSpeaking, v.userSpeaking);
      !p.hook.agentSpeaking ==> (v.hint == "Listening to you..." <==> s == "Listening...")
    ensures var v := Render(p);
      var s := VoiceVisualizer.StatusText(v.status, v.agentSpeaking, v.userSpeaking);
      p.hook.status == Active && !p.muted && p.hook.userSpeaking && p.hook.agentSpeaking ==>
        v.hint == "Listening to you..." && s == "Agent Speaking"
  {
  }

  // ---------------------------------------------------------------------------
  // Audio effects

  /** The four calls the page makes on the audio-visualisation hook. */
  datatype AudioCommand = StartAgentAudio | StopAgentAudio | StartUserAudio | StopUserAudio

  /** For each channel, whether the last command the page sent it was a start.
      This is the page's side of the contract only: what the audio hook does with
      a command (it ignores a user start while the microphone is already open,
      and the agent's stop cancels the one animation frame both channels share)
      is not part of this model. */
  datatype Audio = Audio(agentStarted: bool, userStarted: bool)

  /** The command a channel receives when its flag becomes `on`. */
  function AgentCommand(on: bool): AudioCommand
  {
    if on then StartAgentAudio else StopAgentAudio
  }

  function UserCommand(on: bool): AudioCommand
  {
    if on then StartUserAudio else StopUserAudio
  }

  /** The two effects, in declaration order, each run when its flag changed
      between two committed renders. */
  function Effects(before: VoiceChat.Hook, after: VoiceChat.Hook): (cs: seq<AudioCommand>)
    ensures |cs| == (if before.agentSpeaking != after.agentSpeaking then 1 else 0)
                    + (if before.userSpeaking != after.userSpeaking then 1 else 0)
    ensures before.agentSpeaking != after.agentSpeaking ==> cs[0] == AgentCommand(after.agentSpeaking)
    ensures before.userSpeaking != after.userSpeaking ==> cs[|cs| - 1] == UserCommand(after.userSpeaking)
  {
    (if before.agentSpeaking == after.agentSpeaking then []
     else if after.agentSpeaking then [StartAgentAudio] else [StopAgentAudio])
    + (if before.userSpeaking == after.userSpeaking then []
       else if after.userSpeaking then [StartUserAudio] else [StopUserAudio])
  }

  /** On the first commit both effects run, whatever the flags are. */
  function FirstCommitEffects(h: VoiceChat.Hook): (cs: seq<AudioCommand>)
    ensures cs == [AgentCommand(h.agentSpeaking), UserCommand(h.userSpeaking)]
  {
    [if h.agentSpeaking then StartAgentAudio else StopAgentAudio,
     if h.userSpeaking then StartUserAudio else StopUserAudio]
  }

  /** Sending one command: only its own channel's record changes. */
  function Exec(a: Audio, c: AudioCommand): Audio
  {
    match c
    case StartAgentAudio => a.(agentStarted := true)
    case StopAgentAudio => a.(agentStarted := false)
    case StartUserAudio => a.(userStarted := true)
    case StopUserAudio => a.(userStarted := false)
  }

  function Perform(a: Audio, cs: seq<AudioCommand>): Audio
    decreases |cs|
  {
    if |cs| == 0 then a else Perform(Exec(a, cs[0]), cs[1..])
  }

  lemma PerformTwo(a: Audio, cs: seq<AudioCommand>)
    requires |cs| == 2
    ensures Perform(a, cs) == Exec(Exec(a, cs[0]), cs[1])
  {
    assert cs[1..][1..] == [];
    assert Perform(a, cs) == Perform(Exec(a, cs[0]), cs[1..]);
    assert Perform(Exec(a, cs[0]), cs[1..]) == Perform(Exec(Exec(a, cs[0]), cs[1]), cs[1..][1..]);
  }

  lemma PerformOne(a: Audio, cs: seq<AudioCommand>)
    requires |cs| == 1
    ensures Perform(a, cs) == Exec(a, cs[0])
  {
    assert cs[1..] == [];
  }

  /** The last command each channel received agrees with its speaking flag. */
  predicate Mirrors(a: Audio, h: VoiceChat.Hook)
  {
    a.agentStarted == h.agentSpeaking && a.userStarted == h.userSpeaking
  }

  /** After the first commit, the last command each channel received agrees with
      its flag. */
  lemma FirstCommitSyncs(a: Audio, h: VoiceChat.Hook)
    ensures Mirrors(Perform(a, FirstCommitEffects(h)), h)
  {
    PerformTwo(a, FirstCommitEffects(h));
  }

  /** The effects of any later commit keep the last command of each channel in
      agreement with its speaking flag. */
  lemma EffectsResync(a: Audio, before: VoiceChat.Hook, after: VoiceChat.Hook)
    requires Mirrors(a, before)
    ensures Mirrors(Perform(a, Effects(before, after)), after)
  {
    var cs := Effects(before, after);
    if |cs| == 2 {
      PerformTwo(a, cs);
    } else if |cs| == 1 {
      PerformOne(a, cs);
    }
  }
}
