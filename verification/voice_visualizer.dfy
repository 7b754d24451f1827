/**
 * The visualizer: a ring whose colour and caption follow the call status and
 * speaking flags, ten bars that sample the frequency data while someone speaks,
 * and the call and microphone buttons.
 */
module VoiceVisualizer {
  import opened ChatTypes
  import opened Optional
  import opened Bytes

  const NUMBER_OF_LINES: nat := 10

  /** The caption inside the ring. */
  function StatusText(status: CallStatus, agentSpeaking: bool, userSpeaking: bool): (t: string)
    ensures t != ""
    ensures t == "Ready to Connect" <==> status == Idle
    ensures t == "Connecting..." <==> status == Connecting
    ensures t == "Agent Speaking" <==> status == Active && agentSpeaking
    ensures t == "Listening..." <==> status == Active && !agentSpeaking && userSpeaking
    ensures t == "Connected" <==> status == Active && !agentSpeaking && !userSpeaking
    ensures t == "Call Ended" <==> status == Disconnected
    ensures t == "Connection Error" <==> status == Error
  {
    match status
    case Idle => "Ready to Connect"
    case Connecting => "Connecting..."
    case Active =>
      if agentSpeaking then "Agent Speaking"
      else if userSpeaking then "Listening..."
      else "Connected"
    case Disconnected => "Call Ended"
    case Error => "Connection Error"
  }

  /** The ring's colour scheme. */
  datatype Ring = PrimaryRing | SecondaryRing | AmberRing | RedRing

  function RingClass(r: Ring): string
  {
    match r
    case PrimaryRing => "bg-primary/10 border-primary"
    case SecondaryRing => "bg-secondary border-secondary/80"
    case AmberRing => "bg-amber-100 border-amber-300 dark:bg-amber-900/20 dark:border-amber-700"
    case RedRing => "bg-red-100 border-red-300 dark:bg-red-900/20 dark:border-red-700"
  }

  function StateColor(status: CallStatus, agentSpeaking: bool, userSpeaking: bool): (c: Ring)
    ensures c == RedRing <==> status == Disconnected || status == Error
    ensures c == AmberRing <==> status == Connecting
    ensures c == PrimaryRing <==> status == Active && (agentSpeaking || userSpeaking)
    ensures c == SecondaryRing <==> status == Idle || (status == Active && !agentSpeaking && !userSpeaking)
  {
    match status
    case Active => if agentSpeaking || userSpeaking then PrimaryRing else SecondaryRing
    case Connecting => AmberRing
    case Disconnected | Error => RedRing
    case Idle => SecondaryRing
  }

  /** The ripple border drawn while someone speaks; the agent's is stronger. */
  function Ripple(agentSpeaking: bool, userSpeaking: bool): (r: Option<string>)
    ensures r.Some? <==> agentSpeaking || userSpeaking
    ensures r == Some("border-primary/50") <==> agentSpeaking
  {
    if agentSpeaking || userSpeaking then
      Some(if agentSpeaking then "border-primary/50" else "border-primary/40")
    else None
  }

  /** The call button: "Start Call" is bound to `onStartCall`, "End Call" to `onEndCall`. */
  datatype CallButton = StartCallButton(disabled: bool) | EndCallButton

  /** Exactly one call button: end while active, otherwise start, greyed out while
      connecting or just disconnected. */
  function CallButtonFor(status: CallStatus): (b: CallButton)
    ensures b.EndCallButton? <==> status == Active
    ensures b.StartCallButton? ==> (b.disabled <==> status == Connecting || status == Disconnected)
  {
    if status != Active then StartCallButton(status == Connecting || status == Disconnected)
    else EndCallButton
  }

  /** The microphone button: "Stop Speaking" is bound to `onStopSpeaking`, "Start
      Speaking" to `onStartSpeaking`. */
  datatype MicButton = StartSpeakingButton | StopSpeakingButton

  /** The microphone button exists only while active; it offers to stop exactly
      when the user is (shown as) speaking. */
  function MicButtonFor(status: CallStatus, userSpeaking: bool): (m: Option<MicButton>)
    ensures m.Some? <==> status == Active
    ensures m == Some(StopSpeakingButton) <==> status == Active && userSpeaking
  {
    if status == Active then Some(if userSpeaking then StopSpeakingButton else StartSpeakingButton)
    else None
  }

  /** A bar is either static (paused, fixed height) or driven by one frequency
      sample; reading past the end of an empty array yields no sample. */
  datatype Bar = StaticBar | DrivenBar(sample: Option<Byte>)

  /** `Math.floor(i * (length / numberOfLines))`, in exact arithmetic. */
  function SampleIndex(i: nat, len: nat): (k: nat)
    requires i < NUMBER_OF_LINES
    ensures len > 0 ==> k < len
    ensures len == 0 ==> k == 0
  {
    i * len / NUMBER_OF_LINES
  }

  /** Bars further right never sample a lower frequency bin. */
  lemma SampleIndexMonotone(i: nat, j: nat, len: nat)
    requires i <= j < NUMBER_OF_LINES
    ensures SampleIndex(i, len) <= SampleIndex(j, len)
  {
    assert i * len <= j * len by {
      assert (j - i) * len >= 0;
    }
  }

  function Sample(data: seq<Byte>, k: nat): Option<Byte>
  {
    if k < |data| then Some(data[k]) else None
  }

  /** The bars are data-driven exactly when frequency data is present and someone
      speaks; then bar i shows the sample at `SampleIndex(i, |data|)`. */
  ghost predicate BarsFit(frequencyData: Option<seq<Byte>>, agentSpeaking: bool, userSpeaking: bool, lines: seq<Bar>)
  {
    && |lines| == NUMBER_OF_LINES
    && (frequencyData.Some? && (agentSpeaking || userSpeaking) ==>
         forall i :: 0 <= i < |lines| ==>
           lines[i] == DrivenBar(Sample(frequencyData.value, SampleIndex(i, |frequencyData.value|))))
    && (!(frequencyData.Some? && (agentSpeaking || userSpeaking)) ==>
         forall i :: 0 <= i < |lines| ==> lines[i] == StaticBar)
  }

  /** The `audioLines` computation: two loops pushing ten bars each. */
  method AudioLines(frequencyData: Option<seq<Byte>>, agentSpeaking: bool, userSpeaking: bool)
    returns (lines: seq<Bar>)
    ensures BarsFit(frequencyData, agentSpeaking, userSpeaking, lines)
    ensures frequencyData.Some? && |frequencyData.value| > 0 && (agentSpeaking || userSpeaking) ==>
      forall i :: 0 <= i < |lines| ==> lines[i].DrivenBar? && lines[i].sample.Some?
  {
    lines := [];
    if frequencyData.Some? && (agentSpeaking || userSpeaking) {
      var data := frequencyData.value;
      var i := 0;
      while i < NUMBER_OF_LINES
        invariant 0 <= i <= NUMBER_OF_LINES
        invariant |lines| == i
        invariant forall j :: 0 <= j < i ==> lines[j] == DrivenBar(Sample(data, SampleIndex(j, |data|)))
      {
        lines := lines + [DrivenBar(Sample(data, SampleIndex(i, |data|)))];
        i := i + 1;
      }
    } else {
      var i := 0;
      while i < NUMBER_OF_LINES
        invariant 0 <= i <= NUMBER_OF_LINES
        invariant |lines| == i
        invariant forall j :: 0 <= j < i ==> lines[j] == StaticBar
      {
        lines := lines + [StaticBar];
        i := i + 1;
      }
    }
  }
}
