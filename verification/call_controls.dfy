/**
 * The standalone call-control bar: four independently guarded blocks of buttons,
 * one per call status it knows about.
 */
module CallControls {
  import opened ChatTypes
  import opened Optional

  /** The callback a button is bound to. */
  datatype Action = StartCallAction | EndCallAction | ToggleMuteAction

  /** A rendered button: its caption, its click callback (none when it has none) and
      whether it is disabled. */
  datatype Control = Control(caption: string, onClick: Option<Action>, disabled: bool)

  function IdleBlock(status: CallStatus): seq<Control>
  {
    if status == Idle then [Control("Start Call", Some(StartCallAction), false)] else []
  }

  function ActiveBlock(status: CallStatus, isMuted: bool): seq<Control>
  {
    if status == Active then
      [Control(if isMuted then "Unmute" else "Mute", Some(ToggleMuteAction), false),
       Control("End Call", Some(EndCallAction), false)]
    else []
  }

  function ConnectingBlock(status: CallStatus): seq<Control>
  {
    if status == Connecting then [Control("Connecting...", None, true)] else []
  }

  function DisconnectedBlock(status: CallStatus): seq<Control>
  {
    if status == Disconnected then [Control("Reconnect", Some(StartCallAction), false)] else []
  }

  /** The buttons rendered for a status. `isUserSpeaking` is accepted and unused. */
  function Controls(status: CallStatus, isUserSpeaking: bool, isMuted: bool): (cs: seq<Control>)
    ensures |cs| == 0 <==> status == Error
    ensures |cs| == 2 <==> status == Active
    ensures forall i :: 0 <= i < |cs| ==> (cs[i].disabled <==> status == Connecting)
    ensures forall i :: 0 <= i < |cs| ==> (cs[i].onClick.None? <==> status == Connecting)
    ensures (exists i :: 0 <= i < |cs| && cs[i].onClick == Some(EndCallAction)) <==> status == Active
    ensures (exists i :: 0 <= i < |cs| && cs[i].onClick == Some(StartCallAction)) <==> status == Idle || status == Disconnected
    ensures (exists i :: 0 <= i < |cs| && cs[i].caption == "Unmute") <==> status == Active && isMuted
  {
    var cs := IdleBlock(status) + ActiveBlock(status, isMuted) + ConnectingBlock(status) + DisconnectedBlock(status);
    if status == Active then
      assert cs[1].onClick == Some(EndCallAction);
      assert isMuted ==> cs[0].caption == "Unmute";
      cs
    else if status == Idle || status == Disconnected then
      assert cs[0].onClick == Some(StartCallAction);
      cs
    else
      cs
  }

  /** The four guards are pairwise disjoint: at most one block renders anything,
      and none does for `error`. */
  lemma AtMostOneBlock(status: CallStatus, isMuted: bool)
    ensures var blocks := [IdleBlock(status), ActiveBlock(status, isMuted), ConnectingBlock(status), DisconnectedBlock(status)];
      forall i, j :: 0 <= i < j < 4 ==> |blocks[i]| == 0 || |blocks[j]| == 0
    ensures status == Error ==> Controls(status, false, isMuted) == []
  {
  }

  /** The `isUserSpeaking` prop never changes what is rendered. */
  lemma SpeakingIrrelevant(status: CallStatus, isMuted: bool)
    ensures Controls(status, true, isMuted) == Controls(status, false, isMuted)
  {
  }
}
