/**
 * The studio session (`AudioSessionService`): a three-state transport
 * (stopped, playing, recording) with its derived flags, the master volume,
 * and the list of microphone channels with per-channel level, mute, pan and
 * record-arm controls.
 */
module AudioSession {

  datatype PlaybackState = Stopped | Playing | Recording

  function IsPlaying(s: PlaybackState): bool { s == Playing }
  function IsRecording(s: PlaybackState): bool { s == Recording }
  function IsStopped(s: PlaybackState): bool { s == Stopped }

  /** Exactly one of the three derived flags holds in every state. */
  lemma ExactlyOneFlag(s: PlaybackState)
    ensures (if IsPlaying(s) then 1 else 0) + (if IsRecording(s) then 1 else 0) + (if IsStopped(s) then 1 else 0) == 1
  {
  }

  /** `togglePlay`: playing stops, anything else plays. */
  function TogglePlay(s: PlaybackState): (r: PlaybackState)
    ensures r == Stopped <==> s == Playing
    ensures r != Recording
  {
    if s == Playing then Stopped else Playing
  }

  /** `toggleRecord`: recording stops, anything else records. */
  function ToggleRecord(s: PlaybackState): (r: PlaybackState)
    ensures r == Stopped <==> s == Recording
    ensures r != Playing
  {
    if s == Recording then Stopped else Recording
  }

  /** Pressing play twice from the stopped state comes back to it, and so
    * does pressing record twice. */
  lemma TogglesReturnToStopped()
    ensures TogglePlay(TogglePlay(Stopped)) == Stopped
    ensures ToggleRecord(ToggleRecord(Stopped)) == Stopped
  {
  }

  datatype MicChannel = MicChannel(id: string, labelText: string, level: real, muted: bool, pan: real, armed: bool)

  const INITIAL_CHANNELS: seq<MicChannel> := [
    MicChannel("mic-1", "Vocal Mic", 70.0, false, 0.0, true),
    MicChannel("guitar-1", "Guitar Amp", 60.0, false, 20.0, false),
    MicChannel("drums-1", "Overheads", 50.0, false, -10.0, false)
  ]

  const INITIAL_MASTER_VOLUME: real := 80.0

  /** The channel edits, each of one field. */
  datatype ChannelEdit = SetLevel(level: real) | ToggleMute | SetPan(pan: real) | ToggleArm

  function EditChannel(ch: MicChannel, e: ChannelEdit): MicChannel {
    match e
    case SetLevel(level) => ch.(level := level)
    case ToggleMute => ch.(muted := !ch.muted)
    case SetPan(pan) => ch.(pan := pan)
    case ToggleArm => ch.(armed := !ch.armed)
  }

  /** `channels.map(ch => ch.id === id ? edited : ch)`: every channel with
    * that id gets the one field changed; the list keeps its length and order. */
  function EditChannels(chs: seq<MicChannel>, id: string, e: ChannelEdit): (r: seq<MicChannel>)
    ensures |r| == |chs|
    ensures forall i :: 0 <= i < |chs| ==> r[i].id == chs[i].id && r[i].labelText == chs[i].labelText
    ensures forall i :: 0 <= i < |chs| && chs[i].id != id ==> r[i] == chs[i]
    ensures forall i :: 0 <= i < |chs| && chs[i].id == id ==>
              match e
              case SetLevel(level) => r[i] == chs[i].(level := level)
              case ToggleMute => r[i].muted != chs[i].muted && r[i].(muted := chs[i].muted) == chs[i]
              case SetPan(pan) => r[i] == chs[i].(pan := pan)
              case ToggleArm => r[i].armed != chs[i].armed && r[i].(armed := chs[i].armed) == chs[i]
  {
    seq(|chs|, i requires 0 <= i < |chs| => if chs[i].id == id then EditChannel(chs[i], e) else chs[i])
  }

  /** Toggling mute, or arm, on the same channel twice restores the list. */
  lemma {:induction false} ToggleTwiceRestores(chs: seq<MicChannel>, id: string, e: ChannelEdit)
    requires e == ToggleMute || e == ToggleArm
    ensures EditChannels(EditChannels(chs, id, e), id, e) == chs
  {
    var once := EditChannels(chs, id, e);
    var twice := EditChannels(once, id, e);
    forall i | 0 <= i < |chs| ensures twice[i] == chs[i] {
      if chs[i].id == id {
        assert once[i].id == id;
      }
    }
  }

  /** Levels and pans are stored exactly as given, even outside the ranges the
    * interface suggests. */
  lemma LevelsNotClamped(chs: seq<MicChannel>, id: string, level: real, pan: real)
    ensures forall i :: 0 <= i < |chs| && chs[i].id == id ==>
              EditChannels(chs, id, SetLevel(level))[i].level == level &&
              EditChannels(chs, id, SetPan(pan))[i].pan == pan
  {
  }

  class AudioSessionService {
    var playbackState: PlaybackState
    var masterVolume: real
    var micChannels: seq<MicChannel>

    constructor()
      ensures playbackState == Stopped && masterVolume == INITIAL_MASTER_VOLUME
      ensures micChannels == INITIAL_CHANNELS
    {
      playbackState := Stopped;
      masterVolume := INITIAL_MASTER_VOLUME;
      micChannels := INITIAL_CHANNELS;
    }

    method TogglePlayback()
      modifies this
      ensures playbackState == TogglePlay(old(playbackState))
      ensures masterVolume == old(masterVolume) && micChannels == old(micChannels)
    {
      playbackState := TogglePlay(playbackState);
    }

    method ToggleRecording()
      modifies this
      ensures playbackState == ToggleRecord(old(playbackState))
      ensures masterVolume == old(masterVolume) && micChannels == old(micChannels)
    {
      playbackState := ToggleRecord(playbackState);
    }

    /** `stop`: always ends stopped, so doing it twice is doing it once. */
    method Stop()
      modifies this
      ensures playbackState == Stopped
      ensures masterVolume == old(masterVolume) && micChannels == old(micChannels)
    {
      playbackState := Stopped;
    }

    method UpdateMasterVolume(volume: real)
      modifies this
      ensures masterVolume == volume
      ensures playbackState == old(playbackState) && micChannels == old(micChannels)
    {
      masterVolume := volume;
    }

    /** `updateChannelLevel`, `toggleChannelMute`, `updateChannelPan` and
      * `toggleChannelArm`. */
    method Edit(id: string, e: ChannelEdit)
      modifies this
      ensures micChannels == EditChannels(old(micChannels), id, e)
      ensures playbackState == old(playbackState) && masterVolume == old(masterVolume)
    {
      micChannels := EditChannels(micChannels, id, e);
    }
  }
}
