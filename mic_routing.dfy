/**
 * Microphone routing (`MicrophoneRoutingService`): the list of input
 * channels, edited by add, remove, partial update and ensure, and the
 * recording quality profile, edited by partial update.
 */
module MicRouting {
  import opened Wrappers
  import opened Lists
  import opened Text

  datatype ConnectionType = Usb | Xlr | Line | Bluetooth | Wifi | Midi
  datatype ChannelCategory = Mic | Instrument | Aux | Master | Vocal | Room | Custom

  datatype Channel = Channel(
    id: string, labelText: string, category: ChannelCategory, connectionType: ConnectionType,
    level: real, pan: real, muted: bool, armed: bool, phantomPower: bool,
    noiseGate: real, distortionGuard: real, latencyMs: real)

  /** A `Partial<Channel>`: the fields present in an update. */
  datatype ChannelPatch = ChannelPatch(
    id: Option<string>, labelText: Option<string>, category: Option<ChannelCategory>,
    connectionType: Option<ConnectionType>, level: Option<real>, pan: Option<real>,
    muted: Option<bool>, armed: Option<bool>, phantomPower: Option<bool>,
    noiseGate: Option<real>, distortionGuard: Option<real>, latencyMs: Option<real>)

  const EMPTY_PATCH: ChannelPatch :=
    ChannelPatch(None, None, None, None, None, None, None, None, None, None, None, None)

  /** `{ ...c, ...updates }`: each field present in the update wins. */
  function Merge(c: Channel, p: ChannelPatch): (r: Channel)
    ensures r.id == p.id.GetOr(c.id) && r.labelText == p.labelText.GetOr(c.labelText)
    ensures r.category == p.category.GetOr(c.category)
    ensures r.connectionType == p.connectionType.GetOr(c.connectionType)
    ensures r.level == p.level.GetOr(c.level) && r.pan == p.pan.GetOr(c.pan)
    ensures r.muted == p.muted.GetOr(c.muted) && r.armed == p.armed.GetOr(c.armed)
    ensures r.phantomPower == p.phantomPower.GetOr(c.phantomPower)
    ensures r.noiseGate == p.noiseGate.GetOr(c.noiseGate)
    ensures r.distortionGuard == p.distortionGuard.GetOr(c.distortionGuard)
    ensures r.latencyMs == p.latencyMs.GetOr(c.latencyMs)
  {
    Channel(
      p.id.GetOr(c.id), p.labelText.GetOr(c.labelText), p.category.GetOr(c.category),
      p.connectionType.GetOr(c.connectionType), p.level.GetOr(c.level), p.pan.GetOr(c.pan),
      p.muted.GetOr(c.muted), p.armed.GetOr(c.armed), p.phantomPower.GetOr(c.phantomPower),
      p.noiseGate.GetOr(c.noiseGate), p.distortionGuard.GetOr(c.distortionGuard),
      p.latencyMs.GetOr(c.latencyMs))
  }

  lemma MergeEmpty(c: Channel)
    ensures Merge(c, EMPTY_PATCH) == c
  {
  }

  /** `addChannel`: the new channel, with id `ch<now>`, at the end. */
  function AddChannel(chs: seq<Channel>, c: Channel, now: int): (r: seq<Channel>)
    ensures |r| == |chs| + 1 && r[..|chs|] == chs
    ensures r[|chs|] == c.(id := "ch" + IntToString(now))
  {
    chs + [c.(id := "ch" + IntToString(now))]
  }

  /** `removeChannel`: `channels.filter(c => c.id !== id)`. */
  function RemoveChannel(chs: seq<Channel>, id: string): (r: seq<Channel>)
    ensures forall c :: c in r <==> c in chs && c.id != id
    ensures |r| <= |chs|
  {
    if |chs| == 0 then []
    else if chs[0].id == id then RemoveChannel(chs[1..], id)
    else [chs[0]] + RemoveChannel(chs[1..], id)
  }

  /** The kept channels stay in their original order. */
  lemma {:induction false} RemoveChannelKeepsOrder(chs: seq<Channel>, id: string)
    ensures IsSubsequence(RemoveChannel(chs, id), chs)
  {
    if |chs| > 0 {
      RemoveChannelKeepsOrder(chs[1..], id);
      var rest := RemoveChannel(chs[1..], id);
      if chs[0].id != id {
        assert ([chs[0]] + rest)[1..] == rest;
      }
    }
  }

  /** `updateChannel`: channels with that id get the patch; the rest, and
    * the length and order of the list, stay. */
  function UpdateChannel(chs: seq<Channel>, id: string, p: ChannelPatch): (r: seq<Channel>)
    ensures |r| == |chs|
    ensures forall i :: 0 <= i < |chs| ==> r[i] == if chs[i].id == id then Merge(chs[i], p) else chs[i]
  {
    seq(|chs|, i requires 0 <= i < |chs| => if chs[i].id == id then Merge(chs[i], p) else chs[i])
  }

  /** An update with nothing in it leaves the list as it was. */
  lemma UpdateWithEmptyPatch(chs: seq<Channel>, id: string)
    ensures UpdateChannel(chs, id, EMPTY_PATCH) == chs
  {
    forall i | 0 <= i < |chs| ensures UpdateChannel(chs, id, EMPTY_PATCH)[i] == chs[i] {
      MergeEmpty(chs[i]);
    }
  }

  /** The one-field setters (`setChannelLevel` … `setMuted`). */
  datatype ChannelField =
    | Level(level: real) | Pan(pan: real) | Connection(connectionType: ConnectionType)
    | Phantom(phantomPower: bool) | Latency(latencyMs: real) | NoiseGate(noiseGate: real)
    | DistortionGuard(distortionGuard: real) | Muted(muted: bool)

  function PatchOf(f: ChannelField): (p: ChannelPatch)
    ensures p.id.None? && p.labelText.None? && p.category.None? && p.armed.None?
  {
    match f
    case Level(v) => EMPTY_PATCH.(level := Some(v))
    case Pan(v) => EMPTY_PATCH.(pan := Some(v))
    case Connection(v) => EMPTY_PATCH.(connectionType := Some(v))
    case Phantom(v) => EMPTY_PATCH.(phantomPower := Some(v))
    case Latency(v) => EMPTY_PATCH.(latencyMs := Some(v))
    case NoiseGate(v) => EMPTY_PATCH.(noiseGate := Some(v))
    case DistortionGuard(v) => EMPTY_PATCH.(distortionGuard := Some(v))
    case Muted(v) => EMPTY_PATCH.(muted := Some(v))
  }

  /** What a one-field setter does to one channel. */
  function SetField(c: Channel, f: ChannelField): Channel {
    match f
    case Level(v) => c.(level := v)
    case Pan(v) => c.(pan := v)
    case Connection(v) => c.(connectionType := v)
    case Phantom(v) => c.(phantomPower := v)
    case Latency(v) => c.(latencyMs := v)
    case NoiseGate(v) => c.(noiseGate := v)
    case DistortionGuard(v) => c.(distortionGuard := v)
    case Muted(v) => c.(muted := v)
  }

  /** Each setter changes exactly its own field of the addressed channels, and
    * stores the value as given (levels and pans are not clamped). */
  lemma SetterChangesOneField(chs: seq<Channel>, id: string, f: ChannelField)
    ensures UpdateChannel(chs, id, PatchOf(f)) ==
              seq(|chs|, i requires 0 <= i < |chs| => if chs[i].id == id then SetField(chs[i], f) else chs[i])
  {
    var r := UpdateChannel(chs, id, PatchOf(f));
    forall i | 0 <= i < |chs| && chs[i].id == id ensures r[i] == SetField(chs[i], f) {
      var c := chs[i];
      match f
      case Level(v) => assert Merge(c, PatchOf(f)) == c.(level := v);
      case Pan(v) => assert Merge(c, PatchOf(f)) == c.(pan := v);
      case Connection(v) => assert Merge(c, PatchOf(f)) == c.(connectionType := v);
      case Phantom(v) => assert Merge(c, PatchOf(f)) == c.(phantomPower := v);
      case Latency(v) => assert Merge(c, PatchOf(f)) == c.(latencyMs := v);
      case NoiseGate(v) => assert Merge(c, PatchOf(f)) == c.(noiseGate := v);
      case DistortionGuard(v) => assert Merge(c, PatchOf(f)) == c.(distortionGuard := v);
      case Muted(v) => assert Merge(c, PatchOf(f)) == c.(muted := v);
    }
  }

  predicate HasChannel(chs: seq<Channel>, id: string) {
    exists i :: 0 <= i < |chs| && chs[i].id == id
  }

  /** `ensureChannel`: appends the channel only when its id is new. */
  function EnsureChannel(chs: seq<Channel>, c: Channel): (r: seq<Channel>)
    ensures HasChannel(chs, c.id) ==> r == chs
    ensures !HasChannel(chs, c.id) ==> r == chs + [c]
    ensures HasChannel(r, c.id)
  {
    if HasChannel(chs, c.id) then chs
    else
      assert (chs + [c])[|chs|] == c;
      chs + [c]
  }

  /** Ensuring a channel twice is ensuring it once. */
  lemma EnsureChannelIdempotent(chs: seq<Channel>, c: Channel)
    ensures EnsureChannel(EnsureChannel(chs, c), c) == EnsureChannel(chs, c)
  {
  }

  /** `getArmedChannels`: `channels.filter(c => c.armed)`. */
  function ArmedChannels(chs: seq<Channel>): (r: seq<Channel>)
    ensures forall c :: c in r <==> c in chs && c.armed
    ensures |r| <= |chs|
  {
    if |chs| == 0 then []
    else if chs[0].armed then [chs[0]] + ArmedChannels(chs[1..])
    else ArmedChannels(chs[1..])
  }

  lemma {:induction false} ArmedChannelsKeepOrder(chs: seq<Channel>)
    ensures IsSubsequence(ArmedChannels(chs), chs)
  {
    if |chs| > 0 {
      ArmedChannelsKeepOrder(chs[1..]);
      var rest := ArmedChannels(chs[1..]);
      if chs[0].armed {
        assert ([chs[0]] + rest)[1..] == rest;
      }
    }
  }

  datatype QualityProfile = QualityProfile(
    sampleRate: nat, bitDepth: nat, phantomPowerBus: bool, autoGain: bool,
    noiseSuppression: bool, echoCancellation: bool)

  /** A `Partial<QualityProfile>`. */
  datatype QualityPatch = QualityPatch(
    sampleRate: Option<nat>, bitDepth: Option<nat>, phantomPowerBus: Option<bool>,
    autoGain: Option<bool>, noiseSuppression: Option<bool>, echoCancellation: Option<bool>)

  function MergeQuality(q: QualityProfile, p: QualityPatch): (r: QualityProfile)
    ensures r.sampleRate == p.sampleRate.GetOr(q.sampleRate) && r.bitDepth == p.bitDepth.GetOr(q.bitDepth)
    ensures r.phantomPowerBus == p.phantomPowerBus.GetOr(q.phantomPowerBus)
    ensures r.autoGain == p.autoGain.GetOr(q.autoGain)
    ensures r.noiseSuppression == p.noiseSuppression.GetOr(q.noiseSuppression)
    ensures r.echoCancellation == p.echoCancellation.GetOr(q.echoCancellation)
  {
    QualityProfile(
      p.sampleRate.GetOr(q.sampleRate), p.bitDepth.GetOr(q.bitDepth),
      p.phantomPowerBus.GetOr(q.phantomPowerBus), p.autoGain.GetOr(q.autoGain),
      p.noiseSuppression.GetOr(q.noiseSuppression), p.echoCancellation.GetOr(q.echoCancellation))
  }

  const MOCK_CHANNELS: seq<Channel> := [
    Channel("ch1", "Lead Vocals", Vocal, Xlr, 75.0, 0.0, false, true, true, 20.0, 80.0, 5.0),
    Channel("ch2", "Rhythm Guitar", Instrument, Line, 60.0, -25.0, false, true, false, 10.0, 90.0, 12.0),
    Channel("ch3", "Synth Bass", Instrument, Usb, 85.0, 0.0, false, false, false, 5.0, 95.0, 8.0),
    Channel("ch4", "Guest Mic", Room, Wifi, 65.0, 25.0, true, false, false, 25.0, 75.0, 18.0)
  ]

  const MOCK_QUALITY: QualityProfile := QualityProfile(48000, 24, false, true, true, false)

  /** The mock set-up arms the two first channels. */
  lemma MockArmed()
    ensures ArmedChannels(MOCK_CHANNELS) == MOCK_CHANNELS[..2]
  {
  }

  class MicrophoneRoutingService {
    var micChannels: seq<Channel>
    var qualityProfile: QualityProfile

    constructor()
      ensures micChannels == MOCK_CHANNELS && qualityProfile == MOCK_QUALITY
    {
      micChannels := MOCK_CHANNELS;
      qualityProfile := MOCK_QUALITY;
    }

    /** `addChannel`; `now` is `Date.now()`. */
    method Add(c: Channel, now: int)
      modifies this
      ensures micChannels == AddChannel(old(micChannels), c, now) && qualityProfile == old(qualityProfile)
    {
      micChannels := AddChannel(micChannels, c, now);
    }

    /** `removeChannel`, and `disposeChannel`, which calls it. */
    method Remove(id: string)
      modifies this
      ensures micChannels == RemoveChannel(old(micChannels), id) && qualityProfile == old(qualityProfile)
    {
      micChannels := RemoveChannel(micChannels, id);
    }

    method Update(id: string, p: ChannelPatch)
      modifies this
      ensures micChannels == UpdateChannel(old(micChannels), id, p) && qualityProfile == old(qualityProfile)
    {
      micChannels := UpdateChannel(micChannels, id, p);
    }

    /** The one-field setters, each through `updateChannel`. */
    method Set(id: string, f: ChannelField)
      modifies this
      ensures micChannels == UpdateChannel(old(micChannels), id, PatchOf(f)) && qualityProfile == old(qualityProfile)
    {
      Update(id, PatchOf(f));
    }

    method Ensure(c: Channel)
      modifies this
      ensures micChannels == EnsureChannel(old(micChannels), c) && qualityProfile == old(qualityProfile)
    {
      if !HasChannel(micChannels, c.id) {
        micChannels := micChannels + [c];
      }
    }

    method UpdateQualityProfile(p: QualityPatch)
      modifies this
      ensures qualityProfile == MergeQuality(old(qualityProfile), p) && micChannels == old(micChannels)
    {
      qualityProfile := MergeQuality(qualityProfile, p);
    }

    method SetPhantomPowerBus(value: bool)
      modifies this
      ensures qualityProfile == old(qualityProfile).(phantomPowerBus := value) && micChannels == old(micChannels)
    {
      qualityProfile := qualityProfile.(phantomPowerBus := value);
    }

    method SetNoiseSuppression(value: bool)
      modifies this
      ensures qualityProfile == old(qualityProfile).(noiseSuppression := value) && micChannels == old(micChannels)
    {
      qualityProfile := qualityProfile.(noiseSuppression := value);
    }
  }
}
