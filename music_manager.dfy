/**
 * The step sequencer's note model (`MusicManagerService`): a list of tracks,
 * each with its own list of notes, updated by whole-list transforms, and the
 * step callback that turns the notes at a step into `playSynth` calls.
 */
module MusicManager {
  import opened Wrappers
  import opened Lists
  import opened Engine
  import opened Instruments

  datatype TrackNote = TrackNote(midi: int, step: int, length: real, velocity: real)

  datatype TrackModel = TrackModel(
    id: int, name: string, instrumentId: string, notes: seq<TrackNote>,
    gain: real, pan: real, sendA: real, sendB: real)

  const DEFAULT_LENGTH: real := 1.0
  const DEFAULT_VELOCITY: real := 0.9

  /** Fraction of the step duration a sequenced note lasts. */
  const GATE: real := 0.95

  /** What sample presets are played with until samples are wired in. */
  const SAMPLE_FALLBACK_PATCH: SynthPatch := SynthPatch(Triangle, 0.002, 0.08, 0.7, 0.1, 7000.0, 0.8)

  predicate IsAt(n: TrackNote, midi: int, step: int) {
    n.midi == midi && n.step == step
  }

  /** The track-list frame every track operation keeps: same length, same ids
    * in the same order, and every track with another id exactly as it was. */
  predicate OthersUnchanged(ts: seq<TrackModel>, r: seq<TrackModel>, id: int) {
    |r| == |ts| &&
    forall i :: 0 <= i < |ts| ==> r[i].id == ts[i].id && (ts[i].id != id ==> r[i] == ts[i])
  }

  // ---------------------------------------------------------------------------
  // Note-list transforms

  /** `notes.filter(n => !(n.midi === midi && n.step === step))`. */
  function RemoveAt(notes: seq<TrackNote>, midi: int, step: int): (r: seq<TrackNote>)
    ensures forall n :: n in r <==> n in notes && !IsAt(n, midi, step)
    ensures |r| <= |notes|
  {
    if |notes| == 0 then []
    else if IsAt(notes[0], midi, step) then RemoveAt(notes[1..], midi, step)
    else [notes[0]] + RemoveAt(notes[1..], midi, step)
  }

  lemma {:induction false} RemoveAtKeepsOrder(notes: seq<TrackNote>, midi: int, step: int)
    ensures IsSubsequence(RemoveAt(notes, midi, step), notes)
  {
    if |notes| > 0 {
      RemoveAtKeepsOrder(notes[1..], midi, step);
      var rest := RemoveAt(notes[1..], midi, step);
      if !IsAt(notes[0], midi, step) {
        assert ([notes[0]] + rest)[1..] == rest;
      }
    }
  }

  /** `notes.map(n => n.midi === midi && n.step === step ? {...n, velocity} : n)`. */
  function SetVelocityAt(notes: seq<TrackNote>, midi: int, step: int, velocity: real): (r: seq<TrackNote>)
    ensures |r| == |notes|
    ensures forall i :: 0 <= i < |notes| ==>
              r[i].midi == notes[i].midi && r[i].step == notes[i].step && r[i].length == notes[i].length
    ensures forall i :: 0 <= i < |notes| ==>
              r[i].velocity == (if IsAt(notes[i], midi, step) then velocity else notes[i].velocity)
  {
    seq(|notes|, i requires 0 <= i < |notes| =>
      if IsAt(notes[i], midi, step) then notes[i].(velocity := velocity) else notes[i])
  }

  // ---------------------------------------------------------------------------
  // Track-list transforms (`tracks.update(ts => ts.map(t => t.id === id ? ... : t))`)

  function AddNote(ts: seq<TrackModel>, trackId: int, midi: int, step: int, length: real, velocity: real): (r: seq<TrackModel>)
    ensures OthersUnchanged(ts, r, trackId)
    ensures forall i :: 0 <= i < |ts| && ts[i].id == trackId ==>
              r[i].notes == ts[i].notes + [TrackNote(midi, step, length, velocity)] &&
              r[i].(notes := ts[i].notes) == ts[i]
  {
    seq(|ts|, i requires 0 <= i < |ts| =>
      if ts[i].id == trackId then ts[i].(notes := ts[i].notes + [TrackNote(midi, step, length, velocity)]) else ts[i])
  }

  function UpdateNoteVelocity(ts: seq<TrackModel>, trackId: int, midi: int, step: int, velocity: real): (r: seq<TrackModel>)
    ensures OthersUnchanged(ts, r, trackId)
    ensures forall i :: 0 <= i < |ts| && ts[i].id == trackId ==>
              r[i].notes == SetVelocityAt(ts[i].notes, midi, step, velocity) &&
              r[i].(notes := ts[i].notes) == ts[i]
  {
    seq(|ts|, i requires 0 <= i < |ts| =>
      if ts[i].id == trackId then ts[i].(notes := SetVelocityAt(ts[i].notes, midi, step, velocity)) else ts[i])
  }

  function RemoveNote(ts: seq<TrackModel>, trackId: int, midi: int, step: int): (r: seq<TrackModel>)
    ensures OthersUnchanged(ts, r, trackId)
    ensures forall i :: 0 <= i < |ts| && ts[i].id == trackId ==>
              r[i].notes == RemoveAt(ts[i].notes, midi, step) &&
              r[i].(notes := ts[i].notes) == ts[i]
  {
    seq(|ts|, i requires 0 <= i < |ts| =>
      if ts[i].id == trackId then ts[i].(notes := RemoveAt(ts[i].notes, midi, step)) else ts[i])
  }

  function ClearTrack(ts: seq<TrackModel>, trackId: int): (r: seq<TrackModel>)
    ensures OthersUnchanged(ts, r, trackId)
    ensures forall i :: 0 <= i < |ts| && ts[i].id == trackId ==>
              r[i].notes == [] && r[i].(notes := ts[i].notes) == ts[i]
  {
    seq(|ts|, i requires 0 <= i < |ts| => if ts[i].id == trackId then ts[i].(notes := []) else ts[i])
  }

  function SetInstrument(ts: seq<TrackModel>, trackId: int, presetId: string): (r: seq<TrackModel>)
    ensures OthersUnchanged(ts, r, trackId)
    ensures forall i :: 0 <= i < |ts| && ts[i].id == trackId ==>
              r[i].instrumentId == presetId && r[i].(instrumentId := ts[i].instrumentId) == ts[i]
  {
    seq(|ts|, i requires 0 <= i < |ts| => if ts[i].id == trackId then ts[i].(instrumentId := presetId) else ts[i])
  }

  /** The track `ensureTrack` appends: no notes, gain 0.9, centred, sends 0.1 and 0.05. */
  function NewTrack(id: int, preset: InstrumentPreset): (t: TrackModel)
    ensures t.id == id && t.name == preset.name && t.instrumentId == preset.id && t.notes == []
    ensures t.gain == 0.9 && t.pan == 0.0 && t.sendA == 0.1 && t.sendB == 0.05
  {
    TrackModel(id, preset.name, preset.id, [], 0.9, 0.0, 0.1, 0.05)
  }

  /** An unknown id leaves every track operation a no-op. */
  lemma UnknownTrackIsNoOp(ts: seq<TrackModel>, trackId: int, midi: int, step: int, length: real, velocity: real, presetId: string)
    requires forall i :: 0 <= i < |ts| ==> ts[i].id != trackId
    ensures AddNote(ts, trackId, midi, step, length, velocity) == ts
    ensures UpdateNoteVelocity(ts, trackId, midi, step, velocity) == ts
    ensures RemoveNote(ts, trackId, midi, step) == ts
    ensures ClearTrack(ts, trackId) == ts
    ensures SetInstrument(ts, trackId, presetId) == ts
  {
  }

  /** `addNote` does not deduplicate: adding the same cell twice leaves two notes there. */
  lemma AddNoteDuplicates(t: TrackModel, midi: int, step: int)
    requires t.notes == []
    ensures var r := AddNote(AddNote([t], t.id, midi, step, DEFAULT_LENGTH, DEFAULT_VELOCITY),
                             t.id, midi, step, DEFAULT_LENGTH, DEFAULT_VELOCITY);
            |r[0].notes| == 2 && IsAt(r[0].notes[0], midi, step) && IsAt(r[0].notes[1], midi, step)
  {
  }

  /** Removing a cell after adding it removes every note in that cell, the new one included. */
  lemma RemoveAfterAdd(notes: seq<TrackNote>, midi: int, step: int, length: real, velocity: real)
    ensures RemoveAt(notes + [TrackNote(midi, step, length, velocity)], midi, step) == RemoveAt(notes, midi, step)
  {
    RemoveAtAppend(notes, [TrackNote(midi, step, length, velocity)], midi, step);
  }

  lemma {:induction false} RemoveAtAppend(a: seq<TrackNote>, b: seq<TrackNote>, midi: int, step: int)
    ensures RemoveAt(a + b, midi, step) == RemoveAt(a, midi, step) + RemoveAt(b, midi, step)
  {
    if |a| > 0 {
      RemoveAtAppend(a[1..], b, midi, step);
      assert (a + b)[1..] == a[1..] + b;
    } else {
      assert a + b == b;
    }
  }

  // ---------------------------------------------------------------------------
  // The step callback

  /** The patch a note is played with: the synth preset's own, or the fixed fallback for samples. */
  function PatchOf(p: InstrumentPreset): SynthPatch {
    match p.kind
    case Synth(patch) => patch
    case Sample => SAMPLE_FALLBACK_PATCH
  }

  /** The `playSynth` call for one note of one track. */
  function NoteCall(t: TrackModel, p: InstrumentPreset, n: TrackNote, when: real, dur: real): EngineCall {
    PlaySynth(when, n.midi, dur, n.velocity, t.pan, t.gain, t.sendA, t.sendB, PatchOf(p))
  }

  /** The calls for the notes of `notes` (of track t, preset p) that sit at `step`. */
  function NoteCalls(t: TrackModel, p: InstrumentPreset, notes: seq<TrackNote>, step: int, when: real, dur: real): seq<EngineCall>
    decreases |notes|
  {
    if |notes| == 0 then []
    else
      NoteCalls(t, p, notes[..|notes| - 1], step, when, dur) +
      (if notes[|notes| - 1].step == step then [NoteCall(t, p, notes[|notes| - 1], when, dur)] else [])
  }

  /** The calls for one track: none when its instrument is not a known preset. */
  function TrackCalls(presets: seq<InstrumentPreset>, t: TrackModel, step: int, when: real, dur: real): seq<EngineCall> {
    match FindById(presets, t.instrumentId)
    case None => []
    case Some(p) => NoteCalls(t, p, t.notes, step, when, dur)
  }

  /** The calls the step callback issues, track by track, note by note. */
  function StepCalls(presets: seq<InstrumentPreset>, ts: seq<TrackModel>, step: int, when: real, dur: real): seq<EngineCall>
    decreases |ts|
  {
    if |ts| == 0 then [] else StepCalls(presets, ts[..|ts| - 1], step, when, dur) + TrackCalls(presets, ts[|ts| - 1], step, when, dur)
  }

  lemma StepCallsSnoc(presets: seq<InstrumentPreset>, ts: seq<TrackModel>, i: int, step: int, when: real, dur: real)
    requires 0 <= i < |ts|
    ensures StepCalls(presets, ts[..i + 1], step, when, dur) ==
            StepCalls(presets, ts[..i], step, when, dur) + TrackCalls(presets, ts[i], step, when, dur)
  {
    assert ts[..i + 1][..i] == ts[..i];
  }

  /** A call fired for note n at step `step` of some track in ts with a known preset. */
  predicate FiredFor(presets: seq<InstrumentPreset>, ts: seq<TrackModel>, c: EngineCall, step: int, when: real, dur: real) {
    exists i, j :: 0 <= i < |ts| && 0 <= j < |ts[i].notes| && ts[i].notes[j].step == step &&
                   FindById(presets, ts[i].instrumentId).Some? &&
                   c == NoteCall(ts[i], FindById(presets, ts[i].instrumentId).value, ts[i].notes[j], when, dur)
  }

  lemma {:induction false} NoteCallsSound(t: TrackModel, p: InstrumentPreset, notes: seq<TrackNote>, step: int, when: real, dur: real)
    ensures forall c :: c in NoteCalls(t, p, notes, step, when, dur) ==>
              exists j :: 0 <= j < |notes| && notes[j].step == step && c == NoteCall(t, p, notes[j], when, dur)
    decreases |notes|
  {
    if |notes| > 0 {
      var init := notes[..|notes| - 1];
      NoteCallsSound(t, p, init, step, when, dur);
      forall c | c in NoteCalls(t, p, notes, step, when, dur)
        ensures exists j :: 0 <= j < |notes| && notes[j].step == step && c == NoteCall(t, p, notes[j], when, dur)
      {
        if c in NoteCalls(t, p, init, step, when, dur) {
          var j :| 0 <= j < |init| && init[j].step == step && c == NoteCall(t, p, init[j], when, dur);
          assert notes[j] == init[j];
        } else {
          assert notes[|notes| - 1].step == step;
        }
      }
    }
  }

  lemma {:induction false} NoteCallsComplete(t: TrackModel, p: InstrumentPreset, notes: seq<TrackNote>, step: int, when: real, dur: real)
    ensures forall j :: 0 <= j < |notes| && notes[j].step == step ==>
              NoteCall(t, p, notes[j], when, dur) in NoteCalls(t, p, notes, step, when, dur)
    decreases |notes|
  {
    if |notes| > 0 {
      var init := notes[..|notes| - 1];
      NoteCallsComplete(t, p, init, step, when, dur);
      forall j | 0 <= j < |notes| - 1 && notes[j].step == step
        ensures NoteCall(t, p, notes[j], when, dur) in NoteCalls(t, p, notes, step, when, dur)
      {
        assert notes[j] == init[j];
      }
    }
  }

  /** Every call the step callback makes plays a note of a track with a known
    * preset whose step is the current one, with the gated duration. */
  lemma {:induction false} StepCallsSound(presets: seq<InstrumentPreset>, ts: seq<TrackModel>, step: int, when: real, dur: real)
    ensures forall c :: c in StepCalls(presets, ts, step, when, dur) ==> FiredFor(presets, ts, c, step, when, dur)
    decreases |ts|
  {
    if |ts| > 0 {
      var init := ts[..|ts| - 1];
      var t := ts[|ts| - 1];
      StepCallsSound(presets, init, step, when, dur);
      forall c | c in StepCalls(presets, ts, step, when, dur)
        ensures FiredFor(presets, ts, c, step, when, dur)
      {
        if c in StepCalls(presets, init, step, when, dur) {
          var i, j :| 0 <= i < |init| && 0 <= j < |init[i].notes| && init[i].notes[j].step == step &&
                      FindById(presets, init[i].instrumentId).Some? &&
                      c == NoteCall(init[i], FindById(presets, init[i].instrumentId).value, init[i].notes[j], when, dur);
          assert ts[i] == init[i];
        } else {
          var p := FindById(presets, t.instrumentId).value;
          NoteCallsSound(t, p, t.notes, step, when, dur);
          var j :| 0 <= j < |t.notes| && t.notes[j].step == step && c == NoteCall(t, p, t.notes[j], when, dur);
          assert ts[|ts| - 1] == t;
        }
      }
    }
  }

  /** Every note at the current step of a track with a known preset is played. */
  lemma {:induction false} StepCallsComplete(presets: seq<InstrumentPreset>, ts: seq<TrackModel>, step: int, when: real, dur: real)
    ensures forall i, j :: 0 <= i < |ts| && 0 <= j < |ts[i].notes| && ts[i].notes[j].step == step &&
                           FindById(presets, ts[i].instrumentId).Some? ==>
              NoteCall(ts[i], FindById(presets, ts[i].instrumentId).value, ts[i].notes[j], when, dur)
                in StepCalls(presets, ts, step, when, dur)
    decreases |ts|
  {
    if |ts| > 0 {
      var init := ts[..|ts| - 1];
      StepCallsComplete(presets, init, step, when, dur);
      forall i, j | 0 <= i < |ts| && 0 <= j < |ts[i].notes| && ts[i].notes[j].step == step &&
                    FindById(presets, ts[i].instrumentId).Some?
        ensures NoteCall(ts[i], FindById(presets, ts[i].instrumentId).value, ts[i].notes[j], when, dur)
                  in StepCalls(presets, ts, step, when, dur)
      {
        if i < |ts| - 1 {
          assert ts[i] == init[i];
        } else {
          NoteCallsComplete(ts[i], FindById(presets, ts[i].instrumentId).value, ts[i].notes, step, when, dur);
        }
      }
    }
  }

  /** A track whose instrument id names no preset is skipped entirely. */
  lemma UnknownInstrumentIsSilent(presets: seq<InstrumentPreset>, t: TrackModel, step: int, when: real, dur: real)
    requires forall i :: 0 <= i < |presets| ==> presets[i].id != t.instrumentId
    ensures StepCalls(presets, [t], step, when, dur) == []
  {
    assert [t][..0] == [];
  }

  /** Sample presets sound through the fixed triangle patch. */
  lemma SampleTracksUseFallbackPatch(presets: seq<InstrumentPreset>, t: TrackModel, n: TrackNote, when: real, dur: real)
    requires FindById(presets, t.instrumentId).Some? && FindById(presets, t.instrumentId).value.kind == Sample
    ensures NoteCall(t, FindById(presets, t.instrumentId).value, n, when, dur).patch.wave == Triangle
  {
  }

  // ---------------------------------------------------------------------------
  // The service

  class MusicManagerService {
    var tracks: seq<TrackModel>
    var selectedTrackId: Option<int>
    var currentStep: int
    const engine: AudioEngine
    /** The instrument presets (`InstrumentsService.getPresets()`). */
    const presets: seq<InstrumentPreset>

    /** Creates the default 'Piano' track (which resolves to the first preset
      * of the instrument service's list, `DefaultTrackPreset`) and registers
      * the step callback on the engine. */
    constructor(engine: AudioEngine, presets: seq<InstrumentPreset>, trackId: int)
      requires |presets| > 0
      modifies engine
      ensures this.engine == engine && this.presets == presets
      ensures var t := NewTrack(trackId, PresetFor(presets, "Piano"));
              tracks == [t] && selectedTrackId == Some(trackId) && currentStep == -1 &&
              engine.calls == old(engine.calls) + [EngineCall.EnsureTrack(trackId, t.name, t.instrumentId, t.gain, t.pan, t.sendA, t.sendB)]
      ensures engine.onScheduleStep == SequencerCallback
      ensures engine.isPlaying == old(engine.isPlaying) && engine.tempo == old(engine.tempo)
    {
      this.engine := engine;
      this.presets := presets;
      tracks := [];
      selectedTrackId := None;
      currentStep := -1;
      new;
      var _ := EnsureTrack("Piano", trackId);
      engine.onScheduleStep := SequencerCallback;
    }

    /** `ensureTrack`: appends a new track for the matching preset (or the
      * first one), tells the engine, and selects it if nothing was selected.
      * The random id is a parameter. */
    method EnsureTrack(presetIdOrName: string, id: int) returns (r: int)
      requires |presets| > 0
      modifies this, engine
      ensures r == id
      ensures tracks == old(tracks) + [NewTrack(id, PresetFor(presets, presetIdOrName))]
      ensures selectedTrackId == (if old(selectedTrackId).None? then Some(id) else old(selectedTrackId))
      ensures currentStep == old(currentStep)
      ensures var t := NewTrack(id, PresetFor(presets, presetIdOrName));
              engine.calls == old(engine.calls) + [EngineCall.EnsureTrack(id, t.name, t.instrumentId, t.gain, t.pan, t.sendA, t.sendB)]
      ensures engine.isPlaying == old(engine.isPlaying) && engine.tempo == old(engine.tempo)
      ensures engine.onScheduleStep == old(engine.onScheduleStep)
      ensures engine.loopStart == old(engine.loopStart) && engine.loopEnd == old(engine.loopEnd)
    {
      var preset := PresetFor(presets, presetIdOrName);
      var track := NewTrack(id, preset);
      tracks := tracks + [track];
      engine.Record(EngineCall.EnsureTrack(id, track.name, track.instrumentId, track.gain, track.pan, track.sendA, track.sendB));
      if selectedTrackId.None? {
        selectedTrackId := Some(id);
      }
      r := id;
    }

    method SetInstrumentOf(trackId: int, presetId: string)
      modifies this, engine
      ensures tracks == SetInstrument(old(tracks), trackId, presetId)
      ensures selectedTrackId == old(selectedTrackId) && currentStep == old(currentStep)
      ensures engine.calls == old(engine.calls) + [UpdateTrack(trackId, presetId)]
      ensures engine.isPlaying == old(engine.isPlaying) && engine.tempo == old(engine.tempo)
      ensures engine.onScheduleStep == old(engine.onScheduleStep)
      ensures engine.loopStart == old(engine.loopStart) && engine.loopEnd == old(engine.loopEnd)
    {
      tracks := SetInstrument(tracks, trackId, presetId);
      engine.Record(UpdateTrack(trackId, presetId));
    }

    method AddNoteTo(trackId: int, midi: int, step: int, length: real, velocity: real)
      modifies this
      ensures tracks == AddNote(old(tracks), trackId, midi, step, length, velocity)
      ensures selectedTrackId == old(selectedTrackId) && currentStep == old(currentStep)
    {
      tracks := AddNote(tracks, trackId, midi, step, length, velocity);
    }

    method UpdateVelocity(trackId: int, midi: int, step: int, velocity: real)
      modifies this
      ensures tracks == UpdateNoteVelocity(old(tracks), trackId, midi, step, velocity)
      ensures selectedTrackId == old(selectedTrackId) && currentStep == old(currentStep)
    {
      tracks := UpdateNoteVelocity(tracks, trackId, midi, step, velocity);
    }

    method RemoveNoteFrom(trackId: int, midi: int, step: int)
      modifies this
      ensures tracks == RemoveNote(old(tracks), trackId, midi, step)
      ensures selectedTrackId == old(selectedTrackId) && currentStep == old(currentStep)
    {
      tracks := RemoveNote(tracks, trackId, midi, step);
    }

    method Clear(trackId: int)
      modifies this
      ensures tracks == ClearTrack(old(tracks), trackId)
      ensures selectedTrackId == old(selectedTrackId) && currentStep == old(currentStep)
    {
      tracks := ClearTrack(tracks, trackId);
    }

    method SetTempo(bpm: real)
      modifies engine
      ensures engine.tempo == bpm && engine.calls == old(engine.calls) && engine.isPlaying == old(engine.isPlaying)
      ensures engine.loopStart == old(engine.loopStart) && engine.loopEnd == old(engine.loopEnd)
      ensures engine.onScheduleStep == old(engine.onScheduleStep)
    {
      engine.tempo := bpm;
    }

    method Play()
      modifies engine
      ensures engine.isPlaying && engine.calls == old(engine.calls) + [Start]
      ensures engine.tempo == old(engine.tempo) && engine.onScheduleStep == old(engine.onScheduleStep)
      ensures engine.loopStart == old(engine.loopStart) && engine.loopEnd == old(engine.loopEnd)
    {
      engine.StartTransport();
    }

    /** `stop`: stops the engine and parks the playhead at -1. */
    method Stop()
      modifies this, engine
      ensures !engine.isPlaying && engine.calls == old(engine.calls) + [EngineCall.Stop]
      ensures currentStep == -1
      ensures tracks == old(tracks) && selectedTrackId == old(selectedTrackId)
      ensures engine.tempo == old(engine.tempo) && engine.onScheduleStep == old(engine.onScheduleStep)
      ensures engine.loopStart == old(engine.loopStart) && engine.loopEnd == old(engine.loopEnd)
    {
      engine.StopTransport();
      currentStep := -1;
    }

    method SetLoop(start: int, end: int)
      modifies engine
      ensures engine.loopStart == start && engine.loopEnd == end
      ensures engine.tempo == old(engine.tempo) && engine.isPlaying == old(engine.isPlaying)
      ensures engine.calls == old(engine.calls) && engine.onScheduleStep == old(engine.onScheduleStep)
    {
      engine.loopStart := start;
      engine.loopEnd := end;
    }

    /** The effect that resets the playhead whenever the engine is not playing. */
    method SyncPlayhead()
      modifies this
      ensures currentStep == (if engine.isPlaying then old(currentStep) else -1)
      ensures tracks == old(tracks) && selectedTrackId == old(selectedTrackId)
    {
      if !engine.isPlaying {
        currentStep := -1;
      }
    }

    /** The inner loop of the step callback: one track's notes at this step. */
    method PlayTrackStep(t: TrackModel, p: InstrumentPreset, stepIndex: int, when: real, dur: real)
      modifies engine
      ensures engine.calls == old(engine.calls) + NoteCalls(t, p, t.notes, stepIndex, when, dur)
      ensures engine.tempo == old(engine.tempo) && engine.isPlaying == old(engine.isPlaying)
      ensures engine.onScheduleStep == old(engine.onScheduleStep)
      ensures engine.loopStart == old(engine.loopStart) && engine.loopEnd == old(engine.loopEnd)
    {
      var j := 0;
      while j < |t.notes|
        invariant 0 <= j <= |t.notes|
        invariant engine.calls == old(engine.calls) + NoteCalls(t, p, t.notes[..j], stepIndex, when, dur)
        invariant engine.tempo == old(engine.tempo) && engine.isPlaying == old(engine.isPlaying)
        invariant engine.onScheduleStep == old(engine.onScheduleStep)
        invariant engine.loopStart == old(engine.loopStart) && engine.loopEnd == old(engine.loopEnd)
      {
        var n := t.notes[j];
        assert t.notes[..j + 1][..j] == t.notes[..j];
        if n.step == stepIndex {
          engine.Record(NoteCall(t, p, n, when, dur));
        }
        j := j + 1;
      }
      assert t.notes[..|t.notes|] == t.notes;
    }

    /** The body of the outer loop: skip a track without a known preset, else play its notes at this step. */
    method PlayTrack(t: TrackModel, stepIndex: int, when: real, dur: real)
      modifies engine
      ensures engine.calls == old(engine.calls) + TrackCalls(presets, t, stepIndex, when, dur)
      ensures engine.tempo == old(engine.tempo) && engine.isPlaying == old(engine.isPlaying)
      ensures engine.onScheduleStep == old(engine.onScheduleStep)
      ensures engine.loopStart == old(engine.loopStart) && engine.loopEnd == old(engine.loopEnd)
    {
      var inst := FindById(presets, t.instrumentId);
      if inst.Some? {
        PlayTrackStep(t, inst.value, stepIndex, when, dur);
      }
    }

    /** The sequencer's `onScheduleStep` closure: moves the playhead and plays
      * the notes at this step of every track, track by track. */
    method OnScheduleStep(stepIndex: int, when: real, stepDur: real)
      modifies this, engine
      ensures currentStep == stepIndex
      ensures tracks == old(tracks) && selectedTrackId == old(selectedTrackId)
      ensures engine.calls == old(engine.calls) + StepCalls(presets, tracks, stepIndex, when, stepDur * GATE)
      ensures engine.tempo == old(engine.tempo) && engine.isPlaying == old(engine.isPlaying)
      ensures engine.onScheduleStep == old(engine.onScheduleStep)
      ensures engine.loopStart == old(engine.loopStart) && engine.loopEnd == old(engine.loopEnd)
    {
      currentStep := stepIndex;
      PlayTracks(tracks, stepIndex, when, stepDur * GATE);
    }

    /** The outer loop of the step callback, over the tracks in order. */
    method PlayTracks(ts: seq<TrackModel>, stepIndex: int, when: real, dur: real)
      modifies engine
      ensures engine.calls == old(engine.calls) + StepCalls(presets, ts, stepIndex, when, dur)
      ensures engine.tempo == old(engine.tempo) && engine.isPlaying == old(engine.isPlaying)
      ensures engine.onScheduleStep == old(engine.onScheduleStep)
      ensures engine.loopStart == old(engine.loopStart) && engine.loopEnd == old(engine.loopEnd)
    {
      var i := 0;
      while i < |ts|
        invariant 0 <= i <= |ts|
        invariant engine.calls == old(engine.calls) + StepCalls(presets, ts[..i], stepIndex, when, dur)
        invariant engine.tempo == old(engine.tempo) && engine.isPlaying == old(engine.isPlaying)
        invariant engine.onScheduleStep == old(engine.onScheduleStep)
        invariant engine.loopStart == old(engine.loopStart) && engine.loopEnd == old(engine.loopEnd)
      {
        StepCallsSnoc(presets, ts, i, stepIndex, when, dur);
        ghost var done := StepCalls(presets, ts[..i], stepIndex, when, dur);
        ghost var next := TrackCalls(presets, ts[i], stepIndex, when, dur);
        PlayTrack(ts[i], stepIndex, when, dur);
        AppendAssociative(old(engine.calls), done, next);
        i := i + 1;
      }
      assert ts[..|ts|] == ts;
    }
  }
}
