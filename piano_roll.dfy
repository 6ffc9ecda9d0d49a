/**
 * The piano-roll editor (`PianoRollComponent`): a grid of 36 pitch rows by
 * `steps` columns over the selected track of the sequencer, the toggle rule
 * that keeps at most one note per step, and the inputs that set tempo, loop
 * length and a generated melody.
 */
module PianoRoll {
  import opened Wrappers
  import opened Text
  import opened MusicManager

  const BASE_MIDI: int := 60
  const OCTAVES: int := 3
  const INITIAL_STEPS: nat := 16

  /** The pitch rows, top to bottom: BASE_MIDI + (OCTAVES·12 − 1 − i). */
  function MidiRows(): (rows: seq<int>)
    ensures |rows| == OCTAVES * 12
  {
    seq(OCTAVES * 12, i requires 0 <= i < OCTAVES * 12 => BASE_MIDI + (OCTAVES * 12 - 1 - i))
  }

  /** The rows run from 95 down to 60, strictly descending, and hold every pitch in between. */
  lemma MidiRowsShape()
    ensures MidiRows()[0] == 95 && MidiRows()[|MidiRows()| - 1] == 60
    ensures forall i, j :: 0 <= i < j < |MidiRows()| ==> MidiRows()[i] > MidiRows()[j]
    ensures forall m :: m in MidiRows() <==> 60 <= m <= 95
  {
    var rows := MidiRows();
    forall m | 60 <= m <= 95
      ensures m in rows
    {
      assert rows[95 - m] == m;
    }
  }

  // ---------------------------------------------------------------------------
  // Selection and lookup

  /** `tracks.find(t => t.id === id)`. */
  function FindTrack(ts: seq<TrackModel>, id: Option<int>): (r: Option<TrackModel>)
    ensures r.None? <==> forall i :: 0 <= i < |ts| ==> Some(ts[i].id) != id
    ensures r.Some? ==> exists i :: 0 <= i < |ts| && ts[i] == r.value && Some(ts[i].id) == id &&
                                    forall j :: 0 <= j < i ==> Some(ts[j].id) != id
  {
    if |ts| == 0 then None
    else if Some(ts[0].id) == id then Some(ts[0])
    else
      var r := FindTrack(ts[1..], id);
      assert r.Some? ==> exists i :: 0 <= i < |ts[1..]| && ts[1..][i] == r.value && Some(ts[1..][i].id) == id &&
                                    forall j :: 0 <= j < i ==> Some(ts[1..][j].id) != id;
      r
  }

  /** `selectedTrack`: the track with the selected id, or else the first track. */
  function SelectedTrack(ts: seq<TrackModel>, sel: Option<int>): (r: Option<TrackModel>)
    ensures r.None? <==> |ts| == 0
    ensures r.Some? ==> r.value in ts
  {
    match FindTrack(ts, sel)
    case Some(t) => Some(t)
    case None => if |ts| > 0 then Some(ts[0]) else None
  }

  /** `notes.find(n => n.step === step)`. */
  function FirstAtStep(notes: seq<TrackNote>, step: int): (r: Option<TrackNote>)
    ensures r.None? <==> forall i :: 0 <= i < |notes| ==> notes[i].step != step
    ensures r.Some? ==> r.value in notes && r.value.step == step
  {
    if |notes| == 0 then None
    else if notes[0].step == step then Some(notes[0])
    else FirstAtStep(notes[1..], step)
  }

  /** `noteAt`: the first note at that step of the selected track. */
  function NoteAt(ts: seq<TrackModel>, sel: Option<int>, step: int): Option<TrackNote> {
    match SelectedTrack(ts, sel)
    case None => None
    case Some(t) => FirstAtStep(t.notes, step)
  }

  /** `velocityForStep`: the velocity of that note, or 0. */
  function VelocityForStep(ts: seq<TrackModel>, sel: Option<int>, step: int): (v: real)
    ensures NoteAt(ts, sel, step).None? ==> v == 0.0
    ensures NoteAt(ts, sel, step).Some? ==> v == NoteAt(ts, sel, step).value.velocity
  {
    match NoteAt(ts, sel, step)
    case None => 0.0
    case Some(n) => n.velocity
  }

  // ---------------------------------------------------------------------------
  // The toggle rule

  /** The track list after `toggleNote(midi, step)`. */
  function Toggle(ts: seq<TrackModel>, sel: Option<int>, midi: int, step: int): seq<TrackModel> {
    match sel
    case None => ts
    case Some(id) =>
      var at := NoteAt(ts, sel, step);
      if at.Some? && at.value.midi == midi then RemoveNote(ts, id, midi, step)
      else
        var cleared := if at.Some? then RemoveNote(ts, id, at.value.midi, step) else ts;
        AddNote(cleared, id, midi, step, DEFAULT_LENGTH, DEFAULT_VELOCITY)
  }

  /** No two notes of the list share a step. */
  predicate OnePerStep(notes: seq<TrackNote>) {
    forall i, j :: 0 <= i < j < |notes| ==> notes[i].step != notes[j].step
  }

  predicate UniqueIds(ts: seq<TrackModel>) {
    forall i, j :: 0 <= i < j < |ts| ==> ts[i].id != ts[j].id
  }

  lemma {:induction false} RemoveAtOnePerStep(notes: seq<TrackNote>, midi: int, step: int)
    requires OnePerStep(notes)
    ensures OnePerStep(RemoveAt(notes, midi, step))
  {
    if |notes| > 0 {
      assert OnePerStep(notes[1..]) by {
        forall i, j | 0 <= i < j < |notes[1..]|
          ensures notes[1..][i].step != notes[1..][j].step
        {
          assert notes[1..][i] == notes[i + 1] && notes[1..][j] == notes[j + 1];
        }
      }
      RemoveAtOnePerStep(notes[1..], midi, step);
      var rest := RemoveAt(notes[1..], midi, step);
      if !IsAt(notes[0], midi, step) {
        forall k | 0 <= k < |rest|
          ensures notes[0].step != rest[k].step
        {
          assert rest[k] in notes[1..];
          var m :| 0 <= m < |notes[1..]| && notes[1..][m] == rest[k];
          assert notes[m + 1] == rest[k];
        }
      }
    }
  }

  /** In a one-per-step list, removing the note found at a step empties that step. */
  lemma RemoveFoundEmptiesStep(notes: seq<TrackNote>, step: int)
    requires OnePerStep(notes) && FirstAtStep(notes, step).Some?
    ensures forall n :: n in RemoveAt(notes, FirstAtStep(notes, step).value.midi, step) ==> n.step != step
  {
    var f := FirstAtStep(notes, step).value;
    forall n | n in RemoveAt(notes, f.midi, step)
      ensures n.step != step
    {
      var a :| 0 <= a < |notes| && notes[a] == n;
      var b :| 0 <= b < |notes| && notes[b] == f;
      SameStepSameIndex(notes, a, b);
    }
  }

  lemma SameStepSameIndex(notes: seq<TrackNote>, a: int, b: int)
    requires OnePerStep(notes) && 0 <= a < |notes| && 0 <= b < |notes|
    ensures notes[a].step == notes[b].step ==> a == b
  {
  }

  lemma AppendOnePerStep(notes: seq<TrackNote>, n: TrackNote)
    requires OnePerStep(notes)
    requires forall m :: m in notes ==> m.step != n.step
    ensures OnePerStep(notes + [n])
  {
    var r := notes + [n];
    forall i, j | 0 <= i < j < |r|
      ensures r[i].step != r[j].step
    {
      if j == |notes| {
        assert r[i] in notes;
      } else {
        assert r[i] == notes[i] && r[j] == notes[j];
      }
    }
  }

  /** The selected id, when it names a track, selects exactly that track. */
  lemma SelectedIsTarget(ts: seq<TrackModel>, id: int, k: int)
    requires UniqueIds(ts) && 0 <= k < |ts| && ts[k].id == id
    ensures SelectedTrack(ts, Some(id)) == Some(ts[k])
  {
    var i :| 0 <= i < |ts| && ts[i] == FindTrack(ts, Some(id)).value && Some(ts[i].id) == Some(id) &&
             forall j :: 0 <= j < i ==> Some(ts[j].id) != Some(id);
    assert i == k;
  }

  /** The piano-roll invariant: toggling a cell keeps at most one note per step
    * on every track (track ids being distinct, as the random ids make them). */
  lemma ToggleKeepsOnePerStep(ts: seq<TrackModel>, sel: Option<int>, midi: int, step: int)
    requires UniqueIds(ts)
    requires forall k :: 0 <= k < |ts| ==> OnePerStep(ts[k].notes)
    ensures forall k :: 0 <= k < |Toggle(ts, sel, midi, step)| ==> OnePerStep(Toggle(ts, sel, midi, step)[k].notes)
  {
    if sel.Some? {
      var id := sel.value;
      var r := Toggle(ts, sel, midi, step);
      var at := NoteAt(ts, sel, step);
      forall k | 0 <= k < |r|
        ensures OnePerStep(r[k].notes)
      {
        if ts[k].id == id {
          SelectedIsTarget(ts, id, k);
          var notes := ts[k].notes;
          assert at == FirstAtStep(notes, step);
          if at.Some? && at.value.midi == midi {
            RemoveAtOnePerStep(notes, midi, step);
          } else if at.Some? {
            var cleared := RemoveNote(ts, id, at.value.midi, step);
            RemoveAtOnePerStep(notes, at.value.midi, step);
            RemoveFoundEmptiesStep(notes, step);
            AppendOnePerStep(cleared[k].notes, TrackNote(midi, step, DEFAULT_LENGTH, DEFAULT_VELOCITY));
          } else {
            AppendOnePerStep(notes, TrackNote(midi, step, DEFAULT_LENGTH, DEFAULT_VELOCITY));
          }
        }
      }
    }
  }

  /** With no track selected the toggle does nothing. */
  lemma ToggleWithoutSelection(ts: seq<TrackModel>, midi: int, step: int)
    ensures Toggle(ts, None, midi, step) == ts
  {
  }

  lemma RemoveAtAbsent(notes: seq<TrackNote>, midi: int, step: int)
    requires forall n :: n in notes ==> n.step != step
    ensures RemoveAt(notes, midi, step) == notes
  {
    if |notes| > 0 {
      RemoveAtAbsent(notes[1..], midi, step);
      assert [notes[0]] + notes[1..] == notes;
    }
  }

  lemma {:induction false} FirstAtStepAppend(notes: seq<TrackNote>, n: TrackNote)
    requires forall m :: m in notes ==> m.step != n.step
    ensures FirstAtStep(notes + [n], n.step) == Some(n)
  {
    if |notes| > 0 {
      assert (notes + [n])[1..] == notes[1..] + [n];
      FirstAtStepAppend(notes[1..], n);
    }
  }

  /** Toggling an empty cell of the selected track adds the default note there. */
  lemma ToggleEmptyCell(ts: seq<TrackModel>, id: int, k: int, midi: int, step: int)
    requires UniqueIds(ts) && 0 <= k < |ts| && ts[k].id == id
    requires forall n :: n in ts[k].notes ==> n.step != step
    ensures Toggle(ts, Some(id), midi, step) == AddNote(ts, id, midi, step, DEFAULT_LENGTH, DEFAULT_VELOCITY)
  {
    SelectedIsTarget(ts, id, k);
  }

  /** Toggling a cell whose first note has the toggled pitch removes that cell. */
  lemma ToggleSamePitch(ts: seq<TrackModel>, id: int, k: int, midi: int, step: int)
    requires UniqueIds(ts) && 0 <= k < |ts| && ts[k].id == id
    requires FirstAtStep(ts[k].notes, step) == Some(TrackNote(midi, step, DEFAULT_LENGTH, DEFAULT_VELOCITY))
    ensures Toggle(ts, Some(id), midi, step) == RemoveNote(ts, id, midi, step)
  {
    SelectedIsTarget(ts, id, k);
  }

  /** Toggling the same empty cell twice leaves the track list as it was. */
  lemma ToggleTwiceRestores(ts: seq<TrackModel>, id: int, k: int, midi: int, step: int)
    requires UniqueIds(ts) && 0 <= k < |ts| && ts[k].id == id
    requires forall n :: n in ts[k].notes ==> n.step != step
    ensures Toggle(Toggle(ts, Some(id), midi, step), Some(id), midi, step) == ts
  {
    var note := TrackNote(midi, step, DEFAULT_LENGTH, DEFAULT_VELOCITY);
    ToggleEmptyCell(ts, id, k, midi, step);
    var once := AddNote(ts, id, midi, step, DEFAULT_LENGTH, DEFAULT_VELOCITY);
    assert UniqueIds(once) by {
      forall i, j | 0 <= i < j < |once|
        ensures once[i].id != once[j].id
      {
        assert once[i].id == ts[i].id && once[j].id == ts[j].id;
      }
    }
    assert once[k].notes == ts[k].notes + [note];
    FirstAtStepAppend(ts[k].notes, note);
    ToggleSamePitch(once, id, k, midi, step);
    var twice := RemoveNote(once, id, midi, step);
    RemoveAfterAdd(ts[k].notes, midi, step, DEFAULT_LENGTH, DEFAULT_VELOCITY);
    RemoveAtAbsent(ts[k].notes, midi, step);
    assert |twice| == |ts|;
    forall i | 0 <= i < |ts|
      ensures twice[i] == ts[i]
    {
      if ts[i].id == id {
        assert i == k;
      }
    }
  }

  // ---------------------------------------------------------------------------
  // Generated melodies

  /** The track list after `clearTrack(id)` and then `addNote` for each note in order. */
  function AddAll(ts: seq<TrackModel>, id: int, notes: seq<TrackNote>): seq<TrackModel>
    decreases |notes|
  {
    if |notes| == 0 then ts
    else
      var last := notes[|notes| - 1];
      AddNote(AddAll(ts, id, notes[..|notes| - 1]), id, last.midi, last.step, last.length, last.velocity)
  }

  /** Clearing and re-adding replaces the target track's notes by the generated
    * list, in order, and leaves every other track alone. */
  lemma {:induction false} ReplaceNotes(ts: seq<TrackModel>, id: int, notes: seq<TrackNote>)
    ensures OthersUnchanged(ts, AddAll(ClearTrack(ts, id), id, notes), id)
    ensures forall k :: 0 <= k < |ts| && ts[k].id == id ==>
              AddAll(ClearTrack(ts, id), id, notes)[k] == ts[k].(notes := notes)
    decreases |notes|
  {
    if |notes| > 0 {
      var init := notes[..|notes| - 1];
      ReplaceNotes(ts, id, init);
      var last := notes[|notes| - 1];
      assert init + [TrackNote(last.midi, last.step, last.length, last.velocity)] == notes;
    }
  }

  /** `steps` after `onStepsChange(text)`: a parsed positive integer, or unchanged. */
  function StepsAfter(steps: nat, text: string): (r: nat)
    ensures ParseInt(text).None? ==> r == steps
    ensures ParseInt(text).Some? && ParseInt(text).value <= 0 ==> r == steps
    ensures ParseInt(text).Some? && ParseInt(text).value > 0 ==> r == ParseInt(text).value
  {
    match ParseInt(text)
    case Some(v) => if v > 0 then v else steps
    case None => steps
  }

  /** Any positive step count typed in decimal is taken as is. */
  lemma StepsFromRendering(steps: nat, v: int)
    requires v > 0
    ensures StepsAfter(steps, IntToString(v)) == v
  {
    ParseIntToString(v);
  }

  // ---------------------------------------------------------------------------
  // Pitch names

  const NAMES: seq<string> := ["C", "C#", "D", "D#", "E", "F", "F#", "G", "G#", "A", "A#", "B"]

  /** JavaScript's `%`: the remainder takes the sign of the dividend. */
  function JsRem(a: int, b: int): (r: int)
    requires b > 0
    ensures a >= 0 ==> r == a % b
    ensures a < 0 ==> r <= 0
    ensures -b < r < b
  {
    if a >= 0 then a % b else -((-a) % b)
  }

  /** `midiName`: the note name then floor(midi/12) − 1; a negative pitch
    * indexes NAMES out of range, which renders as "undefined". */
  function MidiName(midi: int): string {
    var r := JsRem(midi, 12);
    (if r >= 0 then NAMES[r] else "undefined") + IntToString(midi / 12 - 1)
  }

  lemma MiddleC()
    ensures MidiName(60) == "C4" && MidiName(69) == "A4" && MidiName(0) == "C-1"
  {
  }

  /** The position of a note name in NAMES. */
  function NameIndex(name: string): (r: Option<nat>)
    ensures r.Some? ==> r.value < 12 && NAMES[r.value] == name
    ensures r.None? ==> name !in NAMES
  {
    if name == "C" then Some(0) else if name == "C#" then Some(1)
    else if name == "D" then Some(2) else if name == "D#" then Some(3)
    else if name == "E" then Some(4) else if name == "F" then Some(5)
    else if name == "F#" then Some(6) else if name == "G" then Some(7)
    else if name == "G#" then Some(8) else if name == "A" then Some(9)
    else if name == "A#" then Some(10) else if name == "B" then Some(11)
    else None
  }

  /** The pitch of note `i` of the given octave (octave −1 starts at pitch 0). */
  function Pitch(octave: int, i: nat): int {
    (octave + 1) * 12 + i
  }

  /** Reads a pitch name back: a one- or two-character name, then the octave. */
  function ParseMidiName(s: string): Option<int> {
    var len := if |s| >= 2 && s[1] == '#' then 2 else 1;
    if |s| < len then None
    else match (NameIndex(s[..len]), ParseInt(s[len..]))
      case (Some(i), Some(octave)) => Some(Pitch(octave, i))
      case _ => None
  }

  /** Each name is found at its own index and is a letter, optionally followed by '#'. */
  lemma NameShape(r: nat)
    requires r < 12
    ensures NameIndex(NAMES[r]) == Some(r)
    ensures |NAMES[r]| == 1 || (|NAMES[r]| == 2 && NAMES[r][1] == '#')
  {
  }

  /** A name of that shape followed by an octave not starting with '#' parses to its pitch. */
  lemma ParseNameParts(s: string, name: string, i: nat, oct: string, v: int)
    requires NameIndex(name) == Some(i) && s == name + oct
    requires |name| == 1 || (|name| == 2 && name[1] == '#')
    requires |oct| > 0 && oct[0] != '#' && ParseInt(oct) == Some(v)
    ensures ParseMidiName(s) == Some(Pitch(v, i))
  {
    var len := |name|;
    assert s[..len] == name && s[len..] == oct;
    assert len == (if |s| >= 2 && s[1] == '#' then 2 else 1) by {
      if len == 1 {
        assert s[1] == oct[0];
      } else {
        assert s[1] == name[1];
      }
    }
    assert NameIndex(s[..len]) == Some(i) && ParseInt(s[len..]) == Some(v);
  }

  lemma ParseNameThenOctave(s: string, r: nat, oct: string, v: int)
    requires r < 12 && s == NAMES[r] + oct
    requires |oct| > 0 && oct[0] != '#' && ParseInt(oct) == Some(v)
    ensures ParseMidiName(s) == Some(Pitch(v, r))
  {
    NameShape(r);
    ParseNameParts(s, NAMES[r], r, oct, v);
  }

  lemma OctaveText(octave: int)
    requires octave >= -1
    ensures |IntToString(octave)| > 0 && IntToString(octave)[0] != '#'
    ensures ParseInt(IntToString(octave)) == Some(octave)
  {
    ParseIntToString(octave);
    if octave >= 0 {
      NatToRadixDigits(octave, 10);
      assert 0 <= DigitValue(IntToString(octave)[0]) < 10;
    }
  }

  /** Pitch names are unambiguous: every non-negative pitch is read back from its name. */
  lemma MidiNameRoundTrip(midi: nat)
    ensures ParseMidiName(MidiName(midi)) == Some(midi)
  {
    OctaveTextOfPitch(midi);
    PitchFromParts(midi);
    ParseNameThenOctave(MidiName(midi), midi % 12, IntToString(midi / 12 - 1), midi / 12 - 1);
  }

  lemma PitchFromParts(midi: nat)
    ensures Pitch(midi / 12 - 1, midi % 12) == midi
  {
  }

  lemma MidiNameShape(midi: nat)
    ensures MidiName(midi) == NAMES[midi % 12] + IntToString(midi / 12 - 1)
  {
  }

  lemma OctaveTextOfPitch(midi: nat)
    ensures MidiName(midi) == NAMES[midi % 12] + IntToString(midi / 12 - 1)
    ensures |IntToString(midi / 12 - 1)| > 0 && IntToString(midi / 12 - 1)[0] != '#'
    ensures ParseInt(IntToString(midi / 12 - 1)) == Some(midi / 12 - 1)
  {
    MidiNameShape(midi);
    OctaveText(midi / 12 - 1);
  }

  lemma MidiNameInjective(a: nat, b: nat)
    requires MidiName(a) == MidiName(b)
    ensures a == b
  {
    MidiNameRoundTrip(a);
    MidiNameRoundTrip(b);
  }

  // ---------------------------------------------------------------------------
  // The component

  class PianoRollComponent {
    var steps: nat
    /** The tempo shown in the control; it starts as the engine's tempo. */
    var bpm: real
    var melodyPrompt: string
    const music: MusicManagerService

    constructor(music: MusicManagerService)
      ensures this.music == music && steps == INITIAL_STEPS && bpm == music.engine.tempo && melodyPrompt == ""
    {
      this.music := music;
      steps := INITIAL_STEPS;
      bpm := music.engine.tempo;
      melodyPrompt := "";
    }

    /** `sequenceFor(midi)`: one flag per step, set where the selected track
      * has a note of that pitch. */
    method SequenceFor(midi: int) returns (arr: seq<bool>)
      ensures |arr| == steps
      ensures SelectedTrack(music.tracks, music.selectedTrackId).None? ==> forall k :: 0 <= k < steps ==> !arr[k]
      ensures SelectedTrack(music.tracks, music.selectedTrackId).Some? ==>
                forall k :: 0 <= k < steps ==>
                  (arr[k] <==> exists n :: n in SelectedTrack(music.tracks, music.selectedTrackId).value.notes &&
                                           n.midi == midi && n.step == k)
    {
      arr := seq(steps, _ => false);
      var t := SelectedTrack(music.tracks, music.selectedTrackId);
      if t.None? {
        return;
      }
      var notes := t.value.notes;
      var i := 0;
      while i < |notes|
        invariant 0 <= i <= |notes|
        invariant |arr| == steps
        invariant forall k :: 0 <= k < steps ==>
                    (arr[k] <==> exists j :: 0 <= j < i && notes[j].midi == midi && notes[j].step == k)
      {
        var n := notes[i];
        if n.midi == midi && 0 <= n.step < steps {
          arr := arr[n.step := true];
        }
        i := i + 1;
      }
      forall k | 0 <= k < steps
        ensures arr[k] <==> exists n :: n in notes && n.midi == midi && n.step == k
      {
        if arr[k] {
          var j :| 0 <= j < |notes| && notes[j].midi == midi && notes[j].step == k;
          assert notes[j] in notes;
        }
      }
    }

    method ToggleNote(midi: int, step: int)
      modifies music
      ensures music.tracks == Toggle(old(music.tracks), old(music.selectedTrackId), midi, step)
      ensures music.selectedTrackId == old(music.selectedTrackId) && music.currentStep == old(music.currentStep)
    {
      var sel := music.selectedTrackId;
      if sel.None? {
        return;
      }
      var id := sel.value;
      var at := NoteAt(music.tracks, sel, step);
      if at.Some? && at.value.midi == midi {
        music.RemoveNoteFrom(id, midi, step);
        return;
      }
      if at.Some? {
        music.RemoveNoteFrom(id, at.value.midi, step);
      }
      music.AddNoteTo(id, midi, step, DEFAULT_LENGTH, DEFAULT_VELOCITY);
    }

    /** `generateMelody`, with the AI's answer passed in (None when it gave none). */
    method GenerateMelody(generated: Option<seq<TrackNote>>)
      modifies music
      ensures melodyPrompt == "" || generated.None? || old(music.selectedTrackId).None? ==>
                music.tracks == old(music.tracks)
      ensures melodyPrompt != "" && generated.Some? && old(music.selectedTrackId).Some? ==>
                music.tracks == AddAll(ClearTrack(old(music.tracks), old(music.selectedTrackId).value),
                                       old(music.selectedTrackId).value, generated.value)
      ensures music.selectedTrackId == old(music.selectedTrackId) && music.currentStep == old(music.currentStep)
    {
      if melodyPrompt == "" {
        return;
      }
      var trackId := music.selectedTrackId;
      if generated.Some? && trackId.Some? {
        var id := trackId.value;
        var notes := generated.value;
        music.Clear(id);
        var cleared := music.tracks;
        var i := 0;
        while i < |notes|
          invariant 0 <= i <= |notes|
          invariant music.tracks == AddAll(cleared, id, notes[..i])
          invariant music.selectedTrackId == old(music.selectedTrackId) && music.currentStep == old(music.currentStep)
        {
          var n := notes[i];
          assert notes[..i + 1][..i] == notes[..i];
          music.AddNoteTo(id, n.midi, n.step, n.length, n.velocity);
          i := i + 1;
        }
        assert notes[..|notes|] == notes;
      }
    }

    /** `onBpmChange`: a parsed integer becomes the tempo; NaN is ignored. */
    method OnBpmChange(text: string)
      modifies this, music.engine
      ensures ParseInt(text).None? ==> bpm == old(bpm) && music.engine.tempo == old(music.engine.tempo)
      ensures ParseInt(text).Some? ==> bpm == ParseInt(text).value as real && music.engine.tempo == ParseInt(text).value as real
      ensures steps == old(steps) && music.engine.calls == old(music.engine.calls)
      ensures music.engine.loopStart == old(music.engine.loopStart) && music.engine.loopEnd == old(music.engine.loopEnd)
    {
      var v := ParseInt(text);
      if v.Some? {
        bpm := v.value as real;
        music.SetTempo(v.value as real);
      }
    }

    /** `onStepsChange`: a parsed positive integer v sets the grid width and the loop to [0, v). */
    method OnStepsChange(text: string)
      modifies this, music.engine
      ensures steps == StepsAfter(old(steps), text)
      ensures var v := ParseInt(text);
              if v.Some? && v.value > 0 then music.engine.loopStart == 0 && music.engine.loopEnd == v.value
              else music.engine.loopStart == old(music.engine.loopStart) && music.engine.loopEnd == old(music.engine.loopEnd)
      ensures bpm == old(bpm) && music.engine.tempo == old(music.engine.tempo) && music.engine.calls == old(music.engine.calls)
    {
      var v := ParseInt(text);
      if v.Some? && v.value > 0 {
        steps := v.value;
        music.SetLoop(0, v.value);
      }
    }
  }
}
