/**
 * The arpeggiator (`ArpeggiatorComponent`): on every scheduler step it picks
 * one note of its current chord by a modular index rule and plays it through
 * the engine. The chord is edited as comma-separated text.
 */
module Arpeggiator {
  import opened Wrappers
  import opened Text
  import opened Engine

  datatype Mode = Up | Down | UpDown | Random

  /** A C major triad. */
  const DEFAULT_NOTES: seq<int> := [60, 64, 67]
  const DEFAULT_NOTE_LENGTH: real := 0.25

  // ---------------------------------------------------------------------------
  // Note selection

  /** The index rule as written, for `n` notes and scheduler step `step`.
    * `roll` is `Math.floor(Math.random() * n)`. `None` stands for NaN: with a
    * single note the up-down cycle `2n - 2` is 0 and `step % 0` is NaN. */
  function NoteIndexAsWritten(mode: Mode, n: nat, step: nat, roll: nat): Option<int>
    requires n > 0 && roll < n
  {
    match mode
    case Up => Some(step % n)
    case Down => Some(n - 1 - step % n)
    case UpDown =>
      var cycle := n * 2 - 2;
      if cycle == 0 then None
      else
        var pos := step % cycle;
        Some(if pos < n then pos else cycle - pos)
    case Random => Some(roll)
  }

  /** With one note, up-down mode selects no index at all. */
  lemma UpDownSingleNoteIsNaN(step: nat)
    ensures NoteIndexAsWritten(UpDown, 1, step, 0) == None
  {
  }

  /** The index rule with the single-note up-down case playing that note. It
    * agrees with the rule as written everywhere else, and always lands in range. */
  function NoteIndex(mode: Mode, n: nat, step: nat, roll: nat): (r: nat)
    requires n > 0 && roll < n
    ensures r < n
    ensures !(mode == UpDown && n == 1) ==> NoteIndexAsWritten(mode, n, step, roll) == Some(r)
  {
    match mode
    case Up => step % n
    case Down => n - 1 - step % n
    case UpDown =>
      if n == 1 then 0
      else
        var cycle := n * 2 - 2;
        var pos := step % cycle;
        if pos < n then pos else cycle - pos
    case Random => roll
  }

  /** Down mode walks the chord in the mirror order of up mode. */
  lemma DownMirrorsUp(n: nat, step: nat, roll: nat)
    requires n > 0 && roll < n
    ensures NoteIndex(Down, n, step, roll) == n - 1 - NoteIndex(Up, n, step, roll)
  {
  }

  /** The first `n` steps of up mode play the chord in order. */
  lemma UpPlaysInOrder(n: nat, step: nat, roll: nat)
    requires step < n && roll < n
    ensures NoteIndex(Up, n, step, roll) == step
  {
    DivModUnique(step, n, 0, step);
  }

  lemma MulAtLeast(k: int, c: int)
    requires k >= 1 && c > 0
    ensures k * c >= c
  {
  }

  /** Euclidean division has exactly one quotient and remainder. */
  lemma DivModUnique(x: int, c: int, q: int, r: int)
    requires c > 0 && 0 <= r < c && x == q * c + r
    ensures x / c == q && x % c == r
  {
    var q0, r0 := x / c, x % c;
    assert x == q0 * c + r0;
    assert (q - q0) * c == r0 - r;
    if q > q0 {
      MulAtLeast(q - q0, c);
    } else if q < q0 {
      MulAtLeast(q0 - q, c);
    }
  }

  lemma ModSucc(step: nat, c: nat)
    requires c > 0
    ensures (step + 1) % c == if step % c == c - 1 then 0 else step % c + 1
  {
    var q, r := step / c, step % c;
    assert step == q * c + r;
    if r == c - 1 {
      DivModUnique(step + 1, c, q + 1, 0);
    } else {
      DivModUnique(step + 1, c, q, r + 1);
    }
  }

  /** Up-down mode moves one note at a time: upwards through the first half
    * of its cycle (positions 0 .. n−2), downwards through the second. */
  lemma UpDownMovesByOne(n: nat, step: nat, roll: nat)
    requires n >= 2 && roll < n
    ensures var pos := step % (2 * n - 2);
            var here := NoteIndex(UpDown, n, step, roll);
            var next := NoteIndex(UpDown, n, step + 1, roll);
            if pos < n - 1 then next == here + 1 else next == here - 1
  {
    ModSucc(step, 2 * n - 2);
  }

  /** The call one step makes: nothing for an empty chord, otherwise the
    * selected note for `length` seconds from `when`. */
  function StepCall(notes: seq<int>, mode: Mode, step: nat, when: real, length: real, roll: nat): (calls: seq<EngineCall>)
    requires |notes| == 0 || roll < |notes|
    ensures |notes| == 0 <==> calls == []
    ensures |calls| <= 1
    ensures forall c :: c in calls ==> c.PlayNote? && c.midi in notes && c.when == when && c.length == length
  {
    if |notes| == 0 then []
    else [PlayNote(notes[NoteIndex(mode, |notes|, step, roll)], when, length)]
  }

  // ---------------------------------------------------------------------------
  // Note-list text

  /** `pieces.map(n => parseInt(n.trim(), 10))`, with NaN as `None`. */
  function ParsePieces(pieces: seq<string>): (r: seq<Option<int>>)
    ensures |r| == |pieces| && forall i :: 0 <= i < |pieces| ==> r[i] == ParseInt(Trim(pieces[i]))
  {
    seq(|pieces|, i requires 0 <= i < |pieces| => ParseInt(Trim(pieces[i])))
  }

  /** The parsed pieces, or `None` when one of them is NaN. */
  function ParseAll(pieces: seq<string>): (r: Option<seq<int>>)
    ensures r.Some? ==> |r.value| == |pieces|
  {
    AllSome(ParsePieces(pieces))
  }

  /** The pieces parse as a whole exactly when each one does, and then each
    * number is the one its own piece denotes. */
  lemma ParseAllPointwise(pieces: seq<string>)
    ensures ParseAll(pieces).Some? ==>
              forall i :: 0 <= i < |pieces| ==> ParseInt(Trim(pieces[i])) == Some(ParseAll(pieces).value[i])
    ensures ParseAll(pieces).None? <==> exists i :: 0 <= i < |pieces| && ParseInt(Trim(pieces[i])).None?
  {
    var xs := ParsePieces(pieces);
    AllSomePointwise(xs);
    AllSomeFails(xs);
  }

  /** What `setNotes` reads from its text: the comma-separated list, or
    * nothing when some field is not a number. It is never the empty list. */
  function ParseNoteList(text: string): (r: Option<seq<int>>)
    ensures r.Some? ==> |r.value| == |Split(text, ',')| >= 1
  {
    ParseAll(Split(text, ','))
  }

  function Render(notes: seq<int>): (r: seq<string>)
    ensures |r| == |notes| && forall i :: 0 <= i < |notes| ==> r[i] == IntToString(notes[i])
  {
    seq(|notes|, i requires 0 <= i < |notes| => IntToString(notes[i]))
  }

  /** Any non-empty chord written as comma-separated numbers is read back exactly. */
  lemma NoteListRoundTrip(notes: seq<int>)
    requires |notes| >= 1
    ensures ParseNoteList(Join(Render(notes), ",")) == Some(notes)
  {
    var pieces := Render(notes);
    var xs := ParsePieces(pieces);
    forall k | 0 <= k < |pieces|
      ensures ',' !in pieces[k] && xs[k] == Some(notes[k])
    {
      IntToStringTrimmed(notes[k]);
      ParseIntToString(notes[k]);
    }
    JoinSplit(pieces, ',');
    AllSomeOfValues(xs, notes);
  }

  // ---------------------------------------------------------------------------
  // The component

  class ArpeggiatorComponent {
    var mode: Mode
    var noteLength: real
    var isEnabled: bool
    var currentNotes: seq<int>
    const engine: AudioEngine

    constructor(engine: AudioEngine)
      ensures this.engine == engine
      ensures mode == Up && currentNotes == DEFAULT_NOTES && noteLength == DEFAULT_NOTE_LENGTH && !isEnabled
    {
      this.engine := engine;
      mode := Up;
      noteLength := DEFAULT_NOTE_LENGTH;
      isEnabled := false;
      currentNotes := DEFAULT_NOTES;
    }

    /** `ngOnInit`: takes over the engine's single step-callback slot,
      * whatever was registered there before. */
    method Init()
      modifies engine
      ensures engine.onScheduleStep == ArpeggiatorCallback
      ensures engine.calls == old(engine.calls) && engine.isPlaying == old(engine.isPlaying)
      ensures engine.tempo == old(engine.tempo)
      ensures engine.loopStart == old(engine.loopStart) && engine.loopEnd == old(engine.loopEnd)
    {
      engine.onScheduleStep := ArpeggiatorCallback;
    }

    /** `playArpeggiatedNote`: the engine clock reading and the random roll are parameters. */
    method PlayArpeggiatedNote(step: nat, when: real, roll: nat)
      requires |currentNotes| == 0 || roll < |currentNotes|
      modifies engine
      ensures engine.calls == old(engine.calls) + StepCall(currentNotes, mode, step, when, noteLength, roll)
      ensures engine.isPlaying == old(engine.isPlaying) && engine.tempo == old(engine.tempo)
      ensures engine.onScheduleStep == old(engine.onScheduleStep)
      ensures engine.loopStart == old(engine.loopStart) && engine.loopEnd == old(engine.loopEnd)
    {
      if |currentNotes| == 0 {
        return;
      }
      var index := NoteIndex(mode, |currentNotes|, step, roll);
      engine.Record(PlayNote(currentNotes[index], when, noteLength));
    }

    /** The callback `ngOnInit` registers: plays only while enabled. */
    method OnScheduleStep(step: nat, when: real, roll: nat)
      requires |currentNotes| == 0 || roll < |currentNotes|
      modifies engine
      ensures engine.calls == old(engine.calls) +
                (if isEnabled then StepCall(currentNotes, mode, step, when, noteLength, roll) else [])
      ensures engine.isPlaying == old(engine.isPlaying) && engine.tempo == old(engine.tempo)
      ensures engine.onScheduleStep == old(engine.onScheduleStep)
      ensures engine.loopStart == old(engine.loopStart) && engine.loopEnd == old(engine.loopEnd)
    {
      if isEnabled {
        PlayArpeggiatedNote(step, when, roll);
      }
    }

    /** `setNotes`: replaces the chord only when every field is a number. */
    method SetNotes(text: string)
      modifies this
      ensures currentNotes == ParseNoteList(text).GetOr(old(currentNotes))
      ensures |old(currentNotes)| > 0 ==> |currentNotes| > 0
      ensures mode == old(mode) && noteLength == old(noteLength) && isEnabled == old(isEnabled)
    {
      var parsed := ParseNoteList(text);
      if parsed.Some? {
        currentNotes := parsed.value;
      }
    }
  }
}
