/**
 * The audio engine (`AudioEngineService`) as the rest of the application sees
 * it: a tempo, a loop range, a transport flag, one `onScheduleStep` callback
 * slot and a log of the calls made on it. The scheduler, the audio graph and
 * the pitch arithmetic behind these calls are not part of this model.
 */
module Engine {

  /** Web Audio oscillator types. */
  datatype Waveform = Sine | Square | Sawtooth | Triangle

  /** The synth settings handed to `playSynth`. */
  datatype SynthPatch = SynthPatch(
    wave: Waveform, attack: real, decay: real, sustain: real, release: real, cutoff: real, q: real)

  /** The two DJ decks. */
  datatype DeckId = DeckA | DeckB

  /** Which component's closure currently sits in the single `onScheduleStep` slot. */
  datatype StepCallback = NoCallback | SequencerCallback | ArpeggiatorCallback

  /** One call into the engine. Pitches are recorded as MIDI numbers: the
    * frequency the source passes is a fixed function of them. */
  datatype EngineCall =
    | Start
    | Stop
    | PlaySynth(when: real, midi: int, dur: real, velocity: real,
                pan: real, gain: real, sendA: real, sendB: real, patch: SynthPatch)
    | PlayNote(midi: int, when: real, length: real)
    | PlayDeck(deck: DeckId)
    | PauseDeck(deck: DeckId)
    | LoadDeckBuffer(deck: DeckId, duration: real)
    | EnsureTrack(id: int, name: string, instrumentId: string, gain: real, pan: real, sendA: real, sendB: real)
    | UpdateTrack(id: int, instrumentId: string)

  class AudioEngine {
    var tempo: real
    var loopStart: int
    var loopEnd: int
    var isPlaying: bool
    var onScheduleStep: StepCallback
    var calls: seq<EngineCall>

    constructor(tempo: real, loopStart: int, loopEnd: int)
      ensures this.tempo == tempo && this.loopStart == loopStart && this.loopEnd == loopEnd
      ensures !isPlaying && onScheduleStep == NoCallback && calls == []
    {
      this.tempo := tempo;
      this.loopStart := loopStart;
      this.loopEnd := loopEnd;
      isPlaying := false;
      onScheduleStep := NoCallback;
      calls := [];
    }

    /** Records a call and changes nothing else. */
    method Record(c: EngineCall)
      modifies this
      ensures calls == old(calls) + [c]
      ensures tempo == old(tempo) && loopStart == old(loopStart) && loopEnd == old(loopEnd)
      ensures isPlaying == old(isPlaying) && onScheduleStep == old(onScheduleStep)
    {
      calls := calls + [c];
    }

    method StartTransport()
      modifies this
      ensures isPlaying && calls == old(calls) + [Start]
      ensures tempo == old(tempo) && loopStart == old(loopStart) && loopEnd == old(loopEnd)
      ensures onScheduleStep == old(onScheduleStep)
    {
      isPlaying := true;
      calls := calls + [Start];
    }

    method StopTransport()
      modifies this
      ensures !isPlaying && calls == old(calls) + [Stop]
      ensures tempo == old(tempo) && loopStart == old(loopStart) && loopEnd == old(loopEnd)
      ensures onScheduleStep == old(onScheduleStep)
    {
      isPlaying := false;
      calls := calls + [Stop];
    }
  }
}
