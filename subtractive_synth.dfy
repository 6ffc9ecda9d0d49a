/**
 * The subtractive synthesizer (`SubtractiveSynth`): one oscillator and gain
 * per sounding note, kept in a map from MIDI note to voice, all fed through
 * one shared low-pass filter.
 */
module SubtractiveSynth {
  import opened Engine
  import opened Envelope

  /** An oscillator node: its waveform and pitch are fixed when it is made;
    * it is started once and may be scheduled to stop. */
  class Oscillator {
    const wave: Waveform
    const midi: int
    var started: bool
    var stopAt: real
    var stopScheduled: bool

    constructor(wave: Waveform, midi: int)
      ensures this.wave == wave && this.midi == midi && !started && !stopScheduled
    {
      this.wave := wave;
      this.midi := midi;
      started := false;
      stopAt := 0.0;
      stopScheduled := false;
    }

    method Start()
      modifies this
      ensures started && stopScheduled == old(stopScheduled) && stopAt == old(stopAt)
    {
      started := true;
    }

    method StopAt(t: real)
      modifies this
      ensures stopScheduled && stopAt == t && started == old(started)
    {
      stopScheduled := true;
      stopAt := t;
    }
  }

  datatype Voice = Voice(oscillator: Oscillator, gain: GainParam)

  /** How long after the release starts the oscillator is stopped. */
  const STOP_DELAY: real := 0.5

  const FILTER_START: real := 20000.0

  /** A voice played at `start` and stopped once its attack and decay are
    * over is released from the sustain level its velocity reached, whatever
    * the gain's intrinsic value. */
  lemma StoppedAfterDecayHoldsSustain(start: real, velocity: real, attack: real, decay: real,
                                      sustain: real, intrinsic: real, now: real)
    requires attack >= 0.0 && decay >= 0.0 && start + attack + decay <= now
    ensures ValueAt(AttackEvents(start, velocity, attack, decay, sustain), intrinsic, now) == sustain * Peak(velocity)
  {
    assert CancelFrom([], start) + AttackEvents(start, velocity, attack, decay, sustain)
           == AttackEvents(start, velocity, attack, decay, sustain);
    SustainHolds([], intrinsic, start, velocity, attack, decay, sustain, now);
  }

  class Synth {
    var voices: map<int, Voice>
    var oscillatorType: Waveform
    /** The shared filter is always a low-pass; only its frequency changes. */
    var filterCutoff: real
    const envelope: ADSREnvelope

    constructor()
      ensures voices == map[] && oscillatorType == Sawtooth && filterCutoff == FILTER_START
      ensures fresh(envelope)
      ensures envelope.attack == 0.01 && envelope.decay == 0.2
      ensures envelope.sustain == 0.8 && envelope.release == 0.5
    {
      voices := map[];
      oscillatorType := Sawtooth;
      filterCutoff := FILTER_START;
      envelope := new ADSREnvelope(0.01, 0.2, 0.8, 0.5);
    }

    /** `play`: a new oscillator of the current type and a new gain driven by
      * the envelope, stored under the note. A voice already stored under that
      * note is replaced without being stopped: its oscillator keeps running,
      * and the note's entry no longer refers to it. */
    method Play(note: int, velocity: real, now: real)
      modifies this
      ensures note in voices && fresh(voices[note].oscillator) && fresh(voices[note].gain)
      ensures voices[note].oscillator.wave == oscillatorType && voices[note].oscillator.midi == note
      ensures voices[note].oscillator.started && !voices[note].oscillator.stopScheduled
      ensures voices[note].gain.value == 1.0
      ensures voices[note].gain.events == AttackEvents(now, velocity, envelope.attack, envelope.decay, envelope.sustain)
      ensures voices - {note} == old(voices) - {note}
      ensures oscillatorType == old(oscillatorType) && filterCutoff == old(filterCutoff)
      ensures note in old(voices) ==>
                var prev := old(voices[note]).oscillator;
                prev != voices[note].oscillator &&
                prev.started == old(prev.started) && prev.stopScheduled == old(prev.stopScheduled)
    {
      var oscillator := new Oscillator(oscillatorType, note);
      var gain := new GainParam(1.0);
      envelope.Apply(gain, velocity, now);
      assert CancelFrom([], now) == [];
      oscillator.Start();
      voices := voices[note := Voice(oscillator, gain)];
    }

    /** `stop`: releases the note's envelope from the level its gain has
      * reached at `now`, stops its oscillator half a second later and forgets
      * it. An unmapped note changes nothing. */
    method Stop(note: int, now: real)
      modifies this
      modifies if note in voices then {voices[note].oscillator, voices[note].gain} else {}
      ensures voices == old(voices) - {note}
      ensures oscillatorType == old(oscillatorType) && filterCutoff == old(filterCutoff)
      ensures note in old(voices) ==>
                var v := old(voices[note]);
                v.oscillator.stopScheduled && v.oscillator.stopAt == now + STOP_DELAY &&
                v.gain.events == CancelFrom(old(v.gain.events), now) + ReleaseEvents(now, ValueAt(old(v.gain.events), old(v.gain.value), now), envelope.release)
    {
      if note in voices {
        var v := voices[note];
        envelope.ReleaseEnvelope(v.gain, now);
        v.oscillator.StopAt(now + STOP_DELAY);
        voices := map k | k in voices && k != note :: voices[k];
      }
    }

    /** `setFilterCutoff`: one frequency for every voice. */
    method SetFilterCutoff(cutoff: real)
      modifies this
      ensures filterCutoff == cutoff && voices == old(voices) && oscillatorType == old(oscillatorType)
    {
      filterCutoff := cutoff;
    }

    /** `setOscillatorType`: only voices started later use the new type. */
    method SetOscillatorType(wave: Waveform)
      modifies this
      ensures oscillatorType == wave && voices == old(voices) && filterCutoff == old(filterCutoff)
    {
      oscillatorType := wave;
    }
  }
}
