/**
 * MIDI keyboard input (`InstrumentService`): classifying incoming Channel
 * Voice Messages into note-on and note-off, and switching the one input port
 * that carries this service's message handler.
 */
module MidiInput {
  import opened Wrappers

  /** What the service does with a three-byte message. */
  datatype MidiAction =
    | NoteOn(note: int, velocity: real)
    | NoteOff(note: int)
    | Ignore

  const NOTE_ON_CH1: int := 144
  const NOTE_OFF_CH1: int := 128

  /** `handleMidiMessage`: status 144 with a non-zero velocity starts the note
    * at velocity/127; status 128, or 144 with velocity 0, releases it; any
    * other status byte, including other channels, is dropped. */
  function Classify(status: int, note: int, velocity: int): (a: MidiAction)
    ensures a.NoteOn? ==> a.note == note && a.velocity == velocity as real / 127.0
    ensures a.NoteOff? ==> a.note == note
  {
    if status == NOTE_ON_CH1 && velocity > 0 then NoteOn(note, velocity as real / 127.0)
    else if status == NOTE_OFF_CH1 || (status == NOTE_ON_CH1 && velocity == 0) then NoteOff(note)
    else Ignore
  }

  // The Channel Voice Message reading of a status byte: the high nibble is the
  // message kind (8 = Note Off, 9 = Note On) and the low nibble the channel,
  // numbered from 1.

  function Kind(status: nat): nat { status / 16 }
  function Channel(status: nat): nat { status % 16 + 1 }

  /** The classification agrees with the MIDI 1.0 reading on every status
    * byte: Note On with a non-zero velocity and Note Off are acted on exactly
    * on channel 1, and Note On with velocity 0 counts as Note Off. */
  lemma ClassifyFollowsChannelVoiceMessages(status: nat, note: int, velocity: nat)
    requires status < 256
    ensures Classify(status, note, velocity).NoteOn? <==>
              Kind(status) == 9 && Channel(status) == 1 && velocity > 0
    ensures Classify(status, note, velocity).NoteOff? <==>
              Channel(status) == 1 && (Kind(status) == 8 || (Kind(status) == 9 && velocity == 0))
    ensures Classify(status, note, velocity).Ignore? <==>
              Channel(status) != 1 || (Kind(status) != 8 && Kind(status) != 9)
  {
    var k, ch := status / 16, status % 16;
    assert status == k * 16 + ch;
  }

  /** Note messages on channels 2–16 are dropped. */
  lemma OtherChannelsIgnored(status: nat, note: int, velocity: nat)
    requires status < 256 && (Kind(status) == 8 || Kind(status) == 9) && Channel(status) != 1
    ensures Classify(status, note, velocity) == Ignore
  {
    ClassifyFollowsChannelVoiceMessages(status, note, velocity);
  }

  /** Full velocity plays at gain exactly 1. */
  lemma FullVelocity(note: int)
    ensures Classify(NOTE_ON_CH1, note, 127) == NoteOn(note, 1.0)
  {
  }

  // ---------------------------------------------------------------------------
  // Input ports

  /** A browser MIDI input port: its id, and whether this service's handler
    * is installed as its `onmidimessage`. */
  class MidiPort {
    const id: string
    var hasHandler: bool

    constructor(id: string)
      ensures this.id == id && !hasHandler
    {
      this.id := id;
      hasHandler := false;
    }
  }

  function FindPort(ports: seq<MidiPort>, id: string): (r: Option<nat>)
    ensures r.Some? ==> r.value < |ports| && ports[r.value].id == id &&
                        forall j :: 0 <= j < r.value ==> ports[j].id != id
    ensures r.None? ==> forall j :: 0 <= j < |ports| ==> ports[j].id != id
  {
    if |ports| == 0 then None
    else if ports[0].id == id then Some(0)
    else match FindPort(ports[1..], id)
      case None => None
      case Some(k) => Some(k + 1)
  }

  class InstrumentService {
    var midiInputs: seq<MidiPort>
    var activeInput: MidiPort?
    /** Notes started and released on the synth, in order. */
    var played: seq<MidiAction>

    /** Only the active input carries the handler. */
    predicate HandlerOnlyOnActive()
      reads this, midiInputs, activeInput
    {
      (activeInput != null ==> activeInput.hasHandler) &&
      forall i :: 0 <= i < |midiInputs| && midiInputs[i].hasHandler ==> midiInputs[i] == activeInput
    }

    constructor()
      ensures midiInputs == [] && activeInput == null && played == []
      ensures HandlerOnlyOnActive()
    {
      midiInputs := [];
      activeInput := null;
      played := [];
    }

    /** The device list the browser reports (at start-up and on every state
      * change). The browser hands back the same port objects, so only the
      * active one carries this service's handler. */
    method SetInputs(ports: seq<MidiPort>)
      requires forall i :: 0 <= i < |ports| && ports[i].hasHandler ==> ports[i] == activeInput
      requires activeInput != null ==> activeInput.hasHandler
      modifies this
      ensures midiInputs == ports && activeInput == old(activeInput) && played == old(played)
      ensures HandlerOnlyOnActive()
    {
      midiInputs := ports;
    }

    /** `connectToMidiDevice`: an unknown id changes nothing; otherwise the
      * previous input loses the handler and the new one gets it. */
    method ConnectToMidiDevice(inputId: string)
      requires HandlerOnlyOnActive()
      modifies this, activeInput, set i | 0 <= i < |midiInputs| :: midiInputs[i]
      ensures midiInputs == old(midiInputs) && played == old(played)
      ensures HandlerOnlyOnActive()
      ensures FindPort(midiInputs, inputId).None? ==>
                activeInput == old(activeInput) &&
                (activeInput != null ==> activeInput.hasHandler == old(activeInput.hasHandler)) &&
                forall i :: 0 <= i < |midiInputs| ==> midiInputs[i].hasHandler == old(midiInputs[i].hasHandler)
      ensures FindPort(midiInputs, inputId).Some? ==>
                activeInput == midiInputs[FindPort(midiInputs, inputId).value] && activeInput.hasHandler
      ensures old(activeInput) != null && old(activeInput) != activeInput ==> !old(activeInput).hasHandler
    {
      var found := FindPort(midiInputs, inputId);
      if found.None? {
        return;
      }
      var input := midiInputs[found.value];
      if activeInput != null {
        activeInput.hasHandler := false;
      }
      activeInput := input;
      input.hasHandler := true;
    }

    /** `handleMidiMessage` on a message's first three bytes. */
    method HandleMidiMessage(status: int, note: int, velocity: int)
      modifies this
      ensures midiInputs == old(midiInputs) && activeInput == old(activeInput)
      ensures var a := Classify(status, note, velocity);
              played == old(played) + (if a.Ignore? then [] else [a])
    {
      var a := Classify(status, note, velocity);
      if !a.Ignore? {
        played := played + [a];
      }
    }
  }
}
