/**
 * The two DJ decks (`DeckService`): each deck's state record, toggled
 * between playing and paused and loaded with a decoded file, with the
 * matching engine calls.
 */
module Decks {
  import opened Engine

  datatype DeckTrack = DeckTrack(name: string, url: string, artist: string, albumArtUrl: string)

  datatype DeckState = DeckState(
    track: DeckTrack, isPlaying: bool, progress: real, duration: real, playbackRate: real,
    filterFreq: real, loop: bool, gain: real, eqHigh: real, eqMid: real, eqLow: real,
    wasPlayingBeforeScratch: bool)

  datatype CrossfadeCurve = Linear | Power | Exp | Cut

  /** The empty deck both decks start from (`initialDeckState`, rate 1). */
  const INITIAL_DECK: DeckState := DeckState(
    DeckTrack("NO SIGNAL", "", "Load a track into deck", "https://picsum.photos/seed/placeholder/500/500"),
    false, 0.0, 0.0, 1.0, 20000.0, false, 50.0, 50.0, 50.0, 50.0, false)

  /** The state after `togglePlay`: only the playing flag flips. */
  function Toggled(d: DeckState): (r: DeckState)
    ensures r.isPlaying != d.isPlaying
    ensures r.(isPlaying := d.isPlaying) == d
  {
    d.(isPlaying := !d.isPlaying)
  }

  lemma ToggleTwiceRestores(d: DeckState)
    ensures Toggled(Toggled(d)) == d
  {
  }

  /** The state after `loadDeckBuffer`: the file name becomes the track name,
    * the url is cleared and the duration is the buffer's; nothing else moves. */
  function Loaded(d: DeckState, fileName: string, duration: real): (r: DeckState)
    ensures r.track.name == fileName && r.track.url == "" && r.duration == duration
    ensures r.track.artist == d.track.artist && r.track.albumArtUrl == d.track.albumArtUrl
    ensures r.(track := d.track, duration := d.duration) == d
  {
    d.(track := d.track.(name := fileName, url := ""), duration := duration)
  }

  /** The engine call `togglePlay` makes for a deck in state `d`. */
  function ToggleCall(deck: DeckId, d: DeckState): (c: EngineCall)
    ensures c == PauseDeck(deck) <==> d.isPlaying
    ensures c == PlayDeck(deck) <==> !d.isPlaying
  {
    if d.isPlaying then PauseDeck(deck) else PlayDeck(deck)
  }

  class DeckService {
    var deckA: DeckState
    var deckB: DeckState
    var crossfade: real
    var xfCurve: CrossfadeCurve
    var hamster: bool
    const engine: AudioEngine

    constructor(engine: AudioEngine)
      ensures this.engine == engine
      ensures deckA == INITIAL_DECK && deckB == INITIAL_DECK
      ensures deckA.playbackRate == 1.0 && !deckA.isPlaying
      ensures crossfade == 0.0 && xfCurve == Linear && !hamster
    {
      this.engine := engine;
      deckA := INITIAL_DECK.(playbackRate := 1.0);
      deckB := INITIAL_DECK.(playbackRate := 1.0);
      crossfade := 0.0;
      xfCurve := Linear;
      hamster := false;
    }

    function Deck(deck: DeckId): DeckState
      reads this
    {
      if deck == DeckA then deckA else deckB
    }

    /** `togglePlay`: pauses a playing deck, plays a stopped one, and flips
      * that deck's flag; the other deck is untouched. */
    method TogglePlay(deck: DeckId)
      modifies this, engine
      ensures Deck(deck) == Toggled(old(Deck(deck)))
      ensures deck == DeckA ==> deckB == old(deckB)
      ensures deck == DeckB ==> deckA == old(deckA)
      ensures engine.calls == old(engine.calls) + [ToggleCall(deck, old(Deck(deck)))]
      ensures crossfade == old(crossfade) && xfCurve == old(xfCurve) && hamster == old(hamster)
      ensures engine.isPlaying == old(engine.isPlaying) && engine.tempo == old(engine.tempo)
      ensures engine.onScheduleStep == old(engine.onScheduleStep)
    {
      var state := Deck(deck);
      engine.Record(ToggleCall(deck, state));
      if deck == DeckA {
        deckA := Toggled(state);
      } else {
        deckB := Toggled(state);
      }
    }

    /** `loadDeckBuffer`: hands the buffer to the engine and records its name
      * and duration on that deck. */
    method LoadDeckBuffer(deck: DeckId, duration: real, fileName: string)
      modifies this, engine
      ensures Deck(deck) == Loaded(old(Deck(deck)), fileName, duration)
      ensures deck == DeckA ==> deckB == old(deckB)
      ensures deck == DeckB ==> deckA == old(deckA)
      ensures engine.calls == old(engine.calls) + [EngineCall.LoadDeckBuffer(deck, duration)]
      ensures crossfade == old(crossfade) && xfCurve == old(xfCurve) && hamster == old(hamster)
      ensures engine.isPlaying == old(engine.isPlaying) && engine.tempo == old(engine.tempo)
      ensures engine.onScheduleStep == old(engine.onScheduleStep)
    {
      engine.Record(EngineCall.LoadDeckBuffer(deck, duration));
      if deck == DeckA {
        deckA := Loaded(deckA, fileName, duration);
      } else {
        deckB := Loaded(deckB, fileName, duration);
      }
    }
  }
}
