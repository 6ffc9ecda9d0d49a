/** The instrument presets the sequencer looks tracks up in. */
module Instruments {
  import opened Wrappers
  import opened Engine

  /** A preset plays samples or a synth patch. */
  datatype PresetKind = Sample | Synth(patch: SynthPatch)

  datatype InstrumentPreset = InstrumentPreset(id: string, name: string, kind: PresetKind)

  /** The preset list, in order. Sample zones are not modelled. */
  const PRESETS: seq<InstrumentPreset> := [
    InstrumentPreset("grand-piano", "Grand Piano", Sample),
    InstrumentPreset("acoustic-guitar", "Acoustic Guitar", Sample),
    InstrumentPreset("orchestra-strings", "Orchestra Strings", Sample),
    InstrumentPreset("synth-lead", "Synth Lead", Synth(SynthPatch(Sawtooth, 0.005, 0.08, 0.7, 0.2, 8000.0, 0.707))),
    InstrumentPreset("synth-pad", "Synth Pad", Synth(SynthPatch(Triangle, 0.2, 0.5, 0.8, 1.2, 4000.0, 0.9))),
    InstrumentPreset("kit-808", "808 Kit", Sample),
    InstrumentPreset("kit-studio", "Studio Drums", Sample)
  ]

  predicate MatchesKey(p: InstrumentPreset, key: string) {
    p.id == key || p.name == key
  }

  /** `presets.find(p => p.id === id)`: the first preset with that id. */
  function FindById(presets: seq<InstrumentPreset>, id: string): (r: Option<InstrumentPreset>)
    ensures r.None? <==> forall i :: 0 <= i < |presets| ==> presets[i].id != id
    ensures r.Some? ==> exists i :: 0 <= i < |presets| && presets[i] == r.value && r.value.id == id &&
                                    forall j :: 0 <= j < i ==> presets[j].id != id
  {
    if |presets| == 0 then None
    else if presets[0].id == id then Some(presets[0])
    else
      var r := FindById(presets[1..], id);
      assert r.Some? ==> exists i :: 0 <= i < |presets[1..]| && presets[1..][i] == r.value && r.value.id == id &&
                                    forall j :: 0 <= j < i ==> presets[1..][j].id != id;
      r
  }

  /** `presets.find(p => p.id === key || p.name === key)`. */
  function FindByKey(presets: seq<InstrumentPreset>, key: string): (r: Option<InstrumentPreset>)
    ensures r.None? <==> forall i :: 0 <= i < |presets| ==> !MatchesKey(presets[i], key)
    ensures r.Some? ==> exists i :: 0 <= i < |presets| && presets[i] == r.value && MatchesKey(r.value, key) &&
                                    forall j :: 0 <= j < i ==> !MatchesKey(presets[j], key)
  {
    if |presets| == 0 then None
    else if MatchesKey(presets[0], key) then Some(presets[0])
    else
      var r := FindByKey(presets[1..], key);
      assert r.Some? ==> exists i :: 0 <= i < |presets[1..]| && presets[1..][i] == r.value && MatchesKey(r.value, key) &&
                                    forall j :: 0 <= j < i ==> !MatchesKey(presets[1..][j], key);
      r
  }

  /** The preset `ensureTrack` uses: the first match by id or name, else presets[0]. */
  function PresetFor(presets: seq<InstrumentPreset>, key: string): (r: InstrumentPreset)
    requires |presets| > 0
    ensures r in presets
    ensures (exists i :: 0 <= i < |presets| && MatchesKey(presets[i], key)) ==> MatchesKey(r, key)
    ensures (forall i :: 0 <= i < |presets| ==> !MatchesKey(presets[i], key)) ==> r == presets[0]
  {
    FindByKey(presets, key).GetOr(presets[0])
  }

  /** No preset is called "Piano", so the track the sequencer creates at start-up gets the grand piano. */
  lemma DefaultTrackPreset()
    ensures PresetFor(PRESETS, "Piano") == PRESETS[0]
    ensures PRESETS[0].id == "grand-piano" && PRESETS[0].name == "Grand Piano" && PRESETS[0].kind == Sample
  {
    // no id or name has the five characters of "Piano"
    assert |PRESETS[0].id| == 11 && |PRESETS[0].name| == 11;
    assert |PRESETS[1].id| == 15 && |PRESETS[1].name| == 15;
    assert |PRESETS[2].id| == 17 && |PRESETS[2].name| == 17;
    assert |PRESETS[3].id| == 10 && |PRESETS[3].name| == 10;
    assert |PRESETS[4].id| == 9 && |PRESETS[4].name| == 9;
    assert |PRESETS[5].id| == 7 && |PRESETS[5].name| == 7;
    assert |PRESETS[6].id| == 10 && |PRESETS[6].name| == 12;
    assert forall i :: 0 <= i < |PRESETS| ==> !MatchesKey(PRESETS[i], "Piano");
  }
}
