/**
 * The sample browser (`SampleLibraryComponent`): four built-in samples,
 * narrowed by a category and by a search term that matches a sample's name
 * ignoring case, or one of its tags.
 */
module SampleLibrary {
  import opened Wrappers
  import opened Text
  import opened Lists

  datatype Sample = Sample(id: string, name: string, category: string, duration: real, bpm: int, tags: seq<string>)

  const ALL: string := "All"
  const CATEGORIES: seq<string> := [ALL, "Drums", "Vocals", "Instruments", "Effects", "Ambient"]

  const KICK: Sample := Sample("1", "808 Kick - Deep", "Drums", 0.8, 120, ["kick", "deep", "bass"])
  const SNARE: Sample := Sample("2", "Snare Crack", "Drums", 0.3, 120, ["snare", "crack", "sharp"])
  const VOCAL: Sample := Sample("3", "Vocal Chop Loop", "Vocals", 2.0, 120, ["vocal", "loop", "chop"])
  const SWELL: Sample := Sample("4", "Synth String Swell", "Instruments", 4.0, 0, ["synth", "string", "swell"])

  /** The samples `loadSamples` installs. */
  const BUILT_IN: seq<Sample> := [KICK, SNARE, VOCAL, SWELL]

  /** `s.category === cat`, applied only when the category is not 'All'. */
  function ByCategory(samples: seq<Sample>, cat: string): (r: seq<Sample>)
    ensures forall s :: s in r <==> s in samples && s.category == cat
  {
    if |samples| == 0 then []
    else if samples[0].category == cat then [samples[0]] + ByCategory(samples[1..], cat)
    else ByCategory(samples[1..], cat)
  }

  /** `tags.some(t => t.includes(search))`; tags are compared as written. */
  predicate SomeTagContains(tags: seq<string>, search: string) {
    exists i :: 0 <= i < |tags| && Contains(tags[i], search)
  }

  /** The search test on one sample, `search` being already lower-cased. */
  predicate MatchesSearch(s: Sample, search: string) {
    Contains(ToLower(s.name), search) || SomeTagContains(s.tags, search)
  }

  function BySearch(samples: seq<Sample>, search: string): (r: seq<Sample>)
    ensures forall s :: s in r <==> s in samples && MatchesSearch(s, search)
  {
    if |samples| == 0 then []
    else if MatchesSearch(samples[0], search) then [samples[0]] + BySearch(samples[1..], search)
    else BySearch(samples[1..], search)
  }

  /** The `filteredSamples` getter. */
  function Filtered(samples: seq<Sample>, cat: string, term: string): (r: seq<Sample>)
    ensures forall s :: s in r <==>
              s in samples && (cat == ALL || s.category == cat) &&
              (term == "" || MatchesSearch(s, ToLower(term)))
  {
    var search := ToLower(term);
    var byCat := if cat != ALL then ByCategory(samples, cat) else samples;
    if search != "" then BySearch(byCat, search) else byCat
  }

  lemma {:induction false} ByCategoryKeepsOrder(samples: seq<Sample>, cat: string)
    ensures IsSubsequence(ByCategory(samples, cat), samples)
  {
    if |samples| > 0 {
      ByCategoryKeepsOrder(samples[1..], cat);
      var rest := ByCategory(samples[1..], cat);
      if samples[0].category == cat {
        assert ([samples[0]] + rest)[1..] == rest;
      }
    }
  }

  lemma {:induction false} BySearchKeepsOrder(samples: seq<Sample>, search: string)
    ensures IsSubsequence(BySearch(samples, search), samples)
  {
    if |samples| > 0 {
      BySearchKeepsOrder(samples[1..], search);
      var rest := BySearch(samples[1..], search);
      if MatchesSearch(samples[0], search) {
        assert ([samples[0]] + rest)[1..] == rest;
      }
    }
  }

  lemma {:induction false} SubsequenceTransitive<T>(xs: seq<T>, ys: seq<T>, zs: seq<T>)
    requires IsSubsequence(xs, ys) && IsSubsequence(ys, zs)
    ensures IsSubsequence(xs, zs)
    decreases |zs|
  {
    if |xs| > 0 && |zs| > 0 {
      if |ys| > 0 && ys[0] == zs[0] && IsSubsequence(ys[1..], zs[1..]) {
        if xs[0] == ys[0] && IsSubsequence(xs[1..], ys[1..]) {
          SubsequenceTransitive(xs[1..], ys[1..], zs[1..]);
        } else {
          SubsequenceTransitive(xs, ys[1..], zs[1..]);
        }
      } else {
        SubsequenceTransitive(xs, ys, zs[1..]);
      }
    }
  }

  lemma {:induction false} SubsequenceReflexive<T>(xs: seq<T>)
    ensures IsSubsequence(xs, xs)
    decreases |xs|
  {
    if |xs| > 0 {
      SubsequenceReflexive(xs[1..]);
    }
  }

  /** The filtered list keeps the samples' order: it is a subsequence of them. */
  lemma FilteredKeepsOrder(samples: seq<Sample>, cat: string, term: string)
    ensures IsSubsequence(Filtered(samples, cat, term), samples)
  {
    var search := ToLower(term);
    var byCat := if cat != ALL then ByCategory(samples, cat) else samples;
    if cat != ALL {
      ByCategoryKeepsOrder(samples, cat);
    } else {
      SubsequenceReflexive(samples);
    }
    if search != "" {
      BySearchKeepsOrder(byCat, search);
      SubsequenceTransitive(BySearch(byCat, search), byCat, samples);
    }
  }

  /** 'All' with an empty term shows every sample, in order. */
  lemma NoFilterShowsAll(samples: seq<Sample>)
    ensures Filtered(samples, ALL, "") == samples
  {
  }

  /** The term is matched ignoring its case: typing it in capitals finds the same samples. */
  lemma SearchIgnoresTermCase(samples: seq<Sample>, cat: string, term: string)
    ensures Filtered(samples, cat, ToUpper(term)) == Filtered(samples, cat, term)
  {
    var u := ToUpper(term);
    assert ToLower(u) == ToLower(term) by {
      forall i | 0 <= i < |term| ensures LowerChar(UpperChar(term[i])) == LowerChar(term[i]) {
      }
    }
  }

  /** Of the built-in samples, the category 'Drums' keeps the kick and the snare. */
  lemma DrumsAreKickAndSnare()
    ensures Filtered(BUILT_IN, "Drums", "") == [KICK, SNARE]
  {
    var drums := "Drums";
    assert |drums| == 5 && |ALL| == 3 && ToLower("") == "";
    assert BUILT_IN[1..] == [SNARE, VOCAL, SWELL] && BUILT_IN[1..][1..] == [VOCAL, SWELL];
    assert [VOCAL, SWELL][1..] == [SWELL] && [SWELL][1..] == [];
    assert |VOCAL.category| == 6 && |SWELL.category| == 11;
    assert ByCategory([SWELL], drums) == [];
    assert ByCategory([VOCAL, SWELL], drums) == [];
    assert ByCategory([SNARE, VOCAL, SWELL], drums) == [SNARE];
    assert ByCategory(BUILT_IN, drums) == [KICK, SNARE];
  }

  class SampleLibraryComponent {
    var samples: seq<Sample>
    var selectedCategory: string
    var searchTerm: string
    var isLoading: bool
    var selectedSample: Option<Sample>

    constructor()
      ensures samples == [] && selectedCategory == ALL && searchTerm == "" && !isLoading && selectedSample.None?
    {
      samples := [];
      selectedCategory := ALL;
      searchTerm := "";
      isLoading := false;
      selectedSample := None;
    }

    /** `ngOnInit` → `loadSamples`: the four built-in samples, loading over. */
    method LoadSamples()
      modifies this
      ensures samples == BUILT_IN && !isLoading
      ensures selectedCategory == old(selectedCategory) && searchTerm == old(searchTerm)
      ensures selectedSample == old(selectedSample)
    {
      isLoading := true;
      samples := BUILT_IN;
      isLoading := false;
    }

    /** The `filteredSamples` getter over the component's state. */
    function FilteredSamples(): (r: seq<Sample>)
      reads this
      ensures forall s :: s in r ==> s in samples
    {
      Filtered(samples, selectedCategory, searchTerm)
    }

    method SelectSample(s: Sample)
      modifies this
      ensures selectedSample == Some(s) && samples == old(samples)
      ensures selectedCategory == old(selectedCategory) && searchTerm == old(searchTerm)
    {
      selectedSample := Some(s);
    }
  }
}
