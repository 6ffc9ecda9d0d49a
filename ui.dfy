/**
 * The shell's view and theme state (`UIService`): the main view cycled
 * through thirteen views, a theme picked by case-insensitive name, and the
 * chat panel's open flag.
 */
module Ui {
  import opened Wrappers
  import opened Text

  /** Every main view the application knows (`MainViewMode`). */
  datatype ViewMode =
    | Hub | Studio | Player | Dj | PianoRoll | ImageEditor | VideoEditor | Networking
    | Profile | ThaSpot | Login | Projects | RemixArena | ImageVideoLab | Strategy

  /** The views the toggle cycles through, in order; 'login' and 'strategy'
    * are not among them. */
  const VIEW_MODES: seq<ViewMode> := [
    Hub, Studio, Player, Dj, PianoRoll, ImageEditor, VideoEditor, Networking,
    Profile, Projects, RemixArena, ThaSpot, ImageVideoLab
  ]

  const VIEW_COUNT: nat := 13

  datatype Theme = Theme(
    name: string, primary: string, accent: string, neutral: string,
    purple: string, red: string, blue: string)

  const THEMES: seq<Theme> := [
    Theme("Cyberpunk", "cyan", "pink", "gray", "purple", "red", "blue"),
    Theme("Vintage", "orange", "teal", "stone", "purple", "red", "blue"),
    Theme("8-Bit", "lime", "yellow", "slate", "purple", "red", "blue")
  ]

  /** The index after one toggle. */
  function NextIndex(i: nat): (r: nat)
    requires i < VIEW_COUNT
    ensures r < VIEW_COUNT
    ensures r == if i == VIEW_COUNT - 1 then 0 else i + 1
  {
    (i + 1) % VIEW_COUNT
  }

  /** The index after `k` toggles. */
  function Toggles(i: nat, k: nat): (r: nat)
    requires i < VIEW_COUNT
    ensures r < VIEW_COUNT
    decreases k
  {
    if k == 0 then i else Toggles(NextIndex(i), k - 1)
  }

  /** `k` toggles advance the index by `k` modulo 13. */
  lemma {:induction false} TogglesAdvance(i: nat, k: nat)
    requires i < VIEW_COUNT
    ensures Toggles(i, k) == (i + k) % VIEW_COUNT
    decreases k
  {
    if k > 0 {
      TogglesAdvance(NextIndex(i), k - 1);
      if i == VIEW_COUNT - 1 {
        assert (i + k) % VIEW_COUNT == (k - 1) % VIEW_COUNT by {
          assert i + k == (k - 1) + VIEW_COUNT;
        }
      }
    }
  }

  /** Thirteen toggles come back to the same view. */
  lemma ThirteenTogglesReturn(i: nat)
    requires i < VIEW_COUNT
    ensures Toggles(i, VIEW_COUNT) == i
  {
    TogglesAdvance(i, VIEW_COUNT);
    assert (i + VIEW_COUNT) % VIEW_COUNT == i;
  }

  /** The view shown starts as 'tha-spot', but the index starts at 0, so the
    * first toggle shows 'studio' (the view after 'hub'), not the view after
    * 'tha-spot'. */
  lemma FirstToggleShowsStudio()
    ensures VIEW_MODES[NextIndex(0)] == Studio
    ensures VIEW_MODES[NextIndex(11)] == ImageVideoLab && VIEW_MODES[11] == ThaSpot
  {
  }

  /** `THEMES.find(t => t.name.toLowerCase() === name.toLowerCase())`. */
  function FindTheme(themes: seq<Theme>, name: string): (r: Option<Theme>)
    ensures r.Some? ==> r.value in themes && ToLower(r.value.name) == ToLower(name)
    ensures r.None? <==> forall t :: t in themes ==> ToLower(t.name) != ToLower(name)
  {
    if |themes| == 0 then None
    else if ToLower(themes[0].name) == ToLower(name) then Some(themes[0])
    else FindTheme(themes[1..], name)
  }

  /** Upper-casing and lower-casing a name agree after lower-casing. */
  lemma LowerOfUpper(s: string)
    ensures ToLower(ToUpper(s)) == ToLower(s)
  {
    forall i | 0 <= i < |s| ensures LowerChar(UpperChar(s[i])) == LowerChar(s[i]) {
    }
  }

  /** The lower-cased names of the three themes. */
  lemma ThemeLowerNames()
    ensures ToLower(THEMES[0].name) == "cyberpunk"
    ensures ToLower(THEMES[1].name) == "vintage"
    ensures ToLower(THEMES[2].name) == "8-bit"
  {
  }

  /** Any name whose lower-case form is a theme's lower-cased name finds that theme. */
  lemma ThemeFoundByLowerName(i: nat, name: string)
    requires i < |THEMES| && ToLower(name) == ToLower(THEMES[i].name)
    ensures FindTheme(THEMES, name) == Some(THEMES[i])
  {
    ThemeLowerNames();
    assert THEMES[1..][1..] == [THEMES[2]];
  }

  /** Each built-in theme is found by its own name in any letter case:
    * as written, all lower-case or all upper-case. */
  lemma EveryThemeFound(i: nat)
    requires i < |THEMES|
    ensures FindTheme(THEMES, THEMES[i].name) == Some(THEMES[i])
    ensures FindTheme(THEMES, ToLower(THEMES[i].name)) == Some(THEMES[i])
    ensures FindTheme(THEMES, ToUpper(THEMES[i].name)) == Some(THEMES[i])
  {
    var name := THEMES[i].name;
    ThemeFoundByLowerName(i, name);
    assert ToLower(ToLower(name)) == ToLower(name);
    ThemeFoundByLowerName(i, ToLower(name));
    LowerOfUpper(name);
    ThemeFoundByLowerName(i, ToUpper(name));
  }

  class UIService {
    var mainViewMode: ViewMode
    var activeTheme: Theme
    var showEqPanel: bool
    var showChatbot: bool
    var isChatbotOpen: bool
    var visualIntensity: real
    var currentViewIndex: nat

    predicate Valid()
      reads this
    {
      currentViewIndex < VIEW_COUNT
    }

    constructor()
      ensures Valid()
      ensures mainViewMode == ThaSpot && activeTheme == THEMES[0] && activeTheme.name == "Cyberpunk"
      ensures !showEqPanel && !showChatbot && !isChatbotOpen && visualIntensity == 0.0
      ensures currentViewIndex == 0
    {
      mainViewMode := ThaSpot;
      activeTheme := THEMES[0];
      showEqPanel := false;
      showChatbot := false;
      isChatbotOpen := false;
      visualIntensity := 0.0;
      currentViewIndex := 0;
    }

    /** `toggleMainViewMode`: advance the index modulo 13 and show that view. */
    method ToggleMainViewMode()
      requires Valid()
      modifies this
      ensures Valid()
      ensures currentViewIndex == NextIndex(old(currentViewIndex))
      ensures mainViewMode == VIEW_MODES[currentViewIndex]
      ensures activeTheme == old(activeTheme) && isChatbotOpen == old(isChatbotOpen)
      ensures showChatbot == old(showChatbot) && showEqPanel == old(showEqPanel)
    {
      currentViewIndex := NextIndex(currentViewIndex);
      mainViewMode := VIEW_MODES[currentViewIndex];
    }

    /** `toggleChatbot`: only the open flag flips. */
    method ToggleChatbot()
      modifies this
      ensures isChatbotOpen == !old(isChatbotOpen)
      ensures showChatbot == old(showChatbot) && mainViewMode == old(mainViewMode)
      ensures activeTheme == old(activeTheme) && currentViewIndex == old(currentViewIndex)
    {
      isChatbotOpen := !isChatbotOpen;
    }

    /** `randomizeTheme`, with `Math.floor(Math.random() * 3)` passed in as `pick`. */
    method RandomizeTheme(pick: nat)
      requires pick < |THEMES|
      modifies this
      ensures activeTheme == THEMES[pick]
      ensures mainViewMode == old(mainViewMode) && isChatbotOpen == old(isChatbotOpen)
      ensures currentViewIndex == old(currentViewIndex)
    {
      activeTheme := THEMES[pick];
    }

    /** `setTheme`: the first theme whose name matches ignoring case; an
      * unknown name leaves the theme as it was. */
    method SetTheme(name: string)
      modifies this
      ensures activeTheme == FindTheme(THEMES, name).GetOr(old(activeTheme))
      ensures mainViewMode == old(mainViewMode) && isChatbotOpen == old(isChatbotOpen)
      ensures currentViewIndex == old(currentViewIndex)
    {
      var found := FindTheme(THEMES, name);
      if found.Some? {
        activeTheme := found.value;
      }
    }
  }
}
