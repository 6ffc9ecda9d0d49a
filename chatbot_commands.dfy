/**
 * The chat assistant's command table (`COMMANDS`): each command's name, the
 * names of the parameters it declares, and what its `execute` does with the
 * parameters it is given: a call into the chat component, or an
 * `appCommand` emission whose action is the command's own name.
 */
module ChatbotCommands {
  import opened Wrappers
  import opened Text

  /** What `execute` does. Component calls are I/O and appear here only as
    * the call and its arguments. */
  datatype Body =
    | SendGoogleSearchQuery | SendDeepQuery | StartAudioTranscription | SendGoogleMapsQuery
    | AnalyzeImage | AnalyzeVideo | StudyTrack | ResearchArtist | MimicStyle
    | ViewKnowledgeBase | UpdateCoreTrends
    /** `appCommand.emit({action, parameters})`, forwarding the declared parameters. */
    | Emit(action: string)

  datatype Command = Command(name: string, params: seq<string>, body: Body)

  /** The observable effect of running a command on a parameter record; a
    * parameter the record lacks is `undefined`, written `None`. */
  datatype Effect =
    | Call(body: Body, args: seq<Option<string>>)
    | AppCommand(action: string, parameters: map<string, Option<string>>)

  /** The prompt ANALYZE_IMAGE always passes with the url. */
  const IMAGE_PROMPT: string := "Describe this image for a music video concept."

  const COMMANDS: seq<Command> := [
    Command("SEARCH", ["query"], SendGoogleSearchQuery),
    Command("DEEP", ["query"], SendDeepQuery),
    Command("TRANSCRIBE", [], StartAudioTranscription),
    Command("MAP", ["location"], SendGoogleMapsQuery),
    Command("FIND_ON_MAP", ["location"], SendGoogleMapsQuery),
    Command("SET_THEME", ["themeName"], Emit("SET_THEME")),
    Command("GENERATE_IMAGE", ["prompt"], Emit("GENERATE_IMAGE")),
    Command("GENERATE_VIDEO", ["prompt"], Emit("GENERATE_VIDEO")),
    Command("ANALYZE_IMAGE", ["url"], AnalyzeImage),
    Command("ANALYZE_VIDEO", ["track", "prompt"], AnalyzeVideo),
    Command("FIND_ARTISTS", ["query"], Emit("FIND_ARTISTS")),
    Command("VIEW_ARTIST_PROFILE", ["name"], Emit("VIEW_ARTIST_PROFILE")),
    Command("ENTER_HUB", [], Emit("ENTER_HUB")),
    Command("LAUNCH_GAME", ["gameId"], Emit("LAUNCH_GAME")),
    Command("PLAYER_CONTROL", ["action"], Emit("PLAYER_CONTROL")),
    Command("TOGGLE_STUDIO_TOOL", ["tool"], Emit("TOGGLE_STUDIO_TOOL")),
    Command("VIEW_STRATEGY", [], Emit("VIEW_STRATEGY")),
    Command("SET_DISTRIBUTION", ["status"], Emit("SET_DISTRIBUTION")),
    Command("STUDY", ["trackId"], StudyTrack),
    Command("RESEARCH", ["artist"], ResearchArtist),
    Command("MIMIC", ["style"], MimicStyle),
    Command("KNOWLEDGE", [], ViewKnowledgeBase),
    Command("TRENDS", [], UpdateCoreTrends)
  ]

  /** `isExecutingCommand`'s initial value. */
  const INITIAL_EXECUTING: bool := false

  /** `params.key`: the value, or `undefined`. */
  function Get(params: map<string, string>, key: string): (r: Option<string>)
    ensures r.Some? <==> key in params
    ensures r.Some? ==> r.value == params[key]
  {
    if key in params then Some(params[key]) else None
  }

  /** What `execute(params, component)` does. The component methods read the
    * parameter names written literally in each entry, which are the
    * parameters the entry declares. */
  function Execute(c: Command, params: map<string, string>): Effect {
    match c.body
    case SendGoogleSearchQuery => Call(c.body, [Get(params, "query")])
    case SendDeepQuery => Call(c.body, [Get(params, "query")])
    case StartAudioTranscription => Call(c.body, [])
    case SendGoogleMapsQuery => Call(c.body, [Get(params, "location")])
    case AnalyzeImage => Call(c.body, [Get(params, "url"), Some(IMAGE_PROMPT)])
    case AnalyzeVideo => Call(c.body, [Get(params, "track"), Get(params, "prompt")])
    case StudyTrack => Call(c.body, [Get(params, "trackId")])
    case ResearchArtist => Call(c.body, [Get(params, "artist")])
    case MimicStyle => Call(c.body, [Get(params, "style")])
    case ViewKnowledgeBase => Call(c.body, [])
    case UpdateCoreTrends => Call(c.body, [])
    case Emit(action) => AppCommand(action, map k | k in c.params :: Get(params, k))
  }

  /** `COMMANDS.find(c => c.name === name)`. */
  function FindCommand(commands: seq<Command>, name: string): (r: Option<Command>)
    ensures r.Some? ==> r.value in commands && r.value.name == name
    ensures r.None? <==> forall c :: c in commands ==> c.name != name
  {
    if |commands| == 0 then None
    else if commands[0].name == name then Some(commands[0])
    else FindCommand(commands[1..], name)
  }

  predicate DistinctNames(commands: seq<Command>) {
    forall i, j :: 0 <= i < j < |commands| ==> commands[i].name != commands[j].name
  }

  /** A fingerprint of a name: its length, first and last character. Equal
    * names have equal fingerprints, so distinct fingerprints mean distinct names. */
  function Signature(s: string): (int, char, char)
    requires |s| > 0
  {
    (|s|, s[0], s[|s| - 1])
  }

  /** The fingerprints of the 23 names, in table order. */
  const SIGNATURES: seq<(int, char, char)> := [
    (6, 'S', 'H'), (4, 'D', 'P'), (10, 'T', 'E'), (3, 'M', 'P'), (11, 'F', 'P'), (9, 'S', 'E'),
    (14, 'G', 'E'), (14, 'G', 'O'), (13, 'A', 'E'), (13, 'A', 'O'), (12, 'F', 'S'), (19, 'V', 'E'),
    (9, 'E', 'B'), (11, 'L', 'E'), (14, 'P', 'L'), (18, 'T', 'L'), (13, 'V', 'Y'), (16, 'S', 'N'),
    (5, 'S', 'Y'), (8, 'R', 'H'), (5, 'M', 'C'), (9, 'K', 'E'), (6, 'T', 'S')]

  /** Every name is non-empty and has the listed fingerprint. */
  lemma TableSignatures()
    ensures |COMMANDS| == |SIGNATURES| == 23
    ensures forall k :: 0 <= k < |COMMANDS| ==> |COMMANDS[k].name| > 0 && Signature(COMMANDS[k].name) == SIGNATURES[k]
  {
    TableNames();
  }

  lemma SignaturesDistinct()
    ensures forall i, j :: 0 <= i < j < |SIGNATURES| ==> SIGNATURES[i] != SIGNATURES[j]
  {
  }

  /** The 23 names are pairwise distinct. */
  lemma NamesDistinct()
    ensures |COMMANDS| == 23
    ensures DistinctNames(COMMANDS)
  {
    TableSignatures();
    SignaturesDistinct();
    forall i, j | 0 <= i < j < |COMMANDS| ensures COMMANDS[i].name != COMMANDS[j].name {
      assert Signature(COMMANDS[i].name) != Signature(COMMANDS[j].name);
    }
  }

  /** No lower-case ASCII letter occurs. */
  predicate NoLowerCase(s: string) {
    forall i :: 0 <= i < |s| ==> !('a' <= s[i] <= 'z')
  }

  lemma NoLowerCaseIsUpper(s: string)
    requires NoLowerCase(s)
    ensures ToUpper(s) == s
  {
  }

  /** The names, in table order. */
  function Names(commands: seq<Command>): (r: seq<string>)
    ensures |r| == |commands| && forall i :: 0 <= i < |commands| ==> r[i] == commands[i].name
  {
    seq(|commands|, i requires 0 <= i < |commands| => commands[i].name)
  }

  lemma TableNames()
    ensures Names(COMMANDS) == [
      "SEARCH", "DEEP", "TRANSCRIBE", "MAP", "FIND_ON_MAP", "SET_THEME", "GENERATE_IMAGE",
      "GENERATE_VIDEO", "ANALYZE_IMAGE", "ANALYZE_VIDEO", "FIND_ARTISTS", "VIEW_ARTIST_PROFILE",
      "ENTER_HUB", "LAUNCH_GAME", "PLAYER_CONTROL", "TOGGLE_STUDIO_TOOL", "VIEW_STRATEGY",
      "SET_DISTRIBUTION", "STUDY", "RESEARCH", "MIMIC", "KNOWLEDGE", "TRENDS"]
  {
  }

  /** Every name is already upper-case. */
  lemma NamesUpperCase()
    ensures forall k :: 0 <= k < |COMMANDS| ==> ToUpper(COMMANDS[k].name) == COMMANDS[k].name
  {
    TableNames();
    NoLowerCaseGroup0();
    NoLowerCaseGroup1();
    NoLowerCaseGroup2();
    NoLowerCaseGroup3();
    NoLowerCaseGroup4();
    forall k | 0 <= k < |COMMANDS| ensures ToUpper(COMMANDS[k].name) == COMMANDS[k].name {
      assert NoLowerCase(Names(COMMANDS)[k]);
      NoLowerCaseIsUpper(COMMANDS[k].name);
    }
  }

  lemma NoLowerCaseGroup0()
    ensures NoLowerCase("SEARCH") && NoLowerCase("DEEP") && NoLowerCase("TRANSCRIBE") && NoLowerCase("MAP") && NoLowerCase("FIND_ON_MAP")
  {
  }

  lemma NoLowerCaseGroup1()
    ensures NoLowerCase("SET_THEME") && NoLowerCase("GENERATE_IMAGE") && NoLowerCase("GENERATE_VIDEO") && NoLowerCase("ANALYZE_IMAGE") && NoLowerCase("ANALYZE_VIDEO")
  {
  }

  lemma NoLowerCaseGroup2()
    ensures NoLowerCase("FIND_ARTISTS") && NoLowerCase("VIEW_ARTIST_PROFILE") && NoLowerCase("ENTER_HUB") && NoLowerCase("LAUNCH_GAME") && NoLowerCase("PLAYER_CONTROL")
  {
  }

  lemma NoLowerCaseGroup3()
    ensures NoLowerCase("TOGGLE_STUDIO_TOOL") && NoLowerCase("VIEW_STRATEGY") && NoLowerCase("SET_DISTRIBUTION") && NoLowerCase("STUDY") && NoLowerCase("RESEARCH")
  {
  }

  lemma NoLowerCaseGroup4()
    ensures NoLowerCase("MIMIC") && NoLowerCase("KNOWLEDGE") && NoLowerCase("TRENDS")
  {
  }

  /** With distinct names, the lookup by a command's name finds that command. */
  lemma {:induction false} FindByOwnName(commands: seq<Command>, k: nat)
    requires DistinctNames(commands) && k < |commands|
    ensures FindCommand(commands, commands[k].name) == Some(commands[k])
  {
    if k > 0 {
      assert commands[0].name != commands[k].name;
      var tail := commands[1..];
      assert tail[k - 1] == commands[k];
      assert DistinctNames(tail) by {
        forall i, j | 0 <= i < j < |tail| ensures tail[i].name != tail[j].name {
          assert tail[i] == commands[i + 1] && tail[j] == commands[j + 1];
        }
      }
      FindByOwnName(tail, k - 1);
    }
  }

  /** The upper-cased lookup reaches every command: its name typed as
    * written, or in any letter case that upper-cases to it, finds it. */
  lemma EveryCommandReachable(k: nat, typed: string)
    requires k < |COMMANDS|
    ensures FindCommand(COMMANDS, ToUpper(COMMANDS[k].name)) == Some(COMMANDS[k])
    ensures ToUpper(typed) == COMMANDS[k].name ==> FindCommand(COMMANDS, ToUpper(typed)) == Some(COMMANDS[k])
  {
    NamesDistinct();
    FindByOwnName(COMMANDS, k);
    NamesUpperCase();
  }

  /** Exactly TRANSCRIBE, ENTER_HUB, VIEW_STRATEGY, KNOWLEDGE and TRENDS
    * declare no parameters. */
  lemma ParameterlessCommands()
    ensures forall k :: 0 <= k < |COMMANDS| ==> (COMMANDS[k].params == [] <==> k in {2, 12, 16, 21, 22})
    ensures COMMANDS[2].name == "TRANSCRIBE" && COMMANDS[12].name == "ENTER_HUB"
    ensures COMMANDS[16].name == "VIEW_STRATEGY" && COMMANDS[21].name == "KNOWLEDGE" && COMMANDS[22].name == "TRENDS"
  {
  }

  /** ANALYZE_VIDEO is the only command with more than one parameter; it
    * declares exactly `track` then `prompt`. */
  lemma OnlyAnalyzeVideoTakesTwo()
    ensures forall k :: 0 <= k < |COMMANDS| ==> (|COMMANDS[k].params| > 1 <==> k == 9)
    ensures COMMANDS[9].name == "ANALYZE_VIDEO" && COMMANDS[9].params == ["track", "prompt"]
  {
  }

  /** FIND_ON_MAP is an alias for MAP: same parameter, same effect on every
    * parameter record. */
  lemma FindOnMapIsMap(params: map<string, string>)
    ensures COMMANDS[3].name == "MAP" && COMMANDS[4].name == "FIND_ON_MAP"
    ensures COMMANDS[3].params == COMMANDS[4].params == ["location"]
    ensures Execute(COMMANDS[3], params) == Execute(COMMANDS[4], params)
  {
  }

  /** The action each emitting entry names is the entry's own name. */
  lemma EmitActionsAreNames()
    ensures forall k :: 0 <= k < |COMMANDS| && COMMANDS[k].body.Emit? ==> COMMANDS[k].body.action == COMMANDS[k].name
  {
  }

  /** Every emitting command emits its own name as the action, forwarding
    * exactly the parameters it declares (none for ENTER_HUB and VIEW_STRATEGY). */
  lemma EmittedActionIsName(k: nat, params: map<string, string>)
    requires k < |COMMANDS| && COMMANDS[k].body.Emit?
    ensures Execute(COMMANDS[k], params) == AppCommand(COMMANDS[k].name, map p | p in COMMANDS[k].params :: Get(params, p))
    ensures COMMANDS[k].params == [] ==> Execute(COMMANDS[k], params).parameters == map[]
  {
    EmitActionsAreNames();
  }
}
