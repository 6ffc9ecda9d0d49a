/**
 * The chat assistant panel (`ChatbotComponent`): the message list, the
 * guard on sending, command dispatch, error reporting, and the proactive
 * advice given when the main view changes.
 */
module Chatbot {
  import opened Wrappers
  import opened Text
  import opened ChatbotCommands
  import opened Profiles
  import opened Ui
  import opened ChatParser

  // ---------------------------------------------------------------------
  // Messages and advice

  datatype Role = User | Model
  datatype ChatMessage = ChatMessage(role: Role, content: string)

  const INITIAL_MESSAGE: string :=
    "Hello. S.M.U.V.E 2.0 is online. I am the Strategic Music Utility Virtual Enhancer. I see everything in this industry. What is your request?"
  const AI_OFFLINE_MESSAGE: string :=
    "S.M.U.V.E 2.0 systems offline. Connection to the core severed. Verify your access credentials."

  const ONBOARDING_ADVICE: string :=
    "I see you're new here. To get the most out of S.M.U.V.E 2.0, I recommend filling out your Artist Profile first. It will help me give you personalized advice. You can use the command: VIEW_ARTIST_PROFILE or click the [PROFILE] button."
  const COMPLIANCE_ADVICE: string :=
    "I see your Professional Identity is incomplete. Without your PRO, MLC, and SoundExchange IDs, you are leaving money on the table. Use the VIEW_STRATEGY command and get compliant immediately."

  /** The message `handleError` shows for a context. */
  function ErrorMessage(context: string): string {
    "A problem occurred with " + context + ". Please check the console for details."
  }

  /** `messages().slice(-1)[0]?.content`. */
  function LastContent(msgs: seq<ChatMessage>): (r: Option<string>)
    ensures r.None? <==> msgs == []
  {
    if |msgs| == 0 then None else Some(msgs[|msgs| - 1].content)
  }

  // The fixed parts of the per-view advice.
  const IMAGE_EDITOR_TAIL: string :=
    " artist, what kind of visuals represent your sound? Try: GENERATE_IMAGE prompt=a surreal, retro-futuristic album cover for a "
  const PIANO_ROLL_HEAD: string := "Since your current focus is '"
  const PIANO_ROLL_TAIL: string :=
    "', I can generate a melody for you. Try: GENERATE_MELODY prompt=a dark trap melody in C minor"
  const NETWORKING_HEAD: string := "Based on your goal to '"
  const NETWORKING_TAIL: string := "', I can help find collaborators. Try the command: FIND_ARTISTS query="
  const STUDIO_ADVICE: string :=
    "The studio is armed and ready. I've enabled the new mastering tools\U{00E2}\U{20AC}\U{201D}try the 'Limiter' and 'Soft Clip' on the master bus for that radio-ready sound."
  const THA_SPOT_ADVICE: string :=
    "Welcome to Tha Spot! You can now play Hextris or Pacman directly here. Your activities will earn you Smuve Cred and level up your status."
  const STRATEGY_ADVICE: string :=
    "This is where your rollout takes shape. Check your compliance, use the calculators, and study the intel. A professional artist is an organized artist."

  /** The `switch (mode)` advice; "" for the views it does not mention. */
  function ModeAdvice(mode: ViewMode, p: UserProfile): string {
    match mode
    case ImageEditor => "As a " + p.primaryGenre + IMAGE_EDITOR_TAIL + p.primaryGenre + " track"
    case PianoRoll => PIANO_ROLL_HEAD + p.currentFocus + PIANO_ROLL_TAIL
    case Networking => NETWORKING_HEAD + Join(p.careerGoals, ", ") + NETWORKING_TAIL + p.primaryGenre + " producers"
    case Studio => STUDIO_ADVICE
    case ThaSpot => THA_SPOT_ADVICE
    case Strategy => STRATEGY_ADVICE
    case _ => ""
  }

  /** The PRO, MLC or SoundExchange id is missing or empty. */
  predicate ComplianceIncomplete(p: UserProfile) {
    !Filled(p.proName) || !Filled(p.mlcId) || !Filled(p.soundExchangeId)
  }

  /** The advice `giveContextualAdvice` settles on, before its final de-duplication. */
  function Advice(mode: ViewMode, p: UserProfile, last: Option<string>): (r: string)
    ensures p.artistName == NEW_ARTIST && mode != Profile ==> r == ONBOARDING_ADVICE
    ensures !(p.artistName == NEW_ARTIST && mode != Profile) ==>
              r == (if ComplianceIncomplete(p) && last != Some(COMPLIANCE_ADVICE) then COMPLIANCE_ADVICE
                    else ModeAdvice(mode, p))
  {
    if p.artistName == NEW_ARTIST && mode != Profile then ONBOARDING_ADVICE
    else
      var advice := ModeAdvice(mode, p);
      if ComplianceIncomplete(p) && last != Some(COMPLIANCE_ADVICE) then COMPLIANCE_ADVICE else advice
  }

  /** The final de-duplication: the advice is appended as a model message
    * only when it is non-empty and differs from the last message. */
  function Dedupe(msgs: seq<ChatMessage>, advice: string): (r: seq<ChatMessage>)
    ensures advice != "" && LastContent(msgs) != Some(advice) ==> r == msgs + [ChatMessage(Model, advice)]
    ensures advice == "" || LastContent(msgs) == Some(advice) ==> r == msgs
    ensures LastContent(r) == if advice != "" then Some(advice) else LastContent(msgs)
  {
    if advice != "" && LastContent(msgs) != Some(advice) then msgs + [ChatMessage(Model, advice)] else msgs
  }

  /** Applying the de-duplication twice with the same advice adds nothing more. */
  lemma DedupeIdempotent(msgs: seq<ChatMessage>, advice: string)
    ensures Dedupe(Dedupe(msgs, advice), advice) == Dedupe(msgs, advice)
  {
  }

  /** The message list after `giveContextualAdvice`. */
  function AdviseStep(msgs: seq<ChatMessage>, mode: ViewMode, p: UserProfile): seq<ChatMessage> {
    Dedupe(msgs, Advice(mode, p, LastContent(msgs)))
  }

  /** No view's advice is the compliance advice: the fixed ones differ in
    * length, the ones quoting the profile in their last character. */
  lemma ModeAdviceNotCompliance(mode: ViewMode, p: UserProfile)
    ensures ModeAdvice(mode, p) != COMPLIANCE_ADVICE
  {
    assert |COMPLIANCE_ADVICE| == 190 && COMPLIANCE_ADVICE[189] == '.';
    match mode {
      case ImageEditor =>
        var advice := ModeAdvice(mode, p);
        assert advice[|advice| - 1] == 'k';
      case PianoRoll =>
        var advice := ModeAdvice(mode, p);
        assert advice[|advice| - 1] == PIANO_ROLL_TAIL[|PIANO_ROLL_TAIL| - 1] == 'r';
      case Networking =>
        var advice := ModeAdvice(mode, p);
        assert advice[|advice| - 1] == 's';
      case Studio => assert |STUDIO_ADVICE| == 149;
      case ThaSpot => assert |THA_SPOT_ADVICE| == 137;
      case Strategy => assert |STRATEGY_ADVICE| == 150;
      case _ =>
    }
  }

  /** A new artist outside the profile view is onboarded once: a second
    * view change to the same view adds nothing. */
  lemma OnboardingOnce(msgs: seq<ChatMessage>, mode: ViewMode, p: UserProfile)
    requires p.artistName == NEW_ARTIST && mode != Profile
    ensures LastContent(AdviseStep(msgs, mode, p)) == Some(ONBOARDING_ADVICE)
    ensures AdviseStep(AdviseStep(msgs, mode, p), mode, p) == AdviseStep(msgs, mode, p)
  {
    DedupeIdempotent(msgs, ONBOARDING_ADVICE);
  }

  /** With an incomplete professional identity and no compliance advice
    * last, the compliance advice is given. */
  lemma ComplianceFirst(msgs: seq<ChatMessage>, mode: ViewMode, p: UserProfile)
    requires p.artistName != NEW_ARTIST && ComplianceIncomplete(p)
    requires LastContent(msgs) != Some(COMPLIANCE_ADVICE)
    ensures AdviseStep(msgs, mode, p) == msgs + [ChatMessage(Model, COMPLIANCE_ADVICE)]
  {
  }

  /** Right after the compliance advice the view's own advice is given, if
    * it has any; otherwise nothing is added. */
  lemma AfterCompliance(msgs: seq<ChatMessage>, mode: ViewMode, p: UserProfile)
    requires p.artistName != NEW_ARTIST
    requires LastContent(msgs) == Some(COMPLIANCE_ADVICE)
    ensures ModeAdvice(mode, p) != "" ==> AdviseStep(msgs, mode, p) == msgs + [ChatMessage(Model, ModeAdvice(mode, p))]
    ensures ModeAdvice(mode, p) == "" ==> AdviseStep(msgs, mode, p) == msgs
  {
    ModeAdviceNotCompliance(mode, p);
    var advice := ModeAdvice(mode, p);
    assert Advice(mode, p, LastContent(msgs)) == advice;
    assert LastContent(msgs) != Some(advice);
  }

  lemma AppendTwo(msgs: seq<ChatMessage>, a: ChatMessage, b: ChatMessage)
    ensures msgs + [a] + [b] == msgs + [a, b]
  {
  }

  /** With an incomplete professional identity, two view changes to a view
    * that has its own advice give the compliance advice and then that
    * view's advice; a view without advice gets the compliance advice once
    * and nothing more. */
  lemma ComplianceThenModeAdvice(msgs: seq<ChatMessage>, mode: ViewMode, p: UserProfile)
    requires p.artistName != NEW_ARTIST && ComplianceIncomplete(p)
    requires LastContent(msgs) != Some(COMPLIANCE_ADVICE)
    ensures ModeAdvice(mode, p) != "" ==>
              AdviseStep(AdviseStep(msgs, mode, p), mode, p) ==
              msgs + [ChatMessage(Model, COMPLIANCE_ADVICE), ChatMessage(Model, ModeAdvice(mode, p))]
    ensures ModeAdvice(mode, p) == "" ==>
              AdviseStep(AdviseStep(msgs, mode, p), mode, p) == msgs + [ChatMessage(Model, COMPLIANCE_ADVICE)]
  {
    ComplianceFirst(msgs, mode, p);
    var once := msgs + [ChatMessage(Model, COMPLIANCE_ADVICE)];
    assert LastContent(once) == Some(COMPLIANCE_ADVICE);
    AfterCompliance(once, mode, p);
    AppendTwo(msgs, ChatMessage(Model, COMPLIANCE_ADVICE), ChatMessage(Model, ModeAdvice(mode, p)));
  }

  /** Only the profile view escapes onboarding for a new artist; with a
    * complete identity the view's own advice is given. */
  lemma ModeAdviceWhenCompliant(msgs: seq<ChatMessage>, mode: ViewMode, p: UserProfile)
    requires !(p.artistName == NEW_ARTIST && mode != Profile) && !ComplianceIncomplete(p)
    ensures Advice(mode, p, LastContent(msgs)) == ModeAdvice(mode, p)
    ensures mode == Profile ==> AdviseStep(msgs, mode, p) == msgs
  {
  }

  // ---------------------------------------------------------------------
  // The component

  /** The line `sendMessage` goes on with: the input trimmed, when that is
    * not empty and the AI is available. */
  function Submitted(input: string, aiAvailable: bool): (line: Option<string>)
    ensures line.Some? <==> aiAvailable && Trim(input) != ""
    ensures line.Some? ==> line.value == Trim(input) && !IsSpace(line.value[0]) && !IsSpace(line.value[|line.value| - 1])
  {
    var message := Trim(input);
    if message == "" || !aiAvailable then None else Some(message)
  }

  class ChatbotComponent {
    var messages: seq<ChatMessage>
    var userMessage: string
    var isLoading: bool
    /** The module-wide `isExecutingCommand` signal. */
    var isExecutingCommand: bool
    var wasViewChangedByChatbot: bool
    /** What each dispatched command did, in order. */
    var effects: seq<Effect>

    /** Construction with the AI's availability: the first effect replaces
      * the messages with the offline notice when the AI is unavailable. */
    constructor(aiAvailable: bool)
      ensures messages == (if aiAvailable then [] else [ChatMessage(Model, AI_OFFLINE_MESSAGE)])
      ensures userMessage == "" && !isLoading && isExecutingCommand == INITIAL_EXECUTING
      ensures !wasViewChangedByChatbot && effects == []
    {
      messages := if aiAvailable then [] else [ChatMessage(Model, AI_OFFLINE_MESSAGE)];
      userMessage := "";
      isLoading := false;
      isExecutingCommand := INITIAL_EXECUTING;
      wasViewChangedByChatbot := false;
      effects := [];
    }

    /** `ngOnInit`: the greeting is the only message. */
    method OnInit()
      modifies this
      ensures messages == [ChatMessage(Model, INITIAL_MESSAGE)]
      ensures userMessage == old(userMessage) && isLoading == old(isLoading) && effects == old(effects)
    {
      messages := [ChatMessage(Model, INITIAL_MESSAGE)];
    }

    /** The availability effect run again: an unavailable AI replaces the
      * messages with the offline notice; an available one changes nothing. */
    method OnAiAvailability(aiAvailable: bool)
      modifies this
      ensures messages == (if aiAvailable then old(messages) else [ChatMessage(Model, AI_OFFLINE_MESSAGE)])
      ensures userMessage == old(userMessage) && isLoading == old(isLoading) && effects == old(effects)
    {
      if !aiAvailable {
        messages := [ChatMessage(Model, AI_OFFLINE_MESSAGE)];
      }
    }

    /** `sendMessage` up to its dispatch: a line that trims to nothing, or an
      * unavailable AI, changes nothing; otherwise the trimmed line is
      * appended as a user message, the input is cleared, loading starts, and
      * the trimmed line is returned for `parseCommand` and dispatch. */
    method SendMessage(aiAvailable: bool) returns (line: Option<string>)
      modifies this
      ensures line == Submitted(old(userMessage), aiAvailable)
      ensures line.None? ==> messages == old(messages) && userMessage == old(userMessage) && isLoading == old(isLoading)
      ensures line.Some? ==> messages == old(messages) + [ChatMessage(User, line.value)] && userMessage == "" && isLoading
      ensures effects == old(effects) && isExecutingCommand == old(isExecutingCommand)
      ensures wasViewChangedByChatbot == old(wasViewChangedByChatbot)
    {
      line := Submitted(userMessage, aiAvailable);
      if line.Some? {
        messages := messages + [ChatMessage(User, line.value)];
        userMessage := "";
        isLoading := true;
      }
    }

    /** `handleError`: exactly one model message is appended and loading ends. */
    method HandleError(context: string)
      modifies this
      ensures messages == old(messages) + [ChatMessage(Model, ErrorMessage(context))]
      ensures !isLoading
      ensures userMessage == old(userMessage) && effects == old(effects)
      ensures isExecutingCommand == old(isExecutingCommand) && wasViewChangedByChatbot == old(wasViewChangedByChatbot)
    {
      messages := messages + [ChatMessage(Model, ErrorMessage(context))];
      isLoading := false;
    }

    /** `handleCommand`: marks a command as running and the view as changed by
      * the assistant, runs it (`failed` says whether `execute` threw), and
      * ends loading. The reset of `isExecutingCommand` two seconds later is
      * `CommandTimerFired`. */
    method HandleCommand(c: Command, params: map<string, string>, failed: bool)
      modifies this
      ensures effects == old(effects) + [Execute(c, params)]
      ensures isExecutingCommand && wasViewChangedByChatbot && !isLoading
      ensures messages == old(messages) + (if failed then [ChatMessage(Model, ErrorMessage("command: " + c.name))] else [])
      ensures userMessage == old(userMessage)
    {
      isExecutingCommand := true;
      wasViewChangedByChatbot := true;
      effects := effects + [Execute(c, params)];
      if failed {
        HandleError("command: " + c.name);
      }
      isLoading := false;
    }

    method CommandTimerFired()
      modifies this
      ensures !isExecutingCommand
      ensures messages == old(messages) && effects == old(effects) && isLoading == old(isLoading)
      ensures wasViewChangedByChatbot == old(wasViewChangedByChatbot)
    {
      isExecutingCommand := false;
    }

    /** `giveContextualAdvice`. */
    method GiveContextualAdvice(mode: ViewMode, p: UserProfile)
      modifies this
      ensures messages == AdviseStep(old(messages), mode, p)
      ensures userMessage == old(userMessage) && isLoading == old(isLoading) && effects == old(effects)
      ensures isExecutingCommand == old(isExecutingCommand) && wasViewChangedByChatbot == old(wasViewChangedByChatbot)
    {
      var last := LastContent(messages);
      var advice := Advice(mode, p, last);
      if advice != "" && last != Some(advice) {
        messages := messages + [ChatMessage(Model, advice)];
      }
    }

    /** The view-change timer: a view change the assistant caused only
      * clears the flag; otherwise advice is given unless a command is running. */
    method OnViewChangeTimer(mode: ViewMode, p: UserProfile)
      modifies this
      ensures old(wasViewChangedByChatbot) ==> !wasViewChangedByChatbot && messages == old(messages)
      ensures !old(wasViewChangedByChatbot) ==>
                wasViewChangedByChatbot == old(wasViewChangedByChatbot) &&
                messages == (if old(isExecutingCommand) then old(messages) else AdviseStep(old(messages), mode, p))
      ensures userMessage == old(userMessage) && isLoading == old(isLoading) && effects == old(effects)
      ensures isExecutingCommand == old(isExecutingCommand)
    {
      if wasViewChangedByChatbot {
        wasViewChangedByChatbot := false;
      } else if !isExecutingCommand {
        GiveContextualAdvice(mode, p);
      }
    }
  }
}
