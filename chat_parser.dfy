/**
 * The chat assistant's command parser (`parseCommand`): the first word of a
 * typed line, upper-cased, names a command of the table, and the rest of the
 * line becomes its parameter record.
 */
module ChatParser {
  import opened Wrappers
  import opened Text
  import opened ChatbotCommands

  /** What `parseCommand` returns: the command found (or null) and its parameters. */
  datatype Parsed = Parsed(command: Option<Command>, params: map<string, string>)

  /** The first whitespace-separated word of the trimmed line. */
  function FirstWord(message: string): string {
    SplitWs(Trim(message))[0]
  }

  /** The remaining words, rejoined with single spaces (`paramsString`). */
  function RestWords(message: string): string {
    Join(SplitWs(Trim(message))[1..], " ")
  }

  /** `part.split('=').map(s => s.trim())`, first element. */
  function PairKey(piece: string): string {
    Trim(Split(piece, '=')[0])
  }

  /** The second element, or `undefined` (written "") when there is no '='. */
  function PairValue(piece: string): string {
    var kv := Split(piece, '=');
    if |kv| > 1 then Trim(kv[1]) else ""
  }

  /** One `forEach` step: a key with a value is stored under the key; a bare
    * key goes to the first declared parameter; an empty piece is skipped. */
  function Assign(params: map<string, string>, first: string, piece: string): map<string, string> {
    var key := PairKey(piece);
    var value := PairValue(piece);
    if key != "" && value != "" then params[key := value]
    else if key != "" then params[first := key]
    else params
  }

  /** The `forEach` over the ';'-separated pieces, left to right. */
  function AssignAll(params: map<string, string>, first: string, pieces: seq<string>): map<string, string>
    decreases |pieces|
  {
    if |pieces| == 0 then params
    else AssignAll(Assign(params, first, pieces[0]), first, pieces[1..])
  }

  /** The parameter record for command `c` given the rest of the line. */
  function ParamsFor(c: Command, text: string): map<string, string> {
    if |c.params| == 0 then map[]
    else if |c.params| == 1 then map[c.params[0] := text]
    else AssignAll(map[], c.params[0], Split(text, ';'))
  }

  /** `parseCommand` over a command table: upper-case the first word and
    * look it up by exact name; no match gives no command and no parameters. */
  function ParseWith(commands: seq<Command>, message: string): (r: Parsed)
    ensures r.command.None? ==> r.params == map[]
    ensures r.command.Some? && r.command.value.params == [] ==> r.params == map[]
    ensures r.command.Some? && |r.command.value.params| == 1 ==>
              r.params == map[r.command.value.params[0] := RestWords(message)]
  {
    match FindCommand(commands, ToUpper(FirstWord(message)))
    case None => Parsed(None, map[])
    case Some(c) => Parsed(Some(c), ParamsFor(c, RestWords(message)))
  }

  /** `parseCommand` itself, over the assistant's table. */
  function ParseCommand(message: string): Parsed {
    ParseWith(COMMANDS, message)
  }

  /** The command found is the table entry named by the upper-cased first
    * word, and there is none exactly when no entry has that name. */
  lemma ParseWithFinds(commands: seq<Command>, message: string)
    ensures ParseWith(commands, message).command.None? <==>
              forall c :: c in commands ==> c.name != ToUpper(FirstWord(message))
    ensures ParseWith(commands, message).command.Some? ==>
              ParseWith(commands, message).command.value in commands &&
              ParseWith(commands, message).command.value.name == ToUpper(FirstWord(message))
  {
  }

  /** Later pieces override earlier ones: the last piece is applied last. */
  lemma {:induction false} AssignAllSnoc(params: map<string, string>, first: string, pieces: seq<string>, last: string)
    ensures AssignAll(params, first, pieces + [last]) == Assign(AssignAll(params, first, pieces), first, last)
    decreases |pieces|
  {
    if |pieces| > 0 {
      assert (pieces + [last])[1..] == pieces[1..] + [last];
      AssignAllSnoc(Assign(params, first, pieces[0]), first, pieces[1..], last);
    } else {
      assert [last][1..] == [];
    }
  }

  /** `key=value`, both non-empty and free of whitespace and '=', stores value under key. */
  lemma AssignPair(params: map<string, string>, first: string, key: string, value: string)
    requires key != "" && value != "" && NoSpace(key) && NoSpace(value)
    requires '=' !in key && '=' !in value
    ensures Assign(params, first, key + "=" + value) == params[key := value]
  {
    JoinSplit([key, value], '=');
    assert Join([key, value], "=") == key + "=" + value;
    TrimNoSpace(key);
    TrimNoSpace(value);
  }

  /** A bare value, non-empty and free of whitespace and '=', goes to the first parameter. */
  lemma AssignBare(params: map<string, string>, first: string, value: string)
    requires value != "" && NoSpace(value) && '=' !in value
    ensures Assign(params, first, value) == params[first := value]
  {
    SplitNoSep(value, '=');
    TrimNoSpace(value);
  }

  /** A line made of a command word, a space and single-spaced text. */
  lemma SplitLine(word: string, rest: string)
    requires NoSpace(word) && |word| > 0
    requires SingleSpaced(rest) && rest != [] && !IsSpace(rest[0])
    ensures FirstWord(word + " " + rest) == word
    ensures RestWords(word + " " + rest) == rest
  {
    var m := word + " " + rest;
    assert m[0] == word[0];
    assert TrimStart(m) == m;
    assert m[|m| - 1] == rest[|rest| - 1];
    assert !IsSpace(rest[|rest| - 1]);
    assert TrimEnd(m) == m;
    SplitWsHead(word, rest);
    assert SplitWs(m)[1..] == SplitWs(rest);
    SplitWsJoin(rest);
  }

  /** The first word and the rest of a line made of a word, optionally
    * followed by a space and single-spaced text. */
  lemma WordAndRest(word: string, rest: string)
    requires NoSpace(word) && |word| > 0
    requires SingleSpaced(rest) && (rest == [] || !IsSpace(rest[0]))
    ensures FirstWord(if rest == [] then word else word + " " + rest) == word
    ensures RestWords(if rest == [] then word else word + " " + rest) == rest
  {
    if rest == [] {
      TrimNoSpace(word);
      SplitWsWord(word);
    } else {
      SplitLine(word, rest);
    }
  }

  /** A one-parameter command receives everything after the command word,
    * rejoined with single spaces, whatever it contains ('=' included); with
    * nothing after the word it receives the empty string. */
  lemma OneParamTakesRest(k: nat, word: string, rest: string)
    requires k < |COMMANDS| && |COMMANDS[k].params| == 1
    requires ToUpper(word) == COMMANDS[k].name && NoSpace(word)
    requires SingleSpaced(rest) && (rest == [] || !IsSpace(rest[0]))
    ensures ParseCommand(if rest == [] then word else word + " " + rest) ==
            Parsed(Some(COMMANDS[k]), map[COMMANDS[k].params[0] := rest])
  {
    TableSignatures();
    EveryCommandReachable(k, word);
    WordAndRest(word, rest);
  }

  /** A command that declares no parameters gets an empty record, whatever
    * follows its word. */
  lemma NoParamsIgnoreRest(k: nat, word: string, rest: string)
    requires k < |COMMANDS| && COMMANDS[k].params == []
    requires ToUpper(word) == COMMANDS[k].name && NoSpace(word)
    requires SingleSpaced(rest) && (rest == [] || !IsSpace(rest[0]))
    ensures ParseCommand(if rest == [] then word else word + " " + rest) == Parsed(Some(COMMANDS[k]), map[])
  {
    TableSignatures();
    EveryCommandReachable(k, word);
    WordAndRest(word, rest);
  }

  lemma AssignAllTwo(params: map<string, string>, first: string, a: string, b: string)
    ensures AssignAll(params, first, [a, b]) == Assign(Assign(params, first, a), first, b)
  {
    var once := Assign(params, first, a);
    assert [a, b][1..] == [b];
    assert AssignAll(params, first, [a, b]) == AssignAll(once, first, [b]);
    assert [b][1..] == [];
    assert AssignAll(once, first, [b]) == AssignAll(Assign(once, first, b), first, []);
  }

  /** A key or value that needs no trimming and contains neither separator. */
  predicate Plain(s: string) {
    s != "" && NoSpace(s) && '=' !in s && ';' !in s
  }

  lemma PlainPair(k: string, v: string)
    requires Plain(k) && Plain(v)
    ensures NoSpace(k + "=" + v) && ';' !in k + "=" + v
  {
    NoSpaceAround(k, '=', v);
    assert k + "=" + v == k + ['='] + v;
  }

  /** `k1=v1;k2=v2` assigns both keys, the later one winning on a repeat. */
  lemma AssignTwoPairs(first: string, k1: string, v1: string, k2: string, v2: string)
    requires Plain(k1) && Plain(v1) && Plain(k2) && Plain(v2)
    ensures AssignAll(map[], first, Split(k1 + "=" + v1 + ";" + k2 + "=" + v2, ';')) == map[k1 := v1][k2 := v2]
  {
    var p1 := k1 + "=" + v1;
    var p2 := k2 + "=" + v2;
    PlainPair(k1, v1);
    PlainPair(k2, v2);
    JoinSplit([p1, p2], ';');
    assert Join([p1, p2], ";") == k1 + "=" + v1 + ";" + k2 + "=" + v2;
    AssignAllTwo(map[], first, p1, p2);
    AssignPair(map[], first, k1, v1);
    AssignPair(map[k1 := v1], first, k2, v2);
  }

  /** The text `k1=v1;k2=v2` is one word. */
  lemma TwoPairsNoSpace(k1: string, v1: string, k2: string, v2: string)
    requires Plain(k1) && Plain(v1) && Plain(k2) && Plain(v2)
    ensures NoSpace(k1 + "=" + v1 + ";" + k2 + "=" + v2)
  {
    PlainPair(k1, v1);
    PlainPair(k2, v2);
    NoSpaceAround(k1 + "=" + v1, ';', k2 + "=" + v2);
    assert k1 + "=" + v1 + ";" + k2 + "=" + v2 == (k1 + "=" + v1) + [';'] + (k2 + "=" + v2);
  }

  /** A two-parameter command whose first parameter is `first`, given
    * `k1=v1;k2=v2`, stores both values by key. */
  lemma TwoPairsWith(commands: seq<Command>, c: Command, word: string, k1: string, v1: string, k2: string, v2: string)
    requires FindCommand(commands, ToUpper(word)) == Some(c) && |c.params| == 2
    requires NoSpace(word) && |word| > 0
    requires Plain(k1) && Plain(v1) && Plain(k2) && Plain(v2)
    ensures ParseWith(commands, word + " " + (k1 + "=" + v1 + ";" + k2 + "=" + v2)) ==
            Parsed(Some(c), map[k1 := v1][k2 := v2])
  {
    var rest := k1 + "=" + v1 + ";" + k2 + "=" + v2;
    TwoPairsNoSpace(k1, v1, k2, v2);
    AssignTwoPairs(c.params[0], k1, v1, k2, v2);
    assert rest[0] == k1[0];
    WordAndRest(word, rest);
  }

  /** ANALYZE_VIDEO given `k1=v1;k2=v2` stores both values by key (a
    * repeated key keeps its later value), not by position. */
  lemma TwoParamsByKey(word: string, k1: string, v1: string, k2: string, v2: string)
    requires ToUpper(word) == "ANALYZE_VIDEO" && NoSpace(word)
    requires Plain(k1) && Plain(v1) && Plain(k2) && Plain(v2)
    ensures ParseCommand(word + " " + (k1 + "=" + v1 + ";" + k2 + "=" + v2)) ==
            Parsed(Some(COMMANDS[9]), map[k1 := v1][k2 := v2])
  {
    OnlyAnalyzeVideoTakesTwo();
    assert |word| == |ToUpper(word)| == 13;
    EveryCommandReachable(9, word);
    TwoPairsWith(COMMANDS, COMMANDS[9], word, k1, v1, k2, v2);
  }
}
