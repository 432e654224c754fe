/**
 * The application facade: region parsing, the regional context handed to the
 * engine, thin word lists over the lexicon, and the command-line dispatcher.
 * The lexicon the facade is built over is a parameter `lex`; the shipped
 * application uses `LexiconData.LEXICON_DATA`.
 */
module SlangTranslator {
  import opened Types
  import opened Text
  import opened Lists
  import LexiconService
  import RegionalAdapter
  import TranslationEngine

  /** What a caller hands to `translate`: a string, or a value of another type. */
  datatype Input = StringInput(text: string) | OtherInput

  const INVALID_INPUT: string := "Invalid input type"
  const ERROR_OPENING: string := "Dada, something went wrong while processing \""
  const ERROR_NOTE: string := "Error occurred during processing"

  /** `createErrorResult`: an apology naming the input and the error message. */
  function CreateErrorResult(input: string, message: string): (r: TranslationResult)
    ensures !r.isTermFound && r.term.None? && r.safetyWarning.None?
    ensures StartsWith(r.formattedResponse, ERROR_OPENING + input)
    ensures EndsWith(r.formattedResponse, message)
    ensures r.culturalNotes == [ERROR_NOTE]
    ensures r.personalityElements == [PersonalityElement(Addressing, "Dada", None)]
  {
    var named := ERROR_OPENING + input;
    var before := named + "\": ";
    PrefixOfAppend(named, "\": ");
    PrefixOfAppend(before, message);
    StartsWithTransitive(before + message, before, named);
    SuffixOfAppend(before, message);
    TranslationResult(None, before + message, None, [ERROR_NOTE], [PersonalityElement(Addressing, "Dada", None)], false)
  }

  /** `getToneStyleForRegion`: one tone per region. */
  function GetToneStyleForRegion(region: Region): (tone: ToneStyle)
    ensures tone == LightWitty <==> region == Kolkata
    ensures tone == EarthyRespectful <==> region == Bardhaman
    ensures tone == ExtraCautious <==> region == TarakeswarHooghly
  {
    match region
    case Kolkata => LightWitty
    case Bardhaman => EarthyRespectful
    case TarakeswarHooghly => ExtraCautious
  }

  /** `getSafetyThresholdForRegion`: the temple town is held to the stricter threshold. */
  function GetSafetyThresholdForRegion(region: Region): (level: SafetyLevel)
    ensures level == FriendlyRoast <==> region == TarakeswarHooghly
    ensures level == SafeFriendly <==> region != TarakeswarHooghly
  {
    if region == TarakeswarHooghly then FriendlyRoast else SafeFriendly
  }

  /** The stricter threshold, the cautious tone and the adapter's extra-caution flag pick out the same region. */
  lemma CautionAgrees(region: Region)
    ensures GetSafetyThresholdForRegion(region) == FriendlyRoast <==> GetToneStyleForRegion(region) == ExtraCautious
    ensures GetToneStyleForRegion(region) == ExtraCautious <==> RegionalAdapter.RequiresExtraCaution(region)
  {
  }

  /** `createRegionalContext`. */
  function CreateRegionalContext(region: Region): (c: RegionalContext)
    ensures c.region == region
    ensures c.culturalMarkers == RegionalAdapter.GetPersonalityTraits(region).culturalReferences
    ensures c.toneStyle == GetToneStyleForRegion(region)
    ensures c.safetyThreshold == GetSafetyThresholdForRegion(region)
  {
    RegionalContext(
      region,
      RegionalAdapter.GetPersonalityTraits(region).culturalReferences,
      GetToneStyleForRegion(region),
      GetSafetyThresholdForRegion(region))
  }

  /** The context for an optional region: none without one. */
  function ContextFor(region: Option<Region>): (c: Option<RegionalContext>)
    ensures c.Some? <==> region.Some?
    ensures c.Some? ==> c.value.region == region.value
  {
    if region.Some? then Some(CreateRegionalContext(region.value)) else None
  }

  const KOLKATA_ALIASES: seq<string> := ["kolkata", "calcutta"]
  const BARDHAMAN_ALIASES: seq<string> := ["bardhaman", "burdwan"]
  const TARAKESWAR_ALIASES: seq<string> := ["tarakeswar", "hooghly", "tarakeswar-hooghly"]

  /** The lower-case names `parseRegion` accepts for each region. */
  function Aliases(region: Region): seq<string> {
    match region
    case Kolkata => KOLKATA_ALIASES
    case Bardhaman => BARDHAMAN_ALIASES
    case TarakeswarHooghly => TARAKESWAR_ALIASES
  }

  /** `parseRegion`: a missing or empty token gives no region; otherwise its lower case is looked up among the aliases. */
  function ParseRegion(token: Option<string>): (r: Option<Region>)
    ensures token.None? || token == Some("") ==> r.None?
    ensures r.Some? ==> token.Some? && Lower(token.value) in Aliases(r.value)
    ensures forall region: Region :: token.Some? && Lower(token.value) in Aliases(region) ==> r == Some(region)
  {
    if token.None? || token.value == "" then None
    else
      var normalized := Lower(token.value);
      if normalized in KOLKATA_ALIASES then Some(Kolkata)
      else if normalized in BARDHAMAN_ALIASES then Some(Bardhaman)
      else if normalized in TARAKESWAR_ALIASES then Some(TarakeswarHooghly)
      else None
  }

  /** Region names are read without regard to ASCII case. */
  lemma ParseRegionIgnoresCase(token: string)
    ensures ParseRegion(Some(Upper(token))) == ParseRegion(Some(token))
    ensures ParseRegion(Some(Lower(token))) == ParseRegion(Some(token))
  {
    LowerOfUpper(token);
    LowerTwice(token);
  }

  /** Every alias, in any ASCII case, names its region. */
  lemma AliasesParse(region: Region, alias: string)
    requires alias in Aliases(region)
    ensures ParseRegion(Some(alias)) == Some(region)
    ensures ParseRegion(Some(Upper(alias))) == Some(region)
  {
    assert forall i :: 0 <= i < |alias| ==> !('A' <= alias[i] <= 'Z');
    LowerOfLowercase(alias);
    ParseRegionIgnoresCase(alias);
  }

  /** `translate`: a non-string input is an error; otherwise the engine answers, with the region's context if one is given. */
  function Translate(lex: seq<SlangTerm>, input: Input, region: Option<Region>, draws: TranslationEngine.Draws): (r: TranslationResult)
    ensures input.OtherInput? ==> r == CreateErrorResult("", INVALID_INPUT)
    ensures input.StringInput? ==> r == TranslationEngine.TranslateTerm(lex, input.text, ContextFor(region), draws)
    ensures r.isTermFound <==> r.term.Some?
    ensures r.term.Some? ==> r.term.value in lex
  {
    match input
    case OtherInput => CreateErrorResult("", INVALID_INPUT)
    case StringInput(text) => TranslationEngine.TranslateTerm(lex, text, ContextFor(region), draws)
  }

  /** The words of some records, in order. */
  function Words(ts: seq<SlangTerm>): (ws: seq<string>)
    ensures |ws| == |ts| && forall i :: 0 <= i < |ts| ==> ws[i] == ts[i].word
  {
    seq(|ts|, i requires 0 <= i < |ts| => ts[i].word)
  }

  /** `termExists`. */
  function TermExists(lex: seq<SlangTerm>, term: string): (b: bool)
    ensures b <==> LexiconService.FindTerm(lex, term).Some?
    ensures IsBlank(term) ==> !b
  {
    LexiconService.ValidateTermExists(lex, term)
  }

  /** `getRegionalTerms`: the words of the region's records, in storage order. */
  function GetRegionalTerms(lex: seq<SlangTerm>, region: Region): (ws: seq<string>)
    ensures forall i :: 0 <= i < |ws| ==> exists t :: t in lex && region in t.region && t.word == ws[i]
    ensures forall t :: t in lex && region in t.region ==> t.word in ws
  {
    var ts := LexiconService.GetTermsByRegion(lex, region);
    WordsOfMembers(ts);
    Words(ts)
  }

  /** `searchByMeaning`: the words of the records the lexicon search returns. */
  function SearchByMeaning(lex: seq<SlangTerm>, query: string): (ws: seq<string>)
    ensures IsBlank(query) ==> ws == []
    ensures forall i :: 0 <= i < |ws| ==>
      exists t :: t in lex && LexiconService.DescribedBy(t, Lower(Trim(query))) && t.word == ws[i]
    ensures !IsBlank(query) ==>
      forall t :: t in lex && LexiconService.DescribedBy(t, Lower(Trim(query))) ==> t.word in ws
  {
    var ts := LexiconService.SearchByMeaning(lex, query);
    WordsOfMembers(ts);
    assert forall i :: 0 <= i < |ts| ==> ts[i] in lex && LexiconService.DescribedBy(ts[i], Lower(Trim(query)));
    Words(ts)
  }

  /** `getRandomTerm`, with the random position passed in. */
  function GetRandomTerm(lex: seq<SlangTerm>, pick: nat): (w: Option<string>)
    ensures w.None? <==> lex == []
    ensures w.Some? ==> exists t :: t in lex && t.word == w.value
  {
    match LexiconService.GetRandomTerm(lex, pick)
    case None => None
    case Some(t) => Some(t.word)
  }

  /** `getSafeTerms`: the words of the Safe / Friendly records, and of no other tier. */
  function GetSafeTerms(lex: seq<SlangTerm>): (ws: seq<string>)
    ensures forall i :: 0 <= i < |ws| ==> exists t :: t in lex && t.safetyLevel == SafeFriendly && t.word == ws[i]
    ensures forall t :: t in lex && t.safetyLevel == SafeFriendly ==> t.word in ws
  {
    var ts := LexiconService.GetTermsBySafetyLevel(lex, LevelName(SafeFriendly));
    SafeLevelName();
    WordsOfMembers(ts);
    Words(ts)
  }

  /** Only the Safe / Friendly tier is called "Safe / Friendly". */
  lemma SafeLevelName()
    ensures forall l: SafetyLevel :: LevelName(l) == LevelName(SafeFriendly) ==> l == SafeFriendly
  {
  }

  /** Each word of `Words(ts)` is the word of a record of `ts`, and every record's word is there. */
  lemma WordsOfMembers(ts: seq<SlangTerm>)
    ensures forall i :: 0 <= i < |ts| ==> Words(ts)[i] == ts[i].word && ts[i] in ts
    ensures forall t :: t in ts ==> t.word in Words(ts)
  {
    forall t | t in ts
      ensures t.word in Words(ts)
    {
      var i :| 0 <= i < |ts| && ts[i] == t;
      assert Words(ts)[i] == t.word;
    }
  }

  const INVALID_COMMAND: string := "Invalid command. Type \"help\" for available commands."
  const NO_TERM: string := "Dada, please provide a term to translate!"
  const NO_MEANING: string := "Dada, please provide a meaning to search for!"
  const NO_TERMS: string := "No terms available!"
  const RANDOM_LABEL: string := "Random term: "
  const FOUND_LABEL: string := "Found terms: "
  const SAFE_LABEL: string := "Safe terms to learn: "
  const MORE: string := "..."
  const FAREWELL: string := "Dhonnobad! Come back anytime to learn more Bengali slang!"
  const HELP_TEXT: string :=
    "\U{1F5FA}\U{FE0F} The Local Guide - Bengali Slang Translator Commands:\n\n"
    + "translate <term> [region] - Translate a Bengali slang term\n  Example: translate lyadh kolkata\n\n"
    + "search <meaning> - Search for terms by meaning\n  Example: search lazy\n\n"
    + "random - Get a random term with explanation\n\n"
    + "safe-terms - List safe terms for learning\n\n"
    + "help - Show this help message\n\n"
    + "exit - Exit the translator\n\n"
    + "Regions: kolkata, bardhaman, tarakeswar"

  /** The command line's tokens: the trimmed line split on white-space runs. */
  function Tokens(command: string): (parts: seq<string>)
    ensures |parts| >= 1
  {
    SplitOnSpaces(Trim(command))
  }

  /** The reply to `search <query>`. */
  function SearchReply(query: string, words: seq<string>): string {
    if words == [] then "No terms found for \"" + query + "\". Try different keywords!"
    else FOUND_LABEL + Join(words, ", ")
  }

  /** The reply to `safe-terms`: at most ten words, and an ellipsis when more were left out. */
  function SafeTermsReply(words: seq<string>): string {
    var shown := if |words| > 10 then words[..10] else words;
    SAFE_LABEL + Join(shown, ", ") + (if |words| > 10 then MORE else "")
  }

  /** The reply to `random`: a missing or empty word counts as no term. */
  function RandomReply(lex: seq<SlangTerm>, pick: nat, draws: TranslationEngine.Draws): string {
    var word := GetRandomTerm(lex, pick);
    if word.None? || word.value == "" then NO_TERMS
    else RANDOM_LABEL + Translate(lex, StringInput(word.value), None, draws).formattedResponse
  }

  /** The reply to a command word nobody handles. */
  function UnknownCommandReply(cmd: string): string {
    "Unknown command \"" + cmd + "\". Type \"help\" for available commands."
  }

  /** The reply to a `translate` command with its arguments. */
  function TranslateReply(lex: seq<SlangTerm>, args: seq<string>, draws: TranslationEngine.Draws): string {
    if args == [] then NO_TERM
    else Translate(lex, StringInput(args[0]), ParseRegion(if |args| > 1 then Some(args[1]) else None), draws).formattedResponse
  }

  /** The reply to a command word with its arguments. */
  function Dispatch(lex: seq<SlangTerm>, cmd: string, args: seq<string>, pick: nat, draws: TranslationEngine.Draws): string {
    if cmd == "translate" then TranslateReply(lex, args, draws)
    else if cmd == "search" then
      if args == [] then NO_MEANING
      else
        var query := Join(args, " ");
        SearchReply(query, SearchByMeaning(lex, query))
    else if cmd == "random" then RandomReply(lex, pick, draws)
    else if cmd == "safe-terms" then SafeTermsReply(GetSafeTerms(lex))
    else if cmd == "help" then HELP_TEXT
    else if cmd == "exit" then FAREWELL
    else UnknownCommandReply(cmd)
  }

  /**
   * `processCommand`: the empty line is refused; otherwise the lower-cased
   * first token picks the command and the remaining tokens are its arguments.
   */
  function ProcessCommand(lex: seq<SlangTerm>, command: string, pick: nat, draws: TranslationEngine.Draws): (reply: string)
    ensures command == "" ==> reply == INVALID_COMMAND
  {
    if command == "" then INVALID_COMMAND
    else
      var parts := Tokens(command);
      Dispatch(lex, Lower(parts[0]), parts[1..], pick, draws)
  }

  /**
   * A command line as typed: words separated by runs of white space, with
   * optional white space before the first word and after the last.
   */
  datatype CommandLine = CommandLine(lead: string, words: seq<string>, gaps: seq<string>, trail: string)
  {
    predicate Valid() {
      WellSpaced(words, gaps) && AllSpace(lead) && AllSpace(trail)
    }

    function Text(): string
      requires |gaps| + 1 == |words|
    {
      lead + Spaced(words, gaps) + trail
    }
  }

  /** Such a line is not empty and tokenises into its words: the command word, then the arguments. */
  lemma TokensOfLine(line: CommandLine)
    requires line.Valid()
    ensures line.Text() != ""
    ensures Tokens(line.Text()) == line.words
  {
    SplitPaddedLine(line.lead, line.words, line.gaps, line.trail);
  }

  /** Such a line is answered by its lower-cased first word, with the other words as arguments. */
  lemma LineDispatch(lex: seq<SlangTerm>, line: CommandLine, pick: nat, draws: TranslationEngine.Draws)
    requires line.Valid()
    ensures ProcessCommand(lex, line.Text(), pick, draws)
         == Dispatch(lex, Lower(line.words[0]), line.words[1..], pick, draws)
  {
    TokensOfLine(line);
  }

  /** `translate <term>` with white space before, between and after, as a command line. */
  lemma TranslateTermLine(lead: string, gap: string, term: string, trail: string) returns (line: CommandLine)
    requires AllSpace(lead) && AllSpace(trail) && gap != [] && AllSpace(gap) && IsWord(term)
    ensures line.Valid() && line.words == ["translate", term]
    ensures line.Text() == lead + "translate" + gap + term + trail
  {
    line := CommandLine(lead, ["translate", term], [gap], trail);
    assert IsWord("translate");
    assert Spaced([term], []) == term;
    assert Spaced(line.words, line.gaps) == "translate" + gap + term;
  }

  /**
   * `translate <term>` with any white space before, between and after, such as
   * `"  translate   lyadh   "`, translates the term alone, with no region.
   */
  lemma PaddedTranslateLine(lex: seq<SlangTerm>, lead: string, gap: string, term: string, trail: string, pick: nat, draws: TranslationEngine.Draws)
    requires AllSpace(lead) && AllSpace(trail) && gap != [] && AllSpace(gap) && IsWord(term)
    ensures ProcessCommand(lex, lead + "translate" + gap + term + trail, pick, draws)
         == TranslateReply(lex, [term], draws)
  {
    var line := TranslateTermLine(lead, gap, term, trail);
    assert Lower("translate") == "translate";
    TranslateCommand(lex, line, pick, draws);
    assert line.words[1..] == [term];
  }

  /** The same line with its command word in any ASCII case dispatches alike. */
  lemma CommandWordIgnoresCase(lex: seq<SlangTerm>, line: CommandLine, pick: nat, draws: TranslationEngine.Draws)
    requires line.Valid()
    ensures line.(words := [Upper(line.words[0])] + line.words[1..]).Valid()
    ensures ProcessCommand(lex, line.(words := [Upper(line.words[0])] + line.words[1..]).Text(), pick, draws)
         == ProcessCommand(lex, line.Text(), pick, draws)
  {
    var upper := line.(words := [Upper(line.words[0])] + line.words[1..]);
    UpperWord(line.words[0]);
    assert forall k :: 1 <= k < |upper.words| ==> upper.words[k] == line.words[k];
    assert upper.Valid();
    LineDispatch(lex, line, pick, draws);
    LineDispatch(lex, upper, pick, draws);
    LowerOfUpper(line.words[0]);
    assert upper.words[1..] == line.words[1..];
  }

  /** A line of white space only is not refused but answered as the unknown command "". */
  lemma BlankCommandIsUnknown(lex: seq<SlangTerm>, command: string, pick: nat, draws: TranslationEngine.Draws)
    requires command != "" && IsBlank(command)
    ensures ProcessCommand(lex, command, pick, draws) == UnknownCommandReply("")
  {
    assert Trim(command) == "";
    assert SplitOnSpaces("") == [""];
    assert Lower("") == "";
  }

  /** `translate <a> <b> ...` translates `a` alone, in the region `b` names, if any; without arguments it asks for a term. */
  lemma TranslateCommand(lex: seq<SlangTerm>, line: CommandLine, pick: nat, draws: TranslationEngine.Draws)
    requires line.Valid() && Lower(line.words[0]) == "translate"
    ensures ProcessCommand(lex, line.Text(), pick, draws) == TranslateReply(lex, line.words[1..], draws)
  {
    LineDispatch(lex, line, pick, draws);
  }

  /** Without a term the translate command asks for one; otherwise it answers with the engine's response for the first argument. */
  lemma TranslateReplyFacts(lex: seq<SlangTerm>, args: seq<string>, draws: TranslationEngine.Draws)
    ensures args == [] ==> TranslateReply(lex, args, draws) == NO_TERM
    ensures args != [] ==> TranslateReply(lex, args, draws) == TranslationEngine.TranslateTerm(
      lex, args[0], ContextFor(ParseRegion(if |args| > 1 then Some(args[1]) else None)), draws).formattedResponse
  {
  }

  /** `search <words>` looks up the words joined by single spaces; without words it asks for a meaning. */
  lemma SearchCommand(lex: seq<SlangTerm>, line: CommandLine, pick: nat, draws: TranslationEngine.Draws)
    requires line.Valid() && Lower(line.words[0]) == "search"
    ensures |line.words| == 1 ==> ProcessCommand(lex, line.Text(), pick, draws) == NO_MEANING
    ensures |line.words| > 1 ==>
      (ProcessCommand(lex, line.Text(), pick, draws)
        == SearchReply(Join(line.words[1..], " "), SearchByMeaning(lex, Join(line.words[1..], " "))))
  {
    LineDispatch(lex, line, pick, draws);
  }

  /** A command word outside the six known ones is answered by the unknown-command reply. */
  lemma DispatchUnknown(lex: seq<SlangTerm>, cmd: string, args: seq<string>, pick: nat, draws: TranslationEngine.Draws)
    requires cmd !in ["translate", "search", "random", "safe-terms", "help", "exit"]
    ensures Dispatch(lex, cmd, args, pick, draws) == UnknownCommandReply(cmd)
  {
  }

  /** A command word outside the six known ones is echoed back, lower-cased. */
  lemma UnknownCommand(lex: seq<SlangTerm>, line: CommandLine, pick: nat, draws: TranslationEngine.Draws)
    requires line.Valid()
    requires Lower(line.words[0]) !in ["translate", "search", "random", "safe-terms", "help", "exit"]
    ensures ProcessCommand(lex, line.Text(), pick, draws) == UnknownCommandReply(Lower(line.words[0]))
  {
    LineDispatch(lex, line, pick, draws);
    DispatchUnknown(lex, Lower(line.words[0]), line.words[1..], pick, draws);
  }

  /** `random` is answered with a random word's translation. */
  lemma RandomCommand(lex: seq<SlangTerm>, line: CommandLine, pick: nat, draws: TranslationEngine.Draws)
    requires line.Valid() && Lower(line.words[0]) == "random"
    ensures ProcessCommand(lex, line.Text(), pick, draws) == RandomReply(lex, pick, draws)
  {
    LineDispatch(lex, line, pick, draws);
  }

  /** `safe-terms` is answered with the list of Safe / Friendly words. */
  lemma SafeTermsCommand(lex: seq<SlangTerm>, line: CommandLine, pick: nat, draws: TranslationEngine.Draws)
    requires line.Valid() && Lower(line.words[0]) == "safe-terms"
    ensures ProcessCommand(lex, line.Text(), pick, draws) == SafeTermsReply(GetSafeTerms(lex))
  {
    LineDispatch(lex, line, pick, draws);
  }

  /** `help` and `exit` are answered with fixed texts, whatever follows them. */
  lemma FixedCommands(lex: seq<SlangTerm>, line: CommandLine, pick: nat, draws: TranslationEngine.Draws)
    requires line.Valid()
    ensures Lower(line.words[0]) == "help" ==> ProcessCommand(lex, line.Text(), pick, draws) == HELP_TEXT
    ensures Lower(line.words[0]) == "exit" ==> ProcessCommand(lex, line.Text(), pick, draws) == FAREWELL
  {
    LineDispatch(lex, line, pick, draws);
  }

  /** An empty lexicon has no random term; otherwise, when the drawn word is not empty, the reply is labelled. */
  lemma RandomReplyFacts(lex: seq<SlangTerm>, pick: nat, draws: TranslationEngine.Draws)
    ensures lex == [] ==> RandomReply(lex, pick, draws) == NO_TERMS
    ensures lex != [] && lex[pick % |lex|].word != "" ==> StartsWith(RandomReply(lex, pick, draws), RANDOM_LABEL)
  {
    if lex != [] && lex[pick % |lex|].word != "" {
      var w := GetRandomTerm(lex, pick);
      assert w == Some(lex[pick % |lex|].word);
      PrefixOfAppend(RANDOM_LABEL, Translate(lex, StringInput(w.value), None, draws).formattedResponse);
    }
  }

  /** The search reply reports the query when nothing matched, and lists the matches otherwise. */
  lemma SearchReplyShape(query: string, words: seq<string>)
    ensures words == [] ==> Contains(SearchReply(query, words), query)
    ensures words != [] ==> StartsWith(SearchReply(query, words), FOUND_LABEL)
    ensures forall k :: 0 <= k < |words| ==> Contains(SearchReply(query, words), words[k])
  {
    if words == [] {
      var pre := "No terms found for \"";
      var post := "\". Try different keywords!";
      ContainsSelf(query);
      ContainsInContext(query, query, pre, post);
    } else {
      PrefixOfAppend(FOUND_LABEL, Join(words, ", "));
      forall k | 0 <= k < |words|
        ensures Contains(SearchReply(query, words), words[k])
      {
        JoinContainsPart(words, ", ", k);
        ContainsInContext(Join(words, ", "), words[k], FOUND_LABEL, "");
        assert FOUND_LABEL + Join(words, ", ") + "" == SearchReply(query, words);
      }
    }
  }

  /** The safe-terms reply shows the first ten words at most, and ends in an ellipsis when there are more. */
  lemma SafeTermsReplyShape(words: seq<string>)
    ensures |words| <= 10 ==> SafeTermsReply(words) == SAFE_LABEL + Join(words, ", ")
    ensures |words| > 10 ==> EndsWith(SafeTermsReply(words), MORE)
    ensures forall k :: 0 <= k < |words| && k < 10 ==> Contains(SafeTermsReply(words), words[k])
  {
    var shown := if |words| > 10 then words[..10] else words;
    var joined := Join(shown, ", ");
    var tail := if |words| > 10 then MORE else "";
    if |words| <= 10 {
      assert SAFE_LABEL + joined + "" == SAFE_LABEL + joined;
    } else {
      SuffixOfAppend(SAFE_LABEL + joined, MORE);
    }
    forall k | 0 <= k < |words| && k < 10
      ensures Contains(SafeTermsReply(words), words[k])
    {
      assert shown[k] == words[k];
      JoinContainsPart(shown, ", ", k);
      ContainsInContext(joined, words[k], SAFE_LABEL, tail);
    }
  }
}
