/**
 * The safety classifier: a total map from the four tiers to warning texts,
 * consequence lists, explanation tones and the two yes/no questions the
 * response builder asks.
 */
module SafetyValidator {
  import opened Types
  import opened Text

  const HEAVY_WARNING: string := "Dada/Didi, be careful! This is a heavy slang. Do not use this in public."
  const OFFENSIVE_WARNING: string := "Dada/Didi, this word can be offensive. Use with caution."
  const ROAST_NOTE: string := "This is playful teasing language - use with friends who understand the joke!"
  const SAFE_NOTE: string := "This is safe and friendly language!"

  /** `assessSafetyLevel`: the record's own tier. */
  function AssessSafetyLevel(term: SlangTerm): (level: SafetyLevel)
    ensures level == term.safetyLevel
  {
    term.safetyLevel
  }

  /** The opening every academic explanation shares: the word and, in parentheses, its script. */
  function ExplanationHead(term: SlangTerm): string {
    "The term \"" + term.word + "\" (" + term.banglaScript + ")"
  }

  /** The warning sentence of `generateWarning`, by tier. */
  function WarningSentence(level: SafetyLevel): (text: string)
    ensures text != ""
  {
    match level
    case DoNotUse => HEAVY_WARNING
    case OffensiveAnnoying => OFFENSIVE_WARNING
    case FriendlyRoast => ROAST_NOTE
    case SafeFriendly => SAFE_NOTE
  }

  const HEAVY_CONSEQUENCES: seq<string> :=
    ["Can cause serious offense and social embarrassment",
     "May damage relationships and reputation",
     "Could lead to confrontation or conflict",
     "Inappropriate in all social and professional settings",
     "May be considered harassment or abuse"]

  const OFFENSIVE_CONSEQUENCES: seq<string> :=
    ["May cause discomfort or offense to others",
     "Not appropriate in formal or respectful conversations",
     "Could be misunderstood or taken negatively",
     "Better to avoid in mixed company"]

  const ROAST_CONSEQUENCES: seq<string> :=
    ["Generally harmless among friends",
     "Could be misunderstood by strangers",
     "Context and relationship matter a lot",
     "Best used in casual, friendly settings"]

  const SAFE_CONSEQUENCES: seq<string> :=
    ["No negative social consequences",
     "Appropriate in most social settings",
     "Helps you sound more local and authentic",
     "Generally well-received by Bengali speakers"]

  /** The social consequences of `generateWarning`, by tier. */
  function Consequences(level: SafetyLevel): (cs: seq<string>)
    ensures level == DoNotUse ==> |cs| == 5
    ensures level != DoNotUse ==> |cs| == 4
  {
    match level
    case DoNotUse => HEAVY_CONSEQUENCES
    case OffensiveAnnoying => OFFENSIVE_CONSEQUENCES
    case FriendlyRoast => ROAST_CONSEQUENCES
    case SafeFriendly => SAFE_CONSEQUENCES
  }

  /** What follows the opening of the academic explanation: the lower-cased meaning, the usage and a closing remark. */
  function ExplanationRest(term: SlangTerm): string {
    var meaning := Lower(term.meaning);
    match term.safetyLevel
    case DoNotUse =>
      " is " + meaning + ". " + term.usage
        + " This term is considered highly offensive in Bengali culture and should never be used in conversation."
    case OffensiveAnnoying =>
      " means " + meaning + ". " + term.usage + " While not the most offensive, it can still cause discomfort."
    case FriendlyRoast =>
      " means " + meaning + ". " + term.usage + " It's typically used for friendly banter."
    case SafeFriendly =>
      " means " + meaning + ". " + term.usage + " This is a commonly accepted expression in Bengali culture."
  }

  /** The recommended action of `generateWarning`, by tier. */
  function RecommendedAction(level: SafetyLevel): string {
    match level
    case DoNotUse => "Avoid using this term completely. Learn respectful alternatives for communication."
    case OffensiveAnnoying => "Use only in very informal settings with close friends who understand the context."
    case FriendlyRoast => "Safe to use with friends, but be mindful of your audience and their comfort level."
    case SafeFriendly => "Feel free to use this term - it will help you connect with local Bengali culture!"
  }

  /** `generateWarning`: the full warning record for a term's tier (one `switch` in the source, one function per field here). */
  function GenerateWarning(term: SlangTerm): (w: SafetyWarning)
    ensures w.level == term.safetyLevel
    ensures w.warningText != ""
    ensures |w.socialConsequences| == if term.safetyLevel == DoNotUse then 5 else 4
    ensures StartsWith(w.academicExplanation, ExplanationHead(term))
  {
    var head := ExplanationHead(term);
    var rest := ExplanationRest(term);
    PrefixOfAppend(head, rest);
    SafetyWarning(
      term.safetyLevel,
      WarningSentence(term.safetyLevel),
      Consequences(term.safetyLevel),
      head + rest,
      RecommendedAction(term.safetyLevel))
  }

  /** `shouldBlockContent`: nothing is ever blocked; dangerous terms get warnings instead. */
  function ShouldBlockContent(level: SafetyLevel): (block: bool)
    ensures !block
  {
    false
  }

  /** `requiresWarning`: the two upper tiers. */
  function RequiresWarning(term: SlangTerm): (b: bool)
    ensures b <==> term.safetyLevel in {DoNotUse, OffensiveAnnoying}
  {
    term.safetyLevel == DoNotUse || term.safetyLevel == OffensiveAnnoying
  }

  /** `isSafeForExamples`: the two lower tiers. */
  function IsSafeForExamples(term: SlangTerm): (b: bool)
    ensures b <==> term.safetyLevel in {SafeFriendly, FriendlyRoast}
  {
    term.safetyLevel == SafeFriendly || term.safetyLevel == FriendlyRoast
  }

  /** `getWarningText`: the short warning for the two upper tiers, empty otherwise. */
  function GetWarningText(term: SlangTerm): (text: string)
    ensures text != "" <==> RequiresWarning(term)
  {
    if term.safetyLevel == DoNotUse then HEAVY_WARNING
    else if term.safetyLevel == OffensiveAnnoying then OFFENSIVE_WARNING
    else ""
  }

  /**
   * `getSocialConsequences`: the consequence list of the term's tier, which is
   * the list the generated warning carries (`SocialConsequencesOfWarning`).
   */
  function GetSocialConsequences(term: SlangTerm): (cs: seq<string>)
    ensures |cs| >= 4
  {
    Consequences(term.safetyLevel)
  }

  /** `getSocialConsequences` reads the consequences off the generated warning. */
  lemma SocialConsequencesOfWarning(term: SlangTerm)
    ensures GetSocialConsequences(term) == GenerateWarning(term).socialConsequences
  {
  }

  /** The tone labels `getExplanationTone` may return; `WarningTone` is declared but never produced. */
  datatype ExplanationTone = Academic | Friendly | Cautious | WarningTone

  /** `getExplanationTone`. */
  function GetExplanationTone(term: SlangTerm): (tone: ExplanationTone)
    ensures tone != WarningTone
    ensures tone == Academic <==> term.safetyLevel == DoNotUse
    ensures tone == Cautious <==> term.safetyLevel == OffensiveAnnoying
    ensures tone == Friendly <==> IsSafeForExamples(term)
  {
    match term.safetyLevel
    case DoNotUse => Academic
    case OffensiveAnnoying => Cautious
    case FriendlyRoast => Friendly
    case SafeFriendly => Friendly
  }

  /** Every term needs a warning or is safe for examples, never both. */
  lemma WarningOrExamples(term: SlangTerm)
    ensures RequiresWarning(term) != IsSafeForExamples(term)
  {
  }

  /**
   * The generated warning carries the short warning text for the two upper
   * tiers; for the two lower tiers it carries a friendly note while the short
   * text is empty.
   */
  lemma WarningTextsAgree(term: SlangTerm)
    ensures RequiresWarning(term) ==> GenerateWarning(term).warningText == GetWarningText(term)
    ensures !RequiresWarning(term) ==> GetWarningText(term) == "" && GenerateWarning(term).warningText != ""
    ensures term.safetyLevel == DoNotUse ==> GetWarningText(term) == HEAVY_WARNING
    ensures term.safetyLevel == OffensiveAnnoying ==> GetWarningText(term) == OFFENSIVE_WARNING
  {
  }
}
