/** The translator's data shapes: the two enums and the records passed between the services. */
module Types {

  /** The four safety tiers, mildest first. */
  datatype SafetyLevel = SafeFriendly | FriendlyRoast | OffensiveAnnoying | DoNotUse

  /** The string value of each tier, as the enum declares it. */
  function LevelName(level: SafetyLevel): string {
    match level
    case SafeFriendly => "Safe / Friendly"
    case FriendlyRoast => "Friendly Roast"
    case OffensiveAnnoying => "Offensive / Annoying"
    case DoNotUse => "Do not use"
  }

  datatype Region = Kolkata | Bardhaman | TarakeswarHooghly

  function RegionName(region: Region): string {
    match region
    case Kolkata => "Kolkata"
    case Bardhaman => "Bardhaman"
    case TarakeswarHooghly => "Tarakeswar/Hooghly"
  }

  datatype ToneStyle = LightWitty | EarthyRespectful | ExtraCautious

  /**
   * One lexicon record. The optional `examples` list is a plain sequence:
   * every reader treats an absent list and an empty one alike.
   */
  datatype SlangTerm = SlangTerm(
    word: string,
    banglaScript: string,
    meaning: string,
    usage: string,
    safetyLevel: SafetyLevel,
    region: seq<Region>,
    culturalContext: string,
    examples: seq<string>)

  datatype RegionalContext = RegionalContext(
    region: Region,
    culturalMarkers: seq<string>,
    toneStyle: ToneStyle,
    safetyThreshold: SafetyLevel)

  datatype SafetyWarning = SafetyWarning(
    level: SafetyLevel,
    warningText: string,
    socialConsequences: seq<string>,
    academicExplanation: string,
    recommendedAction: string)

  datatype ElementKind = Addressing | CulturalReference | ToneMarker

  datatype PersonalityElement = PersonalityElement(kind: ElementKind, content: string, region: Option<Region>)

  datatype TranslationResult = TranslationResult(
    term: Option<SlangTerm>,
    formattedResponse: string,
    safetyWarning: Option<SafetyWarning>,
    culturalNotes: seq<string>,
    personalityElements: seq<PersonalityElement>,
    isTermFound: bool)

  datatype CulturalContext = CulturalContext(markers: seq<string>, references: seq<string>, heuristics: seq<string>)

  datatype PersonalityTraits = PersonalityTraits(
    addressingTerms: seq<string>,
    culturalReferences: seq<string>,
    toneMarkers: seq<string>)

  datatype SafetyAssessment = SafetyAssessment(
    level: SafetyLevel,
    requiresWarning: bool,
    warningText: Option<string>,
    socialConsequences: seq<string>)

  datatype FormattedResponse = FormattedResponse(
    content: string,
    safetyWarning: Option<SafetyWarning>,
    culturalNotes: seq<string>)

  /** A value or nothing: the source's `null` / `undefined`. */
  datatype Option<+T> = None | Some(value: T)
}
