# Bengali slang translator — a Dafny model

"The Local Guide" is a slang translator. It looks a Bengali slang term up in a fixed
table of 32 records. It then renders a templated answer in a local "Dada" persona:
the script, a safety warning where one is needed, the meaning, the cultural context,
region-specific notes and examples, and the safety tier.

This project models that core and proves what it promises:

- the four-stage, first-hit-wins lookup of `findTerm` and the filters beside it;
- the safety classifier's total map from the four tiers to warnings, consequences and tones;
- the regional adapter's tables, its keyword heuristics and its tone decorator;
- the response composer's priority dispatch and the fixed order of its sections;
- the application facade with its command-line dispatcher and region aliases;
- the lexicon itself, with the invariants its validation suite asserts;
- the second, simpler browser translator, and its own table of 37 entries.

Modules follow the program's files:

- `Types` (`types.dfy`): the enums and record shapes of `src/types/index.ts`
- `Text` (`text.dfy`): the JavaScript string operations the core uses (`trim`, ASCII `toLowerCase`/`toUpperCase`, `includes`, `startsWith`, `join`, `split(/\s+/)`, `replace(/bhaiya/gi, '')`)
- `Lists` (`lists.dfy`): `Array.prototype.filter` and distinctness
- `LexiconData` (`lexicon_data.dfy`): `LEXICON_DATA`, transcribed record by record
- `LexiconService` (`lexicon_service.dfy`): `src/services/LexiconService.ts`
- `SafetyValidator` (`safety_validator.dfy`): `src/services/SafetyValidator.ts`
- `RegionalAdapter` (`regional_adapter.dfy`): `src/services/RegionalAdapter.ts`
- `TranslationEngine` (`translation_engine.dfy`): `dist/services/TranslationEngine.js` (its TypeScript source is not part of this model)
- `SlangTranslator` (`translator.dfy`): `src/BengaliSlangTranslator.ts`
- `WebTranslator` (`web_translator.dfy`): class `WebBengaliTranslator` of `web-translator.js`
- `WebLexicon` (`web_lexicon.dfy`): the `bengaliLexicon` table of `web-translator.js`, transcribed entry by entry

How the model is shaped:

- **Lexicon as a parameter.** Each service's only field is set once in its constructor, so
  operations are functions of the record sequence `lex`. The shipped table is
  `LexiconData.LEXICON_DATA`.
- **Randomness as parameters.** Every `Math.random` choice is an explicit parameter:
  - a position, reduced modulo the list length as `Math.floor(random * n)` is;
  - a boolean for the 30% or 20% "add a regional expression" coin.

  These are `RegionalAdapter.ToneDraw` and `TranslationEngine.Draws`.
- **Step-by-step code as methods.** Code that builds a string with `+=` or an array with
  `push` is an imperative method, proved equal to a declarative function. This covers:
  - `adaptTone` and the `apply*Tone` helpers;
  - `getRegionalHeuristics` and `getCulturalContext`;
  - `buildFormattedResponse` and `createBhaiyaCorrectionResult`;
  - `generateCulturalNotes` and `generatePersonalityElements`;
  - the browser's `createTranslationResponse`, `searchByMeaning` and `getSafeTerms`.

  The properties are then proved about those functions.
- **Responses as sections.** A found term's response is a sequence of typed sections, or
  lines in the browser translator, and their rendering. That is how the order, presence
  and absence of a section are stated and proved.

## Model

| member | source | states |
|---|---|---|
| `LexiconService.FirstMatch` | src/services/LexiconService.ts:23-59 | one `find` stage: the position of the first record that is a hit at that stage, or the length when no record is |
| `LexiconService.FindTerm` | src/services/LexiconService.ts:18-60 | a blank query finds nothing; any answer is a member of the lexicon |
| `LexiconService.FindTermFirstStageWins` | src/services/LexiconService.ts:23-59 | the first hit of a stage is the answer whenever no earlier stage has any hit: an exact word beats the script, the script beats word overlap, and word overlap beats meaning overlap |
| `LexiconService.FindTermAnswerIsFirstHit` | src/services/LexiconService.ts:18-60 | every answer is the first hit of some stage, and every earlier stage has no hit at all |
| `LexiconService.FindTermNone` | src/services/LexiconService.ts:18-60 | nothing is found exactly when the query is blank or no record is a hit at any of the four stages |
| `LexiconService.ValidateTermExistsIff` | src/services/LexiconService.ts:74-76 | a term exists exactly when the query is not blank and some record is a hit at some stage |
| `LexiconService.GetTermsByRegion` | src/services/LexiconService.ts:65-69 | exactly the records whose region list names the region |
| `LexiconService.GetTermsBySafetyLevel` | src/services/LexiconService.ts:88-92 | exactly the records whose tier's name equals the given string |
| `LexiconService.FiltersKeepOrder` | src/services/LexiconService.ts:65-92 | both filters distribute over concatenation, so they keep storage order |
| `LexiconService.TermsBySafetyLevelName` | src/services/LexiconService.ts:88-92 | filtering by a tier's name gives only that tier's records; a string naming no tier gives nothing |
| `LexiconService.SearchByMeaning` | src/services/LexiconService.ts:97-109 | a blank query gives nothing; otherwise exactly the records whose lower-cased meaning, usage or context contains the trimmed, lower-cased query |
| `LexiconService.GetAllTerms` | src/services/LexiconService.ts:81-83 | a copy equal to the stored sequence |
| `LexiconService.GetRandomTerm` | src/services/LexiconService.ts:114-120 | nothing exactly for an empty lexicon; otherwise a member |
| `LexiconService.RandomTermReachesEvery` | src/services/LexiconService.ts:114-120 | every record is the pick for its own position |
| `LexiconService.FoundByOwnWord` | src/services/LexiconService.ts:23-32 | in a well-formed lexicon with distinct lower-cased words, each record is found by its word, and by its word upper-cased |
| `LexiconService.FoundByOwnScript` | src/services/LexiconService.ts:35-41 | in a well-formed lexicon with distinct scripts, each record is found by its Bengali script |
| `LexiconService.StoredTermsAreFound` | src/data/lexicon.ts:5-331 | every shipped record is found by its word, its upper-cased word and its script |
| `LexiconData.LexiconWellFormed` | src/data/lexicon.ts:5-331 | every record has non-empty text fields, unpadded keys, an ASCII word and a Bengali script, no examples when "Do not use" and some when "Safe / Friendly"; each record belongs to exactly one region, that of its block of the table |
| `LexiconData.LexiconKeysDistinct` | src/data/lexicon.ts:5-331 | no two records share a lower-cased word or a script |
| `LexiconData.LevelCoverage` | src/data/lexicon.ts:5-331 | each of the four tiers occurs |
| `LexiconData.RegionCoverage` | src/data/lexicon.ts:5-331 | each of the three regions occurs |
| `LexiconData.OffensiveOnlyPetHoyeche` | src/data/lexicon.ts:109-118 | the "Pet hoyeche" record is the only "Offensive / Annoying" one |
| `SafetyValidator.AssessSafetyLevel` | src/services/SafetyValidator.ts:11-13 | the record's own tier |
| `SafetyValidator.GenerateWarning` | src/services/SafetyValidator.ts:18-80 | the warning carries the term's tier and a non-empty text; five consequences for "Do not use" and four otherwise; the explanation opens with the word and, in parentheses, its script |
| `SafetyValidator.WarningSentence` | src/services/SafetyValidator.ts:18-80 | every tier has a non-empty warning sentence |
| `SafetyValidator.Consequences` | src/services/SafetyValidator.ts:18-80 | five consequences for "Do not use", four for every other tier |
| `SafetyValidator.ShouldBlockContent` | src/services/SafetyValidator.ts:85-89 | nothing is ever blocked |
| `SafetyValidator.RequiresWarning` | src/services/SafetyValidator.ts:94-97 | exactly the two upper tiers |
| `SafetyValidator.IsSafeForExamples` | src/services/SafetyValidator.ts:122-125 | exactly the two lower tiers |
| `SafetyValidator.WarningOrExamples` | src/services/SafetyValidator.ts:94-125 | every term needs a warning or is safe for examples, never both |
| `SafetyValidator.GetWarningText` | src/services/SafetyValidator.ts:102-109 | non-empty exactly when a warning is required |
| `SafetyValidator.WarningTextsAgree` | src/services/SafetyValidator.ts:18-109 | the upper tiers' generated text is the short text, which is the exact heavy or offensive sentence; the lower tiers get a non-empty note while the short text is empty |
| `SafetyValidator.GetSocialConsequences` | src/services/SafetyValidator.ts:114-117 | at least four consequences |
| `SafetyValidator.SocialConsequencesOfWarning` | src/services/SafetyValidator.ts:114-117 | the list is the generated warning's consequence list |
| `SafetyValidator.GetExplanationTone` | src/services/SafetyValidator.ts:130-142 | academic exactly for "Do not use", cautious exactly for "Offensive / Annoying", friendly exactly for the two lower tiers; never "warning" |
| `RegionalAdapter.GetPersonalityTraits` | src/services/RegionalAdapter.ts:57-89 | addressing always holds Dada, Didi and Boss, and Kolkata adds exactly Bhai; references and tone markers are non-empty |
| `RegionalAdapter.GetRegionalMarkers` | src/services/RegionalAdapter.ts:151-162 | four markers for every region |
| `RegionalAdapter.GetRegionalReferences` | src/services/RegionalAdapter.ts:167-193 | four references for every region |
| `RegionalAdapter.RegionalExpressions` | src/services/RegionalAdapter.ts:94-146 | four expressions in each region's pool |
| `RegionalAdapter.ApplyKolkataTone` | src/services/RegionalAdapter.ts:94-108 | the response, followed by a space and the drawn Kolkata expression when the coin says so |
| `RegionalAdapter.ApplyBardhamanTone` | src/services/RegionalAdapter.ts:113-127 | the same with the Bardhaman pool |
| `RegionalAdapter.ApplyTarakeswarTone` | src/services/RegionalAdapter.ts:132-146 | the same with the Tarakeswar/Hooghly pool |
| `RegionalAdapter.AdaptTone` | src/services/RegionalAdapter.ts:11-37 | appending the drawn marker and then the region's flavour gives the value of the tone function for that draw |
| `RegionalAdapter.DecoratedShape` | src/services/RegionalAdapter.ts:11-37 | any marker list and expression pool give the base, a space, one marker and an optional " expression" tail |
| `RegionalAdapter.AdaptedToneShape` | src/services/RegionalAdapter.ts:11-37 | whatever the draw, the text is the base, a space, one of the region's markers and an optional " expression" tail; so the base is a prefix and the text grows |
| `RegionalAdapter.DecoratedReachesEvery` | src/services/RegionalAdapter.ts:11-37 | a draw naming positions in both lists picks exactly those entries |
| `RegionalAdapter.AdaptedToneReachesEvery` | src/services/RegionalAdapter.ts:11-37 | every marker, with or without every expression, comes from some draw |
| `RegionalAdapter.AdaptedToneEndsVisibly` | src/services/RegionalAdapter.ts:11-37 | the adapted text starts with the base and ends in a visible character, so a final `trim` keeps all of it |
| `RegionalAdapter.IsTeaStallRelated` | src/services/RegionalAdapter.ts:238-242 | true exactly when the lower-cased text contains one of "tea", "cha", "stall", "dokan", "adda" |
| `RegionalAdapter.GetRegionalHeuristics` | src/services/RegionalAdapter.ts:198-233 | the pushes build the declarative heuristic list |
| `RegionalAdapter.RegionTipsAreNotTea` | src/services/RegionalAdapter.ts:206-230 | the region-specific tips never include the tea-stall sentence |
| `RegionalAdapter.HeuristicsFacts` | src/services/RegionalAdapter.ts:198-233 | the tea-stall sentence is first exactly when the word or usage is tea-stall related, and present only then; at most three tips; Bardhaman always has the Mihidana/Sitabhog tip; Tarakeswar/Hooghly always ends with the temple-town tip |
| `RegionalAdapter.GetCulturalContext` | src/services/RegionalAdapter.ts:42-52 | the record assembled from the region's tables and heuristics |
| `RegionalAdapter.ContextIndependentOfTerm` | src/services/RegionalAdapter.ts:42-52 | markers and references depend on the region alone and are non-empty |
| `RegionalAdapter.GetRegionalAddressing` | src/services/RegionalAdapter.ts:247-251 | always one of the region's addressing terms |
| `RegionalAdapter.RequiresExtraCaution` | src/services/RegionalAdapter.ts:256-258 | exactly Tarakeswar/Hooghly |
| `TranslationEngine.ValidateSafety` | dist/services/TranslationEngine.js:48-59 | the tier; the warning flag as the validator decides; a warning text exactly when flagged, equal to the validator's non-empty short text; the validator's consequences |
| `TranslationEngine.FormatResponse` | dist/services/TranslationEngine.js:61-69 | the content, warning and notes of the result |
| `TranslationEngine.AddressingTerm` | dist/services/TranslationEngine.js:71-77 | "Dada" without a region, otherwise one of the region's addressing terms |
| `TranslationEngine.LayoutOrder` | dist/services/TranslationEngine.js:71-107 | any layout's sections strictly increase in place; the script comes first and the level last; a shown warning is second and shown examples are next to last |
| `TranslationEngine.LayoutPresence` | dist/services/TranslationEngine.js:71-107 | a layout holds the warning, regional-notes and examples sections exactly when each is shown |
| `TranslationEngine.SectionsInOrder` | dist/services/TranslationEngine.js:71-107 | the response's sections are in place order: script, warning, meaning, cultural context, regional notes, examples, level; warning exactly when required with a text; regional notes exactly when there are heuristics; examples exactly for the two lower tiers with examples |
| `TranslationEngine.WarningSectionIff` | dist/services/TranslationEngine.js:76-78 | the warning section is present exactly when the validator requires a warning, and then it is second |
| `TranslationEngine.RenderLayout` | dist/services/TranslationEngine.js:71-107 | a layout renders to its sections' texts in order, each optional one only when shown |
| `TranslationEngine.AppendSections` | dist/services/TranslationEngine.js:71-101 | the `+=` steps build the rendered sections |
| `TranslationEngine.BuildFormattedResponse` | dist/services/TranslationEngine.js:71-107 | the built text is the trimmed, regionally toned body |
| `TranslationEngine.TonedFacts` | dist/services/TranslationEngine.js:102-105 | toning keeps the body as a prefix, is the identity without a region, and ends visibly with one |
| `TranslationEngine.BodyFrame` | dist/services/TranslationEngine.js:71-101 | the body opens with the bold script and closes with the level line |
| `TranslationEngine.ResponseExtendsBody` | dist/services/TranslationEngine.js:101-106 | the final response starts with the body, and is the body itself without a region |
| `TranslationEngine.ResponseContains` | dist/services/TranslationEngine.js:101-106 | anything the body contains, the response contains |
| `TranslationEngine.ResponseFrameWithoutRegion` | dist/services/TranslationEngine.js:74-106 | without a region the response starts with `**<script>**` and ends with `**Safety Level:** <tier>` |
| `TranslationEngine.WarningSecond` | dist/services/TranslationEngine.js:76-78 | a shown warning is the second section |
| `TranslationEngine.ExamplesPenultimate` | dist/services/TranslationEngine.js:97-99 | shown examples are the section before the level |
| `TranslationEngine.ResponseShowsWarningLine` | dist/services/TranslationEngine.js:76-78 | a shown warning puts "⚠️ <text>" in the response |
| `TranslationEngine.ResponseShowsWarning` | dist/services/TranslationEngine.js:39-78 | for a term requiring a warning, the response contains "⚠️" and the validator's short text |
| `TranslationEngine.ResponseShowsExamples` | dist/services/TranslationEngine.js:97-99 | shown examples put the examples label and every example in the response |
| `TranslationEngine.GenerateCulturalNotes` | dist/services/TranslationEngine.js:193-209 | the pushes build the declarative note list |
| `TranslationEngine.CulturalNotesInOrder` | dist/services/TranslationEngine.js:193-209 | "Used in: ..." first when the region list is non-empty, then the level note, then with a region only "Regional context: <first reference>" |
| `TranslationEngine.GeneratePersonalityElements` | dist/services/TranslationEngine.js:213-233 | the pushes build the declarative element list |
| `TranslationEngine.PersonalityElementsShape` | dist/services/TranslationEngine.js:213-233 | one addressing element, then with a region one cultural reference from its traits |
| `TranslationEngine.CreateEmptyResult` | dist/services/TranslationEngine.js:178-189 | not found, no term and no warning; the message as the response; the fixed note and a "Dada" element |
| `TranslationEngine.UnknownReplyFacts` | dist/services/TranslationEngine.js:111-134 | the unknown-term reply opens with the address and the input and mentions "cha-er dokan", toned or not |
| `TranslationEngine.CreateUnknownTermResult` | dist/services/TranslationEngine.js:111-134 | not found, no term and no warning; exactly the unknown-term note; the opening and the "cha-er dokan" advice in the response; an addressing element and the "cha-er dokan" reference |
| `TranslationEngine.CreateBhaiyaCorrectionResult` | dist/services/TranslationEngine.js:138-174 | the `+=` steps build the declarative correction result |
| `TranslationEngine.BhaiyaCorrectionOpens` | dist/services/TranslationEngine.js:138-174 | the response starts with the fixed correction sentence and the first note is the correction note |
| `TranslationEngine.BhaiyaCorrectionResolves` | dist/services/TranslationEngine.js:138-174 | found exactly when the input, with every "bhaiya" removed case-insensitively and then trimmed, resolves through `findTerm` |
| `TranslationEngine.WarningFor` | dist/services/TranslationEngine.js:39 | a warning record exactly when a warning is required |
| `TranslationEngine.TranslateTerm` | dist/services/TranslationEngine.js:17-44 | blank input, then "bhaiya", then lookup; found exactly when a term is returned, and that term is a member |
| `TranslationEngine.TranslateBlank` | dist/services/TranslationEngine.js:19-21 | blank input gives the fixed prompt, not found |
| `TranslationEngine.TranslateBhaiya` | dist/services/TranslationEngine.js:23-25 | input mentioning "bhaiya" in any case opens with the correction |
| `TranslationEngine.TranslateUnknown` | dist/services/TranslationEngine.js:27-30 | an unresolved term is not found, has no warning, exactly the unknown note and "cha-er dokan" in the response |
| `TranslationEngine.TranslateFound` | dist/services/TranslationEngine.js:27-44 | a resolved term is found with that term; its warning is present exactly when required and is then the validator's warning; its response is the formatted response and its notes are the generated notes |
| `SlangTranslator.CreateErrorResult` | src/BengaliSlangTranslator.ts:266-279 | not found, no term and no warning; the response names the input and ends with the message; the error note and a "Dada" element |
| `SlangTranslator.GetToneStyleForRegion` | src/BengaliSlangTranslator.ts:216-227 | light and witty exactly for Kolkata, earthy exactly for Bardhaman, extra cautious exactly for Tarakeswar/Hooghly |
| `SlangTranslator.GetSafetyThresholdForRegion` | src/BengaliSlangTranslator.ts:232-238 | "Friendly Roast" exactly for Tarakeswar/Hooghly, "Safe / Friendly" otherwise |
| `SlangTranslator.CautionAgrees` | src/BengaliSlangTranslator.ts:216-238 | the strict threshold, the cautious tone and the adapter's extra-caution flag pick out the same region |
| `SlangTranslator.CreateRegionalContext` | src/BengaliSlangTranslator.ts:202-211 | the region, its cultural references as markers, its tone and its threshold |
| `SlangTranslator.ContextFor` | src/BengaliSlangTranslator.ts:44-46 | a context exactly when a region is given, for that region |
| `SlangTranslator.ParseRegion` | src/BengaliSlangTranslator.ts:243-261 | a missing or empty token gives no region; a region only when the lower-cased token is one of its aliases, and then always that one |
| `SlangTranslator.ParseRegionIgnoresCase` | src/BengaliSlangTranslator.ts:246-247 | upper- or lower-casing the token does not change the region |
| `SlangTranslator.AliasesParse` | src/BengaliSlangTranslator.ts:248-257 | every alias, as written or upper-cased, names its region |
| `SlangTranslator.Translate` | src/BengaliSlangTranslator.ts:35-52 | a non-string input gives the "Invalid input type" error; a string is the engine's answer in the region's context; found exactly when a term is returned |
| `SlangTranslator.TermExists` | src/BengaliSlangTranslator.ts:86-88 | true exactly when the lookup finds something, never for blank input |
| `SlangTranslator.GetRegionalTerms` | src/BengaliSlangTranslator.ts:93-95 | each word belongs to a record of the region, and every such record's word is listed |
| `SlangTranslator.SearchByMeaning` | src/BengaliSlangTranslator.ts:100-102 | nothing for a blank query; each word belongs to a matching record, and every matching record's word is listed |
| `SlangTranslator.GetRandomTerm` | src/BengaliSlangTranslator.ts:107-110 | nothing exactly for an empty lexicon; otherwise some record's word |
| `SlangTranslator.GetSafeTerms` | src/BengaliSlangTranslator.ts:115-118 | exactly the words of "Safe / Friendly" records, so never a "Friendly Roast" one |
| `SlangTranslator.ProcessCommand` | src/BengaliSlangTranslator.ts:142-150 | the empty command is refused as invalid |
| `Text.SplitSpacedWords` | src/BengaliSlangTranslator.ts:147 | `split(/\s+/)` of words separated by non-empty white-space runs gives back exactly those words |
| `Text.TrimPadded` | src/BengaliSlangTranslator.ts:147 | `trim` removes exactly the white space before and after a string that starts and ends visibly |
| `Text.SplitPaddedLine` | src/BengaliSlangTranslator.ts:147 | such words with any white space before and after are a non-empty line whose trimmed split is those words |
| `SlangTranslator.TokensOfLine` | src/BengaliSlangTranslator.ts:147-149 | a command line of words separated by white-space runs, padded with white space, is non-empty and tokenises into its words: the first is the command word, the rest are the arguments |
| `SlangTranslator.LineDispatch` | src/BengaliSlangTranslator.ts:147-197 | such a line is answered by its lower-cased first word with the other words as arguments |
| `SlangTranslator.PaddedTranslateLine` | src/BengaliSlangTranslator.ts:147-160 | `translate <term>` with any white space around and between, such as `"  translate   lyadh   "`, is the translate reply for that term alone |
| `SlangTranslator.CommandWordIgnoresCase` | src/BengaliSlangTranslator.ts:148 | upper-casing the command word of any such line does not change the reply |
| `SlangTranslator.BlankCommandIsUnknown` | src/BengaliSlangTranslator.ts:143-192 | a non-empty line of white space alone is not refused but answered as the unknown command "" |
| `SlangTranslator.TranslateCommand` | src/BengaliSlangTranslator.ts:153-160 | `translate ...` is answered by the translate reply for its arguments |
| `SlangTranslator.TranslateReplyFacts` | src/BengaliSlangTranslator.ts:153-160 | without arguments it asks for a term; otherwise only the first argument is translated, in the region the second names, and further tokens are ignored |
| `SlangTranslator.SearchCommand` | src/BengaliSlangTranslator.ts:162-171 | without arguments it asks for a meaning; otherwise it searches for the arguments joined by single spaces |
| `SlangTranslator.SearchReplyShape` | src/BengaliSlangTranslator.ts:168-171 | with no matches the reply quotes the query; otherwise it starts "Found terms: " and contains every word |
| `SlangTranslator.RandomCommand` | src/BengaliSlangTranslator.ts:173-179 | `random` is answered with the random reply |
| `SlangTranslator.RandomReplyFacts` | src/BengaliSlangTranslator.ts:173-179 | an empty lexicon gives "No terms available!"; a non-empty drawn word gives a reply starting "Random term: " |
| `SlangTranslator.SafeTermsCommand` | src/BengaliSlangTranslator.ts:181-183 | `safe-terms` is answered with the listing of the safe words |
| `SlangTranslator.SafeTermsReplyShape` | src/BengaliSlangTranslator.ts:181-183 | up to ten words are listed in full; with more, the reply ends in "..." and the first ten words all appear |
| `SlangTranslator.FixedCommands` | src/BengaliSlangTranslator.ts:185-189 | `help` and `exit` get their fixed texts whatever follows them |
| `SlangTranslator.DispatchUnknown` | src/BengaliSlangTranslator.ts:191-192 | a word outside the six command words gets the unknown-command reply naming it |
| `SlangTranslator.UnknownCommand` | src/BengaliSlangTranslator.ts:191-192 | an unknown command word is echoed back lower-cased |
| `WebTranslator.Greeting` | web-translator.js:369-390 | a greeting exactly for the four personality keys, and it is "Dada" |
| `WebTranslator.Lookup` | web-translator.js:406 | property access: an entry with exactly that key, or nothing when no key equals it |
| `WebTranslator.LookupOwnKey` | web-translator.js:406 | with distinct keys, each entry is found under its own key |
| `WebTranslator.CapitalizeFirst` | web-translator.js:505-507 | same length; a non-empty string has its first character upper-cased and the rest unchanged |
| `WebTranslator.CapitalizeFirstFacts` | web-translator.js:505-507 | empty exactly for the empty string; lower-casing ignores it; idempotent |
| `WebTranslator.ResponseLinesShape` | web-translator.js:416-436 | the script line first, the level line last, the examples line always before it; the heavy warning exactly for "Do not use"; the warning note exactly for "Do not use" with a non-empty warning, as the truthiness test skips an empty one; the greeting line exactly otherwise |
| `WebTranslator.ResponseTextFrame` | web-translator.js:421-436 | the text starts `**<bengali>**\n\n`, ends `**Safety Level:** <level>` and shows the examples line |
| `WebTranslator.TranslationResponseOf` | web-translator.js:416-444 | a result exactly when the region has a personality; it copies the entry's level, meaning and script and the looked-up term |
| `WebTranslator.AppendMiddle` | web-translator.js:423-431 | appending the heavy warning block (with the warning note only for a non-empty warning) or the greeting line adds exactly the middle lines |
| `WebTranslator.CreateTranslationResponse` | web-translator.js:416-444 | the `+=` steps build the declarative response |
| `WebTranslator.CreateBhaiyaCorrection` | web-translator.js:446-454 | term "dada", "Safe / Friendly", the elder-brother meaning, and the fixed opening sentence |
| `WebTranslator.CreateUnknownTermResponse` | web-translator.js:456-465 | a result exactly when the region has a personality: level "Unknown", script "?", meaning "Unknown term", the term as typed, and an opening naming it |
| `WebTranslator.Translate` | web-translator.js:398-414 | "bhaiya" anywhere in the cleaned term gives the correction; otherwise an exact key lookup, answered as unknown or as that entry |
| `WebTranslator.TranslateExact` | web-translator.js:398-414 | no fuzzy matching: past the "bhaiya" check a known level or script means some key equals the cleaned term, and with distinct keys the result copies that entry; an unknown region always fails |
| `WebTranslator.TranslateFound` | web-translator.js:398-444 | a found entry's text is its rendered lines, framed by the bold script and the level, with the examples line |
| `WebTranslator.GetRandomTerm` | web-translator.js:485-489 | nothing for an empty table; otherwise the drawn key's translation in the default region |
| `WebTranslator.RandomTermFound` | web-translator.js:485-489 | with distinct keys that are lower-case, trimmed and free of "bhaiya", the drawn key is always found and the result is that entry's response |
| `WebTranslator.SearchByMeaning` | web-translator.js:467-483 | the loop pushes exactly the matching entries' Kolkata responses, in table order |
| `WebTranslator.SearchResultsIff` | web-translator.js:467-483 | every matching entry's response is listed, and every listed response comes from a matching entry |
| `WebTranslator.GetSafeTerms` | web-translator.js:491-503 | the loop pushes exactly the "Safe / Friendly" entries' key, meaning and script, in table order |
| `WebTranslator.SafeTermsIff` | web-translator.js:491-503 | every "Safe / Friendly" entry is listed, and every listed item comes from one |
| `WebLexicon.KeysColumn` | web-translator.js:5-366 | the transcribed table's key column is the 37 keys of the object literal, in their order |
| `WebLexicon.KeyListFacts` | web-translator.js:5-366 | the 37 keys are pairwise distinct; each is lower-case letters, spaces and hyphens, begins and ends with a letter, and lacks the "y" or the "i" of "bhaiya" |
| `WebLexicon.PlainKeyFacts` | web-translator.js:399 | such a key is unchanged by `toLowerCase().trim()` and is not an array index |
| `WebLexicon.MissingCharNotContained` | web-translator.js:402 | a string lacking one character of "bhaiya" does not contain "bhaiya" |
| `WebLexicon.PlainColumnFacts` | web-translator.js:398-407 | any table whose key column is distinct and plain has distinct keys in insertion order, and every key passes the cleaning and the "bhaiya" test unchanged |
| `WebLexicon.ShippedKeys` | web-translator.js:5-366 | the shipped table has distinct keys, `Object.keys` lists them in literal order, and each is already clean and free of "bhaiya" |
| `WebLexicon.ShippedRandomTermFound` | web-translator.js:485-489 | for every draw, the shipped table's random term is found: the response is the drawn entry's, in the default region, under its own key |

The specification functions these rows rely on carry no contract of their own, so they have no row.
They are stated by the lemmas above:

- `SlangTranslator.Dispatch`, `TranslateReply`, `SearchReply`, `SafeTermsReply` and `RandomReply`
  are stated by `LineDispatch`, the command lemmas and the reply lemmas.
- `SlangTranslator.Tokens` is stated by `TokensOfLine` and `BlankCommandIsUnknown`.
- `TranslationEngine.Layout` and `Render` are stated by `LayoutOrder`, `LayoutPresence` and `RenderLayout`.
- `WebTranslator.ResponseLines` and `Render` are stated by `ResponseLinesShape` and `ResponseTextFrame`.

## Left out

- Randomness. The probabilities (the 30% and 20% coins) and uniform choice are not
  modelled. Each choice is a parameter, and the lemmas prove membership and reachability.
  This affects `adaptTone`, `getRegionalAddressing`, both `getRandomTerm`s and
  `generatePersonalityElements`.
- The runtime type checks and exception paths. These are the null/undefined/non-string
  guards and the two try/catch blocks in `src/BengaliSlangTranslator.ts`. Dafny strings are
  typed. A non-string `translate` input is modelled as `SlangTranslator.Input.OtherInput`,
  which yields the "Invalid input type" error result. Nothing in the model throws, so the
  catch branches are not reached.
- Full Unicode case mapping and regular-expression white space.
  - `toLowerCase` and `toUpperCase` are ASCII maps that leave Bengali unchanged.
  - White space is the fixed set `String.prototype.trim` and `\s` use.
  - `/bhaiya/gi` removal is case-insensitive removal of the literal word.
- `interactiveMode`, the help text beyond its presence, console output, the DOM and timer
  handlers of the browser page, the demos and the module exports. These are presentation
  and I/O.
- `translateKolkata`, `translateBardhaman`, `translateTarakeswar` and `getFormattedResponse`.
  Each is one call to `translate` with a fixed region, or a field read off its result.
- The unused parameters. These are `culturalNotes` in `buildFormattedResponse`, `term` in
  `generatePersonalityElements` and `term` in `getCulturalContext`. The model drops the
  first two. `ContextIndependentOfTerm` states that the third does not matter.
- The `default` branches of the switches over the region enum. No `Region` value reaches
  them.
- The `regions` and `category` fields of the browser table's 37 entries. No browser
  operation reads them. The Bengali fields are stored in a garbled encoding (UTF-8 bytes
  read as Mac Roman); `WebLexicon` transcribes them as the script they encode. The fixed
  "Dada" correction uses the intended emoji and Bengali script for its text.
- Prototype properties. Browser lookups of keys such as "constructor" on the entry table
  or the personalities table would reach `Object.prototype`. The model's tables hold only
  their own keys.
- The order of `Object.entries` and `Object.keys`. The browser table is a sequence in walk order.
  `WebTranslator.InsertionOrdered` states when that is the order of the object literal: no key is
  an array index, which `WebLexicon.ShippedKeys` proves for the shipped table. A table with
  array-index keys is not reordered.
- `WebTranslator.GetRandomTerm`: an empty table gives no result; the browser code would call
  `translate(undefined)` and throw.
- The browser translator's `region = 'kolkata'` default. Callers pass the region;
  `DEFAULT_REGION` is what the default supplies.
- The compiled copies under `dist/` of the TypeScript services and facade. They are
  modelled once, from `src/`.
- `LexiconService.GetRandomTerm`: does not model a uniform draw; the position is a
  parameter reduced modulo the length.
