/**
 * The response composer: a priority dispatch (blank input, then the
 * "bhaiya" correction, then an unknown word, then a found record), and for a
 * found record a fixed, ordered list of sections rendered one after another.
 * The random choices of the regional adapter arrive as one `Draws` value.
 */
module TranslationEngine {
  import opened Types
  import opened Text
  import LexiconService
  import SafetyValidator
  import RegionalAdapter

  const EMPTY_MESSAGE: string := "Dada, ki bolcho? Please tell me a word to explain!"
  const EMPTY_NOTE: string := "Empty input provided"
  const UNKNOWN_NOTE: string := "Unknown term - not found in verified lexicon"
  const BHAIYA: string := "bhaiya"
  const BHAIYA_CORRECTION: string := "Boss, ekhane 'Dada' (দাদা) bolun, nahole lok e bhabbe apni tourist!"
  const BHAIYA_NOTE: string := "Bhaiya correction provided"
  const CHA_ER_DOKAN: string := "cha-er dokan"
  const WARNING_SIGN: string := "\U{26A0}\U{FE0F} "
  const LEVEL_LABEL: string := "**Safety Level:** "
  const EXAMPLES_LABEL: string := "**Examples:** "

  /**
   * Every random choice one translation makes: the addressing term and the
   * tone of the response, and the addressing term and cultural reference of
   * the personality elements.
   */
  datatype Draws = Draws(addressing: nat, tone: RegionalAdapter.ToneDraw, elementAddressing: nat, reference: nat)

  /** `validateSafety`: the tier, whether it needs a warning, and the short warning exactly when it does. */
  function ValidateSafety(term: SlangTerm): (a: SafetyAssessment)
    ensures a.level == term.safetyLevel
    ensures a.requiresWarning <==> SafetyValidator.RequiresWarning(term)
    ensures a.warningText.Some? <==> a.requiresWarning
    ensures a.warningText.Some? ==> a.warningText.value == SafetyValidator.GetWarningText(term) != ""
    ensures a.socialConsequences == SafetyValidator.GetSocialConsequences(term)
    ensures |a.socialConsequences| >= 4
  {
    var requiresWarning := SafetyValidator.RequiresWarning(term);
    SafetyAssessment(
      SafetyValidator.AssessSafetyLevel(term),
      requiresWarning,
      if requiresWarning then Some(SafetyValidator.GetWarningText(term)) else None,
      SafetyValidator.GetSocialConsequences(term))
  }

  /** `formatResponse`: the three presentation fields of a result. */
  function FormatResponse(result: TranslationResult): (f: FormattedResponse)
    ensures f.content == result.formattedResponse
    ensures f.safetyWarning == result.safetyWarning && f.culturalNotes == result.culturalNotes
  {
    FormattedResponse(result.formattedResponse, result.safetyWarning, result.culturalNotes)
  }

  /** The addressing term: a regional one when there is a context, "Dada" otherwise. */
  function AddressingTerm(context: Option<RegionalContext>, pick: nat): (a: string)
    ensures context.None? ==> a == "Dada"
    ensures context.Some? ==> a in RegionalAdapter.GetPersonalityTraits(context.value.region).addressingTerms
    ensures a in ["Dada", "Didi", "Boss", "Bhai"]
  {
    if context.Some? then RegionalAdapter.GetRegionalAddressing(context.value.region, pick) else "Dada"
  }

  /** The sections of a found term's response, each rendered by `Render`. */
  datatype Section =
    | ScriptSection(script: string)
    | WarningSection(text: string)
    | MeaningSection(addressing: string, word: string, meaning: string, usage: string)
    | ContextSection(context: string)
    | RegionalNotesSection(heuristics: seq<string>)
    | ExamplesSection(examples: seq<string>)
    | LevelSection(level: SafetyLevel)

  /** The position of each kind of section in a response. */
  function Place(s: Section): nat {
    match s
    case ScriptSection(_) => 1
    case WarningSection(_) => 2
    case MeaningSection(_, _, _, _) => 3
    case ContextSection(_) => 4
    case RegionalNotesSection(_) => 5
    case ExamplesSection(_) => 6
    case LevelSection(_) => 7
  }

  const BOLD: string := "**"
  const PARAGRAPH: string := "\n\n"
  const MEANS: string := "\" means **"
  const SENTENCE_END: string := "**. "
  const CONTEXT_LABEL: string := "**Cultural Context:** "
  const NOTES_LABEL: string := "**Regional Notes:** "

  function Render(s: Section): string {
    match s
    case ScriptSection(script) => BOLD + script + BOLD + PARAGRAPH
    case WarningSection(text) => WARNING_SIGN + text + PARAGRAPH
    case MeaningSection(addressing, word, meaning, usage) =>
      addressing + ", " + "\"" + word + MEANS + meaning + SENTENCE_END + usage + PARAGRAPH
    case ContextSection(context) => CONTEXT_LABEL + context + PARAGRAPH
    case RegionalNotesSection(heuristics) => NOTES_LABEL + Join(heuristics, " ") + PARAGRAPH
    case ExamplesSection(examples) => EXAMPLES_LABEL + Join(examples, ", ") + PARAGRAPH
    case LevelSection(level) => LEVEL_LABEL + LevelName(level)
  }

  /** The text of each section. */
  function Rendered(ss: seq<Section>): (parts: seq<string>)
    ensures |parts| == |ss| && forall i :: 0 <= i < |ss| ==> parts[i] == Render(ss[i])
  {
    seq(|ss|, i requires 0 <= i < |ss| => Render(ss[i]))
  }

  /** The sections rendered one after another. */
  function RenderAll(ss: seq<Section>): string {
    Concat(Rendered(ss))
  }

  lemma RenderAllAppend(a: seq<Section>, b: seq<Section>)
    ensures RenderAll(a + b) == RenderAll(a) + RenderAll(b)
  {
    assert Rendered(a + b) == Rendered(a) + Rendered(b);
    ConcatAppend(Rendered(a), Rendered(b));
  }

  lemma RenderAllSingle(s: Section)
    ensures RenderAll([s]) == Render(s)
  {
    var parts := Rendered([s]);
    assert parts == [Render(s)];
    assert parts[..0] == [];
    assert Concat(parts) == Concat(parts[..0]) + parts[0];
  }

  lemma RenderAllPair(s: Section, t: Section)
    ensures RenderAll([s, t]) == Render(s) + Render(t)
  {
    assert [s, t] == [s] + [t];
    RenderAllAppend([s], [t]);
    RenderAllSingle(s);
    RenderAllSingle(t);
  }

  /** Every section's text occurs in the rendered response. */
  lemma RenderAllContains(ss: seq<Section>, k: nat)
    requires k < |ss|
    ensures Contains(RenderAll(ss), Render(ss[k]))
  {
    ConcatContains(Rendered(ss), k);
  }

  /** `[s]` when `condition` holds, `[]` otherwise. */
  function SectionIf(condition: bool, s: Section): seq<Section> {
    if condition then [s] else []
  }

  lemma RenderAllIf(condition: bool, s: Section)
    ensures RenderAll(SectionIf(condition, s)) == if condition then Render(s) else ""
  {
    if condition {
      RenderAllSingle(s);
    }
  }

  /** The warning line is written when a warning is required and its text is not empty. */
  predicate WarningShown(assessment: SafetyAssessment) {
    assessment.requiresWarning && assessment.warningText.Some? && assessment.warningText.value != ""
  }

  /** The heuristics a context contributes (none without a context). */
  function Heuristics(term: SlangTerm, context: Option<RegionalContext>): seq<string> {
    if context.Some? then RegionalAdapter.CulturalContextOf(context.value.region, term).heuristics else []
  }

  predicate ExamplesShown(term: SlangTerm) {
    SafetyValidator.IsSafeForExamples(term) && term.examples != []
  }

  /** The seven kinds of section in their fixed order, the three optional ones kept under their flags. */
  function Layout(S: Section, W: Section, M: Section, C: Section, N: Section, E: Section, L: Section, w: bool, n: bool, e: bool): seq<Section> {
    [S] + SectionIf(w, W) + [M, C] + SectionIf(n, N) + SectionIf(e, E) + [L]
  }

  /** Each section comes strictly after the ones of a lower place. */
  predicate InPlaceOrder(ss: seq<Section>) {
    forall i, j :: 0 <= i < j < |ss| ==> Place(ss[i]) < Place(ss[j])
  }

  /** Any layout is in place order, opens with the script, closes with the level, warning second, examples last but one. */
  lemma LayoutOrder(S: Section, W: Section, M: Section, C: Section, N: Section, E: Section, L: Section, w: bool, n: bool, e: bool)
    requires S.ScriptSection? && W.WarningSection? && M.MeaningSection? && C.ContextSection?
    requires N.RegionalNotesSection? && E.ExamplesSection? && L.LevelSection?
    ensures var ss := Layout(S, W, M, C, N, E, L, w, n, e);
      && InPlaceOrder(ss)
      && ss[0] == S && ss[|ss| - 1] == L
      && (w ==> ss[1] == W)
      && (e ==> ss[|ss| - 2] == E)
  {
    var ss := Layout(S, W, M, C, N, E, L, w, n, e);
    if w {
      if n {
        if e {
          assert ss == [S, W, M, C, N, E, L];
        } else {
          assert ss == [S, W, M, C, N, L];
        }
      } else {
        if e {
          assert ss == [S, W, M, C, E, L];
        } else {
          assert ss == [S, W, M, C, L];
        }
      }
    } else {
      if n {
        if e {
          assert ss == [S, M, C, N, E, L];
        } else {
          assert ss == [S, M, C, N, L];
        }
      } else {
        if e {
          assert ss == [S, M, C, E, L];
        } else {
          assert ss == [S, M, C, L];
        }
      }
    }
  }

  /** A layout holds a warning, a regional notes or an examples section exactly under that section's flag. */
  lemma LayoutPresence(S: Section, W: Section, M: Section, C: Section, N: Section, E: Section, L: Section, w: bool, n: bool, e: bool)
    requires S.ScriptSection? && W.WarningSection? && M.MeaningSection? && C.ContextSection?
    requires N.RegionalNotesSection? && E.ExamplesSection? && L.LevelSection?
    ensures var ss := Layout(S, W, M, C, N, E, L, w, n, e);
      && ((exists i :: 0 <= i < |ss| && ss[i].WarningSection?) <==> w)
      && ((exists i :: 0 <= i < |ss| && ss[i].RegionalNotesSection?) <==> n)
      && ((exists i :: 0 <= i < |ss| && ss[i].ExamplesSection?) <==> e)
  {
    var ss := Layout(S, W, M, C, N, E, L, w, n, e);
    if w {
      if n {
        if e {
          assert ss == [S, W, M, C, N, E, L];
          assert ss[1].WarningSection?;
          assert ss[4].RegionalNotesSection?;
          assert ss[5].ExamplesSection?;
        } else {
          assert ss == [S, W, M, C, N, L];
          assert ss[1].WarningSection?;
          assert ss[4].RegionalNotesSection?;
        }
      } else {
        if e {
          assert ss == [S, W, M, C, E, L];
          assert ss[1].WarningSection?;
          assert ss[4].ExamplesSection?;
        } else {
          assert ss == [S, W, M, C, L];
          assert ss[1].WarningSection?;
        }
      }
    } else {
      if n {
        if e {
          assert ss == [S, M, C, N, E, L];
          assert ss[3].RegionalNotesSection?;
          assert ss[4].ExamplesSection?;
        } else {
          assert ss == [S, M, C, N, L];
          assert ss[3].RegionalNotesSection?;
        }
      } else {
        if e {
          assert ss == [S, M, C, E, L];
          assert ss[3].ExamplesSection?;
        } else {
          assert ss == [S, M, C, L];
        }
      }
    }
  }

  /** With its flag set, the warning is the second section. */
  lemma LayoutWarningSecond(S: Section, W: Section, M: Section, C: Section, N: Section, E: Section, L: Section, w: bool, n: bool, e: bool)
    requires w
    ensures |Layout(S, W, M, C, N, E, L, w, n, e)| > 1 && Layout(S, W, M, C, N, E, L, w, n, e)[1] == W
  {
  }

  /** With its flag set, the examples are the section before the last. */
  lemma LayoutExamplesPenultimate(S: Section, W: Section, M: Section, C: Section, N: Section, E: Section, L: Section, w: bool, n: bool, e: bool)
    requires e
    ensures var ss := Layout(S, W, M, C, N, E, L, w, n, e);
      |ss| > 1 && ss[|ss| - 2] == E
  {
  }

  /** The sections `buildFormattedResponse` emits, in order, given the addressing term and the regional heuristics. */
  function ResponseSections(term: SlangTerm, assessment: SafetyAssessment, addressing: string, heuristics: seq<string>): seq<Section> {
    Layout(
      ScriptSection(term.banglaScript),
      WarningSection(if assessment.warningText.Some? then assessment.warningText.value else ""),
      MeaningSection(addressing, term.word, term.meaning, term.usage),
      ContextSection(term.culturalContext),
      RegionalNotesSection(heuristics),
      ExamplesSection(term.examples),
      LevelSection(term.safetyLevel),
      WarningShown(assessment), heuristics != [], ExamplesShown(term))
  }

  /**
   * The sections come in strictly increasing place: script first, safety level
   * last, and each optional section present exactly under its condition, the
   * warning right after the script and the examples right before the level.
   */
  lemma SectionsInOrder(term: SlangTerm, assessment: SafetyAssessment, addressing: string, heuristics: seq<string>)
    ensures var ss := ResponseSections(term, assessment, addressing, heuristics);
      && InPlaceOrder(ss)
      && ss[0] == ScriptSection(term.banglaScript)
      && ss[|ss| - 1] == LevelSection(term.safetyLevel)
      && ((exists i :: 0 <= i < |ss| && ss[i].WarningSection?) <==> WarningShown(assessment))
      && (WarningShown(assessment) ==> ss[1] == WarningSection(assessment.warningText.value))
      && ((exists i :: 0 <= i < |ss| && ss[i].RegionalNotesSection?) <==> heuristics != [])
      && ((exists i :: 0 <= i < |ss| && ss[i].ExamplesSection?) <==> ExamplesShown(term))
      && (ExamplesShown(term) ==> ss[|ss| - 2] == ExamplesSection(term.examples))
  {
    var S := ScriptSection(term.banglaScript);
    var W := WarningSection(if assessment.warningText.Some? then assessment.warningText.value else "");
    var M := MeaningSection(addressing, term.word, term.meaning, term.usage);
    var C := ContextSection(term.culturalContext);
    var N := RegionalNotesSection(heuristics);
    var E := ExamplesSection(term.examples);
    var L := LevelSection(term.safetyLevel);
    LayoutOrder(S, W, M, C, N, E, L, WarningShown(assessment), heuristics != [], ExamplesShown(term));
    LayoutPresence(S, W, M, C, N, E, L, WarningShown(assessment), heuristics != [], ExamplesShown(term));
  }

  /** The response text before tone and trimming. */
  function Body(term: SlangTerm, assessment: SafetyAssessment, addressing: string, heuristics: seq<string>): string {
    RenderAll(ResponseSections(term, assessment, addressing, heuristics))
  }

  /** The regional tone, applied only when there is a context. */
  function Toned(context: Option<RegionalContext>, text: string, tone: RegionalAdapter.ToneDraw): string {
    if context.Some? then RegionalAdapter.AdaptedTone(context.value.region, text, tone) else text
  }

  lemma TonedFacts(context: Option<RegionalContext>, text: string, tone: RegionalAdapter.ToneDraw)
    ensures StartsWith(Toned(context, text, tone), text)
    ensures context.None? ==> Toned(context, text, tone) == text
    ensures context.Some? ==> EndsVisibly(Toned(context, text, tone))
  {
    if context.Some? {
      RegionalAdapter.AdaptedToneEndsVisibly(context.value.region, text, tone);
    } else {
      StartsWithSelf(text);
    }
  }

  /** The value of `buildFormattedResponse`. */
  function FormattedResponseOf(term: SlangTerm, assessment: SafetyAssessment, context: Option<RegionalContext>, draws: Draws): string {
    var body := Body(term, assessment, AddressingTerm(context, draws.addressing), Heuristics(term, context));
    Trim(Toned(context, body, draws.tone))
  }

  /** The text of an optional section: its rendering when shown, nothing otherwise. */
  function Piece(shown: bool, s: Section): string {
    if shown then Render(s) else ""
  }

  /** A layout renders to its sections' texts one after another. */
  lemma RenderLayout(S: Section, W: Section, M: Section, C: Section, N: Section, E: Section, L: Section, w: bool, n: bool, e: bool)
    ensures RenderAll(Layout(S, W, M, C, N, E, L, w, n, e))
      == Render(S) + Piece(w, W) + (Render(M) + Render(C)) + Piece(n, N) + Piece(e, E) + Render(L)
  {
    var a := [S];
    var b := a + SectionIf(w, W);
    var c := b + [M, C];
    var d := c + SectionIf(n, N);
    var f := d + SectionIf(e, E);
    RenderAllSingle(S);
    RenderAllAppend(a, SectionIf(w, W));
    RenderAllIf(w, W);
    RenderAllAppend(b, [M, C]);
    RenderAllPair(M, C);
    RenderAllAppend(c, SectionIf(n, N));
    RenderAllIf(n, N);
    RenderAllAppend(d, SectionIf(e, E));
    RenderAllIf(e, E);
    RenderAllAppend(f, [L]);
    RenderAllSingle(L);
  }

  /**
   * The section-appending part of `buildFormattedResponse`, given the
   * addressing term and the regional heuristics it has looked up.
   */
  method AppendSections(term: SlangTerm, assessment: SafetyAssessment, addressing: string, heuristics: seq<string>)
    returns (response: string)
    ensures response == Body(term, assessment, addressing, heuristics)
  {
    var script := ScriptSection(term.banglaScript);
    response := Render(script);

    var showWarning := assessment.requiresWarning && assessment.warningText.Some? && assessment.warningText.value != "";
    var warning := WarningSection(if assessment.warningText.Some? then assessment.warningText.value else "");
    ghost var before := response;
    if showWarning {
      response := response + Render(warning);
    }
    assert response == before + Piece(showWarning, warning);

    var meaning := MeaningSection(addressing, term.word, term.meaning, term.usage);
    var cultural := ContextSection(term.culturalContext);
    response := response + (Render(meaning) + Render(cultural));

    var notes := RegionalNotesSection(heuristics);
    before := response;
    if |heuristics| > 0 {
      response := response + Render(notes);
    }
    assert response == before + Piece(heuristics != [], notes);

    var showExamples := SafetyValidator.IsSafeForExamples(term) && |term.examples| > 0;
    var examples := ExamplesSection(term.examples);
    before := response;
    if showExamples {
      response := response + Render(examples);
    }
    assert response == before + Piece(showExamples, examples);

    var level := LevelSection(term.safetyLevel);
    response := response + Render(level);
    RenderLayout(script, warning, meaning, cultural, notes, examples, level, showWarning, heuristics != [], showExamples);
  }

  /** `buildFormattedResponse`: the sections, then the regional tone, then trimming. */
  method BuildFormattedResponse(term: SlangTerm, assessment: SafetyAssessment, context: Option<RegionalContext>, draws: Draws)
    returns (response: string)
    ensures response == FormattedResponseOf(term, assessment, context, draws)
  {
    var addressing := if context.Some? then RegionalAdapter.GetRegionalAddressing(context.value.region, draws.addressing) else "Dada";
    var heuristics: seq<string> := [];
    if context.Some? {
      var regionalContext := RegionalAdapter.GetCulturalContext(context.value.region, term);
      heuristics := regionalContext.heuristics;
    }
    response := AppendSections(term, assessment, addressing, heuristics);
    if context.Some? {
      response := RegionalAdapter.AdaptTone(context.value.region, response, draws.tone);
    }
    response := Trim(response);
  }

  /** The level names end in a letter. */
  lemma LevelNameEndsVisibly(level: SafetyLevel)
    ensures EndsVisibly(LevelName(level))
  {
  }

  /** The unadorned body starts with the bold script and ends with the safety level line. */
  lemma BodyFrame(term: SlangTerm, assessment: SafetyAssessment, addressing: string, heuristics: seq<string>)
    ensures var body := Body(term, assessment, addressing, heuristics);
      && StartsWith(body, BOLD + term.banglaScript + BOLD)
      && EndsWith(body, LEVEL_LABEL + LevelName(term.safetyLevel))
      && EndsVisibly(body)
  {
    var ss := ResponseSections(term, assessment, addressing, heuristics);
    SectionsInOrder(term, assessment, addressing, heuristics);
    var first := ss[0];
    var middle := ss[1..|ss| - 1];
    var last := ss[|ss| - 1];
    assert ss == [first] + middle + [last];
    RenderAllAppend([first] + middle, [last]);
    RenderAllAppend([first], middle);
    RenderAllSingle(first);
    RenderAllSingle(last);
    var head := Render(first);
    var init := head + RenderAll(middle);
    var tail := Render(last);
    var body := init + tail;
    PrefixOfAppend(BOLD + term.banglaScript + BOLD, PARAGRAPH);
    PrefixOfAppend(head, RenderAll(middle));
    PrefixOfAppend(init, tail);
    StartsWithTransitive(body, init, head);
    StartsWithTransitive(body, head, BOLD + term.banglaScript + BOLD);
    SuffixOfAppend(init, tail);
    LevelNameEndsVisibly(term.safetyLevel);
    SuffixOfAppend(LEVEL_LABEL, LevelName(term.safetyLevel));
    EndsVisiblyViaSuffix(tail, LevelName(term.safetyLevel));
    EndsVisiblyViaSuffix(body, tail);
  }

  /**
   * Trimming removes nothing: the response is the body, followed, with a
   * context, by what the tone adapter appends.
   */
  lemma ResponseExtendsBody(term: SlangTerm, assessment: SafetyAssessment, context: Option<RegionalContext>, draws: Draws)
    ensures var body := Body(term, assessment, AddressingTerm(context, draws.addressing), Heuristics(term, context));
      var response := FormattedResponseOf(term, assessment, context, draws);
      && StartsWith(response, body)
      && (context.None? ==> response == body)
  {
    var body := Body(term, assessment, AddressingTerm(context, draws.addressing), Heuristics(term, context));
    BodyFrame(term, assessment, AddressingTerm(context, draws.addressing), Heuristics(term, context));
    TrimTonedText(context, body, draws.tone, BOLD + term.banglaScript + BOLD);
  }

  /** Toning a text that starts and ends visibly and trimming the result keeps the text as a prefix. */
  lemma TrimTonedText(context: Option<RegionalContext>, text: string, tone: RegionalAdapter.ToneDraw, head: string)
    requires StartsWith(text, head) && head != [] && !IsSpace(head[0]) && EndsVisibly(text)
    ensures StartsWith(Trim(Toned(context, text, tone)), text)
    ensures context.None? ==> Trim(Toned(context, text, tone)) == text
  {
    var toned := Toned(context, text, tone);
    TonedFacts(context, text, tone);
    StartsWithTransitive(toned, text, head);
    TrimOfVisible(toned, head);
  }

  /** Whatever the body contains, the response contains. */
  lemma ResponseContains(term: SlangTerm, assessment: SafetyAssessment, context: Option<RegionalContext>, draws: Draws, part: string)
    requires Contains(Body(term, assessment, AddressingTerm(context, draws.addressing), Heuristics(term, context)), part)
    ensures Contains(FormattedResponseOf(term, assessment, context, draws), part)
  {
    ResponseExtendsBody(term, assessment, context, draws);
    ContainsViaPrefix(
      FormattedResponseOf(term, assessment, context, draws),
      Body(term, assessment, AddressingTerm(context, draws.addressing), Heuristics(term, context)),
      part);
  }

  /**
   * Without a region the response starts with the bold Bengali script and ends
   * with the safety level line.
   */
  lemma ResponseFrameWithoutRegion(term: SlangTerm, assessment: SafetyAssessment, draws: Draws)
    ensures StartsWith(FormattedResponseOf(term, assessment, None, draws), BOLD + term.banglaScript + BOLD)
    ensures EndsWith(FormattedResponseOf(term, assessment, None, draws), LEVEL_LABEL + LevelName(term.safetyLevel))
  {
    BodyFrame(term, assessment, "Dada", []);
    ResponseExtendsBody(term, assessment, None, draws);
  }

  /** A shown warning is the second section of the response. */
  lemma WarningSecond(term: SlangTerm, assessment: SafetyAssessment, addressing: string, heuristics: seq<string>)
    requires WarningShown(assessment)
    ensures var ss := ResponseSections(term, assessment, addressing, heuristics);
      |ss| > 1 && ss[1] == WarningSection(assessment.warningText.value)
  {
    LayoutWarningSecond(
      ScriptSection(term.banglaScript),
      WarningSection(assessment.warningText.value),
      MeaningSection(addressing, term.word, term.meaning, term.usage),
      ContextSection(term.culturalContext),
      RegionalNotesSection(heuristics),
      ExamplesSection(term.examples),
      LevelSection(term.safetyLevel),
      true, heuristics != [], ExamplesShown(term));
  }

  /** Shown examples are the section before the last. */
  lemma ExamplesPenultimate(term: SlangTerm, assessment: SafetyAssessment, addressing: string, heuristics: seq<string>)
    requires ExamplesShown(term)
    ensures var ss := ResponseSections(term, assessment, addressing, heuristics);
      |ss| > 1 && ss[|ss| - 2] == ExamplesSection(term.examples)
  {
    LayoutExamplesPenultimate(
      ScriptSection(term.banglaScript),
      WarningSection(if assessment.warningText.Some? then assessment.warningText.value else ""),
      MeaningSection(addressing, term.word, term.meaning, term.usage),
      ContextSection(term.culturalContext),
      RegionalNotesSection(heuristics),
      ExamplesSection(term.examples),
      LevelSection(term.safetyLevel),
      WarningShown(assessment), heuristics != [], true);
  }

  /** A shown warning's line, the sign then the text, is in the response. */
  lemma ResponseShowsWarningLine(term: SlangTerm, assessment: SafetyAssessment, context: Option<RegionalContext>, draws: Draws)
    requires WarningShown(assessment)
    ensures Contains(FormattedResponseOf(term, assessment, context, draws), WARNING_SIGN + assessment.warningText.value)
  {
    var addressing := AddressingTerm(context, draws.addressing);
    var heuristics := Heuristics(term, context);
    var ss := ResponseSections(term, assessment, addressing, heuristics);
    var line := WARNING_SIGN + assessment.warningText.value;
    WarningSecond(term, assessment, addressing, heuristics);
    RenderAllContains(ss, 1);
    ContainsOwnPrefix(line, PARAGRAPH);
    ContainsTransitive(RenderAll(ss), Render(ss[1]), line);
    ResponseContains(term, assessment, context, draws, line);
  }

  /** A warning-tier term's response carries the warning sign and the short warning text. */
  lemma ResponseShowsWarning(term: SlangTerm, context: Option<RegionalContext>, draws: Draws)
    requires SafetyValidator.RequiresWarning(term)
    ensures Contains(FormattedResponseOf(term, ValidateSafety(term), context, draws), WARNING_SIGN + SafetyValidator.GetWarningText(term))
  {
    ResponseShowsWarningLine(term, ValidateSafety(term), context, draws);
  }

  /** Every example of an example-bearing term appears in its response, after the examples label. */
  lemma ResponseShowsExamples(term: SlangTerm, assessment: SafetyAssessment, context: Option<RegionalContext>, draws: Draws, k: nat)
    requires ExamplesShown(term) && k < |term.examples|
    ensures Contains(FormattedResponseOf(term, assessment, context, draws), EXAMPLES_LABEL)
    ensures Contains(FormattedResponseOf(term, assessment, context, draws), term.examples[k])
  {
    var addressing := AddressingTerm(context, draws.addressing);
    var heuristics := Heuristics(term, context);
    var ss := ResponseSections(term, assessment, addressing, heuristics);
    ExamplesPenultimate(term, assessment, addressing, heuristics);
    var i := |ss| - 2;
    var joined := Join(term.examples, ", ");
    RenderAllContains(ss, i);
    ContainsOwnPrefix(EXAMPLES_LABEL, joined);
    PrefixOfAppend(EXAMPLES_LABEL + joined, PARAGRAPH);
    ContainsViaPrefix(Render(ss[i]), EXAMPLES_LABEL + joined, EXAMPLES_LABEL);
    JoinContainsPart(term.examples, ", ", k);
    ContainsInContext(joined, term.examples[k], EXAMPLES_LABEL, PARAGRAPH);
    ContainsTransitive(RenderAll(ss), Render(ss[i]), EXAMPLES_LABEL);
    ContainsTransitive(RenderAll(ss), Render(ss[i]), term.examples[k]);
    ResponseContains(term, assessment, context, draws, EXAMPLES_LABEL);
    ResponseContains(term, assessment, context, draws, term.examples[k]);
  }

  /** The region names of a record, in order. */
  function RegionNames(regions: seq<Region>): (names: seq<string>)
    ensures |names| == |regions| && forall i :: 0 <= i < |regions| ==> names[i] == RegionName(regions[i])
  {
    seq(|regions|, i requires 0 <= i < |regions| => RegionName(regions[i]))
  }

  /** The value of `generateCulturalNotes`. */
  function CulturalNotesOf(term: SlangTerm, context: Option<RegionalContext>): seq<string> {
    (if term.region != [] then ["Used in: " + Join(RegionNames(term.region), ", ")] else [])
    + ["Safety level: " + LevelName(term.safetyLevel)]
    + (if context.Some? then
         var references := RegionalAdapter.GetRegionalReferences(context.value.region);
         if references != [] then ["Regional context: " + references[0]] else []
       else [])
  }

  /** `generateCulturalNotes`, pushing note after note. */
  method GenerateCulturalNotes(term: SlangTerm, context: Option<RegionalContext>) returns (notes: seq<string>)
    ensures notes == CulturalNotesOf(term, context)
  {
    notes := [];
    if |term.region| > 0 {
      notes := notes + ["Used in: " + Join(RegionNames(term.region), ", ")];
    }
    notes := notes + ["Safety level: " + LevelName(term.safetyLevel)];
    if context.Some? {
      var regionalContext := RegionalAdapter.GetCulturalContext(context.value.region, term);
      if |regionalContext.references| > 0 {
        notes := notes + ["Regional context: " + regionalContext.references[0]];
      }
    }
  }

  /**
   * The regions line comes first when the record names regions, the safety
   * line next, and the regional context line last exactly when there is a context.
   */
  lemma CulturalNotesInOrder(term: SlangTerm, context: Option<RegionalContext>)
    ensures var notes := CulturalNotesOf(term, context);
      var s := if term.region != [] then 1 else 0;
      && |notes| == s + 1 + (if context.Some? then 1 else 0)
      && (term.region != [] ==> notes[0] == "Used in: " + Join(RegionNames(term.region), ", "))
      && notes[s] == "Safety level: " + LevelName(term.safetyLevel)
      && (context.Some? ==> notes[|notes| - 1] == "Regional context: " + RegionalAdapter.GetRegionalReferences(context.value.region)[0])
  {
  }

  /** The value of `generatePersonalityElements`. */
  function PersonalityElementsOf(context: Option<RegionalContext>, draws: Draws): seq<PersonalityElement> {
    [PersonalityElement(Addressing, AddressingTerm(context, draws.elementAddressing), None)]
    + (if context.Some? then
         var references := RegionalAdapter.GetPersonalityTraits(context.value.region).culturalReferences;
         if references != [] then
           [PersonalityElement(CulturalReference, references[draws.reference % |references|], Some(context.value.region))]
         else []
       else [])
  }

  /** `generatePersonalityElements`, pushing the addressing and, with a context, one cultural reference. */
  method GeneratePersonalityElements(context: Option<RegionalContext>, draws: Draws) returns (elements: seq<PersonalityElement>)
    ensures elements == PersonalityElementsOf(context, draws)
  {
    elements := [];
    var addressing := if context.Some? then RegionalAdapter.GetRegionalAddressing(context.value.region, draws.elementAddressing) else "Dada";
    elements := elements + [PersonalityElement(Addressing, addressing, None)];
    if context.Some? {
      var traits := RegionalAdapter.GetPersonalityTraits(context.value.region);
      if |traits.culturalReferences| > 0 {
        var randomRef := traits.culturalReferences[draws.reference % |traits.culturalReferences|];
        elements := elements + [PersonalityElement(CulturalReference, randomRef, Some(context.value.region))];
      }
    }
  }

  /** One addressing element, then with a context one of that region's cultural references. */
  lemma PersonalityElementsShape(context: Option<RegionalContext>, draws: Draws)
    ensures var es := PersonalityElementsOf(context, draws);
      && |es| == (if context.Some? then 2 else 1)
      && es[0].kind == Addressing
      && (context.None? ==> es[0].content == "Dada")
      && (context.Some? ==> es[0].content in RegionalAdapter.GetPersonalityTraits(context.value.region).addressingTerms)
      && (context.Some? ==>
            && es[1].kind == CulturalReference
            && es[1].content in RegionalAdapter.GetPersonalityTraits(context.value.region).culturalReferences
            && es[1].region == Some(context.value.region))
  {
  }

  /** `createEmptyResult`. */
  function CreateEmptyResult(message: string): (r: TranslationResult)
    ensures !r.isTermFound && r.term.None? && r.safetyWarning.None?
    ensures r.formattedResponse == message && r.culturalNotes == [EMPTY_NOTE]
    ensures r.personalityElements == [PersonalityElement(Addressing, "Dada", None)]
  {
    TranslationResult(None, message, None, [EMPTY_NOTE], [PersonalityElement(Addressing, "Dada", None)], false)
  }

  /** The opening of the not-found reply, naming the word as typed. */
  function UnknownOpening(input: string, context: Option<RegionalContext>, draws: Draws): string {
    AddressingTerm(context, draws.addressing) + ", ami \"" + input + "\" ta jani na! "
  }

  const UNKNOWN_MIDDLE: string :=
    "This word is not in my lexicon. Maybe it's a very local term or I haven't learned it yet. Try asking at your nearest "
  const UNKNOWN_END: string := " - they know all the local slang!"

  /** The not-found reply before the tone. */
  function UnknownPlain(input: string, context: Option<RegionalContext>, draws: Draws): string {
    UnknownOpening(input, context, draws) + UNKNOWN_MIDDLE + CHA_ER_DOKAN + UNKNOWN_END
  }

  /** The not-found reply, toned when there is a context. */
  function UnknownReply(input: string, context: Option<RegionalContext>, draws: Draws): string {
    Toned(context, UnknownPlain(input, context, draws), draws.tone)
  }

  /** The untoned reply opens with the word as typed and mentions the tea stall. */
  lemma UnknownPlainFacts(input: string, context: Option<RegionalContext>, draws: Draws)
    ensures StartsWith(UnknownPlain(input, context, draws), UnknownOpening(input, context, draws))
    ensures Contains(UnknownPlain(input, context, draws), CHA_ER_DOKAN)
  {
    var opening := UnknownOpening(input, context, draws);
    FrameOf(opening, UNKNOWN_MIDDLE, CHA_ER_DOKAN, UNKNOWN_END);
  }

  /** The reply opens with the word as typed and sends the user to the tea stall. */
  lemma UnknownReplyFacts(input: string, context: Option<RegionalContext>, draws: Draws)
    ensures StartsWith(UnknownReply(input, context, draws), UnknownOpening(input, context, draws))
    ensures Contains(UnknownReply(input, context, draws), CHA_ER_DOKAN)
  {
    var plain := UnknownPlain(input, context, draws);
    var response := UnknownReply(input, context, draws);
    UnknownPlainFacts(input, context, draws);
    TonedFacts(context, plain, draws.tone);
    StartsWithTransitive(response, plain, UnknownOpening(input, context, draws));
    ContainsViaPrefix(response, plain, CHA_ER_DOKAN);
  }

  /** `createUnknownTermResult`: a not-found reply pointing at the tea stall. */
  function CreateUnknownTermResult(input: string, context: Option<RegionalContext>, draws: Draws): (r: TranslationResult)
    ensures !r.isTermFound && r.term.None? && r.safetyWarning.None?
    ensures r.culturalNotes == [UNKNOWN_NOTE]
    ensures StartsWith(r.formattedResponse, AddressingTerm(context, draws.addressing) + ", ami \"" + input + "\" ta jani na! ")
    ensures Contains(r.formattedResponse, CHA_ER_DOKAN)
    ensures r.personalityElements == [
      PersonalityElement(Addressing, AddressingTerm(context, draws.addressing), None),
      PersonalityElement(CulturalReference, CHA_ER_DOKAN, None)]
  {
    var addressing := AddressingTerm(context, draws.addressing);
    UnknownReplyFacts(input, context, draws);
    TranslationResult(
      None, UnknownReply(input, context, draws), None, [UNKNOWN_NOTE],
      [PersonalityElement(Addressing, addressing, None), PersonalityElement(CulturalReference, CHA_ER_DOKAN, None)],
      false)
  }

  const BHAIYA_ELEMENTS: seq<PersonalityElement> := [
    PersonalityElement(Addressing, "Boss", None),
    PersonalityElement(CulturalReference, "Dada correction", None)]

  /** The input with every "bhaiya" removed, in any case, then trimmed. */
  function CleanInput(input: string): string {
    Trim(RemoveAllIgnoringCase(input, BHAIYA))
  }

  /** The record the cleaned input resolves to, if the cleaned input is not empty. */
  function CorrectedTerm(lex: seq<SlangTerm>, input: string): Option<SlangTerm> {
    var clean := CleanInput(input);
    if clean != "" then LexiconService.FindTerm(lex, clean) else None
  }

  /** The line introducing the answer for the cleaned input. */
  function NowAbout(clean: string): string {
    "\n\nNow, about \"" + clean + "\":\n"
  }

  /** The value of `createBhaiyaCorrectionResult`. */
  function BhaiyaCorrectionOf(lex: seq<SlangTerm>, input: string, context: Option<RegionalContext>, draws: Draws): TranslationResult {
    match CorrectedTerm(lex, input)
    case Some(term) =>
      var assessment := ValidateSafety(term);
      TranslationResult(
        Some(term),
        BHAIYA_CORRECTION + NowAbout(CleanInput(input)) + FormattedResponseOf(term, assessment, context, draws),
        WarningFor(assessment, term),
        [BHAIYA_NOTE] + CulturalNotesOf(term, context),
        BHAIYA_ELEMENTS,
        true)
    case None =>
      TranslationResult(None, BHAIYA_CORRECTION, None, [BHAIYA_NOTE], BHAIYA_ELEMENTS, false)
  }

  /** `createBhaiyaCorrectionResult`: the correction, then, when the rest of the input resolves, its full answer. */
  method CreateBhaiyaCorrectionResult(lex: seq<SlangTerm>, input: string, context: Option<RegionalContext>, draws: Draws)
    returns (result: TranslationResult)
    ensures result == BhaiyaCorrectionOf(lex, input, context, draws)
  {
    var response := BHAIYA_CORRECTION;
    var cleanInput := Trim(RemoveAllIgnoringCase(input, BHAIYA));
    if cleanInput != "" {
      var term := LexiconService.FindTerm(lex, cleanInput);
      if term.Some? {
        response := response + NowAbout(cleanInput);
        var safetyAssessment := ValidateSafety(term.value);
        var culturalNotes := GenerateCulturalNotes(term.value, context);
        var formatted := BuildFormattedResponse(term.value, safetyAssessment, context, draws);
        response := response + formatted;
        return TranslationResult(
          term,
          response,
          WarningFor(safetyAssessment, term.value),
          [BHAIYA_NOTE] + culturalNotes,
          BHAIYA_ELEMENTS,
          true);
      }
    }
    result := TranslationResult(None, response, None, [BHAIYA_NOTE], BHAIYA_ELEMENTS, false);
  }

  /** The correction opens the reply and heads the notes, whatever follows. */
  lemma BhaiyaCorrectionOpens(lex: seq<SlangTerm>, input: string, context: Option<RegionalContext>, draws: Draws)
    ensures var r := BhaiyaCorrectionOf(lex, input, context, draws);
      && StartsWith(r.formattedResponse, BHAIYA_CORRECTION)
      && r.culturalNotes != [] && r.culturalNotes[0] == BHAIYA_NOTE
      && r.personalityElements == BHAIYA_ELEMENTS
  {
    match CorrectedTerm(lex, input)
    case Some(term) =>
      var opening := BHAIYA_CORRECTION + NowAbout(CleanInput(input));
      PrefixOfAppend(BHAIYA_CORRECTION, NowAbout(CleanInput(input)));
      PrefixOfAppend(opening, FormattedResponseOf(term, ValidateSafety(term), context, draws));
      StartsWithTransitive(opening + FormattedResponseOf(term, ValidateSafety(term), context, draws), opening, BHAIYA_CORRECTION);
    case None =>
      StartsWithSelf(BHAIYA_CORRECTION);
  }

  /** The reply resolves a record exactly when the input without "bhaiya" does. */
  lemma BhaiyaCorrectionResolves(lex: seq<SlangTerm>, input: string, context: Option<RegionalContext>, draws: Draws)
    ensures var r := BhaiyaCorrectionOf(lex, input, context, draws);
      && (r.isTermFound <==> LexiconService.FindTerm(lex, CleanInput(input)).Some?)
      && r.term == LexiconService.FindTerm(lex, CleanInput(input))
      && (r.isTermFound ==> r.safetyWarning.Some? == SafetyValidator.RequiresWarning(r.term.value))
  {
    if CleanInput(input) == "" {
      assert IsBlank(CleanInput(input));
    }
  }

  /** The warning record of a result: the generated warning exactly when the assessment asks for one. */
  function WarningFor(assessment: SafetyAssessment, term: SlangTerm): (w: Option<SafetyWarning>)
    ensures w.Some? <==> assessment.requiresWarning
  {
    if assessment.requiresWarning then Some(SafetyValidator.GenerateWarning(term)) else None
  }

  /** The result for a record found directly. */
  function FoundResultOf(term: SlangTerm, context: Option<RegionalContext>, draws: Draws): TranslationResult {
    var assessment := ValidateSafety(term);
    TranslationResult(
      Some(term),
      FormattedResponseOf(term, assessment, context, draws),
      WarningFor(assessment, term),
      CulturalNotesOf(term, context),
      PersonalityElementsOf(context, draws),
      true)
  }

  /** Does the input ask for the "bhaiya" correction? */
  predicate MentionsBhaiya(input: string) {
    Contains(Lower(input), BHAIYA)
  }

  /** `translateTerm`: blank input, then the correction, then lookup. */
  function TranslateTerm(lex: seq<SlangTerm>, input: string, context: Option<RegionalContext>, draws: Draws): (r: TranslationResult)
    ensures IsBlank(input) ==> r == CreateEmptyResult(EMPTY_MESSAGE)
    ensures !IsBlank(input) && MentionsBhaiya(input) ==> r == BhaiyaCorrectionOf(lex, input, context, draws)
    ensures r.isTermFound <==> r.term.Some?
    ensures r.term.Some? ==> r.term.value in lex
  {
    if IsBlank(input) then CreateEmptyResult(EMPTY_MESSAGE)
    else if MentionsBhaiya(input) then BhaiyaCorrectionOf(lex, input, context, draws)
    else
      match LexiconService.FindTerm(lex, Trim(input))
      case None => CreateUnknownTermResult(input, context, draws)
      case Some(term) => FoundResultOf(term, context, draws)
  }

  /** Blank input gets the fixed prompt and nothing else. */
  lemma TranslateBlank(lex: seq<SlangTerm>, input: string, context: Option<RegionalContext>, draws: Draws)
    requires IsBlank(input)
    ensures var r := TranslateTerm(lex, input, context, draws);
      && !r.isTermFound && r.term.None?
      && r.formattedResponse == EMPTY_MESSAGE
  {
  }

  /** Input mentioning "bhaiya" is answered by the correction, which resolves exactly when the cleaned input does. */
  lemma TranslateBhaiya(lex: seq<SlangTerm>, input: string, context: Option<RegionalContext>, draws: Draws)
    requires !IsBlank(input) && MentionsBhaiya(input)
    ensures var r := TranslateTerm(lex, input, context, draws);
      && StartsWith(r.formattedResponse, BHAIYA_CORRECTION)
      && (r.isTermFound <==> LexiconService.FindTerm(lex, CleanInput(input)).Some?)
      && (r.isTermFound ==> r.culturalNotes[0] == BHAIYA_NOTE)
  {
    BhaiyaCorrectionOpens(lex, input, context, draws);
    BhaiyaCorrectionResolves(lex, input, context, draws);
  }

  /** An unresolved word gets the not-found reply. */
  lemma TranslateUnknown(lex: seq<SlangTerm>, input: string, context: Option<RegionalContext>, draws: Draws)
    requires !IsBlank(input) && !MentionsBhaiya(input)
    requires LexiconService.FindTerm(lex, Trim(input)).None?
    ensures var r := TranslateTerm(lex, input, context, draws);
      && !r.isTermFound && r.term.None? && r.safetyWarning.None?
      && Contains(r.formattedResponse, CHA_ER_DOKAN)
      && r.culturalNotes == [UNKNOWN_NOTE]
  {
  }

  /**
   * A resolved word gets its record, a warning record exactly for the warning
   * tiers, and the composed response.
   */
  lemma TranslateFound(lex: seq<SlangTerm>, input: string, context: Option<RegionalContext>, draws: Draws)
    requires !IsBlank(input) && !MentionsBhaiya(input)
    requires LexiconService.FindTerm(lex, Trim(input)).Some?
    ensures var term := LexiconService.FindTerm(lex, Trim(input)).value;
      var r := TranslateTerm(lex, input, context, draws);
      && r.isTermFound && r.term == Some(term)
      && (r.safetyWarning.Some? <==> SafetyValidator.RequiresWarning(term))
      && (r.safetyWarning.Some? ==> r.safetyWarning.value == SafetyValidator.GenerateWarning(term))
      && r.formattedResponse == FormattedResponseOf(term, ValidateSafety(term), context, draws)
      && r.culturalNotes == CulturalNotesOf(term, context)
  {
  }

  /** The response shows the warning section exactly when the record needs a warning. */
  lemma WarningSectionIff(term: SlangTerm, addressing: string, heuristics: seq<string>)
    ensures var ss := ResponseSections(term, ValidateSafety(term), addressing, heuristics);
      && ((exists i :: 0 <= i < |ss| && ss[i].WarningSection?) <==> SafetyValidator.RequiresWarning(term))
      && (SafetyValidator.RequiresWarning(term) ==> |ss| > 1 && ss[1] == WarningSection(SafetyValidator.GetWarningText(term)))
  {
    var assessment := ValidateSafety(term);
    assert WarningShown(assessment) <==> SafetyValidator.RequiresWarning(term);
    LayoutPresence(
      ScriptSection(term.banglaScript),
      WarningSection(if assessment.warningText.Some? then assessment.warningText.value else ""),
      MeaningSection(addressing, term.word, term.meaning, term.usage),
      ContextSection(term.culturalContext),
      RegionalNotesSection(heuristics),
      ExamplesSection(term.examples),
      LevelSection(term.safetyLevel),
      WarningShown(assessment), heuristics != [], ExamplesShown(term));
    if WarningShown(assessment) {
      WarningSecond(term, assessment, addressing, heuristics);
    }
  }
}
