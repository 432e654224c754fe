/**
 * The regional persona: fixed per-region tables, the keyword-driven cultural
 * tips, and the tone decorator that appends a marker and, sometimes, a
 * regional expression. The decorator's random choices arrive as a `ToneDraw`.
 */
module RegionalAdapter {
  import opened Types
  import opened Text

  // The per-region tables.

  const BASE_ADDRESSING: seq<string> := ["Dada", "Didi", "Boss"]

  const KOLKATA_REFERENCES_SHORT: seq<string> := ["lyadh", "adda", "cha-er dokan", "fatafati", "aantel"]
  const BARDHAMAN_REFERENCES_SHORT: seq<string> := ["Mihidana", "Sitabhog", "zamindar", "rarh banga", "situa"]
  const TARAKESWAR_REFERENCES_SHORT: seq<string> := ["Tarakeswar temple", "jatri", "toto", "Shiva", "mandir"]

  const KOLKATA_TONE_MARKERS: seq<string> := ["arre", "ki bolcho", "dekho", "bujhecho"]
  const BARDHAMAN_TONE_MARKERS: seq<string> := ["dekho", "bujho", "arre bhai", "ki korbo"]
  const TARAKESWAR_TONE_MARKERS: seq<string> := ["dekho", "bujho", "arre", "ki hobe"]

  const KOLKATA_MARKERS: seq<string> := ["Lyadh culture", "Adda", "Cha-er dokan", "Fatafati"]
  const BARDHAMAN_MARKERS: seq<string> := ["Mihidana", "Sitabhog", "Rarh Banga", "Zamindar culture"]
  const TARAKESWAR_MARKERS: seq<string> := ["Tarakeswar temple", "Jatri", "Toto-giri", "Temple town"]

  const KOLKATA_REFERENCES: seq<string> := [
    "The heart of Bengali intellectual culture",
    "Where adda and lyadh are art forms",
    "Tea stalls are universities of life",
    "Every corner has a story"]
  const BARDHAMAN_REFERENCES: seq<string> := [
    "Famous for Mihidana and Sitabhog sweets",
    "Rich zamindar heritage",
    "Rural Bengal at its authentic best",
    "Where tradition meets modernity"]
  const TARAKESWAR_REFERENCES: seq<string> := [
    "Sacred temple town of Lord Shiva",
    "Thousands of pilgrims visit daily",
    "Spiritual center of Bengal",
    "Where devotion meets daily life"]

  const KOLKATA_EXPRESSIONS: seq<string> := [
    "Arre, ei to Kolkata style!",
    "Lyadh culture er part eta!",
    "Adda te use korte paro!",
    "Cha-er dokan e shunbe ei word ta!"]
  const BARDHAMAN_EXPRESSIONS: seq<string> := [
    "Rarh Banga te ei rokom bole!",
    "Mihidana khete khete ei word shunbe!",
    "Sitabhog er moto mishti ei expression!",
    "Zamindar der amlei ei bhasha!"]
  const TARAKESWAR_EXPRESSIONS: seq<string> := [
    "Temple town e ei rokom bole!",
    "Jatri der moddhe shunbe!",
    "Toto te boshey ei kotha!",
    "Mandir er kache ei bhasha!"]

  const TEA_STALL_KEYWORDS: seq<string> := ["tea", "cha", "stall", "dokan", "adda"]

  const TEA_STALL_TIP: string := "Tea stalls (cha-er dokan) are the best places to learn more slang like this!"
  const LYADH_TIP: string := "This captures the essence of Kolkata's lyadh culture perfectly!"
  const ADDA_TIP: string := "You'll hear this in every adda session in Kolkata!"
  const MIHIDANA_TIP: string := "In Bardhaman, don't forget to try the famous Mihidana and Sitabhog!"
  const RARH_TIP: string := "This reflects the authentic rural culture of Rarh Banga!"
  const TEMPLE_CULTURE_TIP: string := "Perfect for understanding the temple culture here!"
  const TEMPLE_RESPECT_TIP: string := "Be extra respectful with language in this sacred temple town!"

  /** `getPersonalityTraits`: everyone gets Dada, Didi and Boss; Kolkata adds Bhai. */
  function GetPersonalityTraits(region: Region): (p: PersonalityTraits)
    ensures "Dada" in p.addressingTerms && "Didi" in p.addressingTerms && "Boss" in p.addressingTerms
    ensures p.addressingTerms == if region == Kolkata then BASE_ADDRESSING + ["Bhai"] else BASE_ADDRESSING
    ensures p.culturalReferences != [] && p.toneMarkers != []
  {
    match region
    case Kolkata => PersonalityTraits(BASE_ADDRESSING + ["Bhai"], KOLKATA_REFERENCES_SHORT, KOLKATA_TONE_MARKERS)
    case Bardhaman => PersonalityTraits(BASE_ADDRESSING, BARDHAMAN_REFERENCES_SHORT, BARDHAMAN_TONE_MARKERS)
    case TarakeswarHooghly => PersonalityTraits(BASE_ADDRESSING, TARAKESWAR_REFERENCES_SHORT, TARAKESWAR_TONE_MARKERS)
  }

  /** `getRegionalMarkers`: four markers per region. */
  function GetRegionalMarkers(region: Region): (ms: seq<string>)
    ensures |ms| == 4
  {
    match region
    case Kolkata => KOLKATA_MARKERS
    case Bardhaman => BARDHAMAN_MARKERS
    case TarakeswarHooghly => TARAKESWAR_MARKERS
  }

  /** `getRegionalReferences`: four references per region. */
  function GetRegionalReferences(region: Region): (rs: seq<string>)
    ensures |rs| == 4
  {
    match region
    case Kolkata => KOLKATA_REFERENCES
    case Bardhaman => BARDHAMAN_REFERENCES
    case TarakeswarHooghly => TARAKESWAR_REFERENCES
  }

  /** The pool each `apply*Tone` helper draws its expression from. */
  function RegionalExpressions(region: Region): (es: seq<string>)
    ensures |es| == 4
  {
    match region
    case Kolkata => KOLKATA_EXPRESSIONS
    case Bardhaman => BARDHAMAN_EXPRESSIONS
    case TarakeswarHooghly => TARAKESWAR_EXPRESSIONS
  }

  /**
   * The random choices of one `adaptTone` call: which marker, whether the
   * region's flavour is added (the 30% or 20% coin) and which expression.
   * Positions are reduced modulo the list length, as `Math.floor(random * n)` is.
   */
  datatype ToneDraw = ToneDraw(marker: nat, flavoured: bool, expression: nat)

  /** What an `apply*Tone` helper returns: the response, with one of the pool's expressions appended when the coin says so. */
  function WithExpression(response: string, pool: seq<string>, flavoured: bool, pick: nat): string
    requires pool != []
  {
    if flavoured then response + " " + pool[pick % |pool|] else response
  }

  method ApplyKolkataTone(response: string, flavoured: bool, pick: nat) returns (r: string)
    ensures r == WithExpression(response, KOLKATA_EXPRESSIONS, flavoured, pick)
  {
    r := response;
    if flavoured {
      var expression := KOLKATA_EXPRESSIONS[pick % |KOLKATA_EXPRESSIONS|];
      r := r + " " + expression;
    }
  }

  method ApplyBardhamanTone(response: string, flavoured: bool, pick: nat) returns (r: string)
    ensures r == WithExpression(response, BARDHAMAN_EXPRESSIONS, flavoured, pick)
  {
    r := response;
    if flavoured {
      var expression := BARDHAMAN_EXPRESSIONS[pick % |BARDHAMAN_EXPRESSIONS|];
      r := r + " " + expression;
    }
  }

  method ApplyTarakeswarTone(response: string, flavoured: bool, pick: nat) returns (r: string)
    ensures r == WithExpression(response, TARAKESWAR_EXPRESSIONS, flavoured, pick)
  {
    r := response;
    if flavoured {
      var expression := TARAKESWAR_EXPRESSIONS[pick % |TARAKESWAR_EXPRESSIONS|];
      r := r + " " + expression;
    }
  }

  /** A marker from `markers`, then perhaps an expression from `pool`, both chosen by the draw. */
  function Decorated(base: string, markers: seq<string>, pool: seq<string>, draw: ToneDraw): string
    requires markers != [] && pool != []
  {
    WithExpression(base + " " + markers[draw.marker % |markers|], pool, draw.flavoured, draw.expression)
  }

  /** The value of `adaptTone` for the given draw. */
  function AdaptedTone(region: Region, base: string, draw: ToneDraw): string {
    Decorated(base, GetRegionalMarkers(region), RegionalExpressions(region), draw)
  }

  /** `adaptTone`: append a marker, then let the region's helper append its flavour. */
  method AdaptTone(region: Region, baseResponse: string, draw: ToneDraw) returns (adapted: string)
    ensures adapted == AdaptedTone(region, baseResponse, draw)
  {
    var markers := GetRegionalMarkers(region);
    adapted := baseResponse;
    if |markers| > 0 {
      var marker := markers[draw.marker % |markers|];
      adapted := adapted + " " + marker;
    }
    match region {
      case Kolkata => adapted := ApplyKolkataTone(adapted, draw.flavoured, draw.expression);
      case Bardhaman => adapted := ApplyBardhamanTone(adapted, draw.flavoured, draw.expression);
      case TarakeswarHooghly => adapted := ApplyTarakeswarTone(adapted, draw.flavoured, draw.expression);
    }
  }

  /** What the decorator may append after the marker: nothing, or a space and one of the pool's expressions. */
  predicate ToneTail(pool: seq<string>, tail: string) {
    tail == "" || exists j :: 0 <= j < |pool| && tail == " " + pool[j]
  }

  lemma DecoratedShape(base: string, markers: seq<string>, pool: seq<string>, draw: ToneDraw)
    requires markers != [] && pool != []
    ensures exists i, tail ::
      (&& 0 <= i < |markers|
       && ToneTail(pool, tail)
       && Decorated(base, markers, pool, draw) == base + " " + markers[i] + tail)
    ensures StartsWith(Decorated(base, markers, pool, draw), base)
    ensures |Decorated(base, markers, pool, draw)| > |base|
  {
    var i := draw.marker % |markers|;
    var j := draw.expression % |pool|;
    var tail := if draw.flavoured then " " + pool[j] else "";
    assert ToneTail(pool, tail);
    assert Decorated(base, markers, pool, draw) == base + " " + markers[i] + tail;
    assert Decorated(base, markers, pool, draw) == base + (" " + markers[i] + tail);
    PrefixOfAppend(base, " " + markers[i] + tail);
  }

  /**
   * Whatever the draw, the adapted text is the base text, a space, one of the
   * region's markers and a tone tail; so the base is a prefix and the text grows.
   */
  lemma AdaptedToneShape(region: Region, base: string, draw: ToneDraw)
    ensures exists i, tail ::
      (&& 0 <= i < |GetRegionalMarkers(region)|
       && ToneTail(RegionalExpressions(region), tail)
       && AdaptedTone(region, base, draw) == base + " " + GetRegionalMarkers(region)[i] + tail)
    ensures StartsWith(AdaptedTone(region, base, draw), base)
    ensures |AdaptedTone(region, base, draw)| > |base|
  {
    DecoratedShape(base, GetRegionalMarkers(region), RegionalExpressions(region), draw);
  }

  /** A draw naming positions inside both lists picks exactly those entries. */
  lemma DecoratedReachesEvery(base: string, markers: seq<string>, pool: seq<string>, i: nat, j: nat, flavoured: bool)
    requires i < |markers| && j < |pool|
    ensures Decorated(base, markers, pool, ToneDraw(i, flavoured, j))
      == base + " " + markers[i] + (if flavoured then " " + pool[j] else "")
  {
    assert i % |markers| == i && j % |pool| == j;
  }

  /** Conversely every marker, with or without every expression, is produced by some draw. */
  lemma AdaptedToneReachesEvery(region: Region, base: string, i: nat, j: nat, flavoured: bool)
    requires i < |GetRegionalMarkers(region)| && j < |RegionalExpressions(region)|
    ensures AdaptedTone(region, base, ToneDraw(i, flavoured, j))
      == base + " " + GetRegionalMarkers(region)[i] + (if flavoured then " " + RegionalExpressions(region)[j] else "")
  {
    DecoratedReachesEvery(base, GetRegionalMarkers(region), RegionalExpressions(region), i, j, flavoured);
  }

  /** Every marker and every expression ends in a visible character. */
  lemma TablesEndVisibly(region: Region)
    ensures forall i :: 0 <= i < |GetRegionalMarkers(region)| ==> EndsVisibly(GetRegionalMarkers(region)[i])
    ensures forall j :: 0 <= j < |RegionalExpressions(region)| ==> EndsVisibly(RegionalExpressions(region)[j])
  {
  }

  /** The adapted text keeps the base text's first character and ends in a visible one. */
  lemma AdaptedToneEndsVisibly(region: Region, base: string, draw: ToneDraw)
    ensures StartsWith(AdaptedTone(region, base, draw), base)
    ensures EndsVisibly(AdaptedTone(region, base, draw))
  {
    var markers := GetRegionalMarkers(region);
    var pool := RegionalExpressions(region);
    TablesEndVisibly(region);
    AdaptedToneShape(region, base, draw);
    var m := markers[draw.marker % |markers|];
    var marked := base + " " + m;
    assert EndsVisibly(m);
    assert marked[|marked| - 1] == m[|m| - 1];
    if draw.flavoured {
      var e := pool[draw.expression % |pool|];
      assert EndsVisibly(e);
      var r := marked + " " + e;
      assert r[|r| - 1] == e[|e| - 1];
    }
  }

  /** `teaStallKeywords.some(k => s.includes(k))`. */
  function ContainsSome(s: string, keywords: seq<string>): (b: bool)
    ensures b <==> exists k :: 0 <= k < |keywords| && Contains(s, keywords[k])
  {
    if keywords == [] then false
    else Contains(s, keywords[0]) || ContainsSome(s, keywords[1..])
  }

  /** `isTeaStallRelated`: the lower-cased text contains tea, cha, stall, dokan or adda. */
  function IsTeaStallRelated(text: string): (b: bool)
    ensures b <==> exists k :: 0 <= k < |TEA_STALL_KEYWORDS| && Contains(Lower(text), TEA_STALL_KEYWORDS[k])
  {
    ContainsSome(Lower(text), TEA_STALL_KEYWORDS)
  }

  /** `[tip]` when `condition` holds, `[]` otherwise: one guarded `push`. */
  function PushIf(condition: bool, tip: string): seq<string> {
    if condition then [tip] else []
  }

  predicate TeaStallTerm(term: SlangTerm) {
    IsTeaStallRelated(term.word) || IsTeaStallRelated(term.usage)
  }

  /** The region-specific tips, in the order the source pushes them. */
  function RegionTips(region: Region, term: SlangTerm): seq<string> {
    var word := Lower(term.word);
    var usage := Lower(term.usage);
    match region
    case Kolkata =>
      PushIf(Contains(word, "lyadh") || Contains(usage, "lazy"), LYADH_TIP)
      + PushIf(Contains(word, "aantel") || Contains(usage, "intellectual"), ADDA_TIP)
    case Bardhaman =>
      [MIHIDANA_TIP] + PushIf(Contains(usage, "rural") || Contains(usage, "traditional"), RARH_TIP)
    case TarakeswarHooghly =>
      PushIf(Contains(word, "jatri") || Contains(usage, "pilgrim"), TEMPLE_CULTURE_TIP) + [TEMPLE_RESPECT_TIP]
  }

  /** The value of `getRegionalHeuristics`: the tea-stall tip when it applies, then the region's tips. */
  function HeuristicsFor(region: Region, term: SlangTerm): seq<string> {
    PushIf(TeaStallTerm(term), TEA_STALL_TIP) + RegionTips(region, term)
  }

  /** `getRegionalHeuristics`, pushing tip after tip onto a local list. */
  method GetRegionalHeuristics(region: Region, term: SlangTerm) returns (heuristics: seq<string>)
    ensures heuristics == HeuristicsFor(region, term)
  {
    heuristics := [];
    if IsTeaStallRelated(term.word) || IsTeaStallRelated(term.usage) {
      heuristics := heuristics + [TEA_STALL_TIP];
    }
    var tea := heuristics;
    match region {
      case Kolkata =>
        if Contains(Lower(term.word), "lyadh") || Contains(Lower(term.usage), "lazy") {
          heuristics := heuristics + [LYADH_TIP];
        }
        if Contains(Lower(term.word), "aantel") || Contains(Lower(term.usage), "intellectual") {
          heuristics := heuristics + [ADDA_TIP];
        }
      case Bardhaman =>
        heuristics := heuristics + [MIHIDANA_TIP];
        if Contains(Lower(term.usage), "rural") || Contains(Lower(term.usage), "traditional") {
          heuristics := heuristics + [RARH_TIP];
        }
      case TarakeswarHooghly =>
        if Contains(Lower(term.word), "jatri") || Contains(Lower(term.usage), "pilgrim") {
          heuristics := heuristics + [TEMPLE_CULTURE_TIP];
        }
        heuristics := heuristics + [TEMPLE_RESPECT_TIP];
    }
    assert heuristics == tea + RegionTips(region, term);
  }

  /** The region tips never include the tea-stall tip. */
  lemma RegionTipsAreNotTea(region: Region, term: SlangTerm)
    ensures TEA_STALL_TIP !in RegionTips(region, term)
  {
  }

  /**
   * The tea-stall tip comes first exactly when the term's word or usage is
   * tea-stall related; there are at most three tips; Bardhaman always
   * recommends its sweets and Tarakeswar/Hooghly always ends with the call
   * for respect.
   */
  lemma HeuristicsFacts(region: Region, term: SlangTerm)
    ensures var h := HeuristicsFor(region, term);
      && ((h != [] && h[0] == TEA_STALL_TIP) <==> TeaStallTerm(term))
      && (TEA_STALL_TIP in h <==> TeaStallTerm(term))
      && |h| <= 3
      && (region == Bardhaman ==> MIHIDANA_TIP in h)
      && (region == TarakeswarHooghly ==> h != [] && h[|h| - 1] == TEMPLE_RESPECT_TIP)
  {
    var h := HeuristicsFor(region, term);
    var rest := RegionTips(region, term);
    RegionTipsAreNotTea(region, term);
    if !TeaStallTerm(term) {
      assert h == rest;
      assert h != [] ==> h[0] in rest;
    }
  }

  /** The value of `getCulturalContext`. */
  function CulturalContextOf(region: Region, term: SlangTerm): CulturalContext {
    CulturalContext(GetRegionalMarkers(region), GetRegionalReferences(region), HeuristicsFor(region, term))
  }

  /** `getCulturalContext`. */
  method GetCulturalContext(region: Region, term: SlangTerm) returns (context: CulturalContext)
    ensures context == CulturalContextOf(region, term)
  {
    var baseMarkers := GetRegionalMarkers(region);
    var references := GetRegionalReferences(region);
    var heuristics := GetRegionalHeuristics(region, term);
    context := CulturalContext(baseMarkers, references, heuristics);
  }

  /** Markers and references depend on the region only, and are never empty. */
  lemma ContextIndependentOfTerm(region: Region, t1: SlangTerm, t2: SlangTerm)
    ensures CulturalContextOf(region, t1).markers == CulturalContextOf(region, t2).markers != []
    ensures CulturalContextOf(region, t1).references == CulturalContextOf(region, t2).references != []
  {
  }

  /** `getRegionalAddressing`, with the random position passed in as `pick`. */
  function GetRegionalAddressing(region: Region, pick: nat): (a: string)
    ensures a in GetPersonalityTraits(region).addressingTerms
  {
    var terms := GetPersonalityTraits(region).addressingTerms;
    terms[pick % |terms|]
  }

  /** `requiresExtraCaution`: only the temple town. */
  function RequiresExtraCaution(region: Region): (b: bool)
    ensures b <==> region == TarakeswarHooghly
  {
    region == TarakeswarHooghly
  }
}
