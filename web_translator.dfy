/**
 * The browser translator: a second, simpler implementation over its own
 * table of entries. The lookup is an exact key match on the lower-cased,
 * trimmed input; the response is built line by line; the two listings walk
 * the table in order and push what they keep.
 */
module WebTranslator {
  import opened Types
  import opened Text
  import opened Lists

  /** One entry of the browser table; `key` is the entry's property name. */
  datatype WebEntry = WebEntry(
    key: string,
    bengali: string,
    meaning: string,
    culturalContext: string,
    examples: string,
    safetyLevel: string,
    warning: Option<string>)

  /** The object every translation returns. */
  datatype WebResult = WebResult(formattedResponse: string, safetyLevel: string, term: string, meaning: string, bengali: string)

  /** One element of the safe-terms listing. */
  datatype SafeEntry = SafeEntry(term: string, meaning: string, bengali: string)

  const DO_NOT_USE: string := "Do not use"
  const SAFE_FRIENDLY: string := "Safe / Friendly"
  const DEFAULT_REGION: string := "kolkata"
  const GREETING: string := "Dada"
  const BHAIYA: string := "bhaiya"

  /** The keys of the browser table are the property names of an object: no two alike. */
  predicate KeysDistinct(table: seq<WebEntry>) {
    forall i, j :: 0 <= i < j < |table| ==> table[i].key != table[j].key
  }

  /**
   * A property name that is an array index: `"0"`, or decimal digits without a
   * leading zero, below 2^32 - 1. `Object.keys` and `Object.entries` list such
   * names first, in numeric order, and all others in insertion order.
   */
  predicate IsArrayIndex(key: string) {
    && key != []
    && (forall i :: 0 <= i < |key| ==> '0' <= key[i] <= '9')
    && (key[0] == '0' ==> |key| == 1)
    && DecimalValue(key) < 0xFFFF_FFFF
  }

  /** The number a string of decimal digits spells. */
  function DecimalValue(digits: string): nat {
    if digits == [] then 0
    else
      var d := (digits[|digits| - 1] as int) - ('0' as int);
      DecimalValue(digits[..|digits| - 1]) * 10 + (if 0 <= d <= 9 then d else 0)
  }

  /**
   * The sequence of entries stands for the table in the order `Object.entries`
   * walks it. That is the order of the object literal exactly when no key is an
   * array index, as for the shipped table.
   */
  predicate InsertionOrdered(table: seq<WebEntry>) {
    forall i :: 0 <= i < |table| ==> !IsArrayIndex(table[i].key)
  }

  /** The personalities table: the greeting of each known region, nothing for any other name. */
  function Greeting(region: string): (g: Option<string>)
    ensures g.Some? <==> region in ["kolkata", "bardhaman", "tarakeswar", "hooghly"]
    ensures g.Some? ==> g.value == GREETING
  {
    if region in ["kolkata", "bardhaman", "tarakeswar", "hooghly"] then Some(GREETING) else None
  }

  /** Property access on the table: the entry stored under exactly this key. */
  function Lookup(table: seq<WebEntry>, key: string): (r: Option<WebEntry>)
    ensures r.Some? ==> r.value in table && r.value.key == key
    ensures r.None? <==> forall i :: 0 <= i < |table| ==> table[i].key != key
  {
    if table == [] then None
    else if table[0].key == key then Some(table[0])
    else Lookup(table[1..], key)
  }

  /** With distinct keys, every entry is found under its own key. */
  lemma {:induction false} LookupOwnKey(table: seq<WebEntry>, k: nat)
    requires KeysDistinct(table) && k < |table|
    ensures Lookup(table, table[k].key) == Some(table[k])
  {
    if k > 0 {
      assert table[0].key != table[k].key;
      var rest := table[1..];
      assert KeysDistinct(rest) by {
        forall i, j | 0 <= i < j < |rest|
          ensures rest[i].key != rest[j].key
        {
          assert rest[i] == table[i + 1] && rest[j] == table[j + 1];
        }
      }
      assert rest[k - 1] == table[k];
      LookupOwnKey(rest, k - 1);
    }
  }

  /** `capitalizeFirst`: the first character upper-cased, the rest unchanged; the empty string stays empty. */
  function CapitalizeFirst(s: string): (r: string)
    ensures |r| == |s|
    ensures s != [] ==> r[0] == UpperChar(s[0]) && r[1..] == s[1..]
  {
    if s == [] then [] else [UpperChar(s[0])] + s[1..]
  }

  /** Capitalising changes at most the case of the first character, and is idempotent. */
  lemma CapitalizeFirstFacts(s: string)
    ensures CapitalizeFirst(s) == [] <==> s == []
    ensures Lower(CapitalizeFirst(s)) == Lower(s)
    ensures CapitalizeFirst(CapitalizeFirst(s)) == CapitalizeFirst(s)
  {
  }

  /** The lines of a translation response. */
  datatype Line =
    | Title(bengali: string)
    | HeavyWarning(greeting: string)
    | Means(term: string, meaning: string)
    | GreetingMeans(greeting: string, term: string, meaning: string)
    | WarningNote(text: string)
    | ContextLine(context: string)
    | ExamplesLine(examples: string)
    | LevelLine(level: string)

  function Render(line: Line): string {
    match line
    case Title(b) => "**" + b + "**\n\n"
    case HeavyWarning(g) => g + "/Didi, be careful! This is a heavy slang. Do not use this in public.\n"
    case Means(t, m) => "\"" + CapitalizeFirst(t) + "\" means **" + m + "**\n"
    case GreetingMeans(g, t, m) => g + ", \"" + CapitalizeFirst(t) + "\" means **" + m + "**\n"
    case WarningNote(w) => "**Warning:** " + w + "\n"
    case ContextLine(c) => "**Cultural Context:** " + c + "\n"
    case ExamplesLine(e) => "**Examples:** " + e + "\n\n"
    case LevelLine(l) => "**Safety Level:** " + l
  }

  /** The lines rendered one after another. */
  function Rendering(lines: seq<Line>): string {
    Concat(seq(|lines|, i requires 0 <= i < |lines| => Render(lines[i])))
  }

  lemma RenderingAppend(a: seq<Line>, b: seq<Line>)
    ensures Rendering(a + b) == Rendering(a) + Rendering(b)
  {
    var ra := seq(|a|, i requires 0 <= i < |a| => Render(a[i]));
    var rb := seq(|b|, i requires 0 <= i < |b| => Render(b[i]));
    assert seq(|a + b|, i requires 0 <= i < |a + b| => Render((a + b)[i])) == ra + rb;
    ConcatAppend(ra, rb);
  }

  lemma RenderingSingle(line: Line)
    ensures Rendering([line]) == Render(line)
  {
    var parts := seq(1, i requires 0 <= i < 1 => Render([line][i]));
    assert parts == [Render(line)];
    assert Concat(parts) == Concat(parts[..0]) + parts[0];
  }

  /** Appending one line to the lines appends its rendering to the text. */
  lemma RenderingSnoc(lines: seq<Line>, line: Line)
    ensures Rendering(lines + [line]) == Rendering(lines) + Render(line)
  {
    RenderingAppend(lines, [line]);
    RenderingSingle(line);
  }

  /**
   * The lines between the title and the closing three: the heavy warning block
   * or the greeting line. The warning note needs a truthy warning: an empty one
   * is skipped like a missing one.
   */
  function MiddleLines(entry: WebEntry, greeting: string, term: string): seq<Line> {
    if entry.safetyLevel == DO_NOT_USE then
      [HeavyWarning(greeting), Means(term, entry.meaning)]
      + (if entry.warning.Some? && entry.warning.value != "" then [WarningNote(entry.warning.value)] else [])
    else [GreetingMeans(greeting, term, entry.meaning)]
  }

  /** The lines of the response for a found entry, in the order `createTranslationResponse` appends them. */
  function ResponseLines(entry: WebEntry, greeting: string, term: string): seq<Line> {
    [Title(entry.bengali)] + MiddleLines(entry, greeting, term)
    + [ContextLine(entry.culturalContext), ExamplesLine(entry.examples), LevelLine(entry.safetyLevel)]
  }

  /**
   * The title comes first and the safety level last; the examples line is
   * always the one before it, even for empty examples; the heavy warning and
   * the warning note appear exactly for "Do not use" entries, the note only
   * when the entry has a non-empty warning; every other entry gets the greeting line.
   */
  lemma ResponseLinesShape(entry: WebEntry, greeting: string, term: string)
    ensures var ls := ResponseLines(entry, greeting, term);
      && |ls| >= 5
      && ls[0] == Title(entry.bengali)
      && ls[|ls| - 1] == LevelLine(entry.safetyLevel)
      && ls[|ls| - 2] == ExamplesLine(entry.examples)
      && ls[|ls| - 3] == ContextLine(entry.culturalContext)
      && (HeavyWarning(greeting) in ls <==> entry.safetyLevel == DO_NOT_USE)
      && (GreetingMeans(greeting, term, entry.meaning) in ls <==> entry.safetyLevel != DO_NOT_USE)
      && (forall w :: WarningNote(w) in ls <==> entry.safetyLevel == DO_NOT_USE && entry.warning == Some(w) && w != "")
  {
    var ls := ResponseLines(entry, greeting, term);
    var mid := MiddleLines(entry, greeting, term);
    assert forall k :: 0 <= k < |ls| ==> (k == 0 || k >= |ls| - 3 || ls[k] == mid[k - 1]);
    assert forall k :: 0 < k < |ls| - 3 ==> ls[k] == mid[k - 1];
    if entry.safetyLevel == DO_NOT_USE {
      assert ls[1] == HeavyWarning(greeting);
      if entry.warning.Some? && entry.warning.value != "" {
        assert ls[3] == WarningNote(entry.warning.value);
      }
    } else {
      assert ls[1] == GreetingMeans(greeting, term, entry.meaning);
    }
  }

  /** The response text opens with the bold script and closes with the safety level, and shows the examples line. */
  lemma ResponseTextFrame(entry: WebEntry, greeting: string, term: string)
    ensures var text := Rendering(ResponseLines(entry, greeting, term));
      && StartsWith(text, "**" + entry.bengali + "**\n\n")
      && EndsWith(text, "**Safety Level:** " + entry.safetyLevel)
      && Contains(text, "**Examples:** " + entry.examples + "\n\n")
  {
    var mid := MiddleLines(entry, greeting, term);
    var title := Title(entry.bengali);
    var ctx := ContextLine(entry.culturalContext);
    var ex := ExamplesLine(entry.examples);
    var lvl := LevelLine(entry.safetyLevel);
    assert ResponseLines(entry, greeting, term) == ([title] + (mid + [ctx])) + [ex] + [lvl];
    RenderingAppend([title], mid + [ctx]);
    RenderingAppend([title] + (mid + [ctx]), [ex]);
    RenderingAppend([title] + (mid + [ctx]) + [ex], [lvl]);
    RenderingSingle(title);
    RenderingSingle(ex);
    RenderingSingle(lvl);
    FrameOf(Render(title), Rendering(mid + [ctx]), Render(ex), Render(lvl));
    SuffixOfAppend(Render(title) + Rendering(mid + [ctx]) + Render(ex), Render(lvl));
  }

  /** The response record for a found entry, once the region's greeting is known. */
  function ResponseWith(entry: WebEntry, greeting: string, term: string): WebResult {
    WebResult(Rendering(ResponseLines(entry, greeting, term)), entry.safetyLevel, term, entry.meaning, entry.bengali)
  }

  /** `createTranslationResponse`: reading the greeting of a region missing from the personalities table fails. */
  function TranslationResponseOf(entry: WebEntry, region: string, term: string): (r: Option<WebResult>)
    ensures r.Some? <==> Greeting(region).Some?
    ensures r.Some? ==>
      (r.value.safetyLevel == entry.safetyLevel && r.value.term == term
       && r.value.meaning == entry.meaning && r.value.bengali == entry.bengali)
  {
    match Greeting(region)
    case None => None
    case Some(greeting) => Some(ResponseWith(entry, greeting, term))
  }

  /** The response text is the title, the middle lines and the closing three, one after another. */
  lemma ResponseRendering(entry: WebEntry, greeting: string, term: string)
    ensures Rendering(ResponseLines(entry, greeting, term))
      == Render(Title(entry.bengali)) + Rendering(MiddleLines(entry, greeting, term))
         + Render(ContextLine(entry.culturalContext)) + Render(ExamplesLine(entry.examples))
         + Render(LevelLine(entry.safetyLevel))
  {
    var mid := MiddleLines(entry, greeting, term);
    var title := Title(entry.bengali);
    var ctx := ContextLine(entry.culturalContext);
    var ex := ExamplesLine(entry.examples);
    var lvl := LevelLine(entry.safetyLevel);
    assert ResponseLines(entry, greeting, term) == [title] + mid + [ctx] + [ex] + [lvl];
    RenderingAppend([title], mid);
    RenderingSingle(title);
    RenderingSnoc([title] + mid, ctx);
    RenderingSnoc([title] + mid + [ctx], ex);
    RenderingSnoc([title] + mid + [ctx] + [ex], lvl);
  }

  /** The heavy warning block or the greeting line, appended to the response so far. */
  method AppendMiddle(entry: WebEntry, greeting: string, term: string, start: string) returns (response: string)
    ensures response == start + Rendering(MiddleLines(entry, greeting, term))
  {
    response := start;
    if entry.safetyLevel == DO_NOT_USE {
      response := response + Render(HeavyWarning(greeting));
      response := response + Render(Means(term, entry.meaning));
      ghost var lines := [HeavyWarning(greeting), Means(term, entry.meaning)];
      RenderingSingle(HeavyWarning(greeting));
      RenderingSnoc([HeavyWarning(greeting)], Means(term, entry.meaning));
      assert [HeavyWarning(greeting)] + [Means(term, entry.meaning)] == lines;
      if entry.warning.Some? && entry.warning.value != "" {
        response := response + Render(WarningNote(entry.warning.value));
        RenderingSnoc(lines, WarningNote(entry.warning.value));
      } else {
        assert lines + [] == lines;
      }
    } else {
      response := response + Render(GreetingMeans(greeting, term, entry.meaning));
      RenderingSingle(GreetingMeans(greeting, term, entry.meaning));
    }
  }

  /** `createTranslationResponse`, appending line after line to the response. */
  method CreateTranslationResponse(entry: WebEntry, region: string, term: string) returns (r: Option<WebResult>)
    ensures r == TranslationResponseOf(entry, region, term)
  {
    var personality := Greeting(region);
    if personality.None? {
      return None;
    }
    var greeting := personality.value;
    var response := Render(Title(entry.bengali));
    response := AppendMiddle(entry, greeting, term, response);
    response := response + Render(ContextLine(entry.culturalContext));
    response := response + Render(ExamplesLine(entry.examples));
    response := response + Render(LevelLine(entry.safetyLevel));
    ResponseRendering(entry, greeting, term);
    r := Some(WebResult(response, entry.safetyLevel, term, entry.meaning, entry.bengali));
  }

  const BHAIYA_OPENING: string := "Dada, in Bengal we say \"Dada\" not \"Bhaiya\"!"
  const BHAIYA_REST: string :=
    " \U{1F60A}\n\n**দাদা**\n\n"
    + "Dada means **Elder brother/Respectful address for men**. Term of respect and familiarity.\n"
    + "**Cultural Context:** Universal Bengali term of respect, essential for social interaction\n"
    + "**Examples:** Dada, ki khobor, Dada ke jiggesh koro\n\n"
    + "**Safety Level:** Safe / Friendly"

  /** `createBhaiyaCorrection`: the fixed answer about "Dada". */
  function CreateBhaiyaCorrection(): (r: WebResult)
    ensures r.term == "dada" && r.safetyLevel == SAFE_FRIENDLY
    ensures r.meaning == "Elder brother/Respectful address for men"
    ensures StartsWith(r.formattedResponse, BHAIYA_OPENING)
  {
    PrefixOfAppend(BHAIYA_OPENING, BHAIYA_REST);
    WebResult(BHAIYA_OPENING + BHAIYA_REST, SAFE_FRIENDLY, "dada", "Elder brother/Respectful address for men", "দাদা")
  }

  const POPULAR_TERMS: string := "Try these popular terms: lyadh, fatafati, adda, jhol, mishti, bhalo"

  /** `createUnknownTermResponse`: the input as typed, an unknown level and a question mark for the script. */
  function CreateUnknownTermResponse(term: string, region: string): (r: Option<WebResult>)
    ensures r.Some? <==> Greeting(region).Some?
    ensures r.Some? ==>
      (r.value.safetyLevel == "Unknown" && r.value.bengali == "?"
       && r.value.meaning == "Unknown term" && r.value.term == term)
    ensures r.Some? ==> StartsWith(r.value.formattedResponse, GREETING + ", I don't know \"" + term + "\" yet.")
  {
    match Greeting(region)
    case None => None
    case Some(greeting) =>
      var head := greeting + ", I don't know \"" + term + "\" yet.";
      var tail := " I'm still learning Bengali slang!\n\n" + POPULAR_TERMS;
      PrefixOfAppend(head, tail);
      Some(WebResult(head + tail, "Unknown", term, "Unknown term", "?"))
  }

  /** The key a typed term is looked up under: lower-cased, then trimmed. */
  function CleanTerm(term: string): string {
    Trim(Lower(term))
  }

  /** `translate`: "bhaiya" anywhere wins; otherwise an exact key lookup, found or not. */
  function Translate(table: seq<WebEntry>, term: string, region: string): (r: Option<WebResult>)
    ensures Contains(CleanTerm(term), BHAIYA) ==> r == Some(CreateBhaiyaCorrection())
    ensures !Contains(CleanTerm(term), BHAIYA) && Lookup(table, CleanTerm(term)).None?
      ==> r == CreateUnknownTermResponse(term, region)
    ensures !Contains(CleanTerm(term), BHAIYA) && Lookup(table, CleanTerm(term)).Some?
      ==> r == TranslationResponseOf(Lookup(table, CleanTerm(term)).value, region, CleanTerm(term))
  {
    var clean := CleanTerm(term);
    if Contains(clean, BHAIYA) then Some(CreateBhaiyaCorrection())
    else
      match Lookup(table, clean)
      case None => CreateUnknownTermResponse(term, region)
      case Some(entry) => TranslationResponseOf(entry, region, clean)
  }

  /**
   * There is no fuzzy matching: past the "bhaiya" check, a term is found
   * exactly when some key equals its cleaned form, and the result copies that
   * entry; a region without a personality makes every such call fail.
   */
  lemma TranslateExact(table: seq<WebEntry>, term: string, region: string)
    requires !Contains(CleanTerm(term), BHAIYA)
    ensures Greeting(region).None? ==> Translate(table, term, region).None?
    ensures Greeting(region).Some? ==>
      var r := Translate(table, term, region).value;
      && (r.safetyLevel != "Unknown" || r.bengali != "?" ==> exists i :: 0 <= i < |table| && table[i].key == CleanTerm(term))
      && (forall i :: 0 <= i < |table| && table[i].key == CleanTerm(term) && KeysDistinct(table) ==>
            r.safetyLevel == table[i].safetyLevel && r.meaning == table[i].meaning
            && r.bengali == table[i].bengali && r.term == table[i].key)
  {
    if Greeting(region).Some? {
      forall i | 0 <= i < |table| && table[i].key == CleanTerm(term) && KeysDistinct(table)
        ensures Lookup(table, CleanTerm(term)) == Some(table[i])
      {
        LookupOwnKey(table, i);
      }
    }
  }

  /** The response for a found entry, with all its line facts. */
  lemma TranslateFound(table: seq<WebEntry>, term: string, region: string)
    requires !Contains(CleanTerm(term), BHAIYA) && Greeting(region).Some?
    requires Lookup(table, CleanTerm(term)).Some?
    ensures var entry := Lookup(table, CleanTerm(term)).value;
      var text := Translate(table, term, region).value.formattedResponse;
      && text == Rendering(ResponseLines(entry, GREETING, CleanTerm(term)))
      && StartsWith(text, "**" + entry.bengali + "**\n\n")
      && EndsWith(text, "**Safety Level:** " + entry.safetyLevel)
      && Contains(text, "**Examples:** " + entry.examples + "\n\n")
  {
    ResponseTextFrame(Lookup(table, CleanTerm(term)).value, GREETING, CleanTerm(term));
  }

  /** `getRandomTerm` with the random position passed in: the translation of one key, in the default region. */
  function GetRandomTerm(table: seq<WebEntry>, pick: nat): (r: Option<WebResult>)
    ensures table == [] ==> r.None?
    ensures table != [] ==> r == Translate(table, table[pick % |table|].key, DEFAULT_REGION)
  {
    if table == [] then None else Translate(table, table[pick % |table|].key, DEFAULT_REGION)
  }

  /**
   * With distinct keys that are already lower-case, trimmed and free of
   * "bhaiya", as every key of the shipped table is, the drawn key is always
   * found: the random term shows that entry's response in the default region.
   */
  lemma RandomTermFound(table: seq<WebEntry>, pick: nat)
    requires table != [] && KeysDistinct(table)
    requires forall i :: 0 <= i < |table| ==> CleanTerm(table[i].key) == table[i].key && !Contains(table[i].key, BHAIYA)
    ensures var e := table[pick % |table|];
      GetRandomTerm(table, pick) == Some(ResponseWith(e, GREETING, e.key))
  {
    var k := pick % |table|;
    LookupOwnKey(table, k);
    assert CleanTerm(table[k].key) == table[k].key;
  }

  /** The search test: the query, lower-cased but not trimmed, inside the meaning, the context or the examples. */
  predicate Matches(entry: WebEntry, search: string) {
    Contains(Lower(entry.meaning), search) || Contains(Lower(entry.culturalContext), search)
    || Contains(Lower(entry.examples), search)
  }

  /** The results `searchByMeaning` pushes for some entries: each matching entry's Kolkata response, in order. */
  function SearchResultsOf(entries: seq<WebEntry>, search: string): seq<WebResult> {
    var hits := Filter(entries, (e: WebEntry) => Matches(e, search));
    seq(|hits|, i requires 0 <= i < |hits| => ResponseWith(hits[i], GREETING, hits[i].key))
  }

  lemma SearchResultsSnoc(entries: seq<WebEntry>, e: WebEntry, search: string)
    ensures SearchResultsOf(entries + [e], search)
      == SearchResultsOf(entries, search) + (if Matches(e, search) then [ResponseWith(e, GREETING, e.key)] else [])
  {
    var p := (x: WebEntry) => Matches(x, search);
    FilterAppend(entries, [e], p);
    assert Filter([e], p) == (if p(e) then [e] else []) + Filter([], p);
  }

  /** `searchByMeaning`, walking the table and pushing the response of each matching entry. */
  method SearchByMeaning(table: seq<WebEntry>, searchTerm: string) returns (results: seq<WebResult>)
    ensures results == SearchResultsOf(table, Lower(searchTerm))
  {
    results := [];
    var search := Lower(searchTerm);
    var i := 0;
    while i < |table|
      invariant 0 <= i <= |table|
      invariant results == SearchResultsOf(table[..i], search)
    {
      var entry := table[i];
      SearchResultsSnoc(table[..i], entry, search);
      assert table[..i + 1] == table[..i] + [entry];
      if Matches(entry, search) {
        var response := CreateTranslationResponse(entry, DEFAULT_REGION, entry.key);
        results := results + [response.value];
      }
      i := i + 1;
    }
    assert table[..|table|] == table;
  }

  /** A search keeps exactly the matching entries' responses. */
  lemma SearchResultsIff(table: seq<WebEntry>, search: string)
    ensures forall i :: 0 <= i < |table| && Matches(table[i], search) ==>
      ResponseWith(table[i], GREETING, table[i].key) in SearchResultsOf(table, search)
    ensures forall r :: r in SearchResultsOf(table, search) ==>
      exists e :: e in table && Matches(e, search) && r == ResponseWith(e, GREETING, e.key)
  {
    var hits := Filter(table, (e: WebEntry) => Matches(e, search));
    var rs := SearchResultsOf(table, search);
    forall i | 0 <= i < |table| && Matches(table[i], search)
      ensures ResponseWith(table[i], GREETING, table[i].key) in rs
    {
      var j :| 0 <= j < |hits| && hits[j] == table[i];
      assert rs[j] == ResponseWith(table[i], GREETING, table[i].key);
    }
    forall r | r in rs
      ensures exists e :: e in table && Matches(e, search) && r == ResponseWith(e, GREETING, e.key)
    {
      var j :| 0 <= j < |rs| && rs[j] == r;
      assert hits[j] in table && Matches(hits[j], search);
    }
  }

  /** What `getSafeTerms` pushes for some entries: the Safe / Friendly ones, in order. */
  function SafeTermsOf(entries: seq<WebEntry>): seq<SafeEntry> {
    var safe := Filter(entries, (e: WebEntry) => e.safetyLevel == SAFE_FRIENDLY);
    seq(|safe|, i requires 0 <= i < |safe| => SafeEntry(safe[i].key, safe[i].meaning, safe[i].bengali))
  }

  lemma SafeTermsSnoc(entries: seq<WebEntry>, e: WebEntry)
    ensures SafeTermsOf(entries + [e])
      == SafeTermsOf(entries) + (if e.safetyLevel == SAFE_FRIENDLY then [SafeEntry(e.key, e.meaning, e.bengali)] else [])
  {
    var p := (x: WebEntry) => x.safetyLevel == SAFE_FRIENDLY;
    FilterAppend(entries, [e], p);
    assert Filter([e], p) == (if p(e) then [e] else []) + Filter([], p);
  }

  /** `getSafeTerms`, walking the table and pushing each Safe / Friendly entry's key, meaning and script. */
  method GetSafeTerms(table: seq<WebEntry>) returns (safeTerms: seq<SafeEntry>)
    ensures safeTerms == SafeTermsOf(table)
  {
    safeTerms := [];
    var i := 0;
    while i < |table|
      invariant 0 <= i <= |table|
      invariant safeTerms == SafeTermsOf(table[..i])
    {
      var entry := table[i];
      SafeTermsSnoc(table[..i], entry);
      assert table[..i + 1] == table[..i] + [entry];
      if entry.safetyLevel == SAFE_FRIENDLY {
        safeTerms := safeTerms + [SafeEntry(entry.key, entry.meaning, entry.bengali)];
      }
      i := i + 1;
    }
    assert table[..|table|] == table;
  }

  /** The safe listing holds exactly the Safe / Friendly entries. */
  lemma SafeTermsIff(table: seq<WebEntry>)
    ensures forall i :: 0 <= i < |table| && table[i].safetyLevel == SAFE_FRIENDLY ==>
      SafeEntry(table[i].key, table[i].meaning, table[i].bengali) in SafeTermsOf(table)
    ensures forall s :: s in SafeTermsOf(table) ==>
      exists e :: e in table && e.safetyLevel == SAFE_FRIENDLY && s == SafeEntry(e.key, e.meaning, e.bengali)
  {
    var safe := Filter(table, (e: WebEntry) => e.safetyLevel == SAFE_FRIENDLY);
    var ss := SafeTermsOf(table);
    forall i | 0 <= i < |table| && table[i].safetyLevel == SAFE_FRIENDLY
      ensures SafeEntry(table[i].key, table[i].meaning, table[i].bengali) in ss
    {
      var j :| 0 <= j < |safe| && safe[j] == table[i];
      assert ss[j] == SafeEntry(table[i].key, table[i].meaning, table[i].bengali);
    }
    forall s | s in ss
      ensures exists e :: e in table && e.safetyLevel == SAFE_FRIENDLY && s == SafeEntry(e.key, e.meaning, e.bengali)
    {
      var j :| 0 <= j < |ss| && ss[j] == s;
      assert safe[j] in table && safe[j].safetyLevel == SAFE_FRIENDLY;
    }
  }
}
