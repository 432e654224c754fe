/**
 * Lookup and filtering over a sequence of lexicon records. The service's one
 * field is fixed at construction, so every operation is a function of that
 * sequence (`lex`), which defaults to the shipped table.
 */
module LexiconService {
  import opened Types
  import opened Text
  import opened Lists
  import opened LexiconData

  /** The four stages of `findTerm`, tried in this order. */
  datatype Stage = ExactWord | ExactScript | WordOverlap | MeaningOverlap

  function Rank(stage: Stage): nat {
    match stage
    case ExactWord => 0
    case ExactScript => 1
    case WordOverlap => 2
    case MeaningOverlap => 3
  }

  /** Either string contains the other. */
  predicate Overlaps(a: string, b: string) {
    Contains(a, b) || Contains(b, a)
  }

  /**
   * Whether record `t` is a hit at `stage` for a query whose trimmed form is
   * `trimmed`: words and meanings are compared lower-cased, the script as given.
   */
  predicate Matches(t: SlangTerm, stage: Stage, trimmed: string) {
    match stage
    case ExactWord => Lower(t.word) == Lower(trimmed)
    case ExactScript => t.banglaScript == trimmed
    case WordOverlap => Overlaps(Lower(t.word), Lower(trimmed))
    case MeaningOverlap => Overlaps(Lower(t.meaning), Lower(trimmed))
  }

  /** `k` is the first position of `lex` that is a hit at `stage`. */
  predicate FirstHit(lex: seq<SlangTerm>, stage: Stage, trimmed: string, k: nat) {
    k < |lex| && Matches(lex[k], stage, trimmed)
    && forall i :: 0 <= i < k ==> !Matches(lex[i], stage, trimmed)
  }

  /** No record of `lex` is a hit at `stage`. */
  predicate NoHit(lex: seq<SlangTerm>, stage: Stage, trimmed: string) {
    forall i :: 0 <= i < |lex| ==> !Matches(lex[i], stage, trimmed)
  }

  /** `Array.prototype.find` for one stage: the first hit's position, or `|lex|` when there is none. */
  function FirstMatch(lex: seq<SlangTerm>, stage: Stage, trimmed: string): (k: nat)
    ensures k <= |lex|
    ensures k < |lex| ==> FirstHit(lex, stage, trimmed, k)
    ensures k == |lex| ==> NoHit(lex, stage, trimmed)
  {
    if lex == [] then 0
    else if Matches(lex[0], stage, trimmed) then 0
    else 1 + FirstMatch(lex[1..], stage, trimmed)
  }

  /** `findTerm`: a blank query finds nothing; otherwise the first hit of the first stage that has one. */
  function FindTerm(lex: seq<SlangTerm>, query: string): (r: Option<SlangTerm>)
    ensures IsBlank(query) ==> r == None
    ensures r.Some? ==> r.value in lex
  {
    if IsBlank(query) then None
    else
      var trimmed := Trim(query);
      var k1 := FirstMatch(lex, ExactWord, trimmed);
      if k1 < |lex| then Some(lex[k1])
      else
        var k2 := FirstMatch(lex, ExactScript, trimmed);
        if k2 < |lex| then Some(lex[k2])
        else
          var k3 := FirstMatch(lex, WordOverlap, trimmed);
          if k3 < |lex| then Some(lex[k3])
          else
            var k4 := FirstMatch(lex, MeaningOverlap, trimmed);
            if k4 < |lex| then Some(lex[k4]) else None
  }

  /** The first hit of a stage is unique. */
  lemma FirstHitUnique(lex: seq<SlangTerm>, stage: Stage, trimmed: string, j: nat, k: nat)
    requires FirstHit(lex, stage, trimmed, j) && FirstHit(lex, stage, trimmed, k)
    ensures j == k
  {
  }

  /**
   * The first hit of a stage is the answer when every earlier stage has no
   * hit at all: exact word beats everything, the script is tried only when no
   * word matches exactly, and so on.
   */
  lemma FindTermFirstStageWins(lex: seq<SlangTerm>, query: string, stage: Stage, k: nat)
    requires !IsBlank(query)
    requires FirstHit(lex, stage, Trim(query), k)
    requires forall s: Stage :: Rank(s) < Rank(stage) ==> NoHit(lex, s, Trim(query))
    ensures FindTerm(lex, query) == Some(lex[k])
  {
    var t := Trim(query);
    var k1 := FirstMatch(lex, ExactWord, t);
    var k2 := FirstMatch(lex, ExactScript, t);
    var k3 := FirstMatch(lex, WordOverlap, t);
    var k4 := FirstMatch(lex, MeaningOverlap, t);
    match stage
    case ExactWord =>
      FirstHitUnique(lex, stage, t, k, k1);
    case ExactScript =>
      assert NoHit(lex, ExactWord, t) by { assert Rank(ExactWord) < Rank(stage); }
      FirstHitUnique(lex, stage, t, k, k2);
    case WordOverlap =>
      assert NoHit(lex, ExactWord, t) by { assert Rank(ExactWord) < Rank(stage); }
      assert NoHit(lex, ExactScript, t) by { assert Rank(ExactScript) < Rank(stage); }
      FirstHitUnique(lex, stage, t, k, k3);
    case MeaningOverlap =>
      assert NoHit(lex, ExactWord, t) by { assert Rank(ExactWord) < Rank(stage); }
      assert NoHit(lex, ExactScript, t) by { assert Rank(ExactScript) < Rank(stage); }
      assert NoHit(lex, WordOverlap, t) by { assert Rank(WordOverlap) < Rank(stage); }
      FirstHitUnique(lex, stage, t, k, k4);
  }

  /** Every answer is the first hit of the first stage that has a hit. */
  lemma FindTermAnswerIsFirstHit(lex: seq<SlangTerm>, query: string)
    requires FindTerm(lex, query).Some?
    ensures !IsBlank(query)
    ensures exists stage: Stage, k: nat ::
      && FirstHit(lex, stage, Trim(query), k)
      && FindTerm(lex, query) == Some(lex[k])
      && (forall s: Stage :: Rank(s) < Rank(stage) ==> NoHit(lex, s, Trim(query)))
  {
    var t := Trim(query);
    var k1 := FirstMatch(lex, ExactWord, t);
    var k2 := FirstMatch(lex, ExactScript, t);
    var k3 := FirstMatch(lex, WordOverlap, t);
    var k4 := FirstMatch(lex, MeaningOverlap, t);
    if k1 < |lex| {
      assert FirstHit(lex, ExactWord, t, k1);
      assert forall s: Stage :: Rank(s) < Rank(ExactWord) ==> NoHit(lex, s, t);
    } else if k2 < |lex| {
      assert FirstHit(lex, ExactScript, t, k2);
      forall s: Stage | Rank(s) < Rank(ExactScript)
        ensures NoHit(lex, s, t)
      {
        assert s == ExactWord;
      }
    } else if k3 < |lex| {
      assert FirstHit(lex, WordOverlap, t, k3);
      forall s: Stage | Rank(s) < Rank(WordOverlap)
        ensures NoHit(lex, s, t)
      {
        assert s == ExactWord || s == ExactScript;
      }
    } else {
      assert FirstHit(lex, MeaningOverlap, t, k4);
      forall s: Stage | Rank(s) < Rank(MeaningOverlap)
        ensures NoHit(lex, s, t)
      {
        assert s != MeaningOverlap;
      }
    }
  }

  /** Nothing is found exactly when the query is blank or no record is a hit at any stage. */
  lemma FindTermNone(lex: seq<SlangTerm>, query: string)
    ensures FindTerm(lex, query) == None <==> IsBlank(query) || forall s: Stage :: NoHit(lex, s, Trim(query))
  {
    if !IsBlank(query) && FindTerm(lex, query) == None {
      var t := Trim(query);
      forall s: Stage
        ensures NoHit(lex, s, t)
      {
        var k := FirstMatch(lex, s, t);
      }
    }
    if !IsBlank(query) && FindTerm(lex, query).Some? {
      FindTermAnswerIsFirstHit(lex, query);
      var stage: Stage, k: nat :| FirstHit(lex, stage, Trim(query), k);
      assert !NoHit(lex, stage, Trim(query));
    }
  }

  /** `validateTermExists`. */
  function ValidateTermExists(lex: seq<SlangTerm>, query: string): bool {
    FindTerm(lex, query).Some?
  }

  /** A term "exists" exactly when the query is not blank and some record is a hit at some stage. */
  lemma ValidateTermExistsIff(lex: seq<SlangTerm>, query: string)
    ensures ValidateTermExists(lex, query)
      <==> !IsBlank(query) && exists s: Stage, i :: 0 <= i < |lex| && Matches(lex[i], s, Trim(query))
  {
    FindTermNone(lex, query);
  }

  /** `getTermsByRegion`: the records whose region list names `region`, in storage order. */
  function GetTermsByRegion(lex: seq<SlangTerm>, region: Region): (r: seq<SlangTerm>)
    ensures forall i :: 0 <= i < |r| ==> r[i] in lex && region in r[i].region
    ensures forall i :: 0 <= i < |lex| && region in lex[i].region ==> lex[i] in r
  {
    Filter(lex, (t: SlangTerm) => region in t.region)
  }

  /** `getTermsBySafetyLevel`, which compares the tier's string value with the argument. */
  function GetTermsBySafetyLevel(lex: seq<SlangTerm>, level: string): (r: seq<SlangTerm>)
    ensures forall i :: 0 <= i < |r| ==> r[i] in lex && LevelName(r[i].safetyLevel) == level
    ensures forall i :: 0 <= i < |lex| && LevelName(lex[i].safetyLevel) == level ==> lex[i] in r
  {
    Filter(lex, (t: SlangTerm) => LevelName(t.safetyLevel) == level)
  }

  /** Both filters keep storage order: filtering a concatenation concatenates the filtered parts. */
  lemma FiltersKeepOrder(a: seq<SlangTerm>, b: seq<SlangTerm>, region: Region, level: string)
    ensures GetTermsByRegion(a + b, region) == GetTermsByRegion(a, region) + GetTermsByRegion(b, region)
    ensures GetTermsBySafetyLevel(a + b, level) == GetTermsBySafetyLevel(a, level) + GetTermsBySafetyLevel(b, level)
  {
    FilterAppend(a, b, (t: SlangTerm) => region in t.region);
    FilterAppend(a, b, (t: SlangTerm) => LevelName(t.safetyLevel) == level);
  }

  /** Tier names are distinct, so filtering by a tier's name selects exactly that tier; any other string selects nothing. */
  lemma TermsBySafetyLevelName(lex: seq<SlangTerm>, level: SafetyLevel, other: string)
    requires forall l: SafetyLevel :: LevelName(l) != other
    ensures forall i :: 0 <= i < |GetTermsBySafetyLevel(lex, LevelName(level))| ==>
      GetTermsBySafetyLevel(lex, LevelName(level))[i].safetyLevel == level
    ensures GetTermsBySafetyLevel(lex, other) == []
  {
    var r := GetTermsBySafetyLevel(lex, other);
    assert |r| > 0 ==> LevelName(r[0].safetyLevel) == other;
  }

  /** Stage-free substring hit used by `searchByMeaning`; `q` is already lower-cased. */
  predicate DescribedBy(t: SlangTerm, q: string) {
    Contains(Lower(t.meaning), q) || Contains(Lower(t.usage), q) || Contains(Lower(t.culturalContext), q)
  }

  /** `searchByMeaning`. */
  function SearchByMeaning(lex: seq<SlangTerm>, query: string): (r: seq<SlangTerm>)
    ensures IsBlank(query) ==> r == []
    ensures !IsBlank(query) ==>
      && (forall i :: 0 <= i < |r| ==> r[i] in lex && DescribedBy(r[i], Lower(Trim(query))))
      && (forall i :: 0 <= i < |lex| && DescribedBy(lex[i], Lower(Trim(query))) ==> lex[i] in r)
  {
    if IsBlank(query) then []
    else
      var q := Lower(Trim(query));
      Filter(lex, (t: SlangTerm) => DescribedBy(t, q))
  }

  /** `getAllTerms`: a copy equal to the stored sequence. */
  function GetAllTerms(lex: seq<SlangTerm>): (r: seq<SlangTerm>)
    ensures r == lex
  {
    lex
  }

  /** `getRandomTerm`, with the random position passed in as `pick`. */
  function GetRandomTerm(lex: seq<SlangTerm>, pick: nat): (r: Option<SlangTerm>)
    ensures r == None <==> lex == []
    ensures r.Some? ==> r.value in lex
  {
    if |lex| == 0 then None else Some(lex[pick % |lex|])
  }

  /** Every record can be the random pick. */
  lemma RandomTermReachesEvery(lex: seq<SlangTerm>, k: nat)
    requires k < |lex|
    ensures GetRandomTerm(lex, k) == Some(lex[k])
  {
  }

  /** A well-formed record is found by its own word and by that word upper-cased, given distinct lower-cased words. */
  lemma FoundByOwnWord(lex: seq<SlangTerm>, k: nat)
    requires EveryWellFormed(lex) && Distinct(LowerWords(lex)) && k < |lex|
    ensures FindTerm(lex, lex[k].word) == Some(lex[k])
    ensures FindTerm(lex, Upper(lex[k].word)) == Some(lex[k])
  {
    var w := lex[k].word;
    assert WellFormed(lex[k]);
    TrimOfUnpadded(w);
    var u := Upper(w);
    CaseKeepsSpace(w[0]);
    CaseKeepsSpace(w[|w| - 1]);
    TrimOfUnpadded(u);
    LowerOfUpper(w);
    assert !IsBlank(w) && !IsBlank(u);
    assert forall i :: 0 <= i < k ==> LowerWords(lex)[i] != LowerWords(lex)[k];
    assert FirstHit(lex, ExactWord, Trim(w), k);
    assert FirstHit(lex, ExactWord, Trim(u), k);
    FindTermFirstStageWins(lex, w, ExactWord, k);
    FindTermFirstStageWins(lex, u, ExactWord, k);
  }

  /** A well-formed record is found by its own script, given distinct scripts: no word looks like a script. */
  lemma FoundByOwnScript(lex: seq<SlangTerm>, k: nat)
    requires EveryWellFormed(lex) && Distinct(Scripts(lex)) && k < |lex|
    ensures FindTerm(lex, lex[k].banglaScript) == Some(lex[k])
  {
    var s := lex[k].banglaScript;
    assert WellFormed(lex[k]);
    TrimOfUnpadded(s);
    assert !IsBlank(s);
    forall i | 0 <= i < |lex|
      ensures !Matches(lex[i], ExactWord, s)
    {
      assert WellFormed(lex[i]);
      assert Lower(lex[i].word)[0] != Lower(s)[0];
    }
    assert forall i :: 0 <= i < k ==> Scripts(lex)[i] != Scripts(lex)[k];
    assert FirstHit(lex, ExactScript, s, k);
    FindTermFirstStageWins(lex, s, ExactScript, k);
  }

  /** Every record of the shipped table is found by its word, its upper-cased word and its script. */
  lemma StoredTermsAreFound(k: nat)
    requires k < |LEXICON_DATA|
    ensures FindTerm(LEXICON_DATA, LEXICON_DATA[k].word) == Some(LEXICON_DATA[k])
    ensures FindTerm(LEXICON_DATA, Upper(LEXICON_DATA[k].word)) == Some(LEXICON_DATA[k])
    ensures FindTerm(LEXICON_DATA, LEXICON_DATA[k].banglaScript) == Some(LEXICON_DATA[k])
  {
    LexiconWellFormed();
    LexiconKeysDistinct();
    FoundByOwnWord(LEXICON_DATA, k);
    FoundByOwnScript(LEXICON_DATA, k);
  }
}
