/**
 * The fixed lexicon the translator ships with (32 records, in storage order),
 * and the invariants its test suite asserts about it.
 */
module LexiconData {
  import opened Types
  import opened Text
  import opened Lists

  // src/data/lexicon.ts:7-16
  const LYADH: SlangTerm := SlangTerm(
    word := "Lyadh",
    banglaScript := "ল্যাদ",
    meaning := "Proactive Laziness",
    usage := "A lifestyle choice; enjoying doing nothing.",
    safetyLevel := SafeFriendly,
    region := [Kolkata],
    culturalContext := "Core concept of Kolkata urban culture, represents the art of productive relaxation",
    examples := ["Aj puro din lyadh korbo", "Lyadh is a way of life in Kolkata"])

  // src/data/lexicon.ts:17-26
  const AANTEL: SlangTerm := SlangTerm(
    word := "Aantel",
    banglaScript := "আঁতেল",
    meaning := "Pseudo-intellectual",
    usage := "Someone acting too smart at a tea stall.",
    safetyLevel := FriendlyRoast,
    region := [Kolkata],
    culturalContext := "Used to describe someone showing off their knowledge inappropriately",
    examples := ["Oi aantel ta ki bolche", "Aantel hoye kaj nei"])

  // src/data/lexicon.ts:27-36
  const CHAP: SlangTerm := SlangTerm(
    word := "Chap",
    banglaScript := "চাপ",
    meaning := "Stress/Pressure",
    usage := "Used when things are difficult or busy.",
    safetyLevel := SafeFriendly,
    region := [Kolkata],
    culturalContext := "Common expression for stress in daily life",
    examples := ["Khub chap ache", "Chap niye kaj korchi"])

  // src/data/lexicon.ts:37-46
  const KELANE: SlangTerm := SlangTerm(
    word := "Kelane",
    banglaScript := "ক্যালানে",
    meaning := "Silly/Grinning",
    usage := "Someone smiling foolishly like a joker.",
    safetyLevel := DoNotUse,
    region := [Kolkata],
    culturalContext := "Offensive term that can be hurtful when used to describe someone",
    examples := [])

  // src/data/lexicon.ts:47-56
  const FATAFATI: SlangTerm := SlangTerm(
    word := "Fatafati",
    banglaScript := "ফাটাফাটি",
    meaning := "Awesome",
    usage := "The ultimate compliment for anything good.",
    safetyLevel := SafeFriendly,
    region := [Kolkata],
    culturalContext := "Popular positive expression used widely in Bengali culture",
    examples := ["Fatafati khawa hoyeche", "Eta fatafati lagche"])

  // src/data/lexicon.ts:57-66
  const POKA: SlangTerm := SlangTerm(
    word := "Poka",
    banglaScript := "পোকা",
    meaning := "Obsession",
    usage := "A \"buff\" (e.g., Movie-poka, Boi-poka).",
    safetyLevel := SafeFriendly,
    region := [Kolkata],
    culturalContext := "Endearing term for someone passionate about something",
    examples := ["Tui to cinema poka", "Boi poka hoye gechi"])

  // src/data/lexicon.ts:69-78
  const SITUA: SlangTerm := SlangTerm(
    word := "Situa",
    banglaScript := "সিতুয়া",
    meaning := "Damp/Chilly",
    usage := "Unique to this region. Used for weather or damp clothes.",
    safetyLevel := SafeFriendly,
    region := [Bardhaman],
    culturalContext := "Regional weather term specific to Bardhaman area",
    examples := ["Aj situa lagche", "Kapor gulo situa hoye geche"])

  // src/data/lexicon.ts:79-88
  const BARI_GHORA: SlangTerm := SlangTerm(
    word := "Bari-ghora",
    banglaScript := "বাড়ি-ঘোড়া",
    meaning := "Showing off",
    usage := "Acting like a rich landlord (Zamindar style).",
    safetyLevel := FriendlyRoast,
    region := [Bardhaman],
    culturalContext := "References the historical zamindar culture of rural Bengal",
    examples := ["Bari-ghora korche keno", "Zamindar er moto bari-ghora"])

  // src/data/lexicon.ts:89-98
  const POD_PAKA: SlangTerm := SlangTerm(
    word := "Pod paka",
    banglaScript := "পোদ পাকা",
    meaning := "Precocious/Spoiled",
    usage := "Someone acting too mature/wicked for their age.",
    safetyLevel := SafeFriendly,
    region := [Bardhaman],
    culturalContext := "Used to describe children who act beyond their years",
    examples := ["Chele ta pod paka", "Pod paka hoye geche"])

  // src/data/lexicon.ts:99-108
  const MAYYA: SlangTerm := SlangTerm(
    word := "Mayya",
    banglaScript := "মাইয়া",
    meaning := "Girl",
    usage := "Regional dialect for \"Meye.\"",
    safetyLevel := FriendlyRoast,
    region := [Bardhaman],
    culturalContext := "Rural dialect variation of the standard Bengali word for girl",
    examples := ["Oi mayya ta ke", "Mayya gulo elo"])

  // src/data/lexicon.ts:109-118
  const PET_HOYECHE: SlangTerm := SlangTerm(
    word := "Pet hoyeche",
    banglaScript := "পেট হয়েছে",
    meaning := "Pregnant",
    usage := "A very blunt, non-medical way to say someone is pregnant.",
    safetyLevel := OffensiveAnnoying,
    region := [Bardhaman],
    culturalContext := "Crude way to refer to pregnancy, can be offensive",
    examples := [])

  // src/data/lexicon.ts:119-128
  const POATI: SlangTerm := SlangTerm(
    word := "Poati",
    banglaScript := "পোয়াতি",
    meaning := "Pregnant woman",
    usage := "Traditional/Rural term for a pregnant lady.",
    safetyLevel := DoNotUse,
    region := [Bardhaman],
    culturalContext := "Outdated and potentially offensive term for pregnant women",
    examples := [])

  // src/data/lexicon.ts:129-138
  const MAG_BHATAR: SlangTerm := SlangTerm(
    word := "Mag-Bhatar",
    banglaScript := "মাগ-ভাতার",
    meaning := "Wife & Husband",
    usage := "Very crude/low-class way to refer to a married couple.",
    safetyLevel := DoNotUse,
    region := [Bardhaman],
    culturalContext := "Highly disrespectful way to refer to married couples",
    examples := [])

  // src/data/lexicon.ts:139-148
  const MAAGI: SlangTerm := SlangTerm(
    word := "Maagi",
    banglaScript := "মাগি",
    meaning := "Girl/Woman",
    usage := "Historically meant woman, now a heavy sexual slur.",
    safetyLevel := DoNotUse,
    region := [Bardhaman],
    culturalContext := "Extremely offensive sexual slur, never appropriate to use",
    examples := [])

  // src/data/lexicon.ts:149-158
  const MAAGIBAJI: SlangTerm := SlangTerm(
    word := "Maagibaji",
    banglaScript := "মাগিবাড়ি",
    meaning := "Womanizing",
    usage := "Running around chasing women for sex.",
    safetyLevel := DoNotUse,
    region := [Bardhaman],
    culturalContext := "Vulgar term for inappropriate sexual behavior",
    examples := [])

  // src/data/lexicon.ts:159-168
  const NANG_KORTA_JAWA: SlangTerm := SlangTerm(
    word := "Nang korta jawa",
    banglaScript := "নাঙ করতে যাওয়া",
    meaning := "Infidelity",
    usage := "Going to bed with someone other than a spouse.",
    safetyLevel := DoNotUse,
    region := [Bardhaman],
    culturalContext := "Crude reference to extramarital affairs",
    examples := [])

  // src/data/lexicon.ts:169-178
  const BAROBHATARI: SlangTerm := SlangTerm(
    word := "Barobhatari",
    banglaScript := "বারোভাতারী",
    meaning := "Slut",
    usage := "Highly offensive term for a woman with many partners.",
    safetyLevel := DoNotUse,
    region := [Bardhaman],
    culturalContext := "Extremely derogatory term for women, never acceptable",
    examples := [])

  // src/data/lexicon.ts:181-190
  const TOTO_GIRI: SlangTerm := SlangTerm(
    word := "Toto-giri",
    banglaScript := "টোটো-গিরি",
    meaning := "E-Rickshaw roaming",
    usage := "Wasting time traveling aimlessly in a Toto.",
    safetyLevel := SafeFriendly,
    region := [TarakeswarHooghly],
    culturalContext := "Modern term referring to the popular e-rickshaw transport",
    examples := ["Toto-giri korchi", "Puro din toto-giri"])

  // src/data/lexicon.ts:191-200
  const JATRI: SlangTerm := SlangTerm(
    word := "Jatri",
    banglaScript := "যাত্রী",
    meaning := "Pilgrim",
    usage := "Refers to the massive Shiva temple crowds.",
    safetyLevel := SafeFriendly,
    region := [TarakeswarHooghly],
    culturalContext := "Religious context specific to temple towns like Tarakeswar",
    examples := ["Jatri ra elo", "Tarakeswar e jatri der bhir"])

  // src/data/lexicon.ts:201-210
  const NAITE_JABO: SlangTerm := SlangTerm(
    word := "Naite jabo",
    banglaScript := "নাইতে যাব",
    meaning := "Bathing",
    usage := "Local way of saying \"I am going to bathe.\"",
    safetyLevel := SafeFriendly,
    region := [TarakeswarHooghly],
    culturalContext := "Regional dialect for bathing, common in rural areas",
    examples := ["Naite jabo ekhon", "Naite gelo"])

  // src/data/lexicon.ts:212-221
  const KHANKIR_CHALA: SlangTerm := SlangTerm(
    word := "Khankir chala",
    banglaScript := "খানকির ছেলে",
    meaning := "Son of a whore",
    usage := "Extremely offensive insult used in heated fights.",
    safetyLevel := DoNotUse,
    region := [TarakeswarHooghly],
    culturalContext := "Extremely vulgar insult, causes serious social offense",
    examples := [])

  // src/data/lexicon.ts:222-231
  const SODANIR_POLA: SlangTerm := SlangTerm(
    word := "Sodanir pola",
    banglaScript := "সোদানির পোলা",
    meaning := "Son of a fucker",
    usage := "Heavy regional insult, very vulgar.",
    safetyLevel := DoNotUse,
    region := [TarakeswarHooghly],
    culturalContext := "Highly offensive regional curse word",
    examples := [])

  // src/data/lexicon.ts:232-241
  const KHANKI_CHUDI: SlangTerm := SlangTerm(
    word := "Khanki chudi",
    banglaScript := "খানকি চুদি",
    meaning := "Sexual Slur",
    usage := "Highly offensive sexual slur toward women.",
    safetyLevel := DoNotUse,
    region := [TarakeswarHooghly],
    culturalContext := "Extremely vulgar sexual slur, never appropriate",
    examples := [])

  // src/data/lexicon.ts:242-251
  const CHUTMARANI: SlangTerm := SlangTerm(
    word := "Chutmarani",
    banglaScript := "চুতমারানি",
    meaning := "Pussy-fucker",
    usage := "Highly vulgar term for a man.",
    safetyLevel := DoNotUse,
    region := [TarakeswarHooghly],
    culturalContext := "Extremely vulgar sexual insult",
    examples := [])

  // src/data/lexicon.ts:252-261
  const MAGMARANI: SlangTerm := SlangTerm(
    word := "Magmarani",
    banglaScript := "মাগমারানি",
    meaning := "Adulterer",
    usage := "Man chasing other men's wives.",
    safetyLevel := DoNotUse,
    region := [TarakeswarHooghly],
    culturalContext := "Vulgar term for inappropriate sexual behavior",
    examples := [])

  // src/data/lexicon.ts:262-271
  const HONDER_POLA: SlangTerm := SlangTerm(
    word := "Honder pola",
    banglaScript := "হন্ডের পোলা",
    meaning := "Son of a bitch",
    usage := "Crude insult for someone's character.",
    safetyLevel := DoNotUse,
    region := [TarakeswarHooghly],
    culturalContext := "Offensive character insult",
    examples := [])

  // src/data/lexicon.ts:272-281
  const BARA: SlangTerm := SlangTerm(
    word := "Bara",
    banglaScript := "বাড়",
    meaning := "Penis",
    usage := "Used as an exclamation of extreme frustration.",
    safetyLevel := DoNotUse,
    region := [TarakeswarHooghly],
    culturalContext := "Vulgar anatomical reference used as curse word",
    examples := [])

  // src/data/lexicon.ts:282-291
  const CHUDLINGPONG: SlangTerm := SlangTerm(
    word := "Chudlingpong",
    banglaScript := "চুদলিংপং",
    meaning := "Clusterfuck",
    usage := "Used when something goes very wrong or weirdly.",
    safetyLevel := DoNotUse,
    region := [TarakeswarHooghly],
    culturalContext := "Vulgar expression for chaotic situations",
    examples := [])

  // src/data/lexicon.ts:292-301
  const BABA_CHODA: SlangTerm := SlangTerm(
    word := "Baba choda",
    banglaScript := "বাবা চোদা",
    meaning := "Father-fucker",
    usage := "One of the heaviest, most offensive slurs.",
    safetyLevel := DoNotUse,
    region := [TarakeswarHooghly],
    culturalContext := "Extremely offensive familial insult, causes severe social consequences",
    examples := [])

  // src/data/lexicon.ts:302-311
  const BOKA_CHODA: SlangTerm := SlangTerm(
    word := "Boka choda",
    banglaScript := "বোকা চোদা",
    meaning := "Stupid fucker",
    usage := "Someone who is foolish and useless.",
    safetyLevel := DoNotUse,
    region := [TarakeswarHooghly],
    culturalContext := "Vulgar insult combining stupidity with sexual vulgarity",
    examples := [])

  // src/data/lexicon.ts:312-321
  const LAYAURA: SlangTerm := SlangTerm(
    word := "Layaura",
    banglaScript := "লাউড়া",
    meaning := "Frustration",
    usage := "Said when a task fails and you are angry.",
    safetyLevel := DoNotUse,
    region := [TarakeswarHooghly],
    culturalContext := "Vulgar expression of frustration",
    examples := [])

  // src/data/lexicon.ts:322-331
  const GAR: SlangTerm := SlangTerm(
    word := "Gar",
    banglaScript := "গাড়",
    meaning := "Asshole",
    usage := "Referring to the anatomy or an annoying person.",
    safetyLevel := DoNotUse,
    region := [TarakeswarHooghly],
    culturalContext := "Vulgar anatomical reference used as insult",
    examples := [])

  /** The Kolkata Urban Hub block of the table. */
  const KOLKATA_HUB: seq<SlangTerm> := [LYADH, AANTEL, CHAP, KELANE, FATAFATI, POKA]

  /** The Bardhaman Belt block of the table. */
  const BARDHAMAN_BELT: seq<SlangTerm> := [SITUA, BARI_GHORA, POD_PAKA, MAYYA, PET_HOYECHE, POATI, MAG_BHATAR, MAAGI, MAAGIBAJI, NANG_KORTA_JAWA, BAROBHATARI]

  /** The Tarakeswar & Hooghly Corridor block of the table. */
  const TARAKESWAR_CORRIDOR: seq<SlangTerm> := [TOTO_GIRI, JATRI, NAITE_JABO]

  /** The offensive Tarakeswar/Hooghly block of the table. */
  const TARAKESWAR_OFFENSIVE: seq<SlangTerm> := [KHANKIR_CHALA, SODANIR_POLA, KHANKI_CHUDI, CHUTMARANI, MAGMARANI, HONDER_POLA, BARA, CHUDLINGPONG, BABA_CHODA, BOKA_CHODA, LAYAURA, GAR]

  /** The table in storage order: the four blocks one after another. */
  const LEXICON_DATA: seq<SlangTerm> := KOLKATA_HUB + BARDHAMAN_BELT + TARAKESWAR_CORRIDOR + TARAKESWAR_OFFENSIVE

  /** Non-empty and neither starting nor ending with white space, so `trim` leaves it as it is. */
  predicate Unpadded(s: string) {
    s != [] && !IsSpace(s[0]) && !IsSpace(s[|s| - 1])
  }

  /**
   * What the validation suite asks of every record (non-empty text fields and
   * region list; no examples for the heaviest tier, some for the mildest), and
   * the shape lookups by word and by script rely on: both keys are unpadded, a
   * word starts with an ASCII character and a script with a non-ASCII one.
   */
  predicate WellFormed(t: SlangTerm) {
    && Unpadded(t.word) && Unpadded(t.banglaScript)
    && t.meaning != [] && t.usage != [] && t.culturalContext != [] && t.region != []
    && t.word[0] < 128 as char && t.banglaScript[0] >= 128 as char
    && (t.safetyLevel == DoNotUse ==> t.examples == [])
    && (t.safetyLevel == SafeFriendly ==> t.examples != [])
  }

  predicate EveryWellFormed(lex: seq<SlangTerm>) {
    forall i :: 0 <= i < |lex| ==> WellFormed(lex[i])
  }

  /** Every record of `lex` belongs to `region` alone. */
  predicate EveryInRegion(lex: seq<SlangTerm>, region: Region) {
    forall i :: 0 <= i < |lex| ==> lex[i].region == [region]
  }

  /** The lower-cased words, in storage order. */
  function LowerWords(lex: seq<SlangTerm>): (ws: seq<string>)
    ensures |ws| == |lex| && forall i :: 0 <= i < |lex| ==> ws[i] == Lower(lex[i].word)
  {
    seq(|lex|, i requires 0 <= i < |lex| => Lower(lex[i].word))
  }

  /** The Bengali-script forms, in storage order. */
  function Scripts(lex: seq<SlangTerm>): (ss: seq<string>)
    ensures |ss| == |lex| && forall i :: 0 <= i < |lex| ==> ss[i] == lex[i].banglaScript
  {
    seq(|lex|, i requires 0 <= i < |lex| => lex[i].banglaScript)
  }

  /** The safety tiers, in storage order. */
  function Levels(lex: seq<SlangTerm>): (ls: seq<SafetyLevel>)
    ensures |ls| == |lex| && forall i :: 0 <= i < |lex| ==> ls[i] == lex[i].safetyLevel
  {
    seq(|lex|, i requires 0 <= i < |lex| => lex[i].safetyLevel)
  }

  lemma EveryWellFormedAppend(a: seq<SlangTerm>, b: seq<SlangTerm>)
    requires EveryWellFormed(a) && EveryWellFormed(b)
    ensures EveryWellFormed(a + b)
  {
    forall i | 0 <= i < |a + b|
      ensures WellFormed((a + b)[i])
    {
      if i >= |a| {
        assert (a + b)[i] == b[i - |a|];
      }
    }
  }

  lemma ColumnsAppend(a: seq<SlangTerm>, b: seq<SlangTerm>)
    ensures LowerWords(a + b) == LowerWords(a) + LowerWords(b)
    ensures Scripts(a + b) == Scripts(a) + Scripts(b)
    ensures Levels(a + b) == Levels(a) + Levels(b)
  {
  }

  // The key columns of each block, spelled out.
  const KOLKATA_WORDS: seq<string> := ["lyadh", "aantel", "chap", "kelane", "fatafati", "poka"]
  const KOLKATA_SCRIPTS: seq<string> := ["ল্যাদ", "আঁতেল", "চাপ", "ক্যালানে", "ফাটাফাটি", "পোকা"]
  const KOLKATA_LEVELS: seq<SafetyLevel> := [SafeFriendly, FriendlyRoast, SafeFriendly, DoNotUse, SafeFriendly, SafeFriendly]

  const BARDHAMAN_WORDS: seq<string> := ["situa", "bari-ghora", "pod paka", "mayya", "pet hoyeche", "poati", "mag-bhatar", "maagi", "maagibaji", "nang korta jawa", "barobhatari"]
  const BARDHAMAN_SCRIPTS: seq<string> := ["সিতুয়া", "বাড়ি-ঘোড়া", "পোদ পাকা", "মাইয়া", "পেট হয়েছে", "পোয়াতি", "মাগ-ভাতার", "মাগি", "মাগিবাড়ি", "নাঙ করতে যাওয়া", "বারোভাতারী"]
  const BARDHAMAN_LEVELS: seq<SafetyLevel> := [SafeFriendly, FriendlyRoast, SafeFriendly, FriendlyRoast, OffensiveAnnoying, DoNotUse, DoNotUse, DoNotUse, DoNotUse, DoNotUse, DoNotUse]

  const CORRIDOR_WORDS: seq<string> := ["toto-giri", "jatri", "naite jabo"]
  const CORRIDOR_SCRIPTS: seq<string> := ["টোটো-গিরি", "যাত্রী", "নাইতে যাব"]
  const CORRIDOR_LEVELS: seq<SafetyLevel> := [SafeFriendly, SafeFriendly, SafeFriendly]

  const OFFENSIVE_WORDS: seq<string> := ["khankir chala", "sodanir pola", "khanki chudi", "chutmarani", "magmarani", "honder pola", "bara", "chudlingpong", "baba choda", "boka choda", "layaura", "gar"]
  const OFFENSIVE_SCRIPTS: seq<string> := ["খানকির ছেলে", "সোদানির পোলা", "খানকি চুদি", "চুতমারানি", "মাগমারানি", "হন্ডের পোলা", "বাড়", "চুদলিংপং", "বাবা চোদা", "বোকা চোদা", "লাউড়া", "গাড়"]
  const OFFENSIVE_LEVELS: seq<SafetyLevel> := [DoNotUse, DoNotUse, DoNotUse, DoNotUse, DoNotUse, DoNotUse, DoNotUse, DoNotUse, DoNotUse, DoNotUse, DoNotUse, DoNotUse]

  // Each record on its own: the record invariants and its lower-cased word.

  lemma LyadhFacts()
    ensures WellFormed(LYADH) && Lower(LYADH.word) == "lyadh"
  {
  }

  lemma AantelFacts()
    ensures WellFormed(AANTEL) && Lower(AANTEL.word) == "aantel"
  {
  }

  lemma ChapFacts()
    ensures WellFormed(CHAP) && Lower(CHAP.word) == "chap"
  {
  }

  lemma KelaneFacts()
    ensures WellFormed(KELANE) && Lower(KELANE.word) == "kelane"
  {
  }

  lemma FatafatiFacts()
    ensures WellFormed(FATAFATI) && Lower(FATAFATI.word) == "fatafati"
  {
  }

  lemma PokaFacts()
    ensures WellFormed(POKA) && Lower(POKA.word) == "poka"
  {
  }

  lemma SituaFacts()
    ensures WellFormed(SITUA) && Lower(SITUA.word) == "situa"
  {
  }

  lemma BariGhoraFacts()
    ensures WellFormed(BARI_GHORA) && Lower(BARI_GHORA.word) == "bari-ghora"
  {
  }

  lemma PodPakaFacts()
    ensures WellFormed(POD_PAKA) && Lower(POD_PAKA.word) == "pod paka"
  {
  }

  lemma MayyaFacts()
    ensures WellFormed(MAYYA) && Lower(MAYYA.word) == "mayya"
  {
  }

  lemma PetHoyecheFacts()
    ensures WellFormed(PET_HOYECHE) && Lower(PET_HOYECHE.word) == "pet hoyeche"
  {
  }

  lemma PoatiFacts()
    ensures WellFormed(POATI) && Lower(POATI.word) == "poati"
  {
  }

  lemma MagBhatarFacts()
    ensures WellFormed(MAG_BHATAR) && Lower(MAG_BHATAR.word) == "mag-bhatar"
  {
  }

  lemma MaagiFacts()
    ensures WellFormed(MAAGI) && Lower(MAAGI.word) == "maagi"
  {
  }

  lemma MaagibajiFacts()
    ensures WellFormed(MAAGIBAJI) && Lower(MAAGIBAJI.word) == "maagibaji"
  {
  }

  lemma NangKortaJawaFacts()
    ensures WellFormed(NANG_KORTA_JAWA) && Lower(NANG_KORTA_JAWA.word) == "nang korta jawa"
  {
  }

  lemma BarobhatariFacts()
    ensures WellFormed(BAROBHATARI) && Lower(BAROBHATARI.word) == "barobhatari"
  {
  }

  lemma TotoGiriFacts()
    ensures WellFormed(TOTO_GIRI) && Lower(TOTO_GIRI.word) == "toto-giri"
  {
  }

  lemma JatriFacts()
    ensures WellFormed(JATRI) && Lower(JATRI.word) == "jatri"
  {
  }

  lemma NaiteJaboFacts()
    ensures WellFormed(NAITE_JABO) && Lower(NAITE_JABO.word) == "naite jabo"
  {
  }

  lemma KhankirChalaFacts()
    ensures WellFormed(KHANKIR_CHALA) && Lower(KHANKIR_CHALA.word) == "khankir chala"
  {
  }

  lemma SodanirPolaFacts()
    ensures WellFormed(SODANIR_POLA) && Lower(SODANIR_POLA.word) == "sodanir pola"
  {
  }

  lemma KhankiChudiFacts()
    ensures WellFormed(KHANKI_CHUDI) && Lower(KHANKI_CHUDI.word) == "khanki chudi"
  {
  }

  lemma ChutmaraniFacts()
    ensures WellFormed(CHUTMARANI) && Lower(CHUTMARANI.word) == "chutmarani"
  {
  }

  lemma MagmaraniFacts()
    ensures WellFormed(MAGMARANI) && Lower(MAGMARANI.word) == "magmarani"
  {
  }

  lemma HonderPolaFacts()
    ensures WellFormed(HONDER_POLA) && Lower(HONDER_POLA.word) == "honder pola"
  {
  }

  lemma BaraFacts()
    ensures WellFormed(BARA) && Lower(BARA.word) == "bara"
  {
  }

  lemma ChudlingpongFacts()
    ensures WellFormed(CHUDLINGPONG) && Lower(CHUDLINGPONG.word) == "chudlingpong"
  {
  }

  lemma BabaChodaFacts()
    ensures WellFormed(BABA_CHODA) && Lower(BABA_CHODA.word) == "baba choda"
  {
  }

  lemma BokaChodaFacts()
    ensures WellFormed(BOKA_CHODA) && Lower(BOKA_CHODA.word) == "boka choda"
  {
  }

  lemma LayauraFacts()
    ensures WellFormed(LAYAURA) && Lower(LAYAURA.word) == "layaura"
  {
  }

  lemma GarFacts()
    ensures WellFormed(GAR) && Lower(GAR.word) == "gar"
  {
  }

  // Each block: the record invariants, the region and the key columns.

  lemma KolkataHubShape()
    ensures EveryWellFormed(KOLKATA_HUB) && EveryInRegion(KOLKATA_HUB, Kolkata)
  {
    LyadhFacts();
    AantelFacts();
    ChapFacts();
    KelaneFacts();
    FatafatiFacts();
    PokaFacts();
  }

  lemma KolkataHubWords()
    ensures LowerWords(KOLKATA_HUB) == KOLKATA_WORDS
  {
    LyadhFacts();
    AantelFacts();
    ChapFacts();
    KelaneFacts();
    FatafatiFacts();
    PokaFacts();
  }

  lemma KolkataHubColumns()
    ensures Scripts(KOLKATA_HUB) == KOLKATA_SCRIPTS
    ensures Levels(KOLKATA_HUB) == KOLKATA_LEVELS
  {
  }

  lemma BardhamanBeltShape()
    ensures EveryWellFormed(BARDHAMAN_BELT) && EveryInRegion(BARDHAMAN_BELT, Bardhaman)
  {
    SituaFacts();
    BariGhoraFacts();
    PodPakaFacts();
    MayyaFacts();
    PetHoyecheFacts();
    PoatiFacts();
    MagBhatarFacts();
    MaagiFacts();
    MaagibajiFacts();
    NangKortaJawaFacts();
    BarobhatariFacts();
  }

  lemma BardhamanBeltWords()
    ensures LowerWords(BARDHAMAN_BELT) == BARDHAMAN_WORDS
  {
    SituaFacts();
    BariGhoraFacts();
    PodPakaFacts();
    MayyaFacts();
    PetHoyecheFacts();
    PoatiFacts();
    MagBhatarFacts();
    MaagiFacts();
    MaagibajiFacts();
    NangKortaJawaFacts();
    BarobhatariFacts();
  }

  lemma BardhamanBeltColumns()
    ensures Scripts(BARDHAMAN_BELT) == BARDHAMAN_SCRIPTS
    ensures Levels(BARDHAMAN_BELT) == BARDHAMAN_LEVELS
  {
  }

  lemma TarakeswarCorridorShape()
    ensures EveryWellFormed(TARAKESWAR_CORRIDOR) && EveryInRegion(TARAKESWAR_CORRIDOR, TarakeswarHooghly)
  {
    TotoGiriFacts();
    JatriFacts();
    NaiteJaboFacts();
  }

  lemma TarakeswarCorridorWords()
    ensures LowerWords(TARAKESWAR_CORRIDOR) == CORRIDOR_WORDS
  {
    TotoGiriFacts();
    JatriFacts();
    NaiteJaboFacts();
  }

  lemma TarakeswarCorridorColumns()
    ensures Scripts(TARAKESWAR_CORRIDOR) == CORRIDOR_SCRIPTS
    ensures Levels(TARAKESWAR_CORRIDOR) == CORRIDOR_LEVELS
  {
  }

  lemma TarakeswarOffensiveShape()
    ensures EveryWellFormed(TARAKESWAR_OFFENSIVE) && EveryInRegion(TARAKESWAR_OFFENSIVE, TarakeswarHooghly)
  {
    KhankirChalaFacts();
    SodanirPolaFacts();
    KhankiChudiFacts();
    ChutmaraniFacts();
    MagmaraniFacts();
    HonderPolaFacts();
    BaraFacts();
    ChudlingpongFacts();
    BabaChodaFacts();
    BokaChodaFacts();
    LayauraFacts();
    GarFacts();
  }

  lemma TarakeswarOffensiveWords()
    ensures LowerWords(TARAKESWAR_OFFENSIVE) == OFFENSIVE_WORDS
  {
    KhankirChalaFacts();
    SodanirPolaFacts();
    KhankiChudiFacts();
    ChutmaraniFacts();
    MagmaraniFacts();
    HonderPolaFacts();
    BaraFacts();
    ChudlingpongFacts();
    BabaChodaFacts();
    BokaChodaFacts();
    LayauraFacts();
    GarFacts();
  }

  lemma TarakeswarOffensiveColumns()
    ensures Scripts(TARAKESWAR_OFFENSIVE) == OFFENSIVE_SCRIPTS
    ensures Levels(TARAKESWAR_OFFENSIVE) == OFFENSIVE_LEVELS
  {
  }

  lemma WordsWithinBlocks()
    ensures Distinct(KOLKATA_WORDS) && Distinct(BARDHAMAN_WORDS) && Distinct(CORRIDOR_WORDS) && Distinct(OFFENSIVE_WORDS)
  {
  }

  lemma WordsAcrossFirstBlocks()
    ensures Disjoint(KOLKATA_WORDS, BARDHAMAN_WORDS) && Disjoint(KOLKATA_WORDS, CORRIDOR_WORDS) && Disjoint(BARDHAMAN_WORDS, CORRIDOR_WORDS)
  {
  }

  lemma WordsAcrossLastBlock()
    ensures Disjoint(KOLKATA_WORDS, OFFENSIVE_WORDS) && Disjoint(CORRIDOR_WORDS, OFFENSIVE_WORDS)
  {
  }

  lemma WordsBardhamanOffensive()
    ensures Disjoint(BARDHAMAN_WORDS, OFFENSIVE_WORDS)
  {
  }

  lemma WordsColumnDistinct()
    ensures Distinct(KOLKATA_WORDS + BARDHAMAN_WORDS + CORRIDOR_WORDS + OFFENSIVE_WORDS)
  {
    WordsWithinBlocks();
    WordsAcrossFirstBlocks();
    WordsAcrossLastBlock();
    WordsBardhamanOffensive();
    DistinctAppend(KOLKATA_WORDS, BARDHAMAN_WORDS);
    DisjointAppend(KOLKATA_WORDS, BARDHAMAN_WORDS, CORRIDOR_WORDS);
    DistinctAppend(KOLKATA_WORDS + BARDHAMAN_WORDS, CORRIDOR_WORDS);
    DisjointAppend(KOLKATA_WORDS, BARDHAMAN_WORDS, OFFENSIVE_WORDS);
    DisjointAppend(KOLKATA_WORDS + BARDHAMAN_WORDS, CORRIDOR_WORDS, OFFENSIVE_WORDS);
    DistinctAppend(KOLKATA_WORDS + BARDHAMAN_WORDS + CORRIDOR_WORDS, OFFENSIVE_WORDS);
  }

  lemma ScriptsWithinBlocks()
    ensures Distinct(KOLKATA_SCRIPTS) && Distinct(BARDHAMAN_SCRIPTS) && Distinct(CORRIDOR_SCRIPTS) && Distinct(OFFENSIVE_SCRIPTS)
  {
  }

  lemma ScriptsAcrossFirstBlocks()
    ensures Disjoint(KOLKATA_SCRIPTS, BARDHAMAN_SCRIPTS) && Disjoint(KOLKATA_SCRIPTS, CORRIDOR_SCRIPTS) && Disjoint(BARDHAMAN_SCRIPTS, CORRIDOR_SCRIPTS)
  {
  }

  lemma ScriptsAcrossLastBlock()
    ensures Disjoint(KOLKATA_SCRIPTS, OFFENSIVE_SCRIPTS) && Disjoint(CORRIDOR_SCRIPTS, OFFENSIVE_SCRIPTS)
  {
  }

  lemma ScriptsBardhamanOffensive()
    ensures Disjoint(BARDHAMAN_SCRIPTS, OFFENSIVE_SCRIPTS)
  {
  }

  lemma ScriptsColumnDistinct()
    ensures Distinct(KOLKATA_SCRIPTS + BARDHAMAN_SCRIPTS + CORRIDOR_SCRIPTS + OFFENSIVE_SCRIPTS)
  {
    ScriptsWithinBlocks();
    ScriptsAcrossFirstBlocks();
    ScriptsAcrossLastBlock();
    ScriptsBardhamanOffensive();
    DistinctAppend(KOLKATA_SCRIPTS, BARDHAMAN_SCRIPTS);
    DisjointAppend(KOLKATA_SCRIPTS, BARDHAMAN_SCRIPTS, CORRIDOR_SCRIPTS);
    DistinctAppend(KOLKATA_SCRIPTS + BARDHAMAN_SCRIPTS, CORRIDOR_SCRIPTS);
    DisjointAppend(KOLKATA_SCRIPTS, BARDHAMAN_SCRIPTS, OFFENSIVE_SCRIPTS);
    DisjointAppend(KOLKATA_SCRIPTS + BARDHAMAN_SCRIPTS, CORRIDOR_SCRIPTS, OFFENSIVE_SCRIPTS);
    DistinctAppend(KOLKATA_SCRIPTS + BARDHAMAN_SCRIPTS + CORRIDOR_SCRIPTS, OFFENSIVE_SCRIPTS);
  }

  // The whole table.

  /** The region every record belongs to, by its position in storage order. */
  function BlockRegion(i: nat): Region {
    if i < |KOLKATA_HUB| then Kolkata
    else if i < |KOLKATA_HUB + BARDHAMAN_BELT| then Bardhaman
    else TarakeswarHooghly
  }

  /** Every record satisfies the record invariants, and belongs to its block's region alone. */
  lemma LexiconWellFormed()
    ensures EveryWellFormed(LEXICON_DATA)
    ensures forall i :: 0 <= i < |LEXICON_DATA| ==> LEXICON_DATA[i].region == [BlockRegion(i)]
  {
    KolkataHubShape();
    BardhamanBeltShape();
    TarakeswarCorridorShape();
    TarakeswarOffensiveShape();
    EveryWellFormedAppend(KOLKATA_HUB, BARDHAMAN_BELT);
    EveryWellFormedAppend(KOLKATA_HUB + BARDHAMAN_BELT, TARAKESWAR_CORRIDOR);
    EveryWellFormedAppend(KOLKATA_HUB + BARDHAMAN_BELT + TARAKESWAR_CORRIDOR, TARAKESWAR_OFFENSIVE);
    forall i | 0 <= i < |LEXICON_DATA|
      ensures LEXICON_DATA[i].region == [BlockRegion(i)]
    {
      var a := KOLKATA_HUB + BARDHAMAN_BELT;
      var b := a + TARAKESWAR_CORRIDOR;
      if i < |KOLKATA_HUB| {
        assert LEXICON_DATA[i] == KOLKATA_HUB[i];
      } else if i < |a| {
        assert LEXICON_DATA[i] == BARDHAMAN_BELT[i - |KOLKATA_HUB|];
      } else if i < |b| {
        assert LEXICON_DATA[i] == TARAKESWAR_CORRIDOR[i - |a|];
      } else {
        assert LEXICON_DATA[i] == TARAKESWAR_OFFENSIVE[i - |b|];
      }
    }
  }

  /** The four blocks' key columns, one after another. */
  lemma LexiconColumns()
    ensures LowerWords(LEXICON_DATA) == KOLKATA_WORDS + BARDHAMAN_WORDS + CORRIDOR_WORDS + OFFENSIVE_WORDS
    ensures Scripts(LEXICON_DATA) == KOLKATA_SCRIPTS + BARDHAMAN_SCRIPTS + CORRIDOR_SCRIPTS + OFFENSIVE_SCRIPTS
    ensures Levels(LEXICON_DATA) == KOLKATA_LEVELS + BARDHAMAN_LEVELS + CORRIDOR_LEVELS + OFFENSIVE_LEVELS
  {
    KolkataHubWords();
    BardhamanBeltWords();
    TarakeswarCorridorWords();
    TarakeswarOffensiveWords();
    KolkataHubColumns();
    BardhamanBeltColumns();
    TarakeswarCorridorColumns();
    TarakeswarOffensiveColumns();
    ColumnsAppend(KOLKATA_HUB, BARDHAMAN_BELT);
    ColumnsAppend(KOLKATA_HUB + BARDHAMAN_BELT, TARAKESWAR_CORRIDOR);
    ColumnsAppend(KOLKATA_HUB + BARDHAMAN_BELT + TARAKESWAR_CORRIDOR, TARAKESWAR_OFFENSIVE);
  }

  /** No two records share a word, ignoring case, or a Bengali-script form. */
  lemma LexiconKeysDistinct()
    ensures Distinct(LowerWords(LEXICON_DATA))
    ensures Distinct(Scripts(LEXICON_DATA))
  {
    LexiconColumns();
    WordsColumnDistinct();
    ScriptsColumnDistinct();
  }

  /** Position 10 holds the only middle-tier entry of the tier column; every tier occurs in it. */
  lemma LevelColumnFacts()
    ensures var ls := KOLKATA_LEVELS + BARDHAMAN_LEVELS + CORRIDOR_LEVELS + OFFENSIVE_LEVELS;
      && (forall i :: 0 <= i < |ls| ==> (ls[i] == OffensiveAnnoying <==> i == 10))
      && (forall level: SafetyLevel :: level in ls)
  {
    var ls := KOLKATA_LEVELS + BARDHAMAN_LEVELS + CORRIDOR_LEVELS + OFFENSIVE_LEVELS;
    forall level: SafetyLevel
      ensures level in ls
    {
      var i := match level case SafeFriendly => 0 case FriendlyRoast => 1 case OffensiveAnnoying => 10 case DoNotUse => 3;
      assert ls[i] == level;
    }
  }

  /** Every tier is represented. */
  lemma LevelCoverage()
    ensures forall level: SafetyLevel :: level in Levels(LEXICON_DATA)
  {
    LexiconColumns();
    LevelColumnFacts();
  }

  /** Every region is represented. */
  lemma RegionCoverage()
    ensures forall region: Region :: exists i :: 0 <= i < |LEXICON_DATA| && LEXICON_DATA[i].region == [region]
  {
    LexiconWellFormed();
    forall region: Region
      ensures exists i :: 0 <= i < |LEXICON_DATA| && LEXICON_DATA[i].region == [region]
    {
      var i := match region case Kolkata => 0 case Bardhaman => 6 case TarakeswarHooghly => 17;
      assert BlockRegion(i) == region;
      assert LEXICON_DATA[i].region == [BlockRegion(i)];
    }
  }

  /** The middle tier has exactly one record, Pet hoyeche, at position 10. */
  lemma OffensiveOnlyPetHoyeche()
    ensures forall i :: 0 <= i < |LEXICON_DATA| ==> (LEXICON_DATA[i].safetyLevel == OffensiveAnnoying <==> i == 10)
    ensures LEXICON_DATA[10] == PET_HOYECHE
  {
    LexiconColumns();
    LevelColumnFacts();
    assert LEXICON_DATA[10] == BARDHAMAN_BELT[4];
  }
}
