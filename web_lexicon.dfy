/**
 * The browser translator's table, `bengaliLexicon`, transcribed entry by entry
 * in the order of the object literal, with the facts the browser code relies
 * on proved for it. The Bengali fields are stored in a garbled encoding; they
 * are transcribed here as the script they encode.
 */
module WebLexicon {
  import opened Types
  import opened Text
  import opened Lists
  import opened WebTranslator

  // web-translator.js:7-15
  const LYADH: WebEntry := WebEntry("lyadh", "ল্যাদ",
      "Proactive Laziness. A lifestyle choice; enjoying doing nothing.",
      "Core concept of Kolkata urban culture, represents the art of productive relaxation",
      "Aj puro din lyadh korbo, Lyadh is a way of life in Kolkata",
      "Safe / Friendly", None)

  // web-translator.js:16-24
  const AANTEL: WebEntry := WebEntry("aantel", "আঁতেল",
      "Pseudo-intellectual. Someone acting too smart at a tea stall.",
      "Used to describe someone showing off their knowledge inappropriately",
      "Oi aantel ta ki bolche, Aantel hoye kaj nei",
      "Friendly Roast", None)

  // web-translator.js:25-33
  const CHAP: WebEntry := WebEntry("chap", "চাপ",
      "Stress/Pressure. Used when things are difficult or busy.",
      "Common expression for stress in daily life",
      "Khub chap ache, Chap niye kaj korchi",
      "Safe / Friendly", None)

  // web-translator.js:34-43
  const KELANE: WebEntry := WebEntry("kelane", "ক্যালানে",
      "Silly/Grinning. Someone smiling foolishly like a joker.",
      "Offensive term that can be hurtful when used to describe someone",
      "",
      "Do not use", Some("This term can be offensive and may lead to social conflicts. Use only for academic understanding."))

  // web-translator.js:44-52
  const FATAFATI: WebEntry := WebEntry("fatafati", "ফাটাফাটি",
      "Awesome. The ultimate compliment for anything good.",
      "Popular positive expression used widely in Bengali culture",
      "Fatafati khawa hoyeche, Eta fatafati lagche",
      "Safe / Friendly", None)

  // web-translator.js:53-61
  const POKA: WebEntry := WebEntry("poka", "পোকা",
      "Obsession. A \"buff\" (e.g., Movie-poka, Boi-poka).",
      "Endearing term for someone passionate about something",
      "Tui to cinema poka, Boi poka hoye gechi",
      "Safe / Friendly", None)

  /** The Kolkata Urban Hub block. */
  const KOLKATA_URBAN: seq<WebEntry> := [LYADH, AANTEL, CHAP, KELANE, FATAFATI, POKA]

  const KOLKATA_URBAN_KEYS: seq<string> := ["lyadh", "aantel", "chap", "kelane", "fatafati", "poka"]

  // web-translator.js:64-72
  const SITUA: WebEntry := WebEntry("situa", "সিতুয়া",
      "Damp/Chilly. Unique to this region. Used for weather or damp clothes.",
      "Regional weather term specific to Bardhaman area",
      "Aj situa lagche, Kapor gulo situa hoye geche",
      "Safe / Friendly", None)

  // web-translator.js:73-81
  const BARI_GHORA: WebEntry := WebEntry("bari-ghora", "বাড়ি-ঘোড়া",
      "Showing off. Acting like a rich landlord (Zamindar style).",
      "References the historical zamindar culture of rural Bengal",
      "Bari-ghora korche keno, Zamindar er moto bari-ghora",
      "Friendly Roast", None)

  // web-translator.js:82-90
  const POD_PAKA: WebEntry := WebEntry("pod paka", "পোদ পাকা",
      "Precocious/Spoiled. Someone acting too mature/wicked for their age.",
      "Used to describe children who act beyond their years",
      "Chele ta pod paka, Pod paka hoye geche",
      "Safe / Friendly", None)

  // web-translator.js:91-99
  const MAYYA: WebEntry := WebEntry("mayya", "মাইয়া",
      "Girl. Regional dialect for \"Meye.\"",
      "Rural dialect variation of the standard Bengali word for girl",
      "Oi mayya ta ke, Mayya gulo elo",
      "Friendly Roast", None)

  // web-translator.js:100-109
  const PET_HOYECHE: WebEntry := WebEntry("pet hoyeche", "পেট হয়েছে",
      "Pregnant. A very blunt, non-medical way to say someone is pregnant.",
      "Crude way to refer to pregnancy, can be offensive",
      "",
      "Offensive / Annoying", Some("This is a crude way to refer to pregnancy and can be offensive."))

  // web-translator.js:110-119
  const POATI: WebEntry := WebEntry("poati", "পোয়াতি",
      "Pregnant woman. Traditional/Rural term for a pregnant lady.",
      "Outdated and potentially offensive term for pregnant women",
      "",
      "Do not use", Some("This is an outdated and potentially offensive term for pregnant women."))

  // web-translator.js:120-129
  const MAG_BHATAR: WebEntry := WebEntry("mag-bhatar", "মাগ-ভাতার",
      "Wife & Husband. Very crude/low-class way to refer to a married couple.",
      "Highly disrespectful way to refer to married couples",
      "",
      "Do not use", Some("Highly disrespectful way to refer to married couples."))

  // web-translator.js:130-139
  const MAAGI: WebEntry := WebEntry("maagi", "মাগি",
      "Girl/Woman. Historically meant woman, now a heavy sexual slur.",
      "Extremely offensive sexual slur, never appropriate to use",
      "",
      "Do not use", Some("Extremely offensive sexual slur, never appropriate to use."))

  // web-translator.js:140-149
  const MAAGIBAJI: WebEntry := WebEntry("maagibaji", "মাগিবাড়ি",
      "Womanizing. Running around chasing women for sex.",
      "Vulgar term for inappropriate sexual behavior",
      "",
      "Do not use", Some("Vulgar term for inappropriate sexual behavior."))

  // web-translator.js:150-159
  const NANG_KORTA_JAWA: WebEntry := WebEntry("nang korta jawa", "নাঙ করতে যাওয়া",
      "Infidelity. Going to bed with someone other than a spouse.",
      "Crude reference to extramarital affairs",
      "",
      "Do not use", Some("Crude reference to extramarital affairs."))

  // web-translator.js:160-169
  const BAROBHATARI: WebEntry := WebEntry("barobhatari", "বারোভাতারী",
      "Slut. Highly offensive term for a woman with many partners.",
      "Extremely derogatory term for women, never acceptable",
      "",
      "Do not use", Some("Extremely derogatory term for women, never acceptable."))

  /** The Bardhaman Belt block. */
  const BARDHAMAN_BELT: seq<WebEntry> := [SITUA, BARI_GHORA, POD_PAKA, MAYYA, PET_HOYECHE, POATI, MAG_BHATAR, MAAGI, MAAGIBAJI, NANG_KORTA_JAWA, BAROBHATARI]

  const BARDHAMAN_BELT_KEYS: seq<string> := ["situa", "bari-ghora", "pod paka", "mayya", "pet hoyeche", "poati", "mag-bhatar", "maagi", "maagibaji", "nang korta jawa", "barobhatari"]

  // web-translator.js:172-180
  const TOTO_GIRI: WebEntry := WebEntry("toto-giri", "টোটো-গিরি",
      "E-Rickshaw roaming. Wasting time traveling aimlessly in a Toto.",
      "Modern term referring to the popular e-rickshaw transport",
      "Toto-giri korchi, Puro din toto-giri",
      "Safe / Friendly", None)

  // web-translator.js:181-189
  const JATRI: WebEntry := WebEntry("jatri", "যাত্রী",
      "Pilgrim. Refers to the massive Shiva temple crowds.",
      "Religious context specific to temple towns like Tarakeswar",
      "Jatri ra elo, Tarakeswar e jatri der bhir",
      "Safe / Friendly", None)

  // web-translator.js:190-198
  const NAITE_JABO: WebEntry := WebEntry("naite jabo", "নাইতে যাব",
      "Bathing. Local way of saying \"I am going to bathe.\"",
      "Regional dialect for bathing, common in rural areas",
      "Naite jabo ekhon, Naite gelo",
      "Safe / Friendly", None)

  // web-translator.js:199-208
  const GAR: WebEntry := WebEntry("gar", "গাড়",
      "Asshole. Referring to the anatomy or an annoying person.",
      "Vulgar anatomical reference used as insult",
      "",
      "Do not use", Some("Vulgar anatomical reference used as insult."))

  // web-translator.js:209-218
  const KHANKIR_CHALA: WebEntry := WebEntry("khankir chala", "খানকির ছেলে",
      "Son of a whore. Extremely offensive insult used in heated fights.",
      "Extremely vulgar insult, causes serious social offense",
      "",
      "Do not use", Some("Extremely vulgar insult, causes serious social offense."))

  // web-translator.js:219-228
  const SODANIR_POLA: WebEntry := WebEntry("sodanir pola", "সোদানির পোলা",
      "Son of a fucker. Heavy regional insult, very vulgar.",
      "Highly offensive regional curse word",
      "",
      "Do not use", Some("Highly offensive regional curse word."))

  // web-translator.js:229-238
  const KHANKI_CHUDI: WebEntry := WebEntry("khanki chudi", "খানকি চুদি",
      "Sexual Slur. Highly offensive sexual slur toward women.",
      "Extremely vulgar sexual slur, never appropriate",
      "",
      "Do not use", Some("Extremely vulgar sexual slur, never appropriate."))

  // web-translator.js:239-248
  const CHUTMARANI: WebEntry := WebEntry("chutmarani", "চুতমারানি",
      "Pussy-fucker. Highly vulgar term for a man.",
      "Extremely vulgar sexual insult",
      "",
      "Do not use", Some("Extremely vulgar sexual insult."))

  // web-translator.js:249-258
  const MAGMARANI: WebEntry := WebEntry("magmarani", "মাগমারানি",
      "Adulterer. Man chasing other men's wives.",
      "Vulgar term for inappropriate sexual behavior",
      "",
      "Do not use", Some("Vulgar term for inappropriate sexual behavior."))

  // web-translator.js:259-268
  const HONDER_POLA: WebEntry := WebEntry("honder pola", "হন্ডের পোলা",
      "Son of a bitch. Crude insult for someone's character.",
      "Offensive character insult",
      "",
      "Do not use", Some("Offensive character insult."))

  // web-translator.js:269-278
  const BARA: WebEntry := WebEntry("bara", "বাড়",
      "Penis. Used as an exclamation of extreme frustration.",
      "Vulgar anatomical reference used as curse word",
      "",
      "Do not use", Some("Vulgar anatomical reference used as curse word."))

  // web-translator.js:279-288
  const CHUDLINGPONG: WebEntry := WebEntry("chudlingpong", "চুদলিংপং",
      "Clusterfuck. Used when something goes very wrong or weirdly.",
      "Vulgar expression for chaotic situations",
      "",
      "Do not use", Some("Vulgar expression for chaotic situations."))

  // web-translator.js:289-298
  const BABA_CHODA: WebEntry := WebEntry("baba choda", "বাবা চোদা",
      "Father-fucker. One of the heaviest, most offensive slurs.",
      "Extremely offensive familial insult, causes severe social consequences",
      "",
      "Do not use", Some("Extremely offensive familial insult, causes severe social consequences."))

  // web-translator.js:299-308
  const BOKA_CHODA: WebEntry := WebEntry("boka choda", "বোকা চোদা",
      "Stupid fucker. Someone who is foolish and useless.",
      "Vulgar insult combining stupidity with sexual vulgarity",
      "",
      "Do not use", Some("Vulgar insult combining stupidity with sexual vulgarity."))

  // web-translator.js:309-318
  const LAYAURA: WebEntry := WebEntry("layaura", "লাউড়া",
      "Frustration. Said when a task fails and you are angry.",
      "Vulgar expression of frustration",
      "",
      "Do not use", Some("Vulgar expression of frustration."))

  /** The Tarakeswar and Hooghly corridor block. */
  const TARAKESWAR_CORRIDOR: seq<WebEntry> := [TOTO_GIRI, JATRI, NAITE_JABO, GAR, KHANKIR_CHALA, SODANIR_POLA, KHANKI_CHUDI, CHUTMARANI, MAGMARANI, HONDER_POLA, BARA, CHUDLINGPONG, BABA_CHODA, BOKA_CHODA, LAYAURA]

  const TARAKESWAR_CORRIDOR_KEYS: seq<string> := ["toto-giri", "jatri", "naite jabo", "gar", "khankir chala", "sodanir pola", "khanki chudi", "chutmarani", "magmarani", "honder pola", "bara", "chudlingpong", "baba choda", "boka choda", "layaura"]

  // web-translator.js:321-329
  const ADDA: WebEntry := WebEntry("adda", "আড্ডা",
      "Informal chatting/hanging out. The art of casual conversation.",
      "Quintessential Bengali social activity, especially popular in Kolkata",
      "Aj adda marte jabo, Adda is the soul of Bengali culture",
      "Safe / Friendly", None)

  // web-translator.js:330-338
  const JHOL: WebEntry := WebEntry("jhol", "ঝোল",
      "Mess/Confusion. A complicated or messy situation.",
      "Common term used to describe chaotic situations",
      "Eto jhol keno, Jhol ta solve koro",
      "Safe / Friendly", None)

  // web-translator.js:339-347
  const DADA: WebEntry := WebEntry("dada", "দাদা",
      "Elder brother/Respectful address for men. Term of respect and familiarity.",
      "Universal Bengali term of respect, essential for social interaction",
      "Dada, ki khobor, Dada ke jiggesh koro",
      "Safe / Friendly", None)

  // web-translator.js:348-356
  const MISHTI: WebEntry := WebEntry("mishti", "মিষ্টি",
      "Sweet/Cute. Used to describe something pleasant or endearing.",
      "Popular term especially in Bardhaman, known for sweets like Mihidana",
      "Mishti meye, Mishti kotha",
      "Safe / Friendly", None)

  // web-translator.js:357-365
  const BHALO: WebEntry := WebEntry("bhalo", "ভালো",
      "Good/Nice. General positive expression.",
      "Universal Bengali word, foundation of polite conversation",
      "Bhalo lagche, Bhalo kotha",
      "Safe / Friendly", None)

  /** The additional common terms block. */
  const COMMON_TERMS: seq<WebEntry> := [ADDA, JHOL, DADA, MISHTI, BHALO]

  const COMMON_TERMS_KEYS: seq<string> := ["adda", "jhol", "dada", "mishti", "bhalo"]

  /** The whole table: the four blocks in the order of the object literal. */
  const BENGALI_LEXICON: seq<WebEntry> := KOLKATA_URBAN + BARDHAMAN_BELT + TARAKESWAR_CORRIDOR + COMMON_TERMS

  /** The keys of the table, in order. */
  const BENGALI_KEYS: seq<string> := KOLKATA_URBAN_KEYS + BARDHAMAN_BELT_KEYS + TARAKESWAR_CORRIDOR_KEYS + COMMON_TERMS_KEYS

  function Keys(table: seq<WebEntry>): (ks: seq<string>)
    ensures |ks| == |table| && forall i :: 0 <= i < |table| ==> ks[i] == table[i].key
  {
    seq(|table|, i requires 0 <= i < |table| => table[i].key)
  }

  lemma KeysAppend(a: seq<WebEntry>, b: seq<WebEntry>)
    ensures Keys(a + b) == Keys(a) + Keys(b)
  {
    assert forall i :: 0 <= i < |a + b| ==> Keys(a + b)[i] == (Keys(a) + Keys(b))[i];
  }

  /** A key made of lower-case ASCII letters, spaces and hyphens, starting and ending with a letter. */
  predicate PlainKey(k: string) {
    && k != []
    && 'a' <= k[0] <= 'z'
    && 'a' <= k[|k| - 1] <= 'z'
    && forall c :: c in k ==> ('a' <= c <= 'z' || c == ' ' || c == '-')
  }

  /** A key lacking the "y" or the "i" of "bhaiya". */
  predicate LacksBhaiyaLetter(k: string) {
    'y' !in k || 'i' !in k
  }

  // Each block: its key column, every key in it plain and lacking a letter of "bhaiya".

  lemma KolkataUrbanKeys()
    ensures Keys(KOLKATA_URBAN) == KOLKATA_URBAN_KEYS
  {
  }

  lemma KolkataUrbanKeysPlain()
    ensures forall k :: k in KOLKATA_URBAN_KEYS ==> PlainKey(k)
  {
  }

  lemma KolkataUrbanKeysLackLetter()
    ensures forall k :: k in KOLKATA_URBAN_KEYS ==> LacksBhaiyaLetter(k)
  {
  }

  lemma BardhamanBeltKeys()
    ensures Keys(BARDHAMAN_BELT) == BARDHAMAN_BELT_KEYS
  {
  }

  lemma BardhamanBeltKeysPlain()
    ensures forall k :: k in BARDHAMAN_BELT_KEYS ==> PlainKey(k)
  {
  }

  lemma BardhamanBeltKeysLackLetter()
    ensures forall k :: k in BARDHAMAN_BELT_KEYS ==> LacksBhaiyaLetter(k)
  {
  }

  lemma TarakeswarCorridorKeys()
    ensures Keys(TARAKESWAR_CORRIDOR) == TARAKESWAR_CORRIDOR_KEYS
  {
  }

  lemma TarakeswarCorridorKeysPlain()
    ensures forall k :: k in TARAKESWAR_CORRIDOR_KEYS ==> PlainKey(k)
  {
  }

  lemma TarakeswarCorridorKeysLackLetter()
    ensures forall k :: k in TARAKESWAR_CORRIDOR_KEYS ==> LacksBhaiyaLetter(k)
  {
  }

  lemma CommonTermsKeys()
    ensures Keys(COMMON_TERMS) == COMMON_TERMS_KEYS
  {
  }

  lemma CommonTermsKeysPlain()
    ensures forall k :: k in COMMON_TERMS_KEYS ==> PlainKey(k)
  {
  }

  lemma CommonTermsKeysLackLetter()
    ensures forall k :: k in COMMON_TERMS_KEYS ==> LacksBhaiyaLetter(k)
  {
  }

  // The key columns: distinct within each block and disjoint across blocks.

  lemma BlockKeysDistinct()
    ensures Distinct(KOLKATA_URBAN_KEYS) && Distinct(BARDHAMAN_BELT_KEYS)
    ensures Distinct(TARAKESWAR_CORRIDOR_KEYS) && Distinct(COMMON_TERMS_KEYS)
  {
  }

  lemma UrbanKeysDisjoint()
    ensures Disjoint(KOLKATA_URBAN_KEYS, BARDHAMAN_BELT_KEYS)
    ensures Disjoint(KOLKATA_URBAN_KEYS, TARAKESWAR_CORRIDOR_KEYS)
    ensures Disjoint(KOLKATA_URBAN_KEYS, COMMON_TERMS_KEYS)
  {
  }

  lemma BeltKeysDisjoint()
    ensures Disjoint(BARDHAMAN_BELT_KEYS, TARAKESWAR_CORRIDOR_KEYS)
    ensures Disjoint(BARDHAMAN_BELT_KEYS, COMMON_TERMS_KEYS)
  {
  }

  lemma CorridorKeysDisjoint()
    ensures Disjoint(TARAKESWAR_CORRIDOR_KEYS, COMMON_TERMS_KEYS)
  {
  }

  /** The listed keys are pairwise distinct, plain, and each lacks a letter of "bhaiya". */
  lemma KeyListFacts()
    ensures Distinct(BENGALI_KEYS)
    ensures forall k :: k in BENGALI_KEYS ==> PlainKey(k) && LacksBhaiyaLetter(k)
  {
    BlockKeysDistinct();
    UrbanKeysDisjoint();
    BeltKeysDisjoint();
    CorridorKeysDisjoint();
    DistinctAppend(KOLKATA_URBAN_KEYS, BARDHAMAN_BELT_KEYS);
    DisjointAppend(KOLKATA_URBAN_KEYS, BARDHAMAN_BELT_KEYS, TARAKESWAR_CORRIDOR_KEYS);
    DistinctAppend(KOLKATA_URBAN_KEYS + BARDHAMAN_BELT_KEYS, TARAKESWAR_CORRIDOR_KEYS);
    DisjointAppend(KOLKATA_URBAN_KEYS, BARDHAMAN_BELT_KEYS, COMMON_TERMS_KEYS);
    DisjointAppend(KOLKATA_URBAN_KEYS + BARDHAMAN_BELT_KEYS, TARAKESWAR_CORRIDOR_KEYS, COMMON_TERMS_KEYS);
    DistinctAppend(KOLKATA_URBAN_KEYS + BARDHAMAN_BELT_KEYS + TARAKESWAR_CORRIDOR_KEYS, COMMON_TERMS_KEYS);
    KolkataUrbanKeysPlain();
    KolkataUrbanKeysLackLetter();
    BardhamanBeltKeysPlain();
    BardhamanBeltKeysLackLetter();
    TarakeswarCorridorKeysPlain();
    TarakeswarCorridorKeysLackLetter();
    CommonTermsKeysPlain();
    CommonTermsKeysLackLetter();
  }

  /** The table's keys are the keys listed, in order. */
  lemma KeysColumn()
    ensures Keys(BENGALI_LEXICON) == BENGALI_KEYS
  {
    KolkataUrbanKeys();
    BardhamanBeltKeys();
    TarakeswarCorridorKeys();
    CommonTermsKeys();
    KeysAppend(KOLKATA_URBAN, BARDHAMAN_BELT);
    KeysAppend(KOLKATA_URBAN + BARDHAMAN_BELT, TARAKESWAR_CORRIDOR);
    KeysAppend(KOLKATA_URBAN + BARDHAMAN_BELT + TARAKESWAR_CORRIDOR, COMMON_TERMS);
  }

  /** A plain key is its own cleaned form and is not an array index. */
  lemma PlainKeyFacts(k: string)
    requires PlainKey(k)
    ensures CleanTerm(k) == k
    ensures !IsArrayIndex(k)
  {
    assert forall i :: 0 <= i < |k| ==> k[i] in k;
    LowerOfLowercase(k);
    TrimOfUnpadded(k);
  }

  /** A string lacking one of the characters of `part` does not contain `part`. */
  lemma {:induction false} MissingCharNotContained(s: string, part: string, c: char)
    requires c in part && c !in s
    ensures !Contains(s, part)
    decreases |s|
  {
    var i :| 0 <= i < |part| && part[i] == c;
    if |part| <= |s| {
      assert s[..|part|][i] != part[i];
    }
    if s != [] {
      MissingCharNotContained(s[1..], part, c);
    }
  }

  /**
   * Any table whose key column is distinct, plain and free of a letter of
   * "bhaiya" has distinct keys, lists them in insertion order, and meets the
   * conditions under which `GetRandomTerm` finds the entry it picked.
   */
  lemma PlainColumnFacts(table: seq<WebEntry>)
    requires Distinct(Keys(table))
    requires forall k :: k in Keys(table) ==> PlainKey(k) && LacksBhaiyaLetter(k)
    ensures KeysDistinct(table)
    ensures InsertionOrdered(table)
    ensures forall i :: 0 <= i < |table| ==>
      CleanTerm(table[i].key) == table[i].key && !Contains(table[i].key, BHAIYA)
  {
    var ks := Keys(table);
    forall i | 0 <= i < |table|
      ensures CleanTerm(table[i].key) == table[i].key
      ensures !Contains(table[i].key, BHAIYA)
      ensures !IsArrayIndex(table[i].key)
    {
      var k := ks[i];
      assert k in ks;
      PlainKeyFacts(k);
      if 'y' !in k {
        MissingCharNotContained(k, BHAIYA, 'y');
      } else {
        MissingCharNotContained(k, BHAIYA, 'i');
      }
    }
  }

  /** The shipped keys are distinct, already clean, free of "bhaiya" and never array indices. */
  lemma ShippedKeys()
    ensures KeysDistinct(BENGALI_LEXICON)
    ensures InsertionOrdered(BENGALI_LEXICON)
    ensures forall i :: 0 <= i < |BENGALI_LEXICON| ==>
      CleanTerm(BENGALI_LEXICON[i].key) == BENGALI_LEXICON[i].key && !Contains(BENGALI_LEXICON[i].key, BHAIYA)
  {
    KeysColumn();
    KeyListFacts();
    PlainColumnFacts(BENGALI_LEXICON);
  }

  /** The browser's random term is always a found entry of the shipped table, shown in the default region. */
  lemma ShippedRandomTermFound(pick: nat)
    ensures var e := BENGALI_LEXICON[pick % |BENGALI_LEXICON|];
      GetRandomTerm(BENGALI_LEXICON, pick) == Some(ResponseWith(e, GREETING, e.key))
  {
    ShippedKeys();
    RandomTermFound(BENGALI_LEXICON, pick);
  }
}
