/**
 * String helpers with the JavaScript semantics the translator relies on:
 * `trim`, ASCII `toLowerCase` / `toUpperCase`, `includes`, `join`,
 * `split(/\s+/)` and the global, case-insensitive removal of a literal word.
 */
module Text {

  /** The characters `String.prototype.trim` and the regex class `\s` treat as white space. */
  predicate IsSpace(c: char) {
    || c == ' ' || c == '\t' || c == '\n' || c == '\r' || c == '\U{000B}' || c == '\U{000C}'
    || c == '\U{00A0}' || c == '\U{1680}' || ('\U{2000}' <= c <= '\U{200A}')
    || c == '\U{2028}' || c == '\U{2029}' || c == '\U{202F}' || c == '\U{205F}'
    || c == '\U{3000}' || c == '\U{FEFF}'
  }

  /** Drops the leading white space. */
  function TrimStart(s: string): (r: string)
    ensures |r| <= |s| && r == s[|s| - |r|..]
    ensures r == [] || !IsSpace(r[0])
    ensures forall i :: 0 <= i < |s| - |r| ==> IsSpace(s[i])
  {
    if s != [] && IsSpace(s[0]) then TrimStart(s[1..]) else s
  }

  /** Drops the trailing white space. */
  function TrimEnd(s: string): (r: string)
    ensures |r| <= |s| && r == s[..|r|]
    ensures r == [] || !IsSpace(r[|r| - 1])
    ensures forall i :: |r| <= i < |s| ==> IsSpace(s[i])
  {
    if s != [] && IsSpace(s[|s| - 1]) then TrimEnd(s[..|s| - 1]) else s
  }

  /** `String.prototype.trim`. */
  function Trim(s: string): string {
    TrimEnd(TrimStart(s))
  }

  /** JavaScript's `s.trim() === ''`. */
  predicate IsBlank(s: string) {
    Trim(s) == ""
  }

  lemma {:induction false} TrimStartAllSpace(s: string)
    requires forall i :: 0 <= i < |s| ==> IsSpace(s[i])
    ensures TrimStart(s) == ""
  {
    if s != [] {
      TrimStartAllSpace(s[1..]);
    }
  }

  /** A string is blank exactly when every character of it is white space. */
  lemma BlankIff(s: string)
    ensures IsBlank(s) <==> forall i :: 0 <= i < |s| ==> IsSpace(s[i])
  {
    var t := TrimStart(s);
    if forall i :: 0 <= i < |s| ==> IsSpace(s[i]) {
      TrimStartAllSpace(s);
    } else {
      assert t != [];
      assert !IsSpace(t[0]);
      assert TrimEnd(t) != [];
    }
  }

  /** Trimming leaves alone a string that neither starts nor ends with white space. */
  lemma TrimOfUnpadded(s: string)
    requires s != [] && !IsSpace(s[0]) && !IsSpace(s[|s| - 1])
    ensures Trim(s) == s
  {
    assert TrimStart(s) == s;
  }

  /** Trimming is idempotent. */
  lemma TrimTwice(s: string)
    ensures Trim(Trim(s)) == Trim(s)
  {
    var t := Trim(s);
    if t != [] {
      var u := TrimStart(s);
      assert t == u[..|t|];
      assert t[0] == u[0];
      TrimOfUnpadded(t);
    }
  }

  /** Trailing white space after a word that ends in a visible character is all that `TrimEnd` touches. */
  lemma {:induction false} TrimEndAppend(u: string, x: string)
    requires u != [] && !IsSpace(u[|u| - 1])
    ensures TrimEnd(u + x) == u + TrimEnd(x)
    decreases |x|
  {
    if x == [] {
      assert u + x == u;
    } else if IsSpace(x[|x| - 1]) {
      assert (u + x)[..|u + x| - 1] == u + x[..|x| - 1];
      TrimEndAppend(u, x[..|x| - 1]);
    } else {
      assert (u + x)[|u + x| - 1] == x[|x| - 1];
    }
  }

  /** ASCII `toLowerCase` of one character; every other character is left as it is. */
  function LowerChar(c: char): char {
    if 'A' <= c <= 'Z' then (c as int + 32) as char else c
  }

  /** ASCII `toUpperCase` of one character. */
  function UpperChar(c: char): char {
    if 'a' <= c <= 'z' then (c as int - 32) as char else c
  }

  /** `toLowerCase`, character by character. */
  function Lower(s: string): (r: string)
    ensures |r| == |s| && forall i :: 0 <= i < |s| ==> r[i] == LowerChar(s[i])
  {
    seq(|s|, i requires 0 <= i < |s| => LowerChar(s[i]))
  }

  /** `toUpperCase`, character by character. */
  function Upper(s: string): (r: string)
    ensures |r| == |s| && forall i :: 0 <= i < |s| ==> r[i] == UpperChar(s[i])
  {
    seq(|s|, i requires 0 <= i < |s| => UpperChar(s[i]))
  }

  /** Lower-casing a lower-cased string changes nothing. */
  lemma LowerTwice(s: string)
    ensures Lower(Lower(s)) == Lower(s)
  {
  }

  /** Upper-casing first does not change the lower-cased form (ASCII letters). */
  lemma LowerOfUpper(s: string)
    ensures Lower(Upper(s)) == Lower(s)
  {
  }

  /** Case mapping keeps white space white and everything else visible. */
  lemma CaseKeepsSpace(c: char)
    ensures IsSpace(LowerChar(c)) <==> IsSpace(c)
    ensures IsSpace(UpperChar(c)) <==> IsSpace(c)
  {
  }

  /** Lower-casing commutes with slicing. */
  lemma LowerOfSlice(s: string, i: nat, j: nat)
    requires i <= j <= |s|
    ensures Lower(s[i..j]) == Lower(s)[i..j]
  {
  }

  lemma LowerAppend(a: string, b: string)
    ensures Lower(a + b) == Lower(a) + Lower(b)
  {
  }

  predicate StartsWith(s: string, prefix: string) {
    |prefix| <= |s| && s[..|prefix|] == prefix
  }

  lemma PrefixOfAppend(a: string, b: string)
    ensures StartsWith(a + b, a)
  {
    assert (a + b)[..|a|] == a;
  }

  predicate EndsWith(s: string, suffix: string) {
    |suffix| <= |s| && s[|s| - |suffix|..] == suffix
  }

  lemma SuffixOfAppend(a: string, b: string)
    ensures EndsWith(a + b, b)
  {
    assert (a + b)[|a|..] == b;
  }

  lemma StartsWithSelf(s: string)
    ensures StartsWith(s, s)
  {
  }

  /** A string contains its own prefix. */
  lemma ContainsOwnPrefix(a: string, b: string)
    ensures Contains(a + b, a)
  {
    PrefixOfAppend(a, b);
  }

  /** A suffix that ends visibly makes the whole string end visibly. */
  lemma EndsVisiblyViaSuffix(s: string, suffix: string)
    requires EndsWith(s, suffix) && EndsVisibly(suffix)
    ensures EndsVisibly(s)
  {
    assert s[|s| - 1] == s[|s| - |suffix|..][|suffix| - 1];
  }

  lemma StartsWithTransitive(s: string, p: string, q: string)
    requires StartsWith(s, p) && StartsWith(p, q)
    ensures StartsWith(s, q)
  {
    assert s[..|q|] == s[..|p|][..|q|];
  }

  /** A prefix's first character is the string's first character. */
  lemma StartsWithFirst(s: string, p: string)
    requires StartsWith(s, p) && p != []
    ensures s[0] == p[0]
  {
    assert s[..|p|][0] == s[0];
  }

  /** Trimming a string that starts and ends visibly changes nothing. */
  lemma TrimOfVisible(s: string, p: string)
    requires StartsWith(s, p) && p != [] && !IsSpace(p[0]) && EndsVisibly(s)
    ensures Trim(s) == s
  {
    StartsWithFirst(s, p);
    TrimOfUnpadded(s);
  }

  /** The last character is not white space, so `trimEnd` keeps the string. */
  predicate EndsVisibly(s: string) {
    s != [] && !IsSpace(s[|s| - 1])
  }

  /** `s.includes(part)`, scanning from the left. */
  function Contains(s: string, part: string): bool
    decreases |s|
  {
    StartsWith(s, part) || (s != [] && Contains(s[1..], part))
  }

  /** `part` occurs in `s` starting at index `i`. */
  predicate OccursAt(s: string, part: string, i: nat) {
    i + |part| <= |s| && s[i..i + |part|] == part
  }

  /** An occurrence at any position makes `Contains` true. */
  lemma {:induction false} ContainsFromOccurrence(s: string, part: string, i: nat)
    requires OccursAt(s, part, i)
    ensures Contains(s, part)
    decreases i
  {
    if i > 0 {
      assert OccursAt(s[1..], part, i - 1) by {
        assert s[1..][i - 1..i - 1 + |part|] == s[i..i + |part|];
      }
      ContainsFromOccurrence(s[1..], part, i - 1);
    }
  }

  /** `Contains` holds only where there is an occurrence. */
  lemma {:induction false} OccurrenceFromContains(s: string, part: string) returns (i: nat)
    requires Contains(s, part)
    ensures OccursAt(s, part, i)
    decreases |s|
  {
    if StartsWith(s, part) {
      i := 0;
    } else {
      var j := OccurrenceFromContains(s[1..], part);
      assert s[1..][j..j + |part|] == s[j + 1..j + 1 + |part|];
      i := j + 1;
    }
  }

  /** `Contains` holds exactly when `part` occurs at some position of `s`. */
  lemma ContainsIff(s: string, part: string)
    ensures Contains(s, part) <==> exists i: nat :: OccursAt(s, part, i)
  {
    if Contains(s, part) {
      var i := OccurrenceFromContains(s, part);
    }
    if exists i: nat :: OccursAt(s, part, i) {
      var i: nat :| OccursAt(s, part, i);
      ContainsFromOccurrence(s, part, i);
    }
  }

  /** A string contains every infix of itself. */
  lemma ContainsInfix(a: string, b: string, c: string)
    ensures Contains(a + b + c, b)
  {
    var s := a + b + c;
    assert s[|a|..|a| + |b|] == b;
    ContainsFromOccurrence(s, b, |a|);
  }

  /** `a + b + c + d` starts with `a` and contains `c`. */
  lemma FrameOf(a: string, b: string, c: string, d: string)
    ensures StartsWith(a + b + c + d, a)
    ensures Contains(a + b + c + d, c)
  {
    ContainsInfix(a + b, c, d);
    PrefixOfAppend(a, b);
    PrefixOfAppend(a + b, c + d);
    assert a + b + c + d == (a + b) + (c + d);
    StartsWithTransitive(a + b + c + d, a + b, a);
  }

  lemma ContainsSelf(s: string)
    ensures Contains(s, s)
  {
    assert StartsWith(s, s);
  }

  /** What a prefix contains, the whole string contains. */
  lemma ContainsViaPrefix(s: string, p: string, part: string)
    requires StartsWith(s, p) && Contains(p, part)
    ensures Contains(s, part)
  {
    var i := OccurrenceFromContains(p, part);
    assert s[i..i + |part|] == s[..|p|][i..i + |part|];
    ContainsFromOccurrence(s, part, i);
  }

  /** Containment survives putting text before and after. */
  lemma ContainsInContext(s: string, part: string, before: string, after: string)
    requires Contains(s, part)
    ensures Contains(before + s + after, part)
  {
    var i := OccurrenceFromContains(s, part);
    var t := before + s + after;
    assert t[|before| + i..|before| + i + |part|] == s[i..i + |part|];
    ContainsFromOccurrence(t, part, |before| + i);
  }

  /** Containment is transitive. */
  lemma ContainsTransitive(s: string, mid: string, part: string)
    requires Contains(s, mid) && Contains(mid, part)
    ensures Contains(s, part)
  {
    var i := OccurrenceFromContains(s, mid);
    var j := OccurrenceFromContains(mid, part);
    forall t | 0 <= t < |part|
      ensures s[i + j + t] == part[t]
    {
      assert mid[j..j + |part|][t] == mid[j + t];
      assert s[i..i + |mid|][j + t] == s[i + j + t];
    }
    assert s[i + j..i + j + |part|] == part;
    ContainsFromOccurrence(s, part, i + j);
  }

  /** The parts written one after another: `join('')`, or a string grown by successive `+=`. */
  function Concat(parts: seq<string>): string {
    if parts == [] then "" else Concat(parts[..|parts| - 1]) + parts[|parts| - 1]
  }

  lemma {:induction false} ConcatAppend(a: seq<string>, b: seq<string>)
    ensures Concat(a + b) == Concat(a) + Concat(b)
    decreases |b|
  {
    if b != [] {
      var b' := b[..|b| - 1];
      assert (a + b)[..|a + b| - 1] == a + b';
      assert (a + b)[|a + b| - 1] == b[|b| - 1];
      ConcatAppend(a, b');
    } else {
      assert a + b == a;
    }
  }

  /** Every part occurs in the concatenation. */
  lemma {:induction false} ConcatContains(parts: seq<string>, k: nat)
    requires k < |parts|
    ensures Contains(Concat(parts), parts[k])
    decreases |parts|
  {
    var init := parts[..|parts| - 1];
    var last := parts[|parts| - 1];
    if k == |parts| - 1 {
      ContainsInfix(Concat(init), last, "");
      assert Concat(init) + last + "" == Concat(parts);
    } else {
      assert init[k] == parts[k];
      ConcatContains(init, k);
      ContainsInContext(Concat(init), parts[k], "", last);
      assert "" + Concat(init) + last == Concat(parts);
    }
  }

  /** `Array.prototype.join`. */
  function Join(parts: seq<string>, sep: string): string {
    if |parts| == 0 then ""
    else if |parts| == 1 then parts[0]
    else parts[0] + sep + Join(parts[1..], sep)
  }

  /** Every joined part occurs in the joined string. */
  lemma {:induction false} JoinContainsPart(parts: seq<string>, sep: string, k: nat)
    requires k < |parts|
    ensures Contains(Join(parts, sep), parts[k])
  {
    if |parts| == 1 {
      ContainsInfix("", parts[0], "");
      assert "" + parts[0] + "" == parts[0];
    } else if k == 0 {
      ContainsInfix("", parts[0], sep + Join(parts[1..], sep));
      assert "" + parts[0] + (sep + Join(parts[1..], sep)) == Join(parts, sep);
    } else {
      JoinContainsPart(parts[1..], sep, k - 1);
      ContainsInContext(Join(parts[1..], sep), parts[k], parts[0] + sep, "");
      assert parts[0] + sep + Join(parts[1..], sep) + "" == Join(parts, sep);
    }
  }

  /**
   * `s.replace(/<word>/gi, '')` for a lower-case literal `word`: every
   * occurrence, matched without regard to ASCII case, is removed in one
   * left-to-right pass without rescanning what the removal brings together.
   */
  function RemoveAllIgnoringCase(s: string, word: string): (r: string)
    requires word != []
    ensures |r| <= |s|
    decreases |s|
  {
    if |s| < |word| then s
    else if Lower(s[..|word|]) == word then RemoveAllIgnoringCase(s[|word|..], word)
    else [s[0]] + RemoveAllIgnoringCase(s[1..], word)
  }

  /** A string without the word (in any case) loses nothing. */
  lemma {:induction false} RemoveAbsent(s: string, word: string)
    requires word != [] && !Contains(Lower(s), word)
    ensures RemoveAllIgnoringCase(s, word) == s
    decreases |s|
  {
    if |s| >= |word| {
      LowerOfSlice(s, 0, |word|);
      assert Lower(s)[..|word|] != word;
      LowerOfSlice(s, 1, |s|);
      assert Lower(s)[1..] == Lower(s[1..]);
      RemoveAbsent(s[1..], word);
    }
  }

  /** Index of the first white-space character, or `|s|` when there is none. */
  function FirstSpace(s: string): (i: nat)
    ensures i <= |s| && (i < |s| ==> IsSpace(s[i]))
    ensures forall j :: 0 <= j < i ==> !IsSpace(s[j])
  {
    if s == [] || IsSpace(s[0]) then 0 else 1 + FirstSpace(s[1..])
  }

  predicate SpaceFree(s: string) {
    forall i :: 0 <= i < |s| ==> !IsSpace(s[i])
  }

  /**
   * `s.split(/\s+/)`: the pieces between maximal runs of white space.
   * A leading (trailing) run yields an empty first (last) piece and the empty
   * string yields `[""]`, as in JavaScript.
   */
  function SplitOnSpaces(s: string): (parts: seq<string>)
    ensures |parts| >= 1
    ensures forall k :: 0 <= k < |parts| ==> SpaceFree(parts[k])
    decreases |s|
  {
    var i := FirstSpace(s);
    if i == |s| then [s]
    else
      var rest := TrimStart(s[i..]);
      assert |rest| < |s[i..]| by {
        if |rest| == |s[i..]| {
          assert rest == s[i..];
        }
      }
      [s[..i]] + SplitOnSpaces(rest)
  }

  /** Splitting a string that starts with a space-free word. */
  lemma SplitAfterWord(w: string, x: string)
    requires SpaceFree(w)
    requires x == [] || IsSpace(x[0])
    ensures SplitOnSpaces(w + x) == [w] + SplitOnSpaces(x)[1..]
  {
    var s := w + x;
    assert forall j :: 0 <= j < |w| ==> s[j] == w[j];
    if x == [] {
      assert s == w;
      assert FirstSpace(s) == |s|;
    } else {
      assert s[|w|] == x[0];
      assert FirstSpace(s) == |w|;
      assert FirstSpace(x) == 0;
      assert s[..|w|] == w && s[|w|..] == x;
    }
  }

  /** The pieces of a trimmed, non-blank string are non-empty words. */
  lemma {:induction false} SplitTrimmedPiecesNonEmpty(s: string)
    requires s != [] && !IsSpace(s[0]) && !IsSpace(s[|s| - 1])
    ensures forall k :: 0 <= k < |SplitOnSpaces(s)| ==> SplitOnSpaces(s)[k] != []
    decreases |s|
  {
    var i := FirstSpace(s);
    if i < |s| {
      var rest := TrimStart(s[i..]);
      assert rest != [];
      assert rest[|rest| - 1] == s[|s| - 1];
      SplitTrimmedPiecesNonEmpty(rest);
    }
  }

  /** A non-empty run of visible characters, as `split(/\s+/)` yields from a trimmed line. */
  predicate IsWord(w: string) {
    w != [] && SpaceFree(w)
  }

  /** Every character is white space. */
  predicate AllSpace(s: string) {
    forall i :: 0 <= i < |s| ==> IsSpace(s[i])
  }

  /** A white-space prefix is all that `TrimStart` removes before a visible character. */
  lemma {:induction false} TrimStartAfterSpaces(lead: string, x: string)
    requires AllSpace(lead)
    requires x == [] || !IsSpace(x[0])
    ensures TrimStart(lead + x) == x
    decreases |lead|
  {
    if lead == [] {
      assert lead + x == x;
    } else {
      assert (lead + x)[1..] == lead[1..] + x;
      TrimStartAfterSpaces(lead[1..], x);
    }
  }

  /** After a run of white space the split yields an empty piece, then the pieces of the rest. */
  lemma SplitAfterGap(gap: string, x: string)
    requires gap != [] && AllSpace(gap)
    requires x != [] && !IsSpace(x[0])
    ensures SplitOnSpaces(gap + x) == [""] + SplitOnSpaces(x)
  {
    var s := gap + x;
    assert IsSpace(s[0]);
    assert FirstSpace(s) == 0;
    assert s[0..] == s;
    assert s[..0] == "";
    TrimStartAfterSpaces(gap, x);
  }

  /**
   * Words with a run of white space between each two: `ws[0] + gaps[0] + ws[1]
   * + ... + ws[|ws| - 1]`.
   */
  function Spaced(ws: seq<string>, gaps: seq<string>): string
    requires |gaps| + 1 == |ws|
    decreases |ws|
  {
    if |ws| == 1 then ws[0] else ws[0] + gaps[0] + Spaced(ws[1..], gaps[1..])
  }

  /** The words are words and the gaps non-empty runs of white space. */
  predicate WellSpaced(ws: seq<string>, gaps: seq<string>) {
    && |gaps| + 1 == |ws|
    && (forall k :: 0 <= k < |ws| ==> IsWord(ws[k]))
    && (forall k :: 0 <= k < |gaps| ==> gaps[k] != [] && AllSpace(gaps[k]))
  }

  /** Spaced words start with the first word's first character and end with the last word's last. */
  lemma {:induction false} SpacedEnds(ws: seq<string>, gaps: seq<string>)
    requires WellSpaced(ws, gaps)
    ensures var s := Spaced(ws, gaps);
      s != [] && s[0] == ws[0][0] && s[|s| - 1] == ws[|ws| - 1][|ws[|ws| - 1]| - 1]
    decreases |ws|
  {
    if |ws| > 1 {
      assert WellSpaced(ws[1..], gaps[1..]);
      SpacedEnds(ws[1..], gaps[1..]);
      var rest := Spaced(ws[1..], gaps[1..]);
      var s := Spaced(ws, gaps);
      assert s == ws[0] + gaps[0] + rest;
      assert s[|s| - 1] == rest[|rest| - 1];
    }
  }

  /** A word, a run of white space and a string starting with a visible character split apart at that run. */
  lemma SplitWordGap(w: string, gap: string, rest: string)
    requires IsWord(w) && gap != [] && AllSpace(gap)
    requires rest != [] && !IsSpace(rest[0])
    ensures SplitOnSpaces(w + gap + rest) == [w] + SplitOnSpaces(rest)
  {
    var x := gap + rest;
    assert w + gap + rest == w + x;
    assert x[0] == gap[0];
    SplitGapTail(gap, rest);
    SplitAfterWord(w, x);
  }

  /** The pieces after a leading run of white space are the pieces of what follows it. */
  lemma SplitGapTail(gap: string, rest: string)
    requires gap != [] && AllSpace(gap)
    requires rest != [] && !IsSpace(rest[0])
    ensures SplitOnSpaces(gap + rest)[1..] == SplitOnSpaces(rest)
  {
    SplitAfterGap(gap, rest);
    assert ([""] + SplitOnSpaces(rest))[1..] == SplitOnSpaces(rest);
  }

  /** Splitting words separated by white-space runs gives the words back. */
  lemma {:induction false} SplitSpacedWords(ws: seq<string>, gaps: seq<string>)
    requires WellSpaced(ws, gaps)
    ensures SplitOnSpaces(Spaced(ws, gaps)) == ws
    decreases |ws|
  {
    if |ws| == 1 {
      SplitAfterWord(ws[0], "");
      assert ws[0] + "" == ws[0];
    } else {
      assert WellSpaced(ws[1..], gaps[1..]);
      SplitSpacedWords(ws[1..], gaps[1..]);
      SpacedEnds(ws[1..], gaps[1..]);
      SplitWordGap(ws[0], gaps[0], Spaced(ws[1..], gaps[1..]));
      assert ws == [ws[0]] + ws[1..];
    }
  }

  /** White space around a string that starts and ends visibly is exactly what `trim` removes. */
  lemma TrimPadded(lead: string, x: string, trail: string)
    requires AllSpace(lead) && AllSpace(trail)
    requires x != [] && !IsSpace(x[0]) && !IsSpace(x[|x| - 1])
    ensures Trim(lead + x + trail) == x
  {
    assert lead + x + trail == lead + (x + trail);
    TrimStartAfterSpaces(lead, x + trail);
    TrimEndAppend(x, trail);
    assert TrimEnd(trail) == [];
    assert x + [] == x;
  }

  /**
   * `line.trim().split(/\s+/)` on words separated by white-space runs, with
   * white space before and after, gives the words back; such a line is not empty.
   */
  lemma SplitPaddedLine(lead: string, ws: seq<string>, gaps: seq<string>, trail: string)
    requires WellSpaced(ws, gaps) && AllSpace(lead) && AllSpace(trail)
    ensures lead + Spaced(ws, gaps) + trail != ""
    ensures SplitOnSpaces(Trim(lead + Spaced(ws, gaps) + trail)) == ws
  {
    SpacedEnds(ws, gaps);
    var s := Spaced(ws, gaps);
    assert !IsSpace(s[0]) && !IsSpace(s[|s| - 1]);
    TrimPadded(lead, s, trail);
    SplitSpacedWords(ws, gaps);
    assert |lead + s + trail| >= |s|;
  }

  /** Upper-casing keeps a word a word. */
  lemma UpperWord(w: string)
    requires IsWord(w)
    ensures IsWord(Upper(w))
  {
    forall i | 0 <= i < |w|
      ensures !IsSpace(Upper(w)[i])
    {
      CaseKeepsSpace(w[i]);
    }
  }

  /** A string without ASCII capitals is its own lower case. */
  lemma LowerOfLowercase(s: string)
    requires forall i :: 0 <= i < |s| ==> !('A' <= s[i] <= 'Z')
    ensures Lower(s) == s
  {
  }
}
