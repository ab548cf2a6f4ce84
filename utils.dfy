/** The choice of the one sentence the assistant speaks out of an agent reply
    (main/utils.py): the reply is cut into sentences, filler interjections are
    passed over, and the first substantive sentence wins. */
module ResponseSelector {
  import opened Text

  /** One element of the optional `candidates` list: only strings are looked at. */
  datatype Candidate = Str(s: string) | NonString

  /** Interjections that never count as an answer on their own. */
  const Interjections: seq<string> :=
    ["certainly", "sure", "okay", "ok", "right away", "one moment", "of course", "got it", "alright", "yes"]


  /** Phrases that mark a reply as a refusal, in the order they are tried. */
  const RefusalPatterns: seq<string> := [
    "as an ai language model",
    "i do not have access",
    "i cannot",
    "i'm unable",
    "cannot provide",
    "unable to",
    "i do not have",
    "i don't have"
  ]

  const SentenceQuoteChars: set<char> := {'\n', '\r', ' ', '"'}

  predicate IsTerminator(c: char) { c == '.' || c == '!' || c == '?' }

  /** `re.split(r'(?<=[.!?])\s+', s)` cuts `s` at index `i`: a sentence end is
      followed by whitespace there. */
  predicate CutAt(s: string, i: int) {
    0 < i < |s| && IsTerminator(s[i - 1]) && IsSpace(s[i])
  }

  /** No cut point lies strictly inside `p`. */
  predicate NoCutInside(p: string) {
    forall k :: 0 < k < |p| ==> !CutAt(p, k)
  }

  /** The index of the first non-whitespace character at or after `i`. */
  function SkipSpace(s: string, i: nat): (j: nat)
    requires i <= |s|
    ensures i <= j <= |s|
    ensures j == |s| || !IsSpace(s[j])
    ensures forall k :: i <= k < j ==> IsSpace(s[k])
    decreases |s| - i
  {
    if i < |s| && IsSpace(s[i]) then SkipSpace(s, i + 1) else i
  }

  lemma NoCutInsideSlice(s: string, a: nat, b: nat)
    requires a <= b <= |s|
    requires forall k :: a < k < b ==> !CutAt(s, k)
    ensures NoCutInside(s[a..b])
  {
    var p := s[a..b];
    forall k | 0 < k < |p| ensures !CutAt(p, k) {
      assert p[k - 1] == s[a + k - 1] && p[k] == s[a + k];
      assert !CutAt(s, a + k);
    }
  }

  /** The pieces of a split are maximal: every piece but the last ends a sentence, no
      piece but the first starts with whitespace, and no cut point is left inside one. */
  predicate MaximalPieces(r: seq<string>) {
    && (forall j :: 0 <= j < |r| ==> NoCutInside(r[j]))
    && (forall j :: 0 <= j < |r| - 1 ==> r[j] != "" && IsTerminator(r[j][|r[j]| - 1]))
    && (forall j :: 0 < j < |r| ==> r[j] == "" || !IsSpace(r[j][0]))
  }

  /** The pieces of `s` from `start` on, scanning for a cut from index `i`. */
  function SplitFrom(s: string, start: nat, i: nat): (r: seq<string>)
    requires start <= i <= |s|
    ensures |r| >= 1
    ensures |r[0]| <= |s| - start && r[0] == s[start..start + |r[0]|]
    decreases |s| - i
  {
    if i == |s| then [s[start..]]
    else if CutAt(s, i) then
      var next := SkipSpace(s, i);
      [s[start..i]] + SplitFrom(s, next, next)
    else
      SplitFrom(s, start, i + 1)
  }

  /** The pieces `SplitFrom` yields are maximal: every piece but the last ends a sentence,
      no piece but the first starts with whitespace, and no cut point is left inside one. */
  lemma {:induction false} SplitFromPieces(s: string, start: nat, i: nat)
    requires start <= i <= |s|
    requires start == 0 || !IsTerminator(s[start - 1])
    requires forall k :: start < k < i ==> !CutAt(s, k)
    ensures MaximalPieces(SplitFrom(s, start, i))
    decreases |s| - i
  {
    var r := SplitFrom(s, start, i);
    if i == |s| {
      NoCutInsideSlice(s, start, |s|);
    } else if CutAt(s, i) {
      var p := s[start..i];
      NoCutInsideSlice(s, start, i);
      var next := SkipSpace(s, i);
      assert next > i && IsSpace(s[next - 1]);
      var rest := SplitFrom(s, next, next);
      SplitFromPieces(s, next, next);
      assert rest[0] == "" || rest[0][0] == s[next];
      assert p != "" && p[|p| - 1] == s[i - 1];
      ConsPiece(p, rest);
      assert r == [p] + rest;
    } else {
      SplitFromPieces(s, start, i + 1);
      assert r == SplitFrom(s, start, i + 1);
    }
  }

  /** A finished sentence put in front of maximal pieces whose first piece does not
      start with whitespace keeps them maximal. */
  lemma ConsPiece(p: string, rest: seq<string>)
    requires NoCutInside(p) && p != "" && IsTerminator(p[|p| - 1])
    requires MaximalPieces(rest) && |rest| >= 1
    requires rest[0] == "" || !IsSpace(rest[0][0])
    ensures MaximalPieces([p] + rest)
  {
    var r := [p] + rest;
    forall j | 0 < j < |r|
      ensures NoCutInside(r[j]) && (r[j] == "" || !IsSpace(r[j][0]))
      ensures j < |r| - 1 ==> r[j] != "" && IsTerminator(r[j][|r[j]| - 1])
    {
      assert r[j] == rest[j - 1];
    }
  }

  /** `re.split(r'(?<=[.!?])\s+', s)` */
  function SplitSentences(s: string): (r: seq<string>)
    ensures |r| >= 1
  {
    SplitFrom(s, 0, 0)
  }

  /** Every piece but the last ends a sentence, no piece but the first starts with
      whitespace, and no cut point is left inside a piece. */
  lemma SplitSentencesPieces(s: string)
    ensures MaximalPieces(SplitSentences(s))
  {
    SplitFromPieces(s, 0, 0);
    assert SplitSentences(s) == SplitFrom(s, 0, 0);
  }

  /** `clean_sent`: strip whitespace, then strip newlines, carriage returns, blanks and
      double quotes. */
  function CleanSentence(s: string): (r: string)
    ensures |r| <= |s|
    ensures r == "" || (r[0] !in SentenceQuoteChars && r[|r| - 1] !in SentenceQuoteChars)
  {
    StripChars(Strip(s), SentenceQuoteChars)
  }

  /** The cleaned, non-empty pieces, in order. */
  function CleanPieces(pieces: seq<string>): (r: seq<string>)
    ensures |r| <= |pieces|
    ensures forall k :: 0 <= k < |r| ==> r[k] != ""
  {
    if pieces == [] then []
    else
      var c := CleanSentence(pieces[0]);
      (if c != "" then [c] else []) + CleanPieces(pieces[1..])
  }

  /** The sentences one string contributes; an empty string contributes none. */
  function TextSentences(t: string): (r: seq<string>)
    ensures forall k :: 0 <= k < |r| ==> r[k] != ""
  {
    if t == "" then [] else CleanPieces(SplitSentences(t))
  }

  /** The sentences of the candidates, in list order, skipping empty and non-string ones. */
  function CandidateSentences(cs: seq<Candidate>): (r: seq<string>)
    ensures forall k :: 0 <= k < |r| ==> r[k] != ""
  {
    if cs == [] then []
    else
      (match cs[0]
       case Str(c) => TextSentences(c)
       case NonString => [])
      + CandidateSentences(cs[1..])
  }

  /** All sentences considered: the candidates' first, then the text's. */
  function Sentences(text: string, cs: seq<Candidate>): (r: seq<string>)
    ensures forall k :: 0 <= k < |r| ==> r[k] != ""
    ensures |r| == |CandidateSentences(cs)| + |TextSentences(text)|
    ensures r[..|CandidateSentences(cs)|] == CandidateSentences(cs)
  {
    CandidateSentences(cs) + TextSentences(text)
  }

  /** `is_substantive`: not an interjection, at least 8 characters, and more than one word. */
  predicate IsSubstantive(s: string) {
    !InList(StripChars(Lower(s), {'!', '.', ','}), Interjections) && |s| >= 8 && Contains(s, " ")
  }

  /** The index of the first string at or after `i` that satisfies `p`. */
  function FirstWhere(ss: seq<string>, i: nat, p: string -> bool): (r: Option<nat>)
    requires i <= |ss|
    ensures r.Some? ==> i <= r.value < |ss| && p(ss[r.value])
    ensures r.Some? ==> forall j :: i <= j < r.value ==> !p(ss[j])
    ensures r.None? <==> forall j :: i <= j < |ss| ==> !p(ss[j])
    decreases |ss| - i
  {
    if i == |ss| then None
    else if p(ss[i]) then Some(i)
    else FirstWhere(ss, i + 1, p)
  }

  /** The forward scan from index `i`: the index of the first substantive sentence. */
  function FirstSubstantiveFrom(ss: seq<string>, i: nat): (r: Option<nat>)
    requires i <= |ss|
    ensures r.Some? ==> i <= r.value < |ss| && IsSubstantive(ss[r.value])
    ensures r.Some? ==> forall j :: i <= j < r.value ==> !IsSubstantive(ss[j])
    ensures r.None? <==> forall j :: i <= j < |ss| ==> !IsSubstantive(ss[j])
  {
    FirstWhere(ss, i, IsSubstantive)
  }

  function FirstSubstantive(ss: seq<string>): Option<nat>
  {
    FirstSubstantiveFrom(ss, 0)
  }

  /** The index of the last string below `n` that satisfies `p`. */
  function LastWhere(ss: seq<string>, n: nat, p: string -> bool): (r: Option<nat>)
    requires n <= |ss|
    ensures r.Some? ==> r.value < n && p(ss[r.value])
    ensures r.Some? ==> forall j :: r.value < j < n ==> !p(ss[j])
    ensures r.None? <==> forall j :: 0 <= j < n ==> !p(ss[j])
  {
    if n == 0 then None
    else if p(ss[n - 1]) then Some(n - 1)
    else LastWhere(ss, n - 1, p)
  }

  /** The backward scan over `reversed(ss[..n])`, checked with the same predicate. */
  function LastSubstantiveBelow(ss: seq<string>, n: nat): (r: Option<nat>)
    requires n <= |ss|
    ensures r.Some? ==> r.value < n && IsSubstantive(ss[r.value])
    ensures r.Some? ==> forall j :: r.value < j < n ==> !IsSubstantive(ss[j])
    ensures r.None? <==> forall j :: 0 <= j < n ==> !IsSubstantive(ss[j])
  {
    LastWhere(ss, n, IsSubstantive)
  }

  function LastSubstantive(ss: seq<string>): Option<nat>
  {
    LastSubstantiveBelow(ss, |ss|)
  }

  /** The backward scan can never return: it only runs when the forward scan found
      nothing, and it tests the same predicate. */
  lemma {:induction false} LastSubstantiveBelowDead(ss: seq<string>, n: nat)
    requires n <= |ss|
    requires forall j :: 0 <= j < |ss| ==> !IsSubstantive(ss[j])
    ensures LastSubstantiveBelow(ss, n).None?
  {
    if n > 0 {
      LastSubstantiveBelowDead(ss, n - 1);
    }
  }

  lemma LastSubstantiveDead(ss: seq<string>)
    requires FirstSubstantive(ss).None?
    ensures LastSubstantive(ss).None?
  {
    LastSubstantiveBelowDead(ss, |ss|);
  }

  /** `max(ss, key=len)` on ss[i..]: the first of the longest sentences. */
  function LongestFrom(ss: seq<string>, i: nat): (k: nat)
    requires i < |ss|
    ensures i <= k < |ss|
    ensures forall j :: i <= j < |ss| ==> |ss[j]| <= |ss[k]|
    ensures forall j :: i <= j < k ==> |ss[j]| < |ss[k]|
    decreases |ss| - i
  {
    if i == |ss| - 1 then i
    else
      var k := LongestFrom(ss, i + 1);
      if |ss[k]| > |ss[i]| then k else i
  }

  /** `choose_best_sentence(text, candidates)` */
  function ChooseBestSentence(text: string, cs: seq<Candidate>): string
  {
    var ss := Sentences(text, cs);
    match FirstSubstantive(ss)
    case Some(k) => ss[k]
    case None =>
      match LastSubstantive(ss)
      case Some(k) => ss[k]
      case None => if ss != [] then ss[LongestFrom(ss, 0)] else Strip(text)
  }

  /** What the chosen sentence is: the first substantive sentence if there is one;
      otherwise the first longest sentence; with no sentence at all, the stripped text. */
  lemma ChooseBestSentenceSpec(text: string, cs: seq<Candidate>)
    ensures var ss := Sentences(text, cs);
      var r := ChooseBestSentence(text, cs);
      && ((exists k :: 0 <= k < |ss| && IsSubstantive(ss[k])) ==>
            exists k :: 0 <= k < |ss| && r == ss[k] && IsSubstantive(ss[k])
              && forall j :: 0 <= j < k ==> !IsSubstantive(ss[j]))
      && ((forall k :: 0 <= k < |ss| ==> !IsSubstantive(ss[k])) && ss != [] ==>
            exists k :: 0 <= k < |ss| && r == ss[k]
              && (forall j :: 0 <= j < |ss| ==> |ss[j]| <= |r|)
              && (forall j :: 0 <= j < k ==> |ss[j]| < |r|))
      && (ss == [] ==> r == Strip(text))
  {
    var ss := Sentences(text, cs);
    if FirstSubstantive(ss).None? {
      LastSubstantiveDead(ss);
      if ss != [] {
        var k := LongestFrom(ss, 0);
        assert ChooseBestSentence(text, cs) == ss[k];
      }
    } else {
      var k := FirstSubstantive(ss).value;
      assert ChooseBestSentence(text, cs) == ss[k];
    }
  }

  /** A candidate sentence always beats the text's: when a candidate holds a substantive
      sentence, the text is not consulted. */
  lemma CandidatesFirst(text: string, cs: seq<Candidate>)
    requires FirstSubstantive(CandidateSentences(cs)).Some?
    ensures ChooseBestSentence(text, cs) == ChooseBestSentence("", cs)
  {
    var c := CandidateSentences(cs);
    var k := FirstSubstantive(c).value;
    var ss := Sentences(text, cs);
    var ss0 := Sentences("", cs);
    assert ss0 == c;
    assert ss[k] == c[k];
    assert forall j :: 0 <= j < k ==> ss[j] == c[j];
    assert forall j :: 0 <= j < k ==> !IsSubstantive(ss[j]);
    var r := FirstSubstantive(ss);
    assert r.Some?;
    assert r.value == k;
  }

  /** `is_refusal(s)` */
  predicate IsRefusal(s: string) {
    s != "" && ContainsAny(Lower(s), RefusalPatterns)
  }

  /** A reply is a refusal exactly when it is non-empty and its lower-case form contains
      one of the eight refusal phrases. */
  lemma IsRefusalIff(s: string)
    ensures IsRefusal(s) <==>
      s != "" && exists k :: 0 <= k < |RefusalPatterns| && Contains(Lower(s), RefusalPatterns[k])
  {
    ContainsAnyIff(Lower(s), RefusalPatterns);
  }

  /** Surrounding a refusal with more text keeps it a refusal. */
  lemma IsRefusalInContext(a: string, s: string, b: string)
    requires IsRefusal(s)
    ensures IsRefusal(a + s + b)
  {
    IsRefusalIff(s);
    var k :| 0 <= k < |RefusalPatterns| && Contains(Lower(s), RefusalPatterns[k]);
    LowerConcat(a, s);
    LowerConcat(a + s, b);
    ContainsInContext(Lower(a), Lower(s), Lower(b), RefusalPatterns[k]);
    IsRefusalIff(a + s + b);
  }
}
