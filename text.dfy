/** String helpers with the meaning of the Python `str` operations the assistant
    relies on: strip, lower, title, `in`, split, replace, join, int() and str().
    Case mapping is limited to the ASCII letters. */
module Text {

  datatype Option<+T> = None | Some(value: T)

  /** Python's `str.isspace()` character class (also what `\s` matches in `re`). */
  predicate IsSpace(c: char) {
    c == ' ' || ('\t' <= c <= '\r') || ('\U{1c}' <= c <= '\U{1f}') || c == '\U{85}' || c == '\U{a0}'
    || c == '\U{1680}' || ('\U{2000}' <= c <= '\U{200a}') || c == '\U{2028}' || c == '\U{2029}'
    || c == '\U{202f}' || c == '\U{205f}' || c == '\U{3000}'
  }

  predicate IsDigit(c: char) { '0' <= c <= '9' }
  predicate IsUpper(c: char) { 'A' <= c <= 'Z' }
  predicate IsLower(c: char) { 'a' <= c <= 'z' }

  function LowerChar(c: char): (r: char)
    ensures !IsUpper(r)
    ensures IsUpper(c) || r == c
  {
    if IsUpper(c) then (c as int + 32) as char else c
  }

  function UpperChar(c: char): (r: char)
    ensures !IsLower(r)
    ensures IsLower(c) || r == c
  {
    if IsLower(c) then (c as int - 32) as char else c
  }

  /** `s.lower()` */
  function Lower(s: string): (r: string)
    ensures |r| == |s|
    ensures forall i :: 0 <= i < |s| ==> r[i] == LowerChar(s[i])
  {
    seq(|s|, i requires 0 <= i < |s| => LowerChar(s[i]))
  }

  lemma LowerConcat(a: string, b: string)
    ensures Lower(a + b) == Lower(a) + Lower(b)
  {
    assert forall i :: 0 <= i < |a + b| ==> Lower(a + b)[i] == (Lower(a) + Lower(b))[i];
  }

  lemma {:induction false} LowerIdempotent(s: string)
    ensures Lower(Lower(s)) == Lower(s)
  {
    assert forall i :: 0 <= i < |s| ==> LowerChar(LowerChar(s[i])) == LowerChar(s[i]);
  }

  /** The characters `strip` removes: whitespace by default, or the given ones. */
  datatype StripSet = Whitespace | Among(chars: set<char>)

  predicate Drops(cls: StripSet, c: char) {
    match cls
    case Whitespace => IsSpace(c)
    case Among(chars) => c in chars
  }

  /** Drops the leading characters that `cls` holds. */
  function TrimStart(s: string, cls: StripSet): (r: string)
    ensures |r| <= |s|
    ensures r == "" || !Drops(cls, r[0])
    ensures r == "" || r[|r| - 1] == s[|s| - 1]
    decreases |s|
  {
    if |s| > 0 && Drops(cls, s[0]) then TrimStart(s[1..], cls) else s
  }

  /** Drops the trailing characters that `cls` holds. */
  function TrimEnd(s: string, cls: StripSet): (r: string)
    ensures |r| <= |s|
    ensures r == "" || !Drops(cls, r[|r| - 1])
    ensures r == "" || r[0] == s[0]
    decreases |s|
  {
    if |s| > 0 && Drops(cls, s[|s| - 1]) then TrimEnd(s[..|s| - 1], cls) else s
  }

  /** `TrimStart` removes a prefix made only of characters `cls` holds. */
  lemma {:induction false} TrimStartSuffix(s: string, cls: StripSet)
    ensures var r := TrimStart(s, cls);
      r == s[|s| - |r|..] && forall i :: 0 <= i < |s| - |r| ==> Drops(cls, s[i])
    decreases |s|
  {
    if |s| > 0 && Drops(cls, s[0]) {
      TrimStartSuffix(s[1..], cls);
    }
  }

  /** `TrimEnd` removes a suffix made only of characters `cls` holds. */
  lemma {:induction false} TrimEndPrefix(s: string, cls: StripSet)
    ensures var r := TrimEnd(s, cls);
      r == s[..|r|] && forall i :: |r| <= i < |s| ==> Drops(cls, s[i])
    decreases |s|
  {
    if |s| > 0 && Drops(cls, s[|s| - 1]) {
      TrimEndPrefix(s[..|s| - 1], cls);
    }
  }

  /** `s.strip()` */
  function Strip(s: string): (r: string)
    ensures r == "" || (!IsSpace(r[0]) && !IsSpace(r[|r| - 1]))
    ensures |r| <= |s|
  {
    TrimEnd(TrimStart(s, Whitespace), Whitespace)
  }

  /** `s.strip(chars)` */
  function StripChars(s: string, chars: set<char>): (r: string)
    ensures r == "" || (r[0] !in chars && r[|r| - 1] !in chars)
    ensures |r| <= |s|
  {
    TrimEnd(TrimStart(s, Among(chars)), Among(chars))
  }

  /** `w in words`, tested in list order. */
  predicate InList(w: string, words: seq<string>)
  {
    |words| > 0 && (words[0] == w || InList(w, words[1..]))
  }

  lemma {:induction false} InListIff(w: string, words: seq<string>)
    ensures InList(w, words) <==> w in words
  {
    if |words| > 0 {
      InListIff(w, words[1..]);
      assert words == [words[0]] + words[1..];
    }
  }

  predicate StartsWith(s: string, prefix: string) {
    |prefix| <= |s| && s[..|prefix|] == prefix
  }

  /** `sub` occurs in `s` at index `i`, compared character by character from `k` on. */
  predicate MatchesFrom(s: string, sub: string, i: nat, k: nat)
    requires i + |sub| <= |s|
    decreases |sub| - k
  {
    k >= |sub| || (s[i + k] == sub[k] && MatchesFrom(s, sub, i, k + 1))
  }

  predicate OccursAt(s: string, sub: string, i: nat) {
    i + |sub| <= |s| && MatchesFrom(s, sub, i, 0)
  }

  predicate OccursFrom(s: string, sub: string, i: nat)
    decreases |s| - i
  {
    i + |sub| <= |s| && (OccursAt(s, sub, i) || OccursFrom(s, sub, i + 1))
  }

  /** Python's `sub in s`. */
  predicate Contains(s: string, sub: string) {
    OccursFrom(s, sub, 0)
  }

  lemma {:induction false} MatchesFromSlice(s: string, sub: string, i: nat, k: nat)
    requires i + |sub| <= |s| && k <= |sub|
    ensures MatchesFrom(s, sub, i, k) <==> s[i + k..i + |sub|] == sub[k..]
    decreases |sub| - k
  {
    if k < |sub| {
      MatchesFromSlice(s, sub, i, k + 1);
      assert s[i + k..i + |sub|] == [s[i + k]] + s[i + k + 1..i + |sub|];
      assert sub[k..] == [sub[k]] + sub[k + 1..];
    }
  }

  lemma OccursAtSlice(s: string, sub: string, i: nat)
    ensures OccursAt(s, sub, i) <==> i + |sub| <= |s| && s[i..i + |sub|] == sub
  {
    if i + |sub| <= |s| { MatchesFromSlice(s, sub, i, 0); }
  }

  lemma {:induction false} OccursFromIff(s: string, sub: string, i: nat)
    ensures OccursFrom(s, sub, i) <==> exists j :: i <= j && OccursAt(s, sub, j)
    decreases |s| - i
  {
    if i + |sub| <= |s| {
      OccursFromIff(s, sub, i + 1);
      if exists j :: i <= j && OccursAt(s, sub, j) {
        var j :| i <= j && OccursAt(s, sub, j);
        if j > i { assert i + 1 <= j; }
      }
    }
  }

  /** `sub` is the slice of `s` that starts at `j`. */
  ghost predicate SliceAt(s: string, sub: string, j: int) {
    0 <= j && j + |sub| <= |s| && s[j..j + |sub|] == sub
  }

  /** `Contains` agrees with the slice definition of a substring. */
  lemma ContainsIff(s: string, sub: string)
    ensures Contains(s, sub) <==> exists j :: SliceAt(s, sub, j)
  {
    OccursFromIff(s, sub, 0);
    forall j: nat ensures OccursAt(s, sub, j) <==> SliceAt(s, sub, j) {
      OccursAtSlice(s, sub, j);
    }
  }

  /** A substring of `s` is a substring of any string that has `s` inside it. */
  lemma ContainsInContext(a: string, s: string, b: string, sub: string)
    requires Contains(s, sub)
    ensures Contains(a + s + b, sub)
  {
    ContainsIff(s, sub);
    var j :| SliceAt(s, sub, j);
    assert (a + s + b)[|a| + j..|a| + j + |sub|] == s[j..j + |sub|];
    assert SliceAt(a + s + b, sub, |a| + j);
    ContainsIff(a + s + b, sub);
  }

  lemma ContainsEmpty(s: string)
    ensures Contains(s, "")
  {
    assert OccursAt(s, "", 0);
  }

  lemma ContainsSelf(s: string)
    ensures Contains(s, s)
  {
    OccursAtSlice(s, s, 0);
  }

  /** `any(w in s for w in words)` */
  predicate ContainsAny(s: string, words: seq<string>)
  {
    |words| > 0 && (Contains(s, words[0]) || ContainsAny(s, words[1..]))
  }

  lemma {:induction false} ContainsAnyIff(s: string, words: seq<string>)
    ensures ContainsAny(s, words) <==> exists k :: 0 <= k < |words| && Contains(s, words[k])
  {
    if |words| > 0 {
      ContainsAnyIff(s, words[1..]);
      if exists k :: 0 <= k < |words| && Contains(s, words[k]) {
        var k :| 0 <= k < |words| && Contains(s, words[k]);
        if k > 0 { assert words[1..][k - 1] == words[k]; }
      }
    }
  }

  /** The first index at or after `i` where `sub` occurs. */
  function FindFrom(s: string, sub: string, i: nat): (r: Option<nat>)
    ensures r.Some? ==> i <= r.value && OccursAt(s, sub, r.value)
    ensures r.Some? ==> forall j :: i <= j < r.value ==> !OccursAt(s, sub, j)
    ensures r.None? ==> forall j :: i <= j ==> !OccursAt(s, sub, j)
    decreases |s| - i
  {
    if i + |sub| > |s| then None
    else if OccursAt(s, sub, i) then Some(i)
    else FindFrom(s, sub, i + 1)
  }

  /** `s.split(sep)` for a non-empty separator: cut at each occurrence, left to right,
      never overlapping. */
  function SplitOn(s: string, sep: string): (r: seq<string>)
    requires |sep| > 0
    ensures |r| >= 1
    decreases |s|
  {
    match FindFrom(s, sep, 0)
    case None => [s]
    case Some(i) => [s[..i]] + SplitOn(s[i + |sep|..], sep)
  }

  /** `s.replace(pat, rep)` for a non-empty pattern: every occurrence, left to right,
      never overlapping. */
  function ReplaceAll(s: string, pat: string, rep: string): string
    requires |pat| > 0
    decreases |s|
  {
    match FindFrom(s, pat, 0)
    case None => s
    case Some(i) => s[..i] + rep + ReplaceAll(s[i + |pat|..], pat, rep)
  }

  /** With no occurrence of the pattern, `replace` changes nothing. */
  lemma ReplaceAllAbsent(s: string, pat: string, rep: string)
    requires |pat| > 0 && !Contains(s, pat)
    ensures ReplaceAll(s, pat, rep) == s
  {
    OccursFromIff(s, pat, 0);
  }

  /** `s.split(sep)[-1]` */
  function LastPiece(s: string, sep: string): string
    requires |sep| > 0
  {
    var parts := SplitOn(s, sep);
    parts[|parts| - 1]
  }

  /** `FindFrom` from the start finds the first slice equal to `sub`. */
  lemma FindFirstSlice(s: string, sub: string, i: nat)
    requires FindFrom(s, sub, 0) == Some(i)
    ensures SliceAt(s, sub, i) && forall j :: 0 <= j < i ==> !SliceAt(s, sub, j)
  {
    OccursAtSlice(s, sub, i);
    forall j | 0 <= j < i ensures !SliceAt(s, sub, j) {
      OccursAtSlice(s, sub, j);
    }
  }

  /** `s.split(sep, 1)[1]`: what follows the first occurrence of `sep`, or None where
      Python raises IndexError because `sep` does not occur. */
  function AfterFirst(s: string, sep: string): (r: Option<string>)
    ensures r.Some? <==> Contains(s, sep)
    ensures r.Some? ==> exists i :: SliceAt(s, sep, i) && r.value == s[i + |sep|..]
                                    && forall j :: 0 <= j < i ==> !SliceAt(s, sep, j)
  {
    OccursFromIff(s, sep, 0);
    match FindFrom(s, sep, 0)
    case None => None
    case Some(i) => FindFirstSlice(s, sep, i); Some(s[i + |sep|..])
  }

  /** What follows the first occurrence of the lower-case `sep` in `Lower(s)`, cut from
      `s` itself, so that the rest keeps its case. */
  function AfterFirstCaseBlind(s: string, sep: string): (r: Option<string>)
    ensures r.Some? <==> Contains(Lower(s), sep)
    ensures r.Some? ==> AfterFirst(Lower(s), sep).Some? && Lower(r.value) == AfterFirst(Lower(s), sep).value
    ensures r.Some? ==> |r.value| == |AfterFirst(Lower(s), sep).value|
    ensures r.Some? ==> r.value == s[|s| - |r.value|..]
  {
    OccursFromIff(Lower(s), sep, 0);
    match FindFrom(Lower(s), sep, 0)
    case None => None
    case Some(i) =>
      assert Lower(s[i + |sep|..]) == Lower(s)[i + |sep|..];
      Some(s[i + |sep|..])
  }

  /** The number of leading characters of `s` that are not whitespace. */
  function WordLength(s: string): (n: nat)
    ensures n <= |s|
  {
    if s == [] || IsSpace(s[0]) then 0 else 1 + WordLength(s[1..])
  }

  /** `s.split()`: the maximal runs of non-whitespace characters. */
  function Words(s: string): (r: seq<string>)
    ensures forall k :: 0 <= k < |r| ==> r[k] != ""
    decreases |s|
  {
    if s == [] then []
    else if IsSpace(s[0]) then Words(s[1..])
    else
      var n := WordLength(s);
      [s[..n]] + Words(s[n..])
  }

  /** `sep.join(parts)` */
  function Join(parts: seq<string>, sep: string): string
  {
    if |parts| == 0 then ""
    else if |parts| == 1 then parts[0]
    else parts[0] + sep + Join(parts[1..], sep)
  }

  /** `s.replace(c, rep)` for a one-character pattern. */
  function ReplaceChar(s: string, c: char, rep: string): (r: string)
    ensures |r| == |s| + (|rep| - 1) * Count(s, c)
  {
    if s == [] then []
    else (if s[0] == c then rep else [s[0]]) + ReplaceChar(s[1..], c, rep)
  }

  lemma {:induction false} ReplaceCharAbsent(s: string, c: char, rep: string)
    requires c !in s
    ensures ReplaceChar(s, c, rep) == s
  {
    if s != [] {
      ReplaceCharAbsent(s[1..], c, rep);
      assert s == [s[0]] + s[1..];
    }
  }

  /** After `s.replace(c, rep)`, with `c` not in `rep`, no `c` is left. */
  lemma {:induction false} ReplaceCharRemoves(s: string, c: char, rep: string)
    requires c !in rep
    ensures c !in ReplaceChar(s, c, rep)
  {
    if s != [] {
      ReplaceCharRemoves(s[1..], c, rep);
    }
  }

  function Count(s: string, c: char): nat
  {
    if s == [] then 0 else (if s[0] == c then 1 else 0) + Count(s[1..], c)
  }

  /** `s.title()` on ASCII letters: a letter is upper-cased when the character before
      it is not a letter, and lower-cased otherwise. */
  function Title(s: string): string
  {
    TitleAfter(s, false)
  }

  function TitleAfter(s: string, afterLetter: bool): (r: string)
    ensures |r| == |s|
    decreases |s|
  {
    if s == [] then []
    else
      var c := s[0];
      var isLetter := IsUpper(c) || IsLower(c);
      [if !isLetter then c else if afterLetter then LowerChar(c) else UpperChar(c)]
        + TitleAfter(s[1..], isLetter)
  }

  function DigitChar(d: nat): (c: char)
    requires d < 10
    ensures IsDigit(c)
  {
    ('0' as int + d) as char
  }

  /** `str(n)` for a natural number. */
  function NatToString(n: nat): (r: string)
    ensures |r| >= 1
    ensures forall i :: 0 <= i < |r| ==> IsDigit(r[i])
  {
    if n < 10 then [DigitChar(n)] else NatToString(n / 10) + [DigitChar(n % 10)]
  }

  /** `str(i)` for an integer. */
  function IntToString(i: int): string
  {
    if i < 0 then "-" + NatToString(-i) else NatToString(i)
  }

  /** The value of a non-empty run of ASCII digits. */
  function DigitsValue(s: string): nat
    requires forall i :: 0 <= i < |s| ==> IsDigit(s[i])
  {
    if s == [] then 0
    else
      var last := s[|s| - 1];
      assert IsDigit(last);
      DigitsValue(s[..|s| - 1]) * 10 + (last as int - '0' as int)
  }

  predicate AllDigits(s: string) {
    |s| > 0 && forall i :: 0 <= i < |s| ==> IsDigit(s[i])
  }

  /** Python's `int(s)` restricted to ASCII digits: surrounding whitespace is ignored, one
      optional sign, then at least one digit. Underscores between digits are not accepted. */
  function ParseInt(s: string): Option<int>
  {
    ParseSigned(Strip(s))
  }

  /** `int(t)` once the surrounding whitespace is gone. */
  function ParseSigned(t: string): Option<int>
  {
    if |t| > 0 && (t[0] == '-' || t[0] == '+') then
      var body := t[1..];
      if AllDigits(body) then
        var v: int := DigitsValue(body);
        Some(if t[0] == '-' then -v else v)
      else None
    else if AllDigits(t) then Some(DigitsValue(t))
    else None
  }

  lemma {:induction false} NatToStringValue(n: nat)
    ensures DigitsValue(NatToString(n)) == n
  {
    if n >= 10 {
      NatToStringValue(n / 10);
      var s := NatToString(n / 10) + [DigitChar(n % 10)];
      assert s[..|s| - 1] == NatToString(n / 10);
    }
  }

  /** `s.strip()` is a piece of `s`. */
  lemma StripInside(s: string)
    ensures Contains(s, Strip(s))
  {
    var a := TrimStart(s, Whitespace);
    TrimStartSuffix(s, Whitespace);
    TrimEndPrefix(a, Whitespace);
    var r := Strip(s);
    var j := |s| - |a|;
    assert s[j..j + |r|] == a[..|r|] == r;
    assert SliceAt(s, r, j);
    ContainsIff(s, r);
  }

  lemma StripNoSpace(s: string)
    requires s == "" || (!IsSpace(s[0]) && !IsSpace(s[|s| - 1]))
    ensures Strip(s) == s
  {
  }

  lemma ParseSignedToString(i: int)
    ensures ParseSigned(IntToString(i)) == Some(i)
  {
    var n: nat := if i < 0 then -i else i;
    NatToStringValue(n);
    var digits := NatToString(n);
    assert AllDigits(digits);
    if i < 0 {
      assert ("-" + digits)[1..] == digits;
    } else {
      assert digits[0] != '-' && digits[0] != '+';
    }
  }

  /** `int(str(i)) == i`: the decimal rendering of an integer parses back to it. */
  lemma ParseIntToString(i: int)
    ensures ParseInt(IntToString(i)) == Some(i)
  {
    var s := IntToString(i);
    var digits := NatToString(if i < 0 then -i else i);
    assert s[|s| - 1] == digits[|digits| - 1];
    StripNoSpace(s);
    ParseSignedToString(i);
  }
}
