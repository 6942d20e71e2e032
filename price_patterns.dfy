/** The price extractor of the capture screen (app/components/Camera.js):
    five regular expressions tried in a fixed order on the OCR text.

      1. /RM\s*(\d+\.?\d*)/i               RmPrefix
      2. /(\d+\.?\d*)\s*RM/i               RmSuffix
      3. /Total\s*:?\s*RM\s*(\d+\.?\d*)/i  TotalRm
      4. /Total\s*:?\s*(\d+\.?\d*)/i       TotalBare
      5. /(\d+\.?\d*)/                     Bare

    Each pattern is modelled twice: MatchAt is a deterministic greedy scanner
    (what the backtracking engine ends up reporting), RegexMatch is the set of
    all matches the regular expression admits at a position. The lemmas
    MatchAt's contract and the lemma MatchAtComplete tie the two together. */
module PricePatterns {
  import opened Wrappers
  import opened Decimal

  /** \s of JavaScript regular expressions: the WhiteSpace and LineTerminator
      characters of ECMAScript. None of them is a digit, a dot, a colon or an
      ASCII letter, so every \s* run stops where the next part of a pattern starts. */
  predicate IsSpace(c: char): (b: bool)
    ensures b ==> !IsDigit(c) && c != '.' && c != ':' && !('a' <= c <= 'z') && !('A' <= c <= 'Z')
  {
    c == '\t' || c == '\n' || c == '\U{000B}' || c == '\U{000C}' || c == '\r' || c == ' '
    || c == '\U{00A0}' || c == '\U{1680}' || ('\U{2000}' <= c <= '\U{200A}')
    || c == '\U{2028}' || c == '\U{2029}' || c == '\U{202F}' || c == '\U{205F}'
    || c == '\U{3000}' || c == '\U{FEFF}'
  }

  /** s[i..j] is a (possibly empty) run of \s characters. */
  predicate SpaceSpan(s: string, i: int, j: int) {
    0 <= i <= j <= |s| && forall k :: i <= k < j ==> IsSpace(s[k])
  }

  /** A greedy \s*: the end of the maximal run of spaces from i. */
  function SkipSpaces(s: string, i: nat): (k: nat)
    requires i <= |s|
    ensures SpaceSpan(s, i, k)
    ensures k == |s| || !IsSpace(s[k])
    decreases |s| - i
  {
    if i < |s| && IsSpace(s[i]) then SkipSpaces(s, i + 1) else i
  }

  /** A run of spaces that stops before a non-space ends where the greedy one does. */
  lemma SkipSpacesLands(s: string, i: nat, k: nat)
    requires SpaceSpan(s, i, k) && k < |s| && !IsSpace(s[k])
    ensures SkipSpaces(s, i) == k
  {
  }

  function Upper(c: char): char {
    if 'a' <= c <= 'z' then (c as int - 32) as char else c
  }

  /** The lower-case word w occurs at i under the i flag. Without the u flag,
      JavaScript folds case through toUpperCase and never maps a non-ASCII
      character to an ASCII one, so only the ASCII pair of each letter matches.
      That is the engine's rule: both sides agree once they are upper-cased. */
  predicate LiteralAt(s: string, i: int, w: string): (b: bool)
    requires forall k :: 0 <= k < |w| ==> 'a' <= w[k] <= 'z'
    ensures b <==> 0 <= i && i + |w| <= |s| && forall k :: 0 <= k < |w| ==> Upper(s[i + k]) == Upper(w[k])
  {
    0 <= i && i + |w| <= |s| && forall k :: 0 <= k < |w| ==> s[i + k] == w[k] || s[i + k] == Upper(w[k])
  }

  /** An occurrence of a word, under the i flag, starts with its first letter
      in either case. */
  lemma LiteralStartsWith(s: string, k: int, w: string)
    requires forall j :: 0 <= j < |w| ==> 'a' <= w[j] <= 'z'
    requires |w| > 0 && LiteralAt(s, k, w)
    ensures s[k] == w[0] || s[k] == Upper(w[0])
  {
    assert s[k + 0] == w[0] || s[k + 0] == Upper(w[0]);
  }

  /** An optional colon (:?) from a to b. */
  predicate OptColon(s: string, a: int, b: int) {
    b == a || (0 <= a < |s| && s[a] == ':' && b == a + 1)
  }

  /** s[i..j] is matched by \d+\.?\d*. */
  predicate NumeralSpan(s: string, i: int, j: int) {
    0 <= i < j <= |s| &&
    exists m :: i < m <= j && DigitsIn(s, i, m) && (m == j || (s[m] == '.' && DigitsIn(s, m + 1, j)))
  }

  /** What \d+\.?\d* matches is a numeral parseFloat can read. */
  lemma NumeralSpanText(s: string, i: int, j: int)
    requires NumeralSpan(s, i, j)
    ensures IsNumeral(s[i..j])
  {
    var m :| i < m <= j && DigitsIn(s, i, m) && (m == j || (s[m] == '.' && DigitsIn(s, m + 1, j)));
    forall k | 0 <= k < j - i ensures IsDigit(s[i..j][k]) || s[i..j][k] == '.' {
      assert s[i..j][k] == s[i + k];
    }
  }

  /** The end of the greedy \d+\.?\d* starting at a digit. */
  function NumeralEnd(s: string, i: nat): (e: nat)
    requires i < |s| && IsDigit(s[i])
    ensures i < e <= |s| && NumeralSpan(s, i, e)
    ensures forall k :: i <= k < e ==> IsDigit(s[k]) || s[k] == '.'
  {
    var a := DigitRunEnd(s, i);
    if a < |s| && s[a] == '.' then DigitRunEnd(s, a + 1) else a
  }

  /** The greedy numeral is the longest one. */
  lemma NumeralEndLongest(s: string, i: nat, j: nat)
    requires NumeralSpan(s, i, j)
    ensures IsDigit(s[i]) && j <= NumeralEnd(s, i)
  {
    var m :| i < m <= j && DigitsIn(s, i, m) && (m == j || (s[m] == '.' && DigitsIn(s, m + 1, j)));
    var a := DigitRunEnd(s, i);
    DigitRunEndIsMaximal(s, i, m);
    if m < j {
      DigitRunEndIsMaximal(s, a + 1, j);
    }
  }

  /** A numeral followed by a character that is neither a digit nor a dot is the greedy one. */
  lemma NumeralEndUnique(s: string, i: nat, j: nat)
    requires NumeralSpan(s, i, j) && j < |s| && !IsDigit(s[j]) && s[j] != '.'
    ensures IsDigit(s[i]) && j == NumeralEnd(s, i)
  {
    NumeralEndLongest(s, i, j);
    var m :| i < m <= j && DigitsIn(s, i, m) && (m == j || (s[m] == '.' && DigitsIn(s, m + 1, j)));
    var a := DigitRunEnd(s, i);
    DigitRunEndIsMaximal(s, i, m);
    if m == j {
      assert a == j;
    } else {
      assert m == a;
      DigitRunEndIsMaximal(s, a + 1, j);
    }
  }

  /** The text of the greedy numeral at a digit. */
  function NumeralText(s: string, i: nat): (g: string)
    requires i < |s| && IsDigit(s[i])
    ensures IsNumeral(g)
  {
    var e := NumeralEnd(s, i);
    assert forall k :: 0 <= k < e - i ==> s[i..e][k] == s[i + k];
    s[i..e]
  }

  /** The capture group (\d+\.?\d*) at i: present exactly when the
      expression matches there, and then a match of it. */
  function GroupAt(s: string, i: nat): (r: Option<string>)
    requires i <= |s|
    ensures r.Some? <==> exists g :: BareMatch(s, i, g)
    ensures r.Some? ==> BareMatch(s, i, r.value)
    ensures r.Some? ==> i < |s| && IsDigit(s[i]) && r.value == NumeralText(s, i)
  {
    if i < |s| && IsDigit(s[i]) then
      assert BareMatch(s, i, s[i..NumeralEnd(s, i)]);
      Some(NumeralText(s, i))
    else
      None
  }

  /** Total\s*:?\s* from q: where the part after the label starts. */
  function AfterLabel(s: string, q: nat): (c: nat)
    requires q <= |s|
    ensures q <= c <= |s|
  {
    var a := SkipSpaces(s, q);
    var b := if a < |s| && s[a] == ':' then a + 1 else a;
    SkipSpaces(s, b)
  }

  datatype Pattern = RmPrefix | RmSuffix | TotalRm | TotalBare | Bare

  /** The pricePatterns array, in the order the source lists it. */
  const PriceOrder: seq<Pattern> := [RmPrefix, RmSuffix, TotalRm, TotalBare, Bare]

  /** Group 1 of the match the regular-expression engine reports when it tries
      the pattern at position p, if any: always a match of the expression there,
      and a numeral parseFloat can read. */
  function MatchAt(pat: Pattern, s: string, p: nat): (r: Option<string>)
    requires p <= |s|
    ensures r.Some? ==> RegexMatch(pat, s, p, r.value)
    ensures r.Some? ==> IsNumeral(r.value)
  {
    match pat
    case RmPrefix => RmPrefixAt(s, p)
    case RmSuffix => RmSuffixAt(s, p)
    case TotalRm => TotalRmAt(s, p)
    case TotalBare => TotalBareAt(s, p)
    case Bare => GroupAt(s, p)
  }

  /** RM\s*(\d+\.?\d*): the literal, the greedy spaces, then the group. */
  function RmPrefixAt(s: string, p: nat): (r: Option<string>)
    requires p <= |s|
    ensures r.Some? ==> RmPrefixMatch(s, p, r.value)
  {
    if LiteralAt(s, p, "rm") then
      var i := SkipSpaces(s, p + 2);
      var r := GroupAt(s, i);
      if r.Some? then
        assert SpaceSpan(s, p + 2, i) && NumeralSpan(s, i, NumeralEnd(s, i));
        r
      else r
    else None
  }

  /** (\d+\.?\d*)\s*RM: the greedy numeral, the greedy spaces, then the literal. */
  function RmSuffixAt(s: string, p: nat): (r: Option<string>)
    requires p <= |s|
    ensures r.Some? ==> RmSuffixMatch(s, p, r.value)
  {
    if p < |s| && IsDigit(s[p]) then
      var e := NumeralEnd(s, p);
      var k := SkipSpaces(s, e);
      if LiteralAt(s, k, "rm") then
        assert NumeralSpan(s, p, e) && SpaceSpan(s, e, k);
        Some(NumeralText(s, p))
      else None
    else None
  }

  /** Total\s*:?\s*RM\s*(\d+\.?\d*) */
  function TotalRmAt(s: string, p: nat): (r: Option<string>)
    requires p <= |s|
    ensures r.Some? ==> TotalRmMatch(s, p, r.value)
  {
    if LiteralAt(s, p, "total") then
      var c := AfterLabel(s, p + 5);
      if LiteralAt(s, c, "rm") then
        var i := SkipSpaces(s, c + 2);
        var r := GroupAt(s, i);
        if r.Some? then
          var a := SkipSpaces(s, p + 5);
          var b := if a < |s| && s[a] == ':' then a + 1 else a;
          assert SpaceSpan(s, p + 5, a) && OptColon(s, a, b) && SpaceSpan(s, b, c) && SpaceSpan(s, c + 2, i);
          assert NumeralSpan(s, i, NumeralEnd(s, i));
          r
        else r
      else None
    else None
  }

  /** Total\s*:?\s*(\d+\.?\d*) */
  function TotalBareAt(s: string, p: nat): (r: Option<string>)
    requires p <= |s|
    ensures r.Some? ==> TotalBareMatch(s, p, r.value)
  {
    if LiteralAt(s, p, "total") then
      var i := AfterLabel(s, p + 5);
      var r := GroupAt(s, i);
      if r.Some? then
        var a := SkipSpaces(s, p + 5);
        var b := if a < |s| && s[a] == ':' then a + 1 else a;
        assert SpaceSpan(s, p + 5, a) && OptColon(s, a, b) && SpaceSpan(s, b, i);
        assert NumeralSpan(s, i, NumeralEnd(s, i));
        r
      else r
    else None
  }

  /** Reference semantics: the regular expression matches at p with group 1
      equal to g (for some choice of the lengths of \s*, :? and the numeral). */
  ghost predicate RegexMatch(pat: Pattern, s: string, p: nat, g: string): (b: bool)
    ensures b ==> IsNumeral(g) && p < |s|
  {
    RegexMatchGroup(pat, s, p, g);
    match pat
    case RmPrefix => RmPrefixMatch(s, p, g)
    case RmSuffix => RmSuffixMatch(s, p, g)
    case TotalRm => TotalRmMatch(s, p, g)
    case TotalBare => TotalBareMatch(s, p, g)
    case Bare => BareMatch(s, p, g)
  }

  /** Every way each expression can match captures a numeral, and starts
      inside the text. */
  lemma RegexMatchGroup(pat: Pattern, s: string, p: nat, g: string)
    ensures pat == RmPrefix && RmPrefixMatch(s, p, g) ==> IsNumeral(g) && p < |s|
    ensures pat == RmSuffix && RmSuffixMatch(s, p, g) ==> IsNumeral(g) && p < |s|
    ensures pat == TotalRm && TotalRmMatch(s, p, g) ==> IsNumeral(g) && p < |s|
    ensures pat == TotalBare && TotalBareMatch(s, p, g) ==> IsNumeral(g) && p < |s|
    ensures pat == Bare && BareMatch(s, p, g) ==> IsNumeral(g) && p < |s|
  {
    match pat
    case RmPrefix =>
      if RmPrefixMatch(s, p, g) {
        var i, j :| LiteralAt(s, p, "rm") && SpaceSpan(s, p + 2, i) && NumeralSpan(s, i, j) && g == s[i..j];
        NumeralSpanText(s, i, j);
      }
    case RmSuffix =>
      if RmSuffixMatch(s, p, g) {
        var j, k :| NumeralSpan(s, p, j) && SpaceSpan(s, j, k) && LiteralAt(s, k, "rm") && g == s[p..j];
        NumeralSpanText(s, p, j);
      }
    case TotalRm =>
      if TotalRmMatch(s, p, g) {
        var a, b, c, i, j :|
          LiteralAt(s, p, "total") && SpaceSpan(s, p + 5, a) && OptColon(s, a, b) && SpaceSpan(s, b, c) &&
          LiteralAt(s, c, "rm") && SpaceSpan(s, c + 2, i) && NumeralSpan(s, i, j) && g == s[i..j];
        NumeralSpanText(s, i, j);
      }
    case TotalBare =>
      if TotalBareMatch(s, p, g) {
        var a, b, i, j :|
          LiteralAt(s, p, "total") && SpaceSpan(s, p + 5, a) && OptColon(s, a, b) && SpaceSpan(s, b, i) &&
          NumeralSpan(s, i, j) && g == s[i..j];
        NumeralSpanText(s, i, j);
      }
    case Bare =>
      if BareMatch(s, p, g) {
        var j :| NumeralSpan(s, p, j) && g == s[p..j];
        NumeralSpanText(s, p, j);
      }
  }

  /** RM\s*(\d+\.?\d*) */
  ghost predicate RmPrefixMatch(s: string, p: nat, g: string) {
    exists i, j :: LiteralAt(s, p, "rm") && SpaceSpan(s, p + 2, i) && NumeralSpan(s, i, j) && g == s[i..j]
  }

  /** (\d+\.?\d*)\s*RM */
  ghost predicate RmSuffixMatch(s: string, p: nat, g: string) {
    exists j, k :: NumeralSpan(s, p, j) && SpaceSpan(s, j, k) && LiteralAt(s, k, "rm") && g == s[p..j]
  }

  /** Total\s*:?\s*RM\s*(\d+\.?\d*) */
  ghost predicate TotalRmMatch(s: string, p: nat, g: string) {
    exists a, b, c, i, j ::
      LiteralAt(s, p, "total") && SpaceSpan(s, p + 5, a) && OptColon(s, a, b) && SpaceSpan(s, b, c) &&
      LiteralAt(s, c, "rm") && SpaceSpan(s, c + 2, i) && NumeralSpan(s, i, j) && g == s[i..j]
  }

  /** Total\s*:?\s*(\d+\.?\d*) */
  ghost predicate TotalBareMatch(s: string, p: nat, g: string) {
    exists a, b, i, j ::
      LiteralAt(s, p, "total") && SpaceSpan(s, p + 5, a) && OptColon(s, a, b) && SpaceSpan(s, b, i) &&
      NumeralSpan(s, i, j) && g == s[i..j]
  }

  /** (\d+\.?\d*) */
  ghost predicate BareMatch(s: string, p: nat, g: string) {
    exists j :: NumeralSpan(s, p, j) && g == s[p..j]
  }

  /** Spaces, an optional colon and spaces that stop before a character that
      is neither a space nor a colon end where AfterLabel does. */
  lemma AfterLabelLands(s: string, q: nat, a: nat, b: nat, c: nat)
    requires SpaceSpan(s, q, a) && OptColon(s, a, b) && SpaceSpan(s, b, c)
    requires c < |s| && !IsSpace(s[c]) && s[c] != ':'
    ensures AfterLabel(s, q) == c
  {
    if b == a {
      assert SpaceSpan(s, q, c);
      SkipSpacesLands(s, q, c);
    } else {
      SkipSpacesLands(s, q, a);
      SkipSpacesLands(s, b, c);
    }
  }

  /** Whenever the regular expression matches at p, the scanner reports a
      match there, and its group is the longest one: the greedy quantifiers
      come first in every pattern, so the backtracking engine settles on it. */
  lemma MatchAtComplete(pat: Pattern, s: string, p: nat, g: string)
    requires p <= |s| && RegexMatch(pat, s, p, g)
    ensures MatchAt(pat, s, p).Some? && g <= MatchAt(pat, s, p).value
  {
    match pat
    case RmPrefix => RmPrefixComplete(s, p, g);
    case RmSuffix => RmSuffixComplete(s, p, g);
    case TotalRm => TotalRmComplete(s, p, g);
    case TotalBare => TotalBareComplete(s, p, g);
    case Bare =>
      var j :| NumeralSpan(s, p, j) && g == s[p..j];
      NumeralEndLongest(s, p, j);
  }

  lemma RmPrefixComplete(s: string, p: nat, g: string)
    requires p <= |s| && RmPrefixMatch(s, p, g)
    ensures MatchAt(RmPrefix, s, p).Some? && g <= MatchAt(RmPrefix, s, p).value
  {
    var i, j :| LiteralAt(s, p, "rm") && SpaceSpan(s, p + 2, i) && NumeralSpan(s, i, j) && g == s[i..j];
    RmPrefixCompleteAt(s, p, i, j);
  }

  lemma RmPrefixCompleteAt(s: string, p: nat, i: nat, j: nat)
    requires p <= |s| && LiteralAt(s, p, "rm") && SpaceSpan(s, p + 2, i) && NumeralSpan(s, i, j)
    ensures MatchAt(RmPrefix, s, p).Some? && s[i..j] <= MatchAt(RmPrefix, s, p).value
  {
    NumeralEndLongest(s, i, j);
    SkipSpacesLands(s, p + 2, i);
    assert MatchAt(RmPrefix, s, p) == Some(s[i..NumeralEnd(s, i)]);
    SlicePrefix(s, i, j, NumeralEnd(s, i));
  }

  /** For RmSuffix the match at a position is unique. */
  lemma RmSuffixComplete(s: string, p: nat, g: string)
    requires p <= |s| && RmSuffixMatch(s, p, g)
    ensures MatchAt(RmSuffix, s, p) == Some(g)
  {
    var j, k :| NumeralSpan(s, p, j) && SpaceSpan(s, j, k) && LiteralAt(s, k, "rm") && g == s[p..j];
    LiteralStartsWith(s, k, "rm");
    if j < k {
      assert IsSpace(s[j]);
    }
    NumeralEndUnique(s, p, j);
    SkipSpacesLands(s, j, k);
  }

  lemma TotalRmComplete(s: string, p: nat, g: string)
    requires p <= |s| && TotalRmMatch(s, p, g)
    ensures MatchAt(TotalRm, s, p).Some? && g <= MatchAt(TotalRm, s, p).value
  {
    var a, b, c, i, j :|
      LiteralAt(s, p, "total") && SpaceSpan(s, p + 5, a) && OptColon(s, a, b) && SpaceSpan(s, b, c) &&
      LiteralAt(s, c, "rm") && SpaceSpan(s, c + 2, i) && NumeralSpan(s, i, j) && g == s[i..j];
    TotalRmCompleteAt(s, p, a, b, c, i, j);
  }

  lemma TotalRmCompleteAt(s: string, p: nat, a: nat, b: nat, c: nat, i: nat, j: nat)
    requires p <= |s| && LiteralAt(s, p, "total") && SpaceSpan(s, p + 5, a) && OptColon(s, a, b)
    requires SpaceSpan(s, b, c) && LiteralAt(s, c, "rm") && SpaceSpan(s, c + 2, i) && NumeralSpan(s, i, j)
    ensures MatchAt(TotalRm, s, p).Some? && s[i..j] <= MatchAt(TotalRm, s, p).value
  {
    LiteralStartsWith(s, c, "rm");
    AfterLabelLands(s, p + 5, a, b, c);
    NumeralEndLongest(s, i, j);
    SkipSpacesLands(s, c + 2, i);
    TotalRmLands(s, p, c, i);
    SlicePrefix(s, i, j, NumeralEnd(s, i));
  }

  lemma TotalRmLands(s: string, p: nat, c: nat, i: nat)
    requires p <= |s| && LiteralAt(s, p, "total") && c + 2 <= |s| && AfterLabel(s, p + 5) == c
    requires LiteralAt(s, c, "rm") && SkipSpaces(s, c + 2) == i && i < |s| && IsDigit(s[i])
    ensures MatchAt(TotalRm, s, p) == Some(s[i..NumeralEnd(s, i)])
  {
  }

  lemma SlicePrefix(s: string, i: nat, j: nat, e: nat)
    requires i <= j <= e <= |s|
    ensures s[i..j] <= s[i..e]
  {
    assert s[i..j] == s[i..e][..j - i];
  }

  lemma TotalBareComplete(s: string, p: nat, g: string)
    requires p <= |s| && TotalBareMatch(s, p, g)
    ensures MatchAt(TotalBare, s, p).Some? && g <= MatchAt(TotalBare, s, p).value
  {
    var a, b, i, j :|
      LiteralAt(s, p, "total") && SpaceSpan(s, p + 5, a) && OptColon(s, a, b) && SpaceSpan(s, b, i) &&
      NumeralSpan(s, i, j) && g == s[i..j];
    TotalBareCompleteAt(s, p, a, b, i, j);
  }

  lemma TotalBareCompleteAt(s: string, p: nat, a: nat, b: nat, i: nat, j: nat)
    requires p <= |s| && LiteralAt(s, p, "total") && SpaceSpan(s, p + 5, a) && OptColon(s, a, b)
    requires SpaceSpan(s, b, i) && NumeralSpan(s, i, j)
    ensures MatchAt(TotalBare, s, p).Some? && s[i..j] <= MatchAt(TotalBare, s, p).value
  {
    NumeralEndLongest(s, i, j);
    AfterLabelLands(s, p + 5, a, b, i);
    assert TotalBareAt(s, p) == GroupAt(s, i);
    assert GroupAt(s, i) == Some(s[i..NumeralEnd(s, i)]);
    SlicePrefix(s, i, j, NumeralEnd(s, i));
  }
}
