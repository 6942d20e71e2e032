/** The price-extraction loop of capture/handleGallerySelect
    (app/components/Camera.js): String.prototype.match of each pattern in
    order, first matching pattern wins, group 1 goes through parseFloat. */
module PriceExtractor {
  import opened Wrappers
  import opened Decimal
  import opened PricePatterns

  /** A match: where it starts and its group 1. */
  datatype Found = Found(pos: nat, group: string)

  /** The outcome of trying the pattern at every start position 0..|s|. */
  function Attempts(pat: Pattern, s: string): (a: seq<Option<string>>)
    ensures |a| == |s| + 1
    ensures forall q :: 0 <= q <= |s| ==> a[q] == MatchAt(pat, s, q)
  {
    seq(|s| + 1, q requires 0 <= q <= |s| => MatchAt(pat, s, q))
  }

  /** The first successful attempt from position p on. */
  function FirstSomeFrom(a: seq<Option<string>>, p: nat): (r: Option<Found>)
    requires p <= |a|
    ensures r.Some? ==> p <= r.value.pos < |a| && a[r.value.pos] == Some(r.value.group)
    ensures r.Some? ==> forall q :: p <= q < r.value.pos ==> a[q].None?
    ensures r.None? ==> forall q :: p <= q < |a| ==> a[q].None?
    decreases |a| - p
  {
    if p == |a| then None
    else match a[p]
      case Some(g) => Some(Found(p, g))
      case None => FirstSomeFrom(a, p + 1)
  }

  /** text.match(pattern) for a pattern without the g flag: the engine tries
      start positions from left to right and reports the first match. */
  function Search(pat: Pattern, s: string): (r: Option<Found>)
    ensures r.Some? ==> r.value.pos <= |s| && MatchAt(pat, s, r.value.pos) == Some(r.value.group)
    ensures r.Some? ==> forall q :: 0 <= q < r.value.pos ==> MatchAt(pat, s, q).None?
    ensures r.None? ==> forall q :: 0 <= q <= |s| ==> MatchAt(pat, s, q).None?
    ensures r.Some? ==> IsNumeral(r.value.group)
  {
    FirstSomeFrom(Attempts(pat, s), 0)
  }

  /** Search reports the leftmost match of the regular expression, and at that
      position the longest group; no match anywhere gives null. */
  lemma SearchIsLeftmostMatch(pat: Pattern, s: string)
    ensures Search(pat, s).Some? ==>
      var f := Search(pat, s).value;
      && RegexMatch(pat, s, f.pos, f.group)
      && (forall g :: RegexMatch(pat, s, f.pos, g) ==> g <= f.group)
      && (forall q: nat, g :: q < f.pos && RegexMatch(pat, s, q, g) ==> false)
    ensures Search(pat, s).None? ==> forall q: nat, g :: q <= |s| ==> !RegexMatch(pat, s, q, g)
  {
    match Search(pat, s)
    case Some(f) =>
      forall g | RegexMatch(pat, s, f.pos, g) ensures g <= f.group {
        MatchAtComplete(pat, s, f.pos, g);
      }
      forall q: nat, g | q < f.pos && RegexMatch(pat, s, q, g) ensures false {
        MatchAtComplete(pat, s, q, g);
      }
    case None =>
      forall q: nat, g | q <= |s| ensures !RegexMatch(pat, s, q, g) {
        if RegexMatch(pat, s, q, g) {
          MatchAtComplete(pat, s, q, g);
        }
      }
  }

  /** The deciding pattern: its index in PriceOrder and its match. */
  datatype Decision = Decision(index: nat, found: Found)

  function FirstMatchFrom(s: string, k: nat): (r: Option<Decision>)
    requires k <= |PriceOrder|
    ensures r.Some? ==> k <= r.value.index < |PriceOrder| && Search(PriceOrder[r.value.index], s) == Some(r.value.found)
    ensures r.Some? ==> forall j :: k <= j < r.value.index ==> Search(PriceOrder[j], s).None?
    ensures r.None? ==> forall j :: k <= j < |PriceOrder| ==> Search(PriceOrder[j], s).None?
    decreases |PriceOrder| - k
  {
    if k == |PriceOrder| then None
    else
      var found := Search(PriceOrder[k], s);
      if found.Some? then Some(Decision(k, found.value)) else FirstMatchFrom(s, k + 1)
  }

  /** The first pattern, in the listed order, that matches anywhere. */
  function FirstMatch(s: string): (r: Option<Decision>)
    ensures r.Some? ==> r.value.index < |PriceOrder| && Search(PriceOrder[r.value.index], s) == Some(r.value.found)
    ensures r.Some? ==> forall j :: 0 <= j < r.value.index ==> Search(PriceOrder[j], s).None?
    ensures r.None? <==> forall j :: 0 <= j < |PriceOrder| ==> Search(PriceOrder[j], s).None?
  {
    FirstMatchFrom(s, 0)
  }

  /** The value of `price` after the loop: null, or parseFloat of group 1 of
      the deciding pattern's leftmost match. */
  function ExtractedPrice(text: string): (r: Option<real>)
    ensures r.Some? ==> r.value >= 0.0
  {
    match FirstMatch(text)
    case None => None
    case Some(d) => Some(ParseFloatNumeral(d.found.group))
  }

  /** The price is null exactly when no pattern matches; otherwise it is
      parseFloat of the group of the first pattern, in the listed order, that
      matches. */
  lemma ExtractedPriceIsFirstPattern(text: string)
    ensures ExtractedPrice(text).None? <==> forall k :: 0 <= k < |PriceOrder| ==> Search(PriceOrder[k], text).None?
    ensures ExtractedPrice(text).Some? ==>
      (exists k :: 0 <= k < |PriceOrder| && Search(PriceOrder[k], text).Some? &&
        (forall j :: 0 <= j < k ==> Search(PriceOrder[j], text).None?) &&
        ExtractedPrice(text).value == ParseFloatNumeral(Search(PriceOrder[k], text).value.group))
  {
    if FirstMatch(text).Some? {
      var k := FirstMatch(text).value.index;
      assert Search(PriceOrder[k], text).Some?;
    }
  }

  /** The loop over pricePatterns with its early break. */
  method ExtractPrice(text: string) returns (price: Option<real>)
    ensures price == ExtractedPrice(text)
  {
    price := None;
    var i := 0;
    while i < |PriceOrder|
      invariant 0 <= i <= |PriceOrder|
      invariant price.None?
      invariant forall j :: 0 <= j < i ==> Search(PriceOrder[j], text).None?
      invariant FirstMatch(text) == FirstMatchFrom(text, i)
    {
      var m := Search(PriceOrder[i], text);
      if m.Some? {
        price := Some(ParseFloatNumeral(m.value.group));
        break;
      }
      i := i + 1;
    }
  }

  /** Stated about the scanner alone: a match of TotalRm at p contains a match
      of RmPrefix, with the same group, where its "RM" starts. */
  lemma TotalRmContainsRmPrefix(s: string, p: nat)
    requires p <= |s| && MatchAt(TotalRm, s, p).Some?
    ensures p + 5 <= |s| && MatchAt(RmPrefix, s, AfterLabel(s, p + 5)) == MatchAt(TotalRm, s, p)
  {
  }

  /** Pattern 3 (Total:RM...) never decides the price: whatever it matches,
      pattern 1 (RM...) matches first. */
  lemma TotalRmNeverDecides(text: string)
    ensures FirstMatch(text).Some? ==> PriceOrder[FirstMatch(text).value.index] != TotalRm
  {
    var r := FirstMatch(text);
    if r.Some? && r.value.index == 2 {
      var p := r.value.found.pos;
      TotalRmContainsRmPrefix(text, p);
    }
  }

  /** Every pattern's group starts with a digit of the text at hand. */
  lemma MatchAtNeedsDigit(pat: Pattern, s: string, p: nat)
    requires p <= |s| && MatchAt(pat, s, p).Some?
    ensures exists k :: 0 <= k < |s| && IsDigit(s[k])
  {
    var i: nat := match pat
      case RmPrefix => SkipSpaces(s, p + 2)
      case RmSuffix => p
      case TotalRm => SkipSpaces(s, AfterLabel(s, p + 5) + 2)
      case TotalBare => AfterLabel(s, p + 5)
      case Bare => p;
    assert i < |s| && IsDigit(s[i]);
  }

  /** A price (possibly zero) is extracted exactly when the text contains a
      digit: with no digit no pattern matches, and with one, pattern 5 does. */
  lemma PriceIffDigit(text: string)
    ensures ExtractedPrice(text).Some? <==> exists k :: 0 <= k < |text| && IsDigit(text[k])
  {
    if ExtractedPrice(text).Some? {
      var d := FirstMatch(text).value;
      MatchAtNeedsDigit(PriceOrder[d.index], text, d.found.pos);
    }
    if k :| 0 <= k < |text| && IsDigit(text[k]) {
      DigitGivesPrice(text, k);
    }
  }

  /** A digit anywhere gives pattern 5 a match, so some pattern decides. */
  lemma DigitGivesPrice(text: string, k: nat)
    requires k < |text| && IsDigit(text[k])
    ensures ExtractedPrice(text).Some?
  {
    assert MatchAt(Bare, text, k).Some?;
    assert Search(PriceOrder[4], text).Some?;
  }

  /** Patterns 1 to 3 all need an "RM"; a text without the letter r has none. */
  lemma NoRmNoCurrencyPattern(text: string, pat: Pattern)
    requires forall k :: 0 <= k < |text| ==> text[k] != 'r' && text[k] != 'R'
    requires pat == RmPrefix || pat == RmSuffix || pat == TotalRm
    ensures Search(pat, text).None?
  {
    if Search(pat, text).Some? {
      NoRmNoMatchAt(text, pat, Search(pat, text).value.pos);
    }
  }

  lemma NoRmNoMatchAt(text: string, pat: Pattern, p: nat)
    requires forall k :: 0 <= k < |text| ==> text[k] != 'r' && text[k] != 'R'
    requires pat == RmPrefix || pat == RmSuffix || pat == TotalRm
    requires p <= |text|
    ensures MatchAt(pat, text, p).None?
  {
    match pat
    case RmPrefix =>
      if LiteralAt(text, p, "rm") {
        LiteralStartsWith(text, p, "rm");
      }
    case RmSuffix =>
      if p < |text| && IsDigit(text[p]) && LiteralAt(text, SkipSpaces(text, NumeralEnd(text, p)), "rm") {
        LiteralStartsWith(text, SkipSpaces(text, NumeralEnd(text, p)), "rm");
      }
    case TotalRm =>
      if LiteralAt(text, p, "total") && LiteralAt(text, AfterLabel(text, p + 5), "rm") {
        LiteralStartsWith(text, AfterLabel(text, p + 5), "rm");
      }
  }

  /** Positions before the first letter that can start a match (r for
      RmPrefix, t for the Total patterns) hold no match. */
  lemma NoMatchBeforeLetter(pat: Pattern, s: string, q: nat)
    requires q <= |s| && (pat == RmPrefix || pat == TotalRm || pat == TotalBare)
    requires forall k :: 0 <= k < q ==> if pat == RmPrefix then s[k] != 'r' && s[k] != 'R' else s[k] != 't' && s[k] != 'T'
    ensures forall k :: 0 <= k < q ==> MatchAt(pat, s, k).None?
  {
    forall k | 0 <= k < q ensures MatchAt(pat, s, k).None? {
      if MatchAt(pat, s, k).Some? {
        if pat == RmPrefix {
          LiteralStartsWith(s, k, "rm");
        } else {
          LiteralStartsWith(s, k, "total");
        }
      }
    }
  }

  /** A match at p with none before it is what the search reports. */
  lemma SearchFinds(pat: Pattern, s: string, p: nat, g: string)
    requires p <= |s| && MatchAt(pat, s, p) == Some(g)
    requires forall q :: 0 <= q < p ==> MatchAt(pat, s, q).None?
    ensures Search(pat, s) == Some(Found(p, g))
  {
  }

  /** The first pattern that matches decides, wherever the later ones match. */
  lemma {:induction false} DecidedFrom(s: string, i: nat, k: nat, f: Found)
    requires i <= k < |PriceOrder| && Search(PriceOrder[k], s) == Some(f)
    requires forall j :: i <= j < k ==> Search(PriceOrder[j], s).None?
    ensures FirstMatchFrom(s, i) == Some(Decision(k, f))
    decreases k - i
  {
    if i < k {
      DecidedFrom(s, i + 1, k, f);
    }
  }

  /** So in a text without the letter r only the Total label or a bare
      number can decide. */
  lemma NoRmDecidesByTotal(text: string)
    requires forall k :: 0 <= k < |text| ==> text[k] != 'r' && text[k] != 'R'
    ensures forall j :: 0 <= j < 3 ==> Search(PriceOrder[j], text).None?
  {
    NoRmNoCurrencyPattern(text, RmPrefix);
    NoRmNoCurrencyPattern(text, RmSuffix);
    NoRmNoCurrencyPattern(text, TotalRm);
  }

  /** Within the deciding pattern the leftmost match wins: the later amount is ignored. */
  lemma FirstOfTwoPrefixedAmountsDecision(s: string)
    requires s == "RM45.00 RM12.00"
    ensures FirstMatch(s) == Some(Decision(0, Found(0, "45.00")))
  {
    assert LiteralAt(s, 0, "rm");
    DigitRunEndLands(s, 2, 4);
    DigitRunEndLands(s, 5, 7);
    assert s[2..7] == "45.00";
    SearchFinds(RmPrefix, s, 0, "45.00");
    DecidedFrom(s, 0, 0, Found(0, "45.00"));
  }

  lemma FirstOfTwoPrefixedAmounts(s: string)
    requires s == "RM45.00 RM12.00"
    ensures ExtractedPrice(s) == Some(45.0)
  {
    FirstOfTwoPrefixedAmountsDecision(s);
    ReadsFortyFive("45.00");
  }

  lemma ReadsFortyFive(g: string)
    requires g == "45.00"
    ensures ParseFloatNumeral(g) == 45.0
  {
    ParseFloatNumeralSplit(g, 2);
    assert SpanValue(g, 0, 2) == 45 && SpanValue(g, 3, 5) == 0;
  }

  /** A "Total: RM" phrase is decided by pattern 1, ahead of any bare number. */
  lemma TotalPhraseBeatsBareNumberDecision(s: string)
    requires s == "Total: RM 12.50 x3"
    ensures FirstMatch(s) == Some(Decision(0, Found(7, "12.50")))
  {
    NoMatchBeforeLetter(RmPrefix, s, 7);
    assert LiteralAt(s, 7, "rm");
    SkipSpacesLands(s, 9, 10);
    DigitRunEndLands(s, 10, 12);
    DigitRunEndLands(s, 13, 15);
    assert s[10..15] == "12.50";
    SearchFinds(RmPrefix, s, 7, "12.50");
    DecidedFrom(s, 0, 0, Found(7, "12.50"));
  }

  lemma TotalPhraseBeatsBareNumber(s: string)
    requires s == "Total: RM 12.50 x3"
    ensures ExtractedPrice(s) == Some(12.5)
  {
    TotalPhraseBeatsBareNumberDecision(s);
    ReadsTwelveFifty("12.50");
  }

  lemma ReadsTwelveFifty(g: string)
    requires g == "12.50"
    ensures ParseFloatNumeral(g) == 12.5
  {
    ParseFloatNumeralSplit(g, 2);
    assert SpanValue(g, 0, 2) == 12 && SpanValue(g, 3, 5) == 50;
  }

  /** Without an RM anywhere, a Total label decides over a bare number before it. */
  lemma TotalLabelBeatsEarlierBareNumberDecision(s: string)
    requires s == "Box 2 Total 8.90"
    ensures FirstMatch(s) == Some(Decision(3, Found(6, "8.90")))
  {
    NoRmDecidesByTotal(s);
    TotalLabelSearch(s);
    DecidedFrom(s, 0, 3, Found(6, "8.90"));
  }

  lemma TotalLabelSearch(s: string)
    requires s == "Box 2 Total 8.90"
    ensures Search(TotalBare, s) == Some(Found(6, "8.90"))
  {
    NoMatchBeforeLetter(TotalBare, s, 6);
    assert LiteralAt(s, 6, "total");
    SkipSpacesLands(s, 11, 12);
    assert AfterLabel(s, 11) == 12;
    DigitRunEndLands(s, 12, 13);
    DigitRunEndLands(s, 14, 16);
    assert s[12..16] == "8.90";
    SearchFinds(TotalBare, s, 6, "8.90");
  }

  lemma TotalLabelBeatsEarlierBareNumber(s: string)
    requires s == "Box 2 Total 8.90"
    ensures ExtractedPrice(s) == Some(8.9)
  {
    TotalLabelBeatsEarlierBareNumberDecision(s);
    ReadsEightNinety("8.90");
  }

  lemma ReadsEightNinety(g: string)
    requires g == "8.90"
    ensures ParseFloatNumeral(g) == 8.9
  {
    ParseFloatNumeralSplit(g, 1);
    assert SpanValue(g, 0, 1) == 8 && SpanValue(g, 2, 4) == 90;
  }

  /** An amount of zero is reported as such (the capture handler then treats it
      as "no price"), even though a later amount exists. */
  lemma ZeroAmountFirstDecision(s: string)
    requires s == "RM 0.00 RM 12.50"
    ensures FirstMatch(s) == Some(Decision(0, Found(0, "0.00")))
  {
    assert LiteralAt(s, 0, "rm");
    SkipSpacesLands(s, 2, 3);
    DigitRunEndLands(s, 3, 4);
    DigitRunEndLands(s, 5, 7);
    assert s[3..7] == "0.00";
    SearchFinds(RmPrefix, s, 0, "0.00");
    DecidedFrom(s, 0, 0, Found(0, "0.00"));
  }

  lemma ZeroAmountFirst(s: string)
    requires s == "RM 0.00 RM 12.50"
    ensures ExtractedPrice(s) == Some(0.0)
  {
    ZeroAmountFirstDecision(s);
    ReadsZero("0.00");
  }

  lemma ReadsZero(g: string)
    requires g == "0.00"
    ensures ParseFloatNumeral(g) == 0.0
  {
    ParseFloatNumeralSplit(g, 1);
    assert SpanValue(g, 0, 1) == 0 && SpanValue(g, 2, 4) == 0;
  }
}
