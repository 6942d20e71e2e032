/** Digit strings and the two JavaScript number conversions the source relies
    on: parseFloat of a digits-and-dots numeral, and Number()/parseFloat of the
    value of an <input type="number"> (an HTML valid floating-point number).
    Numbers are exact reals; JavaScript's binary rounding is not modelled. */
module Decimal {
  import opened Wrappers

  /** \d in a JavaScript regular expression without the u flag: ASCII digits only. */
  predicate IsDigit(c: char) { '0' <= c <= '9' }

  function DigitValue(c: char): (d: nat)
    requires IsDigit(c)
    ensures d < 10
  {
    c as int - '0' as int
  }

  function DigitChar(d: nat): (c: char)
    requires d < 10
    ensures IsDigit(c) && DigitValue(c) == d
  {
    ('0' as int + d) as char
  }

  predicate DigitsIn(s: string, i: int, j: int) {
    forall k :: i <= k < j && 0 <= k < |s| ==> IsDigit(s[k])
  }

  function Pow10(n: nat): (r: nat)
    ensures r >= 1
  {
    if n == 0 then 1 else 10 * Pow10(n - 1)
  }

  /** End of the maximal run of digits starting at i (a greedy \d*). */
  function DigitRunEnd(s: string, i: nat): (k: nat)
    requires i <= |s|
    ensures i <= k <= |s| && DigitsIn(s, i, k)
    ensures k == |s| || !IsDigit(s[k])
    decreases |s| - i
  {
    if i < |s| && IsDigit(s[i]) then DigitRunEnd(s, i + 1) else i
  }

  /** Every run of digits from i ends at or before the maximal one. */
  lemma DigitRunEndIsMaximal(s: string, i: nat, j: nat)
    requires i <= j <= |s| && DigitsIn(s, i, j)
    ensures j <= DigitRunEnd(s, i)
  {
  }

  /** A run of digits that stops before a non-digit is the maximal run. */
  lemma DigitRunEndLands(s: string, i: nat, k: nat)
    requires i <= k <= |s| && DigitsIn(s, i, k) && (k == |s| || !IsDigit(s[k]))
    ensures DigitRunEnd(s, i) == k
  {
    DigitRunEndIsMaximal(s, i, k);
  }

  /** The decimal value of the digits s[i..j], read most significant first. */
  function SpanValue(s: string, i: nat, j: nat): nat
    requires i <= j <= |s| && DigitsIn(s, i, j)
    decreases j - i
  {
    if j == i then 0 else SpanValue(s, i, j - 1) * 10 + DigitValue(s[j - 1])
  }

  /** The value of a digit span is zero exactly when every digit in it is '0'. */
  lemma {:induction false} SpanValueZero(s: string, i: nat, j: nat)
    requires i <= j <= |s| && DigitsIn(s, i, j)
    ensures SpanValue(s, i, j) == 0 <==> forall k :: i <= k < j ==> s[k] == '0'
    decreases j - i
  {
    if j > i {
      SpanValueZero(s, i, j - 1);
    }
  }

  /** SpanValue looks at nothing but the characters inside the span. */
  lemma {:induction false} SpanValueLocal(s: string, t: string, i: nat, j: nat, d: int)
    requires i <= j <= |s| && DigitsIn(s, i, j)
    requires 0 <= i + d && j + d <= |t|
    requires forall k :: i <= k < j ==> t[k + d] == s[k]
    ensures DigitsIn(t, i + d, j + d)
    ensures SpanValue(s, i, j) == SpanValue(t, i + d, j + d)
    decreases j - i
  {
    assert DigitsIn(t, i + d, j + d) by {
      forall k | i + d <= k < j + d && 0 <= k < |t| ensures IsDigit(t[k]) {
        assert t[(k - d) + d] == s[k - d];
      }
    }
    if j > i {
      SpanValueLocal(s, t, i, j - 1, d);
    }
  }

  /** The decimal numeral of n, as JavaScript's String(n) writes a
      non-negative integer. */
  function NatToString(n: nat): (r: string)
    ensures |r| > 0 && DigitsIn(r, 0, |r|)
    ensures SpanValue(r, 0, |r|) == n
    ensures r[0] != '0' || n == 0
    decreases n
  {
    if n < 10 then [DigitChar(n)]
    else
      var p := NatToString(n / 10);
      var r := p + [DigitChar(n % 10)];
      SpanValueLocal(p, r, 0, |p|, 0);
      r
  }

  /** A non-empty run of digits and dots that starts with a digit. */
  predicate IsNumeral(t: string) {
    |t| > 0 && IsDigit(t[0]) && forall k :: 0 <= k < |t| ==> IsDigit(t[k]) || t[k] == '.'
  }

  /** JavaScript's parseFloat on a numeral made of digits and dots that starts
      with a digit: the leading digits, then (after a dot) the digits up to the
      next non-digit, as an exact decimal. */
  function ParseFloatNumeral(t: string): (v: real)
    requires IsNumeral(t)
    ensures v >= 0.0
  {
    var a := DigitRunEnd(t, 0);
    var whole := SpanValue(t, 0, a) as real;
    if a < |t| && t[a] == '.' then
      var b := DigitRunEnd(t, a + 1);
      whole + SpanValue(t, a + 1, b) as real / Pow10(b - a - 1) as real
    else whole
  }

  /** A numeral with one dot reads as its whole part plus its fraction. */
  lemma ParseFloatNumeralSplit(t: string, a: nat)
    requires 0 < a < |t| && t[a] == '.' && DigitsIn(t, 0, a) && DigitsIn(t, a + 1, |t|)
    ensures ParseFloatNumeral(t) ==
      SpanValue(t, 0, a) as real + SpanValue(t, a + 1, |t|) as real / Pow10(|t| - a - 1) as real
  {
    DigitRunEndLands(t, 0, a);
    DigitRunEndLands(t, a + 1, |t|);
  }

  /** A numeral parses to zero exactly when every digit parseFloat reads is '0'. */
  lemma ParseFloatNumeralZero(t: string)
    requires IsNumeral(t)
    ensures var a := DigitRunEnd(t, 0);
            var e := if a < |t| && t[a] == '.' then DigitRunEnd(t, a + 1) else a;
            ParseFloatNumeral(t) == 0.0 <==> forall k :: 0 <= k < e && k != a ==> t[k] == '0'
  {
    var a := DigitRunEnd(t, 0);
    SpanValueZero(t, 0, a);
    if a < |t| && t[a] == '.' {
      var b := DigitRunEnd(t, a + 1);
      SpanValueZero(t, a + 1, b);
      var f := SpanValue(t, a + 1, b) as real / Pow10(b - a - 1) as real;
      assert f >= 0.0;
      assert f == 0.0 <==> SpanValue(t, a + 1, b) == 0;
    }
  }

  /** Number(s), and parseFloat(s), for the value of an <input type="number">.
      Such a value is the empty string or an HTML valid floating-point number:
      an optional '-', digits and/or a '.' followed by digits, and an optional
      exponent. For every string outside that grammar the result is None (NaN). */
  function ParseInputNumber(s: string): (r: Option<real>)
    ensures r.Some? ==> |s| > 0
    ensures r.Some? && s[0] != '-' ==> r.value >= 0.0
    ensures r.Some? && s[0] == '-' ==> r.value <= 0.0
  {
    var neg := |s| > 0 && s[0] == '-';
    match UnsignedInput(s, if neg then 1 else 0)
    case None => None
    case Some(m) => Some(if neg then -m else m)
  }

  /** The value of s[i0..] read as an unsigned valid floating-point number. */
  function UnsignedInput(s: string, i0: nat): (r: Option<real>)
    requires i0 <= |s|
    ensures r.Some? ==> r.value >= 0.0 && i0 < |s|
  {
    var a := DigitRunEnd(s, i0);
    var dot := a < |s| && s[a] == '.';
    var b := if dot then DigitRunEnd(s, a + 1) else a;
    var mantissaOk := if dot then b > a + 1 else a > i0;
    if !mantissaOk then None
    else
      var frac := if dot then SpanValue(s, a + 1, b) as real / Pow10(b - a - 1) as real else 0.0;
      var mantissa := SpanValue(s, i0, a) as real + frac;
      if b == |s| then Some(mantissa)
      else if s[b] != 'e' && s[b] != 'E' then None
      else
        var c := if b + 1 < |s| && (s[b + 1] == '-' || s[b + 1] == '+') then b + 2 else b + 1;
        var e := DigitRunEnd(s, c);
        if e == c || e != |s| then None
        else if c == b + 2 && s[b + 1] == '-' then Some(mantissa / Pow10(SpanValue(s, c, e)) as real)
        else Some(mantissa * Pow10(SpanValue(s, c, e)) as real)
  }

  /** Writing a whole number and reading it back as an input value gives it back. */
  lemma ParseInputNumberOfNat(n: nat)
    ensures ParseInputNumber(NatToString(n)) == Some(n as real)
  {
    var s := NatToString(n);
    assert s[0] != '-';
    var a := DigitRunEnd(s, 0);
    DigitRunEndIsMaximal(s, 0, |s|);
  }

  /** A numeral of digits with at most one dot, followed by at least one digit,
      reads in the number field as parseFloat reads it in the OCR text. */
  lemma ParseInputNumberOfNumeral(t: string, a: nat)
    requires 0 < a <= |t| && DigitsIn(t, 0, a)
    requires a == |t| || (t[a] == '.' && a + 1 < |t| && DigitsIn(t, a + 1, |t|))
    ensures IsNumeral(t)
    ensures ParseInputNumber(t) == Some(ParseFloatNumeral(t))
  {
    DigitRunEndLands(t, 0, a);
    if a < |t| {
      DigitRunEndLands(t, a + 1, |t|);
      ParseFloatNumeralSplit(t, a);
    }
  }

  /** "0.01", the smallest positive price of two decimals, reads as 0.01. */
  lemma InputCent(s: string)
    requires s == "0.01"
    ensures ParseInputNumber(s) == Some(0.01)
  {
    ParseInputNumberOfNumeral(s, 1);
    ParseFloatNumeralSplit(s, 1);
    assert SpanValue(s, 0, 1) == 0 && SpanValue(s, 2, 4) == 1;
  }

  /** A leading dot is allowed: ".5" reads as 0.5. */
  lemma InputLeadingDot(s: string)
    requires s == ".5"
    ensures ParseInputNumber(s) == Some(0.5)
  {
    DigitRunEndLands(s, 0, 0);
    DigitRunEndLands(s, 1, 2);
    assert SpanValue(s, 1, 2) == 5;
  }

  /** An exponent scales the mantissa: "1e2" reads as 100 and "1e-2" as 0.01. */
  lemma InputExponent(up: string, down: string)
    requires up == "1e2" && down == "1e-2"
    ensures ParseInputNumber(up) == Some(100.0)
    ensures ParseInputNumber(down) == Some(0.01)
  {
    DigitRunEndLands(up, 0, 1);
    DigitRunEndLands(up, 2, 3);
    assert SpanValue(up, 0, 1) == 1 && SpanValue(up, 2, 3) == 2;
    DigitRunEndLands(down, 0, 1);
    DigitRunEndLands(down, 3, 4);
    assert SpanValue(down, 0, 1) == 1 && SpanValue(down, 3, 4) == 2;
  }

  /** A minus sign negates: "-0.5" reads as -0.5. */
  lemma InputNegative(s: string)
    requires s == "-0.5"
    ensures ParseInputNumber(s) == Some(-0.5)
  {
    DigitRunEndLands(s, 1, 2);
    DigitRunEndLands(s, 3, 4);
    assert SpanValue(s, 1, 2) == 0 && SpanValue(s, 3, 4) == 5;
  }

  /** A trailing dot, letters and the empty field are not numbers. */
  lemma InputNotANumber(trailingDot: string, letters: string)
    requires trailingDot == "5." && letters == "abc"
    ensures ParseInputNumber(trailingDot).None?
    ensures ParseInputNumber(letters).None?
    ensures ParseInputNumber("").None?
  {
    DigitRunEndLands(trailingDot, 0, 1);
    DigitRunEndLands(trailingDot, 2, 2);
    DigitRunEndLands(letters, 0, 0);
  }
}
