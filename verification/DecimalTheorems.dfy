/**
What plain decimal text promises: reading a published text gives back the value,
a value has one text, and the strict reader accepts exactly the published texts.
*/
module DecimalTheorems {
  import opened Decimals
  import opened DecimalText
  import opened Options
  import opened Rounding

  // ---------- digits and numbers ----------

  lemma {:induction false} NumberOfDigits(n: nat)
    ensures Number(Digits(n)) == n
    ensures n > 0 ==> Digits(n)[0] != '0'
  {
    if n >= 10 {
      NumberOfDigits(n / 10);
      assert Digits(n)[..|Digits(n)| - 1] == Digits(n / 10);
    } else {
      assert Digits(n)[..0] == [];
    }
  }

  lemma {:induction false} DigitsOfNumber(s: string)
    requires AllDigits(s) && s != [] && s[0] != '0'
    ensures Digits(Number(s)) == s && Number(s) > 0
  {
    var front := s[..|s| - 1];
    if front == [] {
      assert Number(s) == NumberOf(s[0]);
    } else {
      DigitsOfNumber(front);
      assert Number(s) / 10 == Number(front) && Number(s) % 10 == NumberOf(s[|s| - 1]);
      assert s == front + [s[|s| - 1]];
    }
  }

  lemma NumberAppendsZero(s: string)
    requires AllDigits(s)
    ensures AllDigits(s + "0") && Number(s + "0") == 10 * Number(s)
  {
    assert (s + "0")[..|s|] == s;
  }

  lemma Tenfolds(c: nat, p: nat)
    ensures 10 * (c * p) == c * (10 * p)
  {
  }

  lemma {:induction false} NumberShifts(s: string, k: nat)
    requires AllDigits(s)
    ensures Number(s + Zeros(k)) == Number(s) * PowerOfTen(k)
  {
    if k == 0 {
      assert s + Zeros(0) == s;
    } else {
      NumberShifts(s, k - 1);
      NumberAppendsZero(s + Zeros(k - 1));
      assert s + Zeros(k) == (s + Zeros(k - 1)) + "0";
      Tenfolds(Number(s), PowerOfTen(k - 1));
      hide Number;
    }
  }

  lemma {:induction false} NumberIgnoresLeadingZeros(k: nat, s: string)
    requires AllDigits(s)
    ensures Number(Zeros(k) + s) == Number(s)
  {
    if s == [] {
      assert Zeros(k) + s == [] + Zeros(k);
      NumberShifts([], k);
    } else {
      NumberIgnoresLeadingZeros(k, s[..|s| - 1]);
      assert (Zeros(k) + s)[..k + |s| - 1] == Zeros(k) + s[..|s| - 1];
    }
  }

  /** Writing a number back and padding it restores the digits it was read from. */
  lemma {:induction false} PaddingRestores(s: string)
    requires AllDigits(s) && Number(s) > 0
    ensures |Digits(Number(s))| <= |s|
    ensures s == Zeros(|s| - |Digits(Number(s))|) + Digits(Number(s))
  {
    if s[0] != '0' {
      DigitsOfNumber(s);
    } else {
      assert s == Zeros(1) + s[1..];
      NumberIgnoresLeadingZeros(1, s[1..]);
      PaddingRestores(s[1..]);
      var digits := Digits(Number(s));
      assert s == Zeros(1) + (Zeros(|s| - 1 - |digits|) + digits);
      assert Zeros(1) + Zeros(|s| - 1 - |digits|) == Zeros(|s| - |digits|);
    }
  }

  lemma PaddedReads(c: nat, places: nat)
    ensures Number(Padded(c, places)) == c
  {
    NumberOfDigits(c);
    if |Digits(c)| <= places {
      NumberIgnoresLeadingZeros(places + 1 - |Digits(c)|, Digits(c));
    }
  }

  // ---------- trimming ----------

  lemma {:induction false} TrimZerosShape(s: string)
    ensures TrimRight(s, '0') <= s
    ensures s == TrimRight(s, '0') + Zeros(|s| - |TrimRight(s, '0')|)
    ensures TrimRight(s, '0') != [] ==> TrimRight(s, '0')[|TrimRight(s, '0')| - 1] != '0'
  {
    if s != [] && s[|s| - 1] == '0' {
      var front := s[..|s| - 1];
      TrimZerosShape(front);
      var trimmed := TrimRight(front, '0');
      assert s == front + Zeros(1);
      assert Zeros(|front| - |trimmed|) + Zeros(1) == Zeros(|s| - |trimmed|);
    }
  }

  lemma {:induction false} TrimUnder(prefix: string, s: string)
    requires prefix != [] && prefix[|prefix| - 1] != '0'
    ensures TrimRight(prefix + s, '0') == prefix + TrimRight(s, '0')
  {
    if s != [] && s[|s| - 1] == '0' {
      TrimUnder(prefix, s[..|s| - 1]);
      assert (prefix + s)[..|prefix + s| - 1] == prefix + s[..|s| - 1];
    } else if s == [] {
      assert prefix + s == prefix;
    }
  }

  function SignText(negative: bool): string { if negative then "-" else "" }

  /** Trimming removes the trailing zeros of the fraction, and the point with the last of them. */
  lemma TrimmedComposed(negative: bool, whole: string, fraction: string)
    requires AllDigits(whole) && whole != [] && AllDigits(fraction)
    ensures AllDigits(TrimRight(fraction, '0'))
    ensures Trimmed(Compose(negative, whole, fraction)) == Compose(negative, whole, TrimRight(fraction, '0'))
  {
    hide TrimRight, Trimmed, SignText;
    var head := SignText(negative) + whole;
    var kept := TrimRight(fraction, '0');
    TrimZerosShape(fraction);
    ComposeParts(negative, whole, fraction);
    ComposeParts(negative, whole, kept);
    assert head[|head| - 1] == whole[|whole| - 1];
    if fraction == [] {
      NoPoint(negative, whole);
    } else {
      TrimmedPoint(head, fraction);
    }
  }

  lemma ComposeParts(negative: bool, whole: string, fraction: string)
    ensures Compose(negative, whole, fraction)
         == if fraction == [] then SignText(negative) + whole else SignText(negative) + whole + "." + fraction
  {
  }

  lemma NoPoint(negative: bool, whole: string)
    requires AllDigits(whole)
    ensures Trimmed(SignText(negative) + whole) == SignText(negative) + whole
  {
    assert '.' !in whole;
  }

  lemma TrimmedPoint(head: string, fraction: string)
    requires head != [] && head[|head| - 1] != '.' && AllDigits(fraction)
    ensures var kept := TrimRight(fraction, '0');
      Trimmed((head + ".") + fraction) == if kept == [] then head else (head + ".") + kept
  {
    var stem := head + ".";
    var kept := TrimRight(fraction, '0');
    assert (stem + fraction)[|head|] == '.';
    TrimUnder(stem, fraction);
    TrimZerosShape(fraction);
    if kept == [] {
      assert TrimRight(stem + fraction, '0') == stem;
      assert stem[..|stem| - 1] == head;
      assert TrimRight(stem, '.') == TrimRight(head, '.') == head;
    } else {
      assert (stem + kept)[|stem + kept| - 1] == kept[|kept| - 1];
    }
  }

  // ---------- splitting a composed text ----------

  lemma {:induction false} PointAfter(s: string, rest: string)
    requires AllDigits(s)
    ensures PointAt(s + rest) == |s| + PointAt(rest)
  {
    if s == [] {
      assert s + rest == rest;
    } else {
      PointAfter(s[1..], rest);
      assert (s + rest)[1..] == s[1..] + rest;
    }
  }

  lemma ComposeSplits(negative: bool, whole: string, fraction: string)
    requires AllDigits(whole) && whole != [] && AllDigits(fraction)
    ensures var t := Compose(negative, whole, fraction);
      && Numeral(t) && Negative(t) == negative
      && WholeOf(t) == whole && FractionOf(t) == fraction && HasPoint(t) == (fraction != [])
  {
    var t := Compose(negative, whole, fraction);
    var tail := if fraction == [] then [] else "." + fraction;
    assert t == SignText(negative) + (whole + tail);
    assert Negative(t) == negative;
    assert Body(t) == whole + tail;
    PointAfter(whole, tail);
    assert WholeOf(t) == whole;
    if fraction != [] {
      assert tail[0] == '.';
      assert Body(t)[|whole| + 1..] == fraction;
    }
  }

  // ---------- reading back ----------

  lemma WholeFraction(d: Decimal)
    ensures d.exponent < 0 ==> Number(Whole(d) + Fraction(d)) == d.coefficient && |Fraction(d)| == -d.exponent
    ensures d.exponent >= 0 ==>
      Number(Whole(d)) == d.coefficient * PowerOfTen(d.exponent) && Fraction(d) == []
  {
    if d.exponent >= 0 {
      NumberShifts(Digits(d.coefficient), d.exponent);
      NumberOfDigits(d.coefficient);
    } else {
      var padded := Padded(d.coefficient, -d.exponent);
      assert Whole(d) + Fraction(d) == padded;
      PaddedReads(d.coefficient, -d.exponent);
    }
  }

  /** What the trimmed text of a decimal spells. */
  function Spelled(d: Decimal): string { Trimmed(Rendered(d)) }

  lemma SpelledSplits(d: Decimal)
    ensures var t := Spelled(d);
      && Numeral(t) && Negative(t) == d.negative && WholeOf(t) == Whole(d)
      && FractionOf(t) == TrimRight(Fraction(d), '0') && HasPoint(t) == (FractionOf(t) != [])
      && t == Compose(d.negative, WholeOf(t), FractionOf(t))
  {
    TrimmedComposed(d.negative, Whole(d), Fraction(d));
    ComposeSplits(d.negative, Whole(d), TrimRight(Fraction(d), '0'));
  }

  /** Reading the text of a decimal gives back its value. */
  lemma SpelledReadsBack(d: Decimal)
    ensures Numeral(Spelled(d)) && Value(Read(Spelled(d))) == Value(d)
    ensures Read(Spelled(d)).negative == d.negative
  {
    hide Value, Number, Spelled, Whole, Fraction, TrimRight, Zeros, PowerOfTen, PointAt, Body, Compose, DigitCount;
    SpelledSplits(d);
    WholeFraction(d);
    var kept := TrimRight(Fraction(d), '0');
    TrimZerosShape(Fraction(d));
    var k := |Fraction(d)| - |kept|;
    var read := Read(Spelled(d));
    assert Whole(d) + Fraction(d) == (Whole(d) + kept) + Zeros(k);
    NumberShifts(Whole(d) + kept, k);
    ShiftKeepsValue(read, k);
    if d.exponent >= 0 {
      assert Whole(d) + Fraction(d) == Whole(d);
      ShiftKeepsValue(d, d.exponent);
    }
  }

  // ---------- one value, one text ----------

  lemma DigitsOfTenfold(c: nat)
    requires c > 0
    ensures Digits(10 * c) == Digits(c) + "0" && DigitCount(10 * c) == DigitCount(c) + 1
  {
    assert (10 * c) / 10 == c && (10 * c) % 10 == 0;
  }

  function Tenfold(d: Decimal): Decimal { Decimal(d.negative, 10 * d.coefficient, d.exponent - 1) }

  /** One more zero on the coefficient does not change the text. */
  lemma TenfoldSpelling(d: Decimal)
    requires d.coefficient > 0
    ensures Spelled(Tenfold(d)) == Spelled(d) && Adjusted(Tenfold(d)) == Adjusted(d)
  {
    hide Trimmed, TrimRight, Compose, Whole, Fraction, Digits;
    TrimmedComposed(d.negative, Whole(d), Fraction(d));
    TrimmedComposed(d.negative, Whole(Tenfold(d)), Fraction(Tenfold(d)));
    DigitsOfTenfold(d.coefficient);
    TenfoldParts(d);
  }

  lemma TenfoldParts(d: Decimal)
    requires d.coefficient > 0
    ensures Whole(Tenfold(d)) == Whole(d)
    ensures TrimRight(Fraction(Tenfold(d)), '0') == TrimRight(Fraction(d), '0')
  {
    if d.exponent > 0 {
      DigitsOfTenfold(d.coefficient);
      assert Digits(d.coefficient) + "0" + Zeros(d.exponent - 1) == Digits(d.coefficient) + Zeros(d.exponent);
    } else {
      TrimOneZero(Fraction(d));
      TenfoldPlaces(d);
    }
  }

  lemma TenfoldPlaces(d: Decimal)
    requires d.coefficient > 0 && d.exponent <= 0
    ensures Whole(Tenfold(d)) == Whole(d) && Fraction(Tenfold(d)) == Fraction(d) + "0"
  {
    hide Whole, Fraction, Padded, Digits, DigitCount, PowerOfTen;
    SplitAtPoint(d);
    SplitAtPoint(Tenfold(d));
    TenfoldPadding(d.coefficient, -d.exponent);
    AppendSplits(Padded(d.coefficient, -d.exponent), -d.exponent);
  }

  lemma AppendSplits(s: string, places: nat)
    requires places <= |s|
    ensures (s + "0")[..|s| - places] == s[..|s| - places]
    ensures (s + "0")[|s| - places..] == s[|s| - places..] + "0"
  {
  }

  /** Without positive exponents the digits are simply cut at the point. */
  lemma SplitAtPoint(d: Decimal)
    requires d.exponent <= 0
    ensures var padded := Padded(d.coefficient, -d.exponent);
      Whole(d) == padded[..|padded| + d.exponent] && Fraction(d) == padded[|padded| + d.exponent..]
  {
    if d.exponent == 0 {
      AtLeastOneDigit(d.coefficient);
      assert Digits(d.coefficient) + Zeros(0) == Digits(d.coefficient);
    }
  }

  lemma AtLeastOneDigit(c: nat)
    ensures Padded(c, 0) == Digits(c)
  {
  }

  lemma TrimOneZero(s: string)
    ensures TrimRight(s + "0", '0') == TrimRight(s, '0')
  {
    assert (s + "0")[..|s|] == s;
  }

  lemma TenfoldPadding(c: nat, places: nat)
    requires c > 0
    ensures Padded(10 * c, places + 1) == Padded(c, places) + "0"
  {
    DigitsOfTenfold(c);
  }

  lemma {:induction false} ShiftedSpelling(d: Decimal, k: nat)
    requires d.coefficient > 0
    ensures var s := Decimal(d.negative, d.coefficient * PowerOfTen(k), d.exponent - k);
      Spelled(s) == Spelled(d) && Adjusted(s) == Adjusted(d)
  {
    hide Spelled, Adjusted;
    if k > 0 {
      var s := Decimal(d.negative, d.coefficient * PowerOfTen(k - 1), d.exponent - (k - 1));
      ShiftedSpelling(d, k - 1);
      ProductMonotone(1, PowerOfTen(k - 1), d.coefficient);
      TenfoldSpelling(s);
      Tenfolds(d.coefficient, PowerOfTen(k - 1));
      assert Tenfold(s) == Decimal(d.negative, d.coefficient * PowerOfTen(k), d.exponent - k);
    } else {
      assert d.coefficient * PowerOfTen(0) == d.coefficient;
    }
  }

  lemma SameValueSameSpelling(a: Decimal, b: Decimal)
    requires Value(a) == Value(b) && a.coefficient > 0 && b.coefficient > 0
    ensures Spelled(a) == Spelled(b) && Adjusted(a) == Adjusted(b)
  {
    hide Value, Spelled, Adjusted, PowerOfTen;
    if a.exponent <= b.exponent {
      SameValueShifts(a, b);
      ShiftedSpelling(b, b.exponent - a.exponent);
    } else {
      SameValueShifts(b, a);
      ShiftedSpelling(a, a.exponent - b.exponent);
    }
  }

  /** The canonical text, or its refusal, depends on nothing but the value. */
  lemma SameValueSameText(a: Decimal, b: Decimal)
    requires Value(a) == Value(b)
    ensures CanonicalDecimal(a) == CanonicalDecimal(b)
  {
    ValueZero(a);
    ValueZero(b);
    if a.coefficient > 0 {
      SameValueSameSpelling(a, b);
    }
  }

  // ---------- the accepted texts are the published texts ----------

  lemma {:induction false} ReadsNonZero(s: string)
    requires AllDigits(s)
    ensures Number(s) > 0 <==> exists i :: 0 <= i < |s| && s[i] != '0'
  {
    if s != [] {
      var front := s[..|s| - 1];
      ReadsNonZero(front);
      if Number(front) > 0 {
        var i :| 0 <= i < |front| && front[i] != '0';
        assert s[i] != '0';
      } else {
        assert forall i | 0 <= i < |front| :: s[i] == front[i];
        assert Number(s) == NumberOf(s[|s| - 1]);
      }
    }
  }

  /** The whole part of a text is `0` or starts with another digit; a non-zero text keeps a digit. */
  lemma WholeShape(d: Decimal)
    requires d.coefficient > 0
    ensures Whole(d)[0] != '0' || (Whole(d) == "0" && Number(Fraction(d)) > 0)
  {
    NumberOfDigits(d.coefficient);
    if d.exponent < 0 && |Digits(d.coefficient)| <= -d.exponent {
      var digits := Digits(d.coefficient);
      var padding := -d.exponent - |digits|;
      assert Padded(d.coefficient, -d.exponent) == Zeros(1) + (Zeros(padding) + digits);
      assert Whole(d) == Zeros(1) == "0";
      assert Fraction(d) == Zeros(padding) + digits;
      NumberIgnoresLeadingZeros(padding, digits);
    }
  }

  /** Every published text has the pattern the reader demands. */
  lemma SpelledMatches(d: Decimal)
    requires d.coefficient > 0
    ensures MatchesPattern(Spelled(d))
  {
    hide Spelled, Whole, Fraction, Number;
    SpelledSplits(d);
    WholeShape(d);
    TrimZerosShape(Fraction(d));
    ReadsNonZero(Fraction(d));
    if TrimRight(Fraction(d), '0') == [] {
      assert Fraction(d) == Zeros(|Fraction(d)|);
    }
  }

  /** A text of the pattern, other than `0`, is the text of the decimal it reads as. */
  lemma PatternIsSpelled(t: string)
    requires MatchesPattern(t) && t != "0"
    ensures Read(t).coefficient > 0 && Spelled(Read(t)) == t
  {
    var whole, fraction := WholeOf(t), FractionOf(t);
    var digits := whole + fraction;
    ReadsNonZero(digits);
    if whole[0] != '0' {
      assert digits[0] != '0';
    } else {
      assert digits[|digits| - 1] == fraction[|fraction| - 1] != '0';
    }
    PartsRestored(t);
    TextIsComposed(t);
    TrimmedComposed(Negative(t), whole, fraction);
    TrimZerosShape(fraction);
    assert TrimRight(fraction, '0') == fraction;
  }

  lemma {:induction false} PointIsThere(s: string)
    ensures PointAt(s) < |s| ==> s[PointAt(s)] == '.'
  {
    if s != [] && s[0] != '.' {
      PointIsThere(s[1..]);
    }
  }

  lemma TextIsComposed(t: string)
    requires Numeral(t) && (HasPoint(t) ==> FractionOf(t) != [])
    ensures t == Compose(Negative(t), WholeOf(t), FractionOf(t))
  {
    hide Numeral, AllDigits;
    BodyIsComposed(t);
    SignIsComposed(t);
    ComposeParts(Negative(t), WholeOf(t), FractionOf(t));
    hide *;
  }

  lemma SignIsComposed(t: string)
    ensures t == SignText(Negative(t)) + Body(t)
  {
    if Negative(t) {
      assert t == "-" + t[1..];
    }
  }

  lemma BodyIsComposed(t: string)
    ensures Body(t) == if HasPoint(t) then WholeOf(t) + "." + FractionOf(t) else WholeOf(t)
    ensures !HasPoint(t) ==> FractionOf(t) == []
  {
    hide PointAt, Body, Negative;
    var body := Body(t);
    PointIsThere(body);
    var p := PointAt(body);
    if p < |body| {
      assert body == body[..p] + [body[p]] + body[p + 1..];
    } else {
      assert body[..p] == body;
    }
  }

  lemma PaddedSmall(fraction: string)
    requires AllDigits(fraction) && Number(fraction) > 0
    ensures Padded(Number(fraction), |fraction|) == Zeros(1) + fraction
  {
    hide Number, Digits, DigitCount;
    PaddingRestores(fraction);
    var digits := Digits(Number(fraction));
    var k := |fraction| - |digits|;
    assert Padded(Number(fraction), |fraction|) == Zeros(k + 1) + digits;
    hide Padded;
    OneMoreZero(k, digits);
  }

  lemma OneMoreZero(k: nat, s: string)
    ensures Zeros(k + 1) + s == Zeros(1) + (Zeros(k) + s)
  {
    assert Zeros(k + 1) == Zeros(1) + Zeros(k);
    hide Zeros;
    assert (Zeros(1) + Zeros(k)) + s == Zeros(1) + (Zeros(k) + s);
  }

  /** Writing out what a text reads as finds its digits again, leading zeros included. */
  lemma PartsRestored(t: string)
    requires MatchesPattern(t) && t != "0" && Read(t).coefficient > 0
    ensures Whole(Read(t)) == WholeOf(t) && Fraction(Read(t)) == FractionOf(t)
  {
    var whole, fraction := WholeOf(t), FractionOf(t);
    var d := Read(t);
    hide Number, Digits, DigitCount, PointAt, Body, WholeOf, FractionOf, Whole, Fraction;
    SplitAtPoint(d);
    if whole[0] != '0' {
      DigitsOfNumber(whole + fraction);
    } else {
      assert whole + fraction == Zeros(1) + fraction;
      NumberIgnoresLeadingZeros(1, fraction);
      PaddingRestores(fraction);
      PaddedSmall(fraction);
    }
    assert Padded(d.coefficient, -d.exponent) == whole + fraction;
  }

  lemma ZeroReads()
    ensures MatchesPattern("0") && Read("0") == ZERO
  {
    assert PointAt("0"[1..]) == 0;
    assert WholeOf("0") == "0" && FractionOf("0") == [];
    assert Number("0") == 0 by { assert "0"[..0] == []; }
  }

  lemma CanonicalIsSpelled(d: Decimal)
    requires d.coefficient > 0 && CanonicalDecimal(d).Some?
    ensures CanonicalDecimal(d) == Some(Spelled(d)) && |Spelled(d)| <= MAX_TEXT
  {
  }

  /** Reading a published text gives back its value, and publishing what was read gives back the text. */
  lemma CanonicalRoundTrip(d: Decimal)
    requires CanonicalDecimal(d).Some?
    ensures var p := ParseDecimalString(CanonicalDecimal(d).value);
      p.Some? && Value(p.value) == Value(d) && CanonicalDecimal(p.value) == CanonicalDecimal(d)
  {
    hide Value, Spelled, Rendered, Trimmed, MatchesPattern, Read, Adjusted;
    if d.coefficient == 0 {
      ZeroReads();
      ValueZero(d);
      ValueZero(ZERO);
    } else {
      CanonicalIsSpelled(d);
      SpelledMatches(d);
      SpelledReadsBack(d);
      SameValueSameText(d, Read(Spelled(d)));
    }
  }

  /** Two published decimals share a text exactly when they are equal in value. */
  lemma CanonicalTextIffValue(a: Decimal, b: Decimal)
    requires CanonicalDecimal(a).Some? && CanonicalDecimal(b).Some?
    ensures CanonicalDecimal(a) == CanonicalDecimal(b) <==> Value(a) == Value(b)
  {
    hide Value, CanonicalDecimal, ParseDecimalString;
    CanonicalRoundTrip(a);
    CanonicalRoundTrip(b);
    if Value(a) == Value(b) {
      SameValueSameText(a, b);
    }
  }

  /** Pattern and size are all the reader tests: its comparison with the republished text adds only the bound. */
  lemma AcceptedExactly(t: string)
    ensures ParseDecimalString(t).Some? <==>
      && |t| <= MAX_TEXT && MatchesPattern(t)
      && (t == "0" || Magnitude(Adjusted(Read(t))) <= MAX_ADJUSTED)
    ensures ParseDecimalString(t).Some? ==> CanonicalDecimal(ParseDecimalString(t).value) == Some(t)
  {
    hide Rendered, Trimmed, MatchesPattern, Read, Adjusted;
    if MatchesPattern(t) {
      if t == "0" {
        ZeroReads();
      } else {
        PatternIsSpelled(t);
      }
    }
  }

  /** The reader accepts the published texts and nothing else. */
  lemma AcceptedIffPublished(t: string)
    ensures ParseDecimalString(t).Some? <==> exists d :: CanonicalDecimal(d) == Some(t)
  {
    hide CanonicalDecimal, ParseDecimalString;
    AcceptedExactly(t);
    if d :| CanonicalDecimal(d) == Some(t) {
      CanonicalRoundTrip(d);
    }
  }

  /** The published magnitudes: the adjusted exponent locates the value between powers of ten. */
  lemma AdjustedLocates(d: Decimal)
    requires d.coefficient > 0
    ensures Scale(Adjusted(d)) <= Steps(d.coefficient, d.exponent) < Scale(Adjusted(d) + 1)
  {
    hide PowerOfTen, DigitCount, Scale, Product;
    var k := DigitCount(d.coefficient);
    DigitCountBounds(d.coefficient);
    ScaleShift(d.exponent, k - 1);
    ScaleShift(d.exponent, k);
    ProductOrder(d.coefficient as real, PowerOfTen(k) as real, Scale(d.exponent));
    ProductOrder(d.coefficient as real, PowerOfTen(k - 1) as real, Scale(d.exponent));
  }

  // ---------- the parity pair ----------

  lemma {:induction false} StripKeepsValue(d: Decimal)
    ensures Value(StripZeros(d)) == Value(d)
    ensures StripZeros(d).coefficient == 0 <==> d.coefficient == 0
    decreases d.coefficient
  {
    hide Value;
    if d.coefficient != 0 && d.coefficient % 10 == 0 {
      var s := Decimal(d.negative, d.coefficient / 10, d.exponent + 1);
      StripKeepsValue(s);
      PowerOne();
      ShiftKeepsValue(s, 1);
    }
  }

  lemma RoundedNonZero(d: Decimal)
    requires d.coefficient > 0
    ensures RoundToContext(d).coefficient > 0
  {
    hide Steps, PowerOfTen, Kept, DigitCount;
    if DigitCount(d.coefficient) > PRECISION {
      var k := DigitCount(d.coefficient) - PRECISION;
      DigitCountBounds(d.coefficient);
      PowersAdd(PRECISION - 1, k);
      KeptAtLeast(d.coefficient, PowerOfTen(PRECISION - 1), k);
    }
  }

  lemma ParitySpelling(d: Decimal)
    requires d.coefficient > 0
    ensures DecimalString(d) == Spelled(RoundToContext(d))
  {
    hide Value, RoundToContext, StripZeros, Adjusted;
    var r := RoundToContext(d);
    RoundedNonZero(d);
    StripKeepsValue(r);
    assert DecimalString(d) == Spelled(StripZeros(r));
    hide Spelled;
    SameValueSameSpelling(StripZeros(r), r);
  }

  lemma ZeroText(d: Decimal)
    requires d.coefficient == 0
    ensures DecimalString(d) == "0" && RoundToContext(d) == d
  {
  }

  lemma ParityOfRounded(a: Decimal, b: Decimal)
    requires Value(a) == Value(b) && Representable(Value(a))
    ensures DecimalString(a) == DecimalString(b)
  {
    hide Value, RoundToContext, Spelled, Adjusted, DecimalString;
    ValueZero(a);
    ValueZero(b);
    if a.coefficient > 0 {
      ParitySpelling(a);
      ParitySpelling(b);
      RoundedNonZero(a);
      RoundedNonZero(b);
      RoundingExactIff(a);
      RoundingExactIff(b);
      SameValueSameSpelling(RoundToContext(a), RoundToContext(b));
    } else {
      ZeroText(a);
      ZeroText(b);
    }
  }

  /**
  A parity text is always read back, as the value rounded to 28 significant digits;
  nothing is lost exactly when 28 digits can hold the value.
  */
  lemma ParityRoundTrip(d: Decimal)
    ensures var p := ParseParityString(DecimalString(d));
      && p.Some?
      && Value(p.value) == Value(RoundToContext(d))
      && (Value(p.value) == Value(d) <==> Representable(Value(d)))
  {
    hide Value, RoundToContext, Spelled, Adjusted, DecimalString, Read, Numeral;
    RoundingExactIff(d);
    if d.coefficient == 0 {
      ZeroText(d);
      ZeroText(ZERO);
      ZeroReads();
      ZeroIsNumeral();
      ValueZero(d);
      ValueZero(ZERO);
    } else {
      var r := RoundToContext(d);
      RoundedNonZero(d);
      ParitySpelling(d);
      SpelledReadsBack(r);
      var read := Read(Spelled(r));
      RoundingExactIff(r);
      ValueZero(r);
      ValueZero(read);
      ParityOfRounded(r, read);
      ParityOfRepresentable(r);
    }
  }

  lemma ZeroIsNumeral()
    ensures Numeral("0")
  {
    ZeroReads();
    assert WholeOf("0") == "0" && FractionOf("0") == [] by { assert PointAt("0"[1..]) == 0; }
  }

  lemma ParityOfRepresentable(r: Decimal)
    requires r.coefficient > 0 && Representable(Value(r))
    ensures DecimalString(r) == Spelled(r)
  {
    hide Value, RoundToContext, Spelled, Adjusted, DecimalString;
    ParitySpelling(r);
    RoundedNonZero(r);
    RoundingExactIff(r);
    SameValueSameSpelling(RoundToContext(r), r);
  }

  /** Two decimals share a parity text exactly when they round to the same 28-digit value. */
  lemma ParityTextIffRounded(a: Decimal, b: Decimal)
    ensures DecimalString(a) == DecimalString(b) <==> Value(RoundToContext(a)) == Value(RoundToContext(b))
  {
    hide Value, RoundToContext, Spelled, Adjusted, DecimalString, ParseParityString;
    ParityRoundTrip(a);
    ParityRoundTrip(b);
    if Value(RoundToContext(a)) == Value(RoundToContext(b)) {
      ParityThroughRounded(a);
      ParityThroughRounded(b);
      RoundingExactIff(a);
      ParityOfRounded(RoundToContext(a), RoundToContext(b));
    }
  }

  lemma ParityThroughRounded(d: Decimal)
    ensures DecimalString(RoundToContext(d)) == DecimalString(d)
  {
    hide Value, RoundToContext, Spelled, Adjusted, DecimalString;
    if d.coefficient == 0 {
      ZeroText(d);
    } else {
      RoundedNonZero(d);
      RoundingExactIff(d);
      ParitySpelling(d);
      ParityOfRepresentable(RoundToContext(d));
    }
  }

  /** Equal decimals share a parity text, and values of at most 28 digits share one only then. */
  lemma ParityTextIffValue(a: Decimal, b: Decimal)
    ensures Value(a) == Value(b) ==> DecimalString(a) == DecimalString(b)
    ensures Representable(Value(a)) && Representable(Value(b)) ==>
      (DecimalString(a) == DecimalString(b) <==> Value(a) == Value(b))
  {
    hide Value, RoundToContext, DecimalString;
    ParityTextIffRounded(a, b);
    RoundingExactIff(a);
    RoundingExactIff(b);
    if Value(a) == Value(b) {
      if a.exponent <= b.exponent {
        RoundingRespectsValue(a, b);
      } else {
        RoundingRespectsValue(b, a);
      }
    }
  }

  /** A decimal is not published exactly if it is beyond 10^100 either way or takes more than 128 characters. */
  lemma RefusedExactly(d: Decimal)
    ensures CanonicalDecimal(d) == None
       <==> d.coefficient != 0 && (Adjusted(d) > 100 || Adjusted(d) < -100 || |Trimmed(Rendered(d))| > 128)
  {
    hide Trimmed, Rendered, DigitCount;
  }
}
