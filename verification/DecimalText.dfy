/**
Plain decimal text, as metrics are published: the canonical spelling of a decimal,
the strict reader that accepts nothing else, and the pair the parity traces use,
which first rounds to 28 significant digits.
*/
module DecimalText {
  import opened Decimals
  import opened Options

  // ---------- digits ----------

  predicate IsDigit(c: char) { '0' <= c <= '9' }

  predicate AllDigits(s: string) { forall i | 0 <= i < |s| :: IsDigit(s[i]) }

  function DigitOf(n: nat): (c: char)
    requires n < 10
    ensures IsDigit(c)
  {
    ('0' as int + n) as char
  }

  function NumberOf(c: char): nat
    requires IsDigit(c)
  {
    c as int - '0' as int
  }

  function Digits(n: nat): (s: string)
    ensures |s| == DigitCount(n) && AllDigits(s)
  {
    if n < 10 then [DigitOf(n)] else Digits(n / 10) + [DigitOf(n % 10)]
  }

  function Number(s: string): nat
    requires AllDigits(s)
  {
    if s == [] then 0 else 10 * Number(s[..|s| - 1]) + NumberOf(s[|s| - 1])
  }

  function Zeros(n: nat): (s: string)
    ensures |s| == n && AllDigits(s)
  {
    seq(n, _ => '0')
  }

  // ---------- writing ----------

  /** The digits of a coefficient with at least one of them before the point. */
  function Padded(c: nat, places: nat): (s: string)
    ensures |s| > places && AllDigits(s)
  {
    var digits := Digits(c);
    if |digits| <= places then Zeros(places + 1 - |digits|) + digits else digits
  }

  function Whole(d: Decimal): (s: string)
    ensures s != [] && AllDigits(s)
  {
    if d.exponent >= 0 then Digits(d.coefficient) + Zeros(d.exponent)
    else
      var padded := Padded(d.coefficient, -d.exponent);
      padded[..|padded| + d.exponent]
  }

  function Fraction(d: Decimal): (s: string)
    ensures AllDigits(s)
  {
    if d.exponent >= 0 then []
    else
      var padded := Padded(d.coefficient, -d.exponent);
      padded[|padded| + d.exponent..]
  }

  function Compose(negative: bool, whole: string, fraction: string): string {
    (if negative then "-" else "") + whole + (if fraction == [] then [] else "." + fraction)
  }

  /** Exponent-free formatting. */
  function Rendered(d: Decimal): string { Compose(d.negative, Whole(d), Fraction(d)) }

  function TrimRight(s: string, c: char): string {
    if s != [] && s[|s| - 1] == c then TrimRight(s[..|s| - 1], c) else s
  }

  function Trimmed(s: string): string {
    if '.' in s then TrimRight(TrimRight(s, '0'), '.') else s
  }

  const MAX_TEXT: nat := 128
  const MAX_ADJUSTED: nat := 100

  function Adjusted(d: Decimal): int { d.exponent + DigitCount(d.coefficient) - 1 }

  function CanonicalDecimal(d: Decimal): Option<string> {
    if d.coefficient == 0 then Some("0")
    else if Magnitude(Adjusted(d)) > MAX_ADJUSTED then None
    else
      var text := Trimmed(Rendered(d));
      if |text| > MAX_TEXT then None else Some(text)
  }

  // ---------- reading ----------

  predicate Negative(t: string) { t != [] && t[0] == '-' }

  function Body(t: string): string { if Negative(t) then t[1..] else t }

  function PointAt(s: string): (p: nat)
    ensures p <= |s|
  {
    if s == [] || s[0] == '.' then 0 else 1 + PointAt(s[1..])
  }

  function WholeOf(t: string): string { Body(t)[..PointAt(Body(t))] }

  predicate HasPoint(t: string) { PointAt(Body(t)) < |Body(t)| }

  function FractionOf(t: string): string {
    if HasPoint(t) then Body(t)[PointAt(Body(t)) + 1..] else []
  }

  /** An optional sign and digits with at most one point among them. */
  predicate Numeral(t: string) { AllDigits(WholeOf(t)) && AllDigits(FractionOf(t)) }

  function Read(t: string): Decimal
    requires Numeral(t)
  {
    Decimal(Negative(t), Number(WholeOf(t) + FractionOf(t)), -|FractionOf(t)|)
  }

  /** `0`, or an optional minus and digits without superfluous zeros on either side. */
  predicate MatchesPattern(t: string) {
    || t == "0"
    || (&& Numeral(t)
        && WholeOf(t) != []
        && (WholeOf(t)[0] != '0' || (WholeOf(t) == "0" && HasPoint(t)))
        && (HasPoint(t) ==> FractionOf(t) != [] && FractionOf(t)[|FractionOf(t)| - 1] != '0'))
  }

  function ParseDecimalString(t: string): Option<Decimal> {
    if |t| > MAX_TEXT || !MatchesPattern(t) then None
    else
      var d := Read(t);
      if CanonicalDecimal(d) == Some(t) then Some(d) else None
  }

  // ---------- the parity pair ----------

  /** Trailing zeros of the coefficient moved into the exponent. */
  function StripZeros(d: Decimal): Decimal
    decreases d.coefficient
  {
    if d.coefficient == 0 || d.coefficient % 10 != 0 then d
    else StripZeros(Decimal(d.negative, d.coefficient / 10, d.exponent + 1))
  }

  function DecimalString(d: Decimal): string {
    if d.coefficient == 0 then "0" else Trimmed(Rendered(StripZeros(RoundToContext(d))))
  }

  /** Every other spelling a decimal could be read from is refused for not being its own text. */
  function ParseParityString(t: string): Option<Decimal> {
    if !Numeral(t) || DecimalString(Read(t)) != t then None else Some(Read(t))
  }
}
