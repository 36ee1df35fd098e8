/**
 * The conversions a `juce::var` makes between numbers and text, as the
 * project file uses them: a number is written out as decimal text, and
 * text is read back as an integer (`String::getIntValue`) or as a real
 * (`String::getDoubleValue`). Both readers skip leading white space, take
 * the longest numeral the text starts with, and give 0 when there is none.
 */
module Numerals {
  import opened Text

  /** How many decimal places a printed number keeps. */
  const Places: nat := 14

  /** `10^Places`: the number of printed units in one. */
  const Scale: nat := 100000000000000

  function Pow10(n: nat): (p: nat)
    ensures p >= 1
  {
    if n == 0 then 1 else 10 * Pow10(n - 1)
  }

  lemma {:induction false} Pow10Add(a: nat, b: nat)
    ensures Pow10(a + b) == Pow10(a) * Pow10(b)
  {
    if a > 0 {
      Pow10Add(a - 1, b);
    }
  }

  /** The run of decimal digits `s` starts with. */
  function DigitRun(s: string): (r: string)
    ensures |r| <= |s| && r == s[..|r|]
    ensures forall i :: 0 <= i < |r| ==> IsDigit(r[i])
    ensures |r| < |s| ==> !IsDigit(s[|r|])
  {
    if s == [] || !IsDigit(s[0]) then [] else [s[0]] + DigitRun(s[1..])
  }

  predicate AllDigits(s: string) {
    forall i :: 0 <= i < |s| ==> IsDigit(s[i])
  }

  /** Digits followed by anything that does not start with a digit: the run is exactly those digits. */
  lemma {:induction false} DigitRunOf(d: string, rest: string)
    requires AllDigits(d)
    requires rest == [] || !IsDigit(rest[0])
    ensures DigitRun(d + rest) == d
    decreases |d|
  {
    if d == [] {
      assert d + rest == rest;
    } else {
      assert (d + rest)[1..] == d[1..] + rest;
      DigitRunOf(d[1..], rest);
    }
  }

  /** `String::getIntValue`: white space, an optional minus sign, then digits. */
  function IntValue(s: string): (n: int)
    ensures n < 0 ==> TrimStart(s) != [] && TrimStart(s)[0] == '-'
    ensures var t := TrimStart(s); var u := if t != [] && t[0] == '-' then t[1..] else t;
      u == [] || !IsDigit(u[0]) ==> n == 0
  {
    var t := TrimStart(s);
    if t != [] && t[0] == '-' then -(DecimalValue(DigitRun(t[1..])) as int) else DecimalValue(DigitRun(t))
  }

  /** A number's printed digits read back as that number. */
  lemma IntValueOfDecimal(n: nat)
    ensures IntValue(Decimal(n)) == n
  {
    var d := Decimal(n);
    NoLeadingSpace(d);
    DigitRunOf(d, []);
    assert d + [] == d;
    DecimalRoundTrip(n);
  }

  /** An integer printed with its sign reads back as that integer. */
  lemma IntTextRoundTrip(i: int)
    ensures IntValue(IntToString(i)) == i
  {
    if i < 0 {
      assert IntToString(i) == "-" + Decimal(-i);
      NegativeIntValue(-i);
    } else {
      assert IntToString(i) == Decimal(i);
      IntValueOfDecimal(i);
    }
  }

  lemma NegativeIntValue(n: nat)
    ensures IntValue("-" + Decimal(n)) == -(n as int)
  {
    var d := Decimal(n);
    var t := "-" + d;
    NoLeadingSpace(t);
    assert t[1..] == d;
    DigitRunOf(d, []);
    assert d + [] == d;
    assert DigitRun(t[1..]) == d;
    DecimalRoundTrip(n);
  }

  /** The value of the unsigned numeral `s` starts with: digits, then optionally a point and digits. */
  function UnsignedValue(s: string): (v: real)
    ensures v >= 0.0
    ensures s == [] || (!IsDigit(s[0]) && s[0] != '.') ==> v == 0.0
  {
    var whole := DigitRun(s);
    assert whole != [] ==> whole[0] == s[0];
    var rest := s[|whole|..];
    var frac := if rest != [] && rest[0] == '.' then DigitRun(rest[1..]) else [];
    DecimalValue(whole) as real + FractionOf(frac)
  }

  /** What the digits after a point denote: `0.d1d2...dk`. */
  function FractionOf(d: string): (v: real)
    requires AllDigits(d)
    ensures 0.0 <= v
  {
    DecimalValue(d) as real / Pow10(|d|) as real
  }

  /** `String::getDoubleValue`: white space, an optional sign, then an unsigned numeral. */
  function RealValue(s: string): (x: real)
    ensures x < 0.0 ==> TrimStart(s) != [] && TrimStart(s)[0] == '-'
    ensures var t := TrimStart(s); var u := if t != [] && (t[0] == '-' || t[0] == '+') then t[1..] else t;
      u == [] || (!IsDigit(u[0]) && u[0] != '.') ==> x == 0.0
  {
    var t := TrimStart(s);
    if t != [] && t[0] == '-' then -UnsignedValue(t[1..])
    else if t != [] && t[0] == '+' then UnsignedValue(t[1..])
    else UnsignedValue(t)
  }

  /** `s` without its trailing zeros, keeping at least one digit. */
  function DropTrailingZeros(s: string): (r: string)
    ensures |r| <= |s| && r == s[..|r|]
    ensures |s| > 0 ==> |r| > 0
    ensures |r| > 1 ==> r[|r| - 1] != '0'
    ensures forall i :: |r| <= i < |s| ==> s[i] == '0'
  {
    if |s| <= 1 || s[|s| - 1] != '0' then s else DropTrailingZeros(s[..|s| - 1])
  }

  /** Trailing zeros of a fraction's digits only scale its numerator by a power of ten. */
  lemma {:induction false} DropTrailingZerosValue(s: string)
    requires AllDigits(s)
    ensures DecimalValue(s) == DecimalValue(DropTrailingZeros(s)) * Pow10(|s| - |DropTrailingZeros(s)|)
    decreases |s|
  {
    if !(|s| <= 1 || s[|s| - 1] != '0') {
      var init := s[..|s| - 1];
      DropTrailingZerosValue(init);
      var r := DropTrailingZeros(init);
      assert DropTrailingZeros(s) == r;
      assert DecimalValue(s) == 10 * DecimalValue(init);
      MulTen(DecimalValue(r), Pow10(|init| - |r|));
    }
  }

  lemma MulTen(a: nat, p: nat)
    ensures a * (10 * p) == 10 * (a * p)
  {
  }

  /** A common positive factor cancels from a quotient. */
  lemma CancelFactor(a: real, b: real, c: real)
    requires b > 0.0 && c > 0.0
    ensures (a * c) / (b * c) == a / b
  {
    var x := a / b;
    assert a == x * b;
    assert a * c == x * (b * c);
  }

  lemma ProductAsReal(a: nat, b: nat)
    ensures (a * b) as real == a as real * b as real
  {
  }

  /** A fraction `a / 10^k` is unchanged when both parts are scaled by `10^j`. */
  lemma ScaledFraction(a: nat, k: nat, j: nat)
    ensures (a * Pow10(j)) as real / Pow10(k + j) as real == a as real / Pow10(k) as real
  {
    Pow10Add(k, j);
    ProductAsReal(a, Pow10(j));
    ProductAsReal(Pow10(k), Pow10(j));
    CancelFactor(a as real, Pow10(k) as real, Pow10(j) as real);
  }

  /** Dropping trailing zeros does not change the value a fraction's digits denote. */
  lemma FractionValue(s: string)
    requires AllDigits(s)
    ensures AllDigits(DropTrailingZeros(s))
    ensures FractionOf(DropTrailingZeros(s)) == FractionOf(s)
  {
    var r := DropTrailingZeros(s);
    assert forall i :: 0 <= i < |r| ==> r[i] == s[i];
    DropTrailingZerosValue(s);
    ScaledFraction(DecimalValue(r), |r|, |s| - |r|);
  }

  /** A number below `10^width` prints in at most `width` digits. */
  lemma {:induction false} DecimalFits(n: nat, width: nat)
    requires 1 <= width && n < Pow10(width)
    ensures |Decimal(n)| <= width
    decreases n
  {
    if n >= 10 {
      DecimalFits(n / 10, width - 1);
    }
  }

  /** `x` has at most `Places` decimal places. */
  predicate HasPlaces(x: real) {
    (x * Scale as real).Floor as real == x * Scale as real
  }

  /** `|x|` in units of `10^-Places`, rounded half up. */
  function Scaled(x: real): nat {
    var a := if x < 0.0 then -x else x;
    (a * Scale as real + 0.5).Floor
  }

  /** The digits after the point for `rem` units of `10^-Places`. */
  function FractionText(rem: nat): string {
    DropTrailingZeros(PadZeros(Decimal(rem), Places))
  }

  /** `n` units of `10^-Places` as an unsigned decimal numeral. */
  function UnitsText(n: nat): string {
    Decimal(n / Scale) + "." + FractionText(n % Scale)
  }

  /**
   * A number printed with `Places` decimals, trailing zeros dropped but one
   * kept after the point: 1 prints as "1.0", 0.75 as "0.75".
   */
  function NumberText(x: real): (s: string)
    ensures x < 0.0 <==> |s| > 0 && s[0] == '-'
    ensures |s| > 0 && (s[0] == '-' || IsDigit(s[0]))
  {
    (if x < 0.0 then "-" else "") + UnitsText(Scaled(x))
  }

  lemma PlacesScale()
    ensures Pow10(Places) == Scale
  {
  }

  /** The digits after the point read back as `rem / 10^Places`. */
  lemma FractionTextValue(rem: nat)
    requires rem < Scale
    ensures AllDigits(FractionText(rem))
    ensures FractionOf(FractionText(rem)) == rem as real / Scale as real
  {
    PlacesScale();
    var pad := PadZeros(Decimal(rem), Places);
    DecimalFits(rem, Places);
    PaddedRoundTrip(rem, Places);
    assert |pad| == Places;
    FractionValue(pad);
  }

  /** Digits, a point and digits read back as the whole part plus the fraction. */
  lemma PointedValue(whole: string, frac: string)
    requires AllDigits(whole) && AllDigits(frac)
    ensures UnsignedValue(whole + "." + frac) == DecimalValue(whole) as real + FractionOf(frac)
  {
    var body := whole + "." + frac;
    DigitRunOf(whole, "." + frac);
    assert body == whole + ("." + frac);
    var rest := body[|whole|..];
    assert rest == "." + frac;
    assert rest[1..] == frac;
    DigitRunOf(frac, []);
    assert frac + [] == frac;
  }

  /** An unsigned numeral reads back as its whole part plus its fraction. */
  lemma UnitsTextValue(n: nat)
    ensures UnsignedValue(UnitsText(n)) == (n / Scale) as real + (n % Scale) as real / Scale as real
  {
    var q := n / Scale;
    var frac := FractionText(n % Scale);
    FractionTextValue(n % Scale);
    DecimalRoundTrip(q);
    PointedValue(Decimal(q), frac);
  }

  /** Text that starts with a digit needs no trimming. */
  lemma NoLeadingSpace(t: string)
    requires t != [] && (t[0] == '-' || IsDigit(t[0]))
    ensures TrimStart(t) == t
  {
  }

  /** A numeral that starts with a digit reads as its unsigned value. */
  lemma PositiveValue(body: string)
    requires body != [] && IsDigit(body[0])
    ensures RealValue(body) == UnsignedValue(body)
  {
    NoLeadingSpace(body);
  }

  /** A minus sign before a numeral that starts with a digit negates its value. */
  lemma NegativeValue(body: string)
    requires body != [] && IsDigit(body[0])
    ensures RealValue("-" + body) == -UnsignedValue(body)
  {
    var t := "-" + body;
    NoLeadingSpace(t);
    assert t[1..] == body;
  }

  /** A number with at most `Places` decimals is what its printed form reads back as. */
  lemma NumberTextRoundTrip(x: real)
    requires HasPlaces(x)
    ensures RealValue(NumberText(x)) == x
  {
    var n := Scaled(x);
    var body := UnitsText(n);
    UnitsTextValue(n);
    UnitsValue(x, n);
    if x < 0.0 {
      NegativeValue(body);
    } else {
      assert NumberText(x) == body;
      PositiveValue(body);
    }
  }

  /** A number with at most `Places` decimals is its rounded unit count over `10^Places`. */
  lemma UnitsValue(x: real, n: nat)
    requires HasPlaces(x) && n == Scaled(x)
    ensures (n / Scale) as real + (n % Scale) as real / Scale as real == if x < 0.0 then -x else x
  {
    var m := (x * Scale as real).Floor;
    assert m as real == x * Scale as real;
    var a := if x < 0.0 then -x else x;
    assert a * Scale as real == (if m < 0 then -m else m) as real;
    assert n == (if m < 0 then -m else m);
  }
}
