/** Exact decimal comparison of amounts given as strings. */
module Decimal {
  import opened Common
  import opened Arithmetic

  predicate IsDigit(c: char) {
    '0' <= c <= '9'
  }

  predicate Digits(s: string) {
    forall i :: 0 <= i < |s| ==> IsDigit(s[i])
  }

  /** The number a digit string denotes. */
  function Number(s: string): nat
    requires Digits(s)
  {
    if s == "" then 0 else Number(s[..|s| - 1]) * 10 + (s[|s| - 1] as int - '0' as int)
  }

  function Zeros(n: nat): (z: string)
    ensures |z| == n && Digits(z)
  {
    seq(n, _ => '0')
  }

  // ----- the code -----

  /** Decimal places every amount is scaled to. */
  const SCALE: nat := 18

  /** The characters before the first point. */
  function BeforePoint(s: string): (r: string)
    ensures r <= s && '.' !in r && (|r| < |s| ==> s[|r|] == '.')
  {
    if s == "" || s[0] == '.' then "" else
      assert s == [s[0]] + s[1..];
      [s[0]] + BeforePoint(s[1..])
  }

  function Unsigned(value: string): string {
    if value != "" && value[0] == '-' then value[1..] else value
  }

  function Whole(value: string): string {
    BeforePoint(Unsigned(value))
  }

  function Fraction(value: string): string {
    var u := Unsigned(value);
    if |Whole(value)| < |u| then u[|Whole(value)| + 1..] else ""
  }

  /** The pattern: an optional minus, digits, and optionally a point with more digits. */
  predicate IsDecimal(value: string) {
    && Whole(value) != "" && Digits(Whole(value))
    && Digits(Fraction(value))
    && (|Whole(value)| < |Unsigned(value)| ==> Fraction(value) != "")
  }

  function Signed(negative: bool, magnitude: int): int {
    if negative then -magnitude else magnitude
  }

  /** The value scaled to a number of decimal places, or nothing for a malformed or over-long string. */
  function ScaledTo(value: string, places: nat): Option<int> {
    if !IsDecimal(value) || |Fraction(value)| > places then None
    else Some(Signed(value[0] == '-', Number(Whole(value) + Fraction(value) + Zeros(places - |Fraction(value)|))))
  }

  predicate EqualAt(left: string, right: string, places: nat) {
    var a, b := ScaledTo(left, places), ScaledTo(right, places);
    a.Some? && b.Some? && a.value == b.value
  }

  predicate DecimalEquals(left: string, right: string) {
    EqualAt(left, right, SCALE)
  }

  // ----- what a decimal string means -----

  /** A decimal string spelled out from its parts. */
  function Spell(negative: bool, whole: string, fraction: string): string {
    (if negative then "-" else "") + whole + (if fraction == "" then "" else "." + fraction)
  }

  /** The strings that denote a number. */
  ghost predicate WellFormed(value: string) {
    exists negative, whole, fraction ::
      whole != "" && Digits(whole) && Digits(fraction) && value == Spell(negative, whole, fraction)
  }

  /** The rational number such a string denotes. */
  function Denotes(negative: bool, whole: string, fraction: string): real
    requires Digits(whole) && Digits(fraction)
  {
    SignedReal(negative, Number(whole) as real + Number(fraction) as real / Pow(10, |fraction|) as real)
  }

  /** The rational number a well-formed string denotes. */
  function Value(value: string): real
    requires IsDecimal(value)
  {
    Denotes(value[0] == '-', Whole(value), Fraction(value))
  }

  lemma {:induction false} BeforePointOf(s: string, tail: string)
    requires '.' !in s && (tail == "" || tail[0] == '.')
    ensures BeforePoint(s + tail) == s
  {
    if s == "" {
      assert s + tail == tail;
    } else {
      assert (s + tail)[1..] == s[1..] + tail;
      BeforePointOf(s[1..], tail);
    }
  }

  lemma PartsOf(negative: bool, whole: string, fraction: string)
    requires whole != "" && Digits(whole) && Digits(fraction)
    ensures var value := Spell(negative, whole, fraction);
      && IsDecimal(value) && Whole(value) == whole && Fraction(value) == fraction
      && (value[0] == '-' <==> negative)
  {
    var value := Spell(negative, whole, fraction);
    var tail := if fraction == "" then "" else "." + fraction;
    assert Unsigned(value) == whole + tail by {
      if negative {
        assert value[1..] == whole + tail;
      } else {
        assert IsDigit(value[0]);
      }
    }
    assert forall i :: 0 <= i < |whole| ==> whole[i] != '.';
    BeforePointOf(whole, tail);
    if fraction != "" {
      assert (whole + tail)[|whole| + 1..] == fraction;
    }
  }

  lemma SpelledFromItsParts(value: string)
    requires IsDecimal(value)
    ensures value == Spell(value[0] == '-', Whole(value), Fraction(value))
  {
    var u, whole, fraction := Unsigned(value), Whole(value), Fraction(value);
    if |whole| < |u| {
      assert u == whole + "." + fraction;
    } else {
      assert u == whole && fraction == "";
    }
    if value[0] == '-' {
      assert value == "-" + u;
    }
  }

  /** The pattern accepts exactly the strings spelled from a sign, digits and optional fraction. */
  lemma PatternIsExact(value: string)
    ensures IsDecimal(value) <==> WellFormed(value)
  {
    if WellFormed(value) {
      var negative, whole, fraction :|
        whole != "" && Digits(whole) && Digits(fraction) && value == Spell(negative, whole, fraction);
      PartsOf(negative, whole, fraction);
    }
    if IsDecimal(value) {
      SpelledFromItsParts(value);
    }
  }

  // ----- arithmetic of digit strings -----

  lemma ShiftDigit(n: int, p: int)
    ensures (n * p) * 10 == n * (10 * p)
  {
  }

  lemma {:induction false} NumberOfConcat(s: string, t: string)
    requires Digits(s) && Digits(t)
    ensures Digits(s + t) && Number(s + t) == Number(s) * Pow(10, |t|) + Number(t)
  {
    if t == "" {
      assert s + t == s;
    } else {
      var init := t[..|t| - 1];
      assert (s + t)[..|s + t| - 1] == s + init;
      NumberOfConcat(s, init);
      ShiftDigit(Number(s), Pow(10, |init|));
    }
  }

  lemma {:induction false} NumberOfZeros(n: nat)
    ensures Number(Zeros(n)) == 0
  {
    if n == 0 {
    } else {
      assert Zeros(n)[..n - 1] == Zeros(n - 1);
      NumberOfZeros(n - 1);
    }
  }

  lemma PaddedNumber(whole: string, fraction: string, z: nat)
    requires Digits(whole) && Digits(fraction)
    ensures Digits(whole + fraction + Zeros(z))
    ensures Number(whole + fraction + Zeros(z)) == (Number(whole) * Pow(10, |fraction|) + Number(fraction)) * Pow(10, z)
  {
    NumberOfConcat(whole, fraction);
    NumberOfConcat(whole + fraction, Zeros(z));
    NumberOfZeros(z);
  }

  /** The same scaling over the reals: `(w + n / p) * (p * z)` is the integer `(w * p + n) * z`. */
  lemma ScaleReal(w: nat, n: nat, p: nat, z: nat)
    requires p >= 1
    ensures (w as real + n as real / p as real) * (p * z) as real == ((w * p + n) * z) as real
  {
    var x, y, q, s := w as real, n as real, p as real, z as real;
    var d := y / q;
    assert d * q == y;
    assert (p * z) as real == q * s;
    assert (w * p + n) as real == x * q + y;
    assert ((w * p + n) * z) as real == (x * q + y) * s;
    calc {
      (x + d) * (q * s);
      ((x + d) * q) * s;
      (x * q + d * q) * s;
      (x * q + y) * s;
    }
  }

  function SignedReal(negative: bool, magnitude: real): real {
    if negative then -magnitude else magnitude
  }

  lemma SignScales(negative: bool, magnitude: int, m: real, s: real)
    requires m * s == magnitude as real
    ensures Signed(negative, magnitude) as real == SignedReal(negative, m) * s
  {
  }

  /** The scaled integer stands for `d` times the scale. */
  ghost predicate StandsFor(scaled: Option<int>, d: real, scale: nat) {
    scaled.Some? && scaled.value as real == d * scale as real
  }

  lemma ScaleSigned(negative: bool, magnitude: nat, w: nat, n: nat, p: nat, z: nat, scale: nat)
    requires p >= 1 && scale == p * z && magnitude == (w * p + n) * z
    ensures StandsFor(Some(Signed(negative, magnitude)), SignedReal(negative, w as real + n as real / p as real), scale)
  {
    ScaleReal(w, n, p, z);
    SignScales(negative, magnitude, w as real + n as real / p as real, scale as real);
  }

  /** The parts, padded with zeros and read as one integer, stand for the number they denote. */
  lemma PartsStandFor(negative: bool, whole: string, fraction: string, z: nat)
    requires Digits(whole) && Digits(fraction)
    ensures Digits(whole + fraction + Zeros(z))
    ensures StandsFor(Some(Signed(negative, Number(whole + fraction + Zeros(z)))),
                      Denotes(negative, whole, fraction), Pow(10, |fraction| + z))
  {
    PaddedNumber(whole, fraction, z);
    PowAdds(10, |fraction|, z);
    ScaleSigned(negative, Number(whole + fraction + Zeros(z)), Number(whole), Number(fraction),
                Pow(10, |fraction|), Pow(10, z), Pow(10, |fraction| + z));
  }

  /** Scaling multiplies the denoted number by a power of ten, exactly. */
  lemma ScalingIsExact(value: string, places: nat)
    requires IsDecimal(value) && |Fraction(value)| <= places
    ensures StandsFor(ScaledTo(value, places), Value(value), Pow(10, places))
  {
    PartsStandFor(value[0] == '-', Whole(value), Fraction(value), places - |Fraction(value)|);
  }

  // ----- the theorem -----

  lemma EqualAtMeansSameNumber(left: string, right: string, places: nat)
    ensures EqualAt(left, right, places) <==>
            && IsDecimal(left) && |Fraction(left)| <= places
            && IsDecimal(right) && |Fraction(right)| <= places
            && Value(left) == Value(right)
  {
    if IsDecimal(left) && |Fraction(left)| <= places && IsDecimal(right) && |Fraction(right)| <= places {
      ScalingIsExact(left, places);
      ScalingIsExact(right, places);
      SameAfterScaling(ScaledTo(left, places), ScaledTo(right, places), Value(left), Value(right), Pow(10, places));
    }
  }

  /**
   Two strings compare equal exactly when both are well formed with at most 18 fraction digits and
   denote the same rational number: leading zeros, trailing zeros and the sign of zero do not matter.
   */
  lemma EqualsMeansSameNumber(left: string, right: string)
    ensures DecimalEquals(left, right) <==>
            && IsDecimal(left) && |Fraction(left)| <= 18
            && IsDecimal(right) && |Fraction(right)| <= 18
            && Value(left) == Value(right)
  {
    EqualAtMeansSameNumber(left, right, SCALE);
  }

  /** The value is read off the spelling: sign, whole part and fraction mean what they say. */
  lemma ValueOfSpelling(negative: bool, whole: string, fraction: string)
    requires whole != "" && Digits(whole) && Digits(fraction)
    ensures IsDecimal(Spell(negative, whole, fraction))
    ensures Value(Spell(negative, whole, fraction)) == Denotes(negative, whole, fraction)
  {
    PartsOf(negative, whole, fraction);
  }

  lemma SameAfterScaling(a: Option<int>, b: Option<int>, x: real, y: real, scale: nat)
    requires scale >= 1 && StandsFor(a, x, scale) && StandsFor(b, y, scale)
    ensures a.value == b.value <==> x == y
  {
    CancelFactor(x, y, scale as real);
  }

  lemma CancelFactor(x: real, y: real, p: real)
    requires p > 0.0
    ensures x * p == y * p <==> x == y
  {
    if x * p == y * p {
      assert (x - y) * p == 0.0;
    }
  }

  /** The comparison is an equivalence relation on the strings it accepts, and accepts no others. */
  lemma IsEquivalence(a: string, b: string, c: string)
    ensures DecimalEquals(a, a) <==> WellFormed(a) && |Fraction(a)| <= 18
    ensures DecimalEquals(a, b) ==> DecimalEquals(b, a) && DecimalEquals(a, a)
    ensures DecimalEquals(a, b) && DecimalEquals(b, c) ==> DecimalEquals(a, c)
  {
    PatternIsExact(a);
  }

  lemma LeadingZero(w: string)
    requires Digits(w)
    ensures Digits("0" + w) && Number("0" + w) == Number(w)
  {
    NumberOfConcat("0", w);
    assert "0"[..0] == "";
    assert Number("0") == 0;
  }

  lemma TrailingZero(f: string)
    requires Digits(f)
    ensures Digits(f + "0") && Number(f + "0") == 10 * Number(f) && Pow(10, |f + "0"|) == 10 * Pow(10, |f|)
  {
    assert (f + "0")[..|f|] == f;
  }

  lemma TenthsCancel(n: nat, p: nat)
    requires p >= 1
    ensures (10 * n) as real / (10 * p) as real == n as real / p as real
  {
    var x, y := n as real, p as real;
    var z := x / y;
    assert (10 * n) as real == 10.0 * x && (10 * p) as real == 10.0 * y;
    assert x == z * y;
    assert 10.0 * x == z * (10.0 * y);
  }

  /** A zero more in front of the whole part, or behind the fraction, spells the same number. */
  lemma ZerosMakeNoDifference(negative: bool, w: string, f: string)
    requires w != "" && Digits(w) && Digits(f) && |f| <= SCALE
    ensures DecimalEquals(Spell(negative, w, f), Spell(negative, "0" + w, f))
    ensures |f| < SCALE ==> DecimalEquals(Spell(negative, w, f), Spell(negative, w, f + "0"))
  {
    LeadingZero(w);
    SameSpelled(negative, w, f, negative, "0" + w, f);
    if |f| < SCALE {
      TrailingZero(f);
      TenthsCancel(Number(f), Pow(10, |f|));
      SameSpelled(negative, w, f, negative, w, f + "0");
    }
  }

  /** Spellings compare as the numbers they denote. */
  lemma SameSpelled(m: bool, w: string, f: string, n: bool, v: string, g: string)
    requires w != "" && v != "" && Digits(w) && Digits(f) && Digits(v) && Digits(g) && |f| <= SCALE && |g| <= SCALE
    ensures DecimalEquals(Spell(m, w, f), Spell(n, v, g)) <==> Denotes(m, w, f) == Denotes(n, v, g)
  {
    PartsOf(m, w, f);
    PartsOf(n, v, g);
    ValueOfSpelling(m, w, f);
    ValueOfSpelling(n, v, g);
    EqualsMeansSameNumber(Spell(m, w, f), Spell(n, v, g));
  }

  /** A number equals its negation exactly when all its digits are zero. */
  lemma OnlyZeroHasNoSign(w: string, f: string)
    requires w != "" && Digits(w) && Digits(f) && |f| <= SCALE
    ensures DecimalEquals(Spell(true, w, f), Spell(false, w, f)) <==> Number(w) == 0 && Number(f) == 0
  {
    SameSpelled(true, w, f, false, w, f);
    FractionIsZero(Number(f), Pow(10, |f|));
  }

  lemma FractionIsZero(n: nat, p: nat)
    requires p >= 1
    ensures n as real / p as real >= 0.0
    ensures n as real / p as real == 0.0 <==> n == 0
  {
    assert (n as real / p as real) * p as real == n as real;
  }

  /** Decimal digits, the most significant first. */
  lemma DigitsAreDecimal(s: string, c: char)
    requires Digits(s) && '0' <= c <= '9'
    ensures Digits(s + [c]) && Number(s + [c]) == 10 * Number(s) + (c as int - '0' as int)
    ensures Number("") == 0
  {
    assert (s + [c])[..|s|] == s;
  }

  lemma NineteenPlacesAreTooMany(w: string, f: string, other: string)
    requires w != "" && Digits(w) && Digits(f) && |f| >= 19
    ensures !DecimalEquals(Spell(false, w, f), other)
  {
    PartsOf(false, w, f);
    EqualsMeansSameNumber(Spell(false, w, f), other);
  }
}
