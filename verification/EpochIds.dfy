/** Epoch ids are decimal numerals, advanced through the language's double-precision numbers. */
module EpochIds {
  import opened Common
  import opened Arithmetic
  import opened Decimal
  import opened Fingerprint

  /** The first integer whose successor is not a double. */
  const LIMIT: nat := 0x20_0000_0000_0000

  /** Distance between neighbouring doubles around an integer. */
  function Spacing(n: nat): (u: nat)
    ensures u >= 1
  {
    if n < LIMIT then 1 else 2 * Spacing(n / 2)
  }

  /** The double nearest to an integer, ties going to the even significand. */
  function ToDouble(n: nat): nat {
    var u := Spacing(n);
    var q, r := n / u, n % u;
    if 2 * r < u || (2 * r == u && q % 2 == 0) then q * u else (q + 1) * u
  }

  function IdOf(n: nat): string {
    if n < 10 then [(n + '0' as int) as char] else IdOf(n / 10) + [(n % 10 + '0' as int) as char]
  }

  /** The numeric value of an id; anything but digits is not a number. */
  function ParseId(id: string): Option<nat> {
    if id != "" && Digits(id) then Some(ToDouble(Number(id))) else None
  }

  /** `String(Number(current) + 1)`, or nothing when that is not a number. */
  function NextId(current: Option<string>): Option<string> {
    if current.None? then Some("0")
    else if ParseId(current.value).None? then None
    else Some(IdOf(ToDouble(ParseId(current.value).value + 1)))
  }

  lemma {:induction false} NumeralRoundTrip(n: nat)
    ensures IdOf(n) != "" && Digits(IdOf(n)) && Number(IdOf(n)) == n
  {
    if n < 10 {
      assert IdOf(n)[..0] == "";
    } else {
      NumeralRoundTrip(n / 10);
      assert IdOf(n)[..|IdOf(n)| - 1] == IdOf(n / 10);
    }
  }

  /** Ids are decimal numerals, most significant digit first. */
  lemma IdsAreDecimal()
    ensures IdOf(0) == "0" && IdOf(9) == "9" && IdOf(10) == "10" && IdOf(120) == "120"
    ensures NextId(None) == Some("0") && NextId(Some("")) == None && NextId(Some("x")) == None
  {
    assert IdOf(120) == IdOf(12) + "0" && IdOf(12) == IdOf(1) + "2";
    assert "x"[0] == 'x';
  }

  /** Any digits are read as the number they spell, leading zeros included; anything else is no number. */
  lemma DigitsAreRead(id: string)
    ensures id != "" && Digits(id) && Number(id) <= 9007199254740992 ==> ParseId(id) == Some(Number(id))
    ensures id == "" || !Digits(id) ==> ParseId(id) == None
  {
    if id != "" && Digits(id) && Number(id) <= 9007199254740992 {
      ExactBelowLimit(Number(id));
    }
  }

  lemma IdsAreInjective(a: nat, b: nat)
    requires IdOf(a) == IdOf(b)
    ensures a == b
  {
    NumeralRoundTrip(a);
    NumeralRoundTrip(b);
  }

  lemma ExactBelowLimit(n: nat)
    requires n <= LIMIT
    ensures ToDouble(n) == n
  {
    if n == LIMIT {
      assert Spacing(LIMIT) == 2 * Spacing(LIMIT / 2);
    }
  }

  lemma IdParses(n: nat)
    requires n <= LIMIT
    ensures ParseId(IdOf(n)) == Some(n)
  {
    NumeralRoundTrip(n);
    ExactBelowLimit(n);
  }

  lemma LimitIsExact()
    ensures LIMIT == Pow(2, 53) == 9007199254740992
  {
    assert Pow(2, 8) == 256;
    PowAdds(2, 8, 8);
    PowAdds(2, 16, 16);
    PowAdds(2, 32, 16);
    assert Pow(2, 5) == 32;
    PowAdds(2, 48, 5);
  }

  /** Below 2^53 the id advances by exactly one. */
  lemma NextIdAdvances(n: nat)
    requires n < 9007199254740992
    ensures NextId(Some(IdOf(n))) == Some(IdOf(n + 1))
  {
    IdParses(n);
    ExactBelowLimit(n + 1);
  }

  // ----- at 2^53 and beyond -----

  const HALF: nat := 0x10_0000_0000_0000

  /** A significand of 53 bits. */
  predicate Normal(q: nat) {
    HALF <= q < LIMIT
  }

  lemma {:induction false} SpacingOfScaled(q: nat, k: nat, r: nat)
    requires Normal(q) && r < Pow(2, k)
    ensures Spacing(q * Pow(2, k) + r) == Pow(2, k)
  {
    if k == 0 {
    } else {
      var p := Pow(2, k - 1);
      assert q * Pow(2, k) == 2 * (q * p);
      assert q * p >= q by { MulLower(p, q); }
      assert (q * Pow(2, k) + r) / 2 == q * p + r / 2;
      SpacingOfScaled(q, k - 1, r / 2);
    }
  }

  /** Every integer from 2^53 on is a 53-bit significand at some scale, and a remainder. */
  lemma {:induction false} Decompose(n: nat) returns (q: nat, k: nat, r: nat)
    requires n >= LIMIT
    ensures Normal(q) && k >= 1 && r < Pow(2, k) && n == q * Pow(2, k) + r
  {
    if n < 2 * LIMIT {
      q, k, r := n / 2, 1, n % 2;
      assert Pow(2, 1) == 2 * Pow(2, 0);
    } else {
      var j, s;
      q, j, s := Decompose(n / 2);
      k, r := j + 1, 2 * s + n % 2;
      assert q * Pow(2, k) == 2 * (q * Pow(2, j));
    }
  }

  /** Rounding a scaled significand with a remainder. */
  lemma Rounded(q: nat, k: nat, r: nat)
    requires Normal(q) && r < Pow(2, k)
    ensures ToDouble(q * Pow(2, k) + r) ==
            (if 2 * r < Pow(2, k) || (2 * r == Pow(2, k) && q % 2 == 0) then q else q + 1) * Pow(2, k)
  {
    var u := Pow(2, k);
    SpacingOfScaled(q, k, r);
    var x := q * u + r;
    DivisionIsUnique(u, q, r, x / u, x % u);
  }

  /** `n` is a double that swallows the addition of one. */
  predicate Stuck(n: nat) {
    ToDouble(n) == n && ToDouble(n + 1) == n
  }

  lemma EvenIsStuck(q: nat, k: nat)
    requires Normal(q) && k >= 1 && (k == 1 ==> q % 2 == 0)
    ensures Stuck(q * Pow(2, k))
  {
    assert Pow(2, 1) == 2;
    assert k >= 2 ==> Pow(2, k) == 4 * Pow(2, k - 2);
    Rounded(q, k, 0);
    Rounded(q, k, 1);
  }

  /** A significand one beyond the last is the first of the next scale. */
  lemma CarryIsNormal(q: nat, k: nat)
    requires Normal(q)
    ensures q + 1 == LIMIT ==> (q + 1) * Pow(2, k) == HALF * Pow(2, k + 1)
  {
    assert HALF * Pow(2, k + 1) == HALF * (2 * Pow(2, k)) == (2 * HALF) * Pow(2, k);
  }

  /** The next double but one after an odd one, at the scale of two, is stuck. */
  lemma OddAdvancesOnce(q: nat)
    requires Normal(q) && q % 2 == 1
    ensures ToDouble(q * Pow(2, 1)) == q * Pow(2, 1) && ToDouble(q * Pow(2, 1) + 1) == (q + 1) * Pow(2, 1)
    ensures Stuck((q + 1) * Pow(2, 1))
  {
    assert Pow(2, 1) == 2;
    Rounded(q, 1, 0);
    Rounded(q, 1, 1);
    CarryIsNormal(q, 1);
    if q + 1 == LIMIT {
      EvenIsStuck(HALF, 2);
    } else {
      EvenIsStuck(q + 1, 1);
    }
  }

  /** A double from 2^53 on: adding one once leads to a stuck one. */
  lemma AddOne(q: nat, k: nat)
    requires Normal(q) && k >= 1
    ensures Stuck(ToDouble(q * Pow(2, k) + 1))
  {
    if k == 1 && q % 2 == 1 {
      OddAdvancesOnce(q);
    } else {
      EvenIsStuck(q, k);
    }
  }

  lemma DoubleOf(n: nat) returns (q: nat, k: nat)
    requires n >= LIMIT
    ensures Normal(q) && k >= 1 && ToDouble(n) == q * Pow(2, k)
  {
    var r;
    q, k, r := Decompose(n);
    Rounded(q, k, r);
    if ToDouble(n) != q * Pow(2, k) {
      CarryIsNormal(q, k);
      if q + 1 == LIMIT {
        q, k := HALF, k + 1;
      } else {
        q := q + 1;
      }
    }
  }

  /** The id at 2^53 does not advance. */
  lemma IdSticks(n: nat)
    requires Stuck(n) || n == LIMIT
    ensures NextId(Some(IdOf(n))) == Some(IdOf(n))
  {
    NumeralRoundTrip(n);
    if n == LIMIT {
      assert Pow(2, 1) == 2 * Pow(2, 0);
      EvenIsStuck(HALF, 1);
    }
  }

  /**
   Ids advance by exactly one while they are below 2^53. From there on an id changes at most once
   more and then stays what it is, however often the keyring is rotated.
   */
  lemma IdsAdvanceThenStick(n: nat)
    ensures n < Pow(2, 53) ==> NextId(Some(IdOf(n))) == Some(IdOf(n + 1))
    ensures n >= Pow(2, 53) ==> var next := NextId(Some(IdOf(n))); next.Some? && NextId(next) == next
  {
    LimitIsExact();
    if n < LIMIT {
      NextIdAdvances(n);
    } else {
      NumeralRoundTrip(n);
      var q, k := DoubleOf(n);
      AddOne(q, k);
      IdSticks(ToDouble(q * Pow(2, k) + 1));
    }
  }

  /** Beyond 2^53 an id may advance by another amount than one: by two here. */
  lemma IdsSkipBeyondLimit()
    ensures NextId(Some(IdOf(Pow(2, 53) + 2))) == Some(IdOf(Pow(2, 53) + 4))
  {
    LimitIsExact();
    assert Pow(2, 1) == 2 * Pow(2, 0);
    NumeralRoundTrip(LIMIT + 2);
    OddAdvancesOnce(HALF + 1);
  }

  /** Numerals hold no NUL, so they can be separated by one. */
  lemma IdsAreNulFree(n: nat)
    ensures NulFree(IdOf(n))
  {
    NumeralRoundTrip(n);
  }
}
