/** Powers and division of whole numbers. */
module Arithmetic {
  // ----- powers -----

  function Pow(x: nat, k: nat): (p: nat)
    ensures x >= 1 ==> p >= 1
  {
    if k == 0 then 1 else x * Pow(x, k - 1)
  }

  lemma Associate(x: int, y: int, z: int)
    ensures x * (y * z) == (x * y) * z
  {
  }

  /** One factor more. */
  lemma OneMore(n: int, m: int)
    ensures (n + 1) * m == n * m + m
  {
  }

  lemma {:induction false} PowAdds(x: nat, a: nat, b: nat)
    ensures Pow(x, a + b) == Pow(x, a) * Pow(x, b)
  {
    if a == 0 {
    } else {
      PowAdds(x, a - 1, b);
      Associate(x, Pow(x, a - 1), Pow(x, b));
    }
  }

  // ----- division -----

  lemma MulLower(t: int, n: int)
    requires t >= 1 && n >= 0
    ensures t * n >= n
  {
    assert (t - 1) * n >= 0;
  }

  lemma SmallMultiple(t: int, n: int)
    requires n > 0 && -n < t * n < n
    ensures t == 0
  {
    if t >= 1 {
      MulLower(t, n);
    } else if t <= -1 {
      MulLower(-t, n);
    }
  }

  /** A number has one quotient and one remainder. */
  lemma DivisionIsUnique(n: nat, q: int, r: nat, p: int, s: nat)
    requires r < n && s < n && q * n + r == p * n + s
    ensures q == p && r == s
  {
    assert (q - p) * n == q * n - p * n;
    SmallMultiple(q - p, n);
  }
}
