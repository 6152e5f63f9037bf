/** Integers through an Avro `float`: binary32 of IEEE 754-2008 (section 3.6), with a significand
    of 24 bits, rounding to nearest and ties to even. The exponent range is not limited here. */
module Float32 {
  import opened Arithmetic

  /** The largest n such that every integer up to n survives the trip. */
  const EXACT: nat := 0x100_0000

  function Pow2(e: nat): (p: nat)
    ensures p > 0
  {
    if e == 0 then 1 else 2 * Pow2(e - 1)
  }

  /** How many low bits of n do not fit in 24 bits. */
  function Excess(n: nat): nat {
    if n < EXACT then 0 else 1 + Excess(n / 2)
  }

  /** How many units n is rounded to: to nearest, ties to an even number. */
  function Units(n: nat, u: nat): (q: nat)
    requires u > 0
    ensures n / u <= q <= n / u + 1
  {
    var q, r := n / u, n % u;
    if 2 * r > u || (2 * r == u && q % 2 == 1) then q + 1 else q
  }

  function ToMultiple(n: nat, u: nat): nat
    requires u > 0
  {
    Units(n, u) * u
  }

  function Round(n: int): int {
    if n >= 0 then ToMultiple(n, Pow2(Excess(n))) else -(ToMultiple(-n, Pow2(Excess(-n))) as int)
  }

  lemma ExactBelow(n: int)
    requires -(EXACT as int) <= n <= EXACT as int
    ensures Round(n) == n
  {
    var m := if n >= 0 then n else -n;
    if m < EXACT {
      assert Excess(m) == 0 && Pow2(0) == 1;
    } else {
      assert Excess(m / 2) == 0 && Excess(m) == 1;
      assert Pow2(1) == 2;
    }
  }

  /** The first integer that does not survive, and its neighbour two above, which does. */
  lemma FirstInexact()
    ensures Round(EXACT + 1) == EXACT
    ensures Round(EXACT + 2) == EXACT + 2
  {
    assert Pow2(1) == 2 * Pow2(0) == 2;
    assert Excess((EXACT + 1) / 2) == 0 && Excess((EXACT + 2) / 2) == 0;
    assert Excess(EXACT + 1) == 1 && Excess(EXACT + 2) == 1;
  }

  /** Significand and unit of a number: n lies in the block of q units with q below 2^24. */
  lemma {:induction false} Normalised(n: nat)
    ensures n / Pow2(Excess(n)) < EXACT
    ensures Excess(n) > 0 ==> n / Pow2(Excess(n)) >= EXACT / 2
  {
    if n >= EXACT {
      Normalised(n / 2);
      HalveQuotient(n, Pow2(Excess(n / 2)));
      if Excess(n / 2) == 0 {
        assert Pow2(0) == 1;
      }
    }
  }

  lemma HalveQuotient(n: nat, u: nat)
    requires u > 0
    ensures n / 2 / u == n / (2 * u)
  {
    var q, r := n / 2 / u, n / 2 % u;
    assert n / 2 == q * u + r;
    assert n == q * (2 * u) + (2 * r + n % 2);
    QuotientUnique(n, q, 2 * r + n % 2, 2 * u);
  }

  /** A full 24-bit significand times 2^e has exactly e excess bits. */
  lemma {:induction false} ExcessOf(q: nat, e: nat)
    requires EXACT / 2 <= q < EXACT
    ensures Excess(q * Pow2(e)) == e
  {
    if e == 0 {
      assert q * Pow2(0) == q;
    } else {
      ExcessOf(q, e - 1);
      var half := q * Pow2(e - 1);
      assert q * Pow2(e) == 2 * half;
      assert half >= q by {
        assert Pow2(e - 1) >= 1;
      }
      assert 2 * half / 2 == half;
    }
  }

  lemma MultipleIsFixed(q: nat, u: nat)
    requires u > 0
    ensures ToMultiple(q * u, u) == q * u
  {
    QuotientUnique(q * u, q, 0, u);
  }

  /** Encoding what was decoded changes nothing. */
  lemma Idempotent(n: int)
    ensures Round(Round(n)) == Round(n)
  {
    var m: nat := if n >= 0 then n else -n;
    IdempotentNat(m);
    assert n < 0 && Round(m) == 0 ==> Round(n) == 0;
  }

  lemma IdempotentNat(n: nat)
    ensures Round(n) >= 0
    ensures Round(Round(n)) == Round(n)
  {
    var e := Excess(n);
    Normalised(n);
    var q := Units(n, Pow2(e));
    if e > 0 {
      if q < EXACT {
        ExcessOf(q, e);
        MultipleIsFixed(q, Pow2(e));
      } else {
        CarryIntoExponent(e);
        ExcessOf(EXACT / 2, e + 1);
        MultipleIsFixed(EXACT / 2, Pow2(e + 1));
      }
    } else {
      assert Round(n) == n;
    }
  }

  lemma CarryIntoExponent(e: nat)
    ensures EXACT * Pow2(e) == EXACT / 2 * Pow2(e + 1)
  {
  }

  lemma HalfUnit(n: nat, u: nat)
    requires u > 0
    ensures var off: int := 2 * (ToMultiple(n, u) - n);
            -(u as int) <= off <= u && (off == u || off == -(u as int) ==> Units(n, u) % 2 == 0)
  {
    var q, r := n / u, n % u;
    assert n == q * u + r && 0 <= r < u;
    assert (q + 1) * u == q * u + u;
  }

  /** Rounding, exactly: the result is a number with a 24-bit significand and the sign of n, no
      multiple of the same unit is nearer, and half way between two the even significand is taken. */
  lemma {:induction false} Nearest(n: int) returns (q: nat)
    ensures var m: nat := if n >= 0 then n else -n;
            var u := Pow2(Excess(m));
            && q <= EXACT && Round(n) == (if n >= 0 then q * u else -(q * u as int))
            && -(u as int) <= 2 * (Round(n) - n) <= u
            && (2 * (Round(n) - n) == u || 2 * (n - Round(n)) == u ==> q % 2 == 0)
  {
    var m: nat := if n >= 0 then n else -n;
    var u := Pow2(Excess(m));
    Normalised(m);
    q := Units(m, u);
    HalfUnit(m, u);
  }
}
