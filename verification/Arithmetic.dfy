/** Division facts that the batch and subtopic arithmetic rests on. */
module Arithmetic {

  lemma MultipleFarFromZero(k: int, d: int)
    requires d > 0
    ensures k >= 1 ==> k * d >= d
    ensures k >= 2 ==> k * d >= 2 * d
    ensures k <= -1 ==> k * d <= -d
  {
    if k >= 1 {
      assert k * d == d + (k - 1) * d;
      assert k >= 2 ==> (k - 1) * d == d + (k - 2) * d;
    } else if k <= -1 {
      assert k * d == -d + (k + 1) * d;
    }
  }

  lemma QuotientUnique(n: int, q: int, r: int, d: int)
    requires d > 0 && n == q * d + r && 0 <= r < d
    ensures n / d == q && n % d == r
  {
    assert (n / d - q) * d == r - n % d;
    MultipleFarFromZero(n / d - q, d);
  }

  lemma QuotientMonotone(p: nat, q: nat, d: nat)
    requires d > 0 && p <= q
    ensures p / d <= q / d
  {
    var a, b := p / d, q / d;
    assert p == a * d + p % d && q == b * d + q % d;
    assert (b - a) * d == b * d - a * d;
    MultipleFarFromZero(b - a, d);
  }

  /** Two numbers less than d apart lie in the same or in neighbouring blocks of length d. */
  lemma QuotientNear(p: nat, q: nat, d: nat)
    requires d > 0 && p <= q < p + d
    ensures p / d <= q / d <= p / d + 1
  {
    QuotientMonotone(p, q, d);
    var a, b := p / d, q / d;
    assert p == a * d + p % d && q == b * d + q % d;
    assert (b - a) * d == b * d - a * d;
    MultipleFarFromZero(b - a, d);
  }

  /** Counting up by one: the remainder grows until it wraps, and then the quotient grows. */
  lemma Successor(n: nat, d: nat)
    requires d > 0
    ensures n % d == d - 1 ==> (n + 1) / d == n / d + 1 && (n + 1) % d == 0
    ensures n % d != d - 1 ==> (n + 1) / d == n / d && (n + 1) % d == n % d + 1
  {
    if n % d == d - 1 {
      assert n + 1 == (n / d + 1) * d + 0;
      QuotientUnique(n + 1, n / d + 1, 0, d);
    } else {
      QuotientUnique(n + 1, n / d, n % d + 1, d);
    }
  }

  /** The block of length d that holds n. */
  lemma BlockBounds(n: nat, d: nat)
    requires d > 0
    ensures 0 <= n / d * d <= n < n / d * d + d
    ensures n - n / d * d == n % d
  {
  }

  /** Block f + 1 starts where block f ends. */
  lemma BlockEnd(f: nat, d: nat)
    ensures (f + 1) * d == f * d + d
  {
  }

  lemma BlockOf(f: nat, r: nat, d: nat)
    requires r < d
    ensures (f * d + r) / d == f && (f * d + r) % d == r
  {
    QuotientUnique(f * d + r, f, r, d);
  }

  /** An offset from a moving origin: with t in 0..k-1, t is the (s + f)-th residue exactly when
      t lies f places (mod k) after s. */
  lemma ResidueOffset(s: nat, f: nat, t: nat, k: nat)
    requires 0 < k && t < k
    ensures t == (s + f) % k <==> (t - s) % k == f % k
  {
    if t == (s + f) % k {
      var a, b := (s + f) / k, f / k;
      assert t - s == (b - a) * k + f % k;
      QuotientUnique(t - s, b - a, f % k, k);
    }
    if (t - s) % k == f % k {
      var a, b := (t - s) / k, f / k;
      assert s + f == (b - a) * k + t;
      QuotientUnique(s + f, b - a, t, k);
    }
  }

  lemma ResidueRange(n: int, k: nat)
    requires k > 0
    ensures 0 <= n % k < k
  {
  }

  /** Numbers with the same remainder lie whole multiples of the divisor apart. */
  lemma SameRemainder(d: nat, d': nat, k: nat)
    requires 0 < k && d < d' && d % k == d' % k
    ensures d / k < d' / k && d + k <= d'
    ensures d' < d + 2 * k ==> d' == d + k
  {
    var a, b, r := d / k, d' / k, d % k;
    assert d == a * k + r && d' == b * k + r;
    assert (b - a) * k == d' - d;
    MultipleFarFromZero(b - a, k);
  }
}
