/** Small facts about Euclidean division that the clock arithmetic rests on. */
module Arith {

  /** A product of a positive factor and a factor of at least one is at least the positive factor. */
  lemma {:induction false} MulAtLeast(z: int, d: int)
    requires z >= 1 && d > 0
    ensures z * d >= d
  {
    if z > 1 {
      MulAtLeast(z - 1, d);
      assert z * d == (z - 1) * d + d;
    }
  }

  /** Quotient and remainder are determined by any decomposition with an in-range remainder. */
  lemma DivModUnique(x: int, d: int, q: int, r: int)
    requires d > 0 && 0 <= r < d && x == q * d + r
    ensures x / d == q && x % d == r
  {
    var q0, r0 := x / d, x % d;
    assert x == q0 * d + r0;
    assert (q - q0) * d == r0 - r;
    if q > q0 {
      MulAtLeast(q - q0, d);
    } else if q < q0 {
      MulAtLeast(q0 - q, d);
    }
  }

  /** Reducing modulo a multiple first does not change a remainder. */
  lemma ModOfModMultiple(b: int, k: int, n: int)
    requires k > 0 && n > 0
    ensures (b % (k * n)) % k == b % k
  {
    var r := b % (k * n);
    assert b == (b / (k * n)) * (k * n) + r;
    assert r == (r / k) * k + r % k;
    assert b == ((b / (k * n)) * n + r / k) * k + r % k;
    DivModUnique(b, k, (b / (k * n)) * n + r / k, r % k);
  }

  /** Splitting off the milliseconds: the remainder modulo a whole number of seconds. */
  lemma ModSplitThousand(t: int, p: int)
    requires p > 0
    ensures t % (1000 * p) == 1000 * ((t / 1000) % p) + t % 1000
  {
    var a := t / 1000;
    assert t == 1000 * a + t % 1000;
    assert a == (a / p) * p + a % p;
    assert t == (a / p) * (1000 * p) + (1000 * (a % p) + t % 1000);
    DivModUnique(t, 1000 * p, a / p, 1000 * (a % p) + t % 1000);
  }

  /** Shifting a count by `(target - n0) % p` lands it on the residue `target`. */
  lemma ShiftHitsResidue(n0: int, p: int, target: int)
    requires p > 0 && 0 <= target < p
    ensures (n0 + (target - n0) % p) % p == target
  {
    var x := target - n0;
    assert x == (x / p) * p + x % p;
    DivModUnique(n0 + x % p, p, -(x / p), target);
  }

  /** Within one run of `p` consecutive shifts, only one lands on a given residue. */
  lemma ShiftToResidueUnique(n0: int, p: int, target: int, k: int)
    requires p > 0 && 0 <= target < p
    requires 0 <= k < p && (n0 + k) % p == target
    ensures k == (target - n0) % p
  {
    var x := target - n0;
    var k0 := x % p;
    var q := (n0 + k) / p;
    assert x == (x / p) * p + k0;
    assert n0 + k == q * p + target;
    assert k - k0 == (q + x / p) * p;
    if k >= k0 {
      DivModUnique(k - k0, p, q + x / p, 0);
      DivModUnique(k - k0, p, 0, k - k0);
    } else {
      DivModUnique(k0 - k, p, -(q + x / p), 0);
      DivModUnique(k0 - k, p, 0, k0 - k);
    }
  }
}
