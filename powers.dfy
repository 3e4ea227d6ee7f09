/** Integer powers and the integer base-2 logarithm. The host program computes
    `(int) log2(N)` in floating point; for a positive 32-bit `N` that is the
    floor of the exact logarithm, which `Log2Floor` defines on integers. */
module Powers {

  function Pow2(k: nat): (r: nat)
    ensures r >= 1
  {
    if k == 0 then 1 else 2 * Pow2(k - 1)
  }

  function Pow8(k: nat): (r: nat)
    ensures r >= 1
  {
    if k == 0 then 1 else 8 * Pow8(k - 1)
  }

  lemma {:induction false} Pow2Monotone(a: nat, b: nat)
    requires a <= b
    ensures Pow2(a) <= Pow2(b)
  {
    if a < b {
      Pow2Monotone(a, b - 1);
    }
  }

  /** One radix-8 pass consumes three bits: 8^k == 2^(3k). */
  lemma {:induction false} Pow8IsPow2(k: nat)
    ensures Pow8(k) == Pow2(3 * k)
  {
    if k > 0 {
      Pow8IsPow2(k - 1);
      assert Pow2(3 * k) == 2 * Pow2(3 * k - 1);
      assert Pow2(3 * k - 1) == 2 * Pow2(3 * k - 2);
      assert Pow2(3 * k - 2) == 2 * Pow2(3 * (k - 1));
    }
  }

  lemma Pow8Monotone(a: nat, b: nat)
    requires a <= b
    ensures Pow8(a) <= Pow8(b)
  {
    Pow8IsPow2(a);
    Pow8IsPow2(b);
    Pow2Monotone(3 * a, 3 * b);
  }

  /** floor(log2 n): the unique k with 2^k <= n < 2^(k+1). */
  function Log2Floor(n: nat): (k: nat)
    requires n >= 1
    ensures Pow2(k) <= n < Pow2(k + 1)
    ensures k < n
  {
    if n == 1 then 0 else 1 + Log2Floor(n / 2)
  }

  lemma Log2FloorUnique(n: nat, k: nat)
    requires Pow2(k) <= n < Pow2(k + 1)
    ensures Log2Floor(n) == k
  {
    var l := Log2Floor(n);
    if l < k {
      Pow2Monotone(l + 1, k);
    } else if l > k {
      Pow2Monotone(k + 1, l);
    }
  }
}
