/** Facts about multiplication and floor division that the solver does not
    find on its own. */
module Arithmetic {

  lemma {:induction false} MulAtLeast(k: nat, d: int)
    requires d >= 1
    ensures d * k >= k
    decreases d
  {
    if d > 1 {
      MulAtLeast(k, d - 1);
      assert d * k == (d - 1) * k + k;
    }
  }

  lemma MulSucc(i: int, k: int)
    ensures (i + 1) * k == i * k + k
  {
  }

  lemma MulAdd(a: int, b: int, k: int)
    ensures a * k + b * k == (a + b) * k
  {
  }

  /** Floor division is determined by quotient and remainder. */
  lemma DivUnique(n: int, k: nat, q: int, m: int)
    requires k > 0 && 0 <= m < k && n == q * k + m
    ensures n / k == q && n % k == m
  {
    var q', m' := n / k, n % k;
    assert q' * k + m' == q * k + m;
    if q > q' {
      MulAtLeast(k, q - q');
    } else if q < q' {
      MulAtLeast(k, q' - q);
    }
  }

  lemma DivStep(n: nat, k: nat)
    requires 0 < k <= n
    ensures n / k == 1 + (n - k) / k
  {
    var q, m := (n - k) / k, (n - k) % k;
    assert n == (q + 1) * k + m;
    DivUnique(n, k, q + 1, m);
  }

  lemma MulDiv(a: nat, k: nat)
    requires k > 0
    ensures (a * k) / k == a
  {
    DivUnique(a * k, k, a, 0);
  }

  /** The largest multiple of k not above n. */
  lemma FloorBounds(n: nat, k: nat)
    requires k > 0
    ensures (n / k) * k <= n < (n / k) * k + k
  {
  }
}
