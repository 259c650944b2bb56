/** Powers of two, and division by a variable. */
module Arithmetic {

  function Pow2(k: nat): (r: nat)
    ensures r >= 1
  {
    if k == 0 then 1 else 2 * Pow2(k - 1)
  }

  lemma Scale(n: nat, a: nat, b: nat)
    requires a <= b
    ensures n * a <= n * b
  {
    assert n * b == n * a + n * (b - a);
  }

  /** Division is determined by its defining equation. */
  lemma Quotient(n: nat, q: nat, r: nat)
    requires r < n
    ensures (n * q + r) / n == q && (n * q + r) % n == r
  {
    var x := n * q + r;
    var k := x / n;
    assert x == n * k + x % n;
    if k < q {
      Scale(n, k + 1, q);
    } else if q < k {
      Scale(n, q + 1, k);
    }
  }
}
