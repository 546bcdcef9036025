/** Facts about products and quotients. */
module Arith {
  lemma MulMono(n: nat, a: int, b: int)
    ensures a <= b ==> n * a <= n * b
  {
  }

  /** Quotient and remainder are unique. */
  lemma DivMod(n: nat, q: nat, r: nat)
    requires r < n
    ensures (n * q + r) / n == q && (n * q + r) % n == r
  {
    var x := n * q + r;
    var q', r' := x / n, x % n;
    assert x == n * q' + r';
    MulMono(n, q' + 1, q);
    MulMono(n, q + 1, q');
  }
}
