/** Small facts of arithmetic shared by the proofs. */
module Arithmetic {

  lemma Cancel(x: real, a: real, b: real)
    requires x != 0.0 && x * a == x * b
    ensures a == b
  {
    assert x * (a - b) == 0.0;
  }

  lemma Quotient(r: real, d: real, n: real)
    requires d != 0.0 && r * d == n
    ensures r == n / d
  {
    assert n / d * d == n;
    Cancel(d, r, n / d);
  }

  lemma Distribute(c: real, p: real, q: real)
    ensures c * (p + q) == c * p + c * q
  {
  }

  lemma Scale(c: nat, a: int, b: int)
    requires a <= b
    ensures c * a <= c * b
  {
  }
}
