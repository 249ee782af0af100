/** Multiplication and division facts used by the ring buffer and the windows. */
module Arithmetic {

  lemma {:induction false} MulMonotone(n: nat, a: nat, b: nat)
    requires a <= b
    ensures n * a <= n * b
  {
  }

  lemma {:induction false} MulGap(n: nat, a: nat, b: nat)
    ensures a < b ==> n * a + n <= n * b
    ensures a == b ==> n * a == n * b
  {
    if a < b {
      MulMonotone(n, a + 1, b);
      assert n * (a + 1) == n * a + n;
    }
  }

  /** The remainder is the only r below n with a == n * q + r. */
  lemma {:induction false} RemainderUnique(a: nat, n: nat, q: nat, r: nat)
    requires r < n && a == n * q + r
    ensures a % n == r && a / n == q
  {
    assert a == n * (a / n) + a % n;
    MulGap(n, a / n, q);
    MulGap(n, q, a / n);
  }
}
