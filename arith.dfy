/** Real products and quotients behind named functions, with the handful of
    order facts the proofs need. Naming the product lets the solver match
    these facts by congruence where raw nonlinear terms defeat it. */
module Arith {

  function Mul(x: real, y: real): real
  {
    x * y
  }

  function Sq(x: real): real
  {
    Mul(x, x)
  }

  function Quot(n: real, d: real): real
    requires d != 0.0
  {
    n / d
  }

  lemma MulPositive(x: real, y: real)
    requires x > 0.0 && y > 0.0
    ensures Mul(x, y) > 0.0
  {
  }

  lemma MulNonNegative(x: real, y: real)
    requires x >= 0.0 && y >= 0.0
    ensures Mul(x, y) >= 0.0
  {
  }

  lemma MulMonoLeft(x: real, y: real, z: real)
    requires x >= 0.0 && y <= z
    ensures Mul(x, y) <= Mul(x, z)
  {
    assert x * z - x * y == x * (z - y);
  }

  lemma MulStrictLeft(x: real, y: real, z: real)
    requires x > 0.0 && y < z
    ensures Mul(x, y) < Mul(x, z)
  {
    assert x * z - x * y == x * (z - y);
    assert x * (z - y) > 0.0;
  }

  lemma MulComm(x: real, y: real)
    ensures Mul(x, y) == Mul(y, x)
  {
  }

  lemma SqNonNegative(x: real)
    ensures Sq(x) >= 0.0
  {
    if x < 0.0 {
      assert Mul(x, x) == Mul(-x, -x);
      MulNonNegative(-x, -x);
    } else {
      MulNonNegative(x, x);
    }
  }

  /** Squaring preserves the order of non-negative reals. */
  lemma SqMonotone(x: real, y: real)
    requires x >= 0.0 && y >= 0.0
    ensures x < y <==> Sq(x) < Sq(y)
    ensures x <= y ==> Sq(x) <= Sq(y)
  {
    MulComm(x, y);
    if x < y {
      MulMonoLeft(x, x, y);
      MulStrictLeft(y, x, y);
    } else {
      MulMonoLeft(y, y, x);
      MulMonoLeft(x, y, x);
    }
  }

  lemma QuotNonNegative(n: real, d: real)
    requires n >= 0.0 && d > 0.0
    ensures Quot(n, d) >= 0.0
  {
  }

  /** A larger positive divisor gives a smaller quotient. */
  lemma QuotShrinks(n: real, a: real, b: real)
    requires n >= 0.0 && 0.0 < a <= b
    ensures Quot(n, b) <= Quot(n, a)
  {
    assert n / b * b == n;
    assert n / a * a == n;
    MulMonoLeft(n / b, a, b);
  }

  lemma QuotSquared(n: real, d: real)
    requires d > 0.0
    ensures Sq(d) > 0.0
    ensures Sq(Quot(n, d)) == Quot(Sq(n), Sq(d))
  {
    MulPositive(d, d);
    var x := n / d;
    assert x * d == n;
    assert (x * x) * (d * d) == n * n;
  }
}
