/** Binomial coefficients, the counting facts the enumerations are measured against. */
module Combinatorics {

  /** C(n, k) by Pascal's rule. */
  function Binomial(n: nat, k: nat): nat
  {
    if k == 0 then 1
    else if n == 0 then 0
    else Binomial(n - 1, k - 1) + Binomial(n - 1, k)
  }

  /** There is at least one way to choose k of n things when k <= n, and none otherwise. */
  lemma {:induction false} BinomialPositive(n: nat, k: nat)
    ensures Binomial(n, k) >= 1 <==> k <= n
  {
    if k > 0 && n > 0 {
      BinomialPositive(n - 1, k - 1);
      BinomialPositive(n - 1, k);
    }
  }

  /** The absorption identity C(n, k+1) * (k+1) == C(n, k) * (n - k). */
  lemma {:induction false} BinomialAbsorption(n: nat, k: nat)
    ensures Binomial(n, k + 1) * (k + 1) == Binomial(n, k) * (n - k)
  {
    if n == 0 {
      assert Binomial(0, k + 1) == 0;
      if k > 0 { assert Binomial(0, k) == 0; }
    } else {
      var a, b := Binomial(n - 1, k), Binomial(n - 1, k + 1);
      BinomialAbsorption(n - 1, k);
      assert b * (k + 1) == a * (n - 1 - k);
      assert Binomial(n, k + 1) == a + b;
      Distribute(a, b, k + 1);
      assert Binomial(n, k + 1) * (k + 1) == a * n by {
        Distribute(a, 0, k + 1);
        Factor(a, k + 1, n - 1 - k);
      }
      if k == 0 {
        assert Binomial(n, 0) == 1;
      } else {
        var c := Binomial(n - 1, k - 1);
        BinomialAbsorption(n - 1, k - 1);
        assert a * k == c * (n - k);
        assert Binomial(n, k) == c + a;
        Distribute(c, a, n - k);
        Factor(a, k, n - k);
      }
    }
  }

  lemma {:induction false} Distribute(x: int, y: int, z: int)
    ensures (x + y) * z == x * z + y * z
  {
  }

  lemma {:induction false} Factor(x: int, y: int, z: int)
    ensures x * y + x * z == x * (y + z)
  {
  }
}
