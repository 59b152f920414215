/** The arithmetic of the outcome count: `k` remaining colours can roll in
    `k!` orders, each with `3^k` die values. */
module Counting {
  function Fact(n: nat): (r: nat)
    ensures r >= 1
  {
    if n == 0 then 1 else n * Fact(n - 1)
  }

  function Pow3(n: nat): (r: nat)
    ensures r >= 1
  {
    if n == 0 then 1 else 3 * Pow3(n - 1)
  }

  /** `a` groups of `x`, counted one group at a time. */
  function Times(a: nat, x: nat): nat {
    if a == 0 then 0 else Times(a - 1, x) + x
  }

  lemma {:induction false} TimesIsProduct(a: nat, x: nat)
    ensures Times(a, x) == a * x
  {
    if a > 0 {
      TimesIsProduct(a - 1, x);
      assert (a - 1) * x + x == a * x;
    }
  }

  /** The outcomes of `k` colours still to roll: each of the `k` colours
      with each of the 3 values, followed by the outcomes of the other
      `k - 1`. */
  function Outcomes(k: nat): nat {
    if k == 0 then 1 else Times(k, Times(3, Outcomes(k - 1)))
  }

  /** The count in closed form, `k!·3^k`. */
  lemma {:induction false} OutcomesClosedForm(k: nat)
    ensures Outcomes(k) == Fact(k) * Pow3(k)
  {
    if k > 0 {
      OutcomesClosedForm(k - 1);
      TimesIsProduct(3, Outcomes(k - 1));
      TimesIsProduct(k, 3 * Outcomes(k - 1));
      Rearrange(k, Fact(k - 1), Pow3(k - 1));
    }
  }

  lemma Rearrange(k: nat, f: nat, p: nat)
    ensures k * (3 * (f * p)) == (k * f) * (3 * p)
  {
  }

  /** `COUNT_ALL = 5 * 4 * 3 * 2 * 3^5`, the number of outcomes of a whole
      round of five colours, which both engines' `main` divide by. */
  const CountAll: nat := 5 * 4 * 3 * 2 * 243

  /** Five colours give `COUNT_ALL` outcomes. */
  lemma OutcomesOfFive()
    ensures Outcomes(5) == CountAll && Fact(5) * Pow3(5) == CountAll
  {
    assert Outcomes(1) == 3;
    assert Outcomes(2) == 18;
    assert Outcomes(3) == 162;
    assert Outcomes(4) == 1944;
    OutcomesClosedForm(5);
  }
}
