/** Binomial weights and upper tails over exact reals: the sum behind `_beta_cdf_integer`. */
module Binomial {

  function Pow(x: real, n: nat): real {
    if n == 0 then 1.0 else x * Pow(x, n - 1)
  }

  function Choose(n: nat, k: nat): nat {
    if k == 0 then 1 else if n == 0 then 0 else Choose(n - 1, k - 1) + Choose(n - 1, k)
  }

  function Product(c: real, u: real, v: real): real {
    c * u * v
  }

  /** One more trial: with chance `x` the first value, otherwise the second. */
  function Blend(x: real, u: real, v: real): real {
    x * u + (1.0 - x) * v
  }

  /** The probability of exactly `i` successes in `n` trials of chance `x`. */
  function Weight(n: nat, i: nat, x: real): real {
    if i > n then 0.0 else Product(Choose(n, i) as real, Pow(x, i), Pow(1.0 - x, n - i))
  }

  /** The probability of at least `a` successes. */
  function Tail(n: nat, a: nat, x: real): real
    decreases n + 1 - a
  {
    if a > n then 0.0 else Weight(n, a, x) + Tail(n, a + 1, x)
  }

  // ---------------------------------------------------------------- powers and products

  lemma {:induction false} PowSign(x: real, n: nat)
    requires x >= 0.0
    ensures Pow(x, n) >= 0.0
    ensures x > 0.0 ==> Pow(x, n) > 0.0
  {
    if n > 0 { PowSign(x, n - 1); }
  }

  lemma {:induction false} PowOfOne(n: nat)
    ensures Pow(1.0, n) == 1.0
  {
    if n > 0 { PowOfOne(n - 1); }
  }

  lemma {:induction false} ChooseSign(n: nat, k: nat)
    ensures k > n ==> Choose(n, k) == 0
    ensures k <= n ==> Choose(n, k) > 0
    ensures k == n ==> Choose(n, k) == 1
  {
    if k > 0 && n > 0 {
      ChooseSign(n - 1, k - 1);
      ChooseSign(n - 1, k);
    }
  }

  lemma {:induction false} ProductSign(c: real, u: real, v: real)
    requires c >= 0.0 && u >= 0.0 && v >= 0.0
    ensures Product(c, u, v) >= 0.0
    ensures c > 0.0 && u > 0.0 && v > 0.0 ==> Product(c, u, v) > 0.0
  {
    assert c * u >= 0.0;
    if c > 0.0 && u > 0.0 { assert c * u > 0.0; }
  }

  lemma {:induction false} ProductPascal(c: real, d: real, u: real, v: real, x: real)
    ensures Product(c + d, x * u, (1.0 - x) * v)
         == Blend(x, Product(c, u, (1.0 - x) * v), Product(d, x * u, v))
    ensures Product(c, x * u, 1.0) == Blend(x, Product(c, u, 1.0), 0.0)
  {
    var w := u * v;
    assert (c + d) * (x * u) * ((1.0 - x) * v) == (c + d) * (x * (1.0 - x) * w);
    assert x * (c * u * ((1.0 - x) * v)) == c * (x * (1.0 - x) * w);
    assert (1.0 - x) * (d * (x * u) * v) == d * (x * (1.0 - x) * w);
  }

  lemma {:induction false} BlendAdds(x: real, w: real, w': real, t: real, t': real)
    ensures Blend(x, w + t, w' + t') == Blend(x, w, w') + Blend(x, t, t')
    ensures Blend(x, 0.0, w) == (1.0 - x) * w
    ensures Blend(x, w, w) == w
  {
    assert x * (w + t) == x * w + x * t;
    assert (1.0 - x) * (w' + t') == (1.0 - x) * w' + (1.0 - x) * t';
  }

  /** Moving weight towards the larger of two grown values grows the mixture. */
  lemma {:induction false} BlendGrows(x: real, y: real, u: real, v: real, u': real, v': real)
    requires 0.0 <= x <= y <= 1.0 && u <= u' && v <= v' <= u'
    ensures Blend(x, u, v) <= Blend(y, u', v')
    ensures x < y && v' < u' ==> Blend(x, u, v) < Blend(y, u', v')
  {
    assert x * u <= x * u';
    assert (1.0 - x) * v <= (1.0 - x) * v';
    assert y * u' + (1.0 - y) * v' - (x * u' + (1.0 - x) * v') == (y - x) * (u' - v');
    assert (y - x) * (u' - v') >= 0.0;
    if x < y && v' < u' { assert (y - x) * (u' - v') > 0.0; }
    assert Blend(x, u, v) <= x * u' + (1.0 - x) * v';
  }

  // ---------------------------------------------------------------- weights

  lemma {:induction false} WeightSign(n: nat, i: nat, x: real)
    requires 0.0 <= x <= 1.0
    ensures Weight(n, i, x) >= 0.0
    ensures 0.0 < x < 1.0 && i <= n ==> Weight(n, i, x) > 0.0
  {
    hide Choose, Pow, Product;
    if i <= n {
      ChooseSign(n, i);
      PowSign(x, i);
      PowSign(1.0 - x, n - i);
      ProductSign(Choose(n, i) as real, Pow(x, i), Pow(1.0 - x, n - i));
    }
  }

  lemma {:induction false} PowSplits(x: real, n: nat)
    ensures Pow(x, n + 1) == x * Pow(x, n) && Pow(x, 0) == 1.0
  {
  }

  lemma {:induction false} ChooseSplits(n: nat, i: nat)
    requires i > 0
    ensures Choose(n + 1, i) == Choose(n, i - 1) + Choose(n, i)
  {
  }

  /** Pascal's rule for one weight: the last trial succeeds or it does not. */
  lemma {:induction false} WeightPascal(n: nat, i: nat, x: real)
    requires i > 0
    ensures Weight(n + 1, i, x) == Blend(x, Weight(n, i - 1, x), Weight(n, i, x))
  {
    hide Choose, Pow, Product, Blend;
    PowSplits(x, i - 1);
    ChooseSplits(n, i);
    if i <= n {
      PowSplits(1.0 - x, n - i);
      var c, d, u, v := Choose(n, i - 1) as real, Choose(n, i) as real, Pow(x, i - 1), Pow(1.0 - x, n - i);
      assert Pow(x, i) == x * u && Pow(1.0 - x, n - i + 1) == (1.0 - x) * v;
      assert Weight(n + 1, i, x) == Product(c + d, x * u, (1.0 - x) * v);
      assert Weight(n, i - 1, x) == Product(c, u, (1.0 - x) * v);
      ProductPascal(c, d, u, v, x);
    } else if i == n + 1 {
      ChooseSign(n, n + 1);
      PowSplits(1.0 - x, 0);
      var c, u := Choose(n, n) as real, Pow(x, n);
      assert n + 1 - i == 0 && n - (i - 1) == 0;
      assert Pow(x, i) == x * u && Choose(n + 1, i) as real == c;
      assert Weight(n + 1, i, x) == Product(c, x * u, 1.0);
      assert Weight(n, i - 1, x) == Product(c, u, 1.0);
      ProductPascal(c, 0.0, u, 1.0, x);
    } else {
      BlendAdds(x, 0.0, 0.0, 0.0, 0.0);
    }
  }

  /** No success at all means that each trial failed. */
  lemma {:induction false} NoSuccess(n: nat, x: real)
    ensures Weight(n, 0, x) == Pow(1.0 - x, n)
    ensures Weight(n + 1, 0, x) == Blend(x, 0.0, Weight(n, 0, x))
  {
    PowSplits(1.0 - x, n);
    assert Choose(n, 0) == 1 && Choose(n + 1, 0) == 1 && Pow(x, 0) == 1.0;
  }

  // ---------------------------------------------------------------- tails

  /** Pascal's rule for the tail. */
  lemma {:induction false} TailPascal(n: nat, a: nat, x: real)
    requires a > 0
    ensures Tail(n + 1, a, x) == Blend(x, Tail(n, a - 1, x), Tail(n, a, x))
    decreases n + 2 - a
  {
    if a <= n + 1 {
      WeightPascal(n, a, x);
      TailPascal(n, a + 1, x);
      BlendAdds(x, Weight(n, a - 1, x), Weight(n, a, x), Tail(n, a, x), Tail(n, a + 1, x));
      assert Weight(n, a, x) + Tail(n, a + 1, x) == Tail(n, a, x);
      hide Weight, Blend;
    } else {
      BlendAdds(x, 0.0, 0.0, 0.0, 0.0);
    }
  }

  lemma {:induction false} TailIsWhole(n: nat, x: real)
    ensures Tail(n, 0, x) == 1.0
  {
    if n == 0 {
      NoSuccess(0, x);
      assert Tail(0, 1, x) == 0.0;
    } else {
      TailIsWhole(n - 1, x);
      TailPascal(n - 1, 1, x);
      NoSuccess(n - 1, x);
      hide Weight, Pow, Blend;
      assert Tail(n - 1, 0, x) == Weight(n - 1, 0, x) + Tail(n - 1, 1, x);
      BlendAdds(x, 0.0, Weight(n - 1, 0, x), 1.0, Tail(n - 1, 1, x));
      BlendAdds(x, 1.0, 1.0, 0.0, 0.0);
    }
  }

  lemma {:induction false} TailShrinks(n: nat, a: nat, b: nat, x: real)
    requires 0.0 <= x <= 1.0 && a <= b
    ensures Tail(n, b, x) <= Tail(n, a, x)
    decreases b - a
  {
    hide Weight;
    if a < b {
      TailShrinks(n, a + 1, b, x);
      WeightSign(n, a, x);
    }
  }

  /** The upper tail is non-decreasing in the chance. */
  lemma {:induction false} TailIsMonotone(n: nat, a: nat, x: real, y: real)
    requires 0.0 <= x <= y <= 1.0
    ensures Tail(n, a, x) <= Tail(n, a, y)
  {
    hide Weight, Blend;
    if a == 0 {
      TailIsWhole(n, x);
      TailIsWhole(n, y);
    } else if n > 0 {
      TailPascal(n - 1, a, x);
      TailPascal(n - 1, a, y);
      TailIsMonotone(n - 1, a - 1, x, y);
      TailIsMonotone(n - 1, a, x, y);
      TailShrinks(n - 1, a - 1, a, y);
      BlendGrows(x, y, Tail(n - 1, a - 1, x), Tail(n - 1, a, x), Tail(n - 1, a - 1, y), Tail(n - 1, a, y));
    } else {
      NoTrials(a, x);
      NoTrials(a, y);
    }
  }

  lemma {:induction false} NoTrials(a: nat, x: real)
    requires a > 0
    ensures Tail(0, a, x) == 0.0
  {
  }

  lemma {:induction false} TailAtTheEnds(n: nat, a: nat)
    requires 1 <= a <= n
    ensures Tail(n, a, 0.0) == 0.0 && Tail(n, a, 1.0) == 1.0
    decreases n + 1 - a
  {
    assert Pow(0.0, a) == 0.0;
    assert Weight(n, a, 0.0) == 0.0;
    if a == n {
      PowOfOne(n);
      ChooseSign(n, n);
      assert Tail(n, n + 1, 0.0) == 0.0 && Tail(n, n + 1, 1.0) == 0.0;
      assert Weight(n, n, 1.0) == 1.0;
    } else {
      TailAtTheEnds(n, a + 1);
      assert Pow(0.0, n - a) == 0.0;
      assert Weight(n, a, 1.0) == 0.0;
    }
  }

  /** Between 1 and `n` successes the tail is strictly increasing, so a level is crossed at most once. */
  lemma {:induction false} TailIsStrict(n: nat, a: nat, x: real, y: real)
    requires 1 <= a <= n && 0.0 <= x < y <= 1.0
    ensures Tail(n, a, x) < Tail(n, a, y)
  {
    hide Weight, Pow, Blend;
    if y == 1.0 {
      TailAtTheEnds(n, a);
      TailIsWhole(n, x);
      TailShrinks(n, 1, a, x);
      PowSign(1.0 - x, n);
      NoSuccess(n, x);
      assert Tail(n, 0, x) == Weight(n, 0, x) + Tail(n, 1, x);
    } else {
      WeightSign(n - 1, a - 1, y);
      TailPascal(n - 1, a, x);
      TailPascal(n - 1, a, y);
      TailIsMonotone(n - 1, a - 1, x, y);
      TailIsMonotone(n - 1, a, x, y);
      assert Tail(n - 1, a - 1, y) == Weight(n - 1, a - 1, y) + Tail(n - 1, a, y);
      BlendGrows(x, y, Tail(n - 1, a - 1, x), Tail(n - 1, a, x), Tail(n - 1, a - 1, y), Tail(n - 1, a, y));
    }
  }
}
