/**
 The exact Clopper-Pearson interval: 120 bisection steps over the binomial tail, over exact reals and
 without the final rounding to 15 digits.
 */
module ClopperPearson {
  import opened Binomial

  const STEPS: nat := 120
  const ALPHA_TAIL := 0.025

  datatype Bracket = Bracket(lower: real, upper: real) {
    function Midpoint(): real { (lower + upper) / 2.0 }
  }

  /** Regularised beta distribution function for whole shape parameters. */
  function BetaCdf(x: real, a: nat, b: nat): real
    requires b >= 1
  {
    Tail(a + b - 1, a, x)
  }

  function Halve(b: Bracket, right: bool): Bracket {
    if right then Bracket(b.Midpoint(), b.upper) else Bracket(b.lower, b.Midpoint())
  }

  /** The bracket after `k` steps towards the point where the tail of `a` in `n` reaches `p`. */
  function Narrowed(p: real, n: nat, a: nat, k: nat): Bracket {
    if k == 0 then Bracket(0.0, 1.0)
    else
      var b := Narrowed(p, n, a, k - 1);
      Halve(b, Tail(n, a, b.Midpoint()) < p)
  }

  method BetaQuantile(probability: real, a: nat, b: nat) returns (quantile: real)
    requires a >= 1 && b >= 1 && 0.0 < probability <= 1.0
    ensures quantile == Narrowed(probability, a + b - 1, a, STEPS).Midpoint()
    ensures forall x :: 0.0 <= x <= 1.0 && BetaCdf(x, a, b) == probability ==>
              quantile - Pow(0.5, STEPS + 1) <= x <= quantile + Pow(0.5, STEPS + 1)
  {
    var lower, upper := 0.0, 1.0;
    for k := 0 to STEPS
      invariant Bracket(lower, upper) == Narrowed(probability, a + b - 1, a, k)
    {
      var midpoint := (lower + upper) / 2.0;
      if BetaCdf(midpoint, a, b) < probability {
        lower := midpoint;
      } else {
        upper := midpoint;
      }
    }
    NarrowedBrackets(probability, a + b - 1, a, STEPS);
    forall x | 0.0 <= x <= 1.0 && BetaCdf(x, a, b) == probability
      ensures Narrowed(probability, a + b - 1, a, STEPS).lower < x <= Narrowed(probability, a + b - 1, a, STEPS).upper
    {
      CrossingIsInside(probability, a + b - 1, a, STEPS, x);
    }
    hide Narrowed, Tail;
    quantile := (lower + upper) / 2.0;
  }

  /** The interval the summary reports, as a function of the counts. */
  function LowerEnd(successes: nat, trials: nat): real {
    if successes > 0 then Narrowed(ALPHA_TAIL, trials, successes, STEPS).Midpoint() else 0.0
  }

  function UpperEnd(successes: nat, trials: nat): real {
    if successes < trials then Narrowed(1.0 - ALPHA_TAIL, trials, successes + 1, STEPS).Midpoint() else 1.0
  }

  method ClopperPearson95(successes: nat, trials: nat) returns (lower: real, upper: real)
    requires successes <= trials
    ensures lower == LowerEnd(successes, trials) && upper == UpperEnd(successes, trials)
    ensures 0.0 <= lower <= upper <= 1.0
  {
    lower := 0.0;
    upper := 1.0;
    if successes > 0 {
      lower := BetaQuantile(ALPHA_TAIL, successes, trials - successes + 1);
    }
    if successes < trials {
      upper := BetaQuantile(1.0 - ALPHA_TAIL, successes + 1, trials - successes);
    }
    EndsAreOrdered(successes, trials);
  }

  // ---------------------------------------------------------------- bisection

  /** Every step keeps `cdf(lower) < p <= cdf(upper)` and halves the width. */
  lemma {:induction false} NarrowedBrackets(p: real, n: nat, a: nat, k: nat)
    requires 1 <= a <= n && 0.0 < p <= 1.0
    ensures var b := Narrowed(p, n, a, k);
            && 0.0 <= b.lower < b.upper <= 1.0 && b.upper - b.lower == Pow(0.5, k)
            && Tail(n, a, b.lower) < p <= Tail(n, a, b.upper)
            && b.upper - b.Midpoint() == b.Midpoint() - b.lower == Pow(0.5, k + 1)
  {
    if k == 0 {
      TailAtTheEnds(n, a);
    } else {
      NarrowedBrackets(p, n, a, k - 1);
      hide Tail;
    }
  }

  /** A point where the tail equals `p` never leaves the bracket. */
  lemma {:induction false} CrossingIsInside(p: real, n: nat, a: nat, k: nat, x: real)
    requires 1 <= a <= n && 0.0 < p <= 1.0
    requires 0.0 <= x <= 1.0 && Tail(n, a, x) == p
    ensures Narrowed(p, n, a, k).lower < x <= Narrowed(p, n, a, k).upper
  {
    var b := Narrowed(p, n, a, k);
    NarrowedBrackets(p, n, a, k);
    hide Narrowed, Tail;
    if x <= b.lower { TailIsMonotone(n, a, x, b.lower); assert false; }
    if b.upper < x { TailIsStrict(n, a, b.upper, x); assert false; }
  }

  /**
   Two bisections run in lockstep. If wherever the first goes right the second does too, their brackets
   are the same or lie apart in order.
   */
  lemma {:induction false} Lockstep(p: real, a: nat, q: real, b: nat, n: nat, k: nat)
    requires 0.0 < p <= q <= 1.0 && 1 <= a <= b <= n
    ensures Narrowed(p, n, a, k) == Narrowed(q, n, b, k) || Narrowed(p, n, a, k).upper <= Narrowed(q, n, b, k).lower
  {
    if k > 0 {
      Lockstep(p, a, q, b, n, k - 1);
      NarrowedBrackets(p, n, a, k - 1);
      NarrowedBrackets(q, n, b, k - 1);
      TailShrinks(n, a, b, Narrowed(p, n, a, k - 1).Midpoint());
      hide Tail, Pow;
    }
  }

  lemma {:induction false} LockstepMidpoints(p: real, a: nat, q: real, b: nat, n: nat)
    requires 0.0 < p <= q <= 1.0 && 1 <= a <= b <= n
    ensures 0.0 <= Narrowed(p, n, a, STEPS).Midpoint() <= Narrowed(q, n, b, STEPS).Midpoint() <= 1.0
  {
    Lockstep(p, a, q, b, n, STEPS);
    NarrowedBrackets(p, n, a, STEPS);
    NarrowedBrackets(q, n, b, STEPS);
    hide Narrowed, Tail, Pow;
  }

  lemma {:induction false} EndsAreOrdered(s: nat, n: nat)
    requires s <= n
    ensures 0.0 <= LowerEnd(s, n) <= UpperEnd(s, n) <= 1.0
  {
    hide Narrowed;
    if 0 < s { LockstepMidpoints(ALPHA_TAIL, s, ALPHA_TAIL, s, n); }
    if s < n { LockstepMidpoints(1.0 - ALPHA_TAIL, s + 1, 1.0 - ALPHA_TAIL, s + 1, n); }
    if 0 < s < n { LockstepMidpoints(ALPHA_TAIL, s, 1.0 - ALPHA_TAIL, s + 1, n); }
  }

  /** More successes never move either end down. */
  lemma {:induction false} EndsAreMonotone(s: nat, t: nat, n: nat)
    requires s <= t <= n
    ensures LowerEnd(s, n) <= LowerEnd(t, n) && UpperEnd(s, n) <= UpperEnd(t, n)
  {
    hide Narrowed;
    EndsAreOrdered(s, n);
    EndsAreOrdered(t, n);
    if 0 < s { LockstepMidpoints(ALPHA_TAIL, s, ALPHA_TAIL, t, n); }
    if t < n { LockstepMidpoints(1.0 - ALPHA_TAIL, s + 1, 1.0 - ALPHA_TAIL, t + 1, n); }
  }

  /**
   The interval inverts the two one-sided tests at 2.5%: outside it, by more than 2^-121, a chance makes as
   many successes or as few of them at most that probable, and inside it, by more than 2^-121, neither.
   */
  lemma {:induction false} IntervalInvertsTheTests(s: nat, n: nat, x: real)
    requires s <= n && 0.0 <= x <= 1.0
    ensures x < LowerEnd(s, n) - Pow(0.5, 121) ==> Tail(n, s, x) < 0.025
    ensures LowerEnd(s, n) + Pow(0.5, 121) < x ==> Tail(n, s, x) >= 0.025
    ensures UpperEnd(s, n) + Pow(0.5, 121) < x ==> 1.0 - Tail(n, s + 1, x) <= 0.025
    ensures x < UpperEnd(s, n) - Pow(0.5, 121) ==> 1.0 - Tail(n, s + 1, x) > 0.025
  {
    PowSign(0.5, 121);
    if s > 0 { SplitsTheTail(0.025, n, s, x); } else { TailIsWhole(n, x); }
    if s < n { SplitsTheTail(0.975, n, s + 1, x); } else { assert Tail(n, n + 1, x) == 0.0; }
    hide Tail, Narrowed, Pow;
  }

  /** Below the bisected point the tail is less than the level, above it at least the level. */
  lemma {:induction false} SplitsTheTail(p: real, n: nat, a: nat, x: real)
    requires 1 <= a <= n && 0.0 < p <= 1.0 && 0.0 <= x <= 1.0
    ensures x < Narrowed(p, n, a, 120).Midpoint() - Pow(0.5, 121) ==> Tail(n, a, x) < p
    ensures Narrowed(p, n, a, 120).Midpoint() + Pow(0.5, 121) < x ==> Tail(n, a, x) >= p
  {
    var b := Narrowed(p, n, a, 120);
    NarrowedBrackets(p, n, a, 120);
    hide Narrowed, Tail, Pow;
    if x < b.lower { TailIsMonotone(n, a, x, b.lower); }
    if b.upper < x { TailIsMonotone(n, a, b.upper, x); }
  }

  // ---------------------------------------------------------------- coverage

  datatype Verdict = Covered | TooLow | TooHigh

  /** Where the true chance lies against the reported interval widened by the bisection error. */
  function VerdictOf(n: nat, s: nat, chance: real): Verdict {
    if chance < LowerEnd(s, n) - Pow(0.5, STEPS + 1) then TooLow
    else if UpperEnd(s, n) + Pow(0.5, STEPS + 1) < chance then TooHigh
    else Covered
  }

  /** The probability, at this chance, of at least `from` successes whose interval gets this verdict. */
  function Mass(n: nat, from: nat, chance: real, v: Verdict): real
    decreases n + 1 - from
  {
    if from > n then 0.0
    else (if VerdictOf(n, from, chance) == v then Weight(n, from, chance) else 0.0) + Mass(n, from + 1, chance, v)
  }

  lemma {:induction false} TooLowIsRare(n: nat, s: nat, chance: real)
    requires s <= n && 0.0 <= chance <= 1.0 && VerdictOf(n, s, chance) == TooLow
    ensures Tail(n, s, chance) < ALPHA_TAIL
  {
    hide Tail, Narrowed;
    PowSign(0.5, STEPS + 1);
    NarrowedBrackets(ALPHA_TAIL, n, s, STEPS);
    TailIsMonotone(n, s, chance, Narrowed(ALPHA_TAIL, n, s, STEPS).lower);
  }

  lemma {:induction false} TooHighIsRare(n: nat, s: nat, chance: real)
    requires s <= n && 0.0 <= chance <= 1.0 && VerdictOf(n, s, chance) == TooHigh
    ensures Tail(n, s + 1, chance) >= 1.0 - ALPHA_TAIL
  {
    hide Tail, Narrowed;
    PowSign(0.5, STEPS + 1);
    NarrowedBrackets(1.0 - ALPHA_TAIL, n, s + 1, STEPS);
    TailIsMonotone(n, s + 1, Narrowed(1.0 - ALPHA_TAIL, n, s + 1, STEPS).upper, chance);
  }

  lemma {:induction false} MassTooLow(n: nat, from: nat, chance: real)
    requires 0.0 <= chance <= 1.0
    ensures Mass(n, from, chance, TooLow) <= Tail(n, from, chance)
    ensures Mass(n, from, chance, TooLow) <= ALPHA_TAIL
    decreases n + 1 - from
  {
    hide Weight, VerdictOf;
    if from <= n {
      MassTooLow(n, from + 1, chance);
      WeightSign(n, from, chance);
      if VerdictOf(n, from, chance) == TooLow { TooLowIsRare(n, from, chance); }
    }
  }

  lemma {:induction false} MassTooHigh(n: nat, from: nat, chance: real)
    requires 0.0 <= chance <= 1.0
    ensures Mass(n, from, chance, TooHigh) == 0.0
         || Mass(n, from, chance, TooHigh) + (1.0 - Tail(n, from, chance)) <= ALPHA_TAIL
    decreases n + 1 - from
  {
    hide Weight, VerdictOf;
    if from <= n {
      MassTooHigh(n, from + 1, chance);
      WeightSign(n, from, chance);
      if VerdictOf(n, from, chance) == TooHigh { TooHighIsRare(n, from, chance); }
    }
  }

  lemma {:induction false} MassAddsUp(n: nat, from: nat, chance: real)
    ensures Mass(n, from, chance, Covered) + Mass(n, from, chance, TooLow) + Mass(n, from, chance, TooHigh)
         == Tail(n, from, chance)
    decreases n + 1 - from
  {
    hide Weight, VerdictOf;
    if from <= n { MassAddsUp(n, from + 1, chance); }
  }

  /**
   The interval is exact: whatever the true chance, the reported interval, widened at both ends by the
   bisection error of 2^-121, covers it with probability at least 0.95.
   */
  lemma {:induction false} CoverageIsAtLeast95Percent(n: nat, chance: real)
    requires 0.0 <= chance <= 1.0
    ensures Mass(n, 0, chance, Covered) >= 0.95
  {
    hide Tail, Mass;
    MassAddsUp(n, 0, chance);
    MassTooLow(n, 0, chance);
    MassTooHigh(n, 0, chance);
    TailIsWhole(n, chance);
  }
}
