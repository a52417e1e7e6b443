/**
 The exact one-sided upper bound on a binomial proportion, by bisection over the binomial CDF,
 in exact reals. The bound rests on the CDF falling as the probability rises, which follows from
 conditioning on the first trial (Pascal's rule).
 */
module BinomialBound {
  import opened Options

  /** Multiplication by name, so that proofs quote its laws instead of searching for them. */
  function Prod(x: real, y: real): real {
    x * y
  }

  /** C(n, k), by Pascal's rule. */
  function Choose(n: nat, k: nat): nat {
    if k == 0 then 1 else if n == 0 then 0 else Choose(n - 1, k - 1) + Choose(n - 1, k)
  }

  function Pow(x: real, n: nat): real {
    if n == 0 then 1.0 else Prod(x, Pow(x, n - 1))
  }

  /** The probability of exactly `k` successes in `n` trials. */
  function Mass(n: nat, k: nat, p: real): real {
    if k <= n then Prod(Choose(n, k) as real, Prod(Pow(p, k), Pow(1.0 - p, n - k))) else 0.0
  }

  function SumTo(f: nat -> real, s: nat): real {
    if s == 0 then f(0) else SumTo(f, s - 1) + f(s)
  }

  function Masses(n: nat, p: real): nat -> real {
    (k: nat) => Mass(n, k, p)
  }

  /** The sum the loop computes: the probability of at most `s` successes. */
  function Cdf(n: nat, s: nat, p: real): real {
    SumTo(Masses(n, p), s)
  }

  predicate IsProbability(p: real) {
    0.0 <= p <= 1.0
  }

  /** What a first trial that succeeds with probability `p` makes of the two ways on. */
  function Mix(p: real, success: real, failure: real): real {
    Prod(p, success) + Prod(1.0 - p, failure)
  }

  /** The same probability trial by trial: a success leaves one success fewer to spend, a failure none. */
  function ByTrials(n: nat, s: int, p: real): real {
    if s < 0 then 0.0
    else if n == 0 then 1.0
    else Mix(p, ByTrials(n - 1, s - 1, p), ByTrials(n - 1, s, p))
  }

  // ---------------------------------------------------------------------------------------------
  // Laws of multiplication and of mixing
  // ---------------------------------------------------------------------------------------------

  lemma Scale(x: real, a: real, b: real)
    requires 0.0 <= x && a <= b
    ensures Prod(x, a) <= Prod(x, b)
  {
  }

  lemma Split(x: real, y: real, a: real)
    ensures Prod(x + y, a) == Prod(x, a) + Prod(y, a)
    ensures Prod(a, x + y) == Prod(a, x) + Prod(a, y)
  {
  }

  lemma Swap(x: real, y: real, z: real)
    ensures Prod(x, Prod(y, z)) == Prod(y, Prod(x, z))
  {
  }

  lemma MixAdds(p: real, a: real, b: real, c: real, d: real)
    ensures Mix(p, a, b) + Mix(p, c, d) == Mix(p, a + c, b + d)
  {
    Split(a, c, p);
    Split(b, d, 1.0 - p);
  }

  /** Mixing keeps order and bounds. */
  lemma MixRises(p: real, a: real, b: real, c: real)
    requires IsProbability(p) && 0.0 <= a <= b <= c <= 1.0
    ensures 0.0 <= Mix(p, a, b) <= Mix(p, b, c) <= 1.0
  {
    var q := 1.0 - p;
    Scale(p, 0.0, a);
    Scale(p, a, b);
    Scale(p, b, 1.0);
    Scale(q, 0.0, b);
    Scale(q, b, c);
    Scale(q, c, 1.0);
  }

  /** A mixture that leans further towards its smaller part is smaller. */
  lemma MixFalls(p: real, q: real, a: real, b: real, c: real, d: real)
    requires 0.0 <= p <= q <= 1.0 && c <= a && d <= b && c <= d
    ensures Mix(q, c, d) <= Mix(p, a, b)
  {
    var lean := q - p;
    Split(p, lean, c);
    Split(1.0 - q, lean, d);
    Scale(p, c, a);
    Scale(1.0 - p, d, b);
    Scale(lean, c, d);
  }

  lemma MixOfSame(p: real, a: real)
    ensures Mix(p, a, a) == a
  {
    Split(p, 1.0 - p, a);
  }

  /** A trial that cannot succeed leaves the failures, one that cannot fail the successes. */
  lemma MixAtEnds(a: real, b: real)
    ensures Mix(0.0, a, b) == b && Mix(1.0, a, b) == a
  {
    assert Prod(0.0, a) == 0.0 && Prod(1.0, b) == b;
    assert Prod(1.0, a) == a && Prod(0.0, b) == 0.0;
  }

  // ---------------------------------------------------------------------------------------------
  // Conditioning on the first trial
  // ---------------------------------------------------------------------------------------------

  lemma {:induction false} ChooseEdges(n: nat, k: nat)
    ensures k > n ==> Choose(n, k) == 0
    ensures Choose(n, n) == 1
  {
    if n > 0 {
      if k > n {
        ChooseEdges(n - 1, k - 1);
        ChooseEdges(n - 1, k);
      }
      ChooseEdges(n - 1, n);
    }
  }

  /** Pascal's rule, on the masses. */
  lemma MassByFirstTrial(n: nat, k: nat, p: real)
    ensures Mass(n + 1, k + 1, p) == Mix(p, Mass(n, k, p), Mass(n, k + 1, p))
  {
    var q := 1.0 - p;
    if k < n {
      var a, b := Choose(n, k) as real, Choose(n, k + 1) as real;
      var x, y := Pow(p, k), Pow(q, n - k - 1);
      var px, qy := Prod(p, x), Prod(q, y);
      assert Pow(p, k + 1) == px && Pow(q, n - k) == qy && Choose(n + 1, k + 1) as real == a + b;
      Split(a, b, Prod(px, qy));
      Swap(a, p, Prod(x, qy));
      Regroup(p, x, qy);
      Swap(px, q, y);
      Swap(b, q, Prod(px, y));
    } else if k == n {
      ChooseEdges(n, n);
      ChooseEdges(n + 1, n + 1);
      Regroup(p, Pow(p, n), 1.0);
    }
  }

  lemma Regroup(x: real, y: real, z: real)
    ensures Prod(Prod(x, y), z) == Prod(x, Prod(y, z))
  {
  }

  lemma MassAllFail(n: nat, p: real)
    ensures Mass(n + 1, 0, p) == Mix(p, 0.0, Mass(n, 0, p))
  {
  }

  /** `g` is `f` after one more trial that succeeds with probability `p`. */
  ghost predicate OneMoreTrial(f: nat -> real, g: nat -> real, p: real) {
    && g(0) == Mix(p, 0.0, f(0))
    && forall k: nat :: g(k + 1) == Mix(p, f(k), f(k + 1))
  }

  lemma MassesOneMoreTrial(n: nat, p: real)
    ensures OneMoreTrial(Masses(n, p), Masses(n + 1, p), p)
  {
    var f, g := Masses(n, p), Masses(n + 1, p);
    MassAllFail(n, p);
    forall k: nat
      ensures g(k + 1) == Mix(p, f(k), f(k + 1))
    {
      MassByFirstTrial(n, k, p);
    }
  }

  /** G(s) = p F(s-1) + (1-p) F(s), for the sums of any two such mass functions. */
  lemma {:induction false} SumsOneMoreTrial(f: nat -> real, g: nat -> real, p: real, s: nat)
    requires OneMoreTrial(f, g, p) && s > 0
    ensures SumTo(g, s) == Mix(p, SumTo(f, s - 1), SumTo(f, s))
  {
    var k := s - 1;
    assert g(k + 1) == Mix(p, f(k), f(k + 1));
    if k > 0 {
      SumsOneMoreTrial(f, g, p, k);
      MixAdds(p, SumTo(f, k - 1), SumTo(f, k), f(k), f(k + 1));
    } else {
      MixAdds(p, 0.0, f(0), f(0), f(1));
    }
  }

  /** The sum of the masses is the trial-by-trial probability. */
  lemma {:induction false} CdfIsByTrials(n: nat, s: nat, p: real)
    ensures Cdf(n, s, p) == ByTrials(n, s, p)
  {
    if n == 0 {
      if s > 0 {
        CdfIsByTrials(0, s - 1, p);
        assert Masses(0, p)(s) == 0.0;
      } else {
        assert Masses(0, p)(0) == 1.0;
      }
    } else {
      MassesOneMoreTrial(n - 1, p);
      CdfIsByTrials(n - 1, s, p);
      if s > 0 {
        CdfIsByTrials(n - 1, s - 1, p);
        SumsOneMoreTrial(Masses(n - 1, p), Masses(n, p), p, s);
      }
    }
  }

  // ---------------------------------------------------------------------------------------------
  // Monotonicity
  // ---------------------------------------------------------------------------------------------

  lemma {:induction false} ByTrialsRises(n: nat, s: int, p: real)
    requires IsProbability(p)
    ensures 0.0 <= ByTrials(n, s - 1, p) <= ByTrials(n, s, p) <= 1.0
    ensures s >= n ==> ByTrials(n, s, p) == 1.0
  {
    if n > 0 && s >= 0 {
      ByTrialsRises(n - 1, s, p);
      ByTrialsRises(n - 1, s - 1, p);
      MixRises(p, ByTrials(n - 1, s - 2, p), ByTrials(n - 1, s - 1, p), ByTrials(n - 1, s, p));
      MixOfSame(p, 1.0);
    }
  }

  lemma {:induction false} ByTrialsFalls(n: nat, s: int, p: real, q: real)
    requires 0.0 <= p <= q <= 1.0
    ensures ByTrials(n, s, q) <= ByTrials(n, s, p)
  {
    if n > 0 && s >= 0 {
      ByTrialsFalls(n - 1, s - 1, p, q);
      ByTrialsFalls(n - 1, s, p, q);
      ByTrialsRises(n - 1, s, q);
      MixFalls(p, q, ByTrials(n - 1, s - 1, p), ByTrials(n - 1, s, p),
               ByTrials(n - 1, s - 1, q), ByTrials(n - 1, s, q));
    }
  }

  /** The CDF never rises with the probability of success. */
  lemma CdfFalls(n: nat, s: nat, p: real, q: real)
    requires 0.0 <= p <= q <= 1.0
    ensures Cdf(n, s, q) <= Cdf(n, s, p)
  {
    CdfIsByTrials(n, s, p);
    CdfIsByTrials(n, s, q);
    ByTrialsFalls(n, s, p, q);
  }

  lemma {:induction false} ByTrialsAtZero(n: nat, s: int)
    requires s >= 0
    ensures ByTrials(n, s, 0.0) == 1.0
  {
    if n > 0 {
      ByTrialsAtZero(n - 1, s);
      MixAtEnds(ByTrials(n - 1, s - 1, 0.0), ByTrials(n - 1, s, 0.0));
    }
  }

  lemma {:induction false} ByTrialsAtOne(n: nat, s: int)
    requires s < n
    ensures ByTrials(n, s, 1.0) == 0.0
  {
    if s >= 0 {
      ByTrialsAtOne(n - 1, s - 1);
      MixAtEnds(ByTrials(n - 1, s - 1, 1.0), ByTrials(n - 1, s, 1.0));
    }
  }

  lemma CdfAtEnds(n: nat, s: nat)
    requires s < n
    ensures Cdf(n, s, 0.0) == 1.0 && Cdf(n, s, 1.0) == 0.0
  {
    CdfIsByTrials(n, s, 0.0);
    CdfIsByTrials(n, s, 1.0);
    ByTrialsAtZero(n, s);
    ByTrialsAtOne(n, s);
  }

  lemma MassesSumToOne(n: nat, p: real)
    requires IsProbability(p)
    ensures Cdf(n, n, p) == 1.0
  {
    CdfIsByTrials(n, n, p);
    ByTrialsRises(n, n, p);
  }

  lemma {:induction false} PowNonnegative(x: real, n: nat)
    requires x >= 0.0
    ensures Pow(x, n) >= 0.0
  {
    if n > 0 {
      PowNonnegative(x, n - 1);
      Scale(x, 0.0, Pow(x, n - 1));
    }
  }

  lemma MassNonnegative(n: nat, k: nat, p: real)
    requires IsProbability(p)
    ensures Mass(n, k, p) >= 0.0
  {
    if k <= n {
      PowNonnegative(p, k);
      PowNonnegative(1.0 - p, n - k);
      Scale(Pow(p, k), 0.0, Pow(1.0 - p, n - k));
      Scale(Choose(n, k) as real, 0.0, Prod(Pow(p, k), Pow(1.0 - p, n - k)));
    }
  }

  // ---------------------------------------------------------------------------------------------
  // The bisection
  // ---------------------------------------------------------------------------------------------

  const ROUNDS: nat := 100

  function HalfPower(n: nat): real {
    if n == 0 then 1.0 else HalfPower(n - 1) / 2.0
  }

  /** How close the bound comes: 2^-101. */
  const TOLERANCE: real := 1.0 / 2535301200456458802993406410752.0

  lemma {:induction false} HalfPowersMultiply(a: nat, b: nat)
    ensures HalfPower(a + b) == HalfPower(a) * HalfPower(b)
  {
    if a > 0 {
      HalfPowersMultiply(a - 1, b);
      assert HalfPower(a) * HalfPower(b) == HalfPower(a - 1) * HalfPower(b) / 2.0;
    }
  }

  /** After the hundred rounds half of what is left is the tolerance. */
  lemma HalfBracketIsTolerance()
    ensures HalfPower(ROUNDS + 1) == TOLERANCE
  {
    assert HalfPower(5) == 1.0 / 32.0;
    HalfPowersMultiply(5, 5);
    HalfPowersMultiply(10, 10);
    HalfPowersMultiply(20, 20);
    HalfPowersMultiply(40, 40);
    HalfPowersMultiply(80, 20);
    assert HalfPower(101) == HalfPower(100) / 2.0;
  }

  lemma {:induction false} HalfPowerPositive(n: nat)
    ensures HalfPower(n) > 0.0
  {
    if n > 0 {
      HalfPowerPositive(n - 1);
    }
  }

  /** `u` parts the probabilities the observation leaves plausible from those it rules out at `tail`. */
  ghost predicate Separates(successes: nat, trials: nat, tail: real, u: real) {
    && (forall p: real :: 0.0 <= p <= u - TOLERANCE ==> Cdf(trials, successes, p) > tail)
    && (forall p: real :: u + TOLERANCE <= p <= 1.0 ==> Cdf(trials, successes, p) <= tail)
  }

  datatype BoundError = InvalidCounts

  method ClopperPearsonUpper(successes: int, trials: int, tail: real) returns (r: Result<real, BoundError>)
    ensures r.Err? <==> !(0 <= successes <= trials) || trials < 1 || !(0.0 < tail < 1.0)
    ensures r.Ok? && successes == trials ==> r.value == 1.0
    ensures r.Ok? ==> 0.0 < r.value <= 1.0 && Separates(successes, trials, tail, r.value)
  {
    if !(0 <= successes <= trials) || trials < 1 || !(0.0 < tail < 1.0) {
      return Err(InvalidCounts);
    }
    if successes == trials {
      FullCountSeparates(trials, tail);
      return Ok(1.0);
    }
    var low, high := 0.0, 1.0;
    CdfAtEnds(trials, successes);
    var round := 0;
    while round < ROUNDS
      invariant 0 <= round <= ROUNDS
      invariant 0.0 <= low && high <= 1.0 && high - low == HalfPower(round)
      invariant Cdf(trials, successes, low) > tail && Cdf(trials, successes, high) <= tail
    {
      var probability := (low + high) / 2.0;
      HalfPowerPositive(round + 1);
      if Cdf(trials, successes, probability) > tail {
        low := probability;
      } else {
        high := probability;
      }
      round := round + 1;
    }
    BracketSeparates(successes, trials, tail, low, high);
    return Ok((low + high) / 2.0);
  }

  lemma FullCountSeparates(trials: nat, tail: real)
    requires tail < 1.0
    ensures Separates(trials, trials, tail, 1.0)
  {
    forall p: real | 0.0 <= p <= 1.0 - TOLERANCE
      ensures Cdf(trials, trials, p) > tail
    {
      MassesSumToOne(trials, p);
    }
  }

  lemma BracketSeparates(successes: nat, trials: nat, tail: real, low: real, high: real)
    requires successes < trials && 0.0 <= low && high <= 1.0 && high - low == HalfPower(ROUNDS)
    requires Cdf(trials, successes, low) > tail && Cdf(trials, successes, high) <= tail
    ensures 0.0 < (low + high) / 2.0 <= 1.0 && Separates(successes, trials, tail, (low + high) / 2.0)
  {
    HalfPowerPositive(ROUNDS);
    HalfBracketIsTolerance();
    var u := (low + high) / 2.0;
    assert u - TOLERANCE == low && u + TOLERANCE == high;
    forall p: real | 0.0 <= p <= low
      ensures Cdf(trials, successes, p) > tail
    {
      CdfFalls(trials, successes, p, low);
    }
    forall p: real | high <= p <= 1.0
      ensures Cdf(trials, successes, p) <= tail
    {
      CdfFalls(trials, successes, high, p);
    }
  }

  // ---------------------------------------------------------------------------------------------
  // What the bound promises: coverage
  // ---------------------------------------------------------------------------------------------

  /** The probability, at true rate `p`, of the outcomes up to `s` whose bound lies below `p`. */
  function MissMass(n: nat, s: nat, p: real, upper: seq<real>): real
    requires s <= n && |upper| == n + 1
  {
    (if s == 0 then 0.0 else MissMass(n, s - 1, p, upper))
    + (if upper[s] + TOLERANCE <= p then Mass(n, s, p) else 0.0)
  }

  lemma {:induction false} MissesWithinCdf(n: nat, s: nat, p: real, upper: seq<real>)
    requires s <= n && |upper| == n + 1 && IsProbability(p)
    ensures MissMass(n, s, p, upper) <= Cdf(n, s, p)
  {
    MassNonnegative(n, s, p);
    if s > 0 {
      MissesWithinCdf(n, s - 1, p, upper);
    }
  }

  /**
   Coverage of the interval: whatever the true rate, the outcomes whose upper bound misses it
   have total probability at most `tail`. With s = n that is every outcome.
   */
  lemma {:induction false} UpperBoundCovers(n: nat, s: nat, p: real, tail: real, upper: seq<real>)
    requires s <= n && |upper| == n + 1 && IsProbability(p) && 0.0 < tail
    requires forall k: nat :: k <= n ==> Separates(k, n, tail, upper[k])
    ensures MissMass(n, s, p, upper) <= tail
  {
    if upper[s] + TOLERANCE <= p {
      MissesWithinCdf(n, s, p, upper);
    } else if s > 0 {
      UpperBoundCovers(n, s - 1, p, tail, upper);
    }
  }
}
