/** The belief about the mean reward of one bandit arm, as `GaussianTS.fit_arm` of zeus/_legacy/policy/mab.py and the
    server's zeus/optimizer/batch_size/server/mab.py update it. Means, precisions and rewards are exact reals. */
module Posterior {
  import opened Lists
  import opened Outcomes

  // ---- Sums, means and variances ----

  function Total(s: seq<real>, f: real -> real): real {
    if s == [] then 0.0 else f(s[0]) + Total(s[1..], f)
  }

  function Itself(): real -> real {
    x => x
  }

  function Product(a: real, b: real): real {
    a * b
  }

  function Square(d: real): real {
    Product(d, d)
  }

  function SquaredFrom(mean: real): real -> real {
    x => Square(x - mean)
  }

  function Sum(s: seq<real>): real {
    Total(s, Itself())
  }

  function Mean(s: seq<real>): real
    requires s != []
  {
    Sum(s) / |s| as real
  }

  /** `np.var`: the mean squared deviation. */
  function Variance(s: seq<real>): real
    requires s != []
  {
    Total(s, SquaredFrom(Mean(s))) / |s| as real
  }

  lemma {:induction false} TotalOfMore(a: seq<real>, b: seq<real>, f: real -> real)
    ensures Total(a + b, f) == Total(a, f) + Total(b, f)
    decreases |a|
  {
    if a == [] {
      assert a + b == b;
    } else {
      assert (a + b)[1..] == a[1..] + b;
      TotalOfMore(a[1..], b, f);
    }
  }

  lemma TotalOfInserted(front: seq<real>, x: real, back: seq<real>, f: real -> real)
    ensures Total(front + ([x] + back), f) == f(x) + Total(front + back, f)
  {
    TotalOfMore(front, [x] + back, f);
    TotalOfMore(front, back, f);
    assert ([x] + back)[1..] == back;
  }

  lemma TotalWithout(s: seq<real>, k: nat, f: real -> real)
    requires k < |s|
    ensures Total(s, f) == f(s[k]) + Total(Without(s, k), f)
  {
    hide Total, Without;
    SplitAt(s, k);
    TotalOfInserted(s[..k], s[k], s[k + 1..], f);
  }

  /** A sum does not depend on the order. */
  lemma {:induction false} TotalPermuted(a: seq<real>, b: seq<real>, f: real -> real)
    requires multiset(a) == multiset(b)
    ensures |a| == |b| && Total(a, f) == Total(b, f)
    decreases |a|
  {
    assert |a| == |multiset(a)| && |b| == |multiset(b)|;
    if a != [] {
      assert a[0] in multiset(b);
      var k :| 0 <= k < |b| && b[k] == a[0];
      assert a == [a[0]] + a[1..];
      TotalPermuted(a[1..], Without(b, k), f);
      TotalWithout(b, k, f);
    }
  }

  predicate AllAre(s: seq<real>, x: real) {
    forall i :: 0 <= i < |s| ==> s[i] == x
  }

  predicate AllEqual(s: seq<real>) {
    forall i, j :: 0 <= i < |s| && 0 <= j < |s| ==> s[i] == s[j]
  }

  lemma ProductSigns(a: real, b: real)
    ensures a > 0.0 && b > 0.0 ==> Product(a, b) > 0.0
    ensures Product(-a, -b) == Product(a, b)
    ensures a == 0.0 ==> Product(a, b) == 0.0
  {
  }

  lemma SquareIsZero(d: real)
    ensures Square(d) >= 0.0 && (Square(d) == 0.0 <==> d == 0.0)
  {
    hide Product;
    ProductSigns(d, d);
    ProductSigns(-d, -d);
  }

  lemma {:induction false} SquaresSum(s: seq<real>, mean: real)
    ensures Total(s, SquaredFrom(mean)) >= 0.0
    ensures Total(s, SquaredFrom(mean)) == 0.0 <==> AllAre(s, mean)
    decreases |s|
  {
    hide Square;
    if s != [] {
      SquaresSum(s[1..], mean);
      SquareIsZero(s[0] - mean);
      AllAreMore(s, mean);
    }
  }

  lemma AllAreMore(s: seq<real>, x: real)
    requires s != []
    ensures AllAre(s, x) <==> s[0] == x && AllAre(s[1..], x)
  {
    assert forall i :: 0 < i < |s| ==> s[i] == s[1..][i - 1];
  }

  lemma {:induction false} SumOfEqual(s: seq<real>, x: real)
    requires AllAre(s, x)
    ensures Sum(s) == |s| as real * x
    decreases |s|
  {
    if s != [] {
      SumOfEqual(s[1..], x);
      var n := |s[1..]| as real;
      assert |s| as real == n + 1.0;
      assert (n + 1.0) * x == n * x + x;
    }
  }

  /** The comments of the source tie an infinite precision to a single observation; it is there exactly when all
      observed rewards are equal. */
  lemma InfiniteExactlyWhenAllEqual(s: seq<real>)
    requires s != []
    ensures LearnedPrecision(s) == Infinite <==> AllEqual(s)
    ensures LearnedPrecision(s).Finite? ==> LearnedPrecision(s).value > 0.0
  {
    SquaresSum(s, Mean(s));
    Quotient(Total(s, SquaredFrom(Mean(s))), |s| as real);
    if AllEqual(s) {
      SumOfEqual(s, s[0]);
      CancelFactor(|s| as real, s[0]);
      assert Mean(s) == s[0];
    }
  }

  lemma Quotient(x: real, n: real)
    requires n > 0.0 && x >= 0.0
    ensures x / n >= 0.0 && (x / n == 0.0 <==> x == 0.0)
    ensures x / n > 0.0 ==> 1.0 / (x / n) > 0.0
  {
    var q := x / n;
    assert q * n == x;
    if q > 0.0 {
      var r := 1.0 / q;
      assert r * q == 1.0;
    }
  }

  lemma CancelFactor(n: real, x: real)
    requires n > 0.0
    ensures n * x / n == x
  {
  }

  // ---- The posterior of one arm ----

  datatype Precision = Finite(value: real) | Infinite

  datatype Prior = Prior(mean: real, prec: real)

  datatype Arm = Arm(mean: real, prec: Precision, count: nat)

  function Fresh(prior: Prior): Arm {
    Arm(prior.mean, Finite(prior.prec), 0)
  }

  function Precise(p: real, r: real, n: real): real {
    p + n * r
  }

  function Weighted(p: real, mean: real, r: real, sum: real, q: real): real
    requires q != 0.0
  {
    (p * mean + r * sum) / q
  }

  /** The posterior after `n` more rewards with a given sum; None where the quotient is not a number. */
  function Updated(arm: Arm, rewardPrec: Precision, n: nat, sum: real): Option<Arm> {
    if n == 0 then Some(arm)
    else
      match rewardPrec
      case Infinite => Some(Arm(sum / n as real, Infinite, arm.count + n))
      case Finite(r) =>
        match arm.prec
        case Infinite => None
        case Finite(p) =>
          var q := Precise(p, r, n as real);
          if q == 0.0 then None else Some(Arm(Weighted(p, arm.mean, r, sum, q), Finite(q), arm.count + n))
  }

  function Fit(arm: Arm, rewardPrec: Precision, rewards: seq<real>): Option<Arm> {
    Updated(arm, rewardPrec, |rewards|, Sum(rewards))
  }

  /** The reward precision learned from the rewards themselves. */
  function LearnedPrecision(rewards: seq<real>): Precision
    requires rewards != []
  {
    if Variance(rewards) == 0.0 then Infinite else Finite(1.0 / Variance(rewards))
  }

  /** An arm that a positive reward precision `r` can be added to. */
  predicate Usable(arm: Arm, r: real) {
    arm.prec.Finite? && arm.prec.value >= 0.0 && r > 0.0
  }

  lemma FitIsUsable(arm: Arm, r: real, xs: seq<real>)
    requires Usable(arm, r)
    ensures Fit(arm, Finite(r), xs).Some? && Usable(Fit(arm, Finite(r), xs).value, r)
  {
    assert |xs| as real * r >= 0.0;
    assert xs != [] ==> |xs| as real * r > 0.0;
  }

  /** The algebra of two posterior updates. */
  lemma TwoUpdates(p: real, m: real, r: real, s: real, n: real, t: real, k: real)
    requires p >= 0.0 && r > 0.0 && n > 0.0 && k > 0.0
    ensures Precise(p, r, n) > 0.0
    ensures Precise(p, r, n + k) > 0.0
    ensures Precise(Precise(p, r, n), r, k) == Precise(p, r, n + k)
    ensures Weighted(Precise(p, r, n), Weighted(p, m, r, s, Precise(p, r, n)), r, t, Precise(p, r, n + k))
         == Weighted(p, m, r, s + t, Precise(p, r, n + k))
  {
    assert n * r > 0.0 && k * r > 0.0;
    assert (n + k) * r == n * r + k * r;
    var q := p + n * r;
    assert q * ((p * m + r * s) / q) == p * m + r * s;
    assert r * (s + t) == r * s + r * t;
  }

  /** Fitting in two steps gives the posterior of fitting all at once. */
  lemma FitSplits(arm: Arm, r: real, xs: seq<real>, ys: seq<real>)
    requires Usable(arm, r)
    ensures Fit(arm, Finite(r), xs).Some?
    ensures Fit(Fit(arm, Finite(r), xs).value, Finite(r), ys) == Fit(arm, Finite(r), xs + ys)
  {
    FitIsUsable(arm, r, xs);
    if xs == [] {
      assert xs + ys == ys;
    } else if ys == [] {
      assert xs + ys == xs;
    } else {
      TotalOfMore(xs, ys, Itself());
      UpdateTwice(arm, r, |xs|, Sum(xs), |ys|, Sum(ys));
    }
  }

  lemma UpdateTwice(arm: Arm, r: real, a: nat, s: real, b: nat, t: real)
    requires Usable(arm, r) && a > 0 && b > 0
    ensures Updated(arm, Finite(r), a, s).Some?
    ensures Updated(Updated(arm, Finite(r), a, s).value, Finite(r), b, t) == Updated(arm, Finite(r), a + b, s + t)
  {
    hide Precise, Weighted;
    TwoUpdates(arm.prec.value, arm.mean, r, s, a as real, t, b as real);
    assert (a + b) as real == a as real + b as real;
  }

  /** How badly a mean reward `y` fits: the weighted squared deviations of the prior mean and of the rewards from it,
      minus twice the logarithm of the posterior density up to a constant. */
  function Loss(arm: Arm, r: real, rewards: seq<real>, y: real): real
    requires arm.prec.Finite?
  {
    Product(arm.prec.value, Square(y - arm.mean)) + Product(r, Total(rewards, SquaredFrom(y)))
  }

  /** A sum of squared deviations from count, sum and sum of squares. */
  function Deviation(n: real, sum: real, squares: real, y: real): real {
    squares - 2.0 * y * sum + n * (y * y)
  }

  function LossOf(p: real, m: real, r: real, n: real, sum: real, squares: real, y: real): real {
    Product(p, Square(y - m)) + Product(r, Deviation(n, sum, squares, y))
  }

  lemma DeviationMore(x: real, n: real, sum: real, squares: real, y: real)
    ensures Deviation(n + 1.0, x + sum, Square(x - 0.0) + squares, y) == Square(x - y) + Deviation(n, sum, squares, y)
  {
    assert Square(x - y) == x * x - 2.0 * (y * x) + y * y;
    assert Square(x - 0.0) == x * x;
    assert 2.0 * y * (x + sum) == 2.0 * (y * x) + 2.0 * y * sum;
    assert (n + 1.0) * (y * y) == n * (y * y) + y * y;
  }

  lemma {:induction false} DeviationsFrom(s: seq<real>, y: real)
    ensures Total(s, SquaredFrom(y)) == Deviation(|s| as real, Sum(s), Total(s, SquaredFrom(0.0)), y)
    decreases |s|
  {
    hide Deviation, Square;
    if s == [] {
      NoDeviation(y);
    } else {
      DeviationsFrom(s[1..], y);
      DeviationMore(s[0], |s[1..]| as real, Sum(s[1..]), Total(s[1..], SquaredFrom(0.0)), y);
      assert |s| as real == |s[1..]| as real + 1.0;
    }
  }

  lemma NoDeviation(y: real)
    ensures Deviation(0.0, 0.0, 0.0, y) == 0.0
  {
  }

  lemma LossIs(arm: Arm, r: real, rewards: seq<real>, y: real)
    requires arm.prec.Finite?
    ensures Loss(arm, r, rewards, y)
         == LossOf(arm.prec.value, arm.mean, r, |rewards| as real, Sum(rewards), Total(rewards, SquaredFrom(0.0)), y)
  {
    hide Product, Deviation, Square, Total, Sum, SquaredFrom;
    DeviationsFrom(rewards, y);
  }

  lemma CompletedSquare(p: real, m: real, r: real, n: real, sum: real, squares: real, mu: real, q: real, y: real)
    requires q == p + n * r && q * mu == p * m + r * sum
    ensures LossOf(p, m, r, n, sum, squares, y) == LossOf(p, m, r, n, sum, squares, mu) + Product(q, Square(y - mu))
  {
    Expand(p, m, r, n, sum, squares, y);
    Expand(p, m, r, n, sum, squares, mu);
    hide LossOf;
    assert q * Square(y - mu) == q * (y * y) - 2.0 * y * (q * mu) + mu * (q * mu);
    assert q * (mu * mu) == mu * (q * mu);
  }

  lemma Expand(p: real, m: real, r: real, n: real, sum: real, squares: real, y: real)
    ensures LossOf(p, m, r, n, sum, squares, y)
         == (p + n * r) * (y * y) - 2.0 * y * (p * m + r * sum) + p * (m * m) + r * squares
  {
    assert Square(y - m) == y * y - 2.0 * (y * m) + m * m;
  }

  /** The posterior is the conjugate one: its mean is where the loss is least, and its precision is how fast the loss
      grows away from it. No other mean and precision have this property. */
  lemma PosteriorIsConjugate(arm: Arm, r: real, rewards: seq<real>, y: real)
    requires Usable(arm, r)
    ensures Fit(arm, Finite(r), rewards).Some? && Fit(arm, Finite(r), rewards).value.prec.Finite?
    ensures var after := Fit(arm, Finite(r), rewards).value;
      Loss(arm, r, rewards, y) == Loss(arm, r, rewards, after.mean) + Product(after.prec.value, Square(y - after.mean))
  {
    FitIsUsable(arm, r, rewards);
    hide *;
    PosteriorMean(arm, r, rewards);
    var after := Fit(arm, Finite(r), rewards).value;
    CompletedSquare(arm.prec.value, arm.mean, r, |rewards| as real, Sum(rewards), Total(rewards, SquaredFrom(0.0)),
                    after.mean, after.prec.value, y);
    LossIs(arm, r, rewards, y);
    LossIs(arm, r, rewards, after.mean);
  }

  lemma PosteriorMean(arm: Arm, r: real, rewards: seq<real>)
    requires Usable(arm, r)
    ensures arm.prec.Finite? && Fit(arm, Finite(r), rewards).Some? && Fit(arm, Finite(r), rewards).value.prec.Finite?
    ensures var after := Fit(arm, Finite(r), rewards).value; var q := after.prec.value;
      q == arm.prec.value + |rewards| as real * r && q * after.mean == arm.prec.value * arm.mean + r * Sum(rewards)
  {
    FitIsUsable(arm, r, rewards);
    if rewards == [] {
      assert 0.0 * r == 0.0;
    }
  }

  function FitAll(arm: Arm, rewardPrec: Precision, batches: seq<seq<real>>): Option<Arm>
    decreases |batches|
  {
    if batches == [] then Some(arm)
    else
      var next := Fit(arm, rewardPrec, batches[0]);
      if next.None? then None else FitAll(next.value, rewardPrec, batches[1..])
  }

  function Flat(batches: seq<seq<real>>): seq<real> {
    if batches == [] then [] else batches[0] + Flat(batches[1..])
  }

  /** However the rewards were split into batches, and in whatever order they came, incremental fitting equals one
      fit of all of them. */
  lemma {:induction false} IncrementalIsBatch(arm: Arm, r: real, batches: seq<seq<real>>, rewards: seq<real>)
    requires Usable(arm, r) && multiset(Flat(batches)) == multiset(rewards)
    ensures FitAll(arm, Finite(r), batches) == Fit(arm, Finite(r), rewards)
    decreases |batches|
  {
    FitPermuted(arm, Finite(r), Flat(batches), rewards);
    if batches != [] {
      FitIsUsable(arm, r, batches[0]);
      FitSplits(arm, r, batches[0], Flat(batches[1..]));
      IncrementalIsBatch(Fit(arm, Finite(r), batches[0]).value, r, batches[1..], Flat(batches[1..]));
    }
  }

  lemma FitPermuted(arm: Arm, rewardPrec: Precision, a: seq<real>, b: seq<real>)
    requires multiset(a) == multiset(b)
    ensures Fit(arm, rewardPrec, a) == Fit(arm, rewardPrec, b)
  {
    TotalPermuted(a, b, Itself());
    assert Sum(a) == Sum(b) && (a == [] <==> b == []);
  }

  lemma LearnedPermuted(a: seq<real>, b: seq<real>)
    requires a != [] && b != [] && multiset(a) == multiset(b)
    ensures LearnedPrecision(a) == LearnedPrecision(b)
  {
    TotalPermuted(a, b, Itself());
    TotalPermuted(a, b, SquaredFrom(Mean(a)));
  }

  /** With an infinite reward precision the earlier batch is forgotten: the two agree exactly when the means do. */
  lemma InfinitePrecisionForgets(arm: Arm, xs: seq<real>, ys: seq<real>)
    requires xs != [] && ys != []
    ensures FitAll(arm, Infinite, [xs, ys]) == Fit(arm, Infinite, xs + ys) <==> Mean(xs) == Mean(ys)
  {
    var next := Fit(arm, Infinite, xs).value;
    assert [xs, ys][1..] == [ys] && [ys][1..] == [];
    assert FitAll(arm, Infinite, [xs, ys]) == FitAll(next, Infinite, [ys]) == Fit(next, Infinite, ys);
    TotalOfMore(xs, ys, Itself());
    MeansMeet(Sum(xs), |xs| as real, Sum(ys), |ys| as real);
    assert |xs + ys| as real == |xs| as real + |ys| as real;
  }

  lemma MeansMeet(s: real, n: real, t: real, k: real)
    requires n > 0.0 && k > 0.0
    ensures (s + t) / (n + k) == t / k <==> s / n == t / k
  {
    var a, b, c := s / n, t / k, (s + t) / (n + k);
    assert a * n == s && b * k == t && c * (n + k) == s + t;
    assert b * (n + k) == b * n + b * k;
    assert (c - b) * (n + k) == c * (n + k) - b * (n + k);
    assert (a - b) * n == a * n - b * n;
    assert (c - b) * (n + k) == (a - b) * n;
    ZeroFactor(c - b, n + k);
    ZeroFactor(a - b, n);
  }

  lemma ZeroFactor(x: real, n: real)
    requires n > 0.0
    ensures x * n == 0.0 <==> x == 0.0
  {
    if x > 0.0 {
      assert x * n > 0.0;
    } else if x < 0.0 {
      assert (-x) * n > 0.0;
    }
  }

  // ---- Refitting ----

  /** Learn the reward precision, then fit the prior on all of the rewards. */
  function Refit(prior: Prior, rewards: seq<real>): (Precision, Option<Arm>)
    requires rewards != []
  {
    (LearnedPrecision(rewards), Fit(Fresh(prior), LearnedPrecision(rewards), rewards))
  }

  lemma RefitIsDefined(prior: Prior, rewards: seq<real>)
    requires rewards != [] && prior.prec >= 0.0
    ensures Refit(prior, rewards).1.Some? && Refit(prior, rewards).1.value.count == |rewards|
  {
    hide LearnedPrecision, Precise, Weighted;
    InfiniteExactlyWhenAllEqual(rewards);
    if LearnedPrecision(rewards).Finite? {
      FitIsUsable(Fresh(prior), LearnedPrecision(rewards).value, rewards);
    }
  }

  lemma RefitPermuted(prior: Prior, a: seq<real>, b: seq<real>)
    requires a != [] && b != [] && multiset(a) == multiset(b)
    ensures Refit(prior, a) == Refit(prior, b)
  {
    hide LearnedPrecision, Fit;
    LearnedPermuted(a, b);
    FitPermuted(Fresh(prior), LearnedPrecision(a), a, b);
  }

  /** The posteriors of two lists of rewards have the same mean and precision exactly when the lists have the same mean
      and their variances are in the ratio of their lengths. */
  lemma PosteriorsAgreeExactlyWhen(prior: Prior, a: seq<real>, b: seq<real>)
    requires a != [] && b != [] && prior.prec >= 0.0
    ensures Refit(prior, a).1.Some? && Refit(prior, b).1.Some?
    ensures var x, y := Refit(prior, a).1.value, Refit(prior, b).1.value;
      x.mean == y.mean && x.prec == y.prec <==>
      Mean(a) == Mean(b) && |a| as real * Variance(b) == |b| as real * Variance(a)
  {
    var n, v, k, w := |a| as real, Variance(a), |b| as real, Variance(b);
    RefitIs(prior, a);
    RefitIs(prior, b);
    hide Refit, Mean, Variance, Rate;
    Zeros(n, w, k, v);
    if v > 0.0 && w > 0.0 {
      SameRates(n, v, k, w);
      if Rate(n, v) == Rate(k, w) {
        SameMeans(prior.prec * prior.mean, Rate(n, v), prior.prec + Rate(n, v), Mean(a), Mean(b));
      }
    }
  }

  function Rate(n: real, v: real): real
    requires v != 0.0
  {
    n / v
  }

  /** The variance is the mean square less the squared mean. */
  lemma VarianceIs(s: seq<real>)
    requires s != []
    ensures |s| as real * Variance(s) == Total(s, SquaredFrom(0.0)) - |s| as real * Product(Mean(s), Mean(s))
  {
    var n, m := |s| as real, Mean(s);
    DeviationsFrom(s, m);
    assert n * m == Sum(s);
    SpreadIs(n, m, Sum(s), Total(s, SquaredFrom(0.0)), Total(s, SquaredFrom(m)));
  }

  lemma SpreadIs(n: real, m: real, sum: real, squares: real, deviations: real)
    requires n > 0.0 && n * m == sum && deviations == Deviation(n, sum, squares, m)
    ensures n * (deviations / n) == squares - n * Product(m, m)
  {
    assert m * sum == n * (m * m);
  }

  function MeanOf(weighted: real, rate: real, q: real, mean: real): real
    requires q != 0.0
  {
    (weighted + rate * mean) / q
  }

  /** Mean and precision of a refit in terms of number, mean and variance of the rewards. */
  lemma RefitIs(prior: Prior, s: seq<real>)
    requires s != [] && prior.prec >= 0.0
    ensures Refit(prior, s).1.Some? && Variance(s) >= 0.0
    ensures var arm := Refit(prior, s).1.value; var n := |s| as real;
      if Variance(s) == 0.0 then arm.mean == Mean(s) && arm.prec == Infinite
      else
        && Rate(n, Variance(s)) > 0.0
        && arm.prec == Finite(prior.prec + Rate(n, Variance(s)))
        && arm.mean == MeanOf(prior.prec * prior.mean, Rate(n, Variance(s)), prior.prec + Rate(n, Variance(s)), Mean(s))
  {
    RefitIsDefined(prior, s);
    SquaresSum(s, Mean(s));
    Quotient(Total(s, SquaredFrom(Mean(s))), |s| as real);
    if Variance(s) != 0.0 {
      RateOf(|s| as real, Variance(s), Sum(s));
    }
  }

  lemma RateOf(n: real, v: real, sum: real)
    requires n > 0.0 && v > 0.0
    ensures Rate(n, v) > 0.0 && n * (1.0 / v) == Rate(n, v)
    ensures 1.0 / v * sum == Rate(n, v) * (sum / n)
  {
    var r, m := 1.0 / v, sum / n;
    assert r * v == 1.0 && m * n == sum;
    assert n * r * v == n;
    Divided(n, v, n * r);
    assert n * r > 0.0;
    assert r * (m * n) == n * r * m;
  }

  lemma Divided(n: real, v: real, q: real)
    requires v > 0.0 && q * v == n
    ensures n / v == q
  {
  }

  lemma Zeros(n: real, w: real, k: real, v: real)
    requires n > 0.0 && k > 0.0 && v >= 0.0 && w >= 0.0
    ensures v == 0.0 && w == 0.0 ==> n * w == k * v
    ensures (v == 0.0 && w > 0.0) || (v > 0.0 && w == 0.0) ==> n * w != k * v
  {
    ZeroFactor(w, n);
    ZeroFactor(v, k);
    assert n * w == w * n && k * v == v * k;
  }

  lemma SameRates(n: real, v: real, k: real, w: real)
    requires v > 0.0 && w > 0.0
    ensures Rate(n, v) == Rate(k, w) <==> n * w == k * v
  {
    var a, b := n / v, k / w;
    assert a * v == n && b * w == k;
    assert n * w == a * (v * w) && k * v == b * (v * w);
    assert n * w - k * v == (a - b) * (v * w);
    assert v * w > 0.0;
    ZeroFactor(a - b, v * w);
  }

  lemma SameMeans(weighted: real, rate: real, q: real, x: real, y: real)
    requires rate > 0.0 && q > 0.0
    ensures MeanOf(weighted, rate, q, x) == MeanOf(weighted, rate, q, y) <==> x == y
  {
    var a, b := MeanOf(weighted, rate, q, x), MeanOf(weighted, rate, q, y);
    assert a * q == weighted + rate * x && b * q == weighted + rate * y;
    assert (a - b) * q == (x - y) * rate;
    ZeroFactor(a - b, q);
    ZeroFactor(x - y, rate);
  }
}
