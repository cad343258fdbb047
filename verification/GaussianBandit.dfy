/** The Gaussian Thompson-sampling bandits: `GaussianTS` and `GTSBatchSizeOptimizer` of zeus/_legacy/policy, and the
    arm update of zeus/optimizer/batch_size/server/mab.py. */
module GaussianBandit {
  import opened BatchSizeOptimizer
  import opened Lists
  import opened Outcomes
  import opened Posterior

  // ---- Refitting on a window of rewards: legacy and server ----

  /** What the store returns for one batch size: succeeded results, latest first, at most `window` of a positive
      window. */
  function Fetched(rewards: seq<real>, window: int): seq<real> {
    Reverse(Latest(rewards, window))
  }

  /** The rewards the server refits on: it pops the oldest of a full window before it adds the current one. */
  function ServerRewards(fetched: seq<real>, current: real, window: int): seq<real> {
    if |fetched| >= window && window > 0 then Reverse(fetched[..|fetched| - 1]) + [current] else fetched + [current]
  }

  /** Server and legacy optimizer refit on the same rewards, the latest `window` of them including the current one,
      though not in the same order. */
  lemma WindowsAgree(rewards: seq<real>, current: real, window: int)
    ensures multiset(ServerRewards(Fetched(rewards, window), current, window))
            == multiset(Latest(rewards + [current], window))
  {
    var latest := Latest(rewards, window);
    hide *;
    FetchedBag(rewards, window);
    if |latest| >= window && window > 0 {
      LatestSlides(rewards, current, window);
      PoppedBag(Fetched(rewards, window), latest, current);
    } else {
      LatestGrows(rewards, current, window);
      SameBags(Fetched(rewards, window), latest, [current]);
    }
    assert multiset(ServerRewards(Fetched(rewards, window), current, window))
           == multiset(Latest(rewards + [current], window)) by {
      ServerCases(Fetched(rewards, window), current, window);
    }
  }

  lemma ServerCases(fetched: seq<real>, current: real, window: int)
    ensures |fetched| >= window && window > 0 ==>
      fetched != [] && ServerRewards(fetched, current, window) == Reverse(fetched[..|fetched| - 1]) + [current]
    ensures !(|fetched| >= window && window > 0) ==> ServerRewards(fetched, current, window) == fetched + [current]
  {
  }

  lemma FetchedBag(rewards: seq<real>, window: int)
    ensures var f, l := Fetched(rewards, window), Latest(rewards, window);
      |f| == |l| && multiset(f) == multiset(l) && (l != [] ==> f[|f| - 1] == l[0])
  {
    hide Reverse, Latest;
  }

  lemma LatestSlides(rewards: seq<real>, current: real, window: int)
    requires |Latest(rewards, window)| >= window > 0
    ensures Latest(rewards + [current], window) == Latest(rewards, window)[1..] + [current]
  {
  }

  lemma LatestGrows(rewards: seq<real>, current: real, window: int)
    requires window > 0 ==> |Latest(rewards, window)| < window
    ensures Latest(rewards + [current], window) == Latest(rewards, window) + [current]
  {
  }

  /** Popping the last of the reversed list drops the first of the list itself. */
  lemma PoppedBag(f: seq<real>, l: seq<real>, current: real)
    requires |f| == |l| > 0 && multiset(f) == multiset(l) && f[|f| - 1] == l[0]
    ensures multiset(Reverse(f[..|f| - 1]) + [current]) == multiset(l[1..] + [current])
  {
    hide Reverse;
    FrontOf(f);
    TailOf(l);
    SameBags(Reverse(f[..|f| - 1]), l[1..], [current]);
  }

  /** One `report` of the server; `results` is what it fetched. */
  method Report(ghost rewards: seq<real>, results: seq<real>, current: real, window: int, prior: Prior)
    returns (precision: Precision, arm: Option<Arm>)
    requires results == Fetched(rewards, window)
    ensures (precision, arm) == Refit(prior, Latest(rewards + [current], window))
  {
    hide Latest, Fetched, LearnedPrecision, Fit, Reverse, Fresh;
    var costs := results;
    if |costs| >= window && window > 0 {
      costs := costs[..|costs| - 1];
      costs := Reverse(costs);
    }
    costs := costs + [current];
    WindowsAgree(rewards, current, window);
    LatestOfSome(rewards + [current], window);
    RefitPermuted(prior, costs, Latest(rewards + [current], window));
    precision := LearnedPrecision(costs);
    arm := Fit(Fresh(prior), precision, costs);
  }

  lemma LatestOfSome(s: seq<real>, window: int)
    requires s != []
    ensures Latest(s, window) != []
  {
  }

  /** When the bandit is built, the legacy optimizer fits the window and the server all explorations: the arms are the
      same exactly when no reward falls outside of the window. */
  lemma BuiltArmsAgreeExactlyWhen(prior: Prior, rewards: seq<real>, window: int)
    requires rewards != [] && prior.prec >= 0.0
    ensures Latest(rewards, window) != []
    ensures Refit(prior, Latest(rewards, window)) == Refit(prior, rewards) <==> window < 1 || |rewards| <= window
  {
    RefitIsDefined(prior, rewards);
    RefitIsDefined(prior, Latest(rewards, window));
  }

  /** What the bandit samples from, mean and precision, is the same exactly when the mean reward is and the variances of
      window and whole are in the ratio of their lengths. */
  lemma BuiltPosteriorsAgreeExactlyWhen(prior: Prior, rewards: seq<real>, window: int)
    requires rewards != [] && prior.prec >= 0.0
    ensures Latest(rewards, window) != []
    ensures Refit(prior, Latest(rewards, window)).1.Some? && Refit(prior, rewards).1.Some?
    ensures var latest := Latest(rewards, window);
      var x, y := Refit(prior, latest).1.value, Refit(prior, rewards).1.value;
      x.mean == y.mean && x.prec == y.prec <==>
      Mean(latest) == Mean(rewards) && |latest| as real * Variance(rewards) == |rewards| as real * Variance(latest)
  {
    PosteriorsAgreeExactlyWhen(prior, Latest(rewards, window), rewards);
  }

  // ---- GTSBatchSizeOptimizer ----

  datatype GtsFault = UnknownBatchSize | NotANumber

  /** One job. `rewardPrec` is relearned at every observation when `learn` is set. */
  datatype Gts = Gts(prior: Prior, learn: bool, batchSizes: seq<int>, arms: map<int, Arm>,
                     rewardPrec: map<int, Precision>, history: map<int, seq<real>>)

  function HistoryOf(history: map<int, seq<real>>, bs: int): seq<real> {
    if bs in history then history[bs] else []
  }

  ghost predicate Keyed(g: Gts) {
    forall bs :: bs in g.batchSizes ==> bs in g.arms && bs in g.rewardPrec
  }

  function AfterObserving(g: Gts, bs: int, cost: real): Result<Gts, GtsFault>
    requires Keyed(g)
  {
    if bs !in g.batchSizes then Err(UnknownBatchSize)
    else
      var rewards := HistoryOf(g.history, bs) + [-cost];
      var seen := g.(history := g.history[bs := rewards]);
      if g.learn then
        var (precision, arm) := Refit(g.prior, rewards);
        if arm.None? then Err(NotANumber)
        else Ok(seen.(rewardPrec := g.rewardPrec[bs := precision], arms := g.arms[bs := arm.value]))
      else
        var arm := Fit(g.arms[bs], g.rewardPrec[bs], [-cost]);
        if arm.None? then Err(NotANumber) else Ok(seen.(arms := g.arms[bs := arm.value]))
  }

  /** Every arm is what one fit of its whole history from the prior gives. */
  ghost predicate Tracks(g: Gts) {
    && Keyed(g) && g.prior.prec >= 0.0
    && forall bs :: bs in g.batchSizes ==>
         && Fit(Fresh(g.prior), g.rewardPrec[bs], HistoryOf(g.history, bs)) == Some(g.arms[bs])
         && (if g.learn then
               HistoryOf(g.history, bs) != [] ==> g.rewardPrec[bs] == LearnedPrecision(HistoryOf(g.history, bs))
             else g.rewardPrec[bs].Finite? && g.rewardPrec[bs].value > 0.0)
  }

  function Registered(prior: Prior, learn: bool, batchSizes: seq<int>, rewardPrec: map<int, Precision>): Gts {
    Gts(prior, learn, batchSizes, map bs | bs in batchSizes :: Fresh(prior), rewardPrec, map[])
  }

  lemma RegisteredTracks(prior: Prior, learn: bool, batchSizes: seq<int>, rewardPrec: map<int, Precision>)
    requires prior.prec >= 0.0
    requires forall bs :: bs in batchSizes ==>
      bs in rewardPrec && (learn || (rewardPrec[bs].Finite? && rewardPrec[bs].value > 0.0))
    ensures Tracks(Registered(prior, learn, batchSizes, rewardPrec))
  {
  }

  /** An observation keeps every arm equal to the refit of its history, with either way of setting precisions. */
  lemma ObservingTracks(g: Gts, bs: int, cost: real)
    requires Tracks(g) && bs in g.batchSizes
    ensures AfterObserving(g, bs, cost).Ok? && Tracks(AfterObserving(g, bs, cost).value)
    ensures AfterObserving(g, bs, cost).value.batchSizes == g.batchSizes
    ensures forall b :: b in g.batchSizes ==>
      AfterObserving(g, bs, cost).value.arms[b].count == g.arms[b].count + if b == bs then 1 else 0
  {
    hide LearnedPrecision, Updated;
    var rewards := HistoryOf(g.history, bs) + [-cost];
    FitCounts(Fresh(g.prior), g.rewardPrec[bs], HistoryOf(g.history, bs));
    if g.learn {
      RefitIsDefined(g.prior, rewards);
    } else {
      var r := g.rewardPrec[bs].value;
      FitSplits(Fresh(g.prior), r, HistoryOf(g.history, bs), [-cost]);
      FitIsUsable(Fresh(g.prior), r, rewards);
      FitCounts(g.arms[bs], g.rewardPrec[bs], [-cost]);
    }
  }

  lemma FitCounts(arm: Arm, rewardPrec: Precision, rewards: seq<real>)
    ensures Fit(arm, rewardPrec, rewards).Some? ==> Fit(arm, rewardPrec, rewards).value.count == arm.count + |rewards|
  {
  }

  ghost predicate Runs(g: Gts, seen: seq<Observation>, after: Gts)
    decreases |seen|
  {
    if seen == [] then g == after
    else Keyed(g) && AfterObserving(g, seen[0].0, -seen[0].1).Ok?
         && Runs(AfterObserving(g, seen[0].0, -seen[0].1).value, seen[1..], after)
  }

  /** Over every run of observations each arm is the refit of its history. */
  lemma {:induction false} TracksAlways(g: Gts, seen: seq<Observation>, after: Gts)
    requires Tracks(g) && Runs(g, seen, after)
    ensures Tracks(after)
    decreases |seen|
  {
    hide Tracks, AfterObserving, Keyed;
    if seen != [] {
      Known(g, seen[0].0, -seen[0].1);
      ObservingTracks(g, seen[0].0, -seen[0].1);
      TracksAlways(AfterObserving(g, seen[0].0, -seen[0].1).value, seen[1..], after);
    }
  }

  /** The history of each batch size grows by the rewards observed for it, in order; a reward is the negated cost. */
  lemma {:induction false} HistoriesGrow(g: Gts, seen: seq<Observation>, after: Gts, bs: int)
    requires Runs(g, seen, after)
    ensures HistoryOf(after.history, bs) == HistoryOf(g.history, bs) + RewardsOf(seen, bs)
    decreases |seen|
  {
    hide AfterObserving, Keyed;
    if seen == [] {
      RewardsOfNone(bs);
    } else {
      var next := AfterObserving(g, seen[0].0, -seen[0].1).value;
      OneMore(g, seen[0].0, -seen[0].1, bs);
      HistoriesGrow(next, seen[1..], after, bs);
      assert seen[0..] == seen;
      RewardsFrom(seen, 0, bs);
      hide RewardsOf, HistoryOf;
      Joined(HistoryOf(g.history, bs), if seen[0].0 == bs then [seen[0].1] else [], RewardsOf(seen[1..], bs));
    }
  }

  lemma Joined(a: seq<real>, b: seq<real>, c: seq<real>)
    ensures (a + b) + c == a + (b + c)
  {
  }

  lemma OneMore(g: Gts, bs: int, cost: real, b: int)
    requires Keyed(g) && AfterObserving(g, bs, cost).Ok?
    ensures HistoryOf(AfterObserving(g, bs, cost).value.history, b)
         == HistoryOf(g.history, b) + if bs == b then [-cost] else []
  {
    hide Fit, LearnedPrecision;
  }

  lemma Known(g: Gts, bs: int, cost: real)
    requires Keyed(g) && AfterObserving(g, bs, cost).Ok?
    ensures bs in g.batchSizes
  {
  }

  // ---- The exploration phase ----

  /** Trials still missing until every arm has `target` observations. */
  function Deficit(batchSizes: seq<int>, arms: map<int, Arm>, target: nat): nat
    requires forall bs :: bs in batchSizes ==> bs in arms
  {
    if batchSizes == [] then 0
    else
      var first := batchSizes[0];
      assert first in batchSizes;
      var n := arms[first].count;
      (if n < target then target - n else 0) + Deficit(batchSizes[1..], arms, target)
  }

  lemma {:induction false} DeficitMoves(batchSizes: seq<int>, before: map<int, Arm>, after: map<int, Arm>, bs: int,
                                        target: nat)
    requires Distinct(batchSizes) && forall b :: b in batchSizes ==> b in before && b in after
    requires forall b :: b in batchSizes ==> after[b].count == before[b].count + if b == bs then 1 else 0
    requires bs in before && before[bs].count < target
    ensures Deficit(batchSizes, after, target)
         == Deficit(batchSizes, before, target) - if bs in batchSizes then 1 else 0
    decreases |batchSizes|
  {
    if batchSizes != [] {
      var rest := batchSizes[1..];
      assert batchSizes == [batchSizes[0]] + rest;
      assert batchSizes[0] !in rest;
      DeficitMoves(rest, before, after, bs, target);
    }
  }

  lemma {:induction false} DeficitIsZero(batchSizes: seq<int>, arms: map<int, Arm>, target: nat)
    requires forall bs :: bs in batchSizes ==> bs in arms
    ensures Deficit(batchSizes, arms, target) == 0 <==> forall bs :: bs in batchSizes ==> arms[bs].count >= target
    decreases |batchSizes|
  {
    if batchSizes != [] {
      DeficitIsZero(batchSizes[1..], arms, target);
      assert batchSizes == [batchSizes[0]] + batchSizes[1..];
      assert batchSizes[0] in batchSizes;
      assert forall bs :: bs in batchSizes <==> bs == batchSizes[0] || bs in batchSizes[1..];
    }
  }

  /** Each trial of an under-explored arm brings the end of the exploration phase one closer, so it lasts exactly as
      many trials as observations are missing. */
  lemma ExplorationLowersDeficit(g: Gts, bs: int, cost: real, target: nat)
    requires Tracks(g) && bs in g.batchSizes && Distinct(g.batchSizes) && g.arms[bs].count < target
    ensures AfterObserving(g, bs, cost).Ok?
    ensures var after := AfterObserving(g, bs, cost).value;
      Keyed(after) && Deficit(g.batchSizes, after.arms, target) == Deficit(g.batchSizes, g.arms, target) - 1
  {
    hide AfterObserving, Deficit;
    ObservingTracks(g, bs, cost);
    DeficitMoves(g.batchSizes, g.arms, AfterObserving(g, bs, cost).value.arms, bs, target);
  }

  // ---- The classes ----

  datatype RewardPrecision = One(prec: Precision) | PerArm(precs: seq<Precision>)

  /** `dict(zip(arms, precs))`. */
  function Dealt(arms: seq<int>, precs: seq<Precision>): (m: map<int, Precision>)
    requires |precs| >= |arms|
    ensures forall a :: a in m <==> a in arms
    ensures Distinct(arms) ==> forall i :: 0 <= i < |arms| ==> arms[i] in m && m[arms[i]] == precs[i]
    decreases |arms|
  {
    if arms == [] then map[]
    else
      var n := |arms| - 1;
      assert forall a :: a in arms <==> a in arms[..n] || a == arms[n] by { assert arms == arms[..n] + [arms[n]]; }
      Dealt(arms[..n], precs)[arms[n] := precs[n]]
  }

  class GaussianTS {
    const arms: seq<int>
    const prior: Prior
    const numExploration: nat
    var armRewardPrec: map<int, Precision>
    var armParamMean: map<int, real>
    var armParamPrec: map<int, Precision>
    var armNumObservations: map<int, nat>

    ghost predicate Valid()
      reads this
    {
      forall a :: a in arms ==> a in armRewardPrec && a in armParamMean && a in armParamPrec && a in armNumObservations
    }

    ghost function ArmOf(a: int): Arm
      requires Valid() && a in arms
      reads this
    {
      Arm(armParamMean[a], armParamPrec[a], armNumObservations[a])
    }

    /** The arm still lacks observations. */
    ghost predicate Explores(a: int)
      requires Valid() && a in arms
      reads this
    {
      armNumObservations[a] < numExploration
    }

    /** A reward precision for every arm; a list is dealt out to the arms in order. */
    constructor (arms: seq<int>, rewardPrecision: RewardPrecision, prior: Prior, numExploration: nat)
      requires rewardPrecision.PerArm? ==> |rewardPrecision.precs| >= |arms|
      ensures Valid() && this.arms == arms && this.prior == prior && this.numExploration == numExploration
      ensures forall a :: a in arms ==> ArmOf(a) == Fresh(prior)
      ensures Distinct(arms) ==> forall i :: 0 <= i < |arms| ==>
        arms[i] in armRewardPrec &&
        armRewardPrec[arms[i]] == if rewardPrecision.One? then rewardPrecision.prec else rewardPrecision.precs[i]
    {
      this.arms, this.prior, this.numExploration := arms, prior, numExploration;
      armRewardPrec :=
        if rewardPrecision.One? then map a | a in arms :: rewardPrecision.prec else Dealt(arms, rewardPrecision.precs);
      armParamMean := map a | a in arms :: prior.mean;
      armParamPrec := map a | a in arms :: Finite(prior.prec);
      armNumObservations := map a | a in arms :: 0;
    }

    /** Updates one arm in place; false where the source would store a NaN, and then the arm keeps its (reset) value. */
    method FitArm(arm: int, rewards: seq<real>, reset: bool) returns (defined: bool)
      requires Valid() && arm in arms
      modifies this
      ensures Valid() && armRewardPrec == old(armRewardPrec)
      ensures var fitted := Fit(if reset then Fresh(prior) else old(ArmOf(arm)), armRewardPrec[arm], rewards);
        && defined == fitted.Some?
        && ArmOf(arm) == if defined then fitted.value else if reset then Fresh(prior) else old(ArmOf(arm))
      ensures forall a :: a in arms && a != arm ==> ArmOf(a) == old(ArmOf(a))
    {
      hide Precise, Weighted, Sum;
      if reset {
        armParamMean := armParamMean[arm := prior.mean];
        armParamPrec := armParamPrec[arm := Finite(prior.prec)];
        armNumObservations := armNumObservations[arm := 0];
      }
      if |rewards| == 0 {
        return true;
      }
      var rewardPrec := armRewardPrec[arm];
      var mean := armParamMean[arm];
      var prec := armParamPrec[arm];
      var newPrec: Precision;
      var newMean: real;
      match rewardPrec {
        case Infinite =>
          newPrec := Infinite;
          newMean := Mean(rewards);
        case Finite(r) =>
          if prec.Infinite? || Precise(prec.value, r, |rewards| as real) == 0.0 {
            return false;
          }
          var q := Precise(prec.value, r, |rewards| as real);
          newPrec := Finite(q);
          newMean := Weighted(prec.value, mean, r, Sum(rewards), q);
      }
      armParamMean := armParamMean[arm := newMean];
      armParamPrec := armParamPrec[arm := newPrec];
      armNumObservations := armNumObservations[arm := armNumObservations[arm] + |rewards|];
      defined := true;
    }

    /** Fits every arm on its own part of the observations. */
    method FitEvery(observations: seq<Observation>, reset: bool) returns (defined: bool)
      requires Valid() && Distinct(arms)
      modifies this
      ensures Valid() && armRewardPrec == old(armRewardPrec)
      ensures defined ==> forall a :: a in arms ==>
        Fit(if reset then Fresh(prior) else old(ArmOf(a)), armRewardPrec[a], RewardsOf(observations, a))
          == Some(ArmOf(a))
      ensures !defined ==> exists a ::
        a in arms &&
        Fit(if reset then Fresh(prior) else old(ArmOf(a)), armRewardPrec[a], RewardsOf(observations, a)).None?
    {
      hide Fit, RewardsOf;
      defined := true;
      ghost var bad := 0;
      var i := 0;
      while i < |arms|
        invariant 0 <= i <= |arms| && Valid() && armRewardPrec == old(armRewardPrec)
        invariant forall a :: a in arms && a in arms[i..] ==> ArmOf(a) == old(ArmOf(a))
        invariant defined ==> forall a :: a in arms && a in arms[..i] ==>
          Fit(if reset then Fresh(prior) else old(ArmOf(a)), armRewardPrec[a], RewardsOf(observations, a))
            == Some(ArmOf(a))
        invariant !defined ==>
          bad in arms &&
          Fit(if reset then Fresh(prior) else old(ArmOf(bad)), armRewardPrec[bad], RewardsOf(observations, bad)).None?
      {
        var arm := arms[i];
        assert arms[i..] == [arm] + arms[i + 1..] && arms[..i + 1] == arms[..i] + [arm];
        assert arm !in arms[i + 1..] && arm !in arms[..i];
        var ok := FitArm(arm, RewardsOf(observations, arm), reset);
        if !ok {
          defined, bad := false, arm;
        }
        i := i + 1;
      }
      assert arms[..|arms|] == arms;
    }

    /** The batch size to try. `choices` is the random order, `samples` the sampled rewards; None where `max` raises on
        no arms. */
    method Predict(choices: seq<int>, samples: int -> real) returns (pick: Option<int>)
      requires Valid() && multiset(choices) == multiset(arms)
      ensures pick.Some? <==> arms != []
      ensures pick.Some? ==> pick.value in arms
      ensures (exists a :: a in arms && Explores(a)) ==> pick.Some? && Explores(pick.value)
      ensures pick.Some? && !Explores(pick.value)
        ==> forall a :: a in arms ==> samples(a) <= samples(pick.value)
    {
      SameElements(choices, arms);
      for i := 0 to |choices|
        invariant forall a :: a in arms && a in choices[..i] ==> armNumObservations[a] >= numExploration
      {
        var arm := choices[i];
        assert arm in choices && choices[..i + 1] == choices[..i] + [arm];
        if armNumObservations[arm] < numExploration {
          return Some(arm);
        }
      }
      assert choices[..|choices|] == choices;
      assert forall a :: a in arms ==> a in choices;
      if |arms| == 0 {
        return None;
      }
      var best := arms[0];
      for i := 1 to |arms|
        invariant best in arms && forall j :: 0 <= j < i ==> samples(arms[j]) <= samples(best)
      {
        if samples(arms[i]) > samples(best) {
          best := arms[i];
        }
      }
      pick := Some(best);
    }
  }

  class GTSBatchSizeOptimizer {
    const mab: GaussianTS
    const learn: bool
    var history: map<int, seq<real>>

    ghost predicate Valid()
      reads this, mab
    {
      mab.Valid() && Distinct(mab.arms)
    }

    ghost function Model(): Gts
      requires Valid()
      reads this, mab
    {
      Gts(mab.prior, learn, mab.arms, map a | a in mab.arms :: mab.ArmOf(a), mab.armRewardPrec, history)
    }

    constructor (batchSizes: seq<int>, learn: bool, rewardPrecision: RewardPrecision, prior: Prior, numExploration: nat)
      requires Distinct(batchSizes) && (rewardPrecision.PerArm? ==> |rewardPrecision.precs| >= |batchSizes|)
      ensures Valid() && fresh(mab)
      ensures Model() == Registered(prior, learn, batchSizes, mab.armRewardPrec)
      ensures forall i :: 0 <= i < |batchSizes| ==>
        batchSizes[i] in mab.armRewardPrec &&
        mab.armRewardPrec[batchSizes[i]]
        == if rewardPrecision.One? then rewardPrecision.prec else rewardPrecision.precs[i]
    {
      this.learn, history := learn, map[];
      mab := new GaussianTS(batchSizes, rewardPrecision, prior, numExploration);
    }

    method Observe(bs: int, cost: real) returns (fault: Option<GtsFault>)
      requires Valid()
      modifies this, mab
      ensures Valid()
      ensures match fault
        case None => Ok(Model()) == AfterObserving(old(Model()), bs, cost)
        case Some(f) => Err(f) == AfterObserving(old(Model()), bs, cost)
      ensures fault == Some(UnknownBatchSize) ==> Model() == old(Model())
    {
      hide Fit, LearnedPrecision, RewardsOf;
      if bs !in mab.arms {
        return Some(UnknownBatchSize);
      }
      var reward := -cost;
      history := history[bs := HistoryOf(history, bs) + [reward]];
      var defined: bool;
      if !learn {
        defined := mab.FitEvery([(bs, reward)], false);
        OnlyOne(bs, reward);
        EmptyFits();
      } else {
        var rewards := history[bs];
        var precision := LearnedPrecision(rewards);
        mab.armRewardPrec := mab.armRewardPrec[bs := precision];
        defined := mab.FitArm(bs, rewards, true);
      }
      assert defined ==> Model().arms == old(Model()).arms[bs := mab.ArmOf(bs)];
      fault := if defined then None else Some(NotANumber);
    }
  }

  lemma OnlyOne(bs: int, reward: real)
    ensures forall a :: RewardsOf([(bs, reward)], a) == if a == bs then [reward] else []
  {
    assert [(bs, reward)][..0] == [];
  }

  lemma EmptyFits()
    ensures forall arm, rewardPrec :: Fit(arm, rewardPrec, []) == Some(arm)
  {
  }
}
