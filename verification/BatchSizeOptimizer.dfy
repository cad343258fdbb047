/** `PruningGTSBatchSizeOptimizer` of zeus/_legacy/policy/optimizer.py for one job: pruning exploration followed by
    a Thompson sampling bandit over the survivors, fed by jobs that may finish in any order. */
module BatchSizeOptimizer {
  import opened Lists
  import opened Outcomes
  import opened Exploration
  import opened ExploreManager
  import opened LoggedRuns
  import opened Posterior
  import Pruning

  const PRUNING_ROUNDS: nat := 2
  const EXPLORATIONS: nat := 2    // num_exploration of the bandit

  datatype Fault =
    | Coroutine(why: Failure)
    | AllPruned               // ValueError: no batch size left for the bandit
    | TooFewObservations      // AssertionError: fewer than two observations for an arm
    | PowerNotProfiled        // AssertionError: no power limit known for the best batch size
    | UnknownDefault          // ValueError: the default batch size is not among the feasible ones

  type Observation = (int, real)    // batch size and reward

  /** What the bandit keeps of an arm: its reward precision and the posterior of its mean. */
  type Belief = (Precision, Option<Arm>)

  /** `arms` is known once the bandit has been constructed, and `beliefs` are its dictionaries. */
  datatype Bso = Bso(explorer: Explorer, history: seq<Observation>, arms: Option<seq<int>>, beliefs: map<int, Belief>,
                     prior: Prior, window: int, concurrency: bool)

  // ---- The windowed history of one batch size ----

  /** The rewards of a batch size, oldest first. */
  function RewardsOf(history: seq<Observation>, bs: int): (r: seq<real>)
    ensures |r| <= |history|
    decreases |history|
  {
    if history == [] then []
    else
      var last := history[|history| - 1];
      RewardsOf(history[..|history| - 1], bs) + if last.0 == bs then [last.1] else []
  }

  /** The latest `window` entries; all of them when there are fewer or the window is not positive. */
  function Latest<T>(s: seq<T>, window: int): (r: seq<T>)
    ensures |r| == if 1 <= window < |s| then window else |s|
  {
    if 1 <= window < |s| then s[|s| - window..] else s
  }

  lemma {:induction false} RewardsFrom(history: seq<Observation>, i: nat, bs: int)
    requires i < |history|
    ensures RewardsOf(history[i..], bs)
         == (if history[i].0 == bs then [history[i].1] else []) + RewardsOf(history[i + 1..], bs)
    decreases |history|
  {
    var n := |history| - 1;
    if i == n {
      assert history[i..] == [history[i]] && history[i + 1..] == [];
    } else {
      RewardsFrom(history[..n], i, bs);
      assert history[i..][..n - i] == history[..n][i..];
      assert history[i + 1..][..n - i - 1] == history[..n][i + 1..];
      assert history[i..][n - i] == history[i + 1..][n - i - 1] == history[n];
    }
  }

  lemma {:induction false} RewardsSuffix(history: seq<Observation>, i: nat, bs: int)
    requires i <= |history|
    ensures |RewardsOf(history[i..], bs)| <= |RewardsOf(history, bs)|
    ensures RewardsOf(history[i..], bs)
         == RewardsOf(history, bs)[|RewardsOf(history, bs)| - |RewardsOf(history[i..], bs)|..]
  {
    if i == 0 {
      assert history[0..] == history;
    } else {
      RewardsSuffix(history, i - 1, bs);
      RewardsFrom(history, i - 1, bs);
    }
  }

  lemma RewardsOfNone(bs: int)
    ensures RewardsOf([], bs) == []
  {
  }

  lemma ReverseMore(s: seq<real>, x: real)
    ensures Reverse(s + [x]) == [x] + Reverse(s)
  {
    assert (s + [x])[..|s|] == s;
  }

  /** `_get_history_for_bs`: collects from the most recent observation backwards until the window is full. */
  method GetHistoryForBs(history: seq<Observation>, bs: int, window: int) returns (rewards: seq<real>)
    ensures rewards == Latest(RewardsOf(history, bs), window)
  {
    hide RewardsOf;
    var collected: seq<real> := [];
    var i := |history|;
    RewardsOfNone(bs);
    assert history[i..] == [];
    assert Reverse(collected) == [];
    while i > 0
      invariant 0 <= i <= |history|
      invariant Reverse(collected) == RewardsOf(history[i..], bs)
      invariant window >= 1 ==> |collected| < window
    {
      i := i - 1;
      RewardsFrom(history, i, bs);
      if history[i].0 == bs {
        ReverseMore(collected, history[i].1);
        collected := collected + [history[i].1];
        if |collected| == window {
          break;
        }
      }
    }
    RewardsSuffix(history, i, bs);
    assert history[0..] == history;
    rewards := Reverse(collected);
  }

  // ---- The optimizer as a state machine ----

  /** `register_job`; the source raises ValueError for a default outside of the batch sizes. */
  function Register(batchSizes: seq<int>, default: int, prior: Prior, window: int, concurrency: bool): Option<Bso> {
    if default in batchSizes then
      Some(Bso(Start(SortBy(AtMost, batchSizes), default, PRUNING_ROUNDS), [], None, map[], prior, window, concurrency))
    else None
  }

  /** The rewards the bandit learns from. */
  function Windowed(b: Bso, bs: int): seq<real> {
    Latest(RewardsOf(b.history, bs), b.window)
  }

  predicate EnoughObserved(b: Bso) {
    forall i :: 0 <= i < |b.explorer.batchSizes| ==> |Windowed(b, b.explorer.batchSizes[i])| >= EXPLORATIONS
  }

  /** A new arm has the prior and a reward precision of zero; from rewards both are learned. */
  function BeliefFrom(prior: Prior, rewards: seq<real>): Belief {
    if rewards == [] then (Finite(0.0), Some(Fresh(prior))) else Refit(prior, rewards)
  }

  function MabBuilt(b: Bso, survivors: Option<seq<int>>): Result<Bso, Fault> {
    if survivors.None? || survivors.value == [] then Err(AllPruned)
    else if !EnoughObserved(b) then Err(TooFewObservations)
    else Ok(b.(arms := survivors, beliefs := Learned(b, survivors.value)))
  }

  /** New arms for the survivors, those of the final batch sizes fitted on their windowed rewards. */
  function Learned(b: Bso, survivors: seq<int>): map<int, Belief> {
    LearnedFor(b, survivors, b.explorer.batchSizes)
  }

  function LearnedFor(b: Bso, survivors: seq<int>, fitted: seq<int>): map<int, Belief> {
    map a | a in survivors + fitted :: BeliefFrom(b.prior, if a in fitted then Windowed(b, a) else [])
  }

  lemma LearnsMore(b: Bso, survivors: seq<int>, fitted: seq<int>, bs: int)
    ensures LearnedFor(b, survivors, fitted + [bs])
         == LearnedFor(b, survivors, fitted)[bs := BeliefFrom(b.prior, Windowed(b, bs))]
  {
    hide Windowed, BeliefFrom;
  }

  /** The random generator at one prediction: the order it shuffles the arms into, and the rewards it samples. */
  datatype Draw = Draw(rank: int -> int, sample: int -> real)

  function ByRank(draw: Draw): (int, int) -> bool {
    (x, y) => draw.rank(x) <= draw.rank(y)
  }

  function ObservationsOf(beliefs: map<int, Belief>, a: int): nat {
    if a in beliefs && beliefs[a].1.Some? then beliefs[a].1.value.count else 0
  }

  /** The sampled mean reward; a posterior of infinite precision leaves nothing to chance. */
  function Sampled(beliefs: map<int, Belief>, a: int, draw: Draw): real {
    if a in beliefs && beliefs[a].1.Some? && beliefs[a].1.value.prec.Infinite? then beliefs[a].1.value.mean
    else draw.sample(a)
  }

  function BySample(beliefs: map<int, Belief>, draw: Draw): (int, int) -> bool {
    (x, y) => Sampled(beliefs, x, draw) >= Sampled(beliefs, y, draw)
  }

  function FirstCold(arms: seq<int>, beliefs: map<int, Belief>): (cold: Option<int>)
    ensures cold.Some? ==> cold.value in arms
    ensures cold.None? <==> forall a :: a in arms ==> ObservationsOf(beliefs, a) >= EXPLORATIONS
  {
    if arms == [] then None
    else if ObservationsOf(beliefs, arms[0]) < EXPLORATIONS then Some(arms[0])
    else FirstCold(arms[1..], beliefs)
  }

  /** `GaussianTS.predict`: the first arm in random order that lacks observations, or the first with the greatest
      sample. */
  function PullArm(arms: seq<int>, beliefs: map<int, Belief>, draw: Draw): (bs: int)
    requires arms != []
    ensures bs in arms
  {
    SameElements(arms, SortBy(ByRank(draw), arms));
    var cold := FirstCold(SortBy(ByRank(draw), arms), beliefs);
    if cold.Some? then cold.value else arms[FirstLeast(BySample(beliefs, draw), arms)]
  }

  /** While some arm lacks observations, the bandit pulls the first of those in random order. */
  lemma PullsColdFirst(arms: seq<int>, beliefs: map<int, Belief>, draw: Draw, a: int)
    requires a in arms && ObservationsOf(beliefs, a) < EXPLORATIONS
    ensures var bs := PullArm(arms, beliefs, draw);
      ObservationsOf(beliefs, bs) < EXPLORATIONS && draw.rank(bs) <= draw.rank(a)
  {
    var shuffled := SortBy(ByRank(draw), arms);
    SameElements(arms, shuffled);
    SortByIsOrdered(ByRank(draw), arms);
    hide SortBy, ObservationsOf;
    FirstColdRanks(shuffled, beliefs, draw, a);
  }

  lemma {:induction false} FirstColdRanks(shuffled: seq<int>, beliefs: map<int, Belief>, draw: Draw, a: int)
    requires OrderedBy(ByRank(draw), shuffled) && a in shuffled && ObservationsOf(beliefs, a) < EXPLORATIONS
    ensures var cold := FirstCold(shuffled, beliefs);
      cold.Some? && ObservationsOf(beliefs, cold.value) < EXPLORATIONS && draw.rank(cold.value) <= draw.rank(a)
  {
    hide ObservationsOf;
    var i :| 0 <= i < |shuffled| && shuffled[i] == a;
    if ObservationsOf(beliefs, shuffled[0]) < EXPLORATIONS {
      assert i > 0 ==> ByRank(draw)(shuffled[0], shuffled[i]);
    } else {
      OrderedTail(ByRank(draw), shuffled);
      assert shuffled[1..][i - 1] == a;
      FirstColdRanks(shuffled[1..], beliefs, draw, a);
    }
  }

  /** Once every arm has been observed often enough, the bandit pulls the first one with the greatest sampled reward. */
  lemma PullsTheBest(arms: seq<int>, beliefs: map<int, Belief>, draw: Draw)
    requires arms != [] && forall a :: a in arms ==> ObservationsOf(beliefs, a) >= EXPLORATIONS
    ensures var bs := PullArm(arms, beliefs, draw);
      && (forall a :: a in arms ==> Sampled(beliefs, a, draw) <= Sampled(beliefs, bs, draw))
      && exists i :: 0 <= i < |arms| && arms[i] == bs &&
           forall j :: 0 <= j < i ==> Sampled(beliefs, arms[j], draw) < Sampled(beliefs, bs, draw)
  {
    hide FirstLeast, SortBy, Sampled;
    SameElements(arms, SortBy(ByRank(draw), arms));
    FirstLeastIsLeast(BySample(beliefs, draw), arms);
    var k := FirstLeast(BySample(beliefs, draw), arms);
    forall j | 0 <= j < |arms|
      ensures Sampled(beliefs, arms[j], draw) <= Sampled(beliefs, arms[k], draw)
      ensures j < k ==> Sampled(beliefs, arms[j], draw) < Sampled(beliefs, arms[k], draw)
    {
      assert BySample(beliefs, draw)(arms[k], arms[j]);
      assert j < k ==> !BySample(beliefs, draw)(arms[j], arms[k]);
    }
  }

  function Predicted(b: Bso, draw: Draw): Result<(Bso, int), Fault> {
    var (e, answer) := Next(b.explorer);
    var after := b.(explorer := e);
    match answer
    case Yields(bs) => Ok((after, bs))
    case Raises(why) => Err(Coroutine(why))
    case Acknowledged => Err(Coroutine(CallOrder))
    case Stops(survivors) =>
      var built := if b.arms.None? then MabBuilt(after, survivors) else Ok(after);
      match built
      case Err(fault) => Err(fault)
      case Ok(c) => if c.arms.value == [] then Err(AllPruned) else Ok((c, PullArm(c.arms.value, c.beliefs, draw)))
  }

  predicate PassesOn(b: Bso, bs: int) {
    b.arms.None? && (!b.concurrency || b.explorer.expecting == bs)
  }

  function Observed(b: Bso, bs: int, cost: real, converged: bool): Result<Bso, Fault> {
    var seen := b.(history := b.history + [(bs, -cost)]);
    if b.arms.Some? then Ok(seen.(beliefs := b.beliefs[bs := BeliefFrom(b.prior, Windowed(seen, bs))]))
    else if !PassesOn(b, bs) then Ok(seen)
    else
      var (e, answer) := Send(b.explorer, Report(bs, Feedback(cost, converged)));
      match answer
      case Acknowledged => Ok(seen.(explorer := e))
      case Raises(why) => Err(Coroutine(why))
      case _ => Err(Coroutine(CallOrder))
  }

  // ---- Invariants ----

  /** All batch sizes a coroutine can still yield or return belong to `s`. */
  ghost predicate Within(e: Explorer, s: set<int>) {
    && (forall b :: b in e.batchSizes ==> b in s)
    && match e.control
       case AtYield(f) => FrameWithin(f, s)
       case AtAck(f, _) => FrameWithin(f, s)
       case _ => true
  }

  ghost predicate FrameWithin(f: Frame, s: set<int>) {
    forall b :: b in f.todo || b in f.up || b in f.good ==> b in s
  }

  lemma EnterRoundWithin(e: Explorer, round: nat, s: set<int>)
    requires forall b :: b in e.batchSizes ==> b in s
    ensures var (after, answer) := EnterRound(e, round);
      && Within(after, s)
      && (answer.Yields? ==> answer.bs in s)
      && (answer.Stops? && answer.survivors.Some? ==> forall b :: b in answer.survivors.value ==> b in s)
  {
    hide Down, Up, SortBy;
    SameElements(e.batchSizes, SortBy(AtMost, e.batchSizes));
    if e.default in e.batchSizes {
      DirectionsWithin(e.batchSizes, e.default);
    }
  }

  lemma DirectionsWithin(batchSizes: seq<int>, default: int)
    requires default in batchSizes
    ensures forall b :: b in Down(batchSizes, default) || b in Up(batchSizes, default) ==> b in batchSizes
  {
    hide SortBy, IndexOf;
    var idx := IndexOf(batchSizes, default);
    SameElements(batchSizes[..idx + 1], Down(batchSizes, default));
    SameElements(batchSizes[idx + 1..], Up(batchSizes, default));
  }

  lemma AdvanceWithin(e: Explorer, f: Frame, s: set<int>)
    requires FrameWithin(f, s) && forall b :: b in e.batchSizes ==> b in s
    ensures var (after, answer) := Advance(e, f);
      && Within(after, s)
      && (answer.Yields? ==> answer.bs in s)
      && (answer.Stops? && answer.survivors.Some? ==> forall b :: b in answer.survivors.value ==> b in s)
  {
    hide SortBy, EnterRound;
    if f.todo == [] && f.up == [] {
      var sorted := SortBy(AtMost, f.good);
      SameElements(f.good, sorted);
      EnterRoundWithin(e.(expecting := 0, batchSizes := sorted), f.round + 1, s);
    }
  }

  lemma NextWithin(e: Explorer, s: set<int>)
    requires Within(e, s)
    ensures var (after, answer) := Next(e);
      && Within(after, s)
      && (answer.Yields? ==> answer.bs in s)
      && (answer.Stops? && answer.survivors.Some? ==> forall b :: b in answer.survivors.value ==> b in s)
  {
    hide Advance, EnterRound;
    match e.control
    case NotStarted => EnterRoundWithin(e, 0, s);
    case AtAck(f, fb) =>
      if f.todo != [] {
        assert forall b :: b in f.todo[1..] ==> b in f.todo;
        if fb.reached {
          AdvanceWithin(if Improves(f, fb.cost) then e.(default := f.todo[0]) else e, Accept(f, fb.cost), s);
        } else {
          AdvanceWithin(e, f.(todo := []), s);
        }
      }
    case _ =>
  }

  /** The history holds at least what was passed on to the coroutine. */
  ghost predicate Covers(history: seq<Observation>, log: seq<Report>) {
    forall b :: |RewardsOf(history, b)| >= |ResultsOf(log, b)|
  }

  /** Every arm of the bandit has been observed often enough within the window, and its belief is what one fit of the
      prior on the windowed rewards gives. */
  ghost predicate BeliefsTrack(b: Bso, arms: seq<int>) {
    forall a :: a in arms ==>
      |Windowed(b, a)| >= EXPLORATIONS && a in b.beliefs && b.beliefs[a] == Refit(b.prior, Windowed(b, a))
  }

  /** The invariant of an optimizer, given what it passed on to the coroutine. */
  ghost predicate BsoOk(b: Bso, log: seq<Report>, s: set<int>) {
    && 0 !in s && b.prior.prec >= 0.0
    && b.explorer.rounds == PRUNING_ROUNDS
    && Within(b.explorer, s)
    && Covers(b.history, log)
    && match b.arms
       case None => NextOk(b.explorer, log) || YieldOk(b.explorer, log)
       case Some(arms) =>
         b.explorer.control.Finished? && arms != [] && (forall x :: x in arms ==> x in s) && BeliefsTrack(b, arms)
  }

  /** The coroutine has been started and awaits a result. */
  predicate Awaits(b: Bso) {
    b.arms.None? && b.explorer.control.AtYield?
  }

  function NextLog(b: Bso, log: seq<Report>, bs: int, cost: real, converged: bool): seq<Report> {
    if PassesOn(b, bs) then log + [Report(bs, Feedback(cost, converged))] else log
  }

  lemma FinalBatchSizes(e: Explorer, log: seq<Report>)
    requires NextOk(e, log) && e.rounds > 0 && Next(e).1.Stops?
    ensures Next(e).1.survivors == Some(Next(e).0.batchSizes)
  {
    match e.control
    case NotStarted =>
    case AtAck(f, fb) =>
      if fb.reached {
        AcceptKeeps(e, log);
        AdvanceFinal(if Improves(f, fb.cost) then e.(default := f.todo[0]) else e, Accept(f, fb.cost));
      } else {
        AdvanceFinal(e, f.(todo := []));
      }
  }

  lemma AdvanceFinal(e: Explorer, f: Frame)
    requires Advance(e, f).1.Stops?
    ensures Advance(e, f).1.survivors == Some(Advance(e, f).0.batchSizes)
  {
    hide SortBy;
    SortedAgain(f.good);
  }

  /** Asked for a batch size while no result is due, the optimizer names one of the registered batch sizes: while
      pruning the one the coroutine yields, and later an arm with the greatest sampled reward. The arms are all that the
      coroutine returned, and never change. It fails only when pruning left nothing, or when its window is too narrow
      for the bandit. */
  lemma PredictKeeps(b: Bso, log: seq<Report>, s: set<int>, draw: Draw)
    requires BsoOk(b, log, s) && !Awaits(b)
    ensures match Predicted(b, draw)
      case Ok((after, bs)) =>
        && bs in s && BsoOk(after, log, s) && after.history == b.history
        && (Awaits(after) ==> after.explorer.expecting == bs)
        && (if after.arms.None? then Awaits(after) else BestArm(after, bs, draw))
        && (if b.arms.Some? then after.arms == b.arms
            else after.arms.Some? ==> Next(b.explorer).1 == Stops(after.arms))
        && !after.explorer.control.NotStarted?
      case Err(fault) =>
        && (fault == Coroutine(DefaultPruned) || fault == AllPruned || (fault == TooFewObservations && b.window == 1))
        && (fault == Coroutine(DefaultPruned) <==> Next(b.explorer).1 == Raises(DefaultPruned))
        && (fault == AllPruned <==> Next(b.explorer).1 == Stops(Some([])))
  {
    hide Next, NextOk, YieldOk, Within, Windowed, PullArm, Learned, BestArm, BeliefsTrack;
    NextWithin(b.explorer, s);
    var (e, answer) := Next(b.explorer);
    if b.arms.None? {
      assert NextOk(b.explorer, log) by { NotYielding(b, log); }
      NextKeeps(b.explorer, log);
      NextState(b.explorer, log);
      if answer.Stops? {
        FinalBatchSizes(b.explorer, log);
        if b.window != 1 {
          SurvivorsObserved(b.(explorer := e), log, answer.survivors.value);
        }
        if EnoughObserved(b.(explorer := e)) {
          LearnedTracks(b.(explorer := e));
        }
      }
    } else {
      FinishedStays(b.explorer);
    }
    if Predicted(b, draw).Ok? && Predicted(b, draw).value.0.arms.Some? {
      TrackedBest(Predicted(b, draw).value.0, draw);
    }
  }

  /** No arm has a greater sampled reward than `bs`. */
  ghost predicate BestArm(b: Bso, bs: int, draw: Draw) {
    b.arms.Some? && bs in b.arms.value
    && forall a :: a in b.arms.value ==> Sampled(b.beliefs, a, draw) <= Sampled(b.beliefs, bs, draw)
  }

  lemma LearnedTracks(b: Bso)
    requires EnoughObserved(b)
    ensures BeliefsTrack(b.(beliefs := Learned(b, b.explorer.batchSizes), arms := Some(b.explorer.batchSizes)),
                         b.explorer.batchSizes)
  {
    hide RewardsOf, Refit;
    var c := b.(beliefs := Learned(b, b.explorer.batchSizes), arms := Some(b.explorer.batchSizes));
    forall a | a in b.explorer.batchSizes
      ensures |Windowed(c, a)| >= EXPLORATIONS && a in c.beliefs && c.beliefs[a] == Refit(b.prior, Windowed(c, a))
    {
      var i :| 0 <= i < |b.explorer.batchSizes| && b.explorer.batchSizes[i] == a;
      assert a in b.explorer.batchSizes + b.explorer.batchSizes;
      assert Windowed(c, a) == Windowed(b, a);
    }
  }

  /** Where each arm has only ever cost the same, nothing is left to chance: the bandit pulls an arm with the greatest
      mean reward, whatever is drawn. */
  lemma CertainPull(b: Bso, draw: Draw)
    requires b.arms.Some? && b.arms.value != [] && BeliefsTrack(b, b.arms.value) && b.prior.prec >= 0.0
    requires forall a :: a in b.arms.value ==> AllEqual(Windowed(b, a))
    ensures var bs := PullArm(b.arms.value, b.beliefs, draw);
      Windowed(b, bs) != [] &&
      forall a :: a in b.arms.value ==> Windowed(b, a) != [] && Mean(Windowed(b, a)) <= Mean(Windowed(b, bs))
  {
    TrackedBest(b, draw);
    hide Windowed, PullArm, Mean, AllEqual;
    forall a | a in b.arms.value
      ensures Sampled(b.beliefs, a, draw) == Mean(Windowed(b, a))
    {
      InfiniteExactlyWhenAllEqual(Windowed(b, a));
      RefitIs(b.prior, Windowed(b, a));
    }
  }

  lemma TrackedBest(b: Bso, draw: Draw)
    requires b.arms.Some? && b.arms.value != [] && BeliefsTrack(b, b.arms.value) && b.prior.prec >= 0.0
    ensures BestArm(b, PullArm(b.arms.value, b.beliefs, draw), draw)
  {
    hide Windowed, Refit, PullArm;
    forall a | a in b.arms.value
      ensures ObservationsOf(b.beliefs, a) >= EXPLORATIONS
    {
      RefitIsDefined(b.prior, Windowed(b, a));
    }
    PullsTheBest(b.arms.value, b.beliefs, draw);
  }

  /** The assertion on the number of observations holds exactly for windows other than one. */
  lemma WindowDecides(b: Bso, log: seq<Report>, s: set<int>, draw: Draw)
    requires BsoOk(b, log, s) && b.arms.None? && !Awaits(b)
    requires Next(b.explorer).1.Stops? && Next(b.explorer).1.survivors != Some([])
    ensures Predicted(b, draw) == Err(TooFewObservations) <==> b.window == 1
  {
    hide Next, NextOk, YieldOk, Within, RewardsOf, PullArm, Learned;
    var (e, answer) := Next(b.explorer);
    assert NextOk(b.explorer, log) by { NotYielding(b, log); }
    NextKeeps(b.explorer, log);
    NextState(b.explorer, log);
    FinalBatchSizes(b.explorer, log);
    if b.window == 1 {
      assert |Latest(RewardsOf(b.history, e.batchSizes[0]), 1)| <= 1;
    } else {
      SurvivorsObserved(b.(explorer := e), log, answer.survivors.value);
    }
  }

  lemma NotYielding(b: Bso, log: seq<Report>)
    requires (NextOk(b.explorer, log) || YieldOk(b.explorer, log)) && !b.explorer.control.AtYield?
    ensures NextOk(b.explorer, log)
  {
  }

  lemma FinishedStays(e: Explorer)
    requires e.control.Finished?
    ensures Next(e) == (e, Stops(None))
  {
  }

  lemma NextState(e: Explorer, log: seq<Report>)
    requires NextOk(e, log)
    ensures var (after, answer) := Next(e);
      && after.rounds == e.rounds
      && (answer.Yields? ==> after.control.AtYield?)
      && (answer.Stops? ==> after.control.Finished?)
      && !after.control.NotStarted?
  {
    hide SortBy, FrameOk;
  }

  /** Every survivor has been observed once per round, so a window of another size than one shows it twice. */
  lemma SurvivorsObserved(b: Bso, log: seq<Report>, survivors: seq<int>)
    requires Covers(b.history, log) && Survived(survivors, log, PRUNING_ROUNDS)
    requires b.explorer.batchSizes == survivors && b.window != 1
    ensures EnoughObserved(b)
  {
    hide RewardsOf, ResultsOf;
    forall i | 0 <= i < |survivors|
      ensures |Windowed(b, survivors[i])| >= EXPLORATIONS
    {
      assert Waits(log, survivors[i], PRUNING_ROUNDS);
    }
  }

  lemma RewardsAppend(history: seq<Observation>, o: Observation)
    ensures forall b :: RewardsOf(history + [o], b) == RewardsOf(history, b) + if b == o.0 then [o.1] else []
  {
    assert (history + [o])[..|history|] == history;
  }

  /** With concurrent jobs results may be observed in any order: only the one the coroutine awaits is passed on to it,
      and no observation fails. */
  lemma ObserveKeeps(b: Bso, log: seq<Report>, s: set<int>, bs: int, cost: real, converged: bool)
    requires BsoOk(b, log, s) && bs in s && !b.explorer.control.NotStarted? && b.concurrency
    ensures var r := Observed(b, bs, cost, converged); var log' := NextLog(b, log, bs, cost, converged);
      && r.Ok?
      && BsoOk(r.value, log', s)
      && !r.value.explorer.control.NotStarted?
      && log' == (if Awaits(b) && b.explorer.expecting == bs then log + [Report(bs, Feedback(cost, converged))]
                  else log)
      && r.value.history == b.history + [(bs, -cost)] && r.value.arms == b.arms
      && (Awaits(r.value) ==> Awaits(b) && r.value.explorer.expecting == b.explorer.expecting != bs)
  {
    RewardsAppend(b.history, (bs, -cost));
    var r := Report(bs, Feedback(cost, converged));
    OnlyItsOwn(log, r);
    ObservedIs(b, bs, cost, converged);
    hide NextOk, YieldOk, RewardsOf, ResultsOf, BeliefsTrack, BeliefFrom, Windowed, Observed, Send, Within;
    if b.arms.Some? {
      ObservingTracks(b, b.arms.value, bs, cost, converged);
    } else if PassesOn(b, bs) {
      ExpectingYields(b, log, s, bs);
      SendKeeps(b.explorer, log, r.feedback);
      SentWithin(b.explorer, log, r, s);
    }
  }

  /** The three ways of observing a result. */
  lemma ObservedIs(b: Bso, bs: int, cost: real, converged: bool)
    ensures var r := Observed(b, bs, cost, converged); var seen := b.(history := b.history + [(bs, -cost)]);
      var sent := Send(b.explorer, Report(bs, Feedback(cost, converged)));
      && (b.arms.Some? ==> r == Ok(seen.(beliefs := b.beliefs[bs := BeliefFrom(b.prior, Windowed(seen, bs))])))
      && (b.arms.None? && !PassesOn(b, bs) ==> r == Ok(seen))
      && (PassesOn(b, bs) && sent.1.Acknowledged? ==> r == Ok(seen.(explorer := sent.0)))
  {
    hide Send, BeliefFrom, Windowed;
  }

  /** Without concurrency every result goes to the coroutine while it lasts: the one it awaits is taken, and any other,
      or one that comes too early, raises. */
  lemma ObserveInTurn(b: Bso, log: seq<Report>, s: set<int>, bs: int, cost: real, converged: bool)
    requires BsoOk(b, log, s) && !b.concurrency && b.arms.None?
    ensures var r := Observed(b, bs, cost, converged); var report := Report(bs, Feedback(cost, converged));
      && NextLog(b, log, bs, cost, converged) == log + [report]
      && (r.Ok? <==> Awaits(b) && b.explorer.expecting == bs)
      && (r.Ok? ==>
            && BsoOk(r.value, log + [report], s) && !Awaits(r.value)
            && r.value.explorer == Send(b.explorer, report).0
            && r.value.history == b.history + [(bs, -cost)] && r.value.arms == b.arms)
      && (Awaits(b) && b.explorer.expecting != bs ==> r == Err(Coroutine(OrderMismatch)))
      && (b.explorer.control.NotStarted? ==> r == Err(Coroutine(SentTooEarly)))
  {
    hide NextOk, YieldOk, RewardsOf, ResultsOf, Advance, EnterRound;
    RewardsAppend(b.history, (bs, -cost));
    var r := Report(bs, Feedback(cost, converged));
    OnlyItsOwn(log, r);
    if Awaits(b) {
      assert YieldOk(b.explorer, log) by { AwaitingYields(b, log, s); }
      if b.explorer.expecting == bs {
        SendKeeps(b.explorer, log, r.feedback);
        SentWithin(b.explorer, log, r, s);
      }
    } else {
      NextNotAcknowledged(b.explorer);
    }
  }

  lemma AwaitingYields(b: Bso, log: seq<Report>, s: set<int>)
    requires BsoOk(b, log, s) && Awaits(b)
    ensures YieldOk(b.explorer, log)
  {
    hide ResultsOf, FrameOk;
  }

  lemma NextNotAcknowledged(e: Explorer)
    ensures !Next(e).1.Acknowledged?
  {
    hide SortBy, Down, Up;
  }

  /** The bandit refits the arm observed, and the others have nothing to learn from it. */
  lemma ObservingTracks(b: Bso, arms: seq<int>, bs: int, cost: real, converged: bool)
    requires b.arms == Some(arms) && BeliefsTrack(b, arms)
    ensures Observed(b, bs, cost, converged).Ok? && BeliefsTrack(Observed(b, bs, cost, converged).value, arms)
  {
    hide RewardsOf, Refit;
    RewardsAppend(b.history, (bs, -cost));
    var after := Observed(b, bs, cost, converged).value;
    forall a | a in arms
      ensures |Windowed(after, a)| >= EXPLORATIONS
      ensures a in after.beliefs && after.beliefs[a] == Refit(b.prior, Windowed(after, a))
    {
      if a != bs {
        assert RewardsOf(after.history, a) == RewardsOf(b.history, a);
      }
    }
  }

  lemma ExpectingYields(b: Bso, log: seq<Report>, s: set<int>, bs: int)
    requires BsoOk(b, log, s) && bs in s && !b.explorer.control.NotStarted? && b.concurrency && PassesOn(b, bs)
    ensures YieldOk(b.explorer, log) && Awaits(b)
  {
    hide ResultsOf, FrameOk;
  }

  lemma SentWithin(e: Explorer, log: seq<Report>, r: Report, s: set<int>)
    requires YieldOk(e, log) && Within(e, s) && r.bs == e.expecting
    ensures Within(Send(e, r).0, s)
    ensures Send(e, r).0.control.AtAck? && Send(e, r).0.rounds == e.rounds
  {
    hide ResultsOf, FrameOk;
  }

  lemma RegisterOk(batchSizes: seq<int>, default: int, prior: Prior, window: int, concurrency: bool, s: set<int>)
    requires default in batchSizes && Distinct(batchSizes) && 0 !in s && forall b :: b in batchSizes ==> b in s
    requires prior.prec >= 0.0
    ensures BsoOk(Register(batchSizes, default, prior, window, concurrency).value, [], s)
  {
    var sorted := SortBy(AtMost, batchSizes);
    SameElements(batchSizes, sorted);
    DistinctPermutation(batchSizes, sorted);
  }

  /** The first batch size tried is the job's default. */
  lemma FirstIsDefault(batchSizes: seq<int>, default: int, prior: Prior, window: int, draw: Draw)
    requires default in batchSizes && Distinct(batchSizes)
    ensures var b := Register(batchSizes, default, prior, window, true).value;
      Predicted(b, draw).Ok? && Predicted(b, draw).value.1 == default
  {
    hide SortBy;
    var sorted := SortBy(AtMost, batchSizes);
    SameElements(batchSizes, sorted);
    SortByIsOrdered(AtMost, batchSizes);
    var idx := IndexOf(sorted, default);
    var below := sorted[..idx + 1];
    DownStartsAt(below);
  }

  lemma DownStartsAt(s: seq<int>)
    requires s != [] && OrderedBy(AtMost, s)
    ensures SortBy(AtLeast, s)[0] == s[|s| - 1]
  {
    hide SortBy;
    var down := SortBy(AtLeast, s);
    SortByIsOrdered(AtLeast, s);
    SameElements(s, down);
    var last := s[|s| - 1];
    assert last <= down[0] by {
      assert s[|s| - 1] in s && last in down;
      var i :| 0 <= i < |down| && down[i] == last;
      assert i > 0 ==> AtLeast(down[0], down[i]);
    }
    assert down[0] <= last by {
      assert down[0] in s;
      var j :| 0 <= j < |s| && s[j] == down[0];
      assert j < |s| - 1 ==> AtMost(s[j], s[|s| - 1]);
    }
  }

  // ---- The bandit has the survivors of pruning ----

  /** The coroutine has followed what was passed on to it, and the arms are what it returned. */
  ghost predicate Traces(start: Explorer, b: Bso, log: seq<Report>) {
    && Follows(start, log)
    && match b.arms
       case None =>
         if b.explorer.control.AtYield? then Next(RunOf(start, log)) == (b.explorer, Yields(b.explorer.expecting))
         else b.explorer == RunOf(start, log)
       case Some(arms) => Next(RunOf(start, log)) == (b.explorer, Stops(Some(arms)))
  }

  lemma RegisterTraces(batchSizes: seq<int>, default: int, prior: Prior, window: int, concurrency: bool)
    requires default in batchSizes
    ensures var b := Register(batchSizes, default, prior, window, concurrency).value; Traces(b.explorer, b, [])
  {
  }

  lemma PredictTraces(start: Explorer, b: Bso, log: seq<Report>, s: set<int>, draw: Draw)
    requires Traces(start, b, log) && BsoOk(b, log, s) && !Awaits(b) && Predicted(b, draw).Ok?
    ensures Traces(start, Predicted(b, draw).value.0, log)
  {
    PredictKeeps(b, log, s, draw);
    PredictAsks(b, draw);
    hide Next, BsoOk, Predicted, Follows, RunOf, BestArm;
  }

  /** A prediction leaves the coroutine where asking for the next batch size does. */
  lemma PredictAsks(b: Bso, draw: Draw)
    requires Predicted(b, draw).Ok?
    ensures Predicted(b, draw).value.0.explorer == Next(b.explorer).0
    ensures Predicted(b, draw).value.0.arms.None? ==> Next(b.explorer).1 == Yields(Predicted(b, draw).value.1)
  {
    hide Next, PullArm, Learned;
  }

  lemma ObserveTraces(start: Explorer, b: Bso, log: seq<Report>, s: set<int>, bs: int, cost: real, converged: bool)
    requires Traces(start, b, log) && BsoOk(b, log, s) && bs in s && !b.explorer.control.NotStarted? && b.concurrency
    ensures Observed(b, bs, cost, converged).Ok?
    ensures Traces(start, Observed(b, bs, cost, converged).value, NextLog(b, log, bs, cost, converged))
  {
    hide NextOk, YieldOk, RewardsOf, ResultsOf, BeliefsTrack, BeliefFrom, Windowed, Next;
    ObserveKeeps(b, log, s, bs, cost, converged);
    var r := Report(bs, Feedback(cost, converged));
    if PassesOn(b, bs) {
      ExpectingYields(b, log, s, bs);
      FollowsLonger(start, log, r);
      RunOfSent(start, log, r);
      SentWithin(b.explorer, log, r, s);
    }
  }

  /** The bandit's arms are exactly the batch sizes that pruning keeps with the results passed on, and those results are
      of exactly the batch sizes that pruning tries. */
  lemma ArmsArePruned(batchSizes: seq<int>, default: int, prior: Prior, window: int, concurrency: bool, b: Bso,
                      log: seq<Report>)
    requires default in batchSizes && Distinct(batchSizes) && b.arms.Some?
    requires Traces(Register(batchSizes, default, prior, window, concurrency).value.explorer, b, log)
    ensures var v := Pruning.Prune(SortBy(AtMost, batchSizes), default, 0, PRUNING_ROUNDS, ResultIn(log));
      && v.answer == Stops(b.arms)
      && |v.trace| == |log| && forall i :: 0 <= i < |log| ==> v.trace[i] == log[i].bs
  {
    var start := Register(batchSizes, default, prior, window, concurrency).value.explorer;
    SortedIsIncreasing(batchSizes);
    StartIsOk(start);
    hide Next, NextOk, Pruning.Prune, ResultIn, Follows, RunOf, SortBy, StrictlyIncreasing;
    EndIsPruned(start, log);
  }

  lemma StartIsOk(start: Explorer)
    requires start.control.NotStarted? && StrictlyIncreasing(start.batchSizes) && start.default in start.batchSizes
    requires start.rounds > 0 && start.expecting == start.default
    ensures NextOk(start, [])
  {
  }

  // ---- The class ----

  class PruningGTSBatchSizeOptimizer {
    const manager: PruningExploreManager
    const prior: Prior
    const window: int
    const concurrency: bool
    var history: seq<Observation>
    var arms: Option<seq<int>>
    var beliefs: map<int, Belief>

    ghost function Model(): Bso
      reads this, manager
    {
      Bso(manager.Model(), history, arms, beliefs, prior, window, concurrency)
    }

    constructor (batchSizes: seq<int>, default: int, prior: Prior, window: int, concurrency: bool)
      requires default in batchSizes
      ensures fresh(manager) && manager.Valid()
      ensures Some(Model()) == Register(batchSizes, default, prior, window, concurrency)
    {
      var sorted := SortBy(AtMost, batchSizes);
      SameElements(batchSizes, sorted);
      manager := new PruningExploreManager(sorted, default, PRUNING_ROUNDS);
      this.prior, this.window, this.concurrency := prior, window, concurrency;
      history, arms, beliefs := [], None, map[];
    }

    method ConstructMab(survivors: Option<seq<int>>) returns (fault: Option<Fault>)
      modifies this
      ensures match MabBuilt(old(Model()), survivors)
        case Ok(b) => fault.None? && Model() == b
        case Err(f) => fault == Some(f) && Model() == old(Model())
    {
      hide RewardsOf, Refit;
      if survivors.None? || survivors.value == [] {
        return Some(AllPruned);
      }
      var learned := map a | a in survivors.value :: BeliefFrom(prior, []);
      var i := 0;
      while i < |manager.batchSizes|
        invariant 0 <= i <= |manager.batchSizes| && Model() == old(Model())
        invariant forall j :: 0 <= j < i ==> |Windowed(Model(), manager.batchSizes[j])| >= EXPLORATIONS
        invariant learned == LearnedFor(Model(), survivors.value, manager.batchSizes[..i])
      {
        var rewards := GetHistoryForBs(history, manager.batchSizes[i], window);
        if |rewards| < 2 {
          return Some(TooFewObservations);
        }
        LearnsMore(Model(), survivors.value, manager.batchSizes[..i], manager.batchSizes[i]);
        assert manager.batchSizes[..i + 1] == manager.batchSizes[..i] + [manager.batchSizes[i]];
        learned := learned[manager.batchSizes[i] := Refit(prior, rewards)];
        i := i + 1;
      }
      assert manager.batchSizes[..i] == manager.batchSizes;
      arms, beliefs := survivors, learned;
      fault := None;
    }

    method Predict(draw: Draw) returns (r: Result<int, Fault>)
      requires manager.Valid()
      modifies this, manager
      ensures manager.Valid()
      ensures match Predicted(old(Model()), draw)
        case Ok((b, bs)) => r == Ok(bs) && Model() == b
        case Err(f) => r == Err(f)
    {
      hide Next, PullArm, Learned;
      var answer := manager.NextBatchSize();
      match answer
      case Yields(bs) => return Ok(bs);
      case Raises(why) => return Err(Coroutine(why));
      case Acknowledged => return Err(Coroutine(CallOrder));
      case Stops(survivors) =>
        if arms.None? {
          var fault := ConstructMab(survivors);
          if fault.Some? {
            return Err(fault.value);
          }
        }
        if arms.value == [] {
          return Err(AllPruned);
        }
        r := Ok(PullArm(arms.value, beliefs, draw));
    }

    method Observe(bs: int, cost: real, converged: bool) returns (fault: Option<Fault>)
      requires manager.Valid()
      modifies this, manager
      ensures manager.Valid()
      ensures match Observed(old(Model()), bs, cost, converged)
        case Ok(b) => fault.None? && Model() == b
        case Err(f) => fault == Some(f)
    {
      hide Send, RewardsOf, Refit;
      history := history + [(bs, -cost)];
      if arms.Some? {
        var rewards := GetHistoryForBs(history, bs, window);
        beliefs := beliefs[bs := BeliefFrom(prior, rewards)];
        return None;
      }
      if !concurrency || manager.expecting == bs {
        var answer := manager.ReportBatchSizeResult(bs, cost, converged);
        match answer
        case Acknowledged => return None;
        case Raises(why) => return Some(Coroutine(why));
        case _ => return Some(Coroutine(CallOrder));
      }
      fault := None;
    }
  }
}
