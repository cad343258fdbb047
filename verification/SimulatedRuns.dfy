/** What every run of the simulation amounts to, told by the jobs themselves: which knobs each job got, what the history
    and the optimizer were told, and which arms the bandit has. */
module SimulatedRuns {
  import opened Lists
  import opened Outcomes
  import opened Exploration
  import opened BatchSizeOptimizer
  import opened LoggedRuns
  import opened Simulator
  import JitPowerLimit
  import Pruning

  // ---- In terms of the jobs ----

  /** The first cheapest of the power limits measured. */
  ghost predicate CheapestLimit(trials: seq<(int, real)>, pl: int) {
    exists i :: 0 <= i < |trials| && trials[i].0 == pl &&
      (forall k :: 0 <= k < |trials| ==> trials[i].1 <= trials[k].1) &&
      (forall k :: 0 <= k < i ==> trials[i].1 < trials[k].1)
  }

  /** The limit of a job is the cheapest for its batch size, and its cost weighs its energy and time. */
  ghost predicate Knobs(env: Env, j: RunningJob) {
    && CheapestLimit(env.profile(j.bs), j.pl)
    && j.cost == env.eta * j.outcome.energy + (1.0 - env.eta) * env.maxPower * j.outcome.time
  }

  /** Job `i` is the first cheapest of those observed that reached their target. */
  ghost predicate FirstCheapest(observed: seq<RunningJob>, i: int) {
    && 0 <= i < |observed| && observed[i].outcome.reached
    && (forall k :: 0 <= k < |observed| && observed[k].outcome.reached ==> observed[i].cost <= observed[k].cost)
    && (forall k :: 0 <= k < i && observed[k].outcome.reached ==> observed[i].cost < observed[k].cost)
  }

  /** The batch size of the first cheapest job that reached its target, or the default while none has. */
  ghost predicate BestSoFar(observed: seq<RunningJob>, default: int, bs: int) {
    || (bs == default && forall k :: 0 <= k < |observed| ==> !observed[k].outcome.reached)
    || exists i :: FirstCheapest(observed, i) && observed[i].bs == bs
  }

  predicate Ran(j: RunningJob) {
    j.outcome.energy != 0.0 || j.outcome.time != 0.0 || j.outcome.reached
  }

  /** A history entry tells of a job, energy and time scaled to the job's runtime. */
  predicate Tells(e: HistoryEntry, j: RunningJob) {
    && e.bs == j.bs && e.pl == j.pl && e.reached == j.outcome.reached
    && e.energy == j.outcome.energy * j.slot.ratio
    && e.time == j.outcome.time * j.slot.ratio
  }

  /** The history has one entry for each job observed that ran, in their order. */
  ghost predicate Recounts(history: seq<HistoryEntry>, observed: seq<RunningJob>, at: seq<nat>) {
    && |at| == |history| && Ascending(at, |observed|)
    && (forall i :: 0 <= i < |at| ==> Ran(observed[at[i]]) && Tells(history[i], observed[at[i]]))
    && (forall k :: 0 <= k < |observed| && Ran(observed[k]) ==> k in at)
  }

  /** The optimizer knows batch size and cost of each job observed. */
  ghost predicate Told(bso: Bso, observed: seq<RunningJob>) {
    && |bso.history| == |observed|
    && forall i :: 0 <= i < |observed| ==> bso.history[i].0 == observed[i].bs && bso.history[i].1 == -observed[i].cost
  }

  /** What was passed on to the coroutine are results of jobs observed, in their order. */
  ghost predicate PassedOn(log: seq<Report>, observed: seq<RunningJob>, at: seq<nat>) {
    && |at| == |log| && Ascending(at, |observed|)
    && forall i :: 0 <= i < |at| ==>
         && log[i].bs == observed[at[i]].bs
         && log[i].feedback.cost == observed[at[i]].cost
         && log[i].feedback.reached == observed[at[i]].outcome.reached
  }

  // ---- History ----

  lemma RecountsMore(history: seq<HistoryEntry>, observed: seq<RunningJob>, at: seq<nat>, j: RunningJob)
    returns (more: seq<nat>)
    requires Recounts(history, observed, at)
    ensures Recounts(history + Entries(j), observed + [j], more)
  {
    AscendingMore(at, |observed|);
    var longer := observed + [j];
    more := if Ran(j) then at + [|observed|] else at;
    forall k | 0 <= k < |longer| && Ran(longer[k])
      ensures k in more
    {
      if k < |observed| {
        assert k in at;
      } else {
        assert more[|at|] == k;
      }
    }
  }

  lemma {:induction false} HistoryRecounts(observed: seq<RunningJob>) returns (at: seq<nat>)
    ensures Recounts(HistoryOf(observed), observed, at)
    decreases |observed|
  {
    hide Recounts, Entries;
    if observed == [] {
      at := [];
      NothingRecounts([], observed);
    } else {
      var n := |observed| - 1;
      at := HistoryRecounts(observed[..n]);
      at := RecountsMore(HistoryOf(observed[..n]), observed[..n], at, observed[n]);
      assert observed[..n] + [observed[n]] == observed;
    }
  }

  lemma NothingRecounts(history: seq<HistoryEntry>, observed: seq<RunningJob>)
    requires history == [] && observed == []
    ensures Recounts(history, observed, [])
  {
  }

  // ---- The best known batch size ----

  lemma NoneReached(observed: seq<RunningJob>)
    ensures Successful(observed) == [] <==> forall k :: 0 <= k < |observed| ==> !observed[k].outcome.reached
  {
    if observed != [] {
      NoneReached(observed[..|observed| - 1]);
    }
  }

  lemma {:induction false} BestJobIs(observed: seq<RunningJob>)
    ensures match BestJob(observed)
      case None => forall k :: 0 <= k < |observed| ==> !observed[k].outcome.reached
      case Some(j) => exists i :: FirstCheapest(observed, i) && observed[i] == j
    decreases |observed|
  {
    if observed != [] {
      var n := |observed| - 1;
      var before, j := observed[..n], observed[n];
      BestJobIs(before);
      BestJobMore(before, j);
      assert observed == before + [j];
      hide BestJob, FirstCheapest;
      if BestJob(before).Some? {
        var i :| FirstCheapest(before, i) && before[i] == BestJob(before).value;
        FirstCheapestMore(before, i, j);
        assert (before + [j])[i] == before[i];
      } else if j.outcome.reached {
        FirstReached(before, j);
      }
    }
  }

  lemma BestJobMore(observed: seq<RunningJob>, j: RunningJob)
    ensures BestJob(observed + [j]) ==
      if !j.outcome.reached then BestJob(observed)
      else if BestJob(observed).None? || BestJob(observed).value.cost > j.cost then Some(j) else BestJob(observed)
  {
    assert (observed + [j])[..|observed|] == observed;
    var s := Successful(observed);
    if j.outcome.reached {
      if s == [] {
        assert s + [j] == [j];
      } else {
        FirstLeastOfLonger(CostsNoMore, s, j);
      }
    } else {
      assert s + [] == s;
    }
  }

  lemma FirstCheapestMore(observed: seq<RunningJob>, i: int, j: RunningJob)
    requires FirstCheapest(observed, i)
    ensures !j.outcome.reached || observed[i].cost <= j.cost ==> FirstCheapest(observed + [j], i)
    ensures j.outcome.reached && observed[i].cost > j.cost ==> FirstCheapest(observed + [j], |observed|)
  {
    var longer := observed + [j];
    assert forall k :: 0 <= k < |observed| ==> longer[k] == observed[k];
  }

  lemma FirstReached(observed: seq<RunningJob>, j: RunningJob)
    requires j.outcome.reached && forall k :: 0 <= k < |observed| ==> !observed[k].outcome.reached
    ensures FirstCheapest(observed + [j], |observed|)
  {
  }

  lemma BestIsSoFar(w: World, default: int)
    requires BestKnown(w, default)
    ensures BestSoFar(w.observed, default, w.bestBs)
  {
    hide BestJob, FirstCheapest;
    BestJobIs(w.observed);
  }

  // ---- What stays true in every run ----

  ghost predicate Kept(env: Env, w: World) {
    && (forall bs :: bs in w.limits ==> CheapestLimit(env.profile(bs), w.limits[bs]))
    && (forall i :: 0 <= i < |w.running| ==> Knobs(env, w.running[i]))
    && (forall i :: 0 <= i < |w.observed| ==> Knobs(env, w.observed[i]))
    && Told(w.bso, w.observed)
    && exists at :: PassedOn(w.log, w.observed, at)
  }

  lemma BeginsKept(env: Env, c: Config)
    requires c.default in c.batchSizes
    ensures Kept(env, Begin(c))
  {
    assert PassedOn(Begin(c).log, Begin(c).observed, []);
  }

  lemma CheapestIsLimit(trials: seq<(int, real)>)
    requires trials != []
    ensures CheapestLimit(trials, JitPowerLimit.Cheapest(trials).0)
  {
    FirstLeastIsLeast(JitPowerLimit.NoCostlier, trials);
    var i := FirstLeast(JitPowerLimit.NoCostlier, trials);
    assert forall k :: 0 <= k < |trials| ==> JitPowerLimit.NoCostlier(trials[i], trials[k]);
    assert forall k :: 0 <= k < i ==> !JitPowerLimit.NoCostlier(trials[k], trials[i]);
  }

  lemma FinishStaysKept(env: Env, w: World, k: nat)
    requires Kept(env, w) && k < |w.running| && Finish(w, k).Ok?
    ensures Kept(env, Finish(w, k).value)
  {
    var j := w.running[k];
    var after := Finish(w, k).value;
    ObservedTold(w.bso, j.bs, j.cost, j.outcome.reached);
    hide Observed, Knobs, CheapestLimit, Entries;
    OthersAreThere(w.running, k);
    hide Without;
    var at :| PassedOn(w.log, w.observed, at);
    PassesMore(w, at, j);
  }

  lemma ObservedTold(b: Bso, bs: int, cost: real, reached: bool)
    ensures var r := Observed(b, bs, cost, reached); r.Ok? ==> r.value.history == b.history + [(bs, -cost)]
  {
    hide Send, BeliefFrom, Windowed;
  }

  lemma PassesMore(w: World, at: seq<nat>, j: RunningJob)
    requires PassedOn(w.log, w.observed, at)
    ensures exists more ::
      PassedOn(NextLog(w.bso, w.log, j.bs, j.cost, j.outcome.reached), w.observed + [j], more)
  {
    AscendingMore(at, |w.observed|);
    var longer := w.observed + [j];
    assert forall i :: 0 <= i < |w.observed| ==> longer[i] == w.observed[i];
    var log := NextLog(w.bso, w.log, j.bs, j.cost, j.outcome.reached);
    assert PassedOn(log, longer, if PassesOn(w.bso, j.bs) then at + [|w.observed|] else at);
  }

  /** One job more in flight, beside the others, with the knobs it should have: the best known batch size if there are
      others, and otherwise what the coroutine yields or the bandit pulls. */
  ghost predicate Launches(env: Env, c: Config, others: seq<RunningJob>, launched: nat, slot: Slot, after: World) {
    && after.launched == launched + 1 && |after.running| == |others| + 1
    && (forall i :: 0 <= i < |others| ==> after.running[i] == others[i])
    && var j := after.running[|others|];
    && j.slot == slot && j.outcome == env.run(launched) && Knobs(env, j)
    && if others != [] then BestSoFar(after.observed, c.default, j.bs)
       else if after.bso.arms.None? then Awaits(after.bso) && after.bso.explorer.expecting == j.bs
       else BestArm(after.bso, j.bs, env.draw(launched))
  }

  lemma LaunchLaunches(env: Env, c: Config, w: World, slot: Slot)
    requires GoodConfig(c) && GoodEnv(env) && Protocol(c, w) && Kept(env, w) && BestKnown(w, c.default)
    requires Launch(env, w, slot).Ok?
    ensures var after := Launch(env, w, slot).value;
      Launches(env, c, w.running, w.launched, slot, after) && Kept(env, after) && after.observed == w.observed
  {
    hide BsoOk, Traces, Predicted, Awaits, Carried, BestArm, FirstLeast, CheapestLimit, BestKnown, BestSoFar, PassedOn;
    BestIsSoFar(w, c.default);
    LaunchKnows(env, w, slot);
    if w.running == [] {
      assert !Awaits(w.bso) by { NobodyAwaits(w); }
      PredictKeeps(w.bso, w.log, Feasible(c), env.draw(w.launched));
      PredictTells(w.bso, env.draw(w.launched));
      var (bso, bs) := Predicted(w.bso, env.draw(w.launched)).value;
      CheapestIsLimit(env.profile(bs));
    }
  }

  /** The cost of the job launched, and the log, which a launch leaves alone. */
  lemma LaunchKnows(env: Env, w: World, slot: Slot)
    requires Launch(env, w, slot).Ok?
    ensures var after := Launch(env, w, slot).value;
      && |after.running| == |w.running| + 1
      && (forall i :: 0 <= i < |w.running| ==> after.running[i] == w.running[i])
      && after.observed == w.observed && after.log == w.log && after.launched == w.launched + 1
      && var o := after.running[|w.running|].outcome;
      after.running[|w.running|].cost == env.eta * o.energy + (1.0 - env.eta) * env.maxPower * o.time
  {
    hide Predicted, Profiled;
  }

  lemma PredictTells(b: Bso, draw: Draw)
    ensures Predicted(b, draw).Ok? ==> Predicted(b, draw).value.0.history == b.history
  {
    hide Next, PullArm, Learned;
  }

  // ---- Steps and runs ----

  /** What an action does: a row is put in flight; or the first of the jobs that end first is observed and, if it
      failed, put in flight again for as long as before. */
  ghost predicate Does(env: Env, c: Config, w: World, a: Action, after: World) {
    match a
    case Submit(slot) => after.observed == w.observed && Launches(env, c, w.running, w.launched, slot, after)
    case ReapNext =>
      exists k ::
        && FirstToEnd(w.running, k)
        && after.observed == w.observed + [w.running[k]]
        && var j, rest := w.running[k], w.running[..k] + w.running[k + 1..];
        if j.outcome.reached then after.running == rest && after.launched == w.launched
        else
          var duration := j.slot.end - j.slot.start;
          Launches(env, c, rest, w.launched, Slot(j.slot.end, j.slot.end + duration, j.slot.ratio), after)
  }

  ghost predicate FirstToEnd(running: seq<RunningJob>, k: int) {
    && 0 <= k < |running|
    && (forall i :: 0 <= i < |running| ==> running[k].slot.end <= running[i].slot.end)
    && (forall i :: 0 <= i < k ==> running[k].slot.end < running[i].slot.end)
  }

  lemma ActDoes(env: Env, c: Config, w: World, submitted: nat, a: Action)
    requires Sound(env, c, w, submitted) && Kept(env, w) && May(w, a) && Act(env, w, a).Ok?
    ensures Does(env, c, w, a, Act(env, w, a).value) && Kept(env, Act(env, w, a).value)
  {
    hide Launch, Finish, Kept, Protocol, Balanced, BestKnown, Causal, Launches;
    match a
    case Submit(slot) =>
      LaunchLaunches(env, c, w, slot);
    case ReapNext =>
      ReapDoes(env, c, w, submitted);
  }

  lemma ReapDoes(env: Env, c: Config, w: World, submitted: nat)
    requires Sound(env, c, w, submitted) && Kept(env, w) && w.running != [] && Reap(env, w).Ok?
    ensures Does(env, c, w, ReapNext, Reap(env, w).value) && Kept(env, Reap(env, w).value)
  {
    hide Launch, Finish, Kept, Protocol, Balanced, BestKnown, Causal, Launches, FirstToEnd, FirstLeast;
    var k := FirstLeast(EndsNoLater, w.running);
    FirstIsFirstToEnd(w.running);
    RunningIsLaunched(env, w, submitted);
    FinishIsSafe(c, w, k);
    FinishRecords(w, k, c.default);
    FinishStaysKept(env, w, k);
    FinishTakes(w, k);
    if !w.running[k].outcome.reached {
      LaunchLaunches(env, c, Finish(w, k).value, RetrySlot(w.running[k].slot));
    }
  }

  lemma FirstIsFirstToEnd(running: seq<RunningJob>)
    requires running != []
    ensures FirstToEnd(running, FirstLeast(EndsNoLater, running))
  {
    FirstLeastIsLeast(EndsNoLater, running);
    var k := FirstLeast(EndsNoLater, running);
    assert forall i :: 0 <= i < |running| ==> EndsNoLater(running[k], running[i]);
    assert forall i :: 0 <= i < k ==> !EndsNoLater(running[i], running[k]);
  }

  lemma FinishTakes(w: World, k: nat)
    requires k < |w.running| && Finish(w, k).Ok?
    ensures var after := Finish(w, k).value;
      && after.running == w.running[..k] + w.running[k + 1..]
      && after.observed == w.observed + [w.running[k]] && after.launched == w.launched
  {
    hide Observed, Entries;
  }

  lemma {:induction false} KeptAlways(env: Env, c: Config, w: World, submitted: nat, actions: seq<Action>, after: World)
    requires Sound(env, c, w, submitted) && Kept(env, w) && Runs(env, w, actions, after)
    ensures Kept(env, after)
    decreases |actions|
  {
    hide Sound, Kept, Does, Launch, Reap;
    if actions != [] {
      var next := Act(env, w, actions[0]).value;
      ActDoes(env, c, w, submitted, actions[0]);
      match actions[0] {
        case Submit(slot) =>
          SubmitKeeps(env, c, w, submitted, slot);
          KeptAlways(env, c, next, submitted + 1, actions[1..], after);
        case ReapNext =>
          ReapKeeps(env, c, w, submitted);
          KeptAlways(env, c, next, submitted, actions[1..], after);
      }
    }
  }

  /** In every run: a job launched while others are in flight gets the batch size of the first cheapest job observed to
      have reached its target, any other what the coroutine yields or the bandit pulls; each gets the first cheapest
      limit of its batch size and costs the weighted energy and time of its outcome; and jobs are observed in the order
      in which they end. */
  lemma EveryStepDoes(env: Env, c: Config, actions: seq<Action>, w: World, a: Action)
    requires GoodConfig(c) && GoodEnv(env) && Runs(env, Begin(c), actions, w) && May(w, a) && Act(env, w, a).Ok?
    ensures Does(env, c, w, a, Act(env, w, a).value)
  {
    RunIsSound(env, c, actions, w);
    BeginsSound(env, c);
    BeginsKept(env, c);
    hide *;
    KeptAlways(env, c, Begin(c), 0, actions, w);
    ActDoes(env, c, w, Submissions(actions), a);
  }

  /** In every state of every run: the history tells of each job observed that ran, in order; every job has the knobs it
      should; the optimizer was told of each job observed; what was passed on are their results; and the arms of the
      bandit, once there is one, are exactly what pruning keeps with those results. */
  lemma EveryRunRecords(env: Env, c: Config, actions: seq<Action>, w: World)
    requires GoodConfig(c) && GoodEnv(env) && Runs(env, Begin(c), actions, w)
    ensures exists at :: Recounts(w.history, w.observed, at)
    ensures BestSoFar(w.observed, c.default, w.bestBs)
    ensures forall i :: 0 <= i < |w.running| ==> Knobs(env, w.running[i])
    ensures forall i :: 0 <= i < |w.observed| ==> Knobs(env, w.observed[i])
    ensures Told(w.bso, w.observed) && exists at :: PassedOn(w.log, w.observed, at)
    ensures w.bso.arms.Some? ==>
      var v := Pruning.Prune(SortBy(AtMost, c.batchSizes), c.default, 0, PRUNING_ROUNDS, ResultIn(w.log));
      && v.answer == Stops(w.bso.arms)
      && |v.trace| == |w.log| && forall i :: 0 <= i < |w.log| ==> v.trace[i] == w.log[i].bs
  {
    RunIsSound(env, c, actions, w);
    SoundMeans(env, c, w, Submissions(actions));
    BeginsSound(env, c);
    BeginsKept(env, c);
    var at := HistoryRecounts(w.observed);
    assert Recounts(w.history, w.observed, at);
    hide Sound, Recounts, BestSoFar, BestKnown, FirstCheapest, Pruning.Prune, Traces, Runs;
    BestIsSoFar(w, c.default);
    KeptAlways(env, c, Begin(c), 0, actions, w);
    hide Begin, SortBy, ResultIn;
    if w.bso.arms.Some? {
      SoundTraces(env, c, w, Submissions(actions));
      ArmsArePruned(c.batchSizes, c.default, c.prior, c.window, true, w.bso, w.log);
    }
  }

  lemma SoundTraces(env: Env, c: Config, w: World, submitted: nat)
    requires Sound(env, c, w, submitted)
    ensures c.default in c.batchSizes && Distinct(c.batchSizes)
    ensures Traces(Register(c.batchSizes, c.default, c.prior, c.window, true).value.explorer, w.bso, w.log)
  {
    hide BsoOk, Balanced, Recorded, Causal, Traces;
  }

  /** Once built, the bandit keeps its arms for the rest of the run. */
  lemma {:induction false} ArmsStay(env: Env, c: Config, w: World, submitted: nat, actions: seq<Action>, after: World)
    requires Sound(env, c, w, submitted) && Runs(env, w, actions, after) && w.bso.arms.Some?
    ensures after.bso.arms == w.bso.arms
    decreases |actions|
  {
    hide Sound, Launch, Finish;
    if actions != [] {
      var next := Act(env, w, actions[0]).value;
      match actions[0] {
        case Submit(slot) =>
          SubmitKeeps(env, c, w, submitted, slot);
          SoundHasProtocol(env, c, w, submitted);
          LaunchKeepsArms(env, c, w, slot);
          ArmsStay(env, c, next, submitted + 1, actions[1..], after);
        case ReapNext =>
          ReapKeeps(env, c, w, submitted);
          ReapKeepsArms(env, c, w, submitted);
          ArmsStay(env, c, next, submitted, actions[1..], after);
      }
    }
  }

  lemma SoundHasProtocol(env: Env, c: Config, w: World, submitted: nat)
    requires Sound(env, c, w, submitted)
    ensures Protocol(c, w)
  {
    hide Protocol, Balanced, Recorded, Causal;
  }

  lemma LaunchKeepsArms(env: Env, c: Config, w: World, slot: Slot)
    requires Protocol(c, w) && Launch(env, w, slot).Ok? && w.bso.arms.Some?
    ensures Launch(env, w, slot).value.bso.arms == w.bso.arms
  {
    hide BsoOk, Predicted, Traces;
    BanditPredicts(w.bso, w.log, Feasible(c), env.draw(w.launched));
  }

  lemma ReapKeepsArms(env: Env, c: Config, w: World, submitted: nat)
    requires Sound(env, c, w, submitted) && w.running != [] && Reap(env, w).Ok? && w.bso.arms.Some?
    ensures Reap(env, w).value.bso.arms == w.bso.arms
  {
    hide Launch, Finish, Protocol, Balanced, Recorded, Causal;
    var k := FirstLeast(EndsNoLater, w.running);
    RunningIsLaunched(env, w, submitted);
    FinishIsSafe(c, w, k);
    FinishKeepsArms(w, k);
    if !w.running[k].outcome.reached {
      LaunchKeepsArms(env, c, Finish(w, k).value, RetrySlot(w.running[k].slot));
    }
  }
}
