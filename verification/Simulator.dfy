/** The discrete-event simulation of one Alibaba group, `simulate_one_alibaba_group` in zeus/_legacy/simulate.py, as
    a state machine: jobs are launched, finish in the order of their end times, and are retried when they failed.
    What running a job yields is an oracle over the number of the launch. */
module Simulator {
  import opened Lists
  import opened Metric
  import opened Outcomes
  import opened Exploration
  import opened BatchSizeOptimizer
  import JitPowerLimit
  import Posterior

  datatype Slot = Slot(start: real, end: real, ratio: real)

  datatype Outcome = Outcome(energy: real, time: real, reached: bool)

  datatype RunningJob = RunningJob(slot: Slot, bs: int, pl: int, outcome: Outcome, cost: real)

  datatype HistoryEntry = HistoryEntry(bs: int, pl: int, energy: real, reached: bool, time: real)

  /** `run` gives the outcome of the n-th launch, `draw` the bandit's random numbers before it, and `profile` the cost
      of every power limit for a batch size. */
  datatype Env = Env(run: nat -> Outcome, draw: nat -> Draw, profile: int -> seq<(int, real)>, eta: real,
                     maxPower: real)

  datatype Config = Config(batchSizes: seq<int>, default: int, prior: Posterior.Prior, window: int)

  /** The local variables of the simulation; `observed` lists the jobs reaped so far and `log` what the optimizer
      passed on to its coroutine. */
  datatype World = World(running: seq<RunningJob>, bso: Bso, limits: map<int, int>, history: seq<HistoryEntry>,
                         minCost: Option<real>, bestBs: int, launched: nat, observed: seq<RunningJob>, log: seq<Report>)

  ghost predicate GoodConfig(c: Config) {
    && Distinct(c.batchSizes) && c.default in c.batchSizes && (forall b :: b in c.batchSizes ==> b > 0)
    && c.prior.prec >= 0.0
  }

  ghost predicate GoodEnv(env: Env) {
    forall bs :: env.profile(bs) != []
  }

  function Begin(c: Config): World
    requires c.default in c.batchSizes
  {
    World([], Register(c.batchSizes, c.default, c.prior, c.window, true).value, map[], [], None, c.default, 0, [], [])
  }

  // ---- Transitions ----

  function Enqueue(env: Env, w: World, slot: Slot, bs: int, pl: int): World {
    var o := env.run(w.launched);
    w.(running := w.running + [RunningJob(slot, bs, pl, o, ZeusCost(o.energy, o.time, env.eta, env.maxPower))],
       launched := w.launched + 1)
  }

  function Profiled(env: Env, limits: map<int, int>, bs: int): map<int, int> {
    if bs in limits || env.profile(bs) == [] then limits else limits[bs := JitPowerLimit.Cheapest(env.profile(bs)).0]
  }

  /** Submits a job: with the best known knobs while others are in flight, otherwise with predicted ones. */
  function Launch(env: Env, w: World, slot: Slot): Result<World, Fault> {
    if w.running != [] then
      if w.bestBs in w.limits then Ok(Enqueue(env, w, slot, w.bestBs, w.limits[w.bestBs])) else Err(PowerNotProfiled)
    else
      match Predicted(w.bso, env.draw(w.launched))
      case Err(fault) => Err(fault)
      case Ok((bso, bs)) =>
        var limits := Profiled(env, w.limits, bs);
        if bs in limits then Ok(Enqueue(env, w.(bso := bso, limits := limits), slot, bs, limits[bs]))
        else Err(PowerNotProfiled)
  }

  /** A job that could not run even one epoch leaves no history entry. */
  function Entries(j: RunningJob): seq<HistoryEntry> {
    var o := j.outcome;
    if o.energy != 0.0 || o.time != 0.0 || o.reached then
      [HistoryEntry(j.bs, j.pl, o.energy * j.slot.ratio, o.reached, o.time * j.slot.ratio)]
    else []
  }

  predicate Cheaper(minCost: Option<real>, j: RunningJob) {
    j.outcome.reached && (minCost.None? || minCost.value > j.cost)
  }

  /** A finished job leaves the list, is observed and recorded. */
  function Finish(w: World, k: nat): Result<World, Fault>
    requires k < |w.running|
  {
    var j := w.running[k];
    match Observed(w.bso, j.bs, j.cost, j.outcome.reached)
    case Err(fault) => Err(fault)
    case Ok(bso) => Ok(w.(running := Without(w.running, k), bso := bso, history := w.history + Entries(j),
      minCost := if Cheaper(w.minCost, j) then Some(j.cost) else w.minCost,
      bestBs := if Cheaper(w.minCost, j) then j.bs else w.bestBs,
      observed := w.observed + [j],
      log := NextLog(w.bso, w.log, j.bs, j.cost, j.outcome.reached)))
  }

  predicate EndsNoLater(x: RunningJob, y: RunningJob) { x.slot.end <= y.slot.end }

  /** A retry starts when its predecessor ends and takes as long. */
  function RetrySlot(s: Slot): Slot {
    Slot(s.end, s.end + (s.end - s.start), s.ratio)
  }

  /** The first job to end is reaped and, if it failed, retried. */
  function Reap(env: Env, w: World): Result<World, Fault>
    requires w.running != []
  {
    var k := FirstLeast(EndsNoLater, w.running);
    match Finish(w, k)
    case Err(fault) => Err(fault)
    case Ok(after) =>
      if w.running[k].outcome.reached then Ok(after) else Launch(env, after, RetrySlot(w.running[k].slot))
  }

  // ---- Protocol safety ----

  ghost predicate Carried(running: seq<RunningJob>, bs: int) {
    exists i :: 0 <= i < |running| && running[i].bs == bs
  }

  function Feasible(c: Config): set<int> {
    set b | b in c.batchSizes
  }

  /** Whenever the coroutine awaits a result, a job in flight carries the batch size it expects; and every batch size
      in use has been power-profiled. */
  ghost predicate Protocol(c: Config, w: World) {
    && c.default in c.batchSizes
    && BsoOk(w.bso, w.log, Feasible(c))
    && Traces(Begin(c).bso.explorer, w.bso, w.log)
    && w.bso.concurrency && w.bso.window == c.window
    && w.bestBs in Feasible(c)
    && (Awaits(w.bso) ==> Carried(w.running, w.bso.explorer.expecting))
    && (if w.launched == 0 then w == Begin(c) else !w.bso.explorer.control.NotStarted? && w.bestBs in w.limits)
    && (forall i :: 0 <= i < |w.running| ==> w.running[i].bs in Feasible(c) && w.running[i].bs in w.limits)
  }

  /** The only faults a simulation can end with: everything was pruned, or the window is too narrow. */
  predicate Expected(c: Config, fault: Fault) {
    || fault == Coroutine(DefaultPruned) || fault == AllPruned
    || (fault == TooFewObservations && c.window == 1)
  }

  lemma BeginsSafely(c: Config)
    requires GoodConfig(c)
    ensures Protocol(c, Begin(c))
  {
    hide BsoOk, Traces;
    RegisterOk(c.batchSizes, c.default, c.prior, c.window, true, Feasible(c));
    RegisterTraces(c.batchSizes, c.default, c.prior, c.window, true);
    NotAwaiting(c);
  }

  lemma NotAwaiting(c: Config)
    requires c.default in c.batchSizes
    ensures !Awaits(Begin(c).bso) && Begin(c).bso.explorer.control.NotStarted?
    ensures Begin(c).bso.window == c.window && Begin(c).bso.concurrency
  {
  }

  lemma EnqueueCarries(env: Env, w: World, slot: Slot, bs: int, pl: int)
    ensures Carried(Enqueue(env, w, slot, bs, pl).running, bs)
    ensures forall b :: Carried(w.running, b) ==> Carried(Enqueue(env, w, slot, bs, pl).running, b)
  {
    var after := Enqueue(env, w, slot, bs, pl);
    assert after.running[|w.running|].bs == bs;
    forall b | Carried(w.running, b)
      ensures Carried(after.running, b)
    {
      var i :| 0 <= i < |w.running| && w.running[i].bs == b;
      assert after.running[i].bs == b;
    }
  }

  /** Launching never meets an ordering error: a prediction is asked for only with nothing in flight, and then the
      coroutine awaits nothing. */
  lemma LaunchIsSafe(env: Env, c: Config, w: World, slot: Slot)
    requires GoodConfig(c) && GoodEnv(env) && Protocol(c, w)
    ensures match Launch(env, w, slot)
      case Ok(after) => Protocol(c, after) && after.launched == w.launched + 1
      case Err(fault) => w.running == [] && Expected(c, fault)
  {
    hide BsoOk, Traces, Predicted, Awaits, Carried, BestArm, ZeusCost, FirstLeast;
    if w.running != [] {
      assert w.launched > 0;
      EnqueueCarries(env, w, slot, w.bestBs, w.limits[w.bestBs]);
    } else {
      assert !Awaits(w.bso) by { NobodyAwaits(w); }
      PredictKeeps(w.bso, w.log, Feasible(c), env.draw(w.launched));
      PredictWindow(w.bso, env.draw(w.launched));
      if Predicted(w.bso, env.draw(w.launched)).Ok? {
        PredictTraces(Begin(c).bso.explorer, w.bso, w.log, Feasible(c), env.draw(w.launched));
      }
      var r := Predicted(w.bso, env.draw(w.launched));
      if r.Ok? {
        var (bso, bs) := r.value;
        if w.launched == 0 {
          FirstIsDefault(c.batchSizes, c.default, c.prior, c.window, env.draw(0));
        }
        var limits := Profiled(env, w.limits, bs);
        EnqueueCarries(env, w.(bso := bso, limits := limits), slot, bs, limits[bs]);
      }
    }
  }

  lemma NobodyAwaits(w: World)
    requires w.running == [] && (Awaits(w.bso) ==> Carried(w.running, w.bso.explorer.expecting))
    ensures !Awaits(w.bso)
  {
  }

  lemma PredictWindow(b: Bso, draw: Draw)
    ensures Predicted(b, draw).Ok? ==>
      Predicted(b, draw).value.0.window == b.window && Predicted(b, draw).value.0.concurrency == b.concurrency
  {
    hide Next;
  }

  lemma OthersStillCarry(running: seq<RunningJob>, k: nat, bs: int)
    requires k < |running| && Carried(running, bs) && running[k].bs != bs
    ensures Carried(Without(running, k), bs)
  {
    var i :| 0 <= i < |running| && running[i].bs == bs;
    var rest := Without(running, k);
    assert rest[if i < k then i else i - 1].bs == bs;
  }

  /** Jobs may finish in any order: the result the coroutine awaits reaches it, and no other does. */
  lemma FinishIsSafe(c: Config, w: World, k: nat)
    requires Protocol(c, w) && k < |w.running| && w.launched > 0
    ensures var r := Finish(w, k);
      && r.Ok?
      && Protocol(c, r.value) && r.value.launched == w.launched
  {
    hide BsoOk, Traces, Observed, Awaits, Carried, NextLog;
    var j := w.running[k];
    ObserveTraces(Begin(c).bso.explorer, w.bso, w.log, Feasible(c), j.bs, j.cost, j.outcome.reached);
    ObserveKeeps(w.bso, w.log, Feasible(c), j.bs, j.cost, j.outcome.reached);
    ObserveWindow(w.bso, j.bs, j.cost, j.outcome.reached);
    var after := Finish(w, k).value;
    if Awaits(after.bso) {
      OthersStillCarry(w.running, k, w.bso.explorer.expecting);
    }
    OthersAreThere(w.running, k);
    hide Without;
  }

  lemma OthersAreThere(running: seq<RunningJob>, k: nat)
    requires k < |running|
    ensures |Without(running, k)| == |running| - 1
    ensures forall i :: 0 <= i < |running| - 1 ==> Without(running, k)[i] == running[if i < k then i else i + 1]
  {
  }

  lemma ObserveWindow(b: Bso, bs: int, cost: real, converged: bool)
    ensures var r := Observed(b, bs, cost, converged);
      r.Ok? ==> r.value.window == b.window && r.value.concurrency == b.concurrency
  {
    hide Send;
  }

  /** Reaping the next job, its retry included, keeps the protocol. */
  lemma ReapIsSafe(env: Env, c: Config, w: World)
    requires GoodConfig(c) && GoodEnv(env) && Protocol(c, w) && w.running != [] && w.launched > 0
    ensures match Reap(env, w)
      case Ok(after) => Protocol(c, after) && after.launched >= w.launched
      case Err(fault) => Expected(c, fault)
  {
    hide Protocol, Finish, Launch;
    var k := FirstLeast(EndsNoLater, w.running);
    FinishIsSafe(c, w, k);
    if !w.running[k].outcome.reached {
      LaunchIsSafe(env, c, Finish(w, k).value, RetrySlot(w.running[k].slot));
    }
  }

  // ---- Conservation of jobs ----

  function ReachedIn(jobs: seq<RunningJob>): (n: nat)
    ensures n <= |jobs|
  {
    if jobs == [] then 0 else ReachedIn(jobs[..|jobs| - 1]) + if jobs[|jobs| - 1].outcome.reached then 1 else 0
  }

  /** How many of the first n launches reach their target. */
  function Successes(run: nat -> Outcome, n: nat): (k: nat)
    ensures k <= n
  {
    if n == 0 then 0 else Successes(run, n - 1) + if run(n - 1).reached then 1 else 0
  }

  function HistoryOf(observed: seq<RunningJob>): seq<HistoryEntry> {
    if observed == [] then [] else HistoryOf(observed[..|observed| - 1]) + Entries(observed[|observed| - 1])
  }

  function ReachedEntries(history: seq<HistoryEntry>): nat {
    if history == [] then 0
    else ReachedEntries(history[..|history| - 1]) + if history[|history| - 1].reached then 1 else 0
  }

  /** The jobs that reached their target, in the order they were observed. */
  function Successful(jobs: seq<RunningJob>): seq<RunningJob> {
    if jobs == [] then []
    else Successful(jobs[..|jobs| - 1]) + if jobs[|jobs| - 1].outcome.reached then [jobs[|jobs| - 1]] else []
  }

  predicate CostsNoMore(x: RunningJob, y: RunningJob) { x.cost <= y.cost }

  /** The first cheapest successful job. */
  function BestJob(observed: seq<RunningJob>): Option<RunningJob> {
    var s := Successful(observed);
    if s == [] then None else Some(s[FirstLeast(CostsNoMore, s)])
  }

  ghost predicate BestKnown(w: World, default: int) {
    match BestJob(w.observed)
    case None => w.minCost == None && w.bestBs == default
    case Some(j) => w.minCost == Some(j.cost) && w.bestBs == j.bs
  }

  /** `submitted` rows are either in flight or done; every launch is either in flight or observed; and the oracle's
      successes are found among those jobs. `owed` is one between observing a failed job and launching its retry. */
  ghost predicate Balanced(env: Env, w: World, submitted: nat, owed: nat) {
    && submitted == |w.running| + ReachedIn(w.observed) + owed
    && w.launched == |w.running| + |w.observed|
    && Successes(env.run, w.launched) == ReachedIn(w.running) + ReachedIn(w.observed)
    && (w.launched > 0 ==> Successes(env.run, w.launched - 1) < submitted)
  }

  ghost predicate Recorded(w: World, default: int) {
    w.history == HistoryOf(w.observed) && BestKnown(w, default)
  }

  lemma {:induction false} ReachedInWithout(jobs: seq<RunningJob>, k: nat)
    requires k < |jobs|
    ensures ReachedIn(jobs) == ReachedIn(Without(jobs, k)) + if jobs[k].outcome.reached then 1 else 0
    decreases |jobs|
  {
    var n := |jobs| - 1;
    if k == n {
      assert Without(jobs, k) == jobs[..n];
    } else {
      ReachedInWithout(jobs[..n], k);
      assert Without(jobs, k)[..n - 1] == Without(jobs[..n], k);
      assert Without(jobs, k)[n - 1] == jobs[n];
    }
  }

  lemma ReachedInAppend(jobs: seq<RunningJob>, j: RunningJob)
    ensures ReachedIn(jobs + [j]) == ReachedIn(jobs) + if j.outcome.reached then 1 else 0
    ensures Successful(jobs + [j]) == Successful(jobs) + if j.outcome.reached then [j] else []
    ensures HistoryOf(jobs + [j]) == HistoryOf(jobs) + Entries(j)
  {
    assert (jobs + [j])[..|jobs|] == jobs;
  }

  lemma LaunchAdds(env: Env, w: World, slot: Slot)
    requires Launch(env, w, slot).Ok?
    ensures var after := Launch(env, w, slot).value;
      && |after.running| == |w.running| + 1
      && after.running == w.running + [after.running[|w.running|]]
      && after.running[..|w.running|] == w.running
      && after.running[|w.running|].slot == slot
      && after == w.(running := after.running, launched := w.launched + 1, bso := after.bso, limits := after.limits)
      && after.running[|w.running|].outcome == env.run(w.launched)
  {
    hide Predicted, Profiled, ZeusCost;
  }

  /** A launch adds one job in flight and one launch, and settles what is owed; nothing else changes. */
  lemma LaunchBalances(env: Env, w: World, slot: Slot, submitted: nat, owed: nat)
    requires Balanced(env, w, submitted, owed) && Launch(env, w, slot).Ok?
    requires owed == 1 || owed == 0
    ensures var after := Launch(env, w, slot).value;
      && Balanced(env, after, if owed == 1 then submitted else submitted + 1, 0)
      && after.observed == w.observed && after.history == w.history
      && after.minCost == w.minCost && after.bestBs == w.bestBs
      && |after.running| == |w.running| + 1 && after.running[..|w.running|] == w.running
      && after.running[|w.running|].slot == slot
  {
    LaunchAdds(env, w, slot);
    hide Launch, ReachedIn, Successes;
    var after := Launch(env, w, slot).value;
    ReachedInAppend(w.running, after.running[|w.running|]);
  }

  lemma FinishBalances(env: Env, w: World, k: nat, submitted: nat)
    requires Balanced(env, w, submitted, 0) && k < |w.running| && Finish(w, k).Ok?
    ensures Balanced(env, Finish(w, k).value, submitted, if w.running[k].outcome.reached then 0 else 1)
  {
    hide Observed, ReachedIn, Successful, HistoryOf;
    ReachedInWithout(w.running, k);
    ReachedInAppend(w.observed, w.running[k]);
  }

  lemma FinishRecords(w: World, k: nat, default: int)
    requires Recorded(w, default) && k < |w.running| && Finish(w, k).Ok?
    ensures Recorded(Finish(w, k).value, default)
  {
    hide Observed, ReachedIn, Successful, HistoryOf;
    var j := w.running[k];
    ReachedInAppend(w.observed, j);
    var s := Successful(w.observed);
    if j.outcome.reached {
      if s == [] {
        assert s + [j] == [j];
      } else {
        FirstLeastOfLonger(CostsNoMore, s, j);
      }
    } else {
      assert s + [] == s;
    }
  }

  /** Every observed job that reached its target left exactly one such history entry. */
  lemma {:induction false} HistoryCounts(observed: seq<RunningJob>)
    ensures ReachedEntries(HistoryOf(observed)) == ReachedIn(observed)
    decreases |observed|
  {
    if observed != [] {
      var before := observed[..|observed| - 1];
      HistoryCounts(before);
      var h, more := HistoryOf(before), Entries(observed[|observed| - 1]);
      if more != [] {
        assert (h + more)[..|h|] == h;
      } else {
        assert h + more == h;
      }
    }
  }

  // ---- Causality ----

  /** Jobs have been observed in the order of their end times, and none in flight ends before them. */
  ghost predicate Causal(w: World) {
    && (forall i, j :: 0 <= i < j < |w.observed| ==> w.observed[i].slot.end <= w.observed[j].slot.end)
    && (forall i, r :: 0 <= i < |w.observed| && 0 <= r < |w.running| ==>
        w.observed[i].slot.end <= w.running[r].slot.end)
    && (forall r :: 0 <= r < |w.running| ==> w.running[r].slot.start <= w.running[r].slot.end)
  }

  lemma FinishIsCausal(w: World, k: nat)
    requires Causal(w) && k < |w.running| && Finish(w, k).Ok?
    requires forall r :: 0 <= r < |w.running| ==> w.running[k].slot.end <= w.running[r].slot.end
    ensures Causal(Finish(w, k).value)
  {
    hide Observed;
    var after := Finish(w, k).value;
    assert forall r :: 0 <= r < |after.running| ==> after.running[r] == w.running[if r < k then r else r + 1];
  }

  lemma LaunchIsCausal(env: Env, w: World, slot: Slot)
    requires Causal(w) && Launch(env, w, slot).Ok? && slot.start <= slot.end
    requires forall i :: 0 <= i < |w.observed| ==> w.observed[i].slot.end <= slot.end
    ensures Causal(Launch(env, w, slot).value)
  {
    hide Predicted;
  }

  /** Reaping always takes a job that ends first, so effects are observed in the order of time, retries included. */
  lemma ReapIsCausal(env: Env, w: World)
    requires Causal(w) && w.running != [] && Reap(env, w).Ok?
    ensures Causal(Reap(env, w).value)
  {
    hide Launch, Causal;
    var k := FirstLeast(EndsNoLater, w.running);
    var j := w.running[k];
    FirstToEnd(w.running);
    FinishIsCausal(w, k);
    if !j.outcome.reached {
      var after := Finish(w, k).value;
      RetryEndsLater(w, k);
      LaunchIsCausal(env, after, RetrySlot(j.slot));
    }
  }

  lemma FirstToEnd(running: seq<RunningJob>)
    requires running != []
    ensures forall r :: 0 <= r < |running| ==> running[FirstLeast(EndsNoLater, running)].slot.end <= running[r].slot.end
  {
    FirstLeastIsLeast(EndsNoLater, running);
    assert forall r :: 0 <= r < |running| ==> EndsNoLater(running[FirstLeast(EndsNoLater, running)], running[r]);
  }

  lemma RetryEndsLater(w: World, k: nat)
    requires Causal(w) && k < |w.running| && Finish(w, k).Ok?
    ensures var after := Finish(w, k).value; var retry := RetrySlot(w.running[k].slot);
      && retry.start <= retry.end
      && forall i :: 0 <= i < |after.observed| ==> after.observed[i].slot.end <= retry.end
  {
    hide Observed;
  }

  // ---- Termination ----

  predicate Due(now: Option<real>, j: RunningJob) {
    now.None? || j.slot.end <= now.value
  }

  predicate HasDue(now: Option<real>, running: seq<RunningJob>) {
    exists i :: 0 <= i < |running| && Due(now, running[i])
  }

  /** How often a job and its retries can end by the given time. */
  function RetriesLeft(now: real, s: Slot): nat {
    if s.end > now || s.end <= s.start then 0
    else
      QuotientOrder(now - s.end, s.end - s.start);
      ((now - s.end) / (s.end - s.start)).Floor + 1
  }

  lemma Quotient(a: real, d: real, q: real)
    requires d > 0.0 && q * d == a
    ensures a / d == q
  {
    var p := a / d;
    assert p * d == a;
    assert (p - q) * d == 0.0;
  }

  lemma QuotientOrder(a: real, d: real)
    requires d > 0.0
    ensures a >= 0.0 ==> a / d >= 0.0
    ensures a < d ==> a / d < 1.0
  {
    var p := a / d;
    assert p * d == a;
    assert p >= 1.0 ==> p * d >= d;
  }

  lemma RetryHasOneLess(now: real, s: Slot)
    requires s.start < s.end <= now
    ensures RetriesLeft(now, RetrySlot(s)) == RetriesLeft(now, s) - 1
    ensures RetriesLeft(now, s) > 0
  {
    var d := s.end - s.start;
    var x := (now - s.end) / d;
    QuotientOrder(now - s.end, d);
    assert x * d == now - s.end;
    if s.end + d <= now {
      Quotient(now - (s.end + d), d, x - 1.0);
    }
  }

  function DueWork(now: real, running: seq<RunningJob>): nat {
    if running == [] then 0 else DueWork(now, running[..|running| - 1]) + RetriesLeft(now, running[|running| - 1].slot)
  }

  lemma {:induction false} DueWorkWithout(now: real, jobs: seq<RunningJob>, k: nat)
    requires k < |jobs|
    ensures DueWork(now, jobs) == DueWork(now, Without(jobs, k)) + RetriesLeft(now, jobs[k].slot)
    decreases |jobs|
  {
    hide RetriesLeft;
    var n := |jobs| - 1;
    if k == n {
      assert Without(jobs, k) == jobs[..n];
    } else {
      DueWorkWithout(now, jobs[..n], k);
      assert Without(jobs, k)[..n - 1] == Without(jobs[..n], k);
      assert Without(jobs, k)[n - 1] == jobs[n];
    }
  }

  ghost predicate LastPositive(running: seq<RunningJob>) {
    forall r :: 0 <= r < |running| ==> running[r].slot.start < running[r].slot.end
  }

  ghost predicate LastForward(running: seq<RunningJob>) {
    forall r :: 0 <= r < |running| ==> running[r].slot.start <= running[r].slot.end
  }

  /** A failed job of no duration is due: so are its retries, for ever. */
  ghost predicate Stuck(now: real, running: seq<RunningJob>) {
    exists i :: 0 <= i < |running| && running[i].slot.start == running[i].slot.end <= now && !running[i].outcome.reached
  }

  /** Why reaping ends: by `horizon` the oracle has enough successes; or, without such a horizon, reaping up to a finite
      time is not stuck. */
  ghost predicate WillEnd(env: Env, w: World, submitted: nat, now: Option<real>, horizon: Option<nat>) {
    match horizon
    case Some(h) => Successes(env.run, h) >= submitted
    case None => now.Some? && !Stuck(now.value, w.running)
  }

  /** What is left to reap: the launches up to the horizon, or the retries due by the given time. */
  ghost function Work(now: Option<real>, w: World, horizon: Option<nat>): nat {
    match horizon
    case Some(h) => if w.launched < h then h - w.launched else 0
    case None => if now.Some? then DueWork(now.value, w.running) else 0
  }

  /** Reaping takes out the first job to end and, if it failed, appends its retry. */
  lemma ReapShape(env: Env, w: World)
    requires w.running != [] && Reap(env, w).Ok?
    ensures var k := FirstLeast(EndsNoLater, w.running);
      var rest := Without(w.running, k); var after := Reap(env, w).value;
      && rest <= after.running
      && (if w.running[k].outcome.reached then after.running == rest && after.launched == w.launched
          else |after.running| == |rest| + 1 && after.running[|rest|].slot == RetrySlot(w.running[k].slot)
               && after.running[|rest|].outcome == env.run(w.launched) && after.launched == w.launched + 1)
  {
    hide Observed, Predicted, FirstLeast, Without;
    var k := FirstLeast(EndsNoLater, w.running);
    var after := Finish(w, k).value;
    if !w.running[k].outcome.reached {
      LaunchAdds(env, after, RetrySlot(w.running[k].slot));
    }
  }

  /** With positive durations every reaped job strictly lowers the work due by a given time, whatever fails. */
  lemma ReapLowersDueWork(env: Env, w: World, now: real)
    requires w.running != [] && LastPositive(w.running) && Reap(env, w).Ok?
    requires HasDue(Some(now), w.running)
    ensures DueWork(now, Reap(env, w).value.running) < DueWork(now, w.running)
  {
    hide Reap, RetriesLeft, DueWork, FirstLeast, Without;
    ReapShape(env, w);
    var k := FirstLeast(EndsNoLater, w.running);
    var rest, after := Without(w.running, k), Reap(env, w).value.running;
    FirstToEnd(w.running);
    DueWorkWithout(now, w.running, k);
    RetryHasOneLess(now, w.running[k].slot);
    if !w.running[k].outcome.reached {
      assert after == rest + [after[|rest|]];
      DueWorkAppend(now, rest, after[|rest|]);
    }
  }

  /** Unless reaping is stuck, every reaped job lowers the work due or, keeping it, the number of jobs in flight; and it
      does not get stuck by that. */
  lemma ReapLowersMeasure(env: Env, w: World, now: real)
    requires w.running != [] && LastForward(w.running) && !Stuck(now, w.running) && Reap(env, w).Ok?
    requires HasDue(Some(now), w.running)
    ensures var after := Reap(env, w).value.running;
      && LastForward(after) && !Stuck(now, after)
      && DueWork(now, after) <= DueWork(now, w.running)
      && (DueWork(now, after) < DueWork(now, w.running) || |after| < |w.running|)
  {
    hide Reap, RetriesLeft, DueWork, FirstLeast, Without;
    ReapShape(env, w);
    var k := FirstLeast(EndsNoLater, w.running);
    var rest, after := Without(w.running, k), Reap(env, w).value.running;
    FirstToEnd(w.running);
    DueWorkWithout(now, w.running, k);
    RestIsAlike(w.running, k, now);
    if !w.running[k].outcome.reached {
      assert w.running[k].slot.start < w.running[k].slot.end;
      RetryHasOneLess(now, w.running[k].slot);
      assert after == rest + [after[|rest|]];
      DueWorkAppend(now, rest, after[|rest|]);
    }
  }

  lemma RestIsAlike(running: seq<RunningJob>, k: nat, now: real)
    requires k < |running| && LastForward(running) && !Stuck(now, running)
    ensures LastForward(Without(running, k)) && !Stuck(now, Without(running, k))
  {
    var rest := Without(running, k);
    assert forall r :: 0 <= r < |rest| ==> rest[r] == running[if r < k then r else r + 1];
  }

  lemma DueWorkAppend(now: real, jobs: seq<RunningJob>, j: RunningJob)
    ensures DueWork(now, jobs + [j]) == DueWork(now, jobs) + RetriesLeft(now, j.slot)
  {
    assert (jobs + [j])[..|jobs|] == jobs;
  }

  lemma {:induction false} SuccessesGrow(run: nat -> Outcome, n: nat, m: nat)
    requires n <= m
    ensures Successes(run, n) <= Successes(run, m)
  {
    if n < m { SuccessesGrow(run, n, m - 1); }
  }

  /** A failed job in flight means a success is still to come: the next launch is within the horizon. */
  lemma FailureWithinHorizon(env: Env, w: World, submitted: nat, horizon: nat, k: nat)
    requires Balanced(env, w, submitted, 0) && Successes(env.run, horizon) >= submitted
    requires k < |w.running| && !w.running[k].outcome.reached
    ensures w.launched < horizon
  {
    hide Successes;
    ReachedInWithout(w.running, k);
    if w.launched >= horizon {
      SuccessesGrow(env.run, horizon, w.launched);
    }
  }

  // ---- Whole runs ----

  ghost predicate Sound(env: Env, c: Config, w: World, submitted: nat) {
    && GoodConfig(c) && GoodEnv(env)
    && Protocol(c, w) && Balanced(env, w, submitted, 0) && Recorded(w, c.default) && Causal(w)
  }

  /** Reaping one job keeps everything and makes progress, or ends with one of the expected faults. */
  lemma ReapKeeps(env: Env, c: Config, w: World, submitted: nat)
    requires Sound(env, c, w, submitted) && w.running != []
    ensures match Reap(env, w)
      case Ok(after) => Sound(env, c, after, submitted)
      case Err(fault) => Expected(c, fault)
  {
    hide Protocol, Balanced, Recorded, Causal, Finish, Launch;
    assert w.launched > 0 by { RunningIsLaunched(env, w, submitted); }
    ReapIsSafe(env, c, w);
    if Reap(env, w).Ok? {
      ReapIsCausal(env, w);
      var k := FirstLeast(EndsNoLater, w.running);
      FinishBalances(env, w, k, submitted);
      FinishRecords(w, k, c.default);
      if !w.running[k].outcome.reached {
        var after := Finish(w, k).value;
        LaunchBalances(env, after, RetrySlot(w.running[k].slot), submitted, 1);
        RecordedStays(after, Reap(env, w).value, c.default);
      }
    }
  }

  lemma RunningIsLaunched(env: Env, w: World, submitted: nat)
    requires Balanced(env, w, submitted, 0) && w.running != []
    ensures w.launched > 0
  {
  }

  lemma RecordedStays(w: World, after: World, default: int)
    requires Recorded(w, default)
    requires after.observed == w.observed && after.history == w.history
    requires after.minCost == w.minCost && after.bestBs == w.bestBs
    ensures Recorded(after, default)
  {
  }

  lemma ReapProgress(env: Env, c: Config, w: World, submitted: nat, now: Option<real>, horizon: Option<nat>)
    requires Sound(env, c, w, submitted) && w.running != [] && Reap(env, w).Ok?
    requires WillEnd(env, w, submitted, now, horizon) && HasDue(now, w.running)
    ensures var after := Reap(env, w).value;
      && WillEnd(env, after, submitted, now, horizon)
      && Work(now, after, horizon) <= Work(now, w, horizon)
      && (Work(now, after, horizon) < Work(now, w, horizon) || |after.running| < |w.running|)
  {
    hide Protocol, Balanced, Recorded, Reap, FirstLeast, Successes, DueWork, Stuck;
    match horizon
    case None =>
      ReapLowersMeasure(env, w, now.value);
    case Some(h) =>
      hide Causal;
      var k := FirstLeast(EndsNoLater, w.running);
      ReapShape(env, w);
      if !w.running[k].outcome.reached {
        FailureWithinHorizon(env, w, submitted, h, k);
      }
  }

  /** Submitting the next row keeps everything as well. */
  lemma SubmitKeeps(env: Env, c: Config, w: World, submitted: nat, slot: Slot)
    requires Sound(env, c, w, submitted) && slot.start <= slot.end
    requires forall i :: 0 <= i < |w.observed| ==> w.observed[i].slot.end <= slot.start
    ensures match Launch(env, w, slot)
      case Ok(after) => Sound(env, c, after, submitted + 1) && after.observed == w.observed
      case Err(fault) => Expected(c, fault)
  {
    hide Protocol, Balanced, Recorded, Causal, Launch;
    LaunchIsSafe(env, c, w, slot);
    if Launch(env, w, slot).Ok? {
      LaunchBalances(env, w, slot, submitted, 0);
      LaunchIsCausal(env, w, slot);
      RecordedStays(w, Launch(env, w, slot).value, c.default);
    }
  }

  lemma BeginsSound(env: Env, c: Config)
    requires GoodConfig(c) && GoodEnv(env)
    ensures Sound(env, c, Begin(c), 0)
  {
    BeginsSafely(c);
    EmptyIsSound(env, Begin(c), c.default);
    hide Protocol, Begin, Balanced, Recorded, Causal;
  }

  lemma EmptyIsSound(env: Env, w: World, default: int)
    requires w.running == w.observed == [] && w.history == [] && w.launched == 0
    requires w.minCost == None && w.bestBs == default
    ensures Balanced(env, w, 0, 0) && Recorded(w, default) && Causal(w)
  {
  }

  /** The effect of reaping n jobs, fewer when none is left. */
  function ReapMany(env: Env, w: World, n: nat): Result<World, Fault>
    decreases n
  {
    hide Reap;
    if n == 0 || w.running == [] then Ok(w)
    else match Reap(env, w) case Ok(after) => ReapMany(env, after, n - 1) case Err(fault) => Err(fault)
  }

  /** A simulation that drains has launched exactly as many jobs as it takes to see one success per submitted row. */
  lemma {:induction false} DrainedExactly(env: Env, c: Config, w: World, submitted: nat, n: nat)
    requires Sound(env, c, w, submitted)
    requires ReapMany(env, w, n).Ok? && ReapMany(env, w, n).value.running == []
    ensures var launched := ReapMany(env, w, n).value.launched;
      && Successes(env.run, launched) == submitted
      && (launched > 0 ==> Successes(env.run, launched - 1) < submitted)
    decreases n
  {
    hide Protocol, Recorded, Causal, Reap;
    if n > 0 && w.running != [] {
      ReapKeeps(env, c, w, submitted);
      DrainedExactly(env, c, Reap(env, w).value, submitted, n - 1);
    }
  }

  /** Draining succeeds, or ends with an expected fault, as soon as the oracle holds a success for every row. */
  lemma {:induction false} DrainsIfEnough(env: Env, c: Config, w: World, submitted: nat, horizon: nat) returns (n: nat)
    requires Sound(env, c, w, submitted) && Successes(env.run, horizon) >= submitted
    ensures match ReapMany(env, w, n)
      case Ok(after) => after.running == []
      case Err(fault) => Expected(c, fault)
    decreases Work(None, w, Some(horizon)), |w.running|
  {
    hide Protocol, Balanced, Recorded, Causal, Reap, Successes;
    n := 0;
    if w.running != [] {
      ReapKeeps(env, c, w, submitted);
      if Reap(env, w).Ok? {
        assert Due(None, w.running[0]);
        ReapProgress(env, c, w, submitted, None, Some(horizon));
        var rest := DrainsIfEnough(env, c, Reap(env, w).value, submitted, horizon);
        n := rest + 1;
      } else {
        n := 1;
      }
    }
  }

  /** Draining ends without a fault exactly when the oracle holds a success for every row, unless a fault ends it. */
  lemma DrainsExactlyWhen(env: Env, c: Config, w: World, submitted: nat)
    requires Sound(env, c, w, submitted)
    requires forall n :: ReapMany(env, w, n).Ok?
    ensures (exists n :: ReapMany(env, w, n).value.running == []) <==> exists h :: Successes(env.run, h) >= submitted
  {
    hide Sound, ReapMany, Successes;
    if n :| ReapMany(env, w, n).value.running == [] {
      DrainedExactly(env, c, w, submitted, n);
      assert Successes(env.run, ReapMany(env, w, n).value.launched) >= submitted;
    }
    if h :| Successes(env.run, h) >= submitted {
      var n := DrainsIfEnough(env, c, w, submitted, h);
      assert ReapMany(env, w, n).value.running == [];
    }
  }

  /** A due job of no duration that failed, and keeps failing, is due for ever. */
  lemma {:induction false} NoDurationNeverEnds(env: Env, w: World, now: real, n: nat)
    requires Stuck(now, w.running) && forall i :: !env.run(i).reached
    ensures ReapMany(env, w, n).Ok? ==> HasDue(Some(now), ReapMany(env, w, n).value.running)
    decreases n
  {
    hide Reap, FirstLeast;
    var i :| 0 <= i < |w.running| && w.running[i].slot.start == w.running[i].slot.end <= now &&
      !w.running[i].outcome.reached;
    if n == 0 {
      assert Due(Some(now), w.running[i]);
    } else if Reap(env, w).Ok? {
      ReapShape(env, w);
      var k := FirstLeast(EndsNoLater, w.running);
      var rest, after := Without(w.running, k), Reap(env, w).value.running;
      var stuck := if i == k then |rest| else if i < k then i else i - 1;
      assert stuck < |rest| ==> after[stuck] == rest[stuck] == w.running[i];
      assert after[stuck].slot.start == after[stuck].slot.end <= now && !after[stuck].outcome.reached;
      NoDurationNeverEnds(env, Reap(env, w).value, now, n - 1);
    }
  }

  /** Reaping all that is due by `now` comes to an end, if only by a fault. */
  ghost predicate ReapingEnds(env: Env, w: World, now: real) {
    exists n: nat :: ReapMany(env, w, n).Err? || !HasDue(Some(now), ReapMany(env, w, n).value.running)
  }

  lemma {:induction false} EndsUnlessStuck(env: Env, w: World, now: real)
    requires LastForward(w.running) && !Stuck(now, w.running)
    ensures ReapingEnds(env, w, now)
    decreases DueWork(now, w.running), |w.running|
  {
    hide Reap, DueWork, Stuck, LastForward, HasDue;
    if !HasDue(Some(now), w.running) {
      assert ReapMany(env, w, 0) == Ok(w);
    } else {
      SomethingRuns(now, w.running);
      if Reap(env, w).Err? {
        assert ReapMany(env, w, 1).Err?;
      } else {
        ReapLowersMeasure(env, w, now);
        var after := Reap(env, w).value;
        EndsUnlessStuck(env, after, now);
        var n: nat :| ReapMany(env, after, n).Err? || !HasDue(Some(now), ReapMany(env, after, n).value.running);
        assert ReapMany(env, w, n + 1) == ReapMany(env, after, n);
      }
    }
  }

  lemma SomethingRuns(now: real, running: seq<RunningJob>)
    requires HasDue(Some(now), running)
    ensures running != []
  {
  }

  /** The same environment in which no launch reaches its target. */
  function AllFail(env: Env): Env {
    env.(run := _ => Outcome(1.0, 1.0, false))
  }

  /** Jobs that end no earlier than they start: reaping what is due ends whatever the jobs launched meanwhile yield if
      and only if no failed job of no duration is due; provided that no fault cuts it short when all of them fail. */
  lemma ReapingEndsExactlyWhen(env: Env, w: World, now: real)
    requires LastForward(w.running) && forall n: nat :: ReapMany(AllFail(env), w, n).Ok?
    ensures (forall run: nat -> Outcome :: ReapingEnds(env.(run := run), w, now)) <==> !Stuck(now, w.running)
  {
    hide ReapMany, Stuck, LastForward, HasDue;
    if Stuck(now, w.running) {
      var bad := AllFail(env);
      forall n: nat
        ensures HasDue(Some(now), ReapMany(bad, w, n).value.running)
      {
        NoDurationNeverEnds(bad, w, now, n);
      }
      assert !ReapingEnds(env.(run := bad.run), w, now);
    } else {
      forall run: nat -> Outcome
        ensures ReapingEnds(env.(run := run), w, now)
      {
        EndsUnlessStuck(env.(run := run), w, now);
      }
    }
  }

  /** No fault can come once there is a bandit, which always has an arm to name, or with two failing jobs in flight,
      when the optimizer is never asked: then the equivalence needs no proviso. */
  lemma FaultlessEndsExactlyWhen(env: Env, c: Config, w: World, now: real)
    requires GoodConfig(c) && GoodEnv(env) && Protocol(c, w) && w.launched > 0 && LastForward(w.running)
    requires w.bso.arms.Some? || |w.running| >= ReachedIn(w.running) + 2
    ensures (forall run: nat -> Outcome :: ReapingEnds(env.(run := run), w, now)) <==> !Stuck(now, w.running)
  {
    hide Protocol, Stuck, ReapMany, LastForward, ReachedIn;
    forall n: nat
      ensures ReapMany(AllFail(env), w, n).Ok?
    {
      if w.bso.arms.Some? {
        BanditReapsOn(AllFail(env), c, w, n);
      } else {
        CompanySpins(AllFail(env), c, w, now, n);
      }
    }
    ReapingEndsExactlyWhen(env, w, now);
  }

  /** Once there is a bandit reaping never fails, whatever the jobs yield. */
  lemma {:induction false} BanditReapsOn(env: Env, c: Config, w: World, n: nat)
    requires GoodConfig(c) && GoodEnv(env) && Protocol(c, w) && w.launched > 0 && w.bso.arms.Some?
    ensures ReapMany(env, w, n).Ok?
    decreases n
  {
    hide Reap, Protocol;
    if n > 0 && w.running != [] {
      BanditReaps(env, c, w);
      BanditReapsOn(env, c, Reap(env, w).value, n - 1);
    }
  }

  lemma BanditReaps(env: Env, c: Config, w: World)
    requires GoodConfig(c) && GoodEnv(env) && Protocol(c, w) && w.launched > 0 && w.bso.arms.Some? && w.running != []
    ensures Reap(env, w).Ok?
    ensures var after := Reap(env, w).value;
      Protocol(c, after) && after.launched > 0 && after.bso.arms.Some?
  {
    hide Protocol, Launch, Finish, FirstLeast;
    var k := FirstLeast(EndsNoLater, w.running);
    FinishIsSafe(c, w, k);
    FinishKeepsArms(w, k);
    if !w.running[k].outcome.reached {
      var after := Finish(w, k).value;
      LaunchIsSafe(env, c, after, RetrySlot(w.running[k].slot));
      BanditLaunches(env, c, after, RetrySlot(w.running[k].slot));
    }
  }

  lemma FinishKeepsArms(w: World, k: nat)
    requires k < |w.running| && Finish(w, k).Ok?
    ensures Finish(w, k).value.bso.arms == w.bso.arms
  {
    hide Send, BeliefFrom, Windowed;
  }

  lemma BanditLaunches(env: Env, c: Config, w: World, slot: Slot)
    requires GoodEnv(env) && Protocol(c, w) && w.launched > 0 && w.bso.arms.Some?
    ensures Launch(env, w, slot).Ok? && Launch(env, w, slot).value.bso.arms.Some?
  {
    hide BsoOk, Predicted, Awaits, Carried, ZeusCost, FirstLeast;
    BanditPredicts(w.bso, w.log, Feasible(c), env.draw(w.launched));
  }

  lemma BanditPredicts(b: Bso, log: seq<Report>, s: set<int>, draw: Draw)
    requires BsoOk(b, log, s) && b.arms.Some?
    ensures Predicted(b, draw).Ok? && Predicted(b, draw).value.0.arms == b.arms
  {
    hide Within, Covers, BeliefsTrack, PullArm;
    FinishedStays(b.explorer);
  }

  /** With two failing jobs in flight the optimizer is never asked, so there is no fault: a stuck simulation then spins
      for ever. */
  lemma {:induction false} CompanySpins(env: Env, c: Config, w: World, now: real, n: nat)
    requires GoodConfig(c) && GoodEnv(env) && Protocol(c, w) && w.launched > 0
    requires |w.running| >= ReachedIn(w.running) + 2 && forall i :: !env.run(i).reached
    ensures ReapMany(env, w, n).Ok?
    ensures Stuck(now, w.running) ==> HasDue(Some(now), ReapMany(env, w, n).value.running)
    decreases n
  {
    hide Reap, Protocol, Stuck, HasDue, ReachedIn;
    if n > 0 {
      CompanyReaps(env, c, w);
      CompanySpins(env, c, Reap(env, w).value, now, n - 1);
    }
    if Stuck(now, w.running) {
      NoDurationNeverEnds(env, w, now, n);
    }
  }

  lemma CompanyReaps(env: Env, c: Config, w: World)
    requires GoodConfig(c) && GoodEnv(env) && Protocol(c, w) && w.launched > 0
    requires |w.running| >= ReachedIn(w.running) + 2 && forall i :: !env.run(i).reached
    ensures Reap(env, w).Ok?
    ensures var after := Reap(env, w).value;
      Protocol(c, after) && after.launched > 0 && |after.running| >= ReachedIn(after.running) + 2
  {
    hide Protocol, Launch, ReachedIn, FirstLeast;
    var k := FirstLeast(EndsNoLater, w.running);
    FinishIsSafe(c, w, k);
    var after := Finish(w, k).value;
    ReachedInWithout(w.running, k);
    if !w.running[k].outcome.reached {
      LaunchIsSafe(env, c, after, RetrySlot(w.running[k].slot));
      LaunchAdds(env, after, RetrySlot(w.running[k].slot));
      var last := Launch(env, after, RetrySlot(w.running[k].slot)).value.running;
      assert last == after.running + [last[|after.running|]];
      ReachedInAppend(after.running, last[|after.running|]);
    }
  }

  // ---- Runs of submissions and reaps ----

  datatype Action = Submit(slot: Slot) | ReapNext

  /** A row is submitted when everything that ended before it starts has been reaped; any time there is a job in
      flight, the next to end may be reaped. */
  ghost predicate May(w: World, a: Action) {
    match a
    case Submit(slot) =>
      slot.start <= slot.end && forall i :: 0 <= i < |w.observed| ==> w.observed[i].slot.end <= slot.start
    case ReapNext => w.running != []
  }

  function Act(env: Env, w: World, a: Action): Result<World, Fault>
    requires a.ReapNext? ==> w.running != []
  {
    match a
    case Submit(slot) => Launch(env, w, slot)
    case ReapNext => Reap(env, w)
  }

  ghost predicate Runs(env: Env, w: World, actions: seq<Action>, after: World)
    decreases |actions|
  {
    if actions == [] then w == after
    else
      && May(w, actions[0]) && Act(env, w, actions[0]).Ok?
      && Runs(env, Act(env, w, actions[0]).value, actions[1..], after)
  }

  function Submissions(actions: seq<Action>): nat {
    if actions == [] then 0 else (if actions[0].Submit? then 1 else 0) + Submissions(actions[1..])
  }

  /** The rows submitted, in order. */
  function Rows(actions: seq<Action>): (rows: seq<Slot>)
    ensures |rows| == Submissions(actions)
  {
    if actions == [] then []
    else (if actions[0].Submit? then [actions[0].slot] else []) + Rows(actions[1..])
  }

  /** Whenever a row is submitted, everything that ends by its start has been reaped. */
  ghost predicate Timely(env: Env, w: World, actions: seq<Action>)
    decreases |actions|
  {
    actions == [] ||
      (May(w, actions[0]) && Act(env, w, actions[0]).Ok?
       && (actions[0].Submit? ==>
             forall i :: 0 <= i < |w.running| ==> w.running[i].slot.end > actions[0].slot.start)
       && Timely(env, Act(env, w, actions[0]).value, actions[1..]))
  }

  lemma {:induction false} SoundAlways(env: Env, c: Config, w: World, submitted: nat, actions: seq<Action>,
                                       after: World)
    requires Sound(env, c, w, submitted) && Runs(env, w, actions, after)
    ensures Sound(env, c, after, submitted + Submissions(actions))
    decreases |actions|
  {
    hide Sound, Launch, Reap;
    if actions != [] {
      var next := Act(env, w, actions[0]).value;
      match actions[0] {
        case Submit(slot) =>
          SubmitKeeps(env, c, w, submitted, slot);
          SoundAlways(env, c, next, submitted + 1, actions[1..], after);
        case ReapNext =>
          ReapKeeps(env, c, w, submitted);
          SoundAlways(env, c, next, submitted, actions[1..], after);
      }
    }
  }

  /** In every state of every run, whatever the jobs yield: a result the coroutine awaits is carried by a job in flight;
      rows submitted are in flight or done, and launches in flight or observed; results were observed in the order of
      time; history, least cost and best batch size are those of the results observed; and once there is a bandit, the
      belief about each arm is the refit of its windowed rewards. */
  lemma RunsAreSound(env: Env, c: Config, actions: seq<Action>, w: World)
    requires GoodConfig(c) && GoodEnv(env) && Runs(env, Begin(c), actions, w)
    ensures Awaits(w.bso) ==> Carried(w.running, w.bso.explorer.expecting)
    ensures w.launched > 0 ==> w.bestBs in w.limits
    ensures Submissions(actions) == |w.running| + ReachedIn(w.observed) && w.launched == |w.running| + |w.observed|
    ensures forall i, j :: 0 <= i < j < |w.observed| ==> w.observed[i].slot.end <= w.observed[j].slot.end
    ensures w.history == HistoryOf(w.observed) && BestKnown(w, c.default)
    ensures w.bso.arms.Some? ==> w.bso.arms.value != [] && BeliefsTrack(w.bso, w.bso.arms.value)
  {
    RunIsSound(env, c, actions, w);
    hide *;
    SoundMeans(env, c, w, Submissions(actions));
    SoundBeliefs(env, c, w, Submissions(actions));
  }

  lemma RunIsSound(env: Env, c: Config, actions: seq<Action>, w: World)
    requires GoodConfig(c) && GoodEnv(env) && Runs(env, Begin(c), actions, w)
    ensures Sound(env, c, w, Submissions(actions))
  {
    hide Sound, Runs, Begin, GoodEnv;
    BeginsSound(env, c);
    SoundAlways(env, c, Begin(c), 0, actions, w);
  }

  /** In every state of every run the next action, if it fails at all, fails because everything was pruned or the window
      is one. */
  lemma RunsFailAsExpected(env: Env, c: Config, actions: seq<Action>, w: World, a: Action)
    requires GoodConfig(c) && GoodEnv(env) && Runs(env, Begin(c), actions, w)
    requires May(w, a) && Act(env, w, a).Err?
    ensures Expected(c, Act(env, w, a).error)
  {
    RunIsSound(env, c, actions, w);
    hide *;
    FaultIsExpected(env, c, w, Submissions(actions), a);
  }

  lemma SoundBeliefs(env: Env, c: Config, w: World, submitted: nat)
    requires Sound(env, c, w, submitted)
    ensures w.bso.arms.Some? ==> w.bso.arms.value != [] && BeliefsTrack(w.bso, w.bso.arms.value)
  {
    hide Balanced, Recorded, Causal, BeliefsTrack, Within, Covers, NextOk, YieldOk, Awaits, Carried, Begin, GoodEnv;
  }

  lemma SoundMeans(env: Env, c: Config, w: World, submitted: nat)
    requires Sound(env, c, w, submitted)
    ensures Awaits(w.bso) ==> Carried(w.running, w.bso.explorer.expecting)
    ensures w.launched > 0 ==> w.bestBs in w.limits
    ensures submitted == |w.running| + ReachedIn(w.observed) && w.launched == |w.running| + |w.observed|
    ensures forall i, j :: 0 <= i < j < |w.observed| ==> w.observed[i].slot.end <= w.observed[j].slot.end
    ensures w.history == HistoryOf(w.observed) && BestKnown(w, c.default)
  {
    hide BsoOk, Awaits, Carried, BestKnown, HistoryOf, ReachedIn, Successes, Begin;
  }

  lemma FaultIsExpected(env: Env, c: Config, w: World, submitted: nat, a: Action)
    requires Sound(env, c, w, submitted) && May(w, a) && Act(env, w, a).Err?
    ensures Expected(c, Act(env, w, a).error)
  {
    hide Sound, Launch, Reap;
    match a
    case Submit(slot) => SubmitKeeps(env, c, w, submitted, slot);
    case ReapNext => ReapKeeps(env, c, w, submitted);
  }

  lemma {:induction false} RunsOn(env: Env, w: World, a: seq<Action>, mid: World, b: seq<Action>, after: World)
    requires Runs(env, w, a, mid) && Runs(env, mid, b, after)
    ensures Runs(env, w, a + b, after) && Rows(a + b) == Rows(a) + Rows(b)
    ensures Timely(env, w, a) && Timely(env, mid, b) ==> Timely(env, w, a + b)
    decreases |a|
  {
    hide Launch, Reap, Rows, Act;
    RowsOn(a, b);
    if a == [] {
      assert a + b == b;
    } else {
      Onwards(a, b);
      RunsOn(env, Act(env, w, a[0]).value, a[1..], mid, b, after);
    }
  }

  lemma Onwards(a: seq<Action>, b: seq<Action>)
    requires a != []
    ensures (a + b)[0] == a[0] && (a + b)[1..] == a[1..] + b
  {
  }

  lemma {:induction false} RowsOn(a: seq<Action>, b: seq<Action>)
    ensures Rows(a + b) == Rows(a) + Rows(b)
  {
    if a == [] {
      assert a + b == b;
    } else {
      Onwards(a, b);
      RowsOn(a[1..], b);
    }
  }

  lemma {:induction false} ReapManyRuns(env: Env, w: World, n: nat) returns (actions: seq<Action>)
    requires ReapMany(env, w, n).Ok?
    ensures Runs(env, w, actions, ReapMany(env, w, n).value) && Rows(actions) == [] && Timely(env, w, actions)
    decreases n
  {
    hide Reap;
    if n == 0 || w.running == [] {
      actions := [];
    } else {
      var rest := ReapManyRuns(env, Reap(env, w).value, n - 1);
      actions := [ReapNext] + rest;
      assert actions[1..] == rest;
    }
  }

  /** Where reaping several jobs fails, one of them fails to be reaped. */
  lemma {:induction false} ReapManyFails(env: Env, w: World, n: nat) returns (m: nat, last: World)
    requires ReapMany(env, w, n).Err?
    ensures ReapMany(env, w, m) == Ok(last) && last.running != []
    ensures Reap(env, last) == Err(ReapMany(env, w, n).error)
    decreases n
  {
    hide Reap;
    if Reap(env, w).Err? {
      m, last := 0, w;
    } else {
      m, last := ReapManyFails(env, Reap(env, w).value, n - 1);
      m := m + 1;
    }
  }
}
