/** The event loop of `simulate_one_alibaba_group` in zeus/_legacy/simulate.py. An object holds the local variables of
    one simulation; its methods carry out the transitions of module Simulator. */
module Simulation {
  import opened Lists
  import opened Metric
  import opened Outcomes
  import opened Exploration
  import opened BatchSizeOptimizer
  import opened Simulator
  import SimulatedRuns
  import opened JitPowerLimit

  lemma FirstOccurrence(running: seq<RunningJob>, k: nat)
    requires running != [] && k == FirstLeast(EndsNoLater, running)
    ensures IndexOf(running, running[k]) == k
  {
    FirstLeastIsLeast(EndsNoLater, running);
    assert EndsNoLater(running[k], running[k]);
  }

  lemma {:induction false} ReapMore(env: Env, w: World, n: nat)
    requires ReapMany(env, w, n).Ok? && ReapMany(env, w, n).value.running != []
    ensures ReapMany(env, w, n + 1) == Reap(env, ReapMany(env, w, n).value)
    decreases n
  {
    hide Reap;
    if n == 0 {
      assert ReapMany(env, w, 1)
          == match Reap(env, w) case Ok(after) => ReapMany(env, after, 0) case Err(fault) => Err(fault);
    } else {
      ReapMore(env, Reap(env, w).value, n - 1);
    }
  }

  /** The pass over the sorted copy has reached the jobs still in flight: those before `k` that are left are not due,
      and then none is. */
  ghost predicate Scanning(now: Option<real>, running: seq<RunningJob>, ordered: seq<RunningJob>, reaped: nat, k: nat) {
    && reaped <= k <= |ordered|
    && SortBy(EndsNoLater, running) == ordered[reaped..]
    && OrderedBy(EndsNoLater, ordered)
    && (forall i :: reaped <= i < k ==> !Due(now, ordered[i]))
  }

  lemma ScanStarts(now: Option<real>, running: seq<RunningJob>)
    requires HasDue(now, running)
    ensures var ordered := SortBy(EndsNoLater, running);
      Scanning(now, running, ordered, 0, 0) && ordered != [] && Due(now, ordered[0])
  {
    SortByIsOrdered(EndsNoLater, running);
    FirstToEnd(running);
    var i :| 0 <= i < |running| && Due(now, running[i]);
    assert SortBy(EndsNoLater, running)[0] == running[FirstLeast(EndsNoLater, running)];
  }

  lemma EarlierIsDue(now: Option<real>, ordered: seq<RunningJob>, i: nat, k: nat)
    requires OrderedBy(EndsNoLater, ordered) && i <= k < |ordered| && Due(now, ordered[k])
    ensures Due(now, ordered[i])
  {
    assert i < k ==> EndsNoLater(ordered[i], ordered[k]);
  }

  /** A due job met by the scan is the first to end among those in flight. */
  lemma ScanFinds(now: Option<real>, running: seq<RunningJob>, ordered: seq<RunningJob>, reaped: nat, k: nat)
    requires Scanning(now, running, ordered, reaped, k) && k < |ordered| && Due(now, ordered[k])
    ensures reaped == k && running != []
    ensures ordered[k] == running[FirstLeast(EndsNoLater, running)]
    ensures IndexOf(running, ordered[k]) == FirstLeast(EndsNoLater, running)
    ensures Scanning(now, Without(running, FirstLeast(EndsNoLater, running)), ordered, k + 1, k + 1)
    ensures HasDue(now, running)
  {
    hide FirstLeast, IndexOf;
    EarlierIsDue(now, ordered, reaped, k);
    var sorted := SortBy(EndsNoLater, running);
    assert sorted[0] == ordered[k];
    var first := FirstLeast(EndsNoLater, running);
    FirstOccurrence(running, first);
    assert sorted == [running[first]] + SortBy(EndsNoLater, Without(running, first));
    assert SortBy(EndsNoLater, Without(running, first)) == sorted[1..] == ordered[k + 1..];
    assert Due(now, running[first]);
  }

  lemma ScanSkips(now: Option<real>, running: seq<RunningJob>, ordered: seq<RunningJob>, reaped: nat, k: nat)
    requires Scanning(now, running, ordered, reaped, k) && k < |ordered| && !Due(now, ordered[k])
    ensures Scanning(now, running, ordered, reaped, k + 1)
  {
  }

  /** Every job observed so far has ended by the given time. */
  ghost predicate ObservedBy(w: World, now: Option<real>) {
    now.Some? ==> forall i :: 0 <= i < |w.observed| ==> w.observed[i].slot.end <= now.value
  }

  lemma ReapObservedBy(env: Env, w: World, now: Option<real>)
    requires ObservedBy(w, now) && w.running != [] && HasDue(now, w.running) && Reap(env, w).Ok?
    ensures ObservedBy(Reap(env, w).value, now)
  {
    hide Observed, Predicted, FirstLeast, Without;
    FirstToEnd(w.running);
    var after := Finish(w, FirstLeast(EndsNoLater, w.running)).value;
    assert after.observed == w.observed + [w.running[FirstLeast(EndsNoLater, w.running)]];
  }

  ghost predicate Less(now: Option<real>, after: World, before: World, horizon: Option<nat>) {
    && Work(now, after, horizon) <= Work(now, before, horizon)
    && (Work(now, after, horizon) < Work(now, before, horizon) || |after.running| < |before.running|)
    && (Work(now, after, horizon) == Work(now, before, horizon) ==> |after.running| < |before.running|)
  }

  lemma SuccessOnlyRemoves(env: Env, w: World)
    requires w.running != [] && Reap(env, w).Ok? && w.running[FirstLeast(EndsNoLater, w.running)].outcome.reached
    ensures Reap(env, w).value.running == Without(w.running, FirstLeast(EndsNoLater, w.running))
  {
    hide Reap;
    ReapShape(env, w);
  }

  lemma SoundFacts(env: Env, c: Config, w: World, submitted: nat)
    requires Sound(env, c, w, submitted)
    ensures GoodEnv(env)
  {
  }

  lemma ProfiledKnown(env: Env, limits: map<int, int>, bs: int)
    requires GoodEnv(env)
    ensures bs in limits ==> Profiled(env, limits, bs) == limits
    ensures bs in Profiled(env, limits, bs) && env.profile(bs) != []
  {
  }

  lemma ReapNone(env: Env, w: World)
    ensures ReapMany(env, w, 0) == Ok(w)
  {
  }

  class GroupSimulation {
    const env: Env
    const bso: PruningGTSBatchSizeOptimizer
    const plo: JITPowerLimitOptimizer
    var running: seq<RunningJob>
    var history: seq<HistoryEntry>
    var minCost: Option<real>
    var bestBs: int
    var launched: nat
    ghost var observed: seq<RunningJob>
    ghost var log: seq<Report>

    ghost function World(): World
      reads this, bso, bso.manager, plo
    {
      Simulator.World(running, bso.Model(), plo.bestPl, history, minCost, bestBs, launched, observed, log)
    }

    ghost predicate Valid()
      reads this, bso, bso.manager, plo
    {
      bso.manager.Valid() && plo.Valid()
    }

    constructor (c: Config, env: Env)
      requires c.default in c.batchSizes
      ensures Valid() && fresh(bso) && fresh(bso.manager) && fresh(plo)
      ensures this.env == env && World() == Begin(c)
    {
      this.env := env;
      bso := new PruningGTSBatchSizeOptimizer(c.batchSizes, c.default, c.prior, c.window, true);
      plo := new JITPowerLimitOptimizer();
      running, history, minCost, bestBs, launched := [], [], None, c.default, 0;
      observed, log := [], [];
    }

    /** Profiles the power limits of a batch size, from high to low. */
    method ProfilePower(bs: int)
      requires plo.Valid() && bs !in plo.bestPl && env.profile(bs) != []
      modifies plo
      ensures plo.Valid() && plo.bestPl == Profiled(env, old(plo.bestPl), bs)
    {
      var result := env.profile(bs);
      var i := 0;
      while i < |result|
        invariant 0 <= i <= |result| && plo.Valid()
        invariant i == 0 ==> plo.bestPl == old(plo.bestPl) && plo.tried == old(plo.tried)
        invariant i > 0 ==> bs in plo.tried && plo.tried[bs] == result[..i]
        invariant i > 0 ==> plo.bestPl.Keys == old(plo.bestPl.Keys) + {bs}
        invariant forall b :: b in old(plo.bestPl) ==> b in plo.bestPl && plo.bestPl[b] == old(plo.bestPl)[b]
      {
        assert result[..i + 1] == result[..i] + [result[i]];
        plo.Observe(bs, result[i].0, result[i].1);
        i := i + 1;
      }
      assert result[..i] == result;
      assert (plo.bestPl[bs], plo.bestCost[bs]) == Cheapest(plo.tried[bs]);
      ghost var expected := old(plo.bestPl)[bs := Cheapest(result).0];
      assert plo.bestPl.Keys == expected.Keys;
      assert forall b :: b in expected ==> plo.bestPl[b] == expected[b];
    }

    /** Decides the knobs of a job, runs it and puts it in flight. */
    method Launch(slot: Slot) returns (fault: Option<Fault>)
      requires Valid() && GoodEnv(env)
      modifies this, bso, bso.manager, plo
      ensures Valid()
      ensures match Simulator.Launch(env, old(World()), slot)
        case Ok(w) => fault.None? && World() == w
        case Err(f) => fault == Some(f)
    {
      hide Predicted, Profiled, ZeusCost;
      var bs;
      var pl;
      if |running| > 0 {
        bs := bestBs;
        pl := plo.Predict(bs);
        if pl.None? {
          return Some(PowerNotProfiled);
        }
      } else {
        var prediction := bso.Predict(env.draw(launched));
        if prediction.Err? {
          return Some(prediction.error);
        }
        bs := prediction.value;
        pl := plo.Predict(bs);
        ProfiledKnown(env, plo.bestPl, bs);
        if pl.None? {
          ProfilePower(bs);
          pl := plo.Predict(bs);
          if pl.None? {
            return Some(PowerNotProfiled);
          }
        }
      }
      var outcome := env.run(launched);
      var cost := ZeusCost(outcome.energy, outcome.time, env.eta, env.maxPower);
      running := running + [RunningJob(slot, bs, pl.value, outcome, cost)];
      launched := launched + 1;
      fault := None;
    }

    /** Takes a finished job out of the list, lets the optimizer observe it and records it. */
    method FinishJob(k: nat) returns (fault: Option<Fault>)
      requires Valid() && k < |running|
      modifies this, bso, bso.manager
      ensures Valid()
      ensures match Finish(old(World()), k)
        case Ok(w) => fault.None? && World() == w
        case Err(f) => fault == Some(f)
    {
      hide Observed, NextLog;
      ghost var w := World();
      var rjob := running[k];
      running := Without(running, k);
      var failure := bso.Observe(rjob.bs, rjob.cost, rjob.outcome.reached);
      if failure.Some? {
        return failure;
      }
      assert history == w.history;
      assert w.history + [] == w.history;
      log := NextLog(w.bso, log, rjob.bs, rjob.cost, rjob.outcome.reached);
      observed := observed + [rjob];
      if rjob.outcome.energy != 0.0 || rjob.outcome.time != 0.0 || rjob.outcome.reached {
        var energy, time := rjob.outcome.energy * rjob.slot.ratio, rjob.outcome.time * rjob.slot.ratio;
        var entry := HistoryEntry(rjob.bs, rjob.pl, energy, rjob.outcome.reached, time);
        assert Entries(rjob)[0].energy == energy;
        assert Entries(rjob)[0].time == time;
        assert Entries(rjob) == [entry];
        history := history + [entry];
      }
      if rjob.outcome.reached {
        if minCost.None? || minCost.value > rjob.cost {
          minCost := Some(rjob.cost);
          bestBs := rjob.bs;
        }
      }
      fault := None;
    }

    /** Handles one finished job: it is removed and observed, and retried if it failed. */
    method FinishAndRetry(rjob: RunningJob) returns (fault: Option<Fault>)
      requires Valid() && GoodEnv(env)
      requires running != [] && rjob == running[FirstLeast(EndsNoLater, running)]
      modifies this, bso, bso.manager, plo
      ensures Valid()
      ensures match Reap(env, old(World()))
        case Ok(w) => fault.None? && World() == w
        case Err(f) => fault == Some(f)
    {
      hide Finish, Simulator.Launch, FirstLeast, IndexOf;
      FirstOccurrence(running, FirstLeast(EndsNoLater, running));
      fault := FinishJob(IndexOf(running, rjob));
      if fault.None? && !rjob.outcome.reached {
        fault := Launch(RetrySlot(rjob.slot));
      }
    }

    /** Reaps all jobs that have ended by `now` (all jobs there are if that is infinity), retrying those that failed.
        It ends for the reason `WillEnd` gives: a horizon by which the oracle has enough successes, or, without one and
        up to a finite time, no failed job of no duration. */
    method ReapFinished(now: Option<real>, ghost c: Config, ghost submitted: nat, ghost horizon: Option<nat>)
      returns (fault: Option<Fault>, ghost n: nat)
      requires Valid() && Sound(env, c, World(), submitted)
      requires WillEnd(env, World(), submitted, now, horizon)
      requires ObservedBy(World(), now)
      modifies this, bso, bso.manager, plo
      ensures Valid()
      ensures fault.None? ==>
        && ReapMany(env, old(World()), n) == Ok(World())
        && Sound(env, c, World(), submitted) && !HasDue(now, running)
      ensures fault.Some? ==> ReapMany(env, old(World()), n) == Err(fault.value) && Expected(c, fault.value)
      ensures fault.None? ==> ObservedBy(World(), now)
    {
      hide Sound, ReapMany, Reap, Finish, Simulator.Launch, Scanning, SortBy, HasDue, FirstLeast, IndexOf, Without,
        Work, ObservedBy, WillEnd;
      ghost var start := World();
      n := 0;
      assert ReapMany(env, start, 0) == Ok(start) by { ReapNone(env, start); }
      while HasDue(now, running)
        invariant Valid() && Sound(env, c, World(), submitted) && WillEnd(env, World(), submitted, now, horizon)
        invariant ReapMany(env, start, n) == Ok(World())
        invariant ObservedBy(World(), now)
        decreases Work(now, World(), horizon), |running|
      {
        ghost var before := World();
        ScanStarts(now, running);
        var ordered := SortBy(EndsNoLater, running);
        var k := 0;
        ghost var reaped := 0;
        while k < |ordered|
          invariant Valid() && Sound(env, c, World(), submitted) && WillEnd(env, World(), submitted, now, horizon)
          invariant ReapMany(env, start, n) == Ok(World())
          invariant ObservedBy(World(), now)
          invariant Scanning(now, running, ordered, reaped, k) && reaped <= k
          invariant ordered != [] && Due(now, ordered[0])
          invariant k == 0 ==> World() == before
          invariant k > 0 ==> Less(now, World(), before, horizon)
        {
          var rjob := ordered[k];
          if !(now.None? || rjob.slot.end <= now.value) {
            ScanSkips(now, running, ordered, reaped, k);
            k := k + 1;
            continue;
          }
          ghost var w := World();
          ScanFinds(now, running, ordered, reaped, k);
          SoundFacts(env, c, w, submitted);
          ReapKeeps(env, c, w, submitted);
          ReapMore(env, start, n);
          fault := FinishAndRetry(rjob);
          n := n + 1;
          if fault.Some? {
            return;
          }
          ReapProgress(env, c, w, submitted, now, horizon);
          ReapObservedBy(env, w, now);
          if !rjob.outcome.reached {
            break;
          }
          SuccessOnlyRemoves(env, w);
          reaped, k := k + 1, k + 1;
        }
      }
      fault := None;
    }
  }

  /** The rows of a group: sorted by start time, none ending before it starts. */
  ghost predicate GoodRows(rows: seq<Slot>) {
    && (forall i, j :: 0 <= i < j < |rows| ==> rows[i].start <= rows[j].start)
    && (forall i :: 0 <= i < |rows| ==> rows[i].start <= rows[i].end)
  }

  /** What a completed simulation returns: an entry for each job that ran, one of them reached per row, from exactly as
      many launches as the oracle takes to hold a success for every row, observed in the order of time, with the
      cheapest success remembered. */
  ghost predicate Completed(env: Env, c: Config, rows: seq<Slot>, history: seq<HistoryEntry>, w: World) {
    && w.running == [] && |w.observed| == w.launched
    && history == HistoryOf(w.observed)
    && (exists at :: SimulatedRuns.Recounts(history, w.observed, at))
    && ReachedEntries(history) == |rows|
    && Successes(env.run, w.launched) == |rows|
    && (w.launched > 0 ==> Successes(env.run, w.launched - 1) < |rows|)
    && (forall i, j :: 0 <= i < j < |w.observed| ==> w.observed[i].slot.end <= w.observed[j].slot.end)
    && BestKnown(w, c.default) && SimulatedRuns.BestSoFar(w.observed, c.default, w.bestBs)
  }

  /** A timely run of some of the rows, after which the next row or the next job to reap meets the fault. */
  ghost predicate Fails(env: Env, c: Config, rows: seq<Slot>, actions: seq<Action>, w: World, fault: Fault)
    requires c.default in c.batchSizes
  {
    && Runs(env, Begin(c), actions, w) && Timely(env, Begin(c), actions)
    && |Rows(actions)| <= |rows| && Rows(actions) == rows[..|Rows(actions)|]
    && exists a :: May(w, a) && Act(env, w, a) == Err(fault) &&
         (a.Submit? ==> |Rows(actions)| < |rows| && a.slot == rows[|Rows(actions)|])
  }

  lemma AllAreDueAtInfinity(running: seq<RunningJob>)
    ensures HasDue(None, running) <==> running != []
  {
    assert running != [] ==> Due(None, running[0]);
  }

  lemma CompletesSoundly(env: Env, c: Config, w: World, rows: seq<Slot>)
    requires Sound(env, c, w, |rows|) && !HasDue(None, w.running)
    ensures Completed(env, c, rows, w.history, w)
  {
    hide Protocol, Successes, SimulatedRuns.Recounts, SimulatedRuns.BestSoFar, BestKnown;
    HistoryCounts(w.observed);
    var at := SimulatedRuns.HistoryRecounts(w.observed);
    SimulatedRuns.BestIsSoFar(w, c.default);
    AllAreDueAtInfinity(w.running);
  }

  lemma LaterToo(w: World, now: real, later: real)
    requires ObservedBy(w, Some(now)) && now <= later
    ensures ObservedBy(w, Some(later))
  {
  }

  lemma Submits(env: Env, c: Config, w: World, submitted: nat, slot: Slot)
    requires Sound(env, c, w, submitted) && slot.start <= slot.end && ObservedBy(w, Some(slot.start))
    ensures match Simulator.Launch(env, w, slot)
      case Ok(after) => Sound(env, c, after, submitted + 1) && ObservedBy(after, Some(slot.start))
      case Err(fault) => Expected(c, fault)
    ensures May(w, Submit(slot))
    ensures Simulator.Launch(env, w, slot).Ok? ==>
      && Runs(env, w, [Submit(slot)], Simulator.Launch(env, w, slot).value)
      && (!HasDue(Some(slot.start), w.running) ==> Timely(env, w, [Submit(slot)]))
  {
    hide Sound, Simulator.Launch;
    SubmitKeeps(env, c, w, submitted, slot);
    assert [Submit(slot)][1..] == [];
    assert forall i :: 0 <= i < |w.running| && !Due(Some(slot.start), w.running[i]) ==>
      w.running[i].slot.end > slot.start;
  }

  /** The run up to now, with all that was reaped since. */
  lemma RunGoesOn(env: Env, c: Config, actions: seq<Action>, w: World, n: nat, after: World) returns (more: seq<Action>)
    requires c.default in c.batchSizes && Runs(env, Begin(c), actions, w) && ReapMany(env, w, n) == Ok(after)
    ensures Runs(env, Begin(c), more, after) && Rows(more) == Rows(actions)
    ensures Timely(env, Begin(c), actions) ==> Timely(env, Begin(c), more)
  {
    hide Runs, ReapMany, Begin, Timely, Rows;
    var reaps := ReapManyRuns(env, w, n);
    RunsOn(env, Begin(c), actions, w, reaps, after);
    more := actions + reaps;
  }

  lemma RunSubmits(env: Env, c: Config, actions: seq<Action>, w: World, slot: Slot, after: World)
    requires c.default in c.batchSizes && Runs(env, Begin(c), actions, w) && Runs(env, w, [Submit(slot)], after)
    ensures Runs(env, Begin(c), actions + [Submit(slot)], after)
    ensures Rows(actions + [Submit(slot)]) == Rows(actions) + [slot]
    ensures Timely(env, Begin(c), actions) && Timely(env, w, [Submit(slot)]) ==>
      Timely(env, Begin(c), actions + [Submit(slot)])
  {
    assert Rows([Submit(slot)]) == [slot] by { assert [Submit(slot)][1..] == []; }
    hide Runs, Begin, Rows, Timely;
    RunsOn(env, Begin(c), actions, w, [Submit(slot)], after);
  }

  lemma EnoughFor(env: Env, w: World, submitted: nat, rows: nat, now: Option<real>, horizon: nat)
    requires Successes(env.run, horizon) >= rows >= submitted
    ensures WillEnd(env, w, submitted, now, Some(horizon))
  {
  }

  lemma NothingObserved(c: Config, now: Option<real>)
    requires c.default in c.batchSizes
    ensures ObservedBy(Begin(c), now)
  {
  }

  /** The simulation of a group; `actions` is the run of submissions and reaps it carried out. */
  method SimulateOneAlibabaGroup(c: Config, env: Env, rows: seq<Slot>, ghost horizon: nat)
    returns (result: Result<seq<HistoryEntry>, Fault>, ghost w: World, ghost actions: seq<Action>)
    requires Distinct(c.batchSizes) && (forall b :: b in c.batchSizes ==> b > 0) && c.prior.prec >= 0.0
    requires GoodEnv(env) && GoodRows(rows)
    requires Successes(env.run, horizon) >= |rows|
    ensures result == Err(UnknownDefault) <==> c.default !in c.batchSizes
    ensures match result
      case Err(fault) =>
        fault == UnknownDefault ||
        (Expected(c, fault) && c.default in c.batchSizes && Fails(env, c, rows, actions, w, fault))
      case Ok(history) => Completed(env, c, rows, history, w)
    ensures result.Ok? ==> Runs(env, Begin(c), actions, w) && Timely(env, Begin(c), actions) && Rows(actions) == rows
  {
    hide Sound, ObservedBy, Simulator.Launch, HasDue, Successes, ReapMany, Completed, Begin, GoodEnv, Runs, WillEnd,
      Rows, Timely, Fails;
    actions := [];
    w := World([], Bso(Start([], 0, 0), [], None, map[], c.prior, 0, true), map[], [], None, 0, 0, [], []);
    if c.default !in c.batchSizes {
      return Err(UnknownDefault), w, actions;
    }
    var simulation := new GroupSimulation(c, env);
    BeginsSound(env, c);
    NothingObserved(c, if rows == [] then None else Some(rows[0].start));
    RunStarts(env, Begin(c));
    ghost var n;
    var fault;
    var i := 0;
    while i < |rows|
      invariant 0 <= i <= |rows| && simulation.Valid() && simulation.env == env
      invariant fresh(simulation) && fresh(simulation.bso) && fresh(simulation.bso.manager) && fresh(simulation.plo)
      invariant Sound(env, c, simulation.World(), i)
      invariant Runs(env, Begin(c), actions, simulation.World()) && Timely(env, Begin(c), actions)
      invariant Rows(actions) == rows[..i]
      invariant i < |rows| ==> ObservedBy(simulation.World(), Some(rows[i].start))
    {
      var currentTime := rows[i].start;
      EnoughFor(env, simulation.World(), i, |rows|, Some(currentTime), horizon);
      w := simulation.World();
      fault, n := simulation.ReapFinished(Some(currentTime), c, i, Some(horizon));
      if fault.Some? {
        actions, w := RunFails(env, c, rows, actions, w, n);
        return Err(fault.value), w, actions;
      }
      actions := RunGoesOn(env, c, actions, w, n, simulation.World());
      w := simulation.World();
      Submits(env, c, w, i, rows[i]);
      SoundFacts(env, c, w, i);
      fault := simulation.Launch(rows[i]);
      if fault.Some? {
        SubmitFails(env, c, rows, i, actions, w);
        return Err(fault.value), w, actions;
      }
      RunSubmits(env, c, actions, w, rows[i], simulation.World());
      actions := actions + [Submit(rows[i])];
      assert rows[..i + 1] == rows[..i] + [rows[i]];
      if i + 1 < |rows| {
        LaterToo(simulation.World(), rows[i].start, rows[i + 1].start);
      }
      i := i + 1;
    }
    assert rows[..i] == rows;
    assert ObservedBy(simulation.World(), None) by { AnyTime(simulation.World()); }
    EnoughFor(env, simulation.World(), |rows|, |rows|, None, horizon);
    w := simulation.World();
    fault, n := simulation.ReapFinished(None, c, |rows|, Some(horizon));
    if fault.Some? {
      actions, w := RunFails(env, c, rows, actions, w, n);
      return Err(fault.value), w, actions;
    }
    actions := RunGoesOn(env, c, actions, w, n, simulation.World());
    w := simulation.World();
    CompletesSoundly(env, c, w, rows);
    result := Ok(simulation.history);
  }

  lemma RunFails(env: Env, c: Config, rows: seq<Slot>, actions: seq<Action>, w: World, n: nat)
    returns (more: seq<Action>, last: World)
    requires c.default in c.batchSizes && Runs(env, Begin(c), actions, w) && Timely(env, Begin(c), actions)
    requires |Rows(actions)| <= |rows| && Rows(actions) == rows[..|Rows(actions)|]
    requires ReapMany(env, w, n).Err?
    ensures Fails(env, c, rows, more, last, ReapMany(env, w, n).error)
  {
    hide Runs, ReapMany, Begin, Timely, Rows, Reap;
    var m;
    m, last := ReapManyFails(env, w, n);
    more := RunGoesOn(env, c, actions, w, m, last);
    assert May(last, ReapNext) && Act(env, last, ReapNext) == Err(ReapMany(env, w, n).error);
  }

  lemma SubmitFails(env: Env, c: Config, rows: seq<Slot>, i: nat, actions: seq<Action>, w: World)
    requires c.default in c.batchSizes && Runs(env, Begin(c), actions, w) && Timely(env, Begin(c), actions)
    requires i < |rows| && Rows(actions) == rows[..i]
    requires May(w, Submit(rows[i])) && Simulator.Launch(env, w, rows[i]).Err?
    ensures Fails(env, c, rows, actions, w, Simulator.Launch(env, w, rows[i]).error)
  {
    hide Runs, Begin, Timely, Rows, Simulator.Launch;
    assert Act(env, w, Submit(rows[i])) == Err(Simulator.Launch(env, w, rows[i]).error);
  }

  lemma RunStarts(env: Env, w: World)
    ensures Runs(env, w, [], w) && Timely(env, w, []) && Rows([]) == []
  {
  }

  lemma AnyTime(w: World)
    ensures ObservedBy(w, None)
  {
  }
}
