# Verified model of the Zeus energy optimizers and monitors

This project models the parts of Zeus that decide and measure, and proves what they promise on all inputs and in all
runs. Zeus trains the same job again and again: it explores batch sizes with a pruning coroutine, chooses among the
survivors with a Gaussian bandit, profiles GPU power limits while training runs, and measures energy and carbon with
monitors that poll counters from other processes. `dafny verify dfyconfig.toml` checks everything.

| module | part of Zeus |
|---|---|
| `Exploration`, `Pruning`, `LoggedRuns`, `ExploreManager` | the two-way exploration coroutine, what it explores and keeps, its runs by their results, and its class |
| `ServerExplorer`, `ServerRefinement` | the server's stateless replay of the same exploration, and the proof that it refines the coroutine |
| `BatchSizeOptimizer`, `JitPowerLimit` | the optimizer that combines pruning and bandit, and the power limit memory |
| `Simulator`, `SimulatedRuns`, `Simulation` | the discrete-event simulation of concurrent, failing, retried jobs: transitions, what runs record, and loop |
| `RunJob` | cost-bounded runs and the simulation of one recurring job |
| `Posterior`, `GaussianBandit` | Gaussian posteriors; windows, and the legacy and server bandits |
| `PowerLimit`, `OptimumSelectors` | the power limit profiler and the selectors of the optimum |
| `CarbonProtocol`, `CarbonLedger` | the carbon monitor: client and worker processes, and the accounts of energy per hour |
| `Rapl` | reconstruction of a wrapped energy counter read by two racing processes |
| `EventStream` | reassembly of server-sent events and the readings they update |
| `ReplayLog` | the measurement log and the monitor that replays it |
| `PolledEnergy` | trapezoidal energy of polled power samples |
| `Metric`, `Lists`, `Text`, `Outcomes` | the hybrid cost, sorting, searching, splitting and joining, options and results |

Conventions. Floats are exact reals. A suspended generator is a value (`Exploration.Control`). Where the source updates
state in place there is a class whose methods are proved against functions on values, and the theorems are about those
functions. Random choices, job outcomes, clocks and meters are parameters that the theorems quantify over. A Python
exception is a result value.

What turned out not to hold, or to hold only under a condition:

- The comments at `original_zeus_python_project/zeus/_legacy/policy/mab.py:107-110` and
  `original_zeus_python_project/zeus/_legacy/policy/optimizer.py:328-329` tie an infinite reward precision to a single
  observation. The code gives it exactly when all observed rewards are equal
  (`Posterior.InfiniteExactlyWhenAllEqual`), and incremental fitting then forgets earlier batches
  (`Posterior.InfinitePrecisionForgets`).
- The assertion on two observations per arm (`original_zeus_python_project/zeus/_legacy/policy/optimizer.py:405`) holds
  exactly for windows other than one (`BatchSizeOptimizer.WindowDecides`).
- Legacy and server bandit start from the same arms exactly when no exploration falls out of the window
  (`GaussianBandit.BuiltArmsAgreeExactlyWhen`), and otherwise sample from the same distributions exactly when window and
  whole have the same mean and variances in the ratio of their lengths
  (`GaussianBandit.BuiltPosteriorsAgreeExactlyWhen`).
- A run stays within its cost bound exactly when its batch size was traced at the greatest power limit of the trace, or
  time costs nothing because eta is one (`RunJob.NeverOverspendsExactlyWhen`). A run that profiles power can exceed it
  (`RunJob.ProfilingCanOverspend`); it never does exactly when its first epoch, at the mean of all limits, costs no more
  than a regular one, with a further condition off the greatest limit
  (`RunJob.ProfilingNeverOverspendsExactlyWhen`).
- With a success for every row the event loop runs through for all rows that end no earlier than they start
  (`Simulation.SimulateOneAlibabaGroup`), and its last reaping ends exactly then (`Simulator.DrainsExactlyWhen`).
  Whatever the jobs yield, reaping up to a time ends if and only if no failed job of no duration is due
  (`Simulator.ReapingEndsExactlyWhen`); such a job is retried for ever (`Simulator.NoDurationNeverEnds`).
- The power limit profiler starves, for good, on epochs that are never as long as the waiting left to them plus warmup
  and profile (`PowerLimit.StarvesExactlyWhenShort`, `PowerLimit.ShortEpochsStarve`).
- The carbon monitor counts loop passes where it means hours: when hours are skipped it can look up an hour that has
  left the history (`CarbonLedger.SkippedHoursFail`). It finds every hour exactly when the hour the window began in, or
  that of the last flush, is still within the history (`CarbonLedger.RunFindsExactlyWhen`), and with consecutive hours
  it always does (`CarbonLedger.ConsecutiveLooksUp`). Cut twice in one hour, a window loses the first cut
  (`CarbonLedger.SameHourForgets`). An answer needs a reading of every device class
  (`CarbonLedger.AnswersExactlyWhenAllClasses`).
- A RAPL read that races with the tracker is off by whole ranges (`Rapl.LaterReadCanBeLower`), by two if it falls
  between the two halves of a poll (`Rapl.DelayedCountLosesTwo`).
- A measurement log without GPUs cannot be replayed, and a window key with a comma or line break does not come back
  (`ReplayLog.NoGpusNeverReplays`, `ReplayLog.ReadsBackExactlyWhen`).
- An event whose payload is empty is dropped by the client (`EventStream.PayloadSurvivesExactlyWhen`).
- Adjacent windows of polled samples are additive exactly when a sample lies on the common bound or one side is empty
  (`PolledEnergy.AdditiveExactlyWhen`).

## Model

| member | source | states |
|---|---|---|
| Pruning.RoundOpens | original_zeus_python_project/zeus/_legacy/policy/optimizer.py:177-196 | A round opens with the default: from there down through all smaller batch sizes, then up through all larger ones; or ends with the sorted survivors after the last round, or with the error when the default was pruned |
| Pruning.Walk | original_zeus_python_project/zeus/_legacy/policy/optimizer.py:190-217 | A coroutine suspended in a round tries the batch sizes in hand up to the first that fails, then those of the other direction likewise, and goes on to the next round with the good ones and the cheapest |
| Pruning.AcceptTracks | original_zeus_python_project/zeus/_legacy/policy/optimizer.py:204-209 | The default is always the first cheapest of the good batch sizes of the round, and the best cost is its cost |
| Exploration.OnlyItsOwn | original_zeus_python_project/zeus/_legacy/policy/optimizer.py:195-202 | A result counts for its own batch size, after all earlier ones, and for no other |
| Exploration.RoundFrame | original_zeus_python_project/zeus/_legacy/policy/optimizer.py:177-194 | Entering a round lists every remaining batch size once and has all earlier results on record |
| Exploration.AcceptKeeps | original_zeus_python_project/zeus/_legacy/policy/optimizer.py:205-209 | A batch size that reached the target moves to the good ones and the default becomes the first cheapest of them |
| Exploration.RejectKeeps | original_zeus_python_project/zeus/_legacy/policy/optimizer.py:210-214 | Giving up a direction keeps the round consistent |
| Exploration.AdvanceKeeps | original_zeus_python_project/zeus/_legacy/policy/optimizer.py:190-219 | After a judged result: a consistent offer, the final sorted survivors with one success per round each, or everything was pruned |
| Exploration.NextKeeps | original_zeus_python_project/zeus/_legacy/policy/optimizer.py:221-230 | `next` in turn never raises an ordering error: it yields, stops with survivors that reached their target once in each round, or all were pruned |
| Exploration.SendKeeps | original_zeus_python_project/zeus/_legacy/policy/optimizer.py:232-241 | `send` of the expected result is acknowledged by the empty yield and puts it on record |
| Exploration.TurnKeeps | original_zeus_python_project/zeus/_legacy/policy/optimizer.py:221-241 | One exchange of `next` and `send` leaves the coroutine ready for the next |
| Exploration.RunInvariant | original_zeus_python_project/zeus/_legacy/policy/optimizer.py:165-219 | In every run of the coroutine, however results turn out, it is ready: no ordering error, each considered batch size has one success per finished round |
| Exploration.OutOfTurn | original_zeus_python_project/zeus/_legacy/policy/optimizer.py:165-241 | Out of turn the coroutine raises: asked while a result is due, given a result before it started, of another batch size, or twice; after which it is finished, unless it had not started |
| Pruning.CoroutinePrunes | original_zeus_python_project/zeus/_legacy/policy/optimizer.py:177-219 | The coroutine yields in order exactly what pruning prescribes, for every feedback function, and ends with the same survivors or the same abort |
| Pruning.KeptExactly | original_zeus_python_project/zeus/_legacy/policy/optimizer.py:190-217 | A batch size survives a round exactly when it and everything between it and the default, in its direction, reached the target |
| Pruning.KeptIsSorted | original_zeus_python_project/zeus/_legacy/policy/optimizer.py:216-219 | The sorted survivors of a round are a contiguous stretch around the default |
| Pruning.AcceptedAreKept | original_zeus_python_project/zeus/_legacy/policy/optimizer.py:204-217 | The good batch sizes are the survivors, and each reached the target in this round |
| Pruning.CheapestIsKept | original_zeus_python_project/zeus/_legacy/policy/optimizer.py:206-208 | The next default is one of the survivors and none of them cost less |
| Pruning.PruneGuarantees | original_zeus_python_project/zeus/_legacy/policy/optimizer.py:177-219 | For all feedbacks: survivors are a contiguous stretch that reached the target in every round; at most rounds times batch sizes are explored |
| Pruning.OneRound | original_zeus_python_project/zeus/_legacy/policy/optimizer.py:177-217 | One round tries downwards from the default, then upwards, each up to the first failure |
| ExploreManager.PruningExploreManager.constructor | original_zeus_python_project/zeus/_legacy/policy/optimizer.py:137-163 | Before its first step the generator expects the default |
| ExploreManager.PruningExploreManager.BeginRound | original_zeus_python_project/zeus/_legacy/policy/optimizer.py:177-196 | A new round in place: its two sorted directions, or the end, or the pruned default |
| ExploreManager.PruningExploreManager.MoveOn | original_zeus_python_project/zeus/_legacy/policy/optimizer.py:190-219 | The next batch size of the round, or the next round with the sorted good ones |
| ExploreManager.PruningExploreManager.Resume | original_zeus_python_project/zeus/_legacy/policy/optimizer.py:204-217 | A result is taken into account in place as the coroutine does |
| ExploreManager.PruningExploreManager.NextBatchSize | original_zeus_python_project/zeus/_legacy/policy/optimizer.py:221-230 | In-place `next` is the coroutine step, in every state, errors included |
| ExploreManager.PruningExploreManager.ReportBatchSizeResult | original_zeus_python_project/zeus/_legacy/policy/optimizer.py:232-241 | In-place `send` is the coroutine step, in every state, errors included |
| ServerExplorer.ReplayList | original_zeus_python_project/zeus/optimizer/batch_size/server/explorer.py:69-107 | One direction of a round: an early answer is that of the replayed coroutine, and otherwise the results are taken over as it does |
| ServerExplorer.NextBatchSize | original_zeus_python_project/zeus/optimizer/batch_size/server/explorer.py:32-125 | The nested loops over rounds, directions and trials answer as the coroutine replayed over the same history, for every history: exploration, concurrent trial, survivors or error |
| ServerExplorer.Interrupted | original_zeus_python_project/zeus/optimizer/batch_size/server/explorer.py:71-107 | At a batch size without result the answer is an exploration, a concurrent trial or the missing measurement |
| ServerExplorer.RoundCloses | original_zeus_python_project/zeus/optimizer/batch_size/server/explorer.py:109-125 | At the end of a round: abort if nothing converged, the sorted survivors after the last, otherwise the next round from the cheapest |
| ServerRefinement.ServerAnswersAsCoroutine | original_zeus_python_project/zeus/optimizer/batch_size/server/explorer.py:55-125 | On a history recorded from a run of the coroutine the server explores what the coroutine yields next, or starts a concurrent trial while a result is due |
| ServerRefinement.ReplayReaches | original_zeus_python_project/zeus/optimizer/batch_size/server/explorer.py:58-107 | Replaying a history passes through every state of the run it records |
| ServerRefinement.EventTracks | original_zeus_python_project/zeus/optimizer/batch_size/server/explorer.py:71-107 | Requests, results and failed trials, also stray ones, keep the history a record of some run of the coroutine |
| ServerRefinement.ServerRefines | original_zeus_python_project/zeus/optimizer/batch_size/server/explorer.py:55-125 | Over every sequence of events the server is the coroutine fed with the results so far |
| LoggedRuns.DriveFollows | original_zeus_python_project/zeus/_legacy/policy/optimizer.py:177-219 | Fed by a feedback function the coroutine yields the prescribed exploration sequence |
| LoggedRuns.EndIsPruned | original_zeus_python_project/zeus/_legacy/policy/optimizer.py:177-219 | A coroutine that has nothing more to yield tried and kept exactly what pruning does with the results it was sent, however they came about |
| ServerRefinement.ServerPrunes | original_zeus_python_project/zeus/optimizer/batch_size/server/explorer.py:55-125 | For every feedback function, a server fed nothing but its own requests and their results answers the n-th request with the n-th exploration pruning prescribes, and every later one with its survivors or abort |
| BatchSizeOptimizer.GetHistoryForBs | original_zeus_python_project/zeus/_legacy/policy/optimizer.py:371-382 | Collected backwards until the window is full, the rewards are the latest `window_size` of the batch size, oldest first; all of them for a window below one |
| BatchSizeOptimizer.PullsColdFirst | original_zeus_python_project/zeus/_legacy/policy/mab.py:127-133 | While some arm lacks observations the bandit pulls the first such arm in its random order |
| BatchSizeOptimizer.PullsTheBest | original_zeus_python_project/zeus/_legacy/policy/mab.py:135-143 | Otherwise it pulls the first arm of greatest sampled reward, where a posterior of infinite precision samples its mean |
| BatchSizeOptimizer.PredictKeeps | original_zeus_python_project/zeus/_legacy/policy/optimizer.py:300-315 | Asked while no result is due, the optimizer stays consistent and names what the coroutine yields or, once there is a bandit, an arm of greatest sampled reward: its exploration phase never recurs. The arms are all that the coroutine returned and never change. Its only errors are that the default was pruned, exactly when the coroutine raises that, that nothing survived, exactly when the coroutine returns nothing, or that a window of one shows too few observations |
| BatchSizeOptimizer.ArmsArePruned | original_zeus_python_project/zeus/_legacy/policy/optimizer.py:384-409 | The arms of the bandit are exactly the batch sizes that pruning keeps with the results passed on, which are those of exactly the batch sizes it tries |
| BatchSizeOptimizer.CertainPull | original_zeus_python_project/zeus/_legacy/policy/mab.py:135-160 | Where each arm has only ever cost the same, the bandit pulls an arm of greatest mean reward, whatever is drawn |
| BatchSizeOptimizer.WindowDecides | original_zeus_python_project/zeus/_legacy/policy/optimizer.py:402-405 | The assertion on two observations per arm fails exactly for a window of one |
| BatchSizeOptimizer.SurvivorsObserved | original_zeus_python_project/zeus/_legacy/policy/optimizer.py:402-405 | Every survivor has one successful observation per round in the history |
| BatchSizeOptimizer.LearnedTracks | original_zeus_python_project/zeus/_legacy/policy/optimizer.py:402-409 | When the bandit is built, every arm has two observations in its window and holds the precision and posterior fitted on exactly those |
| BatchSizeOptimizer.ObserveKeeps | original_zeus_python_project/zeus/_legacy/policy/optimizer.py:317-369 | With concurrent jobs, observed in any order: exactly the result the coroutine awaits is passed on, no ordering error is possible, the arms stay, and history gets the negated cost |
| BatchSizeOptimizer.ObserveInTurn | original_zeus_python_project/zeus/_legacy/policy/optimizer.py:339-354 | Without concurrency every result is passed on while pruning lasts: the awaited one is taken, another batch size raises, and so does one that comes too early |
| BatchSizeOptimizer.ObservingTracks | original_zeus_python_project/zeus/_legacy/policy/optimizer.py:322-337 | A later observation refits its arm on its windowed rewards; every other arm still is the refit of its own |
| BatchSizeOptimizer.RegisterOk | original_zeus_python_project/zeus/_legacy/policy/optimizer.py:286-296 | A registered job is consistent from the start |
| BatchSizeOptimizer.FirstIsDefault | original_zeus_python_project/zeus/_legacy/policy/optimizer.py:182-195 | The first batch size tried is the default of the job |
| BatchSizeOptimizer.PruningGTSBatchSizeOptimizer.constructor | original_zeus_python_project/zeus/_legacy/policy/optimizer.py:286-298 | The registered state |
| BatchSizeOptimizer.PruningGTSBatchSizeOptimizer.ConstructMab | original_zeus_python_project/zeus/_legacy/policy/optimizer.py:384-409 | In place: arms are the survivors, each with reward precision and posterior learned from its window, unless none is left or one has fewer than two observations in its window; then nothing changes |
| BatchSizeOptimizer.PruningGTSBatchSizeOptimizer.Predict | original_zeus_python_project/zeus/_legacy/policy/optimizer.py:300-315 | In place: pruning while it lasts, then the bandit, built once |
| BatchSizeOptimizer.PruningGTSBatchSizeOptimizer.Observe | original_zeus_python_project/zeus/_legacy/policy/optimizer.py:317-369 | In place: history first, then the refit of the observed arm or the coroutine, the latter only for the expected batch size when concurrent |
| JitPowerLimit.Cheapest | original_zeus_python_project/zeus/_legacy/policy/optimizer.py:440-443 | The remembered limit was tried and none tried cost less |
| JitPowerLimit.CheapestOfMore | original_zeus_python_project/zeus/_legacy/policy/optimizer.py:440-443 | A new trial replaces the remembered limit exactly when it costs strictly less |
| JitPowerLimit.JITPowerLimitOptimizer.constructor | original_zeus_python_project/zeus/_legacy/policy/optimizer.py:415-421 | Nothing is known at first |
| JitPowerLimit.JITPowerLimitOptimizer.Predict | original_zeus_python_project/zeus/_legacy/policy/optimizer.py:428-435 | The first cheapest of the limits tried for the batch size, or nothing |
| JitPowerLimit.JITPowerLimitOptimizer.Observe | original_zeus_python_project/zeus/_legacy/policy/optimizer.py:437-443 | A trial is remembered for its own batch size only |
| Simulator.LaunchIsSafe | original_zeus_python_project/zeus/_legacy/simulate.py:426-482 | A launch keeps the protocol: `predict` is called only with nothing in flight, then the coroutine awaits nothing; concurrent jobs use the best known batch size, which is profiled |
| Simulator.FinishIsSafe | original_zeus_python_project/zeus/_legacy/simulate.py:333-358 | Jobs finish in any order: whenever the coroutine awaits a result, a job in flight carries exactly that batch size, and no ordering error occurs |
| Simulator.ReapIsSafe | original_zeus_python_project/zeus/_legacy/simulate.py:320-424 | Reaping a job, with its retry, keeps the protocol |
| Simulator.LaunchBalances | original_zeus_python_project/zeus/_legacy/simulate.py:470-482 | Conservation: a launch adds one job in flight and one launch, and nothing else |
| Simulator.FinishBalances | original_zeus_python_project/zeus/_legacy/simulate.py:332-358 | Conservation: a finished job moves from in flight to observed; a failed one owes a retry |
| Simulator.FinishRecords | original_zeus_python_project/zeus/_legacy/simulate.py:338-358 | `min_cost` and `best_bs` stay the least cost reached and its first batch size, or the default; the history gets the scaled entry of a job that ran |
| Simulator.HistoryCounts | original_zeus_python_project/zeus/_legacy/simulate.py:340-350 | The history holds one reached entry per observed job that reached its target |
| Simulator.ReapIsCausal | original_zeus_python_project/zeus/_legacy/simulate.py:320-424 | Results are observed in non-decreasing order of end times, retries included |
| Simulator.RetryHasOneLess | original_zeus_python_project/zeus/_legacy/simulate.py:406-417 | A retry keeps the duration, so it has one due repetition less than its predecessor |
| Simulator.ReapShape | original_zeus_python_project/zeus/_legacy/simulate.py:320-424 | Reaping removes the first job to end and, if it failed, appends its retry |
| Simulator.ReapLowersDueWork | original_zeus_python_project/zeus/_legacy/simulate.py:312-424 | With positive durations every reaped job lowers the work due by the current time, whatever fails |
| Simulator.ReapLowersMeasure | original_zeus_python_project/zeus/_legacy/simulate.py:312-424 | With jobs that end no earlier than they start, reaping up to a time lowers the work due by then or, keeping it, the number of jobs in flight, unless a failed job of no duration is due |
| Simulator.FailureWithinHorizon | original_zeus_python_project/zeus/_legacy/simulate.py:495-607 | A failed job in flight means a success is still to come |
| Simulator.ReapKeeps | original_zeus_python_project/zeus/_legacy/simulate.py:320-424 | Reaping keeps protocol, conservation, records and causality, or ends with an expected fault |
| Simulator.SubmitKeeps | original_zeus_python_project/zeus/_legacy/simulate.py:426-482 | Submitting a row that ends no earlier than it starts keeps protocol, conservation, records and causality |
| Simulator.BeginsSound | original_zeus_python_project/zeus/_legacy/simulate.py:258-298 | Protocol, conservation, records and causality hold before the first row |
| Simulator.DrainedExactly | original_zeus_python_project/zeus/_legacy/simulate.py:495-607 | A drained simulation has launched exactly as many jobs as it takes to see one success per row |
| Simulator.DrainsIfEnough | original_zeus_python_project/zeus/_legacy/simulate.py:489-607 | Draining ends, with nothing in flight or with an expected fault, as soon as the oracle holds a success for every row |
| Simulator.DrainsExactlyWhen | original_zeus_python_project/zeus/_legacy/simulate.py:489-607 | Draining ends exactly when there is a success for every row, unless a fault ends it |
| Simulator.EndsUnlessStuck | original_zeus_python_project/zeus/_legacy/simulate.py:312-424 | Reaping up to a time ends, whatever the jobs yield, unless a failed job of no duration is due |
| Simulator.NoDurationNeverEnds | original_zeus_python_project/zeus/_legacy/simulate.py:312-424 | A job of no duration that keeps failing is due for ever |
| Simulator.ReapingEndsExactlyWhen | original_zeus_python_project/zeus/_legacy/simulate.py:312-424 | Reaping up to a time ends under every oracle if and only if no failed job of no duration is due, provided no fault comes while everything fails |
| Simulator.FaultlessEndsExactlyWhen | original_zeus_python_project/zeus/_legacy/simulate.py:312-424 | The same without proviso once there is a bandit, or with two failing jobs in flight: then no fault can come |
| Simulator.BanditReapsOn | original_zeus_python_project/zeus/_legacy/simulate.py:312-424 | Once there is a bandit reaping never fails, whatever the jobs yield |
| Simulator.CompanySpins | original_zeus_python_project/zeus/_legacy/simulate.py:312-424 | With two failing jobs in flight the optimizer is not asked and there is no fault: a stuck simulation spins for ever |
| Simulator.SoundAlways | original_zeus_python_project/zeus/_legacy/simulate.py:207-609 | Every run of submissions and reaps keeps protocol, conservation, records and causality |
| Simulator.RunsAreSound | original_zeus_python_project/zeus/_legacy/simulate.py:207-609 | In every state of every run from the start: the awaited result is carried by a job in flight; rows are in flight or done, launches in flight or observed; results come in order of time; history, least cost and best batch size are those of the results; every arm of the bandit is the refit of its window |
| SimulatedRuns.EveryStepDoes | original_zeus_python_project/zeus/_legacy/simulate.py:301-482 | In every run: a job launched while others are in flight has the batch size of the first cheapest job observed to have reached, or the default; any other that which the coroutine yields or the bandit pulls. Each has the first cheapest limit of its batch size and costs eta times energy plus the rest times maximum power times time. The first of the jobs that end first is observed, and retried from its end for as long if it failed |
| SimulatedRuns.EveryRunRecords | original_zeus_python_project/zeus/_legacy/simulate.py:207-609 | In every state of every run: the history has one entry for each job observed that ran or reached, in order, with its knobs, energy and time scaled by its ratio; the best batch size is that of the first cheapest reached; the optimizer was told batch size and negated cost of each job observed, and the coroutine results of those; the arms are exactly what pruning keeps with these |
| SimulatedRuns.ArmsStay | original_zeus_python_project/zeus/_legacy/simulate.py:207-609 | Once there is a bandit its arms stay the same for the rest of the run |
| Simulator.RunsFailAsExpected | original_zeus_python_project/zeus/_legacy/simulate.py:207-609 | In every state of every run the next action fails, if at all, because everything was pruned or the window is one |
| Simulation.ScanFinds | original_zeus_python_project/zeus/_legacy/simulate.py:317-323 | The scan of the sorted copy meets the jobs in the order in which they end, and removes the right one from the list |
| Simulation.ScanSkips | original_zeus_python_project/zeus/_legacy/simulate.py:320-323 | A job that is not due is skipped |
| Simulation.GroupSimulation.constructor | original_zeus_python_project/zeus/_legacy/simulate.py:241-298 | The state before the first row |
| Simulation.GroupSimulation.ProfilePower | original_zeus_python_project/zeus/_legacy/simulate.py:447-454 | Profiling leaves the first cheapest limit of the batch size known |
| Simulation.GroupSimulation.Launch | original_zeus_python_project/zeus/_legacy/simulate.py:426-482 | In-place launch: best known knobs with jobs in flight, predicted ones otherwise |
| Simulation.GroupSimulation.FinishJob | original_zeus_python_project/zeus/_legacy/simulate.py:332-358 | In place: removed, observed, recorded |
| Simulation.GroupSimulation.FinishAndRetry | original_zeus_python_project/zeus/_legacy/simulate.py:332-424 | In place: the first job to end, and its retry if it failed |
| Simulation.GroupSimulation.ReapFinished | original_zeus_python_project/zeus/_legacy/simulate.py:312-424 | The nested loops over the sorted copy, with the break after a retry, end and reap every due job in order, at a finite time or at infinity |
| Simulation.SimulateOneAlibabaGroup | original_zeus_python_project/zeus/_legacy/simulate.py:207-609 | For sorted rows that end no earlier than they start and an oracle with enough successes: what was carried out is a run that submits exactly the rows, each after all that ends by its start was reaped; nothing in flight at the end, one history entry for each job that ran, one of them reached per row, `min_cost` and `best_bs` those of the first cheapest, results observed in order of time. Otherwise such a run of some first rows is met by an expected fault at the next row or job. A default outside of the batch sizes is rejected |
| RunJob.MaxPower | original_zeus_python_project/zeus/_legacy/simulate.py:678 | The greatest power limit of the rows |
| RunJob.Of | original_zeus_python_project/zeus/_legacy/simulate.py:661 | Exactly the rows of the batch size |
| RunJob.FloorFits | original_zeus_python_project/zeus/_legacy/simulate.py:680 | Division rounded down is the number of whole epochs within the bound |
| RunJob.StopsJustInTime | original_zeus_python_project/zeus/_legacy/simulate.py:665-738 | The epochs run fit into the bound; a run stopped by cost would exceed it with one more; the target is reached exactly when its epochs fit and are allowed |
| RunJob.CostOfRun | original_zeus_python_project/zeus/_legacy/simulate.py:695-738 | The cost of an unprofiled run is the epochs run times the cost of one |
| RunJob.NeverOverspendsExactlyWhen | original_zeus_python_project/zeus/_legacy/simulate.py:674-680 | No bound is ever exceeded if and only if the batch size was traced at the greatest power limit of the whole trace or eta is one |
| RunJob.ProfilingOverspendsBy | original_zeus_python_project/zeus/_legacy/simulate.py:699-711 | A profiling run exceeds its bound by no more than its first epoch costs more than a regular one |
| RunJob.ProfilingNeverOverspendsExactlyWhen | original_zeus_python_project/zeus/_legacy/simulate.py:674-711 | Over all bounds a profiling run never overspends if and only if its first epoch, the mean of all limits, costs no more than the cost per epoch; off the greatest limit of the trace also only if the target comes before the overcharge of the later epochs exceeds what the first saved |
| RunJob.ProfilingCanOverspend | original_zeus_python_project/zeus/_legacy/simulate.py:699-711 | Two limits at energies 10 and 1: a profiling run with bound 1 costs 5.5 |
| RunJob.NeverRunsExactlyWhen | original_zeus_python_project/zeus/_legacy/simulate.py:686-693 | A run is skipped exactly when not even one epoch fits into a finite bound |
| RunJob.RanEntry | original_zeus_python_project/zeus/_legacy/simulate.py:153-179 | A recorded run has the hybrid cost of its energy and time, ran under the current bound, and kept to it if unprofiled and traced at full power |
| RunJob.LeastOfIsLeast | original_zeus_python_project/zeus/_legacy/simulate.py:186-189 | The running minimum is the least of the accumulated costs |
| RunJob.RecurredKeeps | original_zeus_python_project/zeus/_legacy/simulate.py:133-199 | A finished recurrence adds one accumulated cost, ends in a run that reached, and took at most twenty tries |
| RunJob.SimulationKeeps | original_zeus_python_project/zeus/_legacy/simulate.py:128-199 | Over all recurrences: each run was bounded by beta times the running minimum of the accumulated recurrence costs, one run reached per recurrence, and what was spent adds up to the recurrence costs |
| RunJob.SimulationTells | original_zeus_python_project/zeus/_legacy/simulate.py:128-199 | Over all recurrences the optimizer is told batch size, cost and success of every recorded run, in order, and otherwise only of attempts that never ran, as failed, at a hundred times beta times the least cost of the recurrences finished before; a run is profiled exactly when its batch size was not tried before |
| RunJob.EntryTells | original_zeus_python_project/zeus/_legacy/simulate.py:153-179 | A recorded run is of the row chosen and uses the energy and time of its epochs, the first being the mean of all limits when it is profiled |
| RunJob.RecurredEndsRightly | original_zeus_python_project/zeus/_legacy/simulate.py:133-199 | A recurrence succeeds with the first attempt that reaches; it raises after its tries exactly if none does, and in the first recurrence if a run fails |
| RunJob.FirstRecurrenceIsOneTry | original_zeus_python_project/zeus/_legacy/simulate.py:191-195 | The first recurrence reaches in its first run or the simulation raises |
| RunJob.SimulateOneJob | original_zeus_python_project/zeus/_legacy/simulate.py:82-205 | The nested loops with their twenty tries compute exactly the recurrences the invariants are about, errors included |
| Posterior.TotalPermuted | original_zeus_python_project/zeus/_legacy/policy/mab.py:116 | Sums do not depend on the order of the rewards |
| Posterior.InfiniteExactlyWhenAllEqual | original_zeus_python_project/zeus/_legacy/policy/optimizer.py:117-124 | The learned precision is infinite exactly when all rewards are equal, and positive otherwise |
| Posterior.VarianceIs | original_zeus_python_project/zeus/_legacy/policy/optimizer.py:117-119 | Number times variance is the sum of squares less number times squared mean |
| Posterior.FitSplits | original_zeus_python_project/zeus/_legacy/policy/mab.py:84-121 | Fitting a split of the rewards in two steps equals fitting them at once |
| Posterior.IncrementalIsBatch | original_zeus_python_project/zeus/_legacy/policy/mab.py:84-121 | For positive finite reward precision any number of batches in any order equals one fit of all rewards |
| Posterior.FitPermuted | original_zeus_python_project/zeus/_legacy/policy/mab.py:98-121 | A fit does not depend on the order of the rewards |
| Posterior.LearnedPermuted | original_zeus_python_project/zeus/_legacy/policy/optimizer.py:117-124 | The learned precision does not depend on the order of the rewards |
| Posterior.PosteriorIsConjugate | original_zeus_python_project/zeus/_legacy/policy/mab.py:114-121 | The posterior mean minimises the weighted squared deviations from prior mean and rewards, and the posterior precision is their curvature, which fixes both |
| Posterior.InfinitePrecisionForgets | original_zeus_python_project/zeus/_legacy/policy/mab.py:111-113 | With infinite precision incremental and batch fit agree exactly when the means do |
| Posterior.RefitIsDefined | original_zeus_python_project/zeus/optimizer/batch_size/server/mab.py:67-96 | A refit on at least one reward has a posterior that counts all of them |
| Posterior.RefitPermuted | original_zeus_python_project/zeus/optimizer/batch_size/server/mab.py:67-96 | A refit does not depend on the order of the rewards |
| Posterior.RefitIs | original_zeus_python_project/zeus/optimizer/batch_size/server/mab.py:67-96 | A refit in terms of number, mean and variance of the rewards: the mean itself at infinite precision when they do not vary, otherwise the mean weighed against the prior by number over variance |
| Posterior.PosteriorsAgreeExactlyWhen | original_zeus_python_project/zeus/optimizer/batch_size/server/mab.py:67-96 | Two refits have the same mean and precision exactly when the mean rewards are the same and the variances are in the ratio of the numbers |
| GaussianBandit.WindowsAgree | original_zeus_python_project/zeus/optimizer/batch_size/server/mab.py:244-257 | The rewards the server refits on are the latest `window_size` with the current one, as the legacy optimizer takes them, as a multiset |
| GaussianBandit.Report | original_zeus_python_project/zeus/optimizer/batch_size/server/mab.py:223-266 | Popping the oldest and reversing, or not, the server ends with the refit of the legacy window |
| GaussianBandit.BuiltArmsAgreeExactlyWhen | original_zeus_python_project/zeus/optimizer/batch_size/server/mab.py:193-217 | Arms built from the window and from all explorations, with their number of observations, agree exactly when nothing falls outside of the window |
| GaussianBandit.BuiltPosteriorsAgreeExactlyWhen | original_zeus_python_project/zeus/optimizer/batch_size/server/mab.py:193-217 | Their means and precisions agree exactly when window and whole have the same mean and variances in the ratio of their lengths |
| GaussianBandit.RegisteredTracks | original_zeus_python_project/zeus/_legacy/policy/optimizer.py:65-83 | A new job has every arm at its prior, the refit of an empty history |
| GaussianBandit.ObservingTracks | original_zeus_python_project/zeus/_legacy/policy/optimizer.py:94-128 | An observation keeps every arm equal to one fit of its whole history, whether precisions are learned or fixed, and counts for its own arm only |
| GaussianBandit.TracksAlways | original_zeus_python_project/zeus/_legacy/policy/optimizer.py:94-128 | Over every run of observations each arm is the refit of its history |
| GaussianBandit.HistoriesGrow | original_zeus_python_project/zeus/_legacy/policy/optimizer.py:94-103 | Over every run of observations the history of each batch size grows by the negated costs observed for it, in order |
| GaussianBandit.ExplorationLowersDeficit | original_zeus_python_project/zeus/_legacy/policy/mab.py:123-133 | Each trial of an under-explored arm lowers the trials still missing by exactly one |
| GaussianBandit.DeficitIsZero | original_zeus_python_project/zeus/_legacy/policy/mab.py:127-133 | Nothing is missing exactly when every arm has its observations |
| GaussianBandit.GaussianTS.constructor | original_zeus_python_project/zeus/_legacy/policy/mab.py:17-62 | All arms start at the prior with no observation, with one reward precision for all or with those of a list, in order |
| GaussianBandit.GaussianTS.FitArm | original_zeus_python_project/zeus/_legacy/policy/mab.py:84-121 | One arm is updated in place to its posterior, the others are left alone |
| GaussianBandit.GaussianTS.FitEvery | original_zeus_python_project/zeus/_legacy/policy/mab.py:64-82 | Every arm is fitted on exactly its own observations |
| GaussianBandit.GaussianTS.Predict | original_zeus_python_project/zeus/_legacy/policy/mab.py:123-143 | Some under-explored arm as long as there is one, whatever the random order; otherwise an arm of greatest sample |
| GaussianBandit.GTSBatchSizeOptimizer.constructor | original_zeus_python_project/zeus/_legacy/policy/optimizer.py:65-83 | The registered state, with the reward precision passed in, one for all arms or a list in order |
| GaussianBandit.GTSBatchSizeOptimizer.Observe | original_zeus_python_project/zeus/_legacy/policy/optimizer.py:94-128 | In place: history, then incremental fit or relearned precision and refit; an unknown batch size changes nothing |
| PowerLimit.PowerLimits | original_zeus_python_project/zeus/optimizer/power_limit.py:284 | From the maximum down in equal steps, stopping where the next would fall below the minimum; empty only if the range is |
| PowerLimit.LimitsDescend | original_zeus_python_project/zeus/optimizer/power_limit.py:284 | The limits strictly descend from the maximum |
| PowerLimit.MeasuredKeeps | original_zeus_python_project/zeus/optimizer/power_limit.py:390-428 | A finished measurement is recorded for the next limit of the list with its energy and time; the machine goes on to the one after it, or is done after the last |
| PowerLimit.StepKeeps | original_zeus_python_project/zeus/optimizer/power_limit.py:360-431 | A step keeps the run invariant |
| PowerLimit.EpochKeeps | original_zeus_python_project/zeus/optimizer/power_limit.py:337-358 | An epoch end keeps it |
| PowerLimit.InvAlways | original_zeus_python_project/zeus/optimizer/power_limit.py:337-431 | Under every interleaving of steps and epoch ends: measured limits are a prefix of the descending list, the state holds the next, a window is open exactly while profiling it, the applied limit fits the state and, when done, is the one the selector chose from all measurements |
| PowerLimit.LoadedIsSaved | original_zeus_python_project/zeus/optimizer/power_limit.py:312-332 | A profile that is loaded applies, in milliwatts, the limit the selector chose among those saved in watts, and is done |
| PowerLimit.MeasurementsOnlyGrow | original_zeus_python_project/zeus/optimizer/power_limit.py:401-407 | No measurement is lost or changed |
| PowerLimit.Uninterrupted | original_zeus_python_project/zeus/optimizer/power_limit.py:360-431 | After t uninterrupted steps limit and phase are t minus the wait divided by warmup plus profile |
| PowerLimit.DoneExactlyAfter | original_zeus_python_project/zeus/optimizer/power_limit.py:360-431 | An uninterrupted run is done exactly from step wait + 1 + n(warmup + profile) on |
| PowerLimit.EpochProgress | original_zeus_python_project/zeus/optimizer/power_limit.py:337-431 | An epoch of L steps completes min(remaining, (L - wait) / (warmup + profile)) limits, rounded down |
| PowerLimit.EpochsProgress | original_zeus_python_project/zeus/optimizer/power_limit.py:337-431 | From any waiting on, over any epochs, the measured limits are the sum of what each has room for after the waiting left to it, up to all |
| PowerLimit.EpochsFromBegin | original_zeus_python_project/zeus/optimizer/power_limit.py:296-431 | So for a fresh profiler, which still waits wait + 1 steps |
| PowerLimit.StarvesExactlyWhenShort | original_zeus_python_project/zeus/optimizer/power_limit.py:342-355 | Epochs never get a limit measured exactly when none is as long as the waiting left to it plus warmup and profile |
| PowerLimit.ShortEpochsStarve | original_zeus_python_project/zeus/optimizer/power_limit.py:342-355 | Epochs of at most warmup plus profile never let a fresh profiler measure anything, for every initial wait |
| PowerLimit.GlobalPowerLimitOptimizer.constructor | original_zeus_python_project/zeus/optimizer/power_limit.py:296-332 | The maximum is applied first, or the optimum of a saved profile |
| PowerLimit.GlobalPowerLimitOptimizer.SetPowerLimit | original_zeus_python_project/zeus/optimizer/power_limit.py:433-445 | The limit is applied |
| PowerLimit.GlobalPowerLimitOptimizer.OnEpochEnd | original_zeus_python_project/zeus/optimizer/power_limit.py:337-358 | In place: back to Ready at the maximum, its window cancelled |
| PowerLimit.GlobalPowerLimitOptimizer.OnStepBegin | original_zeus_python_project/zeus/optimizer/power_limit.py:360-431 | In place: one step of the machine |
| OptimumSelectors.SelectEnergy | original_zeus_python_project/zeus/optimizer/power_limit.py:54-56 | The limit of the first measurement of least energy |
| OptimumSelectors.SelectTime | original_zeus_python_project/zeus/optimizer/power_limit.py:68-70 | The limit of the first measurement of least time |
| OptimumSelectors.SelectorsSelect | original_zeus_python_project/zeus/optimizer/power_limit.py:35-133 | Each of the four selectors picks a measured limit, as the profiler needs it, from any measurements of non-negative time |
| OptimumSelectors.SelectZeusCost | original_zeus_python_project/zeus/optimizer/power_limit.py:94-106 | The limit of the first measurement whose limit is cheapest, each limit at the cost of its last measurement and the greatest power; ties go to the limit measured first |
| OptimumSelectors.SelectMaxSlowdown | original_zeus_python_project/zeus/optimizer/power_limit.py:125-133 | The lowest limit with a measurement no slower than the factor times the first one at the greatest limit; there is one |
| OptimumSelectors.LastCostIs | original_zeus_python_project/zeus/optimizer/power_limit.py:98-104 | The cost kept for a limit is that of its last measurement |
| OptimumSelectors.MaxPowerIsMost | original_zeus_python_project/zeus/optimizer/power_limit.py:96-97 | The maximum power is the greatest limit measured on all devices |
| CarbonProtocol.SpawnsExactlyWhenNeeded | original_zeus_python_project/zeus/monitor/carbon.py:282-294 | A process is spawned exactly when none is going to take another command |
| CarbonProtocol.BeginKeeps | original_zeus_python_project/zeus/monitor/carbon.py:263-297 | Opening a window keeps the invariant, with or without a new process |
| CarbonProtocol.EndKeeps | original_zeus_python_project/zeus/monitor/carbon.py:299-320 | Asking for the end of a window keeps the invariant |
| CarbonProtocol.ReceiveKeeps | original_zeus_python_project/zeus/monitor/carbon.py:316-321 | The answer received is that of the key asked for |
| CarbonProtocol.TakeKeeps | original_zeus_python_project/zeus/monitor/carbon.py:400-427 | Only the newest process takes a command, it can carry it out, and it stops taking more only after an END that leaves it no key and was the last command |
| CarbonProtocol.SettleKeeps | original_zeus_python_project/zeus/monitor/carbon.py:424-427 | A process that has answered goes on with the keys left, and the newest leaves only with an empty queue |
| CarbonProtocol.StepKeeps | original_zeus_python_project/zeus/monitor/carbon.py:263-427 | Every step of client or process keeps the invariant |
| CarbonProtocol.ProtocolHolds | original_zeus_python_project/zeus/monitor/carbon.py:263-427 | In every run: no process fails, at most one takes commands, the queued commands applied to its keys give the keys of the client, each END gets its own answer |
| CarbonProtocol.ClientSees | original_zeus_python_project/zeus/monitor/carbon.py:263-327 | After every run, told by the steps alone: a window is open exactly when it was begun and its end not received since, and the ends received are exactly those asked for, in order, each with its own answer |
| CarbonProtocol.BeginOpens | original_zeus_python_project/zeus/monitor/carbon.py:274-297 | Beginning a new window queues its command for a process that will have exactly the windows of the client, a new process if none takes commands |
| CarbonProtocol.EndAsks | original_zeus_python_project/zeus/monitor/carbon.py:299-320 | Ending an open window queues its command and waits; ending any other is rejected |
| CarbonProtocol.AnswerComes | original_zeus_python_project/zeus/monitor/carbon.py:314-321 | A waiting client is answered: a step towards it is always possible and shortens what is left |
| CarbonProtocol.WaitingKeeps | original_zeus_python_project/zeus/monitor/carbon.py:314-321 | While no answer is there no step changes what the client waits for or sets the answer back, and every command taken and every step of the newest process brings it closer |
| CarbonProtocol.WaitIsBounded | original_zeus_python_project/zeus/monitor/carbon.py:314-321 | In every interleaving the answer is there once commands taken and steps of the newest process number as many as the distance, so every fair run answers |
| CarbonLedger.CloseKeeps | original_zeus_python_project/zeus/monitor/carbon.py:363-375 | Cutting a window at a new hour keeps its accounts, for any later hour |
| CarbonLedger.FlushKeeps | original_zeus_python_project/zeus/monitor/carbon.py:378-392 | Flushing moves pending energy into carbon, nothing lost or counted twice |
| CarbonLedger.EmissionPerKilowattHour | original_zeus_python_project/zeus/monitor/carbon.py:381-390 | Intensities count per kilowatt-hour of energy in joules |
| CarbonLedger.AddHoursAdds | original_zeus_python_project/zeus/monitor/carbon.py:381-390 | A flush adds each pending energy at the intensity of its hour |
| CarbonLedger.EnergyTelescopes | original_zeus_python_project/zeus/monitor/carbon.py:401-441 | The energies of the sub-windows add up to the meter difference of the window |
| CarbonLedger.LooksUpExactlyWhen | original_zeus_python_project/zeus/monitor/carbon.py:378-392 | What a flush looks up lies within the history exactly when the oldest pending hour does |
| CarbonLedger.EndReports | original_zeus_python_project/zeus/monitor/carbon.py:413-424 | An END reports for every device the energy of each sub-window times the intensity of its hour, over the whole window; it finds every hour it looks up exactly when its oldest pending hour is after the current one less the history |
| CarbonLedger.AnswersExactlyWhenAllClasses | original_zeus_python_project/zeus/monitor/carbon.py:417-423 | The answer can be put exactly when every device class has been read |
| CarbonLedger.HourKeeps | original_zeus_python_project/zeus/monitor/carbon.py:438-448 | In any later hour, the next one or not, all accounts hold and sub-windows stay chained |
| CarbonLedger.SameHourForgets | original_zeus_python_project/zeus/monitor/carbon.py:366-367 | Cut twice in one hour, a window forgets the first cut, and its accounts hold if and only if that emitted nothing |
| CarbonLedger.RunConserves | original_zeus_python_project/zeus/monitor/carbon.py:394-448 | Over every run of windows and hours, skipped ones or not: ending a window reports its meter difference, each part at the intensity of its hour, and finds those hours exactly when the oldest is within the history |
| CarbonLedger.RunTells | original_zeus_python_project/zeus/monitor/carbon.py:394-448 | The sub-windows accounted for are those the events tell: one for each hour passed since the window began, of that hour and between the meters at its ends |
| CarbonLedger.RunLooksUp | original_zeus_python_project/zeus/monitor/carbon.py:438-448 | In every run nothing older than the last flush is looked up, so nothing in vain while fewer hours than the history have passed since |
| CarbonLedger.RunFindsExactlyWhen | original_zeus_python_project/zeus/monitor/carbon.py:378-448 | In every run an end or a flush finds every hour it looks up if and only if the hour the window began in, or that of the last flush, is still within the history |
| CarbonLedger.ConsecutiveLooksUp | original_zeus_python_project/zeus/monitor/carbon.py:436-448 | While no hour is skipped every lookup, at an end or at the flush, is within the history |
| CarbonLedger.SkippedHoursFail | original_zeus_python_project/zeus/monitor/carbon.py:438-448 | Loop passes are counted, not hours: a pass that skips as many hours as the history has makes a lookup fail, for every history |
| CarbonLedger.PollingProcess.constructor | original_zeus_python_project/zeus/monitor/carbon.py:345-360 | No window and no energy |
| CarbonLedger.PollingProcess.UpdateEnergyMeasurements | original_zeus_python_project/zeus/monitor/carbon.py:363-375 | In place: the energy since the last cut is stored under the hour |
| CarbonLedger.PollingProcess.UpdateCarbonEmissions | original_zeus_python_project/zeus/monitor/carbon.py:378-392 | In place: pending energy becomes carbon |
| CarbonLedger.PollingProcess.CutAll | original_zeus_python_project/zeus/monitor/carbon.py:440-441 | Every window is cut |
| CarbonLedger.PollingProcess.FlushAll | original_zeus_python_project/zeus/monitor/carbon.py:446-447 | Every window is flushed |
| CarbonLedger.PollingProcess.Begin | original_zeus_python_project/zeus/monitor/carbon.py:410-412 | A window opens at the current meters |
| CarbonLedger.PollingProcess.End | original_zeus_python_project/zeus/monitor/carbon.py:413-424 | The answer and the window gone |
| CarbonLedger.PollingProcess.NextHour | original_zeus_python_project/zeus/monitor/carbon.py:438-448 | All windows cut, and flushed when the oldest hour would leave the history |
| Rapl.CountsExactlyWhen | original_zeus_python_project/zeus/device/cpu/rapl.py:122-124 | A poll counts no more than the wraps since the last one, and all of them if and only if less than the range was consumed |
| Rapl.StepKeeps | original_zeus_python_project/zeus/device/cpu/rapl.py:109-131 | Consumption, register reads and counts of polls, and reads, interleaved in any order, keep count and register true |
| Rapl.InvAlways | original_zeus_python_project/zeus/device/cpu/rapl.py:109-131 | Over every run of these steps the count and the register stay true |
| Rapl.ReadsTrueEnergy | original_zeus_python_project/zeus/device/cpu/rapl.py:213-222 | In every run the count is the true number of wraps up to the last poll counted, and a read is the true energy plus d ranges: d is -1 or 0 if the tracker did not look at the register between the halves of the read, 0 to k if it looked and counted k times, and -2 to 0 if the whole read fell between the halves of a poll |
| Rapl.LaterReadCanBeLower | original_zeus_python_project/zeus/device/cpu/rapl.py:213-222 | The error is real: a later read can be almost a range lower |
| Rapl.DelayedCountLosesTwo | original_zeus_python_project/zeus/device/cpu/rapl.py:114-130 | A read between the halves of a poll can be two ranges short, for every range above two |
| Rapl.SleepIsShortEnough | original_zeus_python_project/zeus/device/cpu/rapl.py:116-121 | At up to 1000 W the chosen sleep lets less than a range above 1e9 microjoules pass |
| Rapl.SleepsShortExactlyWhen | original_zeus_python_project/zeus/device/cpu/rapl.py:116-121 | The sleep is a tenth of a second exactly when the counter could wrap within it, at up to 1000 W |
| Rapl.RaplWraparoundTracker.constructor | original_zeus_python_project/zeus/device/cpu/rapl.py:111-113 | The counter starts at zero with the first reading |
| Rapl.RaplWraparoundTracker.Poll | original_zeus_python_project/zeus/device/cpu/rapl.py:114-130 | In place: a wrap is counted when the register fell; the sleep is short near the range |
| Rapl.RaplWraparoundTracker.GetNumWraparounds | original_zeus_python_project/zeus/device/cpu/rapl.py:103-106 | At most the true number of wraps up to the last poll, and exactly that if and only if less than the range was consumed between any two polls |
| EventStream.FirstBreak | original_zeus_python_project/zeus/monitor/power_streaming.py:443-444 | The leftmost blank line |
| EventStream.EventsOfMore | original_zeus_python_project/zeus/monitor/power_streaming.py:441-445 | Later text changes no event already cut off |
| EventStream.CutOffIsPrefix | original_zeus_python_project/zeus/monitor/power_streaming.py:441-445 | A cut-off connection has delivered a prefix of the events |
| EventStream.EventsAreTheText | original_zeus_python_project/zeus/monitor/power_streaming.py:443-444 | Events with their blank lines and the tail are the whole text |
| EventStream.ChunkingIsIrrelevant | original_zeus_python_project/zeus/monitor/power_streaming.py:439-445 | For every partition into chunks the events are those of the whole text |
| EventStream.PayloadSurvivesExactlyWhen | original_zeus_python_project/zeus/monitor/power_streaming.py:449-451 | A one-line payload comes back exactly when it is non-empty and does not end in white space |
| EventStream.FramesAreCut | original_zeus_python_project/zeusd/src/routes/gpu.rs:328-333 | Frames are cut into one event each with nothing left |
| EventStream.DataLines | original_zeus_python_project/zeus/monitor/power_streaming.py:447-451 | Each line of an event that starts with `data: ` gives what follows as a payload, in its place, and any other line nothing |
| EventStream.UpdateKeeps | original_zeus_python_project/zeus/monitor/power_streaming.py:463-474 | A timestamp never goes back; GPU and CPU readings leave each other alone |
| EventStream.UpdateConverts | original_zeus_python_project/zeus/monitor/power_streaming.py:458-513 | Readings are the milliwatts and milliseconds of the message in watts and seconds, missing DRAM kept missing |
| EventStream.ReadingsMean | original_zeus_python_project/zeus/monitor/power_streaming.py:463-474 | Readings are the last GPU message, the last CPU message and the latest timestamp, for every interleaving |
| EventStream.InterleavingIsIrrelevant | original_zeus_python_project/zeus/monitor/power_streaming.py:463-513 | Two interleavings of the same two streams end in the same readings |
| EventStream.HandleApplies | original_zeus_python_project/zeus/monitor/power_streaming.py:447-513 | Payloads that parse are applied in order to the readings of their server only |
| EventStream.SentIsReceived | original_zeus_python_project/zeus/monitor/power_streaming.py:427-475 | For every chunking of the frames the client decodes exactly the messages sent, with an empty buffer |
| EventStream.PowerStreamingClient.constructor | original_zeus_python_project/zeus/monitor/power_streaming.py:171-176 | No readings at first |
| EventStream.PowerStreamingClient.ProcessEvent | original_zeus_python_project/zeus/monitor/power_streaming.py:447-513 | In place: the loop over lines handles the payloads of the event |
| EventStream.PowerStreamingClient.Drain | original_zeus_python_project/zeus/monitor/power_streaming.py:443-445 | Every complete event of the buffer is handled, the tail is kept |
| EventStream.PowerStreamingClient.ConnectAndStream | original_zeus_python_project/zeus/monitor/power_streaming.py:427-445 | For every chunking and stop, the readings are those of the events of the text received |
| ReplayLog.LineEnd | original_zeus_python_project/zeus/utils/testing.py:63-73 | A text-mode line ends at the first line break of either kind |
| ReplayLog.HeaderRoundTripExactlyWhen | original_zeus_python_project/zeus/utils/testing.py:67-70 | The header gives the GPU indices back exactly when there are any; without one inference raises |
| ReplayLog.FieldsOfLine | original_zeus_python_project/zeus/monitor/energy.py:423-428 | What a written line splits into, commas of the key included |
| ReplayLog.ReadsBackExactlyWhen | original_zeus_python_project/zeus/utils/testing.py:123-137 | A written line whose numbers read back comes back as its measurement exactly when there is a GPU and the key has no comma or line break |
| ReplayLog.PlainFieldsReadBack | original_zeus_python_project/zeus/utils/testing.py:123-137 | It then does so whether or not names are matched |
| ReplayLog.BrokenKeyFails | original_zeus_python_project/zeus/utils/testing.py:123-131 | A key with a line break makes the replay raise |
| ReplayLog.MonitorCallKeepsOk | original_zeus_python_project/zeus/monitor/energy.py:271-318 | Every open window holds an energy for each GPU |
| ReplayLog.EndMeasuresSinceBegin | original_zeus_python_project/zeus/monitor/energy.py:290-385 | Whatever happens to other windows in between, an ended window measures time and meter difference since its own begin |
| ReplayLog.LogOnlyGrows | original_zeus_python_project/zeus/monitor/energy.py:422-429 | The log is only appended to, one line per window ended and not cancelled |
| ReplayLog.CallReplays | original_zeus_python_project/zeus/utils/testing.py:75-141 | One call: same outcome on both sides, the line consumed exactly when one was written |
| ReplayLog.RunReplays | original_zeus_python_project/zeus/utils/testing.py:75-141 | Any sequence of calls: same outcomes on both sides, and the log consumed exactly |
| ReplayLog.ReplayUndoesLog | original_zeus_python_project/zeus/utils/testing.py:63-141 | For every run of begin, end and cancel over interleaved windows, errors included, whose logged numbers read back, the replay of its log infers the GPUs or takes them as given, has the same outcomes and consumes the log exactly |
| ReplayLog.WindowsOpenAndClose | original_zeus_python_project/zeus/monitor/energy.py:271-356 | Over every sequence of calls, told by the calls alone: a window is open exactly when it was begun and not ended since, cancelled or not; a begin succeeds exactly when it is not open, an end finds it exactly when it is, and a cancelled one reports zeros |
| ReplayLog.ReplayedWindowsOpenAndClose | original_zeus_python_project/zeus/utils/testing.py:75-141 | The same on a replay of any log, also of other calls |
| ReplayLog.OtherNames | original_zeus_python_project/zeus/utils/testing.py:127-131 | A line of another window raises where names are matched and is taken where they are not |
| ReplayLog.IndicesAreTaken | original_zeus_python_project/zeus/utils/testing.py:63-73 | GPU indices that are given are taken, whatever the header says, and the header is skipped |
| ReplayLog.LogEnds | original_zeus_python_project/zeus/utils/testing.py:123-126 | At the end of the log, ending an open window raises |
| ReplayLog.ReadingsLog | original_zeus_python_project/zeus/monitor/energy.py:290-429 | Where clock and meters show numbers closed under difference, those are all the numbers logged |
| ReplayLog.WholeNumbersQualify | original_zeus_python_project/zeus/utils/testing.py:133-137 | Whole numbers in decimal notation read back, also before a line end |
| ReplayLog.WholeNumberLogsReplay | original_zeus_python_project/zeus/utils/testing.py:63-141 | So logs of whole seconds and joules replay without any assumption on numbers |
| ReplayLog.NoGpusNeverReplays | original_zeus_python_project/zeus/utils/testing.py:67-70 | Without GPUs no log can be opened |
| ReplayLog.ZeusMonitor.constructor | original_zeus_python_project/zeus/monitor/energy.py:228-251 | No window, and a log holding the header |
| ReplayLog.ZeusMonitor.BeginWindow | original_zeus_python_project/zeus/monitor/energy.py:271-318 | In place: a new key is opened with clock and meters, a known one raises |
| ReplayLog.ZeusMonitor.EndWindow | original_zeus_python_project/zeus/monitor/energy.py:320-437 | In place: the window is popped, measured and logged, or cancelled, or raises |
| ReplayLog.ReplayZeusMonitor.constructor | original_zeus_python_project/zeus/utils/testing.py:60-73 | Open at the first line after the header |
| ReplayLog.ReplayZeusMonitor.BeginWindow | original_zeus_python_project/zeus/utils/testing.py:75-93 | In place: the key is pushed, or raises |
| ReplayLog.ReplayZeusMonitor.EndWindow | original_zeus_python_project/zeus/utils/testing.py:95-141 | In place: the key is removed and the next line read, or cancelled, or raises |
| Text.DecimalRoundTrip | original_zeus_python_project/zeus/utils/testing.py:70 | Decimal numerals read back |
| Text.SplitOfJoin | original_zeus_python_project/zeus/utils/testing.py:127 | Joining and splitting at a separator the parts do not hold gives them back |
| Text.JoinOfSplit | original_zeus_python_project/zeus/utils/testing.py:127 | Splitting and joining gives the text back, and no part holds the separator |
| PolledEnergy.EnergyPermuted | device/gpu_nvidia.h:418-442 | The energy does not depend on the order of the sample log |
| PolledEnergy.OthersIgnored | device/gpu_nvidia.h:423-431 | Samples of another GPU or outside of the window change nothing |
| PolledEnergy.OwnCounted | device/gpu_nvidia.h:423-431 | Every sample of the GPU in the closed window counts, with its own time and power |
| PolledEnergy.EnergyBounds | device/gpu_nvidia.h:434-441 | It lies between least and greatest sampled power times the sampled span |
| PolledEnergy.ExactForLinearPower | device/gpu_nvidia.h:434-441 | For power linear in time the energy is the exact integral over the sampled span |
| PolledEnergy.TimelinesAreEnds | device/gpu_nvidia.h:423-433 | The sorted samples of adjacent windows are the two ends of those of the whole, sharing the common bound |
| PolledEnergy.WindowsAdd | device/gpu_nvidia.h:418-442 | Adjacent windows fall short of the whole by exactly the trapezoid that straddles their bound |
| PolledEnergy.AdditiveExactlyWhen | device/gpu_nvidia.h:418-442 | They are additive exactly when a sample lies at the bound or one side has none |
| PolledEnergy.FallsBackExactlyWhen | device/gpu_nvidia.h:292-301 | Instant power times elapsed time is reported exactly when all samples of the window are of one moment, and otherwise the sampled energy |
| PolledEnergy.Polled | device/gpu_nvidia.h:387-397 | A poll logs the positive power of every GPU without counter, and nothing else |
| PolledEnergy.NvidiaGpus.constructor | device/gpu_nvidia.h:346-358 | The log starts empty |
| PolledEnergy.NvidiaGpus.Poll | device/gpu_nvidia.h:385-400 | In place: the poll is appended to the log |
| PolledEnergy.NvidiaGpus.ComputeEnergyFromSamples | device/gpu_nvidia.h:418-442 | Filter, sort and accumulation compute the integral; fewer than two samples give zero |
| PolledEnergy.NvidiaGpus.ComputeEnergyDelta | device/gpu_nvidia.h:292-301 | The sampled energy, or instant power times elapsed time when there is none |
| Lists.SortByIsOrdered | original_zeus_python_project/zeus/_legacy/simulate.py:320 | Sorting orders |
| Lists.SortIsStable | original_zeus_python_project/zeus/_legacy/simulate.py:320 | Elements of equal rank keep their order |
| Lists.OrderedIsUnique | device/gpu_nvidia.h:433 | An order decides how a bag of values is listed |
| Lists.FirstLeastIsLeast | original_zeus_python_project/zeus/optimizer/power_limit.py:56 | The first of the least elements, as `min` picks it |

## Left out

- Floating-point rounding, NaN and number formatting: reals are exact; of number text it is assumed that the numbers written read back (`ReplayLog.Numerals`), which whole numbers do (`ReplayLog.WholeNumbersQualify`).
- GaussianBandit.GaussianTS.FitArm: does not store a NaN; it reports where the quotient is undefined, because reals have none.
- Rapl.ReadsTrueEnergy: takes the register as energy modulo the range, in whole microjoules; the conversion to millijoules is not shown, and reads before the first look of the tracker are left out.
- Simulator.LaunchIsSafe: takes the outcome of a run as an oracle by launch number, so it holds for every training path; `RunJob` models a run itself, for sequential jobs.
- Simulation.GroupSimulation.ReapFinished: the local variables of the simulation are fields of an object, and both reaping loops are this one method, because their bodies are the same.
- BatchSizeOptimizer.PruningGTSBatchSizeOptimizer.ConstructMab: the dictionaries of the bandit are fields of the optimizer; a prior of negative precision is excluded from the invariant, as no distribution has one.
- OptimumSelectors.SelectMaxSlowdown: requires a factor of at least one, as its constructor checks, and measurements hold non-negative times.
- GaussianBandit.GaussianTS.constructor: a list of reward precisions has one for each arm; for a shorter one the source fails later with a KeyError.
- Sampling: `rng.choice`, `rng.normal` and `df.sample` are arbitrary choices; no statistical claim is made.
- Job dictionaries of the optimizers: one job at a time, because jobs do not share state.
- Database, HTTP and session checks of the batch-size server: histories and fetched results are values.
- PowerLimit.InvAlways: warmup and profile of at least one step and limits in whole watts, as the profiler's types and its `mW // 1000` require. A warmup of zero passes the check of the constructor (`original_zeus_python_project/zeus/optimizer/power_limit.py:249`), but `Warmup.steps` is a PositiveInt (line 155), so the source raises at the first transition; this is not modelled. Synchronisation and the all-reduce over processes are the reading passed in.
- CarbonLedger.HourKeeps: the cut at an hour is one atomic step, and energy used while the process closes and reopens its windows is not modelled; intensities are a function of the hour, and where a lookup would raise KeyError is stated by `CarbonLedger.LooksUpExactlyWhen`.
- CarbonProtocol.ProtocolHolds: one sequential client, reliable queues, and no clock; the testing-only NEXTITER command is left out.
- zeus/monitor/price.py: the same protocol without the flush.
- EventStream.SentIsReceived: JSON text is any rendering that is one line, does not end in white space and parses back; a non-integer device index and reconnecting are not modelled.
- ReplayLog.ReplayUndoesLog: GPUs with an energy counter only; CPU, DRAM and SoC energies are not in the log, the approximation by instant power is not modelled, and an index in the header is plain decimal digits.
- RunJob.SimulateOneJob: the optimizers and the random generator are one function from all observations so far to the sampled row; beta is positive and the trace has a row for each limit.
- PolledEnergy.NvidiaGpus.Poll: one turn of the polling thread is atomic.
- Device discovery, NVML, SoC and sysfs access, callbacks, temperature and frequency control, zeusd's routes other than the stream's frame, and metric export: calls into hardware or libraries.
