/** The power limit profiler `GlobalPowerLimitOptimizer` of zeus/optimizer/power_limit.py: a state machine driven by
    step and epoch callbacks in any order. Limits are in milliwatts, measurements in whole watts. */
module PowerLimit {
  import opened Lists
  import opened Outcomes

  type Duration = t: real | t >= 0.0

  datatype Measurement = Measurement(powerLimit: int, energy: real, time: Duration)

  datatype State =
    | Ready(next: int, steps: int)
    | Warmup(current: int, steps: int)
    | Profiling(current: int, steps: int)
    | Done(optimal: int)

  /** `select` is the optimum selector; `windows` are the measurement windows open in the monitor, named by limit. */
  datatype Settings = Settings(limits: seq<int>, wait: nat, warmup: nat, profile: nat, select: seq<Measurement> -> int)

  datatype Profiler = Profiler(state: State, measurements: seq<Measurement>, applied: int, windows: set<int>)

  /** What the monitor returns for the window that is being closed. */
  datatype Reading = Reading(energy: real, time: Duration)

  /** `list(range(max, min - 1, -step))`. */
  function PowerLimits(min: int, max: int, step: int): (limits: seq<int>)
    requires step > 0
    ensures limits != [] <==> min <= max
    ensures forall i :: 0 <= i < |limits| ==> limits[i] == max - i * step && min <= limits[i]
    ensures |limits| > 0 ==> limits[|limits| - 1] - step < min
    decreases max - min
  {
    if max < min then []
    else
      var rest := PowerLimits(min, max - step, step);
      Shifted(rest, max, step);
      [max] + rest
  }

  lemma Shifted(rest: seq<int>, max: int, step: int)
    requires forall i :: 0 <= i < |rest| ==> rest[i] == max - step - i * step
    ensures forall i :: 0 <= i < |rest| + 1 ==> ([max] + rest)[i] == max - i * step
  {
    forall i | 0 < i < |rest| + 1
      ensures ([max] + rest)[i] == max - i * step
    {
      assert ([max] + rest)[i] == rest[i - 1];
      assert (i - 1) * step == i * step - step;
    }
  }

  predicate StrictlyDecreasing(s: seq<int>) {
    forall i, j :: 0 <= i < j < |s| ==> s[i] > s[j]
  }

  lemma {:induction false} LimitsDescend(min: int, max: int, step: int)
    requires step > 0
    ensures StrictlyDecreasing(PowerLimits(min, max, step))
    ensures forall i :: 0 <= i < |PowerLimits(min, max, step)| ==> PowerLimits(min, max, step)[i] <= max
    decreases max - min
  {
    if min <= max {
      LimitsDescend(min, max - step, step);
      Prepend(max, PowerLimits(min, max - step, step));
    }
  }

  lemma Prepend(x: int, s: seq<int>)
    requires StrictlyDecreasing(s) && forall i :: 0 <= i < |s| ==> s[i] < x
    ensures StrictlyDecreasing([x] + s)
    ensures forall i :: 0 <= i < |s| + 1 ==> ([x] + s)[i] <= x
  {
  }

  /** Limits the profiler can explore: at least one, descending, and whole watts. */
  ghost predicate GoodSettings(s: Settings) {
    && s.limits != [] && StrictlyDecreasing(s.limits)
    && s.warmup > 0 && s.profile > 0
    && forall i :: 0 <= i < |s.limits| ==> s.limits[i] > 0 && s.limits[i] % 1000 == 0
  }

  ghost predicate Selects(select: seq<Measurement> -> int) {
    forall ms: seq<Measurement> :: ms != [] ==> exists i :: 0 <= i < |ms| && select(ms) == ms[i].powerLimit
  }

  function Begin(s: Settings): Profiler
    requires s.limits != []
  {
    Profiler(Ready(s.limits[0], s.wait + 1), [], s.limits[0], {})
  }

  /** Construction from a profile saved earlier. */
  function Load(s: Settings, saved: seq<Measurement>): Profiler {
    var optimal := s.select(saved) * 1000;
    Profiler(Done(optimal), saved, optimal, {})
  }

  /** A loaded profile applies the limit, in milliwatts, of one of the measurements saved, in watts, and is done. */
  lemma LoadedIsSaved(s: Settings, saved: seq<Measurement>)
    requires Selects(s.select) && saved != []
    ensures var p := Load(s, saved);
      && p.state.Done? && p.state.optimal == p.applied && p.measurements == saved && p.windows == {}
      && exists i :: 0 <= i < |saved| &&
           p.applied == 1000 * saved[i].powerLimit && saved[i].powerLimit == s.select(saved)
  {
    var i :| 0 <= i < |saved| && s.select(saved) == saved[i].powerLimit;
  }

  /** The limit being measured is one of those to explore. */
  predicate Explores(s: Settings, p: Profiler) {
    s.limits != [] && (p.state.Profiling? ==> p.state.current in s.limits)
  }

  function StartWarmup(s: Settings, p: Profiler, limit: int): Profiler {
    p.(state := Warmup(limit, s.warmup), applied := limit)
  }

  function Measured(s: Settings, p: Profiler, current: int, r: Reading): Profiler
    requires current in s.limits
  {
    var after := p.(measurements := p.measurements + [Measurement(current / 1000, r.energy, r.time)],
                    windows := p.windows - {current / 1000});
    var index := IndexOf(s.limits, current);
    if index == |s.limits| - 1 then
      var optimal := s.select(after.measurements) * 1000;
      after.(state := Done(optimal), applied := optimal)
    else StartWarmup(s, after, s.limits[index + 1])
  }

  function Stepped(s: Settings, p: Profiler, r: Reading): Profiler
    requires Explores(s, p)
  {
    match p.state
    case Ready(next, steps) =>
      if steps == 1 then StartWarmup(s, p, next) else p.(state := Ready(next, steps - 1))
    case Warmup(current, steps) =>
      if steps == 1 then p.(state := Profiling(current, s.profile), windows := p.windows + {current / 1000})
      else p.(state := Warmup(current, steps - 1))
    case Profiling(current, steps) =>
      if steps == 1 then Measured(s, p, current, r) else p.(state := Profiling(current, steps - 1))
    case Done(_) => p
  }

  function Interrupted(s: Settings, p: Profiler): Profiler
    requires s.limits != []
  {
    match p.state
    case Warmup(current, _) => p.(state := Ready(current, 1), applied := s.limits[0])
    case Profiling(current, _) =>
      p.(state := Ready(current, 1), applied := s.limits[0], windows := p.windows - {current / 1000})
    case _ => p
  }

  // ---- The run invariant ----

  /** The measured limits are a prefix of the limits to explore, the state is about the next one, a window is open
      exactly while it is being profiled, and the limit applied is the one the state calls for: in the end the one
      selected from all measurements, which is one of the limits explored. */
  ghost predicate Inv(s: Settings, p: Profiler) {
    var k := |p.measurements|;
    && k <= |s.limits|
    && (forall i :: 0 <= i < k ==> p.measurements[i].powerLimit == s.limits[i] / 1000)
    && match p.state
       case Ready(next, steps) =>
         k < |s.limits| && next == s.limits[k] && steps >= 1 && p.applied == s.limits[0] && p.windows == {}
       case Warmup(current, steps) =>
         k < |s.limits| && current == s.limits[k] == p.applied && 1 <= steps <= s.warmup && p.windows == {}
       case Profiling(current, steps) =>
         && k < |s.limits| && current == s.limits[k] == p.applied
         && 1 <= steps <= s.profile && p.windows == {current / 1000}
       case Done(optimal) =>
         && k == |s.limits| && optimal == p.applied && p.windows == {}
         && optimal == s.select(p.measurements) * 1000 && optimal in s.limits
  }

  lemma InvExplores(s: Settings, p: Profiler)
    requires Inv(s, p) && s.limits != []
    ensures Explores(s, p)
  {
  }

  lemma PositionOf(limits: seq<int>, k: nat)
    requires StrictlyDecreasing(limits) && k < |limits|
    ensures IndexOf(limits, limits[k]) == k
  {
  }

  lemma MeasuredKeeps(s: Settings, p: Profiler, r: Reading)
    requires GoodSettings(s) && Selects(s.select) && Inv(s, p) && p.state.Profiling?
    ensures Explores(s, p)
    ensures var after := Measured(s, p, p.state.current, r);
      && Inv(s, after)
      && after.measurements == p.measurements + [Measurement(s.limits[|p.measurements|] / 1000, r.energy, r.time)]
      && (if |after.measurements| == |s.limits| then after.state.Done?
          else after.state == Warmup(s.limits[|after.measurements|], s.warmup))
  {
    hide IndexOf;
    var k := |p.measurements|;
    PositionOf(s.limits, k);
    var after := Measured(s, p, p.state.current, r);
    if k == |s.limits| - 1 {
      var i :| 0 <= i < |after.measurements| && s.select(after.measurements) == after.measurements[i].powerLimit;
      assert after.measurements[i].powerLimit == s.limits[i] / 1000;
    }
  }

  lemma StepKeeps(s: Settings, p: Profiler, r: Reading)
    requires GoodSettings(s) && Selects(s.select) && Inv(s, p)
    ensures Explores(s, p) && Inv(s, Stepped(s, p, r))
  {
    hide Measured;
    if p.state.Profiling? {
      MeasuredKeeps(s, p, r);
    }
  }

  lemma EpochKeeps(s: Settings, p: Profiler)
    requires GoodSettings(s) && Inv(s, p)
    ensures Inv(s, Interrupted(s, p))
  {
  }

  datatype Event = Step(reading: Reading) | EpochEnd

  ghost predicate Runs(s: Settings, p: Profiler, events: seq<Event>, after: Profiler)
    decreases |events|
  {
    if events == [] then p == after
    else
      && Explores(s, p)
      && Runs(s, match events[0] case Step(r) => Stepped(s, p, r) case EpochEnd => Interrupted(s, p),
              events[1..], after)
  }

  /** Whatever the interleaving of steps and epoch ends, no callback fails and the invariant holds after it. */
  lemma {:induction false} InvAlways(s: Settings, p: Profiler, events: seq<Event>) returns (after: Profiler)
    requires GoodSettings(s) && Selects(s.select) && Inv(s, p)
    ensures Runs(s, p, events, after) && Inv(s, after)
    decreases |events|
  {
    hide Inv, Stepped, Interrupted;
    if events == [] {
      after := p;
    } else {
      InvExplores(s, p);
      match events[0]
      case Step(r) =>
        StepKeeps(s, p, r);
        after := InvAlways(s, Stepped(s, p, r), events[1..]);
      case EpochEnd =>
        EpochKeeps(s, p);
        after := InvAlways(s, Interrupted(s, p), events[1..]);
    }
  }

  lemma BeginInv(s: Settings)
    requires GoodSettings(s)
    ensures Inv(s, Begin(s))
  {
  }

  /** Nothing measured is ever lost or changed. */
  lemma MeasurementsOnlyGrow(s: Settings, p: Profiler, r: Reading)
    requires Explores(s, p)
    ensures p.measurements <= Stepped(s, p, r).measurements
    ensures Interrupted(s, p).measurements == p.measurements
  {
  }

  // ---- Exact progress ----

  function Period(s: Settings): nat {
    s.warmup + s.profile
  }

  lemma OneMore(u: nat, q: nat)
    requires q > 0
    ensures if u % q == q - 1 then (u + 1) / q == u / q + 1 && (u + 1) % q == 0
            else (u + 1) / q == u / q && (u + 1) % q == u % q + 1
  {
    var d, m := u / q, u % q;
    assert u == d * q + m;
    if m == q - 1 {
      assert u + 1 == (d + 1) * q;
      DivModUnique(u + 1, q, d + 1, 0);
    } else {
      DivModUnique(u + 1, q, d, m + 1);
    }
  }

  lemma DivModUnique(u: nat, q: nat, d: nat, m: nat)
    requires q > 0 && u == d * q + m && m < q
    ensures u / q == d && u % q == m
  {
    SameDecomposition(q, d, m, u / q, u % q);
  }

  lemma SameDecomposition(q: nat, d: nat, m: nat, e: nat, n: nat)
    requires m < q && n < q && d * q + m == e * q + n
    ensures d == e && m == n
  {
    if d > e {
      Gap(q, d, e);
    } else if d < e {
      Gap(q, e, d);
    }
  }

  lemma Gap(q: nat, d: nat, e: nat)
    requires d > e
    ensures d * q >= e * q + q
  {
    assert (d - e - 1) * q >= 0;
    assert d * q == (d - e - 1) * q + e * q + q;
  }

  /** The state after the waiting, by full periods and position in the current one. */
  ghost predicate InPhase(s: Settings, p: Profiler, k: nat, done: nat, phase: nat) {
    if k + done >= |s.limits| then p.state.Done? && |p.measurements| == |s.limits|
    else
      && |p.measurements| == k + done
      && p.state == if phase < s.warmup then Warmup(s.limits[k + done], s.warmup - phase)
                    else Profiling(s.limits[k + done], Period(s) - phase)
  }

  /** The state after t uninterrupted steps, when k limits were measured and `wait` steps were to pass at the start. */
  ghost predicate Reached(s: Settings, p: Profiler, k: nat, wait: nat, t: nat)
    requires Period(s) > 0
  {
    if t < wait then |p.measurements| == k < |s.limits| && p.state == Ready(s.limits[k], wait - t)
    else
      InPhase(s, p, k, (t - wait) / Period(s), (t - wait) % Period(s))
  }

  lemma StepReaches(s: Settings, p: Profiler, r: Reading, k: nat, wait: nat, t: nat)
    requires GoodSettings(s) && Selects(s.select) && Inv(s, p) && Reached(s, p, k, wait, t)
    ensures Explores(s, p) && Inv(s, Stepped(s, p, r)) && Reached(s, Stepped(s, p, r), k, wait, t + 1)
  {
    hide Measured, StrictlyDecreasing, Selects, GoodSettings, Inv, Explores, InPhase;
    StepKeeps(s, p, r);
    if t >= wait {
      hide Stepped;
      PeriodIsPositive(s);
      OneMore(t - wait, Period(s));
      assert t + 1 - wait == (t - wait) + 1;
      StepPhase(s, p, r, k, (t - wait) / Period(s), (t - wait) % Period(s));
    } else {
      WaitStep(s, p, r, k, wait, t);
    }
  }

  lemma PeriodIsPositive(s: Settings)
    requires GoodSettings(s)
    ensures Period(s) > 0
  {
  }

  lemma WaitStep(s: Settings, p: Profiler, r: Reading, k: nat, wait: nat, t: nat)
    requires GoodSettings(s) && Explores(s, p) && t < wait && Reached(s, p, k, wait, t)
    ensures Reached(s, Stepped(s, p, r), k, wait, t + 1)
  {
    hide Measured, StrictlyDecreasing;
    if t + 1 == wait {
      assert 0 / Period(s) == 0 && 0 % Period(s) == 0;
    }
  }

  lemma StepPhase(s: Settings, p: Profiler, r: Reading, k: nat, done: nat, phase: nat)
    requires GoodSettings(s) && Selects(s.select) && Inv(s, p) && InPhase(s, p, k, done, phase) && phase < Period(s)
    ensures Explores(s, p)
    ensures if phase == Period(s) - 1 then InPhase(s, Stepped(s, p, r), k, done + 1, 0)
            else InPhase(s, Stepped(s, p, r), k, done, phase + 1)
  {
    hide Measured, StrictlyDecreasing;
    if p.state.Profiling? {
      MeasuredKeeps(s, p, r);
    }
  }

  function Steps(s: Settings, p: Profiler, readings: seq<Reading>): (after: Profiler)
    requires GoodSettings(s) && Selects(s.select) && Inv(s, p)
    ensures Inv(s, after)
    decreases |readings|
  {
    if readings == [] then p
    else
      StepKeeps(s, p, readings[0]);
      Steps(s, Stepped(s, p, readings[0]), readings[1..])
  }

  /** An uninterrupted run passes through exactly the states `Reached` describes. */
  lemma {:induction false} Uninterrupted(s: Settings, p: Profiler, readings: seq<Reading>, k: nat, wait: nat, t: nat)
    requires GoodSettings(s) && Selects(s.select) && Inv(s, p) && Reached(s, p, k, wait, t)
    ensures Reached(s, Steps(s, p, readings), k, wait, t + |readings|)
    decreases |readings|
  {
    hide Inv, Reached, Stepped, GoodSettings;
    if readings != [] {
      StepReaches(s, p, readings[0], k, wait, t);
      Uninterrupted(s, Stepped(s, p, readings[0]), readings[1..], k, wait, t + 1);
    }
  }

  lemma DivBelow(u: nat, q: nat, n: nat)
    requires q > 0
    ensures u / q >= n <==> u >= n * q
  {
    var d, m := u / q, u % q;
    assert u == d * q + m;
    if d >= n {
      assert d * q >= n * q;
    } else {
      assert (d + 1) * q <= n * q;
    }
  }

  /** Without interruptions profiling is over exactly from step wait + 1 + n (warmup + profile) on. */
  lemma DoneExactlyAfter(s: Settings, readings: seq<Reading>)
    requires GoodSettings(s) && Selects(s.select)
    ensures Inv(s, Begin(s))
    ensures Steps(s, Begin(s), readings).state.Done? <==> |readings| >= s.wait + 1 + |s.limits| * Period(s)
  {
    hide Steps;
    BeginInv(s);
    Uninterrupted(s, Begin(s), readings, 0, s.wait + 1, 0);
    var t, n := |readings|, |s.limits|;
    assert n * Period(s) >= 0;
    if t >= s.wait + 1 {
      DivBelow(t - s.wait - 1, Period(s), n);
    }
  }

  /** How many limits an epoch of L steps completes when it starts with `wait` steps to pass. */
  function Completes(s: Settings, wait: nat, steps: nat): nat
    requires Period(s) > 0
  {
    if steps < wait then 0 else (steps - wait) / Period(s)
  }

  function Min(x: nat, y: nat): nat { if x <= y then x else y }

  /** One epoch: steps, then the end of the epoch. */
  function Epoch(s: Settings, p: Profiler, readings: seq<Reading>): (after: Profiler)
    requires GoodSettings(s) && Selects(s.select) && Inv(s, p)
    ensures Inv(s, after)
  {
    EpochKeeps(s, Steps(s, p, readings));
    Interrupted(s, Steps(s, p, readings))
  }

  /** An epoch entered in Ready measures as many limits as fit into it after the waiting, and no more. */
  lemma EpochProgress(s: Settings, p: Profiler, readings: seq<Reading>)
    requires GoodSettings(s) && Selects(s.select) && Inv(s, p) && p.state.Ready?
    ensures var after := Epoch(s, p, readings); var wait := p.state.steps;
      && |after.measurements| == Min(|s.limits|, |p.measurements| + Completes(s, wait, |readings|))
      && (if |after.measurements| == |s.limits| then after.state.Done?
          else after.state.Ready? && after.state.steps == WaitAfter(wait, |readings|))
  {
    hide Steps;
    Uninterrupted(s, p, readings, |p.measurements|, p.state.steps, 0);
  }

  function Epochs(s: Settings, p: Profiler, epochs: seq<seq<Reading>>): (after: Profiler)
    requires GoodSettings(s) && Selects(s.select) && Inv(s, p)
    ensures Inv(s, after)
    decreases |epochs|
  {
    if epochs == [] then p else Epochs(s, Epoch(s, p, epochs[0]), epochs[1..])
  }

  /** The steps left to wait after an epoch of some length. */
  function WaitAfter(wait: nat, steps: nat): nat {
    if steps < wait then wait - steps else 1
  }

  /** The steps left to wait after some epochs; one after the first limit has been tried. */
  function WaitLeft(wait: nat, epochs: seq<seq<Reading>>): nat
    decreases |epochs|
  {
    if epochs == [] then wait else WaitLeft(WaitAfter(wait, |epochs[0]|), epochs[1..])
  }

  /** What each epoch has room for, added up. */
  function TotalFrom(s: Settings, wait: nat, epochs: seq<seq<Reading>>): nat
    requires Period(s) > 0
    decreases |epochs|
  {
    if epochs == [] then 0
    else Completes(s, wait, |epochs[0]|) + TotalFrom(s, WaitAfter(wait, |epochs[0]|), epochs[1..])
  }

  lemma {:induction false} DoneStays(s: Settings, p: Profiler, readings: seq<Reading>)
    requires GoodSettings(s) && Selects(s.select) && Inv(s, p) && p.state.Done?
    ensures Epoch(s, p, readings) == p
  {
    if readings != [] {
      assert Stepped(s, p, readings[0]) == p;
      DoneStays(s, p, readings[1..]);
    }
  }

  lemma {:induction false} DoneForGood(s: Settings, p: Profiler, epochs: seq<seq<Reading>>)
    requires GoodSettings(s) && Selects(s.select) && Inv(s, p) && p.state.Done?
    ensures Epochs(s, p, epochs) == p && |p.measurements| == |s.limits|
    decreases |epochs|
  {
    hide Epoch;
    if epochs != [] {
      DoneStays(s, p, epochs[0]);
      DoneForGood(s, p, epochs[1..]);
    }
  }

  /** Over any number of epochs the limits measured are the sum of what each epoch has room for after the waiting that
      is left to it, up to all of them. */
  lemma {:induction false} EpochsProgress(s: Settings, p: Profiler, epochs: seq<seq<Reading>>)
    requires GoodSettings(s) && Selects(s.select) && Inv(s, p) && p.state.Ready?
    ensures |Epochs(s, p, epochs).measurements|
         == Min(|s.limits|, |p.measurements| + TotalFrom(s, p.state.steps, epochs))
    decreases |epochs|
  {
    hide Epoch, Completes;
    if epochs != [] {
      EpochProgress(s, p, epochs[0]);
      var next := Epoch(s, p, epochs[0]);
      if next.state.Done? {
        DoneForGood(s, next, epochs[1..]);
      } else {
        EpochsProgress(s, next, epochs[1..]);
      }
    }
  }

  /** From a fresh profiler on. */
  lemma EpochsFromBegin(s: Settings, epochs: seq<seq<Reading>>)
    requires GoodSettings(s) && Selects(s.select)
    ensures Inv(s, Begin(s))
    ensures |Epochs(s, Begin(s), epochs).measurements| == Min(|s.limits|, TotalFrom(s, s.wait + 1, epochs))
  {
    hide Epochs;
    BeginInv(s);
    EpochsProgress(s, Begin(s), epochs);
  }

  lemma CompletesNone(s: Settings, wait: nat, steps: nat)
    requires Period(s) > 0
    ensures Completes(s, wait, steps) == 0 <==> steps < wait + Period(s)
  {
    if steps >= wait {
      DivBelow(steps - wait, Period(s), 1);
    }
  }

  lemma {:induction false} NoneCompletes(s: Settings, wait: nat, epochs: seq<seq<Reading>>)
    requires Period(s) > 0
    ensures TotalFrom(s, wait, epochs) == 0 <==>
            forall i :: 0 <= i < |epochs| ==> |epochs[i]| < WaitLeft(wait, epochs[..i]) + Period(s)
    decreases |epochs|
  {
    hide Completes, WaitAfter;
    if epochs != [] {
      var next := WaitAfter(wait, |epochs[0]|);
      NoneCompletes(s, next, epochs[1..]);
      CompletesNone(s, wait, |epochs[0]|);
      assert epochs[..0] == [];
      forall i | 0 < i < |epochs|
        ensures epochs[i] == epochs[1..][i - 1] && WaitLeft(wait, epochs[..i]) == WaitLeft(next, epochs[1..][..i - 1])
      {
        assert epochs[..i][1..] == epochs[1..][..i - 1];
      }
      assert forall i :: 0 <= i < |epochs| - 1 ==> epochs[1..][i] == epochs[i + 1];
      assert forall i :: 0 <= i < |epochs| - 1 ==> WaitLeft(next, epochs[1..][..i]) == WaitLeft(wait, epochs[..i + 1]);
    }
  }

  /** Epochs never get a limit measured exactly when none is as long as the waiting left to it, one warmup and one
      profile. */
  lemma StarvesExactlyWhenShort(s: Settings, p: Profiler, epochs: seq<seq<Reading>>)
    requires GoodSettings(s) && Selects(s.select) && Inv(s, p) && p.state.Ready?
    ensures |Epochs(s, p, epochs).measurements| == |p.measurements| <==>
            forall i :: 0 <= i < |epochs| ==> |epochs[i]| < WaitLeft(p.state.steps, epochs[..i]) + Period(s)
  {
    hide Epochs, TotalFrom, WaitLeft;
    EpochsProgress(s, p, epochs);
    NoneCompletes(s, p.state.steps, epochs);
  }

  lemma {:induction false} WaitIsPositive(wait: nat, epochs: seq<seq<Reading>>)
    ensures wait >= 1 ==> WaitLeft(wait, epochs) >= 1
    ensures wait == 1 ==> WaitLeft(wait, epochs) == 1
    decreases |epochs|
  {
    if epochs != [] {
      WaitIsPositive(WaitAfter(wait, |epochs[0]|), epochs[1..]);
    }
  }

  /** Epochs of at most one warmup and one profile never let a fresh profiler measure anything, whatever its initial
      wait; without an initial wait no others starve it. */
  lemma ShortEpochsStarve(s: Settings, epochs: seq<seq<Reading>>)
    requires GoodSettings(s) && Selects(s.select)
    ensures Inv(s, Begin(s))
    ensures (forall i :: 0 <= i < |epochs| ==> |epochs[i]| <= Period(s)) ==>
      Epochs(s, Begin(s), epochs).measurements == []
    ensures s.wait == 0 && Epochs(s, Begin(s), epochs).measurements == [] ==>
      forall i :: 0 <= i < |epochs| ==> |epochs[i]| <= Period(s)
  {
    hide Epochs, WaitLeft;
    BeginInv(s);
    StarvesExactlyWhenShort(s, Begin(s), epochs);
    forall i | 0 <= i < |epochs|
      ensures WaitLeft(s.wait + 1, epochs[..i]) >= 1 && (s.wait == 0 ==> WaitLeft(s.wait + 1, epochs[..i]) == 1)
    {
      WaitIsPositive(s.wait + 1, epochs[..i]);
    }
  }

  // ---- The class ----

  class GlobalPowerLimitOptimizer {
    const settings: Settings
    var state: State
    var measurements: seq<Measurement>
    var currentPowerLimit: int
    var windows: set<int>    // the measurement windows this optimizer has open in its monitor

    ghost function Model(): Profiler
      reads this
    {
      Profiler(state, measurements, currentPowerLimit, windows)
    }

    constructor (settings: Settings, saved: Option<seq<Measurement>>)
      requires settings.limits != []
      ensures this.settings == settings
      ensures Model() == if saved.None? then Begin(settings) else Load(settings, saved.value)
    {
      this.settings := settings;
      windows := {};
      if saved.None? {
        measurements := [];
        state := Ready(settings.limits[0], settings.wait + 1);
        currentPowerLimit := settings.limits[0];
      } else {
        measurements := saved.value;
        var optimal := settings.select(saved.value) * 1000;
        state := Done(optimal);
        currentPowerLimit := optimal;
      }
    }

    method SetPowerLimit(limit: int)
      modifies this`currentPowerLimit
      ensures currentPowerLimit == limit
    {
      if currentPowerLimit == limit {
        return;
      }
      currentPowerLimit := limit;
    }

    method OnEpochEnd()
      requires settings.limits != []
      modifies this
      ensures Model() == Interrupted(settings, old(Model()))
    {
      match state
      case Warmup(current, _) =>
        state := Ready(current, 1);
        SetPowerLimit(settings.limits[0]);
      case Profiling(current, _) =>
        windows := windows - {current / 1000};
        state := Ready(current, 1);
        SetPowerLimit(settings.limits[0]);
      case _ =>
    }

    /** `reading` is what the monitor measures if this call closes a window. */
    method OnStepBegin(reading: Reading)
      requires Explores(settings, Model())
      modifies this
      ensures Model() == Stepped(settings, old(Model()), reading)
    {
      match state
      case Ready(next, steps) =>
        state := Ready(next, steps - 1);
        if steps - 1 == 0 {
          SetPowerLimit(next);
          state := Warmup(next, settings.warmup);
        }
      case Warmup(current, steps) =>
        state := Warmup(current, steps - 1);
        if steps - 1 == 0 {
          state := Profiling(current, settings.profile);
          windows := windows + {current / 1000};
        }
      case Profiling(current, steps) =>
        state := Profiling(current, steps - 1);
        if steps - 1 == 0 {
          windows := windows - {current / 1000};
          measurements := measurements + [Measurement(current / 1000, reading.energy, reading.time)];
          var index := IndexOf(settings.limits, current);
          if index == |settings.limits| - 1 {
            var optimal := settings.select(measurements) * 1000;
            state := Done(optimal);
            SetPowerLimit(optimal);
          } else {
            SetPowerLimit(settings.limits[index + 1]);
            state := Warmup(settings.limits[index + 1], settings.warmup);
          }
        }
      case Done(_) =>
    }
  }
}
