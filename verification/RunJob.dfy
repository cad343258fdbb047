/** `_run_job` and `simulate_one_job` of zeus/_legacy/simulate.py: a recurring job whose runs are stopped early when
    they would cost more than a multiple of the cheapest recurrence so far. Rows are those of the job in the trace. */
module RunJob {
  import opened Lists
  import opened Metric
  import opened Outcomes

  datatype Row = Row(batchSize: int, powerLimit: real, energyPerEpoch: real, timePerEpoch: real,
                     targetEpoch: Option<int>)

  predicate RowOk(r: Row) {
    && r.energyPerEpoch > 0.0 && r.timePerEpoch > 0.0 && r.powerLimit > 0.0
    && (r.targetEpoch.Some? ==> r.targetEpoch.value >= 1)
  }

  function MaxPower(rows: seq<Row>): (p: real)
    requires rows != []
    ensures forall i :: 0 <= i < |rows| ==> rows[i].powerLimit <= p
    ensures exists i :: 0 <= i < |rows| && rows[i].powerLimit == p
  {
    if |rows| == 1 then rows[0].powerLimit
    else
      var rest := MaxPower(rows[1..]);
      assert exists i :: 0 <= i < |rows[1..]| && rows[1..][i].powerLimit == rest && rows[i + 1].powerLimit == rest;
      if rows[0].powerLimit >= rest then rows[0].powerLimit else rest
  }

  /** The rows of one batch size. */
  function Of(rows: seq<Row>, bs: int): (r: seq<Row>)
    ensures forall x :: x in r <==> x in rows && x.batchSize == bs
  {
    if rows == [] then [] else (if rows[0].batchSize == bs then [rows[0]] else []) + Of(rows[1..], bs)
  }

  function SumOf(rows: seq<Row>, f: Row -> real): real {
    if rows == [] then 0.0 else f(rows[0]) + SumOf(rows[1..], f)
  }

  function MeanOf(rows: seq<Row>, f: Row -> real): real
    requires rows != []
  {
    SumOf(rows, f) / |rows| as real
  }

  function MeanEnergy(rows: seq<Row>): real
    requires rows != []
  {
    MeanOf(rows, (r: Row) => r.energyPerEpoch)
  }

  function MeanTime(rows: seq<Row>): real
    requires rows != []
  {
    MeanOf(rows, (r: Row) => r.timePerEpoch)
  }

  // ---- One run ----

  datatype Run = Run(energy: real, time: real, reached: bool)

  /** What one run depends on: the rows of its batch size, the sampled row, the knobs and the bound (None: infinite). */
  datatype Setup = Setup(rows: seq<Row>, path: Row, eta: real, maxEpochs: int, bound: Option<real>, profile: bool)

  ghost predicate SetupOk(u: Setup) {
    && u.path in u.rows && (forall r :: r in u.rows ==> RowOk(r))
    && 0.0 <= u.eta <= 1.0 && u.maxEpochs >= 1
  }

  /** One epoch at a given maximum power. */
  function EpochCost(u: Setup, maxPower: real): real {
    ZeusCost(u.path.energyPerEpoch, u.path.timePerEpoch, u.eta, maxPower)
  }

  /** The cost per epoch that the bound is divided by: at the greatest power limit traced for this batch size. */
  function CostPerEpoch(u: Setup): real
    requires u.rows != []
  {
    EpochCost(u, MaxPower(u.rows))
  }

  /** How many epochs the bound and the job allow; the quotient is rounded down. */
  function EpochsAllowed(u: Setup): int
    requires u.rows != [] && CostPerEpoch(u) != 0.0
  {
    if u.bound.None? then u.maxEpochs
    else
      var n := (u.bound.value / CostPerEpoch(u)).Floor;
      if n <= u.maxEpochs then n else u.maxEpochs
  }

  /** Energy and time of a number of epochs; while profiling, the first one is the mean over all power limits. */
  function Consumed(u: Setup, epochs: int): (real, real)
    requires u.rows != []
  {
    if u.profile then
      (MeanEnergy(u.rows) + u.path.energyPerEpoch * (epochs - 1) as real,
       MeanTime(u.rows) + u.path.timePerEpoch * (epochs - 1) as real)
    else (u.path.energyPerEpoch * epochs as real, u.path.timePerEpoch * epochs as real)
  }

  /** Epochs run: up to the target when it is allowed, otherwise as many as are allowed. */
  function EpochsRun(u: Setup): int
    requires u.rows != [] && CostPerEpoch(u) != 0.0
  {
    if u.path.targetEpoch.Some? && u.path.targetEpoch.value <= EpochsAllowed(u) then u.path.targetEpoch.value
    else EpochsAllowed(u)
  }

  function RunOf(u: Setup): Run
    requires u.rows != [] && CostPerEpoch(u) != 0.0
  {
    var allowed := EpochsAllowed(u);
    if allowed == 0 then Run(0.0, 0.0, false)
    else if u.path.targetEpoch.Some? && u.path.targetEpoch.value <= allowed then
      var (energy, time) := Consumed(u, u.path.targetEpoch.value);
      Run(energy, time, true)
    else
      var (energy, time) := Consumed(u, allowed);
      Run(energy, time, false)
  }

  lemma PositiveCost(energy: real, time: real, eta: real, maxPower: real)
    requires energy > 0.0 && time > 0.0 && maxPower > 0.0 && 0.0 <= eta <= 1.0
    ensures ZeusCost(energy, time, eta, maxPower) > 0.0
  {
    Times(maxPower, time);
    var c := maxPower * time;
    assert (1.0 - eta) * maxPower * time == (1.0 - eta) * c;
    if eta > 0.0 {
      Times(eta, energy);
      NotNegative(1.0 - eta, c);
    }
  }

  lemma Times(x: real, y: real)
    requires x > 0.0 && y > 0.0
    ensures x * y > 0.0
  {
  }

  lemma NotNegative(x: real, y: real)
    requires x >= 0.0 && y >= 0.0
    ensures x * y >= 0.0
  {
  }

  lemma EpochCostIsPositive(u: Setup)
    requires SetupOk(u)
    ensures u.rows != [] && CostPerEpoch(u) > 0.0
  {
    var i :| 0 <= i < |u.rows| && u.rows[i].powerLimit == MaxPower(u.rows);
    var r := u.rows[i];
    assert r in u.rows;
    PositiveCost(u.path.energyPerEpoch, u.path.timePerEpoch, u.eta, MaxPower(u.rows));
  }

  /** The quotient rounded down is the number of whole epochs that fit. */
  lemma FloorFits(bound: real, cost: real, n: int)
    requires cost > 0.0
    ensures n <= (bound / cost).Floor <==> n as real * cost <= bound
  {
    var q := bound / cost;
    assert q * cost == bound;
    assert n <= q.Floor <==> n as real <= q;
    OrderScales(n as real, q, cost);
  }

  lemma OrderScales(x: real, y: real, c: real)
    requires c > 0.0
    ensures x <= y <==> x * c <= y * c
  {
    var d := if x <= y then y - x else x - y;
    NotNegative(d, c);
    assert d * c == if x <= y then y * c - x * c else x * c - y * c;
    if x > y {
      Times(d, c);
    }
  }

  /** The cost of an unprofiled number of epochs is that number times the cost of one. */
  lemma CostIsLinear(u: Setup, epochs: int, maxPower: real)
    requires u.rows != [] && !u.profile
    ensures ZeusCost(Consumed(u, epochs).0, Consumed(u, epochs).1, u.eta, maxPower)
            == epochs as real * EpochCost(u, maxPower)
  {
    LinearCost(u.path.energyPerEpoch, u.path.timePerEpoch, u.eta, maxPower, epochs as real);
  }

  lemma LinearCost(e: real, t: real, eta: real, maxPower: real, n: real)
    ensures ZeusCost(e * n, t * n, eta, maxPower) == n * ZeusCost(e, t, eta, maxPower)
  {
    var a, b := eta * e, (1.0 - eta) * maxPower * t;
    assert eta * (e * n) == a * n;
    assert (1.0 - eta) * maxPower * (t * n) == b * n;
    assert n * (a + b) == a * n + b * n;
  }

  /** Never overspends, and never stops without need: the epochs run fit into the bound, and a run that the bound
      stopped would exceed it with one more epoch. */
  lemma StopsJustInTime(u: Setup)
    requires SetupOk(u) && u.bound.Some? && u.bound.value >= 0.0
    ensures u.rows != [] && CostPerEpoch(u) > 0.0
    ensures 0 <= EpochsRun(u) <= u.maxEpochs && EpochsRun(u) as real * CostPerEpoch(u) <= u.bound.value
    ensures !RunOf(u).reached && EpochsRun(u) < u.maxEpochs ==>
      (EpochsRun(u) + 1) as real * CostPerEpoch(u) > u.bound.value
    ensures RunOf(u).reached <==> u.path.targetEpoch.Some? && u.path.targetEpoch.value <= u.maxEpochs
                                  && u.path.targetEpoch.value as real * CostPerEpoch(u) <= u.bound.value
  {
    hide ZeusCost, MaxPower;
    EpochCostIsPositive(u);
    var c := CostPerEpoch(u);
    hide CostPerEpoch;
    FloorFits(u.bound.value, c, EpochsRun(u));
    FloorFits(u.bound.value, c, EpochsRun(u) + 1);
    FloorFits(u.bound.value, c, 0);
    if u.path.targetEpoch.Some? {
      FloorFits(u.bound.value, c, u.path.targetEpoch.value);
    }
  }

  /** The cost of a run as the simulator computes it, at the greatest power limit of the whole trace. */
  function CostOf(u: Setup, maxPower: real): real
    requires u.rows != [] && CostPerEpoch(u) != 0.0
  {
    ZeusCost(RunOf(u).energy, RunOf(u).time, u.eta, maxPower)
  }

  lemma CostOfRun(u: Setup, maxPower: real)
    requires SetupOk(u) && !u.profile
    ensures u.rows != [] && CostPerEpoch(u) > 0.0
    ensures CostOf(u, maxPower) == EpochsRun(u) as real * EpochCost(u, maxPower)
  {
    EpochCostIsPositive(u);
    CostIsLinear(u, EpochsRun(u), maxPower);
    if EpochsAllowed(u) == 0 {
      ZeroCost(u.eta, maxPower);
    }
  }

  lemma ZeroCost(eta: real, maxPower: real)
    ensures ZeusCost(0.0, 0.0, eta, maxPower) == 0.0
  {
  }

  ghost predicate NeverOverspends(u: Setup, maxPower: real)
    requires SetupOk(u)
  {
    EpochCostIsPositive(u);
    forall bound: real, maxEpochs: int :: bound >= 0.0 && maxEpochs >= 1 ==> Within(u, maxPower, bound, maxEpochs)
  }

  ghost predicate Within(u: Setup, maxPower: real, bound: real, maxEpochs: int)
    requires u.rows != [] && CostPerEpoch(u) != 0.0
  {
    var v := u.(bound := Some(bound), maxEpochs := maxEpochs);
    CostPerEpoch(v) != 0.0 && CostOf(v, maxPower) <= bound
  }

  lemma NeverOverspendsByEpoch(u: Setup, maxPower: real)
    requires SetupOk(u) && !u.profile && EpochCost(u, maxPower) > 0.0
    ensures u.rows != []
    ensures NeverOverspends(u, maxPower) <==> EpochCost(u, maxPower) <= CostPerEpoch(u)
  {
    hide ZeusCost, MaxPower, EpochsRun, RunOf, CostOf;
    EpochCostIsPositive(u);
    if EpochCost(u, maxPower) <= CostPerEpoch(u) {
      forall bound: real, maxEpochs: int | bound >= 0.0 && maxEpochs >= 1
        ensures Within(u, maxPower, bound, maxEpochs)
      {
        var v := u.(bound := Some(bound), maxEpochs := maxEpochs);
        SameEpochCost(u, v, maxPower);
        StopsJustInTime(v);
        CostOfRun(v, maxPower);
        NotNegative(CostPerEpoch(u) - EpochCost(u, maxPower), EpochsRun(v) as real);
        Spread(EpochsRun(v) as real, CostPerEpoch(u), EpochCost(u, maxPower));
      }
    } else {
      var bound := CostPerEpoch(u);
      var v := u.(bound := Some(bound), maxEpochs := 1);
      SameEpochCost(u, v, maxPower);
      OneEpochFits(v);
      CostOfRun(v, maxPower);
      assert !Within(u, maxPower, bound, 1);
    }
  }

  lemma SameEpochCost(u: Setup, v: Setup, maxPower: real)
    requires v == u.(bound := v.bound, maxEpochs := v.maxEpochs) && u.rows != []
    ensures CostPerEpoch(v) == CostPerEpoch(u) && EpochCost(v, maxPower) == EpochCost(u, maxPower)
  {
  }

  lemma Spread(n: real, c: real, d: real)
    ensures (c - d) * n == n * c - n * d
  {
  }

  lemma OneEpochFits(u: Setup)
    requires SetupOk(u) && u.maxEpochs == 1 && u.rows != [] && u.bound == Some(CostPerEpoch(u))
    ensures CostPerEpoch(u) != 0.0 && EpochsRun(u) == 1
  {
    hide CostPerEpoch;
    TargetIsPositive(u);
    EpochsFit(u, 1, CostPerEpoch(u));
  }

  lemma EpochsFit(u: Setup, n: int, c: real)
    requires SetupOk(u) && u.rows != [] && u.maxEpochs == n && c == CostPerEpoch(u) && u.bound == Some(n as real * c)
    requires u.path.targetEpoch.Some? ==> n <= u.path.targetEpoch.value
    ensures CostPerEpoch(u) != 0.0 && EpochsRun(u) == n
  {
    EpochCostIsPositive(u);
    hide CostPerEpoch;
    FloorFits(u.bound.value, CostPerEpoch(u), n);
  }

  lemma DearerEpoch(u: Setup, maxPower: real)
    requires SetupOk(u) && u.rows != [] && maxPower >= MaxPower(u.rows)
    ensures EpochCost(u, maxPower) <= CostPerEpoch(u) <==> u.eta == 1.0 || maxPower == MaxPower(u.rows)
    ensures EpochCost(u, maxPower) >= CostPerEpoch(u)
  {
    hide MaxPower;
    var row := u.path;
    assert RowOk(row);
    var a, b, t := MaxPower(u.rows), maxPower, row.timePerEpoch;
    var d := (b - a) * t;
    assert (1.0 - u.eta) * b * t - (1.0 - u.eta) * a * t == (1.0 - u.eta) * d;
    ThreeFactors(1.0 - u.eta, b - a, t);
  }

  lemma ThreeFactors(x: real, y: real, t: real)
    requires x >= 0.0 && y >= 0.0 && t > 0.0
    ensures x * (y * t) >= 0.0 && (x * (y * t) <= 0.0 <==> x == 0.0 || y == 0.0)
  {
    if x == 0.0 {
      assert x * (y * t) == 0.0;
    } else if y == 0.0 {
      assert y * t == 0.0;
    } else {
      Times(y, t);
      Times(x, y * t);
    }
  }

  /** Early stopping keeps every run within its bound if and only if time costs nothing or the batch size was traced at
      the greatest power limit of the whole trace: the bound is divided by the cost at the greatest power limit of the
      batch size, while the cost of the run is taken at the greatest of all. */
  lemma NeverOverspendsExactlyWhen(u: Setup, maxPower: real)
    requires SetupOk(u) && !u.profile && u.rows != [] && maxPower >= MaxPower(u.rows)
    ensures NeverOverspends(u, maxPower) <==> u.eta == 1.0 || maxPower == MaxPower(u.rows)
  {
    hide NeverOverspends, MaxPower;
    EpochCostIsPositive(u);
    DearerEpoch(u, maxPower);
    NeverOverspendsByEpoch(u, maxPower);
  }

  /** The first epoch while power limits are profiled in it. */
  function FirstEpochCost(u: Setup, maxPower: real): real
    requires u.rows != []
  {
    ZeusCost(MeanEnergy(u.rows), MeanTime(u.rows), u.eta, maxPower)
  }

  lemma CostsAddUp(energy: real, time: real, a: real, b: real, e: real, t: real, eta: real, maxPower: real, n: real)
    requires energy == a + e * n && time == b + t * n
    ensures ZeusCost(energy, time, eta, maxPower) == ZeusCost(a, b, eta, maxPower) + n * ZeusCost(e, t, eta, maxPower)
  {
    LinearCost(e, t, eta, maxPower, n);
    assert eta * (a + e * n) == eta * a + eta * (e * n);
    assert (1.0 - eta) * maxPower * (b + t * n) == (1.0 - eta) * maxPower * b + (1.0 - eta) * maxPower * (t * n);
  }

  /** A profiling run can exceed its bound, by no more than its first epoch costs more than a regular one. */
  lemma ProfilingOverspendsBy(u: Setup)
    requires SetupOk(u) && u.profile && u.bound.Some? && u.bound.value >= 0.0
    ensures u.rows != [] && CostPerEpoch(u) > 0.0
    ensures EpochsAllowed(u) >= 1 ==>
      CostOf(u, MaxPower(u.rows)) <= u.bound.value + (FirstEpochCost(u, MaxPower(u.rows)) - CostPerEpoch(u))
  {
    StopsJustInTime(u);
    TargetIsPositive(u);
    hide MaxPower, ZeusCost, Consumed, RunOf, CostPerEpoch, FirstEpochCost, EpochsAllowed, MeanEnergy, MeanTime;
    var n, power := EpochsRun(u), MaxPower(u.rows);
    if EpochsAllowed(u) >= 1 {
      RunConsumes(u);
      hide ZeusCost, MaxPower, RunOf, Consumed, EpochsRun, EpochsAllowed, EpochCost, FirstEpochCost;
      ProfiledCost(u, n, power);
      assert (n - 1) as real == n as real - 1.0;
      OneLess(FirstEpochCost(u, power), n as real, CostPerEpoch(u), u.bound.value);
      assert CostOf(u, power) == FirstEpochCost(u, power) + (n - 1) as real * EpochCost(u, power);
    }
  }

  /** Over all bounds, profiling never overspends if and only if the dearer first epoch is affordable: where the batch
      size was traced at the greatest power limit, it must cost no more than a regular epoch; otherwise every epoch
      overspends, and the target epoch must come before that has used up what the first one saves. */
  lemma ProfilingNeverOverspendsExactlyWhen(u: Setup, maxPower: real)
    requires SetupOk(u) && u.profile && u.rows != [] && maxPower >= MaxPower(u.rows)
    ensures NeverOverspends(u, maxPower) <==>
            FirstEpochCost(u, maxPower) <= CostPerEpoch(u) && (Overcharge(u, maxPower) <= 0.0 || PaidBack(u, maxPower))
    ensures maxPower == MaxPower(u.rows) ==>
      (NeverOverspends(u, maxPower) <==> FirstEpochCost(u, maxPower) <= CostPerEpoch(u))
  {
    hide MaxPower, Within;
    EpochCostIsPositive(u);
    DearerEpoch(u, maxPower);
    hide CostPerEpoch, EpochCost, FirstEpochCost;
    if FirstEpochCost(u, maxPower) <= CostPerEpoch(u) && (Overcharge(u, maxPower) <= 0.0 || PaidBack(u, maxPower)) {
      forall bound: real, maxEpochs: int | bound >= 0.0 && maxEpochs >= 1
        ensures Within(u, maxPower, bound, maxEpochs)
      {
        ProfiledWithin(u, maxPower, bound, maxEpochs);
      }
    } else if FirstEpochCost(u, maxPower) > CostPerEpoch(u) {
      ProfiledExceeds(u, maxPower, 1);
    } else if u.path.targetEpoch.Some? {
      TargetIsPositive(u);
      ProfiledExceeds(u, maxPower, u.path.targetEpoch.value);
    } else {
      var n := EpochsToSpend(CostPerEpoch(u) - FirstEpochCost(u, maxPower), Overcharge(u, maxPower));
      ProfiledExceeds(u, maxPower, n);
    }
  }

  /** What one epoch costs more than the bound counts for it. */
  function Overcharge(u: Setup, maxPower: real): real
    requires u.rows != []
  {
    EpochCost(u, maxPower) - CostPerEpoch(u)
  }

  /** The job ends before the overcharges exceed what the first epoch saves. */
  predicate PaidBack(u: Setup, maxPower: real)
    requires u.rows != []
  {
    u.path.targetEpoch.Some?
    && FirstEpochCost(u, maxPower) + (u.path.targetEpoch.value - 1) as real * Overcharge(u, maxPower) <= CostPerEpoch(u)
  }

  lemma TargetIsPositive(u: Setup)
    requires SetupOk(u)
    ensures u.path.targetEpoch.Some? ==> u.path.targetEpoch.value >= 1
  {
    var row := u.path;
    assert RowOk(row);
  }

  /** Repeated often enough, an overcharge exceeds any savings. */
  lemma EpochsToSpend(savings: real, overcharge: real) returns (n: int)
    requires savings >= 0.0 && overcharge > 0.0
    ensures n >= 1 && (n - 1) as real * overcharge > savings
  {
    FloorFits(savings, overcharge, (savings / overcharge).Floor + 1);
    FloorFits(savings, overcharge, 0);
    n := (savings / overcharge).Floor + 2;
  }

  lemma ProfiledRunCosts(u: Setup, maxPower: real)
    requires SetupOk(u) && u.profile && u.bound.Some? && u.bound.value >= 0.0
    ensures u.rows != [] && CostPerEpoch(u) > 0.0
    ensures EpochsRun(u) == 0 ==> CostOf(u, maxPower) == 0.0
    ensures EpochsRun(u) >= 1 ==>
      CostOf(u, maxPower) == FirstEpochCost(u, maxPower) + (EpochsRun(u) - 1) as real * EpochCost(u, maxPower)
  {
    EpochCostIsPositive(u);
    NoEpochs(u);
    hide ZeusCost, MaxPower, CostPerEpoch, EpochCost, FirstEpochCost, EpochsRun, RunOf, EpochsAllowed, Consumed;
    if EpochsAllowed(u) == 0 {
      ZeroCost(u.eta, maxPower);
    } else {
      RunConsumes(u);
      ProfiledCost(u, EpochsRun(u), maxPower);
    }
  }

  lemma NoEpochs(u: Setup)
    requires SetupOk(u) && u.rows != [] && CostPerEpoch(u) > 0.0
    ensures EpochsRun(u) == 0 <==> EpochsAllowed(u) == 0
    ensures u.path.targetEpoch.Some? ==> EpochsRun(u) <= u.path.targetEpoch.value
    ensures EpochsAllowed(u) == 0 ==> RunOf(u) == Run(0.0, 0.0, false)
  {
    hide EpochsAllowed, CostPerEpoch;
    TargetIsPositive(u);
  }

  lemma ProfiledWithin(u: Setup, maxPower: real, bound: real, maxEpochs: int)
    requires SetupOk(u) && u.profile && u.rows != [] && CostPerEpoch(u) > 0.0 && bound >= 0.0 && maxEpochs >= 1
    requires FirstEpochCost(u, maxPower) <= CostPerEpoch(u) && (Overcharge(u, maxPower) <= 0.0 || PaidBack(u, maxPower))
    ensures Within(u, maxPower, bound, maxEpochs)
  {
    hide ZeusCost, MaxPower, MeanEnergy, MeanTime, EpochsRun, CostOf, RunOf, EpochsAllowed;
    var v := u.(bound := Some(bound), maxEpochs := maxEpochs);
    SameEpochCost(u, v, maxPower);
    ProfiledRunCosts(v, maxPower);
    StopsJustInTime(v);
    NoEpochs(v);
    assert FirstEpochCost(v, maxPower) == FirstEpochCost(u, maxPower);
    hide CostPerEpoch, EpochCost, FirstEpochCost;
    var n := EpochsRun(v);
    if n >= 1 {
      var t := if u.path.targetEpoch.Some? then u.path.targetEpoch.value else n;
      var first, e, c := FirstEpochCost(u, maxPower), EpochCost(u, maxPower), CostPerEpoch(u);
      var overcharge := Overcharge(u, maxPower);
      assert overcharge <= 0.0 || first + (t - 1) as real * overcharge <= c;
      Affordable(first, n, t, e, c, overcharge, bound);
    }
  }

  lemma Affordable(first: real, n: int, t: int, e: real, c: real, overcharge: real, bound: real)
    requires overcharge == e - c && first <= c && 1 <= n <= t && n as real * c <= bound
    requires overcharge <= 0.0 || first + (t - 1) as real * overcharge <= c
    ensures first + (n - 1) as real * e <= bound
  {
    Overcharged(first, n, e, c, overcharge);
    if overcharge <= 0.0 {
      NotNegative((n - 1) as real, -overcharge);
      assert (n - 1) as real * overcharge == -((n - 1) as real * -overcharge);
    } else {
      OrderScales((n - 1) as real, (t - 1) as real, overcharge);
    }
  }

  lemma Overcharged(first: real, n: int, e: real, c: real, overcharge: real)
    requires overcharge == e - c
    ensures first + (n - 1) as real * e == first + (n - 1) as real * overcharge + n as real * c - c
  {
    var m := (n - 1) as real;
    assert n as real == m + 1.0;
    Spread(m, e, c);
    Spread(c, m, -1.0);
  }

  /** Bound and epochs chosen to let exactly `n` epochs run. */
  lemma ProfiledExceeds(u: Setup, maxPower: real, n: int)
    requires SetupOk(u) && u.profile && u.rows != [] && CostPerEpoch(u) > 0.0
    requires n >= 1 && (u.path.targetEpoch.Some? ==> n <= u.path.targetEpoch.value)
    requires FirstEpochCost(u, maxPower) + (n - 1) as real * Overcharge(u, maxPower) > CostPerEpoch(u)
    ensures !NeverOverspends(u, maxPower)
  {
    hide ZeusCost, MaxPower, MeanEnergy, MeanTime;
    var c := CostPerEpoch(u);
    var bound := n as real * c;
    NotNegative(n as real, c);
    var v := u.(bound := Some(bound), maxEpochs := n);
    SameEpochCost(u, v, maxPower);
    EpochsFit(v, n, c);
    ProfiledRunCosts(v, maxPower);
    assert FirstEpochCost(v, maxPower) == FirstEpochCost(u, maxPower);
    hide EpochsRun, CostOf, CostPerEpoch, EpochCost, FirstEpochCost, RunOf;
    Overcharged(FirstEpochCost(u, maxPower), n, EpochCost(u, maxPower), c, Overcharge(u, maxPower));
    assert !Within(u, maxPower, bound, n);
  }

  /** A trace with a dear limit: profiling overspends a bound that one regular epoch would just meet. */
  lemma ProfilingCanOverspend()
    ensures var dear, cheap := Row(32, 250.0, 10.0, 1.0, None), Row(32, 100.0, 1.0, 1.0, None);
      var u := Setup([dear, cheap], cheap, 1.0, 1, Some(1.0), true);
      SetupOk(u) && MaxPower(u.rows) == 250.0 && CostPerEpoch(u) == 1.0 && EpochsRun(u) == 1 && CostOf(u, 250.0) == 5.5
  {
    var dear, cheap := Row(32, 250.0, 10.0, 1.0, None), Row(32, 100.0, 1.0, 1.0, None);
    var u := Setup([dear, cheap], cheap, 1.0, 1, Some(1.0), true);
    assert RowOk(dear) && RowOk(cheap) && cheap in u.rows;
    assert u.rows[1..] == [cheap] && [cheap][1..] == [];
    assert MaxPower([cheap]) == 100.0 && MaxPower(u.rows) == 250.0;
    var f := (r: Row) => r.energyPerEpoch;
    assert SumOf([cheap], f) == 1.0 && SumOf(u.rows, f) == 11.0 && MeanEnergy(u.rows) == 5.5;
    hide MaxPower, MeanEnergy, MeanTime, ZeusCost;
    KnobEnds(1.0, 1.0, 250.0);
    KnobEnds(5.5, MeanTime(u.rows), 250.0);
    assert CostPerEpoch(u) == 1.0 && FirstEpochCost(u, 250.0) == 5.5;
    OneEpochFits(u);
    ProfiledRunCosts(u, 250.0);
    assert 0 as real * EpochCost(u, 250.0) == 0.0;
  }

  lemma RunConsumes(u: Setup)
    requires u.rows != [] && CostPerEpoch(u) != 0.0 && EpochsAllowed(u) != 0
    ensures (RunOf(u).energy, RunOf(u).time) == Consumed(u, EpochsRun(u))
  {
  }

  lemma OneLess(first: real, n: real, c: real, bound: real)
    requires n * c <= bound
    ensures first + (n - 1.0) * c <= bound + (first - c)
  {
    assert (n - 1.0) * c == n * c - c;
  }

  lemma ProfiledCost(u: Setup, epochs: int, maxPower: real)
    requires u.rows != [] && u.profile
    ensures ZeusCost(Consumed(u, epochs).0, Consumed(u, epochs).1, u.eta, maxPower)
         == FirstEpochCost(u, maxPower) + (epochs - 1) as real * EpochCost(u, maxPower)
  {
    hide ZeusCost, MeanEnergy, MeanTime;
    var a, b, n := MeanEnergy(u.rows), MeanTime(u.rows), (epochs - 1) as real;
    var e, t := u.path.energyPerEpoch, u.path.timePerEpoch;
    var c := Consumed(u, epochs);
    CostsAddUp(c.0, c.1, a, b, e, t, u.eta, maxPower, n);
    assert EpochCost(u, maxPower) == ZeusCost(e, t, u.eta, maxPower);
    assert FirstEpochCost(u, maxPower) == ZeusCost(a, b, u.eta, maxPower);
  }

  // ---- Recurrences ----

  const TRIES: nat := 20

  datatype Fault =
    | DefaultDidNotConverge    // RuntimeError in the first recurrence
    | Unreachable              // RuntimeError after the last try

  /** What the batch size optimizer is told about one attempt. */
  datatype Observation = Observation(bs: int, cost: real, reached: bool)

  /** A run that is recorded, with the cost bound it ran under. */
  datatype Entry = Entry(bs: int, pl: real, energy: real, time: real, reached: bool, cost: real, bound: Option<real>,
                         profiled: bool)

  /** `maxPower` is the greatest power limit in the trace of all jobs, `rows` are those of this job. `choose` stands for
      the optimizers and the random generator: from everything observed so far, the sampled row of
      the trace, which fixes batch size and power limit. */
  datatype Job = Job(rows: seq<Row>, eta: real, maxEpochs: int, beta: Option<real>, maxPower: real,
                     choose: seq<Observation> -> Row)

  ghost predicate JobOk(j: Job) {
    && (forall r :: r in j.rows ==> RowOk(r) && r.powerLimit <= j.maxPower)
    && 0.0 <= j.eta <= 1.0 && j.maxEpochs >= 1 && (j.beta.Some? ==> j.beta.value > 0.0)
    && forall seen :: j.choose(seen) in j.rows
  }

  /** `minCost` is None while no recurrence has finished; `costs` are the accumulated costs of the finished ones. */
  datatype State = State(minCost: Option<real>, seen: seq<Observation>, history: seq<Entry>, costs: seq<real>)

  function Start(): State {
    State(None, [], [], [])
  }

  /** `beta_knob * min_cost`, None when infinite. */
  function Bound(j: Job, minCost: Option<real>): Option<real> {
    if j.beta.None? || minCost.None? then None else Some(j.beta.value * minCost.value)
  }

  /** The power limit is profiled when the batch size is tried for the first time. */
  predicate FirstTry(seen: seq<Observation>, bs: int) {
    forall i :: 0 <= i < |seen| ==> seen[i].bs != bs
  }

  function SetupFor(j: Job, minCost: Option<real>, seen: seq<Observation>): Setup {
    var path := j.choose(seen);
    Setup(Of(j.rows, path.batchSize), path, j.eta, j.maxEpochs, Bound(j, minCost), FirstTry(seen, path.batchSize))
  }

  lemma SetupForOk(j: Job, minCost: Option<real>, seen: seq<Observation>)
    requires JobOk(j)
    ensures var u := SetupFor(j, minCost, seen); SetupOk(u) && u.rows != [] && CostPerEpoch(u) > 0.0
  {
    assert j.choose(seen) in j.rows;
    EpochCostIsPositive(SetupFor(j, minCost, seen));
  }

  /** The outcome of an attempt: not run at all, or run at a cost. */
  datatype Attempt = NeverRan(bs: int, penalty: real) | RanFor(entry: Entry)

  function Attempted(j: Job, minCost: Option<real>, seen: seq<Observation>): Attempt
    requires JobOk(j)
  {
    SetupForOk(j, minCost, seen);
    var u := SetupFor(j, minCost, seen);
    var run := RunOf(u);
    if run.energy == 0.0 && run.time == 0.0 && !run.reached then
      NeverRan(u.path.batchSize, if u.bound.Some? then 100.0 * u.bound.value else 0.0)
    else
      RanFor(Entry(u.path.batchSize, u.path.powerLimit, run.energy, run.time, run.reached,
                   ZeusCost(run.energy, run.time, j.eta, j.maxPower), u.bound, u.profile))
  }

  function Least(minCost: Option<real>, cost: real): Option<real> {
    if minCost.None? || minCost.value > cost then Some(cost) else minCost
  }

  /** One recurrence, `tries` tries left, `acc` spent on it so far. */
  function Recurred(j: Job, s: State, first: bool, tries: nat, acc: real): Result<State, Fault>
    requires JobOk(j)
    decreases tries
  {
    if tries == 0 then Err(Unreachable)
    else
      match Attempted(j, s.minCost, s.seen)
      case NeverRan(bs, penalty) =>
        Recurred(j, s.(seen := s.seen + [Observation(bs, penalty, false)]), first, tries - 1, acc)
      case RanFor(e) =>
        var next := s.(seen := s.seen + [Observation(e.bs, e.cost, e.reached)], history := s.history + [e]);
        if e.reached then Ok(next.(minCost := Least(s.minCost, acc + e.cost), costs := s.costs + [acc + e.cost]))
        else if first then Err(DefaultDidNotConverge)
        else Recurred(j, next, first, tries - 1, acc + e.cost)
  }

  function Simulated(j: Job, s: State, recurrences: nat): Result<State, Fault>
    requires JobOk(j)
    decreases recurrences
  {
    if recurrences == 0 then Ok(s)
    else
      var r := Recurred(j, s, s.costs == [], TRIES, 0.0);
      if r.Err? then r else Simulated(j, r.value, recurrences - 1)
  }

  // ---- What holds over all recurrences ----

  function Sum(xs: seq<real>): real {
    if xs == [] then 0.0 else Sum(xs[..|xs| - 1]) + xs[|xs| - 1]
  }

  function Spent(history: seq<Entry>): real {
    if history == [] then 0.0 else Spent(history[..|history| - 1]) + history[|history| - 1].cost
  }

  function Reached(history: seq<Entry>): nat {
    if history == [] then 0
    else Reached(history[..|history| - 1]) + if history[|history| - 1].reached then 1 else 0
  }

  /** The running minimum of the recurrence costs. */
  function LeastOf(costs: seq<real>): Option<real> {
    if costs == [] then None else Least(LeastOf(costs[..|costs| - 1]), costs[|costs| - 1])
  }

  lemma {:induction false} LeastOfIsLeast(costs: seq<real>)
    ensures LeastOf(costs).None? <==> costs == []
    ensures forall i :: 0 <= i < |costs| ==> LeastOf(costs).value <= costs[i]
    ensures costs != [] ==> exists i :: 0 <= i < |costs| && costs[i] == LeastOf(costs).value
    decreases |costs|
  {
    if costs != [] {
      var n := |costs| - 1;
      LeastOfIsLeast(costs[..n]);
      if LeastOf(costs) == Some(costs[n]) {
        assert costs[n] == LeastOf(costs).value;
      } else {
        var i :| 0 <= i < n && costs[..n][i] == LeastOf(costs[..n]).value;
        assert costs[i] == LeastOf(costs).value;
      }
    }
  }

  ghost predicate TracedAtMax(j: Job, bs: int) {
    Of(j.rows, bs) != [] && MaxPower(Of(j.rows, bs)) == j.maxPower
  }

  /** The i-th recorded run was bounded by beta times the cheapest of the recurrences finished before it; if unprofiled,
      and its batch size was traced at the greatest power limit, it stayed within that bound. */
  ghost predicate EntryOk(j: Job, s: State, i: int)
    requires 0 <= i < |s.history| && Reached(s.history[..i]) <= |s.costs|
  {
    var e := s.history[i];
    && e.cost == ZeusCost(e.energy, e.time, j.eta, j.maxPower)
    && e.bound == Bound(j, LeastOf(s.costs[..Reached(s.history[..i])]))
    && (e.bound.Some? && !e.profiled && TracedAtMax(j, e.bs) ==> e.cost <= e.bound.value)
  }

  ghost predicate CostsOk(s: State) {
    s.minCost == LeastOf(s.costs) && forall i :: 0 <= i < |s.costs| ==> s.costs[i] >= 0.0
  }

  /** Within a recurrence that has spent `acc` so far; between recurrences that is nothing. */
  ghost predicate Inv(j: Job, s: State, acc: real)
    requires JobOk(j)
  {
    && CostsOk(s) && acc >= 0.0
    && Reached(s.history) == |s.costs| && Spent(s.history) == Sum(s.costs) + acc
    && forall i :: 0 <= i < |s.history| ==> Reached(s.history[..i]) <= |s.costs| && EntryOk(j, s, i)
  }

  lemma BoundIsNotNegative(j: Job, s: State)
    requires JobOk(j) && CostsOk(s)
    ensures Bound(j, s.minCost).Some? ==> Bound(j, s.minCost).value >= 0.0
  {
    LeastOfIsLeast(s.costs);
    hide LeastOf;
    if Bound(j, s.minCost).Some? {
      var i :| 0 <= i < |s.costs| && s.costs[i] == s.minCost.value;
      assert s.minCost.value >= 0.0;
      NotNegative(j.beta.value, s.minCost.value);
    }
  }

  lemma {:induction false} SumIsPositive(rows: seq<Row>, f: Row -> real)
    requires forall i :: 0 <= i < |rows| ==> f(rows[i]) > 0.0
    ensures SumOf(rows, f) >= 0.0 && (rows != [] ==> SumOf(rows, f) > 0.0)
    decreases |rows|
  {
    if rows != [] {
      SumIsPositive(rows[1..], f);
    }
  }

  lemma MeanIsPositive(rows: seq<Row>, f: Row -> real)
    requires rows != [] && forall i :: 0 <= i < |rows| ==> f(rows[i]) > 0.0
    ensures MeanOf(rows, f) > 0.0
  {
    SumIsPositive(rows, f);
    var m := MeanOf(rows, f);
    assert m * |rows| as real == SumOf(rows, f);
    OrderScales(m, 0.0, |rows| as real);
  }

  lemma ConsumedIsPositive(u: Setup, epochs: int)
    requires SetupOk(u) && epochs >= 1
    ensures u.rows != [] && Consumed(u, epochs).0 > 0.0 && Consumed(u, epochs).1 > 0.0
  {
    var row := u.path;
    assert RowOk(row);
    if u.profile {
      forall i | 0 <= i < |u.rows|
        ensures RowOk(u.rows[i])
      {
        var r := u.rows[i];
        assert r in u.rows;
      }
      MeanIsPositive(u.rows, (r: Row) => r.energyPerEpoch);
      MeanIsPositive(u.rows, (r: Row) => r.timePerEpoch);
      NotNegative(row.energyPerEpoch, (epochs - 1) as real);
      NotNegative(row.timePerEpoch, (epochs - 1) as real);
    } else {
      Times(row.energyPerEpoch, epochs as real);
      Times(row.timePerEpoch, epochs as real);
    }
  }

  /** A run is skipped if and only if not even one epoch fits into a finite bound. */
  lemma NeverRunsExactlyWhen(j: Job, s: State)
    requires JobOk(j) && (Bound(j, s.minCost).Some? ==> Bound(j, s.minCost).value >= 0.0)
    ensures SetupFor(j, s.minCost, s.seen).rows != []
    ensures Attempted(j, s.minCost, s.seen).NeverRan? <==>
            Bound(j, s.minCost).Some? && Bound(j, s.minCost).value < CostPerEpoch(SetupFor(j, s.minCost, s.seen))
  {
    SetupForOk(j, s.minCost, s.seen);
    var u := SetupFor(j, s.minCost, s.seen);
    hide CostPerEpoch, Consumed, Of, MaxPower, ZeusCost;
    var row := u.path;
    assert RowOk(row);
    if u.bound.Some? {
      FloorFits(u.bound.value, CostPerEpoch(u), 0);
      FloorFits(u.bound.value, CostPerEpoch(u), 1);
    }
    if EpochsAllowed(u) >= 1 {
      ConsumedIsPositive(u, EpochsAllowed(u));
      ConsumedIsPositive(u, EpochsRun(u));
    }
  }

  /** What a recorded run is like. */
  lemma RanEntry(j: Job, s: State)
    requires JobOk(j) && CostsOk(s) && Attempted(j, s.minCost, s.seen).RanFor?
    ensures var e := Attempted(j, s.minCost, s.seen).entry;
      && e.cost == ZeusCost(e.energy, e.time, j.eta, j.maxPower) && e.cost >= 0.0
      && e.bound == Bound(j, s.minCost)
      && (e.bound.Some? && !e.profiled && TracedAtMax(j, e.bs) ==> e.cost <= e.bound.value)
  {
    SetupForOk(j, s.minCost, s.seen);
    BoundIsNotNegative(j, s);
    NeverRunsExactlyWhen(j, s);
    var path := j.choose(s.seen);
    assert path in j.rows && j.maxPower > 0.0;
    RunIsWithin(SetupFor(j, s.minCost, s.seen), j.maxPower);
    hide MaxPower, Of, CostsOk, RunOf, CostPerEpoch, ZeusCost, JobOk, FirstTry, Bound;
    assert SetupFor(j, s.minCost, s.seen).rows == Of(j.rows, Attempted(j, s.minCost, s.seen).entry.bs);
  }

  lemma RunIsWithin(u: Setup, maxPower: real)
    requires SetupOk(u) && maxPower > 0.0 && u.rows != [] && CostPerEpoch(u) > 0.0
    requires u.bound.Some? ==> u.bound.value >= CostPerEpoch(u)
    ensures CostOf(u, maxPower) >= 0.0
    ensures u.bound.Some? && !u.profile && MaxPower(u.rows) == maxPower ==> CostOf(u, maxPower) <= u.bound.value
  {
    EntryCost(u, maxPower);
    if u.bound.Some? && !u.profile && MaxPower(u.rows) == maxPower {
      hide CostOf, EpochsRun, RunOf, MaxPower, ZeusCost;
      StopsJustInTime(u);
      CostOfRun(u, maxPower);
    }
  }

  lemma EntryCost(u: Setup, maxPower: real)
    requires SetupOk(u) && maxPower > 0.0 && u.rows != [] && CostPerEpoch(u) > 0.0
    requires u.bound.Some? ==> u.bound.value >= CostPerEpoch(u)
    ensures CostOf(u, maxPower) >= 0.0
  {
    hide CostPerEpoch, Consumed, MaxPower, ZeusCost;
    var row := u.path;
    assert RowOk(row);
    if u.bound.Some? {
      FloorFits(u.bound.value, CostPerEpoch(u), 1);
    }
    ConsumedIsPositive(u, EpochsRun(u));
    PositiveCost(RunOf(u).energy, RunOf(u).time, u.eta, maxPower);
  }

  // ---- The invariant over recurrences ----

  lemma ReachedOfPrefix(history: seq<Entry>, i: nat)
    requires i <= |history|
    ensures Reached(history[..i]) <= Reached(history)
    decreases |history| - i
  {
    if i < |history| {
      ReachedOfPrefix(history, i + 1);
      assert history[..i + 1][..i] == history[..i];
    } else {
      assert history[..i] == history;
    }
  }

  /** Earlier entries do not notice that history and costs grow. */
  lemma EntriesStay(j: Job, s: State, t: State, i: nat)
    requires i < |s.history| && s.history <= t.history && s.costs <= t.costs
    requires Reached(s.history[..i]) <= |s.costs| && EntryOk(j, s, i)
    ensures Reached(t.history[..i]) <= |t.costs| && EntryOk(j, t, i)
  {
    assert t.history[..i] == s.history[..i];
    var k := Reached(s.history[..i]);
    assert t.costs[..k] == s.costs[..k];
  }

  lemma SkippedKeeps(j: Job, s: State, acc: real, o: Observation)
    requires JobOk(j) && Inv(j, s, acc)
    ensures Inv(j, s.(seen := s.seen + [o]), acc)
  {
    var t := s.(seen := s.seen + [o]);
    hide EntryOk, Reached, Spent, Sum, LeastOf;
    forall i | 0 <= i < |t.history|
      ensures Reached(t.history[..i]) <= |t.costs| && EntryOk(j, t, i)
    {
      EntriesStay(j, s, t, i);
    }
  }

  lemma LedgerMore(history: seq<Entry>, e: Entry)
    ensures Spent(history + [e]) == Spent(history) + e.cost
    ensures Reached(history + [e]) == Reached(history) + if e.reached then 1 else 0
  {
    assert (history + [e])[..|history|] == history;
  }

  lemma CostsMore(costs: seq<real>, c: real)
    ensures Sum(costs + [c]) == Sum(costs) + c && LeastOf(costs + [c]) == Least(LeastOf(costs), c)
  {
    assert (costs + [c])[..|costs|] == costs;
  }

  /** The state after a recorded run. */
  function Recorded(s: State, e: Entry): State {
    s.(seen := s.seen + [Observation(e.bs, e.cost, e.reached)], history := s.history + [e])
  }

  lemma NewEntryOk(j: Job, s: State, t: State, acc: real)
    requires JobOk(j) && Inv(j, s, acc) && Attempted(j, s.minCost, s.seen).RanFor?
    requires t.history == s.history + [Attempted(j, s.minCost, s.seen).entry] && s.costs <= t.costs
    ensures var i := |s.history|; Reached(t.history[..i]) <= |t.costs| && EntryOk(j, t, i)
  {
    RanEntry(j, s);
    var i := |s.history|;
    assert t.history[..i] == s.history && t.history[i] == Attempted(j, s.minCost, s.seen).entry;
    assert t.costs[..|s.costs|] == s.costs;
    hide Attempted, ZeusCost, MaxPower, Of, TracedAtMax, LeastOf, Bound;
  }

  lemma AllEntriesOk(j: Job, s: State, t: State, acc: real)
    requires JobOk(j) && Inv(j, s, acc) && Attempted(j, s.minCost, s.seen).RanFor?
    requires t.history == s.history + [Attempted(j, s.minCost, s.seen).entry] && s.costs <= t.costs
    ensures forall i :: 0 <= i < |t.history| ==> Reached(t.history[..i]) <= |t.costs| && EntryOk(j, t, i)
  {
    NewEntryOk(j, s, t, acc);
    hide EntryOk, Reached, Spent, Sum, LeastOf, Attempted;
    forall i | 0 <= i < |t.history|
      ensures Reached(t.history[..i]) <= |t.costs| && EntryOk(j, t, i)
    {
      if i < |s.history| {
        EntriesStay(j, s, t, i);
      }
    }
  }

  lemma FailedRunKeeps(j: Job, s: State, acc: real)
    requires JobOk(j) && Inv(j, s, acc) && Attempted(j, s.minCost, s.seen).RanFor?
             && !Attempted(j, s.minCost, s.seen).entry.reached
    ensures Inv(j, Recorded(s, Attempted(j, s.minCost, s.seen).entry), acc + Attempted(j, s.minCost, s.seen).entry.cost)
  {
    var e := Attempted(j, s.minCost, s.seen).entry;
    RanEntry(j, s);
    LedgerMore(s.history, e);
    AllEntriesOk(j, s, Recorded(s, e), acc);
    hide EntryOk, Reached, Spent, Sum, LeastOf, Attempted, ZeusCost, MaxPower, Of, TracedAtMax;
  }

  lemma ReachedRunKeeps(j: Job, s: State, acc: real)
    requires JobOk(j) && Inv(j, s, acc) && Attempted(j, s.minCost, s.seen).RanFor?
             && Attempted(j, s.minCost, s.seen).entry.reached
    ensures var e := Attempted(j, s.minCost, s.seen).entry;
      Inv(j, Recorded(s, e).(minCost := Least(s.minCost, acc + e.cost), costs := s.costs + [acc + e.cost]), 0.0)
  {
    var e := Attempted(j, s.minCost, s.seen).entry;
    var c := acc + e.cost;
    var t := Recorded(s, e).(minCost := Least(s.minCost, c), costs := s.costs + [c]);
    RanEntry(j, s);
    AllEntriesOk(j, s, t, acc);
    CostsOkMore(s, t, c);
    hide EntryOk, Attempted, Least, CostsOk, JobOk;
    LedgerCloses(s, e, acc, t);
    hide Reached, Spent, Sum;
  }

  lemma LedgerCloses(s: State, e: Entry, acc: real, t: State)
    requires e.reached && t.history == s.history + [e] && t.costs == s.costs + [acc + e.cost]
    requires Reached(s.history) == |s.costs| && Spent(s.history) == Sum(s.costs) + acc
    ensures Reached(t.history) == |t.costs| && Spent(t.history) == Sum(t.costs) + 0.0
  {
    LedgerMore(s.history, e);
    CostsMore(s.costs, acc + e.cost);
    hide Reached, Spent, Sum;
  }

  lemma CostsOkMore(s: State, t: State, c: real)
    requires CostsOk(s) && c >= 0.0 && t.costs == s.costs + [c] && t.minCost == Least(s.minCost, c)
    ensures CostsOk(t)
  {
    CostsMore(s.costs, c);
    hide LeastOf, Least;
  }

  lemma {:induction false} RecurredKeeps(j: Job, s: State, first: bool, tries: nat, acc: real)
    requires JobOk(j) && Inv(j, s, acc)
    ensures Recurred(j, s, first, tries, acc).Ok? ==>
      var t := Recurred(j, s, first, tries, acc).value;
      && Inv(j, t, 0.0) && |t.costs| == |s.costs| + 1 && s.history < t.history && t.history[|t.history| - 1].reached
      && |t.history| - |s.history| <= |t.seen| - |s.seen| <= tries
    decreases tries
  {
    hide Inv, Attempted, Least, JobOk;
    if tries > 0 {
      match Attempted(j, s.minCost, s.seen)
      case NeverRan(bs, penalty) =>
        SkippedKeeps(j, s, acc, Observation(bs, penalty, false));
        RecurredKeeps(j, s.(seen := s.seen + [Observation(bs, penalty, false)]), first, tries - 1, acc);
      case RanFor(e) =>
        if e.reached {
          ReachedRunKeeps(j, s, acc);
        } else {
          FailedRunKeeps(j, s, acc);
          if !first {
            RecurredKeeps(j, Recorded(s, e), first, tries - 1, acc + e.cost);
          }
        }
    }
  }

  /** Over all recurrences: each run was bounded by beta times the running minimum of the accumulated recurrence costs
      and kept to it as `EntryOk` says, every recurrence ended in exactly one run that reached, and nothing was spent
      that is not in some recurrence's cost. */
  lemma {:induction false} SimulationKeeps(j: Job, s: State, recurrences: nat)
    requires JobOk(j) && Inv(j, s, 0.0)
    ensures Simulated(j, s, recurrences).Ok? ==>
      && Inv(j, Simulated(j, s, recurrences).value, 0.0)
      && |Simulated(j, s, recurrences).value.costs| == |s.costs| + recurrences
    decreases recurrences
  {
    hide Inv, Recurred, JobOk;
    if recurrences > 0 {
      RecurredKeeps(j, s, s.costs == [], TRIES, 0.0);
      var r := Recurred(j, s, s.costs == [], TRIES, 0.0);
      if r.Ok? {
        SimulationKeeps(j, r.value, recurrences - 1);
      }
    }
  }

  lemma StartInv(j: Job)
    requires JobOk(j)
    ensures Inv(j, Start(), 0.0)
  {
  }

  /** The first recurrence takes one try, or the simulation stops with an error. */
  lemma FirstRecurrenceIsOneTry(j: Job)
    requires JobOk(j)
    ensures match Recurred(j, Start(), true, TRIES, 0.0)
      case Ok(s) => |s.history| == 1 && s.history[0].reached && s.minCost == Some(s.history[0].cost)
      case Err(f) => f == DefaultDidNotConverge
  {
    NeverRunsExactlyWhen(j, Start());
    hide Attempted, JobOk;
    var t := Attempted(j, None, []);
    assert t.RanFor?;
    assert Recurred(j, Start(), true, TRIES, 0.0)
        == if t.entry.reached then
             Ok(Recorded(Start(), t.entry).(minCost := Least(None, 0.0 + t.entry.cost),
                                            costs := [] + [0.0 + t.entry.cost]))
           else Err(DefaultDidNotConverge);
  }

  // ---- What the optimizer is told ----

  function Finished(seen: seq<Observation>): nat {
    if seen == [] then 0
    else Finished(seen[..|seen| - 1]) + if seen[|seen| - 1].reached then 1 else 0
  }

  /** An attempt that never ran is reported as failed, at a hundred times its bound: beta times the cheapest of the
      recurrences finished before it. */
  ghost predicate Penalty(j: Job, s: State, i: int)
    requires 0 <= i < |s.seen|
  {
    var finished := Finished(s.seen[..i]);
    && !s.seen[i].reached
    && j.beta.Some? && 0 < finished <= |s.costs|
    && exists k :: 0 <= k < finished && s.seen[i].cost == 100.0 * (j.beta.value * s.costs[k]) &&
         forall n :: 0 <= n < finished ==> s.costs[k] <= s.costs[n]
  }

  /** The batch size is not among the first n tried. */
  ghost predicate NewIn(seen: seq<Observation>, n: nat, bs: int)
    requires n <= |seen|
  {
    forall i :: 0 <= i < n ==> seen[i].bs != bs
  }

  /** Every observation is that of a recorded run, in order, or a penalty; and a run is profiled exactly when its batch
      size had not been tried before. */
  ghost predicate AllTold(j: Job, s: State, at: seq<nat>) {
    && |at| == |s.history| && Ascending(at, |s.seen|)
    && (forall n :: 0 <= n < |at| ==>
          && s.seen[at[n]] == Observation(s.history[n].bs, s.history[n].cost, s.history[n].reached)
          && (s.history[n].profiled <==> NewIn(s.seen, at[n], s.history[n].bs)))
    && forall i :: 0 <= i < |s.seen| && i !in at ==> Penalty(j, s, i)
  }

  /** The invariant: what was told, with as many successes as recurrences and the least of their costs. */
  ghost predicate Tells(j: Job, s: State) {
    && Finished(s.seen) == |s.costs| && s.minCost == LeastOf(s.costs)
    && exists at :: AllTold(j, s, at)
  }

  lemma FinishedMore(seen: seq<Observation>, o: Observation)
    ensures Finished(seen + [o]) == Finished(seen) + if o.reached then 1 else 0
  {
    assert (seen + [o])[..|seen|] == seen;
  }

  lemma PenaltyStays(j: Job, s: State, t: State, i: int)
    requires 0 <= i < |s.seen| && Penalty(j, s, i) && s.seen <= t.seen && s.costs <= t.costs
    ensures Penalty(j, t, i)
  {
    assert t.seen[..i] == s.seen[..i];
    assert forall k :: 0 <= k < |s.costs| ==> t.costs[k] == s.costs[k];
  }

  lemma NewInLonger(seen: seq<Observation>, longer: seq<Observation>)
    requires seen <= longer
    ensures forall n: nat, bs :: n <= |seen| ==> NewIn(longer, n, bs) == NewIn(seen, n, bs)
  {
  }

  lemma ToldRun(j: Job, s: State, at: seq<nat>, e: Entry, t: State)
    requires AllTold(j, s, at) && s.costs <= t.costs && (e.profiled <==> NewIn(s.seen, |s.seen|, e.bs))
    requires t.seen == Recorded(s, e).seen && t.history == Recorded(s, e).history
    ensures AllTold(j, t, at + [|s.seen|])
  {
    hide Penalty;
    AscendingMore(at, |s.seen|);
    NewInLonger(s.seen, t.seen);
    hide NewIn;
    var more := at + [|s.seen|];
    forall i | 0 <= i < |t.seen| && i !in more
      ensures Penalty(j, t, i)
    {
      assert more[|at|] == |s.seen|;
      assert i !in at;
      PenaltyStays(j, s, t, i);
    }
  }

  lemma ToldPenalty(j: Job, s: State, at: seq<nat>, o: Observation, t: State)
    requires AllTold(j, s, at) && t == s.(seen := s.seen + [o]) && Penalty(j, t, |s.seen|)
    ensures AllTold(j, t, at)
  {
    hide Penalty;
    AscendingMore(at, |s.seen|);
    NewInLonger(s.seen, t.seen);
    hide NewIn;
    forall i | 0 <= i < |t.seen| && i !in at
      ensures Penalty(j, t, i)
    {
      if i < |s.seen| {
        PenaltyStays(j, s, t, i);
      }
    }
  }

  lemma PenaltyOf(j: Job, s: State)
    requires JobOk(j) && CostsOk(s) && Attempted(j, s.minCost, s.seen).NeverRan?
    ensures j.beta.Some? && s.minCost.Some?
    ensures Attempted(j, s.minCost, s.seen).penalty == 100.0 * (j.beta.value * s.minCost.value)
  {
    BoundIsNotNegative(j, s);
    NeverRunsExactlyWhen(j, s);
    PenaltyOfBound(j, s);
    hide Attempted;
    BoundIs(j, s.minCost);
    hide Bound;
  }

  lemma PenaltyOfBound(j: Job, s: State)
    requires JobOk(j) && Attempted(j, s.minCost, s.seen).NeverRan? && Bound(j, s.minCost).Some?
    ensures Attempted(j, s.minCost, s.seen).penalty == 100.0 * Bound(j, s.minCost).value
  {
    hide RunOf, Of, CostPerEpoch, ZeusCost, Bound, JobOk;
  }

  lemma BoundIs(j: Job, minCost: Option<real>)
    requires Bound(j, minCost).Some?
    ensures j.beta.Some? && minCost.Some? && Bound(j, minCost).value == j.beta.value * minCost.value
  {
  }

  lemma SkipTells(j: Job, s: State)
    requires JobOk(j) && CostsOk(s) && Tells(j, s) && Attempted(j, s.minCost, s.seen).NeverRan?
    ensures var a := Attempted(j, s.minCost, s.seen);
      Tells(j, s.(seen := s.seen + [Observation(a.bs, a.penalty, false)]))
  {
    PenaltyOf(j, s);
    hide JobOk, CostsOk, Attempted;
    var a := Attempted(j, s.minCost, s.seen);
    var o := Observation(a.bs, a.penalty, false);
    var t := s.(seen := s.seen + [o]);
    FinishedMore(s.seen, o);
    NewPenalty(j, s, o);
    hide LeastOf, Finished, Penalty, AllTold;
    var at :| AllTold(j, s, at);
    ToldPenalty(j, s, at, o, t);
  }

  lemma NewPenalty(j: Job, s: State, o: Observation)
    requires !o.reached && Finished(s.seen) == |s.costs| && s.minCost == LeastOf(s.costs)
    requires j.beta.Some? && s.minCost.Some? && o.cost == 100.0 * (j.beta.value * s.minCost.value)
    ensures Penalty(j, s.(seen := s.seen + [o]), |s.seen|)
  {
    LeastOfIsLeast(s.costs);
    hide LeastOf, Finished;
    var t := s.(seen := s.seen + [o]);
    assert t.seen[..|s.seen|] == s.seen;
    var k :| 0 <= k < |s.costs| && s.costs[k] == s.minCost.value;
    assert t.seen[|s.seen|].cost == 100.0 * (j.beta.value * t.costs[k]);
  }

  lemma RunTells(j: Job, s: State, e: Entry, t: State)
    requires Tells(j, s) && t.seen == Recorded(s, e).seen && t.history == Recorded(s, e).history
    requires e.profiled <==> NewIn(s.seen, |s.seen|, e.bs)
    requires if e.reached then exists c :: t.costs == s.costs + [c] && t.minCost == Least(s.minCost, c)
             else t.costs == s.costs && t.minCost == s.minCost
    ensures Tells(j, t)
  {
    FinishedMore(s.seen, Observation(e.bs, e.cost, e.reached));
    if e.reached {
      var c :| t.costs == s.costs + [c] && t.minCost == Least(s.minCost, c);
      CostsMore(s.costs, c);
    }
    hide AllTold, Finished, LeastOf;
    var at :| AllTold(j, s, at);
    ToldRun(j, s, at, e, t);
  }

  lemma {:induction false} RecurredTells(j: Job, s: State, first: bool, tries: nat, acc: real)
    requires JobOk(j) && Inv(j, s, acc) && Tells(j, s)
    ensures Recurred(j, s, first, tries, acc).Ok? ==> Tells(j, Recurred(j, s, first, tries, acc).value)
    decreases tries
  {
    hide Inv, Attempted, Least, JobOk, Tells;
    if tries > 0 {
      match Attempted(j, s.minCost, s.seen)
      case NeverRan(bs, penalty) =>
        InvCosts(j, s, acc);
        SkipTells(j, s);
        SkippedKeeps(j, s, acc, Observation(bs, penalty, false));
        RecurredTells(j, s.(seen := s.seen + [Observation(bs, penalty, false)]), first, tries - 1, acc);
      case RanFor(e) =>
        EntryTells(j, s);
        if e.reached {
          var c := acc + e.cost;
          var t := Recorded(s, e).(minCost := Least(s.minCost, c), costs := s.costs + [c]);
          RunTells(j, s, e, t);
        } else if !first {
          RunTells(j, s, e, Recorded(s, e));
          FailedRunKeeps(j, s, acc);
          RecurredTells(j, Recorded(s, e), first, tries - 1, acc + e.cost);
        }
    }
  }

  /** Energy and time of a number of epochs; of a profiled run the first of them is the mean over all limits. */
  ghost predicate Uses(u: Setup, energy: real, time: real, n: int) {
    if u.profile then
      && u.rows != []
      && energy == MeanEnergy(u.rows) + u.path.energyPerEpoch * (n - 1) as real
      && time == MeanTime(u.rows) + u.path.timePerEpoch * (n - 1) as real
    else energy == u.path.energyPerEpoch * n as real && time == u.path.timePerEpoch * n as real
  }

  lemma ConsumedIs(u: Setup, n: int)
    requires u.rows != []
    ensures Uses(u, Consumed(u, n).0, Consumed(u, n).1, n)
  {
    hide MeanEnergy, MeanTime;
  }

  /** A recorded run is of the row chosen, is profiled exactly when its batch size is new, and uses what its epochs
      do. */
  lemma EntryTells(j: Job, s: State)
    requires JobOk(j) && Attempted(j, s.minCost, s.seen).RanFor?
    ensures var e := Attempted(j, s.minCost, s.seen).entry;
      var u := SetupFor(j, s.minCost, s.seen); var path := j.choose(s.seen);
      && u.path == path && e.bs == path.batchSize && e.pl == path.powerLimit
      && (e.profiled <==> u.profile) && (e.profiled <==> NewIn(s.seen, |s.seen|, e.bs))
      && u.rows != [] && CostPerEpoch(u) > 0.0 && EpochsAllowed(u) != 0
      && Uses(u, e.energy, e.time, EpochsRun(u))
      && (e.reached <==> path.targetEpoch.Some? && path.targetEpoch.value <= EpochsAllowed(u))
  {
    SetupForOk(j, s.minCost, s.seen);
    EntryIs(j, s);
    var u := SetupFor(j, s.minCost, s.seen);
    assert u.path == j.choose(s.seen) && (u.profile <==> NewIn(s.seen, |s.seen|, u.path.batchSize));
    hide *;
    RunReaches(u);
    if EpochsAllowed(u) != 0 {
      RunConsumes(u);
      ConsumedIs(u, EpochsRun(u));
    }
  }

  lemma EntryIs(j: Job, s: State)
    requires JobOk(j) && Attempted(j, s.minCost, s.seen).RanFor?
    ensures var u := SetupFor(j, s.minCost, s.seen); u.rows != [] && CostPerEpoch(u) != 0.0
    ensures var u := SetupFor(j, s.minCost, s.seen); var run := RunOf(u);
      var e := Attempted(j, s.minCost, s.seen).entry;
      && e.energy == run.energy && e.time == run.time && e.reached == run.reached
      && !(run.energy == 0.0 && run.time == 0.0 && !run.reached)
      && e.bs == u.path.batchSize && e.pl == u.path.powerLimit && e.profiled == u.profile
  {
    SetupForOk(j, s.minCost, s.seen);
    hide JobOk, SetupOk, RunOf, CostPerEpoch, Of, Bound, ZeusCost;
  }

  lemma RunReaches(u: Setup)
    requires u.rows != [] && CostPerEpoch(u) != 0.0
    ensures EpochsAllowed(u) == 0 ==> RunOf(u) == Run(0.0, 0.0, false)
    ensures EpochsAllowed(u) != 0 ==>
      (RunOf(u).reached <==> u.path.targetEpoch.Some? && u.path.targetEpoch.value <= EpochsAllowed(u))
  {
    hide CostPerEpoch, EpochsAllowed, Consumed;
  }

  lemma InvCosts(j: Job, s: State, acc: real)
    requires JobOk(j) && Inv(j, s, acc)
    ensures CostsOk(s)
  {
  }

  /** Over all recurrences the optimizer is told of every recorded run, in order, and of nothing else but the penalties
      of attempts that never ran. */
  lemma {:induction false} SimulationTells(j: Job, s: State, recurrences: nat)
    requires JobOk(j) && Inv(j, s, 0.0) && Tells(j, s)
    ensures Simulated(j, s, recurrences).Ok? ==> Tells(j, Simulated(j, s, recurrences).value)
    decreases recurrences
  {
    hide Inv, Recurred, JobOk, Tells;
    if recurrences > 0 {
      RecurredKeeps(j, s, s.costs == [], TRIES, 0.0);
      RecurredTells(j, s, s.costs == [], TRIES, 0.0);
      var r := Recurred(j, s, s.costs == [], TRIES, 0.0);
      if r.Ok? {
        SimulationTells(j, r.value, recurrences - 1);
      }
    }
  }

  lemma StartTells(j: Job)
    ensures Tells(j, Start())
  {
    assert AllTold(j, Start(), []);
  }

  // ---- When a recurrence ends ----

  /** The state after k attempts of which none ends the recurrence. */
  function Tried(j: Job, s: State, k: nat): State
    requires JobOk(j)
    decreases k
  {
    if k == 0 then s
    else
      match Attempted(j, s.minCost, s.seen)
      case NeverRan(bs, penalty) => Tried(j, s.(seen := s.seen + [Observation(bs, penalty, false)]), k - 1)
      case RanFor(e) => Tried(j, Recorded(s, e), k - 1)
  }

  function NthAttempt(j: Job, s: State, k: nat): Attempt
    requires JobOk(j)
  {
    var t := Tried(j, s, k);
    Attempted(j, t.minCost, t.seen)
  }

  /** The k-th attempt, counted from zero, lets the recurrence go on. */
  predicate GoesOn(j: Job, s: State, first: bool, k: nat)
    requires JobOk(j)
  {
    NthAttempt(j, s, k).NeverRan? || (!first && !NthAttempt(j, s, k).entry.reached)
  }

  ghost predicate GoesOnFor(j: Job, s: State, first: bool, n: nat)
    requires JobOk(j)
  {
    forall i: nat :: i < n ==> GoesOn(j, s, first, i)
  }

  /** The first attempt after which the recurrence does not go on is the k-th. */
  ghost predicate StopsAt(j: Job, s: State, first: bool, k: nat)
    requires JobOk(j)
  {
    GoesOnFor(j, s, first, k) && NthAttempt(j, s, k).RanFor?
  }

  ghost predicate EndsRightly(j: Job, s: State, first: bool, tries: nat, r: Result<State, Fault>)
    requires JobOk(j)
  {
    match r
    case Ok(t) =>
      exists k: nat :: k < tries && StopsAt(j, s, first, k) && NthAttempt(j, s, k).entry.reached &&
        t.history == Tried(j, s, k).history + [NthAttempt(j, s, k).entry]
    case Err(Unreachable) => GoesOnFor(j, s, first, tries)
    case Err(DefaultDidNotConverge) =>
      first && exists k: nat :: k < tries && StopsAt(j, s, first, k) && !NthAttempt(j, s, k).entry.reached
  }

  lemma Shifted(j: Job, s: State, next: State, first: bool, k: nat)
    requires JobOk(j) && next == Tried(j, s, 1)
    ensures Tried(j, s, k + 1) == Tried(j, next, k) && NthAttempt(j, s, k + 1) == NthAttempt(j, next, k)
    ensures GoesOn(j, s, first, k + 1) == GoesOn(j, next, first, k)
  {
    hide Attempted, JobOk;
  }

  lemma ShiftedFor(j: Job, s: State, next: State, first: bool, n: nat)
    requires JobOk(j) && next == Tried(j, s, 1) && GoesOn(j, s, first, 0) && GoesOnFor(j, next, first, n)
    ensures GoesOnFor(j, s, first, n + 1)
  {
    hide GoesOn, Tried, JobOk;
    forall i: nat | i < n + 1
      ensures GoesOn(j, s, first, i)
    {
      if i > 0 {
        Shifted(j, s, next, first, i - 1);
      }
    }
  }

  lemma EndsLater(j: Job, s: State, next: State, first: bool, tries: nat, r: Result<State, Fault>)
    requires JobOk(j) && next == Tried(j, s, 1) && GoesOn(j, s, first, 0) && EndsRightly(j, next, first, tries, r)
    ensures EndsRightly(j, s, first, tries + 1, r)
  {
    hide GoesOn, Tried, NthAttempt, GoesOnFor, JobOk;
    if r == Err(Unreachable) {
      ShiftedFor(j, s, next, first, tries);
    } else {
      var k: nat :| k < tries && StopsAt(j, next, first, k) &&
        match r
        case Ok(t) =>
          && NthAttempt(j, next, k).entry.reached
          && t.history == Tried(j, next, k).history + [NthAttempt(j, next, k).entry]
        case Err(_) => !NthAttempt(j, next, k).entry.reached;
      Shifted(j, s, next, first, k);
      ShiftedFor(j, s, next, first, k);
      assert StopsAt(j, s, first, k + 1);
    }
  }

  /** A recurrence succeeds with the first attempt that reaches its target, unless it ran out of tries before, or the
      default failed in the first recurrence. */
  lemma {:induction false} RecurredEndsRightly(j: Job, s: State, first: bool, tries: nat, acc: real)
    requires JobOk(j)
    ensures EndsRightly(j, s, first, tries, Recurred(j, s, first, tries, acc))
    decreases tries
  {
    hide Attempted, JobOk, Least, EndsRightly;
    if tries == 0 {
      EndsAtOnce(j, s, first);
    } else {
      var a := Attempted(j, s.minCost, s.seen);
      if GoesOn(j, s, first, 0) {
        var next := Tried(j, s, 1);
        RecurredEndsRightly(j, next, first, tries - 1, if a.NeverRan? then acc else acc + a.entry.cost);
        EndsLater(j, s, next, first, tries - 1,
                  Recurred(j, next, first, tries - 1, if a.NeverRan? then acc else acc + a.entry.cost));
      } else {
        EndsNow(j, s, first, tries, acc);
      }
    }
  }

  lemma EndsAtOnce(j: Job, s: State, first: bool)
    requires JobOk(j)
    ensures EndsRightly(j, s, first, 0, Err(Unreachable))
  {
    hide JobOk;
  }

  lemma EndsNow(j: Job, s: State, first: bool, tries: nat, acc: real)
    requires JobOk(j) && tries > 0 && !GoesOn(j, s, first, 0)
    ensures EndsRightly(j, s, first, tries, Recurred(j, s, first, tries, acc))
  {
    hide Attempted, JobOk, Least;
    assert StopsAt(j, s, first, 0);
  }

  // ---- The simulator's loop ----

  method SimulateOneJob(j: Job, recurrences: nat) returns (result: Result<seq<Entry>, Fault>)
    requires JobOk(j)
    ensures result == match Simulated(j, Start(), recurrences) case Ok(s) => Ok(s.history) case Err(f) => Err(f)
  {
    hide Attempted, JobOk, Least;
    var minCost: Option<real> := None;
    var seen: seq<Observation> := [];
    var history: seq<Entry> := [];
    ghost var costs: seq<real> := [];
    for i := 0 to recurrences
      invariant |costs| == i
      invariant Simulated(j, State(minCost, seen, history, costs), recurrences - i)
                == Simulated(j, Start(), recurrences)
    {
      ghost var begun := State(minCost, seen, history, costs);
      var costAcc := 0.0;
      var done := false;
      var tries := 1;
      while tries < 21 && !done
        invariant 1 <= tries <= 21
        invariant !done ==>
          && costs == begun.costs
          && Recurred(j, State(minCost, seen, history, costs), i == 0, 21 - tries, costAcc)
             == Recurred(j, begun, i == 0, TRIES, 0.0)
        invariant done ==>
          && Recurred(j, begun, i == 0, TRIES, 0.0) == Ok(State(minCost, seen, history, costs))
          && |costs| == i + 1
        decreases 21 - tries, !done
      {
        var attempt := Attempted(j, minCost, seen);
        match attempt {
          case NeverRan(bs, penalty) =>
            seen := seen + [Observation(bs, penalty, false)];
            tries := tries + 1;
          case RanFor(e) =>
            costAcc := costAcc + e.cost;
            seen := seen + [Observation(e.bs, e.cost, e.reached)];
            history := history + [e];
            if e.reached {
              minCost := Least(minCost, costAcc);
              costs := costs + [costAcc];
              done := true;
            } else {
              if i == 0 {
                return Err(DefaultDidNotConverge);
              }
              tries := tries + 1;
            }
        }
      }
      if !done {
        return Err(Unreachable);
      }
    }
    result := Ok(history);
  }
}
