/** The optimum selectors of zeus/optimizer/power_limit.py: `Energy`, `Time`, `ZeusCost`, `MaxSlowdownConstraint`. */
module OptimumSelectors {
  import opened Lists
  import opened Metric
  import opened PowerLimit

  predicate LessEnergy(x: Measurement, y: Measurement) { x.energy <= y.energy }

  predicate LessTime(x: Measurement, y: Measurement) { x.time <= y.time }

  predicate LowerLimit(x: Measurement, y: Measurement) { x.powerLimit <= y.powerLimit }

  predicate HigherLimit(x: Measurement, y: Measurement) { x.powerLimit >= y.powerLimit }

  function MaxLimit(ms: seq<Measurement>): int
    requires ms != []
  {
    ms[FirstLeast(HigherLimit, ms)].powerLimit
  }

  /** The first measurement at the greatest limit. */
  ghost predicate FirstAtMax(ms: seq<Measurement>, top: int) {
    && 0 <= top < |ms|
    && (forall i :: 0 <= i < |ms| ==> ms[i].powerLimit <= ms[top].powerLimit)
    && (forall i :: 0 <= i < top ==> ms[i].powerLimit < ms[top].powerLimit)
  }

  lemma MaxIsFirstAtMax(ms: seq<Measurement>)
    requires ms != []
    ensures FirstAtMax(ms, FirstLeast(HigherLimit, ms))
  {
    FirstLeastIsLeast(HigherLimit, ms);
    var k := FirstLeast(HigherLimit, ms);
    assert forall i :: 0 <= i < |ms| ==> HigherLimit(ms[k], ms[i]);
    assert forall i :: 0 <= i < k ==> !HigherLimit(ms[i], ms[k]);
  }

  /** Index `i` is the last measurement at its limit. */
  ghost predicate LastAt(ms: seq<Measurement>, limit: int, i: int) {
    && 0 <= i < |ms| && ms[i].powerLimit == limit
    && forall j :: i < j < |ms| ==> ms[j].powerLimit != limit
  }

  /** The dictionary keeps for each limit what its last measurement costs. */
  lemma {:induction false} LastCostIs(ms: seq<Measurement>, limit: int, eta: real, maxPower: int) returns (i: int)
    requires Measured(ms, limit)
    ensures LastAt(ms, limit, i)
    ensures LastCost(ms, limit, eta, maxPower) == ZeusCost(ms[i].energy, ms[i].time, eta, maxPower as real)
    decreases |ms|
  {
    hide ZeusCost;
    i := |ms| - 1;
    if ms[i].powerLimit != limit {
      var before := ms[..i];
      var k :| 0 <= k < |ms| && ms[k].powerLimit == limit;
      assert before[k].powerLimit == limit;
      i := LastCostIs(before, limit, eta, maxPower);
    }
  }

  ghost predicate Measured(ms: seq<Measurement>, limit: int) {
    exists i :: 0 <= i < |ms| && ms[i].powerLimit == limit
  }

  /** The cost the dictionary keeps for a limit: that of its last measurement. */
  function LastCost(ms: seq<Measurement>, limit: int, eta: real, maxPower: int): real
    requires Measured(ms, limit)
  {
    var last := ms[|ms| - 1];
    if last.powerLimit == limit then ZeusCost(last.energy, last.time, eta, maxPower as real)
    else LastCost(ms[..|ms| - 1], limit, eta, maxPower)
  }

  /** The allowed factor times the time of the first measurement at the maximum limit. */
  function AllowedTime(ms: seq<Measurement>, factor: real): real
    requires ms != []
  {
    factor * ms[FirstLeast(HigherLimit, ms)].time
  }

  predicate FastEnough(ms: seq<Measurement>, m: Measurement, factor: real)
    requires ms != []
  {
    m.time <= AllowedTime(ms, factor)
  }

  // ---- The choices as functions; what a selector does without measurements is not defined, zero stands for it ----

  function EnergyChoice(ms: seq<Measurement>): int {
    if ms == [] then 0 else ms[FirstLeast(LessEnergy, ms)].powerLimit
  }

  function TimeChoice(ms: seq<Measurement>): int {
    if ms == [] then 0 else ms[FirstLeast(LessTime, ms)].powerLimit
  }

  /** Each measurement with the cost the dictionary keeps for its limit. */
  function Costed(ms: seq<Measurement>, eta: real, maxPower: int): (r: seq<(int, real)>)
    ensures |r| == |ms| && forall i :: 0 <= i < |ms| ==>
              r[i] == (ms[i].powerLimit, LastCost(ms, ms[i].powerLimit, eta, maxPower))
  {
    seq(|ms|, i requires 0 <= i < |ms| => (ms[i].powerLimit, LastCost(ms, ms[i].powerLimit, eta, maxPower)))
  }

  predicate CostsLess(x: (int, real), y: (int, real)) { x.1 <= y.1 }

  function ZeusChoice(ms: seq<Measurement>, eta: real, worldSize: nat): int {
    if ms == [] then 0
    else ms[FirstLeast(CostsLess, Costed(ms, eta, MaxLimit(ms) * worldSize))].powerLimit
  }

  function Feasible(ms: seq<Measurement>, most: real): (r: seq<Measurement>)
    ensures forall m :: m in r <==> m in ms && m.time <= most
  {
    if ms == [] then [] else (if ms[0].time <= most then [ms[0]] else []) + Feasible(ms[1..], most)
  }

  function MaxSlowdownChoice(ms: seq<Measurement>, factor: real): int {
    if ms == [] then 0
    else
      var feasible := Feasible(ms, AllowedTime(ms, factor));
      if feasible == [] then 0 else feasible[FirstLeast(LowerLimit, feasible)].powerLimit
  }

  /** Each of the selectors picks a limit that was measured, as the profiler needs it. */
  lemma SelectorsSelect(eta: real, worldSize: nat, factor: real)
    requires factor >= 1.0
    ensures Selects(EnergyChoice) && Selects(TimeChoice)
    ensures Selects(ms => ZeusChoice(ms, eta, worldSize)) && Selects(ms => MaxSlowdownChoice(ms, factor))
  {
    hide Feasible, Costed, LastCost;
    forall ms: seq<Measurement> | ms != []
      ensures exists i :: 0 <= i < |ms| && MaxSlowdownChoice(ms, factor) == ms[i].powerLimit
    {
      SlowdownChoice(ms, factor);
    }
  }

  method SelectEnergy(ms: seq<Measurement>) returns (limit: int)
    requires ms != []
    ensures limit == EnergyChoice(ms)
    ensures exists i :: 0 <= i < |ms| && limit == ms[i].powerLimit &&
              (forall j :: 0 <= j < |ms| ==> ms[i].energy <= ms[j].energy) &&
              (forall j :: 0 <= j < i ==> ms[i].energy < ms[j].energy)
  {
    FirstLeastIsLeast(LessEnergy, ms);
    var k := FirstLeast(LessEnergy, ms);
    assert forall j :: 0 <= j < |ms| ==> LessEnergy(ms[k], ms[j]);
    assert forall j :: 0 <= j < k ==> !LessEnergy(ms[j], ms[k]);
    limit := ms[k].powerLimit;
  }

  method SelectTime(ms: seq<Measurement>) returns (limit: int)
    requires ms != []
    ensures limit == TimeChoice(ms)
    ensures exists i :: 0 <= i < |ms| && limit == ms[i].powerLimit &&
              (forall j :: 0 <= j < |ms| ==> ms[i].time <= ms[j].time) &&
              (forall j :: 0 <= j < i ==> ms[i].time < ms[j].time)
  {
    FirstLeastIsLeast(LessTime, ms);
    var k := FirstLeast(LessTime, ms);
    assert forall j :: 0 <= j < |ms| ==> LessTime(ms[k], ms[j]);
    assert forall j :: 0 <= j < k ==> !LessTime(ms[j], ms[k]);
    limit := ms[k].powerLimit;
  }

  /** One of the keys is the limit `l` and was first measured no later than at `i`. */
  ghost predicate Known(order: seq<int>, at: seq<nat>, i: int, l: int) {
    exists j :: 0 <= j < |at| && j < |order| && at[j] <= i && order[j] == l
  }

  /** The keys of the dictionary in order of appearance: `at[j]` is where the j-th limit was first measured. */
  ghost predicate Appear(ms: seq<Measurement>, order: seq<int>, at: seq<nat>) {
    && |at| == |order|
    && (forall j :: 0 <= j < |at| ==> at[j] < |ms| && ms[at[j]].powerLimit == order[j])
    && (forall i, j :: 0 <= i < j < |at| ==> at[i] < at[j])
    && forall i :: 0 <= i < |ms| ==> Known(order, at, i, ms[i].powerLimit)
  }

  lemma KnownMore(order: seq<int>, at: seq<nat>, i: int, l: int, key: int, n: nat)
    requires |at| == |order|
    ensures Known(order, at, i, l) ==> Known(order + [key], at + [n], i, l)
    ensures Known(order + [key], at + [n], n, key)
  {
    var order', at' := order + [key], at + [n];
    assert at'[|at|] <= n && order'[|at|] == key;
    if Known(order, at, i, l) {
      var j :| 0 <= j < |at| && j < |order| && at[j] <= i && order[j] == l;
      assert at'[j] <= i && order'[j] == l;
    }
  }

  lemma KnownKey(order: seq<int>, at: seq<nat>, i: int, l: int)
    requires |at| == |order| && l in order
    requires forall j :: 0 <= j < |at| ==> at[j] < i
    ensures Known(order, at, i, l)
  {
    var j :| 0 <= j < |order| && order[j] == l;
    assert at[j] < i;
  }

  lemma AppearMore(ms: seq<Measurement>, order: seq<int>, at: seq<nat>, m: Measurement)
    requires Appear(ms, order, at)
    ensures m.powerLimit in order ==> Appear(ms + [m], order, at)
    ensures m.powerLimit !in order ==> Appear(ms + [m], order + [m.powerLimit], at + [|ms|])
  {
    hide Known;
    var longer := ms + [m];
    if m.powerLimit in order {
      KnownKey(order, at, |ms|, m.powerLimit);
    } else {
      forall i | 0 <= i < |longer|
        ensures Known(order + [m.powerLimit], at + [|ms|], i, longer[i].powerLimit)
      {
        KnownMore(order, at, i, longer[i].powerLimit, m.powerLimit, |ms|);
      }
    }
  }

  /** Index `i` is the first of the cheapest, each measurement at the cost of its limit. */
  ghost predicate FirstCheapest(costed: seq<(int, real)>, i: nat)
    requires i < |costed|
  {
    && (forall j :: 0 <= j < |costed| ==> costed[i].1 <= costed[j].1)
    && forall j :: 0 <= j < i ==> costed[i].1 < costed[j].1
  }

  /** The first cheapest key is the limit of the first measurement whose limit is cheapest. */
  lemma FirstKey(ms: seq<Measurement>, order: seq<int>, at: seq<nat>, b: nat, costs: map<int, real>,
                 costed: seq<(int, real)>)
    requires Appear(ms, order, at) && b < |order|
    requires forall j :: 0 <= j < |order| ==> order[j] in costs
    requires |costed| == |ms|
    requires forall i :: 0 <= i < |ms| ==> ms[i].powerLimit in costs && costed[i].1 == costs[ms[i].powerLimit]
    requires forall j :: 0 <= j < |order| ==> costs[order[b]] <= costs[order[j]]
    requires forall j :: 0 <= j < b ==> costs[order[b]] < costs[order[j]]
    ensures at[b] < |ms| && ms[at[b]].powerLimit == order[b] && FirstCheapest(costed, at[b])
  {
    var i := at[b];
    forall n | 0 <= n < |ms|
      ensures costed[i].1 <= costed[n].1 && (n < i ==> costed[i].1 < costed[n].1)
    {
      KeyBefore(order, at, b, n, ms[n].powerLimit);
    }
  }

  /** What is known before the b-th key appears is one of the keys before it. */
  lemma KeyBefore(order: seq<int>, at: seq<nat>, b: nat, n: nat, l: int)
    requires |at| == |order| && b < |at| && Known(order, at, n, l)
    requires forall i, j :: 0 <= i < j < |at| ==> at[i] < at[j]
    ensures exists j :: 0 <= j < |order| && order[j] == l && (n < at[b] ==> j < b)
  {
    var j :| 0 <= j < |at| && at[j] <= n && order[j] == l;
    assert b < j ==> at[b] < at[j];
  }

  lemma ChoiceIs(ms: seq<Measurement>, i: nat, eta: real, worldSize: nat)
    requires i < |ms|
    requires FirstCheapest(Costed(ms, eta, MaxLimit(ms) * worldSize), i)
    ensures ZeusChoice(ms, eta, worldSize) == ms[i].powerLimit
  {
    hide LastCost, MaxLimit, FirstLeast;
    FirstIsFirst(Costed(ms, eta, MaxLimit(ms) * worldSize), i);
  }

  lemma FirstIsFirst(costed: seq<(int, real)>, i: nat)
    requires i < |costed| && FirstCheapest(costed, i)
    ensures FirstLeast(CostsLess, costed) == i
  {
    FirstLeastIsLeast(CostsLess, costed);
    var k := FirstLeast(CostsLess, costed);
    var x, y := costed[k], costed[i];
    assert CostsLess(x, y);
  }

  /** Builds the cost of each limit and takes the first cheapest in order of appearance: the limit of the first
      measurement whose limit is cheapest by its last measurement. */
  method SelectZeusCost(ms: seq<Measurement>, eta: real, worldSize: nat) returns (limit: int)
    requires ms != []
    ensures limit == ZeusChoice(ms, eta, worldSize)
    ensures var maxPower := MaxLimit(ms) * worldSize;
      exists i :: 0 <= i < |ms| && limit == ms[i].powerLimit &&
        (forall j :: 0 <= j < |ms| ==>
           LastCost(ms, limit, eta, maxPower) <= LastCost(ms, ms[j].powerLimit, eta, maxPower)) &&
        (forall j :: 0 <= j < i ==> LastCost(ms, limit, eta, maxPower) < LastCost(ms, ms[j].powerLimit, eta, maxPower))
  {
    hide ZeusCost, MaxLimit, LastCost, Appear, Known, ZeusChoice;
    var maxPower := MaxLimit(ms) * worldSize;
    var costs: map<int, real> := map[];
    var order: seq<int> := [];
    ghost var at: seq<nat> := [];
    assert Appear(ms[..0], [], []) by { NothingAppears(ms[..0]); }
    var i := 0;
    while i < |ms|
      invariant 0 <= i <= |ms|
      invariant CostsOf(ms[..i], order, costs, eta, maxPower)
      invariant Appear(ms[..i], order, at)
    {
      var m := ms[i];
      assert ms[..i + 1] == ms[..i] + [m];
      CostsMore(ms[..i], order, costs, m, eta, maxPower);
      AppearMore(ms[..i], order, at, m);
      if m.powerLimit !in costs {
        order := order + [m.powerLimit];
        at := at + [i];
      }
      costs := costs[m.powerLimit := ZeusCost(m.energy, m.time, eta, maxPower as real)];
      i := i + 1;
    }
    assert ms[..i] == ms;
    ghost var costed := Costed(ms, eta, maxPower);
    CostsAre(ms, order, costs, eta, maxPower);
    limit := order[0];
    ghost var b := 0;
    var k := 1;
    while k < |order|
      invariant 1 <= k <= |order| && b < k && limit == order[b]
      invariant forall j :: 0 <= j < k ==> costs[limit] <= costs[order[j]]
      invariant forall j :: 0 <= j < b ==> costs[limit] < costs[order[j]]
    {
      if costs[order[k]] < costs[limit] {
        limit, b := order[k], k;
      }
      k := k + 1;
    }
    KeysAre(ms, order, at);
    FirstKey(ms, order, at, b, costs, costed);
    ChoiceIs(ms, at[b], eta, worldSize);
    CheapestIs(ms, at[b], eta, maxPower);
  }

  /** The power the cost is taken at: the greatest limit, which some measurement has, on all devices. */
  lemma MaxPowerIsMost(ms: seq<Measurement>, worldSize: nat)
    requires ms != []
    ensures forall j :: 0 <= j < |ms| ==> ms[j].powerLimit * worldSize <= MaxLimit(ms) * worldSize
    ensures exists j :: 0 <= j < |ms| && ms[j].powerLimit == MaxLimit(ms)
  {
    MaxIsFirstAtMax(ms);
    hide FirstLeast;
    forall j | 0 <= j < |ms|
      ensures ms[j].powerLimit * worldSize <= MaxLimit(ms) * worldSize
    {
      assert (MaxLimit(ms) - ms[j].powerLimit) * worldSize >= 0;
    }
  }

  /** The dictionary after some measurements: the measured limits in order, each with its last cost. */
  ghost predicate CostsOf(ms: seq<Measurement>, order: seq<int>, costs: map<int, real>, eta: real, maxPower: int) {
    && (forall l :: l in costs <==> Measured(ms, l))
    && (forall l :: l in costs <==> l in order)
    && forall l | l in costs :: Measured(ms, l) && costs[l] == LastCost(ms, l, eta, maxPower)
  }

  lemma CostsMore(ms: seq<Measurement>, order: seq<int>, costs: map<int, real>, m: Measurement, eta: real,
                  maxPower: int)
    requires CostsOf(ms, order, costs, eta, maxPower)
    ensures m.powerLimit in costs <==> m.powerLimit in order
    ensures CostsOf(ms + [m], if m.powerLimit in costs then order else order + [m.powerLimit],
                    costs[m.powerLimit := ZeusCost(m.energy, m.time, eta, maxPower as real)], eta, maxPower)
  {
    hide LastCost, Measured, ZeusCost;
    MeasuredMore(ms, m);
    var costs' := costs[m.powerLimit := ZeusCost(m.energy, m.time, eta, maxPower as real)];
    forall l | l in costs'
      ensures Measured(ms + [m], l) && costs'[l] == LastCost(ms + [m], l, eta, maxPower)
    {
      LastCostMore(ms, m, l, eta, maxPower);
    }
  }

  /** In the end every measurement's limit is a key with the cost of its limit. */
  lemma CostsAre(ms: seq<Measurement>, order: seq<int>, costs: map<int, real>, eta: real, maxPower: int)
    requires CostsOf(ms, order, costs, eta, maxPower)
    ensures forall i :: 0 <= i < |ms| ==>
              ms[i].powerLimit in costs && Costed(ms, eta, maxPower)[i].1 == costs[ms[i].powerLimit]
    ensures forall j :: 0 <= j < |order| ==> order[j] in costs
    ensures ms != [] ==> order != []
  {
    hide LastCost;
    forall i | 0 <= i < |ms|
      ensures ms[i].powerLimit in costs && Costed(ms, eta, maxPower)[i].1 == costs[ms[i].powerLimit]
    {
      assert Measured(ms, ms[i].powerLimit);
    }
    forall j | 0 <= j < |order|
      ensures order[j] in costs
    {
      var l := order[j];
      assert l in order;
    }
    if ms != [] {
      var l := ms[0].powerLimit;
      assert l in order;
    }
  }

  lemma CheapestIs(ms: seq<Measurement>, i: nat, eta: real, maxPower: int)
    requires i < |ms| && FirstCheapest(Costed(ms, eta, maxPower), i)
    ensures var cost := LastCost(ms, ms[i].powerLimit, eta, maxPower);
      && (forall j :: 0 <= j < |ms| ==> cost <= LastCost(ms, ms[j].powerLimit, eta, maxPower))
      && (forall j :: 0 <= j < i ==> cost < LastCost(ms, ms[j].powerLimit, eta, maxPower))
  {
    hide LastCost;
  }

  lemma KeysAre(ms: seq<Measurement>, order: seq<int>, at: seq<nat>)
    requires Appear(ms, order, at)
    ensures |at| == |order|
  {
  }

  lemma NothingAppears(ms: seq<Measurement>)
    requires ms == []
    ensures Appear(ms, [], [])
  {
  }

  lemma LastCostMore(ms: seq<Measurement>, m: Measurement, l: int, eta: real, maxPower: int)
    requires Measured(ms, l) || l == m.powerLimit
    ensures Measured(ms + [m], l)
    ensures LastCost(ms + [m], l, eta, maxPower)
         == if l == m.powerLimit then ZeusCost(m.energy, m.time, eta, maxPower as real)
           else LastCost(ms, l, eta, maxPower)
  {
    MeasuredMore(ms, m);
    assert (ms + [m])[..|ms|] == ms && (ms + [m])[|ms|] == m;
  }

  lemma MeasuredMore(ms: seq<Measurement>, m: Measurement)
    ensures forall l :: Measured(ms + [m], l) <==> Measured(ms, l) || l == m.powerLimit
  {
    forall l
      ensures Measured(ms + [m], l) <==> Measured(ms, l) || l == m.powerLimit
    {
      if Measured(ms, l) {
        var i :| 0 <= i < |ms| && ms[i].powerLimit == l;
        assert (ms + [m])[i].powerLimit == l;
      }
      if l == m.powerLimit {
        assert (ms + [m])[|ms|].powerLimit == l;
      }
    }
  }

  /** The lowest limit that is fast enough; the maximum always is, so there is one. */
  method SelectMaxSlowdown(ms: seq<Measurement>, factor: real) returns (limit: int)
    requires ms != [] && factor >= 1.0
    ensures limit == MaxSlowdownChoice(ms, factor)
    ensures exists i :: 0 <= i < |ms| && ms[i].powerLimit == limit && FastEnough(ms, ms[i], factor)
    ensures forall i :: 0 <= i < |ms| && FastEnough(ms, ms[i], factor) ==> limit <= ms[i].powerLimit
    ensures Lowest(ms, factor, limit)
  {
    hide Lowest, FirstLeast, FastEnough, MaxSlowdownChoice, Feasible, AllowedTime;
    var most := AllowedTime(ms, factor);
    var feasible: seq<Measurement> := [];
    assert Feasible(ms[..0], most) == [] by { FeasibleNone(ms[..0], most); }
    var i := 0;
    while i < |ms|
      invariant 0 <= i <= |ms|
      invariant feasible == Feasible(ms[..i], most)
    {
      FeasibleMore(ms[..i], ms[i], most);
      assert ms[..i + 1] == ms[..i] + [ms[i]];
      if ms[i].time <= most {
        feasible := feasible + [ms[i]];
      }
      i := i + 1;
    }
    assert ms[..i] == ms;
    SlowdownChoice(ms, factor);
    limit := feasible[FirstLeast(LowerLimit, feasible)].powerLimit;
    LowestIs(ms, factor, limit);
  }

  /** A measurement takes no longer than that at the limit, and none that does is at a lower one. */
  ghost predicate LowestWithin(ms: seq<Measurement>, most: real, limit: int) {
    && (exists i :: 0 <= i < |ms| && ms[i].powerLimit == limit && ms[i].time <= most)
    && (forall i :: 0 <= i < |ms| && ms[i].time <= most ==> limit <= ms[i].powerLimit)
  }

  /** The lowest limit with a measurement no slower than the factor allows from the first at the greatest limit. */
  ghost predicate Lowest(ms: seq<Measurement>, factor: real, limit: int) {
    exists top :: LowestFrom(ms, factor, limit, top)
  }

  ghost predicate LowestFrom(ms: seq<Measurement>, factor: real, limit: int, top: int) {
    FirstAtMax(ms, top) && LowestWithin(ms, factor * ms[top].time, limit)
  }

  lemma LowestIs(ms: seq<Measurement>, factor: real, limit: int)
    requires ms != []
    requires exists i :: 0 <= i < |ms| && ms[i].powerLimit == limit && FastEnough(ms, ms[i], factor)
    requires forall i :: 0 <= i < |ms| && FastEnough(ms, ms[i], factor) ==> limit <= ms[i].powerLimit
    ensures Lowest(ms, factor, limit)
  {
    hide AllowedTime, FirstLeast, FirstAtMax, LowestWithin, FastEnough, LowestFrom;
    MaxIsFirstAtMax(ms);
    AllowedIs(ms, factor);
    WithinAllowed(ms, factor, limit);
    LowestFromTop(ms, factor, limit, FirstLeast(HigherLimit, ms), AllowedTime(ms, factor));
  }

  lemma LowestFromTop(ms: seq<Measurement>, factor: real, limit: int, top: nat, most: real)
    requires top < |ms| && FirstAtMax(ms, top) && most == factor * ms[top].time && LowestWithin(ms, most, limit)
    ensures LowestFrom(ms, factor, limit, top)
  {
    hide FirstAtMax, LowestWithin;
  }

  lemma WithinAllowed(ms: seq<Measurement>, factor: real, limit: int)
    requires ms != []
    requires exists i :: 0 <= i < |ms| && ms[i].powerLimit == limit && FastEnough(ms, ms[i], factor)
    requires forall i :: 0 <= i < |ms| && FastEnough(ms, ms[i], factor) ==> limit <= ms[i].powerLimit
    ensures LowestWithin(ms, AllowedTime(ms, factor), limit)
  {
    hide AllowedTime;
  }

  lemma AllowedIs(ms: seq<Measurement>, factor: real)
    requires ms != []
    ensures AllowedTime(ms, factor) == factor * ms[FirstLeast(HigherLimit, ms)].time
  {
    hide FirstLeast;
  }

  lemma FeasibleNone(ms: seq<Measurement>, most: real)
    requires ms == []
    ensures Feasible(ms, most) == []
  {
  }

  lemma SlowdownChoice(ms: seq<Measurement>, factor: real)
    requires ms != [] && factor >= 1.0
    ensures var feasible := Feasible(ms, AllowedTime(ms, factor));
      feasible != [] && MaxSlowdownChoice(ms, factor) == feasible[FirstLeast(LowerLimit, feasible)].powerLimit
    ensures exists i :: 0 <= i < |ms| &&
              ms[i].powerLimit == MaxSlowdownChoice(ms, factor) && FastEnough(ms, ms[i], factor)
    ensures forall i :: 0 <= i < |ms| && FastEnough(ms, ms[i], factor) ==>
      MaxSlowdownChoice(ms, factor) <= ms[i].powerLimit
  {
    hide FirstLeast, AllowedTime;
    var fastest := ms[FirstLeast(HigherLimit, ms)];
    assert fastest.time <= AllowedTime(ms, factor) by { FastestIsFast(ms, factor); }
    var feasible := Feasible(ms, AllowedTime(ms, factor));
    assert fastest in ms;
    assert fastest in feasible;
    assert feasible != [];
    LowestOf(feasible);
    var best := feasible[FirstLeast(LowerLimit, feasible)];
    assert best in feasible;
    assert best in ms;
    forall i | 0 <= i < |ms| && FastEnough(ms, ms[i], factor)
      ensures best.powerLimit <= ms[i].powerLimit
    {
      var m := ms[i];
      assert m in ms;
      assert m in feasible;
    }
  }

  lemma LowestOf(ms: seq<Measurement>)
    requires ms != []
    ensures forall m :: m in ms ==> ms[FirstLeast(LowerLimit, ms)].powerLimit <= m.powerLimit
  {
    FirstLeastIsLeast(LowerLimit, ms);
    var k := FirstLeast(LowerLimit, ms);
    forall m | m in ms
      ensures ms[k].powerLimit <= m.powerLimit
    {
      var j :| 0 <= j < |ms| && ms[j] == m;
      assert LowerLimit(ms[k], ms[j]);
    }
  }

  lemma {:induction false} FeasibleMore(ms: seq<Measurement>, m: Measurement, most: real)
    ensures Feasible(ms + [m], most) == Feasible(ms, most) + if m.time <= most then [m] else []
    decreases |ms|
  {
    if ms == [] {
      assert [m][1..] == [] && ms + [m] == [m];
    } else {
      var head, tail, longer := ms[0], ms[1..], ms + [m];
      assert longer[0] == head && longer[1..] == tail + [m];
      FeasibleMore(tail, m, most);
      var first := if head.time <= most then [head] else [];
      assert Feasible(longer, most) == first + Feasible(tail + [m], most);
      assert Feasible(ms, most) == first + Feasible(tail, most);
    }
  }

  lemma FastestIsFast(ms: seq<Measurement>, factor: real)
    requires ms != [] && factor >= 1.0
    ensures ms[FirstLeast(HigherLimit, ms)].time <= AllowedTime(ms, factor)
  {
    hide FirstLeast;
    Scaled(ms[FirstLeast(HigherLimit, ms)].time, factor);
  }

  lemma Scaled(x: real, factor: real)
    requires x >= 0.0 && factor >= 1.0
    ensures x <= factor * x
  {
    assert (factor - 1.0) * x >= 0.0;
  }
}
