/** `JITPowerLimitOptimizer` of zeus/_legacy/policy/optimizer.py for one job. */
module JitPowerLimit {
  import opened Lists
  import opened Outcomes

  type Trial = (int, real)    // power limit and cost

  predicate NoCostlier(x: Trial, y: Trial) { x.1 <= y.1 }

  /** The first cheapest of the power limits tried. */
  function Cheapest(trials: seq<Trial>): (t: Trial)
    requires trials != []
    ensures t in trials && forall x :: x in trials ==> t.1 <= x.1
  {
    FirstLeastIsLeast(NoCostlier, trials);
    var k := FirstLeast(NoCostlier, trials);
    assert forall x :: x in trials ==> NoCostlier(trials[k], x);
    trials[k]
  }

  lemma CheapestOfMore(trials: seq<Trial>, t: Trial)
    ensures Cheapest(trials + [t]) == if trials == [] || Cheapest(trials).1 > t.1 then t else Cheapest(trials)
  {
    if trials == [] {
      assert trials + [t] == [t];
    } else {
      FirstLeastOfLonger(NoCostlier, trials, t);
    }
  }

  /** For every batch size tried: its cheapest power limit, that limit's cost, and the number of trials. */
  ghost predicate Agrees(bestPl: map<int, int>, bestCost: map<int, real>, count: map<int, nat>,
                         tried: map<int, seq<Trial>>) {
    && bestPl.Keys == bestCost.Keys == count.Keys == tried.Keys
    && forall bs :: bs in tried ==>
         tried[bs] != [] && count[bs] == |tried[bs]| && (bestPl[bs], bestCost[bs]) == Cheapest(tried[bs])
  }

  lemma AgreesMore(bestPl: map<int, int>, bestCost: map<int, real>, count: map<int, nat>, tried: map<int, seq<Trial>>,
                   bs: int, trials: seq<Trial>)
    requires Agrees(bestPl, bestCost, count, tried) && trials != []
    ensures Agrees(bestPl[bs := Cheapest(trials).0], bestCost[bs := Cheapest(trials).1], count[bs := |trials|],
                   tried[bs := trials])
  {
    hide Cheapest;
  }

  lemma SameMap<V>(m: map<int, V>, k: int)
    requires k in m
    ensures m[k := m[k]] == m
  {
  }

  lemma AgreesAt(bestPl: map<int, int>, bestCost: map<int, real>, count: map<int, nat>, tried: map<int, seq<Trial>>,
                 bs: int)
    requires Agrees(bestPl, bestCost, count, tried)
    ensures (bs in tried) == (bs in bestPl) == (bs in bestCost) == (bs in count)
    ensures bs in tried ==>
      tried[bs] != [] && count[bs] == |tried[bs]| && (bestPl[bs], bestCost[bs]) == Cheapest(tried[bs])
  {
    hide Cheapest;
  }

  /** A trial that replaces the best leaves the tables in agreement. */
  lemma BetterAgrees(bestPl: map<int, int>, bestCost: map<int, real>, count: map<int, nat>, tried: map<int, seq<Trial>>,
                     bs: int, pl: int, cost: real)
    requires Agrees(bestPl, bestCost, count, tried) && (bs in bestCost ==> bestCost[bs] > cost)
    ensures Agrees(bestPl[bs := pl], bestCost[bs := cost], count[bs := |Tried(tried, bs)| + 1],
                   tried[bs := Tried(tried, bs) + [(pl, cost)]])
    ensures bestPl[bs := pl].Keys == bestPl.Keys + {bs}
  {
    AgreesAt(bestPl, bestCost, count, tried, bs);
    hide Cheapest, Agrees;
    CheapestOfMore(Tried(tried, bs), (pl, cost));
    AgreesMore(bestPl, bestCost, count, tried, bs, Tried(tried, bs) + [(pl, cost)]);
  }

  /** So does one that does not. */
  lemma WorseAgrees(bestPl: map<int, int>, bestCost: map<int, real>, count: map<int, nat>, tried: map<int, seq<Trial>>,
                    bs: int, pl: int, cost: real)
    requires Agrees(bestPl, bestCost, count, tried) && bs in bestCost && bestCost[bs] <= cost
    ensures Agrees(bestPl, bestCost, count[bs := |Tried(tried, bs)| + 1], tried[bs := Tried(tried, bs) + [(pl, cost)]])
    ensures bestPl.Keys == bestPl.Keys + {bs}
  {
    AgreesAt(bestPl, bestCost, count, tried, bs);
    hide Cheapest, Agrees;
    CheapestOfMore(Tried(tried, bs), (pl, cost));
    AgreesMore(bestPl, bestCost, count, tried, bs, Tried(tried, bs) + [(pl, cost)]);
    SameMap(bestPl, bs);
    SameMap(bestCost, bs);
  }

  lemma TriedIsCounted(bestPl: map<int, int>, bestCost: map<int, real>, count: map<int, nat>,
                       tried: map<int, seq<Trial>>, bs: int)
    requires Agrees(bestPl, bestCost, count, tried)
    ensures |Tried(tried, bs)| == if bs in count then count[bs] else 0
  {
    hide Cheapest;
  }

  function Tried(tried: map<int, seq<Trial>>, bs: int): seq<Trial> {
    if bs in tried then tried[bs] else []
  }

  class JITPowerLimitOptimizer {
    var bestPl: map<int, int>
    var bestCost: map<int, real>
    var observeCount: map<int, nat>
    ghost var tried: map<int, seq<Trial>>    // what was observed for each batch size, in order

    ghost predicate Valid()
      reads this
    {
      Agrees(bestPl, bestCost, observeCount, tried)
    }

    constructor ()
      ensures Valid() && tried == map[]
    {
      bestPl, bestCost, observeCount, tried := map[], map[], map[], map[];
    }

    method Predict(bs: int) returns (pl: Option<int>)
      requires Valid()
      ensures pl == if bs in tried then Some(Cheapest(tried[bs]).0) else None
      ensures pl == if bs in bestPl then Some(bestPl[bs]) else None
    {
      pl := if bs in bestPl then Some(bestPl[bs]) else None;
    }

    method Observe(bs: int, powerLimit: int, cost: real)
      requires Valid()
      modifies this
      ensures Valid()
      ensures tried == old(tried)[bs := Tried(old(tried), bs) + [(powerLimit, cost)]]
      ensures bestPl.Keys == old(bestPl.Keys) + {bs}
      ensures forall b :: b in old(bestPl) && b != bs ==> bestPl[b] == old(bestPl)[b]
    {
      hide Cheapest, Agrees, Tried;
      TriedIsCounted(bestPl, bestCost, observeCount, tried, bs);
      ghost var counts, trials := observeCount, tried;
      observeCount := observeCount[bs := (if bs in observeCount then observeCount[bs] else 0) + 1];
      tried := tried[bs := Tried(tried, bs) + [(powerLimit, cost)]];
      if bs !in bestCost || bestCost[bs] > cost {
        BetterAgrees(bestPl, bestCost, counts, trials, bs, powerLimit, cost);
        bestPl := bestPl[bs := powerLimit];
        bestCost := bestCost[bs := cost];
      } else {
        WorseAgrees(bestPl, bestCost, counts, trials, bs, powerLimit, cost);
      }
    }
  }
}
