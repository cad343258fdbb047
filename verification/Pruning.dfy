/** What pruning exploration decides, said without the coroutine: which batch sizes a round keeps, which one it
    makes the next default, and in which order it explores. The coroutine is proved to do exactly this. */
module Pruning {
  import opened Lists
  import opened Outcomes
  import opened Exploration

  type Oracle = (int, nat) -> Feedback

  /** How many leading batch sizes reach the target before the first that does not. */
  function Passed(list: seq<int>, round: nat, fb: Oracle): (n: nat)
    ensures n <= |list|
    ensures forall i :: 0 <= i < n ==> fb(list[i], round).reached
    ensures n < |list| ==> !fb(list[n], round).reached
  {
    if list == [] || !fb(list[0], round).reached then 0 else 1 + Passed(list[1..], round, fb)
  }

  /** The batch sizes tried: those that pass and the first that fails. */
  function Tried(list: seq<int>, round: nat, fb: Oracle): seq<int> {
    var n := Passed(list, round, fb);
    if n < |list| then list[..n + 1] else list
  }

  function NoCostlier(round: nat, fb: Oracle): (int, int) -> bool {
    (x, y) => fb(x, round).cost <= fb(y, round).cost
  }

  /** The first cheapest batch size in exploration order. */
  function Cheapest(order: seq<int>, otherwise: int, round: nat, fb: Oracle): int {
    if order == [] then otherwise else order[FirstLeast(NoCostlier(round, fb), order)]
  }

  function Downward(list: seq<int>, default: int): seq<int>
    requires default in list
  {
    Reverse(list[..IndexOf(list, default) + 1])
  }

  function Upward(list: seq<int>, default: int): seq<int>
    requires default in list
  {
    list[IndexOf(list, default) + 1..]
  }

  /** The stretch of the list that one round keeps. */
  function Kept(list: seq<int>, default: int, round: nat, fb: Oracle): seq<int>
    requires default in list
  {
    var above := IndexOf(list, default) + 1;
    list[above - Passed(Downward(list, default), round, fb)..above + Passed(Upward(list, default), round, fb)]
  }

  function Accepted(list: seq<int>, default: int, round: nat, fb: Oracle): seq<int>
    requires default in list
  {
    var down, up := Downward(list, default), Upward(list, default);
    down[..Passed(down, round, fb)] + up[..Passed(up, round, fb)]
  }

  function Explored(list: seq<int>, default: int, round: nat, fb: Oracle): seq<int>
    requires default in list
  {
    Tried(Downward(list, default), round, fb) + Tried(Upward(list, default), round, fb)
  }

  datatype Verdict = Verdict(trace: seq<int>, answer: Answer)

  /** The explorations of all rounds from `round` on, and how they end. */
  function Prune(list: seq<int>, default: int, round: nat, rounds: nat, fb: Oracle): Verdict
    decreases rounds - round
  {
    if round >= rounds then Verdict([], Stops(Some(list)))
    else if default !in list then Verdict([], Raises(DefaultPruned))
    else
      var cheapest := Cheapest(Accepted(list, default, round, fb), default, round, fb);
      var later := Prune(Kept(list, default, round, fb), cheapest, round + 1, rounds, fb);
      Verdict(Explored(list, default, round, fb) + later.trace, later.answer)
  }

  // ---- The coroutine driven by an oracle ----

  /** One exchange: the oracle's answer for the batch size the coroutine is suspended at. */
  function Answered(e: Explorer, f: Frame, fb: Oracle): (r: (Explorer, Answer))
    requires Suspended(e, f)
    ensures r.1.Yields? ==>
      && r.0.control.AtYield? && Suspended(r.0, r.0.control.frame)
      && var g := r.0.control.frame;
      && (if g.round == f.round then |g.todo| + |g.up| < |f.todo| + |f.up| else f.round < g.round < e.rounds)
    ensures r.0.rounds == e.rounds
  {
    Next(Send(e, Report(f.todo[0], fb(f.todo[0], f.round))).0)
  }

  /** Drives a suspended coroutine to its end, answering every batch size from the oracle. */
  function Drive(e: Explorer, f: Frame, fb: Oracle): Verdict
    requires Suspended(e, f)
    decreases e.rounds - f.round, |f.todo| + |f.up|
  {
    var (after, answer) := Answered(e, f, fb);
    var later := if answer.Yields? then Drive(after, after.control.frame, fb) else Verdict([], answer);
    Verdict([f.todo[0]] + later.trace, later.answer)
  }

  function DriveRound(e: Explorer, round: nat, fb: Oracle): Verdict {
    var (after, answer) := EnterRound(e, round);
    if answer.Yields? then Drive(after, after.control.frame, fb) else Verdict([], answer)
  }

  function WithGood(e: Explorer, default: int, good: seq<int>): Explorer {
    e.(expecting := 0, batchSizes := SortBy(AtMost, good), default := default, control := NotStarted)
  }

  /** The frame's best cost belongs to the first cheapest good batch size, which is the new default. */
  predicate TracksBest(e: Explorer, f: Frame, fb: Oracle) {
    if f.good == [] then f.best.None?
    else
      var cheapest := Cheapest(f.good, 0, f.round, fb);
      e.default == cheapest && f.best == Some(fb(cheapest, f.round).cost)
  }

  lemma AcceptTracks(e: Explorer, f: Frame, fb: Oracle)
    requires f.todo != [] && TracksBest(e, f, fb)
    ensures var cost := fb(f.todo[0], f.round).cost;
      TracksBest(if Improves(f, cost) then e.(default := f.todo[0]) else e, Accept(f, cost), fb)
  {
    var cost := fb(f.todo[0], f.round).cost;
    assert Accept(f, cost).good == f.good + [f.todo[0]];
    if f.good != [] {
      FirstLeastOfLonger(NoCostlier(f.round, fb), f.good, f.todo[0]);
    }
  }

  function GoodAfter(f: Frame, fb: Oracle): seq<int> {
    f.good + (f.todo[..Passed(f.todo, f.round, fb)] + f.up[..Passed(f.up, f.round, fb)])
  }

  function NextRound(e: Explorer, round: nat, good: seq<int>, fb: Oracle): Verdict {
    DriveRound(WithGood(e, Cheapest(good, e.default, round, fb), good), round + 1, fb)
  }

  /** What a walk along f.todo and then f.up amounts to, when it is followed by the next round. */
  function WalkResult(e: Explorer, f: Frame, fb: Oracle): Verdict {
    var later := NextRound(e, f.round, GoodAfter(f, fb), fb);
    Verdict(Tried(f.todo, f.round, fb) + (Tried(f.up, f.round, fb) + later.trace), later.answer)
  }

  lemma WalkToEnd(e: Explorer, f: Frame, fb: Oracle)
    requires f.todo == f.up == [] && TracksBest(e, f, fb)
    ensures var (after, answer) := Advance(e, f);
      (if answer.Yields? then Drive(after, after.control.frame, fb) else Verdict([], answer)) == WalkResult(e, f, fb)
  {
    hide Drive, SortBy, FirstLeast;
    assert GoodAfter(f, fb) == f.good;
    var later := NextRound(e, f.round, f.good, fb);
    assert [] + ([] + later.trace) == later.trace;
  }

  lemma TurnUp(e: Explorer, f: Frame, fb: Oracle)
    requires f.todo == []
    ensures WalkResult(e, f, fb) == WalkResult(e, f.(todo := f.up, up := []), fb)
  {
    hide NextRound;
    var g := f.(todo := f.up, up := []);
    assert GoodAfter(f, fb) == GoodAfter(g, fb);
    var x := NextRound(e, f.round, GoodAfter(f, fb), fb).trace;
    assert [] + (Tried(f.up, f.round, fb) + x) == Tried(f.up, f.round, fb) + ([] + x);
  }

  lemma StepFails(e: Explorer, f: Frame, fb: Oracle)
    requires f.todo != [] && !fb(f.todo[0], f.round).reached
    ensures var later := WalkResult(e, f.(todo := []), fb);
      WalkResult(e, f, fb) == Verdict([f.todo[0]] + later.trace, later.answer)
  {
    hide NextRound;
    assert f.todo[..1] == [f.todo[0]];
    assert GoodAfter(f, fb) == GoodAfter(f.(todo := []), fb);
    var x := WalkResult(e, f.(todo := []), fb).trace;
    assert [f.todo[0]] + ([] + x) == [f.todo[0]] + x;
  }

  lemma PassesOne(f: Frame, fb: Oracle)
    requires f.todo != [] && fb(f.todo[0], f.round).reached
    ensures var g := Accept(f, fb(f.todo[0], f.round).cost);
      && GoodAfter(f, fb) == GoodAfter(g, fb)
      && Tried(f.todo, f.round, fb) == [f.todo[0]] + Tried(g.todo, f.round, fb)
  {
    PassedFirst(f.todo, f.round, fb);
    hide Passed, Tried;
    var n, m := Passed(f.todo, f.round, fb), Passed(f.todo[1..], f.round, fb);
    var rest := f.up[..Passed(f.up, f.round, fb)];
    Regrouped(f.good, f.todo[0], f.todo[1..][..m], rest);
  }

  lemma PassedFirst(list: seq<int>, round: nat, fb: Oracle)
    requires list != [] && fb(list[0], round).reached
    ensures list[..Passed(list, round, fb)] == [list[0]] + list[1..][..Passed(list[1..], round, fb)]
    ensures Tried(list, round, fb) == [list[0]] + Tried(list[1..], round, fb)
  {
    var n, m := Passed(list, round, fb), Passed(list[1..], round, fb);
    assert n == m + 1;
    hide Passed;
    FirstAndMore(list, n);
    if n < |list| {
      FirstAndMore(list, n + 1);
    } else {
      assert list == [list[0]] + list[1..];
    }
  }

  lemma FirstAndMore(list: seq<int>, n: nat)
    requires 1 <= n <= |list|
    ensures list[..n] == [list[0]] + list[1..][..n - 1]
  {
  }

  lemma Regrouped(a: seq<int>, x: int, b: seq<int>, c: seq<int>)
    ensures a + ([x] + b + c) == (a + [x]) + (b + c)
  {
  }

  lemma StepPasses(e: Explorer, f: Frame, fb: Oracle)
    requires f.todo != [] && fb(f.todo[0], f.round).reached
    ensures var later := WalkResult(e, Accept(f, fb(f.todo[0], f.round).cost), fb);
      WalkResult(e, f, fb) == Verdict([f.todo[0]] + later.trace, later.answer)
  {
    hide NextRound, GoodAfter, Tried, Passed;
    PassesOne(f, fb);
    var g := Accept(f, fb(f.todo[0], f.round).cost);
    var x := Tried(f.up, f.round, fb) + NextRound(e, f.round, GoodAfter(g, fb), fb).trace;
    assert [f.todo[0]] + Tried(g.todo, f.round, fb) + x == [f.todo[0]] + (Tried(g.todo, f.round, fb) + x);
  }

  lemma OtherDefault(e: Explorer, d: Explorer, f: Frame, fb: Oracle)
    requires e.rounds == d.rounds && (f.good == [] ==> e.default == d.default)
    ensures WalkResult(e, f, fb) == WalkResult(d, f, fb)
  {
    assert f.good != [] ==> GoodAfter(f, fb) != [];
  }

  /** Moving on from a decided batch size amounts to the rest of the walk. */
  lemma {:induction false} WalkOn(e: Explorer, f: Frame, fb: Oracle)
    requires TracksBest(e, f, fb)
    ensures var (after, answer) := Advance(e, f);
      (if answer.Yields? then Drive(after, after.control.frame, fb) else Verdict([], answer)) == WalkResult(e, f, fb)
    decreases |f.todo| + |f.up|, 2
  {
    hide Drive, WalkResult;
    if f.todo != [] {
      Walk(Offer(e, f).0, f, fb);
      OtherDefault(Offer(e, f).0, e, f, fb);
    } else if f.up != [] {
      var g := f.(todo := f.up, up := []);
      Walk(Offer(e, g).0, g, fb);
      OtherDefault(Offer(e, g).0, e, g, fb);
      TurnUp(e, f, fb);
    } else {
      WalkToEnd(e, f, fb);
    }
  }

  /** A suspended coroutine tries both directions up to the first failure in each. */
  lemma {:induction false} Walk(e: Explorer, f: Frame, fb: Oracle)
    requires Suspended(e, f) && TracksBest(e, f, fb)
    ensures Drive(e, f, fb) == WalkResult(e, f, fb)
    decreases |f.todo| + |f.up|, 1
  {
    hide WalkResult, Advance;
    var fbk := fb(f.todo[0], f.round);
    var acked := e.(expecting := 0, control := AtAck(f, fbk));
    if fbk.reached {
      var d := if Improves(f, fbk.cost) then acked.(default := f.todo[0]) else acked;
      var g := Accept(f, fbk.cost);
      AcceptTracks(acked, f, fb);
      Decided(e, f, fb, d, g);
      WalkOn(d, g, fb);
      OtherDefault(d, e, g, fb);
      StepPasses(e, f, fb);
    } else {
      Decided(e, f, fb, acked, f.(todo := []));
      WalkOn(acked, f.(todo := []), fb);
      OtherDefault(acked, e, f.(todo := []), fb);
      StepFails(e, f, fb);
    }
  }

  lemma Decided(e: Explorer, f: Frame, fb: Oracle, d: Explorer, g: Frame)
    requires Suspended(e, f)
    requires var fbk := fb(f.todo[0], f.round); var acked := e.(expecting := 0, control := AtAck(f, fbk));
      if fbk.reached then
        && d == (if Improves(f, fbk.cost) then acked.(default := f.todo[0]) else acked)
        && g == Accept(f, fbk.cost)
      else d == acked && g == f.(todo := [])
    ensures Answered(e, f, fb) == Advance(d, g)
  {
  }

  lemma BothWays(list: seq<int>, n: nat, d: nat, u: nat)
    requires d <= n <= n + u <= |list|
    ensures multiset(Reverse(list[..n])[..d] + list[n..][..u]) == multiset(list[n - d..n + u])
  {
    hide Reverse;
    var near, far := list[n - d..n], list[n..n + u];
    ReverseTakes(list[..n], d);
    assert list[..n][n - d..] == near;
    assert list[n..][..u] == far;
    assert list[n - d..n + u] == near + far;
    SameBags(Reverse(near), near, far);
  }

  lemma ReverseTakes(s: seq<int>, d: nat)
    requires d <= |s|
    ensures Reverse(s)[..d] == Reverse(s[|s| - d..])
  {
    hide Reverse;
    ReversedTakes(s, Reverse(s), Reverse(s[|s| - d..]), d);
  }

  lemma ReversedTakes(s: seq<int>, r: seq<int>, q: seq<int>, d: nat)
    requires d == |q| <= |s| == |r|
    requires forall i :: 0 <= i < |s| ==> r[i] == s[|s| - 1 - i]
    requires forall i :: 0 <= i < d ==> q[i] == s[|s| - d..][d - 1 - i]
    ensures r[..d] == q
  {
    forall i | 0 <= i < d
      ensures r[i] == q[i]
    {
      SliceAt(s, |s| - d, d - 1 - i);
    }
  }

  lemma SliceAt(s: seq<int>, k: nat, m: nat)
    requires k + m < |s|
    ensures |s[k..]| == |s| - k && s[k..][m] == s[k + m]
  {
  }

  lemma MergedAndSorted(list: seq<int>, n: nat, d: nat, u: nat)
    requires StrictlyIncreasing(list) && d <= n <= n + u <= |list|
    ensures SortBy(AtMost, Reverse(list[..n])[..d] + list[n..][..u]) == list[n - d..n + u]
    ensures StrictlyIncreasing(list[n - d..n + u])
  {
    hide SortBy, Reverse;
    BothWays(list, n, d, u);
    SortUpwards(Reverse(list[..n])[..d] + list[n..][..u], list[n - d..n + u]);
  }

  lemma KeptIsSorted(list: seq<int>, default: int, round: nat, fb: Oracle)
    requires StrictlyIncreasing(list) && default in list
    ensures SortBy(AtMost, Accepted(list, default, round, fb)) == Kept(list, default, round, fb)
    ensures StrictlyIncreasing(Kept(list, default, round, fb))
  {
    hide Passed, SortBy, IndexOf, Reverse, StrictlyIncreasing;
    var n := IndexOf(list, default) + 1;
    var d, u := Passed(Downward(list, default), round, fb), Passed(Upward(list, default), round, fb);
    assert Accepted(list, default, round, fb) == Reverse(list[..n])[..d] + list[n..][..u];
    assert Kept(list, default, round, fb) == list[n - d..n + u];
    MergedAndSorted(list, n, d, u);
  }

  lemma RoundLists(list: seq<int>, default: int)
    requires StrictlyIncreasing(list) && default in list
    ensures Down(list, default) == Downward(list, default)
    ensures Up(list, default) == Upward(list, default)
  {
    hide SortBy, Reverse;
    var n := IndexOf(list, default) + 1;
    SliceIncreases(list, 0, n);
    SliceIncreases(list, n, |list|);
    assert list[0..n] == list[..n] && list[n..|list|] == list[n..];
    hide StrictlyIncreasing, IndexOf;
    SortDownwards(list[..n]);
    SortUpwards(list[n..], list[n..]);
  }

  /** How a round opens: the sorted survivors when all rounds are over, the error when the default was pruned, and
      otherwise the batch sizes up to the default, from there down, followed by the larger ones upwards. */
  lemma RoundOpens(e: Explorer, round: nat)
    requires StrictlyIncreasing(e.batchSizes)
    ensures var (after, answer) := EnterRound(e, round);
      if round >= e.rounds then answer == Stops(Some(e.batchSizes)) && after.control.Finished?
      else if e.default !in e.batchSizes then answer == Raises(DefaultPruned) && after.control.Finished?
      else
        && answer == Yields(e.default) && after.expecting == e.default && after.control.AtYield?
        && var f := after.control.frame;
        && (forall i, j :: 0 <= i < j < |f.todo| ==> f.todo[i] > f.todo[j])
        && (forall b :: b in f.todo <==> b in e.batchSizes && b <= e.default)
        && StrictlyIncreasing(f.up)
        && (forall b :: b in f.up <==> b in e.batchSizes && b > e.default)
        && f.round == round && f.good == [] && f.best.None?
  {
    RoundIs(e, round);
    hide EnterRound, Downward, Upward, IndexOf;
    if round < e.rounds && e.default in e.batchSizes {
      DirectionsSplit(e.batchSizes, e.default);
    }
  }

  lemma RoundIs(e: Explorer, round: nat)
    requires StrictlyIncreasing(e.batchSizes)
    ensures EnterRound(e, round) ==
      if round >= e.rounds then (e.(control := Finished), Stops(Some(e.batchSizes)))
      else if e.default !in e.batchSizes then (e.(control := Finished), Raises(DefaultPruned))
      else Offer(e, Frame(round, Downward(e.batchSizes, e.default), Upward(e.batchSizes, e.default), [], None))
  {
    if e.default in e.batchSizes {
      RoundLists(e.batchSizes, e.default);
    }
    SortUpwards(e.batchSizes, e.batchSizes);
    hide Offer, SortBy, StrictlyIncreasing, Downward, Upward, Down, Up;
  }

  lemma DirectionsSplit(list: seq<int>, default: int)
    requires StrictlyIncreasing(list) && default in list
    ensures var down, up := Downward(list, default), Upward(list, default);
      && down != [] && down[0] == default
      && (forall i, j :: 0 <= i < j < |down| ==> down[i] > down[j])
      && (forall b :: b in down <==> b in list && b <= default)
      && StrictlyIncreasing(up)
      && (forall b :: b in up <==> b in list && b > default)
  {
    var idx := IndexOf(list, default);
    DownwardHolds(list, default);
    hide Downward, IndexOf, StrictlyIncreasing;
    UpwardIncreases(list, default);
    forall b
      ensures b in Upward(list, default) <==> b in list && b > default
    {
      UpwardHolds(list, default, b);
    }
  }

  lemma DownwardHolds(list: seq<int>, default: int)
    requires StrictlyIncreasing(list) && default in list
    ensures var down := Downward(list, default);
      && down != [] && down[0] == default
      && (forall i, j :: 0 <= i < j < |down| ==> down[i] > down[j])
      && (forall b :: b in down <==> b in list && b <= default)
  {
    hide Reverse;
    var idx := IndexOf(list, default);
    var down := Downward(list, default);
    assert forall i :: 0 <= i <= idx ==> down[i] == list[idx - i];
    forall b | b in list && b <= default
      ensures b in down
    {
      var i :| 0 <= i < |list| && list[i] == b;
      assert i <= idx;
      assert down[idx - i] == b;
    }
  }

  lemma UpwardIncreases(list: seq<int>, default: int)
    requires StrictlyIncreasing(list) && default in list
    ensures StrictlyIncreasing(Upward(list, default))
  {
    hide IndexOf;
    SliceIncreases(list, IndexOf(list, default) + 1, |list|);
    assert list[IndexOf(list, default) + 1..|list|] == Upward(list, default);
  }

  lemma UpwardHolds(list: seq<int>, default: int, b: int)
    requires StrictlyIncreasing(list) && default in list
    ensures b in Upward(list, default) <==> b in list && b > default
  {
    hide IndexOf;
    var idx, up := IndexOf(list, default), Upward(list, default);
    if b in up {
      var i :| 0 <= i < |up| && up[i] == b;
      assert list[idx + 1 + i] == b;
    }
    if b in list && b > default {
      var i :| 0 <= i < |list| && list[i] == b;
      assert i > idx;
      assert up[i - idx - 1] == b;
    }
  }

  lemma SliceIncreases(list: seq<int>, lo: nat, hi: nat)
    requires StrictlyIncreasing(list) && lo <= hi <= |list|
    ensures StrictlyIncreasing(list[lo..hi])
  {
  }

  lemma OneRound(e: Explorer, round: nat, fb: Oracle)
    requires StrictlyIncreasing(e.batchSizes) && e.default in e.batchSizes && round < e.rounds
    ensures var later := NextRound(e, round, Accepted(e.batchSizes, e.default, round, fb), fb);
      DriveRound(e, round, fb) == Verdict(Explored(e.batchSizes, e.default, round, fb) + later.trace, later.answer)
  {
    hide Drive, NextRound, FirstLeast, SortBy, Reverse, Tried, Passed, IndexOf;
    var down, up := Downward(e.batchSizes, e.default), Upward(e.batchSizes, e.default);
    RoundLists(e.batchSizes, e.default);
    DownwardStarts(e.batchSizes, e.default);
    var f := Frame(round, down, up, [], None);
    var after := Offer(e, f).0;
    Walk(after, f, fb);
    OtherDefault(after, e, f, fb);
    assert GoodAfter(f, fb) == Accepted(e.batchSizes, e.default, round, fb);
    var x := NextRound(e, round, GoodAfter(f, fb), fb).trace;
    assert Tried(down, round, fb) + (Tried(up, round, fb) + x) == Explored(e.batchSizes, e.default, round, fb) + x;
  }

  lemma DownwardStarts(list: seq<int>, default: int)
    requires default in list
    ensures Downward(list, default) != []
  {
  }

  /** The coroutine explores, in this order, exactly what pruning prescribes and ends as it prescribes. */
  lemma {:induction false} CoroutinePrunes(e: Explorer, round: nat, fb: Oracle)
    requires StrictlyIncreasing(e.batchSizes) && round <= e.rounds
    ensures DriveRound(e, round, fb) == Prune(e.batchSizes, e.default, round, e.rounds, fb)
    decreases e.rounds - round
  {
    hide Drive, FirstLeast;
    if round == e.rounds {
      SortOfOrdered(AtMost, e.batchSizes, e.batchSizes);
    } else if e.default in e.batchSizes {
      OneRound(e, round, fb);
      KeptIsSorted(e.batchSizes, e.default, round, fb);
      var accepted := Accepted(e.batchSizes, e.default, round, fb);
      CoroutinePrunes(WithGood(e, Cheapest(accepted, e.default, round, fb), accepted), round + 1, fb);
    }
  }

  // ---- What pruning guarantees ----

  lemma InSlice(list: seq<int>, lo: nat, hi: nat, k: nat)
    requires StrictlyIncreasing(list) && lo <= hi <= |list| && k < |list|
    ensures list[k] in list[lo..hi] <==> lo <= k < hi
  {
    if lo <= k < hi {
      assert list[lo..hi][k - lo] == list[k];
    }
    if list[k] in list[lo..hi] {
      var i :| 0 <= i < hi - lo && list[lo..hi][i] == list[k];
      assert list[lo + i] == list[k];
    }
  }

  /** A batch size is kept exactly when everything from the default down to it, or from just above the default
      up to it, reached the target. */
  lemma KeptExactly(list: seq<int>, default: int, round: nat, fb: Oracle, k: nat)
    requires StrictlyIncreasing(list) && default in list && k < |list|
    ensures var i := IndexOf(list, default);
      list[k] in Kept(list, default, round, fb) <==>
      if k <= i then forall j :: k <= j <= i ==> fb(list[j], round).reached
      else forall j :: i < j <= k ==> fb(list[j], round).reached
  {
    hide StrictlyIncreasing, IndexOf, Passed;
    var i := IndexOf(list, default);
    var down, up := Downward(list, default), Upward(list, default);
    var pd, pu := Passed(down, round, fb), Passed(up, round, fb);
    InSlice(list, i + 1 - pd, i + 1 + pu, k);
    if k <= i {
      PassedDown(list, default, round, fb, k);
    } else {
      PassedUp(list, default, round, fb, k);
    }
  }

  lemma PassedDown(list: seq<int>, default: int, round: nat, fb: Oracle, k: nat)
    requires default in list && k <= IndexOf(list, default)
    ensures var i := IndexOf(list, default);
      i - k < Passed(Downward(list, default), round, fb) <==> forall j :: k <= j <= i ==> fb(list[j], round).reached
  {
    hide IndexOf, Passed;
    var i, down := IndexOf(list, default), Downward(list, default);
    PassedExactly(down, round, fb, i - k);
    assert forall j :: k <= j <= i ==> list[j] == down[i - j];
    assert forall n :: 0 <= n <= i - k ==> down[n] == list[i - n];
  }

  lemma PassedUp(list: seq<int>, default: int, round: nat, fb: Oracle, k: nat)
    requires default in list && IndexOf(list, default) < k < |list|
    ensures var i := IndexOf(list, default);
      k - i - 1 < Passed(Upward(list, default), round, fb) <==> forall j :: i < j <= k ==> fb(list[j], round).reached
  {
    hide IndexOf, Passed;
    var i, up := IndexOf(list, default), Upward(list, default);
    PassedExactly(up, round, fb, k - i - 1);
    assert forall j :: i < j <= k ==> list[j] == up[j - i - 1];
    assert forall n :: 0 <= n < k - i ==> up[n] == list[n + i + 1];
  }

  lemma PassedExactly(list: seq<int>, round: nat, fb: Oracle, k: nat)
    requires k < |list|
    ensures k < Passed(list, round, fb) <==> forall n :: 0 <= n <= k ==> fb(list[n], round).reached
  {
  }

  lemma AcceptedAreKept(list: seq<int>, default: int, round: nat, fb: Oracle)
    requires StrictlyIncreasing(list) && default in list
    ensures forall b :: b in Accepted(list, default, round, fb) <==> b in Kept(list, default, round, fb)
    ensures forall b :: b in Kept(list, default, round, fb) ==> b in list && fb(b, round).reached
  {
    hide SortBy, StrictlyIncreasing, IndexOf;
    var accepted := Accepted(list, default, round, fb);
    KeptIsSorted(list, default, round, fb);
    SameElements(accepted, SortBy(AtMost, accepted));
  }

  /** The next default is one of the batch sizes kept, and none of them cost less. */
  lemma CheapestIsKept(list: seq<int>, default: int, round: nat, fb: Oracle)
    requires StrictlyIncreasing(list) && default in list && Kept(list, default, round, fb) != []
    ensures var kept := Kept(list, default, round, fb);
      var cheapest := Cheapest(Accepted(list, default, round, fb), default, round, fb);
      cheapest in kept && forall b :: b in kept ==> fb(cheapest, round).cost <= fb(b, round).cost
  {
    hide SortBy, StrictlyIncreasing, IndexOf, Accepted, Cheapest, Kept;
    var accepted := Accepted(list, default, round, fb);
    AcceptedAreKept(list, default, round, fb);
    var kept := Kept(list, default, round, fb);
    var b := kept[0];
    assert b in kept;
    assert b in accepted;
    CheapestIsLeast(accepted, default, round, fb);
  }

  lemma CheapestIsLeast(order: seq<int>, otherwise: int, round: nat, fb: Oracle)
    requires order != []
    ensures var cheapest := Cheapest(order, otherwise, round, fb);
      cheapest in order && forall b :: b in order ==> fb(cheapest, round).cost <= fb(b, round).cost
  {
    var le := NoCostlier(round, fb);
    FirstLeastIsLeast(le, order);
    forall b | b in order
      ensures le(order[FirstLeast(le, order)], b)
    {
      var i :| 0 <= i < |order| && order[i] == b;
    }
  }

  ghost predicate Segment(part: seq<int>, whole: seq<int>) {
    exists lo, hi :: 0 <= lo <= hi <= |whole| && part == whole[lo..hi]
  }

  lemma SegmentOfSegment(a: seq<int>, b: seq<int>, c: seq<int>)
    requires Segment(a, b) && Segment(b, c)
    ensures Segment(a, c)
  {
    var l1, h1 :| 0 <= l1 <= h1 <= |b| && a == b[l1..h1];
    var l2, h2 :| 0 <= l2 <= h2 <= |c| && b == c[l2..h2];
    var d := c[l2 + l1..l2 + h1];
    forall i | 0 <= i < |a|
      ensures a[i] == d[i]
    {
      assert a[i] == b[l1 + i] == c[l2 + (l1 + i)];
    }
    assert a == d;
  }

  ghost predicate Guaranteed(v: Verdict, list: seq<int>, round: nat, rounds: nat, fb: Oracle)
    requires round <= rounds
  {
    && |v.trace| <= (rounds - round) * |list|
    && (forall b :: b in v.trace ==> b in list)
    && match v.answer
       case Stops(survivors) =>
         && survivors.Some? && Segment(survivors.value, list)
         && (forall b, r :: b in survivors.value && round <= r < rounds ==> fb(b, r).reached)
       case Raises(why) => why == DefaultPruned && round + 1 < rounds
       case _ => false
  }

  /** However the explorations turn out: the survivors are a contiguous stretch of the batch sizes and reached the
      target in every round; pruning fails only by pruning everything; and no round explores more batch sizes
      than it was given. */
  lemma {:induction false} PruneGuarantees(list: seq<int>, default: int, round: nat, rounds: nat, fb: Oracle)
    requires StrictlyIncreasing(list) && default in list && round <= rounds
    ensures Guaranteed(Prune(list, default, round, rounds, fb), list, round, rounds, fb)
    decreases rounds - round
  {
    if round == rounds {
      assert list == list[0..|list|];
    } else {
      PruneStep(list, default, round, rounds, fb);
    }
  }

  lemma ExploredBound(list: seq<int>, default: int, round: nat, fb: Oracle)
    requires default in list
    ensures |Explored(list, default, round, fb)| <= |list|
    ensures forall b :: b in Explored(list, default, round, fb) ==> b in list
    ensures Segment(Kept(list, default, round, fb), list)
  {
    hide Passed, IndexOf;
    var down, up := Downward(list, default), Upward(list, default);
    assert forall b :: b in Tried(down, round, fb) ==> b in down;
    assert forall b :: b in Tried(up, round, fb) ==> b in up;
  }

  lemma PruneStep(list: seq<int>, default: int, round: nat, rounds: nat, fb: Oracle)
    requires StrictlyIncreasing(list) && default in list && round < rounds
    ensures Guaranteed(Prune(list, default, round, rounds, fb), list, round, rounds, fb)
    decreases rounds - round, 0
  {
    hide SortBy, StrictlyIncreasing, IndexOf, Passed, Kept, Accepted, Explored, Cheapest, Segment;
    var kept := Kept(list, default, round, fb);
    var cheapest := Cheapest(Accepted(list, default, round, fb), default, round, fb);
    var later := Prune(kept, cheapest, round + 1, rounds, fb);
    KeptIsSorted(list, default, round, fb);
    AcceptedAreKept(list, default, round, fb);
    ExploredBound(list, default, round, fb);
    SegmentNoLonger(kept, list);
    Product(rounds - round, |list|, |kept|);
    if kept != [] {
      CheapestIsKept(list, default, round, fb);
      PruneGuarantees(kept, cheapest, round + 1, rounds, fb);
      if later.answer.Stops? {
        SegmentOfSegment(later.answer.survivors.value, kept, list);
        SegmentNoLonger(later.answer.survivors.value, kept);
      }
    }
  }

  lemma SegmentNoLonger(part: seq<int>, whole: seq<int>)
    requires Segment(part, whole)
    ensures |part| <= |whole| && forall b :: b in part ==> b in whole
  {
  }

  lemma Product(n: nat, whole: nat, part: nat)
    requires n > 0 && part <= whole
    ensures whole + (n - 1) * part <= n * whole
  {
    NotNegative(n - 1, whole - part);
    assert n * whole - (whole + (n - 1) * part) == (n - 1) * (whole - part);
  }

  lemma NotNegative(a: nat, b: nat)
    ensures a * b >= 0
  {
  }
}
