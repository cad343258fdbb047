/** Energy of GPUs without an energy counter, device/gpu_nvidia.h: a polling thread logs power samples, and the energy
    of a window is the trapezoidal integral over the samples that fall into it. */
module PolledEnergy {
  import opened Lists
  import opened Outcomes

  datatype PowerSample = PowerSample(timestamp: real, gpu: int, power: real)

  /** Time and power. */
  datatype Point = Point(time: real, power: real)

  /** The order of `std::pair`. */
  predicate Before(p: Point, q: Point) {
    p.time < q.time || (p.time == q.time && p.power <= q.power)
  }

  function Picked<S, T>(s: seq<S>, pick: S -> Option<T>): seq<T> {
    if s == [] then [] else (if pick(s[0]).Some? then [pick(s[0]).value] else []) + Picked(s[1..], pick)
  }

  function InWindow(gpu: int, start: real, end: real): PowerSample -> Option<Point> {
    (s: PowerSample) =>
      if s.gpu == gpu && s.timestamp >= start && s.timestamp <= end then Some(Point(s.timestamp, s.power)) else None
  }

  /** The samples of one GPU in a closed window. */
  function Timeline(samples: seq<PowerSample>, gpu: int, start: real, end: real): seq<Point> {
    Picked(samples, InWindow(gpu, start, end))
  }

  /** The trapezoid between two points. */
  function Area(p: Point, q: Point): real {
    (q.power + p.power) / 2.0 * (q.time - p.time)
  }

  function Integral(t: seq<Point>): real {
    if |t| < 2 then 0.0 else Area(t[0], t[1]) + Integral(t[1..])
  }

  function Energy(samples: seq<PowerSample>, gpu: int, start: real, end: real): real {
    Integral(SortBy(Before, Timeline(samples, gpu, start, end)))
  }

  // ---- Filters and order ----

  lemma Associates<T>(a: seq<T>, b: seq<T>, c: seq<T>)
    ensures a + (b + c) == (a + b) + c
  {
  }

  lemma {:induction false} PickedOfMore<S, T>(a: seq<S>, b: seq<S>, pick: S -> Option<T>)
    ensures Picked(a + b, pick) == Picked(a, pick) + Picked(b, pick)
    decreases |a|
  {
    if a == [] {
      assert a + b == b;
    } else {
      assert (a + b)[1..] == a[1..] + b;
      PickedOfMore(a[1..], b, pick);
      var first := if pick(a[0]).Some? then [pick(a[0]).value] else [];
      Associates(first, Picked(a[1..], pick), Picked(b, pick));
    }
  }

  lemma PickedWithout<S, T>(s: seq<S>, k: nat, pick: S -> Option<T>)
    requires k < |s|
    ensures multiset(Picked(s, pick))
         == multiset(Picked(Without(s, k), pick)) + if pick(s[k]).Some? then multiset{pick(s[k]).value} else multiset{}
  {
    SplitAt(s, k);
    hide Without;
    PickedInserted(s[..k], s[k], s[k + 1..], pick);
  }

  lemma PickedInserted<S, T>(front: seq<S>, x: S, back: seq<S>, pick: S -> Option<T>)
    ensures multiset(Picked(front + ([x] + back), pick))
         == multiset(Picked(front + back, pick)) + if pick(x).Some? then multiset{pick(x).value} else multiset{}
  {
    PickedOfMore(front, [x] + back, pick);
    PickedOfMore(front, back, pick);
    PickedFirst(x, back, pick);
    hide Picked;
    var a, b := Picked(front, pick), Picked(back, pick);
    if pick(x).Some? {
      assert multiset(a + ([pick(x).value] + b)) == multiset(a) + multiset{pick(x).value} + multiset(b);
    }
  }

  lemma PickedFirst<S, T>(x: S, back: seq<S>, pick: S -> Option<T>)
    ensures Picked([x] + back, pick) == (if pick(x).Some? then [pick(x).value] else []) + Picked(back, pick)
  {
    assert ([x] + back)[1..] == back;
  }

  lemma {:induction false} PickedPermuted<S, T>(a: seq<S>, b: seq<S>, pick: S -> Option<T>)
    requires multiset(a) == multiset(b)
    ensures multiset(Picked(a, pick)) == multiset(Picked(b, pick))
    decreases |a|
  {
    if a == [] {
      assert |multiset(b)| == 0;
    } else {
      hide Picked;
      var x := a[0];
      assert x in multiset(b);
      var k :| 0 <= k < |b| && b[k] == x;
      assert a == [x] + a[1..];
      PickedPermuted(a[1..], Without(b, k), pick);
      PickedWithout(b, k, pick);
      PickedWithout(a, 0, pick);
    }
  }

  lemma {:induction false} PickedTwice<S, T>(s: seq<S>, first: S -> Option<T>, second: T -> Option<T>,
                                              both: S -> Option<T>)
    requires forall i :: 0 <= i < |s| ==> both(s[i]) == if first(s[i]).None? then None else second(first(s[i]).value)
    ensures Picked(Picked(s, first), second) == Picked(s, both)
    decreases |s|
  {
    if s != [] {
      PickedTwice(s[1..], first, second, both);
      PickedOfMore(if first(s[0]).Some? then [first(s[0]).value] else [], Picked(s[1..], first), second);
    }
  }

  lemma BeforeIsTotal()
    ensures TotalOrder(Before) && Antisymmetric(Before)
  {
  }

  /** The order in which the samples were logged does not matter. */
  lemma EnergyPermuted(a: seq<PowerSample>, b: seq<PowerSample>, gpu: int, start: real, end: real)
    requires multiset(a) == multiset(b)
    ensures Energy(a, gpu, start, end) == Energy(b, gpu, start, end)
  {
    PickedPermuted(a, b, InWindow(gpu, start, end));
    SortedAlike(Timeline(a, gpu, start, end), Timeline(b, gpu, start, end));
  }

  /** Samples of another GPU, or from outside of the window, do not matter at all. */
  lemma OthersIgnored(front: seq<PowerSample>, x: PowerSample, back: seq<PowerSample>, gpu: int, start: real, end: real)
    requires x.gpu != gpu || x.timestamp < start || x.timestamp > end
    ensures Timeline(front + ([x] + back), gpu, start, end) == Timeline(front + back, gpu, start, end)
    ensures Energy(front + ([x] + back), gpu, start, end) == Energy(front + back, gpu, start, end)
  {
    var pick := InWindow(gpu, start, end);
    PickedOfMore(front, [x] + back, pick);
    PickedOfMore(front, back, pick);
    PickedFirst(x, back, pick);
    hide Picked;
    assert [] + Picked(back, pick) == Picked(back, pick);
  }

  /** Every sample of the GPU in the window counts, with its own time and power. */
  lemma {:induction false} OwnCounted(samples: seq<PowerSample>, gpu: int, start: real, end: real, x: PowerSample)
    requires x in samples && x.gpu == gpu && start <= x.timestamp <= end
    ensures Point(x.timestamp, x.power) in Timeline(samples, gpu, start, end)
    decreases |samples|
  {
    if samples[0] != x {
      OwnCounted(samples[1..], gpu, start, end, x);
    }
  }

  lemma SortedAlike(s: seq<Point>, t: seq<Point>)
    requires multiset(s) == multiset(t)
    ensures SortBy(Before, s) == SortBy(Before, t)
  {
    BeforeIsTotal();
    SortByIsOrdered(Before, s);
    SortByIsOrdered(Before, t);
    OrderedIsUnique(Before, SortBy(Before, s), SortBy(Before, t));
  }

  lemma SortedIs(s: seq<Point>, t: seq<Point>)
    requires multiset(s) == multiset(t) && OrderedBy(Before, t)
    ensures SortBy(Before, s) == t
  {
    BeforeIsTotal();
    SortByIsOrdered(Before, s);
    OrderedIsUnique(Before, SortBy(Before, s), t);
  }

  // ---- The integral ----

  lemma {:induction false} IntegralOfMore(a: seq<Point>, p: Point, b: seq<Point>)
    ensures Integral(a + [p] + b) == Integral(a + [p]) + Integral([p] + b)
    decreases |a|
  {
    hide Area;
    if a == [] {
      assert a + [p] + b == [p] + b && a + [p] == [p];
    } else {
      assert (a + [p] + b)[1..] == a[1..] + [p] + b && (a + [p])[1..] == a[1..] + [p];
      IntegralOfMore(a[1..], p, b);
      assert (a + [p] + b)[1] == (a + [p])[1];
    }
  }

  predicate OneTime(t: seq<Point>) {
    forall i, j :: 0 <= i < |t| && 0 <= j < |t| ==> t[i].time == t[j].time
  }

  lemma {:induction false} IntegralOfOneTime(t: seq<Point>)
    requires OneTime(t)
    ensures Integral(t) == 0.0
    decreases |t|
  {
    if |t| >= 2 {
      assert t[0].time == t[1].time;
      assert OneTime(t[1..]);
      IntegralOfOneTime(t[1..]);
    }
  }

  function Span(t: seq<Point>): real {
    if t == [] then 0.0 else t[|t| - 1].time - t[0].time
  }

  lemma AreaBounds(p: Point, q: Point, lo: real, hi: real)
    requires p.time <= q.time && lo <= p.power <= hi && lo <= q.power <= hi
    ensures lo * (q.time - p.time) <= Area(p, q) <= hi * (q.time - p.time)
  {
    var avg, dt := (q.power + p.power) / 2.0, q.time - p.time;
    Scales(lo, avg, dt);
    Scales(avg, hi, dt);
  }

  lemma Scales(x: real, y: real, d: real)
    requires x <= y && d >= 0.0
    ensures x * d <= y * d
  {
    NonNegative(y - x, d);
    assert y * d - x * d == (y - x) * d;
  }

  lemma NonNegative(x: real, d: real)
    requires x >= 0.0 && d >= 0.0
    ensures x * d >= 0.0
  {
  }

  lemma {:induction false} IntegralBounds(t: seq<Point>, lo: real, hi: real)
    requires OrderedBy(Before, t) && forall i :: 0 <= i < |t| ==> lo <= t[i].power <= hi
    ensures lo * Span(t) <= Integral(t) <= hi * Span(t)
    decreases |t|
  {
    hide Area;
    if |t| >= 2 {
      assert Before(t[0], t[1]);
      assert OrderedBy(Before, t[1..]);
      IntegralBounds(t[1..], lo, hi);
      AreaBounds(t[0], t[1], lo, hi);
      var d, e := t[1].time - t[0].time, Span(t[1..]);
      assert Span(t) == d + e;
      assert lo * (d + e) == lo * d + lo * e && hi * (d + e) == hi * d + hi * e;
    } else {
      assert Span(t) == 0.0;
    }
  }

  lemma EndsAreExtremes(s: seq<Point>, p: Point)
    requires p in s
    ensures var t := SortBy(Before, s); t != [] && t[0].time <= p.time <= t[|t| - 1].time
  {
    hide SortBy;
    var t := SortBy(Before, s);
    BeforeIsTotal();
    SortByIsOrdered(Before, s);
    SameElements(s, t);
    hide TotalOrder, Antisymmetric;
    var i :| 0 <= i < |t| && t[i] == p;
    assert i > 0 ==> Before(t[0], t[i]);
    assert i < |t| - 1 ==> Before(t[i], t[|t| - 1]);
  }

  lemma SortedPowers(s: seq<Point>, lo: real, hi: real)
    requires forall p :: p in s ==> lo <= p.power <= hi
    ensures var t := SortBy(Before, s);
      OrderedBy(Before, t) && forall i :: 0 <= i < |t| ==> lo <= t[i].power <= hi
  {
    var t := SortBy(Before, s);
    BeforeIsTotal();
    SortByIsOrdered(Before, s);
    SameElements(s, t);
    forall i | 0 <= i < |t|
      ensures lo <= t[i].power <= hi
    {
      var p := t[i];
      assert p in t;
    }
  }

  /** The energy lies between the least and the greatest sampled power, times the sampled span: the time from the first
      to the last sample in the window. */
  lemma EnergyBounds(samples: seq<PowerSample>, gpu: int, start: real, end: real, lo: real, hi: real)
    requires forall p :: p in Timeline(samples, gpu, start, end) ==> lo <= p.power <= hi
    ensures var t := SortBy(Before, Timeline(samples, gpu, start, end));
      && lo * Span(t) <= Energy(samples, gpu, start, end) <= hi * Span(t)
      && forall p :: p in Timeline(samples, gpu, start, end) ==> t != [] && t[0].time <= p.time <= t[|t| - 1].time
  {
    hide SortBy, Integral, Span, Timeline;
    var s := Timeline(samples, gpu, start, end);
    SortedPowers(s, lo, hi);
    IntegralBounds(SortBy(Before, s), lo, hi);
    forall p | p in s
      ensures SortBy(Before, s) != []
      ensures SortBy(Before, s)[0].time <= p.time <= SortBy(Before, s)[|SortBy(Before, s)| - 1].time
    {
      EndsAreExtremes(s, p);
    }
  }

  /** The integral of the power a + b t up to a time. */
  function Primitive(a: real, b: real, time: real): real {
    a * time + b * (time * time) / 2.0
  }

  lemma AreaUnderLine(p: Point, q: Point, a: real, b: real)
    requires p.power == a + b * p.time && q.power == a + b * q.time
    ensures Area(p, q) == Primitive(a, b, q.time) - Primitive(a, b, p.time)
  {
    var s, t := p.time, q.time;
    assert (q.power + p.power) / 2.0 == a + b * (t + s) / 2.0;
    assert (t + s) * (t - s) == t * t - s * s;
    assert b * ((t + s) * (t - s)) == b * (t + s) * (t - s);
  }

  lemma {:induction false} IntegralOfLine(t: seq<Point>, a: real, b: real)
    requires t != [] && forall i :: 0 <= i < |t| ==> t[i].power == a + b * t[i].time
    ensures Integral(t) == Primitive(a, b, t[|t| - 1].time) - Primitive(a, b, t[0].time)
    decreases |t|
  {
    hide Area, Primitive;
    if |t| >= 2 {
      AreaUnderLine(t[0], t[1], a, b);
      IntegralOfLine(t[1..], a, b);
    }
  }

  /** For power that changes linearly over the window the energy is exact. */
  lemma ExactForLinearPower(samples: seq<PowerSample>, gpu: int, start: real, end: real, a: real, b: real)
    requires Timeline(samples, gpu, start, end) != []
    requires forall p :: p in Timeline(samples, gpu, start, end) ==> p.power == a + b * p.time
    ensures var t := SortBy(Before, Timeline(samples, gpu, start, end));
      t != [] && Energy(samples, gpu, start, end) == Primitive(a, b, t[|t| - 1].time) - Primitive(a, b, t[0].time)
  {
    hide SortBy, Integral, Timeline, Primitive;
    var s := Timeline(samples, gpu, start, end);
    var t := SortBy(Before, s);
    SameElements(s, t);
    forall i | 0 <= i < |t|
      ensures t[i].power == a + b * t[i].time
    {
      var p := t[i];
      assert p in t;
    }
    IntegralOfLine(t, a, b);
  }

  lemma AreaIsPositive(p: Point, q: Point)
    requires p.power > 0.0 && q.power > 0.0 && p.time <= q.time
    ensures Area(p, q) >= 0.0 && (Area(p, q) == 0.0 <==> p.time == q.time)
  {
    var avg, dt := (q.power + p.power) / 2.0, q.time - p.time;
    if dt > 0.0 {
      Positive(avg, dt);
    }
  }

  lemma Positive(x: real, d: real)
    requires x > 0.0 && d > 0.0
    ensures x * d > 0.0
  {
  }

  lemma {:induction false} IntegralIsPositive(t: seq<Point>)
    requires OrderedBy(Before, t) && forall i :: 0 <= i < |t| ==> t[i].power > 0.0
    ensures Integral(t) >= 0.0 && (Integral(t) == 0.0 <==> OneTime(t))
    decreases |t|
  {
    if |t| >= 2 {
      assert Before(t[0], t[1]);
      AreaIsPositive(t[0], t[1]);
      hide Area;
      assert OrderedBy(Before, t[1..]);
      IntegralIsPositive(t[1..]);
      OneTimeOfMore(t);
    }
  }

  lemma OneTimeOfMore(t: seq<Point>)
    requires |t| >= 2
    ensures OneTime(t) <==> t[0].time == t[1].time && OneTime(t[1..])
  {
    if t[0].time == t[1].time && OneTime(t[1..]) {
      forall i, j | 0 <= i < |t| && 0 <= j < |t|
        ensures t[i].time == t[j].time
      {
        assert t[1..][if i == 0 then 0 else i - 1].time == t[1..][if j == 0 then 0 else j - 1].time;
      }
    }
  }

  // ---- Adjacent windows ----

  function Until(b: real): Point -> Option<Point> {
    (p: Point) => if p.time <= b then Some(p) else None
  }

  function From(b: real): Point -> Option<Point> {
    (p: Point) => if p.time >= b then Some(p) else None
  }

  /** How many points of an ordered timeline come before `b`. */
  function CountBefore(t: seq<Point>, b: real): (k: nat)
    ensures k <= |t| && (forall i :: 0 <= i < k ==> t[i].time < b) && (k < |t| ==> t[k].time >= b)
  {
    if t == [] || t[0].time >= b then 0 else 1 + CountBefore(t[1..], b)
  }

  /** How many come no later than `b`. */
  function CountUntil(t: seq<Point>, b: real): (k: nat)
    ensures k <= |t| && (forall i :: 0 <= i < k ==> t[i].time <= b) && (k < |t| ==> t[k].time > b)
  {
    if t == [] || t[0].time > b then 0 else 1 + CountUntil(t[1..], b)
  }

  lemma {:induction false} PickedAll(s: seq<Point>, pick: Point -> Option<Point>)
    requires forall i :: 0 <= i < |s| ==> pick(s[i]) == Some(s[i])
    ensures Picked(s, pick) == s
    decreases |s|
  {
    if s != [] {
      PickedAll(s[1..], pick);
    }
  }

  lemma {:induction false} PickedNone(s: seq<Point>, pick: Point -> Option<Point>)
    requires forall i :: 0 <= i < |s| ==> pick(s[i]) == None
    ensures Picked(s, pick) == []
    decreases |s|
  {
    if s != [] {
      PickedNone(s[1..], pick);
    }
  }

  lemma PickedPrefix(t: seq<Point>, k: nat, pick: Point -> Option<Point>)
    requires k <= |t|
    requires (forall i :: 0 <= i < k ==> pick(t[i]) == Some(t[i])) && (forall i :: k <= i < |t| ==> pick(t[i]) == None)
    ensures Picked(t, pick) == t[..k]
  {
    assert t == t[..k] + t[k..];
    PickedOfMore(t[..k], t[k..], pick);
    PickedAll(t[..k], pick);
    PickedNone(t[k..], pick);
  }

  lemma PickedSuffix(t: seq<Point>, k: nat, pick: Point -> Option<Point>)
    requires k <= |t|
    requires (forall i :: 0 <= i < k ==> pick(t[i]) == None) && (forall i :: k <= i < |t| ==> pick(t[i]) == Some(t[i]))
    ensures Picked(t, pick) == t[k..]
  {
    assert t == t[..k] + t[k..];
    PickedOfMore(t[..k], t[k..], pick);
    PickedNone(t[..k], pick);
    PickedAll(t[k..], pick);
  }

  lemma CountsDivide(t: seq<Point>, b: real)
    requires OrderedBy(Before, t)
    ensures forall i :: CountBefore(t, b) <= i < |t| ==> t[i].time >= b
    ensures forall i :: CountUntil(t, b) <= i < |t| ==> t[i].time > b
    ensures CountBefore(t, b) <= CountUntil(t, b)
  {
    var j, k := CountBefore(t, b), CountUntil(t, b);
    forall i | j <= i < |t|
      ensures t[i].time >= b
    {
      assert i > j ==> Before(t[j], t[i]);
    }
    forall i | k <= i < |t|
      ensures t[i].time > b
    {
      assert i > k ==> Before(t[k], t[i]);
    }
  }

  lemma PickedAreEnds(t: seq<Point>, b: real)
    requires OrderedBy(Before, t)
    ensures Picked(t, Until(b)) == t[..CountUntil(t, b)] && Picked(t, From(b)) == t[CountBefore(t, b)..]
  {
    hide CountBefore, CountUntil, Picked;
    CountsDivide(t, b);
    PickedPrefix(t, CountUntil(t, b), Until(b));
    PickedSuffix(t, CountBefore(t, b), From(b));
  }

  lemma SortedTimeline(samples: seq<PowerSample>, gpu: int, a: real, c: real)
    ensures OrderedBy(Before, SortBy(Before, Timeline(samples, gpu, a, c)))
  {
    BeforeIsTotal();
    SortByIsOrdered(Before, Timeline(samples, gpu, a, c));
  }

  lemma SortedPart(s: seq<Point>, t: seq<Point>, lo: nat, hi: nat, pick: Point -> Option<Point>)
    requires multiset(s) == multiset(t) && OrderedBy(Before, t) && lo <= hi <= |t| && Picked(t, pick) == t[lo..hi]
    ensures SortBy(Before, Picked(s, pick)) == t[lo..hi]
  {
    hide Before, SortBy, Picked;
    PickedPermuted(s, t, pick);
    SliceIsOrdered(t, lo, hi);
    hide OrderedBy;
    SortedIs(Picked(s, pick), t[lo..hi]);
  }

  lemma Halves(samples: seq<PowerSample>, gpu: int, a: real, b: real, c: real)
    requires a <= b <= c
    ensures Timeline(samples, gpu, a, b) == Picked(Timeline(samples, gpu, a, c), Until(b))
    ensures Timeline(samples, gpu, b, c) == Picked(Timeline(samples, gpu, a, c), From(b))
  {
    PickedTwice(samples, InWindow(gpu, a, c), Until(b), InWindow(gpu, a, b));
    PickedTwice(samples, InWindow(gpu, a, c), From(b), InWindow(gpu, b, c));
  }

  /** The sorted timelines of two adjacent windows are the two ends of that of the whole window, and share its points
      at the common bound. */
  lemma TimelinesAreEnds(samples: seq<PowerSample>, gpu: int, a: real, b: real, c: real)
    requires a <= b <= c
    ensures var t := SortBy(Before, Timeline(samples, gpu, a, c));
      && SortBy(Before, Timeline(samples, gpu, a, b)) == t[..CountUntil(t, b)]
      && SortBy(Before, Timeline(samples, gpu, b, c)) == t[CountBefore(t, b)..]
  {
    hide *;
    var s := Timeline(samples, gpu, a, c);
    var t := SortBy(Before, s);
    SortedTimeline(samples, gpu, a, c);
    Halves(samples, gpu, a, b, c);
    PickedAreEnds(t, b);
    SortedFront(s, t, CountUntil(t, b), Until(b));
    SortedBack(s, t, CountBefore(t, b), From(b));
  }

  lemma SortedFront(s: seq<Point>, t: seq<Point>, k: nat, pick: Point -> Option<Point>)
    requires multiset(s) == multiset(t) && OrderedBy(Before, t) && k <= |t| && Picked(t, pick) == t[..k]
    ensures SortBy(Before, Picked(s, pick)) == t[..k]
  {
    assert t[0..k] == t[..k];
    hide *;
    SortedPart(s, t, 0, k, pick);
  }

  lemma SortedBack(s: seq<Point>, t: seq<Point>, k: nat, pick: Point -> Option<Point>)
    requires multiset(s) == multiset(t) && OrderedBy(Before, t) && k <= |t| && Picked(t, pick) == t[k..]
    ensures SortBy(Before, Picked(s, pick)) == t[k..]
  {
    assert t[k..|t|] == t[k..];
    hide *;
    SortedPart(s, t, k, |t|, pick);
  }

  lemma SliceIsOrdered(t: seq<Point>, lo: nat, hi: nat)
    requires OrderedBy(Before, t) && lo <= hi <= |t|
    ensures OrderedBy(Before, t[lo..hi])
  {
    hide Before;
  }

  /** The trapezoid that straddles `b`, when no sample lies at `b` itself. */
  function Straddling(t: seq<Point>, b: real): real {
    var k := CountBefore(t, b);
    if 0 < k < |t| && t[k].time != b then Area(t[k - 1], t[k]) else 0.0
  }

  lemma MiddleIsFlat(front: seq<Point>, mid: seq<Point>, p: Point, rest: seq<Point>)
    requires OneTime(mid + [p])
    ensures Integral(front + [p] + rest) == Integral(front + [p]) + Integral(mid + [p] + rest)
  {
    hide Integral;
    IntegralOfMore(front, p, rest);
    IntegralOfMore(mid, p, rest);
    IntegralOfOneTime(mid + [p]);
  }

  /** Two ends that share points of one moment add up. */
  lemma SharedEndsAdd(t: seq<Point>, j: nat, k: nat)
    requires j < k <= |t| && OneTime(t[j..k])
    ensures Integral(t) == Integral(t[..k]) + Integral(t[j..])
  {
    hide Integral, OneTime;
    var front, mid, p, rest := t[..k - 1], t[j..k - 1], t[k - 1], t[k..];
    assert t[..k] == front + [p];
    assert mid + [p] == t[j..k];
    assert t == front + [p] + rest;
    assert t[j..] == mid + [p] + rest;
    MiddleIsFlat(front, mid, p, rest);
  }

  /** Two ends that share nothing lack the trapezoid between them. */
  lemma ApartEndsAdd(t: seq<Point>, k: nat)
    requires 0 < k < |t|
    ensures Integral(t) == Integral(t[..k]) + Integral(t[k..]) + Area(t[k - 1], t[k])
  {
    hide Area;
    var front, p, rest := t[..k - 1], t[k - 1], t[k..];
    IntegralOfMore(front, p, rest);
    assert t == front + [p] + rest && t[..k] == front + [p];
    assert ([p] + rest)[1..] == rest;
  }

  lemma EndsAddAt(t: seq<Point>, j: nat, k: nat, b: real)
    requires j <= k <= |t| && forall i :: j <= i < k ==> t[i].time == b
    ensures Integral(t)
         == Integral(t[..k]) + Integral(t[j..]) + if j == k && 0 < k < |t| then Area(t[k - 1], t[k]) else 0.0
  {
    hide Area, Integral;
    if j < k {
      assert OneTime(t[j..k]);
      SharedEndsAdd(t, j, k);
    } else if 0 < k < |t| {
      ApartEndsAdd(t, k);
    } else {
      WholeAdds(t, k);
    }
  }

  lemma EndsAdd(t: seq<Point>, b: real)
    requires OrderedBy(Before, t)
    ensures Integral(t) == Integral(t[..CountUntil(t, b)]) + Integral(t[CountBefore(t, b)..]) + Straddling(t, b)
  {
    var j, k := CountBefore(t, b), CountUntil(t, b);
    CountsDivide(t, b);
    hide Area, Before, OrderedBy, CountBefore, CountUntil, Integral;
    EndsAddAt(t, j, k, b);
  }

  lemma WholeAdds(t: seq<Point>, k: nat)
    requires k == 0 || k == |t|
    ensures Integral(t) == Integral(t[..k]) + Integral(t[k..])
  {
    assert k == 0 ==> t[k..] == t && t[..k] == [];
    assert k == |t| ==> t[..k] == t && t[k..] == [];
  }

  /** Adjacent windows add up to the whole, except for the trapezoid that straddles their common bound. */
  lemma WindowsAdd(samples: seq<PowerSample>, gpu: int, a: real, b: real, c: real)
    requires a <= b <= c
    ensures Energy(samples, gpu, a, c)
         == Energy(samples, gpu, a, b) + Energy(samples, gpu, b, c)
            + Straddling(SortBy(Before, Timeline(samples, gpu, a, c)), b)
  {
    var t := SortBy(Before, Timeline(samples, gpu, a, c));
    hide SortBy, Integral, Area, Timeline;
    SortedTimeline(samples, gpu, a, c);
    TimelinesAreEnds(samples, gpu, a, b, c);
    EndsAdd(t, b);
  }

  /** Adjacent windows are additive if and only if a sample lies at their common bound, or one side has no sample. */
  lemma AdditiveExactlyWhen(samples: seq<PowerSample>, gpu: int, a: real, b: real, c: real)
    requires a <= b <= c && AllPositive(samples)
    ensures Energy(samples, gpu, a, c) == Energy(samples, gpu, a, b) + Energy(samples, gpu, b, c)
      <==> var s := Timeline(samples, gpu, a, c);
        || (exists p :: p in s && p.time == b)
        || (forall p :: p in s ==> p.time >= b) || (forall p :: p in s ==> p.time <= b)
  {
    var s := Timeline(samples, gpu, a, c);
    var t := SortBy(Before, s);
    WindowsAdd(samples, gpu, a, b, c);
    SortedTimeline(samples, gpu, a, c);
    PositiveTimeline(samples, gpu, a, c);
    SameElements(s, t);
    hide SortBy, Timeline, Energy;
    StraddlingIsZero(t, b);
    forall p
      ensures p in s <==> p in t
    {
    }
  }

  lemma StraddlingIsZero(t: seq<Point>, b: real)
    requires OrderedBy(Before, t) && forall p :: p in t ==> p.power > 0.0
    ensures Straddling(t, b) == 0.0
      <==> ((exists p :: p in t && p.time == b)
            || (forall p :: p in t ==> p.time >= b) || (forall p :: p in t ==> p.time <= b))
  {
    var k := CountBefore(t, b);
    forall p | p in t
      ensures exists i :: 0 <= i < |t| && t[i] == p && (i < k ==> p.time < b) && (i > k ==> t[k].time <= p.time)
    {
      var i :| 0 <= i < |t| && t[i] == p;
      assert i > k ==> Before(t[k], t[i]);
    }
    if 0 < k < |t| {
      var p, q := t[k - 1], t[k];
      assert p in t && q in t;
      AreaIsPositive(p, q);
    }
  }

  // ---- Logging and reporting ----

  ghost predicate AllPositive(samples: seq<PowerSample>) {
    forall s :: s in samples ==> s.power > 0.0
  }

  lemma {:induction false} PositiveTimeline(samples: seq<PowerSample>, gpu: int, a: real, c: real)
    requires AllPositive(samples)
    ensures forall p :: p in SortBy(Before, Timeline(samples, gpu, a, c)) ==> p.power > 0.0
  {
    PickedIsPositive(samples, gpu, a, c);
    SameElements(Timeline(samples, gpu, a, c), SortBy(Before, Timeline(samples, gpu, a, c)));
  }

  lemma {:induction false} PickedIsPositive(samples: seq<PowerSample>, gpu: int, a: real, c: real)
    requires AllPositive(samples)
    ensures forall p :: p in Timeline(samples, gpu, a, c) ==> p.power > 0.0
    decreases |samples|
  {
    if samples != [] {
      PickedIsPositive(samples[1..], gpu, a, c);
      var first := samples[0];
      assert first in samples;
    }
  }

  /** The energy reported for a window of a GPU without a counter: sampled, or instant power over the elapsed time. */
  function Reported(samples: seq<PowerSample>, gpu: int, start: real, end: real, instant: real, elapsed: real): real {
    var e := Energy(samples, gpu, start, end);
    if e <= 0.0 then instant * elapsed else e
  }

  predicate OneMoment(s: seq<Point>) {
    forall p, q :: p in s && q in s ==> p.time == q.time
  }

  lemma OneMomentIsOneTime(s: seq<Point>, t: seq<Point>)
    requires multiset(s) == multiset(t)
    ensures OneMoment(s) <==> OneTime(t)
  {
    SameElements(s, t);
    if OneMoment(s) {
      forall i, j | 0 <= i < |t| && 0 <= j < |t|
        ensures t[i].time == t[j].time
      {
        var p, q := t[i], t[j];
        assert p in s && q in s;
      }
    }
  }

  /** The instant power, over the elapsed time, is used exactly when the window holds samples of at most one moment. */
  lemma FallsBackExactlyWhen(samples: seq<PowerSample>, gpu: int, start: real, end: real, instant: real, elapsed: real)
    requires AllPositive(samples)
    ensures Energy(samples, gpu, start, end) >= 0.0
    ensures Energy(samples, gpu, start, end) <= 0.0 <==> OneMoment(Timeline(samples, gpu, start, end))
    ensures Reported(samples, gpu, start, end, instant, elapsed) ==
      if OneMoment(Timeline(samples, gpu, start, end)) then instant * elapsed else Energy(samples, gpu, start, end)
  {
    var s := Timeline(samples, gpu, start, end);
    var t := SortBy(Before, s);
    SortedTimeline(samples, gpu, start, end);
    PositiveTimeline(samples, gpu, start, end);
    hide SortBy, Timeline, Integral, OneMoment, OneTime, OrderedBy;
    OneMomentIsOneTime(s, t);
    forall i | 0 <= i < |t|
      ensures t[i].power > 0.0
    {
      var p := t[i];
      assert p in t;
    }
    IntegralIsPositive(t);
  }

  /** What one turn of the polling thread logs; a query that throws is None. */
  function Polled(gpus: seq<int>, supportsEnergy: int -> bool, now: real, power: int -> Option<real>)
    : (s: seq<PowerSample>)
    ensures forall x :: x in s ==>
      x.timestamp == now && x.power > 0.0 && x.gpu in gpus && !supportsEnergy(x.gpu) && power(x.gpu) == Some(x.power)
    ensures forall g ::
      g in gpus && !supportsEnergy(g) && power(g).Some? && power(g).value > 0.0 ==>
        PowerSample(now, g, power(g).value) in s
  {
    if gpus == [] then []
    else
      var (front, gpu) := (gpus[..|gpus| - 1], gpus[|gpus| - 1]);
      assert gpus == front + [gpu];
      Polled(front, supportsEnergy, now, power)
      + if !supportsEnergy(gpu) && power(gpu).Some? && power(gpu).value > 0.0
        then [PowerSample(now, gpu, power(gpu).value)] else []
  }

  lemma PolledMore(gpus: seq<int>, gpu: int, supportsEnergy: int -> bool, now: real, power: int -> Option<real>)
    ensures Polled([], supportsEnergy, now, power) == []
    ensures Polled(gpus + [gpu], supportsEnergy, now, power)
         == Polled(gpus, supportsEnergy, now, power)
            + if !supportsEnergy(gpu) && power(gpu).Some? && power(gpu).value > 0.0
              then [PowerSample(now, gpu, power(gpu).value)]
              else []
  {
    assert (gpus + [gpu])[..|gpus|] == gpus;
  }

  class NvidiaGpus {
    const gpus: seq<int>
    const supportsEnergy: int -> bool
    var samples: seq<PowerSample>

    constructor (gpus: seq<int>, supportsEnergy: int -> bool)
      ensures this.gpus == gpus && this.supportsEnergy == supportsEnergy && samples == []
    {
      this.gpus, this.supportsEnergy, samples := gpus, supportsEnergy, [];
    }

    /** One turn of the polling thread. */
    method Poll(now: real, power: int -> Option<real>)
      modifies this
      ensures samples == old(samples) + Polled(gpus, supportsEnergy, now, power)
      ensures old(AllPositive(samples)) ==> AllPositive(samples)
    {
      hide Polled;
      PolledMore([], 0, supportsEnergy, now, power);
      for i := 0 to |gpus|
        invariant samples == old(samples) + Polled(gpus[..i], supportsEnergy, now, power)
      {
        var gpu := gpus[i];
        PolledMore(gpus[..i], gpu, supportsEnergy, now, power);
        assert gpus[..i + 1] == gpus[..i] + [gpu];
        if !supportsEnergy(gpu) {
          if power(gpu).Some? && power(gpu).value > 0.0 {
            samples := samples + [PowerSample(now, gpu, power(gpu).value)];
          }
        }
      }
      assert gpus[..|gpus|] == gpus;
    }

    method ComputeEnergyFromSamples(gpu: int, start: real, end: real) returns (energy: real)
      ensures energy == Energy(samples, gpu, start, end)
    {
      hide SortBy;
      var timeline: seq<Point> := [];
      for i := 0 to |samples|
        invariant timeline == Timeline(samples[..i], gpu, start, end)
      {
        var s := samples[i];
        assert samples[..i + 1] == samples[..i] + [s];
        PickedOfMore(samples[..i], [s], InWindow(gpu, start, end));
        assert [s][1..] == [];
        if s.gpu == gpu && s.timestamp >= start && s.timestamp <= end {
          timeline := timeline + [Point(s.timestamp, s.power)];
        }
      }
      assert samples[..|samples|] == samples;
      if |timeline| < 2 {
        return 0.0;
      }
      timeline := SortBy(Before, timeline);
      energy := 0.0;
      for i := 1 to |timeline|
        invariant energy + Integral(timeline[i - 1..]) == Integral(timeline)
      {
        var dt := timeline[i].time - timeline[i - 1].time;
        var avg := (timeline[i].power + timeline[i - 1].power) / 2.0;
        assert timeline[i - 1..][1..] == timeline[i..];
        energy := energy + avg * dt;
      }
    }

    /** The delta of one GPU that has no counter. */
    method ComputeEnergyDelta(gpu: int, start: real, end: real, elapsed: real, instant: real) returns (energy: real)
      ensures energy == Reported(samples, gpu, start, end, instant, elapsed)
    {
      energy := ComputeEnergyFromSamples(gpu, start, end);
      if energy <= 0.0 {
        energy := instant * elapsed;
      }
    }
  }
}
