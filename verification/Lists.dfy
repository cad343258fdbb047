/** Orders, sorting and counting on sequences: the list operations the modelled programs take from their
    standard libraries. */
module Lists {

  ghost predicate TotalOrder<T(!new)>(le: (T, T) -> bool) {
    && (forall x, y :: le(x, y) || le(y, x))
    && (forall x, y, z :: le(x, y) && le(y, z) ==> le(x, z))
  }

  ghost predicate Antisymmetric<T(!new)>(le: (T, T) -> bool) {
    forall x, y :: le(x, y) && le(y, x) ==> x == y
  }

  ghost predicate OrderedBy<T>(le: (T, T) -> bool, s: seq<T>) {
    forall i, j :: 0 <= i < j < |s| ==> le(s[i], s[j])
  }

  predicate AtMost(x: int, y: int) { x <= y }

  predicate AtLeast(x: int, y: int) { x >= y }

  predicate StrictlyIncreasing(s: seq<int>) {
    forall i, j :: 0 <= i < j < |s| ==> s[i] < s[j]
  }

  ghost predicate Distinct<T>(s: seq<T>) {
    forall i, j :: 0 <= i < j < |s| ==> s[i] != s[j]
  }

  function Without<T>(s: seq<T>, k: nat): (r: seq<T>)
    requires k < |s|
    ensures multiset(r) == multiset(s) - multiset{s[k]}
    ensures |r| == |s| - 1
  {
    assert s == s[..k] + [s[k]] + s[k + 1..];
    s[..k] + s[k + 1..]
  }

  lemma SplitAt<T>(s: seq<T>, k: nat)
    requires k < |s|
    ensures s == s[..k] + ([s[k]] + s[k + 1..])
    ensures Without(s, k) == s[..k] + s[k + 1..]
  {
  }

  lemma FrontOf<T>(s: seq<T>)
    requires s != []
    ensures multiset(s[..|s| - 1]) == multiset(s) - multiset{s[|s| - 1]}
  {
    assert s == s[..|s| - 1] + [s[|s| - 1]];
  }

  /** The position of the first least element: the one a stable sort puts first. */
  function FirstLeast<T>(le: (T, T) -> bool, s: seq<T>): (k: nat)
    requires s != []
    ensures k < |s|
  {
    if |s| == 1 then 0
    else
      var k := FirstLeast(le, s[1..]);
      if le(s[0], s[1..][k]) then 0 else k + 1
  }

  lemma {:induction false} FirstLeastIsLeast<T(!new)>(le: (T, T) -> bool, s: seq<T>)
    requires TotalOrder(le) && s != []
    ensures forall i :: 0 <= i < |s| ==> le(s[FirstLeast(le, s)], s[i])
    ensures forall i :: 0 <= i < FirstLeast(le, s) ==> !le(s[i], s[FirstLeast(le, s)])
  {
    if |s| == 1 {
      assert le(s[0], s[0]);
    } else {
      FirstLeastIsLeast(le, s[1..]);
      var k := FirstLeast(le, s[1..]);
      assert forall i :: 0 < i < |s| ==> s[i] == s[1..][i - 1];
      assert le(s[0], s[0]);
    }
  }

  lemma {:induction false} FirstLeastOfLonger<T(!new)>(le: (T, T) -> bool, s: seq<T>, x: T)
    requires TotalOrder(le) && s != []
    ensures FirstLeast(le, s + [x]) == if le(s[FirstLeast(le, s)], x) then FirstLeast(le, s) else |s|
  {
    if |s| == 1 {
      assert (s + [x])[1..] == [x];
    } else {
      FirstLeastOfLonger(le, s[1..], x);
      assert (s + [x])[1..] == s[1..] + [x];
    }
  }

  /** Stable sorting, as Python's `sorted`. */
  function SortBy<T>(le: (T, T) -> bool, s: seq<T>): (r: seq<T>)
    ensures multiset(r) == multiset(s)
    ensures |r| == |s|
    decreases |s|
  {
    if s == [] then []
    else
      var k := FirstLeast(le, s);
      [s[k]] + SortBy(le, Without(s, k))
  }

  lemma SameBags<T>(a: seq<T>, b: seq<T>, c: seq<T>)
    requires multiset(a) == multiset(b)
    ensures multiset(a + c) == multiset(b + c)
  {
  }

  /** The elements that rank with `x`, in their order. */
  ghost function Alike<T>(le: (T, T) -> bool, x: T, s: seq<T>): seq<T> {
    if s == [] then [] else (if le(s[0], x) && le(x, s[0]) then [s[0]] else []) + Alike(le, x, s[1..])
  }

  lemma {:induction false} AlikeOfAppended<T>(le: (T, T) -> bool, x: T, a: seq<T>, b: seq<T>)
    ensures Alike(le, x, a + b) == Alike(le, x, a) + Alike(le, x, b)
  {
    if a == [] {
      assert a + b == b;
    } else {
      assert (a + b)[1..] == a[1..] + b;
      AlikeOfAppended(le, x, a[1..], b);
    }
  }

  lemma {:induction false} NoneAlike<T>(le: (T, T) -> bool, x: T, s: seq<T>)
    requires forall i :: 0 <= i < |s| ==> !le(s[i], x)
    ensures Alike(le, x, s) == []
  {
    if s != [] {
      NoneAlike(le, x, s[1..]);
    }
  }

  /** Sorting is stable: elements of equal rank keep their order. */
  lemma {:induction false} SortIsStable<T(!new)>(le: (T, T) -> bool, s: seq<T>, x: T)
    requires TotalOrder(le)
    ensures Alike(le, x, SortBy(le, s)) == Alike(le, x, s)
    decreases |s|
  {
    hide TotalOrder, FirstLeast, Without, Alike;
    if s != [] {
      var k := FirstLeast(le, s);
      SortIsStable(le, Without(s, k), x);
      FirstOfItsRank(le, s, x);
      SplitAt(s, k);
      AlikeMoved(le, x, s[..k], s[k], s[k + 1..]);
      AlikeOfAppended(le, x, [s[k]], SortBy(le, Without(s, k)));
      assert SortBy(le, s) == [s[k]] + SortBy(le, Without(s, k));
    } else {
      assert SortBy(le, s) == s;
    }
  }

  lemma AlikeMoved<T>(le: (T, T) -> bool, x: T, front: seq<T>, y: T, back: seq<T>)
    requires le(y, x) && le(x, y) ==> Alike(le, x, front) == []
    ensures Alike(le, x, front + ([y] + back)) == Alike(le, x, [y]) + Alike(le, x, front + back)
  {
    AlikeOfAppended(le, x, front, [y] + back);
    AlikeOfAppended(le, x, [y], back);
    AlikeOfAppended(le, x, front, back);
    AlikeOfOne(le, x, y);
    hide Alike;
    var a, b := Alike(le, x, front), Alike(le, x, back);
    if le(y, x) && le(x, y) {
      assert a + ([y] + b) == [y] + (a + b);
    } else {
      assert a + ([] + b) == [] + (a + b);
    }
  }

  /** Nothing before the first least element ranks with it. */
  lemma FirstOfItsRank<T(!new)>(le: (T, T) -> bool, s: seq<T>, x: T)
    requires TotalOrder(le) && s != []
    ensures var k := FirstLeast(le, s); le(s[k], x) && le(x, s[k]) ==> Alike(le, x, s[..k]) == []
  {
    FirstLeastIsLeast(le, s);
    hide FirstLeast, Alike;
    var k := FirstLeast(le, s);
    if le(s[k], x) && le(x, s[k]) {
      forall i | 0 <= i < k
        ensures !le(s[..k][i], x)
      {
        assert !le(s[i], s[k]);
      }
      NoneAlike(le, x, s[..k]);
    }
  }

  lemma AlikeOfOne<T>(le: (T, T) -> bool, x: T, y: T)
    ensures Alike(le, x, [y]) == if le(y, x) && le(x, y) then [y] else []
  {
    assert [y][1..] == [];
  }

  lemma SameElements<T>(a: seq<T>, b: seq<T>)
    requires multiset(a) == multiset(b)
    ensures forall x :: x in a <==> x in b
  {
    forall x
      ensures x in a <==> x in b
    {
      assert x in a <==> x in multiset(a);
      assert x in b <==> x in multiset(b);
    }
  }

  lemma OrderedCons<T(!new)>(le: (T, T) -> bool, x: T, s: seq<T>)
    requires OrderedBy(le, s)
    requires forall y :: y in s ==> le(x, y)
    ensures OrderedBy(le, [x] + s)
  {
    var r := [x] + s;
    forall i, j | 0 <= i < j < |r|
      ensures le(r[i], r[j])
    {
      assert r[j] == s[j - 1];
      if i > 0 { assert r[i] == s[i - 1]; }
    }
  }

  lemma LeastOfRest<T(!new)>(le: (T, T) -> bool, s: seq<T>)
    requires TotalOrder(le) && s != []
    ensures forall y :: y in Without(s, FirstLeast(le, s)) ==> le(s[FirstLeast(le, s)], y)
  {
    hide TotalOrder, FirstLeast;
    FirstLeastIsLeast(le, s);
    var k := FirstLeast(le, s);
    forall y | y in Without(s, k)
      ensures le(s[k], y)
    {
      var i :| 0 <= i < |s| - 1 && Without(s, k)[i] == y;
      assert y == s[if i < k then i else i + 1];
    }
  }

  lemma {:induction false} SortByIsOrdered<T(!new)>(le: (T, T) -> bool, s: seq<T>)
    requires TotalOrder(le)
    ensures OrderedBy(le, SortBy(le, s))
    decreases |s|
  {
    hide TotalOrder, OrderedBy, FirstLeast, Without;
    if s == [] {
      NoneIsOrdered(le, SortBy(le, s));
    } else {
      var k := FirstLeast(le, s);
      var rest := SortBy(le, Without(s, k));
      SortByIsOrdered(le, Without(s, k));
      SameElements(rest, Without(s, k));
      LeastOfRest(le, s);
      OrderedCons(le, s[k], rest);
    }
  }

  lemma NoneIsOrdered<T>(le: (T, T) -> bool, s: seq<T>)
    requires s == []
    ensures OrderedBy(le, s)
  {
  }

  lemma SameHead<T(!new)>(le: (T, T) -> bool, a: seq<T>, b: seq<T>)
    requires TotalOrder(le) && Antisymmetric(le)
    requires OrderedBy(le, a) && OrderedBy(le, b) && a != [] && b != []
    requires multiset(a) == multiset(b)
    ensures a[0] == b[0]
  {
    SameElements(a, b);
    assert a[0] in b && b[0] in a;
    assert le(a[0], a[0]);
    assert le(a[0], b[0]) && le(b[0], a[0]);
  }

  lemma TailOf<T>(a: seq<T>)
    requires a != []
    ensures multiset(a[1..]) == multiset(a) - multiset{a[0]}
  {
    assert a == [a[0]] + a[1..];
  }

  lemma OrderedTail<T>(le: (T, T) -> bool, a: seq<T>)
    requires OrderedBy(le, a) && a != []
    ensures OrderedBy(le, a[1..])
  {
  }

  /** An order decides how a bag of values is listed. */
  lemma {:induction false} OrderedIsUnique<T(!new)>(le: (T, T) -> bool, a: seq<T>, b: seq<T>)
    requires TotalOrder(le) && Antisymmetric(le)
    requires OrderedBy(le, a) && OrderedBy(le, b)
    requires multiset(a) == multiset(b)
    ensures a == b
    decreases |a|
  {
    assert |multiset(a)| == |a| && |multiset(b)| == |b|;
    if a != [] {
      SameHead(le, a, b);
      TailOf(a);
      TailOf(b);
      OrderedTail(le, a);
      OrderedTail(le, b);
      hide TotalOrder, Antisymmetric, OrderedBy;
      OrderedIsUnique(le, a[1..], b[1..]);
      assert a == [a[0]] + a[1..] && b == [b[0]] + b[1..];
    }
  }

  lemma SortOfOrdered<T(!new)>(le: (T, T) -> bool, s: seq<T>, t: seq<T>)
    requires TotalOrder(le) && Antisymmetric(le)
    requires OrderedBy(le, t) && multiset(s) == multiset(t)
    ensures SortBy(le, s) == t
  {
    SortByIsOrdered(le, s);
    OrderedIsUnique(le, SortBy(le, s), t);
  }

  lemma SortUpwards(s: seq<int>, t: seq<int>)
    requires StrictlyIncreasing(t) && multiset(s) == multiset(t)
    ensures SortBy(AtMost, s) == t
  {
    SortOfOrdered(AtMost, s, t);
  }

  lemma SortDownwards(s: seq<int>)
    requires StrictlyIncreasing(s)
    ensures SortBy(AtLeast, s) == Reverse(s)
  {
    SortOfOrdered(AtLeast, s, Reverse(s));
  }

  function Reverse<T>(s: seq<T>): (r: seq<T>)
    ensures |r| == |s|
    ensures forall i :: 0 <= i < |s| ==> r[i] == s[|s| - 1 - i]
    ensures multiset(r) == multiset(s)
  {
    if s == [] then []
    else
      assert s == s[..|s| - 1] + [s[|s| - 1]];
      [s[|s| - 1]] + Reverse(s[..|s| - 1])
  }

  ghost predicate NoRepeats<T>(m: multiset<T>) {
    forall x :: x in m ==> m[x] == 1
  }

  lemma OccursOnce<T>(s: seq<T>, i: nat)
    requires Distinct(s) && i < |s|
    ensures multiset(s)[s[i]] == 1
  {
    var front, back := s[..i], s[i + 1..];
    assert s == front + [s[i]] + back;
    assert s[i] !in front && s[i] !in back;
    assert multiset(s) == multiset(front) + multiset{s[i]} + multiset(back);
  }

  lemma OccursTwice<T>(s: seq<T>, i: nat, j: nat)
    requires i < j < |s| && s[i] == s[j]
    ensures multiset(s)[s[i]] >= 2
  {
    var front, back := s[..j], s[j..];
    assert s == front + back;
    assert front[i] in front && back[0] in back;
    assert multiset(s) == multiset(front) + multiset(back);
  }

  lemma DistinctByMultiset<T>(s: seq<T>)
    ensures Distinct(s) <==> NoRepeats(multiset(s))
  {
    if Distinct(s) {
      forall x | x in multiset(s)
        ensures multiset(s)[x] == 1
      {
        assert x in s;
        var i :| 0 <= i < |s| && s[i] == x;
        OccursOnce(s, i);
      }
    } else {
      var i, j :| 0 <= i < j < |s| && s[i] == s[j];
      OccursTwice(s, i, j);
      assert s[i] in multiset(s);
    }
  }

  lemma DistinctPermutation<T>(a: seq<T>, b: seq<T>)
    requires multiset(a) == multiset(b)
    ensures Distinct(a) <==> Distinct(b)
  {
    DistinctByMultiset(a);
    DistinctByMultiset(b);
  }

  function IndexOf<T(==)>(s: seq<T>, x: T): (k: nat)
    requires x in s
    ensures k < |s| && s[k] == x
    ensures forall i :: 0 <= i < k ==> s[i] != x
  {
    if s[0] == x then 0 else 1 + IndexOf(s[1..], x)
  }

  /** Positions in a list of length n, in order. */
  predicate Ascending(at: seq<nat>, n: nat) {
    && (forall i :: 0 <= i < |at| ==> at[i] < n)
    && (forall i, j :: 0 <= i < j < |at| ==> at[i] < at[j])
  }

  lemma AscendingMore(at: seq<nat>, n: nat)
    requires Ascending(at, n)
    ensures Ascending(at, n + 1) && Ascending(at + [n], n + 1)
  {
  }

  lemma SortedIsIncreasing(s: seq<int>)
    requires Distinct(s)
    ensures StrictlyIncreasing(SortBy(AtMost, s))
    ensures forall x :: x in s <==> x in SortBy(AtMost, s)
  {
    var t := SortBy(AtMost, s);
    SortByIsOrdered(AtMost, s);
    DistinctPermutation(s, t);
    SameElements(s, t);
    forall i, j | 0 <= i < j < |t|
      ensures t[i] < t[j]
    {
      assert AtMost(t[i], t[j]);
    }
  }
}
