/** Splitting and joining text at a separator, and decimal numerals, as the Python string library has them. */
module Text {
  import opened Outcomes

  /** Where `c` first occurs, or the length. */
  function FirstOf(s: string, c: char): (k: nat)
    ensures k <= |s| && (forall i :: 0 <= i < k ==> s[i] != c) && (k < |s| ==> s[k] == c)
  {
    if s == "" || s[0] == c then 0 else 1 + FirstOf(s[1..], c)
  }

  /** `s.split(c)`. */
  function Split(s: string, c: char): (parts: seq<string>)
    ensures |parts| > 0
    decreases |s|
  {
    var k := FirstOf(s, c);
    if k == |s| then [s] else [s[..k]] + Split(s[k + 1..], c)
  }

  /** `c.join(parts)`. */
  function Join(parts: seq<string>, c: char): string {
    if parts == [] then "" else if |parts| == 1 then parts[0] else parts[0] + [c] + Join(parts[1..], c)
  }

  lemma SplitNone(s: string, c: char)
    requires c !in s
    ensures Split(s, c) == [s]
  {
  }

  lemma FirstIs(s: string, c: char, k: nat)
    requires k <= |s| && (forall i :: 0 <= i < k ==> s[i] != c) && (k < |s| ==> s[k] == c)
    ensures FirstOf(s, c) == k
  {
  }

  /** The first separator cuts off the first part. */
  lemma SplitAtFirst(s: string, c: char, first: string, rest: string)
    requires c !in first && s == first + [c] + rest
    ensures Split(s, c) == [first] + Split(rest, c)
  {
    FirstIs(s, c, |first|);
    hide FirstOf;
    assert s[..|first|] == first;
    assert s[|first| + 1..] == rest;
  }

  lemma Shift(first: string, c: char, rest: string, b: string)
    ensures (first + [c] + rest) + [c] + b == first + [c] + (rest + [c] + b)
  {
  }

  /** Splitting does not see across a separator. */
  lemma {:induction false} SplitOfMore(a: string, c: char, b: string)
    ensures Split(a + [c] + b, c) == Split(a, c) + Split(b, c)
    decreases |a|
  {
    hide Split;
    if c in a {
      var first, rest := a[..FirstOf(a, c)], a[FirstOf(a, c) + 1..];
      hide FirstOf;
      SplitAtFirst(a, c, first, rest);
      Shift(first, c, rest, b);
      SplitAtFirst(a + [c] + b, c, first, rest + [c] + b);
      SplitOfMore(rest, c, b);
      Grouped([first], Split(rest, c), Split(b, c));
    } else {
      hide FirstOf;
      SplitNone(a, c);
      SplitAtFirst(a + [c] + b, c, a, b);
    }
  }

  lemma Grouped(a: seq<string>, b: seq<string>, c: seq<string>)
    ensures (a + b) + c == a + (b + c)
  {
  }

  lemma {:induction false} SplitOfJoin(parts: seq<string>, c: char)
    requires parts != [] && forall p :: p in parts ==> c !in p
    ensures Split(Join(parts, c), c) == parts
    decreases |parts|
  {
    SplitNone(parts[0], c);
    if |parts| > 1 {
      SplitOfMore(parts[0], c, Join(parts[1..], c));
      SplitOfJoin(parts[1..], c);
    }
  }

  lemma {:induction false} JoinOfSplit(s: string, c: char)
    ensures Join(Split(s, c), c) == s
    ensures forall p :: p in Split(s, c) ==> c !in p
    decreases |s|
  {
    var k := FirstOf(s, c);
    if k < |s| {
      JoinOfSplit(s[k + 1..], c);
      assert Split(s, c)[1..] == Split(s[k + 1..], c);
    }
  }

  lemma OnePartExactlyWhen(s: string, c: char)
    ensures |Split(s, c)| == 1 <==> c !in s
  {
  }

  lemma {:induction false} JoinHolds(parts: seq<string>, c: char, x: char)
    requires x != c && forall p :: p in parts ==> x !in p
    ensures x !in Join(parts, c)
    decreases |parts|
  {
    if |parts| > 1 {
      JoinHolds(parts[1..], c, x);
    }
  }

  // ---- Decimal numerals ----

  predicate IsDigit(c: char) {
    '0' <= c <= '9'
  }

  function Digit(d: nat): (c: char)
    requires d < 10
    ensures IsDigit(c) && DigitValue(c) == d
  {
    "0123456789"[d]
  }

  function DigitValue(c: char): (d: nat)
    requires IsDigit(c)
    ensures d < 10
  {
    c as int - '0' as int
  }

  /** `str(n)`. */
  function Decimal(n: nat): (s: string)
    ensures s != "" && forall c :: c in s ==> IsDigit(c)
  {
    if n < 10 then [Digit(n)] else Decimal(n / 10) + [Digit(n % 10)]
  }

  /** `int(s)` on digits, None for its ValueError. */
  function ParseDecimal(s: string): Option<nat> {
    if s == "" || !IsDigit(s[|s| - 1]) then None
    else if |s| == 1 then Some(DigitValue(s[0]))
    else
      var front := ParseDecimal(s[..|s| - 1]);
      if front == None then None else Some(10 * front.value + DigitValue(s[|s| - 1]))
  }

  lemma {:induction false} DecimalRoundTrip(n: nat)
    ensures ParseDecimal(Decimal(n)) == Some(n)
  {
    if n >= 10 {
      DecimalRoundTrip(n / 10);
      var s := Decimal(n);
      assert s[..|s| - 1] == Decimal(n / 10);
    }
  }
}
