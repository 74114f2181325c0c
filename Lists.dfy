/**
 * Sequence operations the JavaScript code gets from `Array.prototype`:
 * `filter`, a stable `sort` by a numeric key, `slice(0, n)` and a `reduce` sum.
 */
module Lists {

  function Min(a: int, b: int): int { if a <= b then a else b }
  function Max(a: int, b: int): int { if a >= b then a else b }

  /** `r` is an order-preserving subsequence of `s`. */
  ghost predicate IsSubsequence<T>(r: seq<T>, s: seq<T>)
    decreases |s|
  {
    if r == [] then true
    else if s == [] then false
    else (r[0] == s[0] && IsSubsequence(r[1..], s[1..])) || IsSubsequence(r, s[1..])
  }

  /** `s.filter(p)`. */
  function Filter<T(!new)>(s: seq<T>, p: T -> bool): (r: seq<T>)
    ensures |r| <= |s|
    ensures forall x :: x in r <==> x in s && p(x)
    ensures IsSubsequence(r, s)
  {
    if s == [] then []
    else
      var rest := Filter(s[1..], p);
      assert s == [s[0]] + s[1..];
      if p(s[0]) then
        assert ([s[0]] + rest)[1..] == rest;
        [s[0]] + rest
      else rest
  }

  /** Filtering twice keeps exactly what filtering once by both predicates (`both`) keeps. */
  lemma {:induction false} FilterFilter<T(!new)>(s: seq<T>, p: T -> bool, q: T -> bool, both: T -> bool)
    requires forall x :: both(x) == (p(x) && q(x))
    ensures Filter(Filter(s, p), q) == Filter(s, both)
  {
    if s != [] {
      FilterFilter(s[1..], p, q, both);
      var rest := Filter(s[1..], p);
      if p(s[0]) {
        assert ([s[0]] + rest)[1..] == rest;
      }
    }
  }

  /** Two predicates that agree on every element filter alike. */
  lemma {:induction false} FilterExtensional<T(!new)>(s: seq<T>, p: T -> bool, q: T -> bool)
    requires forall x :: x in s ==> p(x) == q(x)
    ensures Filter(s, p) == Filter(s, q)
  {
    if s != [] {
      FilterExtensional(s[1..], p, q);
    }
  }

  /** A predicate that holds everywhere keeps everything. */
  lemma {:induction false} FilterAll<T(!new)>(s: seq<T>, p: T -> bool)
    requires forall x :: x in s ==> p(x)
    ensures Filter(s, p) == s
  {
    if s != [] {
      FilterAll(s[1..], p);
    }
  }

  /** No element occurs twice. */
  predicate Distinct<T(==)>(s: seq<T>) {
    forall i, j :: 0 <= i < j < |s| ==> s[i] != s[j]
  }

  /** `a` may stand before `b` in a sequence sorted by `key`, ascending or descending. */
  predicate InOrder<T>(key: T -> real, ascending: bool, a: T, b: T) {
    if ascending then key(a) <= key(b) else key(a) >= key(b)
  }

  predicate Ordered<T>(s: seq<T>, key: T -> real, ascending: bool) {
    forall i, j :: 0 <= i < j < |s| ==> InOrder(key, ascending, s[i], s[j])
  }

  /** Puts `x` after every element that does not come strictly after it, so equal keys keep their arrival order. */
  function Insert<T>(x: T, s: seq<T>, key: T -> real, ascending: bool): (r: seq<T>)
    requires Ordered(s, key, ascending)
    ensures Ordered(r, key, ascending)
    ensures multiset(r) == multiset(s) + multiset{x}
    ensures |r| == |s| + 1
  {
    if s == [] then [x]
    else if !InOrder(key, ascending, s[0], x) then
      [x] + s
    else
      var rest := Insert(x, s[1..], key, ascending);
      assert s == [s[0]] + s[1..];
      assert forall k :: 0 <= k < |rest| ==> InOrder(key, ascending, s[0], rest[k]) by {
        forall k | 0 <= k < |rest| ensures InOrder(key, ascending, s[0], rest[k]) {
          assert rest[k] in multiset(rest);
          assert rest[k] == x || rest[k] in multiset(s[1..]);
        }
      }
      [s[0]] + rest
  }

  /** `[...s].sort((a, b) => ascending ? key(a) - key(b) : key(b) - key(a))`: a stable insertion sort. */
  function SortBy<T>(s: seq<T>, key: T -> real, ascending: bool): (r: seq<T>)
    ensures Ordered(r, key, ascending)
    ensures multiset(r) == multiset(s)
    ensures |r| == |s|
  {
    if s == [] then []
    else
      assert s == s[..|s| - 1] + [s[|s| - 1]];
      Insert(s[|s| - 1], SortBy(s[..|s| - 1], key, ascending), key, ascending)
  }

  /** A prefix of an ordered sequence is ordered. */
  lemma PrefixOrdered<T>(r: seq<T>, s: seq<T>, key: T -> real, ascending: bool)
    requires r <= s && Ordered(s, key, ascending)
    ensures Ordered(r, key, ascending)
  {
    assert forall i :: 0 <= i < |r| ==> r[i] == s[i];
  }

  /** The head of a descending sort has the largest key of all. */
  lemma SortedHeadIsMax<T>(s: seq<T>, key: T -> real)
    requires s != []
    ensures forall x :: x in s ==> key(x) <= key(SortBy(s, key, false)[0])
  {
    var sorted := SortBy(s, key, false);
    forall x | x in s ensures key(x) <= key(sorted[0]) {
      assert x in multiset(sorted);
      var k :| 0 <= k < |sorted| && sorted[k] == x;
      if k > 0 {
        assert InOrder(key, false, sorted[0], sorted[k]);
      }
    }
  }

  /** `s.slice(0, n)`: a negative `n` counts back from the end. */
  function Take<T>(s: seq<T>, n: int): (r: seq<T>)
    ensures r <= s
    ensures n >= 0 ==> |r| == Min(n, |s|)
    ensures n < 0 ==> |r| == Max(|s| + n, 0)
  {
    if n >= 0 then s[..Min(n, |s|)] else s[..Max(|s| + n, 0)]
  }

  /** `s.reduce((sum, x) => sum + f(x), 0)`, accumulated from the left. */
  function SumOf<T>(s: seq<T>, f: T -> real): real
  {
    if s == [] then 0.0 else SumOf(s[..|s| - 1], f) + f(s[|s| - 1])
  }

  /** The sum splits over concatenation. */
  lemma {:induction false} SumOfAppend<T>(a: seq<T>, b: seq<T>, f: T -> real)
    ensures SumOf(a + b, f) == SumOf(a, f) + SumOf(b, f)
    decreases |b|
  {
    if b == [] {
      assert a + b == a;
    } else {
      var ab := a + b;
      assert ab[..|ab| - 1] == a + b[..|b| - 1];
      assert ab[|ab| - 1] == b[|b| - 1];
      SumOfAppend(a, b[..|b| - 1], f);
    }
  }

  /** Positive terms give a positive sum; no terms give zero. */
  lemma {:induction false} SumOfPositive<T>(s: seq<T>, f: T -> real)
    requires forall i :: 0 <= i < |s| ==> f(s[i]) > 0.0
    ensures s == [] ==> SumOf(s, f) == 0.0
    ensures s != [] ==> SumOf(s, f) > 0.0
  {
    if s != [] {
      SumOfPositive(s[..|s| - 1], f);
    }
  }

  /** Summing the elements that satisfy `p` and those that satisfy its negation `q` sums everything. */
  lemma {:induction false} SumOfPartition<T(!new)>(s: seq<T>, f: T -> real, p: T -> bool, q: T -> bool)
    requires forall x :: q(x) == !p(x)
    ensures SumOf(s, f) == SumOf(Filter(s, p), f) + SumOf(Filter(s, q), f)
  {
    if s != [] {
      var init, last := s[..|s| - 1], s[|s| - 1];
      SumOfPartition(init, f, p, q);
      FilterSplitLast(s, p);
      FilterSplitLast(s, q);
      var (yes, no) := (Filter(init, p), Filter(init, q));
      if p(last) {
        assert Filter(s, p) == yes + [last];
        assert Filter(s, q) == no;
        assert SumOf(yes + [last], f) == SumOf(yes, f) + f(last) by {
          assert (yes + [last])[..|yes|] == yes;
        }
      } else {
        assert Filter(s, p) == yes;
        assert Filter(s, q) == no + [last];
        assert SumOf(no + [last], f) == SumOf(no, f) + f(last) by {
          assert (no + [last])[..|no|] == no;
        }
      }
    }
  }

  /** The number of elements of `s` satisfying `p`. */
  function CountOf<T>(s: seq<T>, p: T -> bool): (n: nat)
    ensures n <= |s|
  {
    if s == [] then 0 else CountOf(s[..|s| - 1], p) + (if p(s[|s| - 1]) then 1 else 0)
  }

  /** Counting is filtering and measuring. */
  lemma {:induction false} CountIsFilterLength<T(!new)>(s: seq<T>, p: T -> bool)
    ensures CountOf(s, p) == |Filter(s, p)|
  {
    if s != [] {
      CountIsFilterLength(s[..|s| - 1], p);
      FilterSplitLast(s, p);
    }
  }

  lemma FilterCons<T(!new)>(s: seq<T>, p: T -> bool)
    requires s != []
    ensures Filter(s, p) == (if p(s[0]) then [s[0]] else []) + Filter(s[1..], p)
  {
  }

  lemma {:induction false} FilterSplitLast<T(!new)>(s: seq<T>, p: T -> bool)
    requires s != []
    ensures Filter(s, p) == Filter(s[..|s| - 1], p) + (if p(s[|s| - 1]) then [s[|s| - 1]] else [])
  {
    if |s| == 1 {
      assert s[..0] == [];
      assert s[1..] == [];
      FilterCons(s, p);
    } else {
      var init := s[..|s| - 1];
      var tail := s[1..];
      FilterSplitLast(tail, p);
      assert tail[..|tail| - 1] == init[1..];
      FilterCons(s, p);
      FilterCons(init, p);
    }
  }
}
