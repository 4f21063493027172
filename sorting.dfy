/**
  Sorting with a caller-supplied comparator, as JavaScript's `Array.prototype.sort`
  is used by the leaderboard: `le(a, b)` holds when `a` may come before `b`.
*/
module Sorting {

  /** `le` orders every pair of values and is transitive. */
  ghost predicate TotalPreorder<T(!new)>(le: (T, T) -> bool) {
    && (forall a, b :: le(a, b) || le(b, a))
    && (forall a, b, c :: le(a, b) && le(b, c) ==> le(a, c))
  }

  ghost predicate SortedBy<T>(s: seq<T>, le: (T, T) -> bool) {
    forall i, j :: 0 <= i < j < |s| ==> le(s[i], s[j])
  }

  /** Places `x` in front of the first element it may precede. */
  function Insert<T>(x: T, s: seq<T>, le: (T, T) -> bool): (r: seq<T>)
    ensures multiset(r) == multiset(s) + multiset{x}
  {
    if s == [] || le(x, s[0]) then [x] + s
    else
      assert s == [s[0]] + s[1..];
      [s[0]] + Insert(x, s[1..], le)
  }

  /** Insertion sort. */
  function SortBy<T>(s: seq<T>, le: (T, T) -> bool): (r: seq<T>)
    ensures multiset(r) == multiset(s)
  {
    if s == [] then []
    else
      assert s == [s[0]] + s[1..];
      Insert(s[0], SortBy(s[1..], le), le)
  }

  lemma {:induction false} InsertSorted<T(!new)>(x: T, s: seq<T>, le: (T, T) -> bool)
    requires TotalPreorder(le) && SortedBy(s, le)
    ensures SortedBy(Insert(x, s, le), le)
  {
    if s == [] || le(x, s[0]) {
    } else {
      var t := Insert(x, s[1..], le);
      InsertSorted(x, s[1..], le);
      assert le(s[0], x);
      forall k | 0 <= k < |t|
        ensures le(s[0], t[k])
      {
        assert t[k] in multiset(s[1..]) + multiset{x};
        if t[k] != x {
          var j :| 0 <= j < |s[1..]| && s[1..][j] == t[k];
          assert s[j + 1] == t[k];
        }
      }
    }
  }

  /** The sort returns its input rearranged in `le` order. */
  lemma {:induction false} SortBySorted<T(!new)>(s: seq<T>, le: (T, T) -> bool)
    requires TotalPreorder(le)
    ensures SortedBy(SortBy(s, le), le)
  {
    if s != [] {
      SortBySorted(s[1..], le);
      InsertSorted(s[0], SortBy(s[1..], le), le);
    }
  }

  /** Every element left out of a prefix of a sorted sequence may follow every element kept. */
  lemma PrefixDominates<T>(s: seq<T>, k: nat, le: (T, T) -> bool)
    requires k <= |s| && SortedBy(s, le)
    ensures forall p, q :: p in multiset(s) - multiset(s[..k]) && q in s[..k] ==> le(q, p)
  {
    assert s == s[..k] + s[k..];
    forall p, q | p in multiset(s) - multiset(s[..k]) && q in s[..k]
      ensures le(q, p)
    {
      assert multiset(s) == multiset(s[..k]) + multiset(s[k..]);
      assert p in multiset(s[k..]);
      var i :| 0 <= i < k && s[i] == q;
      var j :| 0 <= j < |s[k..]| && s[k..][j] == p;
      assert s[k + j] == p;
    }
  }

  /** A rearrangement of a duplicate-free sequence is duplicate-free. */
  lemma {:induction false} DistinctPermutation<T>(a: seq<T>, b: seq<T>)
    requires multiset(a) == multiset(b)
    requires forall i, j :: 0 <= i < j < |a| ==> a[i] != a[j]
    ensures forall i, j :: 0 <= i < j < |b| ==> b[i] != b[j]
  {
    forall i, j | 0 <= i < j < |b|
      ensures b[i] != b[j]
    {
      if b[i] == b[j] {
        var x := b[i];
        assert b == b[..i] + [b[i]] + b[i + 1..j] + [b[j]] + b[j + 1..];
        assert multiset(b)[x] >= 2;
        DistinctCount(a, x);
        assert false;
      }
    }
  }

  lemma {:induction false} DistinctCount<T>(a: seq<T>, x: T)
    requires forall i, j :: 0 <= i < j < |a| ==> a[i] != a[j]
    ensures multiset(a)[x] <= 1
  {
    if a != [] {
      var t := a[..|a| - 1];
      assert a == t + [a[|a| - 1]];
      DistinctCount(t, x);
      if a[|a| - 1] == x {
        assert x !in t;
      }
    }
  }

  /** `s.map(f)`. */
  function MapSeq<T, U>(s: seq<T>, f: T -> U): (r: seq<U>)
    ensures |r| == |s|
    ensures forall i :: 0 <= i < |s| ==> r[i] == f(s[i])
  {
    seq(|s|, i requires 0 <= i < |s| => f(s[i]))
  }

  /** Rearranging a sequence rearranges its image the same way. */
  lemma {:induction false} MapPermutation<T, U>(a: seq<T>, b: seq<T>, f: T -> U)
    requires multiset(a) == multiset(b)
    ensures multiset(MapSeq(a, f)) == multiset(MapSeq(b, f))
    decreases |a|
  {
    if a == [] {
      assert |b| == |multiset(b)| == 0;
    } else {
      var x := a[0];
      assert x in multiset(b);
      var k :| 0 <= k < |b| && b[k] == x;
      var rest := b[..k] + b[k + 1..];
      RemoveAt(b, k);
      assert a == [x] + a[1..];
      assert multiset(rest) == multiset(a[1..]);
      MapPermutation(a[1..], rest, f);
      MapConcat(b[..k], [x] + b[k + 1..], f);
      MapConcat([x], b[k + 1..], f);
      MapConcat(b[..k], b[k + 1..], f);
      MapConcat([x], a[1..], f);
    }
  }

  lemma RemoveAt<T>(b: seq<T>, k: nat)
    requires k < |b|
    ensures b == b[..k] + ([b[k]] + b[k + 1..])
    ensures multiset(b[..k] + b[k + 1..]) == multiset(b) - multiset{b[k]}
  {
    assert b == b[..k] + ([b[k]] + b[k + 1..]);
  }

  lemma MapConcat<T, U>(s: seq<T>, t: seq<T>, f: T -> U)
    ensures MapSeq(s + t, f) == MapSeq(s, f) + MapSeq(t, f)
  {
  }

  predicate NonIncreasing(s: seq<int>) {
    forall i, j :: 0 <= i < j < |s| ==> s[i] >= s[j]
  }

  /** The head of a non-increasing sequence is at least each of its elements. */
  lemma HeadIsMaximum(a: seq<int>, x: int)
    requires NonIncreasing(a)
    requires x in multiset(a)
    ensures a[0] >= x
  {
    var k :| 0 <= k < |a| && a[k] == x;
  }

  lemma TailNonIncreasing(a: seq<int>)
    requires NonIncreasing(a) && a != []
    ensures NonIncreasing(a[1..])
  {
    forall i, j | 0 <= i < j < |a| - 1
      ensures a[1..][i] >= a[1..][j]
    {
      assert a[1..][i] == a[i + 1] && a[1..][j] == a[j + 1];
    }
  }

  lemma TailMultiset(a: seq<int>, b: seq<int>)
    requires multiset(a) == multiset(b) && a != [] && b != [] && a[0] == b[0]
    ensures multiset(a[1..]) == multiset(b[1..])
  {
    assert a == [a[0]] + a[1..] && b == [b[0]] + b[1..];
    assert multiset(a) == multiset{a[0]} + multiset(a[1..]);
    assert multiset(b) == multiset{a[0]} + multiset(b[1..]);
    forall z
      ensures multiset(a[1..])[z] == multiset(b[1..])[z]
    {
      assert multiset(a)[z] == multiset(b)[z];
    }
  }

  /** Two non-increasing integer sequences holding the same elements are equal. */
  lemma {:induction false} NonIncreasingUnique(a: seq<int>, b: seq<int>)
    requires multiset(a) == multiset(b)
    requires NonIncreasing(a) && NonIncreasing(b)
    ensures a == b
  {
    assert |a| == |multiset(a)| == |multiset(b)| == |b|;
    if a != [] {
      assert a[0] in multiset(a) && b[0] in multiset(b);
      HeadIsMaximum(a, b[0]);
      HeadIsMaximum(b, a[0]);
      TailMultiset(a, b);
      TailNonIncreasing(a);
      TailNonIncreasing(b);
      NonIncreasingUnique(a[1..], b[1..]);
      assert a == [a[0]] + a[1..] && b == [b[0]] + b[1..];
    }
  }
}
