/**
 * Sequence operations the pages and handlers use: `Array.prototype.filter`, `find`,
 * `findIndex`, a filter on the index, first-occurrence de-duplication (`new Set`), and
 * a descending sort by an integer key.
 */
module Lists {
  import opened Wrappers

  /** `s.filter(p)`: the elements of `s` that satisfy `p`, in their original order. */
  function Filter<T(!new)>(s: seq<T>, p: T -> bool): (r: seq<T>)
    ensures |r| <= |s|
    ensures forall x :: x in r <==> x in s && p(x)
  {
    if |s| == 0 then [] else (if p(s[0]) then [s[0]] else []) + Filter(s[1..], p)
  }

  lemma {:induction false} FilterAppend<T(!new)>(a: seq<T>, b: seq<T>, p: T -> bool)
    ensures Filter(a + b, p) == Filter(a, p) + Filter(b, p)
  {
    if |a| > 0 {
      assert (a + b)[1..] == a[1..] + b;
      FilterAppend(a[1..], b, p);
    } else {
      assert a + b == b;
    }
  }

  /** Filtering never introduces a repeat. */
  lemma {:induction false} FilterKeepsNoDup<T(!new)>(s: seq<T>, p: T -> bool)
    requires NoDup(s)
    ensures NoDup(Filter(s, p))
    decreases |s|
  {
    if |s| > 0 {
      assert NoDup(s[1..]);
      FilterKeepsNoDup(s[1..], p);
      assert s[0] !in s[1..];
    }
  }

  /** Filtering with `p` and with its negation splits `s` into two parts that make up all of it. */
  lemma {:induction false} FilterPartition<T(!new)>(s: seq<T>, p: T -> bool, q: T -> bool)
    requires forall x :: q(x) == !p(x)
    ensures multiset(Filter(s, p)) + multiset(Filter(s, q)) == multiset(s)
    ensures |Filter(s, p)| + |Filter(s, q)| == |s|
  {
    if |s| > 0 {
      FilterPartition(s[1..], p, q);
      assert s == [s[0]] + s[1..];
    }
  }

  /** Filtering by a predicate implied by `p` is a no-op on a list whose elements all satisfy `p`. */
  lemma {:induction false} FilterAll<T(!new)>(s: seq<T>, p: T -> bool)
    requires forall i :: 0 <= i < |s| ==> p(s[i])
    ensures Filter(s, p) == s
  {
    if |s| > 0 {
      FilterAll(s[1..], p);
    }
  }

  /** Filtering a list none of whose elements satisfies `p` leaves nothing. */
  lemma {:induction false} FilterNone<T(!new)>(s: seq<T>, p: T -> bool)
    requires forall i :: 0 <= i < |s| ==> !p(s[i])
    ensures Filter(s, p) == []
  {
    if |s| > 0 {
      FilterNone(s[1..], p);
    }
  }

  /** Two filters in a row keep exactly what the conjunction keeps. */
  lemma {:induction false} FilterFilter<T(!new)>(s: seq<T>, p: T -> bool, q: T -> bool, pq: T -> bool)
    requires forall x :: pq(x) == (p(x) && q(x))
    ensures Filter(Filter(s, p), q) == Filter(s, pq)
  {
    if |s| > 0 {
      FilterFilter(s[1..], p, q, pq);
      var rest := Filter(s[1..], p);
      if p(s[0]) {
        assert Filter(s, p) == [s[0]] + rest;
        FilterAppend([s[0]], rest, q);
      } else {
        assert Filter(s, p) == rest;
      }
    }
  }

  /** `s.filter((_, i) => i !== index)`, written over the running index `offset`. */
  function KeepOtherIndices<T>(s: seq<T>, index: int, offset: int): seq<T>
  {
    if |s| == 0 then []
    else (if offset != index then [s[0]] else []) + KeepOtherIndices(s[1..], index, offset + 1)
  }

  lemma {:induction false} KeepOtherIndicesSlices<T>(s: seq<T>, index: int, offset: int)
    ensures offset <= index < offset + |s| ==>
      KeepOtherIndices(s, index, offset) == s[..index - offset] + s[index - offset + 1..]
    ensures !(offset <= index < offset + |s|) ==> KeepOtherIndices(s, index, offset) == s
  {
    if |s| > 0 {
      KeepOtherIndicesSlices(s[1..], index, offset + 1);
      if offset == index {
        assert KeepOtherIndices(s, index, offset) == KeepOtherIndices(s[1..], index, offset + 1);
        if index + 1 < offset + |s| {
          assert KeepOtherIndices(s[1..], index, offset + 1) == s[1..];
        } else {
          assert KeepOtherIndices(s[1..], index, offset + 1) == s[1..];
        }
      } else if offset <= index < offset + |s| {
        assert s[..index - offset] == [s[0]] + s[1..][..index - offset - 1];
        assert s[index - offset + 1..] == s[1..][index - offset..];
      }
    }
  }

  /**
   * Removal of the element at `index` as the source writes it (a filter on the index):
   * exactly that position goes when it exists, and nothing changes when it does not.
   */
  function RemoveAt<T>(s: seq<T>, index: int): (r: seq<T>)
    ensures 0 <= index < |s| ==> r == s[..index] + s[index + 1..]
    ensures 0 <= index < |s| ==> |r| == |s| - 1
    ensures !(0 <= index < |s|) ==> r == s
  {
    KeepOtherIndicesSlices(s, index, 0);
    KeepOtherIndices(s, index, 0)
  }

  /** `s.findIndex(p)`: the first index whose element satisfies `p`, or -1. */
  function FindIndex<T>(s: seq<T>, p: T -> bool): (r: int)
    ensures -1 <= r < |s|
    ensures r == -1 <==> forall i :: 0 <= i < |s| ==> !p(s[i])
    ensures 0 <= r ==> p(s[r]) && forall j :: 0 <= j < r ==> !p(s[j])
  {
    if |s| == 0 then -1
    else if p(s[0]) then 0
    else var k := FindIndex(s[1..], p); if k == -1 then -1 else k + 1
  }

  /** `s.find(p)`: the first element that satisfies `p`, if any. */
  function Find<T>(s: seq<T>, p: T -> bool): (r: Option<T>)
    ensures r.None? <==> forall i :: 0 <= i < |s| ==> !p(s[i])
    ensures r.Some? ==> exists i :: 0 <= i < |s| && s[i] == r.value && p(s[i]) &&
                                    forall j :: 0 <= j < i ==> !p(s[j])
  {
    var k := FindIndex(s, p);
    if k == -1 then None else Some(s[k])
  }

  /** No element occurs twice. */
  predicate NoDup<T(==)>(s: seq<T>)
  {
    forall i, j :: 0 <= i < j < |s| ==> s[i] != s[j]
  }

  /**
   * `Array.from(new Set(s))`: each element once, in order of first occurrence
   * (a JavaScript Set iterates in insertion order).
   */
  function Distinct<T(==,!new)>(s: seq<T>): (r: seq<T>)
    ensures NoDup(r)
    ensures forall x :: x in r <==> x in s
    ensures |r| <= |s|
  {
    if |s| == 0 then []
    else
      var d := Distinct(s[..|s| - 1]);
      assert forall i :: 0 <= i < |s| - 1 ==> s[i] == s[..|s| - 1][i];
      if s[|s| - 1] in d then d else d + [s[|s| - 1]]
  }

  /** The index of the first occurrence of `x` in `s`. */
  function FirstIndex<T(==)>(s: seq<T>, x: T): (r: nat)
    requires x in s
    ensures r < |s| && s[r] == x && x !in s[..r]
  {
    if s[0] == x then 0 else FirstIndex(s[1..], x) + 1
  }

  lemma FirstIndexPrefix<T>(s: seq<T>, n: nat, x: T)
    requires n <= |s| && x in s[..n]
    ensures x in s && FirstIndex(s[..n], x) == FirstIndex(s, x)
  {
    var k := FirstIndex(s[..n], x);
    assert s[k] == x;
    assert s[..n][..k] == s[..k];
    var m := FirstIndex(s, x);
    assert m <= k;
    assert s[..m] == s[..k][..m];
  }

  /** `Distinct` lists the elements in strictly increasing order of first occurrence. */
  lemma {:induction false} DistinctFirstOccurrenceOrder<T(!new)>(s: seq<T>, i: nat, j: nat)
    requires i < j < |Distinct(s)|
    ensures Distinct(s)[i] in s && Distinct(s)[j] in s
    ensures FirstIndex(s, Distinct(s)[i]) < FirstIndex(s, Distinct(s)[j])
  {
    var n := |s| - 1;
    var s' := s[..n];
    var d := Distinct(s');
    if s[n] in d {
      DistinctFirstOccurrenceOrder(s', i, j);
      FirstIndexPrefix(s, n, d[i]);
      FirstIndexPrefix(s, n, d[j]);
    } else {
      assert Distinct(s) == d + [s[n]];
      if j < |d| {
        DistinctFirstOccurrenceOrder(s', i, j);
        FirstIndexPrefix(s, n, d[i]);
        FirstIndexPrefix(s, n, d[j]);
      } else {
        assert Distinct(s)[j] == s[n] && s[n] !in s';
        FirstIndexPrefix(s, n, d[i]);
        var fj := FirstIndex(s, s[n]);
        assert fj == n;
      }
    }
  }

  /** Of two entries of `Distinct(s)`, the earlier one occurs in `s` before any occurrence of the later one. */
  lemma DistinctOccursBefore<T(!new)>(s: seq<T>, x: T, y: T, a: int, b: int)
    requires 0 <= a < b < |Distinct(s)| && x == Distinct(s)[a] && y == Distinct(s)[b]
    ensures exists i :: 0 <= i < |s| && s[i] == x && forall j :: 0 <= j <= i ==> s[j] != y
  {
    DistinctFirstOccurrenceOrder(s, a, b);
    var fa := FirstIndex(s, x);
    var fb := FirstIndex(s, y);
    forall j | 0 <= j <= fa ensures s[j] != y {
      assert s[j] == s[..fb][j];
    }
  }

  /** Sorted by `key`, largest first. */
  predicate SortedDesc<T>(s: seq<T>, key: T -> int)
  {
    forall i, j :: 0 <= i < j < |s| ==> key(s[i]) >= key(s[j])
  }

  /** Filtering keeps the order, so a filtered sorted list is still sorted. */
  lemma {:induction false} FilterKeepsSortedDesc<T(!new)>(s: seq<T>, p: T -> bool, key: T -> int)
    requires SortedDesc(s, key)
    ensures SortedDesc(Filter(s, p), key)
  {
    if |s| > 0 {
      FilterKeepsSortedDesc(s[1..], p, key);
      var rest := Filter(s[1..], p);
      forall x | x in rest ensures key(s[0]) >= key(x) {
        var k :| 0 <= k < |s[1..]| && s[1..][k] == x;
        assert x == s[k + 1];
      }
    }
  }

  /** Where `x` goes in a list sorted newest first: after every element whose key is not smaller. */
  method InsertionPoint<T>(r: seq<T>, x: T, key: T -> int) returns (j: nat)
    requires SortedDesc(r, key)
    ensures j <= |r|
    ensures forall k :: 0 <= k < j ==> key(r[k]) >= key(x)
    ensures forall k :: j <= k < |r| ==> key(r[k]) < key(x)
  {
    j := 0;
    while j < |r| && key(r[j]) >= key(x)
      invariant 0 <= j <= |r|
      invariant forall k :: 0 <= k < j ==> key(r[k]) >= key(x)
    {
      j := j + 1;
    }
    if j < |r| {
      forall k | j <= k < |r| ensures key(r[k]) < key(x) {
        assert key(r[k]) <= key(r[j]);
      }
    }
  }

  lemma InsertSorted<T>(r: seq<T>, j: nat, x: T, key: T -> int)
    requires SortedDesc(r, key) && j <= |r|
    requires forall k :: 0 <= k < j ==> key(r[k]) >= key(x)
    requires forall k :: j <= k < |r| ==> key(r[k]) < key(x)
    ensures SortedDesc(r[..j] + [x] + r[j..], key)
    ensures multiset(r[..j] + [x] + r[j..]) == multiset(r) + multiset{x}
  {
    var t := r[..j] + [x] + r[j..];
    forall a, b | 0 <= a < b < |t| ensures key(t[a]) >= key(t[b]) {
      if b < j {
        assert t[a] == r[a] && t[b] == r[b];
      } else if b == j {
        assert t[a] == r[a] && t[b] == x;
      } else if a == j {
        assert t[b] == r[b - 1];
      } else if a < j {
        assert t[a] == r[a] && t[b] == r[b - 1];
      } else {
        assert t[a] == r[a - 1] && t[b] == r[b - 1];
      }
    }
    assert r == r[..j] + r[j..];
  }

  /**
   * `s.sort((a, b) => key(b) - key(a))` on a copy: a stable insertion sort, newest
   * (largest key) first. The result is a permutation of `s`.
   */
  method SortByKeyDesc<T>(s: seq<T>, key: T -> int) returns (r: seq<T>)
    ensures SortedDesc(r, key)
    ensures multiset(r) == multiset(s)
  {
    r := [];
    var i := 0;
    while i < |s|
      invariant 0 <= i <= |s|
      invariant SortedDesc(r, key)
      invariant multiset(r) == multiset(s[..i])
    {
      var j := InsertionPoint(r, s[i], key);
      InsertSorted(r, j, s[i], key);
      r := r[..j] + [s[i]] + r[j..];
      assert s[..i + 1] == s[..i] + [s[i]];
      i := i + 1;
    }
    assert s[..i] == s;
  }

  /** A duplicate-free list has as many elements as the set of its elements. */
  lemma {:induction false} NoDupCardinality<T>(s: seq<T>)
    requires NoDup(s)
    ensures |set x | x in s| == |s|
    decreases |s|
  {
    if |s| > 0 {
      var init := s[..|s| - 1];
      assert NoDup(init);
      NoDupCardinality(init);
      assert (set x | x in s) == (set x | x in init) + {s[|s| - 1]};
      assert s[|s| - 1] !in init;
    }
  }
}
