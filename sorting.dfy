/**
 * `Array.prototype.sort` with a comparator `(a, b) => key(b) - key(a)`: a
 * stable sort, newest (largest key) first. The application only calls the
 * library sort, so it is modelled as a function: stable insertion sort.
 */
module Sorting {
  import opened Common

  predicate SortedDesc<T>(xs: seq<T>, key: T -> int)
  {
    forall i, j :: 0 <= i < j < |xs| ==> key(xs[i]) >= key(xs[j])
  }

  /** Insert `x` after every leading element whose key is at least its own. */
  function InsertDesc<T>(x: T, xs: seq<T>, key: T -> int): (r: seq<T>)
    ensures multiset(r) == multiset(xs) + multiset{x}
    ensures |r| == |xs| + 1
  {
    if xs == [] then [x]
    else if key(xs[0]) >= key(x) then
      assert xs == [xs[0]] + xs[1..];
      [xs[0]] + InsertDesc(x, xs[1..], key)
    else
      [x] + xs
  }

  /** Every element of a sequence has a key at most `bound`. */
  predicate KeysAtMost<T>(xs: seq<T>, key: T -> int, bound: int)
  {
    forall i :: 0 <= i < |xs| ==> key(xs[i]) <= bound
  }

  /** Inserting an element below a bound keeps every key below it. */
  lemma InsertDescAtMost<T>(x: T, xs: seq<T>, key: T -> int, bound: int)
    requires KeysAtMost(xs, key, bound) && key(x) <= bound
    ensures KeysAtMost(InsertDesc(x, xs, key), key, bound)
  {
    var r := InsertDesc(x, xs, key);
    forall k | 0 <= k < |r| ensures key(r[k]) <= bound {
      assert r[k] in multiset(r);
      if r[k] != x {
        assert r[k] in multiset(xs);
        var j :| 0 <= j < |xs| && xs[j] == r[k];
      }
    }
  }

  /** Inserting into a sorted sequence keeps it sorted. */
  lemma {:induction false} InsertDescSorted<T>(x: T, xs: seq<T>, key: T -> int)
    requires SortedDesc(xs, key)
    ensures SortedDesc(InsertDesc(x, xs, key), key)
  {
    if xs != [] && key(xs[0]) >= key(x) {
      var rest := InsertDesc(x, xs[1..], key);
      InsertDescSorted(x, xs[1..], key);
      assert KeysAtMost(xs[1..], key, key(xs[0])) by {
        forall i | 0 <= i < |xs[1..]| ensures key(xs[1..][i]) <= key(xs[0]) {
          assert xs[1..][i] == xs[i + 1];
        }
      }
      InsertDescAtMost(x, xs[1..], key, key(xs[0]));
      var r := [xs[0]] + rest;
      forall a, b | 0 <= a < b < |r| ensures key(r[a]) >= key(r[b]) {
        assert r[b] == rest[b - 1];
        if a > 0 { assert r[a] == rest[a - 1]; }
      }
    }
  }

  /** The input sorted by `key`, largest first; equal keys keep their order. */
  function SortDesc<T>(xs: seq<T>, key: T -> int): (r: seq<T>)
    ensures multiset(r) == multiset(xs)
    ensures |r| == |xs|
  {
    if xs == [] then []
    else
      var init := xs[..|xs| - 1];
      assert xs == init + [xs[|xs| - 1]];
      InsertDesc(xs[|xs| - 1], SortDesc(init, key), key)
  }

  /** The sorted sequence is ordered by `key`, largest first. */
  lemma {:induction false} SortDescSorted<T>(xs: seq<T>, key: T -> int)
    ensures SortedDesc(SortDesc(xs, key), key)
  {
    if xs != [] {
      var init := xs[..|xs| - 1];
      SortDescSorted(init, key);
      InsertDescSorted(xs[|xs| - 1], SortDesc(init, key), key);
    }
  }

  /** Sorting keeps exactly the elements it was given. */
  lemma SortDescMembers<T>(xs: seq<T>, key: T -> int)
    ensures forall i :: 0 <= i < |SortDesc(xs, key)| ==> SortDesc(xs, key)[i] in xs
    ensures forall i :: 0 <= i < |xs| ==> xs[i] in SortDesc(xs, key)
  {
    var r := SortDesc(xs, key);
    forall i | 0 <= i < |r| ensures r[i] in xs {
      assert r[i] in multiset(r);
    }
    forall i | 0 <= i < |xs| ensures xs[i] in r {
      assert xs[i] in multiset(xs);
    }
  }

  /** The elements whose key is `k`. */
  function HasKey<T>(key: T -> int, k: int): T -> bool
  {
    x => key(x) == k
  }

  /**
   * Inserting into a sorted sequence puts `x` after every element with its
   * key: among the elements of one key, `x` comes last.
   */
  lemma {:induction false} InsertDescKeyOrder<T>(x: T, xs: seq<T>, key: T -> int, k: int)
    requires SortedDesc(xs, key)
    ensures Filter(InsertDesc(x, xs, key), HasKey(key, k))
      == Filter(xs, HasKey(key, k)) + (if key(x) == k then [x] else [])
  {
    var p := HasKey(key, k);
    var tail := if key(x) == k then [x] else [];
    if xs == [] {
      assert InsertDesc(x, xs, key) == [x];
      assert Filter([x], p) == tail;
    } else if key(xs[0]) >= key(x) {
      SortedTail(xs, key);
      var rest := InsertDesc(x, xs[1..], key);
      var head := Filter([xs[0]], p);
      calc {
        Filter(InsertDesc(x, xs, key), p);
        Filter([xs[0]] + rest, p);
        { FilterAppend([xs[0]], rest, p); }
        head + Filter(rest, p);
        { InsertDescKeyOrder(x, xs[1..], key, k); }
        head + (Filter(xs[1..], p) + tail);
        { AppendAssoc(head, Filter(xs[1..], p), tail); }
        (head + Filter(xs[1..], p)) + tail;
        { FilterAppend([xs[0]], xs[1..], p); assert [xs[0]] + xs[1..] == xs; }
        Filter(xs, p) + tail;
      }
    } else {
      InsertInFrontKeyOrder(x, xs, key, k);
    }
  }

  lemma SortedTail<T>(xs: seq<T>, key: T -> int)
    requires SortedDesc(xs, key) && xs != []
    ensures SortedDesc(xs[1..], key)
  {
    forall i, j | 0 <= i < j < |xs[1..]| ensures key(xs[1..][i]) >= key(xs[1..][j]) {
      assert xs[1..][i] == xs[i + 1] && xs[1..][j] == xs[j + 1];
    }
  }

  /** `x` goes in front of a sorted sequence whose keys are all below its own. */
  lemma InsertInFrontKeyOrder<T>(x: T, xs: seq<T>, key: T -> int, k: int)
    requires SortedDesc(xs, key) && xs != [] && key(xs[0]) < key(x)
    ensures Filter(InsertDesc(x, xs, key), HasKey(key, k))
      == Filter(xs, HasKey(key, k)) + (if key(x) == k then [x] else [])
  {
    var p := HasKey(key, k);
    var tail := if key(x) == k then [x] else [];
    assert Filter([x], p) == tail;
    FilterAppend([x], xs, p);
    assert InsertDesc(x, xs, key) == [x] + xs;
    if key(x) == k {
      forall i | 0 <= i < |xs| ensures !p(xs[i]) {
        assert key(xs[0]) >= key(xs[i]);
      }
      FilterNone(xs, p);
      assert Filter(xs, p) + tail == tail + Filter(xs, p);
    } else {
      assert tail == [];
      assert Filter(xs, p) + tail == tail + Filter(xs, p);
    }
  }



  /** Filtering by a predicate no element satisfies leaves nothing. */
  lemma {:induction false} FilterNone<T>(xs: seq<T>, p: T -> bool)
    requires forall i :: 0 <= i < |xs| ==> !p(xs[i])
    ensures Filter(xs, p) == []
  {
    if xs != [] {
      FilterNone(xs[1..], p);
    }
  }

  /**
   * The sort is stable: the elements of any one key appear in the sorted
   * sequence in the order they had in the input.
   */
  lemma {:induction false} SortDescStable<T>(xs: seq<T>, key: T -> int, k: int)
    ensures Filter(SortDesc(xs, key), HasKey(key, k)) == Filter(xs, HasKey(key, k))
  {
    if xs != [] {
      var p := HasKey(key, k);
      var init := xs[..|xs| - 1];
      var last := xs[|xs| - 1];
      var tail := if key(last) == k then [last] else [];
      var sortedInit := SortDesc(init, key);
      SortDescSorted(init, key);
      calc {
        Filter(SortDesc(xs, key), p);
        Filter(InsertDesc(last, sortedInit, key), p);
        { InsertDescKeyOrder(last, sortedInit, key, k); }
        Filter(sortedInit, p) + tail;
        { SortDescStable(init, key, k); }
        Filter(init, p) + tail;
        { assert Filter([last], p) == tail; }
        Filter(init, p) + Filter([last], p);
        { FilterAppend(init, [last], p); }
        Filter(init + [last], p);
        { assert init + [last] == xs; }
        Filter(xs, p);
      }
    }
  }

  /** `xs` back to front. */
  function Reversed<T>(xs: seq<T>): (r: seq<T>)
    ensures |r| == |xs|
    ensures forall i :: 0 <= i < |xs| ==> r[i] == xs[|xs| - 1 - i]
  {
    if xs == [] then [] else [xs[|xs| - 1]] + Reversed(xs[..|xs| - 1])
  }

  /**
   * Sorting newest first a sequence whose keys strictly increase, such as
   * rows by creation time, reverses it.
   */
  lemma {:induction false} SortDescIncreasing<T>(xs: seq<T>, key: T -> int)
    requires forall i, j :: 0 <= i < j < |xs| ==> key(xs[i]) < key(xs[j])
    ensures SortDesc(xs, key) == Reversed(xs)
  {
    if xs != [] {
      var init := xs[..|xs| - 1];
      var last := xs[|xs| - 1];
      SortDescIncreasing(init, key);
      var sorted := SortDesc(init, key);
      if sorted != [] {
        assert sorted[0] == init[|init| - 1];
        assert key(sorted[0]) < key(last);
      }
    }
  }
  /** No two elements share a key. */
  predicate DistinctBy<T, K(==)>(xs: seq<T>, key: T -> K)
  {
    forall a, b :: 0 <= a < b < |xs| ==> key(xs[a]) != key(xs[b])
  }

  /** Inserting an element whose key is new keeps the keys distinct. */
  lemma InsertDescDistinct<T, K>(x: T, xs: seq<T>, key: T -> int, id: T -> K)
    requires DistinctBy(xs, id)
    requires forall k :: 0 <= k < |xs| ==> id(xs[k]) != id(x)
    ensures DistinctBy(InsertDesc(x, xs, key), id)
  {
    var r := InsertDesc(x, xs, key);
    forall a, b | 0 <= a < b < |r| ensures id(r[a]) != id(r[b]) {
      assert r[a] in multiset(r) && r[b] in multiset(r);
      if r[a] == x && r[b] == x {
        AtLeastTwo(r, a, b);
      } else if r[a] == x {
        assert r[b] in multiset(xs);
      } else if r[b] == x {
        assert r[a] in multiset(xs);
      } else {
        DistinctPair(r, xs, a, b, x, id);
      }
    }
  }

  /** Two positions of `r` holding old elements of `xs` have distinct keys. */
  lemma DistinctPair<T, K>(r: seq<T>, xs: seq<T>, a: nat, b: nat, x: T, id: T -> K)
    requires DistinctBy(xs, id)
    requires multiset(r) == multiset(xs) + multiset{x}
    requires a < b < |r| && r[a] != x && r[b] != x
    ensures id(r[a]) != id(r[b])
  {
    assert r[a] in multiset(r) && r[b] in multiset(r);
    assert r[a] in multiset(xs) && r[b] in multiset(xs);
    var i :| 0 <= i < |xs| && xs[i] == r[a];
    var j :| 0 <= j < |xs| && xs[j] == r[b];
    if i == j {
      AtLeastTwo(r, a, b);
      TwoPositions(xs, r[a]);
    }
  }

  /** A value at two positions occurs at least twice. */
  lemma AtLeastTwo<T>(s: seq<T>, a: nat, b: nat)
    requires a < b < |s| && s[a] == s[b]
    ensures multiset(s)[s[a]] >= 2
  {
    assert s == s[..b] + [s[b]] + s[b + 1..];
    assert s[a] in s[..b];
  }

  /** A value that occurs twice in a sequence sits at two different positions. */
  lemma TwoPositions<T>(xs: seq<T>, v: T)
    requires multiset(xs)[v] >= 2
    ensures exists i, j :: 0 <= i < j < |xs| && xs[i] == v && xs[j] == v
  {
    assert v in multiset(xs);
    var i :| 0 <= i < |xs| && xs[i] == v;
    assert xs == xs[..i] + [v] + xs[i + 1..];
    var rest := xs[..i] + xs[i + 1..];
    assert multiset(xs) == multiset(rest) + multiset{v};
    assert v in multiset(rest);
    var k :| 0 <= k < |rest| && rest[k] == v;
    if k < i {
      assert xs[k] == v;
    } else {
      assert xs[k + 1] == v;
    }
  }

  /** Sorting keeps distinct keys distinct. */
  lemma {:induction false} SortDescDistinct<T, K>(xs: seq<T>, key: T -> int, id: T -> K)
    requires DistinctBy(xs, id)
    ensures DistinctBy(SortDesc(xs, key), id)
  {
    if xs != [] {
      var init := xs[..|xs| - 1];
      var last := xs[|xs| - 1];
      var sorted := SortDesc(init, key);
      SortDescDistinct(init, key, id);
      forall k | 0 <= k < |sorted| ensures id(sorted[k]) != id(last) {
        assert sorted[k] in multiset(init);
        var i :| 0 <= i < |init| && init[i] == sorted[k];
        assert xs[i] == sorted[k];
      }
      InsertDescDistinct(last, sorted, key, id);
    }
  }

  /** The sum of `f` over the elements. */
  function SumBy<T>(xs: seq<T>, f: T -> int): int
  {
    if xs == [] then 0 else f(xs[0]) + SumBy(xs[1..], f)
  }

  lemma {:induction false} SumByAppend<T>(xs: seq<T>, x: T, f: T -> int)
    ensures SumBy(xs + [x], f) == SumBy(xs, f) + f(x)
  {
    if xs != [] {
      assert (xs + [x])[1..] == xs[1..] + [x];
      SumByAppend(xs[1..], x, f);
    }
  }

  lemma {:induction false} InsertDescSum<T>(x: T, xs: seq<T>, key: T -> int, f: T -> int)
    ensures SumBy(InsertDesc(x, xs, key), f) == SumBy(xs, f) + f(x)
  {
    if xs != [] && key(xs[0]) >= key(x) {
      InsertDescSum(x, xs[1..], key, f);
      assert ([xs[0]] + InsertDesc(x, xs[1..], key))[1..] == InsertDesc(x, xs[1..], key);
    }
  }

  /** Sorting keeps the sum of any measure of the elements. */
  lemma {:induction false} SortDescSum<T>(xs: seq<T>, key: T -> int, f: T -> int)
    ensures SumBy(SortDesc(xs, key), f) == SumBy(xs, f)
  {
    if xs != [] {
      var init, last := xs[..|xs| - 1], xs[|xs| - 1];
      assert init + [last] == xs;
      assert SortDesc(xs, key) == InsertDesc(last, SortDesc(init, key), key);
      SortDescSum(init, key, f);
      InsertDescSum(last, SortDesc(init, key), key, f);
      SumByAppend(init, last, f);
    }
  }
  lemma {:induction false} SumByUpdate<T>(xs: seq<T>, k: nat, x: T, f: T -> int)
    requires k < |xs|
    ensures SumBy(xs[k := x], f) == SumBy(xs, f) - f(xs[k]) + f(x)
  {
    if k > 0 {
      SumByUpdate(xs[1..], k - 1, x, f);
      assert xs[k := x][1..] == xs[1..][k - 1 := x];
    }
  }
}
