/**
 * The array operations the dashboard leans on: `filter`, `slice(0, n)`,
 * `find` and `reduce` for sums, over Dafny sequences.
 */
module Seqs {
  import opened Wrappers

  /** `s.filter(p)`: the elements satisfying `p`, in their original order. */
  function Filter<T(==)>(s: seq<T>, p: T -> bool): (r: seq<T>)
    ensures |r| <= |s|
    ensures forall i :: 0 <= i < |r| ==> r[i] in s && p(r[i])
    ensures forall i :: 0 <= i < |s| && p(s[i]) ==> s[i] in r
    decreases |s|
  {
    if s == [] then []
    else
      var rest := Filter(s[..|s| - 1], p);
      assert s == s[..|s| - 1] + [s[|s| - 1]];
      if p(s[|s| - 1]) then rest + [s[|s| - 1]] else rest
  }

  /** A non-empty sequence is its prefix followed by its last element. */
  lemma PrefixAndLast<T>(s: seq<T>)
    requires s != []
    ensures s[..|s| - 1] + [s[|s| - 1]] == s
  {
  }

  /** Filtering distributes over concatenation. */
  lemma {:induction false} FilterAppend<T>(a: seq<T>, b: seq<T>, p: T -> bool)
    ensures Filter(a + b, p) == Filter(a, p) + Filter(b, p)
    decreases |b|
  {
    if b != [] {
      var b' := b[..|b| - 1];
      assert (a + b)[..|a + b| - 1] == a + b';
      FilterAppend(a, b', p);
    } else {
      assert a + b == a;
    }
  }

  /** Nothing is dropped when every element qualifies. */
  lemma {:induction false} FilterAll<T>(s: seq<T>, p: T -> bool)
    requires forall i :: 0 <= i < |s| ==> p(s[i])
    ensures Filter(s, p) == s
    decreases |s|
  {
    if s != [] {
      FilterAll(s[..|s| - 1], p);
      assert s == s[..|s| - 1] + [s[|s| - 1]];
    }
  }

  /** `s.slice(0, n)`. */
  function Take<T>(s: seq<T>, n: nat): (r: seq<T>)
    ensures |r| == if |s| < n then |s| else n
    ensures forall i :: 0 <= i < |r| ==> r[i] == s[i]
  {
    if |s| <= n then s else s[..n]
  }

  /** `s.find(p)`: the first element satisfying `p`, if any. */
  function Find<T(==)>(s: seq<T>, p: T -> bool): (r: Option<T>)
    ensures r.None? <==> forall i :: 0 <= i < |s| ==> !p(s[i])
    ensures r.Some? ==> exists i :: (0 <= i < |s| && s[i] == r.value && p(s[i])
      && forall j :: 0 <= j < i ==> !p(s[j]))
  {
    if s == [] then None
    else if p(s[0]) then Some(s[0])
    else
      var r := Find(s[1..], p);
      if r.Some? then
        var i :| 0 <= i < |s[1..]| && s[1..][i] == r.value && p(s[1..][i])
          && forall j :: 0 <= j < i ==> !p(s[1..][j]);
        assert s[i + 1] == r.value;
        r
      else r
  }

  /** `s.reduce((sum, x) => sum + f(x), 0)`. */
  function Sum<T>(s: seq<T>, f: T -> int): int
    decreases |s|
  {
    if s == [] then 0 else Sum(s[..|s| - 1], f) + f(s[|s| - 1])
  }

  /** A sum of non-negative terms is at least each of its terms. */
  lemma {:induction false} SumBounds<T>(s: seq<T>, f: T -> int, i: nat)
    requires forall k :: 0 <= k < |s| ==> f(s[k]) >= 0
    requires i < |s|
    ensures Sum(s, f) >= f(s[i]) >= 0
    decreases |s|
  {
    SumNonNegative(s[..|s| - 1], f);
    if i < |s| - 1 {
      SumBounds(s[..|s| - 1], f, i);
    }
  }

  lemma {:induction false} SumNonNegative<T>(s: seq<T>, f: T -> int)
    requires forall k :: 0 <= k < |s| ==> f(s[k]) >= 0
    ensures Sum(s, f) >= 0
    decreases |s|
  {
    if s != [] {
      SumNonNegative(s[..|s| - 1], f);
    }
  }

  /** Sums add up over concatenation. */
  lemma {:induction false} SumAppend<T>(a: seq<T>, b: seq<T>, f: T -> int)
    ensures Sum(a + b, f) == Sum(a, f) + Sum(b, f)
    decreases |b|
  {
    if b != [] {
      var b' := b[..|b| - 1];
      assert (a + b)[..|a + b| - 1] == a + b';
      SumAppend(a, b', f);
    } else {
      assert a + b == a;
    }
  }

  /** Ordered by `key`, greatest first: what a `'-field'` sort order returns. */
  ghost predicate Descending<T>(s: seq<T>, key: T -> int) {
    forall i, j :: 0 <= i < j < |s| ==> key(s[i]) >= key(s[j])
  }

  function InsertDescending<T>(x: T, s: seq<T>, key: T -> int): (r: seq<T>)
    ensures multiset(r) == multiset(s) + multiset{x}
  {
    if s == [] || key(x) >= key(s[0]) then [x] + s
    else
      assert s == [s[0]] + s[1..];
      [s[0]] + InsertDescending(x, s[1..], key)
  }

  lemma InsertKeepsOrder<T>(x: T, s: seq<T>, key: T -> int)
    requires Descending(s, key)
    ensures Descending(InsertDescending(x, s, key), key)
  {
    if s != [] && key(x) < key(s[0]) {
      var t := InsertDescending(x, s[1..], key);
      InsertKeepsOrder(x, s[1..], key);
      forall k | 0 <= k < |t| ensures key(s[0]) >= key(t[k]) {
        assert t[k] in multiset(t);
        if t[k] != x {
          assert t[k] in multiset(s[1..]);
          var m :| 0 <= m < |s[1..]| && s[1..][m] == t[k];
          assert s[m + 1] == t[k];
        }
      }
      var r := [s[0]] + t;
      forall i, j | 0 <= i < j < |r| ensures key(r[i]) >= key(r[j]) {
        assert r[j] == t[j - 1];
        if i > 0 {
          assert r[i] == t[i - 1];
        }
      }
    }
  }

  /** Sorting by `key`, greatest first: a reordering of the input. */
  function SortDescending<T>(s: seq<T>, key: T -> int): (r: seq<T>)
    ensures Descending(r, key)
    ensures multiset(r) == multiset(s)
  {
    if s == [] then []
    else
      assert s == [s[0]] + s[1..];
      InsertKeepsOrder(s[0], SortDescending(s[1..], key), key);
      InsertDescending(s[0], SortDescending(s[1..], key), key)
  }

  /** The first `n` of a sequence ordered greatest first are drawn from it, and
      no element left behind has a greater key than any taken. */
  lemma TakeTopOfDescending<T>(s: seq<T>, key: T -> int, n: nat)
    requires Descending(s, key)
    ensures multiset(Take(s, n)) <= multiset(s)
    ensures forall q :: q in multiset(s) - multiset(Take(s, n)) ==>
      forall i :: 0 <= i < |Take(s, n)| ==> key(q) <= key(Take(s, n)[i])
  {
    var t := Take(s, n);
    var k := |t|;
    assert t == s[..k];
    assert s == s[..k] + s[k..];
    assert multiset(s) == multiset(t) + multiset(s[k..]);
    assert multiset(s) - multiset(t) == multiset(s[k..]);
    forall q | q in multiset(s[k..])
      ensures forall i :: 0 <= i < k ==> key(q) <= key(t[i])
    {
      var j :| 0 <= j < |s[k..]| && s[k..][j] == q;
      assert s[k + j] == q;
    }
  }

  /** Filtering one element then the rest. */
  lemma FilterCons<T>(x: T, t: seq<T>, p: T -> bool)
    ensures Filter([x] + t, p) == (if p(x) then [x] else []) + Filter(t, p)
  {
    FilterAppend([x], t, p);
    assert [x][..0] == [];
    assert Filter([x], p) == (if p(x) then [x] else []) by {
      assert Filter([x][..0], p) == [];
    }
  }

  /** The head of a filtered list is what `find` returns. */
  lemma {:induction false} FilterHeadIsFind<T>(s: seq<T>, p: T -> bool)
    ensures Filter(s, p) == [] <==> Find(s, p).None?
    ensures Filter(s, p) != [] ==> Filter(s, p)[0] == Find(s, p).value
    decreases |s|
  {
    if s != [] {
      assert s == [s[0]] + s[1..];
      FilterCons(s[0], s[1..], p);
      FilterHeadIsFind(s[1..], p);
    }
  }

  /** `find` over a filtered list finds the first element passing both tests. */
  lemma {:induction false} FindOfFilter<T>(s: seq<T>, p: T -> bool, q: T -> bool, both: T -> bool)
    requires forall x :: both(x) == (p(x) && q(x))
    ensures Find(Filter(s, p), q) == Find(s, both)
    decreases |s|
  {
    if s != [] {
      assert s == [s[0]] + s[1..];
      FilterCons(s[0], s[1..], p);
      FindOfFilter(s[1..], p, q, both);
      var f, rest := Filter(s, p), Filter(s[1..], p);
      if p(s[0]) {
        assert f == [s[0]] + rest;
        assert f[0] == s[0] && f[1..] == rest;
        if !q(s[0]) {
          assert Find(f, q) == Find(rest, q);
        }
      } else {
        assert f == rest;
      }
    }
  }

  /** Nothing survives a filter no element passes. */
  lemma {:induction false} FilterNone<T>(s: seq<T>, p: T -> bool)
    requires forall i :: 0 <= i < |s| ==> !p(s[i])
    ensures Filter(s, p) == []
    decreases |s|
  {
    if s != [] {
      FilterNone(s[..|s| - 1], p);
    }
  }
  /** The positions `s.filter(p)` keeps, in increasing order. */
  function FilterIndices<T>(s: seq<T>, p: T -> bool): seq<nat>
    decreases |s|
  {
    if s == [] then []
    else
      var rest := FilterIndices(s[..|s| - 1], p);
      if p(s[|s| - 1]) then rest + [|s| - 1] else rest
  }

  /**
   * `filter` keeps order: its result is the subsequence of `s` at strictly
   * increasing positions, and those are exactly the positions passing `p`.
   */
  lemma FilterKeepsOrder<T>(s: seq<T>, p: T -> bool)
    ensures |FilterIndices(s, p)| == |Filter(s, p)|
    ensures forall k :: 0 <= k < |FilterIndices(s, p)| ==>
      FilterIndices(s, p)[k] < |s| && s[FilterIndices(s, p)[k]] == Filter(s, p)[k]
    ensures forall k, l :: 0 <= k < l < |FilterIndices(s, p)| ==> FilterIndices(s, p)[k] < FilterIndices(s, p)[l]
    ensures forall i :: 0 <= i < |s| ==> (p(s[i]) <==> i in FilterIndices(s, p))
  {
    IndicesPickFiltered(s, p);
    IndicesIncrease(s, p);
    IndicesArePassing(s, p);
  }

  lemma {:induction false} IndicesPickFiltered<T>(s: seq<T>, p: T -> bool)
    ensures |FilterIndices(s, p)| == |Filter(s, p)|
    ensures forall k :: 0 <= k < |FilterIndices(s, p)| ==>
      FilterIndices(s, p)[k] < |s| && s[FilterIndices(s, p)[k]] == Filter(s, p)[k]
    decreases |s|
  {
    if s != [] {
      var init := s[..|s| - 1];
      IndicesPickFiltered(init, p);
      var idx, r := FilterIndices(s, p), Filter(s, p);
      var idx', r' := FilterIndices(init, p), Filter(init, p);
      if p(s[|s| - 1]) {
        assert idx == idx' + [|s| - 1] && r == r' + [s[|s| - 1]];
        forall k | 0 <= k < |idx| ensures idx[k] < |s| && s[idx[k]] == r[k] {
          if k < |idx'| {
            assert idx[k] == idx'[k] && r[k] == r'[k] && init[idx'[k]] == s[idx'[k]];
          }
        }
      } else {
        assert idx == idx' && r == r';
        forall k | 0 <= k < |idx| ensures idx[k] < |s| && s[idx[k]] == r[k] {
          assert init[idx'[k]] == s[idx'[k]];
        }
      }
    }
  }

  lemma {:induction false} IndicesIncrease<T>(s: seq<T>, p: T -> bool)
    ensures forall k :: 0 <= k < |FilterIndices(s, p)| ==> FilterIndices(s, p)[k] < |s|
    ensures forall k, l :: 0 <= k < l < |FilterIndices(s, p)| ==> FilterIndices(s, p)[k] < FilterIndices(s, p)[l]
    decreases |s|
  {
    if s != [] {
      IndicesIncrease(s[..|s| - 1], p);
    }
  }

  lemma {:induction false} IndicesArePassing<T>(s: seq<T>, p: T -> bool)
    ensures forall i :: 0 <= i < |s| ==> (p(s[i]) <==> i in FilterIndices(s, p))
    decreases |s|
  {
    if s != [] {
      var init := s[..|s| - 1];
      IndicesArePassing(init, p);
      IndicesIncrease(init, p);
      forall i | 0 <= i < |s| ensures p(s[i]) <==> i in FilterIndices(s, p) {
        if i < |init| {
          assert s[i] == init[i];
        }
      }
    }
  }

  /** A sum of terms each at most `bound` is at most `|s| * bound`. */
  lemma {:induction false} SumAtMost<T>(s: seq<T>, f: T -> int, bound: int)
    requires forall k :: 0 <= k < |s| ==> f(s[k]) <= bound
    ensures Sum(s, f) <= |s| * bound
    decreases |s|
  {
    if s != [] {
      SumAtMost(s[..|s| - 1], f, bound);
    }
  }
  /** An element that fails `p` makes the filtered list strictly shorter. */
  lemma {:induction false} FilterDrops<T>(s: seq<T>, p: T -> bool, i: nat)
    requires i < |s| && !p(s[i])
    ensures |Filter(s, p)| < |s|
    decreases |s|
  {
    if i < |s| - 1 {
      FilterDrops(s[..|s| - 1], p, i);
    }
  }
}
