/** `Array.prototype.sort` with a comparator, as the source uses it.

    The JavaScript sort is stable, so with a consistent comparator its
    result is the one permutation of the input that is ordered by the
    comparator and keeps elements the comparator calls equal in their input
    order. The model is a stable insertion sort over the relation
    `le(a, b) := cmp(a, b) <= 0`, proved to be exactly that.
 */
module Sorting {
  import opened Seqs

  /** `le` is total and transitive: what a consistent comparator gives. */
  ghost predicate TotalPreorder<T(!new)>(le: (T, T) -> bool)
  {
    && (forall a, b :: le(a, b) || le(b, a))
    && (forall a, b, c :: le(a, b) && le(b, c) ==> le(a, c))
  }

  ghost predicate SortedBy<T>(s: seq<T>, le: (T, T) -> bool)
  {
    forall i, j :: 0 <= i < j < |s| ==> le(s[i], s[j])
  }

  /** The comparator calls `a` and `b` equal. */
  predicate Tied<T>(le: (T, T) -> bool, a: T, b: T)
  {
    le(a, b) && le(b, a)
  }

  /** The elements of `s` tied with `z`, in the order they occur in `s`. */
  function TiedWith<T>(s: seq<T>, le: (T, T) -> bool, z: T): seq<T>
  {
    if |s| == 0 then []
    else (if Tied(le, s[0], z) then [s[0]] else []) + TiedWith(s[1..], le, z)
  }

  /** Puts `x` in front of the first element it is `le` to. */
  function Insert<T>(x: T, s: seq<T>, le: (T, T) -> bool): (r: seq<T>)
    ensures multiset(r) == multiset(s) + multiset{x}
    ensures |r| == |s| + 1
  {
    if |s| == 0 then [x]
    else if le(x, s[0]) then [x] + s
    else
      assert s == [s[0]] + s[1..];
      [s[0]] + Insert(x, s[1..], le)
  }

  function StableSort<T>(s: seq<T>, le: (T, T) -> bool): (r: seq<T>)
    ensures multiset(r) == multiset(s)
    ensures |r| == |s|
  {
    if |s| == 0 then []
    else
      assert s == [s[0]] + s[1..];
      Insert(s[0], StableSort(s[1..], le), le)
  }

  lemma {:induction false} InsertSorted<T(!new)>(x: T, s: seq<T>, le: (T, T) -> bool)
    requires TotalPreorder(le)
    requires SortedBy(s, le)
    ensures SortedBy(Insert(x, s, le), le)
    decreases |s|
  {
    if |s| > 0 && !le(x, s[0]) {
      InsertSorted(x, s[1..], le);
      var r := Insert(x, s[1..], le);
      // every element of r is s[1..]'s or x, and s[0] precedes all of them
      forall k | 0 <= k < |r| ensures le(s[0], r[k]) {
        assert r[k] in multiset(r);
        if r[k] != x {
          assert r[k] in multiset(s[1..]);
          var m :| 0 <= m < |s[1..]| && s[1..][m] == r[k];
          assert s[m + 1] == r[k];
        }
      }
    }
  }

  /** The sort orders its result by `le`. */
  lemma {:induction false} SortSorted<T(!new)>(s: seq<T>, le: (T, T) -> bool)
    requires TotalPreorder(le)
    ensures SortedBy(StableSort(s, le), le)
    decreases |s|
  {
    if |s| > 0 {
      SortSorted(s[1..], le);
      InsertSorted(s[0], StableSort(s[1..], le), le);
    }
  }

  lemma {:induction false} TiedWithConcat<T>(a: seq<T>, b: seq<T>, le: (T, T) -> bool, z: T)
    ensures TiedWith(a + b, le, z) == TiedWith(a, le, z) + TiedWith(b, le, z)
    decreases |a|
  {
    if |a| > 0 {
      assert (a + b)[1..] == a[1..] + b;
      TiedWithConcat(a[1..], b, le, z);
    } else {
      assert a + b == b;
    }
  }

  /** Inserting `x` puts it ahead of every element already tied with it. */
  lemma {:induction false} InsertTied<T(!new)>(x: T, s: seq<T>, le: (T, T) -> bool, z: T)
    requires TotalPreorder(le)
    ensures TiedWith(Insert(x, s, le), le, z)
         == (if Tied(le, x, z) then [x] else []) + TiedWith(s, le, z)
    decreases |s|
  {
    if |s| > 0 {
      if le(x, s[0]) {
        assert Insert(x, s, le) == [x] + s;
        TiedWithConcat([x], s, le, z);
      } else {
        InsertTied(x, s[1..], le, z);
        assert Insert(x, s, le) == [s[0]] + Insert(x, s[1..], le);
        TiedWithConcat([s[0]], Insert(x, s[1..], le), le, z);
        TiedWithConcat([s[0]], s[1..], le, z);
        assert s == [s[0]] + s[1..];
        // s[0] is strictly below x, so it cannot be tied with z when x is
        if Tied(le, x, z) {
          assert !Tied(le, s[0], z);
        }
      }
    } else {
      assert Insert(x, s, le) == [x];
    }
  }

  /** Stability: elements the comparator calls equal keep their input order. */
  lemma {:induction false} SortStable<T(!new)>(s: seq<T>, le: (T, T) -> bool, z: T)
    requires TotalPreorder(le)
    ensures TiedWith(StableSort(s, le), le, z) == TiedWith(s, le, z)
    decreases |s|
  {
    if |s| > 0 {
      SortStable(s[1..], le, z);
      InsertTied(s[0], StableSort(s[1..], le), le, z);
    }
  }

  /** Every element tied with `z` comes from `s`. */
  lemma {:induction false} TiedWithIn<T>(s: seq<T>, le: (T, T) -> bool, z: T, x: T)
    requires x in TiedWith(s, le, z)
    ensures x in s
    decreases |s|
  {
    if |s| > 0 && x != s[0] {
      TiedWithIn(s[1..], le, z, x);
    }
  }

  /** The elements tied with `z` keep any order the whole sequence has. */
  lemma {:induction false} TiedWithSorted<T>(s: seq<T>, le: (T, T) -> bool, z: T, le2: (T, T) -> bool)
    requires SortedBy(s, le2)
    ensures SortedBy(TiedWith(s, le, z), le2)
    decreases |s|
  {
    if |s| > 0 {
      assert SortedBy(s[1..], le2);
      TiedWithSorted(s[1..], le, z, le2);
      var rest := TiedWith(s[1..], le, z);
      forall k | 0 <= k < |rest| ensures le2(s[0], rest[k]) {
        TiedWithIn(s[1..], le, z, rest[k]);
      }
    }
  }

  /** The first `k` elements of a sorted sequence are `le` to every element
      left out, and every element of the input is either kept or so bounded. */
  lemma TopOfSorted<T(!new)>(s: seq<T>, r: seq<T>, le: (T, T) -> bool, k: nat)
    requires SortedBy(r, le)
    requires multiset(r) == multiset(s)
    ensures forall w :: w in s ==> (w in Take(r, k) || forall x :: x in Take(r, k) ==> le(x, w))
  {
    var n := |Take(r, k)|;
    forall w | w in s
      ensures w in r[..n] || forall x :: x in r[..n] ==> le(x, w)
    {
      assert w in multiset(r);
      var j :| 0 <= j < |r| && r[j] == w;
      if j >= n {
        forall x | x in r[..n] ensures le(x, w) {
          var i :| 0 <= i < n && r[..n][i] == x;
        }
      } else {
        assert r[..n][j] == w;
      }
    }
  }

  /** Sorting an already sorted sequence changes nothing, so the sort is idempotent. */
  lemma {:induction false} SortOfSorted<T>(s: seq<T>, le: (T, T) -> bool)
    requires SortedBy(s, le)
    ensures StableSort(s, le) == s
    decreases |s|
  {
    if |s| > 0 {
      assert SortedBy(s[1..], le);
      SortOfSorted(s[1..], le);
      if |s| > 1 {
        assert le(s[0], s[1]);
      }
      assert s == [s[0]] + s[1..];
    }
  }

  lemma SortIdempotent<T(!new)>(s: seq<T>, le: (T, T) -> bool)
    requires TotalPreorder(le)
    ensures StableSort(StableSort(s, le), le) == StableSort(s, le)
  {
    SortSorted(s, le);
    SortOfSorted(StableSort(s, le), le);
  }

  /** `top` is a choice of the `n` best elements of `ws` satisfying `p`
      under `le`: as many as there are, up to `n`; each from `ws` and
      satisfying `p`, and no element chosen more often than `ws` holds it;
      ordered by `le`; and no element left out goes before one chosen. */
  ghost predicate TopBy<T(!new)>(ws: seq<T>, p: T -> bool, top: seq<T>, le: (T, T) -> bool, n: nat)
  {
    && |top| == Min(n, |Filter(ws, p)|)
    && (forall i :: 0 <= i < |top| ==> top[i] in ws && p(top[i]))
    && multiset(top) <= multiset(Filter(ws, p))
    && SortedBy(top, le)
    && (forall w, i :: w in ws && p(w) && w !in top && 0 <= i < |top| ==> le(top[i], w))
  }

  /** Slicing a sorted list of the elements satisfying `p` chooses the best `n`. */
  lemma TopFacts<T(!new)>(ws: seq<T>, p: T -> bool, ranked: seq<T>, le: (T, T) -> bool, n: nat)
    requires forall w {:trigger multiset(ranked)[w]} :: multiset(ranked)[w] == if p(w) then multiset(ws)[w] else 0
    requires SortedBy(ranked, le)
    ensures |Take(ranked, n)| == 0 <==> n == 0 || forall w :: w in ws ==> !p(w)
    ensures TopBy(ws, p, Take(ranked, n), le, n)
  {
    var top := Take(ranked, n);
    var cands := Filter(ws, p);
    assert multiset(ranked) == multiset(cands) by {
      forall w ensures multiset(ranked)[w] == multiset(cands)[w] {
      }
    }
    assert |multiset(ranked)| == |multiset(cands)|;
    forall w ensures w in ranked <==> w in ws && p(w) {
      assert w in ranked <==> w in multiset(ranked);
      assert w in ws <==> w in multiset(ws);
    }
    if |top| == 0 {
      assert n == 0 || |ranked| == 0;
    } else {
      assert top[0] in ranked;
    }
    forall i | 0 <= i < |top| ensures top[i] in ranked {
      assert top[i] == ranked[i];
    }
    TopOfSorted(ranked, ranked, le, n);
    PrefixMultiset(ranked, |top|);
  }

  /** A prefix holds each element at most as often as the whole sequence. */
  lemma PrefixMultiset<T>(s: seq<T>, k: nat)
    requires k <= |s|
    ensures multiset(s[..k]) <= multiset(s)
  {
    assert s == s[..k] + s[k..];
  }

  /** A filter keeps a sorted list sorted. */
  lemma {:induction false} FilterSorted<T(!new)>(s: seq<T>, p: T -> bool, le: (T, T) -> bool)
    requires SortedBy(s, le)
    ensures SortedBy(Filter(s, p), le)
    decreases |s|
  {
    if |s| > 0 {
      FilterSorted(s[1..], p, le);
      var rest := Filter(s[1..], p);
      forall x | x in rest ensures le(s[0], x) {
        var k :| 0 <= k < |s[1..]| && s[1..][k] == x;
      }
    }
  }

  /** The elements tied with `z` in a filtered list are the filtered
      elements tied with `z`. */
  lemma {:induction false} TiedWithFilter<T(!new)>(s: seq<T>, p: T -> bool, le: (T, T) -> bool, z: T)
    ensures TiedWith(Filter(s, p), le, z) == Filter(TiedWith(s, le, z), p)
    decreases |s|
  {
    if |s| > 0 {
      TiedWithFilter(s[1..], p, le, z);
      var rest := TiedWith(s[1..], le, z);
      if Tied(le, s[0], z) {
        assert TiedWith(s, le, z) == [s[0]] + rest;
        assert ([s[0]] + rest)[1..] == rest;
      } else {
        assert TiedWith(s, le, z) == rest;
      }
      if p(s[0]) {
        assert Filter(s, p) == [s[0]] + Filter(s[1..], p);
        assert ([s[0]] + Filter(s[1..], p))[1..] == Filter(s[1..], p);
      }
    }
  }

  /** `after` is `before` stably sorted by `le`: the same elements, ordered
      by `le`, and the elements `le` calls equal in their old order. */
  ghost predicate ReorderedBy<T(!new)>(before: seq<T>, after: seq<T>, le: (T, T) -> bool)
  {
    && multiset(after) == multiset(before)
    && SortedBy(after, le)
    && forall z :: TiedWith(after, le, z) == TiedWith(before, le, z)
  }

  lemma StableSortReorders<T(!new)>(s: seq<T>, le: (T, T) -> bool)
    requires TotalPreorder(le)
    ensures ReorderedBy(s, StableSort(s, le), le)
  {
    SortSorted(s, le);
    forall z ensures TiedWith(StableSort(s, le), le, z) == TiedWith(s, le, z) {
      SortStable(s, le, z);
    }
  }

  /** A list with two neighbours out of order is changed by reordering it. */
  lemma ReorderingMoves<T(!new)>(before: seq<T>, after: seq<T>, le: (T, T) -> bool, i: nat)
    requires ReorderedBy(before, after, le)
    requires i + 1 < |before| && !le(before[i], before[i + 1])
    ensures after != before
  {
  }
}
