/** Array operations the source uses on its lists (`filter`, `find`,
    `findIndex`, `slice`, `includes`, `[...new Set(xs)]`), as functions on
    sequences with the facts the rest of the model relies on.
 */
module Seqs {
  import opened Common

  /** `xs.filter(p)`: the elements satisfying `p`, in their original order.
      The multiset clause says both that nothing else is kept and that every
      occurrence of a satisfying element is kept. */
  function Filter<T(!new)>(s: seq<T>, p: T -> bool): (r: seq<T>)
    ensures |r| <= |s|
    ensures forall x {:trigger multiset(r)[x]} :: multiset(r)[x] == if p(x) then multiset(s)[x] else 0
    ensures forall x {:trigger x in r} :: x in r <==> x in s && p(x)
  {
    if |s| == 0 then []
    else
      assert s == [s[0]] + s[1..];
      if p(s[0]) then [s[0]] + Filter(s[1..], p) else Filter(s[1..], p)
  }

  /** `r` is `s` with some elements left out and the rest in order. */
  ghost predicate IsSubseq<T>(r: seq<T>, s: seq<T>)
    decreases |s|
  {
    |r| == 0 || (|s| > 0 && ((r[0] == s[0] && IsSubseq(r[1..], s[1..])) || IsSubseq(r, s[1..])))
  }

  /** Filtering keeps the survivors in their original relative order. */
  lemma {:induction false} FilterIsSubseq<T(!new)>(s: seq<T>, p: T -> bool)
    ensures IsSubseq(Filter(s, p), s)
    decreases |s|
  {
    if |s| > 0 {
      FilterIsSubseq(s[1..], p);
    }
  }

  /** Filtering twice with the same predicate changes nothing the second time. */
  lemma {:induction false} FilterIdempotent<T(!new)>(s: seq<T>, p: T -> bool)
    ensures Filter(Filter(s, p), p) == Filter(s, p)
    decreases |s|
  {
    if |s| > 0 {
      FilterIdempotent(s[1..], p);
    }
  }

  /** Two filters in a row are one filter by the conjunction. */
  lemma {:induction false} FilterFuse<T(!new)>(s: seq<T>, p: T -> bool, q: T -> bool, pq: T -> bool)
    requires forall x :: pq(x) == (p(x) && q(x))
    ensures Filter(Filter(s, p), q) == Filter(s, pq)
    decreases |s|
  {
    if |s| > 0 {
      FilterFuse(s[1..], p, q, pq);
    }
  }

  /** Filters by pointwise-equal predicates agree. */
  lemma {:induction false} FilterExt<T(!new)>(s: seq<T>, p: T -> bool, q: T -> bool)
    requires forall x :: p(x) == q(x)
    ensures Filter(s, p) == Filter(s, q)
    decreases |s|
  {
    if |s| > 0 {
      FilterExt(s[1..], p, q);
    }
  }

  /** Filtering two permutations of each other gives permutations of each other. */
  lemma FilterPermutation<T(!new)>(s: seq<T>, t: seq<T>, p: T -> bool)
    requires multiset(s) == multiset(t)
    ensures multiset(Filter(s, p)) == multiset(Filter(t, p))
  {
    var a, b := multiset(Filter(s, p)), multiset(Filter(t, p));
    forall x ensures a[x] == b[x] {
    }
  }

  /** Every element satisfies `p`. */
  predicate All<T>(s: seq<T>, p: T -> bool)
  {
    forall i :: 0 <= i < |s| ==> p(s[i])
  }

  /** `xs.findIndex(p)`, with -1 rendered as `None`. */
  function FirstIndex<T>(s: seq<T>, p: T -> bool): (r: Option<nat>)
    ensures r.Some? ==> r.value < |s| && p(s[r.value]) && forall j :: 0 <= j < r.value ==> !p(s[j])
    ensures r.None? <==> forall j :: 0 <= j < |s| ==> !p(s[j])
  {
    FirstIndexFrom(s, p, 0)
  }

  function FirstIndexFrom<T>(s: seq<T>, p: T -> bool, i: nat): (r: Option<nat>)
    requires i <= |s|
    requires forall j :: 0 <= j < i ==> !p(s[j])
    ensures r.Some? ==> i <= r.value < |s| && p(s[r.value]) && forall j :: 0 <= j < r.value ==> !p(s[j])
    ensures r.None? <==> forall j :: 0 <= j < |s| ==> !p(s[j])
    decreases |s| - i
  {
    if i == |s| then None
    else if p(s[i]) then Some(i)
    else FirstIndexFrom(s, p, i + 1)
  }

  /** `xs.find(p)`: the first element satisfying `p`. */
  function Find<T>(s: seq<T>, p: T -> bool): (r: Option<T>)
    ensures r.Some? <==> exists i :: 0 <= i < |s| && p(s[i])
    ensures r.Some? ==> exists i :: 0 <= i < |s| && s[i] == r.value && p(s[i]) && forall j :: 0 <= j < i ==> !p(s[j])
  {
    match FirstIndex(s, p)
    case Some(i) => Some(s[i])
    case None => None
  }

  function Min(a: int, b: int): int
  {
    if a <= b then a else b
  }

  /** `xs.slice(0, n)`. */
  function Take<T>(s: seq<T>, n: nat): (r: seq<T>)
    ensures |r| == if |s| < n then |s| else n
    ensures r == s[..|r|]
  {
    if |s| <= n then s else s[..n]
  }

  /** No value occurs twice. */
  predicate NoDup<T(==)>(s: seq<T>)
  {
    forall i, j :: 0 <= i < j < |s| ==> s[i] != s[j]
  }

  /** `[...new Set(xs)]`: first occurrences only, in order of first occurrence. */
  function Dedup<T(==,!new)>(s: seq<T>): (r: seq<T>)
    ensures NoDup(r)
    ensures forall x {:trigger x in r} :: x in r <==> x in s
    decreases |s|
  {
    if |s| == 0 then []
    else
      var d := Dedup(s[..|s| - 1]);
      var last := s[|s| - 1];
      assert s == s[..|s| - 1] + [last];
      if last in d then d else d + [last]
  }

  /** Appending one value to a list deduplicates like appending it to the
      deduplicated list. */
  lemma DedupSnoc<T(!new)>(s: seq<T>, x: T)
    ensures Dedup(s + [x]) == if x in Dedup(s) then Dedup(s) else Dedup(s) + [x]
  {
    assert (s + [x])[..|s + [x]| - 1] == s;
  }

  /** A list without repeats is its own deduplication. */
  lemma {:induction false} DedupOfNoDup<T(!new)>(s: seq<T>)
    requires NoDup(s)
    ensures Dedup(s) == s
    decreases |s|
  {
    if |s| > 0 {
      var init := s[..|s| - 1];
      assert NoDup(init);
      DedupOfNoDup(init);
      assert s == init + [s[|s| - 1]];
      assert s[|s| - 1] !in init;
    }
  }

  /** `xs.map(f).filter(Boolean)` where `f` yields `null` for the elements
      it drops: the kept images, in order. */
  function FilterMap<T, U>(s: seq<T>, f: T -> Option<U>): (r: seq<U>)
    ensures |r| <= |s|
    ensures forall y :: y in r ==> exists x :: x in s && f(x) == Some(y)
    ensures forall x :: x in s && f(x).Some? ==> f(x).value in r
  {
    if |s| == 0 then []
    else
      var rest := FilterMap(s[1..], f);
      assert forall x :: x in s[1..] ==> x in s;
      assert forall x :: x in s ==> x == s[0] || x in s[1..];
      match f(s[0])
      case Some(y) => [y] + rest
      case None => rest
  }

  /** Filtering distributes over concatenation. */
  lemma {:induction false} FilterConcat<T(!new)>(a: seq<T>, b: seq<T>, p: T -> bool)
    ensures Filter(a + b, p) == Filter(a, p) + Filter(b, p)
    decreases |a|
  {
    if |a| > 0 {
      assert (a + b)[1..] == a[1..] + b;
      FilterConcat(a[1..], b, p);
    } else {
      assert a + b == b;
    }
  }

  /** Mapping-and-dropping distributes over concatenation. */
  lemma {:induction false} FilterMapConcat<T, U>(a: seq<T>, b: seq<T>, f: T -> Option<U>)
    ensures FilterMap(a + b, f) == FilterMap(a, f) + FilterMap(b, f)
    decreases |a|
  {
    if |a| > 0 {
      assert (a + b)[1..] == a[1..] + b;
      FilterMapConcat(a[1..], b, f);
    } else {
      assert a + b == b;
    }
  }

  /** Two maps that agree on every element of the list give the same result. */
  lemma {:induction false} FilterMapAgree<T, U>(s: seq<T>, f: T -> Option<U>, g: T -> Option<U>)
    requires forall i :: 0 <= i < |s| ==> f(s[i]) == g(s[i])
    ensures FilterMap(s, f) == FilterMap(s, g)
    decreases |s|
  {
    if |s| > 0 {
      FilterMapAgree(s[1..], f, g);
    }
  }

  /** A map that keeps every element, with `r` as the images, yields `r`. */
  lemma {:induction false} FilterMapAllKept<T, U>(s: seq<T>, f: T -> Option<U>, r: seq<U>)
    requires |s| == |r| && forall i :: 0 <= i < |s| ==> f(s[i]) == Some(r[i])
    ensures FilterMap(s, f) == r
    decreases |s|
  {
    if |s| > 0 {
      FilterMapAllKept(s[1..], f, r[1..]);
      assert r == [r[0]] + r[1..];
    }
  }

  /** A filter whose predicate holds for every element keeps the list whole. */
  lemma {:induction false} FilterAllKept<T(!new)>(s: seq<T>, p: T -> bool)
    requires forall x :: x in s ==> p(x)
    ensures Filter(s, p) == s
    decreases |s|
  {
    if |s| > 0 {
      assert forall x :: x in s[1..] ==> x in s;
      FilterAllKept(s[1..], p);
    }
  }

  /** `if (on) xs = xs.filter(p)`: the conditional filter step the
      services chain. */
  function FilterIf<T(!new)>(on: bool, s: seq<T>, p: T -> bool): (r: seq<T>)
    ensures forall x {:trigger multiset(r)[x]} :: multiset(r)[x] == if !on || p(x) then multiset(s)[x] else 0
    ensures forall x {:trigger x in r} :: x in r <==> x in s && (on ==> p(x))
  {
    if on then Filter(s, p) else s
  }

  /** An empty filter result means no element satisfies the predicate. */
  lemma FilterEmpty<T(!new)>(s: seq<T>, p: T -> bool)
    requires |Filter(s, p)| == 0
    ensures forall x :: x in s ==> !p(x)
  {
    forall x | x in s ensures !p(x) {
      assert p(x) ==> x in Filter(s, p);
    }
  }

  /** A conditional filter is a filter by the guarded predicate. */
  lemma FilterIfIsFilter<T(!new)>(on: bool, s: seq<T>, p: T -> bool, q: T -> bool)
    requires forall x :: q(x) == (on ==> p(x))
    ensures FilterIf(on, s, p) == Filter(s, q)
  {
    if on {
      FilterExt(s, p, q);
    } else {
      FilterAllKept(s, q);
    }
  }

  /** A conditional filter after a filter is one filter by the conjunction. */
  lemma FilterIfFuse<T(!new)>(s: seq<T>, p: T -> bool, on: bool, c: T -> bool, q: T -> bool)
    requires forall x :: q(x) == (p(x) && (on ==> c(x)))
    ensures FilterIf(on, Filter(s, p), c) == Filter(s, q)
  {
    if on {
      FilterFuse(s, p, c, q);
    } else {
      FilterExt(s, p, q);
    }
  }

  lemma {:induction false} SubseqRefl<T>(s: seq<T>)
    ensures IsSubseq(s, s)
    decreases |s|
  {
    if |s| > 0 {
      SubseqRefl(s[1..]);
    }
  }

  lemma {:induction false} SubseqTrans<T>(a: seq<T>, b: seq<T>, c: seq<T>)
    requires IsSubseq(a, b) && IsSubseq(b, c)
    ensures IsSubseq(a, c)
    decreases |c|
  {
    if |a| > 0 {
      assert |b| > 0 && |c| > 0;
      if IsSubseq(b, c[1..]) {
        SubseqTrans(a, b, c[1..]);
      } else {
        assert b[0] == c[0] && IsSubseq(b[1..], c[1..]);
        if a[0] == b[0] && IsSubseq(a[1..], b[1..]) {
          SubseqTrans(a[1..], b[1..], c[1..]);
        } else {
          assert IsSubseq(a, b[1..]);
          SubseqTrans(a, b[1..], c[1..]);
        }
      }
    }
  }
}
