/** Sequence helpers shared by the pipeline: filtering (pandas boolean
    indexing), element-wise mapping (a derived column) and real sums. */
module Seqs {

  /** The elements of `s` satisfying `p`, in their original order. */
  function Filter<T(!new)>(s: seq<T>, p: T -> bool): (r: seq<T>)
    ensures |r| <= |s|
    ensures forall x :: x in r <==> x in s && p(x)
  {
    if |s| == 0 then []
    else if p(s[0]) then [s[0]] + Filter(s[1..], p)
    else Filter(s[1..], p)
  }

  /** `f` applied to every element of `s`. */
  function Map<A, B>(s: seq<A>, f: A -> B): (r: seq<B>)
    ensures |r| == |s|
    ensures forall i :: 0 <= i < |s| ==> r[i] == f(s[i])
  {
    if |s| == 0 then [] else [f(s[0])] + Map(s[1..], f)
  }

  function Sum(xs: seq<real>): real
  {
    if |xs| == 0 then 0.0 else xs[0] + Sum(xs[1..])
  }

  /** Filtering distributes over concatenation. */
  lemma {:induction false} FilterConcat<T(!new)>(a: seq<T>, b: seq<T>, p: T -> bool)
    ensures Filter(a + b, p) == Filter(a, p) + Filter(b, p)
  {
    if |a| == 0 {
      assert a + b == b;
    } else {
      assert (a + b)[1..] == a[1..] + b;
      FilterConcat(a[1..], b, p);
    }
  }

  /** Elements the filter drops can be inserted anywhere without changing
      its result. */
  lemma FilterSkips<T(!new)>(a: seq<T>, extra: seq<T>, b: seq<T>, p: T -> bool)
    requires forall x :: x in extra ==> !p(x)
    ensures Filter(a + extra + b, p) == Filter(a + b, p)
  {
    FilterDropsAll(extra, p);
    FilterConcat(a + extra, b, p);
    FilterConcat(a, extra, p);
    FilterConcat(a, b, p);
    assert Filter(a, p) + [] == Filter(a, p);
  }

  lemma SplitThree<T>(s: seq<T>, lo: int, hi: int)
    requires 0 <= lo <= hi <= |s|
    ensures s == s[..lo] + s[lo..hi] + s[hi..]
  {
  }

  /** A filter that drops everything in `a` and `c` and keeps everything in
      `b` selects `b` from a + b + c. */
  lemma FilterMiddle<T(!new)>(a: seq<T>, b: seq<T>, c: seq<T>, p: T -> bool)
    requires Filter(a, p) == [] && Filter(b, p) == b && Filter(c, p) == []
    ensures Filter(a + b + c, p) == b
  {
    FilterConcat(a + b, c, p);
    FilterConcat(a, b, p);
    assert [] + b + [] == b;
  }

  /** A filter every element passes changes nothing. */
  lemma {:induction false} FilterKeepsAll<T(!new)>(s: seq<T>, p: T -> bool)
    requires forall x :: x in s ==> p(x)
    ensures Filter(s, p) == s
  {
    if |s| > 0 {
      assert s[0] in s;
      FilterKeepsAll(s[1..], p);
      assert [s[0]] + s[1..] == s;
    }
  }

  /** A filter no element passes leaves nothing. */
  lemma {:induction false} FilterDropsAll<T(!new)>(s: seq<T>, p: T -> bool)
    requires forall x :: x in s ==> !p(x)
    ensures Filter(s, p) == []
  {
    if |s| > 0 {
      assert s[0] in s;
      FilterDropsAll(s[1..], p);
    }
  }

  /** Two filters in a row are one filter by the conjunction. */
  lemma {:induction false} FilterFilter<T(!new)>(s: seq<T>, p: T -> bool, q: T -> bool, pq: T -> bool)
    requires forall x :: pq(x) == (p(x) && q(x))
    ensures Filter(Filter(s, p), q) == Filter(s, pq)
  {
    if |s| > 0 {
      FilterFilter(s[1..], p, q, pq);
      if p(s[0]) {
        assert Filter(s, p) == [s[0]] + Filter(s[1..], p);
        assert ([s[0]] + Filter(s[1..], p))[1..] == Filter(s[1..], p);
      }
    }
  }

  /** A filter after a map is a map after the corresponding filter. */
  lemma {:induction false} FilterMap<A(!new), B(!new)>(s: seq<A>, f: A -> B, p: B -> bool, pf: A -> bool)
    requires forall x :: pf(x) == p(f(x))
    ensures Filter(Map(s, f), p) == Map(Filter(s, pf), f)
  {
    if |s| > 0 {
      FilterMap(s[1..], f, p, pf);
      assert Map(s, f)[1..] == Map(s[1..], f);
      if pf(s[0]) {
        assert ([s[0]] + Filter(s[1..], pf))[1..] == Filter(s[1..], pf);
      }
    }
  }

  /** Maps that agree on every element of `s` give the same sequence. */
  lemma MapAgree<A, B>(s: seq<A>, f: A -> B, g: A -> B)
    requires forall x :: x in s ==> f(x) == g(x)
    ensures Map(s, f) == Map(s, g)
  {
  }

  lemma {:induction false} SumAppend(xs: seq<real>, x: real)
    ensures Sum(xs + [x]) == Sum(xs) + x
  {
    if |xs| > 0 {
      assert (xs + [x])[1..] == xs[1..] + [x];
      SumAppend(xs[1..], x);
    }
  }

  /** Each element within [lo, hi] bounds the sum by |xs|*lo and |xs|*hi. */
  lemma {:induction false} SumBounds(xs: seq<real>, lo: real, hi: real)
    requires forall i :: 0 <= i < |xs| ==> lo <= xs[i] <= hi
    ensures (|xs| as real) * lo <= Sum(xs) <= (|xs| as real) * hi
  {
    if |xs| > 0 {
      SumBounds(xs[1..], lo, hi);
    }
  }
}
