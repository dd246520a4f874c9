/**
 * The sequence combinators the trader borrows from underscore:
 * `_.filter` (a stable filter) and `_.find` (first match).
 */
module Collections {
  import opened Wrappers

  /** `s` can be obtained from `t` by deleting elements; the order is kept. */
  ghost predicate IsSubsequence<T>(s: seq<T>, t: seq<T>)
    decreases |t|
  {
    s == [] ||
    (t != [] &&
     ((s[0] == t[0] && IsSubsequence(s[1..], t[1..])) || IsSubsequence(s, t[1..])))
  }

  /** `_.filter(xs, p)`: the elements of `xs` satisfying `p`, in input order. */
  function Filter<T(!new)>(p: T -> bool, xs: seq<T>): (r: seq<T>)
    ensures |r| <= |xs|
    ensures forall i :: 0 <= i < |r| ==> p(r[i])
    ensures forall x :: x in r <==> x in xs && p(x)
  {
    if xs == [] then []
    else
      assert xs == [xs[0]] + xs[1..];
      var rest := Filter(p, xs[1..]);
      if p(xs[0]) then
        assert ([xs[0]] + rest)[1..] == rest;
        [xs[0]] + rest
      else rest
  }

  /**
   * The filter keeps the order of the kept elements and drops exactly the
   * occurrences that fail the predicate.
   */
  lemma {:induction false} FilterKeepsOrder<T(!new)>(p: T -> bool, xs: seq<T>)
    ensures IsSubsequence(Filter(p, xs), xs)
    ensures forall x :: multiset(Filter(p, xs))[x] == if p(x) then multiset(xs)[x] else 0
    decreases |xs|
  {
    if xs != [] {
      FilterKeepsOrder(p, xs[1..]);
      assert xs == [xs[0]] + xs[1..];
      var rest := Filter(p, xs[1..]);
      if p(xs[0]) {
        assert ([xs[0]] + rest)[1..] == rest;
      }
    }
  }

  /** One step of the filter: the head counts iff it satisfies the predicate. */
  lemma FilterCountCons<T(!new)>(p: T -> bool, xs: seq<T>)
    requires xs != []
    ensures |Filter(p, xs)| == (if p(xs[0]) then 1 else 0) + |Filter(p, xs[1..])|
  {
  }

  lemma {:induction false} FilterAppend<T(!new)>(p: T -> bool, xs: seq<T>, ys: seq<T>)
    ensures Filter(p, xs + ys) == Filter(p, xs) + Filter(p, ys)
    decreases |xs|
  {
    if xs != [] {
      var zs := xs + ys;
      assert zs[0] == xs[0] && zs[1..] == xs[1..] + ys;
      FilterAppend(p, xs[1..], ys);
      if p(xs[0]) {
        assert Filter(p, zs) == [xs[0]] + Filter(p, zs[1..]);
        assert Filter(p, xs) == [xs[0]] + Filter(p, xs[1..]);
      } else {
        assert Filter(p, zs) == Filter(p, zs[1..]);
        assert Filter(p, xs) == Filter(p, xs[1..]);
      }
    } else {
      assert xs + ys == ys;
    }
  }

  /** Filtering twice is filtering once by the conjunction. */
  lemma {:induction false} FilterOfFilter<T(!new)>(p: T -> bool, q: T -> bool, pq: T -> bool, xs: seq<T>)
    requires forall x :: pq(x) == (p(x) && q(x))
    ensures Filter(q, Filter(p, xs)) == Filter(pq, xs)
    decreases |xs|
  {
    if xs != [] {
      FilterOfFilter(p, q, pq, xs[1..]);
    }
  }

  /** Two exclusive predicates split the filter by their disjunction. */
  lemma {:induction false} FilterCountSplit<T(!new)>(p: T -> bool, q: T -> bool, pq: T -> bool, xs: seq<T>)
    requires forall x :: pq(x) == (p(x) || q(x))
    requires forall x :: !(p(x) && q(x))
    ensures |Filter(pq, xs)| == |Filter(p, xs)| + |Filter(q, xs)|
    decreases |xs|
  {
    if xs != [] {
      FilterCountSplit(p, q, pq, xs[1..]);
    }
  }

  /** Predicates that agree on every element of the input filter it alike. */
  lemma {:induction false} FilterCongruent<T(!new)>(p: T -> bool, q: T -> bool, xs: seq<T>)
    requires forall i :: 0 <= i < |xs| ==> p(xs[i]) == q(xs[i])
    ensures Filter(p, xs) == Filter(q, xs)
    decreases |xs|
  {
    if xs != [] {
      FilterCongruent(p, q, xs[1..]);
    }
  }

  /** A predicate and its negation split the whole input. */
  lemma {:induction false} FilterComplement<T(!new)>(p: T -> bool, notP: T -> bool, xs: seq<T>)
    requires forall x :: notP(x) == !p(x)
    ensures |Filter(p, xs)| + |Filter(notP, xs)| == |xs|
    decreases |xs|
  {
    if xs != [] {
      FilterComplement(p, notP, xs[1..]);
    }
  }

  /** Filtering a sequence extended by one element. */
  lemma FilterSnoc<T(!new)>(p: T -> bool, xs: seq<T>, x: T)
    ensures Filter(p, xs + [x]) == Filter(p, xs) + (if p(x) then [x] else [])
  {
    FilterAppend(p, xs, [x]);
    assert [x][1..] == [];
  }

  /** Concatenation is associative; stated once so that callers over large element types stay cheap. */
  lemma AppendAssoc<T>(a: seq<T>, b: seq<T>, c: seq<T>)
    ensures a + b + c == a + (b + c)
  {
  }

  /** `_.find(xs, p)`: the first element satisfying `p`, if any. */
  function Find<T>(p: T -> bool, xs: seq<T>): (r: Option<T>)
    ensures r.Some? ==> r.value in xs && p(r.value)
    ensures r.None? <==> forall x :: x in xs ==> !p(x)
  {
    if xs == [] then None
    else if p(xs[0]) then Some(xs[0])
    else
      assert forall x :: x in xs ==> x == xs[0] || x in xs[1..];
      Find(p, xs[1..])
  }

  /** The element found is the first one satisfying `p`: every element before it fails `p`. */
  lemma {:induction false} FindFirst<T>(p: T -> bool, xs: seq<T>)
    ensures Find(p, xs).Some? ==>
      exists i :: 0 <= i < |xs| && xs[i] == Find(p, xs).value && forall j :: 0 <= j < i ==> !p(xs[j])
    decreases |xs|
  {
    if xs != [] && !p(xs[0]) {
      FindFirst(p, xs[1..]);
      if Find(p, xs[1..]).Some? {
        var i :| 0 <= i < |xs[1..]| && xs[1..][i] == Find(p, xs[1..]).value && forall j :: 0 <= j < i ==> !p(xs[1..][j]);
        assert xs[i + 1] == Find(p, xs).value;
        forall j | 0 <= j < i + 1 ensures !p(xs[j]) {
          if j > 0 {
            assert xs[j] == xs[1..][j - 1];
          }
        }
      }
    } else if xs != [] {
      assert xs[0] == Find(p, xs).value;
    }
  }
}
