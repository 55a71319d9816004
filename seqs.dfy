/** Generic list operations the TypeScript code gets from `Array.prototype`:
    `filter`, `slice(0, n)`, and the first-occurrence de-duplication of
    `Array.from(new Set(...))`. */
module Seqs {

  /** `xs.filter(p)`. */
  function Filter<T(==)>(xs: seq<T>, p: T -> bool): (r: seq<T>)
    ensures |r| <= |xs|
    ensures forall i :: 0 <= i < |r| ==> r[i] in xs && p(r[i])
    ensures forall i :: 0 <= i < |xs| && p(xs[i]) ==> xs[i] in r
  {
    if |xs| == 0 then []
    else (if p(xs[0]) then [xs[0]] else []) + Filter(xs[1..], p)
  }

  /** Filtering distributes over concatenation, so the kept elements stay in
      their original order. */
  lemma {:induction false} FilterAppend<T>(xs: seq<T>, ys: seq<T>, p: T -> bool)
    ensures Filter(xs + ys, p) == Filter(xs, p) + Filter(ys, p)
  {
    if |xs| == 0 {
      assert xs + ys == ys;
    } else {
      assert (xs + ys)[1..] == xs[1..] + ys;
      FilterAppend(xs[1..], ys, p);
    }
  }

  /** A filter whose predicate holds everywhere keeps the whole list. */
  lemma {:induction false} FilterAll<T>(xs: seq<T>, p: T -> bool)
    requires forall i :: 0 <= i < |xs| ==> p(xs[i])
    ensures Filter(xs, p) == xs
  {
    if |xs| > 0 {
      FilterAll(xs[1..], p);
    }
  }

  /** A common prefix can be cancelled. */
  lemma PrefixCancel<T>(p: seq<T>, u: seq<T>, v: seq<T>)
    requires p + u == p + v
    ensures u == v
  {
    assert u == (p + u)[|p|..];
    assert v == (p + v)[|p|..];
  }

  /** A filter whose predicate holds nowhere keeps nothing. */
  lemma {:induction false} FilterNone<T>(xs: seq<T>, p: T -> bool)
    requires forall i :: 0 <= i < |xs| ==> !p(xs[i])
    ensures Filter(xs, p) == []
  {
    if |xs| > 0 {
      FilterNone(xs[1..], p);
    }
  }

  /** Two predicates that agree on every element filter the same way. */
  lemma {:induction false} FilterCongruent<T>(xs: seq<T>, p: T -> bool, q: T -> bool)
    requires forall i :: 0 <= i < |xs| ==> p(xs[i]) == q(xs[i])
    ensures Filter(xs, p) == Filter(xs, q)
  {
    if |xs| > 0 {
      FilterCongruent(xs[1..], p, q);
    }
  }

  /** `xs.slice(0, n)`: the first n elements, or all of them when there are fewer. */
  function Take<T>(xs: seq<T>, n: nat): (r: seq<T>)
    ensures |r| == if n < |xs| then n else |xs|
    ensures forall i :: 0 <= i < |r| ==> r[i] == xs[i]
  {
    if n < |xs| then xs[..n] else xs
  }

  /** `xs.filter(p).slice(0, n)`: at most n kept elements, each from xs and
      satisfying p; all of them when no more than n are kept. */
  lemma TakeOfFilter<T>(xs: seq<T>, p: T -> bool, n: nat)
    ensures |Take(Filter(xs, p), n)| <= n
    ensures forall i :: 0 <= i < |Take(Filter(xs, p), n)| ==> Take(Filter(xs, p), n)[i] in xs && p(Take(Filter(xs, p), n)[i])
    ensures |Filter(xs, p)| <= n ==> forall i :: 0 <= i < |xs| && p(xs[i]) ==> xs[i] in Take(Filter(xs, p), n)
  {
    var kept := Filter(xs, p);
    assert forall i :: 0 <= i < |Take(kept, n)| ==> Take(kept, n)[i] == kept[i];
  }

  predicate NoDuplicates<T(==)>(xs: seq<T>)
  {
    forall i, j :: 0 <= i < j < |xs| ==> xs[i] != xs[j]
  }

  /** `Array.from(new Set(xs))`: the first occurrence of every element, in order. */
  function Distinct<T(==)>(xs: seq<T>): seq<T>
  {
    if |xs| == 0 then []
    else
      var d := Distinct(xs[..|xs| - 1]);
      if xs[|xs| - 1] in d then d else d + [xs[|xs| - 1]]
  }

  /** `Distinct` keeps exactly the elements of its input, once each. */
  lemma {:induction false} DistinctProperties<T>(xs: seq<T>)
    ensures NoDuplicates(Distinct(xs))
    ensures forall i :: 0 <= i < |xs| ==> xs[i] in Distinct(xs)
    ensures forall i :: 0 <= i < |Distinct(xs)| ==> Distinct(xs)[i] in xs
    ensures |Distinct(xs)| <= |xs|
  {
    if |xs| > 0 {
      DistinctProperties(xs[..|xs| - 1]);
      assert xs == xs[..|xs| - 1] + [xs[|xs| - 1]];
    }
  }

  /** On a list without duplicates, `Distinct` changes nothing. */
  lemma {:induction false} DistinctOfDistinct<T>(xs: seq<T>)
    requires NoDuplicates(xs)
    ensures Distinct(xs) == xs
  {
    if |xs| > 0 {
      var init := xs[..|xs| - 1];
      DistinctOfDistinct(init);
      assert xs[|xs| - 1] !in init;
      assert init + [xs[|xs| - 1]] == xs;
    }
  }

  /** Adding one element to a duplicate-free list: it is appended when absent
      and the list is unchanged when present. */
  lemma DistinctSnoc<T>(xs: seq<T>, x: T)
    requires NoDuplicates(xs)
    ensures Distinct(xs + [x]) == if x in xs then xs else xs + [x]
  {
    DistinctOfDistinct(xs);
    assert (xs + [x])[..|xs + [x]| - 1] == xs;
  }
}
