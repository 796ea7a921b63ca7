/** The array operations every list page is built from: `filter`, `filter(..).length`,
    `reduce` with `+`, and `Array.from(new Set(..))`. */
module Seqs {

  /** `r` can be obtained from `xs` by deleting elements, keeping the order. */
  ghost predicate IsSubsequence<T>(r: seq<T>, xs: seq<T>)
    decreases |xs|
  {
    if |r| == 0 then true
    else if |xs| == 0 then false
    else if r[0] == xs[0] then IsSubsequence(r[1..], xs[1..])
    else IsSubsequence(r, xs[1..])
  }

  /** `xs.filter(p)`. */
  function Filter<T(==,!new)>(xs: seq<T>, p: T -> bool): (r: seq<T>)
    ensures |r| <= |xs|
    ensures forall i :: 0 <= i < |r| ==> p(r[i])
    ensures forall x :: x in r <==> x in xs && p(x)
    ensures forall x :: multiset(r)[x] == if p(x) then multiset(xs)[x] else 0
    ensures IsSubsequence(r, xs)
    decreases |xs|
  {
    if |xs| == 0 then []
    else
      var rest := Filter(xs[1..], p);
      assert xs == [xs[0]] + xs[1..];
      if p(xs[0]) then
        assert ([xs[0]] + rest)[1..] == rest;
        [xs[0]] + rest
      else
        rest
  }

  /** Filtering twice with the same predicate is filtering once. */
  lemma {:induction false} FilterIdempotent<T(!new)>(xs: seq<T>, p: T -> bool)
    ensures Filter(Filter(xs, p), p) == Filter(xs, p)
    decreases |xs|
  {
    if |xs| > 0 {
      FilterIdempotent(xs[1..], p);
      var rest := Filter(xs[1..], p);
      if p(xs[0]) {
        assert ([xs[0]] + rest)[1..] == rest;
      }
    }
  }

  /** Filtering keeps everything when every element passes. */
  lemma {:induction false} FilterKeepsAll<T(!new)>(xs: seq<T>, p: T -> bool)
    requires forall i :: 0 <= i < |xs| ==> p(xs[i])
    ensures Filter(xs, p) == xs
    decreases |xs|
  {
    if |xs| > 0 {
      FilterKeepsAll(xs[1..], p);
      assert xs == [xs[0]] + xs[1..];
    }
  }

  /** Two predicates that agree on the elements give the same result. */
  lemma {:induction false} FilterAgree<T(!new)>(xs: seq<T>, p: T -> bool, q: T -> bool)
    requires forall i :: 0 <= i < |xs| ==> p(xs[i]) == q(xs[i])
    ensures Filter(xs, p) == Filter(xs, q)
    decreases |xs|
  {
    if |xs| > 0 {
      FilterAgree(xs[1..], p, q);
    }
  }

  /** Filtering distributes over concatenation, so order is kept across the cut. */
  lemma {:induction false} FilterAppend<T(!new)>(xs: seq<T>, ys: seq<T>, p: T -> bool)
    ensures Filter(xs + ys, p) == Filter(xs, p) + Filter(ys, p)
    decreases |xs|
  {
    if |xs| == 0 {
      assert xs + ys == ys;
    } else {
      assert (xs + ys)[1..] == xs[1..] + ys;
      FilterAppend(xs[1..], ys, p);
    }
  }

  /** The positions of `xs` whose element satisfies `p`. */
  ghost function Positions<T>(xs: seq<T>, p: T -> bool): set<int>
  {
    set i | 0 <= i < |xs| && p(xs[i])
  }

  /** `xs.filter(p).length`, counted from the right. */
  function Count<T>(xs: seq<T>, p: T -> bool): (n: nat)
    ensures n == |Positions(xs, p)|
    ensures n <= |xs|
    decreases |xs|
  {
    if |xs| == 0 then
      assert Positions(xs, p) == {};
      0
    else
      var init := xs[..|xs| - 1];
      var last := xs[|xs| - 1];
      var m := Count(init, p);
      PositionsSnoc(init, last, p);
      assert xs == init + [last];
      if p(last) then
        assert |Positions(init, p) + {|init|}| == |Positions(init, p)| + 1;
        m + 1
      else
        m
  }

  lemma PositionsSnoc<T>(init: seq<T>, last: T, p: T -> bool)
    ensures Positions(init + [last], p)
         == Positions(init, p) + (if p(last) then {|init|} else {})
    ensures |init| !in Positions(init, p)
  {
    var xs := init + [last];
    forall i | 0 <= i < |init|
      ensures xs[i] == init[i]
    {
    }
  }

  /** `Count` is the length of `Filter`. */
  lemma {:induction false} CountIsFilterLength<T(!new)>(xs: seq<T>, p: T -> bool)
    ensures Count(xs, p) == |Filter(xs, p)|
    decreases |xs|
  {
    if |xs| > 0 {
      var init := xs[..|xs| - 1];
      var last := xs[|xs| - 1];
      assert xs == init + [last];
      CountIsFilterLength(init, p);
      FilterAppend(init, [last], p);
      assert Filter([last], p) == if p(last) then [last] else [];
      assert Count(xs, p) == Count(init, p) + if p(last) then 1 else 0;
    }
  }

  /** `Count` evaluated from the left; on a literal sequence it unfolds cheaply. */
  function Tally<T>(xs: seq<T>, p: T -> bool): nat
    decreases |xs|
  {
    if |xs| == 0 then 0 else (if p(xs[0]) then 1 else 0) + Tally(xs[1..], p)
  }

  lemma {:induction false} TallySnoc<T>(xs: seq<T>, y: T, p: T -> bool)
    ensures Tally(xs + [y], p) == Tally(xs, p) + if p(y) then 1 else 0
    decreases |xs|
  {
    if |xs| == 0 {
      assert [y][1..] == [];
    } else {
      assert (xs + [y])[1..] == xs[1..] + [y];
      TallySnoc(xs[1..], y, p);
    }
  }

  /** Counting from either end gives the same number. */
  lemma {:induction false} TallyIsCount<T>(xs: seq<T>, p: T -> bool)
    ensures Tally(xs, p) == Count(xs, p)
    decreases |xs|
  {
    if |xs| > 0 {
      var init := xs[..|xs| - 1];
      assert xs == init + [xs[|xs| - 1]];
      TallyIsCount(init, p);
      TallySnoc(init, xs[|xs| - 1], p);
    }
  }

  /** Counting a predicate and its negation accounts for every element. */
  lemma {:induction false} CountSplit<T>(xs: seq<T>, p: T -> bool, q: T -> bool)
    requires forall i :: 0 <= i < |xs| ==> (p(xs[i]) <==> !q(xs[i]))
    ensures Count(xs, p) + Count(xs, q) == |xs|
    decreases |xs|
  {
    if |xs| > 0 {
      CountSplit(xs[..|xs| - 1], p, q);
    }
  }

  /** Two predicates no element satisfies together count at most all elements. */
  lemma {:induction false} CountDisjoint<T>(xs: seq<T>, p: T -> bool, q: T -> bool)
    requires forall i :: 0 <= i < |xs| ==> !(p(xs[i]) && q(xs[i]))
    ensures Count(xs, p) + Count(xs, q) <= |xs|
    decreases |xs|
  {
    if |xs| > 0 {
      CountDisjoint(xs[..|xs| - 1], p, q);
    }
  }

  /** Three predicates of which each element satisfies exactly one split the count. */
  lemma {:induction false} CountThree<T>(xs: seq<T>, p: T -> bool, q: T -> bool, r: T -> bool)
    requires forall i :: 0 <= i < |xs| ==>
      (if p(xs[i]) then 1 else 0) + (if q(xs[i]) then 1 else 0) + (if r(xs[i]) then 1 else 0) == 1
    ensures Count(xs, p) + Count(xs, q) + Count(xs, r) == |xs|
    decreases |xs|
  {
    if |xs| > 0 {
      CountThree(xs[..|xs| - 1], p, q, r);
    }
  }

  /** `xs.reduce((acc, x) => acc + f(x), 0)`. */
  function Sum<T>(xs: seq<T>, f: T -> int): int
    decreases |xs|
  {
    if |xs| == 0 then 0 else Sum(xs[..|xs| - 1], f) + f(xs[|xs| - 1])
  }

  /** `Sum` evaluated from the left; on a literal sequence it unfolds cheaply. */
  function Total<T>(xs: seq<T>, f: T -> int): int
    decreases |xs|
  {
    if |xs| == 0 then 0 else f(xs[0]) + Total(xs[1..], f)
  }

  lemma {:induction false} TotalSnoc<T>(xs: seq<T>, y: T, f: T -> int)
    ensures Total(xs + [y], f) == Total(xs, f) + f(y)
    decreases |xs|
  {
    if |xs| == 0 {
      assert [y][1..] == [];
    } else {
      assert (xs + [y])[1..] == xs[1..] + [y];
      TotalSnoc(xs[1..], y, f);
    }
  }

  /** Adding up from either end gives the same sum. */
  lemma {:induction false} TotalIsSum<T>(xs: seq<T>, f: T -> int)
    ensures Total(xs, f) == Sum(xs, f)
    decreases |xs|
  {
    if |xs| > 0 {
      var init := xs[..|xs| - 1];
      assert xs == init + [xs[|xs| - 1]];
      TotalIsSum(init, f);
      TotalSnoc(init, xs[|xs| - 1], f);
    }
  }

  /** The sum of a concatenation is the sum of the parts. */
  lemma {:induction false} SumAppend<T>(xs: seq<T>, ys: seq<T>, f: T -> int)
    ensures Sum(xs + ys, f) == Sum(xs, f) + Sum(ys, f)
    decreases |ys|
  {
    if |ys| == 0 {
      assert xs + ys == xs;
    } else {
      var init := ys[..|ys| - 1];
      assert (xs + ys)[..|xs + ys| - 1] == xs + init;
      SumAppend(xs, init, f);
    }
  }

  /** A sum of non-negative terms is non-negative. */
  lemma {:induction false} SumNonNegative<T>(xs: seq<T>, f: T -> int)
    ensures (forall i :: 0 <= i < |xs| ==> f(xs[i]) >= 0) ==> Sum(xs, f) >= 0
    decreases |xs|
  {
    if |xs| > 0 && forall i :: 0 <= i < |xs| ==> f(xs[i]) >= 0 {
      SumNonNegative(xs[..|xs| - 1], f);
    }
  }

  /** `xs.map(f)`. */
  function Map<T, U>(xs: seq<T>, f: T -> U): (r: seq<U>)
    ensures |r| == |xs|
    ensures forall i :: 0 <= i < |xs| ==> r[i] == f(xs[i])
  {
    seq(|xs|, i requires 0 <= i < |xs| => f(xs[i]))
  }

  /** No value occurs twice. */
  predicate NoDup<T(==)>(xs: seq<T>)
  {
    forall i, j :: 0 <= i < j < |xs| ==> xs[i] != xs[j]
  }

  /** Filtering cannot create a duplicate. */
  lemma {:induction false} FilterNoDup<T(!new)>(xs: seq<T>, p: T -> bool)
    ensures NoDup(xs) ==> NoDup(Filter(xs, p))
    decreases |xs|
  {
    if |xs| > 0 && NoDup(xs) {
      var rest := Filter(xs[1..], p);
      FilterNoDup(xs[1..], p);
      if p(xs[0]) {
        assert xs[0] !in rest by {
          assert xs[0] !in xs[1..];
          assert multiset(xs[1..])[xs[0]] == 0;
        }
      }
    }
  }

  /** The set of values of a sequence (`new Set(xs)` as a mathematical set). */
  ghost function Elems<T>(xs: seq<T>): set<T>
  {
    set x | x in xs
  }

  /** Index of the first occurrence of `x`. */
  function FirstIndex<T(==)>(xs: seq<T>, x: T): (k: nat)
    requires x in xs
    ensures k < |xs| && xs[k] == x
    ensures forall j :: 0 <= j < k ==> xs[j] != x
    decreases |xs|
  {
    if xs[0] == x then 0 else 1 + FirstIndex(xs[1..], x)
  }

  /** `Array.from(new Set(xs))`: each value once, in order of first occurrence. */
  function Distinct<T(==,!new)>(xs: seq<T>): (r: seq<T>)
    ensures NoDup(r)
    ensures forall x :: x in r <==> x in xs
    ensures forall i, j :: 0 <= i < j < |r| ==> FirstIndex(xs, r[i]) < FirstIndex(xs, r[j])
    decreases |xs|
  {
    if |xs| == 0 then []
    else
      var init := xs[..|xs| - 1];
      var last := xs[|xs| - 1];
      var d := Distinct(init);
      assert xs == init + [last];
      FirstIndexExtends(init, last);
      if last in d then d
      else
        FirstIndexOfNew(init, last);
        d + [last]
  }

  /** Appending an element does not move first occurrences already present. */
  lemma FirstIndexExtends<T>(init: seq<T>, last: T)
    ensures forall y :: y in init ==> FirstIndex(init + [last], y) == FirstIndex(init, y)
  {
    forall y | y in init
      ensures FirstIndex(init + [last], y) == FirstIndex(init, y)
    {
      var a := FirstIndex(init + [last], y);
      var b := FirstIndex(init, y);
      assert (init + [last])[b] == y;
    }
  }

  /** A new element first occurs at the end. */
  lemma FirstIndexOfNew<T>(init: seq<T>, last: T)
    requires last !in init
    ensures FirstIndex(init + [last], last) == |init|
  {
    var a := FirstIndex(init + [last], last);
  }

  /** A duplicate-free sequence has as many values as positions. */
  lemma {:induction false} NoDupCard<T>(xs: seq<T>)
    requires NoDup(xs)
    ensures |Elems(xs)| == |xs|
    decreases |xs|
  {
    if |xs| > 0 {
      var init := xs[..|xs| - 1];
      var last := xs[|xs| - 1];
      assert xs == init + [last];
      NoDupCard(init);
      assert Elems(xs) == Elems(init) + {last};
      assert last !in Elems(init);
    }
  }

  /** `new Set(xs).size`: the number of distinct values of `xs`. */
  function DistinctCount<T(==,!new)>(xs: seq<T>): (n: nat)
    ensures n == |Elems(xs)|
  {
    var d := Distinct(xs);
    NoDupCard(d);
    assert Elems(d) == Elems(xs);
    |d|
  }
}
