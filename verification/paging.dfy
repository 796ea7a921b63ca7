/** Pagination as every list page does it: `filtered.slice(start, start + k)` with
    `start = (currentPage - 1) * k`, and `Math.ceil(filtered.length / k)` pages. */
module Paging {

  function Min(a: int, b: int): int { if a <= b then a else b }

  /** How `Array.prototype.slice` turns a relative index into a position:
      a negative index counts from the end, and both ends are clamped to the array. */
  function Clamp(i: int, len: nat): (r: nat)
    ensures r <= len
    ensures 0 <= i <= len ==> r == i
    ensures i > len ==> r == len
    ensures i < 0 ==> r == if len + i < 0 then 0 else len + i
  {
    if i < 0 then (if len + i < 0 then 0 else len + i)
    else if i > len then len
    else i
  }

  /** `xs.slice(start, end)`. */
  function Slice<T>(xs: seq<T>, start: int, end: int): (r: seq<T>)
    ensures forall x :: x in r ==> x in xs
    ensures 0 <= start <= end <= |xs| ==> r == xs[start..end]
  {
    var s := Clamp(start, |xs|);
    var e := Clamp(end, |xs|);
    if s < e then xs[s..e] else []
  }

  /** Whatever the bounds, the slice is the run of `xs` from the clamped start up to
      the clamped end, and empty when they cross. */
  lemma SliceWindow<T>(xs: seq<T>, start: int, end: int)
    ensures var r, s, e := Slice(xs, start, end), Clamp(start, |xs|), Clamp(end, |xs|);
      && |r| == (if s < e then e - s else 0)
      && forall i :: 0 <= i < |r| ==> r[i] == xs[s + i]
  {
  }

  /** The rows shown on page `page` when `k` rows fit on a page. The page is not
      clamped: a page past the end is empty, and page 0 is empty too. */
  function Page<T>(xs: seq<T>, page: int, k: nat): (r: seq<T>)
    ensures |r| <= k
    ensures forall x :: x in r ==> x in xs
    ensures page >= 1 ==>
      var start := (page - 1) * k;
      start >= 0 && r == xs[Min(start, |xs|)..Min(start + k, |xs|)]
    ensures page == 0 ==> r == []
  {
    var start := (page - 1) * k;
    assert page >= 1 ==> start >= 0 by {
      if page >= 1 { MulMonotone(0, page - 1, k); }
    }
    Slice(xs, start, start + k)
  }

  /** `Math.ceil(n / k)`: the least number of pages of `k` rows holding `n` rows. */
  function TotalPages(n: nat, k: nat): (t: nat)
    requires k > 0
    ensures t * k >= n
    ensures t > 0 ==> (t - 1) * k < n
    ensures t == 0 <==> n == 0
  {
    (n + k - 1) / k
  }

  /** Every page up to the last is full except the last one, which holds the
      remainder; each of them is non-empty, and every page after them is empty. */
  lemma PageSizes<T>(xs: seq<T>, page: int, k: nat)
    requires k > 0
    requires page >= 1
    ensures var t := TotalPages(|xs|, k);
      && (page < t ==> |Page(xs, page, k)| == k)
      && (page == t ==> |Page(xs, page, k)| == |xs| - (t - 1) * k > 0)
      && (page > t ==> Page(xs, page, k) == [])
  {
    var t := TotalPages(|xs|, k);
    if page < t {
      FullPage(xs, page, k, t);
    } else if page > t {
      PastTheEnd(xs, page, k, t);
    } else {
      LastPage(xs, k, t);
    }
  }

  lemma FullPage<T>(xs: seq<T>, page: int, k: nat, t: nat)
    requires k > 0 && 1 <= page < t
    requires (t - 1) * k < |xs|
    ensures |Page(xs, page, k)| == k
  {
    var lo, hi := (page - 1) * k, page * k;
    StepDown(page, k);
    MulMonotone(0, page - 1, k);
    MulMonotone(page, t - 1, k);
    assert Min(lo, |xs|) == lo && Min(lo + k, |xs|) == hi;
  }

  lemma LastPage<T>(xs: seq<T>, k: nat, t: nat)
    requires k > 0 && t >= 1
    requires (t - 1) * k < |xs| <= t * k
    ensures |Page(xs, t, k)| == |xs| - (t - 1) * k > 0
  {
    var lo, hi := (t - 1) * k, t * k;
    MulMonotone(0, t - 1, k);
    assert 0 <= lo < |xs| <= hi;
    assert Page(xs, t, k) == xs[lo..|xs|];
  }

  lemma PastTheEnd<T>(xs: seq<T>, page: int, k: nat, t: nat)
    requires k > 0 && page > t
    requires t * k >= |xs|
    ensures Page(xs, page, k) == []
  {
    var lo := (page - 1) * k;
    MulMonotone(t, page - 1, k);
    assert lo >= |xs|;
  }

  lemma MulMonotone(a: int, b: int, k: nat)
    requires a <= b
    ensures a * k <= b * k
  {
    assert b * k - a * k == (b - a) * k;
  }

  lemma StepDown(p: int, k: int)
    ensures (p - 1) * k == p * k - k
  {
  }

  /** Pages 1..m laid end to end. */
  function Concat<T>(xs: seq<T>, k: nat, m: nat): seq<T>
  {
    if m == 0 then [] else Concat(xs, k, m - 1) + Page(xs, m, k)
  }

  /** The first `m` pages are a prefix of the rows, in order. */
  lemma {:induction false} ConcatIsPrefix<T>(xs: seq<T>, k: nat, m: nat)
    ensures Concat(xs, k, m) == xs[..Min(m * k, |xs|)]
  {
    if m > 0 {
      ConcatIsPrefix(xs, k, m - 1);
      assert (m - 1) * k <= m * k;
      assert xs[..Min((m - 1) * k, |xs|)] + xs[Min((m - 1) * k, |xs|)..Min(m * k, |xs|)]
          == xs[..Min(m * k, |xs|)];
    }
  }

  /** Paging loses and repeats nothing: pages 1..TotalPages put together are the rows. */
  lemma PagesPartition<T>(xs: seq<T>, k: nat)
    requires k > 0
    ensures Concat(xs, k, TotalPages(|xs|, k)) == xs
  {
    ConcatIsPrefix(xs, k, TotalPages(|xs|, k));
  }
}

/** The state every list page keeps besides its filter criteria. */
module ListView {

  /** The React state of a list page: its criteria and `currentPage`. */
  datatype View<C> = View(criteria: C, page: int)

  /** `setCurrentPage(p)` from the pagination control: the page is taken as given,
      without clamping, and the criteria stay as they are. */
  function SetPage<C>(v: View<C>, p: int): (r: View<C>)
    ensures r.criteria == v.criteria && r.page == p
  {
    v.(page := p)
  }
}
