/** Spreading ledger entries over fixed chart buckets: spreadCostEntries in
    control-plane/src/costs.ts.  Bucket arithmetic is over `real`. */
module CostBuckets {
  datatype Entry = Entry(tsMs: int, seconds: real, realCost: real, billedCost: real)

  /** The chart: `count` buckets of `width` seconds from `t0` on. */
  datatype Chart = Chart(t0: real, width: real, count: nat)

  function End(e: Entry): real { e.tsMs as real / 1000.0 }

  /** The ledger spans seconds, but never less than a millisecond. */
  function Span(e: Entry): (s: real)
    ensures s > 0.0
  {
    if e.seconds > 0.001 then e.seconds else 0.001
  }

  function Start(e: Entry): real { End(e) - Span(e) }

  function Max(a: real, b: real): real { if a >= b then a else b }
  function Min(a: real, b: real): real { if a <= b then a else b }

  /** Length of the intersection of two intervals. */
  function Overlap(lo: real, hi: real, lo': real, hi': real): real {
    Max(0.0, Min(hi, hi') - Max(lo, lo'))
  }

  function BucketStart(c: Chart, i: int): real { c.t0 + (i as real) * c.width }

  /** The share of entry `e` that lies in bucket `i`. */
  function Share(c: Chart, e: Entry, i: int): real {
    Overlap(Start(e), End(e), BucketStart(c, i), BucketStart(c, i) + c.width) / Span(e)
  }

  /** The simple definition: every entry contributes to every bucket by its share. */
  function Bucket(c: Chart, es: seq<Entry>, i: int, cost: Entry -> real): real {
    if es == [] then 0.0 else Bucket(c, es[..|es|-1], i, cost) + cost(es[|es|-1]) * Share(c, es[|es|-1], i)
  }

  function RealCost(): Entry -> real { (e: Entry) => e.realCost }
  function BilledCost(): Entry -> real { (e: Entry) => e.billedCost }

  /** An entry's span ends at its timestamp and is as long as its seconds, a millisecond at least; the
      buckets lie one behind the other from the chart's start on. */
  lemma SpansAndBuckets(c: Chart, e: Entry, i: nat)
    ensures End(e) * 1000.0 == e.tsMs as real
    ensures End(e) - Start(e) >= 0.001 && End(e) - Start(e) >= e.seconds
    ensures End(e) - Start(e) == 0.001 || End(e) - Start(e) == e.seconds
    ensures BucketStart(c, 0) == c.t0 && BucketStart(c, i + 1) == BucketStart(c, i) + c.width
    ensures RealCost()(e) == e.realCost && BilledCost()(e) == e.billedCost
  {
    BucketsAbut(c, i);
  }

  // ---------------------------------------------------------------------------------------
  // The first..last loop visits every bucket an entry touches

  function Index(c: Chart, at: real): int
    requires c.width > 0.0
  {
    ((at - c.t0) / c.width).Floor
  }

  lemma Scale(a: real, b: real, w: real)
    requires a <= b && w >= 0.0
    ensures a * w <= b * w
  {
  }

  lemma QuotientTimes(x: real, w: real)
    requires w > 0.0
    ensures (x / w) * w == x
  {
  }

  lemma ScaleStrictly(a: real, b: real, w: real)
    requires a < b && w > 0.0
    ensures a * w < b * w
  {
    assert (b - a) * w > 0.0;
    assert b * w == a * w + (b - a) * w;
  }

  lemma OneMore(k: real, w: real)
    ensures (k + 1.0) * w == k * w + w
  {
  }

  lemma ScaledBelow(k: real, q: real, w: real, x: real)
    requires w > 0.0 && q * w == x && k <= q
    ensures k * w <= x
  {
    Scale(k, q, w);
  }

  lemma ScaledAbove(k: real, q: real, w: real, x: real)
    requires w > 0.0 && q * w == x && q < k + 1.0
    ensures x < k * w + w
  {
    ScaleStrictly(q, k + 1.0, w);
    OneMore(k, w);
  }

  /** A point lies in the bucket its index names. */
  lemma IndexBrackets(c: Chart, at: real)
    requires c.width > 0.0
    ensures BucketStart(c, Index(c, at)) <= at < BucketStart(c, Index(c, at)) + c.width
  {
    var q := (at - c.t0) / c.width;
    assert q * c.width == at - c.t0 by { QuotientTimes(at - c.t0, c.width); }
    ScaledBelow(q.Floor as real, q, c.width, at - c.t0);
    ScaledAbove(q.Floor as real, q, c.width, at - c.t0);
  }

  lemma BucketsAbut(c: Chart, i: int)
    ensures BucketStart(c, i + 1) == BucketStart(c, i) + c.width
  {
    Distributes(c.width, i as real, 1.0);
  }

  lemma BucketsOrdered(c: Chart, i: int, j: int)
    requires i <= j && c.width > 0.0
    ensures BucketStart(c, i) <= BucketStart(c, j)
  {
    Scale(i as real, j as real, c.width);
  }

  lemma ShareOf(c: Chart, e: Entry, i: int)
    ensures var overlap := Min(End(e), BucketStart(c, i) + c.width) - Max(Start(e), BucketStart(c, i));
      Share(c, e, i) == if overlap > 0.0 then overlap / Span(e) else 0.0
  {
    hide BucketStart, Span, End, Start;
    assert 0.0 / Span(e) == 0.0;
  }

  lemma OutsideIsEmpty(c: Chart, e: Entry, i: int)
    requires c.width > 0.0
    requires i < Index(c, Start(e)) || i > Index(c, End(e))
    ensures Share(c, e, i) == 0.0
  {
    hide Share, Span, BucketStart, Start, End, Index;
    BucketsAbut(c, i);
    ShareOf(c, e, i);
    if i < Index(c, Start(e)) {
      IndexBrackets(c, Start(e));
      BucketsOrdered(c, i + 1, Index(c, Start(e)));
    } else {
      IndexBrackets(c, End(e));
      BucketsAbut(c, Index(c, End(e)));
      BucketsOrdered(c, Index(c, End(e)) + 1, i);
    }
  }

  method SpreadCostEntries(entries: seq<Entry>, c: Chart) returns (realSums: array<real>, billedSums: array<real>)
    requires c.width > 0.0
    ensures fresh(realSums) && fresh(billedSums)
    ensures realSums.Length == c.count && billedSums.Length == c.count
    ensures forall i :: 0 <= i < c.count ==> realSums[i] == Bucket(c, entries, i, RealCost())
    ensures forall i :: 0 <= i < c.count ==> billedSums[i] == Bucket(c, entries, i, BilledCost())
  {
    realSums := new real[c.count](_ => 0.0);
    billedSums := new real[c.count](_ => 0.0);
    for n := 0 to |entries|
      invariant forall i :: 0 <= i < c.count ==> realSums[i] == Bucket(c, entries[..n], i, RealCost())
      invariant forall i :: 0 <= i < c.count ==> billedSums[i] == Bucket(c, entries[..n], i, BilledCost())
    {
      SpreadOne(entries[..n], entries[n], c, realSums, billedSums);
      assert entries[..n+1] == entries[..n] + [entries[n]];
    }
    assert entries[..|entries|] == entries;
  }

  /** What one entry adds to bucket `k` once the loop from `first` to `last` has passed `i`. */
  function Added(c: Chart, e: Entry, cost: real, k: int, first: int, last: int, i: int): real {
    if first <= k < i && k <= last then cost * Share(c, e, k) else 0.0
  }

  /** The inner loop: one entry added to the buckets it touches. */
  method SpreadOne(ghost before: seq<Entry>, e: Entry, c: Chart, realSums: array<real>, billedSums: array<real>)
    requires c.width > 0.0
    requires realSums != billedSums && realSums.Length == c.count && billedSums.Length == c.count
    requires forall i :: 0 <= i < c.count ==> realSums[i] == Bucket(c, before, i, RealCost())
    requires forall i :: 0 <= i < c.count ==> billedSums[i] == Bucket(c, before, i, BilledCost())
    modifies realSums, billedSums
    ensures forall i :: 0 <= i < c.count ==> realSums[i] == Bucket(c, before + [e], i, RealCost())
    ensures forall i :: 0 <= i < c.count ==> billedSums[i] == Bucket(c, before + [e], i, BilledCost())
  {
    hide Index, Share, BucketStart, Span, End, Start, Min, Max, Bucket;
    var end := End(e);
    var start := Start(e);
    var first := if Index(c, start) > 0 then Index(c, start) else 0;
    var last := if Index(c, end) < c.count - 1 then Index(c, end) else c.count - 1;
    var i := first;
    while i <= last
      invariant first <= i
      invariant forall k :: 0 <= k < c.count ==> realSums[k] == old(realSums[k]) + Added(c, e, e.realCost, k, first, last, i)
      invariant forall k :: 0 <= k < c.count ==> billedSums[k] == old(billedSums[k]) + Added(c, e, e.billedCost, k, first, last, i)
    {
      var bStart := BucketStart(c, i);
      var overlap := Min(end, bStart + c.width) - Max(start, bStart);
      ShareOf(c, e, i);
      if overlap > 0.0 {
        var f := overlap / Span(e);
        realSums[i] := realSums[i] + e.realCost * f;
        billedSums[i] := billedSums[i] + e.billedCost * f;
      }
      i := i + 1;
    }
    forall k | 0 <= k < c.count
      ensures Bucket(c, before + [e], k, RealCost()) == Bucket(c, before, k, RealCost()) + Added(c, e, e.realCost, k, first, last, i)
      ensures Bucket(c, before + [e], k, BilledCost()) == Bucket(c, before, k, BilledCost()) + Added(c, e, e.billedCost, k, first, last, i)
    {
      if k < Index(c, start) || k > Index(c, end) { OutsideIsEmpty(c, e, k); }
      BucketAppend(c, before, e, k);
    }
  }

  lemma BucketAppend(c: Chart, before: seq<Entry>, e: Entry, k: int)
    ensures Bucket(c, before + [e], k, RealCost()) == Bucket(c, before, k, RealCost()) + e.realCost * Share(c, e, k)
    ensures Bucket(c, before + [e], k, BilledCost()) == Bucket(c, before, k, BilledCost()) + e.billedCost * Share(c, e, k)
  {
    assert (before + [e])[..|before|] == before;
    hide Share;
  }

  // ---------------------------------------------------------------------------------------
  // Conservation

  /** The first `n` buckets together. */
  function Total(c: Chart, es: seq<Entry>, n: nat, cost: Entry -> real): real {
    if n == 0 then 0.0 else Total(c, es, n - 1, cost) + Bucket(c, es, n - 1, cost)
  }

  /** What the window of the first `n` buckets keeps of the entries. */
  function Inside(c: Chart, es: seq<Entry>, n: nat, cost: Entry -> real): real {
    if es == [] then 0.0
    else
      var e := es[|es|-1];
      Inside(c, es[..|es|-1], n, cost)
      + cost(e) * (Overlap(Start(e), End(e), c.t0, BucketStart(c, n)) / Span(e))
  }

  function ShareSum(c: Chart, e: Entry, n: nat): real {
    if n == 0 then 0.0 else ShareSum(c, e, n - 1) + Share(c, e, n - 1)
  }

  lemma OverlapAdds(lo: real, hi: real, a: real, b: real, c: real)
    requires lo <= hi && a <= b <= c
    ensures Overlap(lo, hi, a, b) + Overlap(lo, hi, b, c) == Overlap(lo, hi, a, c)
  {
  }

  lemma DivAdds(a: real, b: real, s: real)
    requires s > 0.0
    ensures a / s + b / s == (a + b) / s
  {
  }

  /** Adjacent buckets cover the window: the overlaps add up. */
  lemma {:induction false} SharesCoverWindow(c: Chart, e: Entry, n: nat)
    requires c.width > 0.0
    ensures ShareSum(c, e, n) == Overlap(Start(e), End(e), c.t0, BucketStart(c, n)) / Span(e)
  {
    if n > 0 {
      SharesCoverWindow(c, e, n - 1);
      var mid, end := BucketStart(c, n - 1), BucketStart(c, n);
      BucketsOrdered(c, 0, n - 1);
      BucketsAbut(c, n - 1);
      assert BucketStart(c, 0) == c.t0;
      hide Overlap, BucketStart, Span;
      OverlapAdds(Start(e), End(e), c.t0, mid, end);
      DivAdds(Overlap(Start(e), End(e), c.t0, mid), Overlap(Start(e), End(e), mid, end), Span(e));
    }
  }

  lemma Distributes(a: real, x: real, y: real)
    ensures a * x + a * y == a * (x + y)
    ensures x * a + y * a == (x + y) * a
  {
  }

  lemma {:induction false} TotalSplits(c: Chart, es: seq<Entry>, n: nat, cost: Entry -> real)
    requires es != []
    ensures Total(c, es, n, cost)
         == Total(c, es[..|es|-1], n, cost) + cost(es[|es|-1]) * ShareSum(c, es[|es|-1], n)
  {
    hide Share;
    if n > 0 {
      var e := es[|es|-1];
      TotalSplits(c, es, n - 1, cost);
      Distributes(cost(e), ShareSum(c, e, n - 1), Share(c, e, n - 1));
    }
  }

  /** Summed over the buckets, each entry contributes its cost times the part of its span that
      lies in the window. */
  lemma {:induction false} SpreadingIsExact(c: Chart, es: seq<Entry>, n: nat, cost: Entry -> real)
    requires c.width > 0.0
    ensures Total(c, es, n, cost) == Inside(c, es, n, cost)
  {
    hide Total, ShareSum, Overlap, BucketStart, Span, Start, End;
    if es == [] {
      EmptyTotal(c, n, cost);
    } else {
      var e := es[|es|-1];
      SpreadingIsExact(c, es[..|es|-1], n, cost);
      TotalSplits(c, es, n, cost);
      SharesCoverWindow(c, e, n);
      SameTimes(cost(e), ShareSum(c, e, n), Overlap(Start(e), End(e), c.t0, BucketStart(c, n)) / Span(e));
    }
  }

  lemma SameTimes(x: real, a: real, b: real)
    requires a == b
    ensures x * a == x * b
  {
  }

  lemma {:induction false} EmptyTotal(c: Chart, n: nat, cost: Entry -> real)
    ensures Total(c, [], n, cost) == 0.0
  {
    if n > 0 { EmptyTotal(c, n - 1, cost); }
  }

  function CostSum(es: seq<Entry>, cost: Entry -> real): real {
    if es == [] then 0.0 else CostSum(es[..|es|-1], cost) + cost(es[|es|-1])
  }

  /** An entry inside the window has all of its span in it. */
  lemma WholeShare(e: Entry, lo: real, hi: real)
    requires lo <= Start(e) && End(e) <= hi
    ensures Overlap(Start(e), End(e), lo, hi) / Span(e) == 1.0
  {
    assert Overlap(Start(e), End(e), lo, hi) == Span(e);
    OverItself(Span(e));
  }

  lemma OverItself(x: real)
    requires x > 0.0
    ensures x / x == 1.0
  {
  }

  lemma TimesOne(x: real, one: real)
    requires one == 1.0
    ensures x * one == x
  {
  }

  /** Entries that lie inside the window are conserved to the last unit of money. */
  lemma {:induction false} InsideIsConserved(c: Chart, es: seq<Entry>, cost: Entry -> real)
    requires c.width > 0.0
    requires forall e <- es :: c.t0 <= Start(e) && End(e) <= BucketStart(c, c.count)
    ensures Total(c, es, c.count, cost) == CostSum(es, cost)
  {
    SpreadingIsExact(c, es, c.count, cost);
    InsideSum(c, es, cost);
  }

  lemma {:induction false} InsideSum(c: Chart, es: seq<Entry>, cost: Entry -> real)
    requires forall e <- es :: c.t0 <= Start(e) && End(e) <= BucketStart(c, c.count)
    ensures Inside(c, es, c.count, cost) == CostSum(es, cost)
  {
    if es != [] {
      var e := es[|es|-1];
      InsideSum(c, es[..|es|-1], cost);
      assert e in es;
      WholeShare(e, c.t0, BucketStart(c, c.count));
      TimesOne(cost(e), Overlap(Start(e), End(e), c.t0, BucketStart(c, c.count)) / Span(e));
    }
  }
}
