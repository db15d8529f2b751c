/** Latency summaries: nearest-rank percentiles over a sorted copy of the samples. */
module Latency {
  import opened Common

  datatype MetricsError = NoSamples | NegativeLatency

  datatype LatencySummary = LatencySummary(count: nat, minimum: int, p50: int, p95: int, p99: int, maximum: int)

  ghost predicate Sorted(s: seq<int>)
  {
    forall i, j :: 0 <= i <= j < |s| ==> s[i] <= s[j]
  }

  /** How many samples are at most x. */
  function AtMost(s: seq<int>, x: int): nat
  {
    if s == [] then 0 else AtMost(s[..|s| - 1], x) + if s[|s| - 1] <= x then 1 else 0
  }

  lemma {:induction false} AtMostConcat(a: seq<int>, b: seq<int>, x: int)
    ensures AtMost(a + b, x) == AtMost(a, x) + AtMost(b, x)
  {
    if b == [] {
      assert a + b == a;
    } else {
      var init := b[..|b| - 1];
      AtMostConcat(a, init, x);
      assert (a + b)[..|a + b| - 1] == a + init;
    }
  }

  lemma AtMostInsert(a: seq<int>, v: int, b: seq<int>, x: int)
    ensures AtMost(a + [v] + b, x) == AtMost(a + b, x) + if v <= x then 1 else 0
  {
    AtMostConcat(a + [v], b, x);
    AtMostConcat(a, b, x);
    assert (a + [v])[..|a|] == a;
  }

  lemma {:induction false} AtMostBounds(s: seq<int>, x: int)
    ensures AtMost(s, x) <= |s|
    ensures (forall i :: 0 <= i < |s| ==> s[i] <= x) ==> AtMost(s, x) == |s|
    ensures (forall i :: 0 <= i < |s| ==> s[i] > x) ==> AtMost(s, x) == 0
  {
    if s != [] {
      AtMostBounds(s[..|s| - 1], x);
    }
  }

  lemma SplitAtMost(s: seq<int>, k: nat, x: int)
    requires k <= |s|
    ensures AtMost(s, x) == AtMost(s[..k], x) + AtMost(s[k..], x) && AtMost(s[..k], x) <= k
    ensures (forall i :: 0 <= i < k ==> s[i] <= x) ==> AtMost(s[..k], x) == k
    ensures (forall i :: k <= i < |s| ==> s[i] > x) ==> AtMost(s[k..], x) == 0
  {
    hide AtMost;
    AtMostConcat(s[..k], s[k..], x);
    assert s == s[..k] + s[k..];
    AtMostBounds(s[..k], x);
    AtMostBounds(s[k..], x);
  }

  /** In a sorted list, a value has more than k samples at or below it exactly when it is at least the k-th. */
  lemma SortedAtMost(s: seq<int>, k: nat, x: int)
    requires Sorted(s) && k < |s|
    ensures AtMost(s, x) >= k + 1 <==> s[k] <= x
  {
    hide AtMost;
    if s[k] <= x {
      SplitAtMost(s, k + 1, x);
    } else {
      SplitAtMost(s, k, x);
    }
  }

  // Ranks.

  /** The rank as the code computes it, split so that nothing overflows. */
  function Rank(count: nat, percentile: nat): nat
  {
    count / 100 * percentile + (count % 100 * percentile + 99) / 100
  }

  /** The split formula is the rounded-up n * p / 100, lies in 1..n, and no intermediate result exceeds n or 9999. */
  lemma RankIsCeiling(count: nat, percentile: nat)
    requires count > 0 && 0 < percentile <= 100
    ensures Rank(count, percentile) == (count * percentile + 99) / 100
    ensures 100 * (Rank(count, percentile) - 1) < count * percentile <= 100 * Rank(count, percentile)
    ensures 1 <= Rank(count, percentile) <= count
    ensures count / 100 * percentile <= count && count % 100 * percentile + 99 <= 9999
  {
    var q, r := count / 100, count % 100;
    assert count == 100 * q + r && 0 <= r < 100;
    Products(q, r, percentile);
    MulLe(percentile, 100, q);
    MulLe(percentile, 100, r);
    MulLe(1, percentile, q);
    MulLe(1, percentile, r);
    RankBounds(q * percentile, r * percentile, count * percentile);
  }

  lemma Products(q: nat, r: nat, p: nat)
    ensures (100 * q + r) * p == 100 * (q * p) + r * p
  {
  }

  /** With the products as numbers of their own, the rest is linear. */
  lemma RankBounds(high: nat, low: nat, product: nat)
    requires product == 100 * high + low
    ensures high + (low + 99) / 100 == (product + 99) / 100
    ensures product <= 100 * (high + (low + 99) / 100) < product + 100
  {
  }

  lemma RankMonotone(count: nat, p: nat, q: nat)
    requires count > 0 && 0 < p <= q <= 100
    ensures Rank(count, p) <= Rank(count, q)
  {
    MulLe(p, q, count / 100);
    MulLe(p, q, count % 100);
  }

  /** The nearest-rank percentile of any samples: the least sample with at least that many samples at or below it. */
  ghost predicate IsPercentile(samples: seq<int>, percentile: nat, v: int)
  {
    && v in samples
    && AtMost(samples, v) >= (|samples| * percentile + 99) / 100
    && (forall x :: x in samples && AtMost(samples, x) >= (|samples| * percentile + 99) / 100 ==> v <= x)
  }

  /** The sorted copy: the same samples, in order. */
  ghost predicate SortedCopy(samples: seq<int>, sorted: seq<int>)
  {
    && Sorted(sorted) && multiset(sorted) == multiset(samples)
    && (forall x :: AtMost(sorted, x) == AtMost(samples, x))
  }

  method Sort(samples: seq<int>) returns (sorted: seq<int>)
    ensures SortedCopy(samples, sorted)
  {
    sorted := [];
    for n := 0 to |samples|
      invariant SortedCopy(samples[..n], sorted)
    {
      assert samples[..n + 1] == samples[..n] + [samples[n]];
      sorted := Insert(samples[..n], sorted, samples[n]);
    }
    assert samples[..|samples|] == samples;
  }

  method Insert(ghost samples: seq<int>, sorted: seq<int>, v: int) returns (r: seq<int>)
    requires SortedCopy(samples, sorted)
    ensures SortedCopy(samples + [v], r)
  {
    var at := |sorted|;
    while at > 0 && v < sorted[at - 1]
      invariant 0 <= at <= |sorted|
      invariant forall k :: at <= k < |sorted| ==> v < sorted[k]
    {
      at := at - 1;
    }
    r := sorted[..at] + [v] + sorted[at..];
    InsertKeepsCopy(samples, sorted, v, at);
  }

  lemma InsertKeepsCopy(samples: seq<int>, sorted: seq<int>, v: int, at: nat)
    requires SortedCopy(samples, sorted) && at <= |sorted|
    requires at > 0 ==> sorted[at - 1] <= v
    requires forall k :: at <= k < |sorted| ==> v < sorted[k]
    ensures SortedCopy(samples + [v], sorted[..at] + [v] + sorted[at..])
  {
    hide AtMost, Sorted;
    var a, b := sorted[..at], sorted[at..];
    assert sorted == a + b;
    InsertSorted(a, v, b);
    forall x
      ensures AtMost(a + [v] + b, x) == AtMost(samples + [v], x)
    {
      AtMostInsert(a, v, b, x);
      AtMostInsert(samples, v, [], x);
      assert samples + [v] + [] == samples + [v] && samples + [] == samples;
    }
    assert multiset(a + [v] + b) == multiset(a + b) + multiset{v};
  }

  lemma InsertSorted(a: seq<int>, v: int, b: seq<int>)
    requires Sorted(a + b) && (a != [] ==> a[|a| - 1] <= v) && forall k :: 0 <= k < |b| ==> v < b[k]
    ensures Sorted(a + [v] + b)
  {
    var s, r := a + b, a + [v] + b;
    forall i, j | 0 <= i <= j < |r|
      ensures r[i] <= r[j]
    {
      assert i < |a| ==> r[i] == s[i] && s[i] <= s[|a| - 1] == a[|a| - 1];
      assert i > |a| ==> r[i] == s[i - 1];
      assert j < |a| ==> r[j] == s[j];
      assert j > |a| ==> r[j] == s[j - 1] == b[j - |a| - 1];
    }
  }

  lemma RankedIsPercentile(samples: seq<int>, sorted: seq<int>, percentile: nat)
    requires samples != [] && SortedCopy(samples, sorted) && 0 < percentile <= 100
    ensures |sorted| == |samples| && 1 <= Rank(|samples|, percentile) <= |samples|
    ensures IsPercentile(samples, percentile, sorted[Rank(|samples|, percentile) - 1])
  {
    assert |sorted| == |multiset(sorted)| == |multiset(samples)| == |samples|;
    RankIsCeiling(|samples|, percentile);
    var k := Rank(|samples|, percentile) - 1;
    hide Rank, AtMost;
    SortedAtMost(sorted, k, sorted[k]);
    assert sorted[k] in multiset(samples);
    forall x | x in samples && AtMost(samples, x) >= k + 1
      ensures sorted[k] <= x
    {
      SortedAtMost(sorted, k, x);
    }
  }

  method SummarizeLatencies(samples: seq<int>) returns (r: Result<LatencySummary, MetricsError>)
    ensures r == Failure(NoSamples) <==> samples == []
    ensures r == Failure(NegativeLatency) <==> exists i :: 0 <= i < |samples| && samples[i] < 0
    ensures r.Success? ==>
              var s := r.value;
              && s.count == |samples|
              && s.minimum in samples && (forall x :: x in samples ==> s.minimum <= x <= s.maximum) && s.maximum in samples
              && IsPercentile(samples, 50, s.p50) && IsPercentile(samples, 95, s.p95) && IsPercentile(samples, 99, s.p99)
              && s.minimum <= s.p50 <= s.p95 <= s.p99 <= s.maximum
  {
    if samples == [] {
      return Failure(NoSamples);
    }
    for i := 0 to |samples|
      invariant forall k :: 0 <= k < i ==> samples[k] >= 0
    {
      if samples[i] < 0 {
        return Failure(NegativeLatency);
      }
    }
    var sorted := Sort(samples);
    var n := |samples|;
    RankedIsPercentile(samples, sorted, 50);
    RankedIsPercentile(samples, sorted, 95);
    RankedIsPercentile(samples, sorted, 99);
    RankMonotone(n, 50, 95);
    RankMonotone(n, 95, 99);
    Extremes(samples, sorted);
    hide Rank, IsPercentile, AtMost;
    r := Success(LatencySummary(n, sorted[0], sorted[Rank(n, 50) - 1], sorted[Rank(n, 95) - 1],
                                sorted[Rank(n, 99) - 1], sorted[n - 1]));
  }

  lemma Extremes(samples: seq<int>, sorted: seq<int>)
    requires samples != [] && SortedCopy(samples, sorted) && |sorted| == |samples|
    ensures sorted[0] in samples && sorted[|sorted| - 1] in samples
    ensures forall x :: x in samples ==> sorted[0] <= x <= sorted[|sorted| - 1]
  {
    assert sorted[0] in multiset(samples) && sorted[|sorted| - 1] in multiset(samples);
    forall x | x in samples
      ensures sorted[0] <= x <= sorted[|sorted| - 1]
    {
      assert x in multiset(sorted);
    }
  }
}
