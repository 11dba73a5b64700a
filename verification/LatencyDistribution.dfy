/**
 Exact nearest-rank percentiles in constant memory: scripts/endurance-metrics.ts, `LatencyDistribution`,
 lines 52-76. Milliseconds and the fractions 0.5, 0.95 and 0.99 are exact reals; buckets are 32-bit.
 */
module LatencyDistribution {
  import opened Wrappers

  /** A JavaScript number: a finite one, or NaN or an infinity. */
  datatype Number = Finite(value: real) | NotFinite

  datatype Summary = Summary(count: nat, p50: nat, p95: nat, p99: nat, max: real)

  const BUCKETS := 300001
  const WRAP := 0x1_0000_0000

  function Ceil(x: real): (n: int)
    ensures (n - 1) as real < x <= n as real
  {
    -((-x).Floor)
  }

  predicate InRange(x: Number) { x.Finite? && 0.0 <= x.value <= 300000.0 }

  /** The rounded-up samples, oldest first. */
  function Ceilings(samples: seq<real>): (r: seq<int>)
    ensures |r| == |samples|
  {
    seq(|samples|, i requires 0 <= i < |samples| => Ceil(samples[i]))
  }

  function CountAt(values: seq<int>, v: int): nat {
    if values == [] then 0 else CountAt(values[..|values| - 1], v) + (if values[|values| - 1] == v then 1 else 0)
  }

  function CountUpTo(values: seq<int>, v: int): nat {
    if values == [] then 0 else CountUpTo(values[..|values| - 1], v) + (if values[|values| - 1] <= v then 1 else 0)
  }

  /** Insertion into an ascending list, and the ascending list of some values: the reference the histogram is held to. */
  function InsertSorted(values: seq<int>, v: int): seq<int> {
    if values == [] || values[|values| - 1] <= v then values + [v]
    else InsertSorted(values[..|values| - 1], v) + [values[|values| - 1]]
  }

  function Sorted(values: seq<int>): seq<int> {
    if values == [] then [] else InsertSorted(Sorted(values[..|values| - 1]), values[|values| - 1])
  }

  predicate Ascending(values: seq<int>) { forall i, j :: 0 <= i < j < |values| ==> values[i] <= values[j] }

  lemma {:induction false} InsertKeepsElements(values: seq<int>, v: int)
    ensures |InsertSorted(values, v)| == |values| + 1
    ensures multiset(InsertSorted(values, v)) == multiset(values) + multiset{v}
  {
    if values != [] && values[|values| - 1] > v {
      var front, last := values[..|values| - 1], values[|values| - 1];
      InsertKeepsElements(front, v);
      assert values == front + [last];
    }
  }

  lemma {:induction false} InsertKeepsOrder(values: seq<int>, v: int)
    requires Ascending(values)
    ensures Ascending(InsertSorted(values, v))
  {
    if values != [] && values[|values| - 1] > v {
      var front, last := values[..|values| - 1], values[|values| - 1];
      var inner := InsertSorted(front, v);
      InsertKeepsOrder(front, v);
      InsertKeepsElements(front, v);
      hide InsertSorted;
      forall k | 0 <= k < |inner| ensures inner[k] <= last {
        assert inner[k] in multiset(front) + multiset{v};
      }
    }
  }

  lemma {:induction false} SortedIsSorted(values: seq<int>)
    ensures Ascending(Sorted(values)) && |Sorted(values)| == |values|
    ensures multiset(Sorted(values)) == multiset(values)
  {
    if values != [] {
      var front, last := values[..|values| - 1], values[|values| - 1];
      SortedIsSorted(front);
      InsertKeepsOrder(Sorted(front), last);
      InsertKeepsElements(Sorted(front), last);
      assert values == front + [last];
    }
  }

  lemma {:induction false} CountAfterInsert(values: seq<int>, v: int, b: int)
    ensures CountUpTo(InsertSorted(values, v), b) == CountUpTo(values, b) + (if v <= b then 1 else 0)
  {
    if values == [] || values[|values| - 1] <= v {
      assert (values + [v])[..|values|] == values;
    } else {
      var front, last := values[..|values| - 1], values[|values| - 1];
      CountAfterInsert(front, v, b);
      var inner := InsertSorted(front, v);
      assert (inner + [last])[..|inner|] == inner;
    }
  }

  lemma {:induction false} CountAfterSort(values: seq<int>, b: int)
    ensures CountUpTo(Sorted(values), b) == CountUpTo(values, b)
  {
    if values != [] {
      CountAfterSort(values[..|values| - 1], b);
      CountAfterInsert(Sorted(values[..|values| - 1]), values[|values| - 1], b);
    }
  }

  lemma {:induction false} CountUpToBound(values: seq<int>, v: int)
    ensures CountUpTo(values, v) <= |values|
    ensures (forall k :: 0 <= k < |values| ==> values[k] <= v) ==> CountUpTo(values, v) == |values|
  {
    if values != [] { CountUpToBound(values[..|values| - 1], v); }
  }

  /** In an ascending list, the element at a rank is at most v exactly when that many elements are. */
  lemma {:induction false} RankElement(values: seq<int>, rank: nat, v: int)
    requires Ascending(values) && 0 < rank <= |values|
    ensures values[rank - 1] <= v <==> CountUpTo(values, v) >= rank
  {
    var front, last := values[..|values| - 1], values[|values| - 1];
    assert forall k :: 0 <= k < |front| ==> front[k] == values[k];
    if rank < |values| {
      RankElement(front, rank, v);
      assert values[rank - 1] <= last;
    } else {
      if last <= v { CountUpToBound(values, v); } else { CountUpToBound(front, v); }
    }
  }

  /** The rank of a fraction among n samples. */
  function Rank(n: nat, fraction: real): (r: nat)
    requires 0.0 < fraction <= 1.0
    ensures r <= n && (n > 0 ==> r > 0)
  {
    if n == 0 then 0 else
    assert 0.0 < n as real * fraction <= n as real;
    Ceil(n as real * fraction)
  }

  /** The nearest-rank percentile: the element at rank ceil(n * fraction) of the ascending samples. */
  function NearestRank(values: seq<int>, fraction: real): int
    requires 0.0 < fraction <= 1.0
  {
    SortedIsSorted(values);
    if values == [] then 0 else Sorted(values)[Rank(|values|, fraction) - 1]
  }

  function Bucket(values: seq<int>, v: int): nat { CountAt(values, v) % WRAP }

  function MaxOf(samples: seq<real>): real {
    if samples == [] then 0.0 else
    var m := MaxOf(samples[..|samples| - 1]);
    if m >= samples[|samples| - 1] then m else samples[|samples| - 1]
  }

  lemma {:induction false} CountAtBound(values: seq<int>, v: int)
    ensures CountAt(values, v) <= |values|
  {
    if values != [] { CountAtBound(values[..|values| - 1], v); }
  }

  lemma {:induction false} CountStep(values: seq<int>, v: int)
    ensures CountUpTo(values, v) == CountUpTo(values, v - 1) + CountAt(values, v)
  {
    if values != [] { CountStep(values[..|values| - 1], v); }
  }

  lemma {:induction false} NoneBelow(values: seq<int>)
    requires forall k :: 0 <= k < |values| ==> values[k] >= 0
    ensures CountUpTo(values, -1) == 0
  {
    if values != [] { NoneBelow(values[..|values| - 1]); }
  }

  /** What scanning the buckets up to v counts. */
  function Scanned(values: seq<int>, v: int): nat
    decreases if v < 0 then 0 else v + 1
  {
    if v < 0 then 0 else Scanned(values, v - 1) + Bucket(values, v)
  }

  /** Below the width of a bucket the buckets sum to the count, and up to each value to the values up to it. */
  lemma {:induction false} BucketsSum(values: seq<int>, v: int)
    requires (forall k :: 0 <= k < |values| ==> 0 <= values[k]) && |values| < WRAP && v >= -1
    ensures Scanned(values, v) == CountUpTo(values, v)
    ensures (forall k :: 0 <= k < |values| ==> values[k] <= v) ==> Scanned(values, v) == |values|
    decreases v + 1
  {
    CountUpToBound(values, v);
    if v < 0 {
      NoneBelow(values);
    } else {
      BucketsSum(values, v - 1);
      CountStep(values, v);
      CountAtBound(values, v);
    }
  }

  lemma {:induction false} AllEqual(values: seq<int>, x: int, v: int)
    requires forall k :: 0 <= k < |values| ==> values[k] == x
    ensures CountAt(values, v) == if v == x then |values| else 0
  {
    if values != [] { AllEqual(values[..|values| - 1], x, v); }
  }

  lemma {:induction false} ScannedGrows(values: seq<int>, low: int, high: int)
    requires -1 <= low <= high
    ensures Scanned(values, low) <= Scanned(values, high)
    decreases high - low
  {
    if low < high { ScannedGrows(values, low, high - 1); }
  }

  /** 2^32 equal latencies wrap their bucket to nothing, and every percentile throws. */
  lemma {:induction false} FullBucketIsLost(values: seq<int>, x: int, v: int)
    requires |values| == WRAP && forall k :: 0 <= k < |values| ==> values[k] == x
    ensures Scanned(values, v) == 0
    decreases if v < 0 then 0 else v + 1
  {
    if v >= 0 {
      FullBucketIsLost(values, x, v - 1);
      AllEqual(values, x, v);
    }
  }

  lemma CeilingsInRange(samples: seq<real>)
    requires forall k :: 0 <= k < |samples| ==> 0.0 <= samples[k] <= 300000.0
    ensures forall k :: 0 <= k < |samples| ==> 0 <= Ceilings(samples)[k] < BUCKETS
  {
  }

  lemma CeilingsAppend(samples: seq<real>, x: real)
    ensures Ceilings(samples + [x]) == Ceilings(samples) + [Ceil(x)]
  {
  }

  lemma BucketStep(values: seq<int>, c: int, v: int)
    ensures Bucket(values + [c], v) == if v == c then (Bucket(values, v) + 1) % WRAP else Bucket(values, v)
  {
    assert (values + [c])[..|values|] == values;
  }

  lemma MaxStep(samples: seq<real>, x: real)
    ensures MaxOf(samples + [x]) == if MaxOf(samples) >= x then MaxOf(samples) else x
  {
    assert (samples + [x])[..|samples|] == samples;
  }

  lemma {:induction false} MaxBounds(samples: seq<real>)
    ensures forall k :: 0 <= k < |samples| ==> samples[k] <= MaxOf(samples)
    ensures MaxOf(samples) == 0.0 || MaxOf(samples) in samples
  {
    if samples != [] {
      MaxBounds(samples[..|samples| - 1]);
      assert samples == samples[..|samples| - 1] + [samples[|samples| - 1]];
    }
  }

  class Distribution {
    const buckets: array<nat>
    var count: nat
    var max: real
    ghost var samples: seq<real>

    ghost predicate Valid()
      reads this, buckets
    {
      && buckets.Length == BUCKETS
      && (forall k :: 0 <= k < |samples| ==> 0.0 <= samples[k] <= 300000.0)
      && count == |samples| && max == MaxOf(samples)
      && forall v :: 0 <= v < BUCKETS ==> buckets[v] == Bucket(Ceilings(samples), v)
    }

    constructor ()
      ensures Valid() && samples == [] && fresh(buckets)
    {
      buckets := new nat[BUCKETS](_ => 0);
      count, max, samples := 0, 0.0, [];
    }

    /** A latency outside the range is refused and changes nothing. */
    method Observe(milliseconds: Number) returns (ok: bool)
      requires Valid()
      modifies this, buckets
      ensures Valid() && ok == InRange(milliseconds)
      ensures samples == if ok then old(samples) + [milliseconds.value] else old(samples)
    {
      if !InRange(milliseconds) { return false; }
      var x := milliseconds.value;
      assert 0 <= Ceil(x) < BUCKETS;
      hide Ceil, Ceilings, Bucket, MaxOf;
      CeilingsAppend(samples, x);
      MaxStep(samples, x);
      forall v: int { BucketStep(Ceilings(samples), Ceil(x), v); }
      buckets[Ceil(x)] := (buckets[Ceil(x)] + 1) % WRAP;
      count := count + 1;
      max := if max >= x then max else x;
      samples := samples + [x];
      return true;
    }

    /**
     One percentile by scanning the histogram. None is the source's "invalid latency histogram": it is thrown exactly
     when wrapped buckets sum to less than the rank, and so never below 2^32 latencies.
     */
    method Percentile(fraction: real) returns (r: Option<nat>)
      requires Valid() && 0.0 < fraction <= 1.0
      ensures count == 0 ==> r == Some(0)
      ensures r.None? <==> count > 0 && Scanned(Ceilings(samples), BUCKETS - 1) < Rank(count, fraction)
      ensures 0 < count < WRAP ==> r.Some? && r.value == NearestRank(Ceilings(samples), fraction)
    {
      if count == 0 { return Some(0); }
      hide Ceil, Rank, NearestRank, CountUpTo, CountAt, MaxOf, Ceilings;
      ghost var values := Ceilings(samples);
      var rank := Rank(count, fraction);
      CeilingsInRange(samples);
      var seen, value := 0, 0;
      while value < BUCKETS
        invariant 0 <= value <= BUCKETS && seen == Scanned(values, value - 1) < rank
      {
        seen := seen + buckets[value];
        if seen >= rank {
          if count < WRAP {
            BucketsSum(values, value - 1);
            BucketsSum(values, value);
            RankFound(values, fraction, value);
          }
          ScannedGrows(values, value, BUCKETS - 1);
          return Some(value);
        }
        value := value + 1;
      }
      if count < WRAP { BucketsSum(values, BUCKETS - 1); }
      return None;
    }

    /** Every reported percentile is the nearest-rank one and they never cross. */
    method Summarize() returns (r: Option<Summary>)
      requires Valid()
      ensures count < WRAP ==> r.Some?
      ensures 0 < count < WRAP ==>
        && r.value.count == |samples| && r.value.max == MaxOf(samples)
        && r.value.p50 == NearestRank(Ceilings(samples), 0.5)
        && r.value.p95 == NearestRank(Ceilings(samples), 0.95)
        && r.value.p99 == NearestRank(Ceilings(samples), 0.99)
        && r.value.p50 <= r.value.p95 <= r.value.p99 <= Ceil(r.value.max)
    {
      var p50 := Percentile(0.5);
      var p95 := Percentile(0.95);
      var p99 := Percentile(0.99);
      if p50.None? || p95.None? || p99.None? { return None; }
      if 0 < count < WRAP {
        PercentilesOrdered(Ceilings(samples), 0.5, 0.95);
        PercentilesOrdered(Ceilings(samples), 0.95, 0.99);
        PercentileBelowMax(samples, 0.99);
      }
      return Some(Summary(count, p50.value, p95.value, p99.value, max));
    }
  }

  lemma RankFound(values: seq<int>, fraction: real, v: int)
    requires values != [] && 0.0 < fraction <= 1.0
    requires CountUpTo(values, v - 1) < Rank(|values|, fraction) <= CountUpTo(values, v)
    ensures NearestRank(values, fraction) == v
  {
    hide Rank, Sorted, CountUpTo;
    SortedIsSorted(values);
    var rank: nat := Rank(|values|, fraction);
    CountAfterSort(values, v);
    CountAfterSort(values, v - 1);
    RankElement(Sorted(values), rank, v);
    RankElement(Sorted(values), rank, v - 1);
  }

  lemma CeilMonotone(x: real, y: real)
    requires x <= y
    ensures Ceil(x) <= Ceil(y)
  {
    hide Ceil;
  }

  lemma RankMonotone(n: nat, low: real, high: real)
    requires 0.0 < low <= high <= 1.0
    ensures Rank(n, low) <= Rank(n, high)
  {
    assert n as real * low <= n as real * high;
    CeilMonotone(n as real * low, n as real * high);
  }

  lemma PercentilesOrdered(values: seq<int>, low: real, high: real)
    requires values != [] && 0.0 < low <= high <= 1.0
    ensures NearestRank(values, low) <= NearestRank(values, high)
  {
    SortedIsSorted(values);
    RankMonotone(|values|, low, high);
    hide Rank, Sorted;
  }

  lemma PercentileBelowMax(samples: seq<real>, fraction: real)
    requires samples != [] && 0.0 < fraction <= 1.0
    ensures NearestRank(Ceilings(samples), fraction) <= Ceil(MaxOf(samples))
  {
    hide Ceil, Rank, Sorted, MaxOf;
    var values := Ceilings(samples);
    SortedIsSorted(values);
    MaxBounds(samples);
    var rank := Rank(|values|, fraction);
    assert Sorted(values)[rank - 1] in multiset(Sorted(values));
    assert Sorted(values)[rank - 1] in multiset(values);
    var k :| 0 <= k < |values| && values[k] == Sorted(values)[rank - 1];
    CeilMonotone(samples[k], MaxOf(samples));
  }
}
