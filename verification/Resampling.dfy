/** Resampling candles onto a coarser grid: the batch reference, which validates its source,
    and the append-only state that replay uses, which does not. */
module Resampling {
  import opened Wrappers
  import opened Timeframes
  import opened Sorting

  datatype Candle = Candle(timestamp: int, open: real, high: real, low: real, close: real, volume: real)

  datatype ResamplingError = NotAMultiple | InvalidSource

  /** The rounding of a volume sum is not modelled: `total` is any function. */
  type Total = seq<real> -> real

  function Highest(candles: seq<Candle>): real
    requires candles != []
  {
    if |candles| == 1 then candles[0].high
    else
      var h := Highest(candles[..|candles| - 1]);
      if candles[|candles| - 1].high > h then candles[|candles| - 1].high else h
  }

  function Lowest(candles: seq<Candle>): real
    requires candles != []
  {
    if |candles| == 1 then candles[0].low
    else
      var l := Lowest(candles[..|candles| - 1]);
      if candles[|candles| - 1].low < l then candles[|candles| - 1].low else l
  }

  function Volumes(candles: seq<Candle>): (r: seq<real>)
    ensures |r| == |candles|
  {
    seq(|candles|, i requires 0 <= i < |candles| => candles[i].volume)
  }

  function Opens(candles: seq<Candle>): (r: seq<int>)
    ensures |r| == |candles| && forall i :: 0 <= i < |r| ==> r[i] == candles[i].timestamp
  {
    seq(|candles|, i requires 0 <= i < |candles| => candles[i].timestamp)
  }

  function Aggregate(total: Total, bucket: int, group: seq<Candle>): Candle
    requires group != []
  {
    Candle(bucket, group[0].open, Highest(group), Lowest(group), group[|group| - 1].close, total(Volumes(group)))
  }

  /** Number of source candles in a target candle. */
  function Count(source: Timeframe, target: Timeframe): nat {
    Duration(target) / Duration(source)
  }

  function ExpectedOpens(bucket: int, source: Timeframe, target: Timeframe): (r: seq<int>)
    ensures |r| == Count(source, target)
    ensures forall i :: 0 <= i < |r| ==> r[i] == bucket + i * Duration(source)
  {
    seq(Count(source, target), i => bucket + i * Duration(source))
  }

  function InBucket(target: Timeframe, bucket: int): Candle -> bool {
    (c: Candle) => BucketStart(c.timestamp, target) == bucket
  }

  function Group(candles: seq<Candle>, target: Timeframe, bucket: int): seq<Candle> {
    Filter(InBucket(target, bucket), candles)
  }

  /** Every source candle of the bucket is there, in order. */
  predicate Complete(source: Timeframe, target: Timeframe, candles: seq<Candle>, bucket: int) {
    var group := Group(candles, target, bucket);
    group != [] && Opens(group) == ExpectedOpens(bucket, source, target)
  }

  // ---- the batch reference ---------------------------------------------------------

  predicate Multiple(source: Timeframe, target: Timeframe) {
    Duration(target) >= Duration(source) && Duration(target) % Duration(source) == 0
  }

  /** Aligned candles without gaps or repetitions. */
  predicate Canonical(source: Timeframe, candles: seq<Candle>) {
    && (forall i :: 0 <= i < |candles| ==> BucketStart(candles[i].timestamp, source) == candles[i].timestamp)
    && (forall i :: 0 <= i < |candles| - 1 ==> candles[i + 1].timestamp == candles[i].timestamp + Duration(source))
  }

  /** Buckets in order of first appearance. */
  function BucketsOf(candles: seq<Candle>, target: Timeframe): seq<int> {
    if candles == [] then []
    else
      var earlier := BucketsOf(candles[..|candles| - 1], target);
      var bucket := BucketStart(candles[|candles| - 1].timestamp, target);
      if bucket in earlier then earlier else earlier + [bucket]
  }

  /** The candle of a bucket, if it is complete. */
  function BarOf(total: Total, source: Timeframe, target: Timeframe, candles: seq<Candle>, bucket: int): seq<Candle> {
    if Complete(source, target, candles, bucket) then [Aggregate(total, bucket, Group(candles, target, bucket))] else []
  }

  function BarsOf(total: Total, source: Timeframe, target: Timeframe, candles: seq<Candle>, buckets: seq<int>): seq<Candle> {
    if buckets == [] then []
    else
      BarsOf(total, source, target, candles, buckets[..|buckets| - 1])
      + BarOf(total, source, target, candles, buckets[|buckets| - 1])
  }

  function ClosedBy(source: Timeframe, cutoff: int): Candle -> bool {
    (c: Candle) => c.timestamp + Duration(source) <= cutoff
  }

  function EndsBy(target: Timeframe, cutoff: int): int -> bool {
    (bucket: int) => bucket + Duration(target) <= cutoff
  }

  predicate IntLe(a: int, b: int) {
    a <= b
  }

  predicate ByTime(a: Candle, b: Candle) {
    a.timestamp <= b.timestamp
  }

  /** `resample_canonical_candles`: only candles closed by the cutoff are looked at, they must
      be canonical, and only complete buckets that ended by the cutoff are returned. */
  function Resample(total: Total, source: Timeframe, target: Timeframe, candles: seq<Candle>, cutoff: int)
    : Result<seq<Candle>, ResamplingError>
  {
    if !Multiple(source, target) then Err(NotAMultiple)
    else
      var eligible := Filter(ClosedBy(source, cutoff), candles);
      if eligible == [] then Ok([])
      else if !Canonical(source, eligible) then Err(InvalidSource)
      else if target == source then Ok(eligible)
      else Ok(BarsOf(total, source, target, eligible, Filter(EndsBy(target, cutoff), Sort(IntLe, BucketsOf(eligible, target)))))
  }

  lemma {:induction false} SpacedSorted(source: Timeframe, candles: seq<Candle>, i: nat, j: nat)
    requires Canonical(source, candles) && i <= j < |candles|
    ensures candles[j].timestamp == candles[i].timestamp + (j - i) * Duration(source)
    decreases j
  {
    hide BucketStart, Duration;
    if i < j {
      SpacedSorted(source, candles, i, j - 1);
      OneMore(j - 1 - i, Duration(source));
    }
  }

  lemma {:induction false} OneMore(n: int, d: int)
    ensures (n + 1) * d == n * d + d
  {
  }

  lemma {:induction false} CanonicalIncreasing(source: Timeframe, candles: seq<Candle>)
    requires Canonical(source, candles)
    ensures forall i, j :: 0 <= i < j < |candles| ==> candles[i].timestamp < candles[j].timestamp
  {
    hide BucketStart, Duration, Canonical;
    forall i, j | 0 <= i < j < |candles| ensures candles[i].timestamp < candles[j].timestamp {
      SpacedSorted(source, candles, i, j);
      assert (j - i) * Duration(source) > 0;
    }
  }

  /** Canonical candles are already sorted. */
  lemma {:induction false} CanonicalSorted(source: Timeframe, candles: seq<Candle>)
    requires Canonical(source, candles)
    ensures Sort(ByTime, candles) == candles
  {
    hide BucketStart, Duration;
    CanonicalIncreasing(source, candles);
    forall x, y | x in candles && y in candles && ByTime(x, y) && ByTime(y, x) ensures x == y {
      var i, j :| 0 <= i < |candles| && 0 <= j < |candles| && candles[i] == x && candles[j] == y;
    }
    SortRestores(ByTime, candles, candles);
  }

  lemma {:induction false} FilterStep<T>(keep: T -> bool, rows: seq<T>, i: nat)
    requires i < |rows|
    ensures Filter(keep, rows[..i + 1]) == if keep(rows[i]) then Filter(keep, rows[..i]) + [rows[i]] else Filter(keep, rows[..i])
  {
    assert rows[..i + 1][..i] == rows[..i];
  }

  lemma {:induction false} NoBucketYet(candles: seq<Candle>, target: Timeframe, bucket: int)
    ensures bucket in BucketsOf(candles, target) <==> Group(candles, target, bucket) != []
    decreases |candles|
  {
    if candles != [] {
      NoBucketYet(candles[..|candles| - 1], target, bucket);
    }
  }

  /** The batch algorithm: filter, sort and validate, group in a dictionary, then visit the
      bucket starts in order. */
  method ResampleCandles(total: Total, source: Timeframe, target: Timeframe, candles: seq<Candle>, cutoff: int)
    returns (r: Result<seq<Candle>, ResamplingError>)
    ensures r == Resample(total, source, target, candles, cutoff)
  {
    hide BucketStart, Duration, BarsOf, BucketsOf, Canonical;
    if !Multiple(source, target) {
      return Err(NotAMultiple);
    }
    var eligible := Filter(ClosedBy(source, cutoff), candles);
    if eligible == [] {
      return Ok([]);
    }
    var normalized := Sort(ByTime, eligible);
    if Canonical(source, eligible) {
      CanonicalSorted(source, eligible);
    }
    if !Canonical(source, normalized) || normalized != eligible {
      return Err(InvalidSource);
    }
    if target == source {
      return Ok(eligible);
    }
    var keys, grouped := GroupLoop(eligible, target);
    var derived := BarsLoop(total, source, target, eligible, cutoff, keys, grouped);
    return Ok(derived);
  }

  /** Visit the bucket starts in order and keep the complete ones that have ended. */
  method BarsLoop(total: Total, source: Timeframe, target: Timeframe, candles: seq<Candle>, cutoff: int,
                  keys: seq<int>, grouped: map<int, seq<Candle>>) returns (derived: seq<Candle>)
    requires forall bucket :: bucket in keys ==> bucket in grouped && grouped[bucket] == Group(candles, target, bucket)
    ensures derived == BarsOf(total, source, target, candles, Filter(EndsBy(target, cutoff), Sort(IntLe, keys)))
  {
    hide BucketStart, Duration, Group, Aggregate, ExpectedOpens;
    var starts := Sort(IntLe, keys);
    SortedKeys(keys);
    derived := [];
    for i := 0 to |starts|
      invariant derived == BarsOf(total, source, target, candles, Filter(EndsBy(target, cutoff), starts[..i]))
    {
      var bucket := starts[i];
      FilterStep(EndsBy(target, cutoff), starts, i);
      if bucket + Duration(target) <= cutoff {
        BarsAppend(total, source, target, candles, Filter(EndsBy(target, cutoff), starts[..i]), bucket);
        var constituents := grouped[bucket];
        if constituents != [] && Opens(constituents) == ExpectedOpens(bucket, source, target) {
          derived := derived + [Aggregate(total, bucket, constituents)];
        }
      }
    }
    assert starts[..|starts|] == starts;
  }

  lemma {:induction false} BarsAppend(total: Total, source: Timeframe, target: Timeframe, candles: seq<Candle>, buckets: seq<int>, bucket: int)
    ensures BarsOf(total, source, target, candles, buckets + [bucket])
         == if Complete(source, target, candles, bucket)
            then BarsOf(total, source, target, candles, buckets) + [Aggregate(total, bucket, Group(candles, target, bucket))]
            else BarsOf(total, source, target, candles, buckets)
  {
    hide Complete, Group, Aggregate;
    assert (buckets + [bucket])[..|buckets|] == buckets;
  }

  lemma {:induction false} SortedKeys(keys: seq<int>)
    ensures forall i :: 0 <= i < |Sort(IntLe, keys)| ==> Sort(IntLe, keys)[i] in keys
  {
    SortSorts(IntLe, keys);
    forall i | 0 <= i < |Sort(IntLe, keys)| ensures Sort(IntLe, keys)[i] in keys {
      assert Sort(IntLe, keys)[i] in multiset(Sort(IntLe, keys));
    }
  }

  /** `grouped`: a dictionary of lists, with its keys in insertion order. */
  method GroupLoop(candles: seq<Candle>, target: Timeframe) returns (keys: seq<int>, grouped: map<int, seq<Candle>>)
    ensures keys == BucketsOf(candles, target)
    ensures forall bucket :: bucket in keys ==> bucket in grouped && grouped[bucket] == Group(candles, target, bucket)
  {
    hide BucketStart;
    keys, grouped := [], map[];
    for i := 0 to |candles|
      invariant keys == BucketsOf(candles[..i], target)
      invariant forall bucket :: bucket in keys <==> bucket in grouped
      invariant forall bucket :: bucket in keys ==> grouped[bucket] == Group(candles[..i], target, bucket)
    {
      var bucket := BucketStart(candles[i].timestamp, target);
      assert candles[..i + 1][..i] == candles[..i];
      forall other ensures Group(candles[..i + 1], target, other)
        == if other == bucket then Group(candles[..i], target, other) + [candles[i]] else Group(candles[..i], target, other)
      {
        FilterStep(InBucket(target, other), candles, i);
      }
      NoBucketYet(candles[..i], target, bucket);
      if bucket in keys {
        grouped := grouped[bucket := grouped[bucket] + [candles[i]]];
      } else {
        keys := keys + [bucket];
        grouped := grouped[bucket := [candles[i]]];
      }
    }
    assert candles[..|candles|] == candles;
  }
}
