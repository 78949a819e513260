/** What a target candle says about the source candles it was made from. */
module ResampledBars {
  import opened Timeframes
  import opened Sorting
  import opened Resampling
  import opened IncrementalResampling
  import opened ResamplingCoverage
  import opened History

  /** The bar of a run of candles: the first opening, the last close, the extreme prices, each
      reached by some candle, and the volumes summed in order. */
  ghost predicate Summary(total: Total, candles: seq<Candle>, i: nat, j: nat, bar: Candle)
    requires i < j <= |candles|
  {
    && bar.open == candles[i].open && bar.close == candles[j - 1].close
    && (forall k :: i <= k < j ==> candles[k].high <= bar.high) && (exists k :: i <= k < j && candles[k].high == bar.high)
    && (forall k :: i <= k < j ==> candles[k].low >= bar.low) && (exists k :: i <= k < j && candles[k].low == bar.low)
    && bar.volume == total(seq(j - i, x requires 0 <= x < j - i => candles[i + x].volume))
  }

  /** The candles that open in the span of the bar are a run of the history, and the bar is theirs. */
  ghost predicate Summarizes(total: Total, target: Timeframe, candles: seq<Candle>, bar: Candle) {
    exists i: nat, j: nat :: i < j <= |candles|
      && (forall k :: 0 <= k < |candles| ==>
            (i <= k < j <==> bar.timestamp <= candles[k].timestamp < bar.timestamp + Duration(target)))
      && Summary(total, candles, i, j, bar)
  }

  lemma {:induction false} HighestIs(group: seq<Candle>)
    requires group != []
    ensures forall k :: 0 <= k < |group| ==> group[k].high <= Highest(group)
    ensures exists k :: 0 <= k < |group| && group[k].high == Highest(group)
    decreases |group|
  {
    var n := |group| - 1;
    if n > 0 {
      HighestIs(group[..n]);
      var k :| 0 <= k < n && group[..n][k].high == Highest(group[..n]);
      assert group[k].high == Highest(group[..n]);
    }
    assert group[n].high <= Highest(group);
  }

  lemma {:induction false} LowestIs(group: seq<Candle>)
    requires group != []
    ensures forall k :: 0 <= k < |group| ==> group[k].low >= Lowest(group)
    ensures exists k :: 0 <= k < |group| && group[k].low == Lowest(group)
    decreases |group|
  {
    var n := |group| - 1;
    if n > 0 {
      LowestIs(group[..n]);
      var k :| 0 <= k < n && group[..n][k].low == Lowest(group[..n]);
      assert group[k].low == Lowest(group[..n]);
    }
    assert group[n].low >= Lowest(group);
  }

  lemma {:induction false} AggregateSummary(total: Total, bucket: int, group: seq<Candle>)
    requires group != []
    ensures Summary(total, group, 0, |group|, Aggregate(total, bucket, group))
  {
    hide Highest, Lowest;
    HighestIs(group);
    LowestIs(group);
    assert Volumes(group) == seq(|group| - 0, x requires 0 <= x < |group| - 0 => group[0 + x].volume);
  }

  /** The summary of a slice, seen from the whole. */
  lemma {:induction false} SliceSummary(total: Total, candles: seq<Candle>, i: nat, j: nat, bar: Candle)
    requires i < j <= |candles| && Summary(total, candles[i..j], 0, j - i, bar)
    ensures Summary(total, candles, i, j, bar)
  {
    var slice := candles[i..j];
    forall k | i <= k < j ensures candles[k].high <= bar.high && candles[k].low >= bar.low {
      assert slice[k - i] == candles[k];
    }
    var h :| 0 <= h < j - i && slice[h].high == bar.high;
    assert candles[i + h].high == bar.high;
    var l :| 0 <= l < j - i && slice[l].low == bar.low;
    assert candles[i + l].low == bar.low;
    assert seq(j - i - 0, x requires 0 <= x < j - i - 0 => slice[0 + x].volume)
        == seq(j - i, x requires 0 <= x < j - i => candles[i + x].volume);
  }

  /** A complete cell of canonical candles. */
  lemma {:induction false} CellSummary(total: Total, source: Timeframe, target: Timeframe, candles: seq<Candle>, bucket: int)
    requires candles != [] && Canonical(source, candles) && Multiple(source, target) && OnGrid(bucket, target)
    requires Complete(source, target, candles, bucket)
    ensures Summarizes(total, target, candles, Aggregate(total, bucket, Group(candles, target, bucket)))
  {
    hide BucketStart, Duration, Canonical, Multiple, OnGrid, Complete, Count, InBucket, Filter, Aggregate, Summary;
    var m, n, d := |candles|, Count(source, target), Duration(source);
    EmittedIffCovered(source, target, candles, bucket);
    GridsNest(bucket, source, target);
    var i := PositionOf(source, candles, bucket);
    GroupIsRun(source, target, candles, bucket, i);
    SpacedSorted(source, candles, 0, m - 1);
    CountTimes(source, target);
    CoveredRun(i, n, m, d, candles[0].timestamp);
    FilterRange(InBucket(target, bucket), candles, i, i + n);
    var bar := Aggregate(total, bucket, candles[i..i + n]);
    AggregateSummary(total, bucket, candles[i..i + n]);
    SliceSummary(total, candles, i, i + n, bar);
    AggregateFields(total, bucket, candles[i..i + n]);
    forall k | 0 <= k < m ensures i <= k < i + n <==> bucket <= candles[k].timestamp < bucket + Duration(target) {
      OpensAligned(source, candles, k);
      CellMembers(candles[k].timestamp, source, target, bucket);
      InBucketIs(target, bucket, candles[k]);
    }
  }

  lemma {:induction false} InBucketIs(target: Timeframe, bucket: int, candle: Candle)
    ensures InBucket(target, bucket)(candle) <==> BucketStart(candle.timestamp, target) == bucket
  {
  }

  lemma {:induction false} AggregateFields(total: Total, bucket: int, group: seq<Candle>)
    requires group != []
    ensures Aggregate(total, bucket, group).timestamp == bucket
  {
  }

  lemma {:induction false} BucketsAreGrid(candles: seq<Candle>, target: Timeframe)
    ensures forall bucket :: bucket in BucketsOf(candles, target) ==> OnGrid(bucket, target)
    decreases |candles|
  {
    hide BucketStart, OnGrid;
    if candles != [] {
      BucketsAreGrid(candles[..|candles| - 1], target);
      BucketOnGrid(candles[|candles| - 1].timestamp, target);
    }
  }

  lemma {:induction false} BarsSummarize(total: Total, source: Timeframe, target: Timeframe, candles: seq<Candle>, buckets: seq<int>)
    requires candles != [] && Canonical(source, candles) && Multiple(source, target)
    requires forall bucket :: bucket in buckets ==> OnGrid(bucket, target)
    ensures forall bar :: bar in BarsOf(total, source, target, candles, buckets) ==> Summarizes(total, target, candles, bar)
    decreases |buckets|
  {
    hide BucketStart, Duration, Canonical, Multiple, OnGrid, Complete, Group, Aggregate, Summarizes;
    if buckets != [] {
      BarsSummarize(total, source, target, candles, buckets[..|buckets| - 1]);
      var bucket := buckets[|buckets| - 1];
      if Complete(source, target, candles, bucket) {
        CellSummary(total, source, target, candles, bucket);
      }
    }
  }

  /** Every candle of a coarser series that the batch returns is the bar of the closed source
      candles that open in its span. */
  lemma {:induction false} BatchBars(total: Total, source: Timeframe, target: Timeframe, candles: seq<Candle>, cutoff: int)
    requires target != source && Resample(total, source, target, candles, cutoff).Ok?
    ensures forall bar :: bar in Resample(total, source, target, candles, cutoff).value ==>
      && bar.timestamp + Duration(target) <= cutoff
      && Summarizes(total, target, Filter(ClosedBy(source, cutoff), candles), bar)
  {
    hide BucketStart, Duration, Canonical, Multiple, BarsOf, BucketsOf, Summarizes;
    var eligible := Filter(ClosedBy(source, cutoff), candles);
    if eligible != [] {
      var keys := BucketsOf(eligible, target);
      var buckets := Filter(EndsBy(target, cutoff), Sort(IntLe, keys));
      BucketsAreGrid(eligible, target);
      SortedKeys(keys);
      forall bucket | bucket in buckets ensures OnGrid(bucket, target) && bucket + Duration(target) <= cutoff {
        FilterKeeps(EndsBy(target, cutoff), Sort(IntLe, keys), bucket);
      }
      BarsSummarize(total, source, target, eligible, buckets);
      BarTimes(total, source, target, eligible, buckets);
    }
  }

  lemma {:induction false} BarTimes(total: Total, source: Timeframe, target: Timeframe, candles: seq<Candle>, buckets: seq<int>)
    ensures forall bar :: bar in BarsOf(total, source, target, candles, buckets) ==> bar.timestamp in buckets
    decreases |buckets|
  {
    hide Complete, Group;
    if buckets != [] {
      BarTimes(total, source, target, candles, buckets[..|buckets| - 1]);
    }
  }

  /** Every candle of the incremental snapshot is the bar of the source candles that open in its
      span. */
  lemma {:induction false} SnapshotBars(total: Total, source: Timeframe, target: Timeframe, candles: seq<Candle>)
    requires Canonical(source, candles) && Multiple(source, target)
    ensures forall bar :: bar in TargetOf(total, source, target, candles).bars ==> Summarizes(total, target, candles, bar)
  {
    hide BucketStart, Duration, Canonical, Multiple, BarsOf, BucketsOf, Summarizes, OnGrid;
    if candles != [] {
      TargetRefines(total, source, target, candles);
      BucketsAreGrid(candles, target);
      BarsSummarize(total, source, target, candles, BucketsOf(candles, target));
    } else {
      assert TargetOf(total, source, target, candles).bars == [];
    }
  }

  // ---- any source ------------------------------------------------------------------

  /** The bar of the candles of its bucket among the first k, which are the expected ones. */
  ghost predicate MadeAt(total: Total, source: Timeframe, target: Timeframe, candles: seq<Candle>, bar: Candle, k: nat) {
    k <= |candles| &&
    var group := Group(candles[..k], target, bar.timestamp);
    group != [] && Opens(group) == ExpectedOpens(bar.timestamp, source, target) && Summary(total, group, 0, |group|, bar)
  }

  ghost predicate Kept(total: Total, source: Timeframe, target: Timeframe, candles: seq<Candle>, s: Target) {
    && (forall bucket :: bucket in s.buckets ==> s.buckets[bucket] == Group(candles, target, bucket))
    && (forall bucket :: bucket !in s.buckets ==> Group(candles, target, bucket) == [])
    && (forall bar :: bar in s.bars ==> exists k: nat :: MadeAt(total, source, target, candles, bar, k))
  }

  lemma {:induction false} MadeStays(total: Total, source: Timeframe, target: Timeframe, candles: seq<Candle>, last: Candle, bar: Candle, k: nat)
    requires MadeAt(total, source, target, candles, bar, k)
    ensures MadeAt(total, source, target, candles + [last], bar, k)
  {
    hide Group, ExpectedOpens, Summary;
    assert (candles + [last])[..k] == candles[..k];
  }

  lemma {:induction false} KeptNext(total: Total, source: Timeframe, target: Timeframe, candles: seq<Candle>, last: Candle, s: Target)
    requires Kept(total, source, target, candles, s)
    ensures Kept(total, source, target, candles + [last], TargetStep(total, source, target, s, last))
  {
    hide BucketStart, Group, ExpectedOpens, Summary, Aggregate, MadeAt, Count;
    var all := candles + [last];
    var next := TargetStep(total, source, target, s, last);
    forall bucket ensures Group(all, target, bucket)
      == if BucketStart(last.timestamp, target) == bucket then Group(candles, target, bucket) + [last] else Group(candles, target, bucket)
    {
      GroupAppend(candles, last, target, bucket);
    }
    forall bar | bar in next.bars ensures exists k: nat :: MadeAt(total, source, target, all, bar, k) {
      if bar in s.bars {
        var k: nat :| MadeAt(total, source, target, candles, bar, k);
        MadeStays(total, source, target, candles, last, bar, k);
      } else {
        JustMade(total, source, target, all, BucketStart(last.timestamp, target));
      }
    }
  }

  lemma {:induction false} JustMade(total: Total, source: Timeframe, target: Timeframe, candles: seq<Candle>, bucket: int)
    requires var group := Group(candles, target, bucket); group != [] && Opens(group) == ExpectedOpens(bucket, source, target)
    ensures MadeAt(total, source, target, candles, Aggregate(total, bucket, Group(candles, target, bucket)), |candles|)
  {
    hide Group, ExpectedOpens, Summary, Aggregate;
    assert candles[..|candles|] == candles;
    AggregateSummary(total, bucket, Group(candles, target, bucket));
    AggregateFields(total, bucket, Group(candles, target, bucket));
  }

  /** The incremental state never looks at its source: on any candles, in any order, each bar is
      that of exactly the expected candles, as they stood in its bucket at some moment. */
  lemma {:induction false} AnySourceBars(total: Total, source: Timeframe, target: Timeframe, candles: seq<Candle>)
    ensures Kept(total, source, target, candles, TargetOf(total, source, target, candles))
    decreases |candles|
  {
    hide TargetStep, Kept;
    if candles == [] {
      NothingKept(total, source, target);
    } else {
      var init, last := candles[..|candles| - 1], candles[|candles| - 1];
      AnySourceBars(total, source, target, init);
      KeptNext(total, source, target, init, last, TargetOf(total, source, target, init));
      assert init + [last] == candles;
    }
  }

  lemma {:induction false} NothingKept(total: Total, source: Timeframe, target: Timeframe)
    ensures Kept(total, source, target, [], NO_BARS)
  {
  }
}
