/** What a replay may see at a moment: the candles of a derived series that have closed. */
module Visibility {
  import opened Timeframes
  import opened Sorting
  import opened Resampling
  import opened IncrementalResampling
  import opened ResamplingCoverage
  import opened History

  /** A derived series: the source resampled at its last close. */
  function SeriesOf(total: Total, source: Timeframe, target: Timeframe, candles: seq<Candle>): seq<Candle> {
    if candles == [] then []
    else
      match Resample(total, source, target, candles, candles[|candles| - 1].timestamp + Duration(source))
      case Ok(bars) => bars
      case Err(_) => []
  }

  function Visible(timeframe: Timeframe, asOf: int, candles: seq<Candle>): seq<Candle> {
    Filter(ClosedBy(timeframe, asOf), candles)
  }

  // ---- indexed lookup --------------------------------------------------------------

  /** `bisect_right` between two positions. */
  function Bisect(a: seq<int>, x: int, lo: nat, hi: nat): (r: nat)
    requires lo <= hi <= |a|
    ensures lo <= r <= hi
    decreases hi - lo
  {
    if lo >= hi then lo
    else
      var mid := (lo + hi) / 2;
      if x < a[mid] then Bisect(a, x, lo, mid) else Bisect(a, x, mid + 1, hi)
  }

  lemma {:induction false} BisectSplits(a: seq<int>, x: int, lo: nat, hi: nat)
    requires lo <= hi <= |a| && forall i, j :: 0 <= i < j < |a| ==> a[i] <= a[j]
    requires forall i :: 0 <= i < lo ==> a[i] <= x
    requires forall i :: hi <= i < |a| ==> x < a[i]
    ensures forall i :: 0 <= i < |a| ==> (a[i] <= x <==> i < Bisect(a, x, lo, hi))
    decreases hi - lo
  {
    if lo < hi {
      var mid := (lo + hi) / 2;
      if x < a[mid] { BisectSplits(a, x, lo, mid); } else { BisectSplits(a, x, mid + 1, hi); }
    }
  }

  function CloseTimes(timeframe: Timeframe, candles: seq<Candle>): (r: seq<int>)
    ensures |r| == |candles| && forall i :: 0 <= i < |r| ==> r[i] == candles[i].timestamp + Duration(timeframe)
  {
    seq(|candles|, i requires 0 <= i < |candles| => candles[i].timestamp + Duration(timeframe))
  }

  /** `_IndexedCandleSeries.closed`. */
  function Indexed(timeframe: Timeframe, asOf: int, candles: seq<Candle>): seq<Candle> {
    candles[..Bisect(CloseTimes(timeframe, candles), asOf, 0, |candles|)]
  }

  ghost predicate Increasing(candles: seq<Candle>) {
    forall i, j :: 0 <= i < j < |candles| ==> candles[i].timestamp < candles[j].timestamp
  }

  /** The indexed prefix is the filtered series. */
  lemma {:induction false} IndexedIsVisible(timeframe: Timeframe, asOf: int, candles: seq<Candle>)
    requires Increasing(candles)
    ensures Indexed(timeframe, asOf, candles) == Visible(timeframe, asOf, candles)
  {
    hide Duration;
    var times := CloseTimes(timeframe, candles);
    BisectSplits(times, asOf, 0, |times|);
    var k := Bisect(times, asOf, 0, |times|);
    forall i | 0 <= i < |candles| ensures ClosedBy(timeframe, asOf)(candles[i]) <==> 0 <= i < k {
      assert times[i] <= asOf <==> i < k;
    }
    FilterRange(ClosedBy(timeframe, asOf), candles, 0, k);
  }

  // ---- point in time ---------------------------------------------------------------

  /** The bars of all buckets so far. */
  function Bars(total: Total, source: Timeframe, target: Timeframe, candles: seq<Candle>): seq<Candle> {
    BarsOf(total, source, target, candles, BucketsOf(candles, target))
  }

  lemma {:induction false} SeriesIsBars(total: Total, source: Timeframe, target: Timeframe, candles: seq<Candle>)
    requires Canonical(source, candles) && Multiple(source, target) && target != source
    ensures SeriesOf(total, source, target, candles) == Bars(total, source, target, candles)
  {
    hide BucketStart, Duration, Canonical, Multiple, TargetOf, Resample;
    if candles != [] {
      SnapshotIsBatch(total, source, target, candles);
      TargetRefines(total, source, target, candles);
    }
  }

  lemma {:induction false} SeriesIsSource(total: Total, source: Timeframe, candles: seq<Candle>)
    requires Canonical(source, candles)
    ensures SeriesOf(total, source, source, candles) == candles
  {
    hide BucketStart, Duration, Canonical, BarsOf, BucketsOf;
    if candles != [] {
      AllEligible(source, candles);
    }
  }

  /** A bar completed by a candle ends with it. */
  lemma {:induction false} CompletedEnd(source: Timeframe, target: Timeframe, candles: seq<Candle>, candle: Candle)
    requires Multiple(source, target) && Canonical(source, candles + [candle])
    requires Complete(source, target, candles + [candle], BucketStart(candle.timestamp, target))
    ensures BucketStart(candle.timestamp, target) + Duration(target) == candle.timestamp + Duration(source)
  {
    hide Duration, Canonical, Multiple, Complete, BucketStart;
    var all, bucket := candles + [candle], BucketStart(candle.timestamp, target);
    CompleteEnds(source, target, all, bucket);
    assert all[|all| - 1] == candle;
    OpensAligned(source, all, |all| - 1);
    BucketOnGrid(candle.timestamp, target);
    CellMembers(candle.timestamp, source, target, bucket);
    GridPoint(bucket, 1, target);
    GridsNest(bucket + Duration(target), source, target);
    AlignedOnGrid(candle.timestamp, source);
    GridGap(candle.timestamp, bucket + Duration(target), source);
  }

  lemma {:induction false} AllBarsClosed(total: Total, source: Timeframe, target: Timeframe, candles: seq<Candle>, buckets: seq<int>, asOf: int)
    requires Multiple(source, target) && Canonical(source, candles)
    requires candles != [] ==> candles[|candles| - 1].timestamp + Duration(source) <= asOf
    ensures forall bar :: bar in BarsOf(total, source, target, candles, buckets) ==> bar.timestamp + Duration(target) <= asOf
    decreases |buckets|
  {
    hide Duration, Canonical, Multiple, Complete, BucketStart, Group;
    if buckets != [] {
      var init, bucket := buckets[..|buckets| - 1], buckets[|buckets| - 1];
      AllBarsClosed(total, source, target, candles, init, asOf);
      if Complete(source, target, candles, bucket) {
        CompleteEnds(source, target, candles, bucket);
      }
    }
  }

  lemma {:induction false} BarsVisible(total: Total, source: Timeframe, target: Timeframe, candles: seq<Candle>, asOf: int)
    requires Canonical(source, candles) && Multiple(source, target)
    ensures Visible(target, asOf, Bars(total, source, target, candles))
         == Bars(total, source, target, Visible(source, asOf, candles))
    decreases |candles|
  {
    hide Duration, Canonical, Multiple, Complete, BucketStart, BarsOf, BucketsOf, Group, Aggregate;
    if candles == [] {
      NoBars(total, source, target);
    } else {
      var init, last := candles[..|candles| - 1], candles[|candles| - 1];
      assert candles == init + [last];
      if last.timestamp + Duration(source) <= asOf {
        AllClosed(source, candles, asOf);
        AllBarsClosed(total, source, target, candles, BucketsOf(candles, target), asOf);
        KeepsAll(ClosedBy(target, asOf), Bars(total, source, target, candles));
      } else {
        CanonicalAligned(source, init, last);
        BarsVisible(total, source, target, init, asOf);
        BarsStep(total, source, target, init, last);
        assert Visible(source, asOf, candles) == Visible(source, asOf, init);
        var bucket := BucketStart(last.timestamp, target);
        if Complete(source, target, candles, bucket) {
          CompletedEnd(source, target, init, last);
          LateBar(total, source, target, candles, bucket, Bars(total, source, target, init), asOf);
        }
      }
    }
  }

  lemma {:induction false} NoBars(total: Total, source: Timeframe, target: Timeframe)
    ensures Bars(total, source, target, []) == []
  {
  }

  lemma {:induction false} NotKept<T>(keep: T -> bool, rows: seq<T>, row: T)
    requires !keep(row)
    ensures Filter(keep, rows + [row]) == Filter(keep, rows)
  {
    assert (rows + [row])[..|rows|] == rows;
  }

  lemma {:induction false} LateBar(total: Total, source: Timeframe, target: Timeframe, candles: seq<Candle>, bucket: int, bars: seq<Candle>, asOf: int)
    requires Complete(source, target, candles, bucket) && bucket + Duration(target) > asOf
    ensures Visible(target, asOf, bars + [Aggregate(total, bucket, Group(candles, target, bucket))]) == Visible(target, asOf, bars)
  {
    hide Duration, Group;
    NotKept(ClosedBy(target, asOf), bars, Aggregate(total, bucket, Group(candles, target, bucket)));
  }

  lemma {:induction false} AllClosed(source: Timeframe, candles: seq<Candle>, asOf: int)
    requires Canonical(source, candles) && candles != [] && candles[|candles| - 1].timestamp + Duration(source) <= asOf
    ensures Visible(source, asOf, candles) == candles
  {
    hide Duration, Canonical;
    CanonicalIncreasing(source, candles);
    forall c | c in candles ensures ClosedBy(source, asOf)(c) {
      var i :| 0 <= i < |candles| && candles[i] == c;
      if i < |candles| - 1 {
        assert candles[i].timestamp < candles[|candles| - 1].timestamp;
      }
    }
    KeepsAll(ClosedBy(source, asOf), candles);
  }

  /** What is visible of a derived series at a moment is the series derived from the source
      candles closed by then. */
  lemma {:induction false} PointInTime(total: Total, source: Timeframe, target: Timeframe, candles: seq<Candle>, asOf: int)
    requires Canonical(source, candles) && Multiple(source, target)
    ensures Visible(target, asOf, SeriesOf(total, source, target, candles))
         == SeriesOf(total, source, target, Visible(source, asOf, candles))
  {
    hide Duration, Canonical, Multiple, BucketStart, Bars, SeriesOf, Visible;
    VisibleCanonical(source, candles, asOf);
    if target == source {
      SeriesIsSource(total, source, candles);
      SeriesIsSource(total, source, Visible(source, asOf, candles));
    } else {
      SeriesIsBars(total, source, target, candles);
      SeriesIsBars(total, source, target, Visible(source, asOf, candles));
      BarsVisible(total, source, target, candles, asOf);
    }
  }

  lemma {:induction false} VisibleCanonical(source: Timeframe, candles: seq<Candle>, asOf: int)
    requires Canonical(source, candles)
    ensures Visible(source, asOf, candles) <= candles && Canonical(source, Visible(source, asOf, candles))
    decreases |candles|
  {
    hide Duration, BucketStart, Canonical;
    if candles != [] {
      var init, last := candles[..|candles| - 1], candles[|candles| - 1];
      if last.timestamp + Duration(source) <= asOf {
        AllClosed(source, candles, asOf);
      } else {
        assert candles == init + [last];
        CanonicalAligned(source, init, last);
        VisibleCanonical(source, init, asOf);
        assert Visible(source, asOf, candles) == Visible(source, asOf, init);
      }
    }
  }

  /** A derived series is in order. */
  lemma {:induction false} SeriesIncreasing(total: Total, source: Timeframe, target: Timeframe, candles: seq<Candle>)
    requires Canonical(source, candles) && Multiple(source, target)
    ensures Increasing(SeriesOf(total, source, target, candles))
  {
    hide Duration, Canonical, Multiple, BucketStart, BarsOf, BucketsOf, SeriesOf;
    if target == source {
      SeriesIsSource(total, source, candles);
      CanonicalIncreasing(source, candles);
    } else {
      SeriesIsBars(total, source, target, candles);
      BucketsInOrder(source, target, candles);
      BarsIncreasing(total, source, target, candles, BucketsOf(candles, target));
    }
  }

  lemma {:induction false} BarsIncreasing(total: Total, source: Timeframe, target: Timeframe, candles: seq<Candle>, buckets: seq<int>)
    requires Rising(buckets)
    ensures Increasing(BarsOf(total, source, target, candles, buckets))
    ensures forall bar :: bar in BarsOf(total, source, target, candles, buckets) ==> bar.timestamp in buckets
    decreases |buckets|
  {
    hide Complete, Group, Increasing, BarsOf, Aggregate;
    if buckets == [] {
      NoBuckets(total, source, target, candles);
    } else {
      var init, bucket := buckets[..|buckets| - 1], buckets[|buckets| - 1];
      BarsIncreasing(total, source, target, candles, init);
      forall t | t in init ensures t < bucket && t in buckets {
        var i :| 0 <= i < |init| && init[i] == t;
        assert buckets[i] == t;
      }
      assert buckets == init + [bucket];
      BarsAppend(total, source, target, candles, init, bucket);
      if Complete(source, target, candles, bucket) {
        BarTime(total, source, target, candles, bucket);
        OneMoreIncreasing(BarsOf(total, source, target, candles, init), Aggregate(total, bucket, Group(candles, target, bucket)));
      }
    }
  }

  lemma {:induction false} BarTime(total: Total, source: Timeframe, target: Timeframe, candles: seq<Candle>, bucket: int)
    requires Complete(source, target, candles, bucket)
    ensures Group(candles, target, bucket) != []
    ensures Aggregate(total, bucket, Group(candles, target, bucket)).timestamp == bucket
  {
    hide Group;
  }

  lemma {:induction false} NoBuckets(total: Total, source: Timeframe, target: Timeframe, candles: seq<Candle>)
    ensures BarsOf(total, source, target, candles, []) == []
    ensures Increasing([])
  {
  }

  lemma {:induction false} OneMoreIncreasing(candles: seq<Candle>, candle: Candle)
    requires Increasing(candles) && forall c :: c in candles ==> c.timestamp < candle.timestamp
    ensures Increasing(candles + [candle])
  {
  }
}
