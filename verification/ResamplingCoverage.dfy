/** Which target candles come out: exactly the grid cells that the source covers from their
    opening to their end. Partial first and last cells are withheld. */
module ResamplingCoverage {
  import opened Timeframes
  import opened Sorting
  import opened Resampling
  import opened IncrementalResampling

  function Offset(timeframe: Timeframe): int {
    if timeframe.OneWeek? then 4 * DAY else 0
  }

  /** A point of the grid of a timeframe. */
  predicate OnGrid(t: int, timeframe: Timeframe) {
    (t - Offset(timeframe)) % Duration(timeframe) == 0
  }

  lemma {:induction false} MultipleIsZero(q: int, d: int)
    requires d > 0
    ensures (q * d) % d == 0
  {
    FloorUnique(q * d, d, q);
    assert q * d == ((q * d) / d) * d + (q * d) % d;
  }

  lemma {:induction false} Differ(x: int, y: int, d: int)
    requires d > 0 && x % d == 0 && y % d == 0
    ensures (x - y) % d == 0
  {
    var p, q := x / d, y / d;
    assert x == p * d + x % d && y == q * d + y % d;
    Distributes(p, q, d);
    MultipleIsZero(p - q, d);
  }

  lemma {:induction false} Distributes(p: int, q: int, d: int)
    ensures p * d - q * d == (p - q) * d
  {
  }

  lemma {:induction false} Coarser(x: int, d: int, n: int)
    requires d > 0 && n >= d && n % d == 0 && x % n == 0
    ensures x % d == 0
  {
    DivideTimes(n, d);
    var p, q := x / n, n / d;
    assert x == p * n + x % n;
    Regroups(p, q, d);
    MultipleIsZero(p * q, d);
  }

  lemma {:induction false} Regroups(p: int, q: int, d: int)
    ensures p * (q * d) == (p * q) * d
  {
  }

  lemma {:induction false} AlignedOnGrid(t: int, timeframe: Timeframe)
    requires BucketStart(t, timeframe) == t
    ensures OnGrid(t, timeframe) && GridFloor(t, timeframe) == t
  {
    hide BucketStart, Duration;
    AlignedSeconds(t, timeframe);
    WholeInCell(t, timeframe);
    var d := Duration(timeframe);
    MultipleIsZero((t - Offset(timeframe)) / d, d);
  }

  /** The coarser grid is part of the finer one. */
  lemma {:induction false} GridsNest(t: int, source: Timeframe, target: Timeframe)
    requires Multiple(source, target) && OnGrid(t, target)
    ensures OnGrid(t, source)
  {
    Coarser(t - Offset(target), Duration(source), Duration(target));
    if target.OneWeek? && !source.OneWeek? {
      OffsetDivides(source);
      Differ(t - Offset(target), -4 * DAY, Duration(source));
    }
  }

  lemma {:induction false} OffsetDivides(source: Timeframe)
    requires !source.OneWeek?
    ensures (-4 * DAY) % Duration(source) == 0
  {
  }

  lemma {:induction false} FilterRange<T(!new)>(keep: T -> bool, rows: seq<T>, i: nat, j: nat)
    requires i <= j <= |rows|
    requires forall k :: 0 <= k < |rows| ==> (keep(rows[k]) <==> i <= k < j)
    ensures Filter(keep, rows) == rows[i..j]
    decreases |rows|
  {
    if rows != [] {
      var n := |rows| - 1;
      var init := rows[..n];
      if j == |rows| && i < j {
        FilterRange(keep, init, i, n);
        assert rows[i..j] == init[i..n] + [rows[n]];
      } else if i == |rows| {
        FilterRange(keep, init, n, n);
        assert rows[i..j] == init[n..n];
      } else {
        FilterRange(keep, init, i, j);
        assert rows[i..j] == init[i..j];
      }
    }
  }

  /** Position of a grid point among canonical candles. */
  lemma {:induction false} PositionOf(source: Timeframe, candles: seq<Candle>, t: int) returns (i: int)
    requires candles != [] && Canonical(source, candles) && OnGrid(t, source)
    ensures t == candles[0].timestamp + i * Duration(source)
  {
    hide BucketStart, Duration;
    var d := Duration(source);
    AlignedOnGrid(candles[0].timestamp, source);
    Differ(t - Offset(source), candles[0].timestamp - Offset(source), d);
    i := (t - candles[0].timestamp) / d;
    assert t - candles[0].timestamp == i * d + (t - candles[0].timestamp) % d;
  }

  /** A candle belongs to a cell exactly when it opens inside it. */
  lemma {:induction false} CellMembers(t: int, source: Timeframe, target: Timeframe, bucket: int)
    requires BucketStart(t, source) == t && OnGrid(bucket, target)
    ensures BucketStart(t, target) == bucket <==> bucket <= t < bucket + Duration(target)
  {
    hide BucketStart, Duration;
    AlignedSeconds(t, source);
    WholeInCell(t, target);
    var d, o := Duration(target), Offset(target);
    var q := (bucket - o) / d;
    assert bucket - o == q * d + (bucket - o) % d;
    if bucket <= t < bucket + d {
      FloorUnique(t - o, d, q);
    }
  }

  lemma {:induction false} TimesOrder(x: int, y: int, d: int)
    requires d > 0
    ensures x <= y <==> x * d <= y * d
    ensures x < y <==> x * d < y * d
  {
    if x <= y { ScaleOrder(x, y, d); } else { ScaleOrder(y + 1, x, d); OneMore(y, d); }
    if x < y { ScaleOrder(x + 1, y, d); OneMore(x, d); } else { ScaleOrder(y, x, d); }
  }

  lemma {:induction false} InRange(i: int, n: int, k: int, start: int, d: int)
    requires d > 0
    ensures start + i * d <= start + k * d < start + i * d + n * d <==> i <= k < i + n
  {
    TimesOrder(i, k, d);
    TimesOrder(k, i + n, d);
    SumTimes(i, n, d);
  }

  /** The group of a cell is a run of the candles. */
  lemma {:induction false} GroupIsRun(source: Timeframe, target: Timeframe, candles: seq<Candle>, bucket: int, i: int)
    requires candles != [] && Canonical(source, candles) && Multiple(source, target) && OnGrid(bucket, target)
    requires bucket == candles[0].timestamp + i * Duration(source)
    ensures forall k :: 0 <= k < |candles| ==>
      (InBucket(target, bucket)(candles[k]) <==> i <= k < i + Count(source, target))
  {
    hide BucketStart, Duration, Canonical, Multiple;
    forall k | 0 <= k < |candles|
      ensures InBucket(target, bucket)(candles[k]) <==> i <= k < i + Count(source, target)
    {
      SpacedSorted(source, candles, 0, k);
      OpensAligned(source, candles, k);
      CellMembers(candles[k].timestamp, source, target, bucket);
      CountTimes(source, target);
      InRange(i, Count(source, target), k, candles[0].timestamp, Duration(source));
    }
  }

  lemma {:induction false} OpensAligned(source: Timeframe, candles: seq<Candle>, k: nat)
    requires Canonical(source, candles) && k < |candles|
    ensures BucketStart(candles[k].timestamp, source) == candles[k].timestamp
  {
    hide BucketStart;
  }

  lemma {:induction false} SumTimes(i: int, k: int, d: int)
    ensures (i + k) * d == i * d + k * d
  {
  }

  lemma {:induction false} CoveredRun(i: int, n: int, m: int, d: int, start: int)
    requires d > 0
    ensures start <= start + i * d && start + i * d + n * d <= start + (m - 1) * d + d <==> 0 <= i && i + n <= m
  {
    TimesOrder(0, i, d);
    TimesOrder(i + n, m, d);
    SumTimes(i, n, d);
    OneMore(m - 1, d);
  }

  /** A target candle is emitted for a grid cell exactly when the source covers the whole
      cell, from its opening to its end. */
  lemma {:induction false} EmittedIffCovered(source: Timeframe, target: Timeframe, candles: seq<Candle>, bucket: int)
    requires candles != [] && Canonical(source, candles) && Multiple(source, target) && OnGrid(bucket, target)
    ensures Complete(source, target, candles, bucket)
      <==> candles[0].timestamp <= bucket && bucket + Duration(target) <= candles[|candles| - 1].timestamp + Duration(source)
  {
    hide BucketStart, Duration, Canonical, Multiple, OnGrid, Complete, Count, InBucket, Filter;
    var m, n, d := |candles|, Count(source, target), Duration(source);
    GridsNest(bucket, source, target);
    var i := PositionOf(source, candles, bucket);
    GroupIsRun(source, target, candles, bucket, i);
    SpacedSorted(source, candles, 0, m - 1);
    CountTimes(source, target);
    CoveredRun(i, n, m, d, candles[0].timestamp);
    if 0 <= i && i + n <= m {
      FilterRange(InBucket(target, bucket), candles, i, i + n);
      RunOpens(source, target, candles, bucket, i);
    } else {
      ShortGroup(source, target, candles, bucket, i);
    }
  }

  lemma {:induction false} RunOpens(source: Timeframe, target: Timeframe, candles: seq<Candle>, bucket: int, i: nat)
    requires candles != [] && Canonical(source, candles) && i + Count(source, target) <= |candles| && Count(source, target) > 0
    requires bucket == candles[0].timestamp + i * Duration(source)
    requires Group(candles, target, bucket) == candles[i..i + Count(source, target)]
    ensures Complete(source, target, candles, bucket)
  {
    hide BucketStart, Duration, Canonical, Count, Group;
    var group := Group(candles, target, bucket);
    forall k | 0 <= k < |group| ensures Opens(group)[k] == ExpectedOpens(bucket, source, target)[k] {
      SpacedSorted(source, candles, 0, i + k);
      SumTimes(i, k, Duration(source));
    }
  }

  lemma {:induction false} CompleteCount(source: Timeframe, target: Timeframe, candles: seq<Candle>, bucket: int)
    requires Complete(source, target, candles, bucket)
    ensures |Group(candles, target, bucket)| == Count(source, target)
  {
    hide Group, Count;
    assert |Opens(Group(candles, target, bucket))| == |ExpectedOpens(bucket, source, target)|;
  }

  /** A cell that sticks out has too few candles. */
  lemma {:induction false} ShortGroup(source: Timeframe, target: Timeframe, candles: seq<Candle>, bucket: int, i: int)
    requires Count(source, target) > 0 && !(0 <= i && i + Count(source, target) <= |candles|)
    requires forall k :: 0 <= k < |candles| ==>
      (InBucket(target, bucket)(candles[k]) <==> i <= k < i + Count(source, target))
    ensures !Complete(source, target, candles, bucket)
  {
    hide BucketStart, Duration, Count, Complete, Filter, InBucket;
    var n, m := Count(source, target), |candles|;
    var lo := if i < 0 then 0 else if i > m then m else i;
    var hi := if i + n > m then m else if i + n < lo then lo else i + n;
    FilterRange(InBucket(target, bucket), candles, lo, hi);
    if Complete(source, target, candles, bucket) {
      CompleteCount(source, target, candles, bucket);
    }
  }
}
