/** The append-only resampling state: it depends only on the last candles supplied, and its
    bars are those of the batch reference wherever that one accepts the source. */
module IncrementalResampling {
  import opened Wrappers
  import opened Timeframes
  import opened Sorting
  import opened Resampling

  datatype Target = Target(buckets: map<int, seq<Candle>>, emitted: set<int>, bars: seq<Candle>)

  const NO_BARS := Target(map[], {}, [])

  /** One source candle: it joins its bucket, which is emitted when it has just been filled
      with exactly the expected candles. */
  function TargetStep(total: Total, source: Timeframe, timeframe: Timeframe, s: Target, candle: Candle): Target {
    var bucket := BucketStart(candle.timestamp, timeframe);
    var group := (if bucket in s.buckets then s.buckets[bucket] else []) + [candle];
    var buckets := s.buckets[bucket := group];
    if |group| != Count(source, timeframe) || Opens(group) != ExpectedOpens(bucket, source, timeframe) || bucket in s.emitted
    then s.(buckets := buckets)
    else Target(buckets, s.emitted + {bucket}, s.bars + [Aggregate(total, bucket, group)])
  }

  /** The state of one target after some candles, from scratch. */
  function TargetOf(total: Total, source: Timeframe, timeframe: Timeframe, candles: seq<Candle>): Target {
    if candles == [] then NO_BARS
    else TargetStep(total, source, timeframe, TargetOf(total, source, timeframe, candles[..|candles| - 1]), candles[|candles| - 1])
  }

  class IncrementalResampler {
    const total: Total
    const source: Timeframe
    const timeframes: seq<Timeframe>
    var sourceCandles: seq<Candle>
    var targets: map<Timeframe, Target>

    /** Whatever was appended before, every target is as if built from the last candles. */
    ghost predicate Valid()
      reads this
    {
      && (forall i, j :: 0 <= i < j < |timeframes| ==> timeframes[i] != timeframes[j])
      && forall t :: t in timeframes ==> t in targets && targets[t] == TargetOf(total, source, t, sourceCandles)
    }

    constructor (total: Total, source: Timeframe, timeframes: seq<Timeframe>)
      requires forall i, j :: 0 <= i < j < |timeframes| ==> timeframes[i] != timeframes[j]
      ensures Valid() && sourceCandles == []
      ensures this.total == total && this.source == source && this.timeframes == timeframes
    {
      this.total, this.source, this.timeframes := total, source, timeframes;
      sourceCandles := [];
      targets := map t | t in timeframes :: NO_BARS;
    }

    method Reset()
      requires forall i, j :: 0 <= i < j < |timeframes| ==> timeframes[i] != timeframes[j]
      modifies this
      ensures Valid() && sourceCandles == []
    {
      sourceCandles := [];
      targets := map t | t in timeframes :: NO_BARS;
    }

    /** Extend the known prefix, or start over when the candles do not extend it. */
    method Append(candles: seq<Candle>)
      requires Valid()
      modifies this
      ensures Valid() && sourceCandles == candles
    {
      hide TargetStep;
      if !(sourceCandles <= candles) {
        Reset();
      }
      var i := |sourceCandles|;
      assert candles[..i] == sourceCandles;
      while i < |candles|
        invariant i <= |candles|
        invariant forall t :: t in timeframes ==> t in targets && targets[t] == TargetOf(total, source, t, candles[..i])
      {
        var k := 0;
        while k < |timeframes|
          invariant 0 <= k <= |timeframes|
          invariant forall x :: 0 <= x < |timeframes| ==>
            timeframes[x] in targets && targets[timeframes[x]] == TargetOf(total, source, timeframes[x], candles[..if x < k then i + 1 else i])
        {
          assert candles[..i + 1][..i] == candles[..i];
          targets := targets[timeframes[k] := TargetStep(total, source, timeframes[k], targets[timeframes[k]], candles[i])];
          k := k + 1;
        }
        i := i + 1;
      }
      assert candles[..|candles|] == candles;
      sourceCandles := candles;
    }

    /** The bars of every target. */
    method Snapshot() returns (r: map<Timeframe, seq<Candle>>)
      requires Valid()
      ensures r.Keys == (set t | t in timeframes)
      ensures forall t :: t in timeframes ==> r[t] == TargetOf(total, source, t, sourceCandles).bars
    {
      return map t | t in timeframes :: targets[t].bars;
    }
  }

  // ---- no look-ahead ---------------------------------------------------------------

  /** Bars are only ever added: what a prefix showed is never revised by later candles,
      canonical or not. */
  lemma {:induction false} BarsNeverRevised(total: Total, source: Timeframe, timeframe: Timeframe, candles: seq<Candle>, k: nat)
    requires k <= |candles|
    ensures TargetOf(total, source, timeframe, candles[..k]).bars <= TargetOf(total, source, timeframe, candles).bars
    decreases |candles|
  {
    hide Aggregate, ExpectedOpens, Count, BucketStart;
    if k < |candles| {
      var init := candles[..|candles| - 1];
      BarsNeverRevised(total, source, timeframe, init, k);
      assert init[..k] == candles[..k];
    } else {
      assert candles[..k] == candles;
    }
  }

  // ---- refinement ------------------------------------------------------------------

  lemma {:induction false} MinutesShift(q: int, m: int)
    ensures q * (m * MINUTE) == (q * m) * MINUTE
  {
  }

  lemma {:induction false} MinuteSeconds(z: int)
    ensures (z * MINUTE) % SECOND == 0
  {
  }

  lemma {:induction false} WholeMinutes(q: int, d: int)
    requires d % MINUTE == 0
    ensures (q * d) % SECOND == 0
  {
    var m := d / MINUTE;
    MinutesShift(q, m);
    MinuteSeconds(q * m);
  }

  lemma {:induction false} Regroup(q: int, n: int)
    ensures q * n * SECOND == q * (n * SECOND)
  {
  }

  lemma {:induction false} AlignedSeconds(t: int, source: Timeframe)
    requires BucketStart(t, source) == t
    ensures t % SECOND == 0
  {
    hide WholeSeconds;
    if source.OneDay? {
      WholeMinutes(t / DAY, DAY);
    } else if source.OneWeek? {
      WholeMinutes(t / DAY - (t / DAY + 3) % 7, DAY);
    } else {
      var d := Duration(source);
      var q := WholeSeconds(t) / (d / SECOND);
      Regroup(q, d / SECOND);
      assert d / SECOND * SECOND == d;
      hide Duration;
      WholeMinutes(q, d);
    }
  }

  /** An aligned candle lies in its bucket. */
  lemma {:induction false} InsideBucket(t: int, source: Timeframe, target: Timeframe)
    requires BucketStart(t, source) == t
    ensures BucketStart(t, target) <= t < BucketStart(t, target) + Duration(target)
  {
    hide BucketStart, Duration;
    AlignedSeconds(t, source);
    WholeInCell(t, target);
  }

  lemma {:induction false} GridMono(a: int, b: int, target: Timeframe)
    requires a <= b
    ensures GridFloor(a, target) <= GridFloor(b, target)
  {
    var d := Duration(target);
    var offset := if target.OneWeek? then 4 * DAY else 0;
    FloorMono(a - offset, b - offset, d);
  }

  lemma {:induction false} FloorMono(a: int, b: int, d: int)
    requires a <= b && d > 0
    ensures (a / d) * d <= (b / d) * d
  {
    FloorBounds(a, d);
    FloorBounds(b, d);
    FactorOrder(a / d, b / d + 1, d);
    ScaleOrder(a / d, b / d, d);
  }

  lemma {:induction false} BucketsMono(a: int, b: int, source: Timeframe, target: Timeframe)
    requires BucketStart(a, source) == a && BucketStart(b, source) == b && a <= b
    ensures BucketStart(a, target) <= BucketStart(b, target)
  {
    AlignedSeconds(a, source);
    AlignedSeconds(b, source);
    WholeInCell(a, target);
    WholeInCell(b, target);
    GridMono(a, b, target);
  }

  ghost predicate Rising(ks: seq<int>) {
    forall i, j :: 0 <= i < j < |ks| ==> ks[i] < ks[j]
  }

  lemma {:induction false} RisingLast(ks: seq<int>, k: int)
    requires Rising(ks) && ks != [] && ks[|ks| - 1] <= k
    ensures k in ks <==> k == ks[|ks| - 1]
    ensures k !in ks ==> Rising(ks + [k])
  {
  }

  /** The buckets of canonical candles appear in increasing order, the last one last. */
  lemma {:induction false} BucketsInOrder(source: Timeframe, target: Timeframe, candles: seq<Candle>)
    requires Canonical(source, candles)
    ensures var ks := BucketsOf(candles, target);
      && Rising(ks)
      && (candles != [] ==> ks != [] && ks[|ks| - 1] == BucketStart(candles[|candles| - 1].timestamp, target))
    decreases |candles|
  {
    hide BucketStart, Duration, Rising;
    if candles == [] {
      FewRising();
    } else if |candles| == 1 {
      FewRising();
      assert candles[..|candles| - 1] == [];
      assert BucketsOf(candles, target) == [BucketStart(candles[0].timestamp, target)];
    } else {
      var init, last := candles[..|candles| - 1], candles[|candles| - 1];
      BucketsInOrder(source, target, init);
      BeforeLast(source, candles);
      BucketsMono(init[|init| - 1].timestamp, last.timestamp, source, target);
      RisingLast(BucketsOf(init, target), BucketStart(last.timestamp, target));
    }
  }

  lemma {:induction false} FewRising()
    ensures Rising([]) && forall k :: Rising([k])
  {
  }

  lemma {:induction false} BeforeLast(source: Timeframe, candles: seq<Candle>)
    requires Canonical(source, candles) && |candles| >= 2
    ensures candles[|candles| - 2].timestamp <= candles[|candles| - 1].timestamp
  {
    hide BucketStart;
  }

  /** What a target holds after canonical candles: its groups, and the bars of the complete
      buckets in order. */
  ghost predicate Refines(total: Total, source: Timeframe, target: Timeframe, candles: seq<Candle>, s: Target) {
    && (forall bucket :: bucket in s.buckets <==> bucket in BucketsOf(candles, target))
    && (forall bucket :: bucket in s.buckets ==> s.buckets[bucket] == Group(candles, target, bucket))
    && (forall bucket :: bucket in s.emitted <==> bucket in BucketsOf(candles, target) && Complete(source, target, candles, bucket))
    && s.bars == BarsOf(total, source, target, candles, BucketsOf(candles, target))
  }

  lemma {:induction false} GroupAppend(candles: seq<Candle>, candle: Candle, target: Timeframe, bucket: int)
    ensures Group(candles + [candle], target, bucket)
         == if BucketStart(candle.timestamp, target) == bucket then Group(candles, target, bucket) + [candle] else Group(candles, target, bucket)
  {
    hide BucketStart;
    assert (candles + [candle])[..|candles|] == candles;
  }

  /** Bars of other buckets are not touched by one more candle. */
  lemma {:induction false} BarsElsewhere(total: Total, source: Timeframe, target: Timeframe, candles: seq<Candle>, candle: Candle, buckets: seq<int>)
    requires BucketStart(candle.timestamp, target) !in buckets
    ensures BarsOf(total, source, target, candles + [candle], buckets) == BarsOf(total, source, target, candles, buckets)
    decreases |buckets|
  {
    hide BucketStart, Group, Aggregate, ExpectedOpens;
    if buckets != [] {
      BarsElsewhere(total, source, target, candles, candle, buckets[..|buckets| - 1]);
      GroupAppend(candles, candle, target, buckets[|buckets| - 1]);
    }
  }

  lemma {:induction false} CompleteElsewhere(source: Timeframe, target: Timeframe, candles: seq<Candle>, candle: Candle, bucket: int)
    requires BucketStart(candle.timestamp, target) != bucket
    ensures Complete(source, target, candles + [candle], bucket) == Complete(source, target, candles, bucket)
  {
    hide BucketStart, Group, ExpectedOpens;
    GroupAppend(candles, candle, target, bucket);
  }

  lemma {:induction false} LastInGroup(candles: seq<Candle>, target: Timeframe, bucket: int)
    requires Group(candles, target, bucket) != []
    ensures var group := Group(candles, target, bucket); group[|group| - 1] in candles
    decreases |candles|
  {
    hide BucketStart;
    var group := Group(candles, target, bucket);
    FilterKeeps(InBucket(target, bucket), candles, group[|group| - 1]);
  }

  lemma {:induction false} DivideTimes(n: int, d: int)
    requires d > 0 && n >= d && n % d == 0
    ensures (n / d) * d == n && n / d > 0
  {
    FloorBounds(n, d);
    assert n == (n / d) * d + n % d;
    FactorOrder(0, n / d, d);
  }

  lemma {:induction false} CountTimes(source: Timeframe, target: Timeframe)
    requires Multiple(source, target)
    ensures Count(source, target) * Duration(source) == Duration(target) && Count(source, target) > 0
  {
    hide Duration;
    DivideTimes(Duration(target), Duration(source));
  }

  /** The next candle of a canonical source never falls into a complete bucket. */
  lemma {:induction false} CompleteIsClosed(source: Timeframe, target: Timeframe, candles: seq<Candle>, candle: Candle, bucket: int)
    requires Multiple(source, target) && Canonical(source, candles + [candle]) && Complete(source, target, candles, bucket)
    ensures BucketStart(candle.timestamp, target) != bucket
    ensures bucket + Duration(target) <= candles[|candles| - 1].timestamp + Duration(source)
  {
    hide BucketStart, Duration, Group, Canonical;
    var group := Group(candles, target, bucket);
    var n := |group|;
    LastInGroup(candles, target, bucket);
    CountTimes(source, target);
    assert n == |Opens(group)| == |ExpectedOpens(bucket, source, target)|;
    assert Opens(group)[n - 1] == ExpectedOpens(bucket, source, target)[n - 1];
    OneMore(n - 1, Duration(source));
    var i :| 0 <= i < |candles| && candles[i] == group[n - 1];
    NextOpens(source, candles, candle, i);
    CanonicalAligned(source, candles, candle);
    InsideBucket(candle.timestamp, source, target);
  }

  lemma {:induction false} CanonicalAligned(source: Timeframe, candles: seq<Candle>, candle: Candle)
    requires Canonical(source, candles + [candle])
    ensures BucketStart(candle.timestamp, source) == candle.timestamp && Canonical(source, candles)
  {
    hide BucketStart, Duration;
    var all := candles + [candle];
    assert all[|candles|] == candle;
    forall i | 0 <= i < |candles| ensures BucketStart(candles[i].timestamp, source) == candles[i].timestamp {
      assert all[i] == candles[i];
    }
    forall i | 0 <= i < |candles| - 1 ensures candles[i + 1].timestamp == candles[i].timestamp + Duration(source) {
      assert all[i] == candles[i] && all[i + 1] == candles[i + 1];
    }
  }

  lemma {:induction false} NextOpens(source: Timeframe, candles: seq<Candle>, candle: Candle, i: nat)
    requires Canonical(source, candles + [candle]) && i < |candles|
    ensures candles[i].timestamp + Duration(source) <= candle.timestamp
    ensures candles[i].timestamp <= candles[|candles| - 1].timestamp
  {
    hide BucketStart, Duration, Canonical;
    var all := candles + [candle];
    SpacedSorted(source, all, i, |candles|);
    SpacedSorted(source, all, i, |candles| - 1);
    ScaleOrder(1, |candles| - i, Duration(source));
    ScaleOrder(0, |candles| - 1 - i, Duration(source));
    assert all[i] == candles[i] && all[|candles|] == candle && all[|candles| - 1] == candles[|candles| - 1];
  }

  lemma {:induction false} NotYet(source: Timeframe, target: Timeframe, candles: seq<Candle>, candle: Candle)
    requires Multiple(source, target) && Canonical(source, candles + [candle])
    ensures !Complete(source, target, candles, BucketStart(candle.timestamp, target))
  {
    hide BucketStart, Complete;
    if Complete(source, target, candles, BucketStart(candle.timestamp, target)) {
      CompleteIsClosed(source, target, candles, candle, BucketStart(candle.timestamp, target));
    }
  }

  lemma {:induction false} BucketsAppend(candles: seq<Candle>, candle: Candle, target: Timeframe)
    ensures BucketsOf(candles + [candle], target)
         == var bucket := BucketStart(candle.timestamp, target);
            if bucket in BucketsOf(candles, target) then BucketsOf(candles, target) else BucketsOf(candles, target) + [bucket]
  {
    hide BucketStart;
    assert (candles + [candle])[..|candles|] == candles;
  }

  /** The bars due after one more candle. */
  lemma {:induction false} BarsStep(total: Total, source: Timeframe, target: Timeframe, candles: seq<Candle>, candle: Candle)
    requires Multiple(source, target) && Canonical(source, candles + [candle])
    ensures var all := candles + [candle]; var bucket := BucketStart(candle.timestamp, target);
      BarsOf(total, source, target, all, BucketsOf(all, target))
      == if Complete(source, target, all, bucket)
         then BarsOf(total, source, target, candles, BucketsOf(candles, target)) + [Aggregate(total, bucket, Group(all, target, bucket))]
         else BarsOf(total, source, target, candles, BucketsOf(candles, target))
  {
    hide BucketStart, Duration, Complete, Group, Aggregate, BarsOf, Canonical, BucketsOf, Multiple;
    var all := candles + [candle];
    var bucket := BucketStart(candle.timestamp, target);
    var ks := BucketsOf(candles, target);
    CanonicalAligned(source, candles, candle);
    BucketsInOrder(source, target, candles);
    BucketsInOrder(source, target, all);
    BucketsAppend(candles, candle, target);
    assert all[|all| - 1] == candle;
    if bucket in ks {
      var earlier := ks[..|ks| - 1];
      assert ks == earlier + [bucket];
      RisingInit(ks);
      BarsElsewhere(total, source, target, candles, candle, earlier);
      BarsAppend(total, source, target, candles, earlier, bucket);
      BarsAppend(total, source, target, all, earlier, bucket);
      NotYet(source, target, candles, candle);
    } else {
      BarsElsewhere(total, source, target, candles, candle, ks);
      BarsAppend(total, source, target, all, ks, bucket);
    }
  }

  lemma {:induction false} RisingInit(ks: seq<int>)
    requires Rising(ks) && ks != []
    ensures ks[|ks| - 1] !in ks[..|ks| - 1]
  {
  }

  /** What a step does to a target that is in step with the batch. */
  lemma {:induction false} StepEmits(total: Total, source: Timeframe, target: Timeframe, candles: seq<Candle>, candle: Candle, s: Target)
    requires Multiple(source, target) && Canonical(source, candles + [candle]) && Refines(total, source, target, candles, s)
    ensures var all := candles + [candle]; var bucket := BucketStart(candle.timestamp, target);
      var buckets := s.buckets[bucket := Group(all, target, bucket)];
      TargetStep(total, source, target, s, candle)
      == if Complete(source, target, all, bucket)
         then Target(buckets, s.emitted + {bucket}, s.bars + [Aggregate(total, bucket, Group(all, target, bucket))])
         else Target(buckets, s.emitted, s.bars)
  {
    hide BucketStart, Duration, Group, Aggregate, BarsOf, Canonical, BucketsOf, Multiple, Count, Opens, ExpectedOpens;
    var bucket := BucketStart(candle.timestamp, target);
    GroupAppend(candles, candle, target, bucket);
    NotYet(source, target, candles, candle);
    NoBucketYet(candles, target, bucket);
    assert Group(candles, target, bucket) == if bucket in s.buckets then s.buckets[bucket] else [];
  }

  lemma {:induction false} GroupsStep(source: Timeframe, target: Timeframe, candles: seq<Candle>, candle: Candle, other: int)
    requires other != BucketStart(candle.timestamp, target)
    ensures Group(candles + [candle], target, other) == Group(candles, target, other)
    ensures Complete(source, target, candles + [candle], other) == Complete(source, target, candles, other)
    ensures other in BucketsOf(candles + [candle], target) <==> other in BucketsOf(candles, target)
  {
    hide BucketStart, Group, Complete, BucketsOf;
    GroupAppend(candles, candle, target, other);
    CompleteElsewhere(source, target, candles, candle, other);
    BucketsAppend(candles, candle, target);
  }

  /** One more candle keeps the incremental target in step with the batch. */
  lemma {:induction false} RefinesStep(total: Total, source: Timeframe, target: Timeframe, candles: seq<Candle>, candle: Candle, s: Target)
    requires Multiple(source, target) && Canonical(source, candles + [candle]) && Refines(total, source, target, candles, s)
    ensures Refines(total, source, target, candles + [candle], TargetStep(total, source, target, s, candle))
  {
    hide BucketStart, Duration, Group, Aggregate, BarsOf, Canonical, BucketsOf, Multiple, Complete, TargetStep;
    var all := candles + [candle];
    var bucket := BucketStart(candle.timestamp, target);
    BarsStep(total, source, target, candles, candle);
    StepEmits(total, source, target, candles, candle, s);
    NotYet(source, target, candles, candle);
    BucketsAppend(candles, candle, target);
    assert bucket in BucketsOf(all, target);
    forall other | other != bucket
      ensures Group(all, target, other) == Group(candles, target, other)
      ensures Complete(source, target, all, other) == Complete(source, target, candles, other)
      ensures other in BucketsOf(all, target) <==> other in BucketsOf(candles, target)
    {
      GroupsStep(source, target, candles, candle, other);
    }
  }

  lemma {:induction false} TargetRefines(total: Total, source: Timeframe, target: Timeframe, candles: seq<Candle>)
    requires Multiple(source, target) && Canonical(source, candles)
    ensures Refines(total, source, target, candles, TargetOf(total, source, target, candles))
    decreases |candles|
  {
    hide BucketStart, Duration, Canonical, Multiple, TargetStep;
    if candles != [] {
      var init, last := candles[..|candles| - 1], candles[|candles| - 1];
      assert candles == init + [last];
      CanonicalAligned(source, init, last);
      TargetRefines(total, source, target, init);
      RefinesStep(total, source, target, init, last, TargetOf(total, source, target, init));
    }
  }

  // ---- the main results ------------------------------------------------------------

  lemma {:induction false} AllEligible(source: Timeframe, candles: seq<Candle>)
    requires candles != [] && Canonical(source, candles)
    ensures Filter(ClosedBy(source, candles[|candles| - 1].timestamp + Duration(source)), candles) == candles
  {
    hide BucketStart, Duration, Canonical;
    var keep := ClosedBy(source, candles[|candles| - 1].timestamp + Duration(source));
    CanonicalIncreasing(source, candles);
    forall c | c in candles ensures keep(c) {
      var i :| 0 <= i < |candles| && candles[i] == c;
      if i < |candles| - 1 {
        assert candles[i].timestamp < candles[|candles| - 1].timestamp;
      }
    }
    KeepsAll(keep, candles);
  }

  lemma {:induction false} KeepsAll<T(!new)>(keep: T -> bool, rows: seq<T>)
    requires forall x :: x in rows ==> keep(x)
    ensures Filter(keep, rows) == rows
    decreases |rows|
  {
    if rows != [] {
      var init, last := rows[..|rows| - 1], rows[|rows| - 1];
      assert last in rows;
      KeepsAll(keep, init);
      assert rows == init + [last];
    }
  }

  lemma {:induction false} SortedBuckets(ks: seq<int>)
    requires Rising(ks)
    ensures Sort(IntLe, ks) == ks
  {
    SortRestores(IntLe, ks, ks);
  }

  /** A complete bucket has ended by the last close, so the cutoff withholds nothing more. */
  lemma {:induction false} BarsWithCutoff(total: Total, source: Timeframe, target: Timeframe, candles: seq<Candle>, buckets: seq<int>)
    requires Multiple(source, target) && Canonical(source, candles) && candles != []
    ensures BarsOf(total, source, target, candles, Filter(EndsBy(target, candles[|candles| - 1].timestamp + Duration(source)), buckets))
         == BarsOf(total, source, target, candles, buckets)
    decreases |buckets|
  {
    hide BucketStart, Duration, Complete, Group, Aggregate, Canonical, Multiple;
    if buckets != [] {
      var keep := EndsBy(target, candles[|candles| - 1].timestamp + Duration(source));
      var init, bucket := buckets[..|buckets| - 1], buckets[|buckets| - 1];
      assert buckets == init + [bucket];
      BarsWithCutoff(total, source, target, candles, init);
      BarsAppend(total, source, target, candles, init, bucket);
      if keep(bucket) {
        BarsAppend(total, source, target, candles, Filter(keep, init), bucket);
        assert Filter(keep, buckets) == Filter(keep, init) + [bucket];
      } else {
        assert Filter(keep, buckets) == Filter(keep, init);
        if Complete(source, target, candles, bucket) {
          CompleteEnds(source, target, candles, bucket);
        }
      }
    }
  }

  lemma {:induction false} CompleteEnds(source: Timeframe, target: Timeframe, candles: seq<Candle>, bucket: int)
    requires Multiple(source, target) && Canonical(source, candles) && Complete(source, target, candles, bucket)
    ensures candles != [] && bucket + Duration(target) <= candles[|candles| - 1].timestamp + Duration(source)
  {
    hide BucketStart, Duration, Group, Canonical;
    var group := Group(candles, target, bucket);
    var n := |group|;
    LastInGroup(candles, target, bucket);
    CountTimes(source, target);
    assert n == |Opens(group)| == |ExpectedOpens(bucket, source, target)|;
    assert Opens(group)[n - 1] == ExpectedOpens(bucket, source, target)[n - 1];
    OneMore(n - 1, Duration(source));
    var i :| 0 <= i < |candles| && candles[i] == group[n - 1];
    CanonicalIncreasing(source, candles);
  }

  /** Incremental resampling refines batch resampling: for every aligned gap-free source and
      every coarser multiple of it, the bars after any history of appends are those of the
      batch at the last close. */
  lemma {:induction false} SnapshotIsBatch(total: Total, source: Timeframe, target: Timeframe, candles: seq<Candle>)
    requires candles != [] && Canonical(source, candles) && Multiple(source, target) && target != source
    ensures Resample(total, source, target, candles, candles[|candles| - 1].timestamp + Duration(source))
         == Ok(TargetOf(total, source, target, candles).bars)
  {
    hide BucketStart, Duration, Canonical, BarsOf, BucketsOf, TargetOf, Multiple;
    AllEligible(source, candles);
    TargetRefines(total, source, target, candles);
    BucketsInOrder(source, target, candles);
    SortedBuckets(BucketsOf(candles, target));
    BarsWithCutoff(total, source, target, candles, BucketsOf(candles, target));
  }

  // ---- the source timeframe itself -------------------------------------------------

  /** The source read back through one-candle buckets. */
  function Rewritten(total: Total, candles: seq<Candle>): (r: seq<Candle>)
    ensures |r| == |candles|
  {
    seq(|candles|, i requires 0 <= i < |candles| => candles[i].(volume := total([candles[i].volume])))
  }

  lemma {:induction false} SameTimeframeStep(total: Total, source: Timeframe, s: Target, candle: Candle)
    requires BucketStart(candle.timestamp, source) == candle.timestamp && candle.timestamp !in s.buckets && candle.timestamp !in s.emitted
    ensures TargetStep(total, source, source, s, candle)
         == Target(s.buckets[candle.timestamp := [candle]], s.emitted + {candle.timestamp},
                   s.bars + [candle.(volume := total([candle.volume]))])
  {
    hide BucketStart, Duration;
    assert [] + [candle] == [candle];
    assert Opens([candle]) == [candle.timestamp];
    SelfCount(source);
    assert ExpectedOpens(candle.timestamp, source, source) == [candle.timestamp];
    assert Volumes([candle]) == [candle.volume];
  }

  lemma {:induction false} SelfCount(source: Timeframe)
    ensures Count(source, source) == 1
  {
    hide Duration;
    FloorUnique(Duration(source), Duration(source), 1);
  }

  lemma {:induction false} SameTimeframeBars(total: Total, source: Timeframe, candles: seq<Candle>)
    requires Canonical(source, candles)
    ensures var s := TargetOf(total, source, source, candles);
      && s.bars == Rewritten(total, candles)
      && (forall t :: t in s.buckets || t in s.emitted ==> exists i :: 0 <= i < |candles| && candles[i].timestamp == t)
    decreases |candles|
  {
    hide BucketStart, Duration, TargetStep, Canonical;
    if candles != [] {
      var init, last := candles[..|candles| - 1], candles[|candles| - 1];
      assert candles == init + [last];
      CanonicalAligned(source, init, last);
      SameTimeframeBars(total, source, init);
      CanonicalIncreasing(source, candles);
      var s := TargetOf(total, source, source, init);
      forall i | 0 <= i < |init| ensures init[i].timestamp < last.timestamp {
        assert candles[i].timestamp < candles[|candles| - 1].timestamp;
      }
      SameTimeframeStep(total, source, s, last);
      assert Rewritten(total, candles) == Rewritten(total, init) + [last.(volume := total([last.volume]))];
      forall t | t in TargetOf(total, source, source, candles).buckets || t in TargetOf(total, source, source, candles).emitted
        ensures exists i :: 0 <= i < |candles| && candles[i].timestamp == t
      {
        if t == last.timestamp {
          assert candles[|candles| - 1].timestamp == t;
        } else {
          var i :| 0 <= i < |init| && init[i].timestamp == t;
          assert candles[i].timestamp == t;
        }
      }
    }
  }

  /** When the target is the source itself the batch returns the candles untouched while the
      incremental state sums each volume on its own: they agree exactly when that sum gives
      every volume back. */
  lemma {:induction false} SourceItself(total: Total, source: Timeframe, candles: seq<Candle>)
    requires candles != [] && Canonical(source, candles)
    ensures Resample(total, source, source, candles, candles[|candles| - 1].timestamp + Duration(source))
         == Ok(TargetOf(total, source, source, candles).bars)
      <==> forall i :: 0 <= i < |candles| ==> total([candles[i].volume]) == candles[i].volume
  {
    hide BucketStart, Duration, Canonical, TargetOf, BarsOf, BucketsOf;
    AllEligible(source, candles);
    SameTimeframeBars(total, source, candles);
    var r := Rewritten(total, candles);
    forall i | 0 <= i < |candles| ensures r[i] == candles[i] <==> total([candles[i].volume]) == candles[i].volume {
    }
    assert r == candles <==> forall i :: 0 <= i < |candles| ==> r[i] == candles[i];
  }
}
