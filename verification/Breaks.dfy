/** Structure breaks: a candle may break the latest unbroken swing that was confirmed by its
    open, in at most one direction. */
module Breaks {
  import opened Wrappers
  import opened Sorting
  import opened Resampling
  import opened Swings
  import opened Zones

  datatype Trend = Bullish | Bearish | Range | InsufficientData
  datatype Direction = Up | Down
  datatype EventType = BOS | MSS | Break

  /** A break of market structure; a shift (MSS) is displayed under its alias. */
  datatype BreakEvent = BreakEvent(
    eventType: EventType, direction: Direction, price: real, timestamp: int, broken: SwingId,
    confirmedAt: int, aliased: bool, trendBefore: Trend)

  datatype Rejection = Rejection(timestamp: int, confirmedAt: int, up: SwingId, down: SwingId)

  datatype BreakState = BreakState(events: seq<BreakEvent>, rejections: seq<Rejection>, broken: set<SwingId>)

  const UNBROKEN := BreakState([], [], {})

  // ---- trend -----------------------------------------------------------------------

  function LastN<T>(xs: seq<T>, n: nat): seq<T> {
    if |xs| <= n then xs else xs[|xs| - n..]
  }

  predicate Climbs(swings: seq<Swing>, tolerance: real) {
    forall i :: 0 <= i < |swings| - 1 ==> swings[i + 1].price > swings[i].price + tolerance
  }

  predicate Falls(swings: seq<Swing>, tolerance: real) {
    forall i :: 0 <= i < |swings| - 1 ==> swings[i + 1].price < swings[i].price - tolerance
  }

  /** `_classify_trend`, from the last highs and lows. */
  function ClassifyTrend(c: Config, swings: seq<Swing>): Trend {
    var highs, lows := LastN(OfKind(High, swings), c.trendPoints), LastN(OfKind(Low, swings), c.trendPoints);
    var tolerance := c.tick * c.equalityTicks as real;
    if |highs| < c.trendPoints || |lows| < c.trendPoints then InsufficientData
    else if Climbs(highs, tolerance) && Climbs(lows, tolerance) then Bullish
    else if Falls(highs, tolerance) && Falls(lows, tolerance) then Bearish
    else Range
  }

  // ---- one candle ------------------------------------------------------------------

  function KnownBy(t: int): Swing -> bool {
    (s: Swing) => s.confirmedAt <= t
  }

  /** `_latest_unbroken_swing`: the first greatest by confirmation and pivot. */
  function LatestUnbroken(swings: seq<Swing>, kind: SwingKind, broken: set<SwingId>): Option<Swing> {
    if swings == [] then None
    else
      var earlier := LatestUnbroken(swings[..|swings| - 1], kind, broken);
      var last := swings[|swings| - 1];
      if last.kind == kind && last.Id() !in broken && (earlier.None? || !ByConfirmation(last, earlier.value)) then Some(last)
      else earlier
  }

  function EventTypeFor(direction: Direction, trend: Trend): EventType {
    if direction.Up? then (if trend.Bullish? then BOS else if trend.Bearish? then MSS else Break)
    else (if trend.Bearish? then BOS else if trend.Bullish? then MSS else Break)
  }

  function Buffer(c: Config): real {
    c.tick * c.bufferTicks as real
  }

  /** What a candle does to given levels under a given trend. */
  function BreakWith(c: Config, b: BreakState, candle: Candle, trend: Trend, up: Option<Swing>, down: Option<Swing>): BreakState {
    var upValue := if c.basis.Close? then candle.close else candle.high;
    var downValue := if c.basis.Close? then candle.close else candle.low;
    var upBreak := up.Some? && upValue > up.value.price + Buffer(c);
    var downBreak := down.Some? && downValue < down.value.price - Buffer(c);
    var confirmedAt := candle.timestamp + c.duration;
    if upBreak && downBreak then
      b.(rejections := b.rejections + [Rejection(candle.timestamp, confirmedAt, up.value.Id(), down.value.Id())])
    else if !upBreak && !downBreak then b
    else
      var direction := if upBreak then Up else Down;
      var level := if upBreak then up.value else down.value;
      var eventType := EventTypeFor(direction, trend);
      var event := BreakEvent(eventType, direction, if upBreak then upValue else downValue, candle.timestamp, level.Id(),
                              confirmedAt, eventType.MSS?, trend);
      BreakState(b.events + [event], b.rejections, b.broken + {level.Id()})
  }

  /** Only swings confirmed by the candle's open count. */
  function BreakAt(c: Config, swings: seq<Swing>, b: BreakState, candle: Candle): BreakState {
    var eligible := Filter(KnownBy(candle.timestamp), swings);
    BreakWith(c, b, candle, ClassifyTrend(c, eligible),
              LatestUnbroken(eligible, High, b.broken), LatestUnbroken(eligible, Low, b.broken))
  }

  /** The breaks of a history, given all of its swings. */
  function BreaksOf(c: Config, candles: seq<Candle>, swings: seq<Swing>): BreakState {
    if candles == [] then UNBROKEN
    else BreakAt(c, swings, BreaksOf(c, candles[..|candles| - 1], swings), candles[|candles| - 1])
  }

  // ---- swings still to come do not count -------------------------------------------

  lemma {:induction false} FilterNone<T(!new)>(keep: T -> bool, rows: seq<T>, more: seq<T>)
    requires forall i :: 0 <= i < |more| ==> !keep(more[i])
    ensures Filter(keep, rows + more) == Filter(keep, rows)
    decreases |more|
  {
    if more == [] {
      assert rows + more == rows;
    } else {
      var init := more[..|more| - 1];
      FilterNone(keep, rows, init);
      assert (rows + more)[..|rows + more| - 1] == rows + init;
    }
  }

  /** Breaks up to a candle do not depend on swings confirmed after it opened. */
  lemma {:induction false} LaterSwingsIgnored(c: Config, candles: seq<Candle>, swings: seq<Swing>, more: seq<Swing>)
    requires forall i, k :: 0 <= i < |more| && 0 <= k < |candles| ==> more[i].confirmedAt > candles[k].timestamp
    ensures BreaksOf(c, candles, swings + more) == BreaksOf(c, candles, swings)
    decreases |candles|
  {
    hide BreakWith, ClassifyTrend;
    if candles != [] {
      LaterSwingsIgnored(c, candles[..|candles| - 1], swings, more);
      FilterNone(KnownBy(candles[|candles| - 1].timestamp), swings, more);
    }
  }

  ghost predicate Increasing(candles: seq<Candle>) {
    forall i, j :: 0 <= i < j < |candles| ==> candles[i].timestamp < candles[j].timestamp
  }

  lemma {:induction false} NewSwingsAreLate(c: Config, candles: seq<Candle>, pivots: seq<Pivot>)
    requires candles != [] && InReach(c, |candles|, pivots)
    ensures forall i :: 0 <= i < |NewSwings(c, candles, pivots)| ==>
      NewSwings(c, candles, pivots)[i].confirmedAt == candles[|candles| - 1].timestamp + c.duration
    decreases |pivots|
  {
    hide CandidateOf;
    if pivots != [] {
      NewSwingsAreLate(c, candles, pivots[..|pivots| - 1]);
    }
  }

  /** One more candle: its breaks are computed with the swings confirmed so far, and the
      breaks before it stay. */
  lemma {:induction false} BreaksStep(c: Config, candles: seq<Candle>)
    requires candles != [] && ConfigOk(c) && Increasing(candles)
    ensures BreaksOf(c, candles, SwingsOf(c, candles))
         == BreakAt(c, SwingsOf(c, candles),
                    BreaksOf(c, candles[..|candles| - 1], SwingsOf(c, candles[..|candles| - 1])), candles[|candles| - 1])
  {
    hide BreakAt, SwingsOf, NewSwings, Pivots;
    var n := |candles| - 1;
    var before := candles[..n];
    SwingsStep(c, candles);
    PivotsInReach(c, before);
    NewSwingsAreLate(c, candles, Pivots(c, before));
    forall k | 0 <= k < n ensures before[k].timestamp < candles[n].timestamp {
      assert candles[k].timestamp < candles[n].timestamp;
    }
    LaterSwingsIgnored(c, before, SwingsOf(c, before), NewSwings(c, candles, Pivots(c, before)));
  }

  lemma {:induction false} BreakGrows(c: Config, b: BreakState, candle: Candle, trend: Trend, up: Option<Swing>, down: Option<Swing>)
    ensures var next := BreakWith(c, b, candle, trend, up, down);
      b.events <= next.events && b.rejections <= next.rejections
  {
  }

  /** No look-ahead: later candles only append to the events and rejections. */
  lemma {:induction false} EventsNeverRevised(c: Config, candles: seq<Candle>, k: nat)
    requires k <= |candles| && ConfigOk(c) && Increasing(candles)
    ensures var early, late := BreaksOf(c, candles[..k], SwingsOf(c, candles[..k])), BreaksOf(c, candles, SwingsOf(c, candles));
      early.events <= late.events && early.rejections <= late.rejections
    decreases |candles|
  {
    hide BreaksOf, SwingsOf, BreakWith;
    if k < |candles| {
      var n := |candles| - 1;
      var before, last := candles[..n], candles[n];
      EventsNeverRevised(c, before, k);
      assert before[..k] == candles[..k];
      BreaksStep(c, candles);
      var b := BreaksOf(c, before, SwingsOf(c, before));
      var eligible := Filter(KnownBy(last.timestamp), SwingsOf(c, candles));
      BreakGrows(c, b, last, ClassifyTrend(c, eligible), LatestUnbroken(eligible, High, b.broken), LatestUnbroken(eligible, Low, b.broken));
    } else {
      assert candles[..k] == candles;
    }
  }

  // ---- each swing breaks at most once ----------------------------------------------

  lemma {:induction false} LatestIsUnbroken(swings: seq<Swing>, kind: SwingKind, broken: set<SwingId>)
    ensures var s := LatestUnbroken(swings, kind, broken);
      s.Some? ==> s.value in swings && s.value.kind == kind && s.value.Id() !in broken
    decreases |swings|
  {
    if swings != [] {
      LatestIsUnbroken(swings[..|swings| - 1], kind, broken);
    }
  }

  ghost predicate BrokenOnce(b: BreakState, swings: seq<Swing>) {
    && (forall i, j :: 0 <= i < j < |b.events| ==> b.events[i].broken != b.events[j].broken)
    && (forall i :: 0 <= i < |b.events| ==> b.events[i].broken in b.broken && ConfirmedBefore(b.events[i], swings))
  }

  /** The broken swing is a confirmed swing of the right kind, confirmed by the candle's open. */
  ghost predicate ConfirmedBefore(e: BreakEvent, swings: seq<Swing>) {
    exists k :: 0 <= k < |swings| && swings[k].Id() == e.broken && swings[k].confirmedAt <= e.timestamp
      && swings[k].kind == (if e.direction.Up? then High else Low)
  }

  lemma {:induction false} BreakAtOnce(c: Config, swings: seq<Swing>, b: BreakState, candle: Candle)
    requires BrokenOnce(b, swings)
    ensures BrokenOnce(BreakAt(c, swings, b, candle), swings)
  {
    hide ClassifyTrend, LatestUnbroken, ConfirmedBefore;
    var eligible := Filter(KnownBy(candle.timestamp), swings);
    LatestIsUnbroken(eligible, High, b.broken);
    LatestIsUnbroken(eligible, Low, b.broken);
    var next := BreakAt(c, swings, b, candle);
    if next.events != b.events {
      var event := next.events[|b.events|];
      var level := LatestUnbroken(eligible, if event.direction.Up? then High else Low, b.broken).value;
      FilterKeeps(KnownBy(candle.timestamp), swings, level);
      LevelConfirms(event, level, swings);
    }
  }

  lemma {:induction false} LevelConfirms(e: BreakEvent, level: Swing, swings: seq<Swing>)
    requires level in swings && level.Id() == e.broken && level.confirmedAt <= e.timestamp
    requires level.kind == (if e.direction.Up? then High else Low)
    ensures ConfirmedBefore(e, swings)
  {
    var k :| 0 <= k < |swings| && swings[k] == level;
  }

  /** Each swing is broken at most once, and only by a candle that opens at or after its
      confirmation. */
  lemma {:induction false} EachSwingBreaksOnce(c: Config, candles: seq<Candle>, swings: seq<Swing>)
    ensures BrokenOnce(BreaksOf(c, candles, swings), swings)
    decreases |candles|
  {
    hide BreakAt, ConfirmedBefore;
    if candles != [] {
      EachSwingBreaksOnce(c, candles[..|candles| - 1], swings);
      BreakAtOnce(c, swings, BreaksOf(c, candles[..|candles| - 1], swings), candles[|candles| - 1]);
    }
  }
}
