/** What the indicator lists are when nothing is rounded: averages as recurrences and as weighted
    sums, true ranges as least bounds, crossovers as changes of sign. */
module IndicatorLaws {
  import opened Wrappers
  import opened Timeframes
  import opened Resampling
  import opened Indicators

  const EXACT: Rounding := (x: real) => x

  /** Added up from the front. */
  function Plain(xs: seq<real>): real {
    if xs == [] then 0.0 else xs[0] + Plain(xs[1..])
  }

  lemma {:induction false} PlainAppend(xs: seq<real>, x: real)
    ensures Plain(xs + [x]) == Plain(xs) + x
    decreases |xs|
  {
    if xs == [] {
      assert [x][1..] == [];
    } else {
      PlainAppend(xs[1..], x);
      assert (xs + [x])[1..] == xs[1..] + [x];
    }
  }

  lemma {:induction false} SumIsPlain(xs: seq<real>)
    ensures Sum(EXACT, xs) == Plain(xs)
    decreases |xs|
  {
    if xs != [] {
      var init, last := xs[..|xs| - 1], xs[|xs| - 1];
      SumIsPlain(init);
      PlainAppend(init, last);
      assert init + [last] == xs;
    }
  }

  lemma {:induction false} MeanIsPlain(xs: seq<real>)
    requires xs != []
    ensures |xs| as real * Mean(EXACT, xs) == Plain(xs)
  {
    SumIsPlain(xs);
  }

  // ---- exponential averages --------------------------------------------------------

  /** Each value moves the average by two parts in one more than the period. */
  ghost predicate Smoothed(period: nat, values: seq<real>, r: Values, i: nat)
    requires 1 <= i < |r| == |values|
  {
    r[i].Some? && r[i - 1].Some?
    && (period + 1) as real * r[i].value == 2.0 * values[i] + (period - 1) as real * r[i - 1].value
  }

  /** Nothing before the period is full, then the mean, then smoothing. */
  ghost predicate Averages(period: nat, values: seq<real>, r: Values)
    requires period >= 1
  {
    && |r| == |values|
    && (forall i :: 0 <= i < |r| ==> (r[i].Some? <==> i >= period - 1))
    && (period <= |r| ==> period as real * r[period - 1].value == Plain(values[..period]))
    && (forall i: nat :: period <= i < |r| ==> Smoothed(period, values, r, i))
  }

  lemma {:induction false} SmoothExact(period: nat, previous: real, x: real)
    requires period >= 1
    ensures (period + 1) as real * Smooth(EXACT, period, previous, x) == 2.0 * x + (period - 1) as real * previous
  {
    var n := (period + 1) as real;
    Share(n, x - previous);
    assert Smooth(EXACT, period, previous, x) == previous + (2.0 / n) * (x - previous);
    Spread(n, previous, (2.0 / n) * (x - previous));
    TwoTimes(n, previous);
  }

  lemma {:induction false} Share(n: real, d: real)
    requires n > 0.0
    ensures n * ((2.0 / n) * d) == 2.0 * d
  {
  }

  lemma {:induction false} Spread(n: real, a: real, b: real)
    ensures n * (a + b) == n * a + n * b
  {
  }

  lemma {:induction false} TwoTimes(n: real, p: real)
    ensures n * p - 2.0 * p == (n - 2.0) * p
  {
  }

  /** The value at a position comes from the one before and the inputs so far. */
  lemma {:induction false} EmaAt(round: Rounding, period: nat, values: seq<real>, i: nat)
    requires period >= 1 && i < |values|
    ensures Emas(round, period, values)[i] == EmaNext(round, period, Emas(round, period, values)[..i], values[..i + 1])
  {
    hide EmaNext;
    EmaPrefix(round, period, values, i);
    EmaPrefix(round, period, values, i + 1);
    assert values[..i + 1][..i] == values[..i];
    assert Emas(round, period, values)[..i + 1][i] == Emas(round, period, values)[i];
  }

  lemma {:induction false} EmaSmooths(period: nat, values: seq<real>, i: nat)
    requires 1 <= period <= i < |values|
    ensures Smoothed(period, values, Emas(EXACT, period, values), i)
  {
    hide Smooth, Mean, Emas;
    EmaAt(EXACT, period, values, i);
    EmaDefined(EXACT, period, values, i);
    EmaDefined(EXACT, period, values, i - 1);
    SmoothExact(period, Emas(EXACT, period, values)[i - 1].value, values[i]);
  }

  lemma {:induction false} EmaSeeds(period: nat, values: seq<real>)
    requires 1 <= period <= |values|
    ensures var r := Emas(EXACT, period, values)[period - 1]; r.Some? && period as real * r.value == Plain(values[..period])
  {
    hide Smooth, Mean, Emas, Plain;
    EmaAt(EXACT, period, values, period - 1);
    MeanIsPlain(values[..period]);
  }

  lemma {:induction false} EmasAre(period: nat, values: seq<real>)
    requires period >= 1
    ensures Averages(period, values, Emas(EXACT, period, values))
  {
    hide Emas, Plain, Smoothed;
    var r := Emas(EXACT, period, values);
    forall i | 0 <= i < |r| ensures r[i].Some? <==> i >= period - 1 {
      EmaDefined(EXACT, period, values, i);
    }
    if period <= |values| {
      EmaSeeds(period, values);
    }
    forall i: nat | period <= i < |r| ensures Smoothed(period, values, r, i) {
      EmaSmooths(period, values, i);
    }
  }

  function Power(q: real, n: nat): real {
    if n == 0 then 1.0 else q * Power(q, n - 1)
  }

  /** Values weighted by their age, oldest first. */
  function Aged(q: real, xs: seq<real>): real {
    if xs == [] then 0.0 else Power(q, |xs| - 1) * xs[0] + Aged(q, xs[1..])
  }

  lemma {:induction false} AgedAppend(q: real, xs: seq<real>, x: real)
    ensures Aged(q, xs + [x]) == q * Aged(q, xs) + x
    decreases |xs|
  {
    hide Power;
    if xs == [] {
      assert [x][1..] == [];
      PowerZero(q);
    } else {
      AgedAppend(q, xs[1..], x);
      assert (xs + [x])[1..] == xs[1..] + [x];
      PowerStep(q, |xs| - 1);
      Regroup(q, Power(q, |xs| - 1), xs[0]);
      SpreadReal(q, Power(q, |xs| - 1) * xs[0], Aged(q, xs[1..]));
    }
  }

  lemma {:induction false} PowerZero(q: real)
    ensures Power(q, 0) == 1.0
  {
  }

  lemma {:induction false} PowerStep(q: real, n: nat)
    ensures Power(q, n + 1) == q * Power(q, n)
  {
  }

  lemma {:induction false} Regroup(a: real, b: real, c: real)
    ensures (a * b) * c == a * (b * c)
  {
  }

  lemma {:induction false} SpreadReal(q: real, a: real, b: real)
    ensures q * (a + b) == q * a + q * b
  {
  }

  /** An average in closed form: the seed and every later value, each weighted by its age. */
  lemma {:induction false} EmaIsWeighted(period: nat, values: seq<real>, i: nat)
    requires period >= 1 && period - 1 <= i < |values|
    ensures var r := Emas(EXACT, period, values);
      var q, a := (period - 1) as real / (period + 1) as real, 2.0 / (period + 1) as real;
      && r[i].Some? && r[period - 1].Some?
      && r[i].value == Power(q, i - (period - 1)) * r[period - 1].value + a * Aged(q, values[period..i + 1])
    decreases i
  {
    hide Power, Aged, Emas;
    var r := Emas(EXACT, period, values);
    var q, a := (period - 1) as real / (period + 1) as real, 2.0 / (period + 1) as real;
    if i == period - 1 {
      EmaSeeds(period, values);
      PowerZero(q);
      AgedNone(q, values[period..i + 1]);
    } else {
      EmaIsWeighted(period, values, i - 1);
      EmaSmooths(period, values, i);
      var k := i - period;
      PowerStep(q, k);
      assert values[period..i + 1] == values[period..i] + [values[i]];
      AgedAppend(q, values[period..i], values[i]);
      Divided((period + 1) as real, r[i].value, values[i], (period - 1) as real, r[i - 1].value);
      Weights(q, a, Power(q, k), r[period - 1].value, Aged(q, values[period..i]), values[i]);
    }
  }

  lemma {:induction false} AgedNone(q: real, xs: seq<real>)
    requires xs == []
    ensures Aged(q, xs) == 0.0
  {
  }

  lemma {:induction false} Divided(n: real, r: real, x: real, m: real, p: real)
    requires n > 0.0 && n * r == 2.0 * x + m * p
    ensures r == (2.0 / n) * x + (m / n) * p
  {
    Quotients(n, 2.0, x);
    Quotients(n, m, p);
    Spread(n, (2.0 / n) * x, (m / n) * p);
    Cancel(n, r, (2.0 / n) * x + (m / n) * p);
  }

  lemma {:induction false} Quotients(n: real, a: real, x: real)
    requires n > 0.0
    ensures n * ((a / n) * x) == a * x
  {
  }

  lemma {:induction false} Cancel(n: real, x: real, y: real)
    requires n > 0.0 && n * x == n * y
    ensures x == y
  {
  }

  lemma {:induction false} Weights(q: real, a: real, w: real, seed: real, aged: real, x: real)
    ensures a * x + q * (w * seed + a * aged) == (q * w) * seed + a * (q * aged + x)
  {
    SpreadReal(q, w * seed, a * aged);
    Regroup(q, w, seed);
    SpreadReal(a, q * aged, x);
    Regroup(q, a, aged);
    Regroup(a, q, aged);
  }

  // ---- true ranges -----------------------------------------------------------------

  /** The least bound of the candle's own range and of both distances to the previous close. */
  ghost predicate LeastBound(candles: seq<Candle>, i: nat, range: real)
    requires i < |candles|
  {
    var c := candles[i];
    && range >= c.high - c.low
    && (i == 0 ==> range == c.high - c.low)
    && (i > 0 ==>
          var close := candles[i - 1].close;
          && range >= c.high - close >= -range && range >= c.low - close >= -range
          && (range == c.high - c.low || range == c.high - close || range == close - c.high
              || range == c.low - close || range == close - c.low))
  }

  lemma {:induction false} RangesAre(candles: seq<Candle>, i: nat)
    requires i < |candles|
    ensures LeastBound(candles, i, TrueRanges(EXACT, candles)[i])
  {
  }

  // ---- average true ranges -----------------------------------------------------------

  /** The mean of the last ranges. */
  ghost predicate Rolled(period: nat, ranges: seq<real>, r: Values, i: nat)
    requires 1 <= period <= i + 1 && i < |r| == |ranges|
  {
    r[i].Some? && period as real * r[i].value == Plain(ranges[i + 1 - period..i + 1])
  }

  /** The old average with one part of the new range. */
  ghost predicate Wildered(period: nat, ranges: seq<real>, r: Values, i: nat)
    requires 1 <= period <= i < |r| == |ranges|
  {
    r[i].Some? && r[i - 1].Some? && period as real * r[i].value == (period - 1) as real * r[i - 1].value + ranges[i]
  }

  /** Nothing before the period is full; then rolling means, or one mean and smoothing. */
  ghost predicate RangeAverages(config: AtrConfig, ranges: seq<real>, r: Values)
    requires config.period >= 1
  {
    var n := config.period;
    && |r| == |ranges|
    && (forall i :: 0 <= i < |r| ==> (r[i].Some? <==> i >= n - 1))
    && (forall i: nat :: n - 1 <= i < |r| && (config.sma || i == n - 1) ==> Rolled(n, ranges, r, i))
    && (forall i: nat :: n <= i < |r| && !config.sma ==> Wildered(n, ranges, r, i))
  }

  lemma {:induction false} WilderExact(period: nat, previous: real, range: real)
    requires period >= 1
    ensures period as real * Wilder(EXACT, period, previous, range) == (period - 1) as real * previous + range
  {
    Quotients(period as real, (previous * (period - 1) as real) + range, 1.0);
  }

  lemma {:induction false} AtrPrefix(round: Rounding, config: AtrConfig, ranges: seq<real>, k: nat)
    requires config.period >= 1 && k <= |ranges|
    ensures Atrs(round, config, ranges[..k]) == Atrs(round, config, ranges)[..k]
    decreases |ranges|
  {
    hide AtrNext;
    if k == |ranges| {
      assert ranges[..k] == ranges;
    } else {
      assert ranges[..|ranges| - 1][..k] == ranges[..k];
      AtrPrefix(round, config, ranges[..|ranges| - 1], k);
    }
  }

  lemma {:induction false} AtrAtIndex(round: Rounding, config: AtrConfig, ranges: seq<real>, i: nat)
    requires config.period >= 1 && i < |ranges|
    ensures Atrs(round, config, ranges)[i] == AtrNext(round, config, Atrs(round, config, ranges)[..i], ranges[..i + 1])
  {
    hide AtrNext;
    AtrPrefix(round, config, ranges, i);
    AtrPrefix(round, config, ranges, i + 1);
    assert ranges[..i + 1][..i] == ranges[..i];
    assert Atrs(round, config, ranges)[..i + 1][i] == Atrs(round, config, ranges)[i];
  }

  lemma {:induction false} AtrRolls(config: AtrConfig, ranges: seq<real>, i: nat)
    requires 1 <= config.period <= i + 1 && i < |ranges| && (config.sma || i == config.period - 1)
    ensures Rolled(config.period, ranges, Atrs(EXACT, config, ranges), i)
  {
    hide Wilder, Mean, Atrs, Plain;
    AtrAtIndex(EXACT, config, ranges, i);
    var window := ranges[i + 1 - config.period..i + 1];
    assert ranges[..i + 1][i + 1 - config.period..] == window;
    MeanIsPlain(window);
  }

  lemma {:induction false} AtrSmooths(config: AtrConfig, ranges: seq<real>, i: nat)
    requires 1 <= config.period <= i < |ranges| && !config.sma
    ensures Wildered(config.period, ranges, Atrs(EXACT, config, ranges), i)
  {
    hide Wilder, Mean, Atrs;
    AtrAtIndex(EXACT, config, ranges, i);
    AtrDefined(EXACT, config, ranges, i - 1);
    WilderExact(config.period, Atrs(EXACT, config, ranges)[i - 1].value, ranges[i]);
  }

  lemma {:induction false} AtrsAre(config: AtrConfig, ranges: seq<real>)
    requires config.period >= 1
    ensures RangeAverages(config, ranges, Atrs(EXACT, config, ranges))
  {
    hide Atrs, Rolled, Wildered;
    var n := config.period;
    var r := Atrs(EXACT, config, ranges);
    forall i | 0 <= i < |r| ensures r[i].Some? <==> i >= n - 1 {
      AtrDefined(EXACT, config, ranges, i);
    }
    forall i: nat | n - 1 <= i < |r| && (config.sma || i == n - 1) ensures Rolled(n, ranges, r, i) {
      AtrRolls(config, ranges, i);
    }
    forall i: nat | n <= i < |r| && !config.sma ensures Wildered(n, ranges, r, i) {
      AtrSmooths(config, ranges, i);
    }
  }

  // ---- lines and crossovers ----------------------------------------------------------

  /** What the lines of an analysis are to each other. */
  ghost predicate Lines(config: MacdConfig, candles: seq<Candle>, lists: Lists)
    requires 1 <= config.fast && 1 <= config.slow
  {
    && Averages(config.fast, Closes(candles), lists.fast) && Averages(config.slow, Closes(candles), lists.slow)
    && |lists.macd| == |lists.signal| == |lists.histogram| == |candles|
    && (forall i :: 0 <= i < |candles| ==>
          && (lists.macd[i].Some? <==> lists.fast[i].Some? && lists.slow[i].Some?)
          && (lists.macd[i].Some? ==> lists.macd[i].value == lists.fast[i].value - lists.slow[i].value)
          && (lists.histogram[i].Some? <==> lists.macd[i].Some? && lists.signal[i].Some?)
          && (lists.histogram[i].Some? ==> lists.histogram[i].value == lists.macd[i].value - lists.signal[i].value))
  }

  lemma {:induction false} LinesAre(macd: MacdConfig, atr: AtrConfig, candles: seq<Candle>)
    requires ConfigsValid(macd, atr)
    ensures var lists := ListsOf(EXACT, EXACT, macd, atr, candles);
      && Lines(macd, candles, lists)
      && RangeAverages(atr, lists.ranges, lists.atr)
      && forall i :: 0 <= i < |candles| ==> LeastBound(candles, i, lists.ranges[i])
  {
    hide Emas, Atrs, Averages, RangeAverages, LeastBound, Signals, RangeAt;
    EmasAre(macd.fast, Closes(candles));
    EmasAre(macd.slow, Closes(candles));
    ListsAligned(EXACT, EXACT, macd, atr, candles);
    var lists := ListsOf(EXACT, EXACT, macd, atr, candles);
    AtrsAre(atr, lists.ranges);
    forall i | 0 <= i < |candles| ensures LeastBound(candles, i, lists.ranges[i]) {
      RangesAre(candles, i);
    }
  }

  /** The values that are there from a position on. */
  function FromStart(values: Values, start: nat): (r: seq<real>)
    requires start <= |values|
  {
    seq(|values| - start, k requires 0 <= k < |values| - start => if values[start + k].Some? then values[start + k].value else 0.0)
  }

  lemma {:induction false} PresentIs(values: Values, start: nat)
    requires From(values, start) && start <= |values|
    ensures Present(values) == FromStart(values, start)
  {
    hide Present;
    PresentFrom(values, start);
  }

  lemma {:induction false} SignalsPlaced(period: nat, line: Values, start: nat)
    requires period >= 1 && From(line, start) && start <= |line|
    ensures var signal := Signals(EXACT, period, line);
      && |signal| == |line| && (forall i :: 0 <= i < start ==> signal[i].None?)
      && signal[start..] == Emas(EXACT, period, FromStart(line, start))
  {
    hide Emas, Present;
    PresentIs(line, start);
  }

  lemma {:induction false} SignalsEmpty(period: nat, line: Values, start: nat)
    requires period >= 1 && From(line, start) && |line| < start
    ensures Signals(EXACT, period, line) == Nones(|line|)
  {
    hide Present;
    PresentFrom(line, start);
    assert Present(line) == [];
  }

  /** The signal line is the average of the MACD values that are there, in their places. */
  lemma {:induction false} SignalIs(macd: MacdConfig, atr: AtrConfig, candles: seq<Candle>)
    requires ConfigsValid(macd, atr)
    ensures var lists := ListsOf(EXACT, EXACT, macd, atr, candles); var start := macd.slow - 1;
      && |lists.macd| == |lists.signal| == |candles| && From(lists.macd, start)
      && (forall i :: 0 <= i < |candles| && i < start ==> lists.signal[i].None?)
      && (start <= |candles| ==> Averages(macd.signal, FromStart(lists.macd, start), lists.signal[start..]))
  {
    hide Emas, Averages, Atrs, TrueRanges, Minus, Signals, FromStart, From, Differences;
    var lists := ListsOf(EXACT, EXACT, macd, atr, candles);
    var start := macd.slow - 1;
    MacdFrom(EXACT, macd, Closes(candles));
    if start <= |candles| {
      SignalsPlaced(macd.signal, lists.macd, start);
      EmasAre(macd.signal, FromStart(lists.macd, start));
    } else {
      SignalsEmpty(macd.signal, lists.macd, start);
    }
  }

  /** Both values of two options are there, and the first is greater. */
  predicate Over(a: Option<real>, b: Option<real>) {
    a.Some? && b.Some? && a.value > b.value
  }

  predicate NotOver(a: Option<real>, b: Option<real>) {
    a.Some? && b.Some? && !(a.value > b.value)
  }

  /** A bullish crossover is exactly where the line goes from at most the signal to above it, a
      bearish one the other way; the histogram rises or falls exactly where it differs from the
      point before. Stated on the points of a report, whatever its rounding. */
  lemma {:induction false} CrossoversAre(lists: Lists, timeframe: Timeframe, candles: seq<Candle>, i: nat)
    requires Aligned(lists, |candles|) && i < |candles|
    ensures var p := AnalysisOf(lists, timeframe, candles).macd;
      && |p| == |candles| && p[i].timestamp == candles[i].timestamp
      && p[i].fast == lists.fast[i] && p[i].slow == lists.slow[i]
      && p[i].macd == lists.macd[i] && p[i].signal == lists.signal[i] && p[i].histogram == lists.histogram[i]
      && (p[i].bullish <==> i > 0 && NotOver(p[i - 1].macd, p[i - 1].signal) && Over(p[i].macd, p[i].signal))
      && (p[i].bearish <==> i > 0 && NotOver(p[i - 1].signal, p[i - 1].macd) && Over(p[i].signal, p[i].macd))
      && (p[i].increasing <==> i > 0 && Over(p[i].histogram, p[i - 1].histogram))
      && (p[i].decreasing <==> i > 0 && Over(p[i - 1].histogram, p[i].histogram))
    ensures var a := AnalysisOf(lists, timeframe, candles).atr;
      |a| == |candles| && a[i] == AtrPoint(candles[i].timestamp, lists.ranges[i], lists.atr[i])
  {
  }
}
