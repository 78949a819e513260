/** MACD and ATR over closed candles, as the reference computes them for a whole history. */
module Indicators {
  import opened Wrappers
  import opened Timeframes
  import opened Resampling

  /** Rounding to the precision of a decimal context. */
  type Rounding = real -> real

  ghost predicate Idempotent(round: Rounding) {
    forall x :: round(round(x)) == round(x)
  }

  datatype MacdConfig = MacdConfig(fast: nat, slow: nat, signal: nat)

  datatype AtrConfig = AtrConfig(period: nat, sma: bool)

  predicate ConfigsValid(macd: MacdConfig, atr: AtrConfig) {
    1 <= macd.fast < macd.slow && 1 <= macd.signal && 1 <= atr.period
  }

  lemma {:induction false} RoundedOnce(round: Rounding, x: real)
    requires Idempotent(round)
    ensures round(round(x)) == round(x)
  {
  }

  lemma {:induction false} MeanRounded(round: Rounding, xs: seq<real>)
    requires Idempotent(round) && xs != []
    ensures round(Mean(round, xs)) == Mean(round, xs)
  {
    RoundedOnce(round, Sum(round, xs) / |xs| as real);
  }

  lemma {:induction false} SmoothRounded(round: Rounding, period: nat, previous: real, x: real)
    requires Idempotent(round)
    ensures round(Smooth(round, period, previous, x)) == Smooth(round, period, previous, x)
  {
    RoundedOnce(round, previous + round(round(2.0 / (period + 1) as real) * round(x - previous)));
  }

  lemma {:induction false} WilderRounded(round: Rounding, period: nat, previous: real, range: real)
    requires Idempotent(round) && period >= 1
    ensures round(Wilder(round, period, previous, range)) == Wilder(round, period, previous, range)
  {
    RoundedOnce(round, round(round(previous * (period - 1) as real) + range) / period as real);
  }

  type Values = seq<Option<real>>

  /** Additions from zero on, each one rounded. */
  function Sum(round: Rounding, xs: seq<real>): real {
    if xs == [] then 0.0 else round(Sum(round, xs[..|xs| - 1]) + xs[|xs| - 1])
  }

  function Mean(round: Rounding, xs: seq<real>): real
    requires xs != []
  {
    round(Sum(round, xs) / |xs| as real)
  }

  function Smooth(round: Rounding, period: nat, previous: real, x: real): real {
    round(previous + round(round(2.0 / (period + 1) as real) * round(x - previous)))
  }

  /** The next average: none before the period is full, then their mean, then smoothing. */
  function EmaNext(round: Rounding, period: nat, earlier: Values, values: seq<real>): Option<real>
    requires period >= 1 && |values| == |earlier| + 1
  {
    if |values| < period then None
    else if |values| == period then Some(Mean(round, values))
    else if earlier[|earlier| - 1].None? then None
    else Some(Smooth(round, period, earlier[|earlier| - 1].value, values[|values| - 1]))
  }

  /** `calculate_ema`, one value per input. */
  function Emas(round: Rounding, period: nat, values: seq<real>): (r: Values)
    requires period >= 1
    ensures |r| == |values|
  {
    if values == [] then []
    else
      var earlier := Emas(round, period, values[..|values| - 1]);
      earlier + [EmaNext(round, period, earlier, values)]
  }

  lemma {:induction false} EmaDefined(round: Rounding, period: nat, values: seq<real>, i: nat)
    requires period >= 1 && i < |values|
    ensures Emas(round, period, values)[i].Some? <==> i >= period - 1
    decreases |values|
  {
    hide Mean, Smooth;
    var init := values[..|values| - 1];
    if i < |init| {
      EmaDefined(round, period, init, i);
    } else if i > 0 {
      EmaDefined(round, period, init, i - 1);
    }
  }

  /** Values do not depend on later inputs. */
  lemma {:induction false} EmaPrefix(round: Rounding, period: nat, values: seq<real>, k: nat)
    requires period >= 1 && k <= |values|
    ensures Emas(round, period, values[..k]) == Emas(round, period, values)[..k]
    decreases |values|
  {
    hide EmaNext;
    if k == |values| {
      assert values[..k] == values;
    } else {
      assert values[..|values| - 1][..k] == values[..k];
      EmaPrefix(round, period, values[..|values| - 1], k);
    }
  }

  /** The seed is set first, and every later value comes from the unrounded running one. */
  method CalculateEma(round: Rounding, period: nat, values: seq<real>) returns (r: Values)
    requires period >= 1 && Idempotent(round)
    ensures r == Emas(round, period, values)
  {
    hide Sum, Mean, Smooth, Idempotent;
    r := seq(|values|, _ => None);
    if |values| < period {
      forall i | 0 <= i < |values| ensures Emas(round, period, values)[i] == None {
        EmaDefined(round, period, values, i);
      }
      return;
    }
    var seed := Mean(round, values[..period]);
    r := r[period - 1 := Some(round(seed))];
    SeedIs(round, period, values);
    MeanRounded(round, values[..period]);
    var previous := seed;
    for index := period to |values|
      invariant |r| == |values| && r[..index] == Emas(round, period, values[..index])
      invariant r[index - 1] == Some(previous)
    {
      SmoothRounded(round, period, previous, values[index]);
      previous := Smooth(round, period, previous, values[index]);
      assert values[..index + 1][..index] == values[..index];
      r := r[index := Some(round(previous))];
      assert r[..index + 1] == r[..index] + [Some(previous)];
    }
    assert values[..|values|] == values && r[..|r|] == r;
  }

  lemma {:induction false} SeedIs(round: Rounding, period: nat, values: seq<real>)
    requires 1 <= period <= |values| && Idempotent(round)
    ensures Emas(round, period, values[..period])
         == (seq(|values|, _ => None)[period - 1 := Some(round(Mean(round, values[..period])))])[..period]
  {
    hide Mean, Smooth;
    MeanRounded(round, values[..period]);
    var few := values[..period];
    forall i | 0 <= i < period - 1 ensures Emas(round, period, few)[i] == None {
      EmaDefined(round, period, few, i);
    }
  }

  // ---- MACD ------------------------------------------------------------------------

  function Closes(candles: seq<Candle>): (r: seq<real>)
    ensures |r| == |candles| && forall i :: 0 <= i < |r| ==> r[i] == candles[i].close
  {
    seq(|candles|, i requires 0 <= i < |candles| => candles[i].close)
  }

  function Minus(round: Rounding, a: Option<real>, b: Option<real>): Option<real> {
    if a.Some? && b.Some? then Some(round(a.value - b.value)) else None
  }

  function Differences(round: Rounding, a: Values, b: Values): (r: Values)
    requires |a| == |b|
    ensures |r| == |a| && forall i :: 0 <= i < |r| ==> r[i] == Minus(round, a[i], b[i])
  {
    seq(|a|, i requires 0 <= i < |a| => Minus(round, a[i], b[i]))
  }

  /** The values that are there. */
  function Present(values: Values): seq<real> {
    if values == [] then []
    else Present(values[..|values| - 1]) + (if values[|values| - 1].Some? then [values[|values| - 1].value] else [])
  }

  function Nones(n: nat): (r: Values)
    ensures |r| == n && forall i :: 0 <= i < n ==> r[i] == None
  {
    seq(n, _ => None)
  }

  /** The signal line: averages of the MACD values that are there, put back in their places. */
  function Signals(round: Rounding, period: nat, macd: Values): Values
    requires period >= 1
  {
    var averages := Emas(round, period, Present(macd));
    Nones(if |macd| >= |averages| then |macd| - |averages| else 0) + averages
  }

  datatype MacdPoint = MacdPoint(timestamp: int, fast: Option<real>, slow: Option<real>, macd: Option<real>, signal: Option<real>,
    histogram: Option<real>, bullish: bool, bearish: bool, increasing: bool, decreasing: bool)

  datatype AtrPoint = AtrPoint(timestamp: int, trueRange: real, atr: Option<real>)

  /** All lists a history gives. */
  datatype Lists = Lists(fast: Values, slow: Values, macd: Values, signal: Values, histogram: Values, ranges: seq<real>, atr: Values)

  ghost predicate Aligned(lists: Lists, n: nat) {
    && |lists.fast| == |lists.slow| == |lists.macd| == |lists.signal| == |lists.histogram| == n
    && |lists.ranges| == |lists.atr| == n
  }

  // ---- ATR -------------------------------------------------------------------------

  function AbsValue(x: real): real {
    if x < 0.0 then -x else x
  }

  function MaxValue(x: real, y: real): real {
    if y > x then y else x
  }

  /** The true range, in the surrounding decimal context. */
  function TrueRange(ambient: Rounding, previous: Option<Candle>, candle: Candle): real {
    var highLow := ambient(candle.high - candle.low);
    if previous.None? then highLow
    else
      MaxValue(MaxValue(highLow, AbsValue(ambient(candle.high - previous.value.close))),
               AbsValue(ambient(candle.low - previous.value.close)))
  }

  function RangeAt(ambient: Rounding, candles: seq<Candle>, i: nat): real
    requires i < |candles|
  {
    TrueRange(ambient, if i == 0 then None else Some(candles[i - 1]), candles[i])
  }

  function TrueRanges(ambient: Rounding, candles: seq<Candle>): (r: seq<real>)
    ensures |r| == |candles| && forall i :: 0 <= i < |r| ==> r[i] == RangeAt(ambient, candles, i)
  {
    seq(|candles|, i requires 0 <= i < |candles| => RangeAt(ambient, candles, i))
  }

  function Wilder(round: Rounding, period: nat, previous: real, range: real): real
    requires period >= 1
  {
    round(round(round(previous * (period - 1) as real) + range) / period as real)
  }

  function AtrNext(round: Rounding, config: AtrConfig, earlier: Values, ranges: seq<real>): Option<real>
    requires config.period >= 1 && |ranges| == |earlier| + 1
  {
    if |ranges| < config.period then None
    else if |ranges| == config.period || config.sma then Some(Mean(round, ranges[|ranges| - config.period..]))
    else if earlier[|earlier| - 1].None? then None
    else Some(Wilder(round, config.period, earlier[|earlier| - 1].value, ranges[|ranges| - 1]))
  }

  function Atrs(round: Rounding, config: AtrConfig, ranges: seq<real>): (r: Values)
    requires config.period >= 1
    ensures |r| == |ranges|
  {
    if ranges == [] then []
    else
      var earlier := Atrs(round, config, ranges[..|ranges| - 1]);
      earlier + [AtrNext(round, config, earlier, ranges)]
  }

  lemma {:induction false} AtrDefined(round: Rounding, config: AtrConfig, ranges: seq<real>, i: nat)
    requires config.period >= 1 && i < |ranges|
    ensures Atrs(round, config, ranges)[i].Some? <==> i >= config.period - 1
    decreases |ranges|
  {
    hide Mean, Wilder;
    var init := ranges[..|ranges| - 1];
    if i < |init| {
      AtrDefined(round, config, init, i);
    } else if i > 0 {
      AtrDefined(round, config, init, i - 1);
    }
  }

  method CalculateAtr(round: Rounding, config: AtrConfig, ranges: seq<real>) returns (r: Values)
    requires config.period >= 1 && Idempotent(round)
    ensures r == Atrs(round, config, ranges)
  {
    hide Sum, AtrNext;
    r := seq(|ranges|, _ => None);
    if |ranges| < config.period {
      forall i | 0 <= i < |ranges| ensures Atrs(round, config, ranges)[i] == None {
        AtrDefined(round, config, ranges, i);
      }
    } else if config.sma {
      r := RollingMeans(round, config, ranges);
    } else {
      r := WilderLoop(round, config, ranges);
    }
  }

  method RollingMeans(round: Rounding, config: AtrConfig, ranges: seq<real>) returns (r: Values)
    requires config.sma && 1 <= config.period <= |ranges| && Idempotent(round)
    ensures r == Atrs(round, config, ranges)
  {
    hide Sum, Mean, Idempotent;
    var period := config.period;
    r := seq(|ranges|, _ => None);
    AtrSeed(round, config, ranges);
    for index := period - 1 to |ranges|
      invariant |r| == |ranges| && r[..index] == Atrs(round, config, ranges[..index])
    {
      var window := ranges[index - period + 1..index + 1];
      assert ranges[..index + 1][..index] == ranges[..index];
      assert window == ranges[..index + 1][index + 1 - period..];
      MeanRounded(round, window);
      var value := Some(round(Mean(round, window)));
      r := r[index := value];
      assert r[..index + 1] == r[..index] + [value];
    }
    assert ranges[..|ranges|] == ranges && r[..|r|] == r;
  }

  method WilderLoop(round: Rounding, config: AtrConfig, ranges: seq<real>) returns (r: Values)
    requires !config.sma && 1 <= config.period <= |ranges| && Idempotent(round)
    ensures r == Atrs(round, config, ranges)
  {
    hide Sum, Mean, Wilder, Idempotent;
    var period := config.period;
    r := seq(|ranges|, _ => None);
    AtrSeed(round, config, ranges);
    var previous := Mean(round, ranges[..period]);
    assert ranges[..period][..period - 1] == ranges[..period - 1] && ranges[..period][period - period..] == ranges[..period];
    MeanRounded(round, ranges[..period]);
    r := r[period - 1 := Some(round(previous))];
    assert r[..period] == r[..period - 1] + [Some(previous)];
    for index := period to |ranges|
      invariant |r| == |ranges| && r[..index] == Atrs(round, config, ranges[..index])
      invariant r[index - 1] == Some(previous)
    {
      WilderRounded(round, period, previous, ranges[index]);
      previous := Wilder(round, period, previous, ranges[index]);
      assert ranges[..index + 1][..index] == ranges[..index];
      r := r[index := Some(round(previous))];
      assert r[..index + 1] == r[..index] + [Some(previous)];
    }
    assert ranges[..|ranges|] == ranges && r[..|r|] == r;
  }

  /** Nothing before the period is full. */
  lemma {:induction false} AtrSeed(round: Rounding, config: AtrConfig, ranges: seq<real>)
    requires 1 <= config.period <= |ranges|
    ensures Atrs(round, config, ranges[..config.period - 1]) == seq(|ranges|, _ => None)[..config.period - 1]
  {
    var few := ranges[..config.period - 1];
    forall i | 0 <= i < |few| ensures Atrs(round, config, few)[i] == None {
      AtrDefined(round, config, few, i);
    }
  }

  // ---- the analysis ----------------------------------------------------------------

  function ListsOf(round: Rounding, ambient: Rounding, macd: MacdConfig, atr: AtrConfig, candles: seq<Candle>): Lists
    requires ConfigsValid(macd, atr)
  {
    var fast, slow := Emas(round, macd.fast, Closes(candles)), Emas(round, macd.slow, Closes(candles));
    var line := Differences(round, fast, slow);
    var signal := Signals(round, macd.signal, line);
    var histogram := if |line| == |signal| then Differences(round, line, signal) else [];
    var ranges := TrueRanges(ambient, candles);
    Lists(fast, slow, line, signal, histogram, ranges, Atrs(round, atr, ranges))
  }

  lemma {:induction false} PresentBound(values: Values)
    ensures |Present(values)| <= |values|
    decreases |values|
  {
    if values != [] {
      PresentBound(values[..|values| - 1]);
    }
  }

  lemma {:induction false} ListsAligned(round: Rounding, ambient: Rounding, macd: MacdConfig, atr: AtrConfig, candles: seq<Candle>)
    requires ConfigsValid(macd, atr)
    ensures Aligned(ListsOf(round, ambient, macd, atr, candles), |candles|)
  {
    hide Emas, Present;
    PresentBound(Differences(round, Emas(round, macd.fast, Closes(candles)), Emas(round, macd.slow, Closes(candles))));
  }

  predicate Above(a: Option<real>, b: Option<real>) {
    a.Some? && b.Some? && a.value > b.value
  }

  predicate AtMost(a: Option<real>, b: Option<real>) {
    a.Some? && b.Some? && a.value <= b.value
  }

  function At(values: Values, i: int): Option<real> {
    if 0 <= i < |values| then values[i] else None
  }

  /** A point: a crossover needs both lines before and now. */
  function MacdAt(lists: Lists, candles: seq<Candle>, i: nat): MacdPoint
    requires i < |candles|
  {
    var pm, ps, cm, cs := At(lists.macd, i - 1), At(lists.signal, i - 1), At(lists.macd, i), At(lists.signal, i);
    var ph, ch := At(lists.histogram, i - 1), At(lists.histogram, i);
    MacdPoint(candles[i].timestamp, At(lists.fast, i), At(lists.slow, i), cm, cs, ch,
      AtMost(pm, ps) && Above(cm, cs), AtMost(ps, pm) && Above(cs, cm), Above(ch, ph), Above(ph, ch))
  }

  function AtrAt(lists: Lists, candles: seq<Candle>, i: nat): AtrPoint
    requires i < |candles|
  {
    AtrPoint(candles[i].timestamp, if i < |lists.ranges| then lists.ranges[i] else 0.0, At(lists.atr, i))
  }

  function MacdPoints(lists: Lists, candles: seq<Candle>): (r: seq<MacdPoint>)
    ensures |r| == |candles| && forall i :: 0 <= i < |r| ==> r[i] == MacdAt(lists, candles, i)
  {
    seq(|candles|, i requires 0 <= i < |candles| => MacdAt(lists, candles, i))
  }

  function AtrPoints(lists: Lists, candles: seq<Candle>): (r: seq<AtrPoint>)
    ensures |r| == |candles| && forall i :: 0 <= i < |r| ==> r[i] == AtrAt(lists, candles, i)
  {
    seq(|candles|, i requires 0 <= i < |candles| => AtrAt(lists, candles, i))
  }

  datatype Analysis = Analysis(count: nat, cutoff: Option<int>, macd: seq<MacdPoint>, atr: seq<AtrPoint>)

  function AnalysisOf(lists: Lists, timeframe: Timeframe, candles: seq<Candle>): Analysis {
    Analysis(|candles|, if candles == [] then None else Some(candles[|candles| - 1].timestamp + Duration(timeframe)),
      MacdPoints(lists, candles), AtrPoints(lists, candles))
  }

  predicate InOrder(candles: seq<Candle>) {
    forall i :: 0 <= i < |candles| - 1 ==> candles[i].timestamp < candles[i + 1].timestamp
  }

  // ---- the reference ---------------------------------------------------------------

  /** No value before a position and one at every later position. */
  ghost predicate From(values: Values, start: nat) {
    forall i :: 0 <= i < |values| ==> (values[i].Some? <==> i >= start)
  }

  lemma {:induction false} PresentFrom(values: Values, start: nat)
    requires From(values, start)
    ensures |Present(values)| == if |values| <= start then 0 else |values| - start
    ensures forall k :: 0 <= k < |Present(values)| ==> values[start + k] == Some(Present(values)[k])
    decreases |values|
  {
    if values != [] {
      PresentFrom(values[..|values| - 1], start);
    }
  }

  lemma {:induction false} MacdFrom(round: Rounding, config: MacdConfig, closes: seq<real>)
    requires 1 <= config.fast < config.slow
    ensures From(Differences(round, Emas(round, config.fast, closes), Emas(round, config.slow, closes)), config.slow - 1)
  {
    hide Emas, Minus;
    var fast, slow := Emas(round, config.fast, closes), Emas(round, config.slow, closes);
    forall i | 0 <= i < |closes| ensures Minus(round, fast[i], slow[i]).Some? <==> i >= config.slow - 1 {
      EmaDefined(round, config.fast, closes, i);
      EmaDefined(round, config.slow, closes, i);
      MinusDefined(round, fast[i], slow[i]);
    }
  }

  lemma {:induction false} MinusDefined(round: Rounding, a: Option<real>, b: Option<real>)
    ensures Minus(round, a, b).Some? <==> a.Some? && b.Some?
  {
  }

  /** The line, the averages of its values in their places, and the difference of the two. */
  method CalculateLines(round: Rounding, config: MacdConfig, closes: seq<real>)
    returns (fast: Values, slow: Values, line: Values, signal: Values, histogram: Values)
    requires 1 <= config.fast < config.slow && 1 <= config.signal && Idempotent(round)
    ensures fast == Emas(round, config.fast, closes) && slow == Emas(round, config.slow, closes)
    ensures line == Differences(round, fast, slow) && signal == Signals(round, config.signal, line)
    ensures |signal| == |line| && histogram == Differences(round, line, signal)
  {
    hide Emas, Minus, Present, Idempotent;
    var n, start := |closes|, config.slow - 1;
    fast := CalculateEma(round, config.fast, closes);
    slow := CalculateEma(round, config.slow, closes);
    MacdFrom(round, config, closes);
    ghost var lines := Differences(round, fast, slow);
    line := Nones(n);
    var index := start;
    while index < n
      invariant |line| == n && start <= index
      invariant forall i :: 0 <= i < n ==> line[i] == if i < start || i < index then lines[i] else None
      decreases n - index
    {
      EmaDefined(round, config.fast, closes, index);
      EmaDefined(round, config.slow, closes, index);
      line := line[index := Some(round(fast[index].value - slow[index].value))];
      MinusIs(round, fast[index].value, slow[index].value);
      index := index + 1;
    }
    assert line == lines;
    PresentFrom(line, start);
    var compact := Present(line);
    var averages := CalculateEma(round, config.signal, compact);
    signal := Nones(n);
    for k := 0 to |averages|
      invariant |signal| == n
      invariant forall i :: 0 <= i < n ==> signal[i] == if start <= i < start + k then averages[i - start] else None
    {
      signal := signal[start + k := averages[k]];
    }
    assert signal == Signals(round, config.signal, line);
    histogram := Nones(n);
    for i := 0 to n
      invariant |histogram| == n
      invariant forall j :: 0 <= j < n ==> histogram[j] == if j < i then Minus(round, line[j], signal[j]) else None
    {
      histogram := histogram[i := Minus(round, line[i], signal[i])];
    }
    assert histogram == Differences(round, line, signal);
  }

  lemma {:induction false} MinusIs(round: Rounding, a: real, b: real)
    ensures Minus(round, Some(a), Some(b)) == Some(round(a - b))
  {
  }

  /** What the reference reports: nothing for candles that are not in order. */
  function ReferenceAnalysis(round: Rounding, ambient: Rounding, timeframe: Timeframe, macd: MacdConfig, atr: AtrConfig, candles: seq<Candle>)
    : Option<Analysis>
    requires ConfigsValid(macd, atr)
  {
    if InOrder(candles) then Some(AnalysisOf(ListsOf(round, ambient, macd, atr, candles), timeframe, candles)) else None
  }

  /** `calculate_indicators`: refused exactly for candles that are not in order. */
  method CalculateIndicators(round: Rounding, ambient: Rounding, timeframe: Timeframe, macd: MacdConfig, atr: AtrConfig, candles: seq<Candle>)
    returns (r: Option<Analysis>)
    requires ConfigsValid(macd, atr) && Idempotent(round)
    ensures r == ReferenceAnalysis(round, ambient, timeframe, macd, atr, candles)
  {
    hide Emas, Atrs, Signals, Differences, Duration, Idempotent, MacdAt, AtrAt;
    if !InOrder(candles) {
      return None;
    }
    var fast, slow, line, signal, histogram := CalculateLines(round, macd, Closes(candles));
    var ranges := TrueRanges(ambient, candles);
    var average := CalculateAtr(round, atr, ranges);
    var lists := Lists(fast, slow, line, signal, histogram, ranges, average);
    var macdPoints, atrPoints := [], [];
    for i := 0 to |candles|
      invariant macdPoints == MacdPoints(lists, candles)[..i] && atrPoints == AtrPoints(lists, candles)[..i]
    {
      macdPoints, atrPoints := macdPoints + [MacdAt(lists, candles, i)], atrPoints + [AtrAt(lists, candles, i)];
    }
    assert lists == ListsOf(round, ambient, macd, atr, candles);
    assert MacdPoints(lists, candles)[..|candles|] == MacdPoints(lists, candles);
    assert AtrPoints(lists, candles)[..|candles|] == AtrPoints(lists, candles);
    var cutoff := if candles == [] then None else Some(candles[|candles| - 1].timestamp + Duration(timeframe));
    return Some(Analysis(|candles|, cutoff, macdPoints, atrPoints));
  }
}
