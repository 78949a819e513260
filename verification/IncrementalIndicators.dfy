/** The append-only indicator state: after any history of calls it is what the reference gives
    for the last candles. */
module IncrementalIndicators {
  import opened Wrappers
  import opened Timeframes
  import opened Resampling
  import opened Indicators

  // ---- one more candle -------------------------------------------------------------

  /** `_ema`. */
  function EmaAppend(round: Rounding, candles: seq<Candle>, index: nat, period: nat, values: Values): Option<real>
    requires 1 <= period && index < |candles|
  {
    if index < period - 1 then None
    else if index == period - 1 then Some(round(Mean(round, Closes(candles[..period]))))
    else if values == [] || values[|values| - 1].None? then None
    else Some(round(Smooth(round, period, values[|values| - 1].value, candles[index].close)))
  }

  /** The signal value: a seed once enough MACD values are there, then smoothing. */
  function SignalAppend(round: Rounding, config: MacdConfig, index: nat, macd: Values, signal: Values): Option<real>
    requires 1 <= config.signal && index < |macd|
  {
    var compact := index - config.slow + 1;
    if macd[index].None? then None
    else if compact == config.signal - 1 then
      var start := index - config.signal + 1;
      var seeds := if start >= 0 then Present(macd[start..index + 1]) else [];
      if seeds == [] then None else Some(round(round(Sum(round, seeds) / config.signal as real)))
    else if compact >= config.signal then
      if signal == [] || signal[|signal| - 1].None? then None
      else Some(round(Smooth(round, config.signal, signal[|signal| - 1].value, macd[index].value)))
    else None
  }

  function AtrAppend(round: Rounding, config: AtrConfig, index: nat, ranges: seq<real>, atr: Values): Option<real>
    requires 1 <= config.period && index < |ranges|
  {
    var period := config.period;
    if index < period - 1 then None
    else if index == period - 1 then Some(round(Mean(round, ranges[..period])))
    else if config.sma then Some(round(Mean(round, ranges[index - period + 1..index + 1])))
    else if atr == [] || atr[|atr| - 1].None? then None
    else Some(round(Wilder(round, period, atr[|atr| - 1].value, ranges[index])))
  }

  lemma {:induction false} EmaStep(round: Rounding, period: nat, candles: seq<Candle>, candle: Candle)
    requires period >= 1 && Idempotent(round)
    ensures var values := Emas(round, period, Closes(candles));
      Emas(round, period, Closes(candles + [candle])) == values + [EmaAppend(round, candles + [candle], |candles|, period, values)]
  {
    hide Mean, Smooth, Idempotent;
    var all := candles + [candle];
    var n, values := |candles|, Emas(round, period, Closes(candles));
    assert Closes(all)[..n] == Closes(candles);
    if n == period - 1 {
      assert all[..period] == all;
      MeanRounded(round, Closes(all));
    } else if n >= period {
      EmaDefined(round, period, Closes(candles), n - 1);
      SmoothRounded(round, period, values[n - 1].value, candle.close);
    }
  }

  lemma {:induction false} AtrStep(round: Rounding, config: AtrConfig, ranges: seq<real>, range: real)
    requires config.period >= 1 && Idempotent(round)
    ensures var values := Atrs(round, config, ranges);
      Atrs(round, config, ranges + [range]) == values + [AtrAppend(round, config, |ranges|, ranges + [range], values)]
  {
    hide Mean, Wilder, Idempotent;
    var all, n, values := ranges + [range], |ranges|, Atrs(round, config, ranges);
    assert all[..n] == ranges;
    if n >= config.period - 1 {
      var window := all[n + 1 - config.period..];
      assert window == all[n - config.period + 1..n + 1];
      MeanRounded(round, window);
      if n == config.period - 1 {
        assert all[..config.period] == window;
      } else {
        AtrDefined(round, config, ranges, n - 1);
        WilderRounded(round, config.period, values[n - 1].value, range);
      }
    }
  }

  lemma {:induction false} PresentOnly(values: Values, start: nat)
    requires From(values, start) && start <= |values|
    ensures Present(values[start..]) == Present(values)
  {
    assert From(values[start..], 0);
    PresentFrom(values, start);
    PresentFrom(values[start..], 0);
    var a, b := Present(values), Present(values[start..]);
    forall k | 0 <= k < |a| ensures a[k] == b[k] {
      assert values[start + k] == values[start..][k];
    }
  }

  /** The averages of the values that are there, one value later. */
  lemma {:induction false} AveragesStep(round: Rounding, period: nat, before: seq<real>, x: real)
    requires period >= 1
    ensures Emas(round, period, before + [x])
         == Emas(round, period, before) + [EmaNext(round, period, Emas(round, period, before), before + [x])]
  {
    hide EmaNext;
    assert (before + [x])[..|before|] == before;
  }

  lemma {:induction false} FromInit(macd: Values, value: Option<real>, start: nat)
    requires From(macd + [value], start)
    ensures From(macd, start) && (value.Some? <==> |macd| >= start)
  {
    forall i | 0 <= i < |macd| ensures macd[i].Some? <==> i >= start {
      assert (macd + [value])[i] == macd[i];
    }
    assert (macd + [value])[|macd|] == value;
  }

  lemma {:induction false} PresentAppend(macd: Values, value: Option<real>)
    ensures Present(macd + [value]) == if value.Some? then Present(macd) + [value.value] else Present(macd)
  {
    assert (macd + [value])[..|macd|] == macd;
  }

  /** The seed over the window is the mean of all values that are there, because there are no
      others yet. */
  lemma {:induction false} SignalNext(round: Rounding, config: MacdConfig, all: Values, before: seq<real>, signal: Values)
    requires 1 <= config.signal && 2 <= config.slow <= |all| && Idempotent(round) && From(all, config.slow - 1)
    requires all[|all| - 1].Some? && |before| == |all| - config.slow && Present(all) == before + [all[|all| - 1].value]
    requires before != [] ==> signal != [] && signal[|signal| - 1] == Emas(round, config.signal, before)[|before| - 1]
    ensures SignalAppend(round, config, |all| - 1, all, signal)
         == EmaNext(round, config.signal, Emas(round, config.signal, before), Present(all))
  {
    hide Smooth, Idempotent, Sum, Emas, From;
    var n, start, p, now := |all| - 1, config.slow - 1, config.signal, Present(all);
    if |now| == p {
      PresentOnly(all, start);
      assert all[start..n + 1] == all[start..];
      MeanRounded(round, now);
    } else if |now| > p {
      EmaDefined(round, p, before, |before| - 1);
      SmoothRounded(round, p, signal[|signal| - 1].value, all[n].value);
    }
  }

  /** One more MACD value. */
  lemma {:induction false} SignalStep(round: Rounding, config: MacdConfig, macd: Values, value: Option<real>)
    requires 1 <= config.signal && 2 <= config.slow && Idempotent(round) && From(macd + [value], config.slow - 1)
    ensures var signal := Signals(round, config.signal, macd);
      Signals(round, config.signal, macd + [value])
      == signal + [SignalAppend(round, config, |macd|, macd + [value], signal)]
  {
    hide Idempotent, Emas, EmaNext, Present, From;
    var all, n := macd + [value], |macd|;
    FromInit(macd, value, config.slow - 1);
    PresentFrom(macd, config.slow - 1);
    PresentAppend(macd, value);
    if value.Some? {
      AveragesStep(round, config.signal, Present(macd), value.value);
      SignalNext(round, config, all, Present(macd), Signals(round, config.signal, macd));
    } else {
      NoAverages(round, config.signal);
      assert Present(macd) == [] && Nones(n + 1) == Nones(n) + [None];
    }
  }

  lemma {:induction false} NoAverages(round: Rounding, period: nat)
    requires period >= 1
    ensures Emas(round, period, []) == []
  {
  }

  /** The lists after one more candle, as the state computes them. */
  function ListsAppend(round: Rounding, ambient: Rounding, macd: MacdConfig, atr: AtrConfig, lists: Lists, candles: seq<Candle>): Lists
    requires ConfigsValid(macd, atr) && candles != [] && |lists.macd| == |candles| - 1 && |lists.ranges| == |candles| - 1
  {
    var index := |candles| - 1;
    var fast := EmaAppend(round, candles, index, macd.fast, lists.fast);
    var slow := EmaAppend(round, candles, index, macd.slow, lists.slow);
    var line := lists.macd + [Minus(round, fast, slow)];
    var signal := SignalAppend(round, macd, index, line, lists.signal);
    var ranges := lists.ranges + [TrueRange(ambient, if index == 0 then None else Some(candles[index - 1]), candles[index])];
    Lists(lists.fast + [fast], lists.slow + [slow], line, lists.signal + [signal],
      lists.histogram + [Minus(round, line[index], signal)], ranges,
      lists.atr + [AtrAppend(round, atr, index, ranges, lists.atr)])
  }

  lemma {:induction false} DifferencesStep(round: Rounding, a: Values, b: Values, x: Option<real>, y: Option<real>)
    requires |a| == |b|
    ensures Differences(round, a + [x], b + [y]) == Differences(round, a, b) + [Minus(round, x, y)]
  {
    hide Minus;
  }

  /** What the state computes for one more candle is what the reference gives. */
  lemma {:induction false} ListsStep(round: Rounding, ambient: Rounding, macd: MacdConfig, atr: AtrConfig, candles: seq<Candle>, candle: Candle)
    requires ConfigsValid(macd, atr) && Idempotent(round)
    ensures Aligned(ListsOf(round, ambient, macd, atr, candles), |candles|)
    ensures ListsOf(round, ambient, macd, atr, candles + [candle])
         == ListsAppend(round, ambient, macd, atr, ListsOf(round, ambient, macd, atr, candles), candles + [candle])
  {
    hide Idempotent, Emas, Atrs, Signals, Minus, EmaAppend, SignalAppend, AtrAppend, Differences, TrueRange;
    var all, n := candles + [candle], |candles|;
    var lists := ListsOf(round, ambient, macd, atr, candles);
    ListsAligned(round, ambient, macd, atr, candles);
    ListsAligned(round, ambient, macd, atr, all);
    EmaStep(round, macd.fast, candles, candle);
    EmaStep(round, macd.slow, candles, candle);
    var fast, slow := EmaAppend(round, all, n, macd.fast, lists.fast), EmaAppend(round, all, n, macd.slow, lists.slow);
    DifferencesStep(round, lists.fast, lists.slow, fast, slow);
    MacdFrom(round, macd, Closes(all));
    var value := Minus(round, fast, slow);
    SignalStep(round, macd, lists.macd, value);
    DifferencesStep(round, lists.macd, lists.signal, value, SignalAppend(round, macd, n, lists.macd + [value], lists.signal));
    assert (lists.macd + [value])[n] == value;
    var range := TrueRange(ambient, if n == 0 then None else Some(all[n - 1]), candle);
    assert TrueRanges(ambient, all) == lists.ranges + [range];
    AtrStep(round, atr, lists.ranges, range);
  }

  /** Points are only added. */
  lemma {:induction false} PointsStep(round: Rounding, ambient: Rounding, macd: MacdConfig, atr: AtrConfig, candles: seq<Candle>, candle: Candle)
    requires ConfigsValid(macd, atr) && Idempotent(round)
    ensures MacdPoints(ListsOf(round, ambient, macd, atr, candles), candles)
         <= MacdPoints(ListsOf(round, ambient, macd, atr, candles + [candle]), candles + [candle])
    ensures AtrPoints(ListsOf(round, ambient, macd, atr, candles), candles)
         <= AtrPoints(ListsOf(round, ambient, macd, atr, candles + [candle]), candles + [candle])
  {
    hide Idempotent, ListsOf, EmaAppend, SignalAppend, AtrAppend, Minus, TrueRange;
    ListsStep(round, ambient, macd, atr, candles, candle);
    var lists := ListsOf(round, ambient, macd, atr, candles);
    var more := ListsOf(round, ambient, macd, atr, candles + [candle]);
    forall i | 0 <= i < |candles|
      ensures MacdAt(lists, candles, i) == MacdAt(more, candles + [candle], i)
      ensures AtrAt(lists, candles, i) == AtrAt(more, candles + [candle], i)
    {
    }
  }

  /** Nothing shown for a prefix is revised by later candles. */
  lemma {:induction false} PointsNeverRevised(round: Rounding, ambient: Rounding, macd: MacdConfig, atr: AtrConfig, candles: seq<Candle>, k: nat)
    requires ConfigsValid(macd, atr) && Idempotent(round) && k <= |candles|
    ensures MacdPoints(ListsOf(round, ambient, macd, atr, candles[..k]), candles[..k])
         <= MacdPoints(ListsOf(round, ambient, macd, atr, candles), candles)
    ensures AtrPoints(ListsOf(round, ambient, macd, atr, candles[..k]), candles[..k])
         <= AtrPoints(ListsOf(round, ambient, macd, atr, candles), candles)
    decreases |candles|
  {
    hide Idempotent, ListsOf, MacdPoints, AtrPoints;
    if k == |candles| {
      assert candles[..k] == candles;
    } else {
      var init := candles[..|candles| - 1];
      assert init[..k] == candles[..k] && init + [candles[|candles| - 1]] == candles;
      PointsNeverRevised(round, ambient, macd, atr, init, k);
      PointsStep(round, ambient, macd, atr, init, candles[|candles| - 1]);
    }
  }

  lemma {:induction false} EmptyLists(round: Rounding, ambient: Rounding, macd: MacdConfig, atr: AtrConfig)
    requires ConfigsValid(macd, atr)
    ensures ListsOf(round, ambient, macd, atr, []) == Lists([], [], [], [], [], [], [])
  {
    ListsAligned(round, ambient, macd, atr, []);
  }

  // ---- the state -------------------------------------------------------------------

  class IndicatorState {
    const round: Rounding
    const ambient: Rounding
    const timeframe: Timeframe
    const macdConfig: MacdConfig
    const atrConfig: AtrConfig
    var candles: seq<Candle>
    var fast: Values
    var slow: Values
    var macd: Values
    var signal: Values
    var histogram: Values
    var trueRanges: seq<real>
    var atr: Values
    var macdPoints: seq<MacdPoint>
    var atrPoints: seq<AtrPoint>

    function Fields(): Lists
      reads this
    {
      Lists(fast, slow, macd, signal, histogram, trueRanges, atr)
    }

    /** The lists are those of the candles, and the points so far are the first ones. */
    ghost predicate Valid()
      reads this
    {
      && ConfigsValid(macdConfig, atrConfig) && Idempotent(round)
      && Fields() == ListsOf(round, ambient, macdConfig, atrConfig, candles)
      && macdPoints <= MacdPoints(Fields(), candles) && atrPoints <= AtrPoints(Fields(), candles)
      && |macdPoints| == |atrPoints|
    }

    constructor (round: Rounding, ambient: Rounding, timeframe: Timeframe, macdConfig: MacdConfig, atrConfig: AtrConfig)
      requires ConfigsValid(macdConfig, atrConfig) && Idempotent(round)
      ensures Valid() && candles == []
      ensures this.round == round && this.ambient == ambient && this.timeframe == timeframe
      ensures this.macdConfig == macdConfig && this.atrConfig == atrConfig
    {
      hide ConfigsValid, Idempotent, ListsOf;
      EmptyLists(round, ambient, macdConfig, atrConfig);
      this.round, this.ambient, this.timeframe := round, ambient, timeframe;
      this.macdConfig, this.atrConfig := macdConfig, atrConfig;
      candles, fast, slow, macd, signal, histogram := [], [], [], [], [], [];
      trueRanges, atr, macdPoints, atrPoints := [], [], [], [];
    }

    method Reset()
      requires ConfigsValid(macdConfig, atrConfig) && Idempotent(round)
      modifies this
      ensures Valid() && candles == []
    {
      hide ConfigsValid, Idempotent, ListsOf;
      EmptyLists(round, ambient, macdConfig, atrConfig);
      candles, fast, slow, macd, signal, histogram := [], [], [], [], [], [];
      trueRanges, atr, macdPoints, atrPoints := [], [], [], [];
    }

    /** One candle, list by list. */
    method AppendCandle(candle: Candle)
      requires Valid()
      modifies this
      ensures Valid() && candles == old(candles) + [candle]
    {
      hide Idempotent, ListsOf, EmaAppend, SignalAppend, AtrAppend, Minus, TrueRange, MacdPoints, AtrPoints;
      ListsStep(round, ambient, macdConfig, atrConfig, candles, candle);
      PointsStep(round, ambient, macdConfig, atrConfig, candles, candle);
      ghost var after := ListsAppend(round, ambient, macdConfig, atrConfig, Fields(), candles + [candle]);
      var index := |candles|;
      candles := candles + [candle];
      fast := fast + [EmaAppend(round, candles, index, macdConfig.fast, fast)];
      slow := slow + [EmaAppend(round, candles, index, macdConfig.slow, slow)];
      macd := macd + [Minus(round, fast[index], slow[index])];
      signal := signal + [SignalAppend(round, macdConfig, index, macd, signal)];
      histogram := histogram + [Minus(round, macd[index], signal[index])];
      trueRanges := trueRanges + [TrueRange(ambient, if index == 0 then None else Some(candles[index - 1]), candle)];
      atr := atr + [AtrAppend(round, atrConfig, index, trueRanges, atr)];
      assert Fields() == after;
    }

    /** Extend the known prefix, or start over: whatever was appended and reported before, the
        state is that of the last candles. */
    method Append(incoming: seq<Candle>)
      requires Valid()
      modifies this
      ensures Valid() && candles == incoming
    {
      hide ConfigsValid, Idempotent, ListsOf, MacdPoints, AtrPoints;
      if !(candles <= incoming) {
        Reset();
      }
      assert incoming[..|candles|] == candles;
      for i := |candles| to |incoming|
        invariant Valid() && candles == incoming[..i]
      {
        AppendCandle(incoming[i]);
        assert incoming[..i + 1] == incoming[..i] + [incoming[i]];
      }
      assert incoming[..|incoming|] == incoming;
    }

    /** The analysis of the candles, extending the points cached by earlier reports. */
    method Result() returns (r: Analysis)
      requires Valid()
      modifies this`macdPoints, this`atrPoints
      ensures Valid()
      ensures r == AnalysisOf(ListsOf(round, ambient, macdConfig, atrConfig, candles), timeframe, candles)
      ensures Some(r) == ReferenceAnalysis(round, ambient, timeframe, macdConfig, atrConfig, candles) <==> InOrder(candles)
    {
      hide ConfigsValid, Idempotent, ListsOf, MacdAt, AtrAt, Duration;
      for index := |macdPoints| to |candles|
        invariant Valid() && |macdPoints| == index
      {
        macdPoints := macdPoints + [MacdAt(Fields(), candles, index)];
        atrPoints := atrPoints + [AtrAt(Fields(), candles, index)];
      }
      var cutoff := if candles == [] then None else Some(candles[|candles| - 1].timestamp + Duration(timeframe));
      return Analysis(|candles|, cutoff, macdPoints, atrPoints);
    }
  }

  /** Two candles the wrong way round are reported on by the state and refused by the reference. */
  lemma {:induction false} WrongWayRound(round: Rounding, ambient: Rounding, timeframe: Timeframe, macd: MacdConfig, atr: AtrConfig)
    requires ConfigsValid(macd, atr)
    ensures var late, early := Candle(MINUTE, 1.0, 1.0, 1.0, 1.0, 1.0), Candle(0, 1.0, 1.0, 1.0, 1.0, 1.0);
      !InOrder([late, early]) && ReferenceAnalysis(round, ambient, timeframe, macd, atr, [late, early]) == None
  {
    hide ListsOf, AnalysisOf;
    var late, early := Candle(MINUTE, 1.0, 1.0, 1.0, 1.0, 1.0), Candle(0, 1.0, 1.0, 1.0, 1.0, 1.0);
    assert [late, early][0].timestamp >= [late, early][0 + 1].timestamp;
  }
}
