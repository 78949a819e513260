/** The reference break detector: it consumes each confirmation once, keeps only the tails that
    the trend needs, and finds the latest unbroken swing on top of a stack. */
module ReferenceBreaks {
  import opened Wrappers
  import opened Sorting
  import opened Resampling
  import opened Swings
  import opened Zones
  import opened Breaks

  /** What the detector carries from candle to candle. */
  datatype Scan = Scan(frontier: nat, highs: seq<Swing>, lows: seq<Swing>, highStack: seq<Swing>, lowStack: seq<Swing>)

  /** Confirmations never go back in time. */
  ghost predicate Confirmations(swings: seq<Swing>) {
    InOrder(swings) && forall i, j :: 0 <= i < j < |swings| ==> swings[i].confirmedAt <= swings[j].confirmedAt
  }

  /** A stack holds swings of its kind in order, and every one that is not broken. */
  ghost predicate StackOk(stack: seq<Swing>, kind: SwingKind, seen: seq<Swing>, broken: set<SwingId>) {
    && (forall s :: s in stack ==> s in seen && s.kind == kind)
    && (forall i, j :: 0 <= i < j < |stack| ==> stack[i].pivotIndex < stack[j].pivotIndex)
    && (forall s :: s in seen && s.kind == kind && s.Id() !in broken ==> s in stack)
  }

  ghost predicate ScanOk(c: Config, swings: seq<Swing>, s: Scan, broken: set<SwingId>) {
    && s.frontier <= |swings|
    && var seen := swings[..s.frontier];
       && s.highs == LastN(OfKind(High, seen), c.trendPoints) && s.lows == LastN(OfKind(Low, seen), c.trendPoints)
       && StackOk(s.highStack, High, seen, broken) && StackOk(s.lowStack, Low, seen, broken)
  }

  function Pushed(c: Config, s: Scan, swing: Swing): Scan {
    if swing.kind.High?
    then s.(frontier := s.frontier + 1, highs := LastN(s.highs + [swing], c.trendPoints), highStack := s.highStack + [swing])
    else s.(frontier := s.frontier + 1, lows := LastN(s.lows + [swing], c.trendPoints), lowStack := s.lowStack + [swing])
  }

  lemma {:induction false} TailPush<T>(xs: seq<T>, x: T, n: nat)
    ensures LastN(LastN(xs, n) + [x], n) == LastN(xs + [x], n)
  {
  }

  lemma {:induction false} OfKindAppend(kind: SwingKind, swings: seq<Swing>, s: Swing)
    ensures OfKind(kind, swings + [s]) == if s.kind == kind then OfKind(kind, swings) + [s] else OfKind(kind, swings)
  {
    assert (swings + [s])[..|swings|] == swings;
  }

  lemma {:induction false} StackPush(stack: seq<Swing>, kind: SwingKind, swings: seq<Swing>, k: nat, broken: set<SwingId>)
    requires k < |swings| && InOrder(swings) && StackOk(stack, kind, swings[..k], broken)
    ensures StackOk(if swings[k].kind == kind then stack + [swings[k]] else stack, kind, swings[..k + 1], broken)
  {
    assert swings[..k + 1] == swings[..k] + [swings[k]];
    if swings[k].kind == kind {
      forall i | 0 <= i < |stack| ensures stack[i].pivotIndex < swings[k].pivotIndex {
        assert stack[i] in swings[..k];
        var x :| 0 <= x < k && swings[x] == stack[i];
      }
    }
  }

  lemma {:induction false} PushOk(c: Config, swings: seq<Swing>, s: Scan, broken: set<SwingId>)
    requires InOrder(swings) && ScanOk(c, swings, s, broken) && s.frontier < |swings|
    ensures ScanOk(c, swings, Pushed(c, s, swings[s.frontier]), broken)
  {
    hide LastN, OfKind, StackOk;
    var k := s.frontier;
    assert swings[..k + 1] == swings[..k] + [swings[k]];
    OfKindAppend(High, swings[..k], swings[k]);
    OfKindAppend(Low, swings[..k], swings[k]);
    TailPush(OfKind(High, swings[..k]), swings[k], c.trendPoints);
    TailPush(OfKind(Low, swings[..k]), swings[k], c.trendPoints);
    StackPush(s.highStack, High, swings, k, broken);
    StackPush(s.lowStack, Low, swings, k, broken);
  }

  /** Move the frontier over the swings confirmed by the candle's open. */
  method Advance(c: Config, swings: seq<Swing>, t: int, s0: Scan, ghost broken: set<SwingId>) returns (s: Scan)
    requires Confirmations(swings) && ScanOk(c, swings, s0, broken)
    requires forall k :: 0 <= k < s0.frontier ==> swings[k].confirmedAt <= t
    ensures ScanOk(c, swings, s, broken) && s0.frontier <= s.frontier
    ensures swings[..s.frontier] == Filter(KnownBy(t), swings)
    ensures forall k :: 0 <= k < s.frontier ==> swings[k].confirmedAt <= t
  {
    hide ScanOk, LastN;
    s := s0;
    FrontierBound(c, swings, s, broken);
    while s.frontier < |swings| && swings[s.frontier].confirmedAt <= t
      invariant ScanOk(c, swings, s, broken) && s0.frontier <= s.frontier <= |swings|
      invariant forall k :: 0 <= k < s.frontier ==> swings[k].confirmedAt <= t
      decreases |swings| - s.frontier
    {
      PushOk(c, swings, s, broken);
      s := Pushed(c, s, swings[s.frontier]);
    }
    FilterFront(KnownBy(t), swings, s.frontier);
  }

  lemma {:induction false} FrontierBound(c: Config, swings: seq<Swing>, s: Scan, broken: set<SwingId>)
    requires ScanOk(c, swings, s, broken)
    ensures s.frontier <= |swings|
  {
  }

  lemma {:induction false} FilterFront(keep: Swing -> bool, rows: seq<Swing>, k: nat)
    requires k <= |rows|
    requires forall i :: 0 <= i < |rows| ==> (keep(rows[i]) <==> i < k)
    ensures rows[..k] == Filter(keep, rows)
    decreases |rows|
  {
    if rows != [] {
      var n := |rows| - 1;
      FilterFront(keep, rows[..n], if k < n then k else n);
      assert k == |rows| ==> rows[..k] == rows[..n] + [rows[n]];
      assert k < |rows| ==> rows[..n][..k] == rows[..k];
    }
  }

  // ---- levels ----------------------------------------------------------------------

  /** Drop broken swings from the top. */
  method Popped(stack0: seq<Swing>, kind: SwingKind, ghost seen: seq<Swing>, broken: set<SwingId>) returns (stack: seq<Swing>)
    requires StackOk(stack0, kind, seen, broken)
    ensures StackOk(stack, kind, seen, broken)
    ensures stack != [] ==> stack[|stack| - 1].Id() !in broken
  {
    stack := stack0;
    while stack != [] && stack[|stack| - 1].Id() in broken
      invariant StackOk(stack, kind, seen, broken)
      decreases |stack|
    {
      var rest := stack[..|stack| - 1];
      assert stack == rest + [stack[|stack| - 1]];
      stack := rest;
    }
  }

  function Top(stack: seq<Swing>): Option<Swing> {
    if stack == [] then None else Some(stack[|stack| - 1])
  }

  lemma {:induction false} LatestIsGreatest(swings: seq<Swing>, kind: SwingKind, broken: set<SwingId>, x: Swing)
    requires x in swings && x.kind == kind && x.Id() !in broken
    ensures var s := LatestUnbroken(swings, kind, broken); s.Some? && ByConfirmation(x, s.value)
    decreases |swings|
  {
    var init, last := swings[..|swings| - 1], swings[|swings| - 1];
    assert swings == init + [last];
    if x in init {
      LatestIsGreatest(init, kind, broken, x);
    }
  }

  /** The top of a popped stack is the latest unbroken swing. */
  lemma {:induction false} TopIsLatest(stack: seq<Swing>, kind: SwingKind, seen: seq<Swing>, broken: set<SwingId>)
    requires InOrder(seen) && StackOk(stack, kind, seen, broken)
    requires stack != [] ==> stack[|stack| - 1].Id() !in broken
    ensures Top(stack) == LatestUnbroken(seen, kind, broken)
  {
    hide LatestUnbroken;
    LatestIsUnbroken(seen, kind, broken);
    var latest := LatestUnbroken(seen, kind, broken);
    if latest.Some? {
      assert latest.value in stack;
      var top := stack[|stack| - 1];
      LatestIsGreatest(seen, kind, broken, top);
      var i, j :| 0 <= i < |seen| && 0 <= j < |seen| && seen[i] == latest.value && seen[j] == top;
      var m :| 0 <= m < |stack| && stack[m] == latest.value;
    } else if stack != [] {
      LatestIsGreatest(seen, kind, broken, stack[|stack| - 1]);
    }
  }

  // ---- the trend -------------------------------------------------------------------

  lemma {:induction false} OfKindConcat(kind: SwingKind, a: seq<Swing>, b: seq<Swing>)
    ensures OfKind(kind, a + b) == OfKind(kind, a) + OfKind(kind, b)
    decreases |b|
  {
    if b == [] {
      assert a + b == a;
    } else {
      var init := b[..|b| - 1];
      OfKindConcat(kind, a, init);
      assert (a + b)[..|a + b| - 1] == a + init;
    }
  }

  lemma {:induction false} OfKindPure(kind: SwingKind, other: SwingKind, swings: seq<Swing>)
    requires forall i :: 0 <= i < |swings| ==> swings[i].kind == kind
    ensures OfKind(other, swings) == if kind == other then swings else []
    decreases |swings|
  {
    if swings != [] {
      OfKindPure(kind, other, swings[..|swings| - 1]);
      assert swings == swings[..|swings| - 1] + [swings[|swings| - 1]];
    }
  }

  lemma {:induction false} KindsOf(kind: SwingKind, swings: seq<Swing>)
    ensures forall i :: 0 <= i < |OfKind(kind, swings)| ==> OfKind(kind, swings)[i].kind == kind
    decreases |swings|
  {
    if swings != [] {
      KindsOf(kind, swings[..|swings| - 1]);
    }
  }

  /** The tails are all the trend looks at. */
  lemma {:induction false} TailsAreEnough(c: Config, seen: seq<Swing>, highs: seq<Swing>, lows: seq<Swing>)
    requires highs == LastN(OfKind(High, seen), c.trendPoints) && lows == LastN(OfKind(Low, seen), c.trendPoints)
    ensures ClassifyTrend(c, highs + lows) == ClassifyTrend(c, seen)
  {
    hide OfKind, Climbs, Falls;
    KindsOf(High, seen);
    KindsOf(Low, seen);
    OfKindPure(High, High, highs);
    OfKindPure(High, Low, highs);
    OfKindPure(Low, High, lows);
    OfKindPure(Low, Low, lows);
    OfKindConcat(High, highs, lows);
    OfKindConcat(Low, highs, lows);
    assert highs + [] == highs && [] + lows == lows;
  }

  // ---- the detector ----------------------------------------------------------------

  lemma {:induction false} BrokenGrows(stack: seq<Swing>, kind: SwingKind, seen: seq<Swing>, broken: set<SwingId>, more: set<SwingId>)
    requires StackOk(stack, kind, seen, broken) && broken <= more
    ensures StackOk(stack, kind, seen, more)
  {
  }

  /** One candle of the detector. */
  method DetectAtCandle(c: Config, swings: seq<Swing>, candle: Candle, s0: Scan, trend0: Option<Trend>, b0: BreakState)
    returns (s: Scan, trend: Option<Trend>, b: BreakState)
    requires Confirmations(swings) && ScanOk(c, swings, s0, b0.broken)
    requires forall k :: 0 <= k < s0.frontier ==> swings[k].confirmedAt <= candle.timestamp
    requires trend0.Some? ==> trend0.value == ClassifyTrend(c, swings[..s0.frontier])
    ensures b == BreakAt(c, swings, b0, candle)
    ensures ScanOk(c, swings, s, b.broken) && trend == Some(ClassifyTrend(c, swings[..s.frontier]))
    ensures forall k :: 0 <= k < s.frontier ==> swings[k].confirmedAt <= candle.timestamp
  {
    hide ClassifyTrend, LastN, OfKind, LatestUnbroken, StackOk, BreakWith;
    s := Advance(c, swings, candle.timestamp, s0, b0.broken);
    ghost var seen := swings[..s.frontier];
    trend := trend0;
    if trend.None? || s0.frontier != s.frontier {
      TailsAreEnough(c, seen, s.highs, s.lows);
      trend := Some(ClassifyTrend(c, s.highs + s.lows));
    }
    var highStack := Popped(s.highStack, High, seen, b0.broken);
    var lowStack := Popped(s.lowStack, Low, seen, b0.broken);
    InOrderPrefix(swings, s.frontier);
    TopIsLatest(highStack, High, seen, b0.broken);
    TopIsLatest(lowStack, Low, seen, b0.broken);
    s := s.(highStack := highStack, lowStack := lowStack);
    b := BreakWith(c, b0, candle, trend.value, Top(highStack), Top(lowStack));
    BrokenOnlyGrows(c, b0, candle, trend.value, Top(highStack), Top(lowStack));
    BrokenGrows(highStack, High, seen, b0.broken, b.broken);
    BrokenGrows(lowStack, Low, seen, b0.broken, b.broken);
  }

  lemma {:induction false} InOrderPrefix(swings: seq<Swing>, k: nat)
    requires InOrder(swings) && k <= |swings|
    ensures InOrder(swings[..k])
  {
  }

  lemma {:induction false} BrokenOnlyGrows(c: Config, b: BreakState, candle: Candle, trend: Trend, up: Option<Swing>, down: Option<Swing>)
    ensures b.broken <= BreakWith(c, b, candle, trend, up, down).broken
  {
  }

  lemma {:induction false} NothingSeen(c: Config, swings: seq<Swing>)
    ensures ScanOk(c, swings, Scan(0, [], [], [], []), {})
  {
    assert swings[..0] == [];
  }

  /** `_detect_structure_breaks`: with frontier, tails and stacks it finds the same breaks as
      looking at every confirmed swing at every candle. */
  method DetectBreaks(c: Config, candles: seq<Candle>, swings: seq<Swing>) returns (b: BreakState)
    requires Confirmations(swings) && Increasing(candles)
    ensures b == BreaksOf(c, candles, swings)
  {
    hide BreakAt, ScanOk, ClassifyTrend, Confirmations;
    b := UNBROKEN;
    var s := Scan(0, [], [], [], []);
    var trend: Option<Trend> := None;
    NothingSeen(c, swings);
    for i := 0 to |candles|
      invariant b == BreaksOf(c, candles[..i], swings)
      invariant ScanOk(c, swings, s, b.broken) && s.frontier <= |swings|
      invariant trend.Some? ==> trend.value == ClassifyTrend(c, swings[..s.frontier])
      invariant forall k :: 0 <= k < s.frontier ==> i > 0 && swings[k].confirmedAt <= candles[i - 1].timestamp
    {
      assert candles[..i + 1][..i] == candles[..i];
      assert i > 0 ==> candles[i - 1].timestamp < candles[i].timestamp;
      s, trend, b := DetectAtCandle(c, swings, candles[i], s, trend, b);
      FrontierBound(c, swings, s, b.broken);
    }
    assert candles[..|candles|] == candles;
  }
}
