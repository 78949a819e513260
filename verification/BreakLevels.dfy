/** What a structure break says: the level a candle passed, the price it passed it with, and the
    trend it went along with or against. */
module BreakLevels {
  import opened Wrappers
  import opened Sorting
  import opened Resampling
  import opened Swings
  import opened Zones
  import opened Breaks
  import opened ReferenceBreaks
  import opened IncrementalStructure

  // ---- levels ----------------------------------------------------------------------

  /** A swing of the kind, confirmed by a moment, that no event before that moment has broken. */
  ghost predicate Stands(swings: seq<Swing>, events: seq<BreakEvent>, kind: SwingKind, t: int, s: Swing) {
    && s in swings && s.kind == kind && s.confirmedAt <= t
    && forall i :: 0 <= i < |events| && events[i].timestamp < t ==> events[i].broken != s.Id()
  }

  /** The level: of the swings that stand, the one confirmed last, and of those the latest pivot. */
  ghost predicate IsLevel(swings: seq<Swing>, events: seq<BreakEvent>, kind: SwingKind, t: int, s: Swing) {
    && Stands(swings, events, kind, t, s)
    && forall other :: Stands(swings, events, kind, t, other) ==>
         other.confirmedAt < s.confirmedAt || (other.confirmedAt == s.confirmedAt && other.pivotIndex <= s.pivotIndex)
  }

  /** The value that is compared: the close, or the wick on that side. */
  function Compared(c: Config, kind: SwingKind, candle: Candle): real {
    match c.basis
    case Close => candle.close
    case Wick => if kind == High then candle.high else candle.low
  }

  /** Beyond the price of the swing by more than the buffer. */
  predicate Beyond(c: Config, kind: SwingKind, value: real, price: real) {
    if kind == High then value > price + c.tick * c.bufferTicks as real else value < price - c.tick * c.bufferTicks as real
  }

  /** The candle passes the level of the kind. */
  ghost predicate Passes(c: Config, swings: seq<Swing>, events: seq<BreakEvent>, kind: SwingKind, candle: Candle) {
    exists s :: IsLevel(swings, events, kind, candle.timestamp, s) && Beyond(c, kind, Compared(c, kind, candle), s.price)
  }

  function KindOf(direction: Direction): SwingKind {
    if direction == Up then High else Low
  }

  /** The trend at a candle's open. */
  function TrendAt(c: Config, swings: seq<Swing>, candle: Candle): Trend {
    ClassifyTrend(c, Filter(KnownBy(candle.timestamp), swings))
  }

  /** What an event says about its candle. */
  ghost predicate EventOk(c: Config, swings: seq<Swing>, events: seq<BreakEvent>, candle: Candle, e: BreakEvent) {
    var kind := KindOf(e.direction);
    && e.timestamp == candle.timestamp && e.confirmedAt == candle.timestamp + c.duration
    && e.price == Compared(c, kind, candle)
    && (exists s :: IsLevel(swings, events, kind, candle.timestamp, s) && e.broken == s.Id() && Beyond(c, kind, e.price, s.price))
    && !Passes(c, swings, events, if kind == High then Low else High, candle)
    && e.trendBefore == TrendAt(c, swings, candle)
    && (e.eventType == BOS <==> (e.direction == Up && e.trendBefore == Bullish) || (e.direction == Down && e.trendBefore == Bearish))
    && (e.eventType == MSS <==> (e.direction == Up && e.trendBefore == Bearish) || (e.direction == Down && e.trendBefore == Bullish))
    && (e.aliased <==> e.eventType == MSS)
  }

  ghost predicate RejectionOk(c: Config, swings: seq<Swing>, events: seq<BreakEvent>, candle: Candle, r: Rejection) {
    && r.timestamp == candle.timestamp && r.confirmedAt == candle.timestamp + c.duration
    && (exists s :: IsLevel(swings, events, High, candle.timestamp, s) && r.up == s.Id())
    && (exists s :: IsLevel(swings, events, Low, candle.timestamp, s) && r.down == s.Id())
  }

  // ---- one candle ------------------------------------------------------------------

  /** The broken identifiers are those of the events. */
  ghost predicate Recorded(b: BreakState) {
    forall id :: id in b.broken <==> exists i :: 0 <= i < |b.events| && b.events[i].broken == id
  }

  ghost predicate Earlier(events: seq<BreakEvent>, t: int) {
    forall i :: 0 <= i < |events| ==> events[i].timestamp < t
  }

  lemma {:induction false} LevelIs(swings: seq<Swing>, kind: SwingKind, t: int, b: BreakState)
    requires InOrder(swings) && Recorded(b) && Earlier(b.events, t)
    ensures Found(swings, b.events, kind, t, LatestUnbroken(Filter(KnownBy(t), swings), kind, b.broken))
  {
    hide LatestUnbroken, Filter, InOrder;
    var known := Filter(KnownBy(t), swings);
    var x := LatestUnbroken(known, kind, b.broken);
    forall s ensures Stands(swings, b.events, kind, t, s) <==> s in known && s.kind == kind && s.Id() !in b.broken {
      FilterKeeps(KnownBy(t), swings, s);
    }
    LatestIsUnbroken(known, kind, b.broken);
    forall s | Stands(swings, b.events, kind, t, s) ensures x.Some? && ByConfirmation(s, x.value) {
      LatestIsGreatest(known, kind, b.broken, s);
    }
    forall s | IsLevel(swings, b.events, kind, t, s) ensures x == Some(s) {
      SameSwing(swings, s, x.value);
    }
  }

  lemma {:induction false} SameSwing(swings: seq<Swing>, a: Swing, b: Swing)
    requires InOrder(swings) && a in swings && b in swings && a.kind == b.kind
    requires a.confirmedAt == b.confirmedAt && a.pivotIndex == b.pivotIndex
    ensures a == b
  {
    var i, j :| 0 <= i < |swings| && 0 <= j < |swings| && swings[i] == a && swings[j] == b;
  }

  /** A level found, or none. */
  ghost predicate Found(swings: seq<Swing>, events: seq<BreakEvent>, kind: SwingKind, t: int, x: Option<Swing>) {
    && (x.Some? ==> IsLevel(swings, events, kind, t, x.value))
    && forall s :: IsLevel(swings, events, kind, t, s) ==> x == Some(s)
  }

  lemma {:induction false} PassesFound(c: Config, swings: seq<Swing>, events: seq<BreakEvent>, kind: SwingKind, candle: Candle, x: Option<Swing>)
    requires Found(swings, events, kind, candle.timestamp, x)
    ensures Passes(c, swings, events, kind, candle) <==> x.Some? && Beyond(c, kind, Compared(c, kind, candle), x.value.price)
  {
    hide IsLevel, Beyond, Compared;
  }

  lemma {:induction false} EventMade(c: Config, swings: seq<Swing>, b: BreakState, candle: Candle, high: Option<Swing>, low: Option<Swing>)
    requires Found(swings, b.events, High, candle.timestamp, high) && Found(swings, b.events, Low, candle.timestamp, low)
    requires Passes(c, swings, b.events, High, candle) != Passes(c, swings, b.events, Low, candle)
    ensures var next := BreakWith(c, b, candle, TrendAt(c, swings, candle), high, low);
      && next.rejections == b.rejections && |next.events| == |b.events| + 1 && next.events[..|b.events|] == b.events
      && var e := next.events[|b.events|];
         EventOk(c, swings, b.events, candle, e) && next.broken == b.broken + {e.broken}
  {
    hide IsLevel, TrendAt, Passes;
    PassesFound(c, swings, b.events, High, candle, high);
    PassesFound(c, swings, b.events, Low, candle, low);
    var next := BreakWith(c, b, candle, TrendAt(c, swings, candle), high, low);
    var e := next.events[|b.events|];
    var s := if Passes(c, swings, b.events, High, candle) then high.value else low.value;
    assert IsLevel(swings, b.events, KindOf(e.direction), candle.timestamp, s) && e.broken == s.Id();
  }

  lemma {:induction false} RejectionMade(c: Config, swings: seq<Swing>, b: BreakState, candle: Candle, high: Option<Swing>, low: Option<Swing>)
    requires Found(swings, b.events, High, candle.timestamp, high) && Found(swings, b.events, Low, candle.timestamp, low)
    requires Passes(c, swings, b.events, High, candle) == Passes(c, swings, b.events, Low, candle)
    ensures var next := BreakWith(c, b, candle, TrendAt(c, swings, candle), high, low);
      && next.events == b.events && next.broken == b.broken
      && (!Passes(c, swings, b.events, High, candle) ==> next.rejections == b.rejections)
      && (Passes(c, swings, b.events, High, candle) ==>
            && |next.rejections| == |b.rejections| + 1 && next.rejections[..|b.rejections|] == b.rejections
            && RejectionOk(c, swings, b.events, candle, next.rejections[|b.rejections|]))
  {
    hide IsLevel, TrendAt, Passes;
    PassesFound(c, swings, b.events, High, candle, high);
    PassesFound(c, swings, b.events, Low, candle, low);
  }

  /** What one more candle does: one event if it passes exactly one level, one rejection if both,
      and otherwise nothing. */
  ghost predicate CandleOk(c: Config, swings: seq<Swing>, b: BreakState, candle: Candle, next: BreakState) {
    var up, down := Passes(c, swings, b.events, High, candle), Passes(c, swings, b.events, Low, candle);
    && (up == down ==> next.events == b.events)
    && (up != down ==>
          && |next.events| == |b.events| + 1 && next.events[..|b.events|] == b.events
          && EventOk(c, swings, b.events, candle, next.events[|b.events|]))
    && (!(up && down) ==> next.rejections == b.rejections)
    && (up && down ==>
          && |next.rejections| == |b.rejections| + 1 && next.rejections[..|b.rejections|] == b.rejections
          && RejectionOk(c, swings, b.events, candle, next.rejections[|b.rejections|]))
  }

  lemma {:induction false} CandleBreaks(c: Config, swings: seq<Swing>, b: BreakState, candle: Candle)
    requires InOrder(swings) && Recorded(b) && Earlier(b.events, candle.timestamp)
    ensures CandleOk(c, swings, b, candle, BreakAt(c, swings, b, candle)) && Recorded(BreakAt(c, swings, b, candle))
  {
    hide ClassifyTrend, LatestUnbroken, Filter, IsLevel, InOrder, BreakWith, EventOk, RejectionOk, Passes;
    var t := candle.timestamp;
    LevelIs(swings, High, t, b);
    LevelIs(swings, Low, t, b);
    var known := Filter(KnownBy(t), swings);
    var high, low := LatestUnbroken(known, High, b.broken), LatestUnbroken(known, Low, b.broken);
    var next := BreakAt(c, swings, b, candle);
    if Passes(c, swings, b.events, High, candle) != Passes(c, swings, b.events, Low, candle) {
      EventMade(c, swings, b, candle, high, low);
      RecordedNext(b, next);
    } else {
      RejectionMade(c, swings, b, candle, high, low);
    }
  }

  lemma {:induction false} RecordedNext(b: BreakState, next: BreakState)
    requires Recorded(b) && |next.events| == |b.events| + 1 && next.events[..|b.events|] == b.events
    requires next.broken == b.broken + {next.events[|b.events|].broken}
    ensures Recorded(next)
  {
    forall id ensures id in next.broken <==> exists i :: 0 <= i < |next.events| && next.events[i].broken == id {
      if i :| 0 <= i < |next.events| && next.events[i].broken == id {
        if i < |b.events| {
          assert b.events[i] == next.events[i];
        }
      }
      if id in b.broken {
        var i :| 0 <= i < |b.events| && b.events[i].broken == id;
        assert next.events[i] == b.events[i];
      }
    }
  }

  // ---- whole histories -------------------------------------------------------------

  /** Events and rejections carry the time of one of the first k candles. */
  ghost predicate Dated(candles: seq<Candle>, k: nat, b: BreakState)
    requires k <= |candles|
  {
    && (forall i :: 0 <= i < |b.events| ==> exists j :: 0 <= j < k && candles[j].timestamp == b.events[i].timestamp)
    && (forall i :: 0 <= i < |b.rejections| ==> exists j :: 0 <= j < k && candles[j].timestamp == b.rejections[i].timestamp)
  }

  lemma {:induction false} BreaksPrefix(c: Config, candles: seq<Candle>, swings: seq<Swing>, k: nat)
    requires k < |candles|
    ensures BreaksOf(c, candles[..k + 1], swings) == BreakAt(c, swings, BreaksOf(c, candles[..k], swings), candles[k])
  {
    hide BreakAt;
    assert candles[..k + 1][..k] == candles[..k];
  }

  lemma {:induction false} DatedNext(c: Config, swings: seq<Swing>, candles: seq<Candle>, k: nat, b: BreakState, next: BreakState)
    requires k < |candles| && Dated(candles, k, b) && CandleOk(c, swings, b, candles[k], next)
    ensures Dated(candles, k + 1, next)
  {
    hide IsLevel, Passes, TrendAt, Beyond;
    forall i | 0 <= i < |next.events| ensures exists j :: 0 <= j < k + 1 && candles[j].timestamp == next.events[i].timestamp {
      if i < |b.events| {
        assert b.events[i] == next.events[..|b.events|][i];
        var j :| 0 <= j < k && candles[j].timestamp == b.events[i].timestamp;
        assert candles[j].timestamp == next.events[i].timestamp;
      } else {
        assert candles[k].timestamp == next.events[i].timestamp;
      }
    }
    forall i | 0 <= i < |next.rejections| ensures exists j :: 0 <= j < k + 1 && candles[j].timestamp == next.rejections[i].timestamp {
      if i < |b.rejections| {
        assert b.rejections[i] == next.rejections[..|b.rejections|][i];
        var j :| 0 <= j < k && candles[j].timestamp == b.rejections[i].timestamp;
        assert candles[j].timestamp == next.rejections[i].timestamp;
      } else {
        assert candles[k].timestamp == next.rejections[i].timestamp;
      }
    }
  }

  lemma {:induction false} DatedEarlier(candles: seq<Candle>, k: nat, b: BreakState)
    requires k < |candles| && Breaks.Increasing(candles) && Dated(candles, k, b)
    ensures Earlier(b.events, candles[k].timestamp)
    ensures forall i :: 0 <= i < |b.rejections| ==> b.rejections[i].timestamp < candles[k].timestamp
  {
  }

  /** Candle by candle. */
  lemma {:induction false} EachCandle(c: Config, candles: seq<Candle>, swings: seq<Swing>, k: nat)
    requires Breaks.Increasing(candles) && InOrder(swings) && k <= |candles|
    ensures var b := BreaksOf(c, candles[..k], swings);
      && Recorded(b) && Dated(candles, k, b)
      && (k < |candles| ==> CandleOk(c, swings, b, candles[k], BreaksOf(c, candles[..k + 1], swings)))
    decreases k
  {
    hide BreakAt, CandleOk, InOrder, Breaks.Increasing, BreaksOf, Dated, Recorded;
    if k == 0 {
      NoBreaksYet(c, candles, swings);
    } else {
      EachCandle(c, candles, swings, k - 1);
      var b := BreaksOf(c, candles[..k - 1], swings);
      BreaksPrefix(c, candles, swings, k - 1);
      DatedNext(c, swings, candles, k - 1, b, BreaksOf(c, candles[..k], swings));
      DatedEarlier(candles, k - 1, b);
      CandleBreaks(c, swings, b, candles[k - 1]);
    }
    if k < |candles| {
      var b := BreaksOf(c, candles[..k], swings);
      BreaksPrefix(c, candles, swings, k);
      DatedEarlier(candles, k, b);
      CandleBreaks(c, swings, b, candles[k]);
    }
  }

  lemma {:induction false} NoBreaksYet(c: Config, candles: seq<Candle>, swings: seq<Swing>)
    ensures Recorded(BreaksOf(c, candles[..0], swings)) && Dated(candles, 0, BreaksOf(c, candles[..0], swings))
  {
  }

  /** Later candles only add events and rejections of their own times. */
  ghost predicate Continues(b: BreakState, next: BreakState, t: int) {
    && b.events <= next.events && b.rejections <= next.rejections
    && (forall i :: |b.events| <= i < |next.events| ==> next.events[i].timestamp >= t)
    && (forall i :: |b.rejections| <= i < |next.rejections| ==> next.rejections[i].timestamp >= t)
  }

  lemma {:induction false} ContinuesOne(c: Config, swings: seq<Swing>, b0: BreakState, b: BreakState, candle: Candle, next: BreakState, t: int)
    requires Continues(b0, b, t) && CandleOk(c, swings, b, candle, next) && candle.timestamp >= t
    ensures Continues(b0, next, t)
  {
    hide IsLevel, Passes, TrendAt, Beyond;
  }

  lemma {:induction false} Later(c: Config, candles: seq<Candle>, swings: seq<Swing>, k: nat, n: nat)
    requires Breaks.Increasing(candles) && InOrder(swings) && k <= n <= |candles| && k < |candles|
    ensures Continues(BreaksOf(c, candles[..k], swings), BreaksOf(c, candles[..n], swings), candles[k].timestamp)
    decreases n
  {
    hide CandleOk, InOrder, BreaksOf, Dated, Recorded;
    if k < n {
      Later(c, candles, swings, k, n - 1);
      EachCandle(c, candles, swings, n - 1);
      ContinuesOne(c, swings, BreaksOf(c, candles[..k], swings), BreaksOf(c, candles[..n - 1], swings), candles[n - 1],
                   BreaksOf(c, candles[..n], swings), candles[k].timestamp);
    }
  }

  /** The level at a moment looks at earlier events only. */
  lemma {:induction false} SameLevels(swings: seq<Swing>, b: BreakState, all: BreakState, kind: SwingKind, t: int)
    requires Continues(b, all, t) && Earlier(b.events, t)
    ensures forall s :: IsLevel(swings, all.events, kind, t, s) <==> IsLevel(swings, b.events, kind, t, s)
  {
    forall s ensures Stands(swings, all.events, kind, t, s) <==> Stands(swings, b.events, kind, t, s) {
      if Stands(swings, all.events, kind, t, s) {
        forall i | 0 <= i < |b.events| && b.events[i].timestamp < t ensures b.events[i].broken != s.Id() {
          assert all.events[i] == b.events[i];
        }
      }
    }
  }

  lemma {:induction false} SamePasses(c: Config, swings: seq<Swing>, b: BreakState, all: BreakState, candle: Candle, kind: SwingKind)
    requires Continues(b, all, candle.timestamp) && Earlier(b.events, candle.timestamp)
    ensures Passes(c, swings, all.events, kind, candle) <==> Passes(c, swings, b.events, kind, candle)
  {
    hide IsLevel, Beyond, Compared, Continues, Earlier;
    SameLevels(swings, b, all, kind, candle.timestamp);
  }

  lemma {:induction false} SameEvent(c: Config, swings: seq<Swing>, b: BreakState, all: BreakState, candle: Candle, e: BreakEvent)
    requires Continues(b, all, candle.timestamp) && Earlier(b.events, candle.timestamp)
    ensures EventOk(c, swings, all.events, candle, e) <==> EventOk(c, swings, b.events, candle, e)
  {
    hide IsLevel, Beyond, Compared, TrendAt, Continues, Earlier, Passes;
    SameLevels(swings, b, all, High, candle.timestamp);
    SameLevels(swings, b, all, Low, candle.timestamp);
    SamePasses(c, swings, b, all, candle, High);
    SamePasses(c, swings, b, all, candle, Low);
  }

  lemma {:induction false} SameRejection(c: Config, swings: seq<Swing>, b: BreakState, all: BreakState, candle: Candle, r: Rejection)
    requires Continues(b, all, candle.timestamp) && Earlier(b.events, candle.timestamp)
    ensures RejectionOk(c, swings, all.events, candle, r) <==> RejectionOk(c, swings, b.events, candle, r)
  {
    hide IsLevel, Continues, Earlier;
    SameLevels(swings, b, all, High, candle.timestamp);
    SameLevels(swings, b, all, Low, candle.timestamp);
  }

  /** What the breaks of a history say of one of its candles. */
  ghost predicate Reported(c: Config, swings: seq<Swing>, all: BreakState, candle: Candle) {
    var up, down := Passes(c, swings, all.events, High, candle), Passes(c, swings, all.events, Low, candle);
    && ((exists i :: 0 <= i < |all.events| && all.events[i].timestamp == candle.timestamp) <==> up != down)
    && ((exists i :: 0 <= i < |all.rejections| && all.rejections[i].timestamp == candle.timestamp) <==> up && down)
    && (forall i :: 0 <= i < |all.events| && all.events[i].timestamp == candle.timestamp ==>
          EventOk(c, swings, all.events, candle, all.events[i]))
    && (forall i :: 0 <= i < |all.rejections| && all.rejections[i].timestamp == candle.timestamp ==>
          RejectionOk(c, swings, all.events, candle, all.rejections[i]))
  }

  lemma {:induction false} ReportedIn(c: Config, swings: seq<Swing>, b: BreakState, next: BreakState, all: BreakState, candle: Candle, after: int)
    requires CandleOk(c, swings, b, candle, next) && Continues(next, all, after) && candle.timestamp < after && Continues(b, all, candle.timestamp)
    requires Earlier(b.events, candle.timestamp) && forall i :: 0 <= i < |b.rejections| ==> b.rejections[i].timestamp < candle.timestamp
    ensures Reported(c, swings, all, candle)
  {
    hide IsLevel, Beyond, Compared, TrendAt, Passes, EventOk, RejectionOk;
    SamePasses(c, swings, b, all, candle, High);
    SamePasses(c, swings, b, all, candle, Low);
    var up, down := Passes(c, swings, b.events, High, candle), Passes(c, swings, b.events, Low, candle);
    var n, m := |b.events|, |b.rejections|;
    OnlyAt(b, next, all, candle.timestamp, after);
    if up != down {
      EventTime(c, swings, b.events, candle, next.events[n]);
      SameEvent(c, swings, b, all, candle, next.events[n]);
      assert all.events[n] == next.events[n];
    }
    if up && down {
      RejectionTime(c, swings, b.events, candle, next.rejections[m]);
      SameRejection(c, swings, b, all, candle, next.rejections[m]);
      assert all.rejections[m] == next.rejections[m];
    }
  }

  /** Only what the candle itself added carries its time. */
  lemma {:induction false} OnlyAt(b: BreakState, next: BreakState, all: BreakState, t: int, after: int)
    requires Earlier(b.events, t) && (forall i :: 0 <= i < |b.rejections| ==> b.rejections[i].timestamp < t) && t < after
    requires Continues(b, all, t) && Continues(next, all, after)
    ensures forall i :: 0 <= i < |all.events| && all.events[i].timestamp == t ==> |b.events| <= i < |next.events|
    ensures forall i :: 0 <= i < |all.rejections| && all.rejections[i].timestamp == t ==> |b.rejections| <= i < |next.rejections|
  {
    forall i | 0 <= i < |b.events| ensures all.events[i].timestamp < t {
      assert all.events[i] == b.events[i];
    }
    forall i | 0 <= i < |b.rejections| ensures all.rejections[i].timestamp < t {
      assert all.rejections[i] == b.rejections[i];
    }
  }

  lemma {:induction false} EventTime(c: Config, swings: seq<Swing>, events: seq<BreakEvent>, candle: Candle, e: BreakEvent)
    requires EventOk(c, swings, events, candle, e)
    ensures e.timestamp == candle.timestamp
  {
    hide IsLevel, Passes, TrendAt;
  }

  lemma {:induction false} RejectionTime(c: Config, swings: seq<Swing>, events: seq<BreakEvent>, candle: Candle, r: Rejection)
    requires RejectionOk(c, swings, events, candle, r)
    ensures r.timestamp == candle.timestamp
  {
    hide IsLevel;
  }

  /** The breaks of any history of swings in order: every event and rejection belongs to a candle,
      and every candle is reported exactly as it passes its levels. */
  lemma {:induction false} BreaksAreReported(c: Config, candles: seq<Candle>, swings: seq<Swing>)
    requires Breaks.Increasing(candles) && InOrder(swings)
    ensures var all := BreaksOf(c, candles, swings);
      && Dated(candles, |candles|, all)
      && forall k :: 0 <= k < |candles| ==> Reported(c, swings, all, candles[k])
  {
    hide CandleOk, InOrder, BreaksOf, Reported, Dated, Continues, Earlier;
    var n := |candles|;
    var all := BreaksOf(c, candles, swings);
    assert candles[..n] == candles;
    EachCandle(c, candles, swings, n);
    forall k | 0 <= k < n ensures Reported(c, swings, all, candles[k]) {
      var b, next := BreaksOf(c, candles[..k], swings), BreaksOf(c, candles[..k + 1], swings);
      EachCandle(c, candles, swings, k);
      DatedEarlier(candles, k, b);
      Later(c, candles, swings, k, n);
      if k + 1 < n {
        Later(c, candles, swings, k + 1, n);
        InTime(candles, k, k + 1);
        ReportedIn(c, swings, b, next, all, candles[k], candles[k + 1].timestamp);
      } else {
        NothingLater(all, candles[k].timestamp + 1);
        ReportedIn(c, swings, b, next, all, candles[k], candles[k].timestamp + 1);
      }
    }
  }

  lemma {:induction false} InTime(candles: seq<Candle>, i: nat, j: nat)
    requires Breaks.Increasing(candles) && i < j < |candles|
    ensures candles[i].timestamp < candles[j].timestamp
  {
  }

  lemma {:induction false} NothingLater(b: BreakState, t: int)
    ensures Continues(b, b, t)
  {
  }

  /** The same for the breaks that both the reference and the incremental state report. */
  lemma {:induction false} StructureBreaks(c: Config, candles: seq<Candle>)
    requires Breaks.Increasing(candles)
    ensures var swings := SwingsOf(c, candles); var all := BreaksOf(c, candles, swings);
      && Dated(candles, |candles|, all)
      && forall k :: 0 <= k < |candles| ==> Reported(c, swings, all, candles[k])
  {
    hide BreaksOf, SwingsOf, Reported, Dated, Breaks.Increasing;
    SwingsConfirm(c, candles);
    BreaksAreReported(c, candles, SwingsOf(c, candles));
  }

  // ---- trends ----------------------------------------------------------------------

  /** Each of the last n swings lies above the one before it by more than the tolerance. */
  ghost predicate Rises(swings: seq<Swing>, n: nat, tolerance: real) {
    |swings| >= n && forall i :: |swings| - n < i < |swings| ==> swings[i].price > swings[i - 1].price + tolerance
  }

  ghost predicate Sinks(swings: seq<Swing>, n: nat, tolerance: real) {
    |swings| >= n && forall i :: |swings| - n < i < |swings| ==> swings[i].price < swings[i - 1].price - tolerance
  }

  /** Bullish is exactly higher highs and higher lows, bearish lower highs and lower lows, and
      nothing is said without enough of both. */
  lemma {:induction false} TrendIs(c: Config, swings: seq<Swing>)
    requires ConfigOk(c)
    ensures var trend, highs, lows := ClassifyTrend(c, swings), OfKind(High, swings), OfKind(Low, swings);
      var n, tolerance := c.trendPoints, c.tick * c.equalityTicks as real;
      && (trend == Bullish <==> Rises(highs, n, tolerance) && Rises(lows, n, tolerance))
      && (trend == Bearish <==> Sinks(highs, n, tolerance) && Sinks(lows, n, tolerance))
      && (trend == InsufficientData <==> |highs| < n || |lows| < n)
  {
    hide OfKind, LastN, Climbs, Falls, Rises, Sinks;
    var highs, lows := OfKind(High, swings), OfKind(Low, swings);
    var n, tolerance := c.trendPoints, c.tick * c.equalityTicks as real;
    LastRises(highs, n, tolerance);
    LastRises(lows, n, tolerance);
    assert tolerance >= 0.0;
    if Rises(highs, n, tolerance) {
      NotBoth(highs, n, tolerance);
    }
  }

  lemma {:induction false} LastRises(swings: seq<Swing>, n: nat, tolerance: real)
    requires n >= 2
    ensures |swings| >= n ==> (Rises(swings, n, tolerance) <==> Climbs(LastN(swings, n), tolerance))
    ensures |swings| >= n ==> (Sinks(swings, n, tolerance) <==> Falls(LastN(swings, n), tolerance))
    ensures |LastN(swings, n)| < n <==> |swings| < n
    ensures Rises(swings, n, tolerance) || Sinks(swings, n, tolerance) ==> |swings| >= n
  {
    if |swings| >= n {
      var last, from := LastN(swings, n), |swings| - n;
      assert forall i :: 0 <= i < n ==> last[i] == swings[from + i];
      if Climbs(last, tolerance) {
        forall i | from < i < |swings| ensures swings[i].price > swings[i - 1].price + tolerance {
          assert last[i - from - 1 + 1].price > last[i - from - 1].price + tolerance;
        }
      }
      if Falls(last, tolerance) {
        forall i | from < i < |swings| ensures swings[i].price < swings[i - 1].price - tolerance {
          assert last[i - from - 1 + 1].price < last[i - from - 1].price - tolerance;
        }
      }
      if Rises(swings, n, tolerance) {
        forall i | 0 <= i < |last| - 1 ensures last[i + 1].price > last[i].price + tolerance {
          assert swings[from + i + 1].price > swings[from + i + 1 - 1].price + tolerance;
        }
      }
      if Sinks(swings, n, tolerance) {
        forall i | 0 <= i < |last| - 1 ensures last[i + 1].price < last[i].price - tolerance {
          assert swings[from + i + 1].price < swings[from + i + 1 - 1].price - tolerance;
        }
      }
    }
  }

  lemma {:induction false} NotBoth(swings: seq<Swing>, n: nat, tolerance: real)
    requires n >= 2 && tolerance >= 0.0 && Rises(swings, n, tolerance)
    ensures !Sinks(swings, n, tolerance)
  {
    var i := |swings| - 1;
    assert swings[i].price > swings[i - 1].price + tolerance;
  }
}
