/** When an observation is refused as a whole, leaving nothing behind. */
module ObservationRefusals {
  import opened Wrappers
  import opened DecimalPolicy
  import opened ExecutionModels
  import opened Timeframes
  import opened Accounting
  import opened Repository
  import opened Observation
  import opened ObservationBatches
  import opened ObservationRuns

  /** The turn of an order that aborts: a minute was missed, or its proposal is refused for a
      reason that does not reject the order. */
  ghost predicate TurnAborts(m: Market, b: Books, id: Id, candle: Candle)
    requires Ready(b, id)
  {
    var order := b.ledger.orders[id].order;
    && !Seen(order, candle.timestamp)
    && (candle.timestamp != Expected(order)
        || var proposal := ProposeFill(m, b.ledger.account, order, candle);
           proposal.Some? && AdmissionAborts(m, b.ledger, proposal.value))
  }

  predicate AdmissionAborts(m: Market, l: Ledger, event: ExecutionEvent) {
    var r := Admit(m.divide, l, event, m.profile, true);
    r.Err? && !Soft(r.error)
  }

  /** The turn of the i-th order aborts, after those before it went through. */
  ghost predicate AbortsAt(m: Market, b: Books, ids: seq<Id>, candle: Candle, i: nat) {
    && i < |ids| && AllReady(b, ids[..i]) && ObserveOrders(m, b, ids[..i], candle).Ok?
    && var before := ObserveOrders(m, b, ids[..i], candle).value;
       Ready(before, ids[i]) && TurnAborts(m, before, ids[i], candle)
  }

  lemma {:induction false} TurnRefused(m: Market, b: Books, id: Id, candle: Candle)
    requires Ready(b, id)
    ensures ObserveOrder(m, b, id, candle).Err? <==> TurnAborts(m, b, id, candle)
  {
    hide ProposeFill, Admit, Seen, Expected, Soft;
  }

  lemma {:induction false} OrdersRefused(m: Market, b: Books, ids: seq<Id>, candle: Candle)
    requires AllReady(b, ids)
    ensures ObserveOrders(m, b, ids, candle).Err? <==> exists i: nat :: AbortsAt(m, b, ids, candle, i)
    decreases |ids|
  {
    hide ObserveOrder, AllReady, Ready, TurnAborts;
    if ids != [] {
      var n := |ids| - 1;
      OrdersStep(m, b, ids, candle, n);
      assert ids[..n + 1] == ids;
      OrdersRefused(m, b, ids[..n], candle);
      var before := ObserveOrders(m, b, ids[..n], candle);
      if before.Ok? {
        TurnRefused(m, before.value, ids[n], candle);
        if TurnAborts(m, before.value, ids[n], candle) {
          assert AbortsAt(m, b, ids, candle, n);
        }
      } else {
        var i: nat :| AbortsAt(m, b, ids[..n], candle, i);
        assert ids[..n][..i] == ids[..i];
        assert AbortsAt(m, b, ids, candle, i);
      }
      forall i: nat | AbortsAt(m, b, ids, candle, i) && i < n ensures AbortsAt(m, b, ids[..n], candle, i) {
        assert ids[..n][..i] == ids[..i];
      }
    }
  }

  /** The candle was valued before, from another source or with other content. */
  predicate MarkDiffers(m: Market, marks: map<Time, Mark>, candle: Candle) {
    var at := candle.timestamp + MINUTE;
    at in marks && (marks[at].candle != CanonicalCandle(candle) || marks[at].source != m.source || marks[at].price != Val(candle.close))
  }

  /** A candle aborts: on the turn of an order, or on its own valuation. */
  ghost predicate StepAborts(m: Market, b: Books, ids: seq<Id>, candle: Candle)
    requires AllReady(b, ids)
  {
    || (exists i: nat :: AbortsAt(m, b, ids, candle, i))
    || (ObserveOrders(m, b, ids, candle).Ok? && MarkDiffers(m, ObserveOrders(m, b, ids, candle).value.marks, candle))
  }

  lemma {:induction false} StepRefused(m: Market, b: Books, ids: seq<Id>, candle: Candle)
    requires AllReady(b, ids)
    ensures ObserveCandle(m, b, ids, candle).Err? <==> StepAborts(m, b, ids, candle)
  {
    hide ObserveOrders, AllReady, AbortsAt, CanonicalCandle, Alive, Val;
    OrdersRefused(m, b, ids, candle);
  }

  /** The k-th candle aborts, after those before it went through. */
  ghost predicate CandleAborts(m: Market, b: Books, hot: seq<Id>, candles: seq<Candle>, k: nat)
    requires AllReady(b, hot)
  {
    && k < |candles| && ObserveCandles(m, b, hot, candles[..k]).Ok?
    && var (before, open) := ObserveCandles(m, b, hot, candles[..k]).value;
       StepAborts(m, before, open, candles[k])
  }

  lemma {:induction false} CandlesRefused(m: Market, b: Books, hot: seq<Id>, candles: seq<Candle>)
    requires AllReady(b, hot)
    ensures ObserveCandles(m, b, hot, candles).Err? <==> exists k: nat :: CandleAborts(m, b, hot, candles, k)
    decreases |candles|
  {
    hide ObserveCandle, AllReady, StepAborts;
    if candles != [] {
      var n := |candles| - 1;
      CandlesRefused(m, b, hot, candles[..n]);
      var earlier := ObserveCandles(m, b, hot, candles[..n]);
      if earlier.Ok? {
        StepRefused(m, earlier.value.0, earlier.value.1, candles[n]);
        assert ObserveCandle(m, earlier.value.0, earlier.value.1, candles[n]).Err? <==> CandleAborts(m, b, hot, candles, n);
      } else {
        var k: nat :| CandleAborts(m, b, hot, candles[..n], k);
        assert candles[..n][..k] == candles[..k];
        assert CandleAborts(m, b, hot, candles, k);
      }
      forall k: nat | CandleAborts(m, b, hot, candles, k) && k < n ensures CandleAborts(m, b, hot, candles[..n], k) {
        assert candles[..n][..k] == candles[..k];
      }
    }
  }

  /** An observation is refused as a whole exactly when its candles are not the current minutes,
      the account is closed, or the turn of some order or the valuation of some candle aborts. */
  lemma {:induction false} ObservationRefused(m: Market, b: Books, hot: seq<Id>)
    requires AllReady(b, hot)
    ensures ObserveAccount(m, b, hot).Err?
      <==> !Fresh(m) || !b.ledger.active || exists k: nat :: CandleAborts(m, b, hot, m.candles, k)
  {
    hide ObserveCandles, AllReady, Fresh, CandleAborts;
    CandlesRefused(m, b, hot, m.candles);
  }

  // ---- what can be checked beforehand ------------------------------------------------

  lemma {:induction false} MarkKept(m: Market, b: Books, candle: Candle, at: Time)
    requires at in b.marks && Marked(m, b, candle).Ok?
    ensures at in Marked(m, b, candle).value.marks && Marked(m, b, candle).value.marks[at] == b.marks[at]
  {
    hide CanonicalCandle, Val;
  }

  lemma {:induction false} MarksKept(m: Market, b: Books, hot: seq<Id>, candles: seq<Candle>, at: Time)
    requires AllReady(b, hot) && at in b.marks && ObserveCandles(m, b, hot, candles).Ok?
    ensures var next := ObserveCandles(m, b, hot, candles).value.0; at in next.marks && next.marks[at] == b.marks[at]
    decreases |candles|
  {
    hide ObserveOrders, AllReady, Marked, Alive;
    if candles != [] {
      var n := |candles| - 1;
      MarksKept(m, b, hot, candles[..n], at);
      var (before, rest) := ObserveCandles(m, b, hot, candles[..n]).value;
      OrdersKeepMarks(m, before, rest, candles[n]);
      MarkKept(m, ObserveOrders(m, before, rest, candles[n]).value, candles[n], at);
    }
  }

  /** A candle that the books already value otherwise refuses the whole observation, wherever it
      stands in it and whatever the orders do. */
  lemma {:induction false} RevaluationRefused(m: Market, b: Books, hot: seq<Id>, k: nat)
    requires AllReady(b, hot) && k < |m.candles| && MarkDiffers(m, b.marks, m.candles[k])
    ensures ObserveAccount(m, b, hot).Err?
  {
    hide ObserveCandles, AllReady, Fresh, CanonicalCandle, Val;
    if ObserveCandles(m, b, hot, m.candles).Ok? {
      MarksKept(m, b, hot, m.candles, m.candles[k].timestamp + MINUTE);
      CandlesMarked(m, b, hot, m.candles);
    }
  }

  /** The minute after the last one an order was evaluated on is missing. */
  predicate MissesMinute(order: Order, candle: Candle) {
    !Seen(order, candle.timestamp) && candle.timestamp != Expected(order)
  }

  lemma {:induction false} GapRefuses(m: Market, b: Books, ids: seq<Id>, candle: Candle, i: nat)
    requires AllReady(b, ids) && i < |ids| && ids[i] in b.ledger.orders && MissesMinute(b.ledger.orders[ids[i]].order, candle)
    ensures ObserveOrders(m, b, ids, candle).Err?
  {
    hide ObserveOrder, ObserveOrders, AllReady, Ready, MissesMinute;
    OrdersStep(m, b, ids, candle, i);
    if ObserveOrders(m, b, ids[..i], candle).Ok? {
      TurnGap(m, ObserveOrders(m, b, ids[..i], candle).value, ids[i], candle);
      OrdersFailure(m, b, ids, candle, i + 1);
    } else {
      OrdersFailure(m, b, ids, candle, i);
    }
  }

  lemma {:induction false} TurnGap(m: Market, b: Books, id: Id, candle: Candle)
    requires Ready(b, id) && MissesMinute(b.ledger.orders[id].order, candle)
    ensures ObserveOrder(m, b, id, candle).Err?
  {
    hide ProposeFill, Admit, Seen, Expected;
  }

  /** One hot order that the first candle finds neither evaluated nor due refuses the whole
      observation, for every other order too. */
  lemma {:induction false} MissedMinuteRefused(m: Market, b: Books, hot: seq<Id>, i: nat)
    requires AllReady(b, hot) && i < |hot| && hot[i] in b.ledger.orders
    requires m.candles != [] && MissesMinute(b.ledger.orders[hot[i]].order, m.candles[0])
    ensures ObserveAccount(m, b, hot).Err?
  {
    hide ObserveOrders, AllReady, Fresh, MissesMinute, Alive, Marked;
    assert m.candles[..0] == [];
    CandlesStep(m, b, hot, m.candles, 0, b, hot);
    GapRefuses(m, b, hot, m.candles[0], i);
    CandlesFailure(m, b, hot, m.candles, 1);
  }

  /** The account without the times of what it was told before. */
  function Forgetful(l: Ledger): Ledger {
    l.(account := l.account.(updatedAt := None, lastFilledAt := None))
  }

  /** A new proposal that is admissible but for the times of earlier fills aborts exactly when the
      clock went back or its minute ended before a fill already admitted, on whatever symbol: the
      whole observation is then refused. */
  lemma {:induction false} LateMinuteAborts(m: Market, l: Ledger, event: ExecutionEvent)
    requires FillIndex(l.fills, event.externalFillId) == |l.fills|
    requires Admit(m.divide, Forgetful(l), event, m.profile, true).Ok?
    ensures AdmissionAborts(m, l, event)
      <==> (l.account.updatedAt.Some? && event.receivedAt < l.account.updatedAt.value)
           || (l.account.lastFilledAt.Some? && event.filledAt < l.account.lastFilledAt.value)
    ensures AdmissionAborts(m, l, event) ==> Admit(m.divide, l, event, m.profile, true).error in {UnorderedAdmission, UnorderedFill}
  {
    hide MatchesOrder, ValidateUnits, Economic, Stored, Filled, FillIndex, HasEvent, ValidEvent, Move, Book, SchemaValid, OpenPosition;
    if l.active && event.orderId in l.orders {
      var row := l.orders[event.orderId];
      MoveForgets(m.divide, l.account, Forgetful(l).account, event, row.profile, row.order.intent.planReference);
    }
  }

  /** Booking a fill does not look at the times of earlier ones. */
  lemma {:induction false} MoveForgets(divide: (real, real) -> real, s: Account, s': Account, event: ExecutionEvent,
                                       profile: InstrumentProfile, plan: Option<Id>)
    requires s' == s.(updatedAt := None, lastFilledAt := None)
    ensures SchemaValid(s') == SchemaValid(s) && Move(divide, s', event, profile, plan) == Move(divide, s, event, profile, plan)
    ensures Move(divide, s, event, profile, plan).Ok? ==>
      Book(s', event, Move(divide, s, event, profile, plan).value) == Book(s, event, Move(divide, s, event, profile, plan).value)
  {
    hide Notional, TotalFee, PositionIndex, TradeIndex, ReservedCollateral, ReleasedBasis, PutPosition, ReplaceTrade;
    assert AvailableBalance(s') == AvailableBalance(s);
    var i := PositionIndex(s.positions, event.symbol);
    assert Increase(s', event, profile, plan) == Increase(s, event, profile, plan);
    if i < |s.positions| {
      assert Reduce(divide, s', i, event) == Reduce(divide, s, i, event);
    }
  }
}
