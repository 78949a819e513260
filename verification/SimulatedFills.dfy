/** What an observation fills: on which candle, at what price, for how much and at what fee. */
module SimulatedFills {
  import opened Wrappers
  import opened DecimalPolicy
  import opened ExecutionModels
  import opened Accounting
  import opened Repository
  import opened Gateway
  import opened Observation
  import opened ObservationBatches
  import opened Protocol

  // ---- one order on one candle -----------------------------------------------------

  /** A market order trades on any candle; a limit order on one that comes down to a buyer's
      limit or up to a seller's. */
  predicate Reaches(intent: OrderIntent, candle: Candle)
    requires IntentOk(intent)
  {
    match intent.kind
    case Market => true
    case Limit => if intent.side.Buy? then Val(candle.low) <= Val(intent.limitPrice.value) else Val(intent.limitPrice.value) <= Val(candle.high)
  }

  /** The fill of an order on a candle: at the close or at the limit, for what was not filled
      yet, with one fee of a thousandth of the notional, at the close of the minute. */
  predicate FilledOn(order: Order, filled: real, candle: Candle, e: ExecutionEvent)
    requires IntentOk(order.intent)
  {
    && Reaches(order.intent, candle)
    && Val(e.price) == (match order.intent.kind case Market => Val(candle.close) case Limit => Val(order.intent.limitPrice.value))
    && filled + Val(e.quantity) == Val(order.intent.quantity)
    && |e.fees| == 1 && 1000.0 * e.fees[0] == Val(e.price) * Val(e.quantity)
    && e.filledAt == candle.timestamp + 60_000_000
    && order.acceptedAt < candle.timestamp
  }

  /** The fill names its order. */
  predicate Names(order: Order, e: ExecutionEvent) {
    && e.orderId == order.orderId && order.externalOrderId == Some(e.externalOrderId)
    && e.symbol == order.intent.symbol && e.side == order.intent.side && e.instrumentReference == order.instrumentReference
  }

  lemma {:induction false} FeeValue(price: Decimal, quantity: Decimal)
    ensures 1000.0 * FeeOf(price, quantity) == Val(price) * Val(quantity)
  {
    hide Multiply, Val;
    MultiplyIsExact(price, quantity);
    MultiplyIsExact(Multiply(price, quantity), Decimal(1, -3));
    Thousandth(Val(price) * Val(quantity));
  }

  lemma {:induction false} Thousandth(x: real)
    ensures 1000.0 * (x * Val(Decimal(1, -3))) == x
  {
    assert Val(Decimal(1, -3)) == 0.001 by {
      assert Scaled(1.0, -3) == Scaled(0.1, -2) == Scaled(0.01, -1) == Scaled(0.001, 0);
    }
  }

  /** The proposal of a turn: there is one exactly if the order is reached with something left. */
  lemma {:induction false} ProposalIs(m: Market, account: Account, order: Order, candle: Candle)
    requires IntentOk(order.intent) && order.externalOrderId.Some? && order.acceptedAt < candle.timestamp
    ensures var p := ProposeFill(m, account, order, candle);
      && (p.Some? <==> Reaches(order.intent, candle) && Val(order.filledQuantity) < Val(order.intent.quantity))
      && (p.Some? ==> FilledOn(order, Val(order.filledQuantity), candle, p.value) && Names(order, p.value))
  {
    hide Val, Subtract, FeeOf;
    SubtractIsExact(order.intent.quantity, order.filledQuantity);
    var p := ProposeFill(m, account, order, candle);
    if p.Some? {
      FeeValue(p.value.price, p.value.quantity);
    }
  }

  /** Economic content fixes what a fill is on. */
  lemma {:induction false} SameContent(order: Order, filled: real, candle: Candle, e: ExecutionEvent, p: ExecutionEvent)
    requires IntentOk(order.intent) && Economic(e) == Economic(p)
    ensures FilledOn(order, filled, candle, e) == FilledOn(order, filled, candle, p) && Names(order, e) == Names(order, p)
  {
    hide Val, Normalize, IntentOk, Reaches;
    StoredValues(e);
    StoredValues(p);
    assert Stored(e).price == Economic(e).price && Stored(p).price == Economic(p).price;
    assert Stored(e).quantity == Economic(e).quantity && Stored(p).quantity == Economic(p).quantity;
    assert e.orderId == Economic(e).orderId && e.fees == Economic(e).fees && e.filledAt == Economic(e).filledAt;
    assert e.symbol == Economic(e).symbol && e.side == Economic(e).side && e.instrumentReference == Economic(e).instrumentReference
        && e.externalOrderId == Economic(e).externalOrderId;
  }

  /** What the ledger and the report gained is the reported fill, unless it was stored before. */
  ghost predicate Reports(b: Books, next: Books, e: ExecutionEvent) {
    && next.fills == b.fills + [e]
    && (next.ledger.fills == b.ledger.fills + [Stored(e)] || (next.ledger.fills == b.ledger.fills && e in b.ledger.fills))
  }

  /** The order was rejected, with no fill. */
  ghost predicate Refused(b: Books, next: Books, id: Id) {
    && next.fills == b.fills && next.ledger.fills == b.ledger.fills && id in next.ledger.orders
    && var o := next.ledger.orders[id].order;
       o.submissionStatus.Rejected? && o.rejectionReason.Some? && o.rejectionReason.value.FillRefused?
       && o.rejectionReason.value.fault in {InsufficientBalance, StaleReduction, StaleOpening, OverClose}
  }

  lemma {:induction false} SettledIs(m: Market, b: Books, id: Id, event: ExecutionEvent)
    requires id in b.ledger.orders && event.orderId == id && Settled(m, b, id, event).Ok?
    ensures var next := Settled(m, b, id, event).value;
      || Refused(b, next, id)
      || (|next.fills| > |b.fills| && Economic(next.fills[|b.fills|]) == Economic(event) && Reports(b, next, next.fills[|b.fills|]))
  {
    hide ApplyFill, MatchesOrder, StaleIntent, Economic, Stored;
  }

  /** One turn: a fill or a rejection exactly if the order is reached with something left, and
      nothing else but the mark of the evaluation otherwise. */
  lemma {:induction false} TurnFills(m: Market, b: Books, id: Id, candle: Candle)
    requires Ready(b, id) && ObserveOrder(m, b, id, candle).Ok? && !Seen(b.ledger.orders[id].order, candle.timestamp)
    ensures var o, next := b.ledger.orders[id].order, ObserveOrder(m, b, id, candle).value;
      if Reaches(o.intent, candle) && Val(o.filledQuantity) < Val(o.intent.quantity) then
        || Refused(b, next, id)
        || exists e :: Reports(b, next, e) && FilledOn(o, Val(o.filledQuantity), candle, e) && Names(o, e)
      else
        next.fills == b.fills && next.ledger == PutOrder(b.ledger, id, o.(lastObservationAt := Some(candle.timestamp)))
  {
    hide Settled, ProposeFill, Reaches, FilledOn, Names, Val, Expected, IntentOk, Economic, Stored;
    var o, next := b.ledger.orders[id].order, ObserveOrder(m, b, id, candle).value;
    ProposalIs(m, b.ledger.account, o, candle);
    var p := ProposeFill(m, b.ledger.account, o, candle);
    if p.Some? {
      ProposalNames(m, b.ledger.account, o, candle);
      SettledIs(m, b, id, p.value);
      SettledOthers(m, b, id, p.value);
      var mid := Settled(m, b, id, p.value).value;
      if Refused(b, mid, id) {
        assert Refused(b, next, id);
      } else {
        var e := mid.fills[|b.fills|];
        SameContent(o, Val(o.filledQuantity), candle, e, p.value);
        assert Reports(b, next, e);
      }
    }
  }

  // ---- a whole observation ---------------------------------------------------------

  /** A stored fill names its order, and fills on one of the candles what its earlier fills left. */
  ghost predicate Simulated(candles: seq<Candle>, l: Ledger, k: nat)
    requires k < |l.fills|
  {
    var e := l.fills[k];
    && e.orderId in l.orders
    && var o := l.orders[e.orderId].order;
       && IntentOk(o.intent) && !o.submissionStatus.Unknown? && Names(o, e)
       && exists candle :: candle in candles && FilledOn(o, FilledBy(l.fills[..k], e.orderId), candle, e)
  }

  /** What providers have answered about an order is the same. */
  predicate SameAnswer(o: Order, o': Order) {
    o'.externalOrderId == o.externalOrderId && o'.cancelledAt == o.cancelledAt && o'.cancellationStatus == o.cancellationStatus
  }

  predicate SameAnswers(orders: map<Id, OrderRow>, orders': map<Id, OrderRow>) {
    orders'.Keys == orders.Keys && forall id :: id in orders ==> SameAnswer(orders[id].order, orders'[id].order)
  }

  /** The books only grew, by fills made on the candles and reported. */
  ghost predicate Grown(candles: seq<Candle>, b: Books, b': Books) {
    && SameAnswers(b.ledger.orders, b'.ledger.orders)
    && Evolves(b.ledger.orders, b'.ledger.orders) && b.ledger.fills <= b'.ledger.fills && b.fills <= b'.fills
    && (forall k: nat :: |b.ledger.fills| <= k < |b'.ledger.fills| ==> Simulated(candles, b'.ledger, k))
    && (forall k: nat :: |b.ledger.fills| <= k < |b'.ledger.fills| ==> Reported(b, b', b'.ledger.fills[k]))
    && (forall j: nat :: |b.fills| <= j < |b'.fills| ==> Stored(b'.fills[j]) in b'.ledger.fills)
  }

  ghost predicate Reported(b: Books, b': Books, e: ExecutionEvent)
    requires b.fills <= b'.fills
  {
    exists j: nat :: |b.fills| <= j < |b'.fills| && Stored(b'.fills[j]) == e
  }

  lemma {:induction false} StoredNames(o: Order, filled: real, candle: Candle, e: ExecutionEvent)
    requires IntentOk(o.intent)
    ensures FilledOn(o, filled, candle, Stored(e)) == FilledOn(o, filled, candle, e) && Names(o, Stored(e)) == Names(o, e)
  {
    hide Val, Normalize, Stored;
    StoredValues(e);
    SameContent(o, filled, candle, Stored(e), e);
  }

  /** The fills of an order are on its intent, whatever became of it since. */
  lemma {:induction false} LaterRow(candles: seq<Candle>, all: seq<Candle>, l: Ledger, l': Ledger, k: nat)
    requires k < |l.fills| && Simulated(candles, l, k) && l.fills <= l'.fills && Evolves(l.orders, l'.orders)
    requires forall candle :: candle in candles ==> candle in all
    ensures Simulated(all, l', k)
  {
    hide Val, IntentOk, Reaches, FilledBy;
    var e := l.fills[k];
    var o, o' := l.orders[e.orderId].order, l'.orders[e.orderId].order;
    assert RowEvolves(l.orders[e.orderId], l'.orders[e.orderId]);
    assert l.fills[..k] == l'.fills[..k];
    var candle :| candle in candles && FilledOn(o, FilledBy(l.fills[..k], e.orderId), candle, e);
    assert FilledOn(o', FilledBy(l'.fills[..k], e.orderId), candle, e);
  }

  lemma {:induction false} GrownOn(candles: seq<Candle>, candles': seq<Candle>, all: seq<Candle>, a: Books, b: Books, c: Books)
    requires Grown(candles, a, b) && Grown(candles', b, c)
    requires forall candle :: candle in candles || candle in candles' ==> candle in all
    ensures Grown(all, a, c)
  {
    hide RowEvolves, Simulated, Stored;
    EvolvesTransitive(a.ledger.orders, b.ledger.orders, c.ledger.orders);
    SameEvolves(c.ledger.orders);
    forall k: nat | |a.ledger.fills| <= k < |c.ledger.fills|
      ensures Simulated(all, c.ledger, k) && Reported(a, c, c.ledger.fills[k])
    {
      if k < |b.ledger.fills| {
        LaterRow(candles, all, b.ledger, c.ledger, k);
        var j: nat :| |a.fills| <= j < |b.fills| && Stored(b.fills[j]) == b.ledger.fills[k];
        assert Stored(c.fills[j]) == c.ledger.fills[k];
      } else {
        LaterRow(candles', all, c.ledger, c.ledger, k);
      }
    }
    forall j: nat | |a.fills| <= j < |c.fills| ensures Stored(c.fills[j]) in c.ledger.fills {
      if j < |b.fills| {
        assert Stored(b.fills[j]) in b.ledger.fills;
      }
    }
  }

  lemma {:induction false} GrownSame(candles: seq<Candle>, b: Books)
    ensures Grown(candles, b, b)
  {
    hide RowEvolves, Simulated, Stored;
    SameEvolves(b.ledger.orders);
  }

  lemma {:induction false} FillGrows(b: Books, next: Books, id: Id, candle: Candle, e: ExecutionEvent)
    requires Ready(b, id) && FillIdentities(b.ledger.fills) && Reports(b, next, e)
    requires Evolves(b.ledger.orders, next.ledger.orders) && SameAnswers(b.ledger.orders, next.ledger.orders)
    requires var o := b.ledger.orders[id].order; FilledOn(o, FilledBy(b.ledger.fills, id), candle, e) && Names(o, e)
    ensures Grown([candle], b, next)
  {
    hide Val, IntentOk, Reaches, FilledBy, Stored;
    var o, o' := b.ledger.orders[id].order, next.ledger.orders[id].order;
    assert RowEvolves(b.ledger.orders[id], next.ledger.orders[id]);
    assert Stored(next.fills[|b.fills|]) == Stored(e);
    if next.ledger.fills == b.ledger.fills {
      assert Stored(e) == e;
    } else {
      var k := |b.ledger.fills|;
      assert next.ledger.fills[..k] == b.ledger.fills && next.ledger.fills[k] == Stored(e);
      StoredNames(o, FilledBy(b.ledger.fills, id), candle, e);
      assert candle in [candle] && FilledOn(o', FilledBy(next.ledger.fills[..k], id), candle, next.ledger.fills[k]);
      assert Stored(e).orderId == id by { assert Names(o, Stored(e)); }
      assert Simulated([candle], next.ledger, k);
    }
  }

  lemma {:induction false} TurnAnswers(m: Market, b: Books, id: Id, candle: Candle)
    requires Ready(b, id) && ObserveOrder(m, b, id, candle).Ok?
    ensures SameAnswer(b.ledger.orders[id].order, ObserveOrder(m, b, id, candle).value.ledger.orders[id].order)
  {
    hide Settled, ProposeFill, Val, Expected, IntentOk, Seen;
    var o := b.ledger.orders[id].order;
    if !Seen(o, candle.timestamp) {
      var p := ProposeFill(m, b.ledger.account, o, candle);
      if p.Some? {
        ProposalNames(m, b.ledger.account, o, candle);
        SettledOthers(m, b, id, p.value);
        SettledAnswers(m, b, id, p.value);
      }
    }
  }

  lemma {:induction false} SettledAnswers(m: Market, b: Books, id: Id, event: ExecutionEvent)
    requires id in b.ledger.orders && event.orderId == id && Settled(m, b, id, event).Ok?
    ensures id in Settled(m, b, id, event).value.ledger.orders
    ensures SameAnswer(b.ledger.orders[id].order, Settled(m, b, id, event).value.ledger.orders[id].order)
  {
    hide ApplyFill, MatchesOrder, StaleIntent, Economic, Stored, Val, Normalize;
  }

  lemma {:induction false} TurnGrows(m: Market, origin: Account, b: Books, id: Id, candle: Candle)
    requires LedgerInv(m.divide, origin, b.ledger) && Ready(b, id) && ObserveOrder(m, b, id, candle).Ok?
    ensures Grown([candle], b, ObserveOrder(m, b, id, candle).value)
  {
    hide ObserveOrder, Val, Seen, IntentOk, Reaches, ProjectsFills, FilledBy, RowEvolves, Stored, Names, FilledOn;
    var o, next := b.ledger.orders[id].order, ObserveOrder(m, b, id, candle).value;
    ObserveOrderEvolves(m, b, id, candle);
    TurnAnswers(m, b, id, candle);
    if Seen(o, candle.timestamp) {
      SeenIdle(m, b, id, candle);
      GrownSame([candle], b);
    } else {
      TurnFills(m, b, id, candle);
      if e :| Reports(b, next, e) && FilledOn(o, Val(o.filledQuantity), candle, e) && Names(o, e) {
        assert Val(o.filledQuantity) == FilledBy(b.ledger.fills, id);
        FillGrows(b, next, id, candle, e);
      }
    }
  }

  lemma {:induction false} OrdersGrow(m: Market, origin: Account, b: Books, ids: seq<Id>, candle: Candle)
    requires LedgerInv(m.divide, origin, b.ledger) && AllReady(b, ids) && ObserveOrders(m, b, ids, candle).Ok?
    ensures Grown([candle], b, ObserveOrders(m, b, ids, candle).value)
    decreases |ids|
  {
    hide LedgerInv, ObserveOrder, Ready, AllReady, Grown;
    if ids == [] {
      GrownSame([candle], b);
    } else {
      var k := |ids| - 1;
      ReadyPrefix(b, ids, k);
      OrdersStep(m, b, ids, candle, k);
      assert ids[..k + 1] == ids;
      var mid := ObserveOrders(m, b, ids[..k], candle).value;
      OrdersGrow(m, origin, b, ids[..k], candle);
      ObserveOrdersKeeps(m, origin, b, ids[..k], candle);
      TurnGrows(m, origin, mid, ids[k], candle);
      GrownOn([candle], [candle], [candle], b, mid, ObserveOrders(m, b, ids, candle).value);
    }
  }

  lemma {:induction false} MarksGrow(candles: seq<Candle>, b: Books, b': Books, marked: Books)
    requires Grown(candles, b, b') && marked == b'.(marks := marked.marks)
    ensures Grown(candles, b, marked)
  {
    hide Simulated, RowEvolves, Stored;
    forall k: nat | |b.ledger.fills| <= k < |marked.ledger.fills| ensures Reported(b, marked, marked.ledger.fills[k]) {
      assert Reported(b, b', b'.ledger.fills[k]);
    }
  }

  /** Every fill of an observation is made on one of its candles: at the close, or at the limit
      if the candle reached it, for the whole remainder, at a fee of a thousandth of the notional;
      and the fills reported are those stored. */
  lemma {:induction false} CandlesFill(m: Market, origin: Account, b: Books, hot: seq<Id>, candles: seq<Candle>)
    requires LedgerInv(m.divide, origin, b.ledger) && AllReady(b, hot) && ObserveCandles(m, b, hot, candles).Ok?
    ensures Grown(candles, b, ObserveCandles(m, b, hot, candles).value.0)
    decreases |candles|
  {
    hide LedgerInv, ObserveOrders, AllReady, Alive, CanonicalCandle, Grown, Evolves;
    if candles == [] {
      GrownSame([], b);
    } else {
      var init, last := candles[..|candles| - 1], candles[|candles| - 1];
      CandlesFill(m, origin, b, hot, init);
      var (next, rest) := ObserveCandles(m, b, hot, init).value;
      ObserveCandlesKeeps(m, origin, b, hot, init);
      OrdersGrow(m, origin, next, rest, last);
      var seen := ObserveOrders(m, next, rest, last).value;
      GrownOn(init, [last], candles, b, next, seen);
      MarksGrow(candles, b, seen, ObserveCandles(m, b, hot, candles).value.0);
    }
  }
}
