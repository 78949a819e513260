/** Closed-candle observation: the PAPER simulator proposes fills for open orders minute by
    minute, and the gateway admits or rejects them in one transaction. */
module Observation {
  import opened Wrappers
  import opened DecimalPolicy
  import opened ExecutionModels
  import opened Timeframes
  import opened Sorting
  import opened Accounting
  import opened Repository
  import opened Gateway

  datatype Candle = Candle(timestamp: Time, open: Decimal, high: Decimal, low: Decimal, close: Decimal, volume: Decimal)

  /** A stored valuation: its price, and the candle and source it was observed from. */
  datatype Mark = Mark(price: real, receivedAt: Time, candle: Candle, source: Id)

  /** The books of the account, its marks for the observed symbol, and the reports of the run:
      the fills made and every evaluation of an order on a candle. */
  datatype Books = Books(ledger: Ledger, marks: map<Time, Mark>, fills: seq<ExecutionEvent>, evaluations: seq<(Id, Time)>)

  /** One observation request. Event identifiers are drawn per order and candle. */
  datatype Market = Market(symbol: Id, profile: InstrumentProfile, source: Id, now: Time, candles: seq<Candle>,
                           uuid: (Id, Time) -> Id, divide: (real, real) -> real)

  // ---- the simulator ---------------------------------------------------------------

  /** What every stored order satisfies, so that the simulator's assertions never fire. */
  ghost predicate OrderOk(id: Id, row: OrderRow) {
    && row.order.orderId == id
    && IntentOk(row.order.intent)
    && row.profile.symbol == row.order.intent.symbol && row.profile.reference == row.order.instrumentReference
    && (row.order.submissionStatus.Acknowledged? ==> row.order.externalOrderId.Some?)
  }

  ghost predicate OrdersOk(orders: map<Id, OrderRow>) {
    forall id :: id in orders ==> OrderOk(id, orders[id])
  }

  function FeeOf(price: Decimal, quantity: Decimal): real {
    Val(Multiply(Multiply(price, quantity), Decimal(1, -3)))
  }

  /** The price an order trades at on a candle: its limit if the candle reached it, or the
      close for a market order. */
  function PriceOn(intent: OrderIntent, candle: Candle): Option<Decimal>
    requires IntentOk(intent)
  {
    if intent.kind.Market? then Some(candle.close)
    else
      var limit := intent.limitPrice.value;
      if (intent.side.Buy? && Val(candle.low) > Val(limit)) || (intent.side.Sell? && Val(candle.high) < Val(limit)) then None
      else Some(limit)
  }

  /** `propose_fill`: the whole remaining quantity, or nothing. */
  function ProposeFill(m: Market, account: Account, order: Order, candle: Candle): Option<ExecutionEvent>
    requires IntentOk(order.intent) && order.externalOrderId.Some?
  {
    var price := PriceOn(order.intent, candle);
    var quantity := Subtract(order.intent.quantity, order.filledQuantity);
    if candle.timestamp <= order.acceptedAt || price.None? || Val(quantity) <= 0.0 then None
    else
      Some(ExecutionEvent(
             m.uuid(order.orderId, candle.timestamp), account.executionSource, account.accountId,
             order.orderId, order.externalOrderId.value, order.orderId + "/complete",
             order.intent.symbol, order.instrumentReference, order.intent.side,
             price.value, quantity, [FeeOf(price.value, quantity)],
             candle.timestamp + MINUTE, m.now, account.lastSequence + 1))
  }

  // ---- one order on one candle -----------------------------------------------------

  predicate Seen(order: Order, t: Time) {
    t <= order.acceptedAt || (order.lastObservationAt.Some? && t <= order.lastObservationAt.value)
  }

  /** The only candle an order may be evaluated on next. */
  function Expected(order: Order): Time {
    if order.lastObservationAt.Some? then order.lastObservationAt.value + MINUTE
    else BucketStart(order.acceptedAt, OneMinute) + MINUTE
  }

  /** Refusals that reject the order; any other refusal aborts the observation. */
  predicate Soft(fault: Fault) {
    fault.InsufficientBalance? || fault.StaleReduction? || fault.StaleOpening? || fault.OverClose?
  }

  predicate Terminal(order: Order) {
    !order.submissionStatus.Acknowledged? || Val(order.filledQuantity) == Val(order.intent.quantity)
  }

  /** An order the observation loads: acknowledged, not cancelled, not filled. */
  predicate Hot(order: Order, symbol: Id) {
    order.intent.symbol == symbol && order.submissionStatus.Acknowledged? && order.cancelledAt.None?
    && Val(order.filledQuantity) != Val(order.intent.quantity)
  }

  /** The outcome of a proposal for an order: a fill, a rejection of the order, or an abort. */
  function Settled(m: Market, b: Books, id: Id, event: ExecutionEvent): Result<Books, Fault>
    requires id in b.ledger.orders
  {
    var r := Admit(m.divide, b.ledger, event, m.profile, true);
    if r.Ok? then Ok(b.(ledger := r.value.1, fills := b.fills + [r.value.0]))
    else if !Soft(r.error) then Err(r.error)
    else
      var order := b.ledger.orders[id].order.(submissionStatus := Rejected, rejectionReason := Some(FillRefused(r.error)));
      Ok(b.(ledger := PutOrder(b.ledger, id, order)))
  }

  function Evaluated(b: Books, id: Id, t: Time): Books
    requires id in b.ledger.orders
  {
    var order := b.ledger.orders[id].order;
    b.(ledger := PutOrder(b.ledger, id, order.(lastObservationAt := Some(t))), evaluations := b.evaluations + [(id, t)])
  }

  /** An order that may be evaluated. */
  ghost predicate Ready(b: Books, id: Id) {
    && id in b.ledger.orders && OrderOk(id, b.ledger.orders[id])
    && b.ledger.orders[id].order.submissionStatus.Acknowledged?
  }

  /** Only the rows of the listed orders changed. */
  ghost predicate OthersSame(b: Books, b': Books, ids: seq<Id>) {
    && b.ledger.orders.Keys == b'.ledger.orders.Keys
    && forall id :: id in b.ledger.orders && id !in ids ==> b'.ledger.orders[id] == b.ledger.orders[id]
  }

  lemma {:induction false} SettledOthers(m: Market, b: Books, id: Id, event: ExecutionEvent)
    requires id in b.ledger.orders && event.orderId == id && Settled(m, b, id, event).Ok?
    ensures OthersSame(b, Settled(m, b, id, event).value, [id])
  {
    hide ApplyFill, MatchesOrder, StaleIntent, Economic, Stored;
  }

  /** One order on one candle, every row written through at once. */
  function ObserveOrder(m: Market, b: Books, id: Id, candle: Candle): (r: Result<Books, Fault>)
    requires Ready(b, id)
    ensures r.Ok? ==> OthersSame(b, r.value, [id])
  {
    var order := b.ledger.orders[id].order;
    if Seen(order, candle.timestamp) then Ok(b)
    else if candle.timestamp != Expected(order) then Err(ObservationGap)
    else
      var proposal := ProposeFill(m, b.ledger.account, order, candle);
      if proposal.None? then Ok(Evaluated(b, id, candle.timestamp))
      else
        var next :- Settled(m, b, id, proposal.value);
        SettledOthers(m, b, id, proposal.value);
        Ok(Evaluated(next, id, candle.timestamp))
  }

  ghost predicate Distinct(ids: seq<Id>) {
    forall i, j :: 0 <= i < j < |ids| ==> ids[i] != ids[j]
  }

  ghost predicate AllReady(b: Books, ids: seq<Id>) {
    Distinct(ids) && forall i :: 0 <= i < |ids| ==> Ready(b, ids[i])
  }

  /** The open orders on one candle, in the order they were accepted. */
  function ObserveOrders(m: Market, b: Books, ids: seq<Id>, candle: Candle): (r: Result<Books, Fault>)
    requires AllReady(b, ids)
    ensures r.Ok? ==> OthersSame(b, r.value, ids)
  {
    if ids == [] then Ok(b)
    else
      var init, last := ids[..|ids| - 1], ids[|ids| - 1];
      var next :- ObserveOrders(m, b, init, candle);
      assert last !in init;
      ObserveOrder(m, next, last, candle)
  }

  // ---- marks -----------------------------------------------------------------------

  function CanonicalCandle(candle: Candle): Candle {
    Candle(candle.timestamp, Normalize(candle.open), Normalize(candle.high), Normalize(candle.low),
           Normalize(candle.close), Normalize(candle.volume))
  }

  /** A candle values the symbol once; observed again it must be the same candle. */
  function Marked(m: Market, b: Books, candle: Candle): Result<Books, Fault> {
    var at := candle.timestamp + MINUTE;
    if at !in b.marks then
      Ok(b.(marks := b.marks[at := Mark(Val(candle.close), m.now, CanonicalCandle(candle), m.source)]))
    else if b.marks[at].candle != CanonicalCandle(candle) || b.marks[at].source != m.source
            || b.marks[at].price != Val(candle.close) then Err(MarkConflict)
    else Ok(b)
  }

  // ---- the observation -------------------------------------------------------------

  function Alive(orders: map<Id, OrderRow>): Id -> bool {
    (id: Id) => id in orders && !Terminal(orders[id].order)
  }

  function ObserveCandle(m: Market, b: Books, hot: seq<Id>, candle: Candle): (r: Result<(Books, seq<Id>), Fault>)
    requires AllReady(b, hot)
  {
    var next :- ObserveOrders(m, b, hot, candle);
    var marked :- Marked(m, next, candle);
    Ok((marked, Filter(Alive(next.ledger.orders), hot)))
  }

  lemma {:induction false} SettledEvolves(m: Market, b: Books, id: Id, event: ExecutionEvent)
    requires Ready(b, id) && event.orderId == id && Settled(m, b, id, event).Ok?
    ensures var next := Settled(m, b, id, event).value;
      id in next.ledger.orders && RowEvolves(b.ledger.orders[id], next.ledger.orders[id])
      && next.ledger.orders[id].order.lastObservationAt == b.ledger.orders[id].order.lastObservationAt
  {
    hide ApplyFill, MatchesOrder, StaleIntent, Economic, Stored, Val, Filled;
    if Admit(m.divide, b.ledger, event, m.profile, true).Ok? {
      QuantityPositive(event);
      FilledEvolves(b.ledger.orders[id], event);
      FilledObservation(b.ledger.orders[id], event);
    }
  }

  lemma {:induction false} QuantityPositive(event: ExecutionEvent)
    ensures ValidEvent(event) ==> Val(event.quantity) > 0.0
  {
  }

  lemma {:induction false} FilledObservation(row: OrderRow, event: ExecutionEvent)
    ensures Filled(row, event).order.lastObservationAt == row.order.lastObservationAt
  {
    hide Normalize, Add;
  }

  lemma {:induction false} ObserveOrderEvolves(m: Market, b: Books, id: Id, candle: Candle)
    requires Ready(b, id) && ObserveOrder(m, b, id, candle).Ok?
    ensures var next := ObserveOrder(m, b, id, candle).value;
      && Evolves(b.ledger.orders, next.ledger.orders)
      && OrderOk(id, next.ledger.orders[id])
  {
    hide Settled, Val, IntentOk, ProposeFill, BucketStart;
    var order := b.ledger.orders[id].order;
    var next := ObserveOrder(m, b, id, candle).value;
    if !Seen(order, candle.timestamp) {
      var proposal := ProposeFill(m, b.ledger.account, order, candle);
      if proposal.Some? {
        ProposalNames(m, b.ledger.account, order, candle);
        SettledEvolves(m, b, id, proposal.value);
      }
    }
    forall other | other in b.ledger.orders
      ensures other in next.ledger.orders && RowEvolves(b.ledger.orders[other], next.ledger.orders[other])
    {
      if other != id {
        assert next.ledger.orders[other] == b.ledger.orders[other];
      }
    }
  }

  lemma {:induction false} ProposalNames(m: Market, account: Account, order: Order, candle: Candle)
    requires IntentOk(order.intent) && order.externalOrderId.Some?
    ensures var p := ProposeFill(m, account, order, candle); p.Some? ==> p.value.orderId == order.orderId
  {
  }

  lemma {:induction false} ObserveOrdersEvolves(m: Market, b: Books, ids: seq<Id>, candle: Candle)
    requires AllReady(b, ids) && ObserveOrders(m, b, ids, candle).Ok?
    ensures var next := ObserveOrders(m, b, ids, candle).value;
      && Evolves(b.ledger.orders, next.ledger.orders)
      && forall i :: 0 <= i < |ids| ==> ids[i] in next.ledger.orders && OrderOk(ids[i], next.ledger.orders[ids[i]])
    decreases |ids|
  {
    hide OrderOk, RowEvolves, Val, IntentOk, ObserveOrder;
    if ids == [] {
      SameEvolves(b.ledger.orders);
    } else {
      var init, last := ids[..|ids| - 1], ids[|ids| - 1];
      ObserveOrdersEvolves(m, b, init, candle);
      var mid := ObserveOrders(m, b, init, candle).value;
      assert last !in init;
      ObserveOrderEvolves(m, mid, last, candle);
      var next := ObserveOrder(m, mid, last, candle).value;
      EvolvesTransitive(b.ledger.orders, mid.ledger.orders, next.ledger.orders);
      forall i | 0 <= i < |ids| ensures ids[i] in next.ledger.orders && OrderOk(ids[i], next.ledger.orders[ids[i]]) {
        if i < |init| {
          assert init[i] == ids[i] && ids[i] != last;
        }
      }
    }
  }

  lemma {:induction false} SameEvolves(orders: map<Id, OrderRow>)
    ensures Evolves(orders, orders)
  {
    hide Val;
  }

  lemma {:induction false} FilterDistinct(keep: Id -> bool, ids: seq<Id>)
    requires Distinct(ids)
    ensures Distinct(Filter(keep, ids))
    decreases |ids|
  {
    if ids != [] {
      FilterDistinct(keep, ids[..|ids| - 1]);
      FilterKeeps(keep, ids[..|ids| - 1], ids[|ids| - 1]);
    }
  }

  /** The orders still alive after a candle may be evaluated on the next. */
  lemma {:induction false} ObserveCandleReady(m: Market, b: Books, hot: seq<Id>, candle: Candle)
    requires AllReady(b, hot) && ObserveCandle(m, b, hot, candle).Ok?
    ensures var (next, rest) := ObserveCandle(m, b, hot, candle).value;
      AllReady(next, rest) && Evolves(b.ledger.orders, next.ledger.orders)
  {
    hide OrderOk, ObserveOrders, Val, RowEvolves, Ready, CanonicalCandle;
    var (next, rest) := ObserveCandle(m, b, hot, candle).value;
    ObserveOrdersEvolves(m, b, hot, candle);
    FilterDistinct(Alive(next.ledger.orders), hot);
    forall i | 0 <= i < |rest| ensures Ready(next, rest[i]) {
      FilterKeeps(Alive(next.ledger.orders), hot, rest[i]);
      AliveIsReady(next, rest[i]);
    }
  }

  lemma {:induction false} AliveIsReady(b: Books, id: Id)
    requires id in b.ledger.orders && OrderOk(id, b.ledger.orders[id]) && Alive(b.ledger.orders)(id)
    ensures Ready(b, id)
  {
    hide Val;
  }

  /** The whole observation, candle by candle. */
  function ObserveCandles(m: Market, b: Books, hot: seq<Id>, candles: seq<Candle>): (r: Result<(Books, seq<Id>), Fault>)
    requires AllReady(b, hot)
    ensures r.Ok? ==> AllReady(r.value.0, r.value.1)
  {
    if candles == [] then Ok((b, hot))
    else
      var (next, rest) :- ObserveCandles(m, b, hot, candles[..|candles| - 1]);
      var r := ObserveCandle(m, next, rest, candles[|candles| - 1]);
      assert r.Ok? ==> AllReady(r.value.0, r.value.1) by {
        if r.Ok? { ObserveCandleReady(m, next, rest, candles[|candles| - 1]); }
      }
      r
  }

  lemma {:induction false} ObserveCandlesEvolves(m: Market, b: Books, hot: seq<Id>, candles: seq<Candle>)
    requires AllReady(b, hot) && ObserveCandles(m, b, hot, candles).Ok?
    ensures Evolves(b.ledger.orders, ObserveCandles(m, b, hot, candles).value.0.ledger.orders)
    decreases |candles|
  {
    hide ObserveCandle, RowEvolves, Ready;
    if candles == [] {
      SameEvolves(b.ledger.orders);
    } else {
      ObserveCandlesEvolves(m, b, hot, candles[..|candles| - 1]);
      var (next, rest) := ObserveCandles(m, b, hot, candles[..|candles| - 1]).value;
      ObserveCandleReady(m, next, rest, candles[|candles| - 1]);
      EvolvesTransitive(b.ledger.orders, next.ledger.orders, ObserveCandle(m, next, rest, candles[|candles| - 1]).value.0.ledger.orders);
    }
  }
}
