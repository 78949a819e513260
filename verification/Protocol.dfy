/** Every interleaving of the gateway's transactions and provider calls. A command runs as
    several steps; what it still has to do is a token in flight, which a crash may lose. */
module Protocol {
  import opened Wrappers
  import opened DecimalPolicy
  import opened ExecutionModels
  import opened Accounting
  import opened TradeProjection
  import opened Repository
  import opened AsOf
  import opened Journal
  import opened JournalRebuild
  import opened Gateway
  import opened Observation
  import opened ObservationBatches
  import opened ObservationRuns

  /** Accepted and about to be dispatched; dispatched and awaiting its receipt; cancelling. */
  datatype Token = Accepted(orderId: Id) | Sent(orderId: Id) | Cancelling(orderId: Id)

  datatype World = World(ledger: Ledger, marks: map<Id, map<Time, Mark>>, flight: multiset<Token>, dispatched: seq<Id>)

  datatype Config = Config(profiles: map<Id, InstrumentProfile>, divide: (real, real) -> real)

  datatype Step =
    | SubmitStep(intent: OrderIntent, orderId: Id, now: Time)
    | DispatchStep(orderId: Id)
    | ReceiptStep(orderId: Id, receipt: Receipt)
    | ReconcileStep(orderId: Id, receipt: Receipt)
    | CancelStep(orderId: Id)
    | CancelledStep(orderId: Id, outcome: CancelOutcome, now: Time)
    | AdmitStep(event: ExecutionEvent, allow: bool)
    | ObserveStep(market: Market, hot: seq<Id>)
    | CloseStep
    | LoseStep(token: Token)

  ghost predicate ConfigOk(c: Config) {
    forall symbol :: symbol in c.profiles ==> c.profiles[symbol].symbol == symbol
  }

  function MarksOf(w: World, symbol: Id): map<Time, Mark> {
    if symbol in w.marks then w.marks[symbol] else map[]
  }

  function BooksOf(w: World, m: Market): Books {
    Books(w.ledger, MarksOf(w, m.symbol), [], [])
  }

  /** One step. A refused transaction rolls back and leaves the world as it was. */
  ghost predicate Transition(c: Config, w: World, step: Step, w': World) {
    match step
    case SubmitStep(intent, orderId, now) =>
      && UniqueCommands(w.ledger.orders)
      && var r := Submit(w.ledger, intent, c.profiles, orderId, now);
         if r.Err? then w' == w
         else w' == w.(ledger := r.value.ledger,
                       flight := if r.value.dispatch then w.flight + multiset{Accepted(r.value.orderId)} else w.flight)
    case DispatchStep(orderId) =>
      && Accepted(orderId) in w.flight
      && w' == w.(flight := w.flight - multiset{Accepted(orderId)} + multiset{Sent(orderId)}, dispatched := w.dispatched + [orderId])
    case ReceiptStep(orderId, receipt) =>
      && Sent(orderId) in w.flight && orderId in w.ledger.orders
      && w' == w.(flight := w.flight - multiset{Sent(orderId)},
                  ledger := PutOrder(w.ledger, orderId, WithReceipt(w.ledger.orders[orderId].order, receipt)))
    case ReconcileStep(orderId, receipt) =>
      && orderId in w.ledger.orders
      && w' == w.(ledger := PutOrder(w.ledger, orderId, WithReceipt(w.ledger.orders[orderId].order, receipt)))
    case CancelStep(orderId) =>
      && orderId in w.ledger.orders
      && w' == if w.ledger.active then w.(flight := w.flight + multiset{Cancelling(orderId)}) else w
    case CancelledStep(orderId, outcome, now) =>
      && Cancelling(orderId) in w.flight && orderId in w.ledger.orders
      && var ledger := if !w.ledger.active then w.ledger
                       else PutOrder(w.ledger, orderId, WithCancellation(w.ledger.orders[orderId].order, outcome, now));
         w' == w.(flight := w.flight - multiset{Cancelling(orderId)}, ledger := ledger)
    case AdmitStep(event, allow) =>
      if event.symbol !in c.profiles then w' == w
      else
        var r := Admit(c.divide, w.ledger, event, c.profiles[event.symbol], allow);
        w' == if r.Err? then w else w.(ledger := r.value.1)
    case ObserveStep(m, hot) =>
      && m.symbol in c.profiles && m.profile == c.profiles[m.symbol] && m.divide == c.divide
      && OrdersOk(w.ledger.orders) && HotList(w.ledger.orders, m.symbol, hot)
      && (HotReady(BooksOf(w, m), m.symbol, hot);
          var r := ObserveAccount(m, BooksOf(w, m), hot);
          w' == if r.Err? then w else w.(ledger := r.value.ledger, marks := w.marks[m.symbol := r.value.marks]))
    case CloseStep => w' == w.(ledger := w.ledger.(active := false))
    case LoseStep(token) => token in w.flight && w' == w.(flight := w.flight - multiset{token})
  }

  // ---- what every world satisfies --------------------------------------------------

  /** A command waits to be dispatched, or was dispatched, at most once. */
  ghost predicate DispatchOk(w: World) {
    forall id :: Dispatches(w, id) > 0 ==> Dispatches(w, id) == 1 && id in w.ledger.orders
  }

  /** Dispatches of an order made, or still to be made. */
  ghost function Dispatches(w: World, id: Id): nat {
    multiset(w.dispatched)[id] + w.flight[Accepted(id)]
  }

  lemma {:induction false} NoMoreDispatches(w: World, w': World)
    requires DispatchOk(w) && w.ledger.orders.Keys <= w'.ledger.orders.Keys
    requires forall id :: Dispatches(w', id) <= Dispatches(w, id)
    ensures DispatchOk(w')
  {
    hide Dispatches;
    forall id | Dispatches(w', id) > 0 ensures Dispatches(w', id) == 1 && id in w'.ledger.orders {
      assert Dispatches(w, id) > 0;
    }
  }

  ghost predicate WorldInv(c: Config, origin: Account, w: World) {
    && LedgerInv(c.divide, origin, w.ledger)
    && UniqueCommands(w.ledger.orders) && Sequenced(w.ledger) && OrdersOk(w.ledger.orders)
    && DispatchOk(w)
  }

  /** The ledger kept its order rows and only moved them forward. */
  ghost predicate SameRows(l: Ledger, l': Ledger) {
    Evolves(l.orders, l'.orders) && l'.orders.Keys == l.orders.Keys && l'.commandSequence == l.commandSequence
  }

  lemma {:induction false} SameRowsKeep(l: Ledger, l': Ledger)
    requires SameRows(l, l') && UniqueCommands(l.orders) && Sequenced(l) && OrdersOk(l.orders)
    ensures UniqueCommands(l'.orders) && Sequenced(l') && OrdersOk(l'.orders)
  {
    hide Val, IntentOk;
    forall id | id in l'.orders ensures id in l.orders && RowEvolves(l.orders[id], l'.orders[id]) && OrderOk(id, l'.orders[id]) {
      assert OrderOk(id, l.orders[id]);
    }
  }

  lemma {:induction false} PutOrderRows(l: Ledger, id: Id, order: Order)
    requires id in l.orders && RowEvolves(l.orders[id], l.orders[id].(order := order))
    ensures SameRows(l, PutOrder(l, id, order))
  {
    hide Val;
  }

  /** Rewriting an order row that keeps its filled quantity keeps the ledger invariant. */
  lemma {:induction false} PutOrderKeeps(divide: (real, real) -> real, origin: Account, l: Ledger, id: Id, order: Order)
    requires LedgerInv(divide, origin, l) && id in l.orders
    requires var o := l.orders[id].order; order.orderId == o.orderId && order.intent == o.intent && order.filledQuantity == o.filledQuantity
    ensures LedgerInv(divide, origin, PutOrder(l, id, order))
    ensures InputsOf(PutOrder(l, id, order)) == InputsOf(l)
  {
    hide Run, FilledBy, Val;
    assert InputsOf(PutOrder(l, id, order)) == InputsOf(l);
  }

  lemma {:induction false} AdmitRows(divide: (real, real) -> real, l: Ledger, event: ExecutionEvent, profile: InstrumentProfile, allow: bool)
    requires Admit(divide, l, event, profile, allow).Ok?
    ensures var next := Admit(divide, l, event, profile, allow).value.1;
      SameRows(l, next) && l.fills <= next.fills && next.active == l.active
  {
    hide ApplyFill, MatchesOrder, StaleIntent, Economic, Stored, Val, Filled;
    var next := Admit(divide, l, event, profile, allow).value.1;
    SameEvolves(l.orders);
    if next != l {
      QuantityPositive(event);
      FilledEvolves(l.orders[event.orderId], event);
    }
  }

  // ---- observation -----------------------------------------------------------------

  /** What an observation keeps of the ledger. */
  ghost predicate Observed(divide: (real, real) -> real, origin: Account, l: Ledger, l': Ledger) {
    LedgerInv(divide, origin, l') && l.fills <= l'.fills && l'.commandSequence == l.commandSequence && l'.active == l.active
  }

  lemma {:induction false} SettledKeeps(m: Market, origin: Account, b: Books, id: Id, event: ExecutionEvent)
    requires LedgerInv(m.divide, origin, b.ledger) && id in b.ledger.orders && Settled(m, b, id, event).Ok?
    ensures Observed(m.divide, origin, b.ledger, Settled(m, b, id, event).value.ledger)
  {
    hide Admit, LedgerInv, Soft;
    var r := Admit(m.divide, b.ledger, event, m.profile, true);
    if r.Ok? {
      AdmitKeeps(m.divide, origin, b.ledger, event, m.profile, true);
      AdmitRows(m.divide, b.ledger, event, m.profile, true);
    } else {
      var order := b.ledger.orders[id].order.(submissionStatus := Rejected, rejectionReason := Some(FillRefused(r.error)));
      PutOrderKeeps(m.divide, origin, b.ledger, id, order);
    }
  }

  lemma {:induction false} ObserveOrderKeeps(m: Market, origin: Account, b: Books, id: Id, candle: Candle)
    requires LedgerInv(m.divide, origin, b.ledger) && Ready(b, id) && ObserveOrder(m, b, id, candle).Ok?
    ensures Observed(m.divide, origin, b.ledger, ObserveOrder(m, b, id, candle).value.ledger)
  {
    hide Settled, LedgerInv, ProposeFill, Val, Seen, Expected, IntentOk;
    var order := b.ledger.orders[id].order;
    if !Seen(order, candle.timestamp) {
      var proposal := ProposeFill(m, b.ledger.account, order, candle);
      var next := if proposal.None? then b else Settled(m, b, id, proposal.value).value;
      if proposal.Some? {
        ProposalNames(m, b.ledger.account, order, candle);
        SettledKeeps(m, origin, b, id, proposal.value);
        SettledOthers(m, b, id, proposal.value);
      }
      PutOrderKeeps(m.divide, origin, next.ledger, id, next.ledger.orders[id].order.(lastObservationAt := Some(candle.timestamp)));
    }
  }

  lemma {:induction false} ObserveOrdersKeeps(m: Market, origin: Account, b: Books, ids: seq<Id>, candle: Candle)
    requires LedgerInv(m.divide, origin, b.ledger) && AllReady(b, ids) && ObserveOrders(m, b, ids, candle).Ok?
    ensures Observed(m.divide, origin, b.ledger, ObserveOrders(m, b, ids, candle).value.ledger)
    decreases |ids|
  {
    hide LedgerInv, ObserveOrder, Ready, AllReady;
    if ids != [] {
      ReadyPrefix(b, ids, |ids| - 1);
      OrdersStep(m, b, ids, candle, |ids| - 1);
      assert ids[..|ids| - 1 + 1] == ids;
      var mid := ObserveOrders(m, b, ids[..|ids| - 1], candle).value;
      ObserveOrdersKeeps(m, origin, b, ids[..|ids| - 1], candle);
      ObserveOrderKeeps(m, origin, mid, ids[|ids| - 1], candle);
    }
  }

  lemma {:induction false} ObserveCandlesKeeps(m: Market, origin: Account, b: Books, hot: seq<Id>, candles: seq<Candle>)
    requires LedgerInv(m.divide, origin, b.ledger) && AllReady(b, hot) && ObserveCandles(m, b, hot, candles).Ok?
    ensures Observed(m.divide, origin, b.ledger, ObserveCandles(m, b, hot, candles).value.0.ledger)
    decreases |candles|
  {
    hide LedgerInv, ObserveOrders, AllReady, Alive, CanonicalCandle;
    if candles != [] {
      var init, last := candles[..|candles| - 1], candles[|candles| - 1];
      ObserveCandlesKeeps(m, origin, b, hot, init);
      var (next, rest) := ObserveCandles(m, b, hot, init).value;
      ObserveOrdersKeeps(m, origin, next, rest, last);
    }
  }

  // ---- one step --------------------------------------------------------------------

  lemma {:induction false} StoredIntentOk(intent: OrderIntent)
    requires IntentOk(intent)
    ensures IntentOk(StoredIntent(intent))
  {
    hide Normalize, Scaled;
    NormalizeValue(intent.quantity);
    if intent.limitPrice.Some? {
      NormalizeValue(intent.limitPrice.value);
    }
  }

  lemma {:induction false} FilledByNone(l: Ledger, fills: seq<ExecutionEvent>, id: Id)
    requires forall i :: 0 <= i < |fills| ==> fills[i].orderId != id
    ensures FilledBy(fills, id) == 0.0
    decreases |fills|
  {
    hide Val;
    if fills != [] {
      FilledByNone(l, fills[..|fills| - 1], id);
    }
  }

  /** A new order has no fills and does not disturb the others. */
  lemma {:induction false} NewOrderKeeps(c: Config, origin: Account, l: Ledger, intent: OrderIntent, orderId: Id, now: Time)
    requires LedgerInv(c.divide, origin, l) && UniqueCommands(l.orders)
    requires Submit(l, intent, c.profiles, orderId, now).Ok?
    ensures LedgerInv(c.divide, origin, Submit(l, intent, c.profiles, orderId, now).value.ledger)
  {
    hide Run, FilledBy, ValidateUnits, OpenPosition, Scaled, Normalize;
    var next := Submit(l, intent, c.profiles, orderId, now).value.ledger;
    if next != l {
      assert next.orders == l.orders[orderId := next.orders[orderId]] && orderId !in l.orders;
      assert InputsOf(next) == InputsOf(l);
      FilledByNone(l, l.fills, orderId);
      ZeroValue();
      NewOrderQuantity(intent);
    }
  }

  lemma {:induction false} ZeroValue()
    ensures Val(Decimal(0, 0)) == 0.0
  {
  }

  lemma {:induction false} NewOrderQuantity(intent: OrderIntent)
    requires IntentOk(intent)
    ensures Val(StoredIntent(intent).quantity) > 0.0
  {
    hide Normalize, Scaled;
    NormalizeValue(intent.quantity);
  }

  /** Adding a row under a new identifier, command and sequence. */
  lemma {:induction false} AddRow(l: Ledger, id: Id, row: OrderRow)
    requires UniqueCommands(l.orders) && Sequenced(l) && OrdersOk(l.orders)
    requires id !in l.orders && !HasCommand(l.orders, row.order.intent.commandId)
    requires row.commandSequence == l.commandSequence + 1 && OrderOk(id, row)
    ensures var l' := l.(orders := l.orders[id := row], commandSequence := l.commandSequence + 1);
      UniqueCommands(l'.orders) && Sequenced(l') && OrdersOk(l'.orders) && Evolves(l.orders, l'.orders)
  {
    hide OrderOk, RowEvolves;
    SameEvolves(l.orders);
  }

  lemma {:induction false} NewOrderOk(l: Ledger, intent: OrderIntent, profile: InstrumentProfile, orderId: Id, now: Time, sequence: nat)
    requires IntentOk(intent) && profile.symbol == intent.symbol
    ensures OrderOk(orderId, OrderRow(NewOrder(l, intent, profile, orderId, now), profile, sequence))
  {
    hide Val, Normalize, OpenPosition, IntentOk;
    StoredIntentOk(intent);
  }

  /** What a submission adds to the rows. */
  lemma {:induction false} SubmitRows(c: Config, l: Ledger, intent: OrderIntent, orderId: Id, now: Time)
    requires ConfigOk(c) && UniqueCommands(l.orders) && Sequenced(l) && OrdersOk(l.orders)
    requires Submit(l, intent, c.profiles, orderId, now).Ok?
    ensures var s := Submit(l, intent, c.profiles, orderId, now).value;
      && UniqueCommands(s.ledger.orders) && Sequenced(s.ledger) && OrdersOk(s.ledger.orders)
      && Evolves(l.orders, s.ledger.orders) && s.ledger.fills == l.fills && s.ledger.active == l.active
      && (s.dispatch ==> s.orderId !in l.orders && s.orderId in s.ledger.orders)
  {
    hide ValidateUnits, Normalize, IntentOk, Evolves, OrderOk, OrdersOk, Sequenced;
    var s := Submit(l, intent, c.profiles, orderId, now).value;
    SameEvolves(l.orders);
    if !HasCommand(l.orders, intent.commandId) {
      var profile := c.profiles[intent.symbol];
      NewOrderOk(l, intent, profile, orderId, now, l.commandSequence + 1);
      AddRow(l, orderId, OrderRow(NewOrder(l, intent, profile, orderId, now), profile, l.commandSequence + 1));
    }
  }

  /** A step only moves forward. */
  ghost predicate Forward(w: World, w': World) {
    && Evolves(w.ledger.orders, w'.ledger.orders)
    && w.ledger.fills <= w'.ledger.fills
    && w.dispatched <= w'.dispatched
    && (w'.ledger.active ==> w.ledger.active)
  }

  lemma {:induction false} SubmitStepKeeps(c: Config, origin: Account, w: World, step: Step, w': World)
    requires ConfigOk(c) && WorldInv(c, origin, w) && step.SubmitStep? && Transition(c, w, step, w')
    ensures WorldInv(c, origin, w') && Forward(w, w')
  {
    hide Submit, LedgerInv, Sequenced, OrdersOk, RowEvolves;
    var r := Submit(w.ledger, step.intent, c.profiles, step.orderId, step.now);
    SameEvolves(w.ledger.orders);
    if r.Ok? {
      SubmitRows(c, w.ledger, step.intent, step.orderId, step.now);
      NewOrderKeeps(c, origin, w.ledger, step.intent, step.orderId, step.now);
      forall id | Dispatches(w', id) > 0 ensures Dispatches(w', id) == 1 && id in w'.ledger.orders {
        if !(r.value.dispatch && id == r.value.orderId) {
          assert Dispatches(w, id) == Dispatches(w', id);
        } else {
          assert Dispatches(w, id) == 0;
        }
      }
    }
  }

  /** Steps that rewrite one order row from a provider's answer. */
  lemma {:induction false} AnswerKeeps(c: Config, origin: Account, w: World, step: Step, w': World)
    requires WorldInv(c, origin, w) && Transition(c, w, step, w')
    requires step.ReceiptStep? || step.ReconcileStep? || step.CancelledStep?
    ensures WorldInv(c, origin, w') && Forward(w, w')
  {
    hide LedgerInv, Sequenced, OrdersOk, RowEvolves, UniqueCommands, WithReceipt, WithCancellation, Evolves, DispatchOk;
    var row := w.ledger.orders[step.orderId];
    SameEvolves(w.ledger.orders);
    if step.CancelledStep? {
      if w.ledger.active {
        CancellationEvolves(row, step.outcome, step.now);
        CancellationKeepsQuantity(row.order, step.outcome, step.now);
        RowStepKeeps(c, origin, w.ledger, step.orderId, WithCancellation(row.order, step.outcome, step.now));
      }
    } else {
      ReceiptEvolves(row, step.receipt);
      ReceiptKeepsQuantity(row.order, step.receipt);
      RowStepKeeps(c, origin, w.ledger, step.orderId, WithReceipt(row.order, step.receipt));
    }
    NoMoreDispatches(w, w');
  }

  lemma {:induction false} CancellationKeepsQuantity(o: Order, outcome: CancelOutcome, now: Time)
    ensures var o' := WithCancellation(o, outcome, now);
      o'.orderId == o.orderId && o'.intent == o.intent && o'.filledQuantity == o.filledQuantity
  {
    hide Val;
  }

  lemma {:induction false} ReceiptKeepsQuantity(o: Order, receipt: Receipt)
    ensures var o' := WithReceipt(o, receipt);
      o'.orderId == o.orderId && o'.intent == o.intent && o'.filledQuantity == o.filledQuantity
  {
  }

  lemma {:induction false} RowStepKeeps(c: Config, origin: Account, l: Ledger, id: Id, order: Order)
    requires LedgerInv(c.divide, origin, l) && UniqueCommands(l.orders) && Sequenced(l) && OrdersOk(l.orders)
    requires id in l.orders && RowEvolves(l.orders[id], l.orders[id].(order := order))
    requires var o := l.orders[id].order; order.orderId == o.orderId && order.intent == o.intent && order.filledQuantity == o.filledQuantity
    ensures var l' := PutOrder(l, id, order);
      && LedgerInv(c.divide, origin, l') && UniqueCommands(l'.orders) && Sequenced(l') && OrdersOk(l'.orders)
      && Evolves(l.orders, l'.orders) && l'.orders.Keys == l.orders.Keys
  {
    hide LedgerInv, Sequenced, OrdersOk, RowEvolves, UniqueCommands, Evolves;
    PutOrderKeeps(c.divide, origin, l, id, order);
    PutOrderRows(l, id, order);
    SameRowsKeep(l, PutOrder(l, id, order));
  }

  lemma {:induction false} AdmitStepKeeps(c: Config, origin: Account, w: World, step: Step, w': World)
    requires WorldInv(c, origin, w) && Transition(c, w, step, w') && step.AdmitStep?
    ensures WorldInv(c, origin, w') && Forward(w, w')
  {
    hide LedgerInv, Sequenced, OrdersOk, RowEvolves, UniqueCommands, Admit, Evolves, DispatchOk;
    SameEvolves(w.ledger.orders);
    if w' != w {
      var profile := c.profiles[step.event.symbol];
      AdmitKeeps(c.divide, origin, w.ledger, step.event, profile, step.allow);
      AdmitRows(c.divide, w.ledger, step.event, profile, step.allow);
      SameRowsKeep(w.ledger, w'.ledger);
      NoMoreDispatches(w, w');
    }
  }

  lemma {:induction false} ObserveStepKeeps(c: Config, origin: Account, w: World, step: Step, w': World)
    requires WorldInv(c, origin, w) && Transition(c, w, step, w') && step.ObserveStep?
    ensures WorldInv(c, origin, w') && Forward(w, w')
  {
    hide LedgerInv, Sequenced, OrdersOk, RowEvolves, UniqueCommands, ObserveCandles, Evolves, AllReady, HotList, Fresh, DispatchOk;
    SameEvolves(w.ledger.orders);
    var b := BooksOf(w, step.market);
    HotReady(b, step.market.symbol, step.hot);
    if ObserveAccount(step.market, b, step.hot).Ok? {
      ObserveCandlesKeeps(step.market, origin, b, step.hot, step.market.candles);
      ObserveCandlesEvolves(step.market, b, step.hot, step.market.candles);
      ClosedOrdersEnded(step.market, b, step.hot, step.market.candles);
      SameRowsKeep(w.ledger, w'.ledger);
      NoMoreDispatches(w, w');
    }
  }

  lemma {:induction false} CloseKeeps(divide: (real, real) -> real, origin: Account, l: Ledger)
    requires LedgerInv(divide, origin, l)
    ensures LedgerInv(divide, origin, l.(active := false))
  {
    hide Run, FilledBy, Val;
    assert InputsOf(l.(active := false)) == InputsOf(l);
  }

  lemma {:induction false} CloseStepKeeps(c: Config, origin: Account, w: World, step: Step, w': World)
    requires WorldInv(c, origin, w) && Transition(c, w, step, w') && step.CloseStep?
    ensures WorldInv(c, origin, w') && Forward(w, w')
  {
    hide LedgerInv, OrdersOk, RowEvolves, UniqueCommands, DispatchOk;
    SameEvolves(w.ledger.orders);
    CloseKeeps(c.divide, origin, w.ledger);
    NoMoreDispatches(w, w');
  }

  lemma {:induction false} TokensOnly(c: Config, origin: Account, w: World, w': World)
    requires WorldInv(c, origin, w) && w'.ledger == w.ledger && w.dispatched <= w'.dispatched
    requires forall id :: Dispatches(w', id) <= Dispatches(w, id)
    ensures WorldInv(c, origin, w') && Forward(w, w')
  {
    hide LedgerInv, Sequenced, OrdersOk, RowEvolves, UniqueCommands, Dispatches;
    SameEvolves(w.ledger.orders);
    NoMoreDispatches(w, w');
  }

  lemma {:induction false} DispatchMoves(w: World, orderId: Id, w': World, id: Id)
    requires Accepted(orderId) in w.flight
    requires w' == w.(flight := w.flight - multiset{Accepted(orderId)} + multiset{Sent(orderId)}, dispatched := w.dispatched + [orderId])
    ensures Dispatches(w', id) == Dispatches(w, id)
  {
    assert multiset(w'.dispatched) == multiset(w.dispatched) + multiset{orderId};
  }

  lemma {:induction false} FlightStepKeeps(c: Config, origin: Account, w: World, step: Step, w': World)
    requires WorldInv(c, origin, w) && Transition(c, w, step, w')
    requires step.DispatchStep? || step.CancelStep? || step.LoseStep?
    ensures WorldInv(c, origin, w') && Forward(w, w')
  {
    hide WorldInv, Forward;
    if step.DispatchStep? {
      forall id ensures Dispatches(w', id) <= Dispatches(w, id) {
        DispatchMoves(w, step.orderId, w', id);
      }
    }
    TokensOnly(c, origin, w, w');
  }

  /** Every step keeps every world invariant and only moves forward. */
  lemma {:induction false} StepKeeps(c: Config, origin: Account, w: World, step: Step, w': World)
    requires ConfigOk(c) && WorldInv(c, origin, w) && Transition(c, w, step, w')
    ensures WorldInv(c, origin, w') && Forward(w, w')
  {
    hide WorldInv, Transition, Forward;
    if step.SubmitStep? {
      SubmitStepKeeps(c, origin, w, step, w');
    } else if step.ReceiptStep? || step.ReconcileStep? || step.CancelledStep? {
      AnswerKeeps(c, origin, w, step, w');
    } else if step.AdmitStep? {
      AdmitStepKeeps(c, origin, w, step, w');
    } else if step.ObserveStep? {
      ObserveStepKeeps(c, origin, w, step, w');
    } else if step.CloseStep? {
      CloseStepKeeps(c, origin, w, step, w');
    } else {
      FlightStepKeeps(c, origin, w, step, w');
    }
  }

  // ---- whole runs ------------------------------------------------------------------

  /** Consecutive worlds of one interleaving. */
  ghost predicate Trace(c: Config, worlds: seq<World>, steps: seq<Step>) {
    |worlds| == |steps| + 1 && forall i :: 0 <= i < |steps| ==> Transition(c, worlds[i], steps[i], worlds[i + 1])
  }

  lemma {:induction false} ForwardTransitive(a: World, b: World, c: World)
    requires Forward(a, b) && Forward(b, c)
    ensures Forward(a, c)
  {
    hide Evolves;
    EvolvesTransitive(a.ledger.orders, b.ledger.orders, c.ledger.orders);
  }

  lemma {:induction false} ForwardSame(w: World)
    ensures Forward(w, w)
  {
    hide RowEvolves;
    SameEvolves(w.ledger.orders);
  }

  /** Over every interleaving: every world satisfies the invariant, and between any two
      worlds orders only move forward. The first receipt other than UNKNOWN stays, only a
      refused fill rejects an acknowledged order, a cancellation time is set once, filled
      quantities never shrink, and fills are never lost. */
  lemma {:induction false} RunsMoveForward(c: Config, origin: Account, worlds: seq<World>, steps: seq<Step>, i: nat, j: nat)
    requires ConfigOk(c) && Trace(c, worlds, steps) && WorldInv(c, origin, worlds[0]) && i <= j <= |steps|
    ensures WorldInv(c, origin, worlds[i]) && WorldInv(c, origin, worlds[j]) && Forward(worlds[i], worlds[j])
    decreases j
  {
    hide WorldInv, Transition, Forward;
    if i < j {
      RunsMoveForward(c, origin, worlds, steps, i, j - 1);
      StepKeeps(c, origin, worlds[j - 1], steps[j - 1], worlds[j]);
      ForwardTransitive(worlds[i], worlds[j - 1], worlds[j]);
    } else if j > 0 {
      RunsMoveForward(c, origin, worlds, steps, j - 1, j - 1);
      StepKeeps(c, origin, worlds[j - 1], steps[j - 1], worlds[j]);
      ForwardSame(worlds[j]);
    } else {
      ForwardSame(worlds[0]);
    }
  }

  lemma {:induction false} AtMostOnce(dispatched: seq<Id>, x: nat, y: nat)
    requires x < y < |dispatched| && dispatched[x] == dispatched[y]
    ensures multiset(dispatched)[dispatched[x]] >= 2
  {
    assert dispatched == dispatched[..x + 1] + dispatched[x + 1..];
    assert dispatched[x + 1..][y - x - 1] == dispatched[x];
    assert dispatched[..x + 1][x] == dispatched[x];
    assert multiset(dispatched) == multiset(dispatched[..x + 1]) + multiset(dispatched[x + 1..]);
  }

  /** At most once: no two dispatches in the whole history of an account carry the same order
      or the same command, whatever is lost, repeated or interleaved. */
  lemma {:induction false} DispatchedAtMostOnce(c: Config, origin: Account, w: World, x: nat, y: nat)
    requires WorldInv(c, origin, w) && x < y < |w.dispatched|
    ensures w.dispatched[x] != w.dispatched[y]
    ensures w.dispatched[x] in w.ledger.orders && w.dispatched[y] in w.ledger.orders
    ensures w.ledger.orders[w.dispatched[x]].order.intent.commandId != w.ledger.orders[w.dispatched[y]].order.intent.commandId
  {
    hide LedgerInv, OrdersOk, Sequenced;
    if w.dispatched[x] == w.dispatched[y] {
      AtMostOnce(w.dispatched, x, y);
    }
    assert Dispatches(w, w.dispatched[x]) > 0 && Dispatches(w, w.dispatched[y]) > 0;
    assert w.dispatched[x] in multiset(w.dispatched) && w.dispatched[y] in multiset(w.dispatched);
  }

  lemma {:induction false} InputsPrefix(l: Ledger, l': Ledger)
    requires FillsHaveOrders(l) && FillsHaveOrders(l') && l.fills <= l'.fills && Evolves(l.orders, l'.orders)
    ensures InputsOf(l')[..|l.fills|] == InputsOf(l)
  {
    forall i | 0 <= i < |l.fills| ensures InputsOf(l')[i] == InputsOf(l)[i] {
      assert RowEvolves(l.orders[l.fills[i].orderId], l'.orders[l.fills[i].orderId]);
    }
  }

  /** Looking back: in any later world, reading the account as of a cutoff that separates the
      fills of an earlier world from those admitted since succeeds exactly when those fills still
      fit their instruments, and then gives exactly the account that world held. */
  lemma {:induction false} LookingBack(c: Config, origin: Account, worlds: seq<World>, steps: seq<Step>, i: nat, j: nat,
                                       table: seq<ExecutionEvent>, cutoff: Time)
    requires ConfigOk(c) && Trace(c, worlds, steps) && WorldInv(c, origin, worlds[0]) && i <= j <= |steps|
    requires HaveOrders(table, worlds[j].ledger.orders) && multiset(table) == multiset(worlds[j].ledger.fills)
    requires cutoff >= worlds[j].ledger.account.createdAt
    requires Known(worlds[j].ledger.fills, cutoff) == |worlds[i].ledger.fills|
    ensures FillsHaveOrders(worlds[i].ledger)
    ensures var read := AccountAsOf(c.divide, worlds[j].ledger, table, cutoff).value;
      && (read.Ok? <==> forall k :: 0 <= k < |worlds[i].ledger.fills| ==> UnitsHold(worlds[i].ledger, k))
      && (read.Ok? ==> read.value == worlds[i].ledger.account)
  {
    hide Transition, Run, Known, AccountAsOf, OrdersOk, Sequenced, UniqueCommands, DispatchOk, FillIdentities, OrdersMatchFills, ValidateUnits;
    RunsMoveForward(c, origin, worlds, steps, i, j);
    var l, l' := worlds[i].ledger, worlds[j].ledger;
    AsOfIsHistory(c.divide, origin, l', table, cutoff);
    InputsPrefix(l, l');
    forall k | 0 <= k < |l.fills| ensures UnitsHold(l', k) == UnitsHold(l, k) {
      assert InputsOf(l')[..|l.fills|][k] == InputsOf(l)[k];
    }
  }

  /** In every reachable world the filled quantity of an order is the sum of its admitted
      fills, and at most what was ordered. */
  lemma {:induction false} FilledIsSumOfFills(c: Config, origin: Account, w: World, id: Id)
    requires WorldInv(c, origin, w) && id in w.ledger.orders
    ensures var order := w.ledger.orders[id].order;
      Val(order.filledQuantity) == FilledBy(w.ledger.fills, id) <= Val(order.intent.quantity)
  {
    hide Run, Val, FilledBy;
  }

  /** A new account. */
  function Opening(origin: Account): World {
    World(Ledger(EmptyProjection(origin), map[], [], 0, true), map[], multiset{}, [])
  }

  lemma {:induction false} OpeningWorld(c: Config, origin: Account)
    ensures WorldInv(c, origin, Opening(origin))
  {
    var l := Ledger(EmptyProjection(origin), map[], [], 0, true);
    assert InputsOf(l) == [];
  }

  /** From a new account on, over every interleaving: every order's filled quantity is the sum
      of its admitted fills within its intent, and no two dispatches carry the same command. */
  lemma {:induction false} EveryAccount(c: Config, origin: Account, worlds: seq<World>, steps: seq<Step>, i: nat)
    requires ConfigOk(c) && Trace(c, worlds, steps) && worlds[0] == Opening(origin) && i <= |steps|
    ensures WorldInv(c, origin, worlds[i])
    ensures forall id :: id in worlds[i].ledger.orders ==>
      var order := worlds[i].ledger.orders[id].order;
      Val(order.filledQuantity) == FilledBy(worlds[i].ledger.fills, id) <= Val(order.intent.quantity)
    ensures forall x, y :: 0 <= x < y < |worlds[i].dispatched| ==>
      var orders, a, b := worlds[i].ledger.orders, worlds[i].dispatched[x], worlds[i].dispatched[y];
      a in orders && b in orders && orders[a].order.intent.commandId != orders[b].order.intent.commandId
  {
    hide WorldInv, Transition, Forward, FilledBy, Val;
    var w := worlds[i];
    OpeningWorld(c, origin);
    RunsMoveForward(c, origin, worlds, steps, 0, i);
    forall id | id in w.ledger.orders
      ensures var order := w.ledger.orders[id].order;
        Val(order.filledQuantity) == FilledBy(w.ledger.fills, id) <= Val(order.intent.quantity)
    {
      FilledIsSumOfFills(c, origin, w, id);
    }
    forall x, y | 0 <= x < y < |w.dispatched|
      ensures var orders, a, b := w.ledger.orders, w.dispatched[x], w.dispatched[y];
        a in orders && b in orders && orders[a].order.intent.commandId != orders[b].order.intent.commandId
    {
      DispatchedAtMostOnce(c, origin, w, x, y);
    }
  }

  /** The journal of a ledger does not depend on its order rows: between admissions it holds
      on without being touched. */
  lemma {:induction false} JournalIgnoresRows(c: Config, origin: Account, w: World, step: Step, w': World, j: Tables)
    requires ConfigOk(c) && WorldInv(c, origin, w) && Transition(c, w, step, w')
    requires JournalHolds(c.divide, origin, w.ledger, j) && w'.ledger.fills == w.ledger.fills
    ensures JournalHolds(c.divide, origin, w'.ledger, j)
  {
    hide Transition, Run, JournalOf, OrdersOk, Sequenced, UniqueCommands, DispatchOk, FillIdentities, OrdersMatchFills, InputAt;
    StepKeeps(c, origin, w, step, w');
    InputsPrefix(w.ledger, w'.ledger);
    assert InputsOf(w'.ledger)[..|w.ledger.fills|] == InputsOf(w'.ledger);
  }
}
