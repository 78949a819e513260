/** Every fill of a reduce-only order leaves the trade the order was bound to when it was
    submitted, and every other fill enters one, over every interleaving. */
module ReduceOnly {
  import opened Wrappers
  import opened DecimalPolicy
  import opened ExecutionModels
  import opened Accounting
  import opened TradeProjection
  import opened LedgerInvariant
  import opened Repository
  import opened JournalHistory
  import opened JournalRebuild
  import opened Balances
  import opened OrderGuards
  import opened Gateway
  import opened Observation
  import opened ObservationBatches
  import opened ObservationRuns
  import opened Protocol

  /** A reduce-only order is bound to a trade on the other side. */
  predicate Binds(s: Account, o: Order) {
    o.reduceOnly ==>
      o.boundTradeId.Some? && FindTrade(s, o.boundTradeId.value).Some?
      && (FindTrade(s, o.boundTradeId.value).value.direction.Long? <==> o.intent.side.Sell?)
  }

  /** The fill leaves the trade its order is bound to, or enters one. */
  predicate ActsAs(o: Order, m: Member) {
    (m.role.Exit? <==> o.reduceOnly) && (o.reduceOnly ==> o.boundTradeId == Some(m.tradeId))
  }

  ghost predicate AllAct(l: Ledger, members: seq<Member>) {
    && |members| == |l.fills|
    && (forall id :: id in l.orders ==> Binds(l.account, l.orders[id].order))
    && forall k :: 0 <= k < |l.fills| ==> l.fills[k].orderId in l.orders && ActsAs(l.orders[l.fills[k].orderId].order, members[k])
  }

  ghost predicate Directed(divide: (real, real) -> real, origin: Account, l: Ledger) {
    LedgerInv(divide, origin, l) && AllAct(l, Run(divide, origin, InputsOf(l)).value.1)
  }

  /** A fill that meets an opposite position leaves its trade; any other enters one. */
  lemma {:induction false} MoveActs(divide: (real, real) -> real, origin: Account, s: Account, members: seq<Member>,
                                    e: ExecutionEvent, profile: InstrumentProfile, plan: Option<Id>, m: Movement)
    requires LedgerOk(origin, s, members) && Move(divide, s, e, profile, plan) == Ok(m)
    ensures RoleOf(m.trade, e).Exit? <==> MeetsOpposite(s, e)
    ensures MeetsOpposite(s, e) ==>
      PositionIndex(s.positions, e.symbol) < |s.positions| && m.trade.tradeId == s.positions[PositionIndex(s.positions, e.symbol)].tradeId
  {
    hide Notional, TotalFee, AvailableBalance, EventsOf, TradeOk, NetOf, Remaining, Basis, MeetsOpposite, PositionIndex, Val, TradeIndex;
    OppositeIsReduction(s, e);
    var i := PositionIndex(s.positions, e.symbol);
    if i < |s.positions| {
      assert BoundOk(s.positions[i], s.trades);
    }
  }

  lemma {:induction false} OpposesIsMeets(s: Account, e: ExecutionEvent)
    ensures MeetsOpposite(s, e) <==> exists p :: p in s.positions && Opposes(p, e.symbol, e.side)
  {
    if MeetsOpposite(s, e) {
      var i :| 0 <= i < |s.positions| && s.positions[i].symbol == e.symbol && s.positions[i].quantity != 0.0
        && s.positions[i].direction == (if e.side.Buy? then Short else Long);
      assert s.positions[i] in s.positions && Opposes(s.positions[i], e.symbol, e.side);
    }
  }

  /** The guards of admission send every fill the way of its order. */
  lemma {:induction false} GuardedActs(divide: (real, real) -> real, origin: Account, s: Account, members: seq<Member>, o: Order,
                                       e: ExecutionEvent, profile: InstrumentProfile, plan: Option<Id>, m: Movement)
    requires LedgerOk(origin, s, members) && Move(divide, s, e, profile, plan) == Ok(m)
    requires Binds(s, o) && e.side == o.intent.side && StaleIntent(s, o, e).None?
    ensures ActsAs(o, Member(e, m.trade.tradeId, RoleOf(m.trade, e)))
  {
    hide LedgerOk, Move, MeetsOpposite, OpenPosition, Val, FindTrade;
    MoveActs(divide, origin, s, members, e, profile, plan, m);
    LedgerPositions(origin, s, members);
    OpenPositionIs(s.positions, e.symbol);
    OpposesIsMeets(s, e);
    var open := OpenPosition(s.positions, e.symbol);
    if open.Some? {
      PositionAt(origin, s, members, e.symbol, open.value);
    }
  }

  lemma {:induction false} PositionAt(origin: Account, s: Account, members: seq<Member>, symbol: Id, p: Position)
    requires LedgerOk(origin, s, members) && p in s.positions && p.symbol == symbol
    ensures var i := PositionIndex(s.positions, symbol); i < |s.positions| && s.positions[i] == p
    ensures FindTrade(s, p.tradeId).Some? && FindTrade(s, p.tradeId).value.direction == p.direction
  {
    hide EventsOf, TradeOk, NetOf, Remaining, Basis, PositionIndex, TradeIndex;
    var k :| 0 <= k < |s.positions| && s.positions[k] == p;
    BoundToPosition(s.positions, k);
    assert BoundOk(s.positions[k], s.trades);
  }

  // ---- admission -------------------------------------------------------------------

  /** What a newly admitted fill makes of the ledger. */
  lemma {:induction false} AdmittedAs(divide: (real, real) -> real, l: Ledger, e: ExecutionEvent, profile: InstrumentProfile, allow: bool)
    requires Admit(divide, l, e, profile, allow).Ok?
    ensures var next := Admit(divide, l, e, profile, allow).value.1;
      next == l ||
      (&& e.orderId in l.orders && e.side == l.orders[e.orderId].order.intent.side
       && StaleIntent(l.account, l.orders[e.orderId].order, e).None?
       && next.fills == l.fills + [Stored(e)] && next.orders == l.orders[e.orderId := Filled(l.orders[e.orderId], e)])
  {
    hide ApplyFill, StaleIntent, Val, Normalize, Filled, Economic;
  }

  lemma {:induction false} StaleStored(s: Account, o: Order, e: ExecutionEvent)
    ensures StaleIntent(s, o, Stored(e)) == StaleIntent(s, o, e)
  {
    hide Val, Normalize, OpenPosition;
    StoredValues(e);
  }

  lemma {:induction false} FilledBinds(row: OrderRow, e: ExecutionEvent)
    ensures var o, o' := row.order, Filled(row, e).order;
      o'.reduceOnly == o.reduceOnly && o'.boundTradeId == o.boundTradeId && o'.intent == o.intent
  {
    hide Normalize, Add;
  }

  lemma {:induction false} BindsOn(s: Account, s': Account, m: Member, o: Order)
    requires Binds(s, o) && Untouched(s, s', m)
    ensures Binds(s', o)
  {
    hide FindTrade;
  }

  /** The run of the fills after one more, whose movement it is. */
  lemma {:induction false} LastMember(divide: (real, real) -> real, origin: Account, inputs: seq<Input>) returns (m: Movement)
    requires inputs != [] && DistinctEvents(inputs) && Run(divide, origin, inputs).Ok?
    ensures var init, last := inputs[..|inputs| - 1], inputs[|inputs| - 1];
      && Run(divide, origin, init).Ok?
      && var (s, members) := Run(divide, origin, init).value; var (next, all) := Run(divide, origin, inputs).value;
         && LedgerOk(origin, s, members) && Move(divide, s, last.event, last.profile, last.plan) == Ok(m)
         && all == members + [Member(last.event, m.trade.tradeId, RoleOf(m.trade, last.event))]
         && Untouched(s, next, all[|all| - 1])
  {
    hide LedgerOk, Settle, Move, MemberOf, RoleOf, Book, Untouched, SchemaValid;
    var init, last := inputs[..|inputs| - 1], inputs[|inputs| - 1];
    RunStepOk(divide, origin, inputs);
    ReachableOk(divide, origin, init);
    RunEvents(divide, origin, init);
    var (s, members) := Run(divide, origin, init).value;
    var next := Run(divide, origin, inputs).value.0;
    SettleMoves(divide, s, last, next);
    m := Move(divide, s, last.event, last.profile, last.plan).value;
    MoveLands(divide, origin, s, members, last.event, last.profile, last.plan, m);
    BookedMember(origin, s, members, last.event, m);
  }

  lemma {:induction false} BindsAt(l: Ledger, members: seq<Member>, id: Id)
    requires AllAct(l, members) && id in l.orders
    ensures Binds(l.account, l.orders[id].order)
  {
  }

  lemma {:induction false} AllActOn(l: Ledger, next: Ledger, members: seq<Member>, last: Member, e: ExecutionEvent)
    requires AllAct(l, members) && e.orderId in l.orders && ActsAs(l.orders[e.orderId].order, last)
    requires next.fills == l.fills + [Stored(e)] && next.orders == l.orders[e.orderId := Filled(l.orders[e.orderId], e)]
    requires Untouched(l.account, next.account, last)
    ensures AllAct(next, members + [last])
  {
    hide Untouched, Filled, Normalize, FindTrade;
    FilledBinds(l.orders[e.orderId], e);
    forall id | id in next.orders ensures Binds(next.account, next.orders[id].order) {
      BindsOn(l.account, next.account, last, l.orders[id].order);
    }
  }

  lemma {:induction false} AdmitDirected(divide: (real, real) -> real, origin: Account, l: Ledger, e: ExecutionEvent,
                                         profile: InstrumentProfile, allow: bool)
    requires Directed(divide, origin, l) && Admit(divide, l, e, profile, allow).Ok?
    ensures Directed(divide, origin, Admit(divide, l, e, profile, allow).value.1)
  {
    hide Run, Admit, LedgerOk, Move, StaleIntent, Filled, Normalize, RoleOf, Untouched, Binds, ActsAs, OrdersMatchFills, AllAct, Gateway.Evolves;
    var next := Admit(divide, l, e, profile, allow).value.1;
    AdmitKeeps(divide, origin, l, e, profile, allow);
    AdmittedAs(divide, l, e, profile, allow);
    if next != l {
      InputsDistinct(next);
      var inputs := InputsOf(next);
      AdmitRows(divide, l, e, profile, allow);
      InputsPrefix(l, next);
      assert inputs[..|inputs| - 1] == InputsOf(l);
      var m := LastMember(divide, origin, inputs);
      var last := inputs[|inputs| - 1];
      StaleStored(l.account, l.orders[e.orderId].order, e);
      var members := Run(divide, origin, InputsOf(l)).value.1;
      assert Binds(l.account, l.orders[e.orderId].order) by { BindsAt(l, members, e.orderId); }
      GuardedActs(divide, origin, l.account, members, l.orders[e.orderId].order, last.event, last.profile, last.plan, m);
      AllActOn(l, next, members, Member(last.event, m.trade.tradeId, RoleOf(m.trade, last.event)), e);
    }
  }

  // ---- the other steps -------------------------------------------------------------

  predicate SameBinding(row: OrderRow, row': OrderRow) {
    && row'.profile == row.profile && row'.order.intent == row.order.intent
    && row'.order.reduceOnly == row.order.reduceOnly && row'.order.boundTradeId == row.order.boundTradeId
  }

  /** The account, the fills and what every order is bound to are the same. */
  ghost predicate SameBooks(l: Ledger, l': Ledger) {
    && l'.account == l.account && l'.fills == l.fills && l'.orders.Keys == l.orders.Keys
    && forall id :: id in l.orders ==> SameBinding(l.orders[id], l'.orders[id])
  }

  lemma {:induction false} RowsDirected(divide: (real, real) -> real, origin: Account, l: Ledger, l': Ledger)
    requires Directed(divide, origin, l) && LedgerInv(divide, origin, l') && SameBooks(l, l')
    ensures Directed(divide, origin, l')
  {
    hide Run, FillIdentities, OrdersMatchFills, FindTrade;
    assert InputsOf(l') == InputsOf(l);
  }

  lemma {:induction false} EvolvedBooks(l: Ledger, l': Ledger)
    requires l'.account == l.account && l'.fills == l.fills && l'.orders.Keys == l.orders.Keys && Gateway.Evolves(l.orders, l'.orders)
    ensures SameBooks(l, l')
  {
    hide Val;
    forall id | id in l.orders ensures SameBinding(l.orders[id], l'.orders[id]) {
      assert RowEvolves(l.orders[id], l'.orders[id]);
    }
  }

  /** A new order is bound as its positions decide. */
  lemma {:induction false} SubmitDirected(c: Config, origin: Account, l: Ledger, intent: OrderIntent, orderId: Id, now: Time)
    requires Directed(c.divide, origin, l) && UniqueCommands(l.orders) && Submit(l, intent, c.profiles, orderId, now).Ok?
    ensures Directed(c.divide, origin, Submit(l, intent, c.profiles, orderId, now).value.ledger)
  {
    hide Run, Submit, FillIdentities, OrdersMatchFills, Binds, ActsAs;
    var next := Submit(l, intent, c.profiles, orderId, now).value.ledger;
    NewOrderKeeps(c, origin, l, intent, orderId, now);
    if forall id :: id in l.orders ==> l.orders[id].order.intent.commandId != intent.commandId {
      NewCommand(c.divide, origin, l, intent, c.profiles, orderId, now);
      DecidedBinds(c.divide, origin, l, intent, next.orders[orderId].order);
      assert InputsOf(next) == InputsOf(l);
    } else {
      KnownCommand(c, l, intent, orderId, now);
    }
  }

  lemma {:induction false} KnownCommand(c: Config, l: Ledger, intent: OrderIntent, orderId: Id, now: Time)
    requires UniqueCommands(l.orders) && Submit(l, intent, c.profiles, orderId, now).Ok?
    requires exists id :: id in l.orders && l.orders[id].order.intent.commandId == intent.commandId
    ensures Submit(l, intent, c.profiles, orderId, now).value.ledger == l
  {
    hide ValidateUnits, IntentOk, StoredIntent, UniqueCommands;
    assert HasCommand(l.orders, intent.commandId);
  }

  lemma {:induction false} DecidedBinds(divide: (real, real) -> real, origin: Account, l: Ledger, intent: OrderIntent, o: Order)
    requires LedgerInv(divide, origin, l) && Decided(l.account.positions, intent, o) && o.intent.side == intent.side
    ensures Binds(l.account, o)
  {
    hide Run, FillIdentities, OrdersMatchFills, LedgerOk, FindTrade, Val;
    if o.reduceOnly {
      InputsDistinct(l);
      ReachableOk(divide, origin, InputsOf(l));
      var p :| p in l.account.positions && Opposes(p, intent.symbol, intent.side);
      PositionAt(origin, l.account, Run(divide, origin, InputsOf(l)).value.1, p.symbol, p);
    }
  }

  lemma {:induction false} PutDirected(divide: (real, real) -> real, origin: Account, l: Ledger, id: Id, order: Order)
    requires Directed(divide, origin, l) && id in l.orders
    requires var o := l.orders[id].order;
      order.orderId == o.orderId && order.intent == o.intent && order.filledQuantity == o.filledQuantity
      && order.reduceOnly == o.reduceOnly && order.boundTradeId == o.boundTradeId
    ensures Directed(divide, origin, PutOrder(l, id, order))
  {
    hide LedgerInv, AllAct, Run;
    PutOrderKeeps(divide, origin, l, id, order);
    RowsDirected(divide, origin, l, PutOrder(l, id, order));
  }

  lemma {:induction false} TurnDirected(m: Market, origin: Account, b: Books, id: Id, candle: Candle)
    requires Directed(m.divide, origin, b.ledger) && Ready(b, id) && ObserveOrder(m, b, id, candle).Ok?
    ensures Directed(m.divide, origin, ObserveOrder(m, b, id, candle).value.ledger)
  {
    hide Settled, Directed, ProposeFill, Val, Seen, Expected, IntentOk;
    var o := b.ledger.orders[id].order;
    if !Seen(o, candle.timestamp) {
      var p := ProposeFill(m, b.ledger.account, o, candle);
      var next := if p.None? then b else Settled(m, b, id, p.value).value;
      if p.Some? {
        ProposalNames(m, b.ledger.account, o, candle);
        SettledDirected(m, origin, b, id, p.value);
        SettledOthers(m, b, id, p.value);
      }
      PutDirected(m.divide, origin, next.ledger, id, next.ledger.orders[id].order.(lastObservationAt := Some(candle.timestamp)));
    }
  }

  lemma {:induction false} SettledDirected(m: Market, origin: Account, b: Books, id: Id, event: ExecutionEvent)
    requires Directed(m.divide, origin, b.ledger) && id in b.ledger.orders && Settled(m, b, id, event).Ok?
    ensures Directed(m.divide, origin, Settled(m, b, id, event).value.ledger)
  {
    hide Admit, Directed, Soft;
    var r := Admit(m.divide, b.ledger, event, m.profile, true);
    if r.Ok? {
      AdmitDirected(m.divide, origin, b.ledger, event, m.profile, true);
    } else {
      PutDirected(m.divide, origin, b.ledger, id,
                  b.ledger.orders[id].order.(submissionStatus := Rejected, rejectionReason := Some(FillRefused(r.error))));
    }
  }

  lemma {:induction false} OrdersDirected(m: Market, origin: Account, b: Books, ids: seq<Id>, candle: Candle)
    requires Directed(m.divide, origin, b.ledger) && AllReady(b, ids) && ObserveOrders(m, b, ids, candle).Ok?
    ensures Directed(m.divide, origin, ObserveOrders(m, b, ids, candle).value.ledger)
    decreases |ids|
  {
    hide Directed, ObserveOrder, Ready, AllReady;
    if ids != [] {
      var k := |ids| - 1;
      ReadyPrefix(b, ids, k);
      OrdersStep(m, b, ids, candle, k);
      assert ids[..k + 1] == ids;
      OrdersDirected(m, origin, b, ids[..k], candle);
      TurnDirected(m, origin, ObserveOrders(m, b, ids[..k], candle).value, ids[k], candle);
    }
  }

  lemma {:induction false} CandlesDirected(m: Market, origin: Account, b: Books, hot: seq<Id>, candles: seq<Candle>)
    requires Directed(m.divide, origin, b.ledger) && AllReady(b, hot) && ObserveCandles(m, b, hot, candles).Ok?
    ensures Directed(m.divide, origin, ObserveCandles(m, b, hot, candles).value.0.ledger)
    decreases |candles|
  {
    hide Directed, ObserveOrders, AllReady, Alive, CanonicalCandle;
    if candles != [] {
      var init, last := candles[..|candles| - 1], candles[|candles| - 1];
      CandlesDirected(m, origin, b, hot, init);
      var (next, rest) := ObserveCandles(m, b, hot, init).value;
      OrdersDirected(m, origin, next, rest, last);
    }
  }

  // ---- whole runs ------------------------------------------------------------------

  /** The steps that admit nothing keep what every order is bound to. */
  lemma {:induction false} QuietDirected(c: Config, origin: Account, w: World, step: Step, w': World)
    requires ConfigOk(c) && WorldInv(c, origin, w) && Transition(c, w, step, w') && Directed(c.divide, origin, w.ledger)
    requires !step.AdmitStep? && !step.ObserveStep? && !step.SubmitStep?
    ensures Directed(c.divide, origin, w'.ledger)
  {
    hide Transition, LedgerInv, Gateway.Evolves, AllAct, Run, Sequenced, UniqueCommands, OrdersOk, DispatchOk, SameBooks;
    StepKeeps(c, origin, w, step, w');
    OnlyRows(c, w, step, w');
    EvolvedBooks(w.ledger, w'.ledger);
    RowsDirected(c.divide, origin, w.ledger, w'.ledger);
  }

  lemma {:induction false} OnlyRows(c: Config, w: World, step: Step, w': World)
    requires Transition(c, w, step, w') && !step.AdmitStep? && !step.ObserveStep? && !step.SubmitStep?
    ensures w'.ledger.account == w.ledger.account && w'.ledger.fills == w.ledger.fills && w'.ledger.orders.Keys == w.ledger.orders.Keys
  {
    hide WithReceipt, WithCancellation, PutOrder, Submit, Admit, ObserveAccount, HotList, OrdersOk, UniqueCommands;
    if (step.ReceiptStep? || step.ReconcileStep?) && step.orderId in w.ledger.orders {
      PutKeeps(w.ledger, step.orderId, WithReceipt(w.ledger.orders[step.orderId].order, step.receipt));
    } else if step.CancelledStep? && step.orderId in w.ledger.orders {
      PutKeeps(w.ledger, step.orderId, WithCancellation(w.ledger.orders[step.orderId].order, step.outcome, step.now));
    }
  }

  lemma {:induction false} PutKeeps(l: Ledger, id: Id, order: Order)
    requires id in l.orders
    ensures var l' := PutOrder(l, id, order); l'.account == l.account && l'.fills == l.fills && l'.orders.Keys == l.orders.Keys
  {
  }

  lemma {:induction false} StepDirected(c: Config, origin: Account, w: World, step: Step, w': World)
    requires ConfigOk(c) && WorldInv(c, origin, w) && Transition(c, w, step, w') && Directed(c.divide, origin, w.ledger)
    ensures Directed(c.divide, origin, w'.ledger)
  {
    hide WorldInv, Directed, Submit, Admit, ObserveCandles, OrdersOk, UniqueCommands, HotList, AllReady, Fresh;
    if step.SubmitStep? {
      if Submit(w.ledger, step.intent, c.profiles, step.orderId, step.now).Ok? {
        SubmitDirected(c, origin, w.ledger, step.intent, step.orderId, step.now);
      }
    } else if step.AdmitStep? {
      if w' != w {
        AdmitDirected(c.divide, origin, w.ledger, step.event, c.profiles[step.event.symbol], step.allow);
      }
    } else if step.ObserveStep? {
      ObserveDirected(c, origin, w, step, w');
    } else {
      QuietDirected(c, origin, w, step, w');
    }
  }

  lemma {:induction false} ObserveDirected(c: Config, origin: Account, w: World, step: Step, w': World)
    requires Transition(c, w, step, w') && step.ObserveStep? && Directed(c.divide, origin, w.ledger)
    ensures Directed(c.divide, origin, w'.ledger)
  {
    hide Directed, ObserveCandles, OrdersOk, HotList, AllReady, Fresh;
    var b := BooksOf(w, step.market);
    HotReady(b, step.market.symbol, step.hot);
    if ObserveAccount(step.market, b, step.hot).Ok? {
      CandlesDirected(step.market, origin, b, step.hot, step.market.candles);
    }
  }

  lemma {:induction false} OpeningDirected(divide: (real, real) -> real, origin: Account)
    requires LedgerInv(divide, origin, Opening(origin).ledger)
    ensures Directed(divide, origin, Opening(origin).ledger)
  {
    assert InputsOf(Opening(origin).ledger) == [];
  }

  /** From a new account on, over every interleaving: a fill leaves a trade exactly if its order is
      reduce-only, and then it leaves the trade that order was bound to when it was submitted. */
  lemma {:induction false} EveryOrderActs(c: Config, origin: Account, worlds: seq<World>, steps: seq<Step>, i: nat)
    requires ConfigOk(c) && Trace(c, worlds, steps) && worlds[0] == Opening(origin) && i <= |steps|
    ensures LedgerInv(c.divide, origin, worlds[i].ledger)
    ensures AllAct(worlds[i].ledger, Run(c.divide, origin, InputsOf(worlds[i].ledger)).value.1)
  {
    hide WorldInv, Transition, LedgerInv, AllAct, Run;
    EveryDirected(c, origin, worlds, steps, i);
  }

  lemma {:induction false} EveryDirected(c: Config, origin: Account, worlds: seq<World>, steps: seq<Step>, i: nat)
    requires ConfigOk(c) && Trace(c, worlds, steps) && worlds[0] == Opening(origin) && i <= |steps|
    ensures Directed(c.divide, origin, worlds[i].ledger)
    decreases i
  {
    hide Transition, Directed, LedgerInv, Sequenced, UniqueCommands, OrdersOk, DispatchOk;
    OpeningWorld(c, origin);
    if i == 0 {
      OpeningDirected(c.divide, origin);
    } else {
      EveryDirected(c, origin, worlds, steps, i - 1);
      RunsMoveForward(c, origin, worlds, steps, 0, i - 1);
      StepDirected(c, origin, worlds[i - 1], steps[i - 1], worlds[i]);
    }
  }
}
