/** When a command is rejected at once, and when a fill of an accepted order is refused. */
module OrderGuards {
  import opened Wrappers
  import opened DecimalPolicy
  import opened ExecutionModels
  import opened Accounting
  import opened TradeProjection
  import opened LedgerInvariant
  import opened Repository
  import opened Gateway
  import opened ObservationRuns
  import opened Observation
  import opened Protocol

  /** A position that holds something of a symbol on the other side. */
  predicate Opposes(p: Position, symbol: Id, side: Side) {
    p.symbol == symbol && p.quantity != 0.0 && (p.direction.Long? <==> side.Sell?)
  }

  lemma {:induction false} OpenPositionIs(positions: seq<Position>, symbol: Id)
    requires DistinctPositions(positions)
    ensures forall p :: p in positions && p.symbol == symbol && p.quantity != 0.0 <==> OpenPosition(positions, symbol) == Some(p)
    decreases |positions|
  {
    if positions != [] {
      OpenPositionIs(positions[..|positions| - 1], symbol);
    }
  }

  lemma {:induction false} ReachablePositions(divide: (real, real) -> real, origin: Account, l: Ledger)
    requires LedgerInv(divide, origin, l)
    ensures DistinctPositions(l.account.positions)
  {
    hide Run, OrdersMatchFills, TradeOk;
    InputsDistinct(l);
    ReachableOk(divide, origin, InputsOf(l));
  }

  // ---- submission ------------------------------------------------------------------

  /** A new command in any reachable ledger becomes one order under its own identifier. It is
      reduce-only exactly if it meets a position on the other side, then bound to that position's
      trade, and rejected at once, so never dispatched, exactly if it is for more than that
      position holds. */
  lemma {:induction false} NewCommand(divide: (real, real) -> real, origin: Account, l: Ledger, intent: OrderIntent,
                                      profiles: map<Id, InstrumentProfile>, orderId: Id, now: Time)
    requires LedgerInv(divide, origin, l) && UniqueCommands(l.orders)
    requires Submit(l, intent, profiles, orderId, now).Ok?
    requires forall id :: id in l.orders ==> l.orders[id].order.intent.commandId != intent.commandId
    ensures var s := Submit(l, intent, profiles, orderId, now).value; var rows := s.ledger.orders;
      && s.orderId == orderId && orderId !in l.orders && rows.Keys == l.orders.Keys + {orderId}
      && (forall id :: id in l.orders ==> rows[id] == l.orders[id])
      && s.ledger.account == l.account && s.ledger.fills == l.fills
      && Asked(rows[orderId].order, intent, now) && intent.symbol in profiles && rows[orderId].profile == profiles[intent.symbol]
      && Decided(l.account.positions, intent, rows[orderId].order)
      && (s.dispatch <==> rows[orderId].order.submissionStatus.Unknown?)
  {
    hide ValidateUnits, Normalize, LedgerInv, OpenPosition, Val, UniqueCommands, IntentOk;
    ReachablePositions(divide, origin, l);
    OpenPositionIs(l.account.positions, intent.symbol);
    assert !HasCommand(l.orders, intent.commandId);
    NormalizeValue(intent.quantity);
    if intent.limitPrice.Some? {
      NormalizeValue(intent.limitPrice.value);
    }
    ZeroFilled();
  }

  lemma {:induction false} ZeroFilled()
    ensures Val(Decimal(0, 0)) == 0.0
  {
  }

  /** The order asks for what was commanded, and nothing has happened to it. */
  predicate Asked(o: Order, intent: OrderIntent, now: Time) {
    && o.intent.commandId == intent.commandId && o.intent.symbol == intent.symbol && o.intent.side == intent.side
    && o.intent.kind == intent.kind && o.intent.planReference == intent.planReference
    && Val(o.intent.quantity) == Val(intent.quantity)
    && (o.intent.limitPrice.Some? <==> intent.limitPrice.Some?)
    && (intent.limitPrice.Some? ==> Val(o.intent.limitPrice.value) == Val(intent.limitPrice.value))
    && o.acceptedAt == now && Val(o.filledQuantity) == 0.0 && o.externalOrderId.None? && o.cancelledAt.None?
    && o.cancellationStatus.None? && o.lastObservationAt.None?
  }

  /** The decision made from the positions at submission. */
  ghost predicate Decided(positions: seq<Position>, intent: OrderIntent, o: Order) {
    && (o.reduceOnly <==> exists p :: p in positions && Opposes(p, intent.symbol, intent.side))
    && (forall p :: p in positions && Opposes(p, intent.symbol, intent.side) ==> o.boundTradeId == Some(p.tradeId))
    && (!o.reduceOnly ==> o.boundTradeId.None?)
    && (o.submissionStatus.Rejected? <==>
          exists p :: p in positions && Opposes(p, intent.symbol, intent.side) && p.quantity < Val(intent.quantity))
    && (o.submissionStatus.Rejected? || o.submissionStatus.Unknown?)
    && o.rejectionReason == if o.submissionStatus.Rejected? then Some(OverCloseReversal) else None
  }

  /** Two intents ask for the same, however their numbers are written. */
  predicate SameIntent(a: OrderIntent, b: OrderIntent) {
    && a.symbol == b.symbol && a.side == b.side && a.kind == b.kind && a.planReference == b.planReference
    && Val(a.quantity) == Val(b.quantity)
    && (a.limitPrice.Some? <==> b.limitPrice.Some?)
    && (a.limitPrice.Some? && b.limitPrice.Some? ==> Val(a.limitPrice.value) == Val(b.limitPrice.value))
  }

  lemma {:induction false} SameStored(a: OrderIntent, b: OrderIntent)
    requires a.commandId == b.commandId
    ensures StoredIntent(a) == StoredIntent(b) <==> SameIntent(a, b)
  {
    hide Normalize, Val;
    NormalizeIsCanonical(a.quantity, b.quantity);
    if a.limitPrice.Some? && b.limitPrice.Some? {
      NormalizeIsCanonical(a.limitPrice.value, b.limitPrice.value);
    }
  }

  /** A command accepted at any time, sent again at any later time by an intent the instrument
      accepts: if it asks for the same it is answered with its order and changes and dispatches
      nothing, otherwise it is refused. */
  lemma {:induction false} RepeatedCommand(c: Config, origin: Account, worlds: seq<World>, steps: seq<Step>, i: nat, j: nat,
                                           intent: OrderIntent, orderId: Id, at: Time, again: OrderIntent, otherId: Id, now: Time)
    requires ConfigOk(c) && Trace(c, worlds, steps) && WorldInv(c, origin, worlds[0]) && i < j <= |steps|
    requires steps[i] == SubmitStep(intent, orderId, at) && orderId !in worlds[i].ledger.orders && orderId in worlds[i + 1].ledger.orders
    requires again.commandId == intent.commandId && IntentOk(again) && again.symbol in c.profiles
    requires ValidateUnits(c.profiles[again.symbol], again.limitPrice, again.quantity).None?
    ensures UniqueCommands(worlds[j].ledger.orders)
    ensures Submit(worlds[j].ledger, again, c.profiles, otherId, now)
         == if SameIntent(intent, again) then Ok(Submitted(orderId, false, worlds[j].ledger)) else Err(CommandConflict)
  {
    hide WorldInv, Transition, Evolves, ValidateUnits, IntentOk, StoredIntent, UniqueCommands, SameIntent;
    var l := worlds[j].ledger;
    assert Transition(c, worlds[i], steps[i], worlds[i + 1]);
    AcceptedAs(c, worlds[i], steps[i], worlds[i + 1]);
    RunsMoveForward(c, origin, worlds, steps, i + 1, j);
    CommandsUnique(c, origin, worlds[j]);
    SameCommand(worlds[i + 1].ledger.orders, l.orders, orderId);
    SameStored(intent, again);
    StoredCommand(intent);
    assert HasCommand(l.orders, again.commandId);
    OnlyOrder(l.orders, again.commandId, orderId);
  }

  lemma {:induction false} CommandsUnique(c: Config, origin: Account, w: World)
    requires WorldInv(c, origin, w)
    ensures UniqueCommands(w.ledger.orders)
  {
    hide LedgerInv, OrdersOk, Sequenced, DispatchOk;
  }

  lemma {:induction false} AcceptedAs(c: Config, w: World, step: Step, w': World)
    requires Transition(c, w, step, w') && step.SubmitStep? && step.orderId !in w.ledger.orders && step.orderId in w'.ledger.orders
    ensures w'.ledger.orders[step.orderId].order.intent == StoredIntent(step.intent)
  {
    hide ValidateUnits, IntentOk, StoredIntent, UniqueCommands, OpenPosition, Val;
  }

  lemma {:induction false} SameCommand(orders: map<Id, OrderRow>, orders': map<Id, OrderRow>, id: Id)
    requires Gateway.Evolves(orders, orders') && id in orders
    ensures id in orders' && orders'[id].order.intent == orders[id].order.intent
  {
    hide Val;
    assert RowEvolves(orders[id], orders'[id]);
  }

  lemma {:induction false} StoredCommand(intent: OrderIntent)
    ensures StoredIntent(intent).commandId == intent.commandId
  {
    hide Normalize;
  }

  lemma {:induction false} OnlyOrder(orders: map<Id, OrderRow>, commandId: Id, id: Id)
    requires UniqueCommands(orders) && id in orders && orders[id].order.intent.commandId == commandId
    ensures HasCommand(orders, commandId) && OrderOf(orders, commandId) == id
  {
  }

  // ---- admission -------------------------------------------------------------------

  /** The fill is the order's, and fits in what is left of it. */
  predicate Fits(o: Order, e: ExecutionEvent) {
    && o.externalOrderId == Some(e.externalOrderId)
    && e.symbol == o.intent.symbol && e.side == o.intent.side && e.instrumentReference == o.instrumentReference
    && o.acceptedAt < e.filledAt
    && Val(o.filledQuantity) + Val(e.quantity) <= Val(o.intent.quantity)
  }

  /** The trade a reduction was bound to still holds as much. */
  ghost predicate StillHeld(positions: seq<Position>, o: Order, e: ExecutionEvent) {
    exists p :: p in positions && p.symbol == e.symbol && p.quantity != 0.0 && o.boundTradeId == Some(p.tradeId) && Val(e.quantity) <= p.quantity
  }

  /** A valid fill in scope that is not known yet, of a known order on its instrument. */
  predicate Arrives(l: Ledger, e: ExecutionEvent, profile: InstrumentProfile) {
    && ValidEvent(e) && e.accountId == l.account.accountId && e.executionSource == l.account.executionSource
    && (forall i :: 0 <= i < |l.fills| ==> l.fills[i].externalFillId != e.externalFillId)
    && l.active && e.orderId in l.orders && profile.reference == l.orders[e.orderId].profile.reference
  }

  /** It is refused as not the order's exactly if it does not fit the order; a fitting fill of a
      reduce-only order is refused as stale exactly if the trade it was bound to no longer holds
      as much, and one of another order exactly if it meets a position on the other side. */
  lemma {:induction false} FillGuards(divide: (real, real) -> real, origin: Account, l: Ledger, e: ExecutionEvent, profile: InstrumentProfile)
    requires LedgerInv(divide, origin, l) && Arrives(l, e, profile)
    ensures var r := Admit(divide, l, e, profile, true); var o := l.orders[e.orderId].order;
      && (r == Err(ContractMismatch) <==> !Fits(o, e))
      && (r == Err(StaleReduction) <==> Fits(o, e) && o.reduceOnly && !StillHeld(l.account.positions, o, e))
      && (r == Err(StaleOpening) <==> Fits(o, e) && !o.reduceOnly && exists p :: p in l.account.positions && Opposes(p, e.symbol, e.side))
  {
    hide LedgerInv, ApplyFill, Val, Normalize, ValidEvent, OpenPosition, Add;
    ReachablePositions(divide, origin, l);
    OpenPositionIs(l.account.positions, e.symbol);
    var o := l.orders[e.orderId].order;
    AddIsExact(o.filledQuantity, e.quantity);
    OtherFaults(divide, l.account, e, l.orders[e.orderId].profile, o.intent.planReference);
  }

  lemma {:induction false} OtherFaults(divide: (real, real) -> real, s: Account, e: ExecutionEvent, profile: InstrumentProfile, plan: Option<Id>)
    ensures var r := ApplyFill(divide, s, e, profile, plan);
      r.Err? ==> !r.error.ContractMismatch? && !r.error.StaleReduction? && !r.error.StaleOpening?
  {
    hide SchemaValid, ValidEvent, Val, Notional, TotalFee, AvailableBalance, PositionIndex, TradeIndex, Book;
  }
}
