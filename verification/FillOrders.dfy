/** Every stored fill against the order it fills, over every interleaving. */
module FillOrders {
  import opened Wrappers
  import opened DecimalPolicy
  import opened ExecutionModels
  import opened Accounting
  import opened Repository
  import opened Gateway
  import opened Observation
  import opened ObservationRuns
  import opened Protocol
  import opened SimulatedFills

  /** The fill is on its order's side and instrument, and after the order was accepted. */
  predicate Belongs(orders: map<Id, OrderRow>, e: ExecutionEvent) {
    && e.orderId in orders
    && var o := orders[e.orderId].order;
       && e.side == o.intent.side && e.symbol == o.intent.symbol && e.instrumentReference == o.instrumentReference
       && o.acceptedAt < e.filledAt
  }

  ghost predicate AllBelong(l: Ledger) {
    forall k :: 0 <= k < |l.fills| ==> Belongs(l.orders, l.fills[k])
  }

  /** The order carries the external identifier its fill was reported under. */
  predicate Agrees(orders: map<Id, OrderRow>, e: ExecutionEvent) {
    e.orderId in orders && orders[e.orderId].order.externalOrderId == Some(e.externalOrderId)
  }

  ghost predicate AllAgree(l: Ledger) {
    forall k :: 0 <= k < |l.fills| ==> Agrees(l.orders, l.fills[k])
  }

  lemma {:induction false} StillBelongs(orders: map<Id, OrderRow>, orders': map<Id, OrderRow>, e: ExecutionEvent)
    requires Belongs(orders, e) && Gateway.Evolves(orders, orders')
    ensures Belongs(orders', e)
  {
    hide Val;
    assert RowEvolves(orders[e.orderId], orders'[e.orderId]);
  }

  /** A newly admitted fill matched its order in everything. */
  lemma {:induction false} AdmittedMatches(divide: (real, real) -> real, l: Ledger, event: ExecutionEvent, profile: InstrumentProfile, allow: bool)
    requires Admit(divide, l, event, profile, allow).Ok?
    ensures var next := Admit(divide, l, event, profile, allow).value.1;
      next == l || (next.fills == l.fills + [Stored(event)] && Belongs(l.orders, Stored(event)) && Agrees(next.orders, Stored(event))
                       && SameAnswers(l.orders, next.orders))
  {
    hide ApplyFill, StaleIntent, Val, Normalize;
  }

  /** The fills a step adds match their orders in everything. */
  lemma {:induction false} NewFillsMatch(c: Config, origin: Account, w: World, step: Step, w': World, k: nat)
    requires ConfigOk(c) && WorldInv(c, origin, w) && Transition(c, w, step, w')
    requires |w.ledger.fills| <= k < |w'.ledger.fills|
    ensures Belongs(w'.ledger.orders, w'.ledger.fills[k]) && Agrees(w'.ledger.orders, w'.ledger.fills[k])
  {
    hide WorldInv, Transition, Belongs, Agrees, Admit, Evolves, SameAnswers;
    StepKeeps(c, origin, w, step, w');
    if step.AdmitStep? {
      AdmitAdds(c, w, step, w');
      StillBelongs(w.ledger.orders, w'.ledger.orders, w'.ledger.fills[k]);
    } else if step.ObserveStep? {
      ObserveAdds(c, origin, w, step, w', k);
    } else {
      NothingAdded(c, w, step, w');
    }
  }

  /** Whose fills a step changes. */
  lemma {:induction false} NothingAdded(c: Config, w: World, step: Step, w': World)
    requires Transition(c, w, step, w') && !step.AdmitStep? && !step.ObserveStep?
    ensures w'.ledger.fills == w.ledger.fills
  {
    hide ValidateUnits, IntentOk, HasCommand, WithReceipt, WithCancellation, Normalize, UniqueCommands;
  }

  lemma {:induction false} AdmitAdds(c: Config, w: World, step: Step, w': World)
    requires Transition(c, w, step, w') && step.AdmitStep?
    ensures SameAnswers(w.ledger.orders, w'.ledger.orders)
    ensures w'.ledger == w.ledger || exists e ::
      w'.ledger.fills == w.ledger.fills + [e] && Belongs(w.ledger.orders, e) && Agrees(w'.ledger.orders, e)
  {
    hide Admit, Belongs, Agrees, SameAnswers;
    SameIsSame(w.ledger.orders);
    if w' != w {
      AdmittedMatches(c.divide, w.ledger, step.event, c.profiles[step.event.symbol], step.allow);
    }
  }

  lemma {:induction false} SameIsSame(orders: map<Id, OrderRow>)
    ensures SameAnswers(orders, orders)
  {
  }

  lemma {:induction false} ObserveAdds(c: Config, origin: Account, w: World, step: Step, w': World, k: nat)
    requires WorldInv(c, origin, w) && Transition(c, w, step, w') && step.ObserveStep?
    requires |w.ledger.fills| <= k < |w'.ledger.fills|
    ensures Belongs(w'.ledger.orders, w'.ledger.fills[k]) && Agrees(w'.ledger.orders, w'.ledger.fills[k])
  {
    hide LedgerInv, UniqueCommands, Sequenced, OrdersOk, DispatchOk, Evolves, SameAnswers, ObserveCandles, HotList, AllReady, Fresh,
         Val, FilledBy, IntentOk, Reaches;
    ObserveGrows(c, origin, w, step, w');
    var l := w'.ledger;
    assert Simulated(step.market.candles, l, k);
    var e := l.fills[k];
    var o := l.orders[e.orderId].order;
    var candle :| candle in step.market.candles && FilledOn(o, FilledBy(l.fills[..k], e.orderId), candle, e);
  }

  lemma {:induction false} ObserveGrows(c: Config, origin: Account, w: World, step: Step, w': World)
    requires WorldInv(c, origin, w) && Transition(c, w, step, w') && step.ObserveStep?
    ensures SameAnswers(w.ledger.orders, w'.ledger.orders)
    ensures forall k: nat :: |w.ledger.fills| <= k < |w'.ledger.fills| ==> Simulated(step.market.candles, w'.ledger, k)
  {
    hide LedgerInv, UniqueCommands, Sequenced, OrdersOk, DispatchOk, Evolves, SameAnswers, ObserveCandles, HotList, AllReady, Fresh, Simulated;
    SameIsSame(w.ledger.orders);
    var b := BooksOf(w, step.market);
    HotReady(b, step.market.symbol, step.hot);
    if ObserveAccount(step.market, b, step.hot).Ok? {
      CandlesFill(step.market, origin, b, step.hot, step.market.candles);
    }
  }

  /** A receipt gives an order that has a fill another external identifier. Only an order still
      UNKNOWN takes one. */
  ghost predicate Renames(w: World, step: Step) {
    && Receives(step) && step.orderId in w.ledger.orders
    && w.ledger.orders[step.orderId].order.submissionStatus.Unknown?
    && w.ledger.orders[step.orderId].order.externalOrderId != step.receipt.externalOrderId
    && exists k :: 0 <= k < |w.ledger.fills| && w.ledger.fills[k].orderId == step.orderId
  }

  predicate Receives(step: Step) {
    step.ReceiptStep? || step.ReconcileStep?
  }

  lemma {:induction false} ReceiptTaken(c: Config, w: World, step: Step, w': World)
    requires Transition(c, w, step, w') && Receives(step)
    ensures step.orderId in w.ledger.orders
    ensures w'.ledger == PutOrder(w.ledger, step.orderId, WithReceipt(w.ledger.orders[step.orderId].order, step.receipt))
  {
    hide WithReceipt, PutOrder;
  }

  lemma {:induction false} CheckedName(order: Order, receipt: Receipt)
    requires order.submissionStatus.Unknown?
    ensures WithReceipt(order, receipt).externalOrderId == receipt.externalOrderId
    ensures WithReceipt(order, receipt).submissionStatus.Unknown? <==>
      receipt.status.Unknown? || (receipt.status.Acknowledged? && receipt.externalOrderId.None?)
  {
  }

  /** What a step that neither takes a receipt nor admits leaves of the rows. */
  ghost predicate Untouched(orders: map<Id, OrderRow>, orders': map<Id, OrderRow>) {
    && orders.Keys <= orders'.Keys
    && forall id :: id in orders' ==>
         if id in orders then
           && orders'[id].order.externalOrderId == orders[id].order.externalOrderId
           && orders'[id].order.submissionStatus == orders[id].order.submissionStatus
         else orders'[id].order.externalOrderId.None?
  }

  lemma {:induction false} SubmitLeaves(c: Config, l: Ledger, intent: OrderIntent, orderId: Id, now: Time)
    requires UniqueCommands(l.orders)
    ensures var r := Submit(l, intent, c.profiles, orderId, now); r.Ok? ==> Untouched(l.orders, r.value.ledger.orders)
  {
    hide ValidateUnits, IntentOk, StoredIntent, UniqueCommands, OpenPosition, Val;
  }

  lemma {:induction false} CancellationLeaves(l: Ledger, id: Id, outcome: CancelOutcome, now: Time)
    requires id in l.orders
    ensures Untouched(l.orders, PutOrder(l, id, WithCancellation(l.orders[id].order, outcome, now)).orders)
  {
    hide Val;
  }

  lemma {:induction false} SameUntouched(orders: map<Id, OrderRow>)
    ensures Untouched(orders, orders)
  {
  }

  lemma {:induction false} OtherStepLeaves(c: Config, w: World, step: Step, w': World)
    requires Transition(c, w, step, w') && !Receives(step) && !step.AdmitStep? && !step.ObserveStep?
    ensures Untouched(w.ledger.orders, w'.ledger.orders)
  {
    hide Submit, WithCancellation, PutOrder, Untouched, UniqueCommands, HotList, OrdersOk, ObserveAccount, Admit, WithReceipt;
    SameUntouched(w.ledger.orders);
    if step.SubmitStep? {
      SubmitLeaves(c, w.ledger, step.intent, step.orderId, step.now);
    } else if step.CancelledStep? {
      CancellationLeaves(w.ledger, step.orderId, step.outcome, step.now);
    }
  }

  lemma {:induction false} StillAgree(orders: map<Id, OrderRow>, orders': map<Id, OrderRow>, fills: seq<ExecutionEvent>)
    requires SameAnswers(orders, orders') && forall k :: 0 <= k < |fills| ==> Agrees(orders, fills[k])
    ensures forall k :: 0 <= k < |fills| ==> Agrees(orders', fills[k])
  {
  }

  /** A step keeps every fill under the external identifier of its order exactly if it does not
      rename a filled order. */
  lemma {:induction false} AgreeStep(c: Config, origin: Account, w: World, step: Step, w': World)
    requires ConfigOk(c) && WorldInv(c, origin, w) && Transition(c, w, step, w') && AllAgree(w.ledger)
    ensures AllAgree(w'.ledger) <==> !Renames(w, step)
  {
    hide WorldInv, Transition, SameAnswers, Evolves, Agrees;
    StepKeeps(c, origin, w, step, w');
    forall k | |w.ledger.fills| <= k < |w'.ledger.fills| ensures Agrees(w'.ledger.orders, w'.ledger.fills[k]) {
      NewFillsMatch(c, origin, w, step, w', k);
    }
    if step.AdmitStep? {
      AdmitAdds(c, w, step, w');
      StillAgree(w.ledger.orders, w'.ledger.orders, w.ledger.fills);
    } else if step.ObserveStep? {
      ObserveGrows(c, origin, w, step, w');
      StillAgree(w.ledger.orders, w'.ledger.orders, w.ledger.fills);
    } else {
      NothingAdded(c, w, step, w');
      AnswerAgrees(c, w, step, w');
    }
  }

  lemma {:induction false} AnswerAgrees(c: Config, w: World, step: Step, w': World)
    requires Transition(c, w, step, w') && !step.AdmitStep? && !step.ObserveStep?
    requires AllAgree(w.ledger) && w'.ledger.fills == w.ledger.fills
    ensures AllAgree(w'.ledger) <==> !Renames(w, step)
  {
    hide Transition, WithReceipt;
    if Receives(step) {
      ReceiptTaken(c, w, step, w');
      var order := w.ledger.orders[step.orderId].order;
      if order.submissionStatus.Unknown? {
        CheckedName(order, step.receipt);
        if Renames(w, step) {
          var k :| 0 <= k < |w.ledger.fills| && w.ledger.fills[k].orderId == step.orderId;
          assert !Agrees(w'.ledger.orders, w'.ledger.fills[k]);
        }
      } else {
        assert WithReceipt(order, step.receipt) == order by { SettledReceipt(order, step.receipt); }
      }
    } else {
      OtherStepLeaves(c, w, step, w');
    }
  }

  lemma {:induction false} SettledReceipt(order: Order, receipt: Receipt)
    requires !order.submissionStatus.Unknown?
    ensures WithReceipt(order, receipt) == order
  {
  }

  // ---- whole runs ------------------------------------------------------------------

  /** Over every interleaving every stored fill has the side, the symbol and the instrument of
      its order and came after its acceptance; and every fill has had the external identifier of
      its order at every time up to now exactly if no receipt has renamed a filled order. */
  lemma {:induction false} EveryFill(c: Config, origin: Account, worlds: seq<World>, steps: seq<Step>, i: nat)
    requires ConfigOk(c) && Trace(c, worlds, steps) && worlds[0] == Opening(origin) && i <= |steps|
    ensures AllBelong(worlds[i].ledger)
    ensures (forall j :: 0 <= j <= i ==> AllAgree(worlds[j].ledger)) <==> forall j :: 0 <= j < i ==> !Renames(worlds[j], steps[j])
    decreases i
  {
    hide WorldInv, Transition, Evolves, Belongs, AllAgree, Renames;
    if i == 0 {
      NoneAgree(worlds[0].ledger);
    } else {
      EveryFill(c, origin, worlds, steps, i - 1);
      OpeningWorld(c, origin);
      RunsMoveForward(c, origin, worlds, steps, 0, i - 1);
      var w, step, w' := worlds[i - 1], steps[i - 1], worlds[i];
      StepKeeps(c, origin, w, step, w');
      forall k | 0 <= k < |w'.ledger.fills| ensures Belongs(w'.ledger.orders, w'.ledger.fills[k]) {
        if k < |w.ledger.fills| {
          StillBelongs(w.ledger.orders, w'.ledger.orders, w.ledger.fills[k]);
        } else {
          NewFillsMatch(c, origin, w, step, w', k);
        }
      }
      if AllAgree(w.ledger) {
        AgreeStep(c, origin, w, step, w');
      }
    }
  }

  lemma {:induction false} NoneAgree(l: Ledger)
    requires l.fills == []
    ensures AllAgree(l)
  {
  }

  /** Orders still UNKNOWN have no external identifier. */
  predicate NoEarlyNames(orders: map<Id, OrderRow>) {
    forall id :: id in orders && orders[id].order.submissionStatus.Unknown? ==> orders[id].order.externalOrderId.None?
  }

  /** The provider gives no external identifier together with the status UNKNOWN. */
  predicate Plain(step: Step) {
    Receives(step) && step.receipt.status.Unknown? ==> step.receipt.externalOrderId.None?
  }

  lemma {:induction false} NoEarlyStep(c: Config, origin: Account, w: World, step: Step, w': World)
    requires ConfigOk(c) && WorldInv(c, origin, w) && Transition(c, w, step, w') && NoEarlyNames(w.ledger.orders) && Plain(step)
    ensures NoEarlyNames(w'.ledger.orders)
  {
    hide WorldInv, Transition, Evolves, SameAnswers, WithReceipt;
    StepKeeps(c, origin, w, step, w');
    if step.AdmitStep? {
      AdmitAdds(c, w, step, w');
      NoEarlyKept(w.ledger.orders, w'.ledger.orders);
    } else if step.ObserveStep? {
      ObserveGrows(c, origin, w, step, w');
      NoEarlyKept(w.ledger.orders, w'.ledger.orders);
    } else if Receives(step) {
      ReceiptTaken(c, w, step, w');
      var order := w.ledger.orders[step.orderId].order;
      if order.submissionStatus.Unknown? {
        CheckedName(order, step.receipt);
      } else {
        SettledReceipt(order, step.receipt);
      }
    } else {
      OtherStepLeaves(c, w, step, w');
    }
  }

  lemma {:induction false} NoEarlyKept(orders: map<Id, OrderRow>, orders': map<Id, OrderRow>)
    requires NoEarlyNames(orders) && SameAnswers(orders, orders') && Gateway.Evolves(orders, orders')
    ensures NoEarlyNames(orders')
  {
    hide Val;
    forall id | id in orders' && orders'[id].order.submissionStatus.Unknown? ensures orders'[id].order.externalOrderId.None? {
      assert RowEvolves(orders[id], orders'[id]);
    }
  }

  /** With such a provider every fill has the external identifier of its order at every time. */
  lemma {:induction false} PlainProviders(c: Config, origin: Account, worlds: seq<World>, steps: seq<Step>, i: nat)
    requires ConfigOk(c) && Trace(c, worlds, steps) && worlds[0] == Opening(origin) && i <= |steps|
    requires forall j :: 0 <= j < |steps| ==> Plain(steps[j])
    ensures AllAgree(worlds[i].ledger) && NoEarlyNames(worlds[i].ledger.orders)
    decreases i
  {
    hide WorldInv, Transition, Plain, AllAgree, NoEarlyNames, Renames;
    if i == 0 {
      NoneAgree(worlds[0].ledger);
      assert NoEarlyNames(worlds[0].ledger.orders) by { NoNames(worlds[0].ledger.orders); }
    } else {
      PlainProviders(c, origin, worlds, steps, i - 1);
      OpeningWorld(c, origin);
      RunsMoveForward(c, origin, worlds, steps, 0, i - 1);
      PlainKeepsNames(worlds[i - 1], steps[i - 1]);
      AgreeStep(c, origin, worlds[i - 1], steps[i - 1], worlds[i]);
      NoEarlyStep(c, origin, worlds[i - 1], steps[i - 1], worlds[i]);
    }
  }

  lemma {:induction false} NoNames(orders: map<Id, OrderRow>)
    requires orders == map[]
    ensures NoEarlyNames(orders)
  {
  }

  lemma {:induction false} PlainKeepsNames(w: World, step: Step)
    requires AllAgree(w.ledger) && NoEarlyNames(w.ledger.orders)
    ensures !Renames(w, step)
  {
  }
}
