/** What a provider's answers do to an order, and nothing else does. */
module Answers {
  import opened Wrappers
  import opened DecimalPolicy
  import opened ExecutionModels
  import opened Repository
  import opened Gateway
  import opened Protocol
  import opened SimulatedFills
  import opened FillOrders

  /** What a receipt says of the submission: acknowledged only with an external identifier. */
  function Said(receipt: Receipt): SubmissionStatus {
    match receipt.status
    case Acknowledged => if receipt.externalOrderId.Some? then Acknowledged else Unknown
    case Rejected => Rejected
    case Unknown => Unknown
  }

  /** The order took the receipt, and is otherwise what it was. */
  predicate TookReceipt(o: Order, receipt: Receipt, o': Order) {
    && o'.submissionStatus == Said(receipt) && o'.externalOrderId == receipt.externalOrderId
    && o'.rejectionReason == (if Said(receipt) == receipt.status then receipt.reason else Some(Provider("invalid provider acknowledgment")))
    && o'.(submissionStatus := o.submissionStatus, externalOrderId := o.externalOrderId, rejectionReason := o.rejectionReason) == o
  }

  /** The order was cancelled if it was asked to and not filled by then, keeping the first time,
      and is otherwise what it was. */
  predicate TookCancellation(o: Order, outcome: CancelOutcome, now: Time, o': Order) {
    && o'.cancellationStatus == Some(outcome)
    && o'.cancelledAt == (if o.cancelledAt.None? && outcome == CancelDone && Val(o.intent.quantity) > Val(o.filledQuantity) then Some(now) else o.cancelledAt)
    && o'.(cancellationStatus := o.cancellationStatus, cancelledAt := o.cancelledAt) == o
  }

  lemma {:induction false} ReceiptTakes(order: Order, receipt: Receipt)
    requires order.submissionStatus.Unknown?
    ensures TookReceipt(order, receipt, WithReceipt(order, receipt))
  {
  }

  lemma {:induction false} CancellationTakes(order: Order, outcome: CancelOutcome, now: Time)
    ensures TookCancellation(order, outcome, now, WithCancellation(order, outcome, now))
  {
    hide Val;
  }

  /** Only the row of an order changed. */
  ghost predicate OnlyRow(w: World, w': World, id: Id) {
    && id in w.ledger.orders && w'.ledger.orders.Keys == w.ledger.orders.Keys
    && (forall other :: other in w.ledger.orders && other != id ==> w'.ledger.orders[other] == w.ledger.orders[other])
    && w'.ledger == w.ledger.(orders := w'.ledger.orders)
    && w'.ledger.orders[id] == w.ledger.orders[id].(order := w'.ledger.orders[id].order)
  }

  /** A receipt is taken by an order still UNKNOWN and by no other. */
  lemma {:induction false} ReceiptMoves(c: Config, w: World, step: Step, w': World)
    requires Transition(c, w, step, w') && Receives(step)
    ensures OnlyRow(w, w', step.orderId)
    ensures var o, o' := w.ledger.orders[step.orderId].order, w'.ledger.orders[step.orderId].order;
      if o.submissionStatus.Unknown? then TookReceipt(o, step.receipt, o') else o' == o
  {
    hide Transition, WithReceipt, TookReceipt;
    ReceiptTaken(c, w, step, w');
    var o := w.ledger.orders[step.orderId].order;
    if o.submissionStatus.Unknown? {
      ReceiptTakes(o, step.receipt);
    } else {
      SettledReceipt(o, step.receipt);
    }
  }

  /** The answer to a cancellation is taken while the account is active. */
  lemma {:induction false} CancellationMoves(c: Config, w: World, step: Step, w': World)
    requires Transition(c, w, step, w') && step.CancelledStep?
    ensures OnlyRow(w, w', step.orderId)
    ensures var o, o' := w.ledger.orders[step.orderId].order, w'.ledger.orders[step.orderId].order;
      if w.ledger.active then TookCancellation(o, step.outcome, step.now, o') else o' == o
  {
    hide WithCancellation, TookCancellation;
    if w.ledger.active {
      CancellationTakes(w.ledger.orders[step.orderId].order, step.outcome, step.now);
    }
  }

  lemma {:induction false} QuietStep(c: Config, w: World, step: Step, w': World, id: Id)
    requires Transition(c, w, step, w') && id in w.ledger.orders
    requires !Receives(step) && !step.CancelledStep? && !step.AdmitStep? && !step.ObserveStep?
    ensures id in w'.ledger.orders && w'.ledger.orders[id] == w.ledger.orders[id]
  {
    hide Submit, UniqueCommands;
    if step.SubmitStep? {
      SubmitKeepsRow(c, w.ledger, step.intent, step.orderId, step.now, id);
    }
  }

  lemma {:induction false} SubmitKeepsRow(c: Config, l: Ledger, intent: OrderIntent, orderId: Id, now: Time, id: Id)
    requires UniqueCommands(l.orders) && id in l.orders
    ensures var r := Submit(l, intent, c.profiles, orderId, now);
      r.Ok? ==> id in r.value.ledger.orders && r.value.ledger.orders[id] == l.orders[id]
  {
    hide ValidateUnits, IntentOk, StoredIntent, UniqueCommands, OpenPosition, Val;
  }

  /** Over every step an order becomes cancelled exactly if an active account takes the answer
      CANCELLED for it before it is filled, and then at the time of that answer. */
  lemma {:induction false} CancelledExactly(c: Config, origin: Account, w: World, step: Step, w': World, id: Id)
    requires ConfigOk(c) && WorldInv(c, origin, w) && Transition(c, w, step, w')
    requires id in w.ledger.orders && w.ledger.orders[id].order.cancelledAt.None?
    ensures id in w'.ledger.orders
    ensures var o, o' := w.ledger.orders[id].order, w'.ledger.orders[id].order;
      && (o'.cancelledAt.Some? <==>
            step.CancelledStep? && step.orderId == id && w.ledger.active && step.outcome == CancelDone
            && FilledBy(w.ledger.fills, id) < Val(o.intent.quantity))
      && (o'.cancelledAt.Some? ==> o'.cancelledAt == Some(step.now))
  {
    hide Transition, WorldInv, Val, FilledBy, SameAnswers;
    FilledIsSumOfFills(c, origin, w, id);
    if step.CancelledStep? {
      CancellationMoves(c, w, step, w');
    } else if Receives(step) {
      ReceiptMoves(c, w, step, w');
    } else if step.AdmitStep? {
      AdmitAdds(c, w, step, w');
      AnswerSame(w.ledger.orders, w'.ledger.orders, id);
    } else if step.ObserveStep? {
      ObserveGrows(c, origin, w, step, w');
      AnswerSame(w.ledger.orders, w'.ledger.orders, id);
    } else {
      QuietStep(c, w, step, w', id);
    }
  }

  lemma {:induction false} AnswerSame(orders: map<Id, OrderRow>, orders': map<Id, OrderRow>, id: Id)
    requires SameAnswers(orders, orders') && id in orders
    ensures id in orders' && SameAnswer(orders[id].order, orders'[id].order)
  {
  }
}
