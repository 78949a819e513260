/** The gateway's transactions on one account. Each is one step under the account lock;
    provider calls happen between them. The account's rows are the fields of a store that
    the transactions update in place. */
module Gateway {
  import opened Wrappers
  import opened DecimalPolicy
  import opened ExecutionModels
  import opened Accounting
  import opened Repository

  datatype Receipt = Receipt(status: SubmissionStatus, externalOrderId: Option<Id>, reason: Option<Reason>)

  predicate IntentOk(intent: OrderIntent) {
    && Val(intent.quantity) > 0.0
    && (intent.kind.Limit? <==> intent.limitPrice.Some?)
    && (intent.limitPrice.Some? ==> Val(intent.limitPrice.value) > 0.0)
  }

  /** The stored form of an intent: its Decimals are written as canonical text. */
  function StoredIntent(intent: OrderIntent): OrderIntent {
    intent.(quantity := Normalize(intent.quantity),
            limitPrice := if intent.limitPrice.Some? then Some(Normalize(intent.limitPrice.value)) else None)
  }

  // ---- submit ----------------------------------------------------------------------

  /** UNIQUE (account_id, command_id). */
  ghost predicate UniqueCommands(orders: map<Id, OrderRow>) {
    forall a, b :: a in orders && b in orders && orders[a].order.intent.commandId == orders[b].order.intent.commandId ==> a == b
  }

  predicate HasCommand(orders: map<Id, OrderRow>, commandId: Id) {
    exists id :: id in orders && orders[id].order.intent.commandId == commandId
  }

  /** The order already accepted for a command. */
  function OrderOf(orders: map<Id, OrderRow>, commandId: Id): (id: Id)
    requires UniqueCommands(orders) && HasCommand(orders, commandId)
    ensures id in orders && orders[id].order.intent.commandId == commandId
  {
    var id :| id in orders && orders[id].order.intent.commandId == commandId;
    id
  }

  /** The order a new command creates: reduce-only when it meets a position on the other
      side, and rejected at once when it would close more than that position. */
  function NewOrder(l: Ledger, intent: OrderIntent, profile: InstrumentProfile, orderId: Id, now: Time): Order {
    var position := OpenPosition(l.account.positions, intent.symbol);
    var reduceOnly := position.Some? && position.value.direction != DirectionOf(intent.side);
    var rejected := reduceOnly && Val(intent.quantity) > position.value.quantity;
    Order(orderId, StoredIntent(intent), profile.reference, now,
          if rejected then Rejected else Unknown, None, if rejected then Some(OverCloseReversal) else None,
          reduceOnly, if reduceOnly then Some(position.value.tradeId) else None, Decimal(0, 0), None, None, None)
  }

  /** What a submission decided: the order, and whether it is now dispatched to the provider. */
  datatype Submitted = Submitted(orderId: Id, dispatch: bool, ledger: Ledger)

  /** The first transaction of `submit_order`. A command already accepted is answered with
      its order, if unchanged, and never dispatched again. */
  function Submit(l: Ledger, intent: OrderIntent, profiles: map<Id, InstrumentProfile>, orderId: Id, now: Time): Result<Submitted, Fault>
    requires UniqueCommands(l.orders)
  {
    if !IntentOk(intent) then Err(InvalidEvent)
    else if intent.symbol !in profiles then Err(Unsupported)
    else
      var profile := profiles[intent.symbol];
      var units := ValidateUnits(profile, intent.limitPrice, intent.quantity);
      if units.Some? then Err(units.value)
      else if HasCommand(l.orders, intent.commandId) then
        var prior := OrderOf(l.orders, intent.commandId);
        if l.orders[prior].order.intent != StoredIntent(intent) then Err(CommandConflict)
        else Ok(Submitted(prior, false, l))
      else if !l.active then Err(AccountClosed)
      else if orderId in l.orders then Err(DuplicateEvent)
      else
        var order := NewOrder(l, intent, profile, orderId, now);
        var row := OrderRow(order, profile, l.commandSequence + 1);
        Ok(Submitted(orderId, order.submissionStatus.Unknown?,
                     l.(orders := l.orders[orderId := row], commandSequence := l.commandSequence + 1)))
  }

  // ---- receipts --------------------------------------------------------------------

  /** An acknowledgment without an external identifier is not one. */
  function Checked(receipt: Receipt): Receipt {
    if receipt.status.Acknowledged? && receipt.externalOrderId.None?
    then Receipt(Unknown, None, Some(Provider("invalid provider acknowledgment")))
    else receipt
  }

  /** `_save_submission`: only an order still UNKNOWN takes a receipt. */
  function WithReceipt(order: Order, receipt: Receipt): Order {
    var checked := Checked(receipt);
    if !order.submissionStatus.Unknown? then order
    else
      order.(submissionStatus := checked.status, externalOrderId := checked.externalOrderId, rejectionReason := checked.reason)
  }

  function PutOrder(l: Ledger, orderId: Id, order: Order): Ledger
    requires orderId in l.orders
  {
    l.(orders := l.orders[orderId := l.orders[orderId].(order := order)])
  }

  // ---- cancellation ----------------------------------------------------------------

  /** The last transaction of `cancel_order`. */
  function WithCancellation(order: Order, outcome: CancelOutcome, now: Time): Order {
    var answered := order.(cancellationStatus := Some(outcome));
    if outcome.CancelDone? && Val(order.filledQuantity) < Val(order.intent.quantity)
    then answered.(cancelledAt := if order.cancelledAt.Some? then order.cancelledAt else Some(now))
    else answered
  }

  /** The status shown for a cancelled order says so. */
  predicate CancellationAgrees(order: Order) {
    order.cancelledAt.Some? ==> order.cancellationStatus == Some(CancelDone)
  }

  /** The answers of two concurrent cancellations may arrive in either order, and the later
      one overwrites the status: a cancelled order keeps saying so exactly when the answer is
      CANCELLED or the order was not cancelled before. */
  lemma {:induction false} LateAnswerDisagrees(order: Order, outcome: CancelOutcome, now: Time)
    ensures CancellationAgrees(WithCancellation(order, outcome, now)) <==> outcome.CancelDone? || order.cancelledAt.None?
    ensures order.cancelledAt.Some? ==> WithCancellation(order, outcome, now).cancelledAt == order.cancelledAt
    ensures var o := order.(cancelledAt := Some(now), cancellationStatus := Some(CancelDone));
      CancellationAgrees(o) && !CancellationAgrees(WithCancellation(o, CancelUnknown, now))
  {
    hide Val;
  }

  // ---- how an order may change -----------------------------------------------------

  /** The intent and its binding are fixed. A status other than UNKNOWN and its external
      identifier stay, except that a refused fill rejects an acknowledged order. The filled
      quantity never shrinks, a cancellation time is set at most once, and observation moves
      forward. */
  ghost predicate RowEvolves(r: OrderRow, r': OrderRow) {
    var o, o' := r.order, r'.order;
    && r'.profile == r.profile && r'.commandSequence == r.commandSequence
    && o'.orderId == o.orderId && o'.intent == o.intent && o'.instrumentReference == o.instrumentReference
    && o'.acceptedAt == o.acceptedAt && o'.reduceOnly == o.reduceOnly && o'.boundTradeId == o.boundTradeId
    && (!o.submissionStatus.Unknown? ==> o'.externalOrderId == o.externalOrderId)
    && (!o.submissionStatus.Unknown? ==>
          || (o'.submissionStatus == o.submissionStatus && o'.rejectionReason == o.rejectionReason)
          || (o.submissionStatus.Acknowledged? && o'.submissionStatus.Rejected?
              && o'.rejectionReason.Some? && o'.rejectionReason.value.FillRefused?))
    && (o'.submissionStatus.Acknowledged? && o.submissionStatus.Unknown? ==> o'.externalOrderId.Some?)
    && Val(o.filledQuantity) <= Val(o'.filledQuantity)
    && (o.cancelledAt.Some? ==> o'.cancelledAt == o.cancelledAt)
    && (o.lastObservationAt.Some? ==> o'.lastObservationAt.Some? && o.lastObservationAt.value <= o'.lastObservationAt.value)
  }

  ghost predicate Evolves(orders: map<Id, OrderRow>, orders': map<Id, OrderRow>) {
    forall id :: id in orders ==> id in orders' && RowEvolves(orders[id], orders'[id])
  }

  lemma {:induction false} EvolvesTransitive(a: map<Id, OrderRow>, b: map<Id, OrderRow>, c: map<Id, OrderRow>)
    requires Evolves(a, b) && Evolves(b, c)
    ensures Evolves(a, c)
  {
    hide Val;
    forall id | id in a ensures id in c && RowEvolves(a[id], c[id]) {
      assert RowEvolves(a[id], b[id]) && RowEvolves(b[id], c[id]);
    }
  }

  lemma {:induction false} ReceiptEvolves(row: OrderRow, receipt: Receipt)
    ensures RowEvolves(row, row.(order := WithReceipt(row.order, receipt)))
  {
    hide Val;
  }

  lemma {:induction false} CancellationEvolves(row: OrderRow, outcome: CancelOutcome, now: Time)
    ensures RowEvolves(row, row.(order := WithCancellation(row.order, outcome, now)))
  {
    hide Val;
  }

  /** A fill only adds to the filled quantity of its own order. */
  lemma {:induction false} FilledEvolves(row: OrderRow, event: ExecutionEvent)
    requires Val(event.quantity) > 0.0
    ensures RowEvolves(row, Filled(row, event))
    ensures Val(Filled(row, event).order.filledQuantity) == Val(row.order.filledQuantity) + Val(event.quantity)
  {
    hide Scaled, Normalize, Add;
    NormalizeValue(Add(row.order.filledQuantity, event.quantity));
    AddIsExact(row.order.filledQuantity, event.quantity);
  }

  // ---- the rows, updated in place --------------------------------------------------

  class Store {
    var account: Account
    var orders: map<Id, OrderRow>
    var fills: seq<ExecutionEvent>
    var commandSequence: nat
    var active: bool

    function Contents(): Ledger
      reads this
    {
      Ledger(account, orders, fills, commandSequence, active)
    }

    constructor (l: Ledger)
      ensures Contents() == l
    {
      account, orders, fills, commandSequence, active := l.account, l.orders, l.fills, l.commandSequence, l.active;
    }

    /** The order to dispatch or to return, or the refusal. */
    method SubmitOrder(intent: OrderIntent, profiles: map<Id, InstrumentProfile>, orderId: Id, now: Time)
      returns (r: Result<(Id, bool), Fault>)
      requires UniqueCommands(orders)
      modifies this`orders, this`commandSequence
      ensures var s := Submit(old(Contents()), intent, profiles, orderId, now);
        if s.Err? then r == Err(s.error) && Contents() == old(Contents())
        else r == Ok((s.value.orderId, s.value.dispatch)) && Contents() == s.value.ledger
    {
      if !IntentOk(intent) {
        return Err(InvalidEvent);
      }
      if intent.symbol !in profiles {
        return Err(Unsupported);
      }
      var profile := profiles[intent.symbol];
      var units := ValidateUnits(profile, intent.limitPrice, intent.quantity);
      if units.Some? {
        return Err(units.value);
      }
      if HasCommand(orders, intent.commandId) {
        var prior := OrderOf(orders, intent.commandId);
        if orders[prior].order.intent != StoredIntent(intent) {
          return Err(CommandConflict);
        }
        return Ok((prior, false));
      }
      if !active {
        return Err(AccountClosed);
      }
      if orderId in orders {
        return Err(DuplicateEvent);
      }
      var order := NewOrder(Contents(), intent, profile, orderId, now);
      commandSequence := commandSequence + 1;
      orders := orders[orderId := OrderRow(order, profile, commandSequence)];
      return Ok((orderId, order.submissionStatus.Unknown?));
    }

    method SaveSubmission(orderId: Id, receipt: Receipt)
      requires orderId in orders
      modifies this`orders
      ensures Contents() == PutOrder(old(Contents()), orderId, WithReceipt(old(orders[orderId].order), receipt))
    {
      var row := orders[orderId];
      if row.order.submissionStatus.Unknown? {
        var checked := Checked(receipt);
        var order := row.order.(
          submissionStatus := checked.status, externalOrderId := checked.externalOrderId, rejectionReason := checked.reason);
        orders := orders[orderId := row.(order := order)];
      } else {
        assert orders == orders[orderId := row];
      }
    }

    method SaveCancellation(orderId: Id, outcome: CancelOutcome, now: Time) returns (fault: Option<Fault>)
      requires orderId in orders
      modifies this`orders
      ensures if active then fault.None? && Contents() == PutOrder(old(Contents()), orderId, WithCancellation(old(orders[orderId].order), outcome, now))
              else fault == Some(AccountClosed) && Contents() == old(Contents())
    {
      if !active {
        return Some(AccountClosed);
      }
      var row := orders[orderId];
      var order := row.order.(cancellationStatus := Some(outcome));
      if outcome.CancelDone? && Val(order.filledQuantity) < Val(order.intent.quantity) && order.cancelledAt.None? {
        order := order.(cancelledAt := Some(now));
      }
      orders := orders[orderId := row.(order := order)];
      return None;
    }

    /** Admission updates the fill table, the order row and the account together. */
    method AdmitFill(divide: (real, real) -> real, event: ExecutionEvent, profile: InstrumentProfile, allowNewFill: bool)
      returns (r: Result<ExecutionEvent, Fault>)
      modifies this`account, this`orders, this`fills
      ensures var a := Admit(divide, old(Contents()), event, profile, allowNewFill);
        if a.Err? then r == Err(a.error) && Contents() == old(Contents())
        else r == Ok(a.value.0) && Contents() == a.value.1
    {
      hide ApplyFill, Economic, Stored, MatchesOrder, StaleIntent, Filled;
      if !ValidEvent(event) {
        return Err(InvalidEvent);
      }
      if event.executionSource != account.executionSource || event.accountId != account.accountId {
        return Err(ScopeMismatch);
      }
      var prior := FillIndex(fills, event.externalFillId);
      if prior < |fills| {
        if Economic(fills[prior]) != Economic(event) {
          return Err(FillConflict);
        }
        return Ok(fills[prior]);
      }
      if !active {
        return Err(AccountClosed);
      }
      if !allowNewFill {
        return Err(NeedsObservation);
      }
      if event.orderId !in orders {
        return Err(UnknownOrder);
      }
      var row := orders[event.orderId];
      if profile.reference != row.profile.reference {
        return Err(InstrumentMismatch);
      }
      if !MatchesOrder(row.order, event) {
        return Err(ContractMismatch);
      }
      var stale := StaleIntent(account, row.order, event);
      if stale.Some? {
        return Err(stale.value);
      }
      var updated := ApplyFill(divide, account, event, row.profile, row.order.intent.planReference);
      if updated.Err? {
        return Err(updated.error);
      }
      if HasEvent(fills, event.eventId) {
        return Err(DuplicateEvent);
      }
      fills := fills + [Stored(event)];
      orders := orders[event.orderId := Filled(row, event)];
      account := updated.value;
      return Ok(event);
    }
  }
}
