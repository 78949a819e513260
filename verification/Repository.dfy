/** The ledger of one account: immutable fills, order rows and the account projection, and
    the idempotent admission of a fill. A table is a map or a sequence; one transaction
    under the account lock is one step. */
module Repository {
  import opened Wrappers
  import opened DecimalPolicy
  import opened ExecutionModels
  import opened Accounting
  import opened TradeProjection
  import opened LedgerInvariant

  datatype OrderKind = Market | Limit
  datatype SubmissionStatus = Acknowledged | Rejected | Unknown
  datatype CancelOutcome = CancelDone | CancelRejected | CancelUnknown

  /** Why an order is rejected. */
  datatype Reason = OverCloseReversal | Provider(text: string) | FillRefused(fault: Fault)

  datatype OrderIntent = OrderIntent(
    commandId: Id, symbol: Id, side: Side, kind: OrderKind,
    quantity: Decimal, limitPrice: Option<Decimal>, planReference: Option<Id>)

  datatype Order = Order(
    orderId: Id, intent: OrderIntent, instrumentReference: Id, acceptedAt: Time,
    submissionStatus: SubmissionStatus, externalOrderId: Option<Id>, rejectionReason: Option<Reason>,
    reduceOnly: bool, boundTradeId: Option<Id>, filledQuantity: Decimal,
    cancelledAt: Option<Time>, cancellationStatus: Option<CancelOutcome>, lastObservationAt: Option<Time>)

  datatype OrderRow = OrderRow(order: Order, profile: InstrumentProfile, commandSequence: nat)

  datatype Ledger = Ledger(
    account: Account, orders: map<Id, OrderRow>, fills: seq<ExecutionEvent>,
    commandSequence: nat, active: bool)

  // ---- stored form -----------------------------------------------------------------

  /** The payload a fill is stored as: its Decimals are written as canonical text. */
  function Stored(event: ExecutionEvent): ExecutionEvent {
    event.(price := Normalize(event.price), quantity := Normalize(event.quantity))
  }

  /** Economic content: everything except the delivery identity and the receipt time. */
  function Economic(event: ExecutionEvent): ExecutionEvent {
    Stored(event).(eventId := "", receivedAt := 0)
  }

  lemma {:induction false} StoredValues(event: ExecutionEvent)
    ensures Val(Stored(event).price) == Val(event.price)
    ensures Val(Stored(event).quantity) == Val(event.quantity)
    ensures Stored(Stored(event)) == Stored(event)
  {
    NormalizeValue(event.price);
    NormalizeValue(event.quantity);
    NormalizeIsCanonical(Normalize(event.price), event.price);
    NormalizeIsCanonical(Normalize(event.quantity), event.quantity);
  }

  /** Movements read a fill by value. */
  lemma {:induction false} MoveStored(divide: (real, real) -> real, s: Account, event: ExecutionEvent,
                                      profile: InstrumentProfile, plan: Option<Id>)
    ensures Move(divide, s, Stored(event), profile, plan) == Move(divide, s, event, profile, plan)
    ensures TotalFee(Stored(event)) == TotalFee(event)
  {
    hide Scaled, Normalize, Notional, ReleasedBasis, AvailableBalance, PositionIndex, TradeIndex;
    StoredValues(event);
    StoredNotional(event);
    var i := PositionIndex(s.positions, event.symbol);
    assert Increase(s, Stored(event), profile, plan) == Increase(s, event, profile, plan);
    if i < |s.positions| {
      assert Reduce(divide, s, i, Stored(event)) == Reduce(divide, s, i, event);
    }
  }

  lemma {:induction false} StoredNotional(event: ExecutionEvent)
    ensures Notional(Stored(event)) == Notional(event)
  {
    hide Scaled, Normalize;
    StoredValues(event);
  }

  /** The accounting transition cannot tell a fill from its stored payload. */
  lemma {:induction false} SettleStored(divide: (real, real) -> real, s: Account, event: ExecutionEvent,
                                        profile: InstrumentProfile, plan: Option<Id>)
    ensures Settle(divide, s, Stored(event), profile, plan) == Settle(divide, s, event, profile, plan)
  {
    hide Scaled, Normalize, Move, TotalFee;
    StoredValues(event);
    MoveStored(divide, s, event, profile, plan);
  }

  // ---- lookups ---------------------------------------------------------------------

  function FillIndex(fills: seq<ExecutionEvent>, externalFillId: Id): (i: nat)
    ensures i <= |fills|
    ensures i < |fills| ==> fills[i].externalFillId == externalFillId
    ensures forall j :: 0 <= j < i ==> fills[j].externalFillId != externalFillId
  {
    if fills == [] then 0
    else
      var i := FillIndex(fills[..|fills| - 1], externalFillId);
      if i < |fills| - 1 then i
      else if fills[|fills| - 1].externalFillId == externalFillId then i
      else |fills|
  }

  /** The first position for a symbol that holds anything, or None. */
  function OpenPosition(positions: seq<Position>, symbol: Id): Option<Position> {
    if positions == [] then None
    else
      var earlier := OpenPosition(positions[..|positions| - 1], symbol);
      var last := positions[|positions| - 1];
      if earlier.Some? then earlier
      else if last.symbol == symbol && last.quantity != 0.0 then Some(last)
      else None
  }

  predicate HasEvent(fills: seq<ExecutionEvent>, eventId: Id) {
    exists i :: 0 <= i < |fills| && fills[i].eventId == eventId
  }

  // ---- admission -------------------------------------------------------------------

  /** The fill must match the order it names, and fit in what is left of it. */
  predicate MatchesOrder(order: Order, event: ExecutionEvent) {
    && order.externalOrderId == Some(event.externalOrderId)
    && order.intent.symbol == event.symbol
    && order.instrumentReference == event.instrumentReference
    && order.intent.side == event.side
    && event.filledAt > order.acceptedAt
    && Val(Add(order.filledQuantity, event.quantity)) <= Val(order.intent.quantity)
  }

  /** A reduction must still meet the position it was bound to; an opening order must not
      meet a position on the other side. */
  function StaleIntent(account: Account, order: Order, event: ExecutionEvent): Option<Fault> {
    var position := OpenPosition(account.positions, event.symbol);
    if order.reduceOnly
       && (position.None? || Some(position.value.tradeId) != order.boundTradeId
           || position.value.quantity < Val(event.quantity)) then
      Some(StaleReduction)
    else if !order.reduceOnly && position.Some? && position.value.direction != DirectionOf(event.side) then
      Some(StaleOpening)
    else None
  }

  function Filled(row: OrderRow, event: ExecutionEvent): OrderRow {
    row.(order := row.order.(filledQuantity := Normalize(Add(row.order.filledQuantity, event.quantity))))
  }

  /** A fill not seen before. */
  function AdmitNew(divide: (real, real) -> real, l: Ledger, event: ExecutionEvent,
                    profile: InstrumentProfile, allowNewFill: bool): Result<Ledger, Fault>
  {
    if !l.active then Err(AccountClosed)
    else if !allowNewFill then Err(NeedsObservation)
    else if event.orderId !in l.orders then Err(UnknownOrder)
    else
      var row := l.orders[event.orderId];
      if profile.reference != row.profile.reference then Err(InstrumentMismatch)
      else if !MatchesOrder(row.order, event) then Err(ContractMismatch)
      else
        var stale := StaleIntent(l.account, row.order, event);
        if stale.Some? then Err(stale.value)
        else
          var updated :- ApplyFill(divide, l.account, event, row.profile, row.order.intent.planReference);
          if HasEvent(l.fills, event.eventId) then Err(DuplicateEvent)
          else
            Ok(l.(account := updated, fills := l.fills + [Stored(event)],
                  orders := l.orders[event.orderId := Filled(row, event)]))
  }

  /** `admit`: a fill already known by its external identifier is returned as first stored
      when its economic content is unchanged, and refused otherwise. */
  function Admit(divide: (real, real) -> real, l: Ledger, event: ExecutionEvent,
                 profile: InstrumentProfile, allowNewFill: bool): Result<(ExecutionEvent, Ledger), Fault>
  {
    if !ValidEvent(event) then Err(InvalidEvent)
    else if event.executionSource != l.account.executionSource || event.accountId != l.account.accountId then
      Err(ScopeMismatch)
    else
      var prior := FillIndex(l.fills, event.externalFillId);
      if prior < |l.fills| then
        if Economic(l.fills[prior]) != Economic(event) then Err(FillConflict)
        else Ok((l.fills[prior], l))
      else
        var next :- AdmitNew(divide, l, event, profile, allowNewFill);
        Ok((event, next))
  }

  // ---- invariant -------------------------------------------------------------------

  ghost predicate FillsHaveOrders(l: Ledger) {
    forall i :: 0 <= i < |l.fills| ==> l.fills[i].orderId in l.orders
  }

  /** The inputs of a replay: each stored fill with the profile and plan of its order. */
  function InputAt(l: Ledger, i: nat): Input
    requires FillsHaveOrders(l) && i < |l.fills|
  {
    var row := l.orders[l.fills[i].orderId];
    Input(l.fills[i], row.profile, row.order.intent.planReference)
  }

  function InputsOf(l: Ledger): (r: seq<Input>)
    requires FillsHaveOrders(l)
    ensures |r| == |l.fills|
    ensures forall i :: 0 <= i < |r| ==> r[i] == InputAt(l, i)
  {
    seq(|l.fills|, i requires 0 <= i < |l.fills| => InputAt(l, i))
  }

  function FilledBy(fills: seq<ExecutionEvent>, orderId: Id): real {
    if fills == [] then 0.0
    else
      var last := fills[|fills| - 1];
      FilledBy(fills[..|fills| - 1], orderId) + (if last.orderId == orderId then Val(last.quantity) else 0.0)
  }

  /** The account is the fold of the stored fills, and nothing else. */
  ghost predicate ProjectsFills(divide: (real, real) -> real, origin: Account, l: Ledger) {
    && FillsHaveOrders(l)
    && Run(divide, origin, InputsOf(l)).Ok?
    && Run(divide, origin, InputsOf(l)).value.0 == l.account
  }

  ghost predicate FillIdentities(fills: seq<ExecutionEvent>) {
    && (forall i, j :: 0 <= i < j < |fills| ==> fills[i].eventId != fills[j].eventId)
    && (forall i, j :: 0 <= i < j < |fills| ==> fills[i].externalFillId != fills[j].externalFillId)
    && (forall i :: 0 <= i < |fills| ==> Stored(fills[i]) == fills[i])
  }

  /** The filled quantity of every order is the sum of its admitted fills, never above the intent. */
  ghost predicate OrdersMatchFills(l: Ledger) {
    forall id :: id in l.orders ==>
      && l.orders[id].order.orderId == id
      && Val(l.orders[id].order.filledQuantity) == FilledBy(l.fills, id)
      && FilledBy(l.fills, id) <= Val(l.orders[id].order.intent.quantity)
  }

  ghost predicate LedgerInv(divide: (real, real) -> real, origin: Account, l: Ledger) {
    ProjectsFills(divide, origin, l) && FillIdentities(l.fills) && OrdersMatchFills(l)
  }

  lemma {:induction false} FilledByAppend(fills: seq<ExecutionEvent>, e: ExecutionEvent, id: Id)
    ensures FilledBy(fills + [e], id) == FilledBy(fills, id) + (if e.orderId == id then Val(e.quantity) else 0.0)
  {
    assert (fills + [e])[..|fills|] == fills;
  }

  lemma {:induction false} RunAppend(divide: (real, real) -> real, origin: Account, inputs: seq<Input>, input: Input)
    requires DistinctEvents(inputs + [input])
    requires Run(divide, origin, inputs).Ok?
    requires Settle(divide, Run(divide, origin, inputs).value.0, input.event, input.profile, input.plan).Ok?
    ensures Run(divide, origin, inputs + [input]).Ok?
    ensures Run(divide, origin, inputs + [input]).value.0
         == Settle(divide, Run(divide, origin, inputs).value.0, input.event, input.profile, input.plan).value
  {
    hide Settle, LedgerOk, MemberOf;
    var all := inputs + [input];
    assert all[..|all| - 1] == inputs;
    MembershipNeverMissing(divide, origin, all);
  }

  lemma {:induction false} InputsDistinct(l: Ledger)
    requires FillsHaveOrders(l) && FillIdentities(l.fills)
    ensures DistinctEvents(InputsOf(l))
  {
  }

  /** A new fill extends the fold by one input. */
  lemma {:induction false} AdmitNewProjects(divide: (real, real) -> real, origin: Account, l: Ledger,
                                            event: ExecutionEvent, profile: InstrumentProfile, allow: bool, next: Ledger)
    requires LedgerInv(divide, origin, l)
    requires AdmitNew(divide, l, event, profile, allow) == Ok(next)
    requires FillIdentities(next.fills)
    ensures ProjectsFills(divide, origin, next)
  {
    hide Run, Settle, Normalize, Scaled, MatchesOrder, StaleIntent, FilledBy;
    var row := l.orders[event.orderId];
    var input := Input(Stored(event), row.profile, row.order.intent.planReference);
    assert next.orders[event.orderId].profile == row.profile;
    assert InputsOf(next) == InputsOf(l) + [input];
    InputsDistinct(next);
    ApplyFillSettles(divide, l.account, event, row.profile, row.order.intent.planReference);
    SettleStored(divide, l.account, event, row.profile, row.order.intent.planReference);
    RunAppend(divide, origin, InputsOf(l), input);
  }

  lemma {:induction false} ApplyFillSettles(divide: (real, real) -> real, s: Account, event: ExecutionEvent,
                                            profile: InstrumentProfile, plan: Option<Id>)
    ensures var r := ApplyFill(divide, s, event, profile, plan);
      r.Ok? ==>
        && r == Settle(divide, s, event, profile, plan)
        && ValidateUnits(profile, Some(event.price), event.quantity).None?
        && ValidEvent(event)
  {
    hide Settle;
  }

  /** Admission, repeated or new, keeps the ledger invariant. */
  lemma {:induction false} AdmitKeeps(divide: (real, real) -> real, origin: Account, l: Ledger, event: ExecutionEvent,
                                      profile: InstrumentProfile, allow: bool)
    requires LedgerInv(divide, origin, l) && Admit(divide, l, event, profile, allow).Ok?
    ensures LedgerInv(divide, origin, Admit(divide, l, event, profile, allow).value.1)
  {
    hide Run, Settle, ApplyFill, Normalize, Scaled, StaleIntent, FilledBy;
    var next := Admit(divide, l, event, profile, allow).value.1;
    if next != l {
      StoredValues(event);
      assert FillIdentities(next.fills);
      AdmitNewProjects(divide, origin, l, event, profile, allow, next);
      forall id | id in next.orders
        ensures next.orders[id].order.orderId == id
             && Val(next.orders[id].order.filledQuantity) == FilledBy(next.fills, id)
             && FilledBy(next.fills, id) <= Val(next.orders[id].order.intent.quantity)
      {
        FilledByAppend(l.fills, Stored(event), id);
        if id == event.orderId {
          NormalizeValue(Add(l.orders[id].order.filledQuantity, event.quantity));
          AddIsExact(l.orders[id].order.filledQuantity, event.quantity);
        }
      }
    }
  }

  /** Idempotence: a fill that was admitted is returned as stored on every later delivery,
      whatever event identifier and receipt time it carries, and the ledger does not move. */
  lemma {:induction false} RepeatedAdmissionIsIdle(divide: (real, real) -> real, l: Ledger, event: ExecutionEvent, again: ExecutionEvent,
                                                   profile: InstrumentProfile, profile': InstrumentProfile, allow: bool, allow': bool)
    requires Admit(divide, l, event, profile, allow).Ok?
    requires Economic(again) == Economic(event) && ValidEvent(again)
    ensures var next := Admit(divide, l, event, profile, allow).value.1;
      var i := FillIndex(next.fills, event.externalFillId);
      && i < |next.fills|
      && Admit(divide, next, again, profile', allow') == Ok((next.fills[i], next))
      && Economic(next.fills[i]) == Economic(event)
  {
    hide ApplyFill, Normalize, Scaled, StaleIntent, MatchesOrder;
    var next := Admit(divide, l, event, profile, allow).value.1;
    assert again.externalFillId == event.externalFillId && again.accountId == event.accountId
        && again.executionSource == event.executionSource by { assert Economic(again) == Economic(event); }
    if next != l {
      StoredValues(event);
      assert next.fills[|l.fills|] == Stored(event);
      AdmittedScope(divide, l, event, profile, allow);
    }
  }

  lemma {:induction false} AdmittedScope(divide: (real, real) -> real, l: Ledger, event: ExecutionEvent,
                                         profile: InstrumentProfile, allow: bool)
    requires Admit(divide, l, event, profile, allow).Ok?
    ensures var next := Admit(divide, l, event, profile, allow).value.1;
      next.account.accountId == l.account.accountId && next.account.executionSource == l.account.executionSource
  {
    hide Move;
  }

  // ---- surviving storage -----------------------------------------------------------

  /** The digits of the stored form still fit the instrument. */
  predicate DigitsSurvive(profile: InstrumentProfile, event: ExecutionEvent) {
    && Width(Normalize(event.price)) <= profile.maximumSignificantDigits
    && Width(Normalize(event.quantity)) <= profile.maximumSignificantDigits
  }

  lemma {:induction false} UnitsOfStored(profile: InstrumentProfile, d: Decimal, step: real)
    requires UnitsFit(profile, d, step) && profile.maximumSignificantDigits <= 512
    ensures UnitsFit(profile, Normalize(d), step) <==> Width(Normalize(d)) <= profile.maximumSignificantDigits
  {
    hide Scaled;
    NormalizeValue(d);
    if d.exp <= 0 {
      NormalizeShrinks(d);
    }
  }

  /** A fill that the instrument accepted is accepted again from storage exactly when its
      positional digits fit, which always holds without positive exponents. */
  lemma {:induction false} StoredUnits(profile: InstrumentProfile, event: ExecutionEvent)
    requires ValidateUnits(profile, Some(event.price), event.quantity).None?
    requires profile.maximumSignificantDigits <= 512
    ensures ValidateUnits(profile, Some(Stored(event).price), Stored(event).quantity).None?
      <==> DigitsSurvive(profile, event)
    ensures event.price.exp <= 0 && event.quantity.exp <= 0 ==> DigitsSurvive(profile, event)
  {
    hide Scaled, Normalize;
    UnitsOfStored(profile, event.price, profile.priceTick);
    UnitsOfStored(profile, event.quantity, profile.quantityStep);
    StoredValues(event);
    if event.price.exp <= 0 && event.quantity.exp <= 0 {
      NormalizeShrinks(event.price);
      NormalizeShrinks(event.quantity);
    }
  }
}
