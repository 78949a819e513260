/** Execution facts: events, instrument profiles, positions, trades and accounts.
    Times are microseconds since the Unix epoch. Event prices and quantities keep their
    decimal representation; every other amount is the exact number it stands for. */
module ExecutionModels {
  import opened Wrappers
  import opened DecimalPolicy

  type Id = string
  type Time = int

  datatype Side = Buy | Sell
  datatype Direction = Long | Short

  /** The reasons a fill, an order or an observation is refused. */
  datatype Fault =
    | InvalidEvent
    | ScopeMismatch
    | UnsupportedUnits
    | BelowMinimum
    | UnorderedAdmission
    | UnorderedFill
    | InsufficientBalance
    | ProfileChanged
    | OverClose
    | MissingTrade
    | InvalidProjection
    | FillConflict
    | AccountClosed
    | NeedsObservation
    | UnknownOrder
    | InstrumentMismatch
    | ContractMismatch
    | StaleReduction
    | StaleOpening
    | DuplicateEvent
    | CommandConflict
    | ObservationGap
    | MarkConflict
    | JournalConflict
    | MembershipConflict
    | ReplayMismatch
    | Unsupported
    | NotReady

  datatype InstrumentProfile = InstrumentProfile(
    reference: Id, symbol: Id,
    priceTick: real, quantityStep: real, minimumQuantity: real,
    maximumDecimalPlaces: nat, maximumSignificantDigits: nat)

  datatype ExecutionEvent = ExecutionEvent(
    eventId: Id, executionSource: Id, accountId: Id,
    orderId: Id, externalOrderId: Id, externalFillId: Id,
    symbol: Id, instrumentReference: Id, side: Side,
    price: Decimal, quantity: Decimal, fees: seq<real>,
    filledAt: Time, receivedAt: Time, sequence: int)

  datatype Position = Position(
    symbol: Id, instrumentReference: Id, direction: Direction, tradeId: Id,
    quantity: real, remainingCostBasis: real)

  datatype Trade = Trade(
    tradeId: Id, symbol: Id, direction: Direction,
    openedAt: Time, closedAt: Option<Time>,
    grossPnl: real, totalFees: real, totalEntryNotional: real,
    planReference: Option<Id>)

  datatype Account = Account(
    accountId: Id, executionSource: Id, initialBalance: real, cashBalance: real,
    createdAt: Time, updatedAt: Option<Time>,
    lastSequence: int, lastFilledAt: Option<Time>,
    positions: seq<Position>, trades: seq<Trade>)

  function SumReal(xs: seq<real>): real {
    if xs == [] then 0.0 else SumReal(xs[..|xs| - 1]) + xs[|xs| - 1]
  }

  function TotalFee(event: ExecutionEvent): real {
    SumReal(event.fees)
  }

  /** Field constraints of the event schema. */
  predicate ValidEvent(event: ExecutionEvent) {
    && Val(event.price) > 0.0 && Val(event.quantity) > 0.0
    && 1 <= |event.fees| <= 16
    && (forall i :: 0 <= i < |event.fees| ==> event.fees[i] >= 0.0)
    && event.filledAt <= event.receivedAt
    && event.sequence > 0
  }

  // ---- instrument units ------------------------------------------------------------

  predicate IsMultiple(value: real, step: real) {
    step > 0.0 && (value / step).Floor as real * step == value
  }

  predicate UnitsFit(profile: InstrumentProfile, value: Decimal, step: real) {
    && Width(value) <= 512 && Abs(value.exp) <= 512
    && Val(value) > 0.0 && IsMultiple(Val(value), step)
    && Max(0, -value.exp) <= profile.maximumDecimalPlaces
    && Width(value) <= profile.maximumSignificantDigits
  }

  /** `validate_units`: None when the price, if any, and the quantity are representable. */
  function ValidateUnits(profile: InstrumentProfile, price: Option<Decimal>, quantity: Decimal): Option<Fault> {
    if !UnitsFit(profile, quantity, profile.quantityStep) then Some(UnsupportedUnits)
    else if price.Some? && !UnitsFit(profile, price.value, profile.priceTick) then Some(UnsupportedUnits)
    else if Val(quantity) < profile.minimumQuantity then Some(BelowMinimum)
    else None
  }

  // ---- derived balances ------------------------------------------------------------

  function ReservedCollateral(positions: seq<Position>): real {
    if positions == [] then 0.0
    else ReservedCollateral(positions[..|positions| - 1]) + positions[|positions| - 1].remainingCostBasis
  }

  function AvailableBalance(account: Account): real {
    account.cashBalance - ReservedCollateral(account.positions)
  }

  function RealizedPnl(trades: seq<Trade>): real {
    if trades == [] then 0.0
    else RealizedPnl(trades[..|trades| - 1]) + trades[|trades| - 1].grossPnl
  }

  function NetPnl(trade: Trade): real {
    trade.grossPnl - trade.totalFees
  }

  /** The field constraints that every Account passes when it is validated. */
  predicate SchemaValid(account: Account) {
    && account.initialBalance > 0.0
    && account.lastSequence >= 0
    && (forall i :: 0 <= i < |account.positions| ==>
          account.positions[i].quantity >= 0.0 && account.positions[i].remainingCostBasis >= 0.0)
    && (forall i :: 0 <= i < |account.trades| ==>
          account.trades[i].totalFees >= 0.0 && account.trades[i].totalEntryNotional > 0.0)
  }

  // ---- lookups by key --------------------------------------------------------------

  /** Index of the first position for a symbol, or the length when there is none. */
  function PositionIndex(positions: seq<Position>, symbol: Id): (i: nat)
    ensures i <= |positions|
    ensures i < |positions| ==> positions[i].symbol == symbol
    ensures forall j :: 0 <= j < i ==> positions[j].symbol != symbol
  {
    if positions == [] then 0
    else
      var i := PositionIndex(positions[..|positions| - 1], symbol);
      if i < |positions| - 1 then i
      else if positions[|positions| - 1].symbol == symbol then i
      else |positions|
  }

  /** Index of the first trade with an identifier, or the length when there is none. */
  function TradeIndex(trades: seq<Trade>, tradeId: Id): (i: nat)
    ensures i <= |trades|
    ensures i < |trades| ==> trades[i].tradeId == tradeId
    ensures forall j :: 0 <= j < i ==> trades[j].tradeId != tradeId
  {
    if trades == [] then 0
    else
      var i := TradeIndex(trades[..|trades| - 1], tradeId);
      if i < |trades| - 1 then i
      else if trades[|trades| - 1].tradeId == tradeId then i
      else |trades|
  }
}
