/** The one-way average-cost allocator: a fill moves one position, one trade and cash. */
module Accounting {
  import opened Wrappers
  import opened DecimalPolicy
  import opened ExecutionModels

  /** What a fill does to the position and the trade it belongs to. */
  datatype Movement = Movement(position: Position, trade: Trade, opens: bool, gross: real)

  function Notional(event: ExecutionEvent): real {
    Val(event.price) * Val(event.quantity)
  }

  function DirectionOf(side: Side): Direction {
    if side.Buy? then Long else Short
  }

  /** Malformed and out-of-scope fills are refused first. */
  function GuardScope(account: Account, event: ExecutionEvent, profile: InstrumentProfile): Option<Fault> {
    if !SchemaValid(account) then Some(InvalidProjection)
    else if !ValidEvent(event) then Some(InvalidEvent)
    else if event.accountId != account.accountId || event.executionSource != account.executionSource
            || event.instrumentReference != profile.reference || event.symbol != profile.symbol then
      Some(ScopeMismatch)
    else None
  }

  /** Receipts must not go back in time, sequences must grow, fills must be in order. */
  function GuardOrder(account: Account, event: ExecutionEvent): Option<Fault> {
    if event.filledAt < account.createdAt || event.receivedAt < account.createdAt
       || (account.updatedAt.Some? && event.receivedAt < account.updatedAt.value) then
      Some(UnorderedAdmission)
    else if event.sequence <= account.lastSequence
            || (account.lastFilledAt.Some? && event.filledAt < account.lastFilledAt.value) then
      Some(UnorderedFill)
    else None
  }

  /** A fill in the direction of the position, or with no position open. */
  function Increase(account: Account, event: ExecutionEvent, profile: InstrumentProfile,
                    plan: Option<Id>): Result<Movement, Fault>
  {
    var index := PositionIndex(account.positions, event.symbol);
    if AvailableBalance(account) < Notional(event) + TotalFee(event) then
      Err(InsufficientBalance)
    else if index == |account.positions| || account.positions[index].quantity == 0.0 then
      var trade := Trade(event.eventId, event.symbol, DirectionOf(event.side), event.filledAt, None,
                         0.0, 0.0, Notional(event), plan);
      var position := Position(event.symbol, profile.reference, DirectionOf(event.side), trade.tradeId,
                               Val(event.quantity), Notional(event));
      Ok(Movement(position, trade, true, 0.0))
    else
      var current := account.positions[index];
      var t := TradeIndex(account.trades, current.tradeId);
      if current.instrumentReference != profile.reference then Err(ProfileChanged)
      else if t == |account.trades| then Err(MissingTrade)
      else
        var trade := account.trades[t];
        Ok(Movement(
             current.(quantity := current.quantity + Val(event.quantity),
                      remainingCostBasis := current.remainingCostBasis + Notional(event)),
             trade.(totalEntryNotional := trade.totalEntryNotional + Notional(event)),
             false, 0.0))
  }

  /** The basis a reduction releases: all of it on a full close, otherwise the rounded
      average cost times the quantity. */
  function ReleasedBasis(divide: (real, real) -> real, p: Position, quantity: real): real {
    if quantity == p.quantity then p.remainingCostBasis
    else divide(p.remainingCostBasis, p.quantity) * quantity
  }

  /** A fill against the position: its share of the cost basis is released. */
  function Reduce(divide: (real, real) -> real, account: Account, index: nat,
                  event: ExecutionEvent): Result<Movement, Fault>
    requires index < |account.positions|
  {
    var current := account.positions[index];
    var quantity := Val(event.quantity);
    var t := TradeIndex(account.trades, current.tradeId);
    if quantity > current.quantity then Err(OverClose)
    else if t == |account.trades| then Err(MissingTrade)
    else
      var closed := quantity == current.quantity;
      var released := ReleasedBasis(divide, current, quantity);
      var gross :=
        if current.direction.Long? then Notional(event) - released else released - Notional(event);
      var position := current.(
        quantity := current.quantity - quantity,
        remainingCostBasis := if closed then 0.0 else current.remainingCostBasis - released);
      var trade := account.trades[t].(
        grossPnl := account.trades[t].grossPnl + gross,
        closedAt := if closed then Some(event.filledAt) else None);
      Ok(Movement(position, trade, false, gross))
  }

  function Move(divide: (real, real) -> real, account: Account, event: ExecutionEvent,
                profile: InstrumentProfile, plan: Option<Id>): Result<Movement, Fault>
  {
    var index := PositionIndex(account.positions, event.symbol);
    if index < |account.positions| && account.positions[index].quantity != 0.0
       && account.positions[index].direction != DirectionOf(event.side)
    then Reduce(divide, account, index, event)
    else Increase(account, event, profile, plan)
  }

  function ReplaceTrade(trades: seq<Trade>, trade: Trade): (r: seq<Trade>)
    ensures |r| == |trades|
    ensures forall i :: 0 <= i < |trades| ==>
      r[i] == if trades[i].tradeId == trade.tradeId then trade else trades[i]
  {
    seq(|trades|, i requires 0 <= i < |trades| => if trades[i].tradeId == trade.tradeId then trade else trades[i])
  }

  function PutPosition(positions: seq<Position>, position: Position): seq<Position> {
    var index := PositionIndex(positions, position.symbol);
    if index < |positions| then positions[index := position] else positions + [position]
  }

  /** Book a movement into the account. */
  function Book(account: Account, event: ExecutionEvent, m: Movement): Account {
    var trade := m.trade.(totalFees := m.trade.totalFees + TotalFee(event));
    var trades := if m.opens then account.trades + [m.trade] else account.trades;
    account.(
      positions := PutPosition(account.positions, m.position),
      trades := ReplaceTrade(trades, trade),
      cashBalance := account.cashBalance + (m.gross - TotalFee(event)),
      lastSequence := event.sequence,
      lastFilledAt := Some(event.filledAt),
      updatedAt := Some(event.receivedAt))
  }

  /** The accounting transition without the representation check: it reads prices and
      quantities by value only. */
  function Settle(divide: (real, real) -> real, account: Account, event: ExecutionEvent,
                  profile: InstrumentProfile, plan: Option<Id>): Result<Account, Fault>
  {
    var scope, order := GuardScope(account, event, profile), GuardOrder(account, event);
    if scope.Some? then Err(scope.value)
    else if order.Some? then Err(order.value)
    else
      var m :- Move(divide, account, event, profile, plan);
      var next := Book(account, event, m);
      if SchemaValid(next) then Ok(next) else Err(InvalidProjection)
  }

  /** `apply_fill`: representable units are checked between scope and order. */
  function ApplyFill(divide: (real, real) -> real, account: Account, event: ExecutionEvent,
                     profile: InstrumentProfile, plan: Option<Id>): Result<Account, Fault>
  {
    var scope := GuardScope(account, event, profile);
    var units := ValidateUnits(profile, Some(event.price), event.quantity);
    if scope.Some? then Err(scope.value)
    else if units.Some? then Err(units.value)
    else Settle(divide, account, event, profile, plan)
  }
}
