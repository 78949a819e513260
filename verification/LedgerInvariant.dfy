/** What every reachable account satisfies, whatever `divide` rounds to. */
module LedgerInvariant {
  import opened Wrappers
  import opened DecimalPolicy
  import opened ExecutionModels
  import opened Accounting
  import opened TradeProjection

  ghost predicate DistinctTrades(trades: seq<Trade>) {
    forall i, j :: 0 <= i < j < |trades| ==> trades[i].tradeId != trades[j].tradeId
  }

  ghost predicate DistinctPositions(positions: seq<Position>) {
    forall i, j :: 0 <= i < j < |positions| ==>
      positions[i].symbol != positions[j].symbol && positions[i].tradeId != positions[j].tradeId
  }

  /** Index of the position bound to a trade, or the length when there is none. */
  function BoundIndex(positions: seq<Position>, tradeId: Id): (i: nat)
    ensures i <= |positions|
    ensures i < |positions| ==> positions[i].tradeId == tradeId
    ensures forall j :: 0 <= j < i ==> positions[j].tradeId != tradeId
  {
    if positions == [] then 0
    else
      var i := BoundIndex(positions[..|positions| - 1], tradeId);
      if i < |positions| - 1 then i
      else if positions[|positions| - 1].tradeId == tradeId then i
      else |positions|
  }

  /** Quantity still held for a trade; nothing once its position is bound elsewhere. */
  function Remaining(positions: seq<Position>, tradeId: Id): real {
    var i := BoundIndex(positions, tradeId);
    if i < |positions| then positions[i].quantity else 0.0
  }

  function Basis(positions: seq<Position>, tradeId: Id): real {
    var i := BoundIndex(positions, tradeId);
    if i < |positions| then positions[i].remainingCostBasis else 0.0
  }

  function Signed(direction: Direction, amount: real): real {
    if direction.Long? then amount else -amount
  }

  /** A trade agrees with its own fills: notionals, fees and quantities are their exact sums,
      and the gross result is the exit notional minus the basis released so far. */
  ghost predicate TradeOk(t: Trade, events: seq<ExecutionEvent>, remaining: real, basis: real) {
    var entry, exit := EntrySide(t.direction), ExitSide(t.direction);
    && events != [] && events[0].eventId == t.tradeId && events[0].side == entry
    && t.openedAt == events[0].filledAt
    && t.totalEntryNotional == NotionalOn(events, entry)
    && t.totalFees == FeesOf(events)
    && QuantityOn(events, entry) > 0.0
    && QuantityOn(events, entry) - QuantityOn(events, exit) == remaining
    && remaining >= 0.0
    && (t.closedAt.Some? <==> remaining == 0.0)
    && (t.closedAt.Some? ==> t.closedAt.value == events[|events| - 1].filledAt && basis == 0.0)
    && t.grossPnl == Signed(t.direction, NotionalOn(events, exit) - (NotionalOn(events, entry) - basis))
  }

  function NetOf(trades: seq<Trade>): real {
    if trades == [] then 0.0 else NetOf(trades[..|trades| - 1]) + NetPnl(trades[|trades| - 1])
  }

  ghost predicate BoundOk(p: Position, trades: seq<Trade>) {
    var t := TradeIndex(trades, p.tradeId);
    && t < |trades| && trades[t].symbol == p.symbol && trades[t].direction == p.direction
    && (p.quantity == 0.0 <==> trades[t].closedAt.Some?)
  }

  ghost predicate LedgerOk(origin: Account, s: Account, members: seq<Member>) {
    && s.accountId == origin.accountId && s.executionSource == origin.executionSource
    && s.initialBalance == origin.initialBalance && s.createdAt == origin.createdAt
    && DistinctTrades(s.trades)
    && DistinctPositions(s.positions)
    && (forall i :: 0 <= i < |s.positions| ==> BoundOk(s.positions[i], s.trades))
    && (forall j :: 0 <= j < |s.trades| ==>
          TradeOk(s.trades[j], EventsOf(members, s.trades[j].tradeId),
                  Remaining(s.positions, s.trades[j].tradeId), Basis(s.positions, s.trades[j].tradeId)))
    && (forall k :: 0 <= k < |members| ==> TradeIndex(s.trades, members[k].tradeId) < |s.trades|)
    && s.cashBalance == s.initialBalance + NetOf(s.trades)
  }

  ghost predicate FreshEvent(event: ExecutionEvent, members: seq<Member>) {
    forall i :: 0 <= i < |members| ==> members[i].event.eventId != event.eventId
  }

  ghost predicate DistinctEvents(inputs: seq<Input>) {
    forall i, j :: 0 <= i < j < |inputs| ==> inputs[i].event.eventId != inputs[j].event.eventId
  }

  lemma {:induction false} EventsOfMembers(members: seq<Member>, id: Id, i: nat)
    requires i < |EventsOf(members, id)|
    ensures exists k :: 0 <= k < |members| && members[k].event == EventsOf(members, id)[i] && members[k].tradeId == id
    decreases |members|
  {
    var init := members[..|members| - 1];
    if i < |EventsOf(init, id)| {
      EventsOfMembers(init, id, i);
      var k :| 0 <= k < |init| && init[k].event == EventsOf(init, id)[i] && init[k].tradeId == id;
      assert members[k].event == EventsOf(members, id)[i];
    } else {
      assert members[|members| - 1].event == EventsOf(members, id)[i];
    }
  }

  /** A fresh event identifier is not yet the identifier of a trade. */
  lemma {:induction false} FreshTrade(origin: Account, s: Account, members: seq<Member>, event: ExecutionEvent)
    requires LedgerOk(origin, s, members) && FreshEvent(event, members)
    ensures forall j :: 0 <= j < |s.trades| ==> s.trades[j].tradeId != event.eventId
  {
    forall j | 0 <= j < |s.trades| ensures s.trades[j].tradeId != event.eventId {
      EventsOfMembers(members, s.trades[j].tradeId, 0);
    }
  }

  lemma {:induction false} NetAppend(trades: seq<Trade>, t: Trade)
    ensures NetOf(trades + [t]) == NetOf(trades) + NetPnl(t)
  {
    assert (trades + [t])[..|trades|] == trades;
  }

  lemma {:induction false} NetUpdate(trades: seq<Trade>, k: nat, t: Trade)
    requires k < |trades|
    ensures NetOf(trades[k := t]) == NetOf(trades) - NetPnl(trades[k]) + NetPnl(t)
    decreases |trades|
  {
    var n := |trades| - 1;
    if k == n {
      assert trades[k := t][..n] == trades[..n];
    } else {
      NetUpdate(trades[..n], k, t);
      assert trades[k := t][..n] == trades[..n][k := t];
    }
  }

  lemma {:induction false} EventsAppend(members: seq<Member>, m: Member, id: Id)
    ensures EventsOf(members + [m], id)
         == EventsOf(members, id) + (if m.tradeId == id then [m.event] else [])
  {
    assert (members + [m])[..|members|] == members;
  }

  lemma {:induction false} SumsAppend(events: seq<ExecutionEvent>, e: ExecutionEvent, side: Side)
    ensures QuantityOn(events + [e], side)
         == QuantityOn(events, side) + (if e.side == side then Val(e.quantity) else 0.0)
    ensures NotionalOn(events + [e], side)
         == NotionalOn(events, side) + (if e.side == side then Notional(e) else 0.0)
    ensures FeesOf(events + [e]) == FeesOf(events) + TotalFee(e)
  {
    assert (events + [e])[..|events|] == events;
  }

  /** The trade a movement books, fees included, and where it sits in the new account. */
  function BookedTrade(event: ExecutionEvent, m: Movement): Trade {
    m.trade.(totalFees := m.trade.totalFees + TotalFee(event))
  }

  lemma {:induction false} BookTrades(s: Account, event: ExecutionEvent, m: Movement)
    requires DistinctTrades(s.trades)
    requires m.opens ==> TradeIndex(s.trades, m.trade.tradeId) == |s.trades|
    requires !m.opens ==> TradeIndex(s.trades, m.trade.tradeId) < |s.trades|
    ensures Book(s, event, m).trades ==
      if m.opens then s.trades + [BookedTrade(event, m)]
      else s.trades[TradeIndex(s.trades, m.trade.tradeId) := BookedTrade(event, m)]
  {
    var k := TradeIndex(s.trades, m.trade.tradeId);
    if m.opens {
      assert Book(s, event, m).trades == s.trades + [BookedTrade(event, m)];
    } else {
      forall i | 0 <= i < |s.trades| && i != k ensures s.trades[i].tradeId != m.trade.tradeId {
        if i < k { assert s.trades[i].tradeId != s.trades[k].tradeId; }
      }
      assert Book(s, event, m).trades == s.trades[k := BookedTrade(event, m)];
    }
  }

  /** What is left of a trade is not changed by writing another trade's position, provided
      the overwritten slot was empty or belonged to the written trade. */
  lemma {:induction false} RemainingElsewhere(positions: seq<Position>, p: Position, id: Id)
    requires DistinctPositions(positions) && id != p.tradeId
    requires forall i :: 0 <= i < |positions| && positions[i].tradeId == p.tradeId ==> positions[i].symbol == p.symbol
    requires var i := PositionIndex(positions, p.symbol);
      i < |positions| && positions[i].tradeId != p.tradeId ==>
        positions[i].quantity == 0.0 && positions[i].remainingCostBasis == 0.0
    ensures Remaining(PutPosition(positions, p), id) == Remaining(positions, id)
    ensures Basis(PutPosition(positions, p), id) == Basis(positions, id)
  {
    var after := PutPosition(positions, p);
    var i, k := PositionIndex(positions, p.symbol), BoundIndex(positions, id);
    if k < |positions| && k != i {
      assert after[k] == positions[k];
    }
  }

  lemma {:induction false} RemainingHere(positions: seq<Position>, p: Position)
    requires DistinctPositions(positions)
    requires forall i :: 0 <= i < |positions| && positions[i].tradeId == p.tradeId ==> positions[i].symbol == p.symbol
    ensures DistinctPositions(PutPosition(positions, p))
    ensures Remaining(PutPosition(positions, p), p.tradeId) == p.quantity
    ensures Basis(PutPosition(positions, p), p.tradeId) == p.remainingCostBasis
    ensures PositionIndex(PutPosition(positions, p), p.symbol) < |PutPosition(positions, p)|
    ensures PutPosition(positions, p)[PositionIndex(PutPosition(positions, p), p.symbol)] == p
  {
    var after := PutPosition(positions, p);
    var i := PositionIndex(positions, p.symbol);
    assert after[i] == p;
    forall j | 0 <= j < |after| && j != i
      ensures after[j].symbol != p.symbol && after[j].tradeId != p.tradeId
    {
      assert after[j] == positions[j];
    }
    assert BoundIndex(after, p.tradeId) == i;
    assert PositionIndex(after, p.symbol) == i;
  }

  // ---- one fill --------------------------------------------------------------------

  lemma {:induction false} BoundToPosition(positions: seq<Position>, i: nat)
    requires DistinctPositions(positions) && i < |positions|
    ensures BoundIndex(positions, positions[i].tradeId) == i
    ensures PositionIndex(positions, positions[i].symbol) == i
  {
    assert BoundIndex(positions, positions[i].tradeId) <= i;
    assert PositionIndex(positions, positions[i].symbol) <= i;
  }

  lemma {:induction false} TradeAt(trades: seq<Trade>, j: nat)
    requires DistinctTrades(trades) && j < |trades|
    ensures TradeIndex(trades, trades[j].tradeId) == j
  {
    assert TradeIndex(trades, trades[j].tradeId) <= j;
  }

  /** The slot a movement writes: the trade is new over an empty or flat slot, or it is the
      open trade of the symbol's position. */
  ghost predicate Lands(s: Account, event: ExecutionEvent, m: Movement) {
    var i := PositionIndex(s.positions, event.symbol);
    && m.position.symbol == m.trade.symbol == event.symbol
    && m.position.tradeId == m.trade.tradeId && m.position.direction == m.trade.direction
    && (m.opens ==>
          && m.trade.tradeId == event.eventId
          && (i < |s.positions| ==> s.positions[i].quantity == 0.0 && s.positions[i].remainingCostBasis == 0.0))
    && (!m.opens ==>
          && i < |s.positions| && s.positions[i].tradeId == m.trade.tradeId
          && TradeIndex(s.trades, m.trade.tradeId) < |s.trades|)
  }

  /** A flat position holds no basis. */
  lemma {:induction false} FlatHasNoBasis(origin: Account, s: Account, members: seq<Member>, i: nat)
    requires LedgerOk(origin, s, members) && i < |s.positions|
    ensures var p := s.positions[i]; var t := TradeIndex(s.trades, p.tradeId);
      && BoundOk(p, s.trades)
      && TradeOk(s.trades[t], EventsOf(members, p.tradeId), p.quantity, p.remainingCostBasis)
      && (p.quantity == 0.0 ==> p.remainingCostBasis == 0.0)
  {
    BoundToPosition(s.positions, i);
    assert BoundOk(s.positions[i], s.trades);
    var t := TradeIndex(s.trades, s.positions[i].tradeId);
    assert TradeOk(s.trades[t], EventsOf(members, s.trades[t].tradeId),
                   Remaining(s.positions, s.trades[t].tradeId), Basis(s.positions, s.trades[t].tradeId));
  }

  lemma {:induction false} MoveLands(divide: (real, real) -> real, origin: Account, s: Account, members: seq<Member>,
                  event: ExecutionEvent, profile: InstrumentProfile, plan: Option<Id>, m: Movement)
    requires LedgerOk(origin, s, members)
    requires Move(divide, s, event, profile, plan) == Ok(m)
    ensures Lands(s, event, m)
  {
    hide EventsOf, QuantityOn, NotionalOn, FeesOf, NetOf;
    var i := PositionIndex(s.positions, event.symbol);
    if i < |s.positions| {
      FlatHasNoBasis(origin, s, members, i);
    }
  }

  /** Opening: the trade's only fill is this one. */
  lemma {:induction false} OpenedOk(divide: (real, real) -> real, s: Account, event: ExecutionEvent,
                                    profile: InstrumentProfile, plan: Option<Id>, m: Movement)
    requires ValidEvent(event) && Move(divide, s, event, profile, plan) == Ok(m) && m.opens
    ensures TradeOk(BookedTrade(event, m), [] + [event], m.position.quantity, m.position.remainingCostBasis)
  {
    SumsAppend([], event, Buy);
    SumsAppend([], event, Sell);
  }

  /** Scaling in moves basis in step with entry notional; a reduction moves gross in step
      with the released basis, so whatever `divide` rounded to cancels. */
  lemma {:induction false} AdjustedOk(divide: (real, real) -> real, s: Account, event: ExecutionEvent, es: seq<ExecutionEvent>,
                                      profile: InstrumentProfile, plan: Option<Id>, m: Movement)
    requires ValidEvent(event) && Move(divide, s, event, profile, plan) == Ok(m) && !m.opens
    requires Lands(s, event, m)
    requires var p := s.positions[PositionIndex(s.positions, event.symbol)];
      var t := s.trades[TradeIndex(s.trades, p.tradeId)];
      TradeOk(t, es, p.quantity, p.remainingCostBasis) && BoundOk(p, s.trades)
    ensures TradeOk(BookedTrade(event, m), es + [event], m.position.quantity, m.position.remainingCostBasis)
  {
    SumsAppend(es, event, Buy);
    SumsAppend(es, event, Sell);
    assert (es + [event])[0] == es[0];
    assert (es + [event])[|es|] == event;
  }

  /** No position holds the identifier of the written trade under another symbol. */
  lemma {:induction false} BindingSymbol(origin: Account, s: Account, members: seq<Member>,
                                         event: ExecutionEvent, m: Movement)
    requires LedgerOk(origin, s, members) && FreshEvent(event, members) && Lands(s, event, m)
    ensures forall i :: 0 <= i < |s.positions| && s.positions[i].tradeId == m.trade.tradeId ==>
      s.positions[i].symbol == event.symbol && !m.opens
    ensures m.opens ==> TradeIndex(s.trades, m.trade.tradeId) == |s.trades|
  {
    hide EventsOf, QuantityOn, NotionalOn, FeesOf, NetOf;
    FreshTrade(origin, s, members, event);
    forall i | 0 <= i < |s.positions| && s.positions[i].tradeId == m.trade.tradeId
      ensures s.positions[i].symbol == event.symbol && !m.opens
    {
      assert BoundOk(s.positions[i], s.trades);
      if !m.opens {
        BoundToPosition(s.positions, i);
        BoundToPosition(s.positions, PositionIndex(s.positions, event.symbol));
      }
    }
  }

  /** The identifiers of the trades before and after a booking. */
  lemma {:induction false} BookedTrades(origin: Account, s: Account, members: seq<Member>,
                                        event: ExecutionEvent, m: Movement)
    requires LedgerOk(origin, s, members) && FreshEvent(event, members) && Lands(s, event, m)
    ensures var next := Book(s, event, m); var k := TradeIndex(s.trades, m.trade.tradeId);
      && next.trades == (if m.opens then s.trades + [BookedTrade(event, m)] else s.trades[k := BookedTrade(event, m)])
      && DistinctTrades(next.trades)
      && TradeIndex(next.trades, m.trade.tradeId) == k
      && (forall id :: TradeIndex(s.trades, id) < |s.trades| ==> TradeIndex(next.trades, id) == TradeIndex(s.trades, id))
  {
    hide EventsOf, QuantityOn, NotionalOn, FeesOf, NetOf;
    BindingSymbol(origin, s, members, event, m);
    BookTrades(s, event, m);
    var next := Book(s, event, m);
    var k := TradeIndex(s.trades, m.trade.tradeId);
    assert DistinctTrades(next.trades);
    TradeAt(next.trades, k);
    forall id | TradeIndex(s.trades, id) < |s.trades|
      ensures TradeIndex(next.trades, id) == TradeIndex(s.trades, id)
    {
      assert next.trades[TradeIndex(s.trades, id)].tradeId == id;
      TradeAt(next.trades, TradeIndex(s.trades, id));
    }
  }

  lemma {:induction false} BookedMember(origin: Account, s: Account, members: seq<Member>,
                                        event: ExecutionEvent, m: Movement)
    requires LedgerOk(origin, s, members) && FreshEvent(event, members) && Lands(s, event, m)
    ensures var next := Book(s, event, m);
      MemberOf(next, event) == Ok(Member(event, m.trade.tradeId, RoleOf(m.trade, event)))
    ensures DistinctPositions(Book(s, event, m).positions)
  {
    hide EventsOf, QuantityOn, NotionalOn, FeesOf, NetOf;
    BindingSymbol(origin, s, members, event, m);
    RemainingHere(s.positions, m.position);
    BookedTrades(origin, s, members, event, m);
  }

  /** Trades the fill does not touch keep their record, their fills and what remains of them. */
  lemma {:induction false} OthersKeep(origin: Account, s: Account, members: seq<Member>, event: ExecutionEvent,
                                      m: Movement, j: nat, member: Member)
    requires LedgerOk(origin, s, members) && FreshEvent(event, members) && Lands(s, event, m)
    requires j < |s.trades| && s.trades[j].tradeId != m.trade.tradeId && member.tradeId == m.trade.tradeId
    ensures var next := Book(s, event, m); var id := s.trades[j].tradeId;
      && next.trades[j] == s.trades[j]
      && TradeOk(next.trades[j], EventsOf(members + [member], id), Remaining(next.positions, id), Basis(next.positions, id))
  {
    hide EventsOf, QuantityOn, NotionalOn, FeesOf, NetOf, TradeOk, BoundOk;
    var id := s.trades[j].tradeId;
    BindingSymbol(origin, s, members, event, m);
    BookedTrades(origin, s, members, event, m);
    EventsAppend(members, member, id);
    assert EventsOf(members + [member], id) == EventsOf(members, id);
    RemainingElsewhere(s.positions, m.position, id);
  }

  lemma {:induction false} BookedOk(divide: (real, real) -> real, origin: Account, s: Account, members: seq<Member>,
                                    input: Input, m: Movement)
    requires LedgerOk(origin, s, members) && FreshEvent(input.event, members) && ValidEvent(input.event)
    requires Move(divide, s, input.event, input.profile, input.plan) == Ok(m)
    ensures Lands(s, input.event, m)
    ensures TradeOk(BookedTrade(input.event, m), EventsOf(members, m.trade.tradeId) + [input.event],
                    m.position.quantity, m.position.remainingCostBasis)
  {
    hide QuantityOn, NotionalOn, FeesOf, NetOf;
    MoveLands(divide, origin, s, members, input.event, input.profile, input.plan, m);
    BindingSymbol(origin, s, members, input.event, m);
    if m.opens {
      NoEventsYet(members, input.event.eventId, s.trades);
      OpenedOk(divide, s, input.event, input.profile, input.plan, m);
    } else {
      FlatHasNoBasis(origin, s, members, PositionIndex(s.positions, input.event.symbol));
      AdjustedOk(divide, s, input.event, EventsOf(members, m.trade.tradeId), input.profile, input.plan, m);
    }
  }

  /** An identifier that no trade has carries no fills. */
  lemma {:induction false} NoEventsYet(members: seq<Member>, id: Id, trades: seq<Trade>)
    requires forall k :: 0 <= k < |members| ==> TradeIndex(trades, members[k].tradeId) < |trades|
    requires TradeIndex(trades, id) == |trades|
    ensures EventsOf(members, id) == []
    decreases |members|
  {
    if members != [] {
      NoEventsYet(members[..|members| - 1], id, trades);
    }
  }

  /** The gross amount added to cash is the change of the trade's gross result. */
  ghost predicate GrossMoves(s: Account, m: Movement) {
    var k := TradeIndex(s.trades, m.trade.tradeId);
    if m.opens then m.trade.grossPnl == m.gross && m.trade.totalFees == 0.0
    else k < |s.trades| ==>
      m.trade.grossPnl == s.trades[k].grossPnl + m.gross && m.trade.totalFees == s.trades[k].totalFees
  }

  lemma {:induction false} NetBooked(origin: Account, s: Account, members: seq<Member>,
                                     event: ExecutionEvent, m: Movement)
    requires LedgerOk(origin, s, members) && FreshEvent(event, members) && Lands(s, event, m)
    requires GrossMoves(s, m)
    ensures var next := Book(s, event, m); next.cashBalance == next.initialBalance + NetOf(next.trades)
  {
    hide EventsOf, QuantityOn, NotionalOn, FeesOf;
    BookedTrades(origin, s, members, event, m);
    if m.opens {
      NetAppend(s.trades, BookedTrade(event, m));
    } else {
      NetUpdate(s.trades, TradeIndex(s.trades, m.trade.tradeId), BookedTrade(event, m));
    }
  }

  lemma {:induction false} TradesStayOk(divide: (real, real) -> real, origin: Account, s: Account, members: seq<Member>,
                                        input: Input, m: Movement, member: Member)
    requires LedgerOk(origin, s, members) && FreshEvent(input.event, members) && ValidEvent(input.event)
    requires Move(divide, s, input.event, input.profile, input.plan) == Ok(m)
    requires member.tradeId == m.trade.tradeId && member.event == input.event
    ensures var next := Book(s, input.event, m);
      forall j :: 0 <= j < |next.trades| ==>
        TradeOk(next.trades[j], EventsOf(members + [member], next.trades[j].tradeId),
                Remaining(next.positions, next.trades[j].tradeId), Basis(next.positions, next.trades[j].tradeId))
  {
    hide Move, EventsOf, QuantityOn, NotionalOn, FeesOf, NetOf, TradeOk, BoundOk, Remaining, Basis;
    BookedOk(divide, origin, s, members, input, m);
    BookedTrades(origin, s, members, input.event, m);
    BindingSymbol(origin, s, members, input.event, m);
    RemainingHere(s.positions, m.position);
    EventsAppend(members, member, m.trade.tradeId);
    var next := Book(s, input.event, m);
    forall j | 0 <= j < |next.trades|
      ensures TradeOk(next.trades[j], EventsOf(members + [member], next.trades[j].tradeId),
                      Remaining(next.positions, next.trades[j].tradeId), Basis(next.positions, next.trades[j].tradeId))
    {
      if j < |s.trades| && s.trades[j].tradeId != m.trade.tradeId {
        OthersKeep(origin, s, members, input.event, m, j, member);
      } else if j < |s.trades| {
        TradeAt(s.trades, j);
      }
    }
  }

  lemma {:induction false} MembersStayKnown(origin: Account, s: Account, members: seq<Member>,
                                            event: ExecutionEvent, m: Movement, member: Member)
    requires LedgerOk(origin, s, members) && FreshEvent(event, members) && Lands(s, event, m)
    requires member.tradeId == m.trade.tradeId
    ensures var next := Book(s, event, m); var all := members + [member];
      forall k :: 0 <= k < |all| ==> TradeIndex(next.trades, all[k].tradeId) < |next.trades|
  {
    hide EventsOf, QuantityOn, NotionalOn, FeesOf, NetOf, TradeOk, BoundOk;
    BookedTrades(origin, s, members, event, m);
  }

  /** The result of a movement that passed the guard. */
  lemma {:induction false} SettleMoves(divide: (real, real) -> real, s: Account, input: Input, next: Account)
    requires Settle(divide, s, input.event, input.profile, input.plan) == Ok(next)
    ensures ValidEvent(input.event)
    ensures var m := Move(divide, s, input.event, input.profile, input.plan);
      && m.Ok? && next == Book(s, input.event, m.value)
      && GrossMoves(s, m.value)
  {
  }

  /** One admitted fill keeps the invariant, and its membership is always found. */
  lemma {:induction false} SettleKeeps(divide: (real, real) -> real, origin: Account, s: Account, members: seq<Member>,
                                          input: Input, next: Account)
    requires LedgerOk(origin, s, members) && FreshEvent(input.event, members)
    requires Settle(divide, s, input.event, input.profile, input.plan) == Ok(next)
    ensures MemberOf(next, input.event).Ok?
    ensures LedgerOk(origin, next, members + [MemberOf(next, input.event).value])
  {
    hide Settle, Move, EventsOf, QuantityOn, NotionalOn, FeesOf, NetOf, TradeOk, BoundOk, Remaining, Basis, MemberOf,
         GrossMoves, ValidEvent, Lands, FreshEvent, PositionIndex, TradeIndex, BookedTrade, PutPosition, ReplaceTrade;
    SettleMoves(divide, s, input, next);
    var event := input.event;
    var m := Move(divide, s, event, input.profile, input.plan).value;
    BookedOk(divide, origin, s, members, input, m);
    BookedMember(origin, s, members, event, m);
    BookedTrades(origin, s, members, event, m);
    NetBooked(origin, s, members, event, m);
    var member := Member(event, m.trade.tradeId, RoleOf(m.trade, event));
    TradesStayOk(divide, origin, s, members, input, m, member);
    MembersStayKnown(origin, s, members, event, m, member);
    PositionsStayBound(divide, origin, s, members, input, m);
  }

  /** The written position is bound to the booked trade. */
  lemma {:induction false} WrittenBound(origin: Account, s: Account, members: seq<Member>, event: ExecutionEvent,
                                        m: Movement, es: seq<ExecutionEvent>)
    requires LedgerOk(origin, s, members) && FreshEvent(event, members) && Lands(s, event, m)
    requires TradeOk(BookedTrade(event, m), es, m.position.quantity, m.position.remainingCostBasis)
    ensures BoundOk(m.position, Book(s, event, m).trades)
  {
    hide EventsOf, QuantityOn, NotionalOn, FeesOf, NetOf, Remaining, Basis;
    BookedTrades(origin, s, members, event, m);
  }

  lemma {:induction false} OthersBound(origin: Account, s: Account, members: seq<Member>, event: ExecutionEvent,
                                       m: Movement, i: nat)
    requires LedgerOk(origin, s, members) && FreshEvent(event, members) && Lands(s, event, m)
    requires i < |s.positions| && i != PositionIndex(s.positions, event.symbol)
    ensures BoundOk(s.positions[i], Book(s, event, m).trades)
  {
    hide EventsOf, QuantityOn, NotionalOn, FeesOf, NetOf, Remaining, Basis, TradeOk;
    BookedTrades(origin, s, members, event, m);
    BindingSymbol(origin, s, members, event, m);
    BoundToPosition(s.positions, i);
    assert BoundOk(s.positions[i], s.trades);
  }

  lemma {:induction false} PositionsStayBound(divide: (real, real) -> real, origin: Account, s: Account, members: seq<Member>,
                                              input: Input, m: Movement)
    requires LedgerOk(origin, s, members) && FreshEvent(input.event, members) && ValidEvent(input.event)
    requires Move(divide, s, input.event, input.profile, input.plan) == Ok(m)
    ensures var next := Book(s, input.event, m);
      forall i :: 0 <= i < |next.positions| ==> BoundOk(next.positions[i], next.trades)
  {
    hide Move, ValidEvent, LedgerOk, BoundOk, TradeOk, FreshEvent, ReplaceTrade;
    BookedOk(divide, origin, s, members, input, m);
    WrittenBound(origin, s, members, input.event, m, EventsOf(members, m.trade.tradeId) + [input.event]);
    var next := Book(s, input.event, m);
    forall i | 0 <= i < |next.positions| ensures BoundOk(next.positions[i], next.trades) {
      if i != PositionIndex(s.positions, input.event.symbol) {
        assert next.positions[i] == s.positions[i];
        OthersBound(origin, s, members, input.event, m, i);
      }
    }
  }

  // ---- whole runs ------------------------------------------------------------------

  lemma {:induction false} EmptyOk(origin: Account)
    ensures LedgerOk(origin, EmptyProjection(origin), [])
  {
  }

  lemma {:induction false} RunEvents(divide: (real, real) -> real, origin: Account, inputs: seq<Input>)
    requires Run(divide, origin, inputs).Ok?
    ensures var members := Run(divide, origin, inputs).value.1;
      |members| == |inputs| && forall i :: 0 <= i < |inputs| ==> members[i].event == inputs[i].event
    decreases |inputs|
  {
    hide Settle;
    if inputs != [] {
      RunEvents(divide, origin, inputs[..|inputs| - 1]);
    }
  }

  /** Every account reachable by admitted fills with distinct event identifiers satisfies the
      ledger invariant, for every division function. */
  lemma {:induction false} ReachableOk(divide: (real, real) -> real, origin: Account, inputs: seq<Input>)
    requires DistinctEvents(inputs) && Run(divide, origin, inputs).Ok?
    ensures var (s, members) := Run(divide, origin, inputs).value; LedgerOk(origin, s, members)
    decreases |inputs|
  {
    hide Settle, LedgerOk, MemberOf;
    if inputs == [] {
      EmptyOk(origin);
    } else {
      var init, last := inputs[..|inputs| - 1], inputs[|inputs| - 1];
      ReachableOk(divide, origin, init);
      RunEvents(divide, origin, init);
      var (s, members) := Run(divide, origin, init).value;
      SettleKeeps(divide, origin, s, members, last, Settle(divide, s, last.event, last.profile, last.plan).value);
    }
  }

  lemma {:induction false} NeverMissing(divide: (real, real) -> real, origin: Account, s: Account, members: seq<Member>, input: Input)
    requires LedgerOk(origin, s, members)
    ensures Settle(divide, s, input.event, input.profile, input.plan) != Err(MissingTrade)
  {
    hide EventsOf, QuantityOn, NotionalOn, FeesOf, NetOf, TradeOk, Remaining, Basis;
    var i := PositionIndex(s.positions, input.event.symbol);
    if i < |s.positions| {
      assert BoundOk(s.positions[i], s.trades);
    }
  }

  /** A run fails only where the transition refuses a fill: the lookups by symbol and by
      trade never miss. */
  lemma {:induction false} MembershipNeverMissing(divide: (real, real) -> real, origin: Account, inputs: seq<Input>)
    requires inputs != [] && DistinctEvents(inputs)
    requires Run(divide, origin, inputs[..|inputs| - 1]).Ok?
    ensures var (s, _) := Run(divide, origin, inputs[..|inputs| - 1]).value;
      var last := inputs[|inputs| - 1];
      var next := Settle(divide, s, last.event, last.profile, last.plan);
      (Run(divide, origin, inputs).Ok? <==> next.Ok?) && next != Err(MissingTrade)
  {
    hide Settle, LedgerOk, MemberOf;
    var init, last := inputs[..|inputs| - 1], inputs[|inputs| - 1];
    ReachableOk(divide, origin, init);
    RunEvents(divide, origin, init);
    var (s, members) := Run(divide, origin, init).value;
    var next := Settle(divide, s, last.event, last.profile, last.plan);
    NeverMissing(divide, origin, s, members, last);
    if next.Ok? {
      SettleKeeps(divide, origin, s, members, last, next.value);
    }
  }
}
