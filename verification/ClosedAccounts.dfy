/** A closed account whose journal was lost: one unit bought and sold again, the account closed,
    and every rebuild refused. */
module ClosedAccounts {
  import opened Wrappers
  import opened DecimalPolicy
  import opened ExecutionModels
  import opened Accounting
  import opened TradeProjection
  import opened LedgerInvariant
  import opened Repository
  import opened AsOf
  import opened Journal
  import opened JournalRebuild
  import opened LostRequests

  const PROFILE := InstrumentProfile("R", "S", 1.0, 1.0, 1.0, 0, 1)
  const ORIGIN := Account("A", "X", 100.0, 100.0, 0, Some(0), 0, None, [], [])
  const BOUGHT := ExecutionEvent("e", "X", "A", "o", "x", "f", "S", "R", Buy, Decimal(1, 0), Decimal(1, 0), [0.0], 1, 1, 1)
  const SOLD := ExecutionEvent("d", "X", "A", "p", "y", "g", "S", "R", Sell, Decimal(1, 0), Decimal(1, 0), [0.0], 2, 2, 2)

  /** The order that closes the trade. */
  const EXIT := OrderRow(
    Order("p", OrderIntent("b", "S", Sell, OrderKind.Market, Decimal(1, 0), None, None), "R", 1, Acknowledged, Some("y"), None,
          true, Some("e"), Decimal(0, 0), None, None, None),
    PROFILE, 2)

  const HELD := Account(
    "A", "X", 100.0, 100.0, 0, Some(1), 1, Some(1),
    [Position("S", "R", Long, "e", 1.0, 1.0)], [Trade("e", "S", Long, 1, None, 0.0, 0.0, 1.0, None)])

  const FLAT := Account(
    "A", "X", 100.0, 100.0, 0, Some(2), 2, Some(2),
    [Position("S", "R", Long, "e", 0.0, 0.0)], [Trade("e", "S", Long, 1, Some(2), 0.0, 0.0, 1.0, None)])

  lemma {:induction false} Amounts()
    ensures Val(Decimal(1, 0)) == 1.0 && Notional(BOUGHT) == 1.0 && Notional(SOLD) == 1.0 && TotalFee(BOUGHT) == 0.0 && TotalFee(SOLD) == 0.0
    ensures ReservedCollateral([]) == 0.0
  {
    SmallNumbers();
    hide Scaled;
  }

  lemma {:induction false} BoughtFits(divide: (real, real) -> real)
    ensures ValidateUnits(PROFILE, Some(BOUGHT.price), BOUGHT.quantity).None?
  {
    hide ApplyFill;
    OneApplies(divide, ORIGIN, PROFILE, BOUGHT);
  }

  const ENTRY := Movement(Position("S", "R", Long, "e", 1.0, 1.0), Trade("e", "S", Long, 1, None, 0.0, 0.0, 1.0, None), true, 0.0)
  const LEAVING := Movement(Position("S", "R", Long, "e", 0.0, 0.0), Trade("e", "S", Long, 1, Some(2), 0.0, 0.0, 1.0, None), false, 0.0)

  lemma {:induction false} BoughtMoves(divide: (real, real) -> real)
    ensures Move(divide, EmptyProjection(ORIGIN), BOUGHT, PROFILE, None) == Ok(ENTRY)
  {
    Amounts();
    hide Val, Notional, TotalFee;
    assert PositionIndex([], "S") == 0;
  }

  lemma {:induction false} BoughtBooks()
    ensures Book(EmptyProjection(ORIGIN), BOUGHT, ENTRY) == HELD
  {
    Amounts();
    hide Val, Notional, TotalFee;
    assert PositionIndex([], "S") == 0;
    assert ReplaceTrade([ENTRY.trade], ENTRY.trade) == [ENTRY.trade];
  }

  lemma {:induction false} Bought(divide: (real, real) -> real)
    ensures ApplyFill(divide, EmptyProjection(ORIGIN), BOUGHT, PROFILE, None) == Ok(HELD)
  {
    hide ValidateUnits, Val, Move, Book, Notional, TotalFee;
    BoughtFits(divide);
    BoughtMoves(divide);
    BoughtBooks();
    Amounts();
  }

  lemma {:induction false} SoldFits()
    ensures ValidateUnits(PROFILE, Some(SOLD.price), SOLD.quantity).None?
  {
    SmallNumbers();
    hide Scaled, Digits;
  }

  lemma {:induction false} SoldMoves(divide: (real, real) -> real)
    ensures Move(divide, HELD, SOLD, PROFILE, None) == Ok(LEAVING)
  {
    Amounts();
    hide Val, Notional, TotalFee;
    assert HELD.positions[..0] == [] && HELD.trades[..0] == [];
    assert PositionIndex(HELD.positions, "S") == 0 && TradeIndex(HELD.trades, "e") == 0;
  }

  lemma {:induction false} SoldBooks()
    ensures Book(HELD, SOLD, LEAVING) == FLAT
  {
    Amounts();
    hide Val, Notional, TotalFee;
    assert HELD.positions[..0] == [];
    assert PositionIndex(HELD.positions, "S") == 0;
    assert ReplaceTrade(HELD.trades, LEAVING.trade) == [LEAVING.trade];
  }

  lemma {:induction false} Sold(divide: (real, real) -> real)
    ensures ApplyFill(divide, HELD, SOLD, PROFILE, None) == Ok(FLAT)
  {
    hide ValidateUnits, Val, Move, Book, Notional, TotalFee;
    SoldFits();
    SoldMoves(divide);
    SoldBooks();
    Amounts();
  }

  lemma {:induction false} SoldMatches()
    ensures MatchesOrder(EXIT.order, SOLD) && StaleIntent(HELD, EXIT.order, SOLD).None?
    ensures ValidEvent(SOLD) && Stored(SOLD) == SOLD
  {
    SmallNumbers();
    ZeroIs();
    hide Scaled, Normalize, Add;
    AddIsExact(Decimal(0, 0), Decimal(1, 0));
    assert HELD.positions[..0] == [];
    assert OpenPosition(HELD.positions, "S") == Some(HELD.positions[0]);
  }

  /** A new order changes nothing about the fills. */
  lemma {:induction false} OrderAdded(divide: (real, real) -> real, origin: Account, l: Ledger, row: OrderRow)
    requires LedgerInv(divide, origin, l) && row.order.orderId !in l.orders
    requires Val(row.order.filledQuantity) == 0.0 <= Val(row.order.intent.quantity)
    ensures LedgerInv(divide, origin, l.(orders := l.orders[row.order.orderId := row]))
  {
    hide Run, Val;
    var next := l.(orders := l.orders[row.order.orderId := row]);
    assert InputsOf(next) == InputsOf(l);
    NoFills(l.fills, row.order.orderId);
  }

  lemma {:induction false} NoFills(fills: seq<ExecutionEvent>, id: Id)
    requires forall i :: 0 <= i < |fills| ==> fills[i].orderId != id
    ensures FilledBy(fills, id) == 0.0
    decreases |fills|
  {
    if fills != [] {
      NoFills(fills[..|fills| - 1], id);
    }
  }

  /** The ledger once the unit is held and the order to sell it is acknowledged. */
  lemma {:induction false} FirstAdmission(divide: (real, real) -> real)
    ensures var r := Admit(divide, OneOrder(ORIGIN, PROFILE), BOUGHT, PROFILE, true);
      && r.Ok? && r.value.1.account == HELD && r.value.1.fills == [BOUGHT] && r.value.1.active
      && r.value.1.orders.Keys == {"o"} && r.value.1.orders["o"].profile == PROFILE
      && LedgerInv(divide, ORIGIN, r.value.1) && UnitsHold(r.value.1, 0)
  {
    hide ApplyFill, MatchesOrder, StaleIntent, ValidateUnits, Val, Normalize, LedgerInv;
    var l0 := OneOrder(ORIGIN, PROFILE);
    OneAdmission(divide, ORIGIN, PROFILE, BOUGHT);
    OneMatches(ORIGIN, PROFILE, BOUGHT);
    Bought(divide);
    AdmitKeeps(divide, ORIGIN, l0, BOUGHT, PROFILE, true);
  }

  lemma {:induction false} SecondAdmitted(divide: (real, real) -> real, l: Ledger)
    requires l.account == HELD && l.fills == [BOUGHT] && l.active && "p" in l.orders && l.orders["p"] == EXIT
    ensures Admit(divide, l, SOLD, PROFILE, true)
         == Ok((SOLD, l.(account := FLAT, fills := [BOUGHT] + [SOLD], orders := l.orders["p" := Filled(EXIT, SOLD)])))
  {
    hide ApplyFill, MatchesOrder, StaleIntent, Val, Normalize, Filled, Stored, HasEvent, FillIndex, ValidEvent;
    SoldMatches();
    Sold(divide);
    NotYetKnown();
  }

  lemma {:induction false} SecondAdmission(divide: (real, real) -> real, l: Ledger)
    requires LedgerInv(divide, ORIGIN, l) && l.account == HELD && l.fills == [BOUGHT] && l.active
    requires "p" in l.orders && l.orders["p"] == EXIT && "o" in l.orders && l.orders["o"].profile == PROFILE
    ensures var r := Admit(divide, l, SOLD, PROFILE, true);
      && r.Ok? && r.value.1.account == FLAT && r.value.1.fills == [BOUGHT, SOLD]
      && LedgerInv(divide, ORIGIN, r.value.1) && UnitsHold(r.value.1, 0) && UnitsHold(r.value.1, 1)
  {
    hide Admit, ValidateUnits, Val, Normalize, LedgerInv, UnitsHold;
    SecondAdmitted(divide, l);
    AdmitKeeps(divide, ORIGIN, l, SOLD, PROFILE, true);
    SoldFits();
    BoughtFits(divide);
    UnitsAt(divide, Admit(divide, l, SOLD, PROFILE, true).value.1);
  }

  lemma {:induction false} NotYetKnown()
    ensures FillIndex([BOUGHT], SOLD.externalFillId) == 1 && !HasEvent([BOUGHT], SOLD.eventId)
  {
  }

  lemma {:induction false} UnitsAt(divide: (real, real) -> real, l: Ledger)
    requires LedgerInv(divide, ORIGIN, l) && l.fills == [BOUGHT, SOLD]
    requires "o" in l.orders && l.orders["o"].profile == PROFILE && "p" in l.orders && l.orders["p"].profile == PROFILE
    requires ValidateUnits(PROFILE, Some(BOUGHT.price), BOUGHT.quantity).None? && ValidateUnits(PROFILE, Some(SOLD.price), SOLD.quantity).None?
    ensures UnitsHold(l, 0) && UnitsHold(l, 1)
  {
    hide ValidateUnits, Run, FillIdentities, OrdersMatchFills;
  }

  /** A ledger whose stored fills can all be replayed. */
  ghost predicate Replayable(divide: (real, real) -> real, origin: Account, l: Ledger) {
    LedgerInv(divide, origin, l) && forall i :: 0 <= i < |l.fills| ==> UnitsHold(l, i)
  }

  /** No rebuild of an empty journal succeeds. */
  ghost predicate NeverRebuilt(divide: (real, real) -> real, l: Ledger) {
    && HaveOrders(OrderBy(l.fills), l.orders)
    && forall now: Time :: Rebuilt(divide, l.active, now, l, l.fills, NOTHING) == Err(AccountClosed)
  }

  /** One unit bought at 1 and sold at 2; the account is flat and is closed; its journal is lost.
      Every fill still fits, and no rebuild ever succeeds. */
  lemma {:induction false} ClosedAccountIsRefused(divide: (real, real) -> real)
    ensures var first := Admit(divide, OneOrder(ORIGIN, PROFILE), BOUGHT, PROFILE, true);
      && first.Ok?
      && var held := first.value.1.(orders := first.value.1.orders["p" := EXIT]);
         var second := Admit(divide, held, SOLD, PROFILE, true);
         && second.Ok? && second.value.1.account == FLAT
         && var l := second.value.1.(active := false);
            Replayable(divide, ORIGIN, l) && NeverRebuilt(divide, l)
  {
    hide Admit, LedgerInv, UnitsHold, Rebuilt, HaveOrders, OrderBy, Val;
    FirstAdmission(divide);
    ZeroIs();
    SmallNumbers();
    var l1 := Admit(divide, OneOrder(ORIGIN, PROFILE), BOUGHT, PROFILE, true).value.1;
    OrderAdded(divide, ORIGIN, l1, EXIT);
    SecondAdmission(divide, l1.(orders := l1.orders["p" := EXIT]));
    var l2 := Admit(divide, l1.(orders := l1.orders["p" := EXIT]), SOLD, PROFILE, true).value.1;
    ClosingKeeps(divide, ORIGIN, l2);
    AllRefused(divide, ORIGIN, l2.(active := false));
  }

  lemma {:induction false} AllRefused(divide: (real, real) -> real, origin: Account, l: Ledger)
    requires Replayable(divide, origin, l) && l.fills != [] && !l.active
    ensures NeverRebuilt(divide, l)
  {
    hide LedgerInv, UnitsHold, Rebuilt, HaveOrders, OrderBy;
    DistinctFills(divide, origin, l);
    LostOnClosedAccount(divide, origin, l, 0, l.fills);
    forall now: Time ensures Rebuilt(divide, l.active, now, l, l.fills, NOTHING) == Err(AccountClosed) {
      LostOnClosedAccount(divide, origin, l, now, l.fills);
    }
  }

  lemma {:induction false} ClosingKeeps(divide: (real, real) -> real, origin: Account, l: Ledger)
    requires LedgerInv(divide, origin, l)
    ensures LedgerInv(divide, origin, l.(active := false))
    ensures forall i :: 0 <= i < |l.fills| ==> UnitsHold(l.(active := false), i) == UnitsHold(l, i)
  {
    hide Run, FilledBy, Val, ValidateUnits;
    assert InputsOf(l.(active := false)) == InputsOf(l);
  }

  lemma {:induction false} DistinctFills(divide: (real, real) -> real, origin: Account, l: Ledger)
    requires LedgerInv(divide, origin, l)
    ensures DistinctEvents(InputsOf(l))
  {
    hide Run, FilledBy, Val;
    InputsDistinct(l);
  }
}
