/** Three ordinary fills, the last of which rounding makes the schema refuse. */
module OverdrawnClose {
  import opened Wrappers
  import opened DecimalPolicy
  import opened ExecutionModels
  import opened Accounting
  import opened TradeProjection
  import opened PartialCloses

  function Tens(): nat {
    Pow(10, 49)
  }

  /** A large lot: five times ten to the forty-ninth, fifty digits. */
  function Lot(): nat {
    5 * Tens()
  }

  const UNITS := InstrumentProfile("R", "S", 1.0, 1.0, 1.0, 0, 50)

  function Origin(): Account {
    var balance := 2.0 * Lot() as real;
    Account("A", "X", balance, balance, 0, Some(0), 0, None, [], [])
  }

  function Fill(id: Id, side: Side, price: int, quantity: int, n: int): ExecutionEvent {
    ExecutionEvent(id, "X", "A", "o", "x", id, "S", "R", side, Decimal(price, 0), Decimal(quantity, 0), [0.0], n, n, n)
  }

  /** Buy the lot at 1, one more at 4, then sell the lot. */
  function Fills(): seq<ExecutionEvent> {
    [Fill("a", Buy, 1, Lot(), 1), Fill("b", Buy, 4, 1, 2), Fill("c", Sell, 1, Lot(), 3)]
  }

  function Bought(cash: real, quantity: real, basis: real, n: int): Account {
    Origin().(positions := [Position("S", "R", Long, "a", quantity, basis)],
              trades := [Trade("a", "S", Long, 1, None, 0.0, 0.0, basis, None)],
              cashBalance := cash, lastSequence := n, lastFilledAt := Some(n), updatedAt := Some(n))
  }

  // ---- the numbers -----------------------------------------------------------------

  lemma {:induction false} TensFacts()
    ensures Tens() >= 2 && Tens() % 2 == 0 && 10 * Tens() == Pow(10, 50)
  {
    hide Pow;
    PowPositive(10, 48);
    PowStep(48);
    PowStep(49);
  }

  lemma {:induction false} PowStep(n: nat)
    ensures Pow(10, n + 1) == 10 * Pow(10, n)
  {
  }

  lemma {:induction false} LotFacts()
    ensures Lot() >= 10 && Lot() % 10 == 0
    ensures Width(Decimal(Lot(), 0)) <= 50
  {
    hide Digits, Pow, Tens;
    TensFacts();
    DigitsAtMost(Lot(), 50);
  }

  lemma {:induction false} Whole(c: int)
    ensures Val(Decimal(c, 0)) == c as real && IsMultiple(c as real, 1.0)
  {
    assert (c as real / 1.0).Floor == c;
  }

  lemma {:induction false} SmallWidths()
    ensures Width(Decimal(1, 0)) == 1 && Width(Decimal(4, 0)) == 1
  {
  }

  lemma {:induction false} UnitsOk(event: ExecutionEvent, price: int, quantity: int)
    requires event.price == Decimal(price, 0) && event.quantity == Decimal(quantity, 0)
    requires price >= 1 && quantity >= 1 && Width(event.price) <= 50 && Width(event.quantity) <= 50
    ensures ValidateUnits(UNITS, Some(event.price), event.quantity).None?
    ensures Val(event.price) == price as real && Val(event.quantity) == quantity as real
  {
    hide Scaled, Digits;
    Whole(price);
    Whole(quantity);
  }

  /** Three times a power of ten has no divisor above 3 that ends in 1. */
  lemma {:induction false} NoShare(held: nat, m: int, k: nat)
    requires held > 3 && held % 10 == 1
    ensures held * m != 3 * Pow(10, k)
    decreases k
  {
    if held * m == 3 * Pow(10, k) {
      if k == 0 {
        assert Pow(10, 0) == 1;
        SmallProduct(held, m);
      } else {
        LastDigit(held, m, Pow(10, k - 1));
        NoShare(held, m / 10, k - 1);
      }
    }
  }

  lemma {:induction false} LastDigit(held: nat, m: int, p: nat)
    requires held % 10 == 1 && held * m == 3 * (10 * p)
    ensures held * (m / 10) == 3 * p
  {
    var q, n := held / 10, m / 10;
    assert held * m == 10 * (q * m) + m;
    assert m == 10 * n;
    assert held * m == 10 * (held * n);
  }

  lemma {:induction false} SmallProduct(held: nat, m: int)
    requires held > 3
    ensures held * m != 3
  {
    if m <= 0 {
      assert held * m <= 0;
    } else {
      assert held * m >= held;
    }
  }

  lemma {:induction false} MovesOver(held: nat, n: int, p: nat)
    requires n * held == (held + 3) * p
    ensures held * (n - p) == 3 * p
  {
  }

  /** The average cost of the position has no finite expansion. */
  lemma {:induction false} AverageRounds()
    ensures !FiniteExpansion((Lot() + 4) as real / (Lot() + 1) as real)
  {
    hide Tens, Scaled, Lot, Pow;
    LotFacts();
    var left, right := Decimal(Lot() + 4, 0), Decimal(Lot() + 1, 0);
    Whole(Lot() + 4);
    Whole(Lot() + 1);
    TerminatesIsFinite(left, right);
    if Terminates(left, right) {
      var q :| IsQuotient(q, left, right);
      var n, k := AtDifference(q, left, right);
      QuotientCrossed(n, k, left, right);
      var held := Lot() + 1;
      MovesOver(held, n, Pow(10, k));
      NoShare(held, n - Pow(10, k), k);
    }
  }

  lemma {:induction false} UnitBound(lot: real, u: real)
    requires lot * u == 5.0 && lot >= 10.0
    ensures u <= 0.5
  {
    if u > 0.5 { StrictScale(0.5, u, lot); MulCommutes(lot, u); }
  }

  lemma {:induction false} AboveMiddle(lot: real, u: real, x: real)
    requires u > 0.0 && lot * u == 5.0 && lot >= 10.0 && x * (lot + 1.0) == lot + 4.0
    ensures 1.0 + u / 2.0 < x
  {
    UnitBound(lot, u);
    if x <= 1.0 + u / 2.0 {
      Spread(lot, u);
      ScaleBoth(x, 1.0 + u / 2.0, lot + 1.0);
    }
  }

  lemma {:induction false} BelowNext(lot: real, u: real, x: real)
    requires u > 0.0 && lot * u == 5.0 && lot >= 10.0 && x * (lot + 1.0) == lot + 4.0
    ensures x < 1.0 + u && lot + 4.0 < lot * (1.0 + u)
  {
    Spread(lot, u);
    if 1.0 + u <= x {
      ScaleBoth(1.0 + u, x, lot + 1.0);
    }
  }

  lemma {:induction false} Spread(lot: real, u: real)
    ensures (1.0 + u / 2.0) * (lot + 1.0) == lot + 1.0 + (lot * u) / 2.0 + u / 2.0
    ensures (1.0 + u) * (lot + 1.0) == lot + 1.0 + lot * u + u
    ensures lot * (1.0 + u) == lot + lot * u
  {
  }

  /** Selling the lot out of one more than the lot releases more than is there. */
  lemma {:induction false} ReleasesTooMuch()
    ensures Quotient((Lot() + 4) as real, (Lot() + 1) as real) * Lot() as real > (Lot() + 4) as real
  {
    hide Tens, Scaled, Quotient, FiniteExpansion, Unit, Lot;
    var lot, u := Lot() as real, Unit();
    LotUnits();
    AverageRounds();
    var x := (lot + 4.0) / (lot + 1.0);
    ExactQuotient(x, lot + 4.0, lot + 1.0);
    AboveMiddle(lot, u, x);
    BelowNext(lot, u, x);
    RoundsUpOver(lot + 4.0, lot + 1.0, lot);
  }

  lemma {:induction false} TensUnits()
    ensures Unit() > 0.0 && Unit() * Tens() as real == 1.0
  {
    hide Pow, Scaled, Unit, Grid;
    UnitFacts();
  }

  lemma {:induction false} LotIs()
    ensures Lot() as real == 5.0 * Tens() as real
  {
    hide Tens;
  }

  lemma {:induction false} LotUnits()
    ensures Unit() > 0.0 && Lot() as real * Unit() == 5.0 && Lot() >= 10
  {
    hide Unit, Tens, Lot;
    LotLarge();
    TensUnits();
    LotIs();
    var lot, u, tens := Lot() as real, Unit(), Tens() as real;
    assert lot * u == 5.0 by {
      Fivefold(lot, u, tens);
    }
  }

  lemma {:induction false} LotLarge()
    ensures Lot() >= 10
  {
    LotFacts();
  }

  lemma {:induction false} Fivefold(lot: real, u: real, g: real)
    requires u * g == 1.0 && lot == 5.0 * g
    ensures lot * u == 5.0
  {
    assert lot * u == 5.0 * (u * g);
  }

  // ---- the fills -------------------------------------------------------------------

  /** A purchase without a fee. */
  ghost predicate Buys(event: ExecutionEvent, id: Id, n: int, cost: real, quantity: real) {
    && event.eventId == id && event.side.Buy? && event.executionSource == "X" && event.accountId == "A"
    && event.symbol == "S" && event.instrumentReference == "R"
    && ValidEvent(event) && event.filledAt == event.receivedAt == event.sequence == n
    && Notional(event) == cost && Val(event.quantity) == quantity && TotalFee(event) == 0.0
  }

  lemma {:induction false} Opens(divide: (real, real) -> real, event: ExecutionEvent, cost: real)
    requires Buys(event, "a", 1, cost, cost) && 0.0 < cost <= 2.0 * Lot() as real && Lot() >= 10
    ensures Settle(divide, EmptyProjection(Origin()), event, UNITS, None) == Ok(Bought(2.0 * Lot() as real, cost, cost, 1))
  {
    hide Val, Notional, TotalFee, ValidEvent, Lot;
    var s := EmptyProjection(Origin());
    assert AvailableBalance(s) == 2.0 * Lot() as real;
    var position := Position("S", "R", Long, "a", cost, cost);
    var trade := Trade("a", "S", Long, 1, None, 0.0, 0.0, cost, None);
    assert Move(divide, s, event, UNITS, None) == Ok(Movement(position, trade, true, 0.0));
    assert PutPosition(s.positions, position) == [position];
    assert s.trades + [trade] == [trade] && ReplaceTrade([trade], trade) == [trade];
    assert SchemaValid(Bought(2.0 * Lot() as real, cost, cost, 1));
  }

  lemma {:induction false} Adds(divide: (real, real) -> real, event: ExecutionEvent, held: real)
    requires Buys(event, "b", 2, 4.0, 1.0) && held == Lot() as real && Lot() >= 10
    ensures Settle(divide, Bought(2.0 * Lot() as real, held, held, 1), event, UNITS, None)
         == Ok(Bought(2.0 * Lot() as real, held + 1.0, held + 4.0, 2))
  {
    hide Val, Notional, TotalFee, ValidEvent, Lot;
    var s := Bought(2.0 * Lot() as real, held, held, 1);
    assert s.positions[..0] == [] && s.trades[..0] == [];
    assert ReservedCollateral(s.positions[..0]) == 0.0 && ReservedCollateral(s.positions) == held;
    assert AvailableBalance(s) == held;
    var position := Position("S", "R", Long, "a", held + 1.0, held + 4.0);
    var trade := Trade("a", "S", Long, 1, None, 0.0, 0.0, held + 4.0, None);
    assert Move(divide, s, event, UNITS, None) == Ok(Movement(position, trade, false, 0.0));
    assert PutPosition(s.positions, position) == [position];
    assert ReplaceTrade(s.trades, trade) == [trade];
  }

  function AfterOne(): Account {
    Bought(2.0 * Lot() as real, Lot() as real, Lot() as real, 1)
  }

  function AfterTwo(): Account {
    Bought(2.0 * Lot() as real, (Lot() + 1) as real, (Lot() + 4) as real, 2)
  }

  lemma {:induction false} FillFacts()
    ensures Buys(Fills()[0], "a", 1, Lot() as real, Lot() as real) && Buys(Fills()[1], "b", 2, 4.0, 1.0)
    ensures forall i :: 0 <= i < 3 ==> ValidateUnits(UNITS, Some(Fills()[i].price), Fills()[i].quantity).None?
    ensures ValidEvent(Fills()[2]) && Val(Fills()[2].quantity) == Lot() as real
  {
    hide Scaled, Digits, Tens, Lot;
    LotFacts();
    SmallWidths();
    UnitsOk(Fills()[0], 1, Lot());
    UnitsOk(Fills()[1], 4, 1);
    UnitsOk(Fills()[2], 1, Lot());
    hide ValidateUnits, Val;
    NoFee();
  }

  lemma {:induction false} NoFee()
    ensures SumReal([0.0]) == 0.0
  {
    assert [0.0][..0] == [];
  }

  lemma {:induction false} Books(divide: (real, real) -> real)
    ensures Settle(divide, EmptyProjection(Origin()), Fills()[0], UNITS, None) == Ok(AfterOne())
    ensures Settle(divide, AfterOne(), Fills()[1], UNITS, None) == Ok(AfterTwo())
  {
    hide Settle, Buys, Fill, Tens, ValidateUnits, Val;
    LotFacts();
    FillFacts();
    hide Lot;
    Opens(divide, Fills()[0], Lot() as real);
    Adds(divide, Fills()[1], Lot() as real);
  }

  lemma {:induction false} Refuses(divide: (real, real) -> real)
    requires forall x, y :: y != 0.0 ==> divide(x, y) == Quotient(x, y)
    ensures Settle(divide, AfterTwo(), Fills()[2], UNITS, None) == Err(InvalidProjection)
    ensures GuardScope(AfterTwo(), Fills()[2], UNITS).None?
  {
    hide Tens, Settle, Quotient, GuardScope, GuardOrder, Val;
    ThirdInScope();
    ReleasesTooMuch();
    hide Lot;
    RefusedExactly(divide, AfterTwo(), Fills()[2], UNITS, None, 0);
  }

  lemma {:induction false} ThirdInScope()
    ensures var event := Fills()[2];
      && GuardScope(AfterTwo(), event, UNITS).None? && GuardOrder(AfterTwo(), event).None?
      && ClosesPart(AfterTwo(), event, 0) && Val(event.quantity) == Lot() as real
  {
    hide Tens, ValidateUnits, Val, ValidEvent;
    LotFacts();
    FillFacts();
    hide Lot;
  }

  function Inputs(): seq<Input> {
    [Input(Fills()[0], UNITS, None), Input(Fills()[1], UNITS, None), Input(Fills()[2], UNITS, None)]
  }

  lemma {:induction false} MemberFound(cash: real, quantity: real, basis: real, n: int, event: ExecutionEvent)
    requires event == Fills()[0] || event == Fills()[1]
    ensures MemberOf(Bought(cash, quantity, basis, n), event).Ok?
  {
  }

  /** On an ordinary instrument, with the policy's division: the two purchases are booked, and
      the sale of part of the position is refused, though it fits the instrument. */
  lemma {:induction false} OverdraftIsReachable(divide: (real, real) -> real)
    requires forall x, y :: y != 0.0 ==> divide(x, y) == Quotient(x, y)
    ensures Run(divide, Origin(), Inputs()[..2]).Ok? && Run(divide, Origin(), Inputs()[..2]).value.0 == AfterTwo()
    ensures ApplyFill(divide, AfterTwo(), Fills()[2], UNITS, None) == Err(InvalidProjection)
    ensures Run(divide, Origin(), Inputs()) == Err(InvalidProjection)
  {
    Books(divide);
    Refuses(divide);
    RefusesUnits(divide);
    hide Settle, Lot, Quotient, ApplyFill, Bought, Fills, MemberOf, AfterOne, AfterTwo, EmptyProjection, Origin;
    RunTwo(divide);
    assert Inputs()[..|Inputs()| - 1] == Inputs()[..2];
  }

  lemma {:induction false} RunTwo(divide: (real, real) -> real)
    ensures Run(divide, Origin(), Inputs()[..2]).Ok? && Run(divide, Origin(), Inputs()[..2]).value.0 == AfterTwo()
  {
    Books(divide);
    MembersFound();
    RunOne(divide);
    hide Settle, Bought, Fills, MemberOf, AfterOne, AfterTwo, EmptyProjection, Origin;
    assert Inputs()[..2][..1] == Inputs()[..1];
  }

  lemma {:induction false} MembersFound()
    ensures MemberOf(AfterOne(), Fills()[0]).Ok? && MemberOf(AfterTwo(), Fills()[1]).Ok?
  {
    hide Lot;
    MemberFound(2.0 * Lot() as real, Lot() as real, Lot() as real, 1, Fills()[0]);
    MemberFound(2.0 * Lot() as real, (Lot() + 1) as real, (Lot() + 4) as real, 2, Fills()[1]);
  }

  lemma {:induction false} RunOne(divide: (real, real) -> real)
    ensures Run(divide, Origin(), Inputs()[..1]).Ok? && Run(divide, Origin(), Inputs()[..1]).value.0 == AfterOne()
  {
    Books(divide);
    MembersFound();
    hide Settle, Lot, Bought, Fill, MemberOf, AfterOne, EmptyProjection, Origin;
    assert Inputs()[..1][..0] == [];
  }

  lemma {:induction false} RefusesUnits(divide: (real, real) -> real)
    requires Settle(divide, AfterTwo(), Fills()[2], UNITS, None) == Err(InvalidProjection)
    requires GuardScope(AfterTwo(), Fills()[2], UNITS).None?
    ensures ApplyFill(divide, AfterTwo(), Fills()[2], UNITS, None) == Err(InvalidProjection)
  {
    FillFacts();
    hide Settle, Lot, GuardScope, ValidateUnits, Bought, Fill;
  }
}
