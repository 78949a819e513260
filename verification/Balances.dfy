/** What a fill may cost: when an opening is refused for lack of balance, and what an accepted
    one leaves. */
module Balances {
  import opened Wrappers
  import opened DecimalPolicy
  import opened ExecutionModels
  import opened Accounting
  import opened TradeProjection
  import opened LedgerInvariant

  /** Price times quantity, and the fees. */
  function Cost(event: ExecutionEvent): real {
    Val(event.price) * Val(event.quantity) + SumReal(event.fees)
  }

  /** A position of the symbol is open on the other side. */
  predicate MeetsOpposite(s: Account, event: ExecutionEvent) {
    exists i :: 0 <= i < |s.positions| && s.positions[i].symbol == event.symbol && s.positions[i].quantity != 0.0
      && s.positions[i].direction == (if event.side.Buy? then Short else Long)
  }

  /** Cash minus the bases held. */
  function Free(s: Account): real {
    s.cashBalance - ReservedCollateral(s.positions)
  }

  /** In scope, in order and representable. */
  predicate Acceptable(s: Account, event: ExecutionEvent, profile: InstrumentProfile) {
    GuardScope(s, event, profile).None? && GuardOrder(s, event).None?
    && ValidateUnits(profile, Some(event.price), event.quantity).None?
  }

  lemma {:induction false} OppositeIsReduction(s: Account, event: ExecutionEvent)
    requires DistinctPositions(s.positions)
    ensures var i := PositionIndex(s.positions, event.symbol);
      MeetsOpposite(s, event)
      <==> i < |s.positions| && s.positions[i].quantity != 0.0 && s.positions[i].direction != DirectionOf(event.side)
  {
    var i := PositionIndex(s.positions, event.symbol);
    forall k | 0 <= k < |s.positions| && s.positions[k].symbol == event.symbol ensures k == i {
      BoundToPosition(s.positions, k);
    }
  }

  /** An acceptable fill that meets no opposite position is refused for lack of balance exactly
      if its cost exceeds the cash that no basis holds. */
  lemma {:induction false} OpeningRefused(divide: (real, real) -> real, s: Account, event: ExecutionEvent, profile: InstrumentProfile, plan: Option<Id>)
    requires DistinctPositions(s.positions) && Acceptable(s, event, profile) && !MeetsOpposite(s, event)
    ensures ApplyFill(divide, s, event, profile, plan) == Err(InsufficientBalance) <==> Cost(event) > Free(s)
  {
    hide GuardScope, GuardOrder, ValidateUnits, Val, SumReal, ReservedCollateral, MeetsOpposite, PositionIndex, TradeIndex, Book, SchemaValid;
    OppositeIsReduction(s, event);
    assert Notional(event) + TotalFee(event) == Cost(event);
  }

  /** An acceptable fill that meets an opposite position is refused as closing too much exactly if
      it is for more than is held. */
  lemma {:induction false} ClosingRefused(divide: (real, real) -> real, origin: Account, s: Account, members: seq<Member>,
                                          event: ExecutionEvent, profile: InstrumentProfile, plan: Option<Id>)
    requires LedgerOk(origin, s, members) && Acceptable(s, event, profile) && MeetsOpposite(s, event)
    ensures ApplyFill(divide, s, event, profile, plan) == Err(OverClose)
      <==> exists i :: 0 <= i < |s.positions| && s.positions[i].symbol == event.symbol && s.positions[i].quantity < Val(event.quantity)
  {
    hide GuardScope, GuardOrder, ValidateUnits, Val, SumReal, ReservedCollateral, MeetsOpposite, PositionIndex, TradeIndex, Book, SchemaValid,
         LedgerOk, Notional, TotalFee;
    LedgerPositions(origin, s, members);
    OppositeIsReduction(s, event);
    var i := PositionIndex(s.positions, event.symbol);
    forall k | 0 <= k < |s.positions| && s.positions[k].symbol == event.symbol ensures k == i {
      BoundToPosition(s.positions, k);
    }
  }

  lemma {:induction false} ReservedAppend(positions: seq<Position>, p: Position)
    ensures ReservedCollateral(positions + [p]) == ReservedCollateral(positions) + p.remainingCostBasis
  {
    assert (positions + [p])[..|positions|] == positions;
  }

  lemma {:induction false} ReservedUpdate(positions: seq<Position>, i: nat, p: Position)
    requires i < |positions|
    ensures ReservedCollateral(positions[i := p])
         == ReservedCollateral(positions) - positions[i].remainingCostBasis + p.remainingCostBasis
    decreases |positions|
  {
    var n := |positions| - 1;
    if i == n {
      assert positions[i := p][..n] == positions[..n];
    } else {
      ReservedUpdate(positions[..n], i, p);
      assert positions[i := p][..n] == positions[..n][i := p];
    }
  }

  /** Booking moves the bases held by what the written position gained. */
  lemma {:induction false} ReservedBooked(s: Account, event: ExecutionEvent, m: Movement)
    ensures var i := PositionIndex(s.positions, m.position.symbol);
      ReservedCollateral(Book(s, event, m).positions)
      == ReservedCollateral(s.positions) + m.position.remainingCostBasis
         - (if i < |s.positions| then s.positions[i].remainingCostBasis else 0.0)
  {
    hide PositionIndex, ReservedCollateral, ReplaceTrade;
    var i := PositionIndex(s.positions, m.position.symbol);
    if i < |s.positions| {
      ReservedUpdate(s.positions, i, m.position);
    } else {
      ReservedAppend(s.positions, m.position);
    }
  }

  /** What an increase does to the position: the notional is added to its basis, over a flat
      position from nothing. */
  lemma {:induction false} IncreaseBasis(divide: (real, real) -> real, s: Account, event: ExecutionEvent, profile: InstrumentProfile, plan: Option<Id>, m: Movement)
    requires DistinctPositions(s.positions) && !MeetsOpposite(s, event) && Move(divide, s, event, profile, plan) == Ok(m)
    requires forall i :: 0 <= i < |s.positions| && s.positions[i].quantity == 0.0 ==> s.positions[i].remainingCostBasis == 0.0
    ensures var i := PositionIndex(s.positions, event.symbol);
      && m.gross == 0.0 && m.position.symbol == event.symbol
      && m.position.remainingCostBasis == (if i < |s.positions| then s.positions[i].remainingCostBasis else 0.0) + Notional(event)
  {
    hide Notional, TotalFee, AvailableBalance, MeetsOpposite, PositionIndex, TradeIndex;
    OppositeIsReduction(s, event);
  }

  /** An accepted fill that meets no opposite position takes exactly its cost from the free cash,
      and never more than there is. */
  lemma {:induction false} OpeningTakesItsCost(divide: (real, real) -> real, origin: Account, s: Account, members: seq<Member>,
                                               event: ExecutionEvent, profile: InstrumentProfile, plan: Option<Id>)
    requires LedgerOk(origin, s, members) && !MeetsOpposite(s, event)
    requires ApplyFill(divide, s, event, profile, plan).Ok?
    ensures var next := ApplyFill(divide, s, event, profile, plan).value;
      Free(next) == Free(s) - Cost(event) && Free(next) >= 0.0
  {
    hide GuardScope, GuardOrder, ValidateUnits, Val, SumReal, ReservedCollateral, MeetsOpposite, Move, PositionIndex, TradeIndex, Increase,
         ReplaceTrade, PutPosition, LedgerOk;
    AcceptedInScope(divide, s, event, profile, plan);
    LedgerPositions(origin, s, members);
    OpeningRefused(divide, s, event, profile, plan);
    var m := Move(divide, s, event, profile, plan).value;
    IncreaseBasis(divide, s, event, profile, plan, m);
    ReservedBooked(s, event, m);
    OpeningAfford(divide, s, event, profile, plan);
  }

  lemma {:induction false} AcceptedInScope(divide: (real, real) -> real, s: Account, event: ExecutionEvent, profile: InstrumentProfile, plan: Option<Id>)
    requires ApplyFill(divide, s, event, profile, plan).Ok?
    ensures Acceptable(s, event, profile)
    ensures Move(divide, s, event, profile, plan).Ok?
    ensures ApplyFill(divide, s, event, profile, plan).value == Book(s, event, Move(divide, s, event, profile, plan).value)
  {
    hide GuardScope, GuardOrder, ValidateUnits, Move, Book, SchemaValid;
  }

  lemma {:induction false} OpeningAfford(divide: (real, real) -> real, s: Account, event: ExecutionEvent, profile: InstrumentProfile, plan: Option<Id>)
    requires DistinctPositions(s.positions) && !MeetsOpposite(s, event) && ApplyFill(divide, s, event, profile, plan).Ok?
    ensures Cost(event) <= Free(s)
  {
    hide ApplyFill, ReservedCollateral, Val, SumReal, MeetsOpposite, Acceptable;
    AcceptedInScope(divide, s, event, profile, plan);
    OpeningRefused(divide, s, event, profile, plan);
  }

  lemma {:induction false} LedgerPositions(origin: Account, s: Account, members: seq<Member>)
    requires LedgerOk(origin, s, members)
    ensures DistinctPositions(s.positions)
    ensures forall i :: 0 <= i < |s.positions| && s.positions[i].quantity == 0.0 ==> s.positions[i].remainingCostBasis == 0.0
  {
    forall i | 0 <= i < |s.positions| && s.positions[i].quantity == 0.0 ensures s.positions[i].remainingCostBasis == 0.0 {
      FlatHasNoBasis(origin, s, members, i);
    }
  }

  // ---- fills that raise what is held -------------------------------------------------

  /** A division that keeps the sign of non-negative amounts. */
  ghost predicate KeepsSign(divide: (real, real) -> real) {
    forall x, y :: x >= 0.0 && y > 0.0 ==> divide(x, y) >= 0.0
  }

  lemma {:induction false} ScaledSign(x: real, e: int)
    requires x >= 0.0
    ensures Scaled(x, e) >= 0.0
  {
    ScaledOrder(x, 0.0, e);
    ScaledZero(0.0, e);
  }

  lemma {:induction false} RoundedSign(x: real, digits: nat)
    requires digits >= 1 && x >= 0.0
    ensures Val(RoundedTo(x, digits)) >= 0.0
  {
    hide Scaled;
    if x == 0.0 {
      ScaledZero(0.0, 0);
    } else {
      var e := Magnitude(x) - (digits - 1);
      ScaledSign(x, -e);
      ScaledSign(HalfEven(Scaled(x, -e)) as real, e);
    }
  }

  /** The policy's quotient is such a division. */
  lemma {:induction false} PolicyKeepsSign()
    ensures KeepsSign((x: real, y: real) => if y == 0.0 then 0.0 else Quotient(x, y))
  {
    hide Scaled;
    forall x: real, y: real | x >= 0.0 && y > 0.0 ensures Quotient(x, y) >= 0.0 {
      SignOfRatio(x, y);
      RoundedSign(x / y, DIVISION_PRECISION);
    }
  }

  lemma {:induction false} SignOfRatio(x: real, y: real)
    requires x >= 0.0 && y > 0.0
    ensures x / y >= 0.0
  {
  }

  lemma {:induction false} ProductSign(x: real, y: real)
    requires x >= 0.0 && y >= 0.0
    ensures x * y >= 0.0
  {
  }

  /** A reduction holds no more basis than before. */
  lemma {:induction false} ReductionReleases(divide: (real, real) -> real, s: Account, event: ExecutionEvent, m: Movement, i: nat)
    requires KeepsSign(divide) && SchemaValid(s) && i < |s.positions| && s.positions[i].quantity != 0.0 && Val(event.quantity) > 0.0
    requires Reduce(divide, s, i, event) == Ok(m)
    ensures m.position.remainingCostBasis <= s.positions[i].remainingCostBasis && m.position.symbol == s.positions[i].symbol
  {
    hide Val, Notional, TradeIndex;
    var p := s.positions[i];
    if Val(event.quantity) != p.quantity {
      ProductSign(divide(p.remainingCostBasis, p.quantity), Val(event.quantity));
    }
  }

  /** Whatever a fill does, if more is held after it than before, the free cash is not negative. */
  lemma {:induction false} RaisedWithinBalance(divide: (real, real) -> real, origin: Account, s: Account, members: seq<Member>,
                                               event: ExecutionEvent, profile: InstrumentProfile, plan: Option<Id>)
    requires KeepsSign(divide) && LedgerOk(origin, s, members) && ApplyFill(divide, s, event, profile, plan).Ok?
    requires ReservedCollateral(ApplyFill(divide, s, event, profile, plan).value.positions) > ReservedCollateral(s.positions)
    ensures AvailableBalance(ApplyFill(divide, s, event, profile, plan).value) >= 0.0
  {
    hide ReservedCollateral, Val, SumReal, MeetsOpposite, ApplyFill, LedgerOk, Reduce, Increase, PositionIndex, KeepsSign, Book;
    if MeetsOpposite(s, event) {
      AcceptedInScope(divide, s, event, profile, plan);
      LedgerPositions(origin, s, members);
      OppositeIsReduction(s, event);
      SettledSigns(s, event, profile);
      var i := PositionIndex(s.positions, event.symbol);
      var m := Move(divide, s, event, profile, plan).value;
      ReductionReleases(divide, s, event, m, i);
      ReservedBooked(s, event, m);
    } else {
      OpeningTakesItsCost(divide, origin, s, members, event, profile, plan);
    }
  }

  lemma {:induction false} SettledSigns(s: Account, event: ExecutionEvent, profile: InstrumentProfile)
    requires Acceptable(s, event, profile)
    ensures SchemaValid(s) && Val(event.quantity) > 0.0
  {
    hide Val, ValidateUnits, SumReal;
  }
}
