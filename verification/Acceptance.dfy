/** Exactly which fills a reachable account accepts. */
module Acceptance {
  import opened Wrappers
  import opened DecimalPolicy
  import opened ExecutionModels
  import opened Accounting
  import opened TradeProjection
  import opened LedgerInvariant
  import opened LedgerHistory
  import opened PartialCloses
  import opened Balances

  /** A well-formed fill of the account on the instrument. */
  predicate InScope(origin: Account, e: ExecutionEvent, profile: InstrumentProfile) {
    && Val(e.price) > 0.0 && Val(e.quantity) > 0.0 && 1 <= |e.fees| <= 16
    && (forall i :: 0 <= i < |e.fees| ==> e.fees[i] >= 0.0)
    && e.filledAt <= e.receivedAt && e.sequence > 0
    && e.accountId == origin.accountId && e.executionSource == origin.executionSource
    && e.instrumentReference == profile.reference && e.symbol == profile.symbol
  }

  /** After the account was created, and behind none of the fills already booked. */
  ghost predicate InTime(origin: Account, inputs: seq<Input>, e: ExecutionEvent) {
    && origin.createdAt <= e.filledAt
    && forall i :: 0 <= i < |inputs| ==>
         var earlier := inputs[i].event;
         earlier.receivedAt <= e.receivedAt && earlier.filledAt <= e.filledAt && earlier.sequence < e.sequence
  }

  /** A fill against an open position is covered if that holds as much and releases no more basis
      than it has; any other if the free cash pays for it, on the instrument of the position it
      adds to. */
  ghost predicate Covered(divide: (real, real) -> real, s: Account, e: ExecutionEvent, profile: InstrumentProfile) {
    if MeetsOpposite(s, e) then
      forall p :: p in s.positions && p.symbol == e.symbol ==>
        Val(e.quantity) <= p.quantity
        && (Val(e.quantity) < p.quantity ==> divide(p.remainingCostBasis, p.quantity) * Val(e.quantity) <= p.remainingCostBasis)
    else
      && Cost(e) <= Free(s)
      && forall p :: p in s.positions && p.symbol == e.symbol && p.quantity != 0.0 ==> p.instrumentReference == profile.reference
  }

  // ---- units -----------------------------------------------------------------------

  function Steps(n: int, step: real): real {
    n as real * step
  }

  /** A whole number of positive steps. */
  ghost predicate OnStep(x: real, step: real) {
    step > 0.0 && exists n :: Steps(n, step) == x
  }

  /** A positive number on the step, in no more places and digits than the instrument allows. */
  ghost predicate Written(profile: InstrumentProfile, d: Decimal, step: real) {
    && Val(d) > 0.0 && OnStep(Val(d), step)
    && Width(d) <= 512 && -512 <= d.exp <= 512
    && -d.exp <= profile.maximumDecimalPlaces && Width(d) <= profile.maximumSignificantDigits
  }

  ghost predicate Representable(profile: InstrumentProfile, price: Decimal, quantity: Decimal) {
    && Written(profile, price, profile.priceTick) && Written(profile, quantity, profile.quantityStep)
    && Val(quantity) >= profile.minimumQuantity
  }

  lemma {:induction false} MultipleIs(x: real, step: real)
    ensures IsMultiple(x, step) <==> OnStep(x, step)
  {
    if IsMultiple(x, step) {
      assert Steps((x / step).Floor, step) == x;
    }
    if OnStep(x, step) {
      var n :| Steps(n, step) == x;
      StepsBack(n, step);
    }
  }

  lemma {:induction false} StepsBack(n: int, step: real)
    requires step > 0.0
    ensures Steps(n, step) / step == n as real && (n as real).Floor == n
  {
  }

  lemma {:induction false} UnitsAre(profile: InstrumentProfile, price: Decimal, quantity: Decimal)
    ensures ValidateUnits(profile, Some(price), quantity).None? <==> Representable(profile, price, quantity)
  {
    hide Val, Width, IsMultiple, OnStep;
    MultipleIs(Val(price), profile.priceTick);
    MultipleIs(Val(quantity), profile.quantityStep);
  }

  // ---- the guards ------------------------------------------------------------------

  lemma {:induction false} RunScope(divide: (real, real) -> real, origin: Account, inputs: seq<Input>)
    requires Run(divide, origin, inputs).Ok?
    ensures var s := Run(divide, origin, inputs).value.0;
      && s.accountId == origin.accountId && s.executionSource == origin.executionSource && s.createdAt == origin.createdAt
      && (SchemaValid(s) <==> origin.initialBalance > 0.0)
    decreases |inputs|
  {
    hide MemberOf, Move, GuardOrder, ValidEvent, PutPosition, ReplaceTrade;
    if inputs != [] {
      RunScope(divide, origin, inputs[..|inputs| - 1]);
    }
  }

  lemma {:induction false} GuardScopeIs(origin: Account, s: Account, e: ExecutionEvent, profile: InstrumentProfile)
    requires s.accountId == origin.accountId && s.executionSource == origin.executionSource
    requires SchemaValid(s) <==> origin.initialBalance > 0.0
    ensures GuardScope(s, e, profile).None? <==> origin.initialBalance > 0.0 && InScope(origin, e, profile)
  {
    hide Val, SchemaValid;
  }

  lemma {:induction false} GuardOrderIs(divide: (real, real) -> real, origin: Account, inputs: seq<Input>, e: ExecutionEvent, profile: InstrumentProfile)
    requires Run(divide, origin, inputs).Ok? && InScope(origin, e, profile)
    ensures GuardOrder(Run(divide, origin, inputs).value.0, e).None? <==> InTime(origin, inputs, e)
  {
    hide Run, Val;
    RunInOrder(divide, origin, inputs);
  }

  // ---- what a movement leaves ------------------------------------------------------

  /** A movement to sound amounts leaves a valid account. */
  lemma {:induction false} BookValid(s: Account, e: ExecutionEvent, m: Movement)
    requires SchemaValid(s) && ValidEvent(e)
    requires m.position.quantity >= 0.0 && m.position.remainingCostBasis >= 0.0
    requires m.trade.totalFees >= 0.0 && m.trade.totalEntryNotional > 0.0
    ensures SchemaValid(Book(s, e, m))
  {
    hide Val, TotalFee, PositionIndex;
    SumNotNegative(e.fees);
    FeeIs(e);
    var next := Book(s, e, m);
    forall i | 0 <= i < |next.positions| ensures next.positions[i].quantity >= 0.0 && next.positions[i].remainingCostBasis >= 0.0 {
    }
    forall i | 0 <= i < |next.trades| ensures next.trades[i].totalFees >= 0.0 && next.trades[i].totalEntryNotional > 0.0 {
    }
  }

  lemma {:induction false} NotionalPositive(e: ExecutionEvent)
    requires ValidEvent(e)
    ensures Notional(e) > 0.0
  {
    hide Val;
  }

  /** The position at an index, if it holds anything, is of the instrument. */
  predicate SameInstrument(s: Account, i: nat, profile: InstrumentProfile) {
    i < |s.positions| && s.positions[i].quantity != 0.0 ==> s.positions[i].instrumentReference == profile.reference
  }

  /** An increase is booked exactly if it is paid for and stays on the instrument. */
  lemma {:induction false} IncreaseAccepted(origin: Account, s: Account, members: seq<Member>, e: ExecutionEvent,
                                            profile: InstrumentProfile, plan: Option<Id>)
    requires LedgerOk(origin, s, members) && SchemaValid(s) && ValidEvent(e)
    ensures var i := PositionIndex(s.positions, e.symbol); var r := Increase(s, e, profile, plan);
      && (r.Ok? <==> Cost(e) <= Free(s) && SameInstrument(s, i, profile))
      && (r.Ok? ==> SchemaValid(Book(s, e, r.value)))
  {
    hide Val, SumReal, ReservedCollateral, EventsOf, TradeOk, NetOf, Remaining, Basis, Book, PositionIndex, TradeIndex, Notional, ValidEvent;
    NotionalPositive(e);
    QuantityAbove(e);
    assert Cost(e) == Notional(e) + TotalFee(e) by { CostIs(e); }
    var i := PositionIndex(s.positions, e.symbol);
    if i < |s.positions| {
      assert BoundOk(s.positions[i], s.trades);
    }
    var r := Increase(s, e, profile, plan);
    if r.Ok? {
      BookValid(s, e, r.value);
    }
  }

  lemma {:induction false} QuantityAbove(e: ExecutionEvent)
    requires ValidEvent(e)
    ensures Val(e.quantity) > 0.0
  {
    hide Val;
  }

  lemma {:induction false} CostIs(e: ExecutionEvent)
    ensures Cost(e) == Notional(e) + TotalFee(e)
  {
    hide Val, SumReal;
  }

  /** A reduction is booked exactly if as much is held and no more basis is released than that. */
  lemma {:induction false} ReduceAccepted(divide: (real, real) -> real, origin: Account, s: Account, members: seq<Member>, e: ExecutionEvent, i: nat)
    requires LedgerOk(origin, s, members) && SchemaValid(s) && ValidEvent(e) && i < |s.positions|
    ensures var p := s.positions[i]; var r := Reduce(divide, s, i, e);
      && (r.Ok? <==> Val(e.quantity) <= p.quantity)
      && (r.Ok? ==> (SchemaValid(Book(s, e, r.value))
            <==> Val(e.quantity) < p.quantity ==> divide(p.remainingCostBasis, p.quantity) * Val(e.quantity) <= p.remainingCostBasis))
  {
    hide Val, SumReal, EventsOf, TradeOk, NetOf, Remaining, Basis, Book, PositionIndex, TradeIndex, Notional, ValidEvent;
    assert BoundOk(s.positions[i], s.trades);
    var p, r := s.positions[i], Reduce(divide, s, i, e);
    if r.Ok? {
      var m := r.value;
      if m.position.remainingCostBasis >= 0.0 {
        BookValid(s, e, m);
      } else {
        BookShows(s, e, m);
      }
    }
  }

  lemma {:induction false} BookShows(s: Account, e: ExecutionEvent, m: Movement)
    ensures m.position in Book(s, e, m).positions
    ensures SchemaValid(Book(s, e, m)) ==> m.position.remainingCostBasis >= 0.0
  {
    hide TotalFee, ReplaceTrade;
    var i := PositionIndex(s.positions, m.position.symbol);
    var next := Book(s, e, m);
    assert next.positions[if i < |s.positions| then i else |s.positions|] == m.position;
  }

  lemma {:induction false} CoveredExactly(divide: (real, real) -> real, origin: Account, s: Account, members: seq<Member>,
                                          e: ExecutionEvent, profile: InstrumentProfile, plan: Option<Id>)
    requires LedgerOk(origin, s, members) && Acceptable(s, e, profile)
    ensures ApplyFill(divide, s, e, profile, plan).Ok? <==> Covered(divide, s, e, profile)
  {
    hide GuardOrder, ValidateUnits, Val, SumReal, MeetsOpposite, Increase, Reduce, Book, SchemaValid, ValidEvent, LedgerOk, Cost, Free, PositionIndex;
    LedgerPositions(origin, s, members);
    OppositeIsReduction(s, e);
    var i := PositionIndex(s.positions, e.symbol);
    forall k | 0 <= k < |s.positions| && s.positions[k].symbol == e.symbol ensures k == i {
      BoundToPosition(s.positions, k);
    }
    if MeetsOpposite(s, e) {
      ReduceAccepted(divide, origin, s, members, e, i);
    } else {
      IncreaseAccepted(origin, s, members, e, profile, plan);
    }
  }

  /** After any run, a fill is accepted exactly if it is well-formed and in scope, representable on
      its instrument, in time after every fill booked so far, and covered by what is held. */
  lemma {:induction false} AcceptedExactly(divide: (real, real) -> real, origin: Account, inputs: seq<Input>,
                                           e: ExecutionEvent, profile: InstrumentProfile, plan: Option<Id>)
    requires DistinctEvents(inputs) && Run(divide, origin, inputs).Ok?
    ensures var s := Run(divide, origin, inputs).value.0;
      ApplyFill(divide, s, e, profile, plan).Ok?
      <==> && origin.initialBalance > 0.0 && InScope(origin, e, profile)
           && Representable(profile, e.price, e.quantity)
           && InTime(origin, inputs, e) && Covered(divide, s, e, profile)
  {
    hide Run, GuardScope, GuardOrder, ValidateUnits, Move, SchemaValid, InScope, InTime, Covered, LedgerOk, Book, Representable;
    UnitsAre(profile, e.price, e.quantity);
    RunScope(divide, origin, inputs);
    ReachableOk(divide, origin, inputs);
    var (s, members) := Run(divide, origin, inputs).value;
    GuardScopeIs(origin, s, e, profile);
    if InScope(origin, e, profile) {
      GuardOrderIs(divide, origin, inputs, e, profile);
    }
    if Acceptable(s, e, profile) {
      CoveredExactly(divide, origin, s, members, e, profile, plan);
    }
  }
}
