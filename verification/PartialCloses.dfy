/** When a partial close can release more basis than a position holds: exactly how far the
    rounding of an average cost may go. */
module PartialCloses {
  import opened Wrappers
  import opened DecimalPolicy
  import opened ExecutionModels
  import opened Accounting

  /** One unit in the fiftieth significant digit of 1. */
  ghost function Unit(): (u: real)
  {
    Scaled(1.0, -49)
  }

  ghost function Grid(): real {
    Scaled(1.0, 49)
  }

  lemma {:induction false} UnitFacts()
    ensures Unit() > 0.0 && Unit() * Grid() == 1.0
    ensures Grid() == Pow(10, 49) as real
  {
    hide Scaled, Pow;
    ScaledOrder(0.0, 1.0, -49);
    ScaledZero(1.0, -49);
    ScaledTimesScaled(1.0, -49, 1.0, 49);
    assert 1.0 * 1.0 == 1.0;
    ScaledAtZero(1.0);
    PowAsScaled(49);
  }

  lemma {:induction false} ScaledAtZero(x: real)
    ensures Scaled(x, 0) == x
  {
  }

  /** What a caller can check of a partial close: nothing rounds, or what is left is at least
      about half a unit of what is sold. */
  ghost predicate NeverOverdraws(held: real, sold: real)
    requires held != 0.0
  {
    FiniteExpansion(1.0 / held) || sold * (1.0 + Unit()) <= held * (1.0 + Unit() / 2.0)
  }

  // ---- how far rounding goes up ----------------------------------------------------

  lemma {:induction false} RealProducts(n: real, y: real, t: real, u: real)
    requires u > 0.0 && u * t == 1.0 && y >= 0.0
    requires n <= y || (n <= y + 0.5 && n >= t + 1.0)
    ensures n * (1.0 + u / 2.0) <= y * (1.0 + u)
  {
    if n <= y {
      ScaleBoth(n, y, 1.0 + u / 2.0);
      assert y * (1.0 + u) == y * (1.0 + u / 2.0) + y * (u / 2.0);
      ScaleBoth(0.0, y, u / 2.0);
    } else {
      var p, b := n * u, y * (1.0 + u);
      assert n + p - 0.5 - 0.5 * u <= b by {
        Expand(n, u);
        ScaleBoth(n - 0.5, y, 1.0 + u);
      }
      assert 1.0 + u <= p by {
        MulCommutes(u, t);
        ScaleBoth(t + 1.0, n, u);
        assert (t + 1.0) * u == t * u + u;
      }
      Expand(n, u);
      assert n * (1.0 + u / 2.0) == n + p / 2.0;
    }
  }

  lemma {:induction false} Expand(n: real, u: real)
    ensures (n - 0.5) * (1.0 + u) == n + n * u - 0.5 - 0.5 * u
    ensures n * (1.0 + u / 2.0) == n + (n * u) / 2.0
  {
  }

  lemma {:induction false} ScaleBoth(x: real, y: real, a: real)
    requires x <= y && a >= 0.0
    ensures x * a <= y * a
  {
  }

  lemma {:induction false} HalfEvenUp(y: real, t: int)
    requires y >= t as real
    ensures HalfEven(y) as real <= y || (HalfEven(y) as real <= y + 0.5 && HalfEven(y) >= t + 1)
  {
    HalfEvenError(y);
  }

  /** Correct rounding to fifty digits goes up by less than half a unit, relatively. */
  lemma {:induction false} RoundedUp(x: real)
    requires x > 0.0
    ensures Val(RoundedTo(x, 50)) * (1.0 + Unit() / 2.0) <= x * (1.0 + Unit())
  {
    hide Scaled, Pow, Unit, Grid, HalfEven;
    UnitFacts();
    var u, t := Unit(), Pow(10, 49);
    var m := Magnitude(x);
    var e := m - 49;
    var y := Scaled(x, -e);
    LeadingDigit(x, m);
    HalfEvenUp(y, t);
    var n := HalfEven(y) as real;
    assert y >= 0.0 by { PowPositive(10, 49); }
    RealProducts(n, y, t as real, u);
    ScaledBoth(n, 1.0 + u / 2.0, y, 1.0 + u, e);
    ScaledCompose(x, -e, e);
    ScaledAtZero(x);
  }

  lemma {:induction false} ScaledBoth(n: real, a: real, y: real, b: real, e: int)
    requires n * a <= y * b
    ensures Scaled(n, e) * a <= Scaled(y, e) * b
  {
    hide Scaled;
    ScaledOrder(y * b, n * a, e);
    ScaledTimes(n, a, e);
    ScaledTimes(y, b, e);
  }

  lemma {:induction false} ScaledTimes(n: real, a: real, e: int)
    ensures Scaled(n, e) * a == Scaled(n * a, e)
  {
    hide Scaled;
    ScaledProduct(a, n, e);
    MulCommutes(a, n);
    MulCommutes(a, Scaled(n, e));
  }

  lemma {:induction false} LeadingDigit(x: real, m: int)
    requires Scaled(1.0, m) <= x
    ensures Scaled(x, 49 - m) >= Pow(10, 49) as real
  {
    hide Scaled, Pow;
    ScaledOrder(x, Scaled(1.0, m), 49 - m);
    ScaledCompose(1.0, m, 49 - m);
    PowAsScaled(49);
  }

  // ---- sufficient ------------------------------------------------------------------

  lemma {:induction false} FiniteProduct(x: real, y: real)
    requires FiniteExpansion(x) && FiniteExpansion(y)
    ensures FiniteExpansion(x * y)
  {
    hide Scaled;
    var a :| Val(a) == x;
    var b :| Val(b) == y;
    ValProduct(a, b);
    assert Val(Decimal(a.coeff * b.coeff, a.exp + b.exp)) == x * y;
  }

  lemma {:induction false} FiniteSum(x: real, y: real)
    requires FiniteExpansion(x) && FiniteExpansion(y)
    ensures FiniteExpansion(x + y) && FiniteExpansion(x - y)
  {
    hide Scaled, Add;
    var a :| Val(a) == x;
    var b :| Val(b) == y;
    AddIsExact(a, b);
    assert Val(Add(a, b)) == x + y;
    NegateValue(b);
    AddIsExact(a, Negate(b));
    assert Val(Add(a, Negate(b))) == x - y;
  }

  lemma {:induction false} DivideAsTimes(x: real, y: real)
    requires y != 0.0
    ensures x / y == x * (1.0 / y) && (x / y) * y == x
  {
  }

  lemma {:induction false} FiniteQuotient(x: real, y: real)
    requires y != 0.0 && FiniteExpansion(x) && FiniteExpansion(1.0 / y)
    ensures FiniteExpansion(x / y)
  {
    hide FiniteExpansion;
    var inverse := 1.0 / y;
    FiniteProduct(x, inverse);
    SameFinite(x * inverse, x / y);
  }

  lemma {:induction false} SameFinite(x: real, y: real)
    requires FiniteExpansion(x) && x == y
    ensures FiniteExpansion(y)
  {
  }

  lemma {:induction false} CrossBound(q: real, x: real, held: real, sold: real, a: real, b: real)
    requires q * a <= x * b && a > 0.0 && x >= 0.0 && sold > 0.0 && sold * b <= held * a
    ensures q * sold <= x * held
  {
    ScaleBoth(q * a, x * b, sold);
    ScaleBoth(sold * b, held * a, x);
    assert (q * sold) * a == (q * a) * sold;
    assert (x * b) * sold == (sold * b) * x;
    assert (held * a) * x == (x * held) * a;
    CancelPositive(q * sold, x * held, a);
  }

  lemma {:induction false} CancelPositive(x: real, y: real, a: real)
    requires a > 0.0 && x * a <= y * a
    ensures x <= y
  {
  }

  /** Under the condition no basis is ever overdrawn. */
  lemma {:induction false} ConditionSuffices(basis: real, held: real, sold: real)
    requires 0.0 < sold < held && basis >= 0.0 && FiniteExpansion(basis) && NeverOverdraws(held, sold)
    ensures Quotient(basis, held) * sold <= basis
  {
    hide Scaled, Unit, RoundedTo, FiniteExpansion;
    var x := basis / held;
    DivideAsTimes(basis, held);
    assert x >= 0.0;
    if FiniteExpansion(1.0 / held) {
      FiniteQuotient(basis, held);
      ScaleBoth(sold, held, x);
      MulCommutes(x, sold);
      MulCommutes(x, held);
    } else if FiniteExpansion(x) {
      ScaleBoth(sold, held, x);
      MulCommutes(x, sold);
      MulCommutes(x, held);
    } else {
      UnitFacts();
      if x == 0.0 {
        FiniteZero();
        assert false;
      }
      RoundedUp(x);
      CrossBound(Quotient(basis, held), x, held, sold, 1.0 + Unit() / 2.0, 1.0 + Unit());
    }
  }

  lemma {:induction false} FiniteZero()
    ensures FiniteExpansion(0.0)
  {
    assert Val(Decimal(0, 0)) == 0.0;
  }

  // ---- necessary -------------------------------------------------------------------

  lemma {:induction false} ScaledOne(e: int)
    ensures e >= 1 ==> Scaled(1.0, e) >= 10.0
    ensures e <= 0 ==> Scaled(1.0, e) <= 1.0
    decreases Abs(e)
  {
    if e > 1 {
      ScaledOne(e - 1);
    } else if e < 0 {
      ScaledOne(e + 1);
      ScaledOrder(0.0, 1.0, e + 1);
      ScaledZero(1.0, e + 1);
    }
  }

  lemma {:induction false} MagnitudeOfOne(x: real)
    requires 1.0 <= x < 10.0
    ensures Magnitude(x) == 0
  {
    hide Scaled;
    var e := Magnitude(x);
    ScaledOne(e);
    ScaledOne(e + 1);
  }

  /** Just above the middle between 1 and the next number of fifty digits, rounding gives the
      next number. */
  lemma {:induction false} RoundsToNext(x: real)
    requires 1.0 + Unit() / 2.0 < x < 1.0 + Unit() && Unit() <= 1.0
    ensures Val(RoundedTo(x, 50)) == 1.0 + Unit()
  {
    hide Scaled, Pow, Unit, Grid;
    UnitFacts();
    GridPositive();
    MagnitudeOfOne(x);
    var t := Pow(10, 49);
    var y := Scaled(x, 49);
    assert y == x * Grid() by {
      ScaledProduct(x, 1.0, 49);
      GridIs();
      assert x * 1.0 == x;
    }
    Widen(x, Unit(), Grid(), y);
    NextInteger(y, t);
    assert Val(RoundedTo(x, 50)) == Scaled((t + 1) as real, -49);
    ScaledSum(t as real, 1.0, -49);
    GridIs();
    ScaledCompose(1.0, 49, -49);
    ScaledAtZero(1.0);
  }

  lemma {:induction false} GridPositive()
    ensures Grid() > 0.0
  {
    ScaledOrder(0.0, 1.0, 49);
    ScaledZero(1.0, 49);
  }

  lemma {:induction false} GridIs()
    ensures Grid() == Scaled(1.0, 49) && Unit() == Scaled(1.0, -49)
  {
  }

  lemma {:induction false} Widen(x: real, u: real, g: real, y: real)
    requires u * g == 1.0 && g > 0.0 && y == x * g && 1.0 + u / 2.0 < x < 1.0 + u
    ensures g + 0.5 < y < g + 1.0
  {
    StrictScale(1.0 + u / 2.0, x, g);
    StrictScale(x, 1.0 + u, g);
    assert (1.0 + u / 2.0) * g == g + (u * g) / 2.0;
    assert (1.0 + u) * g == g + u * g;
  }

  lemma {:induction false} StrictScale(x: real, y: real, a: real)
    requires x < y && a > 0.0
    ensures x * a < y * a
  {
  }

  lemma {:induction false} NextInteger(y: real, t: int)
    requires t as real + 0.5 < y < (t + 1) as real
    ensures HalfEven(y) == t + 1
  {
  }

  /** A decimal below any positive number. */
  lemma {:induction false} SmallDecimal(gap: real) returns (k: int)
    requires gap > 0.0
    ensures 0.0 < Scaled(1.0, -k) < gap
  {
    hide Scaled;
    var n := ManyTimes(gap);
    GrowsPast(gap, n);
    k := n;
    ScaledOrder(1.0, Scaled(gap, k), -k);
    ScaledCompose(gap, k, -k);
    ScaledAtZero(gap);
    ScaledOrder(0.0, 1.0, -k);
    ScaledZero(1.0, -k);
  }

  lemma {:induction false} ManyTimes(gap: real) returns (n: nat)
    requires gap > 0.0
    ensures gap * n as real >= 2.0
  {
    var r := 2.0 / gap;
    ExactQuotient(r, 2.0, gap);
    assert r >= 0.0;
    n := r.Floor + 1;
    ScaleBoth(r, n as real, gap);
    MulCommutes(gap, n as real);
  }

  /** A tiny decimal over a number whose inverse is not a decimal is not a decimal. */
  lemma {:induction false} TinyShare(held: real, k: int)
    requires held != 0.0 && !FiniteExpansion(1.0 / held)
    ensures !FiniteExpansion(Scaled(1.0, -k) / held)
  {
    hide Scaled, FiniteExpansion;
    var tiny, inverse := Scaled(1.0, -k), 1.0 / held;
    if FiniteExpansion(tiny / held) {
      FinitePower(k);
      var share, big := tiny / held, Scaled(1.0, k);
      FiniteProduct(big, share);
      ScaledTimesScaled(1.0, k, 1.0, -k);
      ScaledAtZero(1.0);
      assert big * tiny == 1.0;
      Regroups(big, tiny, share, held);
      SameFinite(big * share, inverse);
    }
  }

  lemma {:induction false} Regroups(big: real, tiny: real, share: real, held: real)
    requires held != 0.0 && share == tiny / held && big * tiny == 1.0
    ensures big * share == 1.0 / held
  {
    ExactQuotient(share, tiny, held);
    assert (big * share) * held == big * (share * held);
    ExactQuotient(big * share, 1.0, held);
  }

  lemma {:induction false} FinitePower(e: int)
    ensures FiniteExpansion(Scaled(1.0, e))
  {
    assert Val(Decimal(1, e)) == Scaled(1.0, e);
  }

  lemma {:induction false} MiddleFinite()
    ensures FiniteExpansion(1.0 + Unit() / 2.0)
  {
    hide Scaled;
    ScaledProduct(5.0, 1.0, -50);
    ScaledStep(1.0, -50);
    assert Val(Decimal(5, -50)) == Scaled(5.0, -50);
    assert 5.0 * 1.0 == 5.0;
    assert Unit() / 2.0 == Scaled(5.0, -50);
    assert Val(Decimal(1, 0)) == 1.0 by { ScaledAtZero(1.0); }
    FiniteSum(1.0, Unit() / 2.0);
  }

  /** Without the condition there is a basis that is overdrawn. */
  lemma {:induction false} ConditionNeeded(held: real, sold: real) returns (basis: real)
    requires 0.0 < sold < held && FiniteExpansion(held) && !NeverOverdraws(held, sold)
    ensures basis >= 0.0 && FiniteExpansion(basis) && Quotient(basis, held) * sold > basis
  {
    hide Scaled, Unit, RoundedTo, FiniteExpansion, Quotient;
    UnitFacts();
    basis := JustAbove(held, sold, 1.0 + Unit() / 2.0, 1.0 + Unit());
    RoundsUpOver(basis, held, sold);
  }

  lemma {:induction false} JustAbove(held: real, sold: real, a: real, b: real) returns (basis: real)
    requires 0.0 < sold < held && FiniteExpansion(held) && !FiniteExpansion(1.0 / held)
    requires a == 1.0 + Unit() / 2.0 && a > 0.0 && b > 0.0 && held * a < sold * b
    ensures basis >= 0.0 && FiniteExpansion(basis) && basis < sold * b
    ensures a < basis / held < b && !FiniteExpansion(basis / held)
  {
    hide Scaled, Unit, FiniteExpansion;
    var low, high := held * a, sold * b;
    var k := SmallDecimal(high - low);
    var tiny := Scaled(1.0, -k);
    basis := low + tiny;
    MiddleFinite();
    FiniteProduct(held, a);
    FinitePower(-k);
    FiniteSum(low, tiny);
    ScaleBoth(0.0, a, held);
    MulCommutes(held, a);
    TinyShare(held, k);
    ShareSplits(low, tiny, held, a);
    NotFinite(basis / held, tiny / held);
    Between(basis / held, basis, held, a, b, sold);
  }

  lemma {:induction false} NotFinite(x: real, y: real)
    requires !FiniteExpansion(y) && x == 1.0 + Unit() / 2.0 + y
    ensures !FiniteExpansion(x)
  {
    hide FiniteExpansion, Unit;
    if FiniteExpansion(x) {
      MiddleFinite();
      FiniteSum(x, 1.0 + Unit() / 2.0);
      SameFinite(x - (1.0 + Unit() / 2.0), y);
    }
  }

  lemma {:induction false} RoundsUpOver(basis: real, held: real, sold: real)
    requires held != 0.0 && !FiniteExpansion(basis / held) && basis < sold * (1.0 + Unit())
    requires 1.0 + Unit() / 2.0 < basis / held < 1.0 + Unit()
    ensures Quotient(basis, held) * sold > basis
  {
    hide FiniteExpansion, Unit, RoundedTo, Scaled;
    UnitSmall();
    RoundsToNext(basis / held);
    MulCommutes(sold, 1.0 + Unit());
  }

  lemma {:induction false} UnitSmall()
    ensures Unit() <= 1.0
  {
    ScaledOne(-49);
  }

  lemma {:induction false} ShareSplits(low: real, tiny: real, held: real, a: real)
    requires held > 0.0 && low == held * a
    ensures (low + tiny) / held == a + tiny / held
  {
    DivideAsTimes(low, held);
    DivideAsTimes(tiny, held);
    assert (a + tiny / held) * held == low + tiny;
    ExactQuotient(a + tiny / held, low + tiny, held);
  }

  lemma {:induction false} Between(x: real, basis: real, held: real, a: real, b: real, sold: real)
    requires held > 0.0 && 0.0 < sold < held && b > 0.0
    requires x == basis / held && held * a < basis < sold * b
    ensures a < x < b
  {
    DivideAsTimes(basis, held);
    if x <= a {
      ScaleBoth(x, a, held);
      MulCommutes(a, held);
    }
    if b <= x {
      ScaleBoth(b, x, held);
      ScaleBoth(sold, held, b);
      MulCommutes(sold, b);
      MulCommutes(b, held);
    }
  }

  /** Over every basis a position may hold, a partial close never releases more than is there
      exactly when the inverse of the held quantity is a decimal or what is left is large enough
      against what is sold. */
  lemma {:induction false} OverdrawsExactly(held: real, sold: real)
    requires 0.0 < sold < held && FiniteExpansion(held)
    ensures NeverOverdraws(held, sold)
      <==> forall basis :: basis >= 0.0 && FiniteExpansion(basis) ==> Quotient(basis, held) * sold <= basis
  {
    hide NeverOverdraws, Quotient, FiniteExpansion;
    if NeverOverdraws(held, sold) {
      forall basis | basis >= 0.0 && FiniteExpansion(basis) ensures Quotient(basis, held) * sold <= basis {
        ConditionSuffices(basis, held, sold);
      }
    } else {
      var basis := ConditionNeeded(held, sold);
    }
  }

  // ---- in the ledger ---------------------------------------------------------------

  /** A fill that closes part of a position. */
  predicate ClosesPart(account: Account, event: ExecutionEvent, index: nat) {
    && index < |account.positions| && index == PositionIndex(account.positions, event.symbol)
    && account.positions[index].direction != DirectionOf(event.side)
    && 0.0 < Val(event.quantity) < account.positions[index].quantity
    && TradeIndex(account.trades, account.positions[index].tradeId) < |account.trades|
  }

  /** A partial close in scope and in order is refused exactly when it would release more basis
      than is held, whatever the division. */
  lemma {:induction false} RefusedExactly(divide: (real, real) -> real, account: Account, event: ExecutionEvent,
    profile: InstrumentProfile, plan: Option<Id>, index: nat)
    requires GuardScope(account, event, profile).None? && GuardOrder(account, event).None? && ClosesPart(account, event, index)
    ensures Settle(divide, account, event, profile, plan).Ok?
      <==> ReleasedBasis(divide, account.positions[index], Val(event.quantity)) <= account.positions[index].remainingCostBasis
    ensures Settle(divide, account, event, profile, plan).Err? ==> Settle(divide, account, event, profile, plan) == Err(InvalidProjection)
  {
    hide Val, Notional, TotalFee;
    var m := Reduce(divide, account, index, event).value;
    var next := Book(account, event, m);
    SumNotNegative(event.fees);
    assert next.positions == account.positions[index := m.position];
    assert next.positions[index] == m.position;
    var t := TradeIndex(account.trades, account.positions[index].tradeId);
    assert m.trade.totalFees == account.trades[t].totalFees >= 0.0;
    assert m.trade.totalEntryNotional == account.trades[t].totalEntryNotional > 0.0;
    FeeIs(event);
    forall i | 0 <= i < |next.trades| ensures next.trades[i].totalFees >= 0.0 && next.trades[i].totalEntryNotional > 0.0 {
    }
  }

  lemma {:induction false} FeeIs(event: ExecutionEvent)
    ensures TotalFee(event) == SumReal(event.fees)
  {
  }

  lemma {:induction false} SumNotNegative(xs: seq<real>)
    requires forall i :: 0 <= i < |xs| ==> xs[i] >= 0.0
    ensures SumReal(xs) >= 0.0
    decreases |xs|
  {
    if xs != [] {
      SumNotNegative(xs[..|xs| - 1]);
    }
  }

  /** With the policy's division, a partial close is accepted over every basis the position may
      hold exactly under the condition a caller can check. */
  lemma {:induction false} AcceptedOverEveryBasis(divide: (real, real) -> real, account: Account, event: ExecutionEvent,
    profile: InstrumentProfile, plan: Option<Id>, index: nat)
    requires GuardScope(account, event, profile).None? && GuardOrder(account, event).None? && ClosesPart(account, event, index)
    requires FiniteExpansion(account.positions[index].quantity)
    requires forall x, y :: y != 0.0 ==> divide(x, y) == Quotient(x, y)
    ensures NeverOverdraws(account.positions[index].quantity, Val(event.quantity))
      <==> forall basis :: basis >= 0.0 && FiniteExpansion(basis) ==>
             Settle(divide, WithBasis(account, index, basis), event, profile, plan).Ok?
  {
    hide Val, NeverOverdraws, Quotient, FiniteExpansion, GuardScope, GuardOrder, Settle;
    var held, sold := account.positions[index].quantity, Val(event.quantity);
    OverdrawsExactly(held, sold);
    forall basis | basis >= 0.0
      ensures Settle(divide, WithBasis(account, index, basis), event, profile, plan).Ok? <==> Quotient(basis, held) * sold <= basis
    {
      WithBasisGuards(account, event, profile, index, basis);
      RefusedExactly(divide, WithBasis(account, index, basis), event, profile, plan, index);
    }
  }

  function WithBasis(account: Account, index: nat, basis: real): Account
    requires index < |account.positions|
  {
    account.(positions := account.positions[index := account.positions[index].(remainingCostBasis := basis)])
  }

  lemma {:induction false} WithBasisGuards(account: Account, event: ExecutionEvent, profile: InstrumentProfile, index: nat, basis: real)
    requires GuardScope(account, event, profile).None? && GuardOrder(account, event).None? && ClosesPart(account, event, index)
    requires basis >= 0.0
    ensures var other := WithBasis(account, index, basis);
      GuardScope(other, event, profile).None? && GuardOrder(other, event).None? && ClosesPart(other, event, index)
  {
    hide Val, ValidEvent;
    var other := WithBasis(account, index, basis);
    assert other.positions[index].symbol == event.symbol;
    forall j | 0 <= j < index ensures other.positions[j].symbol != event.symbol {
      assert other.positions[j] == account.positions[j];
    }
  }
}
