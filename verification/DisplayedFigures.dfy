/** What the figures shown for a trade are: on every dashboard and in every detail, from its fills
    alone. */
module DisplayedFigures {
  import opened Wrappers
  import opened ExecutionModels
  import opened DecimalPolicy
  import opened Accounting
  import opened TradeProjection
  import opened LedgerInvariant
  import opened LedgerHistory
  import opened Repository
  import opened AsOf
  import opened Journal
  import opened JournalHistory
  import opened JournalRebuild
  import opened JournalReads

  ghost predicate Exact(divide: (real, real) -> real) {
    forall x, y :: y != 0.0 ==> divide(x, y) * y == x
  }

  // ---- sums over fills ---------------------------------------------------------------

  /** Quantity traded on a side. */
  function Traded(fills: seq<ExecutionEvent>, side: Side): real {
    if fills == [] then 0.0
    else (if fills[0].side == side then Val(fills[0].quantity) else 0.0) + Traded(fills[1..], side)
  }

  /** Price times quantity. */
  function Worth(e: ExecutionEvent): real {
    Val(e.price) * Val(e.quantity)
  }

  /** What the fills on a side are worth. */
  function Value(fills: seq<ExecutionEvent>, side: Side): real {
    if fills == [] then 0.0
    else (if fills[0].side == side then Worth(fills[0]) else 0.0) + Value(fills[1..], side)
  }

  predicate SomeOn(fills: seq<ExecutionEvent>, side: Side) {
    exists i :: 0 <= i < |fills| && fills[i].side == side
  }

  lemma {:induction false} TradedAppend(fills: seq<ExecutionEvent>, e: ExecutionEvent, side: Side)
    ensures Traded(fills + [e], side) == Traded(fills, side) + (if e.side == side then Val(e.quantity) else 0.0)
    ensures Value(fills + [e], side) == Value(fills, side) + (if e.side == side then Worth(e) else 0.0)
    decreases |fills|
  {
    hide Val, Worth;
    if fills == [] {
      assert [e][1..] == [];
    } else {
      TradedAppend(fills[1..], e, side);
      assert (fills + [e])[1..] == fills[1..] + [e];
    }
  }

  lemma {:induction false} WorthIs(e: ExecutionEvent)
    ensures Notional(e) == Worth(e)
  {
    hide Val;
  }

  lemma {:induction false} SumsAre(fills: seq<ExecutionEvent>, side: Side)
    ensures QuantityOn(fills, side) == Traded(fills, side) && NotionalOn(fills, side) == Value(fills, side)
    decreases |fills|
  {
    hide Val, Worth, Notional;
    if fills != [] {
      hide Traded, Value;
      var init, last := fills[..|fills| - 1], fills[|fills| - 1];
      SumsAre(init, side);
      TradedAppend(init, last, side);
      WorthIs(last);
      assert init + [last] == fills;
    }
  }

  ghost predicate Positive(fills: seq<ExecutionEvent>) {
    forall i :: 0 <= i < |fills| ==> Val(fills[i].quantity) > 0.0
  }

  lemma {:induction false} TradedSome(fills: seq<ExecutionEvent>, side: Side)
    requires Positive(fills)
    ensures Traded(fills, side) >= 0.0 && (Traded(fills, side) != 0.0 <==> SomeOn(fills, side))
    decreases |fills|
  {
    hide Val;
    if fills != [] {
      var rest := fills[1..];
      TradedSome(rest, side);
      if i :| 0 <= i < |rest| && rest[i].side == side {
        assert fills[i + 1].side == side;
      }
      if i :| 0 <= i < |fills| && fills[i].side == side {
        if i > 0 {
          assert rest[i - 1].side == side;
        } else {
          assert Val(fills[0].quantity) > 0.0;
        }
      }
    }
  }

  // ---- the figures -------------------------------------------------------------------

  /** Lifetime and remaining quantity, averages of worth over quantity, an exit average exactly if
      something was closed, and the status by that and by the closing time. Where the division is
      exact, a closed trade earned its quantity times the difference of the averages. */
  ghost predicate FiguresOk(divide: (real, real) -> real, trade: Trade, fills: seq<ExecutionEvent>, d: Display) {
    var entry, exit := if trade.direction == Long then Buy else Sell, if trade.direction == Long then Sell else Buy;
    && d.quantity == Traded(fills, entry) && d.remainingQuantity == Traded(fills, entry) - Traded(fills, exit)
    && d.averageEntryPrice == divide(Value(fills, entry), Traded(fills, entry))
    && (d.averageExitPrice.Some? <==> SomeOn(fills, exit))
    && (d.averageExitPrice.Some? ==> d.averageExitPrice.value == divide(Value(fills, exit), Traded(fills, exit)))
    && (d.status == Closed <==> trade.closedAt.Some?)
    && (d.status == PartiallyClosed <==> trade.closedAt.None? && SomeOn(fills, exit))
    && (d.status == Open <==> trade.closedAt.None? && !SomeOn(fills, exit))
    && (trade.closedAt.Some? ==> d.averageExitPrice.Some? && d.remainingQuantity == 0.0)
    && (Exact(divide) ==>
          && d.averageEntryPrice * d.quantity == Value(fills, entry)
          && (d.averageExitPrice.Some? ==> d.averageExitPrice.value * (d.quantity - d.remainingQuantity) == Value(fills, exit))
          && (trade.closedAt.Some? ==>
                trade.grossPnl == (if trade.direction == Long then 1.0 else -1.0)
                                  * (d.quantity * (d.averageExitPrice.value - d.averageEntryPrice))))
  }

  lemma {:induction false} FiguresAre(divide: (real, real) -> real, t: Trade, fills: seq<ExecutionEvent>, remaining: real, basis: real)
    requires TradeOk(t, fills, remaining, basis) && Positive(fills)
    ensures FiguresOk(divide, t, fills, Figures(divide, t, fills))
  {
    hide Traded, Value, QuantityOn, NotionalOn, FeesOf, SomeOn, Positive;
    var entry, exit := EntrySide(t.direction), ExitSide(t.direction);
    SumsAre(fills, entry);
    SumsAre(fills, exit);
    TradedSome(fills, entry);
    TradedSome(fills, exit);
    var d := Figures(divide, t, fills);
    if t.closedAt.Some? {
      Difference(d.quantity, d.averageExitPrice.value, d.averageEntryPrice);
    }
  }

  lemma {:induction false} Difference(q: real, a: real, b: real)
    ensures q * (a - b) == a * q - b * q
  {
  }

  // ---- where they are shown ----------------------------------------------------------

  lemma {:induction false} RunValid(divide: (real, real) -> real, origin: Account, inputs: seq<Input>)
    requires Run(divide, origin, inputs).Ok?
    ensures forall i :: 0 <= i < |inputs| ==> Val(inputs[i].event.quantity) > 0.0
    decreases |inputs|
  {
    hide Move, Book, Val, MemberOf;
    if inputs != [] {
      RunValid(divide, origin, inputs[..|inputs| - 1]);
    }
  }

  lemma {:induction false} FillsPositive(divide: (real, real) -> real, origin: Account, inputs: seq<Input>, id: Id)
    requires Run(divide, origin, inputs).Ok?
    ensures Positive(EventsOf(Run(divide, origin, inputs).value.1, id))
  {
    hide Run, Val, EventsOf;
    RunValid(divide, origin, inputs);
    RunEvents(divide, origin, inputs);
    var members := Run(divide, origin, inputs).value.1;
    var fills := EventsOf(members, id);
    forall i | 0 <= i < |fills| ensures Val(fills[i].quantity) > 0.0 {
      EventsOfMembers(members, id, i);
    }
  }

  /** The figures of every trade of a reachable account. */
  lemma {:induction false} ReachableFigures(divide: (real, real) -> real, origin: Account, inputs: seq<Input>, j: nat)
    requires DistinctEvents(inputs) && Run(divide, origin, inputs).Ok?
    requires j < |Run(divide, origin, inputs).value.0.trades|
    ensures var (s, members) := Run(divide, origin, inputs).value; var t := s.trades[j];
      FiguresOk(divide, t, EventsOf(members, t.tradeId), Figures(divide, t, EventsOf(members, t.tradeId)))
  {
    hide Run, TradeOk, EventsOf, Figures, FiguresOk, Exact, Remaining, Basis, NetOf, BoundOk, Positive;
    ReachableOk(divide, origin, inputs);
    var (s, members) := Run(divide, origin, inputs).value;
    var t := s.trades[j];
    FillsPositive(divide, origin, inputs, t.tradeId);
    FiguresAre(divide, t, EventsOf(members, t.tradeId), Remaining(s.positions, t.tradeId), Basis(s.positions, t.tradeId));
  }

  /** Every detail shows the figures of the fills it lists. */
  lemma {:induction false} DetailFigures(divide: (real, real) -> real, origin: Account, l: Ledger, j: Tables,
                                         table: seq<ExecutionEvent>, id: Id, cutoff: Option<Time>)
    requires JournalHolds(divide, origin, l, j) && multiset(table) == multiset(l.fills)
    ensures var r := Detail(divide, l, j, table, id, cutoff);
      r.Ok? ==> r.value.trade.tradeId == id && FiguresOk(divide, r.value.trade, r.value.fills, r.value.figures)
  {
    hide Run, Detail, EventsOf, Figures, FiguresOk, Exact, JournalHolds, Known, InputsOf;
    DetailIsAsOf(divide, origin, l, j, table, id, cutoff);
    var k := if cutoff.Some? then Known(l.fills, cutoff.value) else |l.fills|;
    HeldDistinct(divide, origin, l, j, k);
    var inputs := InputsOf(l)[..k];
    var (s, members) := Run(divide, origin, inputs).value;
    if FindTrade(s, id).Some? {
      ReachableFigures(divide, origin, inputs, TradeIndex(s.trades, id));
    }
  }

  lemma {:induction false} HeldDistinct(divide: (real, real) -> real, origin: Account, l: Ledger, j: Tables, k: nat)
    requires JournalHolds(divide, origin, l, j) && k <= |l.fills|
    ensures FillsHaveOrders(l) && DistinctEvents(InputsOf(l)[..k])
  {
    hide Run, JournalOf;
  }

  /** Every dashboard shows, for each position, the figures of its trade's fills up to then. */
  lemma {:induction false} DashboardFigures(divide: (real, real) -> real, origin: Account, l: Ledger, j: Tables, cutoff: Time)
    requires JournalHolds(divide, origin, l, j)
    ensures var r := DashboardAsOf(l, j, cutoff); var k := Known(l.fills, cutoff);
      && r.Ok? && k <= |l.fills| && Run(divide, origin, InputsOf(l)[..k]).Ok?
      && var (s, members) := Run(divide, origin, InputsOf(l)[..k]).value;
         && r.value.positions == s.positions
         && forall i :: 0 <= i < |s.positions| ==>
              var id := s.positions[i].tradeId;
              && id in r.value.displays && FindTrade(s, id).Some?
              && var d, t := r.value.displays[id], FindTrade(s, id).value;
                 && d.tradeId == id && d.openedAt == t.openedAt && d.closedAt == t.closedAt && d.grossPnl == t.grossPnl
                 && FiguresOk(divide, t, EventsOf(members, id), d.figures)
  {
    hide Run, EventsOf, Figures, FiguresOk, Exact, JournalHolds, Known, InputsOf, LedgerOk, DashboardAsOf, TradeOk, BoundOk, PositionIds,
         ReservedCollateral, RealizedPnl;
    DashboardIsAsOf(divide, origin, l, j, cutoff);
    var k := Known(l.fills, cutoff);
    HeldDistinct(divide, origin, l, j, k);
    var inputs := InputsOf(l)[..k];
    ReachableOk(divide, origin, inputs);
    var (s, members) := Run(divide, origin, inputs).value;
    forall i | 0 <= i < |s.positions|
      ensures var id := s.positions[i].tradeId; var shown := FreshDisplays(divide, s, members, s.positions);
        && id in shown && FindTrade(s, id).Some?
        && var d, t := shown[id], FindTrade(s, id).value;
           && d.tradeId == id && d.openedAt == t.openedAt && d.closedAt == t.closedAt && d.grossPnl == t.grossPnl
           && FiguresOk(divide, t, EventsOf(members, id), d.figures)
    {
      var id := s.positions[i].tradeId;
      PositionTrade(origin, s, members, i);
      ReachableFigures(divide, origin, inputs, TradeIndex(s.trades, id));
    }
  }

  lemma {:induction false} PositionTrade(origin: Account, s: Account, members: seq<Member>, i: nat)
    requires LedgerOk(origin, s, members) && i < |s.positions|
    ensures TradeIndex(s.trades, s.positions[i].tradeId) < |s.trades| && s.positions[i].tradeId in PositionIds(s.positions)
  {
    hide EventsOf, TradeOk, NetOf, Remaining, Basis;
    assert BoundOk(s.positions[i], s.trades);
  }

  // ---- balances --------------------------------------------------------------------

  function AddUp(xs: seq<real>): real {
    if xs == [] then 0.0 else xs[0] + AddUp(xs[1..])
  }

  lemma {:induction false} AddUpLast(xs: seq<real>, x: real)
    ensures AddUp(xs + [x]) == AddUp(xs) + x
    decreases |xs|
  {
    if xs == [] {
      assert (xs + [x])[1..] == [];
    } else {
      assert (xs + [x])[1..] == xs[1..] + [x];
      AddUpLast(xs[1..], x);
    }
  }

  function Bases(positions: seq<Position>): seq<real> {
    seq(|positions|, i requires 0 <= i < |positions| => positions[i].remainingCostBasis)
  }

  function Results(trades: seq<Trade>): seq<real> {
    seq(|trades|, i requires 0 <= i < |trades| => trades[i].grossPnl)
  }

  function Fees(trades: seq<Trade>): seq<real> {
    seq(|trades|, i requires 0 <= i < |trades| => trades[i].totalFees)
  }

  lemma {:induction false} BasesAdd(positions: seq<Position>)
    ensures ReservedCollateral(positions) == AddUp(Bases(positions))
    decreases |positions|
  {
    if positions != [] {
      var init, last := positions[..|positions| - 1], positions[|positions| - 1];
      BasesAdd(init);
      assert Bases(positions) == Bases(init) + [last.remainingCostBasis];
      AddUpLast(Bases(init), last.remainingCostBasis);
    }
  }

  lemma {:induction false} ResultsAdd(trades: seq<Trade>)
    ensures RealizedPnl(trades) == AddUp(Results(trades))
    ensures NetOf(trades) == AddUp(Results(trades)) - AddUp(Fees(trades))
    decreases |trades|
  {
    if trades != [] {
      var init, last := trades[..|trades| - 1], trades[|trades| - 1];
      ResultsAdd(init);
      assert Results(trades) == Results(init) + [last.grossPnl];
      assert Fees(trades) == Fees(init) + [last.totalFees];
      AddUpLast(Results(init), last.grossPnl);
      AddUpLast(Fees(init), last.totalFees);
    }
  }

  /** Every dashboard shows as reserved the bases held, as realized the gross results, as cash the
      initial balance with those results less the fees, and as available the cash not reserved. */
  lemma {:induction false} DashboardBalances(divide: (real, real) -> real, origin: Account, l: Ledger, j: Tables, cutoff: Time)
    requires JournalHolds(divide, origin, l, j)
    ensures var r := DashboardAsOf(l, j, cutoff); var k := Known(l.fills, cutoff);
      && r.Ok? && k <= |l.fills| && Run(divide, origin, InputsOf(l)[..k]).Ok?
      && var d, s := r.value, Run(divide, origin, InputsOf(l)[..k]).value.0;
         && d.reservedCollateral == AddUp(Bases(s.positions))
         && d.realizedPnl == AddUp(Results(s.trades))
         && d.cashBalance == origin.initialBalance + AddUp(Results(s.trades)) - AddUp(Fees(s.trades))
         && d.availableBalance == d.cashBalance - d.reservedCollateral
  {
    hide Run, EventsOf, JournalHolds, Known, InputsOf, DashboardAsOf, ReservedCollateral, RealizedPnl, NetOf, FreshDisplays;
    DashboardIsAsOf(divide, origin, l, j, cutoff);
    var k := Known(l.fills, cutoff);
    HeldDistinct(divide, origin, l, j, k);
    CashIsConserved(divide, origin, InputsOf(l)[..k]);
    var s := Run(divide, origin, InputsOf(l)[..k]).value.0;
    BasesAdd(s.positions);
    ResultsAdd(s.trades);
  }
}
