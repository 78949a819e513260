/** Properties of whole runs of admitted fills. */
module LedgerHistory {
  import opened Wrappers
  import opened ExecutionModels
  import opened Accounting
  import opened TradeProjection
  import opened LedgerInvariant

  lemma {:induction false} RunPrefix(divide: (real, real) -> real, origin: Account, inputs: seq<Input>, k: nat)
    requires k <= |inputs| && Run(divide, origin, inputs).Ok?
    ensures |Run(divide, origin, inputs).value.1| == |inputs|
    ensures var early := Run(divide, origin, inputs[..k]);
      early.Ok? && early.value.1 == Run(divide, origin, inputs).value.1[..k]
    decreases |inputs|
  {
    hide Settle, MemberOf;
    RunEvents(divide, origin, inputs);
    if k < |inputs| {
      var init := inputs[..|inputs| - 1];
      RunPrefix(divide, origin, init, k);
      assert init[..k] == inputs[..k];
    } else {
      assert inputs[..k] == inputs;
    }
  }

  /** What the account remembers of the order of its fills. */
  ghost predicate Clock(s: Account, inputs: seq<Input>) {
    && (inputs == [] ==> s.lastFilledAt.None? && s.lastSequence == 0 && s.updatedAt == Some(s.createdAt))
    && (inputs != [] ==>
          var last := inputs[|inputs| - 1].event;
          s.lastFilledAt == Some(last.filledAt) && s.lastSequence == last.sequence && s.updatedAt == Some(last.receivedAt))
  }

  lemma {:induction false} SettleClock(divide: (real, real) -> real, s: Account, input: Input)
    requires Settle(divide, s, input.event, input.profile, input.plan).Ok?
    ensures var next := Settle(divide, s, input.event, input.profile, input.plan).value; var e := input.event;
      && next.lastFilledAt == Some(e.filledAt) && next.lastSequence == e.sequence && next.updatedAt == Some(e.receivedAt)
      && next.createdAt == s.createdAt
      && e.receivedAt >= s.createdAt && e.filledAt >= s.createdAt
      && e.sequence > s.lastSequence
      && (s.updatedAt.Some? ==> e.receivedAt >= s.updatedAt.value)
      && (s.lastFilledAt.Some? ==> e.filledAt >= s.lastFilledAt.value)
  {
    hide Move;
  }

  ghost predicate InOrder(inputs: seq<Input>) {
    forall i, j :: 0 <= i < j < |inputs| ==>
      && inputs[i].event.sequence < inputs[j].event.sequence
      && inputs[i].event.filledAt <= inputs[j].event.filledAt
      && inputs[i].event.receivedAt <= inputs[j].event.receivedAt
  }

  /** Admission order is fill order, sequence order and receipt order at once. */
  lemma {:induction false} RunInOrder(divide: (real, real) -> real, origin: Account, inputs: seq<Input>)
    requires Run(divide, origin, inputs).Ok?
    ensures InOrder(inputs)
    ensures forall i :: 0 <= i < |inputs| ==> inputs[i].event.receivedAt >= origin.createdAt
    ensures Clock(Run(divide, origin, inputs).value.0, inputs)
    ensures Run(divide, origin, inputs).value.0.createdAt == origin.createdAt
    decreases |inputs|
  {
    hide Settle, MemberOf;
    if inputs != [] {
      var init, last := inputs[..|inputs| - 1], inputs[|inputs| - 1];
      RunInOrder(divide, origin, init);
      SettleClock(divide, Run(divide, origin, init).value.0, last);
      forall i, j | 0 <= i < j < |inputs|
        ensures inputs[i].event.sequence < inputs[j].event.sequence
             && inputs[i].event.filledAt <= inputs[j].event.filledAt
             && inputs[i].event.receivedAt <= inputs[j].event.receivedAt
      {
        if j == |inputs| - 1 {
          assert init[i] == inputs[i];
          if i < |init| - 1 { assert init[i].event.sequence < init[|init| - 1].event.sequence; }
        } else {
          assert init[i] == inputs[i] && init[j] == inputs[j];
        }
      }
      forall i | 0 <= i < |inputs| ensures inputs[i].event.receivedAt >= origin.createdAt {
        if i < |init| { assert init[i] == inputs[i]; }
      }
    }
  }

  /** A movement that does not open a trade touches an open one. */
  lemma {:induction false} MovesOpenTrade(divide: (real, real) -> real, origin: Account, s: Account, members: seq<Member>,
                                          input: Input, m: Movement)
    requires LedgerOk(origin, s, members)
    requires Move(divide, s, input.event, input.profile, input.plan) == Ok(m) && !m.opens
    ensures var k := TradeIndex(s.trades, m.trade.tradeId); k < |s.trades| && s.trades[k].closedAt.None?
  {
    hide EventsOf, QuantityOn, NotionalOn, FeesOf, NetOf, TradeOk, Remaining, Basis;
    var i := PositionIndex(s.positions, input.event.symbol);
    assert BoundOk(s.positions[i], s.trades);
  }

  /** One fill leaves every closed trade exactly as it was, in its place. */
  lemma {:induction false} ClosedTradesKeep(divide: (real, real) -> real, origin: Account, s: Account, members: seq<Member>,
                                            input: Input, next: Account, j: nat)
    requires LedgerOk(origin, s, members) && FreshEvent(input.event, members)
    requires Settle(divide, s, input.event, input.profile, input.plan) == Ok(next)
    requires j < |s.trades| && s.trades[j].closedAt.Some?
    ensures j < |next.trades| && next.trades[j] == s.trades[j]
  {
    hide Settle, Move, LedgerOk, ValidEvent;
    SettleMoves(divide, s, input, next);
    var m := Move(divide, s, input.event, input.profile, input.plan).value;
    BookedOk(divide, origin, s, members, input, m);
    BookedTrades(origin, s, members, input.event, m);
    if !m.opens {
      MovesOpenTrade(divide, origin, s, members, input, m);
    }
  }

  /** A trade closed at any point of a run is the same record at every later point. */
  lemma {:induction false} ClosedForever(divide: (real, real) -> real, origin: Account, inputs: seq<Input>, k: nat, j: nat)
    requires DistinctEvents(inputs) && Run(divide, origin, inputs).Ok? && k <= |inputs|
    requires Run(divide, origin, inputs[..k]).Ok?
    requires var early := Run(divide, origin, inputs[..k]).value.0; j < |early.trades| && early.trades[j].closedAt.Some?
    ensures var early, late := Run(divide, origin, inputs[..k]).value.0, Run(divide, origin, inputs).value.0;
      j < |late.trades| && late.trades[j] == early.trades[j]
    decreases |inputs|
  {
    hide Settle, LedgerOk, MemberOf;
    if k < |inputs| {
      var init, last := inputs[..|inputs| - 1], inputs[|inputs| - 1];
      assert init[..k] == inputs[..k];
      ClosedForever(divide, origin, init, k, j);
      ReachableOk(divide, origin, init);
      RunEvents(divide, origin, init);
      var (s, members) := Run(divide, origin, init).value;
      ClosedTradesKeep(divide, origin, s, members, last, Run(divide, origin, inputs).value.0, j);
    } else {
      assert inputs[..k] == inputs;
    }
  }

  /** Realised PnL does not depend on the path or on rounding: at every reachable state the
      gross result of a trade is its exit notional against the basis released, and once
      closed exactly exit minus entry notional (negated for a short). */
  lemma {:induction false} PnlIsPathIndependent(divide: (real, real) -> real, origin: Account, inputs: seq<Input>, j: nat)
    requires DistinctEvents(inputs) && Run(divide, origin, inputs).Ok?
    requires j < |Run(divide, origin, inputs).value.0.trades|
    ensures var (s, members) := Run(divide, origin, inputs).value;
      var t := s.trades[j];
      var fills := EventsOf(members, t.tradeId);
      var entered, exited := NotionalOn(fills, EntrySide(t.direction)), NotionalOn(fills, ExitSide(t.direction));
      && t.totalEntryNotional == entered
      && t.grossPnl == Signed(t.direction, exited - (entered - Basis(s.positions, t.tradeId)))
      && (t.closedAt.Some? ==> t.grossPnl == Signed(t.direction, exited - entered))
  {
    hide Run, EventsOf, NotionalOn, QuantityOn, FeesOf, NetOf, BoundOk, Remaining, Basis;
    ReachableOk(divide, origin, inputs);
    var (s, members) := Run(divide, origin, inputs).value;
    assert TradeOk(s.trades[j], EventsOf(members, s.trades[j].tradeId),
                   Remaining(s.positions, s.trades[j].tradeId), Basis(s.positions, s.trades[j].tradeId));
  }

  /** Cash is conserved: the initial balance plus every trade's gross result minus its fees. */
  lemma {:induction false} CashIsConserved(divide: (real, real) -> real, origin: Account, inputs: seq<Input>)
    requires DistinctEvents(inputs) && Run(divide, origin, inputs).Ok?
    ensures var (s, members) := Run(divide, origin, inputs).value;
      && s.cashBalance == origin.initialBalance + NetOf(s.trades)
      && (forall j :: 0 <= j < |s.trades| ==> s.trades[j].totalFees == FeesOf(EventsOf(members, s.trades[j].tradeId)))
  {
    hide Run;
    ReachableOk(divide, origin, inputs);
    var (s, members) := Run(divide, origin, inputs).value;
    forall j | 0 <= j < |s.trades|
      ensures s.trades[j].totalFees == FeesOf(EventsOf(members, s.trades[j].tradeId))
    {
      assert TradeOk(s.trades[j], EventsOf(members, s.trades[j].tradeId),
                     Remaining(s.positions, s.trades[j].tradeId), Basis(s.positions, s.trades[j].tradeId));
    }
  }

  /** At most one position per symbol, each bound to its own trade, holding a positive
      quantity exactly while that trade is open; and every open trade has its position. */
  lemma {:induction false} PositionsMatchTrades(divide: (real, real) -> real, origin: Account, inputs: seq<Input>)
    requires DistinctEvents(inputs) && Run(divide, origin, inputs).Ok?
    ensures var s := Run(divide, origin, inputs).value.0;
      && DistinctPositions(s.positions)
      && (forall i :: 0 <= i < |s.positions| ==> BoundOk(s.positions[i], s.trades))
      && (forall j :: 0 <= j < |s.trades| && s.trades[j].closedAt.None? ==>
            BoundIndex(s.positions, s.trades[j].tradeId) < |s.positions|)
  {
    hide Run, BoundOk;
    ReachableOk(divide, origin, inputs);
    var (s, members) := Run(divide, origin, inputs).value;
    forall j | 0 <= j < |s.trades| && s.trades[j].closedAt.None?
      ensures BoundIndex(s.positions, s.trades[j].tradeId) < |s.positions|
    {
      assert TradeOk(s.trades[j], EventsOf(members, s.trades[j].tradeId),
                     Remaining(s.positions, s.trades[j].tradeId), Basis(s.positions, s.trades[j].tradeId));
    }
  }
}
