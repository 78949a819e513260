/** Replay of fills into account states, trade memberships and display figures. */
module TradeProjection {
  import opened Wrappers
  import opened DecimalPolicy
  import opened ExecutionModels
  import opened Accounting

  datatype Role = Entry | Exit

  /** A fill together with the trade it was booked into. */
  datatype Member = Member(event: ExecutionEvent, tradeId: Id, role: Role)

  /** A fill with the instrument profile and plan reference frozen on its order. */
  datatype Input = Input(event: ExecutionEvent, profile: InstrumentProfile, plan: Option<Id>)

  datatype Status = Open | PartiallyClosed | Closed

  datatype Display = Display(
    quantity: real, remainingQuantity: real, averageEntryPrice: real,
    averageExitPrice: Option<real>, status: Status)

  function EmptyProjection(origin: Account): Account {
    origin.(positions := [], trades := [], cashBalance := origin.initialBalance,
            lastSequence := 0, lastFilledAt := None, updatedAt := Some(origin.createdAt))
  }

  function EntrySide(direction: Direction): Side {
    if direction.Long? then Buy else Sell
  }

  function ExitSide(direction: Direction): Side {
    if direction.Long? then Sell else Buy
  }

  function RoleOf(trade: Trade, event: ExecutionEvent): Role {
    if event.side == EntrySide(trade.direction) then Entry else Exit
  }

  /** The trade a fill was booked into, read off the state it produced. */
  function MemberOf(state: Account, event: ExecutionEvent): Result<Member, Fault> {
    var p := PositionIndex(state.positions, event.symbol);
    if p == |state.positions| then Err(MissingTrade)
    else
      var t := TradeIndex(state.trades, state.positions[p].tradeId);
      if t == |state.trades| then Err(MissingTrade)
      else Ok(Member(event, state.trades[t].tradeId, RoleOf(state.trades[t], event)))
  }

  /** Fold of `apply_fill` from the empty projection, with the membership of each fill. */
  function Replay(divide: (real, real) -> real, origin: Account, inputs: seq<Input>)
    : Result<(Account, seq<Member>), Fault>
  {
    if inputs == [] then Ok((EmptyProjection(origin), []))
    else
      var last := inputs[|inputs| - 1];
      var (state, members) :- Replay(divide, origin, inputs[..|inputs| - 1]);
      var next :- ApplyFill(divide, state, last.event, last.profile, last.plan);
      var member :- MemberOf(next, last.event);
      Ok((next, members + [member]))
  }

  /** The same fold without the representation check. */
  function Run(divide: (real, real) -> real, origin: Account, inputs: seq<Input>)
    : Result<(Account, seq<Member>), Fault>
  {
    if inputs == [] then Ok((EmptyProjection(origin), []))
    else
      var last := inputs[|inputs| - 1];
      var (state, members) :- Run(divide, origin, inputs[..|inputs| - 1]);
      var next :- Settle(divide, state, last.event, last.profile, last.plan);
      var member :- MemberOf(next, last.event);
      Ok((next, members + [member]))
  }

  /** The two folds differ only where a fill's units are not representable. */
  lemma {:induction false} ReplayIsRun(divide: (real, real) -> real, origin: Account, inputs: seq<Input>)
    requires forall i :: 0 <= i < |inputs| ==>
      ValidateUnits(inputs[i].profile, Some(inputs[i].event.price), inputs[i].event.quantity).None?
    ensures Replay(divide, origin, inputs) == Run(divide, origin, inputs)
    decreases |inputs|
  {
    hide Settle, MemberOf, ValidateUnits;
    if inputs != [] {
      ReplayIsRun(divide, origin, inputs[..|inputs| - 1]);
      var last := inputs[|inputs| - 1];
      assert ValidateUnits(last.profile, Some(last.event.price), last.event.quantity).None?;
      if Replay(divide, origin, inputs[..|inputs| - 1]).Ok? {
        var state := Replay(divide, origin, inputs[..|inputs| - 1]).value.0;
        ApplyFillIsSettle(divide, state, last);
      }
    }
  }

  lemma {:induction false} ApplyFillIsSettle(divide: (real, real) -> real, state: Account, input: Input)
    requires ValidateUnits(input.profile, Some(input.event.price), input.event.quantity).None?
    ensures ApplyFill(divide, state, input.event, input.profile, input.plan)
         == Settle(divide, state, input.event, input.profile, input.plan)
  {
    hide Move, Book, ValidateUnits;
  }

  /** `replay_memberships`: the loop that rebinds the state event by event. */
  method ReplayMemberships(divide: (real, real) -> real, origin: Account, inputs: seq<Input>)
    returns (r: Result<(Account, seq<Member>), Fault>)
    ensures r == Replay(divide, origin, inputs)
  {
    var state, members := EmptyProjection(origin), [];
    assert inputs[..0] == [];
    for i := 0 to |inputs|
      invariant Replay(divide, origin, inputs[..i]) == Ok((state, members))
    {
      assert inputs[..i + 1][..i] == inputs[..i];
      ReplayFailure(divide, origin, inputs, i + 1);
      var next := ApplyFill(divide, state, inputs[i].event, inputs[i].profile, inputs[i].plan);
      if next.Err? {
        return Err(next.error);
      }
      var member := MemberOf(next.value, inputs[i].event);
      if member.Err? {
        return Err(member.error);
      }
      state, members := next.value, members + [member.value];
    }
    assert inputs[..|inputs|] == inputs;
    return Ok((state, members));
  }

  /** The first refusal of a replay is final. */
  lemma {:induction false} ReplayFailure(divide: (real, real) -> real, origin: Account, inputs: seq<Input>, k: nat)
    requires k <= |inputs|
    ensures Replay(divide, origin, inputs[..k]).Err? ==>
      Replay(divide, origin, inputs) == Err(Replay(divide, origin, inputs[..k]).error)
    decreases |inputs|
  {
    if k < |inputs| {
      var init := inputs[..|inputs| - 1];
      ReplayFailure(divide, origin, init, k);
      assert init[..k] == inputs[..k];
    } else {
      assert inputs[..k] == inputs;
    }
  }

  // ---- sums over the fills of a trade ----------------------------------------------

  function EventsOf(members: seq<Member>, tradeId: Id): seq<ExecutionEvent> {
    if members == [] then []
    else
      var last := members[|members| - 1];
      EventsOf(members[..|members| - 1], tradeId) + (if last.tradeId == tradeId then [last.event] else [])
  }

  function QuantityOn(events: seq<ExecutionEvent>, side: Side): real {
    if events == [] then 0.0
    else
      var last := events[|events| - 1];
      QuantityOn(events[..|events| - 1], side) + (if last.side == side then Val(last.quantity) else 0.0)
  }

  function NotionalOn(events: seq<ExecutionEvent>, side: Side): real {
    if events == [] then 0.0
    else
      var last := events[|events| - 1];
      NotionalOn(events[..|events| - 1], side) + (if last.side == side then Notional(last) else 0.0)
  }

  function FeesOf(events: seq<ExecutionEvent>): real {
    if events == [] then 0.0
    else FeesOf(events[..|events| - 1]) + TotalFee(events[|events| - 1])
  }

  /** The figures of a trade: lifetime quantities and averages over its fills. */
  function Figures(divide: (real, real) -> real, trade: Trade, events: seq<ExecutionEvent>): Display {
    var entered := QuantityOn(events, EntrySide(trade.direction));
    var exited := QuantityOn(events, ExitSide(trade.direction));
    Display(entered, entered - exited, divide(trade.totalEntryNotional, entered),
            if exited != 0.0 then Some(divide(NotionalOn(events, ExitSide(trade.direction)), exited)) else None,
            if trade.closedAt.Some? then Closed else if exited != 0.0 then PartiallyClosed else Open)
  }

  /** `fill_display`: the figures, unless the fills do not add up to the open or closed state
      of the trade. */
  function FillDisplay(divide: (real, real) -> real, trade: Trade, events: seq<ExecutionEvent>)
    : Result<Display, Fault>
  {
    var figures := Figures(divide, trade, events);
    if figures.quantity <= 0.0 || figures.remainingQuantity < 0.0
       || ((figures.remainingQuantity == 0.0) != trade.closedAt.Some?) then
      Err(MembershipConflict)
    else
      Ok(figures)
  }

  /** The accumulating loop of `fill_display`. */
  method FillDisplayLoop(divide: (real, real) -> real, trade: Trade, events: seq<ExecutionEvent>)
    returns (r: Result<Display, Fault>)
    ensures r == FillDisplay(divide, trade, events)
  {
    var entered, exited, exitNotional := 0.0, 0.0, 0.0;
    for i := 0 to |events|
      invariant entered == QuantityOn(events[..i], EntrySide(trade.direction))
      invariant exited == QuantityOn(events[..i], ExitSide(trade.direction))
      invariant exitNotional == NotionalOn(events[..i], ExitSide(trade.direction))
    {
      assert events[..i + 1][..i] == events[..i];
      if events[i].side == EntrySide(trade.direction) {
        entered := entered + Val(events[i].quantity);
      } else {
        exited := exited + Val(events[i].quantity);
        exitNotional := exitNotional + Notional(events[i]);
      }
    }
    assert events[..|events|] == events;
    var remaining := entered - exited;
    if entered <= 0.0 || remaining < 0.0 || ((remaining == 0.0) != trade.closedAt.Some?) {
      return Err(MembershipConflict);
    }
    return Ok(Display(entered, remaining, divide(trade.totalEntryNotional, entered),
                      if exited != 0.0 then Some(divide(exitNotional, exited)) else None,
                      if trade.closedAt.Some? then Closed else if exited != 0.0 then PartiallyClosed else Open));
  }
}
