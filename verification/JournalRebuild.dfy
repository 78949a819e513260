/** The journal is a function of the ledger: live capture and a rebuild from any surviving
    rows both produce the reference journal of the admitted fills. */
module JournalRebuild {
  import opened Wrappers
  import opened DecimalPolicy
  import opened ExecutionModels
  import opened Accounting
  import opened TradeProjection
  import opened LedgerInvariant
  import opened LedgerHistory
  import opened Repository
  import opened Sorting
  import opened AsOf
  import opened Journal
  import opened JournalHistory
  import opened JournalCapture
  import opened ChartRequests

  // ---- runs leave genuine trails ---------------------------------------------------

  ghost function StatesOf(divide: (real, real) -> real, origin: Account, inputs: seq<Input>): (r: seq<Account>)
    requires Run(divide, origin, inputs).Ok?
    ensures |r| == |inputs|
  {
    if inputs == [] then []
    else StatesOf(divide, origin, inputs[..|inputs| - 1]) + [Run(divide, origin, inputs).value.0]
  }

  ghost function TrailOf(divide: (real, real) -> real, origin: Account, inputs: seq<Input>): Trail
    requires Run(divide, origin, inputs).Ok?
  {
    Trail(StatesOf(divide, origin, inputs), Run(divide, origin, inputs).value.1)
  }

  /** A fill leaves every other trade, and the positions of other symbols, alone. */
  lemma {:induction false} BookUntouched(origin: Account, s: Account, members: seq<Member>, event: ExecutionEvent, m: Movement, member: Member)
    requires LedgerOk(origin, s, members) && FreshEvent(event, members) && Lands(s, event, m)
    requires member.event == event && member.tradeId == m.trade.tradeId
    requires !m.opens ==>
      var t := s.trades[TradeIndex(s.trades, m.trade.tradeId)]; t.closedAt.None? && t.direction == m.trade.direction
    ensures Untouched(s, Book(s, event, m), member)
  {
    hide EventsOf, QuantityOn, NotionalOn, FeesOf, NetOf, TradeOk, Remaining, Basis, TradeIndex, PositionIndex;
    BindingSymbol(origin, s, members, event, m);
    BookedTrades(origin, s, members, event, m);
    var next := Book(s, event, m);
    forall id | id != m.trade.tradeId ensures FindTrade(next, id) == FindTrade(s, id) {
      BookOther(origin, s, members, event, m, id);
    }
    forall i | 0 <= i < |next.positions| && next.positions[i].symbol != event.symbol
      ensures var id := next.positions[i].tradeId;
        id != m.trade.tradeId && id in PositionIds(s.positions) && FindTrade(next, id).Some?
    {
      assert next.positions[i] == s.positions[i];
      assert BoundOk(s.positions[i], s.trades);
      assert FindTrade(s, s.positions[i].tradeId).Some?;
    }
  }

  /** Looking a trade up by another identifier does not see a written or added trade. */
  lemma {:induction false} LookupOther(trades: seq<Trade>, after: seq<Trade>, k: nat, t: Trade, id: Id)
    requires k <= |trades| && id != t.tradeId && (k < |trades| ==> trades[k].tradeId == t.tradeId)
    requires after == if k < |trades| then trades[k := t] else trades + [t]
    ensures var i, i' := TradeIndex(trades, id), TradeIndex(after, id);
      && (i < |trades| <==> i' < |after|)
      && (i < |trades| ==> trades[i] == after[i'])
  {
    hide TradeIndex;
    var i, i' := TradeIndex(trades, id), TradeIndex(after, id);
    if i < |trades| {
      assert after[i].tradeId == id;
      assert after[i'] == trades[i'];
      assert i == i';
    }
  }

  lemma {:induction false} BookOther(origin: Account, s: Account, members: seq<Member>, event: ExecutionEvent, m: Movement, id: Id)
    requires LedgerOk(origin, s, members) && FreshEvent(event, members) && Lands(s, event, m) && id != m.trade.tradeId
    ensures FindTrade(Book(s, event, m), id) == FindTrade(s, id)
  {
    hide LedgerOk, Book, TradeIndex;
    BookedTrades(origin, s, members, event, m);
    BindingSymbol(origin, s, members, event, m);
    LookupOther(s.trades, Book(s, event, m).trades, TradeIndex(s.trades, m.trade.tradeId), BookedTrade(event, m), id);
  }

  lemma {:induction false} MoveKeepsDirection(divide: (real, real) -> real, s: Account, input: Input, m: Movement)
    requires Move(divide, s, input.event, input.profile, input.plan) == Ok(m) && !m.opens
    ensures var t := TradeIndex(s.trades, m.trade.tradeId); t < |s.trades| && s.trades[t].direction == m.trade.direction
  {
    hide ReleasedBasis, AvailableBalance, PositionIndex, TradeIndex;
  }

  /** One settled fill is one step of a trail. */
  lemma {:induction false} SettleStep(divide: (real, real) -> real, origin: Account, s: Account, members: seq<Member>,
                                      input: Input, next: Account)
    requires LedgerOk(origin, s, members) && FreshEvent(input.event, members)
    requires Settle(divide, s, input.event, input.profile, input.plan) == Ok(next)
    ensures MemberOf(next, input.event).Ok?
    ensures StepOk(origin, s, next, members + [MemberOf(next, input.event).value])
  {
    hide Settle, Move, LedgerOk, ValidEvent, FreshEvent, Untouched, Book, PositionIndex, TradeIndex, Lands;
    SettleKeeps(divide, origin, s, members, input, next);
    SettleMoves(divide, s, input, next);
    var m := Move(divide, s, input.event, input.profile, input.plan).value;
    BookedOk(divide, origin, s, members, input, m);
    BookedMember(origin, s, members, input.event, m);
    if !m.opens {
      MovesOpenTrade(divide, origin, s, members, input, m);
      MoveKeepsDirection(divide, s, input, m);
    }
    BookUntouched(origin, s, members, input.event, m, MemberOf(next, input.event).value);
    SettleSchema(divide, s, input, next);
    MemberBooked(next, input.event);
  }

  lemma {:induction false} SettleSchema(divide: (real, real) -> real, s: Account, input: Input, next: Account)
    requires Settle(divide, s, input.event, input.profile, input.plan) == Ok(next)
    ensures SchemaValid(next)
  {
    hide Move, Book, GuardScope, GuardOrder;
  }

  lemma {:induction false} MemberBooked(s: Account, event: ExecutionEvent)
    requires MemberOf(s, event).Ok?
    ensures Booked(s, MemberOf(s, event).value) && MemberOf(s, event).value.event == event
  {
  }

  lemma {:induction false} GenuineAppend(origin: Account, h: Trail, s: Account, m: Member)
    requires Genuine(origin, h) && StepOk(origin, Earlier(origin, h, |h.states|), s, h.members + [m])
    requires Ordered(h.members + [m])
    ensures Genuine(origin, Trail(h.states + [s], h.members + [m]))
  {
    hide StepOk, Ordered;
    var h' := Trail(h.states + [s], h.members + [m]);
    forall i | 0 <= i < |h'.states|
      ensures StepOk(origin, Earlier(origin, h', i), h'.states[i], h'.members[..i + 1])
    {
      if i < |h.states| {
        assert h'.members[..i + 1] == h.members[..i + 1];
        assert StepOk(origin, Earlier(origin, h, i), h.states[i], h.members[..i + 1]);
      } else {
        assert h'.members[..i + 1] == h.members + [m];
      }
    }
  }

  lemma {:induction false} RunOrdered(divide: (real, real) -> real, origin: Account, inputs: seq<Input>)
    requires DistinctEvents(inputs) && Run(divide, origin, inputs).Ok?
    ensures Ordered(Run(divide, origin, inputs).value.1)
  {
    hide Run;
    RunInOrder(divide, origin, inputs);
    RunEvents(divide, origin, inputs);
  }

  lemma {:induction false} RunLast(divide: (real, real) -> real, origin: Account, inputs: seq<Input>)
    requires inputs != [] && Run(divide, origin, inputs).Ok?
    ensures var init, last := inputs[..|inputs| - 1], inputs[|inputs| - 1];
      && Run(divide, origin, init).Ok?
      && var (s, members) := Run(divide, origin, init).value;
         var (next, all) := Run(divide, origin, inputs).value;
         && Settle(divide, s, last.event, last.profile, last.plan) == Ok(next)
         && MemberOf(next, last.event).Ok? && all == members + [MemberOf(next, last.event).value]
  {
    hide Settle, MemberOf;
  }

  lemma {:induction false} RunStepOk(divide: (real, real) -> real, origin: Account, inputs: seq<Input>)
    requires inputs != [] && DistinctEvents(inputs) && Run(divide, origin, inputs).Ok?
    ensures var init, last := inputs[..|inputs| - 1], inputs[|inputs| - 1];
      && Run(divide, origin, init).Ok? && DistinctEvents(init)
      && var (s, members) := Run(divide, origin, init).value;
         var (next, all) := Run(divide, origin, inputs).value;
         && MemberOf(next, last.event).Ok? && all == members + [MemberOf(next, last.event).value]
         && StepOk(origin, s, next, all)
  {
    hide Run, Settle, LedgerOk, MemberOf, StepOk;
    var init, last := inputs[..|inputs| - 1], inputs[|inputs| - 1];
    RunLast(divide, origin, inputs);
    ReachableOk(divide, origin, init);
    RunEvents(divide, origin, init);
    var (s, members) := Run(divide, origin, init).value;
    SettleStep(divide, origin, s, members, last, Run(divide, origin, inputs).value.0);
  }

  /** The accounts and memberships of a run with distinct events form a genuine trail. */
  lemma {:induction false} RunGenuine(divide: (real, real) -> real, origin: Account, inputs: seq<Input>)
    requires DistinctEvents(inputs) && Run(divide, origin, inputs).Ok?
    ensures Genuine(origin, TrailOf(divide, origin, inputs)) && Sized(TrailOf(divide, origin, inputs))
    ensures Earlier(origin, TrailOf(divide, origin, inputs), |inputs|) == Run(divide, origin, inputs).value.0
    decreases |inputs|
  {
    var h := TrailOf(divide, origin, inputs);
    if inputs != [] {
      hide Run, MemberOf, StepOk, Ordered, Genuine, Sized, DistinctEvents;
      var init, last := inputs[..|inputs| - 1], inputs[|inputs| - 1];
      RunStepOk(divide, origin, inputs);
      RunGenuine(divide, origin, init);
      RunOrdered(divide, origin, inputs);
      var next := Run(divide, origin, inputs).value.0;
      GenuineAppend(origin, TrailOf(divide, origin, init), next, MemberOf(next, last.event).value);
    }
    GenuineSized(origin, h);
  }

  /** The journal due for admitted fills. */
  ghost function JournalOf(divide: (real, real) -> real, origin: Account, inputs: seq<Input>): Tables
    requires DistinctEvents(inputs) && Run(divide, origin, inputs).Ok?
  {
    RunGenuine(divide, origin, inputs);
    JournalAt(divide, TrailOf(divide, origin, inputs), |inputs|)
  }

  lemma {:induction false} StatesAt(divide: (real, real) -> real, origin: Account, inputs: seq<Input>, k: nat)
    requires 0 < k <= |inputs| && Run(divide, origin, inputs).Ok?
    ensures Run(divide, origin, inputs[..k]).Ok?
    ensures StatesOf(divide, origin, inputs)[k - 1] == Run(divide, origin, inputs[..k]).value.0
    decreases |inputs|
  {
    hide Run;
    if k < |inputs| {
      var init := inputs[..|inputs| - 1];
      RunLast(divide, origin, inputs);
      StatesAt(divide, origin, init, k);
      assert init[..k] == inputs[..k];
    } else {
      assert inputs[..k] == inputs;
    }
  }

  lemma {:induction false} TrailPrefix(divide: (real, real) -> real, origin: Account, inputs: seq<Input>, k: nat)
    requires k <= |inputs| && Run(divide, origin, inputs).Ok?
    ensures Run(divide, origin, inputs[..k]).Ok?
    ensures var h := TrailOf(divide, origin, inputs);
      && |h.members| == |h.states| == |inputs|
      && Earlier(origin, h, k) == Run(divide, origin, inputs[..k]).value.0
      && (k > 0 ==> h.members[k - 1].event == inputs[k - 1].event)
  {
    hide Run, StatesOf;
    RunEvents(divide, origin, inputs);
    if k == 0 {
      RunEmpty(divide, origin);
      assert inputs[..k] == [];
    } else {
      StatesAt(divide, origin, inputs, k);
    }
  }

  lemma {:induction false} RunEmpty(divide: (real, real) -> real, origin: Account)
    ensures Run(divide, origin, []) == Ok((EmptyProjection(origin), []))
  {
  }

  // ---- live capture ----------------------------------------------------------------

  lemma {:induction false} DisplaysStored(divide: (real, real) -> real, table: seq<ExecutionEvent>, refs: map<Id, Ref>, s: Account,
                                          event: ExecutionEvent, prior: map<Id, PositionDisplay>, positions: seq<Position>)
    ensures Displays(divide, table, refs, s, Stored(event), prior, positions) == Displays(divide, table, refs, s, event, prior, positions)
    decreases |positions|
  {
    hide Normalize, FillDisplay, SourceFills, TradeIndex;
    if positions != [] {
      DisplaysStored(divide, table, refs, s, event, prior, positions[..|positions| - 1]);
      assert DisplayFor(divide, table, refs, s, Stored(event), prior, positions[|positions| - 1])
          == DisplayFor(divide, table, refs, s, event, prior, positions[|positions| - 1]);
    }
  }

  lemma {:induction false} MemberStored(s: Account, event: ExecutionEvent)
    ensures var m, m' := MemberOf(s, event), MemberOf(s, Stored(event));
      && (m.Err? ==> m' == Err(m.error))
      && (m.Ok? ==> m'.Ok? && m'.value.tradeId == m.value.tradeId && m'.value.role == m.value.role)
  {
    hide Normalize, PositionIndex, TradeIndex;
  }

  lemma {:induction false} SnapshotStored(divide: (real, real) -> real, table: seq<ExecutionEvent>, j: Tables, s: Account, event: ExecutionEvent)
    ensures Snapshot(divide, table, j, s, Stored(event)) == Snapshot(divide, table, j, s, event)
  {
    hide Normalize, Latest, Displays, DisplayValid, PutRow, DisplayOf;
    var previous := Latest(j.dashboard, OlderThan(event.sequence));
    var prior := if previous.Some? then previous.value.body.displays else map[];
    DisplaysStored(divide, table, j.refs, s, event, prior, s.positions);
  }

  /** Capture reads identity, times, side and symbol: it cannot tell a fill from its payload. */
  lemma {:induction false} CapturedStored(divide: (real, real) -> real, active: bool, admitted: Option<Time>, table: seq<ExecutionEvent>,
                                          j: Tables, s: Account, event: ExecutionEvent)
    ensures Captured(divide, active, admitted, table, j, s, Stored(event)) == Captured(divide, active, admitted, table, j, s, event)
  {
    hide Normalize, MemberOf, PutHeader, PutRef, PutState, Snapshot, TradeIndex;
    MemberStored(s, event);
    forall next: Tables ensures Snapshot(divide, table, next, s, Stored(event)) == Snapshot(divide, table, next, s, event) {
      SnapshotStored(divide, table, next, s, event);
    }
  }

  lemma {:induction false} JournalPrefix(divide: (real, real) -> real, h: Trail, h': Trail, k: nat)
    requires Sized(h) && Sized(h') && k <= |h.states| && h.states <= h'.states && h.members <= h'.members
    ensures JournalAt(divide, h, k) == JournalAt(divide, h', k)
    decreases k
  {
    hide Booked, Extended;
    if k > 0 {
      JournalPrefix(divide, h, h', k - 1);
      assert h.members[..k] == h'.members[..k];
    }
  }

  lemma {:induction false} EventsAreFills(divide: (real, real) -> real, origin: Account, l: Ledger)
    requires ProjectsFills(divide, origin, l)
    ensures EventsIn(Run(divide, origin, InputsOf(l)).value.1) == l.fills
  {
    hide Run;
    RunEvents(divide, origin, InputsOf(l));
  }

  lemma {:induction false} HoldsFills(divide: (real, real) -> real, origin: Account, l: Ledger, table: seq<ExecutionEvent>)
    requires ProjectsFills(divide, origin, l) && multiset(table) == multiset(l.fills)
    ensures var h := TrailOf(divide, origin, InputsOf(l));
      |h.members| == |l.fills| && Holds(table, h.members, |l.fills|)
  {
    hide Run;
    EventsAreFills(divide, origin, l);
    var members := TrailOf(divide, origin, InputsOf(l)).members;
    assert members[..|l.fills|] == members;
  }

  /** What admitting a new fill does to the fold. */
  lemma {:induction false} AdmissionExtends(divide: (real, real) -> real, origin: Account, l: Ledger, event: ExecutionEvent,
                                            profile: InstrumentProfile, allow: bool)
    requires LedgerInv(divide, origin, l) && Admit(divide, l, event, profile, allow).Ok?
    requires Admit(divide, l, event, profile, allow).value.1 != l
    ensures var next := Admit(divide, l, event, profile, allow).value.1;
      && LedgerInv(divide, origin, next) && |next.fills| == |l.fills| + 1
      && InputsOf(next)[..|l.fills|] == InputsOf(l)
      && next.fills[|l.fills|] == Stored(event)
  {
    hide Run, ApplyFill, Normalize, MatchesOrder, StaleIntent, FilledBy;
    AdmitKeeps(divide, origin, l, event, profile, allow);
    var next := Admit(divide, l, event, profile, allow).value.1;
    assert InputsOf(next)[..|l.fills|] == InputsOf(l);
  }

  /** Capturing the last fill of a run onto the journal of the others. */
  lemma {:induction false} CaptureOfLast(divide: (real, real) -> real, origin: Account, inputs: seq<Input>, table: seq<ExecutionEvent>, j: Tables)
    requires inputs != [] && DistinctEvents(inputs) && Run(divide, origin, inputs).Ok?
    requires Run(divide, origin, inputs[..|inputs| - 1]).Ok? && DistinctEvents(inputs[..|inputs| - 1])
    requires j == JournalOf(divide, origin, inputs[..|inputs| - 1])
    requires |Run(divide, origin, inputs).value.1| == |inputs| && Holds(table, Run(divide, origin, inputs).value.1, |inputs|)
    ensures Captured(divide, true, None, table, j, Run(divide, origin, inputs).value.0, inputs[|inputs| - 1].event)
         == Ok(JournalOf(divide, origin, inputs))
  {
    hide Run, Captured, Genuine, Sized, Ordered, Extended, JournalAt, Holds, TablesWithin;
    var n := |inputs|;
    var init := inputs[..n - 1];
    var h0, h := TrailOf(divide, origin, init), TrailOf(divide, origin, inputs);
    RunGenuine(divide, origin, init);
    RunGenuine(divide, origin, inputs);
    GenuineSized(origin, h);
    TrailPrefix(divide, origin, inputs, n);
    RunLast(divide, origin, inputs);
    assert h0.states <= h.states && h0.members <= h.members;
    JournalPrefix(divide, h0, h, n - 1);
    JournalGrows(divide, h, n - 1, n - 1);
    JournalGrows(divide, h, n - 1, n);
    CaptureStep(divide, true, origin, h, n, table, n, j);
    JournalStep(divide, h, n);
  }

  /** The journal that goes with a ledger: the reference journal, where a request repeated by
      an earlier rebuild may have been admitted later. */
  ghost predicate JournalHolds(divide: (real, real) -> real, origin: Account, l: Ledger, j: Tables) {
    && LedgerInv(divide, origin, l)
    && DistinctEvents(InputsOf(l))
    && OnReceipt(j) == JournalOf(divide, origin, InputsOf(l))
  }

  lemma {:induction false} CaptureNext(divide: (real, real) -> real, origin: Account, l: Ledger, next: Ledger,
                                       table: seq<ExecutionEvent>, j: Tables)
    requires LedgerInv(divide, origin, l) && DistinctEvents(InputsOf(l)) && LedgerInv(divide, origin, next)
    requires j == JournalOf(divide, origin, InputsOf(l))
    requires |next.fills| == |l.fills| + 1 && InputsOf(next)[..|l.fills|] == InputsOf(l)
    requires multiset(table) == multiset(next.fills)
    ensures DistinctEvents(InputsOf(next))
    ensures Captured(divide, true, None, table, j, next.account, next.fills[|l.fills|]) == Ok(JournalOf(divide, origin, InputsOf(next)))
  {
    hide Run, Captured, JournalOf, OrdersMatchFills, Holds;
    InputsDistinct(next);
    HoldsFills(divide, origin, next, table);
    CaptureOfLast(divide, origin, InputsOf(next), table, j);
  }

  /** Live capture is never refused, whatever order the fill table is stored in. It writes the
      rows that are due, keeps the requests that were there and admits new ones on receipt: the
      reference journal of the old ledger becomes that of the new one. */
  lemma {:induction false} LiveCaptureIsDue(divide: (real, real) -> real, origin: Account, l: Ledger, event: ExecutionEvent,
                                            profile: InstrumentProfile, allow: bool, table: seq<ExecutionEvent>, j: Tables)
    requires JournalHolds(divide, origin, l, j)
    requires Admit(divide, l, event, profile, allow).Ok? && Admit(divide, l, event, profile, allow).value.1 != l
    requires multiset(table) == multiset(Admit(divide, l, event, profile, allow).value.1.fills)
    ensures var next := Admit(divide, l, event, profile, allow).value.1;
      var due := Captured(divide, true, None, table, j, next.account, event);
      && due.Ok? && JournalHolds(divide, origin, next, due.value)
      && Requested(j.charts, due.value.charts, None, event)
      && (j == JournalOf(divide, origin, InputsOf(l)) ==> due.value == JournalOf(divide, origin, InputsOf(next)))
  {
    hide Admit, Run, Captured, JournalOf, LedgerInv, InputsOf, DistinctEvents, Normalize, Requested, Prompt;
    LedgerRuns(divide, origin, l);
    AdmissionExtends(divide, origin, l, event, profile, allow);
    var next := Admit(divide, l, event, profile, allow).value.1;
    CaptureNext(divide, origin, l, next, table, OnReceipt(j));
    CapturedStored(divide, true, None, table, OnReceipt(j), next.account, event);
    CapturedPromptly(divide, true, None, table, j, next.account, event);
    var due := Captured(divide, true, None, table, j, next.account, event);
    if j == JournalOf(divide, origin, InputsOf(l)) {
      JournalPrompt(divide, origin, InputsOf(l));
    }
  }

  lemma {:induction false} LedgerRuns(divide: (real, real) -> real, origin: Account, l: Ledger)
    requires LedgerInv(divide, origin, l)
    ensures FillsHaveOrders(l) && Run(divide, origin, InputsOf(l)).Ok?
  {
    hide Run;
  }

  lemma {:induction false} JournalPrompt(divide: (real, real) -> real, origin: Account, inputs: seq<Input>)
    requires DistinctEvents(inputs) && Run(divide, origin, inputs).Ok?
    ensures OnReceipt(JournalOf(divide, origin, inputs)) == JournalOf(divide, origin, inputs)
  {
    hide Run, JournalAt, Genuine;
    RunGenuine(divide, origin, inputs);
    TrailPrefix(divide, origin, inputs, |inputs|);
    DueArePrompt(divide, TrailOf(divide, origin, inputs), |inputs|);
  }

  // ---- rebuild ---------------------------------------------------------------------

  /** The recovery loop: replay each stored fill and capture it, at the time of the rebuild. */
  ghost function Recapture(divide: (real, real) -> real, active: bool, now: Time, table: seq<ExecutionEvent>, origin: Account,
                           inputs: seq<Input>, j: Tables): Result<(Account, Tables), Fault>
  {
    if inputs == [] then Ok((EmptyProjection(origin), j))
    else
      var last := inputs[|inputs| - 1];
      var (state, tables) :- Recapture(divide, active, now, table, origin, inputs[..|inputs| - 1], j);
      var next :- ApplyFill(divide, state, last.event, last.profile, last.plan);
      var member :- MemberOf(next, last.event);
      var due :- Captured(divide, active, Some(now), table, tables, next, last.event);
      Ok((next, due))
  }

  /** The stored fills in fill order, each with the profile and plan of its order. */
  function RebuildInputs(l: Ledger, table: seq<ExecutionEvent>): seq<Input>
    requires HaveOrders(OrderBy(table), l.orders)
  {
    var rows := OrderBy(table);
    seq(|rows|, i requires 0 <= i < |rows| =>
      Input(rows[i], l.orders[rows[i].orderId].profile, l.orders[rows[i].orderId].order.intent.planReference))
  }

  /** `rebuild` and `rebuild_read_model` after the rows they delete are gone: the result must
      replay to the stored account. */
  ghost function Rebuilt(divide: (real, real) -> real, active: bool, now: Time, l: Ledger, table: seq<ExecutionEvent>, j: Tables)
    : Result<Tables, Fault>
    requires HaveOrders(OrderBy(table), l.orders)
  {
    var (state, tables) :- Recapture(divide, active, now, table, l.account, RebuildInputs(l, table), j);
    if state != l.account then Err(ReplayMismatch) else Ok(tables)
  }

  function Dropped(j: Tables): Tables {
    j.(states := map[], dashboard := map[])
  }

  predicate Fits(input: Input) {
    ValidateUnits(input.profile, Some(input.event.price), input.event.quantity).None?
  }

  /** What one turn of the recovery loop does to a genuine trail. */
  lemma {:induction false} RecaptureStep(divide: (real, real) -> real, active: bool, table: seq<ExecutionEvent>, origin: Account,
                                         inputs: seq<Input>, k: nat, tables: Tables)
    requires DistinctEvents(inputs) && Run(divide, origin, inputs).Ok? && 0 < k <= |inputs|
    requires Run(divide, origin, inputs[..k - 1]).Ok?
    requires var h := TrailOf(divide, origin, inputs);
      && |h.members| == |inputs| && Holds(table, h.members, |inputs|) && Genuine(origin, h) && Sized(h)
      && Between(divide, h, k - 1, tables)
    ensures var h := TrailOf(divide, origin, inputs); var input := inputs[k - 1];
      var next := ApplyFill(divide, Run(divide, origin, inputs[..k - 1]).value.0, input.event, input.profile, input.plan);
      && (next.Ok? <==> Fits(input))
      && (next.Ok? ==>
            && next.value == h.states[k - 1] && MemberOf(next.value, input.event).Ok?
            && var due := Captured(divide, active, None, table, tables, next.value, input.event);
               if ChartsOpen(divide, active, h, k, tables) then
                 due.Ok? && Between(divide, h, k, due.value) && (!active ==> due.value.charts == tables.charts)
               else due == Err(AccountClosed))
  {
    hide Run, Captured, Genuine, Sized, Extended, JournalAt, Holds, Between, ChartsOpen, ApplyFill, Settle, ValidateUnits;
    var h := TrailOf(divide, origin, inputs);
    TrailPrefix(divide, origin, inputs, k);
    RunPrefix(divide, origin, inputs, k);
    assert inputs[..k][..k - 1] == inputs[..k - 1];
    RunLast(divide, origin, inputs[..k]);
    ScopeHolds(divide, Run(divide, origin, inputs[..k - 1]).value.0, inputs[k - 1]);
    CaptureStep(divide, active, origin, h, k, table, |inputs|, tables);
  }

  /** Requests that were there are kept, new ones are admitted at the time of the rebuild. */
  ghost predicate Repeated(before: Charts, after: Charts, now: Time) {
    && Within(before, after)
    && forall key :: key in after && key !in before ==> after[key].requestAdmittedAt == now
  }

  lemma {:induction false} RepeatedStep(a: Charts, b: Charts, c: Charts, now: Time, event: ExecutionEvent)
    requires Repeated(a, b, now) && Requested(b, c, Some(now), event)
    ensures Repeated(a, c, now)
  {
  }

  lemma {:induction false} OpenEarlier(divide: (real, real) -> real, active: bool, h: Trail, k: nat, j: Tables)
    requires Sized(h) && Ordered(h.members) && 0 < k <= |h.states| && ChartsOpen(divide, active, h, k, j)
    ensures ChartsOpen(divide, active, h, k - 1, j)
  {
    hide JournalAt, Booked, Ordered;
    JournalGrows(divide, h, k - 1, k);
  }

  lemma {:induction false} OpenAlike(divide: (real, real) -> real, active: bool, h: Trail, k: nat, a: Tables, b: Tables)
    requires Sized(h) && k <= |h.states| && (!active ==> a.charts == b.charts)
    ensures ChartsOpen(divide, active, h, k, a) == ChartsOpen(divide, active, h, k, b)
  {
    hide JournalAt;
  }

  lemma {:induction false} OpenAtFirst(divide: (real, real) -> real, active: bool, h: Trail, j: Tables)
    requires Sized(h)
    ensures ChartsOpen(divide, active, h, 0, j)
  {
    NoCharts(divide, h);
  }

  /** After k turns: the account of k fills, and tables that, but for the admission of repeated
      requests, lie between the journals of k fills and of all of them; or a refusal, exactly
      when one of those fills no longer fits, or the account is closed and lacks one of their
      chart requests. */
  lemma {:induction false} RecaptureIs(divide: (real, real) -> real, active: bool, now: Time, table: seq<ExecutionEvent>,
                                       origin: Account, origin': Account, inputs: seq<Input>, k: nat, j: Tables)
    requires DistinctEvents(inputs) && Run(divide, origin, inputs).Ok? && k <= |inputs|
    requires EmptyProjection(origin') == EmptyProjection(origin)
    requires var h := TrailOf(divide, origin, inputs);
      && |h.members| == |inputs| && Holds(table, h.members, |inputs|) && Genuine(origin, h) && Sized(h)
      && Between(divide, h, 0, OnReceipt(j))
    ensures Run(divide, origin, inputs[..k]).Ok?
    ensures var h := TrailOf(divide, origin, inputs);
      var r := Recapture(divide, active, now, table, origin', inputs[..k], j);
      && (r.Ok? <==> (forall i :: 0 <= i < k ==> Fits(inputs[i])) && ChartsOpen(divide, active, h, k, OnReceipt(j)))
      && (r.Err? && (forall i :: 0 <= i < k ==> Fits(inputs[i])) ==> r.error == AccountClosed)
      && (r.Ok? ==> r.value.0 == Run(divide, origin, inputs[..k]).value.0
                    && Between(divide, h, k, OnReceipt(r.value.1)) && (!active ==> OnReceipt(r.value.1).charts == OnReceipt(j).charts)
                    && Repeated(j.charts, r.value.1.charts, now))
    decreases k
  {
    hide Run, Captured, Genuine, Sized, JournalAt, Holds, Between, ChartsOpen, ApplyFill, Fits, MemberOf, TrailOf, OnReceipt,
         Repeated, Requested;
    var h := TrailOf(divide, origin, inputs);
    TrailPrefix(divide, origin, inputs, k);
    if k == 0 {
      RunEmpty(divide, origin);
      NothingRepeated(j.charts, now);
      OpenAtFirst(divide, active, h, OnReceipt(j));
    } else {
      RecaptureIs(divide, active, now, table, origin, origin', inputs, k - 1, j);
      assert inputs[..k][..k - 1] == inputs[..k - 1];
      GenuineSized(origin, h);
      if ChartsOpen(divide, active, h, k, OnReceipt(j)) {
        OpenEarlier(divide, active, h, k, OnReceipt(j));
      }
      var earlier := Recapture(divide, active, now, table, origin', inputs[..k - 1], j);
      if earlier.Ok? {
        var tables, input := earlier.value.1, inputs[k - 1];
        RecaptureStep(divide, active, table, origin, inputs, k, OnReceipt(tables));
        OpenAlike(divide, active, h, k, OnReceipt(tables), OnReceipt(j));
        TrailState(divide, origin, inputs, k);
        var next := ApplyFill(divide, earlier.value.0, input.event, input.profile, input.plan);
        if next.Ok? {
          CapturedPromptly(divide, active, Some(now), table, tables, next.value, input.event);
          var due := Captured(divide, active, Some(now), table, tables, next.value, input.event);
          if due.Ok? {
            RepeatedStep(j.charts, tables.charts, due.value.charts, now, input.event);
          }
        }
      }
    }
  }

  lemma {:induction false} NothingRepeated(charts: Charts, now: Time)
    ensures Repeated(charts, charts, now)
  {
  }

  lemma {:induction false} TrailState(divide: (real, real) -> real, origin: Account, inputs: seq<Input>, k: nat)
    requires Run(divide, origin, inputs).Ok? && 0 < k <= |inputs|
    ensures Run(divide, origin, inputs[..k]).Ok?
    ensures TrailOf(divide, origin, inputs).states[k - 1] == Run(divide, origin, inputs[..k]).value.0
  {
    hide Run;
    TrailPrefix(divide, origin, inputs, k);
  }

  lemma {:induction false} RowsInOrder(divide: (real, real) -> real, origin: Account, l: Ledger, table: seq<ExecutionEvent>)
    requires LedgerInv(divide, origin, l) && multiset(table) == multiset(l.fills)
    ensures OrderBy(table) == l.fills && HaveOrders(l.fills, l.orders)
    ensures HaveOrders(OrderBy(table), l.orders) && RebuildInputs(l, table) == InputsOf(l)
  {
    hide Run;
    LedgerSorted(divide, origin, l);
    SortRestores(Before, table, l.fills);
  }

  lemma {:induction false} BothWithin(a: Tables, b: Tables)
    requires TablesWithin(a, b) && TablesWithin(b, a)
    ensures a == b
  {
    assert a.headers == b.headers && a.refs == b.refs && a.states == b.states;
    assert a.charts == b.charts && a.dashboard == b.dashboard;
  }

  /** The rows that survive: any part of the journal, whenever its requests were admitted. */
  ghost predicate Survives(divide: (real, real) -> real, origin: Account, l: Ledger, j: Tables)
    requires LedgerInv(divide, origin, l) && DistinctEvents(InputsOf(l))
  {
    TablesWithin(OnReceipt(j), JournalOf(divide, origin, InputsOf(l)))
  }

  /** No chart request that is due was lost. */
  predicate NoneLost(due: Charts, kept: Charts) {
    forall key :: key in due ==> key in kept
  }

  /** The requests after a rebuild: those that survived, and the others admitted now. */
  ghost function Refilled(due: Charts, kept: Charts, now: Time): Charts {
    map key | key in due :: if key in kept then kept[key] else due[key].(requestAdmittedAt := now)
  }

  lemma {:induction false} RefilledIs(due: Charts, kept: Charts, after: Charts, now: Time)
    requires Prompt(after) == due && Repeated(kept, after, now)
    ensures after == Refilled(due, kept, now)
  {
    assert forall key :: key in after <==> key in Prompt(after);
    forall key | key in after ensures after[key] == Refilled(due, kept, now)[key] {
      assert Prompt(after)[key] == due[key];
    }
  }

  /** Derived tables are a function of the ledger, but for one column. Whatever part of the
      journal is lost, and whatever order the fill table is stored in, a rebuild restores the
      reference journal, in which the requests it had to repeat are admitted at its own time;
      it is refused exactly when a stored fill no longer fits its instrument, or the account is
      closed and a chart request was lost. */
  lemma {:induction false} RebuildRestores(divide: (real, real) -> real, origin: Account, l: Ledger, active: bool, now: Time,
                                           table: seq<ExecutionEvent>, j: Tables)
    requires LedgerInv(divide, origin, l)
    requires multiset(table) == multiset(l.fills) && DistinctEvents(InputsOf(l))
    requires Survives(divide, origin, l, j)
    ensures HaveOrders(OrderBy(table), l.orders)
    ensures var r := Rebuilt(divide, active, now, l, table, j); var due := JournalOf(divide, origin, InputsOf(l));
      var fit := forall i :: 0 <= i < |l.fills| ==> UnitsHold(l, i);
      && (r.Ok? <==> fit && (active || NoneLost(due.charts, j.charts)))
      && (r.Err? && fit ==> r.error == AccountClosed)
      && (r.Ok? ==> r.value == due.(charts := Refilled(due.charts, j.charts, now)))
  {
    hide Run, Recapture, Genuine, Sized, JournalAt, Holds, TablesWithin, FillIdentities, OrdersMatchFills, OrderBy, HaveOrders,
         RebuildInputs, Refilled, Prompt, Repeated, ChartsOpen, NoneLost;
    var inputs := InputsOf(l);
    var h := TrailOf(divide, origin, inputs);
    SameOrigin(divide, origin, l);
    RowsInOrder(divide, origin, l, table);
    HoldsFills(divide, origin, l, table);
    RunGenuine(divide, origin, inputs);
    StartBetween(divide, h, OnReceipt(j));
    RecaptureIs(divide, active, now, table, origin, l.account, inputs, |inputs|, j);
    assert inputs[..|inputs|] == inputs;
    OpenIsNoneLost(divide, active, h, j);
    var r := Recapture(divide, active, now, table, l.account, inputs, j);
    if r.Ok? {
      BothWithin(OnReceipt(r.value.1), JournalAt(divide, h, |inputs|));
      RefilledIs(JournalAt(divide, h, |inputs|).charts, j.charts, r.value.1.charts, now);
    }
    UnitsAreFits(divide, origin, l);
  }

  lemma {:induction false} OpenIsNoneLost(divide: (real, real) -> real, active: bool, h: Trail, j: Tables)
    requires Sized(h)
    ensures ChartsOpen(divide, active, h, |h.states|, OnReceipt(j))
      <==> active || NoneLost(JournalAt(divide, h, |h.states|).charts, j.charts)
  {
    hide JournalAt;
  }

  /** What survives of the reference journal is rebuilt to exactly the reference journal if and
      only if the stored fills still fit and no chart request was lost, except, on an active
      account, of fills received at the very time of the rebuild. */
  lemma {:induction false} RebuildIsReference(divide: (real, real) -> real, origin: Account, l: Ledger, active: bool, now: Time,
                                              table: seq<ExecutionEvent>, j: Tables)
    requires LedgerInv(divide, origin, l)
    requires multiset(table) == multiset(l.fills) && DistinctEvents(InputsOf(l))
    requires TablesWithin(j, JournalOf(divide, origin, InputsOf(l)))
    ensures HaveOrders(OrderBy(table), l.orders)
    ensures var due := JournalOf(divide, origin, InputsOf(l));
      Rebuilt(divide, active, now, l, table, j) == Ok(due)
      <==> (forall i :: 0 <= i < |l.fills| ==> UnitsHold(l, i))
           && forall key :: key in due.charts ==> key in j.charts || (active && now == due.charts[key].createdAt)
  {
    hide Rebuilt, Run, LedgerInv, JournalOf, UnitsHold, OrderBy, HaveOrders, InputsOf, TablesWithin, Prompt, Refilled;
    LedgerRuns(divide, origin, l);
    var due := JournalOf(divide, origin, InputsOf(l));
    JournalPrompt(divide, origin, InputsOf(l));
    PartPrompt(j, due);
    RebuildRestores(divide, origin, l, active, now, table, j);
    RefilledSame(due.charts, j.charts, now);
  }

  lemma {:induction false} PartPrompt(j: Tables, due: Tables)
    requires TablesWithin(j, due) && OnReceipt(due) == due
    ensures OnReceipt(j) == j && Prompt(j.charts) == j.charts && Within(j.charts, due.charts)
    ensures Prompt(due.charts) == due.charts
  {
    assert Prompt(due.charts) == due.charts;
    forall key | key in j.charts ensures Prompt(j.charts)[key] == j.charts[key] {
      assert Prompt(due.charts)[key] == due.charts[key];
    }
    assert Prompt(j.charts) == j.charts;
  }

  lemma {:induction false} RefilledSame(due: Charts, kept: Charts, now: Time)
    requires Within(kept, due) && Prompt(due) == due
    ensures Refilled(due, kept, now) == due <==> forall key :: key in due ==> key in kept || now == due[key].createdAt
  {
    forall key | key in due ensures due[key].requestAdmittedAt == due[key].createdAt {
      assert Prompt(due)[key] == due[key];
    }
    if Refilled(due, kept, now) == due {
      forall key | key in due ensures key in kept || now == due[key].createdAt {
        assert Refilled(due, kept, now)[key] == due[key];
      }
    }
  }

  lemma {:induction false} UnitsAreFits(divide: (real, real) -> real, origin: Account, l: Ledger)
    requires FillsHaveOrders(l)
    ensures (forall i :: 0 <= i < |l.fills| ==> UnitsHold(l, i)) <==> (forall i :: 0 <= i < |l.fills| ==> Fits(InputsOf(l)[i]))
  {
    hide ValidateUnits;
    forall i | 0 <= i < |l.fills| ensures UnitsHold(l, i) == Fits(InputsOf(l)[i]) {
    }
  }

  lemma {:induction false} StartBetween(divide: (real, real) -> real, h: Trail, j: Tables)
    requires Sized(h) && TablesWithin(j, JournalAt(divide, h, |h.states|))
    ensures Between(divide, h, 0, j)
  {
    hide Booked, Extended;
  }

  /** Deleting the read states and snapshots and rebuilding gives them back, on a closed
      account too. */
  lemma {:induction false} DeleteAndRebuild(divide: (real, real) -> real, origin: Account, l: Ledger, active: bool, now: Time,
                                            table: seq<ExecutionEvent>, j: Tables)
    requires JournalHolds(divide, origin, l, j)
    requires multiset(table) == multiset(l.fills)
    requires forall i :: 0 <= i < |l.fills| ==> UnitsHold(l, i)
    ensures HaveOrders(OrderBy(table), l.orders)
    ensures Rebuilt(divide, active, now, l, table, Dropped(j)) == Ok(j)
  {
    hide Rebuilt, Run, LedgerInv, JournalOf, UnitsHold, OrderBy, HaveOrders, Refilled, Prompt;
    LedgerRuns(divide, origin, l);
    DroppedWithin(j, JournalOf(divide, origin, InputsOf(l)));
    var due := JournalOf(divide, origin, InputsOf(l));
    RebuildRestores(divide, origin, l, active, now, table, Dropped(j));
    RefilledKept(due.charts, j.charts, now);
  }

  lemma {:induction false} DroppedWithin(j: Tables, due: Tables)
    requires OnReceipt(j) == due
    ensures TablesWithin(OnReceipt(Dropped(j)), due) && NoneLost(due.charts, Dropped(j).charts)
    ensures Prompt(j.charts) == due.charts && j == due.(charts := j.charts)
  {
  }

  lemma {:induction false} RefilledKept(due: Charts, kept: Charts, now: Time)
    requires Prompt(kept) == due
    ensures Refilled(due, kept, now) == kept
  {
    assert forall key :: key in kept <==> key in Prompt(kept);
  }

  lemma {:induction false} RecaptureFailure(divide: (real, real) -> real, active: bool, now: Time, table: seq<ExecutionEvent>, origin: Account,
                                            inputs: seq<Input>, k: nat, j: Tables)
    requires k <= |inputs|
    ensures Recapture(divide, active, now, table, origin, inputs[..k], j).Err? ==>
      Recapture(divide, active, now, table, origin, inputs, j) == Recapture(divide, active, now, table, origin, inputs[..k], j)
    decreases |inputs|
  {
    hide ApplyFill, MemberOf, Captured;
    if k < |inputs| {
      var init := inputs[..|inputs| - 1];
      RecaptureFailure(divide, active, now, table, origin, init, k, j);
      assert init[..k] == inputs[..k];
    } else {
      assert inputs[..k] == inputs;
    }
  }

  /** The recovery as a loop over the tables. */
  method Rebuild(divide: (real, real) -> real, active: bool, now: Time, l: Ledger, table: seq<ExecutionEvent>, store: Store)
    returns (fault: Option<Fault>)
    requires HaveOrders(OrderBy(table), l.orders) && store.Valid()
    modifies store
    ensures var r := Rebuilt(divide, active, now, l, table, old(store.Contents()));
      if r.Err? then fault == Some(r.error) else fault.None? && store.Contents() == r.value && store.Valid()
  {
    hide ApplyFill, MemberOf, Captured, OrderBy;
    var inputs := RebuildInputs(l, table);
    var state := EmptyProjection(l.account);
    for i := 0 to |inputs|
      invariant store.Valid()
      invariant Recapture(divide, active, now, table, l.account, inputs[..i], old(store.Contents())) == Ok((state, store.Contents()))
    {
      assert inputs[..i + 1][..i] == inputs[..i];
      RecaptureFailure(divide, active, now, table, l.account, inputs, i + 1, old(store.Contents()));
      var next := ApplyFill(divide, state, inputs[i].event, inputs[i].profile, inputs[i].plan);
      if next.Err? {
        return Some(next.error);
      }
      var member := MemberOf(next.value, inputs[i].event);
      if member.Err? {
        return Some(member.error);
      }
      state := next.value;
      fault := store.CaptureFill(divide, active, Some(now), table, state, inputs[i].event);
      if fault.Some? {
        return;
      }
    }
    assert inputs[..|inputs|] == inputs;
    return if state != l.account then Some(ReplayMismatch) else None;
  }
}
