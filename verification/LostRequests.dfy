/** A chart request that was lost comes back later than live capture admitted it: for every
    account with a fill, and on a concrete one. */
module LostRequests {
  import opened Wrappers
  import opened DecimalPolicy
  import opened ExecutionModels
  import opened Accounting
  import opened TradeProjection
  import opened LedgerInvariant
  import opened Repository
  import opened AsOf
  import opened Journal
  import opened JournalHistory
  import opened JournalCapture
  import opened ChartRequests
  import opened JournalRebuild

  /** The entry chart of the first trade is due on receipt of the first fill. */
  lemma {:induction false} EntryRequestDue(divide: (real, real) -> real, origin: Account, l: Ledger)
    requires LedgerInv(divide, origin, l) && DistinctEvents(InputsOf(l)) && l.fills != []
    ensures var e := l.fills[0]; var charts := JournalOf(divide, origin, InputsOf(l)).charts;
      (e.eventId, EntryChart) in charts && charts[(e.eventId, EntryChart)] == Chart(e.eventId, e.filledAt, e.receivedAt, e.receivedAt)
  {
    hide Run, JournalAt, Genuine, Sized, Ordered, FillIdentities, OrdersMatchFills, LedgerOk, SchemaValid, MemberOf, TrailOf, Extended, Booked;
    var inputs := InputsOf(l);
    var h := TrailOf(divide, origin, inputs);
    RunGenuine(divide, origin, inputs);
    GenuineSized(origin, h);
    TrailPrefix(divide, origin, inputs, 1);
    GenuineStep(origin, h, 0);
    FirstFillNames(origin, h.states[0], h.members[..1]);
    JournalStep(divide, h, 1);
    NoCharts(divide, h);
    FirstRequest(divide, JournalAt(divide, h, 0), h.states[0], h.members[..1]);
    JournalGrows(divide, h, 1, |h.states|);
  }

  lemma {:induction false} FirstRequest(divide: (real, real) -> real, j: Tables, s: Account, members: seq<Member>)
    requires |members| == 1 && Booked(s, members[0]) && j.charts == map[] && members[0].tradeId == members[0].event.eventId
    ensures var e := members[0].event; var charts := Extended(divide, j, s, members).charts;
      (e.eventId, EntryChart) in charts && charts[(e.eventId, EntryChart)] == Chart(e.eventId, e.filledAt, e.receivedAt, e.receivedAt)
  {
    hide Booked, DashboardRow, ReadRow;
  }

  /** Whoever loses the whole journal of an account with a fill gets another one back, unless
      the rebuild happens at the very receipt of the first fill. */
  lemma {:induction false} LostRequestIsLate(divide: (real, real) -> real, origin: Account, l: Ledger, now: Time, table: seq<ExecutionEvent>)
    requires LedgerInv(divide, origin, l) && DistinctEvents(InputsOf(l)) && l.fills != []
    requires multiset(table) == multiset(l.fills) && now != l.fills[0].receivedAt
    requires forall i :: 0 <= i < |l.fills| ==> UnitsHold(l, i)
    ensures HaveOrders(OrderBy(table), l.orders)
    ensures var r := Rebuilt(divide, true, now, l, table, NOTHING); var e := l.fills[0]; var key := (e.eventId, EntryChart);
      r.Ok? && key in r.value.charts && r.value.charts[key] == Chart(e.eventId, e.filledAt, e.receivedAt, now)
      && r.value != JournalOf(divide, origin, InputsOf(l))
  {
    hide Rebuilt, Run, LedgerInv, JournalOf, UnitsHold, OrderBy, HaveOrders, InputsOf;
    LedgerRuns(divide, origin, l);
    EntryRequestDue(divide, origin, l);
    var due := JournalOf(divide, origin, InputsOf(l));
    NothingSurvives(due);
    RebuildRestores(divide, origin, l, true, now, table, NOTHING);
  }

  lemma {:induction false} NothingSurvives(due: Tables)
    ensures TablesWithin(OnReceipt(NOTHING), due)
  {
  }

  /** Whoever loses the whole journal of a closed account with a fill gets nothing back, at
      whatever time it is rebuilt. */
  lemma {:induction false} LostOnClosedAccount(divide: (real, real) -> real, origin: Account, l: Ledger, now: Time, table: seq<ExecutionEvent>)
    requires LedgerInv(divide, origin, l) && DistinctEvents(InputsOf(l)) && l.fills != []
    requires multiset(table) == multiset(l.fills)
    requires forall i :: 0 <= i < |l.fills| ==> UnitsHold(l, i)
    ensures HaveOrders(OrderBy(table), l.orders) && Rebuilt(divide, false, now, l, table, NOTHING) == Err(AccountClosed)
  {
    hide Rebuilt, Run, LedgerInv, JournalOf, UnitsHold, OrderBy, HaveOrders, InputsOf;
    LedgerRuns(divide, origin, l);
    EntryRequestDue(divide, origin, l);
    NothingSurvives(JournalOf(divide, origin, InputsOf(l)));
    RebuildRestores(divide, origin, l, false, now, table, NOTHING);
  }

  /** One fill of one unit, received at 1; its journal is lost and rebuilt at 2. */
  lemma {:induction false} OneFillIsLate(divide: (real, real) -> real)
    ensures var profile := InstrumentProfile("R", "S", 1.0, 1.0, 1.0, 0, 1);
      var origin := Account("A", "X", 100.0, 100.0, 0, Some(0), 0, None, [], []);
      var fill := ExecutionEvent("e", "X", "A", "o", "x", "f", "S", "R", Buy, Decimal(1, 0), Decimal(1, 0), [0.0], 1, 1, 1);
      var l0 := OneOrder(origin, profile);
      var r := Admit(divide, l0, fill, profile, true);
      && r.Ok? && LedgerInv(divide, origin, r.value.1) && DistinctEvents(InputsOf(r.value.1))
      && HaveOrders(OrderBy([fill]), r.value.1.orders)
      && var rebuilt := Rebuilt(divide, true, 2, r.value.1, [fill], NOTHING);
         && rebuilt.Ok? && ("e", EntryChart) in rebuilt.value.charts
         && rebuilt.value.charts[("e", EntryChart)] == Chart("e", 1, 1, 2)
         && rebuilt.value != JournalOf(divide, origin, InputsOf(r.value.1))
  {
    hide Rebuilt, JournalOf, OrderBy, HaveOrders;
    var profile := InstrumentProfile("R", "S", 1.0, 1.0, 1.0, 0, 1);
    var origin := Account("A", "X", 100.0, 100.0, 0, Some(0), 0, None, [], []);
    var fill := ExecutionEvent("e", "X", "A", "o", "x", "f", "S", "R", Buy, Decimal(1, 0), Decimal(1, 0), [0.0], 1, 1, 1);
    var l0 := OneOrder(origin, profile);
    OneAdmission(divide, origin, profile, fill);
    var l := Admit(divide, l0, fill, profile, true).value.1;
    AdmitKeeps(divide, origin, l0, fill, profile, true);
    InputsDistinct(l);
    LostRequestIsLate(divide, origin, l, 2, [fill]);
  }

  /** An account with one acknowledged order for one unit. */
  function OneOrder(origin: Account, profile: InstrumentProfile): Ledger {
    var intent := OrderIntent("c", "S", Buy, OrderKind.Market, Decimal(1, 0), None, None);
    var order := Order("o", intent, "R", 0, Acknowledged, Some("x"), None, false, None, Decimal(0, 0), None, None, None);
    Ledger(EmptyProjection(origin), map["o" := OrderRow(order, profile, 1)], [], 1, true)
  }

  lemma {:induction false} OneAdmission(divide: (real, real) -> real, origin: Account, profile: InstrumentProfile, fill: ExecutionEvent)
    requires profile == InstrumentProfile("R", "S", 1.0, 1.0, 1.0, 0, 1)
    requires origin == Account("A", "X", 100.0, 100.0, 0, Some(0), 0, None, [], [])
    requires fill == ExecutionEvent("e", "X", "A", "o", "x", "f", "S", "R", Buy, Decimal(1, 0), Decimal(1, 0), [0.0], 1, 1, 1)
    ensures LedgerInv(divide, origin, OneOrder(origin, profile))
    ensures var r := Admit(divide, OneOrder(origin, profile), fill, profile, true);
      r.Ok? && r.value.1.fills == [fill] && UnitsHold(r.value.1, 0)
  {
    hide ApplyFill, MatchesOrder, StaleIntent, ValidateUnits, Val, Normalize, FilledBy, Run, FillIdentities, OrdersMatchFills;
    var l0 := OneOrder(origin, profile);
    OneLedger(divide, origin, profile);
    OneMatches(origin, profile, fill);
    OneApplies(divide, origin, profile, fill);
    var r := Admit(divide, l0, fill, profile, true);
    assert r.Ok? && r.value.1.fills == [fill];
    assert InputAt(r.value.1, 0) == Input(fill, profile, None);
  }

  lemma {:induction false} OneLedger(divide: (real, real) -> real, origin: Account, profile: InstrumentProfile)
    ensures LedgerInv(divide, origin, OneOrder(origin, profile))
  {
    SmallNumbers();
    ZeroIs();
    hide Val;
    assert InputsOf(OneOrder(origin, profile)) == [];
  }

  lemma {:induction false} OneMatches(origin: Account, profile: InstrumentProfile, fill: ExecutionEvent)
    requires profile == InstrumentProfile("R", "S", 1.0, 1.0, 1.0, 0, 1)
    requires fill == ExecutionEvent("e", "X", "A", "o", "x", "f", "S", "R", Buy, Decimal(1, 0), Decimal(1, 0), [0.0], 1, 1, 1)
    ensures var l0 := OneOrder(origin, profile);
      MatchesOrder(l0.orders["o"].order, fill) && StaleIntent(l0.account, l0.orders["o"].order, fill).None?
    ensures ValidEvent(fill) && Stored(fill) == fill
  {
    SmallNumbers();
    ZeroIs();
    hide Scaled, Normalize, Add;
    AddIsExact(Decimal(0, 0), Decimal(1, 0));
  }

  lemma {:induction false} ZeroIs()
    ensures Val(Decimal(0, 0)) == 0.0
  {
  }

  lemma {:induction false} OneApplies(divide: (real, real) -> real, origin: Account, profile: InstrumentProfile, fill: ExecutionEvent)
    requires profile == InstrumentProfile("R", "S", 1.0, 1.0, 1.0, 0, 1)
    requires origin == Account("A", "X", 100.0, 100.0, 0, Some(0), 0, None, [], [])
    requires fill == ExecutionEvent("e", "X", "A", "o", "x", "f", "S", "R", Buy, Decimal(1, 0), Decimal(1, 0), [0.0], 1, 1, 1)
    ensures ValidateUnits(profile, Some(fill.price), fill.quantity).None?
    ensures ApplyFill(divide, EmptyProjection(origin), fill, profile, None).Ok?
  {
    SmallNumbers();
    hide Scaled, Digits;
    assert Notional(fill) == 1.0;
    assert TotalFee(fill) == 0.0;
  }
}
