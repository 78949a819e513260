/** What the journal of an account holds for each of its trades: when its header dates from, which
    of its fills entered and which left, and which charts are requested for it. */
module JournalLaws {
  import opened Wrappers
  import opened ExecutionModels
  import opened TradeProjection
  import opened LedgerInvariant
  import opened Journal
  import opened JournalHistory
  import opened JournalRebuild

  /** The request for a chart as of a fill, due on its receipt. */
  predicate AsOfFill(chart: Chart, e: ExecutionEvent) {
    chart.trigger == e.eventId && chart.snapshotTime == e.filledAt && chart.createdAt == e.receivedAt && chart.requestAdmittedAt == e.receivedAt
  }

  /** What the journal says of one trade identifier: nothing unless it is a trade; its first fill
      dates the header and asks for the entry chart, and the fill that closed it, if any, asks for
      the exit chart. */
  ghost predicate TradeJournaled(j: Tables, s: Account, members: seq<Member>, id: Id) {
    var t, fills := FindTrade(s, id), EventsOf(members, id);
    && (id in j.headers <==> t.Some?) && ((id, EntryChart) in j.charts <==> t.Some?)
    && ((id, ExitChart) in j.charts <==> t.Some? && t.value.closedAt.Some?)
    && (t.Some? ==>
          && fills != [] && j.headers[id] == fills[0].receivedAt && AsOfFill(j.charts[(id, EntryChart)], fills[0])
          && (t.value.closedAt.Some? ==> AsOfFill(j.charts[(id, ExitChart)], fills[|fills| - 1])))
  }

  /** Fills enter on the side of their trade's direction and leave on the other. */
  ghost predicate RoleOk(s: Account, m: Member) {
    && FindTrade(s, m.tradeId).Some?
    && match FindTrade(s, m.tradeId).value.direction
       case Long => (m.event.side.Buy? <==> m.role.Entry?) && (m.event.side.Sell? <==> m.role.Exit?)
       case Short => (m.event.side.Sell? <==> m.role.Entry?) && (m.event.side.Buy? <==> m.role.Exit?)
  }

  /** A trade that is not known has no fills, and one that is has its identifier from the first. */
  lemma {:induction false} FillsOfTrade(origin: Account, s: Account, members: seq<Member>, id: Id)
    requires LedgerOk(origin, s, members)
    ensures FindTrade(s, id).None? ==> EventsOf(members, id) == []
    ensures FindTrade(s, id).Some? ==> EventsOf(members, id) != [] && EventsOf(members, id)[0].eventId == id
  {
    hide NetOf, BoundOk, Remaining, Basis, QuantityOn, NotionalOn, FeesOf;
    if FindTrade(s, id).None? {
      NoMembers(members, id, s.trades);
    }
  }

  lemma {:induction false} NoMembers(members: seq<Member>, id: Id, trades: seq<Trade>)
    requires TradeIndex(trades, id) == |trades|
    requires forall k :: 0 <= k < |members| ==> TradeIndex(trades, members[k].tradeId) < |trades|
    ensures EventsOf(members, id) == []
    decreases |members|
  {
    hide TradeIndex;
    if members != [] {
      NoMembers(members[..|members| - 1], id, trades);
    }
  }

  lemma {:induction false} OlderFill(members: seq<Member>, id: Id, n: nat)
    requires Ordered(members) && n < |members| && EventsOf(members[..n], id) != []
    ensures EventsOf(members[..n], id)[0].eventId != members[n].event.eventId
  {
    hide EventsOf;
    EventsOfMembers(members[..n], id, 0);
  }

  /** One more fill: the rows of other trades stay, those of its own trade are due. */
  lemma {:induction false} StepJournaled(divide: (real, real) -> real, j: Tables, s0: Account, s: Account, members: seq<Member>, id: Id)
    requires members != [] && Booked(s, members[|members| - 1]) && Untouched(s0, s, members[|members| - 1])
    requires TradeJournaled(j, s0, members[..|members| - 1], id)
    requires var m, fills := members[|members| - 1], EventsOf(members[..|members| - 1], id);
      m.tradeId == id ==>
        if FindTrade(s0, id).None? then fills == [] && m.event.eventId == id else fills != [] && m.event.eventId != id
    ensures TradeJournaled(Extended(divide, j, s, members), s, members, id)
  {
    hide DashboardRow, TradeIndex;
    var m := members[|members| - 1];
    assert EventsOf(members, id) == EventsOf(members[..|members| - 1], id) + (if m.tradeId == id then [m.event] else []);
    assert FindTrade(s, m.tradeId) == Some(ReadRow(s, m).body);
  }

  /** The journal after every fill says of every trade what is due. */
  lemma {:induction false} TrailJournaled(divide: (real, real) -> real, origin: Account, h: Trail, k: nat, id: Id)
    requires Genuine(origin, h) && Sized(h) && k <= |h.states|
    ensures TradeJournaled(JournalAt(divide, h, k), Earlier(origin, h, k), h.members[..k], id)
    decreases k
  {
    hide JournalAt, Untouched, TradeJournaled, EventsOf, Extended, FindTrade, Genuine, Booked;
    if k == 0 {
      NothingJournaled(divide, origin, h, id);
    } else {
      TrailJournaled(divide, origin, h, k - 1, id);
      JournalStep(divide, h, k);
      var members := h.members[..k];
      assert members[..k - 1] == h.members[..k - 1];
      StepMoves(origin, h, k);
      if members[k - 1].tradeId == id {
        FillsBefore(origin, h, k, id);
      }
      StepJournaled(divide, JournalAt(divide, h, k - 1), Earlier(origin, h, k - 1), h.states[k - 1], members, id);
    }
  }

  lemma {:induction false} StepMoves(origin: Account, h: Trail, k: nat)
    requires Genuine(origin, h) && 0 < k <= |h.states|
    ensures |h.members| == |h.states| && Booked(h.states[k - 1], h.members[k - 1])
    ensures Untouched(Earlier(origin, h, k - 1), h.states[k - 1], h.members[k - 1]) && Earlier(origin, h, k) == h.states[k - 1]
  {
    hide LedgerOk, SchemaValid, MemberOf, Untouched, Ordered, Booked;
    GenuineStep(origin, h, k - 1);
  }

  lemma {:induction false} NothingJournaled(divide: (real, real) -> real, origin: Account, h: Trail, id: Id)
    requires Sized(h)
    ensures TradeJournaled(JournalAt(divide, h, 0), EmptyProjection(origin), h.members[..0], id)
  {
  }

  /** What is known of a trade before a fill of its own: whether the fill is its first. */
  lemma {:induction false} FillsBefore(origin: Account, h: Trail, k: nat, id: Id)
    requires Genuine(origin, h) && 0 < k <= |h.states| && h.members[k - 1].tradeId == id
    ensures var m, fills := h.members[k - 1], EventsOf(h.members[..k - 1], id);
      if FindTrade(Earlier(origin, h, k - 1), id).None? then fills == [] && m.event.eventId == id else fills != [] && m.event.eventId != id
  {
    hide Genuine, LedgerOk, EventsOf, Ordered, FindTrade, Booked;
    StepMoves(origin, h, k);
    var m, before := h.members[k - 1], h.members[..k - 1];
    assert h.members[..k] == before + [m];
    BookedKnown(h.states[k - 1], m);
    AccountSound(origin, h, k - 1);
    AccountSound(origin, h, k);
    FillsOfTrade(origin, Earlier(origin, h, k - 1), before, id);
    FillsOfTrade(origin, h.states[k - 1], h.members[..k], id);
    EventsAppend(before, m, id);
    if EventsOf(before, id) != [] {
      GenuineSized(origin, h);
      OlderFill(h.members, id, k - 1);
    }
  }

  lemma {:induction false} AccountSound(origin: Account, h: Trail, k: nat)
    requires Genuine(origin, h) && k <= |h.states|
    ensures |h.members| == |h.states| && LedgerOk(origin, Earlier(origin, h, k), h.members[..k])
  {
    hide LedgerOk, Ordered, StepOk;
    if k == 0 {
      EmptyOk(origin);
    } else {
      GenuineStep(origin, h, k - 1);
    }
  }

  lemma {:induction false} BookedKnown(s: Account, m: Member)
    requires Booked(s, m)
    ensures FindTrade(s, m.tradeId).Some?
  {
  }

  // ---- roles -----------------------------------------------------------------------

  lemma {:induction false} MemberRole(s: Account, m: Member)
    requires MemberOf(s, m.event) == Ok(m)
    ensures RoleOk(s, m)
  {
    hide PositionIndex;
  }

  lemma {:induction false} RoleStays(s0: Account, s: Account, last: Member, m: Member)
    requires Untouched(s0, s, last) && RoleOk(s0, m)
    ensures RoleOk(s, m)
  {
    hide FindTrade;
  }

  lemma {:induction false} TrailRoles(origin: Account, h: Trail, k: nat, i: nat)
    requires Genuine(origin, h) && i < k <= |h.states| == |h.members|
    ensures RoleOk(Earlier(origin, h, k), h.members[i])
    decreases k
  {
    hide Genuine, RoleOk, Untouched, Booked, MemberOf;
    StepMoves(origin, h, k);
    if i == k - 1 {
      StepRole(origin, h, i);
      MemberRole(h.states[i], h.members[i]);
    } else {
      TrailRoles(origin, h, k - 1, i);
      RoleStays(Earlier(origin, h, k - 1), h.states[k - 1], h.members[k - 1], h.members[i]);
    }
  }

  lemma {:induction false} StepRole(origin: Account, h: Trail, i: nat)
    requires Genuine(origin, h) && i < |h.states| == |h.members|
    ensures MemberOf(h.states[i], h.members[i].event) == Ok(h.members[i])
  {
    hide Genuine, LedgerOk, StepOk;
    GenuineStep(origin, h, i);
  }

  /** The journal of any admitted fills has, for every trade and no other identifier, a header
      from its first fill and a request for its entry chart as of it, and a request for its exit
      chart exactly if the trade is closed, as of the fill that closed it; and it refers every fill
      to its trade, entering on the side of the trade's direction and leaving on the other. */
  lemma {:induction false} JournalSays(divide: (real, real) -> real, origin: Account, inputs: seq<Input>)
    requires DistinctEvents(inputs) && Run(divide, origin, inputs).Ok?
    ensures var j := JournalOf(divide, origin, inputs); var (s, members) := Run(divide, origin, inputs).value;
      && (forall id :: TradeJournaled(j, s, members, id))
      && |members| == |inputs|
      && forall i :: 0 <= i < |inputs| ==>
           var m := members[i];
           && m.event == inputs[i].event && RoleOk(s, m)
           && m.event.eventId in j.refs && j.refs[m.event.eventId] == Ref(m.tradeId, m.role)
  {
    hide Run, TradeJournaled, RoleOk, JournalAt, Genuine, Sized, Ordered, EventsOf, MemberOf, Booked, ReadRow, DashboardRow, TablesWithin;
    RunGenuine(divide, origin, inputs);
    RunEvents(divide, origin, inputs);
    var h, n := TrailOf(divide, origin, inputs), |inputs|;
    var (s, members) := Run(divide, origin, inputs).value;
    GenuineSized(origin, h);
    TrailPrefix(divide, origin, inputs, n);
    assert inputs[..n] == inputs && h.members[..n] == members;
    forall id ensures TradeJournaled(JournalAt(divide, h, n), s, members, id) {
      TrailJournaled(divide, origin, h, n, id);
    }
    JournalRows(divide, h, n);
    forall i | 0 <= i < n
      ensures members[i].event == inputs[i].event && RoleOk(s, members[i])
      ensures var m := members[i]; var j := JournalAt(divide, h, n); m.event.eventId in j.refs && j.refs[m.event.eventId] == Ref(m.tradeId, m.role)
    {
      TrailRoles(origin, h, n, i);
      assert RowsAt(divide, h, JournalAt(divide, h, n), i);
    }
  }
}
