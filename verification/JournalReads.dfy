/** Reading the journal back: the dashboard and a trade's detail as of a cutoff, and the
    audit enumeration that replays every fill. */
module JournalReads {
  import opened Wrappers
  import opened ExecutionModels
  import opened TradeProjection
  import opened LedgerInvariant
  import opened LedgerHistory
  import opened Repository
  import opened AsOf
  import opened Journal
  import opened JournalHistory
  import opened JournalCapture
  import opened ChartRequests
  import opened JournalRebuild

  datatype JournalTrade = JournalTrade(trade: Trade, fills: seq<ExecutionEvent>, finalizedAt: Option<Time>, figures: Display)

  // ---- the reads -------------------------------------------------------------------

  function SnapshotBy(cutoff: Time): Row<DisplayState> -> bool {
    (row: Row<DisplayState>) => row.knownAt <= cutoff
  }

  function StateBy(tradeId: Id, cutoff: Option<Time>): Row<Trade> -> bool {
    (row: Row<Trade>) => row.body.tradeId == tradeId && (cutoff.Some? ==> row.knownAt <= cutoff.value)
  }

  /** `account_state`: the latest snapshot known by the cutoff, or the empty account. */
  ghost function DashboardAsOf(l: Ledger, j: Tables, cutoff: Time): Result<DisplayState, Fault> {
    var row := Latest(j.dashboard, SnapshotBy(cutoff));
    if row.None? then Ok(DisplayOf(EmptyProjection(l.account), map[]))
    else if DisplayValid(row.value.body) then Ok(row.value.body)
    else Err(JournalConflict)
  }

  /** A fill listed in a detail carries the role of its reference and was already known. */
  predicate ListedOk(j: Tables, row: Row<Trade>, e: ExecutionEvent) {
    && e.eventId in j.refs
    && j.refs[e.eventId].role == RoleOf(row.body, e)
    && e.receivedAt <= row.knownAt
  }

  /** `detail`: the latest state of a trade known by the cutoff with the fills behind it. The
      final state of a trade must agree with the account's own record. */
  ghost function Detail(divide: (real, real) -> real, l: Ledger, j: Tables, table: seq<ExecutionEvent>,
                        tradeId: Id, cutoff: Option<Time>): Result<JournalTrade, Fault>
  {
    var found := Latest(j.states, StateBy(tradeId, cutoff));
    if found.None? then Err(MissingTrade)
    else
      var row := found.value;
      var trade := row.body;
      var fills := SourceFills(table, j.refs, tradeId, row.sequence);
      if (cutoff.None? || trade.closedAt.Some?) && FindTrade(l.account, tradeId) != Some(trade) then Err(ReplayMismatch)
      else if exists i :: 0 <= i < |fills| && !ListedOk(j, row, fills[i]) then Err(JournalConflict)
      else if fills == [] || fills[|fills| - 1].eventId != row.eventId then Err(JournalConflict)
      else
        var figures :- FillDisplay(divide, trade, fills);
        Ok(JournalTrade(trade, fills, if trade.closedAt.Some? then Some(row.knownAt) else None, figures))
  }

  /** Neither read looks at the chart requests. */
  lemma {:induction false} ReadsSame(divide: (real, real) -> real, l: Ledger, j: Tables, table: seq<ExecutionEvent>, tradeId: Id, cutoff: Option<Time>)
    ensures cutoff.Some? ==> DashboardAsOf(l, OnReceipt(j), cutoff.value) == DashboardAsOf(l, j, cutoff.value)
    ensures Detail(divide, l, OnReceipt(j), table, tradeId, cutoff) == Detail(divide, l, j, table, tradeId, cutoff)
  {
    hide Latest, SourceFills, FillDisplay, DisplayValid, DisplayOf, FindTrade, Prompt, RoleOf;
    var found := Latest(j.states, StateBy(tradeId, cutoff));
    if found.Some? {
      var fills := SourceFills(table, j.refs, tradeId, found.value.sequence);
      assert forall e :: ListedOk(OnReceipt(j), found.value, e) == ListedOk(j, found.value, e);
    }
  }

  // ---- visible prefixes ------------------------------------------------------------

  /** The fills a cutoff reaches: all of them, or those received by it. */
  ghost predicate Visible(members: seq<Member>, cutoff: Option<Time>, k: nat) {
    k <= |members| && forall i :: 0 <= i < |members| ==>
      ((cutoff.Some? ==> members[i].event.receivedAt <= cutoff.value) <==> i < k)
  }

  /** The state of a trade after k fills was written by its last fill among them. */
  lemma {:induction false} LastWriter(origin: Account, h: Trail, id: Id, k: nat) returns (i: nat)
    requires Genuine(origin, h) && Sized(h) && k <= |h.states|
    ensures i <= k
    ensures forall q :: i < q < k ==> h.members[q].tradeId != id
    ensures i == k ==> FindTrade(Earlier(origin, h, k), id) == None && forall q :: 0 <= q < k ==> h.members[q].tradeId != id
    ensures i < k ==>
      && h.members[i].tradeId == id
      && FindTrade(Earlier(origin, h, k), id) == Some(ReadRow(h.states[i], h.members[i]).body)
    decreases k
  {
    hide Genuine, StepOk, LedgerOk, SchemaValid, MemberOf, TradeIndex;
    if k == 0 {
      i := 0;
      NoTrades(origin, id);
    } else {
      GenuineStep(origin, h, k - 1);
      StepUntouched(origin, Earlier(origin, h, k - 1), h.states[k - 1], h.members[..k]);
      if h.members[k - 1].tradeId == id {
        i := k - 1;
      } else {
        i := LastWriter(origin, h, id, k - 1);
        if i == k - 1 {
          i := k;
        }
      }
    }
  }

  lemma {:induction false} NoTrades(origin: Account, id: Id)
    ensures FindTrade(EmptyProjection(origin), id) == None
  {
  }

  lemma {:induction false} StepUntouched(origin: Account, s0: Account, s: Account, members: seq<Member>)
    requires StepOk(origin, s0, s, members)
    ensures var m := members[|members| - 1];
      && (forall id :: id != m.tradeId ==> FindTrade(s, id) == FindTrade(s0, id))
      && (FindTrade(s0, m.tradeId).Some? ==>
            && FindTrade(s0, m.tradeId).value.closedAt.None?
            && FindTrade(s, m.tradeId).Some?
            && FindTrade(s, m.tradeId).value.direction == FindTrade(s0, m.tradeId).value.direction)
  {
    hide LedgerOk, SchemaValid, MemberOf, FindTrade;
  }

  /** A closed trade is the same record in every later account of a trail. */
  lemma {:induction false} ClosedStays(origin: Account, h: Trail, id: Id, k: nat, n: nat)
    requires Genuine(origin, h) && Sized(h) && k <= n <= |h.states|
    requires var t := FindTrade(Earlier(origin, h, k), id); t.Some? && t.value.closedAt.Some?
    ensures FindTrade(Earlier(origin, h, n), id) == FindTrade(Earlier(origin, h, k), id)
    decreases n
  {
    hide Genuine, StepOk, LedgerOk, SchemaValid, MemberOf, FindTrade;
    if k < n {
      ClosedStays(origin, h, id, k, n - 1);
      GenuineStep(origin, h, n - 1);
      StepUntouched(origin, Earlier(origin, h, n - 1), h.states[n - 1], h.members[..n]);
    }
  }

  /** The latest visible snapshot is the one of the last visible fill. */
  lemma {:induction false} LatestSnapshot(divide: (real, real) -> real, h: Trail, cutoff: Time, k: nat)
    requires Sized(h) && Ordered(h.members) && Visible(h.members, Some(cutoff), k)
    ensures Latest(JournalAt(divide, h, |h.states|).dashboard, SnapshotBy(cutoff))
         == if k == 0 then None else Some(DashboardRow(divide, h.states[k - 1], h.members[..k]))
  {
    hide Booked, DisplayOf, FreshDisplays, Between, Ordered, Latest, JournalAt;
    var n := |h.states|;
    var j := JournalAt(divide, h, n);
    AllBetween(divide, h);
    SnapshotsDistinct(divide, h, n, j);
    var r := if k == 0 then None else Some(DashboardRow(divide, h.states[k - 1], h.members[..k]));
    if k > 0 {
      SnapshotAt(divide, h, n, j, k - 1);
    }
    forall id | id in j.dashboard && SnapshotBy(cutoff)(j.dashboard[id])
      ensures k > 0 && j.dashboard[id].sequence <= r.value.sequence
    {
      var i := SnapshotRow(divide, h, n, j, id);
      if i < k - 1 {
        InSequence(h.members, i, k - 1);
      }
    }
    LatestIs(j.dashboard, SnapshotBy(cutoff), r);
  }

  lemma {:induction false} AllBetween(divide: (real, real) -> real, h: Trail)
    requires Sized(h) && Ordered(h.members)
    ensures Between(divide, h, |h.states|, JournalAt(divide, h, |h.states|))
  {
    hide JournalAt, Booked, Ordered;
    JournalGrows(divide, h, |h.states|, |h.states|);
  }

  // ---- the dashboard is the account as of the cutoff -------------------------------

  lemma {:induction false} DashboardOfTrail(divide: (real, real) -> real, origin: Account, h: Trail, l: Ledger, cutoff: Time, k: nat)
    requires Genuine(origin, h) && Sized(h) && Visible(h.members, Some(cutoff), k)
    requires EmptyProjection(l.account) == EmptyProjection(origin)
    ensures var s := Earlier(origin, h, k);
      DashboardAsOf(l, JournalAt(divide, h, |h.states|), cutoff)
      == Ok(DisplayOf(s, FreshDisplays(divide, s, h.members[..k], s.positions)))
  {
    hide Genuine, Booked, JournalAt, Latest, DisplayValid, DisplayOf, LedgerOk, StepOk, SchemaValid, Ordered;
    GenuineSized(origin, h);
    LatestSnapshot(divide, h, cutoff, k);
    if k > 0 {
      GenuineStep(origin, h, k - 1);
      FreshValid(divide, origin, h.states[k - 1], h.members[..k]);
    } else {
      assert FreshDisplays(divide, EmptyProjection(origin), [], []) == map[];
    }
  }

  // ---- details ---------------------------------------------------------------------

  lemma {:induction false} StatePresent(divide: (real, real) -> real, h: Trail, i: nat)
    requires Sized(h) && Ordered(h.members) && i < |h.states|
    ensures var j := JournalAt(divide, h, |h.states|); var id := h.members[i].event.eventId;
      id in j.states && j.states[id] == ReadRow(h.states[i], h.members[i])
  {
    hide JournalAt, Booked, DashboardRow, Ordered;
    JournalRows(divide, h, |h.states|);
    assert RowsAt(divide, h, JournalAt(divide, h, |h.states|), i);
  }

  lemma {:induction false} StatesDistinct(divide: (real, real) -> real, h: Trail)
    requires Sized(h) && Ordered(h.members)
    ensures DistinctSequences(JournalAt(divide, h, |h.states|).states)
  {
    hide JournalAt, Booked, DashboardRow, Ordered, Between;
    var j := JournalAt(divide, h, |h.states|);
    AllBetween(divide, h);
    forall a, b | a in j.states && b in j.states && j.states[a].sequence == j.states[b].sequence ensures a == b {
      var i := StateRow(divide, h, |h.states|, j, a);
      var i' := StateRow(divide, h, |h.states|, j, b);
      SameSequence(h.members, i, i');
    }
  }

  /** The latest visible state of a trade is the row of its last visible fill. */
  lemma {:induction false} LatestState(divide: (real, real) -> real, h: Trail, id: Id, cutoff: Option<Time>, k: nat, i: nat)
    requires Sized(h) && Ordered(h.members) && Visible(h.members, cutoff, k) && i <= k
    requires forall q :: i < q < k ==> h.members[q].tradeId != id
    requires if i < k then h.members[i].tradeId == id else forall q :: 0 <= q < k ==> h.members[q].tradeId != id
    ensures Latest(JournalAt(divide, h, |h.states|).states, StateBy(id, cutoff))
         == if i < k then Some(ReadRow(h.states[i], h.members[i])) else None
  {
    hide JournalAt, DashboardRow, Ordered, Between, Latest, TradeIndex;
    var j := JournalAt(divide, h, |h.states|);
    AllBetween(divide, h);
    StatesDistinct(divide, h);
    var r := if i < k then Some(ReadRow(h.states[i], h.members[i])) else None;
    if i < k {
      StatePresent(divide, h, i);
    }
    forall x | x in j.states && StateBy(id, cutoff)(j.states[x])
      ensures i < k && j.states[x].sequence <= r.value.sequence
    {
      var q := StateRow(divide, h, |h.states|, j, x);
      if q < i {
        InSequence(h.members, q, i);
      }
    }
    LatestIs(j.states, StateBy(id, cutoff), r);
  }

  lemma {:induction false} EventsSkip(members: seq<Member>, id: Id, i: nat, k: nat)
    requires i <= k <= |members| && forall q :: i <= q < k ==> members[q].tradeId != id
    ensures EventsOf(members[..i], id) == EventsOf(members[..k], id)
    decreases k
  {
    if i < k {
      EventsSkip(members, id, i, k - 1);
      assert members[..k][..k - 1] == members[..k - 1];
    }
  }

  lemma {:induction false} TradeFigures(divide: (real, real) -> real, origin: Account, s: Account, members: seq<Member>, id: Id)
    requires LedgerOk(origin, s, members) && FindTrade(s, id).Some?
    ensures var t, fills := FindTrade(s, id).value, EventsOf(members, id);
      && fills != [] && t.tradeId == id
      && FillDisplay(divide, t, fills) == Ok(Figures(divide, t, fills))
  {
    hide EventsOf, QuantityOn, NotionalOn, FeesOf, Remaining, Basis, NetOf, BoundOk;
    var t := TradeIndex(s.trades, id);
    assert TradeOk(s.trades[t], EventsOf(members, s.trades[t].tradeId),
                   Remaining(s.positions, s.trades[t].tradeId), Basis(s.positions, s.trades[t].tradeId));
  }

  /** A member's role is read off the trade's direction, which never changes. */
  lemma {:induction false} RoleStays(origin: Account, h: Trail, q: nat, k: nat)
    requires Genuine(origin, h) && Sized(h) && q < k <= |h.states|
    ensures var t := FindTrade(Earlier(origin, h, k), h.members[q].tradeId);
      t.Some? && h.members[q].role == RoleOf(t.value, h.members[q].event)
    decreases k
  {
    hide Genuine, StepOk, LedgerOk, SchemaValid;
    var id := h.members[q].tradeId;
    GenuineStep(origin, h, k - 1);
    if q < k - 1 {
      hide MemberOf, FindTrade, Sized;
      RoleStays(origin, h, q, k - 1);
      StepUntouched(origin, Earlier(origin, h, k - 1), h.states[k - 1], h.members[..k]);
      if id == h.members[k - 1].tradeId {
        assert FindTrade(Earlier(origin, h, k - 1), id).Some?;
      }
    }
  }

  /** Every fill behind a state is listed with the role of its reference, and was known. */
  lemma {:induction false} AllListed(divide: (real, real) -> real, origin: Account, h: Trail, i: nat)
    requires Genuine(origin, h) && Sized(h) && i < |h.states|
    ensures var j := JournalAt(divide, h, |h.states|); var row := ReadRow(h.states[i], h.members[i]);
      var fills := EventsOf(h.members[..i + 1], h.members[i].tradeId);
      && (forall x :: 0 <= x < |fills| ==> ListedOk(j, row, fills[x]))
      && fills != [] && fills[|fills| - 1] == h.members[i].event
  {
    hide Genuine, JournalAt, StepOk, LedgerOk, SchemaValid, MemberOf, EventsOf, Ordered, DashboardRow, TradeIndex;
    var j := JournalAt(divide, h, |h.states|);
    var row := ReadRow(h.states[i], h.members[i]);
    var id := h.members[i].tradeId;
    var fills := EventsOf(h.members[..i + 1], id);
    GenuineSized(origin, h);
    JournalRows(divide, h, |h.states|);
    assert h.members[..i + 1] == h.members[..i] + [h.members[i]];
    EventsAppend(h.members[..i], h.members[i], id);
    forall x | 0 <= x < |fills| ensures ListedOk(j, row, fills[x]) {
      EventsOfMembers(h.members[..i + 1], id, x);
      var q :| 0 <= q < |h.members[..i + 1]| && h.members[..i + 1][q].event == fills[x] && h.members[..i + 1][q].tradeId == id;
      assert RowsAt(divide, h, j, q);
      RoleStays(origin, h, q, i + 1);
      ReceivedInOrder(h.members, q, i);
    }
  }

  lemma {:induction false} ReceivedInOrder(members: seq<Member>, a: nat, b: nat)
    requires Ordered(members) && a <= b < |members|
    ensures members[a].event.receivedAt <= members[b].event.receivedAt
  {
  }

  function TradeDetail(divide: (real, real) -> real, trade: Trade, fills: seq<ExecutionEvent>): JournalTrade
    requires fills != []
  {
    JournalTrade(trade, fills, if trade.closedAt.Some? then Some(fills[|fills| - 1].receivedAt) else None,
                 Figures(divide, trade, fills))
  }

  lemma {:induction false} DetailUnfolds(divide: (real, real) -> real, l: Ledger, j: Tables, table: seq<ExecutionEvent>,
                                         tradeId: Id, cutoff: Option<Time>, row: Row<Trade>, fills: seq<ExecutionEvent>)
    requires Latest(j.states, StateBy(tradeId, cutoff)) == Some(row)
    requires SourceFills(table, j.refs, tradeId, row.sequence) == fills && fills != []
    requires (cutoff.None? || row.body.closedAt.Some?) ==> FindTrade(l.account, tradeId) == Some(row.body)
    requires forall x :: 0 <= x < |fills| ==> ListedOk(j, row, fills[x])
    requires var last := fills[|fills| - 1]; last.eventId == row.eventId && last.receivedAt == row.knownAt
    requires FillDisplay(divide, row.body, fills) == Ok(Figures(divide, row.body, fills))
    ensures Detail(divide, l, j, table, tradeId, cutoff) == Ok(TradeDetail(divide, row.body, fills))
  {
    hide Latest, SourceFills, FillDisplay, Figures, ListedOk, FindTrade;
  }

  /** On a genuine trail a detail is the trade of the account as of the cutoff with all of its
      fills so far, and it is missing exactly when that account has no such trade. */
  lemma {:induction false} DetailOfTrail(divide: (real, real) -> real, origin: Account, h: Trail, l: Ledger,
                                         table: seq<ExecutionEvent>, id: Id, cutoff: Option<Time>, k: nat)
    requires Genuine(origin, h) && Sized(h) && Visible(h.members, cutoff, k) && Holds(table, h.members, |h.states|)
    requires l.account == Earlier(origin, h, |h.states|)
    ensures var j := JournalAt(divide, h, |h.states|);
      var t, fills := FindTrade(Earlier(origin, h, k), id), EventsOf(h.members[..k], id);
      && (t.None? ==> Detail(divide, l, j, table, id, cutoff) == Err(MissingTrade))
      && (t.Some? ==> fills != [] && Detail(divide, l, j, table, id, cutoff) == Ok(TradeDetail(divide, t.value, fills)))
  {
    hide Genuine, JournalAt, StepOk, LedgerOk, SchemaValid, MemberOf, EventsOf, Ordered, Holds, Latest, FindTrade, ListedOk, Detail, Sized,
         TradeDetail, TradeIndex, FillDisplay, Figures, Visible, Booked, RefsCover, SourceFills;
    var j := JournalAt(divide, h, |h.states|);
    GenuineSized(origin, h);
    SizedLengths(h, cutoff, k);
    var i := LastWriter(origin, h, id, k);
    LatestState(divide, h, id, cutoff, k, i);
    if i < k {
      GenuineStep(origin, h, i);
      var row := ReadRow(h.states[i], h.members[i]);
      EventsSkip(h.members, id, i + 1, k);
      JournalCovers(divide, h, i + 1);
      SourceIs(table, h.members, j.refs, id, i + 1, |h.states|);
      AllListed(divide, origin, h, i);
      StateFigures(divide, origin, h, i);
      if cutoff.None? {
        NoCutoff(h.members, k);
      } else if row.body.closedAt.Some? {
        ClosedStays(origin, h, id, k, |h.states|);
      }
      DetailUnfolds(divide, l, j, table, id, cutoff, row, EventsOf(h.members[..i + 1], id));
    } else {
      NoDetail(divide, l, j, table, id, cutoff);
    }
  }

  lemma {:induction false} NoDetail(divide: (real, real) -> real, l: Ledger, j: Tables, table: seq<ExecutionEvent>, id: Id, cutoff: Option<Time>)
    requires Latest(j.states, StateBy(id, cutoff)).None?
    ensures Detail(divide, l, j, table, id, cutoff) == Err(MissingTrade)
  {
    hide Latest, SourceFills, FillDisplay;
  }

  lemma {:induction false} SizedLengths(h: Trail, cutoff: Option<Time>, k: nat)
    requires Sized(h) && Visible(h.members, cutoff, k)
    ensures |h.states| == |h.members| && k <= |h.states|
  {
  }

  lemma {:induction false} NoCutoff(members: seq<Member>, k: nat)
    requires Visible(members, None, k)
    ensures k == |members|
  {
    if members != [] {
      assert members[|members| - 1].event.receivedAt <= 0 || |members| - 1 < k;
    }
  }

  lemma {:induction false} JournalCovers(divide: (real, real) -> real, h: Trail, k: nat)
    requires Sized(h) && Ordered(h.members) && k <= |h.states|
    ensures RefsCover(JournalAt(divide, h, |h.states|).refs, h.members, k)
  {
    hide JournalAt, Booked, DashboardRow, ReadRow, Ordered;
    JournalRows(divide, h, |h.states|);
    forall q | 0 <= q < k
      ensures var m, refs := h.members[q], JournalAt(divide, h, |h.states|).refs;
        m.event.eventId in refs && refs[m.event.eventId] == Ref(m.tradeId, m.role)
    {
      assert RowsAt(divide, h, JournalAt(divide, h, |h.states|), q);
    }
  }

  lemma {:induction false} StateFigures(divide: (real, real) -> real, origin: Account, h: Trail, i: nat)
    requires Genuine(origin, h) && Sized(h) && i < |h.states|
    ensures var row, fills := ReadRow(h.states[i], h.members[i]), EventsOf(h.members[..i + 1], h.members[i].tradeId);
      FillDisplay(divide, row.body, fills) == Ok(Figures(divide, row.body, fills))
  {
    hide Genuine, StepOk, LedgerOk, SchemaValid, MemberOf, EventsOf, FillDisplay, Figures, TradeIndex;
    GenuineStep(origin, h, i);
    TradeFigures(divide, origin, h.states[i], h.members[..i + 1], h.members[i].tradeId);
  }

  // ---- as of a cutoff --------------------------------------------------------------

  lemma {:induction false} VisibleKnown(divide: (real, real) -> real, origin: Account, l: Ledger, cutoff: Time)
    requires LedgerInv(divide, origin, l) && DistinctEvents(InputsOf(l))
    ensures Visible(TrailOf(divide, origin, InputsOf(l)).members, Some(cutoff), Known(l.fills, cutoff))
  {
    hide Run, ReceivedBy;
    LedgerSorted(divide, origin, l);
    ReceivedPrefix(l.fills, cutoff);
    EventsAreFills(divide, origin, l);
    var members := TrailOf(divide, origin, InputsOf(l)).members;
    forall i | 0 <= i < |members|
      ensures members[i].event.receivedAt <= cutoff <==> i < Known(l.fills, cutoff)
    {
      assert members[i].event == l.fills[i];
    }
  }

  /** The dashboard read as of a cutoff shows the account as it stood then: its balances, its
      positions, and for each position the recomputed figures of its trade. */
  lemma {:induction false} DashboardIsAsOf(divide: (real, real) -> real, origin: Account, l: Ledger, j: Tables, cutoff: Time)
    requires JournalHolds(divide, origin, l, j)
    ensures var k := Known(l.fills, cutoff);
      && k <= |l.fills| && Run(divide, origin, InputsOf(l)[..k]).Ok?
      && var (s, members) := Run(divide, origin, InputsOf(l)[..k]).value;
         DashboardAsOf(l, j, cutoff) == Ok(DisplayOf(s, FreshDisplays(divide, s, members, s.positions)))
  {
    hide Run, JournalAt, FillIdentities, OrdersMatchFills, Genuine, Sized, DashboardAsOf, Known, ReceivedBy, Visible, DisplayOf, FreshDisplays, Earlier;
    var inputs := InputsOf(l);
    var h := TrailOf(divide, origin, inputs);
    var k := Known(l.fills, cutoff);
    SameOrigin(divide, origin, l);
    VisibleKnown(divide, origin, l, cutoff);
    RunGenuine(divide, origin, inputs);
    TrailPrefix(divide, origin, inputs, |inputs|);
    SizedLengths(h, Some(cutoff), k);
    TrailPrefix(divide, origin, inputs, k);
    RunPrefix(divide, origin, inputs, k);
    DashboardOfTrail(divide, origin, h, l, cutoff, k);
    ReadsSame(divide, l, j, [], "", Some(cutoff));
  }

  /** A trade's detail as of a cutoff is its record in the account as it stood then, with
      exactly its fills up to then; a detail without a cutoff is the current one. */
  lemma {:induction false} DetailIsAsOf(divide: (real, real) -> real, origin: Account, l: Ledger, j: Tables,
                                        table: seq<ExecutionEvent>, id: Id, cutoff: Option<Time>)
    requires JournalHolds(divide, origin, l, j) && multiset(table) == multiset(l.fills)
    ensures var k := if cutoff.Some? then Known(l.fills, cutoff.value) else |l.fills|;
      && k <= |l.fills| && Run(divide, origin, InputsOf(l)[..k]).Ok?
      && var (s, members) := Run(divide, origin, InputsOf(l)[..k]).value;
         var t, fills := FindTrade(s, id), EventsOf(members, id);
         && (t.None? ==> Detail(divide, l, j, table, id, cutoff) == Err(MissingTrade))
         && (t.Some? ==> fills != [] && Detail(divide, l, j, table, id, cutoff) == Ok(TradeDetail(divide, t.value, fills)))
  {
    hide Run, JournalAt, FillIdentities, OrdersMatchFills, Genuine, Sized, Detail, Known, ReceivedBy, Visible, EventsOf, Earlier, FindTrade, Holds, TradeDetail;
    var inputs := InputsOf(l);
    var h := TrailOf(divide, origin, inputs);
    var k := if cutoff.Some? then Known(l.fills, cutoff.value) else |l.fills|;
    RunGenuine(divide, origin, inputs);
    TrailPrefix(divide, origin, inputs, |inputs|);
    if cutoff.Some? {
      VisibleKnown(divide, origin, l, cutoff.value);
    } else {
      AllVisible(h.members);
    }
    SizedLengths(h, cutoff, k);
    TrailPrefix(divide, origin, inputs, k);
    RunPrefix(divide, origin, inputs, k);
    FullRun(divide, origin, l);
    HoldsFills(divide, origin, l, table);
    DetailOfTrail(divide, origin, h, l, table, id, cutoff, k);
    ReadsSame(divide, l, j, table, id, cutoff);
  }

  lemma {:induction false} AllVisible(members: seq<Member>)
    ensures Visible(members, None, |members|)
  {
  }

  lemma {:induction false} FullRun(divide: (real, real) -> real, origin: Account, l: Ledger)
    requires LedgerInv(divide, origin, l)
    ensures InputsOf(l)[..|l.fills|] == InputsOf(l) && Run(divide, origin, InputsOf(l)).Ok?
    ensures Run(divide, origin, InputsOf(l)).value.0 == l.account
  {
    hide Run;
    assert InputsOf(l)[..|l.fills|] == InputsOf(l);
  }

  // ---- chart requests as of a cutoff -----------------------------------------------

  lemma {:induction false} TrailsNest(divide: (real, real) -> real, origin: Account, inputs: seq<Input>, k: nat)
    requires DistinctEvents(inputs) && Run(divide, origin, inputs).Ok? && k <= |inputs|
    ensures DistinctEvents(inputs[..k]) && Run(divide, origin, inputs[..k]).Ok?
    ensures TrailOf(divide, origin, inputs[..k]).states <= TrailOf(divide, origin, inputs).states
    ensures TrailOf(divide, origin, inputs[..k]).members <= TrailOf(divide, origin, inputs).members
    decreases |inputs|
  {
    hide Run;
    RunPrefix(divide, origin, inputs, k);
    if k < |inputs| {
      var init := inputs[..|inputs| - 1];
      RunLast(divide, origin, inputs);
      TrailsNest(divide, origin, init, k);
      assert init[..k] == inputs[..k];
    } else {
      assert inputs[..k] == inputs;
    }
  }

  /** The reference journal of the first fills is the one the whole history passed through. */
  lemma {:induction false} JournalOfPrefix(divide: (real, real) -> real, origin: Account, inputs: seq<Input>, k: nat)
    requires DistinctEvents(inputs) && Run(divide, origin, inputs).Ok? && k <= |inputs|
    ensures DistinctEvents(inputs[..k]) && Run(divide, origin, inputs[..k]).Ok?
    ensures Sized(TrailOf(divide, origin, inputs)) && |TrailOf(divide, origin, inputs).states| == |inputs|
    ensures JournalOf(divide, origin, inputs[..k]) == JournalAt(divide, TrailOf(divide, origin, inputs), k)
  {
    hide Run, JournalAt, Genuine, Sized, TrailOf;
    TrailsNest(divide, origin, inputs, k);
    RunGenuine(divide, origin, inputs);
    RunGenuine(divide, origin, inputs[..k]);
    TrailPrefix(divide, origin, inputs, |inputs|);
    TrailPrefix(divide, origin, inputs[..k], k);
    JournalPrefix(divide, TrailOf(divide, origin, inputs[..k]), TrailOf(divide, origin, inputs), k);
  }

  /** A due request was created by a cutoff exactly when the journal of that time held it. */
  lemma {:induction false} DueByCutoff(divide: (real, real) -> real, origin: Account, l: Ledger, key: (Id, ChartKind), cutoff: Time)
    requires LedgerInv(divide, origin, l) && DistinctEvents(InputsOf(l))
    requires key in JournalOf(divide, origin, InputsOf(l)).charts
    ensures var k := Known(l.fills, cutoff);
      && k <= |l.fills| && DistinctEvents(InputsOf(l)[..k]) && Run(divide, origin, InputsOf(l)[..k]).Ok?
      && (JournalOf(divide, origin, InputsOf(l)).charts[key].createdAt <= cutoff
          <==> key in JournalOf(divide, origin, InputsOf(l)[..k]).charts)
  {
    hide Run, JournalAt, Genuine, Sized, TrailOf, Known, FillIdentities, OrdersMatchFills, JournalOf;
    var inputs, k := InputsOf(l), Known(l.fills, cutoff);
    var h := TrailOf(divide, origin, inputs);
    RunGenuine(divide, origin, inputs);
    GenuineSized(origin, h);
    TrailPrefix(divide, origin, inputs, |inputs|);
    VisibleKnown(divide, origin, l, cutoff);
    SizedLengths(h, Some(cutoff), k);
    JournalOfPrefix(divide, origin, inputs, k);
    JournalOfPrefix(divide, origin, inputs, |inputs|);
    assert inputs[..|inputs|] == inputs;
    CreatedByCutoff(divide, h, k, cutoff, key);
  }

  /** The requests a trade's detail lists as of a cutoff are those the journal held at that time,
      except the ones a rebuild repeated after the cutoff. */
  lemma {:induction false} RequestsAsOf(divide: (real, real) -> real, origin: Account, l: Ledger, j: Tables, key: (Id, ChartKind), cutoff: Time)
    requires JournalHolds(divide, origin, l, j) && key in j.charts
    ensures var k := Known(l.fills, cutoff);
      && k <= |l.fills| && DistinctEvents(InputsOf(l)[..k]) && Run(divide, origin, InputsOf(l)[..k]).Ok?
      && (ChartVisible(j.charts[key], cutoff)
          <==> key in JournalOf(divide, origin, InputsOf(l)[..k]).charts && j.charts[key].requestAdmittedAt <= cutoff)
  {
    hide Run, Known, JournalOf, LedgerInv;
    LedgerRuns(divide, origin, l);
    assert key in OnReceipt(j).charts && OnReceipt(j).charts[key].createdAt == j.charts[key].createdAt;
    DueByCutoff(divide, origin, l, key, cutoff);
  }

  /** What a repetition costs: after a rebuild that is not refused, a request is listed as of a cutoff exactly if the journal held it
      at that time and, when the rebuild had to repeat it, the rebuild had happened. */
  lemma {:induction false} RepeatedRequestsAreLate(divide: (real, real) -> real, origin: Account, l: Ledger, active: bool, now: Time,
                                                   table: seq<ExecutionEvent>, j: Tables, key: (Id, ChartKind), cutoff: Time)
    requires LedgerInv(divide, origin, l)
    requires multiset(table) == multiset(l.fills) && DistinctEvents(InputsOf(l))
    requires TablesWithin(j, JournalOf(divide, origin, InputsOf(l)))
    requires key in JournalOf(divide, origin, InputsOf(l)).charts
    ensures HaveOrders(OrderBy(table), l.orders)
    ensures var r := Rebuilt(divide, active, now, l, table, j); var k := Known(l.fills, cutoff);
      && k <= |l.fills| && DistinctEvents(InputsOf(l)[..k]) && Run(divide, origin, InputsOf(l)[..k]).Ok?
      && (r.Ok? ==>
            && key in r.value.charts
            && (ChartVisible(r.value.charts[key], cutoff)
                <==> key in JournalOf(divide, origin, InputsOf(l)[..k]).charts && (key in j.charts || now <= cutoff)))
  {
    hide Rebuilt, Run, LedgerInv, JournalOf, UnitsHold, OrderBy, HaveOrders, InputsOf, TablesWithin, Known;
    LedgerRuns(divide, origin, l);
    var due := JournalOf(divide, origin, InputsOf(l));
    JournalPrompt(divide, origin, InputsOf(l));
    PartPrompt(j, due);
    RebuildRestores(divide, origin, l, active, now, table, j);
    DueByCutoff(divide, origin, l, key, cutoff);
    assert Prompt(due.charts)[key] == due.charts[key];
  }

  // ---- the audit enumeration -------------------------------------------------------

  predicate RefsMatch(refs: map<Id, Ref>, members: seq<Member>, tradeId: Id) {
    forall i :: 0 <= i < |members| && members[i].tradeId == tradeId ==>
      var e := members[i].event.eventId; e in refs && refs[e] == Ref(members[i].tradeId, members[i].role)
  }

  /** One trade of `list_trades`, from the memberships of a replay. */
  function AuditTrade(divide: (real, real) -> real, j: Tables, members: seq<Member>, trade: Trade): Result<JournalTrade, Fault> {
    var fills := EventsOf(members, trade.tradeId);
    if trade.tradeId !in j.headers then Err(JournalConflict)
    else if !RefsMatch(j.refs, members, trade.tradeId) then Err(MembershipConflict)
    else
      var figures :- FillDisplay(divide, trade, fills);
      if fills == [] then Err(MembershipConflict) else Ok(TradeDetail(divide, trade, fills))
  }

  lemma {:induction false} AuditSame(divide: (real, real) -> real, j: Tables, members: seq<Member>, trade: Trade)
    ensures AuditTrade(divide, OnReceipt(j), members, trade) == AuditTrade(divide, j, members, trade)
  {
    hide RefsMatch, FillDisplay, EventsOf, Prompt;
  }

  lemma {:induction false} RefsMatchAll(divide: (real, real) -> real, h: Trail, k: nat, id: Id)
    requires Sized(h) && Ordered(h.members) && k <= |h.states|
    ensures RefsMatch(JournalAt(divide, h, |h.states|).refs, h.members[..k], id)
  {
    hide JournalAt, Booked, Ordered;
    JournalCovers(divide, h, |h.states|);
  }

  lemma {:induction false} HeaderPresent(divide: (real, real) -> real, h: Trail, k: nat, id: Id)
    requires Sized(h) && Ordered(h.members) && k <= |h.states| && EventsOf(h.members[..k], id) != []
    ensures id in JournalAt(divide, h, |h.states|).headers
  {
    hide JournalAt, Booked, Ordered, DashboardRow, ReadRow, EventsOf;
    EventsOfMembers(h.members[..k], id, 0);
    var q :| 0 <= q < k && h.members[..k][q].tradeId == id;
    JournalRows(divide, h, |h.states|);
    assert RowsAt(divide, h, JournalAt(divide, h, |h.states|), q);
  }

  lemma {:induction false} OwnTrade(origin: Account, s: Account, members: seq<Member>, i: nat)
    requires LedgerOk(origin, s, members) && i < |s.trades|
    ensures FindTrade(s, s.trades[i].tradeId) == Some(s.trades[i])
  {
    hide TradeOk, BoundOk, NetOf, EventsOf;
    TradeAt(s.trades, i);
  }

  /** On a genuine trail the audit finds every header and reference it asks for. */
  lemma {:induction false} AuditOfTrail(divide: (real, real) -> real, origin: Account, h: Trail, k: nat, i: nat)
    requires Genuine(origin, h) && Sized(h) && 0 < k <= |h.states| && i < |h.states[k - 1].trades|
    ensures var trade := h.states[k - 1].trades[i]; var fills := EventsOf(h.members[..k], trade.tradeId);
      && FindTrade(h.states[k - 1], trade.tradeId) == Some(trade)
      && fills != []
      && AuditTrade(divide, JournalAt(divide, h, |h.states|), h.members[..k], trade) == Ok(TradeDetail(divide, trade, fills))
  {
    hide Genuine, JournalAt, StepOk, SchemaValid, MemberOf, EventsOf, Ordered, TradeDetail, FillDisplay, Figures, LedgerOk, RefsMatch,
         FindTrade, Booked;
    var s := h.states[k - 1];
    GenuineSized(origin, h);
    GenuineStep(origin, h, k - 1);
    OwnTrade(origin, s, h.members[..k], i);
    TradeFigures(divide, origin, s, h.members[..k], s.trades[i].tradeId);
    HeaderPresent(divide, h, k, s.trades[i].tradeId);
    RefsMatchAll(divide, h, k, s.trades[i].tradeId);
  }

  /** The read model refines the audit: for every trade of the account as of a cutoff, the
      indexed detail is the entry the full replay lists. */
  lemma {:induction false} DetailIsAudit(divide: (real, real) -> real, origin: Account, l: Ledger, j: Tables,
                                         table: seq<ExecutionEvent>, cutoff: Option<Time>, i: nat)
    requires JournalHolds(divide, origin, l, j) && multiset(table) == multiset(l.fills)
    requires var k := if cutoff.Some? then Known(l.fills, cutoff.value) else |l.fills|;
      && k <= |l.fills| && Run(divide, origin, InputsOf(l)[..k]).Ok?
      && i < |Run(divide, origin, InputsOf(l)[..k]).value.0.trades|
    ensures var k := if cutoff.Some? then Known(l.fills, cutoff.value) else |l.fills|;
      var (s, members) := Run(divide, origin, InputsOf(l)[..k]).value;
      && AuditTrade(divide, j, members, s.trades[i]).Ok?
      && AuditTrade(divide, j, members, s.trades[i]) == Detail(divide, l, j, table, s.trades[i].tradeId, cutoff)
  {
    hide Run, JournalAt, FillIdentities, OrdersMatchFills, Genuine, Sized, Detail, Known, EventsOf, FindTrade, AuditTrade, TradeDetail;
    var inputs := InputsOf(l);
    var h := TrailOf(divide, origin, inputs);
    var k := if cutoff.Some? then Known(l.fills, cutoff.value) else |l.fills|;
    RunGenuine(divide, origin, inputs);
    TrailPrefix(divide, origin, inputs, k);
    RunPrefix(divide, origin, inputs, k);
    assert inputs[..k] == [] || k > 0;
    RunEmpty(divide, origin);
    AuditOfTrail(divide, origin, h, k, i);
    AuditSame(divide, j, h.members[..k], h.states[k - 1].trades[i]);
    DetailIsAsOf(divide, origin, l, j, table, h.states[k - 1].trades[i].tradeId, cutoff);
  }
}
