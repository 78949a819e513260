/** One capture, against tables that hold at least the rows of the fills before it and at
    most the rows of the whole history, adds exactly the rows that are due. */
module JournalCapture {
  import opened Wrappers
  import opened ExecutionModels
  import opened TradeProjection
  import opened LedgerInvariant
  import opened Sorting
  import opened AsOf
  import opened Journal
  import opened JournalHistory

  // ---- the fills of a trade --------------------------------------------------------

  function EventsIn(members: seq<Member>): (r: seq<ExecutionEvent>)
    ensures |r| == |members| && forall i :: 0 <= i < |r| ==> r[i] == members[i].event
  {
    seq(|members|, i requires 0 <= i < |members| => members[i].event)
  }

  ghost predicate RefsCover(refs: map<Id, Ref>, members: seq<Member>, k: nat)
    requires k <= |members|
  {
    forall q :: 0 <= q < k ==>
      members[q].event.eventId in refs && refs[members[q].event.eventId] == Ref(members[q].tradeId, members[q].role)
  }

  lemma {:induction false} EventsSorted(members: seq<Member>, m: nat)
    requires Ordered(members) && m <= |members|
    ensures Sorted(Before, EventsIn(members[..m])) && TieFree(Before, EventsIn(members[..m]))
  {
    var rows := EventsIn(members[..m]);
    forall x, y | x in rows && y in rows && Before(x, y) && Before(y, x) ensures x == y {
      var i, j :| 0 <= i < |rows| && 0 <= j < |rows| && rows[i] == x && rows[j] == y;
    }
  }

  /** Selecting by reference and sequence selects the fills of the trade so far, whatever
      later fills the table already holds. */
  lemma {:induction false} FilterIsEventsOf(members: seq<Member>, refs: map<Id, Ref>, id: Id, k: nat, m: nat)
    requires Ordered(members) && 0 < k <= |members| && m <= |members| && RefsCover(refs, members, k)
    ensures Filter(OfTrade(refs, id, members[k - 1].event.sequence), EventsIn(members[..m]))
         == EventsOf(members[..if m < k then m else k], id)
    decreases m
  {
    if m > 0 {
      FilterIsEventsOf(members, refs, id, k, m - 1);
      assert EventsIn(members[..m])[..m - 1] == EventsIn(members[..m - 1]);
      if m <= k {
        assert members[..m][..m - 1] == members[..m - 1];
        assert m < k ==> members[m - 1].event.sequence < members[k - 1].event.sequence;
      } else {
        assert members[k - 1].event.sequence < members[m - 1].event.sequence;
      }
    }
  }

  ghost predicate Holds(table: seq<ExecutionEvent>, members: seq<Member>, m: nat)
    requires m <= |members|
  {
    multiset(table) == multiset(EventsIn(members[..m]))
  }

  lemma {:induction false} SourceIs(table: seq<ExecutionEvent>, members: seq<Member>, refs: map<Id, Ref>, id: Id, k: nat, m: nat)
    requires Ordered(members) && 0 < k <= m <= |members| && RefsCover(refs, members, k) && Holds(table, members, m)
    ensures SourceFills(table, refs, id, members[k - 1].event.sequence) == EventsOf(members[..k], id)
  {
    hide Filter, RefsCover, EventsOf;
    EventsSorted(members, m);
    QueryRows(Before, OfTrade(refs, id, members[k - 1].event.sequence), table, EventsIn(members[..m]));
    FilterIsEventsOf(members, refs, id, k, m);
  }

  lemma {:induction false} FillFound(table: seq<ExecutionEvent>, e: ExecutionEvent)
    requires e in table && forall x :: x in table && x.eventId == e.eventId ==> x == e
    ensures FillById(table, e.eventId) == Some(e)
    decreases |table|
  {
    if table[|table| - 1].eventId != e.eventId {
      FillFound(table[..|table| - 1], e);
    } else {
      assert table[|table| - 1] in table;
    }
  }

  lemma {:induction false} FillInTable(table: seq<ExecutionEvent>, members: seq<Member>, k: nat, m: nat)
    requires Ordered(members) && 0 < k <= m <= |members| && Holds(table, members, m)
    ensures FillById(table, members[k - 1].event.eventId) == Some(members[k - 1].event)
  {
    var e, rows := members[k - 1].event, EventsIn(members[..m]);
    assert rows[k - 1] == e;
    assert e in multiset(table);
    forall x | x in table && x.eventId == e.eventId ensures x == e {
      assert x in multiset(rows);
      var i :| 0 <= i < |rows| && rows[i] == x;
      assert members[..m][i] == members[i];
    }
    FillFound(table, e);
  }

  // ---- displays --------------------------------------------------------------------

  /** A position's trade has fills that add up to the position. */
  lemma {:induction false} FreshFigures(divide: (real, real) -> real, origin: Account, s: Account, members: seq<Member>, i: nat)
    requires LedgerOk(origin, s, members) && i < |s.positions|
    ensures var p := s.positions[i]; var t := TradeIndex(s.trades, p.tradeId);
      && t < |s.trades| && s.trades[t].tradeId == p.tradeId
      && var figures := Figures(divide, s.trades[t], EventsOf(members, p.tradeId));
         && FillDisplay(divide, s.trades[t], EventsOf(members, p.tradeId)) == Ok(figures)
         && figures.remainingQuantity == p.quantity
         && (figures.status.Closed? <==> p.quantity == 0.0)
  {
    hide EventsOf, QuantityOn, NotionalOn, FeesOf, LedgerOk;
    FlatHasNoBasis(origin, s, members, i);
  }

  lemma {:induction false} ReservedNonNegative(positions: seq<Position>)
    requires forall i :: 0 <= i < |positions| ==> positions[i].remainingCostBasis >= 0.0
    ensures ReservedCollateral(positions) >= 0.0
    decreases |positions|
  {
    if positions != [] {
      ReservedNonNegative(positions[..|positions| - 1]);
    }
  }

  /** A recomputed snapshot of a reachable account always passes its own validation. */
  lemma {:induction false} FreshValid(divide: (real, real) -> real, origin: Account, s: Account, members: seq<Member>)
    requires LedgerOk(origin, s, members) && SchemaValid(s)
    ensures DisplayValid(DisplayOf(s, FreshDisplays(divide, s, members, s.positions)))
  {
    hide EventsOf, Figures, FillDisplay, ReservedCollateral, RealizedPnl, TradeOk, BoundOk, NetOf, TradeIndex, Remaining, Basis;
    ReservedNonNegative(s.positions);
    forall i | 0 <= i < |s.positions|
      ensures var p := s.positions[i]; TradeIndex(s.trades, p.tradeId) < |s.trades| && p.tradeId in PositionIds(s.positions)
    {
      FreshFigures(divide, origin, s, members, i);
    }
    var displays := FreshDisplays(divide, s, members, s.positions);
    assert displays.Keys == PositionIds(s.positions);
    forall i | 0 <= i < |s.positions|
      ensures var p := s.positions[i]; var d := displays[p.tradeId];
        d.tradeId == p.tradeId && d.figures.remainingQuantity == p.quantity && (d.figures.status.Closed? <==> p.quantity == 0.0)
    {
      FreshFigures(divide, origin, s, members, i);
    }
  }

  /** The fills a capture would query for each trade are exactly those booked so far. */
  ghost predicate Sources(table: seq<ExecutionEvent>, refs: map<Id, Ref>, members: seq<Member>)
    requires members != []
  {
    forall id :: SourceFills(table, refs, id, members[|members| - 1].event.sequence) == EventsOf(members, id)
  }

  lemma {:induction false} SourcesHold(table: seq<ExecutionEvent>, members: seq<Member>, refs: map<Id, Ref>, k: nat, m: nat)
    requires Ordered(members) && 0 < k <= m <= |members| && RefsCover(refs, members, k) && Holds(table, members, m)
    ensures Sources(table, refs, members[..k])
  {
    hide Ordered, RefsCover, Holds, SourceFills, EventsOf;
    forall id ensures SourceFills(table, refs, id, members[..k][k - 1].event.sequence) == EventsOf(members[..k], id) {
      SourceIs(table, members, refs, id, k, m);
    }
  }

  /** A fill on another symbol leaves a display as it was: carrying it over is recomputing it. */
  lemma {:induction false} DisplayCarries(divide: (real, real) -> real, s0: Account, s: Account, members: seq<Member>, i: nat)
    requires members != [] && Untouched(s0, s, members[|members| - 1]) && i < |s.positions|
    requires s.positions[i].symbol != members[|members| - 1].event.symbol
    ensures var id := s.positions[i].tradeId; var earlier := members[..|members| - 1];
      && TradeIndex(s0.trades, id) < |s0.trades| && TradeIndex(s.trades, id) < |s.trades|
      && id in FreshDisplays(divide, s0, earlier, s0.positions)
      && FreshDisplays(divide, s0, earlier, s0.positions)[id] == FreshDisplay(divide, s, members, id)
  {
    hide Figures, EventsOf, TradeIndex;
    var m, id := members[|members| - 1], s.positions[i].tradeId;
    assert members == members[..|members| - 1] + [m];
    EventsAppend(members[..|members| - 1], m, id);
    assert EventsOf(members, id) == EventsOf(members[..|members| - 1], id);
    assert id in PositionIds(s0.positions);
    assert FindTrade(s, id) == FindTrade(s0, id);
  }

  /** Carried over or recomputed, the display of a position is the fresh one, and the
      membership check of `fill_display` passes. */
  lemma {:induction false} DisplayForFresh(divide: (real, real) -> real, origin: Account, s0: Account, s: Account, members: seq<Member>,
                                           table: seq<ExecutionEvent>, refs: map<Id, Ref>, i: nat)
    requires StepOk(origin, s0, s, members) && Sources(table, refs, members) && i < |s.positions|
    ensures var p := s.positions[i]; var earlier := members[..|members| - 1];
      && TradeIndex(s.trades, p.tradeId) < |s.trades|
      && DisplayFor(divide, table, refs, s, members[|members| - 1].event, FreshDisplays(divide, s0, earlier, s0.positions), p)
         == Ok(FreshDisplay(divide, s, members, p.tradeId))
  {
    hide Figures, FillDisplay, LedgerOk, SourceFills, EventsOf, Untouched, FreshDisplays, MemberOf, SchemaValid;
    FreshFigures(divide, origin, s, members, i);
    if s.positions[i].symbol != members[|members| - 1].event.symbol {
      DisplayCarries(divide, s0, s, members, i);
    }
  }

  lemma {:induction false} FreshExtends(divide: (real, real) -> real, s: Account, members: seq<Member>, positions: seq<Position>)
    requires positions != [] && TradeIndex(s.trades, positions[|positions| - 1].tradeId) < |s.trades|
    ensures var init, id := positions[..|positions| - 1], positions[|positions| - 1].tradeId;
      FreshDisplays(divide, s, members, positions)
      == FreshDisplays(divide, s, members, init)[id := FreshDisplay(divide, s, members, id)]
  {
    hide FreshDisplay;
    var init, id := positions[..|positions| - 1], positions[|positions| - 1].tradeId;
    assert PositionIds(positions) == PositionIds(init) + {id};
  }

  ghost predicate Shows(divide: (real, real) -> real, table: seq<ExecutionEvent>, refs: map<Id, Ref>, s: Account, members: seq<Member>,
                        event: ExecutionEvent, prior: map<Id, PositionDisplay>, p: Position)
  {
    && TradeIndex(s.trades, p.tradeId) < |s.trades|
    && DisplayFor(divide, table, refs, s, event, prior, p) == Ok(FreshDisplay(divide, s, members, p.tradeId))
  }

  lemma {:induction false} DisplaysAll(divide: (real, real) -> real, table: seq<ExecutionEvent>, refs: map<Id, Ref>, s: Account, members: seq<Member>,
                                       event: ExecutionEvent, prior: map<Id, PositionDisplay>, positions: seq<Position>)
    requires forall i :: 0 <= i < |positions| ==> Shows(divide, table, refs, s, members, event, prior, positions[i])
    ensures Displays(divide, table, refs, s, event, prior, positions) == Ok(FreshDisplays(divide, s, members, positions))
    decreases |positions|
  {
    hide DisplayFor, FreshDisplay, TradeIndex;
    if positions == [] {
      assert FreshDisplays(divide, s, members, positions) == map[];
    } else {
      hide FreshDisplays;
      var last := positions[|positions| - 1];
      DisplaysAll(divide, table, refs, s, members, event, prior, positions[..|positions| - 1]);
      assert Shows(divide, table, refs, s, members, event, prior, last);
      FreshExtends(divide, s, members, positions);
    }
  }

  lemma {:induction false} DisplaysFresh(divide: (real, real) -> real, origin: Account, s0: Account, s: Account, members: seq<Member>,
                                         table: seq<ExecutionEvent>, refs: map<Id, Ref>)
    requires StepOk(origin, s0, s, members) && Sources(table, refs, members)
    ensures var prior := FreshDisplays(divide, s0, members[..|members| - 1], s0.positions);
      Displays(divide, table, refs, s, members[|members| - 1].event, prior, s.positions)
      == Ok(FreshDisplays(divide, s, members, s.positions))
  {
    var event := members[|members| - 1].event;
    hide StepOk, Sources, DisplayFor, FreshDisplay, FreshDisplays, TradeIndex, Displays;
    var prior := FreshDisplays(divide, s0, members[..|members| - 1], s0.positions);
    forall i | 0 <= i < |s.positions| ensures Shows(divide, table, refs, s, members, event, prior, s.positions[i]) {
      DisplayForFresh(divide, origin, s0, s, members, table, refs, i);
    }
    DisplaysAll(divide, table, refs, s, members, event, prior, s.positions);
  }

  // ---- rows ------------------------------------------------------------------------

  /** A table between the journals of k fills and of the whole history. */
  ghost predicate Between(divide: (real, real) -> real, h: Trail, k: nat, j: Tables)
    requires Sized(h) && k <= |h.states|
  {
    TablesWithin(JournalAt(divide, h, k), j) && TablesWithin(j, JournalAt(divide, h, |h.states|))
  }

  /** Every surviving snapshot is the row of some fill. */
  lemma {:induction false} SnapshotRow(divide: (real, real) -> real, h: Trail, k: nat, j: Tables, id: Id) returns (i: nat)
    requires Sized(h) && Ordered(h.members) && k <= |h.states| && Between(divide, h, k, j) && id in j.dashboard
    ensures i < |h.states| && id == h.members[i].event.eventId
    ensures j.dashboard[id] == DashboardRow(divide, h.states[i], h.members[..i + 1])
    ensures j.dashboard[id].sequence == h.members[i].event.sequence
  {
    hide JournalAt, Booked, DisplayOf, FreshDisplays, ReadRow;
    JournalRows(divide, h, |h.states|);
    assert id in EventIds(h.members, |h.states|);
    i :| 0 <= i < |h.states| && h.members[i].event.eventId == id;
    assert RowsAt(divide, h, JournalAt(divide, h, |h.states|), i);
  }

  lemma {:induction false} StateRow(divide: (real, real) -> real, h: Trail, k: nat, j: Tables, id: Id) returns (i: nat)
    requires Sized(h) && Ordered(h.members) && k <= |h.states| && Between(divide, h, k, j) && id in j.states
    ensures i < |h.states| && id == h.members[i].event.eventId
    ensures j.states[id] == ReadRow(h.states[i], h.members[i])
  {
    hide JournalAt, Booked, DashboardRow;
    JournalRows(divide, h, |h.states|);
    assert id in EventIds(h.members, |h.states|);
    i :| 0 <= i < |h.states| && h.members[i].event.eventId == id;
    assert RowsAt(divide, h, JournalAt(divide, h, |h.states|), i);
  }

  /** The snapshots of the fills captured so far are all there. */
  lemma {:induction false} SnapshotAt(divide: (real, real) -> real, h: Trail, k: nat, j: Tables, i: nat)
    requires Sized(h) && Ordered(h.members) && i < k <= |h.states| && Between(divide, h, k, j)
    ensures var id := h.members[i].event.eventId;
      && id in j.dashboard && j.dashboard[id] == DashboardRow(divide, h.states[i], h.members[..i + 1])
      && j.dashboard[id].sequence == h.members[i].event.sequence
  {
    hide JournalAt, Booked, DisplayOf, FreshDisplays, ReadRow, Ordered;
    JournalRows(divide, h, k);
    assert RowsAt(divide, h, JournalAt(divide, h, k), i);
  }

  lemma {:induction false} SameSequence(members: seq<Member>, a: nat, b: nat)
    requires Ordered(members) && a < |members| && b < |members|
    ensures members[a].event.sequence == members[b].event.sequence ==> a == b
    ensures members[a].event.sequence < members[b].event.sequence ==> a < b
  {
  }

  lemma {:induction false} SnapshotsDistinct(divide: (real, real) -> real, h: Trail, k: nat, j: Tables)
    requires Sized(h) && Ordered(h.members) && k <= |h.states| && Between(divide, h, k, j)
    ensures DistinctSequences(j.dashboard)
  {
    hide Between, DashboardRow, Booked, Ordered;
    forall a, b | a in j.dashboard && b in j.dashboard && j.dashboard[a].sequence == j.dashboard[b].sequence ensures a == b {
      var i := SnapshotRow(divide, h, k, j, a);
      var i' := SnapshotRow(divide, h, k, j, b);
      SameSequence(h.members, i, i');
    }
  }

  /** The snapshot before the k-th fill's is the one of the fill before it. */
  lemma {:induction false} PreviousSnapshot(divide: (real, real) -> real, h: Trail, k: nat, j: Tables)
    requires Sized(h) && Ordered(h.members) && 0 < k <= |h.states| && Between(divide, h, k - 1, j)
    ensures Latest(j.dashboard, OlderThan(h.members[k - 1].event.sequence))
         == if k == 1 then None else Some(DashboardRow(divide, h.states[k - 2], h.members[..k - 1]))
  {
    hide Booked, DashboardRow, Between, Ordered, Latest;
    SnapshotsDistinct(divide, h, k - 1, j);
    var visible := OlderThan(h.members[k - 1].event.sequence);
    var r := if k == 1 then None else Some(DashboardRow(divide, h.states[k - 2], h.members[..k - 1]));
    if k > 1 {
      SnapshotAt(divide, h, k - 1, j, k - 2);
      InSequence(h.members, k - 2, k - 1);
    }
    forall id | id in j.dashboard && visible(j.dashboard[id])
      ensures k > 1 && j.dashboard[id].sequence <= r.value.sequence
    {
      var i := SnapshotRow(divide, h, k - 1, j, id);
      SameSequence(h.members, i, k - 1);
      if i < k - 2 {
        InSequence(h.members, i, k - 2);
      }
    }
    LatestIs(j.dashboard, visible, r);
  }

  lemma {:induction false} InSequence(members: seq<Member>, a: nat, b: nat)
    requires Ordered(members) && a < b < |members|
    ensures members[a].event.sequence < members[b].event.sequence && members[a].event.eventId != members[b].event.eventId
  {
  }

  // ---- inserting rows --------------------------------------------------------------

  lemma {:induction false} KeepFirstBetween<K(!new), V(!new)>(a: map<K, V>, r: map<K, V>, n: map<K, V>, eligible: bool, key: K, v: V)
    requires Within(a, r) && Within(r, n) && Within(KeepFirst(a, eligible, key, v), n)
    ensures Within(KeepFirst(a, eligible, key, v), KeepFirst(r, eligible, key, v))
    ensures Within(KeepFirst(r, eligible, key, v), n)
  {
    assert eligible ==> key in KeepFirst(a, eligible, key, v);
  }

  lemma {:induction false} PutBetween<K(!new), V(!new)>(a: map<K, V>, r: map<K, V>, n: map<K, V>, key: K, v: V)
    requires Within(a, r) && Within(r, n) && Within(a[key := v], n)
    ensures Within(a[key := v], r[key := v]) && Within(r[key := v], n)
    ensures key in r ==> r[key] == v && r[key := v] == r
  {
    assert key in a[key := v];
  }

  lemma {:induction false} EventsNone(members: seq<Member>, id: Id)
    requires forall i :: 0 <= i < |members| ==> members[i].tradeId != id
    ensures EventsOf(members, id) == []
    decreases |members|
  {
    if members != [] {
      EventsNone(members[..|members| - 1], id);
    }
  }

  /** The first fill of a trade is the one that names it. */
  lemma {:induction false} FirstFillNames(origin: Account, s: Account, members: seq<Member>)
    requires members != [] && LedgerOk(origin, s, members) && Booked(s, members[|members| - 1])
    requires forall i :: 0 <= i < |members| - 1 ==> members[i].tradeId != members[|members| - 1].tradeId
    ensures members[|members| - 1].tradeId == members[|members| - 1].event.eventId
  {
    hide QuantityOn, NotionalOn, FeesOf, Remaining, Basis, NetOf, BoundOk;
    var m := members[|members| - 1];
    var earlier := members[..|members| - 1];
    EventsNone(earlier, m.tradeId);
    assert members == earlier + [m];
    EventsAppend(earlier, m, m.tradeId);
    var t := TradeIndex(s.trades, m.tradeId);
    assert TradeOk(s.trades[t], EventsOf(members, s.trades[t].tradeId),
                   Remaining(s.positions, s.trades[t].tradeId), Basis(s.positions, s.trades[t].tradeId));
  }

  lemma {:induction false} HeaderStep(divide: (real, real) -> real, origin: Account, h: Trail, k: nat, table: seq<ExecutionEvent>, m: nat, j: Tables)
    requires Genuine(origin, h) && Sized(h) && 0 < k <= m <= |h.states| && Holds(table, h.members, m) && Between(divide, h, k - 1, j)
    ensures var member := h.members[k - 1];
      PutHeader(table, j.headers, member.tradeId) == Ok(KeepFirst(j.headers, true, member.tradeId, member.event.receivedAt))
  {
    hide JournalAt, Booked, LedgerOk, Holds, FillById, MemberOf, SchemaValid, Genuine, StepOk, Ordered, FreshDisplays;
    var member := h.members[k - 1];
    GenuineSized(origin, h);
    if member.tradeId !in j.headers {
      FillInTable(table, h.members, k, m);
      GenuineStep(origin, h, k - 1);
      JournalRows(divide, h, k - 1);
      forall i | 0 <= i < k - 1 ensures h.members[..k][i].tradeId != member.tradeId {
        assert RowsAt(divide, h, JournalAt(divide, h, k - 1), i);
      }
      FirstFillNames(origin, h.states[k - 1], h.members[..k]);
    }
  }

  /** The previous snapshot reads back as valid, and its displays are fresh. */
  lemma {:induction false} PriorDisplays(divide: (real, real) -> real, origin: Account, h: Trail, k: nat, j: Tables)
    requires Genuine(origin, h) && Sized(h) && 0 < k <= |h.states| && Between(divide, h, k - 1, j)
    ensures var previous := Latest(j.dashboard, OlderThan(h.members[k - 1].event.sequence));
      var s0 := Earlier(origin, h, k - 1);
      && (previous.Some? ==> DisplayValid(previous.value.body))
      && (if previous.Some? then previous.value.body.displays else map[])
         == FreshDisplays(divide, s0, h.members[..k - 1], s0.positions)
  {
    hide Between, LedgerOk, DisplayValid, Booked, Latest, MemberOf, FreshDisplay, Genuine, StepOk, Ordered;
    GenuineSized(origin, h);
    PreviousSnapshot(divide, h, k, j);
    if k > 1 {
      GenuineStep(origin, h, k - 2);
      FreshValid(divide, origin, h.states[k - 2], h.members[..k - 1]);
    } else {
      assert FreshDisplays(divide, EmptyProjection(origin), [], []) == map[];
    }
  }

  lemma {:induction false} SnapshotUnfolds(divide: (real, real) -> real, table: seq<ExecutionEvent>, j: Tables,
                                           s0: Account, s: Account, members: seq<Member>)
    requires members != []
    requires var event := members[|members| - 1].event;
      var previous := Latest(j.dashboard, OlderThan(event.sequence));
      var prior := FreshDisplays(divide, s0, members[..|members| - 1], s0.positions);
      && (previous.Some? ==> DisplayValid(previous.value.body))
      && (if previous.Some? then previous.value.body.displays else map[]) == prior
      && Displays(divide, table, j.refs, s, event, prior, s.positions) == Ok(FreshDisplays(divide, s, members, s.positions))
      && DisplayValid(DisplayOf(s, FreshDisplays(divide, s, members, s.positions)))
    ensures Snapshot(divide, table, j, s, members[|members| - 1].event) == PutRow(j.dashboard, DashboardRow(divide, s, members))
  {
    hide Displays, FreshDisplays, DisplayValid, Latest, PutRow, DisplayOf;
  }

  lemma {:induction false} SnapshotStep(divide: (real, real) -> real, origin: Account, h: Trail, k: nat, table: seq<ExecutionEvent>, m: nat, j: Tables)
    requires Genuine(origin, h) && Sized(h) && 0 < k <= m <= |h.states| && Holds(table, h.members, m) && Between(divide, h, k - 1, j)
    requires RefsCover(j.refs, h.members, k)
    ensures Snapshot(divide, table, j, h.states[k - 1], h.members[k - 1].event)
         == PutRow(j.dashboard, DashboardRow(divide, h.states[k - 1], h.members[..k]))
  {
    hide Between, LedgerOk, DisplayValid, Booked, Latest, MemberOf, FreshDisplays, Displays, Holds, RefsCover, Ordered, PutRow, DisplayOf,
         Genuine, StepOk, Snapshot, DashboardRow, Sources;
    GenuineSized(origin, h);
    GenuineStep(origin, h, k - 1);
    PriorDisplays(divide, origin, h, k, j);
    SourcesHold(table, h.members, j.refs, k, m);
    assert h.members[..k][..k - 1] == h.members[..k - 1];
    DisplaysFresh(divide, origin, Earlier(origin, h, k - 1), h.states[k - 1], h.members[..k], table, j.refs);
    FreshValid(divide, origin, h.states[k - 1], h.members[..k]);
    SnapshotUnfolds(divide, table, j, Earlier(origin, h, k - 1), h.states[k - 1], h.members[..k]);
  }

  /** A due row is inserted, or found already there. */
  lemma {:induction false} DashboardPut(divide: (real, real) -> real, h: Trail, k: nat, j: Tables)
    requires Sized(h) && Ordered(h.members) && 0 < k <= |h.states| && Between(divide, h, k - 1, j)
    ensures var row := DashboardRow(divide, h.states[k - 1], h.members[..k]); var id := h.members[k - 1].event.eventId;
      && PutRow(j.dashboard, row) == Ok(j.dashboard[id := row])
      && row.eventId == id && (id in j.dashboard ==> j.dashboard[id] == row)
  {
    hide Between, Booked, DisplayOf, FreshDisplays, Ordered;
    var id := h.members[k - 1].event.eventId;
    var row := DashboardRow(divide, h.states[k - 1], h.members[..k]);
    if id in j.dashboard {
      var i := SnapshotRow(divide, h, k - 1, j, id);
      SameId(h.members, i, k - 1);
      assert j.dashboard[id := row] == j.dashboard;
    } else {
      forall other | other in j.dashboard ensures j.dashboard[other].sequence != row.sequence {
        var i := SnapshotRow(divide, h, k - 1, j, other);
        SameSequence(h.members, i, k - 1);
      }
    }
  }

  lemma {:induction false} StatePut(divide: (real, real) -> real, h: Trail, k: nat, j: Tables)
    requires Sized(h) && Ordered(h.members) && 0 < k <= |h.states| && Between(divide, h, k - 1, j)
    ensures var row := ReadRow(h.states[k - 1], h.members[k - 1]); var id := h.members[k - 1].event.eventId;
      PutState(j.states, row) == Ok(j.states[id := row])
  {
    hide Between, Booked, Ordered;
    var id := h.members[k - 1].event.eventId;
    var row := ReadRow(h.states[k - 1], h.members[k - 1]);
    if id in j.states {
      var i := StateRow(divide, h, k - 1, j, id);
      SameId(h.members, i, k - 1);
      assert j.states[id := row] == j.states;
    } else {
      forall other | other in j.states ensures j.states[other].sequence != row.sequence {
        var i := StateRow(divide, h, k - 1, j, other);
        SameSequence(h.members, i, k - 1);
      }
    }
  }

  lemma {:induction false} SameId(members: seq<Member>, a: nat, b: nat)
    requires Ordered(members) && a < |members| && b < |members| && members[a].event.eventId == members[b].event.eventId
    ensures a == b
  {
  }

  // ---- one capture -----------------------------------------------------------------

  /** Extending tables that lie between two journals stays between the next and the last. */
  lemma {:induction false} ExtendedBetween(divide: (real, real) -> real, a: Tables, r: Tables, n: Tables, s: Account, members: seq<Member>)
    requires members != [] && Booked(s, members[|members| - 1])
    requires TablesWithin(a, r) && TablesWithin(r, n) && TablesWithin(Extended(divide, a, s, members), n)
    ensures TablesWithin(Extended(divide, a, s, members), Extended(divide, r, s, members))
    ensures TablesWithin(Extended(divide, r, s, members), n)
  {
    hide Booked, ReadRow, DashboardRow, KeepFirst, Within;
    var m := members[|members| - 1];
    var e := m.event;
    var chart := Chart(e.eventId, e.filledAt, e.receivedAt, e.receivedAt);
    var closes := ReadRow(s, m).body.closedAt.Some?;
    KeepFirstBetween(a.headers, r.headers, n.headers, true, m.tradeId, e.receivedAt);
    PutBetween(a.refs, r.refs, n.refs, e.eventId, Ref(m.tradeId, m.role));
    PutBetween(a.states, r.states, n.states, e.eventId, ReadRow(s, m));
    PutBetween(a.dashboard, r.dashboard, n.dashboard, e.eventId, DashboardRow(divide, s, members));
    var opens := e.eventId == m.tradeId;
    var a', r' := KeepFirst(a.charts, opens, (m.tradeId, EntryChart), chart), KeepFirst(r.charts, opens, (m.tradeId, EntryChart), chart);
    KeepFirstGrows(a', n.charts, closes, (m.tradeId, ExitChart), chart);
    KeepFirstBetween(a.charts, r.charts, n.charts, opens, (m.tradeId, EntryChart), chart);
    KeepFirstBetween(a', r', n.charts, closes, (m.tradeId, ExitChart), chart);
  }

  lemma {:induction false} KeepFirstGrows<K(!new), V(!new)>(a: map<K, V>, n: map<K, V>, eligible: bool, key: K, v: V)
    requires Within(KeepFirst(a, eligible, key, v), n)
    ensures Within(a, n)
  {
    assert forall x :: x in a ==> x in KeepFirst(a, eligible, key, v);
  }

  lemma {:induction false} StepBetween(divide: (real, real) -> real, h: Trail, k: nat, j: Tables)
    requires Sized(h) && Ordered(h.members) && 0 < k <= |h.states| && Between(divide, h, k - 1, j)
    ensures h.members[..k][k - 1] == h.members[k - 1]
    ensures Between(divide, h, k, Extended(divide, j, h.states[k - 1], h.members[..k]))
  {
    hide JournalAt, Booked, Extended, TablesWithin, Ordered;
    JournalStep(divide, h, k);
    JournalGrows(divide, h, k, |h.states|);
    ExtendedBetween(divide, JournalAt(divide, h, k - 1), j, JournalAt(divide, h, |h.states|), h.states[k - 1], h.members[..k]);
  }

  /** No request of the first k fills is refused: the account is active, or they are on record. */
  ghost predicate ChartsOpen(divide: (real, real) -> real, active: bool, h: Trail, k: nat, j: Tables)
    requires Sized(h) && k <= |h.states|
  {
    active || forall key :: key in JournalAt(divide, h, k).charts ==> key in j.charts
  }

  lemma {:induction false} ChartsPut(divide: (real, real) -> real, active: bool, h: Trail, k: nat, j: Tables)
    requires Sized(h) && Ordered(h.members) && 0 < k <= |h.states| && Between(divide, h, k - 1, j)
    ensures h.members[..k][k - 1] == h.members[k - 1]
    ensures var m := h.members[k - 1]; var e := m.event; var chart := Chart(e.eventId, e.filledAt, e.receivedAt, e.receivedAt);
      var opens, closes := e.eventId == m.tradeId, ReadRow(h.states[k - 1], m).body.closedAt.Some?;
      var charts := KeepFirst(j.charts, opens, (m.tradeId, EntryChart), chart);
      var due := KeepFirst(charts, closes, (m.tradeId, ExitChart), chart);
      && PutCharts(active, None, j.charts, m.tradeId, closes, e)
         == (if ChartsOpen(divide, active, h, k, j) then Ok(due) else Err(AccountClosed))
      && (!active && ChartsOpen(divide, active, h, k, j) ==> due == j.charts)
  {
    hide JournalAt, Booked, ReadRow, DashboardRow, Ordered;
    JournalStep(divide, h, k);
    if !active {
      var m := h.members[k - 1];
      var opens, closes := m.event.eventId == m.tradeId, ReadRow(h.states[k - 1], m).body.closedAt.Some?;
      var before, due := JournalAt(divide, h, k - 1).charts, JournalAt(divide, h, k).charts;
      assert forall key :: key in due <==>
        key in before || (opens && key == (m.tradeId, EntryChart)) || (closes && key == (m.tradeId, ExitChart));
    }
  }

  lemma {:induction false} RefsPut(divide: (real, real) -> real, h: Trail, k: nat, j: Tables)
    requires Sized(h) && Ordered(h.members) && 0 < k <= |h.states| && Between(divide, h, k - 1, j)
    ensures var m := h.members[k - 1]; var ref := Ref(m.tradeId, m.role);
      && PutRef(j.refs, m.event.eventId, ref) == Ok(j.refs[m.event.eventId := ref])
      && RefsCover(j.refs[m.event.eventId := ref], h.members, k)
  {
    hide JournalAt, Booked, ReadRow, DashboardRow, Ordered, EventIds;
    var m := h.members[k - 1];
    var ref := Ref(m.tradeId, m.role);
    JournalRows(divide, h, |h.states|);
    JournalRows(divide, h, k - 1);
    assert RowsAt(divide, h, JournalAt(divide, h, |h.states|), k - 1);
    if m.event.eventId in j.refs {
      assert j.refs[m.event.eventId := ref] == j.refs;
    }
    forall q | 0 <= q < k
      ensures var e := h.members[q]; var refs := j.refs[m.event.eventId := ref];
        e.event.eventId in refs && refs[e.event.eventId] == Ref(e.tradeId, e.role)
    {
      if q < k - 1 {
        InSequence(h.members, q, k - 1);
        assert RowsAt(divide, h, JournalAt(divide, h, k - 1), q);
      }
    }
  }

  /** A capture over any surviving rows adds exactly the rows that are due: headers,
      references, states and snapshots that are still there are confirmed, missing ones are
      written again, and no conflict is ever raised. Only a closed account that lacks a chart
      request of the fill refuses. */
  lemma {:induction false} CaptureStep(divide: (real, real) -> real, active: bool, origin: Account, h: Trail, k: nat,
                                       table: seq<ExecutionEvent>, m: nat, j: Tables)
    requires Genuine(origin, h) && Sized(h) && 0 < k <= m <= |h.states| && Holds(table, h.members, m)
    requires Between(divide, h, k - 1, j)
    ensures h.members[..k][k - 1] == h.members[k - 1]
    ensures var r := Captured(divide, active, None, table, j, h.states[k - 1], h.members[k - 1].event);
      var next := Extended(divide, j, h.states[k - 1], h.members[..k]);
      if ChartsOpen(divide, active, h, k, j) then
        r == Ok(next) && Between(divide, h, k, next) && (!active ==> next.charts == j.charts)
      else r == Err(AccountClosed)
  {
    hide Genuine, JournalAt, Booked, DashboardRow, Ordered, LedgerOk, SchemaValid, StepOk, TablesWithin, MemberOf, Holds,
         Snapshot, PutRow, PutState, PutRef, PutHeader, PutCharts, KeepFirst, RefsCover, Within, ChartsOpen;
    GenuineSized(origin, h);
    GenuineStep(origin, h, k - 1);
    HeaderStep(divide, origin, h, k, table, m, j);
    RefsPut(divide, h, k, j);
    StatePut(divide, h, k, j);
    ChartsPut(divide, active, h, k, j);
    if ChartsOpen(divide, active, h, k, j) {
      StepBetween(divide, h, k, j);
      var next := Extended(divide, j, h.states[k - 1], h.members[..k]);
      var before := next.(dashboard := j.dashboard);
      BeforeBetween(divide, h, k, j);
      SnapshotStep(divide, origin, h, k, table, m, before);
      DashboardPut(divide, h, k, before);
    }
  }

  lemma {:induction false} BeforeBetween(divide: (real, real) -> real, h: Trail, k: nat, j: Tables)
    requires Sized(h) && Ordered(h.members) && 0 < k <= |h.states| && Between(divide, h, k - 1, j)
    ensures h.members[..k][k - 1] == h.members[k - 1]
    ensures Between(divide, h, k - 1, Extended(divide, j, h.states[k - 1], h.members[..k]).(dashboard := j.dashboard))
  {
    hide JournalAt, Booked, Ordered, Extended;
    StepBetween(divide, h, k, j);
    JournalGrows(divide, h, k - 1, k);
  }
}
