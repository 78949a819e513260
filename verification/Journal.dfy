/** The derived journal of one account: trade headers, fill references, per-fill trade
    states, chart requests and dashboard snapshots, captured fill by fill. */
module Journal {
  import opened Wrappers
  import opened ExecutionModels
  import opened TradeProjection
  import opened Sorting
  import opened AsOf

  datatype Ref = Ref(tradeId: Id, role: Role)

  /** A per-fill row, keyed by the fill's event identifier and ordered by its sequence. */
  datatype Row<T> = Row(eventId: Id, sequence: int, knownAt: Time, body: T)

  datatype ChartKind = EntryChart | ExitChart

  /** A chart request; it may be served once it is admitted. */
  datatype Chart = Chart(trigger: Id, snapshotTime: Time, createdAt: Time, requestAdmittedAt: Time)

  datatype PositionDisplay = PositionDisplay(
    tradeId: Id, openedAt: Time, closedAt: Option<Time>, grossPnl: real, figures: Display)

  datatype DisplayState = DisplayState(
    cashBalance: real, reservedCollateral: real, availableBalance: real, realizedPnl: real,
    updatedAt: Option<Time>, positions: seq<Position>, displays: map<Id, PositionDisplay>)

  datatype Tables = Tables(
    headers: map<Id, Time>, refs: map<Id, Ref>, states: map<Id, Row<Trade>>,
    charts: map<(Id, ChartKind), Chart>, dashboard: map<Id, Row<DisplayState>>)

  const NOTHING := Tables(map[], map[], map[], map[], map[])

  // ---- queries ---------------------------------------------------------------------

  ghost predicate DistinctSequences<T>(rows: map<Id, Row<T>>) {
    forall a, b :: a in rows && b in rows && rows[a].sequence == rows[b].sequence ==> a == b
  }

  /** ORDER BY execution_sequence DESC LIMIT 1 over the visible rows. */
  ghost predicate IsLatest<T(!new)>(rows: map<Id, Row<T>>, visible: Row<T> -> bool, r: Option<Row<T>>) {
    match r
    case None => forall id :: id in rows ==> !visible(rows[id])
    case Some(row) =>
      && (exists id :: id in rows && rows[id] == row)
      && visible(row)
      && forall id :: id in rows && visible(rows[id]) ==> rows[id].sequence <= row.sequence
  }

  lemma {:induction false} LatestExists<T(!new)>(rows: map<Id, Row<T>>, visible: Row<T> -> bool)
    ensures exists r :: IsLatest(rows, visible, r)
    decreases |rows|
  {
    if id :| id in rows {
      var rest := rows - {id};
      assert rows == rest[id := rows[id]];
      LatestExists(rest, visible);
      var r :| IsLatest(rest, visible, r);
      if visible(rows[id]) && (r.None? || r.value.sequence <= rows[id].sequence) {
        assert IsLatest(rows, visible, Some(rows[id]));
      } else {
        if r.Some? {
          var other :| other in rest && rest[other] == r.value;
          assert rows[other] == r.value;
        }
        assert IsLatest(rows, visible, r);
      }
    } else {
      assert IsLatest(rows, visible, None);
    }
  }

  ghost function Latest<T(!new)>(rows: map<Id, Row<T>>, visible: Row<T> -> bool): (r: Option<Row<T>>)
    ensures IsLatest(rows, visible, r)
  {
    LatestExists(rows, visible);
    var r :| IsLatest(rows, visible, r);
    r
  }

  lemma {:induction false} LatestIs<T(!new)>(rows: map<Id, Row<T>>, visible: Row<T> -> bool, r: Option<Row<T>>)
    requires DistinctSequences(rows) && IsLatest(rows, visible, r)
    ensures Latest(rows, visible) == r
  {
    var q := Latest(rows, visible);
    if q.Some? {
      var a :| a in rows && rows[a] == q.value;
      if r.Some? {
        var b :| b in rows && rows[b] == r.value;
        assert rows[a].sequence == rows[b].sequence;
      }
    }
  }

  /** The query as a scan. */
  method LatestRow<T(!new)>(rows: map<Id, Row<T>>, visible: Row<T> -> bool) returns (r: Option<Row<T>>)
    requires DistinctSequences(rows)
    ensures r == Latest(rows, visible)
  {
    r := None;
    var left := rows.Keys;
    while left != {}
      invariant left <= rows.Keys
      invariant IsLatest(rows - left, visible, r)
      decreases left
    {
      var id :| id in left;
      ghost var seen := rows - left;
      left := left - {id};
      ghost var more := rows - left;
      assert more == seen[id := rows[id]];
      if visible(rows[id]) && (r.None? || r.value.sequence <= rows[id].sequence) {
        r := Some(rows[id]);
        assert more[id] == r.value;
      } else if r.Some? {
        ghost var other :| other in seen && seen[other] == r.value;
        assert more[other] == r.value;
      }
    }
    assert rows - left == rows;
    LatestIs(rows, visible, r);
  }

  predicate SequenceTaken<T>(rows: map<Id, Row<T>>, sequence: int) {
    exists id :: id in rows && rows[id].sequence == sequence
  }

  function OlderThan(sequence: int): Row<DisplayState> -> bool {
    (row: Row<DisplayState>) => row.sequence < sequence
  }

  /** The fill with a given event identifier. */
  function FillById(table: seq<ExecutionEvent>, eventId: Id): Option<ExecutionEvent> {
    if table == [] then None
    else if table[|table| - 1].eventId == eventId then Some(table[|table| - 1])
    else FillById(table[..|table| - 1], eventId)
  }

  function OfTrade(refs: map<Id, Ref>, tradeId: Id, sequence: int): ExecutionEvent -> bool {
    (e: ExecutionEvent) => e.eventId in refs && refs[e.eventId].tradeId == tradeId && e.sequence <= sequence
  }

  /** The fills referenced by a trade up to a sequence, in fill order. */
  function SourceFills(table: seq<ExecutionEvent>, refs: map<Id, Ref>, tradeId: Id, sequence: int): seq<ExecutionEvent> {
    OrderBy(Filter(OfTrade(refs, tradeId, sequence), table))
  }

  // ---- display snapshots -----------------------------------------------------------

  function PositionIds(positions: seq<Position>): set<Id> {
    set i | 0 <= i < |positions| :: positions[i].tradeId
  }

  /** The membership rules a snapshot passes whenever it is built or read back. */
  predicate DisplayValid(state: DisplayState) {
    && state.reservedCollateral >= 0.0
    && (forall i, j :: 0 <= i < j < |state.positions| ==> state.positions[i].symbol != state.positions[j].symbol)
    && state.displays.Keys == PositionIds(state.positions)
    && forall i :: 0 <= i < |state.positions| ==>
         var p := state.positions[i]; var d := state.displays[p.tradeId];
         && d.tradeId == p.tradeId && d.figures.remainingQuantity == p.quantity
         && (d.figures.status.Closed? <==> p.quantity == 0.0)
  }

  function DisplayOf(s: Account, displays: map<Id, PositionDisplay>): DisplayState {
    DisplayState(s.cashBalance, ReservedCollateral(s.positions), AvailableBalance(s), RealizedPnl(s.trades),
                 s.updatedAt, s.positions, displays)
  }

  /** The display of one position: the previous one when the fill is for another symbol,
      otherwise recomputed from the trade's fills. */
  function DisplayFor(divide: (real, real) -> real, table: seq<ExecutionEvent>, refs: map<Id, Ref>, s: Account,
                      event: ExecutionEvent, prior: map<Id, PositionDisplay>, p: Position)
    : Result<PositionDisplay, Fault>
  {
    if p.symbol != event.symbol && p.tradeId in prior then Ok(prior[p.tradeId])
    else
      var t := TradeIndex(s.trades, p.tradeId);
      if t == |s.trades| then Err(MissingTrade)
      else
        var trade := s.trades[t];
        var figures :- FillDisplay(divide, trade, SourceFills(table, refs, trade.tradeId, event.sequence));
        Ok(PositionDisplay(trade.tradeId, trade.openedAt, trade.closedAt, trade.grossPnl, figures))
  }

  function Displays(divide: (real, real) -> real, table: seq<ExecutionEvent>, refs: map<Id, Ref>, s: Account,
                    event: ExecutionEvent, prior: map<Id, PositionDisplay>, positions: seq<Position>)
    : Result<map<Id, PositionDisplay>, Fault>
  {
    if positions == [] then Ok(map[])
    else
      var last := positions[|positions| - 1];
      var displays :- Displays(divide, table, refs, s, event, prior, positions[..|positions| - 1]);
      var display :- DisplayFor(divide, table, refs, s, event, prior, last);
      Ok(displays[last.tradeId := display])
  }

  lemma {:induction false} DisplaysFailure(divide: (real, real) -> real, table: seq<ExecutionEvent>, refs: map<Id, Ref>, s: Account,
                                           event: ExecutionEvent, prior: map<Id, PositionDisplay>, positions: seq<Position>, k: nat)
    requires k <= |positions|
    ensures Displays(divide, table, refs, s, event, prior, positions[..k]).Err? ==>
      Displays(divide, table, refs, s, event, prior, positions) == Displays(divide, table, refs, s, event, prior, positions[..k])
    decreases |positions|
  {
    hide DisplayFor;
    if k < |positions| {
      var init := positions[..|positions| - 1];
      DisplaysFailure(divide, table, refs, s, event, prior, init, k);
      assert init[..k] == positions[..k];
    } else {
      assert positions[..k] == positions;
    }
  }

  /** The loop over the account's positions. */
  method DisplayLoop(divide: (real, real) -> real, table: seq<ExecutionEvent>, refs: map<Id, Ref>, s: Account,
                     event: ExecutionEvent, prior: map<Id, PositionDisplay>)
    returns (r: Result<map<Id, PositionDisplay>, Fault>)
    ensures r == Displays(divide, table, refs, s, event, prior, s.positions)
  {
    hide DisplayFor;
    var displays: map<Id, PositionDisplay> := map[];
    for i := 0 to |s.positions|
      invariant Displays(divide, table, refs, s, event, prior, s.positions[..i]) == Ok(displays)
    {
      assert s.positions[..i + 1][..i] == s.positions[..i];
      DisplaysFailure(divide, table, refs, s, event, prior, s.positions, i + 1);
      var display := DisplayFor(divide, table, refs, s, event, prior, s.positions[i]);
      if display.Err? {
        return Err(display.error);
      }
      displays := displays[s.positions[i].tradeId := display.value];
    }
    assert s.positions[..|s.positions|] == s.positions;
    return Ok(displays);
  }

  // ---- capture ---------------------------------------------------------------------

  /** Insert a row, or confirm the one already there; a sequence is used once per table. */
  function PutRow<T(==)>(rows: map<Id, Row<T>>, row: Row<T>): Result<map<Id, Row<T>>, Fault> {
    if row.eventId in rows then (if rows[row.eventId] == row then Ok(rows) else Err(JournalConflict))
    else if SequenceTaken(rows, row.sequence) then Err(JournalConflict)
    else Ok(rows[row.eventId := row])
  }

  /** The per-fill trade state; the sequence of an existing row is not compared. */
  function PutState(rows: map<Id, Row<Trade>>, row: Row<Trade>): Result<map<Id, Row<Trade>>, Fault> {
    if row.eventId in rows then
      (if rows[row.eventId].(sequence := row.sequence) == row then Ok(rows) else Err(JournalConflict))
    else PutRow(rows, row)
  }

  function PutHeader(table: seq<ExecutionEvent>, headers: map<Id, Time>, tradeId: Id): Result<map<Id, Time>, Fault> {
    if tradeId in headers then Ok(headers)
    else
      var opening := FillById(table, tradeId);
      if opening.None? then Err(JournalConflict) else Ok(headers[tradeId := opening.value.receivedAt])
  }

  function PutRef(refs: map<Id, Ref>, eventId: Id, ref: Ref): Result<map<Id, Ref>, Fault> {
    if eventId !in refs then Ok(refs[eventId := ref])
    else if refs[eventId] == ref then Ok(refs)
    else Err(MembershipConflict)
  }

  /** When a request made for a fill is admitted: at the given time, or on its receipt. */
  function AdmittedAt(admitted: Option<Time>, event: ExecutionEvent): Time {
    if admitted.Some? then admitted.value else event.receivedAt
  }

  /** Request a chart once per trade and kind; a closed account accepts no new request. */
  function PutChart(active: bool, admitted: Option<Time>, charts: map<(Id, ChartKind), Chart>, eligible: bool,
                    key: (Id, ChartKind), event: ExecutionEvent)
    : Result<map<(Id, ChartKind), Chart>, Fault>
  {
    if !eligible || key in charts then Ok(charts)
    else if !active then Err(AccountClosed)
    else Ok(charts[key := Chart(event.eventId, event.filledAt, event.receivedAt, AdmittedAt(admitted, event))])
  }

  /** The entry chart of the opening fill, the exit chart of a closed trade. */
  function PutCharts(active: bool, admitted: Option<Time>, charts: map<(Id, ChartKind), Chart>, tradeId: Id, closed: bool,
                     event: ExecutionEvent)
    : Result<map<(Id, ChartKind), Chart>, Fault>
  {
    var entry :- PutChart(active, admitted, charts, event.eventId == tradeId, (tradeId, EntryChart), event);
    PutChart(active, admitted, entry, closed, (tradeId, ExitChart), event)
  }

  ghost function Snapshot(divide: (real, real) -> real, table: seq<ExecutionEvent>, j: Tables, s: Account, event: ExecutionEvent)
    : Result<map<Id, Row<DisplayState>>, Fault>
  {
    var previous := Latest(j.dashboard, OlderThan(event.sequence));
    if previous.Some? && !DisplayValid(previous.value.body) then Err(JournalConflict)
    else
      var prior := if previous.Some? then previous.value.body.displays else map[];
      var displays :- Displays(divide, table, j.refs, s, event, prior, s.positions);
      var state := DisplayOf(s, displays);
      if !DisplayValid(state) then Err(JournalConflict)
      else PutRow(j.dashboard, Row(event.eventId, event.sequence, event.receivedAt, state))
  }

  /** `capture_fill`: the rows one fill adds, given the account it produced. Live capture gives no
      admission time. */
  ghost function Captured(divide: (real, real) -> real, active: bool, admitted: Option<Time>, table: seq<ExecutionEvent>,
                             j: Tables, s: Account, event: ExecutionEvent): Result<Tables, Fault>
  {
    var m :- MemberOf(s, event);
    var trade := s.trades[TradeIndex(s.trades, m.tradeId)];
    var headers :- PutHeader(table, j.headers, m.tradeId);
    var refs :- PutRef(j.refs, event.eventId, Ref(m.tradeId, m.role));
    var states :- PutState(j.states, Row(event.eventId, event.sequence, event.receivedAt, trade));
    var charts :- PutCharts(active, admitted, j.charts, m.tradeId, trade.closedAt.Some?, event);
    var next := Tables(headers, refs, states, charts, j.dashboard);
    var dashboard :- Snapshot(divide, table, next, s, event);
    Ok(next.(dashboard := dashboard))
  }

  /** The tables updated in place. A refusal leaves the enclosing transaction to be rolled
      back; nothing is promised about the fields then. */
  class Store {
    var headers: map<Id, Time>
    var refs: map<Id, Ref>
    var states: map<Id, Row<Trade>>
    var charts: map<(Id, ChartKind), Chart>
    var dashboard: map<Id, Row<DisplayState>>

    ghost predicate Valid()
      reads this
    {
      DistinctSequences(states) && DistinctSequences(dashboard)
    }

    function Contents(): Tables
      reads this
    {
      Tables(headers, refs, states, charts, dashboard)
    }

    constructor ()
      ensures Valid() && Contents() == NOTHING
    {
      headers, refs, states, charts, dashboard := map[], map[], map[], map[], map[];
    }

    method CaptureDashboard(divide: (real, real) -> real, table: seq<ExecutionEvent>, s: Account, event: ExecutionEvent)
      returns (fault: Option<Fault>)
      requires Valid()
      modifies this`dashboard
      ensures Valid()
      ensures var r := Snapshot(divide, table, old(Contents()), s, event);
        if r.Err? then fault == Some(r.error) else fault.None? && dashboard == r.value
    {
      hide Displays, DisplayValid, DisplayOf;
      var previous := LatestRow(dashboard, OlderThan(event.sequence));
      var prior: map<Id, PositionDisplay> := map[];
      if previous.Some? {
        if !DisplayValid(previous.value.body) {
          return Some(JournalConflict);
        }
        prior := previous.value.body.displays;
      }
      var displays := DisplayLoop(divide, table, refs, s, event, prior);
      if displays.Err? {
        return Some(displays.error);
      }
      var state := DisplayOf(s, displays.value);
      if !DisplayValid(state) {
        return Some(JournalConflict);
      }
      var rows := PutRow(dashboard, Row(event.eventId, event.sequence, event.receivedAt, state));
      if rows.Err? {
        return Some(rows.error);
      }
      dashboard := rows.value;
      return None;
    }

    method CaptureFill(divide: (real, real) -> real, active: bool, admitted: Option<Time>, table: seq<ExecutionEvent>,
                       s: Account, event: ExecutionEvent)
      returns (fault: Option<Fault>)
      requires Valid()
      modifies this
      ensures fault.None? ==> Valid()
      ensures var r := Captured(divide, active, admitted, table, old(Contents()), s, event);
        if r.Err? then fault == Some(r.error) else fault.None? && Contents() == r.value
    {
      hide Snapshot, PutChart, PutHeader, PutRef;
      var m := MemberOf(s, event);
      if m.Err? {
        return Some(m.error);
      }
      var tradeId := m.value.tradeId;
      var trade := s.trades[TradeIndex(s.trades, tradeId)];
      var header := PutHeader(table, headers, tradeId);
      if header.Err? {
        return Some(header.error);
      }
      headers := header.value;
      var ref := PutRef(refs, event.eventId, Ref(tradeId, m.value.role));
      if ref.Err? {
        return Some(ref.error);
      }
      refs := ref.value;
      var read := PutState(states, Row(event.eventId, event.sequence, event.receivedAt, trade));
      if read.Err? {
        return Some(read.error);
      }
      states := read.value;
      var opens := PutChart(active, admitted, charts, event.eventId == tradeId, (tradeId, EntryChart), event);
      if opens.Err? {
        return Some(opens.error);
      }
      charts := opens.value;
      var closes := PutChart(active, admitted, charts, trade.closedAt.Some?, (tradeId, ExitChart), event);
      if closes.Err? {
        return Some(closes.error);
      }
      charts := closes.value;
      fault := CaptureDashboard(divide, table, s, event);
    }
  }
}
