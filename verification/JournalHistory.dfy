/** The journal is a function of the ledger: what live capture writes, what a rebuild
    restores from any surviving rows, and a declarative description of every row agree. */
module JournalHistory {
  import opened Wrappers
  import opened ExecutionModels
  import opened TradeProjection
  import opened LedgerInvariant
  import opened Journal

  // ---- the reference journal -------------------------------------------------------

  /** The display of a trade, always recomputed from all its fills. */
  function FreshDisplay(divide: (real, real) -> real, s: Account, members: seq<Member>, tradeId: Id): PositionDisplay
    requires TradeIndex(s.trades, tradeId) < |s.trades|
  {
    var t := s.trades[TradeIndex(s.trades, tradeId)];
    PositionDisplay(t.tradeId, t.openedAt, t.closedAt, t.grossPnl, Figures(divide, t, EventsOf(members, tradeId)))
  }

  function FreshDisplays(divide: (real, real) -> real, s: Account, members: seq<Member>, positions: seq<Position>)
    : map<Id, PositionDisplay>
  {
    map id | id in PositionIds(positions) && TradeIndex(s.trades, id) < |s.trades| :: FreshDisplay(divide, s, members, id)
  }

  predicate Booked(s: Account, m: Member) {
    TradeIndex(s.trades, m.tradeId) < |s.trades|
  }

  function ReadRow(s: Account, m: Member): Row<Trade>
    requires Booked(s, m)
  {
    Row(m.event.eventId, m.event.sequence, m.event.receivedAt, s.trades[TradeIndex(s.trades, m.tradeId)])
  }

  function DashboardRow(divide: (real, real) -> real, s: Account, members: seq<Member>): Row<DisplayState>
    requires members != []
  {
    var e := members[|members| - 1].event;
    Row(e.eventId, e.sequence, e.receivedAt, DisplayOf(s, FreshDisplays(divide, s, members, s.positions)))
  }

  function KeepFirst<K, V>(rows: map<K, V>, eligible: bool, key: K, value: V): map<K, V> {
    if !eligible || key in rows then rows else rows[key := value]
  }

  /** The rows due after one more fill, none of them carried over from earlier rows. */
  function Extended(divide: (real, real) -> real, j: Tables, s: Account, members: seq<Member>): Tables
    requires members != [] && Booked(s, members[|members| - 1])
  {
    var m := members[|members| - 1];
    var e := m.event;
    var chart := Chart(e.eventId, e.filledAt, e.receivedAt, e.receivedAt);
    Tables(
      KeepFirst(j.headers, true, m.tradeId, e.receivedAt),
      j.refs[e.eventId := Ref(m.tradeId, m.role)],
      j.states[e.eventId := ReadRow(s, m)],
      KeepFirst(KeepFirst(j.charts, e.eventId == m.tradeId, (m.tradeId, EntryChart), chart),
                ReadRow(s, m).body.closedAt.Some?, (m.tradeId, ExitChart), chart),
      j.dashboard[e.eventId := DashboardRow(divide, s, members)])
  }

  // ---- the trail of a run ----------------------------------------------------------

  /** The accounts after each fill of a run, and the membership of each fill. */
  datatype Trail = Trail(states: seq<Account>, members: seq<Member>)

  function FindTrade(s: Account, tradeId: Id): Option<Trade> {
    var t := TradeIndex(s.trades, tradeId);
    if t < |s.trades| then Some(s.trades[t]) else None
  }

  /** Nothing but the position and the trade of the fill moved; the trade was not closed and
      keeps its direction. */
  ghost predicate Untouched(s0: Account, s: Account, m: Member) {
    && (forall id :: id != m.tradeId ==> FindTrade(s, id) == FindTrade(s0, id))
    && (FindTrade(s0, m.tradeId).Some? ==>
          && FindTrade(s0, m.tradeId).value.closedAt.None?
          && FindTrade(s, m.tradeId).Some?
          && FindTrade(s, m.tradeId).value.direction == FindTrade(s0, m.tradeId).value.direction)
    && forall i :: 0 <= i < |s.positions| && s.positions[i].symbol != m.event.symbol ==>
         var id := s.positions[i].tradeId; id != m.tradeId && id in PositionIds(s0.positions) && FindTrade(s, id).Some?
  }

  ghost predicate StepOk(origin: Account, s0: Account, s: Account, members: seq<Member>) {
    && members != []
    && LedgerOk(origin, s, members) && SchemaValid(s)
    && var m := members[|members| - 1]; Booked(s, m) && MemberOf(s, m.event) == Ok(m) && Untouched(s0, s, m)
  }

  ghost predicate Ordered(members: seq<Member>) {
    forall i, j :: 0 <= i < j < |members| ==>
      && members[i].event.eventId != members[j].event.eventId
      && members[i].event.sequence < members[j].event.sequence
      && members[i].event.filledAt <= members[j].event.filledAt
      && members[i].event.receivedAt <= members[j].event.receivedAt
  }

  function Earlier(origin: Account, h: Trail, i: nat): Account
    requires i <= |h.states|
  {
    if i == 0 then EmptyProjection(origin) else h.states[i - 1]
  }

  ghost predicate Genuine(origin: Account, h: Trail) {
    && |h.states| == |h.members|
    && Ordered(h.members)
    && forall i :: 0 <= i < |h.states| ==> StepOk(origin, Earlier(origin, h, i), h.states[i], h.members[..i + 1])
  }

  /** Every fill of a trail was booked into a trade that its account knows. */
  ghost predicate Sized(h: Trail) {
    |h.states| == |h.members| && forall i :: 0 <= i < |h.states| ==> Booked(h.states[i], h.members[i])
  }

  /** The journal due after the first k fills. */
  ghost function JournalAt(divide: (real, real) -> real, h: Trail, k: nat): Tables
    requires Sized(h) && k <= |h.states|
  {
    if k == 0 then NOTHING
    else
      assert h.members[..k][k - 1] == h.members[k - 1];
      Extended(divide, JournalAt(divide, h, k - 1), h.states[k - 1], h.members[..k])
  }

  lemma {:induction false} GenuineStep(origin: Account, h: Trail, i: nat)
    requires Genuine(origin, h) && i < |h.states| == |h.members|
    ensures StepOk(origin, Earlier(origin, h, i), h.states[i], h.members[..i + 1])
    ensures LedgerOk(origin, h.states[i], h.members[..i + 1]) && SchemaValid(h.states[i])
    ensures h.members[..i + 1][i] == h.members[i] && Booked(h.states[i], h.members[i])
    ensures MemberOf(h.states[i], h.members[i].event) == Ok(h.members[i])
  {
    hide LedgerOk;
  }

  lemma {:induction false} GenuineSized(origin: Account, h: Trail)
    requires Genuine(origin, h)
    ensures Sized(h) && Ordered(h.members)
  {
    forall i | 0 <= i < |h.states| ensures Booked(h.states[i], h.members[i]) {
      GenuineStep(origin, h, i);
    }
  }

  lemma {:induction false} JournalStep(divide: (real, real) -> real, h: Trail, k: nat)
    requires Sized(h) && 0 < k <= |h.states|
    ensures h.members[..k][k - 1] == h.members[k - 1]
    ensures JournalAt(divide, h, k) == Extended(divide, JournalAt(divide, h, k - 1), h.states[k - 1], h.members[..k])
  {
    hide Extended, Booked;
  }

  ghost function EventIds(members: seq<Member>, k: nat): set<Id>
    requires k <= |members|
  {
    set i | 0 <= i < k :: members[i].event.eventId
  }

  lemma {:induction false} EventIdsStep(members: seq<Member>, k: nat)
    requires Ordered(members) && 0 < k <= |members|
    ensures EventIds(members, k) == EventIds(members, k - 1) + {members[k - 1].event.eventId}
    ensures members[k - 1].event.eventId !in EventIds(members, k - 1)
  {
  }

  /** What the journal holds for the i-th fill: its reference, its trade as of that fill, and
      the account display as of that fill. */
  ghost predicate RowsAt(divide: (real, real) -> real, h: Trail, j: Tables, i: nat)
    requires Sized(h) && i < |h.states|
  {
    var m := h.members[i];
    var id := m.event.eventId;
    && id in j.refs && id in j.states && id in j.dashboard && m.tradeId in j.headers
    && j.refs[id] == Ref(m.tradeId, m.role)
    && j.states[id] == ReadRow(h.states[i], m)
    && j.dashboard[id] == DashboardRow(divide, h.states[i], h.members[..i + 1])
  }

  ghost predicate Within<K(!new), V(!new)>(a: map<K, V>, b: map<K, V>) {
    forall x :: x in a ==> x in b && a[x] == b[x]
  }

  ghost predicate TablesWithin(a: Tables, b: Tables) {
    && Within(a.headers, b.headers) && Within(a.refs, b.refs) && Within(a.states, b.states)
    && Within(a.charts, b.charts) && Within(a.dashboard, b.dashboard)
  }

  lemma {:induction false} WithinTransitive(a: Tables, b: Tables, c: Tables)
    requires TablesWithin(a, b) && TablesWithin(b, c)
    ensures TablesWithin(a, c)
  {
  }

  lemma {:induction false} ExtendedGrows(divide: (real, real) -> real, j: Tables, s: Account, members: seq<Member>)
    requires members != [] && Booked(s, members[|members| - 1])
    requires var id := members[|members| - 1].event.eventId; id !in j.refs && id !in j.states && id !in j.dashboard
    ensures TablesWithin(j, Extended(divide, j, s, members))
  {
    hide Booked, ReadRow, DashboardRow;
  }

  lemma {:induction false} RowsKeep(divide: (real, real) -> real, h: Trail, j: Tables, j': Tables, i: nat)
    requires Sized(h) && i < |h.states|
    requires RowsAt(divide, h, j, i) && TablesWithin(j, j')
    ensures RowsAt(divide, h, j', i)
  {
    hide Booked, ReadRow, DashboardRow;
  }

  /** One step adds the rows of one fill and keeps the others. */
  lemma {:induction false} JournalStepRows(divide: (real, real) -> real, h: Trail, k: nat)
    requires Sized(h) && 0 < k <= |h.states|
    requires var j, id := JournalAt(divide, h, k - 1), h.members[k - 1].event.eventId;
      id !in j.refs && id !in j.states && id !in j.dashboard
    ensures var j, j', id := JournalAt(divide, h, k - 1), JournalAt(divide, h, k), h.members[k - 1].event.eventId;
      && TablesWithin(j, j')
      && j'.refs.Keys == j.refs.Keys + {id} && j'.states.Keys == j.states.Keys + {id}
      && j'.dashboard.Keys == j.dashboard.Keys + {id}
      && RowsAt(divide, h, j', k - 1)
  {
    hide JournalAt, Booked, ReadRow, DashboardRow, TablesWithin;
    JournalStep(divide, h, k);
    ExtendedGrows(divide, JournalAt(divide, h, k - 1), h.states[k - 1], h.members[..k]);
  }

  /** The journal has exactly one reference, state and snapshot per fill, each as of it. */
  lemma {:induction false} JournalRows(divide: (real, real) -> real, h: Trail, k: nat)
    requires Sized(h) && Ordered(h.members) && k <= |h.states|
    ensures var j := JournalAt(divide, h, k); j.refs.Keys == j.states.Keys == j.dashboard.Keys == EventIds(h.members, k)
    ensures forall i :: 0 <= i < k ==> RowsAt(divide, h, JournalAt(divide, h, k), i)
    ensures k > 0 ==> TablesWithin(JournalAt(divide, h, k - 1), JournalAt(divide, h, k))
    decreases k
  {
    if k == 0 {
      assert EventIds(h.members, k) == {};
    } else {
      hide JournalAt, Booked, RowsAt, TablesWithin, EventIds, Ordered;
      JournalRows(divide, h, k - 1);
      EventIdsStep(h.members, k);
      JournalStepRows(divide, h, k);
      forall i | 0 <= i < k ensures RowsAt(divide, h, JournalAt(divide, h, k), i) {
        if i < k - 1 {
          RowsKeep(divide, h, JournalAt(divide, h, k - 1), JournalAt(divide, h, k), i);
        }
      }
    }
  }

  /** A later journal only adds rows. */
  lemma {:induction false} JournalGrows(divide: (real, real) -> real, h: Trail, k: nat, n: nat)
    requires Sized(h) && Ordered(h.members) && k <= n <= |h.states|
    ensures TablesWithin(JournalAt(divide, h, k), JournalAt(divide, h, n))
    decreases n
  {
    hide JournalAt, Booked, RowsAt;
    if k < n {
      JournalGrows(divide, h, k, n - 1);
      JournalRows(divide, h, n);
      WithinTransitive(JournalAt(divide, h, k), JournalAt(divide, h, n - 1), JournalAt(divide, h, n));
    }
  }
}
