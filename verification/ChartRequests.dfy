/** Chart requests and when they are admitted: a rebuild admits the requests it has to repeat
    at its own time, everything else about the journal is as live capture wrote it. */
module ChartRequests {
  import opened Wrappers
  import opened ExecutionModels
  import opened TradeProjection
  import opened Journal
  import opened JournalHistory

  type Charts = map<(Id, ChartKind), Chart>

  /** The requests as live capture would have admitted them: on receipt of their fill. */
  function Prompt(charts: Charts): Charts {
    map key | key in charts :: charts[key].(requestAdmittedAt := charts[key].createdAt)
  }

  function OnReceipt(j: Tables): Tables {
    j.(charts := Prompt(j.charts))
  }

  /** Requests that were there are kept, new ones are made on the receipt of the fill. */
  ghost predicate Requested(before: Charts, after: Charts, admitted: Option<Time>, event: ExecutionEvent) {
    && Within(before, after)
    && forall key :: key in after && key !in before ==>
         after[key].createdAt == event.receivedAt && after[key].requestAdmittedAt == AdmittedAt(admitted, event)
  }

  lemma {:induction false} PutPrompt(active: bool, admitted: Option<Time>, charts: Charts, eligible: bool, key: (Id, ChartKind), event: ExecutionEvent)
    ensures var r := PutChart(active, admitted, charts, eligible, key, event);
      var prompt := PutChart(active, None, Prompt(charts), eligible, key, event);
      && (r.Ok? <==> prompt.Ok?) && (r.Err? ==> r.error == prompt.error)
      && (r.Ok? ==> Prompt(r.value) == prompt.value && Requested(charts, r.value, admitted, event))
  {
  }

  lemma {:induction false} PutAllPrompt(active: bool, admitted: Option<Time>, charts: Charts, tradeId: Id, closed: bool, event: ExecutionEvent)
    ensures var r := PutCharts(active, admitted, charts, tradeId, closed, event);
      var prompt := PutCharts(active, None, Prompt(charts), tradeId, closed, event);
      && (r.Ok? <==> prompt.Ok?) && (r.Err? ==> r.error == prompt.error)
      && (r.Ok? ==> Prompt(r.value) == prompt.value && Requested(charts, r.value, admitted, event))
  {
    hide PutChart, Prompt, Requested;
    PutPrompt(active, admitted, charts, event.eventId == tradeId, (tradeId, EntryChart), event);
    var entry := PutChart(active, admitted, charts, event.eventId == tradeId, (tradeId, EntryChart), event);
    if entry.Ok? {
      PutPrompt(active, admitted, entry.value, closed, (tradeId, ExitChart), event);
      var r := PutChart(active, admitted, entry.value, closed, (tradeId, ExitChart), event);
      if r.Ok? {
        RequestedTwice(charts, entry.value, r.value, admitted, event);
      }
    }
  }

  lemma {:induction false} RequestedTwice(a: Charts, b: Charts, c: Charts, admitted: Option<Time>, event: ExecutionEvent)
    requires Requested(a, b, admitted, event) && Requested(b, c, admitted, event)
    ensures Requested(a, c, admitted, event)
  {
  }

  lemma {:induction false} SnapshotSame(divide: (real, real) -> real, table: seq<ExecutionEvent>, j: Tables, j': Tables, s: Account, event: ExecutionEvent)
    requires j.refs == j'.refs && j.dashboard == j'.dashboard
    ensures Snapshot(divide, table, j, s, event) == Snapshot(divide, table, j', s, event)
  {
    hide Displays, DisplayValid, DisplayOf, Latest, PutRow;
  }

  /** The admission time changes nothing but the new requests: a capture has the outcome it
      would have on prompt requests. */
  lemma {:induction false} CapturedPromptly(divide: (real, real) -> real, active: bool, admitted: Option<Time>, table: seq<ExecutionEvent>,
                                            j: Tables, s: Account, event: ExecutionEvent)
    ensures var r := Captured(divide, active, admitted, table, j, s, event);
      var prompt := Captured(divide, active, None, table, OnReceipt(j), s, event);
      && (r.Ok? <==> prompt.Ok?) && (r.Err? ==> r.error == prompt.error)
      && (r.Ok? ==> OnReceipt(r.value) == prompt.value && Requested(j.charts, r.value.charts, admitted, event))
  {
    hide Snapshot, PutCharts, PutHeader, PutRef, PutState, MemberOf, TradeIndex, Prompt, Requested;
    var member := MemberOf(s, event);
    if member.Ok? {
      MemberTrade(s, event);
      CapturedMember(divide, active, admitted, table, j, s, event);
    }
  }

  lemma {:induction false} CapturedMember(divide: (real, real) -> real, active: bool, admitted: Option<Time>, table: seq<ExecutionEvent>,
                                          j: Tables, s: Account, event: ExecutionEvent)
    requires MemberOf(s, event).Ok? && TradeIndex(s.trades, MemberOf(s, event).value.tradeId) < |s.trades|
    ensures var r := Captured(divide, active, admitted, table, j, s, event);
      var prompt := Captured(divide, active, None, table, OnReceipt(j), s, event);
      && (r.Ok? <==> prompt.Ok?) && (r.Err? ==> r.error == prompt.error)
      && (r.Ok? ==> OnReceipt(r.value) == prompt.value && Requested(j.charts, r.value.charts, admitted, event))
  {
    hide Snapshot, PutCharts, PutHeader, PutRef, PutState, MemberOf, TradeIndex, Prompt, Requested, OnReceipt;
    var m := MemberOf(s, event).value;
    var trade := s.trades[TradeIndex(s.trades, m.tradeId)];
    var closed := trade.closedAt.Some?;
    ReceiptFields(j);
    var headers := PutHeader(table, j.headers, m.tradeId);
    if headers.Err? { return; }
    var refs := PutRef(j.refs, event.eventId, Ref(m.tradeId, m.role));
    if refs.Err? { return; }
    var states := PutState(j.states, Row(event.eventId, event.sequence, event.receivedAt, trade));
    if states.Err? { return; }
    PutAllPrompt(active, admitted, j.charts, m.tradeId, closed, event);
    var charts := PutCharts(active, admitted, j.charts, m.tradeId, closed, event);
    if charts.Err? { return; }
    var next := Tables(headers.value, refs.value, states.value, charts.value, j.dashboard);
    ReceiptFields(next);
    SnapshotSame(divide, table, next, OnReceipt(next), s, event);
    var dashboard := Snapshot(divide, table, next, s, event);
    if dashboard.Ok? {
      ReceiptFields(next.(dashboard := dashboard.value));
    }
  }

  lemma {:induction false} ReceiptFields(j: Tables)
    ensures OnReceipt(j) == Tables(j.headers, j.refs, j.states, Prompt(j.charts), j.dashboard)
  {
  }

  lemma {:induction false} MemberTrade(s: Account, event: ExecutionEvent)
    requires MemberOf(s, event).Ok?
    ensures TradeIndex(s.trades, MemberOf(s, event).value.tradeId) < |s.trades|
  {
  }

  // ---- the requests that are due ---------------------------------------------------

  /** The reference journal admits every request on receipt. */
  lemma {:induction false} DueArePrompt(divide: (real, real) -> real, h: Trail, k: nat)
    requires Sized(h) && k <= |h.states|
    ensures OnReceipt(JournalAt(divide, h, k)) == JournalAt(divide, h, k)
    decreases k
  {
    hide Booked, DashboardRow, ReadRow;
    if k > 0 {
      DueArePrompt(divide, h, k - 1);
      assert Prompt(JournalAt(divide, h, k).charts) == JournalAt(divide, h, k).charts;
    }
  }

  lemma {:induction false} NoCharts(divide: (real, real) -> real, h: Trail)
    requires Sized(h)
    ensures JournalAt(divide, h, 0).charts == map[]
  {
  }

  lemma {:induction false} ExtendedCharts(divide: (real, real) -> real, j: Tables, s: Account, members: seq<Member>, key: (Id, ChartKind))
    requires members != [] && Booked(s, members[|members| - 1])
    ensures var charts := Extended(divide, j, s, members).charts;
      && (key in j.charts ==> key in charts && charts[key] == j.charts[key])
      && (key !in j.charts && key in charts ==> charts[key].createdAt == members[|members| - 1].event.receivedAt)
  {
    hide Booked, DashboardRow, ReadRow;
  }

  /** A request that is due was made by one of the fills, on its receipt, and not before. */
  lemma {:induction false} RequestOf(divide: (real, real) -> real, h: Trail, n: nat, key: (Id, ChartKind)) returns (i: nat)
    requires Sized(h) && n <= |h.states| && key in JournalAt(divide, h, n).charts
    ensures i < n && JournalAt(divide, h, n).charts[key].createdAt == h.members[i].event.receivedAt
    ensures key !in JournalAt(divide, h, i).charts && key in JournalAt(divide, h, i + 1).charts
    decreases n
  {
    hide Booked, Extended, JournalAt;
    NoCharts(divide, h);
    JournalStep(divide, h, n);
    ExtendedCharts(divide, JournalAt(divide, h, n - 1), h.states[n - 1], h.members[..n], key);
    if key in JournalAt(divide, h, n - 1).charts {
      i := RequestOf(divide, h, n - 1, key);
    } else {
      i := n - 1;
    }
  }

  predicate ChartVisible(chart: Chart, cutoff: Time) {
    chart.createdAt <= cutoff && chart.requestAdmittedAt <= cutoff
  }

  /** The requests due that were created by a cutoff are those of the fills received by it. */
  lemma {:induction false} CreatedByCutoff(divide: (real, real) -> real, h: Trail, k: nat, cutoff: Time, key: (Id, ChartKind))
    requires Sized(h) && Ordered(h.members) && k <= |h.states| && key in JournalAt(divide, h, |h.states|).charts
    requires forall i :: 0 <= i < |h.members| ==> (h.members[i].event.receivedAt <= cutoff <==> i < k)
    ensures JournalAt(divide, h, |h.states|).charts[key].createdAt <= cutoff <==> key in JournalAt(divide, h, k).charts
  {
    hide JournalAt, Booked, Ordered;
    var i := RequestOf(divide, h, |h.states|, key);
    if i < k {
      JournalGrows(divide, h, i + 1, k);
    } else {
      JournalGrows(divide, h, k, i);
    }
  }
}
