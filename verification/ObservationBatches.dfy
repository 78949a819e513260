/** The observation as it is carried out: open orders are cached in memory, their rows are
    written late, once per batch of candles, and never read in between except by admission.
    The outcome is that of writing every row at once, for every batch size. */
module ObservationBatches {
  import opened Wrappers
  import opened DecimalPolicy
  import opened ExecutionModels
  import opened Timeframes
  import opened Sorting
  import opened Accounting
  import opened Repository
  import opened Gateway
  import opened Observation

  /** Rows that may be stale, the cached orders, and the changes still to be written. */
  datatype Cache = Cache(books: Books, orders: map<Id, Order>, changed: map<Id, Order>)

  function Overlay(rows: map<Id, OrderRow>, changed: map<Id, Order>): map<Id, OrderRow> {
    map id | id in rows :: if id in changed then rows[id].(order := changed[id]) else rows[id]
  }

  /** The books with every pending change written. */
  function View(c: Cache): Books {
    c.books.(ledger := c.books.ledger.(orders := Overlay(c.books.ledger.orders, c.changed)))
  }

  /** A cached order is current. */
  ghost predicate CurrentAt(c: Cache, id: Id) {
    id in c.orders && id in c.books.ledger.orders && c.orders[id] == View(c).ledger.orders[id].order
  }

  ghost predicate Current(c: Cache, ids: seq<Id>) {
    forall i :: 0 <= i < |ids| ==> CurrentAt(c, ids[i])
  }

  lemma {:induction false} OverlayPut(rows: map<Id, OrderRow>, changed: map<Id, Order>, id: Id, row: OrderRow)
    ensures Overlay(rows[id := row], changed[id := row.order]) == Overlay(rows, changed)[id := row]
  {
  }

  lemma {:induction false} OverlayAt(rows: map<Id, OrderRow>, changed: map<Id, Order>, id: Id)
    requires id in rows
    ensures id in Overlay(rows, changed)
    ensures Overlay(rows, changed)[id] == if id in changed then rows[id].(order := changed[id]) else rows[id]
    ensures rows[id].(order := Overlay(rows, changed)[id].order) == Overlay(rows, changed)[id]
  {
  }

  /** Admission reads one order row: whether the others are stale does not matter. */
  lemma {:induction false} AdmitReadsOneRow(m: Market, a: Ledger, b: Ledger, event: ExecutionEvent)
    requires a.(orders := map[]) == b.(orders := map[])
    requires event.orderId in a.orders && event.orderId in b.orders && a.orders[event.orderId] == b.orders[event.orderId]
    ensures var r, s := Admit(m.divide, a, event, m.profile, true), Admit(m.divide, b, event, m.profile, true);
      && (r.Err? ==> s == Err(r.error))
      && (r.Ok? ==>
            && s.Ok? && s.value.0 == r.value.0
            && r.value.1.(orders := map[]) == s.value.1.(orders := map[])
            && event.orderId in r.value.1.orders && event.orderId in s.value.1.orders
            && r.value.1.orders[event.orderId] == s.value.1.orders[event.orderId]
            && r.value.1.orders == a.orders[event.orderId := r.value.1.orders[event.orderId]]
            && s.value.1.orders == b.orders[event.orderId := s.value.1.orders[event.orderId]])
  {
    hide ApplyFill, MatchesOrder, StaleIntent, Economic, Stored, Filled, ValidEvent, HasEvent;
    assert a.account == b.account && a.fills == b.fills && a.active == b.active
        && a.commandSequence == b.commandSequence by {
      assert a.(orders := map[]).account == b.(orders := map[]).account;
      assert a.(orders := map[]).fills == b.(orders := map[]).fills;
      assert a.(orders := map[]).active == b.(orders := map[]).active;
      assert a.(orders := map[]).commandSequence == b.(orders := map[]).commandSequence;
    }
    assert a.orders == a.orders[event.orderId := a.orders[event.orderId]];
    assert b.orders == b.orders[event.orderId := b.orders[event.orderId]];
  }

  /** A proposal put to the ledger through the cache: the row is written, admission reads it
      back, and the cache takes whatever is stored afterwards. */
  method SettleThrough(m: Market, c: Cache, id: Id, event: ExecutionEvent) returns (r: Result<(Books, Order), Fault>)
    requires CurrentAt(c, id) && event.orderId == id && id in View(c).ledger.orders
    ensures var s := Settled(m, View(c), id, event);
      && (s.Err? ==> r == Err(s.error))
      && (s.Ok? ==> r.Ok? && id in s.value.ledger.orders && r.value.1 == s.value.ledger.orders[id].order
                    && id in r.value.0.ledger.orders
                    && View(c.(books := r.value.0, changed := c.changed[id := r.value.1])) == s.value)
  {
    hide Admit, Soft, Overlay;
    ghost var rows, view := c.books.ledger.orders, View(c);
    OverlayAt(rows, c.changed, id);
    var written := PutOrder(c.books.ledger, id, c.orders[id]);
    AdmitReadsOneRow(m, written, view.ledger, event);
    var admitted := Admit(m.divide, written, event, m.profile, true);
    if admitted.Err? && !Soft(admitted.error) {
      return Err(admitted.error);
    }
    var books := c.books;
    if admitted.Err? {
      var order := c.orders[id].(submissionStatus := Rejected, rejectionReason := Some(FillRefused(admitted.error)));
      books := books.(ledger := PutOrder(written, id, order));
    } else {
      books := books.(ledger := admitted.value.1, fills := books.fills + [admitted.value.0]);
    }
    ghost var row := books.ledger.orders[id];
    OverlayPut(rows, c.changed, id, row);
    assert books.ledger.orders == rows[id := row];
    return Ok((books, books.ledger.orders[id].order));
  }

  /** One order on one candle, against the cache. */
  method ObserveCached(m: Market, c: Cache, id: Id, candle: Candle) returns (r: Result<(Cache, bool), Fault>)
    requires CurrentAt(c, id) && Ready(View(c), id)
    ensures var s := ObserveOrder(m, View(c), id, candle);
      && (s.Err? ==> r == Err(s.error))
      && (s.Ok? ==> r.Ok? && View(r.value.0) == s.value && CurrentAt(r.value.0, id)
                    && r.value.0.orders == c.orders[id := s.value.ledger.orders[id].order]
                    && (r.value.1 <==> !Seen(c.orders[id], candle.timestamp) && Terminal(s.value.ledger.orders[id].order)))
  {
    hide Settled, Val, IntentOk, ProposeFill, BucketStart, Overlay;
    ghost var view := View(c);
    OverlayAt(c.books.ledger.orders, c.changed, id);
    var order := c.orders[id];
    if Seen(order, candle.timestamp) {
      assert c.orders[id := order] == c.orders;
      return Ok((c, false));
    }
    if candle.timestamp != Expected(order) {
      return Err(ObservationGap);
    }
    var books := c.books;
    ghost var settled := view;
    ghost var wrote := c.changed;
    var proposal := ProposeFill(m, c.books.ledger.account, order, candle);
    if proposal.Some? {
      ProposalNames(m, c.books.ledger.account, order, candle);
      var s := SettleThrough(m, c, id, proposal.value);
      if s.Err? {
        return Err(s.error);
      }
      SettledOthers(m, view, id, proposal.value);
      books, order := s.value.0, s.value.1;
      settled := Settled(m, view, id, proposal.value).value;
      wrote := c.changed[id := order];
    }
    ghost var rows := books.ledger.orders;
    OverlayAt(rows, wrote, id);
    order := order.(lastObservationAt := Some(candle.timestamp));
    ghost var row := rows[id].(order := order);
    OverlayPut(rows, wrote, id, row);
    OverlayStale(rows, wrote, id, order);
    books := books.(evaluations := books.evaluations + [(id, candle.timestamp)]);
    var next := Cache(books, c.orders[id := order], c.changed[id := order]);
    assert wrote[id := order] == c.changed[id := order];
    OverlayAt(rows, next.changed, id);
    return Ok((next, Terminal(order)));
  }

  /** A row behind a pending change may be stale. */
  lemma {:induction false} OverlayStale(rows: map<Id, OrderRow>, changed: map<Id, Order>, id: Id, order: Order)
    requires id in rows
    ensures Overlay(rows, changed[id := order]) == Overlay(rows[id := rows[id].(order := order)], changed[id := order])
  {
  }

  // ---- one candle ------------------------------------------------------------------

  ghost predicate AllAlive(b: Books, ids: seq<Id>) {
    forall i :: 0 <= i < |ids| ==> Alive(b.ledger.orders)(ids[i])
  }

  function Outside(terminal: seq<Id>): Id -> bool {
    (id: Id) => id !in terminal
  }

  /** The first k orders whose evaluation on this candle ended them. */
  ghost predicate Ended(b: Books, ids: seq<Id>, k: nat, terminal: seq<Id>)
    requires k <= |ids|
  {
    && (forall i :: 0 <= i < k ==> (ids[i] in terminal <==> !Alive(b.ledger.orders)(ids[i])))
    && (forall id :: id in terminal ==> id in ids[..k])
  }

  lemma {:induction false} FilterAgrees(keep: Id -> bool, keep': Id -> bool, ids: seq<Id>)
    requires forall i :: 0 <= i < |ids| ==> keep(ids[i]) == keep'(ids[i])
    ensures Filter(keep, ids) == Filter(keep', ids)
    decreases |ids|
  {
    if ids != [] {
      FilterAgrees(keep, keep', ids[..|ids| - 1]);
    }
  }

  lemma {:induction false} ReadyPrefix(b: Books, ids: seq<Id>, k: nat)
    requires AllReady(b, ids) && k <= |ids|
    ensures AllReady(b, ids[..k]) && (k < |ids| ==> Ready(b, ids[k]) && ids[k] !in ids[..k])
  {
    hide Ready;
  }

  lemma {:induction false} OrdersFailure(m: Market, b: Books, ids: seq<Id>, candle: Candle, k: nat)
    requires AllReady(b, ids) && k <= |ids|
    ensures AllReady(b, ids[..k])
    ensures ObserveOrders(m, b, ids[..k], candle).Err? ==> ObserveOrders(m, b, ids, candle) == ObserveOrders(m, b, ids[..k], candle)
    decreases |ids|
  {
    hide ObserveOrder, Ready, AllReady;
    ReadyPrefix(b, ids, k);
    if k < |ids| {
      var init := ids[..|ids| - 1];
      ReadyPrefix(b, ids, |ids| - 1);
      OrdersFailure(m, b, init, candle, k);
      assert init[..k] == ids[..k];
    } else {
      assert ids[..k] == ids;
    }
  }

  lemma {:induction false} OrdersStep(m: Market, b: Books, ids: seq<Id>, candle: Candle, i: nat)
    requires AllReady(b, ids) && i < |ids|
    ensures AllReady(b, ids[..i]) && AllReady(b, ids[..i + 1])
    ensures var before := ObserveOrders(m, b, ids[..i], candle);
      before.Ok? ==>
        && Ready(before.value, ids[i])
        && before.value.ledger.orders[ids[i]] == b.ledger.orders[ids[i]]
        && ObserveOrders(m, b, ids[..i + 1], candle) == ObserveOrder(m, before.value, ids[i], candle)
  {
    hide ObserveOrder, OrderOk, AllReady;
    ReadyPrefix(b, ids, i);
    ReadyPrefix(b, ids, i + 1);
    assert ids[..i + 1][..i] == ids[..i];
  }

  lemma {:induction false} EndedAll(b: Books, ids: seq<Id>, terminal: seq<Id>)
    requires Ended(b, ids, |ids|, terminal)
    ensures Filter(Outside(terminal), ids) == Filter(Alive(b.ledger.orders), ids)
  {
    hide Terminal;
    FilterAgrees(Outside(terminal), Alive(b.ledger.orders), ids);
  }

  lemma {:induction false} CurrentOne(c: Cache, ids: seq<Id>, i: nat)
    requires Current(c, ids) && i < |ids|
    ensures CurrentAt(c, ids[i])
  {
  }

  /** The open orders on one candle, against the cache. */
  method OrdersCached(m: Market, c0: Cache, ids: seq<Id>, candle: Candle) returns (r: Result<(Cache, seq<Id>), Fault>)
    requires AllReady(View(c0), ids) && Current(c0, ids) && AllAlive(View(c0), ids)
    ensures var s := ObserveOrders(m, View(c0), ids, candle);
      && (s.Err? ==> r == Err(s.error))
      && (s.Ok? ==> r.Ok? && View(r.value.0) == s.value && Current(r.value.0, ids)
                    && r.value.1 == Filter(Alive(s.value.ledger.orders), ids))
  {
    ghost var view := View(c0);
    var c := c0;
    var terminal: seq<Id> := [];
    assert Distinct(ids);
    assert Ended(view, ids, 0, terminal);
    ReadyPrefix(view, ids, 0);
    hide ObserveOrder, OrderOk, Terminal, Seen, Ready, AllReady, Current, Ended, AllAlive, View, Distinct;
    for i := 0 to |ids|
      invariant AllReady(view, ids[..i])
      invariant ObserveOrders(m, view, ids[..i], candle) == Ok(View(c))
      invariant Current(c, ids)
      invariant Ended(View(c), ids, i, terminal)
    {
      OrdersFailure(m, view, ids, candle, i + 1);
      OrdersStep(m, view, ids, candle, i);
      CurrentOne(c, ids, i);
      ghost var before := c;
      ghost var ended := terminal;
      var evaluated := ObserveCached(m, c, ids[i], candle);
      if evaluated.Err? {
        return Err(evaluated.error);
      }
      c := evaluated.value.0;
      if evaluated.value.1 {
        terminal := terminal + [ids[i]];
      }
      SeenIdle(m, View(before), ids[i], candle);
      EndedStep(m, view, before, c, ids, i, candle, ended, terminal);
    }
    assert ids[..|ids|] == ids;
    EndedAll(View(c), ids, terminal);
    return Ok((c, Filter(Outside(terminal), ids)));
  }

  lemma {:induction false} SeenIdle(m: Market, b: Books, id: Id, candle: Candle)
    requires Ready(b, id)
    ensures Seen(b.ledger.orders[id].order, candle.timestamp) ==> ObserveOrder(m, b, id, candle) == Ok(b)
  {
  }

  /** Evaluating one order keeps the cache current and adds the order to the ended ones
      exactly when it ended. */
  lemma {:induction false} EndedStep(m: Market, view: Books, before: Cache, c: Cache, ids: seq<Id>, i: nat, candle: Candle,
                                     ended: seq<Id>, terminal: seq<Id>)
    requires i < |ids| && Distinct(ids) && Current(before, ids) && CurrentAt(c, ids[i])
    requires Ended(View(before), ids, i, ended) && AllAlive(view, ids)
    requires OthersSame(View(before), View(c), [ids[i]])
    requires ids[i] in View(before).ledger.orders && ids[i] in View(c).ledger.orders
    requires View(before).ledger.orders[ids[i]] == view.ledger.orders[ids[i]]
    requires c.orders == before.orders[ids[i] := View(c).ledger.orders[ids[i]].order]
    requires var ends := !Seen(before.orders[ids[i]], candle.timestamp) && Terminal(View(c).ledger.orders[ids[i]].order);
      terminal == if ends then ended + [ids[i]] else ended
    requires Seen(before.orders[ids[i]], candle.timestamp) ==> View(c) == View(before)
    ensures Current(c, ids) && Ended(View(c), ids, i + 1, terminal)
  {
    hide Terminal, Seen, Overlay;
    forall x | 0 <= x < |ids| ensures CurrentAt(c, ids[x]) {
      if x != i {
        assert ids[x] != ids[i];
        assert CurrentAt(before, ids[x]);
        OverlayAt(before.books.ledger.orders, before.changed, ids[x]);
        OverlayKeys(c);
      }
    }
    assert Alive(view.ledger.orders)(ids[i]);
    forall x | 0 <= x < i + 1 ensures ids[x] in terminal <==> !Alive(View(c).ledger.orders)(ids[x]) {
      if x < i {
        assert ids[x] != ids[i];
        assert CurrentAt(before, ids[x]);
        OverlayAt(before.books.ledger.orders, before.changed, ids[x]);
      } else {
        assert ids[i] !in ids[..i];
      }
    }
    assert ids[..i + 1] == ids[..i] + [ids[i]];
  }

  lemma {:induction false} OverlayKeys(c: Cache)
    ensures View(c).ledger.orders.Keys == c.books.ledger.orders.Keys
  {
  }

  // ---- batches of candles ----------------------------------------------------------

  /** The supplied candles are in strictly increasing order. */
  ghost predicate Increasing(candles: seq<Candle>) {
    forall i, j :: 0 <= i < j < |candles| ==> candles[i].timestamp < candles[j].timestamp
  }

  lemma {:induction false} CandlesFailure(m: Market, b: Books, hot: seq<Id>, candles: seq<Candle>, k: nat)
    requires AllReady(b, hot) && k <= |candles|
    ensures ObserveCandles(m, b, hot, candles[..k]).Err? ==> ObserveCandles(m, b, hot, candles) == ObserveCandles(m, b, hot, candles[..k])
    decreases |candles|
  {
    hide ObserveCandle, AllReady;
    if k < |candles| {
      var init := candles[..|candles| - 1];
      CandlesFailure(m, b, hot, init, k);
      assert init[..k] == candles[..k];
    } else {
      assert candles[..k] == candles;
    }
  }

  lemma {:induction false} CandlesStep(m: Market, b: Books, hot: seq<Id>, candles: seq<Candle>, i: nat, next: Books, rest: seq<Id>)
    requires AllReady(b, hot) && i < |candles|
    requires ObserveCandles(m, b, hot, candles[..i]) == Ok((next, rest))
    ensures AllReady(next, rest)
    ensures ObserveCandles(m, b, hot, candles[..i + 1]) == ObserveCandle(m, next, rest, candles[i])
  {
    hide ObserveCandle, AllReady;
    assert candles[..i + 1][..i] == candles[..i];
  }

  /** The marks read at the start of a batch stay right for the candles still to come. */
  ghost predicate MarksCurrent(marks: map<Time, Mark>, books: Books, candles: seq<Candle>, k: nat, end: nat)
    requires k <= end <= |candles|
  {
    forall x :: k <= x < end ==> var at := candles[x].timestamp + MINUTE;
      (at in marks <==> at in books.marks) && (at in marks ==> marks[at] == books.marks[at])
  }

  lemma {:induction false} MarksStep(marks: map<Time, Mark>, books: Books, after: Books, candles: seq<Candle>, k: nat, end: nat)
    requires k < end <= |candles| && Increasing(candles) && MarksCurrent(marks, books, candles, k, end)
    requires forall at :: at != candles[k].timestamp + MINUTE ==>
      (at in after.marks <==> at in books.marks) && (at in books.marks ==> after.marks[at] == books.marks[at])
    ensures MarksCurrent(marks, after, candles, k + 1, end)
  {
  }

  function Valuations(candles: seq<Candle>): set<Time> {
    set i | 0 <= i < |candles| :: candles[i].timestamp + MINUTE
  }

  lemma {:induction false} MarksRead(books: Books, candles: seq<Candle>, start: nat, end: nat)
    requires start <= end <= |candles|
    ensures MarksCurrent(map t | t in books.marks && t in Valuations(candles[start..end]) :: books.marks[t], books, candles, start, end)
  {
    forall x | start <= x < end ensures candles[x].timestamp + MINUTE in Valuations(candles[start..end]) {
      assert candles[start..end][x - start] == candles[x];
    }
  }

  lemma {:induction false} OrdersKeepMarks(m: Market, b: Books, ids: seq<Id>, candle: Candle)
    requires AllReady(b, ids) && ObserveOrders(m, b, ids, candle).Ok?
    ensures ObserveOrders(m, b, ids, candle).value.marks == b.marks
    decreases |ids|
  {
    hide Ready, ProposeFill, Admit, Val, BucketStart;
    if ids != [] {
      ReadyPrefix(b, ids, |ids| - 1);
      OrdersKeepMarks(m, b, ids[..|ids| - 1], candle);
    }
  }

  lemma {:induction false} CurrentRest(c: Cache, ids: seq<Id>, keep: Id -> bool)
    requires Current(c, ids)
    ensures Current(c, Filter(keep, ids))
  {
    hide CurrentAt;
    forall i | 0 <= i < |Filter(keep, ids)| ensures CurrentAt(c, Filter(keep, ids)[i]) {
      FilterKeeps(keep, ids, Filter(keep, ids)[i]);
    }
  }

  lemma {:induction false} AliveRest(b: Books, ids: seq<Id>)
    ensures AllAlive(b, Filter(Alive(b.ledger.orders), ids))
  {
    hide Terminal;
    var rest := Filter(Alive(b.ledger.orders), ids);
    forall i | 0 <= i < |rest| ensures Alive(b.ledger.orders)(rest[i]) {
      FilterKeeps(Alive(b.ledger.orders), ids, rest[i]);
    }
  }

  /** The cache agrees with the candles observed so far. */
  ghost predicate InStep(m: Market, b: Books, hot: seq<Id>, candles: seq<Candle>, k: nat, c: Cache, ids: seq<Id>)
    requires AllReady(b, hot) && k <= |candles|
  {
    && ObserveCandles(m, b, hot, candles[..k]) == Ok((View(c), ids))
    && Current(c, ids) && AllAlive(View(c), ids)
  }

  /** One candle: the open orders, then the mark. */
  method CandleCached(m: Market, c0: Cache, ids: seq<Id>, candle: Candle, marks: map<Time, Mark>) returns (r: Result<(Cache, seq<Id>), Fault>)
    requires AllReady(View(c0), ids) && Current(c0, ids) && AllAlive(View(c0), ids)
    requires var at := candle.timestamp + MINUTE;
      (at in marks <==> at in c0.books.marks) && (at in marks ==> marks[at] == c0.books.marks[at])
    ensures var s := ObserveCandle(m, View(c0), ids, candle);
      && (s.Err? ==> r == Err(s.error))
      && (s.Ok? ==> r.Ok? && (View(r.value.0), r.value.1) == s.value && Current(r.value.0, r.value.1)
                    && AllAlive(View(r.value.0), r.value.1)
                    && forall at :: at != candle.timestamp + MINUTE ==>
                         (at in r.value.0.books.marks <==> at in c0.books.marks)
                         && (at in c0.books.marks ==> r.value.0.books.marks[at] == c0.books.marks[at]))
  {
    hide ObserveOrders, AllReady, Current, AllAlive, Overlay, Alive, CanonicalCandle, Val;
    var observed := OrdersCached(m, c0, ids, candle);
    if observed.Err? {
      return Err(observed.error);
    }
    var (c, rest) := observed.value;
    ghost var middle := View(c);
    OrdersKeepMarks(m, View(c0), ids, candle);
    CurrentRest(c, ids, Alive(middle.ledger.orders));
    AliveRest(middle, ids);
    var at := candle.timestamp + MINUTE;
    if at !in marks {
      var mark := Mark(Val(candle.close), m.now, CanonicalCandle(candle), m.source);
      c := c.(books := c.books.(marks := c.books.marks[at := mark]));
    } else if marks[at].candle != CanonicalCandle(candle) || marks[at].source != m.source || marks[at].price != Val(candle.close) {
      return Err(MarkConflict);
    }
    CurrentMarks(observed.value.0, c, rest);
    AliveMarks(middle, View(c), rest);
    return Ok((c, rest));
  }

  lemma {:induction false} CurrentMarks(c: Cache, c': Cache, ids: seq<Id>)
    requires Current(c, ids) && c' == c.(books := c.books.(marks := c'.books.marks))
    ensures Current(c', ids)
  {
    hide Overlay;
    forall i | 0 <= i < |ids| ensures CurrentAt(c', ids[i]) {
      assert CurrentAt(c, ids[i]);
    }
  }

  lemma {:induction false} AliveMarks(b: Books, b': Books, ids: seq<Id>)
    requires AllAlive(b, ids) && b'.ledger == b.ledger
    ensures AllAlive(b', ids)
  {
  }

  lemma {:induction false} FlushView(c: Cache, ids: seq<Id>)
    requires Current(c, ids)
    ensures var books := c.books.(ledger := c.books.ledger.(orders := Overlay(c.books.ledger.orders, c.changed)));
      View(Cache(books, c.orders, map[])) == View(c) && Current(Cache(books, c.orders, map[]), ids)
  {
    var books := c.books.(ledger := c.books.ledger.(orders := Overlay(c.books.ledger.orders, c.changed)));
    assert Overlay(books.ledger.orders, map[]) == books.ledger.orders;
    forall i | 0 <= i < |ids| ensures CurrentAt(Cache(books, c.orders, map[]), ids[i]) {
      assert CurrentAt(c, ids[i]);
    }
  }

  lemma {:induction false} InStepNext(m: Market, b: Books, hot: seq<Id>, candles: seq<Candle>, k: nat, c: Cache, ids: seq<Id>)
    requires AllReady(b, hot) && k < |candles| && InStep(m, b, hot, candles, k, c, ids)
    ensures AllReady(View(c), ids) && Current(c, ids) && AllAlive(View(c), ids)
    ensures var s := ObserveCandle(m, View(c), ids, candles[k]);
      && (s.Err? ==> ObserveCandles(m, b, hot, candles) == Err(s.error))
      && forall c', ids' :: s == Ok((View(c'), ids')) && Current(c', ids') && AllAlive(View(c'), ids') ==>
           InStep(m, b, hot, candles, k + 1, c', ids')
  {
    hide ObserveCandle, AllReady, Current, AllAlive, View;
    CandlesStep(m, b, hot, candles, k, View(c), ids);
    CandlesFailure(m, b, hot, candles, k + 1);
  }

  /** A batch: its marks are read once, its changed rows are written at the end. */
  method BatchCached(m: Market, ghost b: Books, ghost hot: seq<Id>, c0: Cache, ids0: seq<Id>, start: nat, end: nat)
    returns (r: Result<(Cache, seq<Id>), Fault>)
    requires AllReady(b, hot) && start <= end <= |m.candles| && Increasing(m.candles)
    requires InStep(m, b, hot, m.candles, start, c0, ids0)
    ensures r.Err? ==> ObserveCandles(m, b, hot, m.candles) == Err(r.error)
    ensures r.Ok? ==> InStep(m, b, hot, m.candles, end, r.value.0, r.value.1) && View(r.value.0) == r.value.0.books
  {
    hide ObserveCandles, ObserveCandle, AllReady, InStep, Increasing;
    var batch := m.candles[start..end];
    var marks := map t | t in c0.books.marks && t in Valuations(batch) :: c0.books.marks[t];
    MarksRead(c0.books, m.candles, start, end);
    var c, ids := c0, ids0;
    hide View, Current, AllAlive;
    for k := start to end
      invariant InStep(m, b, hot, m.candles, k, c, ids)
      invariant MarksCurrent(marks, c.books, m.candles, k, end)
    {
      InStepNext(m, b, hot, m.candles, k, c, ids);
      ghost var books := c.books;
      var observed := CandleCached(m, c, ids, m.candles[k], marks);
      if observed.Err? {
        return Err(observed.error);
      }
      c, ids := observed.value.0, observed.value.1;
      MarksStep(marks, books, c.books, m.candles, k, end);
    }
    InStepCurrent(m, b, hot, m.candles, end, c, ids);
    FlushView(c, ids);
    ghost var cached := c;
    var books := c.books.(ledger := c.books.ledger.(orders := Overlay(c.books.ledger.orders, c.changed)));
    c := Cache(books, c.orders, map[]);
    InStepFlush(m, b, hot, m.candles, end, cached, c, ids);
    return Ok((c, ids));
  }

  lemma {:induction false} InStepCurrent(m: Market, b: Books, hot: seq<Id>, candles: seq<Candle>, k: nat, c: Cache, ids: seq<Id>)
    requires AllReady(b, hot) && k <= |candles| && InStep(m, b, hot, candles, k, c, ids)
    ensures Current(c, ids)
  {
  }

  lemma {:induction false} InStepFlush(m: Market, b: Books, hot: seq<Id>, candles: seq<Candle>, k: nat, c: Cache, c': Cache, ids: seq<Id>)
    requires AllReady(b, hot) && k <= |candles| && InStep(m, b, hot, candles, k, c, ids)
    requires View(c') == View(c) && Current(c', ids) && c'.changed == map[]
    ensures InStep(m, b, hot, candles, k, c', ids) && View(c') == c'.books
  {
    hide ObserveCandles, AllReady, Current, AllAlive;
    assert Overlay(c'.books.ledger.orders, map[]) == c'.books.ledger.orders;
  }

  /** The loop of `observe`, for any batch size: it computes the candle-by-candle observation
      that writes every row at once. */
  method Observe(m: Market, b: Books, hot: seq<Id>, batchSize: nat) returns (r: Result<(Books, seq<Id>), Fault>)
    requires batchSize > 0 && AllReady(b, hot) && AllAlive(b, hot) && Increasing(m.candles)
    ensures r == ObserveCandles(m, b, hot, m.candles)
  {
    var c := Cache(b, map i | 0 <= i < |hot| :: hot[i] := b.ledger.orders[hot[i]].order, map[]);
    var ids := hot;
    Loaded(m, b, hot, c);
    hide ObserveCandles, AllReady, InStep, Increasing, View;
    var start := 0;
    while start < |m.candles|
      invariant start <= |m.candles|
      invariant InStep(m, b, hot, m.candles, start, c, ids)
      invariant View(c) == c.books
    {
      var end := if start + batchSize < |m.candles| then start + batchSize else |m.candles|;
      var batch := BatchCached(m, b, hot, c, ids, start, end);
      if batch.Err? {
        return Err(batch.error);
      }
      c, ids := batch.value.0, batch.value.1;
      start := end;
    }
    Finished(m, b, hot, c, ids);
    return Ok((c.books, ids));
  }

  lemma {:induction false} Loaded(m: Market, b: Books, hot: seq<Id>, c: Cache)
    requires AllReady(b, hot) && AllAlive(b, hot) && c.books == b && c.changed == map[]
    requires forall i :: 0 <= i < |hot| ==> hot[i] in c.orders && c.orders[hot[i]] == b.ledger.orders[hot[i]].order
    ensures View(c) == b && InStep(m, b, hot, m.candles, 0, c, hot)
  {
    assert Overlay(b.ledger.orders, map[]) == b.ledger.orders;
    forall i | 0 <= i < |hot| ensures CurrentAt(c, hot[i]) {
      assert Ready(b, hot[i]);
    }
  }

  lemma {:induction false} Finished(m: Market, b: Books, hot: seq<Id>, c: Cache, ids: seq<Id>)
    requires AllReady(b, hot) && InStep(m, b, hot, m.candles, |m.candles|, c, ids)
    ensures ObserveCandles(m, b, hot, m.candles) == Ok((View(c), ids))
  {
    assert m.candles[..|m.candles|] == m.candles;
  }
}
