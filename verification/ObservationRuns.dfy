/** Which minutes an observation evaluates, and what repeating it does. */
module ObservationRuns {
  import opened Wrappers
  import opened DecimalPolicy
  import opened ExecutionModels
  import opened Timeframes
  import opened Sorting
  import opened Repository
  import opened Gateway
  import opened Observation
  import opened ObservationBatches

  // ---- the request -----------------------------------------------------------------

  /** Closed, aligned, consecutive minutes ending at the current one. */
  predicate Fresh(m: Market) {
    && m.candles != []
    && (forall i :: 0 <= i < |m.candles| ==> BucketStart(m.candles[i].timestamp, OneMinute) == m.candles[i].timestamp)
    && (forall i :: 0 <= i < |m.candles| - 1 ==> m.candles[i + 1].timestamp == m.candles[i].timestamp + MINUTE)
    && m.candles[|m.candles| - 1].timestamp + MINUTE == BucketStart(m.now, OneMinute)
    && m.candles[|m.candles| - 1].timestamp + MINUTE <= m.now
  }

  /** The hot orders of a symbol in command order. */
  ghost predicate HotList(orders: map<Id, OrderRow>, symbol: Id, ids: seq<Id>) {
    && Distinct(ids)
    && (forall i :: 0 <= i < |ids| ==> ids[i] in orders && Hot(orders[ids[i]].order, symbol))
    && (forall id :: id in orders && Hot(orders[id].order, symbol) ==> id in ids)
    && (forall i, j :: 0 <= i < j < |ids| ==> orders[ids[i]].commandSequence < orders[ids[j]].commandSequence)
  }

  lemma {:induction false} HotReady(b: Books, symbol: Id, ids: seq<Id>)
    requires OrdersOk(b.ledger.orders) && HotList(b.ledger.orders, symbol, ids)
    ensures AllReady(b, ids) && AllAlive(b, ids)
  {
    hide OrderOk;
    forall i | 0 <= i < |ids| ensures Ready(b, ids[i]) && Alive(b.ledger.orders)(ids[i]) {
      assert OrderOk(ids[i], b.ledger.orders[ids[i]]);
    }
  }

  /** `observe` on one account. */
  function ObserveAccount(m: Market, b: Books, hot: seq<Id>): Result<Books, Fault>
    requires AllReady(b, hot)
  {
    if !Fresh(m) then Err(NotReady)
    else if !b.ledger.active then Err(AccountClosed)
    else
      var (next, _) :- ObserveCandles(m, b, hot, m.candles);
      Ok(next)
  }

  lemma {:induction false} FreshIncreasing(candles: seq<Candle>, i: nat, j: nat)
    requires forall x :: 0 <= x < |candles| - 1 ==> candles[x + 1].timestamp == candles[x].timestamp + MINUTE
    requires i < j < |candles|
    ensures candles[i].timestamp < candles[j].timestamp
    decreases j
  {
    if i < j - 1 {
      FreshIncreasing(candles, i, j - 1);
    }
  }

  // ---- evaluations -----------------------------------------------------------------

  function EvaluationsOf(evaluations: seq<(Id, Time)>, id: Id): seq<Time> {
    if evaluations == [] then []
    else
      var last := evaluations[|evaluations| - 1];
      EvaluationsOf(evaluations[..|evaluations| - 1], id) + (if last.0 == id then [last.1] else [])
  }

  /** The candles an order has not seen, in order. */
  function Unseen(order: Order, candles: seq<Candle>): seq<Time> {
    if candles == [] then []
    else
      var last := candles[|candles| - 1];
      Unseen(order, candles[..|candles| - 1]) + (if Seen(order, last.timestamp) then [] else [last.timestamp])
  }

  lemma {:induction false} EvaluationsAppend(evaluations: seq<(Id, Time)>, e: (Id, Time), id: Id)
    ensures EvaluationsOf(evaluations + [e], id) == EvaluationsOf(evaluations, id) + (if e.0 == id then [e.1] else [])
  {
    assert (evaluations + [e])[..|evaluations|] == evaluations;
  }

  /** What evaluating one order adds to the reports and to its row. */
  lemma {:induction false} OneEvaluation(m: Market, b: Books, id: Id, candle: Candle)
    requires Ready(b, id) && ObserveOrder(m, b, id, candle).Ok?
    ensures var order := b.ledger.orders[id].order; var next := ObserveOrder(m, b, id, candle).value;
      && id in next.ledger.orders
      && next.evaluations == (if Seen(order, candle.timestamp) then b.evaluations else b.evaluations + [(id, candle.timestamp)])
      && next.ledger.orders[id].order.lastObservationAt
         == (if Seen(order, candle.timestamp) then order.lastObservationAt else Some(candle.timestamp))
      && (!Seen(order, candle.timestamp) ==> candle.timestamp == Expected(order))
  {
    hide ProposeFill, Val, Admit, BucketStart;
  }

  /** Every order evaluated so far, and what is known about each. */
  ghost predicate Tracked(b0: Books, b: Books, id: Id, candles: seq<Candle>) {
    && id in b0.ledger.orders && id in b.ledger.orders
    && var o0, o := b0.ledger.orders[id].order, b.ledger.orders[id].order;
       var ts := EvaluationsOf(b.evaluations, id);
       && ts == Unseen(o0, candles)
       && o.acceptedAt == o0.acceptedAt
       && o.lastObservationAt == (if ts == [] then o0.lastObservationAt else Some(ts[|ts| - 1]))
       && InARow(o0, ts)
  }

  /** Consecutive minutes, starting with the first one due. */
  ghost predicate InARow(order: Order, ts: seq<Time>) {
    && (ts != [] ==> ts[0] == Expected(order))
    && forall i :: 0 <= i < |ts| - 1 ==> ts[i + 1] == ts[i] + MINUTE
  }

  lemma {:induction false} SeenAgain(o0: Order, o: Order, candles: seq<Candle>, t: Time)
    requires forall i :: 0 <= i < |candles| ==> candles[i].timestamp < t
    requires var ts := Unseen(o0, candles);
      o.acceptedAt == o0.acceptedAt && o.lastObservationAt == (if ts == [] then o0.lastObservationAt else Some(ts[|ts| - 1]))
    ensures Seen(o, t) <==> Seen(o0, t)
  {
    var ts := Unseen(o0, candles);
    if ts != [] {
      UnseenMember(o0, candles, |ts| - 1);
    }
  }

  lemma {:induction false} UnseenMember(order: Order, candles: seq<Candle>, i: nat)
    requires i < |Unseen(order, candles)|
    ensures exists k :: 0 <= k < |candles| && candles[k].timestamp == Unseen(order, candles)[i] && !Seen(order, candles[k].timestamp)
    decreases |candles|
  {
    var init := candles[..|candles| - 1];
    if i < |Unseen(order, init)| {
      UnseenMember(order, init, i);
      var k :| 0 <= k < |init| && init[k].timestamp == Unseen(order, init)[i] && !Seen(order, init[k].timestamp);
      assert candles[k].timestamp == Unseen(order, candles)[i];
    } else {
      assert candles[|candles| - 1].timestamp == Unseen(order, candles)[i];
    }
  }

  /** One candle, for one tracked order among the open ones. */
  lemma {:induction false} TrackedStep(m: Market, b0: Books, b: Books, ids: seq<Id>, candle: Candle, id: Id, candles: seq<Candle>)
    requires AllReady(b, ids) && ObserveOrders(m, b, ids, candle).Ok? && id in ids
    requires forall i :: 0 <= i < |candles| ==> candles[i].timestamp < candle.timestamp
    requires Tracked(b0, b, id, candles)
    ensures Tracked(b0, ObserveOrders(m, b, ids, candle).value, id, candles + [candle])
    decreases |ids|
  {
    hide ObserveOrder, BucketStart, Ready;
    var init, last := ids[..|ids| - 1], ids[|ids| - 1];
    ReadyPrefix(b, ids, |ids| - 1);
    OrdersStep(m, b, ids, candle, |ids| - 1);
    assert ids[..|ids| - 1 + 1] == ids;
    var mid := ObserveOrders(m, b, init, candle).value;
    OneEvaluation(m, mid, last, candle);
    var next := ObserveOrder(m, mid, last, candle).value;
    if id == last {
      OthersUntracked(m, b, init, candle, id);
      TrackedLast(m, b0, b, mid, next, id, candle, candles);
    } else {
      assert id in init;
      TrackedStep(m, b0, b, init, candle, id, candles);
      if mid.evaluations != next.evaluations {
        EvaluationsAppend(mid.evaluations, (last, candle.timestamp), id);
      }
    }
  }

  lemma {:induction false} OthersUntracked(m: Market, b: Books, ids: seq<Id>, candle: Candle, id: Id)
    requires AllReady(b, ids) && ObserveOrders(m, b, ids, candle).Ok? && id !in ids
    ensures EvaluationsOf(ObserveOrders(m, b, ids, candle).value.evaluations, id) == EvaluationsOf(b.evaluations, id)
    decreases |ids|
  {
    hide ObserveOrder, BucketStart, Ready, AllReady, OthersSame, Seen;
    if ids != [] {
      var init, last := ids[..|ids| - 1], ids[|ids| - 1];
      assert last in ids && id !in init;
      ReadyPrefix(b, ids, |ids| - 1);
      OrdersStep(m, b, ids, candle, |ids| - 1);
      assert ids[..|ids| - 1 + 1] == ids;
      OthersUntracked(m, b, init, candle, id);
      var mid := ObserveOrders(m, b, init, candle).value;
      OneEvaluation(m, mid, last, candle);
      EvaluationsAppend(mid.evaluations, (last, candle.timestamp), id);
    }
  }

  lemma {:induction false} InARowExtends(o0: Order, o: Order, ts: seq<Time>, t: Time)
    requires InARow(o0, ts) && o.acceptedAt == o0.acceptedAt && t == Expected(o)
    requires o.lastObservationAt == (if ts == [] then o0.lastObservationAt else Some(ts[|ts| - 1]))
    ensures InARow(o0, ts + [t])
  {
    hide BucketStart;
  }

  lemma {:induction false} TrackedLast(m: Market, b0: Books, b: Books, mid: Books, next: Books, id: Id, candle: Candle, candles: seq<Candle>)
    requires forall i :: 0 <= i < |candles| ==> candles[i].timestamp < candle.timestamp
    requires Tracked(b0, b, id, candles)
    requires id in mid.ledger.orders && mid.ledger.orders[id] == b.ledger.orders[id]
    requires EvaluationsOf(mid.evaluations, id) == EvaluationsOf(b.evaluations, id)
    requires Ready(mid, id) && ObserveOrder(m, mid, id, candle) == Ok(next)
    ensures Tracked(b0, next, id, candles + [candle])
  {
    hide BucketStart, Ready, ObserveOrder, Seen, InARow, Expected, Evolves;
    var o0, o := b0.ledger.orders[id].order, mid.ledger.orders[id].order;
    var ts := EvaluationsOf(b.evaluations, id);
    OneEvaluation(m, mid, id, candle);
    EvaluationsAppend(mid.evaluations, (id, candle.timestamp), id);
    SeenAgain(o0, o, candles, candle.timestamp);
    assert (candles + [candle])[..|candles|] == candles;
    ObserveOrderEvolves(m, mid, id, candle);
    EvolvesAt(mid.ledger.orders, next.ledger.orders, id);
    if Seen(o, candle.timestamp) {
      assert EvaluationsOf(next.evaluations, id) == ts;
    } else {
      InARowExtends(o0, o, ts, candle.timestamp);
      assert EvaluationsOf(next.evaluations, id) == ts + [candle.timestamp];
    }
  }

  lemma {:induction false} EvolvesAt(orders: map<Id, OrderRow>, orders': map<Id, OrderRow>, id: Id)
    requires Evolves(orders, orders') && id in orders
    ensures id in orders' && RowEvolves(orders[id], orders'[id])
  {
  }

  // ---- whole observations ----------------------------------------------------------

  /** An order evaluated on the first j candles and no later. */
  ghost predicate StoppedAt(b0: Books, b: Books, id: Id, candles: seq<Candle>, j: nat) {
    j <= |candles| && Tracked(b0, b, id, candles[..j])
  }

  ghost predicate AllTracked(b0: Books, b: Books, hot: seq<Id>, rest: seq<Id>, candles: seq<Candle>) {
    && (forall id :: id in hot ==> exists j :: StoppedAt(b0, b, id, candles, j))
    && (forall id :: id in rest ==> id in hot && StoppedAt(b0, b, id, candles, |candles|))
  }

  lemma {:induction false} TrackedMarks(b0: Books, b: Books, b': Books, id: Id, candles: seq<Candle>)
    requires Tracked(b0, b, id, candles) && b'.ledger == b.ledger && b'.evaluations == b.evaluations
    ensures Tracked(b0, b', id, candles)
  {
  }

  lemma {:induction false} TrackedOther(m: Market, b0: Books, b: Books, rest: seq<Id>, candle: Candle, id: Id, candles: seq<Candle>)
    requires AllReady(b, rest) && ObserveOrders(m, b, rest, candle).Ok? && id !in rest
    requires Tracked(b0, b, id, candles)
    ensures Tracked(b0, ObserveOrders(m, b, rest, candle).value, id, candles)
  {
    hide ObserveOrders, InARow, Unseen, AllReady;
    OthersUntracked(m, b, rest, candle, id);
  }

  /** Tracking one order across one candle: it is evaluated if it is still open. */
  lemma {:induction false} StoppedStep(m: Market, b0: Books, b: Books, rest: seq<Id>, candles: seq<Candle>, id: Id, j: nat)
    requires candles != [] && AllReady(b, rest) && ObserveCandle(m, b, rest, candles[|candles| - 1]).Ok?
    requires StoppedAt(b0, b, id, candles[..|candles| - 1], j) && (id in rest ==> j == |candles| - 1)
    requires forall i :: 0 <= i < |candles| - 1 ==> candles[i].timestamp < candles[|candles| - 1].timestamp
    ensures var next := ObserveCandle(m, b, rest, candles[|candles| - 1]).value.0;
      StoppedAt(b0, next, id, candles, if id in rest then |candles| else j)
  {
    hide ObserveOrders, Tracked, AllReady, Alive, CanonicalCandle;
    var n := |candles| - 1;
    var init, last := candles[..n], candles[n];
    var observed := ObserveOrders(m, b, rest, last).value;
    assert init[..j] == candles[..j];
    if id in rest {
      assert init[..n] == init && candles == init + [last] && candles[..n + 1] == candles;
      TrackedStep(m, b0, b, rest, last, id, init);
      TrackedMarks(b0, observed, ObserveCandle(m, b, rest, last).value.0, id, candles);
    } else {
      TrackedOther(m, b0, b, rest, last, id, candles[..j]);
      TrackedMarks(b0, observed, ObserveCandle(m, b, rest, last).value.0, id, candles[..j]);
    }
  }

  lemma {:induction false} CandlesTracked(m: Market, b0: Books, hot: seq<Id>, candles: seq<Candle>)
    requires AllReady(b0, hot) && b0.evaluations == [] && Increasing(candles)
    requires ObserveCandles(m, b0, hot, candles).Ok?
    ensures var (b, rest) := ObserveCandles(m, b0, hot, candles).value; AllTracked(b0, b, hot, rest, candles)
    decreases |candles|
  {
    hide ObserveCandle, AllReady, StoppedAt;
    if candles == [] {
      Untracked(b0, hot);
    } else {
      var n := |candles| - 1;
      var init, last := candles[..n], candles[n];
      CandlesTracked(m, b0, hot, init);
      var (b, rest) := ObserveCandles(m, b0, hot, init).value;
      var (b', rest') := ObserveCandles(m, b0, hot, candles).value;
      RestShrinks(m, b, rest, last);
      assert ObserveCandle(m, b, rest, last) == Ok((b', rest'));
      forall id | id in hot ensures exists j :: StoppedAt(b0, b', id, candles, j) {
        var j := Stop(b0, b, hot, rest, init, id);
        StoppedStep(m, b0, b, rest, candles, id, j);
      }
      forall id | id in rest' ensures id in hot && StoppedAt(b0, b', id, candles, |candles|) {
        StoppedStep(m, b0, b, rest, candles, id, n);
      }
    }
  }

  lemma {:induction false} Stop(b0: Books, b: Books, hot: seq<Id>, rest: seq<Id>, candles: seq<Candle>, id: Id) returns (j: nat)
    requires AllTracked(b0, b, hot, rest, candles) && id in hot
    ensures StoppedAt(b0, b, id, candles, j) && (id in rest ==> j == |candles|)
  {
    hide StoppedAt;
    if id in rest {
      j := |candles|;
    } else {
      var k :| StoppedAt(b0, b, id, candles, k);
      j := k;
    }
  }

  lemma {:induction false} Untracked(b0: Books, hot: seq<Id>)
    requires AllReady(b0, hot) && b0.evaluations == []
    ensures AllTracked(b0, b0, hot, hot, [])
  {
    forall id | id in hot ensures StoppedAt(b0, b0, id, [], 0) {
      var i :| 0 <= i < |hot| && hot[i] == id;
      assert Ready(b0, hot[i]);
      var none: seq<Candle> := [];
      assert none[..0] == none;
    }
  }

  lemma {:induction false} RestShrinks(m: Market, b: Books, rest: seq<Id>, candle: Candle)
    requires AllReady(b, rest) && ObserveCandle(m, b, rest, candle).Ok?
    ensures forall id :: id in ObserveCandle(m, b, rest, candle).value.1 ==> id in rest
  {
    hide ObserveOrders, Marked, Alive, AllReady;
    var next := ObserveOrders(m, b, rest, candle).value;
    forall id | id in Filter(Alive(next.ledger.orders), rest) ensures id in rest {
      FilterKeeps(Alive(next.ledger.orders), rest, id);
    }
  }

  /** The evaluations of an order over some candles, given the orders still open after them. */
  ghost predicate Consecutive(b0: Books, b: Books, rest: seq<Id>, candles: seq<Candle>, id: Id) {
    && id in b0.ledger.orders && id in b.ledger.orders
    && var order, ts := b0.ledger.orders[id].order, EvaluationsOf(b.evaluations, id);
       && InARow(order, ts)
       && (exists j :: 0 <= j <= |candles| && ts == Unseen(order, candles[..j]))
       && (id in rest ==> ts == Unseen(order, candles))
       && b.ledger.orders[id].order.lastObservationAt == (if ts == [] then order.lastObservationAt else Some(ts[|ts| - 1]))
  }

  /** No minute is skipped or repeated. The evaluations of every open order are consecutive
      minutes from the first one due; they are exactly the candles it had not seen, up to the
      one that ended it, and all of them if it is still open. */
  lemma {:induction false} MinutesInARow(m: Market, b0: Books, hot: seq<Id>)
    requires AllReady(b0, hot) && b0.evaluations == [] && Increasing(m.candles)
    requires ObserveCandles(m, b0, hot, m.candles).Ok?
    ensures var (b, rest) := ObserveCandles(m, b0, hot, m.candles).value;
      forall id :: id in hot ==> Consecutive(b0, b, rest, m.candles, id)
  {
    hide ObserveCandles, AllReady, InARow, Unseen, EvaluationsOf, Increasing;
    CandlesTracked(m, b0, hot, m.candles);
    var (b, rest) := ObserveCandles(m, b0, hot, m.candles).value;
    forall id | id in hot ensures Consecutive(b0, b, rest, m.candles, id) {
      var j := Stop(b0, b, hot, rest, m.candles, id);
      assert m.candles[..|m.candles|] == m.candles;
    }
  }

  // ---- repeating an observation ----------------------------------------------------

  /** An order no longer open after some candles has ended. */
  lemma {:induction false} ClosedOrdersEnded(m: Market, b0: Books, hot: seq<Id>, candles: seq<Candle>)
    requires AllReady(b0, hot) && ObserveCandles(m, b0, hot, candles).Ok?
    ensures var (b, rest) := ObserveCandles(m, b0, hot, candles).value;
      && b.ledger.orders.Keys == b0.ledger.orders.Keys
      && (forall id :: id in rest ==> id in hot)
      && (forall id :: id in b0.ledger.orders && id !in hot ==> b.ledger.orders[id] == b0.ledger.orders[id])
      && (forall id :: id in hot && id !in rest ==> id in b.ledger.orders && Terminal(b.ledger.orders[id].order))
    decreases |candles|
  {
    hide ObserveCandle, AllReady, Terminal;
    if candles != [] {
      ClosedOrdersEnded(m, b0, hot, candles[..|candles| - 1]);
      var (b, rest) := ObserveCandles(m, b0, hot, candles[..|candles| - 1]).value;
      CandleEnds(m, b, rest, candles[|candles| - 1]);
    }
  }

  lemma {:induction false} CandleEnds(m: Market, b: Books, rest: seq<Id>, candle: Candle)
    requires AllReady(b, rest) && ObserveCandle(m, b, rest, candle).Ok?
    ensures var (next, left) := ObserveCandle(m, b, rest, candle).value;
      && OthersSame(b, next, rest)
      && (forall id :: id in left ==> id in rest)
      && (forall id :: id in rest && id !in left ==> id in next.ledger.orders && Terminal(next.ledger.orders[id].order))
  {
    hide ObserveOrders, AllReady, Terminal, CanonicalCandle;
    var next := ObserveOrders(m, b, rest, candle).value;
    ReadyKeys(b, rest);
    forall id ensures id in Filter(Alive(next.ledger.orders), rest) <==> Alive(next.ledger.orders)(id) && id in rest {
      FilterKeeps(Alive(next.ledger.orders), rest, id);
    }
  }

  lemma {:induction false} ReadyKeys(b: Books, ids: seq<Id>)
    requires AllReady(b, ids)
    ensures forall id :: id in ids ==> id in b.ledger.orders
  {
    forall id | id in ids ensures id in b.ledger.orders {
      var i :| 0 <= i < |ids| && ids[i] == id;
      assert Ready(b, ids[i]);
    }
  }

  lemma {:induction false} UnseenLast(order: Order, candles: seq<Candle>, k: nat)
    requires Increasing(candles) && k < |candles| && !Seen(order, candles[k].timestamp)
    ensures var ts := Unseen(order, candles); ts != [] && candles[k].timestamp <= ts[|ts| - 1]
    decreases |candles|
  {
    hide Seen;
    var n := |candles| - 1;
    if k < n {
      UnseenLast(order, candles[..n], k);
    }
  }

  /** An order still open has seen every candle of the observation. */
  lemma {:induction false} NothingNew(b0: Books, b: Books, rest: seq<Id>, candles: seq<Candle>, id: Id, k: nat)
    requires Consecutive(b0, b, rest, candles, id) && id in rest && Increasing(candles) && k < |candles|
    requires RowEvolves(b0.ledger.orders[id], b.ledger.orders[id])
    ensures Seen(b.ledger.orders[id].order, candles[k].timestamp)
  {
    hide InARow, Increasing;
    var order := b0.ledger.orders[id].order;
    if !Seen(order, candles[k].timestamp) {
      UnseenLast(order, candles, k);
    }
  }

  /** Every candle of an observation is marked with its own content. */
  ghost predicate MarkedAll(b: Books, source: Id, candles: seq<Candle>) {
    forall k :: 0 <= k < |candles| ==> MarkedWith(b, source, candles[k])
  }

  ghost predicate MarkedWith(b: Books, source: Id, candle: Candle) {
    var at := candle.timestamp + MINUTE;
    at in b.marks && b.marks[at].candle == CanonicalCandle(candle) && b.marks[at].source == source
    && b.marks[at].price == Val(candle.close)
  }

  lemma {:induction false} MarkHolds(m: Market, b: Books, candle: Candle)
    requires Marked(m, b, candle).Ok?
    ensures var next := Marked(m, b, candle).value;
      MarkedWith(next, m.source, candle) && forall other :: MarkedWith(b, m.source, other) ==> MarkedWith(next, m.source, other)
  {
    hide CanonicalCandle, Val;
  }

  lemma {:induction false} CandlesMarked(m: Market, b0: Books, hot: seq<Id>, candles: seq<Candle>)
    requires AllReady(b0, hot) && ObserveCandles(m, b0, hot, candles).Ok?
    ensures MarkedAll(ObserveCandles(m, b0, hot, candles).value.0, m.source, candles)
    decreases |candles|
  {
    hide ObserveOrders, AllReady, CanonicalCandle, Alive, Marked, MarkedWith;
    if candles != [] {
      var n := |candles| - 1;
      CandlesMarked(m, b0, hot, candles[..n]);
      var (b, rest) := ObserveCandles(m, b0, hot, candles[..n]).value;
      var observed := ObserveOrders(m, b, rest, candles[n]).value;
      OrdersKeepMarks(m, b, rest, candles[n]);
      MarkHolds(m, observed, candles[n]);
      var next := ObserveCandles(m, b0, hot, candles).value.0;
      forall k | 0 <= k < |candles| ensures MarkedWith(next, m.source, candles[k]) {
        if k < n {
          assert MarkedWith(b, m.source, candles[..n][k]);
          SameMarks(b, observed, m.source, candles[k]);
        }
      }
    }
  }

  lemma {:induction false} SameMarks(b: Books, b': Books, source: Id, candle: Candle)
    requires b'.marks == b.marks && MarkedWith(b, source, candle)
    ensures MarkedWith(b', source, candle)
  {
    hide CanonicalCandle, Val;
  }

  lemma {:induction false} AllSameMarks(b: Books, b': Books, source: Id, candles: seq<Candle>)
    requires b'.marks == b.marks && MarkedAll(b, source, candles)
    ensures MarkedAll(b', source, candles)
  {
    hide MarkedWith;
    forall k | 0 <= k < |candles| ensures MarkedWith(b', source, candles[k]) {
      SameMarks(b, b', source, candles[k]);
    }
  }

  lemma {:induction false} OrdersIdle(m: Market, b: Books, ids: seq<Id>, candle: Candle)
    requires AllReady(b, ids)
    requires forall id :: id in ids && id in b.ledger.orders ==> Seen(b.ledger.orders[id].order, candle.timestamp)
    ensures ObserveOrders(m, b, ids, candle) == Ok(b)
    decreases |ids|
  {
    hide Ready, Seen, ObserveOrder;
    if ids != [] {
      ReadyPrefix(b, ids, |ids| - 1);
      OrdersIdle(m, b, ids[..|ids| - 1], candle);
      SeenIdle(m, b, ids[|ids| - 1], candle);
      ReadyKeys(b, ids);
    }
  }

  lemma {:induction false} KeepAll(keep: Id -> bool, ids: seq<Id>)
    requires forall i :: 0 <= i < |ids| ==> keep(ids[i])
    ensures Filter(keep, ids) == ids
    decreases |ids|
  {
    if ids != [] {
      var init, last := ids[..|ids| - 1], ids[|ids| - 1];
      KeepAll(keep, init);
      assert ids == init + [last];
    }
  }

  lemma {:induction false} CandlesIdle(m: Market, b: Books, ids: seq<Id>, candles: seq<Candle>)
    requires AllReady(b, ids) && (forall id :: id in ids ==> Alive(b.ledger.orders)(id))
    requires forall id, k :: id in ids && id in b.ledger.orders && 0 <= k < |candles| ==>
      Seen(b.ledger.orders[id].order, candles[k].timestamp)
    requires MarkedAll(b, m.source, candles)
    ensures ObserveCandles(m, b, ids, candles) == Ok((b, ids))
    decreases |candles|
  {
    hide Ready, Seen, ObserveOrders, CanonicalCandle, AllReady, Alive;
    if candles != [] {
      var n := |candles| - 1;
      assert MarkedAll(b, m.source, candles[..n]) by {
        hide MarkedWith;
        forall k | 0 <= k < n ensures MarkedWith(b, m.source, candles[..n][k]) {
          assert candles[..n][k] == candles[k];
        }
      }
      CandlesIdle(m, b, ids, candles[..n]);
      OrdersIdle(m, b, ids, candles[n]);
      KeepAll(Alive(b.ledger.orders), ids);
      assert MarkedWith(b, m.source, candles[n]);
    }
  }

  /** The candles once more: no fill, no evaluation, no mark and no order moves. */
  lemma {:induction false} CandlesAgain(m: Market, again: Market, b0: Books, hot: seq<Id>, b: Books, rest: seq<Id>, later: Books, hot': seq<Id>)
    requires OrdersOk(b0.ledger.orders) && HotList(b0.ledger.orders, m.symbol, hot) && b0.evaluations == []
    requires AllReady(b0, hot) && Increasing(m.candles) && ObserveCandles(m, b0, hot, m.candles) == Ok((b, rest))
    requires again.candles == m.candles && again.source == m.source && again.symbol == m.symbol
    requires HotList(b.ledger.orders, m.symbol, hot') && AllReady(later, hot')
    requires later.ledger.orders == b.ledger.orders && later.marks == b.marks
    ensures ObserveCandles(again, later, hot', again.candles) == Ok((later, hot'))
  {
    hide ObserveCandles, AllReady, Increasing, OrderOk, MarkedAll, Consecutive, Seen, RowEvolves;
    ClosedOrdersEnded(m, b0, hot, m.candles);
    MinutesInARow(m, b0, hot);
    CandlesMarked(m, b0, hot, m.candles);
    ObserveCandlesEvolves(m, b0, hot, m.candles);
    forall id | id in hot' ensures Alive(b.ledger.orders)(id) && id in rest && id in hot {
      StillHot(b0.ledger.orders, b.ledger.orders, m.symbol, hot, rest, hot', id);
    }
    forall id, k | id in hot' && id in b.ledger.orders && 0 <= k < |m.candles|
      ensures Seen(b.ledger.orders[id].order, m.candles[k].timestamp)
    {
      NothingNew(b0, b, rest, m.candles, id, k);
    }
    AllSameMarks(b, later, m.source, m.candles);
    CandlesIdle(again, later, hot', m.candles);
  }

  /** What a later call finds: the same books, new reports, and an account that may have been
      closed in between. */
  function Later(b: Books, open: bool): Books {
    b.(ledger := b.ledger.(active := open), fills := [], evaluations := [])
  }

  lemma {:induction false} LaterReady(b: Books, open: bool, ids: seq<Id>)
    requires AllReady(b, ids)
    ensures AllReady(Later(b, open), ids)
  {
    hide OrderOk;
    forall i | 0 <= i < |ids| ensures Ready(Later(b, open), ids[i]) {
      assert Ready(b, ids[i]);
    }
  }

  lemma {:induction false} FreshRises(m: Market)
    requires Fresh(m)
    ensures Increasing(m.candles)
  {
    forall i, j | 0 <= i < j < |m.candles| ensures m.candles[i].timestamp < m.candles[j].timestamp {
      FreshIncreasing(m.candles, i, j);
    }
  }

  /** A repeated observation of the same candles, whatever identifiers it draws: refused once the
      minute is over or the account is closed; until then it makes no fill, evaluates no order and
      leaves every row and mark as it is. */
  lemma {:induction false} RepeatedObservationIsIdle(m: Market, again: Market, b0: Books, hot: seq<Id>, b: Books, open: bool, hot': seq<Id>)
    requires OrdersOk(b0.ledger.orders) && HotList(b0.ledger.orders, m.symbol, hot) && b0.evaluations == []
    requires AllReady(b0, hot) && ObserveAccount(m, b0, hot) == Ok(b)
    requires again.candles == m.candles && again.source == m.source && again.symbol == m.symbol
    requires HotList(b.ledger.orders, m.symbol, hot') && AllReady(b, hot')
    ensures AllReady(Later(b, open), hot')
    ensures var minute := BucketStart(m.now, OneMinute);
      ObserveAccount(again, Later(b, open), hot')
      == if BucketStart(again.now, OneMinute) != minute || again.now < minute then Err(NotReady)
         else if !open then Err(AccountClosed)
         else Ok(Later(b, open))
  {
    hide ObserveCandles, AllReady, Increasing, OrderOk, HotList, OrdersOk, BucketStart;
    LaterReady(b, open, hot');
    FreshRises(m);
    var (next, rest) := ObserveCandles(m, b0, hot, m.candles).value;
    CandlesAgain(m, again, b0, hot, b, rest, Later(b, open), hot');
  }

  /** Orders hot after the observation were hot before it and have not ended. */
  lemma {:induction false} StillHot(orders: map<Id, OrderRow>, orders': map<Id, OrderRow>, symbol: Id, hot: seq<Id>, rest: seq<Id>, hot': seq<Id>, id: Id)
    requires HotList(orders, symbol, hot) && HotList(orders', symbol, hot') && id in hot' && orders.Keys == orders'.Keys
    requires forall other :: other in orders && other !in hot ==> orders'[other] == orders[other]
    requires forall other :: other in hot && other !in rest ==> other in orders' && Terminal(orders'[other].order)
    ensures id in hot && id in rest && Alive(orders')(id)
  {
    hide Val;
    var i :| 0 <= i < |hot'| && hot'[i] == id;
    assert Hot(orders'[id].order, symbol);
  }

  // ---- the hot orders --------------------------------------------------------------

  /** Command sequences are handed out once, counting up. */
  ghost predicate Sequenced(l: Ledger) {
    && (forall id :: id in l.orders ==> 1 <= l.orders[id].commandSequence <= l.commandSequence)
    && (forall a, b :: a in l.orders && b in l.orders && l.orders[a].commandSequence == l.orders[b].commandSequence ==> a == b)
  }

  predicate HasSequence(orders: map<Id, OrderRow>, n: nat) {
    exists id :: id in orders && orders[id].commandSequence == n
  }

  /** `_observation_orders`: the rows in command order, keeping the hot ones. */
  method ObservationOrders(l: Ledger, symbol: Id) returns (ids: seq<Id>)
    requires Sequenced(l)
    ensures HotList(l.orders, symbol, ids)
  {
    hide Hot;
    ids := [];
    for n := 1 to l.commandSequence + 1
      invariant forall i :: 0 <= i < |ids| ==>
        ids[i] in l.orders && l.orders[ids[i]].commandSequence < n && Hot(l.orders[ids[i]].order, symbol)
      invariant forall i, j :: 0 <= i < j < |ids| ==> l.orders[ids[i]].commandSequence < l.orders[ids[j]].commandSequence
      invariant forall id :: id in l.orders && l.orders[id].commandSequence < n && Hot(l.orders[id].order, symbol) ==> id in ids
    {
      if HasSequence(l.orders, n) {
        var id :| id in l.orders && l.orders[id].commandSequence == n;
        if Hot(l.orders[id].order, symbol) {
          ids := ids + [id];
        }
      }
    }
  }
}
