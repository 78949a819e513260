/** Which signals of a backtest have been evaluated, when, and with what result. */
module Evaluations {
  import opened Wrappers
  import opened Timeframes
  import opened Sorting
  import opened Resampling
  import opened Visibility
  import opened Backtest

  /** The signal has come to an end by an event of its symbol. */
  predicate EndedAt(event: Event, r: Runtime) {
    && r.candidate.symbol == event.symbol && r.lifecycle.Some?
    && r.lifecycle.value.status in {TpHit, SlHit, Ambiguous, Cancelled}
  }

  /** What the result of an ended signal is: nothing if it was cancelled or never entered,
      otherwise the engine's answer on a visible candle that its lifecycle was decided on. */
  predicate ResultOk(engine: Engine, visible: seq<Candle>, r: Runtime)
    requires r.lifecycle.Some?
  {
    var lifecycle := r.lifecycle.value;
    if lifecycle.status.Cancelled? || r.entry.None? then r.execution.None?
    else
      && r.execution.Some?
      && exists candle :: candle in visible && lifecycle.bar == Some(candle.timestamp)
           && engine.execute(r.candidate, lifecycle, r.entry.value, candle, r.entry.value.sourceBar < candle.timestamp) == Ok(r.execution.value)
  }

  /** What an event of its symbol makes of a signal. */
  ghost predicate Replayed(engine: Engine, visible: seq<Candle>, before: Runtime, after: Runtime) {
    && after.candidate == before.candidate && after.invalidation == before.invalidation
    && var replay := engine.replay(before.candidate, visible, before.invalidation);
    && replay.Ok? && after.lifecycle == Some(replay.value.0)
    && after.entry == (if replay.value.1.Some? then replay.value.1 else before.entry)
    && (after.evaluated <==> before.evaluated || replay.value.0.status in {TpHit, SlHit, Ambiguous, Cancelled})
    && (if after.evaluated && !before.evaluated then ResultOk(engine, visible, after) else after.execution == before.execution)
  }

  lemma {:induction false} FoundCandle(candles: seq<Candle>, t: int)
    ensures var c := CandleAt(candles, t); c.Some? ==> c.value in candles && c.value.timestamp == t
    decreases |candles|
  {
    if candles != [] {
      FoundCandle(candles[1..], t);
    }
  }

  lemma {:induction false} RefreshReplays(engine: Engine, visible: seq<Candle>, before: Runtime)
    requires Refresh(engine, visible, before).Ok?
    ensures Replayed(engine, visible, before, Refresh(engine, visible, before).value)
  {
    hide CandleAt;
    var replay := engine.replay(before.candidate, visible, before.invalidation);
    if replay.value.0.bar.Some? {
      FoundCandle(visible, replay.value.0.bar.value);
    }
  }

  /** An event replays every signal of its symbol and no other. */
  ghost predicate AllReplayed(engine: Engine, view: View, event: Event, before: seq<Runtime>, after: seq<Runtime>) {
    && |after| == |before|
    && forall i :: 0 <= i < |before| ==>
         if before[i].candidate.symbol == event.symbol
         then Replayed(engine, view(event.symbol, before[i].candidate.timeframe, event.at), before[i], after[i])
         else after[i] == before[i]
  }

  lemma {:induction false} RefreshAllReplays(engine: Engine, view: View, event: Event, before: seq<Runtime>)
    requires RefreshAll(engine, view, event, before).Ok?
    ensures AllReplayed(engine, view, event, before, RefreshAll(engine, view, event, before).value)
    decreases |before|
  {
    hide Refresh, Replayed;
    if before != [] {
      var init, last := before[..|before| - 1], before[|before| - 1];
      RefreshAllReplays(engine, view, event, init);
      if last.candidate.symbol == event.symbol {
        RefreshReplays(engine, view(event.symbol, last.candidate.timeframe, event.at), last);
      }
    }
  }

  /** Signals are only added, new ones for the symbol of the event; those there keep everything but
      their invalidation. */
  ghost predicate Awaiting(event: Event, before: seq<Runtime>, after: seq<Runtime>) {
    && |before| <= |after|
    && (forall i :: 0 <= i < |before| ==> after[i] == before[i].(invalidation := after[i].invalidation))
    && forall i :: |before| <= i < |after| ==>
         after[i].candidate.symbol == event.symbol
         && after[i] == Runtime(after[i].candidate, after[i].invalidation, None, None, None, false)
  }

  lemma {:induction false} AdoptAwaits(event: Event, before: seq<Runtime>, candidates: seq<Candidate>)
    requires AdoptAll(before, event.at, candidates).Ok? && forall c :: c in candidates ==> c.symbol == event.symbol
    ensures Awaiting(event, before, AdoptAll(before, event.at, candidates).value)
    decreases |candidates|
  {
    if candidates != [] {
      assert candidates[|candidates| - 1] in candidates;
      AdoptAwaits(event, before, candidates[..|candidates| - 1]);
    }
  }

  lemma {:induction false} InvalidateAwaits(event: Event, before: seq<Runtime>, runtimes: seq<Runtime>, invalidations: seq<(nat, Invalidation)>)
    requires InvalidateAll(runtimes, event, invalidations).Ok? && Awaiting(event, before, runtimes)
    ensures Awaiting(event, before, InvalidateAll(runtimes, event, invalidations).value)
    decreases |invalidations|
  {
    if invalidations != [] {
      InvalidateAwaits(event, before, runtimes, invalidations[..|invalidations| - 1]);
    }
  }

  /** What one event leaves: the signals before it, with new ones of its symbol, all of its symbol
      replayed on what is visible at the event. */
  lemma {:induction false} EventReplays(engine: Engine, view: View, event: Event, before: seq<Runtime>) returns (waiting: seq<Runtime>)
    requires Step(engine, view, event, before).Ok?
    ensures Awaiting(event, before, waiting)
    ensures AllReplayed(engine, view, event, waiting, Step(engine, view, event, before).value)
  {
    hide AdoptAll, InvalidateAll, RefreshAll, CheckCandidates, Awaiting, AllReplayed;
    var output := Evaluated(engine, view, event);
    Checked(engine, event, before, output.candidates);
    AdoptAwaits(event, before, output.candidates);
    var adopted := AdoptAll(before, event.at, output.candidates).value;
    InvalidateAwaits(event, before, adopted, output.invalidations);
    waiting := InvalidateAll(adopted, event, output.invalidations).value;
    RefreshAllReplays(engine, view, event, waiting);
  }

  /** After an event a signal is evaluated exactly if it was before, or is of the event's symbol
      and has come to an end. */
  lemma {:induction false} EvaluatedNow(engine: Engine, view: View, event: Event, before: seq<Runtime>, i: nat)
    requires Step(engine, view, event, before).Ok? && i < |Step(engine, view, event, before).value|
    ensures var after := Step(engine, view, event, before).value;
      after[i].evaluated <==> (i < |before| && before[i].evaluated) || EndedAt(event, after[i])
  {
    hide Step, ResultOk;
    var waiting := EventReplays(engine, view, event, before);
  }

  /** The signal had come to an end at the k-th event. */
  ghost predicate EndedBy(engine: Engine, view: View, events: seq<Event>, k: nat, i: nat)
    requires 0 < k <= |events|
  {
    var r := Run(engine, view, events[..k]);
    r.Ok? && i < |r.value| && EndedAt(events[k - 1], r.value[i])
  }

  /** Over every run: a signal has been evaluated exactly if after some event of its symbol so far
      its lifecycle had reached one of the four terminal statuses. */
  lemma {:induction false} EvaluatedExactly(engine: Engine, view: View, events: seq<Event>, i: nat)
    requires Run(engine, view, events).Ok? && i < |Run(engine, view, events).value|
    ensures Run(engine, view, events).value[i].evaluated
      <==> exists k: nat :: 0 < k <= |events| && EndedBy(engine, view, events, k, i)
    decreases |events|
  {
    hide Step, EndedAt;
    if events != [] {
      var init, last := events[..|events| - 1], events[|events| - 1];
      var before, after := Run(engine, view, init).value, Run(engine, view, events).value;
      assert events[..|events|] == events;
      EvaluatedNow(engine, view, last, before, i);
      assert EndedBy(engine, view, events, |events|, i) == EndedAt(last, after[i]);
      forall k: nat | 0 < k <= |init| ensures EndedBy(engine, view, events, k, i) == EndedBy(engine, view, init, k, i) {
        assert events[..k] == init[..k];
      }
      if i < |before| {
        EvaluatedExactly(engine, view, init, i);
      } else {
        forall k: nat | 0 < k <= |init| ensures !EndedBy(engine, view, init, k, i) {
          FewerBefore(engine, view, init, k);
        }
      }
    }
  }

  lemma {:induction false} FewerBefore(engine: Engine, view: View, events: seq<Event>, k: nat)
    requires k <= |events| && Run(engine, view, events).Ok?
    ensures Run(engine, view, events[..k]).Ok? && |Run(engine, view, events[..k]).value| <= |Run(engine, view, events).value|
  {
    hide Run, Orderly;
    NothingRewritten(engine, view, events, k);
  }

  // ---- the events ------------------------------------------------------------------

  /** One of the candles closes at a moment. */
  ghost predicate ClosesThen(timeframe: Timeframe, candles: seq<Candle>, at: int) {
    exists candle :: candle in candles && candle.timestamp + Duration(timeframe) == at
  }

  lemma {:induction false} ClosesAre(timeframe: Timeframe, symbol: Symbol, candles: seq<Candle>, e: Event)
    ensures e in Closes(timeframe, symbol, candles) <==> e.symbol == symbol && ClosesThen(timeframe, candles, e.at)
    decreases |candles|
  {
    hide Duration;
    if candles != [] {
      var init, last := candles[..|candles| - 1], candles[|candles| - 1];
      ClosesAre(timeframe, symbol, init, e);
      assert candles == init + [last];
    }
  }

  /** The event is the close of an evaluation candle of its symbol. */
  ghost predicate IsClose(total: Total, base: Timeframe, evaluation: Timeframe, sources: Sources, e: Event) {
    ClosesThen(evaluation, EvaluationSeries(total, base, evaluation, sources, e.symbol), e.at)
  }

  lemma {:induction false} SymbolCloses(total: Total, base: Timeframe, evaluation: Timeframe, sources: Sources, symbol: Symbol, e: Event)
    ensures e in Closes(evaluation, symbol, EvaluationSeries(total, base, evaluation, sources, symbol))
      <==> e.symbol == symbol && IsClose(total, base, evaluation, sources, e)
  {
    hide ClosesThen, EvaluationSeries, Closes;
    ClosesAre(evaluation, symbol, EvaluationSeries(total, base, evaluation, sources, symbol), e);
  }

  lemma {:induction false} AllClosesAre(total: Total, base: Timeframe, evaluation: Timeframe, sources: Sources, symbols: seq<Symbol>, e: Event)
    ensures e in AllCloses(total, base, evaluation, sources, symbols) <==> e.symbol in symbols && IsClose(total, base, evaluation, sources, e)
    decreases |symbols|
  {
    hide EvaluationSeries, Closes, IsClose;
    if symbols != [] {
      var init, last := symbols[..|symbols| - 1], symbols[|symbols| - 1];
      AllClosesAre(total, base, evaluation, sources, init, e);
      SymbolCloses(total, base, evaluation, sources, last, e);
      assert symbols == init + [last];
    }
  }

  // ---- each once -------------------------------------------------------------------

  ghost predicate EachOnce<T>(xs: seq<T>) {
    forall i, j :: 0 <= i < j < |xs| ==> xs[i] != xs[j]
  }

  lemma {:induction false} OnceCounts<T>(xs: seq<T>, x: T)
    requires EachOnce(xs)
    ensures multiset(xs)[x] <= 1
    decreases |xs|
  {
    if xs != [] {
      var init, last := xs[..|xs| - 1], xs[|xs| - 1];
      OnceCounts(init, x);
      assert xs == init + [last];
      assert last !in init;
    }
  }

  lemma {:induction false} TwiceCounts<T>(xs: seq<T>, i: nat, j: nat)
    requires i < j < |xs| && xs[i] == xs[j]
    ensures multiset(xs)[xs[j]] >= 2
  {
    var a, b := xs[..j], xs[j..];
    assert xs == a + b && a[i] == xs[j] && b[0] == xs[j];
    assert multiset(xs) == multiset(a) + multiset(b) && xs[j] in multiset(a) && xs[j] in multiset(b);
  }

  lemma {:induction false} CountsOnce<T>(xs: seq<T>)
    requires forall x :: x in xs ==> multiset(xs)[x] <= 1
    ensures EachOnce(xs)
  {
    forall i: nat, j: nat | i < j < |xs| ensures xs[i] != xs[j] {
      if xs[i] == xs[j] {
        TwiceCounts(xs, i, j);
      }
    }
  }

  lemma {:induction false} ClosesOnce(timeframe: Timeframe, symbol: Symbol, candles: seq<Candle>)
    requires Increasing(candles)
    ensures EachOnce(Closes(timeframe, symbol, candles))
    decreases |candles|
  {
    hide Duration;
    if candles != [] {
      var init, last := candles[..|candles| - 1], candles[|candles| - 1];
      ClosesOnce(timeframe, symbol, init);
      ClosesAre(timeframe, symbol, init, Event(last.timestamp + Duration(timeframe), symbol));
    }
  }

  lemma {:induction false} JoinedOnce<T>(a: seq<T>, b: seq<T>)
    requires EachOnce(a) && EachOnce(b) && forall x :: x in b ==> x !in a
    ensures EachOnce(a + b)
  {
    forall i, j | 0 <= i < j < |a + b| ensures (a + b)[i] != (a + b)[j] {
      if i < |a| <= j {
        assert b[j - |a|] in b && a[i] in a;
      }
    }
  }

  lemma {:induction false} AllClosesOnce(total: Total, base: Timeframe, evaluation: Timeframe, sources: Sources, symbols: seq<Symbol>)
    requires Clean(base, sources) && EachOnce(symbols)
    ensures EachOnce(AllCloses(total, base, evaluation, sources, symbols))
    decreases |symbols|
  {
    hide Duration, EvaluationSeries, Closes, Clean, Increasing, IsClose;
    if symbols != [] {
      var init, last := symbols[..|symbols| - 1], symbols[|symbols| - 1];
      AllClosesOnce(total, base, evaluation, sources, init);
      EvaluationIncreasing(total, base, evaluation, sources, last);
      var series := EvaluationSeries(total, base, evaluation, sources, last);
      ClosesOnce(evaluation, last, series);
      forall e | e in Closes(evaluation, last, series) ensures e !in AllCloses(total, base, evaluation, sources, init) {
        ClosesAre(evaluation, last, series, e);
        AllClosesAre(total, base, evaluation, sources, init, e);
      }
      JoinedOnce(AllCloses(total, base, evaluation, sources, init), Closes(evaluation, last, series));
    }
  }

  lemma {:induction false} EvaluationIncreasing(total: Total, base: Timeframe, evaluation: Timeframe, sources: Sources, symbol: Symbol)
    requires Clean(base, sources)
    ensures Increasing(EvaluationSeries(total, base, evaluation, sources, symbol))
  {
    hide SeriesOf, Canonical, Multiple;
    if symbol in sources {
      if Multiple(base, evaluation) {
        SeriesIncreasing(total, base, evaluation, sources[symbol]);
      } else {
        NoSeriesWithoutMultiple(total, base, evaluation, sources[symbol]);
      }
    }
  }

  lemma {:induction false} SortedMembers(table: seq<Event>, events: seq<Event>, e: Event)
    requires multiset(events) == multiset(table)
    ensures e in events <==> e in table
  {
    assert e in multiset(events) <==> e in multiset(table);
  }

  /** Sorting the distinct rows of a table puts them strictly in order. */
  lemma {:induction false} SortedOnce(table: seq<Event>, events: seq<Event>, i: nat, j: nat)
    requires EachOnce(table) && Sorted(EventLe, events) && multiset(events) == multiset(table) && i < j < |events|
    ensures events[i].at < events[j].at || (events[i].at == events[j].at && events[i].symbol < events[j].symbol)
  {
    hide EachOnce;
    forall e | e in events ensures multiset(events)[e] <= 1 {
      OnceCounts(table, e);
    }
    CountsOnce(events);
    assert events[i] != events[j] by { Differ(events, i, j); }
    assert EventLe(events[i], events[j]);
  }

  lemma {:induction false} Differ(events: seq<Event>, i: nat, j: nat)
    requires EachOnce(events) && i < j < |events|
    ensures events[i] != events[j]
  {
  }

  /** The events of a run are the closes of the evaluation candles of its symbols, each once, by
      time and then by symbol. */
  lemma {:induction false} EventsAre(total: Total, base: Timeframe, evaluation: Timeframe, sources: Sources, symbols: seq<Symbol>)
    requires Clean(base, sources) && EachOnce(symbols)
    ensures var events := EventsOf(total, base, evaluation, sources, symbols);
      && (forall e :: e in events <==> e.symbol in symbols && IsClose(total, base, evaluation, sources, e))
      && forall i, j :: 0 <= i < j < |events| ==>
           events[i].at < events[j].at || (events[i].at == events[j].at && events[i].symbol < events[j].symbol)
  {
    hide AllCloses, IsClose, Clean, Sort, EachOnce, Sorted, EventLe;
    var table := AllCloses(total, base, evaluation, sources, symbols);
    var events := Sort(EventLe, table);
    EventsOrdered();
    SortSorts(EventLe, table);
    AllClosesOnce(total, base, evaluation, sources, symbols);
    forall e ensures e in events <==> e.symbol in symbols && IsClose(total, base, evaluation, sources, e) {
      AllClosesAre(total, base, evaluation, sources, symbols, e);
      SortedMembers(table, events, e);
    }
    forall i, j | 0 <= i < j < |events|
      ensures events[i].at < events[j].at || (events[i].at == events[j].at && events[i].symbol < events[j].symbol)
    {
      SortedOnce(table, events, i, j);
    }
  }

  lemma {:induction false} EventsOrdered()
    ensures TotalPreorder(EventLe)
  {
  }
}
