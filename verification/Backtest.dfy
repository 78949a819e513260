/** The sequential replay of closed candles through a pure strategy engine. */
module Backtest {
  import opened Wrappers
  import opened Timeframes
  import opened Sorting
  import opened Resampling
  import opened IncrementalResampling
  import opened Visibility

  /** A market symbol, by its rank in the order of symbol names. */
  type Symbol = nat

  datatype Candidate = Candidate(id: nat, symbol: Symbol, timeframe: Timeframe, createdAt: int, strategy: nat, content: nat)

  datatype Invalidation = Invalidation(confirmedAt: int, content: nat)

  datatype Status = Waiting | Active | TpHit | SlHit | Ambiguous | Cancelled

  /** A lifecycle replayed over the visible candles. Its last event names the candle it was
      decided on, if any. */
  datatype Lifecycle = Lifecycle(status: Status, bar: Option<int>, terminalAt: Option<int>, content: nat)

  datatype Entry = Entry(sourceBar: int, content: nat)

  datatype Execution = Execution(content: nat)

  datatype Runtime = Runtime(candidate: Candidate, invalidation: Option<Invalidation>, lifecycle: Option<Lifecycle>,
    entry: Option<Entry>, execution: Option<Execution>, evaluated: bool)

  datatype Context = Context(symbol: Symbol, asOf: int, candles: map<Timeframe, seq<Candle>>)

  datatype Output = Output(evaluatedAt: int, strategy: Option<nat>, candidates: seq<Candidate>, invalidations: seq<(nat, Invalidation)>)

  datatype BacktestError =
    | WrongMoment | WrongStrategy | WrongSymbol | NoSeries | LateReveal | LateCandidate | ReusedId
    | UnknownCandidate | LateInvalidation | RewrittenInvalidation | EntryChanged | NoSourceCandle | NotVisible
    | Raised(error: nat)

  /** The engine and the helpers it is run with: any pure functions. */
  datatype Engine = Engine(
    evaluate: Context -> Output,
    replay: (Candidate, seq<Candle>, Option<Invalidation>) -> Result<(Lifecycle, Option<Entry>), nat>,
    execute: (Candidate, Lifecycle, Entry, Candle, bool) -> Result<Execution, nat>,
    strategy: nat,
    required: seq<Timeframe>)

  datatype Event = Event(at: int, symbol: Symbol)

  /** What is visible of a series at a moment. */
  type View = (Symbol, Timeframe, int) -> seq<Candle>

  // ---- one event -------------------------------------------------------------------

  /** Position of the signal with a key, in insertion order. */
  function Find(runtimes: seq<Runtime>, symbol: Symbol, id: nat): (r: Option<nat>)
    ensures r.Some? ==> r.value < |runtimes| && HasKey(runtimes[r.value], symbol, id)
    ensures r.None? ==> forall i :: 0 <= i < |runtimes| ==> !HasKey(runtimes[i], symbol, id)
  {
    if runtimes == [] then None
    else
      var n := |runtimes| - 1;
      if HasKey(runtimes[n], symbol, id) then Some(n) else Find(runtimes[..n], symbol, id)
  }

  predicate HasKey(runtime: Runtime, symbol: Symbol, id: nat) {
    runtime.candidate.symbol == symbol && runtime.candidate.id == id
  }

  /** `_validate_strategy_output`, for the candidates. */
  function CheckCandidates(engine: Engine, event: Event, runtimes: seq<Runtime>, candidates: seq<Candidate>): Result<(), BacktestError> {
    if candidates == [] then Ok(())
    else
      var c := candidates[0];
      if c.strategy != engine.strategy then Err(WrongStrategy)
      else if c.symbol != event.symbol then Err(WrongSymbol)
      else if c.timeframe !in engine.required then Err(NoSeries)
      else if Find(runtimes, c.symbol, c.id).None? && c.createdAt < event.at then Err(LateReveal)
      else CheckCandidates(engine, event, runtimes, candidates[1..])
  }

  function CheckOutput(engine: Engine, event: Event, runtimes: seq<Runtime>, output: Output): Result<(), BacktestError> {
    if output.evaluatedAt != event.at then Err(WrongMoment)
    else if output.strategy.Some? && output.strategy.value != engine.strategy then Err(WrongStrategy)
    else CheckCandidates(engine, event, runtimes, output.candidates)
  }

  function Fresh(candidate: Candidate): Runtime {
    Runtime(candidate, None, None, None, None, false)
  }

  function Adopt(runtimes: seq<Runtime>, at: int, candidate: Candidate): Result<seq<Runtime>, BacktestError> {
    match Find(runtimes, candidate.symbol, candidate.id)
    case None => if candidate.createdAt != at then Err(LateCandidate) else Ok(runtimes + [Fresh(candidate)])
    case Some(i) => if runtimes[i].candidate != candidate then Err(ReusedId) else Ok(runtimes)
  }

  function AdoptAll(runtimes: seq<Runtime>, at: int, candidates: seq<Candidate>): Result<seq<Runtime>, BacktestError> {
    if candidates == [] then Ok(runtimes)
    else
      var before :- AdoptAll(runtimes, at, candidates[..|candidates| - 1]);
      Adopt(before, at, candidates[|candidates| - 1])
  }

  function Invalidate(runtimes: seq<Runtime>, event: Event, id: nat, invalidation: Invalidation): Result<seq<Runtime>, BacktestError> {
    match Find(runtimes, event.symbol, id)
    case None => Err(UnknownCandidate)
    case Some(i) =>
      if runtimes[i].invalidation.None? then
        if invalidation.confirmedAt != event.at then Err(LateInvalidation)
        else Ok(runtimes[i := runtimes[i].(invalidation := Some(invalidation))])
      else if runtimes[i].invalidation.value != invalidation then Err(RewrittenInvalidation)
      else Ok(runtimes)
  }

  function InvalidateAll(runtimes: seq<Runtime>, event: Event, invalidations: seq<(nat, Invalidation)>): Result<seq<Runtime>, BacktestError> {
    if invalidations == [] then Ok(runtimes)
    else
      var before :- InvalidateAll(runtimes, event, invalidations[..|invalidations| - 1]);
      var last := invalidations[|invalidations| - 1];
      Invalidate(before, event, last.0, last.1)
  }

  predicate Terminal(status: Status) {
    status.TpHit? || status.SlHit? || status.Ambiguous? || status.Cancelled?
  }

  /** The first visible candle that opens at a moment. */
  function CandleAt(candles: seq<Candle>, t: int): Option<Candle> {
    if candles == [] then None
    else if candles[0].timestamp == t then Some(candles[0])
    else CandleAt(candles[1..], t)
  }

  /** `_evaluate_execution`. */
  function Execute(engine: Engine, candidate: Candidate, lifecycle: Lifecycle, visible: seq<Candle>, entry: Option<Entry>)
    : Result<Option<Execution>, BacktestError>
  {
    if lifecycle.status.Cancelled? || entry.None? then Ok(None)
    else if lifecycle.bar.None? || lifecycle.terminalAt.None? then Err(NoSourceCandle)
    else
      match CandleAt(visible, lifecycle.bar.value)
      case None => Err(NotVisible)
      case Some(candle) =>
        match engine.execute(candidate, lifecycle, entry.value, candle, entry.value.sourceBar < candle.timestamp)
        case Err(error) => Err(Raised(error))
        case Ok(execution) => Ok(Some(execution))
  }

  /** The lifecycle of one signal replayed on what is visible now. */
  function Refresh(engine: Engine, visible: seq<Candle>, runtime: Runtime): Result<Runtime, BacktestError> {
    match engine.replay(runtime.candidate, visible, runtime.invalidation)
    case Err(error) => Err(Raised(error))
    case Ok(replayed) =>
      if replayed.1.Some? && runtime.entry.Some? && runtime.entry != replayed.1 then Err(EntryChanged)
      else
        var entry := if replayed.1.Some? then replayed.1 else runtime.entry;
        var next := runtime.(lifecycle := Some(replayed.0), entry := entry);
        if runtime.evaluated || !Terminal(replayed.0.status) then Ok(next)
        else
          var execution :- Execute(engine, runtime.candidate, replayed.0, visible, entry);
          Ok(next.(execution := execution, evaluated := true))
  }

  function RefreshAll(engine: Engine, view: View, event: Event, runtimes: seq<Runtime>): Result<seq<Runtime>, BacktestError> {
    if runtimes == [] then Ok([])
    else
      var before :- RefreshAll(engine, view, event, runtimes[..|runtimes| - 1]);
      var runtime := runtimes[|runtimes| - 1];
      if runtime.candidate.symbol != event.symbol then Ok(before + [runtime])
      else
        var refreshed :- Refresh(engine, view(event.symbol, runtime.candidate.timeframe, event.at), runtime);
        Ok(before + [refreshed])
  }

  function Evaluated(engine: Engine, view: View, event: Event): Output {
    engine.evaluate(Context(event.symbol, event.at, map t | t in engine.required :: view(event.symbol, t, event.at)))
  }

  function Step(engine: Engine, view: View, event: Event, runtimes: seq<Runtime>): Result<seq<Runtime>, BacktestError> {
    var output := Evaluated(engine, view, event);
    var _ :- CheckOutput(engine, event, runtimes, output);
    var adopted :- AdoptAll(runtimes, event.at, output.candidates);
    var invalidated :- InvalidateAll(adopted, event, output.invalidations);
    RefreshAll(engine, view, event, invalidated)
  }

  /** The loop over the events. */
  function Run(engine: Engine, view: View, events: seq<Event>): Result<seq<Runtime>, BacktestError> {
    if events == [] then Ok([])
    else
      var before :- Run(engine, view, events[..|events| - 1]);
      Step(engine, view, events[|events| - 1], before)
  }

  // ---- what a run depends on -------------------------------------------------------

  /** Two views show the same at an event. */
  ghost predicate Agree(v: View, w: View, event: Event) {
    forall t :: v(event.symbol, t, event.at) == w(event.symbol, t, event.at)
  }

  lemma {:induction false} RefreshDepends(engine: Engine, v: View, w: View, event: Event, runtimes: seq<Runtime>)
    requires Agree(v, w, event)
    ensures RefreshAll(engine, v, event, runtimes) == RefreshAll(engine, w, event, runtimes)
    decreases |runtimes|
  {
    hide Refresh;
    if runtimes != [] {
      RefreshDepends(engine, v, w, event, runtimes[..|runtimes| - 1]);
    }
  }

  lemma {:induction false} StepDepends(engine: Engine, v: View, w: View, event: Event, runtimes: seq<Runtime>)
    requires Agree(v, w, event)
    ensures Step(engine, v, event, runtimes) == Step(engine, w, event, runtimes)
  {
    hide CheckOutput, AdoptAll, InvalidateAll, RefreshAll;
    var seen := map t | t in engine.required :: v(event.symbol, t, event.at);
    assert seen == map t | t in engine.required :: w(event.symbol, t, event.at);
    var output := Evaluated(engine, v, event);
    var adopted := AdoptAll(runtimes, event.at, output.candidates);
    if adopted.Ok? {
      var invalidated := InvalidateAll(adopted.value, event, output.invalidations);
      if invalidated.Ok? {
        RefreshDepends(engine, v, w, event, invalidated.value);
      }
    }
  }

  lemma {:induction false} RunDepends(engine: Engine, v: View, w: View, events: seq<Event>)
    requires forall e :: e in events ==> Agree(v, w, e)
    ensures Run(engine, v, events) == Run(engine, w, events)
    decreases |events|
  {
    hide Step, Agree;
    if events != [] {
      var init, last := events[..|events| - 1], events[|events| - 1];
      assert last in events;
      forall e | e in init ensures Agree(v, w, e) {
        assert e in events;
      }
      RunDepends(engine, v, w, init);
      if Run(engine, v, init).Ok? {
        StepDepends(engine, v, w, last, Run(engine, v, init).value);
      }
    }
  }

  // ---- indexed prefixes ------------------------------------------------------------

  /** Canonical source candles per symbol. */
  type Sources = map<Symbol, seq<Candle>>

  ghost predicate Clean(base: Timeframe, sources: Sources) {
    forall s :: s in sources ==> Canonical(base, sources[s])
  }

  function FilteredView(total: Total, base: Timeframe, sources: Sources): View {
    (s: Symbol, t: Timeframe, at: int) => if s in sources then Visible(t, at, SeriesOf(total, base, t, sources[s])) else []
  }

  function IndexedView(total: Total, base: Timeframe, sources: Sources): View {
    (s: Symbol, t: Timeframe, at: int) => if s in sources then Indexed(t, at, SeriesOf(total, base, t, sources[s])) else []
  }

  lemma {:induction false} NoSeriesWithoutMultiple(total: Total, base: Timeframe, t: Timeframe, candles: seq<Candle>)
    requires !Multiple(base, t)
    ensures SeriesOf(total, base, t, candles) == []
  {
    hide BucketStart, Duration, Multiple;
  }

  /** The run with indexed prefixes is the reference run. */
  lemma {:induction false} IndexedIsReference(engine: Engine, total: Total, base: Timeframe, sources: Sources, events: seq<Event>)
    requires Clean(base, sources)
    ensures Run(engine, IndexedView(total, base, sources), events) == Run(engine, FilteredView(total, base, sources), events)
  {
    hide Canonical, SeriesOf, Indexed, Visible, Multiple, Run, Increasing;
    var v, w := IndexedView(total, base, sources), FilteredView(total, base, sources);
    forall e | e in events ensures Agree(v, w, e) {
      if e.symbol in sources {
        forall t ensures v(e.symbol, t, e.at) == w(e.symbol, t, e.at) {
          if Multiple(base, t) {
            SeriesIncreasing(total, base, t, sources[e.symbol]);
          } else {
            NoSeriesWithoutMultiple(total, base, t, sources[e.symbol]);
            NoneIncreasing();
          }
          IndexedIsVisible(t, e.at, SeriesOf(total, base, t, sources[e.symbol]));
        }
      }
    }
    RunDepends(engine, v, w, events);
  }

  lemma {:induction false} NoneIncreasing()
    ensures Increasing([])
  {
  }

  // ---- no look-ahead ---------------------------------------------------------------

  predicate EventLe(a: Event, b: Event) {
    a.at < b.at || (a.at == b.at && a.symbol <= b.symbol)
  }

  function Closes(timeframe: Timeframe, symbol: Symbol, candles: seq<Candle>): seq<Event> {
    if candles == [] then []
    else Closes(timeframe, symbol, candles[..|candles| - 1]) + [Event(candles[|candles| - 1].timestamp + Duration(timeframe), symbol)]
  }

  function EvaluationSeries(total: Total, base: Timeframe, evaluation: Timeframe, sources: Sources, symbol: Symbol): seq<Candle> {
    if symbol in sources then SeriesOf(total, base, evaluation, sources[symbol]) else []
  }

  /** A close of every evaluation candle of every symbol, the symbols in any order. */
  function AllCloses(total: Total, base: Timeframe, evaluation: Timeframe, sources: Sources, symbols: seq<Symbol>): seq<Event> {
    if symbols == [] then []
    else
      AllCloses(total, base, evaluation, sources, symbols[..|symbols| - 1])
      + Closes(evaluation, symbols[|symbols| - 1], EvaluationSeries(total, base, evaluation, sources, symbols[|symbols| - 1]))
  }

  /** `_evaluation_events`. */
  function EventsOf(total: Total, base: Timeframe, evaluation: Timeframe, sources: Sources, symbols: seq<Symbol>): seq<Event> {
    Sort(EventLe, AllCloses(total, base, evaluation, sources, symbols))
  }

  function UpTo(cutoff: int): Event -> bool {
    (e: Event) => e.at <= cutoff
  }

  /** The history known at a moment. */
  function KnownBy(base: Timeframe, sources: Sources, cutoff: int): Sources {
    map s | s in sources :: Visible(base, cutoff, sources[s])
  }

  lemma {:induction false} FilterAppend<T>(keep: T -> bool, a: seq<T>, b: seq<T>)
    ensures Filter(keep, a + b) == Filter(keep, a) + Filter(keep, b)
    decreases |b|
  {
    if b == [] {
      assert a + b == a;
    } else {
      assert (a + b)[..|a + b| - 1] == a + b[..|b| - 1];
      FilterAppend(keep, a, b[..|b| - 1]);
    }
  }

  lemma {:induction false} KeptOne<T>(keep: T -> bool, rows: seq<T>, row: T)
    requires keep(row)
    ensures Filter(keep, rows + [row]) == Filter(keep, rows) + [row]
  {
    assert (rows + [row])[..|rows|] == rows;
  }

  lemma {:induction false} ClosesAppend(timeframe: Timeframe, symbol: Symbol, candles: seq<Candle>, candle: Candle)
    ensures Closes(timeframe, symbol, candles + [candle])
         == Closes(timeframe, symbol, candles) + [Event(candle.timestamp + Duration(timeframe), symbol)]
  {
    assert (candles + [candle])[..|candles|] == candles;
  }

  lemma {:induction false} ClosesCut(timeframe: Timeframe, symbol: Symbol, candles: seq<Candle>, cutoff: int)
    ensures Closes(timeframe, symbol, Visible(timeframe, cutoff, candles)) == Filter(UpTo(cutoff), Closes(timeframe, symbol, candles))
    decreases |candles|
  {
    hide Duration, Closes, Filter;
    if candles == [] {
      NothingVisible(timeframe, cutoff);
      NoCloses(timeframe, symbol, cutoff);
    } else {
      var init, last := candles[..|candles| - 1], candles[|candles| - 1];
      assert candles == init + [last];
      ClosesCut(timeframe, symbol, init, cutoff);
      var event := Event(last.timestamp + Duration(timeframe), symbol);
      ClosesAppend(timeframe, symbol, init, last);
      if last.timestamp + Duration(timeframe) <= cutoff {
        KeptOne(ClosedBy(timeframe, cutoff), init, last);
        KeptOne(UpTo(cutoff), Closes(timeframe, symbol, init), event);
        ClosesAppend(timeframe, symbol, Visible(timeframe, cutoff, init), last);
      } else {
        NotKept(ClosedBy(timeframe, cutoff), init, last);
        NotKept(UpTo(cutoff), Closes(timeframe, symbol, init), event);
      }
    }
  }

  lemma {:induction false} NoCloses(timeframe: Timeframe, symbol: Symbol, cutoff: int)
    ensures Closes(timeframe, symbol, []) == [] && Filter(UpTo(cutoff), []) == []
  {
  }

  /** What is visible of a derived series, for any target. */
  lemma {:induction false} PointInTimeAlways(total: Total, base: Timeframe, t: Timeframe, candles: seq<Candle>, asOf: int)
    requires Canonical(base, candles)
    ensures Visible(t, asOf, SeriesOf(total, base, t, candles)) == SeriesOf(total, base, t, Visible(base, asOf, candles))
  {
    hide Canonical, SeriesOf, Multiple, Duration;
    if Multiple(base, t) {
      PointInTime(total, base, t, candles, asOf);
    } else {
      NoSeriesWithoutMultiple(total, base, t, candles);
      NoSeriesWithoutMultiple(total, base, t, Visible(base, asOf, candles));
    }
  }

  lemma {:induction false} AllClosesCut(total: Total, base: Timeframe, evaluation: Timeframe, sources: Sources, symbols: seq<Symbol>, cutoff: int)
    requires Clean(base, sources)
    ensures AllCloses(total, base, evaluation, KnownBy(base, sources, cutoff), symbols)
         == Filter(UpTo(cutoff), AllCloses(total, base, evaluation, sources, symbols))
    decreases |symbols|
  {
    hide Canonical, SeriesOf, Visible, Closes;
    if symbols != [] {
      var init, s := symbols[..|symbols| - 1], symbols[|symbols| - 1];
      AllClosesCut(total, base, evaluation, sources, init, cutoff);
      var series := EvaluationSeries(total, base, evaluation, sources, s);
      ClosesCut(evaluation, s, series, cutoff);
      FilterAppend(UpTo(cutoff), AllCloses(total, base, evaluation, sources, init), Closes(evaluation, s, series));
      if s in sources {
        PointInTimeAlways(total, base, evaluation, sources[s], cutoff);
      } else {
        NothingVisible(evaluation, cutoff);
      }
    }
  }

  lemma {:induction false} NothingVisible(timeframe: Timeframe, cutoff: int)
    ensures Visible(timeframe, cutoff, []) == []
  {
  }

  /** Events up to a moment come first. */
  lemma {:induction false} EarlyFirst(events: seq<Event>, cutoff: int)
    requires Sorted(EventLe, events)
    ensures Filter(UpTo(cutoff), events) <= events
    decreases |events|
  {
    hide Sorted;
    if events != [] {
      var init, last := events[..|events| - 1], events[|events| - 1];
      SortedInit(events);
      if last.at <= cutoff {
        AllUpTo(events, cutoff);
        KeepsAll(UpTo(cutoff), events);
      } else {
        EarlyFirst(init, cutoff);
        assert events == init + [last];
        NotKept(UpTo(cutoff), init, last);
      }
    }
  }

  lemma {:induction false} SortedInit(events: seq<Event>)
    requires events != [] && Sorted(EventLe, events)
    ensures Sorted(EventLe, events[..|events| - 1])
  {
  }

  lemma {:induction false} AllUpTo(events: seq<Event>, cutoff: int)
    requires events != [] && Sorted(EventLe, events) && events[|events| - 1].at <= cutoff
    ensures forall e :: e in events ==> UpTo(cutoff)(e)
  {
    forall e | e in events ensures UpTo(cutoff)(e) {
      var i :| 0 <= i < |events| && events[i] == e;
      assert i == |events| - 1 || EventLe(events[i], events[|events| - 1]);
    }
  }

  /** The events of the history known at a moment are the first ones, up to that moment. */
  lemma {:induction false} EarlyEvents(total: Total, base: Timeframe, evaluation: Timeframe, sources: Sources, symbols: seq<Symbol>, cutoff: int)
    requires Clean(base, sources)
    ensures var all := EventsOf(total, base, evaluation, sources, symbols);
      && EventsOf(total, base, evaluation, KnownBy(base, sources, cutoff), symbols) == Filter(UpTo(cutoff), all)
      && Filter(UpTo(cutoff), all) <= all
  {
    hide AllCloses, Clean, KnownBy, Sorted;
    AllClosesCut(total, base, evaluation, sources, symbols, cutoff);
    var table := AllCloses(total, base, evaluation, sources, symbols);
    SortSorts(EventLe, table);
    QueryRows(EventLe, UpTo(cutoff), table, Sort(EventLe, table));
    EarlyFirst(Sort(EventLe, table), cutoff);
  }

  lemma {:induction false} VisibleTwice(timeframe: Timeframe, early: int, late: int, candles: seq<Candle>)
    requires early <= late
    ensures Visible(timeframe, early, Visible(timeframe, late, candles)) == Visible(timeframe, early, candles)
    decreases |candles|
  {
    hide Duration;
    if candles != [] {
      var init, last := candles[..|candles| - 1], candles[|candles| - 1];
      VisibleTwice(timeframe, early, late, init);
      var kept := Visible(timeframe, late, init);
      if last.timestamp + Duration(timeframe) <= late {
        assert Visible(timeframe, late, candles) == kept + [last];
        FilterAppend(ClosedBy(timeframe, early), kept, [last]);
        FilterAppend(ClosedBy(timeframe, early), init, [last]);
        assert init + [last] == candles;
      } else {
        assert candles == init + [last];
        NotKept(ClosedBy(timeframe, late), init, last);
        NotKept(ClosedBy(timeframe, early), init, last);
      }
    }
  }

  /** The replay never looks ahead: on the history known at any moment, the loop ends in the
      state that the loop on the whole history is in after its events up to that moment,
      refusals included. */
  lemma {:induction false} NoLookAhead(engine: Engine, total: Total, base: Timeframe, evaluation: Timeframe,
    sources: Sources, symbols: seq<Symbol>, cutoff: int)
    requires Clean(base, sources)
    ensures var known := KnownBy(base, sources, cutoff);
      var early, all := EventsOf(total, base, evaluation, known, symbols), EventsOf(total, base, evaluation, sources, symbols);
      && early == Filter(UpTo(cutoff), all) && early <= all
      && Run(engine, FilteredView(total, base, known), early) == Run(engine, FilteredView(total, base, sources), early)
  {
    hide Canonical, SeriesOf, Visible, Run, EventsOf;
    var known := KnownBy(base, sources, cutoff);
    EarlyEvents(total, base, evaluation, sources, symbols, cutoff);
    var early := EventsOf(total, base, evaluation, known, symbols);
    var v, w := FilteredView(total, base, known), FilteredView(total, base, sources);
    forall e | e in early ensures Agree(v, w, e) {
      FilterKeeps(UpTo(cutoff), EventsOf(total, base, evaluation, sources, symbols), e);
      if e.symbol in sources {
        forall t ensures v(e.symbol, t, e.at) == w(e.symbol, t, e.at) {
          var candles := sources[e.symbol];
          VisibleCanonical(base, candles, cutoff);
          PointInTimeAlways(total, base, t, candles, e.at);
          PointInTimeAlways(total, base, t, known[e.symbol], e.at);
          VisibleTwice(base, e.at, cutoff, candles);
        }
      }
    }
    RunDepends(engine, v, w, early);
  }

  // ---- what events change ----------------------------------------------------------

  /** Signals keep their place and their candidate; an invalidation, an entry and an evaluated
      execution, once there, stay. */
  ghost predicate Evolves(before: seq<Runtime>, after: seq<Runtime>) {
    && |before| <= |after|
    && forall i :: 0 <= i < |before| ==> Settled(before[i], after[i])
  }

  predicate Settled(before: Runtime, after: Runtime) {
    && after.candidate == before.candidate
    && (before.invalidation.Some? ==> after.invalidation == before.invalidation)
    && (before.entry.Some? ==> after.entry == before.entry)
    && (before.evaluated ==> after.evaluated && after.execution == before.execution)
  }

  /** A signal and an invalidation date from an event of the symbol, and nothing is executed
      without an evaluation. */
  ghost predicate Sound(engine: Engine, events: seq<Event>, runtime: Runtime) {
    && runtime.candidate.strategy == engine.strategy && runtime.candidate.timeframe in engine.required
    && Event(runtime.candidate.createdAt, runtime.candidate.symbol) in events
    && (runtime.invalidation.Some? ==> Event(runtime.invalidation.value.confirmedAt, runtime.candidate.symbol) in events)
    && (runtime.execution.Some? ==> runtime.evaluated && runtime.entry.Some?)
  }

  /** Every signal is sound, and no two have the same key. */
  ghost predicate Orderly(engine: Engine, events: seq<Event>, runtimes: seq<Runtime>) {
    && (forall i :: 0 <= i < |runtimes| ==> Sound(engine, events, runtimes[i]))
    && forall i, j :: 0 <= i < j < |runtimes| ==> !HasKey(runtimes[j], runtimes[i].candidate.symbol, runtimes[i].candidate.id)
  }

  lemma {:induction false} EvolvesOn(a: seq<Runtime>, b: seq<Runtime>, c: seq<Runtime>)
    requires Evolves(a, b) && Evolves(b, c)
    ensures Evolves(a, c)
  {
    forall i | 0 <= i < |a| ensures Settled(a[i], c[i]) {
      assert Settled(a[i], b[i]) && Settled(b[i], c[i]);
    }
  }

  lemma {:induction false} Checked(engine: Engine, event: Event, runtimes: seq<Runtime>, candidates: seq<Candidate>)
    requires CheckCandidates(engine, event, runtimes, candidates).Ok?
    ensures forall c :: c in candidates ==> c.strategy == engine.strategy && c.symbol == event.symbol && c.timeframe in engine.required
    decreases |candidates|
  {
    if candidates != [] {
      Checked(engine, event, runtimes, candidates[1..]);
    }
  }

  lemma {:induction false} AdoptKeeps(engine: Engine, events: seq<Event>, event: Event, runtimes: seq<Runtime>, candidates: seq<Candidate>)
    requires Orderly(engine, events, runtimes) && event in events && AdoptAll(runtimes, event.at, candidates).Ok?
    requires forall c :: c in candidates ==> c.strategy == engine.strategy && c.symbol == event.symbol && c.timeframe in engine.required
    ensures Evolves(runtimes, AdoptAll(runtimes, event.at, candidates).value)
    ensures Orderly(engine, events, AdoptAll(runtimes, event.at, candidates).value)
    decreases |candidates|
  {
    if candidates != [] {
      var init, last := candidates[..|candidates| - 1], candidates[|candidates| - 1];
      assert last in candidates;
      AdoptKeeps(engine, events, event, runtimes, init);
    }
  }

  lemma {:induction false} InvalidateKeeps(engine: Engine, events: seq<Event>, event: Event, runtimes: seq<Runtime>, invalidations: seq<(nat, Invalidation)>)
    requires Orderly(engine, events, runtimes) && event in events && InvalidateAll(runtimes, event, invalidations).Ok?
    ensures Evolves(runtimes, InvalidateAll(runtimes, event, invalidations).value)
    ensures Orderly(engine, events, InvalidateAll(runtimes, event, invalidations).value)
    decreases |invalidations|
  {
    if invalidations != [] {
      InvalidateKeeps(engine, events, event, runtimes, invalidations[..|invalidations| - 1]);
    }
  }

  lemma {:induction false} RefreshKeeps(engine: Engine, events: seq<Event>, visible: seq<Candle>, runtime: Runtime)
    requires Sound(engine, events, runtime) && Refresh(engine, visible, runtime).Ok?
    ensures Settled(runtime, Refresh(engine, visible, runtime).value) && Sound(engine, events, Refresh(engine, visible, runtime).value)
  {
    hide CandleAt;
  }

  lemma {:induction false} RefreshAllKeeps(engine: Engine, events: seq<Event>, view: View, event: Event, runtimes: seq<Runtime>)
    requires Orderly(engine, events, runtimes) && RefreshAll(engine, view, event, runtimes).Ok?
    ensures |RefreshAll(engine, view, event, runtimes).value| == |runtimes|
    ensures Evolves(runtimes, RefreshAll(engine, view, event, runtimes).value)
    ensures Orderly(engine, events, RefreshAll(engine, view, event, runtimes).value)
    decreases |runtimes|
  {
    hide Refresh, Sound;
    if runtimes != [] {
      var init, last := runtimes[..|runtimes| - 1], runtimes[|runtimes| - 1];
      RefreshAllKeeps(engine, events, view, event, init);
      if last.candidate.symbol == event.symbol {
        RefreshKeeps(engine, events, view(event.symbol, last.candidate.timeframe, event.at), last);
      }
    }
  }

  lemma {:induction false} StepKeeps(engine: Engine, events: seq<Event>, view: View, event: Event, runtimes: seq<Runtime>)
    requires Orderly(engine, events, runtimes) && event in events && Step(engine, view, event, runtimes).Ok?
    ensures Evolves(runtimes, Step(engine, view, event, runtimes).value)
    ensures Orderly(engine, events, Step(engine, view, event, runtimes).value)
  {
    hide AdoptAll, InvalidateAll, RefreshAll, CheckCandidates, Orderly, Evolves;
    var output := Evaluated(engine, view, event);
    Checked(engine, event, runtimes, output.candidates);
    AdoptKeeps(engine, events, event, runtimes, output.candidates);
    var adopted := AdoptAll(runtimes, event.at, output.candidates).value;
    InvalidateKeeps(engine, events, event, adopted, output.invalidations);
    var invalidated := InvalidateAll(adopted, event, output.invalidations).value;
    RefreshAllKeeps(engine, events, view, event, invalidated);
    EvolvesOn(runtimes, adopted, invalidated);
    EvolvesOn(runtimes, invalidated, RefreshAll(engine, view, event, invalidated).value);
  }

  lemma {:induction false} MoreEvents(engine: Engine, events: seq<Event>, event: Event, runtimes: seq<Runtime>)
    requires Orderly(engine, events, runtimes)
    ensures Orderly(engine, events + [event], runtimes)
  {
    forall i | 0 <= i < |runtimes| ensures Sound(engine, events + [event], runtimes[i]) {
      assert Sound(engine, events, runtimes[i]);
    }
  }

  /** A run that succeeded has succeeded at every earlier event, with every signal as it still
      is: candidates, invalidations, entries and executions are set once. Signals and
      invalidations date from the event that first showed them, and keys are distinct. */
  lemma {:induction false} NothingRewritten(engine: Engine, view: View, events: seq<Event>, k: nat)
    requires k <= |events| && Run(engine, view, events).Ok?
    ensures Run(engine, view, events[..k]).Ok?
    ensures Evolves(Run(engine, view, events[..k]).value, Run(engine, view, events).value)
    ensures Orderly(engine, events, Run(engine, view, events).value)
    decreases |events|
  {
    hide Step, Orderly;
    if k == |events| {
      assert events[..k] == events;
    }
    if events == [] {
      NoSignals(engine);
    } else {
      var init, last := events[..|events| - 1], events[|events| - 1];
      assert events == init + [last];
      var before := Run(engine, view, init).value;
      var j := if k < |events| then k else |init|;
      NothingRewritten(engine, view, init, j);
      assert init[..j] == events[..j];
      MoreEvents(engine, init, last, before);
      StepKeeps(engine, events, view, last, before);
      EvolvesOn(Run(engine, view, init[..j]).value, before, Run(engine, view, events).value);
    }
  }

  lemma {:induction false} NoSignals(engine: Engine)
    ensures Orderly(engine, [], [])
  {
  }

  // ---- the loop --------------------------------------------------------------------

  method CheckLoop(engine: Engine, event: Event, runtimes: seq<Runtime>, output: Output) returns (r: Result<(), BacktestError>)
    ensures r == CheckOutput(engine, event, runtimes, output)
  {
    hide Find;
    if output.evaluatedAt != event.at {
      return Err(WrongMoment);
    }
    if output.strategy.Some? && output.strategy.value != engine.strategy {
      return Err(WrongStrategy);
    }
    for i := 0 to |output.candidates|
      invariant CheckCandidates(engine, event, runtimes, output.candidates)
             == CheckCandidates(engine, event, runtimes, output.candidates[i..])
    {
      var c := output.candidates[i];
      assert output.candidates[i..][0] == c && output.candidates[i..][1..] == output.candidates[i + 1..];
      if c.strategy != engine.strategy {
        return Err(WrongStrategy);
      }
      if c.symbol != event.symbol {
        return Err(WrongSymbol);
      }
      if c.timeframe !in engine.required {
        return Err(NoSeries);
      }
      if Find(runtimes, c.symbol, c.id).None? && c.createdAt < event.at {
        return Err(LateReveal);
      }
    }
    return Ok(());
  }

  method AdoptLoop(runtimes0: seq<Runtime>, at: int, candidates: seq<Candidate>) returns (r: Result<seq<Runtime>, BacktestError>)
    ensures r == AdoptAll(runtimes0, at, candidates)
  {
    hide Adopt;
    var runtimes := runtimes0;
    for i := 0 to |candidates|
      invariant AdoptAll(runtimes0, at, candidates[..i]) == Ok(runtimes)
    {
      assert candidates[..i + 1][..i] == candidates[..i];
      var adopted := Adopt(runtimes, at, candidates[i]);
      if adopted.Err? {
        AdoptRefused(runtimes0, at, candidates, i + 1);
        return adopted;
      }
      runtimes := adopted.value;
    }
    assert candidates[..|candidates|] == candidates;
    return Ok(runtimes);
  }

  lemma {:induction false} AdoptRefused(runtimes: seq<Runtime>, at: int, candidates: seq<Candidate>, k: nat)
    requires k <= |candidates| && AdoptAll(runtimes, at, candidates[..k]).Err?
    ensures AdoptAll(runtimes, at, candidates) == AdoptAll(runtimes, at, candidates[..k])
    decreases |candidates|
  {
    hide Adopt;
    if k == |candidates| {
      assert candidates[..k] == candidates;
    } else {
      assert candidates[..|candidates| - 1][..k] == candidates[..k];
      AdoptRefused(runtimes, at, candidates[..|candidates| - 1], k);
    }
  }

  method InvalidateLoop(runtimes0: seq<Runtime>, event: Event, invalidations: seq<(nat, Invalidation)>)
    returns (r: Result<seq<Runtime>, BacktestError>)
    ensures r == InvalidateAll(runtimes0, event, invalidations)
  {
    hide Invalidate;
    var runtimes := runtimes0;
    for i := 0 to |invalidations|
      invariant InvalidateAll(runtimes0, event, invalidations[..i]) == Ok(runtimes)
    {
      assert invalidations[..i + 1][..i] == invalidations[..i];
      var invalidated := Invalidate(runtimes, event, invalidations[i].0, invalidations[i].1);
      if invalidated.Err? {
        InvalidateRefused(runtimes0, event, invalidations, i + 1);
        return invalidated;
      }
      runtimes := invalidated.value;
    }
    assert invalidations[..|invalidations|] == invalidations;
    return Ok(runtimes);
  }

  lemma {:induction false} InvalidateRefused(runtimes: seq<Runtime>, event: Event, invalidations: seq<(nat, Invalidation)>, k: nat)
    requires k <= |invalidations| && InvalidateAll(runtimes, event, invalidations[..k]).Err?
    ensures InvalidateAll(runtimes, event, invalidations) == InvalidateAll(runtimes, event, invalidations[..k])
    decreases |invalidations|
  {
    hide Invalidate;
    if k == |invalidations| {
      assert invalidations[..k] == invalidations;
    } else {
      assert invalidations[..|invalidations| - 1][..k] == invalidations[..k];
      InvalidateRefused(runtimes, event, invalidations[..|invalidations| - 1], k);
    }
  }

  method RefreshLoop(engine: Engine, view: View, event: Event, runtimes0: seq<Runtime>) returns (r: Result<seq<Runtime>, BacktestError>)
    ensures r == RefreshAll(engine, view, event, runtimes0)
  {
    hide Refresh;
    var runtimes := runtimes0;
    for i := 0 to |runtimes0|
      invariant |runtimes| == |runtimes0| && runtimes[i..] == runtimes0[i..]
      invariant RefreshAll(engine, view, event, runtimes0[..i]) == Ok(runtimes[..i])
    {
      assert runtimes0[..i + 1][..i] == runtimes0[..i];
      assert runtimes[i] == runtimes[i..][0] == runtimes0[i];
      if runtimes[i].candidate.symbol == event.symbol {
        var refreshed := Refresh(engine, view(event.symbol, runtimes[i].candidate.timeframe, event.at), runtimes[i]);
        if refreshed.Err? {
          RefreshRefused(engine, view, event, runtimes0, i + 1);
          return Err(refreshed.error);
        }
        assert runtimes[i := refreshed.value][..i + 1] == runtimes[..i] + [refreshed.value];
        runtimes := runtimes[i := refreshed.value];
      } else {
        assert runtimes[..i + 1] == runtimes[..i] + [runtimes[i]];
      }
    }
    assert runtimes0[..|runtimes0|] == runtimes0 && runtimes[..|runtimes|] == runtimes;
    return Ok(runtimes);
  }

  lemma {:induction false} RefreshRefused(engine: Engine, view: View, event: Event, runtimes: seq<Runtime>, k: nat)
    requires k <= |runtimes| && RefreshAll(engine, view, event, runtimes[..k]).Err?
    ensures RefreshAll(engine, view, event, runtimes) == RefreshAll(engine, view, event, runtimes[..k])
    decreases |runtimes|
  {
    hide Refresh;
    if k == |runtimes| {
      assert runtimes[..k] == runtimes;
    } else {
      assert runtimes[..|runtimes| - 1][..k] == runtimes[..k];
      RefreshRefused(engine, view, event, runtimes[..|runtimes| - 1], k);
    }
  }

  lemma {:induction false} RunRefused(engine: Engine, view: View, events: seq<Event>, k: nat)
    requires k <= |events| && Run(engine, view, events[..k]).Err?
    ensures Run(engine, view, events) == Run(engine, view, events[..k])
    decreases |events|
  {
    hide Step;
    if k == |events| {
      assert events[..k] == events;
    } else {
      assert events[..|events| - 1][..k] == events[..k];
      RunRefused(engine, view, events[..|events| - 1], k);
    }
  }

  /** The loop of `run_backtest`, with the filtered or the indexed prefixes: either way it ends
      in the state of the reference run. */
  method RunBacktest(engine: Engine, total: Total, base: Timeframe, evaluation: Timeframe, sources: Sources, symbols: seq<Symbol>,
    optimized: bool) returns (r: Result<seq<Runtime>, BacktestError>)
    requires Clean(base, sources)
    ensures r == Run(engine, FilteredView(total, base, sources), EventsOf(total, base, evaluation, sources, symbols))
  {
    hide Step, Clean, CheckOutput, AdoptAll, InvalidateAll, RefreshAll, FilteredView, IndexedView, EventsOf;
    var events := EventsOf(total, base, evaluation, sources, symbols);
    var view := if optimized then IndexedView(total, base, sources) else FilteredView(total, base, sources);
    IndexedIsReference(engine, total, base, sources, events);
    var runtimes := [];
    for i := 0 to |events|
      invariant Run(engine, view, events[..i]) == Ok(runtimes)
    {
      assert events[..i + 1][..i] == events[..i];
      var stepped := StepLoop(engine, view, events[i], runtimes);
      if stepped.Err? {
        RunRefused(engine, view, events, i + 1);
        return stepped;
      }
      runtimes := stepped.value;
    }
    assert events[..|events|] == events;
    return Ok(runtimes);
  }

  method StepLoop(engine: Engine, view: View, event: Event, runtimes: seq<Runtime>) returns (r: Result<seq<Runtime>, BacktestError>)
    ensures r == Step(engine, view, event, runtimes)
  {
    hide CheckOutput, AdoptAll, InvalidateAll, RefreshAll;
    var output := Evaluated(engine, view, event);
    var checked := CheckLoop(engine, event, runtimes, output);
    if checked.Err? {
      return Err(checked.error);
    }
    var adopted := AdoptLoop(runtimes, event.at, output.candidates);
    if adopted.Err? {
      return adopted;
    }
    var invalidated := InvalidateLoop(adopted.value, event, output.invalidations);
    if invalidated.Err? {
      return invalidated;
    }
    r := RefreshLoop(engine, view, event, invalidated.value);
  }
}
