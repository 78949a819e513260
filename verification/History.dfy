/** Bootstrapping a candle history from a paged provider and a cache. */
module History {
  import opened Wrappers
  import opened Timeframes
  import opened Sorting
  import opened Resampling
  import opened ResamplingCoverage

  datatype Row = Untrusted | Row(candle: Candle)

  datatype HistoryError =
    | NothingRequired | CutoffNotABoundary | CutoffInFuture
    | EmptyPage | TooManyRows | UntrustedRow | Conflict | NoAdvance | Incomplete

  /** A provider answers a call with any rows: the number of calls before it, the range and the
      limit. */
  type Provider = (nat, int, int, nat) -> seq<Row>

  // ---- complete ranges -------------------------------------------------------------

  /** Candles at start, start + d, and so on. */
  ghost predicate Grid(candles: seq<Candle>, start: int, d: int) {
    forall i :: 0 <= i < |candles| ==> candles[i].timestamp == start + i * d
  }

  /** `_validate_complete_range`. */
  predicate CompleteRange(candles: seq<Candle>, start: int, end: int, d: int)
    requires d > 0
  {
    && candles != []
    && |candles| == (end - start) / d
    && candles[0].timestamp == start && candles[|candles| - 1].timestamp + d == end
    && (forall i, j :: 0 <= i < j < |candles| ==> candles[i].timestamp != candles[j].timestamp)
    && Sort(ByTime, candles) == candles
    && forall i :: 0 <= i < |candles| - 1 ==> candles[i + 1].timestamp - candles[i].timestamp == d
  }

  lemma {:induction false} StepsAreGrid(candles: seq<Candle>, d: int, i: nat)
    requires i < |candles| && forall k :: 0 <= k < |candles| - 1 ==> candles[k + 1].timestamp - candles[k].timestamp == d
    ensures candles[i].timestamp == candles[0].timestamp + i * d
    decreases i
  {
    if i > 0 {
      StepsAreGrid(candles, d, i - 1);
      OneMore(i - 1, d);
    }
  }

  lemma {:induction false} GridSorted(candles: seq<Candle>, start: int, d: int)
    requires Grid(candles, start, d) && d > 0
    ensures forall i, j :: 0 <= i < j < |candles| ==> candles[i].timestamp < candles[j].timestamp
    ensures Sorted(ByTime, candles) && TieFree(ByTime, candles)
  {
    forall i, j | 0 <= i < j < |candles| ensures candles[i].timestamp < candles[j].timestamp {
      TimesOrder(i, j, d);
    }
    forall x, y | x in candles && y in candles && ByTime(x, y) && ByTime(y, x) ensures x == y {
      var i, j :| 0 <= i < |candles| && 0 <= j < |candles| && candles[i] == x && candles[j] == y;
    }
  }

  /** A range is complete exactly when it is the grid from its start to its end. */
  lemma {:induction false} CompleteIsGrid(candles: seq<Candle>, start: int, end: int, d: int)
    requires d > 0
    ensures CompleteRange(candles, start, end, d)
      <==> candles != [] && Grid(candles, start, d) && end == start + |candles| * d
  {
    var n := |candles|;
    if candles != [] {
      OneMore(n - 1, d);
      if CompleteRange(candles, start, end, d) {
        forall i | 0 <= i < n ensures candles[i].timestamp == start + i * d {
          StepsAreGrid(candles, d, i);
        }
      } else if Grid(candles, start, d) && end == start + n * d {
        GridIsComplete(candles, start, d);
      }
    }
  }

  lemma {:induction false} GridIsComplete(candles: seq<Candle>, start: int, d: int)
    requires d > 0 && candles != [] && Grid(candles, start, d)
    ensures CompleteRange(candles, start, start + |candles| * d, d)
  {
    hide Sort, TieFree;
    var n := |candles|;
    OneMore(n - 1, d);
    GridSorted(candles, start, d);
    SortRestores(ByTime, candles, candles);
    MultipleIsZero(n, d);
    FloorUnique(n * d, d, n);
    forall i | 0 <= i < n - 1 ensures candles[i + 1].timestamp - candles[i].timestamp == d {
      OneMore(i, d);
    }
  }

  /** Two grids that touch are one. */
  lemma {:induction false} GridAppend(a: seq<Candle>, b: seq<Candle>, start: int, d: int)
    requires Grid(a, start, d) && Grid(b, start + |a| * d, d)
    ensures Grid(a + b, start, d)
  {
    forall i | 0 <= i < |a + b| ensures (a + b)[i].timestamp == start + i * d {
      if i >= |a| {
        SumTimes(|a|, i - |a|, d);
      }
    }
  }

  lemma {:induction false} GridGap(a: int, b: int, timeframe: Timeframe)
    requires OnGrid(a, timeframe) && OnGrid(b, timeframe) && a < b
    ensures a + Duration(timeframe) <= b
  {
    hide Duration;
    var d := Duration(timeframe);
    Differ(b - Offset(timeframe), a - Offset(timeframe), d);
    var q := (b - a) / d;
    assert b - a == q * d + (b - a) % d;
    FactorOrder(0, q, d);
    ScaleOrder(1, q, d);
  }

  lemma {:induction false} GridNext(t: int, timeframe: Timeframe)
    requires BucketStart(t, timeframe) == t
    ensures OnGrid(t + Duration(timeframe), timeframe)
  {
    AlignedOnGrid(t, timeframe);
    hide BucketStart, Duration;
    Shift(t - Offset(timeframe), 1, Duration(timeframe));
  }

  lemma {:induction false} Shift(x: int, n: int, d: int)
    requires d > 0
    ensures (x + n * d) % d == 0 <==> x % d == 0
  {
    MultipleIsZero(n, d);
    if x % d == 0 {
      MultipleIsZero(-n, d);
      Differ(x, -n * d, d);
      assert x - (-n * d) == x + n * d;
    } else if (x + n * d) % d == 0 {
      Differ(x + n * d, n * d, d);
    }
  }

  lemma {:induction false} DurationWhole(timeframe: Timeframe)
    ensures Duration(timeframe) % SECOND == 0 && Duration(timeframe) >= SECOND
  {
  }

  lemma {:induction false} OffsetWhole(x: int, t: int)
    requires x % SECOND == 0 && (t == x || t == x + 4 * DAY)
    ensures t % SECOND == 0
  {
  }

  lemma {:induction false} GridIsWhole(t: int, timeframe: Timeframe)
    requires OnGrid(t, timeframe)
    ensures t % SECOND == 0
  {
    hide Duration;
    DurationWhole(timeframe);
    var x := t - Offset(timeframe);
    Coarser(x, SECOND, Duration(timeframe));
    OffsetWhole(x, t);
  }

  lemma {:induction false} GridAligned(t: int, timeframe: Timeframe)
    requires OnGrid(t, timeframe)
    ensures BucketStart(t, timeframe) == t
  {
    hide BucketStart, Duration;
    GridIsWhole(t, timeframe);
    WholeInCell(t, timeframe);
    var d, x := Duration(timeframe), t - Offset(timeframe);
    assert x == (x / d) * d + x % d;
  }

  lemma {:induction false} BucketOnGrid(t: int, timeframe: Timeframe)
    ensures OnGrid(BucketStart(t, timeframe), timeframe)
  {
    hide BucketStart, Duration, RoundsUp;
    BucketIs(t, timeframe);
    var d, o := Duration(timeframe), Offset(timeframe);
    MultipleIsZero((t - o) / d, d);
    OneMore((t - o) / d, d);
    MultipleIsZero((t - o) / d + 1, d);
  }

  // ---- pages -----------------------------------------------------------------------

  /** `_trusted_provider_candle`: aligned, inside the range, and not partial. */
  predicate Trusted(timeframe: Timeframe, start: int, end: int, row: Row) {
    row.Row? && var t := row.candle.timestamp;
      BucketStart(t, timeframe) == t && start <= t < end && t + Duration(timeframe) <= end
  }

  /** The candle recorded for a moment. */
  function At(rows: seq<Candle>, t: int): Option<Candle> {
    if rows == [] then None
    else if rows[|rows| - 1].timestamp == t then Some(rows[|rows| - 1])
    else At(rows[..|rows| - 1], t)
  }

  /** One candle per moment: a second one must be the same. */
  function Record(rows: seq<Candle>, candle: Candle): Result<seq<Candle>, HistoryError> {
    match At(rows, candle.timestamp)
    case None => Ok(rows + [candle])
    case Some(previous) => if previous == candle then Ok(rows) else Err(Conflict)
  }

  function RecordAll(rows: seq<Candle>, fetched: seq<Candle>): Result<seq<Candle>, HistoryError> {
    if fetched == [] then Ok(rows)
    else
      var before :- RecordAll(rows, fetched[..|fetched| - 1]);
      Record(before, fetched[|fetched| - 1])
  }

  /** The rows after a page, and the latest moment on it. */
  function ReadRows(timeframe: Timeframe, start: int, end: int, rows: seq<Candle>, page: seq<Row>)
    : Result<(seq<Candle>, Option<int>), HistoryError>
  {
    if page == [] then Ok((rows, None))
    else
      var before :- ReadRows(timeframe, start, end, rows, page[..|page| - 1]);
      var row := page[|page| - 1];
      if !Trusted(timeframe, start, end, row) then Err(UntrustedRow)
      else
        var recorded :- Record(before.0, row.candle);
        Ok((recorded, Some(Later(before.1, row.candle.timestamp))))
  }

  function Later(latest: Option<int>, t: int): int {
    if latest.Some? && latest.value > t then latest.value else t
  }

  lemma {:induction false} PageLatest(timeframe: Timeframe, start: int, end: int, rows: seq<Candle>, page: seq<Row>)
    requires page != [] && ReadRows(timeframe, start, end, rows, page).Ok?
    ensures ReadRows(timeframe, start, end, rows, page).value.1.Some?
    ensures var t := ReadRows(timeframe, start, end, rows, page).value.1.value;
      BucketStart(t, timeframe) == t && start <= t && t + Duration(timeframe) <= end
    decreases |page|
  {
    hide BucketStart, Duration, Record;
    var init := page[..|page| - 1];
    if init != [] {
      PageLatest(timeframe, start, end, rows, init);
    }
  }

  lemma {:induction false} PageRows(timeframe: Timeframe, start: int, end: int, rows: seq<Candle>, page: seq<Row>)
    requires ReadRows(timeframe, start, end, rows, page).Ok?
    ensures forall c :: c in ReadRows(timeframe, start, end, rows, page).value.0 ==> c in rows || Row(c) in page
    decreases |page|
  {
    hide BucketStart, Duration, At;
    if page != [] {
      PageRows(timeframe, start, end, rows, page[..|page| - 1]);
    }
  }

  method ReadPage(timeframe: Timeframe, start: int, end: int, rows0: seq<Candle>, page: seq<Row>)
    returns (r: Result<(seq<Candle>, Option<int>), HistoryError>)
    ensures r == ReadRows(timeframe, start, end, rows0, page)
  {
    hide BucketStart, Duration, Record;
    var rows, latest := rows0, None;
    for i := 0 to |page|
      invariant ReadRows(timeframe, start, end, rows0, page[..i]) == Ok((rows, latest))
    {
      assert page[..i + 1][..i] == page[..i];
      if !Trusted(timeframe, start, end, page[i]) {
        FirstRefusal(timeframe, start, end, rows0, page, i + 1);
        return Err(UntrustedRow);
      }
      var recorded := Record(rows, page[i].candle);
      if recorded.Err? {
        FirstRefusal(timeframe, start, end, rows0, page, i + 1);
        return Err(recorded.error);
      }
      rows, latest := recorded.value, Some(Later(latest, page[i].candle.timestamp));
    }
    assert page[..|page|] == page;
    return Ok((rows, latest));
  }

  lemma {:induction false} FirstRefusal(timeframe: Timeframe, start: int, end: int, rows: seq<Candle>, page: seq<Row>, k: nat)
    requires k <= |page| && ReadRows(timeframe, start, end, rows, page[..k]).Err?
    ensures ReadRows(timeframe, start, end, rows, page) == ReadRows(timeframe, start, end, rows, page[..k])
    decreases |page|
  {
    hide Trusted, Record;
    if k == |page| {
      assert page[..k] == page;
    } else {
      assert page[..|page| - 1][..k] == page[..k];
      FirstRefusal(timeframe, start, end, rows, page[..|page| - 1], k);
    }
  }

  // ---- one range -------------------------------------------------------------------

  function Limit(pageLimit: nat, cursor: int, end: int, d: int): nat
    requires d > 0
  {
    var remaining := (end - cursor) / d;
    var wanted := if remaining < 1 then 1 else remaining;
    if wanted < pageLimit then wanted else pageLimit
  }

  /** The range once the cursor has reached its end. */
  function Closing(rows: seq<Candle>, start: int, end: int, d: int): Result<seq<Candle>, HistoryError>
    requires d > 0
  {
    var ordered := Sort(ByTime, rows);
    if CompleteRange(ordered, start, end, d) then Ok(ordered) else Err(Incomplete)
  }

  /** `_fetch_range` from a cursor on: the outcome and the number of pages read. */
  function FetchFrom(provider: Provider, timeframe: Timeframe, start: int, end: int, pageLimit: nat,
    calls: nat, cursor: int, rows: seq<Candle>, pages: nat): (Result<seq<Candle>, HistoryError>, nat)
    decreases end - cursor
  {
    var d := Duration(timeframe);
    if cursor >= end then (Closing(rows, start, end, d), pages)
    else
      var limit := Limit(pageLimit, cursor, end, d);
      var page := provider(calls + pages, cursor, end, limit);
      if page == [] then (Err(EmptyPage), pages + 1)
      else if |page| > limit then (Err(TooManyRows), pages + 1)
      else
        match ReadRows(timeframe, start, end, rows, page)
        case Err(error) => (Err(error), pages + 1)
        case Ok(read) =>
          if read.1.None? || read.1.value + d <= cursor then (Err(NoAdvance), pages + 1)
          else FetchFrom(provider, timeframe, start, end, pageLimit, calls, read.1.value + d, read.0, pages + 1)
  }

  function Fetch(provider: Provider, timeframe: Timeframe, start: int, end: int, pageLimit: nat, calls: nat)
    : (Result<seq<Candle>, HistoryError>, nat)
  {
    FetchFrom(provider, timeframe, start, end, pageLimit, calls, start, [], 0)
  }

  method FetchRange(provider: Provider, timeframe: Timeframe, start: int, end: int, pageLimit: nat, calls: nat)
    returns (r: Result<seq<Candle>, HistoryError>, pages: nat)
    ensures (r, pages) == Fetch(provider, timeframe, start, end, pageLimit, calls)
  {
    hide BucketStart, Duration, ReadRows, Limit, Closing, Record, Trusted;
    var d := Duration(timeframe);
    var cursor, rows := start, [];
    pages := 0;
    while cursor < end
      invariant FetchFrom(provider, timeframe, start, end, pageLimit, calls, start, [], 0)
             == FetchFrom(provider, timeframe, start, end, pageLimit, calls, cursor, rows, pages)
      decreases end - cursor
    {
      var limit := Limit(pageLimit, cursor, end, d);
      var page := provider(calls + pages, cursor, end, limit);
      pages := pages + 1;
      if page == [] {
        return Err(EmptyPage), pages;
      }
      if |page| > limit {
        return Err(TooManyRows), pages;
      }
      var read := ReadPage(timeframe, start, end, rows, page);
      if read.Err? {
        return Err(read.error), pages;
      }
      PageLatest(timeframe, start, end, rows, page);
      var next := read.value.1.value + d;
      if next <= cursor {
        return Err(NoAdvance), pages;
      }
      cursor, rows := next, read.value.0;
    }
    r := Closing(rows, start, end, d);
  }

  /** For any provider, at most one page per candle of the range. */
  lemma {:induction false} PagesBounded(provider: Provider, timeframe: Timeframe, start: int, end: int, pageLimit: nat,
    calls: nat, cursor: int, rows: seq<Candle>, pages: nat)
    requires OnGrid(cursor, timeframe) && OnGrid(end, timeframe) && start <= cursor <= end
    ensures FetchFrom(provider, timeframe, start, end, pageLimit, calls, cursor, rows, pages).1 * Duration(timeframe)
         <= pages * Duration(timeframe) + end - cursor
    decreases end - cursor
  {
    hide BucketStart, Duration, OnGrid, ReadRows, Limit, Closing;
    var d := Duration(timeframe);
    if cursor < end {
      GridGap(cursor, end, timeframe);
      OneMore(pages, d);
      var limit := Limit(pageLimit, cursor, end, d);
      var page := provider(calls + pages, cursor, end, limit);
      if page != [] && |page| <= limit {
        var read := ReadRows(timeframe, start, end, rows, page);
        if read.Ok? {
          PageLatest(timeframe, start, end, rows, page);
          var next := read.value.1.value + d;
          if next > cursor {
            GridNext(read.value.1.value, timeframe);
            GridGap(cursor, next, timeframe);
            PagesBounded(provider, timeframe, start, end, pageLimit, calls, next, read.value.0, pages + 1);
          }
        }
      }
    }
  }

  /** The provider gave this candle in answer to some call. */
  ghost predicate Supplied(provider: Provider, c: Candle) {
    exists k: nat, cursor, end, limit: nat :: Row(c) in provider(k, cursor, end, limit)
  }

  ghost predicate ExactGrid(provider: Provider, candles: seq<Candle>, start: int, end: int, d: int) {
    && candles != [] && Grid(candles, start, d) && end == start + |candles| * d
    && forall c :: c in candles ==> Supplied(provider, c)
  }

  lemma {:induction false} ClosingKeeps(rows: seq<Candle>, start: int, end: int, d: int)
    requires d > 0 && Closing(rows, start, end, d).Ok?
    ensures forall c :: c in Closing(rows, start, end, d).value ==> c in rows
  {
    hide CompleteRange;
    SortSorts(ByTime, rows);
    forall c | c in Closing(rows, start, end, d).value ensures c in rows {
      assert c in multiset(Sort(ByTime, rows));
    }
  }

  /** Nothing is made up. */
  lemma {:induction false} FetchedSupplied(provider: Provider, timeframe: Timeframe, start: int, end: int, pageLimit: nat,
    calls: nat, cursor: int, rows: seq<Candle>, pages: nat)
    requires forall c :: c in rows ==> Supplied(provider, c)
    ensures var r := FetchFrom(provider, timeframe, start, end, pageLimit, calls, cursor, rows, pages).0;
      r.Ok? ==> forall c :: c in r.value ==> Supplied(provider, c)
    decreases end - cursor
  {
    hide BucketStart, Duration, OnGrid, ReadRows, Limit, Closing;
    var d := Duration(timeframe);
    if cursor < end {
      var limit := Limit(pageLimit, cursor, end, d);
      var page := provider(calls + pages, cursor, end, limit);
      if page != [] && |page| <= limit {
        var read := ReadRows(timeframe, start, end, rows, page);
        if read.Ok? {
          PageLatest(timeframe, start, end, rows, page);
          PageRows(timeframe, start, end, rows, page);
          if read.value.1.value + d > cursor {
            FetchedSupplied(provider, timeframe, start, end, pageLimit, calls, read.value.1.value + d, read.value.0, pages + 1);
          }
        }
      }
    } else if Closing(rows, start, end, d).Ok? {
      ClosingKeeps(rows, start, end, d);
    }
  }

  lemma {:induction false} ClosesAsGrid(provider: Provider, timeframe: Timeframe, start: int, end: int, pageLimit: nat,
    calls: nat, cursor: int, rows: seq<Candle>, pages: nat)
    ensures var r := FetchFrom(provider, timeframe, start, end, pageLimit, calls, cursor, rows, pages).0;
      r.Ok? ==> CompleteRange(r.value, start, end, Duration(timeframe))
    decreases end - cursor
  {
    hide BucketStart, Duration, CompleteRange, ReadRows, Limit;
    var d := Duration(timeframe);
    if cursor < end {
      var limit := Limit(pageLimit, cursor, end, d);
      var page := provider(calls + pages, cursor, end, limit);
      if page != [] && |page| <= limit {
        var read := ReadRows(timeframe, start, end, rows, page);
        if read.Ok? && read.value.1.Some? && read.value.1.value + d > cursor {
          ClosesAsGrid(provider, timeframe, start, end, pageLimit, calls, read.value.1.value + d, read.value.0, pages + 1);
        }
      }
    }
  }

  /** A range that could be fetched: for any provider, at most one page per candle, and exactly
      the candles of the grid from start to end, each of them supplied by the provider. */
  lemma {:induction false} FetchIsGrid(provider: Provider, timeframe: Timeframe, start: int, end: int, pageLimit: nat, calls: nat)
    requires start <= end && OnGrid(start, timeframe) && OnGrid(end, timeframe)
    ensures Fetch(provider, timeframe, start, end, pageLimit, calls).1 * Duration(timeframe) <= end - start
    ensures var r := Fetch(provider, timeframe, start, end, pageLimit, calls).0;
      r.Ok? ==> ExactGrid(provider, r.value, start, end, Duration(timeframe))
  {
    hide BucketStart, Duration, OnGrid, CompleteRange, FetchFrom, Supplied;
    PagesBounded(provider, timeframe, start, end, pageLimit, calls, start, [], 0);
    ClosesAsGrid(provider, timeframe, start, end, pageLimit, calls, start, [], 0);
    FetchedSupplied(provider, timeframe, start, end, pageLimit, calls, start, [], 0);
    var r := Fetch(provider, timeframe, start, end, pageLimit, calls).0;
    if r.Ok? {
      CompleteIsGrid(r.value, start, end, Duration(timeframe));
    }
  }

  // ---- an honest provider ----------------------------------------------------------

  /** The market: the candle that opens at a moment. */
  type Market = int -> Candle

  ghost predicate Dated(market: Market) {
    forall t :: market(t).timestamp == t
  }

  function MarketRows(market: Market, start: int, d: int, n: nat): (r: seq<Candle>)
    ensures |r| == n && forall i :: 0 <= i < n ==> r[i] == market(start + i * d)
  {
    seq(n, i => market(start + i * d))
  }

  /** At least one and at most the limit of the candles from the cursor on. */
  ghost predicate HonestPage(market: Market, d: int, cursor: int, end: int, limit: nat, page: seq<Row>) {
    && 1 <= |page| <= limit && cursor + |page| * d <= end
    && forall i :: 0 <= i < |page| ==> page[i] == Row(market(cursor + i * d))
  }

  ghost predicate Honest(provider: Provider, market: Market, timeframe: Timeframe, end: int) {
    forall k: nat, cursor, limit: nat :: limit >= 1 && OnGrid(cursor, timeframe) && cursor < end
      ==> HonestPage(market, Duration(timeframe), cursor, end, limit, provider(k, cursor, end, limit))
  }

  /** An honest page is recorded as it is. */
  lemma {:induction false} HonestRows(timeframe: Timeframe, market: Market, start: int, end: int, m: nat, page: seq<Row>)
    requires Dated(market) && OnGrid(start, timeframe) && page != []
    requires start + (m + |page|) * Duration(timeframe) <= end
    requires forall i :: 0 <= i < |page| ==> page[i] == Row(market(start + m * Duration(timeframe) + i * Duration(timeframe)))
    ensures ReadRows(timeframe, start, end, MarketRows(market, start, Duration(timeframe), m), page)
         == Ok((MarketRows(market, start, Duration(timeframe), m + |page|), Some(start + (m + |page| - 1) * Duration(timeframe))))
    decreases |page|
  {
    hide Duration, OnGrid, BucketStart, At, Dated;
    var d, n := Duration(timeframe), |page| - 1;
    var init, t := page[..n], start + (m + n) * d;
    SumTimes(m, n, d);
    DatedAt(market, t);
    assert page[n] == Row(market(t));
    HonestCandle(timeframe, start, end, m + n);
    MarketNew(market, start, d, m + n);
    var rows := MarketRows(market, start, d, m);
    assert MarketRows(market, start, d, m + n) + [market(t)] == MarketRows(market, start, d, m + n + 1);
    if n > 0 {
      OneMore(m + n, d);
      HonestRows(timeframe, market, start, end, m, init);
      OneMore(m + n - 1, d);
    } else {
      assert init == [] && ReadRows(timeframe, start, end, rows, init) == Ok((rows, None));
    }
  }

  lemma {:induction false} DatedAt(market: Market, t: int)
    requires Dated(market)
    ensures market(t).timestamp == t
  {
  }

  lemma {:induction false} HonestCandle(timeframe: Timeframe, start: int, end: int, k: nat)
    requires OnGrid(start, timeframe) && start + (k + 1) * Duration(timeframe) <= end
    ensures var t := start + k * Duration(timeframe);
      BucketStart(t, timeframe) == t && start <= t < end && t + Duration(timeframe) <= end
  {
    hide Duration, BucketStart;
    var d := Duration(timeframe);
    OneMore(k, d);
    TimesOrder(0, k, d);
    Shift(start - Offset(timeframe), k, d);
    GridAligned(start + k * d, timeframe);
  }

  lemma {:induction false} MarketNew(market: Market, start: int, d: int, n: nat)
    requires Dated(market) && d > 0
    ensures At(MarketRows(market, start, d, n), start + n * d) == None
  {
    var rows := MarketRows(market, start, d, n);
    forall x | x in rows ensures x.timestamp != start + n * d {
      var i :| 0 <= i < n && rows[i] == x;
      TimesOrder(i, n, d);
    }
    NotRecorded(rows, start + n * d);
  }

  lemma {:induction false} NotRecorded(rows: seq<Candle>, t: int)
    requires forall x :: x in rows ==> x.timestamp != t
    ensures At(rows, t) == None
    decreases |rows|
  {
    if rows != [] {
      NotRecorded(rows[..|rows| - 1], t);
    }
  }

  lemma {:induction false} HonestAnswer(provider: Provider, market: Market, timeframe: Timeframe, start: int, end: int, pageLimit: nat,
    call: nat, m: nat)
    requires pageLimit >= 1 && Dated(market) && OnGrid(start, timeframe) && Honest(provider, market, timeframe, end)
    requires start + m * Duration(timeframe) < end
    ensures var d := Duration(timeframe); var cursor := start + m * d; var limit := Limit(pageLimit, cursor, end, d);
      var page := provider(call, cursor, end, limit);
      && 1 <= |page| <= limit && start + (m + |page|) * d <= end
      && ReadRows(timeframe, start, end, MarketRows(market, start, d, m), page)
         == Ok((MarketRows(market, start, d, m + |page|), Some(start + (m + |page| - 1) * d)))
  {
    hide Duration, OnGrid, BucketStart, ReadRows, Dated, Limit, MarketRows;
    var d := Duration(timeframe);
    var cursor := start + m * d;
    GridPoint(start, m, timeframe);
    LimitPositive(pageLimit, cursor, end, d);
    var limit := Limit(pageLimit, cursor, end, d);
    var page := provider(call, cursor, end, limit);
    assert HonestPage(market, d, cursor, end, limit, page);
    SumTimes(m, |page|, d);
    HonestRows(timeframe, market, start, end, m, page);
  }

  lemma {:induction false} HonestFrom(provider: Provider, market: Market, timeframe: Timeframe, start: int, n: nat, pageLimit: nat,
    calls: nat, m: nat, pages: nat)
    requires n >= 1 && m <= n && pageLimit >= 1 && Dated(market) && OnGrid(start, timeframe)
    requires Honest(provider, market, timeframe, start + n * Duration(timeframe))
    ensures FetchFrom(provider, timeframe, start, start + n * Duration(timeframe), pageLimit, calls, start + m * Duration(timeframe),
                MarketRows(market, start, Duration(timeframe), m), pages).0
         == Ok(MarketRows(market, start, Duration(timeframe), n))
    decreases n - m
  {
    hide Duration, OnGrid, BucketStart, Closing, ReadRows, Dated, Limit, MarketRows, Honest;
    var d := Duration(timeframe);
    var end, cursor, rows := start + n * d, start + m * d, MarketRows(market, start, d, m);
    TimesOrder(m, n, d);
    if m == n {
      HonestCloses(market, start, d, n);
    } else {
      var page := provider(calls + pages, cursor, end, Limit(pageLimit, cursor, end, d));
      HonestAnswer(provider, market, timeframe, start, end, pageLimit, calls + pages, m);
      OneMore(m + |page| - 1, d);
      TimesOrder(m, m + |page|, d);
      TimesOrder(m + |page|, n, d);
      HonestFrom(provider, market, timeframe, start, n, pageLimit, calls, m + |page|, pages + 1);
    }
  }

  lemma {:induction false} LimitPositive(pageLimit: nat, cursor: int, end: int, d: int)
    requires d > 0 && pageLimit >= 1
    ensures 1 <= Limit(pageLimit, cursor, end, d) <= pageLimit
  {
  }

  lemma {:induction false} GridPoint(start: int, m: int, timeframe: Timeframe)
    requires OnGrid(start, timeframe)
    ensures OnGrid(start + m * Duration(timeframe), timeframe)
  {
    hide Duration;
    Shift(start - Offset(timeframe), m, Duration(timeframe));
  }

  lemma {:induction false} MarketGrid(market: Market, start: int, d: int, n: nat)
    requires Dated(market)
    ensures Grid(MarketRows(market, start, d, n), start, d)
  {
  }

  lemma {:induction false} HonestCloses(market: Market, start: int, d: int, n: nat)
    requires Dated(market) && d > 0 && n >= 1
    ensures Closing(MarketRows(market, start, d, n), start, start + n * d, d) == Ok(MarketRows(market, start, d, n))
  {
    hide CompleteRange, TieFree, Sorted, Sort, Dated, Grid;
    var rows := MarketRows(market, start, d, n);
    MarketGrid(market, start, d, n);
    GridSorted(rows, start, d);
    SortRestores(ByTime, rows, rows);
    GridIsComplete(rows, start, d);
  }

  /** From a provider that answers with the market's candles from the cursor on, however few at
      a time, a range is always fetched, and it is the market's. */
  lemma {:induction false} HonestFetch(provider: Provider, market: Market, timeframe: Timeframe, start: int, n: nat, pageLimit: nat, calls: nat)
    requires n >= 1 && pageLimit >= 1 && Dated(market) && OnGrid(start, timeframe)
    requires Honest(provider, market, timeframe, start + n * Duration(timeframe))
    ensures Fetch(provider, timeframe, start, start + n * Duration(timeframe), pageLimit, calls).0
         == Ok(MarketRows(market, start, Duration(timeframe), n))
  {
    hide Duration, OnGrid, FetchFrom, Honest;
    assert MarketRows(market, start, Duration(timeframe), 0) == [];
    assert 0 * Duration(timeframe) == 0;
    HonestFrom(provider, market, timeframe, start, n, pageLimit, calls, 0, 0);
  }
}
