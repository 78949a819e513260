/** `ensure_history`: the requested candles, from the cache if it covers them and otherwise from
    the provider, with the cache extended by what was missing. */
module Bootstrap {
  import opened Wrappers
  import opened Timeframes
  import opened Sorting
  import opened Resampling
  import opened ResamplingCoverage
  import opened History

  /** A cache file: whether its metadata and rows can be read, whether its count, its first and
      last moment and its content hash agree with the rows. */
  datatype Stored = Stored(provider: string, readable: bool, candles: seq<Candle>, sealed: bool)

  datatype Loaded = NoCache | Corrupt | Broken | Cached(provider: string, candles: seq<Candle>)

  /** `_parse_cached_payload`: rows that are no complete range raise a pagination error, which
      the caller does not take for a corrupt cache. */
  function LoadCache(stored: Option<Stored>, timeframe: Timeframe): Loaded {
    match stored
    case None => NoCache
    case Some(s) =>
      if !s.readable || s.candles == [] then Corrupt
      else if BucketStart(s.candles[0].timestamp, timeframe) != s.candles[0].timestamp then Corrupt
      else if !WholeRange(s.candles, Duration(timeframe)) then Broken
      else if !s.sealed then Corrupt
      else Cached(s.provider, s.candles)
  }

  /** Complete from its own first candle to its own last. */
  predicate WholeRange(candles: seq<Candle>, d: int)
    requires d > 0 && candles != []
  {
    CompleteRange(candles, candles[0].timestamp, candles[|candles| - 1].timestamp + d, d)
  }

  /** `_resolve_end`: a closed boundary, at most the bucket of now. */
  function ResolveEnd(timeframe: Timeframe, endAt: Option<int>, now: int): Result<int, HistoryError> {
    var end := if endAt.Some? then endAt.value else BucketStart(now, timeframe);
    if BucketStart(end - Duration(timeframe), timeframe) + Duration(timeframe) != end then Err(CutoffNotABoundary)
    else if end > BucketStart(now, timeframe) then Err(CutoffInFuture)
    else Ok(end)
  }

  datatype Request = Request(name: string, timeframe: Timeframe, required: int, endAt: Option<int>, now: int, pageLimit: nat)

  /** What is returned, what the cache file holds afterwards, and how many pages were read. */
  datatype Answer = Answer(candles: seq<Candle>, stored: Option<Stored>, pages: nat)

  /** The cached candles that may be used: those of this provider. */
  function Usable(loaded: Loaded, name: string): seq<Candle> {
    if loaded.Cached? && loaded.provider == name then loaded.candles else []
  }

  predicate Covers(candles: seq<Candle>, start: int, end: int, d: int) {
    candles != [] && candles[0].timestamp <= start && candles[|candles| - 1].timestamp + d >= end
  }

  function Between(start: int, end: int): Candle -> bool {
    (c: Candle) => start <= c.timestamp < end
  }

  /** `_slice_history`. */
  function Slice(candles: seq<Candle>, start: int, end: int): seq<Candle> {
    Filter(Between(start, end), candles)
  }

  /** The ranges to read from the provider. */
  function Missing(existing: seq<Candle>, start: int, end: int, d: int): seq<(int, int)> {
    if existing == [] then [(start, end)]
    else
      var first, after := existing[0].timestamp, existing[|existing| - 1].timestamp + d;
      if start < first && end > after then [(start, first), (after, end)]
      else if start < first then [(start, first)]
      else if end > after then [(after, end)]
      else []
  }

  /** The rows after reading the ranges one after another, and the pages that took. */
  function ReadRanges(provider: Provider, timeframe: Timeframe, pageLimit: nat, rows: seq<Candle>, ranges: seq<(int, int)>)
    : Result<(seq<Candle>, nat), HistoryError>
  {
    if ranges == [] then Ok((rows, 0))
    else
      var before :- ReadRanges(provider, timeframe, pageLimit, rows, ranges[..|ranges| - 1]);
      var range := ranges[|ranges| - 1];
      var fetched := Fetch(provider, timeframe, range.0, range.1, pageLimit, before.1);
      var candles :- fetched.0;
      var merged :- RecordAll(before.0, candles);
      Ok((merged, before.1 + fetched.1))
  }

  /** The sorted rows and the requested part, both checked to be complete. */
  function Validated(rows: seq<Candle>, start: int, end: int, d: int): Result<(seq<Candle>, seq<Candle>), HistoryError>
    requires d > 0
  {
    var ordered := Sort(ByTime, rows);
    if ordered == [] || !WholeRange(ordered, d) then Err(Incomplete)
    else
      var selected := Slice(ordered, start, end);
      if !CompleteRange(selected, start, end, d) then Err(Incomplete) else Ok((ordered, selected))
  }

  /** `ensure_history`. */
  function Ensured(provider: Provider, request: Request, stored: Option<Stored>): Result<Answer, HistoryError> {
    if request.required < 1 then Err(NothingRequired)
    else
      var timeframe, d := request.timeframe, Duration(request.timeframe);
      var end :- ResolveEnd(timeframe, request.endAt, request.now);
      var start := end - request.required * d;
      var loaded := LoadCache(stored, timeframe);
      if loaded.Broken? then Err(Incomplete)
      else
        var existing := Usable(loaded, request.name);
        if Covers(existing, start, end, d) then Ok(Answer(Slice(existing, start, end), stored, 0))
        else
          var read :- ReadRanges(provider, timeframe, request.pageLimit, existing, Missing(existing, start, end, d));
          var valid :- Validated(read.0, start, end, d);
          Ok(Answer(valid.1, Some(Stored(request.name, true, valid.0, true)), read.1))
  }

  // ---- the method ------------------------------------------------------------------

  method Merge(rows0: seq<Candle>, fetched: seq<Candle>) returns (r: Result<seq<Candle>, HistoryError>)
    ensures r == RecordAll(rows0, fetched)
  {
    hide At, Record;
    var rows := rows0;
    for i := 0 to |fetched|
      invariant RecordAll(rows0, fetched[..i]) == Ok(rows)
    {
      assert fetched[..i + 1][..i] == fetched[..i];
      var recorded := Record(rows, fetched[i]);
      if recorded.Err? {
        FirstConflict(rows0, fetched, i + 1);
        return Err(recorded.error);
      }
      rows := recorded.value;
    }
    assert fetched[..|fetched|] == fetched;
    return Ok(rows);
  }

  lemma {:induction false} FirstConflict(rows: seq<Candle>, fetched: seq<Candle>, k: nat)
    requires k <= |fetched| && RecordAll(rows, fetched[..k]).Err?
    ensures RecordAll(rows, fetched) == RecordAll(rows, fetched[..k])
    decreases |fetched|
  {
    hide Record;
    if k == |fetched| {
      assert fetched[..k] == fetched;
    } else {
      assert fetched[..|fetched| - 1][..k] == fetched[..k];
      FirstConflict(rows, fetched[..|fetched| - 1], k);
    }
  }

  lemma {:induction false} FirstFailure(provider: Provider, timeframe: Timeframe, pageLimit: nat, rows: seq<Candle>,
    ranges: seq<(int, int)>, k: nat)
    requires k <= |ranges| && ReadRanges(provider, timeframe, pageLimit, rows, ranges[..k]).Err?
    ensures ReadRanges(provider, timeframe, pageLimit, rows, ranges)
         == ReadRanges(provider, timeframe, pageLimit, rows, ranges[..k])
    decreases |ranges|
  {
    hide Fetch, RecordAll;
    if k == |ranges| {
      assert ranges[..k] == ranges;
    } else {
      assert ranges[..|ranges| - 1][..k] == ranges[..k];
      FirstFailure(provider, timeframe, pageLimit, rows, ranges[..|ranges| - 1], k);
    }
  }

  method EnsureHistory(provider: Provider, request: Request, stored: Option<Stored>)
    returns (r: Result<Answer, HistoryError>)
    ensures r == Ensured(provider, request, stored)
  {
    hide BucketStart, Duration, CompleteRange, WholeRange, Fetch, RecordAll, LoadCache, ResolveEnd, Slice, Missing;
    if request.required < 1 {
      return Err(NothingRequired);
    }
    var timeframe := request.timeframe;
    var d := Duration(timeframe);
    var resolved := ResolveEnd(timeframe, request.endAt, request.now);
    if resolved.Err? {
      return Err(resolved.error);
    }
    var end := resolved.value;
    var start := end - request.required * d;
    var loaded := LoadCache(stored, timeframe);
    if loaded.Broken? {
      return Err(Incomplete);
    }
    var existing := Usable(loaded, request.name);
    if Covers(existing, start, end, d) {
      return Ok(Answer(Slice(existing, start, end), stored, 0));
    }
    var ranges := Missing(existing, start, end, d);
    var merged, pages := existing, 0;
    for i := 0 to |ranges|
      invariant ReadRanges(provider, timeframe, request.pageLimit, existing, ranges[..i]) == Ok((merged, pages))
    {
      assert ranges[..i + 1][..i] == ranges[..i];
      var fetched, n := FetchRange(provider, timeframe, ranges[i].0, ranges[i].1, request.pageLimit, pages);
      if fetched.Err? {
        FirstFailure(provider, timeframe, request.pageLimit, existing, ranges, i + 1);
        return Err(fetched.error);
      }
      var after := Merge(merged, fetched.value);
      if after.Err? {
        FirstFailure(provider, timeframe, request.pageLimit, existing, ranges, i + 1);
        return Err(after.error);
      }
      merged, pages := after.value, pages + n;
    }
    assert ranges[..|ranges|] == ranges;
    var valid := Validated(merged, start, end, d);
    if valid.Err? {
      return Err(valid.error);
    }
    return Ok(Answer(valid.value.1, Some(Stored(request.name, true, valid.value.0, true)), pages));
  }

  // ---- grids -----------------------------------------------------------------------

  /** The resolved cutoff and the start of the request are on the grid. */
  lemma {:induction false} RequestOnGrid(timeframe: Timeframe, end: int, required: int)
    requires BucketStart(end - Duration(timeframe), timeframe) + Duration(timeframe) == end && required >= 1
    ensures OnGrid(end, timeframe) && OnGrid(end - required * Duration(timeframe), timeframe)
    ensures end - required * Duration(timeframe) < end
  {
    hide BucketStart, Duration;
    var d := Duration(timeframe);
    GridNext(end - d, timeframe);
    Shift(end - Offset(timeframe) - required * d, required, d);
    TimesOrder(0, required, d);
  }

  /** Without an explicit cutoff the bucket of now is always accepted. */
  lemma {:induction false} DefaultCutoff(timeframe: Timeframe, now: int)
    ensures ResolveEnd(timeframe, None, now) == Ok(BucketStart(now, timeframe))
  {
    BucketOnGrid(now, timeframe);
    hide BucketStart, Duration;
    var end, d := BucketStart(now, timeframe), Duration(timeframe);
    Shift(end - d - Offset(timeframe), 1, d);
    GridAligned(end - d, timeframe);
  }

  /** Grid candles between two grid points. */
  lemma {:induction false} SliceOfGrid(whole: seq<Candle>, a: int, d: int, i: nat, n: nat)
    requires d > 0 && Grid(whole, a, d) && i + n <= |whole|
    ensures Slice(whole, a + i * d, a + i * d + n * d) == whole[i..i + n]
    ensures Grid(whole[i..i + n], a + i * d, d)
  {
    var start, end := a + i * d, a + i * d + n * d;
    forall k | 0 <= k < |whole| ensures Between(start, end)(whole[k]) <==> i <= k < i + n {
      InRange(i, n, k, a, d);
    }
    FilterRange(Between(start, end), whole, i, i + n);
    forall k | 0 <= k < n ensures whole[i..i + n][k].timestamp == start + k * d {
      SumTimes(i, k, d);
    }
  }

  /** Rows that hold a grid, in any order, pass both checks. */
  lemma {:induction false} ValidatedGrid(rows: seq<Candle>, whole: seq<Candle>, a: int, d: int, i: nat, n: nat)
    requires d > 0 && Grid(whole, a, d) && 1 <= n && i + n <= |whole| && multiset(rows) == multiset(whole)
    ensures Validated(rows, a + i * d, a + i * d + n * d, d) == Ok((whole, whole[i..i + n]))
  {
    hide CompleteRange, Slice, TieFree, Sorted;
    GridSorted(whole, a, d);
    SortRestores(ByTime, rows, whole);
    GridWhole(whole, a, d);
    SliceOfGrid(whole, a, d, i, n);
    GridIsComplete(whole[i..i + n], a + i * d, d);
  }

  lemma {:induction false} GridWhole(whole: seq<Candle>, a: int, d: int)
    requires d > 0 && whole != [] && Grid(whole, a, d)
    ensures WholeRange(whole, d) && whole[|whole| - 1].timestamp + d == a + |whole| * d
  {
    hide CompleteRange;
    OneMore(|whole| - 1, d);
    GridIsComplete(whole, a, d);
  }

  // ---- no conflicts ----------------------------------------------------------------

  ghost predicate Apart(a: seq<Candle>, b: seq<Candle>) {
    forall x, y :: x in a && y in b ==> x.timestamp != y.timestamp
  }

  lemma {:induction false} GridsApart(a: seq<Candle>, start: int, b: seq<Candle>, later: int, d: int)
    requires d > 0 && Grid(a, start, d) && Grid(b, later, d) && start + |a| * d <= later
    ensures Apart(a, b) && Apart(b, a)
  {
    forall x, y | x in a && y in b ensures x.timestamp != y.timestamp {
      var i :| 0 <= i < |a| && a[i] == x;
      var j :| 0 <= j < |b| && b[j] == y;
      TimesOrder(i, |a|, d);
      TimesOrder(0, j, d);
    }
  }

  /** New moments are simply added. */
  lemma {:induction false} RecordNew(rows: seq<Candle>, fetched: seq<Candle>, start: int, d: int)
    requires d > 0 && Grid(fetched, start, d) && Apart(rows, fetched)
    ensures RecordAll(rows, fetched) == Ok(rows + fetched)
    decreases |fetched|
  {
    hide At;
    if fetched == [] {
      assert rows + fetched == rows;
    } else {
      var init, last := fetched[..|fetched| - 1], fetched[|fetched| - 1];
      RecordNew(rows, init, start, d);
      GridSorted(fetched, start, d);
      forall x | x in rows + init ensures x.timestamp != last.timestamp {
      }
      NotRecorded(rows + init, last.timestamp);
      assert rows + init + [last] == rows + fetched;
    }
  }

  // ---- the ranges ------------------------------------------------------------------

  /** What the provider delivers for the ranges, one after another. */
  function Delivered(provider: Provider, timeframe: Timeframe, pageLimit: nat, ranges: seq<(int, int)>)
    : Result<(seq<seq<Candle>>, nat), HistoryError>
  {
    if ranges == [] then Ok(([], 0))
    else
      var before :- Delivered(provider, timeframe, pageLimit, ranges[..|ranges| - 1]);
      var range := ranges[|ranges| - 1];
      var fetched := Fetch(provider, timeframe, range.0, range.1, pageLimit, before.1);
      var candles :- fetched.0;
      Ok((before.0 + [candles], before.1 + fetched.1))
  }

  function Total(ranges: seq<(int, int)>): int {
    if ranges == [] then 0 else Total(ranges[..|ranges| - 1]) + ranges[|ranges| - 1].1 - ranges[|ranges| - 1].0
  }

  ghost predicate RangesOnGrid(ranges: seq<(int, int)>, timeframe: Timeframe) {
    forall r :: r in ranges ==> r.0 < r.1 && OnGrid(r.0, timeframe) && OnGrid(r.1, timeframe)
  }

  /** Each part is exactly its range, at most one page per candle. */
  lemma {:induction false} DeliveredFits(provider: Provider, timeframe: Timeframe, pageLimit: nat, ranges: seq<(int, int)>)
    requires RangesOnGrid(ranges, timeframe)
    ensures var r := Delivered(provider, timeframe, pageLimit, ranges);
      r.Ok? ==> (|r.value.0| == |ranges| && r.value.1 * Duration(timeframe) <= Total(ranges)
        && forall i :: 0 <= i < |ranges| ==> ExactGrid(provider, r.value.0[i], ranges[i].0, ranges[i].1, Duration(timeframe)))
    decreases |ranges|
  {
    hide BucketStart, Duration, OnGrid, Fetch, ExactGrid;
    if ranges != [] {
      var init, range := ranges[..|ranges| - 1], ranges[|ranges| - 1];
      DeliveredFits(provider, timeframe, pageLimit, init);
      var before := Delivered(provider, timeframe, pageLimit, init);
      if before.Ok? {
        FetchIsGrid(provider, timeframe, range.0, range.1, pageLimit, before.value.1);
        SumTimes(before.value.1, Fetch(provider, timeframe, range.0, range.1, pageLimit, before.value.1).1, Duration(timeframe));
      }
    }
  }

  // ---- joining ---------------------------------------------------------------------

  lemma {:induction false} ReadOne(provider: Provider, timeframe: Timeframe, pageLimit: nat, rows: seq<Candle>, range: (int, int))
    requires var f := Fetch(provider, timeframe, range.0, range.1, pageLimit, 0).0;
      f.Ok? ==> Grid(f.value, range.0, Duration(timeframe)) && Apart(rows, f.value)
    ensures var f := Fetch(provider, timeframe, range.0, range.1, pageLimit, 0);
      && Delivered(provider, timeframe, pageLimit, [range]) == (if f.0.Ok? then Ok(([f.0.value], f.1)) else Err(f.0.error))
      && ReadRanges(provider, timeframe, pageLimit, rows, [range])
         == (if f.0.Ok? then Ok((rows + f.0.value, f.1)) else Err(f.0.error))
  {
    hide Duration, Fetch, RecordAll, Grid, Apart;
    var f := Fetch(provider, timeframe, range.0, range.1, pageLimit, 0).0;
    assert [range][..0] == [];
    if f.Ok? {
      RecordNew(rows, f.value, range.0, Duration(timeframe));
      assert [] + [f.value] == [f.value];
    }
  }

  lemma {:induction false} ReadTwo(provider: Provider, timeframe: Timeframe, pageLimit: nat, rows: seq<Candle>, one: (int, int), two: (int, int),
    d: int)
    requires d == Duration(timeframe)
    requires var f := Fetch(provider, timeframe, one.0, one.1, pageLimit, 0);
      f.0.Ok? ==> (Grid(f.0.value, one.0, d) && Apart(rows, f.0.value)
        && var g := Fetch(provider, timeframe, two.0, two.1, pageLimit, f.1).0;
          g.Ok? ==> Grid(g.value, two.0, d) && Apart(rows + f.0.value, g.value))
    ensures var f := Fetch(provider, timeframe, one.0, one.1, pageLimit, 0);
      var g := Fetch(provider, timeframe, two.0, two.1, pageLimit, f.1);
      && Delivered(provider, timeframe, pageLimit, [one, two])
         == (if f.0.Err? then Err(f.0.error) else if g.0.Err? then Err(g.0.error) else Ok(([f.0.value, g.0.value], f.1 + g.1)))
      && ReadRanges(provider, timeframe, pageLimit, rows, [one, two])
         == (if f.0.Err? then Err(f.0.error) else if g.0.Err? then Err(g.0.error) else Ok((rows + f.0.value + g.0.value, f.1 + g.1)))
  {
    hide Duration, Fetch, RecordAll, Grid, Apart;
    ReadOne(provider, timeframe, pageLimit, rows, one);
    assert [one, two][..1] == [one];
    var f := Fetch(provider, timeframe, one.0, one.1, pageLimit, 0);
    if f.0.Ok? {
      var g := Fetch(provider, timeframe, two.0, two.1, pageLimit, f.1).0;
      if g.Ok? {
        RecordNew(rows + f.0.value, g.value, two.0, d);
        assert [f.0.value] + [g.value] == [f.0.value, g.value];
      }
    }
  }

  /** The part of the cache that is kept. */
  ghost predicate Extends(whole: seq<Candle>, existing: seq<Candle>) {
    exists before, after :: whole == before + existing + after
  }

  lemma {:induction false} JoinedGrid(before: seq<Candle>, existing: seq<Candle>, after: seq<Candle>, first: int, d: int)
    requires Grid(before, first, d) && Grid(existing, first + |before| * d, d)
    requires Grid(after, first + |before| * d + |existing| * d, d)
    ensures Grid(before + existing + after, first, d)
    ensures |before + existing + after| * d == |before| * d + |existing| * d + |after| * d
    ensures Extends(before + existing + after, existing)
    ensures multiset(before + existing + after) == multiset(existing + before + after)
  {
    hide Grid;
    SumTimes(|before|, |existing|, d);
    SumTimes(|before| + |existing|, |after|, d);
    GridAppend(before, existing, first, d);
    GridAppend(before + existing, after, first, d);
  }

  /** What the cache and the provider together give: every candle from the one or the other. */
  ghost predicate Sourced(provider: Provider, existing: seq<Candle>, whole: seq<Candle>) {
    forall c :: c in whole ==> c in existing || Supplied(provider, c)
  }

  /** The rows a call ends up with form one grid that contains the cache and the request. */
  ghost predicate Joined(provider: Provider, rows: seq<Candle>, existing: seq<Candle>, whole: seq<Candle>, first: int, start: int, end: int, d: int) {
    && multiset(rows) == multiset(whole) && Grid(whole, first, d) && Extends(whole, existing)
    && Sourced(provider, existing, whole)
    && first <= start && end <= first + |whole| * d
  }

  /** The cached candles, if any, are a grid from a grid point on. */
  ghost predicate CacheGrid(existing: seq<Candle>, timeframe: Timeframe) {
    existing != [] ==> OnGrid(existing[0].timestamp, timeframe) && Grid(existing, existing[0].timestamp, Duration(timeframe))
  }

  lemma {:induction false} ReadFresh(provider: Provider, timeframe: Timeframe, pageLimit: nat, start: int, end: int)
    returns (whole: seq<Candle>, first: int)
    requires start < end && OnGrid(start, timeframe) && OnGrid(end, timeframe)
    ensures OnGrid(first, timeframe)
    ensures var r, p := ReadRanges(provider, timeframe, pageLimit, [], [(start, end)]), Delivered(provider, timeframe, pageLimit, [(start, end)]);
      Same(r, p) && (p.Ok? ==> Joined(provider, r.value.0, [], whole, first, start, end, Duration(timeframe)))
  {
    hide Duration, OnGrid, Fetch, Grid, Supplied, ReadRanges, Delivered;
    FetchIsGrid(provider, timeframe, start, end, pageLimit, 0);
    ReadOne(provider, timeframe, pageLimit, [], (start, end));
    var f := Fetch(provider, timeframe, start, end, pageLimit, 0).0;
    whole, first := if f.Ok? then f.value else [], start;
    assert [] + whole == whole;
    assert whole == [] + [] + whole;
  }

  /** The same outcome, with the same number of pages. */
  ghost predicate Same<A, B>(r: Result<(A, nat), HistoryError>, p: Result<(B, nat), HistoryError>) {
    (r.Ok? <==> p.Ok?) && (r.Ok? ==> r.value.1 == p.value.1) && (r.Err? ==> r.error == p.error)
  }

  lemma {:induction false} ReadBefore(provider: Provider, timeframe: Timeframe, pageLimit: nat, existing: seq<Candle>, start: int, end: int)
    returns (whole: seq<Candle>, first: int)
    requires existing != [] && CacheGrid(existing, timeframe) && OnGrid(start, timeframe) && start < existing[0].timestamp
    requires end <= existing[0].timestamp + |existing| * Duration(timeframe)
    ensures OnGrid(first, timeframe)
    ensures var ranges := [(start, existing[0].timestamp)];
      var r, p := ReadRanges(provider, timeframe, pageLimit, existing, ranges), Delivered(provider, timeframe, pageLimit, ranges);
      Same(r, p) && (p.Ok? ==> Joined(provider, r.value.0, existing, whole, first, start, end, Duration(timeframe)))
  {
    hide Duration, OnGrid, Fetch, Grid, Supplied, ReadRanges, Delivered, Extends, Apart;
    var a, d := existing[0].timestamp, Duration(timeframe);
    FetchIsGrid(provider, timeframe, start, a, pageLimit, 0);
    var f := Fetch(provider, timeframe, start, a, pageLimit, 0).0;
    whole, first := [], start;
    if f.Ok? {
      GridsApart(f.value, start, existing, a, d);
      NoRows(a + |existing| * d, d);
      JoinedGrid(f.value, existing, [], start, d);
      whole := f.value + existing + [];
      assert existing + f.value + [] == existing + f.value;
    }
    ReadOne(provider, timeframe, pageLimit, existing, (start, a));
  }

  lemma {:induction false} NoRows(start: int, d: int)
    ensures Grid([], start, d)
  {
  }

  lemma {:induction false} ReadAfter(provider: Provider, timeframe: Timeframe, pageLimit: nat, existing: seq<Candle>, start: int, end: int, after: int)
    returns (whole: seq<Candle>, first: int)
    requires existing != [] && CacheGrid(existing, timeframe) && OnGrid(end, timeframe) && existing[0].timestamp <= start
    requires after == existing[0].timestamp + |existing| * Duration(timeframe) && after < end && OnGrid(after, timeframe)
    ensures OnGrid(first, timeframe)
    ensures var ranges := [(after, end)];
      var r, p := ReadRanges(provider, timeframe, pageLimit, existing, ranges), Delivered(provider, timeframe, pageLimit, ranges);
      Same(r, p) && (p.Ok? ==> Joined(provider, r.value.0, existing, whole, first, start, end, Duration(timeframe)))
  {
    hide Duration, OnGrid, Fetch, Grid, Supplied, ReadRanges, Delivered, Extends, Apart;
    var a, d := existing[0].timestamp, Duration(timeframe);
    FetchIsGrid(provider, timeframe, after, end, pageLimit, 0);
    var f := Fetch(provider, timeframe, after, end, pageLimit, 0).0;
    whole, first := [], a;
    if f.Ok? {
      GridsApart(existing, a, f.value, after, d);
      NoRows(a, d);
      JoinedGrid([], existing, f.value, a, d);
      whole := [] + existing + f.value;
      assert existing + [] + f.value == existing + f.value;
    }
    ReadOne(provider, timeframe, pageLimit, existing, (after, end));
  }

  lemma {:induction false} ReadBoth(provider: Provider, timeframe: Timeframe, pageLimit: nat, existing: seq<Candle>, start: int, end: int, after: int)
    returns (whole: seq<Candle>, first: int)
    requires existing != [] && CacheGrid(existing, timeframe) && OnGrid(start, timeframe) && OnGrid(end, timeframe)
    requires start < existing[0].timestamp && after == existing[0].timestamp + |existing| * Duration(timeframe)
    requires after < end && OnGrid(after, timeframe)
    ensures OnGrid(first, timeframe)
    ensures var ranges := [(start, existing[0].timestamp), (after, end)];
      var r, p := ReadRanges(provider, timeframe, pageLimit, existing, ranges), Delivered(provider, timeframe, pageLimit, ranges);
      Same(r, p) && (p.Ok? ==> Joined(provider, r.value.0, existing, whole, first, start, end, Duration(timeframe)))
  {
    hide Duration, OnGrid, Fetch, Grid, Supplied, ReadRanges, Delivered, Extends, Apart;
    var a, d := existing[0].timestamp, Duration(timeframe);
    FetchIsGrid(provider, timeframe, start, a, pageLimit, 0);
    var f := Fetch(provider, timeframe, start, a, pageLimit, 0);
    whole, first := [], start;
    if f.0.Ok? {
      GridsApart(f.0.value, start, existing, a, d);
      FetchIsGrid(provider, timeframe, after, end, pageLimit, f.1);
      var g := Fetch(provider, timeframe, after, end, pageLimit, f.1).0;
      if g.Ok? {
        BothApart(existing, f.0.value, g.value, start, d);
        JoinedGrid(f.0.value, existing, g.value, start, d);
        whole := f.0.value + existing + g.value;
        assert Sourced(provider, existing, whole);
      }
    }
    ReadTwo(provider, timeframe, pageLimit, existing, (start, a), (after, end), d);
  }

  lemma {:induction false} BothApart(existing: seq<Candle>, before: seq<Candle>, later: seq<Candle>, start: int, d: int)
    requires d > 0 && Grid(before, start, d) && Grid(existing, start + |before| * d, d)
    requires Grid(later, start + |before| * d + |existing| * d, d)
    ensures Apart(existing + before, later)
  {
    hide Grid;
    TimesOrder(0, |existing|, d);
    GridsApart(existing, start + |before| * d, later, start + |before| * d + |existing| * d, d);
    GridsApart(before, start, later, start + |before| * d + |existing| * d, d);
  }

  /** The moment the cached candles end. */
  lemma {:induction false} CacheEnd(existing: seq<Candle>, timeframe: Timeframe)
    requires existing != [] && CacheGrid(existing, timeframe)
    ensures existing[|existing| - 1].timestamp + Duration(timeframe) == existing[0].timestamp + |existing| * Duration(timeframe)
    ensures OnGrid(existing[0].timestamp + |existing| * Duration(timeframe), timeframe)
  {
    hide Duration;
    var a, d := existing[0].timestamp, Duration(timeframe);
    OneMore(|existing| - 1, d);
    Shift(a - Offset(timeframe), |existing|, d);
  }

  /** Reading what is missing never conflicts: it fails only where the provider fails, and
      otherwise the rows are one grid holding the cache and the request. */
  lemma {:induction false} ReadMissing(provider: Provider, timeframe: Timeframe, pageLimit: nat, existing: seq<Candle>, start: int, end: int)
    returns (whole: seq<Candle>, first: int)
    requires start < end && OnGrid(start, timeframe) && OnGrid(end, timeframe)
    requires CacheGrid(existing, timeframe) && !Covers(existing, start, end, Duration(timeframe))
    ensures OnGrid(first, timeframe)
    ensures RangesOnGrid(Missing(existing, start, end, Duration(timeframe)), timeframe)
    ensures var ranges := Missing(existing, start, end, Duration(timeframe));
      var r, p := ReadRanges(provider, timeframe, pageLimit, existing, ranges), Delivered(provider, timeframe, pageLimit, ranges);
      Same(r, p) && (p.Ok? ==> Joined(provider, r.value.0, existing, whole, first, start, end, Duration(timeframe)))
  {
    hide Duration, OnGrid, Joined, Grid, ReadRanges, Delivered, Same;
    if existing == [] {
      whole, first := ReadFresh(provider, timeframe, pageLimit, start, end);
    } else {
      CacheEnd(existing, timeframe);
      var a, after := existing[0].timestamp, existing[0].timestamp + |existing| * Duration(timeframe);
      if start < a && end > after {
        whole, first := ReadBoth(provider, timeframe, pageLimit, existing, start, end, after);
      } else if start < a {
        whole, first := ReadBefore(provider, timeframe, pageLimit, existing, start, end);
      } else {
        whole, first := ReadAfter(provider, timeframe, pageLimit, existing, start, end, after);
      }
    }
  }

  lemma {:induction false} UsableGrid(stored: Option<Stored>, timeframe: Timeframe, name: string)
    ensures CacheGrid(Usable(LoadCache(stored, timeframe), name), timeframe)
  {
    hide BucketStart, Duration, OnGrid, CompleteRange;
    var existing := Usable(LoadCache(stored, timeframe), name);
    if existing != [] {
      AlignedOnGrid(existing[0].timestamp, timeframe);
      CompleteIsGrid(existing, existing[0].timestamp, existing[|existing| - 1].timestamp + Duration(timeframe), Duration(timeframe));
    }
  }

  lemma {:induction false} Position(timeframe: Timeframe, first: int, start: int) returns (i: nat)
    requires OnGrid(first, timeframe) && OnGrid(start, timeframe) && first <= start
    ensures start == first + i * Duration(timeframe)
  {
    hide Duration;
    var d := Duration(timeframe);
    Differ(start - Offset(timeframe), first - Offset(timeframe), d);
    i := (start - first) / d;
    assert start - first == i * d + (start - first) % d;
  }

  /** The answer: exactly the required candles up to the cutoff. */
  ghost predicate Exactly(candles: seq<Candle>, end: int, required: int, d: int) {
    |candles| == required && Grid(candles, end - required * d, d)
  }

  /** What the cache file holds afterwards loads again as one grid that covers the request,
      contains what was there, and gives the answer. */
  ghost predicate Keeps(answer: Answer, name: string, existing: seq<Candle>, timeframe: Timeframe, start: int, end: int) {
    var loaded := LoadCache(answer.stored, timeframe);
    && loaded.Cached? && loaded.provider == name
    && CacheGrid(loaded.candles, timeframe) && Covers(loaded.candles, start, end, Duration(timeframe))
    && Extends(loaded.candles, existing) && answer.candles == Slice(loaded.candles, start, end)
  }

  lemma {:induction false} CachedPart(existing: seq<Candle>, timeframe: Timeframe, end: int, required: int)
    requires CacheGrid(existing, timeframe) && required >= 1
    requires OnGrid(end - required * Duration(timeframe), timeframe)
    requires Covers(existing, end - required * Duration(timeframe), end, Duration(timeframe))
    ensures Exactly(Slice(existing, end - required * Duration(timeframe), end), end, required, Duration(timeframe))
  {
    hide Duration, OnGrid, Slice, Grid;
    var d := Duration(timeframe);
    var start := end - required * d;
    CacheEnd(existing, timeframe);
    var i := Position(timeframe, existing[0].timestamp, start);
    SumTimes(i, required, d);
    TimesOrder(i + required, |existing|, d);
    SliceOfGrid(existing, existing[0].timestamp, d, i, required);
  }

  /** Rows that join the cache and the request pass the checks and are saved. */
  lemma {:induction false} SavedPart(provider: Provider, name: string, existing: seq<Candle>, rows: seq<Candle>, whole: seq<Candle>, first: int,
    timeframe: Timeframe, end: int, required: int)
    requires required >= 1 && OnGrid(end - required * Duration(timeframe), timeframe) && OnGrid(first, timeframe)
    requires Joined(provider, rows, existing, whole, first, end - required * Duration(timeframe), end, Duration(timeframe))
    ensures var valid := Validated(rows, end - required * Duration(timeframe), end, Duration(timeframe));
      && valid.Ok? && valid.value.0 == whole
      && valid.value.1 == Slice(whole, end - required * Duration(timeframe), end)
      && Exactly(valid.value.1, end, required, Duration(timeframe))
      && forall pages :: Keeps(Answer(valid.value.1, Some(Stored(name, true, whole, true)), pages), name, existing, timeframe,
           end - required * Duration(timeframe), end)
  {
    hide Duration, OnGrid, Slice, Grid, BucketStart, Validated, WholeRange, Extends, Sourced;
    var d := Duration(timeframe);
    var start := end - required * d;
    var i := Position(timeframe, first, start);
    SumTimes(i, required, d);
    TimesOrder(i + required, |whole|, d);
    ValidatedGrid(rows, whole, first, d, i, required);
    SliceOfGrid(whole, first, d, i, required);
    GridWhole(whole, first, d);
    GridFirst(whole, first, d);
    GridAligned(first, timeframe);
  }

  lemma {:induction false} GridFirst(whole: seq<Candle>, first: int, d: int)
    requires whole != [] && Grid(whole, first, d)
    ensures whole[0].timestamp == first
  {
    assert 0 * d == 0;
  }

  /** The call gets as far as needing candles. */
  predicate Accepted(request: Request, stored: Option<Stored>) {
    && request.required >= 1
    && ResolveEnd(request.timeframe, request.endAt, request.now).Ok?
    && !LoadCache(stored, request.timeframe).Broken?
  }

  function Cutoff(request: Request): int {
    if request.endAt.Some? then request.endAt.value else BucketStart(request.now, request.timeframe)
  }

  function Since(request: Request): int {
    Cutoff(request) - request.required * Duration(request.timeframe)
  }

  function Existing(request: Request, stored: Option<Stored>): seq<Candle> {
    Usable(LoadCache(stored, request.timeframe), request.name)
  }

  predicate Hit(request: Request, stored: Option<Stored>) {
    Covers(Existing(request, stored), Since(request), Cutoff(request), Duration(request.timeframe))
  }

  /** What has to come from the provider. */
  function Needed(request: Request, stored: Option<Stored>): seq<(int, int)> {
    if Hit(request, stored) then []
    else Missing(Existing(request, stored), Since(request), Cutoff(request), Duration(request.timeframe))
  }

  /** A hit is answered from the cache as it is. */
  lemma {:induction false} HitIsExact(provider: Provider, request: Request, stored: Option<Stored>)
    requires Accepted(request, stored) && Hit(request, stored)
    ensures Ensured(provider, request, stored) == Ok(Answer(Slice(Existing(request, stored), Since(request), Cutoff(request)), stored, 0))
    ensures Exactly(Slice(Existing(request, stored), Since(request), Cutoff(request)), Cutoff(request), request.required, Duration(request.timeframe))
    ensures Keeps(Ensured(provider, request, stored).value, request.name, Existing(request, stored), request.timeframe, Since(request), Cutoff(request))
  {
    hide BucketStart, Duration, LoadCache, Slice, OnGrid, Exactly;
    var existing := Existing(request, stored);
    RequestOnGrid(request.timeframe, Cutoff(request), request.required);
    UsableGrid(stored, request.timeframe, request.name);
    CachedPart(existing, request.timeframe, Cutoff(request), request.required);
    assert existing == [] + existing + [];
  }

  lemma {:induction false} MissIsExact(provider: Provider, request: Request, stored: Option<Stored>)
    requires Accepted(request, stored) && !Hit(request, stored)
    ensures var r, p := Ensured(provider, request, stored),
        Delivered(provider, request.timeframe, request.pageLimit, Needed(request, stored));
      && (r.Ok? <==> p.Ok?) && (r.Err? ==> r.error == p.error)
      && (r.Ok? ==>
           (&& Exactly(r.value.candles, Cutoff(request), request.required, Duration(request.timeframe))
            && Keeps(r.value, request.name, Existing(request, stored), request.timeframe, Since(request), Cutoff(request))
            && Sourced(provider, Existing(request, stored), r.value.candles)
            && r.value.pages == p.value.1))
  {
    hide BucketStart, Duration, LoadCache, Slice, Covers, OnGrid, Missing, Delivered, ReadRanges, Validated, Exactly, Extends, Supplied;
    var existing, timeframe := Existing(request, stored), request.timeframe;
    RequestOnGrid(timeframe, Cutoff(request), request.required);
    UsableGrid(stored, timeframe, request.name);
    var whole, first := ReadMissing(provider, timeframe, request.pageLimit, existing, Since(request), Cutoff(request));
    var r := ReadRanges(provider, timeframe, request.pageLimit, existing, Needed(request, stored));
    if r.Ok? {
      SavedPart(provider, request.name, existing, r.value.0, whole, first, timeframe, Cutoff(request), request.required);
      SliceInside(whole, Since(request), Cutoff(request));
      var answer := Ensured(provider, request, stored).value;
      assert answer.candles == Slice(whole, Since(request), Cutoff(request));
    }
  }

  lemma {:induction false} SliceInside(whole: seq<Candle>, start: int, end: int)
    ensures forall c :: c in Slice(whole, start, end) ==> c in whole
  {
    forall c | c in Slice(whole, start, end) ensures c in whole {
      FilterKeeps(Between(start, end), whole, c);
    }
  }

  /** The bootstrap succeeds exactly when the request is acceptable, the cache file is not
      broken and the provider delivers what the cache lacks; the merge never conflicts and its
      checks never fail. Then the answer is exactly the required candles up to the cutoff, from
      the cache or the provider, and the saved history is one grid that covers the request,
      keeps what was cached and loads again. At most one page is read per missing candle. */
  lemma {:induction false} HistoryIsExact(provider: Provider, request: Request, stored: Option<Stored>)
    ensures Ensured(provider, request, stored).Ok?
      <==> Accepted(request, stored) && Delivered(provider, request.timeframe, request.pageLimit, Needed(request, stored)).Ok?
    ensures var r := Ensured(provider, request, stored);
      r.Ok? ==>
        (&& Exactly(r.value.candles, Cutoff(request), request.required, Duration(request.timeframe))
         && Keeps(r.value, request.name, Existing(request, stored), request.timeframe, Since(request), Cutoff(request))
         && Sourced(provider, Existing(request, stored), r.value.candles)
         && r.value.pages * Duration(request.timeframe) <= Total(Needed(request, stored)))
  {
    hide BucketStart, Duration, LoadCache, Slice, Covers, OnGrid, Missing, ReadRanges, Validated, Exactly, Keeps, Supplied, ExactGrid;
    if Accepted(request, stored) {
      if Hit(request, stored) {
        HitIsExact(provider, request, stored);
        SliceInside(Existing(request, stored), Since(request), Cutoff(request));
      } else {
        MissIsExact(provider, request, stored);
        NeededOnGrid(provider, request, stored);
        DeliveredFits(provider, request.timeframe, request.pageLimit, Needed(request, stored));
      }
    }
  }

  lemma {:induction false} NeededOnGrid(provider: Provider, request: Request, stored: Option<Stored>)
    requires Accepted(request, stored) && !Hit(request, stored)
    ensures RangesOnGrid(Needed(request, stored), request.timeframe)
  {
    hide BucketStart, Duration, LoadCache, Slice, Covers, OnGrid, Missing, Joined, Delivered, ReadRanges;
    RequestOnGrid(request.timeframe, Cutoff(request), request.required);
    UsableGrid(stored, request.timeframe, request.name);
    var _, _ := ReadMissing(provider, request.timeframe, request.pageLimit, Existing(request, stored), Since(request), Cutoff(request));
  }

  /** Asking again, for the same or fewer candles up to the same or an earlier cutoff, is
      answered from the saved history without a call to the provider. */
  lemma {:induction false} AskingAgain(provider: Provider, request: Request, stored: Option<Stored>, other: Provider, again: Request)
    requires Ensured(provider, request, stored).Ok?
    requires again.name == request.name && again.timeframe == request.timeframe
    requires again.required >= 1 && ResolveEnd(again.timeframe, again.endAt, again.now).Ok?
    requires Since(request) <= Since(again) && Cutoff(again) <= Cutoff(request)
    ensures var saved := Ensured(provider, request, stored).value.stored;
      && Ensured(other, again, saved).Ok?
      && Ensured(other, again, saved).value.pages == 0 && Ensured(other, again, saved).value.stored == saved
      && Ensured(other, again, saved).value.candles
         == Slice(Ensured(provider, request, stored).value.candles, Since(again), Cutoff(again))
  {
    hide BucketStart, Duration, LoadCache, Slice, OnGrid, Missing, ReadRanges, Validated, Exactly, Supplied, Delivered, Ensured, Extends;
    HistoryIsExact(provider, request, stored);
    var answer := Ensured(provider, request, stored).value;
    HitIsExact(other, again, answer.stored);
    SliceSlice(Existing(request, answer.stored), Since(request), Cutoff(request), Since(again), Cutoff(again));
  }

  lemma {:induction false} SliceSlice(whole: seq<Candle>, start: int, end: int, from: int, to: int)
    requires start <= from && to <= end
    ensures Slice(Slice(whole, start, end), from, to) == Slice(whole, from, to)
    decreases |whole|
  {
    if whole != [] {
      var init, last := whole[..|whole| - 1], whole[|whole| - 1];
      SliceSlice(init, start, end, from, to);
      var kept := Slice(init, start, end);
      var tail := if Between(start, end)(last) then [last] else [];
      assert Slice(whole, start, end) == kept + tail;
      if tail == [] {
        assert kept + tail == kept && !Between(from, to)(last);
        assert Slice(init, from, to) + [] == Slice(init, from, to);
      } else {
        assert (kept + [last])[..|kept|] == kept && (kept + [last])[|kept|] == last;
      }
    }
  }

  /** Without a usable cache an honest provider always gives the market's own candles. */
  lemma {:induction false} HonestHistory(provider: Provider, market: Market, request: Request)
    requires request.required >= 1 && request.pageLimit >= 1 && ResolveEnd(request.timeframe, request.endAt, request.now).Ok?
    requires Dated(market) && Honest(provider, market, request.timeframe, Cutoff(request))
    ensures Ensured(provider, request, None).Ok?
    ensures Ensured(provider, request, None).value.candles
         == MarketRows(market, Since(request), Duration(request.timeframe), request.required)
  {
    hide BucketStart, Duration, OnGrid, Slice, Honest, Fetch, Dated, Validated, Grid, CompleteRange, ReadRanges, MarketRows;
    var timeframe, n := request.timeframe, request.required;
    var d := Duration(timeframe);
    var start, end := Since(request), Cutoff(request);
    RequestOnGrid(timeframe, end, n);
    HonestFetch(provider, market, timeframe, start, n, request.pageLimit, 0);
    HonestRead(provider, market, timeframe, start, end, n, request.pageLimit);
    var rows := MarketRows(market, start, d, n);
    MarketGrid(market, start, d, n);
    assert rows[0..0 + n] == rows && start + 0 * d == start;
    ValidatedGrid(rows, rows, start, d, 0, n);
  }

  lemma {:induction false} HonestRead(provider: Provider, market: Market, timeframe: Timeframe, start: int, end: int, n: nat, pageLimit: nat)
    requires Dated(market)
    requires Fetch(provider, timeframe, start, end, pageLimit, 0).0 == Ok(MarketRows(market, start, Duration(timeframe), n))
    ensures ReadRanges(provider, timeframe, pageLimit, [], [(start, end)])
         == Ok((MarketRows(market, start, Duration(timeframe), n), Fetch(provider, timeframe, start, end, pageLimit, 0).1))
  {
    hide Duration, Fetch, Grid, Dated, ReadRanges, MarketRows;
    var rows := MarketRows(market, start, Duration(timeframe), n);
    MarketGrid(market, start, Duration(timeframe), n);
    assert Apart([], rows);
    ReadOne(provider, timeframe, pageLimit, [], (start, end));
    assert [] + rows == rows;
  }

  /** A provider for a market of equal candles, which answers with as many as it may. */
  function PlainMarket(): Market {
    (t: int) => Candle(t, 1.0, 1.0, 1.0, 1.0, 1.0)
  }

  function PlainProvider(d: int): Provider
    requires d > 0
  {
    (k: nat, cursor: int, end: int, limit: nat) =>
      var left := (end - cursor) / d;
      var n := if left < 0 then 0 else if left < limit then left else limit;
      seq(n, i => Row(PlainMarket()(cursor + i * d)))
  }

  lemma {:induction false} PlainIsHonest(timeframe: Timeframe, end: int)
    requires OnGrid(end, timeframe)
    ensures Dated(PlainMarket()) && Honest(PlainProvider(Duration(timeframe)), PlainMarket(), timeframe, end)
  {
    hide OnGrid, Duration;
    var d := Duration(timeframe);
    forall k: nat, cursor, limit: nat | limit >= 1 && OnGrid(cursor, timeframe) && cursor < end
      ensures HonestPage(PlainMarket(), d, cursor, end, limit, PlainProvider(d)(k, cursor, end, limit))
    {
      GridGap(cursor, end, timeframe);
      var left := (end - cursor) / d;
      FloorBounds(end - cursor, d);
      FactorOrder(0, left + 1, d);
      var n := if left < limit then left else limit;
      ScaleOrder(n, left, d);
    }
  }

  /** A cache file that cannot be used (damaged, or of another provider) is replaced as if it
      were not there, whatever the provider, exactly unless its rows can be read but have a gap:
      that error is not recognised as corruption, and every later call fails with it. */
  lemma {:induction false} UnusableCacheIsReplaced(request: Request, stored: Option<Stored>)
    requires request.required >= 1 && request.pageLimit >= 1 && ResolveEnd(request.timeframe, request.endAt, request.now).Ok?
    requires Existing(request, stored) == []
    ensures (forall provider :: Ensured(provider, request, stored) == Ensured(provider, request, None))
      <==> !LoadCache(stored, request.timeframe).Broken?
    ensures LoadCache(stored, request.timeframe).Broken? ==>
      forall provider :: Ensured(provider, request, stored) == Err(Incomplete)
  {
    hide BucketStart, Duration, Slice, ReadRanges, Validated, CompleteRange, ResolveEnd, OnGrid, Honest;
    if LoadCache(stored, request.timeframe).Broken? {
      BrokenFails(request, stored);
      var provider := PlainProvider(Duration(request.timeframe));
      CutoffOnGrid(request);
      PlainIsHonest(request.timeframe, Cutoff(request));
      HonestHistory(provider, PlainMarket(), request);
      assert Ensured(provider, request, stored) != Ensured(provider, request, None);
    } else {
      forall provider ensures Ensured(provider, request, stored) == Ensured(provider, request, None) {
        AsIfAbsent(provider, request, stored);
      }
    }
  }

  lemma {:induction false} CutoffOnGrid(request: Request)
    requires request.required >= 1 && ResolveEnd(request.timeframe, request.endAt, request.now).Ok?
    ensures OnGrid(Cutoff(request), request.timeframe)
  {
    hide BucketStart, Duration, OnGrid;
    RequestOnGrid(request.timeframe, Cutoff(request), request.required);
  }

  lemma {:induction false} BrokenFails(request: Request, stored: Option<Stored>)
    requires request.required >= 1 && ResolveEnd(request.timeframe, request.endAt, request.now).Ok?
    requires LoadCache(stored, request.timeframe).Broken?
    ensures forall provider :: Ensured(provider, request, stored) == Err(Incomplete)
  {
    hide BucketStart, Duration, Slice, ReadRanges, Validated, CompleteRange, ResolveEnd;
  }

  lemma {:induction false} AsIfAbsent(provider: Provider, request: Request, stored: Option<Stored>)
    requires request.required >= 1 && ResolveEnd(request.timeframe, request.endAt, request.now).Ok?
    requires Existing(request, stored) == [] && !LoadCache(stored, request.timeframe).Broken?
    ensures Ensured(provider, request, stored) == Ensured(provider, request, None)
  {
    hide BucketStart, Duration, Slice, ReadRanges, Validated, CompleteRange, ResolveEnd;
  }

  /** Such a file: two one-minute candles with the one between them missing. */
  lemma {:induction false} GapIsNotReplaced(provider: Provider, request: Request, sealed: bool)
    requires request.required >= 1 && ResolveEnd(request.timeframe, request.endAt, request.now).Ok? && request.timeframe.OneMinute?
    ensures var c := Candle(0, 1.0, 1.0, 1.0, 1.0, 1.0);
      Ensured(provider, request, Some(Stored(request.name, true, [c, c.(timestamp := 2 * MINUTE)], sealed))) == Err(Incomplete)
  {
    hide ReadRanges, Validated, ResolveEnd, CompleteRange;
    var c := Candle(0, 1.0, 1.0, 1.0, 1.0, 1.0);
    var candles := [c, c.(timestamp := 2 * MINUTE)];
    assert BucketStart(0, OneMinute) == 0;
    GapBreaks(candles, 0, 3 * MINUTE, MINUTE, 0);
  }

  lemma {:induction false} GapBreaks(candles: seq<Candle>, start: int, end: int, d: int, i: nat)
    requires d > 0 && i + 1 < |candles| && candles[i + 1].timestamp - candles[i].timestamp != d
    ensures !CompleteRange(candles, start, end, d)
  {
  }
}
