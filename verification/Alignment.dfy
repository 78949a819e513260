/** Alignment checks in bounded batches, with a native implementation that is never trusted:
    every verdict is compared with the reference before it counts. */
module Alignment {
  import opened Wrappers
  import opened Timeframes
  import DecimalPolicy

  const MAX_ITEMS: nat := 4096
  const MAX_INPUT_BYTES: nat := 131_072
  const MIN_TIMESTAMP: int := -62_135_596_800_000_000
  const MAX_TIMESTAMP: int := 253_402_300_799_999_999

  datatype Implementation = Python | Shadow | Rust

  /** What the iterator gives next: a candle with a readable moment, a candle without, or an
      exception of its own. */
  datatype Item = At(t: int) | Unreadable(error: nat) | Raises(error: nat)

  datatype Failure = Source(error: nat) | Misaligned(t: int) | Bucket(error: nat) | Native(code: string)

  /** One moment against its bucket; computing the bucket may fail, depending on the platform. */
  datatype Verdict = Aligned | OffGrid | Fails(error: nat)

  type Check = int -> Verdict

  /** JSON values as far as they are told apart. */
  datatype Json = Null | Int(i: int) | Str(s: string) | Other

  /** A native call raises, perhaps with a code, or returns something that may be a document. */
  datatype Outcome = Raised(code: Option<string>) | NotBytes | TooLong | Unparsable | Document(pairs: seq<(string, Json)>)

  type Core = (Timeframe, seq<int>) -> Outcome

  const CODES: set<string> := {"INVALID_INPUT", "INPUT_TOO_LARGE", "OUTPUT_TOO_LARGE", "INTERNAL_ERROR",
    "UNAVAILABLE", "SEMANTIC_MISMATCH", "INVALID_OUTPUT"}

  /** `RustComputeError`: any other code becomes INTERNAL_ERROR. */
  function Refusal(code: string): Failure {
    Native(if code in CODES then code else "INTERNAL_ERROR")
  }

  // ---- the reference ---------------------------------------------------------------

  /** `validate_candle_alignment`: one candle after another. */
  function Reference(check: Check, items: seq<Item>): Result<(), Failure> {
    if items == [] then Ok(())
    else
      match items[0]
      case Raises(error) => Err(Source(error))
      case Unreadable(error) => Err(Source(error))
      case At(t) =>
        match check(t)
        case OffGrid => Err(Misaligned(t))
        case Fails(error) => Err(Bucket(error))
        case Aligned => Reference(check, items[1..])
  }

  /** The reference accepts exactly when every item is an aligned candle; otherwise it reports
      the first item that is not. */
  lemma {:induction false} ReferenceIsFirst(check: Check, items: seq<Item>, k: nat)
    requires k <= |items| && forall i :: 0 <= i < k ==> Passes(check, items[i])
    ensures k == |items| ==> Reference(check, items) == Ok(())
    ensures k < |items| && !Passes(check, items[k]) ==> Reference(check, items) == Err(Complaint(check, items[k]))
    decreases k
  {
    if k > 0 {
      assert forall i :: 0 <= i < k - 1 ==> items[1..][i] == items[i + 1];
      ReferenceIsFirst(check, items[1..], k - 1);
    }
  }

  predicate Passes(check: Check, item: Item) {
    item.At? && check(item.t).Aligned?
  }

  function Complaint(check: Check, item: Item): Failure
    requires !Passes(check, item)
  {
    if !item.At? then Source(item.error)
    else if check(item.t).OffGrid? then Misaligned(item.t)
    else Bucket(check(item.t).error)
  }

  /** `python_alignment_oracle`: the index of the first misaligned moment. */
  function Oracle(check: Check, ts: seq<int>, from: nat): Result<Option<nat>, Failure>
    requires from <= |ts|
    decreases |ts| - from
  {
    if from == |ts| then Ok(None)
    else
      match check(ts[from])
      case OffGrid => Ok(Some(from))
      case Fails(error) => Err(Bucket(error))
      case Aligned => Oracle(check, ts, from + 1)
  }

  // ---- the native call -------------------------------------------------------------

  function Lookup(pairs: seq<(string, Json)>, key: string): Json {
    if pairs == [] then Other
    else if pairs[|pairs| - 1].0 == key then pairs[|pairs| - 1].1
    else Lookup(pairs[..|pairs| - 1], key)
  }

  /** The answer in a document: exactly the three keys, of the right version and count. */
  function Parsed(pairs: seq<(string, Json)>, n: nat): Option<Option<nat>> {
    var keys := set p | p in pairs :: p.0;
    if |pairs| != 3 || keys != {"contract_version", "first_misaligned_index", "item_count"} then None
    else
      var index := Lookup(pairs, "first_misaligned_index");
      if Lookup(pairs, "contract_version") != Str("1") || Lookup(pairs, "item_count") != Int(n) then None
      else if index.Null? then Some(None)
      else if index.Int? && 0 <= index.i < n then Some(Some(index.i))
      else None
  }

  predicate InputValid(ts: seq<int>) {
    |ts| <= MAX_ITEMS && forall t :: t in ts ==> MIN_TIMESTAMP <= t <= MAX_TIMESTAMP
  }

  function Sum(ts: seq<int>): nat {
    if ts == [] then 0
    else Sum(ts[..|ts| - 1]) + DecimalPolicy.Digits(DecimalPolicy.Abs(ts[|ts| - 1])) + (if ts[|ts| - 1] < 0 then 1 else 0)
  }

  function Name(timeframe: Timeframe): string {
    match timeframe
    case OneMinute => "1m"
    case ThreeMinutes => "3m"
    case FiveMinutes => "5m"
    case FifteenMinutes => "15m"
    case ThirtyMinutes => "30m"
    case OneHour => "1h"
    case TwoHours => "2h"
    case FourHours => "4h"
    case OneDay => "1d"
    case OneWeek => "1w"
  }

  /** Length of the encoded input: fixed text, numbers in decimal, commas between them. */
  function EncodedSize(timeframe: Timeframe, ts: seq<int>): nat {
    37 + |Name(timeframe)| + 19 + Sum(ts) + (if ts == [] then 0 else |ts| - 1) + 2
  }

  /** `evaluate_alignment`. */
  function Evaluate(implementation: Implementation, check: Check, core: Core, timeframe: Timeframe, ts: seq<int>)
    : Result<Option<nat>, Failure>
  {
    if !InputValid(ts) then Err(Refusal("INVALID_INPUT"))
    else
      var oracle :- Oracle(check, ts, 0);
      if implementation.Python? then Ok(oracle)
      else if EncodedSize(timeframe, ts) > MAX_INPUT_BYTES then Err(Refusal("INPUT_TOO_LARGE"))
      else
        match core(timeframe, ts)
        case Raised(code) => Err(Refusal(if code.Some? && |code.value| <= 32 then code.value else "INTERNAL_ERROR"))
        case NotBytes => Err(Refusal("INVALID_OUTPUT"))
        case TooLong => Err(Refusal("INVALID_OUTPUT"))
        case Unparsable => Err(Refusal("INVALID_OUTPUT"))
        case Document(pairs) =>
          match Parsed(pairs, |ts|)
          case None => Err(Refusal("INVALID_OUTPUT"))
          case Some(answer) => if answer != oracle then Err(Refusal("SEMANTIC_MISMATCH")) else Ok(answer)
  }

  /** The native core answers like the oracle. */
  predicate Faithful(check: Check, core: Core, timeframe: Timeframe, ts: seq<int>) {
    var oracle := Oracle(check, ts, 0);
    oracle.Ok? ==> var outcome := core(timeframe, ts); outcome.Document? && Parsed(outcome.pairs, |ts|) == Some(oracle.value)
  }

  lemma {:induction false} DigitsAtMost(c: nat, w: nat)
    requires w >= 1 && c < DecimalPolicy.Pow(10, w)
    ensures DecimalPolicy.Digits(c) <= w
    decreases w
  {
    if c >= 10 {
      DigitsAtMost(c / 10, w - 1);
    }
  }

  lemma {:induction false} MomentWidth(t: int)
    requires MIN_TIMESTAMP <= t <= MAX_TIMESTAMP
    ensures DecimalPolicy.Digits(DecimalPolicy.Abs(t)) + (if t < 0 then 1 else 0) <= 18
  {
    assert DecimalPolicy.Pow(10, 6) == 1_000_000;
    assert DecimalPolicy.Pow(10, 12) == 1_000_000_000_000;
    assert DecimalPolicy.Pow(10, 17) == 100_000_000_000_000_000;
    assert DecimalPolicy.Pow(10, 18) == 1_000_000_000_000_000_000;
    DigitsAtMost(DecimalPolicy.Abs(t), if t < 0 then 17 else 18);
  }

  lemma {:induction false} SumBound(ts: seq<int>)
    requires forall t :: t in ts ==> MIN_TIMESTAMP <= t <= MAX_TIMESTAMP
    ensures Sum(ts) <= 18 * |ts|
    decreases |ts|
  {
    if ts != [] {
      assert ts[|ts| - 1] in ts;
      var init := ts[..|ts| - 1];
      forall t | t in init ensures MIN_TIMESTAMP <= t <= MAX_TIMESTAMP {
        var i :| 0 <= i < |init| && init[i] == t;
        assert ts[i] in ts;
      }
      MomentWidth(ts[|ts| - 1]);
      SumBound(ts[..|ts| - 1]);
    }
  }

  /** An accepted input never exceeds the size limit. */
  lemma {:induction false} InputFits(timeframe: Timeframe, ts: seq<int>)
    requires InputValid(ts)
    ensures EncodedSize(timeframe, ts) <= MAX_INPUT_BYTES
  {
    SumBound(ts);
  }

  /** A native verdict only ever confirms the oracle: the evaluation is the oracle's where the
      core is faithful, and otherwise an error with one of the fixed codes. */
  lemma {:induction false} EvaluateIsGated(implementation: Implementation, check: Check, core: Core, timeframe: Timeframe, ts: seq<int>)
    requires InputValid(ts)
    ensures Evaluate(implementation, check, core, timeframe, ts) == Oracle(check, ts, 0)
      <==> implementation.Python? || Faithful(check, core, timeframe, ts)
    ensures Evaluate(implementation, check, core, timeframe, ts) == Oracle(check, ts, 0)
      || (Evaluate(implementation, check, core, timeframe, ts).Err?
          && exists code :: code in CODES && Evaluate(implementation, check, core, timeframe, ts).error == Native(code))
  {
    hide EncodedSize, InputValid, Oracle, Parsed;
    InputFits(timeframe, ts);
    OracleNotNative(check, ts, 0);
    assert "INVALID_OUTPUT" in CODES && "SEMANTIC_MISMATCH" in CODES && "INTERNAL_ERROR" in CODES;
  }

  lemma {:induction false} OracleNotNative(check: Check, ts: seq<int>, from: nat)
    requires from <= |ts|
    ensures Oracle(check, ts, from).Err? ==> Oracle(check, ts, from).error.Bucket?
    ensures Oracle(check, ts, from).Ok? && Oracle(check, ts, from).value.Some? ==> from <= Oracle(check, ts, from).value.value < |ts|
    decreases |ts| - from
  {
    if from < |ts| && check(ts[from]).Aligned? {
      OracleNotNative(check, ts, from + 1);
    }
  }

  // ---- batches ---------------------------------------------------------------------

  predicate Readable(items: seq<Item>) {
    forall i :: 0 <= i < |items| ==> items[i].At?
  }

  function Moments(items: seq<Item>): (ts: seq<int>)
    requires Readable(items)
    ensures |ts| == |items| && forall i :: 0 <= i < |ts| ==> items[i] == At(ts[i])
  {
    seq(|items|, i requires 0 <= i < |items| => items[i].t)
  }

  /** A moment is a datetime, so it is in range. */
  predicate Datetimes(items: seq<Item>) {
    forall i :: 0 <= i < |items| && items[i].At? ==> MIN_TIMESTAMP <= items[i].t <= MAX_TIMESTAMP
  }

  /** What the oracle finds in a run of candles is what the reference does next. */
  lemma {:induction false} OracleIsReference(check: Check, items: seq<Item>, ts: seq<int>, from: nat)
    requires from <= |ts| <= |items| && forall i :: 0 <= i < |ts| ==> items[i] == At(ts[i])
    ensures var o := Oracle(check, ts, from);
      Reference(check, items[from..]) == match o
        case Err(error) => Err(error)
        case Ok(Some(k)) => if k < |ts| then Err(Misaligned(ts[k])) else Ok(())
        case Ok(None) => Reference(check, items[|ts|..])
    decreases |ts| - from
  {
    if from < |ts| {
      assert items[from..][0] == At(ts[from]) && items[from..][1..] == items[from + 1..];
      OracleNotNative(check, ts, from + 1);
      OracleIsReference(check, items, ts, from + 1);
    }
  }

  /** The next items, up to a batch, the end or an exception of the iterator. */
  method NextBatch(items: seq<Item>, pos: nat, size: nat) returns (batch: seq<Item>, pending: Option<Failure>)
    requires pos <= |items|
    ensures pos + |batch| <= |items| && |batch| <= size && batch == items[pos..pos + |batch|]
    ensures forall i :: 0 <= i < |batch| ==> !batch[i].Raises?
    ensures pending.Some? ==>
      |batch| < size && pos + |batch| < |items| && items[pos + |batch|].Raises? && pending.value == Source(items[pos + |batch|].error)
    ensures pending.None? ==> |batch| == size || pos + |batch| == |items|
  {
    batch, pending := [], None;
    while |batch| < size && pos + |batch| < |items|
      invariant pos + |batch| <= |items| && |batch| <= size && batch == items[pos..pos + |batch|]
      invariant forall i :: 0 <= i < |batch| ==> !batch[i].Raises?
    {
      var item := items[pos + |batch|];
      if item.Raises? {
        return batch, Some(Source(item.error));
      }
      batch := batch + [item];
    }
  }

  /** The moments before the first unreadable candle, whose error is then the pending one. */
  method Normalize(batch: seq<Item>, pending0: Option<Failure>) returns (ts: seq<int>, pending: Option<Failure>)
    requires forall i :: 0 <= i < |batch| ==> !batch[i].Raises?
    ensures |ts| <= |batch| && forall i :: 0 <= i < |ts| ==> batch[i] == At(ts[i])
    ensures |ts| < |batch| ==> batch[|ts|].Unreadable? && pending == Some(Source(batch[|ts|].error))
    ensures |ts| == |batch| ==> pending == pending0
  {
    ts, pending := [], pending0;
    while |ts| < |batch|
      invariant |ts| <= |batch| && forall i :: 0 <= i < |ts| ==> batch[i] == At(ts[i])
      invariant pending == pending0
    {
      if batch[|ts|].Unreadable? {
        return ts, Some(Source(batch[|ts|].error));
      }
      ts := ts + [batch[|ts|].t];
    }
  }

  /** The items of one batch. */
  function Chunk(items: seq<Item>, pos: nat, size: nat): seq<Item>
    requires pos <= |items|
  {
    if pos + size <= |items| then items[pos..pos + size] else items[pos..]
  }

  /** The moments before the first item without one: what is evaluated of a batch. */
  function Lead(items: seq<Item>): (ts: seq<int>)
    ensures |ts| <= |items| && forall i :: 0 <= i < |ts| ==> items[i] == At(ts[i])
    ensures |ts| == |items| || !items[|ts|].At?
  {
    if items == [] || !items[0].At? then [] else [items[0].t] + Lead(items[1..])
  }

  lemma {:induction false} LeadIs(items: seq<Item>, ts: seq<int>)
    requires |ts| <= |items| && forall i :: 0 <= i < |ts| ==> items[i] == At(ts[i])
    requires |ts| == |items| || !items[|ts|].At?
    ensures Lead(items) == ts
  {
    var lead := Lead(items);
    assert |lead| == |ts|;
    forall i | 0 <= i < |ts| ensures lead[i] == ts[i] {
      assert items[i] == At(ts[i]);
    }
  }

  /** The core confirmed every batch. */
  ghost predicate Confirmed(check: Check, core: Core, timeframe: Timeframe, items: seq<Item>, size: nat)
    requires size > 0
  {
    forall pos: nat :: pos < |items| && pos % size == 0 ==>
      Readable(Chunk(items, pos, size)) && Faithful(check, core, timeframe, Moments(Chunk(items, pos, size)))
  }

  /** A batch that is evaluated: everything before it is aligned, and it does not start with an
      exception of the iterator. */
  ghost predicate Reached(check: Check, items: seq<Item>, size: nat, pos: nat)
    requires size > 0
  {
    pos < |items| && pos % size == 0 && !items[pos].Raises? && forall i :: 0 <= i < pos ==> Passes(check, items[i])
  }

  /** The core answers like the oracle on every batch that is evaluated. */
  ghost predicate FaithfulOn(check: Check, core: Core, timeframe: Timeframe, items: seq<Item>, size: nat)
    requires size > 0
  {
    forall pos: nat :: Reached(check, items, size, pos) ==> Faithful(check, core, timeframe, Lead(Chunk(items, pos, size)))
  }

  predicate NativeCode(failure: Failure) {
    failure.Native? && failure.code in CODES
  }

  /** The reference loop. */
  method ValidateEach(check: Check, items: seq<Item>) returns (r: Result<(), Failure>)
    ensures r == Reference(check, items)
  {
    for i := 0 to |items|
      invariant Reference(check, items) == Reference(check, items[i..])
    {
      assert items[i..][0] == items[i] && items[i..][1..] == items[i + 1..];
      match items[i] {
        case Raises(error) => return Err(Source(error));
        case Unreadable(error) => return Err(Source(error));
        case At(t) =>
          match check(t) {
            case OffGrid => return Err(Misaligned(t));
            case Fails(error) => return Err(Bucket(error));
            case Aligned =>
          }
      }
    }
    return Ok(());
  }

  /** Reference outcomes that need a pending error. */
  lemma {:induction false} PendingIsNext(check: Check, items: seq<Item>, ts: seq<int>, failure: Failure)
    requires |ts| < |items| && !items[|ts|].At? && failure == Source(items[|ts|].error)
    ensures Reference(check, items[|ts|..]) == Err(failure)
  {
    assert items[|ts|..][0] == items[|ts|];
  }

  lemma {:induction false} ReferenceNotNative(check: Check, items: seq<Item>)
    ensures Reference(check, items).Err? ==> !Reference(check, items).error.Native?
    decreases |items|
  {
    if items != [] {
      ReferenceNotNative(check, items[1..]);
    }
  }

  /** The oracle passes exactly aligned moments. */
  lemma {:induction false} OraclePasses(check: Check, ts: seq<int>, from: nat)
    requires from <= |ts|
    ensures Oracle(check, ts, from) == Ok(None) <==> forall i :: from <= i < |ts| ==> check(ts[i]).Aligned?
    decreases |ts| - from
  {
    if from < |ts| && check(ts[from]).Aligned? {
      OraclePasses(check, ts, from + 1);
    }
  }

  /** Some item of the batch that comes next does not pass. */
  ghost predicate FailsWithin(check: Check, rest: seq<Item>, size: nat) {
    exists q :: 0 <= q < size && q < |rest| && !Passes(check, rest[q])
  }

  /** One batch. If the core is faithful on it, an error is the reference's; if it is not, there
      is an error with a fixed code. Passing means that every item of the batch passes. */
  method CheckBatch(implementation: Implementation, check: Check, core: Core, timeframe: Timeframe,
    rest: seq<Item>, size: nat, batch: seq<Item>, pending0: Option<Failure>) returns (r: Result<(), Failure>)
    requires !implementation.Python? && Datetimes(rest) && |batch| <= size <= MAX_ITEMS
    requires |batch| <= |rest| && batch == rest[..|batch|] && forall i :: 0 <= i < |batch| ==> !batch[i].Raises?
    requires pending0.Some? ==> |batch| < |rest| && rest[|batch|].Raises? && pending0.value == Source(rest[|batch|].error)
    requires pending0.Some? ==> |batch| < size
    requires pending0.None? ==> |batch| == size || |batch| == |rest|
    ensures var faithful := Faithful(check, core, timeframe, Lead(Chunk(rest, 0, size)));
      && (!faithful ==> r.Err? && NativeCode(r.error))
      && (faithful && r.Err? ==> r == Reference(check, rest) && FailsWithin(check, rest, size))
    ensures r.Ok? ==> pending0.None? && Reference(check, rest) == Reference(check, rest[|batch|..])
    ensures r.Ok? ==> forall i :: 0 <= i < |batch| ==> Passes(check, rest[i])
  {
    hide Evaluate, Oracle, Faithful, InputValid, Reference, Datetimes;
    var ts, pending := Normalize(batch, pending0);
    LeadOfBatch(rest, size, batch, pending0, ts);
    InRange(rest, 0, ts);
    EvaluateIsGated(implementation, check, core, timeframe, ts);
    OracleIsReference(check, rest, ts, 0);
    OracleNotNative(check, ts, 0);
    OraclePasses(check, ts, 0);
    assert rest[0..] == rest;
    if !(Oracle(check, ts, 0) == Ok(None)) {
      ghost var i :| 0 <= i < |ts| && !check(ts[i]).Aligned?;
      assert !Passes(check, rest[i]);
    }
    var result := Evaluate(implementation, check, core, timeframe, ts);
    if result.Err? {
      return Err(result.error);
    }
    if result.value.Some? {
      return Err(Misaligned(ts[result.value.value]));
    }
    if pending.Some? {
      PendingIsNext(check, rest, ts, pending.value);
      assert !Passes(check, rest[|ts|]);
      return Err(pending.value);
    }
    return Ok(());
  }

  lemma {:induction false} LeadOfBatch(rest: seq<Item>, size: nat, batch: seq<Item>, pending: Option<Failure>, ts: seq<int>)
    requires |batch| <= size && |batch| <= |rest| && batch == rest[..|batch|]
    requires pending.Some? ==> |batch| < |rest| && rest[|batch|].Raises? && |batch| < size
    requires pending.None? ==> |batch| == size || |batch| == |rest|
    requires |ts| <= |batch| && forall i :: 0 <= i < |ts| ==> batch[i] == At(ts[i])
    requires |ts| < |batch| ==> batch[|ts|].Unreadable?
    ensures Lead(Chunk(rest, 0, size)) == ts
  {
    LeadIs(Chunk(rest, 0, size), ts);
  }

  lemma {:induction false} NextPosition(pos: nat, size: nat)
    requires size > 0 && pos % size == 0
    ensures (pos + size) % size == 0
  {
    assert pos == pos / size * size;
    FloorUnique(pos + size, size, pos / size + 1);
  }

  lemma {:induction false} NextMultiple(p: nat, q: nat, size: nat)
    requires size > 0 && p % size == 0 && q % size == 0 && q < p + size
    ensures q <= p
  {
    assert p == p / size * size && q == q / size * size;
    FactorOrder(q / size, p / size + 1, size);
    ScaleOrder(q / size, p / size, size);
  }

  /** Past a batch the next positions to look at are at least a batch away. */
  lemma {:induction false} FailsHere(check: Check, core: Core, timeframe: Timeframe, items: seq<Item>, size: nat, pos: nat)
    requires size > 0 && pos <= |items| && pos % size == 0 && FailsWithin(check, items[pos..], size)
    requires forall q: nat :: Reached(check, items, size, q) && q < pos ==> Faithful(check, core, timeframe, Lead(Chunk(items, q, size)))
    requires Reached(check, items, size, pos) ==> Faithful(check, core, timeframe, Lead(Chunk(items, pos, size)))
    ensures FaithfulOn(check, core, timeframe, items, size)
  {
    hide Faithful, Chunk, Lead, Passes;
    var q :| 0 <= q < size && q < |items[pos..]| && !Passes(check, items[pos..][q]);
    assert items[pos + q] == items[pos..][q];
    forall p: nat | Reached(check, items, size, p) ensures p <= pos {
      if p > pos {
        if p < pos + size {
          NextMultiple(pos, p, size);
        }
      }
    }
  }

  lemma {:induction false} ChunkFrom(items: seq<Item>, pos: nat, size: nat)
    requires pos <= |items|
    ensures Chunk(items[pos..], 0, size) == Chunk(items, pos, size)
  {
  }

  lemma {:induction false} ReachedStep(check: Check, core: Core, timeframe: Timeframe, items: seq<Item>, size: nat, pos: nat, n: nat)
    requires size > 0 && pos % size == 0 && pos + n <= |items| && n <= size
    requires forall q: nat :: Reached(check, items, size, q) && q < pos ==> Faithful(check, core, timeframe, Lead(Chunk(items, q, size)))
    requires Reached(check, items, size, pos) ==> Faithful(check, core, timeframe, Lead(Chunk(items, pos, size)))
    ensures forall q: nat :: Reached(check, items, size, q) && q < pos + n ==> Faithful(check, core, timeframe, Lead(Chunk(items, q, size)))
  {
    hide Faithful, Chunk, Lead, Passes;
    forall q: nat | Reached(check, items, size, q) && q < pos + n ensures q <= pos {
      NextMultiple(pos, q, size);
    }
  }

  lemma {:induction false} AllConfirmed(check: Check, core: Core, timeframe: Timeframe, items: seq<Item>, size: nat)
    requires size > 0 && FaithfulOn(check, core, timeframe, items, size)
    requires forall i :: 0 <= i < |items| ==> Passes(check, items[i])
    ensures Confirmed(check, core, timeframe, items, size)
  {
    hide Faithful;
    forall pos: nat | pos < |items| && pos % size == 0
      ensures Readable(Chunk(items, pos, size)) && Faithful(check, core, timeframe, Moments(Chunk(items, pos, size)))
    {
      assert Reached(check, items, size, pos);
      var chunk := Chunk(items, pos, size);
      forall i | 0 <= i < |chunk| ensures chunk[i].At? {
        assert chunk[i] == items[pos + i];
      }
      LeadIs(chunk, Moments(chunk));
    }
  }

  /** `MarketAlignmentValidator.__call__`, for any batch size up to the limit, any iterator and
      any native core: the outcome is that of the reference exactly if the core answers like the
      oracle on the batches that are evaluated, and otherwise an error with a fixed code. An
      acceptance means the core confirmed every batch. */
  method Validate(implementation: Implementation, check: Check, core: Core, timeframe: Timeframe, size: nat, items: seq<Item>)
    returns (r: Result<(), Failure>)
    requires 1 <= size <= MAX_ITEMS && Datetimes(items)
    ensures implementation.Python? ==> r == Reference(check, items)
    ensures !implementation.Python? ==>
      (r == Reference(check, items) <==> FaithfulOn(check, core, timeframe, items, size))
    ensures r == Reference(check, items) || (r.Err? && NativeCode(r.error))
    ensures r.Ok? && !implementation.Python? ==> Confirmed(check, core, timeframe, items, size)
  {
    hide Faithful, Datetimes, FaithfulOn, Confirmed, Lead, Chunk, Passes, FailsWithin, Reference;
    if implementation.Python? {
      r := ValidateEach(check, items);
      return;
    }
    ReferenceNotNative(check, items);
    var pos := 0;
    assert items[0..] == items;
    while true
      invariant pos <= |items| && (pos % size == 0 || pos == |items|)
      invariant Reference(check, items) == Reference(check, items[pos..])
      invariant forall i :: 0 <= i < pos ==> Passes(check, items[i])
      invariant forall q: nat :: Reached(check, items, size, q) && q < pos ==>
        Faithful(check, core, timeframe, Lead(Chunk(items, q, size)))
      decreases |items| - pos
    {
      var batch, pending := NextBatch(items, pos, size);
      if batch == [] {
        if pending.Some? {
          RaisedHere(check, items, pos, size, pending.value);
          FailsHere(check, core, timeframe, items, size, pos);
          return Err(pending.value);
        }
        EndReached(check, core, timeframe, items, size, pos);
        AllConfirmed(check, core, timeframe, items, size);
        return Ok(());
      }
      DatetimesFrom(items, pos);
      ChunkFrom(items, pos, size);
      var checked := CheckBatch(implementation, check, core, timeframe, items[pos..], size, batch, pending);
      if checked.Err? {
        if Faithful(check, core, timeframe, Lead(Chunk(items, pos, size))) {
          FailsHere(check, core, timeframe, items, size, pos);
        } else {
          UnfaithfulHere(check, core, timeframe, items, size, pos);
        }
        return checked;
      }
      assert items[pos..][|batch|..] == items[pos + |batch|..];
      ReachedStep(check, core, timeframe, items, size, pos, |batch|);
      PassedOn(check, items, pos, |batch|);
      if |batch| == size {
        NextPosition(pos, size);
      }
      pos := pos + |batch|;
    }
  }

  lemma {:induction false} PassedOn(check: Check, items: seq<Item>, pos: nat, n: nat)
    requires pos + n <= |items| && forall i :: 0 <= i < pos ==> Passes(check, items[i])
    requires forall i :: 0 <= i < n ==> Passes(check, items[pos..][i])
    ensures forall i :: 0 <= i < pos + n ==> Passes(check, items[i])
  {
    hide Passes;
    forall i | pos <= i < pos + n ensures Passes(check, items[i]) {
      assert items[i] == items[pos..][i - pos];
    }
  }

  lemma {:induction false} RaisedHere(check: Check, items: seq<Item>, pos: nat, size: nat, failure: Failure)
    requires pos < |items| && items[pos].Raises? && failure == Source(items[pos].error) && size > 0
    ensures Reference(check, items[pos..]) == Err(failure) && FailsWithin(check, items[pos..], size)
    ensures !Reached(check, items, size, pos)
  {
    assert items[pos..][0] == items[pos];
    assert !Passes(check, items[pos..][0]);
  }

  lemma {:induction false} EndReached(check: Check, core: Core, timeframe: Timeframe, items: seq<Item>, size: nat, pos: nat)
    requires size > 0 && pos == |items|
    requires forall q: nat :: Reached(check, items, size, q) && q < pos ==> Faithful(check, core, timeframe, Lead(Chunk(items, q, size)))
    ensures FaithfulOn(check, core, timeframe, items, size) && Reference(check, items[pos..]) == Ok(())
  {
    hide Faithful, Lead, Chunk;
  }

  lemma {:induction false} UnfaithfulHere(check: Check, core: Core, timeframe: Timeframe, items: seq<Item>, size: nat, pos: nat)
    requires size > 0 && Reached(check, items, size, pos) && !Faithful(check, core, timeframe, Lead(Chunk(items, pos, size)))
    ensures !FaithfulOn(check, core, timeframe, items, size)
  {
    hide Faithful, Lead, Chunk, Passes;
  }

  lemma {:induction false} DatetimesFrom(items: seq<Item>, pos: nat)
    requires Datetimes(items) && pos <= |items|
    ensures Datetimes(items[pos..])
  {
  }

  lemma {:induction false} InRange(items: seq<Item>, pos: nat, ts: seq<int>)
    requires Datetimes(items) && pos + |ts| <= |items| && |ts| <= MAX_ITEMS
    requires forall i :: 0 <= i < |ts| ==> items[pos + i] == At(ts[i])
    ensures InputValid(ts)
  {
    forall t | t in ts ensures MIN_TIMESTAMP <= t <= MAX_TIMESTAMP {
      var i :| 0 <= i < |ts| && ts[i] == t;
      assert items[pos + i].At?;
    }
  }
}
