/** Whether an append to the structure state depends on what was appended before: it does only
    while a refused zone has left the state stalled. */
module StructureHistory {
  import opened Wrappers
  import opened Resampling
  import opened Swings
  import opened Zones
  import opened Breaks
  import opened IncrementalStructure

  // ---- fields in step are those of a fresh object ------------------------------------

  lemma {:induction false} KeptUnique(c: Config, kind: SwingKind, swings: seq<Swing>, a: seq<PriceZone>, b: seq<PriceZone>)
    requires ZonesKept(c, kind, swings, a) && ZonesKept(c, kind, swings, b)
    ensures a == b
  {
    hide ZonesOf, AllAbove;
  }

  lemma {:induction false} InStepUnique(c: Config, f: Fields, g: Fields)
    requires InStep(c, f) && InStep(c, g) && f.candles == g.candles
    ensures f == g
  {
    hide SwingsOf, SwingCandidates, BreaksOf, PendingOf, ZonesKept, Positive, ValidSource;
    KeptUnique(c, Low, f.confirmed, f.support, g.support);
    KeptUnique(c, High, f.confirmed, f.resistance, g.resistance);
  }

  lemma {:induction false} FeedConcat(c: Config, f: Fields, first: seq<Candle>, second: seq<Candle>)
    requires WellFormed(c, f)
    ensures var r := Feed(c, f, first); Feed(c, f, first + second) == if r.ok then Feed(c, r.fields, second) else r
    decreases |first|
  {
    hide Step, WellFormed;
    if first == [] {
      assert first + second == second;
    } else {
      assert (first + second)[1..] == first[1..] + second;
      var one := Step(c, f, first[0]);
      if one.ok {
        FeedConcat(c, one.fields, first[1..], second);
      }
    }
  }

  /** Feeding what is left to fields in step ends like feeding everything to a fresh object. */
  lemma {:induction false} FeedLikeFresh(c: Config, f: Fields, incoming: seq<Candle>)
    requires InStep(c, f) && f.candles <= incoming && ValidSource(c, incoming)
    ensures WellFormed(c, f) && WellFormed(c, NOTHING)
    ensures Feed(c, f, incoming[|f.candles|..]) == Feed(c, NOTHING, incoming)
  {
    hide InStep, Stalled, Feed, ValidSource, WellFormed, SwingsOf, Positive;
    InStepFacts(c, f);
    NothingInStep(c);
    InStepFacts(c, NOTHING);
    assert f.candles[0..] == f.candles;
    FeedInStep(c, NOTHING, f.candles);
    var r := Feed(c, NOTHING, f.candles);
    InStepUnique(c, r.fields, f);
    FeedConcat(c, NOTHING, f.candles, incoming[|f.candles|..]);
    assert f.candles + incoming[|f.candles|..] == incoming;
  }

  /** A fresh object is refused within candles that stalled an object. */
  lemma {:induction false} FreshRefuses(c: Config, f: Fields, incoming: seq<Candle>)
    requires Stalled(c, f) && f.candles <= incoming && ValidSource(c, incoming)
    ensures WellFormed(c, NOTHING)
    ensures var r := Feed(c, NOTHING, incoming); !r.ok && r.fields.candles <= f.candles
  {
    hide InStep, Stalled, Feed, ValidSource, WellFormed, SwingsOf, Positive;
    StalledFacts(c, f);
    NothingInStep(c);
    InStepFacts(c, NOTHING);
    assert f.candles[0..] == f.candles;
    FeedInStep(c, NOTHING, f.candles);
    FeedConcat(c, NOTHING, f.candles, incoming[|f.candles|..]);
    assert f.candles + incoming[|f.candles|..] == incoming;
  }

  // ---- one append ------------------------------------------------------------------

  /** The same exception or none, and the same fields unless the candles are no valid source:
      those are refused before anything is looked at. */
  predicate Agree(a: Outcome, b: Outcome) {
    a.fault == b.fault && (a.fault != Some(UnusableSource) ==> a.fields == b.fields)
  }

  /** An append agrees with a fresh object given the same candles exactly unless it extends
      stalled fields by a valid source. */
  lemma {:induction false} AppendAgrees(c: Config, f: Fields, incoming: seq<Candle>)
    requires ConfigOk(c) && WellFormed(c, f) && (InStep(c, f) || Stalled(c, f))
    ensures WellFormed(c, NOTHING)
    ensures Agree(Appended(c, f, incoming), Appended(c, NOTHING, incoming))
       <==> !ValidSource(c, incoming) || InStep(c, f) || !(f.candles <= incoming)
  {
    hide InStep, Stalled, Feed, ValidSource, WellFormed, SwingsOf, Positive;
    NothingInStep(c);
    InStepFacts(c, NOTHING);
    AppendInStep(c, NOTHING, incoming);
    assert incoming[0..] == incoming;
    if InStep(c, f) || !(f.candles <= incoming) {
      AppendInStep(c, f, incoming);
      if ValidSource(c, incoming) && f.candles <= incoming {
        FeedLikeFresh(c, f, incoming);
        SourceTail(c, incoming, |f.candles|);
      }
    } else {
      AppendStalled(c, f, incoming);
      if ValidSource(c, incoming) {
        FreshRefuses(c, f, incoming);
      }
    }
  }

  lemma {:induction false} SourceTail(c: Config, candles: seq<Candle>, k: nat)
    requires ConfigOk(c) && ValidSource(c, candles) && k <= |candles|
    ensures ValidSource(c, candles[if k == 0 then 0 else k - 1..])
  {
    SourcePrefix(c, candles, k);
    SourceExtends(c, candles, k);
  }

  /** The call that was refused returns normally when it is repeated with the candles taken so
      far, and changes nothing. */
  lemma {:induction false} RefusedThenAccepted(c: Config, f: Fields)
    requires Stalled(c, f)
    ensures WellFormed(c, NOTHING) && Appended(c, NOTHING, f.candles).fault == Some(UnusableZone)
    ensures Appended(c, f, f.candles) == Outcome(f, None)
  {
    hide InStep, Stalled, ValidSource, WellFormed, SwingsOf, Positive;
    StalledFacts(c, f);
    NothingInStep(c);
    InStepFacts(c, NOTHING);
    AppendInStep(c, NOTHING, f.candles);
    SourceTail(c, f.candles, |f.candles|);
    assert f.candles[|f.candles|..] == [];
  }

  // ---- every history ---------------------------------------------------------------

  /** The fields after a history of appends to a new object. */
  function After(c: Config, calls: seq<seq<Candle>>): (f: Fields)
    requires ConfigOk(c)
    ensures WellFormed(c, f)
  {
    if calls == [] then NOTHING
    else Appended(c, After(c, calls[..|calls| - 1]), calls[|calls| - 1]).fields
  }

  /** Some append was refused for a zone, and every later one extended the candles known then. */
  predicate RefusedSince(c: Config, calls: seq<seq<Candle>>)
    requires ConfigOk(c)
  {
    calls != [] &&
    var init, last := calls[..|calls| - 1], calls[|calls| - 1];
    var before := After(c, init);
    Appended(c, before, last).fault == Some(UnusableZone) || (RefusedSince(c, init) && before.candles <= last)
  }

  lemma {:induction false} AfterHistory(c: Config, calls: seq<seq<Candle>>)
    requires ConfigOk(c)
    ensures if RefusedSince(c, calls) then Stalled(c, After(c, calls)) else InStep(c, After(c, calls))
    decreases |calls|
  {
    hide InStep, Stalled, Appended, ValidSource, WellFormed, SwingsOf, Positive;
    if calls == [] {
      NothingInStep(c);
    } else {
      var init, last := calls[..|calls| - 1], calls[|calls| - 1];
      AfterHistory(c, init);
      var before := After(c, init);
      StalledOrInStep(c, before);
      if InStep(c, before) || !(before.candles <= last) {
        AppendInStep(c, before, last);
      } else {
        AppendStalled(c, before, last);
      }
    }
  }

  /** Independence of history, and exactly when it fails: an append agrees with a fresh object
      given the same candles unless they are a valid source that extends candles for which a zone
      was refused. */
  lemma {:induction false} HistoryIndependence(c: Config, calls: seq<seq<Candle>>, incoming: seq<Candle>)
    requires ConfigOk(c)
    ensures WellFormed(c, NOTHING)
    ensures Agree(Appended(c, After(c, calls), incoming), Appended(c, NOTHING, incoming))
       <==> !ValidSource(c, incoming) || !RefusedSince(c, calls) || !(After(c, calls).candles <= incoming)
  {
    hide InStep, Stalled, Appended, ValidSource, WellFormed, Agree, RefusedSince, After;
    AfterHistory(c, calls);
    StalledOrInStep(c, After(c, calls));
    AppendAgrees(c, After(c, calls), incoming);
  }

  lemma {:induction false} StalledOrInStep(c: Config, f: Fields)
    ensures !(InStep(c, f) && Stalled(c, f))
  {
    hide SwingsOf, SwingCandidates, BreaksOf, PendingOf, ZonesKept, Positive, ValidSource, WellFormed;
  }

  // ---- an instance -----------------------------------------------------------------

  const CONFIG := Config(1.0, 1, 1, Strict, 2, 0, Close, 0, 0, 2, 60)

  const CANDLES := [
    Candle(0, 4.0, 4.0, 3.0, 4.0, 1.0), Candle(60, 4.0, 4.0, 2.0, 4.0, 1.0), Candle(120, 4.0, 4.0, 3.0, 4.0, 1.0)]

  /** The fields after two candles, and after the third was refused. */
  const LOW := Candidate(Low, 1, 60, 2.0, 120, 0, Pending, None)
  const TWO_SEEN := Fields(CANDLES[..2], [LOW], [], UNBROKEN, [0], [], [])
  const REFUSED := Fields(
    CANDLES, [LOW.(observedRight := 1, resolution := Confirmed, resolvedAt := Some(180))],
    [Swing(Low, 1, 60, 2.0, 120, 180, [0], [120])], UNBROKEN, [0], [], [])

  lemma {:induction false} NothingBreaks(candle: Candle)
    ensures BreakAt(CONFIG, [], UNBROKEN, candle) == UNBROKEN
  {
  }

  lemma {:induction false} FirstTwo()
    ensures WellFormed(CONFIG, NOTHING)
    ensures Feed(CONFIG, NOTHING, CANDLES[..2]) == Stepped(TWO_SEEN, true)
  {
    hide BreakAt;
    var one := NOTHING.(candles := CANDLES[..1]);
    NothingBreaks(CANDLES[0]);
    NothingBreaks(CANDLES[1]);
    assert Step(CONFIG, NOTHING, CANDLES[0]) == Stepped(one, true);
    assert CANDLES[..1] + [CANDLES[1]] == CANDLES[..2];
    assert Step(CONFIG, one, CANDLES[1]) == Stepped(TWO_SEEN, true);
    assert CANDLES[..2][1..] == [CANDLES[1]];
    assert Feed(CONFIG, one, [CANDLES[1]]) == Stepped(TWO_SEEN, true);
  }

  lemma {:induction false} LowConfirms()
    ensures Updated(CONFIG, CANDLES, LOW) == REFUSED.candidates[0]
    ensures SwingOf(CONFIG, CANDLES, Pivot(1, Low)) == REFUSED.confirmed[0]
    ensures ZoneInto(CONFIG, [], REFUSED.confirmed[0]) == None
  {
    assert CANDLES[0..1] == [CANDLES[0]] && CANDLES[2..3] == [CANDLES[2]];
  }

  lemma {:induction false} ThirdRefused()
    ensures WellFormed(CONFIG, TWO_SEEN) && Step(CONFIG, TWO_SEEN, CANDLES[2]) == Stepped(REFUSED, false)
  {
    hide BreakAt, Updated, SwingOf, ZoneInto, OpenedBoth;
    assert CANDLES[..2] + [CANDLES[2]] == CANDLES;
    assert WellFormed(CONFIG, TWO_SEEN);
    LowConfirms();
    LongerHistory(CONFIG, TWO_SEEN, CANDLES[2]);
    var f := TWO_SEEN.(candles := CANDLES);
    assert ResolveOne(CONFIG, f, 0) == Stepped(REFUSED, false);
    assert Resolve(CONFIG, f, [0], []) == Turn(REFUSED, [], false);
  }

  /** Lows 3, 2, 3 with a padding of two ticks: a zone around 2 would reach down to zero. The first
      append is refused; the second, of the same candles, is not, and the state then holds a
      confirmed low without a zone. */
  lemma {:induction false} SecondAppendIsAccepted()
    ensures ConfigOk(CONFIG) && WellFormed(CONFIG, NOTHING) && WellFormed(CONFIG, REFUSED)
    ensures Appended(CONFIG, NOTHING, CANDLES) == Outcome(REFUSED, Some(UnusableZone))
    ensures Appended(CONFIG, REFUSED, CANDLES) == Outcome(REFUSED, None)
    ensures REFUSED.confirmed != [] && REFUSED.support == []
  {
    hide Step, InStep, Stalled, WellFormed;
    FirstTwo();
    ThirdRefused();
    NothingInStep(CONFIG);
    FeedConcat(CONFIG, NOTHING, CANDLES[..2], CANDLES[2..]);
    assert CANDLES[..2] + CANDLES[2..] == CANDLES;
    AppendInStep(CONFIG, NOTHING, CANDLES);
    RefusedThenAccepted(CONFIG, REFUSED);
  }
}
