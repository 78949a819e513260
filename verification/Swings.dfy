/** Swing points: the reference detector over a whole candle history, and how its answer
    grows when one candle is added. */
module Swings {
  import opened Wrappers
  import opened Resampling

  datatype TiePolicy = Strict | Earliest | Latest
  datatype SwingKind = High | Low
  datatype Resolution = Pending | Confirmed | Rejected
  datatype Basis = Close | Wick

  datatype Config = Config(
    tick: real, left: nat, right: nat, policy: TiePolicy, trendPoints: nat, equalityTicks: nat,
    basis: Basis, bufferTicks: nat, mergeTicks: nat, paddingTicks: nat, duration: int)

  predicate ConfigOk(c: Config) {
    c.tick > 0.0 && c.left >= 1 && c.right >= 1 && c.trendPoints >= 2 && c.duration > 0
  }

  /** A swing is named after its kind and the time of its pivot. */
  type SwingId = (SwingKind, int)

  datatype Candidate = Candidate(
    kind: SwingKind, pivotIndex: nat, pivotTimestamp: int, price: real, candidateAt: int,
    observedRight: nat, resolution: Resolution, resolvedAt: Option<int>)

  datatype Swing = Swing(
    kind: SwingKind, pivotIndex: nat, pivotTimestamp: int, price: real, candidateAt: int, confirmedAt: int,
    leftEvidence: seq<int>, rightEvidence: seq<int>)
  {
    function Id(): SwingId {
      (kind, pivotTimestamp)
    }
  }

  datatype Pivot = Pivot(index: nat, kind: SwingKind)

  // ---- qualification ---------------------------------------------------------------

  function PriceOf(kind: SwingKind, c: Candle): real {
    if kind.High? then c.high else c.low
  }

  predicate Beats(kind: SwingKind, strict: bool, price: real, other: real) {
    if kind.High? then (if strict then price > other else price >= other)
    else (if strict then price < other else price <= other)
  }

  /** Every bar of the left window is beaten, strictly unless ties go to the latest pivot. */
  predicate LeftQualifies(c: Config, candles: seq<Candle>, p: Pivot)
    requires c.left <= p.index < |candles|
  {
    forall i :: p.index - c.left <= i < p.index ==>
      Beats(p.kind, !c.policy.Latest?, PriceOf(p.kind, candles[p.index]), PriceOf(p.kind, candles[i]))
  }

  /** Every bar of the right window is beaten, strictly unless ties go to the earliest pivot. */
  predicate RightQualifies(c: Config, candles: seq<Candle>, p: Pivot)
    requires p.index + c.right < |candles|
  {
    forall i :: p.index < i <= p.index + c.right ==>
      Beats(p.kind, !c.policy.Earliest?, PriceOf(p.kind, candles[p.index]), PriceOf(p.kind, candles[i]))
  }

  function Times(candles: seq<Candle>): seq<int> {
    Opens(candles)
  }

  // ---- the reference ---------------------------------------------------------------

  /** The pivots that open at an index: HIGH before LOW. */
  function PivotsAt(c: Config, candles: seq<Candle>, i: nat): seq<Pivot>
    requires i < |candles|
  {
    if i < c.left then []
    else
      (if LeftQualifies(c, candles, Pivot(i, High)) then [Pivot(i, High)] else [])
      + (if LeftQualifies(c, candles, Pivot(i, Low)) then [Pivot(i, Low)] else [])
  }

  function Pivots(c: Config, candles: seq<Candle>): seq<Pivot> {
    if candles == [] then []
    else Pivots(c, candles[..|candles| - 1]) + PivotsAt(c, candles, |candles| - 1)
  }

  /** Right bars seen so far, capped at the window. */
  function Observed(c: Config, n: nat, p: Pivot): nat
    requires p.index < n
  {
    if n - p.index - 1 < c.right then n - p.index - 1 else c.right
  }

  function CandidateOf(c: Config, candles: seq<Candle>, p: Pivot): Candidate
    requires c.left <= p.index < |candles|
  {
    var pivot := candles[p.index];
    var observed := Observed(c, |candles|, p);
    var full := observed == c.right;
    Candidate(p.kind, p.index, pivot.timestamp, PriceOf(p.kind, pivot), pivot.timestamp + c.duration, observed,
              if !full then Pending
              else if LeftQualifies(c, candles, p) && RightQualifies(c, candles, p) then Confirmed else Rejected,
              if full then Some(candles[p.index + c.right].timestamp + c.duration) else None)
  }

  function SwingOf(c: Config, candles: seq<Candle>, p: Pivot): Swing
    requires c.left <= p.index && p.index + c.right < |candles|
  {
    var pivot := candles[p.index];
    Swing(p.kind, p.index, pivot.timestamp, PriceOf(p.kind, pivot), pivot.timestamp + c.duration,
          candles[p.index + c.right].timestamp + c.duration,
          Times(candles[p.index - c.left..p.index]), Times(candles[p.index + 1..p.index + 1 + c.right]))
  }

  ghost predicate InReach(c: Config, n: nat, pivots: seq<Pivot>) {
    forall i :: 0 <= i < |pivots| ==> c.left <= pivots[i].index < n
  }

  function Candidates(c: Config, candles: seq<Candle>, pivots: seq<Pivot>): (r: seq<Candidate>)
    requires InReach(c, |candles|, pivots)
    ensures |r| == |pivots| && forall i :: 0 <= i < |r| ==> r[i] == CandidateOf(c, candles, pivots[i])
  {
    seq(|pivots|, i requires 0 <= i < |pivots| => CandidateOf(c, candles, pivots[i]))
  }

  function ConfirmedSwings(c: Config, candles: seq<Candle>, pivots: seq<Pivot>): seq<Swing>
    requires InReach(c, |candles|, pivots)
  {
    if pivots == [] then []
    else
      var last := pivots[|pivots| - 1];
      var earlier := ConfirmedSwings(c, candles, pivots[..|pivots| - 1]);
      if CandidateOf(c, candles, last).resolution.Confirmed? then earlier + [SwingOf(c, candles, last)] else earlier
  }

  /** Pivots in index order, each once. */
  ghost predicate Ascending(pivots: seq<Pivot>) {
    forall i, j :: 0 <= i < j < |pivots| ==> pivots[i].index <= pivots[j].index && pivots[i] != pivots[j]
  }

  lemma {:induction false} PivotsAtIndex(c: Config, candles: seq<Candle>, i: nat)
    requires i < |candles|
    ensures Ascending(PivotsAt(c, candles, i))
    ensures forall k :: 0 <= k < |PivotsAt(c, candles, i)| ==> PivotsAt(c, candles, i)[k].index == i >= c.left
  {
    hide LeftQualifies;
  }

  lemma {:induction false} AscendingAppend(pivots: seq<Pivot>, extra: seq<Pivot>, n: nat)
    requires Ascending(pivots) && Ascending(extra)
    requires forall i :: 0 <= i < |pivots| ==> pivots[i].index < n
    requires forall i :: 0 <= i < |extra| ==> extra[i].index == n
    ensures Ascending(pivots + extra)
  {
  }

  lemma {:induction false} PivotsInReach(c: Config, candles: seq<Candle>)
    ensures InReach(c, |candles|, Pivots(c, candles)) && Ascending(Pivots(c, candles))
    decreases |candles|
  {
    hide PivotsAt, Ascending;
    if candles == [] {
      assert Ascending([]) by { NoPivots(); }
    } else {
      var n := |candles| - 1;
      PivotsInReach(c, candles[..n]);
      PivotsAtIndex(c, candles, n);
      AscendingAppend(Pivots(c, candles[..n]), PivotsAt(c, candles, n), n);
    }
  }

  lemma {:induction false} NoPivots()
    ensures Ascending([])
  {
  }

  /** All candidates and confirmed swings of a history. */
  function SwingCandidates(c: Config, candles: seq<Candle>): seq<Candidate> {
    PivotsInReach(c, candles);
    Candidates(c, candles, Pivots(c, candles))
  }

  function SwingsOf(c: Config, candles: seq<Candle>): seq<Swing> {
    PivotsInReach(c, candles);
    ConfirmedSwings(c, candles, Pivots(c, candles))
  }

  // ---- adding a candle -------------------------------------------------------------

  /** The qualification of a pivot looks only at its own windows. */
  lemma {:induction false} CandidateStays(c: Config, candles: seq<Candle>, more: seq<Candle>, p: Pivot)
    requires c.left <= p.index < |candles| && candles <= more
    ensures p.index + c.right < |candles| ==>
      CandidateOf(c, more, p) == CandidateOf(c, candles, p) && SwingOf(c, more, p) == SwingOf(c, candles, p)
    ensures p.index + c.right >= |candles| ==> CandidateOf(c, candles, p).resolution.Pending?
    ensures LeftQualifies(c, more, p) == LeftQualifies(c, candles, p)
  {
    if p.index + c.right < |candles| {
      assert more[p.index - c.left..p.index] == candles[p.index - c.left..p.index];
      assert more[p.index + 1..p.index + 1 + c.right] == candles[p.index + 1..p.index + 1 + c.right];
      assert RightQualifies(c, more, p) == RightQualifies(c, candles, p);
    }
  }

  /** The swings that the last candle completes, in pivot order. */
  function NewSwings(c: Config, candles: seq<Candle>, pivots: seq<Pivot>): seq<Swing>
    requires InReach(c, |candles|, pivots)
  {
    if pivots == [] then []
    else
      var last := pivots[|pivots| - 1];
      var earlier := NewSwings(c, candles, pivots[..|pivots| - 1]);
      if last.index + c.right == |candles| - 1 && CandidateOf(c, candles, last).resolution.Confirmed?
      then earlier + [SwingOf(c, candles, last)] else earlier
  }

  lemma {:induction false} NothingNew(c: Config, candles: seq<Candle>, pivots: seq<Pivot>)
    requires InReach(c, |candles|, pivots)
    requires forall i :: 0 <= i < |pivots| ==> pivots[i].index + c.right < |candles| - 1
    ensures NewSwings(c, candles, pivots) == []
    decreases |pivots|
  {
    hide CandidateOf, SwingOf;
    if pivots != [] {
      NothingNew(c, candles, pivots[..|pivots| - 1]);
    }
  }

  /** Confirmation order is pivot order: one more candle only appends to the confirmed swings,
      and appends exactly those whose right window it fills. */
  lemma {:induction false} ConfirmedGrow(c: Config, candles: seq<Candle>, pivots: seq<Pivot>)
    requires candles != [] && InReach(c, |candles| - 1, pivots) && Ascending(pivots)
    ensures ConfirmedSwings(c, candles, pivots)
         == ConfirmedSwings(c, candles[..|candles| - 1], pivots) + NewSwings(c, candles, pivots)
    decreases |pivots|
  {
    hide SwingOf, CandidateOf;
    assert pivots != [] ==> Ascending(pivots[..|pivots| - 1]);
    var before := candles[..|candles| - 1];
    if pivots != [] {
      var init, last := pivots[..|pivots| - 1], pivots[|pivots| - 1];
      ConfirmedGrow(c, candles, init);
      CandidateStays(c, before, candles, last);
      if last.index + c.right < |candles| - 1 {
        NothingNew(c, candles, init);
        NothingNew(c, candles, pivots);
      } else if last.index + c.right > |candles| - 1 {
        StillPending(c, candles, last);
      }
    }
  }

  lemma {:induction false} StillPending(c: Config, candles: seq<Candle>, p: Pivot)
    requires c.left <= p.index < |candles| <= p.index + c.right
    ensures CandidateOf(c, candles, p).resolution.Pending?
  {
  }

  /** Pivots that have just opened are pending. */
  lemma {:induction false} FreshPending(c: Config, candles: seq<Candle>, pivots: seq<Pivot>, extra: seq<Pivot>)
    requires InReach(c, |candles|, pivots + extra) && c.right >= 1
    requires forall i :: 0 <= i < |extra| ==> extra[i].index == |candles| - 1
    ensures InReach(c, |candles|, pivots)
    ensures ConfirmedSwings(c, candles, pivots + extra) == ConfirmedSwings(c, candles, pivots)
    decreases |extra|
  {
    hide SwingOf;
    assert forall i :: 0 <= i < |pivots| ==> (pivots + extra)[i] == pivots[i];
    if extra == [] {
      assert pivots + extra == pivots;
    } else {
      var init := extra[..|extra| - 1];
      assert (pivots + extra)[..|pivots + extra| - 1] == pivots + init;
      FreshPending(c, candles, pivots, init);
    }
  }

  /** The confirmed swings after one more candle. */
  lemma {:induction false} SwingsStep(c: Config, candles: seq<Candle>)
    requires candles != [] && c.right >= 1
    ensures InReach(c, |candles| - 1, Pivots(c, candles[..|candles| - 1]))
    ensures SwingsOf(c, candles)
         == SwingsOf(c, candles[..|candles| - 1]) + NewSwings(c, candles, Pivots(c, candles[..|candles| - 1]))
  {
    hide SwingOf, CandidateOf, LeftQualifies;
    var before := candles[..|candles| - 1];
    PivotsInReach(c, before);
    PivotsInReach(c, candles);
    FreshPending(c, candles, Pivots(c, before), PivotsAt(c, candles, |candles| - 1));
    ConfirmedGrow(c, candles, Pivots(c, before));
  }

  /** No look-ahead: later candles only append to the confirmed swings. */
  lemma {:induction false} SwingsNeverRevised(c: Config, candles: seq<Candle>, k: nat)
    requires k <= |candles| && c.right >= 1
    ensures SwingsOf(c, candles[..k]) <= SwingsOf(c, candles)
    decreases |candles|
  {
    hide SwingsOf;
    if k < |candles| {
      var before := candles[..|candles| - 1];
      SwingsStep(c, candles);
      SwingsNeverRevised(c, before, k);
      assert before[..k] == candles[..k];
    } else {
      assert candles[..k] == candles;
    }
  }

  // ---- the reference as a loop -----------------------------------------------------

  lemma {:induction false} PivotsPrefix(c: Config, candles: seq<Candle>, k: nat)
    requires 0 < k <= |candles|
    ensures Pivots(c, candles[..k]) == Pivots(c, candles[..k - 1]) + PivotsAt(c, candles, k - 1)
  {
    var front := candles[..k];
    assert front[..k - 1] == candles[..k - 1];
    if k - 1 >= c.left {
      assert LeftQualifies(c, front, Pivot(k - 1, High)) == LeftQualifies(c, candles, Pivot(k - 1, High));
      assert LeftQualifies(c, front, Pivot(k - 1, Low)) == LeftQualifies(c, candles, Pivot(k - 1, Low));
    }
  }

  lemma {:induction false} ConfirmedAppend(c: Config, candles: seq<Candle>, pivots: seq<Pivot>, p: Pivot)
    requires InReach(c, |candles|, pivots) && c.left <= p.index < |candles|
    ensures InReach(c, |candles|, pivots + [p])
    ensures ConfirmedSwings(c, candles, pivots + [p])
         == if CandidateOf(c, candles, p).resolution.Confirmed? then ConfirmedSwings(c, candles, pivots) + [SwingOf(c, candles, p)]
            else ConfirmedSwings(c, candles, pivots)
    ensures Candidates(c, candles, pivots + [p]) == Candidates(c, candles, pivots) + [CandidateOf(c, candles, p)]
  {
    hide SwingOf, CandidateOf;
    var all := pivots + [p];
    assert all[..|pivots|] == pivots && all[|pivots|] == p;
  }

  /** `_detect_swings`: pivot by pivot, HIGH before LOW. */
  method DetectSwings(c: Config, candles: seq<Candle>) returns (candidates: seq<Candidate>, confirmed: seq<Swing>)
    ensures candidates == SwingCandidates(c, candles) && confirmed == SwingsOf(c, candles)
  {
    hide LeftQualifies, ConfirmedSwings, Candidates, Pivots, PivotsAt;
    candidates, confirmed := [], [];
    var start := if c.left < |candles| then c.left else |candles|;
    EarlyPivots(c, candles, start);
    NothingYet(c, candles);
    PivotsInReach(c, candles);
    for index := start to |candles|
      invariant InReach(c, |candles|, Pivots(c, candles[..index]))
      invariant candidates == Candidates(c, candles, Pivots(c, candles[..index]))
      invariant confirmed == ConfirmedSwings(c, candles, Pivots(c, candles[..index]))
    {
      PivotsPrefix(c, candles, index + 1);
      candidates, confirmed := DetectAt(c, candles, index, Pivots(c, candles[..index]), candidates, confirmed);
    }
    assert candles[..|candles|] == candles;
  }

  /** One pivot index. */
  method DetectAt(c: Config, candles: seq<Candle>, index: nat, ghost before: seq<Pivot>, candidates0: seq<Candidate>, confirmed0: seq<Swing>)
    returns (candidates: seq<Candidate>, confirmed: seq<Swing>)
    requires c.left <= index < |candles| && InReach(c, |candles|, before)
    requires candidates0 == Candidates(c, candles, before) && confirmed0 == ConfirmedSwings(c, candles, before)
    ensures InReach(c, |candles|, before + PivotsAt(c, candles, index))
    ensures candidates == Candidates(c, candles, before + PivotsAt(c, candles, index))
    ensures confirmed == ConfirmedSwings(c, candles, before + PivotsAt(c, candles, index))
  {
    hide LeftQualifies, SwingOf, CandidateOf, ConfirmedSwings, Candidates, PivotsAt, KindsAt;
    candidates, confirmed := candidates0, confirmed0;
    KindsEnds(c, candles, index);
    ghost var seen := before;
    assert before + [] == before;
    for k := 0 to 2
      invariant InReach(c, |candles|, seen) && seen == before + KindsAt(c, candles, index, k)
      invariant candidates == Candidates(c, candles, seen) && confirmed == ConfirmedSwings(c, candles, seen)
    {
      var p := Pivot(index, if k == 0 then High else Low);
      KindsStep(c, candles, index, k);
      if LeftQualifies(c, candles, p) {
        assert before + KindsAt(c, candles, index, k + 1) == seen + [p];
        ConfirmedAppend(c, candles, seen, p);
        seen := seen + [p];
        var candidate := CandidateOf(c, candles, p);
        candidates := candidates + [candidate];
        if candidate.resolution.Confirmed? {
          CandidateBounds(c, candles, p);
          confirmed := confirmed + [SwingOf(c, candles, p)];
        }
      }
    }
  }

  lemma {:induction false} KindsEnds(c: Config, candles: seq<Candle>, i: nat)
    requires c.left <= i < |candles|
    ensures KindsAt(c, candles, i, 0) == [] && KindsAt(c, candles, i, 2) == PivotsAt(c, candles, i)
  {
    hide LeftQualifies;
  }

  lemma {:induction false} CandidateBounds(c: Config, candles: seq<Candle>, p: Pivot)
    requires c.left <= p.index < |candles| && CandidateOf(c, candles, p).resolution.Confirmed?
    ensures p.index + c.right < |candles|
  {
  }

  /** The first k kinds at an index. */
  function KindsAt(c: Config, candles: seq<Candle>, i: nat, k: nat): seq<Pivot>
    requires c.left <= i < |candles| && k <= 2
  {
    (if k > 0 && LeftQualifies(c, candles, Pivot(i, High)) then [Pivot(i, High)] else [])
    + (if k > 1 && LeftQualifies(c, candles, Pivot(i, Low)) then [Pivot(i, Low)] else [])
  }

  lemma {:induction false} KindsStep(c: Config, candles: seq<Candle>, i: nat, k: nat)
    requires c.left <= i < |candles| && k < 2
    ensures var p := Pivot(i, if k == 0 then High else Low);
      KindsAt(c, candles, i, k + 1)
      == if LeftQualifies(c, candles, p) then KindsAt(c, candles, i, k) + [p] else KindsAt(c, candles, i, k)
  {
    hide LeftQualifies;
  }

  lemma {:induction false} EarlyPivots(c: Config, candles: seq<Candle>, k: nat)
    requires k <= |candles| && k <= c.left
    ensures Pivots(c, candles[..k]) == []
    decreases k
  {
    if k > 0 {
      EarlyPivots(c, candles, k - 1);
      PivotsPrefix(c, candles, k);
    }
  }

  lemma {:induction false} NothingYet(c: Config, candles: seq<Candle>)
    ensures InReach(c, |candles|, []) && Candidates(c, candles, []) == [] && ConfirmedSwings(c, candles, []) == []
  {
  }
}
