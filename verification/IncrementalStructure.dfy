/** The append-only structure state: candidates, confirmed swings, zones and breaks are those of
    the reference over the last candles supplied, until a refused zone leaves them half updated. */
module IncrementalStructure {
  import opened Wrappers
  import opened Resampling
  import opened Swings
  import opened Zones
  import opened Breaks
  import opened ReferenceBreaks

  datatype StructureFault = UnusableSource | UnusableZone

  /** What the state keeps. */
  datatype Fields = Fields(
    candles: seq<Candle>, candidates: seq<Candidate>, confirmed: seq<Swing>, breaks: BreakState,
    pending: seq<nat>, support: seq<PriceZone>, resistance: seq<PriceZone>)

  const NOTHING := Fields([], [], [], UNBROKEN, [], [], [])

  /** A candidate was made from its pivot candle. */
  ghost predicate MadeFrom(c: Config, candles: seq<Candle>, x: Candidate) {
    && c.left <= x.pivotIndex < |candles|
    && x.pivotTimestamp == candles[x.pivotIndex].timestamp && x.price == PriceOf(x.kind, candles[x.pivotIndex])
    && x.candidateAt == candles[x.pivotIndex].timestamp + c.duration
  }

  ghost predicate WellFormed(c: Config, f: Fields) {
    && (forall m :: 0 <= m < |f.candidates| ==> MadeFrom(c, f.candles, f.candidates[m]))
    && (forall i :: 0 <= i < |f.pending| ==> f.pending[i] < |f.candidates|)
  }

  // ---- confirmation order ----------------------------------------------------------

  /** Every confirmed swing comes from a pivot whose right window is full. */
  ghost predicate FromPivot(c: Config, candles: seq<Candle>, pivots: seq<Pivot>, s: Swing) {
    exists i :: 0 <= i < |pivots| && c.left <= pivots[i].index && pivots[i].index + c.right < |candles| && s == SwingOf(c, candles, pivots[i])
  }

  lemma {:induction false} ConfirmedFrom(c: Config, candles: seq<Candle>, pivots: seq<Pivot>, s: Swing)
    requires InReach(c, |candles|, pivots) && s in ConfirmedSwings(c, candles, pivots)
    ensures FromPivot(c, candles, pivots, s)
    decreases |pivots|
  {
    hide SwingOf, CandidateOf;
    var init, last := pivots[..|pivots| - 1], pivots[|pivots| - 1];
    if s in ConfirmedSwings(c, candles, init) {
      ConfirmedFrom(c, candles, init, s);
      var i :| 0 <= i < |init| && c.left <= init[i].index && init[i].index + c.right < |candles| && s == SwingOf(c, candles, init[i]);
      assert pivots[i] == init[i];
    } else {
      CandidateBounds(c, candles, last);
      assert pivots[|pivots| - 1] == last;
    }
  }

  lemma {:induction false} SwingFields(c: Config, candles: seq<Candle>, p: Pivot)
    requires c.left <= p.index && p.index + c.right < |candles|
    ensures var s := SwingOf(c, candles, p);
      s.kind == p.kind && s.pivotIndex == p.index && s.confirmedAt == candles[p.index + c.right].timestamp + c.duration
      && s.pivotTimestamp == candles[p.index].timestamp && s.price == PriceOf(p.kind, candles[p.index])
  {
  }

  lemma {:induction false} ConfirmedOrder(c: Config, candles: seq<Candle>, pivots: seq<Pivot>)
    requires InReach(c, |candles|, pivots) && Ascending(pivots) && Breaks.Increasing(candles)
    ensures Confirmations(ConfirmedSwings(c, candles, pivots))
    decreases |pivots|
  {
    hide SwingOf, CandidateOf, FromPivot;
    if pivots != [] {
      var init, last := pivots[..|pivots| - 1], pivots[|pivots| - 1];
      ConfirmedOrder(c, candles, init);
      var swings := ConfirmedSwings(c, candles, init);
      if CandidateOf(c, candles, last).resolution.Confirmed? {
        CandidateBounds(c, candles, last);
        SwingFields(c, candles, last);
        forall i | 0 <= i < |swings|
          ensures var s := SwingOf(c, candles, last);
            swings[i].confirmedAt <= s.confirmedAt && (swings[i].kind == s.kind ==> swings[i].pivotIndex < s.pivotIndex)
        {
          EarlierPivot(c, candles, pivots, swings[i]);
        }
      }
    }
  }

  lemma {:induction false} EarlierPivot(c: Config, candles: seq<Candle>, pivots: seq<Pivot>, s: Swing)
    requires pivots != [] && InReach(c, |candles|, pivots) && Ascending(pivots) && Breaks.Increasing(candles)
    requires s in ConfirmedSwings(c, candles, pivots[..|pivots| - 1])
    requires var last := pivots[|pivots| - 1]; last.index + c.right < |candles|
    ensures var last := pivots[|pivots| - 1];
      && s.confirmedAt <= candles[last.index + c.right].timestamp + c.duration
      && (s.kind == last.kind ==> s.pivotIndex < last.index)
  {
    hide SwingOf, CandidateOf, ConfirmedSwings;
    var init := pivots[..|pivots| - 1];
    ConfirmedFrom(c, candles, init, s);
    var i :| 0 <= i < |init| && c.left <= init[i].index && init[i].index + c.right < |candles| && s == SwingOf(c, candles, init[i]);
    SwingFields(c, candles, init[i]);
    assert pivots[i] == init[i];
  }

  /** Confirmed swings are in order of confirmation. */
  lemma {:induction false} SwingsConfirm(c: Config, candles: seq<Candle>)
    requires Breaks.Increasing(candles)
    ensures Confirmations(SwingsOf(c, candles))
  {
    hide ConfirmedSwings, Pivots;
    PivotsInReach(c, candles);
    ConfirmedOrder(c, candles, Pivots(c, candles));
  }

  // ---- pending candidates ----------------------------------------------------------

  function PendingOf(candidates: seq<Candidate>): (r: seq<nat>)
    ensures forall i :: 0 <= i < |r| ==> r[i] < |candidates|
  {
    if candidates == [] then []
    else
      var n := |candidates| - 1;
      PendingOf(candidates[..n]) + (if candidates[n].resolution.Pending? then [n] else [])
  }

  lemma {:induction false} PendingAppend(candidates: seq<Candidate>, x: Candidate)
    ensures PendingOf(candidates + [x]) == if x.resolution.Pending? then PendingOf(candidates) + [|candidates|] else PendingOf(candidates)
  {
    assert (candidates + [x])[..|candidates|] == candidates;
  }

  /** The pending indices below a bound. */
  lemma {:induction false} PendingFront(candidates: seq<Candidate>, k: nat)
    requires k <= |candidates|
    ensures PendingOf(candidates[..k]) <= PendingOf(candidates)
    decreases |candidates|
  {
    if k < |candidates| {
      var n := |candidates| - 1;
      PendingFront(candidates[..n], k);
      assert candidates[..n][..k] == candidates[..k];
    } else {
      assert candidates[..k] == candidates;
    }
  }

  /** Resolving every candidate, pending or not, against one more candle. A candidate that
      already has its window does not change; a pending one sees one more bar. */
  ghost predicate Resolved(c: Config, candles: seq<Candle>, pivots: seq<Pivot>, k: nat, candidates: seq<Candidate>, found: seq<Swing>, still: seq<nat>)
    requires candles != [] && InReach(c, |candles| - 1, pivots) && k <= |pivots|
  {
    var before := candles[..|candles| - 1];
    && InReach(c, |candles|, pivots[..k])
    && candidates == Candidates(c, candles, pivots[..k]) + Candidates(c, before, pivots)[k..]
    && found == NewSwings(c, candles, pivots[..k])
    && still == PendingOf(Candidates(c, candles, pivots[..k]))
  }

  lemma {:induction false} ResolvedStart(c: Config, candles: seq<Candle>, pivots: seq<Pivot>)
    requires candles != [] && InReach(c, |candles| - 1, pivots)
    ensures Resolved(c, candles, pivots, 0, Candidates(c, candles[..|candles| - 1], pivots), [], [])
  {
  }

  lemma {:induction false} NewSwingsAppend(c: Config, candles: seq<Candle>, pivots: seq<Pivot>, k: nat)
    requires k < |pivots| && InReach(c, |candles|, pivots[..k + 1])
    ensures InReach(c, |candles|, pivots[..k]) && c.left <= pivots[k].index < |candles|
    ensures NewSwings(c, candles, pivots[..k + 1])
         == if pivots[k].index + c.right == |candles| - 1 && CandidateOf(c, candles, pivots[k]).resolution.Confirmed?
            then NewSwings(c, candles, pivots[..k]) + [SwingOf(c, candles, pivots[k])]
            else NewSwings(c, candles, pivots[..k])
    ensures Candidates(c, candles, pivots[..k + 1]) == Candidates(c, candles, pivots[..k]) + [CandidateOf(c, candles, pivots[k])]
  {
    hide SwingOf, CandidateOf;
    assert pivots[..k + 1][..k] == pivots[..k] && pivots[..k + 1][k] == pivots[k];
    assert forall i :: 0 <= i < k ==> pivots[..k + 1][i] == pivots[..k][i];
  }

  /** One candidate resolved. */
  lemma {:induction false} ResolvedNext(c: Config, candles: seq<Candle>, pivots: seq<Pivot>, k: nat,
                                        candidates: seq<Candidate>, found: seq<Swing>, still: seq<nat>)
    requires candles != [] && InReach(c, |candles| - 1, pivots) && k < |pivots|
    requires Resolved(c, candles, pivots, k, candidates, found, still)
    ensures k < |candidates| && c.left <= pivots[k].index < |candles| - 1
    ensures candidates[k] == CandidateOf(c, candles[..|candles| - 1], pivots[k])
    ensures var updated := CandidateOf(c, candles, pivots[k]);
      Resolved(c, candles, pivots, k + 1, candidates[k := updated],
               if candidates[k].resolution.Pending? && updated.resolution.Confirmed? then found + [SwingOf(c, candles, pivots[k])] else found,
               if updated.resolution.Pending? then still + [k] else still)
    ensures !candidates[k].resolution.Pending? ==> CandidateOf(c, candles, pivots[k]) == candidates[k]
  {
    hide SwingOf, NewSwings, PendingOf, CandidateOf, Candidates;
    var before := candles[..|candles| - 1];
    var updated := CandidateOf(c, candles, pivots[k]);
    assert InReach(c, |candles|, pivots[..k + 1]);
    assert candidates[k] == Candidates(c, before, pivots)[k..][0];
    NewSwingsAppend(c, candles, pivots, k);
    PendingAppend(Candidates(c, candles, pivots[..k]), updated);
    WindowFills(c, candles, pivots[k]);
    assert candidates[k := updated] == (Candidates(c, candles, pivots[..k]) + [updated]) + Candidates(c, before, pivots)[k + 1..];
  }

  lemma {:induction false} WindowFills(c: Config, candles: seq<Candle>, p: Pivot)
    requires candles != [] && c.left <= p.index < |candles| - 1
    ensures var before := candles[..|candles| - 1]; var old', updated := CandidateOf(c, before, p), CandidateOf(c, candles, p);
      && (old'.resolution.Pending? <==> p.index + c.right >= |candles| - 1)
      && (!old'.resolution.Pending? ==> updated == old')
      && (updated.resolution.Confirmed? ==> p.index + c.right < |candles|)
  {
    var before := candles[..|candles| - 1];
    CandidateStays(c, before, candles, p);
  }

  lemma {:induction false} PendingIs(candidates: seq<Candidate>)
    ensures forall i, j :: 0 <= i < j < |PendingOf(candidates)| ==> PendingOf(candidates)[i] < PendingOf(candidates)[j]
    ensures forall m :: m in PendingOf(candidates) <==> 0 <= m < |candidates| && candidates[m].resolution.Pending?
    decreases |candidates|
  {
    if candidates != [] {
      PendingIs(candidates[..|candidates| - 1]);
    }
  }

  /** Candidates that are not pending may be skipped. */
  lemma {:induction false} ResolvedSkip(c: Config, candles: seq<Candle>, pivots: seq<Pivot>, k: nat, k': nat,
                                        candidates: seq<Candidate>, found: seq<Swing>, still: seq<nat>)
    requires candles != [] && InReach(c, |candles| - 1, pivots) && k <= k' <= |pivots| == |candidates|
    requires Resolved(c, candles, pivots, k, candidates, found, still)
    requires forall m :: k <= m < k' ==> !candidates[m].resolution.Pending?
    ensures Resolved(c, candles, pivots, k', candidates, found, still)
    decreases k' - k
  {
    hide Resolved, CandidateOf, SwingOf;
    if k < k' {
      ResolvedNext(c, candles, pivots, k, candidates, found, still);
      assert candidates[k := candidates[k]] == candidates;
      ResolvedSkip(c, candles, pivots, k + 1, k', candidates, found, still);
    }
  }

  lemma {:induction false} ResolvedTail(c: Config, candles: seq<Candle>, pivots: seq<Pivot>, k: nat,
                                        candidates: seq<Candidate>, found: seq<Swing>, still: seq<nat>)
    requires candles != [] && InReach(c, |candles| - 1, pivots) && k <= |pivots|
    requires Resolved(c, candles, pivots, k, candidates, found, still)
    ensures |candidates| == |pivots|
    ensures forall m :: k <= m < |candidates| ==> candidates[m] == Candidates(c, candles[..|candles| - 1], pivots)[m]
  {
    hide CandidateOf, SwingOf, NewSwings, PendingOf;
  }

  /** The pending candidates that are still to come, as a loop over the pending indices. */
  ghost predicate Remaining(candidates0: seq<Candidate>, pending: seq<nat>, i: nat, k: nat) {
    && i <= |pending| && k <= |candidates0|
    && pending == PendingOf(candidates0) && pending[..i] == PendingOf(candidates0[..k])
  }

  lemma {:induction false} NextPending(candidates0: seq<Candidate>, pending: seq<nat>, i: nat, k: nat)
    requires Remaining(candidates0, pending, i, k)
    ensures var stop := if i < |pending| then pending[i] else |candidates0|;
      && k <= stop <= |candidates0|
      && (forall m :: k <= m < stop ==> !candidates0[m].resolution.Pending?)
      && (i < |pending| ==> stop < |candidates0| && candidates0[stop].resolution.Pending? && Remaining(candidates0, pending, i + 1, stop + 1))
  {
    hide PendingOf;
    var stop := if i < |pending| then pending[i] else |candidates0|;
    PendingIs(candidates0);
    PendingIs(candidates0[..k]);
    forall m | 0 <= m < i ensures pending[m] < k {
      assert pending[..i][m] in PendingOf(candidates0[..k]);
    }
    if i < |pending| {
      assert pending[i] in pending;
    }
    forall m | k <= m < stop ensures !candidates0[m].resolution.Pending? {
      assert candidates0[m].resolution.Pending? ==> m in pending;
    }
    if i < |pending| {
      FrontPending(candidates0, pending, i, k, stop);
    }
  }

  lemma {:induction false} FrontPending(candidates0: seq<Candidate>, pending: seq<nat>, i: nat, k: nat, stop: nat)
    requires Remaining(candidates0, pending, i, k) && k <= stop < |candidates0| && i < |pending| && pending[i] == stop
    requires candidates0[stop].resolution.Pending? && forall m :: k <= m < stop ==> !candidates0[m].resolution.Pending?
    ensures pending[..i + 1] == PendingOf(candidates0[..stop + 1])
  {
    hide PendingOf;
    PendingFlat(candidates0, k, stop);
    assert candidates0[..stop + 1] == candidates0[..stop] + [candidates0[stop]];
    PendingAppend(candidates0[..stop], candidates0[stop]);
    assert pending[..i + 1] == pending[..i] + [stop];
  }

  lemma {:induction false} PendingFlat(candidates: seq<Candidate>, k: nat, stop: nat)
    requires k <= stop <= |candidates| && forall m :: k <= m < stop ==> !candidates[m].resolution.Pending?
    ensures PendingOf(candidates[..stop]) == PendingOf(candidates[..k])
    decreases stop
  {
    if k < stop {
      PendingFlat(candidates, k, stop - 1);
      assert candidates[..stop] == candidates[..stop - 1] + [candidates[stop - 1]];
      PendingAppend(candidates[..stop - 1], candidates[stop - 1]);
    }
  }

  /** A pending candidate against one more candle: the windows are read again and the record
      is rewritten. */
  function Updated(c: Config, candles: seq<Candle>, candidate: Candidate): Candidate
    requires c.left <= candidate.pivotIndex < |candles|
  {
    var p := Pivot(candidate.pivotIndex, candidate.kind);
    var available := Observed(c, |candles|, p);
    var full := available == c.right;
    candidate.(
      observedRight := available,
      resolution := if !full then Pending
                    else if LeftQualifies(c, candles, p) && RightQualifies(c, candles, p) then Confirmed else Rejected,
      resolvedAt := if full then Some(candles[p.index + c.right].timestamp + c.duration) else None)
  }

  lemma {:induction false} NoneRemaining(candidates0: seq<Candidate>, pending: seq<nat>)
    requires pending == PendingOf(candidates0)
    ensures Remaining(candidates0, pending, 0, 0)
  {
  }

  lemma {:induction false} ResolvedEnd(c: Config, candles: seq<Candle>, pivots: seq<Pivot>,
                                       candidates: seq<Candidate>, found: seq<Swing>, still: seq<nat>)
    requires candles != [] && InReach(c, |candles| - 1, pivots) && Resolved(c, candles, pivots, |pivots|, candidates, found, still)
    ensures InReach(c, |candles|, pivots)
    ensures candidates == Candidates(c, candles, pivots) && found == NewSwings(c, candles, pivots) && still == PendingOf(candidates)
  {
    hide CandidateOf, SwingOf, NewSwings, PendingOf;
    assert pivots[..|pivots|] == pivots;
  }

  // ---- new pivots ------------------------------------------------------------------

  lemma {:induction false} FreshCandidate(c: Config, candles: seq<Candle>, p: Pivot)
    requires ConfigOk(c) && candles != [] && c.left <= p.index == |candles| - 1
    ensures CandidateOf(c, candles, p)
         == Candidate(p.kind, p.index, candles[p.index].timestamp, PriceOf(p.kind, candles[p.index]),
                      candles[p.index].timestamp + c.duration, 0, Pending, None)
  {
  }

  /** A pivot becomes a candidate as soon as its left window is there. */
  function Opened(c: Config, f: Fields, kind: SwingKind): (r: Fields)
    requires f.candles != [] && WellFormed(c, f)
    ensures WellFormed(c, r) && r.candles == f.candles
  {
    var index := |f.candles| - 1;
    if index >= c.left && LeftQualifies(c, f.candles, Pivot(index, kind)) then
      var candle := f.candles[index];
      var candidate := Candidate(kind, index, candle.timestamp, PriceOf(kind, candle), candle.timestamp + c.duration, 0, Pending, None);
      f.(candidates := f.candidates + [candidate], pending := f.pending + [|f.candidates|])
    else f
  }

  /** HIGH before LOW. */
  function OpenedBoth(c: Config, f: Fields): (r: Fields)
    requires f.candles != [] && WellFormed(c, f)
    ensures WellFormed(c, r) && r.candles == f.candles
  {
    Opened(c, Opened(c, f, High), Low)
  }

  /** Candidates and pending indices are those of the pivots so far. */
  ghost predicate UpTo(c: Config, f: Fields, pivots: seq<Pivot>) {
    InReach(c, |f.candles|, pivots) && f.candidates == Candidates(c, f.candles, pivots) && f.pending == PendingOf(f.candidates)
  }

  lemma {:induction false} OpenedKind(c: Config, f: Fields, pivots: seq<Pivot>, kind: SwingKind)
    requires ConfigOk(c) && f.candles != [] && WellFormed(c, f) && UpTo(c, f, pivots)
    ensures var p := Pivot(|f.candles| - 1, kind); var r := Opened(c, f, kind);
      && UpTo(c, r, if p.index >= c.left && LeftQualifies(c, f.candles, p) then pivots + [p] else pivots)
      && r == f.(candidates := r.candidates, pending := r.pending)
  {
    hide LeftQualifies, PendingOf, ConfirmedSwings, CandidateOf, SwingOf, Candidates;
    var p := Pivot(|f.candles| - 1, kind);
    if p.index >= c.left && LeftQualifies(c, f.candles, p) {
      ConfirmedAppend(c, f.candles, pivots, p);
      FreshCandidate(c, f.candles, p);
      PendingAppend(f.candidates, CandidateOf(c, f.candles, p));
    }
  }

  lemma {:induction false} OpenedPivots(c: Config, f: Fields, pivots: seq<Pivot>)
    requires ConfigOk(c) && f.candles != [] && WellFormed(c, f) && UpTo(c, f, pivots)
    ensures var r := OpenedBoth(c, f);
      && UpTo(c, r, pivots + PivotsAt(c, f.candles, |f.candles| - 1)) && r == f.(candidates := r.candidates, pending := r.pending)
  {
    hide LeftQualifies, UpTo, Opened;
    var i := |f.candles| - 1;
    var high := Opened(c, f, High);
    OpenedKind(c, f, pivots, High);
    var seen := if i >= c.left && LeftQualifies(c, f.candles, Pivot(i, High)) then pivots + [Pivot(i, High)] else pivots;
    OpenedKind(c, high, seen, Low);
    var all := if i >= c.left && LeftQualifies(c, f.candles, Pivot(i, Low)) then seen + [Pivot(i, Low)] else seen;
    assert all == pivots + PivotsAt(c, f.candles, i);
  }

  // ---- zones -----------------------------------------------------------------------

  ghost predicate Sourced(zones: seq<Zone>) {
    forall i :: 0 <= i < |zones| ==> zones[i].sources != []
  }

  function ShownAll(c: Config, zones: seq<Zone>): (r: seq<PriceZone>)
    requires Sourced(zones)
    ensures |r| == |zones| && forall i :: 0 <= i < |r| ==> r[i] == Shown(c, i, zones[i])
  {
    seq(|zones|, i requires 0 <= i < |zones| => Shown(c, i, zones[i]))
  }

  /** Every zone's lower bound is positive. */
  ghost predicate AllAbove(c: Config, zones: seq<Zone>) {
    forall i :: 0 <= i < |zones| ==> Padding(c) < zones[i].lowest <= zones[i].highest
  }

  /** Every swing leaves a zone around it above zero. */
  ghost predicate Positive(c: Config, swings: seq<Swing>) {
    forall i :: 0 <= i < |swings| ==> swings[i].price > Padding(c)
  }

  predicate BoundsOk(z: PriceZone) {
    0.0 < z.lower <= z.upper
  }

  /** Shown zones are the widened forms of zones whose bounds stay above zero. */
  ghost predicate ZonesShown(c: Config, zones: seq<Zone>, shown: seq<PriceZone>) {
    Sourced(zones) && AllAbove(c, zones) && shown == ShownAll(c, zones)
  }

  /** The anchors of shown zones. */
  function Anchors(shown: seq<PriceZone>): (r: seq<Zone>)
    ensures |r| == |shown| && forall i :: 0 <= i < |r| ==> r[i].anchor == shown[i].anchor
  {
    seq(|shown|, i requires 0 <= i < |shown| => Zone(shown[i].anchor, shown[i].lower, shown[i].upper, []))
  }

  /** Only anchors decide which zone is nearest. */
  lemma {:induction false} NearestByAnchor(a: seq<Zone>, b: seq<Zone>, price: real, tolerance: real)
    requires |a| == |b| && forall i :: 0 <= i < |a| ==> a[i].anchor == b[i].anchor
    ensures Nearest(a, price, tolerance) == Nearest(b, price, tolerance)
    decreases |a|
  {
    if a != [] {
      NearestByAnchor(a[..|a| - 1], b[..|b| - 1], price, tolerance);
    }
  }

  /** A swing joins a shown zone: its widened bounds are moved. */
  function Moved(c: Config, z: PriceZone, s: Swing): PriceZone {
    z.(lower := Least(z.lower + Padding(c), s.price) - Padding(c),
       upper := Greatest(z.upper - Padding(c), s.price) + Padding(c),
       touchCount := z.touchCount + 1, sourceIds := z.sourceIds + [s.Id()], updatedAt := s.confirmedAt)
  }

  function FirstTouch(c: Config, index: nat, s: Swing): PriceZone {
    PriceZone(index, s.price, s.price - Padding(c), s.price + Padding(c), 1, [s.Id()], s.confirmedAt, s.confirmedAt)
  }

  /** `_append_zone`: the nearest zone takes the swing, or a new one opens; none when the bounds
      would not be positive. */
  function ZoneInto(c: Config, shown: seq<PriceZone>, s: Swing): Option<seq<PriceZone>> {
    var best := Nearest(Anchors(shown), s.price, Tolerance(c));
    var z := if best < |shown| then Moved(c, shown[best], s) else FirstTouch(c, |shown|, s);
    if !BoundsOk(z) then None else Some(if best < |shown| then shown[best := z] else shown + [z])
  }

  /** The loop of `_append_zone` over the anchors: the least (distance, index) within tolerance. */
  method AppendZone(c: Config, shown: seq<PriceZone>, s: Swing) returns (r: Option<seq<PriceZone>>)
    ensures r == ZoneInto(c, shown, s)
  {
    hide Tolerance, Padding;
    ghost var anchors := Anchors(shown);
    var best := 0;
    for k := 0 to |shown|
      invariant best == Nearest(anchors[..k], s.price, Tolerance(c))
    {
      assert anchors[..k + 1][..k] == anchors[..k];
      var gap := Gap(s.price, shown[k].anchor);
      if gap <= Tolerance(c) {
        if best == k || gap < Gap(s.price, shown[best].anchor) {
          best := k;
        }
      } else if best == k {
        best := k + 1;
      }
    }
    assert anchors[..|shown|] == anchors;
    if best < |shown| {
      var moved := Moved(c, shown[best], s);
      return if BoundsOk(moved) then Some(shown[best := moved]) else None;
    }
    var newZone := FirstTouch(c, |shown|, s);
    return if BoundsOk(newZone) then Some(shown + [newZone]) else None;
  }

  lemma {:induction false} ZoneJoins(c: Config, zones: seq<Zone>, shown: seq<PriceZone>, i: nat, s: Swing)
    requires ConfigOk(c) && ZonesShown(c, zones, shown) && i < |zones|
    ensures var z := Shown(c, i, Joined(zones[i], s));
      && (BoundsOk(z) <==> s.price > Padding(c))
      && (BoundsOk(z) ==> ZonesShown(c, zones[i := Joined(zones[i], s)], shown[i := z]))
  {
    hide Tolerance, Padding;
    ToleranceSign(c);
  }

  lemma {:induction false} ZoneOpens(c: Config, zones: seq<Zone>, shown: seq<PriceZone>, s: Swing)
    requires ConfigOk(c) && ZonesShown(c, zones, shown)
    ensures var zone := Zone(s.price, s.price, s.price, [s]); var z := Shown(c, |zones|, zone);
      && z == PriceZone(|shown|, s.price, s.price - Padding(c), s.price + Padding(c), 1, [s.Id()], s.confirmedAt, s.confirmedAt)
      && (BoundsOk(z) <==> s.price > Padding(c))
      && (BoundsOk(z) ==> ZonesShown(c, zones + [zone], shown + [z]))
  {
    hide Tolerance, Padding;
    ToleranceSign(c);
    assert IdsOf([s]) == [s.Id()];
  }

  lemma {:induction false} JoinedShown(c: Config, index: nat, z: Zone, s: Swing)
    requires z.sources != []
    ensures Joined(z, s).sources != [] && Shown(c, index, Joined(z, s)).anchor == z.anchor && Shown(c, index, Joined(z, s)).index == index
    ensures var before, after := Shown(c, index, z), Shown(c, index, Joined(z, s));
      && after.sourceIds == before.sourceIds + [s.Id()] && after.touchCount == before.touchCount + 1
      && after.createdAt == before.createdAt && after.updatedAt == s.confirmedAt
      && after.lower == Least(z.lowest, s.price) - Padding(c) && after.upper == Greatest(z.highest, s.price) + Padding(c)
  {
    hide Padding;
    assert IdsOf(z.sources + [s]) == IdsOf(z.sources) + [s.Id()];
  }

  lemma {:induction false} MovedIs(c: Config, index: nat, z: Zone, s: Swing)
    requires z.sources != []
    ensures Joined(z, s).sources != [] && Moved(c, Shown(c, index, z), s) == Shown(c, index, Joined(z, s))
  {
    hide Padding, Least, Greatest;
    JoinedShown(c, index, z, s);
  }

  lemma {:induction false} FirstTouchIs(c: Config, index: nat, s: Swing)
    ensures FirstTouch(c, index, s) == Shown(c, index, Zone(s.price, s.price, s.price, [s]))
  {
    hide Padding;
    assert IdsOf([s]) == [s.Id()];
  }

  lemma {:induction false} AnchorsShown(c: Config, zones: seq<Zone>, shown: seq<PriceZone>, price: real)
    requires ZonesShown(c, zones, shown)
    ensures |shown| == |zones| && Nearest(Anchors(shown), price, Tolerance(c)) == Nearest(zones, price, Tolerance(c))
    ensures forall i :: 0 <= i < |zones| ==> zones[i].sources != [] && shown[i] == Shown(c, i, zones[i])
  {
    hide Padding, Tolerance, AllAbove;
    NearestByAnchor(zones, Anchors(shown), price, Tolerance(c));
  }

  /** Moving widened bounds in place keeps the shown zones the widened forms of the zones; it is
      refused exactly for a swing within the padding of zero. */
  lemma {:induction false} ZonesMoved(c: Config, zones: seq<Zone>, shown: seq<PriceZone>, s: Swing)
    requires ConfigOk(c) && ZonesShown(c, zones, shown)
    ensures var r := ZoneInto(c, shown, s);
      && (r.Some? <==> s.price > Padding(c))
      && (r.Some? ==> ZonesShown(c, AddSwing(c, zones, s), r.value))
  {
    hide Tolerance, Padding, ZonesShown, Nearest, BoundsOk, Joined, Moved, FirstTouch, Shown;
    AnchorsShown(c, zones, shown, s.price);
    var best := Nearest(zones, s.price, Tolerance(c));
    if best < |shown| {
      MovedIs(c, best, zones[best], s);
      ZoneJoins(c, zones, shown, best, s);
    } else {
      FirstTouchIs(c, |shown|, s);
      ZoneOpens(c, zones, shown, s);
    }
  }

  lemma {:induction false} ZonesAppend(c: Config, kind: SwingKind, swings: seq<Swing>, s: Swing)
    ensures ZonesOf(c, kind, swings + [s]) == if s.kind == kind then AddSwing(c, ZonesOf(c, kind, swings), s) else ZonesOf(c, kind, swings)
  {
    hide AddSwing;
    assert (swings + [s])[..|swings|] == swings;
  }

  /** What is kept of the zones of one kind. */
  ghost predicate ZonesKept(c: Config, kind: SwingKind, swings: seq<Swing>, shown: seq<PriceZone>) {
    ZonesShown(c, ZonesOf(c, kind, swings), shown)
  }

  // ---- the source ------------------------------------------------------------------

  predicate OnTick(price: real, tick: real)
    requires tick > 0.0
  {
    (price / tick).Floor as real * tick == price
  }

  predicate Ticked(candle: Candle, tick: real)
    requires tick > 0.0
  {
    OnTick(candle.open, tick) && OnTick(candle.high, tick) && OnTick(candle.low, tick) && OnTick(candle.close, tick)
  }

  /** `_validate_candles`: prices on the tick, candles exactly one duration apart. */
  predicate ValidSource(c: Config, candles: seq<Candle>)
    requires ConfigOk(c)
  {
    && (forall i :: 0 <= i < |candles| ==> Ticked(candles[i], c.tick))
    && (forall i :: 0 <= i < |candles| - 1 ==> candles[i + 1].timestamp == candles[i].timestamp + c.duration)
  }

  lemma {:induction false} SourceIncreasing(c: Config, candles: seq<Candle>)
    requires ConfigOk(c) && ValidSource(c, candles)
    ensures Breaks.Increasing(candles)
  {
    hide Ticked;
    forall i, j | 0 <= i < j < |candles| ensures candles[i].timestamp < candles[j].timestamp {
      SourceSpaced(c, candles, i, j);
    }
  }

  lemma {:induction false} SourceSpaced(c: Config, candles: seq<Candle>, i: nat, j: nat)
    requires ConfigOk(c) && ValidSource(c, candles) && i < j < |candles|
    ensures candles[i].timestamp < candles[j].timestamp
    decreases j
  {
    hide Ticked;
    if i < j - 1 {
      SourceSpaced(c, candles, i, j - 1);
    }
  }

  /** Validating from the last known candle on is enough. */
  lemma {:induction false} SourceExtends(c: Config, candles: seq<Candle>, k: nat)
    requires ConfigOk(c) && k <= |candles| && ValidSource(c, candles[..k])
    ensures ValidSource(c, candles[if k == 0 then 0 else k - 1..]) <==> ValidSource(c, candles)
  {
    hide Ticked;
    var from := if k == 0 then 0 else k - 1;
    var tail := candles[from..];
    if ValidSource(c, tail) {
      forall i | 0 <= i < |candles| ensures Ticked(candles[i], c.tick) {
        if i < k { assert candles[..k][i] == candles[i]; } else { assert tail[i - from] == candles[i]; }
      }
      forall i | 0 <= i < |candles| - 1 ensures candles[i + 1].timestamp == candles[i].timestamp + c.duration {
        if i + 1 < k {
          assert candles[..k][i] == candles[i] && candles[..k][i + 1] == candles[i + 1];
        } else {
          assert tail[i - from] == candles[i] && tail[i + 1 - from] == candles[i + 1];
        }
      }
    }
  }

  // ---- one candle ------------------------------------------------------------------

  datatype Stepped = Stepped(fields: Fields, ok: bool)

  /** A confirmed swing is listed first; then its zone may be refused. */
  function Booked(c: Config, f: Fields, s: Swing): Stepped {
    var listed := f.(confirmed := f.confirmed + [s]);
    match ZoneInto(c, if s.kind.Low? then f.support else f.resistance, s)
    case None => Stepped(listed, false)
    case Some(shown) => Stepped(if s.kind.Low? then listed.(support := shown) else listed.(resistance := shown), true)
  }

  /** The same fields but for what resolving candidates changes. */
  ghost predicate Alongside(f: Fields, g: Fields) {
    g.candles == f.candles && |g.candidates| == |f.candidates| && g.pending == f.pending && g.breaks == f.breaks
  }

  /** One pending index. A candidate that sees no new bar is left alone. */
  function ResolveOne(c: Config, f: Fields, m: nat): (r: Stepped)
    requires WellFormed(c, f) && m < |f.candidates|
    ensures WellFormed(c, r.fields) && Alongside(f, r.fields)
  {
    var x := f.candidates[m];
    var p := Pivot(x.pivotIndex, x.kind);
    if Observed(c, |f.candles|, p) == x.observedRight then Stepped(f, true)
    else
      var updated := Updated(c, f.candles, x);
      var g := f.(candidates := f.candidates[m := updated]);
      if updated.resolution.Confirmed? then Booked(c, g, SwingOf(c, f.candles, p)) else Stepped(g, true)
  }

  /** Whether the index is kept for the next candle. */
  predicate Waits(c: Config, f: Fields, m: nat)
    requires WellFormed(c, f) && m < |f.candidates|
  {
    var x := f.candidates[m];
    Observed(c, |f.candles|, Pivot(x.pivotIndex, x.kind)) == x.observedRight || Updated(c, f.candles, x).resolution.Pending?
  }

  datatype Turn = Turn(fields: Fields, still: seq<nat>, ok: bool)

  ghost predicate Indices(f: Fields, todo: seq<nat>) {
    forall i :: 0 <= i < |todo| ==> todo[i] < |f.candidates|
  }

  /** The loop over the pending indices; a refused zone ends it at once. */
  function Resolve(c: Config, f: Fields, todo: seq<nat>, still: seq<nat>): (r: Turn)
    requires WellFormed(c, f) && Indices(f, todo) && Indices(f, still)
    ensures WellFormed(c, r.fields) && Alongside(f, r.fields) && Indices(r.fields, r.still)
    decreases |todo|
  {
    if todo == [] then Turn(f, still, true)
    else
      var one := ResolveOne(c, f, todo[0]);
      if !one.ok then Turn(one.fields, still, false)
      else Resolve(c, one.fields, todo[1..], if Waits(c, f, todo[0]) then still + [todo[0]] else still)
  }

  lemma {:induction false} LongerHistory(c: Config, f: Fields, candle: Candle)
    requires WellFormed(c, f)
    ensures WellFormed(c, f.(candles := f.candles + [candle]))
  {
    forall m | 0 <= m < |f.candidates| ensures MadeFrom(c, f.candles + [candle], f.candidates[m]) {
      assert MadeFrom(c, f.candles, f.candidates[m]);
    }
  }

  /** One candle: resolve and zone, open, break. After a refused zone the candle stays, with
      what had been resolved by then, and nothing else is updated. */
  function Step(c: Config, f: Fields, candle: Candle): (r: Stepped)
    requires WellFormed(c, f)
    ensures WellFormed(c, r.fields) && r.fields.candles == f.candles + [candle]
  {
    LongerHistory(c, f, candle);
    var turn := Resolve(c, f.(candles := f.candles + [candle]), f.pending, []);
    if !turn.ok then Stepped(turn.fields, false)
    else
      var g := OpenedBoth(c, turn.fields.(pending := turn.still));
      Stepped(g.(breaks := BreakAt(c, g.confirmed, g.breaks, candle)), true)
  }

  // ---- one candle on fields in step with the reference -------------------------------

  /** The fields are those of the reference over their candles. */
  ghost predicate InStep(c: Config, f: Fields) {
    && ConfigOk(c) && ValidSource(c, f.candles)
    && f.candidates == SwingCandidates(c, f.candles) && f.confirmed == SwingsOf(c, f.candles)
    && f.pending == PendingOf(f.candidates)
    && f.breaks == BreaksOf(c, f.candles, SwingsOf(c, f.candles))
    && Positive(c, f.confirmed)
    && ZonesKept(c, Low, f.confirmed, f.support) && ZonesKept(c, High, f.confirmed, f.resistance)
  }

  /** What a refused zone leaves: candles for which the reference refuses. */
  ghost predicate Stalled(c: Config, f: Fields) {
    ConfigOk(c) && WellFormed(c, f) && ValidSource(c, f.candles) && !Positive(c, SwingsOf(c, f.candles))
  }

  lemma {:induction false} MadeFromPivot(c: Config, candles: seq<Candle>, p: Pivot)
    requires c.left <= p.index < |candles|
    ensures MadeFrom(c, candles, CandidateOf(c, candles, p))
  {
    hide LeftQualifies, RightQualifies;
  }

  lemma {:induction false} UpToWellFormed(c: Config, f: Fields, pivots: seq<Pivot>)
    requires UpTo(c, f, pivots)
    ensures WellFormed(c, f)
  {
    hide CandidateOf, MadeFrom;
    forall m | 0 <= m < |f.candidates| ensures MadeFrom(c, f.candles, f.candidates[m]) {
      MadeFromPivot(c, f.candles, pivots[m]);
    }
  }

  lemma {:induction false} InStepUpTo(c: Config, f: Fields)
    requires InStep(c, f)
    ensures UpTo(c, f, Pivots(c, f.candles))
  {
    hide SwingsOf, BreaksOf, ZonesKept, PendingOf, Positive, ValidSource, Candidates;
    PivotsInReach(c, f.candles);
  }

  lemma {:induction false} InStepFacts(c: Config, f: Fields)
    requires InStep(c, f)
    ensures ConfigOk(c) && WellFormed(c, f) && ValidSource(c, f.candles) && Positive(c, SwingsOf(c, f.candles))
  {
    hide SwingsOf, BreaksOf, ZonesKept, PendingOf, Positive, ValidSource, Candidates, WellFormed;
    InStepUpTo(c, f);
    UpToWellFormed(c, f, Pivots(c, f.candles));
  }

  /** The fields after the first resolved candidates. */
  ghost predicate Midway(c: Config, f: Fields, pivots: seq<Pivot>, k: nat, confirmed: seq<Swing>, found: seq<Swing>, still: seq<nat>) {
    && f.candles != [] && InReach(c, |f.candles| - 1, pivots) && k <= |pivots|
    && WellFormed(c, f)
    && Resolved(c, f.candles, pivots, k, f.candidates, found, still)
    && f.confirmed == confirmed + found && Positive(c, found)
    && ZonesKept(c, Low, f.confirmed, f.support) && ZonesKept(c, High, f.confirmed, f.resistance)
  }

  lemma {:induction false} BookedKeeps(c: Config, f: Fields, s: Swing)
    requires ConfigOk(c) && ZonesKept(c, Low, f.confirmed, f.support) && ZonesKept(c, High, f.confirmed, f.resistance)
    ensures var r := Booked(c, f, s);
      && (r.ok <==> s.price > Padding(c))
      && (r.ok ==> ZonesKept(c, Low, r.fields.confirmed, r.fields.support) && ZonesKept(c, High, r.fields.confirmed, r.fields.resistance))
  {
    hide ZonesOf, AddSwing, Padding, ZonesShown, ZoneInto;
    ZonesAppend(c, Low, f.confirmed, s);
    ZonesAppend(c, High, f.confirmed, s);
    ZonesMoved(c, ZonesOf(c, s.kind, f.confirmed), if s.kind.Low? then f.support else f.resistance, s);
  }

  /** One pending candidate on fields in step: it sees a new bar, and its zone is refused
      exactly if it confirms within the padding of zero. */
  lemma {:induction false} MidwayNext(c: Config, f: Fields, pivots: seq<Pivot>, k: nat,
                                      confirmed: seq<Swing>, found: seq<Swing>, still: seq<nat>)
    requires ConfigOk(c) && Midway(c, f, pivots, k, confirmed, found, still) && k < |pivots|
    requires k < |f.candidates| && f.candidates[k].resolution.Pending?
    ensures var updated := CandidateOf(c, f.candles, pivots[k]); var one := ResolveOne(c, f, k);
      && (Waits(c, f, k) <==> updated.resolution.Pending?)
      && (updated.resolution.Confirmed? ==> pivots[k].index + c.right == |f.candles| - 1)
      && (one.ok <==> updated.resolution.Confirmed? ==> SwingOf(c, f.candles, pivots[k]).price > Padding(c))
      && (one.ok ==> Midway(c, one.fields, pivots, k + 1, confirmed,
                            if updated.resolution.Confirmed? then found + [SwingOf(c, f.candles, pivots[k])] else found,
                            if updated.resolution.Pending? then still + [k] else still))
  {
    hide Resolved, SwingOf, Padding, ZonesKept, Booked;
    var updated := CandidateOf(c, f.candles, pivots[k]);
    var p := pivots[k];
    ResolvedNext(c, f.candles, pivots, k, f.candidates, found, still);
    SeesNewBar(c, f.candles, p);
    var g := f.(candidates := f.candidates[k := updated]);
    if updated.resolution.Confirmed? {
      var s := SwingOf(c, f.candles, p);
      BookedKeeps(c, g, s);
      BookedFields(c, g, s);
      PositiveConcat(c, found, [s]);
      assert confirmed + (found + [s]) == (confirmed + found) + [s];
    }
  }

  lemma {:induction false} BookedFields(c: Config, f: Fields, s: Swing)
    ensures var r := Booked(c, f, s).fields;
      Alongside(f, r) && r.candidates == f.candidates && r.confirmed == f.confirmed + [s]
  {
    hide ZoneInto;
  }

  lemma {:induction false} SeesNewBar(c: Config, candles: seq<Candle>, p: Pivot)
    requires candles != [] && c.left <= p.index < |candles| - 1
    requires CandidateOf(c, candles[..|candles| - 1], p).resolution.Pending?
    ensures var x := CandidateOf(c, candles[..|candles| - 1], p); var updated := CandidateOf(c, candles, p);
      && x.pivotIndex == p.index && x.kind == p.kind && Observed(c, |candles|, p) != x.observedRight
      && Updated(c, candles, x) == updated
      && (updated.resolution.Confirmed? ==> p.index + c.right == |candles| - 1)
  {
    hide LeftQualifies, RightQualifies;
  }

  lemma {:induction false} NewSwingsPrefix(c: Config, candles: seq<Candle>, pivots: seq<Pivot>, k: nat)
    requires InReach(c, |candles|, pivots) && k <= |pivots|
    ensures InReach(c, |candles|, pivots[..k]) && NewSwings(c, candles, pivots[..k]) <= NewSwings(c, candles, pivots)
    decreases |pivots|
  {
    hide SwingOf, CandidateOf;
    if k < |pivots| {
      var init := pivots[..|pivots| - 1];
      NewSwingsPrefix(c, candles, init, k);
      assert init[..k] == pivots[..k];
    } else {
      assert pivots[..k] == pivots;
    }
  }

  lemma {:induction false} MidwaySkip(c: Config, f: Fields, pivots: seq<Pivot>, k: nat, k': nat,
                                      confirmed: seq<Swing>, found: seq<Swing>, still: seq<nat>)
    requires Midway(c, f, pivots, k, confirmed, found, still) && k <= k' <= |pivots| == |f.candidates|
    requires forall m :: k <= m < k' ==> !f.candidates[m].resolution.Pending?
    ensures Midway(c, f, pivots, k', confirmed, found, still)
  {
    hide Resolved, ZonesKept, Positive, WellFormed;
    ResolvedSkip(c, f.candles, pivots, k, k', f.candidates, found, still);
  }

  lemma {:induction false} MidwayEnd(c: Config, f: Fields, pivots: seq<Pivot>, confirmed: seq<Swing>, found: seq<Swing>, still: seq<nat>)
    requires Midway(c, f, pivots, |pivots|, confirmed, found, still)
    ensures InReach(c, |f.candles|, pivots)
    ensures f.candidates == Candidates(c, f.candles, pivots) && found == NewSwings(c, f.candles, pivots) && still == PendingOf(f.candidates)
  {
    hide Resolved, ZonesKept, Positive, WellFormed;
    ResolvedEnd(c, f.candles, pivots, f.candidates, found, still);
  }

  lemma {:induction false} MidwayTail(c: Config, f: Fields, pivots: seq<Pivot>, k: nat, confirmed: seq<Swing>, found: seq<Swing>, still: seq<nat>)
    requires Midway(c, f, pivots, k, confirmed, found, still)
    ensures |f.candidates| == |pivots| && Indices(f, still) && WellFormed(c, f)
    ensures f.candles != [] && InReach(c, |f.candles| - 1, pivots) && InReach(c, |f.candles|, pivots)
    ensures forall m :: k <= m < |f.candidates| ==> f.candidates[m] == Candidates(c, f.candles[..|f.candles| - 1], pivots)[m]
  {
    hide CandidateOf, SwingOf, NewSwings, PendingOf, ZonesKept, Positive, WellFormed;
    ResolvedTail(c, f.candles, pivots, k, f.candidates, found, still);
    StillIndices(c, f.candles, pivots, k, f.candidates, found, still);
  }

  lemma {:induction false} StillIndices(c: Config, candles: seq<Candle>, pivots: seq<Pivot>, k: nat,
                                        candidates: seq<Candidate>, found: seq<Swing>, still: seq<nat>)
    requires candles != [] && InReach(c, |candles| - 1, pivots) && k <= |pivots|
    requires Resolved(c, candles, pivots, k, candidates, found, still)
    ensures forall i :: 0 <= i < |still| ==> still[i] < |candidates|
  {
    hide CandidateOf, SwingOf, NewSwings;
  }

  /** A refused swing is one of those the candle completes. */
  lemma {:induction false} RefusedSwing(c: Config, f: Fields, pivots: seq<Pivot>, k: nat, confirmed: seq<Swing>, found: seq<Swing>, still: seq<nat>)
    requires Midway(c, f, pivots, k, confirmed, found, still) && k < |pivots|
    requires k < |f.candidates| && f.candidates[k].resolution.Pending? && CandidateOf(c, f.candles, pivots[k]).resolution.Confirmed?
    requires pivots[k].index + c.right == |f.candles| - 1 && SwingOf(c, f.candles, pivots[k]).price <= Padding(c)
    ensures InReach(c, |f.candles|, pivots) && !Positive(c, NewSwings(c, f.candles, pivots))
  {
    hide CandidateOf, SwingOf, Padding, PendingOf, ZonesKept, WellFormed, NewSwings;
    var s := SwingOf(c, f.candles, pivots[k]);
    assert InReach(c, |f.candles|, pivots[..k + 1]);
    NewSwingsAppend(c, f.candles, pivots, k);
    NewSwingsPrefix(c, f.candles, pivots, k + 1);
    assert NewSwings(c, f.candles, pivots)[|found|] == s;
  }

  /** The pending loop on fields in step: exactly the reference candidates, the swings that the
      candle completes and the unresolved indices, unless one of those swings is refused. */
  lemma {:induction false} ResolvedAll(c: Config, f: Fields, pivots: seq<Pivot>, pending: seq<nat>, i: nat, k: nat,
                                       confirmed: seq<Swing>, found: seq<Swing>, still: seq<nat>)
    requires ConfigOk(c) && Midway(c, f, pivots, k, confirmed, found, still)
    requires Remaining(Candidates(c, f.candles[..|f.candles| - 1], pivots), pending, i, k)
    ensures Indices(f, pending[i..]) && Indices(f, still) && InReach(c, |f.candles|, pivots)
    ensures var r := Resolve(c, f, pending[i..], still);
      && (r.ok <==> Positive(c, NewSwings(c, f.candles, pivots)))
      && (r.ok ==> Midway(c, r.fields, pivots, |pivots|, confirmed, NewSwings(c, f.candles, pivots), r.still))
    decreases |pending| - i
  {
    hide Midway, Remaining, SwingOf, CandidateOf, NewSwings, Padding, Positive, ResolveOne, Waits, WellFormed;
    MidwayTail(c, f, pivots, k, confirmed, found, still);
    var candidates0 := Candidates(c, f.candles[..|f.candles| - 1], pivots);
    NextPending(candidates0, pending, i, k);
    TodoIndices(candidates0, pending, i, k);
    if i == |pending| {
      MidwaySkip(c, f, pivots, k, |pivots|, confirmed, found, still);
      MidwayEnd(c, f, pivots, confirmed, found, still);
      MidwayPositive(c, f, pivots, |pivots|, confirmed, found, still);
    } else {
      var m := pending[i];
      assert pending[i..][0] == m && pending[i..][1..] == pending[i + 1..];
      MidwaySkip(c, f, pivots, k, m, confirmed, found, still);
      MidwayNext(c, f, pivots, m, confirmed, found, still);
      var updated := CandidateOf(c, f.candles, pivots[m]);
      var one := ResolveOne(c, f, m);
      if one.ok {
        ResolvedAll(c, one.fields, pivots, pending, i + 1, m + 1, confirmed,
                    if updated.resolution.Confirmed? then found + [SwingOf(c, f.candles, pivots[m])] else found,
                    if updated.resolution.Pending? then still + [m] else still);
      } else {
        RefusedSwing(c, f, pivots, m, confirmed, found, still);
      }
    }
  }

  lemma {:induction false} MidwayPositive(c: Config, f: Fields, pivots: seq<Pivot>, k: nat, confirmed: seq<Swing>, found: seq<Swing>, still: seq<nat>)
    requires Midway(c, f, pivots, k, confirmed, found, still)
    ensures Positive(c, found) && f.confirmed == confirmed + found && WellFormed(c, f)
    ensures ZonesKept(c, Low, f.confirmed, f.support) && ZonesKept(c, High, f.confirmed, f.resistance)
  {
  }

  lemma {:induction false} TodoIndices(candidates0: seq<Candidate>, pending: seq<nat>, i: nat, k: nat)
    requires Remaining(candidates0, pending, i, k)
    ensures i <= |pending| && forall j :: 0 <= j < |pending| ==> pending[j] < |candidates0|
  {
  }

  /** One more candle on fields in step: refused exactly if it completes a swing within the
      padding of zero; otherwise the fields stay in step. */
  lemma {:induction false} StepInStep(c: Config, f: Fields, candle: Candle)
    requires InStep(c, f) && ValidSource(c, f.candles + [candle])
    ensures WellFormed(c, f)
    ensures var r := Step(c, f, candle);
      && (r.ok <==> Positive(c, SwingsOf(c, f.candles + [candle])))
      && (if r.ok then InStep(c, r.fields) else Stalled(c, r.fields))
  {
    hide ValidSource, SwingsOf, BreaksOf, BreakAt, Positive, ZonesKept, PendingOf, Candidates, ConfirmedSwings, Pivots, PivotsAt, NewSwings,
         Resolve, OpenedBoth, WellFormed, Midway, Remaining;
    InStepFacts(c, f);
    InStepUpTo(c, f);
    LongerHistory(c, f, candle);
    var pivots := Pivots(c, f.candles);
    var g := f.(candles := f.candles + [candle]);
    assert g.candles[..|g.candles| - 1] == f.candles;
    SwingsStep(c, g.candles);
    MidwayStart(c, f, candle);
    NoneRemaining(f.candidates, f.pending);
    ResolvedAll(c, g, pivots, f.pending, 0, 0, f.confirmed, [], []);
    assert f.pending[0..] == f.pending;
    PositiveConcat(c, f.confirmed, NewSwings(c, g.candles, pivots));
    var turn := Resolve(c, g, f.pending, []);
    if turn.ok {
      MidwayEnd(c, turn.fields, pivots, f.confirmed, NewSwings(c, g.candles, pivots), turn.still);
      MidwayPositive(c, turn.fields, pivots, |pivots|, f.confirmed, NewSwings(c, g.candles, pivots), turn.still);
      StepEnds(c, f, candle, turn);
    }
  }

  lemma {:induction false} MidwayStart(c: Config, f: Fields, candle: Candle)
    requires InStep(c, f)
    ensures var g := f.(candles := f.candles + [candle]);
      InReach(c, |f.candles|, Pivots(c, f.candles)) && Midway(c, g, Pivots(c, f.candles), 0, f.confirmed, [], [])
  {
    hide SwingsOf, BreaksOf, ZonesKept, PendingOf, Candidates, ValidSource, Pivots, MadeFrom, Resolved;
    InStepFacts(c, f);
    InStepUpTo(c, f);
    LongerHistory(c, f, candle);
    var g := f.(candles := f.candles + [candle]);
    assert g.candles[..|g.candles| - 1] == f.candles;
    ResolvedStart(c, g.candles, Pivots(c, f.candles));
    assert f.confirmed + [] == f.confirmed;
  }

  lemma {:induction false} StepEnds(c: Config, f: Fields, candle: Candle, turn: Turn)
    requires InStep(c, f) && ValidSource(c, f.candles + [candle])
    requires turn.fields.candles == f.candles + [candle] && turn.fields.breaks == f.breaks
    requires turn.ok && UpTo(c, turn.fields.(pending := turn.still), Pivots(c, f.candles))
    requires turn.fields.confirmed == SwingsOf(c, f.candles + [candle]) && Positive(c, turn.fields.confirmed)
    requires ZonesKept(c, Low, turn.fields.confirmed, turn.fields.support) && ZonesKept(c, High, turn.fields.confirmed, turn.fields.resistance)
    ensures WellFormed(c, turn.fields.(pending := turn.still))
    ensures var g := OpenedBoth(c, turn.fields.(pending := turn.still));
      InStep(c, g.(breaks := BreakAt(c, g.confirmed, g.breaks, candle)))
  {
    hide ValidSource, SwingsOf, BreaksOf, BreakAt, Positive, ZonesKept, PendingOf, Candidates, Pivots, PivotsAt, OpenedBoth, WellFormed;
    var h := turn.fields.(pending := turn.still);
    var pivots := Pivots(c, f.candles);
    assert h.candles[..|h.candles| - 1] == f.candles;
    UpToWellFormed(c, h, pivots);
    OpenedPivots(c, h, pivots);
    PivotsGrow(c, h.candles);
    SourceIncreasing(c, h.candles);
    BreaksStep(c, h.candles);
  }

  // ---- many candles ----------------------------------------------------------------

  /** Candles one by one, up to the first refused zone. */
  function Feed(c: Config, f: Fields, more: seq<Candle>): (r: Stepped)
    requires WellFormed(c, f)
    ensures WellFormed(c, r.fields)
    decreases |more|
  {
    if more == [] then Stepped(f, true)
    else
      var one := Step(c, f, more[0]);
      if one.ok then Feed(c, one.fields, more[1..]) else one
  }

  datatype Outcome = Outcome(fields: Fields, fault: Option<StructureFault>)

  /** `append`: start over unless the known candles are extended, check what is new, feed it. */
  function Appended(c: Config, f: Fields, incoming: seq<Candle>): (r: Outcome)
    requires ConfigOk(c) && WellFormed(c, f)
    ensures WellFormed(c, r.fields)
  {
    var g := if f.candles <= incoming then f else NOTHING;
    var known := |g.candles|;
    if !ValidSource(c, incoming[if known == 0 then 0 else known - 1..]) then Outcome(g, Some(UnusableSource))
    else
      var r := Feed(c, g, incoming[known..]);
      Outcome(r.fields, if r.ok then None else Some(UnusableZone))
  }

  lemma {:induction false} FeedOne(c: Config, f: Fields, incoming: seq<Candle>)
    requires WellFormed(c, f) && f.candles < incoming
    ensures var n := |f.candles|; var one := Step(c, f, incoming[n]);
      && one.fields.candles == incoming[..n + 1] == f.candles + [incoming[n]]
      && Feed(c, f, incoming[n..]) == if one.ok then Feed(c, one.fields, incoming[n + 1..]) else one
  {
    hide Step, WellFormed;
    var n := |f.candles|;
    assert incoming[n..][0] == incoming[n] && incoming[n..][1..] == incoming[n + 1..];
  }

  /** Candles fed to fields in step: all of them exactly if no swing lies within the padding of
      zero, and otherwise as far as the first such swing. */
  ghost predicate Fed(c: Config, r: Stepped, incoming: seq<Candle>)
    requires ConfigOk(c)
  {
    && (r.ok <==> Positive(c, SwingsOf(c, incoming)))
    && (if r.ok then InStep(c, r.fields) && r.fields.candles == incoming else Stalled(c, r.fields) && r.fields.candles <= incoming)
  }

  lemma {:induction false} FedRefusal(c: Config, r: Stepped, incoming: seq<Candle>, k: nat)
    requires !r.ok && Stalled(c, r.fields) && k <= |incoming| && r.fields.candles == incoming[..k]
    ensures Fed(c, r, incoming)
  {
    hide SwingsOf, Positive, WellFormed, ValidSource;
    NotPositive(c, incoming, k);
  }

  lemma {:induction false} FedOne(c: Config, f: Fields, incoming: seq<Candle>)
    requires InStep(c, f) && f.candles < incoming && ValidSource(c, incoming)
    ensures ConfigOk(c) && WellFormed(c, f)
    ensures var one := Step(c, f, incoming[|f.candles|]);
      && one.fields.candles <= incoming && |one.fields.candles| == |f.candles| + 1
      && (if one.ok then InStep(c, one.fields) else Fed(c, one, incoming))
  {
    hide InStep, Stalled, Step, Fed, ValidSource, SwingsOf, Positive, WellFormed;
    var n := |f.candles|;
    InStepFacts(c, f);
    SourcePrefix(c, incoming, n + 1);
    assert incoming[..n + 1] == f.candles + [incoming[n]];
    StepInStep(c, f, incoming[n]);
    var one := Step(c, f, incoming[n]);
    if !one.ok {
      FedRefusal(c, one, incoming, n + 1);
    }
  }

  lemma {:induction false} FeedInStep(c: Config, f: Fields, incoming: seq<Candle>)
    requires InStep(c, f) && f.candles <= incoming && ValidSource(c, incoming)
    ensures ConfigOk(c) && WellFormed(c, f) && Fed(c, Feed(c, f, incoming[|f.candles|..]), incoming)
    decreases |incoming| - |f.candles|
  {
    hide InStep, Stalled, Step, Feed, Fed, ValidSource, WellFormed;
    var n := |f.candles|;
    InStepFacts(c, f);
    if n == |incoming| {
      assert incoming == f.candles && incoming[n..] == [];
      FedNothing(c, f);
      FedWhole(c, f);
    } else {
      FeedOne(c, f, incoming);
      FedOne(c, f, incoming);
      var one := Step(c, f, incoming[n]);
      if one.ok {
        FeedInStep(c, one.fields, incoming);
      }
    }
  }

  lemma {:induction false} FedWhole(c: Config, f: Fields)
    requires InStep(c, f)
    ensures Fed(c, Stepped(f, true), f.candles)
  {
    hide SwingsOf, Positive, ValidSource, ZonesKept, BreaksOf, PendingOf, SwingCandidates;
  }

  lemma {:induction false} FedNothing(c: Config, f: Fields)
    requires WellFormed(c, f)
    ensures Feed(c, f, []) == Stepped(f, true)
  {
  }

  lemma {:induction false} StalledFacts(c: Config, f: Fields)
    requires Stalled(c, f)
    ensures ConfigOk(c) && WellFormed(c, f) && ValidSource(c, f.candles) && !Positive(c, SwingsOf(c, f.candles))
  {
  }

  /** Stalled fields take more candles, and stay stalled. */
  lemma {:induction false} FeedStalled(c: Config, f: Fields, incoming: seq<Candle>)
    requires Stalled(c, f) && f.candles <= incoming && ValidSource(c, incoming)
    ensures WellFormed(c, f)
    ensures var r := Feed(c, f, incoming[|f.candles|..]);
      && Stalled(c, r.fields) && r.fields.candles <= incoming
      && (r.ok ==> r.fields.candles == incoming) && (!r.ok ==> |r.fields.candles| > |f.candles|)
    decreases |incoming| - |f.candles|
  {
    hide Step, Feed, ValidSource, SwingsOf, Positive, WellFormed;
    var n := |f.candles|;
    if n == |incoming| {
      assert incoming == f.candles && incoming[n..] == [];
      FedNothing(c, f);
    } else {
      var candle := incoming[n];
      FeedOne(c, f, incoming);
      SourcePrefix(c, incoming, n + 1);
      assert incoming[..n + 1][..n] == f.candles;
      NotPositive(c, incoming[..n + 1], n);
      var one := Step(c, f, candle);
      if one.ok {
        FeedStalled(c, one.fields, incoming);
      }
    }
  }

  lemma {:induction false} NothingInStep(c: Config)
    requires ConfigOk(c)
    ensures InStep(c, NOTHING)
  {
    EmptyState(c);
  }

  /** An append that extends fields in step, or starts over: refused exactly when the candles are
      no valid source or a swing lies within the padding of zero. */
  lemma {:induction false} AppendInStep(c: Config, f: Fields, incoming: seq<Candle>)
    requires ConfigOk(c) && WellFormed(c, f) && (InStep(c, f) || !(f.candles <= incoming))
    ensures var r := Appended(c, f, incoming);
      && (r.fault.None? <==> ValidSource(c, incoming) && Positive(c, SwingsOf(c, incoming)))
      && (r.fault == Some(UnusableSource) <==> !ValidSource(c, incoming))
      && (r.fault.None? ==> r.fields.candles == incoming)
      && (if r.fault == Some(UnusableZone) then Stalled(c, r.fields) && r.fields.candles <= incoming else InStep(c, r.fields))
  {
    hide InStep, Stalled, Feed, ValidSource, SwingsOf, Positive, WellFormed;
    NothingInStep(c);
    var g := if f.candles <= incoming then f else NOTHING;
    InStepFacts(c, g);
    assert incoming[..|g.candles|] == g.candles;
    SourceExtends(c, incoming, |g.candles|);
    if ValidSource(c, incoming) {
      FeedInStep(c, g, incoming);
    }
  }

  /** An append that extends stalled fields leaves them stalled, refused or not. */
  lemma {:induction false} AppendStalled(c: Config, f: Fields, incoming: seq<Candle>)
    requires Stalled(c, f) && f.candles <= incoming
    ensures ConfigOk(c) && WellFormed(c, f)
    ensures var r := Appended(c, f, incoming);
      && Stalled(c, r.fields)
      && (r.fault == Some(UnusableSource) <==> !ValidSource(c, incoming))
      && (r.fault == Some(UnusableSource) ==> r.fields == f)
      && (r.fault == Some(UnusableZone) ==> |r.fields.candles| > |f.candles|)
      && (r.fault.None? ==> r.fields.candles == incoming)
  {
    hide Stalled, Feed, ValidSource, SwingsOf, Positive, WellFormed;
    StalledFacts(c, f);
    assert incoming[..|f.candles|] == f.candles;
    SourceExtends(c, incoming, |f.candles|);
    if ValidSource(c, incoming) {
      FeedStalled(c, f, incoming);
    }
  }

  // ---- the state -------------------------------------------------------------------

  datatype Structure = Structure(
    candidates: seq<Candidate>, confirmed: seq<Swing>, support: seq<PriceZone>, resistance: seq<PriceZone>,
    trend: Trend, events: seq<BreakEvent>, rejections: seq<Rejection>)

  /** `analyze_market_structure`: the reference over a whole history; a zone that would reach
      down to zero is refused. */
  ghost predicate IsAnalysis(c: Config, candles: seq<Candle>, r: Structure) {
    var swings, breaks := SwingsOf(c, candles), BreaksOf(c, candles, SwingsOf(c, candles));
    && r.candidates == SwingCandidates(c, candles) && r.confirmed == swings
    && ZonesKept(c, Low, swings, r.support) && ZonesKept(c, High, swings, r.resistance)
    && r.trend == ClassifyTrend(c, swings) && r.events == breaks.events && r.rejections == breaks.rejections
  }

  class StructureState {
    const config: Config
    var candles: seq<Candle>
    var candidates: seq<Candidate>
    var confirmed: seq<Swing>
    var breaks: BreakState
    var pending: seq<nat>
    var support: seq<PriceZone>
    var resistance: seq<PriceZone>

    function State(): Fields
      reads this
    {
      Fields(candles, candidates, confirmed, breaks, pending, support, resistance)
    }

    /** In step with the reference, or stalled by a refused zone. */
    ghost predicate Valid()
      reads this
    {
      ConfigOk(config) && WellFormed(config, State()) && (InStep(config, State()) || Stalled(config, State()))
    }

    constructor (config: Config)
      requires ConfigOk(config)
      ensures Valid() && State() == NOTHING && this.config == config
    {
      this.config := config;
      candles, candidates, confirmed, breaks, pending, support, resistance := [], [], [], UNBROKEN, [], [], [];
      new;
      NothingInStep(config);
      InStepFacts(config, NOTHING);
    }

    method Reset()
      modifies this
      ensures State() == NOTHING
    {
      candles, candidates, confirmed, breaks, pending, support, resistance := [], [], [], UNBROKEN, [], [], [];
    }

    /** The pending loop: candidates are rewritten in place, a confirmed swing is listed and then
        zoned. A refused zone leaves the loop, and the old pending indices, as they are. */
    method ResolvePending() returns (ok: bool)
      requires WellFormed(config, State())
      modifies this
      ensures var r := Resolve(config, old(State()), old(pending), []);
        ok == r.ok && State() == if r.ok then r.fields.(pending := r.still) else r.fields
      ensures WellFormed(config, State()) && candles == old(candles)
    {
      hide Tolerance, Padding, ZoneInto, LeftQualifies, RightQualifies, SwingOf;
      ghost var start := State();
      var still: seq<nat> := [];
      assert pending[0..] == pending;
      for i := 0 to |pending|
        invariant pending == start.pending && WellFormed(config, State()) && Indices(State(), pending[i..]) && Indices(State(), still)
        invariant Resolve(config, State(), pending[i..], still) == Resolve(config, start, start.pending, [])
      {
        var index := pending[i];
        assert pending[i..][0] == index && pending[i..][1..] == pending[i + 1..];
        var candidate := candidates[index];
        assert MadeFrom(config, candles, candidate);
        var p := Pivot(candidate.pivotIndex, candidate.kind);
        if Observed(config, |candles|, p) == candidate.observedRight {
          still := still + [index];
          continue;
        }
        var updated := Updated(config, candles, candidate);
        candidates := candidates[index := updated];
        if updated.resolution.Pending? {
          still := still + [index];
        }
        if updated.resolution.Confirmed? {
          var s := SwingOf(config, candles, p);
          confirmed := confirmed + [s];
          var zones := AppendZone(config, if s.kind.Low? then support else resistance, s);
          if zones.None? {
            return false;
          }
          if s.kind.Low? {
            support := zones.value;
          } else {
            resistance := zones.value;
          }
        }
      }
      pending := still;
      return true;
    }

    /** New pivots: HIGH before LOW. */
    method OpenPivots()
      requires candles != [] && WellFormed(config, State())
      modifies this
      ensures State() == OpenedBoth(config, old(State()))
    {
      hide LeftQualifies;
      var index := |candles| - 1;
      if index >= config.left {
        for k := 0 to 2
          invariant WellFormed(config, State()) && candles == old(candles)
          invariant State() == if k == 0 then old(State()) else if k == 1 then Opened(config, old(State()), High) else OpenedBoth(config, old(State()))
        {
          var kind := if k == 0 then High else Low;
          var p := Pivot(index, kind);
          if LeftQualifies(config, candles, p) {
            var candle := candles[index];
            pending := pending + [|candidates|];
            candidates := candidates + [Candidate(kind, index, candle.timestamp, PriceOf(kind, candle), candle.timestamp + config.duration, 0, Pending, None)];
          }
        }
      }
    }

    /** One candle: resolve and zone, open, break. */
    method Take(candle: Candle) returns (ok: bool)
      requires WellFormed(config, State())
      modifies this
      ensures Stepped(State(), ok) == Step(config, old(State()), candle)
    {
      hide Resolve, OpenedBoth, BreakAt, WellFormed;
      LongerHistory(config, State(), candle);
      candles := candles + [candle];
      ok := ResolvePending();
      if !ok {
        return;
      }
      OpenPivots();
      breaks := BreakAt(config, confirmed, breaks, candle);
    }

    /** Extend the known candles, or start over when they are not extended. As long as no zone was
        refused since then, the state is that of the last candles, and an append is refused exactly
        when they are no valid source or a swing lies within the padding of zero. */
    method Append(incoming: seq<Candle>) returns (fault: Option<StructureFault>)
      requires Valid()
      modifies this
      ensures Valid() && Outcome(State(), fault) == Appended(config, old(State()), incoming)
      ensures old(InStep(config, State())) || !(old(candles) <= incoming) ==>
        && (fault.None? <==> ValidSource(config, incoming) && Positive(config, SwingsOf(config, incoming)))
        && (fault.None? ==> candles == incoming)
        && (fault != Some(UnusableZone) ==> InStep(config, State()))
    {
      hide InStep, Stalled, Step, ValidSource, SwingsOf, Positive, WellFormed;
      if InStep(config, State()) || !(candles <= incoming) {
        AppendInStep(config, State(), incoming);
      } else {
        AppendStalled(config, State(), incoming);
      }
      if !(candles <= incoming) {
        Reset();
        NothingInStep(config);
        InStepFacts(config, NOTHING);
      }
      var known := |candles|;
      if !ValidSource(config, incoming[if known == 0 then 0 else known - 1..]) {
        return Some(UnusableSource);
      }
      ghost var first := State();
      for i := known to |incoming|
        invariant WellFormed(config, State())
        invariant Feed(config, State(), incoming[i..]) == Feed(config, first, incoming[known..])
      {
        assert incoming[i..][0] == incoming[i] && incoming[i..][1..] == incoming[i + 1..];
        var ok := Take(incoming[i]);
        if !ok {
          return Some(UnusableZone);
        }
      }
      return None;
    }

    /** Fresh containers. What is reported is the reference analysis of the candles exactly while
        the fields are in step; a stalled state reports what the reference refuses to. */
    method Result() returns (r: Structure)
      requires Valid()
      ensures r == Structure(candidates, confirmed, support, resistance, ClassifyTrend(config, confirmed), breaks.events, breaks.rejections)
      ensures IsAnalysis(config, candles, r) <==> InStep(config, State())
    {
      hide SwingsOf, BreaksOf, ZonesKept, SwingCandidates, ValidSource, ClassifyTrend, Positive, PendingOf, WellFormed;
      r := Structure(candidates, confirmed, support, resistance, ClassifyTrend(config, confirmed), breaks.events, breaks.rejections);
      if Stalled(config, State()) {
        NoAnalysis(config, candles, r);
      }
    }
  }

  /** The reference has no answer where a swing lies within the padding of zero. */
  lemma {:induction false} NoAnalysis(c: Config, candles: seq<Candle>, r: Structure)
    requires ConfigOk(c) && !Positive(c, SwingsOf(c, candles))
    ensures !IsAnalysis(c, candles, r)
  {
    hide SwingsOf, BreaksOf, SwingCandidates, ClassifyTrend, Positive, ZonesOf, KindPositive, Padding;
    var swings := SwingsOf(c, candles);
    PositiveKinds(c, swings);
    if IsAnalysis(c, candles, r) {
      ToleranceSign(c);
      BoundsPositive(c, Low, swings);
      BoundsPositive(c, High, swings);
      AboveShown(c, ZonesOf(c, Low, swings));
      AboveShown(c, ZonesOf(c, High, swings));
    }
  }

  lemma {:induction false} AboveShown(c: Config, zones: seq<Zone>)
    requires ConfigOk(c) && Sourced(zones) && AllAbove(c, zones)
    ensures forall i :: 0 <= i < |zones| ==> BoundsOk(Shown(c, i, zones[i]))
  {
    hide Padding;
    ToleranceSign(c);
  }

  lemma {:induction false} EmptyState(c: Config)
    requires ConfigOk(c)
    ensures ValidSource(c, []) && SwingCandidates(c, []) == [] && SwingsOf(c, []) == [] && PendingOf([]) == []
    ensures BreaksOf(c, [], []) == UNBROKEN && Positive(c, [])
    ensures ZonesKept(c, Low, [], []) && ZonesKept(c, High, [], [])
  {
  }

  lemma {:induction false} PositiveConcat(c: Config, a: seq<Swing>, b: seq<Swing>)
    ensures Positive(c, a + b) <==> Positive(c, a) && Positive(c, b)
  {
    hide Padding;
    if Positive(c, a + b) {
      forall i | 0 <= i < |a| ensures a[i].price > Padding(c) { assert (a + b)[i] == a[i]; }
      forall i | 0 <= i < |b| ensures b[i].price > Padding(c) { assert (a + b)[|a| + i] == b[i]; }
    }
  }

  lemma {:induction false} PivotsGrow(c: Config, candles: seq<Candle>)
    requires candles != []
    ensures Pivots(c, candles) == Pivots(c, candles[..|candles| - 1]) + PivotsAt(c, candles, |candles| - 1)
  {
  }

  lemma {:induction false} SourcePrefix(c: Config, candles: seq<Candle>, k: nat)
    requires ConfigOk(c) && ValidSource(c, candles) && k <= |candles|
    ensures ValidSource(c, candles[..k])
  {
    hide Ticked;
  }

  lemma {:induction false} NotPositive(c: Config, candles: seq<Candle>, k: nat)
    requires ConfigOk(c) && k <= |candles| && !Positive(c, SwingsOf(c, candles[..k]))
    ensures !Positive(c, SwingsOf(c, candles))
  {
    hide SwingsOf, Padding;
    SwingsNeverRevised(c, candles, k);
  }

  // ---- the reference analysis ------------------------------------------------------

  lemma {:induction false} SourcesOf(zones: seq<Zone>, i: nat, s: Swing)
    requires i < |zones| && s in zones[i].sources
    ensures s in Flatten(zones)
    decreases |zones|
  {
    if i < |zones| - 1 {
      SourcesOf(zones[..|zones| - 1], i, s);
    }
  }

  lemma {:induction false} FlattenFrom(zones: seq<Zone>, s: Swing) returns (i: nat)
    requires s in Flatten(zones)
    ensures i < |zones| && s in zones[i].sources
    decreases |zones|
  {
    var n := |zones| - 1;
    if s in zones[n].sources {
      i := n;
    } else {
      i := FlattenFrom(zones[..n], s);
    }
  }

  lemma {:induction false} OfKindMember(kind: SwingKind, swings: seq<Swing>, s: Swing)
    ensures s in OfKind(kind, swings) <==> s in swings && s.kind == kind
    decreases |swings|
  {
    if swings != [] {
      OfKindMember(kind, swings[..|swings| - 1], s);
      assert swings == swings[..|swings| - 1] + [swings[|swings| - 1]];
    }
  }

  ghost predicate KindPositive(c: Config, kind: SwingKind, swings: seq<Swing>) {
    forall s :: s in swings && s.kind == kind ==> s.price > Padding(c)
  }

  /** The bounds of the zones of a kind are positive exactly when each of its swings lies above
      the padding. */
  lemma {:induction false} BoundsPositive(c: Config, kind: SwingKind, swings: seq<Swing>)
    requires ConfigOk(c)
    ensures var zones := ZonesOf(c, kind, swings);
      && Sourced(zones)
      && ((forall i :: 0 <= i < |zones| ==> BoundsOk(Shown(c, i, zones[i]))) <==> KindPositive(c, kind, swings))
      && (KindPositive(c, kind, swings) ==> AllAbove(c, zones))
  {
    hide ZonesOf, OfKind, Flatten, Tolerance, Padding, Apart;
    ToleranceSign(c);
    var zones := ZonesOf(c, kind, swings);
    ZonesPartition(c, kind, swings);
    if KindPositive(c, kind, swings) {
      forall i | 0 <= i < |zones| ensures Padding(c) < zones[i].lowest <= zones[i].highest && BoundsOk(Shown(c, i, zones[i])) {
        LowestIsSource(c, kind, swings, i);
      }
    } else {
      var s :| s in swings && s.kind == kind && s.price <= Padding(c);
      OfKindMember(kind, swings, s);
      assert s in multiset(OfKind(kind, swings));
      assert s in multiset(Flatten(zones));
      var i := FlattenFrom(zones, s);
      assert ZoneOk(c, zones[i]);
      var k :| 0 <= k < |zones[i].sources| && zones[i].sources[k] == s;
    }
  }

  lemma {:induction false} LowestIsSource(c: Config, kind: SwingKind, swings: seq<Swing>, i: nat)
    requires ConfigOk(c) && i < |ZonesOf(c, kind, swings)| && KindPositive(c, kind, swings)
    ensures var z := ZonesOf(c, kind, swings)[i]; Padding(c) < z.lowest <= z.highest
  {
    hide ZonesOf, OfKind, Flatten, Tolerance, Padding, Apart;
    var zones := ZonesOf(c, kind, swings);
    ZonesPartition(c, kind, swings);
    assert ZoneOk(c, zones[i]);
    var lo :| 0 <= lo < |zones[i].sources| && zones[i].sources[lo].price == zones[i].lowest;
    var s := zones[i].sources[lo];
    SourcesOf(zones, i, s);
    assert s in multiset(Flatten(zones));
    assert s in multiset(OfKind(kind, swings));
    OfKindMember(kind, swings, s);
  }

  lemma {:induction false} PositiveKinds(c: Config, swings: seq<Swing>)
    ensures Positive(c, swings) <==> KindPositive(c, Low, swings) && KindPositive(c, High, swings)
  {
    hide Padding;
    if KindPositive(c, Low, swings) && KindPositive(c, High, swings) {
      forall i | 0 <= i < |swings| ensures swings[i].price > Padding(c) {
        assert swings[i] in swings;
      }
    }
  }

  /** The zones of one kind as they are shown; refused when a bound is not positive. */
  method ShowZones(c: Config, kind: SwingKind, swings: seq<Swing>) returns (r: Result<seq<PriceZone>, StructureFault>)
    requires ConfigOk(c) && InOrder(swings)
    ensures r.Ok? <==> KindPositive(c, kind, swings)
    ensures r.Ok? ==> ZonesKept(c, kind, swings, r.value)
  {
    hide ZonesOf, KindPositive, InOrder, BoundsOk, AllAbove;
    var zones := BuildZones(c, kind, swings);
    BoundsPositive(c, kind, swings);
    var shown := ShownAll(c, zones);
    if exists i :: 0 <= i < |shown| && !BoundsOk(shown[i]) {
      ghost var i :| 0 <= i < |shown| && !BoundsOk(shown[i]);
      assert shown[i] == Shown(c, i, zones[i]);
      return Err(UnusableZone);
    }
    forall i | 0 <= i < |zones| ensures BoundsOk(Shown(c, i, zones[i])) {
      assert shown[i] == Shown(c, i, zones[i]);
    }
    return Ok(shown);
  }

  /** `analyze_market_structure`: everything recomputed from the whole history. It is refused
      under the same condition as the incremental state, and reports the same structure. */
  method AnalyzeMarketStructure(c: Config, candles: seq<Candle>) returns (r: Result<Structure, StructureFault>)
    requires ConfigOk(c)
    ensures r.Ok? <==> ValidSource(c, candles) && Positive(c, SwingsOf(c, candles))
    ensures r.Ok? ==> IsAnalysis(c, candles, r.value)
  {
    hide ValidSource, SwingsOf, SwingCandidates, BreaksOf, ZonesKept, Positive, Confirmations, ClassifyTrend;
    if !ValidSource(c, candles) {
      return Err(UnusableSource);
    }
    SourceIncreasing(c, candles);
    var candidates, swings := DetectSwings(c, candles);
    SwingsConfirm(c, candles);
    ConfirmationsInOrder(swings);
    var breaks := DetectBreaks(c, candles, swings);
    PositiveKinds(c, swings);
    var support := ShowZones(c, Low, swings);
    if support.Err? {
      return Err(support.error);
    }
    var resistance := ShowZones(c, High, swings);
    if resistance.Err? {
      return Err(resistance.error);
    }
    return Ok(Structure(candidates, swings, support.value, resistance.value, ClassifyTrend(c, swings), breaks.events, breaks.rejections));
  }

  lemma {:induction false} ConfirmationsInOrder(swings: seq<Swing>)
    requires Confirmations(swings)
    ensures InOrder(swings)
  {
  }

  /** What the reference reports is determined by the candles. */
  lemma {:induction false} AnalysisUnique(c: Config, candles: seq<Candle>, a: Structure, b: Structure)
    requires IsAnalysis(c, candles, a) && IsAnalysis(c, candles, b)
    ensures a == b
  {
    hide SwingsOf, SwingCandidates, BreaksOf, ClassifyTrend, ZonesOf, AllAbove;
  }
}
