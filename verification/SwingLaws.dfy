/** Which candles are candidates and which are confirmed as swings, said of their neighbours. */
module SwingLaws {
  import opened Wrappers
  import opened Resampling
  import opened Swings

  /** The high of a candle is above another's, or the low below, or they may tie. */
  predicate Above(kind: SwingKind, tie: bool, pivot: Candle, other: Candle) {
    match kind
    case High => pivot.high > other.high || (tie && pivot.high == other.high)
    case Low => pivot.low < other.low || (tie && pivot.low == other.low)
  }

  /** It beats the bars on its left; only the latest of equal bars may tie with earlier ones. */
  ghost predicate LeadsLeft(c: Config, candles: seq<Candle>, i: nat, kind: SwingKind)
    requires c.left <= i < |candles|
  {
    forall j :: i - c.left <= j < i ==> Above(kind, c.policy.Latest?, candles[i], candles[j])
  }

  /** It beats the bars on its right; only the earliest of equal bars may tie with later ones. */
  ghost predicate LeadsRight(c: Config, candles: seq<Candle>, i: nat, kind: SwingKind)
    requires i + c.right < |candles|
  {
    forall j :: i < j <= i + c.right ==> Above(kind, c.policy.Earliest?, candles[i], candles[j])
  }

  lemma {:induction false} Leads(c: Config, candles: seq<Candle>, p: Pivot)
    requires c.left <= p.index < |candles|
    ensures LeftQualifies(c, candles, p) <==> LeadsLeft(c, candles, p.index, p.kind)
    ensures p.index + c.right < |candles| ==> (RightQualifies(c, candles, p) <==> LeadsRight(c, candles, p.index, p.kind))
  {
    forall j | p.index - c.left <= j < p.index
      ensures Beats(p.kind, !c.policy.Latest?, PriceOf(p.kind, candles[p.index]), PriceOf(p.kind, candles[j]))
          <==> Above(p.kind, c.policy.Latest?, candles[p.index], candles[j])
    {
    }
    if p.index + c.right < |candles| {
      forall j | p.index < j <= p.index + c.right
        ensures Beats(p.kind, !c.policy.Earliest?, PriceOf(p.kind, candles[p.index]), PriceOf(p.kind, candles[j]))
            <==> Above(p.kind, c.policy.Earliest?, candles[p.index], candles[j])
      {
      }
    }
  }

  /** A pivot of each kind at each bar that beats its left window. */
  lemma {:induction false} PivotsAre(c: Config, candles: seq<Candle>, p: Pivot)
    ensures p in Pivots(c, candles) <==> c.left <= p.index < |candles| && LeadsLeft(c, candles, p.index, p.kind)
    decreases |candles|
  {
    hide LeftQualifies, LeadsLeft;
    if candles != [] {
      var before := candles[..|candles| - 1];
      PivotsAre(c, before, p);
      if c.left <= p.index < |candles| {
        Leads(c, candles, p);
        if p.index < |before| {
          SameLeft(c, before, candles, p);
        }
      }
      PivotsAtAre(c, candles, |candles| - 1, p);
    }
  }

  lemma {:induction false} PivotsAtAre(c: Config, candles: seq<Candle>, i: nat, p: Pivot)
    requires i < |candles|
    ensures p in PivotsAt(c, candles, i) <==> p.index == i >= c.left && LeftQualifies(c, candles, p)
  {
    hide LeftQualifies;
    assert p.kind.High? || p.kind.Low?;
  }

  lemma {:induction false} SameLeft(c: Config, before: seq<Candle>, candles: seq<Candle>, p: Pivot)
    requires c.left <= p.index < |before| && before <= candles
    ensures LeadsLeft(c, before, p.index, p.kind) == LeadsLeft(c, candles, p.index, p.kind)
  {
  }

  /** What a confirmed swing records of its bar and its windows. */
  ghost predicate Records(c: Config, candles: seq<Candle>, s: Swing) {
    && c.left <= s.pivotIndex && s.pivotIndex + c.right < |candles|
    && var pivot := candles[s.pivotIndex];
       && s.price == (match s.kind case High => pivot.high case Low => pivot.low)
       && s.pivotTimestamp == pivot.timestamp && s.candidateAt == pivot.timestamp + c.duration
       && s.confirmedAt == candles[s.pivotIndex + c.right].timestamp + c.duration
       && |s.leftEvidence| == c.left && |s.rightEvidence| == c.right
       && (forall j :: 0 <= j < c.left ==> s.leftEvidence[j] == candles[s.pivotIndex - c.left + j].timestamp)
       && (forall j :: 0 <= j < c.right ==> s.rightEvidence[j] == candles[s.pivotIndex + 1 + j].timestamp)
  }

  lemma {:induction false} TimesAre(candles: seq<Candle>)
    ensures |Times(candles)| == |candles| && forall j :: 0 <= j < |candles| ==> Times(candles)[j] == candles[j].timestamp
    decreases |candles|
  {
    if candles != [] {
      TimesAre(candles[..|candles| - 1]);
    }
  }

  lemma {:induction false} SwingRecords(c: Config, candles: seq<Candle>, p: Pivot)
    requires c.left <= p.index && p.index + c.right < |candles|
    ensures var s := SwingOf(c, candles, p); Records(c, candles, s) && s.kind == p.kind && s.pivotIndex == p.index
  {
    hide Times;
    var left, right := candles[p.index - c.left..p.index], candles[p.index + 1..p.index + 1 + c.right];
    TimesAre(left);
    TimesAre(right);
  }

  lemma {:induction false} ConfirmedAre(c: Config, candles: seq<Candle>, pivots: seq<Pivot>, s: Swing)
    requires InReach(c, |candles|, pivots)
    ensures s in ConfirmedSwings(c, candles, pivots)
      <==> exists p :: p in pivots && CandidateOf(c, candles, p).resolution.Confirmed? && s == SwingOf(c, candles, p)
    decreases |pivots|
  {
    hide CandidateOf, SwingOf;
    if pivots != [] {
      ConfirmedAre(c, candles, pivots[..|pivots| - 1], s);
      assert pivots == pivots[..|pivots| - 1] + [pivots[|pivots| - 1]];
    }
  }

  /** A bar of a kind leads both its windows. */
  ghost predicate Leading(c: Config, candles: seq<Candle>, i: nat, kind: SwingKind) {
    c.left <= i && i + c.right < |candles| && LeadsLeft(c, candles, i, kind) && LeadsRight(c, candles, i, kind)
  }

  /** The confirmed swings of a history are exactly the bars that lead both their windows, as
      records of their own price and times. */
  lemma {:induction false} SwingsAre(c: Config, candles: seq<Candle>)
    requires ConfigOk(c)
    ensures forall s :: s in SwingsOf(c, candles) ==> Records(c, candles, s) && Leading(c, candles, s.pivotIndex, s.kind)
    ensures forall i: nat, kind :: Leading(c, candles, i, kind) ==>
      exists s :: s in SwingsOf(c, candles) && s.pivotIndex == i && s.kind == kind
  {
    hide SwingOf, LeftQualifies, RightQualifies, LeadsLeft, LeadsRight, Records, Pivots;
    PivotsInReach(c, candles);
    var pivots := Pivots(c, candles);
    forall s | s in SwingsOf(c, candles) ensures Records(c, candles, s) && Leading(c, candles, s.pivotIndex, s.kind) {
      ConfirmedAre(c, candles, pivots, s);
      var p :| p in pivots && CandidateOf(c, candles, p).resolution.Confirmed? && s == SwingOf(c, candles, p);
      Leads(c, candles, p);
      SwingRecords(c, candles, p);
    }
    forall i: nat, kind | Leading(c, candles, i, kind)
      ensures exists s :: s in SwingsOf(c, candles) && s.pivotIndex == i && s.kind == kind
    {
      var p := Pivot(i, kind);
      PivotsAre(c, candles, p);
      Leads(c, candles, p);
      SwingRecords(c, candles, p);
      ConfirmedAre(c, candles, pivots, SwingOf(c, candles, p));
      assert CandidateOf(c, candles, p).resolution.Confirmed?;
    }
  }

  /** The candidates are exactly the bars that lead their left window: pending until the right
      window is full, then confirmed exactly if they lead it too. */
  lemma {:induction false} CandidatesAre(c: Config, candles: seq<Candle>)
    requires ConfigOk(c)
    ensures forall d :: d in SwingCandidates(c, candles) ==>
      && c.left <= d.pivotIndex < |candles| && LeadsLeft(c, candles, d.pivotIndex, d.kind)
      && (d.resolution.Pending? <==> d.pivotIndex + c.right >= |candles|)
      && (d.resolution.Confirmed? <==> Leading(c, candles, d.pivotIndex, d.kind))
      && d.resolvedAt == (if d.pivotIndex + c.right < |candles| then Some(candles[d.pivotIndex + c.right].timestamp + c.duration) else None)
      && d.price == (match d.kind case High => candles[d.pivotIndex].high case Low => candles[d.pivotIndex].low)
      && d.pivotTimestamp == candles[d.pivotIndex].timestamp && d.candidateAt == candles[d.pivotIndex].timestamp + c.duration
      && (d.observedRight == c.right <==> !d.resolution.Pending?)
      && (d.resolution.Pending? ==> d.observedRight == |candles| - 1 - d.pivotIndex)
    ensures forall i: nat, kind :: c.left <= i < |candles| && LeadsLeft(c, candles, i, kind) ==>
      exists d :: d in SwingCandidates(c, candles) && d.pivotIndex == i && d.kind == kind
  {
    hide LeftQualifies, RightQualifies, LeadsLeft, LeadsRight, Pivots;
    PivotsInReach(c, candles);
    var pivots := Pivots(c, candles);
    forall d | d in SwingCandidates(c, candles)
      ensures c.left <= d.pivotIndex < |candles| && LeadsLeft(c, candles, d.pivotIndex, d.kind)
      ensures d.resolution.Confirmed? <==> Leading(c, candles, d.pivotIndex, d.kind)
      ensures d.resolution.Pending? <==> d.pivotIndex + c.right >= |candles|
      ensures d.resolvedAt == (if d.pivotIndex + c.right < |candles| then Some(candles[d.pivotIndex + c.right].timestamp + c.duration) else None)
      ensures d.price == (match d.kind case High => candles[d.pivotIndex].high case Low => candles[d.pivotIndex].low)
      ensures d.pivotTimestamp == candles[d.pivotIndex].timestamp && d.candidateAt == candles[d.pivotIndex].timestamp + c.duration
      ensures d.observedRight == c.right <==> !d.resolution.Pending?
      ensures d.resolution.Pending? ==> d.observedRight == |candles| - 1 - d.pivotIndex
    {
      var k :| 0 <= k < |pivots| && d == CandidateOf(c, candles, pivots[k]);
      PivotsAre(c, candles, pivots[k]);
      Leads(c, candles, pivots[k]);
    }
    forall i: nat, kind | c.left <= i < |candles| && LeadsLeft(c, candles, i, kind)
      ensures exists d :: d in SwingCandidates(c, candles) && d.pivotIndex == i && d.kind == kind
    {
      var p := Pivot(i, kind);
      PivotsAre(c, candles, p);
      var k :| 0 <= k < |pivots| && pivots[k] == p;
      assert SwingCandidates(c, candles)[k] == CandidateOf(c, candles, p);
    }
  }
}
