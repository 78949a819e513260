/** Support and resistance zones: each confirmed swing joins the nearest zone whose anchor is
    within tolerance, or opens a new one. */
module Zones {
  import opened Sorting
  import opened Swings

  datatype Zone = Zone(anchor: real, lowest: real, highest: real, sources: seq<Swing>)

  /** A zone as it is shown: its bounds widened by the padding. */
  datatype PriceZone = PriceZone(
    index: nat, anchor: real, lower: real, upper: real, touchCount: nat, sourceIds: seq<SwingId>,
    createdAt: int, updatedAt: int)

  function Tolerance(c: Config): real {
    c.tick * c.mergeTicks as real
  }

  function Padding(c: Config): real {
    c.tick * c.paddingTicks as real
  }

  function Gap(x: real, y: real): real {
    if x >= y then x - y else y - x
  }

  predicate Matches(z: Zone, price: real, tolerance: real) {
    Gap(price, z.anchor) <= tolerance
  }

  /** The zone a price belongs to: least distance, then least index; the length when no anchor
      is within tolerance. */
  function Nearest(zones: seq<Zone>, price: real, tolerance: real): (r: nat)
    ensures r <= |zones|
    ensures r < |zones| ==> Matches(zones[r], price, tolerance)
    ensures forall i :: 0 <= i < |zones| && Matches(zones[i], price, tolerance) ==>
      && r < |zones|
      && (Gap(price, zones[r].anchor) < Gap(price, zones[i].anchor)
          || (Gap(price, zones[r].anchor) == Gap(price, zones[i].anchor) && r <= i))
  {
    if zones == [] then 0
    else
      var n := |zones| - 1;
      var earlier := Nearest(zones[..n], price, tolerance);
      if !Matches(zones[n], price, tolerance) then (if earlier < n then earlier else n + 1)
      else if earlier < n && Gap(price, zones[earlier].anchor) <= Gap(price, zones[n].anchor) then earlier
      else n
  }

  function Least(x: real, y: real): real {
    if x <= y then x else y
  }

  function Greatest(x: real, y: real): real {
    if x >= y then x else y
  }

  function Joined(z: Zone, s: Swing): Zone {
    Zone(z.anchor, Least(z.lowest, s.price), Greatest(z.highest, s.price), z.sources + [s])
  }

  function AddSwing(c: Config, zones: seq<Zone>, s: Swing): seq<Zone> {
    var i := Nearest(zones, s.price, Tolerance(c));
    if i < |zones| then zones[i := Joined(zones[i], s)] else zones + [Zone(s.price, s.price, s.price, [s])]
  }

  /** The zones of one kind of swing, in order of creation. */
  function ZonesOf(c: Config, kind: SwingKind, swings: seq<Swing>): seq<Zone> {
    if swings == [] then []
    else
      var zones := ZonesOf(c, kind, swings[..|swings| - 1]);
      var last := swings[|swings| - 1];
      if last.kind == kind then AddSwing(c, zones, last) else zones
  }

  function IdsOf(swings: seq<Swing>): (r: seq<SwingId>)
    ensures |r| == |swings|
  {
    seq(|swings|, i requires 0 <= i < |swings| => swings[i].Id())
  }

  function Shown(c: Config, index: nat, z: Zone): PriceZone
    requires z.sources != []
  {
    PriceZone(index, z.anchor, z.lowest - Padding(c), z.highest + Padding(c), |z.sources|, IdsOf(z.sources),
              z.sources[0].confirmedAt, z.sources[|z.sources| - 1].confirmedAt)
  }

  // ---- what zones are --------------------------------------------------------------

  function OfKind(kind: SwingKind, swings: seq<Swing>): seq<Swing> {
    if swings == [] then []
    else
      var last := swings[|swings| - 1];
      OfKind(kind, swings[..|swings| - 1]) + (if last.kind == kind then [last] else [])
  }

  function Flatten(zones: seq<Zone>): seq<Swing> {
    if zones == [] then [] else Flatten(zones[..|zones| - 1]) + zones[|zones| - 1].sources
  }

  /** Anchored at its first source, every source within tolerance of the anchor, and the
      bounds exactly the least and the greatest source price. */
  ghost predicate ZoneOk(c: Config, z: Zone) {
    && z.sources != []
    && z.anchor == z.sources[0].price
    && (forall i :: 0 <= i < |z.sources| ==>
          Gap(z.sources[i].price, z.anchor) <= Tolerance(c) && z.lowest <= z.sources[i].price <= z.highest)
    && (exists i :: 0 <= i < |z.sources| && z.sources[i].price == z.lowest)
    && (exists i :: 0 <= i < |z.sources| && z.sources[i].price == z.highest)
  }

  /** Anchors of distinct zones are more than the tolerance apart. */
  ghost predicate Apart(c: Config, zones: seq<Zone>) {
    forall i, j :: 0 <= i < j < |zones| ==> Gap(zones[i].anchor, zones[j].anchor) > Tolerance(c)
  }

  lemma {:induction false} JoinedOk(c: Config, z: Zone, s: Swing)
    requires ZoneOk(c, z) && Matches(z, s.price, Tolerance(c))
    ensures ZoneOk(c, Joined(z, s))
  {
    hide Tolerance;
    var z' := Joined(z, s);
    var lo :| 0 <= lo < |z.sources| && z.sources[lo].price == z.lowest;
    var hi :| 0 <= hi < |z.sources| && z.sources[hi].price == z.highest;
    assert z'.sources[lo] == z.sources[lo] && z'.sources[hi] == z.sources[hi];
    assert z'.sources[|z.sources|] == s;
  }

  lemma {:induction false} FlattenAppend(zones: seq<Zone>, z: Zone)
    ensures Flatten(zones + [z]) == Flatten(zones) + z.sources
  {
    assert (zones + [z])[..|zones|] == zones;
  }

  lemma {:induction false} FlattenJoined(zones: seq<Zone>, i: nat, s: Swing)
    requires i < |zones|
    ensures multiset(Flatten(zones[i := Joined(zones[i], s)])) == multiset(Flatten(zones)) + multiset{s}
    decreases |zones|
  {
    var n := |zones| - 1;
    var zones' := zones[i := Joined(zones[i], s)];
    if i == n {
      assert zones'[..n] == zones[..n];
    } else {
      assert zones'[..n] == zones[..n][i := Joined(zones[i], s)];
      FlattenJoined(zones[..n], i, s);
    }
  }

  lemma {:induction false} ToleranceSign(c: Config)
    requires ConfigOk(c)
    ensures Tolerance(c) >= 0.0 && Padding(c) >= 0.0
  {
  }

  lemma {:induction false} AddedOk(c: Config, zones: seq<Zone>, s: Swing)
    requires ConfigOk(c) && Apart(c, zones) && forall i :: 0 <= i < |zones| ==> ZoneOk(c, zones[i])
    ensures var after := AddSwing(c, zones, s);
      && Apart(c, after) && (forall i :: 0 <= i < |after| ==> ZoneOk(c, after[i]))
      && multiset(Flatten(after)) == multiset(Flatten(zones)) + multiset{s}
  {
    hide Flatten, Tolerance;
    ToleranceSign(c);
    var i := Nearest(zones, s.price, Tolerance(c));
    if i < |zones| {
      JoinedOk(c, zones[i], s);
      FlattenJoined(zones, i, s);
    } else {
      FlattenAppend(zones, Zone(s.price, s.price, s.price, [s]));
      assert [s][0] == s;
    }
  }

  /** Zones partition the swings: every confirmed swing of the kind lies in exactly one zone,
      the sources of a zone are within tolerance of its anchor and span its bounds exactly,
      and anchors of distinct zones are more than the tolerance apart. */
  lemma {:induction false} ZonesPartition(c: Config, kind: SwingKind, swings: seq<Swing>)
    requires ConfigOk(c)
    ensures var zones := ZonesOf(c, kind, swings);
      && Apart(c, zones) && (forall i :: 0 <= i < |zones| ==> ZoneOk(c, zones[i]))
      && multiset(Flatten(zones)) == multiset(OfKind(kind, swings))
    decreases |swings|
  {
    hide AddSwing, Flatten, Apart, ZoneOk;
    if swings == [] {
      NoZones(c);
    } else {
      ZonesPartition(c, kind, swings[..|swings| - 1]);
      var last := swings[|swings| - 1];
      if last.kind == kind {
        AddedOk(c, ZonesOf(c, kind, swings[..|swings| - 1]), last);
      }
    }
  }

  lemma {:induction false} NoZones(c: Config)
    ensures Apart(c, []) && Flatten([]) == []
  {
  }

  function Touches(zones: seq<Zone>): nat {
    if zones == [] then 0 else Touches(zones[..|zones| - 1]) + |zones[|zones| - 1].sources|
  }

  lemma {:induction false} TouchesIsLength(zones: seq<Zone>)
    ensures Touches(zones) == |Flatten(zones)|
    decreases |zones|
  {
    if zones != [] {
      TouchesIsLength(zones[..|zones| - 1]);
    }
  }

  /** Touch counts sum to the number of swings of the kind. */
  lemma {:induction false} TouchesSum(c: Config, kind: SwingKind, swings: seq<Swing>)
    requires ConfigOk(c)
    ensures Touches(ZonesOf(c, kind, swings)) == |OfKind(kind, swings)|
  {
    hide ZonesOf, OfKind, ZoneOk, Apart;
    ZonesPartition(c, kind, swings);
    TouchesIsLength(ZonesOf(c, kind, swings));
    assert |multiset(Flatten(ZonesOf(c, kind, swings)))| == |multiset(OfKind(kind, swings))|;
  }

  // ---- the reference algorithm -----------------------------------------------------

  predicate Listed(anchors: seq<(real, nat)>, i: nat) {
    exists k :: 0 <= k < |anchors| && anchors[k].1 == i
  }

  /** Anchors with the index of their zone, in order of price. */
  ghost predicate AnchorsOf(zones: seq<Zone>, anchors: seq<(real, nat)>) {
    && |anchors| == |zones|
    && (forall k :: 0 <= k < |anchors| ==> anchors[k].1 < |zones| && anchors[k].0 == zones[anchors[k].1].anchor)
    && (forall k, m :: 0 <= k < m < |anchors| ==> anchors[k].0 < anchors[m].0)
    && (forall i :: 0 <= i < |zones| ==> Listed(anchors, i))
  }

  /** `_zone_match_interval`: two binary searches delimit exactly the anchors within tolerance. */
  method ZoneMatchInterval(anchors: seq<(real, nat)>, price: real, tolerance: real) returns (left: nat, right: nat)
    requires tolerance >= 0.0
    requires forall k, m :: 0 <= k < m < |anchors| ==> anchors[k].0 < anchors[m].0
    ensures left <= right <= |anchors|
    ensures forall k :: 0 <= k < |anchors| ==> (Gap(price, anchors[k].0) <= tolerance <==> left <= k < right)
  {
    var lo, hi := 0, |anchors|;
    while lo < hi
      invariant lo <= hi <= |anchors|
      invariant forall k :: 0 <= k < lo ==> anchors[k].0 < price && Gap(price, anchors[k].0) > tolerance
      invariant forall k :: hi <= k < |anchors| ==> !(anchors[k].0 < price && Gap(price, anchors[k].0) > tolerance)
    {
      var mid := (lo + hi) / 2;
      var anchor := anchors[mid].0;
      if anchor < price && Gap(price, anchor) > tolerance {
        lo := mid + 1;
      } else {
        hi := mid;
      }
    }
    left := lo;
    lo, hi := left, |anchors|;
    while lo < hi
      invariant left <= lo <= hi <= |anchors|
      invariant forall k :: left <= k < lo ==> !(anchors[k].0 > price && Gap(price, anchors[k].0) > tolerance)
      invariant forall k :: hi <= k < |anchors| ==> anchors[k].0 > price && Gap(price, anchors[k].0) > tolerance
    {
      var mid := (lo + hi) / 2;
      var anchor := anchors[mid].0;
      if anchor > price && Gap(price, anchor) > tolerance {
        hi := mid;
      } else {
        lo := mid + 1;
      }
    }
    right := lo;
  }

  /** The least (distance, index) among the anchors of the interval. */
  method BestMatch(zones: seq<Zone>, anchors: seq<(real, nat)>, price: real, tolerance: real) returns (best: nat)
    requires tolerance >= 0.0 && AnchorsOf(zones, anchors)
    ensures best == Nearest(zones, price, tolerance)
  {
    var left, right := ZoneMatchInterval(anchors, price, tolerance);
    best := |zones|;
    for k := left to right
      invariant best <= |zones|
      invariant best < |zones| ==> Matches(zones[best], price, tolerance)
      invariant best == |zones| <==> k == left
      invariant forall m :: left <= m < k ==> best < |zones| && Closer(zones, price, best, anchors[m].1)
    {
      var i := anchors[k].1;
      if best == |zones| || Gap(price, zones[i].anchor) < Gap(price, zones[best].anchor)
         || (Gap(price, zones[i].anchor) == Gap(price, zones[best].anchor) && i < best) {
        best := i;
      }
    }
    forall i | 0 <= i < |zones| && Matches(zones[i], price, tolerance) ensures best < |zones| && Closer(zones, price, best, i) {
      assert Listed(anchors, i);
      var k :| 0 <= k < |anchors| && anchors[k].1 == i;
    }
    NearestUnique(zones, price, tolerance, best);
  }

  predicate Closer(zones: seq<Zone>, price: real, a: nat, b: nat)
    requires a < |zones| && b < |zones|
  {
    Gap(price, zones[a].anchor) < Gap(price, zones[b].anchor)
    || (Gap(price, zones[a].anchor) == Gap(price, zones[b].anchor) && a <= b)
  }

  lemma {:induction false} NearestUnique(zones: seq<Zone>, price: real, tolerance: real, best: nat)
    requires best <= |zones| && (best < |zones| ==> Matches(zones[best], price, tolerance))
    requires forall i :: 0 <= i < |zones| && Matches(zones[i], price, tolerance) ==> best < |zones| && Closer(zones, price, best, i)
    ensures best == Nearest(zones, price, tolerance)
  {
    hide Nearest;
    var r := Nearest(zones, price, tolerance);
    if r < |zones| {
      assert Closer(zones, price, best, r);
    }
  }

  /** `bisect_right` and `insert`. */
  method InsertAnchor(anchors: seq<(real, nat)>, anchor: real, position: nat) returns (r: seq<(real, nat)>, at: nat)
    requires forall k, m :: 0 <= k < m < |anchors| ==> anchors[k].0 < anchors[m].0
    requires forall k :: 0 <= k < |anchors| ==> anchors[k].0 != anchor
    ensures at <= |anchors| && r == anchors[..at] + [(anchor, position)] + anchors[at..]
    ensures forall k, m :: 0 <= k < m < |r| ==> r[k].0 < r[m].0
  {
    var lo, hi := 0, |anchors|;
    while lo < hi
      invariant lo <= hi <= |anchors|
      invariant forall k :: 0 <= k < lo ==> anchors[k].0 < anchor
      invariant forall k :: hi <= k < |anchors| ==> anchors[k].0 > anchor
    {
      var mid := (lo + hi) / 2;
      // Anchors never tie, so the position need not be compared.
      if anchor < anchors[mid].0 {
        hi := mid;
      } else {
        lo := mid + 1;
      }
    }
    at := lo;
    r := anchors[..at] + [(anchor, position)] + anchors[at..];
  }

  lemma {:induction false} InsertedAnchors(zones: seq<Zone>, z: Zone, anchors: seq<(real, nat)>, r: seq<(real, nat)>, at: nat)
    requires AnchorsOf(zones, anchors) && at <= |anchors|
    requires r == anchors[..at] + [(z.anchor, |zones|)] + anchors[at..]
    requires forall k, m :: 0 <= k < m < |r| ==> r[k].0 < r[m].0
    ensures AnchorsOf(zones + [z], r)
  {
    forall i | 0 <= i < |zones + [z]| ensures Listed(r, i) {
      if i == |zones| {
        assert r[at].1 == i;
      } else {
        assert Listed(anchors, i);
        var k :| 0 <= k < |anchors| && anchors[k].1 == i;
        assert r[if k < at then k else k + 1] == anchors[k];
      }
    }
    forall k | 0 <= k < |r| ensures r[k].1 < |zones + [z]| && r[k].0 == (zones + [z])[r[k].1].anchor {
      if k < at {
        assert r[k] == anchors[k];
      } else if k > at {
        assert r[k] == anchors[k - 1];
      }
    }
  }

  lemma {:induction false} JoinedAnchors(zones: seq<Zone>, i: nat, s: Swing, anchors: seq<(real, nat)>)
    requires AnchorsOf(zones, anchors) && i < |zones|
    ensures AnchorsOf(zones[i := Joined(zones[i], s)], anchors)
  {
  }

  predicate ByConfirmation(a: Swing, b: Swing) {
    a.confirmedAt < b.confirmedAt || (a.confirmedAt == b.confirmedAt && a.pivotIndex <= b.pivotIndex)
  }

  /** Swings of a kind in strict order of confirmation. */
  ghost predicate InOrder(swings: seq<Swing>) {
    forall i, j :: 0 <= i < j < |swings| && swings[i].kind == swings[j].kind ==>
      swings[i].confirmedAt <= swings[j].confirmedAt && swings[i].pivotIndex < swings[j].pivotIndex
  }

  lemma {:induction false} OfKindOrder(kind: SwingKind, swings: seq<Swing>)
    requires InOrder(swings)
    ensures InOrder(OfKind(kind, swings)) && forall i :: 0 <= i < |OfKind(kind, swings)| ==> OfKind(kind, swings)[i].kind == kind
    ensures forall s :: s in OfKind(kind, swings) ==> s in swings
    decreases |swings|
  {
    if swings != [] {
      var init, last := swings[..|swings| - 1], swings[|swings| - 1];
      OfKindOrder(kind, init);
      forall i | 0 <= i < |OfKind(kind, init)| && last.kind == kind
        ensures OfKind(kind, init)[i].confirmedAt <= last.confirmedAt && OfKind(kind, init)[i].pivotIndex < last.pivotIndex
      {
        assert OfKind(kind, init)[i] in init;
        var k :| 0 <= k < |init| && init[k] == OfKind(kind, init)[i];
        assert swings[k] == init[k];
      }
    }
  }

  lemma {:induction false} EligibleSorted(kind: SwingKind, swings: seq<Swing>)
    requires InOrder(swings)
    ensures Sort(ByConfirmation, OfKind(kind, swings)) == OfKind(kind, swings)
  {
    OfKindOrder(kind, swings);
    var rows := OfKind(kind, swings);
    hide OfKind;
    forall x, y | x in rows && y in rows && ByConfirmation(x, y) && ByConfirmation(y, x) ensures x == y {
      var i, j :| 0 <= i < |rows| && 0 <= j < |rows| && rows[i] == x && rows[j] == y;
    }
    SortRestores(ByConfirmation, rows, rows);
  }

  lemma {:induction false} ZonesOfKind(c: Config, kind: SwingKind, swings: seq<Swing>)
    ensures ZonesOf(c, kind, OfKind(kind, swings)) == ZonesOf(c, kind, swings)
    decreases |swings|
  {
    hide AddSwing;
    if swings != [] {
      var init, last := swings[..|swings| - 1], swings[|swings| - 1];
      ZonesOfKind(c, kind, init);
      if last.kind == kind {
        assert OfKind(kind, swings)[..|OfKind(kind, init)|] == OfKind(kind, init);
      } else {
        assert OfKind(kind, swings) == OfKind(kind, init);
      }
    }
  }

  /** `_build_zones`: accumulators found by binary search over sorted anchors give the same
      zones as looking at every zone. */
  method BuildZones(c: Config, kind: SwingKind, swings: seq<Swing>) returns (zones: seq<Zone>)
    requires ConfigOk(c) && InOrder(swings)
    ensures zones == ZonesOf(c, kind, swings)
  {
    hide Tolerance, OfKind, Nearest, AnchorsOf;
    var eligible := Sort(ByConfirmation, OfKind(kind, swings));
    EligibleSorted(kind, swings);
    OfKindOrder(kind, swings);
    ZonesOfKind(c, kind, swings);
    ToleranceSign(c);
    var anchors: seq<(real, nat)> := [];
    zones := [];
    NoAnchors();
    for i := 0 to |eligible|
      invariant zones == ZonesOf(c, kind, eligible[..i])
      invariant AnchorsOf(zones, anchors)
    {
      var swing := eligible[i];
      assert eligible[..i + 1][..i] == eligible[..i];
      var best := BestMatch(zones, anchors, swing.price, Tolerance(c));
      if best < |zones| {
        JoinedAnchors(zones, best, swing, anchors);
        zones := zones[best := Joined(zones[best], swing)];
      } else {
        var z := Zone(swing.price, swing.price, swing.price, [swing]);
        AnchorsFresh(zones, anchors, swing.price, Tolerance(c));
        var at;
        ghost var before := anchors;
        anchors, at := InsertAnchor(anchors, swing.price, |zones|);
        InsertedAnchors(zones, z, before, anchors, at);
        zones := zones + [z];
      }
    }
    assert eligible[..|eligible|] == eligible;
  }

  lemma {:induction false} NoAnchors()
    ensures AnchorsOf([], [])
  {
  }

  lemma {:induction false} AnchorsFresh(zones: seq<Zone>, anchors: seq<(real, nat)>, price: real, tolerance: real)
    requires AnchorsOf(zones, anchors) && tolerance >= 0.0 && Nearest(zones, price, tolerance) == |zones|
    ensures forall k, m :: 0 <= k < m < |anchors| ==> anchors[k].0 < anchors[m].0
    ensures forall k :: 0 <= k < |anchors| ==> anchors[k].0 != price
  {
    hide Nearest;
    forall k | 0 <= k < |anchors| ensures anchors[k].0 != price {
      assert !Matches(zones[anchors[k].1], price, tolerance);
    }
  }
}
