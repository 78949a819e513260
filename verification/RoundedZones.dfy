/** Zone bounds under a rounding: the incremental state takes its padding off and puts it back on,
    the reference puts it on once. */
module RoundedZones {
  import opened Swings
  import opened Zones
  import opened IncrementalStructure
  import DecimalPolicy
  import LongVolumes

  type Rounding = real -> real

  ghost predicate Monotone(round: Rounding) {
    forall x, y :: x <= y ==> round(x) <= round(y)
  }

  // ---- the two ways ----------------------------------------------------------------

  /** The reference: the least and greatest source price, widened once. */
  function WidenedOnce(c: Config, round: Rounding, index: nat, z: Zone): PriceZone
    requires z.sources != []
  {
    Shown(c, index, z).(lower := round(z.lowest - Padding(c)), upper := round(z.highest + Padding(c)))
  }

  function ReferenceZones(c: Config, round: Rounding, zones: seq<Zone>): (r: seq<PriceZone>)
    requires Sourced(zones)
    ensures |r| == |zones| && forall i :: 0 <= i < |r| ==> r[i] == WidenedOnce(c, round, i, zones[i])
  {
    seq(|zones|, i requires 0 <= i < |zones| => WidenedOnce(c, round, i, zones[i]))
  }

  /** `_append_zone`: the padding is taken off the kept bound before the price is compared. */
  function MovedRounded(c: Config, round: Rounding, z: PriceZone, s: Swing): PriceZone {
    Moved(c, z, s).(
      lower := round(Least(round(z.lower + Padding(c)), s.price) - Padding(c)),
      upper := round(Greatest(round(z.upper - Padding(c)), s.price) + Padding(c)))
  }

  function OpenedRounded(c: Config, round: Rounding, index: nat, s: Swing): PriceZone {
    FirstTouch(c, index, s).(lower := round(s.price - Padding(c)), upper := round(s.price + Padding(c)))
  }

  function RoundedInto(c: Config, round: Rounding, shown: seq<PriceZone>, s: Swing): seq<PriceZone> {
    var best := Nearest(Anchors(shown), s.price, Tolerance(c));
    if best < |shown| then shown[best := MovedRounded(c, round, shown[best], s)]
    else shown + [OpenedRounded(c, round, |shown|, s)]
  }

  /** The zones of one kind as the incremental state keeps them. */
  function KeptZones(c: Config, round: Rounding, kind: SwingKind, swings: seq<Swing>): seq<PriceZone> {
    if swings == [] then []
    else
      var shown := KeptZones(c, round, kind, swings[..|swings| - 1]);
      var last := swings[|swings| - 1];
      if last.kind == kind then RoundedInto(c, round, shown, last) else shown
  }

  /** On exact numbers this is what the incremental state does. */
  lemma {:induction false} ExactIsZoneInto(c: Config, shown: seq<PriceZone>, s: Swing)
    ensures ZoneInto(c, shown, s).Some? ==> ZoneInto(c, shown, s).value == RoundedInto(c, (x: real) => x, shown, s)
  {
    hide Nearest, Padding, Tolerance, BoundsOk;
  }

  // ---- when they agree -------------------------------------------------------------

  /** A touch of a zone leaves the lower bound right: it comes back from taking the padding off
      and on, or the new price is low enough not to need it. */
  predicate LowerSettles(c: Config, round: Rounding, z: Zone, price: real) {
    var bound := round(z.lowest - Padding(c));
    var back := round(round(bound + Padding(c)) - Padding(c));
    back == bound || (round(price - Padding(c)) <= bound && round(price - Padding(c)) <= back)
  }

  predicate UpperSettles(c: Config, round: Rounding, z: Zone, price: real) {
    var bound := round(z.highest + Padding(c));
    var back := round(round(bound - Padding(c)) + Padding(c));
    back == bound || (round(price + Padding(c)) >= bound && round(price + Padding(c)) >= back)
  }

  /** The k-th swing opens a zone, or settles in the one it joins. */
  predicate Settles(c: Config, round: Rounding, kind: SwingKind, swings: seq<Swing>, k: nat)
    requires k < |swings|
  {
    var s := swings[k];
    var zones := ZonesOf(c, kind, swings[..k]);
    var i := Nearest(zones, s.price, Tolerance(c));
    s.kind == kind && i < |zones| ==> LowerSettles(c, round, zones[i], s.price) && UpperSettles(c, round, zones[i], s.price)
  }

  lemma {:induction false} LowerAgrees(c: Config, round: Rounding, z: Zone, price: real)
    requires Monotone(round)
    ensures var bound := round(z.lowest - Padding(c));
      round(Least(round(bound + Padding(c)), price) - Padding(c)) == round(Least(z.lowest, price) - Padding(c))
      <==> LowerSettles(c, round, z, price)
  {
    hide Padding;
    var p := Padding(c);
    RoundedLeast(round, round(round(z.lowest - p) + p), price, p);
    RoundedLeast(round, z.lowest, price, p);
  }

  lemma {:induction false} RoundedLeast(round: Rounding, x: real, y: real, p: real)
    requires Monotone(round)
    ensures round(Least(x, y) - p) == Least(round(x - p), round(y - p))
  {
    if x <= y {
      assert round(x - p) <= round(y - p);
    } else {
      assert round(y - p) <= round(x - p);
    }
  }

  lemma {:induction false} UpperAgrees(c: Config, round: Rounding, z: Zone, price: real)
    requires Monotone(round)
    ensures var bound := round(z.highest + Padding(c));
      round(Greatest(round(bound - Padding(c)), price) + Padding(c)) == round(Greatest(z.highest, price) + Padding(c))
      <==> UpperSettles(c, round, z, price)
  {
    hide Padding;
    var p := Padding(c);
    RoundedGreatest(round, round(round(z.highest + p) - p), price, p);
    RoundedGreatest(round, z.highest, price, p);
  }

  lemma {:induction false} RoundedGreatest(round: Rounding, x: real, y: real, p: real)
    requires Monotone(round)
    ensures round(Greatest(x, y) + p) == Greatest(round(x + p), round(y + p))
  {
    if x <= y {
      assert round(x + p) <= round(y + p);
    } else {
      assert round(y + p) <= round(x + p);
    }
  }

  /** One touch. */
  lemma {:induction false} TouchAgrees(c: Config, round: Rounding, index: nat, z: Zone, s: Swing)
    requires Monotone(round) && z.sources != []
    ensures Joined(z, s).sources != []
    ensures MovedRounded(c, round, WidenedOnce(c, round, index, z), s) == WidenedOnce(c, round, index, Joined(z, s))
      <==> LowerSettles(c, round, z, s.price) && UpperSettles(c, round, z, s.price)
  {
    hide LowerSettles, UpperSettles, Padding, Least, Greatest, Monotone;
    JoinedShown(c, index, z, s);
    LowerAgrees(c, round, z, s.price);
    UpperAgrees(c, round, z, s.price);
  }

  lemma {:induction false} OpeningAgrees(c: Config, round: Rounding, index: nat, s: Swing)
    ensures OpenedRounded(c, round, index, s) == WidenedOnce(c, round, index, Zone(s.price, s.price, s.price, [s]))
  {
    hide Padding;
    assert IdsOf([s]) == [s.Id()];
  }

  lemma {:induction false} AddedSourced(c: Config, zones: seq<Zone>, s: Swing)
    requires Sourced(zones)
    ensures Sourced(AddSwing(c, zones, s))
  {
    hide Nearest, Tolerance;
  }

  lemma {:induction false} ZonesSourced(c: Config, kind: SwingKind, swings: seq<Swing>)
    ensures Sourced(ZonesOf(c, kind, swings))
    decreases |swings|
  {
    hide AddSwing;
    if swings != [] {
      ZonesSourced(c, kind, swings[..|swings| - 1]);
      AddedSourced(c, ZonesOf(c, kind, swings[..|swings| - 1]), swings[|swings| - 1]);
    }
  }

  /** One swing of the kind. */
  lemma {:induction false} SwingAgrees(c: Config, round: Rounding, zones: seq<Zone>, s: Swing)
    requires Monotone(round) && Sourced(zones)
    ensures Sourced(AddSwing(c, zones, s))
    ensures var i := Nearest(zones, s.price, Tolerance(c));
      RoundedInto(c, round, ReferenceZones(c, round, zones), s) == ReferenceZones(c, round, AddSwing(c, zones, s))
      <==> (i < |zones| ==> LowerSettles(c, round, zones[i], s.price) && UpperSettles(c, round, zones[i], s.price))
  {
    hide Monotone, LowerSettles, UpperSettles, Nearest, Tolerance, Padding, MovedRounded, OpenedRounded, WidenedOnce, Joined;
    var shown := ReferenceZones(c, round, zones);
    AnchorsKept(c, round, zones);
    NearestByAnchor(zones, Anchors(shown), s.price, Tolerance(c));
    AddedSourced(c, zones, s);
    var i := Nearest(zones, s.price, Tolerance(c));
    var after := RoundedInto(c, round, shown, s);
    var next := ReferenceZones(c, round, AddSwing(c, zones, s));
    if i < |zones| {
      TouchAgrees(c, round, i, zones[i], s);
      assert after[i] == MovedRounded(c, round, shown[i], s) && next[i] == WidenedOnce(c, round, i, Joined(zones[i], s));
      if after[i] == next[i] {
        assert after == next;
      }
    } else {
      OpeningAgrees(c, round, |zones|, s);
      assert after == next;
    }
  }

  lemma {:induction false} AnchorsKept(c: Config, round: Rounding, zones: seq<Zone>)
    requires Sourced(zones)
    ensures forall i :: 0 <= i < |zones| ==> ReferenceZones(c, round, zones)[i].anchor == zones[i].anchor
  {
    hide Padding;
  }

  /** The reference zones of the first k swings. */
  ghost predicate SameZones(c: Config, round: Rounding, kind: SwingKind, swings: seq<Swing>, k: nat)
    requires k <= |swings|
  {
    ZonesSourced(c, kind, swings[..k]);
    KeptZones(c, round, kind, swings[..k]) == ReferenceZones(c, round, ZonesOf(c, kind, swings[..k]))
  }

  lemma {:induction false} SameStep(c: Config, round: Rounding, kind: SwingKind, swings: seq<Swing>, k: nat)
    requires Monotone(round) && k < |swings| && SameZones(c, round, kind, swings, k)
    ensures SameZones(c, round, kind, swings, k + 1) <==> Settles(c, round, kind, swings, k)
  {
    hide Monotone, LowerSettles, UpperSettles, Nearest, Tolerance, RoundedInto, AddSwing, ReferenceZones;
    assert swings[..k + 1][..k] == swings[..k];
    ZonesSourced(c, kind, swings[..k]);
    ZonesSourced(c, kind, swings[..k + 1]);
    SwingAgrees(c, round, ZonesOf(c, kind, swings[..k]), swings[k]);
  }

  lemma {:induction false} NoZonesYet(c: Config, round: Rounding, kind: SwingKind, swings: seq<Swing>)
    ensures SameZones(c, round, kind, swings, 0)
  {
    assert swings[..0] == [];
  }

  /** Over a whole history, for every monotone rounding: the zones kept in place are those of the
      reference after each swing if and only if each swing opens a zone or settles in its own. */
  lemma {:induction false} RoundedZonesAgree(c: Config, round: Rounding, kind: SwingKind, swings: seq<Swing>)
    requires Monotone(round)
    ensures (forall k: nat :: k <= |swings| ==> SameZones(c, round, kind, swings, k))
       <==> (forall k: nat :: k < |swings| ==> Settles(c, round, kind, swings, k))
  {
    hide Monotone, SameZones, Settles;
    if forall k: nat :: k <= |swings| ==> SameZones(c, round, kind, swings, k) {
      forall k: nat | k < |swings| ensures Settles(c, round, kind, swings, k) {
        SameStep(c, round, kind, swings, k);
      }
    }
    if forall k: nat :: k < |swings| ==> Settles(c, round, kind, swings, k) {
      forall k: nat | k <= |swings| ensures SameZones(c, round, kind, swings, k) {
        SettledSame(c, round, kind, swings, k);
      }
    }
  }

  lemma {:induction false} SettledSame(c: Config, round: Rounding, kind: SwingKind, swings: seq<Swing>, k: nat)
    requires Monotone(round) && k <= |swings| && forall i: nat :: i < |swings| ==> Settles(c, round, kind, swings, i)
    ensures SameZones(c, round, kind, swings, k)
    decreases k
  {
    hide Monotone, SameZones, Settles;
    if k == 0 {
      NoZonesYet(c, round, kind, swings);
    } else {
      SettledSame(c, round, kind, swings, k - 1);
      SameStep(c, round, kind, swings, k - 1);
    }
  }

  // ---- the rounding of decimals ----------------------------------------------------

  lemma {:induction false} HalfEvenRises(x: real, y: real)
    requires x <= y
    ensures DecimalPolicy.HalfEven(x) <= DecimalPolicy.HalfEven(y)
  {
  }

  lemma {:induction false} HalfEvenMirror(x: real)
    ensures DecimalPolicy.HalfEven(-x) == -DecimalPolicy.HalfEven(x)
  {
    var low := x.Floor;
    if x == low as real {
      assert (-x).Floor == -low;
    } else {
      assert (-x).Floor == -low - 1;
    }
  }

  lemma {:induction false} HalfEvenWhole(n: int)
    ensures DecimalPolicy.HalfEven(n as real) == n
  {
  }

  lemma {:induction false} RoundedMirror(x: real)
    ensures LongVolumes.Rounded(-x) == -LongVolumes.Rounded(x)
  {
    hide DecimalPolicy.Scaled, DecimalPolicy.HalfEven;
    if x == 0.0 {
      DecimalPolicy.ScaledZero(0.0, 0);
    } else {
      var e := DecimalPolicy.Magnitude(if x < 0.0 then -x else x) - 27;
      DecimalPolicy.ScaledZero(x, -e);
      var n := DecimalPolicy.HalfEven(DecimalPolicy.Scaled(x, -e));
      HalfEvenMirror(DecimalPolicy.Scaled(x, -e));
      DecimalPolicy.ScaledZero(n as real, e);
    }
  }

  /** A rounded positive number stays between the powers of ten around it. */
  lemma {:induction false} RoundedBetween(x: real)
    requires x > 0.0
    ensures var m := DecimalPolicy.Magnitude(x);
      DecimalPolicy.Scaled(1.0, m) <= LongVolumes.Rounded(x) <= DecimalPolicy.Scaled(1.0, m + 1)
  {
    hide DecimalPolicy.Scaled, DecimalPolicy.HalfEven, DecimalPolicy.Pow;
    var m := DecimalPolicy.Magnitude(x);
    var e := m - 27;
    var y := DecimalPolicy.Scaled(x, -e);
    DecimalPolicy.ScaledCompose(1.0, m, -e);
    DecimalPolicy.ScaledCompose(1.0, m + 1, -e);
    DecimalPolicy.ScaledOrder(x, DecimalPolicy.Scaled(1.0, m), -e);
    DecimalPolicy.ScaledOrder(x, DecimalPolicy.Scaled(1.0, m + 1), -e);
    DecimalPolicy.PowAsScaled(27);
    DecimalPolicy.PowAsScaled(28);
    var low, high := DecimalPolicy.Pow(10, 27), DecimalPolicy.Pow(10, 28);
    HalfEvenRises(low as real, y);
    HalfEvenRises(y, high as real);
    HalfEvenWhole(low);
    HalfEvenWhole(high);
    var n := DecimalPolicy.HalfEven(y);
    DecimalPolicy.ScaledCompose(1.0, 27, e);
    DecimalPolicy.ScaledCompose(1.0, 28, e);
    DecimalPolicy.ScaledOrder(n as real, low as real, e);
    DecimalPolicy.ScaledOrder(high as real, n as real, e);
  }

  lemma {:induction false} PowersRise(a: int, b: int)
    requires a <= b
    ensures 0.0 < DecimalPolicy.Scaled(1.0, a) <= DecimalPolicy.Scaled(1.0, b)
  {
    hide DecimalPolicy.Scaled;
    DecimalPolicy.ScaledOrder(0.0, 1.0, a);
    DecimalPolicy.ScaledZero(0.0, a);
    if a < b {
      LongVolumes.ScaledRises(a, b);
    }
  }

  lemma {:induction false} RoundedRisesAbove(x: real, y: real)
    requires 0.0 < x <= y
    ensures 0.0 < LongVolumes.Rounded(x) <= LongVolumes.Rounded(y)
  {
    hide DecimalPolicy.Scaled, DecimalPolicy.HalfEven, DecimalPolicy.Pow;
    var mx, my := DecimalPolicy.Magnitude(x), DecimalPolicy.Magnitude(y);
    RoundedBetween(x);
    RoundedBetween(y);
    PowersRise(mx, mx);
    if mx == my {
      var e := mx - 27;
      DecimalPolicy.ScaledOrder(y, x, -e);
      HalfEvenRises(DecimalPolicy.Scaled(x, -e), DecimalPolicy.Scaled(y, -e));
      DecimalPolicy.ScaledOrder(DecimalPolicy.HalfEven(DecimalPolicy.Scaled(y, -e)) as real,
                                DecimalPolicy.HalfEven(DecimalPolicy.Scaled(x, -e)) as real, e);
    } else if mx < my {
      PowersRise(mx + 1, my);
    } else {
      PowersRise(my + 1, mx);
    }
  }

  /** The rounding of decimals to twenty-eight digits is one of those the result is about. */
  lemma {:induction false} DecimalsAreMonotone()
    ensures Monotone(x => LongVolumes.Rounded(x))
  {
    hide LongVolumes.Rounded;
    forall x: real, y: real | x <= y ensures LongVolumes.Rounded(x) <= LongVolumes.Rounded(y) {
      RoundedZero();
      if 0.0 < x {
        RoundedRisesAbove(x, y);
      } else if y < 0.0 {
        RoundedRisesAbove(-y, -x);
        RoundedMirror(x);
        RoundedMirror(y);
      } else {
        if x < 0.0 {
          RoundedRisesAbove(-x, -x);
          RoundedMirror(x);
        }
        if 0.0 < y {
          RoundedRisesAbove(y, y);
        }
      }
    }
  }

  lemma {:induction false} RoundedZero()
    ensures LongVolumes.Rounded(0.0) == 0.0
  {
  }

  // ---- an instance -----------------------------------------------------------------

  lemma {:induction false} RoundedWhole(n: nat)
    requires LongVolumes.Tens() <= 10 * n && n < LongVolumes.Tens()
    ensures LongVolumes.Rounded(n as real) == n as real
  {
    hide DecimalPolicy.Scaled, DecimalPolicy.HalfEven, LongVolumes.Tens;
    LongVolumes.TensFacts();
    var x := n as real;
    DecimalPolicy.ScaledStep(1.0, 27);
    LongVolumes.MagnitudeIs(x, 27);
    AtZero(x);
    HalfEvenWhole(n);
  }

  lemma {:induction false} AtZero(x: real)
    ensures DecimalPolicy.Scaled(x, 0) == x
  {
  }

  /** Two more than ten to the twenty-eighth is rounded down to it. */
  lemma {:induction false} RoundedDown()
    ensures LongVolumes.Rounded((LongVolumes.Tens() + 2) as real) == LongVolumes.Tens() as real
  {
    hide DecimalPolicy.Scaled, LongVolumes.Tens;
    LongVolumes.TensFacts();
    var n := LongVolumes.Tens();
    var x := (n + 2) as real;
    LongVolumes.MagnitudeIs(x, 28);
    var tenth := DecimalPolicy.Scaled(x, -1);
    DecimalPolicy.ScaledStep(x, -1);
    AtZero(x);
    assert tenth == (n / 10) as real + 0.2;
    assert DecimalPolicy.HalfEven(tenth) == n / 10;
    LongVolumes.TenTimes(n / 10);
  }

  lemma {:induction false} TenTimesThirds(n: nat)
    requires n % 3 == 1
    ensures (10 * n) % 3 == 1
  {
  }

  lemma {:induction false} OneOverThrees(k: nat)
    ensures DecimalPolicy.Pow(10, k) % 3 == 1
    decreases k
  {
    if k > 0 {
      OneOverThrees(k - 1);
      TenTimesThirds(DecimalPolicy.Pow(10, k - 1));
    }
  }

  const CONFIG := Config(3.0, 1, 1, Strict, 2, 0, Close, 0, 0, 1, 60)

  function LowAt(price: real, t: int): Swing {
    Swing(Low, 1, t, price, t + 60, t + 120, [t - 60], [t + 60])
  }

  /** Two lows at one price: where the kept bound is after the second, and where the reference
      has it. */
  ghost predicate TouchedTwice(round: Rounding, price: real, kept: real, reference: real) {
    var swings := [LowAt(price, 60), LowAt(price, 240)];
    ZonesSourced(CONFIG, Low, swings);
    var shown, zones := KeptZones(CONFIG, round, Low, swings), ZonesOf(CONFIG, Low, swings);
    && OnTick(price, CONFIG.tick) && SameZones(CONFIG, round, Low, swings, 1)
    && |shown| == |zones| == 1 && shown[0].lower == kept && ReferenceZones(CONFIG, round, zones)[0].lower == reference
  }

  lemma {:induction false} TwoLows(round: Rounding, p: real)
    requires OnTick(p, 3.0)
    ensures TouchedTwice(round, p, round(Least(round(round(p - 3.0) + 3.0), p) - 3.0), round(p - 3.0))
  {
    var a, b := LowAt(p, 60), LowAt(p, 240);
    var swings := [a, b];
    assert swings[..1] == [a] && swings[..|swings| - 1] == [a] && [a][..0] == [];
    OneLow(round, p);
    var z := Zone(p, p, p, [a]);
    var first := OpenedRounded(CONFIG, round, 0, a);
    OneNearest(z, p);
    assert ZonesOf(CONFIG, Low, swings) == [Joined(z, b)];
    NearestByAnchor([z], Anchors([first]), p, 0.0);
    assert KeptZones(CONFIG, round, Low, swings) == [MovedRounded(CONFIG, round, first, b)];
  }

  lemma {:induction false} OneNearest(z: Zone, p: real)
    requires z.anchor == p
    ensures Nearest([z], p, 0.0) == 0
  {
    assert Matches([z][0], p, 0.0);
  }

  lemma {:induction false} OneLow(round: Rounding, p: real)
    ensures var a := LowAt(p, 60);
      && ZonesOf(CONFIG, Low, [a]) == [Zone(p, p, p, [a])]
      && KeptZones(CONFIG, round, Low, [a]) == [OpenedRounded(CONFIG, round, 0, a)]
      && SameZones(CONFIG, round, Low, [a, LowAt(p, 240)], 1)
  {
    var a := LowAt(p, 60);
    assert [a][..0] == [] && [a, LowAt(p, 240)][..1] == [a];
    OpeningAgrees(CONFIG, round, 0, a);
    var zones := [Zone(p, p, p, [a])];
    assert ZonesOf(CONFIG, Low, [a]) == zones;
    assert ReferenceZones(CONFIG, round, zones) == [OpenedRounded(CONFIG, round, 0, a)];
  }

  /** Two lows at ten to the twenty-eighth plus two, on a tick of three, padding one tick: the
      reference widens the zone down to ten to the twenty-eighth minus one, the second touch moves
      the kept bound two lower. */
  lemma {:induction false} SecondTouchSlips()
    ensures var n := LongVolumes.Tens();
      TouchedTwice(x => LongVolumes.Rounded(x), (n + 2) as real, (n - 3) as real, (n - 1) as real)
  {
    hide LongVolumes.Rounded, LongVolumes.Tens, TouchedTwice, OnTick;
    var n := LongVolumes.Tens();
    var p := (n + 2) as real;
    LongVolumes.TensFacts();
    TensThirds();
    ThreesDivide(n);
    RoundedDown();
    RoundedWhole(n - 1);
    RoundedWhole(n - 3);
    TwoLows(x => LongVolumes.Rounded(x), p);
  }

  lemma {:induction false} TensThirds()
    ensures LongVolumes.Tens() % 3 == 1
  {
    hide DecimalPolicy.Pow;
    OneOverThrees(28);
  }

  lemma {:induction false} ThreesDivide(n: nat)
    requires n % 3 == 1
    ensures OnTick((n + 2) as real, 3.0)
  {
    var q := (n + 2) / 3;
    assert 3 * q == n + 2;
    assert (n + 2) as real / 3.0 == q as real;
  }
}
