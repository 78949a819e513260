/** The candle grid: durations in microseconds and the bucket a moment belongs to. */
module Timeframes {

  datatype Timeframe =
    | OneMinute | ThreeMinutes | FiveMinutes | FifteenMinutes | ThirtyMinutes
    | OneHour | TwoHours | FourHours | OneDay | OneWeek

  const SECOND: int := 1_000_000
  const MINUTE: int := 60 * SECOND
  const DAY: int := 1440 * MINUTE

  function Duration(timeframe: Timeframe): (d: int)
    ensures d > 0 && d % MINUTE == 0
  {
    match timeframe
    case OneMinute => MINUTE
    case ThreeMinutes => 3 * MINUTE
    case FiveMinutes => 5 * MINUTE
    case FifteenMinutes => 15 * MINUTE
    case ThirtyMinutes => 30 * MINUTE
    case OneHour => 60 * MINUTE
    case TwoHours => 120 * MINUTE
    case FourHours => 240 * MINUTE
    case OneDay => DAY
    case OneWeek => 7 * DAY
  }

  function Pow2(k: nat): (r: nat)
    ensures r > 0
  {
    if k == 0 then 1 else 2 * Pow2(k - 1)
  }

  function Exponent(n: nat): nat {
    if n <= 1 then 0 else Exponent(n / 2) + 1
  }

  /** How many doubles there are from n seconds to the next whole second: 2^(52 - e) for
      2^e <= n < 2^(e + 1). The calendar ends before 2^38 seconds, so the exponent is at most 37;
      below one second the doubles are denser still, which makes no difference. */
  function Steps(n: nat): (r: nat)
    ensures r > 0
  {
    Pow2(52 - if Exponent(n) <= 37 then Exponent(n) else 37)
  }

  /** The integer nearest to a fraction, the even one of two. */
  function Nearest(x: nat, d: nat): nat
    requires d > 0
  {
    if 2 * (x % d) > d || (2 * (x % d) == d && (x / d) % 2 == 1) then x / d + 1 else x / d
  }

  /** A distance from the epoch becomes the nearest double before it is truncated. */
  function Truncated(m: nat): int {
    Nearest(m * Steps(m / SECOND), SECOND) / Steps(m / SECOND)
  }

  /** Conversion of a timestamp to whole seconds: the nearest double, truncated toward zero. */
  function WholeSeconds(t: int): int {
    if t >= 0 then Truncated(t) else -Truncated(-t)
  }

  /** `timeframe_bucket_start`: days start at midnight, weeks on Monday (the epoch was a
      Thursday), and intraday buckets are counted from the epoch in whole seconds. */
  function BucketStart(t: int, timeframe: Timeframe): int {
    match timeframe
    case OneDay => (t / DAY) * DAY
    case OneWeek => (t / DAY - (t / DAY + 3) % 7) * DAY
    case _ =>
      var seconds := Duration(timeframe) / SECOND;
      (WholeSeconds(t) / seconds) * seconds * SECOND
  }

  /** The opening boundary of the grid cell that really contains t. */
  function GridFloor(t: int, timeframe: Timeframe): int {
    var d := Duration(timeframe);
    var offset := if timeframe.OneWeek? then 4 * DAY else 0;
    ((t - offset) / d) * d + offset
  }

  /** The rest of the second is at most half the distance of neighbouring doubles. */
  predicate Late(m: nat) {
    2 * ((SECOND - m % SECOND) * Steps(m / SECOND)) <= SECOND
  }

  /** A fraction of a second that is put in the next whole second: before the epoch one that
      truncation cuts off, after it one that the double had already lost. */
  predicate MovesUp(t: int) {
    if t >= 0 then Late(t) else t % SECOND != 0 && !Late(-t)
  }

  /** A moment that is moved up to a whole second on an intraday boundary. */
  predicate RoundsUp(t: int, timeframe: Timeframe) {
    !timeframe.OneDay? && !timeframe.OneWeek? && MovesUp(t) && ((t / SECOND + 1) * SECOND) % Duration(timeframe) == 0
  }

  lemma {:induction false} FloorBounds(t: int, d: int)
    requires d > 0
    ensures (t / d) * d <= t < (t / d) * d + d
  {
    assert t == (t / d) * d + t % d;
  }

  lemma {:induction false} FactorOrder(x: int, y: int, d: int)
    requires d > 0 && x * d < y * d
    ensures x < y
  {
  }

  lemma {:induction false} FloorUnique(t: int, d: int, q: int)
    requires d > 0 && q * d <= t < q * d + d
    ensures t / d == q
  {
    FloorBounds(t, d);
    FactorOrder(t / d, q + 1, d);
    FactorOrder(q, t / d + 1, d);
  }

  lemma {:induction false} NestedFloor(t: int, a: int, b: int)
    requires a > 0 && b > 0
    ensures (t / a) / b == t / (a * b) && ((t / a) / b) * b * a == (t / (a * b)) * (a * b)
  {
    var q := (t / a) / b;
    FloorBounds(t, a);
    FloorBounds(t / a, b);
    assert q * b <= t / a <= q * b + b - 1;
    ScaleOrder(q * b, t / a, a);
    ScaleOrder(t / a, q * b + b - 1, a);
    assert q * (a * b) == (q * b) * a;
    assert (q * b + b - 1) * a == q * (a * b) + a * b - a;
    assert a * b > 0;
    FloorUnique(t, a * b, q);
  }

  lemma {:induction false} ScaleOrder(x: int, y: int, a: int)
    requires x <= y && a > 0
    ensures x * a <= y * a
  {
  }

  lemma {:induction false} StepsEven(n: nat)
    ensures Steps(n) % 2 == 0
  {
    var e := if Exponent(n) <= 37 then Exponent(n) else 37;
    assert Pow2(52 - e) == 2 * Pow2(51 - e);
  }

  lemma {:induction false} MultipleIsEven(n: nat, u: nat)
    requires u % 2 == 0
    ensures (n * u) % 2 == 0
  {
    assert n * u == 2 * (n * (u / 2));
  }

  /** f of d parts of a second, in steps of which u make the second: q whole ones and r of d
      parts of the next. */
  lemma {:induction false} InSteps(n: nat, f: nat, u: nat, d: nat)
    requires f < d && u > 0
    ensures var q, r := (f * u) / d, (f * u) % d;
      && 0 <= q < u && 0 <= r < d && (d - f) * u == (u - q) * d - r
      && ((n * d + f) * u) / d == n * u + q && ((n * d + f) * u) % d == r
  {
    var q, r := (f * u) / d, (f * u) % d;
    assert f * u == q * d + r;
    Gathered(n, f, u, d, q, r);
    FewerSteps(f, u, d, q);
    FloorUnique((n * d + f) * u, d, n * u + q);
  }

  lemma {:induction false} Gathered(n: int, f: int, u: int, d: int, q: int, r: int)
    requires f * u == q * d + r
    ensures (n * d + f) * u == (n * u + q) * d + r && (d - f) * u == (u - q) * d - r
  {
    Distribute(n * d, f, u);
    Swapped(n, d, u);
    Distribute(n * u, q, d);
    Distribute(d, -f, u);
    Distribute(u, -q, d);
  }

  lemma {:induction false} FewerSteps(f: nat, u: nat, d: nat, q: nat)
    requires f < d && u > 0 && q * d <= f * u
    ensures q < u
  {
    Distribute(f, 1, u);
    ScaleOrder(f + 1, d, u);
    FactorOrder(q, u, d);
  }

  lemma {:induction false} Distribute(a: int, b: int, c: int)
    ensures (a + b) * c == a * c + b * c
  {
  }

  lemma {:induction false} Swapped(n: int, d: int, u: int)
    ensures (n * d) * u == (n * u) * d
  {
  }

  /** The nearest step is the next second exactly if what is left is at most half a step. */
  lemma {:induction false} StepSeconds(n: nat, u: nat, q: nat, r: nat, d: nat)
    requires q < u && r < d && u % 2 == 0
    ensures (if 2 * r > d || (2 * r == d && (n * u + q) % 2 == 1) then n * u + q + 1 else n * u + q) / u
         == if 2 * ((u - q) * d - r) <= d then n + 1 else n
  {
    MultipleIsEven(n, u);
    Distribute(n, 1, u);
    var base := n * u;
    if q < u - 1 {
      ScaleOrder(2, u - q, d);
      FloorUnique(base + q, u, n);
      FloorUnique(base + q + 1, u, n);
    } else {
      FloorUnique(base + q, u, n);
      FloorUnique(base + q + 1, u, n + 1);
    }
  }

  lemma {:induction false} NearestStep(n: nat, f: nat, u: nat, d: nat)
    requires f < d && u > 0 && u % 2 == 0
    ensures Nearest((n * d + f) * u, d) / u == if 2 * ((d - f) * u) <= d then n + 1 else n
  {
    InSteps(n, f, u, d);
    StepSeconds(n, u, (f * u) / d, (f * u) % d, d);
  }

  /** The conversion of a distance: up to the next second exactly if it is late. */
  lemma {:induction false} TruncatedIs(m: nat)
    ensures Truncated(m) == if Late(m) then m / SECOND + 1 else m / SECOND
  {
    hide Nearest, Steps;
    StepsEven(m / SECOND);
    NearestStep(m / SECOND, m % SECOND, Steps(m / SECOND), SECOND);
    assert (m / SECOND) * SECOND + m % SECOND == m;
  }

  lemma {:induction false} WholeSecondsIs(t: int)
    ensures WholeSeconds(t) == if MovesUp(t) then t / SECOND + 1 else t / SECOND
  {
    hide Truncated, Late;
    if t >= 0 {
      TruncatedIs(t);
    } else {
      TruncatedIs(-t);
      if t % SECOND == 0 {
        WholeIsOnTime(-t);
      }
    }
  }

  lemma {:induction false} WholeIsOnTime(m: nat)
    requires m % SECOND == 0
    ensures !Late(m)
  {
    hide Steps;
  }

  /** Moving up to the next whole second leaves the cell only across its end. */
  lemma {:induction false} NextSecond(s: int, n: int)
    requires n > 0
    ensures ((s + 1) / n) * n == if (s + 1) % n == 0 then (s / n) * n + n else (s / n) * n
  {
    FloorBounds(s, n);
    FloorBounds(s + 1, n);
    if (s + 1) % n == 0 {
      assert s + 1 == ((s + 1) / n) * n;
      FloorUnique(s, n, (s + 1) / n - 1);
    } else {
      FloorUnique(s, n, (s + 1) / n);
    }
  }

  lemma {:induction false} IntradayBucket(t: int, timeframe: Timeframe)
    requires !timeframe.OneDay? && !timeframe.OneWeek?
    ensures BucketStart(t, timeframe)
         == if RoundsUp(t, timeframe) then GridFloor(t, timeframe) + Duration(timeframe) else GridFloor(t, timeframe)
  {
    hide WholeSeconds, MovesUp;
    var d := Duration(timeframe);
    var n := d / SECOND;
    assert d == n * SECOND && n > 0;
    WholeSecondsIs(t);
    NestedFloor(t, SECOND, n);
    assert SECOND * n == d;
    if MovesUp(t) {
      NextSecond(t / SECOND, n);
      SecondsDivide(t / SECOND + 1, n);
    }
  }

  lemma {:induction false} SecondsDivide(s: int, n: int)
    requires n > 0
    ensures (s * SECOND) % (n * SECOND) == 0 <==> s % n == 0
  {
    var q := s / n;
    assert s == q * n + s % n;
    assert s * SECOND == q * (n * SECOND) + (s % n) * SECOND;
    assert 0 <= (s % n) * SECOND < n * SECOND;
    FloorUnique(s * SECOND, n * SECOND, q);
    assert (s * SECOND) % (n * SECOND) == (s % n) * SECOND;
  }

  lemma {:induction false} WeekBucket(t: int)
    ensures BucketStart(t, OneWeek) == GridFloor(t, OneWeek)
  {
    var day := t / DAY;
    FloorBounds(t, DAY);
    var q := (day + 3) / 7;
    assert day + 3 == q * 7 + (day + 3) % 7;
    assert (t - 4 * DAY) / DAY == day - 4 by {
      FloorUnique(t - 4 * DAY, DAY, day - 4);
    }
    NestedFloor(t - 4 * DAY, DAY, 7);
    assert (day - 4) / 7 == q - 1 by {
      FloorUnique(day - 4, 7, q - 1);
    }
  }

  lemma {:induction false} BucketIs(t: int, timeframe: Timeframe)
    ensures BucketStart(t, timeframe)
         == if RoundsUp(t, timeframe) then GridFloor(t, timeframe) + Duration(timeframe) else GridFloor(t, timeframe)
  {
    hide MovesUp, WholeSeconds;
    if timeframe.OneWeek? {
      WeekBucket(t);
    } else if !timeframe.OneDay? {
      IntradayBucket(t, timeframe);
    }
  }

  /** The bucket of a moment is the grid cell containing it, except for a fraction of a second
      that is moved up to an intraday boundary: it is put in the next cell. */
  lemma {:induction false} BucketIsGridCell(t: int, timeframe: Timeframe)
    ensures GridFloor(t, timeframe) <= t < GridFloor(t, timeframe) + Duration(timeframe)
    ensures BucketStart(t, timeframe) == GridFloor(t, timeframe) <==> !RoundsUp(t, timeframe)
    ensures BucketStart(t, timeframe) <= t <==> !RoundsUp(t, timeframe)
  {
    hide BucketStart, RoundsUp, Duration;
    BucketIs(t, timeframe);
    FloorBounds(t - (if timeframe.OneWeek? then 4 * DAY else 0), Duration(timeframe));
  }

  /** A whole second stays in its cell. */
  lemma {:induction false} WholeInCell(t: int, timeframe: Timeframe)
    requires t % SECOND == 0
    ensures BucketStart(t, timeframe) == GridFloor(t, timeframe) <= t < GridFloor(t, timeframe) + Duration(timeframe)
  {
    hide BucketStart, Duration, GridFloor, Late;
    if t >= 0 {
      WholeIsOnTime(t);
    }
    BucketIsGridCell(t, timeframe);
  }

  // ---- how late is late --------------------------------------------------------------

  lemma {:induction false} ExponentIs(n: nat)
    requires n > 0
    ensures Pow2(Exponent(n)) <= n < 2 * Pow2(Exponent(n))
    decreases n
  {
    if n > 1 {
      ExponentIs(n / 2);
    }
  }

  lemma {:induction false} Pow2Grows(a: nat, b: nat)
    requires a <= b
    ensures Pow2(a) <= Pow2(b)
    decreases b
  {
    if a < b {
      Pow2Grows(a, b - 1);
    }
  }

  /** Powers of two by name. */
  lemma {:induction false} Pow2Values()
    ensures Pow2(14) == 16384 && Pow2(18) == 262144 && Pow2(19) == 524288 && Pow2(34) == 17179869184
  {
    assert Pow2(4) == 16;
    assert Pow2(8) == 256;
    assert Pow2(12) == 4096;
    assert Pow2(14) == 16384;
    assert Pow2(18) == 262144;
    assert Pow2(22) == 4194304;
    assert Pow2(26) == 67108864;
    assert Pow2(30) == 1073741824;
    assert Pow2(34) == 17179869184;
  }

  /** Within 2^34 seconds of the epoch, from 1425 to 2514, no double loses a whole microsecond:
      there the buckets go wrong before the epoch only. */
  lemma {:induction false} NoneIsLate(m: nat)
    requires m / SECOND < 17179869184
    ensures !Late(m)
  {
    var n := m / SECOND;
    Pow2Values();
    if n > 0 {
      ExponentIs(n);
    }
    if Exponent(n) >= 34 {
      Pow2Grows(34, Exponent(n));
    }
    assert Exponent(n) <= 33;
    Pow2Grows(19, 52 - Exponent(n));
    hide Pow2, Exponent;
    ScaleOrder(1, SECOND - m % SECOND, Steps(n));
  }

  /** The last microsecond before the epoch is put in the minute after it. */
  lemma {:induction false} LastMicrosecond()
    ensures BucketStart(-1, OneMinute) == 0 && GridFloor(-1, OneMinute) == -MINUTE
  {
    hide Steps;
    NoneIsLate(1);
    WholeSecondsIs(-1);
    FloorUnique(-1, MINUTE, -1);
  }

  lemma {:induction false} LateIn2515(n: nat)
    requires 17179869184 <= n < 2 * 17179869184
    ensures Steps(n) == 262144 && Late(n * SECOND + SECOND - 1)
  {
    Pow2Values();
    ExponentIs(n);
    if Exponent(n) < 34 {
      Pow2Grows(Exponent(n) + 1, 34);
    } else if Exponent(n) > 34 {
      Pow2Grows(35, Exponent(n));
    }
    assert Exponent(n) == 34;
    FloorUnique(n * SECOND + SECOND - 1, SECOND, n);
  }

  /** In the year 2515 the last microsecond of a minute is put in the next; as far before the
      epoch, in the year 1424, the rounding makes up for the truncation. */
  lemma {:induction false} LostMicrosecond()
    ensures var minute := 17198524800 * SECOND;
      && BucketStart(minute + MINUTE - 1, OneMinute) == minute + MINUTE
      && GridFloor(minute + MINUTE - 1, OneMinute) == minute
      && BucketStart(-minute - MINUTE + 1, OneMinute) == GridFloor(-minute - MINUTE + 1, OneMinute) == -minute - MINUTE
  {
    hide Steps, Late;
    LateIn2515(17198524859);
    var m := 17198524859 * SECOND + SECOND - 1;
    WholeSecondsIs(m);
    WholeSecondsIs(-m);
    assert m / SECOND == 17198524859;
    assert WholeSeconds(m) == 17198524860 && WholeSeconds(-m) == -17198524860;
  }
}
