/** A volume too long for the precision of a sum: batch and incremental resampling to the source
    timeframe itself then differ. */
module LongVolumes {
  import opened Wrappers
  import opened Timeframes
  import opened Resampling
  import opened IncrementalResampling
  import DecimalPolicy
  import PartialCloses
  import Indicators

  /** Rounding to the default precision of decimals. */
  ghost function Rounded(x: real): real {
    DecimalPolicy.Val(DecimalPolicy.RoundedTo(x, 28))
  }

  ghost function Sums(): Total {
    (xs: seq<real>) => Indicators.Sum(x => Rounded(x), xs)
  }

  function Tens(): nat {
    DecimalPolicy.Pow(10, 28)
  }

  lemma {:induction false} ScaledRises(a: int, b: int)
    requires a < b
    ensures 10.0 * DecimalPolicy.Scaled(1.0, a) <= DecimalPolicy.Scaled(1.0, b)
  {
    hide DecimalPolicy.Scaled;
    PartialCloses.ScaledOne(b - a);
    DecimalPolicy.ScaledCompose(1.0, b - a, a);
    DecimalPolicy.ScaledOrder(DecimalPolicy.Scaled(1.0, b - a), 10.0, a);
    DecimalPolicy.ScaledProduct(10.0, 1.0, a);
  }

  lemma {:induction false} MagnitudeIs(x: real, e: int)
    requires x > 0.0 && DecimalPolicy.Scaled(1.0, e) <= x < DecimalPolicy.Scaled(1.0, e + 1)
    ensures DecimalPolicy.Magnitude(x) == e
  {
    hide DecimalPolicy.Scaled;
    var m := DecimalPolicy.Magnitude(x);
    DecimalPolicy.ScaledOrder(0.0, 1.0, m + 1);
    DecimalPolicy.ScaledZero(1.0, m + 1);
    DecimalPolicy.ScaledOrder(0.0, 1.0, e + 1);
    DecimalPolicy.ScaledZero(1.0, e + 1);
    if m + 1 < e { ScaledRises(m + 1, e); }
    if e + 1 < m { ScaledRises(e + 1, m); }
  }

  lemma {:induction false} TensFacts()
    ensures Tens() >= 10 && Tens() % 10 == 0 && Tens() as real == DecimalPolicy.Scaled(1.0, 28)
    ensures 10.0 * Tens() as real == DecimalPolicy.Scaled(1.0, 29)
  {
    hide DecimalPolicy.Scaled, DecimalPolicy.Pow;
    DecimalPolicy.PowAsScaled(28);
    DecimalPolicy.ScaledStep(1.0, 28);
    DecimalPolicy.PowPositive(10, 27);
    PowStep(27);
  }

  lemma {:induction false} PowStep(n: nat)
    ensures DecimalPolicy.Pow(10, n + 1) == 10 * DecimalPolicy.Pow(10, n)
  {
  }

  /** One more than ten to the twenty-eighth has twenty-nine digits and is rounded to a multiple
      of ten. */
  lemma {:induction false} TooLong()
    ensures Rounded((Tens() + 1) as real) != (Tens() + 1) as real
  {
    hide DecimalPolicy.Scaled, Tens, DecimalPolicy.HalfEven;
    TensFacts();
    var v := (Tens() + 1) as real;
    MagnitudeIs(v, 28);
    var n := DecimalPolicy.HalfEven(DecimalPolicy.Scaled(v, -1));
    assert Rounded(v) == DecimalPolicy.Scaled(n as real, 1);
    TenTimes(n);
    assert 10 * n != Tens() + 1;
  }

  lemma {:induction false} TenTimes(n: int)
    ensures DecimalPolicy.Scaled(n as real, 1) == (10 * n) as real
  {
    assert DecimalPolicy.Scaled(n as real, 0) == n as real;
  }

  lemma {:induction false} EpochIsAligned()
    ensures BucketStart(0, OneMinute) == 0
  {
    hide BucketStart;
    WholeInCell(0, OneMinute);
  }

  /** One candle with such a volume: the batch returns it untouched, the incremental state does
      not. */
  lemma {:induction false} SourceDiffers()
    ensures var candles := [Candle(0, 1.0, 1.0, 1.0, 1.0, (Tens() + 1) as real)];
      Resample(Sums(), OneMinute, OneMinute, candles, Duration(OneMinute))
      != Ok(TargetOf(Sums(), OneMinute, OneMinute, candles).bars)
  {
    var candles := [Candle(0, 1.0, 1.0, 1.0, 1.0, (Tens() + 1) as real)];
    hide Tens, Rounded, Resample, TargetOf, BucketStart, Duration;
    EpochIsAligned();
    TooLong();
    OneSum((Tens() + 1) as real);
    SourceItself(Sums(), OneMinute, candles);
  }

  lemma {:induction false} OneSum(v: real)
    ensures Sums()([v]) == Rounded(v)
  {
    hide Rounded;
    assert [v][..0] == [];
    assert Indicators.Sum(x => Rounded(x), []) == 0.0;
    assert 0.0 + v == v;
  }
}
