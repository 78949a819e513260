/** PAPER_DECIMAL_V1: addition and multiplication that never round, and a division
    that rounds only when the quotient has no finite decimal expansion. */
module DecimalPolicy {

  /** A finite Decimal: the value is `coeff * 10^exp`. Trailing zeros are kept, so one
      value has many representations. */
  datatype Decimal = Decimal(coeff: int, exp: int)

  const DIVISION_PRECISION: nat := 50

  function Abs(x: int): nat {
    if x < 0 then -x else x
  }

  function Max(x: int, y: int): int {
    if x < y then y else x
  }

  function Min(x: int, y: int): int {
    if x < y then x else y
  }

  function Pow(b: nat, n: nat): nat {
    if n == 0 then 1 else b * Pow(b, n - 1)
  }

  /** Number of decimal digits of a coefficient; zero has one. */
  function Digits(c: nat): (w: nat)
    ensures w >= 1
  {
    if c < 10 then 1 else 1 + Digits(c / 10)
  }

  function Width(d: Decimal): nat {
    Digits(Abs(d.coeff))
  }

  /** Exponent of the most significant digit. */
  function Adjusted(d: Decimal): int {
    d.exp + Width(d) - 1
  }

  /** The real number `x * 10^e`. */
  function Scaled(x: real, e: int): real
    decreases Abs(e)
  {
    if e == 0 then x
    else if e > 0 then 10.0 * Scaled(x, e - 1)
    else Scaled(x, e + 1) / 10.0
  }

  function Val(d: Decimal): real {
    Scaled(d.coeff as real, d.exp)
  }

  /** Nearest integer, ties to the even one. */
  function HalfEven(x: real): int {
    var low := x.Floor;
    var rest := x - low as real;
    if rest < 0.5 || (rest == 0.5 && low % 2 == 0) then low else low + 1
  }

  // ---- powers of ten ---------------------------------------------------------------

  lemma {:induction false} PowPositive(b: nat, n: nat)
    requires b >= 1
    ensures Pow(b, n) >= 1
  {
    if n > 0 {
      PowPositive(b, n - 1);
      assert Pow(b, n) >= Pow(b, n - 1) by { MulMono(1, b, Pow(b, n - 1)); }
    }
  }

  lemma {:induction false} MulMono(x: nat, y: nat, k: nat)
    requires x <= y
    ensures x * k <= y * k
  {
  }

  lemma {:induction false} MulAssoc(x: int, y: int, z: int)
    ensures (x * y) * z == x * (y * z)
  {
  }

  lemma {:induction false} PowAdd(b: nat, m: nat, n: nat)
    ensures Pow(b, m + n) == Pow(b, m) * Pow(b, n)
  {
    if m > 0 {
      PowAdd(b, m - 1, n);
      MulAssoc(b, Pow(b, m - 1), Pow(b, n));
    }
  }

  lemma {:induction false} PowMono(b: nat, m: nat, n: nat)
    requires b >= 1 && m <= n
    ensures Pow(b, m) <= Pow(b, n)
    decreases n
  {
    if m < n {
      PowMono(b, m, n - 1);
      MulMono(1, b, Pow(b, n - 1));
    }
  }

  /** Ten to the n stays below two to the 4n, and two to the n below five to the n. */
  lemma {:induction false} PowCompare(n: nat)
    ensures Pow(10, n) <= Pow(2, 4 * n)
    ensures Pow(2, n) <= Pow(5, n)
  {
    if n > 0 {
      PowCompare(n - 1);
      PowAdd(2, 4, 4 * (n - 1));
      assert Pow(2, 4) == 16 by { assert Pow(2, 2) == 4; }
    }
  }

  lemma {:induction false} DigitsBound(c: nat)
    ensures c < Pow(10, Digits(c))
    ensures c > 0 ==> Pow(10, Digits(c) - 1) <= c
  {
    if c >= 10 {
      DigitsBound(c / 10);
    } else {
      assert Pow(10, 1) == 10;
    }
  }

  /** Fewer digits for every smaller power-of-ten bound. */
  lemma {:induction false} DigitsAtMost(c: nat, n: nat)
    requires n >= 1 && c < Pow(10, n)
    ensures Digits(c) <= n
  {
    DigitsBound(c);
    if Digits(c) > n {
      PowMono(10, n, Digits(c) - 1);
    }
  }

  lemma {:induction false} DigitsMono(c: nat, d: nat)
    requires c <= d
    ensures Digits(c) <= Digits(d)
  {
    DigitsBound(d);
    DigitsAtMost(c, Digits(d));
  }

  // ---- values ----------------------------------------------------------------------

  lemma {:induction false} ScaledStep(x: real, e: int)
    ensures Scaled(x, e + 1) == 10.0 * Scaled(x, e)
    ensures Scaled(10.0 * x, e) == Scaled(x, e + 1)
    decreases Abs(e)
  {
    if e > 0 {
      ScaledStep(x, e - 1);
    } else if e < 0 {
      ScaledStep(x, e + 1);
    }
  }

  lemma {:induction false} ScaledSum(x: real, y: real, e: int)
    ensures Scaled(x + y, e) == Scaled(x, e) + Scaled(y, e)
    decreases Abs(e)
  {
    if e > 0 {
      ScaledSum(x, y, e - 1);
    } else if e < 0 {
      ScaledSum(x, y, e + 1);
    }
  }

  lemma {:induction false} ScaledZero(x: real, e: int)
    ensures Scaled(0.0, e) == 0.0
    ensures Scaled(-x, e) == -Scaled(x, e)
    decreases Abs(e)
  {
    if e > 0 {
      ScaledZero(x, e - 1);
    } else if e < 0 {
      ScaledZero(x, e + 1);
    }
  }

  /** Scaling keeps the order of its arguments. */
  lemma {:induction false} ScaledOrder(x: real, y: real, e: int)
    ensures Scaled(x, e) < Scaled(y, e) <==> x < y
    ensures Scaled(x, e) == Scaled(y, e) <==> x == y
    decreases Abs(e)
  {
    if e > 0 {
      ScaledOrder(x, y, e - 1);
    } else if e < 0 {
      ScaledOrder(x, y, e + 1);
    }
  }

  lemma {:induction false} ScaledCompose(x: real, e: int, f: int)
    ensures Scaled(Scaled(x, e), f) == Scaled(x, e + f)
    decreases Abs(f)
  {
    if f > 0 {
      ScaledCompose(x, e, f - 1);
      ScaledStep(x, e + f - 1);
    } else if f < 0 {
      ScaledCompose(x, e, f + 1);
      ScaledStep(x, e + f);
    }
  }

  /** Moving k factors ten between coefficient and exponent. */
  lemma {:induction false} ScaledRescale(c: int, e: int, k: nat)
    ensures Scaled((c * Pow(10, k)) as real, e) == Scaled(c as real, e + k)
    decreases k
  {
    if k > 0 {
      ScaledRescale(10 * c, e, k - 1);
      assert c * Pow(10, k) == 10 * c * Pow(10, k - 1);
      ScaledStep(c as real, e + k - 1);
    }
  }

  lemma {:induction false} ScaledProduct(x: real, y: real, e: int)
    ensures x * Scaled(y, e) == Scaled(x * y, e)
    decreases Abs(e)
  {
    if e > 0 {
      ScaledProduct(x, y, e - 1);
      TimesTen(x, Scaled(y, e - 1));
    } else if e < 0 {
      ScaledProduct(x, y, e + 1);
      ScaledStep(y, e);
      TimesTen(x, Scaled(y, e));
    }
  }

  lemma {:induction false} TimesTen(x: real, y: real)
    ensures x * (10.0 * y) == 10.0 * (x * y)
  {
  }

  lemma {:induction false} ScaledTimesScaled(x: real, e: int, y: real, f: int)
    ensures Scaled(x, e) * Scaled(y, f) == Scaled(x * y, e + f)
  {
    hide Scaled;
    var u := Scaled(x, e);
    ScaledProduct(u, y, f);
    ScaledProduct(y, x, e);
    MulCommutes(u, y);
    MulCommutes(y, x);
    assert u * y == Scaled(x * y, e);
    ScaledCompose(x * y, e, f);
  }

  lemma {:induction false} ValProduct(a: Decimal, b: Decimal)
    ensures Val(a) * Val(b) == Scaled((a.coeff * b.coeff) as real, a.exp + b.exp)
  {
    ScaledTimesScaled(a.coeff as real, a.exp, b.coeff as real, b.exp);
    IntProductAsReal(a.coeff, b.coeff);
  }

  lemma {:induction false} MulCommutes(x: real, y: real)
    ensures x * y == y * x
  {
  }

  lemma {:induction false} IntProductAsReal(a: int, b: int)
    ensures (a * b) as real == a as real * b as real
  {
  }

  /** Products of bounded naturals. */
  lemma {:induction false} ProductBound(x: nat, y: nat, p: nat, q: nat)
    requires x < p && y < q
    ensures x * y < p * q
  {
    MulMono(x, p, y);
    MulMono(y, q - 1, p);
  }

  lemma {:induction false} ScaleUp(x: nat, p: nat, k: nat)
    requires x < p && k >= 1
    ensures x * k < p * k
  {
    MulMono(x, p - 1, k);
  }

  // ---- contexts --------------------------------------------------------------------

  /** Rounding to a context precision: a coefficient that fits is returned untouched. */
  function Fix(d: Decimal, precision: nat): Decimal {
    if Width(d) <= Max(precision, 1) then d
    else
      var drop := Width(d) - Max(precision, 1);
      Decimal(HalfEven(Scaled(d.coeff as real, -drop)), d.exp + drop)
  }

  function Aligned(d: Decimal, exponent: int): int
    requires exponent <= d.exp
  {
    d.coeff * Pow(10, d.exp - exponent)
  }

  function Negate(d: Decimal): Decimal {
    Decimal(-d.coeff, d.exp)
  }

  function Add(left: Decimal, right: Decimal): Decimal {
    var exponent := Min(left.exp, right.exp);
    var precision := Max(Adjusted(left), Adjusted(right)) - exponent + 3;
    Fix(Decimal(Aligned(left, exponent) + Aligned(right, exponent), exponent), Max(precision, 1))
  }

  function Subtract(left: Decimal, right: Decimal): Decimal {
    Add(left, Negate(right))
  }

  function Multiply(left: Decimal, right: Decimal): Decimal {
    Fix(Decimal(left.coeff * right.coeff, left.exp + right.exp), Width(left) + Width(right) + 1)
  }

  lemma {:induction false} AlignedBound(d: Decimal, exponent: int)
    requires exponent <= d.exp
    ensures Abs(Aligned(d, exponent)) < Pow(10, Adjusted(d) - exponent + 1)
  {
    var c, shift := Abs(d.coeff), d.exp - exponent;
    DigitsBound(c);
    PowAdd(10, Digits(c), shift);
    PowPositive(10, shift);
    AbsProduct(d.coeff, Pow(10, shift));
    ScaleUp(c, Pow(10, Digits(c)), Pow(10, shift));
    assert Adjusted(d) - exponent + 1 == Digits(c) + shift;
  }

  lemma {:induction false} AbsProduct(x: int, y: int)
    ensures Abs(x * y) == Abs(x) * Abs(y)
  {
  }

  /** The precision computed by `add` keeps every digit: the sum is exact for all operands. */
  lemma {:induction false} AddIsExact(left: Decimal, right: Decimal)
    ensures Val(Add(left, right)) == Val(left) + Val(right)
    ensures Add(left, right).exp == Min(left.exp, right.exp)
  {
    hide Scaled, Pow;
    var e := Min(left.exp, right.exp);
    AddKeeps(left, right);
    ScaledRescale(left.coeff, e, left.exp - e);
    ScaledRescale(right.coeff, e, right.exp - e);
    ScaledSum(Aligned(left, e) as real, Aligned(right, e) as real, e);
  }

  lemma {:induction false} AddKeeps(left: Decimal, right: Decimal)
    ensures var e := Min(left.exp, right.exp);
      Add(left, right) == Decimal(Aligned(left, e) + Aligned(right, e), e)
  {
    hide Scaled;
    var e := Min(left.exp, right.exp);
    var top := Max(Adjusted(left), Adjusted(right)) - e + 1;
    AlignedBound(left, e);
    AlignedBound(right, e);
    PowMono(10, Adjusted(left) - e + 1, top);
    PowMono(10, Adjusted(right) - e + 1, top);
    var sum := Aligned(left, e) + Aligned(right, e);
    assert Abs(sum) < Pow(10, top + 1);
    DigitsAtMost(Abs(sum), top + 1);
    FixKeeps(Decimal(sum, e), top + 2);
  }

  lemma {:induction false} NegateValue(d: Decimal)
    ensures Val(Negate(d)) == -Val(d)
  {
    ScaledZero(d.coeff as real, d.exp);
  }

  lemma {:induction false} SubtractIsExact(left: Decimal, right: Decimal)
    ensures Val(Subtract(left, right)) == Val(left) - Val(right)
  {
    AddIsExact(left, Negate(right));
    NegateValue(right);
  }

  /** The precision computed by `multiply` keeps every digit. */
  lemma {:induction false} MultiplyIsExact(left: Decimal, right: Decimal)
    ensures Val(Multiply(left, right)) == Val(left) * Val(right)
    ensures Multiply(left, right).exp == left.exp + right.exp
  {
    MultiplyKeeps(left, right);
    ValProduct(left, right);
  }

  lemma {:induction false} MultiplyKeeps(left: Decimal, right: Decimal)
    ensures Multiply(left, right) == Decimal(left.coeff * right.coeff, left.exp + right.exp)
  {
    ProductDigits(left.coeff, right.coeff);
    FixKeeps(Decimal(left.coeff * right.coeff, left.exp + right.exp), Width(left) + Width(right) + 1);
  }

  lemma {:induction false} ProductDigits(x: int, y: int)
    ensures Digits(Abs(x * y)) <= Digits(Abs(x)) + Digits(Abs(y))
  {
    var a, b := Abs(x), Abs(y);
    DigitsBound(a);
    DigitsBound(b);
    PowAdd(10, Digits(a), Digits(b));
    AbsProduct(x, y);
    ProductBound(a, b, Pow(10, Digits(a)), Pow(10, Digits(b)));
    DigitsAtMost(a * b, Digits(a) + Digits(b));
  }

  lemma {:induction false} FixKeeps(d: Decimal, precision: nat)
    requires Width(d) <= precision
    ensures Fix(d, precision) == d
  {
  }

  // ---- division --------------------------------------------------------------------

  /** `q` is the mathematical quotient of the two operands. */
  ghost predicate IsQuotient(q: Decimal, left: Decimal, right: Decimal) {
    Val(q) * Val(right) == Val(left)
  }

  /** The quotient has a finite decimal expansion. */
  ghost predicate Terminates(left: Decimal, right: Decimal) {
    exists q :: IsQuotient(q, left, right)
  }

  /** The quotient can be written with at most `precision` digits; otherwise the
      exact context signals Inexact. */
  ghost predicate FitsIn(left: Decimal, right: Decimal, precision: nat) {
    exists q :: IsQuotient(q, left, right) && Width(q) <= precision
  }

  function ExactPrecision(left: Decimal, right: Decimal): nat {
    4 * (Width(left) + Width(right) + Abs(left.exp - right.exp)) + 10
  }

  /** `divide`: the exact context first, and the frozen 50-digit rule only on Inexact. */
  ghost function Divide(left: Decimal, right: Decimal): Decimal
    requires right.coeff != 0
  {
    if FitsIn(left, right, ExactPrecision(left, right)) then
      var q :| IsQuotient(q, left, right) && Width(q) <= ExactPrecision(left, right); q
    else
      NonZero(right);
      RoundedTo(Val(left) / Val(right), DIVISION_PRECISION)
  }

  /** The exponent of the leading digit of a positive number. */
  ghost function Magnitude(x: real): int
    requires x > 0.0
  {
    MagnitudeExists(x);
    var e :| Scaled(1.0, e) <= x < Scaled(1.0, e + 1); e
  }

  /** Correct rounding to a number of significant digits, ties to even. */
  ghost function RoundedTo(x: real, digits: nat): Decimal
    requires digits >= 1
  {
    if x == 0.0 then Decimal(0, 0)
    else
      var e := Magnitude(if x < 0.0 then -x else x) - (digits - 1);
      Decimal(HalfEven(Scaled(x, -e)), e)
  }

  lemma {:induction false} PowAsScaled(n: nat)
    ensures Pow(10, n) as real == Scaled(1.0, n)
  {
    if n > 0 {
      PowAsScaled(n - 1);
    }
  }

  lemma {:induction false} MagnitudeAboveOne(x: real) returns (w: nat)
    requires x >= 1.0
    ensures Scaled(1.0, w) <= x < Scaled(1.0, w + 1)
  {
    w := Digits(x.Floor) - 1;
    DigitsBound(x.Floor);
    PowAsScaled(w);
    PowAsScaled(w + 1);
  }

  /** Multiplying by ten k times lifts the number above one. */
  lemma {:induction false} MagnitudeFrom(x: real, k: nat) returns (e: int)
    requires x > 0.0 && Scaled(x, k) >= 1.0
    ensures Scaled(1.0, e) <= x < Scaled(1.0, e + 1)
    decreases k
  {
    if x >= 1.0 {
      e := MagnitudeAboveOne(x);
    } else {
      ScaledStep(x, k - 1);
      e := MagnitudeFrom(10.0 * x, k - 1);
      e := e - 1;
      ScaledStep(1.0, e);
      ScaledStep(1.0, e + 1);
    }
  }

  lemma {:induction false} GrowsPast(x: real, k: nat)
    requires x > 0.0
    ensures Scaled(x, k) >= x && Scaled(x, k) >= x * k as real
  {
    if k > 0 {
      GrowsPast(x, k - 1);
      Successor(x, k - 1);
    }
  }

  lemma {:induction false} Successor(x: real, k: nat)
    ensures x * (k + 1) as real == x * k as real + x
  {
  }

  lemma {:induction false} MagnitudeExists(x: real)
    requires x > 0.0
    ensures exists e :: Scaled(1.0, e) <= x < Scaled(1.0, e + 1)
  {
    var k := (1.0 / x).Floor + 1;
    assert x * k as real >= 1.0 by {
      ExactQuotient(1.0 / x, 1.0, x);
      RealMono(1.0 / x, k as real, x);
    }
    GrowsPast(x, k);
    var e := MagnitudeFrom(x, k);
  }

  lemma {:induction false} RealMono(x: real, y: real, k: real)
    requires k > 0.0
    ensures x <= y ==> k * x <= k * y
    ensures x < y ==> k * x < k * y
  {
  }

  lemma {:induction false} TwoCancels(n: int, b: int, t: int)
    requires n % 2 != 0 && n * b == 2 * t
    ensures b % 2 == 0
  {
    var i := n / 2;
    assert n * b == 2 * (i * b) + b by { assert n == 2 * i + 1; }
  }

  lemma {:induction false} FiveCancels(n: int, b: int, t: int)
    requires n % 5 != 0 && n * b == 5 * t
    ensures b % 5 == 0
  {
    var i, u := n / 5, n % 5;
    Distribute(i, u, b);
    var w, s := u * b, t - i * b;
    assert w == 5 * s;
    SameFactor(u, 1, b);
    SameFactor(u, 2, b);
    SameFactor(u, 3, b);
    SameFactor(u, 4, b);
    SmallCancels(u, w, b, s);
  }

  lemma {:induction false} SameFactor(u: int, c: int, b: int)
    ensures u == c ==> u * b == c * b
  {
  }

  lemma {:induction false} SmallCancels(u: int, w: int, b: int, s: int)
    requires (u == 1 && w == b) || (u == 2 && w == 2 * b) || (u == 3 && w == 3 * b) || (u == 4 && w == 4 * b)
    requires w == 5 * s
    ensures b % 5 == 0
  {
  }

  lemma {:induction false} Distribute(i: int, u: int, b: int)
    ensures (5 * i + u) * b == 5 * (i * b) + u * b
  {
  }

  /** A multiple whose other factor is odd carries all its twos in `b`. */
  lemma {:induction false} TwosDivide(n: int, b: int, a: int, k: nat) returns (m: int)
    requires n % 2 != 0 && n * b == a * Pow(10, k)
    ensures b == m * Pow(2, k)
    decreases k
  {
    if k == 0 {
      m := b;
    } else {
      var t := a * Pow(10, k - 1);
      assert a * Pow(10, k) == 10 * t;
      TwoCancels(n, b, 5 * t);
      var c := b / 2;
      assert n * c == 5 * t;
      assert (5 * a) * Pow(10, k - 1) == 5 * t;
      var m' := TwosDivide(n, c, 5 * a, k - 1);
      m := m';
      assert m * Pow(2, k) == 2 * (m * Pow(2, k - 1));
    }
  }

  /** The same for fives. */
  lemma {:induction false} FivesDivide(n: int, b: int, a: int, k: nat) returns (m: int)
    requires n % 5 != 0 && n * b == a * Pow(10, k)
    ensures b == m * Pow(5, k)
    decreases k
  {
    if k == 0 {
      m := b;
    } else {
      var t := a * Pow(10, k - 1);
      assert a * Pow(10, k) == 10 * t;
      FiveCancels(n, b, 2 * t);
      var c := b / 5;
      assert n * c == 2 * t;
      assert (2 * a) * Pow(10, k - 1) == 2 * t;
      var m' := FivesDivide(n, c, 2 * a, k - 1);
      m := m';
      assert m * Pow(5, k) == 5 * (m * Pow(5, k - 1));
    }
  }

  /** A nonzero multiple is at least as large as its divisor. */
  lemma {:induction false} MultipleBound(b: int, m: int, p: nat)
    requires b != 0 && b == m * p
    ensures p <= Abs(b)
  {
    AbsProduct(m, p);
    assert m != 0;
    MulMono(1, Abs(m), p);
  }

  lemma {:induction false} OddPlaces(n: int, b: int, a: int, k: nat)
    requires b != 0 && n % 2 != 0 && n * b == a * Pow(10, k)
    ensures Pow(2, k) <= Abs(b)
  {
    hide Pow;
    var m := TwosDivide(n, b, a, k);
    MultipleBound(b, m, Pow(2, k));
  }

  lemma {:induction false} NonFivePlaces(n: int, b: int, a: int, k: nat)
    requires b != 0 && n % 5 != 0 && n * b == a * Pow(10, k)
    ensures Pow(2, k) <= Abs(b)
  {
    hide Pow;
    var m := FivesDivide(n, b, a, k);
    MultipleBound(b, m, Pow(5, k));
    PowCompare(k);
  }

  /** Once no factor ten is left, the number of decimal places is below four times the
      digits of the divisor. */
  lemma {:induction false} PlacesBound(n: int, b: int, a: int, k: nat)
    requires b != 0 && n % 10 != 0 && n * b == a * Pow(10, k)
    ensures k < 4 * Digits(Abs(b))
  {
    hide Pow, Digits;
    if n % 2 != 0 {
      OddPlaces(n, b, a, k);
    } else {
      NonFivePlaces(n, b, a, k);
    }
    SmallPower(Abs(b), k);
  }

  lemma {:induction false} SmallPower(c: nat, k: nat)
    requires Pow(2, k) <= c
    ensures k < 4 * Digits(c)
  {
    DigitsBound(c);
    PowCompare(Digits(c));
    if k >= 4 * Digits(c) {
      PowMono(2, 4 * Digits(c), k);
    }
  }

  /** Strip common factors ten: from any expansion to one with few places. */
  lemma {:induction false} FewPlaces(n: int, b: int, a: int, k: nat) returns (n': int, k': nat)
    requires b != 0 && n * b == a * Pow(10, k)
    ensures n' * b == a * Pow(10, k') && k' <= 4 * Digits(Abs(b))
    decreases k
  {
    if k == 0 {
      n', k' := n, k;
    } else if n % 10 == 0 {
      var c := n / 10;
      assert (10 * c) * b == 10 * (c * b);
      assert a * Pow(10, k) == 10 * (a * Pow(10, k - 1));
      n', k' := FewPlaces(c, b, a, k - 1);
    } else {
      PlacesBound(n, b, a, k);
      n', k' := n, k;
    }
  }

  lemma {:induction false} QuotientAtMost(n: int, b: int, a: int, p: nat)
    requires b != 0 && n * b == a * p
    ensures Abs(n) <= Abs(a) * p
  {
    AbsProduct(n, b);
    AbsProduct(a, p);
    MulMono(1, Abs(b), Abs(n));
  }

  lemma {:induction false} QuotientDigits(n: int, b: int, a: int, k: nat)
    requires b != 0 && n * b == a * Pow(10, k)
    ensures Digits(Abs(n)) <= Digits(Abs(a)) + k
  {
    QuotientAtMost(n, b, a, Pow(10, k));
    PowPositive(10, k);
    DigitsBound(Abs(a));
    PowAdd(10, Digits(Abs(a)), k);
    ScaleUp(Abs(a), Pow(10, Digits(Abs(a))), Pow(10, k));
    DigitsAtMost(Abs(n), Digits(Abs(a)) + k);
  }

  lemma {:induction false} SameScaled(a: int, b: int, e: int)
    ensures Scaled(a as real, e) == Scaled(b as real, e) <==> a == b
  {
    ScaledOrder(a as real, b as real, e);
  }

  /** The two sides of a quotient, compared at one exponent. */
  lemma {:induction false} QuotientCrossed(n: int, k: nat, left: Decimal, right: Decimal)
    ensures IsQuotient(Decimal(n, left.exp - right.exp - k), left, right)
      <==> n * right.coeff == left.coeff * Pow(10, k)
  {
    hide Scaled, Pow;
    var q := Decimal(n, left.exp - right.exp - k);
    ValProduct(q, right);
    ScaledRescale(left.coeff, left.exp - k, k);
    Crossed(Val(q) * Val(right), n * right.coeff, Val(left), left.coeff * Pow(10, k), left.exp - k);
  }

  lemma {:induction false} Crossed(x: real, a: int, y: real, b: int, e: int)
    requires x == Scaled(a as real, e) && y == Scaled(b as real, e)
    ensures x == y <==> a == b
  {
    SameScaled(a, b, e);
  }

  /** The digit bound of `divide`: the Inexact fallback is taken exactly when the
      quotient has no finite decimal expansion. */
  lemma {:induction false} TerminatingDivisionFits(left: Decimal, right: Decimal)
    requires right.coeff != 0
    ensures Terminates(left, right) <==> FitsIn(left, right, ExactPrecision(left, right))
  {
    if Terminates(left, right) {
      var q :| IsQuotient(q, left, right);
      var n0, k0 := AtDifference(q, left, right);
      QuotientCrossed(n0, k0, left, right);
      var n, k := FewPlaces(n0, right.coeff, left.coeff, k0);
      QuotientCrossed(n, k, left, right);
      QuotientDigits(n, right.coeff, left.coeff, k);
      var r := Decimal(n, left.exp - right.exp - k);
      assert IsQuotient(r, left, right) && Width(r) <= ExactPrecision(left, right);
    }
  }

  /** Any quotient can be written with at least as many places as the operands differ by. */
  lemma {:induction false} AtDifference(q: Decimal, left: Decimal, right: Decimal) returns (n: int, k: nat)
    requires IsQuotient(q, left, right)
    ensures IsQuotient(Decimal(n, left.exp - right.exp - k), left, right)
  {
    hide Scaled, Pow;
    var e := Min(q.exp, left.exp - right.exp);
    n, k := Aligned(q, e), left.exp - right.exp - e;
    ScaledRescale(q.coeff, e, q.exp - e);
  }

  // ---- division as a function of values ---------------------------------------------

  ghost predicate FiniteExpansion(x: real) {
    exists d :: Val(d) == x
  }

  /** The quotient the policy assigns to two numbers, whatever their representation. */
  ghost function Quotient(x: real, y: real): real
    requires y != 0.0
  {
    if FiniteExpansion(x / y) then x / y else Val(RoundedTo(x / y, DIVISION_PRECISION))
  }

  lemma {:induction false} NonZero(d: Decimal)
    ensures Val(d) == 0.0 <==> d.coeff == 0
  {
    ScaledOrder(d.coeff as real, 0.0, d.exp);
    ScaledZero(0.0, d.exp);
  }

  lemma {:induction false} TerminatesIsFinite(left: Decimal, right: Decimal)
    requires right.coeff != 0
    ensures Val(right) != 0.0
    ensures Terminates(left, right) <==> FiniteExpansion(Val(left) / Val(right))
  {
    hide Scaled;
    NonZero(right);
    var x, y := Val(left), Val(right);
    if Terminates(left, right) {
      var q :| IsQuotient(q, left, right);
      ExactQuotient(Val(q), x, y);
      assert Val(q) == x / y;
    }
    if FiniteExpansion(x / y) {
      var d :| Val(d) == x / y;
      ExactQuotient(Val(d), x, y);
      assert IsQuotient(d, left, right);
    }
  }

  /** `divide` depends on the two values only, although its working precision is computed
      from the digits and exponents of the representations it is given. */
  lemma {:induction false} DivideIsValueFunction(left: Decimal, right: Decimal)
    requires right.coeff != 0
    ensures Val(right) != 0.0
    ensures Val(Divide(left, right)) == Quotient(Val(left), Val(right))
  {
    hide Scaled, Pow, Digits;
    TerminatesIsFinite(left, right);
    TerminatingDivisionFits(left, right);
    if FitsIn(left, right, ExactPrecision(left, right)) {
      DivideIsQuotient(left, right);
      ExactQuotient(Val(Divide(left, right)), Val(left), Val(right));
    }
  }

  lemma {:induction false} DivideIsQuotient(left: Decimal, right: Decimal)
    requires right.coeff != 0
    requires FitsIn(left, right, ExactPrecision(left, right))
    ensures Val(Divide(left, right)) * Val(right) == Val(left)
  {
    hide Scaled, Pow, Digits;
    assert IsQuotient(Divide(left, right), left, right);
  }

  lemma {:induction false} ExactQuotient(q: real, x: real, y: real)
    requires y != 0.0
    ensures q * y == x <==> q == x / y
  {
  }

  function RealAbs(x: real): real {
    if x < 0.0 then -x else x
  }

  lemma {:induction false} HalfEvenError(x: real)
    ensures RealAbs(HalfEven(x) as real - x) <= 0.5
  {
  }

  /** Relative error of correct rounding: half a unit of the last of `digits` places. */
  lemma {:induction false} RoundedError(x: real, digits: nat)
    requires digits >= 1
    ensures RealAbs(Val(RoundedTo(x, digits)) - x) <= Scaled(RealAbs(x), 1 - digits) / 2.0
  {
    if x == 0.0 {
      ScaledZero(0.0, 1 - digits);
    } else {
      var m := Magnitude(RealAbs(x));
      var e := m - (digits - 1);
      var n := HalfEven(Scaled(x, -e)) as real;
      HalfEvenError(Scaled(x, -e));
      ScaledCompose(x, -e, e);
      GapScales(n, Scaled(x, -e), e);
      // half a unit at the last place, seen from the leading one
      ScaledHalf(1.0, e);
      ScaledCompose(1.0, m, 1 - digits);
      ScaledOrder(Scaled(1.0, m), RealAbs(x), 1 - digits);
    }
  }

  lemma {:induction false} ScaledHalf(x: real, e: int)
    ensures Scaled(x / 2.0, e) == Scaled(x, e) / 2.0
  {
    ScaledSum(x / 2.0, x / 2.0, e);
  }

  lemma {:induction false} GapScales(n: real, y: real, e: int)
    requires RealAbs(n - y) <= 0.5
    ensures RealAbs(Scaled(n, e) - Scaled(y, e)) <= Scaled(0.5, e)
  {
    ScaledSum(n - y, y, e);
    ScaledOrder(n - y, 0.5, e);
    ScaledOrder(-0.5, n - y, e);
    ScaledZero(0.5, e);
  }

  /** Every quotient is exact to half a unit in its fiftieth significant digit. */
  lemma {:induction false} QuotientError(x: real, y: real)
    requires y != 0.0
    ensures RealAbs(Quotient(x, y) - x / y) <= Scaled(RealAbs(x / y), -49) / 2.0
  {
    var q := x / y;
    RoundedError(q, DIVISION_PRECISION);
    ScaledOrder(0.0, RealAbs(q), 1 - DIVISION_PRECISION);
    ScaledZero(0.0, 1 - DIVISION_PRECISION);
  }

  // ---- canonical text --------------------------------------------------------------

  /** `decimal_text`: positional notation without trailing fractional zeros. This is the
      form in which every Decimal is stored and hashed. */
  function Normalize(d: Decimal): Decimal
    decreases Abs(d.exp)
  {
    if d.coeff == 0 then Decimal(0, 0)
    else if d.exp >= 0 then Decimal(d.coeff * Pow(10, d.exp), 0)
    else if d.coeff % 10 == 0 then Normalize(Decimal(d.coeff / 10, d.exp + 1))
    else d
  }

  ghost predicate Canonical(d: Decimal) {
    d.exp <= 0 && (d.coeff == 0 ==> d.exp == 0) && (d.exp < 0 ==> d.coeff % 10 != 0)
  }

  lemma {:induction false} NormalizeValue(d: Decimal)
    ensures Val(Normalize(d)) == Val(d)
    ensures Canonical(Normalize(d))
    decreases Abs(d.exp)
  {
    if d.coeff == 0 {
      NonZero(d);
    } else if d.exp >= 0 {
      ScaledRescale(d.coeff, 0, d.exp);
    } else if d.coeff % 10 == 0 {
      NormalizeValue(Decimal(d.coeff / 10, d.exp + 1));
      ScaledStep((d.coeff / 10) as real, d.exp);
    }
  }

  lemma {:induction false} TenDivides(c: int, k: nat)
    ensures k > 0 ==> (c * Pow(10, k)) % 10 == 0
  {
    if k > 0 {
      assert c * Pow(10, k) == 10 * (c * Pow(10, k - 1));
    }
  }

  lemma {:induction false} CanonicalUnique(a: Decimal, b: Decimal)
    requires Canonical(a) && Canonical(b) && Val(a) == Val(b) && a.exp <= b.exp
    ensures a == b
  {
    NonZero(a);
    NonZero(b);
    ScaledRescale(b.coeff, a.exp, b.exp - a.exp);
    ScaledOrder(a.coeff as real, Aligned(b, a.exp) as real, a.exp);
    TenDivides(b.coeff, b.exp - a.exp);
  }

  /** Stored text identifies the value: two Decimals are stored alike exactly when they
      are numerically equal. */
  lemma {:induction false} NormalizeIsCanonical(a: Decimal, b: Decimal)
    ensures Normalize(a) == Normalize(b) <==> Val(a) == Val(b)
  {
    NormalizeValue(a);
    NormalizeValue(b);
    if Val(a) == Val(b) {
      if Normalize(a).exp <= Normalize(b).exp {
        CanonicalUnique(Normalize(a), Normalize(b));
      } else {
        CanonicalUnique(Normalize(b), Normalize(a));
      }
    }
  }

  /** A Decimal written without a positive exponent never gains digits or places in store. */
  lemma {:induction false} NormalizeShrinks(d: Decimal)
    requires d.exp <= 0
    ensures Width(Normalize(d)) <= Width(d)
    ensures d.exp <= Normalize(d).exp <= 0
    decreases Abs(d.exp)
  {
    if d.coeff == 0 {
    } else if d.exp == 0 {
      assert Pow(10, 0) == 1;
    } else if d.coeff % 10 == 0 {
      NormalizeShrinks(Decimal(d.coeff / 10, d.exp + 1));
      DigitsMono(Abs(d.coeff / 10), Abs(d.coeff));
    }
  }
}
