/** Small value types shared by every part of the model. */
module Optional {
  /** A value that may be absent: the model's stand-in for the source's null pointers. */
  datatype Option<+T> = None | Some(value: T)
}

/**
 * Spectral quantities (radiance, throughput, BSDF values). Every spectrum has
 * the same number of wavelength bands; arithmetic is componentwise, on reals.
 */
module Spectra {
  /** Number of wavelength bands of a spectrum (appleseed's regular 31-band spectrum). */
  const Channels: nat := 31

  type Spectrum = s: seq<real> | |s| == Channels witness seq(Channels, _ => 0.0)

  /** The spectrum whose every band is x. */
  function Uniform(x: real): Spectrum {
    seq(Channels, _ => x)
  }

  function Zero(): Spectrum {
    Uniform(0.0)
  }

  function Add(a: Spectrum, b: Spectrum): Spectrum {
    seq(Channels, i requires 0 <= i < Channels => a[i] + b[i])
  }

  /** Componentwise product (the source's `*=` between two spectra). */
  function Mul(a: Spectrum, b: Spectrum): Spectrum {
    seq(Channels, i requires 0 <= i < Channels => a[i] * b[i])
  }

  /** Every band multiplied by the scalar k. */
  function Scale(a: Spectrum, k: real): Spectrum {
    seq(Channels, i requires 0 <= i < Channels => a[i] * k)
  }

  predicate NonNegative(a: Spectrum) {
    forall i :: 0 <= i < Channels ==> 0.0 <= a[i]
  }

  /** The largest element of a non-empty sequence. */
  function MaxOf(s: seq<real>): (m: real)
    requires |s| > 0
    ensures forall i :: 0 <= i < |s| ==> s[i] <= m
    ensures exists i :: 0 <= i < |s| && s[i] == m
  {
    if |s| == 1 then s[0]
    else
      var rest := MaxOf(s[1..]);
      assert forall i :: 1 <= i < |s| ==> s[i] == s[1..][i - 1];
      if s[0] >= rest then s[0] else rest
  }

  /** The largest band of a spectrum (foundation's max_value). */
  function MaxComponent(a: Spectrum): real {
    MaxOf(a)
  }

  function Min(x: real, y: real): real {
    if x <= y then x else y
  }

  lemma MulNonNegative(a: Spectrum, b: Spectrum)
    requires NonNegative(a) && NonNegative(b)
    ensures NonNegative(Mul(a, b))
  {
    forall i | 0 <= i < Channels
      ensures 0.0 <= Mul(a, b)[i]
    {
      assert Mul(a, b)[i] == a[i] * b[i];
    }
  }

  lemma ScaleNonNegative(a: Spectrum, k: real)
    requires NonNegative(a) && k >= 0.0
    ensures NonNegative(Scale(a, k))
  {
    forall i | 0 <= i < Channels
      ensures 0.0 <= Scale(a, k)[i]
    {
      assert Scale(a, k)[i] == a[i] * k;
    }
  }

  lemma AddZero(a: Spectrum)
    ensures Add(a, Zero()) == a && Add(Zero(), a) == a
  {
    assert forall i :: 0 <= i < Channels ==> Add(a, Zero())[i] == a[i];
    assert forall i :: 0 <= i < Channels ==> Add(Zero(), a)[i] == a[i];
  }

  lemma ScaleZero(k: real)
    ensures Scale(Zero(), k) == Zero()
  {
    assert forall i :: 0 <= i < Channels ==> Scale(Zero(), k)[i] == Zero()[i];
  }

  lemma MulOne(a: Spectrum)
    ensures Scale(a, 1.0) == a
  {
    assert forall i :: 0 <= i < Channels ==> Scale(a, 1.0)[i] == a[i];
  }
}

/**
 * Facts about real arithmetic that the solver does not find unaided: signs of
 * squares, products and quotients, and cancellation.
 */
module RealArith {
  /** The square of x. */
  function Square(x: real): real {
    x * x
  }

  lemma SquareNonNegative(x: real)
    ensures Square(x) >= 0.0
  {
    assert x * x >= 0.0;
  }

  lemma SquarePositive(x: real)
    requires x > 0.0
    ensures Square(x) > 0.0
  {
    var y := 1.0 / x;
    assert x * y == 1.0;
    assert Square(x) * (y * y) == 1.0;
  }

  lemma ProductPositive(x: real, y: real)
    requires x > 0.0 && y > 0.0
    ensures x * y > 0.0
  {
  }

  lemma ProductNonNegative(x: real, y: real)
    requires x >= 0.0 && y >= 0.0
    ensures x * y >= 0.0
  {
  }

  /** A factor u that leaves a positive d unchanged is one. */
  lemma CancelPositive(u: real, d: real)
    requires d > 0.0 && u * d == d
    ensures u == 1.0
  {
    assert (u - 1.0) * d == u * d - 1.0 * d;
    if u > 1.0 {
      ProductPositive(u - 1.0, d);
    } else if u < 1.0 {
      ProductPositive(1.0 - u, d);
    }
  }

  lemma ProductNonZero(a: real, b: real)
    requires a != 0.0 && b != 0.0
    ensures a * b != 0.0
  {
    var ra := 1.0 / a;
    var rb := 1.0 / b;
    assert a * ra == 1.0;
    assert b * rb == 1.0;
    assert (a * b) * (ra * rb) == (a * ra) * (b * rb);
  }

  /** A non-zero quantity changes when multiplied by anything other than 1. */
  lemma ScaledByOtherThanOne(k: real, y: real)
    requires y != 0.0 && k != 1.0
    ensures k * y != y
  {
    ProductNonZero(k - 1.0, y);
    assert (k - 1.0) * y == k * y - y;
  }

  /** Two factors of a six-fold product taken out in front. */
  lemma RegroupProduct(a: real, p: real, q: real, t: real, b: real, c: real)
    ensures a * p * q * t * b * c == (p * q) * (a * t * b * c)
  {
  }

  /** n / d for 0 <= n <= d: a fraction in [0, 1]. */
  function Ratio(n: real, d: real): (r: real)
    requires 0.0 <= n <= d && d > 0.0
    ensures 0.0 <= r <= 1.0 && r * d == n
  {
    n / d
  }

  lemma DivideThenMultiply(x: real, n: real)
    requires n > 0.0
    ensures x * (1.0 / n) * n == x
  {
    calc {
      x * (1.0 / n) * n;
      x * ((1.0 / n) * n);
      x * 1.0;
    }
  }

  lemma QuotientNonNegative(x: real, p: real)
    requires x >= 0.0 && p > 0.0
    ensures x / p >= 0.0
  {
    assert x / p == x * (1.0 / p);
    ProductNonNegative(x, 1.0 / p);
  }

  /** A fraction of a larger positive number lies strictly between 0 and 1. */
  lemma FractionInOpenUnitInterval(n: real, d: real)
    requires 0.0 < n < d
    ensures 0.0 < n / d < 1.0
  {
    var r := 1.0 / d;
    assert r > 0.0;
    assert n / d == n * r;
    ProductPositive(n, r);
    assert 1.0 - n / d == (d - n) * r;
    ProductPositive(d - n, r);
  }
}

/** Points and directions, as plain real triples and pairs. */
module Geometry {
  datatype Vec3 = Vec3(x: real, y: real, z: real)
  datatype Vec2 = Vec2(x: real, y: real)

  function Dot(a: Vec3, b: Vec3): real {
    a.x * b.x + a.y * b.y + a.z * b.z
  }

  function Plus(a: Vec3, b: Vec3): Vec3 {
    Vec3(a.x + b.x, a.y + b.y, a.z + b.z)
  }

  function Minus(a: Vec3, b: Vec3): Vec3 {
    Vec3(a.x - b.x, a.y - b.y, a.z - b.z)
  }

  function Times(k: real, a: Vec3): Vec3 {
    Vec3(k * a.x, k * a.y, k * a.z)
  }
}

/**
 * Entity parameters. A ParamArray is a dictionary of strings; conversion of a
 * string to a number or a flag belongs to the foundation library and is given
 * to the model as a function.
 */
module Params {
  type ParamArray = map<string, string>

  /** get_optional<string> / get_required<string>: the value, or the default when absent. */
  function GetString(params: ParamArray, key: string, default: string): string
  {
    if key in params then params[key] else default
  }

  /** get_optional<double> / get_required<double>, through the conversion `parse`. */
  function GetReal(params: ParamArray, key: string, default: real, parse: string -> real): real
  {
    if key in params then parse(params[key]) else default
  }

  /** get_optional<size_t>, through the conversion `parse`. */
  function GetCount(params: ParamArray, key: string, default: nat, parse: string -> nat): nat
  {
    if key in params then parse(params[key]) else default
  }

  /** get_optional<bool>, through the conversion `parse`. */
  function GetFlag(params: ParamArray, key: string, default: bool, parse: string -> bool): bool
  {
    if key in params then parse(params[key]) else default
  }
}
