/**
 * Shared numeric vocabulary of the model.
 *
 * Samples are `real` (the source uses `f32`/`f64`; rounding is not modelled).
 * The floating-point library calls the source makes (square root, FFT, powers,
 * logarithms, the `fundsp` band-pass filter) cannot be written down exactly, so
 * they are carried as function-typed fields of `Maths`.  `ValidMaths` states
 * the facts about them that the source relies on; every member that uses them
 * requires it, so each property below holds for every library meeting those facts.
 */
module Numerics {

  datatype Option<T> = None | Some(value: T)

  /** `rustfft::num_complex::Complex<f32>` */
  datatype Complex = Complex(re: real, im: real)

  const ZeroBin: Complex := Complex(0.0, 0.0)

  /** Multiplies both parts of a bin by the same factor (`c.re *= g; c.im *= g`). */
  function Scale(c: Complex, g: real): (r: Complex)
    ensures r.re == c.re * g && r.im == c.im * g
  {
    Complex(c.re * g, c.im * g)
  }

  /** Sum of a slice, `iter().sum()`. */
  function Sum(s: seq<real>): real
  {
    if |s| == 0 then 0.0 else s[0] + Sum(s[1..])
  }

  function Abs(x: real): real { if x < 0.0 then -x else x }

  function MinReal(a: real, b: real): real { if a <= b then a else b }

  function MaxReal(a: real, b: real): real { if a >= b then a else b }

  function MinNat(a: nat, b: nat): nat { if a <= b then a else b }

  /** An `f32 as usize` cast: saturates at zero and truncates the fraction. */
  function CastToUsize(x: real): (r: nat)
    ensures x <= 0.0 ==> r == 0
    ensures x > 0.0 ==> r as real <= x < r as real + 1.0
  {
    if x <= 0.0 then 0 else x.Floor
  }

  /**
   * Rust's `/` on signed integers: rounds toward zero, so `q * b` is the
   * multiple of `b` nearest `a` on the side of zero.
   */
  function TruncDiv(a: int, b: int): (q: int)
    requires b > 0
    ensures a >= 0 ==> q == a / b && 0 <= a - q * b < b
    ensures a < 0 ==> -b < a - q * b <= 0
  {
    if a >= 0 then a / b
    else
      var d := (-a) / b;
      assert -a == d * b + (-a) % b;
      -d
  }

  /** Rust's `%` on signed integers: the remainder takes the sign of `a`. */
  function TruncMod(a: int, b: int): (r: int)
    requires b > 0
    ensures a == TruncDiv(a, b) * b + r
    ensures a >= 0 ==> 0 <= r < b
    ensures a < 0 ==> -b < r <= 0
  {
    a - TruncDiv(a, b) * b
  }

  /**
   * The foreign numeric operations.
   *  - sqrt:     `f32::sqrt`
   *  - forward:  a forward FFT of a real signal (`rustfft`, unnormalised)
   *  - inverse:  an inverse FFT (`rustfft`, unnormalised)
   *  - powf10:   `10f32.powf(x)`
   *  - log10:    `f32::log10`
   *  - bandpass: the `fundsp` band-pass run sample by sample over a signal,
   *              given (samples, sample rate, low cut-off, high cut-off)
   */
  datatype Maths = Maths(
    sqrt: real -> real,
    forward: seq<real> -> seq<Complex>,
    inverse: seq<Complex> -> seq<Complex>,
    powf10: real -> real,
    log10: real -> real,
    bandpass: (seq<real>, real, real, real) -> seq<real>)

  /** The principal square root: non-negative and squaring back. */
  ghost predicate ValidSqrt(sqrt: real -> real)
  {
    forall x :: x >= 0.0 ==> sqrt(x) >= 0.0 && sqrt(x) * sqrt(x) == x
  }

  /** The FFT round trip `ifft(fft(s)) / n` recovers the signal within 1e-5. */
  ghost predicate RoundTrips(m: Maths)
  {
    forall s: seq<real>, i :: 0 <= i < |s| && |m.inverse(m.forward(s))| == |s| ==>
      Abs(m.inverse(m.forward(s))[i].re / (|s| as real) - s[i]) < 0.00001
  }

  ghost predicate ValidMaths(m: Maths)
  {
    && ValidSqrt(m.sqrt)
    && (forall s :: |m.forward(s)| == |s|)
    && (forall c :: |m.inverse(c)| == |c|)
    && (forall x :: m.powf10(x) > 0.0)
    && m.powf10(0.0) == 1.0
    && (forall s, sr, lo, hi :: |m.bandpass(s, sr, lo, hi)| == |s|)
    && RoundTrips(m)
  }

  /** `Complex::norm`: the modulus sqrt(re^2 + im^2). */
  function Norm(m: Maths, c: Complex): (r: real)
    requires ValidSqrt(m.sqrt)
    ensures r >= 0.0
  {
    m.sqrt(c.re * c.re + c.im * c.im)
  }

  /** The modulus squares back to `re^2 + im^2`. */
  lemma NormSquared(m: Maths, c: Complex)
    requires ValidSqrt(m.sqrt)
    ensures Norm(m, c) * Norm(m, c) == c.re * c.re + c.im * c.im
  {
    assert c.re * c.re + c.im * c.im >= 0.0 by {
      SquareNonNegative(c.re);
      SquareNonNegative(c.im);
    }
  }

  lemma SquareNonNegative(x: real)
    ensures x * x >= 0.0
  {
    if x < 0.0 {
      assert x * x == (-x) * (-x);
    }
  }

  /** The modulus of the all-zero bin is zero. */
  lemma NormZero(m: Maths)
    requires ValidSqrt(m.sqrt)
    ensures Norm(m, ZeroBin) == 0.0
  {
    NormSquared(m, ZeroBin);
    SquareInjective(Norm(m, ZeroBin), 0.0);
  }

  /** Two non-negative reals with the same square are equal. */
  lemma SquareInjective(a: real, b: real)
    requires a >= 0.0 && b >= 0.0 && a * a == b * b
    ensures a == b
  {
    assert (a - b) * (a + b) == 0.0;
    ProductZero(a - b, a + b);
  }

  lemma ProductZero(x: real, y: real)
    requires x * y == 0.0
    ensures x == 0.0 || y == 0.0
  {
  }

  /** Scaling a bin by a non-negative gain scales its modulus by that gain. */
  lemma NormScale(m: Maths, c: Complex, g: real)
    requires ValidSqrt(m.sqrt) && g >= 0.0
    ensures Norm(m, Scale(c, g)) == g * Norm(m, c)
  {
    var a := Norm(m, Scale(c, g));
    var b := Norm(m, c);
    NormSquared(m, Scale(c, g));
    NormSquared(m, c);
    calc {
      a * a;
      (c.re * g) * (c.re * g) + (c.im * g) * (c.im * g);
      g * g * (c.re * c.re + c.im * c.im);
      g * g * (b * b);
      (g * b) * (g * b);
    }
    SquareInjective(a, g * b);
  }

  lemma SumAppend(a: seq<real>, b: seq<real>)
    decreases |a|
    ensures Sum(a + b) == Sum(a) + Sum(b)
  {
    if |a| == 0 {
      assert a + b == b;
    } else {
      assert (a + b)[1..] == a[1..] + b;
      SumAppend(a[1..], b);
    }
  }

  /** Every element of `s` lies in [lo, hi], so the sum lies in [|s|·lo, |s|·hi]. */
  lemma {:induction false} SumBounds(s: seq<real>, lo: real, hi: real)
    requires forall i :: 0 <= i < |s| ==> lo <= s[i] <= hi
    ensures (|s| as real) * lo <= Sum(s) <= (|s| as real) * hi
  {
    if |s| > 0 {
      SumBounds(s[1..], lo, hi);
    }
  }

  /** A sum of copies of one value. */
  lemma {:induction false} SumConstant(s: seq<real>, v: real)
    requires forall i :: 0 <= i < |s| ==> s[i] == v
    ensures Sum(s) == (|s| as real) * v
  {
    if |s| > 0 {
      SumConstant(s[1..], v);
    }
  }
}
