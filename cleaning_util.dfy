/**
 * `crates/audio-cleaning/src/util.rs`: root mean square, mean and the
 * population standard deviation of a slice, each absent for an empty slice.
 */
module CleaningUtil {
  import opened Numerics

  /** The element-wise squares `x * x`. */
  function Squares(s: seq<real>): (r: seq<real>)
    ensures |r| == |s| && forall i :: 0 <= i < |s| ==> r[i] == s[i] * s[i]
  {
    seq(|s|, i requires 0 <= i < |s| => s[i] * s[i])
  }

  /** The squared deviations `(mean - v)^2` of every value from `mean`. */
  function SquaredDeviations(s: seq<real>, mean: real): (r: seq<real>)
    ensures |r| == |s| && forall i :: 0 <= i < |s| ==> r[i] == (mean - s[i]) * (mean - s[i])
  {
    seq(|s|, i requires 0 <= i < |s| => (mean - s[i]) * (mean - s[i]))
  }

  /** `rms`: the square root of the mean of squares; `None` for no samples. */
  function Rms(sqrt: real -> real, signal: seq<real>): (r: Option<real>)
    requires ValidSqrt(sqrt)
    ensures r.None? <==> |signal| == 0
    ensures r.Some? ==> r.value >= 0.0
    ensures r.Some? ==> r.value * r.value == Sum(Squares(signal)) / (|signal| as real)
  {
    if |signal| == 0 then None
    else
      assert Sum(Squares(signal)) >= 0.0 by {
        SquaresNonNegative(signal, 0.0);
        SumNonNegative(Squares(signal));
      }
      Some(sqrt(Sum(Squares(signal)) / (|signal| as real)))
  }

  /** `mean`: the sum divided by the count; `None` for no values. */
  function Mean(data: seq<real>): (r: Option<real>)
    ensures r.None? <==> |data| == 0
    ensures r.Some? ==> r.value * (|data| as real) == Sum(data)
  {
    if |data| > 0 then Some(Sum(data) / (|data| as real)) else None
  }

  /**
   * `mean_std_deviation`: the mean and the population standard deviation
   * (the squared deviations are divided by the count, not the count minus one).
   */
  function MeanStdDeviation(sqrt: real -> real, data: seq<real>): (r: Option<(real, real)>)
    requires ValidSqrt(sqrt)
    ensures r.None? <==> |data| == 0
    ensures r.Some? ==> Mean(data) == Some(r.value.0)
    ensures r.Some? ==> r.value.1 >= 0.0
    ensures r.Some? ==>
      r.value.1 * r.value.1 == Sum(SquaredDeviations(data, r.value.0)) / (|data| as real)
  {
    if |data| == 0 then None
    else
      var mean := Sum(data) / (|data| as real);
      var deviations := SquaredDeviations(data, mean);
      assert Sum(deviations) >= 0.0 by {
        SquaresNonNegative(data, mean);
        SumNonNegative(deviations);
      }
      var variance := Sum(deviations) / (|data| as real);
      assert variance >= 0.0;
      Some((mean, sqrt(variance)))
  }

  lemma SquaresNonNegative(s: seq<real>, mean: real)
    ensures forall i :: 0 <= i < |s| ==> Squares(s)[i] >= 0.0
    ensures forall i :: 0 <= i < |s| ==> SquaredDeviations(s, mean)[i] >= 0.0
  {
    forall i | 0 <= i < |s|
      ensures s[i] * s[i] >= 0.0 && (mean - s[i]) * (mean - s[i]) >= 0.0
    {
      SquareNonNegative(s[i]);
      SquareNonNegative(mean - s[i]);
    }
  }

  lemma {:induction false} SumNonNegative(s: seq<real>)
    requires forall i :: 0 <= i < |s| ==> s[i] >= 0.0
    ensures Sum(s) >= 0.0
  {
    if |s| > 0 {
      SumNonNegative(s[1..]);
    }
  }

  /** A sum of non-negative terms vanishes only if every term does. */
  lemma {:induction false} SumZeroNonNegative(s: seq<real>)
    requires forall i :: 0 <= i < |s| ==> s[i] >= 0.0
    requires Sum(s) == 0.0
    ensures forall i :: 0 <= i < |s| ==> s[i] == 0.0
  {
    if |s| > 0 {
      SumNonNegative(s[1..]);
      SumZeroNonNegative(s[1..]);
      forall i | 1 <= i < |s|
        ensures s[i] == 0.0
      {
        assert s[i] == s[1..][i - 1];
      }
    }
  }

  /** The mean of values in [lo, hi] lies in [lo, hi]. */
  lemma MeanBounds(data: seq<real>, lo: real, hi: real)
    requires |data| > 0 && forall i :: 0 <= i < |data| ==> lo <= data[i] <= hi
    ensures lo <= Mean(data).value <= hi
  {
    SumBounds(data, lo, hi);
  }

  /** The standard deviation is zero exactly when every value equals the mean. */
  lemma StdZeroIffConstant(sqrt: real -> real, data: seq<real>)
    requires ValidSqrt(sqrt) && |data| > 0
    ensures var (mean, std) := MeanStdDeviation(sqrt, data).value;
      std == 0.0 <==> forall i :: 0 <= i < |data| ==> data[i] == mean
  {
    var (mean, std) := MeanStdDeviation(sqrt, data).value;
    var dev := SquaredDeviations(data, mean);
    SquaresNonNegative(data, mean);
    if std == 0.0 {
      assert Sum(dev) == 0.0;
      SumZeroNonNegative(dev);
      forall i | 0 <= i < |data|
        ensures data[i] == mean
      {
        assert (mean - data[i]) * (mean - data[i]) == 0.0;
        ProductZero(mean - data[i], mean - data[i]);
      }
    }
    if forall i :: 0 <= i < |data| ==> data[i] == mean {
      SumConstant(dev, 0.0);
      assert std * std == 0.0;
      ProductZero(std, std);
    }
  }

  lemma DivCancel(n: real, x: real)
    requires n > 0.0
    ensures (n * x) / n == x
  {
  }

  /** Equal values have that value as mean and no spread. */
  lemma ConstantMeanStd(sqrt: real -> real, data: seq<real>, c: real)
    requires ValidSqrt(sqrt) && |data| > 0 && forall i :: 0 <= i < |data| ==> data[i] == c
    ensures MeanStdDeviation(sqrt, data) == Some((c, 0.0))
  {
    var n := |data| as real;
    SumConstant(data, c);
    DivCancel(n, c);
    assert Sum(data) / n == c;
    assert Mean(data) == Some(c);
    StdZeroIffConstant(sqrt, data);
  }

  /** The RMS of samples that all equal `c` is |c|. */
  lemma ConstantRms(sqrt: real -> real, signal: seq<real>, c: real)
    requires ValidSqrt(sqrt) && |signal| > 0 && forall i :: 0 <= i < |signal| ==> signal[i] == c
    ensures Rms(sqrt, signal) == Some(Abs(c))
  {
    var n := |signal| as real;
    var squares := Squares(signal);
    assert forall i :: 0 <= i < |squares| ==> squares[i] == c * c;
    SumConstant(squares, c * c);
    DivCancel(n, c * c);
    var r := Rms(sqrt, signal).value;
    assert r * r == Sum(squares) / n;
    assert r * r == c * c;
    AbsSquare(c);
    SquareInjective(r, Abs(c));
  }

  lemma AbsSquare(c: real)
    ensures Abs(c) >= 0.0 && Abs(c) * Abs(c) == c * c
  {
  }

  /** The crate's examples: rms of [3, 4] squares to 12.5, and the mean of [1, 2, 3] is 2. */
  lemma RmsAndMeanExamples(sqrt: real -> real)
    requires ValidSqrt(sqrt)
    ensures var r := Rms(sqrt, [3.0, 4.0]).value; r * r == 12.5
    ensures Mean([1.0, 2.0, 3.0]) == Some(2.0)
  {
    assert Sum(Squares([3.0, 4.0])) == 25.0 by {
      assert Squares([3.0, 4.0]) == [9.0, 16.0];
    }
  }

  lemma SumOfExample()
    ensures Sum([2.0, 4.0, 4.0, 4.0, 5.0, 5.0, 7.0, 9.0]) == 40.0
  {
    SumHalves([2.0, 4.0, 4.0, 4.0], [5.0, 5.0, 7.0, 9.0]);
  }

  lemma DeviationsOfExample()
    ensures Sum(SquaredDeviations([2.0, 4.0, 4.0, 4.0, 5.0, 5.0, 7.0, 9.0], 5.0)) == 32.0
  {
    var dev := SquaredDeviations([2.0, 4.0, 4.0, 4.0, 5.0, 5.0, 7.0, 9.0], 5.0);
    assert dev == [9.0, 1.0, 1.0, 1.0] + [0.0, 0.0, 4.0, 16.0];
    SumHalves([9.0, 1.0, 1.0, 1.0], [0.0, 0.0, 4.0, 16.0]);
  }

  /** A sum of eight, split into two sums of four. */
  lemma SumHalves(a: seq<real>, b: seq<real>)
    requires |a| == 4 && |b| == 4
    ensures Sum(a + b) == Sum(a) + Sum(b)
    ensures Sum(a) == a[0] + a[1] + a[2] + a[3]
    ensures Sum(b) == b[0] + b[1] + b[2] + b[3]
  {
    SumAppend(a, b);
    SumOfFour(a);
    SumOfFour(b);
  }

  lemma SumOfFour(a: seq<real>)
    requires |a| == 4
    ensures Sum(a) == a[0] + a[1] + a[2] + a[3]
  {
    assert Sum(a[3..]) == a[3] + Sum(a[4..]);
    assert Sum(a[2..]) == a[2] + Sum(a[2..][1..]) && a[2..][1..] == a[3..];
    assert Sum(a[1..]) == a[1] + Sum(a[1..][1..]) && a[1..][1..] == a[2..];
  }

  /** The crate's data set [2, 4, 4, 4, 5, 5, 7, 9]: mean 5 and standard deviation 2. */
  lemma MeanStdExample(sqrt: real -> real)
    requires ValidSqrt(sqrt)
    ensures MeanStdDeviation(sqrt, [2.0, 4.0, 4.0, 4.0, 5.0, 5.0, 7.0, 9.0]) == Some((5.0, 2.0))
  {
    var data := [2.0, 4.0, 4.0, 4.0, 5.0, 5.0, 7.0, 9.0];
    SumOfExample();
    assert Sum(data) / 8.0 == 5.0;
    var (mean, std) := MeanStdDeviation(sqrt, data).value;
    assert mean == 5.0;
    DeviationsOfExample();
    assert Sum(SquaredDeviations(data, mean)) / 8.0 == 4.0;
    assert std * std == 4.0;
    SquareInjective(std, 2.0);
  }
}
