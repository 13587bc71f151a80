/** Feature processing: per-column standardization with statistics computed
    once and cached, followed by bias augmentation (a leading column of 1s).
 */
module Standardizer {
  import opened Outcome
  import opened Matrix
  import opened Numerics

  /** The cached statistics: one mean and one (patched) variance per raw column. */
  datatype Stats = Stats(mean: seq<real>, variance: seq<real>)

  /** Statistics that can normalize: as many variances as means, all strictly
      positive, so that no column is divided by zero. */
  predicate Usable(s: Stats) {
    |s.mean| == |s.variance| && forall j :: 0 <= j < |s.variance| ==> s.variance[j] > 0.0
  }

  /** A feature matrix after processing, with the statistics used for it. */
  datatype Processed = Processed(features: Mat, stats: Stats)

  /** Mean of column `j` over all rows. */
  function ColumnMean(m: Mat, j: nat): real
    requires |m| > 0
    requires forall i :: 0 <= i < |m| ==> j < |m[i]|
  {
    Sum(Column(m, j)) / |m| as real
  }

  /** Population variance of column `j` (mean squared deviation from the column mean). */
  function ColumnVariance(m: Mat, j: nat): (v: real)
    requires |m| > 0
    requires forall i :: 0 <= i < |m| ==> j < |m[i]|
    ensures v >= 0.0
  {
    var squares := SquaredDeviations(m, j, ColumnMean(m, j));
    SumNonNegative(squares);
    Sum(squares) / |m| as real
  }

  /** `(x - mu)^2` for every entry `x` of column `j`. */
  function SquaredDeviations(m: Mat, j: nat, mu: real): (sq: seq<real>)
    requires forall i :: 0 <= i < |m| ==> j < |m[i]|
    ensures |sq| == |m|
    ensures forall i :: 0 <= i < |m| ==> sq[i] == Square(m[i][j] - mu)
    ensures forall i :: 0 <= i < |m| ==> sq[i] >= 0.0
  {
    seq(|m|, i requires 0 <= i < |m| => Square(m[i][j] - mu))
  }

  function Square(x: real): (y: real)
    ensures y >= 0.0
  {
    if x >= 0.0 then x * x else (-x) * (-x)
  }

  /** The zero-variance filler: a variance of exactly 0 becomes 1. */
  function PatchVariance(v: real): real {
    if v == 0.0 then 1.0 else v
  }

  /** First-call statistics of a non-empty rectangular matrix: column means
      and column variances with every zero variance replaced by 1. */
  function Fit(m: Mat): (s: Stats)
    requires |m| > 0 && Rectangular(m)
    ensures Usable(s)
    ensures |s.mean| == |m[0]|
    ensures forall j :: 0 <= j < |m[0]| ==> s.mean[j] == ColumnMean(m, j)
    ensures forall j :: 0 <= j < |m[0]| ==> ColumnVariance(m, j) == 0.0 ==> s.variance[j] == 1.0
    ensures forall j :: 0 <= j < |m[0]| ==> ColumnVariance(m, j) != 0.0 ==> s.variance[j] == ColumnVariance(m, j)
  {
    var d := |m[0]|;
    Stats(
      seq(d, j requires 0 <= j < d => ColumnMean(m, j)),
      seq(d, j requires 0 <= j < d => PatchVariance(ColumnVariance(m, j))))
  }

  /** A value of column `j` centred by the column's mean and divided by the
      root of its variance. */
  function Standardized(t: Kernels, s: Stats, j: nat, v: real): real
    requires WellBehaved(t)
    requires Usable(s) && j < |s.mean|
  {
    (v - s.mean[j]) / Sqrt(t, s.variance[j])
  }

  /** `(x - mean) / sqrt(variance)` column by column, with the given statistics. */
  function Normalize(t: Kernels, s: Stats, m: Mat): (r: Mat)
    requires WellBehaved(t)
    requires Usable(s)
    requires IsShape(m, |m|, |s.mean|)
    ensures IsShape(r, |m|, |s.mean|)
    ensures forall i, j :: 0 <= i < |m| && 0 <= j < |s.mean| ==> r[i][j] == Standardized(t, s, j, m[i][j])
  {
    var d := |s.mean|;
    seq(|m|, i requires 0 <= i < |m| =>
      seq(d, j requires 0 <= j < d => Standardized(t, s, j, m[i][j])))
  }

  /** Standardization with the statistics `s`, then bias augmentation. */
  function NormalizeWithBias(t: Kernels, s: Stats, raw: Mat): (x: Mat)
    requires WellBehaved(t)
    requires Usable(s)
    requires IsShape(raw, |raw|, |s.mean|)
    ensures IsShape(x, |raw|, |s.mean| + 1)
    ensures forall i :: 0 <= i < |raw| ==> x[i][0] == 1.0
    ensures forall i, j :: 0 <= i < |raw| && 0 <= j < |s.mean| ==> x[i][j + 1] == Standardized(t, s, j, raw[i][j])
  {
    NormalizedBehindOnes(Normalize(t, s, raw), |s.mean|);
    PrependOnes(Normalize(t, s, raw))
  }

  /** Entry `j` of a row reappears at `j + 1` once the bias column is in front. */
  lemma NormalizedBehindOnes(m: Mat, d: nat)
    requires IsShape(m, |m|, d)
    ensures forall i, j :: 0 <= i < |m| && 0 <= j < d ==> PrependOnes(m)[i][j + 1] == m[i][j]
  {
    var x := PrependOnes(m);
    forall i, j | 0 <= i < |m| && 0 <= j < d
      ensures x[i][j + 1] == m[i][j]
    {
      assert x[i] == [1.0] + m[i];
    }
  }

  /** Processing of a raw feature matrix.  Without cached statistics they are
      fitted to this input; with them, they are reused as they are.  The
      tensor library rejects an empty or ragged input, and an input whose
      width differs from the cached statistics'. */
  function ProcessFeatures(t: Kernels, cache: Option<Stats>, raw: Mat): (r: Result<Processed>)
    requires WellBehaved(t)
    requires cache.Some? ==> Usable(cache.value)
    ensures r.Ok? <==> |raw| > 0 && Rectangular(raw) && (cache.Some? ==> |cache.value.mean| == |raw[0]|)
    ensures |raw| == 0 ==> r == Err(EmptyInput)
    ensures r.Ok? ==> Usable(r.value.stats) && |r.value.stats.mean| == |raw[0]|
    ensures r.Ok? ==> r.value.features == NormalizeWithBias(t, r.value.stats, raw)
    ensures r.Ok? && cache.Some? ==> r.value.stats == cache.value
    ensures r.Ok? && cache.None? ==> r.value.stats == Fit(raw)
  {
    if |raw| == 0 then Err(EmptyInput)
    else if !Rectangular(raw) then Err(Ragged)
    else
      var s := if cache.Some? then cache.value else Fit(raw);
      if |s.mean| != |raw[0]| then Err(ShapeMismatch)
      else Ok(Processed(NormalizeWithBias(t, s, raw), s))
  }

  /** The processed matrix keeps the row count, gains one column, and that
      column is the bias column of 1s. */
  lemma ProcessedShape(t: Kernels, cache: Option<Stats>, raw: Mat)
    requires WellBehaved(t)
    requires cache.Some? ==> Usable(cache.value)
    requires ProcessFeatures(t, cache, raw).Ok?
    ensures IsShape(ProcessFeatures(t, cache, raw).value.features, |raw|, |raw[0]| + 1)
    ensures forall i :: 0 <= i < |raw| ==> ProcessFeatures(t, cache, raw).value.features[i][0] == 1.0
  {
  }

  /** Once statistics are cached, a processed row depends on nothing but the
      raw row itself: no other row of the new input, in particular no
      statistic of it, reaches the result. */
  lemma CachedNormalizationIsRowwise(t: Kernels, s: Stats, a: Mat, b: Mat, i: nat)
    requires WellBehaved(t) && Usable(s)
    requires ProcessFeatures(t, Some(s), a).Ok? && ProcessFeatures(t, Some(s), b).Ok?
    requires i < |a| && i < |b| && a[i] == b[i]
    ensures ProcessFeatures(t, Some(s), a).value.features[i]
         == ProcessFeatures(t, Some(s), b).value.features[i]
  {
    var x, y := ProcessFeatures(t, Some(s), a).value.features, ProcessFeatures(t, Some(s), b).value.features;
    assert |x[i]| == |y[i]| == |s.mean| + 1;
    forall k | 0 <= k < |x[i]|
      ensures x[i][k] == y[i][k]
    {
      if k > 0 {
        assert x[i][(k - 1) + 1] == y[i][(k - 1) + 1];
      }
    }
  }

  /** Standardizing with the statistics fitted to the same matrix centres
      every column: each normalized column has mean 0. */
  lemma FittedColumnsAreCentred(t: Kernels, m: Mat, j: nat)
    requires WellBehaved(t)
    requires |m| > 0 && Rectangular(m) && j < |m[0]|
    ensures ColumnMean(Normalize(t, Fit(m), m), j) == 0.0
  {
    var s := Fit(m);
    var r := Normalize(t, s, m);
    var sd := Sqrt(t, s.variance[j]);
    assert sd > 0.0;
    CountTimesMean(|m| as real, Sum(Column(m, j)), s.mean[j]);
    DeviationsSumToZero(Column(m, j), s.mean[j], sd, Column(r, j));
    ZeroOver(|m| as real);
  }

  /** Deviations of the entries of `values` from their mean, scaled by
      `1 / sd`, add up to 0. */
  lemma DeviationsSumToZero(values: seq<real>, mu: real, sd: real, col: seq<real>)
    requires Sum(values) == |values| as real * mu
    requires sd != 0.0
    requires |col| == |values|
    requires forall i :: 0 <= i < |values| ==> col[i] == (values[i] - mu) / sd
    ensures Sum(col) == 0.0
  {
    var shifted := seq(|values|, i requires 0 <= i < |values| => values[i] - mu);
    SumShift(values, shifted, mu);
    SumDivide(shifted, col, sd);
    ZeroOver(sd);
  }

  lemma CountTimesMean(n: real, total: real, mu: real)
    requires n > 0.0 && mu == total / n
    ensures total == n * mu
  {
  }

  lemma ZeroOver(sd: real)
    requires sd != 0.0
    ensures 0.0 / sd == 0.0
  {
  }

  lemma ConstantColumnMean(m: Mat, j: nat, c: real)
    requires |m| > 0
    requires forall i :: 0 <= i < |m| ==> j < |m[i]| && m[i][j] == c
    ensures ColumnMean(m, j) == c
  {
    var n := |m| as real;
    SumConstant(Column(m, j), c);
    assert (n * c) / n == c;
  }

  lemma ConstantColumnVariance(m: Mat, j: nat, c: real)
    requires |m| > 0
    requires forall i :: 0 <= i < |m| ==> j < |m[i]| && m[i][j] == c
    ensures ColumnVariance(m, j) == 0.0
  {
    ConstantColumnMean(m, j, c);
    var squares := SquaredDeviations(m, j, c);
    assert forall i :: 0 <= i < |m| ==> squares[i] == Square(0.0) == 0.0;
    SumConstant(squares, 0.0);
  }

  /** A constant column has that constant as its mean, its zero variance is
      patched to 1, and after processing it is a column of zeros. */
  lemma ConstantColumnBecomesZero(t: Kernels, raw: Mat, j: nat, c: real)
    requires WellBehaved(t)
    requires |raw| > 0 && Rectangular(raw) && j < |raw[0]|
    requires forall i :: 0 <= i < |raw| ==> raw[i][j] == c
    ensures Fit(raw).mean[j] == c
    ensures Fit(raw).variance[j] == 1.0
    ensures forall i :: 0 <= i < |raw| ==> ProcessFeatures(t, None, raw).value.features[i][j + 1] == 0.0
  {
    ConstantColumnMean(raw, j, c);
    ConstantColumnVariance(raw, j, c);
    var s := Fit(raw);
    var x := ProcessFeatures(t, None, raw).value.features;
    forall i | 0 <= i < |raw|
      ensures x[i][j + 1] == 0.0
    {
      assert x[i][j + 1] == (raw[i][j] - s.mean[j]) / Sqrt(t, s.variance[j]);
      assert raw[i][j] - s.mean[j] == 0.0;
    }
  }
}
