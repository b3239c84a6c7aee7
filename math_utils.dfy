/** The numerical utilities of the forecasting engine (utils/mathUtils.ts):
    a per-column standard scaler, a ridge regression whose coefficients come
    from an external normal-equation solve, and the rational approximation of
    the inverse standard normal distribution function. */
module MathUtils {
  import opened Wrappers
  import opened Numeric

  /** One row of a JavaScript `number[][]`: either missing (`null` or
      `undefined`) or an array of cells. A row may be shorter than others; a
      cell past its end reads as `undefined`. */
  datatype Row = Absent | Cells(values: seq<real>)

  predicate AllPresent(X: seq<Row>)
  {
    forall i :: 0 <= i < |X| ==> X[i].Cells?
  }

  /** Every row present with exactly n cells. */
  predicate Rectangular(X: seq<Row>, n: nat)
  {
    forall i :: 0 <= i < |X| ==> X[i].Cells? && |X[i].values| == n
  }

  function Zeros(n: nat): (z: seq<real>)
    ensures |z| == n && forall j :: 0 <= j < n ==> z[j] == 0.0
  {
    seq(n, _ => 0.0)
  }

  /** Sum of the numeric cells of column j, rows in order; a row too short to
      have a cell j adds nothing (`typeof val === 'number'` fails). */
  function ColumnSum(X: seq<Row>, j: nat): real
    requires AllPresent(X)
  {
    if X == [] then 0.0
    else
      var last := X[|X| - 1].values;
      ColumnSum(X[..|X| - 1], j) + (if j < |last| then last[j] else 0.0)
  }

  /** Squared deviation from m of the cell j of a present row; a row too
      short to have that cell adds nothing. */
  function SquaredDeviation(r: Row, j: nat, m: real): real
    requires r.Cells?
  {
    if j < |r.values| then (r.values[j] - m) * (r.values[j] - m) else 0.0
  }

  /** Sum of squared deviations from m of the numeric cells of column j. */
  function ColumnSquares(X: seq<Row>, j: nat, m: real): real
    requires AllPresent(X)
  {
    if X == [] then 0.0
    else ColumnSquares(X[..|X| - 1], j, m) + SquaredDeviation(X[|X| - 1], j, m)
  }

  /** Column sum over the number of SAMPLES (rows), not over the number of cells. */
  function ColumnMean(X: seq<Row>, j: nat): real
    requires |X| > 0 && AllPresent(X)
  {
    ColumnSum(X, j) / |X| as real
  }

  /** Population standard deviation of column j, or 1 where it is 0. */
  function ColumnScale(X: seq<Row>, j: nat, sqrt: real -> NonNegReal): (s: real)
    requires |X| > 0 && AllPresent(X)
    ensures s > 0.0
  {
    var sd := sqrt(ColumnSquares(X, j, ColumnMean(X, j)) / |X| as real);
    if sd == 0.0 then 1.0 else sd
  }

  /** The inner loop of the mean pass of `fit` over column j: the column sum,
      or `present` false at the first missing row, where reading a cell throws. */
  method SumColumn(X: seq<Row>, j: nat) returns (sum: real, present: bool)
    ensures present <==> AllPresent(X)
    ensures present ==> sum == ColumnSum(X, j)
  {
    sum := 0.0;
    for i := 0 to |X|
      invariant AllPresent(X[..i])
      invariant sum == ColumnSum(X[..i], j)
    {
      if X[i].Absent? {
        return sum, false;
      }
      var row := X[i].values;
      assert X[..i + 1][..i] == X[..i];
      if j < |row| {
        sum := sum + row[j];
      }
    }
    assert X[..|X|] == X;
    return sum, true;
  }

  /** The inner loop of the scale pass of `fit` over column j: the sum of the
      squared deviations of its cells from m. */
  method SquaresColumn(X: seq<Row>, j: nat, m: real) returns (sumSq: real)
    requires AllPresent(X)
    ensures sumSq == ColumnSquares(X, j, m)
  {
    sumSq := 0.0;
    for i := 0 to |X|
      invariant sumSq == ColumnSquares(X[..i], j, m)
    {
      var row := X[i].values;
      assert X[..i + 1][..i] == X[..i];
      if j < |row| {
        sumSq := sumSq + (row[j] - m) * (row[j] - m);
      }
    }
    assert X[..|X|] == X;
  }

  /** `StandardScaler`: per-column mean and scale, filled by `Fit` and applied
      by `Transform`. */
  class StandardScaler {
    var mean: seq<real>
    var scale: seq<real>

    constructor ()
      ensures mean == [] && scale == []
    {
      mean := [];
      scale := [];
    }

    /** `fit`. An empty matrix or a missing first row leaves the scaler as it
        was. Otherwise mean and scale are reset to zero arrays with one entry
        per cell of the first row; a missing row further down then makes the
        first read of a cell throw (`ok` false), leaving the zero arrays.
        Without that, `mean[j]` is the column mean and `scale[j]` the column's
        population standard deviation, 1 where that is 0. */
    method Fit(X: seq<Row>, sqrt: real -> NonNegReal) returns (ok: bool)
      modifies this
      ensures |X| == 0 || X[0].Absent? ==> ok && mean == old(mean) && scale == old(scale)
      ensures |X| > 0 && X[0].Cells? && !AllPresent(X) && |X[0].values| > 0 ==>
        !ok && mean == Zeros(|X[0].values|) && scale == Zeros(|X[0].values|)
      ensures |X| > 0 && X[0].Cells? && (AllPresent(X) || |X[0].values| == 0) ==>
        && ok
        && |mean| == |X[0].values| && |scale| == |X[0].values|
        && forall j :: 0 <= j < |mean| ==>
             && mean[j] == ColumnMean(X, j)
             && scale[j] == ColumnScale(X, j, sqrt)
             && scale[j] != 0.0
    {
      if |X| == 0 || X[0].Absent? {
        return true;
      }
      var nSamples := |X|;
      var nFeatures := |X[0].values|;
      mean := Zeros(nFeatures);
      scale := Zeros(nFeatures);

      for j := 0 to nFeatures
        invariant |mean| == nFeatures && |scale| == nFeatures
        invariant scale == Zeros(nFeatures)
        invariant forall k :: j <= k < nFeatures ==> mean[k] == 0.0
        invariant j > 0 ==> AllPresent(X)
        invariant forall k :: 0 <= k < j ==> mean[k] == ColumnMean(X, k)
      {
        var sum, present := SumColumn(X, j);
        if !present {
          // `X[i][j]` on a missing row throws a TypeError.
          assert j == 0;
          assert mean == Zeros(nFeatures);
          return false;
        }
        mean := mean[j := sum / nSamples as real];
      }
      assert nFeatures > 0 ==> AllPresent(X);

      for j := 0 to nFeatures
        invariant |mean| == nFeatures && |scale| == nFeatures
        invariant forall k :: 0 <= k < nFeatures ==> mean[k] == ColumnMean(X, k)
        invariant forall k :: 0 <= k < j ==> scale[k] == ColumnScale(X, k, sqrt) && scale[k] != 0.0
      {
        var sumSq := SquaresColumn(X, j, mean[j]);
        var sd := sqrt(sumSq / nSamples as real);
        scale := scale[j := if sd == 0.0 then 1.0 else sd];
      }
      return true;
    }

    /** `this.mean[j] || 0`. */
    function MeanAt(j: nat): real
      reads this
    {
      if j < |mean| then mean[j] else 0.0
    }

    /** `this.scale[j] || 1`: a missing or zero scale divides by 1. */
    function ScaleAt(j: nat): (s: real)
      reads this
      ensures s != 0.0
    {
      if j < |scale| && scale[j] != 0.0 then scale[j] else 1.0
    }

    function StandardizeRow(row: Row): Row
      reads this
    {
      match row
      case Absent => Cells([])
      case Cells(v) => Cells(seq(|v|, j requires 0 <= j < |v| reads this => (v[j] - MeanAt(j)) / ScaleAt(j)))
    }

    /** `transform`: each cell standardised with its column's mean and scale;
        an empty matrix gives [], an unfitted scaler (no means) returns the
        matrix itself, and a missing row becomes an empty row. */
    function Transform(X: seq<Row>): (r: seq<Row>)
      reads this
      ensures |X| == 0 ==> r == []
      ensures |mean| == 0 ==> r == X
      ensures |r| == |X|
      ensures |mean| > 0 ==> forall i :: 0 <= i < |X| ==>
        && r[i].Cells?
        && (X[i].Absent? ==> r[i].values == [])
        && (X[i].Cells? ==>
              && |r[i].values| == |X[i].values|
              && forall j :: 0 <= j < |X[i].values| ==>
                   r[i].values[j] == (X[i].values[j] - MeanAt(j)) / ScaleAt(j))
    {
      if |X| == 0 then []
      else if |mean| == 0 then X
      else seq(|X|, i requires 0 <= i < |X| reads this => StandardizeRow(X[i]))
    }
  }

  /** A cell x of column j standardised with the mean and scale of that
      column of X. */
  function StandardCell(X: seq<Row>, j: nat, x: real, sqrt: real -> NonNegReal): real
    requires |X| > 0 && AllPresent(X)
  {
    (x - ColumnMean(X, j)) / ColumnScale(X, j, sqrt)
  }

  /** A row of cells standardised column by column. */
  function StandardRow(X: seq<Row>, v: seq<real>, sqrt: real -> NonNegReal): (z: seq<real>)
    requires |X| > 0 && AllPresent(X)
    ensures |z| == |v|
  {
    seq(|v|, j requires 0 <= j < |v| => StandardCell(X, j, v[j], sqrt))
  }

  /** The matrix that `fit` followed by `transform` make of X, without the
      scaler object: every cell standardised with its column's mean and
      population standard deviation. */
  function Standardized(X: seq<Row>, sqrt: real -> NonNegReal): (Z: seq<Row>)
    requires |X| > 0 && AllPresent(X)
    ensures |Z| == |X|
  {
    seq(|X|, i requires 0 <= i < |X| => Cells(StandardRow(X, X[i].values, sqrt)))
  }

  /** A scaler holding the column means and scales of a rectangular X
      transforms X into `Standardized(X)`. */
  lemma FitTransformStandardizes(sc: StandardScaler, X: seq<Row>, n: nat, sqrt: real -> NonNegReal)
    requires |X| > 0 && Rectangular(X, n)
    requires |sc.mean| == n && |sc.scale| == n
    requires forall k :: 0 <= k < n ==> sc.mean[k] == ColumnMean(X, k) && sc.scale[k] == ColumnScale(X, k, sqrt)
    ensures sc.Transform(X) == Standardized(X, sqrt)
  {
    var T, Z := sc.Transform(X), Standardized(X, sqrt);
    forall i | 0 <= i < |X|
      ensures T[i] == Z[i]
    {
      var v := X[i].values;
      if n == 0 {
        assert T[i] == X[i] == Cells([]);
      } else {
        forall j | 0 <= j < |v|
          ensures T[i].values[j] == Z[i].values[j]
        {
          assert sc.MeanAt(j) == ColumnMean(X, j) && sc.ScaleAt(j) == ColumnScale(X, j, sqrt);
        }
      }
    }
  }

  /** After fitting, a column with a single value c transforms to 0 in every
      row, whatever the other columns hold: its mean is c. */
  lemma ConstantColumnStandardizesToZero(sc: StandardScaler, X: seq<Row>, n: nat, j: nat, c: real,
                                         sqrt: real -> NonNegReal)
    requires |X| > 0 && Rectangular(X, n) && j < n
    requires |sc.mean| == n && |sc.scale| == n
    requires forall k :: 0 <= k < n ==> sc.mean[k] == ColumnMean(X, k) && sc.scale[k] == ColumnScale(X, k, sqrt)
    requires forall i :: 0 <= i < |X| ==> X[i].values[j] == c
    ensures |sc.Transform(X)| == |X|
    ensures forall i :: 0 <= i < |X| ==> sc.Transform(X)[i] == Standardized(X, sqrt)[i] && sc.Transform(X)[i].values[j] == 0.0
  {
    ConstantColumnSum(X, n, j, c);
    assert ColumnMean(X, j) == c;
    FitTransformStandardizes(sc, X, n, sqrt);
  }

  /** Z is X, both with rows of n cells, with column j standardised around m
      by s: every cell z of Z's column j has z·s = x - m for X's cell x. */
  predicate StandardizedColumn(X: seq<Row>, n: nat, j: nat, m: real, s: real, Z: seq<Row>)
  {
    && Rectangular(X, n) && j < n && Rectangular(Z, n) && |Z| == |X|
    && forall i :: 0 <= i < |X| ==> Z[i].values[j] * s == X[i].values[j] - m
  }

  /** Dropping trailing rows from both matrices keeps the column standardised. */
  lemma StandardizedPrefix(X: seq<Row>, n: nat, j: nat, m: real, s: real, Z: seq<Row>, k: nat)
    requires StandardizedColumn(X, n, j, m, s, Z) && k <= |X|
    ensures StandardizedColumn(X[..k], n, j, m, s, Z[..k])
  {
    forall i | 0 <= i < k
      ensures Z[..k][i].values[j] * s == X[..k][i].values[j] - m
    {
      assert Z[..k][i] == Z[i] && X[..k][i] == X[i];
    }
  }

  /** Standardising a column around m with scale s gives a column whose sum,
      scaled back by s, is the column sum minus m once per row. */
  lemma {:induction false} StandardizedColumnSum(X: seq<Row>, n: nat, j: nat, m: real, s: real, Z: seq<Row>)
    requires StandardizedColumn(X, n, j, m, s, Z)
    ensures ColumnSum(Z, j) * s == ColumnSum(X, j) - |X| as real * m
  {
    if X != [] {
      var k := |X| - 1;
      StandardizedPrefix(X, n, j, m, s, Z, k);
      StandardizedColumnSum(X[..k], n, j, m, s, Z[..k]);
      ShiftedSumStep(ColumnSum(Z[..k], j), Z[k].values[j], ColumnSum(Z, j),
                     ColumnSum(X[..k], j), X[k].values[j], ColumnSum(X, j), s, m, k as real, |X| as real);
    }
  }

  /** Adding one standardised cell z (z·s = x - m) to a standardised sum a
      (a·s = b - N·m) keeps the relation, with one more row: t = a + z,
      u = b + x and M = N + 1. */
  lemma ShiftedSumStep(a: real, z: real, t: real, b: real, x: real, u: real, s: real, m: real, N: real, M: real)
    requires t == a + z && u == b + x && M == N + 1.0
    requires a * s == b - N * m && z * s == x - m
    ensures t * s == u - M * m
  {
  }

  /** Standardising a column around its own mean gives a column that sums to
      0, whatever the nonzero scale. */
  lemma {:induction false} CenteredColumnSum(X: seq<Row>, n: nat, j: nat, s: real, Z: seq<Row>)
    requires |X| > 0 && Rectangular(X, n) && s != 0.0
    requires StandardizedColumn(X, n, j, ColumnMean(X, j), s, Z)
    ensures ColumnSum(Z, j) == 0.0
  {
    StandardizedColumnSum(X, n, j, ColumnMean(X, j), s, Z);
    MeanCancels(ColumnSum(Z, j), s, ColumnSum(X, j), |X| as real, ColumnMean(X, j));
  }

  /** A sum a with a·s = t - N·(t/N) is 0 when s is not. */
  lemma MeanCancels(a: real, s: real, t: real, N: real, m: real)
    requires s != 0.0 && N > 0.0 && m == t / N && a * s == t - N * m
    ensures a == 0.0
  {
  }

  /** After fitting on a matrix whose rows all have n cells, transforming that
      same matrix gives, in column j, cells z with z·scale = x - mean, so
      the column sums to 0 and has mean 0. */
  lemma {:induction false} FitThenTransformCentres(sc: StandardScaler, X: seq<Row>, n: nat, sqrt: real -> NonNegReal, j: nat)
    requires |X| > 0 && Rectangular(X, n) && j < n
    requires |sc.mean| == n && |sc.scale| == n
    requires forall k :: 0 <= k < n ==> sc.mean[k] == ColumnMean(X, k) && sc.scale[k] == ColumnScale(X, k, sqrt)
    ensures var Z := sc.Transform(X);
      && StandardizedColumn(X, n, j, ColumnMean(X, j), ColumnScale(X, j, sqrt), Z)
      && ColumnSum(Z, j) == 0.0
  {
    var Z, s := sc.Transform(X), ColumnScale(X, j, sqrt);
    FitThenTransformCells(sc, X, n, sqrt, j);
    CenteredColumnSum(X, n, j, s, Z);
  }

  /** One standardised cell z with z·s = x - m, squared and scaled back by
      c = s·s, is the squared deviation dx of the original cell x. */
  lemma StandardizedDeviation(zr: Row, xr: Row, j: nat, m: real, s: real, c: real, dz: real, dx: real)
    requires zr.Cells? && xr.Cells? && j < |zr.values| && j < |xr.values|
    requires zr.values[j] * s == xr.values[j] - m && c == s * s
    requires dz == SquaredDeviation(zr, j, 0.0) && dx == SquaredDeviation(xr, j, m)
    ensures dx == c * dz
  {
    var z, x := zr.values[j], xr.values[j];
    assert (z - 0.0) * (z - 0.0) * (s * s) == (z * s) * (z * s);
  }

  /** Standardising a column with mean m and scale s (every cell z with
      z·s = x - m) divides its squared deviations by s squared: the squared
      deviations from 0 of the standardised column, times c = s·s, are those
      of the column from m. */
  lemma StandardizedColumnSquares(X: seq<Row>, n: nat, j: nat, m: real, s: real, c: real, Z: seq<Row>)
    requires StandardizedColumn(X, n, j, m, s, Z) && c == s * s
    ensures ColumnSquares(Z, j, 0.0) * c == ColumnSquares(X, j, m)
  {
    StandardizedScaledSquares(X, n, j, m, s, c, Z);
    ScaledColumnSquares(X, Z, j, m, c);
  }

  /** Row by row, the squared deviation of X's cell j from m is c times that
      of Z's cell j from 0. */
  predicate ScaledSquares(X: seq<Row>, Z: seq<Row>, j: nat, m: real, c: real)
    requires AllPresent(X) && AllPresent(Z) && |Z| == |X|
  {
    X == [] ||
    var k := |X| - 1;
    && ScaledSquares(X[..k], Z[..k], j, m, c)
    && SquaredDeviation(X[k], j, m) == c * SquaredDeviation(Z[k], j, 0.0)
  }

  /** A standardised column has its squared deviations scaled by c = s·s. */
  lemma {:induction false} StandardizedScaledSquares(X: seq<Row>, n: nat, j: nat, m: real, s: real, c: real, Z: seq<Row>)
    requires StandardizedColumn(X, n, j, m, s, Z) && c == s * s
    ensures ScaledSquares(X, Z, j, m, c)
  {
    if X != [] {
      var k := |X| - 1;
      StandardizedPrefix(X, n, j, m, s, Z, k);
      StandardizedScaledSquares(X[..k], n, j, m, s, c, Z[..k]);
      StandardizedRowDeviation(X, n, j, m, s, c, Z, k);
    }
  }

  /** Squared deviations scaled by c row by row give sums of squares scaled by c. */
  lemma {:induction false} ScaledColumnSquares(X: seq<Row>, Z: seq<Row>, j: nat, m: real, c: real)
    requires AllPresent(X) && AllPresent(Z) && |Z| == |X| && ScaledSquares(X, Z, j, m, c)
    ensures ColumnSquares(Z, j, 0.0) * c == ColumnSquares(X, j, m)
  {
    if X != [] {
      var k := |X| - 1;
      ScaledColumnSquares(X[..k], Z[..k], j, m, c);
      ScaledSumStep(ColumnSquares(Z[..k], j, 0.0), SquaredDeviation(Z[k], j, 0.0),
                    ColumnSquares(X[..k], j, m), SquaredDeviation(X[k], j, m), c);
    }
  }

  /** Row i of a standardised column: its squared deviation from 0, times
      c = s·s, is the original row's squared deviation from m. */
  lemma StandardizedRowDeviation(X: seq<Row>, n: nat, j: nat, m: real, s: real, c: real, Z: seq<Row>, i: nat)
    requires StandardizedColumn(X, n, j, m, s, Z) && c == s * s && i < |X|
    ensures SquaredDeviation(X[i], j, m) == c * SquaredDeviation(Z[i], j, 0.0)
  {
    StandardizedDeviation(Z[i], X[i], j, m, s, c, SquaredDeviation(Z[i], j, 0.0), SquaredDeviation(X[i], j, m));
  }

  /** Adding d to a and c·d to b keeps b = a·c. */
  lemma ScaledSumStep(a: real, d: real, b: real, e: real, c: real)
    requires a * c == b && e == c * d
    ensures (a + d) * c == b + e
  {
  }

  /** The scale a fit computes for a column with nonzero variance v, where
      the square root is exact at v, is that root, and its square is v. */
  lemma ExactScale(X: seq<Row>, j: nat, sqrt: real -> NonNegReal)
    requires |X| > 0 && AllPresent(X)
    requires var v := ColumnSquares(X, j, ColumnMean(X, j)) / |X| as real;
      v != 0.0 && sqrt(v) * sqrt(v) == v
    ensures var v := ColumnSquares(X, j, ColumnMean(X, j)) / |X| as real;
      && ColumnScale(X, j, sqrt) == sqrt(v)
      && ColumnScale(X, j, sqrt) * ColumnScale(X, j, sqrt) > 0.0
      && ColumnScale(X, j, sqrt) * ColumnScale(X, j, sqrt) * |X| as real == ColumnSquares(X, j, ColumnMean(X, j))
  {
    var v := ColumnSquares(X, j, ColumnMean(X, j)) / |X| as real;
    assert sqrt(v) != 0.0;
    SquarePositive(ColumnScale(X, j, sqrt));
  }

  /** After fitting, every transformed cell of column j times the column's
      scale is the cell's deviation from the column's mean. */
  lemma {:induction false} FitThenTransformCells(sc: StandardScaler, X: seq<Row>, n: nat, sqrt: real -> NonNegReal, j: nat)
    requires |X| > 0 && Rectangular(X, n) && j < n
    requires |sc.mean| == n && |sc.scale| == n
    requires forall k :: 0 <= k < n ==> sc.mean[k] == ColumnMean(X, k) && sc.scale[k] == ColumnScale(X, k, sqrt)
    ensures StandardizedColumn(X, n, j, ColumnMean(X, j), ColumnScale(X, j, sqrt), sc.Transform(X))
  {
    var Z := sc.Transform(X);
    var m, s := ColumnMean(X, j), ColumnScale(X, j, sqrt);
    assert sc.ScaleAt(j) == s && sc.MeanAt(j) == m;
    forall i | 0 <= i < |X|
      ensures Z[i].values[j] * s == X[i].values[j] - m
    {
      QuotientTimesDivisor(Z[i].values[j], X[i].values[j] - m, s);
    }
  }

  /** After fitting on a matrix whose rows all have n cells, transforming that
      same matrix gives a column with mean 0 and population variance 1,
      wherever the column's own variance v is not 0. The scale is `sqrt(v)`,
      so the square root must be exact at v. */
  lemma {:induction false} FitThenTransformUnitVariance(sc: StandardScaler, X: seq<Row>, n: nat, sqrt: real -> NonNegReal, j: nat)
    requires |X| > 0 && Rectangular(X, n) && j < n
    requires |sc.mean| == n && |sc.scale| == n
    requires forall k :: 0 <= k < n ==> sc.mean[k] == ColumnMean(X, k) && sc.scale[k] == ColumnScale(X, k, sqrt)
    requires var v := ColumnSquares(X, j, ColumnMean(X, j)) / |X| as real;
      v != 0.0 && sqrt(v) * sqrt(v) == v
    ensures var Z := sc.Transform(X);
      && Rectangular(Z, n)
      && ColumnMean(Z, j) == 0.0
      && ColumnSquares(Z, j, ColumnMean(Z, j)) / |X| as real == 1.0
  {
    FitThenTransformCentres(sc, X, n, sqrt, j);
    FittedColumnUnitVariance(X, n, j, sc.Transform(X), sqrt);
  }

  /** A column standardised with the column's own mean and scale (every cell
      z with z·scale = x - mean) that sums to 0 has population variance 1,
      wherever the column's variance v is not 0 and the square root is exact
      at v. */
  lemma {:induction false} FittedColumnUnitVariance(X: seq<Row>, n: nat, j: nat, Z: seq<Row>, sqrt: real -> NonNegReal)
    requires |X| > 0 && Rectangular(X, n)
    requires StandardizedColumn(X, n, j, ColumnMean(X, j), ColumnScale(X, j, sqrt), Z) && ColumnSum(Z, j) == 0.0
    requires var v := ColumnSquares(X, j, ColumnMean(X, j)) / |X| as real;
      v != 0.0 && sqrt(v) * sqrt(v) == v
    ensures ColumnMean(Z, j) == 0.0
    ensures ColumnSquares(Z, j, ColumnMean(Z, j)) / |X| as real == 1.0
  {
    ExactScale(X, j, sqrt);
    var s := ColumnScale(X, j, sqrt);
    StandardizedUnitVariance(X, n, j, Z, ColumnMean(X, j), s, s * s);
  }

  /** A column standardised with mean m and scale s (every cell z with
      z·s = x - m) that sums to 0 has mean 0, and it has population variance
      1 when the squared deviations of the original column from m add up to
      N·c over its N rows, where c = s·s is positive. */
  lemma {:induction false} StandardizedUnitVariance(X: seq<Row>, n: nat, j: nat, Z: seq<Row>, m: real, s: real, c: real)
    requires |X| > 0 && StandardizedColumn(X, n, j, m, s, Z) && c == s * s && c > 0.0
    requires ColumnSum(Z, j) == 0.0 && c * |X| as real == ColumnSquares(X, j, m)
    ensures ColumnMean(Z, j) == 0.0
    ensures ColumnSquares(Z, j, ColumnMean(Z, j)) / |X| as real == 1.0
  {
    StandardizedColumnSquares(X, n, j, m, s, c, Z);
    CancelFactor(ColumnSquares(Z, j, 0.0), c, |X| as real, ColumnSquares(X, j, m));
    ZeroSumMean(Z, j);
  }

  /** A column that sums to 0 has mean 0. */
  lemma ZeroSumMean(Z: seq<Row>, j: nat)
    requires |Z| > 0 && AllPresent(Z) && ColumnSum(Z, j) == 0.0
    ensures ColumnMean(Z, j) == 0.0
  {
  }

  /** A quotient by a nonzero divisor, times that divisor, is the dividend. */
  lemma QuotientTimesDivisor(q: real, a: real, s: real)
    requires s != 0.0 && q == a / s
    ensures q * s == a
  {
  }

  /** Two values that agree once multiplied by the same nonzero factor c are
      equal; here the second is the count N, so the first divided by N is 1. */
  lemma CancelFactor(a: real, c: real, N: real, b: real)
    requires c != 0.0 && N > 0.0
    requires a * c == b && c * N == b
    ensures a == N && a / N == 1.0
  {
    assert (a - N) * c == 0.0;
  }

  /** The square of a nonzero value is positive. */
  lemma SquarePositive(s: real)
    requires s != 0.0
    ensures s * s > 0.0
  {
  }


  /** A column whose every cell is c has mean c. */
  lemma {:induction false} ConstantColumnSum(X: seq<Row>, n: nat, j: nat, c: real)
    requires Rectangular(X, n) && j < n
    requires forall i :: 0 <= i < |X| ==> X[i].values[j] == c
    ensures ColumnSum(X, j) == |X| as real * c
  {
    if X != [] {
      ConstantColumnSum(X[..|X| - 1], n, j, c);
    }
  }

  /** Fitted on copies of one row x, the scaler maps x to all zeros. */
  lemma ConstantRowsStandardizeToZero(sc: StandardScaler, X: seq<Row>, x: seq<real>, sqrt: real -> NonNegReal)
    requires |X| > 0 && |x| > 0
    requires forall i :: 0 <= i < |X| ==> X[i] == Cells(x)
    requires |sc.mean| == |x| && |sc.scale| == |x|
    requires forall k :: 0 <= k < |x| ==> sc.mean[k] == ColumnMean(X, k) && sc.scale[k] == ColumnScale(X, k, sqrt)
    ensures sc.Transform([Cells(x)]) == [Cells(Zeros(|x|))]
  {
    assert Rectangular(X, |x|);
    forall k | 0 <= k < |x|
      ensures sc.mean[k] == x[k]
    {
      ConstantColumnSum(X, |x|, k, x[k]);
    }
    var r := sc.Transform([Cells(x)]);
    assert r[0].values == Zeros(|x|);
  }

  /** The coefficient solve `(XᵀX + αI)⁻¹ Xᵀ y` of mathjs, outside the model:
      given the matrix, the centred targets and alpha it gives the
      coefficients, or None where `inv` throws (a singular matrix). */
  type Solver = (seq<Row>, seq<real>, real) -> Option<seq<real>>

  /** `y.map(val => val - yMean)`. */
  function Centered(y: seq<real>): (c: seq<real>)
    requires |y| > 0
    ensures |c| == |y|
  {
    seq(|y|, i requires 0 <= i < |y| => y[i] - Mean(y))
  }

  /** The centred targets sum to 0, which is why the intercept can be the mean. */
  lemma CenteredSumsToZero(y: seq<real>)
    requires |y| > 0
    ensures Sum(Centered(y)) == 0.0
  {
    var c, m := Centered(y), Mean(y);
    forall i | 0 <= i < |y|
      ensures c[i] == 0.0 + 1.0 * (y[i] - m)
    {
      assert c[i] == y[i] - m;
    }
    SumAffine(y, c, m, 0.0, 1.0);
    var n := |y| as real;
    assert Sum(c) == n * 0.0 + 1.0 * (Sum(y) - n * m);
    MeanTimesLength(y);
  }

  /** `this.coefficients[i] || 0`: a coefficient past the end counts as 0. */
  function CoefAt(coef: seq<real>, i: nat): real
  {
    if i < |coef| then coef[i] else 0.0
  }

  /** Σ row[i] · coef[i] over the row's cells, from left to right. */
  function Dot(row: seq<real>, coef: seq<real>): real
  {
    if row == [] then 0.0 else Dot(row[..|row| - 1], coef) + row[|row| - 1] * CoefAt(coef, |row| - 1)
  }

  /** Without coefficients every row contributes nothing. */
  lemma {:induction false} DotNoCoefficients(row: seq<real>)
    ensures Dot(row, []) == 0.0
  {
    if row != [] {
      DotNoCoefficients(row[..|row| - 1]);
    }
  }

  /** An all-zero row contributes nothing. */
  lemma {:induction false} DotZeroRow(row: seq<real>, coef: seq<real>)
    requires forall i :: 0 <= i < |row| ==> row[i] == 0.0
    ensures Dot(row, coef) == 0.0
  {
    if row != [] {
      DotZeroRow(row[..|row| - 1], coef);
    }
  }

  /** `RidgeRegression`: coefficients over standardised features plus an
      intercept, fitted by centring the targets. */
  class RidgeRegression {
    var coefficients: seq<real>
    var intercept: real
    const alpha: real

    constructor (alpha: real)
      ensures coefficients == [] && intercept == 0.0 && this.alpha == alpha
    {
      coefficients := [];
      intercept := 0.0;
      this.alpha := alpha;
    }

    /** `fit`. An empty matrix, a missing first row or no targets leave the
        model as it was. Otherwise the targets are centred on their mean and
        handed with the matrix and alpha to the solve; when the solve throws
        (`ok` false) the model is unchanged, else the coefficients are the
        solve's result and the intercept is the mean of y. */
    method Fit(X: seq<Row>, y: seq<real>, solve: Solver) returns (ok: bool)
      modifies this
      ensures |X| == 0 || X[0].Absent? || |y| == 0 ==>
        ok && coefficients == old(coefficients) && intercept == old(intercept)
      ensures |X| > 0 && X[0].Cells? && |y| > 0 ==>
        && (ok <==> solve(X, Centered(y), alpha).Some?)
        && (ok ==> coefficients == solve(X, Centered(y), alpha).value
                   && intercept * |y| as real == Sum(y))
        && (!ok ==> coefficients == old(coefficients) && intercept == old(intercept))
    {
      if |X| == 0 || X[0].Absent? {
        return true;
      }
      if |y| == 0 {
        return true;
      }
      var yMean := Mean(y);
      var yCentered := Centered(y);
      var beta := solve(X, yCentered, alpha);
      if beta.None? {
        // `inv` throws on a singular matrix before any field is assigned.
        return false;
      }
      coefficients := beta.value;
      intercept := yMean;
      return true;
    }

    /** The prediction for one row: the intercept for a missing row, else the
        intercept plus the row's dot product with the coefficients. */
    function Prediction(row: Row): real
      reads this
    {
      match row
      case Absent => intercept
      case Cells(v) => intercept + Dot(v, coefficients)
    }

    /** `predict`: one prediction per row, [] for an empty matrix. */
    method Predict(X: seq<Row>) returns (ys: seq<real>)
      ensures |ys| == |X|
      ensures forall k :: 0 <= k < |X| ==> ys[k] == Prediction(X[k])
    {
      ys := [];
      for k := 0 to |X|
        invariant |ys| == k
        invariant forall k' :: 0 <= k' < k ==> ys[k'] == Prediction(X[k'])
      {
        if X[k].Absent? {
          ys := ys + [intercept];
        } else {
          var row := X[k].values;
          var sum := intercept;
          for i := 0 to |row|
            invariant sum == intercept + Dot(row[..i], coefficients)
          {
            assert row[..i + 1][..i] == row[..i];
            sum := sum + row[i] * CoefAt(coefficients, i);
          }
          assert row[..|row|] == row;
          ys := ys + [sum];
        }
      }
    }
  }

  /** A model that was never fitted predicts 0 for every row. */
  lemma UnfittedPredictsZero(m: RidgeRegression, row: Row)
    requires m.coefficients == [] && m.intercept == 0.0
    ensures m.Prediction(row) == 0.0
  {
    if row.Cells? {
      DotNoCoefficients(row.values);
    }
  }

  /** A row at the training means (all zeros once standardised) is predicted
      as the intercept, the mean target. */
  lemma ZeroRowPredictsIntercept(m: RidgeRegression, n: nat)
    ensures m.Prediction(Cells(Zeros(n))) == m.intercept
  {
    DotZeroRow(Zeros(n), m.coefficients);
  }

  // ---------------------------------------------------------------------------
  // normInv: Acklam's rational approximation of the inverse normal CDF.

  const PLow: real := 0.02425
  const PHigh: real := 1.0 - PLow

  /** a1..a6: numerator of the central region, a polynomial in r = q². */
  const CentralNumeratorCoefficients: seq<real> :=
    [-39.6968302866538, 220.946098424521, -275.928510446969,
     138.357751867269, -30.6647980661472, 2.50662827745924]
  /** b1..b5 and the constant 1: denominator of the central region. */
  const CentralDenominatorCoefficients: seq<real> :=
    [-54.4760987982241, 161.585836858041, -155.698979859887,
     66.8013118877197, -13.2806815528857, 1.0]
  /** c1..c6: numerator of the tails, a polynomial in q = sqrt(-2 ln p). */
  const TailNumeratorCoefficients: seq<real> :=
    [-0.00778489400243029, -0.322396458041136, -2.40075827716184,
     -2.54973253934373, 4.37466414146497, 2.93816398269878]
  /** d1..d4 and the constant 1: denominator of the tails. */
  const TailDenominatorCoefficients: seq<real> :=
    [0.00778469570904146, 0.32246712907004, 2.445134137143, 3.75440866190742, 1.0]

  /** Horner evaluation `((cs[0] * x + cs[1]) * x + ...) * x + cs[n-1]`, the
      shape in which the source writes every polynomial. */
  function Horner(cs: seq<real>, x: real): real
  {
    if cs == [] then 0.0 else Horner(cs[..|cs| - 1], x) * x + cs[|cs| - 1]
  }

  /** Horner evaluation of six coefficients, written out. */
  lemma HornerSix(cs: seq<real>, x: real)
    requires |cs| == 6
    ensures Horner(cs, x) == (((((cs[0] * x + cs[1]) * x + cs[2]) * x + cs[3]) * x + cs[4]) * x + cs[5])
  {
    assert cs[..5][..4] == cs[..4] && cs[..4][..3] == cs[..3];
    assert cs[..3][..2] == cs[..2] && cs[..2][..1] == cs[..1] && cs[..1][..0] == [];
    assert Horner(cs[..1], x) == cs[0];
    assert Horner(cs[..2], x) == cs[0] * x + cs[1];
    assert Horner(cs[..3], x) == (cs[0] * x + cs[1]) * x + cs[2];
    assert Horner(cs[..4], x) == ((cs[0] * x + cs[1]) * x + cs[2]) * x + cs[3];
    assert Horner(cs[..5], x) == (((cs[0] * x + cs[1]) * x + cs[2]) * x + cs[3]) * x + cs[4];
  }

  /** With non-negative coefficients and x, the polynomial is at least its
      constant term. */
  lemma {:induction false} HornerNonNegative(cs: seq<real>, x: real)
    requires 0.0 <= x && forall i :: 0 <= i < |cs| ==> 0.0 <= cs[i]
    ensures cs != [] ==> Horner(cs, x) >= cs[|cs| - 1]
    ensures Horner(cs, x) >= 0.0
  {
    if cs != [] {
      HornerNonNegative(cs[..|cs| - 1], x);
      assert Horner(cs[..|cs| - 1], x) * x >= 0.0;
    }
  }

  /** The central denominator is positive wherever the central region puts r. */
  lemma CentralDenominatorPositive(r: real)
    requires 0.0 <= r <= 0.2263380625
    ensures Horner(CentralDenominatorCoefficients, r) > 0.0
  {
    HornerSix(CentralDenominatorCoefficients, r);
  }

  /** The tail denominator is at least 1 for the non-negative q of a square root. */
  lemma TailDenominatorPositive(q: NonNegReal)
    ensures Horner(TailDenominatorCoefficients, q) >= 1.0
  {
    HornerNonNegative(TailDenominatorCoefficients, q);
  }

  lemma CentralSquareBound(q: real)
    requires -0.47575 <= q <= 0.47575
    ensures 0.0 <= q * q <= 0.2263380625
  {
    if q >= 0.0 {
      assert q * q <= 0.47575 * q <= 0.47575 * 0.47575;
    } else {
      assert q * q == (-q) * (-q) <= 0.47575 * (-q) <= 0.47575 * 0.47575;
    }
  }

  /** The central region's rational function of q = p - 1/2 (1/2 - 0.02425
      bounds |q|). */
  function Central(q: real): real
    requires -0.47575 <= q <= 0.47575
  {
    var r := q * q;
    CentralSquareBound(q);
    CentralDenominatorPositive(r);
    Horner(CentralNumeratorCoefficients, r) * q / Horner(CentralDenominatorCoefficients, r)
  }

  /** The lower tail's rational function of q = sqrt(-2 ln p). */
  function Tail(q: NonNegReal): real
  {
    TailDenominatorPositive(q);
    Horner(TailNumeratorCoefficients, q) / Horner(TailDenominatorCoefficients, q)
  }

  /** `normInv`. The square root and the natural logarithm of the tails are
      the parameters sqrt and ln. */
  function NormInv(p: real, sqrt: real -> NonNegReal, ln: real -> real): (z: real)
    ensures p == 0.5 ==> z == 0.0
  {
    if p < PLow then Tail(sqrt(-2.0 * ln(p)))
    else if p <= PHigh then Central(p - 0.5)
    else -Tail(sqrt(-2.0 * ln(1.0 - p)))
  }

  lemma NegatedQuotient(c: real, q: real, d: real)
    requires d != 0.0
    ensures c * (-q) / d == -(c * q / d)
  {
  }

  /** The central rational function is odd. */
  lemma CentralOdd(q: real)
    requires -0.47575 <= q <= 0.47575
    ensures Central(-q) == -Central(q)
  {
    var r := q * q;
    assert (-q) * (-q) == r;
    CentralSquareBound(q);
    CentralDenominatorPositive(r);
    NegatedQuotient(Horner(CentralNumeratorCoefficients, r), q, Horner(CentralDenominatorCoefficients, r));
  }

  /** The quantile function is odd around 1/2 on all three regions, whatever
      the square root and logarithm are: the upper tail is the negated lower
      tail at 1 - p, and the central region is odd in q = p - 1/2. */
  lemma NormInvSymmetry(p: real, sqrt: real -> NonNegReal, ln: real -> real)
    ensures NormInv(1.0 - p, sqrt, ln) == -NormInv(p, sqrt, ln)
  {
    assert 1.0 - (1.0 - p) == p;
    if PLow <= p <= PHigh {
      assert (1.0 - p) - 0.5 == -(p - 0.5);
      CentralOdd(p - 0.5);
    }
  }

  /** The two quantiles the engine uses: z(0.10) ≈ -1.28155 and z(0.90) = -z(0.10). */
  lemma NormInvDeciles(sqrt: real -> NonNegReal, ln: real -> real)
    ensures -1.2816 < NormInv(0.1, sqrt, ln) < -1.2815
    ensures NormInv(0.9, sqrt, ln) == -NormInv(0.1, sqrt, ln)
  {
    HornerSix(CentralNumeratorCoefficients, 0.16);
    HornerSix(CentralDenominatorCoefficients, 0.16);
    assert (0.1 - 0.5) * (0.1 - 0.5) == 0.16;
    NormInvSymmetry(0.1, sqrt, ln);
    assert 1.0 - 0.1 == 0.9;
  }
}
