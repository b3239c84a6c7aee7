/** Steps 5 to 7 of `processFiles` (services/processor.ts): the passes over
    the projection rows that fill in the consensus, V3 and the P10/P90 band,
    and the summary metrics. Each pass rewrites one column of the rows and
    leaves everything else as it was. */
module Ensemble {
  import opened Wrappers
  import opened Numeric
  import opened Calendar
  import opened Types
  import opened Smoothing

  /** The forecast columns of a `ProcessedRow`. */
  datatype Field = Federico | V2 | Consenso | V3 | P10 | P90

  function Get(r: ProcessedRow, f: Field): Option<real>
  {
    match f
    case Federico => r.gmFederico
    case V2 => r.gmV2
    case Consenso => r.gmConsenso
    case V3 => r.gmV3
    case P10 => r.gmP10
    case P90 => r.gmP90
  }

  function Set(r: ProcessedRow, f: Field, v: real): ProcessedRow
  {
    match f
    case Federico => r.(gmFederico := Some(v))
    case V2 => r.(gmV2 := Some(v))
    case Consenso => r.(gmConsenso := Some(v))
    case V3 => r.(gmV3 := Some(v))
    case P10 => r.(gmP10 := Some(v))
    case P90 => r.(gmP90 := Some(v))
  }

  /** Every row has a value in column f. */
  predicate Filled(rows: seq<ProcessedRow>, f: Field)
  {
    forall i :: 0 <= i < |rows| ==> Get(rows[i], f).Some?
  }

  /** `rows.map(r => r.f!)`. */
  function Column(rows: seq<ProcessedRow>, f: Field): (c: seq<real>)
    requires Filled(rows, f)
    ensures |c| == |rows|
  {
    seq(|rows|, i requires 0 <= i < |rows| => Get(rows[i], f).value)
  }

  /** The rows with column f replaced by col. */
  function WithColumn(rows: seq<ProcessedRow>, f: Field, col: seq<real>): (out: seq<ProcessedRow>)
    requires |col| == |rows|
    ensures |out| == |rows|
  {
    seq(|rows|, i requires 0 <= i < |rows| => Set(rows[i], f, col[i]))
  }

  /** `r.date.getFullYear()` of every row. */
  function Years(rows: seq<ProcessedRow>): (ys: seq<int>)
    ensures |ys| == |rows|
  {
    seq(|rows|, i requires 0 <= i < |rows| => rows[i].date.year)
  }

  /** Writing a column gives that column back, leaves every other column and
      the dates as they were, and a second write of the same column replaces
      the first. */
  lemma WithColumnFrame(rows: seq<ProcessedRow>, f: Field, col: seq<real>)
    requires |col| == |rows|
    ensures Filled(WithColumn(rows, f, col), f) && Column(WithColumn(rows, f, col), f) == col
    ensures forall g :: g != f && Filled(rows, g) ==>
      Filled(WithColumn(rows, f, col), g) && Column(WithColumn(rows, f, col), g) == Column(rows, g)
    ensures Years(WithColumn(rows, f, col)) == Years(rows)
    ensures forall col2 :: |col2| == |rows| ==> WithColumn(WithColumn(rows, f, col), f, col2) == WithColumn(rows, f, col2)
    ensures forall i :: 0 <= i < |rows| ==> WithColumn(rows, f, col)[i].date == rows[i].date
  {
  }

  /** Element-wise `a * wa + b * wb`. */
  function Blend(a: seq<real>, wa: real, b: seq<real>, wb: real): (r: seq<real>)
    requires |a| == |b|
    ensures |r| == |a|
  {
    seq(|a|, i requires 0 <= i < |a| => a[i] * wa + b[i] * wb)
  }

  /** A weighted mean of two values in [lo, hi] stays in [lo, hi]. */
  lemma WeightedBounds(x: real, y: real, wa: real, wb: real, lo: real, hi: real)
    requires 0.0 <= wa && 0.0 <= wb && wa + wb == 1.0
    requires lo <= x <= hi && lo <= y <= hi
    ensures lo <= x * wa + y * wb <= hi
  {
    ProductNonNegative(x - lo, wa);
    ProductNonNegative(y - lo, wb);
    ProductNonNegative(hi - x, wa);
    ProductNonNegative(hi - y, wb);
    assert (x - lo) * wa + (y - lo) * wb == x * wa + y * wb - lo * (wa + wb);
    assert (hi - x) * wa + (hi - y) * wb == hi * (wa + wb) - (x * wa + y * wb);
  }

  lemma ProductNonNegative(x: real, y: real)
    requires 0.0 <= x && 0.0 <= y
    ensures 0.0 <= x * y
  {
  }

  /** Weights that add up to 1 keep a blend within the range of both inputs,
      and blend a value with itself to that value. */
  lemma BlendBounds(a: seq<real>, wa: real, b: seq<real>, wb: real, lo: real, hi: real)
    requires |a| == |b| && 0.0 <= wa && 0.0 <= wb && wa + wb == 1.0
    requires forall i :: 0 <= i < |a| ==> lo <= a[i] <= hi && lo <= b[i] <= hi
    ensures forall i :: 0 <= i < |a| ==> lo <= Blend(a, wa, b, wb)[i] <= hi
    ensures forall i :: 0 <= i < |a| && a[i] == b[i] ==> Blend(a, wa, b, wb)[i] == a[i]
  {
    forall i | 0 <= i < |a|
      ensures lo <= Blend(a, wa, b, wb)[i] <= hi
    {
      WeightedBounds(a[i], b[i], wa, wb, lo, hi);
    }
    forall i | 0 <= i < |a| && a[i] == b[i]
      ensures Blend(a, wa, b, wb)[i] == a[i]
    {
      assert a[i] * wa + a[i] * wb == a[i] * (wa + wb);
    }
  }

  /** A `forEach` that sets `r.target = r.a! * wa + r.b! * wb`: the consensus
      base (0.50 previous forecast + 0.50 V2) and V3 (0.70 consensus + 0.30
      previous forecast). */
  method BlendInto(rows: seq<ProcessedRow>, target: Field, a: Field, wa: real, b: Field, wb: real)
    returns (out: seq<ProcessedRow>)
    requires Filled(rows, a) && Filled(rows, b)
    ensures out == WithColumn(rows, target, Blend(Column(rows, a), wa, Column(rows, b), wb))
  {
    ghost var blended := Blend(Column(rows, a), wa, Column(rows, b), wb);
    out := rows;
    for i := 0 to |rows|
      invariant |out| == |rows|
      invariant forall k :: 0 <= k < i ==> out[k] == Set(rows[k], target, blended[k])
      invariant forall k :: i <= k < |rows| ==> out[k] == rows[k]
    {
      var r := out[i];
      assert Get(r, a).value == Column(rows, a)[i] && Get(r, b).value == Column(rows, b)[i];
      assert blended[i] == Column(rows, a)[i] * wa + Column(rows, b)[i] * wb;
      assert r == rows[i];
      var v := Get(r, a).value * wa + Get(r, b).value * wb;
      assert v == blended[i];
      out := out[i := Set(r, target, v)];
      assert out[i] == Set(rows[i], target, blended[i]);
    }
  }

  /** The `forEach` that collects `indicesSmooth`. */
  method CollectReversionIndices(rows: seq<ProcessedRow>) returns (indices: seq<nat>)
    ensures indices == ReversionIndices(Years(rows))
  {
    var years := Years(rows);
    indices := [];
    for i := 0 to |rows|
      invariant indices == ReversionIndices(years[..i])
    {
      assert years[..i + 1][..i] == years[..i];
      var y := rows[i].date.year;
      if 2027 <= y <= 2030 {
        indices := indices + [i];
      }
    }
    assert years[..|rows|] == years;
  }

  /** `sumSmooth`: the `reduce` over `indicesSmooth` of the consensus values. */
  method SumSelected(rows: seq<ProcessedRow>, indices: seq<nat>) returns (sum: real)
    requires Filled(rows, Consenso)
    requires forall k :: 0 <= k < |indices| ==> indices[k] < |rows|
    ensures sum == Sum(Selected(Column(rows, Consenso), indices))
  {
    ghost var sel := Selected(Column(rows, Consenso), indices);
    sum := 0.0;
    for k := 0 to |indices|
      invariant sum == Sum(sel[..k])
    {
      assert sel[..k + 1] == sel[..k] + [sel[k]];
      SumSnoc(sel[..k], sel[k]);
      sum := sum + rows[indices[k]].gmConsenso.value;
    }
    assert sel[..|indices|] == sel;
  }

  /** The `forEach` over `indicesSmooth` that moves each consensus value to
      `avgSmooth + deviation * 0.85`. */
  method PullTowardMean(rows: seq<ProcessedRow>, indices: seq<nat>, avgSmooth: real)
    returns (out: seq<ProcessedRow>)
    requires Filled(rows, Consenso)
    requires forall k :: 0 <= k < |indices| ==> indices[k] < |rows|
    requires forall a, b :: 0 <= a < b < |indices| ==> indices[a] < indices[b]
    ensures |out| == |rows|
    ensures forall i :: 0 <= i < |rows| ==>
      out[i] == if i in indices then Set(rows[i], Consenso, avgSmooth + (rows[i].gmConsenso.value - avgSmooth) * 0.85)
                else rows[i]
  {
    out := rows;
    for k := 0 to |indices|
      invariant |out| == |rows|
      invariant forall i :: 0 <= i < |rows| ==>
        out[i] == if i in indices[..k] then Set(rows[i], Consenso, avgSmooth + (rows[i].gmConsenso.value - avgSmooth) * 0.85)
                  else rows[i]
    {
      var idx := indices[k];
      assert idx !in indices[..k];
      var val := out[idx].gmConsenso.value;
      var deviation := val - avgSmooth;
      out := out[idx := out[idx].(gmConsenso := Some(avgSmooth + deviation * 0.85))];
      assert indices[..k + 1] == indices[..k] + [idx];
    }
    assert indices[..|indices|] == indices;
  }

  /** The mean-reversion pass on the consensus: collect `indicesSmooth`, add
      up their consensus values, and pull each of them toward their mean. */
  method RevertConsensus(rows: seq<ProcessedRow>) returns (out: seq<ProcessedRow>)
    requires Filled(rows, Consenso)
    ensures out == WithColumn(rows, Consenso, RevertToMean(Column(rows, Consenso), Years(rows)))
  {
    var indices := CollectReversionIndices(rows);
    if |indices| == 0 {
      out := rows;
      assert out == WithColumn(rows, Consenso, Column(rows, Consenso));
      return;
    }
    var sumSmooth := SumSelected(rows, indices);
    var avgSmooth := sumSmooth / |indices| as real;
    out := PullTowardMean(rows, indices, avgSmooth);
    PulledIsReverted(rows, indices, avgSmooth, out);
  }

  /** Pulling the consensus values at the reversion indices toward their mean
      is the mean-reversion step on the consensus column. */
  lemma PulledIsReverted(rows: seq<ProcessedRow>, indices: seq<nat>, avg: real, out: seq<ProcessedRow>)
    requires Filled(rows, Consenso)
    requires indices == ReversionIndices(Years(rows)) && |indices| > 0
    requires avg == Sum(Selected(Column(rows, Consenso), indices)) / |indices| as real
    requires |out| == |rows|
    requires forall i :: 0 <= i < |rows| ==>
      out[i] == if i in indices then Set(rows[i], Consenso, avg + (rows[i].gmConsenso.value - avg) * 0.85)
                else rows[i]
    ensures out == WithColumn(rows, Consenso, RevertToMean(Column(rows, Consenso), Years(rows)))
  {
    var vals := Column(rows, Consenso);
    var reverted := RevertToMean(vals, Years(rows));
    assert avg == Mean(Selected(vals, indices));
    forall i | 0 <= i < |rows|
      ensures out[i] == Set(rows[i], Consenso, reverted[i])
    {
      assert i in indices <==> InReversionWindow(Years(rows)[i]);
    }
  }

  /** `movingAverage3(rows.map(r => r.f!))` written back into column f. */
  method SmoothColumn(rows: seq<ProcessedRow>, f: Field) returns (out: seq<ProcessedRow>)
    requires Filled(rows, f)
    ensures out == WithColumn(rows, f, MovingAverage(Column(rows, f)))
  {
    var smoothed := MovingAverage3(Column(rows, f));
    out := rows;
    for i := 0 to |rows|
      invariant |out| == |rows|
      invariant forall k :: 0 <= k < i ==> out[k] == Set(rows[k], f, smoothed[k])
      invariant forall k :: i <= k < |rows| ==> out[k] == rows[k]
    {
      out := out[i := Set(out[i], f, smoothed[i])];
    }
  }

  /** `volFinal` for the row at position i: V3 times a mix of the historical
      volatility and the relative gap between the previous forecast and the
      consensus (over V3, or over 1 where V3 is 0), damped by 0.85 and grown
      with the square root of the horizon in years. */
  function BandWidth(v3: real, fed: real, cons: real, volatility: real, i: nat,
                     sqrt: real -> NonNegReal): (w: real)
    ensures 0.0 < v3 && 0.0 <= volatility ==> w >= 0.0
  {
    var uncertainty := Abs(fed - cons) / (if v3 == 0.0 then 1.0 else v3);
    var volBase := v3 * (volatility * 0.35 + uncertainty * 0.65) * 0.85;
    var t := sqrt((i + 1) as real / 12.0);
    assert 0.0 < v3 && 0.0 <= volatility ==> uncertainty >= 0.0 && volBase >= 0.0 && volBase * t >= 0.0;
    volBase * t
  }

  /** P10 of the row at position i: V3 plus z10 band widths, floored at 150. */
  function LowerValue(v3: real, fed: real, cons: real, volatility: real, i: nat, z10: real,
                      sqrt: real -> NonNegReal): (p: real)
    ensures 150.0 <= p
    ensures p >= v3 + z10 * BandWidth(v3, fed, cons, volatility, i, sqrt)
  {
    Max(150.0, v3 + z10 * BandWidth(v3, fed, cons, volatility, i, sqrt))
  }

  /** P90 of the row at position i: V3 plus z90 band widths, capped at 1500. */
  function UpperValue(v3: real, fed: real, cons: real, volatility: real, i: nat, z90: real,
                      sqrt: real -> NonNegReal): (p: real)
    ensures p <= 1500.0
    ensures p <= v3 + z90 * BandWidth(v3, fed, cons, volatility, i, sqrt)
  {
    Min(1500.0, v3 + z90 * BandWidth(v3, fed, cons, volatility, i, sqrt))
  }

  /** P10 of every row: never below the floor of 150. */
  function LowerBand(v3: seq<real>, fed: seq<real>, cons: seq<real>, volatility: real, z10: real,
                     sqrt: real -> NonNegReal): (p: seq<real>)
    requires |fed| == |v3| && |cons| == |v3|
    ensures |p| == |v3|
    ensures forall i :: 0 <= i < |v3| ==>
      p[i] == LowerValue(v3[i], fed[i], cons[i], volatility, i, z10, sqrt) && 150.0 <= p[i]
  {
    seq(|v3|, i requires 0 <= i < |v3| =>
      LowerValue(v3[i], fed[i], cons[i], volatility, i, z10, sqrt))
  }

  /** P90 of every row: never above the cap of 1500. */
  function UpperBand(v3: seq<real>, fed: seq<real>, cons: seq<real>, volatility: real, z90: real,
                     sqrt: real -> NonNegReal): (p: seq<real>)
    requires |fed| == |v3| && |cons| == |v3|
    ensures |p| == |v3|
    ensures forall i :: 0 <= i < |v3| ==>
      p[i] == UpperValue(v3[i], fed[i], cons[i], volatility, i, z90, sqrt) && p[i] <= 1500.0
  {
    seq(|v3|, i requires 0 <= i < |v3| =>
      UpperValue(v3[i], fed[i], cons[i], volatility, i, z90, sqrt))
  }

  /** The body of the confidence-interval `forEach` for the row at position
      i: its P10 and P90. */
  method BandValues(v3: real, fed: real, cons: real, volatility: real, i: nat, z10: real, z90: real,
                    sqrt: real -> NonNegReal) returns (p10: real, p90: real)
    ensures p10 == LowerValue(v3, fed, cons, volatility, i, z10, sqrt)
    ensures p90 == UpperValue(v3, fed, cons, volatility, i, z90, sqrt)
  {
    var diff := Abs(fed - cons);
    var uncertainty := diff / (if v3 == 0.0 then 1.0 else v3);
    var volBase := v3 * (volatility * 0.35 + uncertainty * 0.65) * 0.85;
    var monthsHorizon := i + 1;
    var timeFactor := sqrt(monthsHorizon as real / 12.0);
    var volFinal := volBase * timeFactor;
    p10 := Max(150.0, v3 + z10 * volFinal);
    p90 := Min(1500.0, v3 + z90 * volFinal);
  }

  /** The confidence-interval `forEach`. */
  method ConfidenceBands(rows: seq<ProcessedRow>, volatility: real, z10: real, z90: real,
                         sqrt: real -> NonNegReal) returns (out: seq<ProcessedRow>)
    requires Filled(rows, Federico) && Filled(rows, Consenso) && Filled(rows, V3)
    ensures out == WithColumn(
      WithColumn(rows, P10, LowerBand(Column(rows, V3), Column(rows, Federico), Column(rows, Consenso), volatility, z10, sqrt)),
      P90, UpperBand(Column(rows, V3), Column(rows, Federico), Column(rows, Consenso), volatility, z90, sqrt))
  {
    ghost var lower := LowerBand(Column(rows, V3), Column(rows, Federico), Column(rows, Consenso), volatility, z10, sqrt);
    ghost var upper := UpperBand(Column(rows, V3), Column(rows, Federico), Column(rows, Consenso), volatility, z90, sqrt);
    out := rows;
    for i := 0 to |rows|
      invariant |out| == |rows|
      invariant forall k :: 0 <= k < i ==> out[k] == rows[k].(gmP10 := Some(lower[k]), gmP90 := Some(upper[k]))
      invariant forall k :: i <= k < |rows| ==> out[k] == rows[k]
    {
      var r := out[i];
      var p10, p90 := BandValues(r.gmV3.value, r.gmFederico.value, r.gmConsenso.value, volatility, i, z10, z90, sqrt);
      assert p10 == lower[i] && p90 == upper[i];
      out := out[i := r.(gmP10 := Some(p10), gmP90 := Some(p90))];
    }
    ghost var expected := WithColumn(WithColumn(rows, P10, lower), P90, upper);
    assert forall k :: 0 <= k < |rows| ==> out[k] == expected[k];
  }

  /** The band brackets V3 (P10 <= V3 <= P90) when V3 lies within the floor
      and the cap, the volatility is not negative and the two quantiles lie
      on either side of 0. */
  lemma BandBracketsV3(v3: real, fed: real, cons: real, volatility: real, i: nat,
                       z10: real, z90: real, sqrt: real -> NonNegReal)
    requires 150.0 <= v3 <= 1500.0 && 0.0 <= volatility && z10 <= 0.0 <= z90
    ensures LowerValue(v3, fed, cons, volatility, i, z10, sqrt) <= v3
    ensures v3 <= UpperValue(v3, fed, cons, volatility, i, z90, sqrt)
  {
    var w := BandWidth(v3, fed, cons, volatility, i, sqrt);
    assert z10 * w <= 0.0;
    assert z90 * w >= 0.0;
  }

  /** Below the floor the band no longer brackets V3: P10 is 150, above V3. */
  lemma FloorAboveLowForecast(v3: real, fed: real, cons: real, volatility: real, i: nat,
                              z10: real, sqrt: real -> NonNegReal)
    requires v3 < 150.0
    ensures LowerValue(v3, fed, cons, volatility, i, z10, sqrt) > v3
  {
  }

  /** The metrics: the mean of each forecast column, and the percent by which
      the mean V3 exceeds the mean previous forecast (None where the latter is
      0 and the source divides by zero). */
  function MetricsOf(rows: seq<ProcessedRow>): (m: Metrics)
    requires |rows| > 0
    requires Filled(rows, V2) && Filled(rows, Federico) && Filled(rows, Consenso) && Filled(rows, V3)
    ensures |rows| as real * m.v2Mean == Sum(Column(rows, V2))
    ensures |rows| as real * m.federicoMean == Sum(Column(rows, Federico))
    ensures |rows| as real * m.consensoMean == Sum(Column(rows, Consenso))
    ensures |rows| as real * m.v3Mean == Sum(Column(rows, V3))
    ensures m.diffV3FedericoPercent.Some? <==> m.federicoMean != 0.0
    ensures m.diffV3FedericoPercent.Some? ==>
      m.diffV3FedericoPercent.value * m.federicoMean == 100.0 * (m.v3Mean - m.federicoMean)
  {
    MeanTimesLength(Column(rows, V2));
    MeanTimesLength(Column(rows, Federico));
    MeanTimesLength(Column(rows, Consenso));
    MeanTimesLength(Column(rows, V3));
    var meanFed := Mean(Column(rows, Federico));
    var meanV3 := Mean(Column(rows, V3));
    Metrics(
      Mean(Column(rows, V2)), meanFed, Mean(Column(rows, Consenso)), meanV3,
      if meanFed == 0.0 then None else Some((meanV3 - meanFed) / meanFed * 100.0))
  }

  /** For a positive mean previous forecast the percent difference is positive
      exactly when the mean V3 is above it, and 0 exactly when they agree. */
  lemma MetricsPercentSign(rows: seq<ProcessedRow>)
    requires |rows| > 0
    requires Filled(rows, V2) && Filled(rows, Federico) && Filled(rows, Consenso) && Filled(rows, V3)
    requires Mean(Column(rows, Federico)) > 0.0
    ensures MetricsOf(rows).diffV3FedericoPercent.Some?
    ensures MetricsOf(rows).diffV3FedericoPercent.value > 0.0 <==> MetricsOf(rows).v3Mean > MetricsOf(rows).federicoMean
    ensures MetricsOf(rows).diffV3FedericoPercent.value == 0.0 <==> MetricsOf(rows).v3Mean == MetricsOf(rows).federicoMean
  {
    var f := Mean(Column(rows, Federico));
    var v := Mean(Column(rows, V3));
    var d := (v - f) / f;
    assert d * f == v - f;
    assert d > 0.0 <==> v - f > 0.0;
  }
}
