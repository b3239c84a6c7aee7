/** `processFiles` (services/processor.ts) on rows already read from the four
    spreadsheets: align the history, train the models, project V2 from
    January 2026 on, run the ensemble passes and summarise. */
module Processor {
  import opened Wrappers
  import opened Numeric
  import opened Calendar
  import opened MathUtils
  import opened Types
  import opened RowTransform
  import opened Smoothing
  import opened Alignment
  import opened Training
  import opened Ensemble

  const V2Floor := 180.0
  const V2Ceiling := 900.0

  /** A used projection row before prediction: `transformRow` with a dummy
      target of 0, and the previous forecast for its month. */
  function PreparedRow(row: ExogenousRow, prev: map<string, Option<real>>): ProcessedRow
    requires Projects(row)
  {
    var d := ProjectionDate(row).value;
    TransformRow(d, 0.0, row).(gmFederico := Some(UserForecast(prev, MonthKey(d))))
  }

  /** The prepared rows of every used projection row, in file order. */
  function Prepared(rows: seq<ExogenousRow>, prev: map<string, Option<real>>): (p: seq<ProcessedRow>)
    ensures |p| == |ProjectedRows(rows)|
  {
    var used := ProjectedRows(rows);
    ProjectedRowsExact(rows);
    seq(|used|, k requires 0 <= k < |used| => PreparedRow(used[k], prev))
  }

  /** `gm_v2`: 0.70 times the phase prediction plus 0.30 times the general
      prediction, clipped to [180, 900]. */
  function V2Forecast(ms: Models, r: ProcessedRow): (v: real)
    reads ModelObjects(ms)
    ensures V2Floor <= v <= V2Ceiling
    ensures var x := Features(r);
      var blend := 0.70 * PhasePrediction(ms, r.fase, x) + 0.30 * PredictWith(ms.general, x);
      V2Floor <= blend <= V2Ceiling ==> v == blend
  {
    var x := Features(r);
    Clip(0.70 * PhasePrediction(ms, r.fase, x) + 0.30 * PredictWith(ms.general, x), V2Floor, V2Ceiling)
  }

  /** The projection row a used projection row becomes. */
  function ProjectRow(row: ExogenousRow, prev: map<string, Option<real>>, ms: Models): ProcessedRow
    requires Projects(row)
    reads ModelObjects(ms)
  {
    var p := PreparedRow(row, prev);
    p.(gmV2 := Some(V2Forecast(ms, p)))
  }

  /** `projectionRows` after the projection `forEach`. */
  function Projection(rows: seq<ExogenousRow>, prev: map<string, Option<real>>, ms: Models): seq<ProcessedRow>
    reads ModelObjects(ms)
  {
    if rows == [] then []
    else
      var n := |rows| - 1;
      Projection(rows[..n], prev, ms) + (if Projects(rows[n]) then [ProjectRow(rows[n], prev, ms)] else [])
  }

  /** The two predictions for a prepared row and their clipped blend; the
      general model stands in for a phase without a model of its own. */
  method PredictV2(ms: Models, r: ProcessedRow) returns (v: real)
    ensures v == V2Forecast(ms, r)
  {
    var x := Features(r);
    var predFase := 0.0;
    if r.fase in ms.byPhase {
      predFase := PredictOne(ms.byPhase[r.fase], x);
    } else {
      predFase := PredictOne(ms.general, x);
    }
    var predGeneral := PredictOne(ms.general, x);
    v := 0.70 * predFase + 0.30 * predGeneral;
    v := Max(V2Floor, Min(V2Ceiling, v));
  }

  /** One pass of the projection `forEach`: the date from `Mes_Año` or
      `Fecha`; nothing for a row whose date does not parse or lies before
      January 2026; otherwise the transformed row, the user's forecast for
      its month and V2. */
  method ProjectOne(row: ExogenousRow, prev: map<string, Option<real>>, ms: Models)
    returns (r: Option<ProcessedRow>)
    ensures r == if Projects(row) then Some(ProjectRow(row, prev, ms)) else None
  {
    var d: Option<YearMonth>;
    match row.mesAno {
      case MesAno(parsed) => d := parsed;
      case NoMesAno => d := row.fecha;
    }
    if d.None? || Before(d.value, ProjectionStart) {
      return None;
    }
    var procRow := TransformRow(d.value, 0.0, row);
    var key := MonthKey(d.value);
    var fed := 0.0;
    if key in prev {
      fed := prev[key].GetOr(0.0);
    }
    procRow := procRow.(gmFederico := Some(fed));
    var forecast := PredictV2(ms, procRow);
    return Some(procRow.(gmV2 := Some(forecast)));
  }

  /** The projection `forEach` over every projection row. */
  method BuildProjection(exogProj: seq<ExogenousRow>, prev: map<string, Option<real>>, ms: Models)
    returns (out: seq<ProcessedRow>)
    ensures out == Projection(exogProj, prev, ms)
  {
    out := [];
    for i := 0 to |exogProj|
      invariant out == Projection(exogProj[..i], prev, ms)
    {
      label step:
      var r := ProjectOne(exogProj[i], prev, ms);
      assert unchanged@step(ModelObjects(ms));
      if r.Some? {
        out := out + [r.value];
      }
      assert exogProj[..i + 1][..i] == exogProj[..i];
      assert out == Projection(exogProj[..i], prev, ms) + (if Projects(exogProj[i]) then [ProjectRow(exogProj[i], prev, ms)] else []);
    }
    assert exogProj[..|exogProj|] == exogProj;
  }

  /** Position k of the projection is the k-th used projection row. */
  lemma {:induction false} ProjectionRows(rows: seq<ExogenousRow>, prev: map<string, Option<real>>, ms: Models)
    ensures |Projection(rows, prev, ms)| == |ProjectedRows(rows)|
    ensures forall k :: 0 <= k < |ProjectedRows(rows)| ==>
      Projects(ProjectedRows(rows)[k]) && Projection(rows, prev, ms)[k] == ProjectRow(ProjectedRows(rows)[k], prev, ms)
  {
    if rows != [] {
      var n := |rows| - 1;
      ProjectionRows(rows[..n], prev, ms);
      var proj, used := Projection(rows[..n], prev, ms), ProjectedRows(rows[..n]);
      if Projects(rows[n]) {
        assert Projection(rows, prev, ms) == proj + [ProjectRow(rows[n], prev, ms)];
        assert ProjectedRows(rows) == used + [rows[n]];
      } else {
        assert Projection(rows, prev, ms) == proj;
        assert ProjectedRows(rows) == used;
      }
    }
  }

  /** A projection row keeps its month (January 2026 or later), has a target
      of 0 and the user's forecast for its month, and its V2 lies in
      [180, 900]; a phase without a model of its own gets the clipped general
      prediction. */
  lemma ProjectRowSpec(row: ExogenousRow, prev: map<string, Option<real>>, ms: Models)
    requires Projects(row)
    ensures var r := ProjectRow(row, prev, ms);
      && r.date == ProjectionDate(row).value
      && !Before(r.date, ProjectionStart)
      && r.gmReal == 0.0
      && r.gmFederico == Some(UserForecast(prev, MonthKey(r.date)))
      && r.gmV2.Some? && V2Floor <= r.gmV2.value <= V2Ceiling
      && (r.fase !in ms.byPhase ==>
            r.gmV2.value == Clip(PredictWith(ms.general, Features(r)), V2Floor, V2Ceiling))
  {
    var r := ProjectRow(row, prev, ms);
    var g := PredictWith(ms.general, Features(r));
    assert 0.70 * g + 0.30 * g == g;
  }

  /** The projection is the prepared rows with a V2 column that lies in
      [180, 900]. */
  lemma ProjectionSplit(rows: seq<ExogenousRow>, prev: map<string, Option<real>>, ms: Models)
    ensures var proj := Projection(rows, prev, ms);
      && |proj| == |Prepared(rows, prev)|
      && Filled(proj, V2) && Filled(proj, Federico)
      && (forall k :: 0 <= k < |proj| ==> V2Floor <= Column(proj, V2)[k] <= V2Ceiling)
      && proj == WithColumn(Prepared(rows, prev), V2, Column(proj, V2))
  {
    var proj := Projection(rows, prev, ms);
    ProjectionRows(rows, prev, ms);
    forall k | 0 <= k < |proj|
      ensures proj[k].gmV2.Some? && V2Floor <= proj[k].gmV2.value <= V2Ceiling && proj[k].gmFederico.Some?
    {
      ProjectRowSpec(ProjectedRows(rows)[k], prev, ms);
    }
  }

  /** Every projection row has V2 and the previous forecast. */
  lemma ProjectionFilled(rows: seq<ExogenousRow>, prev: map<string, Option<real>>, ms: Models)
    ensures Filled(Projection(rows, prev, ms), Federico) && Filled(Projection(rows, prev, ms), V2)
  {
    ProjectionSplit(rows, prev, ms);
  }

  /** The historical targets' squared deviations from m. */
  function SquaredDeviations(y: seq<real>, m: real): seq<real>
  {
    seq(|y|, i requires 0 <= i < |y| => (y[i] - m) * (y[i] - m))
  }

  /** `volatilityHist`: the population standard deviation of the historical
      targets over their mean. */
  function Volatility(hist: seq<ProcessedRow>, sqrt: real -> NonNegReal): (v: real)
    requires |hist| > 0 && Mean(Targets(hist)) != 0.0
    ensures Mean(Targets(hist)) > 0.0 ==> v >= 0.0
  {
    var y := Targets(hist);
    var m := Mean(y);
    sqrt(Sum(SquaredDeviations(y, m)) / |y| as real) / m
  }

  /** The consensus column: the 50/50 blend of previous forecast and V2,
      pulled toward its 2027-2030 mean, then smoothed. */
  function ConsensusOf(fed: seq<real>, v2: seq<real>, years: seq<int>): (c: seq<real>)
    requires |v2| == |fed| && |years| == |fed|
    ensures |c| == |fed|
  {
    MovingAverage(RevertToMean(Blend(fed, 0.50, v2, 0.50), years))
  }

  /** The V3 column: the 70/30 blend of consensus and previous forecast,
      smoothed. */
  function V3Of(cons: seq<real>, fed: seq<real>): (v: seq<real>)
    requires |cons| == |fed|
    ensures |v| == |fed|
  {
    MovingAverage(Blend(cons, 0.70, fed, 0.30))
  }

  /** The projection rows with their consensus and V3 columns filled. */
  function Blended(base: seq<ProcessedRow>): (b: seq<ProcessedRow>)
    requires Filled(base, Federico) && Filled(base, V2)
    ensures |b| == |base|
  {
    var fed := Column(base, Federico);
    var cons := ConsensusOf(fed, Column(base, V2), Years(base));
    WithColumn(WithColumn(base, Consenso, cons), V3, V3Of(cons, fed))
  }

  /** The rows the ensemble passes turn projection rows into: the blended
      rows with the band around V3. */
  function EnsembleOf(base: seq<ProcessedRow>, volatility: real, z10: real, z90: real,
                      sqrt: real -> NonNegReal): (e: seq<ProcessedRow>)
    requires Filled(base, Federico) && Filled(base, V2)
    ensures |e| == |base|
  {
    var fed := Column(base, Federico);
    var cons := ConsensusOf(fed, Column(base, V2), Years(base));
    var v3 := V3Of(cons, fed);
    WithColumn(
      WithColumn(Blended(base), P10, LowerBand(v3, fed, cons, volatility, z10, sqrt)),
      P90, UpperBand(v3, fed, cons, volatility, z90, sqrt))
  }

  /** Blending keeps the previous forecast, V2 and the dates, and fills the
      consensus and V3 with the columns that define them. */
  lemma BlendedColumns(base: seq<ProcessedRow>)
    requires Filled(base, Federico) && Filled(base, V2)
    ensures var b := Blended(base);
      var fed := Column(base, Federico);
      var cons := ConsensusOf(fed, Column(base, V2), Years(base));
      && Filled(b, Federico) && Filled(b, V2) && Filled(b, Consenso) && Filled(b, V3)
      && Column(b, Federico) == fed && Column(b, V2) == Column(base, V2)
      && Column(b, Consenso) == cons && Column(b, V3) == V3Of(cons, fed)
      && Years(b) == Years(base)
  {
    var fed := Column(base, Federico);
    var cons := ConsensusOf(fed, Column(base, V2), Years(base));
    var r1 := WithColumn(base, Consenso, cons);
    WithColumnFrame(base, Consenso, cons);
    WithColumnFrame(r1, V3, V3Of(cons, fed));
  }

  /** The ensemble keeps the previous forecast, V2 and the dates, and fills
      the consensus, V3 and the band with the columns that define them. */
  lemma EnsembleColumns(base: seq<ProcessedRow>, volatility: real, z10: real, z90: real,
                        sqrt: real -> NonNegReal)
    requires Filled(base, Federico) && Filled(base, V2)
    ensures var e := EnsembleOf(base, volatility, z10, z90, sqrt);
      var fed := Column(base, Federico);
      var cons := ConsensusOf(fed, Column(base, V2), Years(base));
      var v3 := V3Of(cons, fed);
      && |e| == |base|
      && Filled(e, Federico) && Filled(e, V2) && Filled(e, Consenso) && Filled(e, V3)
      && Filled(e, P10) && Filled(e, P90)
      && Column(e, Federico) == fed && Column(e, V2) == Column(base, V2)
      && Column(e, Consenso) == cons && Column(e, V3) == v3
      && Column(e, P10) == LowerBand(v3, fed, cons, volatility, z10, sqrt)
      && Column(e, P90) == UpperBand(v3, fed, cons, volatility, z90, sqrt)
      && Years(e) == Years(base)
  {
    var fed := Column(base, Federico);
    var cons := ConsensusOf(fed, Column(base, V2), Years(base));
    var v3 := V3Of(cons, fed);
    var b := Blended(base);
    BlendedColumns(base);
    var lower := LowerBand(v3, fed, cons, volatility, z10, sqrt);
    WithColumnFrame(b, P10, lower);
    var upper := UpperBand(v3, fed, cons, volatility, z90, sqrt);
    WithColumnFrame(WithColumn(b, P10, lower), P90, upper);
  }

  /** Step 5: the 50/50 blend of previous forecast and V2 into the consensus,
      its mean reversion and its smoothing. */
  method ConsensusPass(proj: seq<ProcessedRow>) returns (rows: seq<ProcessedRow>)
    requires Filled(proj, Federico) && Filled(proj, V2)
    ensures rows == WithColumn(proj, Consenso, ConsensusOf(Column(proj, Federico), Column(proj, V2), Years(proj)))
  {
    var blended := BlendInto(proj, Consenso, Federico, 0.50, V2, 0.50);
    WithColumnFrame(proj, Consenso, Blend(Column(proj, Federico), 0.50, Column(proj, V2), 0.50));
    var reverted := RevertConsensus(blended);
    WithColumnFrame(blended, Consenso, RevertToMean(Column(blended, Consenso), Years(blended)));
    rows := SmoothColumn(reverted, Consenso);
    WithColumnFrame(reverted, Consenso, MovingAverage(Column(reverted, Consenso)));
  }

  /** Step 6: the 70/30 blend of consensus and previous forecast into V3, and
      its smoothing. */
  method V3Pass(rows: seq<ProcessedRow>) returns (out: seq<ProcessedRow>)
    requires Filled(rows, Consenso) && Filled(rows, Federico)
    ensures out == WithColumn(rows, V3, V3Of(Column(rows, Consenso), Column(rows, Federico)))
  {
    var blended := BlendInto(rows, V3, Consenso, 0.70, Federico, 0.30);
    WithColumnFrame(rows, V3, Blend(Column(rows, Consenso), 0.70, Column(rows, Federico), 0.30));
    out := SmoothColumn(blended, V3);
    WithColumnFrame(blended, V3, MovingAverage(Column(blended, V3)));
  }

  /** Steps 5 to 7 in order: consensus, V3, band. */
  method RunEnsemble(proj: seq<ProcessedRow>, volatility: real, z10: real, z90: real,
                     sqrt: real -> NonNegReal) returns (fc: seq<ProcessedRow>)
    requires Filled(proj, Federico) && Filled(proj, V2)
    ensures fc == EnsembleOf(proj, volatility, z10, z90, sqrt)
  {
    var fed := Column(proj, Federico);
    var cons := ConsensusOf(fed, Column(proj, V2), Years(proj));
    var rows := ConsensusPass(proj);
    WithColumnFrame(proj, Consenso, cons);
    var rows2 := V3Pass(rows);
    assert rows2 == Blended(proj);
    BlendedColumns(proj);
    fc := ConfidenceBands(rows2, volatility, z10, z90, sqrt);
  }

  /** With previous forecasts and V2 all within [lo, hi], the consensus and
      V3 stay within [lo, hi]. */
  lemma EnsembleWithinInputRange(fed: seq<real>, v2: seq<real>, years: seq<int>, lo: real, hi: real)
    requires |v2| == |fed| && |years| == |fed|
    requires forall i :: 0 <= i < |fed| ==> lo <= fed[i] <= hi && lo <= v2[i] <= hi
    ensures forall i :: 0 <= i < |fed| ==> lo <= ConsensusOf(fed, v2, years)[i] <= hi
    ensures forall i :: 0 <= i < |fed| ==> lo <= V3Of(ConsensusOf(fed, v2, years), fed)[i] <= hi
  {
    var base := Blend(fed, 0.50, v2, 0.50);
    BlendBounds(fed, 0.50, v2, 0.50, lo, hi);
    RevertBounds(base, years, lo, hi);
    MovingAverageBounds(RevertToMean(base, years), lo, hi);
    var cons := ConsensusOf(fed, v2, years);
    BlendBounds(cons, 0.70, fed, 0.30, lo, hi);
    MovingAverageBounds(Blend(cons, 0.70, fed, 0.30), lo, hi);
  }

  /** When the previous forecast and V2 agree on one constant value, the
      consensus and V3 are that value everywhere. */
  lemma EnsembleConstant(fed: seq<real>, v2: seq<real>, years: seq<int>, c: real)
    requires |v2| == |fed| && |years| == |fed|
    requires forall i :: 0 <= i < |fed| ==> fed[i] == c && v2[i] == c
    ensures ConsensusOf(fed, v2, years) == fed
    ensures V3Of(ConsensusOf(fed, v2, years), fed) == fed
  {
    var base := Blend(fed, 0.50, v2, 0.50);
    BlendBounds(fed, 0.50, v2, 0.50, c, c);
    RevertConstant(base, years, c);
    MovingAverageConstant(base, c);
    assert base == fed;
    BlendBounds(fed, 0.70, fed, 0.30, c, c);
    MovingAverageConstant(Blend(fed, 0.70, fed, 0.30), c);
  }

  /** With previous forecasts and V2 in [180, 900], a volatility that is not
      negative and z10 <= 0 <= z90, the band around every V3 value brackets it. */
  lemma BandColumnsBracket(fed: seq<real>, v2: seq<real>, years: seq<int>, volatility: real,
                           z10: real, z90: real, sqrt: real -> NonNegReal)
    requires |v2| == |fed| && |years| == |fed|
    requires forall i :: 0 <= i < |fed| ==> V2Floor <= fed[i] <= V2Ceiling && V2Floor <= v2[i] <= V2Ceiling
    requires 0.0 <= volatility && z10 <= 0.0 <= z90
    ensures var cons := ConsensusOf(fed, v2, years);
      var v3 := V3Of(cons, fed);
      forall i :: 0 <= i < |fed| ==>
        LowerBand(v3, fed, cons, volatility, z10, sqrt)[i] <= v3[i] <= UpperBand(v3, fed, cons, volatility, z90, sqrt)[i]
  {
    var cons := ConsensusOf(fed, v2, years);
    EnsembleWithinInputRange(fed, v2, years, V2Floor, V2Ceiling);
    BandsAroundColumn(V3Of(cons, fed), fed, cons, volatility, z10, z90, sqrt);
  }

  /** Within [150, 1500] the band around every value of a V3 column brackets
      it. */
  lemma BandsAroundColumn(v3: seq<real>, fed: seq<real>, cons: seq<real>, volatility: real,
                          z10: real, z90: real, sqrt: real -> NonNegReal)
    requires |fed| == |v3| && |cons| == |v3|
    requires forall i :: 0 <= i < |v3| ==> 150.0 <= v3[i] <= 1500.0
    requires 0.0 <= volatility && z10 <= 0.0 <= z90
    ensures forall i :: 0 <= i < |v3| ==>
      LowerBand(v3, fed, cons, volatility, z10, sqrt)[i] <= v3[i] <= UpperBand(v3, fed, cons, volatility, z90, sqrt)[i]
  {
    forall i | 0 <= i < |v3|
      ensures LowerBand(v3, fed, cons, volatility, z10, sqrt)[i] <= v3[i] <= UpperBand(v3, fed, cons, volatility, z90, sqrt)[i]
    {
      BandBracketsV3(v3[i], fed[i], cons[i], volatility, i, z10, z90, sqrt);
    }
  }

  /** Hence every forecast row's band brackets its V3: P10 <= V3 <= P90. */
  lemma EnsembleBandsBracket(base: seq<ProcessedRow>, volatility: real, z10: real, z90: real,
                             sqrt: real -> NonNegReal)
    requires Filled(base, Federico) && Filled(base, V2)
    requires forall i :: 0 <= i < |base| ==>
      V2Floor <= Column(base, Federico)[i] <= V2Ceiling && V2Floor <= Column(base, V2)[i] <= V2Ceiling
    requires 0.0 <= volatility && z10 <= 0.0 <= z90
    ensures var e := EnsembleOf(base, volatility, z10, z90, sqrt);
      && Filled(e, P10) && Filled(e, V3) && Filled(e, P90)
      && forall i :: 0 <= i < |e| ==> Column(e, P10)[i] <= Column(e, V3)[i] <= Column(e, P90)[i]
  {
    EnsembleColumns(base, volatility, z10, z90, sqrt);
    BandColumnsBracket(Column(base, Federico), Column(base, V2), Years(base), volatility, z10, z90, sqrt);
  }

  /** The same with the volatility of a history whose mean target is positive
      and the 10% and 90% quantiles the forecast uses. */
  lemma ForecastBandsBracket(base: seq<ProcessedRow>, hist: seq<ProcessedRow>,
                             sqrt: real -> NonNegReal, ln: real -> real)
    requires Filled(base, Federico) && Filled(base, V2)
    requires forall i :: 0 <= i < |base| ==>
      V2Floor <= Column(base, Federico)[i] <= V2Ceiling && V2Floor <= Column(base, V2)[i] <= V2Ceiling
    requires |hist| > 0 && Mean(Targets(hist)) > 0.0
    ensures var e := EnsembleOf(base, Volatility(hist, sqrt), NormInv(0.1, sqrt, ln), NormInv(0.9, sqrt, ln), sqrt);
      && Filled(e, P10) && Filled(e, V3) && Filled(e, P90)
      && forall i :: 0 <= i < |e| ==> Column(e, P10)[i] <= Column(e, V3)[i] <= Column(e, P90)[i]
  {
    NormInvDeciles(sqrt, ln);
    EnsembleBandsBracket(base, Volatility(hist, sqrt), NormInv(0.1, sqrt, ln), NormInv(0.9, sqrt, ln), sqrt);
  }

  /** The one requirement the source does not check: the historical targets
      must not average to 0, since the volatility divides by their mean. */
  predicate HistoryMeanNonZero(regional: seq<HistoricalRow>, exogHist: seq<ExogenousRow>)
  {
    var hist := Joined(regional, ExogIndex(exogHist));
    hist == [] || Mean(Targets(hist)) != 0.0
  }

  /** Whatever the volatility and the quantiles, P10 is never below 150 and
      P90 never above 1500. */
  lemma EnsembleBandsClamped(base: seq<ProcessedRow>, volatility: real, z10: real, z90: real,
                             sqrt: real -> NonNegReal)
    requires Filled(base, Federico) && Filled(base, V2)
    ensures var e := EnsembleOf(base, volatility, z10, z90, sqrt);
      && Filled(e, P10) && Filled(e, P90)
      && forall i :: 0 <= i < |e| ==> 150.0 <= Column(e, P10)[i] && Column(e, P90)[i] <= 1500.0
  {
    EnsembleColumns(base, volatility, z10, z90, sqrt);
  }

  /** What the forecast rows of a run are: the ensemble of the projection
      the trained models give, with the volatility of the history and the
      10% and 90% quantiles; one row per used projection row, with every
      forecast column filled and the band within its floor and cap. */
  predicate Forecasts(fc: seq<ProcessedRow>, hist: seq<ProcessedRow>, exogProj: seq<ExogenousRow>,
                      forecastPrev: seq<ForecastRow>, ms: Models, sqrt: real -> NonNegReal, ln: real -> real)
    requires |hist| > 0 && Mean(Targets(hist)) != 0.0
    reads ModelObjects(ms)
  {
    var proj := Projection(exogProj, ForecastIndex(forecastPrev), ms);
    && |fc| == |ProjectedRows(exogProj)| && |fc| > 0
    && Filled(proj, Federico) && Filled(proj, V2)
    && fc == EnsembleOf(proj, Volatility(hist, sqrt), NormInv(0.1, sqrt, ln), NormInv(0.9, sqrt, ln), sqrt)
    && Filled(fc, V2) && Filled(fc, Federico) && Filled(fc, Consenso) && Filled(fc, V3)
    && Filled(fc, P10) && Filled(fc, P90)
    && (forall k :: 0 <= k < |fc| ==> 150.0 <= Column(fc, P10)[k] && Column(fc, P90)[k] <= 1500.0)
  }

  /** Row k of a forecast is the k-th used projection row: its V2 is the
      clipped blend of the trained models' predictions for that row, and its
      previous forecast the user's value for its month. */
  lemma ForecastRows(fc: seq<ProcessedRow>, hist: seq<ProcessedRow>, exogProj: seq<ExogenousRow>,
                     forecastPrev: seq<ForecastRow>, ms: Models, sqrt: real -> NonNegReal, ln: real -> real)
    requires |hist| > 0 && Mean(Targets(hist)) != 0.0
    requires Forecasts(fc, hist, exogProj, forecastPrev, ms, sqrt, ln)
    ensures forall k :: 0 <= k < |fc| ==>
      var row := ProjectedRows(exogProj)[k];
      var prev := ForecastIndex(forecastPrev);
      && Projects(row)
      && fc[k].gmV2 == Some(V2Forecast(ms, PreparedRow(row, prev)))
      && fc[k].gmFederico == Some(UserForecast(prev, MonthKey(ProjectionDate(row).value)))
  {
    var prev := ForecastIndex(forecastPrev);
    var proj := Projection(exogProj, prev, ms);
    var used := ProjectedRows(exogProj);
    assert fc == EnsembleOf(proj, Volatility(hist, sqrt), NormInv(0.1, sqrt, ln), NormInv(0.9, sqrt, ln), sqrt);
    ProjectionRows(exogProj, prev, ms);
    EnsembleKeepsInputs(proj, Volatility(hist, sqrt), NormInv(0.1, sqrt, ln), NormInv(0.9, sqrt, ln), sqrt);
    forall k | 0 <= k < |fc|
      ensures Projects(used[k])
      ensures fc[k].gmV2 == Some(V2Forecast(ms, PreparedRow(used[k], prev)))
      ensures fc[k].gmFederico == Some(UserForecast(prev, MonthKey(ProjectionDate(used[k]).value)))
    {
      assert fc[k].gmV2 == proj[k].gmV2 && fc[k].gmFederico == proj[k].gmFederico;
      assert proj[k] == ProjectRow(used[k], prev, ms);
    }
  }

  /** The ensemble keeps each row's V2 and previous forecast. */
  lemma EnsembleKeepsInputs(base: seq<ProcessedRow>, volatility: real, z10: real, z90: real,
                            sqrt: real -> NonNegReal)
    requires Filled(base, Federico) && Filled(base, V2)
    ensures var e := EnsembleOf(base, volatility, z10, z90, sqrt);
      && |e| == |base|
      && forall k :: 0 <= k < |base| ==> e[k].gmV2 == base[k].gmV2 && e[k].gmFederico == base[k].gmFederico
  {
    var e := EnsembleOf(base, volatility, z10, z90, sqrt);
    EnsembleColumns(base, volatility, z10, z90, sqrt);
    forall k | 0 <= k < |base|
      ensures e[k].gmV2 == base[k].gmV2 && e[k].gmFederico == base[k].gmFederico
    {
      assert Column(e, V2)[k] == Column(base, V2)[k];
      assert Column(e, Federico)[k] == Column(base, Federico)[k];
    }
  }

  /** When some projection row is used, the ensemble of the projection is a
      forecast of the run. */
  lemma ProjectionForecasts(hist: seq<ProcessedRow>, exogProj: seq<ExogenousRow>,
                            forecastPrev: seq<ForecastRow>, ms: Models,
                            sqrt: real -> NonNegReal, ln: real -> real)
    requires |hist| > 0 && Mean(Targets(hist)) != 0.0
    requires ProjectedRows(exogProj) != []
    ensures var proj := Projection(exogProj, ForecastIndex(forecastPrev), ms);
      && Filled(proj, Federico) && Filled(proj, V2)
      && Forecasts(EnsembleOf(proj, Volatility(hist, sqrt), NormInv(0.1, sqrt, ln), NormInv(0.9, sqrt, ln), sqrt),
                   hist, exogProj, forecastPrev, ms, sqrt, ln)
  {
    var prev := ForecastIndex(forecastPrev);
    var proj := Projection(exogProj, prev, ms);
    ProjectionSplit(exogProj, prev, ms);
    ProjectionRows(exogProj, prev, ms);
    var z10, z90 := NormInv(0.1, sqrt, ln), NormInv(0.9, sqrt, ln);
    EnsembleColumns(proj, Volatility(hist, sqrt), z10, z90, sqrt);
    EnsembleBandsClamped(proj, Volatility(hist, sqrt), z10, z90, sqrt);
  }

  /** Steps 4 to 8 once the models exist: the previous forecasts, the
      projection, the ensemble and the metrics; NoProjectionData exactly when
      no projection row is used. */
  method Forecast(hist: seq<ProcessedRow>, ms: Models, exogProj: seq<ExogenousRow>,
                  forecastPrev: seq<ForecastRow>, sqrt: real -> NonNegReal, ln: real -> real)
    returns (res: Result<SimulationResult, Error>)
    requires |hist| > 0 && Mean(Targets(hist)) != 0.0
    ensures res.Failure? <==> ProjectedRows(exogProj) == []
    ensures res.Failure? ==> res.error == NoProjectionData
    ensures res.Success? ==>
      && res.value.history == hist
      && Forecasts(res.value.forecast, hist, exogProj, forecastPrev, ms, sqrt, ln)
      && res.value.metrics == MetricsOf(res.value.forecast)
  {
    var prev := BuildForecastMap(forecastPrev);
    var proj := BuildProjection(exogProj, prev, ms);
    ProjectionFilled(exogProj, prev, ms);
    ProjectionRows(exogProj, prev, ms);
    if |proj| == 0 {
      return Failure(NoProjectionData);
    }
    assert ProjectedRows(exogProj) != [];
    var y := Targets(hist);
    var histMean := Sum(y) / |y| as real;
    var histStd := sqrt(Sum(SquaredDeviations(y, histMean)) / |y| as real);
    var volatilityHist := histStd / histMean;
    assert volatilityHist == Volatility(hist, sqrt);
    var z10 := NormInv(0.10, sqrt, ln);
    var z90 := NormInv(0.90, sqrt, ln);
    assert allocated(ModelObjects(ms));
    label ensemble:
    var fc := RunEnsemble(proj, volatilityHist, z10, z90, sqrt);
    assert unchanged@ensemble(ModelObjects(ms));
    ProjectionForecasts(hist, exogProj, forecastPrev, ms, sqrt, ln);
    var metrics := MetricsOf(fc);
    res := Success(SimulationResult(hist, fc, metrics));
  }

  /** `processFiles` on the rows of the four files. It fails with
      NoHistoricalOverlap exactly when no regional row joins, with
      SingularMatrix exactly when some rows join but a solve of training
      fails, and with NoProjectionData exactly when training succeeds but no
      projection row is dated January 2026 or later; otherwise it succeeds.
      A success holds the joined history, the forecast of the models it
      trained (ms, which the result does not carry) and the forecast's
      metrics. */
  method ProcessFiles(regional: seq<HistoricalRow>, exogHist: seq<ExogenousRow>,
                      exogProj: seq<ExogenousRow>, forecastPrev: seq<ForecastRow>,
                      sqrt: real -> NonNegReal, ln: real -> real, solve: Solver)
    returns (res: Result<SimulationResult, Error>, ghost ms: Option<Models>)
    requires HistoryMeanNonZero(regional, exogHist)
    ensures var hist := Joined(regional, ExogIndex(exogHist));
      res == Failure(NoHistoricalOverlap) <==> hist == []
    ensures var hist := Joined(regional, ExogIndex(exogHist));
      res == Failure(SingularMatrix) <==> hist != [] && !AllSolvable(hist, sqrt, solve)
    ensures var hist := Joined(regional, ExogIndex(exogHist));
      res == Failure(NoProjectionData) <==>
        hist != [] && AllSolvable(hist, sqrt, solve) && ProjectedRows(exogProj) == []
    ensures var hist := Joined(regional, ExogIndex(exogHist));
      res.Success? <==> hist != [] && AllSolvable(hist, sqrt, solve) && ProjectedRows(exogProj) != []
    ensures res.Success? ==>
      var hist := Joined(regional, ExogIndex(exogHist));
      && res.value.history == hist
      && |hist| > 0 && Mean(Targets(hist)) != 0.0
      && ms.Some? && Trained(ms.value, hist, sqrt, solve)
      && Forecasts(res.value.forecast, hist, exogProj, forecastPrev, ms.value, sqrt, ln)
      && res.value.metrics == MetricsOf(res.value.forecast)
  {
    ms := None;
    var exogMap := BuildExogMap(exogHist);
    var hist := AlignHistorical(regional, exogMap);
    if |hist| == 0 {
      return Failure(NoHistoricalOverlap), ms;
    }
    var trained := TrainModels(hist, sqrt, solve);
    if trained.Failure? {
      return Failure(trained.error), ms;
    }
    ms := Some(trained.value);
    assert allocated(ModelObjects(trained.value));
    label forecast:
    res := Forecast(hist, trained.value, exogProj, forecastPrev, sqrt, ln);
    assert unchanged@forecast(ModelObjects(trained.value));
  }
}
