/** Step 3 of `processFiles` (services/processor.ts): a scaler and a ridge
    model per ENSO phase with more than ten historical rows (alpha 5), and a
    general pair on all rows (alpha 3); and the single-row predictions the
    projection step asks them for. */
module Training {
  import opened Wrappers
  import opened Numeric
  import opened MathUtils
  import opened Types

  const PhaseAlpha := 5.0
  const GeneralAlpha := 3.0

  /** A phase gets its own model only with MORE than this many rows. */
  const MinPhaseRows := 10

  /** The phases in the order they are trained. */
  const Phases: seq<Phase> := [LaNina, ElNino, Neutral]

  /** `X_all`: one row of the six features per history row. */
  function FeatureMatrix(rows: seq<ProcessedRow>): (X: seq<Row>)
    ensures |X| == |rows| && Rectangular(X, 6) && AllPresent(X)
  {
    seq(|rows|, i requires 0 <= i < |rows| => Cells(Features(rows[i])))
  }

  /** `y_all`: the target of each history row. */
  function Targets(rows: seq<ProcessedRow>): (y: seq<real>)
    ensures |y| == |rows|
  {
    seq(|rows|, i requires 0 <= i < |rows| => rows[i].gmReal)
  }

  /** The history rows of one phase, in order (the rows `indices` picks). */
  function PhaseRows(rows: seq<ProcessedRow>, phase: Phase): seq<ProcessedRow>
  {
    if rows == [] then []
    else
      var n := |rows| - 1;
      PhaseRows(rows[..n], phase) + (if rows[n].fase == phase then [rows[n]] else [])
  }

  /** The rows picked for a phase are rows of the history in that phase. */
  lemma {:induction false} PhaseRowsSound(rows: seq<ProcessedRow>, ph: Phase)
    ensures forall k :: 0 <= k < |PhaseRows(rows, ph)| ==>
      PhaseRows(rows, ph)[k].fase == ph && PhaseRows(rows, ph)[k] in rows
  {
    if rows != [] {
      var n := |rows| - 1;
      PhaseRowsSound(rows[..n], ph);
      assert forall x :: x in rows[..n] ==> x in rows;
    }
  }

  /** Every history row in a phase is picked for that phase. */
  lemma {:induction false} PhaseRowsComplete(rows: seq<ProcessedRow>, ph: Phase)
    ensures forall i :: 0 <= i < |rows| && rows[i].fase == ph ==> rows[i] in PhaseRows(rows, ph)
  {
    if rows != [] {
      var n := |rows| - 1;
      PhaseRowsComplete(rows[..n], ph);
      assert forall i :: 0 <= i < n ==> rows[..n][i] == rows[i];
    }
  }

  /** The three phases split the history between them. */
  lemma {:induction false} PhaseRowsCount(rows: seq<ProcessedRow>)
    ensures |PhaseRows(rows, LaNina)| + |PhaseRows(rows, ElNino)| + |PhaseRows(rows, Neutral)| == |rows|
  {
    if rows != [] {
      PhaseRowsCount(rows[..|rows| - 1]);
    }
  }

  /** Whether the ridge solve succeeds on these rows: the solve of the
      standardised feature matrix, the centred targets and alpha gives
      coefficients (`inv` does not throw). */
  predicate Solvable(rows: seq<ProcessedRow>, alpha: real, sqrt: real -> NonNegReal, solve: Solver)
    requires |rows| > 0
  {
    solve(Standardized(FeatureMatrix(rows), sqrt), Centered(Targets(rows)), alpha).Some?
  }

  /** Whether every fit training performs succeeds: the model of each phase
      with more than ten rows, and the general model. */
  predicate AllSolvable(hist: seq<ProcessedRow>, sqrt: real -> NonNegReal, solve: Solver)
    requires |hist| > 0
  {
    && (forall ph :: |PhaseRows(hist, ph)| > MinPhaseRows ==> Solvable(PhaseRows(hist, ph), PhaseAlpha, sqrt, solve))
    && Solvable(hist, GeneralAlpha, sqrt, solve)
  }

  /** A scaler and the ridge model trained on its output. */
  datatype FittedModel = FittedModel(model: RidgeRegression, scaler: StandardScaler)

  /** The state training on these rows with this alpha leaves a pair in: the
      scaler holds the six column means and scales, the model's alpha is
      alpha, its coefficients are the solve on the standardised matrix and
      the centred targets (which succeeded), and its intercept is the mean
      target. */
  predicate FittedOn(fm: FittedModel, rows: seq<ProcessedRow>, alpha: real,
                     sqrt: real -> NonNegReal, solve: Solver)
    reads fm.model, fm.scaler
  {
    var X := FeatureMatrix(rows);
    var y := Targets(rows);
    && |rows| > 0
    && |fm.scaler.mean| == 6 && |fm.scaler.scale| == 6
    && (forall j :: 0 <= j < 6 ==>
          fm.scaler.mean[j] == ColumnMean(X, j) && fm.scaler.scale[j] == ColumnScale(X, j, sqrt))
    && fm.model.alpha == alpha
    && Solvable(rows, alpha, sqrt, solve)
    && fm.model.coefficients == solve(Standardized(X, sqrt), Centered(y), alpha).value
    && fm.model.intercept == Mean(y)
  }

  /** `new StandardScaler()`, `fit`, `transform`, `new RidgeRegression(alpha)`,
      `fit`: `ok` is false where the solve throws, and otherwise the pair is
      fitted on the rows. */
  method FitModel(rows: seq<ProcessedRow>, alpha: real, sqrt: real -> NonNegReal, solve: Solver)
    returns (fm: FittedModel, ok: bool)
    requires |rows| > 0
    ensures fresh(fm.model) && fresh(fm.scaler)
    ensures ok <==> Solvable(rows, alpha, sqrt, solve)
    ensures ok <==> FittedOn(fm, rows, alpha, sqrt, solve)
  {
    var X := FeatureMatrix(rows);
    var y := Targets(rows);
    var scaler := new StandardScaler();
    var fitted := scaler.Fit(X, sqrt);
    assert |scaler.mean| == 6 && |scaler.scale| == 6;
    var Xs := scaler.Transform(X);
    FitTransformStandardizes(scaler, X, 6, sqrt);
    assert Xs[0].Cells?;
    var model := new RidgeRegression(alpha);
    ok := model.Fit(Xs, y, solve);
    if ok {
      MeanFromTotal(y, model.intercept);
    }
    fm := FittedModel(model, scaler);
  }

  /** The phase models and the general model. */
  datatype Models = Models(byPhase: map<Phase, FittedModel>, general: FittedModel)

  /** The state a successful training leaves the models in: a phase has a
      model exactly when it has more than ten rows, that model is fitted on
      the phase's rows with alpha 5, and the general model on all rows with
      alpha 3. */
  predicate Trained(ms: Models, hist: seq<ProcessedRow>, sqrt: real -> NonNegReal, solve: Solver)
    reads ModelObjects(ms)
  {
    && (forall ph :: ph in ms.byPhase <==> |PhaseRows(hist, ph)| > MinPhaseRows)
    && (forall ph :: ph in ms.byPhase ==>
          FittedOn(ms.byPhase[ph], PhaseRows(hist, ph), PhaseAlpha, sqrt, solve))
    && FittedOn(ms.general, hist, GeneralAlpha, sqrt, solve)
  }

  /** The position of a phase in the training order. */
  function Rank(ph: Phase): nat
  {
    match ph
    case LaNina => 0
    case ElNino => 1
    case Neutral => 2
  }

  /** The phase loop of training: for each phase in order, a pair with
      alpha 5 when the phase has more than ten rows. It succeeds exactly when
      every such solve does, and then a phase has a pair exactly when it has
      more than ten rows, fitted on the phase's rows; the first singular
      solve ends it. */
  method TrainPhases(hist: seq<ProcessedRow>, sqrt: real -> NonNegReal, solve: Solver)
    returns (models: map<Phase, FittedModel>, ok: bool)
    ensures ok <==> forall ph :: |PhaseRows(hist, ph)| > MinPhaseRows ==>
      Solvable(PhaseRows(hist, ph), PhaseAlpha, sqrt, solve)
    ensures ok ==> forall ph :: ph in models <==> |PhaseRows(hist, ph)| > MinPhaseRows
    ensures ok ==> forall ph :: ph in models ==>
      FittedOn(models[ph], PhaseRows(hist, ph), PhaseAlpha, sqrt, solve)
  {
    models := map[];
    for p := 0 to |Phases|
      invariant forall ph :: ph in models <==> Rank(ph) < p && |PhaseRows(hist, ph)| > MinPhaseRows
      invariant forall ph :: ph in models ==>
        FittedOn(models[ph], PhaseRows(hist, ph), PhaseAlpha, sqrt, solve)
      invariant forall ph :: Rank(ph) < p && |PhaseRows(hist, ph)| > MinPhaseRows ==>
        Solvable(PhaseRows(hist, ph), PhaseAlpha, sqrt, solve)
    {
      var phase := Phases[p];
      assert Rank(phase) == p;
      var rows := PhaseRows(hist, phase);
      if |rows| > MinPhaseRows {
        var fm, fitted := FitModel(rows, PhaseAlpha, sqrt, solve);
        if !fitted {
          return models, false;
        }
        models := models[phase := fm];
      }
    }
    ok := true;
  }

  /** Training the phase models in order, then the general model. It
      succeeds exactly when every solve does, and then leaves the models
      trained; the first singular solve ends it with an error. */
  method TrainModels(hist: seq<ProcessedRow>, sqrt: real -> NonNegReal, solve: Solver)
    returns (r: Result<Models, Error>)
    requires |hist| > 0
    ensures r.Success? <==> AllSolvable(hist, sqrt, solve)
    ensures r.Success? ==> Trained(r.value, hist, sqrt, solve)
    ensures r.Failure? ==> r.error == SingularMatrix
  {
    var models, ok := TrainPhases(hist, sqrt, solve);
    if !ok {
      return Failure(SingularMatrix);
    }
    var general, fitted := FitModel(hist, GeneralAlpha, sqrt, solve);
    if !fitted {
      return Failure(SingularMatrix);
    }
    return Success(Models(models, general));
  }

  /** `model.predict(scaler.transform([x]))[0]`. */
  function PredictWith(fm: FittedModel, x: seq<real>): real
    reads fm.model, fm.scaler
  {
    fm.model.Prediction(fm.scaler.Transform([Cells(x)])[0])
  }

  /** The guarded single-row prediction of the projection loop: 0 unless
      both the transform and the prediction give a row back, which they
      always do. */
  method PredictOne(fm: FittedModel, x: seq<real>) returns (y: real)
    ensures y == PredictWith(fm, x)
  {
    y := 0.0;
    var Xs := fm.scaler.Transform([Cells(x)]);
    if |Xs| > 0 {
      var preds := fm.model.Predict(Xs);
      if |preds| > 0 {
        y := preds[0];
      }
    }
  }

  /** A pair fitted on rows that all share one feature vector predicts the
      mean target for that vector: the vector standardises to zeros, and a
      zero row gets the intercept. */
  lemma PredictionAtTrainingCentre(fm: FittedModel, rows: seq<ProcessedRow>, alpha: real,
                                   sqrt: real -> NonNegReal, solve: Solver)
    requires FittedOn(fm, rows, alpha, sqrt, solve)
    requires forall i :: 0 <= i < |rows| ==> Features(rows[i]) == Features(rows[0])
    ensures PredictWith(fm, Features(rows[0])) == Mean(Targets(rows))
  {
    var x := Features(rows[0]);
    var X := FeatureMatrix(rows);
    ConstantRowsStandardizeToZero(fm.scaler, X, x, sqrt);
    ZeroRowPredictsIntercept(fm.model, 6);
  }

  /** The objects a set of models consists of. */
  function ModelObjects(ms: Models): set<object>
  {
    {ms.general.model, ms.general.scaler}
    + (set ph | ph in ms.byPhase :: ms.byPhase[ph].model)
    + (set ph | ph in ms.byPhase :: ms.byPhase[ph].scaler)
  }

  /** The prediction for a phase: its own model when it has one, else the
      general model. */
  function PhasePrediction(ms: Models, phase: Phase, x: seq<real>): real
    reads ModelObjects(ms)
  {
    if phase in ms.byPhase then PredictWith(ms.byPhase[phase], x) else PredictWith(ms.general, x)
  }
}
