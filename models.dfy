/** The objects a trained model is made of: the linear classifier, the
    standard scaler and the bundle of both with a description. Their
    numerical fitting is uninterpreted: the optimiser is a `Solver` and the
    per-column statistics are a function the caller provides. */
module Models {
  import opened Arrays

  /** The upper bound applied to standardised values, at training and at
      prediction time alike. */
  const ClipMax: real := 10.0

  /** One call the optimiser receives: a fit on the whole data, or an
      incremental fit on one mini-batch with the full class vocabulary. */
  datatype FitCall =
    | FullFit(x: Matrix, y: seq<string>)
    | PartialFit(x: Matrix, y: seq<string>, classes: set<string>)

  /** The stochastic-gradient optimiser as a black box: for the history of
      calls made on one classifier it yields the number of weight rows and
      every weight. */
  datatype Solver = Solver(rows: seq<FitCall> -> nat, weight: (seq<FitCall>, nat, nat) -> real)

  /** The weights after the given history, for `cols` features. */
  function Weights(solver: Solver, calls: seq<FitCall>, cols: nat): (w: Matrix)
    ensures |w| == solver.rows(calls) && HasWidth(w, cols)
  {
    seq(solver.rows(calls), c requires 0 <= c < solver.rows(calls) =>
      seq(cols, j requires 0 <= j < cols => solver.weight(calls, c, j)))
  }

  /** The statistics the scaler fits on one column. */
  datatype ColumnStats = ColumnStats(mean: real, variance: real, scale: real)

  /** A column fitter never yields a non-positive scale (a constant column
      gets scale 1). */
  ghost predicate PositiveScales(fit: seq<real> -> ColumnStats) {
    forall c :: fit(c).scale > 0.0
  }

  /** What the prediction routine of the model returns: one label per row
      and a probability row per row. */
  datatype Prediction = Prediction(labels: seq<string>, prob: Matrix)

  ghost predicate OneLabelPerRow(predict: (Matrix, Matrix) -> Prediction) {
    forall x, w :: |predict(x, w).labels| == |x|
  }

  /** The linear classifier: its gene list, its weight matrix (one row per
      class, or one row for two classes), the number of input features it
      declares, and the history of fits made on it. */
  class SgdClassifier {
    var features: seq<string>
    var coef: Matrix
    var nFeaturesIn: nat
    var calls: seq<FitCall>

    constructor Untrained()
      ensures features == [] && coef == [] && nFeaturesIn == 0 && calls == []
    {
      features, coef, nFeaturesIn, calls := [], [], 0, [];
    }

    /** `fit(x, y)` on `cols` features. */
    method Fit(x: Matrix, y: seq<string>, cols: nat, solver: Solver)
      modifies this
      ensures calls == old(calls) + [FullFit(x, y)]
      ensures coef == Weights(solver, calls, cols) && nFeaturesIn == cols
      ensures features == old(features)
    {
      calls := calls + [FullFit(x, y)];
      coef := Weights(solver, calls, cols);
      nFeaturesIn := cols;
    }

    /** `partial_fit(x, y, classes = ...)` on `cols` features. */
    method PartialFit(x: Matrix, y: seq<string>, classes: set<string>, cols: nat, solver: Solver)
      modifies this
      ensures calls == old(calls) + [FitCall.PartialFit(x, y, classes)]
      ensures coef == Weights(solver, calls, cols) && nFeaturesIn == cols
      ensures features == old(features)
    {
      calls := calls + [FitCall.PartialFit(x, y, classes)];
      coef := Weights(solver, calls, cols);
      nFeaturesIn := cols;
    }

    /** Keeps only the features at `idx`, in that order: the feature
        count, the feature names and the weight columns all follow. */
    method Restrict(idx: seq<nat>)
      requires InBounds(idx, |features|) && HasWidth(coef, |features|)
      modifies this
      ensures nFeaturesIn == |idx| && HasWidth(coef, |idx|)
      ensures features == Pick(old(features), idx)
      ensures forall f :: 0 <= f < |idx| ==> features[f] == old(features)[idx[f]]
      ensures coef == PickColumns(old(coef), idx, |old(features)|)
      ensures calls == old(calls)
    {
      nFeaturesIn := |idx|;
      coef := PickColumns(coef, idx, |features|);
      features := Pick(features, idx);
    }
  }

  /** The per-feature standardiser. */
  class StandardScaler {
    var mean: seq<real>
    var variance: seq<real>
    var scale: seq<real>
    var nFeaturesIn: nat

    constructor Untrained()
      ensures mean == [] && variance == [] && scale == [] && nFeaturesIn == 0
    {
      mean, variance, scale, nFeaturesIn := [], [], [], 0;
    }

    /** `fit_transform(x)`: fit every column independently, then
        standardise `x` with what was fitted. */
    method FitTransform(x: Matrix, cols: nat, fit: seq<real> -> ColumnStats) returns (z: Matrix)
      requires HasWidth(x, cols) && PositiveScales(fit)
      modifies this
      ensures |mean| == |variance| == |scale| == nFeaturesIn == cols
      ensures forall j :: 0 <= j < cols ==>
                mean[j] == fit(Column(x, j)).mean && variance[j] == fit(Column(x, j)).variance
                && scale[j] == fit(Column(x, j)).scale
      ensures AllPositive(scale)
      ensures z == Standardize(x, mean, scale)
    {
      var stats := seq(cols, j requires 0 <= j < cols => fit(Column(x, j)));
      mean := seq(cols, j requires 0 <= j < cols => stats[j].mean);
      variance := seq(cols, j requires 0 <= j < cols => stats[j].variance);
      scale := seq(cols, j requires 0 <= j < cols => stats[j].scale);
      forall j | 0 <= j < cols
        ensures scale[j] > 0.0
      {
        assert scale[j] == fit(Column(x, j)).scale;
      }
      nFeaturesIn := cols;
      z := Standardize(x, mean, scale);
    }

    /** Overwrite the fitted vectors with their entries at `idx` (feature
        selection keeps the first fit's statistics of the chosen genes). */
    method Restrict(idx: seq<nat>)
      requires |mean| == |variance| == |scale| && InBounds(idx, |mean|)
      modifies this
      ensures mean == Pick(old(mean), idx) && variance == Pick(old(variance), idx)
      ensures scale == Pick(old(scale), idx) && nFeaturesIn == |idx|
    {
      mean := Pick(mean, idx);
      variance := Pick(variance, idx);
      scale := Pick(scale, idx);
      nFeaturesIn := |idx|;
    }
  }

  datatype Description = Description(date: string, details: string, url: string)

  /** A trained model: classifier, scaler and description. */
  class Model {
    const classifier: SgdClassifier
    const scaler: StandardScaler
    const description: Description

    constructor (classifier: SgdClassifier, scaler: StandardScaler, description: Description)
      ensures this.classifier == classifier && this.scaler == scaler
      ensures this.description == description
    {
      this.classifier, this.scaler, this.description := classifier, scaler, description;
    }

    /** What prediction needs of a model: no gene twice, one weight per
        gene in every class row, positive scales, and at least one mean and
        scale per gene. A model file has exactly one per gene; a model whose
        classifier an earlier `celltype` cut keeps the longer scaler vectors. */
    ghost predicate Usable()
      reads this, classifier, scaler
    {
      && |classifier.features| <= |scaler.mean| == |scaler.scale|
      && HasWidth(classifier.coef, |classifier.features|)
      && Distinct(classifier.features)
      && AllPositive(scaler.scale)
    }
  }
}
