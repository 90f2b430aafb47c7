/** The decisions the attribution script takes between its library calls:
    how many rows to sample for the chosen model kind, whether the
    normalised attributions line up with the sample, and which feature the
    dependence plot shows. The explainer, the sampling of rows and the
    plotting are outside the model; only the shapes they see are kept. */
module Shapify {
  import opened Results
  import opened Shapes

  /** Rows sampled at most for the random-forest explainer. */
  const RfSampleCap := 200
  /** Rows sampled at most for the linear explainer. */
  const LogRegSampleCap := 500

  /** A data frame reduced to its column names and its row count; the
      feature values themselves are not modelled. */
  datatype Frame = Frame(columns: seq<string>, rows: nat)

  /** The number of rows sampled for model kind `kind` out of `available`:
      the kind's cap, or every row when there are fewer than that. */
  function SampleSize(kind: string, available: nat): (r: Result<nat>)
    ensures r.Ok? <==> kind == "rf" || kind == "logreg"
    ensures r.Err? ==> r.error == UnsupportedModel(kind)
    ensures r.Ok? ==> r.value <= available
    ensures r.Ok? ==>
      var cap := if kind == "rf" then RfSampleCap else LogRegSampleCap;
      r.value <= cap && (r.value == available || r.value == cap)
  {
    if kind == "rf" then Ok(Min(RfSampleCap, available))
    else if kind == "logreg" then Ok(Min(LogRegSampleCap, available))
    else Err(UnsupportedModel(kind))
  }

  function Min(a: nat, b: nat): nat {
    if a <= b then a else b
  }

  /** The shape check after normalising: the attributions must have one row
      per sampled row and one column per sampled feature. */
  function CheckAlignment<T>(sv: Matrix<T>, sample: Frame): (r: Result<Matrix<T>>)
    ensures r.Ok? <==> sv.HasShape(sample.rows, |sample.columns|)
    ensures r.Ok? ==> r.value == sv
    ensures r.Err? ==> r.error == ShapeMismatch(|sv.rows|, sv.cols, sample.rows, |sample.columns|)
  {
    if |sv.rows| != sample.rows || sv.cols != |sample.columns| then
      Err(ShapeMismatch(|sv.rows|, sv.cols, sample.rows, |sample.columns|))
    else
      Ok(sv)
  }

  /** The feature of the dependence plot: the one requested, or by default
      the first trained column; it must be a column of the sample. */
  function DependenceFeature(featureCols: seq<string>, sample: Frame, requested: Option<string>): (r: Result<string>)
    ensures requested.None? && featureCols == [] ==> r == Err(IndexOutOfRange)
    ensures r.Ok? <==>
      if requested.Some? then requested.value in sample.columns
      else featureCols != [] && featureCols[0] in sample.columns
    ensures r.Ok? ==> r.value in sample.columns
    ensures r.Ok? && requested.Some? ==> r.value == requested.value
    ensures r.Ok? && requested.None? ==> r.value == featureCols[0]
    ensures r.Err? ==>
      r.error == if requested.None? && featureCols == [] then IndexOutOfRange
                 else UnknownFeature(if requested.Some? then requested.value else featureCols[0])
  {
    var name :- match requested
      case Some(name) => Ok(name)
      case None => if featureCols == [] then Err(IndexOutOfRange) else Ok(featureCols[0]);
    if name in sample.columns then Ok(name) else Err(UnknownFeature(name))
  }

  /** What the script goes on to plot when none of its checks fails. */
  datatype Plan<T> = Plan(sample: Frame, attributions: Matrix<T>, dependenceFeature: string)

  /** How far a run gets. The summary plot is drawn and saved right after
      the shape check and before the dependence feature is chosen, so a bad
      feature choice fails with the summary plot already written. */
  datatype Run<T> =
    | Failed(error: Error)
    | SummaryOnly(sample: Frame, attributions: Matrix<T>, error: Error)
    | Plotted(plan: Plan<T>)

  /** The script from the loaded frame to the plots: the frame holds exactly
      the trained columns and `available` rows, `raw` is what the explainer
      returns for the sample, and `requested` is the --feature argument. */
  function Explain<T>(kind: string, featureCols: seq<string>, available: nat,
                      raw: ShapValues<T>, requested: Option<string>): (r: Run<T>)
    requires raw.Valid()
    // Before any plot: unsupported kind, then IndexError, then shape mismatch.
    ensures kind != "rf" && kind != "logreg" ==> r == Failed(UnsupportedModel(kind))
    ensures r.Failed? <==>
      || (kind != "rf" && kind != "logreg")
      || Normalize(raw).Err?
      || !Normalize(raw).value.HasShape(SampleSize(kind, available).value, |featureCols|)
    ensures r.Failed? && (kind == "rf" || kind == "logreg") ==>
      r.error == if Normalize(raw).Err? then IndexOutOfRange
                 else ShapeMismatch(|Normalize(raw).value.rows|, Normalize(raw).value.cols,
                                    SampleSize(kind, available).value, |featureCols|)
    // Once the summary plot is written, only the feature choice can fail.
    ensures !r.Failed? ==>
      var sample := if r.SummaryOnly? then r.sample else r.plan.sample;
      var sv := if r.SummaryOnly? then r.attributions else r.plan.attributions;
      && sample == Frame(featureCols, SampleSize(kind, available).value)
      && sample.rows <= available
      && sv == Normalize(raw).value
      && sv.Valid()
      && sv.HasShape(sample.rows, |featureCols|)
    ensures r.Plotted? <==>
      !r.Failed? && (if requested.Some? then requested.value in featureCols else featureCols != [])
    ensures r.SummaryOnly? ==>
      r.error == if requested.None? && featureCols == [] then IndexOutOfRange
                 else UnknownFeature(if requested.Some? then requested.value else featureCols[0])
    ensures r.Plotted? ==>
      && r.plan.dependenceFeature in featureCols
      && r.plan.dependenceFeature == if requested.Some? then requested.value else featureCols[0]
  {
    match SampleSize(kind, available)
    case Err(e) => Failed(e)
    case Ok(k) =>
      var sample := Frame(featureCols, k);
      match Normalize(raw)
      case Err(e) => Failed(e)
      case Ok(sv) =>
        match CheckAlignment(sv, sample)
        case Err(e) => Failed(e)
        case Ok(aligned) =>
          match DependenceFeature(featureCols, sample, requested)
          case Err(e) => SummaryOnly(sample, aligned, e)
          case Ok(feature) => Plotted(Plan(sample, aligned, feature))
  }

  /** A supported model kind whose explainer returns attributions of the
      sample's shape, in any layout, always reaches the dependence plot when
      the dependence feature is a trained column; the plotted matrix is the
      normalised one. */
  lemma ExplainSucceeds<T>(kind: string, featureCols: seq<string>, available: nat,
                         raw: ShapValues<T>, requested: Option<string>)
    requires raw.Valid()
    requires kind == "rf" || kind == "logreg"
    requires raw.Describes(SampleSize(kind, available).value, |featureCols|)
    requires if requested.Some? then requested.value in featureCols else featureCols != []
    ensures Explain(kind, featureCols, available, raw, requested).Plotted?
    ensures Explain(kind, featureCols, available, raw, requested).plan.attributions == Normalize(raw).value
  {
  }

  /** The script stops at the shape check exactly when a supported model's
      normalised attributions disagree with the sample's shape. */
  lemma ExplainMismatch<T>(kind: string, featureCols: seq<string>, available: nat,
                         raw: ShapValues<T>, requested: Option<string>)
    requires raw.Valid()
    requires kind == "rf" || kind == "logreg"
    requires Normalize(raw).Ok?
    ensures var sv := Normalize(raw).value;
            var k := SampleSize(kind, available).value;
      Explain(kind, featureCols, available, raw, requested).Failed? &&
      Explain(kind, featureCols, available, raw, requested).error.ShapeMismatch?
      <==> !sv.HasShape(k, |featureCols|)
  {
  }
}
