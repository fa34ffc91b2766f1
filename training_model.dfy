/**
 * The Random Forest training script: feature engineering, the fixed drop
 * list, the encoder loop and scaling (all in `Preprocessing`), the target
 * check on the test metrics, and the artifact dictionary with its
 * `model_info` summary. The split, the fit and the metric values come from
 * the library and are inputs here.
 */
module TrainingModel {
  import opened Errors
  import opened Frames
  import opened Scaling
  import opened Preprocessing
  import opened Artifacts

  /** The columns the script drops before training; absent ones are ignored. */
  const DropCols: seq<string> := [
    "Unnamed: 0", "cc_num", "first", "last", "street", "trans_num",
    "unix_time", "trans_date_trans_time", "dob", "merchant", "job",
    "zip", "lat", "long", "merch_lat", "merch_long", "merch_zipcode",
    "city_pop", "city"]

  /** The product targets the test metrics are checked against. */
  const TargetAccuracy: real := 0.85
  const TargetRecall: real := 0.80

  datatype Status = Passed | Failed

  /** The accuracy check: passed exactly when the accuracy reaches the target. */
  function AccuracyStatus(accuracy: real): (s: Status)
    ensures s == Passed <==> accuracy >= 0.85
    ensures s == Failed <==> accuracy < 0.85
  {
    if accuracy >= TargetAccuracy then Passed else Failed
  }

  /** The recall check: passed exactly when the recall reaches the target. */
  function RecallStatus(recall: real): (s: Status)
    ensures s == Passed <==> recall >= 0.80
    ensures s == Failed <==> recall < 0.80
  {
    if recall >= TargetRecall then Passed else Failed
  }

  /** A better metric never turns a pass into a failure. */
  lemma StatusMonotone(worse: real, better: real)
    requires worse <= better
    ensures AccuracyStatus(worse) == Passed ==> AccuracyStatus(better) == Passed
    ensures RecallStatus(worse) == Passed ==> RecallStatus(better) == Passed
  {
  }

  /** The test-set metrics the script computes. */
  datatype Metrics = Metrics(accuracy: real, precision: real, recall: real, f1: real, rocAuc: real)

  /** The `model_info` summary: the algorithm, its size, the metrics and the training time. */
  function ModelInfo(m: Metrics, trainedAt: string): (info: map<string, InfoValue>)
    ensures info.Keys == {"algorithm", "n_estimators", "accuracy", "recall", "precision", "f1_score", "roc_auc", "trained_at"}
    ensures info["algorithm"] == InfoText("Random Forest") && info["n_estimators"] == InfoInt(200)
    ensures info["accuracy"] == InfoNum(m.accuracy) && info["recall"] == InfoNum(m.recall)
    ensures info["precision"] == InfoNum(m.precision) && info["f1_score"] == InfoNum(m.f1)
    ensures info["roc_auc"] == InfoNum(m.rocAuc) && info["trained_at"] == InfoText(trainedAt)
  {
    map[
      "algorithm" := InfoText("Random Forest"),
      "n_estimators" := InfoInt(200),
      "accuracy" := InfoNum(m.accuracy),
      "recall" := InfoNum(m.recall),
      "precision" := InfoNum(m.precision),
      "f1_score" := InfoNum(m.f1),
      "roc_auc" := InfoNum(m.rocAuc),
      "trained_at" := InfoText(trainedAt)]
  }

  /**
   * The script on the loaded table `df`: preprocessing with `DropCols`, then
   * the artifact dictionary. `scaler` holds the fitted scaler parameters,
   * `model` the fitted classifier, `metrics` its test metrics and
   * `trainedAt` the formatted training time.
   */
  method Run(df: Frame, currentYear: int, scaler: Scaler, model: Classifier, metrics: Metrics, trainedAt: string)
    returns (r: Result<Artifact>)
    requires df.Valid() && Encodable(df.data, CategoricalCols)
    modifies df
    ensures r.Err? <==> PrepareError(old(df.data), old(df.height), currentYear, DropCols, scaler).Some?
    ensures r.Err? ==> Some(r.error) == PrepareError(old(df.data), old(df.height), currentYear, DropCols, scaler)
    ensures r.Ok? ==> r.value.Keys == SavedKeys + {"model_info"}
    ensures r.Ok? ==> "categorical_cols" in r.value && r.value["categorical_cols"] == NamesEntry(CategoricalCols)
    ensures r.Ok? ==> Load(r.value) == Ok(Loaded(model, scaler,
      FeatureEncoders(old(df.data), old(df.height), currentYear, DropCols),
      FeatureColumns(old(df.columns), DropCols),
      NumericalCols,
      ModelInfo(metrics, trainedAt)))
  {
    var p := Prepare(df, currentYear, DropCols, scaler);
    if p.Err? {
      return Err(p.error);
    }
    var info := ModelInfo(metrics, trainedAt);
    var artifact := Bundle(model, scaler, p.value.encoders, p.value.X.columns, NumericalCols, CategoricalCols, Some(info));
    LoadBundle(model, scaler, p.value.encoders, p.value.X.columns, NumericalCols, CategoricalCols, Some(info));
    r := Ok(artifact);
  }
}
