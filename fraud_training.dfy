/**
 * The XGBoost training script: the same preprocessing as the Random Forest
 * script, with a drop list built by appending `city` to a base list, and
 * an artifact dictionary without a `model_info` summary.
 */
module FraudTraining {
  import opened Errors
  import opened Frames
  import opened Scaling
  import opened Preprocessing
  import opened Artifacts
  import TrainingModel

  /** The drop list before `city` is appended to it. */
  const BaseDropCols: seq<string> := [
    "Unnamed: 0", "cc_num", "first", "last", "street", "trans_num",
    "unix_time", "trans_date_trans_time", "dob", "merchant", "job",
    "zip", "lat", "long", "merch_lat", "merch_long", "merch_zipcode", "city_pop"]

  /** With `city` appended, the two scripts drop the same columns in the same order. */
  lemma DropListsAgree()
    ensures BaseDropCols + ["city"] == TrainingModel.DropCols
  {
  }

  /**
   * The script's drop list: the base list with `city` appended, which is
   * the list the Random Forest script writes out in full.
   */
  method DropList() returns (dropCols: seq<string>)
    ensures dropCols == TrainingModel.DropCols
  {
    dropCols := BaseDropCols;
    dropCols := dropCols + ["city"];
    DropListsAgree();
  }

  /**
   * The script on the loaded table `df`: the drop list is completed, the
   * table preprocessed, and the artifact dictionary built with six entries.
   */
  method Run(df: Frame, currentYear: int, scaler: Scaler, model: Classifier) returns (r: Result<Artifact>)
    requires df.Valid() && Encodable(df.data, CategoricalCols)
    modifies df
    ensures r.Err? <==> PrepareError(old(df.data), old(df.height), currentYear, TrainingModel.DropCols, scaler).Some?
    ensures r.Err? ==> Some(r.error) == PrepareError(old(df.data), old(df.height), currentYear, TrainingModel.DropCols, scaler)
    ensures r.Ok? ==> r.value.Keys == SavedKeys && "model_info" !in r.value
    ensures r.Ok? ==> "categorical_cols" in r.value && r.value["categorical_cols"] == NamesEntry(CategoricalCols)
    ensures r.Ok? ==> Load(r.value) == Ok(Loaded(model, scaler,
      FeatureEncoders(old(df.data), old(df.height), currentYear, TrainingModel.DropCols),
      FeatureColumns(old(df.columns), TrainingModel.DropCols),
      NumericalCols,
      map[]))
  {
    var dropCols := DropList();
    var p := Prepare(df, currentYear, dropCols, scaler);
    if p.Err? {
      return Err(p.error);
    }
    var artifact := Bundle(model, scaler, p.value.encoders, p.value.X.columns, NumericalCols, CategoricalCols, None);
    assert artifact.Keys == SavedKeys && "model_info" !in artifact;
    LoadBundle(model, scaler, p.value.encoders, p.value.X.columns, NumericalCols, CategoricalCols, None);
    r := Ok(artifact);
  }
}
