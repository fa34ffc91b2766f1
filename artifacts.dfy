/**
 * The artifact dictionary the training scripts pickle and the app unpickles:
 * the classifier, the scaler, the label encoders, the feature column order,
 * the numerical and categorical column lists and, from one of the two
 * scripts only, a `model_info` summary. Pickling is taken as the identity,
 * so what the app loads is the dictionary the script built.
 */
module Artifacts {
  import opened Errors
  import opened Scaling

  /**
   * A fitted classifier, seen only through its two calls on one row of
   * features: the predicted class and the class probabilities.
   */
  datatype Classifier = Classifier(predict: seq<real> -> int, predictProba: seq<real> -> seq<real>)

  /** A value of the `model_info` summary. */
  datatype InfoValue = InfoText(s: string) | InfoInt(n: int) | InfoNum(x: real)

  /** A value of the artifact dictionary, tagged with what it holds. */
  datatype Entry =
    | ModelEntry(model: Classifier)
    | ScalerEntry(scaler: Scaler)
    | EncodersEntry(encoders: map<string, seq<string>>)
    | NamesEntry(names: seq<string>)
    | InfoEntry(info: map<string, InfoValue>)

  type Artifact = map<string, Entry>

  /** What the app keeps from the dictionary. */
  datatype Loaded = Loaded(
    model: Classifier,
    scaler: Scaler,
    labelEncoders: map<string, seq<string>>,
    featureColumns: seq<string>,
    numericalCols: seq<string>,
    modelInfo: map<string, InfoValue>)

  /** The keys the app reads with `[...]`, in the order it reads them. */
  const RequiredKeys: seq<string> := ["model", "scaler", "label_encoders", "feature_columns", "numerical_cols"]

  /** Whether the entry under a key holds the kind of value the app uses it as. */
  predicate KindFits(key: string, e: Entry) {
    match key
    case "model" => e.ModelEntry?
    case "scaler" => e.ScalerEntry?
    case "label_encoders" => e.EncodersEntry?
    case "feature_columns" => e.NamesEntry?
    case "numerical_cols" => e.NamesEntry?
    case "categorical_cols" => e.NamesEntry?
    case "model_info" => e.InfoEntry?
    case _ => true
  }

  /** `artifacts[key]`: the entry, a `KeyError`, or a value of the wrong kind. */
  function Get(a: Artifact, key: string): (r: Result<Entry>)
    ensures r.Ok? <==> key in a && KindFits(key, a[key])
    ensures r.Ok? ==> r.value == a[key]
    ensures r.Err? ==> r.error == (if key in a then WrongType(key) else KeyError(key))
  {
    if key !in a then Err(KeyError(key))
    else if !KindFits(key, a[key]) then Err(WrongType(key))
    else Ok(a[key])
  }

  /** Index of the first key whose lookup fails, `|keys|` when none does. */
  function FirstUnfit(a: Artifact, keys: seq<string>): (j: nat)
    ensures j <= |keys|
    ensures forall i :: 0 <= i < j ==> Get(a, keys[i]).Ok?
    ensures j < |keys| ==> Get(a, keys[j]).Err?
  {
    if keys == [] then 0
    else if Get(a, keys[0]).Err? then 0
    else 1 + FirstUnfit(a, keys[1..])
  }

  /**
   * The app's loading block: the five required entries by `[...]`, the
   * first one missing raising a `KeyError`, and `model_info` by
   * `.get('model_info', {})`, which falls back to an empty summary.
   */
  function Load(a: Artifact): (r: Result<Loaded>)
    ensures r.Ok? <==>
      && (forall k :: k in RequiredKeys ==> k in a && KindFits(k, a[k]))
      && ("model_info" in a ==> KindFits("model_info", a["model_info"]))
    ensures r.Err? && r.error.KeyError? ==> r.error.key in RequiredKeys && r.error.key !in a
    ensures r.Ok? ==> r.value.modelInfo == if "model_info" in a then a["model_info"].info else map[]
  {
    var model :- Get(a, "model");
    var scaler :- Get(a, "scaler");
    var encoders :- Get(a, "label_encoders");
    var features :- Get(a, "feature_columns");
    var numerical :- Get(a, "numerical_cols");
    var info := if "model_info" in a then Get(a, "model_info") else Ok(InfoEntry(map[]));
    if info.Err? then Err(info.error)
    else
      Ok(Loaded(model.model, scaler.scaler, encoders.encoders, features.names, numerical.names, info.value.info))
  }

  /**
   * A failed load reports the first required entry, in reading order, that
   * is missing or of the wrong kind; with all five in place only the summary
   * can be of the wrong kind.
   */
  lemma {:induction false} LoadFirstFailure(a: Artifact)
    ensures var j := FirstUnfit(a, RequiredKeys);
      j < |RequiredKeys| ==> Load(a) == Err(Get(a, RequiredKeys[j]).error)
    ensures FirstUnfit(a, RequiredKeys) == |RequiredKeys| && Load(a).Err? ==>
      Load(a).error == WrongType("model_info")
  {
    var k0 := RequiredKeys;
    var k1 := ["scaler", "label_encoders", "feature_columns", "numerical_cols"];
    var k2 := ["label_encoders", "feature_columns", "numerical_cols"];
    var k3 := ["feature_columns", "numerical_cols"];
    var k4 := ["numerical_cols"];
    assert k0[1..] == k1 && k1[1..] == k2 && k2[1..] == k3 && k3[1..] == k4 && k4[1..] == [];
    if Get(a, "model").Err? {
      assert FirstUnfit(a, k0) == 0;
    } else if Get(a, "scaler").Err? {
      assert FirstUnfit(a, k1) == 0;
    } else if Get(a, "label_encoders").Err? {
      assert FirstUnfit(a, k2) == 0;
    } else if Get(a, "feature_columns").Err? {
      assert FirstUnfit(a, k3) == 0;
    } else if Get(a, "numerical_cols").Err? {
      assert FirstUnfit(a, k4) == 0;
    } else {
      assert FirstUnfit(a, k4) == 1;
    }
  }

  /** The entries both training scripts save. */
  const SavedKeys: set<string> := {"model", "scaler", "label_encoders", "feature_columns", "numerical_cols", "categorical_cols"}

  /**
   * The dictionary both training scripts build; `info` is the `model_info`
   * summary, which only one of them adds.
   */
  function Bundle(model: Classifier, scaler: Scaler, encoders: map<string, seq<string>>,
                  featureColumns: seq<string>, numericalCols: seq<string>, categoricalCols: seq<string>,
                  info: Option<map<string, InfoValue>>): (a: Artifact)
    ensures "model" in a && a["model"] == ModelEntry(model)
    ensures "scaler" in a && a["scaler"] == ScalerEntry(scaler)
    ensures "label_encoders" in a && a["label_encoders"] == EncodersEntry(encoders)
    ensures "feature_columns" in a && a["feature_columns"] == NamesEntry(featureColumns)
    ensures "numerical_cols" in a && a["numerical_cols"] == NamesEntry(numericalCols)
    ensures "categorical_cols" in a && a["categorical_cols"] == NamesEntry(categoricalCols)
    ensures info.Some? ==> "model_info" in a && a["model_info"] == InfoEntry(info.value)
    ensures info.None? ==> a.Keys == SavedKeys
    ensures info.Some? ==> a.Keys == SavedKeys + {"model_info"}
    ensures "model_info" in a <==> info.Some?
  {
    var base := map[
      "model" := ModelEntry(model),
      "scaler" := ScalerEntry(scaler),
      "label_encoders" := EncodersEntry(encoders),
      "feature_columns" := NamesEntry(featureColumns),
      "numerical_cols" := NamesEntry(numericalCols),
      "categorical_cols" := NamesEntry(categoricalCols)];
    if info.Some? then base["model_info" := InfoEntry(info.value)]
    else base
  }

  /**
   * Loading gives back what was saved: the classifier, the scaler, the
   * encoders and both column lists unchanged, and the summary when there is
   * one, an empty summary when there is none.
   */
  lemma LoadBundle(model: Classifier, scaler: Scaler, encoders: map<string, seq<string>>,
                   featureColumns: seq<string>, numericalCols: seq<string>, categoricalCols: seq<string>,
                   info: Option<map<string, InfoValue>>)
    ensures var r := Load(Bundle(model, scaler, encoders, featureColumns, numericalCols, categoricalCols, info));
      && r.Ok?
      && r.value.model == model && r.value.scaler == scaler && r.value.labelEncoders == encoders
      && r.value.featureColumns == featureColumns && r.value.numericalCols == numericalCols
      && r.value.modelInfo == (if info.Some? then info.value else map[])
  {
    var a := Bundle(model, scaler, encoders, featureColumns, numericalCols, categoricalCols, info);
    assert forall k :: k in RequiredKeys ==> k in a && KindFits(k, a[k]);
  }
}
