/**
 * The fraud-detection tab: one transaction entered in the form is turned
 * into the feature row the classifier was trained on, classified, recorded
 * in the session's prediction history, and described by four risk badges
 * and an ordered list of risk factors.
 */
module FraudDetection {
  import opened Seqs
  import opened Errors
  import opened Features
  import opened Frames
  import opened LabelEncoding
  import opened Scaling
  import opened Artifacts

  // ---------------------------------------------------------------------------
  // The form

  /** The amount field: 0.01 to 100000 dollars. */
  type Amount = a: real | 0.01 <= a <= 100000.0 witness 50.0

  /** The age slider: 18 to 100 years. */
  type CardholderAge = a: int | 18 <= a <= 100 witness 35

  /** What the form yields when the analysis button is pressed. */
  datatype Transaction = Transaction(
    category: string,
    amt: Amount,
    gender: string,
    state: string,
    age: CardholderAge,
    hour: Hour,
    isWeekend: bool)

  /** Whether each categorical choice is one of the options its selectbox lists: the encoder's classes. */
  predicate Offered(encoders: map<string, seq<string>>, t: Transaction): (b: bool)
    ensures b ==>
      && "category" in encoders && Transform(encoders["category"], t.category).Some?
      && "gender" in encoders && Transform(encoders["gender"], t.gender).Some?
      && "state" in encoders && Transform(encoders["state"], t.state).Some?
    ensures !b ==>
      || "category" !in encoders || Transform(encoders["category"], t.category).None?
      || "gender" !in encoders || Transform(encoders["gender"], t.gender).None?
      || "state" !in encoders || Transform(encoders["state"], t.state).None?
  {
    && "category" in encoders && t.category in encoders["category"]
    && "gender" in encoders && t.gender in encoders["gender"]
    && "state" in encoders && t.state in encoders["state"]
  }

  // ---------------------------------------------------------------------------
  // Encoding the choices

  datatype Codes = Codes(category: nat, gender: nat, state: nat)

  /** `label_encoders[column].transform([value])[0]`. */
  function Encode(encoders: map<string, seq<string>>, column: string, value: string): (r: Result<nat>)
    ensures r.Ok? <==> column in encoders && value in encoders[column]
    ensures r.Ok? ==> InverseTransform(encoders[column], r.value) == Some(value)
    ensures r.Err? ==> r.error == if column in encoders then UnseenLabel(column, value) else KeyError(column)
  {
    if column !in encoders then Err(KeyError(column))
    else
      match Transform(encoders[column], value)
      case None => Err(UnseenLabel(column, value))
      case Some(code) => Ok(code)
  }

  /** The three encode calls, in the order the tab makes them. */
  function EncodeInputs(encoders: map<string, seq<string>>, t: Transaction): (r: Result<Codes>)
    ensures r.Ok? <==> Offered(encoders, t)
    ensures r.Ok? ==>
      && InverseTransform(encoders["category"], r.value.category) == Some(t.category)
      && InverseTransform(encoders["gender"], r.value.gender) == Some(t.gender)
      && InverseTransform(encoders["state"], r.value.state) == Some(t.state)
  {
    var category :- Encode(encoders, "category", t.category);
    var gender :- Encode(encoders, "gender", t.gender);
    var state :- Encode(encoders, "state", t.state);
    Ok(Codes(category, gender, state))
  }

  /**
   * A choice the form offers always encodes, and to the code that a fitted
   * encoder gives back the choice for.
   */
  lemma OfferedChoicesEncode(encoders: map<string, seq<string>>, t: Transaction)
    requires Offered(encoders, t)
    requires forall c :: c in encoders ==> Sorted(encoders[c])
    ensures EncodeInputs(encoders, t).Ok?
    ensures var codes := EncodeInputs(encoders, t).value;
      && Transform(encoders["category"], t.category) == Some(codes.category)
      && Transform(encoders["gender"], t.gender) == Some(codes.gender)
      && Transform(encoders["state"], t.state) == Some(codes.state)
  {
    var codes := EncodeInputs(encoders, t).value;
    EncodeDecode(encoders["category"], codes.category);
    EncodeDecode(encoders["gender"], codes.gender);
    EncodeDecode(encoders["state"], codes.state);
  }

  // ---------------------------------------------------------------------------
  // The feature row

  /** The columns of the one-row frame the tab builds, in the order it lists them. */
  const InputColumns: seq<string> :=
    ["category", "amt", "gender", "state", "age", "hour", "is_weekend", "amt_per_hour_ratio"]

  /** The value the tab puts under each input column, before scaling. */
  function InputValue(t: Transaction, codes: Codes, column: string): (r: real)
    requires column in InputColumns
    ensures r >= 0.0
    ensures column == "amt_per_hour_ratio" ==> r * (t.hour as real + 1.0) == t.amt
    ensures column != "amt" && column != "amt_per_hour_ratio" ==> r == r.Floor as real
  {
    if column == "category" then codes.category as real
    else if column == "amt" then t.amt
    else if column == "gender" then codes.gender as real
    else if column == "state" then codes.state as real
    else if column == "age" then t.age as real
    else if column == "hour" then t.hour as real
    else if column == "is_weekend" then (if t.isWeekend then 1.0 else 0.0)
    else AmtPerHourRatio(t.amt, t.hour)
  }

  /** The one-row frame built from the form: exactly the eight input columns. */
  function InputRow(t: Transaction, codes: Codes): (row: Columns)
    ensures WellFormed(InputColumns, row, 1)
    ensures forall c :: c in InputColumns ==> row[c] == [Num(InputValue(t, codes, c))]
  {
    map[
      "category" := [Num(codes.category as real)],
      "amt" := [Num(t.amt)],
      "gender" := [Num(codes.gender as real)],
      "state" := [Num(codes.state as real)],
      "age" := [Num(t.age as real)],
      "hour" := [Num(t.hour as real)],
      "is_weekend" := [Num(if t.isWeekend then 1 as real else 0 as real)],
      "amt_per_hour_ratio" := [Num(AmtPerHourRatio(t.amt, t.hour))]]
  }

  /**
   * What the classifier should see under a feature column: the input value,
   * standardized with the parameters of its position among the numerical
   * columns when it is one, and left as it is otherwise.
   */
  function FeatureValue(t: Transaction, codes: Codes, column: string, numericalCols: seq<string>, scaler: Scaler)
    : (r: real)
    requires column in InputColumns && |numericalCols| == |scaler|
    ensures column in numericalCols ==>
      Unstandardize(r, scaler[IndexOf(numericalCols, column)]) == InputValue(t, codes, column)
    ensures column !in numericalCols ==> r == InputValue(t, codes, column)
  {
    if column in numericalCols then Standardize(InputValue(t, codes, column), scaler[IndexOf(numericalCols, column)])
    else InputValue(t, codes, column)
  }

  /**
   * The row the classifier receives: the input frame reordered to the saved
   * feature columns (a `KeyError` for a feature the form does not supply),
   * then its numerical columns rescaled (a `KeyError` for a numerical column
   * not among the features, a `ValueError` for a scaler of another width).
   */
  function FeatureVector(t: Transaction, codes: Codes, featureColumns: seq<string>, numericalCols: seq<string>, scaler: Scaler)
    : (r: Result<seq<real>>)
    requires Distinct(numericalCols)
    ensures r.Ok? <==>
      && (forall c :: c in featureColumns ==> c in InputColumns)
      && (forall c :: c in numericalCols ==> c in featureColumns)
      && |numericalCols| == |scaler|
    ensures r.Err? ==> r.error.KeyError? || r.error.ShapeMismatch?
    ensures r.Ok? ==> |r.value| == |featureColumns|
    ensures r.Ok? ==> forall k :: 0 <= k < |featureColumns| ==>
      featureColumns[k] in InputColumns &&
      r.value[k] == FeatureValue(t, codes, featureColumns[k], numericalCols, scaler)
  {
    var row := InputRow(t, codes);
    match FirstMissing(featureColumns, row)
    case Some(c) => Err(KeyError(c))
    case None =>
      var selected := Restrict(row, featureColumns);
      assert forall c :: c in selected ==> AllNum(selected[c]);
      match ScaleError(selected, numericalCols, scaler)
      case Some(e) => Err(e)
      case None =>
        var scaled := ScaledColumns(selected, numericalCols, scaler);
        ScaledInputRow(t, codes, featureColumns, numericalCols, scaler);
        var v := RowVector(featureColumns, scaled, 0);
        Ok(v)
  }

  /** One column of the reordered, rescaled input frame: the single cell the classifier reads there. */
  lemma ScaledInputEntry(t: Transaction, codes: Codes, featureColumns: seq<string>,
                         numericalCols: seq<string>, scaler: Scaler, k: nat)
    requires Distinct(numericalCols) && k < |featureColumns|
    requires forall c :: c in featureColumns ==> c in InputColumns
    requires ScaleError(Restrict(InputRow(t, codes), featureColumns), numericalCols, scaler).None?
    ensures featureColumns[k] in InputColumns && |numericalCols| == |scaler|
    ensures var scaled := ScaledColumns(Restrict(InputRow(t, codes), featureColumns), numericalCols, scaler);
      && featureColumns[k] in scaled
      && scaled[featureColumns[k]] == [Num(FeatureValue(t, codes, featureColumns[k], numericalCols, scaler))]
  {
    var selected := Restrict(InputRow(t, codes), featureColumns);
    var scaled := ScaledColumns(selected, numericalCols, scaler);
    var c := featureColumns[k];
    assert c in featureColumns;
    assert selected[c] == [Num(InputValue(t, codes, c))];
    ScaledColumnsAt(selected, numericalCols, scaler, c);
  }

  /** Every column of the reordered, rescaled input frame, and the single number it holds. */
  lemma ScaledInputRow(t: Transaction, codes: Codes, featureColumns: seq<string>,
                       numericalCols: seq<string>, scaler: Scaler)
    requires Distinct(numericalCols)
    requires forall c :: c in featureColumns ==> c in InputColumns
    requires ScaleError(Restrict(InputRow(t, codes), featureColumns), numericalCols, scaler).None?
    ensures |numericalCols| == |scaler|
    ensures var scaled := ScaledColumns(Restrict(InputRow(t, codes), featureColumns), numericalCols, scaler);
      && (forall k :: 0 <= k < |featureColumns| ==>
            featureColumns[k] in scaled &&
            scaled[featureColumns[k]] == [Num(FeatureValue(t, codes, featureColumns[k], numericalCols, scaler))])
      && (forall c :: c in featureColumns ==> c in scaled && AllNum(scaled[c]) && |scaled[c]| == 1)
  {
    var scaled := ScaledColumns(Restrict(InputRow(t, codes), featureColumns), numericalCols, scaler);
    forall k | 0 <= k < |featureColumns|
      ensures featureColumns[k] in scaled
      ensures scaled[featureColumns[k]] == [Num(FeatureValue(t, codes, featureColumns[k], numericalCols, scaler))]
    {
      ScaledInputEntry(t, codes, featureColumns, numericalCols, scaler, k);
    }
  }

  /**
   * Scaling touches only the numerical columns: under any other feature,
   * the encoded choices included, the classifier sees the value as built.
   */
  lemma UnscaledReachClassifier(t: Transaction, codes: Codes, featureColumns: seq<string>,
                                numericalCols: seq<string>, scaler: Scaler, k: nat)
    requires Distinct(numericalCols)
    requires FeatureVector(t, codes, featureColumns, numericalCols, scaler).Ok?
    requires k < |featureColumns| && featureColumns[k] !in numericalCols
    ensures var v := FeatureVector(t, codes, featureColumns, numericalCols, scaler).value;
      && featureColumns[k] in InputColumns
      && v[k] == InputValue(t, codes, featureColumns[k])
      && (featureColumns[k] == "category" ==> v[k] == codes.category as real)
      && (featureColumns[k] == "gender" ==> v[k] == codes.gender as real)
      && (featureColumns[k] == "state" ==> v[k] == codes.state as real)
  {
  }

  // ---------------------------------------------------------------------------
  // The prediction record

  datatype Label = Safe | Fraud

  /** One entry of the prediction history. */
  datatype Record = Record(
    timestamp: string,
    amount: real,
    category: string,
    state: string,
    hour: Hour,
    prediction: Label,
    confidence: real,
    probSafe: real,
    probFraud: real)

  /** Indexing a one-dimensional array, negative positions counting from the end. */
  function ProbaAt(proba: seq<real>, i: int): (r: Result<real>)
    ensures r.Ok? <==> -|proba| <= i < |proba|
    ensures r.Err? ==> r.error == IndexError(i)
  {
    if 0 <= i < |proba| then Ok(proba[i])
    else if -|proba| <= i < 0 then Ok(proba[|proba| + i])
    else Err(IndexError(i))
  }

  /** A negative position names the same entry as the position `|proba|` further on. */
  lemma ProbaAtFromEnd(proba: seq<real>, i: nat)
    requires i < |proba|
    ensures ProbaAt(proba, i - |proba|) == ProbaAt(proba, i) == Ok(proba[i])
  {
  }

  /**
   * The record saved for a prediction: the confidence is the probability of
   * the predicted class, the label is `FRAUD` exactly for class 1, and both
   * class probabilities are kept as percentages.
   */
  function MakeRecord(timestamp: string, t: Transaction, prediction: int, proba: seq<real>): (r: Result<Record>)
    ensures r.Ok? <==> |proba| >= 2 && -|proba| <= prediction < |proba|
    ensures r.Err? ==> r.error.IndexError?
    ensures r.Ok? ==> (r.value.prediction == Fraud <==> prediction == 1)
    ensures r.Ok? ==> r.value.probSafe == proba[0] * 100.0 && r.value.probFraud == proba[1] * 100.0
    ensures r.Ok? ==> 0 <= prediction ==> r.value.confidence == proba[prediction] * 100.0
    ensures r.Ok? ==> r.value.timestamp == timestamp && r.value.amount == t.amt && r.value.hour == t.hour
    ensures r.Ok? ==> r.value.category == t.category && r.value.state == t.state
  {
    var p :- ProbaAt(proba, prediction);
    // Position 0 exists once any position does; position 1 is the next to fail.
    var fraud :- ProbaAt(proba, 1);
    Ok(Record(timestamp, t.amt, t.category, t.state, t.hour,
              if prediction == 1 then Fraud else Safe,
              p * 100.0, proba[0] * 100.0, fraud * 100.0))
  }

  /**
   * For a binary classifier the confidence shown is the probability of the
   * label shown: the fraud probability for `FRAUD`, the safe one for `SAFE`.
   */
  lemma ConfidenceMatchesLabel(timestamp: string, t: Transaction, prediction: int, proba: seq<real>)
    requires prediction == 0 || prediction == 1
    requires |proba| == 2
    ensures var r := MakeRecord(timestamp, t, prediction, proba);
      && r.Ok?
      && r.value.confidence == (if r.value.prediction == Fraud then r.value.probFraud else r.value.probSafe)
  {
  }

  /**
   * A class of -1 would be read from the end of the probability pair: the
   * record says `SAFE` while showing the fraud probability as its confidence.
   */
  lemma NegativeClassReadsFromEnd(timestamp: string, t: Transaction, proba: seq<real>)
    requires |proba| == 2
    ensures var r := MakeRecord(timestamp, t, -1, proba);
      && r.Ok? && r.value.prediction == Safe && r.value.confidence == r.value.probFraud
  {
    ProbaAtFromEnd(proba, 1);
  }

  /** The session's state: the predictions made so far, oldest first. */
  class Session {
    var predictionHistory: seq<Record>

    /** A new session starts with an empty history. */
    constructor ()
      ensures predictionHistory == []
    {
      predictionHistory := [];
    }

    /** `prediction_history.append(record)`. */
    method Append(record: Record)
      modifies this
      ensures predictionHistory == old(predictionHistory) + [record]
    {
      predictionHistory := predictionHistory + [record];
    }
  }

  // ---------------------------------------------------------------------------
  // Risk badges

  datatype AmountRisk = Low | Medium | High | VeryHigh
  datatype TimeRisk = NormalHours | LateNight | EarlyMorning
  datatype AgeGroup = YoungAdult | Adult | MiddleAge | Senior
  datatype DayType = Weekend | Weekday

  /** The amount badge: four adjoining ranges covering every amount. */
  function AmountBadge(amt: real): (b: AmountRisk)
    ensures b == Low <==> amt < 50.0
    ensures b == Medium <==> 50.0 <= amt < 200.0
    ensures b == High <==> 200.0 <= amt < 500.0
    ensures b == VeryHigh <==> 500.0 <= amt
  {
    if amt < 50.0 then Low
    else if amt < 200.0 then Medium
    else if amt < 500.0 then High
    else VeryHigh
  }

  function AmountRank(b: AmountRisk): nat {
    match b
    case Low => 0
    case Medium => 1
    case High => 2
    case VeryHigh => 3
  }

  /** A larger amount never gets a lower amount badge. */
  lemma AmountBadgeMonotone(a1: real, a2: real)
    requires a1 <= a2
    ensures AmountRank(AmountBadge(a1)) <= AmountRank(AmountBadge(a2))
  {
  }

  /** The time badge: day hours 6 to 22, late night 23, 0 and 1, early morning 2 to 5. */
  function TimeBadge(hour: Hour): (b: TimeRisk)
    ensures b == NormalHours <==> 6 <= hour <= 22
    ensures b == LateNight <==> hour == 23 || hour == 0 || hour == 1
    ensures b == EarlyMorning <==> 2 <= hour <= 5
  {
    if 6 <= hour <= 22 then NormalHours
    else if 22 < hour || hour < 2 then LateNight
    else EarlyMorning
  }

  /** The age badge: four adjoining ranges covering every age. */
  function AgeBadge(age: int): (b: AgeGroup)
    ensures b == YoungAdult <==> age < 25
    ensures b == Adult <==> 25 <= age < 40
    ensures b == MiddleAge <==> 40 <= age < 60
    ensures b == Senior <==> 60 <= age
  {
    if age < 25 then YoungAdult
    else if age < 40 then Adult
    else if age < 60 then MiddleAge
    else Senior
  }

  function AgeRank(b: AgeGroup): nat {
    match b
    case YoungAdult => 0
    case Adult => 1
    case MiddleAge => 2
    case Senior => 3
  }

  /** An older cardholder never falls in a younger age group. */
  lemma AgeBadgeMonotone(a1: int, a2: int)
    requires a1 <= a2
    ensures AgeRank(AgeBadge(a1)) <= AgeRank(AgeBadge(a2))
  {
  }

  /** The day badge follows the weekend box. */
  function DayBadge(isWeekend: bool): (b: DayType)
    ensures b == Weekend <==> isWeekend
  {
    if isWeekend then Weekend else Weekday
  }

  datatype Badges = Badges(amount: AmountRisk, time: TimeRisk, age: AgeGroup, day: DayType)

  /** The four badges; the time badge is not normal hours exactly when the unusual-hour factor applies. */
  function BadgesOf(t: Transaction): (b: Badges)
    ensures b.amount == VeryHigh <==> t.amt >= 500.0
    ensures b.time != NormalHours <==> t.hour < 6 || t.hour > 22
    ensures b.age == YoungAdult <==> t.age < 25
    ensures b.day == Weekend <==> t.isWeekend
  {
    Badges(AmountBadge(t.amt), TimeBadge(t.hour), AgeBadge(t.age), DayBadge(t.isWeekend))
  }

  // ---------------------------------------------------------------------------
  // Risk factors

  datatype RiskFactor = HighAmount | UnusualHour | WeekendDay | RiskyCategory

  /** The categories the tab singles out as riskier. */
  const RiskyCategories: seq<string> := ["gas_transport", "misc_net", "shopping_net"]

  /** The position of a factor in the list the tab builds. */
  function FactorRank(f: RiskFactor): nat {
    match f
    case HighAmount => 0
    case UnusualHour => 1
    case WeekendDay => 2
    case RiskyCategory => 3
  }

  /**
   * The factor list: amounts over 500, hours before 6 or after 22, weekends
   * and the riskier categories, each added at most once and in that order.
   */
  method RiskFactors(t: Transaction) returns (factors: seq<RiskFactor>)
    ensures HighAmount in factors <==> t.amt > 500.0
    ensures UnusualHour in factors <==> t.hour < 6 || t.hour > 22
    ensures WeekendDay in factors <==> t.isWeekend
    ensures RiskyCategory in factors <==> t.category in RiskyCategories
    ensures forall i, j :: 0 <= i < j < |factors| ==> FactorRank(factors[i]) < FactorRank(factors[j])
  {
    var risky := t.category in RiskyCategories;
    factors := [];
    if t.amt > 500.0 {
      factors := factors + [HighAmount];
    }
    if t.hour < 6 || t.hour > 22 {
      factors := factors + [UnusualHour];
    }
    if t.isWeekend {
      factors := factors + [WeekendDay];
    }
    if risky {
      factors := factors + [RiskyCategory];
    }
  }

  /** The unusual-hour factor is listed exactly when the time badge is not normal hours. */
  lemma UnusualHourMatchesBadge(hour: Hour)
    ensures (hour < 6 || hour > 22) <==> TimeBadge(hour) != NormalHours
  {
  }

  /**
   * The amount factor implies the top amount badge, but not the other way
   * round: an amount of exactly 500 is badged very high without the factor.
   */
  lemma AmountFactorAndBadge(amt: real)
    ensures amt > 500.0 ==> AmountBadge(amt) == VeryHigh
  {
  }

  /** A transaction of exactly 500 dollars: badged very high, yet not listed as a high amount. */
  method ExactlyFiveHundred(t: Transaction) returns (factors: seq<RiskFactor>)
    requires t.amt == 500.0
    ensures HighAmount !in factors && BadgesOf(t).amount == VeryHigh
  {
    factors := RiskFactors(t);
  }

  // ---------------------------------------------------------------------------
  // One analysis

  /**
   * The record an analysis saves, or the exception raised before it is
   * saved: encoding, building the feature row, classifying, and reading the
   * probabilities.
   */
  function Prediction(model: Classifier, scaler: Scaler, encoders: map<string, seq<string>>,
                      featureColumns: seq<string>, numericalCols: seq<string>,
                      t: Transaction, timestamp: string): (r: Result<Record>)
    requires Distinct(numericalCols)
    ensures r.Ok? ==> Offered(encoders, t)
    ensures !Offered(encoders, t) ==> r == Err(EncodeInputs(encoders, t).error)
    ensures r.Err? ==> r.error.KeyError? || r.error.UnseenLabel? || r.error.ShapeMismatch? || r.error.IndexError?
    ensures r.Ok? ==> r.value.timestamp == timestamp && r.value.amount == t.amt && r.value.hour == t.hour
    ensures r.Ok? ==> r.value.category == t.category && r.value.state == t.state
  {
    var codes :- EncodeInputs(encoders, t);
    var x :- FeatureVector(t, codes, featureColumns, numericalCols, scaler);
    MakeRecord(timestamp, t, model.predict(x), model.predictProba(x))
  }

  datatype Analysis = Analysis(record: Record, badges: Badges, factors: seq<RiskFactor>)

  /**
   * The analysis button: encode the choices, build the one-row frame,
   * reorder it to the feature columns, rescale it in place, classify it,
   * append the record to the history, then work out the badges and factors.
   * An exception leaves the history as it was.
   */
  method Analyze(session: Session, model: Classifier, scaler: Scaler, encoders: map<string, seq<string>>,
                 featureColumns: seq<string>, numericalCols: seq<string>, t: Transaction, timestamp: string)
    returns (r: Result<Analysis>)
    requires Distinct(featureColumns) && Distinct(numericalCols)
    modifies session
    ensures var p := Prediction(model, scaler, encoders, featureColumns, numericalCols, t, timestamp);
      && (r.Ok? <==> p.Ok?)
      && (r.Ok? ==> r.value.record == p.value && session.predictionHistory == old(session.predictionHistory) + [p.value])
      && (r.Err? ==> r.error == p.error && session.predictionHistory == old(session.predictionHistory))
    ensures r.Ok? ==> r.value.badges == BadgesOf(t)
    ensures r.Ok? ==> (HighAmount in r.value.factors <==> t.amt > 500.0)
    ensures r.Ok? ==> (UnusualHour in r.value.factors <==> t.hour < 6 || t.hour > 22)
    ensures r.Ok? ==> (UnusualHour in r.value.factors <==> r.value.badges.time != NormalHours)
    ensures r.Ok? ==> (WeekendDay in r.value.factors <==> t.isWeekend)
    ensures r.Ok? ==> (RiskyCategory in r.value.factors <==> t.category in RiskyCategories)
    ensures r.Ok? ==> forall i, j :: 0 <= i < j < |r.value.factors| ==>
      FactorRank(r.value.factors[i]) < FactorRank(r.value.factors[j])
  {
    var codes := EncodeInputs(encoders, t);
    if codes.Err? {
      return Err(codes.error);
    }
    var input := new Frame(InputColumns, InputRow(t, codes.value), 1);
    var selected := input.Select(featureColumns);
    if selected.Err? {
      return Err(selected.error);
    }
    var X := selected.value;
    var e := X.ScaleColumns(numericalCols, scaler);
    if e.Some? {
      return Err(e.value);
    }
    ScaledInputRow(t, codes.value, featureColumns, numericalCols, scaler);
    var x := RowVector(featureColumns, X.data, 0);
    var expected := FeatureVector(t, codes.value, featureColumns, numericalCols, scaler);
    assert expected.Ok? && x == expected.value;
    var record := MakeRecord(timestamp, t, model.predict(x), model.predictProba(x));
    if record.Err? {
      return Err(record.error);
    }
    session.Append(record.value);
    var factors := RiskFactors(t);
    UnusualHourMatchesBadge(t.hour);
    r := Ok(Analysis(record.value, BadgesOf(t), factors));
  }
}
