/**
 * The preprocessing both training scripts run on the transaction table
 * before fitting: derive `age`, `hour`, `is_weekend` and
 * `amt_per_hour_ratio`, drop the unused columns, split off `is_fraud`,
 * label-encode the categorical columns and standardize the numerical ones.
 */
module Preprocessing {
  import opened Seqs
  import opened Errors
  import opened Features
  import opened Frames
  import opened LabelEncoding
  import opened Scaling

  const Target := "is_fraud"
  const TransTime := "trans_date_trans_time"

  const CategoricalCols: seq<string> := ["category", "gender", "state"]
  const NumericalCols: seq<string> := ["amt", "age", "hour", "is_weekend", "amt_per_hour_ratio"]

  /** The four columns the feature-engineering step assigns, in assignment order. */
  const DerivedCols: seq<string> := ["age", "hour", "is_weekend", "amt_per_hour_ratio"]

  lemma ColumnListsDistinct()
    ensures Distinct(CategoricalCols) && Distinct(NumericalCols)
  {
  }

  /** A categorical column is neither derived, nor scaled, nor the target. */
  lemma CategoricalApart(c: string)
    requires c in CategoricalCols
    ensures c !in DerivedCols && c !in NumericalCols && c != Target
  {
    if c == "category" {
    } else if c == "gender" {
    } else {
    }
  }

  /** A numerical column is neither categorical nor the target. */
  lemma NumericalApart(c: string)
    requires c in NumericalCols
    ensures c !in CategoricalCols && c != Target
  {
    if c == "amt" {
    } else if c == "age" {
    } else if c == "hour" {
    } else if c == "is_weekend" {
    } else {
    }
  }

  // ---------------------------------------------------------------------------
  // Feature engineering

  /** What the feature-engineering step raises on a table, if anything. */
  function EngineeringError(data: Columns): (e: Option<Error>)
    ensures e.None? <==>
      && "dob" in data && AllTime(data["dob"])
      && TransTime in data && AllTime(data[TransTime])
      && "amt" in data && AllNum(data["amt"])
  {
    if "dob" !in data then Some(KeyError("dob"))
    else if !AllTime(data["dob"]) then Some(NotATimestamp("dob"))
    else if TransTime !in data then Some(KeyError(TransTime))
    else if !AllTime(data[TransTime]) then Some(NotATimestamp(TransTime))
    else if "amt" !in data then Some(KeyError("amt"))
    else if !AllNum(data["amt"]) then Some(NotNumeric("amt"))
    else None
  }

  function AgeCells(currentYear: int, dob: seq<Cell>): (r: seq<Cell>)
    requires AllTime(dob)
    ensures |r| == |dob| && AllNum(r)
  {
    seq(|dob|, i requires 0 <= i < |dob| => Num(AgeInYears(currentYear, dob[i].t.year) as real))
  }

  function HourCells(at: seq<Cell>): (r: seq<Cell>)
    requires AllTime(at)
    ensures |r| == |at| && AllNum(r)
  {
    seq(|at|, i requires 0 <= i < |at| => Num(at[i].t.hour as real))
  }

  function WeekendCells(at: seq<Cell>): (r: seq<Cell>)
    requires AllTime(at)
    ensures |r| == |at| && AllNum(r)
  {
    seq(|at|, i requires 0 <= i < |at| => Num(IsWeekend(at[i].t.dayOfWeek) as real))
  }

  function RatioCells(amt: seq<Cell>, at: seq<Cell>): (r: seq<Cell>)
    requires AllNum(amt) && AllTime(at) && |amt| == |at|
    ensures |r| == |at| && AllNum(r)
  {
    seq(|at|, i requires 0 <= i < |at| => Num(AmtPerHourRatio(amt[i].x, at[i].t.hour)))
  }

  /** The column list after the four assignments: each new name goes at the end. */
  function EngineeredColumns(columns: seq<string>): (r: seq<string>)
    ensures forall c :: c in r <==> c in columns || c in DerivedCols
    ensures Distinct(columns) ==> Distinct(r)
    ensures |columns| <= |r| && r[..|columns|] == columns
  {
    WithColumn(WithColumn(WithColumn(WithColumn(columns, "age"), "hour"), "is_weekend"), "amt_per_hour_ratio")
  }

  /** Row `i` of the derived columns, in terms of that row's birth date, timestamp and amount. */
  predicate DerivedRow(data: Columns, r: Columns, currentYear: int, i: nat)
    requires EngineeringError(data).None?
    requires i < |data["dob"]| && i < |data[TransTime]| && i < |data["amt"]|
    requires forall c :: c in DerivedCols ==> c in r && i < |r[c]|
  {
    var born, at, amt := data["dob"][i].t, data[TransTime][i].t, data["amt"][i].x;
    && r["age"][i] == Num(AgeInYears(currentYear, born.year) as real)
    && r["hour"][i] == Num(at.hour as real)
    && r["is_weekend"][i] == Num(IsWeekend(at.dayOfWeek) as real)
    && r["amt_per_hour_ratio"][i] == Num(AmtPerHourRatio(amt, at.hour))
  }

  /**
   * The table after the feature-engineering step: the four derived columns
   * hold, row by row, the age, the hour, the weekend flag and the
   * hour-normalised amount; every other column is as it was.
   */
  function EngineeredData(data: Columns, currentYear: int): (r: Columns)
    requires EngineeringError(data).None?
    requires |data["dob"]| == |data[TransTime]| == |data["amt"]|
    ensures forall c :: c in r <==> c in data || c in DerivedCols
    ensures forall c :: c in data && c !in DerivedCols ==> r[c] == data[c]
    ensures forall c :: c in DerivedCols ==> |r[c]| == |data["amt"]| && AllNum(r[c])
    ensures forall i :: 0 <= i < |data["amt"]| ==> DerivedRow(data, r, currentYear, i)
  {
    var dob, at, amt := data["dob"], data[TransTime], data["amt"];
    data["age" := AgeCells(currentYear, dob)]
        ["hour" := HourCells(at)]
        ["is_weekend" := WeekendCells(at)]
        ["amt_per_hour_ratio" := RatioCells(amt, at)]
  }

  /**
   * Lines that derive the features, run on the table in place. `dob` and
   * `trans_date_trans_time` hold already parsed timestamps.
   */
  method EngineerFeatures(df: Frame, currentYear: int) returns (e: Option<Error>)
    requires df.Valid()
    modifies df
    ensures df.Valid() && df.height == old(df.height)
    ensures e == EngineeringError(old(df.data))
    ensures e.None? ==> df.columns == EngineeredColumns(old(df.columns))
    ensures e.None? ==> df.data == EngineeredData(old(df.data), currentYear)
  {
    var dob := df.Column("dob");
    if dob.Err? {
      return Some(dob.error);
    }
    if !AllTime(dob.value) {
      return Some(NotATimestamp("dob"));
    }
    df.SetColumn("age", AgeCells(currentYear, dob.value));

    var at := df.Column(TransTime);
    if at.Err? {
      return Some(at.error);
    }
    if !AllTime(at.value) {
      return Some(NotATimestamp(TransTime));
    }
    df.SetColumn("hour", HourCells(at.value));
    df.SetColumn("is_weekend", WeekendCells(at.value));

    var amt := df.Column("amt");
    if amt.Err? {
      return Some(amt.error);
    }
    if !AllNum(amt.value) {
      return Some(NotNumeric("amt"));
    }
    df.SetColumn("amt_per_hour_ratio", RatioCells(amt.value, at.value));
    e := None;
  }

  // ---------------------------------------------------------------------------
  // Label encoding

  function Texts(col: seq<Cell>): (r: seq<string>)
    requires AllText(col)
    ensures |r| == |col| && forall i :: 0 <= i < |col| ==> col[i] == Text(r[i])
  {
    seq(|col|, i requires 0 <= i < |col| => col[i].s)
  }

  /** A text column replaced by the codes `fit_transform` gives its values. */
  function CodeCells(col: seq<Cell>): (r: seq<Cell>)
    requires AllText(col)
    ensures |r| == |col| && AllNum(r)
  {
    var codes := FitCodes(Texts(col));
    seq(|col|, i requires 0 <= i < |col| => Num(codes[i] as real))
  }

  /** The categorical columns a table must hold as text to be encoded. */
  predicate Encodable(data: Columns, cats: seq<string>) {
    forall c :: c in cats && c in data ==> AllText(data[c])
  }

  /**
   * The `label_encoders` dictionary the loop builds: one encoder, fitted on
   * the column, for each listed column the table has; absent ones skipped.
   */
  function FittedEncoders(data: Columns, cats: seq<string>): (m: map<string, seq<string>>)
    requires Encodable(data, cats)
    ensures forall c :: c in m <==> c in cats && c in data
    ensures forall c :: c in m ==> Sorted(m[c]) && (forall v :: v in m[c] <==> v in Texts(data[c]))
    decreases |cats|
  {
    if cats == [] then map[]
    else
      var n := |cats| - 1;
      assert forall c :: c in cats[..n] ==> c in cats;
      assert forall c :: c in cats ==> c in cats[..n] || c == cats[n];
      var m := FittedEncoders(data, cats[..n]);
      if cats[n] in data then m[cats[n] := Fit(Texts(data[cats[n]]))] else m
  }

  /** The table after the loop: each listed column present replaced by its codes, the rest untouched. */
  function EncodedColumns(data: Columns, cats: seq<string>): (r: Columns)
    requires Encodable(data, cats)
    ensures r.Keys == data.Keys
    ensures forall c :: c in data && c !in cats ==> r[c] == data[c]
    ensures forall c :: c in data && c in cats ==> r[c] == CodeCells(data[c])
    decreases |cats|
  {
    if cats == [] then data
    else
      var n := |cats| - 1;
      assert forall c :: c in cats[..n] ==> c in cats;
      assert forall c :: c in cats ==> c in cats[..n] || c == cats[n];
      var r := EncodedColumns(data, cats[..n]);
      if cats[n] in data then r[cats[n] := CodeCells(data[cats[n]])] else r
  }

  /** Each code in an encoded column decodes, under the stored encoder, to the original text. */
  lemma EncodedColumnDecodes(data: Columns, cats: seq<string>, c: string, i: nat)
    requires Encodable(data, cats) && c in cats && c in data && i < |data[c]|
    ensures c in FittedEncoders(data, cats) && EncodedColumns(data, cats)[c][i].Num?
    ensures var code := EncodedColumns(data, cats)[c][i].x;
      exists k: nat :: k as real == code &&
        InverseTransform(FittedEncoders(data, cats)[c], k) == Some(data[c][i].s)
  {
    var texts := Texts(data[c]);
    var k := FitCodes(texts)[i];
    assert EncodedColumns(data, cats)[c][i] == Num(k as real);
    assert FittedEncoders(data, cats)[c] == Fit(texts) by {
      FittedEncodersAre(data, cats, c);
    }
    assert InverseTransform(Fit(texts), k) == Some(texts[i]);
  }

  /** The encoder stored under a column is the one fitted on that column. */
  lemma {:induction false} FittedEncodersAre(data: Columns, cats: seq<string>, c: string)
    requires Encodable(data, cats) && c in cats && c in data
    ensures FittedEncoders(data, cats)[c] == Fit(Texts(data[c]))
    decreases |cats|
  {
    var n := |cats| - 1;
    if cats[n] != c {
      assert c in cats[..n];
      FittedEncodersAre(data, cats[..n], c);
    }
  }

  /**
   * The encoder loop, run on the feature table in place: a listed column the
   * table has is replaced by its codes and its encoder is stored under its
   * name; a listed column it lacks is skipped.
   */
  method EncodeCategoricals(X: Frame, cats: seq<string>) returns (encoders: map<string, seq<string>>)
    requires X.Valid() && Encodable(X.data, cats) && Distinct(cats)
    modifies X
    ensures X.Valid() && X.columns == old(X.columns) && X.height == old(X.height)
    ensures X.data == EncodedColumns(old(X.data), cats)
    ensures encoders == FittedEncoders(old(X.data), cats)
  {
    var before := X.data;
    encoders := map[];
    for k := 0 to |cats|
      invariant X.Valid() && X.columns == old(X.columns) && X.height == old(X.height)
      invariant before == old(X.data)
      invariant X.data == EncodedColumns(before, cats[..k])
      invariant encoders == FittedEncoders(before, cats[..k])
    {
      var col := cats[k];
      assert cats[..k + 1][..k] == cats[..k] && cats[..k + 1][k] == col;
      if col in X.columns {
        assert col !in cats[..k];
        var values := X.data[col];
        assert values == before[col];
        encoders := encoders[col := Fit(Texts(values))];
        X.SetColumn(col, CodeCells(values));
      }
    }
    assert cats[..|cats|] == cats;
  }

  // ---------------------------------------------------------------------------
  // The whole preprocessing pass

  /** `X[numerical_cols] = scaler.fit_transform(X[numerical_cols])` with the fitted parameters. */
  function ScaledNumerical(data: Columns, scaler: Scaler): (r: Columns)
    requires ScaleError(data, NumericalCols, scaler).None?
    ensures r.Keys == data.Keys
  {
    ColumnListsDistinct();
    ScaledColumns(data, NumericalCols, scaler)
  }

  /**
   * The feature column order training saves (`X.columns.tolist()`): the
   * table's columns with the derived ones appended, the listed columns
   * dropped and the target split off.
   */
  function FeatureColumns(rawColumns: seq<string>, dropCols: seq<string>): (r: seq<string>)
    ensures Target !in r
    ensures forall c :: c in r <==> (c in rawColumns || c in DerivedCols) && c !in dropCols && c != Target
    ensures Distinct(rawColumns) ==> Distinct(r)
  {
    Without(Without(EngineeredColumns(rawColumns), set c | c in dropCols), {Target})
  }

  /** The table after feature engineering and `drop(columns=drop_cols, errors='ignore')`. */
  function KeptData(raw: Columns, currentYear: int, dropCols: seq<string>): (r: Columns)
    requires EngineeringError(raw).None?
    requires |raw["dob"]| == |raw[TransTime]| == |raw["amt"]|
    ensures forall c :: c in r <==> (c in raw || c in DerivedCols) && c !in dropCols
    ensures forall c :: c in r && c !in DerivedCols ==> r[c] == raw[c]
  {
    EngineeredData(raw, currentYear) - (set c | c in dropCols)
  }

  /** Every column a kept table inherits from the raw one is unchanged, so categorical ones stay text. */
  lemma KeptEncodable(raw: Columns, currentYear: int, dropCols: seq<string>)
    requires EngineeringError(raw).None? && Encodable(raw, CategoricalCols)
    requires |raw["dob"]| == |raw[TransTime]| == |raw["amt"]|
    ensures Encodable(KeptData(raw, currentYear, dropCols) - {Target}, CategoricalCols)
  {
    var kept := KeptData(raw, currentYear, dropCols) - {Target};
    forall c | c in CategoricalCols && c in kept
      ensures AllText(kept[c])
    {
      CategoricalApart(c);
    }
  }

  /**
   * What the preprocessing pass raises, in the order the script meets it:
   * feature engineering, then a missing target, then scaling.
   */
  function PrepareError(raw: Columns, height: nat, currentYear: int, dropCols: seq<string>, scaler: Scaler)
    : (e: Option<Error>)
    requires (forall c :: c in raw ==> |raw[c]| == height) && Encodable(raw, CategoricalCols)
    ensures EngineeringError(raw).Some? ==> e == EngineeringError(raw)
    ensures e.None? ==> EngineeringError(raw).None? && Target in KeptData(raw, currentYear, dropCols)
    ensures EngineeringError(raw).None? && Target !in KeptData(raw, currentYear, dropCols) ==> e == Some(KeyError(Target))
    ensures |scaler| == |NumericalCols| ==> !(e.Some? && e.value.ShapeMismatch?)
    ensures e.Some? ==> e.value.KeyError? || e.value.NotATimestamp? || e.value.NotNumeric? || e.value.ShapeMismatch?
  {
    match EngineeringError(raw)
    case Some(e) => Some(e)
    case None =>
      var kept := KeptData(raw, currentYear, dropCols);
      if Target !in kept then Some(KeyError(Target))
      else
        KeptEncodable(raw, currentYear, dropCols);
        ScaleError(EncodedColumns(kept - {Target}, CategoricalCols), NumericalCols, scaler)
  }

  /** The feature table the pass leaves in `X`: encoded categorical columns, standardized numerical ones. */
  function FeatureData(raw: Columns, height: nat, currentYear: int, dropCols: seq<string>, scaler: Scaler)
    : (r: Columns)
    requires (forall c :: c in raw ==> |raw[c]| == height) && Encodable(raw, CategoricalCols)
    requires PrepareError(raw, height, currentYear, dropCols, scaler).None?
    ensures r.Keys == KeptData(raw, currentYear, dropCols).Keys - {Target}
  {
    var kept := KeptData(raw, currentYear, dropCols);
    KeptEncodable(raw, currentYear, dropCols);
    ScaledNumerical(EncodedColumns(kept - {Target}, CategoricalCols), scaler)
  }

  /** The `label_encoders` dictionary the pass builds. */
  function FeatureEncoders(raw: Columns, height: nat, currentYear: int, dropCols: seq<string>)
    : (m: map<string, seq<string>>)
    requires (forall c :: c in raw ==> |raw[c]| == height) && Encodable(raw, CategoricalCols)
    requires EngineeringError(raw).None?
    ensures forall c :: c in m ==> c in CategoricalCols && Sorted(m[c])
  {
    KeptEncodable(raw, currentYear, dropCols);
    FittedEncoders(KeptData(raw, currentYear, dropCols) - {Target}, CategoricalCols)
  }

  /** What the pass produces: the feature table `X`, the target `y` and the encoders. */
  datatype Prepared = Prepared(X: Frame, y: seq<Cell>, encoders: map<string, seq<string>>)

  /**
   * `df.drop(columns=drop_cols, errors='ignore')` followed by
   * `X = df.drop(columns=['is_fraud'])` and `y = df['is_fraud']`; the second
   * drop raises a `KeyError` when the target is gone.
   */
  method DropAndSplit(df: Frame, dropCols: seq<string>) returns (r: Result<(Frame, seq<Cell>)>)
    requires df.Valid()
    ensures var kept := df.data - (set c | c in dropCols);
      && (r.Err? <==> Target !in kept)
      && (r.Err? ==> r.error == KeyError(Target))
      && (r.Ok? ==> fresh(r.value.0) && r.value.0.Valid() && r.value.0.height == df.height)
      && (r.Ok? ==> r.value.0.columns == Without(Without(df.columns, set c | c in dropCols), {Target}))
      && (r.Ok? ==> r.value.0.data == kept - {Target} && r.value.1 == kept[Target])
  {
    var kept := df.Drop(dropCols, true);
    var df2 := kept.value;
    var x := df2.Drop([Target], false);
    assert (set n | n in [Target]) == {Target};
    if x.Err? {
      return Err(x.error);
    }
    var y := df2.Column(Target);
    r := Ok((x.value, y.value));
  }

  /**
   * The encoder loop followed by `X[numerical_cols] = scaler.fit_transform(...)`,
   * on the feature table in place.
   */
  method EncodeAndScale(X: Frame, scaler: Scaler) returns (encoders: map<string, seq<string>>, e: Option<Error>)
    requires X.Valid() && Encodable(X.data, CategoricalCols)
    modifies X
    ensures X.Valid() && X.columns == old(X.columns) && X.height == old(X.height)
    ensures encoders == FittedEncoders(old(X.data), CategoricalCols)
    ensures e == ScaleError(EncodedColumns(old(X.data), CategoricalCols), NumericalCols, scaler)
    ensures e.None? ==> X.data == ScaledNumerical(EncodedColumns(old(X.data), CategoricalCols), scaler)
  {
    ColumnListsDistinct();
    encoders := EncodeCategoricals(X, CategoricalCols);
    e := X.ScaleColumns(NumericalCols, scaler);
  }

  /**
   * The script from feature engineering to scaling, run on the loaded
   * table `df`; `scaler` holds the parameters `StandardScaler.fit` finds on
   * the numerical columns.
   */
  method Prepare(df: Frame, currentYear: int, dropCols: seq<string>, scaler: Scaler) returns (r: Result<Prepared>)
    requires df.Valid() && Encodable(df.data, CategoricalCols)
    modifies df
    ensures r.Err? <==> PrepareError(old(df.data), old(df.height), currentYear, dropCols, scaler).Some?
    ensures r.Err? ==> Some(r.error) == PrepareError(old(df.data), old(df.height), currentYear, dropCols, scaler)
    ensures r.Ok? ==> fresh(r.value.X) && r.value.X.Valid() && r.value.X.height == old(df.height)
    ensures r.Ok? ==> r.value.X.columns == FeatureColumns(old(df.columns), dropCols)
    ensures r.Ok? ==> r.value.X.data == FeatureData(old(df.data), old(df.height), currentYear, dropCols, scaler)
    ensures r.Ok? ==> r.value.encoders == FeatureEncoders(old(df.data), old(df.height), currentYear, dropCols)
    ensures r.Ok? ==> r.value.y == KeptData(old(df.data), currentYear, dropCols)[Target]
  {
    ghost var raw, height := df.data, df.height;
    var e := EngineerFeatures(df, currentYear);
    if e.Some? {
      return Err(e.value);
    }
    assert df.data == EngineeredData(raw, currentYear);
    var split := DropAndSplit(df, dropCols);
    if split.Err? {
      return Err(split.error);
    }
    var X := split.value.0;
    KeptEncodable(raw, currentYear, dropCols);
    var encoders, se := EncodeAndScale(X, scaler);
    if se.Some? {
      return Err(se.value);
    }
    r := Ok(Prepared(X, split.value.1, encoders));
  }

  // ---------------------------------------------------------------------------
  // What the pass promises

  /** Scaling leaves the encoded categorical columns exactly as the encoder loop wrote them. */
  lemma ScalingKeepsCodes(raw: Columns, height: nat, currentYear: int, dropCols: seq<string>, scaler: Scaler, c: string)
    requires (forall c :: c in raw ==> |raw[c]| == height) && Encodable(raw, CategoricalCols)
    requires PrepareError(raw, height, currentYear, dropCols, scaler).None?
    requires c in CategoricalCols && c in KeptData(raw, currentYear, dropCols) - {Target}
    ensures c in raw && c in FeatureData(raw, height, currentYear, dropCols, scaler)
    ensures FeatureData(raw, height, currentYear, dropCols, scaler)[c] == CodeCells(raw[c])
  {
    CategoricalApart(c);
    var kept := KeptData(raw, currentYear, dropCols);
    var ek := kept - {Target};
    assert ek[c] == kept[c] == raw[c];
    KeptEncodable(raw, currentYear, dropCols);
    var encoded := EncodedColumns(ek, CategoricalCols);
    assert encoded[c] == CodeCells(raw[c]);
    ColumnListsDistinct();
    assert FeatureData(raw, height, currentYear, dropCols, scaler) == ScaledNumerical(encoded, scaler);
    ScaledColumnsAt(encoded, NumericalCols, scaler, c);
  }

  /**
   * The k-th numerical column is the derived (or loaded) column standardized
   * with the k-th scaler parameters; the encoder loop did not touch it.
   */
  lemma NumericalColumnsScaled(raw: Columns, height: nat, currentYear: int, dropCols: seq<string>, scaler: Scaler, k: nat)
    requires (forall c :: c in raw ==> |raw[c]| == height) && Encodable(raw, CategoricalCols)
    requires PrepareError(raw, height, currentYear, dropCols, scaler).None?
    requires k < |NumericalCols|
    ensures EngineeringError(raw).None? && NumericalCols[k] in KeptData(raw, currentYear, dropCols)
    ensures AllNum(KeptData(raw, currentYear, dropCols)[NumericalCols[k]]) && k < |scaler|
    ensures FeatureData(raw, height, currentYear, dropCols, scaler)[NumericalCols[k]]
         == StandardizeCells(KeptData(raw, currentYear, dropCols)[NumericalCols[k]], scaler[k])
  {
    var kept := KeptData(raw, currentYear, dropCols);
    KeptEncodable(raw, currentYear, dropCols);
    var encoded := EncodedColumns(kept - {Target}, CategoricalCols);
    var c := NumericalCols[k];
    assert encoded[c] == kept[c] by {
      assert c in NumericalCols;
      NumericalApart(c);
    }
    ColumnListsDistinct();
    ScaledColumnAtIndex(encoded, NumericalCols, scaler, k);
  }

  /** The encoders are stored only under categorical names, and under each one the table still has. */
  lemma EncoderKeys(raw: Columns, height: nat, currentYear: int, dropCols: seq<string>)
    requires (forall c :: c in raw ==> |raw[c]| == height) && Encodable(raw, CategoricalCols)
    requires EngineeringError(raw).None?
    ensures forall c :: c in FeatureEncoders(raw, height, currentYear, dropCols) <==>
      c in CategoricalCols && c in raw && c !in dropCols
  {
    forall c ensures c in FeatureEncoders(raw, height, currentYear, dropCols) <==>
      c in CategoricalCols && c in raw && c !in dropCols
    {
      if c in CategoricalCols {
        CategoricalApart(c);
      }
    }
  }
}
