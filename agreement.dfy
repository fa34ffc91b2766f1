/**
 * What makes the model saved by training usable by the inference tab: the
 * tab derives the same features, gives a category the code training gave
 * it, and supplies every feature column training can produce.
 */
module Agreement {
  import opened Seqs
  import opened Errors
  import opened Features
  import opened Frames
  import opened LabelEncoding
  import opened Preprocessing
  import opened FraudDetection

  /**
   * A transaction entered with the amount, hour, weekend flag and age of a
   * training row gets, before scaling, the same four derived values that
   * row got in training.
   */
  lemma DerivedFeaturesAgree(raw: Columns, currentYear: int, i: nat, t: Transaction, codes: Codes)
    requires EngineeringError(raw).None?
    requires |raw["dob"]| == |raw[TransTime]| == |raw["amt"]| && i < |raw["amt"]|
    requires t.amt == raw["amt"][i].x && t.hour == raw[TransTime][i].t.hour
    requires t.isWeekend <==> raw[TransTime][i].t.dayOfWeek in {5, 6}
    requires t.age == AgeInYears(currentYear, raw["dob"][i].t.year)
    ensures forall c :: c in DerivedCols ==>
      c in InputColumns && EngineeredData(raw, currentYear)[c][i] == Num(InputValue(t, codes, c))
  {
    var r := EngineeredData(raw, currentYear);
    assert DerivedRow(raw, r, currentYear, i);
  }

  /**
   * A value of a training row's categorical column, entered in the form,
   * is encoded by the saved encoder to the very code that row was given.
   */
  lemma CodesAgree(data: Columns, cats: seq<string>, c: string, i: nat)
    requires Encodable(data, cats) && c in cats && c in data && i < |data[c]|
    ensures c in FittedEncoders(data, cats)
    ensures var r := Encode(FittedEncoders(data, cats), c, data[c][i].s);
      r.Ok? && EncodedColumns(data, cats)[c][i] == Num(r.value as real)
  {
    var texts := Texts(data[c]);
    FittedEncodersAre(data, cats, c);
    FitCodesConsistent(texts, i, i);
    assert data[c][i].s == texts[i];
  }

  /**
   * Every feature column training saves is one the form supplies exactly
   * when every raw column training keeps is one of the form's columns.
   */
  lemma TrainedFeaturesSelectable(rawColumns: seq<string>, dropCols: seq<string>)
    ensures (forall c :: c in FeatureColumns(rawColumns, dropCols) ==> c in InputColumns) <==>
      (forall c :: c in rawColumns && c !in dropCols && c != Target ==> c in InputColumns)
  {
    var f := FeatureColumns(rawColumns, dropCols);
    assert forall c :: c in DerivedCols ==> c in InputColumns;
    if forall c :: c in f ==> c in InputColumns {
      forall c | c in rawColumns && c !in dropCols && c != Target
        ensures c in InputColumns
      {
        assert c in f;
      }
    }
  }

  /**
   * When the drop list spares the numerical columns, the features include
   * all five of them exactly when the loaded table has an `amt` column; the
   * other four are derived.
   */
  lemma NumericalColumnsAmongFeatures(rawColumns: seq<string>, dropCols: seq<string>)
    requires forall c :: c in NumericalCols ==> c !in dropCols
    ensures (forall c :: c in NumericalCols ==> c in FeatureColumns(rawColumns, dropCols)) <==> "amt" in rawColumns
  {
    forall c | c in NumericalCols
      ensures c != Target
    {
      NumericalApart(c);
    }
    assert "amt" in NumericalCols && "amt" !in DerivedCols;
  }
}
