/**
 * The part of a pandas `DataFrame` the scripts rely on: an ordered list of
 * distinct column names, one column of cells per name, all of one height.
 * Assigning a column changes the frame in place; `drop` and selecting a
 * list of columns build a new frame.
 */
module Frames {
  import opened Seqs
  import opened Errors
  import opened Features
  import opened Scaling

  /** A parsed date and time, reduced to the parts the features use. */
  datatype Stamp = Stamp(year: int, hour: Hour, dayOfWeek: DayOfWeek)

  datatype Cell = Text(s: string) | Num(x: real) | Time(t: Stamp)

  /** Column name to column values. */
  type Columns = map<string, seq<Cell>>

  predicate AllNum(col: seq<Cell>) {
    forall i :: 0 <= i < |col| ==> col[i].Num?
  }

  predicate AllText(col: seq<Cell>) {
    forall i :: 0 <= i < |col| ==> col[i].Text?
  }

  predicate AllTime(col: seq<Cell>) {
    forall i :: 0 <= i < |col| ==> col[i].Time?
  }

  /** Distinct names, a column for exactly the listed names, every column `height` cells long. */
  predicate WellFormed(columns: seq<string>, data: Columns, height: nat) {
    && Distinct(columns)
    && (forall c :: c in data ==> c in columns)
    && (forall c :: c in columns ==> c in data)
    && (forall c :: c in data ==> |data[c]| == height)
  }

  /** The first of `names` that is not a column, if any: the label a `KeyError` names. */
  function FirstMissing(names: seq<string>, data: Columns): (r: Option<string>)
    ensures r.None? <==> forall n :: n in names ==> n in data
    ensures r.Some? ==> r.value in names && r.value !in data
  {
    if names == [] then None
    else if names[0] !in data then Some(names[0])
    else FirstMissing(names[1..], data)
  }

  /** The first of `names` (all present) whose column holds a cell that is not a number. */
  function FirstNonNumeric(names: seq<string>, data: Columns): (r: Option<string>)
    requires forall n :: n in names ==> n in data
    ensures r.None? <==> forall n :: n in names ==> AllNum(data[n])
    ensures r.Some? ==> r.value in names && !AllNum(data[r.value])
  {
    if names == [] then None
    else if !AllNum(data[names[0]]) then Some(names[0])
    else FirstNonNumeric(names[1..], data)
  }

  /** The listed columns, and no others. */
  function Restrict(data: Columns, names: seq<string>): (r: Columns)
    ensures forall c :: c in r <==> c in data && c in names
    ensures forall c :: c in r ==> r[c] == data[c]
  {
    map c | c in data && c in names :: data[c]
  }

  /** One column standardized with one pair of scaler parameters. */
  function StandardizeCells(col: seq<Cell>, p: Param): (r: seq<Cell>)
    requires AllNum(col)
    ensures |r| == |col| && AllNum(r)
    ensures forall i :: 0 <= i < |col| ==> r[i] == Num(Standardize(col[i].x, p))
  {
    seq(|col|, i requires 0 <= i < |col| => Num(Standardize(col[i].x, p)))
  }

  /**
   * What `X[cols] = scaler.transform(X[cols])` raises: a `KeyError` for a
   * missing column, a `ValueError` for a column that is not numeric, and a
   * `ValueError` when the scaler was fitted on a different number of columns.
   */
  function ScaleError(data: Columns, cols: seq<string>, scaler: Scaler): (e: Option<Error>)
    ensures e.None? <==> (forall c :: c in cols ==> c in data && AllNum(data[c])) && |cols| == |scaler|
    ensures e.Some? ==> e.value.KeyError? || e.value.NotNumeric? || e.value.ShapeMismatch?
    ensures e.Some? && e.value.ShapeMismatch? ==> |cols| != |scaler|
  {
    match FirstMissing(cols, data)
    case Some(c) => Some(KeyError(c))
    case None =>
      match FirstNonNumeric(cols, data)
      case Some(c) => Some(NotNumeric(c))
      case None => if |cols| != |scaler| then Some(ShapeMismatch(|scaler|, |cols|)) else None
  }

  /**
   * The columns after `X[cols] = scaler.transform(X[cols])`, one listed
   * column after the other.
   */
  function ScaledColumns(data: Columns, cols: seq<string>, scaler: Scaler): (r: Columns)
    requires ScaleError(data, cols, scaler).None? && Distinct(cols)
    ensures r.Keys == data.Keys
    decreases |cols|
  {
    if cols == [] then data
    else
      var n := |cols| - 1;
      assert forall c :: c in cols[..n] ==> c in cols;
      var before := ScaledColumns(data, cols[..n], scaler[..n]);
      before[cols[n] := StandardizeCells(data[cols[n]], scaler[n])]
  }

  /**
   * What scaling leaves in a column: a listed column is standardized with
   * the parameters at its own position in the list; every other column,
   * the encoded categorical ones included, is left exactly as it was.
   */
  lemma {:induction false} ScaledColumnsAt(data: Columns, cols: seq<string>, scaler: Scaler, c: string)
    requires ScaleError(data, cols, scaler).None? && Distinct(cols) && c in data
    ensures c in cols ==> AllNum(data[c]) && IndexOf(cols, c) < |scaler|
    ensures ScaledColumns(data, cols, scaler)[c] ==
      if c in cols then StandardizeCells(data[c], scaler[IndexOf(cols, c)]) else data[c]
    decreases |cols|
  {
    if cols != [] {
      var n := |cols| - 1;
      var pre, ps := cols[..n], scaler[..n];
      assert forall x :: x in pre ==> x in cols;
      if c == cols[n] {
        IndexOfDistinct(cols, n);
      } else {
        ScaledColumnsAt(data, pre, ps, c);
        assert c in cols <==> c in pre by {
          assert cols == pre + [cols[n]];
        }
        if c in pre {
          var i := IndexOf(pre, c);
          assert cols[i] == c;
          IndexOfDistinct(cols, i);
        }
      }
    }
  }

  /** The column at position `k` of the list is standardized with the parameters at position `k`. */
  lemma ScaledColumnAtIndex(data: Columns, cols: seq<string>, scaler: Scaler, k: nat)
    requires ScaleError(data, cols, scaler).None? && Distinct(cols) && k < |cols|
    ensures cols[k] in data && AllNum(data[cols[k]]) && k < |scaler|
    ensures ScaledColumns(data, cols, scaler)[cols[k]] == StandardizeCells(data[cols[k]], scaler[k])
  {
    assert cols[k] in cols;
    ScaledColumnsAt(data, cols, scaler, cols[k]);
    IndexOfDistinct(cols, k);
  }

  /** One more column of the scaling loop: the scaled prefix grows by the next column. */
  lemma ScaledColumnsStep(data: Columns, cols: seq<string>, scaler: Scaler, k: nat)
    requires ScaleError(data, cols, scaler).None? && Distinct(cols) && k < |cols|
    ensures ScaleError(data, cols[..k], scaler[..k]).None? && Distinct(cols[..k])
    ensures ScaleError(data, cols[..k + 1], scaler[..k + 1]).None? && Distinct(cols[..k + 1])
    ensures ScaledColumns(data, cols[..k + 1], scaler[..k + 1])
         == ScaledColumns(data, cols[..k], scaler[..k])[cols[k] := StandardizeCells(data[cols[k]], scaler[k])]
  {
    assert cols[..k + 1][..k] == cols[..k] && scaler[..k + 1][..k] == scaler[..k];
  }

  /** Row `i` as the numbers a classifier receives, in column order. */
  function RowVector(columns: seq<string>, data: Columns, i: nat): (v: seq<real>)
    requires forall c :: c in columns ==> c in data && AllNum(data[c]) && i < |data[c]|
    ensures |v| == |columns|
    ensures forall k :: 0 <= k < |columns| ==> data[columns[k]][i] == Num(v[k])
  {
    var v := seq(|columns|, k requires 0 <= k < |columns| =>
      assert columns[k] in columns;
      var col := data[columns[k]];
      assert AllNum(col) && i < |col|;
      col[i].x);
    assert forall k :: 0 <= k < |columns| ==> data[columns[k]][i] == Num(v[k]) by {
      forall k | 0 <= k < |columns| ensures data[columns[k]][i] == Num(v[k]) {
        assert columns[k] in columns;
        var col := data[columns[k]];
        assert AllNum(col) && i < |col|;
        assert col[i].Num? && v[k] == col[i].x;
      }
    }
    v
  }

  class Frame {
    var columns: seq<string>
    var data: Columns
    var height: nat

    ghost predicate Valid()
      reads this
    {
      WellFormed(columns, data, height)
    }

    /** `pd.DataFrame({...})` from equally long columns. */
    constructor (columns: seq<string>, data: Columns, height: nat)
      requires WellFormed(columns, data, height)
      ensures Valid()
      ensures this.columns == columns && this.data == data && this.height == height
    {
      this.columns := columns;
      this.data := data;
      this.height := height;
    }

    /** `df[name]`: the column, or a `KeyError`. */
    function Column(name: string): (r: Result<seq<Cell>>)
      reads this
      requires Valid()
      ensures r.Ok? <==> name in columns
      ensures r.Ok? ==> name in data && r.value == data[name] && |r.value| == height
      ensures r.Err? ==> r.error == KeyError(name)
    {
      if name in data then Ok(data[name]) else Err(KeyError(name))
    }

    /** `df[name] = values`: replaces the column where it stands, or appends it at the end. */
    method SetColumn(name: string, values: seq<Cell>)
      requires Valid() && |values| == height
      modifies this
      ensures Valid() && height == old(height)
      ensures columns == WithColumn(old(columns), name)
      ensures data == old(data)[name := values]
    {
      columns := WithColumn(columns, name);
      data := data[name := values];
    }

    /**
     * `df.drop(columns=names, errors=...)`: a new frame without the listed
     * columns, the others in their order. With `errors='ignore'` an absent
     * name is skipped; otherwise it raises a `KeyError`.
     */
    method Drop(names: seq<string>, ignoreMissing: bool) returns (r: Result<Frame>)
      requires Valid()
      ensures r.Err? <==> !ignoreMissing && FirstMissing(names, data).Some?
      ensures r.Err? ==> r.error == KeyError(FirstMissing(names, data).value)
      ensures r.Ok? ==> fresh(r.value) && r.value.Valid() && r.value.height == height
      ensures r.Ok? ==> r.value.columns == Without(columns, set n | n in names)
      ensures r.Ok? ==> r.value.data == data - (set n | n in names)
    {
      var missing := FirstMissing(names, data);
      if !ignoreMissing && missing.Some? {
        return Err(KeyError(missing.value));
      }
      var gone := set n | n in names;
      var f := new Frame(Without(columns, gone), data - gone, height);
      r := Ok(f);
    }

    /** `df[names]`: a new frame holding exactly the listed columns, in the listed order. */
    method Select(names: seq<string>) returns (r: Result<Frame>)
      requires Valid() && Distinct(names)
      ensures r.Err? <==> FirstMissing(names, data).Some?
      ensures r.Err? ==> r.error == KeyError(FirstMissing(names, data).value)
      ensures r.Ok? ==> fresh(r.value) && r.value.Valid() && r.value.height == height
      ensures r.Ok? ==> r.value.columns == names && r.value.data == Restrict(data, names)
    {
      var missing := FirstMissing(names, data);
      if missing.Some? {
        return Err(KeyError(missing.value));
      }
      var f := new Frame(names, Restrict(data, names), height);
      r := Ok(f);
    }

    /** `X[cols] = scaler.transform(X[cols])`, in place. */
    method ScaleColumns(cols: seq<string>, scaler: Scaler) returns (e: Option<Error>)
      requires Valid() && Distinct(cols)
      modifies this
      ensures Valid() && columns == old(columns) && height == old(height)
      ensures e == ScaleError(old(data), cols, scaler)
      ensures e.None? ==> data == ScaledColumns(old(data), cols, scaler)
      ensures e.Some? ==> data == old(data)
    {
      e := ScaleError(data, cols, scaler);
      if e.Some? {
        return;
      }
      var before := data;
      var k := 0;
      while k < |cols|
        invariant 0 <= k <= |cols|
        invariant Valid() && columns == old(columns) && height == old(height)
        invariant before == old(data)
        invariant data == ScaledColumns(before, cols[..k], scaler[..k])
      {
        ScaledColumnsStep(before, cols, scaler, k);
        SetColumn(cols[k], StandardizeCells(before[cols[k]], scaler[k]));
        k := k + 1;
      }
      assert cols[..k] == cols && scaler[..k] == scaler;
    }
  }
}
