/**
 * A fitted label encoder: the distinct values of a column, sorted by code
 * point the way `numpy.unique` sorts Python strings. A value's code is its
 * position in that list; a value outside the list has no code.
 */
module LabelEncoding {
  import opened Seqs
  import opened Errors

  /** Strict lexicographic order on strings, character by character. */
  predicate Below(a: string, b: string) {
    |b| > 0 && (|a| == 0 || a[0] < b[0] || (a[0] == b[0] && Below(a[1..], b[1..])))
  }

  lemma {:induction false} BelowIrreflexive(a: string)
    ensures !Below(a, a)
  {
    if |a| > 0 {
      BelowIrreflexive(a[1..]);
    }
  }

  lemma {:induction false} BelowTransitive(a: string, b: string, c: string)
    requires Below(a, b) && Below(b, c)
    ensures Below(a, c)
  {
    if |a| > 0 && a[0] == b[0] && b[0] == c[0] {
      BelowTransitive(a[1..], b[1..], c[1..]);
    }
  }

  lemma {:induction false} BelowTotal(a: string, b: string)
    requires a != b
    ensures Below(a, b) || Below(b, a)
  {
    if |a| > 0 && |b| > 0 && a[0] == b[0] {
      assert a[1..] != b[1..];
      BelowTotal(a[1..], b[1..]);
    }
  }

  /** The `classes_` list of a fitted encoder: strictly increasing. */
  predicate Sorted(classes: seq<string>) {
    forall i, j :: 0 <= i < j < |classes| ==> Below(classes[i], classes[j])
  }

  lemma SortedDistinct(classes: seq<string>)
    requires Sorted(classes)
    ensures Distinct(classes)
  {
    forall i, j | 0 <= i < j < |classes|
      ensures classes[i] != classes[j]
    {
      BelowIrreflexive(classes[i]);
    }
  }

  /** Adds `x` to a sorted class list at its place, unless it is there already. */
  function Insert(classes: seq<string>, x: string): (r: seq<string>)
    requires Sorted(classes)
    ensures Sorted(r)
    ensures forall y :: y in r <==> y in classes || y == x
  {
    if classes == [] then [x]
    else if classes[0] == x then classes
    else if Below(x, classes[0]) then
      assert forall j :: 0 < j < |classes| ==> Below(x, classes[j]) by {
        forall j | 0 < j < |classes| ensures Below(x, classes[j]) {
          BelowTransitive(x, classes[0], classes[j]);
        }
      }
      [x] + classes
    else
      var rest := Insert(classes[1..], x);
      assert Below(classes[0], x) by { BelowTotal(x, classes[0]); }
      assert forall j :: 0 <= j < |rest| ==> Below(classes[0], rest[j]) by {
        forall j | 0 <= j < |rest| ensures Below(classes[0], rest[j]) {
          if rest[j] != x {
            assert rest[j] in classes[1..];
            var k :| 0 <= k < |classes| - 1 && classes[1..][k] == rest[j];
            assert classes[k + 1] == rest[j];
          }
        }
      }
      [classes[0]] + rest
  }

  /** `LabelEncoder.fit`: the sorted distinct values of a column. */
  function Fit(values: seq<string>): (classes: seq<string>)
    ensures Sorted(classes)
    ensures forall y :: y in classes <==> y in values
  {
    if values == [] then []
    else Insert(Fit(values[..|values| - 1]), values[|values| - 1])
  }

  /** `LabelEncoder.transform` of one value: its position among the classes, or an error. */
  function Transform(classes: seq<string>, value: string): (r: Option<nat>)
    ensures r.Some? <==> value in classes
    ensures r.Some? ==> r.value < |classes| && classes[r.value] == value
  {
    if value in classes then Some(IndexOf(classes, value)) else None
  }

  /** `LabelEncoder.inverse_transform` of one code. */
  function InverseTransform(classes: seq<string>, code: nat): (value: Option<string>)
    ensures value.Some? <==> code < |classes|
  {
    if code < |classes| then Some(classes[code]) else None
  }

  /** Decoding the code of a known value gives the value back. */
  lemma DecodeEncode(classes: seq<string>, value: string)
    requires value in classes
    ensures Transform(classes, value).Some?
    ensures InverseTransform(classes, Transform(classes, value).value) == Some(value)
  {
  }

  /** Encoding the value behind a code of a fitted encoder gives the code back. */
  lemma EncodeDecode(classes: seq<string>, code: nat)
    requires Sorted(classes) && code < |classes|
    ensures Transform(classes, classes[code]) == Some(code)
  {
    SortedDistinct(classes);
    IndexOfDistinct(classes, code);
  }

  /** `fit_transform` of a whole column: the code of every value under `Fit(values)`. */
  function FitCodes(values: seq<string>): (codes: seq<nat>)
    ensures |codes| == |values|
    ensures forall i :: 0 <= i < |values| ==> codes[i] < |Fit(values)| && Fit(values)[codes[i]] == values[i]
  {
    var classes := Fit(values);
    seq(|values|, i requires 0 <= i < |values| => IndexOf(classes, values[i]))
  }

  /** Every value of the fitting column has a code, and equal values get equal codes. */
  lemma FitCodesConsistent(values: seq<string>, i: nat, j: nat)
    requires i < |values| && j < |values|
    ensures Transform(Fit(values), values[i]) == Some(FitCodes(values)[i])
    ensures FitCodes(values)[i] == FitCodes(values)[j] <==> values[i] == values[j]
  {
    var classes := Fit(values);
    SortedDistinct(classes);
  }
}
