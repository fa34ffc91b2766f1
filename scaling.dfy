/**
 * A fitted standard scaler: one (mean, scale) pair per column, applied as
 * `(x - mean) / scale`. The scale is the column's standard deviation, or 1
 * for a column of constant values, so it is always positive.
 */
module Scaling {

  type Scale = s: real | s > 0.0 witness 1.0

  datatype Param = Param(mean: real, scale: Scale)

  /** The fitted parameters of one scaler, in the order of the columns it was fitted on. */
  type Scaler = seq<Param>

  /** `StandardScaler.transform` of one value. */
  function Standardize(x: real, p: Param): (z: real)
    ensures z * p.scale + p.mean == x
    ensures z > 0.0 <==> x > p.mean
    ensures z == 0.0 <==> x == p.mean
  {
    (x - p.mean) / p.scale
  }

  /** `StandardScaler.inverse_transform` of one value. */
  function Unstandardize(z: real, p: Param): (x: real)
    ensures x - p.mean == z * p.scale
  {
    z * p.scale + p.mean
  }

  /** Scaling can be undone: no information is lost by the transform. */
  lemma UnstandardizeStandardize(x: real, p: Param)
    ensures Unstandardize(Standardize(x, p), p) == x
  {
  }

  /** Scaling keeps the order of values, so thresholds learnt on scaled data keep their meaning. */
  lemma StandardizeMonotone(x: real, y: real, p: Param)
    requires x < y
    ensures Standardize(x, p) < Standardize(y, p)
  {
    var zx, zy := Standardize(x, p), Standardize(y, p);
    assert zy - zx == (y - x) / p.scale;
  }
}
