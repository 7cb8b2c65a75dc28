/**
 * Shared vocabulary of the two direct-search minimizers: the caller-supplied
 * objective function, absolute value, and an optional result.
 */
module Common {

  /**
   * A caller-supplied objective: a deterministic map from the n coordinates
   * of a point to a scalar cost. The engines never look inside it; they only
   * compare the values it returns.
   */
  type Objective = seq<real> -> real

  datatype Option<T> = None | Some(value: T)

  /** Absolute value, as `fabs` / `Math.abs` / `abs` in the sources. */
  function Abs(x: real): (r: real)
    ensures r >= 0.0
    ensures r == x || r == -x
  {
    if x < 0.0 then -x else x
  }
}
