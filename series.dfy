/** Values shared by every part of the risk engine: a time-stamped observation (one row of a
    single-column pandas frame), optional cells (a missing cell is pandas' NaN) and the typed
    outcome of an estimator. */
module Series {

  /** A row label of the price frame; the dashboard's index is a sequence of dates. */
  type Timestamp = int

  /** One row of a single-column frame: its index label and its value. */
  datatype Obs = Obs(stamp: Timestamp, value: real)

  /** A cell that may be missing (NaN in pandas). */
  datatype Option<T> = None | Some(value: T)

  /** Why an estimator produced no number. */
  datatype Failure =
    | ProbabilityOutOfRange   // np.quantile raises ValueError for q outside [0, 1]
    | EmptySample             // np.quantile raises on an empty sample
    | EmptyTail               // pandas' mean of an empty selection is NaN
    | DegenerateDenominator   // a division by zero, which numpy turns into inf or NaN

  datatype Result<T> = Ok(value: T) | Err(failure: Failure)

  /** The value column of a frame. */
  function Values(s: seq<Obs>): (r: seq<real>)
    ensures |r| == |s|
    ensures forall i :: 0 <= i < |s| ==> r[i] == s[i].value
  {
    seq(|s|, i requires 0 <= i < |s| => s[i].value)
  }

  /** The index of a frame. */
  function Stamps(s: seq<Obs>): (r: seq<Timestamp>)
    ensures |r| == |s|
    ensures forall i :: 0 <= i < |s| ==> r[i] == s[i].stamp
  {
    seq(|s|, i requires 0 <= i < |s| => s[i].stamp)
  }
}
