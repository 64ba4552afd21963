/** The walk-forward GARCH block of app.py's main: an 80/20 split of the scaled rolling-sum
    series, then one out-of-sample volatility forecast per test row, each from a model refit
    on the training rows plus the test rows seen so far. Fitting (`arch_model(...).fit()`),
    the one-step variance forecast and the square root are parameters. */
module Garch {
  import opened Series

  /** `int(n * 0.8)`: the number of training rows. */
  function Cut(n: nat): (c: nat)
    ensures 5 * c <= 4 * n < 5 * c + 5
    ensures c <= n
    ensures n >= 1 ==> c < n
    ensures n >= 2 ==> c >= 1
  {
    (4 * n) / 5
  }

  /** `iloc[:cut]` and `iloc[cut:]`: the training and the testing rows. */
  function Split(data: seq<Obs>): (r: (seq<Obs>, seq<Obs>))
    ensures |r.0| == Cut(|data|)
    ensures r.0 + r.1 == data
    ensures |data| >= 1 ==> |r.1| >= 1
  {
    (data[..Cut(|data|)], data[Cut(|data|)..])
  }

  /** One row of the forecast table; its cell is NaN (None) until the loop writes it. */
  datatype ForecastRow = ForecastRow(stamp: Timestamp, volatility: Option<real>)

  /** Row i of the forecast table as the walk-forward loop should leave it: the test row's
      timestamp and the square root of the variance forecast of the model fitted on the
      first cut + i rows. */
  function ExpectedRow<Model>(
    data: seq<Obs>, fit: seq<Obs> -> Model, forecastVariance: Model -> real, sqrt: real -> real, i: nat)
    : (r: ForecastRow)
    requires Cut(|data|) + i < |data|
  {
    ForecastRow(data[Cut(|data|) + i].stamp, Some(sqrt(forecastVariance(fit(data[..Cut(|data|) + i])))))
  }

  /** The expanding sample after i appended test rows is the series' prefix of cut + i rows,
      and appending test row i gives the next prefix. */
  lemma PrefixStep(data: seq<Obs>, cut: nat, i: nat)
    requires cut + i < |data|
    ensures data[..cut] + data[cut..][..i] == data[..cut + i]
    ensures data[cut..][..i + 1] == data[cut..][..i] + [data[cut..][i]]
    ensures data[..cut + i] + [data[cut..][i]] == data[..cut + i + 1]
  {
  }

  /** The walk-forward loop. The forecast for test row i comes from the model fitted on the
      first cut + i rows (the training rows and the test rows before i), so it never sees row i
      itself; afterwards the expanding sample is the whole series (the source asserts this
      equality) and the last model is fitted on it. */
  method WalkForward<Model>(
    data: seq<Obs>, fit: seq<Obs> -> Model, forecastVariance: Model -> real, sqrt: real -> real)
    returns (forecasts: array<ForecastRow>, expanded: seq<Obs>, model: Model)
    ensures fresh(forecasts)
    ensures forecasts.Length == |data| - Cut(|data|)
    ensures forall i :: 0 <= i < forecasts.Length ==>
      forecasts[i] == ExpectedRow(data, fit, forecastVariance, sqrt, i)
    ensures expanded == data
    ensures model == fit(data)
  {
    var (training, testing) := Split(data);
    var cut, n := |training|, |testing|;
    expanded := training;
    model := fit(training);
    forecasts := new ForecastRow[n](j requires 0 <= j < n => ForecastRow(testing[j].stamp, None));
    for i := 0 to n
      // the expanding sample is training + testing[..i], which is the prefix data[..cut + i]
      invariant expanded == data[..cut + i]
      invariant model == fit(expanded)
      invariant forall j :: 0 <= j < i ==> forecasts[j] == ExpectedRow(data, fit, forecastVariance, sqrt, j)
    {
      PrefixStep(data, cut, i);
      forecasts[i] := ForecastRow(testing[i].stamp, Some(sqrt(forecastVariance(model))));
      expanded := expanded + [testing[i]];
      model := fit(expanded);
    }
  }
}
