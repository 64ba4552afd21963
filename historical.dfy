/** The historical estimator of app.py (get_var_cvar; main repeats the same steps inline at its
    fixed 5% level): the p-quantile of the w-step rolling sums of the log returns, and the
    mean of the rolling sums at or below it. */
module HistoricalRisk {
  import opened Series
  import opened Statistics
  import opened Returns

  /** The rolling-sum sample the historical estimator ranks. */
  function RollingSample(prices: seq<Obs>, window: nat, logRatio: (real, real) -> real): (s: seq<real>)
    requires window >= 1
    ensures |s| == if |prices| > window then |prices| - window else 0
  {
    Values(RollingSum(LogReturns(prices, logRatio), window))
  }

  function GetVarCvar(prices: seq<Obs>, window: nat, p: real, logRatio: (real, real) -> real)
    : (r: Result<Risk>)
    requires window >= 1
    ensures r.Ok? <==> |prices| > window && 0.0 <= p <= 1.0
    ensures !(0.0 <= p <= 1.0) ==> r == Err(ProbabilityOutOfRange)
    ensures 0.0 <= p <= 1.0 && |prices| <= window ==> r == Err(EmptySample)
    ensures r.Ok? ==> r.value.valueAtRisk == Quantile(RollingSample(prices, window, logRatio), p)
    ensures r.Ok? ==>
      var sums := RollingSample(prices, window, logRatio);
      MinOf(sums) <= r.value.shortfall <= r.value.valueAtRisk <= MaxOf(sums)
    ensures r.Ok? ==>
      TailMean(RollingSample(prices, window, logRatio), r.value.valueAtRisk) == Ok(r.value.shortfall)
  {
    VarCvar(RollingSample(prices, window, logRatio), p)
  }

  /** A lower confidence percentile never gives a higher (less extreme) value-at-risk. */
  lemma HistoricalVarMonotone(
    prices: seq<Obs>, window: nat, p1: real, p2: real, logRatio: (real, real) -> real)
    requires window >= 1 && |prices| > window
    requires 0.0 <= p1 <= p2 <= 1.0
    ensures GetVarCvar(prices, window, p1, logRatio).Ok?
    ensures GetVarCvar(prices, window, p2, logRatio).Ok?
    ensures GetVarCvar(prices, window, p1, logRatio).value.valueAtRisk
         <= GetVarCvar(prices, window, p2, logRatio).value.valueAtRisk
  {
    QuantileMonotone(RollingSample(prices, window, logRatio), p1, p2);
  }

  /** Five daily prices with a two-day window give four log returns, three rolling sums and
      a defined estimate at the 5% level, whatever the logarithm. */
  lemma FivePriceScenario(logRatio: (real, real) -> real)
    ensures var prices := [Obs(0, 100.0), Obs(1, 105.0), Obs(2, 98.0), Obs(3, 102.0), Obs(4, 110.0)];
      |LogReturns(prices, logRatio)| == 4
      && |RollingSample(prices, 2, logRatio)| == 3
      && GetVarCvar(prices, 2, 0.05, logRatio).Ok?
  {
  }
}
