/** The Monte Carlo estimator of app.py (MonteCarloVar). The simulations x periods matrix of
    normal increments is an input here: drawing it is the job of the random source. Each row
    is summed into one aggregate log-return draw, and the draws are ranked like the
    historical sample. */
module MonteCarlo {
  import opened Series
  import opened Statistics

  /** The aggregate draws and the estimate over them (the frame `sim_returns`, `var_p`, `cvar_p`). */
  datatype Simulation = Simulation(draws: seq<real>, risk: Risk)

  /** The matrix shape `size=(_simulations, _periods)`. */
  predicate Shaped(samples: seq<seq<real>>, simulations: nat, periods: nat)
  {
    |samples| == simulations && forall k :: 0 <= k < |samples| ==> |samples[k]| == periods
  }

  /** `np.sum(samples, axis=1)`. */
  function RowSums(samples: seq<seq<real>>): (r: seq<real>)
    ensures |r| == |samples|
    ensures forall k :: 0 <= k < |samples| ==> r[k] == Sum(samples[k])
  {
    seq(|samples|, k requires 0 <= k < |samples| => Sum(samples[k]))
  }

  /** MonteCarloVar: one aggregate draw per simulated path, then the shared VaR/CVaR step over
      the draws. */
  function MonteCarloVar(samples: seq<seq<real>>, periods: nat, simulations: nat, p: real)
    : (r: Result<Simulation>)
    requires Shaped(samples, simulations, periods)
    ensures r.Ok? <==> simulations >= 1 && 0.0 <= p <= 1.0
    ensures !(0.0 <= p <= 1.0) ==> r == Err(ProbabilityOutOfRange)
    ensures 0.0 <= p <= 1.0 && simulations == 0 ==> r == Err(EmptySample)
    ensures r.Ok? ==> |r.value.draws| == simulations
    ensures r.Ok? ==> forall k :: 0 <= k < simulations ==> r.value.draws[k] == Sum(samples[k])
    ensures r.Ok? ==> r.value.risk.valueAtRisk == Quantile(r.value.draws, p)
    ensures r.Ok? ==>
      MinOf(r.value.draws) <= r.value.risk.shortfall <= r.value.risk.valueAtRisk <= MaxOf(r.value.draws)
    ensures r.Ok? ==> TailMean(r.value.draws, r.value.risk.valueAtRisk) == Ok(r.value.risk.shortfall)
  {
    var draws := RowSums(samples);
    match VarCvar(draws, p)
    case Ok(risk) => Ok(Simulation(draws, risk))
    case Err(e) => Err(e)
  }

  /** A row of `periods` increments, each within [lo, hi], sums to within
      [periods * lo, periods * hi]. */
  lemma RowSumsWithin(samples: seq<seq<real>>, simulations: nat, periods: nat, lo: real, hi: real)
    requires Shaped(samples, simulations, periods)
    requires forall k, t :: 0 <= k < |samples| && 0 <= t < |samples[k]| ==> lo <= samples[k][t] <= hi
    ensures forall k :: 0 <= k < |samples| ==>
      periods as real * lo <= RowSums(samples)[k] <= periods as real * hi
  {
    forall k | 0 <= k < |samples|
      ensures periods as real * lo <= RowSums(samples)[k] <= periods as real * hi
    {
      SumBounds(samples[k], lo, hi);
    }
  }

  /** When every increment lies within [lo, hi], the VaR and the expected shortfall of the
      aggregated draws lie within [periods * lo, periods * hi]. */
  lemma MonteCarloWithinIncrementBounds(
    samples: seq<seq<real>>, periods: nat, simulations: nat, p: real, lo: real, hi: real)
    requires Shaped(samples, simulations, periods)
    requires forall k, t :: 0 <= k < |samples| && 0 <= t < |samples[k]| ==> lo <= samples[k][t] <= hi
    requires simulations >= 1 && 0.0 <= p <= 1.0
    ensures MonteCarloVar(samples, periods, simulations, p).Ok?
    ensures var risk := MonteCarloVar(samples, periods, simulations, p).value.risk;
      periods as real * lo <= risk.shortfall <= risk.valueAtRisk <= periods as real * hi
  {
    var draws := RowSums(samples);
    RowSumsWithin(samples, simulations, periods, lo, hi);
    var r := MonteCarloVar(samples, periods, simulations, p);
    assert r.value.draws == draws;
    var least, most := MinOf(draws), MaxOf(draws);
    assert periods as real * lo <= least && most <= periods as real * hi;
  }

  /** The estimate does not depend on the order of the simulated paths. */
  lemma MonteCarloVarOrderFree(
    samples: seq<seq<real>>, shuffled: seq<seq<real>>, periods: nat, simulations: nat, p: real)
    requires Shaped(samples, simulations, periods) && Shaped(shuffled, simulations, periods)
    requires multiset(RowSums(samples)) == multiset(RowSums(shuffled))
    requires simulations >= 1 && 0.0 <= p <= 1.0
    ensures MonteCarloVar(samples, periods, simulations, p).value.risk.valueAtRisk
         == MonteCarloVar(shuffled, periods, simulations, p).value.risk.valueAtRisk
  {
    QuantileOrderFree(RowSums(samples), RowSums(shuffled), p);
  }
}
