# Commodity risk engine: a Dafny model

This project models the quantitative core of a commodity VaR dashboard (`app.py`):

- the log-return transform of a price series;
- the historical estimator: value-at-risk (VaR) and expected shortfall (CVaR) over trailing rolling sums of log returns;
- the Monte Carlo estimator over a matrix of simulated increments;
- the Black-Scholes call and the put by put-call parity;
- the walk-forward GARCH loop, which refits the volatility model on an expanding sample and forecasts one step ahead for every held-out row.

All arithmetic is over Dafny's `real`. The natural logarithm, the exponential, the square root, the standard normal distribution function, the GARCH fit and its variance forecast are function-valued parameters. The model therefore holds for any implementation of them. Where a lemma needs a law of one of them (logarithms of ratios compose, `exp` inverts the logarithm, the distribution function lies in [0, 1], the square root squares back), it states that law as a precondition.

Modules, one file each:

- `Series` (`series.dfy`): the shared types.
  - A time-stamped row `Obs`.
  - Missing cells, `Option`; pandas' NaN is `None`.
  - The typed outcome `Result`, with the failures the source can produce: numpy's `ValueError` for a probability outside [0, 1], numpy's error on an empty sample, the NaN of an empty mean, and the inf/NaN of a division by zero.
- `Statistics` (`statistics.dfy`): numpy's default `np.quantile` ("linear", type 7: sort the sample, take `h = (n-1)p`, interpolate between `x[floor h]` and `x[floor h + 1]`) and the mean of the values at or below a threshold. `VarCvar` is the step both estimators share.
- `Returns` (`returns.dfy`): `get_log_returns`. It is modelled as the source computes it: `shift(1)`, the element-wise log ratio, dropping the first (NaN) row with `[1:]`, and re-indexing with `index[:-1]`. The trailing rolling sum follows `rolling(w).sum().dropna()`.
- `HistoricalRisk` (`historical.dfy`): `get_var_cvar`.
- `MonteCarlo` (`montecarlo.dfy`): `MonteCarloVar`, with the sample matrix supplied as an input.
- `BlackScholes` (`blackscholes.dfy`): `call_black_scholes` and `put_black_scholes`.
- `Garch` (`garch.dfy`): the 80/20 split and the walk-forward loop of `main`, extracted into the method `WalkForward`. The forecast table is an array whose rows start as NaN. The loop writes row i at iteration i, then appends test row i to the expanding sample and refits.

Where the code and the design description differ, the model follows the code:

- `get_log_returns` returns an empty frame for fewer than two prices instead of failing. It does not reject non-positive prices.
- `get_var_cvar` accepts any probability in [0, 1], endpoints included.
- The pricer does not validate its parameters. A zero strike or a zero `vol * sqrt(delta_t)` leads to IEEE infinities or NaN rather than an error.
- An empty tail would give NaN rather than an error. The model proves that this cannot happen when the threshold is the sample's own quantile.
- For five prices and a two-step window the code produces three rolling sums, not two.
- `get_var_cvar` is not called by `main`. `main` repeats the same steps inline at the fixed level 0.05 (app.py:161-167, 188-192), which is `GetVarCvar` with `p = 0.05`.
- The comment at app.py:30 says the last value is dropped. The code drops the first (the NaN produced by the shift); the last timestamp is the one removed, from the index.

`int(len * 0.8)` is modelled as `(4 * n) / 5`. The two agree for every n below 2^50. The double nearest 0.8 exceeds 0.8 by less than 5·10^-17. So for n < 2^50 the computed product exceeds 0.8n by less than 0.05 plus half a unit in the last place (at most 1/16). The fractional part of 0.8n is at most 0.8, so truncation gives the same integer. When 0.8n is an integer it is representable, and the product cannot round below it. Above that bound the two can differ: for n = 3·2^49 the floating-point product rounds up to 1351079888211149, while the exact value truncates to 1351079888211148.

## Model

| member | source | states |
|---|---|---|
| Statistics.Sort | app.py:49 | The order np.quantile ranks: ascending, and a permutation (same multiset) of the sample. |
| Statistics.Quantile | app.py:49 | The type-7 p-quantile of a non-empty sample lies between the sample's minimum and maximum. |
| Statistics.QuantileMonotone | app.py:49 | For a fixed sample the quantile is non-decreasing in p. |
| Statistics.QuantileEndpoints | app.py:49 | The 0-quantile is the sample minimum and the 1-quantile the sample maximum. |
| Statistics.QuantileOrderFree | app.py:102 | Two samples with the same values in any order have the same quantile. |
| Statistics.Below | app.py:52 | The boolean-mask selection holds exactly the sample values at or below the threshold, with their multiplicities. |
| Statistics.TailMean | app.py:52 | The tail mean is defined exactly when some value is at or below the threshold (otherwise pandas gives NaN, the EmptyTail failure). When defined it lies between the sample minimum and the threshold. |
| Statistics.VarCvar | app.py:188-192 | Defined exactly for a non-empty sample and p in [0, 1]. Otherwise it fails, checking p first and emptiness second, as numpy does. VaR is the quantile and CVaR the mean of the values at or below it, so the tail is never empty. min ≤ CVaR ≤ VaR ≤ max. |
| Returns.LogReturns | app.py:20-37 | n prices give n − 1 returns (none for an empty series). Return j is ln(price[j+1] / price[j]), tagged with timestamp j, the earlier of the two. |
| Returns.CumulativeReturnIsLogRatio | app.py:28 | For a logarithm of ratios, the first k returns sum to ln(price[k] / price[0]), since the returns telescope. |
| Returns.ReturnsReconstructPriceRatios | app.py:28-35 | Round trip: exp of the cumulative log return recovers price[k] / price[0] for every k, for positive prices. |
| Returns.RollingSum | app.py:46 | After dropna there are len(r) − w + 1 rows (none when len(r) < w). Row j is r[j] + … + r[j+w−1], labelled with the timestamp of the window's last row. |
| HistoricalRisk.GetVarCvar | app.py:40-54 | Defined exactly when there are more prices than the window size and p is in [0, 1], with the source's failures otherwise. VaR is the quantile of the rolling sums. CVaR is the mean of the rolling sums at or below VaR, and min ≤ CVaR ≤ VaR ≤ max over the rolling sums. |
| HistoricalRisk.HistoricalVarMonotone | app.py:49 | A lower confidence percentile never gives a higher VaR. |
| HistoricalRisk.FivePriceScenario | app.py:20-54 | Prices 100, 105, 98, 102, 110 with window 2 give 4 returns and 3 rolling sums, and a defined estimate at 5%. |
| MonteCarlo.MonteCarloVar | app.py:92-112 | There are exactly `_simulations` aggregate draws, and draw k is the sum of row k's `_periods` increments. The estimate is defined exactly when there is at least one simulation and p is in [0, 1]. VaR is the quantile of the draws. CVaR is the mean of the draws at or below VaR, and min ≤ CVaR ≤ VaR ≤ max over the draws. |
| MonteCarlo.MonteCarloWithinIncrementBounds | app.py:96-108 | If every increment is within [lo, hi], then VaR and CVaR are within [periods·lo, periods·hi]. |
| MonteCarlo.MonteCarloVarOrderFree | app.py:99-102 | Reordering the simulated paths does not change the VaR. |
| BlackScholes.Distance | app.py:60-66 | d_up and d_down are defined exactly when the strike and vol·√T are non-zero. Otherwise it fails with DegenerateDenominator. |
| BlackScholes.DistanceIdentities | app.py:63-66 | d_up − d_down = vol·√T. For a square root that squares back, d_up² − d_down² = 2(ln(S₀/K) + rate·T). |
| BlackScholes.Call | app.py:57-82 | The call price is defined exactly when d_up and d_down are. Otherwise it fails with DegenerateDenominator. |
| BlackScholes.Put | app.py:84-89 | Put–call parity: put − call = K·e^(−rate·T) − S₀, with the call's own discount factor. The put is defined exactly when the call is. |
| BlackScholes.PutClosedForm | app.py:73-89 | For a distribution function with Φ(−x) = 1 − Φ(x), the parity put equals the closed-form put K·e^(−rate·T)·Φ(−d_down) − S₀·Φ(−d_up). |
| BlackScholes.OptionPriceBounds | app.py:78-89 | With Φ valued in [0, 1] and a non-negative spot, strike and discount: −K·D ≤ call ≤ S₀ and −S₀ ≤ put ≤ K·D. |
| Garch.Cut | app.py:331 | The training size c satisfies 5c ≤ 4n < 5c + 5, i.e. c = ⌊0.8n⌋. It is below n for n ≥ 1 and positive for n ≥ 2. |
| Garch.Split | app.py:331-333 | training = data[..⌊0.8n⌋], training + testing == data, and a non-empty series has a non-empty test part. |
| Garch.WalkForward | app.py:432-451 | The forecast table is a newly allocated array with one row per test row. Row i carries test row i's timestamp and the square root of the variance forecast of the model fitted on the first ⌊0.8n⌋ + i rows, which excludes row i. At the end the expanded sample equals the whole series, as the assertion at app.py:451 demands, and the final model is the fit on the whole series. |

## Left out

- The Streamlit page, its inputs, text and Plotly figures (app.py:116-510 outside the modelled blocks): user interface.
- Loading and refreshing data (`pd.read_feather`, `get_commodity_data`, app.py:120-141): file and network I/O. The `comm_data` module is not part of this model.
- The GARCH estimation itself (`arch.arch_model(...).fit()` and `.forecast()`, app.py:390-448): a foreign library's maximum-likelihood optimizer. `WalkForward` takes the fit and the one-step variance forecast as parameters.
- The conditional volatility, residuals and normality, ACF and PACF diagnostics (app.py:358-361, 396-421, 470-485): library calls used for display only.
- `np.random.normal` (app.py:96): the random source. `MonteCarloVar` takes the simulations × periods matrix as an input. For that reason `mu`, `vol` and `delta_T` do not appear: they only parameterise the sampler.
- The ×1000 scaling before the GARCH fit and the forecast-VaR back-transform `exp(vol / 1000 · Φ⁻¹(0.05))` (app.py:327, 489-491): transcendental numerics on the output. `WalkForward` takes the already scaled series.
- The parameter derivations in `main`: the sample mean and standard deviation of the returns, `annual_vol = daily_vol·√252`, and `delta_t = months / 12` (app.py:230-231, 270-274, 292). They are plain library reductions that feed the modelled functions.
- IEEE floating-point rounding, infinities and NaN propagation in general: the model computes over the reals.
- BlackScholes.Distance: for a zero strike or a zero vol·√T the source goes on through IEEE infinities and NaN. The model reports DegenerateDenominator instead, because ln(S₀/0) and 1/0 have no real value.
- BlackScholes.Call: for a zero strike the source reaches a finite limit through IEEE infinities (the call equals S₀), and for T = 0 NaN or the intrinsic value. The model reports DegenerateDenominator in both cases.
- BlackScholes.Put: inherits the call's failure for a zero strike or T = 0. There the source yields 0, NaN or the intrinsic value K − S₀ (for T = 0 and S₀ < K the call is 0, and the put is 0 − S₀ + K·e⁰).
- Returns.LogReturns: the ratio and its logarithm are one abstract function `logRatio(later, earlier)`. Its behaviour for zero or negative prices (inf or NaN in numpy) is not modelled.
- Garch.WalkForward: the state of the rows not yet written (NaN until their iteration) is set by the allocation but is not carried as a loop invariant. The contract speaks of the table after the loop.
