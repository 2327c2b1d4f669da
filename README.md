# Residual risk of transfusion-transmitted infection

This project models the risk engine in `residualrisk.py`. The engine estimates how many infectious
blood donations escape a pooled nucleic-acid screen.

- **Infectivity.** Virus grows exponentially from an initial concentration `C0` with a given doubling
  time. A transfused volume carries `C * copies_per_virion * volume` genome copies. The continuous
  model `1.000000000001 - exp(-k * n_copies)` turns that count into a probability of infection. The
  worst-case model is a 0/1 step at 2 copies.
- **Detection.** The donation is first tested in a pool of `pool_size` donations, where it is diluted
  `pool_size` times. A reactive pool is then retested `retests` times on the undiluted sample. Each
  test follows a log-probit curve `Phi(z * log10(C / lod50) / log10(lod95 / lod50))`. The screen
  misses the donation with probability `1 - p_pos_init * (1 - p_neg_retest)`.
- **Window.** Risk days (the infectious window period, iwp) integrate "infectious and undetected"
  over a window of days since infection.
- **Residual risk.** The annual residual risk is `incidence * iwp / 365.25 * per`.
- **Bootstrap.** The engine resamples doubling time, rate, lod50, volume and incidence. It then
  reports quantile intervals and a standard error. `iwp_bs_par` computes the same replicates on a
  worker pool.

## Model structure

- `numerics.dfy` (module `Numerics`) holds the library the engine calls into:
  - `math.exp`, `math.log10`, `2 ** x`, `scipy.stats.norm.cdf`, `scipy.integrate.quad`,
    `numpy.quantile` and `numpy.std`, as fields of a `Library` value;
  - the integer power `Pow`;
  - the `Result` type for the exceptions the engine raises;
  - `PyNumber`, which models Python's `isinstance(x, int)`.

  Each foreign function is arbitrary apart from its range: the CDF is in [0, 1], and exp and `2 ** x`
  are positive. Lemmas that need more state it as a hypothesis on the library, for example
  `ExpAnchored` (exp(0) = 1), `ExpIncreasing`, `Pow2Increasing`, `QuadRespectsUnitBounds` and
  `QuadMonotone`.
- `infectivity.dfy` (module `Infectivity`) holds `concentration`, the continuous model and the
  worst-case model.
- `detection.dfy` (module `Detection`) holds `prob_pos_init`, `prob_neg_retest` and
  `prob_nondetection`, with their validation.
- `window.dfy` (module `Window`) holds `prob_infectious_nondetection[_wc]` and `risk_days[_wc]`.
- `uncertainty.dfy` (module `Uncertainty`) holds `iwp_bs` and `iwp_bs_par`. The random draws are
  input sequences. The parallel version is given the order in which the workers finish.
- `residual_risk.dfy` (module `Residual`) holds `residual_risk_iwp` and `residual_risk`.

The probability functions are pure Dafny functions. The bootstrap loops are methods with loops. The
loops that build a list are proved against a recursive specification function: `BootstrapSamples`
for the window replicates, and `RiskSamples` for the risk list. Both specifications state index
alignment: element `i` comes from draw `i`. The worker-pool loop of `iwp_bs_par` (`RunTasks`) fills
a map from task handle to result instead. Its invariant says that the handles finished so far are
exactly those already completed, each filed with its own replicate.

Three source quirks are kept as written:

- `prob_infectious_nondetection` and `prob_infectious_nondetection_wc` do not pass `copies_per_virion`
  on to `prob_infectious[_wc]`. The infectivity factor therefore always uses 2 copies per virion,
  whatever the caller asks for.
- `residual_risk_iwp` accepts `alpha` but always uses the 2.5% and 97.5% quantiles.
- `prob_neg_retest` validates `pool_size` before `retests`. With both invalid, the pool-size error
  is the one raised.

## Model

| member | source | states |
|---|---|---|
| Infectivity.Concentration | residualrisk.py:7-9 | the concentration has the sign of `C0` (positive, zero, negative) |
| Infectivity.ConcentrationAtReference | residualrisk.py:7-9 | at t = 0 the concentration is `C0` (given 2 ** 0 = 1) |
| Infectivity.ConcentrationIncreasing | residualrisk.py:7-9 | with `C0 > 0` and a positive doubling time, the concentration grows strictly with t |
| Infectivity.ProbInfectiousCopies | residualrisk.py:11-13 | the continuous infectivity is always below the ceiling 1.000000000001 |
| Infectivity.ProbInfectiousCopiesFloor | residualrisk.py:11-13 | with no copies or a zero rate the curve sits at 1e-12, not 0 |
| Infectivity.ProbInfectiousCopiesBounds | residualrisk.py:11-13 | for non-negative copies and rate the value lies strictly between 0 and 1.000000000001 |
| Infectivity.ProbInfectiousCopiesIncreasingInCopies | residualrisk.py:11-13 | with a positive rate, more copies give a strictly higher probability |
| Infectivity.ProbInfectiousCopiesIncreasingInRate | residualrisk.py:11-13 | with a positive copy count, a higher rate gives a strictly higher probability |
| Infectivity.ProbInfectious | residualrisk.py:15-25 | the infectivity of the transfused copies at time t is below the ceiling |
| Infectivity.CopiesTransfused | residualrisk.py:22-23 | the transfused copy count is zero when `C0` is zero, and positive when `C0`, copies per virion and volume are all positive |
| Infectivity.CopiesIncreasing | residualrisk.py:22-23 | with positive concentration, copies per virion and volume, the transfused copy count grows strictly with t |
| Infectivity.ProbInfectiousIncreasingInTime | residualrisk.py:15-25 | while the virus grows, continuous infectivity rises strictly with time |
| Infectivity.ProbInfectiousCopiesWc | residualrisk.py:27-31 | the result is exactly 0.0 or 1.0, and it is 1.0 if and only if `n_copies >= 2`; the two guards cover every input |
| Infectivity.ProbInfectiousCopiesWcMonotone | residualrisk.py:27-31 | the step never decreases as the copy count grows |
| Infectivity.ProbInfectiousWc | residualrisk.py:33-42 | the result is 0.0 or 1.0, and it is 1.0 exactly when the transfused copies reach 2 |
| Infectivity.ProbInfectiousWcMonotoneInTime | residualrisk.py:33-42 | once the worst-case model is infectious it stays infectious at later times |
| Detection.ScreenProbitDilution | residualrisk.py:54-55 | the screen's probit on a pool of n equals the retest probit at concentration C / n; with n = 1 the two coincide (line 75) |
| Detection.ProbPosInit | residualrisk.py:44-57 | it raises exactly when `pool_size` is not an int of at least 1, and the error is the pool-size error; otherwise the value is a probability |
| Detection.ProbNegRetest | residualrisk.py:59-78 | the pool-size error comes first, then the retests error for a non-int or negative count; zero retests give 0; valid counts give a probability |
| Detection.SingleRetestComplementsUndilutedScreen | residualrisk.py:73-78 | one retest is negative with probability 1 minus the positive probability of an undiluted screen (pool size 1) |
| Detection.ProbNegRetestAntitone | residualrisk.py:73-78 | from one retest on, more retests never raise the chance that all retests are negative |
| Detection.ProbNegRetestStrictlyDecreasing | residualrisk.py:73-78 | when one retest is neither certain to clear nor certain to flag, each further retest strictly lowers that chance |
| Detection.MissProbability | residualrisk.py:96 | `1 - p_pos * (1 - p_neg)` is a probability, is at least `1 - p_pos`, and equals it when `p_neg = 0` |
| Detection.MissProbabilityMonotone | residualrisk.py:96 | the miss probability grows with `p_neg` |
| Detection.ProbNondetection | residualrisk.py:80-97 | the pool-size error, then the retests error, propagate; valid counts give a probability; zero retests give exactly `1 - p_pos_init` |
| Detection.ProbNondetectionParts | residualrisk.py:90-96 | a valid value is the miss probability of `prob_pos_init` and `prob_neg_retest` at the copy concentration `copies_per_virion * C` |
| Detection.ProbNondetectionAntitoneInRetests | residualrisk.py:80-97 | from one retest on, more retests never raise non-detection |
| Detection.ProbNondetectionLeastWithoutRetests | residualrisk.py:71-72 | zero retests give the least non-detection of any retest count |
| Window.ProbInfectiousNondetection | residualrisk.py:99-114 | validation errors are those of `prob_nondetection`; a valid value is below the infectivity ceiling |
| Window.ProbInfectiousNondetectionBounds | residualrisk.py:99-114 | with non-negative `C0`, volume and rate, the joint probability lies in [0, 1.000000000001) |
| Window.ProbInfectiousNondetectionParts | residualrisk.py:111-113 | a valid joint value is `prob_infectious` (with 2 copies per virion) times `prob_nondetection` |
| Window.ProbInfectiousNondetectionAntitoneInRetests | residualrisk.py:99-114 | with non-negative `C0`, volume and rate, from one retest on, more retests never raise the joint probability at any time |
| Window.ProbInfectiousNondetectionWc | residualrisk.py:136-150 | errors as above; a valid value is in [0, 1]; it equals the non-detection probability once 2 copies are transfused and 0 before |
| Window.RiskDays | residualrisk.py:116-134 | the integrand's validation error is raised; otherwise the result is the quadrature of the joint probability over the limits |
| Window.RiskDaysWc | residualrisk.py:152-168 | as `risk_days`, for the worst-case integrand |
| Window.RiskDaysWcWithinWindow | residualrisk.py:152-168 | if quad keeps [0, 1]-valued integrands within [0, b - a], worst-case risk days lie between 0 and the window length |
| Window.RiskDaysWcAtDefaultLimits | residualrisk.py:161-168 | at the default limits (-20, 100), worst-case risk days lie between 0 and 120 (under the same quad hypothesis) |
| Window.RiskDaysAntitoneInRetests | residualrisk.py:116-134 | with monotone quad and non-negative `C0`, volume and rate, from one retest on, more retests never raise risk days |
| Window.RiskDaysWcAntitoneInRetests | residualrisk.py:152-168 | with monotone quad, from one retest on, more retests never raise worst-case risk days |
| Window.RiskDaysWcLeastWithoutRetests | residualrisk.py:152-168 | with monotone quad, zero retests give the least worst-case risk days |
| Uncertainty.BootstrapSamples | residualrisk.py:201-205 | the bootstrap list has one element per replicate, and element i is risk days for draw i of every resampled parameter |
| Uncertainty.IwpBootstrap | residualrisk.py:170-207 | the point-estimate error is raised before any replicate; otherwise the result is the point estimate, the alpha/2 and 1 - alpha/2 quantiles of the list, and the aligned list of replicates |
| Uncertainty.IwpBootstrapParallel | residualrisk.py:279-334 | for any order in which the workers finish, results collected in submission order give the same estimate as the serial loop |
| Uncertainty.RunTasks | residualrisk.py:318-329 | whatever order the workers finish in, every task ends up finished with its own replicate |
| Uncertainty.CollectResults | residualrisk.py:330 | reading the finished results back in submission order gives the aligned bootstrap list |
| Uncertainty.SerialMatchesParallel | residualrisk.py:319-330 | `iwp_bs` and `iwp_bs_par` return identical results on the same draws, list order included |
| Residual.AnnualRisk | residualrisk.py:216 | a zero window gives zero risk; a window of exactly 365.25 days gives `incidence * per`, the whole annual incidence |
| Residual.AnnualRiskGrouping | residualrisk.py:250 | `incidence * (iwp / 365.25) * per` equals `residual_risk_iwp`'s `incidence * iwp / 365.25 * per` (line 216) |
| Residual.AnnualRiskNonnegative | residualrisk.py:216 | non-negative incidence, window and base give a non-negative risk |
| Residual.AnnualRiskMonotoneInWindow | residualrisk.py:216 | a longer window never lowers the risk |
| Residual.RiskSamples | residualrisk.py:221-223 | the risk list is as long as the window list, and element i pairs incidence draw i with window replicate i |
| Residual.ResidualRiskIwp | residualrisk.py:209-226 | the point estimate is the annual risk of `iwp_pe`; the interval (fixed 2.5% and 97.5% levels, whatever alpha is) and the standard error are those of the aligned risk list |
| Residual.FusedBootstrap | residualrisk.py:262-271 | the fused loop builds exactly the window list of `iwp_bs` and the risk list of `residual_risk_iwp` over it |
| Residual.ResidualRisk | residualrisk.py:228-277 | the point-estimate error is raised first; with `n_bs <= 0` the result is the 2-tuple of point estimates; with `n_bs > 0` it is the 5-tuple of both point estimates, both intervals and the risk standard error |
| Residual.FusedMatchesTwoStage | residualrisk.py:228-277 | on the same draws, `residual_risk` agrees with `iwp_bs` followed by `residual_risk_iwp`: same point estimates, risk interval and standard error; the window intervals agree when alpha is 0.05 |

## Left out

- Floating point is not modelled: arithmetic is over the reals. The model does not capture rounding
  (including what `1.000000000001 - exp(...)` rounds to), overflow, NaN or infinities.
  `incidence * (iwp / 365.25) * per` and `incidence * iwp / 365.25 * per` are therefore the same
  number here, although as floats they can differ in the last bit.
- `math.exp`, `math.log10`, `2 ** x` and `scipy.stats.norm.cdf` are uninterpreted apart from their
  ranges. Properties that need more (exp(0) = 1, monotone exp or `2 ** x`) take it as a hypothesis.
  No numeric value of a curve is proved.
- `math.log10` of a non-positive argument raises `ValueError` in the source. The model does not
  represent that error: its log10 is defined everywhere.
- Division by zero is excluded by preconditions rather than modelled as an error:
  - `t / doubling_time` with a zero doubling time;
  - `C / (pool_size * lod50)` with a zero lod50;
  - the division by `log10(lod95_lod50_ratio)` with a ratio of 1.

  Whether these raise or give an infinity depends on whether the operands are Python floats or
  numpy scalars. The preconditions apply only where the source actually divides, after validation
  has passed.
- `scipy.integrate.quad` is uninterpreted. The bounds and monotonicity of risk days are proved only
  under the stated hypotheses on quad (`QuadRespectsUnitBounds`, `QuadMonotone`).
- Window.RiskDays: an invalid `pool_size` or `retests` is modelled as raised at the first integrand
  evaluation. The point inside the window where quad first samples is not modelled, and the error
  does not depend on it.
- Random generation is not modelled. This covers `np.random.seed`, `stats.truncnorm.rvs`,
  `np.random.gamma` and `np.random.uniform`. The draws are input sequences with no range assumed. So
  the model does not capture:
  - that `residual_risk` draws volume before `k`, while `iwp_bs` draws `k` before volume, so the same
    seed gives different draw vectors;
  - that `truncnorm.rvs(0, np.inf, loc, scale)` truncates at the mean, not at zero.

  The agreement of `Residual.FusedMatchesTwoStage` is stated for the same draw vectors only.
- `numpy.quantile` and `numpy.std` are uninterpreted. `numpy.quantile` raising on an empty list
  (`n_bs = 0` in `iwp_bs`) is not modelled.
- A negative `n_bs` makes numpy's samplers raise in `iwp_bs` and `iwp_bs_par`. The model takes `n_bs`
  as a natural number there. In `residual_risk` a non-positive `n_bs` is modelled, because it only
  selects the short result.
- Uncertainty.IwpBootstrapParallel: the process pool (`mp.Pool`, `apply_async`, `get`, `close`,
  `join`) and `count_cores` are not modelled as concurrency. Worker scheduling is one completion
  order given as an input, and the results of finished tasks are kept by task handle. Worker
  failures and pickling are not modelled.
- Python's `bool` is a subclass of `int`, so `isinstance(True, int)` holds. `PyNumber` has no
  boolean case.
- Detection.ProbPosInit: the unused `doubling_time` parameters of `prob_pos_init` and
  `prob_neg_retest` are dropped.
- `prob_neg_retest` returns the integer 0 for zero retests. The model returns 0.0, the same number.
- The exception messages are kept in `Error.Message` but are not otherwise modelled. The model
  does not represent the exception class (a bare `Exception`) either.
- Keyword defaults of the entry points (`per = 1e6`, `alpha = 0.05`, the seeds) are not defaults in
  the model: `per` and `alpha` are always passed, and the seeds belong to the unmodelled generator.
- The empty `if __name__ == '__main__'` block has no behaviour to model.
