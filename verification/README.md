# Differential-privacy playground: a verified model of its arithmetic

The differential-privacy playground is a set of teaching scripts. They show
three things:

- how much one person can move a query's answer (its sensitivity);
- how Laplace noise is calibrated to that sensitivity;
- how the privacy costs of repeated queries add up.

The budget of those costs is called the privacy wallet. This project models
the deterministic arithmetic of the scripts in Dafny and proves properties
of it. Values that the scripts keep as floats are exact `real`s here. Noise
draws are inputs to the model.

The project has five modules, one per concept:

- `Sensitivity` (`sensitivity.dfy`): the counting query `count_pizza` over
  0/1 records, its measured sensitivity `|f(D1) - f(D2)|`, and the
  sensitivity `1/n` of the mean of n values in [0,1]. Neighbouring datasets
  have the same length and differ in exactly one record.
- `Laplace` (`laplace.dfy`): the scale `b = sensitivity / epsilon`,
  `laplace_mech` (true value plus one draw at that scale) and the list of
  noisy answers.
- `Composition` (`composition.dfy`): the additive rule
  (ε1, δ1) + (ε2, δ2) = (ε1 + ε2, δ1 + δ2), `total_epsilon` and the
  composition demo's epsilon and delta totals.
- `Wallet` (`wallet.dfy`): the privacy-wallet loop from the composition
  notes. It is modelled both as a recursive function `Run` that logs every
  attempt and as the method `PrivacyWallet`, whose loop is proved to agree
  with `Run`.
- `Indistinguishability` (`indistinguishability.dfy`): the setting of the
  indistinguishability demo. This covers the neighbouring means, the scale,
  the floored empirical probabilities and their ratio.

The model follows the scripts as written, which are simpler than a
production privacy library:

- The code has no domain errors, no budget-exceeded error and no ledger
  object. The wallet is a plain number that a loop refuses to overdraw, and
  it tracks epsilon only.
- The code measures the count's sensitivity on one example pair. The model
  computes it the same way, and separately proves that every neighbouring
  0/1 pair has sensitivity 1.
- The code's mean query is over values in [0,1], so its sensitivity is
  `1/n`, not `(hi - lo)/n`.
- Preconditions the code never checks (ε > 0, n > 0, at least one trial) are
  `requires` clauses.

## Model

| member | source | states |
|---|---|---|
| Sensitivity.Count | differential-privacy-playground/basic-concepts/sensitivity.py:16-18 | over 0/1 records the count of people who like pizza lies between 0 and the number of records |
| Sensitivity.CountIsNumberOfOnes | differential-privacy-playground/basic-concepts/sensitivity.py:16-18 | over 0/1 records the sum equals the number of records equal to 1 (their multiplicity in the dataset) |
| Sensitivity.CountSensitivity | differential-privacy-playground/basic-concepts/sensitivity.py:27-29 | the measured sensitivity is never negative, and it is zero exactly when both datasets give the same count |
| Sensitivity.CountSensitivitySymmetric | differential-privacy-playground/scripts/dp_toy_demos.py:13-14 | the measured sensitivity is the same whichever dataset is named first |
| Sensitivity.CountDifferenceAt | differential-privacy-playground/basic-concepts/sensitivity.py:4-5 | changing one person's record changes the count by exactly the change in that record, for any integer records |
| Sensitivity.NeighbourCountsDifferByOne | differential-privacy-playground/basic-concepts/sensitivity.py:31-35 | for every pair of neighbouring 0/1 datasets, the counts differ by exactly one, up or down, so the sensitivity is 1 |
| Sensitivity.PizzaExample | differential-privacy-playground/basic-concepts/sensitivity.py:20-29 | f(D1) = 3, f(D2) = 4, the two datasets are neighbours, and their measured sensitivity is 1 |
| Sensitivity.MeanSensitivity01 | differential-privacy-playground/scripts/dp_toy_demos.py:17-19 | the mean's declared sensitivity for n > 0 is positive and multiplies with n to give 1 |
| Sensitivity.MeanSensitivityDecreasing | differential-privacy-playground/scripts/dp_toy_demos.py:17-19 | the sensitivity 1/n strictly decreases as n grows, and n = 1 gives the largest value |
| Sensitivity.MeanShiftBounded | differential-privacy-playground/scripts/dp_toy_demos.py:17-18 | changing one value within [0,1] moves the mean of n values by at most 1/n in either direction |
| Sensitivity.MeanShiftAttained | differential-privacy-playground/scripts/dp_toy_demos.py:18 | the swing 1/n is reached by a neighbouring pair of [0,1] datasets, so 1/n is the maximum and not just an upper bound |
| Laplace.Scale | differential-privacy-playground/scripts/dp_toy_demos.py:23-24 | the scale b satisfies b · ε = sensitivity; it is positive for a positive sensitivity and zero for sensitivity zero |
| Laplace.ScaleDecreasesWithEpsilon | differential-privacy-playground/scripts/laplace_mechanism.py:15 | for a fixed positive sensitivity, a smaller ε gives a strictly larger scale: stronger privacy means more noise |
| Laplace.ScaleIncreasesWithSensitivity | differential-privacy-playground/scripts/laplace_mechanism.py:13 | for a fixed ε > 0, a larger sensitivity gives a strictly larger scale |
| Laplace.LaplaceMech | differential-privacy-playground/scripts/dp_toy_demos.py:23-25 | for ε > 0 and a non-negative sensitivity, the release minus the true value is exactly the draw taken at scale sensitivity/ε |
| Laplace.LaplaceMechShift | differential-privacy-playground/scripts/dp_toy_demos.py:25 | with the same draw, two true values that differ by d are released as outputs that also differ by exactly d |
| Laplace.NoisyAnswers | differential-privacy-playground/scripts/laplace_mechanism.py:27 | there is one answer per trial, and answer k minus the true count is the noise drawn for trial k at the given scale |
| Laplace.NoisyAnswersRecoverDraws | differential-privacy-playground/scripts/laplace_mechanism.py:27 | a list of answers is the release of a true count with given noise if and only if it has one entry per trial and subtracting the true count from entry k gives the noise of trial k |
| Laplace.ScaleExample | differential-privacy-playground/scripts/laplace_mechanism.py:22-25 | sensitivity 1 at ε = 1.0 gives scale 1.0 |
| Laplace.HalfEpsilonScaleExample | differential-privacy-playground/scripts/dp_toy_demos.py:84 | sensitivity 1 at ε = 0.5 gives scale 2.0, twice the noise of ε = 1.0 |
| Composition.Compose | differential-privacy-playground/basic-concepts/composition.py:58-64 | for non-negative costs, the pair (ε1 + ε2, δ1 + δ2) is non-negative and costs at least as much as either query alone, in ε and in δ |
| Composition.ComposeCommutes | differential-privacy-playground/basic-concepts/composition.py:58-66 | composing two queries gives the same total whichever comes first |
| Composition.ComposeAll | differential-privacy-playground/basic-concepts/composition.py:58-66 | for non-negative costs, the total of a run of queries is non-negative and at least the cost of every query in the run; with ComposeAllAppend and ComposeAllOrderIndependent the total splits over any division of the run and ignores the order of its queries |
| Composition.ComposeAllAppend | differential-privacy-playground/basic-concepts/composition.py:58-64 | a run of queries followed by another run costs the sum of both runs' (ε, δ) |
| Composition.ComposeAllOrderIndependent | differential-privacy-playground/basic-concepts/composition.py:58-66 | any rearrangement of the same queries has the same total (ε, δ) |
| Composition.RepeatedComposeIsSum | differential-privacy-playground/basic-concepts/composition.py:58-66 | composing one query with itself k times adds its ε up k times and its δ up k times |
| Composition.RepeatedComposeIsProduct | differential-privacy-playground/scripts/dp_toy_demos.py:56-58 | composing one query with itself k times costs exactly ε·k and δ·k |
| Composition.TotalEpsilon | differential-privacy-playground/basic-concepts/composition.py:9 | eps_per_query × num_queries is the ε of that query composed with itself num_queries times under the additive rule |
| Composition.BasicComposition | differential-privacy-playground/scripts/dp_toy_demos.py:56-58 | the demo's totals (ε·k, δ·k) are exactly the cost of the per-query (ε, δ) composed with itself k times |
| Composition.TotalEpsilonStep | differential-privacy-playground/basic-concepts/composition.py:5-9 | one more query at the same cost adds exactly that cost to eps_per_query × num_queries |
| Composition.TotalEpsilonExample | differential-privacy-playground/basic-concepts/composition.py:5-9 | four queries at ε = 0.5 cost 2.0 in total |
| Composition.CompositionDemoDefault | differential-privacy-playground/scripts/dp_toy_demos.py:56-58 | with the demo's defaults, four queries at (0.5, 1e-5) total (2.0, 4e-5) |
| Composition.CompositionDemoMainRun | differential-privacy-playground/scripts/dp_toy_demos.py:88 | the demo's main run, four queries at (0.5, 1e-6), totals (2.0, 4e-6) |
| Wallet.Charge | differential-privacy-playground/basic-concepts/composition.py:90-94 | a query is answered exactly when the wallet covers its cost. An answered query lowers the wallet by the cost and a refused one changes nothing. The wallet stays non-negative and, for a non-negative cost, never grows |
| Wallet.ChargeTwiceIsChargeOfSum | differential-privacy-playground/basic-concepts/composition.py:60-66 | two queries the wallet can cover are both answered and leave the same wallet as one query costing their sum |
| Wallet.Run | differential-privacy-playground/basic-concepts/composition.py:88-94 | the log has one entry per attempt, numbered 1, 2, … in order |
| Wallet.RunEntry | differential-privacy-playground/basic-concepts/composition.py:89-94 | attempt j+1 is answered exactly when the wallet left after j attempts covers the cost, and it reports that wallet minus the cost as remaining |
| Wallet.RunConservesBudget | differential-privacy-playground/basic-concepts/composition.py:85-92 | remaining wallet plus total spent always equals the initial budget |
| Wallet.RunSpentIsComposedCost | differential-privacy-playground/basic-concepts/composition.py:86-92 | the budget spent equals the per-query cost times the number of answered queries |
| Wallet.RunWalletNonNegative | differential-privacy-playground/basic-concepts/composition.py:88-94 | starting from a non-negative budget, the wallet never goes negative |
| Wallet.RunWalletNeverIncreases | differential-privacy-playground/basic-concepts/composition.py:88-94 | for a non-negative cost, the wallet after more attempts is never larger than after fewer |
| Wallet.RunRefusalIsFinal | differential-privacy-playground/basic-concepts/composition.py:93-94 | once a query is refused, every later query is refused and the wallet stays as it was |
| Wallet.RunAnswersUntilExhausted | differential-privacy-playground/basic-concepts/composition.py:89-94 | no more queries are answered than attempted, and if any attempt was refused the final wallet is below the cost |
| Wallet.RunAnswersAsManyAsFit | differential-privacy-playground/basic-concepts/composition.py:85-94 | for a non-negative budget and any cost, the answered count m is the most the budget allows: m queries fit, and if fewer than all attempts were answered then m + 1 queries would not fit |
| Wallet.WalletExample | differential-privacy-playground/basic-concepts/composition.py:97-103 | budget 2.0 at cost 0.5 over five attempts answers queries 1 to 4, leaving 1.5, 1.0, 0.5 and 0.0, and refuses query 5 |
| Wallet.PrivacyWallet | differential-privacy-playground/basic-concepts/composition.py:84-94 | the loop produces the same log and final wallet as the recursive model, conserves the budget, keeps a non-negative budget non-negative, and for a non-negative cost never ends above the budget |
| Indistinguishability.NeighbourSetup | differential-privacy-playground/scripts/dp_toy_demos.py:64-69 | the two means differ by exactly the mean's sensitivity 1/n, the scale is Laplace.Scale of 1/n at ε and is positive, and the second mean stays within [0,1] exactly when n ≥ 2 |
| Indistinguishability.CountAtMost | differential-privacy-playground/scripts/dp_toy_demos.py:73-74 | the number of trials in which the event fired never exceeds the number of trials |
| Indistinguishability.CountAtMostAntitone | differential-privacy-playground/scripts/dp_toy_demos.py:70-74 | if every output on one side is at least the matching output on the other, the event "output ≤ t" fires no more often on that side |
| Indistinguishability.FlooredProbability | differential-privacy-playground/scripts/dp_toy_demos.py:73-74 | each floored probability lies between 1e-12 and 1 + 1e-12, so it is strictly positive |
| Indistinguishability.FlooredProbabilityMonotone | differential-privacy-playground/scripts/dp_toy_demos.py:73-74 | over the same number of trials, fewer events give a smaller or equal floored probability |
| Indistinguishability.LikelihoodRatio | differential-privacy-playground/scripts/dp_toy_demos.py:75 | the ratio p1/p2 is always defined and positive, and multiplied by p2 it gives back p1 |
| Indistinguishability.Outputs | differential-privacy-playground/scripts/dp_toy_demos.py:67-71 | each side has one output per trial; the first side is the base mean 0.5 plus its noise, the second is 0.5 + 1/n plus its noise, and both draw at the calibrated scale (1/n)/ε |
| Indistinguishability.SharedDrawsRatioAtLeastOne | differential-privacy-playground/scripts/dp_toy_demos.py:66-75 | with the same noise on both sides, each output of the second dataset is exactly 1/n above the first, so the likelihood ratio is at least 1 |
| Indistinguishability.NeighbourMeansAttained | differential-privacy-playground/scripts/dp_toy_demos.py:65-67 | for n ≥ 2 the means 0.5 and 0.5 + 1/n are the means of two neighbouring datasets of n values in [0,1], given explicitly |
| Indistinguishability.SetupExample | differential-privacy-playground/scripts/dp_toy_demos.py:90 | with 1000 records at ε = 1.0, the means are 0.5 and 0.501 and the scale is 0.001 |

## Left out

- Random sampling (`np.random.laplace`, `np.random.normal` and the sampled
  arrays). These are library calls. Every draw is an input to the model, and
  nothing is claimed about its distribution.
- The Gaussian mechanism's σ = sqrt(2·ln(1.25/δ))·(sensitivity/ε) and the
  comparison of the ratio with e^ε. Both need square roots, logarithms and
  exponentials, which `real` arithmetic cannot evaluate.
- Plotting, output directories and every `print`. These are I/O only.
- The environment validation and setup scripts. They probe imports and call
  conda and subprocesses, and contain no arithmetic.
- IEEE floating-point rounding. Values are exact rationals. For example,
  0.5 · 4 is exactly 2.0 and 1e-12 is exactly 10^-12.
- Laplace.Scale: requires ε > 0. At ε = 0 Python raises ZeroDivisionError.
  For ε < 0 Python computes a scale (negative for a positive sensitivity,
  positive for a negative one); the model gives no scale there.
- Laplace.LaplaceMech: requires sensitivity ≥ 0 as well as ε > 0. At ε > 0 a
  negative sensitivity gives a negative scale, for which numpy's sampler
  raises ValueError; the model does not represent that error.
- Laplace.NoisyAnswers: requires a non-negative scale, for the same reason.
- Sensitivity.MeanSensitivity01: requires n > 0. The script's `1/n` raises a
  division error at n = 0 and gives no meaningful sensitivity for n < 0.
- Indistinguishability.FlooredProbability: requires at least one trial. With
  no trials numpy's mean is NaN, which the model does not represent.
- Composition.BasicComposition: the number of queries is a natural number.
  The script would also multiply by a negative count, which is meaningless
  for composition.
- Wallet.Run: the wallet tracks ε only, as the script does. The script has no
  δ budget, no per-query history object and no budget-exceeded error value.
  A refusal is recorded as a `NotAllowed` log entry.
