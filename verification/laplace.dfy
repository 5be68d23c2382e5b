/** The Laplace mechanism (pure DP, delta = 0): release the true answer plus
    Laplace noise whose scale is calibrated as b = sensitivity / epsilon.
    Drawing the noise is the job of a random source outside the model; here
    the draw is an explicit input, so the model states how the scale is
    computed and how the draw is combined with the answer, and nothing about
    the distribution of the draw. */
module Laplace {

  /** Laplace scale b for a query of sensitivity sens released at privacy
      level eps: b is the amount of noise per unit of privacy, b * eps = sens. */
  function Scale(sens: real, eps: real): (b: real)
    requires eps > 0.0
    ensures b * eps == sens
    ensures sens > 0.0 ==> b > 0.0
    ensures sens == 0.0 ==> b == 0.0
  {
    sens / eps
  }

  /** Smaller epsilon means stronger privacy and therefore more noise: for a
      fixed positive sensitivity the scale strictly grows as epsilon shrinks. */
  lemma ScaleDecreasesWithEpsilon(sens: real, eps1: real, eps2: real)
    requires sens > 0.0
    requires 0.0 < eps1 < eps2
    ensures Scale(sens, eps2) < Scale(sens, eps1)
  {
    var b1, b2 := Scale(sens, eps1), Scale(sens, eps2);
    assert b1 * eps1 == b2 * eps2;
    assert b2 * eps1 < b2 * eps2;
  }

  /** A query one person can swing further needs more noise: for a fixed
      epsilon the scale strictly grows with the sensitivity. */
  lemma ScaleIncreasesWithSensitivity(sens1: real, sens2: real, eps: real)
    requires eps > 0.0
    requires sens1 < sens2
    ensures Scale(sens1, eps) < Scale(sens2, eps)
  {
    var b1, b2 := Scale(sens1, eps), Scale(sens2, eps);
    assert (b2 - b1) * eps == sens2 - sens1;
  }

  /** `laplace_mech`: the true value plus one draw of zero-centred noise at
      the calibrated scale. `draw` stands for the random source; it is given
      the scale and returns the noise term. The random source accepts only a
      non-negative scale, so the sensitivity must not be negative. */
  function LaplaceMech(trueValue: real, eps: real, sens: real, draw: real -> real): (r: real)
    requires eps > 0.0 && sens >= 0.0
    ensures r - trueValue == draw(Scale(sens, eps))
  {
    trueValue + draw(sens / eps)
  }

  /** Two true values that differ by d, released with the same draw, give
      outputs that differ by exactly d: the noise alone must hide a change of
      one person, which is why its scale is tied to the sensitivity. */
  lemma LaplaceMechShift(t1: real, t2: real, eps: real, sens: real, draw: real -> real)
    requires eps > 0.0 && sens >= 0.0
    ensures LaplaceMech(t2, eps, sens, draw) - LaplaceMech(t1, eps, sens, draw) == t2 - t1
  {
  }

  /** Release of the same true value once per trial, as the list of noisy
      answers in the playground: answer k is the true value plus the noise
      `draw(k, scale)` of trial k at the given scale. */
  function NoisyAnswers(trueValue: real, scale: real, draw: (nat, real) -> real, trials: nat): (answers: seq<real>)
    requires scale >= 0.0
    ensures |answers| == trials
    ensures forall k :: 0 <= k < trials ==> answers[k] - trueValue == draw(k, scale)
  {
    seq(trials, k requires 0 <= k => trueValue + draw(k, scale))
  }

  /** The answers determine the noise given the true value (and conversely):
      subtracting the true value recovers exactly the noise that was added. */
  lemma NoisyAnswersRecoverDraws(trueValue: real, scale: real, draw: (nat, real) -> real, trials: nat, answers: seq<real>)
    requires scale >= 0.0
    ensures answers == NoisyAnswers(trueValue, scale, draw, trials)
            <==> |answers| == trials && forall k :: 0 <= k < trials ==> answers[k] - trueValue == draw(k, scale)
  {
    if |answers| == trials && forall k :: 0 <= k < trials ==> answers[k] - trueValue == draw(k, scale) {
      assert answers == NoisyAnswers(trueValue, scale, draw, trials);
    }
  }

  /** Sensitivity 1 at epsilon 1.0 gives scale 1.0. */
  lemma ScaleExample()
    ensures Scale(1.0, 1.0) == 1.0
  {
  }

  /** Halving epsilon to 0.5 doubles the scale to 2.0. */
  lemma HalfEpsilonScaleExample()
    ensures Scale(1.0, 0.5) == 2.0
  {
  }
}
