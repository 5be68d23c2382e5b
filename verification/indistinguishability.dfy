/** The deterministic part of the indistinguishability check: two
    neighbouring datasets whose means differ by one person's maximal
    contribution 1/n, Laplace noise calibrated to that sensitivity, and the
    floored empirical probabilities of the event "output <= threshold" on
    both sides, whose ratio is compared with e^eps. The noise draws are
    inputs; the comparison with e^eps is not modelled. */
module Indistinguishability {
  import opened Sensitivity
  import opened Laplace

  /** Added to every empirical probability so that an event that never
      fired still has a positive probability and the ratio is defined. */
  const ProbabilityFloor: real := 0.000000000001

  /** The mean of the first dataset. */
  const BaseMean: real := 0.5

  /** The event whose probability is compared is "output <= Threshold". */
  const Threshold: real := 0.5

  /** The calibrated setting: the two neighbouring means, the sensitivity of
      the mean and the Laplace scale. */
  datatype Setup = Setup(mu1: real, mu2: real, sens: real, scale: real)

  /** The setting of the check for n records at privacy level eps. The two
      means differ by exactly the sensitivity 1/n of the mean, and the noise
      scale is that sensitivity divided by eps. The second mean is itself
      the mean of values in [0,1] only when n >= 2. */
  function NeighbourSetup(n: int, eps: real): (s: Setup)
    requires n > 0 && eps > 0.0
    ensures s.mu1 == BaseMean
    ensures s.mu2 - s.mu1 == s.sens == MeanSensitivity01(n)
    ensures s.scale == Scale(MeanSensitivity01(n), eps) && s.scale > 0.0
    ensures s.mu2 <= 1.0 <==> n >= 2
  {
    var mu1 := BaseMean;
    var mu2 := mu1 + 1.0 / n as real;
    var sens := 1.0 / n as real;
    Setup(mu1, mu2, sens, sens / eps)
  }

  /** Number of outputs at or below the threshold t. */
  function CountAtMost(outputs: seq<real>, t: real): (c: nat)
    ensures c <= |outputs|
  {
    if |outputs| == 0 then 0
    else (if outputs[0] <= t then 1 else 0) + CountAtMost(outputs[1..], t)
  }

  /** If every output of b is at least the corresponding output of a, then
      no more outputs of b than of a fall at or below the threshold. */
  lemma {:induction false} CountAtMostAntitone(a: seq<real>, b: seq<real>, t: real)
    requires |a| == |b|
    requires forall k :: 0 <= k < |a| ==> a[k] <= b[k]
    ensures CountAtMost(b, t) <= CountAtMost(a, t)
  {
    if |a| > 0 {
      CountAtMostAntitone(a[1..], b[1..], t);
    }
  }

  /** The fraction of trials in which the event held, plus the floor. */
  function FlooredProbability(outputs: seq<real>, t: real): (p: real)
    requires |outputs| > 0
    ensures ProbabilityFloor <= p <= 1.0 + ProbabilityFloor
    ensures p > 0.0
  {
    CountAtMost(outputs, t) as real / |outputs| as real + ProbabilityFloor
  }

  /** The likelihood ratio p1 / p2 of the event under the two datasets. It
      is always defined and positive. */
  function LikelihoodRatio(outputs1: seq<real>, outputs2: seq<real>, t: real): (r: real)
    requires |outputs1| > 0 && |outputs2| > 0
    ensures r > 0.0
    ensures r * FlooredProbability(outputs2, t) == FlooredProbability(outputs1, t)
  {
    FlooredProbability(outputs1, t) / FlooredProbability(outputs2, t)
  }

  /** The two sides of the check: each mean released `trials` times, the
      first with noise `draw1`, the second with noise `draw2`, both at the
      calibrated scale. Every output of the first side is the base mean plus
      its noise, and every output of the second side is 1/n more than the
      base mean plus its noise. */
  function Outputs(n: int, eps: real, draw1: (nat, real) -> real, draw2: (nat, real) -> real, trials: nat)
    : (r: (seq<real>, seq<real>))
    requires n > 0 && eps > 0.0
    ensures |r.0| == trials && |r.1| == trials
    ensures forall k :: 0 <= k < trials ==>
              r.0[k] - BaseMean == draw1(k, Scale(MeanSensitivity01(n), eps))
    ensures forall k :: 0 <= k < trials ==>
              r.1[k] - BaseMean - MeanSensitivity01(n) == draw2(k, Scale(MeanSensitivity01(n), eps))
  {
    var s := NeighbourSetup(n, eps);
    (NoisyAnswers(s.mu1, s.scale, draw1, trials), NoisyAnswers(s.mu2, s.scale, draw2, trials))
  }

  /** Were both sides released with the same noise, every output of the
      second dataset would sit exactly 1/n above the matching output of the
      first; so the event "output <= threshold" could only be rarer on the
      second side, and the likelihood ratio would be at least 1. */
  lemma SharedDrawsRatioAtLeastOne(n: int, eps: real, draw: (nat, real) -> real, trials: nat)
    requires n > 0 && eps > 0.0
    requires trials > 0
    ensures var (o1, o2) := Outputs(n, eps, draw, draw, trials);
            && (forall k :: 0 <= k < trials ==> o2[k] - o1[k] == MeanSensitivity01(n))
            && LikelihoodRatio(o1, o2, Threshold) >= 1.0
  {
    var (o1, o2) := Outputs(n, eps, draw, draw, trials);
    var s := NeighbourSetup(n, eps);
    assert forall k :: 0 <= k < trials ==> o2[k] - o1[k] == s.sens;
    CountAtMostAntitone(o1, o2, Threshold);
    FlooredProbabilityMonotone(o2, o1, Threshold);
    QuotientAtLeastOne(FlooredProbability(o1, Threshold), FlooredProbability(o2, Threshold));
  }

  lemma QuotientAtLeastOne(x: real, y: real)
    requires 0.0 < y <= x
    ensures x / y >= 1.0
  {
    QuotientDifference(x, y, y);
    assert y / y == 1.0;
  }

  /** Over the same number of trials, fewer events means a smaller floored
      probability. */
  lemma FlooredProbabilityMonotone(a: seq<real>, b: seq<real>, t: real)
    requires 0 < |a| == |b|
    requires CountAtMost(a, t) <= CountAtMost(b, t)
    ensures FlooredProbability(a, t) <= FlooredProbability(b, t)
  {
    var n := |a| as real;
    var ca, cb := CountAtMost(a, t) as real, CountAtMost(b, t) as real;
    QuotientDifference(cb, ca, n);
  }

  /** For n >= 2 the two means of the check are the means of two real
      neighbouring datasets of n values in [0,1]: records 0, 1, 0.5, ..., 0.5
      have mean 0.5, and raising the first record from 0 to 1 gives mean
      0.5 + 1/n. */
  lemma NeighbourMeansAttained(n: int, eps: real)
    requires n >= 2 && eps > 0.0
    ensures var s := NeighbourSetup(n, eps);
            var a := [0.0, 1.0] + seq(n - 2, _ => 0.5);
            var b := a[0 := 1.0];
            && |a| == n && InUnit(a) && InUnit(b) && Neighbours(a, b)
            && Mean(a) == s.mu1 && Mean(b) == s.mu2
  {
    var s := NeighbourSetup(n, eps);
    var a := [0.0, 1.0] + seq(n - 2, _ => 0.5);
    var b := a[0 := 1.0];
    var m := n as real;
    assert DiffersOnlyAt(a, b, 0);
    SumOfHalves(n - 2);
    assert a[1..][1..] == seq(n - 2, _ => 0.5);
    assert Sum(a) == 0.5 * m;
    assert Mean(a) == 0.5 by {
      assert (0.5 * m) / m == 0.5;
    }
    SumDifferenceAt(b, a, 0);
    QuotientDifference(Sum(b), Sum(a), m);
  }

  /** With 1000 records at eps 1.0 the means are 0.5 and 0.501 and the
      noise scale is 0.001. */
  lemma SetupExample()
    ensures NeighbourSetup(1000, 1.0) == Setup(0.5, 0.501, 0.001, 0.001)
  {
  }
}
