/**
 * The pure half of the configuration search environment: the mapping from an
 * action vector to a named configuration, the five simulated detectors and the
 * five-term reward. Floats are modelled as reals; the Gaussian noise is an
 * argument; the square root behind the standard deviation is a parameter
 * `sqrt`, and the lemmas that need its meaning require `IsSqrt(sqrt)`.
 */
module DetectionScoring {
  import opened Wrappers

  /** A vector of five detector scores (also the shape of the noise draw). */
  type Vec5 = s: seq<real> | |s| == 5 witness [0.0, 0.0, 0.0, 0.0, 0.0]

  const ActionSize: nat := 10

  /** The names of the ten configuration entries, in the dict's insertion order. */
  const ConfigKeys: seq<string> := [
    "canvas_noise", "webgl_noise", "audio_noise", "font_spoofing", "timezone",
    "language", "hardware_concurrency", "device_memory", "screen_noise",
    "user_agent_rotation"
  ]

  /** The names of the five detectors, in the order of the score vector. */
  const DetectorNames: seq<string> := ["pixelscan", "creepjs", "browserleaks", "incolumitas", "sannysoft"]

  /** A protection configuration: one level per protection module. */
  datatype Config = Config(
    canvasNoise: real,
    webglNoise: real,
    audioNoise: real,
    fontSpoofing: real,
    timezone: real,
    language: real,
    hardwareConcurrency: real,
    deviceMemory: real,
    screenNoise: real,
    userAgentRotation: real)
  {
    /** `list(config.values())`: the levels in insertion order. */
    function Values(): (v: seq<real>)
      ensures |v| == ActionSize
    {
      [canvasNoise, webglNoise, audioNoise, fontSpoofing, timezone,
       language, hardwareConcurrency, deviceMemory, screenNoise, userAgentRotation]
    }
  }

  function DefaultConfig(): Config {
    Config(0.5, 0.5, 0.5, 0.5, 0.5, 0.5, 0.5, 0.5, 0.5, 0.5)
  }

  /**
   * `_action_to_config`: entries 0..9 of the action become the ten levels,
   * verbatim (no clamping). Indexing an action with fewer than ten entries
   * raises IndexError, modelled as None; entries past the tenth are ignored.
   */
  function ActionToConfig(action: seq<real>): (r: Option<Config>)
    ensures r.Some? <==> |action| >= ActionSize
    ensures r.Some? ==> r.value.Values() == action[..ActionSize]
  {
    if |action| < ActionSize then None
    else Some(Config(action[0], action[1], action[2], action[3], action[4],
                     action[5], action[6], action[7], action[8], action[9]))
  }

  /** Converting the levels of a configuration back gives the same configuration. */
  lemma ActionToConfigRoundTrip(c: Config)
    ensures ActionToConfig(c.Values()) == Some(c)
  {
  }

  // ---------------------------------------------------------------- statistics

  predicate InRange(s: seq<real>, lo: real, hi: real) {
    forall i :: 0 <= i < |s| ==> lo <= s[i] <= hi
  }

  function Sum(s: seq<real>): real
    decreases |s|
  {
    if s == [] then 0.0 else Sum(s[..|s| - 1]) + s[|s| - 1]
  }

  function SumSq(s: seq<real>): real
    decreases |s|
  {
    if s == [] then 0.0 else SumSq(s[..|s| - 1]) + s[|s| - 1] * s[|s| - 1]
  }

  /** Sum of squared deviations from `m`. */
  function SumSqDev(s: seq<real>, m: real): real
    decreases |s|
  {
    if s == [] then 0.0 else SumSqDev(s[..|s| - 1], m) + (s[|s| - 1] - m) * (s[|s| - 1] - m)
  }

  /** `np.mean` (undefined, `nan`, on an empty sequence; no caller passes one). */
  function Mean(s: seq<real>): real
    requires |s| > 0
  {
    Sum(s) / (|s| as real)
  }

  /** Population variance, as `np.std` squares it (ddof = 0). */
  function Variance(s: seq<real>): real
    requires |s| > 0
  {
    SumSqDev(s, Mean(s)) / (|s| as real)
  }

  /** `np.std`: the square root of the population variance. */
  function StdDev(s: seq<real>, sqrt: real -> real): real
    requires |s| > 0
  {
    sqrt(Variance(s))
  }

  /** `sqrt` is the non-negative square root on the non-negative reals. */
  ghost predicate IsSqrt(sqrt: real -> real) {
    forall x :: 0.0 <= x ==> 0.0 <= sqrt(x) && sqrt(x) * sqrt(x) == x
  }

  function Abs(x: real): real {
    if x < 0.0 then -x else x
  }

  /** `np.clip(x, lo, hi)`. */
  function Clip(x: real, lo: real, hi: real): (r: real)
    requires lo <= hi
    ensures lo <= r <= hi
    ensures lo <= x <= hi ==> r == x
  {
    if x < lo then lo else if x > hi then hi else x
  }

  /** One step of `SumBounds`, on plain reals. */
  lemma BoundsStep(n: real, n1: real, lo: real, hi: real, sp: real, x: real, sum: real)
    requires n * lo <= sp <= n * hi && lo <= x <= hi
    requires n1 == n + 1.0 && sum == sp + x
    ensures n1 * lo <= sum <= n1 * hi
  {
    assert n1 * lo == n * lo + lo;
    assert n1 * hi == n * hi + hi;
  }

  lemma {:induction false} SumBounds(s: seq<real>, lo: real, hi: real)
    requires InRange(s, lo, hi)
    ensures (|s| as real) * lo <= Sum(s) <= (|s| as real) * hi
    decreases |s|
  {
    if s != [] {
      var p := s[..|s| - 1];
      SumBounds(p, lo, hi);
      BoundsStep(|p| as real, |s| as real, lo, hi, Sum(p), s[|s| - 1], Sum(s));
    }
  }

  lemma MeanBounds(s: seq<real>, lo: real, hi: real)
    requires |s| > 0 && InRange(s, lo, hi)
    ensures lo <= Mean(s) <= hi
  {
    SumBounds(s, lo, hi);
    var n := |s| as real;
    assert Sum(s) / n >= lo by { assert Sum(s) >= n * lo; }
    assert Sum(s) / n <= hi by { assert Sum(s) <= n * hi; }
  }

  lemma {:induction false} SumSqDevNonNeg(s: seq<real>, m: real)
    ensures SumSqDev(s, m) >= 0.0
    decreases |s|
  {
    if s != [] {
      SumSqDevNonNeg(s[..|s| - 1], m);
      var d := s[|s| - 1] - m;
      assert d * d >= 0.0;
    }
  }

  /** One step of `SumSqDevExpand`, on plain reals: extending by `x` keeps the expansion. */
  lemma ExpandStep(d: real, dp: real, sq: real, sum: real, n: real, a: real, b: real, k: real, x: real, m: real)
    requires dp == a - 2.0 * m * b + k * m * m
    requires d == dp + (x - m) * (x - m)
    requires sq == a + x * x && sum == b + x && n == k + 1.0
    ensures d == sq - 2.0 * m * sum + n * m * m
  {
  }

  lemma {:induction false} SumSqDevExpand(s: seq<real>, m: real)
    ensures SumSqDev(s, m) == SumSq(s) - 2.0 * m * Sum(s) + (|s| as real) * m * m
    decreases |s|
  {
    if s != [] {
      var p, x := s[..|s| - 1], s[|s| - 1];
      SumSqDevExpand(p, m);
      ExpandStep(SumSqDev(s, m), SumSqDev(p, m), SumSq(s), Sum(s), |s| as real,
                 SumSq(p), Sum(p), |p| as real, x, m);
    }
  }

  lemma MulNonNeg(a: real, b: real)
    requires a >= 0.0 && b >= 0.0
    ensures a * b >= 0.0
  {
  }

  /** One step of `SumSqAtMostSum`, on plain reals. */
  lemma SqSumStep(sqp: real, sump: real, x: real, sq: real, sum: real)
    requires sqp <= sump && 0.0 <= x <= 1.0
    requires sq == sqp + x * x && sum == sump + x
    ensures sq <= sum
  {
    assert x - x * x == x * (1.0 - x);
    MulNonNeg(x, 1.0 - x);
  }

  lemma {:induction false} SumSqAtMostSum(s: seq<real>)
    requires InRange(s, 0.0, 1.0)
    ensures SumSq(s) <= Sum(s)
    decreases |s|
  {
    if s != [] {
      var p := s[..|s| - 1];
      SumSqAtMostSum(p);
      SqSumStep(SumSq(p), Sum(p), s[|s| - 1], SumSq(s), Sum(s));
    }
  }

  /** Squaring is strictly increasing on the non-negative reals. */
  lemma SquareStrict(r: real, b: real)
    requires 0.0 <= r < b
    ensures r * r < b * b
  {
    var rr, rb, bb := r * r, r * b, b * b;
    assert rr <= rb by { assert rb - rr == r * (b - r); }
    assert rb < bb by { assert bb - rb == b * (b - r); }
  }

  /** For non-negative reals, order agrees with the order of the squares. */
  lemma SquareOrder(r: real, b: real)
    requires r >= 0.0 && b >= 0.0
    ensures r <= b <==> r * r <= b * b
    ensures r == b <==> r * r == b * b
  {
    if r < b {
      SquareStrict(r, b);
    } else if b < r {
      SquareStrict(b, r);
    }
  }

  lemma SumOfFive(s: Vec5)
    ensures Sum(s) == s[0] + s[1] + s[2] + s[3] + s[4]
  {
    var s4, s3, s2, s1 := s[..4], s[..3], s[..2], s[..1];
    assert s4[..3] == s3 && s3[..2] == s2 && s2[..1] == s1 && s1[..0] == [];
    assert Sum(s1) == s[0];
    assert Sum(s2) == s[0] + s[1];
    assert Sum(s3) == s[0] + s[1] + s[2];
    assert Sum(s4) == s[0] + s[1] + s[2] + s[3];
  }

  /** The variance of a sequence is never negative. */
  lemma VarianceNonNeg(s: seq<real>)
    requires |s| > 0
    ensures Variance(s) >= 0.0
  {
    SumSqDevNonNeg(s, Mean(s));
  }

  /** The arithmetic of Popoviciu's bound for a sum of squared deviations `d` over `n` values. */
  lemma QuarterArith(n: real, m: real, sq: real, sum: real, d: real)
    requires n > 0.0 && sum == n * m && sq <= sum
    requires d == sq - 2.0 * m * sum + n * m * m
    ensures d / n <= 0.25
  {
    assert 2.0 * m * sum == 2.0 * n * (m * m);
    assert d <= n * (m - m * m);
    assert m - m * m <= 0.25 by { assert (m - 0.5) * (m - 0.5) >= 0.0; }
    assert n * (m - m * m) <= n * 0.25 by { assert n * (0.25 - (m - m * m)) >= 0.0; }
  }

  /** Popoviciu's bound: values in [0, 1] have variance at most 1/4. */
  lemma VarianceAtMostQuarter(s: seq<real>)
    requires |s| > 0 && InRange(s, 0.0, 1.0)
    ensures Variance(s) <= 0.25
  {
    var n := |s| as real;
    var m := Mean(s);
    SumSqDevExpand(s, m);
    SumSqAtMostSum(s);
    assert Sum(s) == n * m;
    QuarterArith(n, m, SumSq(s), Sum(s), SumSqDev(s, m));
  }

  lemma {:induction false} ConstantSumSqDev(s: seq<real>, v: real)
    requires forall i :: 0 <= i < |s| ==> s[i] == v
    ensures Sum(s) == (|s| as real) * v
    ensures SumSqDev(s, v) == 0.0
    decreases |s|
  {
    if s != [] {
      ConstantSumSqDev(s[..|s| - 1], v);
    }
  }

  /** A constant sequence has standard deviation 0. */
  lemma ConstantStdDev(s: seq<real>, v: real, sqrt: real -> real)
    requires |s| > 0 && IsSqrt(sqrt)
    requires forall i :: 0 <= i < |s| ==> s[i] == v
    ensures Mean(s) == v
    ensures Variance(s) == 0.0
    ensures StdDev(s, sqrt) == 0.0
  {
    ConstantSumSqDev(s, v);
    var r := sqrt(0.0);
    SquareOrder(r, 0.0);
  }

  /** The bound on the variance carries over to the standard deviation. */
  lemma StdDevUnitBox(s: seq<real>, sqrt: real -> real)
    requires |s| > 0 && IsSqrt(sqrt) && InRange(s, 0.0, 1.0)
    ensures 0.0 <= StdDev(s, sqrt) <= 0.5
  {
    VarianceNonNeg(s);
    VarianceAtMostQuarter(s);
    var v := Variance(s);
    var r := sqrt(v);
    SquareOrder(r, 0.5);
  }

  /** For a true square root, `std > 0.3` holds exactly when the variance exceeds 0.09. */
  lemma StdThresholdIsVarianceThreshold(s: seq<real>, sqrt: real -> real)
    requires |s| > 0 && IsSqrt(sqrt)
    ensures StdDev(s, sqrt) > 0.3 <==> Variance(s) > 0.09
  {
    VarianceNonNeg(s);
    var r := sqrt(Variance(s));
    SquareOrder(r, 0.3);
  }

  // ---------------------------------------------------------------- detectors

  /** PixelScan before clipping: canvas and WebGL noise, best near canvas 0.7. */
  function Pixelscan(c: Config): real {
    60.0 + c.canvasNoise * 20.0 + c.webglNoise * 15.0 - Abs(c.canvasNoise - 0.7) * 20.0
  }

  /** The consistency penalty of CreepJS: 30 times the spread once it exceeds 0.3. */
  function ConsistencyPenalty(c: Config, sqrt: real -> real): real {
    var sd := StdDev(c.Values(), sqrt);
    if sd > 0.3 then sd * 30.0 else 0.0
  }

  /** CreepJS before clipping: the mean level, less the consistency penalty. */
  function Creepjs(c: Config, sqrt: real -> real): real {
    70.0 + Mean(c.Values()) * 25.0 - ConsistencyPenalty(c, sqrt)
  }

  /** BrowserLeaks before clipping: canvas only, best near canvas 0.6. */
  function Browserleaks(c: Config): real {
    65.0 + c.canvasNoise * 30.0 - Abs(c.canvasNoise - 0.6) * 25.0
  }

  /** Incolumitas before clipping: user agent rotation and the two hardware overrides. */
  function Incolumitas(c: Config): real {
    55.0 + c.userAgentRotation * 20.0 + (c.hardwareConcurrency + c.deviceMemory) * 10.0
  }

  /** Sannysoft before clipping: the mean of WebGL and audio noise. */
  function Sannysoft(c: Config): real {
    70.0 + Mean([c.webglNoise, c.audioNoise]) * 25.0
  }

  /** The five detector scores, each clipped to [0, 100], before the noise is added. */
  function CleanScores(c: Config, sqrt: real -> real): (r: Vec5)
    ensures InRange(r, 0.0, 100.0)
  {
    [Clip(Pixelscan(c), 0.0, 100.0), Clip(Creepjs(c, sqrt), 0.0, 100.0),
     Clip(Browserleaks(c), 0.0, 100.0), Clip(Incolumitas(c), 0.0, 100.0),
     Clip(Sannysoft(c), 0.0, 100.0)]
  }

  /**
   * `_test_detectors` in simulation mode: clip each raw score, add the noise
   * draw (`np.random.normal(0, 2, 5)`, passed in) and clip again. Every score
   * lies in [0, 100] whatever the noise.
   */
  function TestDetectors(c: Config, noise: Vec5, sqrt: real -> real): (r: Vec5)
    ensures InRange(r, 0.0, 100.0)
  {
    var clean := CleanScores(c, sqrt);
    [Clip(clean[0] + noise[0], 0.0, 100.0), Clip(clean[1] + noise[1], 0.0, 100.0),
     Clip(clean[2] + noise[2], 0.0, 100.0), Clip(clean[3] + noise[3], 0.0, 100.0),
     Clip(clean[4] + noise[4], 0.0, 100.0)]
  }

  /** The noise moves each score by at most its own magnitude, and zero noise moves nothing. */
  lemma NoiseEffectBounded(c: Config, noise: Vec5, sqrt: real -> real, i: nat)
    requires i < 5
    ensures Abs(TestDetectors(c, noise, sqrt)[i] - CleanScores(c, sqrt)[i]) <= Abs(noise[i])
    ensures noise[i] == 0.0 ==> TestDetectors(c, noise, sqrt)[i] == CleanScores(c, sqrt)[i]
  {
    var clean := CleanScores(c, sqrt);
    assert 0.0 <= clean[i] <= 100.0;
  }

  /** The all-0.5 default configuration scores exactly 82.5 on CreepJS before noise. */
  lemma DefaultCreepjs(sqrt: real -> real)
    requires IsSqrt(sqrt)
    ensures DefaultConfig().Values() == seq(ActionSize, _ => 0.5)
    ensures ConsistencyPenalty(DefaultConfig(), sqrt) == 0.0
    ensures Creepjs(DefaultConfig(), sqrt) == 82.5
    ensures CleanScores(DefaultConfig(), sqrt)[1] == 82.5
  {
    var v := DefaultConfig().Values();
    ConstantStdDev(v, 0.5, sqrt);
  }

  /** With every level at 0.7, PixelScan scores exactly 60 + 14 + 10.5 = 84.5 before noise. */
  lemma UniformSevenTenthsPixelscan()
    ensures Pixelscan(Config(0.7, 0.7, 0.7, 0.7, 0.7, 0.7, 0.7, 0.7, 0.7, 0.7)) == 84.5
  {
  }

  /** Past canvas level 0.7 PixelScan no longer depends on the canvas level. */
  lemma PixelscanFlatAboveOptimum(c: Config, d: Config)
    requires c.canvasNoise >= 0.7 && d.canvasNoise >= 0.7 && c.webglNoise == d.webglNoise
    ensures Pixelscan(c) == Pixelscan(d) == 74.0 + 15.0 * c.webglNoise
  {
  }

  /**
   * For levels inside the action box [0, 1], the raw detector scores stay
   * below 100, so the first clip never cuts them from above, and their mean
   * is at most 91.8: without noise, an in-box action never reaches the
   * termination average of 95.
   */
  lemma CleanAverageBelowTermination(c: Config, sqrt: real -> real)
    requires InRange(c.Values(), 0.0, 1.0)
    ensures 46.0 <= Pixelscan(c) <= 89.0
    ensures Creepjs(c, sqrt) <= 95.0
    ensures 50.0 <= Browserleaks(c) <= 85.0
    ensures 55.0 <= Incolumitas(c) <= 95.0
    ensures 70.0 <= Sannysoft(c) <= 95.0
    ensures Mean(CleanScores(c, sqrt)) <= 91.8 < 95.0
  {
    var v := c.Values();
    assert c.canvasNoise == v[0] && c.webglNoise == v[1] && c.audioNoise == v[2];
    assert c.hardwareConcurrency == v[6] && c.deviceMemory == v[7] && c.userAgentRotation == v[9];
    MeanBounds(v, 0.0, 1.0);
    MeanBounds([c.webglNoise, c.audioNoise], 0.0, 1.0);
    var s := CleanScores(c, sqrt);
    assert s[0] <= 89.0 && s[1] <= 95.0 && s[2] <= 85.0 && s[3] <= 95.0 && s[4] <= 95.0;
    SumOfFive(s);
  }

  // ---------------------------------------------------------------- reward

  /** The high-score bonus: 2 from an average of 90, 1 from 85, otherwise 0. */
  function HighScoreBonus(avg: real): (b: real)
    ensures 0.0 <= b <= 2.0
  {
    if avg >= 90.0 then 2.0 else if avg >= 85.0 then 1.0 else 0.0
  }

  /** The improvement bonus: a tenth of the gain over the baseline average, 0 without a baseline. */
  function ImprovementBonus(avg: real, baseline: Option<Vec5>): real {
    if baseline.Some? then (avg - Mean(baseline.value)) / 10.0 else 0.0
  }

  /**
   * `_calculate_reward`: score reward, less the aggression penalty, plus the
   * consistency bonus, the high-score bonus and the improvement bonus. It is
   * computed from the raw action, not from the configuration, and is not clamped.
   */
  function Reward(scores: Vec5, action: seq<real>, baseline: Option<Vec5>, sqrt: real -> real): real
    requires |action| > 0
  {
    var avg := Mean(scores);
    var scoreReward := avg / 10.0;
    var aggressionPenalty := Mean(action) * 0.5;
    var consistencyBonus := (1.0 - StdDev(action, sqrt)) * 0.3;
    scoreReward - aggressionPenalty + consistencyBonus + HighScoreBonus(avg)
      + ImprovementBonus(avg, baseline)
  }

  lemma HighScoreBonusMonotone(a: real, b: real)
    requires a <= b
    ensures HighScoreBonus(a) <= HighScoreBonus(b)
  {
  }

  /** A baseline adds exactly a tenth of the gain of the average over the baseline's average. */
  lemma RewardBaselineTerm(scores: Vec5, action: seq<real>, baseline: Vec5, sqrt: real -> real)
    requires |action| > 0
    ensures Reward(scores, action, Some(baseline), sqrt)
         == Reward(scores, action, None, sqrt) + (Mean(scores) - Mean(baseline)) / 10.0
  {
  }

  /** For a fixed action and baseline, a higher score average never earns a lower reward. */
  lemma RewardMonotoneInScores(s1: Vec5, s2: Vec5, action: seq<real>, baseline: Option<Vec5>,
                               sqrt: real -> real)
    requires |action| > 0
    requires Mean(s1) < Mean(s2)
    ensures Reward(s1, action, baseline, sqrt) < Reward(s2, action, baseline, sqrt)
  {
    HighScoreBonusMonotone(Mean(s1), Mean(s2));
  }

  /**
   * For scores and a baseline in [0, 100] and an action in [0, 1], the
   * unclamped reward lies in [-10.35, 22.3].
   */
  lemma RewardBounds(scores: Vec5, action: seq<real>, baseline: Option<Vec5>, sqrt: real -> real)
    requires |action| > 0 && IsSqrt(sqrt)
    requires InRange(scores, 0.0, 100.0) && InRange(action, 0.0, 1.0)
    requires baseline.Some? ==> InRange(baseline.value, 0.0, 100.0)
    ensures -10.35 <= Reward(scores, action, baseline, sqrt) <= 22.3
  {
    MeanBounds(scores, 0.0, 100.0);
    MeanBounds(action, 0.0, 1.0);
    StdDevUnitBox(action, sqrt);
    if baseline.Some? {
      MeanBounds(baseline.value, 0.0, 100.0);
    }
  }

  /** The reward can be negative: zero scores, a full-strength action and a perfect baseline. */
  lemma RewardCanBeNegative(sqrt: real -> real)
    requires IsSqrt(sqrt)
    ensures Reward([0.0, 0.0, 0.0, 0.0, 0.0], seq(ActionSize, _ => 1.0),
                   Some([100.0, 100.0, 100.0, 100.0, 100.0]), sqrt) < 0.0
  {
    var a := seq(ActionSize, _ => 1.0);
    ConstantStdDev(a, 1.0, sqrt);
    ConstantStdDev([0.0, 0.0, 0.0, 0.0, 0.0], 0.0, sqrt);
    ConstantStdDev([100.0, 100.0, 100.0, 100.0, 100.0], 100.0, sqrt);
  }
}
