/**
 * `evaluate_agent`: run a fixed policy for a number of episodes on the
 * environment and summarise the rewards and best scores. The trained model is
 * the `policy` parameter (from observation to action) and the detector noise
 * is a stream `noise` indexed by the number of draws made so far.
 */
module DetectionEval {
  import opened Wrappers
  import opened DetectionScoring
  import opened DetectionEnv

  /** Why an evaluation raised: a step raised, `np.argmax` was given no scores, or the best configuration to report is `None`. */
  datatype EvalError = StepFailed(cause: StepError) | NoEpisodes | NoBestConfig

  /** The results dict. */
  datatype EvalResult = EvalResult(
    meanReward: real,
    stdReward: real,
    meanScore: real,
    stdScore: real,
    bestConfig: Option<Config>,
    maxScore: real)

  predicate NonDecreasing(s: seq<real>) {
    forall i, j :: 0 <= i < j < |s| ==> s[i] <= s[j]
  }

  /** `np.max`. */
  function Max(s: seq<real>): (m: real)
    requires |s| > 0
    ensures forall i :: 0 <= i < |s| ==> s[i] <= m
    ensures exists i :: 0 <= i < |s| && s[i] == m
    decreases |s|
  {
    if |s| == 1 then s[0]
    else
      var p := Max(s[..|s| - 1]);
      if s[|s| - 1] > p then s[|s| - 1] else p
  }

  /** `np.argmax`: the first index holding the maximum. */
  function ArgMax(s: seq<real>): (k: nat)
    requires |s| > 0
    ensures k < |s|
    ensures forall i :: 0 <= i < |s| ==> s[i] <= s[k]
    ensures forall i :: 0 <= i < k ==> s[i] < s[k]
    decreases |s|
  {
    if |s| == 1 then 0
    else
      var k := ArgMax(s[..|s| - 1]);
      if s[|s| - 1] > s[k] then |s| - 1 else k
  }

  /** The arg-max holds the maximum. */
  lemma ArgMaxIsMax(s: seq<real>)
    requires |s| > 0
    ensures s[ArgMax(s)] == Max(s)
  {
  }

  /** In a non-decreasing sequence the maximum is the last element. */
  lemma NonDecreasingMaxIsLast(s: seq<real>)
    requires |s| > 0 && NonDecreasing(s)
    ensures Max(s) == s[|s| - 1]
  {
  }

  /** The total reward of the steps in a history. */
  function SumRewards(h: seq<EpisodeRecord>): real
    decreases |h|
  {
    if h == [] then 0.0 else SumRewards(h[..|h| - 1]) + h[|h| - 1].reward
  }

  lemma SumRewardsAppend(h: seq<EpisodeRecord>, rec: EpisodeRecord)
    ensures SumRewards(h + [rec]) == SumRewards(h) + rec.reward
  {
    assert (h + [rec])[..|h|] == h;
  }

  predicate RecordDone(rec: EpisodeRecord, maxSteps: int) {
    IsDone(rec.step, maxSteps, rec.avgScore)
  }

  /**
   * An episode in progress (`done` false) has no done record; a finished one
   * has exactly its last record done.
   */
  predicate EpisodeSoFar(h: seq<EpisodeRecord>, maxSteps: int, done: bool) {
    && (forall i :: 0 <= i < |h| - (if done then 1 else 0) ==> !RecordDone(h[i], maxSteps))
    && (done ==> |h| > 0 && RecordDone(h[|h| - 1], maxSteps))
  }

  /** Appending a step's record to an episode in progress; it finishes when that record is done. */
  lemma EpisodeSoFarAppend(h: seq<EpisodeRecord>, rec: EpisodeRecord, maxSteps: int)
    requires EpisodeSoFar(h, maxSteps, false)
    ensures EpisodeSoFar(h + [rec], maxSteps, RecordDone(rec, maxSteps))
  {
  }

  /**
   * The history of one finished episode: records numbered 1, 2, ..., none of
   * them done except the last.
   */
  predicate CompletedEpisode(h: seq<EpisodeRecord>, maxSteps: int) {
    && |h| > 0
    && (forall i :: 0 <= i < |h| ==> h[i].step == i + 1)
    && EpisodeSoFar(h, maxSteps, true)
  }

  /**
   * An episode never runs longer than `max(1, max_steps)` steps, and one
   * that never reaches the 95 average runs exactly that many.
   */
  lemma {:induction false} EpisodeLength(h: seq<EpisodeRecord>, maxSteps: int)
    requires CompletedEpisode(h, maxSteps)
    ensures |h| <= if maxSteps >= 1 then maxSteps else 1
    ensures (forall i :: 0 <= i < |h| ==> h[i].avgScore < 95.0) ==>
              |h| == if maxSteps >= 1 then maxSteps else 1
  {
    if |h| >= 2 {
      var i := |h| - 2;
      assert h[i].step == |h| - 1;
      assert !RecordDone(h[i], maxSteps);
    }
    var last := h[|h| - 1];
    assert last.step == |h|;
  }

  /** What one pass of the episode loop hands back: the observation, the reward, `done` and `info['best_score']`. */
  datatype Transition = Transition(observation: Vec5, reward: real, done: bool, bestScore: real)

  /**
   * One pass of the `while not done` loop: the policy's action on the last
   * observation, then `env.step`. The step extends the episode's history by
   * one record, whose reward and done flag are the ones handed back. It
   * raises IndexError exactly when the action has fewer than ten entries.
   */
  method EpisodeStep(env: AntiDetectionEnv, policy: Vec5 -> seq<real>, obs: Vec5, noise: Vec5)
      returns (r: Result<Transition, StepError>)
    requires env.Valid() && env.InSync() && EpisodeSoFar(env.episodeHistory, env.maxSteps, false)
    modifies env
    ensures env.Valid()
    ensures env.currentStep == old(env.currentStep) + 1
    ensures env.bestScore >= old(env.bestScore)
    ensures env.bestConfig != old(env.bestConfig) ==> env.bestScore > old(env.bestScore)
    ensures r.Failure? <==> |policy(obs)| < ActionSize
    ensures r.Success? ==>
              && env.InSync()
              && EpisodeSoFar(env.episodeHistory, env.maxSteps, r.value.done)
              && SumRewards(env.episodeHistory) == SumRewards(old(env.episodeHistory)) + r.value.reward
              && r.value.bestScore == env.bestScore
  {
    var action := policy(obs);
    ghost var h := env.episodeHistory;
    var res := env.Step(action, noise);
    if res.Failure? {
      return Failure(res.error);
    }
    var out := res.value;
    var rec := env.episodeHistory[|env.episodeHistory| - 1];
    assert env.episodeHistory == h + [rec];
    EpisodeSoFarAppend(h, rec, env.maxSteps);
    SumRewardsAppend(h, rec);
    r := Success(Transition(out.observation, out.reward, out.done, out.info.bestScore));
  }

  /**
   * The `while not done` loop of one episode, after `reset`: step with the
   * policy's action on the last observation until `done`, summing the rewards.
   * Returns the episode reward and the last step's `info['best_score']`, or
   * the step's error; `draw` is advanced past the noise draws consumed. A
   * policy whose every action has ten entries never makes it raise.
   */
  method RunEpisode(env: AntiDetectionEnv, policy: Vec5 -> seq<real>, noise: nat -> Vec5, draw: nat)
      returns (r: Result<(real, real), StepError>, nextDraw: nat)
    requires env.Valid()
    modifies env
    ensures env.Valid()
    ensures nextDraw >= draw
    ensures env.bestScore >= old(env.bestScore)
    ensures env.bestConfig != old(env.bestConfig) ==> env.bestScore > old(env.bestScore)
    ensures (forall o :: |policy(o)| >= ActionSize) ==> r.Success?
    ensures r.Success? ==>
              && env.InSync()
              && CompletedEpisode(env.episodeHistory, env.maxSteps)
              && r.value.0 == SumRewards(env.episodeHistory)
              && r.value.1 == env.bestScore
  {
    var obs := env.Reset(noise(draw));
    nextDraw := draw + 1;
    var done := false;
    var episodeReward := 0.0;
    var lastBest := env.bestScore;
    ghost var startBest, startConfig := old(env.bestScore), old(env.bestConfig);
    while !done
      invariant env.Valid() && env.InSync()
      invariant nextDraw > draw
      invariant env.bestScore >= startBest
      invariant env.bestConfig != startConfig ==> env.bestScore > startBest
      invariant episodeReward == SumRewards(env.episodeHistory)
      invariant EpisodeSoFar(env.episodeHistory, env.maxSteps, done)
      invariant done ==> lastBest == env.bestScore
      decreases (if done then 0 else 1) + (if env.maxSteps - env.currentStep > 0 then env.maxSteps - env.currentStep else 0)
    {
      var res := EpisodeStep(env, policy, obs, noise(nextDraw));
      nextDraw := nextDraw + 1;
      if res.Failure? {
        return Failure(res.error), nextDraw;
      }
      obs := res.value.observation;
      done := res.value.done;
      episodeReward := episodeReward + res.value.reward;
      lastBest := res.value.bestScore;
    }
    r := Success((episodeReward, lastBest));
  }

  /**
   * `evaluate_agent`: `n_episodes` episodes, recording each episode's
   * reward, `info['best_score']` and `env.best_config`. The best score
   * carries over from episode to episode, so the recorded scores never
   * decrease; the reported best configuration is the environment's final one,
   * the configuration that reached the maximum score. Fewer than one episode
   * leaves `np.argmax` with nothing to choose from. When no step ever beat
   * the starting best score, the best configuration is still `None` and
   * reporting its `.items()` raises AttributeError (`NoBestConfig`).
   * `histories` records each
   * episode's step records: every one is a completed episode, and the
   * episode's reward is the sum of its steps' rewards.
   */
  method EvaluateAgent(env: AntiDetectionEnv, policy: Vec5 -> seq<real>, noise: nat -> Vec5, nEpisodes: int)
      returns (r: Result<EvalResult, EvalError>,
               episodeRewards: seq<real>, episodeScores: seq<real>, bestConfigs: seq<Option<Config>>,
               ghost histories: seq<seq<EpisodeRecord>>)
    requires env.Valid()
    modifies env
    ensures env.Valid()
    ensures nEpisodes <= 0 ==> r == Failure(NoEpisodes)
    ensures r == Failure(NoBestConfig) ==> nEpisodes > 0 && env.bestConfig.None?
    ensures nEpisodes > 0 && (forall o :: |policy(o)| >= ActionSize) ==> r.Success? || r == Failure(NoBestConfig)
    ensures r.Success? ==>
              && |episodeRewards| == |episodeScores| == |bestConfigs| == |histories| == nEpisodes
              && (forall i :: 0 <= i < nEpisodes ==> CompletedEpisode(histories[i], env.maxSteps))
              && (forall i :: 0 <= i < nEpisodes ==> episodeRewards[i] == SumRewards(histories[i]))
              && NonDecreasing(episodeScores)
              && (forall i :: 0 <= i < nEpisodes ==> old(env.bestScore) <= episodeScores[i])
              && r.value == EvalResult(Mean(episodeRewards), StdDev(episodeRewards, env.sqrt),
                                       Mean(episodeScores), StdDev(episodeScores, env.sqrt),
                                       bestConfigs[ArgMax(episodeScores)], Max(episodeScores))
              && r.value.maxScore == env.bestScore
              && r.value.bestConfig == env.bestConfig
              && r.value.bestConfig.Some?
  {
    episodeRewards, episodeScores, bestConfigs, histories := [], [], [], [];
    var draw: nat := 0;
    var episode := 0;
    ghost var startBest := env.bestScore;
    while episode < nEpisodes
      invariant env.Valid()
      invariant 0 <= episode <= (if nEpisodes > 0 then nEpisodes else 0)
      invariant |episodeRewards| == |episodeScores| == |bestConfigs| == |histories| == episode
      invariant forall i :: 0 <= i < episode ==> CompletedEpisode(histories[i], env.maxSteps)
      invariant forall i :: 0 <= i < episode ==> episodeRewards[i] == SumRewards(histories[i])
      invariant NonDecreasing(episodeScores)
      invariant forall i :: 0 <= i < episode ==> startBest <= episodeScores[i] <= env.bestScore
      invariant forall i :: 0 <= i < episode && episodeScores[i] == env.bestScore ==> bestConfigs[i] == env.bestConfig
      invariant env.bestScore >= startBest
      invariant episode > 0 ==> episodeScores[episode - 1] == env.bestScore
    {
      ghost var before, beforeConfig := env.bestScore, env.bestConfig;
      var res;
      res, draw := RunEpisode(env, policy, noise, draw);
      if res.Failure? {
        return Failure(StepFailed(res.error)), episodeRewards, episodeScores, bestConfigs, histories;
      }
      assert env.bestConfig != beforeConfig ==> env.bestScore > before;
      episodeRewards := episodeRewards + [res.value.0];
      episodeScores := episodeScores + [res.value.1];
      bestConfigs := bestConfigs + [env.bestConfig];
      histories := histories + [env.episodeHistory];
      episode := episode + 1;
    }
    if episode == 0 {
      return Failure(NoEpisodes), episodeRewards, episodeScores, bestConfigs, histories;
    }
    if env.bestConfig.None? {
      return Failure(NoBestConfig), episodeRewards, episodeScores, bestConfigs, histories;
    }
    NonDecreasingMaxIsLast(episodeScores);
    ArgMaxIsMax(episodeScores);
    var k := ArgMax(episodeScores);
    r := Success(EvalResult(Mean(episodeRewards), StdDev(episodeRewards, env.sqrt),
                            Mean(episodeScores), StdDev(episodeScores, env.sqrt),
                            bestConfigs[k], Max(episodeScores)));
  }
}
