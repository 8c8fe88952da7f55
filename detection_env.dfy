/**
 * The stateful episode controller `AntiDetectionEnv`: a step counter, the
 * current configuration, the baseline scores, the best average and its
 * configuration, the current episode's history and the archive of the best
 * configuration at the end of each episode. `reset` and `step` update these
 * fields in place; the detector noise of each call is an argument.
 */
module DetectionEnv {
  import opened Wrappers
  import opened DetectionScoring

  /** One entry of `episode_history`. */
  datatype EpisodeRecord = EpisodeRecord(step: int, config: Config, scores: Vec5, reward: real, avgScore: real)

  /** One entry of `all_configs`: the best configuration and score when an episode was archived. */
  datatype ArchivedBest = ArchivedBest(config: Option<Config>, score: real)

  /** The `info` dict returned by `step`. */
  datatype Info = Info(step: int, avgScore: real, bestScore: real, individualScores: map<string, real>)

  /** The `(observation, reward, done, info)` tuple returned by `step`. */
  datatype StepResult = StepResult(observation: Vec5, reward: real, done: bool, info: Info)

  /** Indexing an action with fewer than ten entries. */
  datatype StepError = IndexError

  /** The termination test of `step`. */
  predicate IsDone(step: int, maxSteps: int, avgScore: real) {
    step >= maxSteps || avgScore >= 95.0
  }

  /** `individual_scores`: each detector's name with its score. */
  function IndividualScores(scores: Vec5): map<string, real> {
    map["pixelscan" := scores[0], "creepjs" := scores[1], "browserleaks" := scores[2],
        "incolumitas" := scores[3], "sannysoft" := scores[4]]
  }

  /** The map has exactly the five detector names as keys, each with its own score. */
  lemma IndividualScoresNamesEachDetector(scores: Vec5)
    ensures forall k :: k in IndividualScores(scores) <==> k in DetectorNames
    ensures forall i :: 0 <= i < 5 ==> IndividualScores(scores)[DetectorNames[i]] == scores[i]
  {
  }

  /**
   * What a step with a full-length action records: the action read as a
   * configuration, that configuration's scores, the reward of the raw action
   * against the baseline, and the average score.
   */
  function ScoreStep(step: int, action: seq<real>, noise: Vec5, baseline: Option<Vec5>, sqrt: real -> real): (rec: EpisodeRecord)
    requires |action| >= ActionSize
    ensures Some(rec.config) == ActionToConfig(action)
    ensures InRange(rec.scores, 0.0, 100.0) && 0.0 <= rec.avgScore <= 100.0
  {
    var c := ActionToConfig(action).value;
    var scores := TestDetectors(c, noise, sqrt);
    MeanBounds(scores, 0.0, 100.0);
    EpisodeRecord(step, c, scores, Reward(scores, action, baseline, sqrt), Mean(scores))
  }

  class AntiDetectionEnv {
    const maxSteps: int
    /** The square root `np.std` uses. */
    const sqrt: real -> real

    var currentStep: int
    var currentConfig: Config
    var baselineScores: Option<Vec5>
    var bestScore: real
    var bestConfig: Option<Config>
    var episodeHistory: seq<EpisodeRecord>
    var allConfigs: seq<ArchivedBest>

    /** Every configuration a successful step scored since construction, with its average. */
    ghost var seen: seq<(Config, real)>

    /**
     * `best_score` starts at 0 and is at least every average seen; a best
     * configuration exists exactly when the best score rose above 0, and it is
     * one that was scored with that average; the history never outgrows the
     * step counter.
     */
    ghost predicate Valid()
      reads this
    {
      && 0.0 <= bestScore
      && (forall p :: p in seen ==> p.1 <= bestScore)
      && (bestConfig.None? <==> bestScore == 0.0)
      && (bestConfig.Some? ==> (bestConfig.value, bestScore) in seen)
      && |episodeHistory| <= currentStep
    }

    /** Every step since the last reset appended exactly one history record. */
    ghost predicate InSync()
      reads this
    {
      && |episodeHistory| == currentStep
      && (forall i :: 0 <= i < |episodeHistory| ==> episodeHistory[i].step == i + 1)
    }

    /** `__init__`: step 0, the default configuration, no baseline, best score 0 and no best configuration. */
    constructor (maxSteps: int, sqrt: real -> real)
      ensures this.maxSteps == maxSteps && this.sqrt == sqrt
      ensures currentStep == 0 && currentConfig == DefaultConfig()
      ensures baselineScores == None && bestScore == 0.0 && bestConfig == None
      ensures episodeHistory == [] && allConfigs == [] && seen == []
      ensures Valid() && InSync()
    {
      this.maxSteps := maxSteps;
      this.sqrt := sqrt;
      currentStep := 0;
      currentConfig := DefaultConfig();
      baselineScores := None;
      bestScore := 0.0;
      bestConfig := None;
      episodeHistory := [];
      allConfigs := [];
      seen := [];
    }

    /**
     * `reset`: back to step 0 and the default configuration; the baseline is
     * the default configuration's scores, which are also returned. When the
     * finished episode has any history, the best configuration and score are
     * archived and the history is emptied. The best score and configuration
     * are left as they are.
     */
    method Reset(noise: Vec5) returns (obs: Vec5)
      requires Valid()
      modifies this
      ensures Valid() && InSync()
      ensures currentStep == 0 && currentConfig == DefaultConfig()
      ensures obs == TestDetectors(DefaultConfig(), noise, sqrt) && baselineScores == Some(obs)
      ensures episodeHistory == []
      ensures allConfigs == if old(episodeHistory) != [] then old(allConfigs) + [ArchivedBest(old(bestConfig), old(bestScore))]
                            else old(allConfigs)
      ensures bestScore == old(bestScore) && bestConfig == old(bestConfig) && seen == old(seen)
    {
      currentStep := 0;
      currentConfig := DefaultConfig();
      baselineScores := Some(TestDetectors(currentConfig, noise, sqrt));
      if episodeHistory != [] {
        allConfigs := allConfigs + [ArchivedBest(bestConfig, bestScore)];
        episodeHistory := [];
      }
      obs := baselineScores.value;
    }

    /**
     * `step`: the counter goes up by one first; an action with fewer than ten
     * entries then fails (IndexError) with nothing else changed. Otherwise the
     * action becomes the current configuration, is scored, rewarded against the
     * baseline with the raw action, the best is replaced on a strict
     * improvement only, one history record is appended, and `done` is the
     * termination test. Nothing stops a step after `done`.
     */
    method Step(action: seq<real>, noise: Vec5) returns (r: Result<StepResult, StepError>)
      requires Valid()
      modifies this
      ensures Valid()
      ensures currentStep == old(currentStep) + 1
      ensures baselineScores == old(baselineScores) && allConfigs == old(allConfigs)
      ensures bestScore >= old(bestScore)
      ensures bestConfig != old(bestConfig) ==> bestScore > old(bestScore)
      ensures |action| < ActionSize ==>
                && r == Failure(IndexError)
                && currentConfig == old(currentConfig) && episodeHistory == old(episodeHistory)
                && bestScore == old(bestScore) && bestConfig == old(bestConfig) && seen == old(seen)
      ensures |action| >= ActionSize ==>
                var rec := ScoreStep(currentStep, action, noise, baselineScores, sqrt);
                && currentConfig == rec.config
                && (if rec.avgScore > old(bestScore) then bestScore == rec.avgScore && bestConfig == Some(rec.config)
                    else bestScore == old(bestScore) && bestConfig == old(bestConfig))
                && seen == old(seen) + [(rec.config, rec.avgScore)]
                && episodeHistory == old(episodeHistory) + [rec]
                && r == Success(StepResult(rec.scores, rec.reward, IsDone(rec.step, maxSteps, rec.avgScore),
                                           Info(rec.step, rec.avgScore, bestScore, IndividualScores(rec.scores))))
      ensures old(InSync()) && |action| >= ActionSize ==> InSync()
    {
      currentStep := currentStep + 1;
      var config := ActionToConfig(action);
      if config.None? {
        return Failure(IndexError);
      }
      var rec := ScoreStep(currentStep, action, noise, baselineScores, sqrt);
      currentConfig := rec.config;
      if rec.avgScore > bestScore {
        bestScore := rec.avgScore;
        bestConfig := Some(currentConfig);
      }
      seen := seen + [(currentConfig, rec.avgScore)];
      episodeHistory := episodeHistory + [rec];
      var done := IsDone(currentStep, maxSteps, rec.avgScore);
      var info := Info(currentStep, rec.avgScore, bestScore, IndividualScores(rec.scores));
      r := Success(StepResult(rec.scores, rec.reward, done, info));
    }
  }
}
