# Undetect browser: a verified model of the core

This project models, in Dafny, the core of an anti-detect browser system:

- the **reinforcement-learning environment** that tunes the browser's protection levels against five simulated bot detectors, and its evaluation loop (`ml/detection/rl-agent.py`);
- the two **eBPF programs** of the cloud kernel layer:
  - the TLS ClientHello observer (`tls_ja3.c`);
  - the TCP/IP fingerprint spoofer (`tcp_fingerprint.c`);
- the table-driven half of the **fingerprint generator**: encoding the parameters and decoding the generated components into canvas, WebGL, audio, hardware and screen profiles (`ml/models/profile-generator.py`);
- the **training dataset** (vocabularies, truncation, item parameters) and the train/validation split (`ml/models/train.py`);
- the **generation script**'s check for required parameters and its default browser version (`ml/models/generate.py`);
- the **Go SDK** client: options, routing responses, building errors and the list path (`sdk/go/antidetect/client.go`);
- the **Python SDK**: client construction and response handling, the error hierarchy, and the WebSocket client's bookkeeping (`sdk/python/src/antidetect_sdk/`).

Each source file is one module:

| module | models |
|---|---|
| `DetectionScoring` | the configuration, the five detectors and the reward |
| `DetectionEnv` | the environment class with `reset` and `step` |
| `DetectionEval` | `evaluate_agent` |
| `Bpf` | machine integers and the byte swap shared by both eBPF programs |
| `TlsJa3` | `tls_ja3.c` |
| `TcpFingerprint` | `tcp_fingerprint.c` |
| `ProfileGenerator` | `profile-generator.py` |
| `TrainDataset` | `train.py` |
| `GenerateCli` | `generate.py` |
| `GoClient` | `client.go` |
| `PyClient` | `client.py` |
| `PyErrors` | `exceptions.py` |
| `PyRealtime` | `realtime.py` |

`common.dfy` holds the shared helpers: an `Option`/`Result` pair, a JSON value type, and the string functions the sources call (`rstrip`, `replace`, `TrimSuffix`, `lower`, substring tests and decimal rendering).

The environment and the Python realtime client update their fields in place, so they are classes whose methods give their whole new state. The same goes for:

- the eBPF statistics maps;
- the Go client's settings;
- the Python client's session headers;
- the dataset's vocabularies.

Loops become methods with invariants. Examples are `step`'s episode loop in `evaluate_agent`, the required-key loop of `generate.py`, the vocabulary loops of `build_vocab` and the re-subscription loop of `_on_open`. Each method is proved against a specification function, and the lemmas are about those functions.

Inputs the sources draw from outside arrive as parameters:

- NumPy's Gaussian noise is a vector per step, or a function of a draw counter in `evaluate_agent`;
- the square root is a function, constrained by `IsSqrt` where a lemma needs it;
- the agent's policy is a function;
- the eBPF helpers' results are arguments: a `setsockopt` return code is a function of the write.

Floats are reals.

## Model

| member | source | states |
|---|---|---|
| DetectionScoring.DefaultConfig | ml/detection/rl-agent.py:103-116 | defines `_default_config`: every one of the ten protection levels at 0.5 |
| DetectionScoring.Pixelscan | ml/detection/rl-agent.py:155-156 | defines the PixelScan score before clipping: 60 + 20·canvas + 15·webgl − 20·abs(canvas − 0.7) |
| DetectionScoring.ConsistencyPenalty | ml/detection/rl-agent.py:160-164 | defines the CreepJS penalty: 30 times the standard deviation of the ten levels when it exceeds 0.3, else 0 |
| DetectionScoring.Creepjs | ml/detection/rl-agent.py:160-166 | defines the CreepJS score before clipping: 70 + 25·mean of the levels, less the consistency penalty |
| DetectionScoring.Browserleaks | ml/detection/rl-agent.py:170-171 | defines the BrowserLeaks score before clipping: 65 + 30·canvas − 25·abs(canvas − 0.6) |
| DetectionScoring.Incolumitas | ml/detection/rl-agent.py:175-176 | defines the Incolumitas score before clipping: 55 + 20·user-agent rotation + 10·(hardware concurrency + device memory) |
| DetectionScoring.Sannysoft | ml/detection/rl-agent.py:180 | defines the Sannysoft score before clipping: 70 + 25·mean of the WebGL and audio levels |
| DetectionScoring.ImprovementBonus | ml/detection/rl-agent.py:293-297 | defines the improvement bonus: a tenth of the average's gain over the baseline's mean, 0 without a baseline |
| DetectionScoring.Reward | ml/detection/rl-agent.py:264-308 | defines `_calculate_reward` on the raw action: a tenth of the score average, less half the action's mean, plus 0.3·(1 − the action's standard deviation), the high-score bonus and the improvement bonus, unclamped |
| DetectionScoring.Config.Values | ml/detection/rl-agent.py:162-163 | `list(config.values())` lists the ten protection levels in insertion order, so there are exactly as many of them as there are action entries |
| DetectionScoring.ActionToConfig | ml/detection/rl-agent.py:118-132 | the configuration exists exactly when the action has at least ten entries (a shorter one raises IndexError); its levels are exactly the first ten entries, unclamped |
| DetectionScoring.ActionToConfigRoundTrip | ml/detection/rl-agent.py:118-132 | reading a configuration's own levels back as an action gives back the same configuration |
| DetectionScoring.Clip | ml/detection/rl-agent.py:183-187 | `np.clip` lands inside the bounds and leaves a value already inside unchanged |
| DetectionScoring.VarianceNonNeg | ml/detection/rl-agent.py:162-164 | the population variance is never negative, so the standard deviation used by CreepJS and by the reward is defined |
| DetectionScoring.VarianceAtMostQuarter | ml/detection/rl-agent.py:162-164 | levels inside [0, 1] have a population variance of at most 1/4 |
| DetectionScoring.ConstantStdDev | ml/detection/rl-agent.py:162-164 | a constant vector has mean equal to the constant and standard deviation 0 |
| DetectionScoring.StdDevUnitBox | ml/detection/rl-agent.py:162-164 | for levels in [0, 1] the standard deviation lies in [0, 1/2] |
| DetectionScoring.StdThresholdIsVarianceThreshold | ml/detection/rl-agent.py:163-164 | the CreepJS penalty test `std > 0.3` holds exactly when the variance exceeds 0.09 |
| DetectionScoring.CleanScores | ml/detection/rl-agent.py:155-181 | each of the five detector scores, clipped, lies in [0, 100] |
| DetectionScoring.TestDetectors | ml/detection/rl-agent.py:134-187 | after the noise is added and the second clip applied, every score still lies in [0, 100], whatever the noise |
| DetectionScoring.NoiseEffectBounded | ml/detection/rl-agent.py:183-187 | the noise moves each score by at most the noise's magnitude, and zero noise leaves the clean score unchanged |
| DetectionScoring.DefaultCreepjs | ml/detection/rl-agent.py:103-116 | the all-0.5 default has no consistency penalty and scores exactly 82.5 on CreepJS before noise |
| DetectionScoring.UniformSevenTenthsPixelscan | ml/detection/rl-agent.py:155-157 | with every level at 0.7, PixelScan scores exactly 84.5 before noise |
| DetectionScoring.PixelscanFlatAboveOptimum | ml/detection/rl-agent.py:155-157 | past canvas level 0.7 the PixelScan score depends only on the WebGL level: 74 + 15·webgl |
| DetectionScoring.CleanAverageBelowTermination | ml/detection/rl-agent.py:155-181 | for levels in [0, 1] each raw detector score stays within stated bounds below 100, and the clean average is at most 91.8, short of the termination average of 95 |
| DetectionScoring.HighScoreBonus | ml/detection/rl-agent.py:286-291 | the high-score bonus is between 0 and 2 |
| DetectionScoring.HighScoreBonusMonotone | ml/detection/rl-agent.py:286-291 | a higher average never earns a smaller high-score bonus |
| DetectionScoring.RewardBaselineTerm | ml/detection/rl-agent.py:293-297 | with a baseline, the reward is the baseline-free reward plus a tenth of the average's gain over the baseline's average |
| DetectionScoring.RewardMonotoneInScores | ml/detection/rl-agent.py:264-308 | for a fixed action and baseline, a strictly higher score average earns a strictly higher reward |
| DetectionScoring.RewardBounds | ml/detection/rl-agent.py:264-308 | for scores and baseline in [0, 100] and an action in [0, 1], the unclamped reward lies in [-10.35, 22.3] |
| DetectionScoring.RewardCanBeNegative | ml/detection/rl-agent.py:264-308 | the reward is not bounded below by 0: zero scores, a full action and a perfect baseline give a negative reward |
| DetectionEnv.IsDone | ml/detection/rl-agent.py:247 | defines the end of an episode: the step count has reached the maximum, or the score average is at least 95 |
| DetectionEnv.IndividualScoresNamesEachDetector | ml/detection/rl-agent.py:253-259 | `info['individual_scores']` has exactly the five detector names as keys, each mapped to its own score |
| DetectionEnv.ScoreStep | ml/detection/rl-agent.py:222-244 | a step's record holds the action read as a configuration, scores in [0, 100] and an average in [0, 100] |
| DetectionEnv.AntiDetectionEnv.constructor | ml/detection/rl-agent.py:71-101 | step 0, the default configuration, no baseline, best score 0 with no best configuration, and empty history and archive |
| DetectionEnv.AntiDetectionEnv.Reset | ml/detection/rl-agent.py:189-205 | the step goes back to 0 and the default configuration is restored; the observation is the default's scores and becomes the baseline; the history is cleared; the best (configuration, score) pair is archived exactly when the old history was non-empty; the best score and configuration carry over |
| DetectionEnv.AntiDetectionEnv.Step | ml/detection/rl-agent.py:207-262 | the counter goes up first, so a short action raises IndexError with only the counter changed. Otherwise the configuration, scores, reward and average are recorded. The best is replaced only on a strict improvement. The result is the scores, the reward, `done` (step ≥ max or average ≥ 95) and the info dict. The best score never decreases, and the numbered history is kept in step with the counter |
| DetectionEval.Max | ml/detection/rl-agent.py:418 | `max` of a non-empty list bounds every element and is one of them |
| DetectionEval.ArgMax | ml/detection/rl-agent.py:417 | `np.argmax` is a valid index of a maximal element, the first one |
| DetectionEval.ArgMaxIsMax | ml/detection/rl-agent.py:417-418 | the element at the `argmax` is the `max` |
| DetectionEval.NonDecreasingMaxIsLast | ml/detection/rl-agent.py:407-418 | the maximum of a non-decreasing list is its last element |
| DetectionEval.SumRewardsAppend | ml/detection/rl-agent.py:404 | the episode reward accumulates one step's reward at a time |
| DetectionEval.EpisodeSoFarAppend | ml/detection/rl-agent.py:401-404 | appending a step record to an unfinished episode keeps it a well-formed episode whose `done` flag is that record's |
| DetectionEval.EpisodeLength | ml/detection/rl-agent.py:247 | a completed episode has at most max(1, max_steps) steps, and exactly that many when no step reaches an average of 95 |
| DetectionEval.EpisodeStep | ml/detection/rl-agent.py:402-404 | one policy step raises IndexError exactly when the policy's action has fewer than ten entries. Otherwise it keeps the environment valid and its history an episode; it adds the step's reward to the history's sum, never lowers the best score, and reports `info['best_score']` |
| DetectionEval.RunEpisode | ml/detection/rl-agent.py:397-409 | for a policy whose every action has at least ten entries the episode always finishes. An episode from `reset` up to `done` leaves a completed history; the accumulated reward is the history's sum and the recorded best score is the environment's |
| DetectionEval.EvaluateAgent | ml/detection/rl-agent.py:378-432 | fewer than one episode fails (`np.argmax` of an empty list). With at least one episode and a policy whose every action has at least ten entries, the run fails only when the best configuration stays `None`; every other outcome is a success. On success there are n rewards, scores and configurations. The scores never decrease and never fall below the starting best. The result is their means and standard deviations, together with the configuration at the `argmax` and the `max`. That maximum is the environment's final best score, and that configuration its final best configuration. Each episode's reward is the sum of the step rewards of its completed episode. A run whose best configuration stays `None` fails, because `.items()` on it raises AttributeError; a successful result always carries a configuration |
| Bpf.HtonsInvolution | cloud/kernel/ebpf/tls_ja3.c:135 | `bpf_htons` on a little-endian host undoes itself |
| Bpf.Inc | cloud/kernel/ebpf/tls_ja3.c:97 | `__sync_fetch_and_add(counter, 1)` on a 64-bit counter adds one, wrapping from 2^64-1 to 0 |
| TlsJa3.LoadMatchesNetworkOrder | cloud/kernel/ebpf/tls_ja3.c:119-135 | comparing a field loaded on a little-endian host with `bpf_htons(v)` is the same as reading the two bytes in network order and comparing with v |
| TlsJa3.ClassifyFrame | cloud/kernel/ebpf/tls_ja3.c:102-175 | the parser's verdict is 0 or 1 |
| TlsJa3.ClassifyFrameCharacterization | cloud/kernel/ebpf/tls_ja3.c:102-175 | the verdict is 1 exactly when every bounds check passes and the frame is IPv4 TCP to port 443 carrying a TLS handshake record whose first handshake byte is ClientHello |
| TlsJa3.ClassifyFrameNeedsRoom | cloud/kernel/ebpf/tls_ja3.c:115-147 | a frame too short for the Ethernet and IPv4 headers, for the TCP header or for the TLS record header is never accepted |
| TlsJa3.LengthAndVersionUnchecked | cloud/kernel/ebpf/tls_ja3.c:150-156 | the record version and length bytes do not affect the verdict: only the content type and the handshake type are read |
| TlsJa3.AcceptsIhlBelowFive | cloud/kernel/ebpf/tls_ja3.c:130-136 | a frame whose IPv4 header length field is 0 is still accepted: the IHL is never checked to be at least 5 |
| TlsJa3.Ja3Stats.constructor | cloud/kernel/ebpf/tls_ja3.c:62-67 | all four counters start at 0 |
| TlsJa3.Ja3Stats.Bump | cloud/kernel/ebpf/tls_ja3.c:90-99 | the named counter is incremented with wrap-around; the other three are unchanged |
| TlsJa3.UpdateJa3Stats | cloud/kernel/ebpf/tls_ja3.c:90-99 | with a stats entry present, exactly the named counter is bumped; with none, nothing changes |
| TlsJa3.ParseTlsClientHello | cloud/kernel/ebpf/tls_ja3.c:102-175 | the method returns the classifier's verdict and counts a ClientHello exactly when the verdict is 1 |
| TlsJa3.SocketFilter | cloud/kernel/ebpf/tls_ja3.c:178-200 | the socket filter always returns 0. It parses, and may count, only for a process whose profile is enabled, and passes the packet either way |
| TlsJa3.TcEgress | cloud/kernel/ebpf/tls_ja3.c:203-233 | the egress classifier always returns TC_ACT_OK; it counts a ClientHello only for an enabled process's frame that parses as one |
| TlsJa3.Sockops | cloud/kernel/ebpf/tls_ja3.c:236-268 | the sockops hook always returns 0; it counts only for an IPv4/IPv6 socket whose `remote_port` field equals `bpf_htons(443)`, at the connect callback, for an enabled process |
| TlsJa3.SockopsPortIsNetworkOrder443 | cloud/kernel/ebpf/tls_ja3.c:246 | `bpf_htons(443)` is 0xBB01 on a little-endian host |
| TcpFingerprint.TtlWrite | cloud/kernel/ebpf/tcp_fingerprint.c:112-122 | defines the TTL write: `IP_TTL` at `SOL_IP` for IPv4, otherwise `IPV6_UNICAST_HOPS` at `SOL_IPV6`, with the profile's TTL |
| TcpFingerprint.FatalPlan | cloud/kernel/ebpf/tcp_fingerprint.c:102-132 | defines the window, TTL and MSS writes, in that order, each only when its profile field is positive |
| TcpFingerprint.NonFatalPlan | cloud/kernel/ebpf/tcp_fingerprint.c:135-148 | defines the no-delay and ECN writes, each only when its profile field is non-zero |
| TcpFingerprint.Plan | cloud/kernel/ebpf/tcp_fingerprint.c:102-148 | defines the writes a connect makes when every one succeeds: the fatal ones, then the non-fatal ones |
| TcpFingerprint.Attempted | cloud/kernel/ebpf/tcp_fingerprint.c:102-148 | the writes attempted are a prefix of the plan |
| TcpFingerprint.AttemptedPrepend | cloud/kernel/ebpf/tcp_fingerprint.c:102-132 | a write that fails fatally ends the sequence; otherwise the rest of the plan follows |
| TcpFingerprint.AbortedAppend | cloud/kernel/ebpf/tcp_fingerprint.c:102-132 | a plan made of two parts aborts exactly when one of the parts does |
| TcpFingerprint.PrependSteps | cloud/kernel/ebpf/tcp_fingerprint.c:102-148 | an optional write, guarded by its profile field, is attempted first when enabled; the plan aborts exactly when it fails fatally or the rest aborts |
| TcpFingerprint.AttemptedAppend | cloud/kernel/ebpf/tcp_fingerprint.c:102-148 | once the first part of the plan aborts, the second is never attempted; otherwise all of the first part is attempted, followed by what the second part attempts |
| TcpFingerprint.FatalPlanIsFatal | cloud/kernel/ebpf/tcp_fingerprint.c:102-132 | the window, TTL/hop-limit and MSS writes are the ones whose failure ends the hook |
| TcpFingerprint.NonFatalPlanRunsInFull | cloud/kernel/ebpf/tcp_fingerprint.c:135-148 | the TCP_NODELAY and ECN writes ignore their return codes, so once reached they always run in full |
| TcpFingerprint.AttemptedStopsAtFirstFatalFailure | cloud/kernel/ebpf/tcp_fingerprint.c:102-148 | an aborted plan's attempted writes are the plan up to and including its first fatal failure, which is their last element; a plan that does not abort is attempted in full |
| TcpFingerprint.NonFatalResultsIgnored | cloud/kernel/ebpf/tcp_fingerprint.c:135-148 | two runs whose fatal writes succeed or fail alike attempt the same writes, whatever the other writes return |
| TcpFingerprint.PlanWritesEnabledOptions | cloud/kernel/ebpf/tcp_fingerprint.c:102-148 | each option is written exactly when its profile field is set (non-zero) |
| TcpFingerprint.TtlOptionFollowsFamily | cloud/kernel/ebpf/tcp_fingerprint.c:112-122 | the TTL goes to SOL_IP/IP_TTL on IPv4 and to SOL_IPV6/IPV6_UNICAST_HOPS on IPv6 |
| TcpFingerprint.AbortSkipsLaterOptions | cloud/kernel/ebpf/tcp_fingerprint.c:102-148 | once a fatal write fails, neither TCP_NODELAY nor ECN is attempted |
| TcpFingerprint.TcpStats.constructor | cloud/kernel/ebpf/tcp_fingerprint.c:48-52 | the three counters start at 0 |
| TcpFingerprint.TcpStats.BumpErrors | cloud/kernel/ebpf/tcp_fingerprint.c:72 | only the error counter is incremented, with wrap-around |
| TcpFingerprint.TcpStats.BumpConnectionsModified | cloud/kernel/ebpf/tcp_fingerprint.c:74 | only the modified-connections counter is incremented, with wrap-around |
| TcpFingerprint.TcpStats.BumpPacketsProcessed | cloud/kernel/ebpf/tcp_fingerprint.c:169 | only the processed-packets counter is incremented, with wrap-around |
| TcpFingerprint.UpdateStats | cloud/kernel/ebpf/tcp_fingerprint.c:62-76 | with a stats entry, an error bumps the error counter and a success bumps the modified-connections counter; with none, nothing changes |
| TcpFingerprint.Write | cloud/kernel/ebpf/tcp_fingerprint.c:104-106 | one `bpf_setsockopt` call is recorded; it failed exactly when its return code is non-zero |
| TcpFingerprint.ApplyFatal | cloud/kernel/ebpf/tcp_fingerprint.c:102-132 | the first three options are written as the plan says, stopping at the first failure, which is counted as an error |
| TcpFingerprint.ApplyConnect | cloud/kernel/ebpf/tcp_fingerprint.c:92-151 | the connect callback attempts exactly `Attempted(Plan)`. It counts an error on an abort, and a modified connection otherwise |
| TcpFingerprint.TcpFingerprintSpoof | cloud/kernel/ebpf/tcp_fingerprint.c:80-178 | the hook always returns 0. It writes nothing for a non-IP family, or for a process without a profile. At connect it applies the plan. At passive establishment it writes only the window clamp, when a profile exists and its window size is positive, and counts nothing; and at active establishment it counts a processed packet. No other callback does anything |
| TcpFingerprint.TcpSocketCreate | cloud/kernel/ebpf/tcp_fingerprint.c:182-192 | socket creation is always allowed |
| ProfileGenerator.EncodeParams | ml/models/profile-generator.py:179 | defines the parameter text: country, os, browser and version, each with its default when absent |
| ProfileGenerator.WebglTable | ml/models/profile-generator.py:260-280 | defines the GPU table choice: Windows when the lower-cased OS is exactly "windows", Mac when it contains "mac", Linux otherwise |
| ProfileGenerator.HardwareFamily | ml/models/profile-generator.py:368-373 | defines the hardware OS family: Windows when the lower-cased OS contains "windows", Mac when it contains "mac", Linux otherwise |
| ProfileGenerator.EncodeParamsDefaults | ml/models/profile-generator.py:179 | with no parameters, the text is the one for US, Windows, Chrome and version 120 |
| ProfileGenerator.EncodeParamsReadsOnlyItsKeys | ml/models/profile-generator.py:179 | no parameter other than the four named ones changes the text |
| ProfileGenerator.EncodeParamsExplicitDefault | ml/models/profile-generator.py:179 | giving a parameter its default value is the same as leaving it out |
| ProfileGenerator.EncodeParamsStartsWithCountry | ml/models/profile-generator.py:179 | the text starts with the country label and the country, followed by the OS label |
| ProfileGenerator.VendorIndex | ml/models/profile-generator.py:257-282 | `min(gpu_index, len(vendors) - 1)` is a valid vendor index: the derived index itself, or the last vendor for larger indices |
| ProfileGenerator.DecodeWebgl | ml/models/profile-generator.py:242-312 | the masked vendor is "WebKit", and the masked renderer equals the unmasked one. The unmasked vendor and renderer come from the table the OS picks, both at the same clamped vendor index |
| ProfileGenerator.MacWebglIsApple | ml/models/profile-generator.py:260-280 | an OS name that is not exactly "windows" but contains "mac" gets an Apple GPU |
| ProfileGenerator.AppleVendorIsNotNvidia | ml/models/profile-generator.py:284-312 | the Apple vendor name makes the NVIDIA test false |
| ProfileGenerator.DecodeHardware | ml/models/profile-generator.py:341-395 | cores are one of 4, 6, 8, 12 or 16, and memory one of 4, 8, 16 or 32 GB. The platform is the OS family's, and the user agent is that family's prefix, then the browser version, then the fixed tail |
| ProfileGenerator.UserAgentVersionRoundTrip | ml/models/profile-generator.py:376-383 | the browser version can be read back out of the generated user agent |
| ProfileGenerator.PlatformNameInjective | ml/models/profile-generator.py:368-373 | different OS families get different `navigator.platform` strings |
| ProfileGenerator.OsSegmentsDiffer | ml/models/profile-generator.py:376-383 | the user-agent OS segments of different families differ at their first character |
| ProfileGenerator.PlatformMatchesUserAgent | ml/models/profile-generator.py:368-383 | the platform and the user agent always name the same OS family: the user agent carries exactly the segment of the family the platform names |
| ProfileGenerator.UserAgentSegmentStart | ml/models/profile-generator.py:376-383 | the OS segment sits at a fixed position in the user agent |
| ProfileGenerator.DecodeScreen | ml/models/profile-generator.py:397-448 | the resolution is one of the table's entries. The available width is the full width and the available height is 40 less. The colour depth is 24, 30 or 32 and equals the pixel depth. The pixel ratio is 1, 1.25, 1.5 or 2 |
| ProfileGenerator.ScreenRatioRealistic | ml/models/profile-generator.py:410-419 | every resolution has an aspect ratio between 1 and 3.5 |
| ProfileGenerator.DecodeFingerprint | ml/models/profile-generator.py:450-467 | the assembled profile has the masked WebGL vendor, the platform and user agent of the OS family, and the 40-pixel taskbar |
| ProfileGenerator.OsTestsAgree | ml/models/profile-generator.py:260-280 | where the WebGL test (exact "windows") and the hardware test (substring) agree, they pick the same OS: a name containing "mac" but not "windows" is Mac in both, and exactly "windows" is Windows in both |
| ProfileGenerator.FingerprintOsConsistent | ml/models/profile-generator.py:450-467 | for those OS names the GPU vendor and the platform of one profile belong to the same OS |
| ProfileGenerator.LowerWindows11 | ml/models/profile-generator.py:260 | "Windows 11" lower-cases to "windows 11" |
| ProfileGenerator.Windows11Substrings | ml/models/profile-generator.py:260-262 | "windows 11" contains "windows" and does not contain "mac" |
| ProfileGenerator.WindowsVariantTables | ml/models/profile-generator.py:260-280 | "Windows 11" is Windows for the hardware test but falls through to the Linux GPU table |
| ProfileGenerator.WindowsVariantGetsLinuxGpu | ml/models/profile-generator.py:242-395 | a "Windows 11" profile pairs a Windows platform with a Linux (Mesa) GPU |
| TrainDataset.Vocab | ml/models/train.py:64-73 | defines a vocabulary: each name, at its first occurrence, gets the number of names seen before it |
| TrainDataset.CountryVocab | ml/models/train.py:62-76 | defines the country vocabulary: "US" at 0 once there is a sample, empty otherwise |
| TrainDataset.OsNames | ml/models/train.py:64-68 | one OS name per sample, "Unknown" without metadata |
| TrainDataset.BrowserNames | ml/models/train.py:71-73 | one browser name per sample, "Unknown" without metadata |
| TrainDataset.VocabAppend | ml/models/train.py:64-73 | a new name gets the next number, and a known one changes nothing |
| TrainDataset.VocabKeys | ml/models/train.py:64-73 | the vocabulary's keys are exactly the names seen |
| TrainDataset.VocabValues | ml/models/train.py:64-73 | the numbers are 0..n-1, each given to exactly one name |
| TrainDataset.VocabIsNumbering | ml/models/train.py:64-73 | the vocabulary numbers the distinct names in order of first occurrence |
| TrainDataset.VocabStep | ml/models/train.py:64-73 | one loop iteration extends the OS and browser vocabularies of the prefix by the sample's names |
| TrainDataset.VocabFirstOccurrence | ml/models/train.py:64-73 | a name seen again keeps its number, and a name seen first gets the current size |
| TrainDataset.SliceTo | ml/models/train.py:48-49 | Python's `data[:n]` is a prefix of the data: of length min(n, len) for n ≥ 0, and for n < 0 the data less its last −n samples, empty when −n ≥ len |
| TrainDataset.Truncate | ml/models/train.py:48-49 | no limit (or 0) keeps every sample; the result is always a prefix; a positive limit keeps the first min(limit, n) samples |
| TrainDataset.CountryVocabStep | ml/models/train.py:62-76 | every sample maps the default country "US" to 0 |
| TrainDataset.FingerprintDataset.constructor | ml/models/train.py:35-54 | the data is the truncated load, and the vocabularies are those of the data |
| TrainDataset.FingerprintDataset.BuildVocab | ml/models/train.py:56-81 | the loops leave the OS and browser vocabularies as the first-occurrence numberings, and the country vocabulary as `CountryVocab` of the data; the data is unchanged |
| TrainDataset.ItemParams | ml/models/train.py:100-106 | exactly four parameters: country "US", the sample's OS and browser names, and its browser version or "120" |
| TrainDataset.GetItem | ml/models/train.py:85-118 | indexing succeeds exactly for -n ≤ idx < n, with Python's meaning of a negative index |
| TrainDataset.MissingMetadataIsUnknown | ml/models/train.py:100-106 | a sample without metadata yields US, Unknown, Unknown and 120 |
| TrainDataset.SplitSizes | ml/models/train.py:291-292 | the two sizes add up to n, and the training size is ⌊0.8·n⌋ |
| TrainDataset.SplitSizesNonEmpty | ml/models/train.py:291-292 | from 5 samples the validation set is non-empty, and from 2 the training set is |
| GenerateCli.HasKey | ml/models/generate.py:104 | defines Python's `in` on the decoded JSON: a key of an object, an element of a list, a substring of a string; any other value raises TypeError |
| GenerateCli.CheckRequired | ml/models/generate.py:102-106 | defines the required-key loop: the first key absent, TypeError if a test raises, or all present |
| GenerateCli.WithDefaultVersion | ml/models/generate.py:109-110 | defines the default: `browserVersion` set to "120" on an object that lacks it, left alone when present |
| GenerateCli.MainOutcome | ml/models/generate.py:95-110 | defines `main`'s outcome: invalid JSON, TypeError, a missing parameter, or the parameters with the default applied |
| GenerateCli.StdinOutcome | ml/models/generate.py:136-144 | defines the stdin path's outcome: invalid JSON or the parameters with the default applied, with no required-key check |
| GenerateCli.RunWithParams | ml/models/generate.py:95-110 | the script's outcome: an invalid JSON exit, the first missing required key, a type error from `in`, or generation with the defaulted parameters |
| GenerateCli.RunFromStdin | ml/models/generate.py:136-159 | the stdin path: an invalid JSON exit, a TypeError when the `in` test or the assignment of the default fails (a value that is not a container, or a container that is not a dict and lacks the key), or generation with the default version and no required-key check |
| GenerateCli.CheckRequiredFindsFirstMissing | ml/models/generate.py:101-106 | on an object, the loop never raises. It passes exactly when every key is present, and otherwise reports the first absent key |
| GenerateCli.InvalidJsonStopsEarly | ml/models/generate.py:95-99 | a JSON decoding failure ends both paths before anything else |
| GenerateCli.DefaultOnlyWhenAbsent | ml/models/generate.py:108-110 | `browserVersion` is set to "120" only when absent; a present one is kept, and no other key changes |
| GenerateCli.MainOnObject | ml/models/generate.py:101-110 | for an object, a missing parameter is reported exactly when a required key is absent; otherwise both paths generate the same parameters |
| GenerateCli.StdinSkipsRequiredCheck | ml/models/generate.py:136-146 | the stdin path generates from any object, even one that `main` would reject for lacking every required key |
| GoClient.ApplyOption | sdk/go/antidetect/client.go:50-68 | defines one option: set the API key, set the HTTP client, or set the timeout of the current HTTP client, which panics when there is none |
| GoClient.ApplyOptions | sdk/go/antidetect/client.go:85-87 | defines the options applied in order, stopping at the first panic |
| GoClient.Configure | sdk/go/antidetect/client.go:71-87 | defines the settings `NewClient` builds: the normalised URL and a 30-second HTTP client, then the options |
| GoClient.NormalizeBaseURL | sdk/go/antidetect/client.go:73-76 | one trailing slash is trimmed, then "/api/v2" is appended unless the URL contains "/api" |
| GoClient.ApiMarkerSurvivesTrim | sdk/go/antidetect/client.go:73-76 | trimming a final slash never removes an occurrence of "/api" |
| GoClient.NormalizeAgain | sdk/go/antidetect/client.go:73-76 | a normalised URL contains "/api"; normalising again is the identity unless the URL still ends with a slash, in which case only that slash goes |
| GoClient.ApplyOptionsSnoc | sdk/go/antidetect/client.go:85-87 | options apply left to right, and a panic stops the sequence |
| GoClient.ApiKeyIsLastSet | sdk/go/antidetect/client.go:49-68 | the API key is the one set by the last `WithAPIKey`; the base URL is never changed by an option |
| GoClient.NewClientDefaultsAndOverrides | sdk/go/antidetect/client.go:71-96 | without options, the client has the normalised URL, no key and a 30-second HTTP client. A later option overrides an earlier one. `WithTimeout` after `WithHTTPClient(nil)` panics |
| GoClient.Client.constructor | sdk/go/antidetect/client.go:78-83 | the struct literal's settings |
| GoClient.Client.Apply | sdk/go/antidetect/client.go:49-68 | one option updates the settings as `ApplyOption` says, or panics and leaves them unchanged |
| GoClient.NewClient | sdk/go/antidetect/client.go:71-96 | a fresh client whose settings are `Configure` of the URL and options; no client when an option panics |
| GoClient.PanicPersists | sdk/go/antidetect/client.go:85-87 | once an option panics, the whole construction panics |
| GoClient.RequestHeaders | sdk/go/antidetect/client.go:122-126 | JSON content and accept headers, and a bearer token exactly when the key is non-empty |
| GoClient.HandleErrorResponse | sdk/go/antidetect/client.go:168-197 | 401, 404, 400 and 429 map to their typed errors, each exactly on its status. A generic error keeps the status and has no code. The rate limit's RetryAfter stays 0. The message is the body's `error` field when non-empty, and otherwise the fallback |
| GoClient.Route | sdk/go/antidetect/client.go:139-165 | a request fails exactly on status ≥ 400 or a body with `success: false` and an error. An error status goes through `handleErrorResponse`; a 2xx failure is a generic error with that status. A decode error only arises when a result is wanted |
| GoClient.RouteDataOnlyWhenPresent | sdk/go/antidetect/client.go:150-165 | on success, only non-empty `data` is decoded into the result, and a call with no result never fails to decode |
| GoClient.ErrorString | sdk/go/antidetect/client.go:223-265 | every error string ends with the message; a generic error shows its code in brackets when it has one; a typed error shows its fixed prefix |
| GoClient.TypedErrorStringsDistinguish | sdk/go/antidetect/client.go:235-265 | typed errors with different prefixes have different strings, and for the same prefix the string determines the message |
| GoClient.ListPath | sdk/go/antidetect/client.go:409-427 | the path starts with "/profiles". A query is added exactly when page or limit is positive, and then starts with '?' |
| GoClient.QueryPairs | sdk/go/antidetect/client.go:413-418 | there is one pair per positive option |
| GoClient.ListPathQueries | sdk/go/antidetect/client.go:410-422 | `url.Values.Encode` sorts its keys, so `limit=` comes before `page=`; with one of them zero, only the other appears |
| PyClient.NormalizeBaseUrl | sdk/python/src/antidetect_sdk/client.py:286-288 | the result ends with "/api/v2", and is the stripped URL with the suffix appended exactly when it was missing |
| PyClient.NormalizeIdempotent | sdk/python/src/antidetect_sdk/client.py:286-288 | normalising twice is normalising once |
| PyClient.AntidetectClient.constructor | sdk/python/src/antidetect_sdk/client.py:270-310 | the normalised URL, the key and timeout as given, JSON headers, and a bearer header exactly for a truthy key |
| PyClient.HandleResponse | sdk/python/src/antidetect_sdk/client.py:343-370 | 401, 404, 429 and 5xx raise their typed errors in that order; a non-numeric Retry-After raises `int()`'s ValueError. A non-JSON body raises for a 4xx and returns None otherwise. A returned value implies a status that none of the early checks caught |
| PyClient.HandleJsonBody | sdk/python/src/antidetect_sdk/client.py:355-370 | an object whose `success` is exactly false raises with its message, as ValidationError exactly on 400. Another object returns its `data` or the object itself, and a JSON value that is not an object is returned as is |
| PyClient.OnlyFalseFails | sdk/python/src/antidetect_sdk/client.py:362-368 | a missing, null or zero `success` returns rather than raises |
| PyClient.DetectionHistoryParams | sdk/python/src/antidetect_sdk/client.py:229-245 | each filter is included exactly when truthy, with its value |
| PyClient.SessionHistoryParams | sdk/python/src/antidetect_sdk/client.py:247-256 | `limit` always, and `profileId` exactly when truthy |
| PyClient.DuplicateBody | sdk/python/src/antidetect_sdk/client.py:74-80 | the body is `{}` for an empty name and holds just the name otherwise |
| PyClient.ProfilesListParams | sdk/python/src/antidetect_sdk/client.py:37-43 | `page` and `limit` are always sent |
| PyErrors.AntidetectError | sdk/python/src/antidetect_sdk/exceptions.py:11-20 | message, code and status are stored as given |
| PyErrors.AuthenticationError | sdk/python/src/antidetect_sdk/exceptions.py:28-32 | code AUTH_ERROR, status 401 |
| PyErrors.NotFoundError | sdk/python/src/antidetect_sdk/exceptions.py:35-39 | message "<resource> not found", code NOT_FOUND, status 404 |
| PyErrors.ValidationError | sdk/python/src/antidetect_sdk/exceptions.py:42-46 | code VALIDATION_ERROR, status 400 |
| PyErrors.ConnectionError | sdk/python/src/antidetect_sdk/exceptions.py:49-53 | code CONNECTION_ERROR and no status |
| PyErrors.ServerError | sdk/python/src/antidetect_sdk/exceptions.py:67-71 | code SERVER_ERROR, status 500 |
| PyErrors.RateLimitError | sdk/python/src/antidetect_sdk/exceptions.py:56-64 | code RATE_LIMIT, status 429, and the retry value stored. The message gets the retry hint exactly when the value is truthy |
| PyErrors.Str | sdk/python/src/antidetect_sdk/exceptions.py:22-25 | "[code] message" when the code is truthy, otherwise the message; it always ends with the message |
| PyErrors.TypedErrorsShowCode | sdk/python/src/antidetect_sdk/exceptions.py:28-71 | every subclass's string carries its bracketed code |
| PyErrors.StrRecoversMessage | sdk/python/src/antidetect_sdk/exceptions.py:22-25 | for the same code, the string determines the message |
| PyErrors.ZeroRetryAfterIsDropped | sdk/python/src/antidetect_sdk/exceptions.py:60-64 | a retry of 0 is falsy: the bare message, yet 0 is stored |
| PyRealtime.WsUrl | sdk/python/src/antidetect_sdk/realtime.py:40-41 | the WebSocket URL always ends with "/ws" |
| PyRealtime.WsUrlOfHttp | sdk/python/src/antidetect_sdk/realtime.py:40-41 | an http URL becomes ws with the rest kept, trailing slashes stripped |
| PyRealtime.WsUrlOfHttps | sdk/python/src/antidetect_sdk/realtime.py:40-41 | an https URL becomes wss with the rest kept, trailing slashes stripped: the first replacement does not touch it |
| PyRealtime.Without | sdk/python/src/antidetect_sdk/realtime.py:104-106 | the filtered list holds exactly the callbacks different from the removed one |
| PyRealtime.WithoutConcat | sdk/python/src/antidetect_sdk/realtime.py:104-106 | the filter keeps the order of the rest |
| PyRealtime.KeepOthers | sdk/python/src/antidetect_sdk/realtime.py:138-140 | the kept subscriptions are exactly those not matching both type and id |
| PyRealtime.KeepOthersConcat | sdk/python/src/antidetect_sdk/realtime.py:138-140 | the filter keeps the order of the rest |
| PyRealtime.DeliveriesOf | sdk/python/src/antidetect_sdk/realtime.py:191-193 | each listener is called once, in registration order, with the event data |
| PyRealtime.SubscribeMessages | sdk/python/src/antidetect_sdk/realtime.py:155-156 | one subscribe message per subscription, in order |
| PyRealtime.ConnectHeaders | sdk/python/src/antidetect_sdk/realtime.py:57-59 | an Authorization header exactly for a truthy key, carrying "Bearer " and the key; `Connect` records these as the socket's headers |
| PyRealtime.RealtimeClient.constructor | sdk/python/src/antidetect_sdk/realtime.py:23-53 | the ws URL; no socket, not connected, no attempts, listeners or subscriptions |
| PyRealtime.RealtimeClient.Connect | sdk/python/src/antidetect_sdk/realtime.py:55-72 | a socket object now exists, created with `ConnectHeaders` of the API key as its handshake headers; nothing else changes. The client's invariant keeps a socket's headers equal to those of the key |
| PyRealtime.RealtimeClient.Disconnect | sdk/python/src/antidetect_sdk/realtime.py:74-80 | reconnecting is switched off, and the socket and connected flag cleared |
| PyRealtime.RealtimeClient.On | sdk/python/src/antidetect_sdk/realtime.py:82-92 | the callback is appended to the event's list |
| PyRealtime.RealtimeClient.Off | sdk/python/src/antidetect_sdk/realtime.py:94-108 | an unknown event changes nothing. With a callback, every equal callback is removed; without one, the whole event is removed |
| PyRealtime.RealtimeClient.Send | sdk/python/src/antidetect_sdk/realtime.py:110-120 | a message is sent exactly when there is a socket and the client is connected |
| PyRealtime.RealtimeClient.Subscribe | sdk/python/src/antidetect_sdk/realtime.py:122-134 | the subscription is recorded, and sent when connected |
| PyRealtime.RealtimeClient.SubscribeToProfile | sdk/python/src/antidetect_sdk/realtime.py:122-127 | records and, when connected, sends a profile subscription |
| PyRealtime.RealtimeClient.SubscribeToSession | sdk/python/src/antidetect_sdk/realtime.py:129-134 | records and, when connected, sends a session subscription |
| PyRealtime.RealtimeClient.Unsubscribe | sdk/python/src/antidetect_sdk/realtime.py:136-142 | every matching subscription is removed, order kept, and the server told when connected |
| PyRealtime.RealtimeClient.Emit | sdk/python/src/antidetect_sdk/realtime.py:189-196 | every listener of the event is called, in order |
| PyRealtime.RealtimeClient.OnOpen | sdk/python/src/antidetect_sdk/realtime.py:149-158 | the client is connected with the counter back at 0; every subscription is re-sent in order, then "connected" is emitted |
| PyRealtime.RealtimeClient.Reconnect | sdk/python/src/antidetect_sdk/realtime.py:183-185 | with an attempt left, the counter goes up by one, "reconnecting" is delivered with that attempt number, and a new socket exists with the key's handshake headers; nothing else changes |
| PyRealtime.RealtimeClient.OnClose | sdk/python/src/antidetect_sdk/realtime.py:176-187 | the client is disconnected and "disconnected" emitted. With reconnect on and attempts left, it counts one, emits "reconnecting" and makes a new socket. Otherwise, once the attempts are used up, it emits "reconnect_failed" |
| PyRealtime.DisconnectThenClose | sdk/python/src/antidetect_sdk/realtime.py:74-80 | after `disconnect`, a close never reconnects |
| PyRealtime.OnKeepsDuplicates | sdk/python/src/antidetect_sdk/realtime.py:90-92 | registering a callback twice calls it twice |

## Left out

- The neural networks are left out: the PPO agent, the encoder/decoder, the tokenizer and the GPT-2 backbone, along with training (`train_agent`, `train_epoch`, `validate`). They are floating-point tensor code. The model takes the agent's policy as a function and the generated tensor entries as table indices.
- `consistency_loss` and `realism_loss` are left out: they are tensor arithmetic.
- The random parts are taken as given: NumPy's normal noise, the random GPU and screen targets of `__getitem__`, and `random_split` (only its sizes are modelled). The noise and the draws are parameters.
- The square root is a parameter constrained by `IsSqrt`. Floats are reals, so rounding is not modelled.
- The real browser test run (`test_command` subprocess) is not modelled; only the simulation branch of `_test_detectors` is.
- `render`, `close`, printing and logging are left out, as are the callback class and `check_env`.
- File, JSON and model I/O are left out: loading the dataset file, `torch.load`/save, reading stdin and writing outputs. A decoder's result is an argument.
- TrainDataset.GetItem: a record that is not a dict is not modelled.
- TrainDataset: metadata values are strings. A record whose `metadata` is JSON null is also not covered: the model reads it as absent and yields "Unknown", while `fp.get('metadata', {})` returns None there and `.get` on it raises AttributeError (`train.py:66`, `:71`, `:100`). A non-string `osName` (`train.py:66-68`) would become a vocabulary key of its own type; the model does not cover that.
- ProfileGenerator: parameters are strings. An integer `browserVersion` rendered through `str()` (`profile-generator.py:179`, `:383`) is not covered. Neither is a non-string `os` (`:260`, `:368`), where `.lower()` raises AttributeError.
- PyClient.HandleResponse: a non-string `error` value is kept as its rendering by `show`, where Python keeps the value itself.
- TrainDataset.SplitSizes: `int(0.8 * n)` is modelled as ⌊4n/5⌋. The rounding of 0.8 as a double never crosses an integer for dataset sizes.
- The MD5 hashes of canvas and audio are opaque strings. DecodeCanvas and DecodeAudio only add fixed constants around the hash, so they have no contract of their own; DecodeFingerprint covers them.
- Lowercasing is ASCII only.
- The eBPF helpers (`bpf_map_lookup_elem`, `bpf_setsockopt`, `bpf_get_current_pid_tgid`) are inputs: a map lookup is a Dafny map and `setsockopt` returns a given code.
- Atomicity and concurrency of the per-CPU and shared counters are not modelled; an update is a plain wrapping increment.
- TlsJa3.UpdateJa3Stats: at `tls_ja3.c:158` the counter's address is formed from a second map lookup that is not checked. The store itself is guarded by `update_ja3_stats`' own lookup (`tls_ja3.c:95-97`). The model counts through the checked lookup only, so it does not capture forming a field address from a lookup that may have found nothing.
- HTTP transport is left out: requests, timeouts, the retry adapter, the connection pool, and `_request`'s wrapping of transport errors into `ConnectionError`. A response arrives as its status, text, decoded body and header.
- The Go `*http.Client` a caller passes in is modelled as a value, so `WithTimeout` changing the caller's own client (aliasing) is not captured.
- The other resource methods of the SDKs (get, create, update, delete, export, import, sessions, proxies, analytics dashboard) are left out: each only builds a path and forwards to the request method modelled above.
- `_on_message` and `_on_error` are not modelled: they only decode and re-emit.
- The listeners' own effects and exceptions are not modelled (listeners are identities). The socket thread and `wait` are left out.
- PyRealtime.RealtimeClient.OnOpen: requires a socket to exist. The race between an open arriving and a concurrent `disconnect` is not modelled.
- Not part of this model: the Node services, the installer scripts, `demo.py` and `models.py`.

## Notes on the source

These are behaviours of the code as written. The model keeps them, and the lemmas named here exhibit them:

- **WebGL uses a different OS test from the hardware.** The WebGL table compares the lower-cased OS name with exactly "windows", while the hardware test looks for the substring. An OS such as "Windows 11" therefore gets a Windows platform and a Linux GPU (`WindowsVariantGetsLinuxGpu`).
- **PixelScan at 0.7.** With every level at 0.7, the code's formula gives PixelScan 84.5 (`UniformSevenTenthsPixelscan`). That is 60 + 20·0.7 + 15·0.7.
- **The sockops port test compares a raw 32-bit field.** `ja3_sockops` compares the `__u32` `remote_port` field of `bpf_sock_ops` with `bpf_htons(443)`, which is 0xBB01 on a little-endian host (`SockopsPortIsNetworkOrder443`). The model keeps that comparison as written. If the kernel places the network-order port in the upper 16 bits of that field, then the test does not hold for a real connection to port 443. The model does not settle how the kernel encodes the field.
- **The IPv4 header length is not checked.** A header length below 5 is accepted by the ClientHello parser (`AcceptsIhlBelowFive`).
- **Go URL normalisation is not idempotent.** It trims only one slash, so a URL containing "/api" and ending in "//" changes again on a second pass (`NormalizeAgain`).
- **Go's typed errors lose the status.** The typed errors' strings do not carry the status (`ErrorString`), and a 429 never carries a retry hint (`HandleErrorResponse`).
- **The Python SDK drops a zero Retry-After.** A `retry_after` of 0 is stored but left out of the message (`ZeroRetryAfterIsDropped`).
- **`step` after `done`.** Nothing stops a call to `step` once an episode is done; the counter keeps rising.
- **The Python WebSocket URL of an all-slash remainder.** This is outside the lemmas' preconditions: stripping removes everything after the scheme.
