# Opponent-pattern analysis for a rock/paper/scissor bot, in Dafny

The gigaverse-bot repository carries a set of batch scripts. They read an
opponent's recorded battles (our move, their move, the recorded outcome)
and decide whether that opponent is biased towards one move, reacts to our
previous move, cycles or adapts over time. Two more scripts simulate how
much a detection system would gain against such opponents. This project
models the counting and decision logic of those scripts and proves what
the scripts rely on.

Each battle is a `Moves.Turn`. The outcome is recorded data and is never
recomputed from the two moves. The scripts disagree on whose loss
`'loss'` names; see `## Findings`.

Modules, one per script plus shared layers:

- `Moves`: the three moves, `get_counter`, `get_result` and the inline
  `counter`/`opposite` maps.
- `Tally`: dict tallies in first-seen key order, `max(d.items(), key=...)`,
  and the stable `sorted(..., reverse=True)`.
- `Windows`: period splits and n-grams.
- `Distributions`: `get_distribution`, exact shares and guarded rates.
- `Transitions`: reactions to our previous move and the opponent's
  follow-ups after an outcome.
- One module per script: `RobustDetection` (test_robust_detection.py),
  `MarkovOrders` (test_markov_orders.py), `EnemyBehavior`
  (analyze_enemy_behavior.py), `EnemyAdaptation`
  (analyze_enemy_adaptation.py), `EnemyPatterns`
  (analyze_enemy_patterns.py), `DeeperReactive`
  (deeper_reactive_analysis.py), `DetailedStatistics`
  (detailed_statistics_analysis.py), `DetectionSimulation`
  (simulate_detection_effectiveness.py) and `RealisticPerformance`
  (realistic_performance_test.py).

Loops that update counters, dicts and lists are methods. Each is proved
equal to a specification function, and the properties are proved about
those functions as lemmas. Floats are exact reals. A dict is a `map`
together with the sequence of its keys in insertion order. Random draws,
entropy and the binomial p-value are parameters.

## Model

| member | source | states |
|---|---|---|
| Moves.TheirMoves | analyze_enemy_behavior.py:106 | the opponent's moves, one per battle, in battle order |
| Moves.Outcomes | analyze_enemy_behavior.py:108 | the recorded outcomes, one per battle, in battle order |
| Moves.Counter | simulate_detection_effectiveness.py:38-40 | `get_counter(m)` beats `m` |
| Moves.Result | simulate_detection_effectiveness.py:42-49 | `get_result` is a loss exactly when the opponent's move beats ours |
| Moves.Opposite | deeper_reactive_analysis.py:74 | `opposite[m]` is beaten by `m` |
| Moves.CounterIsTheUniqueBeater | realistic_performance_test.py:9-10 | a move beats `m` exactly when it is `get_counter(m)` |
| Moves.CounterIsThreeCycle | realistic_performance_test.py:9-10 | `get_counter` has no fixed point, applied three times is the identity, and `opposite` is `get_counter` applied twice |
| Moves.ResultMatchesRule | simulate_detection_effectiveness.py:42-49 | `get_result` is a tie exactly on equal moves, a win exactly when our move beats theirs, and a loss exactly when theirs beats ours |
| Moves.ResultAntisymmetric | realistic_performance_test.py:12-18 | swapping the two moves turns a win into a loss and keeps a tie |
| Tally.CountOf | test_robust_detection.py:25-27 | a move's count is at most the input length and is positive exactly when the move occurs |
| Tally.Keys | test_robust_detection.py:25-27 | a filled dict's keys are exactly the items seen |
| Tally.KeysDistinct | test_robust_detection.py:25-27 | no key is listed twice |
| Tally.KeysInFirstSeenOrder | test_robust_detection.py:25-27 | the keys come in order of first occurrence |
| Tally.TallyOf | test_robust_detection.py:25-27 | every key maps to its number of occurrences, and only items seen are keys |
| Tally.TallyKeys | test_robust_detection.py:25-27 | the `counts[x] += 1` loop builds that tally, with keys in first-seen order |
| Tally.Increment | detailed_statistics_analysis.py:253 | one `d[x] += 1` turns the tally of `s` into the tally of `s + [x]` |
| Tally.TallySnoc | detailed_statistics_analysis.py:253 | one more item adds one to its own count, or enters it with count 1 at the end of the key order |
| Tally.SumOfTally | detailed_statistics_analysis.py:253-254 | the counts of the selected keys add up to the number of selected items |
| Tally.SumOverKeys | detailed_statistics_analysis.py:253-254 | summing the selected counts over the keys of a filled dict counts the selected items |
| Tally.CountWhere | test_markov_orders.py:88 | counting the items a filter selects gives at most `len(s)`; it counts the 4-grams of one context, the enemies with a shift and the improving and declining enemies |
| Tally.CountWhereAll | test_markov_orders.py:62 | a filter that keeps everything counts every item |
| Tally.SumValuesWhere | test_markov_orders.py:88 | the summing loop over the keys computes the sum of the selected counts, which is the number of selected items tallied; with every key selected it is `sum(transitions.values())` of line 62 |
| Tally.ArgMaxFirst | test_robust_detection.py:37 | the index of a maximal value, and every earlier value is strictly smaller |
| Tally.CountsOfKeys | test_robust_detection.py:37 | the dict's values, in key order, are the keys' counts |
| Tally.MostFrequent | test_robust_detection.py:37 | `max(counts.items(), key=...)` returns an item seen, and no item has a larger count |
| Tally.MostFrequentTieBreak | test_robust_detection.py:37 | among equally frequent keys `max` returns the one seen first |
| Tally.MostFrequentScan | test_robust_detection.py:37 | the scan over a filled dict returns `MostFrequent` of the tallied items |
| Tally.InsertDesc | analyze_enemy_patterns.py:53 | inserting keeps every item and adds the new one |
| Tally.InsertDescSorted | analyze_enemy_patterns.py:53 | inserting into a list ordered by non-increasing key keeps it ordered |
| Tally.SortDesc | analyze_enemy_patterns.py:53 | `sorted(..., reverse=True)` is a permutation of its input |
| Tally.SortDescSorted | analyze_enemy_patterns.py:53 | `sorted(..., reverse=True)` orders by non-increasing key |
| Tally.InsertDescStable | analyze_enemy_patterns.py:53 | inserting into a list ordered by non-increasing key puts the new item after every item with its key, and leaves the order of the others unchanged |
| Tally.SortDescStable | analyze_enemy_patterns.py:53 | `sorted(..., reverse=True)` is stable: for every key, the items with that key come out in their input order |
| Windows.ChunksPartition | analyze_enemy_behavior.py:111-121 | every period is non-empty and holds at most `period_size` battles, every period but the last holds exactly `period_size`, and the periods concatenate back to the input |
| Windows.ChunksCount | analyze_enemy_behavior.py:111-121 | the number of periods is the ceiling of `len / period_size`, and there are at least two when the input is longer than one period |
| Windows.SplitPeriods | analyze_enemy_adaptation.py:43-45 | the slicing loop produces exactly those periods |
| Windows.Grams | analyze_enemy_patterns.py:48-49 | `len(s) - n + 1` windows of `n` items, or none for a shorter input |
| Windows.GramAt | analyze_enemy_patterns.py:48-49 | window `i` is `s[i:i+n]` |
| Windows.GramsLength | analyze_enemy_patterns.py:48-49 | every window holds `n` items |
| Distributions.Share | analyze_enemy_behavior.py:28-30 | `count / total` is non-negative, zero exactly for a zero count, and at most 1 for a part of the total |
| Distributions.ShareIffAbove | test_robust_detection.py:36 | `count / total > t` is the same test as `count > t * total` |
| Distributions.DisjointSharesAtMostOne | test_robust_detection.py:51-58 | the shares of two disjoint parts of the same total add up to at most 1 |
| Distributions.Fraction.Value | analyze_enemy_behavior.py:57-58 | a stored rate is non-negative, zero exactly for a zero numerator, and at most 1 for a part of the whole |
| Distributions.Fraction.Guarded | deeper_reactive_analysis.py:105-107 | `num / den if den > 0 else 0` is 0 for a zero denominator and otherwise a rate in [0, 1] for a part of the whole |
| Distributions.ExceedsIff | deeper_reactive_analysis.py:105-107 | the division-free test agrees with `rate > t` on the guarded rate |
| Distributions.GetDistribution | analyze_enemy_behavior.py:20-31 | the fixed default for no moves, otherwise each move's share of the moves |
| Distributions.CountsPartition | analyze_enemy_behavior.py:25-30 | the three move counts add up to the number of moves |
| Distributions.DistributionIsProbability | analyze_enemy_behavior.py:20-31 | with either script's default the result is non-negative and sums to 1 |
| Distributions.DistributionOfConcat | analyze_enemy_patterns.py:96-99 | splitting the moves splits each move's count |
| Distributions.Abs | detailed_statistics_analysis.py:168 | `abs(x)` is non-negative and is `x` or `-x` |
| Distributions.DominantOf | analyze_enemy_behavior.py:138 | `max(dist.items(), ...)` is a most likely move, and every move earlier in key order is strictly less likely |
| Transitions.ReactionTo | deeper_reactive_analysis.py:74-81 | each transition is exactly one of counter, copy and opposite of our previous move |
| Transitions.ReactionCount | analyze_enemy_behavior.py:44-55 | a reaction count is at most the number of transitions `len - 1` |
| Transitions.ReactionsPartition | deeper_reactive_analysis.py:74-81 | the counter, copy and opposite counts add up to `len - 1` |
| Transitions.CountReactions | deeper_reactive_analysis.py:74-81 | the loop computes the three reaction counts |
| Transitions.FollowUpOf | analyze_enemy_behavior.py:75-80 | the opponent's next move is exactly one of repeat, switch to the counter, and switch to the other move |
| Transitions.AfterCount | analyze_enemy_behavior.py:69-71 | the transitions after a given outcome are at most `len - 1` |
| Transitions.FollowUpsAfter | analyze_enemy_behavior.py:69-80 | one follow-up per transition after the given outcome |
| Transitions.FollowUpCount | analyze_enemy_behavior.py:69-80 | a follow-up count is at most the number of transitions after that outcome |
| Transitions.FollowUpKindsPartition | analyze_enemy_behavior.py:75-80 | the three follow-up counts of a list add up to its length |
| Transitions.FollowUpsPartition | analyze_enemy_behavior.py:69-80 | switch-to-counter, repeat and other switch add up to `total_losses` |
| Transitions.AfterCountsDisjoint | deeper_reactive_analysis.py:83-95 | transitions after a win, after a loss and after a tie add up to `len - 1` |
| RobustDetection.Min | test_robust_detection.py:42 | `min(a, b)` is at most both and equals one of them |
| RobustDetection.ChiSquare | test_robust_detection.py:30-33 | the chi-square statistic of the move counts is never negative |
| RobustDetection.Significant | test_robust_detection.py:36 | three equal counts are never significant |
| RobustDetection.PearsonOverIntegers | test_robust_detection.py:30-33 | the term-by-term statistic against an expectation of `n / 3` equals `sum((3c - n)^2) / (3n)` |
| RobustDetection.SignificantIffAboveCritical | test_robust_detection.py:36 | the division-free test agrees with `chi_square > 5.991` |
| RobustDetection.ChiSquareOfCountsZeroIffEqual | test_robust_detection.py:30-33 | the statistic of three counts is non-negative and zero exactly when the counts are equal |
| RobustDetection.ChiSquareZeroIffUniform | test_robust_detection.py:25-33 | the statistic of the opponent's moves is non-negative and zero exactly when the three moves are equally frequent |
| RobustDetection.BiasConfidenceRange | test_robust_detection.py:38-42 | a share above 45% gives a confidence `min(0.9, share)` in (0.45, 0.9] |
| RobustDetection.RobustBias | test_robust_detection.py:29-44 | a bias detection names the move `max(counts.items(), ...)` picks and records the battle count |
| RobustDetection.RobustReaction | test_robust_detection.py:47-81 | a reaction detection is a counter or copier detection with confidence 0.7 and the battle count |
| RobustDetection.ReactionTests | test_robust_detection.py:58-81 | the same for the two tests on given counter and copy counts |
| RobustDetection.RobustDecision | test_robust_detection.py:19-83 | nothing under 15 battles, a detection records the battle count, and a reaction detection needs at least 20 battles |
| RobustDetection.RobustCheckOrder | test_robust_detection.py:36-81 | a passing bias is returned before any reactive test, and a reactive detection needs at least 20 battles and no passing bias |
| RobustDetection.RobustBiasIsSignificant | test_robust_detection.py:29-44 | a bias is reported exactly when the chi-square statistic exceeds 5.991 and the most frequent move holds more than 45%, with confidence in (0.45, 0.9] |
| RobustDetection.RobustNoBiasOnUniform | test_robust_detection.py:29-44 | no bias is ever reported on equally frequent moves |
| RobustDetection.RobustCounterIsSignificant | test_robust_detection.py:61-70 | a counter detection has rate `counter_count / n` above 1/3 and a p-value below 0.05 |
| RobustDetection.RobustCopierIsSignificant | test_robust_detection.py:61-81 | a copier detection has a significant copy rate above 1/3 and is reported only when the counter test failed |
| RobustDetection.OverfittedBias | test_robust_detection.py:94-109 | a bias detection names the most frequent move and records the battle count |
| RobustDetection.OverfittedCounter | test_robust_detection.py:112-126 | a reaction detection is a counter detection with confidence 0.8 |
| RobustDetection.OverfittedDecision | test_robust_detection.py:89-128 | nothing under 5 battles, never a copier, and a counter detection needs at least 10 battles |
| RobustDetection.RobustBiasImpliesOverfittedBias | test_robust_detection.py:36-44 | every robust bias detection is also an overfitted one, on the same move with at least the same confidence |
| RobustDetection.ChiSquareTest | test_robust_detection.py:30-36 | the term-by-term computation decides `chi_square > 5.991` |
| RobustDetection.RobustBiasTest | test_robust_detection.py:24-44 | the tally loop and the two tests compute `RobustBias` |
| RobustDetection.RobustReactionTest | test_robust_detection.py:47-81 | the transition loop and the two binomial tests compute `RobustReaction` |
| RobustDetection.DetectRobust | test_robust_detection.py:19-83 | `RobustDetector.detect_pattern` computes `RobustDecision` |
| RobustDetection.OverfittedBiasTest | test_robust_detection.py:94-109 | the tally loop and the 40% test compute `OverfittedBias` |
| RobustDetection.OverfittedCounterTest | test_robust_detection.py:112-126 | the transition loop and the 35% test compute `OverfittedCounter` |
| RobustDetection.DetectOverfitted | test_robust_detection.py:89-128 | `OverfittedDetector.detect_pattern` computes `OverfittedDecision` |
| RobustDetection.Detected | test_robust_detection.py:216 | at most one detection per run |
| RobustDetection.Patterned | test_robust_detection.py:214 | at most one real pattern per run |
| RobustDetection.Score | test_robust_detection.py:216-228 | one run adds one to its own cell only (detected with a real pattern: true positive; detected without: false positive; not detected without: true negative; not detected with: false negative), appends the detection's battle count, and appends its confidence to the correct or the wrong list to match |
| RobustDetection.Scores | test_robust_detection.py:216-245 | each of the four cells is the number of runs of its kind, so the cells add up to the number of runs; the detection battles and the two confidence lists are those of the detections, on the matching side, in run order |
| RobustDetection.RobustRuns | test_robust_detection.py:213-214 | one robust answer per trial, on that trial's battles |
| RobustDetection.OverfittedRuns | test_robust_detection.py:231 | one overfitted answer per trial, on that trial's battles |
| RobustDetection.ScoresStep | test_robust_detection.py:216-245 | scoring one more run extends the record of the runs before it |
| RobustDetection.ScoreRobust | test_robust_detection.py:213-228 | one pass for the robust detector: running it on the next trial and scoring the answer extends the record of the trials before it |
| RobustDetection.ScoreOverfitted | test_robust_detection.py:231-245 | one pass for the overfitted detector: running it on the next trial and scoring the answer extends the record of the trials before it |
| RobustDetection.TestDetectors | test_robust_detection.py:197-245 | the loop over the enemies computes both detectors' records |
| RobustDetection.GuardedRate | test_robust_detection.py:269-270 | the guarded rate of a part lies in [0, 1], is 1 exactly for the whole, and is 0 exactly for an empty part or an empty whole |
| RobustDetection.F1 | test_robust_detection.py:271 | the guarded F1 lies between precision and recall, and is 0 exactly when one of them is |
| RobustDetection.HarmonicMeanBetween | test_robust_detection.py:271 | the harmonic mean of two non-negative rates lies between them |
| RobustDetection.MetricsOf | test_robust_detection.py:269-273 | every metric lies in [0, 1], accuracy is undefined exactly with no runs, precision is 1 exactly with true positives and no false positives, and the false positive rate is 0 exactly without false positives |
| MarkovOrders.TransitionsOf | test_markov_orders.py:54-58 | one transition per adjacent pair of moves, in order |
| MarkovOrders.Markov1Reports | test_markov_orders.py:47-66 | nothing under 10 moves; a report names a transition at least as frequent as every other, with its count and the total of `len - 1` transitions, holding more than 40% of them; otherwise no transition holds more than 40% |
| MarkovOrders.Markov1TieBreak | test_markov_orders.py:61 | among equally frequent transitions the report names the one seen first |
| MarkovOrders.DetectMarkov1 | test_markov_orders.py:47-66 | the tally loop, the `max` and the `sum` compute `Markov1` |
| MarkovOrders.Markov1 | test_markov_orders.py:47-66 | a report needs at least 10 moves, counts one transition per pair of consecutive moves, and its most common transition takes more than 40% of them |
| MarkovOrders.FourGramsOf | test_markov_orders.py:75-79 | one 4-gram per window of four moves, its first three moves as context |
| MarkovOrders.ContextOccurrences | test_markov_orders.py:88 | a context occurs at most once per 4-gram |
| MarkovOrders.BestScan | test_markov_orders.py:82-94 | the scan ends with ratio 0 and no pattern, or with a scanned key whose context has support and whose ratio is the best ratio |
| MarkovOrders.RatioInUnitInterval | test_markov_orders.py:91 | every ratio a supported key gets lies in (0, 1] |
| MarkovOrders.CountWithinContext | test_markov_orders.py:88-91 | a 4-gram occurs at most as often as its context |
| MarkovOrders.BestScanIsFirstMaximum | test_markov_orders.py:85-94 | the best ratio is at least every supported key's ratio and strictly above every supported key's ratio scanned before the chosen one |
| MarkovOrders.Markov3Reports | test_markov_orders.py:68-98 | nothing under 30 moves; a report names a 4-gram of the input whose context occurs at least 5 times and whose ratio exceeds 0.6 and is maximal; otherwise every supported ratio is at most 0.6 |
| MarkovOrders.ContextTotal | test_markov_orders.py:88 | the generator sum over the tallied table counts the context's occurrences |
| MarkovOrders.Weigh | test_markov_orders.py:86-94 | one pass of the scan's body is one step of `BestScan` |
| MarkovOrders.ScanFourGrams | test_markov_orders.py:74-94 | the tally loop and the scan compute `BestScan` over the table in insertion order |
| MarkovOrders.ScanTable | test_markov_orders.py:85-94 | the scan over a tallied table computes `BestScan` |
| MarkovOrders.BestScanStep | test_markov_orders.py:85-94 | scanning one more key is one more step |
| MarkovOrders.DetectMarkov3 | test_markov_orders.py:68-98 | `detect_markov_3` computes `Markov3` |
| MarkovOrders.Markov3 | test_markov_orders.py:68-98 | a report needs at least 30 moves and a ratio above 0.6 |
| MarkovOrders.TableSizes | test_markov_orders.py:62 | the 4-gram table's counts sum to `len - 3` and the transition table's to `len - 1` |
| EnemyBehavior.AfterLossTagsExact | analyze_enemy_behavior.py:82-86 | the after-loss tags name distinct reactions of the dict, each with its share, which exceeds 0.4, and every reaction whose share exceeds 0.4 is tagged |
| EnemyBehavior.CounterCopyTagsExact | analyze_enemy_behavior.py:57-63 | the counter tag is present exactly when the counter rate exceeds 0.4, likewise the copy tag; both rates are returned; `reactive` holds exactly when some pattern was found |
| EnemyBehavior.AfterLossTagsFollowShares | analyze_enemy_behavior.py:82-86 | after-loss tags appear only with more than 5 recorded losses, and then every reaction over 0.4 is tagged with its share |
| EnemyBehavior.RatesBounded | analyze_enemy_behavior.py:57-58 | both rates lie in [0, 1] and add up to at most 1 |
| EnemyBehavior.ReactionPatternsOf | analyze_enemy_behavior.py:33-93 | under 10 battles no patterns; otherwise the tags come from the counter and copy counts of the `len - 1` transitions and from the follow-ups to each recorded loss, one per loss |
| EnemyBehavior.RateAboveIff | analyze_enemy_behavior.py:60 | `count / k > 0.4` is the test `count > 0.4 * k` |
| EnemyBehavior.LossReactions | analyze_enemy_behavior.py:66-80 | the loop tallies the follow-ups to a recorded loss, in first-seen order, and counts the losses |
| EnemyBehavior.TagAfterLoss | analyze_enemy_behavior.py:82-86 | the tagging loop over the dict computes `AfterLossTags` |
| EnemyBehavior.DetectReactionPatterns | analyze_enemy_behavior.py:33-93 | `detect_reaction_patterns` computes `ReactionPatterns` |
| EnemyBehavior.ReactionPatterns | analyze_enemy_behavior.py:33-93 | `is_reactive` exactly when some pattern is listed, and no pattern and no rates for fewer than 10 battles |
| EnemyBehavior.AssembleTags | analyze_enemy_behavior.py:60-86 | the appending steps compute the tags in the source's order |
| EnemyBehavior.PeriodSize | analyze_enemy_behavior.py:111 | `max(10, len // 4)` is at least 10 |
| EnemyBehavior.AtLeastTwoPeriods | analyze_enemy_behavior.py:98-121 | fifteen or more battles always make at least two periods |
| EnemyBehavior.AnalysePeriod | analyze_enemy_behavior.py:125-140 | each analysis records the period's number from 1 and its battle count |
| EnemyBehavior.AnalysePeriods | analyze_enemy_behavior.py:124-140 | one analysis per period, in order |
| EnemyBehavior.MoveSign | analyze_enemy_behavior.py:150-154 | a sign for a move exactly when its share moved by more than 0.15, carrying the size and the direction of the change |
| EnemyBehavior.TrendSign | analyze_enemy_behavior.py:157-168 | the rise sign exactly above 0.15, the fall sign exactly below -0.15, at most one of them |
| EnemyBehavior.ClassifyPriority | analyze_enemy_behavior.py:178-188 | every label in both directions: reactive exactly when reactive; defensive randomisation exactly when not reactive and becoming unpredictable; learning exactly when neither of those and improving performance with at least two signs; actively adapting exactly when none of those, without improving performance, and with at least three signs; gradually shifting exactly for one sign, or two without improving performance; stable exactly without signs |
| EnemyBehavior.SignsParts | analyze_enemy_behavior.py:145-172 | the signs are the move signs, then the entropy, win-rate and shift signs |
| EnemyBehavior.MoveSignsLead | analyze_enemy_behavior.py:150-172 | the move signs come first and no later sign is a move sign |
| EnemyBehavior.MoveSignsSound | analyze_enemy_behavior.py:150-154 | every move sign carries the size and direction of that move's change from the first period to the last |
| EnemyBehavior.MoveSignsExact | analyze_enemy_behavior.py:150-154 | there is a move sign exactly for the moves whose share moved by more than 0.15 |
| EnemyBehavior.TrendSignsExact | analyze_enemy_behavior.py:156-172 | each entropy and win-rate sign appears exactly on its change beyond 0.15, and a shift sign from the first dominant move to the last appears exactly when they differ |
| EnemyBehavior.AdaptationFacts | analyze_enemy_behavior.py:95-188 | the periods partition the battles, all but the last hold `period_size`, there are at least two, and the label is the priority chain on the reaction analysis and the signs |
| EnemyBehavior.AnalysePeriodsLoop | analyze_enemy_behavior.py:124-140 | the period loop computes `AnalysePeriods` |
| EnemyBehavior.ChangedMoves | analyze_enemy_behavior.py:150-154 | the per-move loop computes the move signs |
| EnemyBehavior.CollectSigns | analyze_enemy_behavior.py:143-172 | the appending steps compute the signs |
| EnemyBehavior.ClassifyAdaptation | analyze_enemy_behavior.py:178-188 | the label chain computes `Classify` |
| EnemyBehavior.Classify | analyze_enemy_behavior.py:178-188 | reactive exactly when reactive, and stable exactly when not reactive and without signs |
| EnemyBehavior.AnalyseAdaptation | analyze_enemy_behavior.py:95-199 | insufficient data exactly below 15 battles; otherwise reactive exactly when reactive patterns were found |
| EnemyBehavior.AnalyzeEnemyAdaptation | analyze_enemy_behavior.py:95-199 | `analyze_enemy_adaptation` computes `AnalyseAdaptation` |
| EnemyAdaptation.PeriodSize | analyze_enemy_adaptation.py:40 | `max(10, n // 5)`: at least 10 and at least `n // 5`, and one of the two |
| EnemyAdaptation.PeriodDistributions | analyze_enemy_adaptation.py:49 | one distribution per period, with that script's rounded default |
| EnemyAdaptation.Entropies | analyze_enemy_adaptation.py:52 | one entropy per distribution |
| EnemyAdaptation.NashTag | analyze_enemy_adaptation.py:63-67 | the nash tag exactly when there is a last period and its deviation from uniform is below 0.1; each of its shares then lies within 0.1 of 0.333 |
| EnemyAdaptation.EntropyTags | analyze_enemy_adaptation.py:69-74 | nothing under three periods; the rise tag exactly on a rise of more than 0.2 from the first entropy to the last, the fall tag exactly on a fall of more than 0.2, never both |
| EnemyAdaptation.BiggestChange | analyze_enemy_adaptation.py:83-89 | the scan keeps the largest change and the earliest move with it, or no move when nothing changed |
| EnemyAdaptation.ShiftTag | analyze_enemy_adaptation.py:91-93 | at most one tag per pair of periods, naming that pair |
| EnemyAdaptation.ShiftTagLargest | analyze_enemy_adaptation.py:82-93 | a pair has a shift tag exactly when some share changed by more than 0.2; the tag names the largest change, the earliest move on ties, with its direction |
| EnemyAdaptation.ShiftTags | analyze_enemy_adaptation.py:77-93 | every shift tag names a pair `1 <= i < len` |
| EnemyAdaptation.ShiftTagsOrdered | analyze_enemy_adaptation.py:78-93 | the shift tags come in the order of the pairs, at most one per pair |
| EnemyAdaptation.ShiftTagsSound | analyze_enemy_adaptation.py:78-93 | every shift tag is the tag of the pair it names |
| EnemyAdaptation.ShiftTagsComplete | analyze_enemy_adaptation.py:78-93 | every pair that has a shift tag contributes it |
| EnemyAdaptation.Dominant | analyze_enemy_adaptation.py:100-101 | `most_common(1)` is `None` exactly for an empty period, and otherwise a most frequent move of the period |
| EnemyAdaptation.Dominants | analyze_enemy_adaptation.py:98-102 | one dominant move per period |
| EnemyAdaptation.CycleSteps | analyze_enemy_adaptation.py:106-109 | at most one forward step per pair of consecutive periods |
| EnemyAdaptation.CyclingTag | analyze_enemy_adaptation.py:96-112 | the cycling tag exactly with three periods or more and forward steps in at least half the number of periods, so never with fewer than two steps |
| EnemyAdaptation.AllForwardSteps | analyze_enemy_adaptation.py:106-109 | when every dominant move is the counter of the one before, every pair is a step |
| EnemyAdaptation.PerfectCycleTagged | analyze_enemy_adaptation.py:96-112 | three or more periods whose dominant moves run rock, paper, scissor in order are tagged as cycling |
| EnemyAdaptation.ClassifyPriority | analyze_enemy_adaptation.py:115-126 | the label follows the priority nash convergence, cycling, adaptive randomisation, settling into a pattern, active adaptation with more than two tags, stable |
| EnemyAdaptation.Classify | analyze_enemy_adaptation.py:115-126 | nash convergence exactly when that tag is present, and stable only with at most two tags |
| EnemyAdaptation.Tags | analyze_enemy_adaptation.py:63-112 | the convergence tag is present exactly when the deviation-from-uniform (Nash) check fires, and the cycling tag exactly when the cycling check fires |
| EnemyAdaptation.Analyse | analyze_enemy_adaptation.py:33-36 | insufficient data exactly under ten moves |
| EnemyAdaptation.PeriodCount | analyze_enemy_adaptation.py:40-46 | between one and six periods, at most two for twenty moves or fewer |
| EnemyAdaptation.AnalysisShape | analyze_enemy_adaptation.py:38-128 | the periods partition the moves, all but the last hold `period_size`, there is one probability distribution and one entropy per period, and twenty moves or fewer give no entropy or cycling tag |
| EnemyAdaptation.LargestChange | analyze_enemy_adaptation.py:83-89 | the per-move loop computes `BiggestChange` |
| EnemyAdaptation.CollectShifts | analyze_enemy_adaptation.py:77-93 | the loop over pairs computes `ShiftTags` |
| EnemyAdaptation.CollectDominants | analyze_enemy_adaptation.py:98-102 | the loop computes `Dominants` |
| EnemyAdaptation.CountCycling | analyze_enemy_adaptation.py:106-109 | the loop computes `CycleSteps` |
| EnemyAdaptation.CollectTags | analyze_enemy_adaptation.py:63-112 | the appending steps compute the tags in the source's order |
| EnemyAdaptation.AnalyzeAdaptation | analyze_enemy_adaptation.py:33-128 | `analyze_adaptation` computes `Analyse` |
| EnemyPatterns.ItemsOf | analyze_enemy_patterns.py:53-58 | one item per key, carrying its count and its frequency among the n-grams |
| EnemyPatterns.Top | analyze_enemy_patterns.py:53 | `[:3]` is a prefix of at most three entries, of exactly three when there are that many |
| EnemyPatterns.Repeated | analyze_enemy_patterns.py:54 | exactly the entries counted at least twice are kept |
| EnemyPatterns.RankedItems | analyze_enemy_patterns.py:47-53 | every ranked item is the item of an n-gram of the moves, and every n-gram has one |
| EnemyPatterns.SequencesReported | analyze_enemy_patterns.py:45-59 | at most three sequences of length `n`, none under `2n` moves, each an n-gram occurring at least twice with its count and its frequency among the `len - n + 1` n-grams |
| EnemyPatterns.SortedPrefixDominates | analyze_enemy_patterns.py:53 | an entry outside the first `t` of a list sorted by count counts no more than any of them |
| EnemyPatterns.TopThreeMostFrequent | analyze_enemy_patterns.py:53 | an n-gram outside the top three occurs no more often than any of them |
| EnemyPatterns.GramCountsSum | analyze_enemy_patterns.py:48-50 | the counts of the `sequences` dict add up to `len - n + 1` |
| EnemyPatterns.StepCount | analyze_enemy_patterns.py:64-68 | at most one step per pair of consecutive moves |
| EnemyPatterns.CycleStepsDisjoint | analyze_enemy_patterns.py:64-68 | forward and reverse steps together are at most `len - 1` |
| EnemyPatterns.CycleTags | analyze_enemy_patterns.py:70-73 | each cycle tag exactly when its steps exceed `0.4 * len` |
| EnemyPatterns.MoveBias | analyze_enemy_patterns.py:77-81 | heavy exactly above 0.45, avoided exactly below 0.20, at most one tag, carrying the move's share |
| EnemyPatterns.BiasesBalanced | analyze_enemy_patterns.py:76-81 | on a probability distribution not all three moves are heavy and not all three are avoided |
| EnemyPatterns.Detect | analyze_enemy_patterns.py:41-42 | all lists empty under three moves |
| EnemyPatterns.CountSequences | analyze_enemy_patterns.py:47-50 | the loop tallies the n-grams in first-seen order |
| EnemyPatterns.ItemsWithFrequency | analyze_enemy_patterns.py:53-58 | the items carry each count's frequency among the n-grams |
| EnemyPatterns.KeepRepeated | analyze_enemy_patterns.py:53-59 | the loop keeps the entries counted at least twice |
| EnemyPatterns.FindSequences | analyze_enemy_patterns.py:46-59 | one pass of the length loop computes `SequencesOfLength` |
| EnemyPatterns.Sequences | analyze_enemy_patterns.py:46-59 | at most nine patterns (the top three for each of the three lengths), and none for fewer than 4 moves |
| EnemyPatterns.CountCycles | analyze_enemy_patterns.py:62-68 | the loop counts forward and reverse steps |
| EnemyPatterns.FindCycles | analyze_enemy_patterns.py:62-73 | the counts and tests compute `CycleTags` |
| EnemyPatterns.FindBiases | analyze_enemy_patterns.py:76-81 | the bias loop computes `Biases` |
| EnemyPatterns.Biases | analyze_enemy_patterns.py:76-81 | at most one bias per move, each carrying that move's share |
| EnemyPatterns.DetectPatterns | analyze_enemy_patterns.py:33-83 | `detect_patterns` computes `Detect` |
| EnemyPatterns.ThirdsSplit | analyze_enemy_patterns.py:96-99 | the three parts concatenate back to the moves, the first two hold `len // 3`, the last zero to two more, and with ten moves each holds at least three |
| EnemyPatterns.StageSign | analyze_enemy_patterns.py:124-130 | a sign exactly when the change exceeds 0.15 in size, carrying its direction and size |
| EnemyPatterns.ShiftSignsExact | analyze_enemy_patterns.py:120-130 | a sign for a move and a stage exactly when its share changed by more than 0.15 over that stage |
| EnemyPatterns.ShiftSignsSound | analyze_enemy_patterns.py:120-130 | every shift sign carries its move's change over its stage, above 0.15, and there are at most six |
| EnemyPatterns.EntropySign | analyze_enemy_patterns.py:133-138 | nothing under three windows; each entropy sign exactly on a change beyond 0.3 |
| EnemyPatterns.ClassifyEvolutionPriority | analyze_enemy_patterns.py:145-154 | stable exactly without signs, then defensive, settling, active with two signs or more, minor with one shift sign |
| EnemyPatterns.WindowEntropies | analyze_enemy_patterns.py:114 | one entropy per 10-move window |
| EnemyPatterns.Evolve | analyze_enemy_patterns.py:88-93 | insufficient data exactly under ten moves |
| EnemyPatterns.EvolutionShape | analyze_enemy_patterns.py:96-154 | the windows partition the moves into non-empty windows of at most 10, there are at most seven signs, and twenty moves or fewer give only shift signs |
| EnemyPatterns.CollectShiftSigns | analyze_enemy_patterns.py:120-130 | the per-move loop computes `ShiftSigns` |
| EnemyPatterns.CollectEvolutionSigns | analyze_enemy_patterns.py:117-138 | the appending steps compute the signs |
| EnemyPatterns.ClassifySigns | analyze_enemy_patterns.py:145-154 | the label chain computes `ClassifyEvolution` |
| EnemyPatterns.ClassifyEvolution | analyze_enemy_patterns.py:145-154 | stable play exactly without signs |
| EnemyPatterns.SplitThirds | analyze_enemy_patterns.py:96-99 | the early, middle and late slices at a third and two thirds of the moves concatenate back to the moves |
| EnemyPatterns.AnalyzeEnemyEvolution | analyze_enemy_patterns.py:85-176 | `analyze_enemy_evolution` computes `Evolve` |
| DeeperReactive.Assess | deeper_reactive_analysis.py:103-170 | the evidence carries the enemy and its battle count |
| DeeperReactive.EnemyEvidence | deeper_reactive_analysis.py:42-43 | an enemy is skipped exactly when it has fewer than 10 battles |
| DeeperReactive.Collected | deeper_reactive_analysis.py:32-172 | at most one evidence entry per enemy |
| DeeperReactive.PointsOfBounds | deeper_reactive_analysis.py:119-154 | every reason is worth one or two points |
| DeeperReactive.ScoreMatchesReasons | deeper_reactive_analysis.py:119-154 | the score is the sum of the points of the listed reasons |
| DeeperReactive.ScoreBoundedByReasons | deeper_reactive_analysis.py:119-154 | the score lies between one and two points per reason, and is zero exactly without reasons |
| DeeperReactive.ReactiveIffStrongOrTwo | deeper_reactive_analysis.py:169 | `reactive_score >= 2` holds exactly with one strong sign or at least two reasons |
| DeeperReactive.SwitchExcludesRepeatAfterLoss | deeper_reactive_analysis.py:137-146 | the switch-after-loss point and a repeat-after-loss point are never both awarded |
| DeeperReactive.TalliesPartition | deeper_reactive_analysis.py:63-116 | the three reactions split the `len - 1` transitions, repeats and switches split the transitions after a loss and after a win, there are `len - 2` patterns, and the reported pattern is the most frequent |
| DeeperReactive.ReactionRatesSumToOne | deeper_reactive_analysis.py:105-107 | the counter, copy and opposite rates add up to 1 |
| DeeperReactive.PatternStep | deeper_reactive_analysis.py:98-101 | the transition into turn `i >= 2` adds the 3-move pattern ending there |
| DeeperReactive.CountReaction | deeper_reactive_analysis.py:76-81 | one step of the reaction block adds the transition's reaction to its count |
| DeeperReactive.CountPattern | deeper_reactive_analysis.py:98-101 | one step of the pattern block keeps the dict the tally of the patterns so far |
| DeeperReactive.ScanTransitions | deeper_reactive_analysis.py:63-101 | the loop leaves every counter equal to its count over the whole battle list: reactions, follow-ups after a loss and after a win, and the tally of 3-move patterns in first-seen order |
| DeeperReactive.TallyTransitions | deeper_reactive_analysis.py:46-116 | the transition loop and the `max` compute `TalliesOf` |
| DeeperReactive.TalliesOf | deeper_reactive_analysis.py:63-115 | one transition per pair of consecutive battles, and a most common pattern always exists |
| DeeperReactive.MostCommonPattern | deeper_reactive_analysis.py:115 | the `max` over the pattern dict is the first-seen most frequent 3-move pattern with its count, or nothing for an empty dict |
| DeeperReactive.Grade | deeper_reactive_analysis.py:123-128 | a two-threshold step awards its points and its reason |
| DeeperReactive.Check | deeper_reactive_analysis.py:144-146 | a one-threshold step awards its point and its reason |
| DeeperReactive.ScoreOf | deeper_reactive_analysis.py:119-154 | the score is at most 9 |
| DeeperReactive.ReasonsOf | deeper_reactive_analysis.py:119-154 | at most one reason per scoring step, so at most six |
| DeeperReactive.ScoreEnemy | deeper_reactive_analysis.py:103-170 | the scoring steps compute `Assess` |
| DeeperReactive.AnalyseEnemy | deeper_reactive_analysis.py:39-172 | the body of the enemy loop computes `EnemyEvidence` |
| DeeperReactive.CollectEnemy | deeper_reactive_analysis.py:39-172 | one pass of the enemy loop appends the enemy's evidence, or nothing for a skipped enemy, so the list stays the evidence of the enemies seen so far |
| DeeperReactive.RankEnemies | deeper_reactive_analysis.py:30-175 | the enemy loop and the stable sort compute the ranking |
| DeeperReactive.RankingIsSortedPermutation | deeper_reactive_analysis.py:175 | the ranking is a permutation of the collected evidence, ordered by non-increasing score, of enemies with at least 10 battles |
| DeeperReactive.CollectedOnlyLongHistories | deeper_reactive_analysis.py:42-43 | only enemies with at least 10 battles are collected |
| DetailedStatistics.ReactionRatesBounded | detailed_statistics_analysis.py:52-79 | an enemy with two battles or more is analysed; both rates are over the `len - 1` transitions, lie in [0, 1] and add up to at most 1 |
| DetailedStatistics.PostLossPartition | detailed_statistics_analysis.py:82-93 | repeats, switches to the counter and other switches add up to the transitions after a recorded loss |
| DetailedStatistics.ReactiveIffRates | detailed_statistics_analysis.py:96-98 | `is_reactive` is the threshold test on the rates as the script divides them |
| DetailedStatistics.CountCounterCopy | detailed_statistics_analysis.py:56-73 | the loop counts counter and copy hits and the `len - 1` transitions |
| DetailedStatistics.CountPostLossStep | detailed_statistics_analysis.py:83-93 | one step of the post-loss loop keeps the counts equal to the follow-ups so far |
| DetailedStatistics.CountPostLoss | detailed_statistics_analysis.py:82-93 | the post-loss loop computes `PostLossOf` |
| DetailedStatistics.AnalyseReactivity | detailed_statistics_analysis.py:50-106 | the body of the reactive block computes `ReactivityOf` |
| DetailedStatistics.ReactivityOf | detailed_statistics_analysis.py:52-79 | an enemy is skipped exactly below 2 battles; otherwise both rates are over the `len(battles) - 1` transitions |
| DetailedStatistics.Reactivities | detailed_statistics_analysis.py:42-53 | at most one result per enemy |
| DetailedStatistics.ReactiveEntries | detailed_statistics_analysis.py:100-106 | at most one reactive entry per analysed enemy |
| DetailedStatistics.RepeatRates | detailed_statistics_analysis.py:121-125 | at most one repeat rate per analysed enemy |
| DetailedStatistics.ReactiveEntriesSound | detailed_statistics_analysis.py:96-106 | every reactive entry is an enemy of the query with two battles or more whose counter or copy rate exceeds 0.35 or whose repeat share exceeds 0.4 |
| DetailedStatistics.RepeatRatesBounded | detailed_statistics_analysis.py:121-125 | every kept repeat rate has more than five losses under it and lies in [0, 1] |
| DetailedStatistics.ReactiveBlock | detailed_statistics_analysis.py:42-125 | the enemy loop and the repeat-rate loop compute the analysed enemies, the reactive entries and the repeat rates |
| DetailedStatistics.ChangesBetween | detailed_statistics_analysis.py:165-169 | the three changes, in the loop's order, are the absolute share changes |
| DetailedStatistics.ShareChanges | detailed_statistics_analysis.py:154-169 | the same over the first and last third of an enemy |
| DetailedStatistics.FirstAbove | detailed_statistics_analysis.py:171-174 | the first position with a change over 0.15, or none |
| DetailedStatistics.ThirdsShiftFirstAbove | detailed_statistics_analysis.py:150-174 | with 20 battles both thirds are non-empty; the loop breaks at the first move whose share changed by more than 0.15, having appended the changes up to it, and appends all three exactly when no move changed that much |
| DetailedStatistics.ScanMoves | detailed_statistics_analysis.py:165-174 | the move loop computes `ShiftOf` |
| DetailedStatistics.CheckThirds | detailed_statistics_analysis.py:148-174 | the evolution block for one enemy computes `ThirdsShift` |
| DetailedStatistics.ShiftsCountEnemies | detailed_statistics_analysis.py:171-174 | `enemies_with_shifts` counts the enemies with a shift in some move, at most one each |
| DetailedStatistics.ThirdsShift | detailed_statistics_analysis.py:150-174 | an enemy is skipped exactly below 20 battles; otherwise between one and three moves are compared |
| DetailedStatistics.CountShift | detailed_statistics_analysis.py:148-174 | one enemy's contribution is `AddShift` |
| DetailedStatistics.ShiftBlock | detailed_statistics_analysis.py:136-174 | the loop over `enemies[:10]` computes the totals, with at most 10 shifts |
| DetailedStatistics.LossRate | detailed_statistics_analysis.py:207-211 | a half's recorded-loss rate lies in [0, 1] |
| DetailedStatistics.PerformanceChange | detailed_statistics_analysis.py:204-213 | the change lies in [-1, 1] |
| DetailedStatistics.TrendOf | detailed_statistics_analysis.py:216-219 | improving exactly above 0.1, declining exactly below -0.1, steady otherwise |
| DetailedStatistics.TrendTotalsCount | detailed_statistics_analysis.py:186-224 | one change per enemy with 20 battles, each in [-1, 1]; the improving and declining counts are the changes above 0.1 and below -0.1, never together more than the enemies |
| DetailedStatistics.CountTrend | detailed_statistics_analysis.py:198-219 | one enemy's contribution is `AddTrend` |
| DetailedStatistics.TrendTotals | detailed_statistics_analysis.py:186-219 | at most one change per enemy, and the improving and declining counts together are at most the number of changes |
| DetailedStatistics.TrendBlock | detailed_statistics_analysis.py:186-219 | the trend loop computes `TrendTotals` |
| DetailedStatistics.Runs | detailed_statistics_analysis.py:244-263 | the runs of consecutive rows of one enemy: none exactly for no rows, each non-empty, the last ending with the last row's move |
| DetailedStatistics.GramsOfRunsSnoc | detailed_statistics_analysis.py:250-258 | appending a run appends its n-grams |
| DetailedStatistics.RunsStep | detailed_statistics_analysis.py:247-263 | a row of the same enemy extends the last run and any other row starts a new one |
| DetailedStatistics.RunPairsAreSameEnemyPairs | detailed_statistics_analysis.py:244-263 | the 2-grams of the runs are exactly the pairs of consecutive rows of one enemy |
| DetailedStatistics.AsWrittenMissesLastRun | detailed_statistics_analysis.py:247-263 | the loop as written misses exactly the sequences of the last run |
| DetailedStatistics.SingleEnemyNeverTallied | detailed_statistics_analysis.py:247-263 | two rows of one enemy give one 2-move sequence, which the loop as written never tallies |
| DetailedStatistics.CycleKeysDisjoint | detailed_statistics_analysis.py:270-271 | the six cycle keys count disjoint items |
| DetailedStatistics.CyclesWithinTotal | detailed_statistics_analysis.py:270-271 | the two cycle counts together never exceed the tallied sequences |
| DetailedStatistics.TotalIsSumOfCounts | detailed_statistics_analysis.py:253-254 | `total_sequences` is the sum of the 2-move counts |
| DetailedStatistics.AddRunGrams | detailed_statistics_analysis.py:251-258 | the loop adds one run's n-grams to the tally and counts them |
| DetailedStatistics.FlushRun | detailed_statistics_analysis.py:250-258 | processing one enemy's sequence adds its 2-grams and 3-grams |
| DetailedStatistics.RunsEndWithPending | detailed_statistics_analysis.py:244-263 | the runs are the flushed runs followed by the pending one |
| DetailedStatistics.FlushedStep | detailed_statistics_analysis.py:247-263 | a row of the same enemy extends the pending run, and a row of another enemy flushes it |
| DetailedStatistics.ScanRow | detailed_statistics_analysis.py:248-263 | one row of the loop keeps the tallies equal to the flushed runs |
| DetailedStatistics.ScanRows | detailed_statistics_analysis.py:244-263 | the loop tallies the flushed runs and leaves the last run pending |
| DetailedStatistics.SequencePassAsWritten | detailed_statistics_analysis.py:233-263 | the pass as written tallies only the flushed runs |
| DetailedStatistics.SequencePass | detailed_statistics_analysis.py:233-271 | the corrected pass tallies every run; `total_sequences` counts the pairs of consecutive rows of one enemy, is the sum of the 2-move counts, and bounds the two cycle counts |
| DetectionSimulation.Delay | simulate_detection_effectiveness.py:140 | `max(0, 10 - i)` is at most 10, zero exactly from battle 10, and at most 3 exactly from battle 7 |
| DetectionSimulation.Respond | simulate_detection_effectiveness.py:51-79 | a fixed opponent plays its pattern, and a repeater plays its random pick unless the last recorded outcome is the trigger and it plays its own last move again |
| DetectionSimulation.EnemyMoveAsWritten | simulate_detection_effectiveness.py:71-75 | as written, a repeater plays anything but its random pick only after a recorded `'loss'`, which is its own win |
| DetectionSimulation.EnemyMove | simulate_detection_effectiveness.py:71-75 | the corrected repeater repeats only after our recorded `'win'`; every other profile plays as written |
| DetectionSimulation.DetectionMove | simulate_detection_effectiveness.py:81-111 | random play while the delay is above 3; against a repeater, anything but the random pick only after our recorded `'win'` |
| DetectionSimulation.BattleWith | simulate_detection_effectiveness.py:140-149 | one battle with detection: its outcome is `get_result` of the two moves, and our move is the random pick before battle 7 |
| DetectionSimulation.BattleWithout | simulate_detection_effectiveness.py:123-130 | one battle without detection: our move is the random pick and the outcome is `get_result` of the two moves |
| DetectionSimulation.PlayedWith | simulate_detection_effectiveness.py:138-149 | one battle per draw; the outcome after which the repeater repeats is a parameter, `Loss` as written at line 73 |
| DetectionSimulation.PlayedWithout | simulate_detection_effectiveness.py:122-130 | one battle per draw; the outcome after which the repeater repeats is a parameter, `Loss` as written at line 73 |
| DetectionSimulation.ResultsOf | simulate_detection_effectiveness.py:126 | every battle is counted once, and all battles are wins when the wins are all battles |
| DetectionSimulation.SurvivalRate | simulate_detection_effectiveness.py:153-165 | nothing exactly for no battles; otherwise both scores lie in [0, 100], the weighted score never exceeds the survival rate, and survival is 100 exactly without a loss |
| DetectionSimulation.SurvivalBounds | simulate_detection_effectiveness.py:162-163 | the arithmetic of the two scores for `w` wins and `t` ties among `n` battles |
| DetectionSimulation.DetectionAnswers | simulate_detection_effectiveness.py:55-101 | a fixed profile plays its pattern and is beaten once the delay is at most 3; a copier or counterer taking its pattern branch is beaten once the delay is 0; for either repeater trigger |
| DetectionSimulation.PlayedWithAt | simulate_detection_effectiveness.py:138-149 | battle `i` is played from the state battle `i - 1` left |
| DetectionSimulation.FixedWinsFromBattleSeven | simulate_detection_effectiveness.py:86-88 | against a fixed profile every battle from battle 7 on is a win, for either repeater trigger |
| DetectionSimulation.ReactiveProfilesBeaten | simulate_detection_effectiveness.py:90-101 | from battle 10 on, every battle in which a copier or counterer takes its pattern branch is a win, for either repeater trigger |
| DetectionSimulation.RepeaterBeatenAfterWin | simulate_detection_effectiveness.py:103-107 | with the corrected repeater, from battle 10 on a battle after a win in which it repeats is a win again |
| DetectionSimulation.CertainRepeaterLockedIn | simulate_detection_effectiveness.py:103-107 | a corrected repeater that always repeats is beaten in every battle after a win from battle 9 on |
| DetectionSimulation.AsWrittenRepeatNeverAnswered | simulate_detection_effectiveness.py:73 | as written, whenever the repeater repeats, the detection plays its random pick instead of the counter |
| DetectionSimulation.AsWrittenRepeatTies | simulate_detection_effectiveness.py:73 | one battle in which the repeater as written repeats rock and the detection ties |
| DetectionSimulation.AsWrittenLoopRepeatUnanswered | simulate_detection_effectiveness.py:138-149 | in the loop as written, after a recorded `'loss'` a repeat is never answered: the repeater plays its last move again and we play our random pick |
| DetectionSimulation.AsWrittenLoopDiffers | simulate_detection_effectiveness.py:73 | two draws on which the loop without detection as written (a loss, then a tie) and the corrected loop (two losses) part company: after a recorded `'loss'` the repeater plays rock again instead of its pick paper |
| DetectionSimulation.PlayedSnoc | simulate_detection_effectiveness.py:122-149 | each loop's battles extend by one battle per pass |
| DetectionSimulation.PlayBattle | simulate_detection_effectiveness.py:140-144 | one pass of the loop with detection computes `BattleWith`, for the given repeater trigger |
| DetectionSimulation.SimulateWith | simulate_detection_effectiveness.py:133-149 | the loop with detection computes the results of `PlayedWith` for the given repeater trigger |
| DetectionSimulation.SimulateWithout | simulate_detection_effectiveness.py:117-130 | the loop without detection computes the results of `PlayedWithout` for the given repeater trigger |
| DetectionSimulation.SimulateBattles | simulate_detection_effectiveness.py:113-151 | both loops as the script runs them, with the repeater repeating after a recorded `'loss'`; each counts the same number of battles |
| RealisticPerformance.Quality | realistic_performance_test.py:56 | the confidence lies in [0, 1] and is full exactly from battle 20 |
| RealisticPerformance.Others | realistic_performance_test.py:59-60 | the two moves other than the optimal one |
| RealisticPerformance.ImperfectDetection | realistic_performance_test.py:51-93 | the detector plays anything but its random pick only when the confidence and misclassification rolls let it exploit |
| RealisticPerformance.RealisticEnemy | realistic_performance_test.py:20-49 | the realistic opponent plays anything but its random pick only outside its 20% noise |
| RealisticPerformance.Reduced | realistic_performance_test.py:34-46 | a counterer or copier keeps its kind and acts at a rate between 0 and its claimed rate; any other profile is unchanged |
| RealisticPerformance.FullConfidenceFromBattleTwenty | realistic_performance_test.py:56-70 | from battle 20 only the misclassification roll keeps the detector from exploiting |
| RealisticPerformance.NoConfidenceAtFirstBattle | realistic_performance_test.py:63-65 | before any battle every positive confidence roll leaves the detector at random |
| RealisticPerformance.FixedPatternExploit | realistic_performance_test.py:73-79 | against a fixed pattern the exploit plays its counter with the weapon, and otherwise never plays it and never wins |
| RealisticPerformance.ReactiveExploits | realistic_performance_test.py:81-91 | the copier exploit beats a copy of our last move and the counter exploit beats the counter of it |
| RealisticPerformance.NoisyReducedOpponent | realistic_performance_test.py:20-49 | outside its 20% noise the realistic counterer or copier is the simulated opponent at 0.8 or 0.75 of its rate |
| RealisticPerformance.PatternOrPick | realistic_performance_test.py:20-49 | the realistic opponent plays its pattern branch or its random pick |

## Left out

- The SQLite queries and the console output of every `main` (for example analyze_enemy_behavior.py:201-336, analyze_enemy_patterns.py:178-315, analyze_enemy_adaptation.py:130-248, deeper_reactive_analysis.py:10-40 and 175-227): they are I/O. The model takes each query's result as an ordered list of turns (or of `EnemyBattles`), so the `HAVING`, `ORDER BY` and `LIMIT 1000` clauses are assumed to have produced that list.
- `calculate_entropy` (analyze_enemy_behavior.py:12-18 and its copies): it uses `math.log2` on floats, so it is a function parameter `entropy: Dist -> real`. Its thresholds are kept as written.
- `stats.binom_test` (test_robust_detection.py:63, 74): a library call, so its p-value is a parameter `binomP(count, n)`.
- `statistics.mean`, `median`, `stdev` and the `math.sqrt` confidence interval (detailed_statistics_analysis.py:112-118 and 297-306, deeper_reactive_analysis.py:206-216): float summaries for the report only.
- Floating point: rates are exact reals, and a threshold `a / b > t` is stated as `a > t * b`, a lemma proving the two tests agree. Rounding of the float division is not modelled.
- Tags and messages: the formatted strings (`f'counters_our_moves_{rate:.1%}'`, `"a->b"` dict keys and so on) are datatypes that carry the values they format. Substring tests such as `'becoming_unpredictable' in str(signs)` are membership tests. Move names are prefix-free, so each string key maps to exactly one datatype key.
- Invalid move tokens: `Move` is a closed type, so the `KeyError` a lookup such as `counter[our_prev]` could raise does not arise.
- Random draws: every `random.random()` and `random.choice` is a field of a draws record passed in. The order in which the source consumes its generator, and which draws a branch skips, are not modelled.
- The random opponents used only to produce test data are not part of this model: `simulate_enemy` in test_robust_detection.py:131-163, `generate_enemy_with_pattern` in test_markov_orders.py:8-45, and the `random.shuffle` of test_robust_detection.py:195. `test_detectors` takes the trials (battles and whether the type has a real pattern) as input.
- The simulation loop `simulate_realistic` (realistic_performance_test.py:95-147) and the aggregating `main` of both simulators are not modelled; their single-battle rules are.
- The empirical claims of the scripts (false-positive rates, detection percentages, survival gains) are statistical and are not stated.
- `battle_count` from the grouping query (deeper_reactive_analysis.py:32, 159) is taken to equal the number of turns that enemy's own query returns.
- `calculate_survival_rate` returns a bare `0` for no battles and a pair otherwise. The model returns `NoBattles` instead of the `0`.
- The accuracy at test_robust_detection.py:272 has no zero guard. `MetricsOf` returns `None` where the source would raise `ZeroDivisionError`.
- `enemy_id`, `battle_num` and the turn numbers are carried or ignored exactly as the source uses them and are never checked.

## Findings

| source | as written | input that shows it | evidently intended | confidence | as-written member | corrected member |
|---|---|---|---|---|---|---|
| detailed_statistics_analysis.py:247-263 | an enemy's run of moves is tallied only when the first row of the next enemy arrives, and nothing flushes the run pending when the rows end, so the last enemy's 2-move and 3-move sequences are never counted (`AsWrittenMissesLastRun`) | the rows (1, rock), (1, paper): the one 2-move sequence rock-paper is never tallied and `total_sequences` stays 0 (`SingleEnemyNeverTallied`) | tally the pending run after the loop too, so that `total_sequences` counts every pair of consecutive rows of one enemy | high; not executed | DetailedStatistics.SequencePassAsWritten | DetailedStatistics.SequencePass |
| simulate_detection_effectiveness.py:73 | the `loss_repeater` repeats when `last_result == 'loss'`, but `get_result` records the outcome from our side, so it repeats after its own win. `detection_system_move` answers a repeat only after our `'win'` (line 105), so it never meets one (`AsWrittenRepeatNeverAnswered`) | previous battle: ours scissor, theirs rock, recorded loss; the repeat roll is under the rate and our random pick is rock. The repeater plays rock again, the detection plays its random pick rock, and the battle is a tie (`AsWrittenRepeatTies`) | the repeater repeats after its own loss, our `'win'` (`EnemyMove`), which the detection then beats from battle 10 on (`RepeaterBeatenAfterWin`, `CertainRepeaterLockedIn`). The battle loops take the trigger as a parameter: `SimulateBattles` runs the script as written, and `AsWrittenLoopDiffers` shows the two loops part company | medium; not executed | DetectionSimulation.AsWrittenRepeatTies | DetectionSimulation.RepeaterBeatenAfterWin |
