/**
 * test_robust_detection.py: the statistically tested `RobustDetector`, the
 * threshold-only `OverfittedDetector`, the confusion tally of
 * `test_detectors` and the precision / recall / F1 / accuracy / false
 * positive rate report.
 *
 * The binomial test is a parameter `binomP(k, n)`: the one-sided p-value of
 * `k` successes in `n` trials of probability 1/3 (scipy is not modelled).
 */
module RobustDetection {

  import opened Wrappers
  import opened Moves
  import opened Tally
  import opened Distributions
  import opened Transitions

  /** The dict a detector returns. */
  datatype Detection =
    | Bias(move: Move, confidence: real, detectedAt: nat)
    | CounterFound(rate: real, confidence: real, detectedAt: nat)
    | CopierFound(rate: real, confidence: real, detectedAt: nat)

  const MinSamples: nat := 15
  const Significance: real := 0.05
  /** Chi-square critical value for p = 0.05 with two degrees of freedom. */
  const ChiSquareCritical: real := 5.991
  const MinReactiveSamples: nat := 20

  const OverfittedMinSamples: nat := 5
  const OverfittedMinReactiveSamples: nat := 10

  function Min(a: real, b: real): (m: real)
    ensures m <= a && m <= b && (m == a || m == b)
  {
    if a <= b then a else b
  }

  /** One move's term `(count - expected)**2 / expected` of Pearson's statistic. */
  function Deviation(count: nat, expected: real): real
    requires expected > 0.0
  {
    (count as real - expected) * (count as real - expected) / expected
  }

  /** Pearson's statistic of three counts against a uniform expectation of `n / 3` each. */
  function PearsonUniform(r: nat, p: nat, s: nat, n: nat): real
    requires n > 0
  {
    var e := n as real / 3.0;
    Deviation(r, e) + Deviation(p, e) + Deviation(s, e)
  }

  function SquareInt(z: int): nat {
    z * z
  }

  /**
   * The same statistic over the integers, `sum((3 * c - n)**2) / (3 * n)`;
   * `PearsonOverIntegers` shows the two agree.
   */
  function ChiSquareOfCounts(r: nat, p: nat, s: nat, n: nat): real
    requires n > 0
  {
    (SquareInt(3 * r - n) + SquareInt(3 * p - n) + SquareInt(3 * s - n)) as real / (3 * n) as real
  }

  lemma PearsonOverIntegers(r: nat, p: nat, s: nat, n: nat)
    requires n > 0
    ensures PearsonUniform(r, p, s, n) == ChiSquareOfCounts(r, p, s, n)
  {
    DeviationOverIntegers(r, n);
    DeviationOverIntegers(p, n);
    DeviationOverIntegers(s, n);
    SumOverCommonDenominator(SquareInt(3 * r - n) as real, SquareInt(3 * p - n) as real, SquareInt(3 * s - n) as real,
                             (3 * n) as real);
  }

  /** One term of Pearson's statistic, `(c - n/3)**2 / (n/3)`, is `(3c - n)**2 / (3n)`. */
  lemma DeviationOverIntegers(c: nat, n: nat)
    requires n > 0
    ensures Deviation(c, n as real / 3.0) == SquareInt(3 * c - n) as real / (3 * n) as real
  {
    var x, m := c as real, n as real;
    var d := x - m / 3.0;
    var z := 3.0 * x - m;
    assert d == z / 3.0;
    assert SquareInt(3 * c - n) as real == z * z;
    calc {
      Deviation(c, m / 3.0);
      d * d / (m / 3.0);
      (z / 3.0) * (z / 3.0) / (m / 3.0);
      { assert (z / 3.0) * (z / 3.0) == z * z / 9.0; }
      (z * z / 9.0) / (m / 3.0);
      z * z / (3.0 * m);
    }
  }

  lemma SumOverCommonDenominator(a: real, b: real, d: real, q: real)
    requires q > 0.0
    ensures a / q + b / q + d / q == (a + b + d) / q
  {
  }

  /** The chi-square statistic of the opponent's move counts. */
  function ChiSquare(ms: seq<Move>): (x: real)
    requires |ms| > 0
    ensures x >= 0.0
  {
    ChiSquareOfCounts(CountOf(ms, Rock), CountOf(ms, Paper), CountOf(ms, Scissor), |ms|)
  }

  /**
   * `chi_square > 5.991`, with the division by `3 * n` multiplied out;
   * `SignificantIffAboveCritical` shows the two tests agree.
   */
  predicate Significant(r: nat, p: nat, s: nat, n: nat)
    ensures 3 * r == n && 3 * p == n && 3 * s == n ==> !Significant(r, p, s, n)
  {
    (SquareInt(3 * r - n) + SquareInt(3 * p - n) + SquareInt(3 * s - n)) as real > ChiSquareCritical * (3 * n) as real
  }

  lemma SignificantIffAboveCritical(r: nat, p: nat, s: nat, n: nat)
    requires n > 0
    ensures Significant(r, p, s, n) <==> ChiSquareOfCounts(r, p, s, n) > ChiSquareCritical
  {
    QuotientAboveCritical((SquareInt(3 * r - n) + SquareInt(3 * p - n) + SquareInt(3 * s - n)) as real, (3 * n) as real);
  }

  lemma QuotientAboveCritical(a: real, b: real)
    requires b > 0.0
    ensures a / b > ChiSquareCritical <==> a > ChiSquareCritical * b
  {
    assert a / b * b == a;
  }

  predicate BiasSignificant(ms: seq<Move>) {
    Significant(CountOf(ms, Rock), CountOf(ms, Paper), CountOf(ms, Scissor), |ms|)
  }

  lemma SquareIntZero(z: int)
    ensures SquareInt(z) == 0 <==> z == 0
  {
    if z > 0 {
      assert z * z >= z;
    } else if z < 0 {
      assert z * z >= -z;
    }
  }

  lemma QuotientSign(a: real, b: real)
    requires a >= 0.0 && b > 0.0
    ensures a / b >= 0.0
    ensures a / b == 0.0 <==> a == 0.0
  {
    assert a / b * b == a;
  }

  lemma ChiSquareOfCountsZeroIffEqual(r: nat, p: nat, s: nat, n: nat)
    requires n == r + p + s > 0
    ensures ChiSquareOfCounts(r, p, s, n) >= 0.0
    ensures ChiSquareOfCounts(r, p, s, n) == 0.0 <==> r == p == s
  {
    var a := SquareInt(3 * r - n) + SquareInt(3 * p - n) + SquareInt(3 * s - n);
    QuotientSign(a as real, (3 * n) as real);
    SquareIntZero(3 * r - n);
    SquareIntZero(3 * p - n);
    SquareIntZero(3 * s - n);
  }

  /** The statistic is never negative, and vanishes exactly when the three moves are equally frequent. */
  lemma {:induction false} ChiSquareZeroIffUniform(ms: seq<Move>)
    requires |ms| > 0
    ensures ChiSquare(ms) >= 0.0
    ensures ChiSquare(ms) == 0.0 <==> CountOf(ms, Rock) == CountOf(ms, Paper) == CountOf(ms, Scissor)
  {
    var r, p, s := CountOf(ms, Rock), CountOf(ms, Paper), CountOf(ms, Scissor);
    CountsPartition(ms);
    ChiSquareOfCountsZeroIffEqual(r, p, s, |ms|);
  }

  /** `min(0.9, count / total)`: the confidence of a robust bias detection. */
  function BiasConfidence(count: nat, total: nat): real
    requires total > 0
  {
    Min(0.9, Share(count, total))
  }

  /** A share above 45% gives a confidence in (0.45, 0.9]. */
  lemma BiasConfidenceRange(count: nat, total: nat)
    requires total > 0 && count as real > 0.45 * total as real
    ensures 0.45 < BiasConfidence(count, total) <= 0.9
  {
    ShareIffAbove(count, total, 0.45);
  }

  /**
   * The bias test of `RobustDetector.detect_pattern`, on the opponent's
   * moves. Each threshold on a share `count / total > t` is written `count >
   * t * total`, which `ShareIffAbove` shows to be the same test.
   */
  function RobustBias(ms: seq<Move>): (r: Option<Detection>)
    requires |ms| > 0
    ensures r.Some? ==> r.value.Bias? && r.value.move == MostFrequent(ms) && r.value.detectedAt == |ms|
  {
    var dominant := MostFrequent(ms);
    var count := CountOf(ms, dominant);
    if BiasSignificant(ms) && count as real > 0.45 * |ms| as real then
      Some(Bias(dominant, BiasConfidence(count, |ms|), |ms|))
    else None
  }

  /** The counter and copier tests of `RobustDetector.detect_pattern`. */
  function RobustReaction(battles: seq<Turn>, binomP: (nat, nat) -> real): (r: Option<Detection>)
    requires |battles| >= 2
    ensures r.Some? ==> !r.value.Bias? && r.value.detectedAt == |battles| && r.value.confidence == 0.7
  {
    ReactionTests(ReactionCount(battles, Countered), ReactionCount(battles, Copied), |battles|, binomP)
  }

  /** The two tests on `counters` and `copies` out of the `n - 1` transitions of `n` battles. */
  function ReactionTests(counters: nat, copies: nat, n: nat, binomP: (nat, nat) -> real): (r: Option<Detection>)
    requires n >= 2
    ensures r.Some? ==> !r.value.Bias? && r.value.detectedAt == n && r.value.confidence == 0.7
  {
    var k := n - 1;
    if counters as real > k as real / 3.0 && binomP(counters, k) < Significance then
      Some(CounterFound(Share(counters, k), 0.7, n))
    else if copies as real > k as real / 3.0 && binomP(copies, k) < Significance then
      Some(CopierFound(Share(copies, k), 0.7, n))
    else None
  }

  /** `RobustDetector.detect_pattern`: the bias test first, then the reaction tests. */
  function RobustDecision(battles: seq<Turn>, binomP: (nat, nat) -> real): (r: Option<Detection>)
    ensures |battles| < MinSamples ==> r == None
    ensures r.Some? ==> r.value.detectedAt == |battles|
    ensures r.Some? && !r.value.Bias? ==> |battles| >= MinReactiveSamples
  {
    var n := |battles|;
    if n < MinSamples then None
    else
      var bias := RobustBias(TheirMoves(battles));
      if bias.Some? then bias
      else if n >= MinReactiveSamples then RobustReaction(battles, binomP)
      else None
  }

  /**
   * A robust bias is reported exactly when the chi-square statistic exceeds
   * the critical value and the most frequent move holds more than 45% of the
   * moves; its confidence then lies in (0.45, 0.9].
   */
  lemma {:induction false} RobustBiasIsSignificant(ms: seq<Move>)
    requires |ms| > 0
    ensures RobustBias(ms).Some? <==>
              ChiSquare(ms) > ChiSquareCritical && CountOf(ms, MostFrequent(ms)) as real > 0.45 * |ms| as real
    ensures RobustBias(ms).Some? ==> 0.45 < RobustBias(ms).value.confidence <= 0.9
  {
    var c := CountOf(ms, MostFrequent(ms));
    SignificantIffAboveCritical(CountOf(ms, Rock), CountOf(ms, Paper), CountOf(ms, Scissor), |ms|);
    if c as real > 0.45 * |ms| as real {
      BiasConfidenceRange(c, |ms|);
    }
  }

  /** The robust detector never reports a bias on equally frequent moves. */
  lemma {:induction false} RobustNoBiasOnUniform(ms: seq<Move>)
    requires |ms| > 0 && CountOf(ms, Rock) == CountOf(ms, Paper) == CountOf(ms, Scissor)
    ensures RobustBias(ms) == None
  {
    ChiSquareZeroIffUniform(ms);
    SignificantIffAboveCritical(CountOf(ms, Rock), CountOf(ms, Paper), CountOf(ms, Scissor), |ms|);
  }

  /**
   * The checks run in a fixed order: a bias that passes is returned before
   * any reactive test, and a reactive detection is reported only with at
   * least 20 battles and no passing bias.
   */
  lemma RobustCheckOrder(battles: seq<Turn>, binomP: (nat, nat) -> real)
    ensures |battles| >= MinSamples && RobustBias(TheirMoves(battles)).Some? ==>
              RobustDecision(battles, binomP) == RobustBias(TheirMoves(battles))
    ensures RobustDecision(battles, binomP).Some? && !RobustDecision(battles, binomP).value.Bias? ==>
              |battles| >= MinReactiveSamples && RobustBias(TheirMoves(battles)).None?
              && RobustDecision(battles, binomP) == RobustReaction(battles, binomP)
  {
  }

  /** A counter detection has a significant counter rate above 1/3 of the `n - 1` transitions. */
  lemma RobustCounterIsSignificant(counters: nat, copies: nat, n: nat, binomP: (nat, nat) -> real)
    requires n >= 2
    ensures var r := ReactionTests(counters, copies, n, binomP);
            r.Some? && r.value.CounterFound? ==>
              r.value.rate == Share(counters, n - 1) && r.value.rate > 1.0 / 3.0 && binomP(counters, n - 1) < Significance
  {
    if counters as real > (n - 1) as real / 3.0 {
      ShareAbove(counters, n - 1, 1.0 / 3.0);
    }
  }

  /** A copier detection has a significant copy rate above 1/3, and only when the counter test failed. */
  lemma RobustCopierIsSignificant(counters: nat, copies: nat, n: nat, binomP: (nat, nat) -> real)
    requires n >= 2
    ensures var r, k := ReactionTests(counters, copies, n, binomP), n - 1;
            r.Some? && r.value.CopierFound? ==>
              r.value.rate == Share(copies, k) && r.value.rate > 1.0 / 3.0 && binomP(copies, k) < Significance
              && !(counters as real > k as real / 3.0 && binomP(counters, k) < Significance)
  {
    if copies as real > (n - 1) as real / 3.0 {
      ShareAbove(copies, n - 1, 1.0 / 3.0);
    }
  }

  /** The bias test of `OverfittedDetector.detect_pattern`: a bare 40% threshold. */
  function OverfittedBias(ms: seq<Move>): (r: Option<Detection>)
    requires |ms| > 0
    ensures r.Some? ==> r.value.Bias? && r.value.move == MostFrequent(ms) && r.value.detectedAt == |ms|
  {
    var dominant := MostFrequent(ms);
    var count := CountOf(ms, dominant);
    if count as real > 0.4 * |ms| as real then Some(Bias(dominant, Share(count, |ms|), |ms|)) else None
  }

  /** The counter test of `OverfittedDetector.detect_pattern`: a bare 35% threshold. */
  function OverfittedCounter(battles: seq<Turn>): (r: Option<Detection>)
    requires |battles| >= 2
    ensures r.Some? ==> r.value.CounterFound? && r.value.detectedAt == |battles| && r.value.confidence == 0.8
  {
    var k := |battles| - 1;
    var counters := ReactionCount(battles, Countered);
    if counters as real > 0.35 * k as real then Some(CounterFound(Share(counters, k), 0.8, |battles|)) else None
  }

  /** `OverfittedDetector.detect_pattern`. */
  function OverfittedDecision(battles: seq<Turn>): (r: Option<Detection>)
    ensures |battles| < OverfittedMinSamples ==> r == None
    ensures r.Some? ==> r.value.detectedAt == |battles| && !r.value.CopierFound?
    ensures r.Some? && r.value.CounterFound? ==> |battles| >= OverfittedMinReactiveSamples
  {
    var n := |battles|;
    if n < OverfittedMinSamples then None
    else
      var bias := OverfittedBias(TheirMoves(battles));
      if bias.Some? then bias
      else if n >= OverfittedMinReactiveSamples then OverfittedCounter(battles)
      else None
  }

  /**
   * Whatever bias the robust detector reports, the overfitted one reports
   * too, on the same move and with at least the same confidence.
   */
  lemma {:induction false} RobustBiasImpliesOverfittedBias(battles: seq<Turn>, binomP: (nat, nat) -> real)
    requires RobustDecision(battles, binomP).Some? && RobustDecision(battles, binomP).value.Bias?
    ensures OverfittedDecision(battles).Some? && OverfittedDecision(battles).value.Bias?
    ensures OverfittedDecision(battles).value.move == RobustDecision(battles, binomP).value.move
    ensures OverfittedDecision(battles).value.confidence >= RobustDecision(battles, binomP).value.confidence
  {
    var ms := TheirMoves(battles);
    assert RobustBias(ms).Some?;
  }

  /** `chi_square > 5.991` on three counts, computed term by term as the source does. */
  method ChiSquareTest(r: nat, p: nat, s: nat, n: nat) returns (significant: bool)
    requires n > 0
    ensures significant == Significant(r, p, s, n)
  {
    var e := n as real / 3.0;
    var chi := Deviation(r, e) + Deviation(p, e) + Deviation(s, e);
    PearsonOverIntegers(r, p, s, n);
    SignificantIffAboveCritical(r, p, s, n);
    significant := chi > ChiSquareCritical;
  }

  /** The bias half of `RobustDetector.detect_pattern`: the tally loop, the chi-square test and the share test. */
  method RobustBiasTest(ms: seq<Move>) returns (r: Option<Detection>)
    requires |ms| > 0
    ensures r == RobustBias(ms)
  {
    var n := |ms|;
    var counts, order := TallyKeys(ms);
    var rocks, papers, scissors := CountIn(counts, Rock), CountIn(counts, Paper), CountIn(counts, Scissor);
    assert rocks == CountOf(ms, Rock) && papers == CountOf(ms, Paper) && scissors == CountOf(ms, Scissor);
    var significant := ChiSquareTest(rocks, papers, scissors, n);
    if significant {
      var dominant := MostFrequentScan(ms, order, counts);
      if counts[dominant] as real > 0.45 * n as real {
        return Some(Bias(dominant, BiasConfidence(counts[dominant], n), n));
      }
    }
    return None;
  }

  /** The reactive half of `RobustDetector.detect_pattern`: the transition loop and the two binomial tests. */
  method RobustReactionTest(battles: seq<Turn>, binomP: (nat, nat) -> real) returns (r: Option<Detection>)
    requires |battles| >= 2
    ensures r == RobustReaction(battles, binomP)
  {
    var n := |battles|;
    var counters, copies, _ := CountReactions(battles);
    var k := n - 1;
    assert RobustReaction(battles, binomP) == ReactionTests(counters, copies, n, binomP);
    if counters as real > k as real / 3.0 && binomP(counters, k) < Significance {
      return Some(CounterFound(Share(counters, k), 0.7, n));
    }
    if copies as real > k as real / 3.0 && binomP(copies, k) < Significance {
      return Some(CopierFound(Share(copies, k), 0.7, n));
    }
    return None;
  }

  /** `RobustDetector.detect_pattern`. */
  method DetectRobust(battles: seq<Turn>, binomP: (nat, nat) -> real) returns (r: Option<Detection>)
    ensures r == RobustDecision(battles, binomP)
  {
    if |battles| < MinSamples {
      return None;
    }
    r := RobustBiasTest(TheirMoves(battles));
    if r.None? && |battles| >= MinReactiveSamples {
      r := RobustReactionTest(battles, binomP);
    }
  }

  /** The bias half of `OverfittedDetector.detect_pattern`: the tally loop and a bare share test. */
  method OverfittedBiasTest(ms: seq<Move>) returns (r: Option<Detection>)
    requires |ms| > 0
    ensures r == OverfittedBias(ms)
  {
    var n := |ms|;
    var counts, order := TallyKeys(ms);
    var dominant := MostFrequentScan(ms, order, counts);
    if counts[dominant] as real > 0.4 * n as real {
      return Some(Bias(dominant, Share(counts[dominant], n), n));
    }
    return None;
  }

  /** The counter half of `OverfittedDetector.detect_pattern`: the transition loop and a bare rate test. */
  method OverfittedCounterTest(battles: seq<Turn>) returns (r: Option<Detection>)
    requires |battles| >= 2
    ensures r == OverfittedCounter(battles)
  {
    var n := |battles|;
    var counters, _, _ := CountReactions(battles);
    if counters as real > 0.35 * (n - 1) as real {
      return Some(CounterFound(Share(counters, n - 1), 0.8, n));
    }
    return None;
  }

  /** `OverfittedDetector.detect_pattern`. */
  method DetectOverfitted(battles: seq<Turn>) returns (r: Option<Detection>)
    ensures r == OverfittedDecision(battles)
  {
    if |battles| < OverfittedMinSamples {
      return None;
    }
    r := OverfittedBiasTest(TheirMoves(battles));
    if r.None? && |battles| >= OverfittedMinReactiveSamples {
      r := OverfittedCounterTest(battles);
    }
  }

  /** `counts[m]` on a defaultdict. */
  function CountIn(counts: map<Move, nat>, m: Move): nat {
    if m in counts then counts[m] else 0
  }

  /** The per-detector record of `test_detectors`. */
  datatype Scorecard = Scorecard(
    truePositives: nat, falsePositives: nat, trueNegatives: nat, falseNegatives: nat,
    detectionBattles: seq<nat>, confidenceWhenCorrect: seq<real>, confidenceWhenWrong: seq<real>)

  const EmptyScorecard := Scorecard(0, 0, 0, 0, [], [], [])

  /** One test enemy: its simulated battles and whether its type has a real pattern. */
  datatype Trial = Trial(battles: seq<Turn>, truePattern: bool)

  /** One detector's answer on one trial. */
  datatype Run = Run(detection: Option<Detection>, truePattern: bool)

  /** Scoring one run into the record: exactly the run's cell goes up by one, and a detection logs its battle count and confidence. */
  function Score(c: Scorecard, run: Run): (r: Scorecard)
    ensures r.truePositives == c.truePositives + (if run.detection.Some? && run.truePattern then 1 else 0)
    ensures r.falsePositives == c.falsePositives + (if run.detection.Some? && !run.truePattern then 1 else 0)
    ensures r.trueNegatives == c.trueNegatives + (if run.detection.None? && !run.truePattern then 1 else 0)
    ensures r.falseNegatives == c.falseNegatives + (if run.detection.None? && run.truePattern then 1 else 0)
    ensures r.truePositives + r.falsePositives + r.trueNegatives + r.falseNegatives
         == c.truePositives + c.falsePositives + c.trueNegatives + c.falseNegatives + 1
    ensures |r.detectionBattles| == |c.detectionBattles| + (if run.detection.Some? then 1 else 0)
    ensures run.truePattern ==> r.falsePositives == c.falsePositives && r.trueNegatives == c.trueNegatives
    ensures r.detectionBattles == c.detectionBattles + (if run.detection.Some? then [run.detection.value.detectedAt] else [])
    ensures r.confidenceWhenCorrect
         == c.confidenceWhenCorrect + (if run.detection.Some? && run.truePattern then [run.detection.value.confidence] else [])
    ensures r.confidenceWhenWrong
         == c.confidenceWhenWrong + (if run.detection.Some? && !run.truePattern then [run.detection.value.confidence] else [])
  {
    match run.detection
    case Some(d) =>
      if run.truePattern then
        c.(truePositives := c.truePositives + 1,
           confidenceWhenCorrect := c.confidenceWhenCorrect + [d.confidence],
           detectionBattles := c.detectionBattles + [d.detectedAt])
      else
        c.(falsePositives := c.falsePositives + 1,
           confidenceWhenWrong := c.confidenceWhenWrong + [d.confidence],
           detectionBattles := c.detectionBattles + [d.detectedAt])
    case None =>
      if run.truePattern then c.(falseNegatives := c.falseNegatives + 1)
      else c.(trueNegatives := c.trueNegatives + 1)
  }

  /** Number of runs that detected something. */
  function Detected(runs: seq<Run>): (n: nat)
    ensures n <= |runs|
  {
    if runs == [] then 0 else Detected(runs[..|runs| - 1]) + (if runs[|runs| - 1].detection.Some? then 1 else 0)
  }

  /** Number of runs whose enemy had a real pattern. */
  function Patterned(runs: seq<Run>): (n: nat)
    ensures n <= |runs|
  {
    if runs == [] then 0 else Patterned(runs[..|runs| - 1]) + (if runs[|runs| - 1].truePattern then 1 else 0)
  }

  /** Number of runs that detected something (`detected`) on an enemy with a real pattern or without one (`patterned`). */
  function CountRuns(runs: seq<Run>, detected: bool, patterned: bool): (n: nat)
    ensures n <= |runs|
  {
    if runs == [] then 0
    else
      var last := runs[|runs| - 1];
      CountRuns(runs[..|runs| - 1], detected, patterned)
      + (if last.detection.Some? == detected && last.truePattern == patterned then 1 else 0)
  }

  /** The battle counts of the detections, in run order. */
  function DetectedAtOf(runs: seq<Run>): (bs: seq<nat>)
    ensures |bs| == Detected(runs)
  {
    if runs == [] then []
    else
      var last := runs[|runs| - 1];
      DetectedAtOf(runs[..|runs| - 1]) + (if last.detection.Some? then [last.detection.value.detectedAt] else [])
  }

  /** The confidences of the detections on enemies with (`patterned`) or without a real pattern, in run order. */
  function ConfidencesOf(runs: seq<Run>, patterned: bool): (cs: seq<real>)
    ensures |cs| == CountRuns(runs, true, patterned)
  {
    if runs == [] then []
    else
      var last := runs[|runs| - 1];
      ConfidencesOf(runs[..|runs| - 1], patterned)
      + (if last.detection.Some? && last.truePattern == patterned then [last.detection.value.confidence] else [])
  }

  /**
   * The record after scoring `runs` in order. Each cell counts the runs of
   * its kind, so every run lands in exactly one cell; detections are
   * exactly the positives and real patterns exactly true positives plus
   * false negatives; each detection logs its battle count, and its
   * confidence on the matching side, in run order.
   */
  function Scores(runs: seq<Run>): (c: Scorecard)
    ensures c == Scorecard(CountRuns(runs, true, true), CountRuns(runs, true, false),
                           CountRuns(runs, false, false), CountRuns(runs, false, true),
                           DetectedAtOf(runs), ConfidencesOf(runs, true), ConfidencesOf(runs, false))
    ensures c.truePositives + c.falsePositives + c.trueNegatives + c.falseNegatives == |runs|
    ensures c.truePositives + c.falsePositives == Detected(runs) == |c.detectionBattles|
    ensures c.truePositives + c.falseNegatives == Patterned(runs)
    ensures |c.confidenceWhenCorrect| == c.truePositives && |c.confidenceWhenWrong| == c.falsePositives
  {
    if runs == [] then EmptyScorecard else Score(Scores(runs[..|runs| - 1]), runs[|runs| - 1])
  }

  /** What a detector answers on each trial. */
  function RobustRuns(trials: seq<Trial>, binomP: (nat, nat) -> real): (runs: seq<Run>)
    ensures |runs| == |trials|
    ensures forall i :: 0 <= i < |trials| ==>
              runs[i] == Run(RobustDecision(trials[i].battles, binomP), trials[i].truePattern)
  {
    seq(|trials|, i requires 0 <= i < |trials| => Run(RobustDecision(trials[i].battles, binomP), trials[i].truePattern))
  }

  function OverfittedRuns(trials: seq<Trial>): (runs: seq<Run>)
    ensures |runs| == |trials|
    ensures forall i :: 0 <= i < |trials| ==> runs[i] == Run(OverfittedDecision(trials[i].battles), trials[i].truePattern)
  {
    seq(|trials|, i requires 0 <= i < |trials| => Run(OverfittedDecision(trials[i].battles), trials[i].truePattern))
  }

  /** Scoring one more run extends the scorecard of the runs before it. */
  lemma {:induction false} ScoresStep(runs: seq<Run>, i: nat)
    requires i < |runs|
    ensures Scores(runs[..i + 1]) == Score(Scores(runs[..i]), runs[i])
  {
    assert runs[..i + 1][..i] == runs[..i];
  }

  /** Before the loop no run has been scored. */
  lemma ScoresNone(runs: seq<Run>)
    ensures Scores(runs[..0]) == EmptyScorecard
  {
    assert runs[..0] == [];
  }

  /** After the loop every run has been scored. */
  lemma ScoresWhole(runs: seq<Run>)
    ensures Scores(runs[..|runs|]) == Scores(runs)
  {
    assert runs[..|runs|] == runs;
  }

  /** One pass of the loop of `test_detectors` for the robust detector: run it on trial `i` and score the answer. */
  method ScoreRobust(c: Scorecard, trials: seq<Trial>, binomP: (nat, nat) -> real, i: nat) returns (c': Scorecard)
    requires i < |trials| && c == Scores(RobustRuns(trials, binomP)[..i])
    ensures c' == Scores(RobustRuns(trials, binomP)[..i + 1])
  {
    ScoresStep(RobustRuns(trials, binomP), i);
    var d := DetectRobust(trials[i].battles, binomP);
    c' := Score(c, Run(d, trials[i].truePattern));
  }

  /** The same for the overfitted detector. */
  method ScoreOverfitted(c: Scorecard, trials: seq<Trial>, i: nat) returns (c': Scorecard)
    requires i < |trials| && c == Scores(OverfittedRuns(trials)[..i])
    ensures c' == Scores(OverfittedRuns(trials)[..i + 1])
  {
    ScoresStep(OverfittedRuns(trials), i);
    var d := DetectOverfitted(trials[i].battles);
    c' := Score(c, Run(d, trials[i].truePattern));
  }

  /** The loop of `test_detectors` over the simulated enemies, scoring both detectors. */
  method TestDetectors(trials: seq<Trial>, binomP: (nat, nat) -> real) returns (robust: Scorecard, overfitted: Scorecard)
    ensures robust == Scores(RobustRuns(trials, binomP))
    ensures overfitted == Scores(OverfittedRuns(trials))
  {
    robust, overfitted := EmptyScorecard, EmptyScorecard;
    ScoresNone(RobustRuns(trials, binomP));
    ScoresNone(OverfittedRuns(trials));
    var i := 0;
    while i < |trials|
      invariant 0 <= i <= |trials|
      invariant robust == Scores(RobustRuns(trials, binomP)[..i])
      invariant overfitted == Scores(OverfittedRuns(trials)[..i])
    {
      robust := ScoreRobust(robust, trials, binomP, i);
      overfitted := ScoreOverfitted(overfitted, trials, i);
      i := i + 1;
    }
    ScoresWhole(RobustRuns(trials, binomP));
    ScoresWhole(OverfittedRuns(trials));
  }

  /** The summary printed for each detector. Accuracy has no zero guard in the source: `None` is its ZeroDivisionError. */
  datatype Metrics = Metrics(precision: real, recall: real, f1: real, accuracy: Option<real>, falsePositiveRate: real)

  /** `a / b if b > 0 else 0`. */
  function GuardedRate(a: nat, b: nat): (r: real)
    ensures a <= b ==> 0.0 <= r <= 1.0
    ensures r == 1.0 <==> b > 0 && a == b
    ensures r == 0.0 <==> b == 0 || a == 0
  {
    if b > 0 then Share(a, b) else 0.0
  }

  /** `2 * p * r / (p + r) if (p + r) > 0 else 0`: the harmonic mean, which lies between its two inputs. */
  function F1(p: real, r: real): (f: real)
    requires 0.0 <= p && 0.0 <= r
    ensures (p <= r ==> p <= f <= r) && (r <= p ==> r <= f <= p)
    ensures f == 0.0 <==> p == 0.0 || r == 0.0
  {
    if p + r > 0.0 then
      HarmonicMeanBetween(p, r);
      2.0 * p * r / (p + r)
    else 0.0
  }

  lemma HarmonicMeanBetween(p: real, r: real)
    requires 0.0 <= p && 0.0 <= r && p + r > 0.0
    ensures p <= r ==> p <= 2.0 * p * r / (p + r) <= r
    ensures r <= p ==> r <= 2.0 * p * r / (p + r) <= p
    ensures 2.0 * p * r / (p + r) == 0.0 <==> p == 0.0 || r == 0.0
  {
    if p <= r {
      HarmonicMeanOrdered(p, r);
    } else {
      HarmonicMeanOrdered(r, p);
      assert 2.0 * p * r == 2.0 * r * p;
    }
  }

  lemma HarmonicMeanOrdered(lo: real, hi: real)
    requires 0.0 <= lo <= hi && lo + hi > 0.0
    ensures lo <= 2.0 * lo * hi / (lo + hi) <= hi
    ensures 2.0 * lo * hi / (lo + hi) == 0.0 <==> lo == 0.0
  {
    var s := lo + hi;
    var q := 2.0 * lo * hi;
    var f := q / s;
    assert f * s == q;
    ScaleLeq(lo, hi, lo);
    ScaleLeq(lo, hi, hi);
    assert q == 2.0 * (lo * hi);
    assert lo * s == lo * lo + lo * hi;
    assert hi * s == lo * hi + hi * hi;
    assert lo * lo <= lo * hi;
    assert lo * hi <= hi * hi;
    assert lo * s <= q;
    assert q <= hi * s;
    CancelFactor(lo, f, s, q);
    CancelFactor(f, hi, s, q);
  }

  lemma ScaleLeq(x: real, y: real, c: real)
    requires x <= y && 0.0 <= c
    ensures x * c <= y * c
  {
  }

  /** Dividing both sides of `x * c <= y * c` by a positive `c`, with one product named `q`. */
  lemma CancelFactor(x: real, y: real, c: real, q: real)
    requires c > 0.0 && (x * c == q <= y * c || x * c <= q == y * c)
    ensures x <= y
  {
  }

  function MetricsOf(c: Scorecard): (m: Metrics)
    ensures 0.0 <= m.precision <= 1.0 && 0.0 <= m.recall <= 1.0 && 0.0 <= m.f1 <= 1.0
    ensures 0.0 <= m.falsePositiveRate <= 1.0
    ensures m.accuracy.None? <==> c.truePositives + c.falsePositives + c.trueNegatives + c.falseNegatives == 0
    ensures m.accuracy.Some? ==> 0.0 <= m.accuracy.value <= 1.0
    ensures m.precision == 1.0 <==> c.truePositives > 0 && c.falsePositives == 0
    ensures m.falsePositiveRate == 0.0 <==> c.falsePositives == 0
  {
    var tp, fp, tn, fn := c.truePositives, c.falsePositives, c.trueNegatives, c.falseNegatives;
    var precision := GuardedRate(tp, tp + fp);
    var recall := GuardedRate(tp, tp + fn);
    var total := tp + fp + tn + fn;
    Metrics(precision, recall, F1(precision, recall),
            if total > 0 then Some(Share(tp + tn, total)) else None,
            GuardedRate(fp, fp + tn))
  }
}
