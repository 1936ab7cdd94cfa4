/**
 * The per-enemy reactive evidence of deeper_reactive_analysis.py. One pass
 * over consecutive turns tallies three things: the opponent's reaction to
 * our previous move, its follow-up after a recorded loss and after a
 * recorded win, and its 3-move patterns. A score then adds points for each
 * rate over its threshold, and the enemies are ranked by that score.
 */
module DeeperReactive {

  import opened Wrappers
  import opened Moves
  import opened Tally
  import opened Distributions
  import opened Transitions
  import opened Windows

  /** Enemies with fewer battles are skipped. */
  const MinBattles := 10

  /** What the transition loop accumulates for one enemy. */
  datatype Tallies = Tallies(
    transitions: nat,
    counters: nat, copies: nat, opposites: nat,
    losses: nat, repeatAfterLoss: nat, switchAfterLoss: nat,
    wins: nat, repeatAfterWin: nat, switchAfterWin: nat,
    top: Option<seq<Move>>, topCount: nat)

  /** One entry of `reactive_reasons`, with the rate it reports. */
  datatype Reason =
    | HighCounter(rate: Fraction)
    | ModerateCounter(rate: Fraction)
    | HighCopy(rate: Fraction)
    | ModerateCopy(rate: Fraction)
    | RepeatAfterLoss(rate: Fraction)
    | SomeRepeatAfterLoss(rate: Fraction)
    | SwitchAfterLoss(rate: Fraction)
    | RepeatAfterWin(rate: Fraction)
    | FrequentPattern(pattern: Option<seq<Move>>, rate: Fraction)

  /** The `evidence` dict of one enemy; each rate is reported as `Guarded()`. */
  datatype Evidence = Evidence(
    enemy: int, battles: nat,
    counterRate: Fraction, copyRate: Fraction, oppositeRate: Fraction,
    repeatLossRate: Fraction, switchLossRate: Fraction,
    repeatWinRate: Fraction, switchWinRate: Fraction,
    patternFreq: Fraction,
    score: nat, reasons: seq<Reason>, isReactive: bool)

  function Max(a: int, b: int): int {
    if a >= b then a else b
  }

  /** What the loop of lines 63-101 leaves behind, as a function of the battles. */
  function TalliesOf(t: seq<Turn>): (c: Tallies)
    requires |t| >= MinBattles
    ensures c.transitions == |t| - 1 && c.top.Some?
  {
    var gs := Grams(TheirMoves(t), 3);
    var lossFs, winFs := FollowUpsAfter(t, Loss), FollowUpsAfter(t, Win);
    Tallies(
      |t| - 1,
      ReactionCount(t, Countered), ReactionCount(t, Copied), ReactionCount(t, Opposed),
      |lossFs|, CountOf(lossFs, Repeated), |lossFs| - CountOf(lossFs, Repeated),
      |winFs|, CountOf(winFs, Repeated), |winFs| - CountOf(winFs, Repeated),
      if gs == [] then None else Some(MostFrequent(gs)),
      if gs == [] then 0 else CountOf(gs, MostFrequent(gs)))
  }

  /**
   * The points of the scoring steps: 2 or 1 for counter and copy rates over
   * 0.38 or 0.35, 2 or 1 for a repeat-after-loss rate over 0.45 or 0.40, and
   * 1 each for switch-after-loss over 0.60, repeat-after-win over 0.60 and a
   * most common pattern over 0.15.
   */
  function ScoreOf(c: Tallies, battles: nat): (score: nat)
    ensures score <= 9
  {
    var counter, copy := Fraction(c.counters, c.transitions), Fraction(c.copies, c.transitions);
    var repeatLoss, switchLoss := Fraction(c.repeatAfterLoss, c.losses), Fraction(c.switchAfterLoss, c.losses);
    var repeatWin, pattern := Fraction(c.repeatAfterWin, c.wins), Fraction(c.topCount, Max(1, battles - 2));
    GradedPoints(counter, 0.38, 0.35) + GradedPoints(copy, 0.38, 0.35) + GradedPoints(repeatLoss, 0.45, 0.40)
    + FlagPoints(switchLoss, 0.60) + FlagPoints(repeatWin, 0.60) + FlagPoints(pattern, 0.15)
  }

  /** Two points over the strong threshold, one over the moderate one. */
  function GradedPoints(rate: Fraction, strong: real, moderate: real): nat {
    if rate.Exceeds(strong) then 2 else if rate.Exceeds(moderate) then 1 else 0
  }

  function FlagPoints(rate: Fraction, threshold: real): nat {
    if rate.Exceeds(threshold) then 1 else 0
  }

  /** A rate with a strong and a moderate threshold gives at most one reason. */
  function Graded(rate: Fraction, strong: real, moderate: real, high: Reason, some: Reason): seq<Reason> {
    if rate.Exceeds(strong) then [high] else if rate.Exceeds(moderate) then [some] else []
  }

  function Flag(rate: Fraction, threshold: real, reason: Reason): seq<Reason> {
    if rate.Exceeds(threshold) then [reason] else []
  }

  /** The reasons, in the order the scoring steps append them. */
  function ReasonsOf(c: Tallies, battles: nat): (reasons: seq<Reason>)
    ensures |reasons| <= 6
  {
    var counter, copy := Fraction(c.counters, c.transitions), Fraction(c.copies, c.transitions);
    var repeatLoss, switchLoss := Fraction(c.repeatAfterLoss, c.losses), Fraction(c.switchAfterLoss, c.losses);
    var repeatWin, pattern := Fraction(c.repeatAfterWin, c.wins), Fraction(c.topCount, Max(1, battles - 2));
    Graded(counter, 0.38, 0.35, HighCounter(counter), ModerateCounter(counter))
    + Graded(copy, 0.38, 0.35, HighCopy(copy), ModerateCopy(copy))
    + Graded(repeatLoss, 0.45, 0.40, RepeatAfterLoss(repeatLoss), SomeRepeatAfterLoss(repeatLoss))
    + Flag(switchLoss, 0.60, SwitchAfterLoss(switchLoss))
    + Flag(repeatWin, 0.60, RepeatAfterWin(repeatWin))
    + Flag(pattern, 0.15, FrequentPattern(c.top, pattern))
  }

  /** The evidence of lines 103-170 from the tallies of an enemy with `battles` battles. */
  function Assess(enemy: int, c: Tallies, battles: nat): (e: Evidence)
    ensures e.enemy == enemy && e.battles == battles
  {
    var score := ScoreOf(c, battles);
    Evidence(
      enemy, battles,
      Fraction(c.counters, c.transitions), Fraction(c.copies, c.transitions), Fraction(c.opposites, c.transitions),
      Fraction(c.repeatAfterLoss, c.losses), Fraction(c.switchAfterLoss, c.losses),
      Fraction(c.repeatAfterWin, c.wins), Fraction(c.switchAfterWin, c.wins),
      Fraction(c.topCount, Max(1, battles - 2)),
      score, ReasonsOf(c, battles), score >= 2)
  }

  /** The evidence for one enemy, or `None` when it is skipped for having fewer than 10 battles. */
  function EnemyEvidence(enemy: int, t: seq<Turn>): (e: Option<Evidence>)
    ensures e.None? <==> |t| < MinBattles
  {
    if |t| < MinBattles then None else Some(Assess(enemy, TalliesOf(t), |t|))
  }

  /** The evidence list before sorting: one entry per enemy that is not skipped, in query order. */
  function Collected(es: seq<EnemyBattles>): (r: seq<Evidence>)
    ensures |r| <= |es|
  {
    if es == [] then []
    else
      var last := es[|es| - 1];
      Collected(es[..|es| - 1])
      + match EnemyEvidence(last.id, last.battles) case Some(e) => [e] case None => []
  }

  /** Points a reason is worth. */
  function Points(r: Reason): nat {
    match r
    case HighCounter(_) => 2
    case HighCopy(_) => 2
    case RepeatAfterLoss(_) => 2
    case _ => 1
  }

  function PointsOf(rs: seq<Reason>): nat {
    if rs == [] then 0 else PointsOf(rs[..|rs| - 1]) + Points(rs[|rs| - 1])
  }

  lemma {:induction false} PointsOfAppend(a: seq<Reason>, b: seq<Reason>)
    ensures PointsOf(a + b) == PointsOf(a) + PointsOf(b)
    decreases |b|
  {
    if b == [] {
      assert a + b == a;
    } else {
      assert (a + b)[..|a + b| - 1] == a + b[..|b| - 1];
      PointsOfAppend(a, b[..|b| - 1]);
    }
  }

  /** Every reason is worth one or two points. */
  lemma {:induction false} PointsOfBounds(rs: seq<Reason>)
    ensures |rs| <= PointsOf(rs) <= 2 * |rs|
    decreases |rs|
  {
    if rs != [] {
      PointsOfBounds(rs[..|rs| - 1]);
    }
  }

  lemma {:induction false} PointsOfSix(a: seq<Reason>, b: seq<Reason>, c: seq<Reason>, d: seq<Reason>, e: seq<Reason>, f: seq<Reason>)
    ensures PointsOf(a + b + c + d + e + f) == PointsOf(a) + PointsOf(b) + PointsOf(c) + PointsOf(d) + PointsOf(e) + PointsOf(f)
  {
    PointsOfAppend(a, b);
    PointsOfAppend(a + b, c);
    PointsOfAppend(a + b + c, d);
    PointsOfAppend(a + b + c + d, e);
    PointsOfAppend(a + b + c + d + e, f);
  }

  lemma GradedPointsOf(rate: Fraction, strong: real, moderate: real, high: Reason, some: Reason)
    requires Points(high) == 2 && Points(some) == 1
    ensures PointsOf(Graded(rate, strong, moderate, high, some)) == GradedPoints(rate, strong, moderate)
  {
    assert [high][..0] == [] && [some][..0] == [];
  }

  lemma FlagPointsOf(rate: Fraction, threshold: real, reason: Reason)
    requires Points(reason) == 1
    ensures PointsOf(Flag(rate, threshold, reason)) == FlagPoints(rate, threshold)
  {
    assert [reason][..0] == [];
  }

  /**
   * The score is the sum of the points of the listed reasons: each scoring
   * step that adds points appends one reason worth those points.
   */
  lemma ScoreMatchesReasons(c: Tallies, battles: nat)
    ensures ScoreOf(c, battles) == PointsOf(ReasonsOf(c, battles))
  {
    var counter, copy := Fraction(c.counters, c.transitions), Fraction(c.copies, c.transitions);
    var repeatLoss, switchLoss := Fraction(c.repeatAfterLoss, c.losses), Fraction(c.switchAfterLoss, c.losses);
    var repeatWin, pattern := Fraction(c.repeatAfterWin, c.wins), Fraction(c.topCount, Max(1, battles - 2));
    var a := Graded(counter, 0.38, 0.35, HighCounter(counter), ModerateCounter(counter));
    var b := Graded(copy, 0.38, 0.35, HighCopy(copy), ModerateCopy(copy));
    var d := Graded(repeatLoss, 0.45, 0.40, RepeatAfterLoss(repeatLoss), SomeRepeatAfterLoss(repeatLoss));
    var e := Flag(switchLoss, 0.60, SwitchAfterLoss(switchLoss));
    var f := Flag(repeatWin, 0.60, RepeatAfterWin(repeatWin));
    var g := Flag(pattern, 0.15, FrequentPattern(c.top, pattern));
    PointsOfSix(a, b, d, e, f, g);
    GradedPointsOf(counter, 0.38, 0.35, HighCounter(counter), ModerateCounter(counter));
    GradedPointsOf(copy, 0.38, 0.35, HighCopy(copy), ModerateCopy(copy));
    GradedPointsOf(repeatLoss, 0.45, 0.40, RepeatAfterLoss(repeatLoss), SomeRepeatAfterLoss(repeatLoss));
    FlagPointsOf(switchLoss, 0.60, SwitchAfterLoss(switchLoss));
    FlagPointsOf(repeatWin, 0.60, RepeatAfterWin(repeatWin));
    FlagPointsOf(pattern, 0.15, FrequentPattern(c.top, pattern));
    assert ReasonsOf(c, battles) == a + b + d + e + f + g;
  }

  /** An enemy scores between one and two points per listed reason, and nothing exactly when none is listed. */
  lemma ScoreBoundedByReasons(c: Tallies, battles: nat)
    ensures var rs := ReasonsOf(c, battles);
            |rs| <= ScoreOf(c, battles) <= 2 * |rs| && (ScoreOf(c, battles) == 0 <==> rs == [])
  {
    ScoreMatchesReasons(c, battles);
    PointsOfBounds(ReasonsOf(c, battles));
  }

  /**
   * An enemy is reactive exactly when it shows one strong sign (a counter
   * or copy rate over 0.38, or a repeat-after-loss rate over 0.45) or at
   * least two reasons of any kind.
   */
  lemma ReactiveIffStrongOrTwo(enemy: int, c: Tallies, battles: nat)
    ensures var e := Assess(enemy, c, battles);
            e.isReactive <==> |e.reasons| >= 2 || exists r :: r in e.reasons && Points(r) == 2
  {
    var e := Assess(enemy, c, battles);
    ScoreMatchesReasons(c, battles);
    PointsOfBounds(e.reasons);
    if |e.reasons| == 1 {
      assert e.reasons == [e.reasons[0]];
      assert PointsOf(e.reasons) == Points(e.reasons[0]);
    }
  }

  /**
   * Repeats and switches after a loss split the losses, so a switch rate
   * over 0.60 leaves a repeat rate under 0.40: the switch-after-loss point
   * and a repeat-after-loss point are never both awarded.
   */
  lemma SwitchExcludesRepeatAfterLoss(c: Tallies, battles: nat)
    requires c.repeatAfterLoss + c.switchAfterLoss == c.losses
    ensures var rs := ReasonsOf(c, battles);
            !((exists r :: r in rs && r.SwitchAfterLoss?) && (exists r :: r in rs && (r.RepeatAfterLoss? || r.SomeRepeatAfterLoss?)))
  {
    var counter, copy := Fraction(c.counters, c.transitions), Fraction(c.copies, c.transitions);
    var repeatLoss, switchLoss := Fraction(c.repeatAfterLoss, c.losses), Fraction(c.switchAfterLoss, c.losses);
    var repeatWin, pattern := Fraction(c.repeatAfterWin, c.wins), Fraction(c.topCount, Max(1, battles - 2));
    var a1 := Graded(counter, 0.38, 0.35, HighCounter(counter), ModerateCounter(counter));
    var a2 := Graded(copy, 0.38, 0.35, HighCopy(copy), ModerateCopy(copy));
    var a3 := Graded(repeatLoss, 0.45, 0.40, RepeatAfterLoss(repeatLoss), SomeRepeatAfterLoss(repeatLoss));
    var a4 := Flag(switchLoss, 0.60, SwitchAfterLoss(switchLoss));
    var a5 := Flag(repeatWin, 0.60, RepeatAfterWin(repeatWin));
    var a6 := Flag(pattern, 0.15, FrequentPattern(c.top, pattern));
    var rs := ReasonsOf(c, battles);
    assert rs == a1 + a2 + a3 + a4 + a5 + a6;
    forall r | r in rs && r.SwitchAfterLoss? ensures switchLoss.Exceeds(0.60) {
      assert r in a4;
    }
    forall r | r in rs && (r.RepeatAfterLoss? || r.SomeRepeatAfterLoss?) ensures repeatLoss.Exceeds(0.40) {
      assert r in a3;
    }
    assert !(switchLoss.Exceeds(0.60) && repeatLoss.Exceeds(0.40));
  }

  /**
   * On the battles of an enemy that is not skipped: the three reactions
   * split the `len - 1` transitions, repeats and switches split the
   * transitions after a loss and those after a win, ties count in neither,
   * there are `len - 2` three-move patterns, and the reported pattern is the
   * most frequent one, the first seen among equals.
   */
  lemma {:induction false} TalliesPartition(t: seq<Turn>)
    requires |t| >= MinBattles
    ensures var c := TalliesOf(t);
            c.counters + c.copies + c.opposites == c.transitions == |t| - 1
            && c.repeatAfterLoss + c.switchAfterLoss == c.losses
            && c.repeatAfterWin + c.switchAfterWin == c.wins
            && c.losses + c.wins <= c.transitions
            && |Grams(TheirMoves(t), 3)| == |t| - 2
            && c.top.Some? && c.topCount <= |t| - 2
            && (forall g :: g in Grams(TheirMoves(t), 3) ==> CountOf(Grams(TheirMoves(t), 3), g) <= c.topCount)
  {
    ReactionsPartition(t);
    AfterCountsDisjoint(t);
  }

  /** With at least one transition, the counter, copy and opposite rates add up to one. */
  lemma ReactionRatesSumToOne(c: Tallies)
    requires c.transitions > 0 && c.counters + c.copies + c.opposites == c.transitions
    ensures Fraction(c.counters, c.transitions).Guarded() + Fraction(c.copies, c.transitions).Guarded()
            + Fraction(c.opposites, c.transitions).Guarded() == 1.0
  {
    SharesAddUp(c.counters as real, c.copies as real, c.opposites as real, c.transitions as real);
  }

  /** The transition into turn `i >= 2` adds the opponent's 3-move pattern ending at `i`. */
  lemma {:induction false} PatternStep(t: seq<Turn>, i: nat)
    requires 2 <= i < |t|
    ensures Grams(TheirMoves(t)[..i + 1], 3) == Grams(TheirMoves(t)[..i], 3) + [[t[i - 2].theirs, t[i - 1].theirs, t[i].theirs]]
  {
    var ms := TheirMoves(t);
    GramsStep(ms, i, 3);
    assert ms[i - 2..i + 1] == [ms[i - 2], ms[i - 1], ms[i]];
  }

  /** The follow-up counters for outcome `o` after the transitions into turns `1..i-1`. */
  ghost predicate FollowUpsCounted(t: seq<Turn>, i: nat, o: Outcome, fs: seq<FollowUp>, total: nat, repeats: nat, switches: nat)
    requires 1 <= i <= |t|
  {
    fs == FollowUpsAfter(t[..i], o) && total == |fs| && repeats == CountOf(fs, Repeated) && repeats + switches == total
  }

  /** One step of the "result-based patterns" block for outcome `o`. */
  method CountFollowUp(t: seq<Turn>, i: nat, o: Outcome, ghost fs: seq<FollowUp>, total: nat, repeats: nat, switches: nat)
    returns (ghost fs': seq<FollowUp>, total': nat, repeats': nat, switches': nat)
    requires 1 <= i < |t| && FollowUpsCounted(t, i, o, fs, total, repeats, switches)
    ensures FollowUpsCounted(t, i + 1, o, fs', total', repeats', switches')
  {
    FollowUpsAfterStep(t, i, o);
    fs', total', repeats', switches' := fs, total, repeats, switches;
    if t[i - 1].outcome == o {
      var followUp := FollowUpOf(t[i - 1].theirs, t[i].theirs);
      CountOfSnoc(fs, followUp, Repeated);
      total' := total + 1;
      if t[i].theirs == t[i - 1].theirs {
        repeats' := repeats + 1;
      } else {
        switches' := switches + 1;
      }
      fs' := fs + [followUp];
    } else {
      assert fs + [] == fs;
    }
  }

  /** One step of the "basic reactive patterns" block. */
  method CountReaction(t: seq<Turn>, i: nat, counters: nat, copies: nat, opposites: nat)
    returns (counters': nat, copies': nat, opposites': nat)
    requires 1 <= i < |t|
    requires counters == ReactionCount(t[..i], Countered) && copies == ReactionCount(t[..i], Copied)
    requires opposites == ReactionCount(t[..i], Opposed)
    ensures counters' == ReactionCount(t[..i + 1], Countered) && copies' == ReactionCount(t[..i + 1], Copied)
    ensures opposites' == ReactionCount(t[..i + 1], Opposed)
  {
    ReactionCountStep(t, i, Countered);
    ReactionCountStep(t, i, Copied);
    ReactionCountStep(t, i, Opposed);
    counters', copies', opposites' := counters, copies, opposites;
    var ourPrev, enemyCurr := t[i - 1].ours, t[i].theirs;
    if enemyCurr == Counter(ourPrev) {
      counters' := counters + 1;
    } else if enemyCurr == ourPrev {
      copies' := copies + 1;
    } else {
      // the last `elif enemy_curr == opposite[our_prev]` always holds here
      opposites' := opposites + 1;
    }
  }

  /** One step of the "sequence patterns" block: `patterns[f"{two_back}-{enemy_prev}-{enemy_curr}"] += 1` from turn 2 on. */
  method CountPattern(t: seq<Turn>, i: nat, patterns: map<seq<Move>, nat>, order: seq<seq<Move>>, ghost gs: seq<seq<Move>>)
    returns (patterns': map<seq<Move>, nat>, order': seq<seq<Move>>, ghost gs': seq<seq<Move>>)
    requires 1 <= i < |t| && gs == Grams(TheirMoves(t)[..i], 3) && IsTallyOf(patterns, gs) && order == Keys(gs)
    ensures gs' == Grams(TheirMoves(t)[..i + 1], 3) && IsTallyOf(patterns', gs') && order' == Keys(gs')
  {
    patterns', order', gs' := patterns, order, gs;
    if i >= 2 {
      PatternStep(t, i);
      var pattern := [t[i - 2].theirs, t[i - 1].theirs, t[i].theirs];
      patterns', order' := Increment(patterns, order, gs, pattern);
      gs' := gs + [pattern];
    }
  }

  /** The transition loop of lines 63-101: every counter over the whole battle list. */
  method ScanTransitions(t: seq<Turn>)
    returns (counters: nat, copies: nat, opposites: nat,
             losses: nat, repeatAfterLoss: nat, switchAfterLoss: nat,
             wins: nat, repeatAfterWin: nat, switchAfterWin: nat,
             patterns: map<seq<Move>, nat>, order: seq<seq<Move>>,
             ghost lossFs: seq<FollowUp>, ghost winFs: seq<FollowUp>, ghost gs: seq<seq<Move>>)
    requires |t| >= 1
    ensures counters == ReactionCount(t, Countered) && copies == ReactionCount(t, Copied)
    ensures opposites == ReactionCount(t, Opposed)
    ensures FollowUpsCounted(t, |t|, Loss, lossFs, losses, repeatAfterLoss, switchAfterLoss)
    ensures FollowUpsCounted(t, |t|, Win, winFs, wins, repeatAfterWin, switchAfterWin)
    ensures gs == Grams(TheirMoves(t), 3) && IsTallyOf(patterns, gs) && order == Keys(gs)
  {
    ghost var ms := TheirMoves(t);
    counters, copies, opposites := 0, 0, 0;
    losses, repeatAfterLoss, switchAfterLoss := 0, 0, 0;
    wins, repeatAfterWin, switchAfterWin := 0, 0, 0;
    patterns, order := map[], [];
    lossFs, winFs, gs := [], [], [];
    var i := 1;
    while i < |t|
      invariant 1 <= i <= |t|
      invariant counters == ReactionCount(t[..i], Countered) && copies == ReactionCount(t[..i], Copied)
      invariant opposites == ReactionCount(t[..i], Opposed)
      invariant FollowUpsCounted(t, i, Loss, lossFs, losses, repeatAfterLoss, switchAfterLoss)
      invariant FollowUpsCounted(t, i, Win, winFs, wins, repeatAfterWin, switchAfterWin)
      invariant gs == Grams(ms[..i], 3) && IsTallyOf(patterns, gs) && order == Keys(gs)
    {
      counters, copies, opposites := CountReaction(t, i, counters, copies, opposites);
      lossFs, losses, repeatAfterLoss, switchAfterLoss := CountFollowUp(t, i, Loss, lossFs, losses, repeatAfterLoss, switchAfterLoss);
      winFs, wins, repeatAfterWin, switchAfterWin := CountFollowUp(t, i, Win, winFs, wins, repeatAfterWin, switchAfterWin);
      patterns, order, gs := CountPattern(t, i, patterns, order, gs);
      i := i + 1;
    }
    assert t[..i] == t && ms[..i] == ms;
  }

  /** The transition loop followed by `max(patterns.items(), ...)`: the tallies of lines 63-115. */
  method TallyTransitions(t: seq<Turn>) returns (c: Tallies)
    requires |t| >= MinBattles
    ensures c == TalliesOf(t)
  {
    var counters, copies, opposites, losses, repeatAfterLoss, switchAfterLoss, wins, repeatAfterWin, switchAfterWin, patterns, order, lossFs, winFs, gs
      := ScanTransitions(t);
    assert t[..|t|] == t;
    var top, topCount := MostCommonPattern(gs, order, patterns);
    c := Tallies(
      |t| - 1, counters, copies, opposites,
      losses, repeatAfterLoss, switchAfterLoss,
      wins, repeatAfterWin, switchAfterWin,
      top, topCount);
  }

  /** `max(patterns.items(), key=lambda x: x[1]) if patterns else ("none", 0)` on the tallied 3-move patterns `gs`. */
  method MostCommonPattern(ghost gs: seq<seq<Move>>, order: seq<seq<Move>>, patterns: map<seq<Move>, nat>)
    returns (top: Option<seq<Move>>, topCount: nat)
    requires IsTallyOf(patterns, gs) && order == Keys(gs)
    ensures top == (if gs == [] then None else Some(MostFrequent(gs)))
    ensures topCount == (if gs == [] then 0 else CountOf(gs, MostFrequent(gs)))
  {
    top, topCount := None, 0;
    if order != [] {
      var best := MostFrequentScan(gs, order, patterns);
      top, topCount := Some(best), patterns[best];
    }
  }

  /** A scoring step with a strong and a moderate threshold: `if rate > strong: ... elif rate > moderate: ...`. */
  method Grade(rate: Fraction, strong: real, moderate: real, high: Reason, some: Reason) returns (points: nat, part: seq<Reason>)
    requires strong >= 0.0 && moderate >= 0.0
    ensures points == GradedPoints(rate, strong, moderate) && part == Graded(rate, strong, moderate, high, some)
  {
    ExceedsIff(rate, strong);
    ExceedsIff(rate, moderate);
    if rate.Guarded() > strong {
      points, part := 2, [high];
    } else if rate.Guarded() > moderate {
      points, part := 1, [some];
    } else {
      points, part := 0, [];
    }
  }

  /** A scoring step with one threshold. */
  method Check(rate: Fraction, threshold: real, reason: Reason) returns (points: nat, part: seq<Reason>)
    requires threshold >= 0.0
    ensures points == FlagPoints(rate, threshold) && part == Flag(rate, threshold, reason)
  {
    ExceedsIff(rate, threshold);
    if rate.Guarded() > threshold {
      points, part := 1, [reason];
    } else {
      points, part := 0, [];
    }
  }

  /** The scoring steps of lines 103-170. */
  method ScoreEnemy(enemy: int, c: Tallies, battles: nat) returns (e: Evidence)
    ensures e == Assess(enemy, c, battles)
  {
    var counterRate, copyRate := Fraction(c.counters, c.transitions), Fraction(c.copies, c.transitions);
    var oppositeRate := Fraction(c.opposites, c.transitions);
    var repeatLossRate, switchLossRate := Fraction(c.repeatAfterLoss, c.losses), Fraction(c.switchAfterLoss, c.losses);
    var repeatWinRate, switchWinRate := Fraction(c.repeatAfterWin, c.wins), Fraction(c.switchAfterWin, c.wins);
    var patternFreq := Fraction(c.topCount, Max(1, battles - 2));
    var p1, counterPart := Grade(counterRate, 0.38, 0.35, HighCounter(counterRate), ModerateCounter(counterRate));
    var p2, copyPart := Grade(copyRate, 0.38, 0.35, HighCopy(copyRate), ModerateCopy(copyRate));
    var p3, lossPart := Grade(repeatLossRate, 0.45, 0.40, RepeatAfterLoss(repeatLossRate), SomeRepeatAfterLoss(repeatLossRate));
    var p4, switchPart := Check(switchLossRate, 0.60, SwitchAfterLoss(switchLossRate));
    var p5, winPart := Check(repeatWinRate, 0.60, RepeatAfterWin(repeatWinRate));
    var p6, patternPart := Check(patternFreq, 0.15, FrequentPattern(c.top, patternFreq));
    var score := p1 + p2 + p3 + p4 + p5 + p6;
    var reasons := counterPart + copyPart + lossPart + switchPart + winPart + patternPart;
    e := Evidence(
      enemy, battles, counterRate, copyRate, oppositeRate,
      repeatLossRate, switchLossRate, repeatWinRate, switchWinRate, patternFreq,
      score, reasons, score >= 2);
  }

  /** The body of the enemy loop: skip short histories, tally, score. */
  method AnalyseEnemy(enemy: int, t: seq<Turn>) returns (e: Option<Evidence>)
    ensures e == EnemyEvidence(enemy, t)
  {
    if |t| < MinBattles {
      return None;
    }
    var c := TallyTransitions(t);
    var evidence := ScoreEnemy(enemy, c, |t|);
    e := Some(evidence);
  }

  /** One pass of the enemy loop: the enemy's evidence, if it has any, is appended to the list. */
  method CollectEnemy(es: seq<EnemyBattles>, i: nat, evidence: seq<Evidence>) returns (evidence': seq<Evidence>)
    requires i < |es| && evidence == Collected(es[..i])
    ensures evidence' == Collected(es[..i + 1])
  {
    assert es[..i + 1][..i] == es[..i] && es[..i + 1][i] == es[i];
    var e := AnalyseEnemy(es[i].id, es[i].battles);
    evidence' := evidence;
    if e.Some? {
      evidence' := evidence + [e.value];
    }
  }

  function ScoreKey(e: Evidence): int {
    e.score
  }

  /** The enemy loop of `main` and `reactive_evidence.sort(key=score, reverse=True)`. */
  method RankEnemies(es: seq<EnemyBattles>) returns (ranked: seq<Evidence>)
    ensures ranked == SortDesc(Collected(es), ScoreKey)
  {
    var evidence := [];
    var i := 0;
    while i < |es|
      invariant 0 <= i <= |es|
      invariant evidence == Collected(es[..i])
    {
      evidence := CollectEnemy(es, i, evidence);
      i := i + 1;
    }
    assert es[..i] == es;
    ranked := SortDesc(evidence, ScoreKey);
  }

  /**
   * The ranking lists the evidence of exactly the enemies with at least 10
   * battles, each once, by non-increasing score.
   */
  lemma {:induction false} RankingIsSortedPermutation(es: seq<EnemyBattles>)
    ensures var ranked := SortDesc(Collected(es), ScoreKey);
            SortedDesc(ranked, ScoreKey) && multiset(ranked) == multiset(Collected(es))
            && forall e :: e in ranked ==> e.battles >= MinBattles
  {
    var ranked := SortDesc(Collected(es), ScoreKey);
    SortDescSorted(Collected(es), ScoreKey);
    CollectedOnlyLongHistories(es);
    forall e | e in ranked ensures e.battles >= MinBattles {
      assert e in multiset(ranked);
    }
  }

  lemma {:induction false} CollectedOnlyLongHistories(es: seq<EnemyBattles>)
    ensures forall e :: e in Collected(es) ==> e.battles >= MinBattles
    decreases |es|
  {
    if es != [] {
      CollectedOnlyLongHistories(es[..|es| - 1]);
    }
  }
}
