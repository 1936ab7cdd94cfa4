/**
 * analyze_enemy_behavior.py: `detect_reaction_patterns` (does the opponent
 * counter or copy our previous move, how does it follow up a recorded
 * 'loss') and `analyze_enemy_adaptation` (periods of `max(10, n // 4)`
 * battles, first-to-last changes, and a priority-ordered label).
 *
 * `calculate_entropy` is a parameter `entropy: Dist -> real` (it is
 * `math.log2` arithmetic); `get_distribution` is `Distributions.GetDistribution`
 * with the `0.333 / 0.333 / 0.334` default.
 */
module EnemyBehavior {

  import opened Wrappers
  import opened Moves
  import opened Tally
  import opened Distributions
  import opened Transitions
  import opened Windows

  const ReactionMinBattles: nat := 10
  const AdaptationMinBattles: nat := 15
  /** After-loss tags need more than this many recorded losses. */
  const MinLosses: nat := 5

  // ------------------------------------------------- detect_reaction_patterns

  /** The strings appended to `patterns`, with their rates. */
  datatype ReactionTag =
    | CountersOurMoves(rate: Fraction)
    | CopiesOurMoves(rate: Fraction)
    | AfterLoss(reaction: FollowUp, rate: Fraction)

  datatype ReactionRates = ReactionRates(counterRate: Fraction, copyRate: Fraction)

  /** The returned dict; the early return for short histories carries no rates. */
  datatype ReactionAnalysis = ReactionAnalysis(reactive: bool, patterns: seq<ReactionTag>, rates: Option<ReactionRates>)

  /**
   * `for reaction, count in loss_reactions.items()`: a tag for each reaction
   * in `order` whose share of the follow-ups `fs` exceeds 0.4 (`count / total
   * > 0.4`, written `count > 0.4 * total`).
   */
  function AfterLossTags(order: seq<FollowUp>, fs: seq<FollowUp>): (tags: seq<ReactionTag>)
  {
    if order == [] then []
    else
      var f := order[|order| - 1];
      var c := CountOf(fs, f);
      AfterLossTags(order[..|order| - 1], fs)
      + (if c as real > 0.4 * |fs| as real then [AfterLoss(f, Fraction(c, |fs|))] else [])
  }

  /**
   * The three tests of `detect_reaction_patterns`, in order, on `counters`
   * and `copies` out of `k` transitions and the follow-ups `fs` to a loss.
   */
  function TagsFor(counters: nat, copies: nat, k: nat, fs: seq<FollowUp>): seq<ReactionTag>
  {
    (if counters as real > 0.4 * k as real then [CountersOurMoves(Fraction(counters, k))] else [])
    + (if copies as real > 0.4 * k as real then [CopiesOurMoves(Fraction(copies, k))] else [])
    + (if |fs| > MinLosses then AfterLossTags(Keys(fs), fs) else [])
  }

  /**
   * The dict `detect_reaction_patterns` returns past its length floor, from
   * `counters` and `copies` out of `k` transitions and the follow-ups `fs`
   * to a recorded loss.
   */
  function Reactions(counters: nat, copies: nat, k: nat, fs: seq<FollowUp>): ReactionAnalysis {
    var patterns := TagsFor(counters, copies, k, fs);
    ReactionAnalysis(|patterns| > 0, patterns, Some(ReactionRates(Fraction(counters, k), Fraction(copies, k))))
  }

  /** `detect_reaction_patterns(battles)`. */
  function ReactionPatterns(t: seq<Turn>): (r: ReactionAnalysis)
    ensures r.reactive <==> r.patterns != []
    ensures |t| < ReactionMinBattles ==> r.patterns == [] && r.rates.None?
  {
    if |t| < ReactionMinBattles then ReactionAnalysis(false, [], None)
    else Reactions(ReactionCount(t, Countered), ReactionCount(t, Copied), |t| - 1, FollowUpsAfter(t, Loss))
  }

  /**
   * The after-loss tags name distinct reactions, in first-seen order, each
   * with its share of the follow-ups, which exceeds 0.4; and every reaction
   * whose share exceeds 0.4 is tagged.
   */
  lemma {:induction false} AfterLossTagsExact(order: seq<FollowUp>, fs: seq<FollowUp>)
    ensures forall tag :: tag in AfterLossTags(order, fs) ==>
              tag.AfterLoss? && tag.reaction in order
              && tag.rate == Fraction(CountOf(fs, tag.reaction), |fs|)
              && CountOf(fs, tag.reaction) as real > 0.4 * |fs| as real
    ensures forall f :: f in order && CountOf(fs, f) as real > 0.4 * |fs| as real ==>
              AfterLoss(f, Fraction(CountOf(fs, f), |fs|)) in AfterLossTags(order, fs)
    decreases |order|
  {
    if order != [] {
      AfterLossTagsExact(order[..|order| - 1], fs);
      forall f | f in order && CountOf(fs, f) as real > 0.4 * |fs| as real
        ensures AfterLoss(f, Fraction(CountOf(fs, f), |fs|)) in AfterLossTags(order, fs)
      {
        if f != order[|order| - 1] {
          assert f in order[..|order| - 1];
        }
      }
    }
  }

  /**
   * The counter tag, carrying the counter rate, is present exactly when
   * more than 0.4 of the transitions counter our previous move
   * (`counter_rate > 0.4`, see `RateAboveIff`), and likewise the copy tag;
   * `reactive` holds exactly when some pattern was found.
   */
  lemma {:induction false} CounterCopyTagsExact(counters: nat, copies: nat, k: nat, fs: seq<FollowUp>)
    ensures var r := Reactions(counters, copies, k, fs);
            (r.reactive <==> |r.patterns| > 0)
            && r.rates == Some(ReactionRates(Fraction(counters, k), Fraction(copies, k)))
            && (CountersOurMoves(Fraction(counters, k)) in r.patterns <==> counters as real > 0.4 * k as real)
            && (CopiesOurMoves(Fraction(copies, k)) in r.patterns <==> copies as real > 0.4 * k as real)
  {
    var a := if counters as real > 0.4 * k as real then [CountersOurMoves(Fraction(counters, k))] else [];
    var b := if copies as real > 0.4 * k as real then [CopiesOurMoves(Fraction(copies, k))] else [];
    var c := if |fs| > MinLosses then AfterLossTags(Keys(fs), fs) else [];
    assert Reactions(counters, copies, k, fs).patterns == a + b + c;
    if |fs| > MinLosses {
      AfterLossTagsExact(Keys(fs), fs);
    }
  }

  /**
   * After-loss tags appear only with more than 5 follow-ups to a loss, each
   * naming a reaction that follows more than 0.4 of them and carrying that
   * share; and then every such reaction is tagged.
   */
  lemma {:induction false} AfterLossTagsFollowShares(counters: nat, copies: nat, k: nat, fs: seq<FollowUp>)
    ensures forall tag :: tag in Reactions(counters, copies, k, fs).patterns && tag.AfterLoss? ==>
              |fs| > MinLosses && tag.rate == Fraction(CountOf(fs, tag.reaction), |fs|)
              && CountOf(fs, tag.reaction) as real > 0.4 * |fs| as real
    ensures |fs| > MinLosses ==>
              forall f :: CountOf(fs, f) as real > 0.4 * |fs| as real ==>
                AfterLoss(f, Fraction(CountOf(fs, f), |fs|)) in Reactions(counters, copies, k, fs).patterns
  {
    var a := if counters as real > 0.4 * k as real then [CountersOurMoves(Fraction(counters, k))] else [];
    var b := if copies as real > 0.4 * k as real then [CopiesOurMoves(Fraction(copies, k))] else [];
    var c := if |fs| > MinLosses then AfterLossTags(Keys(fs), fs) else [];
    assert Reactions(counters, copies, k, fs).patterns == (a + b) + c;
    if |fs| > MinLosses {
      AfterLossTagsExact(Keys(fs), fs);
      forall f | CountOf(fs, f) as real > 0.4 * |fs| as real ensures f in Keys(fs) {
        assert CountOf(fs, f) > 0;
      }
    }
  }

  /**
   * The two rates lie in [0, 1] and add up to at most 1 when the counter
   * and copy transitions are disjoint among the `k` transitions.
   */
  lemma {:induction false} RatesBounded(counters: nat, copies: nat, k: nat, fs: seq<FollowUp>)
    requires k > 0 && counters + copies <= k
    ensures var rates := Reactions(counters, copies, k, fs).rates.value;
            0.0 <= rates.counterRate.Value() && 0.0 <= rates.copyRate.Value()
            && rates.counterRate.Value() + rates.copyRate.Value() <= 1.0
  {
    DisjointSharesAtMostOne(counters, copies, k);
  }

  /**
   * Short histories give no patterns and no rates. Otherwise the analysis is
   * `Reactions` on the counter and copy counts of the `|t| - 1` transitions,
   * which are disjoint, and on the follow-ups to each recorded loss, of which
   * there are `AfterCount(t, Loss)`.
   */
  lemma {:induction false} ReactionPatternsOf(t: seq<Turn>)
    ensures |t| < ReactionMinBattles ==> ReactionPatterns(t) == ReactionAnalysis(false, [], None)
    ensures |t| >= ReactionMinBattles ==>
              var counters, copies, fs := ReactionCount(t, Countered), ReactionCount(t, Copied), FollowUpsAfter(t, Loss);
              ReactionPatterns(t) == Reactions(counters, copies, |t| - 1, fs)
              && counters + copies <= |t| - 1 && |fs| == AfterCount(t, Loss)
  {
    if |t| >= ReactionMinBattles {
      ReactionsPartition(t);
    }
  }

  /** `count / k > 0.4`, the source's rate test, is the test `count > 0.4 * k` the model writes. */
  lemma RateAboveIff(count: nat, k: nat)
    requires k > 0
    ensures Fraction(count, k).Value() > 0.4 <==> count as real > 0.4 * k as real
  {
    ShareIffAbove(count, k, 0.4);
  }

  /**
   * The second loop of `detect_reaction_patterns`: for each transition after
   * a recorded 'loss', one more loss and one more count for the opponent's
   * follow-up in the `loss_reactions` defaultdict.
   */
  method LossReactions(t: seq<Turn>) returns (counts: map<FollowUp, nat>, order: seq<FollowUp>, totalLosses: nat)
    ensures IsTallyOf(counts, FollowUpsAfter(t, Loss)) && order == Keys(FollowUpsAfter(t, Loss))
    ensures totalLosses == AfterCount(t, Loss)
  {
    counts, order, totalLosses := map[], [], 0;
    if |t| < 2 {
      return;
    }
    var i := 1;
    ghost var fs: seq<FollowUp> := [];
    while i < |t|
      invariant 1 <= i <= |t|
      invariant fs == FollowUpsAfter(t[..i], Loss)
      invariant IsTallyOf(counts, fs) && order == Keys(fs) && totalLosses == |fs|
    {
      FollowUpsAfterStep(t, i, Loss);
      if t[i - 1].outcome == Loss {
        totalLosses := totalLosses + 1;
        var enemyPrev, enemyCurr := t[i - 1].theirs, t[i].theirs;
        var reaction :=
          if enemyCurr == Counter(enemyPrev) then SwitchedToCounter
          else if enemyCurr == enemyPrev then Repeated
          else SwitchedOther;
        assert reaction == FollowUpOf(enemyPrev, enemyCurr);
        counts, order := Increment(counts, order, fs, reaction);
        fs := fs + [reaction];
      }
      i := i + 1;
    }
    assert t[..i] == t;
  }

  /** The loop that appends an after-loss tag per reaction over 40%, in the dict's key order. */
  method TagAfterLoss(order: seq<FollowUp>, counts: map<FollowUp, nat>, ghost fs: seq<FollowUp>, totalLosses: nat)
    returns (tags: seq<ReactionTag>)
    requires totalLosses == |fs| && IsTallyOf(counts, fs) && order == Keys(fs)
    ensures tags == AfterLossTags(order, fs)
  {
    tags := [];
    var i := 0;
    while i < |order|
      invariant 0 <= i <= |order|
      invariant tags == AfterLossTags(order[..i], fs)
    {
      assert order[..i + 1][..i] == order[..i];
      var reaction := order[i];
      assert reaction in fs;
      var count := counts[reaction];
      if count as real > 0.4 * totalLosses as real {
        tags := tags + [AfterLoss(reaction, Fraction(count, totalLosses))];
      }
      i := i + 1;
    }
    assert order[..i] == order;
  }

  /** `detect_reaction_patterns` with its two transition loops. */
  method DetectReactionPatterns(t: seq<Turn>) returns (r: ReactionAnalysis)
    ensures r == ReactionPatterns(t)
  {
    if |t| < ReactionMinBattles {
      return ReactionAnalysis(false, [], None);
    }
    var counters, copies, _ := CountReactions(t);
    var k := |t| - 1;
    var counts, order, totalLosses := LossReactions(t);
    var patterns := AssembleTags(counters, copies, k, counts, order, FollowUpsAfter(t, Loss), totalLosses);
    return ReactionAnalysis(|patterns| > 0, patterns, Some(ReactionRates(Fraction(counters, k), Fraction(copies, k))));
  }

  /** The pattern-appending steps of `detect_reaction_patterns`, on its counts and its `loss_reactions` dict. */
  method AssembleTags(counters: nat, copies: nat, k: nat, counts: map<FollowUp, nat>, order: seq<FollowUp>,
                      ghost fs: seq<FollowUp>, totalLosses: nat)
    returns (patterns: seq<ReactionTag>)
    requires IsTallyOf(counts, fs) && order == Keys(fs) && totalLosses == |fs|
    ensures patterns == TagsFor(counters, copies, k, fs)
  {
    var counterTag, copyTag, lossTags := [], [], [];
    if counters as real > 0.4 * k as real {
      counterTag := [CountersOurMoves(Fraction(counters, k))];
    }
    if copies as real > 0.4 * k as real {
      copyTag := [CopiesOurMoves(Fraction(copies, k))];
    }
    if totalLosses > MinLosses {
      lossTags := TagAfterLoss(order, counts, fs, totalLosses);
    }
    patterns := counterTag + copyTag + lossTags;
  }

  // ------------------------------------------------- analyze_enemy_adaptation

  /** The strings appended to `adaptation_signs`. */
  datatype Sign =
    | MoveChanged(move: Move, increased: bool, change: real)
    | BecomingUnpredictable
    | BecomingPredictable
    | ImprovingPerformance
    | DecliningPerformance
    | ShiftedDominant(from: Move, to: Move)

  datatype AdaptationType = Reactive | DefensiveRandomization | Learning | ActivelyAdapting | GraduallyShifting | Stable

  /** One entry of `period_analyses`. */
  datatype PeriodAnalysis = PeriodAnalysis(period: nat, distribution: Dist, entropy: real, winRate: real, dominant: Move, battles: nat)

  datatype Adaptation =
    | InsufficientData(totalBattles: nat)
    | Analysed(totalBattles: nat, periods: seq<PeriodAnalysis>, signs: seq<Sign>, kind: AdaptationType,
               reactivePatterns: seq<ReactionTag>, rates: Option<ReactionRates>)

  /** `max(10, len(battles) // 4)`. */
  function PeriodSize(n: nat): (size: nat)
    ensures size >= 10
  {
    if n / 4 > 10 then n / 4 else 10
  }

  /** Fifteen or more battles always make at least two periods. */
  lemma {:induction false} AtLeastTwoPeriods(t: seq<Turn>)
    requires |t| >= AdaptationMinBattles
    ensures |Chunks(t, PeriodSize(|t|))| >= 2
  {
    ChunksCount(t, PeriodSize(|t|));
  }

  /** The analysis of the `i`-th period (numbered from 1), with the enemy's win rate counted from our recorded losses. */
  function AnalysePeriod(i: nat, p: seq<Turn>, entropy: Dist -> real): (a: PeriodAnalysis)
    ensures a.period == i + 1 && a.battles == |p|
  {
    var dist := GetDistribution(TheirMoves(p), EvenDefault);
    var winRate := if |p| > 0 then Share(CountOf(Outcomes(p), Loss), |p|) else 0.0;
    PeriodAnalysis(i + 1, dist, entropy(dist), winRate, DominantOf(dist), |p|)
  }

  function AnalysePeriods(ps: seq<seq<Turn>>, entropy: Dist -> real): (as_: seq<PeriodAnalysis>)
    ensures |as_| == |ps|
    ensures forall i :: 0 <= i < |ps| ==> as_[i] == AnalysePeriod(i, ps[i], entropy)
  {
    seq(|ps|, i requires 0 <= i < |ps| => AnalysePeriod(i, ps[i], entropy))
  }

  /** The per-move loop: a sign for each move whose share moved by more than 0.15 from the first period to the last. */
  function MoveSigns(first: Dist, last: Dist): seq<Sign> {
    MoveSign(Rock, first, last) + MoveSign(Paper, first, last) + MoveSign(Scissor, first, last)
  }

  /** A sign for move `m` exactly when its share moved by more than 0.15, with the direction and size of the move. */
  function MoveSign(m: Move, first: Dist, last: Dist): (s: seq<Sign>)
    ensures |s| <= 1
    ensures s != [] <==> Abs(last.P(m) - first.P(m)) > 0.15
    ensures forall x :: x in s ==>
              x.MoveChanged? && x.move == m && x.change == Abs(last.P(m) - first.P(m))
              && (x.increased <==> last.P(m) > first.P(m))
  {
    var change := last.P(m) - first.P(m);
    if Abs(change) > 0.15 then [MoveChanged(m, change > 0.0, Abs(change))] else []
  }

  /** A rise above `0.15` gives `up`, a fall below `-0.15` gives `down`. */
  function TrendSign(change: real, up: Sign, down: Sign): (s: seq<Sign>)
    ensures |s| <= 1
    ensures up != down ==> (up in s <==> change > 0.15) && (down in s <==> change < -0.15)
    ensures forall x :: x in s ==> x == up || x == down
  {
    if change > 0.15 then [up] else if change < -0.15 then [down] else []
  }

  /** The adaptation signs, comparing the first and the last period. */
  function Signs(as_: seq<PeriodAnalysis>): seq<Sign> {
    if |as_| < 2 then []
    else
      var first, last := as_[0], as_[|as_| - 1];
      MoveSigns(first.distribution, last.distribution)
      + TrendSign(last.entropy - first.entropy, BecomingUnpredictable, BecomingPredictable)
      + TrendSign(last.winRate - first.winRate, ImprovingPerformance, DecliningPerformance)
      + (if first.dominant != last.dominant then [ShiftedDominant(first.dominant, last.dominant)] else [])
  }

  /** The `adaptation_type` chain; a substring test on the signs' text is membership of the sign. */
  function Classify(reactive: bool, signs: seq<Sign>): (r: AdaptationType)
    ensures r == Reactive <==> reactive
    ensures r == Stable <==> !reactive && signs == []
  {
    if reactive then Reactive
    else if BecomingUnpredictable in signs then DefensiveRandomization
    else if ImprovingPerformance in signs && |signs| >= 2 then Learning
    else if |signs| >= 3 then ActivelyAdapting
    else if |signs| >= 1 then GraduallyShifting
    else Stable
  }

  /** `analyze_enemy_adaptation(enemy_id, battles)`. */
  function AnalyseAdaptation(t: seq<Turn>, entropy: Dist -> real): (r: Adaptation)
    ensures r.InsufficientData? <==> |t| < AdaptationMinBattles
    ensures r.Analysed? ==> (r.kind == Reactive <==> r.reactivePatterns != [])
  {
    if |t| < AdaptationMinBattles then InsufficientData(|t|)
    else
      var as_ := AnalysePeriods(Chunks(t, PeriodSize(|t|)), entropy);
      var signs := Signs(as_);
      var reaction := ReactionPatterns(t);
      Analysed(|t|, as_, signs, Classify(reaction.reactive, signs), reaction.patterns, reaction.rates)
  }

  /**
   * The label follows a fixed priority: reactive first, then a rise in
   * entropy, then improving performance with at least one other sign, then
   * three or more signs, then any sign; stable only without any.
   */
  lemma {:induction false} ClassifyPriority(reactive: bool, signs: seq<Sign>)
    ensures Classify(reactive, signs) == Reactive <==> reactive
    ensures Classify(reactive, signs) == DefensiveRandomization <==> !reactive && BecomingUnpredictable in signs
    ensures Classify(reactive, signs) == Learning
        <==> !reactive && !(BecomingUnpredictable in signs) && ImprovingPerformance in signs && |signs| >= 2
    ensures Classify(reactive, signs) == ActivelyAdapting
        <==> !reactive && !(BecomingUnpredictable in signs) && !(ImprovingPerformance in signs) && |signs| >= 3
    ensures Classify(reactive, signs) == GraduallyShifting
        <==> !reactive && !(BecomingUnpredictable in signs)
             && (|signs| == 1 || (|signs| == 2 && !(ImprovingPerformance in signs)))
    ensures Classify(reactive, signs) == Stable <==> !reactive && signs == []
  {
  }

  /** The six parts the signs are made of, in the order they are appended. */
  lemma {:induction false} SignsParts(as_: seq<PeriodAnalysis>)
    requires |as_| >= 2
    ensures var first, last := as_[0], as_[|as_| - 1];
            Signs(as_) == MoveSigns(first.distribution, last.distribution)
                          + (TrendSign(last.entropy - first.entropy, BecomingUnpredictable, BecomingPredictable)
                             + TrendSign(last.winRate - first.winRate, ImprovingPerformance, DecliningPerformance)
                             + (if first.dominant != last.dominant then [ShiftedDominant(first.dominant, last.dominant)] else []))
  {
  }

  /** The move signs lead the signs, and no later sign is a move sign. */
  lemma {:induction false} MoveSignsLead(as_: seq<PeriodAnalysis>)
    requires |as_| >= 2
    ensures var ms := MoveSigns(as_[0].distribution, as_[|as_| - 1].distribution);
            Signs(as_)[..|ms|] == ms && forall x :: x in Signs(as_)[|ms|..] ==> !x.MoveChanged?
  {
    SignsParts(as_);
  }

  /**
   * With two periods or more, every move sign carries the direction and the
   * size of that move's change in share from the first period to the last.
   */
  lemma {:induction false} MoveSignsSound(as_: seq<PeriodAnalysis>)
    requires |as_| >= 2
    ensures var d0, d1 := as_[0].distribution, as_[|as_| - 1].distribution;
            forall x :: x in Signs(as_) && x.MoveChanged? ==>
              x.change == Abs(d1.P(x.move) - d0.P(x.move)) && (x.increased <==> d1.P(x.move) > d0.P(x.move))
  {
    var d0, d1 := as_[0].distribution, as_[|as_| - 1].distribution;
    var ms := MoveSigns(d0, d1);
    MoveSignsLead(as_);
    assert Signs(as_) == Signs(as_)[..|ms|] + Signs(as_)[|ms|..];
  }

  /**
   * With two periods or more, there is a move sign for exactly the moves
   * whose share moved by more than 0.15 from the first period to the last.
   */
  lemma {:induction false} MoveSignsExact(as_: seq<PeriodAnalysis>)
    requires |as_| >= 2
    ensures var d0, d1 := as_[0].distribution, as_[|as_| - 1].distribution;
            forall m :: (exists x :: x in Signs(as_) && x.MoveChanged? && x.move == m) <==> Abs(d1.P(m) - d0.P(m)) > 0.15
  {
    var d0, d1 := as_[0].distribution, as_[|as_| - 1].distribution;
    var ms := MoveSigns(d0, d1);
    MoveSignsLead(as_);
    assert Signs(as_) == ms + Signs(as_)[|ms|..];
    forall m ensures (exists x :: x in Signs(as_) && x.MoveChanged? && x.move == m) <==> Abs(d1.P(m) - d0.P(m)) > 0.15 {
      var one := MoveSign(m, d0, d1);
      if Abs(d1.P(m) - d0.P(m)) > 0.15 {
        assert one[0] in one && one[0] in ms;
      }
    }
  }

  /**
   * With two periods or more, an entropy rise or fall of more than 0.15
   * gives exactly one of the two entropy signs, likewise the win rate, and a
   * shift sign, from the first period's dominant move to the last's, appears
   * exactly when the two differ.
   */
  lemma {:induction false} TrendSignsExact(as_: seq<PeriodAnalysis>)
    requires |as_| >= 2
    ensures var first, last, signs := as_[0], as_[|as_| - 1], Signs(as_);
            (BecomingUnpredictable in signs <==> last.entropy - first.entropy > 0.15)
            && (BecomingPredictable in signs <==> last.entropy - first.entropy < -0.15)
            && (ImprovingPerformance in signs <==> last.winRate - first.winRate > 0.15)
            && (DecliningPerformance in signs <==> last.winRate - first.winRate < -0.15)
            && (forall x :: x in signs && x.ShiftedDominant? ==> x.from == first.dominant && x.to == last.dominant)
            && (ShiftedDominant(first.dominant, last.dominant) in signs <==> first.dominant != last.dominant)
  {
    var first, last := as_[0], as_[|as_| - 1];
    var ms := MoveSigns(first.distribution, last.distribution);
    var te := TrendSign(last.entropy - first.entropy, BecomingUnpredictable, BecomingPredictable);
    var tw := TrendSign(last.winRate - first.winRate, ImprovingPerformance, DecliningPerformance);
    var sd := if first.dominant != last.dominant then [ShiftedDominant(first.dominant, last.dominant)] else [];
    assert Signs(as_) == ms + te + tw + sd;
    assert forall x :: x in Signs(as_) <==> x in ms || x in te || x in tw || x in sd;
    assert forall x :: x in ms ==> x.MoveChanged?;
  }

  /**
   * The periods partition the battles in order, each non-empty, all but the
   * last of `max(10, n // 4)` battles, and there are at least two of them, so
   * the first-to-last comparison always runs; the label is the priority
   * chain applied to the reaction analysis and those signs.
   */
  lemma {:induction false} AdaptationFacts(t: seq<Turn>, entropy: Dist -> real)
    requires |t| >= AdaptationMinBattles
    ensures var ps := Chunks(t, PeriodSize(|t|));
            Flatten(ps) == t && |ps| >= 2
            && (forall i :: 0 <= i < |ps| ==> 0 < |ps[i]| <= PeriodSize(|t|))
            && (forall i :: 0 <= i < |ps| - 1 ==> |ps[i]| == PeriodSize(|t|))
    ensures var r := AnalyseAdaptation(t, entropy);
            r.Analysed? && |r.periods| >= 2 && r.signs == Signs(r.periods)
            && r.kind == Classify(ReactionPatterns(t).reactive, r.signs)
  {
    ChunksPartition(t, PeriodSize(|t|));
    AtLeastTwoPeriods(t);
  }

  /** The period loop of `analyze_enemy_adaptation`: one analysis appended per period. */
  method AnalysePeriodsLoop(ps: seq<seq<Turn>>, entropy: Dist -> real) returns (as_: seq<PeriodAnalysis>)
    ensures as_ == AnalysePeriods(ps, entropy)
  {
    as_ := [];
    var i := 0;
    while i < |ps|
      invariant 0 <= i <= |ps|
      invariant as_ == AnalysePeriods(ps[..i], entropy)
    {
      as_ := as_ + [AnalysePeriod(i, ps[i], entropy)];
      i := i + 1;
    }
    assert ps[..i] == ps;
  }

  /** The per-move loop over rock, paper and scissor. */
  method ChangedMoves(first: Dist, last: Dist) returns (signs: seq<Sign>)
    ensures signs == MoveSigns(first, last)
  {
    signs := [];
    var moves := [Rock, Paper, Scissor];
    var j := 0;
    while j < 3
      invariant 0 <= j <= 3
      invariant signs == if j == 0 then [] else if j == 1 then MoveSign(Rock, first, last)
                         else if j == 2 then MoveSign(Rock, first, last) + MoveSign(Paper, first, last)
                         else MoveSigns(first, last)
    {
      var change := last.P(moves[j]) - first.P(moves[j]);
      if Abs(change) > 0.15 {
        signs := signs + [MoveChanged(moves[j], change > 0.0, Abs(change))];
      }
      j := j + 1;
    }
  }

  /** The sign-appending steps of `analyze_enemy_adaptation`. */
  method CollectSigns(as_: seq<PeriodAnalysis>) returns (signs: seq<Sign>)
    ensures signs == Signs(as_)
  {
    signs := [];
    if |as_| >= 2 {
      var first, last := as_[0], as_[|as_| - 1];
      var moveSigns := ChangedMoves(first.distribution, last.distribution);
      var entropyChange := last.entropy - first.entropy;
      var entropySign := [];
      if entropyChange > 0.15 {
        entropySign := [BecomingUnpredictable];
      } else if entropyChange < -0.15 {
        entropySign := [BecomingPredictable];
      }
      var winRateChange := last.winRate - first.winRate;
      var winRateSign := [];
      if winRateChange > 0.15 {
        winRateSign := [ImprovingPerformance];
      } else if winRateChange < -0.15 {
        winRateSign := [DecliningPerformance];
      }
      var shiftSign := [];
      if first.dominant != last.dominant {
        shiftSign := [ShiftedDominant(first.dominant, last.dominant)];
      }
      signs := moveSigns + entropySign + winRateSign + shiftSign;
    }
  }

  /** `analyze_enemy_adaptation` with its period split, its loops and its label chain. */
  method AnalyzeEnemyAdaptation(t: seq<Turn>, entropy: Dist -> real) returns (r: Adaptation)
    ensures r == AnalyseAdaptation(t, entropy)
  {
    if |t| < AdaptationMinBattles {
      return InsufficientData(|t|);
    }
    var ps := SplitPeriods(t, PeriodSize(|t|));
    var as_ := AnalysePeriodsLoop(ps, entropy);
    var signs := CollectSigns(as_);
    var reaction := DetectReactionPatterns(t);
    var kind := ClassifyAdaptation(reaction.reactive, signs);
    return Analysed(|t|, as_, signs, kind, reaction.patterns, reaction.rates);
  }

  /** The `adaptation_type` chain of `analyze_enemy_adaptation`. */
  method ClassifyAdaptation(reactive: bool, signs: seq<Sign>) returns (kind: AdaptationType)
    ensures kind == Classify(reactive, signs)
  {
    kind := Stable;
    if reactive {
      kind := Reactive;
    } else if BecomingUnpredictable in signs {
      kind := DefensiveRandomization;
    } else if ImprovingPerformance in signs && |signs| >= 2 {
      kind := Learning;
    } else if |signs| >= 3 {
      kind := ActivelyAdapting;
    } else if |signs| >= 1 {
      kind := GraduallyShifting;
    }
  }
}
