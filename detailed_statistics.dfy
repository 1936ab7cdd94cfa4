/**
 * The counting blocks of detailed_statistics_analysis.py. For every enemy:
 * the counter and copy rates against our previous move, the opponent's
 * follow-up after a recorded loss and the `is_reactive` test. For the ten
 * enemies with most battles: a shift in some move's share between the first
 * and the last third. For every enemy: the trend of its recorded-loss rate
 * between the two halves. Finally one pass over all rows, ordered by enemy,
 * tallies each enemy's 2-move and 3-move sequences.
 */
module DetailedStatistics {

  import opened Wrappers
  import opened Moves
  import opened Tally
  import opened Distributions
  import opened Transitions
  import opened Windows

  // ------------------------------------------------------------------ reactive behaviour

  /** The inner dict `post_loss_patterns[enemy_id]`. */
  datatype PostLoss = PostLoss(repeats: nat, switchesToCounter: nat, other: nat, total: nat)

  /** What the reactive block derives for one enemy. */
  datatype Reactivity = Reactivity(counterRate: Fraction, copyRate: Fraction, postLoss: PostLoss, reactive: bool)

  /** One enemy's id with its reactive results. */
  datatype EnemyReactivity = EnemyReactivity(id: int, r: Reactivity)

  /** One entry of `reactive_enemies`. */
  datatype ReactiveEnemy = ReactiveEnemy(id: int, counterRate: Fraction, copyRate: Fraction, postLossRepeat: Fraction)

  /** The follow-ups after a recorded loss, split three ways. */
  function PostLossOf(t: seq<Turn>): PostLoss {
    PostLoss(FollowUpCount(t, Loss, Repeated), FollowUpCount(t, Loss, SwitchedToCounter),
             FollowUpCount(t, Loss, SwitchedOther), AfterCount(t, Loss))
  }

  /** `repeats / max(1, total)`. */
  function RepeatShare(p: PostLoss): Fraction {
    Fraction(p.repeats, if p.total > 0 then p.total else 1)
  }

  /** `counter_rate > 0.35 or copy_rate > 0.35 or repeats / max(1, total) > 0.4`, without division. */
  predicate IsReactive(counter: Fraction, copy: Fraction, p: PostLoss) {
    counter.Exceeds(0.35) || copy.Exceeds(0.35) || RepeatShare(p).Exceeds(0.4)
  }

  /** The reactive block for one enemy; an enemy with fewer than two battles is skipped. */
  function ReactivityOf(t: seq<Turn>): (r: Option<Reactivity>)
    ensures r.None? <==> |t| < 2
    ensures r.Some? ==> r.value.counterRate.den == r.value.copyRate.den == |t| - 1
  {
    if |t| < 2 then None
    else
      var counter := Fraction(ReactionCount(t, Countered), |t| - 1);
      var copy := Fraction(ReactionCount(t, Copied), |t| - 1);
      var p := PostLossOf(t);
      Some(Reactivity(counter, copy, p, IsReactive(counter, copy, p)))
  }

  /**
   * Both rates are over the `|t| - 1` transitions. A transition is never
   * both a counter and a copy, so both rates lie in [0, 1] and add up to at
   * most 1.
   */
  lemma {:induction false} ReactionRatesBounded(t: seq<Turn>)
    requires |t| >= 2
    ensures ReactivityOf(t).Some?
    ensures ReactivityOf(t).value.counterRate.den == ReactivityOf(t).value.copyRate.den == |t| - 1
    ensures ReactivityOf(t).value.counterRate.num + ReactivityOf(t).value.copyRate.num <= |t| - 1
    ensures ReactivityOf(t).value.counterRate.Value() <= 1.0 && ReactivityOf(t).value.copyRate.Value() <= 1.0
    ensures ReactivityOf(t).value.counterRate.Value() + ReactivityOf(t).value.copyRate.Value() <= 1.0
  {
    ReactionsPartition(t);
    DisjointSharesAtMostOne(ReactionCount(t, Countered), ReactionCount(t, Copied), |t| - 1);
  }

  /** Every transition after a recorded loss is a repeat, a switch to the counter, or the other move. */
  lemma {:induction false} PostLossPartition(t: seq<Turn>)
    ensures PostLossOf(t).repeats + PostLossOf(t).switchesToCounter + PostLossOf(t).other == PostLossOf(t).total
    ensures PostLossOf(t).total == AfterCount(t, Loss) && AfterCount(t, Loss) <= |t|
  {
    FollowUpsPartition(t, Loss);
  }

  /** `is_reactive` is the threshold test on the rates as the script divides them. */
  lemma {:induction false} ReactiveIffRates(t: seq<Turn>)
    requires |t| >= 2
    ensures ReactivityOf(t).value.reactive
            <==> ReactivityOf(t).value.counterRate.Value() > 0.35 || ReactivityOf(t).value.copyRate.Value() > 0.35
                 || RepeatShare(ReactivityOf(t).value.postLoss).Value() > 0.4
  {
    var r := ReactivityOf(t).value;
    ExceedsIff(r.counterRate, 0.35);
    ExceedsIff(r.copyRate, 0.35);
    ExceedsIff(RepeatShare(r.postLoss), 0.4);
  }

  /** The loop of lines 60-73: counter and copy hits against our previous move, and the transitions seen. */
  method CountCounterCopy(t: seq<Turn>) returns (counterCount: nat, copyCount: nat, validTransitions: nat)
    ensures counterCount == ReactionCount(t, Countered) && copyCount == ReactionCount(t, Copied)
    ensures validTransitions == if |t| == 0 then 0 else |t| - 1
  {
    counterCount, copyCount, validTransitions := 0, 0, 0;
    if |t| < 2 {
      return;
    }
    var i := 1;
    while i < |t|
      invariant 1 <= i <= |t|
      invariant counterCount == ReactionCount(t[..i], Countered) && copyCount == ReactionCount(t[..i], Copied)
      invariant validTransitions == i - 1
    {
      ReactionCountStep(t, i, Countered);
      ReactionCountStep(t, i, Copied);
      var ourPrev, enemyCurr := t[i - 1].ours, t[i].theirs;
      if enemyCurr == Counter(ourPrev) {
        counterCount := counterCount + 1;
      }
      if enemyCurr == ourPrev {
        copyCount := copyCount + 1;
      }
      validTransitions := validTransitions + 1;
      i := i + 1;
    }
    assert t[..i] == t;
  }

  /** One step of the loop of lines 82-93, on the transition into turn `i`. */
  method CountPostLossStep(t: seq<Turn>, i: nat, ghost fs: seq<FollowUp>, p: PostLoss)
    returns (ghost fs': seq<FollowUp>, p': PostLoss)
    requires 1 <= i < |t| && fs == FollowUpsAfter(t[..i], Loss)
    requires p == PostLoss(CountOf(fs, Repeated), CountOf(fs, SwitchedToCounter), CountOf(fs, SwitchedOther), |fs|)
    ensures fs' == FollowUpsAfter(t[..i + 1], Loss)
    ensures p' == PostLoss(CountOf(fs', Repeated), CountOf(fs', SwitchedToCounter), CountOf(fs', SwitchedOther), |fs'|)
  {
    FollowUpsAfterStep(t, i, Loss);
    fs', p' := fs, p;
    if t[i - 1].outcome == Loss {
      var enemyPrev, enemyNext := t[i - 1].theirs, t[i].theirs;
      var f := FollowUpOf(enemyPrev, enemyNext);
      CountOfSnoc(fs, f, Repeated);
      CountOfSnoc(fs, f, SwitchedToCounter);
      CountOfSnoc(fs, f, SwitchedOther);
      if enemyNext == enemyPrev {
        p' := p.(repeats := p.repeats + 1);
      } else if enemyNext == Counter(enemyPrev) {
        p' := p.(switchesToCounter := p.switchesToCounter + 1);
      } else {
        p' := p.(other := p.other + 1);
      }
      p' := p'.(total := p.total + 1);
      fs' := fs + [f];
    } else {
      assert fs + [] == fs;
    }
  }

  /** The loop of lines 82-93: the opponent's follow-up after each recorded loss. */
  method CountPostLoss(t: seq<Turn>) returns (p: PostLoss)
    ensures p == PostLossOf(t)
  {
    p := PostLoss(0, 0, 0, 0);
    if |t| < 2 {
      return;
    }
    ghost var fs: seq<FollowUp> := [];
    var i := 1;
    while i < |t|
      invariant 1 <= i <= |t| && fs == FollowUpsAfter(t[..i], Loss)
      invariant p == PostLoss(CountOf(fs, Repeated), CountOf(fs, SwitchedToCounter), CountOf(fs, SwitchedOther), |fs|)
    {
      fs, p := CountPostLossStep(t, i, fs, p);
      i := i + 1;
    }
    assert t[..i] == t;
  }

  /** The body of the reactive block for one enemy (lines 50-106). */
  method AnalyseReactivity(t: seq<Turn>) returns (r: Option<Reactivity>)
    ensures r == ReactivityOf(t)
  {
    if |t| < 2 {
      return None;
    }
    var counterCount, copyCount, validTransitions := CountCounterCopy(t);
    // `valid_transitions > 0` holds here, since there are at least two battles
    var counter, copy := Fraction(counterCount, validTransitions), Fraction(copyCount, validTransitions);
    var p := CountPostLoss(t);
    r := Some(Reactivity(counter, copy, p, IsReactive(counter, copy, p)));
  }

  /** The enemies the reactive block keeps, with their results, in query order. */
  function Reactivities(es: seq<EnemyBattles>): (rs: seq<EnemyReactivity>)
    ensures |rs| <= |es|
  {
    if es == [] then []
    else
      var e := es[|es| - 1];
      var r := ReactivityOf(e.battles);
      Reactivities(es[..|es| - 1]) + (if r.Some? then [EnemyReactivity(e.id, r.value)] else [])
  }

  /** `reactive_enemies`: the analysed enemies whose `is_reactive` holds. */
  function ReactiveEntries(rs: seq<EnemyReactivity>): (found: seq<ReactiveEnemy>)
    ensures |found| <= |rs|
  {
    if rs == [] then []
    else
      var x := rs[|rs| - 1];
      ReactiveEntries(rs[..|rs| - 1])
      + (if x.r.reactive then [ReactiveEnemy(x.id, x.r.counterRate, x.r.copyRate, RepeatShare(x.r.postLoss))] else [])
  }

  /** `repeat_rates`: `repeats / total` of every enemy with more than five transitions after a loss. */
  function RepeatRates(rs: seq<EnemyReactivity>): (rates: seq<Fraction>)
    ensures |rates| <= |rs|
  {
    if rs == [] then []
    else
      var p := rs[|rs| - 1].r.postLoss;
      RepeatRates(rs[..|rs| - 1]) + (if p.total > 5 then [Fraction(p.repeats, p.total)] else [])
  }

  /**
   * Every reported reactive enemy is an enemy of the query with at least
   * two battles, whose counter or copy rate is over 0.35 or whose post-loss
   * repeat share is over 0.4.
   */
  lemma {:induction false} ReactiveEntriesSound(es: seq<EnemyBattles>)
    ensures forall x :: x in ReactiveEntries(Reactivities(es)) ==>
              (exists e :: e in es && e.id == x.id && |e.battles| >= 2)
              && (x.counterRate.Exceeds(0.35) || x.copyRate.Exceeds(0.35) || x.postLossRepeat.Exceeds(0.4))
    decreases |es|
  {
    if es != [] {
      var p, e := es[..|es| - 1], es[|es| - 1];
      ReactiveEntriesSound(p);
      var rs := Reactivities(p);
      var r := ReactivityOf(e.battles);
      var rs' := rs + (if r.Some? then [EnemyReactivity(e.id, r.value)] else []);
      assert Reactivities(es) == rs';
      if r.Some? {
        assert rs'[..|rs'| - 1] == rs;
      } else {
        assert rs' == rs;
      }
      forall x | x in ReactiveEntries(rs')
        ensures (exists e :: e in es && e.id == x.id && |e.battles| >= 2)
                && (x.counterRate.Exceeds(0.35) || x.copyRate.Exceeds(0.35) || x.postLossRepeat.Exceeds(0.4))
      {
        if x in ReactiveEntries(rs) {
          var w :| w in p && w.id == x.id && |w.battles| >= 2;
          assert w in es;
        } else {
          assert e in es;
        }
      }
    }
  }

  /** Every kept repeat rate has more than five transitions under it and lies in [0, 1]. */
  lemma {:induction false} RepeatRatesBounded(es: seq<EnemyBattles>)
    ensures forall f :: f in RepeatRates(Reactivities(es)) ==> f.den > 5 && f.num <= f.den
    decreases |es|
  {
    if es != [] {
      var p, e := es[..|es| - 1], es[|es| - 1];
      RepeatRatesBounded(p);
      var rs := Reactivities(p);
      var r := ReactivityOf(e.battles);
      var rs' := rs + (if r.Some? then [EnemyReactivity(e.id, r.value)] else []);
      assert Reactivities(es) == rs';
      if r.Some? {
        assert rs'[..|rs'| - 1] == rs;
        PostLossPartition(e.battles);
      } else {
        assert rs' == rs;
      }
    }
  }

  /** The loop of lines 42-106 over the enemies of the query, followed by the `repeat_rates` loop of lines 121-125. */
  method ReactiveBlock(es: seq<EnemyBattles>) returns (analysed: seq<EnemyReactivity>, reactive: seq<ReactiveEnemy>, repeatRates: seq<Fraction>)
    ensures analysed == Reactivities(es) && reactive == ReactiveEntries(analysed) && repeatRates == RepeatRates(analysed)
  {
    analysed, reactive, repeatRates := [], [], [];
    var i := 0;
    while i < |es|
      invariant i <= |es|
      invariant analysed == Reactivities(es[..i]) && reactive == ReactiveEntries(analysed) && repeatRates == RepeatRates(analysed)
    {
      assert es[..i + 1][..i] == es[..i];
      var e := es[i];
      var r := AnalyseReactivity(e.battles);
      if r.Some? {
        var x := EnemyReactivity(e.id, r.value);
        assert (analysed + [x])[..|analysed|] == analysed;
        if r.value.reactive {
          reactive := reactive + [ReactiveEnemy(e.id, r.value.counterRate, r.value.copyRate, RepeatShare(r.value.postLoss))];
        }
        if r.value.postLoss.total > 5 {
          repeatRates := repeatRates + [Fraction(r.value.postLoss.repeats, r.value.postLoss.total)];
        }
        analysed := analysed + [x];
      } else {
        assert analysed + [] == analysed;
      }
      i := i + 1;
    }
    assert es[..i] == es;
  }

  // ------------------------------------------------------------------ strategy evolution

  /** Enemies with fewer battles are skipped by the evolution and trend blocks. */
  const MinBattles := 20

  /** `enemies[:10]`. */
  const TopEnemies := 10

  /** The value a move's share takes in an empty third. */
  const ThirdDefault := Dist(0.333, 0.333, 0.333)

  /** The loop's move order. */
  const MoveOrder := [Rock, Paper, Scissor]

  /** `battles[:len(battles)//3]`. */
  function FirstThird(t: seq<Turn>): seq<Turn> {
    t[..|t| / 3]
  }

  /** `battles[2*len(battles)//3:]`. */
  function LastThird(t: seq<Turn>): seq<Turn> {
    t[2 * |t| / 3..]
  }

  /** `first_dist` and `last_dist` as shares: each move's count over the third's length (`sum(Counter(...).values())`), or 0.333 when the third is empty. */
  function FirstDist(t: seq<Turn>): Dist {
    GetDistribution(TheirMoves(FirstThird(t)), ThirdDefault)
  }

  function LastDist(t: seq<Turn>): Dist {
    GetDistribution(TheirMoves(LastThird(t)), ThirdDefault)
  }

  /** `abs(last_prob - first_prob)` for move `m`. */
  function ShareChange(t: seq<Turn>, m: Move): real {
    Abs(LastDist(t).P(m) - FirstDist(t).P(m))
  }

  /** The changes of rock, paper and scissor between two distributions, in the loop's order. */
  function ChangesBetween(first: Dist, last: Dist): (cs: seq<real>)
    ensures |cs| == 3 && forall m :: cs[Rank(m)] == Abs(last.P(m) - first.P(m))
  {
    [Abs(last.rock - first.rock), Abs(last.paper - first.paper), Abs(last.scissor - first.scissor)]
  }

  /** The changes of rock, paper and scissor over the thirds of `t`. */
  function ShareChanges(t: seq<Turn>): (cs: seq<real>)
    ensures |cs| == 3 && forall m :: cs[Rank(m)] == ShareChange(t, m)
  {
    ChangesBetween(FirstDist(t), LastDist(t))
  }

  /** What the move loop leaves: the changes it appended to `distribution_changes`, and the move at which it broke. */
  datatype ShiftCheck = ShiftCheck(changes: seq<real>, shifted: Option<Move>)

  /** Position of the first change over 0.15 in the loop's order, if any. */
  function FirstAbove(cs: seq<real>): (k: Option<nat>)
    requires |cs| == 3
    ensures k.Some? ==> k.value < 3 && cs[k.value] > 0.15 && forall j :: 0 <= j < k.value ==> cs[j] <= 0.15
    ensures k.None? ==> forall j :: 0 <= j < 3 ==> cs[j] <= 0.15
  {
    if cs[0] > 0.15 then Some(0) else if cs[1] > 0.15 then Some(1) else if cs[2] > 0.15 then Some(2) else None
  }

  /** What the move loop leaves given the three changes `cs`. */
  function ShiftOf(cs: seq<real>): ShiftCheck
    requires |cs| == 3
  {
    match FirstAbove(cs)
    case Some(k) => ShiftCheck(cs[..k + 1], Some(MoveOrder[k]))
    case None => ShiftCheck(cs, None)
  }

  /** The evolution block for one enemy; an enemy with fewer than 20 battles is skipped. */
  function ThirdsShift(t: seq<Turn>): (r: Option<ShiftCheck>)
    ensures r.None? <==> |t| < MinBattles
    ensures r.Some? ==> 1 <= |r.value.changes| <= 3
  {
    if |t| < MinBattles then None else Some(ShiftOf(ShareChanges(t)))
  }

  /**
   * With at least 20 battles both thirds are non-empty. The loop breaks at
   * the first move, in the order rock, paper, scissor, whose share changed
   * by more than 0.15, having appended the changes up to and including it;
   * without such a move it appends all three.
   */
  lemma {:induction false} ThirdsShiftFirstAbove(t: seq<Turn>)
    requires |t| >= MinBattles
    ensures |FirstThird(t)| >= 6 && |LastThird(t)| >= 7
    ensures ThirdsShift(t).Some?
    ensures ThirdsShift(t).value.shifted.Some? ==>
              var m := ThirdsShift(t).value.shifted.value;
              ShareChange(t, m) > 0.15 && (forall x :: Rank(x) < Rank(m) ==> ShareChange(t, x) <= 0.15)
              && ThirdsShift(t).value.changes == ShareChanges(t)[..Rank(m) + 1]
    ensures ThirdsShift(t).value.shifted.None? <==> forall x :: ShareChange(t, x) <= 0.15
    ensures ThirdsShift(t).value.shifted.None? ==> ThirdsShift(t).value.changes == ShareChanges(t)
  {
    var cs := ShareChanges(t);
    var k := FirstAbove(cs);
    if k.Some? {
      assert Rank(MoveOrder[k.value]) == k.value;
      forall x | Rank(x) < k.value ensures ShareChange(t, x) <= 0.15 {
        assert cs[Rank(x)] <= 0.15;
      }
    } else {
      forall x ensures ShareChange(t, x) <= 0.15 {
        assert cs[Rank(x)] <= 0.15;
      }
    }
  }

  /** The move loop of lines 165-174. */
  method ScanMoves(first: Dist, last: Dist) returns (c: ShiftCheck)
    ensures c == ShiftOf(ChangesBetween(first, last))
  {
    ghost var cs := ChangesBetween(first, last);
    var changes: seq<real> := [];
    var shifted: Option<Move> := None;
    var k := 0;
    while k < 3 && shifted.None?
      invariant k <= 3 && changes == cs[..k]
      invariant shifted.None? ==> forall j :: 0 <= j < k ==> cs[j] <= 0.15
      invariant shifted.Some? ==> 1 <= k && shifted.value == MoveOrder[k - 1] && cs[k - 1] > 0.15
                                  && forall j :: 0 <= j < k - 1 ==> cs[j] <= 0.15
      decreases 3 - k
    {
      var move := MoveOrder[k];
      var change := Abs(last.P(move) - first.P(move));
      assert Rank(move) == k;
      assert cs[..k + 1] == cs[..k] + [change];
      if change > 0.15 {
        shifted := Some(move);
      }
      changes := changes + [change];
      k := k + 1;
    }
    if shifted.Some? {
      assert FirstAbove(cs) == Some(k - 1);
    } else {
      assert changes == cs;
    }
    c := ShiftCheck(changes, shifted);
  }

  /** The evolution block for one enemy (lines 148-174). */
  method CheckThirds(t: seq<Turn>) returns (r: Option<ShiftCheck>)
    ensures r == ThirdsShift(t)
  {
    if |t| < MinBattles {
      return None;
    }
    var firstThird, lastThird := t[..|t| / 3], t[2 * |t| / 3..];
    var first := GetDistribution(TheirMoves(firstThird), ThirdDefault);
    var last := GetDistribution(TheirMoves(lastThird), ThirdDefault);
    var c := ScanMoves(first, last);
    r := Some(c);
  }

  /** Whether some move's share changed by more than 0.15 between the first and last third of an enemy with at least 20 battles. */
  predicate HasShift(e: EnemyBattles) {
    |e.battles| >= MinBattles
    && (ShareChange(e.battles, Rock) > 0.15 || ShareChange(e.battles, Paper) > 0.15 || ShareChange(e.battles, Scissor) > 0.15)
  }

  /** `enemies_with_shifts` and `distribution_changes` after the enemies `es`. */
  datatype ShiftSummary = ShiftSummary(shifts: nat, changes: seq<real>)

  /** One enemy's contribution: one shift at most, and the changes its loop appended. */
  function AddShift(s: ShiftSummary, c: Option<ShiftCheck>): ShiftSummary {
    match c
    case None => s
    case Some(c) => ShiftSummary(s.shifts + (if c.shifted.Some? then 1 else 0), s.changes + c.changes)
  }

  function ShiftTotals(es: seq<EnemyBattles>): ShiftSummary {
    if es == [] then ShiftSummary(0, []) else AddShift(ShiftTotals(es[..|es| - 1]), ThirdsShift(es[|es| - 1].battles))
  }

  /** Each enemy adds at most one to `enemies_with_shifts`: the count is the number of enemies with a shift in some move. */
  lemma {:induction false} ShiftsCountEnemies(es: seq<EnemyBattles>)
    ensures ShiftTotals(es).shifts == CountWhere(es, HasShift) <= |es|
    decreases |es|
  {
    if es != [] {
      var e := es[|es| - 1];
      ShiftsCountEnemies(es[..|es| - 1]);
      if |e.battles| >= MinBattles {
        ThirdsShiftFirstAbove(e.battles);
      }
    }
  }

  /** One enemy of the evolution loop. */
  method CountShift(s: ShiftSummary, e: EnemyBattles) returns (s': ShiftSummary)
    ensures s' == AddShift(s, ThirdsShift(e.battles))
  {
    s' := s;
    var c := CheckThirds(e.battles);
    if c.Some? {
      if c.value.shifted.Some? {
        s' := s'.(shifts := s.shifts + 1);
      }
      s' := s'.(changes := s.changes + c.value.changes);
    }
  }

  /** The evolution loop of lines 140-174 over `enemies[:10]`. */
  method ShiftBlock(es: seq<EnemyBattles>) returns (shifts: nat, changes: seq<real>)
    ensures ShiftSummary(shifts, changes) == ShiftTotals(es[..if |es| < TopEnemies then |es| else TopEnemies])
    ensures shifts <= TopEnemies
  {
    var top := es[..if |es| < TopEnemies then |es| else TopEnemies];
    var s := ShiftSummary(0, []);
    var i := 0;
    while i < |top|
      invariant i <= |top| && s == ShiftTotals(top[..i])
    {
      assert top[..i + 1][..i] == top[..i];
      s := CountShift(s, top[i]);
      i := i + 1;
    }
    assert top[..i] == top;
    ShiftsCountEnemies(top);
    shifts, changes := s.shifts, s.changes;
  }

  // ------------------------------------------------------------------ performance trends

  datatype Trend = Improving | Declining | Steady

  /** `sum(1 for b in half if b[3] == 'loss') / len(half) if half else 0`. */
  function LossRate(h: seq<Turn>): (r: real)
    ensures 0.0 <= r <= 1.0
  {
    if h == [] then 0.0 else Share(CountOf(Outcomes(h), Loss), |h|)
  }

  /** `second_rate - first_rate` over `battles[:len(battles)//2]` and `battles[len(battles)//2:]`. */
  function PerformanceChange(t: seq<Turn>): (change: real)
    ensures -1.0 <= change <= 1.0
  {
    LossRate(t[|t| / 2..]) - LossRate(t[..|t| / 2])
  }

  /** `if change > 0.1: improving ... elif change < -0.1: declining`; the two tests cannot both hold. */
  function TrendOf(change: real): (tr: Trend)
    ensures tr == Improving <==> change > 0.1
    ensures tr == Declining <==> change < -0.1
    ensures tr == Steady <==> -0.1 <= change <= 0.1
  {
    if change > 0.1 then Improving else if change < -0.1 then Declining else Steady
  }

  /** `improving_enemies`, `declining_enemies` and `performance_changes` after the enemies `es`. */
  datatype TrendSummary = TrendSummary(improving: nat, declining: nat, changes: seq<real>)

  /** One enemy's contribution, if it has at least 20 battles. */
  function AddTrend(s: TrendSummary, t: seq<Turn>): TrendSummary {
    if |t| < MinBattles then s
    else
      var tr := TrendOf(PerformanceChange(t));
      TrendSummary(s.improving + (if tr == Improving then 1 else 0), s.declining + (if tr == Declining then 1 else 0),
                   s.changes + [PerformanceChange(t)])
  }

  function TrendTotals(es: seq<EnemyBattles>): (s: TrendSummary)
    ensures |s.changes| <= |es| && s.improving + s.declining <= |s.changes|
  {
    if es == [] then TrendSummary(0, 0, []) else AddTrend(TrendTotals(es[..|es| - 1]), es[|es| - 1].battles)
  }

  /** Predicate form of the 20-battle floor, for counting. */
  predicate LongHistory(e: EnemyBattles) {
    |e.battles| >= MinBattles
  }

  /**
   * One change is recorded per enemy with at least 20 battles, each in
   * [-1, 1]; an enemy is counted as improving or as declining, never both,
   * so the "stable" count `total_enemies - improving - declining` is never negative.
   */
  lemma {:induction false} TrendTotalsCount(es: seq<EnemyBattles>)
    ensures |TrendTotals(es).changes| == CountWhere(es, LongHistory) <= |es|
    ensures TrendTotals(es).improving + TrendTotals(es).declining <= |TrendTotals(es).changes|
    ensures TrendTotals(es).improving == CountWhere(TrendTotals(es).changes, c => c > 0.1)
    ensures TrendTotals(es).declining == CountWhere(TrendTotals(es).changes, c => c < -0.1)
    ensures forall c :: c in TrendTotals(es).changes ==> -1.0 <= c <= 1.0
    decreases |es|
  {
    if es != [] {
      var p := es[..|es| - 1];
      TrendTotalsCount(p);
      var s, s' := TrendTotals(p), TrendTotals(es);
      if |es[|es| - 1].battles| >= MinBattles {
        assert s'.changes[..|s'.changes| - 1] == s.changes;
      }
    }
  }

  /** One enemy of the trend loop. */
  method CountTrend(s: TrendSummary, t: seq<Turn>) returns (s': TrendSummary)
    ensures s' == AddTrend(s, t)
  {
    s' := s;
    if |t| >= MinBattles {
      var change := PerformanceChange(t);
      if change > 0.1 {
        s' := s'.(improving := s.improving + 1);
      } else if change < -0.1 {
        s' := s'.(declining := s.declining + 1);
      }
      s' := s'.(changes := s.changes + [change]);
    }
  }

  /** The trend loop of lines 190-219 over all enemies. */
  method TrendBlock(es: seq<EnemyBattles>) returns (improving: nat, declining: nat, changes: seq<real>)
    ensures TrendSummary(improving, declining, changes) == TrendTotals(es)
  {
    var s := TrendSummary(0, 0, []);
    var i := 0;
    while i < |es|
      invariant i <= |es| && s == TrendTotals(es[..i])
    {
      assert es[..i + 1][..i] == es[..i];
      s := CountTrend(s, es[i].battles);
      i := i + 1;
    }
    assert es[..i] == es;
    improving, declining, changes := s.improving, s.declining, s.changes;
  }

  // ------------------------------------------------------------------ sequential patterns

  /** One row of the `SELECT enemy_id, enemy_move ... ORDER BY enemy_id, id` query. */
  datatype Row = Row(enemy: int, move: Move)

  /**
   * The maximal runs of consecutive rows of the same enemy, as move
   * sequences: the successive values `enemy_sequence` takes before an
   * enemy change.
   */
  function Runs(rows: seq<Row>): (rs: seq<seq<Move>>)
    ensures |rs| == 0 <==> |rows| == 0
    ensures forall j :: 0 <= j < |rs| ==> |rs[j]| > 0
    ensures |rows| > 0 ==> rs[|rs| - 1][|rs[|rs| - 1]| - 1] == rows[|rows| - 1].move
  {
    if rows == [] then []
    else
      var p, x := rows[..|rows| - 1], rows[|rows| - 1];
      var rs := Runs(p);
      if p != [] && p[|p| - 1].enemy == x.enemy then rs[..|rs| - 1] + [rs[|rs| - 1] + [x.move]]
      else rs + [[x.move]]
  }

  /** The runs whose sequences the pass tallies: all but the last, which no later enemy change flushes. */
  function Flushed(rows: seq<Row>): seq<seq<Move>> {
    var rs := Runs(rows);
    if rs == [] then [] else rs[..|rs| - 1]
  }

  /** The n-grams of the runs `rs`, run after run. */
  function GramsOfRuns(rs: seq<seq<Move>>, n: nat): seq<seq<Move>> {
    if rs == [] then [] else GramsOfRuns(rs[..|rs| - 1], n) + Grams(rs[|rs| - 1], n)
  }

  /**
   * The pairs of consecutive rows of the same enemy, in order: an
   * independent account of which 2-move sequences belong to one enemy.
   */
  function SameEnemyPairs(rows: seq<Row>): seq<seq<Move>> {
    if |rows| < 2 then []
    else
      var p := rows[..|rows| - 1];
      SameEnemyPairs(p)
      + (if p[|p| - 1].enemy == rows[|rows| - 1].enemy then [[p[|p| - 1].move, rows[|rows| - 1].move]] else [])
  }

  /** Appending a run appends its n-grams. */
  lemma {:induction false} GramsOfRunsSnoc(rs: seq<seq<Move>>, run: seq<Move>, n: nat)
    ensures GramsOfRuns(rs + [run], n) == GramsOfRuns(rs, n) + Grams(run, n)
  {
    assert (rs + [run])[..|rs|] == rs;
  }

  /** A row of the same enemy as the previous row extends the last run; any other row starts a new one. */
  lemma {:induction false} RunsStep(rows: seq<Row>, x: Row)
    ensures rows != [] && rows[|rows| - 1].enemy == x.enemy ==>
              Runs(rows + [x]) == Runs(rows)[..|Runs(rows)| - 1] + [Runs(rows)[|Runs(rows)| - 1] + [x.move]]
    ensures !(rows != [] && rows[|rows| - 1].enemy == x.enemy) ==> Runs(rows + [x]) == Runs(rows) + [[x.move]]
  {
    assert (rows + [x])[..|rows|] == rows;
  }

  /** Extending the last run by a move adds the 2-gram of the run's last move and the new one. */
  lemma {:induction false} ExtendRunPairs(init: seq<seq<Move>>, last: seq<Move>, m: Move)
    requires |last| > 0
    ensures GramsOfRuns(init + [last + [m]], 2) == GramsOfRuns(init + [last], 2) + [[last[|last| - 1], m]]
  {
    GramsOfRunsSnoc(init, last, 2);
    GramsOfRunsSnoc(init, last + [m], 2);
    var l := last + [m];
    GramsStep(l, |last|, 2);
    assert l[..|last| + 1] == l && l[..|last|] == last;
    assert l[|last| - 1..|last| + 1] == [last[|last| - 1], m];
  }

  /**
   * The 2-grams of the runs are exactly the pairs of consecutive rows of the
   * same enemy: no pair spans two enemies and none is missed.
   */
  lemma {:induction false} RunPairsAreSameEnemyPairs(rows: seq<Row>)
    ensures GramsOfRuns(Runs(rows), 2) == SameEnemyPairs(rows)
    decreases |rows|
  {
    if rows != [] {
      var p, x := rows[..|rows| - 1], rows[|rows| - 1];
      assert rows == p + [x];
      RunPairsAreSameEnemyPairs(p);
      RunsStep(p, x);
      var rs := Runs(p);
      if p != [] && p[|p| - 1].enemy == x.enemy {
        assert rs == rs[..|rs| - 1] + [rs[|rs| - 1]];
        ExtendRunPairs(rs[..|rs| - 1], rs[|rs| - 1], x.move);
      } else {
        GramsOfRunsSnoc(rs, [x.move], 2);
        assert Grams([x.move], 2) == [];
      }
    }
  }

  /** Without the final flush the pass misses exactly the last run: all of its sequences, and nothing else. */
  lemma {:induction false} AsWrittenMissesLastRun(rows: seq<Row>, n: nat)
    requires rows != []
    ensures GramsOfRuns(Runs(rows), n) == GramsOfRuns(Flushed(rows), n) + Grams(LastRun(rows), n)
  {
    RunsEndWithPending(rows);
    GramsOfRunsSnoc(Flushed(rows), LastRun(rows), n);
  }

  /** Two rows of one enemy, rock then paper: the enemy's one 2-move sequence is never tallied. */
  lemma SingleEnemyNeverTallied()
    ensures GramsOfRuns(Flushed([Row(1, Rock), Row(1, Paper)]), 2) == []
    ensures GramsOfRuns(Runs([Row(1, Rock), Row(1, Paper)]), 2) == [[Rock, Paper]]
  {
    var first := [Row(1, Rock)];
    var rows := first + [Row(1, Paper)];
    assert rows == [Row(1, Rock), Row(1, Paper)];
    RunsStep(first, Row(1, Paper));
    assert first[..0] == [];
    var rs := Runs(first);
    assert rs == [[Rock]];
    assert rs[0] == [Rock] && rs[..0] == [];
    assert [Rock] + [Paper] == [Rock, Paper];
    assert Runs(rows) == [] + [[Rock] + [Paper]];
    GramsOfRunsSnoc([], [Rock, Paper], 2);
    assert [] + [[Rock, Paper]] == [[Rock, Paper]];
  }

  /** `two_patterns[key]` on a defaultdict: 0 for a key never counted. */
  function Get(counts: map<seq<Move>, nat>, k: seq<Move>): nat {
    if k in counts then counts[k] else 0
  }

  /** `forward_cycle`: rock-paper, paper-scissor and scissor-rock sequences. */
  function ForwardCycle(two: map<seq<Move>, nat>): nat {
    Get(two, [Rock, Paper]) + Get(two, [Paper, Scissor]) + Get(two, [Scissor, Rock])
  }

  /** `reverse_cycle`: rock-scissor, paper-rock and scissor-paper sequences. */
  function ReverseCycle(two: map<seq<Move>, nat>): nat {
    Get(two, [Rock, Scissor]) + Get(two, [Paper, Rock]) + Get(two, [Scissor, Paper])
  }

  /** Six distinct keys count six disjoint sets of items. */
  lemma {:induction false} CycleKeysDisjoint(g: seq<seq<Move>>)
    ensures CountOf(g, [Rock, Paper]) + CountOf(g, [Paper, Scissor]) + CountOf(g, [Scissor, Rock])
            + CountOf(g, [Rock, Scissor]) + CountOf(g, [Paper, Rock]) + CountOf(g, [Scissor, Paper]) <= |g|
    decreases |g|
  {
    if g != [] {
      CycleKeysDisjoint(g[..|g| - 1]);
    }
  }

  /** The two cycle counts together never exceed the number of tallied sequences. */
  lemma {:induction false} CyclesWithinTotal(two: map<seq<Move>, nat>, g: seq<seq<Move>>)
    requires IsTallyOf(two, g)
    ensures ForwardCycle(two) + ReverseCycle(two) <= |g|
  {
    CycleKeysDisjoint(g);
    forall k ensures Get(two, k) == CountOf(g, k) {
    }
  }

  /** `total_sequences` is the sum of the 2-move counts. */
  lemma {:induction false} TotalIsSumOfCounts(two: map<seq<Move>, nat>, g: seq<seq<Move>>)
    requires IsTallyOf(two, g)
    ensures SumCountsWhere(Keys(g), two, _ => true) == |g|
  {
    SumOfTally(g, two, _ => true);
    CountWhereAll(g, _ => true);
  }

  /** The loop `for i in range(len(enemy_sequence) - n + 1)` adding one run's n-grams to a tally. */
  method AddRunGrams(counts: map<seq<Move>, nat>, order: seq<seq<Move>>, ghost prior: seq<seq<Move>>, run: seq<Move>, n: nat)
    returns (counts': map<seq<Move>, nat>, order': seq<seq<Move>>, added: nat)
    requires n > 0 && IsTallyOf(counts, prior) && order == Keys(prior)
    ensures IsTallyOf(counts', prior + Grams(run, n)) && order' == Keys(prior + Grams(run, n))
    ensures added == |Grams(run, n)|
  {
    counts', order', added := counts, order, 0;
    ghost var gs := Grams(run, n);
    ghost var acc := prior;
    var i := 0;
    assert prior + gs[..0] == prior;
    while i + n <= |run|
      invariant i <= |gs| && added == i && acc == prior + gs[..i]
      invariant IsTallyOf(counts', acc) && order' == Keys(acc)
    {
      GramAt(run, n, i);
      SnocSlice(prior, gs, i);
      counts', order' := Increment(counts', order', acc, run[i..i + n]);
      acc := acc + [run[i..i + n]];
      added := added + 1;
      i := i + 1;
    }
    assert gs[..i] == gs;
  }

  lemma {:induction false} SnocSlice<T>(prior: seq<T>, s: seq<T>, i: nat)
    requires i < |s|
    ensures prior + s[..i + 1] == (prior + s[..i]) + [s[i]]
  {
    assert s[..i + 1] == s[..i] + [s[i]];
  }

  /** The tallies of the pass: the 2-move and 3-move dicts with their key orders, and `total_sequences`. */
  datatype SequenceTallies = SequenceTallies(
    two: map<seq<Move>, nat>, twoOrder: seq<seq<Move>>,
    three: map<seq<Move>, nat>, threeOrder: seq<seq<Move>>,
    total: nat)

  /** The tallies hold the 2-grams and 3-grams of the runs `rs`, and `total` counts the 2-grams. */
  ghost predicate Tallied(s: SequenceTallies, rs: seq<seq<Move>>) {
    IsTallyOf(s.two, GramsOfRuns(rs, 2)) && s.twoOrder == Keys(GramsOfRuns(rs, 2))
    && IsTallyOf(s.three, GramsOfRuns(rs, 3)) && s.threeOrder == Keys(GramsOfRuns(rs, 3))
    && s.total == |GramsOfRuns(rs, 2)|
  }

  /** Processing one enemy's sequence (lines 250-258): its 2-grams and 3-grams, when it has at least two moves. */
  method FlushRun(s: SequenceTallies, ghost rs: seq<seq<Move>>, run: seq<Move>) returns (s': SequenceTallies)
    requires Tallied(s, rs)
    ensures Tallied(s', rs + [run])
  {
    GramsOfRunsSnoc(rs, run, 2);
    GramsOfRunsSnoc(rs, run, 3);
    s' := s;
    if |run| >= 2 {
      var two, twoOrder, added := AddRunGrams(s.two, s.twoOrder, GramsOfRuns(rs, 2), run, 2);
      var three, threeOrder, _ := AddRunGrams(s.three, s.threeOrder, GramsOfRuns(rs, 3), run, 3);
      s' := SequenceTallies(two, twoOrder, three, threeOrder, s.total + added);
    } else {
      assert Grams(run, 2) == [] && Grams(run, 3) == [];
      assert GramsOfRuns(rs, 2) + [] == GramsOfRuns(rs, 2) && GramsOfRuns(rs, 3) + [] == GramsOfRuns(rs, 3);
    }
  }

  /** The run still pending after the rows `rows`: the moves of the last enemy's trailing rows. */
  function LastRun(rows: seq<Row>): seq<Move>
    requires rows != []
  {
    Runs(rows)[|Runs(rows)| - 1]
  }

  /** The runs are the flushed runs followed by the pending one. */
  lemma {:induction false} RunsEndWithPending(rows: seq<Row>)
    requires rows != []
    ensures Runs(rows) == Flushed(rows) + [LastRun(rows)]
  {
    var rs := Runs(rows);
    assert rs == rs[..|rs| - 1] + [rs[|rs| - 1]];
  }

  /** A row of the same enemy extends the pending run; a row of another enemy closes it and starts a new one. */
  lemma {:induction false} FlushedStep(rows: seq<Row>, x: Row)
    ensures rows != [] && rows[|rows| - 1].enemy == x.enemy ==>
              Flushed(rows + [x]) == Flushed(rows) && LastRun(rows + [x]) == LastRun(rows) + [x.move]
    ensures !(rows != [] && rows[|rows| - 1].enemy == x.enemy) ==>
              Flushed(rows + [x]) == Runs(rows) && LastRun(rows + [x]) == [x.move]
  {
    RunsStep(rows, x);
    var rs := Runs(rows);
    if rows != [] {
      if rows[|rows| - 1].enemy == x.enemy {
        assert (rs[..|rs| - 1] + [rs[|rs| - 1] + [x.move]])[..|rs| - 1] == rs[..|rs| - 1];
      }
    }
    assert (rs + [[x.move]])[..|rs|] == rs;
  }

  /** One row of the loop of lines 247-263. */
  method ScanRow(rows: seq<Row>, i: nat, current: Option<int>, run: seq<Move>, s: SequenceTallies)
    returns (current': Option<int>, run': seq<Move>, s': SequenceTallies)
    requires i < |rows| && current == (if i == 0 then None else Some(rows[i - 1].enemy))
    requires i > 0 ==> run == LastRun(rows[..i])
    requires Tallied(s, Flushed(rows[..i]))
    ensures current' == Some(rows[i].enemy) && run' == LastRun(rows[..i + 1])
    ensures Tallied(s', Flushed(rows[..i + 1]))
  {
    var p, x := rows[..i], rows[i];
    assert rows[..i + 1] == p + [x];
    FlushedStep(p, x);
    if current != Some(x.enemy) {
      s' := s;
      if i > 0 {
        RunsEndWithPending(p);
        s' := FlushRun(s, Flushed(p), run);
      }
      current', run' := Some(x.enemy), [x.move];
    } else {
      s' := s;
      current', run' := current, run + [x.move];
    }
  }

  /** The loop of lines 247-263: the tallies, and the run still pending when the rows end. */
  method ScanRows(rows: seq<Row>) returns (s: SequenceTallies, run: seq<Move>)
    ensures Tallied(s, Flushed(rows))
    ensures rows != [] ==> run == LastRun(rows)
  {
    s := SequenceTallies(map[], [], map[], [], 0);
    run := [];
    var current: Option<int> := None;
    var i := 0;
    while i < |rows|
      invariant i <= |rows| && current == (if i == 0 then None else Some(rows[i - 1].enemy))
      invariant i > 0 ==> run == LastRun(rows[..i])
      invariant Tallied(s, Flushed(rows[..i]))
    {
      current, run, s := ScanRow(rows, i, current, run, s);
      i := i + 1;
    }
    assert rows[..i] == rows;
  }

  /**
   * The pass as written: a run is tallied only when the next enemy's first
   * row arrives, so the sequences of the last enemy are never tallied.
   */
  method SequencePassAsWritten(rows: seq<Row>) returns (s: SequenceTallies)
    ensures Tallied(s, Flushed(rows))
  {
    var pending;
    s, pending := ScanRows(rows);
  }

  /** The pass with the pending run tallied after the last row, so that every enemy's sequences are counted. */
  method SequencePass(rows: seq<Row>) returns (s: SequenceTallies)
    ensures Tallied(s, Runs(rows))
    ensures s.total == |SameEnemyPairs(rows)|
    ensures SumCountsWhere(s.twoOrder, s.two, _ => true) == s.total
    ensures ForwardCycle(s.two) + ReverseCycle(s.two) <= s.total
  {
    var run;
    s, run := ScanRows(rows);
    if rows != [] {
      RunsEndWithPending(rows);
      s := FlushRun(s, Flushed(rows), run);
    }
    RunPairsAreSameEnemyPairs(rows);
    TotalIsSumOfCounts(s.two, GramsOfRuns(Runs(rows), 2));
    CyclesWithinTotal(s.two, GramsOfRuns(Runs(rows), 2));
  }
}
