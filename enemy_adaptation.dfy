/**
 * analyze_enemy_adaptation.py: `analyze_adaptation`, which splits an
 * opponent's moves into periods of `max(10, n // 5)` moves and tags a
 * near-uniform last period, a rise or a fall in entropy, a large shift
 * between consecutive periods and a rock-to-paper-to-scissor cycle of the
 * periods' dominant moves, then labels the opponent by a fixed priority.
 *
 * `calculate_entropy` is a parameter `entropy: Dist -> real`;
 * `get_distribution` is `Distributions.GetDistribution` with the
 * `0.33 / 0.33 / 0.34` default. The battle numbers paired with the moves are
 * never read, so the input is the opponent's moves alone.
 */
module EnemyAdaptation {

  import opened Wrappers
  import opened Moves
  import opened Tally
  import opened Distributions
  import opened Windows

  const MinMoves: nat := 10

  /** The strings appended to `analysis['patterns']`. */
  datatype Tag =
    | ConvergingToNash
    | IncreasingRandomness
    | BecomingPredictable
    | PeriodShift(period: nat, move: Move, increased: bool, change: real)
    | CyclingStrategy

  datatype AdaptationType = NashConvergence | Cycling | AdaptiveRandomization | SettlingIntoPattern | ActivelyAdapting | Stable

  /** The returned dict. */
  datatype Analysis =
    | InsufficientData(battles: nat)
    | Analysed(totalBattles: nat, periodsAnalysed: nat, distributions: seq<Dist>, entropies: seq<real>,
               patterns: seq<Tag>, kind: AdaptationType)

  /** `max(10, total_battles // 5)`. */
  function PeriodSize(n: nat): (size: nat)
    ensures size >= 10 && size >= n / 5 && (size == 10 || size == n / 5)
  {
    if n / 5 > 10 then n / 5 else 10
  }

  /** `[get_distribution(period) for period in periods]`. */
  function PeriodDistributions(ps: seq<seq<Move>>): (ds: seq<Dist>)
    ensures |ds| == |ps|
    ensures forall i :: 0 <= i < |ps| ==> ds[i] == GetDistribution(ps[i], RoundedDefault)
  {
    seq(|ps|, i requires 0 <= i < |ps| => GetDistribution(ps[i], RoundedDefault))
  }

  /** `[calculate_entropy(dist) for dist in distributions]`. */
  function Entropies(ds: seq<Dist>, entropy: Dist -> real): (es: seq<real>)
    ensures |es| == |ds|
    ensures forall i :: 0 <= i < |ds| ==> es[i] == entropy(ds[i])
  {
    seq(|ds|, i requires 0 <= i < |ds| => entropy(ds[i]))
  }

  // ------------------------------------------------------------ nash check

  /** The distance of a distribution from uniform, as the sum of the three shares' distances from 0.333. */
  function Deviation(d: Dist): real {
    Abs(d.rock - 0.333) + Abs(d.paper - 0.333) + Abs(d.scissor - 0.333)
  }

  /** The latest distribution; with none, `{}` reads every share as 0. */
  function Latest(ds: seq<Dist>): Dist {
    if ds == [] then Dist(0.0, 0.0, 0.0) else ds[|ds| - 1]
  }

  /**
   * The nash tag, present exactly when the last period's deviation from
   * uniform is below 0.1; every share of that period then lies within 0.1
   * of 0.333.
   */
  function NashTag(ds: seq<Dist>): (tags: seq<Tag>)
    ensures |tags| <= 1 && forall x :: x in tags ==> x == ConvergingToNash
    ensures tags != [] <==> ds != [] && Deviation(ds[|ds| - 1]) < 0.1
    ensures tags != [] ==> var d := ds[|ds| - 1];
              0.233 < d.rock < 0.433 && 0.233 < d.paper < 0.433 && 0.233 < d.scissor < 0.433
  {
    if Deviation(Latest(ds)) < 0.1 then [ConvergingToNash] else []
  }

  // ---------------------------------------------------------- entropy trend

  /**
   * The entropy tags: none with fewer than three periods, otherwise a rise
   * of more than 0.2 from the first to the last entropy or a fall of more
   * than 0.2, never both.
   */
  function EntropyTags(es: seq<real>): (tags: seq<Tag>)
    ensures |tags| <= 1
    ensures |es| < 3 ==> tags == []
    ensures IncreasingRandomness in tags <==> |es| >= 3 && es[|es| - 1] > es[0] + 0.2
    ensures BecomingPredictable in tags <==> |es| >= 3 && es[|es| - 1] < es[0] - 0.2
    ensures forall x :: x in tags ==> x == IncreasingRandomness || x == BecomingPredictable
  {
    if |es| >= 3 then
      if es[|es| - 1] > es[0] + 0.2 then [IncreasingRandomness]
      else if es[|es| - 1] < es[0] - 0.2 then [BecomingPredictable]
      else []
    else []
  }

  // --------------------------------------------------------- strategy shifts

  /** The candidate `(max_change, changed_move)` of the per-move scan. */
  datatype Change = Change(amount: real, move: Option<Move>)

  /** `abs(curr[move] - prev[move])`. */
  function MoveChange(prev: Dist, curr: Dist, m: Move): real {
    Abs(curr.P(m) - prev.P(m))
  }

  /** One step of the scan: the candidate is replaced only by a strictly larger change. */
  function ScanMove(best: Change, prev: Dist, curr: Dist, m: Move): Change {
    var c := MoveChange(prev, curr, m);
    if c > best.amount then Change(c, Some(m)) else best
  }

  /**
   * The scan over rock, paper and scissor from `(0, None)`: the largest
   * change and the earliest move that has it, or no move when no share
   * changed at all.
   */
  function BiggestChange(prev: Dist, curr: Dist): (c: Change)
    ensures forall m :: MoveChange(prev, curr, m) <= c.amount
    ensures c.move.None? ==> c.amount == 0.0
    ensures c.move.Some? ==> c.amount == MoveChange(prev, curr, c.move.value) > 0.0
    ensures c.move.Some? ==> forall m :: Rank(m) < Rank(c.move.value) ==> MoveChange(prev, curr, m) < c.amount
  {
    var init := Change(0.0, None);
    ScanMove(ScanMove(ScanMove(init, prev, curr, Rock), prev, curr, Paper), prev, curr, Scissor)
  }

  /** The tag for the pair of periods `i - 1` and `i`, when the largest change exceeds 0.2. */
  function ShiftTag(i: nat, prev: Dist, curr: Dist): (tags: seq<Tag>)
    ensures |tags| <= 1 && forall x :: x in tags ==> x.PeriodShift? && x.period == i
  {
    var c := BiggestChange(prev, curr);
    if c.amount > 0.2 then
      var m := c.move.value;
      [PeriodShift(i, m, curr.P(m) > prev.P(m), c.amount)]
    else []
  }

  /**
   * A pair of periods has a shift tag exactly when some move's share changed
   * by more than 0.2; the tag names the move with the largest change, the
   * earliest of rock, paper, scissor on ties, with the size and the
   * direction of that change.
   */
  lemma ShiftTagLargest(i: nat, prev: Dist, curr: Dist)
    ensures ShiftTag(i, prev, curr) != [] <==> exists m :: MoveChange(prev, curr, m) > 0.2
    ensures forall x :: x in ShiftTag(i, prev, curr) ==>
              x.change == MoveChange(prev, curr, x.move)
              && (forall m :: MoveChange(prev, curr, m) <= x.change)
              && (forall m :: Rank(m) < Rank(x.move) ==> MoveChange(prev, curr, m) < x.change)
              && (x.increased <==> curr.P(x.move) > prev.P(x.move))
  {
    var c := BiggestChange(prev, curr);
    if c.amount > 0.2 {
      assert MoveChange(prev, curr, c.move.value) > 0.2;
    }
  }

  /** The shift tags of every consecutive pair of periods, in order. */
  function ShiftTags(ds: seq<Dist>): (tags: seq<Tag>)
    ensures forall x :: x in tags ==> x.PeriodShift? && 1 <= x.period < |ds|
    decreases |ds|
  {
    if |ds| < 2 then []
    else ShiftTags(ds[..|ds| - 1]) + ShiftTag(|ds| - 1, ds[|ds| - 2], ds[|ds| - 1])
  }

  /** The shift tags are in the order of the pairs, so there is at most one per pair. */
  lemma {:induction false} ShiftTagsOrdered(ds: seq<Dist>)
    ensures forall j, k :: 0 <= j < k < |ShiftTags(ds)| ==> ShiftTags(ds)[j].period < ShiftTags(ds)[k].period
    decreases |ds|
  {
    if |ds| >= 2 {
      var n := |ds|;
      var p := ds[..n - 1];
      ShiftTagsOrdered(p);
      var tp, last := ShiftTags(p), ShiftTag(n - 1, ds[n - 2], ds[n - 1]);
      var tags := tp + last;
      assert ShiftTags(ds) == tags;
      forall j, k | 0 <= j < k < |tags| ensures tags[j].period < tags[k].period {
        assert tags[j] == tp[j];
        if k < |tp| {
          assert tags[k] == tp[k];
        } else {
          assert tp[j] in tp && tags[k] == last[0] && last[0] in last;
        }
      }
    }
  }

  /** Every shift tag is the tag of the pair it names. */
  lemma {:induction false} ShiftTagsSound(ds: seq<Dist>)
    ensures forall x :: x in ShiftTags(ds) ==> ShiftTag(x.period, ds[x.period - 1], ds[x.period]) == [x]
    decreases |ds|
  {
    if |ds| >= 2 {
      var n := |ds|;
      var p := ds[..n - 1];
      ShiftTagsSound(p);
      var tp, last := ShiftTags(p), ShiftTag(n - 1, ds[n - 2], ds[n - 1]);
      assert ShiftTags(ds) == tp + last;
      forall x: Tag | x in tp ensures ShiftTag(x.period, ds[x.period - 1], ds[x.period]) == [x] {
        assert p[x.period - 1] == ds[x.period - 1] && p[x.period] == ds[x.period];
      }
      forall x: Tag | x in last ensures ShiftTag(x.period, ds[x.period - 1], ds[x.period]) == [x] {
        assert last == [x];
      }
    }
  }

  /** Every pair of periods that has a shift tag contributes it. */
  lemma {:induction false} ShiftTagsComplete(ds: seq<Dist>)
    ensures forall i :: 1 <= i < |ds| && ShiftTag(i, ds[i - 1], ds[i]) != [] ==> ShiftTag(i, ds[i - 1], ds[i])[0] in ShiftTags(ds)
    decreases |ds|
  {
    if |ds| >= 2 {
      var n := |ds|;
      var p := ds[..n - 1];
      ShiftTagsComplete(p);
      var tp, last := ShiftTags(p), ShiftTag(n - 1, ds[n - 2], ds[n - 1]);
      assert ShiftTags(ds) == tp + last;
      forall i | 1 <= i < n && ShiftTag(i, ds[i - 1], ds[i]) != [] ensures ShiftTag(i, ds[i - 1], ds[i])[0] in tp + last {
        if i < n - 1 {
          assert p[i - 1] == ds[i - 1] && p[i] == ds[i];
          assert ShiftTag(i, p[i - 1], p[i])[0] in tp;
        }
      }
    }
  }

  // ---------------------------------------------------------------- cycling

  /** `counter.most_common(1)[0][0] if counter else None`: the first-seen most frequent move. */
  function Dominant(p: seq<Move>): (d: Option<Move>)
    ensures d.None? <==> p == []
    ensures d.Some? ==> d.value in p && forall m :: CountOf(p, m) <= CountOf(p, d.value)
  {
    if p == [] then None else Some(MostFrequent(p))
  }

  function Dominants(ps: seq<seq<Move>>): (doms: seq<Option<Move>>)
    ensures |doms| == |ps|
    ensures forall i :: 0 <= i < |ps| ==> doms[i] == Dominant(ps[i])
  {
    seq(|ps|, i requires 0 <= i < |ps| => Dominant(ps[i]))
  }

  /** `dom[i] == cycle.get(dom[i - 1])`: rock to paper, paper to scissor, scissor to rock. */
  predicate Forward(prev: Option<Move>, curr: Option<Move>) {
    curr == (if prev.Some? then Some(Counter(prev.value)) else None)
  }

  /** The number of forward steps between consecutive dominant moves. */
  function CycleSteps(doms: seq<Option<Move>>): (n: nat)
    ensures n <= if |doms| == 0 then 0 else |doms| - 1
    decreases |doms|
  {
    if |doms| < 2 then 0
    else CycleSteps(doms[..|doms| - 1]) + (if Forward(doms[|doms| - 2], doms[|doms| - 1]) then 1 else 0)
  }

  /**
   * The cycling tag needs three periods or more and forward steps in at
   * least half the number of periods (not of pairs), so never fewer than two.
   */
  function CyclingTag(ps: seq<seq<Move>>): (tags: seq<Tag>)
    ensures |tags| <= 1 && forall x :: x in tags ==> x == CyclingStrategy
    ensures tags != [] <==> |ps| >= 3 && 2 * CycleSteps(Dominants(ps)) >= |ps|
    ensures tags != [] ==> CycleSteps(Dominants(ps)) >= 2
  {
    if |ps| >= 3 && CycleSteps(Dominants(ps)) as real >= |ps| as real * 0.5 then [CyclingStrategy] else []
  }

  /** Every step forward counts every pair. */
  lemma {:induction false} AllForwardSteps(doms: seq<Option<Move>>)
    requires |doms| >= 1
    requires forall i :: 1 <= i < |doms| ==> Forward(doms[i - 1], doms[i])
    ensures CycleSteps(doms) == |doms| - 1
    decreases |doms|
  {
    if |doms| >= 2 {
      var p := doms[..|doms| - 1];
      assert forall i :: 0 <= i < |p| ==> p[i] == doms[i];
      AllForwardSteps(p);
    }
  }

  /**
   * Three or more periods whose dominant moves run rock, paper, scissor in
   * order (each the counter of the one before) are always tagged as cycling.
   */
  lemma {:induction false} PerfectCycleTagged(ps: seq<seq<Move>>)
    requires |ps| >= 3 && forall i :: 0 <= i < |ps| ==> ps[i] != []
    requires forall i :: 1 <= i < |ps| ==> MostFrequent(ps[i]) == Counter(MostFrequent(ps[i - 1]))
    ensures CyclingTag(ps) == [CyclingStrategy]
  {
    var doms := Dominants(ps);
    AllForwardSteps(doms);
  }

  // ------------------------------------------------------------------ label

  /** The `adaptation_type` chain; a substring test on the tags' text is membership of the tag. */
  function Classify(tags: seq<Tag>): (r: AdaptationType)
    ensures r == NashConvergence <==> ConvergingToNash in tags
    ensures r == Stable ==> |tags| <= 2
  {
    if ConvergingToNash in tags then NashConvergence
    else if CyclingStrategy in tags then Cycling
    else if IncreasingRandomness in tags then AdaptiveRandomization
    else if BecomingPredictable in tags then SettlingIntoPattern
    else if |tags| > 2 then ActivelyAdapting
    else Stable
  }

  /**
   * The label follows the priority nash convergence, cycling, adaptive
   * randomization, settling into a pattern, active adaptation (more than
   * two tags, all shifts), stable.
   */
  lemma {:induction false} ClassifyPriority(tags: seq<Tag>)
    ensures Classify(tags) == NashConvergence <==> ConvergingToNash in tags
    ensures Classify(tags) == Cycling <==> !(ConvergingToNash in tags) && CyclingStrategy in tags
    ensures Classify(tags) == AdaptiveRandomization <==>
              !(ConvergingToNash in tags) && !(CyclingStrategy in tags) && IncreasingRandomness in tags
    ensures Classify(tags) == SettlingIntoPattern <==>
              !(ConvergingToNash in tags) && !(CyclingStrategy in tags) && !(IncreasingRandomness in tags) && BecomingPredictable in tags
    ensures Classify(tags) == ActivelyAdapting ==> |tags| > 2 && forall x :: x in tags ==> x.PeriodShift?
    ensures Classify(tags) == Stable ==> |tags| <= 2 && forall x :: x in tags ==> x.PeriodShift?
  {
  }

  // ---------------------------------------------------------------- analysis

  /** The four tag groups, in the order they are appended. */
  function Tags(ps: seq<seq<Move>>, ds: seq<Dist>, es: seq<real>): (tags: seq<Tag>)
    ensures ConvergingToNash in tags <==> NashTag(ds) != []
    ensures CyclingStrategy in tags <==> CyclingTag(ps) != []
  {
    NashTag(ds) + EntropyTags(es) + ShiftTags(ds) + CyclingTag(ps)
  }

  /** `analyze_adaptation(moves)`. */
  function Analyse(moves: seq<Move>, entropy: Dist -> real): (r: Analysis)
    ensures r.InsufficientData? <==> |moves| < MinMoves
  {
    if |moves| < MinMoves then InsufficientData(|moves|)
    else
      var ps := Chunks(moves, PeriodSize(|moves|));
      var ds := PeriodDistributions(ps);
      var es := Entropies(ds, entropy);
      var tags := Tags(ps, ds, es);
      Analysed(|moves|, |ps|, ds, es, tags, Classify(tags))
  }

  /** There are between one and six periods of `max(10, n // 5)` moves, for ten moves or more. */
  lemma {:induction false} PeriodCount(moves: seq<Move>)
    requires |moves| >= MinMoves
    ensures 1 <= |Chunks(moves, PeriodSize(|moves|))| <= 6
    ensures |moves| <= 20 ==> |Chunks(moves, PeriodSize(|moves|))| <= 2
  {
    var n, size := |moves|, PeriodSize(|moves|);
    ChunksCount(moves, size);
    var k := |Chunks(moves, size)|;
    assert n < 5 * size + 5 by {
      assert n == 5 * (n / 5) + n % 5;
    }
    assert (k - 1) * size < 6 * size;
    FactorBelow(k - 1, 6, size);
    if n <= 20 {
      assert (k - 1) * size < 2 * size;
      FactorBelow(k - 1, 2, size);
    }
  }

  /** Cancelling a positive factor keeps a strict inequality. */
  lemma FactorBelow(a: int, b: int, c: int)
    requires c > 0 && a * c < b * c
    ensures a < b
  {
    assert (b - a) * c == b * c - a * c;
  }

  /**
   * For ten moves or more the periods are non-empty, concatenate back to
   * the moves, all but the last hold `max(10, n // 5)` moves, and there is
   * one distribution, a probability distribution, and one entropy per
   * period; with at most twenty moves there are at most two periods, so no
   * entropy tag and no cycling tag.
   */
  lemma {:induction false} AnalysisShape(moves: seq<Move>, entropy: Dist -> real)
    requires |moves| >= MinMoves
    ensures var ps, r := Chunks(moves, PeriodSize(|moves|)), Analyse(moves, entropy);
            Flatten(ps) == moves && r.Analysed?
            && (forall i :: 0 <= i < |ps| ==> 0 < |ps[i]| <= PeriodSize(|moves|))
            && (forall i :: 0 <= i < |ps| - 1 ==> |ps[i]| == PeriodSize(|moves|))
            && r.periodsAnalysed == |ps| == |r.distributions| == |r.entropies|
            && (forall i :: 0 <= i < |ps| ==> r.distributions[i].IsProbability())
    ensures var r := Analyse(moves, entropy);
            |moves| <= 20 ==> forall x :: x in r.patterns ==> x == ConvergingToNash || x.PeriodShift?
  {
    var ps := Chunks(moves, PeriodSize(|moves|));
    ChunksPartition(moves, PeriodSize(|moves|));
    PeriodCount(moves);
    var ds := PeriodDistributions(ps);
    forall i | 0 <= i < |ps| ensures ds[i].IsProbability() {
      DistributionIsProbability(ps[i], RoundedDefault);
    }
  }

  // ------------------------------------------------------------------ loops

  /** The `for move in ['rock', 'paper', 'scissor']` scan with `max_change` and `changed_move`. */
  method LargestChange(prev: Dist, curr: Dist) returns (maxChange: real, changedMove: Option<Move>)
    ensures Change(maxChange, changedMove) == BiggestChange(prev, curr)
  {
    maxChange, changedMove := 0.0, None;
    var moves := [Rock, Paper, Scissor];
    ghost var init := Change(0.0, None);
    var j := 0;
    while j < 3
      invariant 0 <= j <= 3
      invariant Change(maxChange, changedMove) ==
                  if j == 0 then init
                  else if j == 1 then ScanMove(init, prev, curr, Rock)
                  else if j == 2 then ScanMove(ScanMove(init, prev, curr, Rock), prev, curr, Paper)
                  else BiggestChange(prev, curr)
    {
      var change := Abs(curr.P(moves[j]) - prev.P(moves[j]));
      if change > maxChange {
        maxChange, changedMove := change, Some(moves[j]);
      }
      j := j + 1;
    }
  }

  /** The loop over consecutive pairs of distributions. */
  method CollectShifts(ds: seq<Dist>) returns (tags: seq<Tag>)
    ensures tags == ShiftTags(ds)
  {
    tags := [];
    if |ds| < 2 {
      return;
    }
    var i := 1;
    while i < |ds|
      invariant 1 <= i <= |ds|
      invariant tags == ShiftTags(ds[..i])
    {
      var prev, curr := ds[i - 1], ds[i];
      var maxChange, changedMove := LargestChange(prev, curr);
      if maxChange > 0.2 {
        var m := changedMove.value;
        tags := tags + [PeriodShift(i, m, curr.P(m) > prev.P(m), maxChange)];
      }
      assert ds[..i + 1][..i] == ds[..i];
      i := i + 1;
    }
    assert ds[..i] == ds;
  }

  /** The `dominant_per_period` loop: a tally of each period, then its first most frequent move. */
  method CollectDominants(ps: seq<seq<Move>>) returns (doms: seq<Option<Move>>)
    ensures doms == Dominants(ps)
  {
    doms := [];
    var i := 0;
    while i < |ps|
      invariant 0 <= i <= |ps|
      invariant doms == Dominants(ps[..i])
    {
      var dominant := None;
      if ps[i] != [] {
        var counts, order := TallyKeys(ps[i]);
        var best := MostFrequentScan(ps[i], order, counts);
        dominant := Some(best);
      }
      doms := doms + [dominant];
      i := i + 1;
    }
    assert ps[..i] == ps;
  }

  /** The `cycling` counter over consecutive dominant moves. */
  method CountCycling(doms: seq<Option<Move>>) returns (cycling: nat)
    ensures cycling == CycleSteps(doms)
  {
    cycling := 0;
    var i := 1;
    while i < |doms|
      invariant 1 <= i && (|doms| == 0 ==> i == 1) && (|doms| > 0 ==> i <= |doms|)
      invariant |doms| > 0 ==> cycling == CycleSteps(doms[..i])
      invariant |doms| == 0 ==> cycling == 0
    {
      assert doms[..i + 1][..i] == doms[..i];
      var expected := if doms[i - 1].Some? then Some(Counter(doms[i - 1].value)) else None;
      if doms[i] == expected {
        cycling := cycling + 1;
      }
      i := i + 1;
    }
    if |doms| > 0 {
      assert doms[..i] == doms;
    }
  }

  /** The tag-appending steps of `analyze_adaptation`. */
  method CollectTags(ps: seq<seq<Move>>, ds: seq<Dist>, es: seq<real>) returns (tags: seq<Tag>)
    ensures tags == Tags(ps, ds, es)
  {
    var nash := [];
    if Deviation(Latest(ds)) < 0.1 {
      nash := [ConvergingToNash];
    }
    var trend := [];
    if |es| >= 3 {
      if es[|es| - 1] > es[0] + 0.2 {
        trend := [IncreasingRandomness];
      } else if es[|es| - 1] < es[0] - 0.2 {
        trend := [BecomingPredictable];
      }
    }
    var shifts := CollectShifts(ds);
    var cycle := [];
    if |ps| >= 3 {
      var doms := CollectDominants(ps);
      var cycling := CountCycling(doms);
      if cycling as real >= |doms| as real * 0.5 {
        cycle := [CyclingStrategy];
      }
    }
    tags := nash + trend + shifts + cycle;
  }

  /** `analyze_adaptation` with its period split, its tag steps, its loops and its label chain. */
  method AnalyzeAdaptation(moves: seq<Move>, entropy: Dist -> real) returns (r: Analysis)
    ensures r == Analyse(moves, entropy)
  {
    if |moves| < MinMoves {
      return InsufficientData(|moves|);
    }
    var ps := SplitPeriods(moves, PeriodSize(|moves|));
    var ds := PeriodDistributions(ps);
    var es := Entropies(ds, entropy);
    var tags := CollectTags(ps, ds, es);
    var kind := Stable;
    if ConvergingToNash in tags {
      kind := NashConvergence;
    } else if CyclingStrategy in tags {
      kind := Cycling;
    } else if IncreasingRandomness in tags {
      kind := AdaptiveRandomization;
    } else if BecomingPredictable in tags {
      kind := SettlingIntoPattern;
    } else if |tags| > 2 {
      kind := ActivelyAdapting;
    }
    return Analysed(|moves|, |ps|, ds, es, tags, kind);
  }
}
