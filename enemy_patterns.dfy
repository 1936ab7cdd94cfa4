/**
 * analyze_enemy_patterns.py: `detect_patterns` (repeated 2-, 3- and 4-move
 * sequences, forward and reverse rock-paper-scissor cycles, strong biases)
 * and `analyze_enemy_evolution` (early, middle and late thirds, 10-move
 * windows, shift and entropy signs, and a priority-ordered label).
 *
 * `calculate_entropy` is a parameter `entropy: Dist -> real`;
 * `get_distribution` is `Distributions.GetDistribution` with the
 * `0.33 / 0.33 / 0.34` default. A sequence key `'-'.join(moves)` is the
 * sequence of moves itself (the move names contain no `-`).
 */
module EnemyPatterns {

  import opened Moves
  import opened Tally
  import opened Distributions
  import opened Windows

  // -------------------------------------------------------- repeated sequences

  /** One entry of `patterns['sequences']`. */
  datatype SequencePattern = SequencePattern(pattern: seq<Move>, count: nat, frequency: Fraction)

  /** The items of the `sequences` dict, in key order, with each key's count and frequency among the `|gs|` n-grams. */
  function ItemsOf(gs: seq<seq<Move>>, ks: seq<seq<Move>>): (items: seq<SequencePattern>)
    ensures |items| == |ks|
    ensures forall j :: 0 <= j < |ks| ==>
              items[j] == SequencePattern(ks[j], CountOf(gs, ks[j]), Fraction(CountOf(gs, ks[j]), |gs|))
  {
    seq(|ks|, j requires 0 <= j < |ks| => SequencePattern(ks[j], CountOf(gs, ks[j]), Fraction(CountOf(gs, ks[j]), |gs|)))
  }

  /** The sort key `lambda x: x[1]`. */
  function ByCount(p: SequencePattern): int {
    p.count
  }

  /** `sorted(sequences.items(), key=lambda x: x[1], reverse=True)`. */
  function Ranked(gs: seq<seq<Move>>): seq<SequencePattern> {
    SortDesc(ItemsOf(gs, Keys(gs)), ByCount)
  }

  /** `[:3]`. */
  function Top(ranked: seq<SequencePattern>): (top: seq<SequencePattern>)
    ensures |top| <= 3 && |top| <= |ranked| && top == ranked[..|top|]
    ensures |ranked| >= 3 ==> |top| == 3
  {
    ranked[..if |ranked| < 3 then |ranked| else 3]
  }

  /** The entries kept by `if count >= 2`, in order. */
  function Repeated(top: seq<SequencePattern>): (r: seq<SequencePattern>)
    ensures |r| <= |top|
    ensures forall p :: p in r <==> p in top && p.count >= 2
  {
    if top == [] then []
    else Repeated(top[..|top| - 1]) + (if top[|top| - 1].count >= 2 then [top[|top| - 1]] else [])
  }

  /** The sequences of length `n` reported for `moves`: none unless there are at least `2 * n` moves. */
  function SequencesOfLength(moves: seq<Move>, n: nat): seq<SequencePattern> {
    if |moves| >= 2 * n then Repeated(Top(Ranked(Grams(moves, n)))) else []
  }

  /** The loop `for seq_len in [2, 3, 4]`. */
  function Sequences(moves: seq<Move>): (r: seq<SequencePattern>)
    ensures |r| <= 9 && (|moves| < 4 ==> r == [])
  {
    SequencesOfLength(moves, 2) + SequencesOfLength(moves, 3) + SequencesOfLength(moves, 4)
  }

  /** Every ranked item is the item of one of the n-grams. */
  lemma {:induction false} RankedItems(gs: seq<seq<Move>>)
    ensures forall p :: p in Ranked(gs) <==> p.pattern in gs && p == SequencePattern(p.pattern, CountOf(gs, p.pattern), Fraction(CountOf(gs, p.pattern), |gs|))
  {
    var ks := Keys(gs);
    var items := ItemsOf(gs, ks);
    assert multiset(Ranked(gs)) == multiset(items);
    forall p: SequencePattern ensures p in Ranked(gs) <==> p in items {
      assert p in Ranked(gs) <==> p in multiset(Ranked(gs));
      assert p in items <==> p in multiset(items);
    }
    forall p: SequencePattern | p.pattern in gs && p == SequencePattern(p.pattern, CountOf(gs, p.pattern), Fraction(CountOf(gs, p.pattern), |gs|))
      ensures p in items
    {
      assert p.pattern in ks;
      var j :| 0 <= j < |ks| && ks[j] == p.pattern;
      assert items[j] == p;
    }
  }

  /**
   * At most three sequences of length `n` are reported, none unless there
   * are `2 * n` moves; each is an n-gram of the moves, occurs at least
   * twice, and carries its count and its frequency among the
   * `len(moves) - n + 1` n-grams.
   */
  lemma {:induction false} SequencesReported(moves: seq<Move>, n: nat)
    ensures var r := SequencesOfLength(moves, n);
            |r| <= 3 && (|moves| < 2 * n ==> r == [])
    ensures forall p :: p in SequencesOfLength(moves, n) ==>
              p.pattern in Grams(moves, n) && |p.pattern| == n && p.count >= 2
              && p.count == CountOf(Grams(moves, n), p.pattern)
              && p.frequency == Fraction(p.count, |moves| - n + 1)
  {
    if |moves| >= 2 * n {
      var gs := Grams(moves, n);
      RankedItems(gs);
      GramsLength(moves, n);
      var top := Top(Ranked(gs));
      assert forall p :: p in top ==> p in Ranked(gs);
    }
  }

  /** In a list sorted by count, an item outside the first `t` counts no more than any of them. */
  lemma {:induction false} SortedPrefixDominates(ranked: seq<SequencePattern>, t: nat, p: SequencePattern)
    requires SortedDesc(ranked, ByCount) && t <= |ranked|
    requires p in ranked && !(p in ranked[..t])
    ensures forall j :: 0 <= j < t ==> ranked[j].count >= p.count
  {
    var rest := ranked[t..];
    assert ranked == ranked[..t] + rest;
    var r :| 0 <= r < |rest| && rest[r] == p;
    assert ranked[t + r] == p;
    forall j | 0 <= j < t ensures ranked[j].count >= p.count {
      assert ByCount(ranked[j]) >= ByCount(ranked[t + r]);
    }
  }

  /**
   * The reported sequences are the most frequent: an n-gram left out of the
   * first three ranked entries occurs no more often than any of them.
   */
  lemma {:induction false} TopThreeMostFrequent(moves: seq<Move>, n: nat)
    ensures var gs := Grams(moves, n);
            var top := Top(Ranked(gs));
            forall k :: k in gs && (forall j :: 0 <= j < |top| ==> top[j].pattern != k) ==>
              forall j :: 0 <= j < |top| ==> CountOf(gs, k) <= top[j].count
  {
    var gs := Grams(moves, n);
    var ranked := Ranked(gs);
    var top := Top(ranked);
    SortDescSorted(ItemsOf(gs, Keys(gs)), ByCount);
    RankedItems(gs);
    forall k | k in gs && (forall j :: 0 <= j < |top| ==> top[j].pattern != k)
      ensures forall j :: 0 <= j < |top| ==> CountOf(gs, k) <= top[j].count
    {
      var p := SequencePattern(k, CountOf(gs, k), Fraction(CountOf(gs, k), |gs|));
      assert p in ranked;
      forall j | 0 <= j < |top| ensures ranked[..|top|][j] != p {
        assert top[j].pattern != k;
      }
      assert !(p in ranked[..|top|]);
      SortedPrefixDominates(ranked, |top|, p);
    }
  }

  /** The counts of the `sequences` dict add up to the number of n-grams, `len(moves) - n + 1`. */
  lemma {:induction false} GramCountsSum(moves: seq<Move>, n: nat)
    requires |moves| >= n
    ensures SumCountsWhere(Keys(Grams(moves, n)), TallyOf(Grams(moves, n)), _ => true) == |moves| - n + 1
  {
    var gs := Grams(moves, n);
    SumOfTally(gs, TallyOf(gs), _ => true);
    CountWhereAll(gs, _ => true);
  }

  // ------------------------------------------------------------------ cycles

  datatype Cycle = ForwardCycle | ReverseCycle

  /** The number of positions `i >= 1` where `moves[i] == next(moves[i - 1])`. */
  function StepCount(moves: seq<Move>, next: Move -> Move): (n: nat)
    ensures n <= if |moves| == 0 then 0 else |moves| - 1
    decreases |moves|
  {
    if |moves| < 2 then 0
    else StepCount(moves[..|moves| - 1], next) + (if moves[|moves| - 1] == next(moves[|moves| - 2]) then 1 else 0)
  }

  /**
   * No step is both a forward (rock to paper) and a reverse (rock to
   * scissor) step, so the two counts together are at most the number of steps.
   */
  lemma {:induction false} CycleStepsDisjoint(moves: seq<Move>)
    requires |moves| >= 1
    ensures StepCount(moves, Counter) + StepCount(moves, Opposite) <= |moves| - 1
    decreases |moves|
  {
    if |moves| >= 2 {
      CycleStepsDisjoint(moves[..|moves| - 1]);
      var m := moves[|moves| - 2];
      assert Counter(m) != Opposite(m);
    }
  }

  /** A cycle tag for a direction whose steps exceed 0.4 times the number of moves. */
  function CycleTags(moves: seq<Move>): (tags: seq<Cycle>)
    ensures ForwardCycle in tags <==> StepCount(moves, Counter) as real > |moves| as real * 0.4
    ensures ReverseCycle in tags <==> StepCount(moves, Opposite) as real > |moves| as real * 0.4
  {
    (if StepCount(moves, Counter) as real > |moves| as real * 0.4 then [ForwardCycle] else [])
    + (if StepCount(moves, Opposite) as real > |moves| as real * 0.4 then [ReverseCycle] else [])
  }

  // ------------------------------------------------------------------ biases

  datatype Bias = Heavy(move: Move, prob: real) | Avoids(move: Move, prob: real)

  /** The tag of one move: heavy above 0.45, otherwise avoided below 0.20. */
  function MoveBias(m: Move, d: Dist): (b: seq<Bias>)
    ensures |b| <= 1 && forall x :: x in b ==> x.move == m && x.prob == d.P(m)
    ensures Heavy(m, d.P(m)) in b <==> d.P(m) > 0.45
    ensures Avoids(m, d.P(m)) in b <==> d.P(m) < 0.20
  {
    if d.P(m) > 0.45 then [Heavy(m, d.P(m))]
    else if d.P(m) < 0.20 then [Avoids(m, d.P(m))]
    else []
  }

  /** The loop over `dist.items()`, in the order rock, paper, scissor. */
  function Biases(d: Dist): (r: seq<Bias>)
    ensures |r| <= 3
    ensures forall b :: b in r ==> b.prob == d.P(b.move)
  {
    MoveBias(Rock, d) + MoveBias(Paper, d) + MoveBias(Scissor, d)
  }

  /** For a probability distribution, not all three moves are heavy and not all three are avoided. */
  lemma BiasesBalanced(d: Dist)
    requires d.IsProbability()
    ensures var bs := Biases(d);
            !(Heavy(Rock, d.rock) in bs && Heavy(Paper, d.paper) in bs && Heavy(Scissor, d.scissor) in bs)
            && !(Avoids(Rock, d.rock) in bs && Avoids(Paper, d.paper) in bs && Avoids(Scissor, d.scissor) in bs)
  {
    var bs := Biases(d);
    var r, p, s := MoveBias(Rock, d), MoveBias(Paper, d), MoveBias(Scissor, d);
    assert forall x :: x in bs <==> x in r || x in p || x in s;
    assert forall x :: x in r ==> x.move == Rock;
    assert forall x :: x in p ==> x.move == Paper;
    assert forall x :: x in s ==> x.move == Scissor;
  }

  // -------------------------------------------------------- detect_patterns

  /** The returned dict of `detect_patterns`. */
  datatype Patterns = Patterns(sequences: seq<SequencePattern>, cycles: seq<Cycle>, biases: seq<Bias>)

  /** `detect_patterns(moves)`: all lists empty for fewer than three moves. */
  function Detect(moves: seq<Move>): (p: Patterns)
    ensures |moves| < 3 ==> p == Patterns([], [], [])
  {
    if |moves| < 3 then Patterns([], [], [])
    else Patterns(Sequences(moves), CycleTags(moves), Biases(GetDistribution(moves, RoundedDefault)))
  }

  /** The dict-filling loop of `detect_patterns` for one sequence length. */
  method CountSequences(moves: seq<Move>, n: nat) returns (counts: map<seq<Move>, nat>, order: seq<seq<Move>>)
    ensures IsTallyOf(counts, Grams(moves, n)) && order == Keys(Grams(moves, n))
  {
    counts, order := map[], [];
    ghost var gs := Grams(moves, n);
    var i := 0;
    while i + n <= |moves|
      invariant i <= |gs|
      invariant IsTallyOf(counts, gs[..i]) && order == Keys(gs[..i])
    {
      GramAt(moves, n, i);
      assert gs[..i + 1] == gs[..i] + [moves[i..i + n]];
      counts, order := Increment(counts, order, gs[..i], moves[i..i + n]);
      i := i + 1;
    }
    assert gs[..i] == gs;
  }

  /** `sequences.items()` with each count's frequency among the `total` n-grams. */
  method ItemsWithFrequency(counts: map<seq<Move>, nat>, order: seq<seq<Move>>, ghost gs: seq<seq<Move>>, total: nat)
    returns (items: seq<SequencePattern>)
    requires IsTallyOf(counts, gs) && order == Keys(gs) && total == |gs|
    ensures items == ItemsOf(gs, Keys(gs))
  {
    assert forall j :: 0 <= j < |order| ==> order[j] in counts;
    items := seq(|order|, j requires 0 <= j < |order| && order[j] in counts =>
                            SequencePattern(order[j], counts[order[j]], Fraction(counts[order[j]], total)));
  }

  /** The loop over the ranked entries that keeps those occurring at least twice. */
  method KeepRepeated(top: seq<SequencePattern>) returns (found: seq<SequencePattern>)
    ensures found == Repeated(top)
  {
    found := [];
    var j := 0;
    while j < |top|
      invariant 0 <= j <= |top|
      invariant found == Repeated(top[..j])
    {
      assert top[..j + 1][..j] == top[..j];
      if top[j].count >= 2 {
        found := found + [top[j]];
      }
      j := j + 1;
    }
    assert top[..j] == top;
  }

  /** One pass of the `for seq_len in [2, 3, 4]` loop: tally, rank, keep the first three that repeat. */
  method FindSequences(moves: seq<Move>, n: nat) returns (found: seq<SequencePattern>)
    ensures found == SequencesOfLength(moves, n)
  {
    found := [];
    if |moves| < 2 * n {
      return;
    }
    var counts, order := CountSequences(moves, n);
    var items := ItemsWithFrequency(counts, order, Grams(moves, n), |moves| - n + 1);
    var ranked := SortDesc(items, ByCount);
    found := KeepRepeated(ranked[..if |ranked| < 3 then |ranked| else 3]);
  }

  /** The `cycle_count` and `counter_cycle` loop. */
  method CountCycles(moves: seq<Move>) returns (cycleCount: nat, counterCycle: nat)
    ensures cycleCount == StepCount(moves, Counter) && counterCycle == StepCount(moves, Opposite)
  {
    cycleCount, counterCycle := 0, 0;
    if |moves| < 2 {
      return;
    }
    var i := 1;
    while i < |moves|
      invariant 1 <= i <= |moves|
      invariant cycleCount == StepCount(moves[..i], Counter) && counterCycle == StepCount(moves[..i], Opposite)
    {
      assert moves[..i + 1][..i] == moves[..i];
      if moves[i] == Counter(moves[i - 1]) {
        cycleCount := cycleCount + 1;
      }
      if moves[i] == Opposite(moves[i - 1]) {
        counterCycle := counterCycle + 1;
      }
      i := i + 1;
    }
    assert moves[..i] == moves;
  }

  /** The two cycle tests after the counting loop. */
  method FindCycles(moves: seq<Move>) returns (cycles: seq<Cycle>)
    ensures cycles == CycleTags(moves)
  {
    var cycleCount, counterCycle := CountCycles(moves);
    var forward, reverse := [], [];
    if cycleCount as real > |moves| as real * 0.4 {
      forward := [ForwardCycle];
    }
    if counterCycle as real > |moves| as real * 0.4 {
      reverse := [ReverseCycle];
    }
    cycles := forward + reverse;
  }

  /** The bias loop over the distribution's three entries. */
  method FindBiases(d: Dist) returns (biases: seq<Bias>)
    ensures biases == Biases(d)
  {
    biases := [];
    var moves := [Rock, Paper, Scissor];
    var j := 0;
    while j < 3
      invariant 0 <= j <= 3
      invariant biases == if j == 0 then [] else if j == 1 then MoveBias(Rock, d)
                          else if j == 2 then MoveBias(Rock, d) + MoveBias(Paper, d)
                          else Biases(d)
    {
      var prob := d.P(moves[j]);
      if prob > 0.45 {
        biases := biases + [Heavy(moves[j], prob)];
      } else if prob < 0.20 {
        biases := biases + [Avoids(moves[j], prob)];
      }
      j := j + 1;
    }
  }

  /** `detect_patterns` with its loops. */
  method DetectPatterns(moves: seq<Move>) returns (p: Patterns)
    ensures p == Detect(moves)
  {
    if |moves| < 3 {
      return Patterns([], [], []);
    }
    var sequences := [];
    var lengths := [2, 3, 4];
    var k := 0;
    while k < 3
      invariant 0 <= k <= 3
      invariant sequences == if k == 0 then [] else if k == 1 then SequencesOfLength(moves, 2)
                             else if k == 2 then SequencesOfLength(moves, 2) + SequencesOfLength(moves, 3)
                             else Sequences(moves)
    {
      var found := FindSequences(moves, lengths[k]);
      sequences := sequences + found;
      k := k + 1;
    }
    var cycles := FindCycles(moves);
    var biases := FindBiases(GetDistribution(moves, RoundedDefault));
    return Patterns(sequences, cycles, biases);
  }

  // ------------------------------------------------- analyze_enemy_evolution

  const MinMoves: nat := 10
  const WindowSize: nat := 10

  datatype Stage = EarlyToMid | MidToLate

  /** The strings appended to `adaptation_signs`. */
  datatype Sign =
    | Shifted(move: Move, increased: bool, stage: Stage, change: real)
    | BecomingMoreRandom
    | BecomingMorePredictable

  datatype EvolutionType = StablePlay | DefensiveAdaptation | SettlingPattern | ActiveAdaptation | MinorAdjustment

  datatype Trend = Increasing | Decreasing

  /** The returned dict; `early`, `middle` and `late` entropies are `calculate_entropy` of the three distributions. */
  datatype Evolution =
    | InsufficientData(enemyId: int, totalMoves: nat)
    | Evolved(enemyId: int, totalMoves: nat, early: Dist, middle: Dist, late: Dist,
              earlyEntropy: real, middleEntropy: real, lateEntropy: real, trend: Trend,
              earlyPatterns: Patterns, latePatterns: Patterns, signs: seq<Sign>, kind: EvolutionType)

  /** `moves[:third]`, `moves[third:third * 2]` and `moves[third * 2:]` for `third = len(moves) // 3`. */
  function Early(moves: seq<Move>): seq<Move> {
    moves[..|moves| / 3]
  }

  function Middle(moves: seq<Move>): seq<Move> {
    moves[|moves| / 3..|moves| / 3 * 2]
  }

  function Late(moves: seq<Move>): seq<Move> {
    moves[|moves| / 3 * 2..]
  }

  /**
   * The three parts concatenate back to the moves; the first two hold
   * `len(moves) // 3` moves each and the last holds the remainder, zero to
   * two moves more; with ten moves or more each holds at least three.
   */
  lemma {:induction false} ThirdsSplit(moves: seq<Move>)
    ensures Early(moves) + Middle(moves) + Late(moves) == moves
    ensures |Early(moves)| == |Middle(moves)| == |moves| / 3
    ensures |moves| / 3 <= |Late(moves)| <= |moves| / 3 + 2
    ensures |moves| >= MinMoves ==> |Early(moves)| >= 3 && |Late(moves)| >= 3
  {
    var t := |moves| / 3;
    assert moves == moves[..t] + moves[t..2 * t] + moves[2 * t..];
  }

  /** The sign for one move's change `delta` at one stage, when it exceeds 0.15 in size. */
  function StageSign(m: Move, stage: Stage, delta: real): (s: seq<Sign>)
    ensures |s| <= 1
    ensures s != [] <==> Abs(delta) > 0.15
    ensures forall x :: x in s ==> x == Shifted(m, delta > 0.0, stage, Abs(delta))
  {
    if Abs(delta) > 0.15 then [Shifted(m, delta > 0.0, stage, Abs(delta))] else []
  }

  /** The two signs of one move: early to middle, then middle to late. */
  function MoveSigns(m: Move, early: Dist, middle: Dist, late: Dist): seq<Sign> {
    StageSign(m, EarlyToMid, StageDelta(EarlyToMid, m, early, middle, late))
    + StageSign(m, MidToLate, StageDelta(MidToLate, m, early, middle, late))
  }

  /** The loop `for move in ['rock', 'paper', 'scissor']`. */
  function ShiftSigns(early: Dist, middle: Dist, late: Dist): seq<Sign> {
    MoveSigns(Rock, early, middle, late) + MoveSigns(Paper, early, middle, late) + MoveSigns(Scissor, early, middle, late)
  }

  /** The change of move `m`'s share over a stage. */
  function StageDelta(stage: Stage, m: Move, early: Dist, middle: Dist, late: Dist): real {
    if stage == EarlyToMid then middle.P(m) - early.P(m) else late.P(m) - middle.P(m)
  }

  /**
   * There is a sign for a move and a stage exactly when that move's share
   * changed by more than 0.15 over that stage.
   */
  lemma ShiftSignsExact(early: Dist, middle: Dist, late: Dist)
    ensures forall m, stage ::
              var d := StageDelta(stage, m, early, middle, late);
              Shifted(m, d > 0.0, stage, Abs(d)) in ShiftSigns(early, middle, late) <==> Abs(d) > 0.15
  {
    var ss := ShiftSigns(early, middle, late);
    var r, p, s := MoveSigns(Rock, early, middle, late), MoveSigns(Paper, early, middle, late), MoveSigns(Scissor, early, middle, late);
    assert forall x :: x in ss <==> x in r || x in p || x in s;
  }

  /**
   * Every shift sign carries the direction and the size of its move's
   * change over its stage, a size above 0.15; there are at most six.
   */
  lemma ShiftSignsSound(early: Dist, middle: Dist, late: Dist)
    ensures |ShiftSigns(early, middle, late)| <= 6
    ensures forall x :: x in ShiftSigns(early, middle, late) ==>
              x.Shifted? && var d := StageDelta(x.stage, x.move, early, middle, late);
              x == Shifted(x.move, d > 0.0, x.stage, Abs(d)) && Abs(d) > 0.15
  {
    var ss := ShiftSigns(early, middle, late);
    var r, p, s := MoveSigns(Rock, early, middle, late), MoveSigns(Paper, early, middle, late), MoveSigns(Scissor, early, middle, late);
    assert forall x :: x in ss <==> x in r || x in p || x in s;
  }

  /** The entropy sign over the 10-move windows: only with three windows or more, for a change beyond 0.3. */
  function EntropySign(es: seq<real>): (s: seq<Sign>)
    ensures |s| <= 1
    ensures |es| < 3 ==> s == []
    ensures BecomingMoreRandom in s <==> |es| >= 3 && es[|es| - 1] - es[0] > 0.3
    ensures BecomingMorePredictable in s <==> |es| >= 3 && es[|es| - 1] - es[0] < -0.3
  {
    if |es| >= 3 then
      if es[|es| - 1] - es[0] > 0.3 then [BecomingMoreRandom]
      else if es[|es| - 1] - es[0] < -0.3 then [BecomingMorePredictable]
      else []
    else []
  }

  /** The `adaptation_type` chain; a substring test on the signs' text is membership of the sign. */
  function ClassifyEvolution(signs: seq<Sign>): (r: EvolutionType)
    ensures r == StablePlay <==> signs == []
  {
    if |signs| == 0 then StablePlay
    else if BecomingMoreRandom in signs then DefensiveAdaptation
    else if BecomingMorePredictable in signs then SettlingPattern
    else if |signs| >= 2 then ActiveAdaptation
    else MinorAdjustment
  }

  /**
   * The label is stable exactly without signs; otherwise the priority is
   * defensive adaptation, settling pattern, active adaptation (two or more
   * signs), minor adjustment (one shift sign).
   */
  lemma {:induction false} ClassifyEvolutionPriority(signs: seq<Sign>)
    ensures ClassifyEvolution(signs) == StablePlay <==> signs == []
    ensures ClassifyEvolution(signs) == DefensiveAdaptation <==> BecomingMoreRandom in signs
    ensures ClassifyEvolution(signs) == SettlingPattern <==> !(BecomingMoreRandom in signs) && BecomingMorePredictable in signs
    ensures ClassifyEvolution(signs) == ActiveAdaptation <==>
              |signs| >= 2 && !(BecomingMoreRandom in signs) && !(BecomingMorePredictable in signs)
    ensures ClassifyEvolution(signs) == MinorAdjustment <==> |signs| == 1 && signs[0].Shifted?
  {
  }

  /** The entropies of the 10-move windows. */
  function WindowEntropies(ws: seq<seq<Move>>, entropy: Dist -> real): (es: seq<real>)
    ensures |es| == |ws|
    ensures forall i :: 0 <= i < |ws| ==> es[i] == entropy(GetDistribution(ws[i], RoundedDefault))
  {
    seq(|ws|, i requires 0 <= i < |ws| => entropy(GetDistribution(ws[i], RoundedDefault)))
  }

  /** `'increasing' if window_entropies and window_entropies[-1] > window_entropies[0] else 'decreasing'`. */
  function TrendOf(es: seq<real>): Trend {
    if es != [] && es[|es| - 1] > es[0] then Increasing else Decreasing
  }

  /** The shift signs of the three parts, then the entropy sign of the windows. */
  function SignsOf(early: Dist, middle: Dist, late: Dist, es: seq<real>): seq<Sign> {
    ShiftSigns(early, middle, late) + EntropySign(es)
  }

  /** `analyze_enemy_evolution(enemy_id, moves)`. */
  function Evolve(enemyId: int, moves: seq<Move>, entropy: Dist -> real): (r: Evolution)
    ensures r.InsufficientData? <==> |moves| < MinMoves
  {
    if |moves| < MinMoves then InsufficientData(enemyId, |moves|)
    else
      var early, middle, late := Early(moves), Middle(moves), Late(moves);
      var de, dm, dl := GetDistribution(early, RoundedDefault), GetDistribution(middle, RoundedDefault), GetDistribution(late, RoundedDefault);
      var es := WindowEntropies(Chunks(moves, WindowSize), entropy);
      var signs := SignsOf(de, dm, dl, es);
      Evolved(enemyId, |moves|, de, dm, dl, entropy(de), entropy(dm), entropy(dl), TrendOf(es),
              Detect(early), Detect(late), signs, ClassifyEvolution(signs))
  }

  /**
   * For ten moves or more the 10-move windows partition the moves, the
   * entropy sign needs more than twenty moves, the early and late parts
   * are long enough for `detect_patterns` to look at them, and the signs
   * are the shift signs followed by at most one entropy sign.
   */
  lemma {:induction false} EvolutionShape(enemyId: int, moves: seq<Move>, entropy: Dist -> real)
    requires |moves| >= MinMoves
    ensures Flatten(Chunks(moves, WindowSize)) == moves
    ensures forall i :: 0 <= i < |Chunks(moves, WindowSize)| ==> 0 < |Chunks(moves, WindowSize)[i]| <= WindowSize
    ensures var r := Evolve(enemyId, moves, entropy);
            r.Evolved? && |r.signs| <= 7
            && (|moves| <= 20 ==> forall x :: x in r.signs ==> x.Shifted?)
  {
    var ws := Chunks(moves, WindowSize);
    ChunksPartition(moves, WindowSize);
    ChunksCount(moves, WindowSize);
    ThirdsSplit(moves);
    var r := Evolve(enemyId, moves, entropy);
    var de, dm, dl := GetDistribution(Early(moves), RoundedDefault), GetDistribution(Middle(moves), RoundedDefault), GetDistribution(Late(moves), RoundedDefault);
    ShiftSignsSound(de, dm, dl);
    var es := WindowEntropies(ws, entropy);
    assert r.signs == ShiftSigns(de, dm, dl) + EntropySign(es);
    if |moves| <= 20 {
      assert |ws| <= 2;
    }
  }

  /** The per-move shift loop. */
  method CollectShiftSigns(early: Dist, middle: Dist, late: Dist) returns (signs: seq<Sign>)
    ensures signs == ShiftSigns(early, middle, late)
  {
    signs := [];
    var moves := [Rock, Paper, Scissor];
    var j := 0;
    while j < 3
      invariant 0 <= j <= 3
      invariant signs == if j == 0 then [] else if j == 1 then MoveSigns(Rock, early, middle, late)
                         else if j == 2 then MoveSigns(Rock, early, middle, late) + MoveSigns(Paper, early, middle, late)
                         else ShiftSigns(early, middle, late)
    {
      var m := moves[j];
      var earlyToMid := middle.P(m) - early.P(m);
      var midToLate := late.P(m) - middle.P(m);
      var one := [];
      if Abs(earlyToMid) > 0.15 {
        one := one + [Shifted(m, earlyToMid > 0.0, EarlyToMid, Abs(earlyToMid))];
      }
      if Abs(midToLate) > 0.15 {
        one := one + [Shifted(m, midToLate > 0.0, MidToLate, Abs(midToLate))];
      }
      signs := signs + one;
      j := j + 1;
    }
  }

  /** The sign-appending steps of `analyze_enemy_evolution`. */
  method CollectEvolutionSigns(early: Dist, middle: Dist, late: Dist, es: seq<real>) returns (signs: seq<Sign>)
    ensures signs == SignsOf(early, middle, late, es)
  {
    var shifts := CollectShiftSigns(early, middle, late);
    var trendSign := [];
    if |es| >= 3 {
      var entropyTrend := es[|es| - 1] - es[0];
      if entropyTrend > 0.3 {
        trendSign := [BecomingMoreRandom];
      } else if entropyTrend < -0.3 {
        trendSign := [BecomingMorePredictable];
      }
    }
    signs := shifts + trendSign;
  }

  /** The `adaptation_type` chain of `analyze_enemy_evolution`. */
  method ClassifySigns(signs: seq<Sign>) returns (kind: EvolutionType)
    ensures kind == ClassifyEvolution(signs)
  {
    if |signs| == 0 {
      kind := StablePlay;
    } else if BecomingMoreRandom in signs {
      kind := DefensiveAdaptation;
    } else if BecomingMorePredictable in signs {
      kind := SettlingPattern;
    } else if |signs| >= 2 {
      kind := ActiveAdaptation;
    } else {
      kind := MinorAdjustment;
    }
  }

  /** The three slices at `len(moves) // 3` and twice that: they concatenate back to the moves. */
  method SplitThirds(moves: seq<Move>) returns (early: seq<Move>, middle: seq<Move>, late: seq<Move>)
    ensures early == Early(moves) && middle == Middle(moves) && late == Late(moves)
    ensures early + middle + late == moves
  {
    var third := |moves| / 3;
    early, middle, late := moves[..third], moves[third..third * 2], moves[third * 2..];
    assert moves == moves[..third] + moves[third..third * 2] + moves[third * 2..];
  }

  /** `analyze_enemy_evolution` with its splits, its loops and its label chain. */
  method AnalyzeEnemyEvolution(enemyId: int, moves: seq<Move>, entropy: Dist -> real) returns (r: Evolution)
    ensures r == Evolve(enemyId, moves, entropy)
  {
    if |moves| < MinMoves {
      return InsufficientData(enemyId, |moves|);
    }
    var early, middle, late := SplitThirds(moves);
    var windows := SplitPeriods(moves, WindowSize);
    var de, dm, dl := GetDistribution(early, RoundedDefault), GetDistribution(middle, RoundedDefault), GetDistribution(late, RoundedDefault);
    var es := WindowEntropies(windows, entropy);
    var signs := CollectEvolutionSigns(de, dm, dl, es);
    var earlyPatterns := DetectPatterns(early);
    var latePatterns := DetectPatterns(late);
    var kind := ClassifySigns(signs);
    var trend := TrendOf(es);
    return Evolved(enemyId, |moves|, de, dm, dl, entropy(de), entropy(dm), entropy(dl), trend,
                   earlyPatterns, latePatterns, signs, kind);
  }
}
