/**
 * The three-move game: moves, outcomes, recorded turns and the move algebra
 * (`get_counter`, `get_result` and the inline `counter` / `opposite` maps).
 */
module Moves {

  datatype Move = Rock | Paper | Scissor

  /** Outcome of one turn as recorded by the observer ("our" side). */
  datatype Outcome = Win | Loss | Tie

  /**
   * One recorded turn: our move, the opponent's move and the recorded
   * outcome. The outcome is data: the analyses never recompute it from
   * the two moves, because the scripts disagree on whose loss it names.
   */
  datatype Turn = Turn(ours: Move, theirs: Move, outcome: Outcome)

  /** One enemy of the per-enemy queries, with its battles in recorded order. */
  datatype EnemyBattles = EnemyBattles(id: int, battles: seq<Turn>)

  /** `[b[2] for b in battles]`: the opponent's moves, in order. */
  function TheirMoves(t: seq<Turn>): (ms: seq<Move>)
    ensures |ms| == |t| && forall i :: 0 <= i < |t| ==> ms[i] == t[i].theirs
  {
    seq(|t|, i requires 0 <= i < |t| => t[i].theirs)
  }

  /** `[b[3] for b in battles]`: the recorded outcomes, in order. */
  function Outcomes(t: seq<Turn>): (os: seq<Outcome>)
    ensures |os| == |t| && forall i :: 0 <= i < |t| ==> os[i] == t[i].outcome
  {
    seq(|t|, i requires 0 <= i < |t| => t[i].outcome)
  }

  /** The game's rule, as a table: rock beats scissor, paper beats rock, scissor beats paper. */
  predicate Beats(a: Move, b: Move) {
    (a == Rock && b == Scissor) || (a == Paper && b == Rock) || (a == Scissor && b == Paper)
  }

  /** `get_counter`: the move that beats `m`. */
  function Counter(m: Move): (r: Move)
    ensures Beats(r, m)
  {
    match m
    case Rock => Paper
    case Paper => Scissor
    case Scissor => Rock
  }

  /** The `opposite` map: the move that `m` beats. */
  function Opposite(m: Move): (r: Move)
    ensures Beats(m, r)
  {
    match m
    case Rock => Scissor
    case Paper => Rock
    case Scissor => Paper
  }

  /** `get_result(our_move, enemy_move)`, from our side. */
  function Result(ours: Move, theirs: Move): (r: Outcome)
    ensures r == Loss <==> Beats(theirs, ours)
  {
    if ours == theirs then Tie
    else if Counter(theirs) == ours then Win
    else Loss
  }

  /** Exactly one move beats a given move, and it is `Counter` of it. */
  lemma CounterIsTheUniqueBeater(m: Move, b: Move)
    ensures Beats(b, m) <==> b == Counter(m)
  {
  }

  /** `get_counter` is a rotation of order three without fixed points. */
  lemma CounterIsThreeCycle(m: Move)
    ensures Counter(m) != m && Counter(Counter(m)) != m
    ensures Counter(Counter(Counter(m))) == m
    ensures Opposite(m) == Counter(Counter(m)) && Counter(Opposite(m)) == m
  {
  }

  /** `get_result` is a tie exactly on equal moves, and a win exactly when our move beats theirs. */
  lemma ResultMatchesRule(ours: Move, theirs: Move)
    ensures Result(ours, theirs) == Tie <==> ours == theirs
    ensures Result(ours, theirs) == Win <==> Beats(ours, theirs)
    ensures Result(ours, theirs) == Loss <==> Beats(theirs, ours)
  {
  }

  /** Swapping the two sides swaps win and loss. */
  lemma ResultAntisymmetric(a: Move, b: Move)
    ensures Result(a, b) == Win <==> Result(b, a) == Loss
    ensures Result(a, b) == Tie <==> Result(b, a) == Tie
  {
  }
}
