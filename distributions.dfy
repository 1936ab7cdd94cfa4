/** `get_distribution` and the per-move shares built on it. */
module Distributions {

  import opened Moves
  import opened Tally

  /** The dict `{'rock': p, 'paper': q, 'scissor': r}`. */
  datatype Dist = Dist(rock: real, paper: real, scissor: real) {

    function P(m: Move): real {
      match m
      case Rock => rock
      case Paper => paper
      case Scissor => scissor
    }

    function Total(): real {
      rock + paper + scissor
    }

    ghost predicate IsProbability() {
      0.0 <= rock <= 1.0 && 0.0 <= paper <= 1.0 && 0.0 <= scissor <= 1.0 && Total() == 1.0
    }
  }

  /** Empty-input default of analyze_enemy_behavior.py. */
  const EvenDefault := Dist(0.333, 0.333, 0.334)

  /** Empty-input default of analyze_enemy_adaptation.py and analyze_enemy_patterns.py. */
  const RoundedDefault := Dist(0.33, 0.33, 0.34)

  /** `count / total` as an exact rational. */
  function Share(count: nat, total: nat): (r: real)
    requires total > 0
    ensures 0.0 <= r && (r == 0.0 <==> count == 0)
    ensures count <= total ==> r <= 1.0
  {
    var c, n := count as real, total as real;
    assert c <= n ==> c / n <= n / n;
    c / n
  }

  /** A count above a fraction `t` of the total has a share above `t`. */
  lemma ShareAbove(count: nat, total: nat, t: real)
    requires total > 0 && count as real > t * total as real
    ensures Share(count, total) > t
  {
    var q := Share(count, total);
    assert q * total as real == count as real;
  }

  /** A share above `t` comes from a count above the fraction `t` of the total. */
  lemma CountAbove(count: nat, total: nat, t: real)
    requires total > 0 && Share(count, total) > t
    ensures count as real > t * total as real
  {
    var q := Share(count, total);
    assert q * total as real == count as real;
  }

  /** `count / total > t` and `count > t * total` are the same test. */
  lemma ShareIffAbove(count: nat, total: nat, t: real)
    requires total > 0
    ensures Share(count, total) > t <==> count as real > t * total as real
  {
    if count as real > t * total as real {
      ShareAbove(count, total, t);
    } else if Share(count, total) > t {
      CountAbove(count, total, t);
    }
  }

  /** Shares of disjoint parts of the same total add up to at most one. */
  lemma DisjointSharesAtMostOne(a: nat, b: nat, total: nat)
    requires total > 0 && a + b <= total
    ensures Share(a, total) + Share(b, total) <= 1.0
  {
    var n := total as real;
    var qa, qb, q := Share(a, total), Share(b, total), Share(a + b, total);
    assert qa * n == a as real && qb * n == b as real && q * n == (a + b) as real;
    assert (qa + qb) * n == qa * n + qb * n;
    assert (qa + qb) * n == q * n;
    assert qa + qb == q;
  }

  /** A ratio `num / den` kept exact; `Value` is the float `num / den` the source stores. */
  datatype Fraction = Fraction(num: nat, den: nat) {
    function Value(): (r: real)
      requires den > 0
      ensures 0.0 <= r && (r == 0.0 <==> num == 0) && (num <= den ==> r <= 1.0)
    {
      Share(num, den)
    }

    /** `num / den if den > 0 else 0`: the guarded rate the scripts report. */
    function Guarded(): (r: real)
      ensures den == 0 ==> r == 0.0
      ensures 0.0 <= r && (num <= den ==> r <= 1.0)
    {
      if den > 0 then Share(num, den) else 0.0
    }

    /** The test `rate > t` on the guarded rate, without division. */
    predicate Exceeds(t: real) {
      den > 0 && num as real > t * den as real
    }
  }

  /** For a non-negative threshold, `Exceeds` is the guarded rate's comparison. */
  lemma ExceedsIff(f: Fraction, t: real)
    requires t >= 0.0
    ensures f.Exceeds(t) <==> f.Guarded() > t
  {
    if f.den > 0 {
      ShareIffAbove(f.num, f.den, t);
    }
  }

  /** `get_distribution(moves)`: each move's share of `moves`, or the fixed `empty` default. */
  function GetDistribution(moves: seq<Move>, empty: Dist): (d: Dist)
    ensures moves == [] ==> d == empty
    ensures moves != [] ==> forall m :: d.P(m) == Share(CountOf(moves, m), |moves|)
  {
    if moves == [] then empty
    else
      var n := |moves|;
      Dist(Share(CountOf(moves, Rock), n), Share(CountOf(moves, Paper), n), Share(CountOf(moves, Scissor), n))
  }

  /** Every move is one of the three, so the three counts add up to the length. */
  lemma {:induction false} CountsPartition(moves: seq<Move>)
    ensures CountOf(moves, Rock) + CountOf(moves, Paper) + CountOf(moves, Scissor) == |moves|
    decreases |moves|
  {
    if moves != [] {
      var p := moves[..|moves| - 1];
      CountsPartition(p);
      assert CountOf(moves, Rock) == CountOf(p, Rock) + (if moves[|moves| - 1] == Rock then 1 else 0);
      assert CountOf(moves, Paper) == CountOf(p, Paper) + (if moves[|moves| - 1] == Paper then 1 else 0);
      assert CountOf(moves, Scissor) == CountOf(p, Scissor) + (if moves[|moves| - 1] == Scissor then 1 else 0);
    }
  }

  /** With either default, `get_distribution` yields a probability distribution. */
  lemma {:induction false} DistributionIsProbability(moves: seq<Move>, empty: Dist)
    requires empty == EvenDefault || empty == RoundedDefault
    ensures GetDistribution(moves, empty).IsProbability()
  {
    if moves != [] {
      var n := |moves| as real;
      CountsPartition(moves);
      var r, p, s := CountOf(moves, Rock) as real, CountOf(moves, Paper) as real, CountOf(moves, Scissor) as real;
      var d := GetDistribution(moves, empty);
      assert d.rock == r / n && d.paper == p / n && d.scissor == s / n;
      assert r + p + s == n;
      SharesAddUp(r, p, s, n);
    }
  }

  lemma SharesAddUp(r: real, p: real, s: real, n: real)
    requires n > 0.0 && r + p + s == n
    ensures r / n + p / n + s / n == 1.0
  {
    assert r / n + p / n + s / n == (r + p + s) / n;
  }

  /** Splitting the input splits each move's count. */
  lemma {:induction false} DistributionOfConcat(a: seq<Move>, b: seq<Move>, m: Move)
    ensures CountOf(a + b, m) == CountOf(a, m) + CountOf(b, m)
  {
    CountOfAppend(a, b, m);
  }

  /** `abs(x)`. */
  function Abs(x: real): (a: real)
    ensures a >= 0.0 && (a == x || a == -x)
  {
    if x < 0.0 then -x else x
  }

  /** Position of a move in the dict's key order rock, paper, scissor. */
  function Rank(m: Move): nat {
    match m
    case Rock => 0
    case Paper => 1
    case Scissor => 2
  }

  /**
   * `max(dist.items(), key=lambda x: x[1])[0]`: the most likely move, the
   * earliest of rock, paper, scissor on ties.
   */
  function DominantOf(d: Dist): (m: Move)
    ensures forall x :: d.P(x) <= d.P(m)
    ensures forall x :: Rank(x) < Rank(m) ==> d.P(x) < d.P(m)
  {
    var best := if d.paper > d.rock then Paper else Rock;
    if d.scissor > d.P(best) then Scissor else best
  }
}
