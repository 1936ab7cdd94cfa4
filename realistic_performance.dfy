/**
 * realistic_performance_test.py: a noisier opponent and an imperfect
 * detector that needs 20 battles to reach full confidence, loses its
 * optimal weapon 30% of the time and misclassifies 10% of the time. Every
 * random draw is a parameter.
 */
module RealisticPerformance {

  import opened Wrappers
  import opened Moves
  import opened DetectionSimulation

  /**
   * The draws of one `imperfect_detection` call: the weapon-charge roll,
   * the confidence roll, the misclassification roll, the 70% exploit
   * roll, `random.choice(moves)`, and which of the two non-optimal moves
   * `random.choice` takes when the weapon is missing.
   */
  datatype DetectionDraws = DetectionDraws(
    weaponRoll: real, confidenceRoll: real, misclassRoll: real, exploitRoll: real,
    pick: Move, secondAlternative: bool)

  /** The draws of one `realistic_enemy` call: the 20% noise roll, the profile's roll and `random.choice(moves)`. */
  datatype EnemyDraws = EnemyDraws(noiseRoll: real, roll: real, pick: Move)

  /** `detection_quality = min(1.0, battles_seen / 20)`: a confidence in [0, 1] that is full exactly from battle 20. */
  function Quality(seen: nat): (q: real)
    ensures 0.0 <= q <= 1.0
    ensures q == 1.0 <==> seen >= 20
  {
    if seen as real / 20.0 < 1.0 then seen as real / 20.0 else 1.0
  }

  /** `[m for m in moves if m != optimal]`, in the order rock, paper, scissor. */
  function Others(optimal: Move): (r: seq<Move>)
    ensures |r| == 2 && optimal !in r
    ensures multiset(r) + multiset{optimal} == multiset{Rock, Paper, Scissor}
  {
    match optimal
    case Rock => [Paper, Scissor]
    case Paper => [Rock, Scissor]
    case Scissor => [Rock, Paper]
  }

  /** The detector gets past the confidence and misclassification rolls and tries to exploit. */
  predicate Exploits(seen: nat, d: DetectionDraws) {
    !(d.confidenceRoll > Quality(seen)) && !(d.misclassRoll < 0.1)
  }

  /**
   * `imperfect_detection`: a random pick until the rolls let the detector
   * exploit; then the counter of a fixed pattern (or another move when the
   * weapon is missing), and for counterers and copiers the exploit move in
   * 70% of the cases once there is a last move of ours.
   */
  function ImperfectDetection(profile: Profile, seen: nat, last: Last, weaponAvailable: bool, d: DetectionDraws): (m: Move)
    ensures m != d.pick ==> Exploits(seen, d)
  {
    var available := weaponAvailable && !(d.weaponRoll < 0.3);
    if !Exploits(seen, d) then d.pick
    else
      match profile
      case Fixed(pattern) =>
        var optimal := Counter(pattern);
        if available then optimal else Others(optimal)[if d.secondAlternative then 1 else 0]
      case Countering(_) =>
        if last.ours.Some? && d.exploitRoll < 0.7 then Counter(Counter(last.ours.value)) else d.pick
      case Copying(_) =>
        if last.ours.Some? && d.exploitRoll < 0.7 then Counter(last.ours.value) else d.pick
      case _ => d.pick
  }

  /**
   * `realistic_enemy`: 20% pure noise; a fixed profile keeps its pattern in
   * 90% of the rest; counterers and copiers act at 0.8 and 0.75 of their
   * claimed rates; any other profile plays at random.
   */
  function RealisticEnemy(profile: Profile, last: Last, d: EnemyDraws): (m: Move)
    ensures m != d.pick ==> !(d.noiseRoll < 0.2)
  {
    if d.noiseRoll < 0.2 then d.pick
    else
      match profile
      case Fixed(pattern) => if d.roll < 0.9 then pattern else d.pick
      case Countering(rate) => if last.ours.Some? && d.roll < rate * 0.8 then Counter(last.ours.value) else d.pick
      case Copying(rate) => if last.ours.Some? && d.roll < rate * 0.75 then last.ours.value else d.pick
      case _ => d.pick
  }

  /** The rates a counterer or copier actually acts at. */
  function Reduced(profile: Profile): (r: Profile)
    ensures profile.Countering? && profile.counterRate >= 0.0 ==> r.Countering? && 0.0 <= r.counterRate <= profile.counterRate
    ensures profile.Copying? && profile.copyRate >= 0.0 ==> r.Copying? && 0.0 <= r.copyRate <= profile.copyRate
    ensures !profile.Countering? && !profile.Copying? ==> r == profile
  {
    match profile
    case Countering(rate) => Countering(rate * 0.8)
    case Copying(rate) => Copying(rate * 0.75)
    case _ => profile
  }

  /** From battle 20 the confidence roll (a `random.random()` below 1) never stops the detector. */
  lemma FullConfidenceFromBattleTwenty(seen: nat, d: DetectionDraws)
    requires seen >= 20 && d.confidenceRoll < 1.0 && d.misclassRoll >= 0.1
    ensures Exploits(seen, d)
  {
  }

  /** Before any battle the confidence is 0, so every positive confidence roll leaves the detector at random. */
  lemma NoConfidenceAtFirstBattle(profile: Profile, last: Last, weaponAvailable: bool, d: DetectionDraws)
    requires d.confidenceRoll > 0.0
    ensures ImperfectDetection(profile, 0, last, weaponAvailable, d) == d.pick
  {
  }

  /**
   * Against a fixed pattern the exploit plays its counter when the weapon
   * is there, and otherwise never plays it, so it cannot beat the pattern.
   */
  lemma FixedPatternExploit(pattern: Move, seen: nat, last: Last, weaponAvailable: bool, d: DetectionDraws)
    requires Exploits(seen, d)
    ensures var m := ImperfectDetection(Fixed(pattern), seen, last, weaponAvailable, d);
            (weaponAvailable && !(d.weaponRoll < 0.3) ==> m == Counter(pattern) && Result(m, pattern) == Win)
            && (!weaponAvailable || d.weaponRoll < 0.3 ==> m != Counter(pattern) && Result(m, pattern) != Win)
  {
    var m := ImperfectDetection(Fixed(pattern), seen, last, weaponAvailable, d);
    if !weaponAvailable || d.weaponRoll < 0.3 {
      assert m in Others(Counter(pattern));
    }
  }

  /**
   * The copier exploit plays the move that beats a copy of our last move;
   * the counter exploit plays the move that beats the counter of it.
   */
  lemma ReactiveExploits(profile: Profile, seen: nat, ours: Move, theirs: Option<Move>, result: Option<Outcome>, weaponAvailable: bool, d: DetectionDraws)
    requires profile.Copying? || profile.Countering?
    requires Exploits(seen, d) && d.exploitRoll < 0.7
    ensures var m := ImperfectDetection(profile, seen, Last(Some(ours), theirs, result), weaponAvailable, d);
            (profile.Copying? ==> Result(m, ours) == Win)
            && (profile.Countering? ==> Result(m, Counter(ours)) == Win)
  {
  }

  /**
   * Outside its noise the realistic counterer or copier is the opponent of
   * the optimistic simulation, acting at the reduced rate.
   */
  lemma NoisyReducedOpponent(profile: Profile, last: Last, d: EnemyDraws)
    requires profile.Countering? || profile.Copying?
    ensures RealisticEnemy(profile, last, d)
         == if d.noiseRoll < 0.2 then d.pick else EnemyMove(Reduced(profile), last, d.roll, d.pick)
  {
  }

  /** Whenever the realistic opponent leaves its pattern, its move is the random pick. */
  lemma PatternOrPick(profile: Profile, last: Last, d: EnemyDraws)
    ensures var m := RealisticEnemy(profile, last, d);
            m == d.pick
            || (profile.Fixed? && m == profile.pattern)
            || (last.ours.Some? && profile.Countering? && m == Counter(last.ours.value))
            || (last.ours.Some? && profile.Copying? && m == last.ours.value)
  {
  }
}
