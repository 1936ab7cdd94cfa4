/**
 * simulate_detection_effectiveness.py: simulated opponents of five kinds,
 * the detection system's answer to each, the battle loop with detection
 * and the one without it, and the survival-rate arithmetic. Every random
 * draw (`random.random()`, `random.choice`) is a parameter.
 */
module DetectionSimulation {

  import opened Wrappers
  import opened Moves

  /** An entry of `enemy_profiles`, by its `type`; a profile of any other type plays at random. */
  datatype Profile =
    | Fixed(pattern: Move)
    | Countering(counterRate: real)
    | Copying(copyRate: real)
    | LossRepeating(repeatRate: real)
    | Adaptive

  /**
   * The draws of one battle: our `random.choice(moves)`, and the
   * opponent's `random.random()` and `random.choice(moves)`.
   */
  datatype Draws = Draws(ourPick: Move, roll: real, enemyPick: Move)

  /** `our_last`, `enemy_last` and `last_result` as one battle leaves them; all None before the first battle. */
  datatype Last = Last(ours: Option<Move>, theirs: Option<Move>, result: Option<Outcome>)

  /** The wins, ties and losses of `results_without` or `results_with`. */
  datatype Results = Results(win: nat, tie: nat, loss: nat)

  /** `calculate_survival_rate`: nothing for no battles, otherwise the survival and weighted scores in percent. */
  datatype Survival = NoBattles | Rates(survival: real, weighted: real)

  const NoLast := Last(None, None, None)

  /**
   * `simulate_enemy`, with the loss repeater's trigger as a parameter: it
   * repeats its last move when `last_result` is `repeatAfter`, `enemy_last`
   * is set and the roll is under its rate. `battle_num` is unused.
   */
  function Respond(profile: Profile, last: Last, roll: real, pick: Move, repeatAfter: Outcome): (m: Move)
    ensures profile.Fixed? ==> m == profile.pattern
    ensures profile.LossRepeating? ==> m == pick || (last.result == Some(repeatAfter) && last.theirs == Some(m))
  {
    match profile
    case Fixed(pattern) => pattern
    case Countering(rate) => if last.ours.Some? && roll < rate then Counter(last.ours.value) else pick
    case Copying(rate) => if last.ours.Some? && roll < rate then last.ours.value else pick
    case LossRepeating(rate) =>
      if last.result == Some(repeatAfter) && last.theirs.Some? && roll < rate then last.theirs.value else pick
    case Adaptive => pick
  }

  /**
   * `simulate_enemy` as written: the repeater repeats after `'loss'`,
   * which `get_result` records from our side, so after the opponent's win.
   */
  function EnemyMoveAsWritten(profile: Profile, last: Last, roll: real, pick: Move): (m: Move)
    ensures profile.LossRepeating? && m != pick ==> last.result == Some(Loss)
  {
    Respond(profile, last, roll, pick, Loss)
  }

  /** `simulate_enemy` with the repeater repeating after its own loss, our `'win'`, as its profile describes. */
  function EnemyMove(profile: Profile, last: Last, roll: real, pick: Move): (m: Move)
    ensures profile.LossRepeating? && m != pick ==> last.result == Some(Win)
    ensures !profile.LossRepeating? ==> m == EnemyMoveAsWritten(profile, last, roll, pick)
  {
    Respond(profile, last, roll, pick, Win)
  }

  /** `detection_system_move`: the answer to a detected profile once the delay allows, a random pick otherwise. */
  function DetectionMove(profile: Profile, last: Last, delay: nat, pick: Move): (m: Move)
    ensures delay > 3 ==> m == pick
    ensures profile.LossRepeating? && m != pick ==> last.result == Some(Win)
  {
    match profile
    case Fixed(pattern) => if delay <= 3 then Counter(pattern) else pick
    case Countering(_) => if delay == 0 && last.ours.Some? then Counter(Counter(last.ours.value)) else pick
    case Copying(_) => if delay == 0 && last.ours.Some? then Counter(last.ours.value) else pick
    case LossRepeating(_) =>
      if delay == 0 && last.result == Some(Win) && last.theirs.Some? then Counter(last.theirs.value) else pick
    case Adaptive => pick
  }

  /** `detection_delay = max(0, 10 - i)`. */
  function Delay(i: nat): (d: nat)
    ensures d <= 10 && (d == 0 <==> i >= 10) && (d <= 3 <==> i >= 7)
  {
    if 10 - i > 0 then 10 - i else 0
  }

  /** The variables the loop carries after the battles `ts`. */
  function LastOf(ts: seq<Turn>): Last {
    if ts == [] then NoLast
    else
      var t := ts[|ts| - 1];
      Last(Some(t.ours), Some(t.theirs), Some(t.outcome))
  }

  /**
   * Battle `i` of the loop with detection, the repeater repeating after
   * `repeatAfter`: before battle 7 our move is the random pick.
   */
  function BattleWith(profile: Profile, last: Last, i: nat, d: Draws, repeatAfter: Outcome): (t: Turn)
    ensures t.outcome == Result(t.ours, t.theirs)
    ensures i < 7 ==> t.ours == d.ourPick
  {
    var ours := DetectionMove(profile, last, Delay(i), d.ourPick);
    var theirs := Respond(profile, last, d.roll, d.enemyPick, repeatAfter);
    Turn(ours, theirs, Result(ours, theirs))
  }

  /** A battle of the loop without detection: our move is the random pick. */
  function BattleWithout(profile: Profile, last: Last, d: Draws, repeatAfter: Outcome): (t: Turn)
    ensures t.ours == d.ourPick && t.outcome == Result(t.ours, t.theirs)
  {
    var theirs := Respond(profile, last, d.roll, d.enemyPick, repeatAfter);
    Turn(d.ourPick, theirs, Result(d.ourPick, theirs))
  }

  /**
   * The battles of the loop with detection, given each battle's draws and
   * the repeater's trigger: `Loss` as the script is written, `Win` as the
   * repeater's profile describes it.
   */
  function PlayedWith(profile: Profile, ds: seq<Draws>, repeatAfter: Outcome): (ts: seq<Turn>)
    ensures |ts| == |ds|
  {
    if ds == [] then []
    else
      var prev := PlayedWith(profile, ds[..|ds| - 1], repeatAfter);
      prev + [BattleWith(profile, LastOf(prev), |prev|, ds[|ds| - 1], repeatAfter)]
  }

  /** The battles of the loop without detection. */
  function PlayedWithout(profile: Profile, ds: seq<Draws>, repeatAfter: Outcome): (ts: seq<Turn>)
    ensures |ts| == |ds|
  {
    if ds == [] then []
    else
      var prev := PlayedWithout(profile, ds[..|ds| - 1], repeatAfter);
      prev + [BattleWithout(profile, LastOf(prev), ds[|ds| - 1], repeatAfter)]
  }

  /** `results[result] += 1` for one battle. */
  function Record(r: Results, o: Outcome): Results {
    match o
    case Win => r.(win := r.win + 1)
    case Tie => r.(tie := r.tie + 1)
    case Loss => r.(loss := r.loss + 1)
  }

  /** The results dict after the battles `ts`: every battle is counted once, under its own outcome. */
  function ResultsOf(ts: seq<Turn>): (r: Results)
    ensures r.win + r.tie + r.loss == |ts|
    ensures r.win == |ts| ==> forall i :: 0 <= i < |ts| ==> ts[i].outcome == Win
  {
    if ts == [] then Results(0, 0, 0) else Record(ResultsOf(ts[..|ts| - 1]), ts[|ts| - 1].outcome)
  }

  /**
   * `calculate_survival_rate`: `(wins + ties) / total` and
   * `(wins * 1.3 + ties) / (total * 1.3)`, in percent; both lie in
   * [0, 100], the weighted score never exceeds the survival rate, and
   * survival is 100 exactly when there was no loss.
   */
  function SurvivalRate(r: Results): (s: Survival)
    ensures s.NoBattles? <==> r.win + r.tie + r.loss == 0
    ensures s.Rates? ==> 0.0 <= s.weighted <= s.survival <= 100.0
    ensures s.Rates? ==> (s.survival == 100.0 <==> r.loss == 0)
  {
    var total := r.win + r.tie + r.loss;
    if total == 0 then NoBattles
    else
      SurvivalBounds(r.win as real, r.tie as real, total as real);
      Rates((r.win as real + r.tie as real) / total as real * 100.0,
            (r.win as real * 1.3 + r.tie as real * 1.0) / (total as real * 1.3) * 100.0)
  }

  /** The arithmetic behind `SurvivalRate`, for `w` wins and `t` ties among `n` battles. */
  lemma SurvivalBounds(w: real, t: real, n: real)
    requires 0.0 <= w && 0.0 <= t && w + t <= n && 0.0 < n
    ensures var survival := (w + t) / n * 100.0;
            var weighted := (w * 1.3 + t * 1.0) / (n * 1.3) * 100.0;
            0.0 <= weighted <= survival <= 100.0 && (survival == 100.0 <==> w + t == n)
  {
    RatioBounds(w + t, w + t, n);
    RatioBounds(w * 1.3 + t, (w + t) * 1.3, n * 1.3);
    ScaledRatio(w + t, n, 1.3);
  }

  /** Two shares of the same positive whole, in order. */
  lemma RatioBounds(a: real, b: real, n: real)
    requires 0.0 <= a <= b <= n && 0.0 < n
    ensures 0.0 <= a / n <= b / n <= 1.0
    ensures b / n == 1.0 ==> b == n
  {
    assert a / n * n == a && b / n * n == b;
  }

  /** Scaling both sides of a ratio leaves it unchanged. */
  lemma ScaledRatio(a: real, n: real, k: real)
    requires 0.0 < n && 0.0 < k
    ensures (a * k) / (n * k) == a / n
  {
    assert (a / n) * (n * k) == a * k;
  }

  // ------------------------------------------------------------------ the two loops

  /**
   * One battle from any state: a fixed profile always plays its pattern and
   * is beaten once the delay is at most 3; a copier or counterer taking its
   * pattern branch is beaten once the delay is 0.
   */
  lemma DetectionAnswers(profile: Profile, last: Last, delay: nat, roll: real, ourPick: Move, enemyPick: Move, repeatAfter: Outcome)
    ensures var ours := DetectionMove(profile, last, delay, ourPick);
            var theirs := Respond(profile, last, roll, enemyPick, repeatAfter);
            (profile.Fixed? ==> theirs == profile.pattern && (delay <= 3 ==> Result(ours, theirs) == Win))
            && (profile.Copying? && delay == 0 && last.ours.Some? && roll < profile.copyRate ==> Result(ours, theirs) == Win)
            && (profile.Countering? && delay == 0 && last.ours.Some? && roll < profile.counterRate ==> Result(ours, theirs) == Win)
  {
  }

  /** Battle `i` is played from the state battle `i - 1` left. */
  lemma {:induction false} PlayedWithAt(profile: Profile, ds: seq<Draws>, i: nat, repeatAfter: Outcome)
    requires i < |ds|
    ensures PlayedWith(profile, ds, repeatAfter)[i]
         == BattleWith(profile, LastOf(PlayedWith(profile, ds, repeatAfter)[..i]), i, ds[i], repeatAfter)
    ensures 0 < i ==> LastOf(PlayedWith(profile, ds, repeatAfter)[..i]) == LastOf([PlayedWith(profile, ds, repeatAfter)[i - 1]])
    decreases |ds|
  {
    var p := ds[..|ds| - 1];
    var prev := PlayedWith(profile, p, repeatAfter);
    assert PlayedWith(profile, ds, repeatAfter)[..|prev|] == prev;
    if i < |p| {
      PlayedWithAt(profile, p, i, repeatAfter);
      assert prev[..i] == PlayedWith(profile, ds, repeatAfter)[..i];
    }
  }

  /**
   * Against a fixed profile the detection answers from battle 7 on, and
   * every one of those battles is a win, whatever the repeater's trigger.
   */
  lemma {:induction false} FixedWinsFromBattleSeven(pattern: Move, ds: seq<Draws>, repeatAfter: Outcome)
    ensures forall i :: 7 <= i < |ds| ==> PlayedWith(Fixed(pattern), ds, repeatAfter)[i].outcome == Win
  {
    forall i | 7 <= i < |ds| ensures PlayedWith(Fixed(pattern), ds, repeatAfter)[i].outcome == Win {
      PlayedWithAt(Fixed(pattern), ds, i, repeatAfter);
    }
  }

  /**
   * Against a copier the detection plays `get_counter(our_last)`, and
   * against a counterer `get_counter(get_counter(our_last))`: from battle
   * 10 on, every battle in which the opponent takes its pattern branch is a win.
   */
  lemma {:induction false} ReactiveProfilesBeaten(profile: Profile, ds: seq<Draws>, i: nat, repeatAfter: Outcome)
    requires profile.Copying? || profile.Countering?
    requires 10 <= i < |ds|
    requires ds[i].roll < (if profile.Copying? then profile.copyRate else profile.counterRate)
    ensures PlayedWith(profile, ds, repeatAfter)[i].outcome == Win
  {
    PlayedWithAt(profile, ds, i, repeatAfter);
  }

  /**
   * With the repeater triggered by its own loss, the detection's answer
   * meets the repeat: from battle 10 on, a battle after a win in which the
   * repeater takes its repeat branch is a win again.
   */
  lemma {:induction false} RepeaterBeatenAfterWin(rate: real, ds: seq<Draws>, i: nat)
    requires 10 <= i < |ds| && ds[i].roll < rate
    requires PlayedWith(LossRepeating(rate), ds, Win)[i - 1].outcome == Win
    ensures PlayedWith(LossRepeating(rate), ds, Win)[i].outcome == Win
  {
    PlayedWithAt(LossRepeating(rate), ds, i, Win);
  }

  /** A repeater that always repeats (rate 1.0) is beaten in every battle after a win from battle 9 on. */
  lemma {:induction false} CertainRepeaterLockedIn(ds: seq<Draws>, j: nat, i: nat)
    requires forall k :: 0 <= k < |ds| ==> 0.0 <= ds[k].roll < 1.0
    requires 9 <= j <= i < |ds| && PlayedWith(LossRepeating(1.0), ds, Win)[j].outcome == Win
    ensures PlayedWith(LossRepeating(1.0), ds, Win)[i].outcome == Win
    decreases i
  {
    if i > j {
      CertainRepeaterLockedIn(ds, j, i - 1);
      RepeaterBeatenAfterWin(1.0, ds, i);
    }
  }

  /**
   * As written, the repeater's repeat branch needs `last_result == 'loss'`
   * while the detection's answer needs `'win'`: whenever the repeater
   * repeats, the detection plays its random pick instead of the counter.
   */
  lemma AsWrittenRepeatNeverAnswered(rate: real, last: Last, delay: nat, roll: real, ourPick: Move, enemyPick: Move)
    requires last.result == Some(Loss) && last.theirs.Some? && roll < rate
    ensures EnemyMoveAsWritten(LossRepeating(rate), last, roll, enemyPick) == last.theirs.value
    ensures DetectionMove(LossRepeating(rate), last, delay, ourPick) == ourPick
  {
  }

  /** One battle that shows it: the repeater repeats rock after our loss, the detection's random pick is rock, and the battle is a tie. */
  lemma AsWrittenRepeatTies()
    ensures var last := Last(Some(Scissor), Some(Rock), Some(Loss));
            var theirs := EnemyMoveAsWritten(LossRepeating(1.0), last, 0.5, Paper);
            var ours := DetectionMove(LossRepeating(1.0), last, 0, Rock);
            theirs == Rock && ours == Rock && Result(ours, theirs) == Tie
  {
  }

  /**
   * In the loop with detection as written, after a battle we lost the
   * repeater that takes its repeat branch plays its last move again, and
   * the detection meets it with its random pick, at every battle.
   */
  lemma {:induction false} AsWrittenLoopRepeatUnanswered(rate: real, ds: seq<Draws>, i: nat)
    requires 1 <= i < |ds| && ds[i].roll < rate
    requires PlayedWith(LossRepeating(rate), ds, Loss)[i - 1].outcome == Loss
    ensures var ts := PlayedWith(LossRepeating(rate), ds, Loss);
            ts[i].theirs == ts[i - 1].theirs && ts[i].ours == ds[i].ourPick
  {
    PlayedWithAt(LossRepeating(rate), ds, i, Loss);
  }

  /**
   * The two triggers give different battles from the second battle on: a
   * certain repeater that won battle 0 with rock repeats rock as written,
   * and plays its random pick paper when it repeats after its own loss.
   */
  lemma AsWrittenLoopDiffers()
    ensures var ds := [Draws(Scissor, 0.5, Rock), Draws(Rock, 0.5, Paper)];
            var asWritten, intended := PlayedWithout(LossRepeating(1.0), ds, Loss), PlayedWithout(LossRepeating(1.0), ds, Win);
            asWritten[1].theirs == Rock && intended[1].theirs == Paper
            && ResultsOf(asWritten) == Results(0, 1, 1) && ResultsOf(intended) == Results(0, 0, 2)
  {
    var ds := [Draws(Scissor, 0.5, Rock), Draws(Rock, 0.5, Paper)];
    assert ds[..1] == [Draws(Scissor, 0.5, Rock)] && ds[..1][..0] == [];
    var first := PlayedWithout(LossRepeating(1.0), ds[..1], Loss);
    assert first == [Turn(Scissor, Rock, Loss)];
    assert first == PlayedWithout(LossRepeating(1.0), ds[..1], Win);
    var asWritten, intended := PlayedWithout(LossRepeating(1.0), ds, Loss), PlayedWithout(LossRepeating(1.0), ds, Win);
    assert asWritten == first + [Turn(Rock, Rock, Tie)];
    assert intended == first + [Turn(Rock, Paper, Loss)];
    assert asWritten[..1] == first && intended[..1] == first;
  }

  // ------------------------------------------------------------------ methods

  /** The draws of the first `i + 1` battles extend those of the first `i` by one battle. */
  lemma {:induction false} PlayedSnoc(profile: Profile, ds: seq<Draws>, i: nat, repeatAfter: Outcome)
    requires i < |ds|
    ensures PlayedWith(profile, ds[..i + 1], repeatAfter)
         == PlayedWith(profile, ds[..i], repeatAfter)
            + [BattleWith(profile, LastOf(PlayedWith(profile, ds[..i], repeatAfter)), i, ds[i], repeatAfter)]
    ensures PlayedWithout(profile, ds[..i + 1], repeatAfter)
         == PlayedWithout(profile, ds[..i], repeatAfter)
            + [BattleWithout(profile, LastOf(PlayedWithout(profile, ds[..i], repeatAfter)), ds[i], repeatAfter)]
  {
    assert ds[..i + 1][..i] == ds[..i];
  }

  /** One pass of the loop with detection: the two moves and `get_result`. */
  method PlayBattle(profile: Profile, ourLast: Option<Move>, enemyLast: Option<Move>, lastResult: Option<Outcome>, i: nat, d: Draws,
                    repeatAfter: Outcome)
    returns (t: Turn)
    ensures t == BattleWith(profile, Last(ourLast, enemyLast, lastResult), i, d, repeatAfter)
  {
    var delay := Delay(i);
    var last := Last(ourLast, enemyLast, lastResult);
    var ourMove := DetectionMove(profile, last, delay, d.ourPick);
    var enemyMove := Respond(profile, last, d.roll, d.enemyPick, repeatAfter);
    t := Turn(ourMove, enemyMove, Result(ourMove, enemyMove));
  }

  /** The loop with detection (lines 133-149), for a given repeater trigger. */
  method SimulateWith(profile: Profile, ds: seq<Draws>, repeatAfter: Outcome) returns (results: Results)
    ensures results == ResultsOf(PlayedWith(profile, ds, repeatAfter))
  {
    results := Results(0, 0, 0);
    var ourLast: Option<Move>, enemyLast: Option<Move>, lastResult: Option<Outcome> := None, None, None;
    ghost var ts: seq<Turn> := [];
    for i := 0 to |ds|
      invariant ts == PlayedWith(profile, ds[..i], repeatAfter)
      invariant Last(ourLast, enemyLast, lastResult) == LastOf(ts) && results == ResultsOf(ts)
    {
      var t := PlayBattle(profile, ourLast, enemyLast, lastResult, i, ds[i], repeatAfter);
      PlayedSnoc(profile, ds, i, repeatAfter);
      results := Record(results, t.outcome);
      ts := ts + [t];
      assert ts[..|ts| - 1] + [t] == ts;
      ourLast, enemyLast, lastResult := Some(t.ours), Some(t.theirs), Some(t.outcome);
    }
    assert ds[..|ds|] == ds;
  }

  /** The loop without detection (lines 117-130), for a given repeater trigger. */
  method SimulateWithout(profile: Profile, ds: seq<Draws>, repeatAfter: Outcome) returns (results: Results)
    ensures results == ResultsOf(PlayedWithout(profile, ds, repeatAfter))
  {
    results := Results(0, 0, 0);
    var ourLast: Option<Move>, enemyLast: Option<Move>, lastResult: Option<Outcome> := None, None, None;
    ghost var ts: seq<Turn> := [];
    for i := 0 to |ds|
      invariant ts == PlayedWithout(profile, ds[..i], repeatAfter)
      invariant Last(ourLast, enemyLast, lastResult) == LastOf(ts) && results == ResultsOf(ts)
    {
      var ourMove := ds[i].ourPick;
      var enemyMove := Respond(profile, Last(ourLast, enemyLast, lastResult), ds[i].roll, ds[i].enemyPick, repeatAfter);
      var t := Turn(ourMove, enemyMove, Result(ourMove, enemyMove));
      PlayedSnoc(profile, ds, i, repeatAfter);
      results := Record(results, t.outcome);
      ts := ts + [t];
      assert ts[..|ts| - 1] + [t] == ts;
      ourLast, enemyLast, lastResult := Some(t.ours), Some(t.theirs), Some(t.outcome);
    }
    assert ds[..|ds|] == ds;
  }

  /**
   * `simulate_battles` as the script runs it: both loops, each with its own
   * draws and the same number of battles, against `simulate_enemy` as
   * written, whose repeater repeats after a recorded `'loss'`.
   */
  method SimulateBattles(profile: Profile, withoutDraws: seq<Draws>, withDraws: seq<Draws>) returns (without: Results, with: Results)
    requires |withoutDraws| == |withDraws|
    ensures without == ResultsOf(PlayedWithout(profile, withoutDraws, Loss))
    ensures with == ResultsOf(PlayedWith(profile, withDraws, Loss))
    ensures without.win + without.tie + without.loss == with.win + with.tie + with.loss == |withDraws|
  {
    without := SimulateWithout(profile, withoutDraws, Loss);
    with := SimulateWith(profile, withDraws, Loss);
  }
}
