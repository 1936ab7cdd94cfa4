/**
 * Transitions between consecutive turns, as the reactive analyses classify
 * them: how the opponent's move relates to our previous move (the `counter`
 * and `opposite` maps, or a copy), and how it relates to the opponent's own
 * previous move after a given recorded outcome.
 */
module Transitions {

  import opened Moves
  import opened Tally

  /** The opponent's current move against our previous move. */
  datatype Reaction = Countered | Copied | Opposed

  /** Exactly one reaction describes each transition, since `Counter(m)`, `m` and `Opposite(m)` are the three moves. */
  function ReactionTo(ourPrev: Move, theirCurr: Move): (r: Reaction)
    ensures r == Countered <==> theirCurr == Counter(ourPrev)
    ensures r == Copied <==> theirCurr == ourPrev
    ensures r == Opposed <==> theirCurr == Opposite(ourPrev)
  {
    if theirCurr == Counter(ourPrev) then Countered
    else if theirCurr == ourPrev then Copied
    else Opposed
  }

  /** Number of transitions `i` in `1 <= i < |t|` where the opponent's move at `i` reacts to our move at `i - 1` by `r`. */
  function ReactionCount(t: seq<Turn>, r: Reaction): (n: nat)
    ensures n <= if |t| == 0 then 0 else |t| - 1
    decreases |t|
  {
    if |t| < 2 then 0
    else
      ReactionCount(t[..|t| - 1], r)
      + (if ReactionTo(t[|t| - 2].ours, t[|t| - 1].theirs) == r then 1 else 0)
  }

  /** Looking at one more transition, the one into turn `i`, adds its reaction. */
  lemma {:induction false} ReactionCountStep(t: seq<Turn>, i: nat, r: Reaction)
    requires 1 <= i < |t|
    ensures ReactionCount(t[..i + 1], r)
            == ReactionCount(t[..i], r) + (if ReactionTo(t[i - 1].ours, t[i].theirs) == r then 1 else 0)
  {
    assert t[..i + 1][..i] == t[..i];
  }

  /** The three reactions partition the `|t| - 1` transitions. */
  lemma {:induction false} ReactionsPartition(t: seq<Turn>)
    requires |t| >= 1
    ensures ReactionCount(t, Countered) + ReactionCount(t, Copied) + ReactionCount(t, Opposed) == |t| - 1
    decreases |t|
  {
    if |t| >= 2 {
      ReactionsPartition(t[..|t| - 1]);
    }
  }

  /**
   * The loop `for i in range(1, len(battles))` that tallies counter, copy
   * and opposite reactions to our previous move.
   */
  method CountReactions(t: seq<Turn>) returns (counters: nat, copies: nat, opposites: nat)
    ensures counters == ReactionCount(t, Countered)
    ensures copies == ReactionCount(t, Copied)
    ensures opposites == ReactionCount(t, Opposed)
  {
    counters, copies, opposites := 0, 0, 0;
    if |t| < 2 {
      return;
    }
    var i := 1;
    while i < |t|
      invariant 1 <= i <= |t|
      invariant counters == ReactionCount(t[..i], Countered)
      invariant copies == ReactionCount(t[..i], Copied)
      invariant opposites == ReactionCount(t[..i], Opposed)
    {
      assert t[..i + 1][..i] == t[..i];
      var ourPrev := t[i - 1].ours;
      if t[i].theirs == Counter(ourPrev) {
        counters := counters + 1;
      } else if t[i].theirs == ourPrev {
        copies := copies + 1;
      } else {
        opposites := opposites + 1;
      }
      i := i + 1;
    }
    assert t[..i] == t;
  }

  /** The opponent's current move against its own previous move. */
  datatype FollowUp = Repeated | SwitchedToCounter | SwitchedOther

  function FollowUpOf(theirPrev: Move, theirCurr: Move): (f: FollowUp)
    ensures f == Repeated <==> theirCurr == theirPrev
    ensures f == SwitchedToCounter <==> theirCurr == Counter(theirPrev)
    ensures f == SwitchedOther <==> theirCurr == Opposite(theirPrev)
  {
    if theirCurr == theirPrev then Repeated
    else if theirCurr == Counter(theirPrev) then SwitchedToCounter
    else SwitchedOther
  }

  /** Number of transitions whose previous turn has recorded outcome `o`. */
  function AfterCount(t: seq<Turn>, o: Outcome): (n: nat)
    ensures n <= if |t| == 0 then 0 else |t| - 1
    decreases |t|
  {
    if |t| < 2 then 0
    else AfterCount(t[..|t| - 1], o) + (if t[|t| - 2].outcome == o then 1 else 0)
  }

  /**
   * The opponent's follow-ups on the transitions whose previous turn has
   * recorded outcome `o`, in order: the sequence a per-outcome reaction
   * dict is filled from.
   */
  function FollowUpsAfter(t: seq<Turn>, o: Outcome): (fs: seq<FollowUp>)
    ensures |fs| == AfterCount(t, o)
    decreases |t|
  {
    if |t| < 2 then []
    else
      FollowUpsAfter(t[..|t| - 1], o)
      + (if t[|t| - 2].outcome == o then [FollowUpOf(t[|t| - 2].theirs, t[|t| - 1].theirs)] else [])
  }

  /** Looking at one more transition, the one into turn `i`, adds at most one follow-up. */
  lemma {:induction false} FollowUpsAfterStep(t: seq<Turn>, i: nat, o: Outcome)
    requires 1 <= i < |t|
    ensures FollowUpsAfter(t[..i + 1], o)
            == FollowUpsAfter(t[..i], o) + (if t[i - 1].outcome == o then [FollowUpOf(t[i - 1].theirs, t[i].theirs)] else [])
  {
    assert t[..i + 1][..i] == t[..i];
  }

  /** Number of transitions after outcome `o` where the opponent followed up with `f`. */
  function FollowUpCount(t: seq<Turn>, o: Outcome, f: FollowUp): (n: nat)
    ensures n <= AfterCount(t, o)
  {
    CountOf(FollowUpsAfter(t, o), f)
  }

  /** Every follow-up is one of the three. */
  lemma {:induction false} FollowUpKindsPartition(fs: seq<FollowUp>)
    ensures CountOf(fs, Repeated) + CountOf(fs, SwitchedToCounter) + CountOf(fs, SwitchedOther) == |fs|
    decreases |fs|
  {
    if fs != [] {
      var p, x := fs[..|fs| - 1], fs[|fs| - 1];
      FollowUpKindsPartition(p);
      assert CountOf(fs, Repeated) == CountOf(p, Repeated) + (if x == Repeated then 1 else 0);
      assert CountOf(fs, SwitchedToCounter) == CountOf(p, SwitchedToCounter) + (if x == SwitchedToCounter then 1 else 0);
      assert CountOf(fs, SwitchedOther) == CountOf(p, SwitchedOther) + (if x == SwitchedOther then 1 else 0);
    }
  }

  /** The three follow-ups partition the transitions after outcome `o`. */
  lemma {:induction false} FollowUpsPartition(t: seq<Turn>, o: Outcome)
    ensures FollowUpCount(t, o, Repeated) + FollowUpCount(t, o, SwitchedToCounter) + FollowUpCount(t, o, SwitchedOther)
            == AfterCount(t, o)
  {
    FollowUpKindsPartition(FollowUpsAfter(t, o));
  }

  /** Transitions after different outcomes are different transitions. */
  lemma {:induction false} AfterCountsDisjoint(t: seq<Turn>)
    ensures AfterCount(t, Win) + AfterCount(t, Loss) + AfterCount(t, Tie) == if |t| == 0 then 0 else |t| - 1
    decreases |t|
  {
    if |t| >= 2 {
      AfterCountsDisjoint(t[..|t| - 1]);
    }
  }
}
