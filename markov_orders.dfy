/**
 * test_markov_orders.py: the order-1 and order-3 Markov detectors over an
 * opponent's move sequence. Order 1 reports the single most frequent
 * transition when it covers more than 40% of all transitions; order 3 reports
 * the 4-gram whose next move is most predictable from its 3-move context,
 * when that conditional ratio exceeds 60% on a context seen at least 5 times.
 */
module MarkovOrders {

  import opened Wrappers
  import opened Moves
  import opened Tally
  import opened Distributions

  const Markov1MinMoves: nat := 10
  const Markov3MinMoves: nat := 30
  /** `context_total >= 5`: the support floor of a 3-move context. */
  const ContextSupport: nat := 5

  // ---------------------------------------------------------------- order 1

  /** The dict key `f"{prev}->{curr}"`. */
  datatype Transition = Transition(prev: Move, next: Move)

  /** The transition keys of `range(1, len(moves))`, in order. */
  function TransitionsOf(ms: seq<Move>): (ts: seq<Transition>)
    ensures |ts| == if |ms| == 0 then 0 else |ms| - 1
    ensures forall i :: 0 <= i < |ts| ==> ts[i] == Transition(ms[i], ms[i + 1])
  {
    if |ms| == 0 then [] else seq(|ms| - 1, i requires 0 <= i < |ms| - 1 => Transition(ms[i], ms[i + 1]))
  }

  /** What `detect_markov_1` formats into its message: the transition, its count and the total. */
  datatype Markov1Report = Markov1Report(transition: Transition, count: nat, total: nat)

  /**
   * `detect_markov_1`: the most frequent transition (first inserted among
   * equals), reported when `count / total > 0.4`, written `count > 0.4 *
   * total` (see `ShareIffAbove`).
   */
  function Markov1(ms: seq<Move>): (r: Option<Markov1Report>)
    ensures r.Some? ==> |ms| >= Markov1MinMoves && r.value.total == |ms| - 1
                        && r.value.count as real > 0.4 * r.value.total as real
  {
    if |ms| < Markov1MinMoves then None
    else
      var ts := TransitionsOf(ms);
      var best := MostFrequent(ts);
      var count := CountOf(ts, best);
      if count as real > 0.4 * |ts| as real then Some(Markov1Report(best, count, |ts|)) else None
  }

  /**
   * Below 10 moves nothing is reported. A report names a transition that
   * occurs at least as often as every other, counts its occurrences, and
   * counts all `len - 1` transitions in its total, of which it holds more
   * than 40%: a joint frequency, not one conditional on the previous move.
   * Otherwise no transition at all holds more than 40%.
   */
  lemma {:induction false} Markov1Reports(ms: seq<Move>)
    ensures |ms| < Markov1MinMoves ==> Markov1(ms).None?
    ensures Markov1(ms).Some? ==>
              var rep := Markov1(ms).value;
              var ts := TransitionsOf(ms);
              rep.total == |ms| - 1 && rep.count == CountOf(ts, rep.transition)
              && rep.count as real > 0.4 * rep.total as real
              && forall t :: CountOf(ts, t) <= rep.count
    ensures |ms| >= Markov1MinMoves && Markov1(ms).None? ==>
              forall t :: CountOf(TransitionsOf(ms), t) as real <= 0.4 * (|ms| - 1) as real
  {
    if |ms| >= Markov1MinMoves {
      var ts := TransitionsOf(ms);
      var best := MostFrequent(ts);
      forall t ensures CountOf(ts, t) <= CountOf(ts, best) {
        if t !in ts {
          assert CountOf(ts, t) == 0;
        }
      }
    }
  }

  /** Among equally frequent transitions, the report names the one seen first. */
  lemma {:induction false} Markov1TieBreak(ms: seq<Move>, t: Transition)
    requires Markov1(ms).Some?
    requires t in TransitionsOf(ms) && CountOf(TransitionsOf(ms), t) == Markov1(ms).value.count
    ensures FirstIndex(TransitionsOf(ms), Markov1(ms).value.transition) <= FirstIndex(TransitionsOf(ms), t)
  {
    MostFrequentTieBreak(TransitionsOf(ms), t);
  }

  /** `detect_markov_1` with its tally loop, its `max` scan and its `sum(transitions.values())` loop. */
  method DetectMarkov1(ms: seq<Move>) returns (r: Option<Markov1Report>)
    ensures r == Markov1(ms)
  {
    if |ms| < Markov1MinMoves {
      return None;
    }
    var ts := TransitionsOf(ms);
    var counts, order := TallyKeys(ts);
    var best := MostFrequentScan(ts, order, counts);
    var total := SumValuesWhere(order, counts, Everything());
    SumOfTally(ts, counts, Everything());
    CountWhereAll(ts, Everything());
    if counts[best] as real > 0.4 * total as real {
      return Some(Markov1Report(best, counts[best], total));
    }
    return None;
  }

  /** The filter of a plain `sum(d.values())`. */
  function Everything<K>(): K -> bool {
    (_: K) => true
  }

  // ---------------------------------------------------------------- order 3

  /** The dict key `f"{a}-{b}-{c}->{next}"`: a 3-move context and the move that followed it. */
  datatype Context = Context(first: Move, second: Move, third: Move)
  datatype FourGram = FourGram(context: Context, next: Move)

  /** The 4-gram keys of `range(3, len(moves))`, in order. */
  function FourGramsOf(ms: seq<Move>): (gs: seq<FourGram>)
    ensures |gs| == if |ms| < 3 then 0 else |ms| - 3
    ensures forall i :: 0 <= i < |gs| ==>
              gs[i] == FourGram(Context(ms[i], ms[i + 1], ms[i + 2]), ms[i + 3])
  {
    if |ms| < 3 then []
    else seq(|ms| - 3, i requires 0 <= i < |ms| - 3 => FourGram(Context(ms[i], ms[i + 1], ms[i + 2]), ms[i + 3]))
  }

  /**
   * `p.startswith(context)` on the dict keys. Move names are prefix-free and
   * the separators fixed, so a key starts with a context exactly when its own
   * context is that context.
   */
  function SameContext(ctx: Context): FourGram -> bool {
    (g: FourGram) => g.context == ctx
  }

  /** How often `ctx` occurs as a context among the 4-grams. */
  function ContextOccurrences(gs: seq<FourGram>, ctx: Context): (n: nat)
    ensures n <= |gs|
  {
    CountWhere(gs, SameContext(ctx))
  }

  /** The scan's state: `best_ratio` and `best_pattern`. */
  datatype Best = Best(ratio: real, pattern: Option<FourGram>)

  /** A key's `count / context_total`, when its context has the support to be considered. */
  predicate Eligible(gs: seq<FourGram>, g: FourGram) {
    ContextOccurrences(gs, g.context) >= ContextSupport
  }

  function RatioOf(gs: seq<FourGram>, g: FourGram): real
    requires Eligible(gs, g)
  {
    Share(CountOf(gs, g), ContextOccurrences(gs, g.context))
  }

  /**
   * The scan `for pattern, count in patterns.items()` over the keys `ks`:
   * an eligible key replaces the best so far only on a strictly larger ratio.
   */
  function BestScan(ks: seq<FourGram>, gs: seq<FourGram>): (b: Best)
    ensures b.pattern.None? ==> b.ratio == 0.0
    ensures b.pattern.Some? ==> b.pattern.value in ks && Eligible(gs, b.pattern.value) && b.ratio == RatioOf(gs, b.pattern.value)
  {
    if ks == [] then Best(0.0, None) else Consider(BestScan(ks[..|ks| - 1], gs), gs, ks[|ks| - 1])
  }

  /** One step of the scan: key `g` replaces `prev` when eligible with a strictly larger ratio. */
  function Consider(prev: Best, gs: seq<FourGram>, g: FourGram): Best {
    if Eligible(gs, g) && RatioOf(gs, g) > prev.ratio then Best(RatioOf(gs, g), Some(g)) else prev
  }

  /** What `detect_markov_3` formats into its message. */
  datatype Markov3Report = Markov3Report(pattern: FourGram, ratio: real)

  /** `detect_markov_3`: the best-ratio key, reported when its ratio exceeds 0.6. */
  function Markov3(ms: seq<Move>): (r: Option<Markov3Report>)
    ensures r.Some? ==> |ms| >= Markov3MinMoves && r.value.ratio > 0.6
  {
    if |ms| < Markov3MinMoves then None
    else
      var gs := FourGramsOf(ms);
      var b := BestScan(Keys(gs), gs);
      if b.ratio > 0.6 then Some(Markov3Report(b.pattern.value, b.ratio)) else None
  }

  /** Every ratio lies in (0, 1]: the key occurs, and its own occurrences are occurrences of its context. */
  lemma {:induction false} RatioInUnitInterval(gs: seq<FourGram>, g: FourGram)
    requires g in gs && Eligible(gs, g)
    ensures 0.0 < RatioOf(gs, g) <= 1.0
  {
    CountWithinContext(gs, g);
  }

  /** A 4-gram occurs at most as often as its context. */
  lemma {:induction false} CountWithinContext(gs: seq<FourGram>, g: FourGram)
    ensures CountOf(gs, g) <= ContextOccurrences(gs, g.context)
    decreases |gs|
  {
    if gs != [] {
      CountWithinContext(gs[..|gs| - 1], g);
    }
  }

  /**
   * The best ratio is at least the ratio of every eligible key scanned,
   * strictly above that of every eligible key scanned before the chosen one
   * (ties keep the first), and a key whose context occurs fewer than 5 times
   * is never chosen.
   */
  lemma {:induction false} BestScanIsFirstMaximum(ks: seq<FourGram>, gs: seq<FourGram>)
    ensures var b := BestScan(ks, gs);
            (forall i :: 0 <= i < |ks| && Eligible(gs, ks[i]) ==> RatioOf(gs, ks[i]) <= b.ratio)
            && (b.pattern.Some? ==>
                  exists j :: 0 <= j < |ks| && ks[j] == b.pattern.value
                    && forall i :: 0 <= i < j && Eligible(gs, ks[i]) ==> RatioOf(gs, ks[i]) < b.ratio)
    decreases |ks|
  {
    if ks != [] {
      var p := ks[..|ks| - 1];
      BestScanIsFirstMaximum(p, gs);
      var prev := BestScan(p, gs);
      var b := BestScan(ks, gs);
      var g := ks[|ks| - 1];
      forall i | 0 <= i < |ks| && Eligible(gs, ks[i]) ensures RatioOf(gs, ks[i]) <= b.ratio {
        if i < |p| {
          assert ks[i] == p[i];
        }
      }
      if b.pattern.Some? {
        if b == prev {
          var j :| 0 <= j < |p| && p[j] == b.pattern.value
                   && forall i :: 0 <= i < j && Eligible(gs, p[i]) ==> RatioOf(gs, p[i]) < b.ratio;
          assert ks[j] == b.pattern.value;
          forall i | 0 <= i < j && Eligible(gs, ks[i]) ensures RatioOf(gs, ks[i]) < b.ratio {
            assert ks[i] == p[i];
          }
        } else {
          var j := |ks| - 1;
          forall i | 0 <= i < j && Eligible(gs, ks[i]) ensures RatioOf(gs, ks[i]) < b.ratio {
            assert ks[i] == p[i];
          }
        }
      }
    }
  }

  /**
   * Below 30 moves nothing is reported. A report names a key of the table
   * whose context occurs at least 5 times, whose ratio exceeds 0.6 and is at
   * least every other supported key's ratio; otherwise every supported key
   * has a ratio of at most 0.6 (in particular, no supported key leaves
   * `best_ratio` at 0 and nothing is reported).
   */
  lemma {:induction false} Markov3Reports(ms: seq<Move>)
    ensures |ms| < Markov3MinMoves ==> Markov3(ms).None?
    ensures Markov3(ms).Some? ==>
              var gs := FourGramsOf(ms);
              var rep := Markov3(ms).value;
              rep.pattern in gs && Eligible(gs, rep.pattern) && rep.ratio == RatioOf(gs, rep.pattern) > 0.6
              && forall g :: g in gs && Eligible(gs, g) ==> RatioOf(gs, g) <= rep.ratio
    ensures |ms| >= Markov3MinMoves && Markov3(ms).None? ==>
              var gs := FourGramsOf(ms);
              forall g :: g in gs && Eligible(gs, g) ==> RatioOf(gs, g) <= 0.6
  {
    if |ms| >= Markov3MinMoves {
      var gs := FourGramsOf(ms);
      var ks := Keys(gs);
      BestScanIsFirstMaximum(ks, gs);
      forall g | g in gs && Eligible(gs, g) ensures RatioOf(gs, g) <= BestScan(ks, gs).ratio {
        assert g in ks;
        var i :| 0 <= i < |ks| && ks[i] == g;
      }
    }
  }

  /**
   * The generator `sum(c for p, c in patterns.items() if p.startswith(context))`,
   * which on the tallied table counts the occurrences of the context.
   */
  method ContextTotal(ghost gs: seq<FourGram>, order: seq<FourGram>, counts: map<FourGram, nat>, ctx: Context)
    returns (total: nat)
    requires IsTallyOf(counts, gs) && order == Keys(gs)
    ensures total == ContextOccurrences(gs, ctx)
  {
    total := SumValuesWhere(order, counts, SameContext(ctx));
    SumOfTally(gs, counts, SameContext(ctx));
  }

  /** One pass of the scan's body: the context total, the support floor and the strict ratio comparison. */
  method Weigh(ghost gs: seq<FourGram>, order: seq<FourGram>, counts: map<FourGram, nat>, pattern: FourGram, best: Best)
    returns (next: Best)
    requires IsTallyOf(counts, gs) && order == Keys(gs) && pattern in gs
    ensures next == Consider(best, gs, pattern)
  {
    var contextTotal := ContextTotal(gs, order, counts, pattern.context);
    next := best;
    if contextTotal >= ContextSupport {
      var ratio := Share(counts[pattern], contextTotal);
      if ratio > best.ratio {
        next := Best(ratio, Some(pattern));
      }
    }
  }

  /** The tally loop and the best-ratio scan of `detect_markov_3` over the 4-grams `gs`. */
  method ScanFourGrams(gs: seq<FourGram>) returns (best: Best)
    ensures best == BestScan(Keys(gs), gs)
  {
    var counts, order := TallyKeys(gs);
    best := ScanTable(gs, order, counts);
  }

  /** The scan `for pattern, count in patterns.items()` over the tallied table. */
  method ScanTable(ghost gs: seq<FourGram>, order: seq<FourGram>, counts: map<FourGram, nat>) returns (best: Best)
    requires IsTallyOf(counts, gs) && order == Keys(gs)
    ensures best == BestScan(order, gs)
  {
    best := Best(0.0, None);
    var i := 0;
    while i < |order|
      invariant 0 <= i <= |order|
      invariant best == BestScan(order[..i], gs)
    {
      BestScanStep(order, i, gs);
      best := Weigh(gs, order, counts, order[i], best);
      i := i + 1;
    }
    assert order[..i] == order;
  }

  /** Scanning one more key is one more `Consider`. */
  lemma {:induction false} BestScanStep(ks: seq<FourGram>, i: nat, gs: seq<FourGram>)
    requires i < |ks|
    ensures BestScan(ks[..i + 1], gs) == Consider(BestScan(ks[..i], gs), gs, ks[i])
  {
    assert ks[..i + 1][..i] == ks[..i];
  }

  /** `detect_markov_3`. */
  method DetectMarkov3(ms: seq<Move>) returns (r: Option<Markov3Report>)
    ensures r == Markov3(ms)
  {
    if |ms| < Markov3MinMoves {
      return None;
    }
    var best := ScanFourGrams(FourGramsOf(ms));
    if best.ratio > 0.6 {
      return Some(Markov3Report(best.pattern.value, best.ratio));
    }
    return None;
  }

  /** The 4-gram table counts `len - 3` windows; the transition table `len - 1`. */
  lemma {:induction false} TableSizes(ms: seq<Move>)
    requires |ms| >= 3
    ensures SumCountsWhere(Keys(FourGramsOf(ms)), TallyOf(FourGramsOf(ms)), Everything()) == |ms| - 3
    ensures SumCountsWhere(Keys(TransitionsOf(ms)), TallyOf(TransitionsOf(ms)), Everything()) == |ms| - 1
  {
    SumOfTally(FourGramsOf(ms), TallyOf(FourGramsOf(ms)), Everything());
    CountWhereAll(FourGramsOf(ms), Everything());
    SumOfTally(TransitionsOf(ms), TallyOf(TransitionsOf(ms)), Everything());
    CountWhereAll(TransitionsOf(ms), Everything());
  }
}
