/**
 * Counting with Python dictionaries. The scripts fill a `defaultdict(int)` (or a
 * plain dict with `.get(key, 0) + 1`) in a loop and then read it back with
 * `max(d.items(), key=...)` or `sorted(d.items(), key=..., reverse=True)`.
 * A dict iterates in insertion order, so its keys are the distinct keys in
 * the order they were first seen; `max` keeps the first maximal item, and
 * `sorted` is stable. This module states those three facts once.
 */
module Tally {

  /** Number of occurrences of `k` in `s`. */
  function CountOf<K(==,!new)>(s: seq<K>, k: K): (n: nat)
    ensures n <= |s|
    ensures n > 0 <==> k in s
  {
    if s == [] then 0
    else CountOf(s[..|s| - 1], k) + (if s[|s| - 1] == k then 1 else 0)
  }

  lemma {:induction false} CountOfAppend<K(!new)>(a: seq<K>, b: seq<K>, k: K)
    ensures CountOf(a + b, k) == CountOf(a, k) + CountOf(b, k)
    decreases |b|
  {
    if b != [] {
      assert (a + b)[..|a + b| - 1] == a + b[..|b| - 1];
      CountOfAppend(a, b[..|b| - 1], k);
    } else {
      assert a + b == a;
    }
  }

  /** One more item adds one to its own count and leaves the others alone. */
  lemma {:induction false} CountOfSnoc<K(!new)>(s: seq<K>, x: K, k: K)
    ensures CountOf(s + [x], k) == CountOf(s, k) + (if x == k then 1 else 0)
  {
    assert (s + [x])[..|s|] == s;
  }

  /** Distinct elements of `s` in the order of their first occurrence: the key order of a dict filled from `s`. */
  function Keys<K(==,!new)>(s: seq<K>): (ks: seq<K>)
    ensures forall k :: k in ks <==> k in s
  {
    if s == [] then []
    else
      var ks := Keys(s[..|s| - 1]);
      assert forall k :: k in s <==> k in s[..|s| - 1] || k == s[|s| - 1];
      if s[|s| - 1] in ks then ks else ks + [s[|s| - 1]]
  }

  /** No key is listed twice. */
  lemma {:induction false} KeysDistinct<K(!new)>(s: seq<K>)
    ensures forall i, j :: 0 <= i < j < |Keys(s)| ==> Keys(s)[i] != Keys(s)[j]
    decreases |s|
  {
    if s != [] {
      KeysDistinct(s[..|s| - 1]);
    }
  }

  /** Position of the first occurrence of `k` in `s`. */
  function FirstIndex<K(==,!new)>(s: seq<K>, k: K): (i: nat)
    requires k in s
    ensures i < |s| && s[i] == k
    ensures forall j :: 0 <= j < i ==> s[j] != k
  {
    if s[0] == k then 0 else 1 + FirstIndex(s[1..], k)
  }

  /** A key met within the first `n` items is first met at the same position in `s`. */
  lemma {:induction false} FirstIndexOfPrefix<K(!new)>(s: seq<K>, n: nat, k: K)
    requires n <= |s| && k in s[..n]
    ensures k in s && FirstIndex(s, k) == FirstIndex(s[..n], k)
  {
    var i := FirstIndex(s[..n], k);
    assert s[..n][i] == s[i];
  }

  /** A dict filled from `s` lists its keys in order of first occurrence in `s`. */
  lemma {:induction false} KeysInFirstSeenOrder<K(!new)>(s: seq<K>, i: nat, j: nat)
    requires i < j < |Keys(s)|
    ensures FirstIndex(s, Keys(s)[i]) < FirstIndex(s, Keys(s)[j])
    decreases |s|
  {
    var p := s[..|s| - 1];
    var ks := Keys(p);
    var x := s[|s| - 1];
    assert s == p + [x];
    if x in ks {
      assert Keys(s) == ks;
      KeysInFirstSeenOrder(p, i, j);
      FirstIndexOfPrefix(s, |p|, ks[i]);
      FirstIndexOfPrefix(s, |p|, ks[j]);
    } else {
      assert Keys(s) == ks + [x];
      FirstIndexOfPrefix(s, |p|, ks[i]);
      if j < |ks| {
        KeysInFirstSeenOrder(p, i, j);
        FirstIndexOfPrefix(s, |p|, ks[j]);
      } else {
        assert Keys(s)[j] == x && x !in p;
        assert FirstIndex(s, x) == |p|;
      }
    }
  }

  /**
   * Sum of `counts[k]` over the keys `ks` that `keep` selects, reading 0 for
   * a missing key (a defaultdict): `sum(c for k, c in d.items() if keep(k))`.
   */
  function SumCountsWhere<K(==,!new)>(ks: seq<K>, counts: map<K, nat>, keep: K -> bool): nat {
    if ks == [] then 0
    else
      var k := ks[|ks| - 1];
      SumCountsWhere(ks[..|ks| - 1], counts, keep) + (if keep(k) && k in counts then counts[k] else 0)
  }

  /** Number of items of `s` that `keep` selects. */
  function CountWhere<K>(s: seq<K>, keep: K -> bool): (n: nat)
    ensures n <= |s|
  {
    if s == [] then 0 else CountWhere(s[..|s| - 1], keep) + (if keep(s[|s| - 1]) then 1 else 0)
  }

  /** The loop `for k in ks: total += counts[k]` restricted to the keys `keep` selects. */
  method SumValuesWhere<K(==,!new)>(ks: seq<K>, counts: map<K, nat>, keep: K -> bool) returns (total: nat)
    ensures total == SumCountsWhere(ks, counts, keep)
  {
    total := 0;
    var i := 0;
    while i < |ks|
      invariant 0 <= i <= |ks|
      invariant total == SumCountsWhere(ks[..i], counts, keep)
    {
      assert ks[..i + 1][..i] == ks[..i];
      var k := ks[i];
      if keep(k) && k in counts {
        total := total + counts[k];
      }
      i := i + 1;
    }
    assert ks[..i] == ks;
  }

  /** The dict that `TallyKeys` builds from `s`. */
  ghost predicate IsTallyOf<K(!new)>(counts: map<K, nat>, s: seq<K>) {
    (forall k :: k in counts <==> k in s) &&
    (forall k :: k in counts ==> counts[k] == CountOf(s, k))
  }

  /** The tally as a value: each item of `s` mapped to its number of occurrences. */
  function TallyOf<K(==,!new)>(s: seq<K>): (counts: map<K, nat>)
    ensures IsTallyOf(counts, s)
  {
    map k | k in s :: CountOf(s, k)
  }

  /**
   * The dict-filling loop `for x in s: d[x] += 1` on a defaultdict. `order`
   * is the dict's key order.
   */
  method TallyKeys<K(==,!new)>(s: seq<K>) returns (counts: map<K, nat>, order: seq<K>)
    ensures IsTallyOf(counts, s)
    ensures order == Keys(s)
  {
    counts, order := map[], [];
    var i := 0;
    while i < |s|
      invariant 0 <= i <= |s|
      invariant IsTallyOf(counts, s[..i])
      invariant order == Keys(s[..i])
    {
      assert s[..i + 1] == s[..i] + [s[i]];
      counts, order := Increment(counts, order, s[..i], s[i]);
      i := i + 1;
    }
    assert s[..i] == s;
  }

  /** `d[x] += 1` on a defaultdict tallied from `s`, whose key order is `order`. */
  method Increment<K(==,!new)>(counts: map<K, nat>, order: seq<K>, ghost s: seq<K>, x: K)
    returns (counts': map<K, nat>, order': seq<K>)
    requires IsTallyOf(counts, s) && order == Keys(s)
    ensures IsTallyOf(counts', s + [x]) && order' == Keys(s + [x])
  {
    TallySnoc(counts, s, x);
    if x in counts {
      counts', order' := counts[x := counts[x] + 1], order;
    } else {
      counts', order' := counts[x := 1], order + [x];
    }
  }

  /** One more item adds one to its own count, or enters it with count 1 and appends it to the key order. */
  lemma {:induction false} TallySnoc<K(!new)>(counts: map<K, nat>, s: seq<K>, x: K)
    requires IsTallyOf(counts, s)
    ensures IsTallyOf(counts[x := if x in counts then counts[x] + 1 else 1], s + [x])
    ensures Keys(s + [x]) == if x in counts then Keys(s) else Keys(s) + [x]
  {
    var t := s + [x];
    assert t[..|t| - 1] == s;
    var c := counts[x := if x in counts then counts[x] + 1 else 1];
    forall k | k in c
      ensures c[k] == CountOf(t, k)
    {
    }
    assert forall k :: k in t <==> k in s || k == x;
  }

  /**
   * Counts over the distinct keys that `keep` selects add up to the number
   * of tallied items that `keep` selects; with `keep` always true, to `|s|`.
   */
  lemma {:induction false} SumOfTally<K(!new)>(s: seq<K>, counts: map<K, nat>, keep: K -> bool)
    requires IsTallyOf(counts, s)
    ensures SumCountsWhere(Keys(s), counts, keep) == CountWhere(s, keep)
  {
    SumOverKeys(s, Keys(s), counts, keep);
  }

  /** Sum over the first-seen keys of a prefix-closed tally, by induction on `s`. */
  lemma {:induction false} SumOverKeys<K(!new)>(s: seq<K>, ks: seq<K>, counts: map<K, nat>, keep: K -> bool)
    requires ks == Keys(s)
    requires forall k :: k in counts ==> counts[k] == CountOf(s, k)
    requires forall k :: k in s ==> k in counts
    ensures SumCountsWhere(ks, counts, keep) == CountWhere(s, keep)
    decreases |s|
  {
    if s != [] {
      var p := s[..|s| - 1];
      var x := s[|s| - 1];
      assert s == p + [x];
      var pc := map k | k in counts && k in p :: CountOf(p, k);
      assert forall k :: k in s ==> CountOf(s, k) == CountOf(p, k) + (if k == x then 1 else 0);
      SumOverKeys(p, Keys(p), pc, keep);
      KeysDistinct(p);
      SumCountsAfterAdd(Keys(p), pc, counts, x, keep);
    }
  }

  /** Adding one occurrence of `x` adds one to the sum over the keys when `keep` selects `x`. */
  lemma {:induction false} SumCountsAfterAdd<K(!new)>(ks: seq<K>, pc: map<K, nat>, counts: map<K, nat>, x: K, keep: K -> bool)
    requires forall i, j :: 0 <= i < j < |ks| ==> ks[i] != ks[j]
    requires forall k :: k in ks ==> k in pc && k in counts
    requires forall k :: k in ks && k != x ==> counts[k] == pc[k]
    requires x in ks ==> counts[x] == pc[x] + 1
    requires x !in ks ==> x in counts && counts[x] == 1
    ensures SumCountsWhere(if x in ks then ks else ks + [x], counts, keep)
            == SumCountsWhere(ks, pc, keep) + (if keep(x) then 1 else 0)
    decreases |ks|
  {
    if x in ks {
      var p := ks[..|ks| - 1];
      var y := ks[|ks| - 1];
      if y == x {
        assert x !in p;
        SumCountsSame(p, pc, counts, keep);
      } else {
        assert x in p;
        SumCountsAfterAdd(p, pc, counts, x, keep);
      }
    } else {
      assert (ks + [x])[..|ks|] == ks;
      SumCountsSame(ks, pc, counts, keep);
    }
  }

  lemma {:induction false} SumCountsSame<K(!new)>(ks: seq<K>, a: map<K, nat>, b: map<K, nat>, keep: K -> bool)
    requires forall k :: k in ks ==> k in a && k in b && a[k] == b[k]
    ensures SumCountsWhere(ks, a, keep) == SumCountsWhere(ks, b, keep)
    decreases |ks|
  {
    if ks != [] {
      SumCountsSame(ks[..|ks| - 1], a, b, keep);
    }
  }

  /** Counting with a filter that selects everything counts every item. */
  lemma {:induction false} CountWhereAll<K>(s: seq<K>, keep: K -> bool)
    requires forall k :: keep(k)
    ensures CountWhere(s, keep) == |s|
    decreases |s|
  {
    if s != [] {
      CountWhereAll(s[..|s| - 1], keep);
    }
  }

  /** A selected key's count is part of the sum over the selected keys. */
  lemma {:induction false} SumCountsWhereCovers<K(!new)>(ks: seq<K>, counts: map<K, nat>, keep: K -> bool, k: K)
    requires k in ks && k in counts && keep(k)
    ensures counts[k] <= SumCountsWhere(ks, counts, keep)
    decreases |ks|
  {
    if ks[|ks| - 1] != k {
      SumCountsWhereCovers(ks[..|ks| - 1], counts, keep, k);
    }
  }

  /**
   * Index of the first maximal value: what `max(items, key=...)` returns,
   * since it replaces its candidate only on a strictly larger key.
   */
  function ArgMaxFirst(v: seq<int>): (i: nat)
    requires |v| > 0
    ensures i < |v|
    ensures forall j :: 0 <= j < |v| ==> v[j] <= v[i]
    ensures forall j :: 0 <= j < i ==> v[j] < v[i]
  {
    if |v| == 1 then 0
    else
      var b := ArgMaxFirst(v[..|v| - 1]);
      if v[|v| - 1] > v[b] then |v| - 1 else b
  }

  /** Scanning one more value moves the first maximum only to a strictly larger value. */
  lemma {:induction false} ArgMaxFirstStep(v: seq<int>, i: nat)
    requires 1 <= i < |v|
    ensures var b := ArgMaxFirst(v[..i]);
            ArgMaxFirst(v[..i + 1]) == if v[i] > v[b] then i else b
  {
    assert v[..i + 1][..i] == v[..i];
  }

  /** The counts of the keys `ks` in `s`, in key order: the dict's `values()`. */
  function CountsOfKeys<K(==,!new)>(s: seq<K>, ks: seq<K>): (v: seq<int>)
    ensures |v| == |ks|
    ensures forall j :: 0 <= j < |ks| ==> v[j] == CountOf(s, ks[j])
  {
    seq(|ks|, j requires 0 <= j < |ks| => CountOf(s, ks[j]) as int)
  }

  /**
   * `max(d.items(), key=lambda x: x[1])[0]` on a dict tallied from `s`: the
   * most frequent key, the first seen among equally frequent keys.
   */
  function MostFrequent<K(==,!new)>(s: seq<K>): (k: K)
    requires |s| > 0
    ensures k in s
    ensures forall m :: m in s ==> CountOf(s, m) <= CountOf(s, k)
  {
    var ks := Keys(s);
    var v := CountsOfKeys(s, ks);
    assert s[0] in ks;
    var i := ArgMaxFirst(v);
    forall m | m in s ensures CountOf(s, m) <= CountOf(s, ks[i]) {
      assert m in ks;
      var j :| 0 <= j < |ks| && ks[j] == m;
      assert v[j] <= v[i];
    }
    ks[i]
  }

  /** Ties for the most frequent key go to the key seen first. */
  lemma {:induction false} MostFrequentTieBreak<K(!new)>(s: seq<K>, m: K)
    requires |s| > 0 && m in s && CountOf(s, m) == CountOf(s, MostFrequent(s))
    ensures FirstIndex(s, MostFrequent(s)) <= FirstIndex(s, m)
  {
    var ks := Keys(s);
    var v := CountsOfKeys(s, ks);
    var i := ArgMaxFirst(v);
    var k := MostFrequent(s);
    assert k == ks[i];
    assert m in ks;
    var j :| 0 <= j < |ks| && ks[j] == m;
    assert v[j] == CountOf(s, m);
    assert v[i] == CountOf(s, k);
    if j < i {
      assert false;
    } else if i < j {
      KeysInFirstSeenOrder(s, i, j);
    }
  }

  /** The `j`-th key of a tallied dict is in it, with its count in `s`. */
  lemma {:induction false} TalliedCountAt<K(!new)>(s: seq<K>, order: seq<K>, counts: map<K, nat>, j: nat)
    requires IsTallyOf(counts, s) && order == Keys(s) && j < |order|
    ensures order[j] in counts && counts[order[j]] == CountsOfKeys(s, order)[j]
  {
    assert order[j] in s;
  }

  /**
   * The scan that `max(d.items(), key=lambda x: x[1])` performs over a dict
   * tallied from `s`: it replaces its candidate only on a strictly larger count.
   */
  method MostFrequentScan<K(==,!new)>(ghost s: seq<K>, order: seq<K>, counts: map<K, nat>) returns (best: K)
    requires |s| > 0 && IsTallyOf(counts, s) && order == Keys(s)
    ensures best == MostFrequent(s)
  {
    ghost var v := CountsOfKeys(s, order);
    assert s[0] in order;
    var b := 0;
    var i := 1;
    while i < |order|
      invariant 1 <= i <= |order|
      invariant b < i && b == ArgMaxFirst(v[..i])
    {
      ArgMaxFirstStep(v, i);
      TalliedCountAt(s, order, counts, i);
      TalliedCountAt(s, order, counts, b);
      if counts[order[i]] > counts[order[b]] {
        b := i;
      }
      i := i + 1;
    }
    assert v[..i] == v;
    best := order[b];
  }

  /** `sorted(items, key=c, reverse=True)` inserts after every item with an equal or larger key: it is stable. */
  function InsertDesc<T>(x: T, s: seq<T>, c: T -> int): (r: seq<T>)
    ensures multiset(r) == multiset(s) + multiset{x}
    ensures |r| == |s| + 1
  {
    if s == [] then [x]
    else if c(s[0]) >= c(x) then
      assert s == [s[0]] + s[1..];
      [s[0]] + InsertDesc(x, s[1..], c)
    else [x] + s
  }

  ghost predicate SortedDesc<T>(s: seq<T>, c: T -> int) {
    forall i, j :: 0 <= i < j < |s| ==> c(s[i]) >= c(s[j])
  }

  lemma {:induction false} InsertDescSorted<T>(x: T, s: seq<T>, c: T -> int)
    requires SortedDesc(s, c)
    ensures SortedDesc(InsertDesc(x, s, c), c)
    decreases |s|
  {
    if s != [] && c(s[0]) >= c(x) {
      var t := s[1..];
      InsertDescSorted(x, t, c);
      var r := InsertDesc(x, t, c);
      forall i | 0 <= i < |r| ensures c(s[0]) >= c(r[i]) {
        var y := r[i];
        assert y in multiset(r);
        if y != x {
          assert y in multiset(t);
          var j :| 0 <= j < |t| && t[j] == y;
          assert y == s[j + 1];
        }
      }
    }
  }

  /** Python's stable `sorted(s, key=c, reverse=True)`. */
  function SortDesc<T>(s: seq<T>, c: T -> int): (r: seq<T>)
    ensures multiset(r) == multiset(s)
    ensures |r| == |s|
  {
    if s == [] then []
    else
      assert s == s[..|s| - 1] + [s[|s| - 1]];
      InsertDesc(s[|s| - 1], SortDesc(s[..|s| - 1], c), c)
  }

  /** The items of `s` whose key is `k`, in their order in `s`. */
  function WithKey<T>(s: seq<T>, c: T -> int, k: int): (r: seq<T>)
    ensures |r| <= |s|
  {
    if s == [] then [] else Keyed(s[0], c, k) + WithKey(s[1..], c, k)
  }

  /** `[x]` when `x` has key `k`, otherwise nothing. */
  function Keyed<T>(x: T, c: T -> int, k: int): seq<T> {
    if c(x) == k then [x] else []
  }

  lemma {:induction false} WithKeyAppend<T>(a: seq<T>, b: seq<T>, c: T -> int, k: int)
    ensures WithKey(a + b, c, k) == WithKey(a, c, k) + WithKey(b, c, k)
    decreases |a|
  {
    if a == [] {
      assert a + b == b;
    } else {
      assert (a + b)[0] == a[0] && (a + b)[1..] == a[1..] + b;
      WithKeyAppend(a[1..], b, c, k);
      calc {
        WithKey(a + b, c, k);
        Keyed(a[0], c, k) + WithKey(a[1..] + b, c, k);
        Keyed(a[0], c, k) + (WithKey(a[1..], c, k) + WithKey(b, c, k));
        (Keyed(a[0], c, k) + WithKey(a[1..], c, k)) + WithKey(b, c, k);
        WithKey(a, c, k) + WithKey(b, c, k);
      }
    }
  }

  lemma WithKeySingle<T>(x: T, c: T -> int, k: int)
    ensures WithKey([x], c, k) == Keyed(x, c, k)
  {
    assert [x][0] == x && [x][1..] == [];
  }

  lemma {:induction false} WithKeyBelow<T>(s: seq<T>, c: T -> int, k: int)
    requires forall i :: 0 <= i < |s| ==> c(s[i]) < k
    ensures WithKey(s, c, k) == []
    decreases |s|
  {
    if s != [] {
      WithKeyBelow(s[1..], c, k);
    }
  }

  lemma SortedDescTail<T>(s: seq<T>, c: T -> int)
    requires SortedDesc(s, c) && s != []
    ensures SortedDesc(s[1..], c)
    ensures forall i :: 0 <= i < |s| ==> c(s[i]) <= c(s[0])
  {
    forall i, j | 0 <= i < j < |s[1..]| ensures c(s[1..][i]) >= c(s[1..][j]) {
      assert s[1..][i] == s[i + 1] && s[1..][j] == s[j + 1];
    }
  }

  /** Inserting into a sorted list puts the new item after every item with its key. */
  lemma {:induction false} InsertDescStable<T>(x: T, s: seq<T>, c: T -> int, k: int)
    requires SortedDesc(s, c)
    ensures WithKey(InsertDesc(x, s, c), c, k) == WithKey(s, c, k) + Keyed(x, c, k)
    decreases |s|
  {
    if s == [] {
      WithKeySingle(x, c, k);
    } else if c(s[0]) >= c(x) {
      SortedDescTail(s, c);
      InsertDescStable(x, s[1..], c, k);
      InsertDescHead(x, s, c);
      WithKeyCons(s[0], InsertDesc(x, s[1..], c), c, k);
      WithKeyCons(s[0], s[1..], c, k);
      assert [s[0]] + s[1..] == s;
      AppendAssoc(Keyed(s[0], c, k), WithKey(s[1..], c, k), Keyed(x, c, k));
    } else {
      InsertDescHead(x, s, c);
      WithKeyCons(x, s, c, k);
      if c(x) == k {
        WithKeyBelowFirst(x, s, c, k);
      }
    }
  }

  lemma WithKeyCons<T>(x: T, s: seq<T>, c: T -> int, k: int)
    ensures WithKey([x] + s, c, k) == Keyed(x, c, k) + WithKey(s, c, k)
  {
    assert ([x] + s)[0] == x && ([x] + s)[1..] == s;
  }

  lemma AppendAssoc<T>(a: seq<T>, b: seq<T>, d: seq<T>)
    ensures a + (b + d) == (a + b) + d
  {
  }

  /** Nothing in a sorted list whose first key is below `c(x)` has key `c(x)`. */
  lemma WithKeyBelowFirst<T>(x: T, s: seq<T>, c: T -> int, k: int)
    requires SortedDesc(s, c) && s != [] && c(s[0]) < c(x) == k
    ensures WithKey(s, c, k) == []
  {
    SortedDescTail(s, c);
    WithKeyBelow(s, c, k);
  }

  /** The first step of `InsertDesc` on a non-empty list. */
  lemma InsertDescHead<T>(x: T, s: seq<T>, c: T -> int)
    requires s != []
    ensures c(s[0]) >= c(x) ==> InsertDesc(x, s, c) == [s[0]] + InsertDesc(x, s[1..], c)
    ensures c(s[0]) < c(x) ==> InsertDesc(x, s, c) == [x] + s
  {
  }

  /**
   * `SortDesc` is stable: the items with any one key keep their relative
   * order, which with `SortDescSorted` and the multiset ensures fixes the
   * result completely.
   */
  lemma {:induction false} SortDescStable<T>(s: seq<T>, c: T -> int, k: int)
    ensures WithKey(SortDesc(s, c), c, k) == WithKey(s, c, k)
    decreases |s|
  {
    if s != [] {
      var init, x := s[..|s| - 1], s[|s| - 1];
      SortDescStable(init, c, k);
      SortDescSorted(init, c);
      InsertDescStable(x, SortDesc(init, c), c, k);
      SortDescLast(s, c);
      WithKeySnoc(s, c, k);
    }
  }

  /** The last step of `SortDesc` on a non-empty list. */
  lemma SortDescLast<T>(s: seq<T>, c: T -> int)
    requires s != []
    ensures SortDesc(s, c) == InsertDesc(s[|s| - 1], SortDesc(s[..|s| - 1], c), c)
  {
  }

  lemma WithKeySnoc<T>(s: seq<T>, c: T -> int, k: int)
    requires s != []
    ensures WithKey(s, c, k) == WithKey(s[..|s| - 1], c, k) + Keyed(s[|s| - 1], c, k)
  {
    assert s == s[..|s| - 1] + [s[|s| - 1]];
    WithKeyAppend(s[..|s| - 1], [s[|s| - 1]], c, k);
    WithKeySingle(s[|s| - 1], c, k);
  }


  /** `SortDesc` orders by non-increasing key. */
  lemma {:induction false} SortDescSorted<T>(s: seq<T>, c: T -> int)
    ensures SortedDesc(SortDesc(s, c), c)
    decreases |s|
  {
    if s != [] {
      SortDescSorted(s[..|s| - 1], c);
      InsertDescSorted(s[|s| - 1], SortDesc(s[..|s| - 1], c), c);
    }
  }
}
