/**
 * Contiguous time windows: `for i in range(0, n, size): p = s[i:i+size]; if p: periods.append(p)`.
 * The scripts use it with period sizes `max(10, n // 4)`, `max(10, n // 5)` and 10.
 */
module Windows {

  /** Concatenation of the windows, in order. */
  function Flatten<T>(ps: seq<seq<T>>): seq<T> {
    if ps == [] then [] else ps[0] + Flatten(ps[1..])
  }

  /** The windows of `s`: consecutive slices of `size` items, the last one holding the remainder. */
  function Chunks<T>(s: seq<T>, size: nat): (ps: seq<seq<T>>)
    requires size > 0
    decreases |s|
  {
    if |s| == 0 then []
    else if |s| <= size then [s]
    else [s[..size]] + Chunks(s[size..], size)
  }

  /**
   * Every window is non-empty and holds at most `size` items, every window
   * but the last holds exactly `size`, and the windows concatenate back to `s`.
   */
  lemma {:induction false} ChunksPartition<T>(s: seq<T>, size: nat)
    requires size > 0
    ensures Flatten(Chunks(s, size)) == s
    ensures forall i :: 0 <= i < |Chunks(s, size)| ==> 0 < |Chunks(s, size)[i]| <= size
    ensures forall i :: 0 <= i < |Chunks(s, size)| - 1 ==> |Chunks(s, size)[i]| == size
    decreases |s|
  {
    if |s| > size {
      var rest := Chunks(s[size..], size);
      ChunksPartition(s[size..], size);
      var ps := [s[..size]] + rest;
      assert Chunks(s, size) == ps;
      assert ps[1..] == rest;
      assert s == s[..size] + s[size..];
      forall i | 1 <= i < |ps| ensures ps[i] == rest[i - 1] { }
    } else if |s| > 0 {
      assert Chunks(s, size) == [s];
      assert Flatten([s]) == s + Flatten([]);
    }
  }

  /** The number of windows is the ceiling of `|s| / size`; more than one window whenever `s` is longer than `size`. */
  lemma {:induction false} ChunksCount<T>(s: seq<T>, size: nat)
    requires size > 0
    ensures |Chunks(s, size)| * size >= |s|
    ensures |s| > 0 ==> (|Chunks(s, size)| - 1) * size < |s|
    ensures |s| > size ==> |Chunks(s, size)| >= 2
    decreases |s|
  {
    if |s| > size {
      ChunksCount(s[size..], size);
      var k := |Chunks(s[size..], size)|;
      assert |Chunks(s, size)| == k + 1;
      assert (k + 1) * size == k * size + size;
    }
  }

  /** The `n`-item slices at each position, `[s[i:i+n] for i in range(len(s) - n + 1)]`: the n-grams of `s`. */
  function Grams<T>(s: seq<T>, n: nat): (gs: seq<seq<T>>)
    ensures |gs| == if |s| >= n then |s| - n + 1 else 0
    decreases |s|
  {
    if |s| < n then []
    else if |s| == n then [s]
    else Grams(s[..|s| - 1], n) + [s[|s| - n..]]
  }

  /** The `j`-th n-gram is the slice at position `j`. */
  lemma {:induction false} GramAt<T>(s: seq<T>, n: nat, j: nat)
    requires j + n <= |s|
    ensures Grams(s, n)[j] == s[j..j + n]
    decreases |s|
  {
    if |s| == n {
      assert Grams(s, n) == [s] && s[j..j + n] == s;
    } else {
      var p := s[..|s| - 1];
      var gp := Grams(p, n);
      if j + n < |s| {
        calc {
          Grams(s, n)[j];
          (gp + [s[|s| - n..]])[j];
          gp[j];
          { GramAt(p, n, j); }
          p[j..j + n];
          s[j..j + n];
        }
      } else {
        calc {
          Grams(s, n)[j];
          (gp + [s[|s| - n..]])[|gp|];
          s[j..j + n];
        }
      }
    }
  }

  /** Every n-gram holds `n` items. */
  lemma {:induction false} GramsLength<T>(s: seq<T>, n: nat)
    ensures forall g :: g in Grams(s, n) ==> |g| == n
  {
    forall g | g in Grams(s, n) ensures |g| == n {
      var j :| 0 <= j < |Grams(s, n)| && Grams(s, n)[j] == g;
      GramAt(s, n, j);
    }
  }

  /** One more item adds the n-gram that ends with it. */
  lemma {:induction false} GramsStep<T>(s: seq<T>, i: nat, n: nat)
    requires n <= i + 1 <= |s|
    ensures Grams(s[..i + 1], n) == Grams(s[..i], n) + [s[i + 1 - n..i + 1]]
  {
    var p := s[..i + 1];
    assert p[..|p| - 1] == s[..i];
    assert p[|p| - n..] == s[i + 1 - n..i + 1];
    if i + 1 == n {
      assert p == s[i + 1 - n..i + 1];
    }
  }

  /** The period-splitting loop. */
  method SplitPeriods<T>(s: seq<T>, size: nat) returns (ps: seq<seq<T>>)
    requires size > 0
    ensures ps == Chunks(s, size)
  {
    ps := [];
    var i := 0;
    while i < |s|
      invariant 0 <= i <= |s|
      invariant ps + Chunks(s[i..], size) == Chunks(s, size)
    {
      var j := if i + size < |s| then i + size else |s|;
      var rest := Chunks(s[j..], size);
      if j < |s| {
        assert s[i..][..size] == s[i..j] && s[i..][size..] == s[j..];
      } else {
        assert s[i..] == s[i..j] && s[j..] == [];
      }
      assert Chunks(s[i..], size) == [s[i..j]] + rest;
      assert (ps + [s[i..j]]) + rest == ps + ([s[i..j]] + rest);
      ps := ps + [s[i..j]];
      i := j;
    }
    assert s[i..] == [];
  }
}
