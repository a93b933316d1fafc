/**
 * Groups of records: flattening, the reference split into groups of a fixed size,
 * and the arithmetic of the buffer-size boundary.
 */
module Batching {

  function Flatten<T>(gs: seq<seq<T>>): seq<T> {
    if gs == [] then [] else gs[0] + Flatten(gs[1..])
  }

  /** Every group holds exactly `b` elements. */
  ghost predicate AllOfSize<T>(gs: seq<seq<T>>, b: nat) {
    forall i :: 0 <= i < |gs| ==> |gs[i]| == b
  }

  /** The reference split of `s` into consecutive groups of `b`, the last one possibly shorter. */
  function Chunks<T>(s: seq<T>, b: nat): seq<seq<T>>
    requires b > 0
    decreases |s|
  {
    if |s| <= b then (if s == [] then [] else [s]) else [s[..b]] + Chunks(s[b..], b)
  }

  lemma {:induction false} FlattenSnoc<T>(gs: seq<seq<T>>, g: seq<T>)
    ensures Flatten(gs + [g]) == Flatten(gs) + g
  {
    if gs == [] {
      assert Flatten([g]) == g + Flatten([]);
    } else {
      assert (gs + [g])[1..] == gs[1..] + [g];
      FlattenSnoc(gs[1..], g);
    }
  }

  /** Full groups of `b` followed by a shorter remainder are exactly the reference split. */
  lemma {:induction false} DecompositionIsChunks<T>(gs: seq<seq<T>>, rest: seq<T>, s: seq<T>, b: nat)
    requires b > 0 && AllOfSize(gs, b) && |rest| < b && Flatten(gs) + rest == s
    ensures Chunks(s, b) == gs + (if rest == [] then [] else [rest])
    decreases |gs|
  {
    if gs == [] {
      assert s == rest;
    } else {
      var tail := Flatten(gs[1..]) + rest;
      assert s == gs[0] + tail;
      if tail == [] {
        assert |gs| == 1 && gs[0] == s;
      } else {
        assert s[..b] == gs[0] && s[b..] == tail;
        DecompositionIsChunks(gs[1..], rest, tail, b);
      }
    }
  }

  /** The reference split is a partition of `s` in order, with all but the last group full. */
  lemma {:induction false} ChunksShape<T>(s: seq<T>, b: nat)
    requires b > 0
    ensures Flatten(Chunks(s, b)) == s
    ensures forall i :: 0 <= i < |Chunks(s, b)| - 1 ==> |Chunks(s, b)[i]| == b
    ensures Chunks(s, b) != [] ==> 0 < |Chunks(s, b)[|Chunks(s, b)| - 1]| <= b
    decreases |s|
  {
    if |s| <= b {
      if s != [] {
        assert Flatten([s]) == s + Flatten([]);
      }
    } else {
      ChunksShape(s[b..], b);
      var cs := Chunks(s, b);
      assert cs == [s[..b]] + Chunks(s[b..], b);
      assert cs[1..] == Chunks(s[b..], b);
      assert s == s[..b] + s[b..];
    }
  }

  /** The reference split of `n` elements has `n / b` full groups, plus one if `n % b > 0`. */
  lemma {:induction false} ChunksCount<T>(s: seq<T>, b: nat)
    requires b > 0
    ensures |Chunks(s, b)| == |s| / b + (if |s| % b > 0 then 1 else 0)
    decreases |s|
  {
    var n := |s|;
    if n == b {
      DivModUnique(n, b, 1, 0);
    } else if n < b {
      DivModUnique(n, b, 0, n);
    } else {
      ChunksCount(s[b..], b);
      var m := n - b;
      assert m == b * (m / b) + m % b;
      assert b * (m / b + 1) == b * (m / b) + b;
      DivModUnique(n, b, m / b + 1, m % b);
    }
  }

  lemma {:induction false} MulAtLeast(b: int, d: int)
    requires b > 0 && d >= 1
    ensures b * d >= b
  {
    if d > 1 {
      MulAtLeast(b, d - 1);
      assert b * d == b * (d - 1) + b;
    }
  }

  /** Euclidean division is determined by `n == b * k + r` with `0 <= r < b`. */
  lemma DivModUnique(n: int, b: int, k: int, r: int)
    requires b > 0 && 0 <= r < b && n == b * k + r
    ensures n / b == k && n % b == r
  {
    var q, m := n / b, n % b;
    assert n == b * q + m;
    if q > k {
      assert b * (q - k) == b * q - b * k;
      MulAtLeast(b, q - k);
    } else if q < k {
      assert b * (k - q) == b * k - b * q;
      MulAtLeast(b, k - q);
    }
  }

  /**
   * The flush test `count % b == 0` on a counter that never exceeds the buffer size
   * fires exactly when the counter has reached it.
   */
  lemma ModuloBoundary(count: int, b: int)
    requires 0 < count <= b
    ensures count % b == 0 <==> count == b
  {
  }
}
