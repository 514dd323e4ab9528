/**
 * The draws that `GlobalRng` and `EntityRng` build from the engine, as pure
 * functions from an engine state to a result and the successor state. The
 * methods of both generators are specified by these functions.
 */
module Draws {
  import opened Wrappers
  import opened Words
  import opened StdRng
  import opened SeedMix

  /**
   * `choose_index(slice)` for a slice of length `len`: `None`, and no draw at all,
   * for an empty slice; otherwise `random_range(0..len)`.
   */
  function ChooseIndex<S(!new)>(e: Engine<S>, s: S, len: nat): (r: (Option<int>, S))
    requires e.Valid()
    ensures r.0.None? <==> len == 0
    ensures len == 0 ==> r.1 == s
    ensures r.0.Some? ==> 0 <= r.0.value < len
  {
    if len == 0 then (None, s)
    else
      var (i, s') := e.sampleRange(s, HalfOpen(0, len));
      (Some(i), s')
  }

  /**
   * `choose(slice)`: `None`, and no draw, for an empty slice; otherwise the
   * element at a `random_range(0..len)` index. It is `choose_index` followed by
   * indexing, and what it returns is an element of the slice.
   */
  function Choose<S(!new), T>(e: Engine<S>, s: S, slice: seq<T>): (r: (Option<T>, S))
    requires e.Valid()
    ensures r.0.None? <==> |slice| == 0
    ensures r.0.Some? ==> r.0.value in slice
    ensures r.1 == ChooseIndex(e, s, |slice|).1
    ensures ChooseIndex(e, s, |slice|).0.Some? ==>
              r.0 == Some(slice[ChooseIndex(e, s, |slice|).0.value])
  {
    if |slice| == 0 then (None, s)
    else
      var (idx, s') := e.sampleRange(s, HalfOpen(0, |slice|));
      (Some(slice[idx]), s')
  }

  /**
   * `chance(probability)`: one `f64` draw `u`, and the answer `u < probability`.
   * Since `0 <= u < 1`, a probability of 0 or less never succeeds and one of 1
   * or more always does.
   */
  function Chance<S(!new)>(e: Engine<S>, s: S, probability: real): (r: (bool, S))
    requires e.Valid()
    ensures probability <= 0.0 ==> !r.0
    ensures probability >= 1.0 ==> r.0
    ensures r.1 == e.nextF64(s).1
  {
    var (u, s') := e.nextF64(s);
    (u < probability, s')
  }

  /**
   * `fork()`: one `u64` draw from the parent, and a fresh engine seeded with the
   * drawn word. The result is the pair (child, parent's next state).
   */
  function Fork<S(!new)>(e: Engine<S>, s: S): (r: (S, S))
    ensures r.1 == e.nextU64(s).1
    ensures r.0 == e.seedFromU64(e.nextU64(s).0)
  {
    var (childSeed, next) := e.nextU64(s);
    (e.seedFromU64(childSeed), next)
  }

  /**
   * `fork_stream(stream)`: the same one `u64` draw, but the child is seeded with
   * the drawn word plus the stream id (`wrapping_add`). Stream 0 is `fork` itself.
   */
  function ForkStream<S(!new)>(e: Engine<S>, s: S, stream: U32): (r: (S, S))
    ensures r.0 == e.seedFromU64(StreamSeed(e.nextU64(s).0, stream))
    ensures r.1 == Fork(e, s).1
    ensures stream == 0 ==> r == Fork(e, s)
  {
    var (base, next) := e.nextU64(s);
    (e.seedFromU64(StreamSeed(base, stream)), next)
  }

  /**
   * Two `fork_stream` calls at the same parent state seed their children with the
   * same word exactly when their stream ids are equal.
   */
  lemma ForkStreamSeedsDistinct<S(!new)>(e: Engine<S>, s: S, k1: U32, k2: U32)
    ensures ForkStream(e, s, k1).0 == e.seedFromU64(StreamSeed(e.nextU64(s).0, k1))
    ensures ForkStream(e, s, k2).0 == e.seedFromU64(StreamSeed(e.nextU64(s).0, k2))
    ensures StreamSeed(e.nextU64(s).0, k1) == StreamSeed(e.nextU64(s).0, k2) <==> k1 == k2
  {
    StreamSeedsDistinct(e.nextU64(s).0, k1, k2);
  }

  /** `n` successive `range(r)` draws, as a test collects them into a `Vec`. */
  function RangeRun<S(!new)>(e: Engine<S>, s: S, r: IntRange, n: nat): (S, seq<int>)
  {
    if n == 0 then (s, [])
    else
      var (s1, vs) := RangeRun(e, s, r, n - 1);
      var (v, s2) := e.sampleRange(s1, r);
      (s2, vs + [v])
  }

  /** A run of `n` draws has `n` values, each inside the (non-empty) range. */
  lemma {:induction false} RangeRunInRange<S(!new)>(e: Engine<S>, s: S, r: IntRange, n: nat)
    requires e.Valid() && !r.IsEmpty()
    ensures |RangeRun(e, s, r, n).1| == n
    ensures forall k :: 0 <= k < n ==> r.Contains(RangeRun(e, s, r, n).1[k])
  {
    if n > 0 {
      RangeRunInRange(e, s, r, n - 1);
      var (s1, vs) := RangeRun(e, s, r, n - 1);
      assert RangeRun(e, s, r, n).1 == vs + [e.sampleRange(s1, r).0];
    }
  }

  /** The slice after the swaps, in order, of a shuffle. */
  function ApplySwaps<T>(xs: seq<T>, swaps: seq<(nat, nat)>): (ys: seq<T>)
    requires SwapsFit(swaps, |xs|)
    ensures |ys| == |xs|
  {
    if swaps == [] then xs
    else
      var zs := ApplySwaps(xs, swaps[..|swaps| - 1]);
      var (i, j) := swaps[|swaps| - 1];
      zs[i := zs[j]][j := zs[i]]
  }

  /** One swap keeps the multiset of elements. */
  lemma SwapPermutes<T>(zs: seq<T>, i: nat, j: nat)
    requires i < |zs| && j < |zs|
    ensures multiset(zs[i := zs[j]][j := zs[i]]) == multiset(zs)
  {
    if i != j {
      var half := zs[i := zs[j]];
      assert multiset(half) == multiset(zs) - multiset{zs[i]} + multiset{zs[j]};
      assert half[j] == zs[j];
      assert multiset(half[j := zs[i]]) == multiset(half) - multiset{zs[j]} + multiset{zs[i]};
    }
  }

  /** A shuffle rearranges the slice: the result is a permutation of the input. */
  lemma {:induction false} ApplySwapsPermutes<T>(xs: seq<T>, swaps: seq<(nat, nat)>)
    requires SwapsFit(swaps, |xs|)
    ensures multiset(ApplySwaps(xs, swaps)) == multiset(xs)
  {
    if swaps != [] {
      var prefix := swaps[..|swaps| - 1];
      assert SwapsFit(prefix, |xs|);
      ApplySwapsPermutes(xs, prefix);
      var (i, j) := swaps[|swaps| - 1];
      SwapPermutes(ApplySwaps(xs, prefix), i, j);
    }
  }

  /** Performs the swaps of a shuffle, in order, on the slice in place. */
  method SwapInPlace<T>(a: array<T>, swaps: seq<(nat, nat)>)
    requires SwapsFit(swaps, a.Length)
    modifies a
    ensures a[..] == ApplySwaps(old(a[..]), swaps)
  {
    var k := 0;
    while k < |swaps|
      invariant 0 <= k <= |swaps|
      invariant SwapsFit(swaps[..k], a.Length)
      invariant a[..] == ApplySwaps(old(a[..]), swaps[..k])
    {
      var (i, j) := swaps[k];
      assert swaps[..k + 1][..k] == swaps[..k];
      a[i], a[j] := a[j], a[i];
      k := k + 1;
    }
    assert swaps[..k] == swaps;
  }
}
