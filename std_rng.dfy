/**
 * The `StdRng` generator of the `rand` crate, seen from outside. Its algorithm
 * is not part of this model: an `Engine` is any deterministic transition system
 * with the operations this crate calls on it. Every result proved about the
 * generators holds for every engine, so it holds for the real one.
 */
module StdRng {
  import opened Words

  /** An integer range as written `lo..hi` or `lo..=hi`. */
  datatype IntRange = HalfOpen(lo: int, hi: int) | Inclusive(lo: int, hi: int)
  {
    /** `random_range` panics on such a range. */
    predicate IsEmpty() {
      match this
      case HalfOpen(lo, hi) => hi <= lo
      case Inclusive(lo, hi) => hi < lo
    }

    predicate Contains(v: int) {
      match this
      case HalfOpen(lo, hi) => lo <= v < hi
      case Inclusive(lo, hi) => lo <= v <= hi
    }
  }

  /** A swap list fits a slice of length `n` when every index is below `n`. */
  predicate SwapsFit(swaps: seq<(nat, nat)>, n: nat) {
    forall k :: 0 <= k < |swaps| ==> swaps[k].0 < n && swaps[k].1 < n
  }

  /**
   * The operations of `StdRng` over an opaque state `S`. Each draw returns its
   * value and the successor state:
   *   seedFromU64   `StdRng::seed_from_u64`
   *   nextU32 ...   `random::<u32>()`, `random::<u64>()`, `random::<i32>()`,
   *                 `random::<i64>()`, `random::<bool>()`
   *   nextF32/F64   `random::<f32>()`, `random::<f64>()`, as exact reals
   *   sampleRange   `random_range` on an integer range
   *   shuffle       `SliceRandom::shuffle` on a slice of length n, as the
   *                 sequence of swaps it performs
   */
  datatype Engine<!S(!new)> = Engine(
    seedFromU64: U64 -> S,
    nextU32: S -> (U32, S),
    nextU64: S -> (U64, S),
    nextI32: S -> (int, S),
    nextI64: S -> (int, S),
    nextBool: S -> (bool, S),
    nextF32: S -> (real, S),
    nextF64: S -> (real, S),
    sampleRange: (S, IntRange) -> (int, S),
    shuffle: (S, nat) -> (seq<(nat, nat)>, S))
  {
    /** The guarantees `rand` documents for these operations. */
    ghost predicate Valid() {
      && (forall s :: -0x8000_0000 <= nextI32(s).0 < 0x8000_0000)
      && (forall s :: -0x8000_0000_0000_0000 <= nextI64(s).0 < 0x8000_0000_0000_0000)
      && (forall s :: 0.0 <= nextF32(s).0 < 1.0)
      && (forall s :: 0.0 <= nextF64(s).0 < 1.0)
      && (forall s, r: IntRange :: !r.IsEmpty() ==> r.Contains(sampleRange(s, r).0))
      && (forall s, n :: SwapsFit(shuffle(s, n).0, n))
    }
  }
}
