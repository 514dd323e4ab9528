/**
 * The seed algebra of the crate: `hash_combine`, which derives per-entity seeds,
 * and the wrapping addition that `GlobalRng::fork_stream` uses for stream seeds.
 *
 * `hash_combine(a, b)` runs three steps on a 64-bit word: XOR `b` into `a`,
 * multiply (wrapping) by the odd constant 0x517c_c1b7_2722_0a95, and XOR the
 * word with itself shifted right by 32. Each step is a bijection of the word,
 * so for a fixed `a` the whole map is one; `HashUncombine` is its inverse.
 */
module SeedMix {
  import opened Words

  /** Step 1: `h ^= b` with `h == a`. */
  function Xor(a: U64, b: U64): U64 { a ^ b }

  /** Step 2: `h.wrapping_mul(0x517c_c1b7_2722_0a95)`. */
  function MulMix(x: U64): U64 { x * 0x517c_c1b7_2722_0a95 }

  /**
   * The inverse of step 2: multiplication by 0x2040_003d_7809_70bd, the inverse of
   * the odd constant modulo 2^64.
   */
  function MulMixInverse(x: U64): U64 { x * 0x2040_003d_7809_70bd }

  /** Step 3: `h ^= h >> 32`. */
  function FoldHigh(h: U64): U64 { h ^ (h >> 32) }

  /** `hash_combine(a, b)`. */
  function HashCombine(a: U64, b: U64): U64 {
    FoldHigh(MulMix(Xor(a, b)))
  }

  /** Recovers `b` from `a` and `hash_combine(a, b)`: the three steps undone in reverse. */
  function HashUncombine(a: U64, h: U64): U64 {
    Xor(a, MulMixInverse(FoldHigh(h)))
  }

  /**
   * The seed of `EntityRng::from_global_and_id(global_seed, entity_index)`; the
   * `u32` index is zero-extended (`entity_index as u64`).
   */
  function EntitySeed(globalSeed: U64, entityIndex: U32): U64 {
    HashCombine(globalSeed, entityIndex as U64)
  }

  // Each bijection is proved on the step function applied to the bare
  // expression of the other step, which the solver settles by rewriting.

  /** Step 3 is its own inverse: the high half is untouched, so XORing it in twice cancels. */
  lemma FoldHighInvolution(h: U64)
    ensures FoldHigh(FoldHigh(h)) == h
  {
    assert FoldHigh(h ^ (h >> 32)) == h;
  }

  /** Step 2 is undone by multiplying with the inverse constant. */
  lemma MulMixInverts(x: U64)
    ensures MulMixInverse(MulMix(x)) == x
  {
    assert MulMixInverse(x * 0x517c_c1b7_2722_0a95) == x;
  }

  /** ... and the other way round. */
  lemma MulMixInverseInverts(x: U64)
    ensures MulMix(MulMixInverse(x)) == x
  {
    assert MulMix(x * 0x2040_003d_7809_70bd) == x;
  }

  /** Step 1 is undone by XORing the same `a` again. */
  lemma XorInvolution(a: U64, b: U64)
    ensures Xor(a, Xor(a, b)) == b
  {
  }

  /** Multiply-then-fold (steps 2 and 3) loses nothing. */
  lemma MixInjective(x1: U64, x2: U64)
    requires FoldHigh(MulMix(x1)) == FoldHigh(MulMix(x2))
    ensures x1 == x2
  {
    FoldHighInvolution(MulMix(x1));
    FoldHighInvolution(MulMix(x2));
    MulMixInverts(x1);
    MulMixInverts(x2);
  }

  /** `HashUncombine(a, ·)` undoes `HashCombine(a, ·)`. */
  lemma UncombineCombine(a: U64, b: U64)
    ensures HashUncombine(a, HashCombine(a, b)) == b
  {
    FoldHighInvolution(MulMix(Xor(a, b)));
    MulMixInverts(Xor(a, b));
    XorInvolution(a, b);
  }

  /** `HashCombine(a, ·)` undoes `HashUncombine(a, ·)`: every word is some seed's hash. */
  lemma CombineUncombine(a: U64, h: U64)
    ensures HashCombine(a, HashUncombine(a, h)) == h
  {
    XorInvolution(a, MulMixInverse(FoldHigh(h)));
    MulMixInverseInverts(FoldHigh(h));
    FoldHighInvolution(h);
  }

  /** For a fixed first argument, different second arguments give different hashes. */
  lemma HashCombineInjective(a: U64, b1: U64, b2: U64)
    ensures HashCombine(a, b1) == HashCombine(a, b2) <==> b1 == b2
  {
    if HashCombine(a, b1) == HashCombine(a, b2) {
      UncombineCombine(a, b1);
      UncombineCombine(a, b2);
    }
  }

  /**
   * The hash depends on its two inputs only through `a ^ b`, and exactly so: two
   * pairs collide if and only if their XORs agree; for example the pair
   * (global seed 0, entity 1) collides with (1, 0).
   */
  lemma HashCombineCollision(a1: U64, b1: U64, a2: U64, b2: U64)
    ensures HashCombine(a1, b1) == HashCombine(a2, b2) <==> a1 ^ b1 == a2 ^ b2
  {
    assert Xor(a1, b1) == a1 ^ b1 && Xor(a2, b2) == a2 ^ b2;
    if HashCombine(a1, b1) == HashCombine(a2, b2) {
      MixInjective(Xor(a1, b1), Xor(a2, b2));
    }
  }

  /** Swapping the two arguments gives the same hash. */
  lemma HashCombineCommutes(a: U64, b: U64)
    ensures HashCombine(a, b) == HashCombine(b, a)
  {
    HashCombineCollision(a, b, b, a);
  }

  /** Combining a word with itself gives 0. */
  lemma HashCombineSelf(a: U64)
    ensures HashCombine(a, a) == 0
  {
  }

  /** For one global seed, distinct entity indices never share a seed. */
  lemma EntitySeedsDistinct(globalSeed: U64, i: U32, j: U32)
    ensures EntitySeed(globalSeed, i) == EntitySeed(globalSeed, j) <==> i == j
  {
    HashCombineInjective(globalSeed, i as U64, j as U64);
  }

  /** The seeds of the entities spawned with the indices `ids`, in order. */
  function EntitySeeds(globalSeed: U64, ids: seq<U32>): (seeds: seq<U64>)
    ensures |seeds| == |ids|
  {
    if ids == [] then []
    else EntitySeeds(globalSeed, ids[..|ids| - 1]) + [EntitySeed(globalSeed, ids[|ids| - 1])]
  }

  /** Entity `k` of a spawn gets the seed of its own index. */
  lemma {:induction false} EntitySeedsAt(globalSeed: U64, ids: seq<U32>, k: nat)
    requires k < |ids|
    ensures EntitySeeds(globalSeed, ids)[k] == EntitySeed(globalSeed, ids[k])
  {
    if k < |ids| - 1 {
      EntitySeedsAt(globalSeed, ids[..|ids| - 1], k);
    }
  }

  /** Entities with pairwise-distinct indices get pairwise-distinct seeds. */
  lemma EntitySeedsPairwiseDistinct(globalSeed: U64, ids: seq<U32>)
    requires forall a, b :: 0 <= a < b < |ids| ==> ids[a] != ids[b]
    ensures forall a, b :: 0 <= a < b < |ids| ==>
              EntitySeeds(globalSeed, ids)[a] != EntitySeeds(globalSeed, ids)[b]
  {
    forall a, b | 0 <= a < b < |ids|
      ensures EntitySeeds(globalSeed, ids)[a] != EntitySeeds(globalSeed, ids)[b]
    {
      EntitySeedsAt(globalSeed, ids, a);
      EntitySeedsAt(globalSeed, ids, b);
      EntitySeedsDistinct(globalSeed, ids[a], ids[b]);
    }
  }

  /**
   * The seed `fork_stream(stream)` gives its child: `base.wrapping_add(stream as u64)`,
   * where `base` is the parent's draw.
   */
  function StreamSeed(base: U64, stream: U32): U64 {
    base + stream as U64
  }

  /** Recovers the (widened) stream id from the parent's draw and a child seed. */
  function StreamOffset(base: U64, childSeed: U64): U64 {
    childSeed - base
  }

  /** `StreamOffset` undoes `StreamSeed` for every draw and stream id. */
  lemma StreamOffsetRecovers(base: U64, stream: U32)
    ensures StreamOffset(base, StreamSeed(base, stream)) == stream as U64
  {
    assert StreamOffset(base, base + stream as U64) == stream as U64;
  }

  /**
   * At one point of the parent's sequence, distinct stream ids give distinct child
   * seeds, and stream 0 gives `base` itself, the seed `fork` would use.
   */
  lemma StreamSeedsDistinct(base: U64, k1: U32, k2: U32)
    ensures StreamSeed(base, k1) == StreamSeed(base, k2) <==> k1 == k2
    ensures StreamSeed(base, 0) == base
  {
    StreamOffsetRecovers(base, k1);
    StreamOffsetRecovers(base, k2);
  }
}
