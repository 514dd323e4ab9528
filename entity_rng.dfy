/**
 * `EntityRng`, the per-entity generator component: the same pair of engine state
 * and seed as `GlobalRng`, with a smaller set of draws (no `reseed`, no
 * `fork_stream`, no `choose_index`, no fixed-width draws) and two constructors
 * that derive the seed from a global one.
 */
module Entity {
  import opened Words
  import opened Wrappers
  import opened StdRng
  import opened Draws
  import opened SeedMix
  import opened Global

  class EntityRng<S(!new)> {
    /** The `StdRng` algorithm; the same for the whole life of the generator. */
    const engine: Engine<S>
    var rng: S
    var seed: U64

    /** The engine is where `seed` starts it: after construction or `reset`. */
    ghost predicate AtStart()
      reads this
    {
      rng == engine.seedFromU64(seed)
    }

    /** `EntityRng::seeded(seed)`. */
    constructor Seeded(engine: Engine<S>, seed: U64)
      ensures this.engine == engine && this.seed == seed
      ensures AtStart()
    {
      this.engine := engine;
      this.seed := seed;
      this.rng := engine.seedFromU64(seed);
    }

    /**
     * `EntityRng::random()`: the seed comes from `rand::random()`, here the
     * parameter `entropy`, and is kept so that `seed()` can report it.
     */
    constructor Random(engine: Engine<S>, entropy: U64)
      ensures this.engine == engine && seed == entropy
      ensures AtStart()
    {
      this.engine := engine;
      this.seed := entropy;
      this.rng := engine.seedFromU64(entropy);
    }

    /**
     * `EntityRng::from_global(&global)`: the seed is `hash_combine` of the global
     * seed and a word from `rand::random()`, here `entropy`. The global generator
     * is only read: neither its engine state nor its seed changes.
     */
    constructor FromGlobal(global: GlobalRng<S>, entropy: U64)
      ensures engine == global.engine && seed == HashCombine(global.seed, entropy)
      ensures AtStart()
    {
      engine := global.engine;
      seed := HashCombine(global.seed, entropy);
      rng := global.engine.seedFromU64(HashCombine(global.seed, entropy));
    }

    /**
     * `EntityRng::from_global_and_id(global_seed, entity_index)`: a seed fixed by
     * the global seed and the entity index, reproducible across save and load.
     */
    constructor FromGlobalAndId(engine: Engine<S>, globalSeed: U64, entityIndex: U32)
      ensures this.engine == engine && seed == EntitySeed(globalSeed, entityIndex)
      ensures AtStart()
    {
      this.engine := engine;
      seed := EntitySeed(globalSeed, entityIndex);
      rng := engine.seedFromU64(EntitySeed(globalSeed, entityIndex));
    }

    /** `seed()`: the seed of the current sequence. */
    function Seed(): (s: U64)
      reads this
      ensures s == seed
    {
      seed
    }

    /** `reset()`: back to the start of the current seed's sequence; the seed stays. */
    method Reset()
      modifies this
      ensures seed == old(seed)
      ensures AtStart()
    {
      rng := engine.seedFromU64(seed);
    }

    /**
     * `RngFork::fork` for `EntityRng`: draws one `u64` from the parent and returns
     * a fresh engine seeded with it. The child is a separate value, so drawing
     * from it later leaves the parent alone.
     */
    method Fork() returns (child: S)
      modifies this
      ensures (child, rng) == Draws.Fork(engine, old(rng))
      ensures seed == old(seed)
    {
      var (c, next) := Draws.Fork(engine, rng);
      child, rng := c, next;
    }

    /** `range(r)` on an integer range; `rand` panics on an empty one. */
    method Range(r: IntRange) returns (v: int)
      requires engine.Valid() && !r.IsEmpty()
      modifies this
      ensures (v, rng) == engine.sampleRange(old(rng), r)
      ensures r.Contains(v)
      ensures seed == old(seed)
    {
      var (v', next) := engine.sampleRange(rng, r);
      v, rng := v', next;
    }

    /** `f32()`: a unit value in [0, 1). */
    method F32() returns (u: real)
      requires engine.Valid()
      modifies this
      ensures (u, rng) == engine.nextF32(old(rng))
      ensures 0.0 <= u < 1.0
      ensures seed == old(seed)
    {
      var (u', next) := engine.nextF32(rng);
      u, rng := u', next;
    }

    /** `f64()`: a unit value in [0, 1). */
    method F64() returns (u: real)
      requires engine.Valid()
      modifies this
      ensures (u, rng) == engine.nextF64(old(rng))
      ensures 0.0 <= u < 1.0
      ensures seed == old(seed)
    {
      var (u', next) := engine.nextF64(rng);
      u, rng := u', next;
    }

    /** `bool()`. */
    method Bool() returns (b: bool)
      modifies this
      ensures (b, rng) == engine.nextBool(old(rng))
      ensures seed == old(seed)
    {
      var (b', next) := engine.nextBool(rng);
      b, rng := b', next;
    }

    /** `chance(probability)`: 0 never succeeds, 1 always does. */
    method Chance(probability: real) returns (b: bool)
      requires engine.Valid()
      modifies this
      ensures (b, rng) == Draws.Chance(engine, old(rng), probability)
      ensures probability <= 0.0 ==> !b
      ensures probability >= 1.0 ==> b
      ensures seed == old(seed)
    {
      var (u, next) := engine.nextF64(rng);
      rng := next;
      b := u < probability;
    }

    /** `choose(slice)`: an element of the slice, or `None` and no draw when it is empty. */
    method Choose<T>(slice: seq<T>) returns (c: Option<T>)
      requires engine.Valid()
      modifies this
      ensures (c, rng) == Draws.Choose(engine, old(rng), slice)
      ensures c.None? <==> |slice| == 0
      ensures c.Some? ==> c.value in slice
      ensures |slice| == 0 ==> rng == old(rng)
      ensures seed == old(seed)
    {
      if |slice| == 0 {
        c := None;
      } else {
        var (idx, next) := engine.sampleRange(rng, HalfOpen(0, |slice|));
        rng := next;
        c := Some(slice[idx]);
      }
    }

    /** `shuffle(slice)`: rearranges the slice in place by the engine's swaps. */
    method Shuffle<T>(a: array<T>)
      requires engine.Valid()
      modifies this, a
      ensures a[..] == ApplySwaps(old(a[..]), engine.shuffle(old(rng), a.Length).0)
      ensures multiset(a[..]) == multiset(old(a[..]))
      ensures rng == engine.shuffle(old(rng), a.Length).1
      ensures seed == old(seed)
    {
      var (swaps, next) := engine.shuffle(rng, a.Length);
      SwapInPlace(a, swaps);
      ApplySwapsPermutes(old(a[..]), swaps);
      rng := next;
    }
  }
}
