# msg_rng in Dafny

A model of the seed algebra and generator state machines of `msg_rng`, a Bevy
plugin that gives a game a reproducible random number generator:

- `GlobalRng`: one global generator, a resource of the game.
- `EntityRng`: one generator per entity, a component.
- `RngPlugin`: the configuration that installs the global generator with a fixed or a random seed.

Each generator is a pair of a `StdRng` engine state and the `seed` it was started from.

## What the model covers

- **Words** (`words.dfy`): `u32` and `u64` as `bv32` and `bv64`. Wrapping addition and multiplication are bit-vector `+` and `*`.
- **SeedMix** (`seed_mix.dfy`): `hash_combine`.
  - It runs three steps: XOR, a wrapping multiply by `0x517c_c1b7_2722_0a95`, and `h ^ (h >> 32)`.
  - Each step is proved a bijection. The multiplication is undone by multiplying with `0x2040_003d_7809_70bd`, the inverse of the constant modulo 2^64.
  - `HashUncombine` therefore inverts `HashCombine(a, ·)` in both directions.
  - So entities with different indices provably get different seeds.
  - It also holds `StreamSeed`, the `wrapping_add` of a drawn word and a stream id that `fork_stream` seeds its child with, and its inverse `StreamOffset`; `Draws.ForkStream` is defined through `StreamSeed`.
- **StdRng** (`std_rng.dfy`): the `rand` engine as an `Engine<S>`.
  - An engine is a record of deterministic transitions over an opaque state `S`: `seed_from_u64`, the fixed-width draws, `bool`, the two unit floats, `random_range` on integer ranges, and `shuffle`.
  - `Valid()` collects the range guarantees that `rand` documents.
  - Every result is proved for every valid engine.
- **Draws** (`draws.dfy`): `choose`, `choose_index`, `chance`, `fork`, `fork_stream`, repeated `range` draws and shuffling, as pure functions of the engine state. The class methods are specified by them.
- **Global** (`global_rng.dfy`) and **Entity** (`entity_rng.dfy`): the two generators as classes with the fields `rng` and `seed`.
  - Every draw updates `rng` and keeps `seed`.
  - `reset` and `reseed` restart the sequence; `AtStart()` states this.
  - `EntityRng` has only the operations the source gives it: no `reseed`, `fork_stream`, `choose_index` or fixed-width draws.
- **Plugin** (`plugin.dfy`): `RngPlugin` and its builders, and the choice between `GlobalRng::seeded` and `GlobalRng::random` in `build`.
- **Scenarios** (`scenarios.dfy`): the properties that the crate's unit and integration tests check. They are stated for every engine, seed, range and length.

The code is followed over its comments in one place:

- `from_global` takes `&GlobalRng` and reads only its seed. Its second input comes from `rand::random()`. So, despite its doc comment (`src/lib.rs:429`), it does not consume randomness from the global generator. `Entity.EntityRng.FromGlobal` has no `modifies`, and `Scenarios.FromGlobalLeavesGlobalUntouched` shows that the next global draw is the one it would have been anyway.

Further observations:

- `fork_stream` combines the drawn word with the stream id by `wrapping_add`. Distinct stream ids at one parent state give distinct child seeds (`Draws.ForkStreamSeedsDistinct`).
- `hash_combine` depends on its inputs only through `a ^ b`. `SeedMix.HashCombineCollision` proves the exact collision condition. From it:
  - `hash_combine(a, b)` equals `hash_combine(b, a)` (`SeedMix.HashCombineCommutes`);
  - `hash_combine(a, a)` is 0 for every `a` (`SeedMix.HashCombineSelf`);
  - the pair (global seed 0, entity 1) collides with (1, 0).

  For one fixed global seed, distinct entity indices never collide (`SeedMix.EntitySeedsDistinct`).
- `fork_stream(0)` gives exactly the child `fork()` gives (`Draws.ForkStream`, `Scenarios.ForkStreamZeroIsFork`).
- `fork` and `fork_stream` return a bare `StdRng`, not a generator. The child is a value of its own, so using it never changes the parent.

## Model

| member | source | states |
|---|---|---|
| SeedMix.HashCombine | src/lib.rs:523-530 | `hash_combine`: XOR, wrapping multiply by `0x517c_c1b7_2722_0a95`, fold of the high half; its properties are the lemmas below |
| SeedMix.HashUncombine | src/lib.rs:523-530 | the three steps of `hash_combine` undone in reverse order |
| SeedMix.EntitySeed | src/lib.rs:444 | the seed `from_global_and_id` computes, with the index zero-extended |
| SeedMix.XorInvolution | src/lib.rs:526 | XORing in the same `b` twice gives back the original word |
| SeedMix.MulMixInverts | src/lib.rs:527 | the wrapping multiply by the odd constant is undone by multiplying with its inverse modulo 2^64 |
| SeedMix.MulMixInverseInverts | src/lib.rs:527 | the inverse multiply is undone by the original multiply: step 2 is a bijection |
| SeedMix.FoldHighInvolution | src/lib.rs:528 | `h ^ (h >> 32)` applied twice is the identity |
| SeedMix.MixInjective | src/lib.rs:527-528 | multiply-then-fold maps different words to different words |
| SeedMix.UncombineCombine | src/lib.rs:523-530 | `HashUncombine(a, hash_combine(a, b)) == b` for all `a`, `b` |
| SeedMix.CombineUncombine | src/lib.rs:523-530 | `hash_combine(a, HashUncombine(a, h)) == h`: every word is the hash of some second argument |
| SeedMix.HashCombineInjective | src/lib.rs:523-530 | for a fixed first argument, equal hashes if and only if equal second arguments |
| SeedMix.HashCombineCollision | src/lib.rs:523-530 | two pairs hash alike if and only if their XORs agree, so the hash depends on `a ^ b` alone |
| SeedMix.HashCombineCommutes | src/lib.rs:523-530 | swapping the two arguments gives the same hash |
| SeedMix.HashCombineSelf | src/lib.rs:523-530 | combining a word with itself gives 0 |
| SeedMix.EntitySeedsDistinct | src/lib.rs:443-449 | `from_global_and_id` seeds for one global seed are equal if and only if the entity indices are |
| SeedMix.EntitySeeds | tests/integration.rs:32-36 | spawning one entity per index gives one seed per index |
| SeedMix.EntitySeedsAt | tests/integration.rs:32-36 | the seed of spawned entity `k` is the `from_global_and_id` seed of its index |
| SeedMix.EntitySeedsPairwiseDistinct | tests/integration.rs:38-46 | entities spawned with pairwise-distinct indices have pairwise-distinct seeds |
| SeedMix.StreamSeed | src/lib.rs:246-247 | the child seed of `fork_stream`: the drawn word plus the stream id, wrapping |
| SeedMix.StreamOffset | src/lib.rs:246-247 | the stream id recovered from a drawn word and a child seed |
| SeedMix.StreamOffsetRecovers | src/lib.rs:246-247 | subtracting the drawn word from `StreamSeed` gives back the zero-extended stream id |
| SeedMix.StreamSeedsDistinct | src/lib.rs:245-249 | at one drawn word, `StreamSeed` is equal for two stream ids if and only if they are equal, and stream 0 gives the drawn word itself |
| Draws.ChooseIndex | src/lib.rs:315-321 | `None` exactly for an empty slice, with the state unchanged; otherwise an index below the length |
| Draws.Choose | src/lib.rs:303-310 | `None` exactly for an empty slice; otherwise an element of the slice, the one at the `choose_index` index, with the same state change |
| Draws.Chance | src/lib.rs:296-298 | one `f64` draw; probability 0 or less never succeeds, 1 or more always does |
| Draws.Fork | src/lib.rs:235-238 | the parent takes exactly the step of one `u64` draw, and the child is `seed_from_u64` of the drawn word |
| Draws.ForkStream | src/lib.rs:245-249 | the child is `seed_from_u64(StreamSeed(drawn word, stream))`; the parent advances exactly as `fork` does; stream 0 yields `fork`'s child |
| Draws.ForkStreamSeedsDistinct | src/lib.rs:240-249 | two `fork_stream` children at one parent state are seeded with the same word if and only if their stream ids are equal |
| Draws.RangeRun | src/lib.rs:570-571 | the state and the values after `n` successive `range` draws, in order; its properties are in `RangeRunInRange` |
| Draws.RangeRunInRange | src/lib.rs:261-267 | `n` successive `range` draws give `n` values, all inside the range |
| Draws.ApplySwaps | src/lib.rs:324-327 | a shuffle keeps the slice's length |
| Draws.SwapPermutes | src/lib.rs:324-327 | one swap keeps the multiset of elements |
| Draws.ApplySwapsPermutes | src/lib.rs:324-327 | a whole shuffle's swaps keep the multiset of elements: the result is a permutation |
| Draws.SwapInPlace | src/lib.rs:324-327 | performing the swaps on the array in place leaves the swapped sequence |
| Global.GlobalRng.Seeded | src/lib.rs:203-208 | the seed is the given one and the engine is at the start of its sequence |
| Global.GlobalRng.Random | src/lib.rs:193-199 | the entropy word is both the kept seed and the engine's seed |
| Global.GlobalRng.Seed | src/lib.rs:215-217 | reports the kept seed |
| Global.GlobalRng.Reset | src/lib.rs:220-222 | back at the start of the kept seed's sequence; the seed is unchanged |
| Global.GlobalRng.Reseed | src/lib.rs:225-228 | the new seed is kept and its sequence starts |
| Global.GlobalRng.Fork | src/lib.rs:235-238 | one `u64` draw from the parent; the child is an engine seeded with it; the seed is unchanged |
| Global.GlobalRng.ForkStream | src/lib.rs:245-249 | one `u64` draw; the child is seeded with the drawn word plus the stream id; the seed is unchanged |
| Global.GlobalRng.Range | src/lib.rs:261-267 | the engine's range draw, inside the non-empty range; the seed is unchanged |
| Global.GlobalRng.F32 | src/lib.rs:270-272 | a unit value in [0, 1); the seed is unchanged |
| Global.GlobalRng.F64 | src/lib.rs:275-277 | a unit value in [0, 1); the seed is unchanged |
| Global.GlobalRng.Bool | src/lib.rs:280-282 | one engine `bool` step; the seed is unchanged |
| Global.GlobalRng.Chance | src/lib.rs:296-298 | `Draws.Chance` on the state; 0 never and 1 always succeeds |
| Global.GlobalRng.Choose | src/lib.rs:303-310 | `Draws.Choose` on the state; an element of the slice, or `None` and no draw |
| Global.GlobalRng.ChooseIndex | src/lib.rs:315-321 | `Draws.ChooseIndex` on the state; an index below the length, or `None` and no draw |
| Global.GlobalRng.Shuffle | src/lib.rs:324-327 | the array becomes the engine's swaps applied to it, a permutation of the old contents |
| Global.GlobalRng.U32 | src/lib.rs:354-356 | one engine `u32` step; the seed is unchanged |
| Global.GlobalRng.U64 | src/lib.rs:359-361 | one engine `u64` step; the seed is unchanged |
| Global.GlobalRng.I32 | src/lib.rs:364-366 | a value in the `i32` range; the seed is unchanged |
| Global.GlobalRng.I64 | src/lib.rs:369-371 | a value in the `i64` range; the seed is unchanged |
| Entity.EntityRng.Seeded | src/lib.rs:420-425 | the seed is the given one and the engine is at the start of its sequence |
| Entity.EntityRng.Random | src/lib.rs:410-416 | the entropy word is both the kept seed and the engine's seed |
| Entity.EntityRng.FromGlobal | src/lib.rs:431-437 | the seed is `hash_combine(global seed, entropy)`; the global generator is only read |
| Entity.EntityRng.FromGlobalAndId | src/lib.rs:443-449 | the seed is `hash_combine(global_seed, entity_index as u64)` |
| Entity.EntityRng.Seed | src/lib.rs:453-455 | reports the kept seed |
| Entity.EntityRng.Reset | src/lib.rs:458-460 | back at the start of the kept seed's sequence; the seed is unchanged |
| Entity.EntityRng.Fork | src/lib.rs:546-551 | one `u64` draw from the parent; the child is an engine seeded with it |
| Entity.EntityRng.Range | src/lib.rs:463-469 | the engine's range draw, inside the non-empty range; the seed is unchanged |
| Entity.EntityRng.F32 | src/lib.rs:472-474 | a unit value in [0, 1) |
| Entity.EntityRng.F64 | src/lib.rs:477-479 | a unit value in [0, 1) |
| Entity.EntityRng.Bool | src/lib.rs:482-484 | one engine `bool` step |
| Entity.EntityRng.Chance | src/lib.rs:487-489 | 0 never succeeds and 1 always does |
| Entity.EntityRng.Choose | src/lib.rs:492-499 | an element of the slice, or `None` and no draw |
| Entity.EntityRng.Shuffle | src/lib.rs:502-505 | the array becomes a permutation of its old contents |
| Plugin.RngPlugin.WithSeed | src/lib.rs:136-139 | the configuration's seed becomes the given one |
| Plugin.ConstructorsAgree | src/lib.rs:109-139 | `new`, `random` and `default` agree, and `seeded(s)` equals `new().with_seed(s)` |
| Plugin.New | src/lib.rs:118-120 | a configuration without a seed, so a random one is used |
| Plugin.Random | src/lib.rs:124-126 | a configuration without a seed |
| Plugin.Default | src/lib.rs:109-113 | the same configuration as `random()` |
| Plugin.Seeded | src/lib.rs:130-132 | a configuration with the given seed |
| Plugin.BuildSeed | src/lib.rs:143-147 | the seed `build` gives the generator: the configured one, else the entropy word |
| Plugin.BuildSeedOfBuilders | src/lib.rs:109-147 | `seeded(s)` and `with_seed(s)` make `build` install seed `s`; `new()`, `random()` and `default()` make it install the entropy word |
| Plugin.Build | src/lib.rs:143-147 | the installed generator has the configured seed, or the entropy word when there is none, and is at the start of its sequence |
| Scenarios.CollectGlobal | src/lib.rs:570-571 | collecting `n` range draws from a global generator is the run of `n` draws from its state |
| Scenarios.CollectEntity | src/lib.rs:641-642 | the same for an entity generator |
| Scenarios.SeededIsDeterministic | src/lib.rs:566-575 | two generators with one seed give the same values, `n` of them, all in range |
| Scenarios.ResetRestoresInitialState | src/lib.rs:588-597 | the values after `reset` repeat the first ones, and the seed is unchanged |
| Scenarios.ResetIsIdempotent | src/lib.rs:220-222 | one `reset` and two `reset`s leave the same sequence |
| Scenarios.ForkCreatesIndependentRng | src/lib.rs:599-617 | the first parent draw is a fresh generator's first draw; after a fork and any child use, the parent's next draw is that of a fresh generator that skipped one range draw and one `u64` |
| Scenarios.ChooseReturnsNoneForEmptySlice | src/lib.rs:619-624 | `None` for an empty slice, and the next draw is the first one |
| Scenarios.ChooseIndexOfEmptySlice | src/lib.rs:315-321 | the same for `choose_index` |
| Scenarios.ChooseReturnsElementFromSlice | src/lib.rs:626-633 | choosing from `[1, 2, 3, 4, 5]` gives one of its elements |
| Scenarios.EntityRngIsIndependent | src/lib.rs:635-652 | entities 1 and 2 have different seeds, and re-creating entity 1 reproduces its values |
| Scenarios.StreamForkingIsDeterministic | tests/integration.rs:63-72 | `fork_stream(1)`, `reset`, `fork_stream(1)` gives two children with the same draw |
| Scenarios.ForkStreamZeroIsFork | src/lib.rs:235-249 | `fork_stream(0)` and `fork()` at one state give children with the same draw |
| Scenarios.ReseedSameSeedIsReset | src/lib.rs:220-228 | `reseed(seed())` and `reset()` lead to the same values |
| Scenarios.ReseedAdoptsSeed | tests/integration.rs:119-123 | after `reseed(s)` the seed is `s` and the values are those of `seeded(s)` |
| Scenarios.PluginSeedsGlobal | tests/integration.rs:261-267 | `seeded(s)` and `new().with_seed(s)` both install a generator with seed `s` |
| Scenarios.RandomSeedIsRetrievable | src/lib.rs:667-682 | a random generator reports its entropy as its seed, and seeding with it reproduces its values |
| Scenarios.EntitySeedIsRetrievable | src/lib.rs:684-696 | the same for an entity generator |
| Scenarios.FromGlobalLeavesGlobalUntouched | src/lib.rs:431-437 | the entity seed mixes the global seed with the entropy, and the global generator's next draw is unchanged |
| Scenarios.EntityDrawsKeepSeed | tests/integration.rs:97-117 | after every kind of entity draw, a fork and a reset, the seed is the original one |
| Scenarios.ChanceRespectsProbability | src/lib.rs:654-665 | `n` draws of `chance(0.0)` are all false and `n` of `chance(1.0)` all true |
| Scenarios.ShufflePermutes | tests/integration.rs:85-86 | shuffling `[1, 2, 3, 4, 5]` leaves the same elements |

## Left out

- The `StdRng` algorithm (ChaCha in `rand`) and how many words each `rand` operation consumes. Every operation is an uninterpreted deterministic transition of `Engine<S>`.
  - `i32` and `i64` are engine outputs in their ranges, not casts of `u32` and `u64` draws.
  - `bool` is an engine step of its own.
  - `shuffle` is the list of swaps the engine chooses.
- Statistical properties: uniformity, the 50% of `bool`, and that different seeds give different values. The tests at `src/lib.rs:577-586`, `src/lib.rs:645`, `tests/integration.rs:52-61`, `tests/integration.rs:146`, `tests/integration.rs:155` and `tests/integration.rs:210` assert inequalities that depend on the real algorithm or on the entropy, so they are not stated. In place of `src/lib.rs:645`, `Scenarios.EntityRngIsIndependent` states that the two entities' seeds differ.
- Entropy: `rand::random()` in `GlobalRng::random`, `EntityRng::random` and `EntityRng::from_global` is the parameter `entropy`, with no claim about its value.
- Floating point: `f32`, `f64` and the probability of `chance` are exact reals. The unit draws lie in [0, 1). NaN, rounding and float ranges of `range` are not modelled.
- Global.GlobalRng.Range: integer ranges only, over unbounded integers. The width of `T` and float ranges are not modelled. An empty range is a precondition, because `rand` panics on it.
- Global.GlobalRng.I32: states only the `i32` range, not that `rand` computes the value as `next_u32() as i32`.
- Global.GlobalRng.I64: states only the `i64` range, not how `rand` derives the value.
- `random_value::<T>()` for an arbitrary `T`: it is the same engine draw as the fixed-width methods for those types, and generic sampling is not modelled.
- `inner()` and `rng()`: they hand out the raw engine and are not modelled.
- The `RngFork` trait: both implementations are modelled as the `Fork` method of each class.
- Bevy wiring: inserting the resource in `Plugin::build`, the `Resource` and `Component` derives, `Default` for the generators (it is `random()`), the `GlobalRngMut` alias and the `prelude` module.
- The spawn loop of `tests/integration.rs:32-46` as a loop over entities: its property is stated by `SeedMix.EntitySeeds` and `SeedMix.EntitySeedsPairwiseDistinct` for every list of indices.
- `examples/basic.rs`: demonstration code.
