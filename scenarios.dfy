/**
 * The behaviour the crate's tests check, stated for every engine and every seed
 * rather than for a few sample values. Each method builds its own generators,
 * so its contract speaks only of what it returns.
 */
module Scenarios {
  import opened Words
  import opened Wrappers
  import opened StdRng
  import opened Draws
  import opened SeedMix
  import opened Global
  import opened Entity
  import opened Plugin

  /** `(0..n).map(|_| rng.range(r)).collect()` on a global generator. */
  method CollectGlobal<S(!new)>(g: GlobalRng<S>, r: IntRange, n: nat) returns (vs: seq<int>)
    requires g.engine.Valid() && !r.IsEmpty()
    modifies g
    ensures (g.rng, vs) == RangeRun(g.engine, old(g.rng), r, n)
    ensures g.seed == old(g.seed)
  {
    vs := [];
    var k := 0;
    while k < n
      invariant 0 <= k <= n
      invariant (g.rng, vs) == RangeRun(g.engine, old(g.rng), r, k)
      invariant g.seed == old(g.seed)
    {
      var v := g.Range(r);
      vs := vs + [v];
      k := k + 1;
    }
  }

  /** `(0..n).map(|_| rng.range(r)).collect()` on an entity generator. */
  method CollectEntity<S(!new)>(g: EntityRng<S>, r: IntRange, n: nat) returns (vs: seq<int>)
    requires g.engine.Valid() && !r.IsEmpty()
    modifies g
    ensures (g.rng, vs) == RangeRun(g.engine, old(g.rng), r, n)
    ensures g.seed == old(g.seed)
  {
    vs := [];
    var k := 0;
    while k < n
      invariant 0 <= k <= n
      invariant (g.rng, vs) == RangeRun(g.engine, old(g.rng), r, k)
      invariant g.seed == old(g.seed)
    {
      var v := g.Range(r);
      vs := vs + [v];
      k := k + 1;
    }
  }

  /** Two generators seeded alike produce the same values, each inside the range. */
  method SeededIsDeterministic<S(!new)>(engine: Engine<S>, seed: U64, r: IntRange, n: nat)
    returns (values1: seq<int>, values2: seq<int>)
    requires engine.Valid() && !r.IsEmpty()
    ensures values1 == values2
    ensures |values1| == n
    ensures forall k :: 0 <= k < n ==> r.Contains(values1[k])
  {
    var rng1 := new GlobalRng.Seeded(engine, seed);
    var rng2 := new GlobalRng.Seeded(engine, seed);
    values1 := CollectGlobal(rng1, r, n);
    values2 := CollectGlobal(rng2, r, n);
    RangeRunInRange(engine, engine.seedFromU64(seed), r, n);
  }

  /** After `reset`, a generator repeats the values it drew first; its seed stays. */
  method ResetRestoresInitialState<S(!new)>(engine: Engine<S>, seed: U64, r: IntRange, n: nat)
    returns (initial: seq<int>, afterReset: seq<int>, seedAfter: U64)
    requires engine.Valid() && !r.IsEmpty()
    ensures initial == afterReset
    ensures seedAfter == seed
  {
    var rng := new GlobalRng.Seeded(engine, seed);
    initial := CollectGlobal(rng, r, n);
    rng.Reset();
    afterReset := CollectGlobal(rng, r, n);
    seedAfter := rng.Seed();
  }

  /** A second `reset` changes nothing: both leave the generator at the same state. */
  method ResetIsIdempotent<S(!new)>(engine: Engine<S>, seed: U64, r: IntRange, n: nat)
    returns (onceReset: seq<int>, twiceReset: seq<int>)
    requires engine.Valid() && !r.IsEmpty()
    ensures onceReset == twiceReset
  {
    var rng := new GlobalRng.Seeded(engine, seed);
    var _ := CollectGlobal(rng, r, n);
    rng.Reset();
    onceReset := CollectGlobal(rng, r, n);
    rng.Reset();
    rng.Reset();
    twiceReset := CollectGlobal(rng, r, n);
  }

  /**
   * The parent of a fork goes on as a fresh generator that drew one value and
   * one `u64` would, however much the child is used in between.
   */
  method ForkCreatesIndependentRng<S(!new)>(engine: Engine<S>, seed: U64, r: IntRange, childDraws: nat)
    returns (parentVal1: int, firstFresh: int, parentVal2: int, expected: int)
    requires engine.Valid() && !r.IsEmpty()
    ensures parentVal1 == firstFresh
    ensures parentVal2 == expected
    ensures r.Contains(parentVal2)
  {
    var parent := new GlobalRng.Seeded(engine, seed);
    parentVal1 := parent.Range(r);
    var child := parent.Fork();
    var (_, childVals) := RangeRun(engine, child, r, childDraws);
    parentVal2 := parent.Range(r);

    var restarted := new GlobalRng.Seeded(engine, seed);
    var _ := restarted.Range(r);
    var _ := restarted.U64();
    expected := restarted.Range(r);

    var other := new GlobalRng.Seeded(engine, seed);
    firstFresh := other.Range(r);
  }

  /** `choose` on an empty slice gives `None` and draws nothing: the next draw is the first. */
  method ChooseReturnsNoneForEmptySlice<S(!new)>(engine: Engine<S>, seed: U64, r: IntRange)
    returns (choice: Option<int>, next: int, first: int)
    requires engine.Valid() && !r.IsEmpty()
    ensures choice == None
    ensures next == first
  {
    var rng := new GlobalRng.Seeded(engine, seed);
    choice := rng.Choose([]);
    next := rng.Range(r);
    var baseline := new GlobalRng.Seeded(engine, seed);
    first := baseline.Range(r);
  }

  /** `choose_index` on an empty slice is `None` as well, and draws nothing either. */
  method ChooseIndexOfEmptySlice<S(!new)>(engine: Engine<S>, seed: U64, r: IntRange)
    returns (index: Option<int>, next: int, first: int)
    requires engine.Valid() && !r.IsEmpty()
    ensures index == None
    ensures next == first
  {
    var rng := new GlobalRng.Seeded(engine, seed);
    index := rng.ChooseIndex<int>([]);
    next := rng.Range(r);
    var baseline := new GlobalRng.Seeded(engine, seed);
    first := baseline.Range(r);
  }

  /** `choose` on `[1, 2, 3, 4, 5]` gives one of its elements. */
  method ChooseReturnsElementFromSlice<S(!new)>(engine: Engine<S>, seed: U64)
    returns (choice: Option<int>)
    requires engine.Valid()
    ensures choice.Some?
    ensures choice.value in [1, 2, 3, 4, 5]
  {
    var rng := new GlobalRng.Seeded(engine, seed);
    choice := rng.Choose([1, 2, 3, 4, 5]);
  }

  /**
   * Entities 1 and 2 of one global seed get different seeds, and re-creating
   * entity 1 reproduces its values.
   */
  method EntityRngIsIndependent<S(!new)>(engine: Engine<S>, globalSeed: U64, r: IntRange, n: nat)
    returns (seed1: U64, seed2: U64, vals1: seq<int>, vals1Again: seq<int>)
    requires engine.Valid() && !r.IsEmpty()
    ensures seed1 != seed2
    ensures vals1 == vals1Again
  {
    var entity1 := new EntityRng.FromGlobalAndId(engine, globalSeed, 1);
    var entity2 := new EntityRng.FromGlobalAndId(engine, globalSeed, 2);
    seed1, seed2 := entity1.Seed(), entity2.Seed();
    EntitySeedsDistinct(globalSeed, 1, 2);
    vals1 := CollectEntity(entity1, r, n);
    var _ := CollectEntity(entity2, r, n);
    var entity1Again := new EntityRng.FromGlobalAndId(engine, globalSeed, 1);
    vals1Again := CollectEntity(entity1Again, r, n);
  }

  /**
   * `fork_stream(1)`, then `reset`, then `fork_stream(1)` again gives two children
   * that draw the same value.
   */
  method StreamForkingIsDeterministic<S(!new)>(engine: Engine<S>, seed: U64, r: IntRange)
    returns (val1: int, val2: int)
    requires engine.Valid() && !r.IsEmpty()
    ensures val1 == val2
  {
    var rng := new GlobalRng.Seeded(engine, seed);
    var child1 := rng.ForkStream(1);
    rng.Reset();
    var child2 := rng.ForkStream(1);
    val1 := engine.sampleRange(child1, r).0;
    val2 := engine.sampleRange(child2, r).0;
  }

  /** `fork_stream(0)` hands out the very child `fork` would. */
  method ForkStreamZeroIsFork<S(!new)>(engine: Engine<S>, seed: U64, r: IntRange)
    returns (viaStream: int, viaFork: int)
    requires engine.Valid() && !r.IsEmpty()
    ensures viaStream == viaFork
  {
    var rng1 := new GlobalRng.Seeded(engine, seed);
    var rng2 := new GlobalRng.Seeded(engine, seed);
    var child1 := rng1.ForkStream(0);
    var child2 := rng2.Fork();
    viaStream := engine.sampleRange(child1, r).0;
    viaFork := engine.sampleRange(child2, r).0;
  }

  /** `reseed(seed())` is `reset()`: the values after either agree. */
  method ReseedSameSeedIsReset<S(!new)>(engine: Engine<S>, seed: U64, r: IntRange, n: nat)
    returns (afterReseed: seq<int>, afterReset: seq<int>)
    requires engine.Valid() && !r.IsEmpty()
    ensures afterReseed == afterReset
  {
    var rng1 := new GlobalRng.Seeded(engine, seed);
    var rng2 := new GlobalRng.Seeded(engine, seed);
    var _ := CollectGlobal(rng1, r, n);
    var _ := CollectGlobal(rng2, r, n);
    rng1.Reseed(rng1.Seed());
    rng2.Reset();
    afterReseed := CollectGlobal(rng1, r, n);
    afterReset := CollectGlobal(rng2, r, n);
  }

  /** `reseed(s)` reports `s` from then on and replays what `seeded(s)` draws. */
  method ReseedAdoptsSeed<S(!new)>(engine: Engine<S>, seed: U64, newSeed: U64, r: IntRange, n: nat)
    returns (reported: U64, replayed: seq<int>, direct: seq<int>)
    requires engine.Valid() && !r.IsEmpty()
    ensures reported == newSeed
    ensures replayed == direct
  {
    var rng := new GlobalRng.Seeded(engine, seed);
    var _ := CollectGlobal(rng, r, n);
    rng.Reseed(newSeed);
    reported := rng.Seed();
    replayed := CollectGlobal(rng, r, n);
    var other := new GlobalRng.Seeded(engine, newSeed);
    direct := CollectGlobal(other, r, n);
  }

  /** Both spellings of a fixed seed install a generator reporting that seed. */
  method PluginSeedsGlobal<S(!new)>(engine: Engine<S>, seed: U64, entropy: U64)
    returns (viaSeeded: U64, viaBuilder: U64)
    ensures viaSeeded == seed
    ensures viaBuilder == seed
  {
    var g1 := Build(Seeded(seed), engine, entropy);
    var g2 := Build(New().WithSeed(seed), engine, entropy);
    viaSeeded, viaBuilder := g1.Seed(), g2.Seed();
  }

  /**
   * A random seed is kept: it is what `seed()` reports, and a generator seeded
   * with that value reproduces the random generator's values.
   */
  method RandomSeedIsRetrievable<S(!new)>(engine: Engine<S>, entropy: U64, r: IntRange, n: nat)
    returns (reported: U64, original: seq<int>, reproduced: seq<int>)
    requires engine.Valid() && !r.IsEmpty()
    ensures reported == entropy
    ensures original == reproduced
  {
    var rng := new GlobalRng.Random(engine, entropy);
    reported := rng.Seed();
    original := CollectGlobal(rng, r, n);
    var again := new GlobalRng.Seeded(engine, reported);
    reproduced := CollectGlobal(again, r, n);
  }

  /** The same for an entity generator with a random seed. */
  method EntitySeedIsRetrievable<S(!new)>(engine: Engine<S>, entropy: U64, r: IntRange, n: nat)
    returns (reported: U64, original: seq<int>, reproduced: seq<int>)
    requires engine.Valid() && !r.IsEmpty()
    ensures reported == entropy
    ensures original == reproduced
  {
    var rng := new EntityRng.Random(engine, entropy);
    reported := rng.Seed();
    original := CollectEntity(rng, r, n);
    var again := new EntityRng.Seeded(engine, reported);
    reproduced := CollectEntity(again, r, n);
  }

  /**
   * `from_global` only reads the global generator: its next draw is the one it
   * would have made anyway, and the entity's seed mixes the global seed with the
   * entropy word.
   */
  method FromGlobalLeavesGlobalUntouched<S(!new)>(engine: Engine<S>, seed: U64, entropy: U64, r: IntRange)
    returns (entitySeed: U64, next: int, first: int)
    requires engine.Valid() && !r.IsEmpty()
    ensures entitySeed == HashCombine(seed, entropy)
    ensures next == first
  {
    var global := new GlobalRng.Seeded(engine, seed);
    var entity := new EntityRng.FromGlobal(global, entropy);
    entitySeed := entity.Seed();
    next := global.Range(r);
    var baseline := new GlobalRng.Seeded(engine, seed);
    first := baseline.Range(r);
  }

  /** Every draw leaves `seed()` alone, and `reset` keeps it too. */
  method EntityDrawsKeepSeed<S(!new)>(engine: Engine<S>, seed: U64, p: real)
    returns (before: U64, after: U64)
    requires engine.Valid()
    ensures before == after
    ensures after == seed
  {
    var rng := new EntityRng.Seeded(engine, seed);
    before := rng.Seed();
    var _ := rng.Range(HalfOpen(0, 100));
    var _ := rng.F32();
    var _ := rng.F64();
    var _ := rng.Bool();
    var _ := rng.Chance(p);
    var _ := rng.Choose([1, 2, 3, 4, 5]);
    var a := new int[5](i => i + 1);
    rng.Shuffle(a);
    var _ := rng.Fork();
    rng.Reset();
    after := rng.Seed();
  }

  /** `chance(0.0)` never succeeds and `chance(1.0)` always does, over `n` draws each. */
  method ChanceRespectsProbability<S(!new)>(engine: Engine<S>, seed: U64, n: nat)
    returns (zeros: seq<bool>, ones: seq<bool>)
    requires engine.Valid()
    ensures |zeros| == n && |ones| == n
    ensures forall k :: 0 <= k < n ==> !zeros[k]
    ensures forall k :: 0 <= k < n ==> ones[k]
  {
    var rng := new GlobalRng.Seeded(engine, seed);
    zeros := [];
    while |zeros| < n
      invariant |zeros| <= n
      invariant forall k :: 0 <= k < |zeros| ==> !zeros[k]
    {
      var b := rng.Chance(0.0);
      zeros := zeros + [b];
    }
    ones := [];
    while |ones| < n
      invariant |ones| <= n
      invariant forall k :: 0 <= k < |ones| ==> ones[k]
    {
      var b := rng.Chance(1.0);
      ones := ones + [b];
    }
  }

  /** Shuffling `[1, 2, 3, 4, 5]` leaves the same five elements. */
  method ShufflePermutes<S(!new)>(engine: Engine<S>, seed: U64) returns (shuffled: seq<int>)
    requires engine.Valid()
    ensures multiset(shuffled) == multiset{1, 2, 3, 4, 5}
  {
    var rng := new GlobalRng.Seeded(engine, seed);
    var a := new int[5](i => i + 1);
    assert a[..] == [1, 2, 3, 4, 5];
    rng.Shuffle(a);
    shuffled := a[..];
  }
}
