/**
 * `RngPlugin`, the configuration that installs the global generator: an
 * optional seed, where `None` asks for a random one. Only the choice of
 * constructor in `build` is modelled, not how the resource is inserted into
 * the application.
 */
module Plugin {
  import opened Words
  import opened Wrappers
  import opened StdRng
  import opened Global

  datatype RngPlugin = RngPlugin(seed: Option<U64>)
  {
    /** `with_seed(seed)`: the same configuration with its seed fixed. */
    function WithSeed(seed: U64): (p: RngPlugin)
      ensures p.seed == Some(seed)
    {
      RngPlugin(Some(seed))
    }
  }

  /** `RngPlugin::new()`: a random seed. */
  function New(): (p: RngPlugin)
    ensures p.seed.None?
  {
    RngPlugin(None)
  }

  /** `RngPlugin::random()`: a random seed. */
  function Random(): (p: RngPlugin)
    ensures p.seed.None?
  {
    RngPlugin(None)
  }

  /** `RngPlugin::default()`, which is `random()`. */
  function Default(): (p: RngPlugin)
    ensures p == Random()
  {
    Random()
  }

  /** `RngPlugin::seeded(seed)`: a fixed, reproducible seed. */
  function Seeded(seed: U64): (p: RngPlugin)
    ensures p.seed == Some(seed)
  {
    RngPlugin(Some(seed))
  }

  /** The seed the global generator gets from `build`, given the entropy a random seed would use. */
  function BuildSeed(p: RngPlugin, entropy: U64): U64
  {
    match p.seed
    case Some(s) => s
    case None => entropy
  }

  /**
   * `new()`, `random()` and `default()` are one configuration, and so are the two
   * spellings of a fixed seed, `seeded(s)` and `new().with_seed(s)`.
   */
  lemma ConstructorsAgree(seed: U64)
    ensures New() == Random() == Default()
    ensures New().WithSeed(seed) == Seeded(seed)
    ensures Random().WithSeed(seed) == Seeded(seed)
  {
  }

  /**
   * What each builder makes `build` install: the seed of `seeded(s)` and of
   * `with_seed(s)` is `s`, and `new()`, `random()` and `default()` leave it to
   * the entropy word.
   */
  lemma BuildSeedOfBuilders(seed: U64, entropy: U64, p: RngPlugin)
    ensures BuildSeed(Seeded(seed), entropy) == seed
    ensures BuildSeed(p.WithSeed(seed), entropy) == seed
    ensures BuildSeed(New(), entropy) == entropy
    ensures BuildSeed(Random(), entropy) == entropy
    ensures BuildSeed(Default(), entropy) == entropy
  {
  }

  /**
   * `build`: `GlobalRng::seeded` on a fixed seed, `GlobalRng::random` otherwise.
   * Either way the generator starts at the beginning of its seed's sequence.
   */
  method Build<S(!new)>(plugin: RngPlugin, engine: Engine<S>, entropy: U64) returns (global: GlobalRng<S>)
    ensures fresh(global)
    ensures global.engine == engine && global.AtStart()
    ensures global.seed == BuildSeed(plugin, entropy)
    ensures plugin.seed.Some? ==> global.seed == plugin.seed.value
    ensures plugin.seed.None? ==> global.seed == entropy
  {
    if plugin.seed.Some? {
      global := new GlobalRng<S>.Seeded(engine, plugin.seed.value);
    } else {
      global := new GlobalRng<S>.Random(engine, entropy);
    }
  }
}
