/**
 * The price resolver.  A price query goes through a fixed priority chain:
 * a non-negative special-item override, then the blacklist (price 0), then
 * the cache, and otherwise a price generated from the item's tier bounds
 * and a per-item seed, which is stored in the cache before it is returned.
 */
module PriceService {
  import opened Wrappers
  import opened Materials
  import opened TierResolver
  import opened PriceStorage

  /**
   * The configuration as read at the moment of a call.  Absent keys are
   * absent map entries or None; the defaults are applied by the functions
   * below.
   */
  datatype Config = Config(
    specialItems: map<string, int>,    // special-items: name -> price
    blacklist: set<string>,            // blacklist (only membership is consulted)
    tierMin: map<Tier, int>,           // tiers.<tier>.min
    tierMax: map<Tier, int>,           // tiers.<tier>.max
    priceSeed: Option<bv64>,           // price-seed, a Java long
    injectLore: Option<bool>,          // display.inject-lore
    currencySymbol: Option<string>)    // display.currency-symbol

  /**
   * `new Random(seed).nextInt(bound)`: a deterministic draw from a 64-bit
   * seed, in [0, bound) whenever bound is positive.
   */
  type Generator = (bv64, int) -> int

  ghost predicate DrawsInRange(draw: Generator) {
    forall seed, bound :: 0 < bound ==> 0 <= draw(seed, bound) < bound
  }

  /**
   * What price generation reads besides the configuration: the material
   * catalog (for ordinals), the tier resolver the service was given, and
   * the random generator.
   */
  datatype Env = Env(catalog: Catalog, tiers: string -> Tier, draw: Generator) {
    ghost predicate Valid() {
      catalog.Valid() && DrawsInRange(draw)
    }
  }

  const DEFAULT_SEED: bv64 := 0xDEADBEEF

  // ── Reads of the configuration ───────────────────────────────────────────

  /** The configured override for `m`, or -1 when there is none. */
  function SpecialOverride(cfg: Config, m: string): int {
    if m in cfg.specialItems then cfg.specialItems[m] else -1
  }

  predicate HasSpecialOverride(cfg: Config, m: string) {
    m in cfg.specialItems
  }

  predicate IsBlacklisted(cfg: Config, m: string) {
    m in cfg.blacklist
  }

  /** The tier after `t`. */
  function NextTier(t: Tier): Tier
    requires t != LEGENDARY
  {
    match t
    case JUNK => COMMON
    case COMMON => UNCOMMON
    case UNCOMMON => RARE
    case RARE => EPIC
    case EPIC => LEGENDARY
  }

  function DefaultMin(t: Tier): int {
    match t
    case JUNK => 0
    case COMMON => 5
    case UNCOMMON => 15
    case RARE => 40
    case EPIC => 120
    case LEGENDARY => 400
  }

  /** Default upper bound: above the tier's default lower bound, and the next tier's range starts where this one ends. */
  function DefaultMax(t: Tier): (hi: int)
    ensures DefaultMin(t) < hi
    ensures t != LEGENDARY ==> hi == DefaultMin(NextTier(t))
  {
    match t
    case JUNK => 5
    case COMMON => 15
    case UNCOMMON => 40
    case RARE => 120
    case EPIC => 400
    case LEGENDARY => 3000
  }

  function TierMin(cfg: Config, t: Tier): int {
    if t in cfg.tierMin then cfg.tierMin[t] else DefaultMin(t)
  }

  function TierMax(cfg: Config, t: Tier): int {
    if t in cfg.tierMax then cfg.tierMax[t] else DefaultMax(t)
  }

  /** `max - min + 1` does not overflow a Java int when generation has to draw. */
  predicate RangeFits(cfg: Config, t: Tier) {
    TierMin(cfg, t) >= TierMax(cfg, t) || TierMax(cfg, t) - TierMin(cfg, t) + 1 <= INT_MAX
  }

  function PriceSeed(cfg: Config): bv64 {
    cfg.priceSeed.GetOr(DEFAULT_SEED)
  }

  /** The low 64 bits of `n` in binary, as Java widens a non-negative int to a long. */
  function Bits(n: nat): bv64
    decreases n
  {
    if n == 0 then 0 else (Bits(n / 2) << 1) | (if n % 2 == 1 then 1 else 0)
  }

  /** The generator seed of item `m`: the configured seed XOR the item's ordinal. */
  function ItemSeed(cfg: Config, catalog: Catalog, m: string): bv64
    requires catalog.Valid() && catalog.Known(m)
  {
    PriceSeed(cfg) ^ Bits(catalog.Ordinal(m))
  }

  // ── The seed identifies the item ─────────────────────────────────────────

  function Pow2(k: nat): nat {
    if k == 0 then 1 else 2 * Pow2(k - 1)
  }

  /** The number the low `k` bits of `v` spell in binary. */
  function Unbits(v: bv64, k: nat): nat {
    if k == 0 then 0 else 2 * Unbits(v >> 1, k - 1) + (if v & 1 == 1 then 1 else 0)
  }

  /** The low bit `Bits` shifts in for `n`. */
  function LowBit(n: nat): bv64 {
    if n % 2 == 1 then 1 else 0
  }

  lemma BitsStep(n: nat)
    ensures Bits(n) == (Bits(n / 2) << 1) | LowBit(n)
  {
  }

  lemma ShiftInKeepsHighClear(x: bv64, b: bv64, k: bv8)
    requires 1 <= k <= 63 && b <= 1 && x >> (k - 1) == 0
    ensures ((x << 1) | b) >> k == 0
  {
  }

  /** Shifting one bit in at the bottom is undone by shifting back, when the top bit was clear. */
  lemma ShiftInUndone(x: bv64, b: bv64)
    requires b <= 1 && x >> 63 == 0
    ensures ((x << 1) | b) >> 1 == x
    ensures ((x << 1) | b) & 1 == b
  {
  }

  /** Below 2^k, `Bits` sets no bit at position k or above. */
  lemma {:induction false} BitsBelow(n: nat, k: bv8)
    requires k <= 63 && n < Pow2(k as nat)
    ensures Bits(n) >> k == 0
    decreases n
  {
    if n != 0 {
      assert (k - 1) as nat == k as nat - 1;
      BitsBelow(n / 2, k - 1);
      BitsStep(n);
      ShiftInKeepsHighClear(Bits(n / 2), LowBit(n), k);
    }
  }

  /** Half of a number below 2^64 has the top bit of its image clear. */
  lemma HalfTopClear(n: nat)
    requires n < Pow2(64)
    ensures Bits(n / 2) >> 63 == 0
  {
    assert Pow2(64) == 2 * Pow2(63);
    BitsBelow(n / 2, 63);
  }

  /** Reading the low `k` bits back gives the number: below 2^k and 2^64, `Unbits` undoes `Bits`. */
  lemma {:induction false} UnbitsBits(n: nat, k: nat)
    requires n < Pow2(k) && n < Pow2(64)
    ensures Unbits(Bits(n), k) == n
  {
    if k != 0 {
      HalfTopClear(n);
      BitsStep(n);
      ShiftInUndone(Bits(n / 2), LowBit(n));
      UnbitsBits(n / 2, k - 1);
    }
  }

  lemma {:induction false} Pow2Add(a: nat, b: nat)
    ensures Pow2(a + b) == Pow2(a) * Pow2(b)
  {
    if a != 0 {
      Pow2Add(a - 1, b);
    }
  }

  lemma Pow2Of64()
    ensures Pow2(64) == 0x1_0000_0000_0000_0000
  {
    assert Pow2(4) == 16;
    Pow2Add(4, 4);
    Pow2Add(8, 8);
    Pow2Add(16, 16);
    Pow2Add(32, 32);
  }

  /** Widening keeps numbers apart: below 2^64, two numbers have the same 64-bit image exactly when they are equal. */
  lemma BitsInjective(a: nat, b: nat)
    requires a < Pow2(64) && b < Pow2(64)
    ensures Bits(a) == Bits(b) <==> a == b
  {
    UnbitsBits(a, 64);
    UnbitsBits(b, 64);
  }

  /**
   * Under one configuration distinct items get distinct generator seeds:
   * the XOR with the configured seed cancels, and ordinals below 2^31
   * keep their 64-bit images apart.
   */
  lemma ItemSeedInjective(cfg: Config, catalog: Catalog, a: string, b: string)
    requires catalog.Valid() && catalog.Known(a) && catalog.Known(b)
    ensures ItemSeed(cfg, catalog, a) == ItemSeed(cfg, catalog, b) <==> a == b
  {
    var s, x, y := PriceSeed(cfg), Bits(catalog.Ordinal(a)), Bits(catalog.Ordinal(b));
    OrdinalInjective(catalog, a, b);
    Pow2Of64();
    BitsInjective(catalog.Ordinal(a), catalog.Ordinal(b));
    assert s ^ x ^ s == x && s ^ y ^ s == y;
  }

  // ── Generation ───────────────────────────────────────────────────────────

  /** A fresh price for `m` from its tier's bounds: `min` when the range is empty, otherwise a draw in [min, max]. */
  function GeneratePrice(cfg: Config, env: Env, m: string): (price: int)
    requires env.Valid() && env.catalog.Known(m)
    requires RangeFits(cfg, env.tiers(m))
    ensures TierMin(cfg, env.tiers(m)) >= TierMax(cfg, env.tiers(m)) ==> price == TierMin(cfg, env.tiers(m))
    ensures TierMin(cfg, env.tiers(m)) < TierMax(cfg, env.tiers(m)) ==>
      TierMin(cfg, env.tiers(m)) <= price <= TierMax(cfg, env.tiers(m))
  {
    var tier := env.tiers(m);
    var lo, hi := TierMin(cfg, tier), TierMax(cfg, tier);
    if lo >= hi then lo
    else lo + env.draw(ItemSeed(cfg, env.catalog, m), hi - lo + 1)
  }

  // ── The priority chain ───────────────────────────────────────────────────

  /** The query for `m` reaches generation: no usable override, not blacklisted, not cached. */
  predicate Generates(cfg: Config, cache: map<string, int>, m: string) {
    SpecialOverride(cfg, m) < 0 && !IsBlacklisted(cfg, m) && m !in cache
  }

  /** What the resolver may require of a query: generation, when reached, does not overflow. */
  predicate CanResolve(cfg: Config, env: Env, cache: map<string, int>, m: string) {
    env.catalog.Valid() && env.catalog.Known(m) && (Generates(cfg, cache, m) ==> RangeFits(cfg, env.tiers(m)))
  }

  /** The price a query for `m` returns when the cache holds `cache`. */
  function ResolvePrice(cfg: Config, env: Env, cache: map<string, int>, m: string): int
    requires env.Valid() && CanResolve(cfg, env, cache, m)
  {
    if SpecialOverride(cfg, m) >= 0 then SpecialOverride(cfg, m)
    else if IsBlacklisted(cfg, m) then 0
    else if m in cache then cache[m]
    else GeneratePrice(cfg, env, m)
  }

  /** The cache after a query for `m`: extended by the generated price on a miss, otherwise untouched. */
  function CacheAfter(cfg: Config, env: Env, cache: map<string, int>, m: string): map<string, int>
    requires env.Valid() && CanResolve(cfg, env, cache, m)
  {
    if Generates(cfg, cache, m) then cache[m := GeneratePrice(cfg, env, m)] else cache
  }

  // ── Properties of the chain ──────────────────────────────────────────────

  /** A non-negative override is returned verbatim, blacklisted or not, and the cache is not touched. */
  lemma OverrideWins(cfg: Config, env: Env, cache: map<string, int>, m: string)
    requires env.Valid() && CanResolve(cfg, env, cache, m)
    requires m in cfg.specialItems && cfg.specialItems[m] >= 0
    ensures ResolvePrice(cfg, env, cache, m) == cfg.specialItems[m]
    ensures CacheAfter(cfg, env, cache, m) == cache
  {
  }

  /** A negative override counts as an override for display but is otherwise as if it were absent. */
  lemma NegativeOverrideIgnored(cfg: Config, env: Env, cache: map<string, int>, m: string)
    requires env.Valid() && CanResolve(cfg, env, cache, m)
    requires m in cfg.specialItems && cfg.specialItems[m] < 0
    ensures HasSpecialOverride(cfg, m)
    ensures var without := cfg.(specialItems := cfg.specialItems - {m});
      && CanResolve(without, env, cache, m)
      && ResolvePrice(cfg, env, cache, m) == ResolvePrice(without, env, cache, m)
      && CacheAfter(cfg, env, cache, m) == CacheAfter(without, env, cache, m)
  {
    var without := cfg.(specialItems := cfg.specialItems - {m});
    assert SpecialOverride(without, m) == -1;
    SameBoundsSamePrice(cfg, without, env, m);
  }

  /** Generation reads only the tier bounds and the seed of the configuration. */
  lemma SameBoundsSamePrice(cfg1: Config, cfg2: Config, env: Env, m: string)
    requires cfg1.tierMin == cfg2.tierMin && cfg1.tierMax == cfg2.tierMax && cfg1.priceSeed == cfg2.priceSeed
    ensures RangeFits(cfg1, env.tiers(m)) == RangeFits(cfg2, env.tiers(m))
    ensures env.Valid() && env.catalog.Known(m) && RangeFits(cfg1, env.tiers(m)) ==>
      GeneratePrice(cfg1, env, m) == GeneratePrice(cfg2, env, m)
  {
    var t := env.tiers(m);
    assert TierMin(cfg1, t) == TierMin(cfg2, t) && TierMax(cfg1, t) == TierMax(cfg2, t);
    assert PriceSeed(cfg1) == PriceSeed(cfg2);
  }

  /** Without a usable override a blacklisted item is worth 0 and the cache is not touched. */
  lemma BlacklistedIsFree(cfg: Config, env: Env, cache: map<string, int>, m: string)
    requires env.Valid() && CanResolve(cfg, env, cache, m)
    requires IsBlacklisted(cfg, m) && SpecialOverride(cfg, m) < 0
    ensures ResolvePrice(cfg, env, cache, m) == 0
    ensures CacheAfter(cfg, env, cache, m) == cache
  {
  }

  /** Without override or blacklist entry a cached price is returned as stored and nothing is written. */
  lemma CacheHit(cfg: Config, env: Env, cache: map<string, int>, m: string)
    requires env.Valid() && CanResolve(cfg, env, cache, m)
    requires SpecialOverride(cfg, m) < 0 && !IsBlacklisted(cfg, m) && m in cache
    ensures ResolvePrice(cfg, env, cache, m) == cache[m]
    ensures CacheAfter(cfg, env, cache, m) == cache
  {
  }

  /** On a miss the generated price is stored under `m` and every other entry is kept. */
  lemma MissIsStored(cfg: Config, env: Env, cache: map<string, int>, m: string)
    requires env.Valid() && CanResolve(cfg, env, cache, m)
    requires Generates(cfg, cache, m)
    ensures var after := CacheAfter(cfg, env, cache, m);
      && m in after && after[m] == ResolvePrice(cfg, env, cache, m)
      && after[m] == GeneratePrice(cfg, env, m)
      && forall k :: k != m ==> (k in after <==> k in cache) && (k in cache ==> after[k] == cache[k])
  {
  }

  /**
   * Once queried, an item keeps its price: a second query under any
   * configuration that agrees on its override and blacklist entry, whatever
   * its tier bounds or seed, returns the same value.
   */
  lemma PriceIsStable(cfg1: Config, cfg2: Config, env: Env, cache: map<string, int>, m: string)
    requires env.Valid() && CanResolve(cfg1, env, cache, m)
    requires SpecialOverride(cfg2, m) == SpecialOverride(cfg1, m)
    requires IsBlacklisted(cfg2, m) == IsBlacklisted(cfg1, m)
    ensures var after := CacheAfter(cfg1, env, cache, m);
      && CanResolve(cfg2, env, after, m)
      && ResolvePrice(cfg2, env, after, m) == ResolvePrice(cfg1, env, cache, m)
      && CacheAfter(cfg2, env, after, m) == after
  {
  }

  /** Every cached price is the one `cfg` generates for its item, as after queries made only under `cfg`. */
  ghost predicate Regenerable(cfg: Config, env: Env, cache: map<string, int>) {
    forall k :: k in cache ==>
      && env.Valid() && env.catalog.Known(k) && RangeFits(cfg, env.tiers(k))
      && cache[k] == GeneratePrice(cfg, env, k)
  }

  /** Queries under one configuration keep the cache regenerable. */
  lemma QueryKeepsRegenerable(cfg: Config, env: Env, cache: map<string, int>, m: string)
    requires env.Valid() && CanResolve(cfg, env, cache, m)
    requires Regenerable(cfg, env, cache)
    ensures Regenerable(cfg, env, CacheAfter(cfg, env, cache, m))
  {
  }

  /**
   * Deterministic regeneration: when the cache was filled under `cfg`,
   * emptying it (a reload) and querying again under the same `cfg`
   * gives the price the item had before.
   */
  lemma RegeneratedAfterReload(cfg: Config, env: Env, cache: map<string, int>, m: string)
    requires env.Valid() && CanResolve(cfg, env, cache, m)
    requires Regenerable(cfg, env, cache)
    ensures CanResolve(cfg, env, map[], m)
    ensures ResolvePrice(cfg, env, map[], m) == ResolvePrice(cfg, env, cache, m)
  {
  }

  /**
   * `after` keeps every entry of `before` and adds only prices `cfg`
   * generates, as a run of queries under `cfg` leaves the cache.
   */
  ghost predicate ExtendsByGeneration(cfg: Config, env: Env, before: map<string, int>, after: map<string, int>) {
    && (forall k | k in before :: k in after && after[k] == before[k])
    && (forall k | k in after && k !in before ::
          env.Valid() && env.catalog.Known(k) && RangeFits(cfg, env.tiers(k))
          && after[k] == GeneratePrice(cfg, env, k))
  }

  /**
   * Queries made one after another under one configuration see the same
   * prices as the first of them: a cache grown by earlier queries answers
   * every item as the cache before them did, and one more query keeps it
   * an extension of that cache.
   */
  lemma ExtendedCacheSamePrice(cfg: Config, env: Env, before: map<string, int>, cache: map<string, int>, m: string)
    requires env.Valid() && CanResolve(cfg, env, before, m)
    requires ExtendsByGeneration(cfg, env, before, cache)
    ensures CanResolve(cfg, env, cache, m)
    ensures ResolvePrice(cfg, env, cache, m) == ResolvePrice(cfg, env, before, m)
    ensures ExtendsByGeneration(cfg, env, before, CacheAfter(cfg, env, cache, m))
    ensures Generates(cfg, before, m) ==> m in CacheAfter(cfg, env, cache, m)
  {
    if Generates(cfg, cache, m) {
      var after := CacheAfter(cfg, env, cache, m);
      assert m !in before;
      forall k | k in after && k !in before
        ensures env.catalog.Known(k) && RangeFits(cfg, env.tiers(k)) && after[k] == GeneratePrice(cfg, env, k)
      {
        if k != m {
          assert k in cache && after[k] == cache[k];
        }
      }
    } else if m !in before && SpecialOverride(cfg, m) < 0 && !IsBlacklisted(cfg, m) {
      assert m in cache && cache[m] == GeneratePrice(cfg, env, m);
    }
  }

  /** Generation depends on the item only through its tier bounds and its seed. */
  lemma GenerationDependsOnSeedAndBounds(cfg1: Config, cfg2: Config, env: Env, m1: string, m2: string)
    requires env.Valid() && env.catalog.Known(m1) && env.catalog.Known(m2)
    requires RangeFits(cfg1, env.tiers(m1)) && RangeFits(cfg2, env.tiers(m2))
    requires TierMin(cfg1, env.tiers(m1)) == TierMin(cfg2, env.tiers(m2))
    requires TierMax(cfg1, env.tiers(m1)) == TierMax(cfg2, env.tiers(m2))
    requires ItemSeed(cfg1, env.catalog, m1) == ItemSeed(cfg2, env.catalog, m2)
    ensures GeneratePrice(cfg1, env, m1) == GeneratePrice(cfg2, env, m2)
  {
  }

  /**
   * With no price-seed and no COMMON bounds configured, a COMMON item of
   * ordinal 42 draws with seed 0xDEADBEEF XOR 42 over the 11 values 5..15.
   */
  lemma DefaultCommonScenario(cfg: Config, env: Env, m: string)
    requires env.Valid() && env.catalog.Known(m)
    requires cfg.priceSeed == None && COMMON !in cfg.tierMin && COMMON !in cfg.tierMax
    requires env.tiers(m) == COMMON && env.catalog.Ordinal(m) == 42
    ensures ItemSeed(cfg, env.catalog, m) == 0xDEADBEC5
    ensures GeneratePrice(cfg, env, m) == 5 + env.draw(0xDEADBEC5, 11)
    ensures 5 <= GeneratePrice(cfg, env, m) <= 15
  {
  }

  class PriceService {
    const storage: PriceStorage
    /** The tier resolver the service was built with (`TierResolver.Resolve` in the plugin). */
    const tiers: string -> Tier
    const draw: Generator

    /** The catalog, tier resolver and generator this service prices with. */
    function Environment(): Env
      reads this
    {
      Env(storage.catalog, tiers, draw)
    }

    ghost predicate Valid()
      reads this, storage
    {
      storage.Valid() && Environment().Valid()
    }

    constructor (storage: PriceStorage, tiers: string -> Tier, draw: Generator)
      requires storage.Valid() && storage.catalog.Valid() && DrawsInRange(draw)
      ensures Valid() && this.storage == storage && this.tiers == tiers && this.draw == draw
    {
      this.storage := storage;
      this.tiers := tiers;
      this.draw := draw;
    }

    /** The price of `m` under configuration `cfg`; a generated price is cached before it is returned. */
    method GetPrice(cfg: Config, m: string) returns (price: int)
      requires Valid() && CanResolve(cfg, Environment(), storage.cache, m)
      modifies storage`cache, storage`pricesConfig
      ensures Valid()
      ensures price == ResolvePrice(cfg, Environment(), old(storage.cache), m)
      ensures storage.cache == CacheAfter(cfg, Environment(), old(storage.cache), m)
      ensures storage.pricesConfig ==
        if Generates(cfg, old(storage.cache), m) then old(storage.pricesConfig)[m := price]
        else old(storage.pricesConfig)
    {
      var override := SpecialOverride(cfg, m);
      if override >= 0 {
        return override;
      }
      if IsBlacklisted(cfg, m) {
        return 0;
      }
      if storage.Has(m) {
        return storage.Get(m);
      }
      price := GeneratePrice(cfg, Environment(), m);
      storage.Set(m, price);
    }

    /**
     * Empties the cache and deletes prices.yml, so that later queries
     * generate again; `deleteFails` is a failed deletion, as in `ClearCache`.
     */
    method Reload(deleteFails: bool)
      requires Valid()
      modifies storage`cache, storage`pricesConfig, storage.folder
      ensures Valid()
      ensures storage.cache == map[] && storage.pricesConfig == map[]
      ensures storage.folder.pricesFile == if deleteFails then old(storage.folder.pricesFile) else None
    {
      storage.ClearCache(deleteFails);
    }
  }
}
