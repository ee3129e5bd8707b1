/**
 * The durable price cache: an in-memory map from item name to price, kept
 * beside `pricesConfig`, the in-memory image of prices.yml that `Set`
 * writes through and `SaveToDisk` flushes to the data folder.
 */
module PriceStorage {
  import opened Wrappers
  import opened Materials

  /** The plugin's data folder; `pricesFile` holds the entries of prices.yml, None when the file does not exist. */
  class DataFolder {
    var pricesFile: Option<map<string, int>>

    constructor (pricesFile: Option<map<string, int>>)
      ensures this.pricesFile == pricesFile
    {
      this.pricesFile := pricesFile;
    }
  }

  /** The cache that loading `file` produces: its entries whose key names a known item, unknown keys skipped. */
  function LoadedCache(catalog: Catalog, file: Option<map<string, int>>): (cache: map<string, int>)
    ensures file.None? ==> cache == map[]
    ensures forall m :: m in cache <==> file.Some? && m in file.value && catalog.Known(m)
    ensures forall m :: m in cache ==> cache[m] == file.value[m]
  {
    match file
    case None => map[]
    case Some(entries) => map m | m in entries && catalog.Known(m) :: entries[m]
  }

  /** Every cached entry is mirrored in `mirror`, and every known entry of `mirror` is cached. */
  ghost predicate Mirrors(catalog: Catalog, cache: map<string, int>, mirror: map<string, int>) {
    && (forall m :: m in cache ==> catalog.Known(m) && m in mirror && mirror[m] == cache[m])
    && (forall m :: m in mirror && catalog.Known(m) ==> m in cache)
  }

  /** Reading back a mirror yields exactly the cache it mirrors; unknown keys in it are dropped again. */
  lemma SaveLoadRoundTrip(catalog: Catalog, cache: map<string, int>, mirror: map<string, int>)
    requires Mirrors(catalog, cache, mirror)
    ensures LoadedCache(catalog, Some(mirror)) == cache
  {
    var loaded := LoadedCache(catalog, Some(mirror));
    assert loaded.Keys == cache.Keys;
    forall m | m in cache
      ensures loaded[m] == cache[m]
    {
    }
  }

  /**
   * The prices.yml image after the cache grew from `before` to `after`
   * through `set`: each new cache entry is written through, and every
   * other entry of the image, known item or not, is kept.
   */
  function WrittenThrough(mirror: map<string, int>, before: map<string, int>, after: map<string, int>): map<string, int> {
    mirror + (map k | k in after && k !in before :: after[k])
  }

  /** When the cache did not grow, the image is unchanged. */
  lemma WrittenThroughNothing(mirror: map<string, int>, cache: map<string, int>)
    ensures WrittenThrough(mirror, cache, cache) == mirror
  {
    assert WrittenThrough(mirror, cache, cache).Keys == mirror.Keys;
  }

  /** When the cache gained one entry, the image gains that entry. */
  lemma WrittenThroughOne(mirror: map<string, int>, cache: map<string, int>, m: string, price: int)
    requires m !in cache
    ensures WrittenThrough(mirror, cache, cache[m := price]) == mirror[m := price]
  {
    assert (map k | k in cache[m := price] && k !in cache :: cache[m := price][k]) == map[m := price];
  }

  /** Writing through in two steps is writing through once, when the cache only grows. */
  lemma WrittenThroughTwice(mirror: map<string, int>, c0: map<string, int>, c1: map<string, int>, c2: map<string, int>)
    requires forall k | k in c0 :: k in c1
    requires forall k | k in c1 :: k in c2 && c2[k] == c1[k]
    ensures WrittenThrough(WrittenThrough(mirror, c0, c1), c1, c2) == WrittenThrough(mirror, c0, c2)
  {
    var lhs, rhs := WrittenThrough(WrittenThrough(mirror, c0, c1), c1, c2), WrittenThrough(mirror, c0, c2);
    assert lhs.Keys == rhs.Keys;
    forall k | k in lhs
      ensures lhs[k] == rhs[k]
    {
      if k in c1 && k !in c0 {
        assert lhs[k] == c1[k] == c2[k];
      }
    }
  }

  class PriceStorage {
    const catalog: Catalog
    const folder: DataFolder
    var cache: map<string, int>
    /** The in-memory image of prices.yml, including keys that name no known item. */
    var pricesConfig: map<string, int>

    ghost predicate Valid()
      reads this
    {
      Mirrors(catalog, cache, pricesConfig)
    }

    /** Creates the store and loads prices.yml from `folder`. */
    constructor (catalog: Catalog, folder: DataFolder)
      ensures Valid()
      ensures this.catalog == catalog && this.folder == folder
      ensures cache == LoadedCache(catalog, folder.pricesFile)
      ensures pricesConfig == folder.pricesFile.GetOr(map[])
    {
      this.catalog := catalog;
      this.folder := folder;
      cache := map[];
      pricesConfig := map[];
      new;
      LoadFromDisk();
    }

    predicate Has(m: string)
      reads this
    {
      m in cache
    }

    /** The cached price, 0 when `m` has none. */
    function Get(m: string): (price: int)
      reads this
      ensures Has(m) ==> price == cache[m]
      ensures !Has(m) ==> price == 0
    {
      if m in cache then cache[m] else 0
    }

    /** Caches `price` for `m` and writes it through to the prices.yml image. */
    method Set(m: string, price: int)
      requires Valid() && catalog.Known(m)
      modifies this`cache, this`pricesConfig
      ensures Valid()
      ensures cache == old(cache)[m := price] && pricesConfig == old(pricesConfig)[m := price]
      ensures Has(m) && Get(m) == price
      ensures forall k :: k != m ==> Has(k) == old(Has(k)) && Get(k) == old(Get(k))
    {
      cache := cache[m := price];
      pricesConfig := pricesConfig[m := price];
    }

    /**
     * Writes the prices.yml image to the data folder.  `writeFails` stands for
     * the IOException the write may raise; it is logged and nothing changes.
     */
    method SaveToDisk(writeFails: bool)
      modifies folder
      ensures unchanged(this)
      ensures folder.pricesFile == if writeFails then old(folder.pricesFile) else Some(pricesConfig)
    {
      if !writeFails {
        folder.pricesFile := Some(pricesConfig);
      }
    }

    /**
     * Empties the cache and the prices.yml image and deletes the file.
     * `deleteFails` stands for `File.delete` returning false, which the
     * source ignores: the file then stays on disk as it was.
     */
    method ClearCache(deleteFails: bool)
      modifies this`cache, this`pricesConfig, folder
      ensures Valid()
      ensures cache == map[] && pricesConfig == map[]
      ensures folder.pricesFile == if deleteFails then old(folder.pricesFile) else None
      ensures forall m :: !Has(m)
    {
      cache := map[];
      pricesConfig := map[];
      if !deleteFails {
        folder.pricesFile := None;
      }
    }

    /** Loads prices.yml when it exists, caching each entry whose key is a known item name. */
    method LoadFromDisk()
      requires cache == map[]
      modifies this`cache, this`pricesConfig
      ensures Valid()
      ensures cache == LoadedCache(catalog, folder.pricesFile)
      ensures pricesConfig == folder.pricesFile.GetOr(map[])
    {
      if folder.pricesFile.None? {
        pricesConfig := map[];
        return;
      }
      pricesConfig := folder.pricesFile.value;
      var keys := pricesConfig.Keys;
      while keys != {}
        invariant keys <= pricesConfig.Keys
        invariant pricesConfig == folder.pricesFile.value
        invariant forall m :: m in cache <==> m in pricesConfig.Keys - keys && catalog.Known(m)
        invariant forall m :: m in cache ==> cache[m] == pricesConfig[m]
        decreases keys
      {
        var key :| key in keys;
        if catalog.Known(key) {
          cache := cache[key := pricesConfig[key]];
        }
        keys := keys - {key};
      }
      assert cache.Keys == LoadedCache(catalog, folder.pricesFile).Keys;
    }
  }

  /** Saving and then constructing a new store on the same data folder gives back the same cache. */
  method SaveAndReopen(s: PriceStorage) returns (reopened: PriceStorage)
    requires s.Valid()
    modifies s.folder
    ensures reopened.Valid() && reopened.catalog == s.catalog
    ensures reopened.cache == s.cache
    ensures forall m :: reopened.Has(m) == s.Has(m) && reopened.Get(m) == s.Get(m)
  {
    s.SaveToDisk(false);
    reopened := new PriceStorage(s.catalog, s.folder);
    SaveLoadRoundTrip(s.catalog, s.cache, s.pricesConfig);
  }
}
