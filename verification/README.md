# Worth Items pricing model

This is a Dafny model of the pricing core of the Worth Items server plugin. The plugin gives every item type a sell price.

- **Classifier.** An item type is classified into one of six tiers: JUNK, COMMON, UNCOMMON, RARE, EPIC or LEGENDARY. Three explicit sets decide first. After them comes an ordered chain of name tests, and the default is COMMON.
- **Price resolution.** A query for a price follows a priority chain:
  1. a non-negative special override from the configuration,
  2. then the blacklist (price 0),
  3. then the price cache,
  4. and finally generation.

  Generation draws from the tier's `[min, max]` range. The draw is seeded with the configured price seed XOR the item's ordinal, and the generated price is cached.
- **Price store.** The cache is kept beside an in-memory image of `prices.yml` that can be saved, cleared and reloaded.
- **Worth tag.** The tag is stored on an item as an integer under the "worth" data key plus one "Worth: " lore line.
- **Inventory listener.** Its helpers tag one item, tag a whole inventory, and merge the stacks of one item type into full stacks. Every merged stack is a copy of the first tagged stack.

Modules, in dependency order:

| file | module | source |
|---|---|---|
| `wrappers.dfy` | `Wrappers` | `Option`, standing for Java's `null` |
| `materials.dfy` | `Materials` | the `Material` enumeration: names, ordinals, `isAir` |
| `tier_resolver.dfy` | `TierResolver` | `TierResolver.java` |
| `price_storage.dfy` | `PriceStorage` | `PriceStorage.java` |
| `price_service.dfy` | `PriceService` | `PriceService.java`; the configuration reads of `ConfigUtil.java` |
| `item_util.dfy` | `ItemUtil` | `ItemUtil.java` |
| `inventory.dfy` | `Inventory` | the player inventory's `getContents`, `remove` and `addItem` |
| `inventory_listener.dfy` | `InventoryListener` | `InventoryListener.java`: `applyWorth`, `tagAll`, `consolidate` |

How the model is shaped:

- **Pure code becomes functions.** `resolve`, `generatePrice`, `defaultMin`/`defaultMax`, `formatName`'s result and the worth tag are functions on values.
- **State-changing code keeps its form.**
  - `PriceStorage`, `PriceService`, `ItemStack` and the player inventory are classes.
  - `getPrice`, `applyPriceLore`, `applyWorth`, `tagAll` and `consolidate` are methods with their loops.
  - Each method is proved against a function of the old state: `ResolvePrice`/`CacheAfter`, `AppliedMeta`, `TaggedMeta`, `Consolidated`.
  - The source's properties are then proved about those functions.
- **The configuration** is a `Config` value passed to each call. It holds the special items, blacklist, tier bounds, seed, lore switch and currency symbol. The source re-reads the live configuration on every call.
- **The service's environment** is `Env`. It holds the item catalogue, the tier resolver the service was built with, and the random generator. The plugin passes `TierResolver.Resolve` as the tier resolver.

## Model

All source paths are relative to `src/main/java/me/abdoabk/worth_items/`; the cells below write them out in full.

| member | source | states |
|---|---|---|
| Materials.Catalog.Ordinal | src/main/java/me/abdoabk/worth_items/pricing/PriceService.java:96 | the ordinal is a position in the catalogue holding that name, and the first such position |
| Materials.OrdinalInjective | src/main/java/me/abdoabk/worth_items/pricing/PriceService.java:92-96 | in a catalogue of distinct names two items have the same ordinal exactly when they are the same item |
| Materials.OrdinalOfPosition | src/main/java/me/abdoabk/worth_items/pricing/PriceService.java:96 | the item at position i has ordinal i |
| TierResolver.Resolve | src/main/java/me/abdoabk/worth_items/pricing/TierResolver.java:67-115 | the classifier itself, as the if-chain of the source; what it returns is stated by ResolveFollowsRules, ResolveIsFirstMatchingRule, ExplicitSetsDecideFirst and the named-item lemmas below |
| TierResolver.MatchesAny | src/main/java/me/abdoabk/worth_items/pricing/TierResolver.java:117-122 | some pattern occurs in the name; MatchesTwo states it for two patterns |
| TierResolver.MatchesTwo | src/main/java/me/abdoabk/worth_items/pricing/TierResolver.java:117-122 | `matchesAny` over two patterns holds exactly when the name contains one of them |
| TierResolver.ExplicitSetsDisjoint | src/main/java/me/abdoabk/worth_items/pricing/TierResolver.java:18-65 | no item is in two of the LEGENDARY, EPIC and JUNK sets |
| TierResolver.ExplicitSetsDecideFirst | src/main/java/me/abdoabk/worth_items/pricing/TierResolver.java:70-72 | membership in the LEGENDARY, EPIC or JUNK set gives that tier, whatever the name contains |
| TierResolver.ResolveFollowsRules | src/main/java/me/abdoabk/worth_items/pricing/TierResolver.java:67-115 | the if-chain classifier equals an independent first-match evaluation of a table of 19 (test, tier) rules, with COMMON when none matches |
| TierResolver.FirstMatchFromNames | src/main/java/me/abdoabk/worth_items/pricing/TierResolver.java:79-89 | rules 3 to 10 of the table read as the netherite, diamond, gold, iron, chainmail, tool-prefix, ancient-debris and emerald tests in that order |
| TierResolver.FirstMatchFromChainmail | src/main/java/me/abdoabk/worth_items/pricing/TierResolver.java:83-89 | rules 7 to 10 of the table read as the chainmail, tool-prefix, ancient-debris and emerald tests |
| TierResolver.FirstMatchFromOres | src/main/java/me/abdoabk/worth_items/pricing/TierResolver.java:90-114 | the remaining rules read as the ore, storage-block, food, natural-block and clay tests, then COMMON |
| TierResolver.FirstMatchPicksFirst | src/main/java/me/abdoabk/worth_items/pricing/TierResolver.java:67-115 | the first matching rule decides the tier, whatever later rules say |
| TierResolver.FirstMatchDefault | src/main/java/me/abdoabk/worth_items/pricing/TierResolver.java:113-114 | when no rule from position i on matches, the tier is COMMON |
| TierResolver.ResolveIsFirstMatchingRule | src/main/java/me/abdoabk/worth_items/pricing/TierResolver.java:67-115 | the classifier returns the tier of the first rule the name matches |
| TierResolver.ResolveDefaultsToCommon | src/main/java/me/abdoabk/worth_items/pricing/TierResolver.java:113-114 | a name no rule matches is COMMON |
| TierResolver.EnchantedGoldenAppleIsEpic | src/main/java/me/abdoabk/worth_items/pricing/TierResolver.java:71-81 | ENCHANTED_GOLDEN_APPLE matches the gold rule yet is EPIC, because the EPIC set is checked first |
| TierResolver.NetheriteBeforeDiamondAndGold | src/main/java/me/abdoabk/worth_items/pricing/TierResolver.java:79-81 | outside the sets, a name containing NETHERITE is EPIC even if it also contains DIAMOND or GOLD |
| TierResolver.NetheriteSpearIsEpic | src/main/java/me/abdoabk/worth_items/pricing/TierResolver.java:43-44 | NETHERITE_SPEAR is not in the EPIC set, but the name test still makes it EPIC |
| TierResolver.DiamondIsRare | src/main/java/me/abdoabk/worth_items/pricing/TierResolver.java:80 | outside the sets, a name with DIAMOND and without NETHERITE is RARE |
| TierResolver.GoldOrIronIsUncommon | src/main/java/me/abdoabk/worth_items/pricing/TierResolver.java:81-82 | outside the sets, a name with GOLD or IRON and with neither NETHERITE nor DIAMOND is UNCOMMON |
| TierResolver.ToolPrefixIsCommon | src/main/java/me/abdoabk/worth_items/pricing/TierResolver.java:84-85 | a WOODEN_, STONE_ or LEATHER_ name that no earlier test caught is COMMON |
| TierResolver.GoldenContainsGold | src/main/java/me/abdoabk/worth_items/pricing/TierResolver.java:81 | every name containing GOLDEN contains GOLD, so the GOLDEN test never decides anything |
| TierResolver.StorageBlockRulesShadowed | src/main/java/me/abdoabk/worth_items/pricing/TierResolver.java:94-96 | every name the DIAMOND_BLOCK, IRON_BLOCK or GOLD_BLOCK rule matches is already matched by an earlier rule, so those rules never decide |
| TierResolver.GoldOreIsUncommon | src/main/java/me/abdoabk/worth_items/pricing/TierResolver.java:81-90 | GOLD_ORE matches the ore list yet is UNCOMMON, because the gold test comes first |
| TierResolver.IronOreIsUncommon | src/main/java/me/abdoabk/worth_items/pricing/TierResolver.java:82-90 | IRON_ORE matches the ore list yet is UNCOMMON, because the iron test comes first |
| PriceStorage.LoadedCache | src/main/java/me/abdoabk/worth_items/pricing/PriceStorage.java:68-84 | loading gives an empty cache when there is no file; otherwise exactly the file's entries whose key names a known item, with their values |
| PriceStorage.SaveLoadRoundTrip | src/main/java/me/abdoabk/worth_items/pricing/PriceStorage.java:47-84 | loading a saved mirror yields the cache it mirrors; unknown keys are dropped again |
| PriceStorage.PriceStorage.constructor | src/main/java/me/abdoabk/worth_items/pricing/PriceStorage.java:29-32 | a new store holds what loading the data folder's prices file gives, and the cache/mirror invariant holds |
| PriceStorage.PriceStorage.Has | src/main/java/me/abdoabk/worth_items/pricing/PriceStorage.java:34-36 | the item has a cached price; Set, ClearCache and SaveAndReopen state how it changes |
| PriceStorage.PriceStorage.Get | src/main/java/me/abdoabk/worth_items/pricing/PriceStorage.java:38-40 | the cached price, or 0 for an absent key |
| PriceStorage.PriceStorage.Set | src/main/java/me/abdoabk/worth_items/pricing/PriceStorage.java:42-45 | afterwards `has(m)` holds and `get(m)` is the price; every other key keeps its entry; the mirror keeps the cache |
| PriceStorage.PriceStorage.SaveToDisk | src/main/java/me/abdoabk/worth_items/pricing/PriceStorage.java:47-53 | the file becomes the mirror; a save that fails before the file is opened leaves it as it was; cache and mirror are never changed |
| PriceStorage.PriceStorage.ClearCache | src/main/java/me/abdoabk/worth_items/pricing/PriceStorage.java:60-64 | cache and mirror are empty and `has` is false for every item; the file is gone unless its deletion fails, which leaves it as it was |
| PriceStorage.PriceStorage.LoadFromDisk | src/main/java/me/abdoabk/worth_items/pricing/PriceStorage.java:68-84 | the loop over the file's keys fills the cache with exactly what loading gives; the mirror is the file, or empty without one |
| PriceStorage.SaveAndReopen | src/main/java/me/abdoabk/worth_items/pricing/PriceStorage.java:29-53 | saving and then building a new store on the same folder gives the same `has` and `get` for every item |
| PriceService.SpecialOverride | src/main/java/me/abdoabk/worth_items/pricing/PriceService.java:77-81 | the configured override, or -1 when the item has none; OverrideWins and NegativeOverrideIgnored state how the chain uses it |
| PriceService.HasSpecialOverride | src/main/java/me/abdoabk/worth_items/pricing/PriceService.java:64-67 | the item has an entry under special-items, whatever its value; NegativeOverrideIgnored shows that a negative entry counts here but not for the price |
| PriceService.IsBlacklisted | src/main/java/me/abdoabk/worth_items/pricing/PriceService.java:70-73 | the item's name is in the blacklist; BlacklistedIsFree states its effect on the price |
| PriceService.DefaultMin | src/main/java/me/abdoabk/worth_items/pricing/PriceService.java:101-110 | the default lower bound of each tier; DefaultMax relates it to the upper bounds |
| PriceService.DefaultMax | src/main/java/me/abdoabk/worth_items/pricing/PriceService.java:101-121 | each default range is non-empty, and each tier's default maximum is the next tier's default minimum |
| PriceService.GeneratePrice | src/main/java/me/abdoabk/worth_items/pricing/PriceService.java:83-99 | with min >= max the price is exactly min; otherwise it lies in [min, max] |
| PriceService.ItemSeed | src/main/java/me/abdoabk/worth_items/pricing/PriceService.java:96 | the configured seed, or 0xDEADBEEF, XOR the item's ordinal widened to 64 bits; ItemSeedInjective and DefaultCommonScenario state its properties |
| PriceService.BitsInjective | src/main/java/me/abdoabk/worth_items/pricing/PriceService.java:96 | widening an ordinal to a Java `long` loses nothing: below 2^64 two numbers have the same 64-bit image exactly when they are equal |
| PriceService.ItemSeedInjective | src/main/java/me/abdoabk/worth_items/pricing/PriceService.java:92-96 | under one configuration two items get the same generator seed exactly when they are the same item |
| PriceService.ResolvePrice | src/main/java/me/abdoabk/worth_items/pricing/PriceService.java:38-53 | the price `getPrice` returns for a given cache; the lemmas OverrideWins to ExtendedCacheSamePrice state its properties, and PriceService.PriceService.GetPrice is proved against it |
| PriceService.CacheAfter | src/main/java/me/abdoabk/worth_items/pricing/PriceService.java:46-52 | the cache after `getPrice`: extended by the generated price on a miss, otherwise unchanged; MissIsStored, CacheHit and QueryKeepsRegenerable state its properties |
| PriceService.OverrideWins | src/main/java/me/abdoabk/worth_items/pricing/PriceService.java:40-41 | a non-negative override is returned as is, blacklisted or not, and the cache is not touched |
| PriceService.NegativeOverrideIgnored | src/main/java/me/abdoabk/worth_items/pricing/PriceService.java:64-81 | a negative override still counts for `hasSpecialOverride`, but the price and cache are as if it were absent |
| PriceService.SameBoundsSamePrice | src/main/java/me/abdoabk/worth_items/pricing/PriceService.java:83-98 | generation reads only the tier bounds and the seed: two configurations that agree on them generate the same price |
| PriceService.BlacklistedIsFree | src/main/java/me/abdoabk/worth_items/pricing/PriceService.java:43-44 | without a usable override a blacklisted item costs 0 and the cache is not touched |
| PriceService.CacheHit | src/main/java/me/abdoabk/worth_items/pricing/PriceService.java:46-47 | a cached price is returned as stored and nothing is written |
| PriceService.MissIsStored | src/main/java/me/abdoabk/worth_items/pricing/PriceService.java:49-52 | on a miss the generated price is stored under the item and returned; every other entry is kept |
| PriceService.PriceIsStable | src/main/java/me/abdoabk/worth_items/pricing/PriceService.java:34-53 | after one query, a second one returns the same price and writes nothing, under any configuration with the same override and blacklist entry for the item, whatever its tier bounds or seed |
| PriceService.QueryKeepsRegenerable | src/main/java/me/abdoabk/worth_items/pricing/PriceService.java:38-53 | queries under one configuration keep every cached price equal to what that configuration generates |
| PriceService.RegeneratedAfterReload | src/main/java/me/abdoabk/worth_items/pricing/PriceStorage.java:55-64 | after the cache is emptied, a query under the same configuration gives the price the item had before |
| PriceService.ExtendedCacheSamePrice | src/main/java/me/abdoabk/worth_items/pricing/PriceService.java:38-53 | a cache grown by generation under one configuration answers every query with the price the earlier cache gave, and stays grown by generation only |
| PriceService.GenerationDependsOnSeedAndBounds | src/main/java/me/abdoabk/worth_items/pricing/PriceService.java:92-98 | two items with equal bounds and equal generator seed get the same price |
| PriceService.DefaultCommonScenario | src/main/java/me/abdoabk/worth_items/pricing/PriceService.java:96-115 | with the default seed and bounds, COMMON item 42 gets seed 0xDEADBEC5 and a price of 5 plus a draw below 11, so in [5, 15] |
| PriceService.PriceService.constructor | src/main/java/me/abdoabk/worth_items/pricing/PriceService.java:28-32 | the service keeps the store, the tier resolver and the generator it is given |
| PriceService.PriceService.GetPrice | src/main/java/me/abdoabk/worth_items/pricing/PriceService.java:38-53 | returns what the priority chain gives on the old cache; the cache and mirror grow only on a miss, by the returned price |
| PriceService.PriceService.Reload | src/main/java/me/abdoabk/worth_items/pricing/PriceService.java:59-61 | cache and mirror are emptied, and the file is deleted unless the deletion fails |
| ItemUtil.ItemMetaOf | src/main/java/me/abdoabk/worth_items/util/ItemUtil.java:71-72 | an item has no meta exactly when it is air |
| ItemUtil.HasWorth | src/main/java/me/abdoabk/worth_items/util/ItemUtil.java:42-61 | the item exists, has meta, and carries the worth key or a lore line starting with "Worth: " once colours are stripped; ApplyChangesExactlyWhen and WorthLineRecognised use it |
| ItemUtil.GetWorth | src/main/java/me/abdoabk/worth_items/util/ItemUtil.java:96-102 | the integer under the worth key, or 0 without item, meta or entry; ApplyPriceLore states that it is the price after a tag |
| ItemUtil.AppliedMeta | src/main/java/me/abdoabk/worth_items/util/ItemUtil.java:67-90 | the meta `applyPriceLore` leaves; ApplyChangesExactlyWhen, ApplyAppendsOneLine and ApplyIdempotent state its properties, and ItemUtil.ApplyPriceLore is proved against it |
| ItemUtil.ApplyPriceLore | src/main/java/me/abdoabk/worth_items/util/ItemUtil.java:67-90 | type and amount are kept and the meta becomes the applied tag; for a non-air, untagged item with a positive price, afterwards `hasWorth` holds and `getWorth` is the price |
| ItemUtil.WorthLineRecognised | src/main/java/me/abdoabk/worth_items/util/ItemUtil.java:85-86 | the appended line starts with "Worth: " once colours are stripped, so the lore alone marks the item as tagged |
| ItemUtil.ApplyChangesExactlyWhen | src/main/java/me/abdoabk/worth_items/util/ItemUtil.java:68-74 | the meta changes if and only if the item is not air, the price is positive and it is not tagged yet |
| ItemUtil.ApplyAppendsOneLine | src/main/java/me/abdoabk/worth_items/util/ItemUtil.java:77-89 | a successful application stores the price under the worth key and appends exactly one line after the existing lines, in their order |
| ItemUtil.ApplyIdempotent | src/main/java/me/abdoabk/worth_items/util/ItemUtil.java:63-74 | applying the tag again, with any price and currency, changes nothing |
| ItemUtil.FormatName | src/main/java/me/abdoabk/worth_items/util/ItemUtil.java:108-117 | the word-by-word loop yields `FormattedName`; for a name without blanks this is the capitalised words joined by single spaces, with nothing around them |
| ItemUtil.BuildIsJoinPlusSpace | src/main/java/me/abdoabk/worth_items/util/ItemUtil.java:110-115 | the builder holds the capitalised words joined by single spaces, plus one trailing space |
| ItemUtil.FormatNameJoinsWords | src/main/java/me/abdoabk/worth_items/util/ItemUtil.java:108-117 | when no word is empty, the display name is the capitalised words joined by single spaces |
| ItemUtil.SplitAllFirstPiece | src/main/java/me/abdoabk/worth_items/util/ItemUtil.java:109 | splitting at '_' yields the text before the first separator, then the pieces of the rest |
| ItemUtil.WhiteWoolExample | src/main/java/me/abdoabk/worth_items/util/ItemUtil.java:104-106 | WHITE_WOOL is shown as "White Wool" |
| Inventory.View | src/main/java/me/abdoabk/worth_items/listener/InventoryListener.java:131 | each slot reads as empty exactly when it holds no stack, otherwise as that stack's type, amount and meta |
| Inventory.FirstEmpty | src/main/java/me/abdoabk/worth_items/listener/InventoryListener.java:153 | the slot `addItem` fills is empty and all slots before it are taken |
| Inventory.RemovedCounts | src/main/java/me/abdoabk/worth_items/listener/InventoryListener.java:147 | after `remove(material)` none of it is left, and every slot that held it is empty |
| Inventory.PlayerInventory.Remove | src/main/java/me/abdoabk/worth_items/listener/InventoryListener.java:147 | every slot holding the material is emptied and every other slot keeps its stack |
| Inventory.PlayerInventory.AddItem | src/main/java/me/abdoabk/worth_items/listener/InventoryListener.java:153 | the stack goes into the first empty slot, nothing else changes, and the amount is left over when there is no empty slot |
| InventoryListener.TaggedMeta | src/main/java/me/abdoabk/worth_items/listener/InventoryListener.java:158-168 | the meta `applyWorth` leaves; TagChangesExactlyWhen, TagRecordsPrice, TagIdempotent and TagOnExtendedCache state its properties |
| InventoryListener.CacheAfterTag | src/main/java/me/abdoabk/worth_items/listener/InventoryListener.java:158-168 | the price cache after `applyWorth`: grown only when the price is asked for; TagIdempotent and TagOnExtendedCache state its properties |
| InventoryListener.TagChangesExactlyWhen | src/main/java/me/abdoabk/worth_items/listener/InventoryListener.java:158-168 | `applyWorth` changes the item if and only if it is not air, lore is on, its type is not blacklisted, it is untagged and its price is positive |
| InventoryListener.TagRecordsPrice | src/main/java/me/abdoabk/worth_items/listener/InventoryListener.java:164-167 | a tagged item holds the queried price under the worth key, with the old lore followed by the worth line in the configured currency |
| InventoryListener.TagIdempotent | src/main/java/me/abdoabk/worth_items/listener/InventoryListener.java:158-168 | tagging an item a second time changes neither the item nor the cache |
| InventoryListener.TagOnExtendedCache | src/main/java/me/abdoabk/worth_items/listener/InventoryListener.java:124-128 | tagging against a cache grown by earlier tagging gives what tagging against the earlier cache gives |
| InventoryListener.ApplyWorth | src/main/java/me/abdoabk/worth_items/listener/InventoryListener.java:158-168 | the item's meta becomes `TaggedMeta` of the old cache and its type and amount are kept; the cache becomes `CacheAfterTag`, keeping every old entry and gaining at most the item's own type; the prices.yml image gains exactly the new cache entries and keeps all else, unknown keys included |
| InventoryListener.TagAll | src/main/java/me/abdoabk/worth_items/listener/InventoryListener.java:124-128 | each slot's stack ends as if it had been tagged alone against the cache from before the call, with type and amount kept; the cache only gains generated prices, and only for types some slot holds; the prices.yml image gains exactly the new cache entries and keeps all else |
| PriceStorage.WrittenThrough | src/main/java/me/abdoabk/worth_items/pricing/PriceStorage.java:42-45 | the prices.yml image after the cache grew through `set`: the new entries written over the old image, every other key kept; InventoryListener.ApplyWorth and InventoryListener.TagAll state their effect on the image with it |
| InventoryListener.FirstTagged | src/main/java/me/abdoabk/worth_items/listener/InventoryListener.java:135-141 | the result is the stack of the first slot holding a tagged stack of the material, and none exactly when no slot holds one |
| InventoryListener.Consolidated | src/main/java/me/abdoabk/worth_items/listener/InventoryListener.java:130-156 | the inventory `consolidate` leaves; ConsolidateKeepsOthers, ConsolidatedStacksAreCopies and ConsolidateConserves state its properties, and InventoryListener.Consolidate is proved against it |
| InventoryListener.ChunksShape | src/main/java/me/abdoabk/worth_items/listener/InventoryListener.java:149-154 | the re-added amounts sum to the total, each is between 1 and the maximum stack size, and all but the last are full |
| InventoryListener.ChunksCount | src/main/java/me/abdoabk/worth_items/listener/InventoryListener.java:150-155 | the merge loop runs ceil(total / max) times |
| InventoryListener.ConsolidateKeepsOthers | src/main/java/me/abdoabk/worth_items/listener/InventoryListener.java:136-147 | stacks of other types keep their slot and their contents |
| InventoryListener.ConsolidatedStacksAreCopies | src/main/java/me/abdoabk/worth_items/listener/InventoryListener.java:138-151 | after a merge every stack of the material is the first tagged stack with 1 to max items, so it carries the worth tag |
| InventoryListener.ConsolidateConserves | src/main/java/me/abdoabk/worth_items/listener/InventoryListener.java:132-155 | when every stack of the material holds 1 to max items, the merge keeps the material's total count |
| InventoryListener.Survey | src/main/java/me/abdoabk/worth_items/listener/InventoryListener.java:132-143 | the first loop sums the material's amounts and yields a fresh one-item copy of its first tagged stack, or none |
| InventoryListener.AddStacks | src/main/java/me/abdoabk/worth_items/listener/InventoryListener.java:149-155 | the second loop places one copy of the template per chunk, each as `addItem` would |
| InventoryListener.Consolidate | src/main/java/me/abdoabk/worth_items/listener/InventoryListener.java:130-156 | the inventory is unchanged when no stack of the material is tagged or the total is 0; otherwise every stack of it is removed and the total is re-added as copies of the first tagged stack |

## Left out

- `java.util.Random` is a `Generator` parameter. It is deterministic and assumed to draw in `[0, bound)` (`DrawsInRange`); the 48-bit generator itself is not modelled.
- Reading `config.yml` and `prices.yml` (YAML parsing, `getInt` on non-integer values, file existence) is not modelled. The configuration is a `Config` value, and the prices file is an optional map held by `DataFolder`.
- Logging (the warning on a failed save, the count of loaded prices) is not modelled, since it has no effect on state.
- `saveToDisk`'s `IOException` is the `writeFails` parameter, because the file system is outside the model.
- PriceStorage.PriceStorage.SaveToDisk: `writeFails` stands only for a failure before prices.yml is opened, which leaves the file as it was. Saving opens the file for writing and so truncates it before writing; a failure after that point (a full disk, say) leaves the file empty or partly written. That case is not modelled.
- Java `int` overflow in `max - min + 1` is a precondition (`RangeFits`), as is the overflow that makes `nextInt` throw, rather than modelled 32-bit wrap-around. Negative configured bounds are allowed, and give negative prices as in the code.
- InventoryListener.Consolidate: does not model 32-bit overflow of `total`.
- Inventory.PlayerInventory.AddItem: requires that no stack of the same type has room. This excludes `addItem`'s merging into partial stacks. After `remove(material)` and full-sized chunks, the listener never reaches that case.
- Inventory.PlayerInventory.AddItem: drops what does not fit, as the listener ignores the leftover. Armour, off-hand and storage slots are not told apart; the inventory is one row of slots.
- InventoryListener.Consolidate: states the result as values (`View`). It does not state which stack objects end up in which slot.
- InventoryListener.TagAll: relies on `Inventory.PlayerInventory.Valid`, i.e. no stack object sits in two slots. This is true of a real inventory's contents array.
- InventoryListener.ConsolidateConserves: requires every stack of the material to hold between 1 and the maximum stack size. An over-full stack (possible only through other plugins) could make the re-added stacks not fit, and the code drops them.
- InventoryListener.ConsolidateConserves: holds only because the model's inventory is one row of slots that `getContents`, `remove` and `addItem` all see. In the host, `getContents` (InventoryListener.java:131) also returns the armour and off-hand slots, while `remove` (:147) and `addItem` (:153) act only on the storage slots, and that host inventory is not part of this model. A tagged stack of the material that is worn or held in the off-hand is then counted, kept and added back, so the material's count grows. For example, a worn tagged helmet plus a picked-up one of the same type gives three helmets. The model does not show this duplication.
- InventoryListener.Consolidate: requires a maximum stack size of at least 1. With 0 the loop at InventoryListener.java:150-155 would never end. The requirement holds for every call, because only a material with a positive maximum stack size can sit in an inventory slot.
- ItemUtil.FormatName: lower-cases with plain ASCII case mapping. `toLowerCase()` at ItemUtil.java:113 follows the JVM's default locale. Under a Turkish or Azeri locale, 'I' becomes dotless 'ı', so WHITE_WOOL displays as "Whıte Wool", and every name with an I after a word's first letter differs from the model. The model assumes a default locale whose case mapping on these names is the ASCII one.
- `ChatColor.stripColor` is modelled as removing a section sign followed by a colour or format code character. `NumberFormat` is modelled as US digit grouping for integers.
- The priced item's tier comes from the resolver passed to `PriceService.PriceService.constructor`. The plugin passes `TierResolver.Resolve`; the price lemmas hold for any resolver.
- PriceService.ItemSeedInjective: the comment at PriceService.java:93-94 says different materials always get different values, but the code only guarantees different seeds. Two items can still draw the same price, and every item of a tier whose `min >= max` gets `min`. The model proves distinct seeds and nothing more.
- `Materials.Catalog` stands for the `Material` enumeration. An item's name is its identity, and its ordinal is its position. The ordinal is widened to 64 bits by `PriceService.Bits` before the XOR with the seed.
- The event handlers of `InventoryListener.java` (pickup, craft, open, join, scheduling) are not part of this model, because they are host event plumbing.
- Commands, economy bridges, `WorthPluginAPI.java` and `Worth_items.java` are not part of this model. They are display or wiring around `getPrice`, `saveToDisk` and `reload`.
- `loadFromDisk` skips keys that name no item without a trace and logs only how many prices it loaded. The model drops those keys too and keeps no count.
