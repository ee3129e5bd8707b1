/**
 * The listener's helpers: tagging one item (`applyWorth`), tagging a whole
 * inventory (`tagAll`) and merging the stacks of one material into full
 * stacks that all carry the first tagged stack's meta (`consolidate`).
 */
module InventoryListener {
  import opened Wrappers
  import opened Materials
  import opened ItemUtil
  import opened Inventory
  import opened PriceStorage
  import opened PriceService

  // ── Tagging ──────────────────────────────────────────────────────────────

  /** `display.inject-lore`, true when absent. */
  predicate IsLoreEnabled(cfg: Config) {
    cfg.injectLore.GetOr(true)
  }

  /** `display.currency-symbol`, "$" when absent. */
  function CurrencySymbol(cfg: Config): string {
    cfg.currencySymbol.GetOr("$")
  }

  /**
   * `applyWorth` asks for a price: the item is not air, lore is enabled,
   * its type is not blacklisted and it is not tagged yet.
   */
  predicate AsksPrice(cfg: Config, kind: string, meta: Option<Meta>) {
    && !IsAir(kind)
    && IsLoreEnabled(cfg)
    && !IsBlacklisted(cfg, kind)
    && !(meta.Some? && HasWorthMeta(meta.value))
  }

  /** The price query `applyWorth` makes can be answered. */
  predicate CanTag(cfg: Config, env: Env, cache: map<string, int>, kind: string, meta: Option<Meta>) {
    AsksPrice(cfg, kind, meta) ==> CanResolve(cfg, env, cache, kind)
  }

  /** The stored meta of an item of type `kind` after `applyWorth`, with the cache as `cache` beforehand. */
  function TaggedMeta(cfg: Config, env: Env, cache: map<string, int>,
                      kind: string, meta: Option<Meta>): Option<Meta>
    requires env.Valid() && CanTag(cfg, env, cache, kind, meta)
  {
    if !AsksPrice(cfg, kind, meta) then meta
    else
      var price := ResolvePrice(cfg, env, cache, kind);
      if price <= 0 then meta else AppliedMeta(kind, meta, price, CurrencySymbol(cfg))
  }

  /** The cache after `applyWorth` on an item of type `kind`. */
  function CacheAfterTag(cfg: Config, env: Env, cache: map<string, int>,
                         kind: string, meta: Option<Meta>): map<string, int>
    requires env.Valid() && CanTag(cfg, env, cache, kind, meta)
  {
    if AsksPrice(cfg, kind, meta) then CacheAfter(cfg, env, cache, kind) else cache
  }

  /**
   * `applyWorth` changes the item exactly when it asks for a price and the
   * price is positive; a blacklisted type is never tagged, even when a
   * special override would price it.
   */
  lemma TagChangesExactlyWhen(cfg: Config, env: Env, cache: map<string, int>,
                              kind: string, meta: Option<Meta>)
    requires env.Valid() && CanTag(cfg, env, cache, kind, meta)
    ensures TaggedMeta(cfg, env, cache, kind, meta) != meta <==>
      AsksPrice(cfg, kind, meta) && ResolvePrice(cfg, env, cache, kind) > 0
  {
    if AsksPrice(cfg, kind, meta) {
      ApplyChangesExactlyWhen(kind, meta, ResolvePrice(cfg, env, cache, kind), CurrencySymbol(cfg));
    }
  }

  /** A tagged item carries the price under the worth key and as its last lore line, in the configured currency. */
  lemma TagRecordsPrice(cfg: Config, env: Env, cache: map<string, int>,
                        kind: string, meta: Option<Meta>)
    requires env.Valid() && CanTag(cfg, env, cache, kind, meta)
    requires AsksPrice(cfg, kind, meta) && ResolvePrice(cfg, env, cache, kind) > 0
    ensures var after := TaggedMeta(cfg, env, cache, kind, meta);
      && after.Some? && HasWorthMeta(after.value)
      && after.value.worth == Some(ResolvePrice(cfg, env, cache, kind))
      && after.value.lore == meta.GetOr(EmptyMeta).lore
           + [WorthLine(ResolvePrice(cfg, env, cache, kind), CurrencySymbol(cfg))]
  {
    var price := ResolvePrice(cfg, env, cache, kind);
    ApplyAppendsOneLine(kind, meta, price, CurrencySymbol(cfg));
    var after := TaggedMeta(cfg, env, cache, kind, meta).value;
    assert after.lore == after.lore[..|after.lore| - 1] + [after.lore[|after.lore| - 1]];
  }

  /** Tagging twice under one configuration changes neither the item nor the cache a second time. */
  lemma TagIdempotent(cfg: Config, env: Env, cache: map<string, int>,
                      kind: string, meta: Option<Meta>)
    requires env.Valid() && CanTag(cfg, env, cache, kind, meta)
    ensures var meta1 := TaggedMeta(cfg, env, cache, kind, meta);
      var cache1 := CacheAfterTag(cfg, env, cache, kind, meta);
      && CanTag(cfg, env, cache1, kind, meta1)
      && TaggedMeta(cfg, env, cache1, kind, meta1) == meta1
      && CacheAfterTag(cfg, env, cache1, kind, meta1) == cache1
  {
    if AsksPrice(cfg, kind, meta) {
      PriceIsStable(cfg, cfg, env, cache, kind);
      var price := ResolvePrice(cfg, env, cache, kind);
      if price > 0 {
        TagRecordsPrice(cfg, env, cache, kind, meta);
      }
    }
  }

  /** Tagging against a cache grown by earlier queries gives what tagging against the earlier cache gives. */
  lemma TagOnExtendedCache(cfg: Config, env: Env, before: map<string, int>,
                           cache: map<string, int>, kind: string, meta: Option<Meta>)
    requires env.Valid() && CanTag(cfg, env, before, kind, meta)
    requires ExtendsByGeneration(cfg, env, before, cache)
    ensures CanTag(cfg, env, cache, kind, meta)
    ensures TaggedMeta(cfg, env, cache, kind, meta) == TaggedMeta(cfg, env, before, kind, meta)
    ensures ExtendsByGeneration(cfg, env, before, CacheAfterTag(cfg, env, cache, kind, meta))
  {
    if AsksPrice(cfg, kind, meta) {
      ExtendedCacheSamePrice(cfg, env, before, cache, kind);
    }
  }

  /** `applyWorth(item)`: tags the item with its price unless it is excluded, already tagged or priced at 0 or less. */
  method ApplyWorth(item: ItemStack?, service: PriceService, cfg: Config)
    requires service.Valid()
    requires item != null ==> CanTag(cfg, service.Environment(), service.storage.cache, item.kind, item.meta)
    modifies item, service.storage`cache, service.storage`pricesConfig
    ensures service.Valid()
    ensures item != null ==> item.kind == old(item.kind) && item.amount == old(item.amount)
    ensures item != null ==>
      item.meta == TaggedMeta(cfg, service.Environment(), old(service.storage.cache), item.kind, old(item.meta))
    ensures service.storage.cache ==
      if item == null then old(service.storage.cache)
      else CacheAfterTag(cfg, service.Environment(), old(service.storage.cache), item.kind, old(item.meta))
    ensures forall k | k in old(service.storage.cache) ::
      k in service.storage.cache && service.storage.cache[k] == old(service.storage.cache)[k]
    ensures forall k | k in service.storage.cache && k !in old(service.storage.cache) :: item != null && k == item.kind
    ensures service.storage.pricesConfig ==
      WrittenThrough(old(service.storage.pricesConfig), old(service.storage.cache), service.storage.cache)
  {
    WrittenThroughNothing(service.storage.pricesConfig, service.storage.cache);
    if item == null || IsAir(item.kind) {
      return;
    }
    if !IsLoreEnabled(cfg) {
      return;
    }
    if IsBlacklisted(cfg, item.kind) {
      return;
    }
    if HasWorth(item) {
      return;
    }
    ghost var mirror, cache := service.storage.pricesConfig, service.storage.cache;
    var price := service.GetPrice(cfg, item.kind);
    if Generates(cfg, cache, item.kind) {
      WrittenThroughOne(mirror, cache, item.kind, price);
    }
    if price <= 0 {
      return;
    }
    ApplyPriceLore(item, price, CurrencySymbol(cfg));
  }

  /** Every price the cache gained over `before` is for the type of a stack among the first `n` slots. */
  ghost predicate HeldBefore(view: seq<Option<Stack>>, n: int, before: map<string, int>, cache: map<string, int>)
    requires 0 <= n <= |view|
  {
    forall k | k in cache && k !in before :: exists j | 0 <= j < n :: view[j].Some? && view[j].value.kind == k
  }

  /** A slot holding a stack of type `k`, when the cache gained a price for `k`. */
  lemma HeldAt(view: seq<Option<Stack>>, n: int, before: map<string, int>, cache: map<string, int>, k: string)
    returns (j: int)
    requires 0 <= n <= |view| && HeldBefore(view, n, before, cache)
    requires k in cache && k !in before
    ensures 0 <= j < n && view[j].Some? && view[j].value.kind == k
  {
    j :| 0 <= j < n && view[j].Some? && view[j].value.kind == k;
  }

  /** Tagging slot `i` can only add the price of that slot's type. */
  lemma HeldBeforeStep(view: seq<Option<Stack>>, i: int, before: map<string, int>,
                       cache: map<string, int>, after: map<string, int>)
    requires 0 <= i < |view| && HeldBefore(view, i, before, cache)
    requires forall k | k in after && k !in cache :: view[i].Some? && view[i].value.kind == k
    ensures HeldBefore(view, i + 1, before, after)
  {
    forall k | k in after && k !in before
      ensures exists j | 0 <= j < i + 1 :: view[j].Some? && view[j].value.kind == k
    {
      if k in cache {
        var j := HeldAt(view, i, before, cache, k);
      } else {
        assert view[i].Some? && view[i].value.kind == k;
      }
    }
  }

  /**
   * `tagAll`: applies the worth tag to every stack of the inventory.  Each
   * stack ends as if it had been tagged alone against the cache as it was
   * before, and the cache only gains generated prices.
   */
  method TagAll(inv: PlayerInventory, service: PriceService, cfg: Config)
    requires inv.Valid() && service.Valid()
    requires forall j | 0 <= j < |inv.slots| && inv.slots[j] != null ::
      CanTag(cfg, service.Environment(), service.storage.cache, inv.slots[j].kind, inv.slots[j].meta)
    modifies set j | 0 <= j < |inv.slots| && inv.slots[j] != null :: inv.slots[j]
    modifies service.storage`cache, service.storage`pricesConfig
    ensures service.Valid()
    ensures forall j | 0 <= j < |inv.slots| && inv.slots[j] != null ::
      && inv.slots[j].kind == old(inv.slots[j].kind) && inv.slots[j].amount == old(inv.slots[j].amount)
      && inv.slots[j].meta == TaggedMeta(cfg, service.Environment(), old(service.storage.cache),
                                         inv.slots[j].kind, old(inv.slots[j].meta))
    ensures ExtendsByGeneration(cfg, service.Environment(), old(service.storage.cache), service.storage.cache)
    ensures HeldBefore(old(View(inv.slots)), |inv.slots|, old(service.storage.cache), service.storage.cache)
    ensures service.storage.pricesConfig ==
      WrittenThrough(old(service.storage.pricesConfig), old(service.storage.cache), service.storage.cache)
  {
    var contents := inv.slots;
    ghost var before := service.storage.cache;
    ghost var mirror := service.storage.pricesConfig;
    WrittenThroughNothing(mirror, before);
    ghost var env := service.Environment();
    // What each slot's meta is to become, fixed before the loop starts.
    ghost var view := View(contents);
    ghost var targets := seq(|view|, j requires 0 <= j < |view| =>
      if view[j].Some? && env.Valid() && CanTag(cfg, env, before, view[j].value.kind, view[j].value.meta)
      then TaggedMeta(cfg, env, before, view[j].value.kind, view[j].value.meta)
      else None);
    for i := 0 to |contents|
      invariant service.Valid() && service.Environment() == env
      invariant ExtendsByGeneration(cfg, env, before, service.storage.cache)
      invariant forall j | 0 <= j < |contents| && contents[j] != null ::
        Some(Stack(contents[j].kind, contents[j].amount, contents[j].meta))
          == if j < i then Some(view[j].value.(meta := targets[j])) else view[j]
      invariant HeldBefore(view, i, before, service.storage.cache)
      invariant service.storage.pricesConfig == WrittenThrough(mirror, before, service.storage.cache)
    {
      var item := contents[i];
      if item != null {
        assert view[i] == Some(Stack(item.kind, item.amount, item.meta));
        TagOnExtendedCache(cfg, env, before, service.storage.cache, item.kind, item.meta);
      }
      ghost var cache := service.storage.cache;
      ApplyWorth(item, service, cfg);
      WrittenThroughTwice(mirror, before, cache, service.storage.cache);
      HeldBeforeStep(view, i, before, cache, service.storage.cache);
      assert item != null ==> item.meta == targets[i];
      assert forall j | 0 <= j < |contents| && j != i && contents[j] != null :: contents[j] != item;
    }
  }

  // ── Consolidation on values ──────────────────────────────────────────────

  function Min(a: int, b: int): int {
    if a <= b then a else b
  }

  function Sum(amounts: seq<int>): int {
    if amounts == [] then 0 else amounts[0] + Sum(amounts[1..])
  }

  /** The amounts of the stacks the merge loop adds for `total` items: full stacks first, the rest last. */
  function Chunks(total: int, maxStack: int): seq<int>
    requires maxStack >= 1
    decreases total
  {
    if total <= 0 then [] else [Min(maxStack, total)] + Chunks(total - Min(maxStack, total), maxStack)
  }

  /** The slot holds a stack of `material` that carries the worth tag. */
  predicate TaggedOf(slot: Option<Stack>, material: string) {
    slot.Some? && slot.value.kind == material && IsTagged(slot.value)
  }

  /**
   * The first stack of `material` that carries the worth tag: none exactly
   * when no slot holds one, otherwise the stack of the first slot that does.
   */
  function FirstTagged(view: seq<Option<Stack>>, material: string): (t: Option<Stack>)
    ensures t.Some? ==> t.value.kind == material && IsTagged(t.value)
    ensures t.None? <==> forall j | 0 <= j < |view| :: !TaggedOf(view[j], material)
    ensures t.Some? ==> exists j | 0 <= j < |view| :: view[j] == t && forall i | 0 <= i < j :: !TaggedOf(view[i], material)
  {
    if view == [] then None
    else
      var init := view[..|view| - 1];
      var earlier := FirstTagged(init, material);
      var last := view[|view| - 1];
      assert forall j | 0 <= j < |init| :: init[j] == view[j];
      if earlier.Some? then earlier
      else if TaggedOf(last, material) then last
      else None
  }

  /** Adds one stack of each amount, all copies of `proto` but for their amount, as `addItem` places them. */
  function Filled(view: seq<Option<Stack>>, proto: Stack, amounts: seq<int>): seq<Option<Stack>>
    decreases |amounts|
  {
    if amounts == [] then view
    else Filled(Placed(view, proto.(amount := amounts[0])), proto, amounts[1..])
  }

  /**
   * The inventory after `consolidate(material)`: unchanged when no stack of
   * the material is tagged or their total is 0; otherwise every stack of
   * the material is removed and the total is added back in stacks of at
   * most `maxStack`, each a copy of the first tagged stack.
   */
  function Consolidated(view: seq<Option<Stack>>, material: string, maxStack: int): seq<Option<Stack>>
    requires maxStack >= 1
  {
    var total := Count(view, material);
    var template := FirstTagged(view, material);
    if template.None? || total == 0 then view
    else Filled(Removed(view, material), template.value.(amount := 1), Chunks(total, maxStack))
  }

  // ── Properties of consolidation ──────────────────────────────────────────

  /**
   * The merge loop adds exactly `total` items, in stacks of 1 to `maxStack`
   * items of which all but the last are full.
   */
  lemma {:induction false} ChunksShape(total: int, maxStack: int)
    requires maxStack >= 1
    ensures var c := Chunks(total, maxStack);
      && Sum(c) == (if total > 0 then total else 0)
      && (forall k | 0 <= k < |c| :: 1 <= c[k] <= maxStack)
      && (forall k | 0 <= k < |c| - 1 :: c[k] == maxStack)
    decreases total
  {
    if total > 0 {
      var first := Min(maxStack, total);
      ChunksShape(total - first, maxStack);
      var c := Chunks(total, maxStack);
      assert c[1..] == Chunks(total - first, maxStack);
      assert forall k | 0 <= k < |c| - 1 :: c[k] == maxStack;
    }
  }

  /** The merge loop turns ceil(total / maxStack) times: the least n with total <= n * maxStack. */
  lemma {:induction false} ChunksCount(total: int, maxStack: int)
    requires maxStack >= 1
    ensures var n := |Chunks(total, maxStack)|;
      total > 0 ==> (n - 1) * maxStack < total <= n * maxStack
    decreases total
  {
    if total > maxStack {
      ChunksCount(total - maxStack, maxStack);
      var n' := |Chunks(total - maxStack, maxStack)|;
      assert |Chunks(total, maxStack)| == n' + 1;
      assert (n' + 1) * maxStack == n' * maxStack + maxStack;
      assert (n' - 1) * maxStack == n' * maxStack - maxStack;
    }
  }

  /** `total` items fit in `slots` stacks of `maxStack` when `total <= slots * maxStack`. */
  lemma {:induction false} ChunksFit(total: int, maxStack: int, slots: nat)
    requires maxStack >= 1 && total <= slots * maxStack
    ensures |Chunks(total, maxStack)| <= slots
    decreases slots
  {
    if total > 0 {
      var first := Min(maxStack, total);
      if slots > 0 {
        assert (slots - 1) * maxStack == slots * maxStack - maxStack;
        ChunksFit(total - first, maxStack, slots - 1);
      }
    }
  }

  /** Filling never touches an occupied slot; a slot it fills holds a copy of `proto` with one of the amounts. */
  lemma {:induction false} FilledSlots(view: seq<Option<Stack>>, proto: Stack, amounts: seq<int>)
    ensures var r := Filled(view, proto, amounts);
      && |r| == |view|
      && (forall j | 0 <= j < |view| && view[j].Some? :: r[j] == view[j])
      && (forall j | 0 <= j < |view| && view[j].None? && r[j].Some? ::
            r[j].value == proto.(amount := r[j].value.amount) && r[j].value.amount in amounts)
    decreases |amounts|
  {
    if amounts != [] {
      var next := Placed(view, proto.(amount := amounts[0]));
      FilledSlots(next, proto, amounts[1..]);
      var r := Filled(view, proto, amounts);
      forall j | 0 <= j < |view| && view[j].None? && r[j].Some?
        ensures r[j].value == proto.(amount := r[j].value.amount) && r[j].value.amount in amounts
      {
        if next[j].Some? {
          assert next[j] == Some(proto.(amount := amounts[0]));
        } else {
          assert r[j].value.amount in amounts[1..];
        }
      }
    }
  }

  /** With an empty slot for every stack, filling adds exactly the sum of the amounts. */
  lemma {:induction false} FilledCount(view: seq<Option<Stack>>, proto: Stack, amounts: seq<int>)
    requires Empties(view) >= |amounts|
    ensures Count(Filled(view, proto, amounts), proto.kind) == Count(view, proto.kind) + Sum(amounts)
    decreases |amounts|
  {
    if amounts != [] {
      var s := proto.(amount := amounts[0]);
      SomeEmptyIsFound(view);
      var i := FirstEmpty(view);
      CountUpdate(view, i, Some(s), proto.kind);
      EmptiesUpdate(view, i, s);
      FilledCount(view[i := Some(s)], proto, amounts[1..]);
    }
  }

  /** Stacks of other types keep their slot and their contents. */
  lemma ConsolidateKeepsOthers(view: seq<Option<Stack>>, material: string, maxStack: int)
    requires maxStack >= 1
    ensures |Consolidated(view, material, maxStack)| == |view|
    ensures forall j | 0 <= j < |view| && view[j].Some? && view[j].value.kind != material ::
      Consolidated(view, material, maxStack)[j] == view[j]
  {
    var template := FirstTagged(view, material);
    if template.Some? && Count(view, material) != 0 {
      FilledSlots(Removed(view, material), template.value.(amount := 1), Chunks(Count(view, material), maxStack));
    }
  }

  /**
   * After a merge every stack of the material is a copy of the first tagged
   * stack holding 1 to `maxStack` items, so it is tagged itself.
   */
  lemma ConsolidatedStacksAreCopies(view: seq<Option<Stack>>, material: string, maxStack: int)
    requires maxStack >= 1
    requires FirstTagged(view, material).Some? && Count(view, material) != 0
    ensures var r := Consolidated(view, material, maxStack);
      forall j | 0 <= j < |r| && r[j].Some? && r[j].value.kind == material ::
        && r[j].value == FirstTagged(view, material).value.(amount := r[j].value.amount)
        && 1 <= r[j].value.amount <= maxStack
        && IsTagged(r[j].value)
  {
    var proto := FirstTagged(view, material).value.(amount := 1);
    var chunks := Chunks(Count(view, material), maxStack);
    var removed := Removed(view, material);
    FilledSlots(removed, proto, chunks);
    ChunksShape(Count(view, material), maxStack);
    var r := Consolidated(view, material, maxStack);
    forall j | 0 <= j < |r| && r[j].Some? && r[j].value.kind == material
      ensures 1 <= r[j].value.amount <= maxStack
    {
      var a := r[j].value.amount;
      var k :| 0 <= k < |chunks| && chunks[k] == a;
    }
  }

  /**
   * When no stack of the material holds more than `maxStack` items (and
   * none holds fewer than one), merging keeps the material's total: the
   * slots the removal frees are enough for the new stacks.
   */
  lemma ConsolidateConserves(view: seq<Option<Stack>>, material: string, maxStack: int)
    requires maxStack >= 1
    requires forall j | 0 <= j < |view| && view[j].Some? && view[j].value.kind == material ::
      1 <= view[j].value.amount <= maxStack
    ensures Count(Consolidated(view, material, maxStack), material) == Count(view, material)
  {
    var total := Count(view, material);
    var template := FirstTagged(view, material);
    if template.Some? && total != 0 {
      var removed := Removed(view, material);
      var chunks := Chunks(total, maxStack);
      RemovedCounts(view, material);
      CountBound(view, material, maxStack);
      ChunksFit(total, maxStack, StacksOf(view, material));
      ChunksShape(total, maxStack);
      CountPositive(view, material);
      FilledCount(removed, template.value.(amount := 1), chunks);
    }
  }

  /** A count over stacks of positive amounts is not negative. */
  lemma {:induction false} CountPositive(view: seq<Option<Stack>>, material: string)
    requires forall j | 0 <= j < |view| && view[j].Some? && view[j].value.kind == material ::
      1 <= view[j].value.amount
    ensures Count(view, material) >= 0
    decreases |view|
  {
    if view != [] {
      CountPositive(view[..|view| - 1], material);
    }
  }

  /**
   * The first loop of `consolidate`: the total amount of `material` and a
   * one-item copy of its first tagged stack, if there is one.
   */
  method Survey(contents: seq<ItemStack?>, material: string) returns (total: int, template: ItemStack?)
    ensures total == Count(View(contents), material)
    ensures template == null <==> FirstTagged(View(contents), material).None?
    ensures template != null ==> (fresh(template) &&
      Stack(template.kind, template.amount, template.meta) == FirstTagged(View(contents), material).value.(amount := 1))
  {
    ghost var view := View(contents);
    total := 0;
    template := null;
    for i := 0 to |contents|
      invariant total == Count(view[..i], material)
      invariant template == null <==> FirstTagged(view[..i], material).None?
      invariant template != null ==>
        fresh(template) && Stack(template.kind, template.amount, template.meta) == FirstTagged(view[..i], material).value.(amount := 1)
    {
      assert view[..i + 1][..i] == view[..i];
      var item := contents[i];
      assert view[i] == if item == null then None else Some(Stack(item.kind, item.amount, item.meta));
      if item != null && item.kind == material {
        total := total + item.amount;
        if template == null && HasWorth(item) {
          template := item.Clone();
          template.amount := 1;
        }
      }
    }
    assert view[..|contents|] == view;
  }

  /** One turn of the merge loop places the first chunk; the rest of the fill is what is left to do. */
  lemma FilledStep(view: seq<Option<Stack>>, proto: Stack, left: int, max: int)
    requires max >= 1 && left > 0
    ensures Filled(Placed(view, proto.(amount := Min(max, left))), proto, Chunks(left - Min(max, left), max))
         == Filled(view, proto, Chunks(left, max))
  {
    assert Chunks(left, max)[1..] == Chunks(left - Min(max, left), max);
  }

  /** Placing a full stack leaves no stack of its type with room. */
  lemma PlacedFullKeepsNoRoom(view: seq<Option<Stack>>, s: Stack, max: int)
    requires NoRoomFor(view, s.kind, max) && s.amount >= max
    ensures NoRoomFor(Placed(view, s), s.kind, max)
  {
  }

  /** The second loop of `consolidate`: adds `total` items as copies of `template`, at most `max` per stack. */
  method AddStacks(inv: PlayerInventory, template: ItemStack, total: int, max: int)
    requires inv.Valid() && max >= 1
    requires total > 0 ==> NoRoomFor(View(inv.slots), template.kind, max)
    modifies inv
    ensures inv.Valid()
    ensures View(inv.slots) == Filled(old(View(inv.slots)), old(Stack(template.kind, template.amount, template.meta)), Chunks(total, max))
  {
    ghost var proto := Stack(template.kind, template.amount, template.meta);
    ghost var target := Filled(View(inv.slots), proto, Chunks(total, max));
    var left := total;
    while left > 0
      invariant inv.Valid()
      invariant Stack(template.kind, template.amount, template.meta) == proto
      invariant Filled(View(inv.slots), proto, Chunks(left, max)) == target
      invariant left > 0 ==> NoRoomFor(View(inv.slots), template.kind, max)
      decreases left
    {
      ghost var before := View(inv.slots);
      var amount := Min(max, left);
      var stack := template.Clone();
      stack.amount := amount;
      assert View(inv.slots) == before;
      ghost var placed := proto.(amount := amount);
      assert Stack(stack.kind, stack.amount, stack.meta) == placed;
      // What does not fit is dropped: the loop counts it as added either way.
      var leftover := inv.AddItem(stack, max);
      assert View(inv.slots) == Placed(before, placed);
      FilledStep(before, proto, left, max);
      assert Filled(Placed(before, placed), proto, Chunks(left - amount, max)) == Filled(before, proto, Chunks(left, max));
      if left - amount > 0 {
        PlacedFullKeepsNoRoom(before, placed, max);
      }
      left := left - amount;
    }
  }

  /** `consolidate(material)`: merges the stacks of `material`, as the listener does after a pickup or a craft. */
  method Consolidate(inv: PlayerInventory, material: string, maxStack: int)
    requires inv.Valid() && maxStack >= 1
    modifies inv
    ensures inv.Valid()
    ensures View(inv.slots) == Consolidated(old(View(inv.slots)), material, maxStack)
  {
    ghost var view := View(inv.slots);
    var total, template := Survey(inv.slots, material);
    if template == null || total == 0 {
      return;
    }
    ghost var proto := FirstTagged(view, material).value.(amount := 1);
    inv.Remove(material);
    assert View(inv.slots) == Removed(view, material);
    assert NoRoomFor(View(inv.slots), material, maxStack);
    AddStacks(inv, template, total, maxStack);
    assert View(inv.slots) == Filled(Removed(view, material), proto, Chunks(total, maxStack));
  }
}
