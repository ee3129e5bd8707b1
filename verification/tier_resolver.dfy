/**
 * The classifier: maps an item name to one of six price tiers by a
 * first-match-wins chain of rules — three explicit membership sets, then
 * ordered substring and prefix tests on the name, then the default COMMON.
 */
module TierResolver {

  /** Price tiers, cheapest first. */
  datatype Tier = JUNK | COMMON | UNCOMMON | RARE | EPIC | LEGENDARY

  const LegendaryItems: set<string> :=
    {"DRAGON_EGG", "NETHER_STAR", "BEACON", "END_CRYSTAL", "HEART_OF_THE_SEA"}

  const EpicItems: set<string> :=
    {"ELYTRA", "TOTEM_OF_UNDYING", "ENCHANTED_GOLDEN_APPLE", "TRIDENT",
     "NETHERITE_INGOT", "NETHERITE_SCRAP", "NETHERITE_SWORD", "NETHERITE_PICKAXE",
     "NETHERITE_AXE", "NETHERITE_SHOVEL", "NETHERITE_HOE", "NETHERITE_HELMET",
     "NETHERITE_CHESTPLATE", "NETHERITE_LEGGINGS", "NETHERITE_BOOTS", "NETHERITE_BLOCK"}

  const JunkItems: set<string> :=
    {"DIRT", "GRASS_BLOCK", "SAND", "COBBLESTONE", "NETHERRACK", "ROTTEN_FLESH",
     "BONE", "STRING", "FEATHER", "LEATHER", "GLASS", "GLASS_PANE",
     "POISONOUS_POTATO", "SPIDER_EYE", "COBWEB", "DEAD_BUSH", "GRAVEL"}

  // ── String tests (Java's String.contains / String.startsWith) ────────────

  /** `pat` occurs in `s` starting at position `i`. */
  predicate OccursAt(s: string, pat: string, i: nat) {
    i + |pat| <= |s| && s[i..i + |pat|] == pat
  }

  predicate Contains(s: string, pat: string) {
    exists i: nat | i <= |s| :: OccursAt(s, pat, i)
  }

  predicate StartsWith(s: string, prefix: string) {
    |prefix| <= |s| && s[..|prefix|] == prefix
  }

  /** Some pattern of `patterns` occurs in `name` (the private `matchesAny` helper). */
  predicate MatchesAny(name: string, patterns: seq<string>) {
    exists k | 0 <= k < |patterns| :: Contains(name, patterns[k])
  }

  const OrePatterns: seq<string> := ["GOLD_ORE", "IRON_ORE", "LAPIS_ORE", "REDSTONE_ORE", "COPPER_ORE"]
  const FineFoodPatterns: seq<string> :=
    ["COOKED_", "STEAK", "BREAD", "CAKE", "GOLDEN_CARROT", "MUSHROOM_STEW",
     "RABBIT_STEW", "SUSPICIOUS_STEW", "PUMPKIN_PIE"]
  const PlainFoodPatterns: seq<string> :=
    ["APPLE", "CARROT", "POTATO", "BEETROOT", "MELON", "PUMPKIN", "WHEAT", "SUGAR"]
  const NaturalPatterns: seq<string> :=
    ["_WOOL", "_TULIP", "_ORCHID", "_DAISY", "DANDELION", "POPPY", "_SAPLING",
     "_LOG", "_PLANKS", "_LEAVES"]

  /** The tier of the item called `name`, rule by rule as the classifier checks them. */
  function Resolve(name: string): Tier {
    if name in LegendaryItems then LEGENDARY
    else if name in EpicItems then EPIC
    else if name in JunkItems then JUNK
    // tool and armour materials
    else if Contains(name, "NETHERITE") then EPIC
    else if Contains(name, "DIAMOND") then RARE
    else if Contains(name, "GOLDEN") || Contains(name, "GOLD") then UNCOMMON
    else if Contains(name, "IRON") then UNCOMMON
    else if Contains(name, "CHAINMAIL") then UNCOMMON
    else if StartsWith(name, "WOODEN_") || StartsWith(name, "STONE_") || StartsWith(name, "LEATHER_") then COMMON
    // ores
    else if Contains(name, "ANCIENT_DEBRIS") then RARE
    else if Contains(name, "EMERALD") then RARE
    else if MatchesAny(name, OrePatterns) then COMMON
    // storage blocks
    else if Contains(name, "DIAMOND_BLOCK") then RARE
    else if Contains(name, "IRON_BLOCK") then UNCOMMON
    else if Contains(name, "GOLD_BLOCK") then UNCOMMON
    // food
    else if MatchesAny(name, FineFoodPatterns) then UNCOMMON
    else if MatchesAny(name, PlainFoodPatterns) then COMMON
    // natural and building blocks
    else if MatchesAny(name, NaturalPatterns) then COMMON
    // remaining clay-like blocks
    else if MatchesAny(name, ["CLAY"]) then JUNK
    else COMMON
  }

  // ── The same classifier as an explicit ordered rule table ────────────────

  datatype Test =
    | InSet(members: set<string>)
    | ContainsAny(patterns: seq<string>)
    | StartsWithAny(prefixes: seq<string>)

  datatype Rule = Rule(test: Test, tier: Tier)

  predicate Matches(r: Rule, name: string) {
    match r.test
    case InSet(members) => name in members
    case ContainsAny(patterns) => MatchesAny(name, patterns)
    case StartsWithAny(prefixes) => exists k | 0 <= k < |prefixes| :: StartsWith(name, prefixes[k])
  }

  // Positions of the rules the lemmas below talk about.
  const NETHERITE_RULE: nat := 3
  const DIAMOND_RULE: nat := 4
  const GOLD_RULE: nat := 5
  const IRON_RULE: nat := 6
  const PREFIX_RULE: nat := 8
  const ORE_RULE: nat := 11
  const DIAMOND_BLOCK_RULE: nat := 12
  const IRON_BLOCK_RULE: nat := 13
  const GOLD_BLOCK_RULE: nat := 14

  /** Every rule of the classifier in evaluation order. */
  const Rules: seq<Rule> := [
    Rule(InSet(LegendaryItems), LEGENDARY),
    Rule(InSet(EpicItems), EPIC),
    Rule(InSet(JunkItems), JUNK),
    Rule(ContainsAny(["NETHERITE"]), EPIC),
    Rule(ContainsAny(["DIAMOND"]), RARE),
    Rule(ContainsAny(["GOLDEN", "GOLD"]), UNCOMMON),
    Rule(ContainsAny(["IRON"]), UNCOMMON),
    Rule(ContainsAny(["CHAINMAIL"]), UNCOMMON),
    Rule(StartsWithAny(["WOODEN_", "STONE_", "LEATHER_"]), COMMON),
    Rule(ContainsAny(["ANCIENT_DEBRIS"]), RARE),
    Rule(ContainsAny(["EMERALD"]), RARE),
    Rule(ContainsAny(OrePatterns), COMMON),
    Rule(ContainsAny(["DIAMOND_BLOCK"]), RARE),
    Rule(ContainsAny(["IRON_BLOCK"]), UNCOMMON),
    Rule(ContainsAny(["GOLD_BLOCK"]), UNCOMMON),
    Rule(ContainsAny(FineFoodPatterns), UNCOMMON),
    Rule(ContainsAny(PlainFoodPatterns), COMMON),
    Rule(ContainsAny(NaturalPatterns), COMMON),
    Rule(ContainsAny(["CLAY"]), JUNK)
  ]

  /** First-match-wins evaluation of `Rules[i..]`, COMMON when none matches. */
  function FirstMatch(i: nat, name: string): Tier
    requires i <= |Rules|
    decreases |Rules| - i
  {
    if i == |Rules| then COMMON
    else if Matches(Rules[i], name) then Rules[i].tier
    else FirstMatch(i + 1, name)
  }

  // ── Properties ───────────────────────────────────────────────────────────

  /** A pattern inside a pattern: if `p` occurs in `s` and `q` in `p`, then `q` occurs in `s`. */
  lemma ContainsTransitive(s: string, p: string, q: string)
    requires Contains(s, p) && Contains(p, q)
    ensures Contains(s, q)
  {
    var i: nat :| i <= |s| && OccursAt(s, p, i);
    var j: nat :| j <= |p| && OccursAt(p, q, j);
    forall k | 0 <= k < |q|
      ensures s[i + j + k] == q[k]
    {
      assert s[i..i + |p|][j + k] == p[j + k];
      assert p[j..j + |q|][k] == q[k];
    }
    assert s[i + j..i + j + |q|] == q;
    assert OccursAt(s, q, i + j);
  }

  lemma MatchesOne(name: string, p: string)
    ensures MatchesAny(name, [p]) <==> Contains(name, p)
  {
    assert [p][0] == p;
  }

  lemma MatchesTwo(name: string, p: string, q: string)
    ensures MatchesAny(name, [p, q]) <==> Contains(name, p) || Contains(name, q)
  {
    assert [p, q][0] == p && [p, q][1] == q;
  }

  lemma StartsWithThree(name: string, a: string, b: string, c: string)
    ensures Matches(Rule(StartsWithAny([a, b, c]), COMMON), name) <==>
      StartsWith(name, a) || StartsWith(name, b) || StartsWith(name, c)
  {
    assert [a, b, c][0] == a && [a, b, c][1] == b && [a, b, c][2] == c;
  }

  /** Rules 11 to 18 (ores, storage blocks, food, natural blocks, clay) and the default. */
  lemma FirstMatchFromOres(name: string)
    ensures FirstMatch(ORE_RULE, name) ==
      if MatchesAny(name, OrePatterns) then COMMON
      else if Contains(name, "DIAMOND_BLOCK") then RARE
      else if Contains(name, "IRON_BLOCK") then UNCOMMON
      else if Contains(name, "GOLD_BLOCK") then UNCOMMON
      else if MatchesAny(name, FineFoodPatterns) then UNCOMMON
      else if MatchesAny(name, PlainFoodPatterns) then COMMON
      else if MatchesAny(name, NaturalPatterns) then COMMON
      else if MatchesAny(name, ["CLAY"]) then JUNK
      else COMMON
  {
    assert FirstMatch(18, name) == if MatchesAny(name, ["CLAY"]) then JUNK else COMMON;
    assert FirstMatch(17, name) == if MatchesAny(name, NaturalPatterns) then COMMON else FirstMatch(18, name);
    assert FirstMatch(16, name) == if MatchesAny(name, PlainFoodPatterns) then COMMON else FirstMatch(17, name);
    assert FirstMatch(15, name) == if MatchesAny(name, FineFoodPatterns) then UNCOMMON else FirstMatch(16, name);
    MatchesOne(name, "GOLD_BLOCK");
    assert FirstMatch(14, name) == if Contains(name, "GOLD_BLOCK") then UNCOMMON else FirstMatch(15, name);
    MatchesOne(name, "IRON_BLOCK");
    assert FirstMatch(13, name) == if Contains(name, "IRON_BLOCK") then UNCOMMON else FirstMatch(14, name);
    MatchesOne(name, "DIAMOND_BLOCK");
    assert FirstMatch(12, name) == if Contains(name, "DIAMOND_BLOCK") then RARE else FirstMatch(13, name);
  }

  /** Rules 7 to 10: chainmail, the tool prefixes, ancient debris and emerald. */
  lemma FirstMatchFromChainmail(name: string)
    ensures FirstMatch(7, name) ==
      if Contains(name, "CHAINMAIL") then UNCOMMON
      else if StartsWith(name, "WOODEN_") || StartsWith(name, "STONE_") || StartsWith(name, "LEATHER_") then COMMON
      else if Contains(name, "ANCIENT_DEBRIS") then RARE
      else if Contains(name, "EMERALD") then RARE
      else FirstMatch(ORE_RULE, name)
  {
    MatchesOne(name, "EMERALD");
    assert FirstMatch(10, name) == if Contains(name, "EMERALD") then RARE else FirstMatch(11, name);
    MatchesOne(name, "ANCIENT_DEBRIS");
    assert FirstMatch(9, name) == if Contains(name, "ANCIENT_DEBRIS") then RARE else FirstMatch(10, name);
    StartsWithThree(name, "WOODEN_", "STONE_", "LEATHER_");
    assert FirstMatch(8, name) ==
      if StartsWith(name, "WOODEN_") || StartsWith(name, "STONE_") || StartsWith(name, "LEATHER_")
      then COMMON else FirstMatch(9, name);
    MatchesOne(name, "CHAINMAIL");
  }

  /** Rules 3 to 10: the tool and armour materials, the prefixes and the first two ores. */
  lemma FirstMatchFromNames(name: string)
    ensures FirstMatch(NETHERITE_RULE, name) ==
      if Contains(name, "NETHERITE") then EPIC
      else if Contains(name, "DIAMOND") then RARE
      else if Contains(name, "GOLDEN") || Contains(name, "GOLD") then UNCOMMON
      else if Contains(name, "IRON") then UNCOMMON
      else if Contains(name, "CHAINMAIL") then UNCOMMON
      else if StartsWith(name, "WOODEN_") || StartsWith(name, "STONE_") || StartsWith(name, "LEATHER_") then COMMON
      else if Contains(name, "ANCIENT_DEBRIS") then RARE
      else if Contains(name, "EMERALD") then RARE
      else FirstMatch(ORE_RULE, name)
  {
    FirstMatchFromChainmail(name);
    MatchesOne(name, "IRON");
    assert FirstMatch(6, name) == if Contains(name, "IRON") then UNCOMMON else FirstMatch(7, name);
    MatchesTwo(name, "GOLDEN", "GOLD");
    assert FirstMatch(5, name) ==
      if Contains(name, "GOLDEN") || Contains(name, "GOLD") then UNCOMMON else FirstMatch(6, name);
    MatchesOne(name, "DIAMOND");
    assert FirstMatch(4, name) == if Contains(name, "DIAMOND") then RARE else FirstMatch(5, name);
    MatchesOne(name, "NETHERITE");
  }

  /** The if-chain classifier and the rule table agree on every name. */
  lemma ResolveFollowsRules(name: string)
    ensures Resolve(name) == FirstMatch(0, name)
  {
    FirstMatchFromOres(name);
    FirstMatchFromNames(name);
    assert FirstMatch(2, name) == if name in JunkItems then JUNK else FirstMatch(3, name);
    assert FirstMatch(1, name) == if name in EpicItems then EPIC else FirstMatch(2, name);
    assert FirstMatch(0, name) == if name in LegendaryItems then LEGENDARY else FirstMatch(1, name);
  }

  /** When rule `k` is the first rule from position `i` on that matches, evaluation from `i` yields its tier. */
  lemma {:induction false} FirstMatchPicksFirst(i: nat, k: nat, name: string)
    requires i <= k < |Rules|
    requires Matches(Rules[k], name)
    requires forall j | i <= j < k :: !Matches(Rules[j], name)
    ensures FirstMatch(i, name) == Rules[k].tier
    decreases k - i
  {
    if i < k {
      FirstMatchPicksFirst(i + 1, k, name);
    }
  }

  /** When no rule from position `i` on matches, evaluation from `i` falls through to COMMON. */
  lemma {:induction false} FirstMatchDefault(i: nat, name: string)
    requires i <= |Rules|
    requires forall j | i <= j < |Rules| :: !Matches(Rules[j], name)
    ensures FirstMatch(i, name) == COMMON
    decreases |Rules| - i
  {
    if i < |Rules| {
      FirstMatchDefault(i + 1, name);
    }
  }

  /** First match wins: the tier is that of the first rule in table order that matches the name. */
  lemma ResolveIsFirstMatchingRule(name: string, k: nat)
    requires k < |Rules| && Matches(Rules[k], name)
    requires forall j | 0 <= j < k :: !Matches(Rules[j], name)
    ensures Resolve(name) == Rules[k].tier
  {
    ResolveFollowsRules(name);
    FirstMatchPicksFirst(0, k, name);
  }

  /** Totality with a default: a name that no rule matches is COMMON. */
  lemma ResolveDefaultsToCommon(name: string)
    requires forall j | 0 <= j < |Rules| :: !Matches(Rules[j], name)
    ensures Resolve(name) == COMMON
  {
    ResolveFollowsRules(name);
    FirstMatchDefault(0, name);
  }

  /** The three explicit sets decide before any test on the name, in the order LEGENDARY, EPIC, JUNK. */
  lemma ExplicitSetsDecideFirst(name: string)
    ensures name in LegendaryItems ==> Resolve(name) == LEGENDARY
    ensures name in EpicItems ==> Resolve(name) == EPIC
    ensures name in JunkItems ==> Resolve(name) == JUNK
  {
    ExplicitSetsDisjoint();
  }

  /** No item is listed in two of the explicit sets, so the order of their checks does not matter. */
  lemma ExplicitSetsDisjoint()
    ensures LegendaryItems !! EpicItems && LegendaryItems !! JunkItems && EpicItems !! JunkItems
  {
    LegendaryNotEpic();
    LegendaryNotJunk();
    EpicNotJunk();
  }

  lemma LegendaryNotEpic()
    ensures LegendaryItems !! EpicItems
  {
  }

  lemma LegendaryNotJunk()
    ensures LegendaryItems !! JunkItems
  {
  }

  lemma EpicNotJunk()
    ensures EpicItems !! JunkItems
  {
  }

  /** ENCHANTED_GOLDEN_APPLE contains "GOLDEN", so the UNCOMMON rule matches it, yet its set makes it EPIC. */
  lemma EnchantedGoldenAppleIsEpic()
    ensures Contains("ENCHANTED_GOLDEN_APPLE", "GOLDEN")
    ensures Matches(Rules[GOLD_RULE], "ENCHANTED_GOLDEN_APPLE")
    ensures Resolve("ENCHANTED_GOLDEN_APPLE") == EPIC
  {
    assert OccursAt("ENCHANTED_GOLDEN_APPLE", "GOLDEN", 10);
    MatchesTwo("ENCHANTED_GOLDEN_APPLE", "GOLDEN", "GOLD");
  }

  /** Outside the sets, "NETHERITE" decides EPIC whatever else the name contains. */
  lemma NetheriteBeforeDiamondAndGold(name: string)
    requires name !in LegendaryItems && name !in EpicItems && name !in JunkItems
    requires Contains(name, "NETHERITE")
    ensures Resolve(name) == EPIC
  {
  }

  /** A netherite item missing from the EPIC set is still EPIC through the name rule. */
  lemma NetheriteSpearIsEpic()
    ensures "NETHERITE_SPEAR" !in EpicItems
    ensures Resolve("NETHERITE_SPEAR") == EPIC
  {
    assert OccursAt("NETHERITE_SPEAR", "NETHERITE", 0);
  }

  /** Outside the sets, "DIAMOND" without "NETHERITE" gives RARE. */
  lemma DiamondIsRare(name: string)
    requires name !in LegendaryItems && name !in EpicItems && name !in JunkItems
    requires !Contains(name, "NETHERITE") && Contains(name, "DIAMOND")
    ensures Resolve(name) == RARE
  {
  }

  /** Outside the sets, "GOLD" or "IRON" without "NETHERITE" or "DIAMOND" gives UNCOMMON. */
  lemma GoldOrIronIsUncommon(name: string)
    requires name !in LegendaryItems && name !in EpicItems && name !in JunkItems
    requires !Contains(name, "NETHERITE") && !Contains(name, "DIAMOND")
    requires Contains(name, "GOLD") || Contains(name, "IRON")
    ensures Resolve(name) == UNCOMMON
  {
  }

  /** Outside the sets, a WOODEN_, STONE_ or LEATHER_ name that no material rule matched is COMMON. */
  lemma ToolPrefixIsCommon(name: string)
    requires name !in LegendaryItems && name !in EpicItems && name !in JunkItems
    requires !Contains(name, "NETHERITE") && !Contains(name, "DIAMOND") && !Contains(name, "GOLD")
    requires !Contains(name, "IRON") && !Contains(name, "CHAINMAIL")
    requires StartsWith(name, "WOODEN_") || StartsWith(name, "STONE_") || StartsWith(name, "LEATHER_")
    ensures Resolve(name) == COMMON
  {
    GoldenContainsGold(name);
  }

  /** Every name containing "GOLDEN" contains "GOLD": the first half of the UNCOMMON test is redundant. */
  lemma GoldenContainsGold(name: string)
    ensures Contains(name, "GOLDEN") ==> Contains(name, "GOLD")
  {
    if Contains(name, "GOLDEN") {
      assert OccursAt("GOLDEN", "GOLD", 0);
      ContainsTransitive(name, "GOLDEN", "GOLD");
    }
  }

  /** `pat` cannot occur in `s` when no position where it would fit starts with its first character. */
  lemma NotContainsByFirstChar(s: string, pat: string)
    requires |pat| > 0
    requires forall i: nat | i + |pat| <= |s| :: s[i] != pat[0]
    ensures !Contains(s, pat)
  {
    forall i: nat | i <= |s| && i + |pat| <= |s|
      ensures !OccursAt(s, pat, i)
    {
      assert s[i..i + |pat|][0] == s[i];
    }
  }

  /** Rule `k` can never be the first match: whatever it matches, an earlier rule matches too. */
  ghost predicate Shadowed(k: nat)
    requires k < |Rules|
  {
    forall name :: Matches(Rules[k], name) ==> exists j | 0 <= j < k :: Matches(Rules[j], name)
  }

  /** `pat` occurs in `name` and `inner` is a piece of `pat`, so the rule for `inner` matches too. */
  lemma PieceMatches(name: string, pat: string, inner: string, at: nat)
    requires Contains(name, pat) && OccursAt(pat, inner, at)
    ensures Contains(name, inner) && MatchesAny(name, [inner])
  {
    assert at <= |pat|;
    ContainsTransitive(name, pat, inner);
    MatchesOne(name, inner);
  }

  /** The storage-block rules are dead code: DIAMOND, IRON and GOLD already match those names. */
  lemma StorageBlockRulesShadowed()
    ensures Shadowed(DIAMOND_BLOCK_RULE) && Shadowed(IRON_BLOCK_RULE) && Shadowed(GOLD_BLOCK_RULE)
  {
    forall name | Matches(Rules[DIAMOND_BLOCK_RULE], name)
      ensures Matches(Rules[DIAMOND_RULE], name)
    {
      MatchesOne(name, "DIAMOND_BLOCK");
      PieceMatches(name, "DIAMOND_BLOCK", "DIAMOND", 0);
    }
    forall name | Matches(Rules[IRON_BLOCK_RULE], name)
      ensures Matches(Rules[IRON_RULE], name)
    {
      MatchesOne(name, "IRON_BLOCK");
      PieceMatches(name, "IRON_BLOCK", "IRON", 0);
    }
    forall name | Matches(Rules[GOLD_BLOCK_RULE], name)
      ensures Matches(Rules[GOLD_RULE], name)
    {
      MatchesOne(name, "GOLD_BLOCK");
      PieceMatches(name, "GOLD_BLOCK", "GOLD", 0);
      MatchesTwo(name, "GOLDEN", "GOLD");
    }
  }

  /** GOLD_ORE falls under the ore rule, which would say COMMON, but is UNCOMMON. */
  lemma GoldOreIsUncommon()
    ensures MatchesAny("GOLD_ORE", OrePatterns)
    ensures Resolve("GOLD_ORE") == UNCOMMON
  {
    assert OccursAt("GOLD_ORE", "GOLD_ORE", 0) && OrePatterns[0] == "GOLD_ORE";
    assert OccursAt("GOLD_ORE", "GOLD", 0);
    NotContainsByFirstChar("GOLD_ORE", "DIAMOND");
  }

  /** IRON_ORE falls under the ore rule, which would say COMMON, but is UNCOMMON. */
  lemma IronOreIsUncommon()
    ensures MatchesAny("IRON_ORE", OrePatterns)
    ensures Resolve("IRON_ORE") == UNCOMMON
  {
    assert OccursAt("IRON_ORE", "IRON_ORE", 0) && OrePatterns[1] == "IRON_ORE";
    assert OccursAt("IRON_ORE", "IRON", 0);
    NotContainsByFirstChar("IRON_ORE", "DIAMOND");
  }
}
