/**
 * Item-level helpers: recognising and applying the worth tag (an integer
 * under the plugin's "worth" key in the item's persistent data container
 * plus one "Worth: " lore line) and turning an item name into display text.
 */
module ItemUtil {
  import opened Wrappers
  import opened Materials
  import opened TierResolver

  /** The parts of an item's meta the plugin reads and writes. */
  datatype Meta = Meta(worth: Option<int>, lore: seq<string>)

  const EmptyMeta: Meta := Meta(None, [])

  class ItemStack {
    var kind: string
    var amount: int
    /** The stored meta; None when the item has no meta of its own (`hasItemMeta()` is false). */
    var meta: Option<Meta>

    constructor (kind: string, amount: int, meta: Option<Meta>)
      ensures this.kind == kind && this.amount == amount && this.meta == meta
    {
      this.kind := kind;
      this.amount := amount;
      this.meta := meta;
    }

    /** A new stack with the same type, amount and meta. */
    method Clone() returns (c: ItemStack)
      ensures fresh(c)
      ensures c.kind == kind && c.amount == amount && c.meta == meta
    {
      c := new ItemStack(kind, amount, meta);
    }
  }

  /** `getItemMeta()`: none for air, otherwise the stored meta or a fresh empty one. */
  function ItemMetaOf(kind: string, meta: Option<Meta>): (r: Option<Meta>)
    ensures r.None? <==> IsAir(kind)
  {
    if IsAir(kind) then None else Some(meta.GetOr(EmptyMeta))
  }

  // ── Colour codes ─────────────────────────────────────────────────────────

  const SECTION: char := '§'
  const GRAY: string := [SECTION, '7']
  const GREEN: string := [SECTION, 'a']
  const WORTH_PREFIX: string := "Worth: "

  /** A character that forms a colour or format code after the section sign (either case). */
  predicate IsColorCode(c: char) {
    || '0' <= c <= '9' || 'a' <= c <= 'f' || 'A' <= c <= 'F'
    || 'k' <= c <= 'o' || 'K' <= c <= 'O' || c == 'r' || c == 'R' || c == 'x' || c == 'X'
  }

  /** `ChatColor.stripColor`: removes every section sign that is followed by a code character, with that character. */
  function StripColor(s: string): string
    decreases |s|
  {
    if |s| == 0 then ""
    else if |s| >= 2 && s[0] == SECTION && IsColorCode(s[1]) then StripColor(s[2..])
    else [s[0]] + StripColor(s[1..])
  }

  /** Text without section signs passes through colour stripping unchanged. */
  lemma {:induction false} StripColorPlainPrefix(plain: string, rest: string)
    requires SECTION !in plain
    ensures StripColor(plain + rest) == plain + StripColor(rest)
    decreases |plain|
  {
    if |plain| == 0 {
      assert plain + rest == rest;
    } else {
      var s := plain + rest;
      assert s[0] == plain[0] != SECTION;
      assert s[1..] == plain[1..] + rest;
      assert StripColor(s) == [s[0]] + StripColor(s[1..]);
      StripColorPlainPrefix(plain[1..], rest);
      assert plain == [plain[0]] + plain[1..];
    }
  }

  // ── Number formatting (US locale, digit grouping) ────────────────────────

  function DigitChar(d: nat): char
    requires d < 10
  {
    "0123456789"[d]
  }

  function Digits(n: nat): string
    decreases n
  {
    if n < 10 then [DigitChar(n)] else Digits(n / 10) + [DigitChar(n % 10)]
  }

  function Pad3(n: nat): string
    requires n < 1000
  {
    (if n < 100 then "0" else "") + (if n < 10 then "0" else "") + Digits(n)
  }

  function Grouped(n: nat): string
    decreases n
  {
    if n < 1000 then Digits(n) else Grouped(n / 1000) + "," + Pad3(n % 1000)
  }

  /** `NumberFormat.getInstance(Locale.US).format(n)`. */
  function FormatNumber(n: int): string {
    if n < 0 then "-" + Grouped(-n) else Grouped(n)
  }

  // ── The worth tag ────────────────────────────────────────────────────────

  /** The lore line that records a price: grey "Worth: ", then green currency symbol and amount. */
  function WorthLine(price: int, currency: string): string {
    GRAY + (WORTH_PREFIX + (GREEN + (currency + FormatNumber(price))))
  }

  /** Some lore line reads "Worth: ..." once its colour codes are stripped. */
  predicate HasWorthLore(lore: seq<string>) {
    exists k | 0 <= k < |lore| :: StartsWith(StripColor(lore[k]), WORTH_PREFIX)
  }

  /** The meta carries the worth key or a worth lore line. */
  predicate HasWorthMeta(meta: Meta) {
    meta.worth.Some? || HasWorthLore(meta.lore)
  }

  /** `hasWorth`: the item exists, has meta of its own, and that meta carries the worth tag. */
  predicate HasWorth(item: ItemStack?)
    reads item
  {
    item != null && item.meta.Some? && HasWorthMeta(item.meta.value)
  }

  /** `getWorth`: the integer under the worth key, 0 when the item, its meta or the entry is missing. */
  function GetWorth(item: ItemStack?): int
    reads item
  {
    if item == null || item.meta.None? then 0 else item.meta.value.worth.GetOr(0)
  }

  /** The stored meta after `applyPriceLore(item, price, currency)` on an item of type `kind` with stored meta `meta`. */
  function AppliedMeta(kind: string, meta: Option<Meta>, price: int, currency: string): Option<Meta> {
    if kind == "AIR" || price <= 0 then meta
    else if ItemMetaOf(kind, meta).None? then meta
    else if meta.Some? && HasWorthMeta(meta.value) then meta
    else
      var m := ItemMetaOf(kind, meta).value;
      Some(Meta(Some(price), m.lore + [WorthLine(price, currency)]))
  }

  /** Tags the item with `price`, unless it is air, the price is not positive, or it is already tagged. */
  method ApplyPriceLore(item: ItemStack?, price: int, currency: string)
    modifies item
    ensures item != null ==> item.kind == old(item.kind) && item.amount == old(item.amount)
    ensures item != null ==> item.meta == AppliedMeta(item.kind, old(item.meta), price, currency)
    ensures item != null && !IsAir(item.kind) && price > 0 && !old(HasWorth(item)) ==>
      HasWorth(item) && GetWorth(item) == price
  {
    if item == null || item.kind == "AIR" {
      return;
    }
    if price <= 0 {
      return;
    }
    var meta := ItemMetaOf(item.kind, item.meta);
    if meta.None? {
      return;
    }
    if HasWorth(item) {
      return;
    }
    var m := meta.value.(worth := Some(price));
    var lore := m.lore;
    lore := lore + [WorthLine(price, currency)];
    item.meta := Some(m.(lore := lore));
    ApplyAppendsOneLine(item.kind, old(item.meta), price, currency);
  }

  // ── Properties of the worth tag ──────────────────────────────────────────

  /** A grey "Worth: " followed by anything reads "Worth: " once colours are stripped. */
  lemma StrippedWorthPrefix(tail: string)
    ensures StartsWith(StripColor(GRAY + (WORTH_PREFIX + tail)), WORTH_PREFIX)
  {
    var line := GRAY + (WORTH_PREFIX + tail);
    assert line[2..] == WORTH_PREFIX + tail;
    assert StripColor(line) == StripColor(WORTH_PREFIX + tail);
    StripColorPlainPrefix(WORTH_PREFIX, tail);
  }

  /** The appended line is itself a worth line once colours are stripped, so the tag survives a lost data entry. */
  lemma WorthLineRecognised(price: int, currency: string)
    ensures StartsWith(StripColor(WorthLine(price, currency)), WORTH_PREFIX)
  {
    StrippedWorthPrefix(GREEN + (currency + FormatNumber(price)));
  }

  /** The item is changed exactly when it is not air, the price is positive and it carries no worth tag yet. */
  lemma ApplyChangesExactlyWhen(kind: string, meta: Option<Meta>, price: int, currency: string)
    ensures AppliedMeta(kind, meta, price, currency) != meta <==>
      !IsAir(kind) && price > 0 && !(meta.Some? && HasWorthMeta(meta.value))
  {
  }

  /**
   * A successful application stores the price under the worth key and appends
   * exactly one line, after the existing lines in their order; the result is
   * recognised as tagged both by its data entry and by its lore alone.
   */
  lemma ApplyAppendsOneLine(kind: string, meta: Option<Meta>, price: int, currency: string)
    requires !IsAir(kind) && price > 0 && !(meta.Some? && HasWorthMeta(meta.value))
    ensures var after := AppliedMeta(kind, meta, price, currency);
      && after.Some? && after.value.worth == Some(price)
      && |after.value.lore| == |meta.GetOr(EmptyMeta).lore| + 1
      && after.value.lore[..|after.value.lore| - 1] == meta.GetOr(EmptyMeta).lore
      && after.value.lore[|after.value.lore| - 1] == WorthLine(price, currency)
      && HasWorthMeta(after.value)
      && HasWorthLore(after.value.lore)
  {
    var after := AppliedMeta(kind, meta, price, currency).value;
    var n := |after.lore| - 1;
    WorthLineRecognised(price, currency);
    assert StartsWith(StripColor(after.lore[n]), WORTH_PREFIX);
  }

  /** Applying the tag a second time, with any price and currency, changes nothing. */
  lemma ApplyIdempotent(kind: string, meta: Option<Meta>, price: int, currency: string, price2: int, currency2: string)
    requires price > 0
    ensures var once := AppliedMeta(kind, meta, price, currency);
      AppliedMeta(kind, once, price2, currency2) == once
  {
  }

  // ── Display names ────────────────────────────────────────────────────────

  function ToUpper(c: char): char {
    if 'a' <= c <= 'z' then (c as int - 'a' as int + 'A' as int) as char else c
  }

  function ToLower(c: char): char {
    if 'A' <= c <= 'Z' then (c as int - 'A' as int + 'a' as int) as char else c
  }

  function LowerCase(s: string): (r: string)
    ensures |r| == |s| && forall i :: 0 <= i < |s| ==> r[i] == ToLower(s[i])
  {
    if s == [] then [] else [ToLower(s[0])] + LowerCase(s[1..])
  }

  /** First character upper-cased, the rest lower-cased. */
  function Capitalize(word: string): string
    requires word != []
  {
    [ToUpper(word[0])] + LowerCase(word[1..])
  }

  /** Every piece of `s` between '_' separators, empty pieces included. */
  function SplitAll(s: string): (pieces: seq<string>)
    ensures |pieces| >= 1
  {
    if s == [] then [""]
    else if s[0] == '_' then [""] + SplitAll(s[1..])
    else
      var rest := SplitAll(s[1..]);
      [[s[0]] + rest[0]] + rest[1..]
  }

  function DropTrailingEmpty(pieces: seq<string>): seq<string> {
    if pieces != [] && pieces[|pieces| - 1] == "" then DropTrailingEmpty(pieces[..|pieces| - 1])
    else pieces
  }

  /** Java's `s.split("_")`: the whole string when there is no separator, otherwise the pieces without trailing empty ones. */
  function JavaSplit(s: string): seq<string> {
    if '_' !in s then [s] else DropTrailingEmpty(SplitAll(s))
  }

  /** Each word capitalised and followed by one space, as the string builder accumulates them. */
  function Build(words: seq<string>): string
    requires forall k | 0 <= k < |words| :: words[k] != ""
  {
    if words == [] then ""
    else Build(words[..|words| - 1]) + Capitalize(words[|words| - 1]) + " "
  }

  predicate IsBlank(c: char) {
    c <= ' '
  }

  function TrimStart(s: string): string {
    if s != [] && IsBlank(s[0]) then TrimStart(s[1..]) else s
  }

  function TrimEnd(s: string): string {
    if s != [] && IsBlank(s[|s| - 1]) then TrimEnd(s[..|s| - 1]) else s
  }

  /** Java's `String.trim()`. */
  function Trim(s: string): string {
    TrimEnd(TrimStart(s))
  }

  /**
   * What `formatName` returns for an item named `name`: the name split at
   * '_', each word capitalised and followed by a space, the whole trimmed.
   * None stands for the exception `charAt(0)` raises on an empty word.
   */
  function FormattedName(name: string): Option<string> {
    var words := JavaSplit(name);
    if exists k | 0 <= k < |words| :: words[k] == "" then None
    else Some(Trim(Build(words)))
  }

  /** `formatName`: builds the display name word by word. */
  method FormatName(name: string) returns (r: Option<string>)
    ensures r == FormattedName(name)
    ensures NoBlank(name) && r.Some? ==> r.value == JoinWithSpaces(CapitalizeAll(JavaSplit(name)))
  {
    var words := JavaSplit(name);
    var sb := "";
    for i := 0 to |words|
      invariant forall k | 0 <= k < i :: words[k] != ""
      invariant sb == Build(words[..i])
    {
      if words[i] == "" {
        return None;
      }
      assert words[..i + 1][..i] == words[..i];
      sb := sb + Capitalize(words[i]) + " ";
    }
    assert words[..|words|] == words;
    r := Some(Trim(sb));
    if NoBlank(name) {
      FormatNameJoinsWords(name);
    }
  }

  /** Words joined by single spaces, nothing before the first or after the last. */
  function JoinWithSpaces(words: seq<string>): string {
    if words == [] then ""
    else if |words| == 1 then words[0]
    else JoinWithSpaces(words[..|words| - 1]) + " " + words[|words| - 1]
  }

  function CapitalizeAll(words: seq<string>): (r: seq<string>)
    requires forall k | 0 <= k < |words| :: words[k] != ""
    ensures |r| == |words|
    ensures forall k | 0 <= k < |words| :: r[k] == Capitalize(words[k])
  {
    if words == [] then [] else [Capitalize(words[0])] + CapitalizeAll(words[1..])
  }

  // ── Properties of formatName ─────────────────────────────────────────────

  predicate NoBlank(s: string) {
    forall i | 0 <= i < |s| :: !IsBlank(s[i])
  }

  lemma CapitalizeNoBlank(word: string)
    requires word != [] && NoBlank(word)
    ensures NoBlank(Capitalize(word))
  {
    var c := Capitalize(word);
    forall i | 0 <= i < |c|
      ensures !IsBlank(c[i])
    {
      if i > 0 {
        assert c[i] == LowerCase(word[1..])[i - 1] == ToLower(word[i]);
      }
    }
  }

  /** Every piece the split produces is made of characters of the name. */
  lemma {:induction false} SplitAllNoBlank(s: string)
    requires NoBlank(s)
    ensures forall k | 0 <= k < |SplitAll(s)| :: NoBlank(SplitAll(s)[k])
    decreases |s|
  {
    if s != [] {
      assert NoBlank(s[1..]) by {
        forall i | 0 <= i < |s[1..]| ensures !IsBlank(s[1..][i]) {
          assert s[1..][i] == s[i + 1];
        }
      }
      SplitAllNoBlank(s[1..]);
      if s[0] != '_' {
        var rest := SplitAll(s[1..]);
        var head := [s[0]] + rest[0];
        assert NoBlank(head) by {
          forall i | 0 <= i < |head| ensures !IsBlank(head[i]) {
            if i > 0 { assert head[i] == rest[0][i - 1]; }
          }
        }
        var r := [head] + rest[1..];
        forall k | 0 <= k < |r| ensures NoBlank(r[k]) {
          if k > 0 { assert r[k] == rest[k]; }
        }
      } else {
        var r := [""] + SplitAll(s[1..]);
        forall k | 0 <= k < |r| ensures NoBlank(r[k]) {
          if k > 0 { assert r[k] == SplitAll(s[1..])[k - 1]; }
        }
      }
    }
  }

  lemma {:induction false} DropTrailingEmptyIsPrefix(pieces: seq<string>)
    ensures |DropTrailingEmpty(pieces)| <= |pieces|
    ensures DropTrailingEmpty(pieces) == pieces[..|DropTrailingEmpty(pieces)|]
    decreases |pieces|
  {
    if pieces != [] && pieces[|pieces| - 1] == "" {
      var shorter := pieces[..|pieces| - 1];
      DropTrailingEmptyIsPrefix(shorter);
      assert shorter[..|DropTrailingEmpty(shorter)|] == pieces[..|DropTrailingEmpty(shorter)|];
    }
  }

  lemma SplitWordsNoBlank(name: string)
    requires NoBlank(name)
    ensures forall k | 0 <= k < |JavaSplit(name)| :: NoBlank(JavaSplit(name)[k])
  {
    if '_' in name {
      SplitAllNoBlank(name);
      DropTrailingEmptyIsPrefix(SplitAll(name));
      var r := JavaSplit(name);
      forall k | 0 <= k < |r| ensures NoBlank(r[k]) {
        assert r[k] == SplitAll(name)[k];
      }
    }
  }

  /** Capitalising all words and then dropping the last is capitalising all but the last. */
  lemma CapitalizeAllInit(words: seq<string>)
    requires words != [] && forall k | 0 <= k < |words| :: words[k] != ""
    ensures CapitalizeAll(words)[..|words| - 1] == CapitalizeAll(words[..|words| - 1])
  {
  }

  /** The builder's text is the words joined by spaces plus one trailing space. */
  lemma {:induction false} BuildIsJoinPlusSpace(words: seq<string>)
    requires forall k | 0 <= k < |words| :: words[k] != ""
    ensures words == [] ==> Build(words) == ""
    ensures words != [] ==> Build(words) == JoinWithSpaces(CapitalizeAll(words)) + " "
    decreases |words|
  {
    if words != [] {
      var n := |words| - 1;
      BuildIsJoinPlusSpace(words[..n]);
      CapitalizeAllInit(words);
    }
  }

  /** Joined non-blank words start and end with a non-blank character. */
  lemma {:induction false} JoinEndsNonBlank(words: seq<string>)
    requires words != []
    requires forall k | 0 <= k < |words| :: words[k] != [] && NoBlank(words[k])
    ensures var j := JoinWithSpaces(words); j != [] && !IsBlank(j[0]) && !IsBlank(j[|j| - 1])
    decreases |words|
  {
    var last := words[|words| - 1];
    if |words| > 1 {
      var init := words[..|words| - 1];
      JoinEndsNonBlank(init);
      var head := JoinWithSpaces(init);
      var j := head + " " + last;
      assert j[0] == head[0];
      assert j[|j| - 1] == last[|last| - 1];
    } else {
      assert JoinWithSpaces(words) == last;
    }
  }

  lemma TrimDropsTrailingSpace(j: string)
    requires j == [] || (!IsBlank(j[0]) && !IsBlank(j[|j| - 1]))
    ensures Trim(j + " ") == j
  {
    var s := j + " ";
    if j == [] {
      assert TrimStart(s) == TrimStart(s[1..]);
      assert s[1..] == [];
    } else {
      assert s[0] == j[0];
      assert TrimStart(s) == s;
      assert s[..|s| - 1] == j;
      assert TrimEnd(s) == TrimEnd(j);
    }
  }

  /**
   * For a name without blank characters whose split has no empty word,
   * `formatName` yields one capitalised word per piece of the name, joined by
   * single spaces, with no space before the first or after the last.
   */
  lemma FormatNameJoinsWords(name: string)
    requires NoBlank(name)
    requires forall k | 0 <= k < |JavaSplit(name)| :: JavaSplit(name)[k] != ""
    ensures FormattedName(name) == Some(JoinWithSpaces(CapitalizeAll(JavaSplit(name))))
  {
    var words := JavaSplit(name);
    BuildIsJoinPlusSpace(words);
    var caps := CapitalizeAll(words);
    if words != [] {
      SplitWordsNoBlank(name);
      forall k | 0 <= k < |caps| ensures caps[k] != [] && NoBlank(caps[k]) {
        CapitalizeNoBlank(words[k]);
      }
      JoinEndsNonBlank(caps);
    }
    TrimDropsTrailingSpace(JoinWithSpaces(caps));
  }

  /** A piece without separators is split into itself. */
  lemma {:induction false} SplitAllNoSeparator(a: string)
    requires '_' !in a
    ensures SplitAll(a) == [a]
    decreases |a|
  {
    if a != [] {
      assert '_' !in a[1..] by {
        forall i | 0 <= i < |a[1..]| ensures a[1..][i] != '_' {
          assert a[1..][i] == a[i + 1];
        }
      }
      SplitAllNoSeparator(a[1..]);
      assert [a[0]] + a[1..] == a;
    }
  }

  /** The text before the first separator is the first piece; the rest is split on its own. */
  lemma {:induction false} SplitAllFirstPiece(a: string, b: string)
    requires '_' !in a
    ensures SplitAll(a + "_" + b) == [a] + SplitAll(b)
    decreases |a|
  {
    var s := a + "_" + b;
    if a == [] {
      assert s[0] == '_' && s[1..] == b;
    } else {
      assert s[0] == a[0];
      assert s[1..] == a[1..] + "_" + b;
      assert '_' !in a[1..] by {
        forall i | 0 <= i < |a[1..]| ensures a[1..][i] != '_' {
          assert a[1..][i] == a[i + 1];
        }
      }
      SplitAllFirstPiece(a[1..], b);
      assert [a[0]] + a[1..] == a;
    }
  }

  lemma WhiteWoolWords()
    ensures JavaSplit("WHITE_WOOL") == ["WHITE", "WOOL"]
  {
    var words := ["WHITE", "WOOL"];
    assert "WHITE_WOOL" == "WHITE" + "_" + "WOOL";
    SplitAllFirstPiece("WHITE", "WOOL");
    SplitAllNoSeparator("WOOL");
    assert "WHITE_WOOL"[5] == '_';
    assert words[|words| - 1] != "";
  }

  lemma WhiteWoolCapitals()
    ensures CapitalizeAll(["WHITE", "WOOL"]) == ["White", "Wool"]
  {
    var caps := CapitalizeAll(["WHITE", "WOOL"]);
    assert caps[0] == "White" by {
      var low := LowerCase("HITE");
      assert low[0] == 'h' && low[1] == 'i' && low[2] == 't' && low[3] == 'e';
    }
    assert caps[1] == "Wool" by {
      var low := LowerCase("OOL");
      assert low[0] == 'o' && low[1] == 'o' && low[2] == 'l';
    }
  }

  lemma WhiteWoolHasNoBlank()
    ensures NoBlank("WHITE_WOOL")
  {
  }

  lemma WhiteWoolJoined()
    ensures JoinWithSpaces(["White", "Wool"]) == "White Wool"
  {
    var caps := ["White", "Wool"];
    assert caps[..1] == ["White"];
  }

  /** The documented example: WHITE_WOOL is shown as "White Wool". */
  lemma WhiteWoolExample()
    ensures FormattedName("WHITE_WOOL") == Some("White Wool")
  {
    WhiteWoolWords();
    WhiteWoolHasNoBlank();
    FormatNameJoinsWords("WHITE_WOOL");
    WhiteWoolCapitals();
    WhiteWoolJoined();
  }
}
