/**
 * The host's item catalogue (the `Material` enumeration): a fixed list of
 * distinct names in declaration order.  An item's ordinal is its position
 * in that list, and `valueOf` succeeds exactly on the names in it.
 */
module Materials {

  /** Largest value of a Java `int`. */
  const INT_MAX: int := 0x7fff_ffff

  /** The item types whose `isAir()` is true. */
  predicate IsAir(name: string) {
    name == "AIR" || name == "CAVE_AIR" || name == "VOID_AIR"
  }

  datatype Catalog = Catalog(names: seq<string>) {

    /** Names are pairwise distinct and every ordinal is a Java `int`. */
    predicate Valid() {
      && |names| <= INT_MAX
      && forall i, j :: 0 <= i < j < |names| ==> names[i] != names[j]
    }

    /** `Material.valueOf(name)` succeeds. */
    predicate Known(name: string) {
      name in names
    }

    /** `Material.ordinal()`: the position of `name` in declaration order. */
    function Ordinal(name: string): (i: nat)
      requires Known(name)
      ensures i < |names| && names[i] == name
      ensures name !in names[..i]
    {
      IndexOf(names, name)
    }
  }

  /** Position of the first occurrence of `x` in `s`. */
  function IndexOf(s: seq<string>, x: string): (i: nat)
    requires x in s
    ensures i < |s| && s[i] == x
    ensures x !in s[..i]
  {
    if s[0] == x then 0
    else
      assert s == [s[0]] + s[1..];
      var j := IndexOf(s[1..], x);
      assert s[..j + 1] == [s[0]] + s[1..][..j];
      j + 1
  }

  /** Distinct names have distinct ordinals, so the ordinal identifies the item. */
  lemma OrdinalInjective(c: Catalog, a: string, b: string)
    requires c.Valid() && c.Known(a) && c.Known(b)
    ensures c.Ordinal(a) == c.Ordinal(b) <==> a == b
  {
  }

  /** In a valid catalogue the ordinal of the name at position `i` is `i`. */
  lemma OrdinalOfPosition(c: Catalog, i: nat)
    requires c.Valid() && i < |c.names|
    ensures c.Ordinal(c.names[i]) == i
  {
    var k := c.Ordinal(c.names[i]);
    if k < i {
      assert c.names[k] == c.names[i];
    }
  }
}
