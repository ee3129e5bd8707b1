/**
 * The part of the server's player inventory the listener relies on: a row
 * of slots, each empty or holding an item stack, with `remove(material)`
 * and `addItem(stack)`.  `View` reads the slots as values, so that what an
 * operation does to the inventory can be stated as a function on values.
 */
module Inventory {
  import opened Wrappers
  import opened ItemUtil

  /** The value of an item stack: its type, amount and stored meta. */
  datatype Stack = Stack(kind: string, amount: int, meta: Option<Meta>)

  /** A stack carries the worth tag, as `ItemUtil.hasWorth` decides it. */
  predicate IsTagged(s: Stack) {
    s.meta.Some? && HasWorthMeta(s.meta.value)
  }

  /** The slots as values: None for an empty slot. */
  function View(slots: seq<ItemStack?>): (v: seq<Option<Stack>>)
    reads set j | 0 <= j < |slots| && slots[j] != null :: slots[j]
    ensures |v| == |slots|
    ensures forall j | 0 <= j < |slots| :: v[j].None? <==> slots[j] == null
    ensures forall j | 0 <= j < |slots| && slots[j] != null ::
      v[j] == Some(Stack(slots[j].kind, slots[j].amount, slots[j].meta))
  {
    if slots == [] then []
    else
      var last := slots[|slots| - 1];
      View(slots[..|slots| - 1])
        + [if last == null then None else Some(Stack(last.kind, last.amount, last.meta))]
  }

  /** The amount a slot contributes to the count of `material`. */
  function AmountOf(slot: Option<Stack>, material: string): int {
    if slot.Some? && slot.value.kind == material then slot.value.amount else 0
  }

  /** The total amount of `material` over all slots. */
  function Count(view: seq<Option<Stack>>, material: string): int {
    if view == [] then 0
    else Count(view[..|view| - 1], material) + AmountOf(view[|view| - 1], material)
  }

  /** The number of slots holding `material`. */
  function StacksOf(view: seq<Option<Stack>>, material: string): nat {
    if view == [] then 0
    else
      var last := view[|view| - 1];
      StacksOf(view[..|view| - 1], material) + (if last.Some? && last.value.kind == material then 1 else 0)
  }

  /** The number of empty slots. */
  function Empties(view: seq<Option<Stack>>): nat {
    if view == [] then 0
    else Empties(view[..|view| - 1]) + (if view[|view| - 1].None? then 1 else 0)
  }

  /** The first empty slot, or the length of the row when every slot is taken. */
  function FirstEmpty(view: seq<Option<Stack>>): (i: nat)
    ensures i <= |view|
    ensures i < |view| ==> view[i].None?
    ensures forall j | 0 <= j < i :: view[j].Some?
  {
    if view == [] then 0
    else if view[0].None? then 0
    else 1 + FirstEmpty(view[1..])
  }

  /** The first empty slot is the one every earlier slot is taken before. */
  lemma {:induction false} FirstEmptyAt(view: seq<Option<Stack>>, i: nat)
    requires i <= |view| && (i < |view| ==> view[i].None?)
    requires forall j | 0 <= j < i :: view[j].Some?
    ensures FirstEmpty(view) == i
    decreases i
  {
    if i > 0 {
      FirstEmptyAt(view[1..], i - 1);
    }
  }

  /** `remove(material)`: every stack of that type taken out, every other slot as it was. */
  function Removed(view: seq<Option<Stack>>, material: string): (r: seq<Option<Stack>>)
    ensures |r| == |view|
    ensures forall j | 0 <= j < |view| ::
      r[j] == if view[j].Some? && view[j].value.kind == material then None else view[j]
  {
    seq(|view|, j requires 0 <= j < |view| =>
      if view[j].Some? && view[j].value.kind == material then None else view[j])
  }

  /** `addItem(stack)` when no stack it could merge into has room: the first empty slot takes it, if there is one. */
  function Placed(view: seq<Option<Stack>>, s: Stack): seq<Option<Stack>> {
    var i := FirstEmpty(view);
    if i < |view| then view[i := Some(s)] else view
  }

  /** No stack of type `kind` has room for more. */
  predicate NoRoomFor(view: seq<Option<Stack>>, kind: string, maxStack: int) {
    forall j | 0 <= j < |view| && view[j].Some? && view[j].value.kind == kind :: view[j].value.amount >= maxStack
  }

  // ── Counting lemmas ──────────────────────────────────────────────────────

  /** Changing one slot changes the count by the difference of that slot's contributions. */
  lemma {:induction false} CountUpdate(view: seq<Option<Stack>>, i: nat, x: Option<Stack>, material: string)
    requires i < |view|
    ensures Count(view[i := x], material) == Count(view, material) - AmountOf(view[i], material) + AmountOf(x, material)
    decreases |view|
  {
    var n := |view| - 1;
    var after := view[i := x];
    if i < n {
      assert after[..n] == view[..n][i := x];
      CountUpdate(view[..n], i, x, material);
    } else {
      assert after[..n] == view[..n];
    }
  }

  /** Filling an empty slot leaves one empty slot fewer. */
  lemma {:induction false} EmptiesUpdate(view: seq<Option<Stack>>, i: nat, s: Stack)
    requires i < |view| && view[i].None?
    ensures Empties(view[i := Some(s)]) == Empties(view) - 1
    decreases |view|
  {
    var n := |view| - 1;
    var after := view[i := Some(s)];
    if i < n {
      assert after[..n] == view[..n][i := Some(s)];
      EmptiesUpdate(view[..n], i, s);
    } else {
      assert after[..n] == view[..n];
    }
  }

  /** A row with an empty slot has a first empty slot. */
  lemma {:induction false} SomeEmptyIsFound(view: seq<Option<Stack>>)
    requires Empties(view) > 0
    ensures FirstEmpty(view) < |view|
    decreases |view|
  {
    var n := |view| - 1;
    if view[n].Some? {
      SomeEmptyIsFound(view[..n]);
      var k := FirstEmpty(view[..n]);
      assert view[k] == view[..n][k];
    }
  }

  /** After `remove(material)` no stack of it is left, and every slot that held one is empty. */
  lemma {:induction false} RemovedCounts(view: seq<Option<Stack>>, material: string)
    ensures Count(Removed(view, material), material) == 0
    ensures Empties(Removed(view, material)) == Empties(view) + StacksOf(view, material)
    decreases |view|
  {
    if view != [] {
      var n := |view| - 1;
      assert Removed(view, material)[..n] == Removed(view[..n], material);
      RemovedCounts(view[..n], material);
    }
  }

  /** Stacks of at most `maxStack` items hold at most `maxStack` items per stack. */
  lemma {:induction false} CountBound(view: seq<Option<Stack>>, material: string, maxStack: int)
    requires forall j | 0 <= j < |view| && view[j].Some? && view[j].value.kind == material ::
      view[j].value.amount <= maxStack
    ensures Count(view, material) <= StacksOf(view, material) * maxStack
    decreases |view|
  {
    if view != [] {
      var n := |view| - 1;
      CountBound(view[..n], material, maxStack);
      var k := StacksOf(view[..n], material);
      if view[n].Some? && view[n].value.kind == material {
        assert (k + 1) * maxStack == k * maxStack + maxStack;
      }
    }
  }

  class PlayerInventory {
    var slots: seq<ItemStack?>

    /** No stack object sits in two slots. */
    ghost predicate Valid()
      reads this
    {
      forall i, j | 0 <= i < j < |slots| :: slots[i] != null ==> slots[i] != slots[j]
    }

    constructor (size: nat)
      ensures Valid() && |slots| == size
      ensures forall j | 0 <= j < size :: slots[j] == null
    {
      slots := seq(size, _ => null);
    }

    /** `remove(material)`: empties every slot that holds that type; the stacks themselves are not changed. */
    method Remove(material: string)
      requires Valid()
      modifies this
      ensures Valid()
      ensures |slots| == |old(slots)|
      ensures forall j | 0 <= j < |slots| ::
        slots[j] == if old(slots[j]) != null && old(slots[j].kind) == material then null else old(slots[j])
      ensures View(slots) == Removed(old(View(slots)), material)
    {
      var kept: seq<ItemStack?> := [];
      for i := 0 to |slots|
        invariant |kept| == i
        invariant forall j | 0 <= j < i ::
          kept[j] == if slots[j] != null && slots[j].kind == material then null else slots[j]
      {
        var slot := slots[i];
        kept := kept + [if slot != null && slot.kind == material then null else slot];
      }
      slots := kept;
    }

    /**
     * `addItem(stack)` for a stack that no existing stack of its type can
     * take: it goes into the first empty slot; when there is none nothing
     * changes and its whole amount is returned as left over.
     */
    method AddItem(stack: ItemStack, maxStack: int) returns (leftover: int)
      requires Valid() && stack !in slots
      requires NoRoomFor(View(slots), stack.kind, maxStack)
      modifies this
      ensures Valid()
      ensures View(slots) == Placed(old(View(slots)), Stack(stack.kind, stack.amount, stack.meta))
      ensures leftover == if FirstEmpty(old(View(slots))) < |old(slots)| then 0 else stack.amount
      ensures forall j | 0 <= j < |slots| :: slots[j] == old(slots[j]) || (old(slots[j]) == null && slots[j] == stack)
    {
      ghost var before := View(slots);
      var i := 0;
      while i < |slots| && slots[i] != null
        invariant i <= |slots|
        invariant forall j | 0 <= j < i :: slots[j] != null
      {
        i := i + 1;
      }
      FirstEmptyAt(before, i);
      if i < |slots| {
        slots := slots[i := stack];
        assert View(slots) == before[i := Some(Stack(stack.kind, stack.amount, stack.meta))];
        leftover := 0;
      } else {
        leftover := stack.amount;
      }
    }
  }
}
