/** The item payload shared by bag, equipment, bank and ground. */
module Wrappers {
  datatype Option<+T> = None | Some(value: T)
}

module Items {
  import opened Wrappers

  const WRAP: int := 0x1_0000_0000

  /** An unsigned 32-bit field; additions on it wrap at WRAP. */
  type uint32 = x: int | 0 <= x < 0x1_0000_0000

  /** The option_bits value of an item nobody has appraised yet. */
  const NEVER_APPRAISED: nat := 0xFFFF_FFFF_FFFF_FFFF

  /** equippable is has_refine_level: it selects which of quantity and refine means anything. */
  datatype Item = Item(id: uint32, quantity: uint32, refine: uint32, equippable: bool, level: int, bits: nat)

  function Min(a: uint32, b: uint32): uint32 {
    if a < b then a else b
  }

  /** How many units of item `id` one item value stands for. */
  function Units(item: Item, id: uint32): nat {
    if item.id != id then 0 else if item.equippable then 1 else item.quantity
  }

  function UnitsOf(content: Option<Item>, id: uint32): nat {
    if content.None? then 0 else Units(content.value, id)
  }

  /** What `slot` becomes after receiving `amount` units of `item`; None when they cannot stack. */
  function StackedInto(item: Item, slot: Option<Item>, amount: uint32): (r: Option<Item>)
    ensures r.None? <==> slot.Some? && (slot.value.id != item.id || slot.value.equippable || item.equippable)
  {
    if slot.Some? then
      if slot.value.id != item.id || slot.value.equippable || item.equippable then None
      else Some(slot.value.(quantity := (slot.value.quantity + amount) % WRAP))
    else Some(item.(quantity := amount))
  }

  /** A stack that takes more keeps everything but its number, a free slot takes the item as it is, with the number
      moved. */
  lemma StackingKeepsTheRest(item: Item, slot: Option<Item>, amount: uint32)
    requires StackedInto(item, slot, amount).Some?
    ensures var r := StackedInto(item, slot, amount).value;
            r == (if slot.Some? then slot.value else item).(quantity := r.quantity)
            && r.quantity == if slot.Some? then (slot.value.quantity + amount) % WRAP else amount
  {
  }

  /** The guard under which a 32-bit stack has room for `amount` more units. */
  predicate HasRoom(slot: Option<Item>, amount: uint32) {
    slot.None? || slot.value.quantity + amount < WRAP
  }

  /** A stack gains exactly the units handed over if it has room, and is short by 2^32 if it has not. */
  lemma StackingConserves(item: Item, slot: Option<Item>, amount: uint32, id: uint32)
    requires StackedInto(item, slot, amount).Some?
    ensures UnitsOf(StackedInto(item, slot, amount), id)
         == UnitsOf(slot, id) + Units(item.(quantity := amount), id)
            - (if HasRoom(slot, amount) || id != item.id then 0 else WRAP)
  {
    if slot.Some? && !HasRoom(slot, amount) {
      assert (slot.value.quantity + amount) % WRAP == slot.value.quantity + amount - WRAP;
    }
  }
}
