/**
  The pieces of the host game engine that the multitool core reads and writes:
  asset codes, items, item stacks with their attribute stores, item slots and
  inventories. Only what the core touches is modelled; everything else about
  the engine is left out.
 */
module Engine {

  datatype Option<+T> = None | Some(value: T)

  /** A C# `int`. */
  newtype int32 = x: int | -0x8000_0000 <= x < 0x8000_0000

  /** C#'s unchecked `x + 1` on an `int`: `int.MaxValue + 1` wraps to `int.MinValue`. */
  function Inc32(x: int32): (r: int32)
    ensures (r as int - x as int - 1) % 0x1_0000_0000 == 0
  {
    if x == 0x7FFF_FFFF then -0x8000_0000 else x + 1
  }

  /** `AssetLocation.LocationSeparator`. */
  const LocationSeparator: string := ":"

  /** An `AssetLocation`: a domain and a path. Two codes are the same when both parts are. */
  datatype Code = Code(domain: string, path: string)

  /** `AssetLocation.ToString()`. */
  function CodeString(c: Code): string
  {
    c.domain + LocationSeparator + c.path
  }

  /**
    The item class an item was registered with. `PlainItem` is any class that
    is not an `ItemMultiTool`; `AdvancedMultiToolItem` is the example subclass
    that overrides the switch-completion hook.
   */
  datatype ItemClass = PlainItem | MultiToolItem | AdvancedMultiToolItem

  datatype Item = Item(code: Code, itemClass: ItemClass)

  /** `item is ItemMultiTool` (subclasses included). */
  predicate IsMultiTool(item: Item)
  {
    item.itemClass != PlainItem
  }

  /**
    An attribute value. A tree attribute is modelled as the string entries
    the multitool core stores in it; the other kinds the core never inspects
    are `OtherValue`s.
   */
  datatype Value =
    | IntValue(i: int32)
    | StringValue(s: string)
    | TreeValue(tree: map<string, string>)
    | OtherValue(id: int)

  type Attributes = map<string, Value>

  datatype ItemStack = ItemStack(item: Item, stackSize: int, attributes: Attributes)

  /** `new ItemStack(item)`: one item, no attributes. */
  function NewItemStack(item: Item): ItemStack
  {
    ItemStack(item, 1, map[])
  }

  /**
    What the core asks of the engine, as total functions fixed for a run:
    `api.World.GetItem`, parsing a code string (`new AssetLocation(string)`)
    and `AssetLocation.Valid`.
   */
  datatype World = World(getItem: Code -> Item, parseCode: string -> Code, isValid: Code -> bool)

  /** An item slot; `itemstack == None` is an empty slot. */
  class ItemSlot {
    /** The id of the inventory holding the slot and the slot's index in it. */
    const inventoryId: string
    const slotId: int32
    var itemstack: Option<ItemStack>
    /** How many times `MarkDirty` was called. */
    var dirtyMarks: nat
    /** How many times a multitool's switch-completion hook was called on this slot. */
    ghost var hookCalls: nat

    constructor (inventoryId: string, slotId: int32, itemstack: Option<ItemStack>)
      ensures this.inventoryId == inventoryId && this.slotId == slotId
      ensures this.itemstack == itemstack && dirtyMarks == 0 && hookCalls == 0
    {
      this.inventoryId := inventoryId;
      this.slotId := slotId;
      this.itemstack := itemstack;
      dirtyMarks := 0;
      hookCalls := 0;
    }

    /** `slot.MarkDirty()`: tells the engine that the slot's contents changed. */
    method MarkDirty()
      modifies this
      ensures dirtyMarks == old(dirtyMarks) + 1 && itemstack == old(itemstack) && hookCalls == old(hookCalls)
    {
      dirtyMarks := dirtyMarks + 1;
    }
  }

  class Inventory {
    const inventoryId: string
    const slots: seq<ItemSlot>

    /** Every slot knows this inventory and its own index in it. */
    ghost predicate Valid()
    {
      forall i :: 0 <= i < |slots| ==> slots[i].inventoryId == inventoryId && slots[i].slotId as int == i
    }

    constructor (inventoryId: string, slots: seq<ItemSlot>)
      ensures this.inventoryId == inventoryId && this.slots == slots
    {
      this.inventoryId := inventoryId;
      this.slots := slots;
    }
  }

  /** A player as the server sees it: `InventoryManager.GetInventory` is a lookup by id. */
  datatype Player = Player(playerUid: string, inventories: map<string, Inventory>)
}
