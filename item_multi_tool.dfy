/**
  The multitool item (`ItemMultiTool`): the server-side switch of the stack in
  a slot to another member of a family, the request handler in front of it,
  the client-side request and dialog list, and the copying of watched
  attributes on a switch and when a multitool is crafted.
 */
module ItemMultiTool {
  import opened Engine
  import opened Families
  import opened Registry
  import AdvancedMultitool

  /** `SwitchSound`. */
  const SwitchSound: Code := Code("game", "sounds/toggleswitch")

  /** What a multitool reads from its registry: watched keys, engine, family table and the family-info keys. */
  datatype Setup = Setup(watched: seq<string>, world: World, families: FamilyTable,
                         familyInfoKey: string, currentFamilyKey: string)

  function SetupOf(sys: MultiToolSystem, families: FamilyTable): Setup
    reads sys
  {
    Setup(sys.toolAttributesToKeepOnSwitch, sys.world, families, sys.familyInfoKey, sys.currentFamilyKey)
  }

  // ---------------------------------------------------------------------------
  // Copying watched attributes

  /**
    `to` after `CopyAttributes(from, to)`: every watched key that `from` has
    is set to `from`'s value; every other key of `to` is left as it is, and
    no unwatched key is copied.
   */
  function CopiedAttributes(watched: seq<string>, from: Attributes, to: Attributes): (r: Attributes)
    ensures forall k :: k in r <==> k in to || (k in watched && k in from)
    ensures forall k :: k in r ==> r[k] == if k in watched && k in from then from[k] else to[k]
  {
    if |watched| == 0 then to
    else
      var prev := CopiedAttributes(watched[..|watched| - 1], from, to);
      var key := watched[|watched| - 1];
      if key in from then prev[key := from[key]] else prev
  }

  /** `CopyAttributes`: the loop over the watched keys, proved to compute `CopiedAttributes`. */
  method CopyAttributes(watched: seq<string>, stackFrom: Attributes, stackTo: Attributes) returns (r: Attributes)
    ensures r == CopiedAttributes(watched, stackFrom, stackTo)
  {
    r := stackTo;
    var i := 0;
    while i < |watched|
      invariant 0 <= i <= |watched|
      invariant r == CopiedAttributes(watched[..i], stackFrom, stackTo)
    {
      var key := watched[i];
      assert watched[..i + 1][..i] == watched[..i];
      if key in stackFrom {
        r := r[key := stackFrom[key]];
      }
      i := i + 1;
    }
    assert watched[..i] == watched;
  }

  // ---------------------------------------------------------------------------
  // The family-info tree

  /** `GetOrAddTreeAttribute` throws when the key holds a value that is not a tree. */
  predicate HasFamilyTreeShape(attributes: Attributes, key: string)
  {
    key !in attributes || attributes[key].TreeValue?
  }

  /** The family-info tree as `GetOrAddTreeAttribute` finds it: empty when absent. */
  function FamilyTreeOf(attributes: Attributes, key: string): map<string, string>
  {
    if key in attributes && attributes[key].TreeValue? then attributes[key].tree else map[]
  }

  function WithFamilyTree(attributes: Attributes, key: string, tree: map<string, string>): Attributes
  {
    attributes[key := TreeValue(tree)]
  }

  /** `GetOrAddTreeAttribute`'s side effect: an empty tree is stored when there was none. */
  function WithTreeAdded(stack: ItemStack, key: string): ItemStack
  {
    if key in stack.attributes then stack else stack.(attributes := stack.attributes[key := TreeValue(map[])])
  }

  /** Adding the tree a second time changes nothing, and the tree read back is the one there was (or an empty one). */
  lemma TreeAddedOnce(stack: ItemStack, key: string)
    requires HasFamilyTreeShape(stack.attributes, key)
    ensures WithTreeAdded(WithTreeAdded(stack, key), key) == WithTreeAdded(stack, key)
    ensures FamilyTreeOf(WithTreeAdded(stack, key).attributes, key) == FamilyTreeOf(stack.attributes, key)
    ensures HasFamilyTreeShape(WithTreeAdded(stack, key).attributes, key)
  {
  }

  predicate KnownFamily(families: FamilyTable, family: string)
  {
    family in families.members && |families.members[family]| > 0
  }

  /**
    The code a switch to `family` goes to: the one the tree remembers for the
    family, or else the family's first member. (The default is evaluated
    eagerly, so the family must be known even when the tree has an entry.)
   */
  function TargetCode(families: FamilyTable, tree: map<string, string>, family: string): string
    requires KnownFamily(families, family)
  {
    if family in tree then tree[family] else CodeString(families.members[family][0])
  }

  /** The item a code string names: `api.World.GetItem(new AssetLocation(code))`. */
  function TargetItem(world: World, code: string): Item
  {
    world.getItem(world.parseCode(code))
  }

  /** The stack with its tree remembering `code` both as the family's choice and under the current-family key. */
  function Remembered(setup: Setup, stack: ItemStack, family: string, code: string): ItemStack
  {
    var tree := FamilyTreeOf(stack.attributes, setup.familyInfoKey);
    stack.(attributes := WithFamilyTree(stack.attributes, setup.familyInfoKey,
                                        tree[setup.currentFamilyKey := code][family := code]))
  }

  // ---------------------------------------------------------------------------
  // The switch, as values

  /** What a switch did: the stack left in the slot, whether it was replaced, whether a sound played, how often the hook ran. */
  datatype SwitchOutcome = SwitchOutcome(stack: ItemStack, replaced: bool, soundPlayed: bool, hookCalls: nat)

  /** The completion hook, dispatched on the item class of the stack in the slot. */
  function AfterSwitchHook(stack: ItemStack): ItemStack
    requires IsMultiTool(stack.item)
  {
    match stack.item.itemClass
    case MultiToolItem => stack
    case AdvancedMultiToolItem => stack.(attributes := AdvancedMultitool.CountedSwitch(stack.attributes))
  }

  /** The code comparison that decides whether a switch replaces the stack (codes compared as strings). */
  predicate ChangesItem(stack: ItemStack, item: Item)
  {
    CodeString(item.code) != CodeString(stack.item.code)
  }

  /** A replacement stack must be of a multitool class, or the hook call throws. */
  predicate HookDefined(stack: ItemStack, item: Item)
  {
    ChangesItem(stack, item) ==> IsMultiTool(item)
  }

  /**
    Puts a fresh stack of `item` in place of `stack` unless `stack` already
    has that code; the new stack carries the watched attributes of the old
    one and then goes through the completion hook.
   */
  function ReplaceWith(watched: seq<string>, stack: ItemStack, item: Item, playSound: bool): SwitchOutcome
    requires HookDefined(stack, item)
  {
    if !ChangesItem(stack, item) then SwitchOutcome(stack, false, false, 0)
    else
      var moved := NewItemStack(item).(attributes := CopiedAttributes(watched, stack.attributes, map[]));
      SwitchOutcome(AfterSwitchHook(moved), true, playSound, 1)
  }

  /** What the switch needs of its input not to throw. */
  predicate CanSwitch(setup: Setup, stack: ItemStack, family: string)
  {
    && KnownFamily(setup.families, family)
    && HasFamilyTreeShape(stack.attributes, setup.familyInfoKey)
    && HookDefined(stack, TargetItem(setup.world, TargetCode(setup.families, FamilyTreeOf(stack.attributes, setup.familyInfoKey), family)))
  }

  /** A switch of `stack` to `family`: resolve the code, remember it in the tree, then replace if it differs. */
  function SwitchInSlot(setup: Setup, stack: ItemStack, family: string, playSound: bool): SwitchOutcome
    requires CanSwitch(setup, stack, family)
  {
    var code := TargetCode(setup.families, FamilyTreeOf(stack.attributes, setup.familyInfoKey), family);
    ReplaceWith(setup.watched, Remembered(setup, stack, family, code), TargetItem(setup.world, code), playSound)
  }

  /**
    How a switch leaves the family-info tree: the target code is stored under
    the family and under the current-family key; every other entry is kept.
   */
  ghost predicate RecordsChoice(oldTree: map<string, string>, newTree: map<string, string>,
                                currentFamilyKey: string, family: string, code: string)
  {
    && newTree.Keys == oldTree.Keys + {currentFamilyKey, family}
    && newTree[family] == code && newTree[currentFamilyKey] == code
    && forall g :: g in oldTree && g != family && g != currentFamilyKey ==> newTree[g] == oldTree[g]
  }

  /**
    A switch to the code the slot already holds replaces nothing, plays no
    sound and fires no hook; the stack keeps its item, size and attributes,
    except that its family-info tree records the choice.
   */
  lemma SwitchNoOp(setup: Setup, stack: ItemStack, family: string, playSound: bool)
    requires CanSwitch(setup, stack, family)
    requires !ChangesItem(stack, TargetItem(setup.world, TargetCode(setup.families, FamilyTreeOf(stack.attributes, setup.familyInfoKey), family)))
    ensures var o := SwitchInSlot(setup, stack, family, playSound);
      && !o.replaced && !o.soundPlayed && o.hookCalls == 0
      && o.stack.item == stack.item && o.stack.stackSize == stack.stackSize
      && o.stack.attributes.Keys == stack.attributes.Keys + {setup.familyInfoKey}
      && (forall k :: k in stack.attributes && k != setup.familyInfoKey ==> o.stack.attributes[k] == stack.attributes[k])
      && RecordsChoice(FamilyTreeOf(stack.attributes, setup.familyInfoKey), FamilyTreeOf(o.stack.attributes, setup.familyInfoKey),
                       setup.currentFamilyKey, family,
                       TargetCode(setup.families, FamilyTreeOf(stack.attributes, setup.familyInfoKey), family))
  {
  }

  /**
    A switch to another code puts a fresh one-item stack of the target item
    in the slot, carrying the watched attributes of the old stack and no
    unwatched ones (the hook may add the switch counter); the sound plays iff
    asked for and the hook fires once. With the family-info key watched, the
    new stack's tree records the choice.
   */
  lemma SwitchReplaces(setup: Setup, stack: ItemStack, family: string, playSound: bool)
    requires CanSwitch(setup, stack, family)
    requires ChangesItem(stack, TargetItem(setup.world, TargetCode(setup.families, FamilyTreeOf(stack.attributes, setup.familyInfoKey), family)))
    ensures var code := TargetCode(setup.families, FamilyTreeOf(stack.attributes, setup.familyInfoKey), family);
      var o := SwitchInSlot(setup, stack, family, playSound);
      && o.replaced && o.soundPlayed == playSound && o.hookCalls == 1
      && o.stack.item == TargetItem(setup.world, code) && o.stack.stackSize == 1
      && (forall k :: k in o.stack.attributes && k != AdvancedMultitool.AdvancedSwitchAttributeKey ==> k in setup.watched)
      && (forall k :: k in setup.watched && k in stack.attributes && k != setup.familyInfoKey
                      && k != AdvancedMultitool.AdvancedSwitchAttributeKey ==>
            k in o.stack.attributes && o.stack.attributes[k] == stack.attributes[k])
      && (forall k :: k !in stack.attributes && k != setup.familyInfoKey && k != AdvancedMultitool.AdvancedSwitchAttributeKey ==>
            k !in o.stack.attributes)
      && (setup.familyInfoKey in setup.watched && setup.familyInfoKey != AdvancedMultitool.AdvancedSwitchAttributeKey ==>
            RecordsChoice(FamilyTreeOf(stack.attributes, setup.familyInfoKey), FamilyTreeOf(o.stack.attributes, setup.familyInfoKey),
                          setup.currentFamilyKey, family, code))
  {
    var code := TargetCode(setup.families, FamilyTreeOf(stack.attributes, setup.familyInfoKey), family);
    var item := TargetItem(setup.world, code);
    var r := Remembered(setup, stack, family, code);
    var copied := CopiedAttributes(setup.watched, r.attributes, map[]);
    var o := SwitchInSlot(setup, stack, family, playSound);
    var moved := NewItemStack(item).(attributes := copied);
    assert o.stack == AfterSwitchHook(moved);
    HookKeeps(moved);
  }

  /** The completion hook keeps the item, the size and every attribute but the switch counter, and adds no other attribute. */
  lemma HookKeeps(stack: ItemStack)
    requires IsMultiTool(stack.item)
    ensures var h := AfterSwitchHook(stack);
      && h.item == stack.item && h.stackSize == stack.stackSize
      && (forall k :: k in h.attributes ==> k in stack.attributes || k == AdvancedMultitool.AdvancedSwitchAttributeKey)
      && (forall k :: k in stack.attributes && k != AdvancedMultitool.AdvancedSwitchAttributeKey ==>
            k in h.attributes && h.attributes[k] == stack.attributes[k])
  {
    if stack.item.itemClass == AdvancedMultiToolItem {
      AdvancedMultitool.CountedSwitchCounts(stack.attributes);
    }
  }

  /**
    The completion hook fires exactly when the stack is replaced, so the
    switch counter of an advanced multitool moves only then: a no-op keeps
    it, a switch to an advanced multitool carries it over (it is watched)
    and adds one, a switch to a plain multitool carries it over unchanged.
   */
  lemma SwitchCountsOnlyReplacements(setup: Setup, stack: ItemStack, family: string, playSound: bool)
    requires CanSwitch(setup, stack, family)
    requires AdvancedMultitool.AdvancedSwitchAttributeKey in setup.watched
    requires setup.familyInfoKey != AdvancedMultitool.AdvancedSwitchAttributeKey
    ensures var o := SwitchInSlot(setup, stack, family, playSound);
      var n := AdvancedMultitool.GetInt(stack.attributes, AdvancedMultitool.AdvancedSwitchAttributeKey);
      var m := AdvancedMultitool.GetInt(o.stack.attributes, AdvancedMultitool.AdvancedSwitchAttributeKey);
      && o.hookCalls == (if o.replaced then 1 else 0)
      && (!o.replaced ==> m == n)
      && (o.replaced && o.stack.item.itemClass == AdvancedMultiToolItem ==> m == Inc32(n))
      && (o.replaced && o.stack.item.itemClass == MultiToolItem ==> m == n)
  {
    var key := AdvancedMultitool.AdvancedSwitchAttributeKey;
    var code := TargetCode(setup.families, FamilyTreeOf(stack.attributes, setup.familyInfoKey), family);
    var item := TargetItem(setup.world, code);
    var r := Remembered(setup, stack, family, code);
    assert key in r.attributes <==> key in stack.attributes;
    assert key in stack.attributes ==> r.attributes[key] == stack.attributes[key];
    if ChangesItem(r, item) {
      var copied := CopiedAttributes(setup.watched, r.attributes, map[]);
      assert AdvancedMultitool.GetInt(copied, key) == AdvancedMultitool.GetInt(r.attributes, key);
      if item.itemClass == AdvancedMultiToolItem {
        AdvancedMultitool.CountedSwitchCounts(copied);
      }
    }
  }

  /**
    With the family-info tree watched, switching to the family a second time
    changes nothing: the tree already remembers the code the slot holds.
   */
  lemma SwitchAgainIsNoOp(setup: Setup, stack: ItemStack, family: string, playSound: bool, playSoundAgain: bool)
    requires CanSwitch(setup, stack, family)
    requires setup.familyInfoKey in setup.watched && setup.familyInfoKey != AdvancedMultitool.AdvancedSwitchAttributeKey
    ensures var o := SwitchInSlot(setup, stack, family, playSound);
      && CanSwitch(setup, o.stack, family)
      && var again := SwitchInSlot(setup, o.stack, family, playSoundAgain);
      && !again.replaced && again.hookCalls == 0 && again.stack == o.stack
  {
    var code := TargetCode(setup.families, FamilyTreeOf(stack.attributes, setup.familyInfoKey), family);
    var tree := FamilyTreeOf(stack.attributes, setup.familyInfoKey)[setup.currentFamilyKey := code][family := code];
    var r := Remembered(setup, stack, family, code);
    var o := SwitchInSlot(setup, stack, family, playSound);
    if ChangesItem(r, TargetItem(setup.world, code)) {
      var moved := NewItemStack(TargetItem(setup.world, code)).(attributes := CopiedAttributes(setup.watched, r.attributes, map[]));
      assert moved.attributes[setup.familyInfoKey] == TreeValue(tree);
      assert o.stack == AfterSwitchHook(moved);
      assert o.stack.attributes[setup.familyInfoKey] == TreeValue(tree);
    } else {
      assert o.stack == r;
    }
    assert !ChangesItem(o.stack, TargetItem(setup.world, code));
    RememberedAgain(setup, o.stack, family, code, tree);
  }

  /** Remembering a choice the tree already holds leaves the stack as it is. */
  lemma RememberedAgain(setup: Setup, stack: ItemStack, family: string, code: string, tree: map<string, string>)
    requires setup.familyInfoKey in stack.attributes && stack.attributes[setup.familyInfoKey] == TreeValue(tree)
    requires setup.currentFamilyKey in tree && tree[setup.currentFamilyKey] == code
    requires family in tree && tree[family] == code
    ensures Remembered(setup, stack, family, code) == stack
  {
    assert tree[setup.currentFamilyKey := code][family := code] == tree;
    assert stack.attributes[setup.familyInfoKey := TreeValue(tree)] == stack.attributes;
  }

  /** Copying the watched attributes twice from the same stack is copying them once. */
  lemma CopyIdempotent(watched: seq<string>, from: Attributes, to: Attributes)
    ensures CopiedAttributes(watched, from, CopiedAttributes(watched, from, to)) == CopiedAttributes(watched, from, to)
  {
    var once := CopiedAttributes(watched, from, to);
    var twice := CopiedAttributes(watched, from, once);
    assert twice.Keys == once.Keys;
  }

  // ---------------------------------------------------------------------------
  // The switch, in place

  /** `OnMultiToolSwitchComplete`, dispatched on the class of the item now in the slot. */
  method OnMultiToolSwitchComplete(slot: ItemSlot)
    requires slot.itemstack.Some? && IsMultiTool(slot.itemstack.value.item)
    modifies slot
    ensures slot.itemstack == Some(AfterSwitchHook(old(slot.itemstack.value)))
    ensures slot.dirtyMarks == old(slot.dirtyMarks) && slot.hookCalls == old(slot.hookCalls) + 1
  {
    slot.hookCalls := slot.hookCalls + 1;
    match slot.itemstack.value.item.itemClass
    case MultiToolItem =>
    case AdvancedMultiToolItem =>
      AdvancedMultitool.OnMultiToolSwitchComplete(slot);
  }

  /** Replaces the stack in `slot` by `toolStack` with the watched attributes, unless the codes agree. */
  method ReplaceToolStack(sys: MultiToolSystem, slot: ItemSlot, toolStack: ItemStack, playSound: bool)
    returns (outcome: SwitchOutcome)
    requires slot.itemstack.Some? && toolStack == NewItemStack(toolStack.item)
    requires HookDefined(slot.itemstack.value, toolStack.item)
    modifies slot
    ensures outcome == ReplaceWith(sys.toolAttributesToKeepOnSwitch, old(slot.itemstack.value), toolStack.item, playSound)
    ensures slot.itemstack == Some(outcome.stack)
    ensures slot.dirtyMarks == old(slot.dirtyMarks) + (if outcome.replaced then 1 else 0)
    ensures slot.hookCalls == old(slot.hookCalls) + outcome.hookCalls
  {
    var stack := slot.itemstack.value;
    if CodeString(toolStack.item.code) != CodeString(stack.item.code) {
      var newItemStack := toolStack;
      var attributes := CopyAttributes(sys.toolAttributesToKeepOnSwitch, stack.attributes, newItemStack.attributes);
      newItemStack := newItemStack.(attributes := attributes);
      slot.itemstack := Some(newItemStack);
      slot.MarkDirty();
      var soundPlayed := playSound;
      OnMultiToolSwitchComplete(slot);
      outcome := SwitchOutcome(slot.itemstack.value, true, soundPlayed, 1);
    } else {
      outcome := SwitchOutcome(stack, false, false, 0);
    }
  }

  /** `SwitchToolItemInSlot`: the server-side switch of the stack in `slot` to `newToolFamily`. */
  method SwitchToolItemInSlot(sys: MultiToolSystem, families: FamilyTable, slot: ItemSlot,
                              newToolFamily: string, playSound: bool)
    returns (outcome: SwitchOutcome)
    requires slot.itemstack.Some? && CanSwitch(SetupOf(sys, families), slot.itemstack.value, newToolFamily)
    modifies slot
    ensures outcome == SwitchInSlot(SetupOf(sys, families), old(slot.itemstack.value), newToolFamily, playSound)
    ensures slot.itemstack == Some(outcome.stack)
    ensures slot.dirtyMarks == old(slot.dirtyMarks) + (if outcome.replaced then 1 else 0)
    ensures slot.hookCalls == old(slot.hookCalls) + outcome.hookCalls
  {
    var stack := slot.itemstack.value;
    var famTree := FamilyTreeOf(stack.attributes, sys.familyInfoKey);
    var newCode := TargetCode(families, famTree, newToolFamily);
    var toolStack := NewItemStack(TargetItem(sys.world, newCode));
    famTree := famTree[sys.currentFamilyKey := newCode];
    famTree := famTree[newToolFamily := newCode];
    slot.itemstack := Some(stack.(attributes := WithFamilyTree(stack.attributes, sys.familyInfoKey, famTree)));
    outcome := ReplaceToolStack(sys, slot, toolStack, playSound);
  }

  // ---------------------------------------------------------------------------
  // The request, client and server side

  /** The slot a request addresses: `GetInventory(id)` then `ElementAtOrDefault(slotId)`. */
  function AddressedSlot(sender: Player, inventoryId: string, slotId: int32): Option<ItemSlot>
  {
    if inventoryId in sender.inventories && 0 <= slotId as int < |sender.inventories[inventoryId].slots|
    then Some(sender.inventories[inventoryId].slots[slotId])
    else None
  }

  /** The objects a request may change: the addressed slot, if there is one. */
  function AddressedSlots(sender: Player, msg: ToolSwitchMessage): set<object>
  {
    match AddressedSlot(sender, msg.inventoryId, msg.slotId)
    case None => {}
    case Some(slot) => {slot}
  }

  /** What a request needs of the addressed slot not to throw: a stack, and a switch that can run. */
  predicate CanHandle(sys: MultiToolSystem, families: FamilyTable, sender: Player, msg: ToolSwitchMessage)
    reads sys, AddressedSlots(sender, msg)
  {
    match AddressedSlot(sender, msg.inventoryId, msg.slotId)
    case None => true
    case Some(slot) =>
      && slot.itemstack.Some?
      && match msg.target
         case ByFamily(family) => CanSwitch(SetupOf(sys, families), slot.itemstack.value, family)
         case ByIndex(i) =>
           0 <= i as int < |sys.toolCodes| ==> HookDefined(slot.itemstack.value, sys.world.getItem(sys.toolCodes[i]))
  }

  /**
    `OnToolSwitchMessageReceivedFromClient`. A request naming a missing
    inventory or slot, or an index past the code list, is dropped (None) and
    changes nothing; otherwise the addressed slot is switched.
   */
  method OnToolSwitchMessageReceivedFromClient(sys: MultiToolSystem, families: FamilyTable, sender: Player,
                                               msg: ToolSwitchMessage, playSwitchSound: bool)
    returns (outcome: Option<SwitchOutcome>)
    requires CanHandle(sys, families, sender, msg)
    modifies AddressedSlots(sender, msg)
    ensures AddressedSlot(sender, msg.inventoryId, msg.slotId).None? ==> outcome.None?
    ensures match AddressedSlot(sender, msg.inventoryId, msg.slotId)
      case None => true
      case Some(slot) =>
        match msg.target
        case ByFamily(family) =>
          && outcome == Some(SwitchInSlot(SetupOf(sys, families), old(slot.itemstack.value), family, playSwitchSound))
          && slot.itemstack == Some(outcome.value.stack)
          && slot.dirtyMarks == old(slot.dirtyMarks) + (if outcome.value.replaced then 1 else 0)
          && slot.hookCalls == old(slot.hookCalls) + outcome.value.hookCalls
        case ByIndex(i) =>
          if 0 <= i as int < |sys.toolCodes| then
            && outcome == Some(ReplaceWith(sys.toolAttributesToKeepOnSwitch, old(slot.itemstack.value),
                                           sys.world.getItem(sys.toolCodes[i]), playSwitchSound))
            && slot.itemstack == Some(outcome.value.stack)
            && slot.dirtyMarks == old(slot.dirtyMarks) + (if outcome.value.replaced then 1 else 0)
            && slot.hookCalls == old(slot.hookCalls) + outcome.value.hookCalls
          else
            && outcome.None? && slot.itemstack == old(slot.itemstack)
            && slot.dirtyMarks == old(slot.dirtyMarks) && slot.hookCalls == old(slot.hookCalls)
  {
    if msg.inventoryId !in sender.inventories {
      return None;
    }
    var inventory := sender.inventories[msg.inventoryId];
    if !(0 <= msg.slotId as int < |inventory.slots|) {
      return None;
    }
    var slot := inventory.slots[msg.slotId];
    match msg.target
    case ByFamily(family) =>
      var o := SwitchToolItemInSlot(sys, families, slot, family, playSwitchSound);
      outcome := Some(o);
    case ByIndex(i) =>
      if 0 <= i as int < |sys.toolCodes| {
        var o := ReplaceToolStack(sys, slot, NewItemStack(sys.world.getItem(sys.toolCodes[i])), playSwitchSound);
        outcome := Some(o);
      } else {
        outcome := None;
      }
  }

  /**
    `SendToolSwitchMessageToServer`: the packet the client sends for the
    dialog's `index`-th entry, or None when the slot holds no multitool.
   */
  function SendToolSwitchMessageToServer(families: FamilyTable, slot: ItemSlot, index: int): Option<ToolSwitchMessage>
    reads slot
    requires slot.itemstack.Some? && IsMultiTool(slot.itemstack.value.item) ==> 0 <= index < |families.order|
  {
    if slot.itemstack.Some? && IsMultiTool(slot.itemstack.value.item)
    then Some(ToolSwitchMessage(slot.inventoryId, slot.slotId, ByFamily(families.order[index])))
    else None
  }

  /**
    The request a client sends for a slot of one of the player's inventories
    reaches that very slot on the server, and names the family at the chosen
    index of the dialog.
   */
  lemma SentRequestAddressesSameSlot(families: FamilyTable, sender: Player, inventory: Inventory,
                                     slot: ItemSlot, index: int)
    requires inventory.Valid() && slot in inventory.slots
    requires inventory.inventoryId in sender.inventories && sender.inventories[inventory.inventoryId] == inventory
    requires slot.itemstack.Some? && IsMultiTool(slot.itemstack.value.item) && 0 <= index < |families.order|
    ensures var msg := SendToolSwitchMessageToServer(families, slot, index);
      && msg.Some?
      && AddressedSlot(sender, msg.value.inventoryId, msg.value.slotId) == Some(slot)
      && msg.value.target == ByFamily(families.order[index])
  {
    var j :| 0 <= j < |inventory.slots| && inventory.slots[j] == slot;
    assert slot.slotId as int == j && slot.inventoryId == inventory.inventoryId;
  }

  /**
    The list `OpenDialog` shows: for each family in registration order, the
    code the slot's tree remembers for it, or else its first member, and the
    item of that code. Reading the tree adds an empty one when there was none.
   */
  method DialogToolCodes(sys: MultiToolSystem, families: FamilyTable, slot: ItemSlot)
    returns (codes: seq<string>, tools: seq<Item>)
    requires families.Valid()
    requires slot.itemstack.Some? && HasFamilyTreeShape(slot.itemstack.value.attributes, sys.familyInfoKey)
    modifies slot
    ensures |codes| == |families.order| && |tools| == |codes|
    ensures forall i :: 0 <= i < |codes| ==>
      codes[i] == TargetCode(families, FamilyTreeOf(old(slot.itemstack.value.attributes), sys.familyInfoKey), families.order[i])
    ensures forall i :: 0 <= i < |codes| ==> tools[i] == TargetItem(sys.world, codes[i])
    ensures slot.itemstack == Some(if |families.order| == 0 then old(slot.itemstack.value)
                                   else WithTreeAdded(old(slot.itemstack.value), sys.familyInfoKey))
    ensures slot.dirtyMarks == old(slot.dirtyMarks) && slot.hookCalls == old(slot.hookCalls)
  {
    codes := [];
    tools := [];
    ghost var original := slot.itemstack.value;
    TreeAddedOnce(original, sys.familyInfoKey);
    var i := 0;
    while i < |families.order|
      invariant 0 <= i <= |families.order|
      invariant |codes| == i && |tools| == i
      invariant slot.itemstack == Some(if i == 0 then old(slot.itemstack.value)
                                       else WithTreeAdded(old(slot.itemstack.value), sys.familyInfoKey))
      invariant forall j :: 0 <= j < i ==>
        codes[j] == TargetCode(families, FamilyTreeOf(old(slot.itemstack.value.attributes), sys.familyInfoKey), families.order[j])
      invariant forall j :: 0 <= j < i ==> tools[j] == TargetItem(sys.world, codes[j])
      invariant slot.dirtyMarks == old(slot.dirtyMarks) && slot.hookCalls == old(slot.hookCalls)
    {
      var family := families.order[i];
      var stack := WithTreeAdded(slot.itemstack.value, sys.familyInfoKey);
      slot.itemstack := Some(stack);
      var tree := FamilyTreeOf(stack.attributes, sys.familyInfoKey);
      assert family in families.members;
      var code := TargetCode(families, tree, family);
      codes := codes + [code];
      tools := tools + [TargetItem(sys.world, code)];
      i := i + 1;
    }
  }

  // ---------------------------------------------------------------------------
  // Crafting

  /** The output's attributes after copying from every multitool input, in slot order. */
  function CraftedAttributes(watched: seq<string>, inputs: seq<Option<ItemStack>>, to: Attributes): Attributes
  {
    if |inputs| == 0 then to
    else
      var prev := CraftedAttributes(watched, inputs[..|inputs| - 1], to);
      var last := inputs[|inputs| - 1];
      if last.Some? && IsMultiTool(last.value.item) then CopiedAttributes(watched, last.value.attributes, prev) else prev
  }

  /** The last input that is a multitool stack holding `key`. */
  function LastProvider(inputs: seq<Option<ItemStack>>, key: string): (r: Option<nat>)
    ensures r.Some? ==> r.value < |inputs| && inputs[r.value].Some? && IsMultiTool(inputs[r.value].value.item)
                        && key in inputs[r.value].value.attributes
    ensures r.Some? ==> forall j :: r.value < j < |inputs| ==>
      !(inputs[j].Some? && IsMultiTool(inputs[j].value.item) && key in inputs[j].value.attributes)
    ensures r.None? ==> forall j :: 0 <= j < |inputs| ==>
      !(inputs[j].Some? && IsMultiTool(inputs[j].value.item) && key in inputs[j].value.attributes)
  {
    if |inputs| == 0 then None
    else
      var last := inputs[|inputs| - 1];
      if last.Some? && IsMultiTool(last.value.item) && key in last.value.attributes then Some(|inputs| - 1)
      else LastProvider(inputs[..|inputs| - 1], key)
  }

  /**
    After crafting, a watched key holds the value of the last multitool
    input that has it (later inputs overwrite earlier ones), or the output's
    own value when no input has it; an unwatched key is never touched.
   */
  lemma {:induction false} CraftedAttributesLastWins(watched: seq<string>, inputs: seq<Option<ItemStack>>,
                                                     to: Attributes, key: string)
    ensures var r := CraftedAttributes(watched, inputs, to);
      if key in watched && LastProvider(inputs, key).Some? then
        key in r && r[key] == inputs[LastProvider(inputs, key).value].value.attributes[key]
      else
        (key in r <==> key in to) && (key in to ==> r[key] == to[key])
  {
    if |inputs| > 0 {
      var init := inputs[..|inputs| - 1];
      CraftedAttributesLastWins(watched, init, to, key);
      var last := inputs[|inputs| - 1];
      if !(last.Some? && IsMultiTool(last.value.item) && key in last.value.attributes) {
        assert LastProvider(inputs, key) == LastProvider(init, key);
        if LastProvider(init, key).Some? {
          assert inputs[LastProvider(init, key).value] == init[LastProvider(init, key).value];
        }
      }
    }
  }

  /** The output's family info: when its code belongs to a family, the family is current and remembers the code. */
  function WithCraftedFamilyInfo(setup: Setup, stack: ItemStack): ItemStack
  {
    match setup.families.FindFamily(stack.item.code)
    case None => stack
    case Some(family) =>
      var tree := FamilyTreeOf(stack.attributes, setup.familyInfoKey);
      var tree' := tree[setup.currentFamilyKey := family][family := CodeString(stack.item.code)];
      stack.(attributes := WithFamilyTree(stack.attributes, setup.familyInfoKey, tree'))
  }

  function CraftedStack(setup: Setup, inputs: seq<Option<ItemStack>>, output: ItemStack): ItemStack
  {
    WithCraftedFamilyInfo(setup, output.(attributes := CraftedAttributes(setup.watched, inputs, output.attributes)))
  }

  /**
    The crafted multitool keeps its item and size. When its code belongs to a
    family, its tree remembers the code for that family and names the family
    (not the code) as current, and every other attribute is the one copied
    from the inputs; otherwise the copied attributes are all that changes.
   */
  lemma CraftedRecordsFamily(setup: Setup, inputs: seq<Option<ItemStack>>, output: ItemStack)
    ensures var r := CraftedStack(setup, inputs, output);
      var copied := CraftedAttributes(setup.watched, inputs, output.attributes);
      && r.item == output.item && r.stackSize == output.stackSize
      && match setup.families.FindFamily(output.item.code)
         case None => r.attributes == copied
         case Some(f) =>
           var tree := FamilyTreeOf(r.attributes, setup.familyInfoKey);
           && f in setup.families.members && output.item.code in setup.families.members[f]
           && f in tree && tree[f] == CodeString(output.item.code)
           && (f != setup.currentFamilyKey ==> setup.currentFamilyKey in tree && tree[setup.currentFamilyKey] == f)
           && forall k :: k in copied && k != setup.familyInfoKey ==> k in r.attributes && r.attributes[k] == copied[k]
  {
  }

  function StacksOf(slots: seq<ItemSlot>): (r: seq<Option<ItemStack>>)
    reads set i | 0 <= i < |slots| :: slots[i]
    ensures |r| == |slots| && forall i :: 0 <= i < |slots| ==> r[i] == slots[i].itemstack
  {
    if |slots| == 0 then [] else StacksOf(slots[..|slots| - 1]) + [slots[|slots| - 1].itemstack]
  }

  /** What crafting needs not to throw: an output stack, and a tree-shaped family info when a family is found. */
  predicate CanCraft(setup: Setup, inputs: seq<Option<ItemStack>>, output: ItemStack)
  {
    setup.families.FindFamily(output.item.code).Some? ==>
      HasFamilyTreeShape(CraftedAttributes(setup.watched, inputs, output.attributes), setup.familyInfoKey)
  }

  /** The copy loop of `OnCreatedByCrafting`: every multitool input in turn gives its watched attributes to the output. */
  method CopyFromMultiToolInputs(watched: seq<string>, allInputSlots: seq<ItemSlot>, outputSlot: ItemSlot)
    requires outputSlot.itemstack.Some? && outputSlot !in allInputSlots
    modifies outputSlot
    ensures outputSlot.itemstack == Some(old(outputSlot.itemstack.value).(attributes :=
      CraftedAttributes(watched, old(StacksOf(allInputSlots)), old(outputSlot.itemstack.value.attributes))))
    ensures outputSlot.dirtyMarks == old(outputSlot.dirtyMarks) && outputSlot.hookCalls == old(outputSlot.hookCalls)
  {
    ghost var inputs := StacksOf(allInputSlots);
    var output := outputSlot.itemstack.value;
    var i := 0;
    while i < |allInputSlots|
      invariant 0 <= i <= |allInputSlots|
      invariant forall j :: 0 <= j < |allInputSlots| ==> allInputSlots[j].itemstack == inputs[j]
      invariant outputSlot.itemstack == Some(output.(attributes := CraftedAttributes(watched, inputs[..i], output.attributes)))
      invariant outputSlot.dirtyMarks == old(outputSlot.dirtyMarks) && outputSlot.hookCalls == old(outputSlot.hookCalls)
    {
      var inSlot := allInputSlots[i];
      assert inputs[..i + 1][..i] == inputs[..i];
      assert inputs[..i + 1][i] == inputs[i] == inSlot.itemstack;
      if inSlot.itemstack.Some? && IsMultiTool(inSlot.itemstack.value.item) {
        var to := outputSlot.itemstack.value;
        var attributes := CopyAttributes(watched, inSlot.itemstack.value.attributes, to.attributes);
        outputSlot.itemstack := Some(to.(attributes := attributes));
      }
      i := i + 1;
    }
    assert inputs[..i] == inputs;
  }

  /** `OnCreatedByCrafting`: copies watched attributes from the multitool inputs, then records the family. */
  method OnCreatedByCrafting(sys: MultiToolSystem, families: FamilyTable, allInputSlots: seq<ItemSlot>, outputSlot: ItemSlot)
    requires outputSlot.itemstack.Some? && outputSlot !in allInputSlots
    requires CanCraft(SetupOf(sys, families), StacksOf(allInputSlots), outputSlot.itemstack.value)
    modifies outputSlot
    ensures outputSlot.itemstack ==
      Some(CraftedStack(SetupOf(sys, families), old(StacksOf(allInputSlots)), old(outputSlot.itemstack.value)))
    ensures outputSlot.dirtyMarks == old(outputSlot.dirtyMarks) && outputSlot.hookCalls == old(outputSlot.hookCalls)
  {
    CopyFromMultiToolInputs(sys.toolAttributesToKeepOnSwitch, allInputSlots, outputSlot);
    var crafted := outputSlot.itemstack.value;
    match families.FindFamily(crafted.item.code)
    case None =>
    case Some(family) =>
      var tree := FamilyTreeOf(crafted.attributes, sys.familyInfoKey);
      tree := tree[sys.currentFamilyKey := family];
      tree := tree[family := CodeString(crafted.item.code)];
      outputSlot.itemstack := Some(crafted.(attributes := WithFamilyTree(crafted.attributes, sys.familyInfoKey, tree)));
  }
}
