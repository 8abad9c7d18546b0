# Multitool switching, modelled in Dafny

This project models the multitool feature of the `argualcore` mod for Vintage Story. A multitool is an item stack that the player can switch, in place, to another member of a *family* of tools. The project covers five parts:

- **Registry** (`Registry.MultiToolSystem`, `multi_tool_system.dfy`).
  - The registered tool codes, in registration order. Invalid codes and codes already registered are refused.
  - The duplicate-free list of *watched* attribute keys. These are the attributes that survive a switch. The list has add and remove operations.
  - A lazily filled cache holding one item stack per registered code.
  - The switch request message.
- **Family table** (`Families`, `families.dfy`). This is the registry of family name → member codes that `ItemMultiTool` is written against. It is modelled as a value: the family names in the order they were first registered, plus each family's codes in registration order. It includes the lookup of the family that holds a code.
- **Switch executor** (`ItemMultiTool`, `item_multi_tool.dfy`).
  - The server-side switch of the stack in a slot. It resolves the target code from the stack's family-info tree, or else takes the family's first member. It records the choice in that tree. Only when the code changes does it replace the stack, carrying over the watched attributes, mark the slot dirty, optionally play a sound, and fire the completion hook once.
  - The request handler. It drops requests that name a missing inventory or slot.
  - The client-side request and the list of codes the switch dialog shows.
  - The copying of watched attributes from multitool ingredients when a multitool is crafted.
- **Example hook** (`AdvancedMultitool`, `advanced_multitool.dfy`). This is the example multitool whose completion hook counts switches in a 32-bit integer attribute.
- **Localisation keys** (`LangTool` and `LangKey`, in `lang_tool.dfy` and `lang_key.dfy`). These are the key builders: `domain:key`, and `Combine`, which joins parts with `-` only once the accumulated result is not blank.

`Engine` (`engine.dfy`) holds the host-game types the core uses:

- asset codes;
- items and their classes;
- attribute values;
- item stacks (values);
- item slots and inventories (objects);
- the player;
- an uninterpreted `World`: item lookup, code parsing and code validity.

The files that hold the state the source changes in place are written imperatively:

- `MultiToolSystem` is a class.
- `ItemSlot.itemstack` is reassigned by the switch, crafting and hook methods.

Each of these methods is proved against a specification function (`AddedKey`, `AddedKeys`, `RemovedKey`, `CopiedAttributes`, `SwitchInSlot`, `ReplaceWith`, `CraftedStack`, `Combined`, `CountedSwitch`). The properties are proved as lemmas about those functions.

The two source versions disagree on one point. `MultiToolSystem.cs` keeps a flat `toolCodes` list and sends a `toolIndex` (argualcore/src/MultiTool/MultiToolSystem.cs:33). `ItemMultiTool.cs` works with families (`ToolCodes[family]`, `TryFindMultiToolFamily` and `msg.toolFamily`). The model keeps both:

- The message target is `ByIndex(toolIndex)` or `ByFamily(toolFamily)`.
- `ByFamily` follows the handler in `ItemMultiTool.cs`.
- `ByIndex` switches the addressed slot to the code at that index of the flat list, and drops an index outside the list. It does not touch the family-info tree.

Observed, not claimed as a defect:

- Switching stores the target *code* under the current-family key (argualcore/src/MultiTool/ItemMultiTool.cs:215).
- Crafting stores the *family name* under the same key (argualcore/src/MultiTool/ItemMultiTool.cs:97).
- The model keeps both as written. `ItemMultiTool.SwitchNoOp` and `ItemMultiTool.CraftedRecordsFamily` state each behaviour.

## Model

| member | source | states |
|---|---|---|
| Engine.Inc32 | examplemultitools/src/AdvancedMultitool.cs:19 | the C# `int` increment: the result is one more than the input modulo 2^32 |
| LangTool.GetKeyWithDomain | argualcore/src/Language/LangTool.cs:33-36 | the key is the domain, then ':', then the key, and nothing else (length and each part) |
| LangTool.SplitKeyWithDomain | argualcore/src/Language/LangTool.cs:33-36 | for a domain without ':', splitting a domain-prefixed key at its first ':' gives back the domain and the key |
| LangTool.Combine | argualcore/src/Language/LangTool.cs:41-53 | the accumulating loop computes `Combined`: a part is preceded by "-" exactly when the result so far is not empty or whitespace |
| LangTool.CombinedBlankIff | argualcore/src/Language/LangTool.cs:41-53 | the combined key is blank if and only if every part is blank |
| LangTool.CombinedSplit | argualcore/src/Language/LangTool.cs:41-53 | closed form of `Combine`: the leading blank parts are glued together, and from the first non-blank part on every part is joined with "-" |
| LangTool.CombinedIsConcatOfBlanks | argualcore/src/Language/LangTool.cs:41-53 | when every part is blank, no separator is inserted at all |
| LangTool.CombinedIsJoin | argualcore/src/Language/LangTool.cs:41-53 | when the first part is not blank, `Combine` is `string.Join("-", parts)` |
| LangTool.CombineExamples | argualcore/src/Language/LangTool.cs:41-53 | no parts give ""; ("", "a") gives "a"; ("a", "", "b") gives "a--b"; (" ", "a") gives " a" |
| LangTool.ItemKeyAgreesWithCombine | argualcore/src/Language/LangTool.cs:60-63 | `GetItemKey(i)` is "item-" + i for every i, including "", which is what `Combine("item", i)` gives |
| LangTool.KeysWithoutDomain | argualcore/src/Language/LangTool.cs:60-113 | the exact value of every one-argument key builder: item-, itemdesc-, block-, blockdesc-, heldhelp- and dialog-title- followed by the argument |
| LangTool.KeysWithDomain | argualcore/src/Language/LangTool.cs:55-108 | every two-argument overload is the domain, ':', and the one-argument key |
| LangKey.MultiToolDefaultItemValue | argualcore/src/MultiTool/LangKey.cs:16-17 | the key is "argualcore:item-multitooldefault" |
| LangKey.MultiToolDefaultItemDescValue | argualcore/src/MultiTool/LangKey.cs:18 | the key is "argualcore:itemdesc-multitooldefault" |
| LangKey.SwitchMultiToolHotkeyValue | argualcore/src/MultiTool/LangKey.cs:20-21 | the key is "argualcore:hotkey-switchmultitool" |
| LangKey.SwitchMultiToolHeldHelpValue | argualcore/src/MultiTool/LangKey.cs:22 | the key is "argualcore:heldhelp-switchmultitool" |
| LangKey.SwitchMultiToolDialogTitleValue | argualcore/src/MultiTool/LangKey.cs:23 | the key is "argualcore:dialog-title-switchmultitool" |
| LangKey.KeysCarryTheDomain | argualcore/src/MultiTool/LangKey.cs:17-23 | the item and dialog keys split back into "argualcore" and their domain-less keys |
| Registry.AddedKey | argualcore/src/MultiTool/MultiToolSystem.cs:138-147 | a key already watched leaves the list unchanged; a new key is appended at the end |
| Registry.AddedKeys | argualcore/src/MultiTool/MultiToolSystem.cs:199-205 | adding keys one after the other keeps the old list as a prefix, watches exactly the old and the new keys, and keeps the list duplicate-free |
| Registry.RemovedKey | argualcore/src/MultiTool/MultiToolSystem.cs:154 | `List.Remove` drops the first occurrence of the key and keeps the rest in order; an absent key changes nothing |
| Registry.RemovedKeyExact | argualcore/src/MultiTool/MultiToolSystem.cs:152-164 | on a duplicate-free list the key is gone afterwards, every other key stays, the list stays duplicate-free, and it is one shorter exactly when the key was there |
| Registry.DropAt | argualcore/src/MultiTool/MultiToolSystem.cs:154 | dropping one position of a duplicate-free list removes exactly that element: it is absent afterwards, every other element stays, and the list stays duplicate-free |
| Registry.RemoveUndoesAdd | argualcore/src/MultiTool/MultiToolSystem.cs:138-164 | removing a key just added gives back the list it was added to |
| Registry.MultiToolSystem.constructor | argualcore/src/MultiTool/MultiToolSystem.cs:104-129 | a new registry has no codes, no cached stacks and no watched keys |
| Registry.MultiToolSystem.AddWatchedAttributeKey | argualcore/src/MultiTool/MultiToolSystem.cs:138-147 | the watched list becomes `AddedKey` of the old one and stays duplicate-free (the corrected behaviour, see Findings) |
| Registry.MultiToolSystem.RemoveWatchedAttributeKey | argualcore/src/MultiTool/MultiToolSystem.cs:152-164 | returns true if and only if the key was watched; afterwards it is not, and the list is `RemovedKey` of the old one |
| Registry.MultiToolSystem.RegisterMultiTool | argualcore/src/MultiTool/MultiToolSystem.cs:181-208 | succeeds if and only if the code is valid and not yet registered. On failure the code list and the watched list are unchanged. On success the code is appended, so earlier codes keep their indices, and the given keys are watched in argument order, each once |
| Registry.MultiToolSystem.RegisterMultiToolByPath | argualcore/src/MultiTool/MultiToolSystem.cs:171-174 | the same outcome as registering the code (domain, path) |
| Registry.MultiToolSystem.GetMultiToolItemStacks | argualcore/src/MultiTool/MultiToolSystem.cs:213-222 | the cache ends as long as the code list, earlier entries are kept, entry i is a one-item stack of code i's item, and the returned list is the cache |
| Registry.AddWatchedKeyAsWritten | argualcore/src/MultiTool/MultiToolSystem.cs:138-147 | as written: a duplicate key with no warning logger throws (None) |
| Registry.DuplicateKeyWithoutWarningLoggerThrows | argualcore/src/MultiTool/MultiToolSystem.cs:138-147 | the input that shows the finding: adding "k" to ["k"] without a warning logger throws |
| Registry.AddedKeyAgreesAsWritten | argualcore/src/MultiTool/MultiToolSystem.cs:138-147 | wherever the code as written does not throw, it agrees with the corrected `AddedKey` |
| Families.FamilyTable.FindFamilyIn | argualcore/src/MultiTool/ItemMultiTool.cs:94 | the family found holds the code; when none is found, no family searched holds it |
| Families.FamilyTable.Register | examplemultitools/src/ExampleMultitoolsMod.cs:25-26 | refused if and only if the code is invalid or already in a family; otherwise the code is appended to its family and no other family changes |
| Families.Empty | argualcore/src/MultiTool/ItemMultiTool.cs:143 | the family table before any registration (the `ToolCodes` map that line 143 iterates; its declaration and initial value are not part of this model) is empty and valid |
| Families.FindFamilyExact | argualcore/src/MultiTool/ItemMultiTool.cs:94 | in a valid table, the family found for a code is exactly the family that holds it |
| Families.RegisterKeepsValid | examplemultitools/src/ExampleMultitoolsMod.cs:25-26 | registering keeps the table valid (families distinct and non-empty, codes unique) and keeps the family order as a prefix |
| Families.RegisterKeepsOrder | examplemultitools/src/ExampleMultitoolsMod.cs:25-26 | after a registration the order still lists every family once and nothing else, and the old order is a prefix of the new one |
| Families.RegisterKeepsCodesDistinct | examplemultitools/src/ExampleMultitoolsMod.cs:25-26 | after a registration no family lists a code twice |
| Families.RegisterThenFind | argualcore/src/MultiTool/ItemMultiTool.cs:94 | after registration, the code is found in the family it was registered under |
| Families.SecondFamilyRefused | examplemultitools/src/ExampleMultitoolsMod.cs:25-26 | a code already in one family is refused by any family, and is still found in the first |
| Families.RegistrationOrder | examplemultitools/src/ExampleMultitoolsMod.cs:25-26 | two codes registered into a new family are listed in registration order, so the first is the default |
| AdvancedMultitool.AdvancedSwitchAttributeKeyValue | examplemultitools/src/AdvancedMultitool.cs:14 | the counter key is "examplemultitools:switchCount" |
| AdvancedMultitool.OnMultiToolSwitchComplete | examplemultitools/src/AdvancedMultitool.cs:16-20 | the slot's stack gets the `CountedSwitch` attributes; the slot is not marked dirty |
| AdvancedMultitool.CountedSwitchCounts | examplemultitools/src/AdvancedMultitool.cs:18-20 | an absent counter becomes 1; a counter n below `int.MaxValue` becomes n + 1; no other attribute changes |
| AdvancedMultitool.CountedSwitchWraps | examplemultitools/src/AdvancedMultitool.cs:19 | at `int.MaxValue` the counter wraps to `int.MinValue` |
| ItemMultiTool.CopiedAttributes | argualcore/src/MultiTool/ItemMultiTool.cs:236-246 | a watched key present in the source is set to the source's value; every other key of the target is unchanged; no unwatched key is copied |
| ItemMultiTool.CopyAttributes | argualcore/src/MultiTool/ItemMultiTool.cs:236-246 | the loop over the watched keys computes `CopiedAttributes` |
| ItemMultiTool.CopyIdempotent | argualcore/src/MultiTool/ItemMultiTool.cs:236-246 | copying twice from the same stack is copying once |
| ItemMultiTool.SwitchNoOp | argualcore/src/MultiTool/ItemMultiTool.cs:211-218 | when the target code is the slot's current code, nothing is replaced, no sound plays and no hook fires. The stack keeps its item, size and attributes, except that its family-info tree stores the target code under the family and under the current-family key |
| ItemMultiTool.SwitchReplaces | argualcore/src/MultiTool/ItemMultiTool.cs:211-232 | otherwise the slot holds a one-item stack of the target item that carries the old stack's watched attributes and no unwatched ones; a key the old stack lacked stays absent (the family-info key and the counter aside). The sound plays iff asked for, the hook fires once, and with the family-info key watched the new tree records the choice |
| ItemMultiTool.HookKeeps | argualcore/src/MultiTool/ItemMultiTool.cs:232 | the completion hook keeps the stack's item and size and every attribute but the switch counter, and adds no attribute besides the counter |
| ItemMultiTool.SwitchCountsOnlyReplacements | argualcore/src/MultiTool/ItemMultiTool.cs:218-232 | the hook fires exactly when the stack is replaced. The switch counter is unchanged on a no-op, is carried over and incremented on a switch to an advanced multitool, and is carried over unchanged on a switch to a plain multitool |
| ItemMultiTool.SwitchAgainIsNoOp | argualcore/src/MultiTool/ItemMultiTool.cs:211-218 | with the family-info key watched, switching to the same family a second time replaces nothing and leaves the stack as it is |
| ItemMultiTool.RememberedAgain | argualcore/src/MultiTool/ItemMultiTool.cs:215-216 | recording a choice the tree already holds leaves the stack unchanged |
| ItemMultiTool.OnMultiToolSwitchComplete | argualcore/src/MultiTool/ItemMultiTool.cs:232 | the hook dispatched on the class of the new item: nothing for a plain multitool, the counter for an advanced one; each call is counted once on the slot |
| ItemMultiTool.ReplaceToolStack | argualcore/src/MultiTool/ItemMultiTool.cs:218-232 | the slot ends holding `ReplaceWith` of the old stack, is marked dirty once exactly when it was replaced, and the slot's hook counter grows by the outcome's hook calls (one exactly when replaced) |
| ItemMultiTool.SwitchToolItemInSlot | argualcore/src/MultiTool/ItemMultiTool.cs:209-234 | the slot ends holding `SwitchInSlot` of the old stack, is marked dirty once exactly when it was replaced, and the hook is called on it once exactly then |
| ItemMultiTool.OnToolSwitchMessageReceivedFromClient | argualcore/src/MultiTool/ItemMultiTool.cs:193-204 | a request naming a missing inventory or slot changes nothing. A family request switches the addressed slot. An index request replaces it by the code at that index, or is dropped when the index is outside the code list |
| ItemMultiTool.SendToolSwitchMessageToServer | argualcore/src/MultiTool/ItemMultiTool.cs:175-188 | a request is sent only for a slot holding a multitool, and it names the family at the dialog index |
| ItemMultiTool.SentRequestAddressesSameSlot | argualcore/src/MultiTool/ItemMultiTool.cs:175-204 | the request the client sends for a slot reaches that same slot on the server, with the chosen family |
| ItemMultiTool.DialogToolCodes | argualcore/src/MultiTool/ItemMultiTool.cs:142-150 | one entry per family, in registration order: the code the tree remembers for it, or else its first member, and that code's item. An empty tree is added when there was none |
| ItemMultiTool.TreeAddedOnce | argualcore/src/MultiTool/ItemMultiTool.cs:145 | reading the family-info tree a second time adds nothing, and the tree read back is the one the stack had (or an empty one) |
| ItemMultiTool.LastProvider | argualcore/src/MultiTool/ItemMultiTool.cs:86-92 | the last multitool input that has the key; when there is none, no input has it |
| ItemMultiTool.CraftedAttributesLastWins | argualcore/src/MultiTool/ItemMultiTool.cs:86-92 | after crafting, a watched key holds the value of the last multitool input that has it, so later inputs overwrite earlier ones. Otherwise, and for every unwatched key, the output's own value is kept |
| ItemMultiTool.CraftedRecordsFamily | argualcore/src/MultiTool/ItemMultiTool.cs:94-99 | when the output's code belongs to a family, its tree remembers that code for the family and names the family as current, and every other attribute is the copied one. When it belongs to no family, only the copied attributes change |
| ItemMultiTool.CopyFromMultiToolInputs | argualcore/src/MultiTool/ItemMultiTool.cs:86-92 | the copying loop leaves the output slot holding its stack with the `CraftedAttributes` of the inputs; the output is not marked dirty |
| ItemMultiTool.OnCreatedByCrafting | argualcore/src/MultiTool/ItemMultiTool.cs:82-100 | the copying loop and the family update leave the output slot holding `CraftedStack` of the inputs; the output is not marked dirty |

## Left out

- Networking is left out: channel registration, ProtoBuf message registration and `SendPacket` (argualcore/src/MultiTool/MultiToolSystem.cs:127-128, argualcore/src/MultiTool/ItemMultiTool.cs:186). The client function returns the packet it would send.
- Hotkey registration and the hotkey handler (`HandleToolSwitchHotkey`) are left out, and so are `OnLoaded`/`OnUnloaded`, `GetHeldInteractionHelp`, and the dialog's construction, rendering and disposal. Only the list of codes the dialog shows is modelled. These are host-engine and GUI calls.
- Sound playback is recorded as a flag in `SwitchOutcome`, set where the source calls `PlaySoundFor`; the `SwitchSound` asset is a constant only. Calls of the completion hook are counted on the slot by a ghost counter (`ItemSlot.hookCalls`) that the hook dispatch increments. The chat message of the example hook and all logging calls are left out. They have no effect on the modelled state.
- `Lang.Get` lookups are left out, because translations live outside the repository. So are the description lookup in the dialog (argualcore/src/MultiTool/ItemMultiTool.cs:156-161) and the GUI files.
- The engine's item lookup, code parsing and `AssetLocation.Valid` are uninterpreted functions (`World`). A lookup that returns no item is not modelled.
- The mod startup classes are not part of this model.
- The family-registration overload that `ExampleMultitoolsMod.cs` calls (argualcore's `RegisterMultiTool(family, code)`) is not part of this model. Neither is the registry version that declares `ToolCodes`, `TryFindMultiToolFamily` and the family-info keys. The `Families` module stands in for them, under the assumptions below.
- Families.FamilyTable.Register: its refusal rules are an assumption. They copy the flat registration's rules (argualcore/src/MultiTool/MultiToolSystem.cs:183-193): an invalid code is refused, and so is a code already registered. "Already registered" is widened to mean "held by any family".
- Families.FamilyTable.FindFamily stands for `TryFindMultiToolFamily` (argualcore/src/MultiTool/ItemMultiTool.cs:94). It is assumed to find the family that holds the code.
- `FamilyTable.order` assumes that `ToolCodes.Keys` lists the families in the order they were first registered. A .NET `Dictionary` does not promise that order. Two members depend on it: `ItemMultiTool.DialogToolCodes` ("in registration order", argualcore/src/MultiTool/ItemMultiTool.cs:143) and `ItemMultiTool.SendToolSwitchMessageToServer` (`Keys.ToList()[index]`, argualcore/src/MultiTool/ItemMultiTool.cs:183).
- The values of the family-info and current-family tree keys are parameters of the registry.
- Item stacks are values. `CopyAttributes` shares one attribute object between two stacks (argualcore/src/MultiTool/ItemMultiTool.cs:243), and the model copies the value instead, so aliasing between stacks is not captured. Tree attributes hold strings only.
- The crash paths of the source are preconditions:
  - an empty slot (argualcore/src/MultiTool/ItemMultiTool.cs:211);
  - an unknown family or one without members, for which `ToolCodes[family].First()` is evaluated even when the tree has an entry (argualcore/src/MultiTool/ItemMultiTool.cs:212, 146);
  - a family-info attribute that is not a tree;
  - a replacement item that is not a multitool, whose hook call through `as ItemMultiTool` throws (argualcore/src/MultiTool/ItemMultiTool.cs:232).
- Virtual dispatch of the completion hook is a closed match over the three item classes: plain item, multitool and advanced multitool. Subclasses outside the repository are not modelled.
- `base.OnCreatedByCrafting` (argualcore/src/MultiTool/ItemMultiTool.cs:84) belongs to the host engine and is not modelled. The crafting model assumes the output slot is not one of the input slots.
- Blocks as stack contents (`Itemstack.Item` being null, argualcore/src/MultiTool/ItemMultiTool.cs:218) are not modelled: every stack holds an item.
- ItemMultiTool.OnToolSwitchMessageReceivedFromClient: the `ByIndex` branch follows the flat registry's message (argualcore/src/MultiTool/MultiToolSystem.cs:33), whose handler is not part of this model. Its behaviour (switch to the code at that index, drop an index outside the list, leave the family tree alone) is a modelling choice.

## Findings

| source | as written | input that shows it | evidently intended | confidence | as-written member | corrected member |
|---|---|---|---|---|---|---|
| argualcore/src/MultiTool/MultiToolSystem.cs:142 | a duplicate key is reported with `LogWarningAction(...)` without a null check, although the constructor defaults the warning logger to null (line 104) and every other call uses `?.Invoke` | a registry built without a warning logger, `AddWatchedAttributeKey("k")` twice: the second call throws a NullReferenceException | the duplicate is ignored and the list stays as it was | not executed | Registry.AddWatchedKeyAsWritten | Registry.MultiToolSystem.AddWatchedAttributeKey |
