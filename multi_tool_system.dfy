/**
  The multitool registry (`MultiToolSystem`): the codes of the registered
  multitools in registration order, the keys of the attributes that survive a
  switch, and a lazily filled cache of one item stack per registered code.
 */
module Registry {
  import opened Engine

  /** How a switch request names its target: by position in the code list, or by family. */
  datatype SwitchTarget = ByIndex(toolIndex: int32) | ByFamily(toolFamily: string)

  /** `MultiToolSystem.ToolSwitchMessage`, the one message a client sends. */
  datatype ToolSwitchMessage = ToolSwitchMessage(inventoryId: string, slotId: int32, target: SwitchTarget)

  ghost predicate NoDuplicates<T>(s: seq<T>)
  {
    forall i, j :: 0 <= i < j < |s| ==> s[i] != s[j]
  }

  /** The watched-key list after `AddWatchedAttributeKey(key)`. */
  function AddedKey(keys: seq<string>, key: string): (r: seq<string>)
    ensures key in keys ==> r == keys
    ensures key !in keys ==> r == keys + [key]
  {
    if key in keys then keys else keys + [key]
  }

  /** The watched-key list after the key loop of `RegisterMultiTool`, one key after the other. */
  function AddedKeys(keys: seq<string>, newKeys: seq<string>): (r: seq<string>)
    ensures keys <= r
    ensures forall k :: k in r <==> k in keys || k in newKeys
    ensures NoDuplicates(keys) ==> NoDuplicates(r)
  {
    if |newKeys| == 0 then keys
    else AddedKey(AddedKeys(keys, newKeys[..|newKeys| - 1]), newKeys[|newKeys| - 1])
  }

  /** The index of the first occurrence of `key` in `keys`. */
  function IndexOf(keys: seq<string>, key: string): (i: nat)
    requires key in keys
    ensures i < |keys| && keys[i] == key && key !in keys[..i]
  {
    if keys[0] == key then 0 else assert keys[1..][..IndexOf(keys[1..], key)] == keys[1..IndexOf(keys[1..], key) + 1]; 1 + IndexOf(keys[1..], key)
  }

  /** `List.Remove(key)`: drops the first occurrence of `key`, if any. */
  function RemovedKey(keys: seq<string>, key: string): (r: seq<string>)
    ensures key in keys ==> r == keys[..IndexOf(keys, key)] + keys[IndexOf(keys, key) + 1..]
    ensures key !in keys ==> r == keys
  {
    if |keys| == 0 then []
    else if keys[0] == key then keys[1..]
    else
      var rest := RemovedKey(keys[1..], key);
      RemovedAround(keys, key, rest);
      [keys[0]] + rest
  }

  /** The recursive step of `RemovedKey`'s contract, at the first occurrence past the head. */
  lemma RemovedAround(keys: seq<string>, key: string, rest: seq<string>)
    requires |keys| > 0 && keys[0] != key
    requires key in keys ==> rest == keys[1..][..IndexOf(keys[1..], key)] + keys[1..][IndexOf(keys[1..], key) + 1..]
    ensures key in keys ==> [keys[0]] + rest == keys[..IndexOf(keys, key)] + keys[IndexOf(keys, key) + 1..]
  {
    if key in keys {
      var i := IndexOf(keys[1..], key);
      assert IndexOf(keys, key) == i + 1;
      assert keys[..i + 1] == [keys[0]] + keys[1..][..i];
      assert keys[i + 2..] == keys[1..][i + 1..];
    }
  }

  /** Removing from a duplicate-free list removes the key altogether, keeps it duplicate-free and keeps every other key. */
  lemma RemovedKeyExact(keys: seq<string>, key: string)
    requires NoDuplicates(keys)
    ensures key !in RemovedKey(keys, key)
    ensures NoDuplicates(RemovedKey(keys, key))
    ensures forall k :: k != key ==> (k in RemovedKey(keys, key) <==> k in keys)
    ensures |RemovedKey(keys, key)| == if key in keys then |keys| - 1 else |keys|
  {
    if key in keys {
      DropAt(keys, IndexOf(keys, key));
    }
  }

  /** Dropping one position of a duplicate-free list drops exactly that element. */
  lemma DropAt<T>(s: seq<T>, i: nat)
    requires NoDuplicates(s) && i < |s|
    ensures s[i] !in s[..i] + s[i + 1..]
    ensures NoDuplicates(s[..i] + s[i + 1..])
    ensures forall k :: k != s[i] ==> (k in s[..i] + s[i + 1..] <==> k in s)
  {
    var r := s[..i] + s[i + 1..];
    assert forall j :: 0 <= j < |r| ==> r[j] == if j < i then s[j] else s[j + 1];
    forall k | k in s && k != s[i]
      ensures k in r
    {
      var j :| 0 <= j < |s| && s[j] == k;
      if j < i { assert r[j] == k; } else { assert r[j - 1] == k; }
    }
  }

  /** Removing a key that was just added gives back the list it was added to. */
  lemma {:induction false} RemoveUndoesAdd(keys: seq<string>, key: string)
    requires key !in keys
    ensures RemovedKey(AddedKey(keys, key), key) == keys
  {
    if |keys| > 0 {
      assert (keys + [key])[1..] == keys[1..] + [key];
      RemoveUndoesAdd(keys[1..], key);
    }
  }

  /**
    `AddWatchedAttributeKey` as written: a key already on the list is reported
    through `LogWarningAction` without a null check, so when the registry was
    built without a warning logger the call throws (None here).
   */
  function AddWatchedKeyAsWritten(keys: seq<string>, key: string, hasWarningLogger: bool): Option<seq<string>>
  {
    if key in keys then (if hasWarningLogger then Some(keys) else None) else Some(keys + [key])
  }

  /** Adding a key twice to a registry built without a warning logger throws. */
  lemma DuplicateKeyWithoutWarningLoggerThrows()
    ensures AddWatchedKeyAsWritten(["k"], "k", false) == None
  {
  }

  /** Wherever the code as written does not throw, it agrees with `AddedKey`, which never throws. */
  lemma AddedKeyAgreesAsWritten(keys: seq<string>, key: string, hasWarningLogger: bool)
    requires AddWatchedKeyAsWritten(keys, key, hasWarningLogger).Some?
    ensures AddWatchedKeyAsWritten(keys, key, hasWarningLogger).value == AddedKey(keys, key)
  {
  }

  class MultiToolSystem {
    /** The engine the registry looks items up in (`api`). */
    const world: World
    const toolSwitchChannelName: string
    const toolSwitchHotKeyCode: string
    /** The attribute key of an item stack's family-info tree. */
    const familyInfoKey: string
    /** The key, inside the family-info tree, of the current family's entry. */
    const currentFamilyKey: string

    var toolCodes: seq<Code>
    var toolItemStacks: seq<ItemStack>
    /** `toolAttributesToKeepOnSwitch`, the watched attribute keys. */
    var toolAttributesToKeepOnSwitch: seq<string>

    /**
      Codes are valid and registered once; watched keys are listed once; the
      cache never runs ahead of the code list and its entry i is a stack of
      the item of code i.
     */
    ghost predicate Valid()
      reads this
    {
      && NoDuplicates(toolCodes)
      && (forall c :: c in toolCodes ==> world.isValid(c))
      && NoDuplicates(toolAttributesToKeepOnSwitch)
      && |toolItemStacks| <= |toolCodes|
      && forall i :: 0 <= i < |toolItemStacks| ==> toolItemStacks[i] == NewItemStack(world.getItem(toolCodes[i]))
    }

    constructor (world: World, networkChannelName: string, toolSwitchHotKeyCode: string,
                 familyInfoKey: string, currentFamilyKey: string)
      ensures Valid()
      ensures this.world == world && this.familyInfoKey == familyInfoKey && this.currentFamilyKey == currentFamilyKey
      ensures toolSwitchChannelName == networkChannelName && this.toolSwitchHotKeyCode == toolSwitchHotKeyCode
      ensures toolCodes == [] && toolItemStacks == [] && toolAttributesToKeepOnSwitch == []
    {
      this.world := world;
      toolSwitchChannelName := networkChannelName;
      this.toolSwitchHotKeyCode := toolSwitchHotKeyCode;
      this.familyInfoKey := familyInfoKey;
      this.currentFamilyKey := currentFamilyKey;
      toolCodes := [];
      toolItemStacks := [];
      toolAttributesToKeepOnSwitch := [];
    }

    /** `ToolAttributesToKeepOnSwitch`: the watched keys, in the order they were added. */
    function ToolAttributesToKeepOnSwitch(): seq<string>
      reads this
    {
      toolAttributesToKeepOnSwitch
    }

    /** Appends `key` to the watched keys unless it is already there. */
    method AddWatchedAttributeKey(key: string)
      requires Valid()
      modifies this`toolAttributesToKeepOnSwitch
      ensures Valid()
      ensures toolAttributesToKeepOnSwitch == AddedKey(old(toolAttributesToKeepOnSwitch), key)
    {
      if key in toolAttributesToKeepOnSwitch {
        return;
      }
      toolAttributesToKeepOnSwitch := toolAttributesToKeepOnSwitch + [key];
    }

    /** Removes `key` from the watched keys; tells whether it was there. */
    method RemoveWatchedAttributeKey(key: string) returns (removed: bool)
      requires Valid()
      modifies this`toolAttributesToKeepOnSwitch
      ensures Valid()
      ensures removed == (key in old(toolAttributesToKeepOnSwitch))
      ensures toolAttributesToKeepOnSwitch == RemovedKey(old(toolAttributesToKeepOnSwitch), key)
      ensures key !in toolAttributesToKeepOnSwitch
    {
      removed := key in toolAttributesToKeepOnSwitch;
      RemovedKeyExact(toolAttributesToKeepOnSwitch, key);
      toolAttributesToKeepOnSwitch := RemovedKey(toolAttributesToKeepOnSwitch, key);
    }

    /**
      Registers a multitool code. An invalid code, or one already registered,
      is refused with nothing changed; otherwise the code goes to the end of
      the list and the given keys are watched, each once, in argument order.
     */
    method RegisterMultiTool(assetLocation: Code, attributesToKeepOnSwitch: seq<string>) returns (ok: bool)
      requires Valid()
      modifies this`toolCodes, this`toolAttributesToKeepOnSwitch
      ensures Valid()
      ensures ok == (world.isValid(assetLocation) && assetLocation !in old(toolCodes))
      ensures ok ==> toolCodes == old(toolCodes) + [assetLocation]
      ensures ok ==> toolAttributesToKeepOnSwitch == AddedKeys(old(toolAttributesToKeepOnSwitch), attributesToKeepOnSwitch)
      ensures !ok ==> toolCodes == old(toolCodes) && toolAttributesToKeepOnSwitch == old(toolAttributesToKeepOnSwitch)
    {
      if !world.isValid(assetLocation) {
        return false;
      }
      if assetLocation in toolCodes {
        return false;
      }
      toolCodes := toolCodes + [assetLocation];
      var i := 0;
      while i < |attributesToKeepOnSwitch|
        invariant 0 <= i <= |attributesToKeepOnSwitch|
        invariant Valid()
        invariant toolCodes == old(toolCodes) + [assetLocation]
        invariant toolAttributesToKeepOnSwitch == AddedKeys(old(toolAttributesToKeepOnSwitch), attributesToKeepOnSwitch[..i])
      {
        var key := attributesToKeepOnSwitch[i];
        assert attributesToKeepOnSwitch[..i + 1][..i] == attributesToKeepOnSwitch[..i];
        if key !in toolAttributesToKeepOnSwitch {
          AddWatchedAttributeKey(key);
        }
        i := i + 1;
      }
      assert attributesToKeepOnSwitch[..i] == attributesToKeepOnSwitch;
      return true;
    }

    /** The (domain, path) overload: the same as registering `Code(domain, path)`. */
    method RegisterMultiToolByPath(domain: string, path: string, attributesToKeepOnSwitch: seq<string>) returns (ok: bool)
      requires Valid()
      modifies this`toolCodes, this`toolAttributesToKeepOnSwitch
      ensures Valid()
      ensures ok == (world.isValid(Code(domain, path)) && Code(domain, path) !in old(toolCodes))
      ensures ok ==> toolCodes == old(toolCodes) + [Code(domain, path)]
      ensures ok ==> toolAttributesToKeepOnSwitch == AddedKeys(old(toolAttributesToKeepOnSwitch), attributesToKeepOnSwitch)
      ensures !ok ==> toolCodes == old(toolCodes) && toolAttributesToKeepOnSwitch == old(toolAttributesToKeepOnSwitch)
    {
      ok := RegisterMultiTool(Code(domain, path), attributesToKeepOnSwitch);
    }

    /** Fills the cache up to the code list and returns it: entry i is a stack of code i's item. */
    method GetMultiToolItemStacks() returns (stacks: seq<ItemStack>)
      requires Valid()
      modifies this`toolItemStacks
      ensures Valid()
      ensures old(toolItemStacks) <= toolItemStacks && |toolItemStacks| == |toolCodes|
      ensures forall i :: 0 <= i < |toolCodes| ==> toolItemStacks[i] == NewItemStack(world.getItem(toolCodes[i]))
      ensures stacks == toolItemStacks
    {
      while |toolItemStacks| < |toolCodes|
        invariant Valid()
        invariant old(toolItemStacks) <= toolItemStacks
        decreases |toolCodes| - |toolItemStacks|
      {
        var tool := world.getItem(toolCodes[|toolItemStacks|]);
        toolItemStacks := toolItemStacks + [NewItemStack(tool)];
      }
      stacks := toolItemStacks;
    }
  }
}
