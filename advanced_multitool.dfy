/**
  The example multitool that counts its switches (`AdvancedMultitool`): its
  switch-completion hook reads a counter attribute on the slot's stack, adds
  one and writes it back.
 */
module AdvancedMultitool {
  import opened Engine

  /** `ExampleMultitoolsMod.Domain`. */
  const Domain: string := "examplemultitools"

  /** `advancedSwitchAttributeKey`. */
  const AdvancedSwitchAttributeKey: string := Domain + LocationSeparator + "switchCount"

  lemma AdvancedSwitchAttributeKeyValue()
    ensures AdvancedSwitchAttributeKey == "examplemultitools:switchCount"
  {
  }

  /** `Attributes.GetInt(key, 0)`: the integer stored under `key`, or 0 when there is none. */
  function GetInt(attributes: Attributes, key: string): int32
  {
    if key in attributes && attributes[key].IntValue? then attributes[key].i else 0
  }

  /** The attributes after the hook: the counter one higher (wrapping as a C# `int`), nothing else touched. */
  function CountedSwitch(attributes: Attributes): Attributes
  {
    attributes[AdvancedSwitchAttributeKey := IntValue(Inc32(GetInt(attributes, AdvancedSwitchAttributeKey)))]
  }

  /** `OnMultiToolSwitchComplete`: increments the switch counter of the stack in `slot`. */
  method OnMultiToolSwitchComplete(slot: ItemSlot)
    requires slot.itemstack.Some?
    modifies slot
    ensures slot.itemstack == Some(old(slot.itemstack.value).(attributes := CountedSwitch(old(slot.itemstack.value.attributes))))
    ensures slot.dirtyMarks == old(slot.dirtyMarks) && slot.hookCalls == old(slot.hookCalls)
  {
    var stack := slot.itemstack.value;
    var switchCount := GetInt(stack.attributes, AdvancedSwitchAttributeKey);
    switchCount := Inc32(switchCount);
    slot.itemstack := Some(stack.(attributes := stack.attributes[AdvancedSwitchAttributeKey := IntValue(switchCount)]));
  }

  /**
    A stack without a counter has 1 after the hook; a counter n below
    `int.MaxValue` becomes n + 1; every other attribute keeps its value.
   */
  lemma CountedSwitchCounts(attributes: Attributes)
    ensures AdvancedSwitchAttributeKey !in attributes ==> GetInt(CountedSwitch(attributes), AdvancedSwitchAttributeKey) == 1
    ensures var n := GetInt(attributes, AdvancedSwitchAttributeKey);
      n < 0x7FFF_FFFF ==> GetInt(CountedSwitch(attributes), AdvancedSwitchAttributeKey) as int == n as int + 1
    ensures CountedSwitch(attributes).Keys == attributes.Keys + {AdvancedSwitchAttributeKey}
    ensures forall k :: k in attributes && k != AdvancedSwitchAttributeKey ==> CountedSwitch(attributes)[k] == attributes[k]
  {
  }

  /** At `int.MaxValue` the counter wraps to `int.MinValue`, as C#'s unchecked `++` does. */
  lemma CountedSwitchWraps(attributes: Attributes)
    requires GetInt(attributes, AdvancedSwitchAttributeKey) == 0x7FFF_FFFF
    ensures GetInt(CountedSwitch(attributes), AdvancedSwitchAttributeKey) == -0x8000_0000
  {
  }
}
