/** The localisation keys of the multitool (`LangKey`), built in the core mod's domain. */
module LangKey {
  import opened Engine
  import opened LangTool

  /** `ArgualCoreMod.Domain`. */
  const Domain: string := "argualcore"

  const MultiToolDefault: string := "multitooldefault"
  const SwitchMultiTool: string := "switchmultitool"

  function MultiToolDefaultItem(): string
  {
    GetItemKeyInDomain(Domain, MultiToolDefault)
  }

  function MultiToolDefaultItemDesc(): string
  {
    GetItemDescKeyInDomain(Domain, MultiToolDefault)
  }

  function SwitchMultiToolHotkey(): string
  {
    GetKeyWithDomain(Domain, Combined(["hotkey", SwitchMultiTool]))
  }

  function SwitchMultiToolHeldHelp(): string
  {
    GetHeldHelpKeyInDomain(Domain, SwitchMultiTool)
  }

  function SwitchMultiToolDialogTitle(): string
  {
    GetDialogTitleKeyInDomain(Domain, SwitchMultiTool)
  }

  /** `GetKeyWithDomain` in the core mod's domain. */
  lemma InCoreDomain(key: string)
    ensures GetKeyWithDomain(Domain, key) == "argualcore:" + key
  {
    assert Domain + LocationSeparator == "argualcore:";
  }

  // Solver helpers, not properties of the keys: each states only that two
  // string literals concatenate to a third. They are kept one per lemma so
  // that every literal concatenation is worked out in a proof of its own.

  lemma QualifiedItemLiteral()
    ensures "argualcore:" + "item-multitooldefault" == "argualcore:item-multitooldefault"
  {
  }

  lemma QualifiedItemDescLiteral()
    ensures "argualcore:" + "itemdesc-multitooldefault" == "argualcore:itemdesc-multitooldefault"
  {
  }

  lemma QualifiedHotkeyLiteral()
    ensures "argualcore:" + "hotkey-switchmultitool" == "argualcore:hotkey-switchmultitool"
  {
  }

  lemma QualifiedHeldHelpLiteral()
    ensures "argualcore:" + "heldhelp-switchmultitool" == "argualcore:heldhelp-switchmultitool"
  {
  }

  lemma QualifiedDialogTitleLiteral()
    ensures "argualcore:" + "dialog-title-switchmultitool" == "argualcore:dialog-title-switchmultitool"
  {
  }

  lemma DefaultItemKeyValue()
    ensures GetItemKey(MultiToolDefault) == "item-multitooldefault"
  {
    assert LangTool.Item + LangSeparator == "item-";
  }

  lemma DefaultItemDescKeyValue()
    ensures GetItemDescKey(MultiToolDefault) == "itemdesc-multitooldefault"
  {
    ItemDescKeyValue(MultiToolDefault);
  }

  lemma SwitchHeldHelpKeyValue()
    ensures GetHeldHelpKey(SwitchMultiTool) == "heldhelp-switchmultitool"
  {
    HeldHelpKeyValue(SwitchMultiTool);
  }

  lemma SwitchDialogTitleKeyValue()
    ensures GetDialogTitleKey(SwitchMultiTool) == "dialog-title-switchmultitool"
  {
    DialogTitleKeyValue(SwitchMultiTool);
  }

  lemma MultiToolDefaultItemValue()
    ensures MultiToolDefaultItem() == "argualcore:item-multitooldefault"
  {
    DefaultItemKeyValue();
    InCoreDomain("item-multitooldefault");
    QualifiedItemLiteral();
  }

  lemma MultiToolDefaultItemDescValue()
    ensures MultiToolDefaultItemDesc() == "argualcore:itemdesc-multitooldefault"
  {
    DefaultItemDescKeyValue();
    InCoreDomain("itemdesc-multitooldefault");
    QualifiedItemDescLiteral();
  }

  /** The domain-less hotkey key. */
  lemma HotkeyKeyValue()
    ensures Combined(["hotkey", SwitchMultiTool]) == "hotkey-switchmultitool"
  {
    PrefixedPart("hotkey", SwitchMultiTool);
    assert "hotkey" + LangSeparator == "hotkey-";
  }

  lemma SwitchMultiToolHotkeyValue()
    ensures SwitchMultiToolHotkey() == "argualcore:hotkey-switchmultitool"
  {
    HotkeyKeyValue();
    InCoreDomain("hotkey-switchmultitool");
    QualifiedHotkeyLiteral();
  }

  lemma SwitchMultiToolHeldHelpValue()
    ensures SwitchMultiToolHeldHelp() == "argualcore:heldhelp-switchmultitool"
  {
    SwitchHeldHelpKeyValue();
    InCoreDomain("heldhelp-switchmultitool");
    QualifiedHeldHelpLiteral();
  }

  lemma SwitchMultiToolDialogTitleValue()
    ensures SwitchMultiToolDialogTitle() == "argualcore:dialog-title-switchmultitool"
  {
    SwitchDialogTitleKeyValue();
    InCoreDomain("dialog-title-switchmultitool");
    QualifiedDialogTitleLiteral();
  }

  /** Each key splits back into the core mod's domain and its domain-less key. */
  lemma KeysCarryTheDomain()
    ensures SplitDomain(MultiToolDefaultItem()) == Some((Domain, GetItemKey(MultiToolDefault)))
    ensures SplitDomain(SwitchMultiToolDialogTitle()) == Some((Domain, GetDialogTitleKey(SwitchMultiTool)))
  {
    SplitKeyWithDomain(Domain, GetItemKey(MultiToolDefault));
    SplitKeyWithDomain(Domain, GetDialogTitleKey(SwitchMultiTool));
  }
}
