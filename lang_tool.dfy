/**
  Builders of localisation keys (`LangTool`): a domain prefix, and parts joined
  by "-" where a separator is written only after a non-blank prefix.
 */
module LangTool {
  import opened Engine

  const LangSeparator: string := "-"
  const Item: string := "item"
  const Desc: string := "desc"
  const Block: string := "block"
  const HeldHelp: string := "heldhelp"
  const Dialog: string := "dialog"
  const Title: string := "title"

  /** .NET's `char.IsWhiteSpace`: the Unicode separators and the control characters 9-13, 0x85. */
  predicate IsWhiteSpace(c: char)
  {
    || 0x09 <= c as int <= 0x0D
    || c as int == 0x20 || c as int == 0x85 || c as int == 0xA0 || c as int == 0x1680
    || 0x2000 <= c as int <= 0x200A
    || c as int == 0x2028 || c as int == 0x2029 || c as int == 0x202F || c as int == 0x205F
    || c as int == 0x3000
  }

  /** `string.IsNullOrWhiteSpace` (strings are never null here): every character is white space. */
  predicate IsBlank(s: string)
  {
    |s| == 0 || (IsWhiteSpace(s[0]) && IsBlank(s[1..]))
  }

  /** `GetKeyWithDomain`: the key prefixed by its domain and ':'. */
  function GetKeyWithDomain(domain: string, key: string): (r: string)
    ensures |r| == |domain| + 1 + |key|
    ensures r[..|domain|] == domain && r[|domain|] == ':' && r[|domain| + 1..] == key
  {
    domain + LocationSeparator + key
  }

  /** The index of the first ':' in `s`, if any. */
  function FirstColon(s: string): (r: Option<nat>)
    ensures r.Some? ==> r.value < |s| && s[r.value] == ':' && ':' !in s[..r.value]
    ensures r.None? ==> ':' !in s
  {
    if |s| == 0 then None
    else if s[0] == ':' then Some(0)
    else match FirstColon(s[1..])
      case None => None
      case Some(i) => assert s[..i + 1] == [s[0]] + s[1..][..i]; Some(i + 1)
  }

  /** Splits a domain-qualified key at its first ':' into (domain, key). */
  function SplitDomain(s: string): Option<(string, string)>
  {
    match FirstColon(s)
    case None => None
    case Some(i) => Some((s[..i], s[i + 1..]))
  }

  /** A ':' with none before it is the first one. */
  lemma {:induction false} FirstColonAt(s: string, k: nat)
    requires k < |s| && s[k] == ':' && ':' !in s[..k]
    ensures FirstColon(s) == Some(k)
  {
    if k > 0 {
      assert s[0] == s[..k][0];
      assert s[1..][..k - 1] == s[1..k] && s[1..k] == s[..k][1..];
      FirstColonAt(s[1..], k - 1);
    }
  }

  /** A key whose domain holds no ':' is split back into its domain and key. */
  lemma SplitKeyWithDomain(domain: string, key: string)
    requires ':' !in domain
    ensures SplitDomain(GetKeyWithDomain(domain, key)) == Some((domain, key))
  {
    FirstColonAt(GetKeyWithDomain(domain, key), |domain|);
  }

  /** One step of `Combine`'s loop: a separator first unless the result so far is blank. */
  function AppendPart(result: string, part: string): string
  {
    (if IsBlank(result) then result else result + LangSeparator) + part
  }

  /** What `Combine(parts)` returns, part by part from the left. */
  function Combined(parts: seq<string>): string
  {
    if |parts| == 0 then "" else AppendPart(Combined(parts[..|parts| - 1]), parts[|parts| - 1])
  }

  /** `Combine`: its loop, proved to compute `Combined`. */
  method Combine(parts: seq<string>) returns (result: string)
    ensures result == Combined(parts)
  {
    result := "";
    var i := 0;
    while i < |parts|
      invariant 0 <= i <= |parts|
      invariant result == Combined(parts[..i])
    {
      assert parts[..i + 1][..i] == parts[..i];
      if !IsBlank(result) {
        result := result + LangSeparator;
      }
      result := result + parts[i];
      i := i + 1;
    }
    assert parts[..i] == parts;
  }

  /** The concatenation of all parts, with no separator. */
  function Concat(parts: seq<string>): string
  {
    if |parts| == 0 then "" else parts[0] + Concat(parts[1..])
  }

  /** `string.Join("-", parts)` for a non-empty list: a separator between every two parts. */
  function Joined(parts: seq<string>): string
    requires |parts| > 0
  {
    if |parts| == 1 then parts[0] else parts[0] + LangSeparator + Joined(parts[1..])
  }

  lemma {:induction false} ConcatSnoc(parts: seq<string>, p: string)
    ensures Concat(parts + [p]) == Concat(parts) + p
  {
    if |parts| > 0 {
      assert (parts + [p])[1..] == parts[1..] + [p];
      ConcatSnoc(parts[1..], p);
    } else {
      assert Concat([p]) == p + Concat([]);
    }
  }

  lemma {:induction false} JoinedSnoc(parts: seq<string>, p: string)
    requires |parts| > 0
    ensures Joined(parts + [p]) == Joined(parts) + LangSeparator + p
  {
    if |parts| > 1 {
      assert (parts + [p])[1..] == parts[1..] + [p];
      JoinedSnoc(parts[1..], p);
    } else {
      assert (parts + [p])[1..] == [p];
    }
  }

  lemma {:induction false} ConcatOfBlanksIsBlank(a: string, b: string)
    requires IsBlank(a) && IsBlank(b)
    ensures IsBlank(a + b)
  {
    if |a| == 0 {
      assert a + b == b;
    } else {
      assert (a + b)[0] == a[0] && (a + b)[1..] == a[1..] + b;
      ConcatOfBlanksIsBlank(a[1..], b);
    }
  }

  lemma {:induction false} BlankOfConcat(a: string, b: string)
    requires IsBlank(a + b)
    ensures IsBlank(a) && IsBlank(b)
  {
    if |a| == 0 {
      assert a + b == b;
    } else {
      assert (a + b)[0] == a[0] && (a + b)[1..] == a[1..] + b;
      BlankOfConcat(a[1..], b);
    }
  }

  /**
    The result of `Combine` is blank exactly when every part is blank: no
    separator is written while the result is blank, and a non-blank part
    makes every later result non-blank.
   */
  lemma {:induction false} CombinedBlankIff(parts: seq<string>)
    ensures IsBlank(Combined(parts)) <==> forall i :: 0 <= i < |parts| ==> IsBlank(parts[i])
  {
    if |parts| > 0 {
      var n := |parts| - 1;
      var init := parts[..n];
      CombinedBlankIff(init);
      var acc := Combined(init);
      if IsBlank(acc) {
        assert Combined(parts) == acc + parts[n];
        if IsBlank(parts[n]) && IsBlank(acc) {
          ConcatOfBlanksIsBlank(acc, parts[n]);
        }
        if IsBlank(Combined(parts)) {
          BlankOfConcat(acc, parts[n]);
          assert forall i :: 0 <= i < n ==> parts[i] == init[i];
        }
      } else {
        assert Combined(parts) == (acc + LangSeparator) + parts[n];
        if IsBlank(Combined(parts)) {
          BlankOfConcat(acc + LangSeparator, parts[n]);
          BlankOfConcat(acc, LangSeparator);
        }
        var j :| 0 <= j < n && !IsBlank(init[j]);
        assert parts[j] == init[j];
      }
    }
  }

  /**
    `Combine` in closed form: the blank parts before the first non-blank one
    are concatenated, and from that part on every part is preceded by "-".
   */
  lemma {:induction false} CombinedSplit(parts: seq<string>, k: nat)
    requires k < |parts| && !IsBlank(parts[k])
    requires forall i :: 0 <= i < k ==> IsBlank(parts[i])
    ensures Combined(parts) == Concat(parts[..k]) + Joined(parts[k..])
  {
    var n := |parts| - 1;
    var init, last := parts[..n], parts[n];
    if n == k {
      CombinedAtFirstWord(parts);
    } else {
      assert init[k] == parts[k];
      assert forall i :: 0 <= i < k ==> init[i] == parts[i];
      CombinedSplit(init, k);
      CombinedBlankIff(init);
      CombinedSnocStep(init, last, Concat(init[..k]), Joined(init[k..]));
      JoinedSnoc(init[k..], last);
      SnocSlices(parts, k);
    }
  }

  /** The last part is the first non-blank one: the blank parts before it are glued to it. */
  lemma CombinedAtFirstWord(parts: seq<string>)
    requires |parts| > 0 && forall i :: 0 <= i < |parts| - 1 ==> IsBlank(parts[i])
    ensures Combined(parts) == Concat(parts[..|parts| - 1]) + Joined(parts[|parts| - 1..])
  {
    var n := |parts| - 1;
    var init, last := parts[..n], parts[n];
    var acc := Combined(init);
    assert IsBlank(acc) && acc == Concat(init) by {
      assert forall i :: 0 <= i < |init| ==> init[i] == parts[i];
      CombinedIsConcatOfBlanks(init);
      CombinedBlankIff(init);
    }
    LastSlice(parts);
    assert Joined(parts[n..]) == last;
    assert Combined(parts) == AppendPart(acc, last);
  }

  /** One more part after a non-blank result is joined with "-". */
  lemma CombinedSnocStep(init: seq<string>, last: string, c: string, j: string)
    requires !IsBlank(Combined(init)) && Combined(init) == c + j
    ensures Combined(init + [last]) == c + (j + LangSeparator + last)
  {
    SnocTake(init, last);
  }

  lemma SnocTake<T>(s: seq<T>, x: T)
    ensures (s + [x])[..|s|] == s && (s + [x])[|s|] == x
  {
  }

  /** Slicing a list is slicing its part before the last element, then adding the last. */
  lemma SnocSlices<T>(s: seq<T>, k: nat)
    requires k < |s|
    ensures s == s[..|s| - 1] + [s[|s| - 1]]
    ensures s[..k] == s[..|s| - 1][..k]
    ensures s[k..] == s[..|s| - 1][k..] + [s[|s| - 1]]
  {
  }

  /** The last element alone. */
  lemma LastSlice<T>(s: seq<T>)
    requires |s| > 0
    ensures s[|s| - 1..] == [s[|s| - 1]]
  {
  }

  /** While every part is blank, `Combine` only concatenates. */
  lemma {:induction false} CombinedIsConcatOfBlanks(parts: seq<string>)
    requires forall i :: 0 <= i < |parts| ==> IsBlank(parts[i])
    ensures Combined(parts) == Concat(parts)
  {
    if |parts| > 0 {
      var n := |parts| - 1;
      var init := parts[..n];
      assert forall i :: 0 <= i < |init| ==> init[i] == parts[i];
      CombinedIsConcatOfBlanks(init);
      CombinedBlankIff(init);
      ConcatSnoc(init, parts[n]);
      assert init + [parts[n]] == parts;
    }
  }

  /** When the first part is not blank, `Combine` is `string.Join("-", parts)`. */
  lemma CombinedIsJoin(parts: seq<string>)
    requires |parts| > 0 && !IsBlank(parts[0])
    ensures Combined(parts) == Joined(parts)
  {
    CombinedSplit(parts, 0);
    assert parts[0..] == parts;
  }

  /** A string whose first character is not white space is not blank. */
  lemma NotBlank(s: string)
    requires |s| > 0 && !IsWhiteSpace(s[0])
    ensures !IsBlank(s)
  {
  }

  /** One part is returned as it is. */
  lemma CombinedSingle(p: string)
    ensures Combined([p]) == p
  {
    assert [p][..0] == [];
    assert IsBlank("");
    assert Combined([p]) == "" + p;
  }

  /** `Combine(word, x)` for a non-blank first word. */
  lemma CombinedAfterWord(word: string, x: string)
    requires !IsBlank(word)
    ensures Combined([word, x]) == word + "-" + x
  {
    assert [word, x][..1] == [word];
    CombinedSingle(word);
  }

  /** Zero parts give "", and a blank part is glued without "-". */
  lemma CombineExamples()
    ensures Combined([]) == ""
    ensures Combined(["", "a"]) == "a"
    ensures Combined(["a", "", "b"]) == "a--b"
    ensures Combined([" ", "a"]) == " a"
  {
    assert ["", "a"][..1] == [""];
    CombinedSingle("");
    assert Combined(["", "a"]) == "" + "a";
    NotBlank("a");
    CombinedAfterWord("a", "");
    assert ["a", "", "b"][..2] == ["a", ""];
    NotBlank("a-");
    assert Combined(["a", "", "b"]) == "a-" + "-" + "b";
    assert [" ", "a"][..1] == [" "];
    CombinedSingle(" ");
    assert IsBlank(" ");
    assert Combined([" ", "a"]) == " " + "a";
  }

  function GetItemKey(item: string): string
  {
    Item + LangSeparator + item
  }

  function GetItemDescKey(item: string): string
  {
    Combined([Item + Desc, item])
  }

  function GetBlockKey(block: string): string
  {
    Combined([Block, block])
  }

  function GetBlockDescKey(block: string): string
  {
    Combined([Block + Desc, block])
  }

  function GetHeldHelpKey(collectible: string): string
  {
    Combined([HeldHelp, collectible])
  }

  function GetDialogTitleKey(title: string): string
  {
    Combined([Dialog, Title, title])
  }

  function GetItemKeyInDomain(domain: string, item: string): string
  {
    GetKeyWithDomain(domain, GetItemKey(item))
  }

  function GetItemDescKeyInDomain(domain: string, item: string): string
  {
    GetKeyWithDomain(domain, GetItemDescKey(item))
  }

  function GetBlockKeyInDomain(domain: string, block: string): string
  {
    GetKeyWithDomain(domain, GetBlockKey(block))
  }

  function GetBlockDescKeyInDomain(domain: string, block: string): string
  {
    GetKeyWithDomain(domain, GetBlockDescKey(block))
  }

  function GetHeldHelpKeyInDomain(domain: string, collectible: string): string
  {
    GetKeyWithDomain(domain, GetHeldHelpKey(collectible))
  }

  function GetDialogTitleKeyInDomain(domain: string, title: string): string
  {
    GetKeyWithDomain(domain, GetDialogTitleKey(title))
  }

  /**
    The item key, written without `Combine`, still agrees with it for every
    item name, the empty one included.
   */
  lemma ItemKeyAgreesWithCombine(item: string)
    ensures GetItemKey(item) == Combined([Item, item]) == "item-" + item
  {
    NotBlank(Item);
    CombinedAfterWord(Item, item);
  }

  /** `Combine(word, x)` for a word that starts with a non-white-space character. */
  lemma PrefixedPart(word: string, x: string)
    requires |word| > 0 && !IsWhiteSpace(word[0])
    ensures Combined([word, x]) == word + LangSeparator + x
  {
    NotBlank(word);
    CombinedAfterWord(word, x);
  }

  /** `Combine(a, b, x)` for an `a` that starts with a non-white-space character. */
  lemma PrefixedPair(a: string, b: string, x: string)
    requires |a| > 0 && !IsWhiteSpace(a[0])
    ensures Combined([a, b, x]) == (a + LangSeparator + b) + LangSeparator + x
  {
    PrefixedPart(a, b);
    assert [a, b, x][..2] == [a, b];
    NotBlank(a + LangSeparator + b);
  }

  lemma ItemDescKeyValue(x: string)
    ensures GetItemDescKey(x) == "itemdesc-" + x
  {
    assert Item + Desc == "itemdesc";
    PrefixedPart("itemdesc", x);
    assert "itemdesc" + LangSeparator == "itemdesc-";
  }

  lemma BlockKeyValue(x: string)
    ensures GetBlockKey(x) == "block-" + x
  {
    PrefixedPart(Block, x);
    assert Block + LangSeparator == "block-";
  }

  lemma BlockDescKeyValue(x: string)
    ensures GetBlockDescKey(x) == "blockdesc-" + x
  {
    assert Block + Desc == "blockdesc";
    PrefixedPart("blockdesc", x);
    assert "blockdesc" + LangSeparator == "blockdesc-";
  }

  lemma HeldHelpKeyValue(x: string)
    ensures GetHeldHelpKey(x) == "heldhelp-" + x
  {
    PrefixedPart(HeldHelp, x);
    assert HeldHelp + LangSeparator == "heldhelp-";
  }

  lemma DialogTitleKeyValue(x: string)
    ensures GetDialogTitleKey(x) == "dialog-title-" + x
  {
    PrefixedPair(Dialog, Title, x);
    assert (Dialog + LangSeparator + Title) + LangSeparator == "dialog-title-";
  }

  /** Every one-argument key is its fixed prefix, "-" and the argument, whatever the argument. */
  lemma KeysWithoutDomain(x: string)
    ensures GetItemKey(x) == "item-" + x
    ensures GetItemDescKey(x) == "itemdesc-" + x
    ensures GetBlockKey(x) == "block-" + x
    ensures GetBlockDescKey(x) == "blockdesc-" + x
    ensures GetHeldHelpKey(x) == "heldhelp-" + x
    ensures GetDialogTitleKey(x) == "dialog-title-" + x
  {
    assert Item + LangSeparator == "item-";
    ItemDescKeyValue(x);
    BlockKeyValue(x);
    BlockDescKeyValue(x);
    HeldHelpKeyValue(x);
    DialogTitleKeyValue(x);
  }

  /** Every two-argument key is the domain, ':' and the one-argument key. */
  lemma KeysWithDomain(domain: string, x: string)
    ensures GetItemKeyInDomain(domain, x) == domain + ":item-" + x
    ensures GetItemDescKeyInDomain(domain, x) == domain + ":itemdesc-" + x
    ensures GetBlockKeyInDomain(domain, x) == domain + ":block-" + x
    ensures GetBlockDescKeyInDomain(domain, x) == domain + ":blockdesc-" + x
    ensures GetHeldHelpKeyInDomain(domain, x) == domain + ":heldhelp-" + x
    ensures GetDialogTitleKeyInDomain(domain, x) == domain + ":dialog-title-" + x
  {
    ItemKeyInDomainValue(domain, x);
    ItemDescKeyInDomainValue(domain, x);
    BlockKeyInDomainValue(domain, x);
    BlockDescKeyInDomainValue(domain, x);
    HeldHelpKeyInDomainValue(domain, x);
    DialogTitleKeyInDomainValue(domain, x);
  }

  lemma ItemKeyInDomainValue(domain: string, x: string)
    ensures GetItemKeyInDomain(domain, x) == domain + ":item-" + x
  {
    ItemKeyAgreesWithCombine(x);
    DomainPrefix(domain, "item-", x);
    assert ":" + "item-" == ":item-";
  }

  lemma ItemDescKeyInDomainValue(domain: string, x: string)
    ensures GetItemDescKeyInDomain(domain, x) == domain + ":itemdesc-" + x
  {
    ItemDescKeyValue(x);
    DomainPrefix(domain, "itemdesc-", x);
    assert ":" + "itemdesc-" == ":itemdesc-";
  }

  lemma BlockKeyInDomainValue(domain: string, x: string)
    ensures GetBlockKeyInDomain(domain, x) == domain + ":block-" + x
  {
    BlockKeyValue(x);
    DomainPrefix(domain, "block-", x);
    assert ":" + "block-" == ":block-";
  }

  lemma BlockDescKeyInDomainValue(domain: string, x: string)
    ensures GetBlockDescKeyInDomain(domain, x) == domain + ":blockdesc-" + x
  {
    BlockDescKeyValue(x);
    DomainPrefix(domain, "blockdesc-", x);
    assert ":" + "blockdesc-" == ":blockdesc-";
  }

  lemma HeldHelpKeyInDomainValue(domain: string, x: string)
    ensures GetHeldHelpKeyInDomain(domain, x) == domain + ":heldhelp-" + x
  {
    HeldHelpKeyValue(x);
    DomainPrefix(domain, "heldhelp-", x);
    assert ":" + "heldhelp-" == ":heldhelp-";
  }

  lemma DialogTitleKeyInDomainValue(domain: string, x: string)
    ensures GetDialogTitleKeyInDomain(domain, x) == domain + ":dialog-title-" + x
  {
    DialogTitleKeyValue(x);
    DomainPrefix(domain, "dialog-title-", x);
    assert ":" + "dialog-title-" == ":dialog-title-";
  }

  /** A domain-qualified key whose domain-less key is a fixed prefix and an argument. */
  lemma DomainPrefix(domain: string, prefix: string, x: string)
    ensures GetKeyWithDomain(domain, prefix + x) == domain + (":" + prefix) + x
  {
  }
}
