/**
  The registry's family table (`MultiToolSystem.ToolCodes` in the version of
  the registry that `ItemMultiTool` is written against): family names in the
  order they were first registered, and each family's codes in registration
  order.
 */
module Families {
  import opened Engine

  datatype FamilyTable = FamilyTable(order: seq<string>, members: map<string, seq<Code>>)
  {
    /**
      The keys in `order` are the keys of `members`, each once; every family
      has a first member; no code is registered twice, in one family or in two.
     */
    ghost predicate Valid()
    {
      && (forall i, j :: 0 <= i < j < |order| ==> order[i] != order[j])
      && (forall f :: f in members <==> f in order)
      && (forall f :: f in members ==> |members[f]| > 0)
      && (forall f, i, j :: f in members && 0 <= i < j < |members[f]| ==> members[f][i] != members[f][j])
      && (forall f, g, c :: f in members && g in members && c in members[f] && c in members[g] ==> f == g)
    }

    /** Whether some family already holds `code`. */
    predicate IsRegistered(code: Code)
    {
      exists f :: f in members && code in members[f]
    }

    /** The first of `families` (searched in order) holding `code`: `TryFindMultiToolFamily`. */
    function FindFamilyIn(families: seq<string>, code: Code): (r: Option<string>)
      ensures r.Some? ==> r.value in families && r.value in members && code in members[r.value]
      ensures r.None? ==> forall f :: f in families && f in members ==> code !in members[f]
    {
      if |families| == 0 then None
      else if families[0] in members && code in members[families[0]] then Some(families[0])
      else FindFamilyIn(families[1..], code)
    }

    function FindFamily(code: Code): Option<string>
    {
      FindFamilyIn(order, code)
    }

    /**
      Registers `code` as the last member of `family`, creating the family at
      the end of the order when it is new. An invalid code, or one any family
      already holds, is refused and the table is left as it was.
     */
    function Register(family: string, code: Code, isValid: bool): (r: Option<FamilyTable>)
      ensures r.None? <==> !isValid || IsRegistered(code)
      ensures r.Some? ==> family in r.value.members && r.value.members[family] == Variants(family) + [code]
      ensures r.Some? ==> forall g :: g != family ==> Variants(g) == r.value.Variants(g)
    {
      if !isValid || IsRegistered(code) then None
      else if family in members then Some(FamilyTable(order, members[family := members[family] + [code]]))
      else Some(FamilyTable(order + [family], members[family := [code]]))
    }

    /** The family's codes in registration order; none for an unknown family. */
    function Variants(family: string): seq<Code>
    {
      if family in members then members[family] else []
    }
  }

  function Empty(): (t: FamilyTable)
    ensures t.Valid()
  {
    FamilyTable([], map[])
  }

  /** In a valid table, the family found for a code is the one holding it, and none is found for an unregistered code. */
  lemma FindFamilyExact(t: FamilyTable, code: Code, f: string)
    requires t.Valid()
    ensures t.FindFamily(code) == Some(f) <==> f in t.members && code in t.members[f]
  {
  }

  /** Registering keeps the table valid and never reorders families already present. */
  lemma RegisterKeepsValid(t: FamilyTable, family: string, code: Code, isValid: bool)
    requires t.Valid()
    requires t.Register(family, code, isValid).Some?
    ensures t.Register(family, code, isValid).value.Valid()
    ensures t.order <= t.Register(family, code, isValid).value.order
  {
    RegisterKeepsOrder(t, family, code, isValid);
    RegisterKeepsCodesDistinct(t, family, code, isValid);
  }

  /** The order keeps listing each family once, and only families, with a new one at its end. */
  lemma RegisterKeepsOrder(t: FamilyTable, family: string, code: Code, isValid: bool)
    requires t.Valid()
    requires t.Register(family, code, isValid).Some?
    ensures var r := t.Register(family, code, isValid).value;
      && (forall i, j :: 0 <= i < j < |r.order| ==> r.order[i] != r.order[j])
      && (forall f :: f in r.members <==> f in r.order)
      && t.order <= r.order
  {
    var r := t.Register(family, code, isValid).value;
    if family in t.members {
      assert r.order == t.order;
    } else {
      assert family !in t.order;
      forall f | f in r.members
        ensures f in r.order
      {
        if f != family { assert f in t.order; }
      }
    }
  }

  /** The new code is not in any family yet, so no family holds a code twice afterwards. */
  lemma RegisterKeepsCodesDistinct(t: FamilyTable, family: string, code: Code, isValid: bool)
    requires t.Valid()
    requires t.Register(family, code, isValid).Some?
    ensures var r := t.Register(family, code, isValid).value;
      forall f, i, j :: f in r.members && 0 <= i < j < |r.members[f]| ==> r.members[f][i] != r.members[f][j]
  {
    var r := t.Register(family, code, isValid).value;
    forall f, i, j | f in r.members && 0 <= i < j < |r.members[f]|
      ensures r.members[f][i] != r.members[f][j]
    {
      if f == family && j == |r.members[f]| - 1 {
        assert r.members[f][i] in t.Variants(family);
      }
    }
  }

  /** After a successful registration the code is found in the family it was registered under. */
  lemma RegisterThenFind(t: FamilyTable, family: string, code: Code, isValid: bool)
    requires t.Valid()
    requires t.Register(family, code, isValid).Some?
    ensures t.Register(family, code, isValid).value.FindFamily(code) == Some(family)
  {
    RegisterKeepsValid(t, family, code, isValid);
    var r := t.Register(family, code, isValid).value;
    assert code in r.members[family];
    FindFamilyExact(r, code, family);
  }

  /**
    A code registered in one family is refused in any family afterwards, and
    is still found in the first one.
   */
  lemma SecondFamilyRefused(t: FamilyTable, famA: string, famB: string, code: Code)
    requires t.Valid()
    requires t.Register(famA, code, true).Some?
    ensures var r := t.Register(famA, code, true).value;
      r.Register(famB, code, true).None? && r.FindFamily(code) == Some(famA)
  {
    RegisterThenFind(t, famA, code, true);
    var r := t.Register(famA, code, true).value;
    assert code in r.members[famA];
  }

  /** Codes registered one after the other into a family are listed in that order. */
  lemma RegistrationOrder(t: FamilyTable, family: string, v1: Code, v2: Code)
    requires t.Valid() && family !in t.members
    requires t.Register(family, v1, true).Some?
    requires t.Register(family, v1, true).value.Register(family, v2, true).Some?
    ensures t.Register(family, v1, true).value.Register(family, v2, true).value.Variants(family) == [v1, v2]
  {
  }
}
