/**
 * Properties of the store's specification functions: what attaching,
 * detaching and adding an ability do to the role list, the ability map and
 * the answers to the queries, and how save, unset and resume relate.
 */
module AclLemmas {
  import opened AclModel

  // ---------------------------------------------------------------- roles

  /** Attaching keeps the list free of duplicates, and attaching twice is attaching once. */
  lemma AttachedKeepsNoDuplicates(roles: seq<string>, r: string)
    ensures r in Attached(roles, r)
    ensures r in roles ==> Attached(roles, r) == roles
    ensures r !in roles ==> Attached(roles, r) == roles + [r]
    ensures NoDuplicates(roles) ==> NoDuplicates(Attached(roles, r))
    ensures Attached(Attached(roles, r), r) == Attached(roles, r)
  {
  }

  lemma {:induction false} RemoveFirstAbsent(s: seq<string>, x: string)
    requires x !in s
    ensures RemoveFirst(s, x) == s
  {
    if s != [] {
      RemoveFirstAbsent(s[1..], x);
    }
  }

  /**
   * Removing the first occurrence is cutting out the element at `IndexOf`:
   * the elements before and after it keep their relative order.
   */
  lemma {:induction false} RemoveFirstSplices(s: seq<string>, x: string)
    requires x in s
    ensures RemoveFirst(s, x) == s[..IndexOf(s, x)] + s[IndexOf(s, x) + 1..]
  {
    if s[0] != x {
      var t := s[1..];
      RemoveFirstSplices(t, x);
      var j := IndexOf(t, x);
      assert IndexOf(s, x) == j + 1;
      assert s[..j + 1] == [s[0]] + t[..j];
      assert s[j + 2..] == t[j + 1..];
    }
  }

  /** Exactly one copy of `x` goes, when there is one. */
  lemma {:induction false} RemoveFirstMultiset(s: seq<string>, x: string)
    ensures multiset(RemoveFirst(s, x)) == multiset(s) - multiset{x}
  {
    if s != [] {
      assert s == [s[0]] + s[1..];
      if s[0] != x {
        RemoveFirstMultiset(s[1..], x);
      }
    }
  }

  /** On a duplicate-free list, detaching removes the role altogether and keeps the list duplicate-free. */
  lemma RemoveFirstKeepsNoDuplicates(s: seq<string>, x: string)
    requires NoDuplicates(s)
    ensures NoDuplicates(RemoveFirst(s, x))
    ensures x !in RemoveFirst(s, x)
  {
    if x in s {
      var i := IndexOf(s, x);
      RemoveFirstSplices(s, x);
      var t := RemoveFirst(s, x);
      assert forall k :: 0 <= k < |t| ==> t[k] == (if k < i then s[k] else s[k + 1]);
    } else {
      RemoveFirstAbsent(s, x);
    }
  }

  /**
   * Detaching and re-attaching an attached role moves it to the end of a
   * duplicate-free list: the same roles, with that one now last.
   */
  lemma DetachThenAttach(s: seq<string>, x: string)
    requires NoDuplicates(s) && x in s
    ensures Attached(RemoveFirst(s, x), x) == RemoveFirst(s, x) + [x]
    ensures multiset(Attached(RemoveFirst(s, x), x)) == multiset(s)
  {
    RemoveFirstKeepsNoDuplicates(s, x);
    RemoveFirstMultiset(s, x);
  }

  // ------------------------------------------------------------ abilities

  /** Adding an ability grows that role's list by exactly one entry and touches nothing else. */
  lemma WithAbilityAppends(ab: AbilityMap, r: string, a: string)
    ensures WithAbility(ab, r, a).Keys == ab.Keys + {r}
    ensures RoleAbilities(WithAbility(ab, r, a), r) == RoleAbilities(ab, r) + [a]
    ensures |RoleAbilities(WithAbility(ab, r, a), r)| == |RoleAbilities(ab, r)| + 1
    ensures forall q :: q != r ==> RoleAbilities(WithAbility(ab, r, a), q) == RoleAbilities(ab, q)
  {
  }

  // -------------------------------------------------------------- queries

  /** With no roles attached, nothing is granted. */
  lemma NoRolesGrantNothing(ab: AbilityMap, a: string, wanted: seq<string>)
    ensures !Grants([], ab, a)
    ensures !GrantsAny([], ab, wanted)
  {
  }

  /** `canAny` is the disjunction of `can` over the wanted abilities; in particular `canAny([])` is false. */
  lemma GrantsAnyIsSomeGrants(roles: seq<string>, ab: AbilityMap, wanted: seq<string>)
    ensures GrantsAny(roles, ab, wanted) <==> exists j :: 0 <= j < |wanted| && Grants(roles, ab, wanted[j])
    ensures !GrantsAny(roles, ab, [])
  {
  }

  /** After attaching `r`, an ability is granted iff it was before or `r` grants it. */
  lemma GrantsAfterAttach(roles: seq<string>, ab: AbilityMap, r: string, a: string)
    ensures Grants(Attached(roles, r), ab, a) <==> Grants(roles, ab, a) || a in RoleAbilities(ab, r)
  {
    var t := Attached(roles, r);
    if a in RoleAbilities(ab, r) {
      var i := if r in roles then IndexOf(roles, r) else |roles|;
      assert t[i] == r;
    }
    if Grants(roles, ab, a) {
      var i :| 0 <= i < |roles| && a in RoleAbilities(ab, roles[i]);
      assert t[i] == roles[i];
    }
    if Grants(t, ab, a) {
      var i :| 0 <= i < |t| && a in RoleAbilities(ab, t[i]);
      if i < |roles| {
        assert t[i] == roles[i];
      }
    }
  }

  /**
   * On a duplicate-free list, after detaching `r` an ability is granted iff
   * some other attached role grants it.
   */
  lemma GrantsAfterDetach(roles: seq<string>, ab: AbilityMap, r: string, a: string)
    requires NoDuplicates(roles)
    ensures Grants(RemoveFirst(roles, r), ab, a) <==>
            exists i :: 0 <= i < |roles| && roles[i] != r && a in RoleAbilities(ab, roles[i])
  {
    var t := RemoveFirst(roles, r);
    RemoveFirstKeepsNoDuplicates(roles, r);
    RemoveFirstMultiset(roles, r);
    if Grants(t, ab, a) {
      var k :| 0 <= k < |t| && a in RoleAbilities(ab, t[k]);
      assert t[k] in multiset(t);
      assert t[k] in multiset(roles);
      var i :| 0 <= i < |roles| && roles[i] == t[k];
      assert roles[i] != r;
    }
    if exists i :: 0 <= i < |roles| && roles[i] != r && a in RoleAbilities(ab, roles[i]) {
      var i :| 0 <= i < |roles| && roles[i] != r && a in RoleAbilities(ab, roles[i]);
      assert roles[i] in multiset(roles);
      assert roles[i] in multiset(t);
      var k :| 0 <= k < |t| && t[k] == roles[i];
      assert a in RoleAbilities(ab, t[k]);
    }
  }

  /** After adding `a` to `r`, `b` is granted iff it was before, or it is `a` and `r` is attached. */
  lemma GrantsAfterAddAbility(roles: seq<string>, ab: AbilityMap, r: string, a: string, b: string)
    ensures Grants(roles, WithAbility(ab, r, a), b) <==> Grants(roles, ab, b) || (b == a && r in roles)
  {
  }

  /**
   * The queries throw only when `__proto__` is attached without an own entry
   * in the ability map; `canAny([])` never throws.
   */
  lemma ThrowsOnlyThroughProto(roles: seq<string>, ab: AbilityMap, a: string, wanted: seq<string>)
    ensures CanThrows(roles, ab, a) ==> ProtoName in roles && ProtoName !in ab
    ensures CanAnyThrows(roles, ab, wanted) ==> ProtoName in roles && ProtoName !in ab
    ensures !CanAnyThrows(roles, ab, [])
  {
  }

  /** Only a name that is an `Object.prototype` member and has no own entry makes `addAbility` throw. */
  lemma InheritedNames(ab: AbilityMap, r: string)
    ensures Inherited(ab, r) <==> r !in ab && (r == ProtoName || r in InheritedMethods)
    ensures Inherited(ab, "constructor") <==> "constructor" !in ab
    ensures !Inherited(ab, "admin")
  {
  }

  /** `hasRole` of one role is membership of that role. */
  lemma HoldsAllSingle(held: seq<string>, r: string)
    ensures HoldsAll(held, [r]) <==> r in held
  {
    if r in held {
      assert forall k :: 0 <= k < 1 ==> [r][k] in held;
    }
    assert [r][0] == r;
  }

  /** `hasRole` of two roles is membership of both; of none, false. */
  lemma HoldsAllSmallLists(held: seq<string>, r1: string, r2: string)
    ensures HoldsAll(held, [r1, r2]) <==> r1 in held && r2 in held
    ensures !HoldsAll(held, [])
  {
    if r1 in held && r2 in held {
      assert forall k :: 0 <= k < 2 ==> [r1, r2][k] in held;
    }
    assert [r1, r2][0] == r1 && [r1, r2][1] == r2;
  }

  /** `hasAnyRole` holds iff `hasRole` holds of one of the entries; it is false for no entries. */
  lemma HoldsAnyIsSomeHoldsAll(held: seq<string>, rs: seq<string>)
    ensures HoldsAny(held, rs) <==> exists k :: 0 <= k < |rs| && HoldsAll(held, [rs[k]])
    ensures !HoldsAny(held, [])
  {
    forall k | 0 <= k < |rs|
      ensures HoldsAll(held, [rs[k]]) <==> rs[k] in held
    {
      HoldsAllSingle(held, rs[k]);
    }
  }

  // ---------------------------------------------------------- persistence

  /** Under a Web Storage backend, resume finds exactly what save last wrote. */
  lemma FetchAfterSave(slots: Slots, c: Config, d: Data)
    requires IsWebArea(c.storage)
    ensures FetchFrom(SavedTo(slots, c, d), c) == Some(d)
  {
  }

  /** After unset, resume finds nothing. */
  lemma FetchAfterUnset(slots: Slots, c: Config)
    ensures FetchFrom(UnsetIn(slots, c), c) == None
  {
  }

  /** With an unknown backend, save and unset leave Web Storage alone and resume finds nothing. */
  lemma UnknownBackendIsInert(slots: Slots, c: Config, d: Data)
    requires !IsWebArea(c.storage)
    ensures SavedTo(slots, c, d) == slots
    ensures UnsetIn(slots, c) == slots
    ensures FetchFrom(slots, c) == None
  {
  }

  /** Save and unset touch only the configured slot. */
  lemma OtherSlotsUntouched(slots: Slots, c: Config, d: Data, s: Slot)
    requires SlotOf(c) != Some(s)
    ensures s in SavedTo(slots, c, d) <==> s in slots
    ensures s in UnsetIn(slots, c) <==> s in slots
    ensures s in slots ==> SavedTo(slots, c, d)[s] == slots[s] && UnsetIn(slots, c)[s] == slots[s]
  {
  }

  /** setConfig with every field supplied replaces the configuration; with none it keeps it. */
  lemma MergeFullOrEmpty(c: Config, b: Backend, k: string)
    ensures Merge(c, ConfigPatch(Some(b), Some(k))) == Config(b, k)
    ensures Merge(c, ConfigPatch(None, None)) == c
  {
  }
}
