/**
 * The authorization store itself: a service object holding a configuration,
 * the attached roles and the ability map, which it writes to Web Storage
 * after every change and can read back.
 */
module AclStore {
  import opened AclModel
  import AclLemmas

  /**
   * The browser's Web Storage (`window.sessionStorage` and
   * `window.localStorage` together): each slot holds at most one snapshot.
   * It is an object of its own so that several services can share it.
   */
  class WebStorage {
    var slots: Slots

    constructor ()
      ensures slots == map[]
    {
      slots := map[];
    }
  }

  class AclService {
    var config: Config
    var roles: seq<string>
    var abilities: AbilityMap
    const storage: WebStorage

    /** The `{roles, abilities}` value that `save()` writes. */
    function Snapshot(): Data
      reads this
    {
      Data(roles, abilities)
    }

    constructor (storage: WebStorage)
      ensures this.storage == storage
      ensures config == DefaultConfig && roles == [] && abilities == map[]
    {
      this.storage := storage;
      config := DefaultConfig;
      roles := [];
      abilities := map[];
    }

    method SetConfig(patch: ConfigPatch)
      modifies this`config
      ensures config == Merge(old(config), patch)
    {
      config := Merge(config, patch);
    }

    /**
     * Does some attached role grant `ability`? The scan throws a TypeError on
     * reaching a role whose abilities are `Object.prototype`.
     */
    method Can(ability: string) returns (r: Result<bool>)
      ensures r.TypeError? <==> CanThrows(roles, abilities, ability)
      ensures r.Ok? ==> r.value == Grants(roles, abilities, ability)
    {
      var l := 0;
      while l < |roles|
        invariant 0 <= l <= |roles|
        invariant forall k :: 0 <= k < l ==>
          ability !in RoleAbilities(abilities, roles[k]) && !ProtoTrap(abilities, roles[k])
      {
        var role := roles[l];
        var roleAbilities := GetRoleAbilities(role);
        if !roleAbilities.ArrayValue? {
          return TypeError;
        }
        if IndexOf(roleAbilities.items, ability) > -1 {
          return Ok(true);
        }
        l := l + 1;
      }
      return Ok(false);
    }

    /**
     * Does some attached role grant some ability of `wanted`? The scan throws
     * a TypeError on calling `indexOf` on a role whose abilities are
     * `Object.prototype`.
     */
    method CanAny(wanted: seq<string>) returns (r: Result<bool>)
      ensures r.TypeError? <==> CanAnyThrows(roles, abilities, wanted)
      ensures r.Ok? ==> r.value == GrantsAny(roles, abilities, wanted)
    {
      var l := 0;
      while l < |roles|
        invariant 0 <= l <= |roles|
        invariant forall k, j :: 0 <= k < l && 0 <= j < |wanted| ==> wanted[j] !in RoleAbilities(abilities, roles[k])
        invariant |wanted| > 0 ==> forall k :: 0 <= k < l ==> !ProtoTrap(abilities, roles[k])
      {
        var role := roles[l];
        var roleAbilities := GetRoleAbilities(role);
        var j := 0;
        while j < |wanted|
          invariant 0 <= j <= |wanted|
          invariant j > 0 ==> roleAbilities.ArrayValue?
          invariant forall j' :: 0 <= j' < j ==> wanted[j'] !in RoleAbilities(abilities, role)
        {
          if !roleAbilities.ArrayValue? {
            return TypeError;
          }
          if IndexOf(roleAbilities.items, wanted[j]) > -1 {
            return Ok(true);
          }
          j := j + 1;
        }
        l := l + 1;
      }
      return Ok(false);
    }

    /** Replaces roles and abilities by the stored snapshot, if there is one. */
    method Resume() returns (ok: bool)
      modifies this`roles, this`abilities
      ensures ok <==> FetchFrom(storage.slots, config).Some?
      ensures ok ==> Snapshot() == FetchFrom(storage.slots, config).value
      ensures !ok ==> roles == old(roles) && abilities == old(abilities)
    {
      var stored: Option<Data>;
      match config.storage {
        case Session =>
          stored := FetchFromStorage(Session);
        case Local =>
          stored := FetchFromStorage(Local);
        case Other(_) =>
          stored := None;
      }
      if stored.Some? {
        roles, abilities := stored.value.roles, stored.value.abilities;
        return true;
      }
      return false;
    }

    /** Replaces the whole ability map and persists. */
    method SetAbilities(ab: AbilityMap)
      modifies this`abilities, storage
      ensures abilities == ab
      ensures storage.slots == SavedTo(old(storage.slots), config, Data(roles, ab))
    {
      abilities := ab;
      Save();
    }

    /**
     * Appends `ability` to the list of `role`, creating the list if the lookup
     * finds nothing, and persists. A name that finds an inherited
     * `Object.prototype` member is truthy, so no list is created, and `push`
     * then throws a TypeError before anything is saved.
     */
    method AddAbility(role: string, ability: string) returns (r: Result<()>)
      modifies this`abilities, storage
      ensures r.TypeError? <==> Inherited(old(abilities), role)
      ensures r.TypeError? ==> abilities == old(abilities) && storage.slots == old(storage.slots)
      ensures r.Ok? ==> abilities == WithAbility(old(abilities), role, ability)
      ensures r.Ok? ==> storage.slots == SavedTo(old(storage.slots), config, Snapshot())
    {
      if Lookup(abilities, role).Undefined? {
        abilities := abilities[role := []];
      }
      match Lookup(abilities, role) {
        case ArrayValue(items) =>
          abilities := abilities[role := items + [ability]];
          Save();
          r := Ok(());
        case _ =>
          r := TypeError;
      }
    }

    /** Erases the stored snapshot; the roles and abilities in memory stay. */
    method FlushStorage()
      modifies storage
      ensures storage.slots == UnsetIn(old(storage.slots), config)
    {
      Unset();
    }

    /** Appends `role` unless it is already attached; persists only on a change. */
    method AttachRole(role: string)
      modifies this`roles, storage
      ensures roles == Attached(old(roles), role)
      ensures role in roles
      ensures NoDuplicates(old(roles)) ==> NoDuplicates(roles)
      ensures storage.slots ==
        if role in old(roles) then old(storage.slots)
        else SavedTo(old(storage.slots), config, Snapshot())
    {
      if IndexOf(roles, role) == -1 {
        roles := roles + [role];
        Save();
      }
      AclLemmas.AttachedKeepsNoDuplicates(old(roles), role);
    }

    /** Removes the first occurrence of `role`, if any; persists only on a change. */
    method DetachRole(role: string)
      modifies this`roles, storage
      ensures roles == RemoveFirst(old(roles), role)
      ensures NoDuplicates(old(roles)) ==> NoDuplicates(roles) && role !in roles
      ensures storage.slots ==
        if role in old(roles) then SavedTo(old(storage.slots), config, Snapshot())
        else old(storage.slots)
    {
      var i := IndexOf(roles, role);
      if i > -1 {
        AclLemmas.RemoveFirstSplices(roles, role);
        roles := roles[..i] + roles[i + 1..];
        Save();
      } else {
        AclLemmas.RemoveFirstAbsent(roles, role);
      }
      if NoDuplicates(old(roles)) {
        AclLemmas.RemoveFirstKeepsNoDuplicates(old(roles), role);
      }
    }

    /** Detaches every role and persists. */
    method FlushRoles()
      modifies this`roles, storage
      ensures roles == []
      ensures storage.slots == SavedTo(old(storage.slots), config, Data([], abilities))
    {
      roles := [];
      Save();
    }

    method GetRoles() returns (r: seq<string>)
      ensures r == roles
    {
      r := roles;
    }

    /** Are all the given roles attached? An empty list is answered with false. */
    method HasRole(arg: RoleArg) returns (b: bool)
      ensures b == HoldsAll(roles, arg.AsList())
    {
      var rs := arg.AsList();
      var l := |rs|;
      while l != 0
        invariant 0 <= l <= |rs|
        invariant forall k :: l <= k < |rs| ==> rs[k] in roles
      {
        l := l - 1;
        if IndexOf(roles, rs[l]) == -1 {
          return false;
        }
      }
      return |rs| != 0;
    }

    /** Is at least one of the given roles attached? */
    method HasAnyRole(rs: seq<string>) returns (b: bool)
      ensures b == HoldsAny(roles, rs)
    {
      var l := |rs|;
      while l != 0
        invariant 0 <= l <= |rs|
        invariant forall k :: l <= k < |rs| ==> rs[k] !in roles
      {
        l := l - 1;
        var held := HasRole(Single(rs[l]));
        AclLemmas.HoldsAllSingle(roles, rs[l]);
        if held {
          return true;
        }
      }
      return false;
    }

    /**
     * `typeof abilities[role] === 'object'`: true for an own entry (an
     * array) and for `__proto__` without one (`Object.prototype`); inherited
     * functions and missing names give false.
     */
    function RoleHasAbilities(role: string): (b: bool)
      reads this
      ensures b <==> role in abilities || ProtoTrap(abilities, role)
    {
      Lookup(abilities, role).ArrayValue? || Lookup(abilities, role).PrototypeObject?
    }

    /**
     * The value `getRoleAbilities` hands to `indexOf`: the role's own list,
     * `Object.prototype` for `__proto__` without an own entry, and otherwise
     * a fresh empty list.
     */
    function GetRoleAbilities(role: string): (r: JsValue)
      reads this
      ensures ProtoTrap(abilities, role) ==> r == PrototypeObject
      ensures !ProtoTrap(abilities, role) ==> r == ArrayValue(RoleAbilities(abilities, role))
    {
      if RoleHasAbilities(role) then Lookup(abilities, role) else ArrayValue([])
    }

    /** Writes the snapshot to the configured area; does nothing for an unknown backend. */
    method Save()
      modifies storage
      ensures storage.slots == SavedTo(old(storage.slots), config, Snapshot())
    {
      match config.storage {
        case Session =>
          SaveToStorage(Session);
        case Local =>
          SaveToStorage(Local);
        case Other(_) =>
      }
    }

    /** Erases the configured slot; does nothing for an unknown backend. */
    method Unset()
      modifies storage
      ensures storage.slots == UnsetIn(old(storage.slots), config)
    {
      match config.storage {
        case Session =>
          UnsetFromStorage(Session);
        case Local =>
          UnsetFromStorage(Local);
        case Other(_) =>
      }
    }

    method SaveToStorage(area: Backend)
      requires IsWebArea(area)
      modifies storage
      ensures storage.slots == old(storage.slots)[Slot(area, config.storageKey) := Snapshot()]
    {
      storage.slots := storage.slots[Slot(area, config.storageKey) := Snapshot()];
    }

    method UnsetFromStorage(area: Backend)
      requires IsWebArea(area)
      modifies storage
      ensures storage.slots == old(storage.slots) - {Slot(area, config.storageKey)}
    {
      storage.slots := storage.slots - {Slot(area, config.storageKey)};
    }

    method FetchFromStorage(area: Backend) returns (stored: Option<Data>)
      requires IsWebArea(area)
      ensures stored.Some? <==> Slot(area, config.storageKey) in storage.slots
      ensures stored.Some? ==> stored.value == storage.slots[Slot(area, config.storageKey)]
    {
      var slot := Slot(area, config.storageKey);
      if slot in storage.slots {
        stored := Some(storage.slots[slot]);
      } else {
        stored := None;
      }
    }
  }

  /** The argument of `hasRole`: one role name or a list of them. */
  datatype RoleArg = Single(role: string) | Many(roles: seq<string>) {
    /** A single role is treated as a one-element list. */
    function AsList(): seq<string> {
      match this
      case Single(r) => [r]
      case Many(rs) => rs
    }
  }
}
