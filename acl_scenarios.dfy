/**
 * Clients of the store, each over a Web Storage of its own: what a caller
 * can conclude from the service's contracts alone.
 */
module AclScenarios {
  import opened AclModel
  import opened AclStore

  /** Attaching "admin" and giving it "manage_users" grants exactly that. */
  method AdminCanManageUsers() returns (manage: Result<bool>, destroy: Result<bool>)
    ensures manage == Ok(true) && destroy == Ok(false)
  {
    var store := new WebStorage();
    var acl := new AclService(store);
    acl.AttachRole("admin");
    var added := acl.AddAbility("admin", "manage_users");
    assert !Inherited(map[], "admin");
    assert acl.roles == ["admin"];
    assert RoleAbilities(acl.abilities, "admin") == ["manage_users"];
    manage := acl.Can("manage_users");
    destroy := acl.Can("delete_everything");
  }

  /** A second service on the same storage resumes what the first one saved. */
  method SecondServiceResumes(ab: AbilityMap) returns (ok: bool, roles: seq<string>, abilities: AbilityMap)
    ensures ok && roles == ["x"] && abilities == ab
  {
    var store := new WebStorage();
    var first := new AclService(store);
    first.SetAbilities(ab);
    first.AttachRole("x");
    var second := new AclService(store);
    ok := second.Resume();
    roles, abilities := second.roles, second.abilities;
  }

  /** Flushing storage erases the stored copy only: resume fails and memory keeps its abilities. */
  method FlushThenResume(ab: AbilityMap) returns (ok: bool, abilities: AbilityMap)
    ensures !ok && abilities == ab
  {
    var store := new WebStorage();
    var acl := new AclService(store);
    acl.SetAbilities(ab);
    acl.FlushStorage();
    ok := acl.Resume();
    abilities := acl.abilities;
  }

  /** With an unrecognised backend nothing is persisted, so a fresh service resumes nothing. */
  method UnknownBackendPersistsNothing() returns (ok: bool)
    ensures !ok
  {
    var store := new WebStorage();
    var bogus := ConfigPatch(Some(BackendOf("bogus")), Some("k"));
    var first := new AclService(store);
    first.SetConfig(bogus);
    first.AttachRole("admin");
    var second := new AclService(store);
    second.SetConfig(bogus);
    ok := second.Resume();
  }

  /** Detaching then re-attaching a role moves it to the end of the list. */
  method DetachThenAttachMovesLast() returns (roles: seq<string>)
    ensures roles == ["b", "a"]
  {
    var store := new WebStorage();
    var acl := new AclService(store);
    acl.AttachRole("a");
    acl.AttachRole("b");
    acl.AttachRole("a");
    assert acl.roles == ["a", "b"];
    acl.DetachRole("a");
    acl.AttachRole("a");
    roles := acl.GetRoles();
  }

  /**
   * Names inherited from `Object.prototype`: with "__proto__" attached and no
   * own entry for it, `can` throws; `addAbility("constructor", …)` throws
   * without saving; `canAny([])` still answers false.
   */
  method InheritedNamesThrow() returns (can: Result<bool>, added: Result<()>, none: Result<bool>, saved: Slots)
    ensures can == TypeError && added == TypeError && none == Ok(false)
    ensures saved == map[Slot(Local, "AclService") := Data(["__proto__"], map[])]
  {
    var store := new WebStorage();
    var acl := new AclService(store);
    acl.AttachRole("__proto__");
    assert acl.roles == ["__proto__"] && ProtoTrap(acl.abilities, acl.roles[0]);
    can := acl.Can("x");
    added := acl.AddAbility("constructor", "x");
    none := acl.CanAny([]);
    saved := store.slots;
  }
}
