# ngx-acl authorization store, modelled in Dafny

`NgxAclService` is the client-side authorization store of the ngx-acl Angular
library. It keeps the roles attached to the current user (an ordered list
with no duplicates) and a map from role name to the abilities granted to that
role. It answers the queries `can`, `canAny`, `hasRole`, `hasAnyRole` and
`getRoles`. It changes state through `attachRole`, `detachRole`, `flushRoles`,
`setAbilities` and `addAbility`, and after each change it writes the whole
`{roles, abilities}` snapshot to browser Web Storage (`save`). `resume` reads
the snapshot back and `flushStorage` erases it.

Files:

- `acl_model.dfy` (module `AclModel`): the values. These are the configuration
  with its backend (`Session`, `Local` or any `Other` value, which disables
  persistence), the `Data` snapshot and the Web Storage slots. The module also
  holds the specification functions: `Grants`, `GrantsAny`, `HoldsAll`,
  `HoldsAny`, `Attached`, `RemoveFirst`, `WithAbility`, `SavedTo`, `UnsetIn`,
  `FetchFrom`, and `IndexOf` (JavaScript's `Array.prototype.indexOf`).
- `acl_store.dfy` (module `AclStore`): the service as a class. Its fields
  `config`, `roles` and `abilities` are updated in place. Web Storage is the
  class `WebStorage`, whose single field maps a slot (area, key) to the stored
  snapshot; a slot missing from the map is empty. Web Storage is a separate
  object so that two services can share it, as two instances in one browser do.
  The four scanning queries (`can`, `canAny`, `hasRole`, `hasAnyRole`) are
  methods whose loops are proved against pure predicates. Every
  mutation states its new fields and the new storage contents.
- `acl_lemmas.dfy` (module `AclLemmas`): properties of the specification
  functions. They cover how attach, detach and addAbility change the role list,
  the ability map and the answers to `can`, and how save, unset and resume
  relate.
- `acl_scenarios.dfy` (module `AclScenarios`): client methods that each work on
  a fresh `WebStorage`. Each one shows an end-to-end behaviour that follows
  from the service's contracts alone.

Three details of the code that the model follows:

- `setConfig` is `Object.assign`. It is modelled as a merge of the supplied
  fields (`ConfigPatch`). A patch with both fields replaces the configuration,
  and that is all the TypeScript parameter type allows.
- The ability map is a plain JavaScript object, so `abilities[role]` can find
  a member inherited from `Object.prototype` (`Lookup`). `__proto__` with no
  own entry yields `Object.prototype`. `typeof` reports an object, so
  `getRoleAbilities` returns it, and `can`/`canAny` throw a TypeError when
  they call `indexOf` on it. Any inherited name (`constructor`, `toString`,
  `__proto__`, ...) is truthy, so `addAbility` creates no list and `push`
  throws before saving. `Can`, `CanAny` and `AddAbility` return a `Result`
  that carries this TypeError.
- `fetchFromStorage` treats an empty stored string as absent. The model stores
  snapshot values and never an empty text, so that case does not arise.

## Model

| member | source | states |
|---|---|---|
| AclModel.IndexOf | projects/ngx-acl/src/lib/ngx-acl.service.ts:159 | result is -1 exactly when the element is absent; otherwise it is an index holding the element with no earlier occurrence |
| AclModel.BackendOf | projects/ngx-acl/src/lib/ngx-acl.service.ts:13-16 | "sessionStorage" and "localStorage" name the two Web Storage backends; every other string is an `Other` backend that keeps that name |
| AclStore.AclService.constructor | projects/ngx-acl/src/lib/ngx-acl.service.ts:22-29 | a new service has the default config (`Local`, key "AclService"), no roles and an empty ability map |
| AclStore.AclService.SetConfig | projects/ngx-acl/src/lib/ngx-acl.service.ts:31-33 | config becomes the old config with the supplied fields overwritten; roles, abilities and storage are unchanged (frame) |
| AclStore.AclService.Can | projects/ngx-acl/src/lib/ngx-acl.service.ts:38-53 | throws a TypeError exactly when the scan reaches an attached `__proto__` without an own entry before any earlier role grants the ability; otherwise answers whether some attached role's own list (empty when it has none) contains the ability |
| AclStore.AclService.CanAny | projects/ngx-acl/src/lib/ngx-acl.service.ts:58-78 | throws a TypeError exactly when some ability is wanted and the scan reaches an attached `__proto__` without an own entry before any earlier role grants a wanted ability; otherwise answers whether some attached role grants some wanted ability |
| AclStore.AclService.Resume | projects/ngx-acl/src/lib/ngx-acl.service.ts:85-104 | true exactly when the configured slot holds a snapshot, and then roles and abilities become that snapshot; otherwise both are unchanged; storage is never changed |
| AclStore.AclService.SetAbilities | projects/ngx-acl/src/lib/ngx-acl.service.ts:122-125 | abilities become the given map, roles are unchanged, and the configured slot then holds the new snapshot |
| AclStore.AclService.AddAbility | projects/ngx-acl/src/lib/ngx-acl.service.ts:130-136 | throws a TypeError, leaving abilities and storage unchanged, exactly when the role has no own entry and finds an inherited `Object.prototype` member; otherwise the map becomes `WithAbility(old, role, ability)`, roles are unchanged, and the new snapshot is saved |
| AclStore.AclService.FlushStorage | projects/ngx-acl/src/lib/ngx-acl.service.ts:141-143 | the configured slot is erased and the in-memory roles and abilities are untouched |
| AclStore.AclService.AttachRole | projects/ngx-acl/src/lib/ngx-acl.service.ts:148-153 | the role is attached afterwards; the list is unchanged and storage untouched if the role was present, otherwise the role is appended and the snapshot saved; a duplicate-free list stays duplicate-free |
| AclStore.AclService.DetachRole | projects/ngx-acl/src/lib/ngx-acl.service.ts:158-164 | roles lose exactly their first occurrence of the role and the snapshot is saved; an absent role leaves roles and storage unchanged; from a duplicate-free list the role is gone entirely |
| AclStore.AclService.FlushRoles | projects/ngx-acl/src/lib/ngx-acl.service.ts:169-172 | roles become empty, abilities stay, and the snapshot with no roles is saved |
| AclStore.AclService.GetRoles | projects/ngx-acl/src/lib/ngx-acl.service.ts:177-179 | returns the current role list |
| AclStore.AclService.HasRole | projects/ngx-acl/src/lib/ngx-acl.service.ts:184-192 | true exactly when the argument, a single role taken as a one-element list, is non-empty and every role in it is attached; the backwards scan does not change the answer |
| AclStore.AclService.HasAnyRole | projects/ngx-acl/src/lib/ngx-acl.service.ts:197-204 | true exactly when at least one of the given roles is attached |
| AclStore.AclService.RoleHasAbilities | projects/ngx-acl/src/lib/ngx-acl.service.ts:211-213 | true exactly when the role has an own entry or is `__proto__` (whose lookup yields the object `Object.prototype`) |
| AclStore.AclService.GetRoleAbilities | projects/ngx-acl/src/lib/ngx-acl.service.ts:220-222 | `Object.prototype` for `__proto__` without an own entry; otherwise the role's own list, or the empty list when it has none |
| AclStore.AclService.Save | projects/ngx-acl/src/lib/ngx-acl.service.ts:227-239 | storage becomes `SavedTo(old storage, config, snapshot)`: the configured slot holds the current snapshot, and nothing changes for an unknown backend |
| AclStore.AclService.Unset | projects/ngx-acl/src/lib/ngx-acl.service.ts:241-253 | storage becomes `UnsetIn(old storage, config)`: the configured slot is emptied, and nothing changes for an unknown backend |
| AclStore.AclService.SaveToStorage | projects/ngx-acl/src/lib/ngx-acl.service.ts:258-260 | the slot for the area and the configured key holds the current snapshot; other slots keep their contents |
| AclStore.AclService.UnsetFromStorage | projects/ngx-acl/src/lib/ngx-acl.service.ts:265-267 | the slot for the area and the configured key is emptied; other slots keep their contents |
| AclStore.AclService.FetchFromStorage | projects/ngx-acl/src/lib/ngx-acl.service.ts:272-275 | returns the snapshot held in the slot for the area and the configured key, or None when that slot is empty |
| AclLemmas.AttachedKeepsNoDuplicates | projects/ngx-acl/src/lib/ngx-acl.service.ts:148-153 | after attaching, the role is present; an attached role leaves the list as it was, a new one goes at the end; no duplicates appear; attaching twice is the same as attaching once |
| AclLemmas.RemoveFirstAbsent | projects/ngx-acl/src/lib/ngx-acl.service.ts:158-164 | detaching an absent role leaves the list unchanged |
| AclLemmas.RemoveFirstSplices | projects/ngx-acl/src/lib/ngx-acl.service.ts:159-161 | removing the first occurrence equals cutting out the element at `indexOf`, so the other roles keep their relative order |
| AclLemmas.RemoveFirstMultiset | projects/ngx-acl/src/lib/ngx-acl.service.ts:161 | detaching removes exactly one copy of the role when it is present, and nothing else |
| AclLemmas.RemoveFirstKeepsNoDuplicates | projects/ngx-acl/src/lib/ngx-acl.service.ts:158-164 | on a duplicate-free list, detaching leaves a duplicate-free list without the role |
| AclLemmas.DetachThenAttach | projects/ngx-acl/src/lib/ngx-acl.service.ts:148-164 | on a duplicate-free list, detaching then re-attaching a role gives the other roles in order with that role last: the same roles, reordered |
| AclLemmas.WithAbilityAppends | projects/ngx-acl/src/lib/ngx-acl.service.ts:130-136 | after adding, the role has an entry, its list is the old list (empty if none) plus the ability, one entry longer, and every other role's list is unchanged |
| AclLemmas.NoRolesGrantNothing | projects/ngx-acl/src/lib/ngx-acl.service.ts:38-78 | with no roles attached neither `can` nor `canAny` grants anything |
| AclLemmas.GrantsAnyIsSomeGrants | projects/ngx-acl/src/lib/ngx-acl.service.ts:58-78 | `canAny(as)` holds exactly when `can(a)` holds for some `a` in `as`, so `canAny([])` is false |
| AclLemmas.GrantsAfterAttach | projects/ngx-acl/src/lib/ngx-acl.service.ts:148-153 | after attaching a role, an ability is granted exactly when it was granted before or the attached role grants it |
| AclLemmas.GrantsAfterDetach | projects/ngx-acl/src/lib/ngx-acl.service.ts:158-164 | on a duplicate-free list, after detaching a role an ability is granted exactly when some other attached role grants it |
| AclLemmas.GrantsAfterAddAbility | projects/ngx-acl/src/lib/ngx-acl.service.ts:130-136 | after adding ability `a` to role `r`, `b` is granted exactly when it was granted before, or `b` is `a` and `r` is attached |
| AclLemmas.HoldsAllSingle | projects/ngx-acl/src/lib/ngx-acl.service.ts:185-191 | `hasRole(r)` (a single role) is membership of `r` |
| AclLemmas.HoldsAllSmallLists | projects/ngx-acl/src/lib/ngx-acl.service.ts:184-192 | `hasRole([r1, r2])` is membership of both roles, and `hasRole([])` is false |
| AclLemmas.HoldsAnyIsSomeHoldsAll | projects/ngx-acl/src/lib/ngx-acl.service.ts:197-204 | `hasAnyRole(rs)` holds exactly when `hasRole` holds of some single entry, and it is false for an empty list |
| AclLemmas.ThrowsOnlyThroughProto | projects/ngx-acl/src/lib/ngx-acl.service.ts:211-222 | `can` and `canAny` throw only when `__proto__` is attached without an own entry, and `canAny([])` never throws |
| AclLemmas.InheritedNames | projects/ngx-acl/src/lib/ngx-acl.service.ts:131-134 | `addAbility` throws exactly for a role without an own entry that is `__proto__` or an inherited `Object.prototype` function such as `constructor`; an ordinary name like "admin" never throws |
| AclLemmas.FetchAfterSave | projects/ngx-acl/src/lib/ngx-acl.service.ts:227-239 | under a session or local backend, resume finds exactly the snapshot that save wrote last |
| AclLemmas.FetchAfterUnset | projects/ngx-acl/src/lib/ngx-acl.service.ts:241-253 | after unset, resume finds nothing under the same configuration |
| AclLemmas.UnknownBackendIsInert | projects/ngx-acl/src/lib/ngx-acl.service.ts:88-97 | with an unknown backend, save and unset leave storage as it was and resume finds nothing |
| AclLemmas.OtherSlotsUntouched | projects/ngx-acl/src/lib/ngx-acl.service.ts:258-267 | save and unset change only the configured slot |
| AclLemmas.MergeFullOrEmpty | projects/ngx-acl/src/lib/ngx-acl.service.ts:31-33 | `setConfig` with both fields replaces the configuration, and with neither field it keeps it |
| AclScenarios.AdminCanManageUsers | projects/ngx-acl/src/lib/ngx-acl.service.ts:38-53 | on an empty store, after attaching "admin" and giving it "manage_users", `can("manage_users")` answers true and `can("delete_everything")` answers false, neither throwing |
| AclScenarios.SecondServiceResumes | projects/ngx-acl/src/lib/ngx-acl.service.ts:85-104 | after `setAbilities(A)` and `attachRole("x")`, a second service on the same storage resumes successfully with roles `["x"]` and abilities `A` |
| AclScenarios.FlushThenResume | projects/ngx-acl/src/lib/ngx-acl.service.ts:141-143 | after `setAbilities(A)` and `flushStorage()`, `resume()` is false and the abilities in memory are still `A` |
| AclScenarios.UnknownBackendPersistsNothing | projects/ngx-acl/src/lib/ngx-acl.service.ts:227-239 | with backend "bogus", a mutation persists nothing, so a fresh service with the same config fails to resume |
| AclScenarios.InheritedNamesThrow | projects/ngx-acl/src/lib/ngx-acl.service.ts:130-136 | with "__proto__" attached, `can("x")` throws, `addAbility("constructor", "x")` throws, `canAny([])` answers false, and storage holds only the snapshot saved by the attach |
| AclScenarios.DetachThenAttachMovesLast | projects/ngx-acl/src/lib/ngx-acl.service.ts:148-164 | attaching "a", "b" and then "a" again gives `["a", "b"]`; detaching then re-attaching "a" gives `["b", "a"]` |

## Left out

- JSON text: `JSON.stringify` and `JSON.parse` are not modelled. A slot holds the `Data` value itself. An uncaught parse error on malformed stored text, and a stored empty string read as absent, cannot arise in the model.
- Browser Web Storage (`window[storagetype]`): it is foreign I/O. It is replaced by the `WebStorage` object and its slot map. Quota errors and writes by other tabs are not modelled.
- Angular `@Injectable` and dependency injection: the model does not capture these. A service is built explicitly on a given `WebStorage`.
- Aliasing: `setAbilities` keeps the caller's object and `getRoles` returns the live array. The model uses value semantics, so a caller cannot change the store through these references.
- AclStore.AclService.Resume: assumes the stored value has the `Data` shape. `Object.assign` on an arbitrary parsed object, for example one missing `roles`, is not modelled.
- AclStore.AclService.RoleHasAbilities: assumes every own entry of the ability map is an array, never `null` or a primitive, and that the map's prototype is `Object.prototype`. An object from `setAbilities` with another prototype, such as `Object.create(null)`, is not modelled.
- AclStore.AclService.HasRole: non-string elements are not modelled. JavaScript allows any value there, but the model's arguments are strings or string lists.
- The duplicate-free role list is not a class invariant, because `resume` may load any stored list. Instead, `AttachRole` and `DetachRole` state that they preserve it.
- projects/ngx-acl/src/lib/ngx-acl.component.spec.ts: this is a test of a UI component that is not part of this model, and it contains no logic.
