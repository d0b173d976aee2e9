/**
 * Values of the ngx-acl authorization store: its configuration, the
 * `{roles, abilities}` snapshot, the Web Storage slots it is written to, and
 * the pure functions that say what each query answers and what each mutation
 * leaves behind. The class in acl_store.dfy is proved against these.
 */
module AclModel {

  datatype Option<T> = None | Some(value: T)

  /**
   * The configured storage area. `Session` and `Local` stand for
   * `window.sessionStorage` and `window.localStorage`; any other value
   * (`Other`) is accepted by `setConfig` and silently disables persistence.
   * `Other` never holds the names "sessionStorage" or "localStorage": those
   * two strings are `Session` and `Local`.
   */
  datatype Backend = Session | Local | Other(name: string)

  /** The backend a `storage` string names: the two `StorageType` values, or anything else. */
  function BackendOf(name: string): (b: Backend)
    ensures b == Session <==> name == "sessionStorage"
    ensures b == Local <==> name == "localStorage"
    ensures b.Other? ==> b.name == name
  {
    if name == "sessionStorage" then Session
    else if name == "localStorage" then Local
    else Other(name)
  }

  predicate IsWebArea(b: Backend) {
    b.Session? || b.Local?
  }

  datatype Config = Config(storage: Backend, storageKey: string)

  /** The configuration a fresh service starts with. */
  const DefaultConfig := Config(Local, "AclService")

  /** The fields handed to `setConfig`; an absent field keeps its current value. */
  datatype ConfigPatch = ConfigPatch(storage: Option<Backend>, storageKey: Option<string>)

  /** `Object.assign(config, patch)`: every supplied field overwrites, the others stay. */
  function Merge(c: Config, p: ConfigPatch): Config {
    Config(
      if p.storage.Some? then p.storage.value else c.storage,
      if p.storageKey.Some? then p.storageKey.value else c.storageKey)
  }

  /** Role name to the abilities granted to that role (duplicates allowed). */
  type AbilityMap = map<string, seq<string>>

  /** The persisted snapshot `{roles, abilities}`. */
  datatype Data = Data(roles: seq<string>, abilities: AbilityMap)

  /** One Web Storage entry: an area and a key within it. */
  datatype Slot = Slot(area: Backend, key: string)

  /** The contents of Web Storage; a slot not in the map is empty. */
  type Slots = map<Slot, Data>

  /**
   * `Array.prototype.indexOf`: the index of the first element equal to `x`,
   * or -1 when there is none.
   */
  function IndexOf(s: seq<string>, x: string): (i: int)
    ensures -1 <= i < |s|
    ensures i == -1 <==> x !in s
    ensures 0 <= i ==> s[i] == x && x !in s[..i]
  {
    if s == [] then -1
    else if s[0] == x then 0
    else
      var j := IndexOf(s[1..], x);
      assert 0 <= j ==> s[..j + 1] == [s[0]] + s[1..][..j];
      if j == -1 then -1 else j + 1
  }

  ghost predicate NoDuplicates(s: seq<string>) {
    forall i, j :: 0 <= i < j < |s| ==> s[i] != s[j]
  }

  /** The role list after attaching `r`: unchanged if `r` is there, else `r` at the end. */
  function Attached(roles: seq<string>, r: string): seq<string> {
    if r in roles then roles else roles + [r]
  }

  /** `s` without its first occurrence of `x`, defined element by element. */
  function RemoveFirst(s: seq<string>, x: string): seq<string> {
    if s == [] then []
    else if s[0] == x then s[1..]
    else [s[0]] + RemoveFirst(s[1..], x)
  }

  /** What a query or mutation yields: a value, or the TypeError the JavaScript code throws. */
  datatype Result<T> = Ok(value: T) | TypeError

  /**
   * The value of `abilities[name]` in JavaScript. The ability map is a plain
   * object, so a name without an own entry may still find a member inherited
   * from `Object.prototype`.
   */
  datatype JsValue = ArrayValue(items: seq<string>) | PrototypeObject | FunctionValue | Undefined

  /** The accessor every plain object inherits; it yields `Object.prototype` itself. */
  const ProtoName: string := "__proto__"

  /** The functions every plain object inherits from `Object.prototype`. */
  const InheritedMethods: set<string> := {
    "constructor", "hasOwnProperty", "isPrototypeOf", "propertyIsEnumerable",
    "toLocaleString", "toString", "valueOf",
    "__defineGetter__", "__defineSetter__", "__lookupGetter__", "__lookupSetter__"
  }

  /** Property lookup `ab[name]`: an own entry first, then what `Object.prototype` supplies. */
  function Lookup(ab: AbilityMap, name: string): JsValue {
    if name in ab then ArrayValue(ab[name])
    else if name == ProtoName then PrototypeObject
    else if name in InheritedMethods then FunctionValue
    else Undefined
  }

  /** `name` has no own entry but finds an inherited member, which is truthy and not an array. */
  predicate Inherited(ab: AbilityMap, name: string) {
    Lookup(ab, name).PrototypeObject? || Lookup(ab, name).FunctionValue?
  }

  /**
   * `ab[name]` is `Object.prototype`: `typeof` calls it an object, so it is
   * taken for the role's ability list, but it has no `indexOf`.
   */
  predicate ProtoTrap(ab: AbilityMap, name: string) {
    Lookup(ab, name).PrototypeObject?
  }

  /** The abilities of `role`; a role without an own entry has none. */
  function RoleAbilities(ab: AbilityMap, role: string): seq<string> {
    if role in ab then ab[role] else []
  }

  /** The ability map after appending `a` to the list of `role`. */
  function WithAbility(ab: AbilityMap, role: string, a: string): AbilityMap {
    ab[role := RoleAbilities(ab, role) + [a]]
  }

  /** Some attached role grants `a`. */
  ghost predicate Grants(roles: seq<string>, ab: AbilityMap, a: string) {
    exists i :: 0 <= i < |roles| && a in RoleAbilities(ab, roles[i])
  }

  /** Some attached role grants some element of `wanted`. */
  ghost predicate GrantsAny(roles: seq<string>, ab: AbilityMap, wanted: seq<string>) {
    exists i, j :: 0 <= i < |roles| && 0 <= j < |wanted| && wanted[j] in RoleAbilities(ab, roles[i])
  }

  /**
   * `can(a)` throws: the scan reaches a role whose abilities are
   * `Object.prototype` before any earlier role grants `a`.
   */
  ghost predicate CanThrows(roles: seq<string>, ab: AbilityMap, a: string) {
    exists i :: 0 <= i < |roles| && ProtoTrap(ab, roles[i]) &&
      forall k :: 0 <= k < i ==> a !in RoleAbilities(ab, roles[k])
  }

  /**
   * `canAny(wanted)` throws: some ability is wanted (so `indexOf` is called)
   * and the scan reaches a role whose abilities are `Object.prototype` before
   * any earlier role grants a wanted ability.
   */
  ghost predicate CanAnyThrows(roles: seq<string>, ab: AbilityMap, wanted: seq<string>) {
    |wanted| > 0 &&
    exists i :: 0 <= i < |roles| && ProtoTrap(ab, roles[i]) &&
      forall k, j :: 0 <= k < i && 0 <= j < |wanted| ==> wanted[j] !in RoleAbilities(ab, roles[k])
  }

  /** `rs` is non-empty and every one of its roles is held. */
  ghost predicate HoldsAll(held: seq<string>, rs: seq<string>) {
    |rs| > 0 && forall k :: 0 <= k < |rs| ==> rs[k] in held
  }

  /** At least one role of `rs` is held. */
  ghost predicate HoldsAny(held: seq<string>, rs: seq<string>) {
    exists k :: 0 <= k < |rs| && rs[k] in held
  }

  /** The slot a configuration writes to, or None when its backend is not a Web Storage area. */
  function SlotOf(c: Config): Option<Slot> {
    if IsWebArea(c.storage) then Some(Slot(c.storage, c.storageKey)) else None
  }

  /** Web Storage after `save()` wrote `d` under configuration `c`. */
  function SavedTo(slots: Slots, c: Config, d: Data): Slots {
    match SlotOf(c)
    case Some(s) => slots[s := d]
    case None => slots
  }

  /** Web Storage after `unset()` under configuration `c`. */
  function UnsetIn(slots: Slots, c: Config): Slots {
    match SlotOf(c)
    case Some(s) => slots - {s}
    case None => slots
  }

  /** What `resume()` finds under configuration `c`. */
  function FetchFrom(slots: Slots, c: Config): Option<Data> {
    match SlotOf(c)
    case Some(s) => if s in slots then Some(slots[s]) else None
    case None => None
  }
}
