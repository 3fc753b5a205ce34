/**
 * The `ActionMap` of both trafficlight clients: a record from action names to
 * callbacks where `on` refuses a name that already has a callback, `off`
 * refuses a name that has none and resets it to `undefined`, and `get` reads
 * the entry. Resetting to `undefined` is modelled as removing the key: `get`
 * and the truthiness tests of `on` and `off` cannot tell the two apart.
 */
module Registry {
  import opened Common

  datatype RegistryError = AlreadySpecified(action: string) | NotSpecified(action: string)

  /** `get(action)`: the callback, or `undefined`. */
  function Lookup<C>(m: map<string, C>, action: string): (r: Option<C>)
    ensures r.Some? <==> action in m
    ensures r.Some? ==> r.value == m[action]
  {
    if action in m then Some(m[action]) else None
  }

  /**
   * `on(action, cb)`: throws when the action already has a callback;
   * otherwise `get(action)` gives `cb` afterwards and every other action's
   * entry is as it was.
   */
  function Register<C>(m: map<string, C>, action: string, cb: C): (r: Result<map<string, C>, RegistryError>)
    ensures r.Err? <==> action in m
    ensures r.Err? ==> r.error == AlreadySpecified(action)
    ensures r.Ok? ==> Lookup(r.value, action) == Some(cb)
    ensures r.Ok? ==> forall a :: a != action ==> Lookup(r.value, a) == Lookup(m, a)
  {
    if action in m then Err(AlreadySpecified(action)) else Ok(m[action := cb])
  }

  /**
   * `off(action)`: throws when the action has no callback; otherwise
   * `get(action)` gives `undefined` afterwards and every other action's entry
   * is as it was.
   */
  function Unregister<C>(m: map<string, C>, action: string): (r: Result<map<string, C>, RegistryError>)
    ensures r.Err? <==> action !in m
    ensures r.Err? ==> r.error == NotSpecified(action)
    ensures r.Ok? ==> Lookup(r.value, action) == None
    ensures r.Ok? ==> forall a :: a != action ==> Lookup(r.value, a) == Lookup(m, a)
  {
    if action !in m then Err(NotSpecified(action)) else Ok(m - {action})
  }

  /** After a successful `off`, `on` for the same action succeeds again. */
  lemma OffThenOnSucceeds<C>(m: map<string, C>, action: string, cb: C)
    requires Unregister(m, action).Ok?
    ensures Register(Unregister(m, action).value, action, cb).Ok?
  {
  }

  /** `on` followed by `off` for a fresh action leaves the registry as it was. */
  lemma OnThenOffRestores<C>(m: map<string, C>, action: string, cb: C)
    requires action !in m
    ensures Unregister(Register(m, action, cb).value, action) == Ok(m)
  {
    assert m[action := cb] - {action} == m;
  }

  /**
   * The members every JavaScript object literal inherits from
   * `Object.prototype`; each is a function, hence truthy. (`__proto__` is
   * left out: assigning to it replaces the prototype.)
   */
  const InheritedMembers: set<string> := {
    "constructor", "hasOwnProperty", "isPrototypeOf", "propertyIsEnumerable",
    "toLocaleString", "toString", "valueOf",
    "__defineGetter__", "__defineSetter__", "__lookupGetter__", "__lookupSetter__"
  }

  /** An own property of the record: a callback, or `undefined` after `off`. */
  datatype Slot<C> = Callback(cb: C) | Undefined

  /** What `this.actions[action]` yields on the record as written. */
  datatype Member<C> = Own(cb: C) | Inherited(name: string) | Missing

  /** `this.actions[action]` on an object literal: own properties first, then the prototype's. */
  function LookupAsWritten<C>(own: map<string, Slot<C>>, action: string): (r: Member<C>)
    ensures r.Inherited? <==> action !in own && action in InheritedMembers
  {
    if action in own then
      match own[action]
      case Callback(cb) => Own(cb)
      case Undefined => Missing
    else if action in InheritedMembers then Inherited(action)
    else Missing
  }

  /** `on(action, cb)` as written: any truthy member, inherited ones included, counts as specified. */
  function OnAsWritten<C>(own: map<string, Slot<C>>, action: string, cb: C): (r: Result<map<string, Slot<C>>, RegistryError>)
    ensures r.Err? <==> !LookupAsWritten(own, action).Missing?
    ensures r.Ok? ==> LookupAsWritten(r.value, action) == Own(cb)
  {
    if !LookupAsWritten(own, action).Missing? then Err(AlreadySpecified(action))
    else Ok(own[action := Callback(cb)])
  }

  /**
   * `off(action)` as written: it throws only when the lookup finds nothing
   * truthy, so an inherited name passes, and the action is then set to an
   * own `undefined` that hides whatever was found.
   */
  function OffAsWritten<C>(own: map<string, Slot<C>>, action: string): (r: Result<map<string, Slot<C>>, RegistryError>)
    ensures r.Err? <==> LookupAsWritten(own, action).Missing?
    ensures r.Err? ==> r.error == NotSpecified(action)
    ensures r.Ok? ==> LookupAsWritten(r.value, action) == Missing
    ensures r.Ok? ==> forall a :: a != action ==> LookupAsWritten(r.value, a) == LookupAsWritten(own, a)
  {
    if LookupAsWritten(own, action).Missing? then Err(NotSpecified(action))
    else Ok(own[action := Undefined])
  }

  /**
   * As written, `off("toString")` on a fresh client does not throw, and
   * afterwards `on("toString", cb)` succeeds; the dictionary `off` throws
   * "not specified" for it.
   */
  lemma OffOnInheritedName<C>(cb: C)
    ensures OffAsWritten<C>(map[], "toString") == Ok(map["toString" := Undefined])
    ensures OnAsWritten(map["toString" := Undefined], "toString", cb).Ok?
    ensures Unregister<C>(map[], "toString") == Err(NotSpecified("toString"))
  {
    assert "toString" in InheritedMembers;
  }

  /**
   * On a fresh client, registering an action named "constructor" throws
   * "already specified" as written, and `get("toString")` is not `undefined`,
   * so the poll loop would call `Object.prototype.toString` instead of
   * skipping the unknown action; with a plain dictionary neither happens.
   */
  lemma ConstructorIsAlreadySpecified<C>(cb: C)
    ensures OnAsWritten(map[], "constructor", cb) == Err(AlreadySpecified("constructor"))
    ensures LookupAsWritten<C>(map[], "toString") == Inherited("toString")
    ensures Register(map[], "constructor", cb).Ok?
    ensures Lookup<C>(map[], "toString") == None
  {
    assert "constructor" in InheritedMembers;
    assert "toString" in InheritedMembers;
  }
}
