/** How the registry answers "is there a record for this name?" when the
    registry is a plain JavaScript object created as `{}`: reading `obj[name]`
    finds an own entry first, and otherwise a member that every such object
    inherits from `Object.prototype`. */
module RegistryLookup {

  /** The members a `{}` object inherits from `Object.prototype` in Node. */
  const ObjectPrototypeNames: set<string> := {
    "constructor", "__proto__", "__defineGetter__", "__defineSetter__",
    "__lookupGetter__", "__lookupSetter__", "hasOwnProperty", "isPrototypeOf",
    "propertyIsEnumerable", "toLocaleString", "toString", "valueOf"
  }

  /** What `obj[name]` yields: an own entry, an inherited member, or `undefined`. */
  datatype Property<V> = Own(value: V) | Inherited(name: string) | Missing

  function PropertyOf<V>(own: map<string, V>, name: string): (r: Property<V>)
    ensures r.Own? <==> name in own
    ensures r.Own? ==> r.value == own[name]
    ensures r.Missing? <==> name !in own && name !in ObjectPrototypeNames
  {
    if name in own then Own(own[name])
    else if name in ObjectPrototypeNames then Inherited(name)
    else Missing
  }

  /** The truthiness test on `obj[name]` that getRecord's callers and
      isEventPending perform, as written: records and inherited members are both
      truthy. */
  predicate LooksPendingAsWritten<V>(own: map<string, V>, name: string)
    ensures name in own ==> LooksPendingAsWritten(own, name)
    ensures name in ObjectPrototypeNames ==> LooksPendingAsWritten(own, name)
  {
    !PropertyOf(own, name).Missing?
  }

  /** On a registry with no record at all, the name "toString" already looks
      pending: register on it returns false and isEventPending returns true. */
  lemma InheritedNameLooksPending()
    ensures LooksPendingAsWritten<int>(map[], "toString")
  {
  }

  /** As written, a name looks pending exactly when it has a record or is an
      inherited member; so it agrees with "has a record" for every other name. */
  lemma LooksPendingAsWrittenIff<V>(own: map<string, V>, name: string)
    ensures LooksPendingAsWritten(own, name) <==> name in own || name in ObjectPrototypeNames
    ensures name !in ObjectPrototypeNames ==> (LooksPendingAsWritten(own, name) <==> name in own)
  {
  }
}
