/** The JavaScript values the correlator's operations receive, told apart only as far
    as the correlator's own `typeof` and `hasOwnProperty` checks tell them apart. */
module JsValues {

  datatype Option<+T> = None | Some(value: T)

  /** An argument as the correlator sees it. Objects and functions are known by their
      identity, a natural number. */
  datatype JsValue =
    | JsUndefined
    | JsNull
    | JsBool(truth: bool)
    | JsNumber(num: int)
    | JsString(str: string)
    | JsFunction(fn: nat)
    // an object with an own `promise` property (a deferred of the promise library)
    | JsDeferred(deferred: nat)
    // any other object
    | JsObject(obj: nat)
    // an `Error` carrying a machine-readable `code` and the event name and
    // duration (in milliseconds) its message was built from
    | JsError(code: string, evt: string, ms: int)

  /** The `TypeError`s the correlator throws, one per check. */
  datatype TypeError =
    | EvtNotString
    | BadTimeout
    | ListenerNotFunction
    | NotADeferred

  /** The outcome of a public operation: its return value, or the `TypeError` it throws. */
  datatype Result<+T> = Ok(value: T) | Err(error: TypeError)

  /** JavaScript truthiness: `undefined`, `null`, `false`, `0` and `""` are falsy;
      every object, function and other primitive is truthy. */
  predicate Truthy(v: JsValue)
  {
    match v
    case JsUndefined => false
    case JsNull => false
    case JsBool(b) => b
    case JsNumber(n) => n != 0
    case JsString(s) => s != ""
    case _ => true
  }

  /** throwIfEvtNotString: an event name must be a string. */
  function CheckEvt(evt: JsValue): (r: Result<string>)
    ensures r.Ok? <==> evt.JsString?
    ensures r.Ok? ==> r.value == evt.str
    ensures r.Err? ==> r.error == EvtNotString
  {
    if evt.JsString? then Ok(evt.str) else Err(EvtNotString)
  }
}
