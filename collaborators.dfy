/** The host's timers and the promise library's deferreds, as far as the
    correlator uses them. */
module Collaborators {
  import opened JsValues

  /** An armed timer: when it fires it rejects the wait for `evt`; `ms` is the
      duration it was armed with. */
  datatype Timer = Timer(evt: string, ms: int)

  /** clearTimeout on the handle `t`, if there is one: a handle that is not armed
      (it already fired or was cleared) is ignored. */
  function Disarm(armed: map<nat, Timer>, t: Option<nat>): (r: map<nat, Timer>)
    ensures t.Some? ==> t.value !in r && r.Keys == armed.Keys - {t.value}
    ensures t.None? ==> r == armed
    ensures forall id :: id in r ==> id in armed && r[id] == armed[id]
  {
    if t.Some? then armed - {t.value} else armed
  }

  /** The state of a deferred's promise. */
  datatype Settlement = Pending | Resolved(value: JsValue) | Rejected(reason: JsValue)

  /** deferred.resolve(v) / deferred.reject(e): a promise settles once; a later
      attempt leaves it as it is. */
  function Settle(s: Settlement, outcome: Settlement): (r: Settlement)
    requires !outcome.Pending?
    ensures !r.Pending?
    ensures s.Pending? ==> r == outcome
    ensures !s.Pending? ==> r == s
  {
    if s.Pending? then outcome else s
  }
}
