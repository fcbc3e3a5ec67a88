# areq correlator, modelled in Dafny

`Areq` turns a fire-once event of a shared event emitter into an awaitable
result with a timeout. A caller registers a wait for an event name with a
deferred (a promise with `resolve`/`reject` handles) and a listener; the
correlator attaches the listener to the emitter, arms a timeout timer and keeps
one record per event name in its registry `_pendings`. `resolve` and `reject`
settle the deferred if it is still pending and then deregister the name;
when the timer fires it rejects the wait with an `ETIMEDOUT` error. A second
registration for a name that is still pending is turned away with `false`.

The model is the class `Correlator.Areq` (`areq.dfy`). Its fields `pendings`
and `areqTimeout` are `_pendings` and `_areqTimeout`. The collaborators are
fields of the same object, so that one method call is one atomic step:

- the emitter is the sequence of its attachments, in the order they were made
  (`Emitter`, `emitter.dfy`). Removing a listener drops the most recently added
  matching attachment; emitting an event drops its once-attachments;
- the host's timers are a map from handle to armed `Timer(evt, ms)` plus the
  next free handle (`Collaborators`, `collaborators.dfy`);
- each deferred is a `Settlement` (`Pending`, `Resolved(v)`, `Rejected(e)`)
  known by its index; the `finally` callbacks that registration attaches and
  that have not yet run are kept as `Hook(evt, deferred)` values.

The happenings outside the correlator are methods as well: `TimerFires`,
`FinallyHookRuns` (allowed once the hook's deferred has settled),
`SettleDeferred` (the caller settles a deferred directly), `EmitterDelivers`
and `NewDeferred`. JavaScript's dynamic type checks are modelled by tagged
arguments (`JsValues.JsValue`): a non-string name, a non-function listener, a
non-deferred and a bad default timeout each give the `TypeError` the code
throws, as an `Err` result that leaves the state unchanged.

`Valid()` is the invariant every step keeps: every record names an existing
deferred, a record's timeout handle is an armed timer for that record's own
event (so a record holds at most one live timer), and handles are never reused.

A second predicate, `NoStaleTimers()`, says that every armed timer is the
timeout of the record that now holds its event. It is the state that the
`finally` callback attached at registration (index.js:57-63) aims for: that
callback exists to clear a wait's timer once the wait settles.
`Register`, `SetTimeout`, `TimerFires` and `FinallyHookRuns` keep it. `Deregister`,
`Resolve` and `Reject` as written do not, as the Findings below show. Their
corrections (`DeregisterClearingTimer`, `ResolveClearingTimer`,
`RejectClearingTimer`, `TimerFiresClearing`, `FinallyHookRunsOwnRecord`)
keep it, and under it a firing timer rejects exactly the wait that armed it.
The correlator's main methods keep the code's behaviour. The corrections sit
beside them.

A third, `PendingWaitsGuarded()`, says that every wait whose deferred is still
pending has a timer, so that it is settled at the latest when its timer fires.
Every step keeps it except the as-written `FinallyHookRuns`: a callback that
runs after its own wait has been replaced clears the timer of the new, still
pending wait (`Scenarios.StaleHookDisarmsNextWait`). The corrected
`FinallyHookRunsOwnRecord` keeps it.

`scenarios.dfy` holds callers that run short sequences of steps on a fresh
correlator and state what they observe, proved from the contracts alone.

### Where the code falls short of its own cleanup

The `finally` callback (index.js:57-63) shows that a settled wait's timer is
meant to be cancelled; `deregister` (index.js:84-99) removes the record and
detaches the listener. The timer is not in fact cancelled: `deregister` never
calls `clearTimeout`, and the `finally` callback that would clear it looks the
record up by name only after `resolve` or `reject` has already removed it.
The model follows the code:

- after `Resolve`/`Reject` the timer stays armed; when it fires and no record
  exists nothing changes (`Scenarios.ResolveBeatsTimer`);
- if the name has been registered again meanwhile, the old timer rejects the
  new wait with the old duration (`Scenarios.StaleTimerRejectsNextWait`);
- the old wait's `finally` callback clears the timer of whatever record holds
  the name when it runs: if the name was registered again after a timeout,
  the new wait is left with no timer at all
  (`Scenarios.StaleHookDisarmsNextWait`); both are listed under Findings;
- a caller that settles a deferred directly gets its timer cleared, but the
  record stays registered (`Scenarios.DirectSettlementKeepsRecord`).

## Model

| member | source | states |
|---|---|---|
| `JsValues.CheckEvt` | index.js:119-122 | a name is accepted exactly when it is a string, and then as that string; otherwise the error is the name's TypeError |
| `Correlator.CheckTimeout` | index.js:12-14 | a default timeout is accepted exactly when it is a number of at least 1 ms |
| `Correlator.OrDefault` | index.js:34 | `time \|\| fallback` (also `areqTimeout \|\| 30000` at index.js:8): a given non-zero duration is used, a missing or zero one falls back |
| `Correlator.OnceFlag` | index.js:31 | a missing `once` attaches once; any other value by its truthiness, so `false`, `null`, `0` and `""` attach persistently and objects attach once |
| `Correlator.Areq.constructor` | index.js:3-10 | a new correlator has an empty registry, no timers and no hooks, the emitter's existing listeners, and the given default timeout, or 30000 ms when it is missing or 0; no timer is stale; every pending wait has a timer |
| `Correlator.Areq.ChangeDefaultTimeout` | index.js:12-18 | a number of at least 1 becomes the default and is returned; anything else is refused with a TypeError and the default is unchanged; Valid() is kept; PendingWaitsGuarded() is kept |
| `Correlator.Areq.GetRecord` | index.js:20-23 | a non-string name is refused; otherwise the result is the record held for the name, and absent exactly when there is none; nothing changes |
| `Correlator.Areq.IsEventPending` | index.js:25-28 | a non-string name is refused; otherwise true exactly when the registry holds a record for the name; nothing changes |
| `Correlator.Areq.Register` | index.js:30-67 | a non-function listener is refused first, even on a taken name; then a non-string name; a taken name gives false and changes nothing; for a free name a non-deferred is refused; otherwise returns true, stores a record with exactly that listener, deferred and a fresh timer, appends one attachment (once unless `once` is passed and falsy), arms one timer for the given duration or the current default when it is missing or 0, and adds one `finally` hook; Valid() and NoStaleTimers() are kept; PendingWaitsGuarded() is kept |
| `Correlator.Areq.AddWait` | index.js:45-63 | register's work for a free name: exactly one attachment, the record with a fresh timer, that one timer armed and one `finally` hook are added, nothing else changes; Valid() and NoStaleTimers() are kept; PendingWaitsGuarded() is kept |
| `Correlator.Areq.SetTimeout` | index.js:69-82 | without a record nothing changes; with one, its previous timer is cleared and exactly one fresh timer for the name and duration is armed and stored in the record; NoStaleTimers() is kept; PendingWaitsGuarded() is kept |
| `Correlator.Areq.Deregister` | index.js:84-99 | a non-string name is refused; afterwards no record exists for the name; without a record nothing changes; with one, only that record is removed and exactly its listener is detached, other records and all timers untouched; PendingWaitsGuarded() is kept |
| `Correlator.Areq.Resolve` | index.js:101-108 | the record's deferred becomes Resolved(v) only if it was pending, then the name is deregistered as by Deregister; without a record (for example a second call) nothing changes; PendingWaitsGuarded() is kept |
| `Correlator.Areq.Reject` | index.js:110-117 | as Resolve, with Rejected(e); PendingWaitsGuarded() is kept |
| `Correlator.Areq.TimerFires` | index.js:76-80 | the fired timer is disarmed; the record then held for its name, if any, has its deferred rejected (if pending) with an error of code ETIMEDOUT carrying the name and duration, and is deregistered; without a record nothing else changes; NoStaleTimers() is kept; PendingWaitsGuarded() is kept |
| `Correlator.Areq.FinallyHookRuns` | index.js:57-63 | once the hook's deferred has settled, the hook is consumed and clears the timer of the record that holds its name at that moment, if that record has one; otherwise nothing else changes; NoStaleTimers() is kept |
| `Correlator.Areq.DeregisterClearingTimer` | index.js:84-99 | correction: as Deregister, and the removed record's timer is cleared too; NoStaleTimers() is kept; PendingWaitsGuarded() is kept |
| `Correlator.Areq.ResolveClearingTimer` | index.js:101-108 | correction: as Resolve, deregistering through DeregisterClearingTimer; NoStaleTimers() is kept; PendingWaitsGuarded() is kept |
| `Correlator.Areq.RejectClearingTimer` | index.js:110-117 | correction: as Reject, deregistering through DeregisterClearingTimer; NoStaleTimers() is kept; PendingWaitsGuarded() is kept |
| `Correlator.Areq.TimerFiresClearing` | index.js:76-80 | correction: while no timer is stale, the fired timer is the timeout of the record it rejects; that record is rejected with ETIMEDOUT and removed with its timer; NoStaleTimers() is kept; PendingWaitsGuarded() is kept |
| `Correlator.Areq.FinallyHookRunsOwnRecord` | index.js:57-63 | correction: the hook clears the timer only of the record that still holds its own deferred; any other record is left as it is; NoStaleTimers() is kept; PendingWaitsGuarded() is kept |
| `Correlator.Areq.NewDeferred` | index.js:30 | caller-side step, not code of the correlator: the caller creates the pending deferred it passes as `deferred`; all others unchanged; PendingWaitsGuarded() is kept |
| `Correlator.Areq.SettleDeferred` | index.js:57-63 | caller-side step, not code of the correlator: the caller settles a deferred directly, which is what the `finally` hook waits for; only a pending deferred changes, and the registry stays as it is; PendingWaitsGuarded() is kept |
| `Correlator.Areq.EmitterDelivers` | index.js:45-49 | emitter step: an emission of the event drops its once-attachments, as `once` asks of the emitter; Valid() is kept; PendingWaitsGuarded() is kept |
| `Collaborators.Disarm` | index.js:75 | clearing a handle removes exactly that timer and keeps every other armed timer |
| `Collaborators.Settle` | index.js:104-105 | a pending deferred takes the outcome; a settled one keeps its state |
| `Emitter.Detach` | index.js:93 | removeListener takes out at most one attachment, exactly when a matching one exists, and adds none |
| `Emitter.Emit` | index.js:46 | an emission keeps only attachments that were there and are not once-attachments for the event |
| `Emitter.DetachWithoutMatch` | index.js:92-95 | removing a listener that is not attached for the name leaves the emitter unchanged |
| `Emitter.DetachLastMatch` | index.js:92-95 | removing an attached listener drops exactly its last attachment and keeps all others in order |
| `Emitter.DetachRemovesOne` | index.js:93 | removing an attached listener takes exactly one attachment out of the emitter's multiset |
| `Emitter.EmitDropsOnceListeners` | index.js:45-49 | after an emission no once-attachment for the event remains, and every other attachment keeps its multiplicity |
| `Emitter.EmitKeepsOrder` | index.js:45-49 | an emission over consecutive stretches of attachments is the emission over each, so survivors keep their order |
| `Emitter.EmitKeepsOthers` | index.js:45-49 | attachments that are not once-attachments for the event all survive, in order |
| `RegistryLookup.PropertyOf` | index.js:22 | reading the registry object yields the own record when there is one, an inherited member for the Object.prototype names, undefined otherwise |
| `RegistryLookup.LooksPendingAsWritten` | index.js:27 | the truthiness test on `this._pendings[evt]` as written: a name with a record and an inherited Object.prototype name both look pending |
| `RegistryLookup.InheritedNameLooksPending` | index.js:27 | as written, "toString" looks pending on a registry with no record |
| `RegistryLookup.LooksPendingAsWrittenIff` | index.js:39 | as written, a name looks pending exactly when it has a record or is an inherited member |
| `Scenarios.CollisionKeepsFirstWait` | index.js:39-41 | a second register on a pending name returns false and leaves the first record, its single attachment and its timer as they were |
| `Scenarios.TimeoutRejectsWait` | index.js:76-80 | a wait whose timer fires is rejected with ETIMEDOUT for its name and duration, is no longer pending and its listener is detached |
| `Scenarios.ResolveBeatsTimer` | index.js:101-108 | after emission and resolve(42) the deferred is Resolved(42) and not pending; a second resolve and the late timer change nothing |
| `Scenarios.DefaultTimeoutApplies` | index.js:12-18 | after changeDefaultTimeout(5000) a register without duration arms 5000 ms; changeDefaultTimeout(0) is refused and 5000 stays |
| `Scenarios.StaleTimerRejectsNextWait` | index.js:84-99 | the first wait's timer, left armed by resolve, rejects a later wait for the same name with the first duration |
| `Scenarios.StaleHookDisarmsNextWait` | index.js:57-63 | when the first wait times out and the name is registered again before its finally hook runs, the hook clears the second wait's only timer: it stays pending with no timeout and nothing armed, and PendingWaitsGuarded() goes from true to false |
| `Scenarios.CorrectedHookSparesNextWait` | index.js:57-63 | in the same sequence the corrected hook leaves the second wait its own 60000 ms timer, and PendingWaitsGuarded() holds |
| `Scenarios.DirectSettlementKeepsRecord` | index.js:57-63 | settling the deferred directly clears its timer through the hook but leaves the record pending |
| `Scenarios.ResolveUndoesRegister` | index.js:30-117 | for any listeners already on the emitter, register then resolve restores the emitter's attachments, resolves the deferred with the value and leaves the name free |
| `Scenarios.CorrectedCleanupSparesNextWait` | index.js:84-99 | with the corrected cleanup, resolving the first wait disarms its timer, its hook leaves the second wait's timer alone, and the second wait times out only on its own 60000 ms timer |
| `Scenarios.InheritedNameIsFree` | index.js:25-28 | with own-entry lookup, "toString" is not pending on a fresh correlator and can be registered |

## Findings

| source | as written | input that shows it | evidently intended | confidence | as-written member | corrected member |
|---|---|---|---|---|---|---|
| index.js:84-99 | `deregister` removes the record but never calls `clearTimeout`, and the `finally` hook that would clear the timer finds no record by then | `register('ping', d1, fn, 100)`, `resolve('ping', 1)`, `register('ping', d2, fn, 60000)`: 100 ms later d2 is rejected with ETIMEDOUT | settling a wait cancels its timer, so a timer only ever rejects the wait that armed it | not executed | `Scenarios.StaleTimerRejectsNextWait` | `Correlator.Areq.DeregisterClearingTimer` |
| index.js:57-63 | the `finally` hook looks the record up by event name when it runs, after `resolve` has removed the record | `register('ping', d1, fn, 100)`; d1 times out; a handler the caller attached to `d1.promise` earlier calls `register('ping', d2, fn, 60000)`; then d1's hook runs: d2's only timer is cleared and d2 stays pending with no timeout | a hook clears only the timer of its own deferred's wait | not executed | `Scenarios.StaleHookDisarmsNextWait` | `Correlator.Areq.FinallyHookRunsOwnRecord` |
| index.js:9 | the registry is a plain `{}`, so `this._pendings[evt]` also finds the members every object inherits from `Object.prototype` (`RegistryLookup.LooksPendingAsWritten`) | on a fresh correlator `isEventPending('toString')` is true and `register('toString', …)` returns false | only names with a record of their own are pending | not executed | `RegistryLookup.InheritedNameLooksPending` | `Scenarios.InheritedNameIsFree` |

The rest of the model (`Correlator.Areq`) uses own-entry lookup. For the two
timer rows, the correlator's main methods keep the code's behaviour, so that
the stale-timer scenarios can be stated. The corrections sit beside them, and
`NoStaleTimers()` is proved for them. `Scenarios.CorrectedCleanupSparesNextWait`
runs the same sequence through them.

## Left out

- The emitter implementation and the constructor's `instanceof EventEmitter` check (index.js:1-5): the emitter is its list of attachments.
- Calling listeners: `EmitterDelivers` only drops once-attachments; what a listener does (typically calling `resolve`) is the caller's code and is a separate step.
- Real timers and the clock: firing is an explicit step allowed for any armed timer; durations are recorded but not compared with time, and the host's clamping of out-of-range durations is not modelled.
- Promise machinery: microtask ordering (a `finally` hook may run at any later step once its deferred has settled), the `.catch(function(){})` that silences the hook's rejection, and `isPending()` as a library call.
- The timeout message text "Areq <evt> timeout after <ms/1000> seconds" (floating-point division and concatenation): the error keeps its code, the name and the duration in milliseconds.
- `Correlator.OnceFlag`: `NaN` as `once`, which is falsy and attaches persistently, is not modelled, since numbers are integers.
- Non-integer and non-number durations: `register`'s duration is an optional integer (missing or 0 is falsy), and `changeDefaultTimeout` receives integers; NaN, which passes the `time < 1` guard in JavaScript, and fractional milliseconds are not modelled.
- `setTimeout` with a non-string name: the model takes a string, where JavaScript would coerce the property key.
- A `null` or `undefined` deferred on a free name: JavaScript throws a TypeError from `hasOwnProperty` with another message; the model gives the same `NotADeferred` error.
- Clearing `deferred` and `listener` on the removed record object (index.js:89-95): records are values, so this is visible only to a caller still holding a record returned by `getRecord`, which the model does not capture.
- `Correlator.Areq.Register`: a `JsDeferred` stands for a working deferred of the promise library, but the code checks only for an own `promise` property (index.js:42). Two late TypeErrors are not modelled. With `{promise: 1}`, `register` attaches the listener, stores the record and arms the timer (index.js:45-56), then throws at `deferred.promise.finally` (index.js:57): the record stays with no hook. With a promise that has no `isPending`, such as a native Promise, `resolve` and `reject` throw at index.js:104/113 before `deregister` runs: the record and the listener stay. The member also requires that a deferred argument names a deferred created by `NewDeferred`. In JavaScript every object exists, so this only rules out dangling identities.
- `Correlator.Areq.EmitterDelivers`: the emission is one atomic step, followed by whatever the caller's listener does, such as `Resolve`. Node interleaves the two: each once-wrapper removes itself just before calling its own listener, so a listener that runs early sees the later once-attachments still in place. The model over-approximates that interleaving.
