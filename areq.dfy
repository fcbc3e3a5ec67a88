/** The correlator: one pending wait per event name, each with its listener on
    the shared emitter, its deferred, and at most one timeout timer. */
module Correlator {
  import opened JsValues
  import opened Emitter
  import opened Collaborators

  /** The default timeout, in milliseconds, when the constructor is given none. */
  const DefaultAreqTimeout := 30000

  /** The `code` of the error a timeout rejects a wait with. */
  const TimeoutCode := "ETIMEDOUT"

  /** A registry entry: the listener attached for the event, the deferred to
      settle, and the handle of the armed timeout timer, if any. */
  datatype Record = Record(listener: nat, deferred: nat, timeout: Option<nat>)

  /** A `finally` callback attached to a deferred's promise at registration: once
      the promise settles it clears the timer of whatever record then holds `evt`. */
  datatype Hook = Hook(evt: string, deferred: nat)

  /** `time || fallback` for a duration that may be missing: a missing or zero
      duration falls back. */
  function OrDefault(time: Option<int>, fallback: int): (r: int)
    ensures time.Some? && time.value != 0 ==> r == time.value
    ensures time.None? || time.value == 0 ==> r == fallback
  {
    if time.Some? && time.value != 0 then time.value else fallback
  }

  /** `once = once === undefined ? true : once` followed by the `if (once)` test:
      a missing `once` attaches once, any other value by its truthiness, so
      `null`, `0` and `""` attach persistently as `false` does. */
  function OnceFlag(once: JsValue): (r: bool)
    ensures once.JsUndefined? ==> r
    ensures once.JsNull? ==> !r
    ensures once.JsBool? ==> r == once.truth
    ensures once.JsNumber? ==> (r <==> once.num != 0)
    ensures once.JsString? ==> (r <==> once.str != "")
    ensures once.JsFunction? || once.JsDeferred? || once.JsObject? || once.JsError? ==> r
  {
    once.JsUndefined? || Truthy(once)
  }

  /** changeDefaultTimeout's check: a duration must be a number of at least 1 ms. */
  function CheckTimeout(time: JsValue): (r: Result<int>)
    ensures r.Ok? <==> time.JsNumber? && time.num >= 1
    ensures r.Ok? ==> r.value == time.num && r.value >= 1
    ensures r.Err? ==> r.error == BadTimeout
  {
    if time.JsNumber? && time.num >= 1 then Ok(time.num) else Err(BadTimeout)
  }

  class Areq {
    // the correlator's own state
    var pendings: map<string, Record>
    var areqTimeout: int

    // the collaborators' state: the emitter's attachments, the armed timers and
    // the next free timer handle, every deferred by identity, and the `finally`
    // callbacks that have not run yet
    var attachments: seq<Attachment>
    var armed: map<nat, Timer>
    var nextTimer: nat
    var deferreds: seq<Settlement>
    var hooks: seq<Hook>

    /** Every record refers to an existing deferred; a record's timeout handle is
        an armed timer for that record's own event; handles are never reused. */
    ghost predicate Valid()
      reads this
    {
      && (forall e :: e in pendings ==> pendings[e].deferred < |deferreds|)
      && (forall e :: e in pendings && pendings[e].timeout.Some? ==>
            pendings[e].timeout.value in armed && armed[pendings[e].timeout.value].evt == e)
      && (forall id :: id in armed ==> id < nextTimer)
      && (forall k :: 0 <= k < |hooks| ==> hooks[k].deferred < |deferreds|)
    }

    /** Every armed timer is the timeout of the record that now holds its event,
        so a timer can only ever fire for the wait that armed it. The `finally`
        callback that registration attaches exists to clear a wait's timer once
        it settles; this is the state that callback aims for. Register,
        SetTimeout, TimerFires and FinallyHookRuns keep it; Deregister, Resolve
        and Reject as written do not (they leave the timer armed), while their
        ...ClearingTimer corrections do. */
    ghost predicate NoStaleTimers()
      reads this
    {
      forall id :: id in armed ==> armed[id].evt in pendings && pendings[armed[id].evt].timeout == Some(id)
    }

    /** Every wait whose deferred is still pending has a timer, so it is settled
        at the latest when that timer fires. Only the as-written `finally`
        callback breaks this: run after its own wait was replaced, it clears the
        timer of another, still pending wait. */
    predicate PendingWaitsGuarded()
      requires Valid()
      reads this
    {
      forall e :: e in pendings && deferreds[pendings[e].deferred].Pending? ==> pendings[e].timeout.Some?
    }

    /** A correlator over an emitter that already holds `listeners`, with no
        pending wait. */
    constructor (listeners: seq<Attachment>, timeout: Option<int>)
      ensures Valid() && NoStaleTimers() && PendingWaitsGuarded()
      ensures pendings == map[] && hooks == [] && armed == map[] && nextTimer == 0 && deferreds == []
      ensures attachments == listeners
      ensures timeout.Some? && timeout.value != 0 ==> areqTimeout == timeout.value
      ensures timeout.None? || timeout.value == 0 ==> areqTimeout == DefaultAreqTimeout
    {
      pendings := map[];
      areqTimeout := OrDefault(timeout, DefaultAreqTimeout);
      attachments := listeners;
      armed := map[];
      nextTimer := 0;
      deferreds := [];
      hooks := [];
    }

    method ChangeDefaultTimeout(time: JsValue) returns (r: Result<int>)
      requires Valid()
      modifies this`areqTimeout
      ensures Valid()
      ensures old(PendingWaitsGuarded()) ==> PendingWaitsGuarded()
      ensures time.JsNumber? && time.num >= 1 ==> r == Ok(time.num) && areqTimeout == time.num
      ensures !(time.JsNumber? && time.num >= 1) ==> r == Err(BadTimeout) && areqTimeout == old(areqTimeout)
    {
      r := CheckTimeout(time);
      if r.Ok? {
        areqTimeout := r.value;
      }
    }

    method GetRecord(evt: JsValue) returns (r: Result<Option<Record>>)
      ensures r.Ok? <==> evt.JsString?
      ensures r.Err? ==> r.error == EvtNotString
      ensures r.Ok? ==> (r.value.Some? <==> evt.str in pendings)
      ensures r.Ok? && r.value.Some? ==> r.value.value == pendings[evt.str]
    {
      var name := CheckEvt(evt);
      if name.Err? {
        return Err(name.error);
      }
      if name.value in pendings {
        r := Ok(Some(pendings[name.value]));
      } else {
        r := Ok(None);
      }
    }

    method IsEventPending(evt: JsValue) returns (r: Result<bool>)
      ensures r.Ok? <==> evt.JsString?
      ensures r.Err? ==> r.error == EvtNotString
      ensures r.Ok? ==> (r.value <==> evt.str in pendings)
    {
      var name := CheckEvt(evt);
      if name.Err? {
        return Err(name.error);
      }
      r := Ok(name.value in pendings);
    }

    method Register(evt: JsValue, deferred: JsValue, listener: JsValue, time: Option<int>, once: JsValue)
      returns (r: Result<bool>)
      requires Valid()
      requires deferred.JsDeferred? ==> deferred.deferred < |deferreds|
      modifies this
      ensures Valid()
      ensures old(PendingWaitsGuarded()) ==> PendingWaitsGuarded()
      ensures old(NoStaleTimers()) ==> NoStaleTimers()
      // the listener is checked first, then the name, then whether the name is taken
      ensures !listener.JsFunction? ==> r == Err(ListenerNotFunction) && unchanged(this)
      ensures listener.JsFunction? && !evt.JsString? ==> r == Err(EvtNotString) && unchanged(this)
      ensures listener.JsFunction? && evt.JsString? && evt.str in old(pendings) ==>
                r == Ok(false) && unchanged(this)
      // the deferred is checked only for a free name
      ensures listener.JsFunction? && evt.JsString? && evt.str !in old(pendings) && !deferred.JsDeferred? ==>
                r == Err(NotADeferred) && unchanged(this)
      ensures listener.JsFunction? && evt.JsString? && evt.str !in old(pendings) && deferred.JsDeferred? ==>
                var id := old(nextTimer);
                && r == Ok(true)
                && pendings == old(pendings)[evt.str := Record(listener.fn, deferred.deferred, Some(id))]
                && attachments == old(attachments) + [Attachment(evt.str, listener.fn, OnceFlag(once))]
                && id !in old(armed)
                && armed == old(armed)[id := Timer(evt.str, OrDefault(time, old(areqTimeout)))]
                && nextTimer == id + 1
                && hooks == old(hooks) + [Hook(evt.str, deferred.deferred)]
                && deferreds == old(deferreds) && areqTimeout == old(areqTimeout)
    {
      var duration := OrDefault(time, areqTimeout);
      if !listener.JsFunction? {
        return Err(ListenerNotFunction);
      }
      var existing := GetRecord(evt);
      if existing.Err? {
        return Err(existing.error);
      }
      if existing.value.Some? {
        return Ok(false);
      }
      if !deferred.JsDeferred? {
        return Err(NotADeferred);
      }
      AddWait(evt.str, deferred.deferred, listener.fn, duration, OnceFlag(once));
      r := Ok(true);
    }

    /** register's work for a free name: attach the listener, store the record,
        arm its timer and attach the `finally` callback. */
    method AddWait(evt: string, d: nat, fn: nat, ms: int, once: bool)
      requires Valid() && evt !in pendings && d < |deferreds|
      modifies this
      ensures Valid()
      ensures old(PendingWaitsGuarded()) ==> PendingWaitsGuarded()
      ensures old(NoStaleTimers()) ==> NoStaleTimers()
      ensures var id := old(nextTimer);
              && pendings == old(pendings)[evt := Record(fn, d, Some(id))]
              && attachments == old(attachments) + [Attachment(evt, fn, once)]
              && id !in old(armed)
              && armed == old(armed)[id := Timer(evt, ms)]
              && nextTimer == id + 1
              && hooks == old(hooks) + [Hook(evt, d)]
              && deferreds == old(deferreds) && areqTimeout == old(areqTimeout)
    {
      attachments := attachments + [Attachment(evt, fn, once)];
      pendings := pendings[evt := Record(fn, d, None)];
      assert Valid();
      assert old(NoStaleTimers()) ==> NoStaleTimers();
      SetTimeout(evt, ms);
      hooks := hooks + [Hook(evt, d)];
    }

    method SetTimeout(evt: string, ms: int)
      requires Valid()
      modifies this
      ensures Valid()
      ensures old(PendingWaitsGuarded()) ==> PendingWaitsGuarded()
      ensures old(NoStaleTimers()) ==> NoStaleTimers()
      ensures evt !in old(pendings) ==> unchanged(this)
      ensures evt in old(pendings) ==>
                var id := old(nextTimer);
                var rec := old(pendings)[evt];
                && id !in old(armed)
                && armed == Disarm(old(armed), rec.timeout)[id := Timer(evt, ms)]
                && pendings == old(pendings)[evt := rec.(timeout := Some(id))]
                && nextTimer == id + 1
                && attachments == old(attachments) && deferreds == old(deferreds)
                && hooks == old(hooks) && areqTimeout == old(areqTimeout)
    {
      if evt in pendings {
        var rec := pendings[evt];
        var id := nextTimer;
        armed := Disarm(armed, rec.timeout)[id := Timer(evt, ms)];
        nextTimer := nextTimer + 1;
        pendings := pendings[evt := rec.(timeout := Some(id))];
      }
    }

    method Deregister(evt: JsValue) returns (r: Result<()>)
      requires Valid()
      modifies this
      ensures Valid()
      ensures old(PendingWaitsGuarded()) ==> PendingWaitsGuarded()
      ensures !evt.JsString? ==> r == Err(EvtNotString) && unchanged(this)
      ensures evt.JsString? ==> r == Ok(()) && evt.str !in pendings
      ensures evt.JsString? && evt.str !in old(pendings) ==> unchanged(this)
      ensures evt.JsString? && evt.str in old(pendings) ==>
                && pendings == old(pendings) - {evt.str}
                && attachments == Detach(old(attachments), evt.str, old(pendings)[evt.str].listener)
                // the record's timer is left armed
                && armed == old(armed) && nextTimer == old(nextTimer)
                && deferreds == old(deferreds) && hooks == old(hooks) && areqTimeout == old(areqTimeout)
    {
      var rec := GetRecord(evt);
      if rec.Err? {
        return Err(rec.error);
      }
      if rec.value.Some? {
        attachments := Detach(attachments, evt.str, rec.value.value.listener);
        pendings := pendings - {evt.str};
      }
      r := Ok(());
    }

    method Resolve(evt: JsValue, value: JsValue) returns (r: Result<()>)
      requires Valid()
      modifies this
      ensures Valid()
      ensures old(PendingWaitsGuarded()) ==> PendingWaitsGuarded()
      ensures !evt.JsString? ==> r == Err(EvtNotString) && unchanged(this)
      ensures evt.JsString? ==> r == Ok(()) && evt.str !in pendings
      ensures evt.JsString? && evt.str !in old(pendings) ==> unchanged(this)
      ensures evt.JsString? && evt.str in old(pendings) ==>
                var rec := old(pendings)[evt.str];
                && deferreds == old(deferreds)[rec.deferred := Settle(old(deferreds)[rec.deferred], Resolved(value))]
                && pendings == old(pendings) - {evt.str}
                && attachments == Detach(old(attachments), evt.str, rec.listener)
                && armed == old(armed) && nextTimer == old(nextTimer)
                && hooks == old(hooks) && areqTimeout == old(areqTimeout)
    {
      var rec := GetRecord(evt);
      if rec.Err? {
        return Err(rec.error);
      }
      if rec.value.Some? && deferreds[rec.value.value.deferred].Pending? {
        deferreds := deferreds[rec.value.value.deferred := Resolved(value)];
      }
      r := Deregister(evt);
    }

    method Reject(evt: JsValue, err: JsValue) returns (r: Result<()>)
      requires Valid()
      modifies this
      ensures Valid()
      ensures old(PendingWaitsGuarded()) ==> PendingWaitsGuarded()
      ensures !evt.JsString? ==> r == Err(EvtNotString) && unchanged(this)
      ensures evt.JsString? ==> r == Ok(()) && evt.str !in pendings
      ensures evt.JsString? && evt.str !in old(pendings) ==> unchanged(this)
      ensures evt.JsString? && evt.str in old(pendings) ==>
                var rec := old(pendings)[evt.str];
                && deferreds == old(deferreds)[rec.deferred := Settle(old(deferreds)[rec.deferred], Rejected(err))]
                && pendings == old(pendings) - {evt.str}
                && attachments == Detach(old(attachments), evt.str, rec.listener)
                && armed == old(armed) && nextTimer == old(nextTimer)
                && hooks == old(hooks) && areqTimeout == old(areqTimeout)
    {
      var rec := GetRecord(evt);
      if rec.Err? {
        return Err(rec.error);
      }
      if rec.value.Some? && deferreds[rec.value.value.deferred].Pending? {
        deferreds := deferreds[rec.value.value.deferred := Rejected(err)];
      }
      r := Deregister(evt);
    }

    /** The timer `id` fires: it rejects whatever wait is then registered for its
        event with a timeout error, and deregisters the event. */
    method TimerFires(id: nat)
      requires Valid() && id in armed
      modifies this
      ensures Valid()
      ensures old(PendingWaitsGuarded()) ==> PendingWaitsGuarded()
      ensures old(NoStaleTimers()) ==> NoStaleTimers()
      ensures var t := old(armed)[id];
              var err := JsError(TimeoutCode, t.evt, t.ms);
              && armed == old(armed) - {id}
              && t.evt !in pendings
              && (t.evt !in old(pendings) ==>
                    pendings == old(pendings) && deferreds == old(deferreds) && attachments == old(attachments))
              && (t.evt in old(pendings) ==>
                    var rec := old(pendings)[t.evt];
                    && deferreds == old(deferreds)[rec.deferred := Settle(old(deferreds)[rec.deferred], Rejected(err))]
                    && pendings == old(pendings) - {t.evt}
                    && attachments == Detach(old(attachments), t.evt, rec.listener))
              && nextTimer == old(nextTimer) && hooks == old(hooks) && areqTimeout == old(areqTimeout)
    {
      var t := armed[id];
      var ignored := Reject(JsString(t.evt), JsError(TimeoutCode, t.evt, t.ms));
      armed := armed - {id};
    }

    /** The `finally` callback `hooks[i]` runs once its deferred has settled, by
        whatever path: it clears the timer of the record that holds its event
        name at that moment, if there is one. */
    method FinallyHookRuns(i: nat)
      requires Valid() && i < |hooks| && !deferreds[hooks[i].deferred].Pending?
      modifies this
      ensures Valid()
      ensures old(NoStaleTimers()) ==> NoStaleTimers()
      ensures hooks == old(hooks[..i] + hooks[i + 1..])
      ensures var e := old(hooks[i].evt);
              if e in old(pendings) && old(pendings[e].timeout).Some? then
                && armed == old(armed) - {old(pendings[e].timeout.value)}
                && pendings == old(pendings)[e := old(pendings[e]).(timeout := None)]
              else
                armed == old(armed) && pendings == old(pendings)
      ensures attachments == old(attachments) && deferreds == old(deferreds)
      ensures nextTimer == old(nextTimer) && areqTimeout == old(areqTimeout)
    {
      var hook := hooks[i];
      hooks := hooks[..i] + hooks[i + 1..];
      if hook.evt in pendings && pendings[hook.evt].timeout.Some? {
        var rec := pendings[hook.evt];
        armed := armed - {rec.timeout.value};
        pendings := pendings[hook.evt := rec.(timeout := None)];
      }
    }

    // The cleanup path that the `finally` callback of register (index.js:57-63)
    // evidently aims at: settling or timing out a wait also cancels its timer,
    // and a `finally` callback only touches the record of its own deferred.
    // These sit beside the methods above, which keep the behaviour of the code
    // as written.

    /** deregister, also clearing the record's timer. */
    method DeregisterClearingTimer(evt: JsValue) returns (r: Result<()>)
      requires Valid()
      modifies this
      ensures Valid()
      ensures old(PendingWaitsGuarded()) ==> PendingWaitsGuarded()
      ensures old(NoStaleTimers()) ==> NoStaleTimers()
      ensures !evt.JsString? ==> r == Err(EvtNotString) && unchanged(this)
      ensures evt.JsString? ==> r == Ok(()) && evt.str !in pendings
      ensures evt.JsString? && evt.str !in old(pendings) ==> unchanged(this)
      ensures evt.JsString? && evt.str in old(pendings) ==>
                var rec := old(pendings)[evt.str];
                && pendings == old(pendings) - {evt.str}
                && attachments == Detach(old(attachments), evt.str, rec.listener)
                && armed == Disarm(old(armed), rec.timeout)
                && nextTimer == old(nextTimer)
                && deferreds == old(deferreds) && hooks == old(hooks) && areqTimeout == old(areqTimeout)
    {
      var rec := GetRecord(evt);
      r := Deregister(evt);
      if rec.Ok? && rec.value.Some? {
        armed := Disarm(armed, rec.value.value.timeout);
      }
    }

    /** resolve, deregistering through DeregisterClearingTimer. */
    method ResolveClearingTimer(evt: JsValue, value: JsValue) returns (r: Result<()>)
      requires Valid()
      modifies this
      ensures Valid()
      ensures old(PendingWaitsGuarded()) ==> PendingWaitsGuarded()
      ensures old(NoStaleTimers()) ==> NoStaleTimers()
      ensures !evt.JsString? ==> r == Err(EvtNotString) && unchanged(this)
      ensures evt.JsString? ==> r == Ok(()) && evt.str !in pendings
      ensures evt.JsString? && evt.str !in old(pendings) ==> unchanged(this)
      ensures evt.JsString? && evt.str in old(pendings) ==>
                var rec := old(pendings)[evt.str];
                && deferreds == old(deferreds)[rec.deferred := Settle(old(deferreds)[rec.deferred], Resolved(value))]
                && pendings == old(pendings) - {evt.str}
                && attachments == Detach(old(attachments), evt.str, rec.listener)
                && armed == Disarm(old(armed), rec.timeout) && nextTimer == old(nextTimer)
                && hooks == old(hooks) && areqTimeout == old(areqTimeout)
    {
      var rec := GetRecord(evt);
      if rec.Err? {
        return Err(rec.error);
      }
      if rec.value.Some? && deferreds[rec.value.value.deferred].Pending? {
        deferreds := deferreds[rec.value.value.deferred := Resolved(value)];
      }
      r := DeregisterClearingTimer(evt);
    }

    /** reject, deregistering through DeregisterClearingTimer. */
    method RejectClearingTimer(evt: JsValue, err: JsValue) returns (r: Result<()>)
      requires Valid()
      modifies this
      ensures Valid()
      ensures old(PendingWaitsGuarded()) ==> PendingWaitsGuarded()
      ensures old(NoStaleTimers()) ==> NoStaleTimers()
      ensures !evt.JsString? ==> r == Err(EvtNotString) && unchanged(this)
      ensures evt.JsString? ==> r == Ok(()) && evt.str !in pendings
      ensures evt.JsString? && evt.str !in old(pendings) ==> unchanged(this)
      ensures evt.JsString? && evt.str in old(pendings) ==>
                var rec := old(pendings)[evt.str];
                && deferreds == old(deferreds)[rec.deferred := Settle(old(deferreds)[rec.deferred], Rejected(err))]
                && pendings == old(pendings) - {evt.str}
                && attachments == Detach(old(attachments), evt.str, rec.listener)
                && armed == Disarm(old(armed), rec.timeout) && nextTimer == old(nextTimer)
                && hooks == old(hooks) && areqTimeout == old(areqTimeout)
    {
      var rec := GetRecord(evt);
      if rec.Err? {
        return Err(rec.error);
      }
      if rec.value.Some? && deferreds[rec.value.value.deferred].Pending? {
        deferreds := deferreds[rec.value.value.deferred := Rejected(err)];
      }
      r := DeregisterClearingTimer(evt);
    }

    /** A timer fires under the corrected cleanup: while no timer is stale, the
        wait it rejects is exactly the one whose record holds it. */
    method TimerFiresClearing(id: nat)
      requires Valid() && id in armed
      modifies this
      ensures Valid()
      ensures old(PendingWaitsGuarded()) ==> PendingWaitsGuarded()
      ensures old(NoStaleTimers()) ==> NoStaleTimers()
      ensures var t := old(armed)[id];
              old(NoStaleTimers()) ==> t.evt in old(pendings) && old(pendings)[t.evt].timeout == Some(id)
      ensures var t := old(armed)[id];
              var err := JsError(TimeoutCode, t.evt, t.ms);
              && id !in armed
              && t.evt !in pendings
              && (t.evt !in old(pendings) ==>
                    armed == old(armed) - {id} && pendings == old(pendings)
                    && deferreds == old(deferreds) && attachments == old(attachments))
              && (t.evt in old(pendings) ==>
                    var rec := old(pendings)[t.evt];
                    && armed == Disarm(old(armed), rec.timeout) - {id}
                    && deferreds == old(deferreds)[rec.deferred := Settle(old(deferreds)[rec.deferred], Rejected(err))]
                    && pendings == old(pendings) - {t.evt}
                    && attachments == Detach(old(attachments), t.evt, rec.listener))
              && nextTimer == old(nextTimer) && hooks == old(hooks) && areqTimeout == old(areqTimeout)
    {
      var t := armed[id];
      var ignored := RejectClearingTimer(JsString(t.evt), JsError(TimeoutCode, t.evt, t.ms));
      armed := armed - {id};
    }

    /** The `finally` callback, clearing the timer only when the record holding
        its event name is still the record of its own deferred. */
    method FinallyHookRunsOwnRecord(i: nat)
      requires Valid() && i < |hooks| && !deferreds[hooks[i].deferred].Pending?
      modifies this
      ensures Valid()
      ensures old(PendingWaitsGuarded()) ==> PendingWaitsGuarded()
      ensures old(NoStaleTimers()) ==> NoStaleTimers()
      ensures hooks == old(hooks[..i] + hooks[i + 1..])
      ensures var h := old(hooks[i]);
              if h.evt in old(pendings) && old(pendings[h.evt]).deferred == h.deferred
                 && old(pendings[h.evt].timeout).Some? then
                && armed == old(armed) - {old(pendings[h.evt].timeout.value)}
                && pendings == old(pendings)[h.evt := old(pendings[h.evt]).(timeout := None)]
              else
                armed == old(armed) && pendings == old(pendings)
      ensures attachments == old(attachments) && deferreds == old(deferreds)
      ensures nextTimer == old(nextTimer) && areqTimeout == old(areqTimeout)
    {
      var hook := hooks[i];
      hooks := hooks[..i] + hooks[i + 1..];
      if hook.evt in pendings && pendings[hook.evt].deferred == hook.deferred && pendings[hook.evt].timeout.Some? {
        var rec := pendings[hook.evt];
        armed := armed - {rec.timeout.value};
        pendings := pendings[hook.evt := rec.(timeout := None)];
      }
    }

    /** The caller creates a deferred (outside the correlator). */
    method NewDeferred() returns (d: nat)
      requires Valid()
      modifies this`deferreds
      ensures Valid()
      ensures old(PendingWaitsGuarded()) ==> PendingWaitsGuarded()
      ensures d == |old(deferreds)| && deferreds == old(deferreds) + [Pending]
    {
      d := |deferreds|;
      deferreds := deferreds + [Pending];
    }

    /** The caller settles a deferred directly, bypassing the correlator: its
        record, if any, stays registered. */
    method SettleDeferred(d: nat, outcome: Settlement)
      requires Valid() && d < |deferreds| && !outcome.Pending?
      modifies this`deferreds
      ensures Valid()
      ensures old(PendingWaitsGuarded()) ==> PendingWaitsGuarded()
      ensures deferreds == old(deferreds)[d := Settle(old(deferreds)[d], outcome)]
    {
      deferreds := deferreds[d := Settle(deferreds[d], outcome)];
    }

    /** The emitter emits `evt`: its once-attachments for `evt` go away. */
    method EmitterDelivers(evt: string)
      requires Valid()
      modifies this`attachments
      ensures Valid()
      ensures old(PendingWaitsGuarded()) ==> PendingWaitsGuarded()
      ensures attachments == Emit(old(attachments), evt)
    {
      attachments := Emit(attachments, evt);
    }
  }
}
