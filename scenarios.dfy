/** Callers of the correlator: each method runs a short sequence of operations
    and external happenings on a fresh correlator and states what a caller
    observes, from the operations' contracts alone. */
module Scenarios {
  import opened JsValues
  import opened Emitter
  import opened Collaborators
  import opened Correlator

  /** A second registration for a name that is still pending is turned away and
      leaves the first wait's record, listener and timer as they were. */
  method CollisionKeepsFirstWait() returns (first: Result<bool>, second: Result<bool>, rec: Record, atts: seq<Attachment>, timer: Timer)
    ensures first == Ok(true) && second == Ok(false)
    ensures rec == Record(1, 0, Some(0))
    ensures atts == [Attachment("ping", 1, true)]
    ensures timer == Timer("ping", 100)
  {
    var areq := new Areq([], None);
    var d1 := areq.NewDeferred();
    var d2 := areq.NewDeferred();
    first := areq.Register(JsString("ping"), JsDeferred(d1), JsFunction(1), Some(100), JsUndefined);
    second := areq.Register(JsString("ping"), JsDeferred(d2), JsFunction(2), Some(500), JsBool(false));
    rec := areq.pendings["ping"];
    atts := areq.attachments;
    timer := areq.armed[0];
  }

  /** A wait whose timer elapses with no emission is rejected with an ETIMEDOUT
      error naming the event and the duration, and is no longer pending. */
  method TimeoutRejectsWait() returns (outcome: Settlement, pending: Result<bool>, atts: seq<Attachment>)
    ensures outcome == Rejected(JsError("ETIMEDOUT", "ping", 100))
    ensures pending == Ok(false)
    ensures atts == []
  {
    var areq := new Areq([], None);
    var d := areq.NewDeferred();
    var ok := areq.Register(JsString("ping"), JsDeferred(d), JsFunction(1), Some(100), JsUndefined);
    areq.TimerFires(0);
    outcome := areq.deferreds[d];
    pending := areq.IsEventPending(JsString("ping"));
    atts := areq.attachments;
  }

  /** The emission comes first and its listener resolves the wait with 42: the
      wait resolves with 42, and when the still-armed timer later fires it finds
      no record and changes nothing. A second resolve is a no-op too. */
  method ResolveBeatsTimer() returns (outcome: Settlement, pending: Result<bool>, stillArmed: bool)
    ensures outcome == Resolved(JsNumber(42))
    ensures pending == Ok(false)
    ensures stillArmed
  {
    var areq := new Areq([], None);
    var d := areq.NewDeferred();
    var ok := areq.Register(JsString("pong"), JsDeferred(d), JsFunction(2), Some(1000), JsUndefined);
    areq.EmitterDelivers("pong");
    assert areq.attachments == [];
    var done := areq.Resolve(JsString("pong"), JsNumber(42));
    done := areq.Resolve(JsString("pong"), JsNumber(43));
    stillArmed := 0 in areq.armed;
    areq.TimerFires(0);
    outcome := areq.deferreds[d];
    pending := areq.IsEventPending(JsString("pong"));
  }

  /** A changed default applies to the next registration without its own
      duration; a default below 1 ms is refused and the previous one stays. */
  method DefaultTimeoutApplies() returns (set5000: Result<int>, set0: Result<int>, timer: Timer, default: int)
    ensures set5000 == Ok(5000)
    ensures set0 == Err(BadTimeout)
    ensures timer == Timer("x", 5000)
    ensures default == 5000
  {
    var areq := new Areq([], None);
    set5000 := areq.ChangeDefaultTimeout(JsNumber(5000));
    var d := areq.NewDeferred();
    var ok := areq.Register(JsString("x"), JsDeferred(d), JsFunction(1), None, JsUndefined);
    timer := areq.armed[0];
    set0 := areq.ChangeDefaultTimeout(JsNumber(0));
    default := areq.areqTimeout;
  }

  /** The start shared by the scenarios below: a fresh correlator and two
      pending deferreds, the first waiting for "ping" with a 100 ms timeout. */
  method PingWaiting() returns (areq: Areq, d1: nat, d2: nat)
    ensures fresh(areq) && areq.Valid() && areq.NoStaleTimers() && areq.PendingWaitsGuarded()
    ensures d1 == 0 && d2 == 1 && areq.deferreds == [Pending, Pending]
    ensures areq.pendings == map["ping" := Record(1, 0, Some(0))]
    ensures areq.armed == map[0 := Timer("ping", 100)] && areq.nextTimer == 1
    ensures areq.hooks == [Hook("ping", 0)] && areq.attachments == [Attachment("ping", 1, true)]
    ensures areq.areqTimeout == DefaultAreqTimeout
  {
    areq := new Areq([], None);
    d1 := areq.NewDeferred();
    d2 := areq.NewDeferred();
    var ok := areq.Register(JsString("ping"), JsDeferred(d1), JsFunction(1), Some(100), JsUndefined);
  }

  /** Resolving through the correlator leaves the first wait's timer armed. When
      the name is registered again before that timer fires, the old timer
      rejects the new wait with the old duration, long before its own. */
  method StaleTimerRejectsNextWait() returns (first: Settlement, second: Settlement)
    ensures first == Resolved(JsNumber(1))
    ensures second == Rejected(JsError("ETIMEDOUT", "ping", 100))
  {
    var areq, d1, d2 := PingWaiting();
    var done := areq.Resolve(JsString("ping"), JsNumber(1));
    var ok := areq.Register(JsString("ping"), JsDeferred(d2), JsFunction(1), Some(60000), JsUndefined);
    areq.TimerFires(0);
    first := areq.deferreds[d1];
    second := areq.deferreds[d2];
  }

  /** The `finally` callback of a wait looks its record up by name when it runs.
      Here the first wait times out, and a handler the caller attached to its
      promise registers the name again before that callback runs. The callback
      then clears the NEW wait's only timer: the second wait stays pending with
      no timeout, no timer is armed at all, and PendingWaitsGuarded(), which
      held before the callback ran, no longer holds. */
  method StaleHookDisarmsNextWait()
    returns (first: Settlement, pending: Result<bool>, timeout: Option<nat>, second: Settlement, anyArmed: bool,
             guardedBefore: bool, guardedAfter: bool)
    ensures first == Rejected(JsError("ETIMEDOUT", "ping", 100))
    ensures pending == Ok(true)
    ensures timeout == None
    ensures second == Pending
    ensures !anyArmed
    ensures guardedBefore && !guardedAfter
  {
    var areq, d1, d2 := PingWaiting();
    areq.TimerFires(0);
    var ok := areq.Register(JsString("ping"), JsDeferred(d2), JsFunction(1), Some(60000), JsUndefined);
    guardedBefore := areq.PendingWaitsGuarded();
    areq.FinallyHookRuns(0);
    guardedAfter := areq.PendingWaitsGuarded();
    first := areq.deferreds[d1];
    second := areq.deferreds[d2];
    pending := areq.IsEventPending(JsString("ping"));
    timeout := areq.pendings["ping"].timeout;
    anyArmed := areq.armed != map[];
  }

  /** The sequence of StaleHookDisarmsNextWait with the corrected callback: the
      first wait's callback finds a record holding another deferred and leaves
      it alone, so the second wait keeps its own 60000 ms timer. */
  method CorrectedHookSparesNextWait()
    returns (first: Settlement, timeout: Option<nat>, timer: Timer, second: Settlement, guarded: bool)
    ensures first == Rejected(JsError("ETIMEDOUT", "ping", 100))
    ensures timeout == Some(1)
    ensures timer == Timer("ping", 60000)
    ensures second == Pending
    ensures guarded
  {
    var areq, d1, d2 := PingWaiting();
    areq.TimerFiresClearing(0);
    var ok := areq.Register(JsString("ping"), JsDeferred(d2), JsFunction(1), Some(60000), JsUndefined);
    areq.FinallyHookRunsOwnRecord(0);
    first := areq.deferreds[d1];
    second := areq.deferreds[d2];
    timeout := areq.pendings["ping"].timeout;
    timer := areq.armed[1];
    guarded := areq.PendingWaitsGuarded();
  }

  /** A caller that settles its deferred directly: the `finally` callback clears
      the wait's timer, but the record stays registered until someone resolves,
      rejects or deregisters the name. */
  method DirectSettlementKeepsRecord() returns (pending: Result<bool>, outcome: Settlement, anyArmed: bool)
    ensures pending == Ok(true)
    ensures outcome == Resolved(JsNumber(7))
    ensures !anyArmed
  {
    var areq := new Areq([], None);
    var d := areq.NewDeferred();
    var ok := areq.Register(JsString("ping"), JsDeferred(d), JsFunction(1), Some(100), JsUndefined);
    areq.SettleDeferred(d, Resolved(JsNumber(7)));
    areq.FinallyHookRuns(0);
    pending := areq.IsEventPending(JsString("ping"));
    outcome := areq.deferreds[d];
    anyArmed := areq.armed != map[];
  }

  /** Whatever listeners the emitter already holds, registering a wait and then
      resolving it leaves the emitter as it was, settles the deferred with the
      value and leaves no record for the name. */
  method ResolveUndoesRegister(listeners: seq<Attachment>, evt: string, fn: nat, once: JsValue, value: JsValue)
    returns (registered: Result<bool>, atts: seq<Attachment>, outcome: Settlement, pending: Result<bool>)
    ensures registered == Ok(true)
    ensures atts == listeners
    ensures outcome == Resolved(value)
    ensures pending == Ok(false)
  {
    var areq := new Areq(listeners, None);
    var d := areq.NewDeferred();
    registered := areq.Register(JsString(evt), JsDeferred(d), JsFunction(fn), None, once);
    var done := areq.Resolve(JsString(evt), value);
    atts := areq.attachments;
    outcome := areq.deferreds[d];
    pending := areq.IsEventPending(JsString(evt));
  }

  /** A name that a plain JavaScript object inherits, such as "toString", is free
      on a fresh correlator: it is not pending and can be registered. */
  method InheritedNameIsFree() returns (before: Result<bool>, registered: Result<bool>)
    ensures before == Ok(false)
    ensures registered == Ok(true)
  {
    var areq := new Areq([], None);
    before := areq.IsEventPending(JsString("toString"));
    var d := areq.NewDeferred();
    registered := areq.Register(JsString("toString"), JsDeferred(d), JsFunction(1), None, JsUndefined);
  }

  /** The sequence of StaleTimerRejectsNextWait with the corrected cleanup, the
      first wait's `finally` callback running after the second registration:
      resolving the first wait cancels its timer, its callback leaves the second
      wait's timer alone, and the second wait times out only on its own timer
      and duration. */
  method CorrectedCleanupSparesNextWait()
    returns (first: Settlement, staleArmed: bool, timeout: Option<nat>, second: Settlement)
    ensures first == Resolved(JsNumber(1))
    ensures !staleArmed
    ensures timeout == Some(1)
    ensures second == Rejected(JsError("ETIMEDOUT", "ping", 60000))
  {
    var areq, d1, d2 := PingWaiting();
    var done := areq.ResolveClearingTimer(JsString("ping"), JsNumber(1));
    assert "ping" !in areq.pendings && areq.armed == map[];
    var ok := areq.Register(JsString("ping"), JsDeferred(d2), JsFunction(1), Some(60000), JsUndefined);
    assert areq.pendings["ping"].deferred == d2 && areq.armed == map[1 := Timer("ping", 60000)];
    areq.FinallyHookRunsOwnRecord(0);
    staleArmed := 0 in areq.armed;
    timeout := areq.pendings["ping"].timeout;
    areq.TimerFiresClearing(1);
    first := areq.deferreds[d1];
    second := areq.deferreds[d2];
  }
}
