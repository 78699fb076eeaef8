/** The older copy of the timed event race in src/waits.js. It differs from the one
    in src/index.js only in validating the event name with
    `throwIfNotPositiveLengthString`, the alias of `throwIfNotNonEmptyString`; the
    race itself (`Race`, `Waiter`) is shared with the TimedRace module. */
module Waits {
  import opened JsValues
  import opened Checks
  import TimedRace

  /** The argument checks of src/waits.js, in the order it runs them. */
  function RaceChecks(req: TimedRace.Request): seq<Check> {
    [ ThrowIfNotFunction(req.emitter.once, "event.emitter.once"),
      ThrowIfNotFunction(req.emitter.removeListener, "event.emitter.removeListener"),
      ThrowIfNotPositiveLengthString(req.name, "event.name"),
      ThrowIfNotFunction(req.eventCallback, "event.callback"),
      ThrowIfNotFunction(req.timeoutCallback, "timeout.callback"),
      if IsDefined(req.interval) then ThrowIfNotPositiveNumber(req.interval, "timeout.interval") else Passes ]
  }

  /** The validation accepts and rejects exactly as the copy in src/index.js does,
      with the same first error. */
  function ValidateRequest(req: TimedRace.Request): (r: Check)
    ensures r == TimedRace.ValidateRequest(req)
    ensures r.Passes? <==> TimedRace.WellFormed(req)
  {
    TimedRace.FirstFailure(RaceChecks(req))
  }

  /** `attachTimedEventCallback({event, timeout})` of src/waits.js: throws before
      anything is armed; otherwise a timer iff the interval is truthy, then the
      once-listener. */
  method AttachTimedEventCallback(req: TimedRace.Request) returns (r: Result<TimedRace.Race>)
    modifies req.emitter
    ensures r.Threw? <==> !TimedRace.WellFormed(req)
    ensures r.Threw? ==> Fails(r.error) == ValidateRequest(req)
                         && req.emitter.listeners == old(req.emitter.listeners)
    ensures r.Ok? ==> fresh(r.value) && fresh(r.value.eventHandler) && r.value.Valid()
                      && r.value.State() == TimedRace.Armed(Truthy(req.interval))
                      && r.value.emitter == req.emitter && r.value.name == req.name.s
                      && req.emitter.listeners == old(req.emitter.listeners)
                                                  + multiset{TimedRace.Listener(req.name.s, r.value.eventHandler)}
  {
    var check := ValidateRequest(req);
    if check.Fails? {
      return Threw(check.error);
    }
    var race := new TimedRace.Race.Arm(req.emitter, req.name.s, req.interval);
    return Ok(race);
  }

  /** `waitForEvent(emitter, name, interval)` of src/waits.js. */
  method WaitForEvent(emitter: TimedRace.Emitter, name: JsValue, interval: JsValue) returns (w: TimedRace.Waiter)
    modifies emitter
    ensures fresh(w) && w.Valid() && w.kind == TimedRace.ForEvent && w.emitter == emitter
    ensures w.name == name && w.interval == interval
    ensures !TimedRace.WellFormed(TimedRace.WrapperRequest(emitter, name, interval)) ==>
              w.race == null && w.promise.Rejected?
              && Fails(w.promise.reason) == ValidateRequest(TimedRace.WrapperRequest(emitter, name, interval))
              && emitter.listeners == old(emitter.listeners)
    ensures TimedRace.WellFormed(TimedRace.WrapperRequest(emitter, name, interval)) ==>
              w.race != null && fresh(w.race) && w.promise == Pending
              && w.race.State() == TimedRace.Armed(Truthy(interval))
              && fresh(w.race.eventHandler) && w.race.name == name.s
              && emitter.listeners == old(emitter.listeners) + multiset{TimedRace.Listener(name.s, w.race.eventHandler)}
  {
    var attached := AttachTimedEventCallback(TimedRace.WrapperRequest(emitter, name, interval));
    w := new TimedRace.Waiter(TimedRace.ForEvent, emitter, name, interval, attached);
  }

  /** `waitForNonEvent(emitter, name, interval)` of src/waits.js. */
  method WaitForNonEvent(emitter: TimedRace.Emitter, name: JsValue, interval: JsValue) returns (w: TimedRace.Waiter)
    modifies emitter
    ensures fresh(w) && w.Valid() && w.kind == TimedRace.ForNonEvent && w.emitter == emitter
    ensures w.name == name && w.interval == interval
    ensures !TimedRace.WellFormed(TimedRace.WrapperRequest(emitter, name, interval)) ==>
              w.race == null && w.promise.Rejected?
              && Fails(w.promise.reason) == ValidateRequest(TimedRace.WrapperRequest(emitter, name, interval))
              && emitter.listeners == old(emitter.listeners)
    ensures TimedRace.WellFormed(TimedRace.WrapperRequest(emitter, name, interval)) ==>
              w.race != null && fresh(w.race) && w.promise == Pending
              && w.race.State() == TimedRace.Armed(Truthy(interval))
              && fresh(w.race.eventHandler) && w.race.name == name.s
              && emitter.listeners == old(emitter.listeners) + multiset{TimedRace.Listener(name.s, w.race.eventHandler)}
  {
    var attached := AttachTimedEventCallback(TimedRace.WrapperRequest(emitter, name, interval));
    w := new TimedRace.Waiter(TimedRace.ForNonEvent, emitter, name, interval, attached);
  }
}
