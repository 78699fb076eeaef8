/** The timed event race of src/index.js: `attachTimedEventCallback` and the two
    promise wrappers `waitForEvent` and `waitForNonEvent` built on it.

    A race registers one once-listener on a caller-supplied emitter and, when an
    interval is given, one timer. The event handler clears the timer before it runs
    the event callback; the timeout handler removes the listener before it runs the
    timeout callback. Timers and the emitter's delivery are modelled as methods that
    a scheduler may call in any order: `Race.FireEvent` (the emitter emits the
    event) and `Race.FireTimeout` (the timer expires). The pure state machine
    `Step`/`Run` states what each trigger does, and the lemmas below prove that at
    most one consumer callback ever runs and which one it is. */
module TimedRace {
  import opened JsValues
  import opened Checks

  /** The identity of a handler function. */
  class Closure {
    constructor () {}
  }

  /** One registration on an emitter. */
  datatype Listener = Listener(event: string, handler: Closure)

  /** A caller-supplied event source. `once` and `removeListener` are the values
      found on it; when they are functions they behave as registered: `Once` adds a
      registration, `RemoveListener` removes one if there is one, and emitting an
      event to a once-listener removes it before calling it. */
  class Emitter {
    const once: JsValue
    const removeListener: JsValue
    var listeners: multiset<Listener>

    constructor (once: JsValue, removeListener: JsValue, listeners: multiset<Listener>)
      ensures this.once == once && this.removeListener == removeListener
      ensures this.listeners == listeners
    {
      this.once := once;
      this.removeListener := removeListener;
      this.listeners := listeners;
    }

    /** `emitter.once(event, handler)` */
    method Once(event: string, handler: Closure)
      modifies this
      ensures listeners == old(listeners) + multiset{Listener(event, handler)}
    {
      listeners := listeners + multiset{Listener(event, handler)};
    }

    /** `emitter.removeListener(event, handler)`: a no-op when not registered. */
    method RemoveListener(event: string, handler: Closure)
      modifies this
      ensures listeners == old(listeners) - multiset{Listener(event, handler)}
    {
      listeners := listeners - multiset{Listener(event, handler)};
    }

    /** Emitting to a once-listener: it is delivered only if registered, and it is
        unregistered before its handler runs. */
    method TakeOnce(l: Listener) returns (delivered: bool)
      modifies this
      ensures delivered == (l in old(listeners))
      ensures listeners == old(listeners) - multiset{l}
    {
      delivered := l in listeners;
      listeners := listeners - multiset{l};
    }
  }

  /** A consumer callback invocation. */
  datatype ConsumerCall = EventCallback(args: seq<JsValue>) | TimeoutCallback

  /** What can happen to a race: the emitter emits its event, or its timer expires. */
  datatype Trigger = EventFires(args: seq<JsValue>) | TimerExpires

  /** The abstract state of one race: whether a timer was armed at all (the
      `timeoutId` slot is set), whether it is still pending, whether the event
      handler is still registered, and the consumer callbacks run so far. */
  datatype RaceState = RaceState(timed: bool, timerPending: bool, listening: bool, calls: seq<ConsumerCall>)

  /** Right after a successful attach: a timer iff an interval was given, and the
      listener registered. */
  function Armed(timed: bool): RaceState {
    RaceState(timed, timed, true, [])
  }

  /** One trigger. The event reaches the handler only while it is registered; the
      handler clears the timer (when one was set) and then calls the event callback.
      The timer expires only while pending; its handler removes the listener and
      then calls the timeout callback. */
  function Step(s: RaceState, t: Trigger): RaceState {
    match t
    case EventFires(args) =>
      if s.listening then
        s.(listening := false, timerPending := s.timerPending && !s.timed,
           calls := s.calls + [EventCallback(args)])
      else s
    case TimerExpires =>
      if s.timerPending then
        s.(timerPending := false, listening := false, calls := s.calls + [TimeoutCallback])
      else s
  }

  function Run(s: RaceState, ts: seq<Trigger>): RaceState
    decreases |ts|
  {
    if ts == [] then s else Run(Step(s, ts[0]), ts[1..])
  }

  /** The race invariant: before any callback both triggers are armed as attached;
      after one callback, neither trigger is armed any more. */
  ghost predicate Inv(s: RaceState) {
    |s.calls| <= 1
    && (s.calls == [] ==> s.listening && s.timerPending == s.timed)
    && (s.calls != [] ==> !s.listening && !s.timerPending)
    && (TimeoutCallback in s.calls ==> s.timed)
  }

  lemma StepKeepsInv(s: RaceState, t: Trigger)
    requires Inv(s)
    ensures Inv(Step(s, t))
    ensures |Step(s, t).calls| >= |s.calls| && Step(s, t).calls[..|s.calls|] == s.calls
  {
  }

  lemma {:induction false} RunKeepsInv(s: RaceState, ts: seq<Trigger>)
    requires Inv(s)
    ensures Inv(Run(s, ts)) && Run(s, ts).timed == s.timed
    decreases |ts|
  {
    if ts != [] {
      StepKeepsInv(s, ts[0]);
      RunKeepsInv(Step(s, ts[0]), ts[1..]);
    }
  }

  /** Once a callback has run, no trigger changes the race any more. */
  lemma {:induction false} SettledIsFinal(s: RaceState, ts: seq<Trigger>)
    requires Inv(s) && s.calls != []
    ensures Run(s, ts) == s
    decreases |ts|
  {
    if ts != [] {
      SettledIsFinal(Step(s, ts[0]), ts[1..]);
    }
  }

  /** At most one of the two consumer callbacks ever runs, whatever the order and
      number of triggers. */
  lemma AtMostOneConsumerCall(timed: bool, ts: seq<Trigger>)
    ensures |Run(Armed(timed), ts).calls| <= 1
  {
    RunKeepsInv(Armed(timed), ts);
  }

  /** Without an interval the timeout callback never runs. */
  lemma NoTimeoutWithoutTimer(ts: seq<Trigger>)
    ensures TimeoutCallback !in Run(Armed(false), ts).calls
  {
    RunKeepsInv(Armed(false), ts);
  }

  /** The callback of the first trigger that can act: the first event, or the
      first expiry when a timer was armed. */
  function Winner(timed: bool, ts: seq<Trigger>): seq<ConsumerCall>
    decreases |ts|
  {
    if ts == [] then []
    else match ts[0]
      case EventFires(args) => [EventCallback(args)]
      case TimerExpires => if timed then [TimeoutCallback] else Winner(timed, ts[1..])
  }

  /** First trigger wins: the consumer callbacks that run are exactly the winner's. */
  lemma {:induction false} FirstTriggerWins(timed: bool, ts: seq<Trigger>)
    ensures Run(Armed(timed), ts).calls == Winner(timed, ts)
    decreases |ts|
  {
    if ts != [] {
      var s1 := Step(Armed(timed), ts[0]);
      if s1.calls != [] {
        StepKeepsInv(Armed(timed), ts[0]);
        SettledIsFinal(s1, ts[1..]);
      } else {
        assert s1 == Armed(timed);
        FirstTriggerWins(timed, ts[1..]);
      }
    }
  }

  /** The object the source passes to `attachTimedEventCallback`:
      `{event: {emitter, name, callback}, timeout: {interval, callback}}`. */
  datatype Request = Request(emitter: Emitter, name: JsValue, eventCallback: JsValue,
                             interval: JsValue, timeoutCallback: JsValue)

  /** The argument checks, in the order the source runs them. */
  function RaceChecks(req: Request): seq<Check> {
    [ ThrowIfNotFunction(req.emitter.once, "event.emitter.once"),
      ThrowIfNotFunction(req.emitter.removeListener, "event.emitter.removeListener"),
      ThrowIfNotNonEmptyString(req.name, "event.name"),
      ThrowIfNotFunction(req.eventCallback, "event.callback"),
      ThrowIfNotFunction(req.timeoutCallback, "timeout.callback"),
      if IsDefined(req.interval) then ThrowIfNotPositiveNumber(req.interval, "timeout.interval") else Passes ]
  }

  /** Running guards one after another: the first failure is thrown. */
  function FirstFailure(cs: seq<Check>): (r: Check)
    ensures r.Passes? <==> forall i :: 0 <= i < |cs| ==> cs[i].Passes?
    ensures r.Fails? ==> exists i :: 0 <= i < |cs| && cs[i] == r && forall j :: 0 <= j < i ==> cs[j].Passes?
  {
    if cs == [] then Passes
    else if cs[0].Fails? then cs[0]
    else
      var r := FirstFailure(cs[1..]);
      assert forall j :: 1 <= j < |cs| ==> cs[j] == cs[1..][j - 1];
      r
  }

  /** The well-formed requests: an emitter with callable `once` and
      `removeListener`, a non-empty string name, two callable callbacks, and no
      interval or a positive one. */
  ghost predicate WellFormed(req: Request) {
    IsFunction(req.emitter.once) && IsFunction(req.emitter.removeListener)
    && req.name.Str? && |req.name.s| > 0
    && IsFunction(req.eventCallback) && IsFunction(req.timeoutCallback)
    && (req.interval.Undefined? || (req.interval.Num? && req.interval.n > 0))
  }

  /** The validation at the head of `attachTimedEventCallback`. */
  function ValidateRequest(req: Request): (r: Check)
    ensures r.Passes? <==> WellFormed(req)
    ensures r.Fails? ==>
              exists i :: 0 <= i < |RaceChecks(req)| && RaceChecks(req)[i] == r
                          && forall j :: 0 <= j < i ==> RaceChecks(req)[j].Passes?
  {
    var cs := RaceChecks(req);
    var r := FirstFailure(cs);
    assert r.Passes? <==> cs[0].Passes? && cs[1].Passes? && cs[2].Passes? && cs[3].Passes? && cs[4].Passes? && cs[5].Passes?;
    r
  }

  /** After validation an interval is truthy exactly when it is defined, so the
      timer is armed iff an interval was given. */
  lemma ValidIntervalArmsIffDefined(req: Request)
    requires ValidateRequest(req).Passes?
    ensures Truthy(req.interval) <==> IsDefined(req.interval)
  {
  }

  /** A race in the heap: the `timeoutId` slot and the registration of
      `eventHandler` on the emitter, plus the log of consumer callbacks. */
  class Race {
    const emitter: Emitter
    const name: string
    const eventHandler: Closure
    const timed: bool
    var timerPending: bool
    var calls: seq<ConsumerCall>

    function State(): RaceState
      reads this, emitter
    {
      RaceState(timed, timerPending, Listener(name, eventHandler) in emitter.listeners, calls)
    }

    ghost predicate Valid()
      reads this, emitter
    {
      Inv(State()) && emitter.listeners[Listener(name, eventHandler)] <= 1
    }

    /** Arming, after validation: the timer first (when the interval is truthy),
        then the once-listener. */
    constructor Arm(emitter: Emitter, name: string, interval: JsValue)
      modifies emitter
      ensures Valid() && State() == Armed(Truthy(interval))
      ensures this.emitter == emitter && this.name == name && fresh(eventHandler)
      ensures emitter.listeners == old(emitter.listeners) + multiset{Listener(name, eventHandler)}
    {
      var handler := new Closure();
      this.emitter := emitter;
      this.name := name;
      this.eventHandler := handler;
      this.timed := Truthy(interval);
      this.timerPending := Truthy(interval);
      this.calls := [];
      new;
      emitter.Once(name, handler);
    }

    /** The emitter emits the race's event with `args`. */
    method FireEvent(args: seq<JsValue>)
      requires Valid()
      modifies this, emitter
      ensures Valid()
      ensures State() == Step(old(State()), EventFires(args))
      ensures emitter.listeners == old(emitter.listeners) - multiset{Listener(name, eventHandler)}
    {
      var delivered := emitter.TakeOnce(Listener(name, eventHandler));
      if delivered {
        // eventHandler(...args)
        if timed {
          timerPending := false;   // clearTimeout(timeoutId)
        }
        calls := calls + [EventCallback(args)];
      }
    }

    /** The race's timer expires (a cleared or spent timer never does). */
    method FireTimeout()
      requires Valid()
      modifies this, emitter
      ensures Valid()
      ensures State() == Step(old(State()), TimerExpires)
      ensures old(timerPending) ==> emitter.listeners == old(emitter.listeners) - multiset{Listener(name, eventHandler)}
      ensures !old(timerPending) ==> emitter.listeners == old(emitter.listeners)
    {
      if timerPending {
        timerPending := false;
        // timeoutHandler()
        emitter.RemoveListener(name, eventHandler);
        calls := calls + [TimeoutCallback];
      }
    }
  }

  /** `attachTimedEventCallback({event, timeout})`: validates first and throws
      before anything is armed; otherwise arms the race. */
  method AttachTimedEventCallback(req: Request) returns (r: Result<Race>)
    modifies req.emitter
    ensures r.Threw? <==> !WellFormed(req)
    ensures r.Threw? ==> Fails(r.error) == ValidateRequest(req)
                         && req.emitter.listeners == old(req.emitter.listeners)
    ensures r.Ok? ==> fresh(r.value) && fresh(r.value.eventHandler) && r.value.Valid()
                      && r.value.State() == Armed(Truthy(req.interval))
                      && r.value.emitter == req.emitter && r.value.name == req.name.s
                      && req.emitter.listeners == old(req.emitter.listeners)
                                                  + multiset{Listener(req.name.s, r.value.eventHandler)}
  {
    var check := ValidateRequest(req);
    if check.Fails? {
      return Threw(check.error);
    }
    var race := new Race.Arm(req.emitter, req.name.s, req.interval);
    return Ok(race);
  }

  /** Which wrapper: `waitForEvent` or `waitForNonEvent`. */
  datatype WaitKind = ForEvent | ForNonEvent

  function TimeoutMessage(interval: JsValue, name: JsValue): string {
    "Timed out after " + Show(interval) + " milliseconds waiting for event \"" + Show(name) + "\""
  }

  function NonEventMessage(name: JsValue): string {
    "Emitter emitted event \"" + Show(name) + "\""
  }

  /** `err = new Error(message); err.value = value` */
  function NonEventError(name: JsValue, value: JsValue): (e: JsValue)
    ensures e.Obj? && e.kind.ErrorObject?
    ensures GetProp(e, "message") == Str(NonEventMessage(name)) && GetProp(e, "value") == value
  {
    Obj(ErrorObject, map["message" := Str(NonEventMessage(name)), "value" := value])
  }

  /** How a wrapper's callback settles its promise. `waitForEvent` resolves with
      the first emitted value or rejects with the timeout error; `waitForNonEvent`
      rejects with the emitted value attached, or resolves with nothing. */
  function SettlementOf(kind: WaitKind, name: JsValue, interval: JsValue, calls: seq<ConsumerCall>): Settlement {
    if calls == [] then Pending
    else match calls[0]
      case EventCallback(args) =>
        if kind == ForEvent then Fulfilled(At(args, 0)) else Rejected(NonEventError(name, At(args, 0)))
      case TimeoutCallback =>
        if kind == ForEvent then Rejected(NewError(TimeoutMessage(interval, name))) else Fulfilled(Undefined)
  }

  /** The callbacks the wrappers hand to the race: fresh functions. */
  function WrapperRequest(emitter: Emitter, name: JsValue, interval: JsValue): Request {
    Request(emitter, name, Function(0), interval, Function(1))
  }

  /** A wrapper's promise and the race behind it (none when the executor threw). */
  class Waiter {
    const kind: WaitKind
    const name: JsValue
    const interval: JsValue
    const emitter: Emitter
    const race: Race?
    var promise: Settlement

    ghost predicate Valid()
      reads this, race, emitter
    {
      (race == null ==> promise.Rejected?)
      && (race != null ==>
            race.emitter == emitter && race.Valid()
            && promise == SettlementOf(kind, name, interval, race.calls))
    }

    /** The promise executor ran the attach: if it threw, the promise is rejected
        with the validation error; otherwise it is pending on a fresh race. */
    constructor (kind: WaitKind, emitter: Emitter, name: JsValue, interval: JsValue, attached: Result<Race>)
      requires attached.Ok? ==> attached.value.emitter == emitter && attached.value.Valid()
                                && attached.value.calls == []
      ensures Valid()
      ensures this.kind == kind && this.emitter == emitter && this.name == name && this.interval == interval
      ensures attached.Threw? ==> race == null && promise == Rejected(attached.error)
      ensures attached.Ok? ==> race == attached.value && promise == Pending
    {
      this.kind := kind;
      this.emitter := emitter;
      this.name := name;
      this.interval := interval;
      if attached.Threw? {
        this.race := null;
        this.promise := Rejected(attached.error);
      } else {
        this.race := attached.value;
        this.promise := Pending;
      }
    }

    /** The emitter emits the awaited event. */
    method FireEvent(args: seq<JsValue>)
      requires Valid()
      modifies this, race, emitter
      ensures Valid()
      ensures race != null ==> race.State() == Step(old(race.State()), EventFires(args))
      ensures race != null ==>
                emitter.listeners == old(emitter.listeners) - multiset{Listener(race.name, race.eventHandler)}
      ensures race == null ==> promise == old(promise) && emitter.listeners == old(emitter.listeners)
    {
      if race != null {
        var before := |race.calls|;
        race.FireEvent(args);
        if |race.calls| > before && promise.Pending? {
          // event.callback(value)
          promise := if kind == ForEvent then Fulfilled(At(args, 0)) else Rejected(NonEventError(name, At(args, 0)));
        }
      }
    }

    /** The wrapper's timer expires. */
    method FireTimeout()
      requires Valid()
      modifies this, race, emitter
      ensures Valid()
      ensures race != null ==> race.State() == Step(old(race.State()), TimerExpires)
      ensures race != null && old(race.timerPending) ==>
                emitter.listeners == old(emitter.listeners) - multiset{Listener(race.name, race.eventHandler)}
      ensures race != null && !old(race.timerPending) ==> emitter.listeners == old(emitter.listeners)
      ensures race == null ==> promise == old(promise) && emitter.listeners == old(emitter.listeners)
    {
      if race != null {
        var before := |race.calls|;
        race.FireTimeout();
        if |race.calls| > before && promise.Pending? {
          // timeout.callback()
          promise := if kind == ForEvent then Rejected(NewError(TimeoutMessage(interval, name))) else Fulfilled(Undefined);
        }
      }
    }
  }

  /** `waitForEvent(emitter, name, interval)` (kind ForEvent) and
      `waitForNonEvent(emitter, name, interval)` (kind ForNonEvent). */
  method WaitFor(kind: WaitKind, emitter: Emitter, name: JsValue, interval: JsValue) returns (w: Waiter)
    modifies emitter
    ensures fresh(w) && w.Valid() && w.kind == kind && w.emitter == emitter
    ensures w.name == name && w.interval == interval
    ensures !WellFormed(WrapperRequest(emitter, name, interval)) ==>
              w.race == null && Fails(w.promise.reason) == ValidateRequest(WrapperRequest(emitter, name, interval))
              && emitter.listeners == old(emitter.listeners)
    ensures WellFormed(WrapperRequest(emitter, name, interval)) ==>
              w.race != null && fresh(w.race) && w.promise == Pending
              && w.race.State() == Armed(Truthy(interval))
              && fresh(w.race.eventHandler) && w.race.name == name.s
              && emitter.listeners == old(emitter.listeners) + multiset{Listener(name.s, w.race.eventHandler)}
  {
    var attached := AttachTimedEventCallback(WrapperRequest(emitter, name, interval));
    w := new Waiter(kind, emitter, name, interval, attached);
  }

  /** `waitForEvent` settles by the first trigger that acts: it resolves with the
      first emitted value if the event comes first, and rejects with the exact
      timeout message if the armed timer expires first. */
  lemma WaitForEventSettles(name: JsValue, interval: JsValue, args: seq<JsValue>, rest: seq<Trigger>)
    ensures SettlementOf(ForEvent, name, interval, Run(Armed(Truthy(interval)), [EventFires(args)] + rest).calls)
            == Fulfilled(At(args, 0))
    ensures Truthy(interval) ==>
              SettlementOf(ForEvent, name, interval, Run(Armed(Truthy(interval)), [TimerExpires] + rest).calls)
              == Rejected(NewError("Timed out after " + Show(interval) + " milliseconds waiting for event \""
                                   + Show(name) + "\""))
  {
    FirstTriggerWins(Truthy(interval), [EventFires(args)] + rest);
    FirstTriggerWins(Truthy(interval), [TimerExpires] + rest);
  }

  /** `waitForNonEvent` is the dual: the event rejects with an Error whose message
      names the event and whose `value` is the emitted value; the timer resolves
      with nothing. */
  lemma WaitForNonEventSettles(name: JsValue, interval: JsValue, args: seq<JsValue>, rest: seq<Trigger>)
    ensures var p := SettlementOf(ForNonEvent, name, interval,
                                  Run(Armed(Truthy(interval)), [EventFires(args)] + rest).calls);
            p == Rejected(NonEventError(name, At(args, 0)))
            && p.reason.Obj? && p.reason.kind.ErrorObject?
            && GetProp(p.reason, "message") == Str("Emitter emitted event \"" + Show(name) + "\"")
            && GetProp(p.reason, "value") == At(args, 0)
    ensures Truthy(interval) ==>
              SettlementOf(ForNonEvent, name, interval, Run(Armed(Truthy(interval)), [TimerExpires] + rest).calls)
              == Fulfilled(Undefined)
  {
    FirstTriggerWins(Truthy(interval), [EventFires(args)] + rest);
    FirstTriggerWins(Truthy(interval), [TimerExpires] + rest);
  }

  /** Without an interval, `waitForEvent` can only resolve and `waitForNonEvent`
      can only reject; both stay pending until the event comes. */
  lemma UntimedWaitsSettleOnlyByEvent(name: JsValue, ts: seq<Trigger>)
    ensures !SettlementOf(ForEvent, name, Undefined, Run(Armed(false), ts).calls).Rejected?
    ensures !SettlementOf(ForNonEvent, name, Undefined, Run(Armed(false), ts).calls).Fulfilled?
  {
    NoTimeoutWithoutTimer(ts);
    AtMostOneConsumerCall(false, ts);
  }

  /** One instance of the timeout message: interval 50, event "ready". */
  lemma TimeoutMessageExample()
    ensures TimeoutMessage(Num(50), Str("ready")) == "Timed out after 50 milliseconds waiting for event \"ready\""
  {
    FiftyRendersAsDigits();
    assert TimeoutMessage(Num(50), Str("ready"))
           == "Timed out after " + "50" + " milliseconds waiting for event \"" + "ready" + "\"";
  }

  lemma FiftyRendersAsDigits()
    ensures Show(Num(50)) == "50"
  {
    assert NatToString(50) == NatToString(5) + [DigitChar(0)];
  }
}
