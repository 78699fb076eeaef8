# carnesen util, modelled in Dafny

This project models the core of a small Node.js utility library:

- the callback-to-promise adapter `promisify(func, options)`, with its `resolveMultiple` and
  `rejectMultiple` options;
- the timed event race `attachTimedEventCallback({event, timeout})`, which lets the first of
  an emitted event and an expiring timer win;
- the promise wrappers built on the race, `waitForEvent` and `waitForNonEvent`, and the
  older copy of all three in `src/waits.js`;
- the argument checks of `src/checks.js` and the "Expected argument" errors they throw,
  `firstDefined` and the legacy `promisify`;
- the level-filtering logger registry of `src/createLogger.js`.

Layout, one module per file:

- `jsvalues.dfy` (`JsValues`): the JavaScript values the library handles, with truthiness,
  strict equality and string conversion. It also holds the shared outcome types:
  - `Result`: a completion that may throw;
  - `Check`: a guard that passes or throws;
  - `Settlement`: a promise's state.
- `checks.dfy` (`Checks`): the pure checks of `src/checks.js`.
- `promisify.dfy` (`Promisify`): `promisify` of `src/index.js`.
  - The argument validation is a function.
  - The callback that settles the promise is a method with the two assignment loops of the
    source. It is proved against the function `EffectOf`, and the lemmas state what
    `EffectOf` promises.
- `timedrace.dfy` (`TimedRace`): the race of `src/index.js`.
  - A pure state machine (`Step`, `Run`) carries the race invariant and the "first trigger
    wins" theorem.
  - The classes `Emitter`, `Race` and `Waiter` hold the mutable state: the emitter's
    listeners, the timer slot and the wrapper's promise.
  - Each of their trigger methods ensures that the new state is `Step` of the old one.
- `waits.dfy` (`Waits`): the older copy in `src/waits.js`. It reuses the `Race` and `Waiter`
  classes, and proves that its validation agrees with the one in `src/index.js`.
- `logger.dfy` (`Logger`): `createLogger` as a class.
  - The subscriber list is a `seq` field that `Register`, `Deregister` and `Emit` reassign.
  - The level is a `nat` field.
  - Every subscriber call and every console line is recorded in a field.

Where the prose design of the library and its code differ, the model follows the code:

- `promisify` checks only that `resolveMultiple` and `rejectMultiple` are arrays, not that
  they hold strings. A non-string name becomes a property key through its string conversion
  (`Key`).
- The `options` argument only has to be an object, not a plain object. An array or a function
  passes, while `null` throws, because the default `{}` applies only to `undefined`.
- Duplicate names in `resolveMultiple` collapse onto one key holding the value of the last
  duplicate. The resolved object therefore has one key per distinct name, not one per list
  entry (`Promisify.ResolvedObjectShape`).
- The indefinite article in "Expected argument" messages is "an" only for a one-letter vowel
  type string. The regular expression `/^[aeiou]$/i` is anchored at both ends, so every
  message the library builds reads "to be a ...".
- A deregister closure never clears its `registered` flag. A second call therefore runs
  `splice(-1, 1)` and removes the last registered logger.

## Model

| member | source | states |
|---|---|---|
| JsValues.NewError | src/index.js:94 | `new Error(message)` is an Error object whose `message` property is the given string |
| Checks.ExpectedMessage | src/checks.js:39-43 | the message is, piece by piece, `Expected argument "`, the argument's name, `" to be `, the article ("an" exactly for a one-letter vowel type string, else "a"), one space, the type string, and `. Got ` followed by the rendered value |
| Checks.MakeExpectedError | src/checks.js:39-43 | the result is an Error object whose message is that "Expected argument" message |
| Checks.EveryGuardUsesArticleA | src/checks.js:45-47 | for every type string the guards pass, `startsWithVowel` is false, so the article is "a" |
| Checks.ThrowIfNotNonEmptyString | src/checks.js:53-57 | passes exactly for a string of positive length; otherwise throws the "non-empty string" error naming the argument |
| Checks.ThrowIfNotPositiveLengthString | src/checks.js:159 | the alias behaves exactly as `throwIfNotNonEmptyString`, including its default name "value" when the name is omitted |
| Checks.FirstDefined | src/checks.js:61-67 | undefined exactly when every argument is undefined; otherwise some argument that is preceded only by undefined ones |
| Checks.FirstDefinedKeepsFalsyValues | src/checks.js:61-67 | `0` and `''` count as defined and are returned; no arguments give undefined |
| Checks.LegacyPromisify | src/checks.js:78-79 | the adapter keeps `func`; `returnArray` is on exactly when `options` is an object with a truthy `returnArray` |
| Checks.LegacyCallback | src/checks.js:80-92 | the callback always calls exactly one of `reject` and `resolve`: `reject(err)` exactly when `err` is truthy; otherwise `resolve` with a fresh array of all the values (no other properties) if `returnArray` is on, else with the first value |
| Checks.ThrowIf | src/checks.js:97-101 | throws `new Error(message)` exactly when the condition is truthy |
| Checks.ThrowIfEmptyObject | src/checks.js:103-107 | throws exactly for a plain object with no own keys, with the "not to be an empty object" error |
| Checks.ThrowIfNot | src/checks.js:109-113 | throws `new Error(message)` exactly when the condition is falsy |
| Checks.ThrowIfNotArray | src/checks.js:115-119 | passes exactly for an array; otherwise throws the "array" error |
| Checks.ThrowIfNotBoolean | src/checks.js:121-125 | passes exactly for a boolean; otherwise throws the "boolean" error |
| Checks.ThrowIfNotFunction | src/checks.js:127-131 | passes exactly for a function; otherwise throws the "function" error |
| Checks.ThrowIfNotObject | src/checks.js:133-137 | passes exactly for an object (arrays and functions included); otherwise throws the "object" error |
| Checks.ThrowIfNotPositiveNumber | src/checks.js:139-143 | passes exactly for a number that is not NaN and is greater than zero; otherwise throws the "positive number" error |
| Checks.ThrowIfNotString | src/checks.js:145-149 | passes exactly for a string; otherwise throws the "string" error |
| Checks.ThrowIfNotNonEmptyObject | src/checks.js:151-155 | passes exactly for an object that is not an empty plain object; otherwise throws the "non-empty object" error |
| Checks.ThrowIfDefined | src/checks.js:161-165 | throws exactly when the value is not undefined, with the "undefined value" error |
| Checks.ThrowIfUndefined | src/checks.js:167-171 | throws exactly when the value is undefined, with the "defined value" error |
| Checks.OmittedNameReadsValue | src/checks.js:167 | a guard called without a name (here `throwIfUndefined`, `throwIfNotFunction`, `throwIfNotArray` and the alias `throwIfNotPositiveLengthString`) throws the "Expected argument" error naming the argument "value", the default of the guards that have one |
| Promisify.Promisify | src/index.js:12-17 | succeeds exactly when `func` is a function, `options` is undefined or an object, and both lists (defaulting to `[]`) are arrays; otherwise throws the error of the first failing check, in the order func, options, resolveMultiple, rejectMultiple; the adapter holds the two lists' elements |
| Promisify.ListsDefaultToEmpty | src/index.js:12-15 | omitted options and `{}` both give two empty lists |
| Promisify.NonArrayRejectMultipleThrows | src/index.js:17 | a `rejectMultiple` that is not an array throws the "options.rejectMultiple" array error |
| Promisify.LastKeyIndex | src/index.js:25-28 | the index of the last name that writes a key, or -1 when none does |
| Promisify.AssignedLookup | src/index.js:34-37 | after the loop of assignments, a key holds the value at the position of the last name that writes it; a key no name writes keeps its old value or stays absent |
| Promisify.AssignedKeys | src/index.js:34-37 | the assignments add exactly the keys the names stand for |
| Promisify.Callback | src/index.js:22-43 | the callback's two for-of loops compute exactly `EffectOf`: reject with `err` carrying the `rejectMultiple` fields, resolve with a fresh object carrying the `resolveMultiple` fields, or resolve with the first value |
| Promisify.SettlesOnceByTruthiness | src/index.js:23-42 | the callback calls exactly one of `resolve` and `reject`, and calls `reject` iff `err` is truthy, unless fields are written onto a primitive `err` (a TypeError in strict code) |
| Promisify.ResolvesFirstValue | src/index.js:39-41 | without `resolveMultiple`, success resolves with the first value (undefined when there is none) and drops the rest |
| Promisify.ResolvedObjectShape | src/index.js:31-38 | with `resolveMultiple`, success resolves with a plain object whose keys are exactly the names, each holding the value at the last position that names it |
| Promisify.ResolvedObjectDistinctNames | src/index.js:31-38 | with distinct names, the i-th name holds the i-th value |
| Promisify.RejectionWritesListedFieldsOnly | src/index.js:23-29 | on error, the reason is `err` with the listed fields written; its kind is kept and all its other fields are unchanged |
| Promisify.EmptyRejectMultipleKeepsErr | src/index.js:23-29 | with no `rejectMultiple`, the reason is `err` untouched |
| Promisify.LegacyAgreesWithoutOptions | src/index.js:12-46 | without options, this adapter settles exactly as the legacy adapter of src/checks.js:78-93 |
| TimedRace.Emitter.Once | src/index.js:77 | `once` adds one listener for the event name |
| TimedRace.Emitter.RemoveListener | src/index.js:69 | `removeListener` removes one listener for that name and handler, and does nothing when none is left |
| TimedRace.Emitter.TakeOnce | src/index.js:61 | emitting reaches a once-listener only while it is registered, and unregisters it |
| TimedRace.StepKeepsInv | src/index.js:61-75 | one trigger keeps the race invariant and only appends consumer callbacks |
| TimedRace.RunKeepsInv | src/index.js:61-77 | any sequence of triggers keeps the race invariant and whether a timer was armed |
| TimedRace.SettledIsFinal | src/index.js:61-71 | once a consumer callback has run, no later trigger changes the race |
| TimedRace.AtMostOneConsumerCall | src/index.js:59-77 | at most one of `event.callback` and `timeout.callback` ever runs |
| TimedRace.NoTimeoutWithoutTimer | src/index.js:73-75 | without an interval, `timeout.callback` never runs |
| TimedRace.FirstTriggerWins | src/index.js:59-77 | the consumer callback that runs is exactly the first trigger that can act: the first event, or the first expiry of an armed timer |
| TimedRace.FirstFailure | src/index.js:49-57 | guards run in order: pass iff all pass, else the first failure |
| TimedRace.ValidateRequest | src/index.js:49-57 | passes exactly for a well-formed request; a failure is the first failing check in source order |
| TimedRace.ValidIntervalArmsIffDefined | src/index.js:55-57 | after validation, the interval is truthy exactly when it is defined, so a timer is armed iff an interval is given |
| TimedRace.Race.Arm | src/index.js:73-77 | a timer is armed iff the interval is truthy, and exactly one fresh listener is added for the event name |
| TimedRace.Race.FireEvent | src/index.js:61-66 | the new race state is `Step` of the old one on the event, and the race's listener is gone from the emitter |
| TimedRace.Race.FireTimeout | src/index.js:68-71 | the new race state is `Step` of the old one on expiry, and the listener is removed only if the timer was pending |
| TimedRace.AttachTimedEventCallback | src/index.js:48-78 | throws the first validation error and leaves the emitter untouched on a malformed request; otherwise returns an armed race with exactly one new listener |
| TimedRace.NonEventError | src/index.js:108-110 | the rejection error names the event and carries the emitted value as `value` |
| TimedRace.Waiter.constructor | src/index.js:81-82 | an executor that throws rejects the promise with the validation error; otherwise the promise is pending on the race |
| TimedRace.Waiter.FireEvent | src/index.js:86-88 | the emitted event steps the race, the promise stays the settlement of the race's first callback, and only the race's own listener leaves the emitter |
| TimedRace.Waiter.FireTimeout | src/index.js:92-95 | the expiry steps the race, the promise stays the settlement of the race's first callback, and only the race's own listener leaves the emitter, and only if the timer was pending |
| TimedRace.WaitFor | src/index.js:80-119 | a malformed call gives a promise rejected with the first validation error and an untouched emitter; otherwise a pending promise on a freshly armed race, whose one fresh listener is the only change to the emitter's listeners |
| TimedRace.WaitForEventSettles | src/index.js:80-99 | an event first calls `resolve` with the first emitted value; an armed timer first rejects with the exact "Timed out after ... milliseconds waiting for event ..." message |
| TimedRace.WaitForNonEventSettles | src/index.js:101-119 | an event first rejects with an Error object whose message names the event and whose `value` is the emitted value; an armed timer first resolves |
| TimedRace.UntimedWaitsSettleOnlyByEvent | src/index.js:73-75 | without an interval, `waitForEvent` never rejects and `waitForNonEvent` never resolves |
| TimedRace.TimeoutMessageExample | src/index.js:93 | interval 50 and event "ready" give "Timed out after 50 milliseconds waiting for event "ready"" |
| Waits.ValidateRequest | src/waits.js:7-15 | the checks of src/waits.js accept and reject exactly as those of src/index.js, with the same first error |
| Waits.AttachTimedEventCallback | src/waits.js:5-37 | throws the first validation error and leaves the emitter untouched on a malformed request; otherwise returns an armed race with exactly one new listener |
| Waits.WaitForEvent | src/waits.js:39-60 | a malformed call gives a promise rejected with the first validation error and an untouched emitter; otherwise a pending promise on a freshly armed race, whose one fresh listener is the only change to the emitter's listeners |
| Waits.WaitForNonEvent | src/waits.js:62-82 | a malformed call gives a promise rejected with the first validation error and an untouched emitter; otherwise a pending promise on a freshly armed race, whose one fresh listener is the only change to the emitter's listeners |
| Logger.IndexOf | src/createLogger.js:32 | `indexOf` gives the first position holding a strictly equal value, or -1 when there is none |
| Logger.GetLevelIndex | src/createLogger.js:9-15 | succeeds exactly for the four level names, giving their position; anything else throws `Invalid level "..."` |
| Logger.LevelIndices | src/createLogger.js:7 | debug, info, warn and error are levels 0 to 3 |
| Logger.DeregisterRemovesFirstOccurrence | src/createLogger.js:28-34 | deregistering a registered logger removes its first occurrence and keeps the others in order |
| Logger.DeregisterAbsentRemovesLast | src/createLogger.js:32-33 | deregistering a logger that is not in the list removes the last logger (`splice(-1, 1)`) |
| Logger.SecondDeregisterDropsLast | src/createLogger.js:24-35 | calling one deregister closure twice first undoes its registration, then drops the last other logger |
| Logger.ConsoleLines | src/createLogger.js:47-53 | `consoleLogger` throws for an invalid level; it prints the arguments after the level once when the level is at or above the current one, and nothing otherwise |
| Logger.OnlyErrorPassesAtErrorLevel | src/createLogger.js:47-53 | at level "error", only an "error" call reaches the console |
| Logger.ConsoleRoundWithoutConsole | src/createLogger.js:55-63 | a round prints nothing when the console logger is not registered |
| Logger.ConsoleRoundOnce | src/createLogger.js:55-63 | with the console logger registered once, a round prints exactly what one `consoleLogger` call prints |
| Logger.Logger.Register | src/createLogger.js:24-27 | a non-function throws the "function" error and leaves the list alone; a function is appended and a deregister closure is returned |
| Logger.Logger.Deregister | src/createLogger.js:28-34 | the list becomes `splice(indexOf(logger), 1)` of the old list |
| Logger.Logger.SetLevel | src/createLogger.js:37-39 | a valid level becomes the current level; an invalid one throws and the level is kept |
| Logger.Logger.ConsoleLogger | src/createLogger.js:47-53 | the console gets exactly the lines of `ConsoleLines` for the current level, or nothing when it throws |
| Logger.Logger.React | src/createLogger.js:24-34 | a subscriber's register or deregister call during a round changes the list exactly as `register` or the deregister closure does |
| Logger.Logger.Emit | src/createLogger.js:59-63 | every logger in the list as it was when `_log` started is called once, in order, with the same arguments, whatever the loggers do to the list meanwhile; their registrations and deregistrations take effect in order |
| Logger.Logger.Log | src/createLogger.js:65-67 | `log(...args)` is a round with level "info" first |
| Logger.Logger.LogAt | src/createLogger.js:72 | `log.debug/info/warn/error` are rounds with their level name first |
| Logger.CreateLogger | src/createLogger.js:17-57 | an invalid `options.level` throws before anything is registered; otherwise the level is that index ("info" by default); the debug logger is registered unless `options.debug === false`, and the console logger only if `options.console === true` |

## Left out

- `delay(interval)` (src/index.js:121-126, src/waits.js:84-89) is left out: it only measures wall-clock time.
- Real timers, promises and the event loop are not modelled. A timer is a pending flag, and its expiry is the `FireTimeout` method. A promise is a `Settlement` field that the methods settle at most once.
- The event emitter's implementation is not part of this model. The emitter is a multiset of listeners with the `once` and `removeListener` behaviour the race relies on. Handlers are identified by fresh `Closure` objects.
- TimedRace.AtMostOneConsumerCall, TimedRace.FirstTriggerWins: at most one consumer callback runs only because `removeListener` really removes the listener, as `Emitter.RemoveListener` does. An emitter whose `removeListener` does nothing (like the stub emitter of the source's own tests) lets the event still reach the handler after the timeout, and then both callbacks run. Such emitters are not modelled.
- A synchronous emit from inside `once` is not modelled. Events fire only through `FireEvent` after the attach returns.
- A null or undefined `event` or `event.emitter` makes the read of `event.emitter.once` throw a TypeError in the source, and a null or undefined `timeout` does the same at the read of `timeout.callback`. The model's `Request` always has an emitter object, so these TypeErrors are not modelled. A primitive emitter such as `5` is not modelled either; in the source it reads `once` as undefined and fails the ordinary "function" check.
- Numbers are unbounded integers plus NaN. Fractions, infinities and `-0` are not modelled. Integers beyond 2^53 are exact here but not in JavaScript, and `NatToString` writes every digit where JavaScript's `String(n)` switches to exponent form from 1e21 on (`1e+21`); the timeout message, the "Got ..." tail of `ExpectedMessage` and `Key` differ from JavaScript's for such numbers.
- Object identity is modelled only for functions (by id) and for the race's handlers. Objects are values, so when `promisify`'s callback writes fields onto `err`, aliases of that `err` are not updated.
- Promisify.Promisify, Checks.LegacyPromisify: the adapter copies `resolveMultiple`, `rejectMultiple` and `returnArray` when it is built. The source reads the live option objects when the callback runs, so a caller that mutates them in between is not modelled.
- Field writes onto an array `err` are modelled as property writes, not as element writes.
- `Show`, the string conversion, ignores custom `toString` methods, renders functions as "[Function]" rather than their source text, and reads only a string `message` of an Error. It always renders an Error as "Error: <message>" (or "Error" for an empty message), while `Error.prototype.toString` reads the Error's own `name` property, which `rejectMultiple: ['name']` can overwrite. Symbols are not modelled.
- Objects whose string conversion throws or differs from "[object Object]" are not modelled. A null-prototype object (`Object.create(null)`) makes `${value}` throw a TypeError, so `throwIfNotArray` of one throws that TypeError instead of the "Expected argument" error, and the same object used as a `resolveMultiple` name throws too. Built-ins with their own `toString`, such as Date and RegExp, render differently. `OtherObject` stands only for objects that render as "[object Object]".
- `@carnesen/checks`, imported by src/index.js, is not part of this model. Its guards are modelled by the guards of src/checks.js, with the same names, messages and order.
- The invocation of `func` by the promisified function is not modelled. `func` is a caller-supplied function, so the model starts at the callback it calls.
- Checks.LegacyCallback, Promisify.SettlesOnceByTruthiness, TimedRace.WaitForEventSettles: a `Fulfilled(v)` settlement means that `resolve(v)` was called. JavaScript's `resolve` follows a thenable `v` (an object with a `then` method), and the model does not. In the source, `callback(null, Promise.reject(e))` rejects, a `resolveMultiple` name `'then'` with a function value makes `resolve` call that function, an emitted thenable is followed by `waitForEvent`, and `callback(null, {then() {}})` leaves the promise pending for good.
- Exceptions thrown by subscribers inside `_log` are not modelled. In particular, a `register` of a non-function during a round aborts the source's `forEach`, while `Logger.Logger.Emit` ignores the failed registration and goes on.
- A subscriber that calls `setLevel` during a round is not modelled. `Reaction` covers only register and deregister.
- Logger.Logger.Emit: each subscriber call performs at most one register or deregister (`Reaction`). Several registry changes within one subscriber call, and a nested `log(...)` round started from inside a subscriber, are not modelled.
- Promisify.EffectOf: every name is an ordinary own-property write. Names that hit inherited accessors or read-only properties are not modelled:
  - `'__proto__'` invokes the `Object.prototype` setter, so `resolveMultiple: ['__proto__']` resolves `{}` in the source, while the model resolves an object with a `__proto__` key (`Promisify.ResolvedObjectShape` then does not hold of the source);
  - the same name on a truthy primitive `err` does not throw in the source, while the model gives `ThrowsTypeError`;
  - a read-only own property such as `name` on a function `err` makes the write throw a TypeError in strict code, while the model writes the field.
- The debug package is not part of this model. `debug(name)` is an opaque function value, and the `name` argument of `createLogger` only feeds it. `console.log` is recorded as a list of printed argument lists.
- Checks.ThrowIfEmptyObject: an omitted `name` renders as "undefined" in the source, because that guard has no default name. The model always takes a name.
- The guard predicates (`isArray`, `isBoolean`, `isDefined`, `isEmptyObject`, `isFunction`, `isNumber`, `isObject`, `isPositiveNumber`, `isString`, `isUndefined`, `startsWithVowel`) are the predicates of the same names in `Checks`. Their meaning is stated by the contracts of the guards that use them.
