/** The logger of src/createLogger.js: a level index and an in-place list of
    subscriber functions. `_log` calls every subscriber of a snapshot of the list,
    in order; the built-in console subscriber filters by level. The `debug`
    package and `console.log` are outside the model: the debug subscriber is an
    opaque function identity, and console output is recorded as a list of lines. */
module Logger {
  import opened JsValues
  import opened Checks

  const Levels: seq<string> := ["debug", "info", "warn", "error"]

  /** `levels.indexOf(x)` and `_registeredLoggers.indexOf(x)`: the first position
      holding a value strictly equal to `x`, or -1. */
  function IndexOf(s: seq<JsValue>, x: JsValue): (r: int)
    ensures -1 <= r < |s|
    ensures r >= 0 ==> StrictEquals(s[r], x)
    ensures forall j :: 0 <= j < |s| && (r < 0 || j < r) ==> !StrictEquals(s[j], x)
  {
    if s == [] then -1
    else if StrictEquals(s[0], x) then 0
    else
      var r := IndexOf(s[1..], x);
      assert forall j :: 1 <= j < |s| ==> s[j] == s[1..][j - 1];
      if r < 0 then -1 else r + 1
  }

  /** `getLevelIndex(level)`: the position of the level name, or the "Invalid level"
      error for anything that is not one of the four names. */
  function GetLevelIndex(level: JsValue): (r: Result<nat>)
    ensures r.Ok? <==> level.Str? && level.s in Levels
    ensures r.Ok? ==> r.value < |Levels| && level == Str(Levels[r.value])
    ensures r.Threw? ==> r.error == NewError("Invalid level \"" + Show(level) + "\"")
  {
    var names := [Str("debug"), Str("info"), Str("warn"), Str("error")];
    var i := IndexOf(names, level);
    assert forall j :: 0 <= j < 4 ==> names[j] == Str(Levels[j]);
    if i == -1 then Threw(NewError("Invalid level \"" + Show(level) + "\"")) else Ok(i)
  }

  /** The level names map to 0, 1, 2, 3 in order. */
  lemma LevelIndices()
    ensures GetLevelIndex(Str("debug")) == Ok(0) && GetLevelIndex(Str("info")) == Ok(1)
    ensures GetLevelIndex(Str("warn")) == Ok(2) && GetLevelIndex(Str("error")) == Ok(3)
  {
  }

  /** `array.splice(start, 1)`: a negative start counts from the end, so -1 names
      the last element. */
  function SpliceOne(s: seq<JsValue>, start: int): seq<JsValue> {
    var k := if start < 0 then (if |s| + start < 0 then 0 else |s| + start)
             else (if start > |s| then |s| else start);
    if k < |s| then s[..k] + s[k + 1..] else s
  }

  /** The list after one call of a deregister closure for `logger`. */
  function Deregistered(s: seq<JsValue>, logger: JsValue): seq<JsValue> {
    SpliceOne(s, IndexOf(s, logger))
  }

  /** Deregistering a registered logger removes its first occurrence and keeps the
      order of all the others. */
  lemma DeregisterRemovesFirstOccurrence(s: seq<JsValue>, logger: JsValue, i: nat)
    requires i < |s| && StrictEquals(s[i], logger)
    ensures var k := IndexOf(s, logger);
            0 <= k <= i && StrictEquals(s[k], logger)
            && (forall j :: 0 <= j < k ==> !StrictEquals(s[j], logger))
            && Deregistered(s, logger) == s[..k] + s[k + 1..]
  {
  }

  /** Deregistering a logger that is not in the list (a second call of the same
      closure, since its `registered` flag is never cleared) finds -1, and
      `splice(-1, 1)` removes the LAST logger. */
  lemma DeregisterAbsentRemovesLast(s: seq<JsValue>, logger: JsValue)
    requires forall j :: 0 <= j < |s| ==> !StrictEquals(s[j], logger)
    ensures Deregistered(s, logger) == if s == [] then [] else s[..|s| - 1]
  {
  }

  /** The whole quirk: register a fresh logger onto `s`, call its deregister closure
      twice; the first call undoes the registration, the second drops the last
      logger of `s`. */
  lemma {:induction false} SecondDeregisterDropsLast(s: seq<JsValue>, logger: JsValue)
    requires forall j :: 0 <= j < |s| ==> !StrictEquals(s[j], logger)
    requires StrictEquals(logger, logger)
    ensures Deregistered(s + [logger], logger) == s
    ensures Deregistered(Deregistered(s + [logger], logger), logger) == if s == [] then [] else s[..|s| - 1]
  {
    var t := s + [logger];
    assert forall j :: 0 <= j < |s| ==> t[j] == s[j];
    assert t[|s|] == logger;
    var k := IndexOf(t, logger);
    assert k == |s|;
    assert t[..|s|] == s;
    DeregisterAbsentRemovesLast(s, logger);
  }

  /** What `consoleLogger(...args)` prints: it throws for an invalid level in
      `args[0]`; it prints `args[1..]` once when that level is at or above the
      current one, and nothing otherwise. */
  function ConsoleLines(args: seq<JsValue>, current: nat): (r: Result<seq<seq<JsValue>>>)
    ensures r.Threw? <==> GetLevelIndex(At(args, 0)).Threw?
    ensures r.Threw? ==> r.error == GetLevelIndex(At(args, 0)).error
    ensures r.Ok? ==> |r.value| <= 1
                      && (r.value != [] <==> GetLevelIndex(At(args, 0)).value >= current)
                      && (r.value != [] ==> r.value[0] == args[1..])
  {
    var level := GetLevelIndex(At(args, 0));
    if level.Threw? then Threw(level.error)
    else if level.value < current then Ok([])
    else Ok([args[1..]])
  }

  /** At level "error" only one of the four level calls reaches the console. */
  lemma OnlyErrorPassesAtErrorLevel(i: nat, rest: seq<JsValue>)
    requires i < |Levels|
    ensures ConsoleLines([Str(Levels[i])] + rest, 3) == Ok(if i == 3 then [rest] else [])
  {
    var args := [Str(Levels[i])] + rest;
    assert At(args, 0) == Str(Levels[i]);
    assert args[1..] == rest;
    assert GetLevelIndex(Str(Levels[i])) == Ok(i) by { LevelIndices(); }
  }

  /** One call of a subscriber by `_log`. */
  datatype Delivery = Delivery(subscriber: JsValue, args: seq<JsValue>)

  /** The closure `register` returns; its `registered` flag is always true. */
  datatype Deregistration = Deregistration(logger: JsValue)

  /** What a subscriber does to the registry while it is being called. */
  datatype Reaction = NoReaction | Registers(logger: JsValue) | Deregisters(d: Deregistration)

  /** The list after `register(logger)`. */
  function RegisteredWith(s: seq<JsValue>, logger: JsValue): seq<JsValue> {
    if IsFunction(logger) then s + [logger] else s
  }

  /** The list after the first `n` reactions, in order. */
  function AfterReactions(s: seq<JsValue>, reactions: seq<Reaction>, n: nat): seq<JsValue>
    decreases n
  {
    if n == 0 then s
    else
      var prev := AfterReactions(s, reactions, n - 1);
      Reacted(prev, if n - 1 < |reactions| then reactions[n - 1] else NoReaction)
  }

  /** The list after one reaction. */
  function Reacted(s: seq<JsValue>, reaction: Reaction): seq<JsValue> {
    match reaction
    case NoReaction => s
    case Registers(f) => RegisteredWith(s, f)
    case Deregisters(d) => Deregistered(s, d.logger)
  }

  /** One call per subscriber of the snapshot, in order, all with the same arguments. */
  function Fanout(snapshot: seq<JsValue>, args: seq<JsValue>): seq<Delivery> {
    seq(|snapshot|, i requires 0 <= i < |snapshot| => Delivery(snapshot[i], args))
  }

  /** The console lines a round prints: those of the console subscriber, once for
      each time it occurs in the snapshot. */
  function ConsoleRound(snapshot: seq<JsValue>, consoleLogger: JsValue, args: seq<JsValue>, current: nat): seq<seq<JsValue>>
    decreases |snapshot|
  {
    if snapshot == [] then []
    else
      var before := ConsoleRound(snapshot[..|snapshot| - 1], consoleLogger, args, current);
      var out := ConsoleLines(args, current);
      if StrictEquals(snapshot[|snapshot| - 1], consoleLogger) && out.Ok? then before + out.value else before
  }

  /** A round whose snapshot does not hold the console subscriber prints nothing. */
  lemma {:induction false} ConsoleRoundWithoutConsole(snapshot: seq<JsValue>, consoleLogger: JsValue, args: seq<JsValue>, current: nat)
    requires forall j :: 0 <= j < |snapshot| ==> !StrictEquals(snapshot[j], consoleLogger)
    ensures ConsoleRound(snapshot, consoleLogger, args, current) == []
    decreases |snapshot|
  {
    if snapshot != [] {
      var prefix := snapshot[..|snapshot| - 1];
      assert forall j :: 0 <= j < |prefix| ==> prefix[j] == snapshot[j];
      ConsoleRoundWithoutConsole(prefix, consoleLogger, args, current);
    }
  }

  /** With the console subscriber registered once (as `createLogger` does when
      `options.console === true`), a round prints exactly what one
      `consoleLogger` call prints. */
  lemma {:induction false} ConsoleRoundOnce(snapshot: seq<JsValue>, consoleLogger: JsValue, args: seq<JsValue>, current: nat, i: nat)
    requires i < |snapshot| && StrictEquals(snapshot[i], consoleLogger)
    requires forall j :: 0 <= j < |snapshot| && j != i ==> !StrictEquals(snapshot[j], consoleLogger)
    requires ConsoleLines(args, current).Ok?
    ensures ConsoleRound(snapshot, consoleLogger, args, current) == ConsoleLines(args, current).value
    decreases |snapshot|
  {
    var prefix := snapshot[..|snapshot| - 1];
    assert forall j :: 0 <= j < |prefix| ==> prefix[j] == snapshot[j];
    if i == |snapshot| - 1 {
      ConsoleRoundWithoutConsole(prefix, consoleLogger, args, current);
    } else {
      ConsoleRoundOnce(prefix, consoleLogger, args, current, i);
    }
  }

  /** The logger returned by `createLogger`; its methods are the members of `log`. */
  class Logger {
    const debugLogger: JsValue              // `debug(name)`
    const consoleLogger: JsValue            // the closure `consoleLogger`
    var registered: seq<JsValue>            // `_registeredLoggers`
    var levelIndex: nat                     // `_levelIndex`
    var deliveries: seq<Delivery>           // every subscriber call made by `_log`
    var consoleLines: seq<seq<JsValue>>     // every `console.log` made by `consoleLogger`

    ghost predicate Valid()
      reads this
    {
      levelIndex < |Levels|
      && IsFunction(debugLogger) && IsFunction(consoleLogger) && !StrictEquals(debugLogger, consoleLogger)
    }

    constructor (levelIndex: nat, debugLogger: JsValue, consoleLogger: JsValue)
      requires levelIndex < |Levels|
      requires IsFunction(debugLogger) && IsFunction(consoleLogger) && !StrictEquals(debugLogger, consoleLogger)
      ensures Valid()
      ensures this.levelIndex == levelIndex && this.debugLogger == debugLogger && this.consoleLogger == consoleLogger
      ensures registered == [] && deliveries == [] && consoleLines == []
    {
      this.levelIndex := levelIndex;
      this.debugLogger := debugLogger;
      this.consoleLogger := consoleLogger;
      this.registered := [];
      this.deliveries := [];
      this.consoleLines := [];
    }

    /** `register(logger)`: throws for a non-function; otherwise appends it and
        returns its deregister closure. */
    method Register(logger: JsValue) returns (r: Result<Deregistration>)
      modifies this`registered
      ensures !IsFunction(logger) ==> r == Threw(MakeExpectedError(logger, DefaultName, "function"))
      ensures IsFunction(logger) ==> r == Ok(Deregistration(logger))
      ensures registered == RegisteredWith(old(registered), logger)
    {
      var check := ThrowIfNotFunction(logger, DefaultName);
      if check.Fails? {
        return Threw(check.error);
      }
      registered := registered + [logger];
      return Ok(Deregistration(logger));
    }

    /** Calling a deregister closure: `splice(indexOf(logger), 1)`. */
    method Deregister(d: Deregistration)
      modifies this`registered
      ensures registered == Deregistered(old(registered), d.logger)
    {
      var index := IndexOf(registered, d.logger);
      registered := SpliceOne(registered, index);
    }

    /** `setLevel(level)`: on an invalid level it throws and the level stays. */
    method SetLevel(level: JsValue) returns (r: Check)
      requires Valid()
      modifies this`levelIndex
      ensures Valid()
      ensures GetLevelIndex(level).Ok? ==> r == Passes && levelIndex == GetLevelIndex(level).value
      ensures GetLevelIndex(level).Threw? ==> r == Fails(GetLevelIndex(level).error) && levelIndex == old(levelIndex)
    {
      var index := GetLevelIndex(level);
      if index.Threw? {
        return Fails(index.error);
      }
      levelIndex := index.value;
      return Passes;
    }

    /** `consoleLogger(...args)` */
    method ConsoleLogger(args: seq<JsValue>) returns (r: Check)
      modifies this`consoleLines
      ensures var out := ConsoleLines(args, levelIndex);
              (out.Threw? ==> r == Fails(out.error) && consoleLines == old(consoleLines))
              && (out.Ok? ==> r == Passes && consoleLines == old(consoleLines) + out.value)
    {
      var index := GetLevelIndex(At(args, 0));
      if index.Threw? {
        return Fails(index.error);
      }
      if index.value < levelIndex {
        return Passes;
      }
      consoleLines := consoleLines + [args[1..]];
      return Passes;
    }

    /** What a subscriber does to the registry while `_log` calls it. */
    method React(reaction: Reaction)
      modifies this`registered
      ensures registered == Reacted(old(registered), reaction)
    {
      match reaction {
        case NoReaction =>
        case Registers(f) =>
          var _ := Register(f);
        case Deregisters(d) =>
          Deregister(d);
      }
    }

    /** `_log(...args)`: copies the list, then calls each subscriber of the copy
        once, in order. `reactions[i]` is what the i-th subscriber does to the
        registry while it runs; it changes the list but not the round. */
    method Emit(args: seq<JsValue>, reactions: seq<Reaction>)
      requires Valid()
      requires GetLevelIndex(At(args, 0)).Ok?
      modifies this`registered, this`deliveries, this`consoleLines
      ensures Valid()
      ensures deliveries == old(deliveries) + Fanout(old(registered), args)
      ensures consoleLines == old(consoleLines) + ConsoleRound(old(registered), consoleLogger, args, levelIndex)
      ensures registered == AfterReactions(old(registered), reactions, |old(registered)|)
    {
      var snapshot := registered;
      var i := 0;
      while i < |snapshot|
        invariant 0 <= i <= |snapshot|
        invariant deliveries == old(deliveries) + Fanout(snapshot[..i], args)
        invariant consoleLines == old(consoleLines) + ConsoleRound(snapshot[..i], consoleLogger, args, levelIndex)
        invariant registered == AfterReactions(snapshot, reactions, i)
      {
        var subscriber := snapshot[i];
        assert snapshot[..i + 1][..i] == snapshot[..i];
        deliveries := deliveries + [Delivery(subscriber, args)];
        if StrictEquals(subscriber, consoleLogger) {
          var _ := ConsoleLogger(args);
        }
        React(if i < |reactions| then reactions[i] else NoReaction);
        i := i + 1;
      }
      assert snapshot[..i] == snapshot;
    }

    /** `log(...args)` is `log.info(...args)`. */
    method Log(args: seq<JsValue>, reactions: seq<Reaction>)
      requires Valid()
      modifies this`registered, this`deliveries, this`consoleLines
      ensures Valid()
      ensures deliveries == old(deliveries) + Fanout(old(registered), [Str("info")] + args)
      ensures consoleLines == old(consoleLines) + ConsoleRound(old(registered), consoleLogger, [Str("info")] + args, levelIndex)
      ensures registered == AfterReactions(old(registered), reactions, |old(registered)|)
    {
      LogAt(1, args, reactions);
    }

    /** `log.debug`, `log.info`, `log.warn`, `log.error`: the level name goes first. */
    method LogAt(level: nat, args: seq<JsValue>, reactions: seq<Reaction>)
      requires Valid() && level < |Levels|
      modifies this`registered, this`deliveries, this`consoleLines
      ensures Valid()
      ensures deliveries == old(deliveries) + Fanout(old(registered), [Str(Levels[level])] + args)
      ensures consoleLines == old(consoleLines)
                              + ConsoleRound(old(registered), consoleLogger, [Str(Levels[level])] + args, levelIndex)
      ensures registered == AfterReactions(old(registered), reactions, |old(registered)|)
    {
      LevelIndices();
      Emit([Str(Levels[level])] + args, reactions);
    }
  }

  /** `createLogger(name, options)`. `debugLogger` stands for `debug(name)` and
      `consoleLogger` for the logger's own console closure. The level is read first
      (an invalid one throws before anything is registered); the debug subscriber
      is registered unless `options.debug === false`, the console subscriber only
      if `options.console === true`. */
  method CreateLogger(options: JsValue, debugLogger: JsValue, consoleLogger: JsValue) returns (r: Result<Logger>)
    requires IsFunction(debugLogger) && IsFunction(consoleLogger) && !StrictEquals(debugLogger, consoleLogger)
    ensures var opts := Or(options, EmptyObject);
            var level := GetLevelIndex(Or(GetProp(opts, "level"), Str("info")));
            (level.Threw? ==> r == Threw(level.error))
            && (level.Ok? ==>
                  r.Ok? && fresh(r.value) && r.value.Valid() && r.value.levelIndex == level.value
                  && r.value.debugLogger == debugLogger && r.value.consoleLogger == consoleLogger
                  && r.value.registered == (if GetProp(opts, "debug") != Bool(false) then [debugLogger] else [])
                                           + (if GetProp(opts, "console") == Bool(true) then [consoleLogger] else [])
                  && r.value.deliveries == [] && r.value.consoleLines == [])
  {
    var opts := Or(options, EmptyObject);
    var level := GetLevelIndex(Or(GetProp(opts, "level"), Str("info")));
    if level.Threw? {
      return Threw(level.error);
    }
    var log := new Logger(level.value, debugLogger, consoleLogger);
    if GetProp(opts, "debug") != Bool(false) {
      var _ := log.Register(debugLogger);
    }
    if GetProp(opts, "console") == Bool(true) {
      var _ := log.Register(consoleLogger);
    }
    return Ok(log);
  }
}
