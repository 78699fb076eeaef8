/** The argument checks of src/checks.js: type predicates, the "Expected argument"
    error builder, the guards that throw it, `firstDefined`, and the legacy
    callback-to-promise adapter with its `returnArray` option. */
module Checks {
  import opened JsValues

  /** The name a guard reports when its caller gives none. */
  const DefaultName := "value"

  predicate IsArray(v: JsValue) { v.Obj? && v.kind.ArrayObject? }

  predicate IsBoolean(v: JsValue) { v.Bool? }

  predicate IsUndefined(v: JsValue) { v.Undefined? }

  predicate IsDefined(v: JsValue) { !IsUndefined(v) }

  /** `value === Object(value)`: every object, array and function; no primitive. */
  predicate IsObject(v: JsValue) { v.Obj? }

  /** An object with no own enumerable keys whose constructor is `Object`. */
  predicate IsEmptyObject(v: JsValue) {
    IsObject(v) && |v.props| == 0 && v.kind.PlainObject?
  }

  predicate IsFunction(v: JsValue) { v.Obj? && v.kind.FunctionObject? }

  /** Of type number and not NaN. */
  predicate IsNumber(v: JsValue) { v.Num? }

  predicate IsPositiveNumber(v: JsValue) { IsNumber(v) && v.n > 0 }

  predicate IsString(v: JsValue) { v.Str? }

  /** The test `/^[aeiou]$/i`: anchored at both ends, so only a one-letter vowel
      string matches. */
  predicate StartsWithVowel(str: string) {
    |str| == 1 && str[0] in "aeiouAEIOU"
  }

  function Article(typeString: string): string {
    if StartsWithVowel(typeString) then "an" else "a"
  }

  const MessageLead := "Expected argument \""
  const ToBe := "\" to be "

  /** The message of the error that `makeExpectedError` builds. */
  function ExpectedMessage(value: JsValue, name: string, typeString: string): (m: string)
    // the argument's name can be read back from a fixed position
    ensures |m| >= |MessageLead| + |name| + |ToBe| + 2
    ensures m[..|MessageLead|] == MessageLead
    ensures m[|MessageLead|..|MessageLead| + |name|] == name
    ensures m[|MessageLead| + |name|..|MessageLead| + |name| + |ToBe|] == ToBe
    // the article is "an" only for a one-letter vowel type string
    ensures var at := |MessageLead| + |name| + |ToBe|;
            m[at..at + 2] == (if StartsWithVowel(typeString) then "an" else "a ")
    // after the article and one space comes the type string, then the tail
    ensures var at := |MessageLead| + |name| + |ToBe| + |Article(typeString)|;
            |m| >= at + 1 + |typeString|
            && m[|MessageLead| + |name| + |ToBe|..at] == Article(typeString)
            && m[at] == ' '
            && m[at + 1..at + 1 + |typeString|] == typeString
            && m[at + 1 + |typeString|..] == ". Got " + Show(value)
    // the rendered value closes the message
    ensures var tail := ". Got " + Show(value);
            |m| >= |tail| && m[|m| - |tail|..] == tail
  {
    var lead := MessageLead + name + ToBe;
    var tail := ". Got " + Show(value);
    var rest := [' '] + typeString + tail;
    assert rest[1..1 + |typeString|] == typeString && rest[1 + |typeString|..] == tail;
    var head := lead + Article(typeString);
    assert head[..|MessageLead|] == MessageLead;
    assert head[|MessageLead|..|MessageLead| + |name|] == name;
    assert head[|MessageLead| + |name|..|lead|] == ToBe;
    assert head[|lead|..] == Article(typeString);
    var m := head + rest;
    assert m[..|head|] == head && m[|head|..] == rest;
    m
  }

  /** `makeExpectedError(value, name, typeString)` */
  function MakeExpectedError(value: JsValue, name: string, typeString: string): (e: JsValue)
    ensures e.Obj? && e.kind.ErrorObject?
    ensures GetProp(e, "message") == Str(ExpectedMessage(value, name, typeString))
  {
    NewError(ExpectedMessage(value, name, typeString))
  }

  /** Every type string the guards of this file pass to `makeExpectedError` has
      more than one letter, so every message reads "to be a ...", even
      "a array", "a object" and "a undefined value". */
  lemma EveryGuardUsesArticleA(typeString: string)
    requires typeString in ["non-empty string", "not to be an empty object", "array", "boolean",
                            "function", "object", "positive number", "string",
                            "non-empty object", "undefined value", "defined value"]
    ensures Article(typeString) == "a"
  {
  }

  /** The shape every `throwIfNot...` guard shares: pass, or throw the
      "Expected argument" error naming the argument. */
  function Guard(ok: bool, value: JsValue, name: string, typeString: string): Check {
    if ok then Passes else Fails(MakeExpectedError(value, name, typeString))
  }

  function ThrowIfNotNonEmptyString(value: JsValue, name: string := DefaultName): (r: Check)
    ensures r.Passes? <==> value.Str? && |value.s| > 0
    ensures r.Fails? ==> r.error == MakeExpectedError(value, name, "non-empty string")
  {
    Guard(IsString(value) && |value.s| > 0, value, name, "non-empty string")
  }

  /** `throwIfNotPositiveLengthString` is the same function object as
      `throwIfNotNonEmptyString`. */
  function ThrowIfNotPositiveLengthString(value: JsValue, name: string := DefaultName): (r: Check)
    ensures r == ThrowIfNotNonEmptyString(value, name)
  {
    ThrowIfNotNonEmptyString(value, name)
  }

  /** `firstDefined(...args)`: the first argument that is not undefined, or
      undefined when there is none. */
  function FirstDefined(args: seq<JsValue>): (r: JsValue)
    ensures r.Undefined? <==> forall i :: 0 <= i < |args| ==> args[i].Undefined?
    ensures !r.Undefined? ==>
              exists k :: 0 <= k < |args| && args[k] == r && forall j :: 0 <= j < k ==> args[j].Undefined?
  {
    if args == [] then Undefined
    else if IsDefined(args[0]) then args[0]
    else
      var r := FirstDefined(args[1..]);
      assert forall j :: 1 <= j < |args| ==> args[j] == args[1..][j - 1];
      r
  }

  /** Falsy values other than undefined are defined: 0 and '' are returned. */
  lemma FirstDefinedKeepsFalsyValues(rest: seq<JsValue>)
    ensures FirstDefined([]) == Undefined
    ensures FirstDefined([Undefined, Str("foo")] + rest) == Str("foo")
    ensures FirstDefined([Undefined, Num(0), Undefined] + rest) == Num(0)
    ensures FirstDefined([Str("")] + rest) == Str("")
  {
    assert ([Undefined, Str("foo")] + rest)[1..] == [Str("foo")] + rest;
    assert ([Undefined, Num(0), Undefined] + rest)[1..] == [Num(0), Undefined] + rest;
  }

  /** The adapter returned by the legacy `promisify(func, options)`. It checks
      nothing; only the truthiness of `options.returnArray` matters. */
  datatype LegacyAdapter = LegacyAdapter(func: JsValue, returnArray: bool)

  function LegacyPromisify(func: JsValue, options: JsValue): (a: LegacyAdapter)
    ensures a.func == func
    ensures a.returnArray <==> options.Obj? && "returnArray" in options.props && Truthy(options.props["returnArray"])
  {
    var opts := Or(options, EmptyObject);
    LegacyAdapter(func, Truthy(GetProp(opts, "returnArray")))
  }

  /** What the legacy adapter's promise settles to when `func` calls back with
      `(err, ...rets)`. */
  function LegacyCallback(a: LegacyAdapter, err: JsValue, rets: seq<JsValue>): (s: Settlement)
    ensures !s.Pending?
    ensures s.Rejected? <==> Truthy(err)
    ensures s.Rejected? ==> s.reason == err
    ensures s.Fulfilled? && a.returnArray ==> s.value == Obj(ArrayObject(rets), map[])
    ensures s.Fulfilled? && !a.returnArray ==> s.value == At(rets, 0)
  {
    if Truthy(err) then Rejected(err)
    else if a.returnArray then Fulfilled(Obj(ArrayObject(rets), map[]))
    else Fulfilled(At(rets, 0))
  }

  function ThrowIf(condition: JsValue, message: string): (r: Check)
    ensures r.Fails? <==> Truthy(condition)
    ensures r.Fails? ==> r.error == NewError(message)
  {
    if Truthy(condition) then Fails(NewError(message)) else Passes
  }

  function ThrowIfNot(condition: JsValue, message: string): (r: Check)
    ensures r.Fails? <==> !Truthy(condition)
    ensures r.Fails? ==> r.error == NewError(message)
  {
    if !Truthy(condition) then Fails(NewError(message)) else Passes
  }

  /** Throws for an empty plain object; its message reads "to be a not to be an
      empty object". */
  function ThrowIfEmptyObject(value: JsValue, name: string): (r: Check)
    ensures r.Fails? <==> value.Obj? && value.kind.PlainObject? && value.props == map[]
    ensures r.Fails? ==> r.error == MakeExpectedError(value, name, "not to be an empty object")
  {
    Guard(!IsEmptyObject(value), value, name, "not to be an empty object")
  }

  function ThrowIfNotArray(value: JsValue, name: string := DefaultName): (r: Check)
    ensures r.Passes? <==> value.Obj? && value.kind.ArrayObject?
    ensures r.Fails? ==> r.error == MakeExpectedError(value, name, "array")
  {
    Guard(IsArray(value), value, name, "array")
  }

  function ThrowIfNotBoolean(value: JsValue, name: string := DefaultName): (r: Check)
    ensures r.Passes? <==> value.Bool?
    ensures r.Fails? ==> r.error == MakeExpectedError(value, name, "boolean")
  {
    Guard(IsBoolean(value), value, name, "boolean")
  }

  function ThrowIfNotFunction(value: JsValue, name: string := DefaultName): (r: Check)
    ensures r.Passes? <==> value.Obj? && value.kind.FunctionObject?
    ensures r.Fails? ==> r.error == MakeExpectedError(value, name, "function")
  {
    Guard(IsFunction(value), value, name, "function")
  }

  function ThrowIfNotObject(value: JsValue, name: string := DefaultName): (r: Check)
    ensures r.Passes? <==> value.Obj?
    ensures r.Fails? ==> r.error == MakeExpectedError(value, name, "object")
  {
    Guard(IsObject(value), value, name, "object")
  }

  /** Passes only for a number that is not NaN and is greater than zero. */
  function ThrowIfNotPositiveNumber(value: JsValue, name: string := DefaultName): (r: Check)
    ensures r.Passes? <==> value.Num? && value.n > 0
    ensures r.Fails? ==> r.error == MakeExpectedError(value, name, "positive number")
  {
    Guard(IsPositiveNumber(value), value, name, "positive number")
  }

  function ThrowIfNotString(value: JsValue, name: string := DefaultName): (r: Check)
    ensures r.Passes? <==> value.Str?
    ensures r.Fails? ==> r.error == MakeExpectedError(value, name, "string")
  {
    Guard(IsString(value), value, name, "string")
  }

  /** Passes for any object except an empty plain one. */
  function ThrowIfNotNonEmptyObject(value: JsValue, name: string := DefaultName): (r: Check)
    ensures r.Passes? <==> value.Obj? && !(value.kind.PlainObject? && value.props == map[])
    ensures r.Fails? ==> r.error == MakeExpectedError(value, name, "non-empty object")
  {
    Guard(IsObject(value) && !IsEmptyObject(value), value, name, "non-empty object")
  }

  function ThrowIfDefined(value: JsValue, name: string := DefaultName): (r: Check)
    ensures r.Fails? <==> !value.Undefined?
    ensures r.Fails? ==> r.error == MakeExpectedError(value, name, "undefined value")
  {
    Guard(!IsDefined(value), value, name, "undefined value")
  }

  function ThrowIfUndefined(value: JsValue, name: string := DefaultName): (r: Check)
    ensures r.Fails? <==> value.Undefined?
    ensures r.Fails? ==> r.error == MakeExpectedError(value, name, "defined value")
  {
    Guard(IsDefined(value), value, name, "defined value")
  }

  /** A guard called without a name reports the argument as "value". */
  lemma OmittedNameReadsValue()
    ensures ThrowIfUndefined(Undefined) == Fails(MakeExpectedError(Undefined, "value", "defined value"))
    ensures var m := ExpectedMessage(Undefined, DefaultName, "defined value");
            m[|MessageLead|..|MessageLead| + 5] == "value"
    ensures ThrowIfNotFunction(Num(3)) == Fails(MakeExpectedError(Num(3), "value", "function"))
    ensures ThrowIfNotArray(Null) == Fails(MakeExpectedError(Null, "value", "array"))
    ensures ThrowIfNotPositiveLengthString(Str("")) == Fails(MakeExpectedError(Str(""), "value", "non-empty string"))
  {
  }
}
