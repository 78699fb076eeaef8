/** The callback-to-promise adapter `promisify(func, options)` of src/index.js.

    Building the adapter validates `func` and the two option lists eagerly. The
    adapter's promise is settled by the Node-style callback `(err, ...returnValues)`
    that `func` calls: a truthy `err` rejects with `err` after writing the values
    named by `rejectMultiple` onto it; otherwise the promise resolves with the first
    value, or with a fresh object naming the values listed in `resolveMultiple`. */
module Promisify {
  import opened JsValues
  import opened Checks

  /** A successfully built adapter: the wrapped function and the two name lists. */
  datatype Adapter = Adapter(func: JsValue, resolveMultiple: seq<JsValue>, rejectMultiple: seq<JsValue>)

  /** A default parameter or destructuring default: applies only to undefined. */
  function DefaultTo(v: JsValue, default: JsValue): JsValue {
    if v.Undefined? then default else v
  }

  /** `options` after its default `{}`. */
  function EffectiveOptions(options: JsValue): JsValue {
    DefaultTo(options, EmptyObject)
  }

  /** `const {resolveMultiple = [], rejectMultiple = []} = options` */
  function OptionList(options: JsValue, key: string): JsValue {
    DefaultTo(GetProp(EffectiveOptions(options), key), EmptyArray)
  }

  /** `promisify(func, options)`: throws on the first malformed argument, in the
      order func, options, resolveMultiple, rejectMultiple; otherwise returns the
      adapter. */
  function Promisify(func: JsValue, options: JsValue): (r: Result<Adapter>)
    ensures r.Ok? <==>
              IsFunction(func) && (options.Undefined? || options.Obj?)
              && IsArray(OptionList(options, "resolveMultiple")) && IsArray(OptionList(options, "rejectMultiple"))
    ensures !IsFunction(func) ==> r == Threw(MakeExpectedError(func, "func", "function"))
    ensures IsFunction(func) && !(options.Undefined? || options.Obj?) ==>
              r == Threw(MakeExpectedError(options, "options", "object"))
    ensures IsFunction(func) && (options.Undefined? || options.Obj?) && !IsArray(OptionList(options, "resolveMultiple")) ==>
              r == Threw(MakeExpectedError(OptionList(options, "resolveMultiple"), "options.resolveMultiple", "array"))
    ensures IsFunction(func) && (options.Undefined? || options.Obj?) && IsArray(OptionList(options, "resolveMultiple"))
            && !IsArray(OptionList(options, "rejectMultiple")) ==>
              r == Threw(MakeExpectedError(OptionList(options, "rejectMultiple"), "options.rejectMultiple", "array"))
    ensures r.Ok? ==> r.value.func == func
                      && r.value.resolveMultiple == OptionList(options, "resolveMultiple").kind.elements
                      && r.value.rejectMultiple == OptionList(options, "rejectMultiple").kind.elements
  {
    var c1 := ThrowIfNotFunction(func, "func");
    if c1.Fails? then Threw(c1.error) else
    var opts := EffectiveOptions(options);
    var c2 := ThrowIfNotObject(opts, "options");
    if c2.Fails? then Threw(c2.error) else
    var resolveMultiple := OptionList(options, "resolveMultiple");
    var rejectMultiple := OptionList(options, "rejectMultiple");
    var c3 := ThrowIfNotArray(resolveMultiple, "options.resolveMultiple");
    if c3.Fails? then Threw(c3.error) else
    var c4 := ThrowIfNotArray(rejectMultiple, "options.rejectMultiple");
    if c4.Fails? then Threw(c4.error) else
    Ok(Adapter(func, resolveMultiple.kind.elements, rejectMultiple.kind.elements))
  }

  /** Both lists default to empty. */
  lemma ListsDefaultToEmpty(func: JsValue)
    requires IsFunction(func)
    ensures Promisify(func, Undefined) == Ok(Adapter(func, [], []))
    ensures Promisify(func, EmptyObject) == Ok(Adapter(func, [], []))
  {
  }

  /** A non-array `rejectMultiple` makes construction throw. */
  lemma NonArrayRejectMultipleThrows(func: JsValue, bad: JsValue)
    requires IsFunction(func) && !bad.Undefined? && !IsArray(bad)
    ensures Promisify(func, Obj(PlainObject, map["rejectMultiple" := bad]))
            == Threw(MakeExpectedError(bad, "options.rejectMultiple", "array"))
  {
  }

  /** The property keys that a list of names writes. */
  function KeysOf(names: seq<JsValue>): set<string> {
    set i | 0 <= i < |names| :: Key(names[i])
  }

  /** The index of the last name in `names` whose key is `k`, or -1. */
  function LastKeyIndex(names: seq<JsValue>, k: string): (j: int)
    ensures -1 <= j < |names|
    ensures j >= 0 ==> Key(names[j]) == k
    ensures forall i :: j < i < |names| ==> Key(names[i]) != k
    decreases |names|
  {
    if names == [] then -1
    else if Key(names[|names| - 1]) == k then |names| - 1
    else LastKeyIndex(names[..|names| - 1], k)
  }

  /** `props` after `obj[names[i]] = values[i]` for i = 0, 1, ... in order. */
  function Assigned(props: map<string, JsValue>, names: seq<JsValue>, values: seq<JsValue>): map<string, JsValue>
    decreases |names|
  {
    if names == [] then props
    else Assigned(props, names[..|names| - 1], values)[Key(names[|names| - 1]) := At(values, |names| - 1)]
  }

  /** After the assignments, a key holds the value of the LAST name that writes it;
      a key no name writes keeps its old value, or stays absent. */
  lemma {:induction false} AssignedLookup(props: map<string, JsValue>, names: seq<JsValue>, values: seq<JsValue>, k: string)
    ensures var m := Assigned(props, names, values);
            var j := LastKeyIndex(names, k);
            (j >= 0 ==> k in m && m[k] == At(values, j))
            && (j < 0 ==> (k in m <==> k in props) && (k in props ==> m[k] == props[k]))
    decreases |names|
  {
    if names != [] {
      AssignedLookup(props, names[..|names| - 1], values, k);
    }
  }

  /** The assignments add exactly the keys the names stand for. */
  lemma {:induction false} AssignedKeys(props: map<string, JsValue>, names: seq<JsValue>, values: seq<JsValue>)
    ensures Assigned(props, names, values).Keys == props.Keys + KeysOf(names)
    decreases |names|
  {
    if names != [] {
      var init := names[..|names| - 1];
      AssignedKeys(props, init, values);
      assert KeysOf(names) == KeysOf(init) + {Key(names[|names| - 1])} by {
        forall k | k in KeysOf(names) ensures k in KeysOf(init) + {Key(names[|names| - 1])} {
          var i :| 0 <= i < |names| && Key(names[i]) == k;
          if i < |names| - 1 { assert init[i] == names[i]; }
        }
        forall k | k in KeysOf(init) ensures k in KeysOf(names) {
          var i :| 0 <= i < |init| && Key(init[i]) == k;
          assert names[i] == init[i];
        }
      }
    }
  }

  /** What one invocation of the adapter's callback does. */
  datatype CallbackEffect =
    | Settles(outcome: Settlement)
    // `err[name] = ...` on a truthy primitive `err` throws a TypeError in strict code,
    // before either resolve or reject is called
    | ThrowsTypeError

  /** The effect of `callback(err, ...returnValues)`, defined on values. */
  function EffectOf(a: Adapter, err: JsValue, returnValues: seq<JsValue>): CallbackEffect {
    if Truthy(err) then
      if a.rejectMultiple == [] then Settles(Rejected(err))
      else if err.Obj? then Settles(Rejected(Obj(err.kind, Assigned(err.props, a.rejectMultiple, returnValues))))
      else ThrowsTypeError
    else if |a.resolveMultiple| > 0 then
      Settles(Fulfilled(Obj(PlainObject, Assigned(map[], a.resolveMultiple, returnValues))))
    else
      Settles(Fulfilled(At(returnValues, 0)))
  }

  /** The callback that the adapter hands to `func`: the two for-of loops write the
      named values one by one, onto `err` or onto a fresh object. */
  method Callback(a: Adapter, err: JsValue, returnValues: seq<JsValue>) returns (effect: CallbackEffect)
    ensures effect == EffectOf(a, err, returnValues)
  {
    if Truthy(err) {
      var e := err;
      var i := 0;
      while i < |a.rejectMultiple|
        invariant 0 <= i <= |a.rejectMultiple|
        invariant err.Obj? ==> e == Obj(err.kind, Assigned(err.props, a.rejectMultiple[..i], returnValues))
        invariant !err.Obj? ==> i == 0 && e == err
      {
        if !e.Obj? {
          return ThrowsTypeError;
        }
        assert a.rejectMultiple[..i + 1][..i] == a.rejectMultiple[..i];
        e := Obj(e.kind, e.props[Key(a.rejectMultiple[i]) := At(returnValues, i)]);
        i := i + 1;
      }
      assert a.rejectMultiple[..i] == a.rejectMultiple;
      return Settles(Rejected(e));
    } else if |a.resolveMultiple| > 0 {
      var returnValue: map<string, JsValue> := map[];
      var i := 0;
      while i < |a.resolveMultiple|
        invariant 0 <= i <= |a.resolveMultiple|
        invariant returnValue == Assigned(map[], a.resolveMultiple[..i], returnValues)
      {
        assert a.resolveMultiple[..i + 1][..i] == a.resolveMultiple[..i];
        returnValue := returnValue[Key(a.resolveMultiple[i]) := At(returnValues, i)];
        i := i + 1;
      }
      assert a.resolveMultiple[..i] == a.resolveMultiple;
      return Settles(Fulfilled(Obj(PlainObject, returnValue)));
    } else {
      return Settles(Fulfilled(At(returnValues, 0)));
    }
  }

  /** Exactly one of resolve and reject is called, chosen by the truthiness of
      `err` alone, unless named values are written onto a primitive error. */
  lemma SettlesOnceByTruthiness(a: Adapter, err: JsValue, returnValues: seq<JsValue>)
    ensures var eff := EffectOf(a, err, returnValues);
            (eff.Settles? <==> !(Truthy(err) && !err.Obj? && a.rejectMultiple != []))
            && (eff.Settles? ==> !eff.outcome.Pending? && (eff.outcome.Rejected? <==> Truthy(err)))
  {
  }

  /** Without `resolveMultiple`, success resolves with the first value; later
      values are dropped. */
  lemma ResolvesFirstValue(a: Adapter, err: JsValue, first: JsValue, rest: seq<JsValue>)
    requires !Truthy(err) && a.resolveMultiple == []
    ensures EffectOf(a, err, [first] + rest) == Settles(Fulfilled(first))
    ensures EffectOf(a, err, []) == Settles(Fulfilled(Undefined))
  {
  }

  /** With `resolveMultiple`, success resolves with a fresh plain object whose keys
      are exactly the listed names; each key holds the value at the position of
      the last name that writes it (undefined past the end of the values). */
  lemma ResolvedObjectShape(a: Adapter, err: JsValue, returnValues: seq<JsValue>)
    requires !Truthy(err) && |a.resolveMultiple| > 0
    ensures var eff := EffectOf(a, err, returnValues);
            eff.Settles? && eff.outcome.Fulfilled?
            && eff.outcome.value.Obj? && eff.outcome.value.kind == PlainObject
            && eff.outcome.value.props.Keys == KeysOf(a.resolveMultiple)
            && forall k :: k in eff.outcome.value.props ==>
                 eff.outcome.value.props[k] == At(returnValues, LastKeyIndex(a.resolveMultiple, k))
  {
    var m := Assigned(map[], a.resolveMultiple, returnValues);
    AssignedKeys(map[], a.resolveMultiple, returnValues);
    forall k | k in m ensures m[k] == At(returnValues, LastKeyIndex(a.resolveMultiple, k)) {
      AssignedLookup(map[], a.resolveMultiple, returnValues, k);
    }
  }

  /** With distinct names, name i maps to the i-th value:
      `{resolveMultiple: ['arg1', 'arg2']}` and values 'foo', 'bar' give
      `{arg1: 'foo', arg2: 'bar'}`. */
  lemma ResolvedObjectDistinctNames(a: Adapter, err: JsValue, returnValues: seq<JsValue>, i: nat)
    requires !Truthy(err) && i < |a.resolveMultiple|
    requires forall p, q :: 0 <= p < q < |a.resolveMultiple| ==> Key(a.resolveMultiple[p]) != Key(a.resolveMultiple[q])
    ensures var eff := EffectOf(a, err, returnValues);
            eff.Settles? && eff.outcome.Fulfilled? && eff.outcome.value.Obj?
            && Key(a.resolveMultiple[i]) in eff.outcome.value.props
            && eff.outcome.value.props[Key(a.resolveMultiple[i])] == At(returnValues, i)
  {
    var k := Key(a.resolveMultiple[i]);
    AssignedLookup(map[], a.resolveMultiple, returnValues, k);
  }

  /** On error, the rejection reason is `err` itself with the listed fields
      written: its kind is kept, its keys grow by exactly the listed names, each
      listed key holds the value of the last name that writes it, and every other
      field is unchanged. */
  lemma RejectionWritesListedFieldsOnly(a: Adapter, err: JsValue, returnValues: seq<JsValue>)
    requires Truthy(err) && err.Obj?
    ensures var eff := EffectOf(a, err, returnValues);
            eff.Settles? && eff.outcome.Rejected?
            && eff.outcome.reason.Obj? && eff.outcome.reason.kind == err.kind
            && eff.outcome.reason.props.Keys == err.props.Keys + KeysOf(a.rejectMultiple)
            && (forall k :: k in KeysOf(a.rejectMultiple) ==>
                  eff.outcome.reason.props[k] == At(returnValues, LastKeyIndex(a.rejectMultiple, k)))
            && (forall k :: k in err.props && k !in KeysOf(a.rejectMultiple) ==>
                  eff.outcome.reason.props[k] == err.props[k])
  {
    var m := Assigned(err.props, a.rejectMultiple, returnValues);
    AssignedKeys(err.props, a.rejectMultiple, returnValues);
    forall k | k in m ensures
      (k in KeysOf(a.rejectMultiple) ==> m[k] == At(returnValues, LastKeyIndex(a.rejectMultiple, k)))
      && (k !in KeysOf(a.rejectMultiple) ==> m[k] == err.props[k])
    {
      AssignedLookup(err.props, a.rejectMultiple, returnValues, k);
      var j := LastKeyIndex(a.rejectMultiple, k);
      if k in KeysOf(a.rejectMultiple) {
        var i :| 0 <= i < |a.rejectMultiple| && Key(a.rejectMultiple[i]) == k;
        assert j >= 0;
      }
    }
  }

  /** An empty `rejectMultiple` rejects with `err` untouched, whatever it is. */
  lemma EmptyRejectMultipleKeepsErr(a: Adapter, err: JsValue, returnValues: seq<JsValue>)
    requires Truthy(err) && a.rejectMultiple == []
    ensures EffectOf(a, err, returnValues) == Settles(Rejected(err))
  {
  }

  /** The legacy adapter of src/checks.js and this one agree when no option is
      given: reject with `err` unchanged, or resolve with the first value. */
  lemma LegacyAgreesWithoutOptions(func: JsValue, err: JsValue, returnValues: seq<JsValue>)
    requires IsFunction(func)
    ensures Promisify(func, Undefined).Ok?
    ensures EffectOf(Promisify(func, Undefined).value, err, returnValues)
            == Settles(LegacyCallback(LegacyPromisify(func, Undefined), err, returnValues))
  {
  }
}
