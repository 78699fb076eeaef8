/** JavaScript values as the utility library sees them, plus the outcome types shared
    by the other modules: completions that may throw, argument checks, and promise
    settlements.

    Numbers are integers; NaN is its own constructor. Objects are values: a kind
    (what `typeof`, `Array.isArray` and `.constructor` would tell apart) and a map of
    own properties. Object identity is modelled only for functions, by an id. */
module JsValues {

  datatype Kind =
    | PlainObject                      // created by an object literal; constructor === Object
    | ArrayObject(elements: seq<JsValue>)
    | FunctionObject(id: nat)          // a function; the id stands for its identity
    | ErrorObject                      // created by `new Error(...)`
    | OtherObject                      // any other object whose `String(...)` is "[object Object]"

  datatype JsValue =
    | Undefined
    | Null
    | Bool(b: bool)
    | Num(n: int)
    | NaN
    | Str(s: string)
    | Obj(kind: Kind, props: map<string, JsValue>)

  /** A completion that either returns a value or throws an error value. */
  datatype Result<T> = Ok(value: T) | Threw(error: JsValue)

  /** The completion of a guard that returns nothing or throws. */
  datatype Check = Passes | Fails(error: JsValue)

  /** The state of a promise, as far as the library's own calls go: `Fulfilled(v)`
      means `resolve(v)` was called, `Rejected(e)` that `reject(e)` was. */
  datatype Settlement = Pending | Fulfilled(value: JsValue) | Rejected(reason: JsValue)

  /** JavaScript truthiness (`if (v)`). */
  predicate Truthy(v: JsValue) {
    match v
    case Undefined => false
    case Null => false
    case Bool(b) => b
    case Num(n) => n != 0
    case NaN => false
    case Str(s) => |s| > 0
    case Obj(_, _) => true
  }

  /** `v[i]` on an argument list: undefined past the end. */
  function At(vs: seq<JsValue>, i: nat): JsValue {
    if i < |vs| then vs[i] else Undefined
  }

  /** `v.key` for a property the object does not have from its prototype. */
  function GetProp(v: JsValue, key: string): JsValue {
    if v.Obj? && key in v.props then v.props[key] else Undefined
  }

  /** `a || b` */
  function Or(a: JsValue, b: JsValue): JsValue {
    if Truthy(a) then a else b
  }

  /** `a === b`; objects other than functions are compared by value. */
  predicate StrictEquals(a: JsValue, b: JsValue) {
    if a.NaN? || b.NaN? then false
    else if a.Obj? && a.kind.FunctionObject? && b.Obj? && b.kind.FunctionObject? then a.kind.id == b.kind.id
    else a == b
  }

  /** `{}` and `[]` */
  const EmptyObject := Obj(PlainObject, map[])
  const EmptyArray := Obj(ArrayObject([]), map[])

  /** A fresh function value with the given identity. */
  function Function(id: nat): JsValue {
    Obj(FunctionObject(id), map[])
  }

  /** `new Error(message)` */
  function NewError(message: string): (e: JsValue)
    ensures e.Obj? && e.kind.ErrorObject?
    ensures GetProp(e, "message") == Str(message)
  {
    Obj(ErrorObject, map["message" := Str(message)])
  }

  function DigitChar(d: nat): char
    requires d < 10
  {
    "0123456789"[d]
  }

  /** Decimal rendering of a natural number, without leading zeros. */
  function NatToString(n: nat): (s: string)
    ensures |s| > 0
    ensures forall i :: 0 <= i < |s| ==> s[i] in "0123456789"
    decreases n
  {
    if n < 10 then [DigitChar(n)] else NatToString(n / 10) + [DigitChar(n % 10)]
  }

  /** `String(n)` for an integral number. */
  function IntToString(n: int): string {
    if n < 0 then "-" + NatToString(-n) else NatToString(n)
  }

  /** `String(v)`, as a template literal `${v}` renders it. Arrays join their
      elements with commas (undefined and null render empty); an Error renders as
      "Error" or "Error: <message>"; a function renders as a placeholder. */
  function Show(v: JsValue): string
    decreases v, 1
  {
    match v
    case Undefined => "undefined"
    case Null => "null"
    case Bool(b) => if b then "true" else "false"
    case Num(n) => IntToString(n)
    case NaN => "NaN"
    case Str(s) => s
    case Obj(kind, props) =>
      match kind
      case ArrayObject(elements) => JoinElements(v, elements)
      case FunctionObject(_) => "[Function]"
      case ErrorObject =>
        var message := if "message" in props && props["message"].Str? then props["message"].s else "";
        if message == "" then "Error" else "Error: " + message
      case PlainObject => "[object Object]"
      case OtherObject => "[object Object]"
  }

  /** `elements.join(",")` for the elements of the array `whole`. */
  function JoinElements(whole: JsValue, elements: seq<JsValue>): string
    requires forall i :: 0 <= i < |elements| ==> elements[i] < whole
    decreases whole, 0, |elements|
  {
    if elements == [] then ""
    else
      var last := elements[|elements| - 1];
      var shown := if last.Undefined? || last.Null? then "" else Show(last);
      if |elements| == 1 then shown
      else JoinElements(whole, elements[..|elements| - 1]) + "," + shown
  }

  /** The property key a value stands for in `obj[key] = ...` (ToString). */
  function Key(v: JsValue): string {
    Show(v)
  }
}
