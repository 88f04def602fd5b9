/**
 * The fragment of JavaScript's value model that the plugin's registration
 * code relies on: truthiness (`if (x)`, `a || b`, `a && b`), `typeof`,
 * property reads on plain objects and `delete` on the caller's options
 * object. Numbers are integers here; NaN and -0 are not modelled.
 */
module JsValues {

  datatype Option<+T> = None | Some(value: T)

  /** A function value. The plugin stores functions in fields and never calls
      them during registration, so a function is identified by where it came from. */
  datatype Fn =
    | Export(library: string, name: string)   // a function exported by a driver module
    | Bound(member: string, receiver: JsVal)  // `receiver[member].bind(receiver)`
    | Closure(calls: string, captured: JsVal) // an arrow function forwarding to `captured[calls]`
    | Opaque(id: nat)                         // any other function

  datatype JsVal =
    | Undefined
    | Null
    | Bool(b: bool)
    | Num(n: int)
    | Str(s: string)
    | Func(fn: Fn)
    | Obj(props: map<string, JsVal>)

  /** `!!v`: the value an `if`, `||`, `&&` or `!` sees. */
  predicate Truthy(v: JsVal)
  {
    match v
    case Undefined => false
    case Null => false
    case Bool(b) => b
    case Num(n) => n != 0
    case Str(s) => s != ""
    case Func(_) => true
    case Obj(_) => true
  }

  /** `null` and `undefined`: reading a property of either throws a TypeError. */
  predicate Nullish(v: JsVal)
  {
    v.Undefined? || v.Null?
  }

  /** The `typeof` operator. Note that `typeof null` is "object". */
  function TypeOf(v: JsVal): (r: string)
    ensures r == "object" <==> v.Obj? || v.Null?
    ensures r == "function" <==> v.Func?
    ensures r == "undefined" <==> v.Undefined?
    ensures r == "boolean" <==> v.Bool?
  {
    match v
    case Undefined => "undefined"
    case Null => "object"
    case Bool(_) => "boolean"
    case Num(_) => "number"
    case Str(_) => "string"
    case Func(_) => "function"
    case Obj(_) => "object"
  }

  /** The members every plain object inherits from `Object.prototype`. */
  const ObjectPrototype: set<string> :=
    {"constructor", "hasOwnProperty", "isPrototypeOf", "propertyIsEnumerable", "toLocaleString",
     "toString", "valueOf", "__defineGetter__", "__defineSetter__", "__lookupGetter__",
     "__lookupSetter__", "__proto__"}

  /** Reading `o[key]` for a key that `Object.prototype` does not define (every
      option, handle field and driver member the plugin reads): a missing key
      reads as `undefined`. */
  function Get(o: map<string, JsVal>, key: string): JsVal
  {
    if key in o then o[key] else Undefined
  }

  /** Reading `o[key]` for any key on a plain object: an own key gives its value,
      an inherited member its value (`Object.prototype` itself for `__proto__`),
      any other key `undefined`. */
  function Lookup(o: map<string, JsVal>, key: string): (r: JsVal)
    ensures key in o ==> r == o[key]
    ensures key !in o ==> (Truthy(r) <==> key in ObjectPrototype)
  {
    if key in o then o[key]
    else if key == "__proto__" then Obj(map[])
    else if key in ObjectPrototype then Func(Export("Object.prototype", key))
    else Undefined
  }

  /** For keys `Object.prototype` does not define, the plain read is the full one. */
  lemma GetIsLookup(o: map<string, JsVal>, key: string)
    requires key !in ObjectPrototype
    ensures Get(o, key) == Lookup(o, key)
  {
  }

  /** `a || b`: the first operand when it is truthy, the second otherwise. */
  function Or(a: JsVal, b: JsVal): (r: JsVal)
    ensures Truthy(r) <==> Truthy(a) || Truthy(b)
    ensures Truthy(a) ==> r == a
  {
    if Truthy(a) then a else b
  }

  /** `o` with the given keys deleted; every other key keeps its value. */
  function Without(o: map<string, JsVal>, keys: set<string>): (r: map<string, JsVal>)
    ensures r.Keys == o.Keys - keys
    ensures forall k :: k in r ==> r[k] == o[k]
  {
    o - keys
  }

  /** Deleting keys one after another deletes them all. */
  lemma WithoutEach(o: map<string, JsVal>, a: string, b: string, c: string)
    ensures Without(Without(Without(o, {a}), {b}), {c}) == Without(o, {a, b, c})
  {
  }

  /** A JavaScript object held by reference, such as the options object a caller
      passes to `register`; the plugin deletes keys from it in place. */
  class JsObject {
    var props: map<string, JsVal>

    constructor (init: map<string, JsVal>)
      ensures props == init
    {
      props := init;
    }

    /** `const v = o.key; delete o.key` */
    method Take(key: string) returns (v: JsVal)
      modifies this
      ensures v == Get(old(props), key)
      ensures props == Without(old(props), {key})
    {
      v := Get(props, key);
      props := props - {key};
    }
  }
}
