/** JavaScript values as both core files see them: primitives, functions,
    arrays and plain objects, with the language's truthiness and `typeof`. */
module JsValues {

  /** A JavaScript value. Numbers are integers (NaN and fractions are not
      modelled); `Fn` is a function value, identified by a name. Arrays and
      objects are trees of values: reference identity is not modelled. */
  datatype Value =
    | Undefined
    | Null
    | Bool(b: bool)
    | Num(n: int)
    | Str(s: string)
    | Fn(name: string)
    | Arr(items: seq<Value>)
    | Obj(fields: map<string, Value>)

  /** JavaScript truthiness: `undefined`, `null`, `false`, `0` and `""` are
      falsy; every other value, every array and every object is truthy. */
  predicate Truthy(v: Value)
  {
    match v
    case Undefined => false
    case Null => false
    case Bool(b) => b
    case Num(n) => n != 0
    case Str(s) => s != ""
    case _ => true
  }

  /** The `typeof` operator, including its `typeof null === 'object'` quirk. */
  function TypeOf(v: Value): (r: string)
    ensures r == "object" <==> v.Null? || v.Arr? || v.Obj?
  {
    match v
    case Undefined => "undefined"
    case Null => "object"
    case Bool(_) => "boolean"
    case Num(_) => "number"
    case Str(_) => "string"
    case Fn(_) => "function"
    case Arr(_) => "object"
    case Obj(_) => "object"
  }

  /** The methods every plain object inherits from `Object.prototype`. */
  const ObjectPrototypeMethods: set<string> :=
    { "constructor", "hasOwnProperty", "isPrototypeOf", "propertyIsEnumerable",
      "toLocaleString", "toString", "valueOf",
      "__defineGetter__", "__defineSetter__", "__lookupGetter__", "__lookupSetter__" }

  /** `o[k]` on a plain object whose own fields are `m`: an own key first,
      then a method inherited from `Object.prototype`, else `undefined`.
      The inherited `__proto__` accessor is not read through here: the merge
      treats that key on its own. */
  function Prop(m: map<string, Value>, k: string): Value
  {
    if k in m then m[k]
    else if k in ObjectPrototypeMethods then Fn(k)
    else Undefined
  }
}
