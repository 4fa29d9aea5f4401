# BaseObject dispatch and deepMerge, in Dafny

This project models the two pieces of logic at the bottom of a small
JavaScript application framework:

- **`BaseObject`** (`base_object.dfy`, module `Base`). Every property read, write and
  delete on an instance goes through one priority chain:
  1. a name that is present on the object (`prop in target`, which covers own fields
     and inherited members alike);
  2. else the accessor named `'get'`/`'set'` plus the name with its first character
     upper-cased;
  3. else the opposite accessor, which is a write-only or read-only violation and
     throws `InvalidCallError`;
  4. else nothing: `get` and `set` are meant to throw `UnknownPropertyError`
     (as written they throw a TypeError first, see "## Findings"), and
     `deleteProperty` returns `undefined`.

  The class `Base.BaseObject` holds three things. Its own fields are a
  `map<string, Value>` that `Set` and `Delete` reassign. The members it inherits
  through the prototype chain are a fixed map. The accessor calls it made are a log.
  `Get`, `Set` and `Delete` stand for the proxy's `get`, `set` and `deleteProperty`
  traps. Accessor bodies and the `init` hook are user code. Each accessor call is
  recorded in `calls`, with its arguments, and the value a getter returns is a
  parameter of `Get`. Accessor bodies never change the own fields in this model.
  `init` is a function on the own fields, passed to the constructor. The pure
  functions `ReadRoute`, `WriteRoute` and `ModeOf` state the rule: which branch handles a name, and whether a name is stored, read-write,
  read-only, write-only or unknown.

  The proxy's handler is the instance itself (`new Proxy(this, this)`), so the
  proxy looks each trap up like any other member. An own field named `get`, `set`
  or `deleteProperty` shadows the inherited trap (`TrapIn`): `null` or `undefined`
  makes the proxy act on the instance directly, a function runs as user code, and
  any other value makes every operation of that kind throw a TypeError. An own
  field named `constructor` changes the class name the error messages read
  (`ConstructorNameIn`), and `null` or `undefined` there turns those errors into a
  TypeError. `Get`, `Set` and `Delete` cover all of these states.
- **`ObjectHelper.isObject` / `ObjectHelper.deepMerge`** (`object_helper.dfy`, module
  `ObjectHelper`). The merge is recursive, left to right, over JSON-like trees. Values
  are the datatype `JsValues.Value`, with JavaScript truthiness and `typeof`. The
  functions `MergeInto` (one source) and `Merge` (all sources) are the specification.
  The methods `MergeOne` (the `for...in` loop) and `DeepMerge` (the `shift()` and the
  recursive call) are the code, and each is proved to compute the function.
  Reading `target[key]` also finds the methods every plain object inherits from
  `Object.prototype` (`toString`, `constructor`, ...). Writing a key `__proto__`
  that the target does not own changes no own field.

Three behaviours of the code are easy to overlook:

- `deepMerge({a: 1}, {a: {b: 2}})` leaves `a` at `1`. A `{}` is created only when the
  target's value is falsy, and merging into the truthy number `1` does nothing. See
  `ObjectHelper.TruthyScalarBlocksNestedMerge`. For the same reason
  `deepMerge({}, {constructor: {x: 1}})` leaves the target `{}`: `target.constructor`
  is the inherited `Object` function. See `ObjectHelper.InheritedNameBlocksNestedMerge`.
- The first branch of each trap tests `prop in target`. That test covers inherited
  members, not only own fields.
- For a name with neither a field nor an accessor, `deleteProperty` returns
  `undefined` and changes nothing. It does not throw.

## Model

| member | source | states |
|---|---|---|
| `JsValues.TypeOf` | helpers/ObjectHelper.js:15 | `typeof` is `'object'` exactly for `null`, arrays and plain objects |
| `ObjectHelper.IsObject` | helpers/ObjectHelper.js:14-16 | truthy, `typeof` 'object' and not an array holds, among the modelled values, exactly for plain objects |
| `ObjectHelper.MergeInto` | helpers/ObjectHelper.js:37-48 | one source: the result is an object iff the target is; if either side is not a plain object the target is returned unchanged; otherwise the keys are the target's plus the source keys it gains (all but `__proto__` and inherited method names holding an object) |
| `ObjectHelper.Merge` | helpers/ObjectHelper.js:31-51 | with no sources the target is returned; a non-object target is returned unchanged whatever the sources; the result is an object iff the target is |
| `ObjectHelper.MergeOne` | helpers/ObjectHelper.js:37-47 | the `for...in` loop over the source's keys, including the `{}` for a falsy slot and the nested call, computes `MergeInto`, whatever order the keys are visited in |
| `ObjectHelper.DeepMerge` | helpers/ObjectHelper.js:31-51 | shifting the sources off one by one and recursing computes `Merge` |
| `ObjectHelper.MergeIntoEmptyCopies` | helpers/ObjectHelper.js:39-43 | merging an object into `{}` yields its `Copy` (the keys `{}` gains, nested objects copied alike), which is the object itself when no key at any depth is `__proto__` or an inherited method name holding an object |
| `ObjectHelper.CopyOfOrdinary` | helpers/ObjectHelper.js:39-45 | copying an object without such keys gives it back unchanged |
| `ObjectHelper.MergeIntoSelf` | helpers/ObjectHelper.js:37-47 | merging an object into itself changes nothing |
| `ObjectHelper.MergeIntoKey` | helpers/ObjectHelper.js:38-47 | per key: absent from the source, kept (or still absent); non-object in the source, overwritten by it; object over a falsy slot, becomes the `Copy` of the source's object; object over an object, merged recursively; object over an own truthy non-object, left unchanged; object over an inherited method, or any value at a `__proto__` the target does not own, adds no own key |
| `ObjectHelper.MergeAppend` | helpers/ObjectHelper.js:35-50 | merging `a + b` equals merging `a` and then `b` (left-to-right application) |
| `ObjectHelper.NonObjectSourceSkipped` | helpers/ObjectHelper.js:37-50 | a source that is not a plain object contributes nothing, and the remaining sources are still merged |
| `ObjectHelper.LastSourceWins` | helpers/ObjectHelper.js:44-50 | when the last source has a non-object at a key, that is the result's value at the key; the key is absent only when it is `__proto__` and not owned before the last source |
| `ObjectHelper.UntouchedKeyKept` | helpers/ObjectHelper.js:37-47 | a target key that no plain-object source mentions keeps its original value |
| `ObjectHelper.MergeKeys` | helpers/ObjectHelper.js:37-50 | the result's top-level keys are exactly the target's keys plus the keys the plain-object sources add, and never a key no source mentions |
| `ObjectHelper.DocumentedExample` | helpers/ObjectHelper.js:25-29 | `deepMerge({message: {greeting: 'Hello', subject: 'World'}}, {message: {subject: 'Doggo'}})` is `{message: {greeting: 'Hello', subject: 'Doggo'}}` |
| `ObjectHelper.TruthyScalarBlocksNestedMerge` | helpers/ObjectHelper.js:40-43 | `deepMerge({a:1}, {a:{b:2}})` is `{a:1}` |
| `ObjectHelper.FalsyScalarReplaced` | helpers/ObjectHelper.js:40-43 | `deepMerge({a:0}, {a:{b:2}})` is `{a:{b:2}}` |
| `ObjectHelper.InheritedNameBlocksNestedMerge` | helpers/ObjectHelper.js:37-43 | `deepMerge({}, {constructor: {x:1}})` is `{}` |
| `Base.Ucfirst` | base/BaseObject.js:82 | same length, first character upper-cased, the rest unchanged |
| `Base.UcfirstIdempotent` | base/BaseObject.js:82 | applying `ucfirst` twice is applying it once |
| `Base.AccessorNamesAgree` | base/BaseObject.js:108 | two names share getter and setter names iff they agree after `ucfirst`; a name and its `ucfirst` form share accessors |
| `Base.GetterIsNeverSetter` | base/BaseObject.js:86-89 | no getter name is ever a setter name, so the two accessor tests never look up the same member |
| `Base.ReadRouteByMode` | base/BaseObject.js:81-94 | `get` uses the stored member exactly for present names, calls the getter exactly for read-write and read-only properties, refuses exactly write-only ones, and reports unknown exactly for unknown names |
| `Base.WriteRouteByMode` | base/BaseObject.js:107-122 | `set` and `deleteProperty` store exactly for present names, call the setter exactly for read-write and write-only properties, refuse exactly read-only ones, and find nothing exactly for unknown names |
| `Base.UnknownForBothDirections` | base/BaseObject.js:83-121 | a name is unknown to `get` iff it is unknown to `set`, and present for one iff present for the other |
| `Base.ReadError` | base/BaseObject.js:89-93 | a failed read throws InvalidCall iff the property is write-only and UnknownProperty iff it is unknown; the message ends with `<ClassName>.<prop>` |
| `Base.WriteError` | base/BaseObject.js:117-121 | a failed write throws InvalidCall iff the property is read-only and UnknownProperty iff it is unknown; the message ends with `<ClassName>.<prop>` |
| `Base.MisspeltConstructorThrowsTypeError` | base/BaseObject.js:93 | on an instance without a `cosntructor` member, an unknown name throws TypeError as written, where the corrected read and write errors are UnknownProperty |
| `Base.ObjectAssign` | base/BaseObject.js:47-49 | every configuration key is copied with its value; other keys keep theirs |
| `Base.BaseObject.constructor` | base/BaseObject.js:46-52 | requires the inherited traps, `init`, `className`, `__proto__` and the `Object.prototype` methods among the members; `init` runs on exactly the configuration's fields (none for an empty configuration); no accessor has been called |
| `Base.BaseObject.Get` | base/BaseObject.js:81-94 | with the inherited trap: present name, its stored value, no accessor called; else getter, its result, one getter call with no arguments, except that for the empty name the getter is the `get` trap itself and the read throws a TypeError; else the `ReadError` (or the TypeError of reading a cleared constructor's name); with the trap cleared, the plain member or `undefined`; with a function as trap, that call and its result; with any other value as trap, a TypeError; fields never change |
| `Base.BaseObject.Set` | base/BaseObject.js:107-122 | with the inherited trap: present name, exactly that field is assigned, `true`; else setter, called once with the value, fields unchanged, `true`, except that for the empty name the setter is the `set` trap itself and a primitive value throws a TypeError; else the `WriteError` (or the constructor's TypeError), nothing changed; with the trap cleared, the field is assigned whatever accessors exist; with a function as trap, that call and its result; with any other value, a TypeError; no name stops being present |
| `Base.BaseObject.Delete` | base/BaseObject.js:135-148 | with the inherited trap: present name, set to `null` and kept present, `true`; else setter, called with `null`, `true`, except that for the empty name the inherited `set` trap runs on `null` and throws a TypeError; else getter, InvalidCall "Unsetting read-only property" (or the constructor's TypeError), nothing changed; else `undefined`, nothing changed; with the trap cleared, the own field is removed, `true`; with a function as trap, that call and its result; with any other value, a TypeError |
| `Base.DeletedFieldReadsNull` | base/BaseObject.js:137-139 | on an instance with its own traps, after deleting a present name (a trap name included), reading it returns `null` rather than failing, and no accessor is called |
| `Base.WrittenFieldReadsBack` | base/BaseObject.js:109-111 | on an instance with its own traps, after writing a present name, reading it returns the written value with no accessor called, except for `get`: a function written there answers the read, and any other non-null value makes it throw a TypeError |
| `Base.ReadOnlyProperty` | base/BaseObject.js:24 | getter only: the read returns the getter's result; the write and the delete throw InvalidCall; fields unchanged |
| `Base.WriteOnlyProperty` | base/BaseObject.js:24 | setter only: the write and the delete call the setter with the value and then with `null`; the read throws InvalidCall |
| `Base.UnknownName` | base/BaseObject.js:145-148 | no field and no accessor: read and write throw UnknownProperty; delete returns `undefined`; nothing changes |
| `Base.EmptyNameIsReadWrite` | base/BaseObject.js:82-89 | the empty name's getter and setter are the inherited `get` and `set` traps, so it is always stored or read-write |
| `Base.EmptyNameThrows` | base/BaseObject.js:81-88 | for an absent empty name, the read, the write of a primitive and the delete each call a trap with no usable target and throw a TypeError; nothing changes |
| `Base.ReplacedGetTrapThrows` | base/BaseObject.js:46-52 | the handler is the instance itself (`new Proxy(this, this)`), so writing a non-function, non-null value to `get` stores it, and every later read of any name throws a TypeError |
| `Base.ClearedDeleteTrapRemoves` | base/BaseObject.js:46-52 | after `delete o.deleteProperty` clears that trap to `null`, a later delete removes the own field and returns `true` |
| `Base.ClearedSetTrapBypassesSetter` | base/BaseObject.js:46-52 | after `delete o.set` clears that trap to `null`, a later write stores an own field with no setter called |
| `Base.ClearedConstructorThrowsTypeError` | base/BaseObject.js:117-118 | after `delete o.constructor`, writing a read-only property throws a TypeError instead of InvalidCall |

## Left out

- The `Proxy` wrapping (base/BaseObject.js:51). Callers use `Get`, `Set` and `Delete` directly, so the proxy's receiver argument and its invariant checks are not modelled.
- What the caller does with a trap's result. `Set` and `Delete` return what the trap returns; the proxy converts it to a boolean, and a falsy result (the `deleteProperty` trap's `undefined`, say) is `false` in sloppy mode and a TypeError in strict mode.
- `Base.BaseObject.Set`: for the empty name with an object value, the `set` trap then runs on that object as its target, with the name `undefined`. The model records it as the setter call and returns `true`.
- Accessor bodies and `init`. They are user code, and in the model they never change the own fields. In JavaScript a getter or setter runs with `this` bound to the raw instance and may change fields; `Get`'s "fields never change" and the accessor branches of `Set` and `Delete` rest on this. A getter's result is a parameter, a setter call is a log entry, and `init` is an arbitrary function on the own fields. Calling a member under an accessor name that is not a function (a TypeError in JavaScript) is not modelled.
- Inherited members that are themselves accessor properties, such as the `className` getter (base/BaseObject.js:60-62). Inherited members are plain values, so reading one does not run code and writing over one does not throw. `className` is a constant used only in messages.
- A subclass that overrides the `get`, `set` or `deleteProperty` method. The inherited traps are always the ones of base/BaseObject.js.
- A function stored under a trap name is user code whose effect on the fields is not modelled, even when it is the inherited trap itself (`o.get = o.get`). Its call is logged with the property name (and the value, for `set`), without the target and the receiver.
- `Base.ConstructorNameIn`: for an own `constructor` that is an object whose `name` is a number, function, array or object, the message keeps the class name; JavaScript would stringify that value. The engine's TypeError message text is also left out.
- `Base.DeletedFieldReadsNull`, `Base.WrittenFieldReadsBack`, `Base.ReadOnlyProperty`, `Base.WriteOnlyProperty` and `Base.UnknownName` are stated for an instance whose own fields shadow no trap and no `constructor` (`TrapsIntact`). Other instances are covered by the contracts of `Get`, `Set` and `Delete` and by the four trap scenarios.
- A configuration key named `init` holding a non-function: `this.init()` (base/BaseObject.js:50) then throws a TypeError. The constructor always runs `init`.
- Symbol-keyed properties.
- `Base.Ucfirst`: upper-cases ASCII letters only. JavaScript's `toUpperCase` follows Unicode and can lengthen a string (`'ß'` becomes `'SS'`).
- `empty(config)` for a configuration that is not an object (`null`, strings, numbers). The configuration is always a map, and "empty" means "has no keys".
- `ObjectHelper.DeepMerge`: works on values, so update in place and aliasing are not captured. The result is the merged value, not "the same target reference". Nested objects shared within the target, or between the target and a source, are not modelled.
- `ObjectHelper.IsObject`: non-plain objects (`Date`, `Map`, class instances) are not modelled. `isObject` accepts them, and `deepMerge` recurses into them, so `deepMerge({}, {d: new Date()})` leaves `d` as `{}`.
- `isObject` returns the falsy operand itself (`null`, `0`, `''`) rather than `false`. The model keeps only the truthiness.
- The order of `for...in` and its inherited enumerable keys. Sources are plain maps. `MergeOne` is proved correct for any key order.
- What a `__proto__` key that the target does not own does to prototypes. A non-object value goes through the inherited `__proto__` setter and may replace the target's prototype. An object value reads `target.__proto__`, which is `Object.prototype`, and the nested merge writes the source's keys into `Object.prototype` (prototype pollution). The model captures only that the target's own fields do not change. Either change also alters later `target[key]` reads in the same merge, so in JavaScript the result can depend on the source's key order; `MergeOne`'s independence from that order holds only in the model.
- A cyclic source (an object that contains itself). `deepMerge` then recurses until the stack overflows and throws a RangeError. Values in the model are finite trees, so no cycle exists.
- Fractional numbers, `NaN`, `-0` and BigInt. Numbers are integers, so the falsy numbers are exactly `0`.
- The error classes in base/*Error.js. They are only the closed enumeration `Base.ErrorKind`.
- We.js (the per-class logger registry) and log/Logger.js (console output). Neither is part of this model: they are logging I/O.

## Findings

| source | as written | input that shows it | evidently intended | confidence | as-written member | corrected member |
|---|---|---|---|---|---|---|
| base/BaseObject.js:93 | the message is built from `target.cosntructor.name`; `cosntructor` is `undefined`, so reading `.name` throws a TypeError first | reading any name that has no field, getter or setter on an instance without a `cosntructor` member | throw UnknownPropertyError "Getting unknown property: `<ClassName>.<prop>`" | high (not executed) | `Base.MisspeltConstructorThrowsTypeError` | `Base.ReadError` |
| base/BaseObject.js:121 | the same misspelling in the `set` trap | writing any name that has no field, getter or setter on an instance without a `cosntructor` member | throw UnknownPropertyError "Setting unknown property: `<ClassName>.<prop>`" | high (not executed) | `Base.MisspeltConstructorThrowsTypeError` | `Base.WriteError` |
