/** `BaseObject`: every read, write and delete of a property name on an
    instance goes through one priority chain — a present name first, then
    the accessor `get<Name>` / `set<Name>`, then the opposite accessor (a
    read-only or write-only violation), then nothing.

    The instance's own fields are a map the methods reassign; the members it
    inherits through the prototype chain (methods, among them the accessors)
    are fixed. Accessor bodies are user code: the model records each call
    in `calls`, and the value a getter returns is a parameter of `Get`. */
module Base {
  import opened JsValues

  /** The error kinds. All but `TypeError` are the framework's own error
      classes; `TypeError` is raised by the JavaScript runtime itself. */
  datatype ErrorKind =
    | InvalidCall | InvalidConfig | InvalidParam | InvalidRoute | InvalidValue
    | NotSupported | UnknownClass | UnknownMethod | UnknownProperty
    | TypeError

  datatype Error = Error(kind: ErrorKind, message: string)

  /** What a trap does: return a value, or throw. */
  datatype Outcome<T> = Ok(value: T) | Fail(error: Error)

  /** A call of a user-defined accessor method, with its arguments. */
  datatype Invocation = Invocation(name: string, args: seq<Value>)

  // ---------------------------------------------------------------------
  // The naming convention

  /** `toUpperCase` on one character (ASCII letters only). */
  function UpperCase(c: char): char
  {
    if 'a' <= c <= 'z' then (c as int - 32) as char else c
  }

  /** `ucfirst(s)`: the first character upper-cased, the rest unchanged. */
  function Ucfirst(s: string): (r: string)
    ensures |r| == |s|
    ensures |s| > 0 ==> r[0] == UpperCase(s[0]) && r[1..] == s[1..]
  {
    if |s| == 0 then s else [UpperCase(s[0])] + s[1..]
  }

  /** The name of the getter for property `p`: `'get' + ucfirst(p)`. */
  function GetterName(p: string): string
  {
    "get" + Ucfirst(p)
  }

  /** The name of the setter for property `p`: `'set' + ucfirst(p)`. */
  function SetterName(p: string): string
  {
    "set" + Ucfirst(p)
  }

  /** Upper-casing the first character twice is upper-casing it once. */
  lemma UcfirstIdempotent(s: string)
    ensures Ucfirst(Ucfirst(s)) == Ucfirst(s)
  {
    if |s| > 0 {
      assert Ucfirst(Ucfirst(s)) == [UpperCase(UpperCase(s[0]))] + s[1..];
    }
  }

  /** Two names share their accessors exactly when they agree after
      `ucfirst`: `label` and `Label` both use `getLabel` and `setLabel`. */
  lemma AccessorNamesAgree(p: string, q: string)
    ensures GetterName(p) == GetterName(q) <==> Ucfirst(p) == Ucfirst(q)
    ensures SetterName(p) == SetterName(q) <==> Ucfirst(p) == Ucfirst(q)
    ensures GetterName(Ucfirst(p)) == GetterName(p) && SetterName(Ucfirst(p)) == SetterName(p)
  {
    if GetterName(p) == GetterName(q) {
      assert Ucfirst(p) == GetterName(p)[3..] && Ucfirst(q) == GetterName(q)[3..];
    }
    if SetterName(p) == SetterName(q) {
      assert Ucfirst(p) == SetterName(p)[3..] && Ucfirst(q) == SetterName(q)[3..];
    }
    UcfirstIdempotent(p);
  }

  /** A getter name is never a setter name, whatever the two properties. */
  lemma GetterIsNeverSetter(p: string, q: string)
    ensures GetterName(p) != SetterName(q)
  {
    assert GetterName(p)[0] == 'g' && SetterName(q)[0] == 's';
  }

  // ---------------------------------------------------------------------
  // The dispatch rule

  /** Which branch of a trap handles a name. */
  datatype Route =
    | Direct     // the name is present: the stored member is used
    | Accessor   // the accessor for this direction exists
    | Misuse     // only the accessor for the other direction exists
    | NoSuchName // neither the name nor an accessor exists

  /** The branch the `get` trap takes: presence, then the getter, then the setter. */
  function ReadRoute(present: set<string>, p: string): Route
  {
    if p in present then Direct
    else if GetterName(p) in present then Accessor
    else if SetterName(p) in present then Misuse
    else NoSuchName
  }

  /** The branch the `set` and `deleteProperty` traps take: presence, then
      the setter, then the getter. */
  function WriteRoute(present: set<string>, p: string): Route
  {
    if p in present then Direct
    else if SetterName(p) in present then Accessor
    else if GetterName(p) in present then Misuse
    else NoSuchName
  }

  /** How a name can be used, as the class documents it: a stored member,
      or a virtual property with both accessors, only a getter (read-only),
      only a setter (write-only), or none (unknown). */
  datatype Mode = Stored | ReadWrite | ReadOnly | WriteOnly | Unknown

  function ModeOf(present: set<string>, p: string): Mode
  {
    var hasGetter := GetterName(p) in present;
    var hasSetter := SetterName(p) in present;
    if p in present then Stored
    else if hasGetter && hasSetter then ReadWrite
    else if hasGetter then ReadOnly
    else if hasSetter then WriteOnly
    else Unknown
  }

  /** The `get` trap reads exactly the stored members and the readable
      virtual properties, and refuses the write-only ones. */
  lemma ReadRouteByMode(present: set<string>, p: string)
    ensures ReadRoute(present, p) == Direct <==> ModeOf(present, p) == Stored
    ensures ReadRoute(present, p) == Accessor <==> ModeOf(present, p) in {ReadWrite, ReadOnly}
    ensures ReadRoute(present, p) == Misuse <==> ModeOf(present, p) == WriteOnly
    ensures ReadRoute(present, p) == NoSuchName <==> ModeOf(present, p) == Unknown
  {
  }

  /** The `set` and `deleteProperty` traps write exactly the stored members
      and the writable virtual properties, and refuse the read-only ones. */
  lemma WriteRouteByMode(present: set<string>, p: string)
    ensures WriteRoute(present, p) == Direct <==> ModeOf(present, p) == Stored
    ensures WriteRoute(present, p) == Accessor <==> ModeOf(present, p) in {ReadWrite, WriteOnly}
    ensures WriteRoute(present, p) == Misuse <==> ModeOf(present, p) == ReadOnly
    ensures WriteRoute(present, p) == NoSuchName <==> ModeOf(present, p) == Unknown
  {
  }

  /** A name is unknown to reads exactly when it is unknown to writes. */
  lemma UnknownForBothDirections(present: set<string>, p: string)
    ensures ReadRoute(present, p) == NoSuchName <==> WriteRoute(present, p) == NoSuchName
    ensures ReadRoute(present, p) == Direct <==> WriteRoute(present, p) == Direct
  {
  }

  /** The error the `get` trap throws for a name it cannot read: the
      setter test picks write-only over unknown. */
  function ReadError(present: set<string>, p: string, className: string): (e: Error)
    requires ReadRoute(present, p) in {Misuse, NoSuchName}
    ensures e.kind == InvalidCall <==> ModeOf(present, p) == WriteOnly
    ensures e.kind == UnknownProperty <==> ModeOf(present, p) == Unknown
    ensures |className + "." + p| <= |e.message|
    ensures e.message[|e.message| - |className + "." + p|..] == className + "." + p
  {
    if ReadRoute(present, p) == Misuse then
      Error(InvalidCall, "Getting write-only property: " + className + "." + p)
    else
      Error(UnknownProperty, "Getting unknown property: " + className + "." + p)
  }

  /** The error the `set` trap throws for a name it cannot write: the
      getter test picks read-only over unknown. */
  function WriteError(present: set<string>, p: string, className: string): (e: Error)
    requires WriteRoute(present, p) in {Misuse, NoSuchName}
    ensures e.kind == InvalidCall <==> ModeOf(present, p) == ReadOnly
    ensures e.kind == UnknownProperty <==> ModeOf(present, p) == Unknown
    ensures |className + "." + p| <= |e.message|
    ensures e.message[|e.message| - |className + "." + p|..] == className + "." + p
  {
    if WriteRoute(present, p) == Misuse then
      Error(InvalidCall, "Setting read-only property: " + className + "." + p)
    else
      Error(UnknownProperty, "Setting unknown property: " + className + "." + p)
  }

  /** The unknown-name branch of `get` and `set` as written: its message
      reads `target.cosntructor.name` (a misspelling of `constructor`).
      Unless the instance happens to have a member of that name, the member
      is `undefined`, and reading `.name` of `undefined` or `null` throws a
      TypeError before the UnknownPropertyError is built. */
  function UnknownKindAsWritten(fields: map<string, Value>, members: map<string, Value>): ErrorKind
  {
    var ctor := if "cosntructor" in fields then fields["cosntructor"] else Prop(members, "cosntructor");
    if ctor.Undefined? || ctor.Null? then TypeError else UnknownProperty
  }

  /** On an ordinary instance, with no member named `cosntructor`, the
      unknown-name branch as written throws a TypeError, where the corrected
      `ReadError` and `WriteError` give UnknownProperty. */
  lemma MisspeltConstructorThrowsTypeError(fields: map<string, Value>, members: map<string, Value>,
                                           p: string, className: string)
    requires "cosntructor" !in fields && "cosntructor" !in members
    requires ReadRoute(fields.Keys + members.Keys, p) == NoSuchName
    ensures UnknownKindAsWritten(fields, members) == TypeError
    ensures WriteRoute(fields.Keys + members.Keys, p) == NoSuchName
    ensures ReadError(fields.Keys + members.Keys, p, className).kind == UnknownProperty
    ensures WriteError(fields.Keys + members.Keys, p, className).kind == UnknownProperty
  {
    UnknownForBothDirections(fields.Keys + members.Keys, p);
  }

  /** The error the `deleteProperty` trap throws for a read-only property. */
  function UnsetReadOnlyError(p: string, className: string): Error
  {
    Error(InvalidCall, "Unsetting read-only property: " + className + "." + p)
  }

  /** `Object.assign(target, source)` on plain maps: every key of the source
      is copied over, and the other keys of the target keep their values. */
  function ObjectAssign(target: map<string, Value>, source: map<string, Value>): (r: map<string, Value>)
    ensures r.Keys == target.Keys + source.Keys
    ensures forall k :: k in source ==> r[k] == source[k]
    ensures forall k :: k in target && k !in source ==> r[k] == target[k]
  {
    target + source
  }

  // ---------------------------------------------------------------------
  // The instance

  /** The members every instance inherits: the three traps, the `init` hook,
      the `className` getter, the `__proto__` accessor and the methods of
      `Object.prototype`, among them `constructor`. */
  const BaseMembers: set<string> :=
    {"get", "set", "deleteProperty", "init", "className", "__proto__"} + ObjectPrototypeMethods

  /** The proxy's handler is the instance itself, so the proxy reads each
      trap like any other member: an own field of the trap's name shadows
      the inherited method, and its value decides what the proxy does. */
  datatype Trap =
    | Inherited    // no own field of that name: the class's trap runs
    | Default      // an own `null` or `undefined`: the proxy acts on the instance directly
    | NotCallable  // any other value that is not a function: the proxy throws a TypeError
    | UserFunction // a function stored in the field: that user code runs instead

  /** A TypeError thrown by the runtime; its message text is the engine's. */
  const RuntimeTypeError: Error := Error(TypeError, "")

  /** Whether `prop in v` can be evaluated: only objects (arrays and
      functions among them) have properties, and any other right operand
      of `in` throws a TypeError. */
  predicate HasProperties(v: Value)
  {
    v.Obj? || v.Arr? || v.Fn?
  }

  /** The trap the proxy finds under `name` when the own fields are `fields`. */
  function TrapIn(fields: map<string, Value>, name: string): Trap
  {
    if name !in fields then Inherited
    else match fields[name]
      case Undefined => Default
      case Null => Default
      case Fn(_) => UserFunction
      case _ => NotCallable
  }

  /** `target.constructor.name`, as the error messages read it: the class's
      own name unless an own `constructor` field shadows the inherited one.
      Reading `.name` of `null` or `undefined` throws; other primitives and
      arrays have no `name`, which reads as `undefined`. */
  function ConstructorNameIn(fields: map<string, Value>, className: string): Outcome<string>
  {
    if "constructor" !in fields then Ok(className)
    else match fields["constructor"]
      case Undefined => Fail(RuntimeTypeError)
      case Null => Fail(RuntimeTypeError)
      case Fn(n) => Ok(n)
      case Obj(m) =>
        (match Prop(m, "name")
         case Str(s) => Ok(s)
         case Undefined => Ok("undefined")
         case Null => Ok("null")
         case Bool(b) => Ok(if b then "true" else "false")
         case _ => Ok(className))
      case _ => Ok("undefined")
  }

  class BaseObject {
    /** The instance's own fields. */
    var fields: map<string, Value>
    /** The members it inherits through the prototype chain (its methods,
        among them the accessors), with their values. */
    const members: map<string, Value>
    /** The name of the class, `constructor.name` of the inherited constructor. */
    const className: string
    /** The user code the traps have invoked (accessors, and functions
        installed in place of a trap), oldest first. */
    var calls: seq<Invocation>

    /** Every instance inherits the traps, `init`, `className` and the
        methods of `Object.prototype`. */
    predicate Inherits()
    {
      BaseMembers <= members.Keys
    }

    /** No own field shadows a trap or `constructor`: the state of every
        instance whose configuration and `init` set none of those names. */
    predicate TrapsIntact()
      reads this
    {
      {"get", "set", "deleteProperty", "constructor"} !! fields.Keys
    }

    /** `prop in target`: own fields and inherited members alike. */
    function Present(): set<string>
      reads this
    {
      fields.Keys + members.Keys
    }

    /** `target[prop]` for a present name: an own field shadows an
        inherited member. */
    function Lookup(p: string): Value
      reads this
      requires p in Present()
    {
      if p in fields then fields[p] else members[p]
    }

    /** The trap the proxy finds under `name`. */
    function TrapOf(name: string): Trap
      reads this
    {
      TrapIn(fields, name)
    }

    /** The error a failed read throws: building its message reads the
        constructor's name first, and a TypeError from that read wins. */
    function ReadFailure(p: string): Error
      reads this
      requires ReadRoute(Present(), p) in {Misuse, NoSuchName}
    {
      match ConstructorNameIn(fields, className)
      case Ok(n) => ReadError(Present(), p, n)
      case Fail(e) => e
    }

    /** The error a failed write throws, read the same way. */
    function WriteFailure(p: string): Error
      reads this
      requires WriteRoute(Present(), p) in {Misuse, NoSuchName}
    {
      match ConstructorNameIn(fields, className)
      case Ok(n) => WriteError(Present(), p, n)
      case Fail(e) => e
    }

    /** The error a delete of a read-only property throws, read the same way. */
    function UnsetFailure(p: string): Error
      reads this
    {
      match ConstructorNameIn(fields, className)
      case Ok(n) => UnsetReadOnlyError(p, n)
      case Fail(e) => e
    }

    /** `new C(config)`: when the configuration has keys they are copied
        onto the instance, then the `init` hook runs on the raw instance. */
    constructor (className: string, members: map<string, Value>, config: map<string, Value>,
                 init: map<string, Value> -> map<string, Value>)
      requires BaseMembers <= members.Keys
      ensures this.className == className && this.members == members
      ensures Inherits()
      ensures fields == init(config)
      ensures calls == []
    {
      this.className := className;
      this.members := members;
      fields := map[];
      calls := [];
      new;
      if |config| != 0 {
        fields := ObjectAssign(fields, config);
        assert fields == config;
      } else {
        assert config == map[];
      }
      fields := init(fields);
    }

    /** A read through the proxy: the `get` trap, or what replaced it. A
        function installed as the trap receives the property name; what it
        returns is `reply`, as is what a getter returns. For the empty name
        the getter `'get' + ucfirst('')` is the `get` trap itself, called
        with no target, and `prop in undefined` throws a TypeError. */
    method Get(p: string, reply: Value) returns (r: Outcome<Value>)
      modifies this`calls
      ensures fields == old(fields)
      ensures TrapOf("get") == Default ==>
                r == Ok(if p in Present() then Lookup(p) else Undefined) && calls == old(calls)
      ensures TrapOf("get") == NotCallable ==>
                r == Fail(RuntimeTypeError) && calls == old(calls)
      ensures TrapOf("get") == UserFunction ==>
                r == Ok(reply) && calls == old(calls) + [Invocation("get", [Str(p)])]
      ensures TrapOf("get") == Inherited && ReadRoute(Present(), p) == Direct ==>
                r == Ok(Lookup(p)) && calls == old(calls)
      ensures TrapOf("get") == Inherited && ReadRoute(Present(), p) == Accessor && p != "" ==>
                r == Ok(reply) && calls == old(calls) + [Invocation(GetterName(p), [])]
      ensures TrapOf("get") == Inherited && ReadRoute(Present(), p) == Accessor && p == "" ==>
                r == Fail(RuntimeTypeError) && calls == old(calls)
      ensures TrapOf("get") == Inherited && ReadRoute(Present(), p) in {Misuse, NoSuchName} ==>
                r == Fail(ReadFailure(p)) && calls == old(calls)
    {
      match TrapOf("get")
      case Default =>
        return Ok(if p in Present() then Lookup(p) else Undefined);
      case NotCallable =>
        return Fail(RuntimeTypeError);
      case UserFunction =>
        calls := calls + [Invocation("get", [Str(p)])];
        return Ok(reply);
      case Inherited =>
        var getter := GetterName(p);
        if p in Present() {
          return Ok(Lookup(p));
        } else if getter in Present() {
          if p == "" {
            return Fail(RuntimeTypeError);
          }
          calls := calls + [Invocation(getter, [])];
          return Ok(reply);
        }
        return Fail(ReadFailure(p));
    }

    /** A write through the proxy: the `set` trap, or what replaced it. The
        result is what the trap returns (`true` from the class's trap,
        `reply` from a function installed as the trap, which receives the
        name and the value); the proxy's conversion of it to a boolean is
        left to the caller, as for `Delete`. For the empty name the setter
        `'set' + ucfirst('')` is the `set` trap itself, called with the value
        as its target: `prop in v` throws a TypeError for every primitive. */
    method Set(p: string, v: Value, reply: Value) returns (r: Outcome<Value>)
      modifies this`fields, this`calls
      ensures old(Present()) <= Present()
      ensures old(TrapOf("set")) == Default ==>
                r == Ok(Bool(true)) && fields == old(fields)[p := v] && calls == old(calls)
      ensures old(TrapOf("set")) == NotCallable ==>
                r == Fail(RuntimeTypeError) && fields == old(fields) && calls == old(calls)
      ensures old(TrapOf("set")) == UserFunction ==>
                r == Ok(reply) && fields == old(fields)
                && calls == old(calls) + [Invocation("set", [Str(p), v])]
      ensures old(TrapOf("set")) == Inherited && WriteRoute(old(Present()), p) == Direct ==>
                r == Ok(Bool(true)) && fields == old(fields)[p := v] && calls == old(calls)
      ensures old(TrapOf("set")) == Inherited && WriteRoute(old(Present()), p) == Accessor
              && (p != "" || HasProperties(v)) ==>
                r == Ok(Bool(true)) && fields == old(fields) && calls == old(calls) + [Invocation(SetterName(p), [v])]
      ensures old(TrapOf("set")) == Inherited && WriteRoute(old(Present()), p) == Accessor
              && p == "" && !HasProperties(v) ==>
                r == Fail(RuntimeTypeError) && fields == old(fields) && calls == old(calls)
      ensures old(TrapOf("set")) == Inherited && WriteRoute(old(Present()), p) in {Misuse, NoSuchName} ==>
                r == Fail(old(WriteFailure(p))) && fields == old(fields) && calls == old(calls)
    {
      match TrapOf("set")
      case Default =>
        fields := fields[p := v];
        return Ok(Bool(true));
      case NotCallable =>
        return Fail(RuntimeTypeError);
      case UserFunction =>
        calls := calls + [Invocation("set", [Str(p), v])];
        return Ok(reply);
      case Inherited =>
        var setter := SetterName(p);
        if p in Present() {
          fields := fields[p := v];
          return Ok(Bool(true));
        } else if setter in Present() {
          if p == "" && !HasProperties(v) {
            return Fail(RuntimeTypeError);
          }
          calls := calls + [Invocation(setter, [v])];
          return Ok(Bool(true));
        }
        return Fail(WriteFailure(p));
    }

    /** A delete through the proxy: the `deleteProperty` trap, or what
        replaced it. The class's trap clears a present name to `null` rather
        than removing it, and for a name with neither a field nor an
        accessor it falls off its end and returns `undefined`. Without a
        trap the own field is really removed. The result is what the trap
        returns, as for `Set`. For the empty name the setter is `set`: when
        that is the inherited trap it runs with `null` as its target, and
        `prop in null` throws a TypeError. */
    method Delete(p: string, reply: Value) returns (r: Outcome<Value>)
      modifies this`fields, this`calls
      ensures old(TrapOf("deleteProperty")) != Default ==> Present() == old(Present())
      ensures old(TrapOf("deleteProperty")) == Default ==>
                r == Ok(Bool(true)) && fields == old(fields) - {p} && calls == old(calls)
      ensures old(TrapOf("deleteProperty")) == NotCallable ==>
                r == Fail(RuntimeTypeError) && fields == old(fields) && calls == old(calls)
      ensures old(TrapOf("deleteProperty")) == UserFunction ==>
                r == Ok(reply) && fields == old(fields)
                && calls == old(calls) + [Invocation("deleteProperty", [Str(p)])]
      ensures old(TrapOf("deleteProperty")) == Inherited && WriteRoute(old(Present()), p) == Direct ==>
                r == Ok(Bool(true)) && fields == old(fields)[p := Null] && calls == old(calls)
      ensures old(TrapOf("deleteProperty")) == Inherited && WriteRoute(old(Present()), p) == Accessor
              && (p != "" || "set" in old(fields)) ==>
                r == Ok(Bool(true)) && fields == old(fields) && calls == old(calls) + [Invocation(SetterName(p), [Null])]
      ensures old(TrapOf("deleteProperty")) == Inherited && WriteRoute(old(Present()), p) == Accessor
              && p == "" && "set" !in old(fields) ==>
                r == Fail(RuntimeTypeError) && fields == old(fields) && calls == old(calls)
      ensures old(TrapOf("deleteProperty")) == Inherited && WriteRoute(old(Present()), p) == Misuse ==>
                r == Fail(old(UnsetFailure(p))) && fields == old(fields) && calls == old(calls)
      ensures old(TrapOf("deleteProperty")) == Inherited && WriteRoute(old(Present()), p) == NoSuchName ==>
                r == Ok(Undefined) && fields == old(fields) && calls == old(calls)
    {
      match TrapOf("deleteProperty")
      case Default =>
        fields := fields - {p};
        return Ok(Bool(true));
      case NotCallable =>
        return Fail(RuntimeTypeError);
      case UserFunction =>
        calls := calls + [Invocation("deleteProperty", [Str(p)])];
        return Ok(reply);
      case Inherited =>
        var setter := SetterName(p);
        if p in Present() {
          fields := fields[p := Null];
          return Ok(Bool(true));
        } else if setter in Present() {
          if p == "" && "set" !in fields {
            return Fail(RuntimeTypeError);
          }
          calls := calls + [Invocation(setter, [Null])];
          return Ok(Bool(true));
        } else if GetterName(p) in Present() {
          return Fail(UnsetFailure(p));
        }
        return Ok(Undefined);
    }
  }

  // ---------------------------------------------------------------------
  // Properties that relate several operations

  /** The empty name's accessors are the traps `get` and `set`, which every
      instance inherits, so it is never read-only, write-only or unknown. */
  lemma EmptyNameIsReadWrite(o: BaseObject)
    requires o.Inherits()
    ensures ModeOf(o.Present(), "") in {Stored, ReadWrite}
  {
    assert GetterName("") == "get" && SetterName("") == "set";
  }

  /** A deleted field stays present: reading it afterwards gives `null`,
      not an unknown-property error, and no accessor is called. This holds
      for the trap names too: a cleared `get` trap makes the proxy read the
      field itself, which is `null`. */
  method DeletedFieldReadsNull(o: BaseObject, p: string, reply: Value) returns (r: Outcome<Value>)
    requires o.TrapsIntact() && p in o.Present()
    modifies o
    ensures r == Ok(Null)
    ensures p in o.fields && o.fields[p] == Null
    ensures o.calls == old(o.calls)
  {
    var _ := o.Delete(p, reply);
    r := o.Get(p, reply);
  }

  /** Writing a present name and reading it back gives the written value,
      and no accessor is called even when `get<Name>` and `set<Name>` exist.
      The one exception is the name `get`: the written value becomes the
      `get` trap, which a function replaces and any other non-null value
      breaks. */
  method WrittenFieldReadsBack(o: BaseObject, p: string, v: Value, reply: Value) returns (r: Outcome<Value>)
    requires o.TrapsIntact() && p in o.Present()
    modifies o
    ensures p != "get" || v.Null? || v.Undefined? ==>
              r == Ok(v) && o.calls == old(o.calls)
    ensures p == "get" && v.Fn? ==>
              r == Ok(reply) && o.calls == old(o.calls) + [Invocation("get", [Str("get")])]
    ensures p == "get" && !(v.Null? || v.Undefined? || v.Fn?) ==>
              r == Fail(RuntimeTypeError) && o.calls == old(o.calls)
  {
    var _ := o.Set(p, v, reply);
    r := o.Get(p, reply);
  }

  /** A read-only virtual property: reading calls the getter and returns
      its value; writing and deleting throw InvalidCall and change nothing. */
  method ReadOnlyProperty(o: BaseObject, p: string, v: Value, reply: Value)
    returns (read: Outcome<Value>, write: Outcome<Value>, delete: Outcome<Value>)
    requires o.Inherits() && o.TrapsIntact() && ModeOf(o.Present(), p) == ReadOnly
    modifies o
    ensures read == Ok(reply)
    ensures write.Fail? && write.error.kind == InvalidCall
    ensures delete.Fail? && delete.error.kind == InvalidCall
    ensures o.fields == old(o.fields)
    ensures o.calls == old(o.calls) + [Invocation(GetterName(p), [])]
  {
    EmptyNameIsReadWrite(o);
    read := o.Get(p, reply);
    write := o.Set(p, v, reply);
    delete := o.Delete(p, reply);
  }

  /** A write-only virtual property: writing and deleting call the setter
      (with the value, then with `null`); reading throws InvalidCall. */
  method WriteOnlyProperty(o: BaseObject, p: string, v: Value, reply: Value)
    returns (write: Outcome<Value>, delete: Outcome<Value>, read: Outcome<Value>)
    requires o.Inherits() && o.TrapsIntact() && ModeOf(o.Present(), p) == WriteOnly
    modifies o
    ensures write == Ok(Bool(true)) && delete == Ok(Bool(true))
    ensures read.Fail? && read.error.kind == InvalidCall
    ensures o.fields == old(o.fields)
    ensures o.calls == old(o.calls) + [Invocation(SetterName(p), [v]), Invocation(SetterName(p), [Null])]
  {
    EmptyNameIsReadWrite(o);
    write := o.Set(p, v, reply);
    delete := o.Delete(p, reply);
    read := o.Get(p, reply);
  }

  /** A name with neither a field nor an accessor: reading and writing throw
      UnknownProperty, deleting returns `undefined`, and nothing changes. */
  method UnknownName(o: BaseObject, p: string, v: Value, reply: Value)
    returns (read: Outcome<Value>, write: Outcome<Value>, delete: Outcome<Value>)
    requires o.Inherits() && o.TrapsIntact() && ModeOf(o.Present(), p) == Unknown
    modifies o
    ensures read.Fail? && read.error.kind == UnknownProperty
    ensures write.Fail? && write.error.kind == UnknownProperty
    ensures delete == Ok(Undefined)
    ensures o.fields == old(o.fields) && o.calls == old(o.calls)
  {
    read := o.Get(p, reply);
    write := o.Set(p, v, reply);
    delete := o.Delete(p, reply);
  }

  /** Writing a non-function, non-null value to `get` replaces the read
      trap: every later read, of any name, throws a TypeError. */
  method ReplacedGetTrapThrows(o: BaseObject, v: Value, q: string, reply: Value)
    returns (write: Outcome<Value>, read: Outcome<Value>)
    requires o.Inherits() && o.TrapsIntact()
    requires !(v.Null? || v.Undefined? || v.Fn?)
    modifies o
    ensures write == Ok(Bool(true)) && o.fields == old(o.fields)["get" := v]
    ensures read == Fail(RuntimeTypeError)
    ensures o.calls == old(o.calls)
  {
    write := o.Set("get", v, reply);
    read := o.Get(q, reply);
  }

  /** Deleting `deleteProperty` clears the delete trap to `null`: every
      later delete really removes the own field, whatever accessors exist,
      and never throws. */
  method ClearedDeleteTrapRemoves(o: BaseObject, p: string, reply: Value)
    returns (clear: Outcome<Value>, delete: Outcome<Value>)
    requires o.Inherits() && o.TrapsIntact() && p != "deleteProperty"
    modifies o
    ensures clear == Ok(Bool(true)) && delete == Ok(Bool(true))
    ensures o.fields == (old(o.fields) - {p})["deleteProperty" := Null]
    ensures p !in o.fields
    ensures o.calls == old(o.calls)
  {
    clear := o.Delete("deleteProperty", reply);
    delete := o.Delete(p, reply);
  }

  /** Deleting `set` clears the write trap to `null`: every later write
      stores an own field, bypassing setters and read-only checks. */
  method ClearedSetTrapBypassesSetter(o: BaseObject, p: string, v: Value, reply: Value)
    returns (clear: Outcome<Value>, write: Outcome<Value>)
    requires o.Inherits() && o.TrapsIntact()
    modifies o
    ensures clear == Ok(Bool(true)) && write == Ok(Bool(true))
    ensures o.fields == old(o.fields)["set" := Null][p := v]
    ensures o.calls == old(o.calls)
  {
    clear := o.Delete("set", reply);
    write := o.Set(p, v, reply);
  }

  /** Deleting `constructor` clears it to `null`: the error branches then
      read `null.name`, so writing a read-only property throws a TypeError
      instead of InvalidCall. */
  method ClearedConstructorThrowsTypeError(o: BaseObject, p: string, v: Value, reply: Value)
    returns (clear: Outcome<Value>, write: Outcome<Value>)
    requires o.Inherits() && o.TrapsIntact() && ModeOf(o.Present(), p) == ReadOnly
    modifies o
    ensures clear == Ok(Bool(true)) && write == Fail(RuntimeTypeError)
    ensures o.fields == old(o.fields)["constructor" := Null]
    ensures o.calls == old(o.calls)
  {
    clear := o.Delete("constructor", reply);
    write := o.Set(p, v, reply);
  }

  /** The empty name, absent from the instance, reaches the class's own
      traps as its accessors: reading, writing a primitive and deleting all
      throw a TypeError, and nothing changes. */
  method EmptyNameThrows(o: BaseObject, v: Value, reply: Value)
    returns (read: Outcome<Value>, write: Outcome<Value>, delete: Outcome<Value>)
    requires o.Inherits() && o.TrapsIntact() && "" !in o.Present()
    requires !HasProperties(v)
    modifies o
    ensures read == Fail(RuntimeTypeError)
    ensures write == Fail(RuntimeTypeError)
    ensures delete == Fail(RuntimeTypeError)
    ensures o.fields == old(o.fields) && o.calls == old(o.calls)
  {
    EmptyNameIsReadWrite(o);
    read := o.Get("", reply);
    write := o.Set("", v, reply);
    delete := o.Delete("", reply);
  }
}
