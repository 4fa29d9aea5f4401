/** `ObjectHelper.isObject` and `ObjectHelper.deepMerge`: a recursive,
    left-to-right merge of plain-object trees into a target object.

    `MergeInto` and `Merge` are the specification: one activation of
    deepMerge with a single source, and the whole left-to-right fold.
    `MergeOne` and `DeepMerge` are the imperative code (the `for...in` loop,
    the `shift()` of the sources), proved to compute them.

    Reading `target[key]` also finds the methods a plain object inherits
    from `Object.prototype` (`Prop`), and writing the key `__proto__` that
    the target does not own goes to its prototype, not to an own field. */
module ObjectHelper {
  import opened JsValues

  /** `isObject(item)`: truthy, of `typeof` 'object', and not an array.
      Of the modelled values, exactly the plain objects pass. */
  function IsObject(item: Value): (r: bool)
    ensures r <==> item.Obj?
  {
    Truthy(item) && TypeOf(item) == "object" && !item.Arr?
  }

  /** Whether merging `value` at key `k`, which the target does not own,
      gives the target an own field `k`. It does not when `k` is `__proto__`
      (the assignment or the nested merge reaches the prototype) or when an
      object meets an inherited method (truthy, so no `{}` is created, and
      not an object, so the nested merge does nothing). */
  predicate Adds(k: string, value: Value)
  {
    k != "__proto__" && !(IsObject(value) && k in ObjectPrototypeMethods)
  }

  /** The keys of a source that a target lacking them gains. */
  function AddedKeys(source: map<string, Value>): set<string>
  {
    set k | k in source && Adds(k, source[k])
  }

  /** One activation of `deepMerge(target, source)`: when both are plain
      objects, every key of the source is merged into the target; otherwise
      the target is returned as it was. */
  function MergeInto(target: Value, source: Value): (r: Value)
    decreases source, 1
    ensures r.Obj? <==> target.Obj?
    ensures !(IsObject(target) && IsObject(source)) ==> r == target
    ensures IsObject(target) && IsObject(source) ==>
              r.fields.Keys == target.fields.Keys + AddedKeys(source.fields)
  {
    if IsObject(target) && IsObject(source) then
      Obj(map k | k in target.fields.Keys + AddedKeys(source.fields) ::
            if k in source.fields then MergeSlot(Prop(target.fields, k), source.fields[k])
            else target.fields[k])
    else target
  }

  /** What `target[key]` becomes when the source holds `value` at `key`:
      a non-object overwrites; an object is merged into the current value,
      which is first replaced by `{}` when it is falsy. */
  function MergeSlot(current: Value, value: Value): Value
    decreases value, 2
  {
    if IsObject(value) then MergeInto(if Truthy(current) then current else Obj(map[]), value)
    else value
  }

  /** `deepMerge(target, ...sources)`: the sources are merged one after the
      other, from left to right. */
  function Merge(target: Value, sources: seq<Value>): (r: Value)
    decreases |sources|
    ensures r.Obj? <==> target.Obj?
    ensures !IsObject(target) ==> r == target
    ensures sources == [] ==> r == target
  {
    if |sources| == 0 then target
    else Merge(MergeInto(target, sources[0]), sources[1..])
  }

  /** The keys of every plain-object source, together. */
  function MentionedKeys(sources: seq<Value>): set<string>
  {
    if |sources| == 0 then {}
    else (if IsObject(sources[0]) then sources[0].fields.Keys else {}) + MentionedKeys(sources[1..])
  }

  /** The keys that every plain-object source would add to a target lacking them. */
  function AddedKeysOf(sources: seq<Value>): set<string>
  {
    if |sources| == 0 then {}
    else (if IsObject(sources[0]) then AddedKeys(sources[0].fields) else {}) + AddedKeysOf(sources[1..])
  }

  /** The object `deepMerge({}, v)` builds from an object `v`: every key
      that `{}` gains, with nested objects copied the same way. */
  function Copy(v: Value): (r: Value)
    ensures r.Obj? <==> v.Obj?
  {
    match v
    case Obj(m) =>
      Obj(map k | k in AddedKeys(m) :: if IsObject(m[k]) then Copy(m[k]) else m[k])
    case _ => v
  }

  /** No key, at any depth, is `__proto__` or an inherited method's name
      holding an object. */
  predicate Ordinary(v: Value)
  {
    match v
    case Obj(m) => forall k :: k in m ==> Adds(k, m[k]) && Ordinary(m[k])
    case _ => true
  }

  // ---------------------------------------------------------------------
  // The imperative code

  /** The body of one `deepMerge` activation with a single source: the
      `isObject` guard and the `for...in` loop over the source's keys. The
      nested call `deepMerge(target[key], source[key])` has one source, so
      it is this same step. */
  method MergeOne(target: Value, source: Value) returns (r: Value)
    decreases source
    ensures r == MergeInto(target, source)
  {
    r := target;
    if IsObject(target) && IsObject(source) {
      var fields := target.fields;
      var pending := source.fields.Keys;
      while pending != {}
        invariant pending <= source.fields.Keys
        invariant fields.Keys == target.fields.Keys + (AddedKeys(source.fields) - pending)
        invariant forall k :: k in fields && k !in source.fields ==> fields[k] == target.fields[k]
        invariant forall k :: k in pending && k in target.fields ==> fields[k] == target.fields[k]
        invariant forall k :: k in fields && k in source.fields && k !in pending ==>
                    fields[k] == MergeSlot(Prop(target.fields, k), source.fields[k])
        decreases pending
      {
        var key :| key in pending;
        var value := source.fields[key];
        if key == "__proto__" && key !in fields {
          // the write, or the nested merge, goes to the target's prototype
        } else if IsObject(value) {
          if !Truthy(Prop(fields, key)) {
            fields := fields[key := Obj(map[])];
          }
          var merged := MergeOne(Prop(fields, key), value);
          if key in fields {
            fields := fields[key := merged];
          }
        } else {
          fields := fields[key := value];
        }
        pending := pending - {key};
      }
      r := Obj(fields);
    }
  }

  /** `deepMerge(target, ...sources)`: with no sources the target is
      returned; otherwise the first source is shifted off, merged, and the
      rest are merged by the recursive call. */
  method DeepMerge(target: Value, sources: seq<Value>) returns (r: Value)
    decreases |sources|
    ensures r == Merge(target, sources)
  {
    if |sources| == 0 {
      return target;
    }
    var source := sources[0];
    var rest := sources[1..];
    var merged := MergeOne(target, source);
    r := DeepMerge(merged, rest);
  }

  // ---------------------------------------------------------------------
  // Properties of the merge

  /** Merging an object into `{}` builds its `Copy`, which equals the
      object itself when it is `Ordinary`. */
  lemma {:induction false} MergeIntoEmptyCopies(source: Value)
    requires IsObject(source)
    ensures MergeInto(Obj(map[]), source) == Copy(source)
    ensures Ordinary(source) ==> MergeInto(Obj(map[]), source) == source
  {
    var empty: map<string, Value> := map[];
    forall k | k in AddedKeys(source.fields)
      ensures MergeSlot(Prop(empty, k), source.fields[k])
           == if IsObject(source.fields[k]) then Copy(source.fields[k]) else source.fields[k]
    {
      if IsObject(source.fields[k]) {
        MergeIntoEmptyCopies(source.fields[k]);
      }
    }
    if Ordinary(source) {
      CopyOfOrdinary(source);
    }
  }

  /** Copying an `Ordinary` object gives it back unchanged. */
  lemma {:induction false} CopyOfOrdinary(v: Value)
    requires Ordinary(v)
    ensures Copy(v) == v
  {
    if v.Obj? {
      assert AddedKeys(v.fields) == v.fields.Keys;
      forall k | k in v.fields
        ensures (if IsObject(v.fields[k]) then Copy(v.fields[k]) else v.fields[k]) == v.fields[k]
      {
        CopyOfOrdinary(v.fields[k]);
      }
    }
  }

  /** Merging an object into itself changes nothing. */
  lemma {:induction false} MergeIntoSelf(v: Value)
    ensures MergeInto(v, v) == v
  {
    if IsObject(v) {
      forall k | k in v.fields
        ensures MergeSlot(Prop(v.fields, k), v.fields[k]) == v.fields[k]
      {
        if IsObject(v.fields[k]) {
          MergeIntoSelf(v.fields[k]);
        }
      }
    }
  }

  /** The value at one key after merging a single object source into an
      object target, case by case. */
  lemma MergeIntoKey(target: Value, source: Value, k: string)
    requires IsObject(target) && IsObject(source)
    ensures var r := MergeInto(target, source);
      && (k !in source.fields ==> (k in r.fields <==> k in target.fields))
      && (k in target.fields && k !in source.fields ==> r.fields[k] == target.fields[k])
      && (k == "__proto__" && k !in target.fields ==> k !in r.fields)
      && (k in source.fields && !IsObject(source.fields[k]) && (k in target.fields || k != "__proto__") ==>
            k in r.fields && r.fields[k] == source.fields[k])
      && (k in source.fields && IsObject(source.fields[k]) && !Truthy(Prop(target.fields, k))
            && (k in target.fields || k != "__proto__") ==>
            k in r.fields && r.fields[k] == Copy(source.fields[k]))
      && (k in source.fields && IsObject(source.fields[k]) && k in target.fields && IsObject(target.fields[k]) ==>
            k in r.fields && r.fields[k] == MergeInto(target.fields[k], source.fields[k]))
      && (k in source.fields && IsObject(source.fields[k]) && k in target.fields
            && Truthy(target.fields[k]) && !IsObject(target.fields[k]) ==>
            k in r.fields && r.fields[k] == target.fields[k])
      && (k in source.fields && IsObject(source.fields[k]) && k !in target.fields
            && k in ObjectPrototypeMethods ==>
            k !in r.fields)
  {
    if k in source.fields && IsObject(source.fields[k]) && !Truthy(Prop(target.fields, k)) {
      MergeIntoEmptyCopies(source.fields[k]);
    }
  }

  /** Merging `a + b` is merging `a`, then merging `b` into the result. */
  lemma {:induction false} MergeAppend(target: Value, a: seq<Value>, b: seq<Value>)
    decreases |a|
    ensures Merge(target, a + b) == Merge(Merge(target, a), b)
  {
    if |a| == 0 {
      assert a + b == b;
    } else {
      assert (a + b)[1..] == a[1..] + b;
      MergeAppend(MergeInto(target, a[0]), a[1..], b);
    }
  }

  /** A source that is not a plain object contributes nothing; the merge
      goes on with the remaining sources. */
  lemma NonObjectSourceSkipped(target: Value, before: seq<Value>, source: Value, after: seq<Value>)
    requires !IsObject(source)
    ensures Merge(target, before + [source] + after) == Merge(target, before + after)
  {
    MergeAppend(target, before + [source], after);
    MergeAppend(target, before, [source]);
    MergeAppend(target, before, after);
  }

  /** Later sources win: when the last source holds a non-object at `k`,
      that is the value of `k` in the result. The one exception is a
      `__proto__` key that the target does not own by then: that write goes
      to the prototype. */
  lemma LastSourceWins(target: Value, sources: seq<Value>, k: string)
    requires IsObject(target) && |sources| > 0
    requires IsObject(sources[|sources| - 1])
    requires k in sources[|sources| - 1].fields && !IsObject(sources[|sources| - 1].fields[k])
    ensures var r := Merge(target, sources);
      && r.Obj?
      && (k in r.fields <==> k != "__proto__" || k in Merge(target, sources[..|sources| - 1]).fields)
      && (k in r.fields ==> r.fields[k] == sources[|sources| - 1].fields[k])
  {
    var n := |sources|;
    assert sources == sources[..n - 1] + [sources[n - 1]];
    MergeAppend(target, sources[..n - 1], [sources[n - 1]]);
    var before := Merge(target, sources[..n - 1]);
    assert Merge(before, [sources[n - 1]]) == MergeInto(before, sources[n - 1]);
    MergeIntoKey(before, sources[n - 1], k);
  }

  /** A target key that no source mentions keeps its original value. */
  lemma {:induction false} UntouchedKeyKept(target: Value, sources: seq<Value>, k: string)
    requires IsObject(target) && k in target.fields
    requires k !in MentionedKeys(sources)
    decreases |sources|
    ensures var r := Merge(target, sources);
      r.Obj? && k in r.fields && r.fields[k] == target.fields[k]
  {
    if |sources| > 0 {
      var next := MergeInto(target, sources[0]);
      if IsObject(sources[0]) {
        MergeIntoKey(target, sources[0], k);
      }
      UntouchedKeyKept(next, sources[1..], k);
    }
  }

  /** The keys of an object target after the merge are its own keys and the
      keys that the plain-object sources add. */
  lemma {:induction false} MergeKeys(target: Value, sources: seq<Value>)
    requires IsObject(target)
    decreases |sources|
    ensures Merge(target, sources).fields.Keys == target.fields.Keys + AddedKeysOf(sources)
    ensures Merge(target, sources).fields.Keys <= target.fields.Keys + MentionedKeys(sources)
  {
    if |sources| > 0 {
      MergeKeys(MergeInto(target, sources[0]), sources[1..]);
    }
  }

  /** The documented example: merging `{message: {subject: 'Doggo'}}` into
      `{message: {greeting: 'Hello', subject: 'World'}}` gives
      `{message: {greeting: 'Hello', subject: 'Doggo'}}`. */
  lemma DocumentedExample()
    ensures Merge(Obj(map["message" := Obj(map["greeting" := Str("Hello"), "subject" := Str("World")])]),
                  [Obj(map["message" := Obj(map["subject" := Str("Doggo")])])])
         == Obj(map["message" := Obj(map["greeting" := Str("Hello"), "subject" := Str("Doggo")])])
  {
    var inner := Obj(map["greeting" := Str("Hello"), "subject" := Str("World")]);
    var src := Obj(map["subject" := Str("Doggo")]);
    assert AddedKeys(src.fields) == {"subject"};
    assert MergeInto(inner, src) == Obj(map["greeting" := Str("Hello"), "subject" := Str("Doggo")]);
    var t := Obj(map["message" := inner]);
    var s := Obj(map["message" := src]);
    assert AddedKeys(s.fields) == {"message"};
    assert MergeInto(t, s) == Obj(map["message" := MergeInto(inner, src)]);
  }

  /** `deepMerge({a: 1}, {a: {b: 2}})` leaves `a` at 1: the truthy number is
      not replaced by `{}`, and merging into a non-object does nothing. */
  lemma TruthyScalarBlocksNestedMerge()
    ensures Merge(Obj(map["a" := Num(1)]), [Obj(map["a" := Obj(map["b" := Num(2)])])])
         == Obj(map["a" := Num(1)])
  {
    var t := Obj(map["a" := Num(1)]);
    var s := Obj(map["a" := Obj(map["b" := Num(2)])]);
    assert AddedKeys(s.fields) == {"a"};
    assert MergeInto(t, s) == Obj(map["a" := Num(1)]);
  }

  /** `deepMerge({a: 0}, {a: {b: 2}})` is `{a: {b: 2}}`: a falsy value is
      replaced by `{}` before the nested merge. */
  lemma FalsyScalarReplaced()
    ensures Merge(Obj(map["a" := Num(0)]), [Obj(map["a" := Obj(map["b" := Num(2)])])])
         == Obj(map["a" := Obj(map["b" := Num(2)])])
  {
    var t := Obj(map["a" := Num(0)]);
    var s := Obj(map["a" := Obj(map["b" := Num(2)])]);
    MergeIntoKey(t, s, "a");
    assert Ordinary(s.fields["a"]);
    CopyOfOrdinary(s.fields["a"]);
    assert MergeInto(t, s) == Obj(map["a" := Obj(map["b" := Num(2)])]);
  }

  /** `deepMerge({}, {constructor: {x: 1}})` is `{}`: `target.constructor`
      is the inherited `Object` function, truthy and not an object, so
      nothing is created or merged. */
  lemma InheritedNameBlocksNestedMerge()
    ensures Merge(Obj(map[]), [Obj(map["constructor" := Obj(map["x" := Num(1)])])]) == Obj(map[])
  {
    var s := Obj(map["constructor" := Obj(map["x" := Num(1)])]);
    assert AddedKeys(s.fields) == {};
    assert MergeInto(Obj(map[]), s) == Obj(map[]);
  }
}
