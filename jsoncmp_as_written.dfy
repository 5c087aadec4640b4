/** The comparator with the per-key test exactly as `src/index.ts` writes it.
    The source's property is read as JavaScript reads it, along the prototype
    chain. The "missing key" test, `undefined` read back and not owned, then
    misses an un-owned `"__proto__"`: that read yields `Object.prototype`. A
    target owning `"__proto__"` with an empty object as its value therefore
    matches a source that does not own the key at all. Everything else is as
    in `JsonCmp`; `AsWrittenAgreesWhenProtoFree` shows that the two
    comparators differ only on targets that own `"__proto__"`. */
module JsonCmpAsWritten {
  import opened JsonValue
  import opened JsonEquality
  import opened JsonCmp

  /** What the code as written decides: the same shape as `Equal`, except
      that at each target key the test is `KeyPassesAsWritten`. */
  predicate EqualAsWritten(t: Json, s: Json)
    decreases t, 1
  {
    match (t, s)
    case (Arr(a), Arr(b)) => |a| == |b| && forall i :: 0 <= i < |a| ==> EqualAsWritten(a[i], b[i])
    case (Obj(tk, p), Obj(sk, _)) => |tk| == |sk| && forall k :: k in p ==> KeyPassesAsWritten(t, s, k)
    case _ => t == s
  }

  /** One target key as the code as written treats it: an owned key needs
      equal slots; an un-owned key fails, except `"__proto__"`, whose value
      is then compared with `Object.prototype`. */
  predicate KeyPassesAsWritten(t: Json, s: Json, k: string)
    requires t.Obj? && s.Obj? && k in t.props
    decreases t, 0
  {
    if k in s.props then
      match (t.props[k], s.props[k])
      case (None, None) => true
      case (Some(x), Some(y)) => EqualAsWritten(x, y)
      case _ => false
    else
      k == ProtoKey && t.props[k].Some? && EqualAsWritten(t.props[k].value, ObjectPrototype)
  }

  /** No object anywhere inside the value owns the key `"__proto__"`. */
  predicate ProtoFree(j: Json) {
    match j
    case Arr(a) => forall i :: 0 <= i < |a| ==> ProtoFree(a[i])
    case Obj(_, p) => ProtoKey !in p && forall k :: k in p && p[k].Some? ==> ProtoFree(p[k].value)
    case _ => true
  }

  method CompareAsWritten(target: Json, source: Json, isV8: bool, isJSC: bool) returns (r: bool)
    requires WellFormed(target) && WellFormed(source)
    ensures r == EqualAsWritten(target, source)
    decreases target, 2
  {
    if IsPrimitive(target) || IsPrimitive(source) {
      return target == source;
    }
    var isTargetArray, isSourceArray := target.Arr?, source.Arr?;
    if isTargetArray && isSourceArray {
      var a, b := target.elems, source.elems;
      if |a| != |b| {
        return false;
      }
      var index := |a| - 1;
      while index >= 0
        invariant -1 <= index < |a|
        invariant forall j :: index < j < |a| ==> EqualAsWritten(a[j], b[j])
      {
        var targetValue, sourceValue := a[index], b[index];
        var same := targetValue == sourceValue;
        if same {
          EqualAsWrittenReflexive(targetValue);
        } else {
          same := CompareAsWritten(targetValue, sourceValue, isV8, isJSC);
        }
        if !same {
          return false;
        }
        index := index - 1;
      }
      return true;
    }
    if !isTargetArray && !isSourceArray {
      if |target.keys| != |source.keys| {
        return false;
      }
      if UsesForIn(isV8, isJSC, |target.keys|) {
        r := ForInKeysAsWritten(target, source, isV8, isJSC);
      } else {
        r := KeysDescendingAsWritten(target, source, isV8, isJSC);
      }
      return;
    }
    return false;
  }

  method ForInKeysAsWritten(target: Json, source: Json, isV8: bool, isJSC: bool) returns (r: bool)
    requires target.Obj? && source.Obj? && WellFormed(target) && WellFormed(source)
    requires |target.keys| == |source.keys|
    ensures r == EqualAsWritten(target, source)
    decreases target, 1
  {
    var keys := target.keys;
    for i := 0 to |keys|
      invariant forall j :: 0 <= j < i ==> KeyPassesAsWritten(target, source, keys[j])
    {
      var ok := CheckKeyAsWritten(target, source, keys[i], isV8, isJSC);
      if !ok {
        return false;
      }
    }
    AllKeysPass(target, source);
    return true;
  }

  method KeysDescendingAsWritten(target: Json, source: Json, isV8: bool, isJSC: bool) returns (r: bool)
    requires target.Obj? && source.Obj? && WellFormed(target) && WellFormed(source)
    requires |target.keys| == |source.keys|
    ensures r == EqualAsWritten(target, source)
    decreases target, 1
  {
    var targetKeys := target.keys;
    var index := |targetKeys| - 1;
    while index >= 0
      invariant -1 <= index < |targetKeys|
      invariant forall j :: index < j < |targetKeys| ==> KeyPassesAsWritten(target, source, targetKeys[j])
    {
      var ok := CheckKeyAsWritten(target, source, targetKeys[index], isV8, isJSC);
      if !ok {
        return false;
      }
      index := index - 1;
    }
    AllKeysPass(target, source);
    return true;
  }

  /** The per-key test as written: read both properties as JavaScript does,
      fail if the source's reads back `undefined` and is not owned, pass if
      the two reads are identical, and otherwise compare them. */
  method CheckKeyAsWritten(target: Json, source: Json, key: string, isV8: bool, isJSC: bool)
    returns (ok: bool)
    requires target.Obj? && source.Obj? && WellFormed(target) && WellFormed(source)
    requires key in target.props
    ensures ok == KeyPassesAsWritten(target, source, key)
    decreases target, 0
  {
    var sourceValue := ReadProperty(source.props, key);
    if sourceValue == Slot(None) && key !in source.props {
      return false;
    }
    var targetValue := ReadProperty(target.props, key);
    if targetValue == sourceValue {
      if targetValue.v.Some? {
        EqualAsWrittenReflexive(targetValue.v.value);
      }
      return true;
    }
    if targetValue.v.Some? {
      match sourceValue
      case Slot(Some(y)) =>
        ok := CompareAsWritten(targetValue.v.value, y, isV8, isJSC);
      case InheritedPrototype =>
        ok := CompareAsWritten(targetValue.v.value, ObjectPrototype, isV8, isJSC);
      case _ =>
        // `undefined` or an inherited function: not of kind 'object', so the
        // call takes the primitive path, whose `===` is already false.
        ok := false;
    } else {
      // `jsoncmp(undefined, v)` is `undefined === v`, already false.
      ok := false;
    }
  }

  /** Passing every key of the key list is passing every own key. */
  lemma AllKeysPass(t: Json, s: Json)
    requires t.Obj? && s.Obj? && WellFormed(t) && WellFormed(s) && |t.keys| == |s.keys|
    requires forall j :: 0 <= j < |t.keys| ==> KeyPassesAsWritten(t, s, t.keys[j])
    ensures EqualAsWritten(t, s)
  {
  }

  lemma {:induction false} EqualAsWrittenReflexive(j: Json)
    ensures EqualAsWritten(j, j)
  {
    match j
    case Arr(a) =>
      forall i | 0 <= i < |a| ensures EqualAsWritten(a[i], a[i]) {
        EqualAsWrittenReflexive(a[i]);
      }
    case Obj(_, p) =>
      forall k | k in p ensures KeyPassesAsWritten(j, j, k) {
        if p[k].Some? {
          EqualAsWrittenReflexive(p[k].value);
        }
      }
    case _ =>
  }

  /** On a target in which no object owns `"__proto__"`, the code as written
      decides exactly `Equal`. */
  lemma {:induction false} AsWrittenAgreesWhenProtoFree(t: Json, s: Json)
    requires WellFormed(t) && WellFormed(s) && ProtoFree(t)
    ensures EqualAsWritten(t, s) == Equal(t, s)
  {
    match (t, s)
    case (Arr(a), Arr(b)) =>
      if |a| == |b| {
        forall i | 0 <= i < |a| ensures EqualAsWritten(a[i], b[i]) == Equal(a[i], b[i]) {
          AsWrittenAgreesWhenProtoFree(a[i], b[i]);
        }
      }
    case (Obj(tk, p), Obj(_, q)) =>
      forall k | k in p ensures KeyPassesAsWritten(t, s, k) == (k in q && EqualProp(p[k], q[k])) {
        if k in q && p[k].Some? && q[k].Some? {
          AsWrittenAgreesWhenProtoFree(p[k].value, q[k].value);
        }
      }
      ObjectsByTargetKeys(t, s);
      assert (forall k :: k in tk ==> k in q && EqualProp(p[k], q[k]))
        <==> (forall k :: k in p ==> k in q && EqualProp(p[k], q[k]));
    case _ =>
  }

  /** `JSON.parse('{"__proto__":{}}')`: an object owning the key `"__proto__"`. */
  function OwnsProto(): Json {
    Obj([ProtoKey], map[ProtoKey := Some(Obj([], map[]))])
  }

  /** `{ a: 1 }` */
  function OneKey(): Json {
    Obj(["a"], map["a" := Some(Num(1))])
  }

  /** The code as written finds `OwnsProto()` equal to `OneKey()` but not the
      other way round; the intended equality finds them unequal both ways. */
  lemma ProtoKeyCounterexample()
    ensures WellFormed(OwnsProto()) && WellFormed(OneKey())
    ensures EqualAsWritten(OwnsProto(), OneKey())
    ensures !EqualAsWritten(OneKey(), OwnsProto())
    ensures !Equal(OwnsProto(), OneKey()) && !Equal(OneKey(), OwnsProto())
  {
    assert ProtoKey !in OneKey().props;
    assert KeyPassesAsWritten(OwnsProto(), OneKey(), ProtoKey);
    assert !KeyPassesAsWritten(OneKey(), OwnsProto(), "a");
    MissingKeyUnequal(OwnsProto(), OneKey(), ProtoKey);
    MissingKeyUnequal(OneKey(), OwnsProto(), "a");
  }

  /** As written, a target key that the source does not own still makes the
      objects unequal, unless it is `"__proto__"` holding an object with no keys. */
  lemma MissingKeyAsWritten(t: Json, s: Json, k: string)
    requires t.Obj? && s.Obj? && WellFormed(t) && k in t.props && k !in s.props
    ensures !EqualAsWritten(t, s) ||
      (k == ProtoKey && t.props[k].Some? && t.props[k].value.Obj? && t.props[k].value.keys == [])
  {
    if !(k == ProtoKey && t.props[k].Some? && t.props[k].value.Obj? && t.props[k].value.keys == []) {
      if k == ProtoKey && t.props[k].Some? {
        assert !EqualAsWritten(t.props[k].value, ObjectPrototype);
      }
      assert !KeyPassesAsWritten(t, s, k);
    }
  }
}
