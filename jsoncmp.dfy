/** The comparator `jsoncmp` (src/index.ts) with its per-key test corrected
    so that a key the source does not own always fails (the code as written
    is `JsonCmpAsWritten`). Everything else is step by step as the code runs
    it: the primitive fast path, the descending walk over array indices, and
    the two key walks over objects that the engine heuristic chooses between.
    The engine flags `isV8` and `isJSC` are computed once from the host
    environment; here they are parameters, and every result is proved to be
    `Equal(target, source)` whatever their values. */
module JsonCmp {
  import opened JsonValue
  import opened JsonEquality

  /** The strategy choice of the object branch: the `for...in` walk is taken
      on a V8-like engine for 2 to 19 keys and on a JavaScriptCore-like engine
      for fewer than 66 keys; otherwise the key list is walked backwards. */
  function UsesForIn(isV8: bool, isJSC: bool, keyCount: nat): (forIn: bool)
    ensures forIn ==> keyCount < 66
    ensures !isV8 && !isJSC ==> !forIn
    ensures isJSC && keyCount < 66 ==> forIn
    ensures isV8 && !isJSC ==> (forIn <==> 2 <= keyCount <= 19)
  {
    (isV8 && keyCount > 1 && keyCount < 20) || (isJSC && keyCount < 66)
  }

  /** The test of the fast path, `v === null || typeof v !== 'object'`. On
      such a value, structural equality is strict equality in both argument
      orders. */
  function IsPrimitive(j: Json): (r: bool)
    ensures r ==> forall s :: Equal(j, s) == (j == s)
    ensures r ==> forall s :: Equal(s, j) == (s == j)
  {
    !j.Arr? && !j.Obj?
  }

  method Compare(target: Json, source: Json, isV8: bool, isJSC: bool) returns (r: bool)
    requires WellFormed(target) && WellFormed(source)
    ensures r == Equal(target, source)
    ensures IsPrimitive(target) || IsPrimitive(source) ==> (r <==> target == source)
    ensures target.Arr? && source.Arr? && |target.elems| != |source.elems| ==> !r
    ensures (target.Arr? && source.Obj?) || (target.Obj? && source.Arr?) ==> !r
    ensures target.Obj? && source.Obj? && |target.keys| != |source.keys| ==> !r
    decreases target, 2
  {
    if IsPrimitive(target) || IsPrimitive(source) {
      return target == source;
    }
    var isTargetArray, isSourceArray := target.Arr?, source.Arr?;
    if isTargetArray && isSourceArray {
      var a, b := target.elems, source.elems;
      if |a| != |b| {
        return false;
      }
      var index := |a| - 1;
      while index >= 0
        invariant -1 <= index < |a|
        invariant forall j :: index < j < |a| ==> Equal(a[j], b[j])
      {
        var targetValue, sourceValue := a[index], b[index];
        var same := targetValue == sourceValue;
        if same {
          EqualReflexive(targetValue);
        } else {
          same := Compare(targetValue, sourceValue, isV8, isJSC);
        }
        if !same {
          return false;
        }
        index := index - 1;
      }
      return true;
    }
    if !isTargetArray && !isSourceArray {
      if |target.keys| != |source.keys| {
        KeyCountsDiffer(target, source);
        return false;
      }
      if UsesForIn(isV8, isJSC, |target.keys|) {
        r := ForInKeys(target, source, isV8, isJSC);
      } else {
        r := KeysDescending(target, source, isV8, isJSC);
      }
      return;
    }
    return false;
  }

  /** Strategy A: a `for...in` walk over the target's keys in enumeration
      order, stopping at the first key that fails `CheckKey`. */
  method ForInKeys(target: Json, source: Json, isV8: bool, isJSC: bool) returns (r: bool)
    requires target.Obj? && source.Obj? && WellFormed(target) && WellFormed(source)
    requires |target.keys| == |source.keys|
    ensures r == Equal(target, source)
    decreases target, 1
  {
    ObjectsByTargetKeys(target, source);
    var keys := target.keys;
    for i := 0 to |keys|
      invariant forall j :: 0 <= j < i ==>
        keys[j] in source.props && EqualProp(target.props[keys[j]], source.props[keys[j]])
    {
      var ok := CheckKey(target, source, keys[i], isV8, isJSC);
      if !ok {
        return false;
      }
    }
    return true;
  }

  /** Strategy B: the list `Object.keys(target)` walked from its last entry
      to its first, stopping at the first key that fails `CheckKey`. */
  method KeysDescending(target: Json, source: Json, isV8: bool, isJSC: bool) returns (r: bool)
    requires target.Obj? && source.Obj? && WellFormed(target) && WellFormed(source)
    requires |target.keys| == |source.keys|
    ensures r == Equal(target, source)
    decreases target, 1
  {
    ObjectsByTargetKeys(target, source);
    var targetKeys := target.keys;
    var index := |targetKeys| - 1;
    while index >= 0
      invariant -1 <= index < |targetKeys|
      invariant forall j :: index < j < |targetKeys| ==>
        targetKeys[j] in source.props && EqualProp(target.props[targetKeys[j]], source.props[targetKeys[j]])
    {
      var ok := CheckKey(target, source, targetKeys[index], isV8, isJSC);
      if !ok {
        return false;
      }
      index := index - 1;
    }
    return true;
  }

  /** The check both strategies run for one key of the target: the key must
      be an own property of the source (reading back `undefined` is not
      enough), and the two property values must be identical or compare equal.
      This is the check as intended: the source is read through `Get`, so an
      un-owned key is always missing. `JsonCmpAsWritten.CheckKeyAsWritten`
      reads it as JavaScript does, where `"__proto__"` is never missing. */
  method CheckKey(target: Json, source: Json, key: string, isV8: bool, isJSC: bool) returns (ok: bool)
    requires target.Obj? && source.Obj? && WellFormed(target) && WellFormed(source)
    ensures ok <==> key in source.props && EqualProp(Get(target.props, key), source.props[key])
    decreases target, 0
  {
    var sourceValue := Get(source.props, key);
    if sourceValue == None && key !in source.props {
      return false;
    }
    var targetValue := Get(target.props, key);
    if targetValue == sourceValue {
      EqualPropReflexive(targetValue);
      return true;
    }
    if targetValue.Some? && sourceValue.Some? {
      ok := Compare(targetValue.value, sourceValue.value, isV8, isJSC);
    } else {
      // `jsoncmp(undefined, v)` takes the primitive path and yields
      // `undefined === v`, already found false just above.
      ok := false;
    }
  }
}
