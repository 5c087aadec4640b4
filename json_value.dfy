/** The universe of JSON-shaped values that the comparator accepts
    (the JSONCmpValue, JSONCmpArray and JSONCmpObject types). */
module JsonValue {

  datatype Option<+T> = None | Some(value: T)

  /** A JSON value. An object keeps its own enumerable keys in enumeration
      order (`keys`) beside the property table (`props`); a property whose
      value is `undefined` is present in `props` and holds `None`. */
  datatype Json =
    | Num(n: int)
    | Str(s: string)
    | Bool(b: bool)
    | Null
    | Arr(elems: seq<Json>)
    | Obj(keys: seq<string>, props: map<string, Option<Json>>)

  /** What reading `o[key]` yields in JavaScript: the slot of an own property
      (`Slot(None)` is `undefined`, also for a key found nowhere), one of the
      methods every plain object inherits from `Object.prototype`, or, for
      the key `"__proto__"`, the object `Object.prototype` itself. */
  datatype Read = Slot(v: Option<Json>) | InheritedMethod | InheritedPrototype

  const ProtoKey: string := "__proto__"

  /** The function-valued properties of `Object.prototype` (section 20.1.3
      of ECMAScript 2024, with the four accessor helpers of its Annex B.2.2). */
  const PrototypeMethods: set<string> := {
    "constructor", "hasOwnProperty", "isPrototypeOf", "propertyIsEnumerable",
    "toLocaleString", "toString", "valueOf",
    "__defineGetter__", "__defineSetter__", "__lookupGetter__", "__lookupSetter__"
  }

  /** The names under which a plain object that does not own them reads back
      something other than `undefined`. */
  const InheritedNames: set<string> := {ProtoKey} + PrototypeMethods

  /** `Object.prototype` as a comparison operand: an object with no own
      enumerable keys, which is all that the comparator looks at. */
  const ObjectPrototype: Json := Obj([], map[])

  /** `o[key]` on a plain object whose prototype is `Object.prototype`. */
  function ReadProperty(props: map<string, Option<Json>>, key: string): (r: Read)
    ensures key in props ==> r == Slot(props[key])
    ensures key !in props ==> (r == Slot(None) <==> key !in InheritedNames)
    ensures key !in props && key == ProtoKey ==> r == InheritedPrototype
    ensures key !in props && key in PrototypeMethods ==> r == InheritedMethod
  {
    if key in props then Slot(props[key])
    else if key == ProtoKey then InheritedPrototype
    else if key in PrototypeMethods then InheritedMethod
    else Slot(None)
  }

  /** The read the comparator relies on: an own property's slot, otherwise
      `undefined`. It is the JavaScript read everywhere except on the names
      that `Object.prototype` provides and the object does not own. */
  function Get(props: map<string, Option<Json>>, key: string): (v: Option<Json>)
    ensures key in props || key !in InheritedNames ==> ReadProperty(props, key) == Slot(v)
  {
    if key in props then props[key] else None
  }

  predicate Distinct(ks: seq<string>) {
    forall i, j :: 0 <= i < j < |ks| ==> ks[i] != ks[j]
  }

  function Elems(ks: seq<string>): set<string> {
    set k | k in ks
  }

  /** What every value built by a JavaScript program satisfies: an object's
      key list has no repetitions and names exactly its own properties, and
      every nested value is well formed too. */
  predicate WellFormed(j: Json) {
    match j
    case Arr(a) => forall i :: 0 <= i < |a| ==> WellFormed(a[i])
    case Obj(ks, p) =>
      && Distinct(ks)
      && (forall k :: k in p ==> k in ks)
      && (forall i :: 0 <= i < |ks| ==> ks[i] in p)
      && (forall k :: k in p && p[k].Some? ==> WellFormed(p[k].value))
    case _ => true
  }

  /** A key list has at most as many distinct keys as entries, and exactly as
      many precisely when no key repeats. */
  lemma {:induction false} DistinctIffCard(ks: seq<string>)
    ensures |Elems(ks)| <= |ks|
    ensures Distinct(ks) <==> |Elems(ks)| == |ks|
  {
    if ks != [] {
      var rest := ks[1..];
      DistinctIffCard(rest);
      assert Elems(ks) == {ks[0]} + Elems(rest) by {
        assert forall k :: k in ks <==> k == ks[0] || k in rest by {
          assert ks == [ks[0]] + rest;
        }
      }
      if ks[0] in Elems(rest) {
        assert Elems(ks) == Elems(rest);
        var m :| 0 <= m < |rest| && rest[m] == ks[0];
        assert ks[0] == ks[m + 1];
        assert !Distinct(ks);
      } else {
        assert |Elems(ks)| == 1 + |Elems(rest)|;
        if Distinct(ks) {
          assert Distinct(rest) by {
            forall i, j | 0 <= i < j < |rest| ensures rest[i] != rest[j] {
              assert rest[i] == ks[i + 1] && rest[j] == ks[j + 1];
            }
          }
        }
        if Distinct(rest) {
          forall i, j | 0 <= i < j < |ks| ensures ks[i] != ks[j] {
            if i == 0 {
              assert ks[j] == rest[j - 1];
            } else {
              assert ks[i] == rest[i - 1] && ks[j] == rest[j - 1];
            }
          }
        }
      }
    }
  }

  /** A well-formed object has as many own properties as its key list has
      entries, so `Object.keys(o).length` counts the properties. */
  lemma KeyCount(j: Json)
    requires j.Obj? && WellFormed(j)
    ensures |j.props.Keys| == |j.keys|
  {
    DistinctIffCard(j.keys);
    assert j.props.Keys == Elems(j.keys);
  }
}
