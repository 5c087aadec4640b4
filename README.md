# jsoncmp in Dafny

A model of `jsoncmp`, the deep structural-equality test for JSON-shaped
values (numbers, strings, booleans, null, arrays and plain objects), with
proofs that it decides structural equality for every setting of its
engine flags.

- `json_value.dfy` (module `JsonValue`): the value universe. `Json` has one
  constructor per JSON kind. An object is `Obj(keys, props)`. `keys` is its
  own key list in enumeration order, the list that `Object.keys` returns.
  `props` is its property table. A property whose value is `undefined` is
  present in the table and holds `None`. `WellFormed` states what every
  object built by a JavaScript program satisfies: the key list has no
  repetitions and names exactly the table's keys. `ReadProperty` is the
  JavaScript read `o[key]`, along the prototype chain: an un-owned
  `"__proto__"` reads back `Object.prototype`, and the names of
  `Object.prototype`'s methods read back functions. `Get` is the read that
  treats every un-owned key as `undefined`.
- `json_equality.dfy` (module `JsonEquality`): the specification. `Equal`
  says what the comparator is meant to decide: same primitive, arrays equal
  index by index, objects with the same own keys and equal values key by key.
  It also gives a second characterisation, `Canonical`, which drops every
  key list. It proves reflexivity, symmetry, transitivity and
  `Equal(t, s) <==> Canonical(t) == Canonical(s)`. It proves that the check
  the corrected comparator runs on objects (equal key counts, then every
  target key owned by the source with an equal value) decides `Equal`; the
  code as written also lets an un-owned `"__proto__"` through (see
  "## Findings"). It also holds the cases
  of the test suite.
- `jsoncmp.dfy` (module `JsonCmp`): the comparator as the code runs it,
  with the corrected per-key test (see "## Findings").
  `Compare` has the primitive fast path and the descending loop over array
  indices. Its object branch picks one of two key walks with `UsesForIn`,
  the condition of `src/index.ts:80`. Strategy A is `ForInKeys`. Strategy B
  is `KeysDescending`. Both walks run the same per-key test, `CheckKey`.
  `Compare`, `ForInKeys` and `KeysDescending` are proved to return
  `Equal(target, source)` whatever `isV8`, `isJSC` and the key count are, so
  the two strategies give the same result. `CheckKey` is proved to return
  the verdict of `Equal` on its one key. This module uses the corrected
  per-key test (see "## Findings"): it asks whether the source owns the key.
- `jsoncmp_as_written.dfy` (module `JsonCmpAsWritten`): the same comparator
  with the per-key test as the code writes it, reading the source through
  `ReadProperty`. It is proved to decide `EqualAsWritten`. That predicate
  agrees with `Equal` on every target in which no object owns
  `"__proto__"`, and differs from it on a concrete pair.

The engine flags `isV8` and `isJSC` are plain `bool` parameters.
`WellFormed` is the one precondition. It is the invariant of the value
type, not a restriction the comparator places on its callers.

The `for...in` walk at `src/index.ts:81-91` does not filter out keys the
target does not own. Plain objects have no inherited enumerable keys, so
this changes nothing, and strategy A walks the own key list.

## Model

| member | source | states |
|---|---|---|
| `JsonCmp.Compare` | src/index.ts:58-107 | returns exactly `Equal(target, source)` for every `isV8`/`isJSC`; if either side is null or a primitive the result is strict equality; arrays of different lengths, an array against an object (either order) and objects with different key counts give false |
| `JsonCmp.ForInKeys` | src/index.ts:80-91 | strategy A, a walk over the target's keys in enumeration order that stops at the first failing key, returns exactly `Equal(target, source)` for objects with equal key counts |
| `JsonCmp.KeysDescending` | src/index.ts:92-103 | strategy B, a walk over `Object.keys(target)` from last to first that stops at the first failing key, returns exactly `Equal(target, source)`, the same result as strategy A |
| `JsonCmp.CheckKey` | src/index.ts:82-90 | the corrected per-key test: a key passes if and only if the source owns it and the two property values are both `undefined` or compare equal; an un-owned key always fails |
| `JsonCmp.UsesForIn` | src/index.ts:80 | the strategy choice: the `for...in` walk is never taken for 66 keys or more, nor when neither engine flag is set; it is always taken on a JavaScriptCore-like engine below 66 keys; on a V8-like-only engine it is taken for exactly 2 to 19 keys |
| `JsonCmp.IsPrimitive` | src/index.ts:59-61 | on a value the fast path takes (null, number, string, boolean), structural equality is strict equality, in both argument orders |
| `JsonValue.ReadProperty` | src/index.ts:82 | the JavaScript read `source[key]`: an own key gives its slot; an un-owned key gives `undefined` exactly when `Object.prototype` does not provide that name; an un-owned `"__proto__"` gives `Object.prototype` itself and an un-owned method name gives the inherited function |
| `JsonValue.Get` | src/index.ts:82 | the read used by the corrected comparator gives the same result as the JavaScript read on every own key and on every name `Object.prototype` does not provide |
| `JsonValue.KeyCount` | src/index.ts:77-78 | on a well-formed object, `Object.keys(o).length` is the number of own properties |
| `JsonEquality.ObjectsByTargetKeys` | src/index.ts:77-104 | equal key counts plus "every target key is owned by the source with an equal value" holds if and only if the two objects are `Equal`, in both directions |
| `JsonEquality.KeyCountsDiffer` | src/index.ts:77-79 | objects with different own-key counts are unequal |
| `JsonEquality.MissingKeyUnequal` | src/index.ts:82-85 | under the intended equality, a target key that the source does not own makes the objects unequal, whatever the target's value, `undefined` included |
| `JsonEquality.ArraysByIndex` | src/index.ts:63-75 | two arrays are equal if and only if they have the same length and every index holds an identical or an equal pair |
| `JsonEquality.EqualReflexive` | src/index.ts:69 | every value equals itself, so the identity shortcut `targetValue === sourceValue` never changes a result |
| `JsonEquality.EqualSymmetric` | src/index.ts:58-107 | swapping target and source does not change the intended result (the code as written breaks this, see "## Findings") |
| `JsonEquality.EqualTransitive` | src/index.ts:58-107 | equality is transitive |
| `JsonEquality.EqualIffCanonical` | src/index.ts:76-104 | two values are equal if and only if they are the same once every object's key list is dropped: key order never matters |
| `JsonEquality.ReorderedKeys` | src/index.ts:92-103 | listing an object's keys in any other order keeps it well formed and equal to the original |
| `JsonEquality.UndefinedVersusMissing` | src/index.ts:39-43 | `{ k: undefined }` differs from `{}` and from `{ j: undefined }`, and equals another `{ k: undefined }` |
| `JsonCmpAsWritten.CompareAsWritten` | src/index.ts:58-107 | the comparator with the per-key test as written returns exactly `EqualAsWritten(target, source)` for every `isV8`/`isJSC` |
| `JsonCmpAsWritten.ForInKeysAsWritten` | src/index.ts:80-91 | strategy A with the per-key test as written returns exactly `EqualAsWritten(target, source)` |
| `JsonCmpAsWritten.KeysDescendingAsWritten` | src/index.ts:92-103 | strategy B with the per-key test as written returns exactly `EqualAsWritten(target, source)`, the same result as strategy A |
| `JsonCmpAsWritten.CheckKeyAsWritten` | src/index.ts:82-90 | the per-key test as written: an owned key needs equal slots; an un-owned key fails, except `"__proto__"`, whose target value is then compared with `Object.prototype` |
| `JsonCmpAsWritten.EqualAsWrittenReflexive` | src/index.ts:87 | every value equals itself under the code as written, so the identity shortcut never changes its result |
| `JsonCmpAsWritten.AsWrittenAgreesWhenProtoFree` | src/index.ts:82-85 | when no object inside the target owns `"__proto__"`, the code as written decides exactly `Equal` |
| `JsonCmpAsWritten.MissingKeyAsWritten` | src/index.ts:82-85 | as written, a target key the source does not own makes the objects unequal unless it is `"__proto__"` holding an object with no keys |
| `JsonCmpAsWritten.ProtoKeyCounterexample` | src/index.ts:82-85 | as written, `{"__proto__":{}}` (an own key) equals `{a:1}` but `{a:1}` does not equal it; the intended equality rejects both |
| `JsonEquality.PrimitiveCases` | test/index.test.ts:6-13 | equal primitives compare equal; `42` vs `"42"` and `true` vs `false` do not |
| `JsonEquality.ArrayCases` | test/index.test.ts:15-20 | `[1,2,3]` and `[1,[2,3]]` equal themselves; `[1,2]` vs `[1,2,3]` and `[1,[2,3]]` vs `[1,[3,2]]` are unequal |
| `JsonEquality.ObjectCases` | test/index.test.ts:22-27 | `{a:1,b:2}` and `{a:{b:2}}` equal themselves; `{a:1,b:2}` vs `{a:1}` and `{a:{b:2}}` vs `{a:{b:3}}` are unequal |
| `JsonEquality.MixedKindCases` | test/index.test.ts:29-38 | `[]` vs `{}`, `null` vs `{}` (both orders) and `0` vs `false` are unequal |

## Findings

| source | as written | input that shows it | evidently intended | confidence | as-written member | corrected member |
|---|---|---|---|---|---|---|
| src/index.ts:82-85 | a key counts as missing on the source only if reading it gives `undefined` and the source does not own it; reading an un-owned `"__proto__"` gives `Object.prototype`, so the key is not missing, and an empty target value then compares equal to `Object.prototype` | target `JSON.parse('{"__proto__":{}}')`, source `{a: 1}`: true; arguments swapped: false (`ProtoKeyCounterexample`) | a target key that the source does not own makes the result false, so that the comparison is symmetric | medium, not executed | `JsonCmpAsWritten.CompareAsWritten` | `JsonCmp.Compare` |

## Left out

- Engine detection (`src/index.ts:3-14`): it reads host state (`process`, `navigator.userAgent`, `globalThis.chrome`, `Bun`). `isV8` and `isJSC` are parameters instead.
- Floating-point numbers: numbers are `int`, so `NaN !== NaN` and `-0 === +0` are not modelled.
- Reference identity: `===` on arrays and objects (`src/index.ts:69, 87, 99`) is modelled as value equality. Identity implies structural equality, and `EqualReflexive` shows that the shortcut then never changes a result.
- Inherited enumerable properties seen by `for...in` (`src/index.ts:81`): plain JSON objects have none. Strategy A walks the own key list in enumeration order. Inherited properties met by a property read (`src/index.ts:82, 94`) are modelled by `ReadProperty`.
- `Object.prototype` as a comparison operand is the stand-in `ObjectPrototype`, an object with no keys. The comparator looks only at an operand's kind and its own enumerable keys, and `Object.prototype` has none. Objects with another prototype (`Object.create(null)`, class instances) are not plain and are not modelled.
- Strings are Dafny `string`s, sequences of Unicode scalar values. JavaScript strings are UTF-16 code-unit sequences and may hold lone surrogates (`JSON.parse('"\\ud800"')`), which the model cannot represent. Equality of strings is unaffected.
- Enumeration order rules (integer-like keys first): the model takes the key list as given. The results do not depend on its order (`EqualIffCanonical`, `ReorderedKeys`).
- Cyclic structures, non-JSON values (functions, symbols, class instances) and stack exhaustion on deep nesting: Dafny datatypes are finite and acyclic, and recursion depth is not modelled.
- `benchmark/index.ts`, `rollup.config.ts`: timing and bundling tooling, not part of the comparator. `test/index.test.ts` is modelled only as the case lemmas above.
