/** Deep structural equality of JSON values, stated on its own terms: what
    `jsoncmp` is meant to decide, independent of how it walks its inputs. */
module JsonEquality {
  import opened JsonValue

  /** Two values are equal when they are the same primitive (or both null),
      two arrays of equal length that agree index by index, or two objects
      with the same own keys that agree key by key. Key order plays no part. */
  predicate Equal(t: Json, s: Json) {
    match (t, s)
    case (Arr(a), Arr(b)) => |a| == |b| && forall i :: 0 <= i < |a| ==> Equal(a[i], b[i])
    case (Obj(_, p), Obj(_, q)) => p.Keys == q.Keys && forall k :: k in p ==> EqualProp(p[k], q[k])
    case _ => t == s
  }

  /** Equality of two property slots: both `undefined`, or both values that are equal. */
  predicate EqualProp(a: Option<Json>, b: Option<Json>) {
    match (a, b)
    case (None, None) => true
    case (Some(x), Some(y)) => Equal(x, y)
    case _ => false
  }

  /** The value with every object's key list dropped, nested values included:
      what remains is the content that equality looks at. */
  function Canonical(j: Json): Json {
    match j
    case Arr(a) => Arr(seq(|a|, i requires 0 <= i < |a| => Canonical(a[i])))
    case Obj(_, p) => Obj([], map k | k in p :: CanonicalProp(p[k]))
    case _ => j
  }

  function CanonicalProp(v: Option<Json>): Option<Json> {
    match v
    case None => None
    case Some(x) => Some(Canonical(x))
  }

  lemma {:induction false} EqualReflexive(j: Json)
    ensures Equal(j, j)
  {
    match j
    case Arr(a) =>
      forall i | 0 <= i < |a| ensures Equal(a[i], a[i]) {
        EqualReflexive(a[i]);
      }
    case Obj(_, p) =>
      forall k | k in p ensures EqualProp(p[k], p[k]) {
        if p[k].Some? {
          EqualReflexive(p[k].value);
        }
      }
    case _ =>
  }

  lemma EqualPropReflexive(v: Option<Json>)
    ensures EqualProp(v, v)
  {
    if v.Some? {
      EqualReflexive(v.value);
    }
  }

  lemma {:induction false} EqualSymmetric(t: Json, s: Json)
    ensures Equal(t, s) == Equal(s, t)
  {
    match (t, s)
    case (Arr(a), Arr(b)) =>
      if |a| == |b| {
        forall i | 0 <= i < |a| ensures Equal(a[i], b[i]) == Equal(b[i], a[i]) {
          EqualSymmetric(a[i], b[i]);
        }
      }
    case (Obj(_, p), Obj(_, q)) =>
      if p.Keys == q.Keys {
        forall k | k in p ensures EqualProp(p[k], q[k]) == EqualProp(q[k], p[k]) {
          if p[k].Some? && q[k].Some? {
            EqualSymmetric(p[k].value, q[k].value);
          }
        }
      }
    case _ =>
  }

  lemma {:induction false} EqualTransitive(t: Json, m: Json, s: Json)
    requires Equal(t, m) && Equal(m, s)
    ensures Equal(t, s)
  {
    match (t, m, s)
    case (Arr(a), Arr(b), Arr(c)) =>
      forall i | 0 <= i < |a| ensures Equal(a[i], c[i]) {
        EqualTransitive(a[i], b[i], c[i]);
      }
    case (Obj(_, p), Obj(_, q), Obj(_, r)) =>
      forall k | k in p ensures EqualProp(p[k], r[k]) {
        assert EqualProp(p[k], q[k]) && EqualProp(q[k], r[k]);
        if p[k].Some? {
          EqualTransitive(p[k].value, q[k].value, r[k].value);
        }
      }
    case _ =>
  }

  /** Equality is exactly sameness of canonical forms: two values are equal
      if and only if they differ at most in the order of their objects' keys. */
  lemma {:induction false} EqualIffCanonical(t: Json, s: Json)
    ensures Equal(t, s) <==> Canonical(t) == Canonical(s)
  {
    match (t, s)
    case (Arr(a), Arr(b)) =>
      var ca, cb := Canonical(t).elems, Canonical(s).elems;
      if |a| == |b| {
        forall i | 0 <= i < |a| ensures Equal(a[i], b[i]) <==> ca[i] == cb[i] {
          EqualIffCanonical(a[i], b[i]);
        }
        if Equal(t, s) {
          assert ca == cb;
        } else {
          var i :| 0 <= i < |a| && !Equal(a[i], b[i]);
          assert ca[i] != cb[i];
        }
      } else {
        assert |ca| != |cb|;
      }
    case (Obj(_, p), Obj(_, q)) =>
      var cp, cq := Canonical(t).props, Canonical(s).props;
      assert cp.Keys == p.Keys && cq.Keys == q.Keys;
      if p.Keys == q.Keys {
        forall k | k in p ensures EqualProp(p[k], q[k]) <==> cp[k] == cq[k] {
          assert cp[k] == CanonicalProp(p[k]) && cq[k] == CanonicalProp(q[k]);
          if p[k].Some? && q[k].Some? {
            EqualIffCanonical(p[k].value, q[k].value);
          }
        }
        if Equal(t, s) {
          assert cp == cq;
        } else {
          var k :| k in p && !EqualProp(p[k], q[k]);
          assert cp[k] != cq[k];
        }
      }
    case _ =>
  }

  /** The comparison of two objects that the corrected comparator performs:
      equal key counts, then every key of the target owned by the source with
      an equal value. (As written, the code also lets an un-owned
      `"__proto__"` through; see `JsonCmpAsWritten`.) On well-formed objects
      this comparison decides `Equal`. */
  lemma ObjectsByTargetKeys(t: Json, s: Json)
    requires t.Obj? && s.Obj? && WellFormed(t) && WellFormed(s)
    ensures Equal(t, s) <==>
      && |t.keys| == |s.keys|
      && forall k :: k in t.keys ==> k in s.props && EqualProp(t.props[k], s.props[k])
  {
    KeyCount(t);
    KeyCount(s);
    var p, q := t.props, s.props;
    if |t.keys| == |s.keys| && forall k :: k in t.keys ==> k in q && EqualProp(p[k], q[k]) {
      assert p.Keys <= q.Keys;
      assert q.Keys == p.Keys + (q.Keys - p.Keys);
      assert |q.Keys - p.Keys| == 0;
    }
  }

  /** Objects with different numbers of own keys are never equal. */
  lemma KeyCountsDiffer(t: Json, s: Json)
    requires t.Obj? && s.Obj? && WellFormed(t) && WellFormed(s)
    requires |t.keys| != |s.keys|
    ensures !Equal(t, s)
  {
    ObjectsByTargetKeys(t, s);
  }

  /** A key of the target that the source does not own makes the two unequal,
      whatever the target's property holds, `undefined` included. */
  lemma MissingKeyUnequal(t: Json, s: Json, k: string)
    requires t.Obj? && s.Obj? && k in t.props && k !in s.props
    ensures !Equal(t, s)
  {
  }

  /** Listing an object's keys in another order gives a well-formed object
      that is equal to the original one. */
  lemma ReorderedKeys(ks: seq<string>, ks': seq<string>, p: map<string, Option<Json>>)
    requires WellFormed(Obj(ks, p)) && multiset(ks') == multiset(ks)
    ensures WellFormed(Obj(ks', p)) && Equal(Obj(ks, p), Obj(ks', p))
  {
    assert |ks'| == |ks| by {
      assert |multiset(ks')| == |multiset(ks)|;
    }
    assert Elems(ks') == Elems(ks) by {
      forall k ensures k in ks' <==> k in ks {
        assert k in ks' <==> k in multiset(ks');
        assert k in ks <==> k in multiset(ks);
      }
    }
    DistinctIffCard(ks);
    DistinctIffCard(ks');
    forall i | 0 <= i < |ks'| ensures ks'[i] in p {
      assert ks'[i] in Elems(ks');
    }
    forall k | k in p ensures k in ks' {
      assert k in Elems(ks);
    }
    EqualReflexive(Obj(ks, p));
  }

  /** Two arrays are equal exactly when they have the same length and each
      index holds an identical pair or a pair that compares equal. */
  lemma ArraysByIndex(a: seq<Json>, b: seq<Json>)
    ensures Equal(Arr(a), Arr(b)) <==>
      |a| == |b| && forall i :: 0 <= i < |a| ==> a[i] == b[i] || Equal(a[i], b[i])
  {
    forall i | 0 <= i < |a| && i < |b| && a[i] == b[i] ensures Equal(a[i], b[i]) {
      EqualReflexive(a[i]);
    }
  }

  /** The primitive cases of the project's test suite: strict equality, no coercion. */
  lemma PrimitiveCases()
    ensures Equal(Num(42), Num(42)) && Equal(Str("a"), Str("a"))
    ensures Equal(Bool(true), Bool(true)) && Equal(Null, Null)
    ensures !Equal(Num(42), Str("42")) && !Equal(Bool(true), Bool(false))
  {
  }

  /** The cases of the project's test suite that mix kinds: an array is not an
      object, null is not an object, and 0 is not false. */
  lemma MixedKindCases()
    ensures !Equal(Arr([]), Obj([], map[])) && !Equal(Obj([], map[]), Arr([]))
    ensures !Equal(Null, Obj([], map[])) && !Equal(Obj([], map[]), Null)
    ensures !Equal(Num(0), Bool(false))
  {
  }

  /** The array cases of the project's test suite. */
  lemma ArrayCases()
    ensures Equal(Arr([Num(1), Num(2), Num(3)]), Arr([Num(1), Num(2), Num(3)]))
    ensures !Equal(Arr([Num(1), Num(2)]), Arr([Num(1), Num(2), Num(3)]))
    ensures Equal(Arr([Num(1), Arr([Num(2), Num(3)])]), Arr([Num(1), Arr([Num(2), Num(3)])]))
    ensures !Equal(Arr([Num(1), Arr([Num(2), Num(3)])]), Arr([Num(1), Arr([Num(3), Num(2)])]))
  {
    EqualReflexive(Arr([Num(1), Num(2), Num(3)]));
    EqualReflexive(Arr([Num(1), Arr([Num(2), Num(3)])]));
    var inner, inner' := Arr([Num(2), Num(3)]), Arr([Num(3), Num(2)]);
    assert !Equal(inner, inner') by {
      assert inner.elems[0] != inner'.elems[0];
    }
    assert Arr([Num(1), inner]).elems[1] == inner;
  }

  /** The plain-object cases of the project's test suite. */
  lemma ObjectCases()
    ensures Equal(ObjAB(1, 2), ObjAB(1, 2))
    ensures !Equal(ObjAB(1, 2), Obj(["a"], map["a" := Some(Num(1))]))
    ensures Equal(Nested(2), Nested(2)) && !Equal(Nested(2), Nested(3))
  {
    EqualReflexive(ObjAB(1, 2));
    EqualReflexive(Nested(2));
    assert (map["a" := Some(Num(1))]).Keys == {"a"};
    assert ObjAB(1, 2).props.Keys == {"a", "b"};
    var n2, n3 := Nested(2).props["a"], Nested(3).props["a"];
    assert !EqualProp(n2, n3) by {
      assert n2.value.props["b"] == Some(Num(2)) && n3.value.props["b"] == Some(Num(3));
    }
  }

  /** `{ a: x, b: y }` */
  function ObjAB(x: int, y: int): Json {
    Obj(["a", "b"], map["a" := Some(Num(x)), "b" := Some(Num(y))])
  }

  /** `{ a: { b: x } }` */
  function Nested(x: int): Json {
    Obj(["a"], map["a" := Some(Obj(["b"], map["b" := Some(Num(x))]))])
  }

  /** A key explicitly set to `undefined` is not the same as a missing key:
      `{ k: undefined }` differs from `{}` and from `{ j: undefined }`, and
      equals another `{ k: undefined }`. */
  lemma UndefinedVersusMissing()
    ensures !Equal(Obj(["k"], map["k" := None]), Obj([], map[]))
    ensures !Equal(Obj(["k"], map["k" := None]), Obj(["j"], map["j" := None]))
    ensures Equal(Obj(["k"], map["k" := None]), Obj(["k"], map["k" := None]))
  {
    MissingKeyUnequal(Obj(["k"], map["k" := None]), Obj([], map[]), "k");
    MissingKeyUnequal(Obj(["k"], map["k" := None]), Obj(["j"], map["j" := None]), "k");
    EqualReflexive(Obj(["k"], map["k" := None]));
  }
}
