/** If one schema fits another, what the first accepts is accepted by the second once stripped. */
module SchemaSoundness {
  import opened Wrappers
  import opened Schemas

  // ---------------------------------------------------------------- the fragment

  predicate ScalarKinds(s: Schema) {
    s.types.Some? && ArrayKind !in s.types.value && ObjectKind !in s.types.value && s.anyOf.NoBranches?
  }

  /** Listed values are scalars that satisfy the rest of their schema. */
  predicate ListsWell(m: Matcher, s: Schema) {
    && (s.constant.Some? ==> Scalar(s.constant.value) && Valid(m, s, s.constant.value))
    && (s.constant.None? && s.enums.Some? ==> forall v | v in s.enums.value :: Scalar(v) && Valid(m, s, v))
  }

  /** Stripping cannot break these: required names are kept, unions stand alone, counts are not bounded below. */
  predicate Strippable(s: Schema) {
    && (s.anyOf.Branches? ==> s == EMPTY.(anyOf := s.anyOf))
    && (forall k | k in Required(s) :: k in Properties(s) || s.additional.Values?)
    && MinProperties !in s.constraints
    && (UniqueItems in s.constraints ==> s.items.NoItems? || (s.items.Every? && ScalarKinds(s.items.schema)))
    && (s.items.Tuple? && s.items.open ==> MinItems !in s.constraints)
  }

  predicate Fragment(m: Matcher, s: Schema)
    decreases s
  {
    && Strippable(s) && ListsWell(m, s)
    && (s.properties.Fields? ==> forall k | k in s.properties.schemas :: Fragment(m, s.properties.schemas[k]))
    && (s.additional.Values? ==> Fragment(m, s.additional.schema))
    && (s.anyOf.Branches? ==> forall i | 0 <= i < |s.anyOf.schemas| :: Fragment(m, s.anyOf.schemas[i]))
    && (match s.items
        case NoItems => true
        case Every(item) => Fragment(m, item)
        case Tuple(items, _) => forall i | 0 <= i < |items| :: Fragment(m, items[i]))
  }

  // ---------------------------------------------------------------- stripping keeps validity

  /** The first branch that accepts what it strips is used, if there is one. */
  lemma {:induction false} FirstCleanFinds(m: Matcher, branches: seq<Schema>, v: Json, i: nat)
    requires i < |branches| && Valid(m, branches[i], Clean(m, branches[i], v))
    ensures exists j :: 0 <= j < |branches| && FirstClean(m, branches, v) == Clean(m, branches[j], v)
                        && Valid(m, branches[j], Clean(m, branches[j], v))
  {
    if Valid(m, branches[0], Clean(m, branches[0], v)) {
    } else {
      FirstCleanFinds(m, branches[1..], v, i - 1);
      var j :| 0 <= j < |branches[1..]| && FirstClean(m, branches[1..], v) == Clean(m, branches[1..][j], v)
               && Valid(m, branches[1..][j], Clean(m, branches[1..][j], v));
      assert branches[1..][j] == branches[j + 1];
    }
  }

  lemma MapDomainSize<K, V, W>(a: map<K, V>, b: map<K, W>)
    requires a.Keys <= b.Keys
    ensures |a| <= |b|
  {
    SubsetSize(a.Keys, b.Keys);
  }

  lemma SubsetSize<K>(a: set<K>, b: set<K>)
    requires a <= b
    ensures |a| <= |b|
  {
    if a != {} {
      var x :| x in a;
      SubsetSize(a - {x}, b - {x});
    }
  }

  lemma CleanScalar(m: Matcher, s: Schema, v: Json)
    requires s.anyOf.NoBranches? && (Scalar(v) || ScalarKinds(s))
    ensures Clean(m, s, v) == v
  {
  }

  lemma KeepsType(m: Matcher, s: Schema, v: Json)
    requires s.anyOf.NoBranches? && TypeOk(s, v)
    ensures TypeOk(s, Clean(m, s, v))
  {
  }

  lemma ListedIsScalar(m: Matcher, s: Schema, v: Json)
    requires ListsWell(m, s) && Valid(m, s, v) && !Scalar(v)
    ensures s.constant.None? && s.enums.None?
  {
  }

  /** A value that a schema accepts is still accepted after the schema stripped it. */
  lemma {:induction false} CleanKeepsValid(m: Matcher, s: Schema, v: Json)
    requires Fragment(m, s) && Valid(m, s, v)
    ensures Valid(m, s, Clean(m, s, v))
    decreases s, 1
  {
    if s.anyOf.Branches? {
      CleanUnion(m, s, v);
    } else if v.Object? && Describes(s, ObjectKind) {
      CleanObject(m, s, v);
    } else if v.List? && Describes(s, ArrayKind) {
      CleanList(m, s, v);
    } else {
    }
  }

  lemma {:induction false} CleanUnion(m: Matcher, s: Schema, v: Json)
    requires Fragment(m, s) && Valid(m, s, v) && s.anyOf.Branches?
    ensures Valid(m, s, Clean(m, s, v))
    decreases s, 0
  {
    var branches := s.anyOf.schemas;
    var i :| 0 <= i < |branches| && Valid(m, branches[i], v);
    assert Fragment(m, branches[i]);
    hide Fragment, Clean, Valid;
    CleanKeepsValid(m, branches[i], v);
    BranchAccepts(m, s, v, i);
  }

  /** A union accepts what it strips if one of its branches accepts what that strips. */
  lemma BranchAccepts(m: Matcher, s: Schema, v: Json, i: nat)
    requires Fragment(m, s) && s.anyOf.Branches? && i < |s.anyOf.schemas|
    requires Valid(m, s.anyOf.schemas[i], Clean(m, s.anyOf.schemas[i], v))
    ensures Valid(m, s, Clean(m, s, v))
  {
    FirstCleanFinds(m, s.anyOf.schemas, v, i);
    assert Clean(m, s, v) == FirstClean(m, s.anyOf.schemas, v) && s == EMPTY.(anyOf := s.anyOf);
    hide Clean, FirstClean, Fragment;
  }

  lemma {:induction false} CleanObject(m: Matcher, s: Schema, v: Json)
    requires Fragment(m, s) && Valid(m, s, v) && s.anyOf.NoBranches? && v.Object? && Describes(s, ObjectKind)
    ensures Valid(m, s, Clean(m, s, v))
    decreases s, 0
  {
    var u := Clean(m, s, v);
    ListedIsScalar(m, s, v);
    KeepsType(m, s, v);
    MapDomainSize(u.fields, v.fields);
    assert MeetsAll(m, s, u);
    forall k | k in u.fields ensures FieldValid(m, s, k, u.fields[k]) {
      assert FieldValid(m, s, k, v.fields[k]);
      assert u.fields[k] == CleanField(m, s, k, v.fields[k]);
      if s.properties.Fields? && k in s.properties.schemas {
        CleanKeepsValid(m, s.properties.schemas[k], v.fields[k]);
      } else {
        CleanKeepsValid(m, s.additional.schema, v.fields[k]);
      }
    }
    forall k | k in Required(s) ensures k in u.fields {
      assert k in v.fields && FieldValid(m, s, k, v.fields[k]);
    }
  }

  lemma {:induction false} CleanList(m: Matcher, s: Schema, v: Json)
    requires Fragment(m, s) && Valid(m, s, v) && s.anyOf.NoBranches? && v.List? && Describes(s, ArrayKind)
    ensures Valid(m, s, Clean(m, s, v))
    decreases s, 0
  {
    var u := Clean(m, s, v);
    ListedIsScalar(m, s, v);
    KeepsType(m, s, v);
    match s.items
    case NoItems =>
    case Every(item) =>
      forall i | 0 <= i < |u.items| ensures Valid(m, item, u.items[i]) {
        CleanKeepsValid(m, item, v.items[i]);
      }
      if UniqueItems in s.constraints {
        forall i | 0 <= i < |u.items| ensures u.items[i] == v.items[i] {
          CleanScalar(m, item, v.items[i]);
        }
        assert u.items == v.items;
      }
      assert MeetsAll(m, s, u);
    case Tuple(items, open) =>
      forall i | 0 <= i < |u.items| && i < |items| ensures Valid(m, items[i], u.items[i]) {
        CleanKeepsValid(m, items[i], v.items[i]);
      }
      assert MeetsAll(m, s, u);
  }

  // ---------------------------------------------------------------- what a stripped value looks like

  /** A value stripped by a union is what one of its branches strips and accepts. */
  lemma StrippedByABranch(m: Matcher, s: Schema, v: Json)
    requires Fragment(m, s) && s.anyOf.Branches? && Valid(m, s, Clean(m, s, v))
    ensures exists i :: 0 <= i < |s.anyOf.schemas| && Clean(m, s, v) == Clean(m, s.anyOf.schemas[i], v)
                        && Valid(m, s.anyOf.schemas[i], Clean(m, s.anyOf.schemas[i], v))
  {
    var branches := s.anyOf.schemas;
    if i :| 0 <= i < |branches| && Valid(m, branches[i], Clean(m, branches[i], v)) {
      FirstCleanFinds(m, branches, v, i);
    } else {
      NoBranchLeavesAll(m, branches, v);
      var j :| 0 <= j < |branches| && Valid(m, branches[j], v);
      CleanKeepsValid(m, branches[j], v);
    }
  }

  lemma {:induction false} NoBranchLeavesAll(m: Matcher, branches: seq<Schema>, v: Json)
    requires forall i | 0 <= i < |branches| :: !Valid(m, branches[i], Clean(m, branches[i], v))
    ensures FirstClean(m, branches, v) == v
  {
    if branches != [] {
      forall i | 0 <= i < |branches[1..]| ensures !Valid(m, branches[1..][i], Clean(m, branches[1..][i], v)) {
        assert branches[1..][i] == branches[i + 1];
      }
      NoBranchLeavesAll(m, branches[1..], v);
    }
  }

  lemma ListedValue(m: Matcher, s: Schema, u: Json)
    requires Fragment(m, s) && Valid(m, s, u) && Listed(s).Some?
    ensures Scalar(u) && u in Listed(s).value
  {
  }

  // ---------------------------------------------------------------- soundness

  /**
   * If `sub` fits `sup`, every value that is valid under `sub` once stripped by it is valid under `sup`.
   */
  lemma {:induction false} FitsSound(m: Matcher, sub: Schema, sup: Schema, w: Json)
    requires Fragment(m, sub) && Fragment(m, sup) && Fits(sub, sup)
    requires Valid(m, sub, Clean(m, sub, w))
    ensures Valid(m, sup, Clean(m, sub, w))
    decreases sup, 2, sub
  {
    var u := Clean(m, sub, w);
    if sup == EMPTY || sub == sup {
    } else if sub.anyOf.Branches? {
      StrippedByABranch(m, sub, w);
      var i :| 0 <= i < |sub.anyOf.schemas| && u == Clean(m, sub.anyOf.schemas[i], w)
               && Valid(m, sub.anyOf.schemas[i], Clean(m, sub.anyOf.schemas[i], w));
      FitsSound(m, sub.anyOf.schemas[i], sup, w);
    } else if sup.anyOf.Branches? {
      var i :| 0 <= i < |sup.anyOf.schemas| && Fits(sub, sup.anyOf.schemas[i]);
      FitsSound(m, sub, sup.anyOf.schemas[i], w);
    } else if sup.constant.Some? {
    } else if sup.enums.Some? {
      ListedValue(m, sub, u);
    } else {
      PlainFits(m, sub, sup, w);
    }
  }

  lemma {:induction false} PlainFits(m: Matcher, sub: Schema, sup: Schema, w: Json)
    requires Fragment(m, sub) && Fragment(m, sup) && Fits(sub, sup) && sub != sup && sup != EMPTY
    requires sub.anyOf.NoBranches? && sup.anyOf.NoBranches? && sup.constant.None? && sup.enums.None?
    requires Valid(m, sub, Clean(m, sub, w))
    ensures Valid(m, sup, Clean(m, sub, w))
    decreases sup, 1, sub
  {
    var u := Clean(m, sub, w);
    assert MeetsAll(m, sup, u);
    var k :| k in sub.types.value && OfKind(u, k);
    assert KindFits(k, sup.types.value);
    assert TypeOk(sup, u);
    if Listed(sub).Some? {
      ListedValue(m, sub, u);
    } else if u.Object? {
      ObjectSound(m, sub, sup, w);
    } else if u.List? {
      ListSound(m, sub, sup, w);
    }
  }

  lemma {:induction false} ObjectSound(m: Matcher, sub: Schema, sup: Schema, w: Json)
    requires Fragment(m, sub) && Fragment(m, sup) && sub.anyOf.NoBranches?
    requires Describes(sub, ObjectKind) && ObjectFits(sub, sup) && !sup.additional.Values?
    requires Valid(m, sub, Clean(m, sub, w)) && Clean(m, sub, w).Object?
    ensures forall k | k in Required(sup) :: k in Clean(m, sub, w).fields
    ensures forall k | k in Clean(m, sub, w).fields :: FieldValid(m, sup, k, Clean(m, sub, w).fields[k])
    decreases sup, 0, sub
  {
    var u := Clean(m, sub, w);
    forall k | k in u.fields ensures FieldValid(m, sup, k, u.fields[k]) {
      assert FieldValid(m, sub, k, u.fields[k]);
      assert u.fields[k] == CleanField(m, sub, k, w.fields[k]);
      if k in Properties(sup) {
        if k in Properties(sub) {
          FitsSound(m, Properties(sub)[k], sup.properties.schemas[k], w.fields[k]);
        } else {
          FitsSound(m, sub.additional.schema, sup.properties.schemas[k], w.fields[k]);
        }
      }
    }
  }

  lemma {:induction false} ListSound(m: Matcher, sub: Schema, sup: Schema, w: Json)
    requires Fragment(m, sub) && Fragment(m, sup) && sub.anyOf.NoBranches?
    requires Describes(sub, ArrayKind) && ArrayFits(sub, sup)
    requires Valid(m, sub, Clean(m, sub, w)) && Clean(m, sub, w).List?
    ensures var u := Clean(m, sub, w);
            match sup.items
            case NoItems => true
            case Every(item) => forall i | 0 <= i < |u.items| :: Valid(m, item, u.items[i])
            case Tuple(items, open) =>
              && (!open ==> |u.items| <= |items|)
              && (forall i | 0 <= i < |u.items| && i < |items| :: Valid(m, items[i], u.items[i]))
    decreases sup, 0, sub
  {
    var u := Clean(m, sub, w);
    match sup.items
    case NoItems =>
    case Every(item) =>
      forall i | 0 <= i < |u.items| ensures Valid(m, item, u.items[i]) {
        match sub.items
        case NoItems => FitsSound(m, EMPTY, item, w.items[i]);
        case Every(given) =>
          assert Valid(m, given, u.items[i]) && u.items[i] == Clean(m, given, w.items[i]);
          FitsSound(m, given, item, w.items[i]);
        case Tuple(given, _) => FitsSound(m, given[i], item, w.items[i]);
      }
    case Tuple(items, open) =>
      forall i | 0 <= i < |u.items| && i < |items| ensures Valid(m, items[i], u.items[i]) {
        FitsSound(m, sub.items.schemas[i], items[i], w.items[i]);
      }
  }

  // ---------------------------------------------------------------- outside the fragment

  function Without(s: Schema, dropped: set<Constraint>): Schema { s.(constraints := s.constraints - dropped) }

  lemma ConstraintsDoNotStrip(m: Matcher, s: Schema, dropped: set<Constraint>, v: Json)
    ensures Clean(m, s, v) == Clean(m, Without(s, dropped), v)
  {
    var s' := Without(s, dropped);
    if s.anyOf.NoBranches? && v.Object? && Describes(s, ObjectKind) {
      forall k | k in v.fields
        ensures Keeps(m, s', k, v.fields[k]) == Keeps(m, s, k, v.fields[k])
        ensures CleanField(m, s', k, v.fields[k]) == CleanField(m, s, k, v.fields[k])
      {
      }
      assert Clean(m, s, v).fields == Clean(m, s', v).fields;
    }
  }

  lemma ValidSplits(m: Matcher, s: Schema, dropped: set<Constraint>, v: Json)
    ensures Valid(m, s, v) <==>
            Valid(m, Without(s, dropped), v)
            && forall c | c in s.constraints && c in dropped :: Meets(m, c, s.constraints[c], v)
  {
    var s' := Without(s, dropped);
    forall c | c in s.constraints
      ensures c in dropped || (c in s'.constraints && s'.constraints[c] == s.constraints[c]) {
    }
    if MeetsAll(m, s', v) && forall c | c in s.constraints && c in dropped :: Meets(m, c, s.constraints[c], v) {
      forall c | c in s.constraints ensures Meets(m, c, s.constraints[c], v) {
        assert c !in dropped ==> Meets(m, c, s'.constraints[c], v);
      }
    }
    if MeetsAll(m, s, v) {
      forall c | c in s'.constraints ensures Meets(m, c, s'.constraints[c], v) {
        assert Meets(m, c, s.constraints[c], v);
      }
    }
    assert v.Object? ==>
           forall k | k in v.fields :: FieldValid(m, s', k, v.fields[k]) == FieldValid(m, s, k, v.fields[k]);
  }

  /**
   * Constraints that keep a schema out of the fragment (`minProperties`, `uniqueItems` on objects, `minItems` on an
   * open tuple): a valid value is still valid after stripping exactly if what is left of it still meets them.
   */
  lemma StrippingKeepsValidityExactly(m: Matcher, s: Schema, dropped: set<Constraint>, v: Json)
    requires Fragment(m, Without(s, dropped)) && Valid(m, s, v)
    ensures Valid(m, s, Clean(m, s, v)) <==>
            forall c | c in s.constraints && c in dropped :: Meets(m, c, s.constraints[c], Clean(m, s, v))
  {
    ValidSplits(m, s, dropped, v);
    CleanKeepsValid(m, Without(s, dropped), v);
    ConstraintsDoNotStrip(m, s, dropped, v);
    ValidSplits(m, s, dropped, Clean(m, s, v));
  }

  const COUNTED: Schema :=
    EMPTY.(types := Some([ObjectKind]), properties := Fields(map["a" := EMPTY]),
           constraints := map[MinProperties := Number(2.0)])

  /** `minProperties` counts fields that stripping removes: even the same schema on both sides refuses a valid value. */
  lemma MinPropertiesBreaks(m: Matcher, v: Json)
    requires v == Object(map["a" := Null, "b" := Null])
    ensures Fits(COUNTED, COUNTED) && Valid(m, COUNTED, v)
    ensures !Valid(m, COUNTED, Clean(m, COUNTED, Clean(m, COUNTED, v)))
  {
    CountedCleans(m, v);
    CountedCleans(m, Object(map["a" := Null]));
    assert OfKind(v, ObjectKind);
    assert |v.fields| == 2 by { assert v.fields.Keys == {"a", "b"}; }
    assert !Meets(m, MinProperties, COUNTED.constraints[MinProperties], Object(map["a" := Null]));
    assert !MeetsAll(m, COUNTED, Object(map["a" := Null]));
  }

  lemma CountedCleans(m: Matcher, v: Json)
    requires v.Object? && "a" in v.fields && v.fields["a"] == Null
    ensures Clean(m, COUNTED, v) == Object(map["a" := Null])
  {
    var u := Clean(m, COUNTED, v);
    assert u.fields.Keys == {"a"};
    assert CleanField(m, COUNTED, "a", Null) == Null;
    assert u.fields == map["a" := Null];
  }

  const DISTINCT: Schema :=
    EMPTY.(types := Some([ArrayKind]), items := Every(EMPTY.(types := Some([ObjectKind]))),
           constraints := map[UniqueItems := Boolean(true)])

  lemma BareObject(m: Matcher, s: Schema, v: Json)
    requires s == DISTINCT.items.schema && v.Object?
    ensures Valid(m, s, v) && Clean(m, s, v) == Object(map[])
  {
    assert OfKind(v, ObjectKind);
    assert Clean(m, s, v).fields == map[];
  }

  lemma NotValid(m: Matcher, u: Json)
    requires !Meets(m, UniqueItems, DISTINCT.constraints[UniqueItems], u)
    ensures !Valid(m, DISTINCT, u) && Fits(DISTINCT, DISTINCT)
  {
    assert !MeetsAll(m, DISTINCT, u);
  }

  lemma CleansEach(m: Matcher, v: Json)
    requires v.List? && |v.items| == 2
    requires forall i | 0 <= i < 2 :: Clean(m, DISTINCT.items.schema, v.items[i]) == Object(map[])
    ensures Clean(m, DISTINCT, v) == List([Object(map[]), Object(map[])])
  {
    hide Valid;
  }

  lemma DistinctIsValid(m: Matcher, v: Json)
    requires v == List([Object(map["a" := Null]), Object(map[])])
    requires forall i | 0 <= i < 2 :: Valid(m, DISTINCT.items.schema, v.items[i])
    ensures Valid(m, DISTINCT, v)
  {
    hide Clean;
    assert OfKind(v, ArrayKind);
    assert v.items[0] != v.items[1] by { assert "a" in v.items[0].fields && "a" !in v.items[1].fields; }
    assert MeetsAll(m, DISTINCT, v);
  }

  /** `uniqueItems` tells items apart by fields that stripping removes. */
  lemma UniqueItemsBreaks(m: Matcher, v: Json)
    requires v == List([Object(map["a" := Null]), Object(map[])])
    ensures Fits(DISTINCT, DISTINCT) && Valid(m, DISTINCT, v) && !Valid(m, DISTINCT, Clean(m, DISTINCT, v))
  {
    hide Clean, Valid, Describes, TypeOk;
    var item, u := DISTINCT.items.schema, Clean(m, DISTINCT, v);
    BareObject(m, item, v.items[0]);
    BareObject(m, item, v.items[1]);
    CleansEach(m, v);
    DistinctIsValid(m, v);
    hide Clean, Valid, Fits;
    assert u.items[0] == u.items[1] && !Distinct(u.items);
    assert !Meets(m, UniqueItems, DISTINCT.constraints[UniqueItems], u);
    NotValid(m, u);
  }
}
