/**
 * Where the fit of schemas is exact: on plain data (scalars, lists, records) a schema fits another exactly if
 * everything it accepts is accepted there once it is stripped.
 */
module SchemaExactness {
  import opened Wrappers
  import opened Schemas
  import opened SchemaSoundness

  predicate ScalarKind(k: Kind) { !k.ArrayKind? && !k.ObjectKind? }

  /** A union of scalar types. */
  predicate IsScalar(s: Schema) {
    && s == EMPTY.(types := s.types) && s.types.Some? && s.types.value != []
    && forall k | k in s.types.value :: ScalarKind(k)
  }

  /** A list of one plain type. */
  predicate IsList(s: Schema) { s == EMPTY.(types := Some([ArrayKind]), items := s.items) && s.items.Every? }

  /** An object with declared fields, of which some are required, open to others. */
  predicate IsRecord(s: Schema) {
    && s == EMPTY.(types := Some([ObjectKind]), properties := s.properties, required := s.required)
    && s.properties.Fields? && forall k | k in Required(s) :: k in s.properties.schemas
  }

  predicate IsPlain(s: Schema)
    decreases s
  {
    || IsScalar(s)
    || (IsList(s) && s.items.Every? && IsPlain(s.items.schema))
    || (IsRecord(s) && s.properties.Fields? && forall k | k in s.properties.schemas :: IsPlain(s.properties.schemas[k]))
  }

  lemma {:induction false} PlainIsFragment(m: Matcher, s: Schema)
    requires IsPlain(s)
    ensures Fragment(m, s)
    decreases s
  {
    if IsScalar(s) {
    } else if IsList(s) {
      PlainIsFragment(m, s.items.schema);
    } else {
      forall k | k in s.properties.schemas ensures Fragment(m, s.properties.schemas[k]) {
        PlainIsFragment(m, s.properties.schemas[k]);
      }
    }
  }

  // ---------------------------------------------------------------- values

  function SampleOf(k: Kind): Json {
    match k
    case NullKind => Null
    case BooleanKind => Boolean(true)
    case IntegerKind => Number(0.0)
    case NumberKind => Number(0.5)
    case StringKind => Text("")
    case ArrayKind => List([])
    case ObjectKind => Object(map[])
  }

  /** Some value the schema accepts. */
  function Sample(s: Schema): Json
    decreases s
  {
    if s.types.None? || s.types.value == [] then Null
    else if s.types.value[0].ObjectKind? && s.properties.Fields? then
      Object(map k | k in s.properties.schemas :: Sample(s.properties.schemas[k]))
    else SampleOf(s.types.value[0])
  }

  lemma HalfIsNoInteger()
    ensures !IsInteger(0.5) && IsInteger(0.0)
  {
    assert (0.5).Floor == 0;
  }

  lemma {:induction false} SampleIsValid(m: Matcher, s: Schema)
    requires IsPlain(s)
    ensures Valid(m, s, Sample(s))
    decreases s
  {
    HalfIsNoInteger();
    if IsScalar(s) {
      assert OfKind(Sample(s), s.types.value[0]);
    } else if IsList(s) {
      assert OfKind(Sample(s), ArrayKind);
    } else {
      forall k | k in s.properties.schemas ensures Valid(m, s.properties.schemas[k], Sample(s.properties.schemas[k])) {
        SampleIsValid(m, s.properties.schemas[k]);
      }
      assert OfKind(Sample(s), ObjectKind);
    }
  }

  /** What `sub` accepts is accepted by `sup` once it is stripped. */
  ghost predicate Crosses(m: Matcher, sub: Schema, sup: Schema) {
    forall v | Valid(m, sub, v) :: Valid(m, sup, Clean(m, sub, v))
  }

  /** `v` is accepted by `sub`, but not by `sup` once it is stripped. */
  predicate Separates(m: Matcher, sub: Schema, sup: Schema, v: Json) {
    Valid(m, sub, v) && !Valid(m, sup, Clean(m, sub, v))
  }

  /** A kind that does not fit has a value that is of none of the kinds it should fit. */
  lemma KindSeparates(k: Kind, kinds: seq<Kind>)
    requires !KindFits(k, kinds)
    ensures OfKind(SampleOf(k), k) && forall other | other in kinds :: !OfKind(SampleOf(k), other)
  {
    HalfIsNoInteger();
  }

  lemma ScalarSeparates(m: Matcher, sub: Schema, sup: Schema)
    requires IsScalar(sub) && IsPlain(sup) && !Fits(sub, sup)
    ensures exists v :: Separates(m, sub, sup, v)
  {
    var k :| k in sub.types.value && !KindFits(k, sup.types.value);
    KindSeparates(k, sup.types.value);
    var v := SampleOf(k);
    assert TypeOk(sub, v) && !TypeOk(sup, v);
    assert Clean(m, sub, v) == v;
    assert Separates(m, sub, sup, v);
  }

  /** A list or record does not fit a schema of another kind. */
  lemma KindsDiffer(m: Matcher, sub: Schema, sup: Schema)
    requires IsPlain(sub) && IsPlain(sup) && !IsScalar(sub) && !IsScalar(sup) ==> IsList(sub) != IsList(sup)
    requires IsPlain(sub) && IsPlain(sup) && !IsScalar(sub)
    ensures Separates(m, sub, sup, Sample(sub)) && !Fits(sub, sup)
  {
    SampleIsValid(m, sub);
    var u := Clean(m, sub, Sample(sub));
    assert IsList(sub) ==> u.List?;
    assert !IsList(sub) ==> u.Object?;
    assert !TypeOk(sup, u);
  }

  /** Plain data: a schema that does not fit accepts something that the other refuses. */
  lemma {:induction false} MisfitIsSeen(m: Matcher, sub: Schema, sup: Schema)
    requires IsPlain(sub) && IsPlain(sup) && !Fits(sub, sup)
    ensures exists v :: Separates(m, sub, sup, v)
    decreases sup, sub
  {
    if IsScalar(sub) {
      ScalarSeparates(m, sub, sup);
    } else if IsScalar(sup) || IsList(sub) != IsList(sup) {
      KindsDiffer(m, sub, sup);
      assert Separates(m, sub, sup, Sample(sub));
    } else if IsList(sub) {
      MisfitIsSeen(m, sub.items.schema, sup.items.schema);
      var v :| Separates(m, sub.items.schema, sup.items.schema, v);
      ListSeparates(m, sub, sup, v);
    } else if exists k :: k in Required(sup) && k !in Required(sub) {
      var k :| k in Required(sup) && k !in Required(sub);
      MissingSeparates(m, sub, sup, k);
    } else {
      RecordsMeet(sub, sup);
      var k :| k in Properties(sub) && k in Properties(sup) && !Fits(Properties(sub)[k], Properties(sup)[k]);
      MisfitIsSeen(m, Properties(sub)[k], Properties(sup)[k]);
      var v :| Separates(m, Properties(sub)[k], Properties(sup)[k], v);
      FieldSeparates(m, sub, sup, k, v);
    }
  }

  lemma ListSeparates(m: Matcher, sub: Schema, sup: Schema, v: Json)
    requires IsList(sub) && IsList(sup) && Separates(m, sub.items.schema, sup.items.schema, v)
    ensures exists w :: Separates(m, sub, sup, w)
  {
    var w := List([v]);
    assert OfKind(w, ArrayKind);
    assert Clean(m, sub, w).items[0] == Clean(m, sub.items.schema, v);
    assert Separates(m, sub, sup, w);
  }

  /** A name the other requires newly may be left out. */
  lemma MissingSeparates(m: Matcher, sub: Schema, sup: Schema, k: string)
    requires IsPlain(sub) && IsRecord(sub) && IsRecord(sup) && k in Required(sup) && k !in Required(sub)
    ensures exists v :: Separates(m, sub, sup, v)
  {
    var full := Sample(sub);
    SampleIsValid(m, sub);
    var v := Object(full.fields - {k});
    assert OfKind(v, ObjectKind);
    forall x | x in v.fields ensures FieldValid(m, sub, x, v.fields[x]) {
      assert FieldValid(m, sub, x, full.fields[x]);
    }
    assert Valid(m, sub, v);
    assert k !in Clean(m, sub, v).fields;
    assert Separates(m, sub, sup, v);
  }

  /** A field both declare may hold what only one accepts. */
  lemma FieldSeparates(m: Matcher, sub: Schema, sup: Schema, k: string, bad: Json)
    requires IsPlain(sub) && IsRecord(sub) && IsRecord(sup) && k in Properties(sub) && k in Properties(sup)
    requires Separates(m, Properties(sub)[k], Properties(sup)[k], bad)
    ensures exists v :: Separates(m, sub, sup, v)
  {
    var full := Sample(sub);
    SampleIsValid(m, sub);
    var v := Object(full.fields[k := bad]);
    assert OfKind(v, ObjectKind);
    forall x | x in v.fields ensures FieldValid(m, sub, x, v.fields[x]) {
      assert x != k ==> FieldValid(m, sub, x, full.fields[x]);
    }
    assert Valid(m, sub, v);
    var u := Clean(m, sub, v);
    assert v.fields[k] == bad && CleanField(m, sub, k, bad) == Clean(m, Properties(sub)[k], bad);
    assert k in u.fields && u.fields[k] == CleanField(m, sub, k, v.fields[k]);
    assert !FieldValid(m, sup, k, u.fields[k]);
    assert Separates(m, sub, sup, v);
  }

  lemma RecordsMeet(sub: Schema, sup: Schema)
    requires IsRecord(sub) && IsRecord(sup) && !Fits(sub, sup) && forall k | k in Required(sup) :: k in Required(sub)
    ensures exists k :: k in Properties(sub) && k in Properties(sup) && !Fits(Properties(sub)[k], Properties(sup)[k])
  {
    assert !ObjectFits(sub, sup);
  }

  /**
   * On plain data the fit is exact. So the other schema may declare new optional fields, wider types and fewer
   * requirements, at any depth; one that newly requires or retypes a field does not fit, for there is a value it would
   * refuse.
   */
  lemma FitsExactlyOnPlainData(m: Matcher, sub: Schema, sup: Schema)
    requires IsPlain(sub) && IsPlain(sup)
    ensures Fits(sub, sup) <==> Crosses(m, sub, sup)
  {
    if Fits(sub, sup) {
      PlainIsFragment(m, sub);
      PlainIsFragment(m, sup);
      forall v | Valid(m, sub, v) ensures Valid(m, sup, Clean(m, sub, v)) {
        CleanKeepsValid(m, sub, v);
        FitsSound(m, sub, sup, v);
      }
    } else {
      MisfitIsSeen(m, sub, sup);
      var v :| Separates(m, sub, sup, v);
      assert Valid(m, sub, v) && !Valid(m, sup, Clean(m, sub, v));
    }
  }

  /** Lists of allowed values fit exactly if the other allows them all. */
  lemma EnumsFitIff(m: Matcher, sub: Schema, sup: Schema)
    requires sub == EMPTY.(enums := sub.enums) && sub.enums.Some? && sup == EMPTY.(enums := sup.enums)
             && sup.enums.Some?
    ensures Fits(sub, sup) <==> Crosses(m, sub, sup)
  {
    forall v ensures Valid(m, sub, v) <==> v in sub.enums.value && Clean(m, sub, v) == v
      ensures Valid(m, sup, v) <==> v in sup.enums.value
    {
    }
    hide Valid, Clean;
    if !Fits(sub, sup) {
      var v :| v in sub.enums.value && v !in sup.enums.value;
      assert Valid(m, sub, v);
    }
  }

  // ---------------------------------------------------------------- changes that keep a fit

  /** A schema by types: no union, no listed values, no schema for other fields. */
  predicate ByTypes(s: Schema) {
    !s.never && s.types.Some? && s.constant.None? && s.enums.None? && s.anyOf.NoBranches? && !s.additional.Values?
  }

  lemma FitsItself()
    ensures forall s: Schema :: Fits(s, s)
  {
  }

  /** Beyond plain data the fit is conservative; what it does allow: one more constraint narrows. */
  lemma MoreConstraintsFit(s: Schema, c: Constraint, limit: Json)
    requires ByTypes(s) && c !in s.constraints
    ensures Fits(s.(constraints := s.constraints[c := limit]), s)
    ensures !Fits(s, s.(constraints := s.constraints[c := limit]))
  {
    var narrow := s.(constraints := s.constraints[c := limit]);
    FitsItself();
    assert Properties(narrow) == Properties(s) && Required(narrow) == Required(s);
    assert ObjectFits(narrow, s);
    assert ArrayFits(narrow, s);
    assert narrow.constraints != s.constraints;
  }

  /** Listing values narrows, fewer values narrow further, and one value is the narrowest list. */
  lemma ListedValuesFit(s: Schema, more: map<Constraint, Json>, some: seq<Json>, all: seq<Json>, v: Json)
    requires ByTypes(s) && (forall w | w in some :: w in all) && v in all
    ensures Fits(s.(enums := Some(all)), s) && Fits(s.(constant := Some(v)), s)
    ensures Fits(s.(enums := Some(some)), s.(enums := Some(all)))
    ensures Fits(s.(constant := Some(v)), s.(enums := Some(all)))
    ensures Fits(s.(constant := Some(v), constraints := more), s.(constant := Some(v)))
  {
  }

  /** A union fits another if each branch fits one of its branches, and so does a single schema. */
  lemma BranchesFit(some: seq<Schema>, all: seq<Schema>)
    requires forall s | s in some :: s.anyOf.NoBranches? && exists i | 0 <= i < |all| :: Fits(s, all[i])
    ensures Fits(EMPTY.(anyOf := Branches(some)), EMPTY.(anyOf := Branches(all)))
    ensures forall s | s in some :: Fits(s, EMPTY.(anyOf := Branches(all)))
  {
    var sup := EMPTY.(anyOf := Branches(all));
    forall s | s in some ensures Fits(s, sup) {
      assert sup.anyOf.schemas == all && s != sup;
    }
  }

  /** Tuples fit item by item, and fit a list if every item does. */
  lemma TuplesFit(a: seq<Schema>, b: seq<Schema>, item: Schema, open: bool, open': bool)
    ensures var lists := EMPTY.(types := Some([ArrayKind]));
            && (|a| == |b| && (forall i | 0 <= i < |a| :: Fits(a[i], b[i])) ==>
                  Fits(lists.(items := Tuple(a, open)), lists.(items := Tuple(b, open'))))
            && ((forall i | 0 <= i < |a| :: Fits(a[i], item)) ==>
                  Fits(lists.(items := Tuple(a, open)), lists.(items := Every(item))))
  {
    var lists := EMPTY.(types := Some([ArrayKind]));
    var sub, sup, every := lists.(items := Tuple(a, open)), lists.(items := Tuple(b, open')),
      lists.(items := Every(item));
    if |a| == |b| && forall i | 0 <= i < |a| :: Fits(a[i], b[i]) {
      assert ArrayFits(sub, sup);
    }
    if forall i | 0 <= i < |a| :: Fits(a[i], item) {
      assert ArrayFits(sub, every);
    }
  }

  /**
   * Records that are closed to other fields fit if fewer fields are declared, each that is fits, and none is newly
   * required; one whose other fields have a schema fits if that schema fits every field the other declares besides.
   */
  lemma RecordsFit(p: map<string, Schema>, p': map<string, Schema>, required: seq<string>, required': seq<string>,
                   extra: Schema)
    requires (forall k | k in required' :: k in required) && forall k | k in p && k in p' :: Fits(p[k], p'[k])
    ensures var sub := EMPTY.(types := Some([ObjectKind]), properties := Fields(p), required := Some(required));
            var sup := EMPTY.(types := Some([ObjectKind]), properties := Fields(p'), required := Some(required'));
            && (p.Keys <= p'.Keys ==> Fits(sub.(additional := Allowed(false)), sup.(additional := Allowed(false))))
            && ((forall k | k in p' && k !in p :: Fits(extra, p'[k])) ==> Fits(sub.(additional := Values(extra)), sup))
  {
    var sub := EMPTY.(types := Some([ObjectKind]), properties := Fields(p), required := Some(required));
    var sup := EMPTY.(types := Some([ObjectKind]), properties := Fields(p'), required := Some(required'));
    if p.Keys <= p'.Keys {
      assert ObjectFits(sub.(additional := Allowed(false)), sup.(additional := Allowed(false)));
    }
    if forall k | k in p' && k !in p :: Fits(extra, p'[k]) {
      assert ObjectFits(sub.(additional := Values(extra)), sup);
    }
  }
}
