/**
 * Schemas as data: what they accept, what stripping with one leaves, and when one fits another.
 *
 * Validity is that of JSON Schema Validation draft-07, sections 6.1, 6.2, 6.3, 6.4, 6.5 and 6.7.2, for the keywords
 * below. `false` as a schema is `never`.
 */
module Schemas {
  import opened Wrappers

  datatype Json =
    | Null
    | Boolean(b: bool)
    | Number(n: real)
    | Text(s: string)
    | List(items: seq<Json>)
    | Object(fields: map<string, Json>)

  datatype Kind = NullKind | BooleanKind | IntegerKind | NumberKind | StringKind | ArrayKind | ObjectKind

  datatype Constraint =
    | MinLength | MaxLength | Pattern | Format
    | Minimum | Maximum | ExclusiveMinimum | ExclusiveMaximum | MultipleOf
    | MinItems | MaxItems | UniqueItems
    | MinProperties | MaxProperties

  /** `additionalProperties`: a boolean or a schema. */
  datatype Additional = Unstated | Allowed(yes: bool) | Values(schema: Schema)

  datatype Fields = NoFields | Fields(schemas: map<string, Schema>)

  datatype Branches = NoBranches | Branches(schemas: seq<Schema>)

  datatype Items = NoItems | Every(schema: Schema) | Tuple(schemas: seq<Schema>, open: bool)

  datatype Schema = Schema(
    never: bool,
    types: Option<seq<Kind>>,
    properties: Fields,
    required: Option<seq<string>>,
    additional: Additional,
    items: Items,
    constant: Option<Json>,
    enums: Option<seq<Json>>,
    anyOf: Branches,
    constraints: map<Constraint, Json>)

  const EMPTY: Schema := Schema(false, None, NoFields, None, Unstated, NoItems, None, None, NoBranches, map[])

  function Properties(s: Schema): map<string, Schema> { if s.properties.Fields? then s.properties.schemas else map[] }

  function Required(s: Schema): seq<string> { if s.required.Some? then s.required.value else [] }

  // ---------------------------------------------------------------- validity

  predicate IsInteger(n: real) { n.Floor as real == n }

  predicate OfKind(v: Json, k: Kind) {
    match k
    case NullKind => v.Null?
    case BooleanKind => v.Boolean?
    case IntegerKind => v.Number? && IsInteger(v.n)
    case NumberKind => v.Number?
    case StringKind => v.Text?
    case ArrayKind => v.List?
    case ObjectKind => v.Object?
  }

  predicate Scalar(v: Json) { !v.List? && !v.Object? }

  /** The meaning of `pattern` and `format` is a parameter. */
  type Matcher = (Constraint, Json, string) -> bool

  predicate Distinct(vs: seq<Json>) { forall i, j | 0 <= i < j < |vs| :: vs[i] != vs[j] }

  predicate Meets(match_: Matcher, c: Constraint, limit: Json, v: Json) {
    match c
    case Pattern => v.Text? ==> match_(c, limit, v.s)
    case Format => v.Text? ==> match_(c, limit, v.s)
    case MinLength => v.Text? && limit.Number? ==> |v.s| as real >= limit.n
    case MaxLength => v.Text? && limit.Number? ==> |v.s| as real <= limit.n
    case Minimum => v.Number? && limit.Number? ==> v.n >= limit.n
    case Maximum => v.Number? && limit.Number? ==> v.n <= limit.n
    case ExclusiveMinimum => v.Number? && limit.Number? ==> v.n > limit.n
    case ExclusiveMaximum => v.Number? && limit.Number? ==> v.n < limit.n
    case MultipleOf => v.Number? && limit.Number? && limit.n > 0.0 ==> IsInteger(v.n / limit.n)
    case MinItems => v.List? && limit.Number? ==> |v.items| as real >= limit.n
    case MaxItems => v.List? && limit.Number? ==> |v.items| as real <= limit.n
    case UniqueItems => v.List? && limit == Boolean(true) ==> Distinct(v.items)
    case MinProperties => v.Object? && limit.Number? ==> |v.fields| as real >= limit.n
    case MaxProperties => v.Object? && limit.Number? ==> |v.fields| as real <= limit.n
  }

  predicate MeetsAll(m: Matcher, s: Schema, v: Json) {
    forall c | c in s.constraints :: Meets(m, c, s.constraints[c], v)
  }

  predicate TypeOk(s: Schema, v: Json) { s.types.Some? ==> exists k | k in s.types.value :: OfKind(v, k) }

  predicate Valid(m: Matcher, s: Schema, v: Json)
    decreases s
  {
    && !s.never
    && TypeOk(s, v)
    && (s.constant.Some? ==> v == s.constant.value)
    && (s.enums.Some? ==> v in s.enums.value)
    && MeetsAll(m, s, v)
    && (s.anyOf.Branches? ==> exists i | 0 <= i < |s.anyOf.schemas| :: Valid(m, s.anyOf.schemas[i], v))
    && (v.Object? ==>
          && (forall k | k in Required(s) :: k in v.fields)
          && (forall k | k in v.fields :: FieldValid(m, s, k, v.fields[k])))
    && (v.List? ==>
          match s.items
          case NoItems => true
          case Every(item) => forall i | 0 <= i < |v.items| :: Valid(m, item, v.items[i])
          case Tuple(items, open) =>
            && (!open ==> |v.items| <= |items|)
            && (forall i | 0 <= i < |v.items| && i < |items| :: Valid(m, items[i], v.items[i])))
  }

  predicate FieldValid(m: Matcher, s: Schema, k: string, v: Json)
    decreases s, 0
  {
    if s.properties.Fields? && k in s.properties.schemas then Valid(m, s.properties.schemas[k], v)
    else
      match s.additional
      case Unstated => true
      case Allowed(yes) => yes
      case Values(a) => Valid(m, a, v)
  }

  // ---------------------------------------------------------------- stripping

  predicate Describes(s: Schema, k: Kind) { s.types.Some? && k in s.types.value }

  /** Is field `k` kept: it is declared, or it is an extra the schema of additional properties accepts. */
  predicate Keeps(m: Matcher, s: Schema, k: string, v: Json) {
    k in Properties(s) || (s.additional.Values? && Valid(m, s.additional.schema, v))
  }

  /**
   * What stripping leaves: objects keep declared fields and extras that a schema of additional properties accepts,
   * tuples lose items past their end, a union strips with the first branch that accepts the result.
   */
  function Clean(m: Matcher, s: Schema, v: Json): Json
    decreases s
  {
    if s.anyOf.Branches? then FirstClean(m, s.anyOf.schemas, v)
    else if v.Object? && Describes(s, ObjectKind) then
      Object(map k | k in v.fields && Keeps(m, s, k, v.fields[k]) :: CleanField(m, s, k, v.fields[k]))
    else if v.List? && Describes(s, ArrayKind) then
      match s.items
      case NoItems => v
      case Every(item) => List(seq(|v.items|, i requires 0 <= i < |v.items| => Clean(m, item, v.items[i])))
      case Tuple(items, open) =>
        var n := if |items| < |v.items| then |items| else |v.items|;
        List(seq(n, i requires 0 <= i < n => Clean(m, items[i], v.items[i])))
    else v
  }

  function CleanField(m: Matcher, s: Schema, k: string, v: Json): Json
    decreases s, 0
  {
    if s.properties.Fields? && k in s.properties.schemas then Clean(m, s.properties.schemas[k], v)
    else if s.additional.Values? then Clean(m, s.additional.schema, v)
    else v
  }

  function FirstClean(m: Matcher, branches: seq<Schema>, v: Json): Json
    decreases branches
  {
    if branches == [] then v
    else
      var cleaned := Clean(m, branches[0], v);
      if Valid(m, branches[0], cleaned) then cleaned else FirstClean(m, branches[1..], v)
  }

  // ---------------------------------------------------------------- compatibility

  predicate KindFits(k: Kind, kinds: seq<Kind>) { k in kinds || (k.IntegerKind? && NumberKind in kinds) }

  /** The values a schema lists, if it lists any. */
  function Listed(s: Schema): Option<seq<Json>> { if s.constant.Some? then Some([s.constant.value]) else s.enums }

  predicate Fits(sub: Schema, sup: Schema)
    decreases sup, 2, sub
  {
    if sup == EMPTY || sub == sup then true
    else if sup.never || sup.additional.Values? then false
    else if sub.anyOf.Branches? then forall i | 0 <= i < |sub.anyOf.schemas| :: Fits(sub.anyOf.schemas[i], sup)
    else if sup.anyOf.Branches? then exists i | 0 <= i < |sup.anyOf.schemas| :: Fits(sub, sup.anyOf.schemas[i])
    else if sup.constant.Some? then sub.constant == sup.constant
    else if sup.enums.Some? then Listed(sub).Some? && forall v | v in Listed(sub).value :: v in sup.enums.value
    else
      && (forall c | c in sup.constraints :: c in sub.constraints && sub.constraints[c] == sup.constraints[c])
      && sup.types.Some? && sub.types.Some?
      && (forall k | k in sub.types.value :: KindFits(k, sup.types.value))
      && (Listed(sub).Some?
          || ((Describes(sub, ObjectKind) ==> ObjectFits(sub, sup))
              && (Describes(sub, ArrayKind) ==> ArrayFits(sub, sup))))
  }

  predicate ObjectFits(sub: Schema, sup: Schema)
    decreases sup, 1, sub
  {
    && (forall k | k in Required(sup) :: k in Required(sub))
    && (sup.properties.Fields? ==> forall k | k in sup.properties.schemas ::
          if k in Properties(sub) then Fits(Properties(sub)[k], sup.properties.schemas[k])
          else sub.additional.Values? ==> Fits(sub.additional.schema, sup.properties.schemas[k]))
    && (sup.additional == Allowed(false) ==>
          sub.additional == Allowed(false) && forall k | k in Properties(sub) :: k in Properties(sup))
  }

  predicate ArrayFits(sub: Schema, sup: Schema)
    decreases sup, 1, sub
  {
    match sup.items
    case Tuple(items, _) =>
      && sub.items.Tuple? && |sub.items.schemas| == |items|
      && (forall i | 0 <= i < |items| :: Fits(sub.items.schemas[i], items[i]))
    case Every(item) =>
      (match sub.items
       case Tuple(items, _) => forall i | 0 <= i < |items| :: Fits(items[i], item)
       case Every(given) => Fits(given, item)
       case NoItems => Fits(EMPTY, item))
    case NoItems => true
  }
}
