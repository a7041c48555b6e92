/** Contracts between a provider and a consumer: what covering one means for the calls that cross. */
module Contracts {
  import opened Wrappers
  import opened Schemas
  import opened SchemaSoundness
  import opened SchemaExactness

  datatype Scope = Remote | LocalScope

  datatype Member =
    | Method(args: Schema, result: Schema)
    | State(schema: Schema)
    | Opaque(id: string)

  datatype Description = Description(
    name: string,
    scope: Scope,
    version: nat,
    input: Schema,
    variants: map<string, map<string, Member>>)

  predicate MemberCovers(offered: Member, wanted: Member) {
    match (offered, wanted)
    case (Method(args, result), Method(args', result')) => Fits(args', args) && Fits(result, result')
    case (State(schema), State(schema')) => Fits(schema, schema')
    case (Opaque(id), Opaque(id')) => id == id'
    case _ => false
  }

  predicate VariantCovers(offered: map<string, Member>, wanted: map<string, Member>) {
    forall name | name in wanted :: name in offered && MemberCovers(offered[name], wanted[name])
  }

  predicate Covers(provider: Description, consumer: Description) {
    && provider.name == consumer.name && provider.scope == consumer.scope
    && Fits(consumer.input, provider.input)
    && forall kind | kind in consumer.variants ::
         kind in provider.variants && VariantCovers(provider.variants[kind], consumer.variants[kind])
  }

  datatype Binding = Direct | Adapted(version: nat) | Mismatch

  /** Equal descriptions stand for equal fingerprints. */
  function Bind(provider: Description, accepts: set<nat>, consumer: Description): Binding {
    if provider == consumer then Direct
    else if provider.version == consumer.version then if Covers(provider, consumer) then Direct else Mismatch
    else if consumer.version in accepts then Adapted(consumer.version)
    else Mismatch
  }

  // ---------------------------------------------------------------- what covering is for

  predicate MemberInFragment(m: Matcher, member: Member) {
    match member
    case Method(args, result) => Fragment(m, args) && Fragment(m, result)
    case State(schema) => Fragment(m, schema)
    case Opaque(_) => true
  }

  predicate InFragment(m: Matcher, d: Description) {
    && Fragment(m, d.input)
    && forall kind | kind in d.variants :: forall name | name in d.variants[kind] ::
         MemberInFragment(m, d.variants[kind][name])
  }

  predicate Has(d: Description, kind: string, name: string) { kind in d.variants && name in d.variants[kind] }

  function MemberOf(d: Description, kind: string, name: string): Member
    requires Has(d, kind, name)
  {
    d.variants[kind][name]
  }

  /** What the provider checks: the arguments stripped by the consumer's schema, then by its own. */
  function Arriving(m: Matcher, offered: Schema, wanted: Schema, args: Json): Json {
    Clean(m, offered, Clean(m, wanted, args))
  }

  lemma FitsCrosses(m: Matcher, sub: Schema, sup: Schema, v: Json)
    requires Fragment(m, sub) && Fragment(m, sup) && (Fits(sub, sup) || sub == sup) && Valid(m, sub, v)
    ensures Valid(m, sup, Clean(m, sub, v)) && Valid(m, sup, Arriving(m, sup, sub, v))
  {
    CleanKeepsValid(m, sub, v);
    if sub != sup {
      FitsSound(m, sub, sup, v);
    }
    CleanKeepsValid(m, sup, Clean(m, sub, v));
  }

  // ---------------------------------------------------------------- covering is exact

  predicate PlainMember(member: Member) {
    match member
    case Method(args, result) => IsPlain(args) && IsPlain(result)
    case State(schema) => IsPlain(schema)
    case Opaque(_) => true
  }

  /** Every schema of the contract describes plain data. */
  ghost predicate PlainContract(d: Description) {
    IsPlain(d.input) && forall kind, name | Has(d, kind, name) :: PlainMember(MemberOf(d, kind, name))
  }

  /** Every call with valid arguments passes, and every result or published value is what was wanted. */
  ghost predicate Serves(m: Matcher, offered: Member, wanted: Member) {
    match (offered, wanted)
    case (Method(args, result), Method(args', result')) => Crosses(m, args', args) && Crosses(m, result, result')
    case (State(schema), State(schema')) => Crosses(m, schema, schema')
    case (Opaque(id), Opaque(id')) => id == id'
    case _ => false
  }

  lemma MemberCoversIff(m: Matcher, offered: Member, wanted: Member)
    requires PlainMember(offered) && PlainMember(wanted)
    ensures MemberCovers(offered, wanted) <==> Serves(m, offered, wanted)
  {
    hide Fits, Crosses, IsPlain;
    match (offered, wanted) {
      case (Method(args, result), Method(args', result')) =>
        FitsExactlyOnPlainData(m, args', args);
        FitsExactlyOnPlainData(m, result, result');
      case (State(schema), State(schema')) => FitsExactlyOnPlainData(m, schema, schema');
      case _ =>
    }
  }

  /**
   * On plain data a consumer is bound directly to a provider of its version exactly if nothing can go wrong between
   * them: every member it wants is offered, every valid input and argument passes, every result and state is as wanted.
   * So members and variants may be added, and nothing that is used may be dropped or retyped.
   */
  lemma BoundDirectlyIff(m: Matcher, provider: Description, accepts: set<nat>, consumer: Description)
    requires PlainContract(provider) && PlainContract(consumer) && provider.version == consumer.version
    ensures Bind(provider, accepts, consumer) == Direct <==>
            && provider.name == consumer.name && provider.scope == consumer.scope
            && Crosses(m, consumer.input, provider.input)
            && consumer.variants.Keys <= provider.variants.Keys
            && forall kind, name | Has(consumer, kind, name) ::
                 Has(provider, kind, name) && Serves(m, MemberOf(provider, kind, name), MemberOf(consumer, kind, name))
  {
    FitsExactlyOnPlainData(m, consumer.input, provider.input);
    forall kind, name | Has(consumer, kind, name) && Has(provider, kind, name)
      ensures MemberCovers(MemberOf(provider, kind, name), MemberOf(consumer, kind, name))
              <==> Serves(m, MemberOf(provider, kind, name), MemberOf(consumer, kind, name))
    {
      MemberCoversIff(m, MemberOf(provider, kind, name), MemberOf(consumer, kind, name));
    }
    CoversItself(consumer);
    CoversMembers(provider, consumer);
    hide Fits, IsPlain, Serves, MemberCovers, Crosses, Covers;
  }

  lemma CoversMembers(provider: Description, consumer: Description)
    ensures Covers(provider, consumer) <==>
            && provider.name == consumer.name && provider.scope == consumer.scope
            && Fits(consumer.input, provider.input) && consumer.variants.Keys <= provider.variants.Keys
            && forall kind, name | Has(consumer, kind, name) ::
                 Has(provider, kind, name)
                 && MemberCovers(MemberOf(provider, kind, name), MemberOf(consumer, kind, name))
  {
    hide Fits, MemberCovers;
    if Covers(provider, consumer) {
      forall kind, name | Has(consumer, kind, name)
        ensures Has(provider, kind, name)
                && MemberCovers(MemberOf(provider, kind, name), MemberOf(consumer, kind, name))
      {
        assert VariantCovers(provider.variants[kind], consumer.variants[kind]);
      }
    } else if forall kind, name | Has(consumer, kind, name) ::
                Has(provider, kind, name)
                && MemberCovers(MemberOf(provider, kind, name), MemberOf(consumer, kind, name)) {
      forall kind | kind in consumer.variants && kind in provider.variants
        ensures VariantCovers(provider.variants[kind], consumer.variants[kind])
      {
        forall name | name in consumer.variants[kind]
          ensures name in provider.variants[kind]
                  && MemberCovers(provider.variants[kind][name], consumer.variants[kind][name])
        {
          assert Has(consumer, kind, name);
        }
      }
    }
  }

  lemma CoversItself(d: Description)
    ensures Covers(d, d)
  {
  }

  /** Across versions an adapter that the provider accepts is used, and nothing else is bound. */
  lemma BoundByAdapterIff(provider: Description, accepts: set<nat>, consumer: Description, version: nat)
    ensures Bind(provider, accepts, consumer) == Adapted(version)
            <==> consumer.version == version != provider.version && version in accepts
    ensures provider.version != consumer.version && consumer.version !in accepts ==>
              Bind(provider, accepts, consumer) == Mismatch
  {
  }

  // ---------------------------------------------------------------- calls that cross

  /** A consumer bound directly never has a well-typed call refused for its arguments. */
  lemma CallsPassTheArgumentCheck(m: Matcher, provider: Description, accepts: set<nat>, consumer: Description,
                                  kind: string, name: string, args: Json)
    requires Bind(provider, accepts, consumer) == Direct
    requires InFragment(m, provider) && InFragment(m, consumer)
    requires Has(consumer, kind, name) && MemberOf(consumer, kind, name).Method?
    requires Valid(m, MemberOf(consumer, kind, name).args, args)
    ensures Has(provider, kind, name) && MemberOf(provider, kind, name).Method?
    ensures var offered, wanted := MemberOf(provider, kind, name).args, MemberOf(consumer, kind, name).args;
            Valid(m, offered, Arriving(m, offered, wanted, args))
  {
    if provider != consumer {
      assert VariantCovers(provider.variants[kind], consumer.variants[kind]);
      assert MemberCovers(MemberOf(provider, kind, name), MemberOf(consumer, kind, name));
    }
    FitsCrosses(m, MemberOf(consumer, kind, name).args, MemberOf(provider, kind, name).args, args);
  }

  /** What a directly bound provider returns or publishes, stripped to what its schema declares, is what was wanted. */
  lemma ResultsAreAsWanted(m: Matcher, provider: Description, accepts: set<nat>, consumer: Description,
                           kind: string, name: string, value: Json)
    requires Bind(provider, accepts, consumer) == Direct
    requires InFragment(m, provider) && InFragment(m, consumer)
    requires Has(consumer, kind, name)
    ensures Has(provider, kind, name)
    ensures MemberOf(consumer, kind, name).Method? ==>
              && MemberOf(provider, kind, name).Method?
              && (Valid(m, MemberOf(provider, kind, name).result, value) ==>
                    Valid(m, MemberOf(consumer, kind, name).result,
                          Clean(m, MemberOf(provider, kind, name).result, value)))
    ensures MemberOf(consumer, kind, name).State? ==>
              && MemberOf(provider, kind, name).State?
              && (Valid(m, MemberOf(provider, kind, name).schema, value) ==>
                    Valid(m, MemberOf(consumer, kind, name).schema,
                          Clean(m, MemberOf(provider, kind, name).schema, value)))
  {
    if provider != consumer {
      assert VariantCovers(provider.variants[kind], consumer.variants[kind]);
      assert MemberCovers(MemberOf(provider, kind, name), MemberOf(consumer, kind, name));
    }
    match (MemberOf(provider, kind, name), MemberOf(consumer, kind, name))
    case (Method(_, result), Method(_, result')) =>
      if Valid(m, result, value) {
        FitsCrosses(m, result, result', value);
      }
    case (State(schema), State(schema')) =>
      if Valid(m, schema, value) {
        FitsCrosses(m, schema, schema', value);
      }
    case _ =>
  }

  // ---------------------------------------------------------------- inputs

  /** Nothing but a kind is asked of the value as a whole. */
  predicate Plain(s: Schema, k: Kind) {
    Describes(s, k) && s.anyOf.NoBranches? && s.constant.None? && s.enums.None? && !s.never
  }

  /**
   * What a value carries that the consumer does not know, the provider accepts: under names that only the provider
   * declares, in items past the end of the consumer's tuple, and in branches of the provider's union that the consumer
   * never meant, at any depth, there are values that pass the provider's schemas for them.
   */
  predicate UnknownPasses(m: Matcher, wanted: Schema, offered: Schema, v: Json)
    decreases offered, wanted, 1
  {
    if wanted == offered || offered == EMPTY || Clean(m, wanted, v) == v then true
    else if wanted.anyOf.Branches? then
      exists i | 0 <= i < |wanted.anyOf.schemas| ::
        Valid(m, wanted.anyOf.schemas[i], v) && UnknownPasses(m, wanted.anyOf.schemas[i], offered, v)
    else if offered.anyOf.Branches? then
      exists i: nat :: i < |offered.anyOf.schemas| && BranchPasses(m, wanted, offered, i, v)
    else if v.Object? then
      forall k | k in v.fields && offered.properties.Fields? && k in offered.properties.schemas ::
        UnknownFieldPasses(m, wanted, offered, k, v.fields[k])
    else if v.List? then forall i | 0 <= i < |v.items| :: UnknownItemPasses(m, wanted, offered, i, v.items[i])
    else true
  }

  predicate BranchPasses(m: Matcher, wanted: Schema, offered: Schema, i: nat, v: Json)
    requires offered.anyOf.Branches? && i < |offered.anyOf.schemas|
    decreases offered, wanted, 0
  {
    var branch := offered.anyOf.schemas[i];
    if Fits(wanted, branch) then UnknownPasses(m, wanted, branch, v) else Valid(m, branch, Clean(m, branch, v))
  }

  predicate UnknownFieldPasses(m: Matcher, wanted: Schema, offered: Schema, k: string, v: Json)
    requires offered.properties.Fields? && k in offered.properties.schemas
    decreases offered, wanted, 0
  {
    var declared := offered.properties.schemas[k];
    if k in Properties(wanted) then UnknownPasses(m, Properties(wanted)[k], declared, v)
    else if wanted.additional.Values? then UnknownPasses(m, wanted.additional.schema, declared, v)
    else Valid(m, declared, Clean(m, declared, v))
  }

  /** What the consumer's schema says about item `i`, if anything. */
  function ItemAt(items: Items, i: nat): Option<Schema> {
    match items
    case NoItems => None
    case Every(item) => Some(item)
    case Tuple(schemas, _) => if i < |schemas| then Some(schemas[i]) else None
  }

  predicate UnknownItemPasses(m: Matcher, wanted: Schema, offered: Schema, i: nat, v: Json)
    decreases offered, wanted, 0
  {
    var given := ItemAt(wanted.items, i);
    match offered.items
    case NoItems => true
    case Every(item) =>
      if given.Some? then UnknownPasses(m, given.value, item, v) else Valid(m, item, Clean(m, item, v))
    case Tuple(schemas, _) => i < |schemas| && given.Some? ==> UnknownPasses(m, given.value, schemas[i], v)
  }

  /** An input is accepted if and only if what it carries beyond the consumer's schema passes the provider's. */
  lemma {:induction false} InputIsAcceptedIff(m: Matcher, wanted: Schema, offered: Schema, v: Json)
    requires Fragment(m, wanted) && Fragment(m, offered) && (Fits(wanted, offered) || wanted == offered)
    requires Valid(m, wanted, v)
    ensures Valid(m, offered, Clean(m, offered, v)) <==> UnknownPasses(m, wanted, offered, v)
    decreases offered, wanted, 2
  {
    hide Valid, Clean, Fragment, Fits;
    if wanted == offered {
      CleanKeepsValid(m, wanted, v);
    } else if offered == EMPTY {
      EmptyAccepts(m, v);
    } else if Clean(m, wanted, v) == v {
      FitsCrosses(m, wanted, offered, v);
    } else if wanted.anyOf.Branches? {
      WantedUnionIff(m, wanted, offered, v);
    } else if offered.anyOf.Branches? {
      OfferedUnionIff(m, wanted, offered, v);
    } else if v.Object? {
      ObjectIsAcceptedIff(m, wanted, offered, v);
    } else if v.List? {
      ListIsAcceptedIff(m, wanted, offered, v);
    } else {
      CleanScalar(m, wanted, v);
    }
  }

  lemma EmptyAccepts(m: Matcher, v: Json)
    ensures Valid(m, EMPTY, Clean(m, EMPTY, v))
  {
  }

  lemma {:induction false} WantedUnionIff(m: Matcher, wanted: Schema, offered: Schema, v: Json)
    requires Fragment(m, wanted) && Fragment(m, offered) && Fits(wanted, offered) && wanted.anyOf.Branches?
    requires wanted != offered && offered != EMPTY && Valid(m, wanted, v)
    ensures Valid(m, offered, Clean(m, offered, v)) <==>
            exists i | 0 <= i < |wanted.anyOf.schemas| ::
              Valid(m, wanted.anyOf.schemas[i], v) && UnknownPasses(m, wanted.anyOf.schemas[i], offered, v)
    decreases offered, wanted, 1
  {
    forall i | 0 <= i < |wanted.anyOf.schemas| && Valid(m, wanted.anyOf.schemas[i], v)
      ensures Valid(m, offered, Clean(m, offered, v)) <==> UnknownPasses(m, wanted.anyOf.schemas[i], offered, v)
    {
      InputIsAcceptedIff(m, wanted.anyOf.schemas[i], offered, v);
    }
  }

  lemma {:induction false} OfferedUnionIff(m: Matcher, wanted: Schema, offered: Schema, v: Json)
    requires Fragment(m, wanted) && Fragment(m, offered) && offered.anyOf.Branches? && Valid(m, wanted, v)
    requires wanted != offered && offered != EMPTY && wanted.anyOf.NoBranches? && Clean(m, wanted, v) != v
    ensures Valid(m, offered, Clean(m, offered, v)) <==> UnknownPasses(m, wanted, offered, v)
    decreases offered, wanted, 1
  {
    UnionAcceptsIff(m, offered, v);
    forall i: nat | i < |offered.anyOf.schemas|
      ensures BranchPasses(m, wanted, offered, i, v) <==> Accepts(m, offered.anyOf.schemas[i], v)
    {
      if Fits(wanted, offered.anyOf.schemas[i]) {
        InputIsAcceptedIff(m, wanted, offered.anyOf.schemas[i], v);
      }
    }
    if i: nat :| i < |offered.anyOf.schemas| && Accepts(m, offered.anyOf.schemas[i], v) {
      assert BranchPasses(m, wanted, offered, i, v);
      assert Accepts(m, offered, v) && UnknownPasses(m, wanted, offered, v);
    }
  }

  predicate Accepts(m: Matcher, s: Schema, v: Json) { Valid(m, s, Clean(m, s, v)) }

  /** A union accepts what it strips if and only if one of its branches does. */
  lemma UnionAcceptsIff(m: Matcher, s: Schema, v: Json)
    requires Fragment(m, s) && s.anyOf.Branches?
    ensures Valid(m, s, Clean(m, s, v)) <==>
            exists i: nat :: i < |s.anyOf.schemas| && Accepts(m, s.anyOf.schemas[i], v)
  {
    hide Valid, Clean, Fragment;
    if Valid(m, s, Clean(m, s, v)) {
      StrippedByABranch(m, s, v);
      var i :| 0 <= i < |s.anyOf.schemas| && Valid(m, s.anyOf.schemas[i], Clean(m, s.anyOf.schemas[i], v));
      assert Accepts(m, s.anyOf.schemas[i], v);
    }
    if i: nat :| i < |s.anyOf.schemas| && Accepts(m, s.anyOf.schemas[i], v) {
      BranchAccepts(m, s, v, i);
    }
  }

  /** Between schemas that are no unions, an object or list is described on both sides. */
  lemma BothDescribe(m: Matcher, wanted: Schema, offered: Schema, v: Json, k: Kind)
    requires Fragment(m, wanted) && Fragment(m, offered) && Fits(wanted, offered)
    requires wanted != offered && offered != EMPTY && wanted.anyOf.NoBranches? && offered.anyOf.NoBranches?
    requires Valid(m, wanted, v) && OfKind(v, k) && (k.ObjectKind? || k.ArrayKind?)
    ensures Plain(wanted, k) && Plain(offered, k) && !offered.additional.Values?
    ensures forall c | c in offered.constraints ::
            c in wanted.constraints && wanted.constraints[c] == offered.constraints[c]
    ensures k.ObjectKind? ==> ObjectFits(wanted, offered)
    ensures k.ArrayKind? ==> ArrayFits(wanted, offered)
  {
    ListedIsScalar(m, wanted, v);
  }

  lemma {:induction false} ObjectIsAcceptedIff(m: Matcher, wanted: Schema, offered: Schema, v: Json)
    requires Fragment(m, wanted) && Fragment(m, offered) && Fits(wanted, offered)
    requires wanted != offered && offered != EMPTY && wanted.anyOf.NoBranches? && offered.anyOf.NoBranches?
    requires Valid(m, wanted, v) && v.Object?
    ensures Valid(m, offered, Clean(m, offered, v)) <==>
            forall k | k in v.fields && k in Properties(offered) ::
              UnknownFieldPasses(m, wanted, offered, k, v.fields[k])
    decreases offered, wanted, 1
  {
    var u := Clean(m, offered, v);
    BothDescribe(m, wanted, offered, v, ObjectKind);
    StrippedFields(m, offered, v);
    forall k | k in u.fields
      ensures FieldValid(m, offered, k, u.fields[k]) <==> UnknownFieldPasses(m, wanted, offered, k, v.fields[k])
    {
      FieldIsWanted(m, wanted, offered, v, k);
      if k in Properties(wanted) {
        InputIsAcceptedIff(m, Properties(wanted)[k], Properties(offered)[k], v.fields[k]);
      } else if wanted.additional.Values? {
        InputIsAcceptedIff(m, wanted.additional.schema, Properties(offered)[k], v.fields[k]);
      }
    }
    if forall k | k in u.fields :: FieldValid(m, offered, k, u.fields[k]) {
      ObjectPasses(m, wanted, offered, v);
    }
  }

  lemma StrippedFields(m: Matcher, s: Schema, v: Json)
    requires v.Object? && Plain(s, ObjectKind) && !s.additional.Values?
    ensures var u := Clean(m, s, v);
            && u.Object? && u.fields.Keys == (set k | k in v.fields && k in Properties(s))
            && forall k | k in u.fields :: u.fields[k] == Clean(m, Properties(s)[k], v.fields[k])
  {
    forall k | k in Clean(m, s, v).fields
      ensures Clean(m, s, v).fields[k] == Clean(m, Properties(s)[k], v.fields[k])
    {
      assert Clean(m, s, v).fields[k] == CleanField(m, s, k, v.fields[k]);
    }
  }

  /** What both declare fits, and is valid for the consumer; so is an extra that the consumer's map accepts. */
  lemma FieldIsWanted(m: Matcher, wanted: Schema, offered: Schema, v: Json, k: string)
    requires ObjectFits(wanted, offered) && Fragment(m, wanted) && Fragment(m, offered)
    requires Valid(m, wanted, v) && v.Object? && k in v.fields && k in Properties(offered)
    ensures k in Properties(wanted) ==>
              && Fits(Properties(wanted)[k], Properties(offered)[k])
              && Fragment(m, Properties(wanted)[k]) && Valid(m, Properties(wanted)[k], v.fields[k])
    ensures k !in Properties(wanted) && wanted.additional.Values? ==>
              && Fits(wanted.additional.schema, Properties(offered)[k])
              && Fragment(m, wanted.additional.schema) && Valid(m, wanted.additional.schema, v.fields[k])
    ensures Fragment(m, Properties(offered)[k])
  {
    assert FieldValid(m, wanted, k, v.fields[k]);
  }

  lemma {:induction false} ListIsAcceptedIff(m: Matcher, wanted: Schema, offered: Schema, v: Json)
    requires Fragment(m, wanted) && Fragment(m, offered) && Fits(wanted, offered)
    requires wanted != offered && offered != EMPTY && wanted.anyOf.NoBranches? && offered.anyOf.NoBranches?
    requires Valid(m, wanted, v) && v.List? && Clean(m, wanted, v) != v
    ensures Valid(m, offered, Clean(m, offered, v)) <==>
            forall i | 0 <= i < |v.items| :: UnknownItemPasses(m, wanted, offered, i, v.items[i])
    decreases offered, wanted, 1
  {
    var u := Clean(m, offered, v);
    BothDescribe(m, wanted, offered, v, ArrayKind);
    ListPasses(m, wanted, offered, v);
    hide Valid, Clean, Fragment, Fits, ArrayFits, ItemPasses, UnknownItemPasses;
    forall i | 0 <= i < |v.items|
      ensures UnknownItemPasses(m, wanted, offered, i, v.items[i]) <==> ItemPasses(m, offered, u, i)
    {
      ItemIsAcceptedIff(m, wanted, offered, v, i);
    }
  }

  lemma {:induction false} ItemIsAcceptedIff(m: Matcher, wanted: Schema, offered: Schema, v: Json, i: nat)
    requires Fragment(m, wanted) && Fragment(m, offered) && ArrayFits(wanted, offered)
    requires Plain(wanted, ArrayKind) && Plain(offered, ArrayKind)
    requires Valid(m, wanted, v) && v.List? && Clean(m, wanted, v) != v && i < |v.items| && Clean(m, offered, v).List?
    ensures UnknownItemPasses(m, wanted, offered, i, v.items[i]) <==> ItemPasses(m, offered, Clean(m, offered, v), i)
    decreases offered, wanted, 0
  {
    ItemIsWanted(m, wanted, offered, v, i);
    TupleIsShort(m, offered, v, i);
    hide Valid, Clean, Fragment, Fits, ArrayFits;
    var given, declared := ItemAt(wanted.items, i), ItemAt(offered.items, i);
    if given.Some? && declared.Some? {
      InputIsAcceptedIff(m, given.value, declared.value, v.items[i]);
    }
  }

  lemma TupleIsShort(m: Matcher, s: Schema, v: Json, i: nat)
    requires v.List? && i < |v.items| && Plain(s, ArrayKind)
    ensures s.items.Tuple? && i >= |s.items.schemas| ==> i >= |Clean(m, s, v).items|
  {
  }

  /** Item `i`, if it is left, passes what the schema says about it. */
  predicate ItemPasses(m: Matcher, s: Schema, u: Json, i: nat)
    requires u.List?
  {
    i < |u.items| && ItemAt(s.items, i).Some? ==> Valid(m, ItemAt(s.items, i).value, u.items[i])
  }

  lemma ItemIsWanted(m: Matcher, wanted: Schema, offered: Schema, v: Json, i: nat)
    requires ArrayFits(wanted, offered) && Fragment(m, wanted) && Fragment(m, offered)
    requires Plain(offered, ArrayKind) && Plain(wanted, ArrayKind)
    requires Valid(m, wanted, v) && v.List? && i < |v.items| && Clean(m, wanted, v) != v
    ensures var given, declared, u := ItemAt(wanted.items, i), ItemAt(offered.items, i), Clean(m, offered, v);
            && (given.Some? ==> Fragment(m, given.value) && Valid(m, given.value, v.items[i]))
            && (declared.Some? ==> Fragment(m, declared.value) && i < |u.items|
                                   && u.items[i] == Clean(m, declared.value, v.items[i]))
            && (given.Some? && declared.Some? ==> Fits(given.value, declared.value))
            && (declared.Some? && given.None? ==> offered.items.Every?)
  {
  }

  lemma UniqueListsAreClean(m: Matcher, s: Schema, v: Json)
    requires Fragment(m, s) && UniqueItems in s.constraints && s.anyOf.NoBranches? && v.List?
    ensures Clean(m, s, v) == v
  {
    if Describes(s, ArrayKind) && s.items.Every? {
      forall i | 0 <= i < |v.items| ensures Clean(m, s.items.schema, v.items[i]) == v.items[i] {
        CleanScalar(m, s.items.schema, v.items[i]);
      }
      assert Clean(m, s, v).items == v.items;
    }
  }

  /** Apart from its items a stripped list passes. */
  lemma ListPasses(m: Matcher, wanted: Schema, offered: Schema, v: Json)
    requires Fragment(m, wanted) && Fragment(m, offered) && ArrayFits(wanted, offered)
    requires forall c | c in offered.constraints ::
             c in wanted.constraints && wanted.constraints[c] == offered.constraints[c]
    requires Plain(wanted, ArrayKind) && Plain(offered, ArrayKind)
    requires Valid(m, wanted, v) && v.List? && Clean(m, wanted, v) != v
    ensures var u := Clean(m, offered, v);
            && u.List? && |u.items| <= |v.items|
            && (Valid(m, offered, u) <==> forall i | 0 <= i < |v.items| :: ItemPasses(m, offered, u, i))
  {
    var u := Clean(m, offered, v);
    StrippedItems(m, offered, v);
    StrippedListMeets(m, wanted, offered, v);
    hide Clean, Fragment, ArrayFits, MeetsAll;
    ItemsPass(m, offered, u, |v.items|);
  }

  /** A list keeps its items; a tuple those it describes. */
  lemma StrippedItems(m: Matcher, s: Schema, v: Json)
    requires v.List? && Plain(s, ArrayKind)
    ensures var u := Clean(m, s, v);
            && u.List? && |u.items| <= |v.items|
            && |u.items| == (if s.items.Tuple? && |s.items.schemas| < |v.items| then |s.items.schemas| else |v.items|)
  {
  }

  lemma StrippedListMeets(m: Matcher, wanted: Schema, offered: Schema, v: Json)
    requires Fragment(m, wanted) && Fragment(m, offered) && ArrayFits(wanted, offered)
    requires forall c | c in offered.constraints ::
             c in wanted.constraints && wanted.constraints[c] == offered.constraints[c]
    requires Plain(wanted, ArrayKind) && Plain(offered, ArrayKind)
    requires Valid(m, wanted, v) && v.List? && Clean(m, wanted, v) != v
    ensures MeetsAll(m, offered, Clean(m, offered, v))
  {
    var u := Clean(m, offered, v);
    StrippedItems(m, offered, v);
    if UniqueItems in wanted.constraints {
      UniqueListsAreClean(m, wanted, v);
    }
    assert Strippable(wanted) && MeetsAll(m, wanted, v);
    assert wanted.items.Tuple? && !wanted.items.open ==> |v.items| <= |wanted.items.schemas|;
    hide Clean, Fragment, Valid, ArrayFits;
    forall c | c in offered.constraints ensures Meets(m, c, offered.constraints[c], u) {
      assert Meets(m, c, wanted.constraints[c], v);
    }
  }

  lemma ItemsPass(m: Matcher, s: Schema, u: Json, n: nat)
    requires Plain(s, ArrayKind) && u.List? && MeetsAll(m, s, u) && |u.items| <= n
    requires s.items.Tuple? ==> |u.items| <= |s.items.schemas|
    ensures Valid(m, s, u) <==> forall i | 0 <= i < n :: ItemPasses(m, s, u, i)
  {
    assert OfKind(u, ArrayKind);
    hide MeetsAll;
    if Valid(m, s, u) {
    } else if forall i | 0 <= i < n :: ItemPasses(m, s, u, i) {
      forall i | 0 <= i < |u.items| && ItemAt(s.items, i).Some? ensures Valid(m, ItemAt(s.items, i).value, u.items[i]) {
        assert ItemPasses(m, s, u, i);
      }
    }
  }

  /** Apart from its fields a stripped object passes. */
  lemma ObjectPasses(m: Matcher, wanted: Schema, offered: Schema, v: Json)
    requires Plain(wanted, ObjectKind) && Plain(offered, ObjectKind) && Fragment(m, wanted) && Fragment(m, offered)
    requires !offered.additional.Values? && ObjectFits(wanted, offered) && Valid(m, wanted, v) && v.Object?
    requires forall c | c in offered.constraints ::
             c in wanted.constraints && wanted.constraints[c] == offered.constraints[c]
    requires forall k | k in Clean(m, offered, v).fields :: FieldValid(m, offered, k, Clean(m, offered, v).fields[k])
    ensures Valid(m, offered, Clean(m, offered, v))
  {
    var u := Clean(m, offered, v);
    MapDomainSize(u.fields, v.fields);
    assert OfKind(u, ObjectKind);
    forall c | c in offered.constraints ensures Meets(m, c, offered.constraints[c], u) {
      assert Meets(m, c, wanted.constraints[c], v);
    }
  }

  const NUMBER: Schema := EMPTY.(types := Some([NumberKind]))

  const ONE_NUMBER: Schema := EMPTY.(types := Some([ObjectKind]), properties := Fields(map["a" := NUMBER]))

  const ANY_OBJECT: Schema := EMPTY.(types := Some([ObjectKind]), properties := Fields(map[]))

  lemma TextIsRefused(m: Matcher, v: Json)
    requires v == Object(map["a" := Text("x")])
    ensures !Valid(m, ONE_NUMBER, Clean(m, ONE_NUMBER, v))
  {
    var u := Clean(m, ONE_NUMBER, v);
    assert u.fields["a"] == CleanField(m, ONE_NUMBER, "a", Text("x")) == Text("x");
    assert !FieldValid(m, ONE_NUMBER, "a", u.fields["a"]);
  }

  /** An input with an unknown name that the provider declares is refused although it is valid for the consumer. */
  lemma UnknownInputMayBeRefused(m: Matcher) returns (provider: Description, consumer: Description, input: Json)
    ensures Covers(provider, consumer) && InFragment(m, provider) && InFragment(m, consumer)
    ensures Valid(m, consumer.input, input) && Clean(m, consumer.input, input) != input
    ensures !Valid(m, provider.input, Clean(m, provider.input, input))
  {
    provider := Description("T", Remote, 1, ONE_NUMBER, map[]);
    consumer := Description("T", Remote, 1, ANY_OBJECT, map[]);
    input := Object(map["a" := Text("x")]);
    TextIsRefused(m, input);
    assert OfKind(input, ObjectKind);
    assert Clean(m, ANY_OBJECT, input).fields == map[];
  }
}
