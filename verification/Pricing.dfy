/**
 * Prices by prompt length. A gateway lists brackets for each rate; they are compiled to request-wide tiers, and a cost
 * is calculated from the tiers. Amounts are per million tokens.
 */
module Pricing {
  import opened Wrappers

  datatype Field = Input | Output | CacheRead | CacheWrite

  const FIELDS: seq<Field> := [Input, Output, CacheRead, CacheWrite]

  datatype Rates = Rates(input: real, output: real, cacheRead: real, cacheWrite: real)

  function Rate(r: Rates, f: Field): real {
    match f
    case Input => r.input
    case Output => r.output
    case CacheRead => r.cacheRead
    case CacheWrite => r.cacheWrite
  }

  function SetRate(r: Rates, f: Field, amount: real): Rates {
    match f
    case Input => r.(input := amount)
    case Output => r.(output := amount)
    case CacheRead => r.(cacheRead := amount)
    case CacheWrite => r.(cacheWrite := amount)
  }

  /** `min` is inclusive (absent: 0), `max` exclusive (absent: no end). */
  datatype Bracket = Bracket(cost: Option<real>, min: Option<nat>, max: Option<nat>)

  datatype Gateway = Gateway(base: Rates, input: seq<Bracket>, output: seq<Bracket>, cacheRead: seq<Bracket>,
                             cacheWrite: seq<Bracket>)

  function Brackets(g: Gateway, f: Field): seq<Bracket> {
    match f
    case Input => g.input
    case Output => g.output
    case CacheRead => g.cacheRead
    case CacheWrite => g.cacheWrite
  }

  datatype Tier = Tier(above: nat, rates: Rates)

  datatype ModelCost = ModelCost(base: Rates, tiers: seq<Tier>)

  function Min(b: Bracket): nat { if b.min.Some? then b.min.value else 0 }

  predicate Contains(b: Bracket, n: nat) { Min(b) <= n && (b.max.Some? ==> n < b.max.value) }

  // ---------------------------------------------------------------- compiling brackets to tiers

  predicate Starts(g: Gateway, n: nat) {
    n > 0 && exists f, i :: f in FIELDS && 0 <= i < |Brackets(g, f)| && Brackets(g, f)[i].min == Some(n)
  }

  /** The first bracket that contains `n`. */
  function Find(brackets: seq<Bracket>, n: nat): Option<Bracket> {
    if brackets == [] then None
    else if Contains(brackets[0], n) then Some(brackets[0])
    else Find(brackets[1..], n)
  }

  /** The rate a compiled tier has at a bracket start. */
  function RateAt(g: Gateway, f: Field, start: nat): real {
    var found := Find(Brackets(g, f), start);
    if found.Some? && found.value.cost.Some? then found.value.cost.value else Rate(g.base, f)
  }

  predicate Rising(tiers: seq<Tier>) { forall i, j | 0 <= i < j < |tiers| :: tiers[i].above < tiers[j].above }

  predicate HasTier(tiers: seq<Tier>, n: nat) { exists i :: 0 <= i < |tiers| && tiers[i].above + 1 == n }

  /** A tier begins at a bracket start and has the rates in effect there. */
  ghost predicate FromBrackets(g: Gateway, tier: Tier) {
    Starts(g, tier.above + 1) && forall f :: Rate(tier.rates, f) == RateAt(g, f, tier.above + 1)
  }

  ghost predicate Compiled(g: Gateway, cost: ModelCost) {
    && cost.base == g.base && Rising(cost.tiers)
    && (forall i | 0 <= i < |cost.tiers| :: FromBrackets(g, cost.tiers[i]))
    && (forall n: nat | Starts(g, n) :: HasTier(cost.tiers, n))
  }

  // ---------------------------------------------------------------- picking a tier

  /** Tier `i` is the one that counts: of those whose threshold is exceeded, the one with the highest. */
  predicate Picked(tiers: seq<Tier>, tokens: nat, i: int) {
    if i < 0 then forall j | 0 <= j < |tiers| :: tokens <= tiers[j].above
    else i < |tiers| && tokens > tiers[i].above
         && forall j | 0 <= j < |tiers| && tokens > tiers[j].above :: tiers[j].above <= tiers[i].above
  }

  /** `calculateCost`, the choice of rates. */
  method EffectiveRates(cost: ModelCost, tokens: nat) returns (rates: Rates)
    ensures exists picked :: -1 <= picked < |cost.tiers| && Picked(cost.tiers, tokens, picked)
                             && rates == if picked < 0 then cost.base else cost.tiers[picked].rates
  {
    rates := cost.base;
    ghost var picked := -1;
    var matched: int := -1;
    var i := 0;
    while i < |cost.tiers|
      invariant 0 <= i <= |cost.tiers| && -1 <= picked < i
      invariant Picked(cost.tiers[..i], tokens, picked)
      invariant matched == if picked < 0 then -1 else cost.tiers[picked].above
      invariant rates == if picked < 0 then cost.base else cost.tiers[picked].rates
    {
      var tier := cost.tiers[i];
      if tokens > tier.above && tier.above > matched {
        rates, matched, picked := tier.rates, tier.above, i;
      }
      i := i + 1;
    }
    assert cost.tiers[..i] == cost.tiers;
  }

  // ---------------------------------------------------------------- what the compiled form means

  /** Brackets that follow on from 0 without gap, the last without end, each with a cost. */
  predicate Contiguous(brackets: seq<Bracket>) {
    && brackets != [] && Min(brackets[0]) == 0 && brackets[|brackets| - 1].max.None?
    && (forall i | 0 <= i < |brackets| :: brackets[i].cost.Some?)
    && (forall i | 0 <= i < |brackets| - 1 :: brackets[i].max.Some? && brackets[i + 1].min == brackets[i].max
                                             && Min(brackets[i]) < brackets[i].max.value)
  }

  /** The gateway lists this rate by brackets, or flat only. */
  predicate Lists(g: Gateway, f: Field) { Brackets(g, f) == [] || Contiguous(Brackets(g, f)) }

  /** It does, and the first bracket's cost, if there is one, is the flat rate. */
  predicate ListsWell(g: Gateway, f: Field) {
    Lists(g, f) && (Brackets(g, f) != [] ==> Brackets(g, f)[0].cost == Some(Rate(g.base, f)))
  }

  /**
   * What a prompt of `n` tokens costs by the brackets: the cost of one that contains `n`, or the flat rate if none is
   * listed.
   */
  predicate PricedAt(g: Gateway, f: Field, n: nat, amount: real) {
    if Brackets(g, f) == [] then amount == Rate(g.base, f)
    else exists i | 0 <= i < |Brackets(g, f)| ::
      Contains(Brackets(g, f)[i], n) && Brackets(g, f)[i].cost == Some(amount)
  }

  /** Contiguous brackets give one price. */
  lemma OnePrice(g: Gateway, f: Field, n: nat, a: real, b: real)
    requires Lists(g, f) && PricedAt(g, f, n, a) && PricedAt(g, f, n, b)
    ensures a == b
  {
    var brackets := Brackets(g, f);
    if brackets != [] {
      var i :| 0 <= i < |brackets| && Contains(brackets[i], n) && brackets[i].cost == Some(a);
      var j :| 0 <= j < |brackets| && Contains(brackets[j], n) && brackets[j].cost == Some(b);
      InBracket(brackets, n, i);
      InBracket(brackets, n, j);
    }
  }

  /** The lookup of compilation finds that price. */
  lemma LookupFinds(g: Gateway, f: Field, n: nat)
    requires Lists(g, f)
    ensures PricedAt(g, f, n, RateAt(g, f, n))
  {
    var brackets := Brackets(g, f);
    if brackets != [] {
      var i := SomeBracket(brackets, n, 0);
      InBracket(brackets, n, i);
    }
  }

  lemma {:induction false} FindFinds(brackets: seq<Bracket>, n: nat, i: nat)
    requires i < |brackets| && Contains(brackets[i], n) && forall j | 0 <= j < i :: !Contains(brackets[j], n)
    ensures Find(brackets, n) == Some(brackets[i])
  {
    if i > 0 {
      FindFinds(brackets[1..], n, i - 1);
    }
  }

  lemma {:induction false} MinsRise(brackets: seq<Bracket>, i: nat, j: nat)
    requires Contiguous(brackets) && i < j < |brackets|
    ensures brackets[i].max.Some? && brackets[i].max.value <= Min(brackets[j])
    decreases j
  {
    if i < j - 1 {
      MinsRise(brackets, i, j - 1);
      assert Min(brackets[j - 1]) < brackets[j - 1].max.value;
    }
  }

  /** Contiguous brackets hold every number in exactly one bracket. */
  lemma {:induction false} SomeBracket(brackets: seq<Bracket>, n: nat, k: nat) returns (i: nat)
    requires Contiguous(brackets) && k < |brackets| && Min(brackets[k]) <= n
    ensures k <= i < |brackets| && Contains(brackets[i], n)
    decreases |brackets| - k
  {
    if Contains(brackets[k], n) {
      i := k;
    } else {
      i := SomeBracket(brackets, n, k + 1);
    }
  }

  lemma InBracket(brackets: seq<Bracket>, n: nat, i: nat)
    requires Contiguous(brackets) && i < |brackets| && Contains(brackets[i], n)
    ensures Find(brackets, n) == Some(brackets[i])
  {
    forall j | 0 <= j < i ensures !Contains(brackets[j], n) {
      MinsRise(brackets, j, i);
    }
    FindFinds(brackets, n, i);
  }

  /** Between two bracket starts a rate does not change. */
  lemma SameBracket(g: Gateway, f: Field, start: nat, n: nat)
    requires Lists(g, f) && start <= n && f in FIELDS
    requires forall k: nat | start < k <= n :: !Starts(g, k)
    ensures RateAt(g, f, n) == RateAt(g, f, start)
  {
    var brackets := Brackets(g, f);
    if brackets != [] {
      var i := SomeBracket(brackets, n, 0);
      InBracket(brackets, n, i);
      if Min(brackets[i]) > start {
        assert Starts(g, Min(brackets[i]));
      } else {
        InBracket(brackets, start, i);
      }
    }
  }

  /**
   * For every number of prompt tokens and every order of the tiers, compiling to tiers and picking a tier gives each
   * rate the cost of the bracket that contains the tokens.
   */
  lemma TiersAgreeWithBrackets(g: Gateway, cost: ModelCost, tiers: seq<Tier>, tokens: nat, picked: int, f: Field)
    requires ListsWell(g, f) && Compiled(g, cost) && f in FIELDS
    requires multiset(tiers) == multiset(cost.tiers)
    requires -1 <= picked < |tiers| && Picked(tiers, tokens, picked)
    ensures PricedAt(g, f, tokens, Rate(if picked < 0 then cost.base else tiers[picked].rates, f))
  {
    if picked < 0 {
      assert cost.base == g.base;
      hide Starts, Find, Contiguous, Brackets, Rate, Picked, RateAt, PricedAt, Lists, Compiled;
      LookupFinds(g, f, tokens);
      NoStartBetween(g, cost, tiers, tokens, picked, 0);
      BaseRate(g, f, tokens);
    } else {
      PickedTierAgrees(g, cost, tiers, tokens, picked, f);
    }
  }

  /** A tier that is picked has the bracket's cost, whatever the flat rate is. */
  lemma PickedTierAgrees(g: Gateway, cost: ModelCost, tiers: seq<Tier>, tokens: nat, picked: nat, f: Field)
    requires Lists(g, f) && Compiled(g, cost) && f in FIELDS
    requires multiset(tiers) == multiset(cost.tiers)
    requires picked < |tiers| && Picked(tiers, tokens, picked)
    ensures PricedAt(g, f, tokens, Rate(tiers[picked].rates, f))
  {
    var start: nat := tiers[picked].above + 1;
    assert start <= tokens;
    hide Starts, Find, Contiguous, Brackets, Rate, Picked, RateAt, PricedAt, Lists, Compiled;
    LookupFinds(g, f, tokens);
    NoStartBetween(g, cost, tiers, tokens, picked, start);
    TierRate(g, cost, tiers, picked, f);
    SameBracket(g, f, start, tokens);
  }

  lemma TierRate(g: Gateway, cost: ModelCost, tiers: seq<Tier>, i: nat, f: Field)
    requires Compiled(g, cost) && multiset(tiers) == multiset(cost.tiers) && i < |tiers|
    ensures Rate(tiers[i].rates, f) == RateAt(g, f, tiers[i].above + 1)
  {
    hide Starts, Rate, RateAt;
    SameElements(tiers, cost.tiers, tiers[i]);
  }

  lemma SameElements(a: seq<Tier>, b: seq<Tier>, t: Tier)
    requires multiset(a) == multiset(b)
    ensures t in a <==> t in b
  {
    assert t in a <==> t in multiset(a);
  }

  lemma NoStartBetween(g: Gateway, cost: ModelCost, tiers: seq<Tier>, tokens: nat, picked: int, start: nat)
    requires Compiled(g, cost) && multiset(tiers) == multiset(cost.tiers)
    requires -1 <= picked < |tiers| && Picked(tiers, tokens, picked)
    requires start == if picked < 0 then 0 else tiers[picked].above + 1
    ensures forall k: nat | start < k <= tokens :: !Starts(g, k)
  {
    hide RateAt, Starts, Rate, Brackets, Find;
    forall k: nat | Starts(g, k) ensures k <= tokens ==> k <= start {
      var i :| 0 <= i < |cost.tiers| && cost.tiers[i].above + 1 == k;
      SameElements(tiers, cost.tiers, cost.tiers[i]);
      var j :| 0 <= j < |tiers| && tiers[j] == cost.tiers[i];
    }
  }

  lemma BaseRate(g: Gateway, f: Field, tokens: nat)
    requires ListsWell(g, f) && f in FIELDS && forall k: nat | 0 < k <= tokens :: !Starts(g, k)
    ensures RateAt(g, f, tokens) == Rate(g.base, f)
  {
    SameBracket(g, f, 0, tokens);
    if Brackets(g, f) != [] {
      InBracket(Brackets(g, f), 0, 0);
    }
  }

  /**
   * No tier is picked exactly below the first start of any rate. There the flat rate is the price, and it agrees with
   * the brackets exactly if it is the cost of the first one, which it otherwise overrides; from the first start on the
   * price is the bracket's, whatever the flat rate is.
   */
  lemma FlatRateWinsBelowTheFirstStart(g: Gateway, cost: ModelCost, tiers: seq<Tier>, tokens: nat, picked: int,
                                       f: Field)
    requires Contiguous(Brackets(g, f)) && Compiled(g, cost) && f in FIELDS
    requires multiset(tiers) == multiset(cost.tiers)
    requires -1 <= picked < |tiers| && Picked(tiers, tokens, picked)
    ensures picked < 0 <==> forall k: nat | 0 < k <= tokens :: !Starts(g, k)
    ensures PricedAt(g, f, tokens, Rate(if picked < 0 then cost.base else tiers[picked].rates, f))
            <==> picked >= 0 || Brackets(g, f)[0].cost == Some(Rate(g.base, f))
  {
    if picked < 0 {
      NoStartBetween(g, cost, tiers, tokens, picked, 0);
      OnlyFirst(g, f, tokens);
    } else {
      PickedIsAStart(g, cost, tiers, tokens, picked);
      hide Starts, Contiguous, Compiled, PricedAt, Picked;
      PickedTierAgrees(g, cost, tiers, tokens, picked, f);
    }
  }

  lemma PickedIsAStart(g: Gateway, cost: ModelCost, tiers: seq<Tier>, tokens: nat, picked: nat)
    requires Compiled(g, cost) && multiset(tiers) == multiset(cost.tiers)
    requires picked < |tiers| && Picked(tiers, tokens, picked)
    ensures exists k: nat | 0 < k <= tokens :: Starts(g, k)
  {
    SameElements(tiers, cost.tiers, tiers[picked]);
    var i :| 0 <= i < |cost.tiers| && cost.tiers[i] == tiers[picked];
    assert FromBrackets(g, cost.tiers[i]);
    hide Starts, RateAt, Rate;
    assert Starts(g, tiers[picked].above + 1);
  }

  lemma OnlyFirst(g: Gateway, f: Field, tokens: nat)
    requires Contiguous(Brackets(g, f)) && f in FIELDS && forall k: nat | 0 < k <= tokens :: !Starts(g, k)
    ensures forall i | 0 <= i < |Brackets(g, f)| :: Contains(Brackets(g, f)[i], tokens) <==> i == 0
  {
    var brackets := Brackets(g, f);
    forall i | 0 < i < |brackets| ensures !Contains(brackets[i], tokens) {
      MinsRise(brackets, 0, i);
      assert brackets[i - 1].max == brackets[i].min;
      assert Min(brackets[i]) > 0 ==> Starts(g, Min(brackets[i]));
      if i > 1 {
        MinsRise(brackets, 0, i - 1);
      }
    }
    var i := SomeBracket(brackets, tokens, 0);
  }

  /** One bracket for all prompts at 2, and a flat rate of 1: every prompt costs 1. */
  lemma FlatRateIgnoresTheBracket(tokens: nat) returns (g: Gateway, cost: ModelCost)
    ensures g.input == [Bracket(Some(2.0), Some(0), None)] && Compiled(g, cost) && cost.tiers == []
    ensures Rate(cost.base, Input) == 1.0 && PricedAt(g, Input, tokens, 2.0) && !PricedAt(g, Input, tokens, 1.0)
  {
    g := Gateway(Rates(1.0, 1.0, 1.0, 1.0), [Bracket(Some(2.0), Some(0), None)], [], [], []);
    cost := ModelCost(g.base, []);
    assert forall n: nat :: !Starts(g, n);
    assert Contains(Brackets(g, Input)[0], tokens) && |Brackets(g, Input)| == 1;
  }

  // ---------------------------------------------------------------- the compiler

  predicate TierOk(g: Gateway, tier: Tier) {
    forall f | f in FIELDS :: Rate(tier.rates, f) == RateAt(g, f, tier.above + 1)
  }

  predicate TiersOk(g: Gateway, tiers: seq<Tier>) { forall t | t in tiers :: TierOk(g, t) }

  /** The tiers are those of `done`, and every start left is above them. */
  ghost predicate CompiledTo(done: set<nat>, left: set<nat>, tiers: seq<Tier>) {
    && (forall t | t in tiers :: t.above + 1 in done)
    && (forall n | n in done :: HasTier(tiers, n))
    && (forall n, d | n in left && d in done :: d < n)
    && Rising(tiers)
  }

  lemma HasOneMore(tiers: seq<Tier>, tier: Tier, n: nat)
    requires HasTier(tiers, n) || n == tier.above + 1
    ensures HasTier(tiers + [tier], n)
  {
    var tiers' := tiers + [tier];
    if n == tier.above + 1 {
      assert tiers'[|tiers|].above + 1 == n;
    } else {
      var i :| 0 <= i < |tiers| && tiers[i].above + 1 == n;
      assert tiers'[i].above + 1 == n;
    }
  }

  lemma RisesOnce(tiers: seq<Tier>, tier: Tier)
    requires Rising(tiers) && forall t | t in tiers :: t.above < tier.above
    ensures Rising(tiers + [tier])
  {
  }

  lemma OneMoreTier(done: set<nat>, left: set<nat>, tiers: seq<Tier>, tier: Tier)
    requires CompiledTo(done, left, tiers)
    requires tier.above + 1 in left && forall n | n in left :: tier.above + 1 <= n
    ensures CompiledTo(done + {tier.above + 1}, left - {tier.above + 1}, tiers + [tier])
  {
    var start := tier.above + 1;
    RisesOnce(tiers, tier);
    forall n | n in done + {start} ensures HasTier(tiers + [tier], n) {
      HasOneMore(tiers, tier, n);
    }
    hide HasTier, Rising;
  }

  lemma TierIsCompiled(g: Gateway, tier: Tier)
    requires TierOk(g, tier)
    ensures forall f :: Rate(tier.rates, f) == RateAt(g, f, tier.above + 1)
  {
    hide RateAt, Rate;
    forall f ensures Rate(tier.rates, f) == RateAt(g, f, tier.above + 1) {
      IsField(f);
    }
  }

  lemma IsCompiled(g: Gateway, done: set<nat>, tiers: seq<Tier>)
    requires CompiledTo(done, {}, tiers) && TiersOk(g, tiers) && forall n: nat :: n in done <==> Starts(g, n)
    ensures Compiled(g, ModelCost(g.base, tiers))
  {
    hide Starts, RateAt, Rate, TierOk, HasTier, Rising, FromBrackets;
    forall i | 0 <= i < |tiers| ensures FromBrackets(g, tiers[i]) {
      IsFromBrackets(g, done, tiers, i);
    }
  }

  lemma IsFromBrackets(g: Gateway, done: set<nat>, tiers: seq<Tier>, i: nat)
    requires CompiledTo(done, {}, tiers) && TiersOk(g, tiers) && forall n: nat :: n in done <==> Starts(g, n)
    requires i < |tiers|
    ensures FromBrackets(g, tiers[i])
  {
    hide Starts, HasTier, Rising, TierOk;
    assert tiers[i] in tiers;
    TierIsCompiled(g, tiers[i]);
  }

  /** `getAiGatewayCost`. */
  method Compile(g: Gateway) returns (cost: ModelCost)
    ensures Compiled(g, cost)
  {
    hide Rate, RateAt, Starts, Brackets, CompiledTo, HasTier;
    var starts := CollectStarts(g);
    ghost var all, done := starts, {};
    var tiers: seq<Tier> := [];
    NoneCompiled(starts);
    while starts != {}
      invariant starts + done == all && CompiledTo(done, starts, tiers) && TiersOk(g, tiers)
      decreases starts
    {
      var start := Least(starts);
      var rates := RatesAt(g, start);
      OneMoreTier(done, starts, tiers, Tier(start - 1, rates));
      tiers := tiers + [Tier(start - 1, rates)];
      starts, done := starts - {start}, done + {start};
    }
    assert done == all;
    IsCompiled(g, done, tiers);
    cost := ModelCost(g.base, tiers);
  }

  lemma NoneCompiled(starts: set<nat>)
    ensures CompiledTo({}, starts, [])
  {
  }

  method RatesAt(g: Gateway, start: nat) returns (rates: Rates)
    ensures forall f :: Rate(rates, f) == RateAt(g, f, start)
  {
    rates := g.base;
    var i := 0;
    while i < |FIELDS|
      invariant 0 <= i <= 4
      invariant forall f :: Rate(rates, f) == if f in FIELDS[..i] then RateAt(g, f, start) else Rate(g.base, f)
    {
      var f := FIELDS[i];
      var found := Find(Brackets(g, f), start);
      assert FIELDS[..i + 1] == FIELDS[..i] + [f];
      if found.Some? && found.value.cost.Some? {
        rates := SetRate(rates, f, found.value.cost.value);
      }
      i := i + 1;
    }
    forall f ensures f in FIELDS[..i] {
      IsField(f);
    }
  }

  lemma IsField(f: Field)
    ensures f in FIELDS && FIELDS[..4] == FIELDS
  {
    match f
    case Input => assert FIELDS[0] == f;
    case Output => assert FIELDS[1] == f;
    case CacheRead => assert FIELDS[2] == f;
    case CacheWrite => assert FIELDS[3] == f;
  }

  /** `n` is a positive bracket start of the list. */
  predicate IsStart(brackets: seq<Bracket>, n: nat) {
    n > 0 && exists i :: 0 <= i < |brackets| && brackets[i].min == Some(n)
  }

  method CollectStarts(g: Gateway) returns (starts: set<nat>)
    ensures forall n: nat :: n in starts <==> Starts(g, n)
    ensures forall n | n in starts :: n > 0
  {
    hide IsStart;
    starts := {};
    var k := 0;
    while k < |FIELDS|
      invariant 0 <= k <= 4
      invariant forall n: nat :: n in starts <==> exists j :: 0 <= j < k && IsStart(Brackets(g, FIELDS[j]), n)
    {
      starts := AddStarts(Brackets(g, FIELDS[k]), starts);
      k := k + 1;
    }
    forall n: nat ensures n in starts <==> Starts(g, n) {
      StartsOfFields(g, n);
    }
  }

  lemma StartsOfFields(g: Gateway, n: nat)
    ensures Starts(g, n) <==> exists j :: 0 <= j < |FIELDS| && IsStart(Brackets(g, FIELDS[j]), n)
  {
    if Starts(g, n) {
      var f, i :| f in FIELDS && 0 <= i < |Brackets(g, f)| && Brackets(g, f)[i].min == Some(n);
      var j :| 0 <= j < |FIELDS| && FIELDS[j] == f;
      assert IsStart(Brackets(g, FIELDS[j]), n);
    }
  }

  method AddStarts(brackets: seq<Bracket>, starts: set<nat>) returns (more: set<nat>)
    ensures forall n: nat :: n in more <==> n in starts || IsStart(brackets, n)
  {
    more := starts;
    var i := 0;
    while i < |brackets|
      invariant 0 <= i <= |brackets|
      invariant forall n: nat :: n in more <==> n in starts || IsStart(brackets[..i], n)
    {
      if brackets[i].min.Some? && brackets[i].min.value > 0 {
        more := more + {brackets[i].min.value};
      }
      forall n: nat
        ensures IsStart(brackets[..i + 1], n) <==> IsStart(brackets[..i], n) || (n > 0 && brackets[i].min == Some(n)) {
        StartSnoc(brackets, i, n);
      }
      i := i + 1;
    }
    assert brackets[..i] == brackets;
  }

  lemma StartSnoc(brackets: seq<Bracket>, i: nat, n: nat)
    requires i < |brackets|
    ensures IsStart(brackets[..i + 1], n) <==> IsStart(brackets[..i], n) || (n > 0 && brackets[i].min == Some(n))
  {
    if IsStart(brackets[..i], n) {
      var j :| 0 <= j < i && brackets[..i][j].min == Some(n);
      assert brackets[..i + 1][j].min == Some(n);
    }
    if n > 0 && brackets[i].min == Some(n) {
      assert brackets[..i + 1][i].min == Some(n);
    }
    if IsStart(brackets[..i + 1], n) {
      var j :| 0 <= j < i + 1 && brackets[..i + 1][j].min == Some(n);
      assert j < i ==> brackets[..i][j].min == Some(n);
    }
  }

  method Least(ids: set<nat>) returns (least: nat)
    requires ids != {}
    ensures least in ids && forall x | x in ids :: least <= x
  {
    var rest := ids;
    least :| least in rest;
    rest := rest - {least};
    while rest != {}
      invariant rest <= ids && least in ids && least !in rest && forall x | x in ids && x !in rest :: least <= x
      decreases rest
    {
      var x :| x in rest;
      rest := rest - {x};
      if x < least {
        least := x;
      }
    }
  }
}
