/** What a request costs: the customer's charge, the provider's cost and the estimate held before the call. */
module Charging {
  import opened Common
  import opened Money
  import opened Pricing
  import opened Usage

  /** Rates are per million tokens. */
  function Amount(rate: real, tokens: int): real {
    Times(rate, tokens as real) / 1000000.0
  }

  /** The output that is not reasoning is what the total leaves over. */
  function Charged(t: Rates<int>): Rates<int> {
    t.(output := t.output - t.reasoning)
  }

  /** The exact amounts of the seven components. */
  function Breakdown(r: Rates<real>, t: Rates<int>): Rates<real> {
    var k := Charged(t);
    Rates(Amount(r.uncached, k.uncached), Amount(r.cacheRead, k.cacheRead), Amount(r.write5m, k.write5m),
          Amount(r.write1h, k.write1h), Amount(r.write30m, k.write30m), Amount(r.output, k.output), Amount(r.reasoning, k.reasoning))
  }

  function Total7(a: Rates<real>): real {
    a.uncached + a.cacheRead + a.write5m + a.write1h + a.write30m + a.output + a.reasoning
  }

  function Total7Units(a: Rates<int>): int {
    a.uncached + a.cacheRead + a.write5m + a.write1h + a.write30m + a.output + a.reasoning
  }

  function Rounded7(a: Rates<real>): Rates<int> {
    Rates(Units(a.uncached), Units(a.cacheRead), Units(a.write5m), Units(a.write1h), Units(a.write30m), Units(a.output), Units(a.reasoning))
  }

  /** The exact total of a request. */
  function ExactTotal(r: Rates<real>, t: Rates<int>): real {
    Total7(Breakdown(r, t))
  }

  datatype Cost = Cost(parts: Rates<int>, total: int)

  /** One rounding, of the total. */
  function CustomerCharge(f: Facts, price: Snapshot): Result<int> {
    if NormalizeUsage(f).Err? then Err(NormalizeUsage(f).error)
    else if Normalize(price).Err? then Err(Normalize(price).error)
    else Ok(Units(ExactTotal(Normalize(price).value, NormalizeUsage(f).value)))
  }

  /** The tokens a component is charged for: of the output, those that are not reasoning. */
  function Billed(t: Rates<int>, c: Component): int {
    match c
    case Uncached => t.uncached
    case CacheRead => t.cacheRead
    case Write5m => t.write5m
    case Write1h => t.write1h
    case Write30m => t.write30m
    case Output => t.output - t.reasoning
    case Reasoning => t.reasoning
  }

  /** The part of a component is its own rate times its own tokens, per million. */
  lemma PartIsRateTimesTokens(r: Rates<real>, t: Rates<int>, c: Component)
    ensures Breakdown(r, t).Of(c) == Times(r.Of(c), Billed(t, c) as real) / 1000000.0
    ensures Billed(t, c) == 0 ==> Breakdown(r, t).Of(c) == 0.0
  {
    hide Times;
    NothingTimes(r.Of(c));
    match c
    case Uncached =>
    case CacheRead =>
    case Write5m =>
    case Write1h =>
    case Write30m =>
    case Output =>
    case Reasoning =>
  }

  lemma NothingTimes(x: real)
    ensures Times(x, 0.0) == 0.0
  {}

  /** Seven roundings, each of a component's own rate on its own tokens, and the total of the rounded parts. */
  method ProviderCost(f: Facts, cost: Snapshot) returns (r: Result<Cost>)
    ensures r.Ok? <==> NormalizeUsage(f).Ok? && Normalize(cost).Ok?
    ensures r.Ok? ==>
      var parts := Rounded7(Breakdown(Normalize(cost).value, NormalizeUsage(f).value));
      r.value == Cost(parts, Total7Units(parts))
    ensures r.Ok? ==> forall c: Component :: r.value.parts.Of(c) == Units(Times(Normalize(cost).value.Of(c), Billed(NormalizeUsage(f).value, c) as real) / 1000000.0)
  {
    if NormalizeUsage(f).Err? { return Err(NormalizeUsage(f).error); }
    if Normalize(cost).Err? { return Err(Normalize(cost).error); }
    var parts := Rounded7(Breakdown(Normalize(cost).value, NormalizeUsage(f).value));
    forall c: Component ensures parts.Of(c) == Units(Times(Normalize(cost).value.Of(c), Billed(NormalizeUsage(f).value, c) as real) / 1000000.0) {
      PartIsRateTimesTokens(Normalize(cost).value, NormalizeUsage(f).value, c);
    }
    var total := SumRounded([parts.uncached, parts.cacheRead, parts.write5m, parts.write1h, parts.write30m, parts.output, parts.reasoning]);
    r := Ok(Cost(parts, total));
  }

  function Sum(values: seq<int>): int {
    if values == [] then 0 else Sum(values[..|values| - 1]) + values[|values| - 1]
  }

  lemma Sum7(v: seq<int>)
    requires |v| == 7
    ensures Sum(v) == v[0] + v[1] + v[2] + v[3] + v[4] + v[5] + v[6]
  {
    assert v[..6][..5] == v[..5] && v[..5][..4] == v[..4] && v[..4][..3] == v[..3] && v[..3][..2] == v[..2] && v[..2][..1] == v[..1];
    assert Sum(v[..1]) == v[0] && Sum(v[..2]) == Sum(v[..1]) + v[1] && Sum(v[..3]) == Sum(v[..2]) + v[2];
    assert Sum(v[..4]) == Sum(v[..3]) + v[3] && Sum(v[..5]) == Sum(v[..4]) + v[4] && Sum(v[..6]) == Sum(v[..5]) + v[5];
  }

  /** Sums amounts of one scale. */
  method SumRounded(values: seq<int>) returns (total: int)
    ensures total == Sum(values)
    ensures |values| == 7 ==> total == values[0] + values[1] + values[2] + values[3] + values[4] + values[5] + values[6]
  {
    total := 0;
    for i := 0 to |values|
      invariant total == Sum(values[..i])
    {
      assert values[..i + 1][..i] == values[..i];
      total := total + values[i];
    }
    assert values[..|values|] == values;
    if |values| == 7 { Sum7(values); }
  }

  // ----- rounding seven parts against rounding once

  predicate NonNegative(t: Rates<int>) {
    forall c: Component :: t.Of(c) >= 0
  }

  /** Usage as it is billed, with reasoning a part of the output. */
  predicate Sound(t: Rates<int>) {
    NonNegative(t) && t.reasoning <= t.output
  }

  predicate NonNegativeRates(r: Rates<real>) {
    forall c: Component :: r.Of(c) >= 0.0
  }

  lemma AmountIsNonNegative(rate: real, tokens: int)
    requires rate >= 0.0 && tokens >= 0
    ensures Amount(rate, tokens) >= 0.0
  {
    assert rate * tokens as real >= 0.0;
  }

  lemma BreakdownIsNonNegative(r: Rates<real>, t: Rates<int>)
    requires NonNegativeRates(r) && Sound(t)
    ensures NonNegativeRates(Breakdown(r, t))
  {
    forall c: Component ensures Breakdown(r, t).Of(c) >= 0.0 {
      assert r.Of(c) >= 0.0 && t.Of(c) >= 0 && t.Of(Output) >= 0 && t.Of(Reasoning) >= 0;
      AmountIsNonNegative(r.Of(c), Charged(t).Of(c));
    }
  }

  /** Seven half units of error at most, and one of the total: less than four units. */
  lemma PartsAgainstTotal(a: Rates<real>)
    requires NonNegativeRates(a)
    ensures -3 <= Total7Units(Rounded7(a)) - Units(Total7(a)) <= 3
  {
    forall c: Component ensures a.Of(c) >= 0.0 {}
    assert a.Of(Uncached) >= 0.0 && a.Of(CacheRead) >= 0.0 && a.Of(Write5m) >= 0.0 && a.Of(Write1h) >= 0.0;
    assert a.Of(Write30m) >= 0.0 && a.Of(Output) >= 0.0 && a.Of(Reasoning) >= 0.0;
    RoundingError(a.uncached * SCALE);
    RoundingError(a.cacheRead * SCALE);
    RoundingError(a.write5m * SCALE);
    RoundingError(a.write1h * SCALE);
    RoundingError(a.write30m * SCALE);
    RoundingError(a.output * SCALE);
    RoundingError(a.reasoning * SCALE);
    RoundingError(Total7(a) * SCALE);
  }

  /**
   The recorded provider cost is the sum of its seven rounded parts, and differs from the
   exact total rounded once by at most three units.
   */
  lemma CostWithinThreeUnits(f: Facts, cost: Snapshot)
    requires NormalizeUsage(f).Ok? && Normalize(cost).Ok? && NormalizeUsage(f).value.reasoning <= NormalizeUsage(f).value.output
    ensures var rates, tokens := Normalize(cost).value, NormalizeUsage(f).value;
      -3 <= Total7Units(Rounded7(Breakdown(rates, tokens))) - Units(ExactTotal(rates, tokens)) <= 3
  {
    NormalizedIsSound(f, cost);
    BreakdownIsNonNegative(Normalize(cost).value, NormalizeUsage(f).value);
    PartsAgainstTotal(Breakdown(Normalize(cost).value, NormalizeUsage(f).value));
  }

  lemma NormalizedIsSound(f: Facts, price: Snapshot)
    requires NormalizeUsage(f).Ok? && Normalize(price).Ok?
    ensures NonNegative(NormalizeUsage(f).value) && NonNegativeRates(Normalize(price).value)
  {
    forall c: Component ensures NormalizeUsage(f).value.Of(c) >= 0 { TokensAreNonNegative(f, c); }
    forall c: Component ensures Normalize(price).value.Of(c) >= 0.0 { EffectiveOf(price.rates, c); }
  }

  /** One token in every input class and two of output, one of them reasoning. */
  const OneOfEach: Facts := Facts(Rates(One, One, One, One, One, TokenCount(2, Known), One), [])

  const One: TokenCount := TokenCount(1, Known)

  /** 0.00005 per million tokens: half a unit for one token. */
  const HalfUnitRates: Snapshot := Snapshot("USD", "per_1m_tokens", "", Rates(Cheap, Cheap, Cheap, Cheap, Cheap, Cheap, Cheap))

  const Cheap: Numeric := Finite(0.00005)

  /** Three units are reached by a usage and a cost: seven halves round up one by one, and their sum only once. */
  lemma ThreeUnitsAreReached()
    ensures NormalizeUsage(OneOfEach).Ok? && Sound(NormalizeUsage(OneOfEach).value) && Normalize(HalfUnitRates).Ok?
    ensures var rates, tokens := Normalize(HalfUnitRates).value, NormalizeUsage(OneOfEach).value;
      Total7Units(Rounded7(Breakdown(rates, tokens))) - Units(ExactTotal(rates, tokens)) == 3
  {
    var half := 0.5 / SCALE;
    assert forall c: Component :: CountOk(OneOfEach.counts.Of(c)) && Billable(OneOfEach.counts.Of(c)).Some?;
    assert forall c: Component :: Usable(HalfUnitRates.rates, c);
    assert NormalizeUsage(OneOfEach).value == Rates(1, 1, 1, 1, 1, 2, 1);
    assert Normalize(HalfUnitRates).value == Rates(0.00005, 0.00005, 0.00005, 0.00005, 0.00005, 0.00005, 0.00005);
    assert Amount(0.00005, 1) == half;
    var a := Breakdown(Normalize(HalfUnitRates).value, NormalizeUsage(OneOfEach).value);
    assert a == Rates(half, half, half, half, half, half, half);
    assert half * SCALE == 0.5 && Units(half) == 1;
    assert Total7(a) * SCALE == 3.5;
  }

  // ----- cheaper rates give smaller amounts

  predicate Below(a: Rates<real>, b: Rates<real>) {
    forall c: Component :: a.Of(c) <= b.Of(c)
  }

  lemma AmountIsMonotone(a: real, b: real, tokens: int)
    requires a <= b && tokens >= 0
    ensures Amount(a, tokens) <= Amount(b, tokens)
  {
    TimesIsMonotone(a, b, tokens as real);
  }

  lemma BreakdownIsMonotone(a: Rates<real>, b: Rates<real>, t: Rates<int>)
    requires Below(a, b) && Sound(t)
    ensures Below(Breakdown(a, t), Breakdown(b, t))
  {
    forall c: Component ensures Breakdown(a, t).Of(c) <= Breakdown(b, t).Of(c) {
      assert a.Of(c) <= b.Of(c) && t.Of(c) >= 0 && t.Of(Output) >= 0 && t.Of(Reasoning) >= 0;
      AmountIsMonotone(a.Of(c), b.Of(c), Charged(t).Of(c));
    }
  }

  lemma TotalIsMonotone(a: Rates<real>, b: Rates<real>)
    requires Below(a, b)
    ensures Total7(a) <= Total7(b)
  {
    assert a.Of(Uncached) <= b.Of(Uncached) && a.Of(CacheRead) <= b.Of(CacheRead) && a.Of(Write5m) <= b.Of(Write5m);
    assert a.Of(Write1h) <= b.Of(Write1h) && a.Of(Write30m) <= b.Of(Write30m);
    assert a.Of(Output) <= b.Of(Output) && a.Of(Reasoning) <= b.Of(Reasoning);
  }

  /**
   No loss on a request: when every normalized sale rate covers the cost rate, the customer
   pays at least the recorded cost less three units.
   */
  lemma ChargeCoversCost(f: Facts, sale: Snapshot, cost: Snapshot)
    requires NormalizeUsage(f).Ok? && NormalizeUsage(f).value.reasoning <= NormalizeUsage(f).value.output
    requires Normalize(sale).Ok? && Normalize(cost).Ok? && Below(Normalize(cost).value, Normalize(sale).value)
    ensures CustomerCharge(f, sale).Ok?
    ensures CustomerCharge(f, sale).value >= Total7Units(Rounded7(Breakdown(Normalize(cost).value, NormalizeUsage(f).value))) - 3
  {
    var t := NormalizeUsage(f).value;
    NormalizedIsSound(f, cost);
    CostWithinThreeUnits(f, cost);
    BreakdownIsMonotone(Normalize(cost).value, Normalize(sale).value, t);
    TotalIsMonotone(Breakdown(Normalize(cost).value, t), Breakdown(Normalize(sale).value, t));
    UnitsMonotone(ExactTotal(Normalize(cost).value, t), ExactTotal(Normalize(sale).value, t));
  }

  // ----- the estimate held before the call

  function MaxReal(a: real, b: real): real {
    if a >= b then a else b
  }

  function MaxInputRate(r: Rates<real>): real {
    MaxReal(MaxReal(r.uncached, r.cacheRead), MaxReal(MaxReal(r.write5m, r.write1h), r.write30m))
  }

  function MaxOutputRate(r: Rates<real>): real {
    MaxReal(r.output, r.reasoning)
  }

  datatype Estimate = Estimate(inputTokens: int, maxCompletionTokens: int)

  function ExactEstimate(e: Estimate, r: Rates<real>): real {
    (Times(MaxInputRate(r), e.inputTokens as real) + Times(MaxOutputRate(r), e.maxCompletionTokens as real)) / 1000000.0
  }

  function AuthorizationAmount(e: Estimate, price: Snapshot): Result<int> {
    if e.inputTokens < 0 || e.maxCompletionTokens < 0 then Err(InvalidUsage)
    else if Normalize(price).Err? then Err(Normalize(price).error)
    else Ok(Units(ExactEstimate(e, Normalize(price).value)))
  }

  /** The usage stays within what was estimated. */
  predicate Within(t: Rates<int>, e: Estimate) {
    Sound(t) && InputTokens(t) <= e.inputTokens && t.output <= e.maxCompletionTokens
  }

  lemma TimesDistributes(k: real, x: real, y: real)
    ensures Times(k, x) + Times(k, y) == Times(k, x + y)
  {
    assert k * x + k * y == k * (x + y);
  }

  lemma CappedBy(a: real, b: real, tokens: int)
    requires a <= b && tokens >= 0
    ensures Times(a, tokens as real) <= Times(b, tokens as real)
  {
    TimesIsMonotone(a, b, tokens as real);
  }

  /** All input classes together, at the dearest rate. */
  lemma InputCapped(r: Rates<real>, t: Rates<int>)
    requires NonNegative(t)
    ensures Times(r.uncached, t.uncached as real) + Times(r.cacheRead, t.cacheRead as real) + Times(r.write5m, t.write5m as real)
            + Times(r.write1h, t.write1h as real) + Times(r.write30m, t.write30m as real)
            <= Times(MaxInputRate(r), InputTokens(t) as real)
  {
    var k := MaxInputRate(r);
    assert t.Of(Uncached) >= 0 && t.Of(CacheRead) >= 0 && t.Of(Write5m) >= 0 && t.Of(Write1h) >= 0 && t.Of(Write30m) >= 0;
    CappedBy(r.uncached, k, t.uncached);
    CappedBy(r.cacheRead, k, t.cacheRead);
    CappedBy(r.write5m, k, t.write5m);
    CappedBy(r.write1h, k, t.write1h);
    CappedBy(r.write30m, k, t.write30m);
    TimesDistributes(k, t.uncached as real, t.cacheRead as real);
    TimesDistributes(k, (t.uncached + t.cacheRead) as real, t.write5m as real);
    TimesDistributes(k, (t.uncached + t.cacheRead + t.write5m) as real, t.write1h as real);
    TimesDistributes(k, (t.uncached + t.cacheRead + t.write5m + t.write1h) as real, t.write30m as real);
  }

  lemma OutputCapped(r: Rates<real>, t: Rates<int>)
    requires Sound(t)
    ensures Times(r.output, (t.output - t.reasoning) as real) + Times(r.reasoning, t.reasoning as real) <= Times(MaxOutputRate(r), t.output as real)
  {
    var k := MaxOutputRate(r);
    assert t.Of(Reasoning) >= 0;
    CappedBy(r.output, k, t.output - t.reasoning);
    CappedBy(r.reasoning, k, t.reasoning);
    TimesDistributes(k, (t.output - t.reasoning) as real, t.reasoning as real);
  }

  lemma EstimateCaps(r: Rates<real>, t: Rates<int>, e: Estimate)
    requires NonNegativeRates(r) && Within(t, e)
    ensures ExactTotal(r, t) <= ExactEstimate(e, r)
  {
    assert r.Of(Uncached) >= 0.0 && r.Of(Output) >= 0.0;
    InputCapped(r, t);
    OutputCapped(r, t);
    TimesIsMonotone(InputTokens(t) as real, e.inputTokens as real, MaxInputRate(r));
    TimesIsMonotone(t.output as real, e.maxCompletionTokens as real, MaxOutputRate(r));
  }

  lemma EstimateCapsUnits(r: Rates<real>, t: Rates<int>, e: Estimate)
    requires NonNegativeRates(r) && Within(t, e)
    ensures Units(ExactTotal(r, t)) <= Units(ExactEstimate(e, r)) && e.inputTokens >= 0 && e.maxCompletionTokens >= 0
  {
    assert t.Of(Uncached) >= 0 && t.Of(CacheRead) >= 0 && t.Of(Write5m) >= 0 && t.Of(Write1h) >= 0 && t.Of(Write30m) >= 0 && t.Of(Output) >= 0;
    EstimateCaps(r, t, e);
    UnitsMonotone(ExactTotal(r, t), ExactEstimate(e, r));
  }

  /**
   The estimate bounds every later charge at the same price, however the input splits over
   its five classes and the output over reasoning and the rest.
   */
  lemma EstimateBoundsCharge(f: Facts, e: Estimate, price: Snapshot)
    requires CustomerCharge(f, price).Ok? && Within(NormalizeUsage(f).value, e)
    ensures AuthorizationAmount(e, price).Ok? && CustomerCharge(f, price).value <= AuthorizationAmount(e, price).value
  {
    hide ExactTotal, ExactEstimate;
    NormalizedIsSound(f, price);
    EstimateCapsUnits(Normalize(price).value, NormalizeUsage(f).value, e);
  }

  // ----- long context

  /** Dearer rates give a higher estimate. */
  lemma EstimateIsMonotone(a: Rates<real>, b: Rates<real>, e: Estimate)
    requires Below(a, b) && e.inputTokens >= 0 && e.maxCompletionTokens >= 0
    ensures ExactEstimate(e, a) <= ExactEstimate(e, b) && Units(ExactEstimate(e, a)) <= Units(ExactEstimate(e, b))
  {
    assert a.Of(Uncached) <= b.Of(Uncached) && a.Of(CacheRead) <= b.Of(CacheRead) && a.Of(Write5m) <= b.Of(Write5m);
    assert a.Of(Write1h) <= b.Of(Write1h) && a.Of(Write30m) <= b.Of(Write30m);
    assert a.Of(Output) <= b.Of(Output) && a.Of(Reasoning) <= b.Of(Reasoning);
    TimesIsMonotone(MaxInputRate(a), MaxInputRate(b), e.inputTokens as real);
    TimesIsMonotone(MaxOutputRate(a), MaxOutputRate(b), e.maxCompletionTokens as real);
    UnitsMonotone(ExactEstimate(e, a), ExactEstimate(e, b));
  }

  /** Rates of at most ten decimals. */
  predicate ExactRates(r: Rates<real>) {
    forall c: Component :: Exact(r.Of(c))
  }

  /** A multiplier of at least one never lowers a rate of at most ten decimals. */
  lemma MultipliedIsDearer(x: real, k: real)
    requires Exact(x) && x >= 0.0 && k >= 1.0
    ensures x <= Rounded(Times(x, k))
  {
    TimesIsMonotone(1.0, k, x);
    assert Times(x, 1.0) == x;
    UnitsMonotone(x, Times(x, k));
    ExactStays(x);
  }

  /** Both multipliers are at least one. */
  predicate Raises(policy: Policy) {
    policy.input.Finite? && policy.input.value >= 1.0 && policy.output.Finite? && policy.output.value >= 1.0
  }

  lemma LongContextIsDearer(price: Snapshot, policy: Policy, inputTokens: int, priced: Snapshot)
    requires Normalize(price).Ok? && PricedAt(price, policy, inputTokens, priced)
    requires ExactRates(Normalize(price).value)
    requires policy.AppliesTo(inputTokens) ==> Raises(policy)
    ensures Normalize(priced).Ok? && Below(Normalize(price).value, Normalize(priced).value)
  {
    if policy.AppliesTo(inputTokens) {
      var k := Factors(policy.input.value, policy.output.value);
      ScalingCommutes(price, k, priced);
      forall c: Component ensures Normalize(price).value.Of(c) <= Normalize(priced).value.Of(c) {
        EffectiveOf(price.rates, c);
        assert Exact(Normalize(price).value.Of(c));
        MultipliedIsDearer(Normalize(price).value.Of(c), k.Of(c));
      }
    }
  }

  /** One policy at one input total always gives the same rates. */
  lemma PricedAtIsUnique(price: Snapshot, policy: Policy, i: int, j: int, a: Snapshot, b: Snapshot)
    requires PricedAt(price, policy, i, a) && PricedAt(price, policy, j, b) && (policy.AppliesTo(i) <==> policy.AppliesTo(j))
    ensures a == b
  {
    if policy.AppliesTo(i) {
      forall c: Component ensures a.rates.Of(c) == b.rates.Of(c) {
        assert Some(a.rates.Of(c)) == Some(b.rates.Of(c));
      }
      SameComponents(a.rates, b.rates);
    }
  }

  /**
   The bound survives the long-context step: pricing the estimate at the estimated input
   bounds pricing the usage at any input total up to it, even when only the estimate crosses
   the threshold.
   */
  lemma EstimateBoundsLongContextCharge(f: Facts, e: Estimate, total: int, price: Snapshot, policy: Policy, charged: Snapshot, estimated: Snapshot)
    requires NormalizeUsage(f).Ok? && Within(NormalizeUsage(f).value, e)
    requires Normalize(price).Ok? && ExactRates(Normalize(price).value)
    requires policy.AppliesTo(e.inputTokens) ==> Raises(policy)
    requires total <= e.inputTokens && PricedAt(price, policy, total, charged) && PricedAt(price, policy, e.inputTokens, estimated)
    ensures CustomerCharge(f, charged).Ok? && AuthorizationAmount(e, estimated).Ok?
    ensures CustomerCharge(f, charged).value <= AuthorizationAmount(e, estimated).value
  {
    LongContextIsDearer(price, policy, e.inputTokens, estimated);
    if policy.AppliesTo(total) {
      PricedAtIsUnique(price, policy, total, e.inputTokens, charged, estimated);
      EstimateBoundsCharge(f, e, estimated);
    } else {
      EstimateBoundsCharge(f, e, price);
      EstimateIsMonotone(Normalize(price).value, Normalize(estimated).value, e);
    }
  }

  /** The long-context price of a candidate, if its policy can ever apply. */
  predicate DearPrice(price: Snapshot, policy: Policy, dear: Snapshot) {
    if policy.Active() && policy.threshold < INT64_MAX then PricedAt(price, policy, policy.threshold + 1, dear) else dear == price
  }

  /** What settlement may come to charge at: the candidate's price at an input total, which is an int64. */
  predicate ChargedAt(price: Snapshot, policy: Policy, inputTokens: int, charged: Snapshot) {
    inputTokens <= INT64_MAX && PricedAt(price, policy, inputTokens, charged)
  }

  lemma ChargedAtEither(price: Snapshot, policy: Policy, inputTokens: int, charged: Snapshot, dear: Snapshot)
    requires ChargedAt(price, policy, inputTokens, charged) && DearPrice(price, policy, dear)
    ensures charged == price || charged == dear
  {
    if policy.AppliesTo(inputTokens) { PricedAtIsUnique(price, policy, inputTokens, policy.threshold + 1, charged, dear); }
  }

  predicate Bounded(e: Estimate, p: Snapshot, held: int) {
    AuthorizationAmount(e, p).Ok? && AuthorizationAmount(e, p).value <= held
  }

  /** The amount covers the estimates of a candidate at both of its prices. */
  ghost predicate Covers(e: Estimate, price: Snapshot, policy: Policy, held: int) {
    Bounded(e, price, held) && forall dear :: DearPrice(price, policy, dear) ==> Bounded(e, dear, held)
  }

  /** The amount is the estimate of a candidate at one of its prices. */
  ghost predicate Attained(e: Estimate, price: Snapshot, policy: Policy, held: int) {
    AuthorizationAmount(e, price) == Ok(held) || exists dear :: DearPrice(price, policy, dear) && AuthorizationAmount(e, dear) == Ok(held)
  }

  /** Both prices of a candidate can be estimated. */
  ghost predicate Holdable(e: Estimate, price: Snapshot, policy: Policy) {
    AuthorizationAmount(e, price).Ok? && exists dear :: DearPrice(price, policy, dear) && AuthorizationAmount(e, dear).Ok?
  }

  /** The higher of the estimates at the plain and at the long-context price. */
  method CandidateHold(e: Estimate, price: Snapshot, policy: Policy) returns (held: Result<int>)
    ensures held.Ok? <==> Holdable(e, price, policy)
    ensures held.Ok? ==> Covers(e, price, policy, held.value) && Attained(e, price, policy, held.value)
  {
    hide AuthorizationAmount, PricedAt;
    var plain := AuthorizationAmount(e, price);
    if plain.Err? { return Err(plain.error); }
    if !(policy.Active() && policy.threshold < INT64_MAX) {
      assert DearPrice(price, policy, price);
      return plain;
    }
    var priced, _ := ApplyLongContext(price, policy, policy.threshold + 1);
    if priced.Err? {
      forall p ensures !DearPrice(price, policy, p) { PricedMeansPriceable(price, policy, policy.threshold + 1, p); }
      return Err(priced.error);
    }
    var dear := AuthorizationAmount(e, priced.value);
    assert DearPrice(price, policy, priced.value);
    forall p | DearPrice(price, policy, p) ensures p == priced.value {
      PricedAtIsUnique(price, policy, policy.threshold + 1, policy.threshold + 1, p, priced.value);
    }
    if dear.Err? { return Err(dear.error); }
    held := if dear.value > plain.value then dear else plain;
  }

  lemma PricedMeansPriceable(s: Snapshot, policy: Policy, inputTokens: int, priced: Snapshot)
    ensures PricedAt(s, policy, inputTokens, priced) ==> CanPriceAt(s, policy, inputTokens)
  {
    if policy.AppliesTo(inputTokens) && PricedAt(s, policy, inputTokens, priced) {
      var f := Factors(policy.input.value, policy.output.value);
      forall c ensures !s.rates.Of(c).NotFinite? {
        assert Some(priced.rates.Of(c)) == ScaleRate(s.rates.Of(c), f.Of(c));
      }
    }
  }

  /** The dearest hold over all candidates. */
  method HoldAmount(e: Estimate, prices: seq<Snapshot>, policy: Policy) returns (held: Result<int>)
    ensures held.Ok? <==> |prices| > 0 && forall i :: 0 <= i < |prices| ==> Holdable(e, prices[i], policy)
    ensures held.Ok? ==> forall i :: 0 <= i < |prices| ==> Covers(e, prices[i], policy, held.value)
    ensures held.Ok? ==> exists i :: 0 <= i < |prices| && Attained(e, prices[i], policy, held.value)
  {
    hide AuthorizationAmount, DearPrice, Holdable;
    if |prices| == 0 { return Err(NoCandidate); }
    var worst: Option<int> := None;
    var n := 0;
    while n < |prices|
      invariant 0 <= n <= |prices| && (n > 0 ==> worst.Some?)
      invariant forall i :: 0 <= i < n ==> Holdable(e, prices[i], policy)
      invariant worst.Some? ==> forall i :: 0 <= i < n ==> Covers(e, prices[i], policy, worst.value)
      invariant worst.Some? ==> exists i :: 0 <= i < n && Attained(e, prices[i], policy, worst.value)
    {
      var candidate := CandidateHold(e, prices[n], policy);
      if candidate.Err? { return candidate; }
      if worst.None? || candidate.value > worst.value { worst := Some(candidate.value); }
      n := n + 1;
    }
    held := Ok(worst.value);
  }

  /**
   What is held before the call bounds every charge within the token estimate, whichever
   candidate serves the request, whichever price settlement arrives at and whatever the
   multipliers are, even when the input total passes the threshold unexpectedly or wraps.
   */
  lemma HeldAmountBoundsCharge(f: Facts, e: Estimate, total: int, price: Snapshot, policy: Policy, charged: Snapshot, dear: Snapshot, held: int)
    requires CustomerCharge(f, charged).Ok? && Within(NormalizeUsage(f).value, e)
    requires ChargedAt(price, policy, total, charged) && DearPrice(price, policy, dear)
    requires Covers(e, price, policy, held)
    ensures CustomerCharge(f, charged).value <= held
  {
    ChargedAtEither(price, policy, total, charged, dear);
    EstimateBoundsCharge(f, e, charged);
  }
}
