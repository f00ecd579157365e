/**
 Price snapshots: seven rates, of which the cache and reasoning ones may be missing, how
 they are normalized, and how a ratio or a long-context policy scales them.
 */
module Pricing {
  import opened Common
  import opened Money

  datatype Component = Uncached | CacheRead | Write5m | Write1h | Write30m | Output | Reasoning {

    predicate Input() {
      !Output? && !Reasoning?
    }
  }

  const COMPONENTS: seq<Component> := [Uncached, CacheRead, Write5m, Write1h, Write30m, Output, Reasoning]

  /** One value per component. */
  datatype Rates<+T> = Rates(uncached: T, cacheRead: T, write5m: T, write1h: T, write30m: T, output: T, reasoning: T) {

    function Of(c: Component): T {
      match c
      case Uncached => uncached
      case CacheRead => cacheRead
      case Write5m => write5m
      case Write1h => write1h
      case Write30m => write30m
      case Output => output
      case Reasoning => reasoning
    }
  }

  /** Writes one field through its target. */
  function With<T>(r: Rates<T>, c: Component, v: T): (r': Rates<T>)
    ensures forall d :: r'.Of(d) == if d == c then v else r.Of(d)
  {
    match c
    case Uncached => r.(uncached := v)
    case CacheRead => r.(cacheRead := v)
    case Write5m => r.(write5m := v)
    case Write1h => r.(write1h := v)
    case Write30m => r.(write30m := v)
    case Output => r.(output := v)
    case Reasoning => r.(reasoning := v)
  }

  lemma SameComponents<T>(a: Rates<T>, b: Rates<T>)
    requires forall c :: a.Of(c) == b.Of(c)
    ensures a == b
  {
    assert a.Of(Uncached) == b.Of(Uncached) && a.Of(CacheRead) == b.Of(CacheRead) && a.Of(Write5m) == b.Of(Write5m);
    assert a.Of(Write1h) == b.Of(Write1h) && a.Of(Write30m) == b.Of(Write30m);
    assert a.Of(Output) == b.Of(Output) && a.Of(Reasoning) == b.Of(Reasoning);
  }

  lemma AllComponents(i: nat, c: Component) returns (j: nat)
    requires i == |COMPONENTS|
    ensures j < i && COMPONENTS[j] == c
  {
    j := match c
      case Uncached => 0
      case CacheRead => 1
      case Write5m => 2
      case Write1h => 3
      case Write30m => 4
      case Output => 5
      case Reasoning => 6;
  }

  /** A sale or a cost: the two snapshots have the same fields under other names. */
  datatype Snapshot = Snapshot(currency: string, unit: string, formula: string, rates: Rates<Numeric>)

  datatype Error = UnsupportedUnit | InvalidRate | UnsupportedFormula | InvalidUsage | Mismatch | NoCandidate

  datatype Result<+T> = Ok(value: T) | Err(error: Error)

  // ----- normalization

  /** What a missing rate falls back to. */
  function Base(c: Component): Component {
    if c.Input() then Uncached else Output
  }

  /** A rate that can be used: present or optional, finite and not negative. */
  predicate Usable(rates: Rates<Numeric>, c: Component) {
    match rates.Of(c)
    case Null => c != Base(c)
    case NotFinite => false
    case Finite(v) => v >= 0.0
  }

  predicate AllUsable(rates: Rates<Numeric>) {
    forall c :: Usable(rates, c)
  }

  function Effective(rates: Rates<Numeric>, c: Component): real {
    if rates.Of(c).Finite? then rates.Of(c).value
    else if rates.Of(Base(c)).Finite? then rates.Of(Base(c)).value else 0.0
  }

  function EffectiveRates(rates: Rates<Numeric>): Rates<real> {
    Rates(Effective(rates, Uncached), Effective(rates, CacheRead), Effective(rates, Write5m), Effective(rates, Write1h),
          Effective(rates, Write30m), Effective(rates, Output), Effective(rates, Reasoning))
  }

  lemma EffectiveOf(rates: Rates<Numeric>, c: Component)
    ensures EffectiveRates(rates).Of(c) == Effective(rates, c)
    ensures AllUsable(rates) ==> Effective(rates, c) >= 0.0
  {
    assert AllUsable(rates) ==> Usable(rates, c) && Usable(rates, Base(c));
  }

  function Normalize(s: Snapshot): Result<Rates<real>> {
    if s.unit != "per_1m_tokens" then Err(UnsupportedUnit)
    else if s.currency == "" then Err(InvalidRate)
    else if s.formula != "" && s.formula != "token_v1" then Err(UnsupportedFormula)
    else if !AllUsable(s.rates) then Err(InvalidRate)
    else Ok(EffectiveRates(s.rates))
  }

  // ----- scaling

  /** A missing rate stays missing; `None` is an invalid one. */
  function ScaleRate(rate: Numeric, factor: real): Option<Numeric> {
    match rate
    case Null => Some(Null)
    case NotFinite => None
    case Finite(v) => Some(Finite(Rounded(Times(v, factor))))
  }

  /** A factor for the input side and one for the output side. */
  datatype Factors = Factors(input: real, output: real) {

    function Of(c: Component): real {
      if c.Input() then input else output
    }
  }

  predicate Scalable(rates: Rates<Numeric>) {
    forall c :: !rates.Of(c).NotFinite?
  }

  /** Rate by rate. */
  predicate ScaledFrom(base: Rates<Numeric>, f: Factors, scaled: Rates<Numeric>) {
    forall c :: Some(scaled.Of(c)) == ScaleRate(base.Of(c), f.Of(c))
  }

  /** The loop over the fields and their targets; it stops at the first invalid rate. */
  method ScaleRates(base: Rates<Numeric>, f: Factors) returns (scaled: Option<Rates<Numeric>>)
    ensures scaled.Some? <==> Scalable(base)
    ensures scaled.Some? ==> ScaledFrom(base, f, scaled.value)
  {
    var target := Rates(Null, Null, Null, Null, Null, Null, Null);
    var i := 0;
    while i < |COMPONENTS|
      invariant 0 <= i <= |COMPONENTS|
      invariant forall j :: 0 <= j < i ==> Some(target.Of(COMPONENTS[j])) == ScaleRate(base.Of(COMPONENTS[j]), f.Of(COMPONENTS[j]))
    {
      var c := COMPONENTS[i];
      var rate := ScaleRate(base.Of(c), f.Of(c));
      if rate.None? { return None; }
      target := With(target, c, rate.value);
      i := i + 1;
    }
    forall c ensures Some(target.Of(c)) == ScaleRate(base.Of(c), f.Of(c)) { var j := AllComponents(i, c); }
    scaled := Some(target);
  }

  /** A finite ratio that is not negative. */
  predicate ValidRatio(r: Numeric) {
    r.Finite? && r.value >= 0.0
  }

  /** The base price times the ratio of the route. */
  method ScaleCustomerPrice(base: Snapshot, ratio: Numeric) returns (r: Result<Snapshot>)
    ensures r.Ok? <==> ValidRatio(ratio) && Scalable(base.rates)
    ensures r.Ok? ==> r.value == base.(rates := r.value.rates) && ScaledFrom(base.rates, Factors(ratio.value, ratio.value), r.value.rates)
  {
    if !ratio.Finite? || ratio.value < 0.0 { return Err(InvalidRate); }
    var scaled := ScaleRates(base.rates, Factors(ratio.value, ratio.value));
    r := if scaled.None? then Err(InvalidRate) else Ok(base.(rates := scaled.value));
  }

  /** The base price times both cost factors, multiplied before the one rounding. */
  method ScaleProviderCostByFactors(base: Snapshot, price: Numeric, recharge: Numeric) returns (r: Result<Snapshot>)
    ensures r.Ok? <==> ValidRatio(price) && ValidRatio(recharge) && Scalable(base.rates)
    ensures r.Ok? ==> r.value == base.(rates := r.value.rates) &&
                      ScaledFrom(base.rates, Factors(Times(price.value, recharge.value), Times(price.value, recharge.value)), r.value.rates)
  {
    if !price.Finite? || price.value < 0.0 || !recharge.Finite? || recharge.value < 0.0 { return Err(InvalidRate); }
    var scaled := ScaleRates(base.rates, Factors(Times(price.value, recharge.value), Times(price.value, recharge.value)));
    r := if scaled.None? then Err(InvalidRate) else Ok(base.(rates := scaled.value));
  }

  // ----- long context

  datatype Policy = Policy(enabled: bool, threshold: int, input: Numeric, output: Numeric) {

    predicate Active() {
      enabled && threshold > 0 && !input.Null? && !output.Null?
    }

    predicate AppliesTo(inputTokens: int) {
      Active() && inputTokens > threshold
    }

    predicate Multiplies() {
      input.Finite? && input.value > 0.0 && output.Finite? && output.value > 0.0
    }
  }

  /** A snapshot priced at this many input tokens. */
  predicate PricedAt(s: Snapshot, policy: Policy, inputTokens: int, priced: Snapshot) {
    if policy.AppliesTo(inputTokens)
    then policy.Multiplies() && priced == s.(rates := priced.rates) && ScaledFrom(s.rates, Factors(policy.input.value, policy.output.value), priced.rates)
    else priced == s
  }

  predicate CanPriceAt(s: Snapshot, policy: Policy, inputTokens: int) {
    policy.AppliesTo(inputTokens) ==> policy.Multiplies() && Scalable(s.rates)
  }

  /** Both the sale and the cost go through this step. */
  method ApplyLongContext(s: Snapshot, policy: Policy, inputTokens: int) returns (r: Result<Snapshot>, applied: bool)
    ensures r.Ok? <==> CanPriceAt(s, policy, inputTokens)
    ensures r.Ok? ==> PricedAt(s, policy, inputTokens, r.value) && applied == policy.AppliesTo(inputTokens)
  {
    if !policy.AppliesTo(inputTokens) { return Ok(s), false; }
    if !policy.input.Finite? || policy.input.value <= 0.0 || !policy.output.Finite? || policy.output.value <= 0.0 {
      return Err(InvalidRate), false;
    }
    var scaled := ScaleRates(s.rates, Factors(policy.input.value, policy.output.value));
    if scaled.None? { return Err(InvalidRate), false; }
    r, applied := Ok(s.(rates := scaled.value)), true;
  }

  // ----- scaling and normalization commute

  lemma ScaledIsNonNegative(v: real, factor: real)
    requires v >= 0.0 && factor >= 0.0
    ensures Rounded(Times(v, factor)) >= 0.0
  {
    assert v * factor >= 0.0;
    RoundedIsExact(Times(v, factor));
  }

  /** The rate a component is charged at, after the scaling. */
  lemma EffectiveScales(base: Rates<Numeric>, f: Factors, scaled: Rates<Numeric>, c: Component)
    requires Some(scaled.Of(c)) == ScaleRate(base.Of(c), f.Of(c))
    requires Some(scaled.Of(Base(c))) == ScaleRate(base.Of(Base(c)), f.Of(Base(c)))
    requires Usable(base, c) && Usable(base, Base(c))
    ensures Effective(scaled, c) == Rounded(Times(Effective(base, c), f.Of(c)))
  {
    assert f.Of(Base(c)) == f.Of(c);
  }

  lemma UsableScales(base: Rates<Numeric>, f: Factors, scaled: Rates<Numeric>, c: Component)
    requires Some(scaled.Of(c)) == ScaleRate(base.Of(c), f.Of(c)) && Usable(base, c) && f.Of(c) >= 0.0
    ensures Usable(scaled, c)
  {
    if base.Of(c).Finite? { ScaledIsNonNegative(base.Of(c).value, f.Of(c)); }
  }

  /** Each effective rate of the scaled snapshot is the rounded scaled effective rate. */
  predicate EffectivelyScaled(base: Rates<real>, f: Factors, scaled: Rates<real>) {
    forall c :: scaled.Of(c) == Rounded(Times(base.Of(c), f.Of(c)))
  }

  /**
   For rates that are not negative, normalizing a scaled price is rounding each scaled
   normalized rate: a missing rate may be filled in before or after the scaling.
   */
  lemma ScalingCommutes(s: Snapshot, f: Factors, scaled: Snapshot)
    requires Normalize(s).Ok? && f.input >= 0.0 && f.output >= 0.0
    requires scaled == s.(rates := scaled.rates) && ScaledFrom(s.rates, f, scaled.rates)
    ensures Normalize(scaled).Ok? && EffectivelyScaled(Normalize(s).value, f, Normalize(scaled).value)
  {
    forall c ensures Usable(scaled.rates, c) {
      assert Usable(s.rates, c);
      UsableScales(s.rates, f, scaled.rates, c);
    }
    forall c ensures EffectiveRates(scaled.rates).Of(c) == Rounded(Times(EffectiveRates(s.rates).Of(c), f.Of(c))) {
      EffectiveOf(s.rates, c);
      EffectiveOf(scaled.rates, c);
      assert Usable(s.rates, c) && Usable(s.rates, Base(c));
      EffectiveScales(s.rates, f, scaled.rates, c);
    }
  }

  /** Not negative, or brought within one unit of zero by the factor. */
  predicate NonNegativeOrCutOff(rates: Rates<Numeric>, f: Factors, c: Component) {
    rates.Of(c).Finite? ==> Times(rates.Of(c).value, f.Of(c)) * SCALE > -1.0
  }

  lemma UsableScaledIff(base: Rates<Numeric>, f: Factors, scaled: Rates<Numeric>, c: Component)
    requires Some(scaled.Of(c)) == ScaleRate(base.Of(c), f.Of(c))
    ensures Usable(scaled, c) <==> (c == Base(c) ==> base.Of(c).Finite?) && NonNegativeOrCutOff(base, f, c)
  {
    if base.Of(c).Finite? { CutOffToZero(Times(base.Of(c).value, f.Of(c))); }
  }

  /**
   When a scaled price normalizes although its base may not: exactly when no rate is
   missing where it is required, and every negative one is cut off to zero.
   */
  lemma ScaledPriceNormalizesIff(s: Snapshot, f: Factors, scaled: Snapshot)
    requires s.unit == "per_1m_tokens" && s.currency != "" && (s.formula == "" || s.formula == "token_v1")
    requires scaled == s.(rates := scaled.rates) && ScaledFrom(s.rates, f, scaled.rates)
    ensures Normalize(scaled).Ok? <==>
      s.rates.uncached.Finite? && s.rates.output.Finite? && forall c :: NonNegativeOrCutOff(s.rates, f, c)
  {
    forall c ensures Usable(scaled.rates, c) <==> (c == Base(c) ==> s.rates.Of(c).Finite?) && NonNegativeOrCutOff(s.rates, f, c) {
      UsableScaledIff(s.rates, f, scaled.rates, c);
    }
    assert s.rates.Of(Uncached) == s.rates.uncached && s.rates.Of(Output) == s.rates.output;
    if Normalize(scaled).Ok? {
      assert Usable(scaled.rates, Uncached) && Usable(scaled.rates, Output);
      forall c ensures NonNegativeOrCutOff(s.rates, f, c) { assert Usable(scaled.rates, c); }
    } else if s.rates.uncached.Finite? && s.rates.output.Finite? {
      var c :| !Usable(scaled.rates, c);
    }
  }

  lemma CutOffToZero(x: real)
    ensures Rounded(x) >= 0.0 <==> x * SCALE > -1.0
  {
    var y := x * SCALE;
    assert RoundHalfUp(y) >= 0 <==> y > -1.0;
  }

  /**
   On its own, scaling can turn a price that billing would refuse into one it accepts: it
   relies on the tables, which hold no negative rate.
   */
  lemma NegativeRateSlipsThrough() returns (s: Snapshot, scaled: Snapshot)
    ensures ScaledFrom(s.rates, Factors(0.5, 0.5), scaled.rates) && scaled == s.(rates := scaled.rates)
    ensures !Normalize(s).Ok? && Normalize(scaled).Ok?
  {
    var tiny := Finite(-1.0 / SCALE);
    s := Snapshot("USD", "per_1m_tokens", "", Rates(tiny, Null, Null, Null, Null, Finite(0.0), Null));
    scaled := s.(rates := Rates(Finite(0.0), Null, Null, Null, Null, Finite(0.0), Null));
    assert !Usable(s.rates, Uncached);
    assert Rounded(Times(-1.0 / SCALE, 0.5)) == 0.0 && Rounded(Times(0.0, 0.5)) == 0.0;
    assert forall c :: Usable(scaled.rates, c);
  }

  // ----- which rates a long-context policy multiplies

  /** A column multiplied and rounded to ten decimals; NULL stays NULL. */
  predicate Multiplied(before: Numeric, factor: Numeric, after: Numeric) {
    if before.Null? then after.Null? else before.Finite? && factor.Finite? && after == Finite(Rounded(Times(before.value, factor.value)))
  }

  /**
   Above its threshold, and not at it, an active policy multiplies the five input columns by
   its input and the two output columns by its output multiplier; a policy that is switched
   off, has no positive threshold or lacks a multiplier leaves every price alone.
   */
  lemma LongContextColumns(s: Snapshot, policy: Policy, inputTokens: int, priced: Snapshot)
    requires PricedAt(s, policy, inputTokens, priced)
    ensures priced.currency == s.currency && priced.unit == s.unit && priced.formula == s.formula
    ensures !policy.enabled || policy.threshold <= 0 || policy.input.Null? || policy.output.Null? || inputTokens <= policy.threshold ==> priced == s
    ensures policy.enabled && 0 < policy.threshold < inputTokens && !policy.input.Null? && !policy.output.Null? ==>
      var b, a := s.rates, priced.rates;
      && Multiplied(b.uncached, policy.input, a.uncached) && Multiplied(b.cacheRead, policy.input, a.cacheRead)
      && Multiplied(b.write5m, policy.input, a.write5m) && Multiplied(b.write1h, policy.input, a.write1h)
      && Multiplied(b.write30m, policy.input, a.write30m)
      && Multiplied(b.output, policy.output, a.output) && Multiplied(b.reasoning, policy.output, a.reasoning)
  {
    hide Times, Rounded;
    if policy.AppliesTo(inputTokens) {
      var f := Factors(policy.input.value, policy.output.value);
      forall c ensures Some(priced.rates.Of(c)) == ScaleRate(s.rates.Of(c), f.Of(c)) {}
      assert forall c :: c in {Uncached, CacheRead, Write5m, Write1h, Write30m} ==> Some(priced.rates.Of(c)) == ScaleRate(s.rates.Of(c), f.input);
      assert Some(priced.rates.Of(Output)) == ScaleRate(s.rates.Of(Output), f.output);
      assert Some(priced.rates.Of(Reasoning)) == ScaleRate(s.rates.Of(Reasoning), f.output);
      assert Some(priced.rates.Of(Uncached)) == ScaleRate(s.rates.Of(Uncached), f.input) && Some(priced.rates.Of(CacheRead)) == ScaleRate(s.rates.Of(CacheRead), f.input);
      assert Some(priced.rates.Of(Write5m)) == ScaleRate(s.rates.Of(Write5m), f.input) && Some(priced.rates.Of(Write1h)) == ScaleRate(s.rates.Of(Write1h), f.input);
      assert Some(priced.rates.Of(Write30m)) == ScaleRate(s.rates.Of(Write30m), f.input);
    }
  }

  /** A long-context price can be made unless the policy applies and a multiplier is not positive or a rate not finite. */
  lemma LongContextPossibleIff(s: Snapshot, policy: Policy, inputTokens: int)
    ensures CanPriceAt(s, policy, inputTokens) <==>
      !(policy.enabled && 0 < policy.threshold < inputTokens && !policy.input.Null? && !policy.output.Null?) ||
      (policy.input.Finite? && policy.input.value > 0.0 && policy.output.Finite? && policy.output.value > 0.0 && forall c :: !s.rates.Of(c).NotFinite?)
  {}
}
