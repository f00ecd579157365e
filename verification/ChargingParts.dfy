/** What is charged for which tokens at which rate, component by component, down to the columns of a snapshot. */
module ChargingParts {
  import opened Money
  import opened Pricing
  import opened Usage
  import opened Charging

  // ----- from the columns to rates and tokens

  /** A column that must hold a rate. */
  predicate Mandatory(rate: Numeric) {
    rate.Finite? && rate.value >= 0.0
  }

  /** A column that may be NULL. */
  predicate Optional(rate: Numeric) {
    rate.Null? || (rate.Finite? && rate.value >= 0.0)
  }

  /** The rate of a column, or what stands in for a missing one. */
  function OrElse(rate: Numeric, other: Numeric): real {
    if rate.Finite? then rate.value else if other.Finite? then other.value else 0.0
  }

  /**
   A snapshot normalizes exactly if it is priced per million tokens, has a currency, a known
   formula, an uncached and an output rate, and no rate that is negative or not finite.  A
   missing cache rate is then the uncached one, a missing reasoning rate the output one.
   */
  lemma NormalizedRates(s: Snapshot)
    ensures Normalize(s).Ok? <==>
      && s.unit == "per_1m_tokens" && s.currency != "" && (s.formula == "" || s.formula == "token_v1")
      && Mandatory(s.rates.uncached) && Mandatory(s.rates.output) && Optional(s.rates.cacheRead) && Optional(s.rates.write5m)
      && Optional(s.rates.write1h) && Optional(s.rates.write30m) && Optional(s.rates.reasoning)
    ensures Normalize(s).Ok? ==>
      var r := Normalize(s).value;
      && r.uncached == s.rates.uncached.value && r.output == s.rates.output.value
      && r.cacheRead == OrElse(s.rates.cacheRead, s.rates.uncached) && r.write5m == OrElse(s.rates.write5m, s.rates.uncached)
      && r.write1h == OrElse(s.rates.write1h, s.rates.uncached) && r.write30m == OrElse(s.rates.write30m, s.rates.uncached)
      && r.reasoning == OrElse(s.rates.reasoning, s.rates.output)
  {
    var k := s.rates;
    assert AllUsable(k) ==> Usable(k, Uncached) && Usable(k, Output) && Usable(k, CacheRead) && Usable(k, Write5m) && Usable(k, Write1h) && Usable(k, Write30m) && Usable(k, Reasoning);
    assert Usable(k, Uncached) && Usable(k, Output) && Usable(k, CacheRead) && Usable(k, Write5m) && Usable(k, Write1h) && Usable(k, Write30m) && Usable(k, Reasoning) ==> AllUsable(k);
  }

  /** A count that billing takes: known, or not applicable. */
  predicate Countable(c: TokenCount) {
    (c.state.Known? && c.value >= 0) || (c.state.NotApplicable? && c.value == 0)
  }

  function Count(c: TokenCount): int {
    if c.state.Known? then c.value else 0
  }

  /** Usage can be billed exactly if every count is known or not applicable, reasoning is within a known output and the items are valid. */
  lemma BillableUsage(f: Facts)
    ensures NormalizeUsage(f).Ok? <==>
      && (forall c: Component :: Countable(f.counts.Of(c)))
      && (f.counts.reasoning.state.Known? && f.counts.output.state.Known? ==> f.counts.reasoning.value <= f.counts.output.value)
      && ItemsOk(f.items)
    ensures NormalizeUsage(f).Ok? ==> forall c: Component :: NormalizeUsage(f).value.Of(c) == Count(f.counts.Of(c))
  {
    assert forall c: Component :: CountOk(f.counts.Of(c)) && Billable(f.counts.Of(c)).Some? <==> Countable(f.counts.Of(c));
    if NormalizeUsage(f).Ok? {
      forall c: Component ensures Countable(f.counts.Of(c)) { assert CountOk(f.counts.Of(c)) && Billable(f.counts.Of(c)).Some?; }
      forall c: Component ensures NormalizeUsage(f).value.Of(c) == Count(f.counts.Of(c)) {
        TokensAreNonNegative(f, c);
        assert Countable(f.counts.Of(c));
      }
    }
  }

  // ----- one component

  /** Another rate for one component moves its own part alone, and the exact total by what that part moves. */
  lemma OneRateMovesOnePart(r: Rates<real>, t: Rates<int>, c: Component, v: real)
    ensures var r' := With(r, c, v);
      && (forall d: Component :: d != c ==> Breakdown(r', t).Of(d) == Breakdown(r, t).Of(d))
      && ExactTotal(r', t) - ExactTotal(r, t) == Times(v - r.Of(c), Billed(t, c) as real) / 1000000.0
  {
    hide Times;
    var r' := With(r, c, v);
    assert forall d: Component :: r'.Of(d) == if d == c then v else r.Of(d);
    SameComponentsBut(r, r', c);
    PartIsRateTimesTokens(r, t, c);
    PartIsRateTimesTokens(r', t, c);
    Difference(v, r.Of(c), Billed(t, c) as real);
  }

  lemma Difference(x: real, y: real, n: real)
    ensures Times(x, n) - Times(y, n) == Times(x - y, n)
  {
    assert x * n - y * n == (x - y) * n;
  }

  lemma SameComponentsBut(r: Rates<real>, r': Rates<real>, c: Component)
    requires forall d: Component :: d != c ==> r'.Of(d) == r.Of(d)
    ensures c != Uncached ==> r'.uncached == r.uncached
    ensures c != CacheRead ==> r'.cacheRead == r.cacheRead
    ensures c != Write5m ==> r'.write5m == r.write5m
    ensures c != Write1h ==> r'.write1h == r.write1h
    ensures c != Write30m ==> r'.write30m == r.write30m
    ensures c != Output ==> r'.output == r.output
    ensures c != Reasoning ==> r'.reasoning == r.reasoning
  {
    assert c != Uncached ==> r'.Of(Uncached) == r.Of(Uncached);
    assert c != CacheRead ==> r'.Of(CacheRead) == r.Of(CacheRead);
    assert c != Write5m ==> r'.Of(Write5m) == r.Of(Write5m);
    assert c != Write1h ==> r'.Of(Write1h) == r.Of(Write1h);
    assert c != Write30m ==> r'.Of(Write30m) == r.Of(Write30m);
    assert c != Output ==> r'.Of(Output) == r.Of(Output);
    assert c != Reasoning ==> r'.Of(Reasoning) == r.Of(Reasoning);
  }

  // ----- whole requests

  /** The exact price of a request, in units of a currency per million, from rates and tokens alone. */
  function PerMillion(r: Rates<real>, t: Rates<int>): real {
    Times(r.uncached, t.uncached as real) + Times(r.cacheRead, t.cacheRead as real) + Times(r.write5m, t.write5m as real) +
    Times(r.write1h, t.write1h as real) + Times(r.write30m, t.write30m as real) + Times(r.output, (t.output - t.reasoning) as real) +
    Times(r.reasoning, t.reasoning as real)
  }

  lemma TotalIsPerMillion(r: Rates<real>, t: Rates<int>)
    ensures ExactTotal(r, t) == PerMillion(r, t) / 1000000.0
  {
    hide Times;
  }

  /** The customer pays every component's tokens at its own rate, rounded once. */
  lemma ChargeIsSumOfParts(f: Facts, price: Snapshot)
    ensures CustomerCharge(f, price).Ok? <==> NormalizeUsage(f).Ok? && Normalize(price).Ok?
    ensures CustomerCharge(f, price).Ok? ==>
      CustomerCharge(f, price).value == RoundHalfUp(PerMillion(Normalize(price).value, NormalizeUsage(f).value) / 1000000.0 * SCALE)
  {
    if CustomerCharge(f, price).Ok? { TotalIsPerMillion(Normalize(price).value, NormalizeUsage(f).value); }
  }

  /** The usage has tokens of one component and of no other; reasoning tokens are output tokens too. */
  predicate OnlyOf(t: Rates<int>, c: Component, n: int) {
    forall d: Component :: Billed(t, d) == if d == c then n else 0
  }

  /** A request with tokens of one component costs its own rate for them and nothing else, the customer and the provider alike. */
  lemma OneComponentCharge(f: Facts, price: Snapshot, c: Component, n: int)
    requires NormalizeUsage(f).Ok? && Normalize(price).Ok? && OnlyOf(NormalizeUsage(f).value, c, n)
    ensures CustomerCharge(f, price) == Ok(RoundHalfUp(Times(Normalize(price).value.Of(c), n as real) / 1000000.0 * SCALE))
    ensures var parts := Rounded7(Breakdown(Normalize(price).value, NormalizeUsage(f).value));
      && parts.Of(c) == Total7Units(parts) == CustomerCharge(f, price).value
      && forall d: Component :: d != c ==> parts.Of(d) == 0
  {
    hide Times, Normalize, NormalizeUsage, RoundHalfUp;
    var r, t := Normalize(price).value, NormalizeUsage(f).value;
    var a := Breakdown(r, t);
    forall d: Component ensures d != c ==> a.Of(d) == 0.0 {
      PartIsRateTimesTokens(r, t, d);
      assert Billed(t, d) == if d == c then n else 0;
    }
    PartIsRateTimesTokens(r, t, c);
    assert Billed(t, c) == n;
    OnePart(a, c);
  }

  lemma OnePart(a: Rates<real>, c: Component)
    requires forall d: Component :: d != c ==> a.Of(d) == 0.0
    ensures Total7(a) == a.Of(c)
    ensures Rounded7(a).Of(c) == Units(a.Of(c)) == Total7Units(Rounded7(a))
    ensures forall d: Component :: d != c ==> Rounded7(a).Of(d) == 0
  {
    var zero := Rates(0.0, 0.0, 0.0, 0.0, 0.0, 0.0, 0.0);
    assert forall d: Component :: d != c ==> a.Of(d) == zero.Of(d);
    SameComponentsBut(zero, a, c);
    assert Units(0.0) == 0;
  }

  // ----- the estimate

  /** The dearest rate of the input classes and the dearer one of output and reasoning. */
  predicate AreDearest(r: Rates<real>, i: Component, o: Component) {
    && i !in {Output, Reasoning} && o in {Output, Reasoning}
    && (forall c: Component :: c !in {Output, Reasoning} ==> r.Of(c) <= r.Of(i)) && r.output <= r.Of(o) && r.reasoning <= r.Of(o)
  }

  /** An estimate can be priced exactly if its counts are not negative and the price is valid; it is the dearest input and output rate on them. */
  lemma EstimateIs(e: Estimate, price: Snapshot) returns (i: Component, o: Component)
    ensures AuthorizationAmount(e, price).Ok? <==> e.inputTokens >= 0 && e.maxCompletionTokens >= 0 && Normalize(price).Ok?
    ensures AuthorizationAmount(e, price).Ok? ==>
      var r := Normalize(price).value;
      && AreDearest(r, i, o)
      && AuthorizationAmount(e, price).value ==
         RoundHalfUp((Times(r.Of(i), e.inputTokens as real) + Times(r.Of(o), e.maxCompletionTokens as real)) / 1000000.0 * SCALE)
  {
    hide Times, Normalize, RoundHalfUp;
    i, o := Uncached, Output;
    if AuthorizationAmount(e, price).Ok? { i, o := Dearest(Normalize(price).value); }
  }

  lemma Dearest(r: Rates<real>) returns (i: Component, o: Component)
    ensures AreDearest(r, i, o) && r.Of(i) == MaxInputRate(r) && r.Of(o) == MaxOutputRate(r)
  {
    var m := MaxInputRate(r);
    i := if r.uncached == m then Uncached else if r.cacheRead == m then CacheRead else if r.write5m == m then Write5m
         else if r.write1h == m then Write1h else Write30m;
    o := if r.output == MaxOutputRate(r) then Output else Reasoning;
  }

  function Known(n: int): TokenCount {
    TokenCount(n, CountState.Known)
  }

  /** All input tokens in one class, and the output with or without reasoning. */
  function UsageOf(i: Component, o: Component, e: Estimate): Facts {
    var none := Rates(Known(0), Known(0), Known(0), Known(0), Known(0), Known(e.maxCompletionTokens), Known(if o.Reasoning? then e.maxCompletionTokens else 0));
    Facts(With(none, i, Known(e.inputTokens)), [])
  }

  /** The estimate is not too high either: some usage within it is charged exactly that much. */
  lemma EstimateIsReached(e: Estimate, price: Snapshot) returns (f: Facts)
    requires AuthorizationAmount(e, price).Ok?
    ensures NormalizeUsage(f).Ok? && Within(NormalizeUsage(f).value, e) && CustomerCharge(f, price) == AuthorizationAmount(e, price)
  {
    hide Times, Normalize, NormalizeUsage, ExactEstimate, PerMillion, Within, UsageOf;
    var r := Normalize(price).value;
    var i, o := Dearest(r);
    f := UsageOf(i, o, e);
    UsageIsBillable(i, o, e);
    TotalIsPerMillion(r, NormalizeUsage(f).value);
    DearestUsage(r, i, o, e);
  }

  lemma UsageIsBillable(i: Component, o: Component, e: Estimate)
    requires i !in {Output, Reasoning} && o in {Output, Reasoning} && e.inputTokens >= 0 && e.maxCompletionTokens >= 0
    ensures var f := UsageOf(i, o, e);
      && NormalizeUsage(f).Ok? && Within(NormalizeUsage(f).value, e)
      && NormalizeUsage(f).value == With(Rates(0, 0, 0, 0, 0, e.maxCompletionTokens, if o.Reasoning? then e.maxCompletionTokens else 0), i, e.inputTokens)
  {
    var f := UsageOf(i, o, e);
    BillableUsage(f);
    assert forall c: Component :: Countable(f.counts.Of(c));
    var t := With(Rates(0, 0, 0, 0, 0, e.maxCompletionTokens, if o.Reasoning? then e.maxCompletionTokens else 0), i, e.inputTokens);
    forall c: Component ensures NormalizeUsage(f).value.Of(c) == t.Of(c) { assert NormalizeUsage(f).value.Of(c) == Count(f.counts.Of(c)); }
    SameComponents(NormalizeUsage(f).value, t);
  }

  lemma DearestUsage(r: Rates<real>, i: Component, o: Component, e: Estimate)
    requires i !in {Output, Reasoning} && o in {Output, Reasoning}
    requires r.Of(i) == MaxInputRate(r) && r.Of(o) == MaxOutputRate(r)
    ensures var t := With(Rates(0, 0, 0, 0, 0, e.maxCompletionTokens, if o.Reasoning? then e.maxCompletionTokens else 0), i, e.inputTokens);
      PerMillion(r, t) / 1000000.0 == ExactEstimate(e, r)
  {
    hide Times;
    forall x ensures Times(x, 0.0) == 0.0 { NothingTimes(x); }
    match i
    case Uncached =>
    case CacheRead =>
    case Write5m =>
    case Write1h =>
    case Write30m =>
    case _ =>
  }
}
