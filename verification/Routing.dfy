/** The route plan: which rows become candidates, in which order, and what that says about their margin. */
module Routing {
  import opened Common
  import opened Money
  import opened Pricing
  import opened Usage
  import opened Charging
  import opened Margin

  /** The price columns of a row; the formula is not among them. */
  datatype Columns = Columns(currency: string, unit: string, rates: Rates<Numeric>)

  /** A candidate row of the store, as far as building a candidate depends on it. */
  datatype Row = Row(
    channel: int, model: int, modelPrice: int, credential: string, base: Columns,
    channelPrice: int, override: Columns, multiplier: Numeric, multiplierID: int, recharge: Numeric, rechargeID: int)

  function BasePrice(row: Row): Snapshot {
    Snapshot(row.base.currency, row.base.unit, "token_v1", row.base.rates)
  }

  function OverrideCost(row: Row): Snapshot {
    Snapshot(row.override.currency, row.override.unit, "token_v1", row.override.rates)
  }

  /** Where the cost of a candidate comes from. */
  datatype Pins = Pins(modelPrice: int, multiplier: int, recharge: int)

  datatype Candidate = Candidate(channel: int, model: int, apiKey: string, sale: Snapshot, cost: Snapshot, pins: Pins, ratio: real)

  /** Unicode white space. */
  predicate Space(c: char) {
    var n := c as int;
    9 <= n <= 13 || n in {0x20, 0x85, 0xA0, 0x1680, 0x2028, 0x2029, 0x202F, 0x205F, 0x3000} || 0x2000 <= n <= 0x200A
  }

  function TrimLeft(s: string): string {
    if s != "" && Space(s[0]) then TrimLeft(s[1..]) else s
  }

  function TrimRight(s: string): string {
    if s != "" && Space(s[|s| - 1]) then TrimRight(s[..|s| - 1]) else s
  }

  function Trim(s: string): string {
    TrimRight(TrimLeft(s))
  }

  // ----- scaling, as a value

  function ScaleOr(rate: Numeric, factor: real): Numeric {
    if ScaleRate(rate, factor).Some? then ScaleRate(rate, factor).value else NotFinite
  }

  function Scaled(s: Snapshot, factor: real): Snapshot {
    var r := s.rates;
    s.(rates := Rates(ScaleOr(r.uncached, factor), ScaleOr(r.cacheRead, factor), ScaleOr(r.write5m, factor), ScaleOr(r.write1h, factor),
                      ScaleOr(r.write30m, factor), ScaleOr(r.output, factor), ScaleOr(r.reasoning, factor)))
  }

  lemma ScaledIs(s: Snapshot, factor: real, scaled: Snapshot)
    requires Scalable(s.rates)
    ensures scaled == s.(rates := scaled.rates) && ScaledFrom(s.rates, Factors(factor, factor), scaled.rates) <==> scaled == Scaled(s, factor)
  {
    forall c: Component ensures Some(Scaled(s, factor).rates.Of(c)) == ScaleRate(s.rates.Of(c), factor) { assert !s.rates.Of(c).NotFinite?; }
    assert forall c: Component :: Factors(factor, factor).Of(c) == factor;
    if ScaledFrom(s.rates, Factors(factor, factor), scaled.rates) {
      forall c: Component ensures scaled.rates.Of(c) == Scaled(s, factor).rates.Of(c) {
        assert Some(scaled.rates.Of(c)) == ScaleRate(s.rates.Of(c), Factors(factor, factor).Of(c));
      }
      SameComponents(scaled.rates, Scaled(s, factor).rates);
    }
  }

  // ----- one candidate

  /** A missing recharge factor is one. */
  function RechargeOrOne(r: Numeric): Numeric {
    if r.Null? then Finite(1.0) else r
  }

  function CostFactor(row: Row): real {
    if row.multiplier.Finite? && RechargeOrOne(row.recharge).Finite? then Times(row.multiplier.value, RechargeOrOne(row.recharge).value) else 0.0
  }

  /** An absolute price of the channel comes first; otherwise the base price of the model, scaled. */
  function CostOf(row: Row): Option<(Snapshot, Pins)> {
    if row.channelPrice != 0 then Some((OverrideCost(row), Pins(0, 0, 0)))
    else if ValidRatio(row.multiplier) && ValidRatio(RechargeOrOne(row.recharge)) && Scalable(BasePrice(row).rates)
    then Some((Scaled(BasePrice(row), CostFactor(row)), Pins(row.modelPrice, row.multiplierID, row.rechargeID)))
    else None
  }

  predicate Guarded(sale: Snapshot, cost: Snapshot) {
    Pairs(sale, cost).Ok? && Violations(Pairs(sale, cost).value) == []
  }

  /** A row has a credential, a sale price and a cost. */
  predicate Priced(row: Row, ratio: Numeric) {
    Trim(row.credential) != "" && ValidRatio(ratio) && Scalable(BasePrice(row).rates) && CostOf(row).Some?
  }

  /** A row is turned down by the margin guard. */
  predicate MarginExcluded(row: Row, ratio: Numeric) {
    Priced(row, ratio) && !Guarded(Scaled(BasePrice(row), ratio.value), CostOf(row).value.0)
  }

  /** A row becomes a candidate. */
  predicate Buildable(row: Row, ratio: Numeric) {
    Priced(row, ratio) && Guarded(Scaled(BasePrice(row), ratio.value), CostOf(row).value.0)
  }

  /** The candidate of a row. */
  predicate IsCandidate(row: Row, ratio: Numeric, c: Candidate) {
    && Buildable(row, ratio)
    && c == Candidate(row.channel, row.model, Trim(row.credential), Scaled(BasePrice(row), ratio.value), CostOf(row).value.0, CostOf(row).value.1, c.ratio)
    && IsMaximum(Pairs(c.sale, c.cost).value, c.ratio)
  }

  datatype Failure = NoCredential | InvalidPrice | NegativeMargin

  datatype Built = Built(candidate: Candidate) | Excluded(reason: Failure)

  method ResolveCost(row: Row) returns (cost: Option<(Snapshot, Pins)>)
    ensures cost == CostOf(row)
  {
    if row.channelPrice != 0 { return Some((OverrideCost(row), Pins(0, 0, 0))); }
    var recharge := RechargeOrOne(row.recharge);
    var scaled := ScaleProviderCostByFactors(BasePrice(row), row.multiplier, recharge);
    if scaled.Err? { return None; }
    ScaledIs(BasePrice(row), CostFactor(row), scaled.value);
    cost := Some((scaled.value, Pins(row.modelPrice, row.multiplierID, row.rechargeID)));
  }

  method BuildCandidate(row: Row, ratio: Numeric) returns (b: Built)
    ensures b.Built? <==> Buildable(row, ratio)
    ensures b.Built? ==> IsCandidate(row, ratio, b.candidate)
    ensures b == Excluded(NegativeMargin) <==> MarginExcluded(row, ratio)
    ensures b == Excluded(NoCredential) <==> Trim(row.credential) == ""
  {
    hide Scaled, CostOf, Violations, IsMaximum, Pairs;
    var apiKey := Trim(row.credential);
    if apiKey == "" { return Excluded(NoCredential); }
    var sale := ScaleCustomerPrice(BasePrice(row), ratio);
    if sale.Err? { return Excluded(InvalidPrice); }
    ScaledIs(BasePrice(row), ratio.value, sale.value);
    var cost := ResolveCost(row);
    if cost.None? { return Excluded(InvalidPrice); }
    var violations := ValidateMargin(sale.value, cost.value.0);
    if violations.Err? || violations.value != [] { return Excluded(NegativeMargin); }
    GuardedIsRatable(sale.value, cost.value.0);
    var maximum := CostToSaleRatio(sale.value, cost.value.0);
    if maximum.Err? { return Excluded(NegativeMargin); }
    b := Built(Candidate(row.channel, row.model, apiKey, sale.value, cost.value.0, cost.value.1, maximum.value));
  }

  /** The guard lets nothing through that the ratio would then refuse. */
  lemma GuardedIsRatable(sale: Snapshot, cost: Snapshot)
    requires Guarded(sale, cost)
    ensures Ratable(Pairs(sale, cost).value)
  {
    PairsAreNonNegative(sale, cost);
    RatioAtMostOneIffNoViolation(Pairs(sale, cost).value);
  }

  // ----- the plan

  /** The candidates of the rows that can be built, in row order. */
  ghost predicate IsPlan(rows: seq<Row>, ratio: Numeric, plan: seq<Candidate>)
    decreases |rows|
  {
    if rows == [] then plan == []
    else
      var front, last := rows[..|rows| - 1], rows[|rows| - 1];
      if Buildable(last, ratio)
      then plan != [] && IsCandidate(last, ratio, plan[|plan| - 1]) && IsPlan(front, ratio, plan[..|plan| - 1])
      else IsPlan(front, ratio, plan)
  }

  datatype Plan = Plan(candidates: seq<Candidate>) | NoAvailableChannel(marginFiltered: bool)

  /** A fixed route has exactly one channel; a row that cannot be built is skipped, not fatal. */
  method PlanChat(rows: seq<Row>, ratio: Numeric, fixed: bool, poolSize: int) returns (plan: Plan)
    ensures plan.Plan? <==> (fixed ==> poolSize == 1) && exists i :: 0 <= i < |rows| && Buildable(rows[i], ratio)
    ensures plan.Plan? ==> IsPlan(rows, ratio, plan.candidates)
    ensures plan.NoAvailableChannel? && (fixed ==> poolSize == 1) ==>
              (plan.marginFiltered <==> exists i :: 0 <= i < |rows| && MarginExcluded(rows[i], ratio))
  {
    hide Buildable, IsCandidate, MarginExcluded;
    if fixed && poolSize != 1 { return NoAvailableChannel(false); }
    var candidates: seq<Candidate> := [];
    var marginFiltered := false;
    for i := 0 to |rows|
      invariant IsPlan(rows[..i], ratio, candidates)
      invariant marginFiltered <==> exists j :: 0 <= j < i && MarginExcluded(rows[j], ratio)
      invariant candidates != [] <==> exists j :: 0 <= j < i && Buildable(rows[j], ratio)
    {
      assert rows[..i + 1][..i] == rows[..i];
      var built := BuildCandidate(rows[i], ratio);
      if built.Excluded? {
        if built.reason.NegativeMargin? { marginFiltered := true; }
      } else {
        assert (candidates + [built.candidate])[..|candidates|] == candidates;
        candidates := candidates + [built.candidate];
      }
    }
    assert rows[..|rows|] == rows;
    plan := if candidates == [] then NoAvailableChannel(marginFiltered) else Plan(candidates);
  }

  /** The `n`-th candidate of a plan is the candidate of the row it comes from. */
  lemma {:induction false} PlannedFromRow(rows: seq<Row>, ratio: Numeric, plan: seq<Candidate>, n: nat) returns (i: nat)
    requires IsPlan(rows, ratio, plan) && n < |plan|
    ensures i < |rows| && IsCandidate(rows[i], ratio, plan[n])
    decreases |rows|
  {
    hide IsCandidate, Buildable;
    var front, last := rows[..|rows| - 1], rows[|rows| - 1];
    if Buildable(last, ratio) {
      if n == |plan| - 1 { i := |rows| - 1; } else { i := PlannedFromRow(front, ratio, plan[..|plan| - 1], n); }
    } else {
      i := PlannedFromRow(front, ratio, plan, n);
    }
  }

  /** No candidate of a plan sells any component below cost, and its ratio is at most one. */
  lemma PlannedIsGuarded(rows: seq<Row>, ratio: Numeric, plan: seq<Candidate>, n: nat)
    requires IsPlan(rows, ratio, plan) && n < |plan|
    ensures Guarded(plan[n].sale, plan[n].cost) && IsMaximum(Pairs(plan[n].sale, plan[n].cost).value, plan[n].ratio) && 0.0 <= plan[n].ratio <= 1.0
    ensures Below(Normalize(plan[n].cost).value, Normalize(plan[n].sale).value)
  {
    var i := PlannedFromRow(rows, ratio, plan, n);
    CandidateIsGuarded(rows[i], ratio, plan[n]);
  }

  lemma CandidateIsGuarded(row: Row, ratio: Numeric, c: Candidate)
    requires IsCandidate(row, ratio, c)
    ensures Guarded(c.sale, c.cost) && IsMaximum(Pairs(c.sale, c.cost).value, c.ratio) && 0.0 <= c.ratio <= 1.0
    ensures Below(Normalize(c.cost).value, Normalize(c.sale).value)
  {
    PairsAreNonNegative(c.sale, c.cost);
    RatioAtMostOneIffNoViolation(Pairs(c.sale, c.cost).value);
    NoViolationsIffCovered(Pairs(c.sale, c.cost).value);
    CoveredIsBelow(c.sale, c.cost);
  }

  /**
   From the plan to the bill: whichever candidate serves the request, whatever it then uses
   and at whatever input total it is settled, the customer's charge is at least the recorded cost less three units.
   */
  lemma PlannedCandidateNeverLoses(rows: seq<Row>, ratio: Numeric, plan: seq<Candidate>, n: nat, f: Facts, total: int, policy: Policy, sale: Snapshot, cost: Snapshot)
    requires IsPlan(rows, ratio, plan) && n < |plan|
    requires NormalizeUsage(f).Ok? && NormalizeUsage(f).value.reasoning <= NormalizeUsage(f).value.output
    requires PricedAt(plan[n].sale, policy, total, sale) && PricedAt(plan[n].cost, policy, total, cost)
    ensures CustomerCharge(f, sale).Ok? && Normalize(cost).Ok?
    ensures CustomerCharge(f, sale).value >= Total7Units(Rounded7(Breakdown(Normalize(cost).value, NormalizeUsage(f).value))) - 3
  {
    PlannedIsGuarded(rows, ratio, plan, n);
    GuardedCandidateNeverLoses(plan[n].sale, plan[n].cost, f, total, policy, sale, cost);
  }
}
