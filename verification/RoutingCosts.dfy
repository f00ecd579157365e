/** What a row is sold at and what it costs, column by column, and which rows become candidates. */
module RoutingCosts {
  import opened Common
  import opened Money
  import opened Pricing
  import opened Margin
  import opened Routing

  /** A column after scaling: NULL stays NULL, a value is multiplied and rounded once to ten decimals. */
  predicate ScaledColumn(before: Numeric, factor: real, after: Numeric) {
    if before.Null? then after.Null? else before.Finite? && after == Finite(Rounded(Times(before.value, factor)))
  }

  /** All seven columns, each from its own. */
  predicate ScaledColumns(before: Rates<Numeric>, factor: real, after: Rates<Numeric>) {
    && ScaledColumn(before.uncached, factor, after.uncached) && ScaledColumn(before.cacheRead, factor, after.cacheRead)
    && ScaledColumn(before.write5m, factor, after.write5m) && ScaledColumn(before.write1h, factor, after.write1h)
    && ScaledColumn(before.write30m, factor, after.write30m) && ScaledColumn(before.output, factor, after.output)
    && ScaledColumn(before.reasoning, factor, after.reasoning)
  }

  /** No column holds NaN or an infinity. */
  predicate AllFinite(rates: Rates<Numeric>) {
    && !rates.uncached.NotFinite? && !rates.cacheRead.NotFinite? && !rates.write5m.NotFinite? && !rates.write1h.NotFinite?
    && !rates.write30m.NotFinite? && !rates.output.NotFinite? && !rates.reasoning.NotFinite?
  }

  lemma ScalableIs(rates: Rates<Numeric>)
    ensures Scalable(rates) <==> AllFinite(rates)
  {
    if Scalable(rates) {
      assert !rates.Of(Uncached).NotFinite? && !rates.Of(CacheRead).NotFinite? && !rates.Of(Write5m).NotFinite?;
      assert !rates.Of(Write1h).NotFinite? && !rates.Of(Write30m).NotFinite? && !rates.Of(Output).NotFinite? && !rates.Of(Reasoning).NotFinite?;
    }
  }

  lemma ScaledIsByColumn(s: Snapshot, factor: real)
    requires AllFinite(s.rates)
    ensures Scaled(s, factor).currency == s.currency && Scaled(s, factor).unit == s.unit && Scaled(s, factor).formula == s.formula
    ensures ScaledColumns(s.rates, factor, Scaled(s, factor).rates)
  {}

  /** What the recharge column stands for. */
  function Recharge(row: Row): Numeric {
    if row.recharge.Null? then Finite(1.0) else row.recharge
  }

  predicate Factor(x: Numeric) {
    x.Finite? && x.value >= 0.0
  }

  /** A missing recharge factor is a factor of one. */
  lemma MissingRechargeIsOne(row: Row)
    ensures CostOf(row.(recharge := Null)) == CostOf(row.(recharge := Finite(1.0)))
  {}

  /** An absolute channel price is the cost as it stands, whatever the factors are, and pins nothing. */
  lemma AbsoluteCost(row: Row)
    requires row.channelPrice != 0
    ensures CostOf(row) == Some((Snapshot(row.override.currency, row.override.unit, "token_v1", row.override.rates), Pins(0, 0, 0)))
  {}

  /**
   Without one the cost is the base price, every column multiplied by multiplier times
   recharge factor and rounded once, with the rows it came from; there is none exactly if a
   factor is missing, negative or not finite, or a base column is not finite.
   */
  lemma ScaledCost(row: Row)
    requires row.channelPrice == 0
    ensures CostOf(row).Some? <==> Factor(row.multiplier) && Factor(Recharge(row)) && AllFinite(row.base.rates)
    ensures CostOf(row).Some? ==>
      var (cost, pins) := CostOf(row).value;
      && cost.currency == row.base.currency && cost.unit == row.base.unit && cost.formula == "token_v1"
      && ScaledColumns(row.base.rates, Times(row.multiplier.value, Recharge(row).value), cost.rates)
      && pins == Pins(row.modelPrice, row.multiplierID, row.rechargeID)
  {
    hide Times, Rounded;
    ScalableIs(row.base.rates);
    if CostOf(row).Some? { ScaledIsByColumn(BasePrice(row), Times(row.multiplier.value, Recharge(row).value)); }
  }

  /** What a row is sold at: the base price, every column multiplied by the route's ratio and rounded once. */
  lemma SaleIsScaledBase(row: Row, ratio: Numeric, c: Candidate)
    requires IsCandidate(row, ratio, c)
    ensures Factor(ratio) && c.sale.currency == row.base.currency && c.sale.unit == row.base.unit && c.sale.formula == "token_v1"
    ensures ScaledColumns(row.base.rates, ratio.value, c.sale.rates)
    ensures c.channel == row.channel && c.model == row.model && CostOf(row) == Some((c.cost, c.pins))
  {
    hide Times, Rounded, CostOf, IsMaximum, Guarded;
    ScalableIs(row.base.rates);
    ScaledIsByColumn(BasePrice(row), ratio.value);
  }

  /** The sale and the cost a row would have. */
  predicate Offers(row: Row, ratio: Numeric, sale: Snapshot, cost: Snapshot) {
    && Factor(ratio) && AllFinite(row.base.rates)
    && sale == Snapshot(row.base.currency, row.base.unit, "token_v1", sale.rates) && ScaledColumns(row.base.rates, ratio.value, sale.rates)
    && CostOf(row).Some? && cost == CostOf(row).value.0
  }

  /**
   A row becomes a candidate exactly if it has a credential, a sale price and a cost, both
   valid and in one currency and unit, and no rate of the cost exceeds the sale rate of its
   component.  With everything but that, it counts as excluded by the margin guard.
   */
  lemma BuildableIff(row: Row, ratio: Numeric, sale: Snapshot, cost: Snapshot)
    requires Offers(row, ratio, sale, cost)
    ensures Buildable(row, ratio) <==>
      && Trim(row.credential) != "" && sale.currency == cost.currency && sale.unit == cost.unit
      && Normalize(sale).Ok? && Normalize(cost).Ok? && forall c: Component :: Normalize(cost).value.Of(c) <= Normalize(sale).value.Of(c)
    ensures MarginExcluded(row, ratio) <==> Trim(row.credential) != "" && !Buildable(row, ratio)
  {
    hide Times, Rounded, CostOf, Normalize, Violations;
    ScalableIs(row.base.rates);
    ScaledIsByColumn(BasePrice(row), ratio.value);
    OneScaling(row.base.rates, ratio.value, sale.rates, Scaled(BasePrice(row), ratio.value).rates);
    if Pairs(sale, cost).Ok? {
      NoViolationsIffCovered(Pairs(sale, cost).value);
      CoveredIsBelow(sale, cost);
    }
  }

  lemma OneScaling(before: Rates<Numeric>, factor: real, a: Rates<Numeric>, b: Rates<Numeric>)
    requires ScaledColumns(before, factor, a) && ScaledColumns(before, factor, b)
    ensures a == b
  {}

  /** Without an offer no row becomes a candidate, and none counts as excluded by the guard. */
  lemma NotBuildableWithoutOffer(row: Row, ratio: Numeric)
    requires !(Factor(ratio) && AllFinite(row.base.rates) && CostOf(row).Some?)
    ensures !Buildable(row, ratio) && !MarginExcluded(row, ratio)
  {
    hide CostOf;
    ScalableIs(row.base.rates);
  }

  /** Trimming takes white space off both ends and nothing else. */
  lemma {:induction false} TrimIs(s: string)
    ensures exists i: nat, j: nat :: i <= j <= |s| && Trim(s) == s[i..j] && (forall k :: 0 <= k < i || j <= k < |s| ==> Space(s[k]))
    ensures Trim(s) != "" ==> !Space(Trim(s)[0]) && !Space(Trim(s)[|Trim(s)| - 1])
  {
    var i := LeftEnd(s);
    var j := RightEnd(s[i..]);
    assert s[i..][..j] == s[i..i + j];
    forall k | 0 <= k < i || i + j <= k < |s| ensures Space(s[k]) {
      if k >= i + j { assert s[k] == s[i..][k - i]; }
    }
  }

  lemma {:induction false} LeftEnd(s: string) returns (i: nat)
    ensures i <= |s| && TrimLeft(s) == s[i..] && (forall k :: 0 <= k < i ==> Space(s[k])) && (i < |s| ==> !Space(s[i]))
  {
    if s != "" && Space(s[0]) {
      var n := LeftEnd(s[1..]);
      i := n + 1;
      assert s[1..][n..] == s[n + 1..];
      forall k | 0 <= k < i ensures Space(s[k]) { if k > 0 { assert s[k] == s[1..][k - 1]; } }
    } else {
      i := 0;
    }
  }

  lemma {:induction false} RightEnd(s: string) returns (j: nat)
    ensures j <= |s| && TrimRight(s) == s[..j] && (forall k :: j <= k < |s| ==> Space(s[k])) && (j > 0 ==> !Space(s[j - 1]))
  {
    if s != "" && Space(s[|s| - 1]) {
      j := RightEnd(s[..|s| - 1]);
      assert s[..|s| - 1][..j] == s[..j];
      forall k | j <= k < |s| ensures Space(s[k]) { if k < |s| - 1 { assert s[k] == s[..|s| - 1][k]; } }
    } else {
      j := |s|;
    }
  }
}
