/** The margin guard and the cost-to-sale ratio, over the seven normalized rates of a sale and a cost. */
module Margin {
  import opened Money
  import opened Pricing
  import opened Usage
  import opened Charging

  datatype Pair = Pair(component: Component, sale: real, cost: real)

  /** The seven pairs, or why there are none. */
  function Pairs(sale: Snapshot, cost: Snapshot): Result<seq<Pair>> {
    if sale.currency != cost.currency || sale.unit != cost.unit then Err(Mismatch)
    else if Normalize(sale).Err? then Err(Normalize(sale).error)
    else if Normalize(cost).Err? then Err(Normalize(cost).error)
    else Ok(seq(|COMPONENTS|, i requires 0 <= i < |COMPONENTS| =>
      Pair(COMPONENTS[i], Normalize(sale).value.Of(COMPONENTS[i]), Normalize(cost).value.Of(COMPONENTS[i]))))
  }

  /** Every sale rate covers the cost rate of its component. */
  predicate Covered(pairs: seq<Pair>) {
    forall i :: 0 <= i < |pairs| ==> pairs[i].cost <= pairs[i].sale
  }

  lemma CoveredIsBelow(sale: Snapshot, cost: Snapshot)
    requires Pairs(sale, cost).Ok?
    ensures Covered(Pairs(sale, cost).value) <==> Below(Normalize(cost).value, Normalize(sale).value)
  {
    var pairs := Pairs(sale, cost).value;
    if Covered(pairs) {
      forall c: Component ensures Normalize(cost).value.Of(c) <= Normalize(sale).value.Of(c) {
        var j := AllComponents(|COMPONENTS|, c);
        assert pairs[j].component == c;
      }
    } else {
      var i :| 0 <= i < |pairs| && !(pairs[i].cost <= pairs[i].sale);
      assert !(Normalize(cost).value.Of(COMPONENTS[i]) <= Normalize(sale).value.Of(COMPONENTS[i]));
    }
  }

  /** The components sold below cost, in order. */
  function Violations(pairs: seq<Pair>): seq<Component> {
    if pairs == [] then []
    else
      var last := pairs[|pairs| - 1];
      Violations(pairs[..|pairs| - 1]) + if last.sale < last.cost then [last.component] else []
  }

  lemma {:induction false} NoViolationsIffCovered(pairs: seq<Pair>)
    ensures Violations(pairs) == [] <==> Covered(pairs)
  {
    if pairs != [] {
      var front := pairs[..|pairs| - 1];
      NoViolationsIffCovered(front);
      if Covered(front) && pairs[|pairs| - 1].cost <= pairs[|pairs| - 1].sale {
        forall i | 0 <= i < |pairs| ensures pairs[i].cost <= pairs[i].sale { if i < |front| { assert front[i] == pairs[i]; } }
      }
      if Covered(pairs) { forall i | 0 <= i < |front| ensures front[i].cost <= front[i].sale { assert front[i] == pairs[i]; } }
    }
  }

  method ValidateMargin(sale: Snapshot, cost: Snapshot) returns (r: Result<seq<Component>>)
    ensures r.Ok? <==> Pairs(sale, cost).Ok?
    ensures r.Ok? ==> r.value == Violations(Pairs(sale, cost).value)
  {
    var pairs := Pairs(sale, cost);
    if pairs.Err? { return Err(pairs.error); }
    var violations: seq<Component> := [];
    for i := 0 to |pairs.value|
      invariant violations == Violations(pairs.value[..i])
    {
      assert pairs.value[..i + 1][..i] == pairs.value[..i];
      if pairs.value[i].sale < pairs.value[i].cost { violations := violations + [pairs.value[i].component]; }
    }
    assert pairs.value[..|pairs.value|] == pairs.value;
    r := Ok(violations);
  }

  // ----- the cost-to-sale ratio

  function Quotient(p: Pair): real
    requires p.sale > 0.0
  {
    p.cost / p.sale
  }

  /** Rates are not negative, and nothing costs money that is given away. */
  predicate Ratable(pairs: seq<Pair>) {
    forall i :: 0 <= i < |pairs| ==> !(pairs[i].sale == 0.0 && pairs[i].cost != 0.0)
  }

  predicate NonNegativePairs(pairs: seq<Pair>) {
    forall i :: 0 <= i < |pairs| ==> pairs[i].sale >= 0.0 && pairs[i].cost >= 0.0
  }

  /** The largest ratio of a component that is sold, or zero. */
  predicate IsMaximum(pairs: seq<Pair>, m: real) {
    && m >= 0.0
    && (forall i :: 0 <= i < |pairs| && pairs[i].sale > 0.0 ==> Quotient(pairs[i]) <= m)
    && (m == 0.0 || exists i :: 0 <= i < |pairs| && pairs[i].sale > 0.0 && Quotient(pairs[i]) == m)
  }

  /** The exact maximum, before it becomes a float; it stops at a component given away at a cost. */
  method CostToSaleRatio(sale: Snapshot, cost: Snapshot) returns (r: Result<real>)
    ensures r.Ok? <==> Pairs(sale, cost).Ok? && Ratable(Pairs(sale, cost).value)
    ensures r.Ok? ==> IsMaximum(Pairs(sale, cost).value, r.value)
  {
    var pairs := Pairs(sale, cost);
    if pairs.Err? { return Err(pairs.error); }
    PairsAreNonNegative(sale, cost);
    var maximum := 0.0;
    for i := 0 to |pairs.value|
      invariant Ratable(pairs.value[..i]) && IsMaximum(pairs.value[..i], maximum)
    {
      var p := pairs.value[i];
      assert pairs.value[..i + 1] == pairs.value[..i] + [p];
      if p.sale == 0.0 {
        if p.cost != 0.0 { return Err(InvalidRate); }
        MaximumSkips(pairs.value[..i], p, maximum);
      } else {
        var ratio := p.cost / p.sale;
        MaximumGrows(pairs.value[..i], p, maximum);
        if ratio > maximum { maximum := ratio; }
      }
    }
    assert pairs.value[..|pairs.value|] == pairs.value;
    r := Ok(maximum);
  }

  lemma MaximumSkips(front: seq<Pair>, p: Pair, m: real)
    requires IsMaximum(front, m) && p.sale == 0.0
    ensures IsMaximum(front + [p], m)
  {
    var all := front + [p];
    assert forall i :: 0 <= i < |front| ==> all[i] == front[i];
  }

  lemma MaximumGrows(front: seq<Pair>, p: Pair, m: real)
    requires IsMaximum(front, m) && p.sale > 0.0 && p.cost >= 0.0
    ensures IsMaximum(front + [p], if Quotient(p) > m then Quotient(p) else m)
  {
    var all := front + [p];
    assert forall i :: 0 <= i < |front| ==> all[i] == front[i];
    assert all[|front|] == p;
  }

  lemma PairsAreNonNegative(sale: Snapshot, cost: Snapshot)
    requires Pairs(sale, cost).Ok?
    ensures NonNegativePairs(Pairs(sale, cost).value)
  {
    forall c: Component ensures Normalize(sale).value.Of(c) >= 0.0 && Normalize(cost).value.Of(c) >= 0.0 {
      EffectiveOf(sale.rates, c);
      EffectiveOf(cost.rates, c);
    }
  }

  lemma QuotientAtMostOne(p: Pair)
    requires p.sale > 0.0
    ensures Quotient(p) <= 1.0 <==> p.cost <= p.sale
  {
    assert Quotient(p) * p.sale == p.cost;
    if Quotient(p) <= 1.0 { assert (1.0 - Quotient(p)) * p.sale >= 0.0; } else { assert (Quotient(p) - 1.0) * p.sale > 0.0; }
  }

  /** The exact maximum exists and is at most one if and only if no component is sold below cost. */
  lemma RatioAtMostOneIffNoViolation(pairs: seq<Pair>)
    requires NonNegativePairs(pairs)
    ensures Violations(pairs) == [] <==> Ratable(pairs) && forall m :: IsMaximum(pairs, m) ==> m <= 1.0
  {
    NoViolationsIffCovered(pairs);
    if Covered(pairs) {
      forall m | IsMaximum(pairs, m) ensures m <= 1.0 {
        if m != 0.0 {
          var i :| 0 <= i < |pairs| && pairs[i].sale > 0.0 && Quotient(pairs[i]) == m;
          QuotientAtMostOne(pairs[i]);
        }
      }
    } else if Ratable(pairs) {
      var i :| 0 <= i < |pairs| && !(pairs[i].cost <= pairs[i].sale);
      QuotientAtMostOne(pairs[i]);
      var m := MaximumExists(pairs);
      assert m >= Quotient(pairs[i]) > 1.0;
    }
  }

  lemma {:induction false} MaximumExists(pairs: seq<Pair>) returns (m: real)
    requires NonNegativePairs(pairs)
    ensures IsMaximum(pairs, m)
  {
    if pairs == [] {
      m := 0.0;
    } else {
      var front, p := pairs[..|pairs| - 1], pairs[|pairs| - 1];
      m := MaximumExists(front);
      assert pairs == front + [p];
      if p.sale > 0.0 {
        MaximumGrows(front, p, m);
        m := if Quotient(p) > m then Quotient(p) else m;
      } else {
        MaximumSkips(front, p, m);
      }
    }
  }

  // ----- the margin survives every later step

  /** One long-context policy, applied to sale and cost alike, never creates a violation. */
  lemma LongContextKeepsMargin(sale: Snapshot, cost: Snapshot, policy: Policy, inputTokens: int, sale': Snapshot, cost': Snapshot)
    requires Normalize(sale).Ok? && Normalize(cost).Ok? && Below(Normalize(cost).value, Normalize(sale).value)
    requires PricedAt(sale, policy, inputTokens, sale') && PricedAt(cost, policy, inputTokens, cost')
    ensures Normalize(sale').Ok? && Normalize(cost').Ok? && Below(Normalize(cost').value, Normalize(sale').value)
  {
    if policy.AppliesTo(inputTokens) {
      var f := Factors(policy.input.value, policy.output.value);
      ScalingCommutes(sale, f, sale');
      ScalingCommutes(cost, f, cost');
      forall c: Component ensures Normalize(cost').value.Of(c) <= Normalize(sale').value.Of(c) {
        assert Normalize(cost).value.Of(c) <= Normalize(sale).value.Of(c);
        TimesIsMonotone(Normalize(cost).value.Of(c), Normalize(sale).value.Of(c), f.Of(c));
        UnitsMonotone(Times(Normalize(cost).value.Of(c), f.Of(c)), Times(Normalize(sale).value.Of(c), f.Of(c)));
      }
    }
  }

  /** Sale and cost scaled from one base price keep the margin when the sale factor is not the smaller one. */
  lemma OneBaseKeepsMargin(base: Snapshot, saleFactor: real, costFactor: real, sale: Snapshot, cost: Snapshot)
    requires Normalize(base).Ok? && 0.0 <= costFactor <= saleFactor
    requires sale == base.(rates := sale.rates) && ScaledFrom(base.rates, Factors(saleFactor, saleFactor), sale.rates)
    requires cost == base.(rates := cost.rates) && ScaledFrom(base.rates, Factors(costFactor, costFactor), cost.rates)
    ensures Normalize(sale).Ok? && Normalize(cost).Ok? && Below(Normalize(cost).value, Normalize(sale).value)
  {
    ScalingCommutes(base, Factors(saleFactor, saleFactor), sale);
    ScalingCommutes(base, Factors(costFactor, costFactor), cost);
    forall c: Component ensures Normalize(cost).value.Of(c) <= Normalize(sale).value.Of(c) {
      EffectiveOf(base.rates, c);
      var rate := Normalize(base).value.Of(c);
      TimesIsMonotone(costFactor, saleFactor, rate);
      UnitsMonotone(Times(rate, costFactor), Times(rate, saleFactor));
    }
  }

  /**
   From the guard to the bill: if the guard reports no violation between a sale and a cost,
   then for any usage, settled at any input total, wrapped or not, under any policy, the
   customer pays at least the recorded cost less three units.
   */
  lemma GuardedCandidateNeverLoses(sale: Snapshot, cost: Snapshot, f: Facts, total: int, policy: Policy, sale': Snapshot, cost': Snapshot)
    requires Pairs(sale, cost).Ok? && Violations(Pairs(sale, cost).value) == []
    requires NormalizeUsage(f).Ok? && NormalizeUsage(f).value.reasoning <= NormalizeUsage(f).value.output
    requires PricedAt(sale, policy, total, sale') && PricedAt(cost, policy, total, cost')
    ensures CustomerCharge(f, sale').Ok? && Normalize(cost').Ok?
    ensures CustomerCharge(f, sale').value >= Total7Units(Rounded7(Breakdown(Normalize(cost').value, NormalizeUsage(f).value))) - 3
  {
    NoViolationsIffCovered(Pairs(sale, cost).value);
    CoveredIsBelow(sale, cost);
    LongContextKeepsMargin(sale, cost, policy, total, sale', cost');
    ChargeCoversCost(f, sale', cost');
  }

  // ----- what the guard reports

  /** Two snapshots can be compared exactly if both are valid and priced in one currency and unit; there is one pair per component, in order. */
  lemma PairsAre(sale: Snapshot, cost: Snapshot)
    ensures Pairs(sale, cost).Ok? <==> sale.currency == cost.currency && sale.unit == cost.unit && Normalize(sale).Ok? && Normalize(cost).Ok?
    ensures Pairs(sale, cost).Ok? ==>
      var pairs := Pairs(sale, cost).value;
      && |pairs| == 7
      && forall i :: 0 <= i < 7 ==> pairs[i] == Pair(COMPONENTS[i], Normalize(sale).value.Of(COMPONENTS[i]), Normalize(cost).value.Of(COMPONENTS[i]))
  {}

  /** Exactly the components sold below cost are reported, each at its place: the report is the list of components with the others left out. */
  lemma ViolationsAre(sale: Snapshot, cost: Snapshot)
    requires Pairs(sale, cost).Ok?
    ensures var v := Violations(Pairs(sale, cost).value); var low := c => Normalize(sale).value.Of(c) < Normalize(cost).value.Of(c);
      && (forall c: Component :: c in v <==> low(c))
      && (forall i, j :: 0 <= i < j < |v| ==> Rank(v[i]) < Rank(v[j]))
  {
    var pairs := Pairs(sale, cost).value;
    ViolationsOf(pairs);
    assert forall i :: 0 <= i < |COMPONENTS| ==> Rank(COMPONENTS[i]) == i;
    forall c: Component ensures c in Violations(pairs) <==> Normalize(sale).value.Of(c) < Normalize(cost).value.Of(c) {
      var j := AllComponents(|COMPONENTS|, c);
      assert pairs[j].component == c;
    }
  }

  /** The place of a component in the order of the columns. */
  function Rank(c: Component): int {
    match c
    case Uncached => 0
    case CacheRead => 1
    case Write5m => 2
    case Write1h => 3
    case Write30m => 4
    case Output => 5
    case Reasoning => 6
  }

  lemma {:induction false} ViolationsOf(pairs: seq<Pair>)
    requires forall i :: 0 <= i < |pairs| ==> Rank(pairs[i].component) == i
    ensures forall c :: c in Violations(pairs) <==> exists i :: 0 <= i < |pairs| && pairs[i].component == c && pairs[i].sale < pairs[i].cost
    ensures forall i :: 0 <= i < |Violations(pairs)| ==> Rank(Violations(pairs)[i]) < |pairs|
    ensures forall i, j :: 0 <= i < j < |Violations(pairs)| ==> Rank(Violations(pairs)[i]) < Rank(Violations(pairs)[j])
  {
    if pairs != [] {
      var front := pairs[..|pairs| - 1];
      ViolationsOf(front);
      forall c ensures c in Violations(pairs) <==> exists i :: 0 <= i < |pairs| && pairs[i].component == c && pairs[i].sale < pairs[i].cost {
        if c in Violations(front) {
          var i :| 0 <= i < |front| && front[i].component == c && front[i].sale < front[i].cost;
          assert pairs[i] == front[i];
        }
        if i :| 0 <= i < |pairs| && pairs[i].component == c && pairs[i].sale < pairs[i].cost {
          if i < |front| { assert front[i] == pairs[i]; }
        }
      }
    }
  }
}
