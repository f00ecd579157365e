/** Usage facts: token counts that may be known, not applicable or unknown. */
module Usage {
  import opened Common
  import opened Pricing

  datatype CountState = Known | NotApplicable | Unknown | Unrecognized

  datatype TokenCount = TokenCount(value: int, state: CountState)

  datatype MeteredItem = MeteredItem(kind: string, quantity: int) {

    predicate Valid() {
      (kind == "server_web_search_request" || kind == "server_web_fetch_request") && quantity > 0
    }
  }

  datatype Facts = Facts(counts: Rates<TokenCount>, items: seq<MeteredItem>)

  predicate CountOk(c: TokenCount) {
    match c.state
    case Known => c.value >= 0
    case NotApplicable => c.value == 0
    case Unknown => c.value == 0
    case Unrecognized => false
  }

  predicate ReasoningOk(counts: Rates<TokenCount>) {
    counts.reasoning.state.Known? && counts.output.state.Known? ==> counts.reasoning.value <= counts.output.value
  }

  predicate ItemsOk(items: seq<MeteredItem>) {
    && (forall i :: 0 <= i < |items| ==> items[i].Valid())
    && (forall i, j :: 0 <= i < j < |items| ==> items[i].kind != items[j].kind)
  }

  predicate ValidFacts(f: Facts) {
    (forall c: Component :: CountOk(f.counts.Of(c))) && ReasoningOk(f.counts) && ItemsOk(f.items)
  }

  /** The two loops of the check: over the counts, and over the items with the kinds seen so far. */
  method Validate(f: Facts) returns (valid: bool)
    ensures valid <==> ValidFacts(f)
  {
    var i := 0;
    while i < |COMPONENTS|
      invariant 0 <= i <= |COMPONENTS|
      invariant forall j :: 0 <= j < i ==> CountOk(f.counts.Of(COMPONENTS[j]))
    {
      if !CountOk(f.counts.Of(COMPONENTS[i])) { return false; }
      i := i + 1;
    }
    forall c: Component ensures CountOk(f.counts.Of(c)) { var j := AllComponents(i, c); }
    if !ReasoningOk(f.counts) { return false; }
    var seen: set<string> := {};
    var n := 0;
    while n < |f.items|
      invariant 0 <= n <= |f.items| && ItemsOk(f.items[..n])
      invariant seen == set k | 0 <= k < n :: f.items[k].kind
    {
      var item := f.items[n];
      if !item.Valid() || item.kind in seen { return false; }
      seen := seen + {item.kind};
      n := n + 1;
    }
    assert f.items[..n] == f.items;
    valid := true;
  }

  /** What is charged for; an unknown count never passes as zero. */
  function Billable(c: TokenCount): Option<int> {
    match c.state
    case Known => if c.value >= 0 then Some(c.value) else None
    case NotApplicable => if c.value == 0 then Some(0) else None
    case _ => None
  }

  predicate AllBillable(f: Facts) {
    forall c: Component :: Billable(f.counts.Of(c)).Some?
  }

  function TokensOf(c: TokenCount): int {
    if Billable(c).Some? then Billable(c).value else 0
  }

  /** The seven billable token counts. */
  function Tokens(f: Facts): Rates<int> {
    var k := f.counts;
    Rates(TokensOf(k.uncached), TokensOf(k.cacheRead), TokensOf(k.write5m), TokensOf(k.write1h), TokensOf(k.write30m),
          TokensOf(k.output), TokensOf(k.reasoning))
  }

  function NormalizeUsage(f: Facts): Result<Rates<int>> {
    if ValidFacts(f) && AllBillable(f) then Ok(Tokens(f)) else Err(InvalidUsage)
  }

  lemma TokensAreNonNegative(f: Facts, c: Component)
    ensures Tokens(f).Of(c) == TokensOf(f.counts.Of(c)) >= 0
  {}

  // ----- input totals

  const INT64_MAX: int := 9223372036854775807

  /** int64 addition wraps around. */
  function Wrap(x: int): int {
    (x + INT64_MAX + 1) % (2 * (INT64_MAX + 1)) - INT64_MAX - 1
  }

  function InputTokens(t: Rates<int>): int {
    t.uncached + t.cacheRead + t.write5m + t.write1h + t.write30m
  }

  function KnownTokens(c: TokenCount): int {
    if c.state.Known? && c.value > 0 then c.value else 0
  }

  const INPUTS: seq<Component> := [Uncached, CacheRead, Write5m, Write1h, Write30m]

  function KnownSum(f: Facts, n: nat): int
    requires n <= |INPUTS|
  {
    if n == 0 then 0 else KnownSum(f, n - 1) + KnownTokens(f.counts.Of(INPUTS[n - 1]))
  }

  lemma {:induction false} KnownSumGrows(f: Facts, m: nat, n: nat)
    requires m <= n <= |INPUTS|
    ensures 0 <= KnownSum(f, m) <= KnownSum(f, n)
    decreases n
  {
    if m < n { KnownSumGrows(f, m, n - 1); } else if n > 0 { KnownSumGrows(f, 0, n - 1); }
  }

  /** A value in this range is its own remainder, and there is only one. */
  lemma WrapIs(x: int, r: int, k: int)
    requires x == r + k * (2 * (INT64_MAX + 1)) && -INT64_MAX - 1 <= r <= INT64_MAX
    ensures Wrap(x) == r
  {
    var m := 2 * (INT64_MAX + 1);
    var y := x + INT64_MAX + 1;
    var q := y / m;
    assert y == q * m + y % m;
    assert (k - q) * m == y % m - (r + INT64_MAX + 1);
    assert k == q;
  }

  lemma WrapAdds(x: int, y: int)
    ensures Wrap(Wrap(x) + y) == Wrap(x + y)
  {
    var m := 2 * (INT64_MAX + 1);
    var z := x + INT64_MAX + 1;
    var k := z / m;
    assert Wrap(x) == x - k * m;
    var w := Wrap(x) + y + INT64_MAX + 1;
    var j := w / m;
    assert w == j * m + w % m;
    WrapIs(x + y, Wrap(Wrap(x) + y), k + j);
  }

  /** The input total that decides about long context: the known counts, wrapped to int64. */
  method LongContextInputSum(f: Facts) returns (sum: int)
    ensures sum == Wrap(KnownSum(f, |INPUTS|))
    ensures KnownSum(f, |INPUTS|) <= INT64_MAX ==> sum == KnownSum(f, |INPUTS|)
  {
    sum := 0;
    var i := 0;
    while i < |INPUTS|
      invariant 0 <= i <= |INPUTS|
      invariant sum == Wrap(KnownSum(f, i))
    {
      var c := f.counts.Of(INPUTS[i]);
      WrapAdds(KnownSum(f, i), KnownTokens(c));
      if c.state.Known? && c.value > 0 { sum := Wrap(sum + c.value); }
      i := i + 1;
    }
    KnownSumGrows(f, 0, |INPUTS|);
  }

  /** For usage that can be billed it is the billable input. */
  lemma KnownSumIsBillableInput(f: Facts)
    requires NormalizeUsage(f).Ok?
    ensures KnownSum(f, |INPUTS|) == InputTokens(NormalizeUsage(f).value) >= 0
  {
    forall c: Component ensures KnownTokens(f.counts.Of(c)) == TokensOf(f.counts.Of(c)) { assert CountOk(f.counts.Of(c)); }
    assert KnownSum(f, 5) == KnownSum(f, 4) + KnownTokens(f.counts.write30m);
    assert KnownSum(f, 4) == KnownSum(f, 3) + KnownTokens(f.counts.write1h);
    assert KnownSum(f, 3) == KnownSum(f, 2) + KnownTokens(f.counts.write5m);
    assert KnownSum(f, 2) == KnownSum(f, 1) + KnownTokens(f.counts.cacheRead);
    assert KnownSum(f, 1) == KnownSum(f, 0) + KnownTokens(f.counts.uncached);
    assert KnownTokens(f.counts.Of(Uncached)) == TokensOf(f.counts.uncached);
    assert KnownTokens(f.counts.Of(CacheRead)) == TokensOf(f.counts.cacheRead);
    assert KnownTokens(f.counts.Of(Write5m)) == TokensOf(f.counts.write5m);
    assert KnownTokens(f.counts.Of(Write1h)) == TokensOf(f.counts.write1h);
    assert KnownTokens(f.counts.Of(Write30m)) == TokensOf(f.counts.write30m);
  }

  // ----- the totals used for soft limits

  const LUA_EXACT: int := 9007199254740991

  const TOTALS: seq<Component> := [Uncached, CacheRead, Write5m, Write30m, Write1h, Output]

  function SumOf(f: Facts, order: seq<Component>): int {
    if order == [] then 0 else SumOf(f, order[..|order| - 1]) + TokensOf(f.counts.Of(order[|order| - 1]))
  }

  lemma {:induction false} SumOfGrows(f: Facts, order: seq<Component>, n: nat)
    requires n <= |order|
    ensures 0 <= SumOf(f, order[..n]) <= SumOf(f, order)
    decreases |order|
  {
    if n == |order| {
      assert order[..n] == order;
      if order != [] {
        SumOfGrows(f, order[..|order| - 1], |order| - 1);
        assert order[..|order| - 1][..|order| - 1] == order[..|order| - 1];
      }
    } else {
      SumOfGrows(f, order[..|order| - 1], n);
      assert order[..|order| - 1][..n] == order[..n];
    }
  }

  predicate Countable(f: Facts, order: seq<Component>) {
    forall i :: 0 <= i < |order| ==> Billable(f.counts.Of(order[i])).Some?
  }

  /**
   A total is reported exactly when the facts are valid, every count in it is billable and
   it is an integer that Lua holds exactly.
   */
  method Total(f: Facts, order: seq<Component>) returns (total: Option<int>)
    ensures total == if ValidFacts(f) && Countable(f, order) && SumOf(f, order) <= LUA_EXACT then Some(SumOf(f, order)) else None
  {
    var valid := Validate(f);
    if !valid { return None; }
    var sum := 0;
    var i := 0;
    while i < |order|
      invariant 0 <= i <= |order| && sum == SumOf(f, order[..i]) && 0 <= sum <= LUA_EXACT
      invariant forall j :: 0 <= j < i ==> Billable(f.counts.Of(order[j])).Some?
    {
      var value := Billable(f.counts.Of(order[i]));
      assert order[..i + 1][..i] == order[..i];
      SumOfGrows(f, order, i + 1);
      if value.None? || sum > LUA_EXACT - value.value { return None; }
      sum := sum + value.value;
      i := i + 1;
    }
    assert order[..i] == order;
    total := Some(sum);
  }

  /** The actual total is the observed input, which is what is billed as input, and the observed output. */
  lemma TotalsAgree(f: Facts)
    ensures SumOf(f, TOTALS[..5]) == InputTokens(Tokens(f))
    ensures SumOf(f, TOTALS) == SumOf(f, TOTALS[..5]) + TokensOf(f.counts.output)
  {
    var t := TOTALS[..5];
    assert TOTALS[..|TOTALS| - 1] == t;
    assert t[..4][..3] == t[..3] && t[..3][..2] == t[..2] && t[..2][..1] == t[..1];
    assert SumOf(f, t[..1]) == SumOf(f, t[..0]) + TokensOf(f.counts.uncached);
    assert SumOf(f, t[..2]) == SumOf(f, t[..1]) + TokensOf(f.counts.cacheRead);
    assert SumOf(f, t[..3]) == SumOf(f, t[..2]) + TokensOf(f.counts.write5m);
    assert SumOf(f, t[..4]) == SumOf(f, t[..3]) + TokensOf(f.counts.write30m);
  }

  /**
   Billable usage has reasoning within the output in every case but one: an output that is
   not applicable beside reasoning that is.
   */
  lemma ReasoningExceedsOutputIff(f: Facts)
    requires NormalizeUsage(f).Ok?
    ensures var t := NormalizeUsage(f).value;
      t.reasoning > t.output <==> f.counts.output.state.NotApplicable? && f.counts.reasoning.state.Known? && f.counts.reasoning.value > 0
  {
    assert CountOk(f.counts.Of(Output)) && CountOk(f.counts.Of(Reasoning));
    assert Billable(f.counts.Of(Output)).Some? && Billable(f.counts.Of(Reasoning)).Some?;
  }

  lemma TwoKinds(items: seq<MeteredItem>)
    ensures ItemsOk(items) ==> |items| <= 2
  {
    if |items| > 2 {
      var a, b, c := items[0], items[1], items[2];
      assert a.Valid() && b.Valid() && c.Valid() ==> a.kind == b.kind || a.kind == c.kind || b.kind == c.kind;
    }
  }

  /** Valid facts name each metered kind at most once, so there are at most two items, and every count may also be unknown. */
  lemma ValidFactsAre(f: Facts)
    ensures ValidFacts(f) <==>
      && (forall c: Component ::
            var n := f.counts.Of(c);
            (n.state.Known? && n.value >= 0) || ((n.state.NotApplicable? || n.state.Unknown?) && n.value == 0))
      && (f.counts.reasoning.state.Known? && f.counts.output.state.Known? ==> f.counts.reasoning.value <= f.counts.output.value)
      && ItemsOk(f.items)
    ensures ValidFacts(f) ==> |f.items| <= 2
    ensures forall item :: item in f.items && ValidFacts(f) ==>
      item.quantity > 0 && item.kind in {"server_web_search_request", "server_web_fetch_request"}
  {
    TwoKinds(f.items);
  }
}
