/** When each operation of the provider ledger succeeds, and what exactly it then changes. */
module ProviderLedgerOutcomes {
  import opened Common
  import opened Money
  import opened Usage
  import opened Charging
  import opened ProviderLedger
  import opened ProviderLedgerRuns
  import P = Pricing

  ghost predicate OnlyBalance(b: Books, b': Books, a: Account) {
    forall other :: other != a ==> BalanceOf(b', other) == BalanceOf(b, other)
  }

  /** No other entry pays for the same cost snapshot or probe. */
  predicate Unpaid(entries: seq<Entry>, s: Source) {
    && (s.FromUsage? ==> forall i :: 0 <= i < |entries| && entries[i].source.FromUsage? ==> entries[i].source.costSnapshot != s.costSnapshot)
    && (s.FromProbe? ==> forall i :: 0 <= i < |entries| && entries[i].source.FromProbe? ==> entries[i].source.probe != s.probe)
  }

  /** The balance moves by the amount, up for a credit and down for a debit, and one entry says so. */
  ghost predicate Posted(b: Books, b': Books, p: Posting) {
    var before := BalanceOf(b, p.account);
    var after := if p.kind.AdjustmentCredit? then before + p.amount else before - p.amount;
    && b'.entries == b.entries + [Entry(p.account, p.kind, p.amount, before, after, p.key, p.reason, p.source)]
    && BalanceOf(b', p.account) == after && OnlyBalance(b, b', p.account)
  }

  /**
   A first posting succeeds exactly if its amount is positive and can be stored, its text
   columns are filled, the new balance fits and its source is not paid for; a balance may go
   negative.
   */
  lemma PostOutcome(b: Books, p: Posting)
    requires FindEntry(b.entries, p.key).None?
    ensures var (b', result) := Post(b, p); var before := BalanceOf(b, p.account);
      var after := if p.kind.AdjustmentCredit? then before + p.amount else before - p.amount;
      && (result.Ok? <==> 0 < p.amount < LIMIT && p.account.currency != "" && p.key != "" && p.reason != "" && -LIMIT < after < LIMIT && Unpaid(b.entries, p.source))
      && (!result.Ok? ==> b' == b) && (p.amount <= 0 ==> result == InvalidAmount)
      && (result.Ok? ==> Posted(b, b', p) && result.value == b'.entries[|b.entries|] && b'.probes == b.probes && b'.risks == b.risks)
  {}

  /** A key answers the posting it was taken by at any later time, and no other. */
  lemma PostIsIdempotent(b: Books, p: Posting, ops: seq<Op>, q: Posting)
    requires Valid(b) && Proper(DoPost(p)) && FindEntry(b.entries, p.key).None? && Post(b, p).1.Ok?
    requires q.key == p.key && q.amount > 0 && q.account.currency != "" && q.reason != "" && forall i :: 0 <= i < |ops| ==> Proper(ops[i])
    ensures var e := Post(b, p).1.value; var later := Run(Post(b, p).0, ops);
      && Post(later, p) == (later, Ok(e))
      && Post(later, q) == (later, if q == p.(source := q.source) && (q.source.NoSource? || q.source == p.source) then Ok(e) else Conflict)
  {
    hide Run;
    var b' := Post(b, p).0;
    PostOutcome(b, p);
    PostKeeps(b, p);
    RunKeeps(b', ops);
    RunGrows(b', ops);
    FoundStays(b'.entries, Run(b', ops).entries, p.key, |b.entries|);
    EntryAt(b'.entries, Run(b', ops).entries, |b.entries|);
  }

  lemma EntryAt(entries: seq<Entry>, entries': seq<Entry>, n: nat)
    requires entries <= entries' && n < |entries|
    ensures entries'[n] == entries[n]
  {}

  /**
   Setting a balance, whatever the target's precision: it succeeds exactly if the difference
   is not zero, is at least half a unit, and difference and new balance can be stored; the
   entry moves towards the target by the difference rounded to units.
   */
  lemma TargetOutcome(b: Books, t: Target)
    requires t.account.currency != "" && t.key != "" && t.reason != "" && FindEntry(b.entries, t.key).None?
    ensures var (b', result) := SetTarget(b, t); var before := BalanceOf(b, t.account);
      var delta := t.balance * SCALE - before as real;
      var amount := RoundHalfUp(if delta > 0.0 then delta else -delta);
      var after := if delta > 0.0 then before + amount else before - amount;
      && (delta == 0.0 ==> result == Unchanged && b' == b)
      && (result.Ok? <==> delta != 0.0 && 0 < amount < LIMIT && -LIMIT < after < LIMIT)
      && (!result.Ok? ==> b' == b)
      && (result.Ok? ==>
            && Posted(b, b', Posting(t.account, if delta > 0.0 then AdjustmentCredit else AdjustmentDebit, amount, t.key, t.reason, NoSource))
            && result.value == b'.entries[|b.entries|] && b'.probes == b.probes)
  {}

  // ----- probes

  /** The usage the probe reports is reliable, there is a price, and both can be billed. */
  predicate CostKnown(c: ProbeCall) {
    && c.success && c.reading.Some? && !c.reading.value.origin.Estimated? && c.pricing.Some?
    && NormalizeUsage(c.reading.value.facts).Ok? && P.Normalize(c.pricing.value).Ok?
  }

  /** A known cost is what a request with this usage would cost at this price: seven parts, each rounded. */
  lemma ReliableCostIs(c: ProbeCall)
    ensures ReliableCost(c).Some? <==> CostKnown(c)
    ensures CostKnown(c) ==>
      exists parts: P.Rates<int> ::
        && ReliableCost(c) == Some(parts.uncached + parts.cacheRead + parts.write5m + parts.write1h + parts.write30m + parts.output + parts.reasoning)
        && PartsOf(parts, P.Normalize(c.pricing.value).value, NormalizeUsage(c.reading.value.facts).value)
  {
    if CostKnown(c) {
      var r, t := P.Normalize(c.pricing.value).value, NormalizeUsage(c.reading.value.facts).value;
      var parts := Rounded7(Breakdown(r, t));
      forall k: P.Component ensures parts.Of(k) == Units(Times(r.Of(k), Billed(t, k) as real) / 1000000.0) { PartIsRateTimesTokens(r, t, k); }
      assert PartsOf(parts, r, t);
    }
  }

  predicate PartsOf(parts: P.Rates<int>, r: P.Rates<real>, t: P.Rates<int>) {
    forall k: P.Component :: parts.Of(k) == Units(Times(r.Of(k), Billed(t, k) as real) / 1000000.0)
  }

  /** The record every accounted probe gets. */
  predicate Recorded(b: Books, b': Books, c: ProbeCall, cost: Option<int>) {
    b'.probes == b.probes + [Probe(c.provider, c.channel, c.origin, c.model, c.success, c.key, cost)]
  }

  predicate NothingPosted(b: Books, b': Books) {
    b'.entries == b.entries && b'.balances == b.balances
  }

  /**
   A valid first probe.  A known cost that is not zero is debited from the provider, under a
   key of the probe's own; one of zero is only recorded.  An unknown cost becomes a risk if
   the probe succeeded or the answer was a 2xx, and is only recorded otherwise.
   */
  lemma ProbeOutcome(b: Books, c: ProbeCall)
    requires ValidProbe(c) && FindProbe(b.probes, c.key).None?
    ensures var (b', result) := AccountProbe(b, c); var n := |b.probes|; var cost := ReliableCost(c);
      && (!result.Ok? ==> b' == b) && (result.Ok? ==> result == Ok(n) && Recorded(b, b', c, cost))
      && (cost.None? ==>
            && result.Ok? && NothingPosted(b, b')
            && b'.risks == if c.success || 200 <= c.status < 300
                           then b.risks + [Risk(c.provider, PricedIn(c), Some(n), 0, c.at, None)] else b.risks)
      && (cost == Some(0) && result.Ok? ==> NothingPosted(b, b') && b'.risks == b.risks)
      && (cost.Some? && cost.value != 0 && result.Ok? ==> b'.risks == b.risks)
  {
    hide ReliableCost, ProbeKey, SourceFree, Breakdown;
  }

  /** The currency of a price that was found. */
  function PricedIn(c: ProbeCall): Option<string> {
    if c.pricing.Some? && c.pricing.value.currency != "" then Some(c.pricing.value.currency) else None
  }

  /** The debit of a probe. */
  function DebitOf(c: ProbeCall, n: nat, cost: int): Posting
    requires c.pricing.Some?
  {
    Posting(Account(c.provider, c.pricing.value.currency), ProbeDebit, cost, ProbeKey(n), "probe cost", FromProbe(n))
  }

  /** When a known cost is debited: it can be stored, its origin is stated, and key, source and balance leave room for the entry. */
  predicate Debitable(b: Books, c: ProbeCall, n: nat, cost: int)
    requires c.reading.Some? && c.pricing.Some?
  {
    && 0 < cost < LIMIT && !c.reading.value.origin.Unstated? && FindEntry(b.entries, ProbeKey(n)).None? && Unpaid(b.entries, FromProbe(n))
    && BalanceOf(b, Account(c.provider, c.pricing.value.currency)) - cost > -LIMIT
  }

  /** A known cost that is not zero is debited exactly if it can be; otherwise the call fails and writes nothing, not even the probe. */
  lemma KnownCostIsDebited(b: Books, c: ProbeCall)
    requires Valid(b) && ValidProbe(c) && FindProbe(b.probes, c.key).None? && CostKnown(c)
    requires ReliableCost(c).Some? && ReliableCost(c).value != 0
    ensures var (b', result) := AccountProbe(b, c); var n := |b.probes|; var cost := ReliableCost(c).value;
      && (result.Ok? <==> Debitable(b, c, n, cost))
      && (result.Ok? ==> Posted(b, b', DebitOf(c, n, cost)))
      && (!result.Ok? ==> b' == b)
  {
    hide ReliableCost, ProbeKey, Breakdown, P.Normalize, NormalizeUsage;
    var a := Account(c.provider, c.pricing.value.currency);
    assert AccountOk(b, a);
    var taken := FindEntry(b.entries, ProbeKey(|b.probes|));
    if taken.Some? { assert DebitOk(b, taken.value); }
    assert Unpaid(b.entries, FromProbe(|b.probes|)) by { NoDebitYet(b); }
  }

  lemma NoDebitYet(b: Books)
    requires Valid(b)
    ensures Unpaid(b.entries, FromProbe(|b.probes|))
  {
    forall i | 0 <= i < |b.entries| && b.entries[i].source.FromProbe? ensures b.entries[i].source.probe != |b.probes| { assert DebitOk(b, i); }
  }

  /** A known cost of zero needs no debit; the table only asks where the usage comes from. */
  lemma FreeProbeIsRecorded(b: Books, c: ProbeCall)
    requires ValidProbe(c) && FindProbe(b.probes, c.key).None? && CostKnown(c) && ReliableCost(c) == Some(0)
    ensures AccountProbe(b, c).1.Ok? <==> !c.reading.value.origin.Unstated?
  {
    hide ReliableCost, ProbeKey, Breakdown, P.Normalize, NormalizeUsage;
  }

  // ----- keys of probes

  /** The number that a string of digits stands for. */
  function ValueOf(digits: string): int {
    if digits == "" then 0 else ValueOf(digits[..|digits| - 1]) * 10 + (digits[|digits| - 1] as int - '0' as int)
  }

  lemma {:induction false} DigitsStandForNumber(n: nat)
    ensures ValueOf(Digits(n)) == n
  {
    var d := Digits(n);
    if n >= 10 {
      DigitsStandForNumber(n / 10);
      assert d[..|d| - 1] == Digits(n / 10);
    } else {
      assert d[..|d| - 1] == "";
    }
  }

  /** Every probe has a debit key of its own. */
  lemma ProbeKeysDiffer(m: nat, n: nat)
    requires ProbeKey(m) == ProbeKey(n)
    ensures m == n
  {
    var prefix := "provider:probe:";
    assert ProbeKey(m)[|prefix|..] == Digits(m) && ProbeKey(n)[|prefix|..] == Digits(n);
    DigitsStandForNumber(m);
    DigitsStandForNumber(n);
  }
}
