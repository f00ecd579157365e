/**
 The provider ledger: internal balances that may go negative, an immutable list of entries,
 probe records and cost risks.  Amounts are integers in units of 10^-10; only the target of
 a manual adjustment is an exact number of any precision.
 */
module ProviderLedger {
  import opened Common
  import opened Money
  import opened Usage
  import opened Charging
  import P = Pricing

  const LIMIT: int := 100_000_000_000_000_000_000

  /** One provider, one currency. */
  datatype Account = Account(provider: int, currency: string)

  datatype Kind = UsageDebit | ProbeDebit | AdjustmentCredit | AdjustmentDebit

  /** What a debit pays for; a probe is named by its position. */
  datatype Source = NoSource | FromUsage(request: int, attempt: int, costSnapshot: int, labels: string) | FromProbe(probe: nat)

  datatype Entry = Entry(account: Account, kind: Kind, amount: int, before: int, after: int, key: string, reason: string, source: Source)

  datatype Probe = Probe(provider: int, channel: int, origin: string, model: string, success: bool, key: string, cost: Option<int>)

  /** A risk without a currency is never reconciled by an adjustment. */
  datatype Risk = Risk(provider: int, currency: Option<string>, probe: Option<nat>, attempt: int, created: int, reconciledBy: Option<nat>)

  datatype Books = Books(balances: map<Account, int>, entries: seq<Entry>, probes: seq<Probe>, risks: seq<Risk>)

  datatype Result<+T> = Ok(value: T) | InvalidArgument | InvalidAmount | Unchanged | Conflict | StoreFailed

  function BalanceOf(b: Books, a: Account): int {
    if a in b.balances then b.balances[a] else 0
  }

  function FindEntry(entries: seq<Entry>, key: string): (r: Option<nat>)
    ensures r.Some? ==> r.value < |entries| && entries[r.value].key == key
    ensures r.None? ==> forall i :: 0 <= i < |entries| ==> entries[i].key != key
  {
    if entries == [] then None
    else if entries[|entries| - 1].key == key then Some(|entries| - 1)
    else FindEntry(entries[..|entries| - 1], key)
  }

  function FindProbe(probes: seq<Probe>, key: string): (r: Option<nat>)
    ensures r.Some? ==> r.value < |probes| && probes[r.value].key == key
    ensures r.None? ==> forall i :: 0 <= i < |probes| ==> probes[i].key != key
  {
    if probes == [] then None
    else if probes[|probes| - 1].key == key then Some(|probes| - 1)
    else FindProbe(probes[..|probes| - 1], key)
  }

  predicate Fits(x: int) {
    -LIMIT < x < LIMIT
  }

  function Signed(e: Entry): int {
    if e.kind.AdjustmentCredit? then e.amount else -e.amount
  }

  // ----- postings

  datatype Posting = Posting(account: Account, kind: Kind, amount: int, key: string, reason: string, source: Source)

  predicate SamePosting(e: Entry, p: Posting) {
    && e.account == p.account && e.kind == p.kind && e.amount == p.amount && e.reason == p.reason
    && (p.source != NoSource ==> e.source == p.source)
  }

  /** Text columns must not be blank. */
  predicate Filled(p: Posting) {
    p.account.currency != "" && p.key != "" && p.reason != ""
  }

  /** One cost snapshot and one probe are paid for at most once. */
  predicate SourceFree(entries: seq<Entry>, s: Source) {
    match s
    case NoSource => true
    case FromUsage(_, _, snapshot, _) =>
      forall i :: 0 <= i < |entries| && entries[i].source.FromUsage? ==> entries[i].source.costSnapshot != snapshot
    case FromProbe(probe) =>
      forall i :: 0 <= i < |entries| && entries[i].source.FromProbe? ==> entries[i].source.probe != probe
  }

  function PostingEntry(p: Posting, before: int): Entry {
    Entry(p.account, p.kind, p.amount, before, if p.kind.AdjustmentCredit? then before + p.amount else before - p.amount, p.key, p.reason, p.source)
  }

  /** Adds the entry and moves the balance; the entry table refuses what it cannot hold. */
  function Write(b: Books, p: Posting): (Books, Result<Entry>) {
    var e := PostingEntry(p, BalanceOf(b, p.account));
    if !(0 < p.amount < LIMIT) || !Fits(e.after) || !SourceFree(b.entries, p.source) then (b, StoreFailed)
    else (b.(balances := b.balances[p.account := e.after], entries := b.entries + [e]), Ok(e))
  }

  function Post(b: Books, p: Posting): (Books, Result<Entry>) {
    if p.amount <= 0 then (b, InvalidAmount)
    else if !Filled(p) then (b, InvalidArgument)
    else
      var seen := FindEntry(b.entries, p.key);
      if seen.Some? then (b, if SamePosting(b.entries[seen.value], p) then Ok(b.entries[seen.value]) else Conflict)
      else Write(b, p)
  }

  // ----- setting the balance

  /** The target is exact; `cutoff` is when the call started. */
  datatype Target = Target(account: Account, balance: real, key: string, reason: string, cutoff: int)

  predicate SameTarget(e: Entry, t: Target) {
    e.account == t.account && FromUnits(e.after) == t.balance && e.reason == t.reason
  }

  predicate Reconcilable(r: Risk, t: Target) {
    r.provider == t.account.provider && r.currency == Some(t.account.currency) && r.reconciledBy.None? && r.created <= t.cutoff
  }

  function Reconcile(risks: seq<Risk>, t: Target, entry: nat): seq<Risk> {
    seq(|risks|, i requires 0 <= i < |risks| => if Reconcilable(risks[i], t) then risks[i].(reconciledBy := Some(entry)) else risks[i])
  }

  /** The difference to the target, in units; its absolute value is rounded to whole units. */
  function Delta(b: Books, t: Target): real {
    t.balance * SCALE - BalanceOf(b, t.account) as real
  }

  function Adjustment(b: Books, t: Target): Posting {
    var delta := Delta(b, t);
    Posting(t.account, if delta > 0.0 then AdjustmentCredit else AdjustmentDebit, RoundHalfUp(if delta > 0.0 then delta else -delta), t.key, t.reason, NoSource)
  }

  function SetTarget(b: Books, t: Target): (Books, Result<Entry>) {
    if t.account.currency == "" || t.key == "" || t.reason == "" then (b, InvalidArgument)
    else
      var seen := FindEntry(b.entries, t.key);
      if seen.Some? then (b, if SameTarget(b.entries[seen.value], t) then Ok(b.entries[seen.value]) else Conflict)
      else if Delta(b, t) == 0.0 then (b, Unchanged)
      else
        var (b', result) := Write(b, Adjustment(b, t));
        if !result.Ok? then (b, result)
        else (b'.(risks := Reconcile(b'.risks, t, |b.entries|)), result)
  }

  // ----- probes

  /** Where the usage of a probe comes from. */
  datatype Origin = Unstated | Reported | Estimated

  datatype Reading = Reading(facts: Facts, origin: Origin)

  /** One real probe of a provider; `pricing` is what the price lookup found, and `status` the HTTP status. */
  datatype ProbeCall = ProbeCall(
    provider: int, channel: int, origin: string, model: string, success: bool, status: int, reading: Option<Reading>,
    pricing: Option<P.Snapshot>, key: string, at: int)

  predicate SameProbe(p: Probe, c: ProbeCall) {
    p.provider == c.provider && p.channel == c.channel && p.origin == c.origin && p.model == c.model && p.success == c.success
  }

  /** The probe table refuses a reliable cost without a stated origin, or a negative one. */
  predicate StorableCost(c: ProbeCall, cost: int) {
    0 <= cost < LIMIT && c.reading.Some? && !c.reading.value.origin.Unstated?
  }

  /** The cost of a probe with reliable usage and a price; otherwise nothing is known. */
  function ReliableCost(c: ProbeCall): Option<int> {
    if !c.success || c.reading.None? || c.reading.value.origin.Estimated? || c.pricing.None? then None
    else if NormalizeUsage(c.reading.value.facts).Err? || P.Normalize(c.pricing.value).Err? then None
    else Some(Total7Units(Rounded7(Breakdown(P.Normalize(c.pricing.value).value, NormalizeUsage(c.reading.value.facts).value))))
  }

  predicate MayHaveCost(c: ProbeCall) {
    c.success || 200 <= c.status < 300
  }

  function ProbeCurrency(c: ProbeCall): Option<string> {
    if c.pricing.Some? && c.pricing.value.currency != "" then Some(c.pricing.value.currency) else None
  }

  predicate ValidProbe(c: ProbeCall) {
    c.provider > 0 && c.channel > 0 && c.origin != "" && c.model != "" && c.key != "" && 0 <= c.status <= 599
  }

  function Digits(n: nat): string {
    if n < 10 then [('0' as int + n) as char] else Digits(n / 10) + [('0' as int + n % 10) as char]
  }

  function ProbeKey(probe: nat): string {
    "provider:probe:" + Digits(probe)
  }

  const PROBE_REASON := "probe cost"

  function ProbePosting(c: ProbeCall, probe: nat, cost: int): Posting {
    Posting(Account(c.provider, if c.pricing.Some? then c.pricing.value.currency else ""), ProbeDebit, cost, ProbeKey(probe), PROBE_REASON, FromProbe(probe))
  }

  function ProbeRisk(c: ProbeCall, probe: nat): Risk {
    Risk(c.provider, ProbeCurrency(c), Some(probe), 0, c.at, None)
  }

  function AccountProbe(b: Books, c: ProbeCall): (Books, Result<nat>) {
    if !ValidProbe(c) then (b, InvalidArgument)
    else
      var seen := FindProbe(b.probes, c.key);
      if seen.Some? then (b, if SameProbe(b.probes[seen.value], c) then Ok(seen.value) else Conflict)
      else
        var cost := ReliableCost(c);
        var n := |b.probes|;
        if cost.Some? && !StorableCost(c, cost.value) then (b, StoreFailed)
        else
          var b' := b.(probes := b.probes + [Probe(c.provider, c.channel, c.origin, c.model, c.success, c.key, cost)]);
          if cost.Some? && cost.value != 0 then
            var (b'', result) := PostProbe(b', ProbePosting(c, n, cost.value));
            if result.Ok? then (b'', Ok(n)) else (b, if result.Conflict? then Conflict else StoreFailed)
          else if MayHaveCost(c) && cost.None? then (b'.(risks := b'.risks + [ProbeRisk(c, n)]), Ok(n))
          else (b', Ok(n))
  }

  /** The debit of a probe has its own key, and must find that key free or its own. */
  function PostProbe(b: Books, p: Posting): (Books, Result<Entry>) {
    var seen := FindEntry(b.entries, p.key);
    if seen.Some? then (b, if SamePosting(b.entries[seen.value], p) then Ok(b.entries[seen.value]) else Conflict)
    else Write(b, p)
  }

  // ----- runs

  datatype Op =
    | DoPost(p: Posting)
    | DoSetTarget(t: Target)
    | DoAccountProbe(c: ProbeCall)
    | DoRecordRisk(provider: int, currency: Option<string>, attempt: int, at: int)

  /** Probe debits are posted only by probe accounting. */
  predicate Proper(op: Op) {
    op.DoPost? ==> !op.p.kind.ProbeDebit? && (op.p.kind.UsageDebit? <==> op.p.source.FromUsage?) && !op.p.source.FromProbe?
  }

  /** The unique index on request attempts. */
  function RecordRisk(b: Books, provider: int, currency: Option<string>, attempt: int, at: int): Books {
    if exists i :: 0 <= i < |b.risks| && b.risks[i].probe.None? && b.risks[i].attempt == attempt then b
    else b.(risks := b.risks + [Risk(provider, currency, None, attempt, at, None)])
  }

  function Apply(b: Books, op: Op): Books {
    match op
    case DoPost(p) => Post(b, p).0
    case DoSetTarget(t) => SetTarget(b, t).0
    case DoAccountProbe(c) => AccountProbe(b, c).0
    case DoRecordRisk(provider, currency, attempt, at) => RecordRisk(b, provider, currency, attempt, at)
  }

  function Run(b: Books, ops: seq<Op>): Books {
    if ops == [] then b else Apply(Run(b, ops[..|ops| - 1]), ops[|ops| - 1])
  }

  const EMPTY := Books(map[], [], [], [])
}
