/** What the provider ledger guarantees over every run of operations. */
module ProviderLedgerRuns {
  import opened Common
  import opened Money
  import opened ProviderLedger

  /** Credits minus debits of one account. */
  function Net(entries: seq<Entry>, a: Account): int {
    if entries == [] then 0
    else
      var last := entries[|entries| - 1];
      Net(entries[..|entries| - 1], a) + if last.account == a then Signed(last) else 0
  }

  predicate ChainOk(entries: seq<Entry>, i: nat) {
    i < |entries| ==>
      var e := entries[i];
      e.amount > 0 && e.before == Net(entries[..i], e.account) && e.after == e.before + Signed(e)
  }

  predicate KeysApart(entries: seq<Entry>, i: nat, j: nat) {
    i < j < |entries| ==> entries[i].key != entries[j].key
  }

  /** A probe is paid for by one entry at most. */
  predicate ProbesApart(entries: seq<Entry>, i: nat, j: nat) {
    i < j < |entries| && entries[i].source.FromProbe? && entries[j].source.FromProbe? ==> entries[i].source.probe != entries[j].source.probe
  }

  /** A probe debit pays exactly the recorded cost of its probe. */
  predicate DebitOk(b: Books, i: nat) {
    i < |b.entries| && b.entries[i].source.FromProbe? ==>
      var n := b.entries[i].source.probe;
      n < |b.probes| && b.probes[n].cost == Some(b.entries[i].amount)
  }

  /** A probe risk belongs to a probe without a known cost. */
  predicate RiskOk(b: Books, i: nat) {
    i < |b.risks| ==>
      && (b.risks[i].probe.Some? ==> b.risks[i].probe.value < |b.probes| && b.probes[b.risks[i].probe.value].cost.None?)
      && (b.risks[i].reconciledBy.Some? ==> b.risks[i].reconciledBy.value < |b.entries|)
  }

  predicate RisksApart(risks: seq<Risk>, i: nat, j: nat) {
    i < j < |risks| && risks[i].probe.Some? ==> risks[i].probe != risks[j].probe
  }

  predicate ProbeKeysApart(probes: seq<Probe>, i: nat, j: nat) {
    i < j < |probes| ==> probes[i].key != probes[j].key
  }

  predicate AccountOk(b: Books, a: Account) {
    BalanceOf(b, a) == Net(b.entries, a) && Fits(BalanceOf(b, a))
  }

  ghost predicate EntriesOk(entries: seq<Entry>) {
    && (forall i {:trigger ChainOk(entries, i)} :: ChainOk(entries, i))
    && (forall i, j {:trigger KeysApart(entries, i, j)} :: KeysApart(entries, i, j))
    && (forall i, j {:trigger ProbesApart(entries, i, j)} :: ProbesApart(entries, i, j))
  }

  ghost predicate ProbesOk(b: Books) {
    && (forall i {:trigger DebitOk(b, i)} :: DebitOk(b, i))
    && (forall i {:trigger RiskOk(b, i)} :: RiskOk(b, i))
    && (forall i, j {:trigger RisksApart(b.risks, i, j)} :: RisksApart(b.risks, i, j))
    && (forall i, j {:trigger ProbeKeysApart(b.probes, i, j)} :: ProbeKeysApart(b.probes, i, j))
  }

  ghost predicate Valid(b: Books) {
    EntriesOk(b.entries) && ProbesOk(b) && forall a {:trigger AccountOk(b, a)} :: AccountOk(b, a)
  }

  lemma NetAppend(entries: seq<Entry>, e: Entry, a: Account)
    ensures Net(entries + [e], a) == Net(entries, a) + if e.account == a then Signed(e) else 0
  {
    assert (entries + [e])[..|entries|] == entries;
  }

  /** An entry that the table accepts, under a key that is free. */
  lemma WriteKeeps(b: Books, p: Posting)
    requires Valid(b) && FindEntry(b.entries, p.key).None?
    requires p.source.FromProbe? ==> p.source.probe < |b.probes| && b.probes[p.source.probe].cost == Some(p.amount)
    ensures Valid(Write(b, p).0)
  {
    var (b', result) := Write(b, p);
    if result.Ok? {
      var e := result.value;
      assert AccountOk(b, p.account);
      AppendKeeps(b, e);
      forall i: nat ensures DebitOk(b', i) { assert DebitOk(b, i); }
      forall i: nat ensures RiskOk(b', i) { assert RiskOk(b, i); }
      forall i: nat, j: nat ensures RisksApart(b'.risks, i, j) { assert RisksApart(b.risks, i, j); }
      forall i: nat, j: nat ensures ProbeKeysApart(b'.probes, i, j) { assert ProbeKeysApart(b.probes, i, j); }
      forall a ensures AccountOk(b', a) { assert AccountOk(b, a); NetAppend(b.entries, e, a); }
    }
  }

  lemma AppendKeeps(b: Books, e: Entry)
    requires EntriesOk(b.entries) && AccountOk(b, e.account) && FindEntry(b.entries, e.key).None? && SourceFree(b.entries, e.source)
    requires e.amount > 0 && e.before == BalanceOf(b, e.account) && e.after == e.before + Signed(e)
    ensures EntriesOk(b.entries + [e])
  {
    var es := b.entries + [e];
    forall i: nat ensures ChainOk(es, i) {
      assert ChainOk(b.entries, i);
      if i < |b.entries| { assert es[..i] == b.entries[..i]; } else if i == |b.entries| { assert es[..i] == b.entries; }
    }
    forall i: nat, j: nat ensures KeysApart(es, i, j) { assert KeysApart(b.entries, i, j); }
    forall i: nat, j: nat ensures ProbesApart(es, i, j) { assert ProbesApart(b.entries, i, j); }
  }

  lemma PostKeeps(b: Books, p: Posting)
    requires Valid(b) && !p.source.FromProbe?
    ensures Valid(Post(b, p).0)
  {
    if FindEntry(b.entries, p.key).None? { WriteKeeps(b, p); }
  }

  lemma ReconcileKeeps(b: Books, t: Target, entry: nat)
    requires Valid(b) && entry < |b.entries|
    ensures Valid(b.(risks := Reconcile(b.risks, t, entry)))
  {
    var b' := b.(risks := Reconcile(b.risks, t, entry));
    forall i: nat ensures DebitOk(b', i) { assert DebitOk(b, i); }
    forall i: nat ensures RiskOk(b', i) { assert RiskOk(b, i); }
    forall i: nat, j: nat ensures RisksApart(b'.risks, i, j) { assert RisksApart(b.risks, i, j); }
    forall i: nat, j: nat ensures ProbeKeysApart(b'.probes, i, j) { assert ProbeKeysApart(b.probes, i, j); }
    forall a ensures AccountOk(b', a) { assert AccountOk(b, a); }
  }

  lemma SetTargetKeeps(b: Books, t: Target)
    requires Valid(b)
    ensures Valid(SetTarget(b, t).0)
  {
    if SetTarget(b, t).0 != b {
      WriteKeeps(b, Adjustment(b, t));
      ReconcileKeeps(Write(b, Adjustment(b, t)).0, t, |b.entries|);
    }
  }

  /** A new probe record. */
  function WithProbe(b: Books, c: ProbeCall): Books {
    b.(probes := b.probes + [Probe(c.provider, c.channel, c.origin, c.model, c.success, c.key, ReliableCost(c))])
  }

  lemma RecordKeeps(b: Books, c: ProbeCall)
    requires Valid(b) && FindProbe(b.probes, c.key).None?
    ensures Valid(WithProbe(b, c))
  {
    hide ReliableCost;
    var b' := WithProbe(b, c);
    forall i: nat ensures DebitOk(b', i) { assert DebitOk(b, i); }
    forall i: nat ensures RiskOk(b', i) { assert RiskOk(b, i); }
    forall i: nat, j: nat ensures ProbeKeysApart(b'.probes, i, j) { assert ProbeKeysApart(b.probes, i, j); }
    forall i: nat, j: nat ensures RisksApart(b'.risks, i, j) { assert RisksApart(b.risks, i, j); }
    forall a ensures AccountOk(b', a) { assert AccountOk(b, a); }
  }

  lemma RiskKeeps(b: Books, r: Risk)
    requires Valid(b) && r.reconciledBy.None?
    requires r.probe.Some? ==> r.probe.value < |b.probes| && b.probes[r.probe.value].cost.None?
    requires forall i :: 0 <= i < |b.risks| && r.probe.Some? ==> b.risks[i].probe != r.probe
    ensures Valid(b.(risks := b.risks + [r]))
  {
    var b' := b.(risks := b.risks + [r]);
    forall i: nat ensures DebitOk(b', i) { assert DebitOk(b, i); }
    forall i: nat ensures RiskOk(b', i) { assert RiskOk(b, i); }
    forall i: nat, j: nat ensures ProbeKeysApart(b'.probes, i, j) { assert ProbeKeysApart(b.probes, i, j); }
    forall i: nat, j: nat ensures RisksApart(b'.risks, i, j) { assert RisksApart(b.risks, i, j); }
    forall a ensures AccountOk(b', a) { assert AccountOk(b, a); }
  }

  lemma ProbeKeeps(b: Books, c: ProbeCall)
    requires Valid(b)
    ensures Valid(AccountProbe(b, c).0)
  {
    hide ReliableCost, Write, ProbeKey;
    if AccountProbe(b, c).0 != b {
      RecordKeeps(b, c);
      var b' := WithProbe(b, c);
      var cost := ReliableCost(c);
      if cost.Some? && cost.value != 0 {
        var p := ProbePosting(c, |b.probes|, cost.value);
        if FindEntry(b'.entries, p.key).None? { WriteKeeps(b', p); }
      } else if MayHaveCost(c) && cost.None? {
        forall i: nat | i < |b.risks| ensures b.risks[i].probe != Some(|b.probes|) { assert RiskOk(b, i); }
        RiskKeeps(b', ProbeRisk(c, |b.probes|));
      }
    }
  }

  lemma ApplyKeeps(b: Books, op: Op)
    requires Valid(b) && Proper(op)
    ensures Valid(Apply(b, op))
  {
    hide Valid, Post, SetTarget, AccountProbe;
    match op
    case DoPost(p) => PostKeeps(b, p);
    case DoSetTarget(t) => SetTargetKeeps(b, t);
    case DoAccountProbe(c) => ProbeKeeps(b, c);
    case DoRecordRisk(provider, currency, attempt, at) =>
      if RecordRisk(b, provider, currency, attempt, at) != b { RiskKeeps(b, Risk(provider, currency, None, attempt, at, None)); }
  }

  lemma EmptyIsValid()
    ensures Valid(EMPTY)
  {
    forall a ensures AccountOk(EMPTY, a) {}
  }

  lemma {:induction false} RunKeeps(b: Books, ops: seq<Op>)
    requires Valid(b) && forall i :: 0 <= i < |ops| ==> Proper(ops[i])
    ensures Valid(Run(b, ops))
  {
    if ops != [] {
      RunKeeps(b, ops[..|ops| - 1]);
      ApplyKeeps(Run(b, ops[..|ops| - 1]), ops[|ops| - 1]);
    }
  }

  // ----- nothing written is taken back

  /** Entries and probes are only added, and a reconciled risk stays as it is. */
  predicate Grows(b: Books, b': Books) {
    && b.entries <= b'.entries && b.probes <= b'.probes && |b.risks| <= |b'.risks|
    && forall i :: 0 <= i < |b.risks| ==>
         b'.risks[i] == b.risks[i] || (b.risks[i].reconciledBy.None? && b'.risks[i] == b.risks[i].(reconciledBy := b'.risks[i].reconciledBy))
  }

  lemma ApplyGrows(b: Books, op: Op)
    ensures Grows(b, Apply(b, op))
  {
    hide ReliableCost, ProbeKey, ProbePosting, Adjustment;
    match op
    case DoPost(p) =>
    case DoSetTarget(t) =>
    case DoAccountProbe(c) =>
    case DoRecordRisk(provider, currency, attempt, at) =>
  }

  lemma GrowsOn(b: Books, m: Books, b': Books)
    requires Grows(b, m) && Grows(m, b')
    ensures Grows(b, b')
  {}

  lemma {:induction false} RunGrows(b: Books, ops: seq<Op>)
    ensures Grows(b, Run(b, ops))
  {
    if ops != [] {
      hide Apply, Grows;
      var m := Run(b, ops[..|ops| - 1]);
      RunGrows(b, ops[..|ops| - 1]);
      ApplyGrows(m, ops[|ops| - 1]);
      GrowsOn(b, m, Run(b, ops));
    }
  }

  lemma FoundStays(entries: seq<Entry>, entries': seq<Entry>, key: string, n: nat)
    requires entries <= entries' && EntriesOk(entries') && n < |entries| && entries[n].key == key
    ensures FindEntry(entries', key) == Some(n)
  {
    var m := FindEntry(entries', key).value;
    assert KeysApart(entries', m, n) && KeysApart(entries', n, m);
  }

  // ----- the guarantees

  /** After every run each balance is the account's credits minus its debits; it may be negative. */
  lemma BalancesAddUp(ops: seq<Op>, a: Account)
    requires forall i :: 0 <= i < |ops| ==> Proper(ops[i])
    ensures BalanceOf(Run(EMPTY, ops), a) == Net(Run(EMPTY, ops).entries, a)
  {
    EmptyIsValid();
    RunKeeps(EMPTY, ops);
    assert AccountOk(Run(EMPTY, ops), a);
  }

  /** A probe is accounted at most once: one debit, or one risk, or neither, and the debit is its recorded cost. */
  lemma ProbeAccountedOnce(ops: seq<Op>, n: nat, i: nat, j: nat)
    requires forall k :: 0 <= k < |ops| ==> Proper(ops[k])
    ensures var b := Run(EMPTY, ops);
      && (i < |b.entries| && b.entries[i].source == FromProbe(n) ==> n < |b.probes| && b.probes[n].cost == Some(b.entries[i].amount))
      && (i < j < |b.entries| && b.entries[i].source == FromProbe(n) ==> b.entries[j].source != FromProbe(n))
      && (i < j < |b.risks| && b.risks[i].probe == Some(n) ==> b.risks[j].probe != Some(n))
      && !(i < |b.entries| && b.entries[i].source == FromProbe(n) && j < |b.risks| && b.risks[j].probe == Some(n))
  {
    EmptyIsValid();
    RunKeeps(EMPTY, ops);
    var b := Run(EMPTY, ops);
    assert DebitOk(b, i) && RiskOk(b, j) && ProbesApart(b.entries, i, j) && RisksApart(b.risks, i, j);
  }

  /** A probe that was accounted is never accounted again under its key: the call writes nothing. */
  lemma ProbeIsIdempotent(b: Books, c: ProbeCall, b': Books, n: nat, ops: seq<Op>, again: ProbeCall)
    requires Valid(b) && AccountProbe(b, c) == (b', Ok(n)) && again.key == c.key && ValidProbe(again)
    requires forall i :: 0 <= i < |ops| ==> Proper(ops[i])
    ensures var later := Run(b', ops);
      n < |later.probes| && AccountProbe(later, again) == (later, if SameProbe(later.probes[n], again) then Ok(n) else Conflict)
  {
    AccountedIsRecorded(b, c, b', n);
    ProbeKeeps(b, c);
    RunKeeps(b', ops);
    RunGrows(b', ops);
    RepeatedProbe(Run(b', ops), n, again);
  }

  lemma AccountedIsRecorded(b: Books, c: ProbeCall, b': Books, n: nat)
    requires AccountProbe(b, c) == (b', Ok(n))
    ensures n < |b'.probes| && b'.probes[n].key == c.key
  {
    hide ReliableCost, ProbeKey, SourceFree;
  }

  lemma RepeatedProbe(b: Books, n: nat, again: ProbeCall)
    requires ProbesOk(b) && n < |b.probes| && again.key == b.probes[n].key && ValidProbe(again)
    ensures AccountProbe(b, again) == (b, if SameProbe(b.probes[n], again) then Ok(n) else Conflict)
  {
    ProbeFound(b, n);
  }

  lemma ProbeFound(b: Books, n: nat)
    requires ProbesOk(b) && n < |b.probes|
    ensures FindProbe(b.probes, b.probes[n].key) == Some(n)
  {
    var m := FindProbe(b.probes, b.probes[n].key).value;
    assert ProbeKeysApart(b.probes, m, n) && ProbeKeysApart(b.probes, n, m);
  }

  // ----- the target balance

  /** A call that writes. */
  predicate Sets(b: Books, t: Target, b': Books, e: Entry) {
    FindEntry(b.entries, t.key).None? && SetTarget(b, t) == (b', Ok(e))
  }

  lemma AdjustmentLands(before: int, target: real, amount: int, after: int)
    requires var delta := target * SCALE - before as real;
      amount == RoundHalfUp(if delta > 0.0 then delta else -delta) && after == (if delta > 0.0 then before + amount else before - amount)
    ensures FromUnits(after) == target <==> Exact(target)
  {
    var delta := target * SCALE - before as real;
    if Exact(target) {
      var k := (target * SCALE).Floor;
      RoundingKeepsIntegers(if delta > 0.0 then delta else -delta, if delta > 0.0 then k - before else before - k);
      assert after == k;
      assert FromUnits(after) * SCALE == target * SCALE;
    }
    UnitsAreExact(after);
  }

  lemma UnitsAreExact(n: int)
    ensures Exact(FromUnits(n))
  {
    assert FromUnits(n) * SCALE == n as real;
  }

  /** The balance ends exactly on the target if and only if the target has at most ten decimals. */
  lemma TargetIsReachedIff(b: Books, t: Target, b': Books, e: Entry)
    requires Sets(b, t, b', e)
    ensures BalanceOf(b', t.account) == e.after && e.before == BalanceOf(b, t.account) && e.account == t.account
    ensures FromUnits(BalanceOf(b', t.account)) == t.balance <==> Exact(t.balance)
    ensures forall a :: a != t.account ==> BalanceOf(b', a) == BalanceOf(b, a)
  {
    AdjustmentLands(BalanceOf(b, t.account), t.balance, e.amount, e.after);
  }

  /** An exact target is reached unless the key is taken, the balance is there already, or it does not fit. */
  lemma ExactTargetSucceedsIff(b: Books, t: Target)
    requires Exact(t.balance) && t.account.currency != "" && t.key != "" && t.reason != "" && FindEntry(b.entries, t.key).None?
    ensures var goal := (t.balance * SCALE).Floor; var before := BalanceOf(b, t.account);
      SetTarget(b, t).1.Ok? <==> goal != before && Fits(goal) && Fits(goal - before)
  {
    var goal, before := (t.balance * SCALE).Floor, BalanceOf(b, t.account);
    var delta := Delta(b, t);
    assert delta == (goal - before) as real;
    RoundingKeepsIntegers(if delta > 0.0 then delta else -delta, if delta > 0.0 then goal - before else before - goal);
  }

  /**
   Repeating the call with its key writes nothing at any later time.  It answers the first
   entry if and only if the target has at most ten decimals; otherwise the retry of a
   successful call is turned down.
   */
  lemma TargetRetry(b: Books, t: Target, b': Books, e: Entry, ops: seq<Op>)
    requires Valid(b) && Sets(b, t, b', e) && forall i :: 0 <= i < |ops| ==> Proper(ops[i])
    ensures var later := Run(b', ops);
      SetTarget(later, t) == (later, if Exact(t.balance) then Ok(e) else Conflict)
  {
    SetTargetKeeps(b, t);
    RunKeeps(b', ops);
    RunGrows(b', ops);
    assert b'.entries[|b.entries|] == e && e.key == t.key;
    FoundStays(b'.entries, Run(b', ops).entries, t.key, |b.entries|);
    AdjustmentLands(BalanceOf(b, t.account), t.balance, e.amount, e.after);
  }

  /** An adjustment closes exactly the open risks of its account that were there when the call started. */
  lemma TargetReconcilesRisks(b: Books, t: Target, b': Books, e: Entry, i: nat)
    requires Sets(b, t, b', e) && i < |b.risks|
    ensures |b'.risks| == |b.risks| && b'.entries[|b.entries|..] == [e]
    ensures b'.risks[i] == if Reconcilable(b.risks[i], t) then b.risks[i].(reconciledBy := Some(|b.entries|)) else b.risks[i]
  {}
}
