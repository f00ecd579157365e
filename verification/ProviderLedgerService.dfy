/** The provider ledger service statement by statement, each call one transaction. */
module ProviderLedgerService {
  import opened Money
  import opened ProviderLedger

  class Database {
    var balances: map<Account, int>
    var entries: seq<Entry>
    var probes: seq<Probe>
    var risks: seq<Risk>

    function View(): Books
      reads this
    {
      Books(balances, entries, probes, risks)
    }

    constructor ()
      ensures View() == EMPTY
    {
      balances, entries, probes, risks := map[], [], [], [];
    }

    method Rollback(b: Books)
      modifies this
      ensures View() == b
    {
      balances, entries, probes, risks := b.balances, b.entries, b.probes, b.risks;
    }

    /** Creates an empty row when the account has none. */
    method EnsureBalance(a: Account)
      modifies `balances
      ensures a in balances && balances == old(balances)[a := BalanceOf(old(View()), a)]
    {
      if a !in balances { balances := balances[a := 0]; }
      assert balances == balances[a := balances[a]];
    }

    /** The part of every posting behind the idempotency check; it leaves the transaction to its caller. */
    method WriteEntry(p: Posting) returns (result: Result<Entry>)
      modifies this
      ensures result == Write(old(View()), p).1
      ensures result.Ok? ==> View() == Write(old(View()), p).0
      ensures probes == old(probes) && risks == old(risks)
    {
      ghost var begun := View();
      EnsureBalance(p.account);
      var before := balances[p.account];
      var after := if p.kind.AdjustmentCredit? then before + p.amount else before - p.amount;
      if !Fits(after) { return StoreFailed; }
      balances := balances[p.account := after];
      assert balances == begun.balances[p.account := after];
      if !(0 < p.amount < LIMIT) || !SourceFree(entries, p.source) { return StoreFailed; }
      var entry := PostingEntry(p, before);
      entries := entries + [entry];
      result := Ok(entry);
    }

    method Post(p: Posting) returns (result: Result<Entry>)
      modifies this
      ensures (View(), result) == ProviderLedger.Post(old(View()), p)
    {
      if p.amount <= 0 { return InvalidAmount; }
      if !Filled(p) { return InvalidArgument; }
      var seen := FindEntry(entries, p.key);
      if seen.Some? { return if SamePosting(entries[seen.value], p) then Ok(entries[seen.value]) else Conflict; }
      var begun := View();
      result := WriteEntry(p);
      if !result.Ok? { Rollback(begun); }
    }

    /** The difference is computed under the lock of the balance row, and open risks are closed with the entry. */
    method SetTargetBalance(t: Target) returns (result: Result<Entry>)
      modifies this
      ensures (View(), result) == SetTarget(old(View()), t)
    {
      if t.account.currency == "" || t.key == "" || t.reason == "" { return InvalidArgument; }
      var seen := FindEntry(entries, t.key);
      if seen.Some? { return if SameTarget(entries[seen.value], t) then Ok(entries[seen.value]) else Conflict; }
      var begun := View();
      var delta := Delta(begun, t);
      if delta == 0.0 { return Unchanged; }
      var amount := RoundHalfUp(if delta > 0.0 then delta else -delta);
      var created := |entries|;
      result := WriteEntry(Posting(t.account, if delta > 0.0 then AdjustmentCredit else AdjustmentDebit, amount, t.key, t.reason, NoSource));
      if !result.Ok? {
        Rollback(begun);
        return;
      }
      risks := Reconcile(risks, t, created);
    }

    /** The record comes first; then the debit of a known cost, or a risk when there may be an unknown one. */
    method AccountProbe(c: ProbeCall) returns (result: Result<nat>)
      modifies this
      ensures (View(), result) == ProviderLedger.AccountProbe(old(View()), c)
    {
      hide ReliableCost, Write, ProbeKey;
      if !ValidProbe(c) { return InvalidArgument; }
      var seen := FindProbe(probes, c.key);
      if seen.Some? { return if SameProbe(probes[seen.value], c) then Ok(seen.value) else Conflict; }
      var begun := View();
      var cost := ReliableCost(c);
      var probe := |probes|;
      if cost.Some? && !StorableCost(c, cost.value) { return StoreFailed; }
      probes := probes + [Probe(c.provider, c.channel, c.origin, c.model, c.success, c.key, cost)];
      if cost.Some? && cost.value != 0 {
        var p := ProbePosting(c, probe, cost.value);
        var paid := FindEntry(entries, p.key);
        if paid.Some? {
          if SamePosting(entries[paid.value], p) { return Ok(probe); }
          Rollback(begun);
          return Conflict;
        }
        var entry := WriteEntry(p);
        if !entry.Ok? {
          Rollback(begun);
          return if entry.Conflict? then Conflict else StoreFailed;
        }
      } else if MayHaveCost(c) && cost.None? {
        risks := risks + [ProbeRisk(c, probe)];
      }
      result := Ok(probe);
    }
  }
}
