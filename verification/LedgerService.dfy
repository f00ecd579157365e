/**
 The ledger service statement by statement: every operation is a transaction over the
 database that either commits what the ledger function says or rolls back.
 */
module LedgerService {
  import opened Common
  import opened Ledger

  datatype Insert = Inserted | Duplicate | Rejected

  class Database {
    var balances: map<Account, Balance>
    var entries: seq<Entry>
    var reservations: seq<Reservation>
    var exceptions: map<nat, BillingException>

    function View(): Books
      reads this
    {
      Books(balances, entries, reservations, exceptions)
    }

    constructor ()
      ensures View() == EMPTY
    {
      balances, entries, reservations, exceptions := map[], [], [], map[];
    }

    // ----- statements

    method Rollback(b: Books)
      modifies this
      ensures View() == b
    {
      balances, entries, reservations, exceptions := b.balances, b.entries, b.reservations, b.exceptions;
    }

    method CreateEntry(e: Entry) returns (r: Insert)
      modifies `entries
      ensures r == if !Storable(e.amount, e.key) then Rejected else if FindEntry(old(entries), e.key).Some? then Duplicate else Inserted
      ensures entries == if r.Inserted? then old(entries) + [e] else old(entries)
    {
      if !Storable(e.amount, e.key) { return Rejected; }
      if FindEntry(entries, e.key).Some? { return Duplicate; }
      entries := entries + [e];
      r := Inserted;
    }

    /** Creates an empty row when the account has none. */
    method EnsureBalance(a: Account)
      modifies `balances
      ensures a in balances && balances == old(balances)[a := BalanceOf(old(View()), a)]
    {
      if a !in balances { balances := balances[a := Balance(0, 0)]; }
      assert balances == balances[a := balances[a]];
    }

    method AddBalance(a: Account, amount: int) returns (row: Option<Balance>)
      requires a in balances
      modifies `balances
      ensures row.None? <==> old(balances[a]).balance + amount >= LIMIT
      ensures row.Some? ==> row.value == old(balances[a]).(balance := old(balances[a]).balance + amount) && balances == old(balances)[a := row.value]
    {
      var after := balances[a].(balance := balances[a].balance + amount);
      if after.balance >= LIMIT { return None; }
      balances := balances[a := after];
      row := Some(after);
    }

    /** Takes from what is not reserved, or changes nothing. */
    method SubtractBalance(a: Account, amount: int) returns (row: Option<Balance>)
      requires a in balances
      modifies `balances
      ensures row.Some? <==> old(balances[a]).balance >= amount && old(balances[a]).Available() >= amount
      ensures row.Some? ==> row.value == old(balances[a]).(balance := old(balances[a]).balance - amount) && balances == old(balances)[a := row.value]
      ensures row.None? ==> balances == old(balances)
    {
      if balances[a].balance < amount || balances[a].Available() < amount { return None; }
      row := Some(balances[a].(balance := balances[a].balance - amount));
      balances := balances[a := row.value];
    }

    /** Reserves what is asked, or what is left of it; nothing when nothing is left. */
    method ReserveAvailable(a: Account, estimated: int) returns (authorized: Option<int>)
      modifies `balances
      ensures authorized.Some? <==> a in old(balances) && Min(old(balances[a]).Available(), estimated) > 0
      ensures authorized.Some? ==>
                authorized.value == Min(old(balances[a]).Available(), estimated) &&
                balances == old(balances)[a := old(balances[a]).(reserved := old(balances[a]).reserved + authorized.value)]
      ensures authorized.None? ==> balances == old(balances)
    {
      if a !in balances { return None; }
      var amount := Min(balances[a].Available(), estimated);
      if amount <= 0 { return None; }
      balances := balances[a := balances[a].(reserved := balances[a].reserved + amount)];
      authorized := Some(amount);
    }

    method CaptureReserved(a: Account, captured: int, authorized: int) returns (row: Option<Balance>)
      requires a in balances
      modifies `balances
      ensures row.Some? <==> old(balances[a]).reserved >= authorized && old(balances[a]).balance >= captured
      ensures row.Some? ==>
                row.value == Balance(old(balances[a]).balance - captured, old(balances[a]).reserved - authorized) &&
                balances == old(balances)[a := row.value]
      ensures row.None? ==> balances == old(balances)
    {
      if balances[a].reserved < authorized || balances[a].balance < captured { return None; }
      row := Some(Balance(balances[a].balance - captured, balances[a].reserved - authorized));
      balances := balances[a := row.value];
    }

    /** Collects what the actual amount exceeds the authorized one by, as far as the balance goes. */
    method CollectBalanceOverage(a: Account, actual: int, authorized: int) returns (collected: int, row: Balance)
      requires a in balances
      modifies `balances
      ensures collected == Max(Min(old(balances[a]).Available(), actual - authorized), 0)
      ensures row == old(balances[a]).(balance := old(balances[a]).balance - collected) && balances == old(balances)[a := row]
    {
      collected := Max(Min(balances[a].Available(), actual - authorized), 0);
      row := balances[a].(balance := balances[a].balance - collected);
      balances := balances[a := row];
    }

    // ----- operations

    method PostCredit(p: Posting) returns (result: Result<Entry>)
      modifies this
      ensures (View(), result) == Ledger.PostCredit(old(View()), p)
    {
      var seen := FindEntry(entries, p.key);
      if seen.Some? { return if SamePosting(entries[seen.value], p) then Ok(entries[seen.value]) else Conflict; }
      var begun := View();
      EnsureBalance(p.account);
      var before := balances[p.account];
      var after := AddBalance(p.account, p.amount);
      if after.None? {
        Rollback(begun);
        return StoreFailed;
      }
      var entry := PostingEntry(p, before.balance, after.value.balance);
      var inserted := CreateEntry(entry);
      if !inserted.Inserted? {
        Rollback(begun);
        return StoreFailed;
      }
      assert balances == begun.balances[p.account := after.value];
      result := Ok(entry);
    }

    method PostDebit(p: Posting) returns (result: Result<Entry>)
      modifies this
      ensures (View(), result) == Ledger.PostDebit(old(View()), p)
    {
      var seen := FindEntry(entries, p.key);
      if seen.Some? { return if SamePosting(entries[seen.value], p) then Ok(entries[seen.value]) else Conflict; }
      if p.account !in balances { return Insufficient; }
      var begun := View();
      var before := balances[p.account];
      var after := SubtractBalance(p.account, p.amount);
      if after.None? { return Insufficient; }
      var entry := PostingEntry(p, before.balance, after.value.balance);
      var inserted := CreateEntry(entry);
      if !inserted.Inserted? {
        Rollback(begun);
        return StoreFailed;
      }
      result := Ok(entry);
    }

    method PreAuthorize(h: Hold) returns (result: Result<Reservation>)
      modifies this
      ensures (View(), result) == Ledger.PreAuthorize(old(View()), h)
    {
      if h.estimated <= 0 { return InvalidAmount; }
      var seen := FindByKey(reservations, h.key);
      if seen.Some? { return if SameHold(reservations[seen.value], h) then Ok(reservations[seen.value]) else Conflict; }
      if h.estimated >= LIMIT { return StoreFailed; }
      var begun := View();
      var authorized := ReserveAvailable(h.account, h.estimated);
      if authorized.None? { return Insufficient; }
      if h.key == "" || FindByRequest(reservations, h.request).Some? {
        Rollback(begun);
        return if h.key == "" then StoreFailed else Conflict;
      }
      var r := Reservation(h.account, h.request, Authorized, h.estimated, authorized.value, 0, 0, None, h.key);
      reservations := reservations + [r];
      result := Ok(r);
    }

    method Capture(c: Bill) returns (result: Result<Settlement>)
      modifies this
      ensures (View(), result) == Ledger.Capture(old(View()), c)
    {
      if c.actual <= 0 { return InvalidAmount; }
      var found := FindByRequest(reservations, c.request);
      if found.None? { return NotFound; }
      if c.reservation.Some? && c.reservation != found { return Conflict; }
      match reservations[found.value].status {
        case Captured => result := ReplayCapture(View(), c, found.value);
        case Released => result := Conflict;
        case Authorized =>
          var begun := View();
          result := FirstCapture(c, found.value);
          if !result.Ok? { Rollback(begun); }
      }
    }

    /** Leaves the transaction to its caller, who rolls it back on failure. */
    method FirstCapture(c: Bill, i: nat) returns (result: Result<Settlement>)
      requires c.actual > 0 && i < |reservations|
      modifies this
      ensures result == Ledger.FirstCapture(old(View()), c, i).1
      ensures result.Ok? ==> View() == Ledger.FirstCapture(old(View()), c, i).0
    {
      var r := reservations[i];
      var captured := Min(c.actual, r.authorized);
      var held := CaptureHold(c, i);
      if !held.Ok? { return WithoutValue(held); }
      if c.actual <= r.authorized { return Ok(Settlement(held.value, 0)); }
      var overage := CollectOverage(c, i, captured);
      result := if overage.Ok? then Ok(Settlement(held.value, overage.value)) else WithoutValue(overage);
    }

    /** The debit of the reserved part: balance, entry and reservation. */
    method CaptureHold(c: Bill, i: nat) returns (result: Result<Reservation>)
      requires i < |reservations|
      modifies this
      ensures var b := old(View()); var r := b.reservations[i]; var captured := Min(c.actual, r.authorized);
        result ==
          if r.account !in b.balances || b.balances[r.account].reserved < r.authorized || b.balances[r.account].balance < captured then StoreFailed
          else if !Storable(captured, c.key) then StoreFailed
          else if FindEntry(b.entries, c.key).Some? then Conflict
          else Ok(AfterHold(b, c, i).reservations[i])
      ensures result.Ok? ==> View() == AfterHold(old(View()), c, i)
    {
      var r := reservations[i];
      var captured := Min(c.actual, r.authorized);
      if r.account !in balances { return StoreFailed; }
      var before := balances[r.account];
      var after := CaptureReserved(r.account, captured, r.authorized);
      if after.None? { return StoreFailed; }
      var n := |entries|;
      var inserted := CreateEntry(Entry(r.account, Some(r.request), Debit, captured, before.balance, after.value.balance, c.key));
      if !inserted.Inserted? { return if inserted.Duplicate? then Conflict else StoreFailed; }
      var ended := r.(status := Captured, captured := captured, released := r.authorized - captured, entry := Some(n));
      reservations := reservations[i := ended];
      result := Ok(ended);
    }

    method CollectOverage(c: Bill, i: nat, captured: int) returns (result: Result<int>)
      requires i < |reservations| && reservations[i].account in balances && c.actual > reservations[i].authorized > 0
      modifies this
      ensures result == Ledger.CollectOverage(old(View()), c, i, captured).1
      ensures result.Ok? ==> View() == Ledger.CollectOverage(old(View()), c, i, captured).0
    {
      var r := reservations[i];
      if c.actual >= LIMIT { return StoreFailed; }
      var before := balances[r.account];
      var collected, after := CollectBalanceOverage(r.account, c.actual, r.authorized);
      if collected > 0 {
        var inserted := CreateEntry(Entry(r.account, Some(r.request), Debit, collected, before.balance, after.balance, OverageKey(c.key)));
        if !inserted.Inserted? { return if inserted.Duplicate? then Conflict else StoreFailed; }
      }
      if c.actual > captured + collected {
        if i in exceptions { return StoreFailed; }
        exceptions := exceptions[i := WriteOff(c.actual, captured + collected, c.actual - captured - collected)];
      }
      result := Ok(collected);
    }

    method Release(request: int, reservation: Option<nat>) returns (result: Result<nat>)
      modifies this
      ensures (View(), result) == Ledger.Release(old(View()), request, reservation)
    {
      var found := FindByRequest(reservations, request);
      if found.None? { return NotFound; }
      if reservation.Some? && reservation != found { return Conflict; }
      var i := found.value;
      var r := reservations[i];
      match r.status {
        case Released => return Ok(i);
        case Captured => return Conflict;
        case Authorized =>
      }
      if r.account !in balances || balances[r.account].reserved < r.authorized { return StoreFailed; }
      balances := balances[r.account := balances[r.account].(reserved := balances[r.account].reserved - r.authorized)];
      reservations := reservations[i := r.(status := Released, released := r.authorized)];
      result := Ok(i);
    }

    method ReleaseWithException(request: int, reservation: Option<nat>) returns (result: Result<nat>)
      modifies this
      ensures (View(), result) == Ledger.ReleaseWithException(old(View()), request, reservation)
    {
      result := Release(request, reservation);
      if result.Ok? && result.value !in exceptions {
        exceptions := exceptions[result.value := RiskExposure(reservations[result.value].authorized)];
      }
    }
  }
}
