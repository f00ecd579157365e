/** What every operation on the ledger keeps true. */
module LedgerInvariant {
  import opened Common
  import opened Ledger

  function Signed(e: Entry): int {
    if e.kind.Adds() then e.amount else -e.amount
  }

  /** Credits minus debits of one account. */
  function Net(entries: seq<Entry>, a: Account): int {
    if entries == [] then 0
    else
      var last := entries[|entries| - 1];
      Net(entries[..|entries| - 1], a) + if last.account == a then Signed(last) else 0
  }

  function Open(r: Reservation, a: Account): int {
    if r.status.Authorized? && r.account == a then r.authorized else 0
  }

  /** The sum of the authorized amounts of the open reservations of one account. */
  function OpenSum(rs: seq<Reservation>, a: Account): int {
    if rs == [] then 0 else OpenSum(rs[..|rs| - 1], a) + Open(rs[|rs| - 1], a)
  }

  /** An entry starts from what its account had and ends at what it then has. */
  predicate ChainOk(entries: seq<Entry>, i: nat) {
    i < |entries| ==>
      var e := entries[i];
      e.amount > 0 && e.before == Net(entries[..i], e.account) && e.after == e.before + Signed(e)
  }

  predicate KeysApart(entries: seq<Entry>, i: nat, j: nat) {
    i < j < |entries| ==> entries[i].key != entries[j].key
  }

  ghost predicate EntriesOk(entries: seq<Entry>) {
    && (forall i {:trigger ChainOk(entries, i)} :: ChainOk(entries, i))
    && (forall i, j {:trigger KeysApart(entries, i, j)} :: KeysApart(entries, i, j))
  }

  predicate ReservationOk(b: Books, i: nat) {
    i < |b.reservations| ==>
      var r := b.reservations[i];
      && 0 < r.authorized <= r.estimated
      && match r.status
         case Authorized => r.captured == 0 && r.released == 0 && r.entry.None? && i !in b.exceptions
         case Captured =>
           && 0 < r.captured && r.captured + r.released == r.authorized && r.released >= 0
           && r.entry.Some? && r.entry.value < |b.entries|
           && var e := b.entries[r.entry.value]; e.account == r.account && e.request == Some(r.request) && e.kind.Debit? && e.amount == r.captured
         case Released => r.captured == 0 && r.released == r.authorized && r.entry.None?
  }

  predicate RequestsApart(rs: seq<Reservation>, i: nat, j: nat) {
    i < j < |rs| ==> rs[i].request != rs[j].request && rs[i].key != rs[j].key
  }

  predicate ExceptionOk(b: Books, i: nat) {
    i in b.exceptions ==>
      i < |b.reservations| &&
      var r := b.reservations[i];
      match b.exceptions[i]
      case WriteOff(actual, captured, platform) =>
        r.status.Captured? && r.captured == r.authorized <= captured < actual && platform == actual - captured
      case RiskExposure(platform) => r.status.Released? && platform == r.authorized
  }

  ghost predicate ReservationsOk(b: Books) {
    && (forall i {:trigger ReservationOk(b, i)} :: ReservationOk(b, i))
    && (forall i, j {:trigger RequestsApart(b.reservations, i, j)} :: RequestsApart(b.reservations, i, j))
    && (forall i {:trigger ExceptionOk(b, i)} :: ExceptionOk(b, i))
  }

  /** The balance row of an account is what its entries and its open reservations say. */
  predicate AccountOk(b: Books, a: Account) {
    var row := BalanceOf(b, a);
    row.balance == Net(b.entries, a) && row.reserved == OpenSum(b.reservations, a) && 0 <= row.reserved <= row.balance < LIMIT
  }

  ghost predicate Valid(b: Books) {
    && EntriesOk(b.entries) && ReservationsOk(b)
    && forall a {:trigger AccountOk(b, a)} :: AccountOk(b, a)
  }

  // ----- sums

  lemma NetAppend(entries: seq<Entry>, e: Entry, a: Account)
    ensures Net(entries + [e], a) == Net(entries, a) + if e.account == a then Signed(e) else 0
  {
    assert (entries + [e])[..|entries|] == entries;
  }

  lemma OpenSumAppend(rs: seq<Reservation>, r: Reservation, a: Account)
    ensures OpenSum(rs + [r], a) == OpenSum(rs, a) + Open(r, a)
  {
    assert (rs + [r])[..|rs|] == rs;
  }

  lemma {:induction false} OpenSumUpdate(rs: seq<Reservation>, i: nat, r: Reservation, a: Account)
    requires i < |rs|
    ensures OpenSum(rs[i := r], a) == OpenSum(rs, a) - Open(rs[i], a) + Open(r, a)
  {
    var front := rs[..|rs| - 1];
    if i == |rs| - 1 {
      assert rs[i := r][..|rs| - 1] == front;
    } else {
      assert rs[i := r][..|rs| - 1] == front[i := r];
      OpenSumUpdate(front, i, r, a);
    }
  }

  lemma {:induction false} OpenSumCovers(rs: seq<Reservation>, i: nat, a: Account)
    requires i < |rs| && forall j :: 0 <= j < |rs| ==> Open(rs[j], a) >= 0
    ensures 0 <= Open(rs[i], a) <= OpenSum(rs, a)
  {
    OpenSumNonNegative(rs[..|rs| - 1], a);
    if i < |rs| - 1 { OpenSumCovers(rs[..|rs| - 1], i, a); }
  }

  lemma {:induction false} OpenSumNonNegative(rs: seq<Reservation>, a: Account)
    requires forall j :: 0 <= j < |rs| ==> Open(rs[j], a) >= 0
    ensures OpenSum(rs, a) >= 0
  {
    if rs != [] { OpenSumNonNegative(rs[..|rs| - 1], a); }
  }

  // ----- pieces of an operation

  /** A new entry, with the balance row moved to its end. */
  lemma EntryKeeps(b: Books, e: Entry, row: Balance)
    requires Valid(b) && FindEntry(b.entries, e.key).None? && e.amount > 0
    requires e.before == BalanceOf(b, e.account).balance && e.after == e.before + Signed(e) == row.balance
    requires row.reserved == BalanceOf(b, e.account).reserved <= row.balance < LIMIT
    ensures Valid(b.(balances := b.balances[e.account := row], entries := b.entries + [e]))
  {
    var b' := b.(balances := b.balances[e.account := row], entries := b.entries + [e]);
    AppendEntryOk(b, e);
    forall i: nat ensures ReservationOk(b', i) { assert ReservationOk(b, i); }
    forall i: nat ensures ExceptionOk(b', i) { assert ExceptionOk(b, i); }
    forall a ensures AccountOk(b', a) { assert AccountOk(b, a); NetAppend(b.entries, e, a); }
  }

  lemma AppendEntryOk(b: Books, e: Entry)
    requires EntriesOk(b.entries) && AccountOk(b, e.account)
    requires FindEntry(b.entries, e.key).None? && e.amount > 0
    requires e.before == BalanceOf(b, e.account).balance && e.after == e.before + Signed(e)
    ensures EntriesOk(b.entries + [e])
  {
    var es := b.entries + [e];
    forall i: nat ensures ChainOk(es, i) {
      assert ChainOk(b.entries, i);
      if i < |b.entries| { assert es[..i] == b.entries[..i]; } else if i == |b.entries| { assert es[..i] == b.entries; }
    }
    forall i: nat, j: nat ensures KeysApart(es, i, j) { assert KeysApart(b.entries, i, j); }
  }

  lemma CreditKeeps(b: Books, p: Posting)
    requires Valid(b) && p.kind.Adds()
    ensures Valid(PostCredit(b, p).0)
  {
    var before := BalanceOf(b, p.account);
    assert AccountOk(b, p.account);
    if PostCredit(b, p).0 != b {
      EntryKeeps(b, PostingEntry(p, before.balance, before.balance + p.amount), before.(balance := before.balance + p.amount));
    }
  }

  lemma DebitKeeps(b: Books, p: Posting)
    requires Valid(b) && !p.kind.Adds()
    ensures Valid(PostDebit(b, p).0)
  {
    var before := BalanceOf(b, p.account);
    assert AccountOk(b, p.account);
    if PostDebit(b, p).0 != b {
      EntryKeeps(b, PostingEntry(p, before.balance, before.balance - p.amount), before.(balance := before.balance - p.amount));
    }
  }

  lemma PreAuthorizeKeeps(b: Books, h: Hold)
    requires Valid(b)
    ensures Valid(PreAuthorize(b, h).0)
  {
    var b' := PreAuthorize(b, h).0;
    if b' != b {
      var r := b'.reservations[|b.reservations|];
      assert AccountOk(b, h.account);
      forall i: nat ensures ReservationOk(b', i) { assert ReservationOk(b, i) && ExceptionOk(b, i); }
      forall i: nat, j: nat ensures RequestsApart(b'.reservations, i, j) { assert RequestsApart(b.reservations, i, j); }
      forall i: nat ensures ExceptionOk(b', i) { assert ExceptionOk(b, i); }
      forall a ensures AccountOk(b', a) { assert AccountOk(b, a); OpenSumAppend(b.reservations, r, a); }
    }
  }

  /** The reserved amount of an account covers each of its open reservations. */
  lemma HoldIsCovered(b: Books, i: nat)
    requires Valid(b) && i < |b.reservations| && b.reservations[i].status.Authorized?
    ensures var r := b.reservations[i]; r.account in b.balances && 0 < r.authorized <= b.balances[r.account].reserved <= b.balances[r.account].balance
  {
    var a := b.reservations[i].account;
    assert AccountOk(b, a) && ReservationOk(b, i);
    forall j | 0 <= j < |b.reservations| ensures Open(b.reservations[j], a) >= 0 { assert ReservationOk(b, j); }
    OpenSumCovers(b.reservations, i, a);
  }

  lemma ReleaseKeeps(b: Books, request: int, reservation: Option<nat>)
    requires Valid(b)
    ensures Valid(Release(b, request, reservation).0)
  {
    var b' := Release(b, request, reservation).0;
    if b' != b {
      var i := FindByRequest(b.reservations, request).value;
      var r := b.reservations[i];
      HoldIsCovered(b, i);
      assert ReservationOk(b, i);
      forall j: nat ensures ReservationOk(b', j) { assert ReservationOk(b, j); }
      forall j: nat, k: nat ensures RequestsApart(b'.reservations, j, k) { assert RequestsApart(b.reservations, j, k); }
      forall j: nat ensures ExceptionOk(b', j) { assert ExceptionOk(b, j); }
      forall a ensures AccountOk(b', a) {
        assert AccountOk(b, a);
        OpenSumUpdate(b.reservations, i, b'.reservations[i], a);
      }
    }
  }

  lemma ReleaseWithExceptionKeeps(b: Books, request: int, reservation: Option<nat>)
    requires Valid(b)
    ensures Valid(ReleaseWithException(b, request, reservation).0)
  {
    ReleaseKeeps(b, request, reservation);
    var (b', result) := Release(b, request, reservation);
    var b'' := ReleaseWithException(b, request, reservation).0;
    if b'' != b' {
      forall j: nat ensures ReservationOk(b'', j) { assert ReservationOk(b', j); }
      forall j: nat ensures ExceptionOk(b'', j) { assert ExceptionOk(b', j) && ReservationOk(b', j); }
      forall a ensures AccountOk(b'', a) { assert AccountOk(b', a); }
    }
  }

  // ----- capture

  lemma HoldKeeps(b: Books, c: Bill, i: nat)
    requires Valid(b) && i < |b.reservations| && b.reservations[i].status.Authorized?
    requires c.actual > 0 && FindEntry(b.entries, c.key).None?
    ensures b.reservations[i].account in b.balances && Valid(AfterHold(b, c, i)) && i !in b.exceptions
  {
    HoldIsCovered(b, i);
    assert ReservationOk(b, i);
    var r := b.reservations[i];
    var b' := AfterHold(b, c, i);
    var debit := b'.entries[|b.entries|];
    assert AccountOk(b, r.account);
    AppendEntryOk(b, debit);
    HoldReservations(b, c, i);
    forall a ensures AccountOk(b', a) {
      assert AccountOk(b, a);
      NetAppend(b.entries, debit, a);
      OpenSumUpdate(b.reservations, i, b'.reservations[i], a);
    }
  }

  lemma HoldReservations(b: Books, c: Bill, i: nat)
    requires ReservationsOk(b) && i < |b.reservations| && b.reservations[i].status.Authorized? && c.actual > 0
    requires b.reservations[i].account in b.balances
    ensures ReservationsOk(AfterHold(b, c, i))
  {
    var b' := AfterHold(b, c, i);
    assert ReservationOk(b, i);
    forall j: nat ensures ReservationOk(b', j) { assert ReservationOk(b, j); }
    forall j: nat, k: nat ensures RequestsApart(b'.reservations, j, k) { assert RequestsApart(b.reservations, j, k); }
    forall j: nat ensures ExceptionOk(b', j) { assert ExceptionOk(b, j); }
  }

  lemma AfterOverageKeeps(b: Books, c: Bill, i: nat, overage: int)
    requires Valid(b) && i < |b.reservations| && b.reservations[i].account in b.balances
    requires overage > 0 ==> overage <= b.balances[b.reservations[i].account].Available() && FindEntry(b.entries, OverageKey(c.key)).None?
    ensures Valid(AfterOverage(b, c, i, overage))
  {
    var r := b.reservations[i];
    var before := b.balances[r.account];
    assert AccountOk(b, r.account);
    if overage > 0 {
      var debit := Entry(r.account, Some(r.request), Debit, overage, before.balance, before.balance - overage, OverageKey(c.key));
      EntryKeeps(b, debit, before.(balance := before.balance - overage));
    }
  }

  lemma OverageKeeps(b: Books, c: Bill, i: nat)
    requires Valid(b) && i < |b.reservations| && b.reservations[i].account in b.balances
    requires b.reservations[i].status.Captured? && b.reservations[i].captured == b.reservations[i].authorized < c.actual
    ensures Valid(CollectOverage(b, c, i, b.reservations[i].captured).0)
  {
    var r := b.reservations[i];
    var (b', result) := CollectOverage(b, c, i, r.captured);
    var overage := Max(Min(b.balances[r.account].Available(), c.actual - r.authorized), 0);
    if result.Ok? {
      AfterOverageKeeps(b, c, i, overage);
      var m := AfterOverage(b, c, i, overage);
      if c.actual > r.captured + overage { WriteOffKeeps(m, i, b'.exceptions[i]); }
    }
  }

  lemma WriteOffKeeps(b: Books, i: nat, x: BillingException)
    requires Valid(b) && i !in b.exceptions && ExceptionOk(b.(exceptions := b.exceptions[i := x]), i)
    requires i < |b.reservations| && !b.reservations[i].status.Authorized?
    ensures Valid(b.(exceptions := b.exceptions[i := x]))
  {
    var b' := b.(exceptions := b.exceptions[i := x]);
    forall j: nat ensures ReservationOk(b', j) { assert ReservationOk(b, j); }
    forall j: nat ensures ExceptionOk(b', j) { assert ExceptionOk(b, j); }
    forall a ensures AccountOk(b', a) { assert AccountOk(b, a); }
  }

  lemma CaptureKeeps(b: Books, c: Bill)
    requires Valid(b)
    ensures Valid(Capture(b, c).0)
  {
    if Capture(b, c).0 != b {
      var i := FindByRequest(b.reservations, c.request).value;
      HoldKeeps(b, c, i);
      if c.actual > b.reservations[i].authorized { OverageKeeps(AfterHold(b, c, i), c, i); }
    }
  }

  // ----- runs

  /** Every operation, whatever it answers, keeps the ledger valid. */
  lemma ApplyKeeps(b: Books, op: Op)
    requires Valid(b) && Proper(op)
    ensures Valid(Apply(b, op))
  {
    match op
    case DoCredit(p) => CreditKeeps(b, p);
    case DoDebit(p) => DebitKeeps(b, p);
    case DoPreAuthorize(h) => PreAuthorizeKeeps(b, h);
    case DoCapture(c) => CaptureKeeps(b, c);
    case DoRelease(request, reservation) => ReleaseKeeps(b, request, reservation);
    case DoReleaseWithException(request, reservation) => ReleaseWithExceptionKeeps(b, request, reservation);
  }

  lemma EmptyIsValid()
    ensures Valid(EMPTY)
  {
    forall a ensures AccountOk(EMPTY, a) {}
  }

  lemma {:induction false} RunKeeps(b: Books, ops: seq<Op>)
    requires Valid(b) && forall i :: 0 <= i < |ops| ==> Proper(ops[i])
    ensures Valid(Run(b, ops))
  {
    if ops != [] {
      RunKeeps(b, ops[..|ops| - 1]);
      ApplyKeeps(Run(b, ops[..|ops| - 1]), ops[|ops| - 1]);
    }
  }
}
