/** What the ledger guarantees over every run of operations, call by call and between calls. */
module LedgerRuns {
  import opened Common
  import opened Ledger
  import opened LedgerInvariant

  // ----- balances and entries

  function Credits(entries: seq<Entry>, a: Account): int {
    if entries == [] then 0
    else
      var last := entries[|entries| - 1];
      Credits(entries[..|entries| - 1], a) + if last.account == a && last.kind.Adds() then last.amount else 0
  }

  function Debits(entries: seq<Entry>, a: Account): int {
    if entries == [] then 0
    else
      var last := entries[|entries| - 1];
      Debits(entries[..|entries| - 1], a) + if last.account == a && !last.kind.Adds() then last.amount else 0
  }

  lemma {:induction false} NetIsCreditsMinusDebits(entries: seq<Entry>, a: Account)
    ensures Net(entries, a) == Credits(entries, a) - Debits(entries, a)
  {
    if entries != [] { NetIsCreditsMinusDebits(entries[..|entries| - 1], a); }
  }

  /**
   After every run of operations from empty books, whatever each of them answered: every
   balance is the account's credits minus its debits, its reserved part is the sum of its
   open reservations, and it covers that part, which is never negative.
   */
  lemma BalancesAddUp(ops: seq<Op>, a: Account)
    requires forall i :: 0 <= i < |ops| ==> Proper(ops[i])
    ensures var b := Run(EMPTY, ops); var row := BalanceOf(b, a);
      && row.balance == Credits(b.entries, a) - Debits(b.entries, a)
      && row.reserved == OpenSum(b.reservations, a)
      && 0 <= row.reserved <= row.balance
  {
    EmptyIsValid();
    RunKeeps(EMPTY, ops);
    assert AccountOk(Run(EMPTY, ops), a);
    NetIsCreditsMinusDebits(Run(EMPTY, ops).entries, a);
  }

  predicate NoneBetween(entries: seq<Entry>, a: Account, i: int, j: int) {
    forall k :: 0 <= k < |entries| && i < k < j ==> entries[k].account != a
  }

  lemma {:induction false} NetSkips(entries: seq<Entry>, a: Account, i: nat, j: nat)
    requires i <= j <= |entries| && NoneBetween(entries, a, i - 1, j)
    ensures Net(entries[..j], a) == Net(entries[..i], a)
    decreases j
  {
    if i < j {
      assert entries[..j][..j - 1] == entries[..j - 1];
      NetSkips(entries, a, i, j - 1);
    }
  }

  /** Where entry `i` of an account ended, or nothing before its first one. */
  function EndOf(b: Books, i: int): int
    requires -1 <= i < |b.entries|
  {
    if i >= 0 then b.entries[i].after else 0
  }

  /** Where entry `j` of an account starts, or its balance after the last one. */
  function StartOf(b: Books, a: Account, j: nat): int
    requires j <= |b.entries|
  {
    if j < |b.entries| then b.entries[j].before else BalanceOf(b, a).balance
  }

  /** `i` and `j` are neighbours among the entries of one account. */
  predicate Neighbours(entries: seq<Entry>, a: Account, i: int, j: nat) {
    && -1 <= i < j <= |entries| && NoneBetween(entries, a, i, j)
    && (i >= 0 ==> entries[i].account == a) && (j < |entries| ==> entries[j].account == a)
  }

  lemma ChainHolds(b: Books, a: Account, i: int, j: nat)
    requires EntriesOk(b.entries) && AccountOk(b, a) && Neighbours(b.entries, a, i, j)
    ensures EndOf(b, i) == StartOf(b, a, j)
  {
    assert ChainOk(b.entries, j);
    NetSkips(b.entries, a, i + 1, j);
    assert b.entries[..|b.entries|] == b.entries;
    if i >= 0 {
      assert ChainOk(b.entries, i);
      assert b.entries[..i + 1] == b.entries[..i] + [b.entries[i]];
      NetAppend(b.entries[..i], b.entries[i], a);
    } else {
      assert b.entries[..0] == [];
    }
  }

  /**
   The entries of an account form an unbroken chain: the first starts from nothing, each
   starts where the one before it ended, and the balance is where the last one ended.
   */
  lemma ChainIsUnbroken(ops: seq<Op>, a: Account, i: int, j: nat)
    requires forall i :: 0 <= i < |ops| ==> Proper(ops[i])
    requires Neighbours(Run(EMPTY, ops).entries, a, i, j)
    ensures EndOf(Run(EMPTY, ops), i) == StartOf(Run(EMPTY, ops), a, j)
  {
    EmptyIsValid();
    RunKeeps(EMPTY, ops);
    var b := Run(EMPTY, ops);
    assert AccountOk(b, a);
    ChainHolds(b, a, i, j);
  }

  // ----- what later operations leave alone

  /** Entries are only added, ended reservations and the exceptions of captured ones never change. */
  predicate Settled(b: Books, b': Books, i: nat) {
    i < |b.reservations| && !b.reservations[i].status.Authorized? ==>
      && i < |b'.reservations| && b'.reservations[i] == b.reservations[i]
      && (b.reservations[i].status.Captured? ==>
            (i in b'.exceptions <==> i in b.exceptions) && (i in b.exceptions ==> b'.exceptions[i] == b.exceptions[i]))
  }

  lemma ApplySettles(b: Books, op: Op, i: nat)
    ensures b.entries <= Apply(b, op).entries
    ensures Settled(b, Apply(b, op), i)
  {
    match op
    case DoCapture(c) => CaptureSettles(b, c, i);
    case _ =>
  }

  lemma CaptureSettles(b: Books, c: Bill, i: nat)
    ensures b.entries <= Capture(b, c).0.entries
    ensures Settled(b, Capture(b, c).0, i)
  {}

  lemma {:induction false} RunSettles(b: Books, ops: seq<Op>, i: nat)
    ensures b.entries <= Run(b, ops).entries
    ensures Settled(b, Run(b, ops), i)
  {
    if ops != [] {
      RunSettles(b, ops[..|ops| - 1], i);
      ApplySettles(Run(b, ops[..|ops| - 1]), ops[|ops| - 1], i);
    }
  }

  /** No later operation of any kind changes a captured or released reservation. */
  lemma EndedReservationsNeverChange(b: Books, ops: seq<Op>, i: nat)
    requires i < |b.reservations| && !b.reservations[i].status.Authorized?
    ensures i < |Run(b, ops).reservations| && Run(b, ops).reservations[i] == b.reservations[i]
  {
    RunSettles(b, ops, i);
  }

  /** A key that is taken is found at its place, however many entries follow. */
  lemma FoundStays(entries: seq<Entry>, entries': seq<Entry>, key: Key, n: nat)
    requires entries <= entries' && EntriesOk(entries') && n < |entries| && entries[n].key == key
    ensures FindEntry(entries', key) == Some(n)
  {
    var m := FindEntry(entries', key).value;
    assert KeysApart(entries', m, n) && KeysApart(entries', n, m);
  }

  /** A reservation is found by its request as long as the books are valid. */
  lemma RequestStays(b: Books, i: nat)
    requires ReservationsOk(b) && i < |b.reservations|
    ensures FindByRequest(b.reservations, b.reservations[i].request) == Some(i)
  {
    var m := FindByRequest(b.reservations, b.reservations[i].request).value;
    assert RequestsApart(b.reservations, m, i) && RequestsApart(b.reservations, i, m);
  }

  // ----- idempotent postings

  /**
   A credit or debit that succeeded once answers the same entry for ever after and moves
   nothing; the same key with any other posting is turned down and moves nothing.
   */
  lemma PostingIsIdempotent(b: Books, p: Posting, ops: seq<Op>, q: Posting)
    requires Valid(b) && p.kind.Adds() && PostCredit(b, p).1.Ok? && q.key == p.key
    requires forall i :: 0 <= i < |ops| ==> Proper(ops[i])
    ensures var e := PostCredit(b, p).1.value; var later := Run(PostCredit(b, p).0, ops);
      && PostCredit(later, p) == (later, Ok(e))
      && PostCredit(later, q) == (later, if SamePosting(e, q) then Ok(e) else Conflict)
      && PostDebit(later, q) == (later, if SamePosting(e, q) then Ok(e) else Conflict)
  {
    var (b', result) := PostCredit(b, p);
    var e := result.value;
    CreditKeeps(b, p);
    RunKeeps(b', ops);
    RunSettles(b', ops, 0);
    var n := FindEntry(b'.entries, p.key).value;
    CreditedEntry(b, p, n);
    FoundStays(b'.entries, Run(b', ops).entries, p.key, n);
  }

  lemma CreditedEntry(b: Books, p: Posting, n: nat)
    requires Valid(b) && PostCredit(b, p).1.Ok? && FindEntry(PostCredit(b, p).0.entries, p.key) == Some(n)
    ensures PostCredit(b, p).0.entries[n] == PostCredit(b, p).1.value && SamePosting(PostCredit(b, p).1.value, p)
  {}

  lemma DebitIsIdempotent(b: Books, p: Posting, ops: seq<Op>, q: Posting)
    requires Valid(b) && !p.kind.Adds() && PostDebit(b, p).1.Ok? && q.key == p.key
    requires forall i :: 0 <= i < |ops| ==> Proper(ops[i])
    ensures var e := PostDebit(b, p).1.value; var later := Run(PostDebit(b, p).0, ops);
      && PostDebit(later, q) == (later, if SamePosting(e, q) then Ok(e) else Conflict)
      && PostCredit(later, q) == (later, if SamePosting(e, q) then Ok(e) else Conflict)
  {
    var (b', result) := PostDebit(b, p);
    var e := result.value;
    DebitKeeps(b, p);
    RunKeeps(b', ops);
    RunSettles(b', ops, 0);
    var n := FindEntry(b'.entries, p.key).value;
    FoundStays(b'.entries, Run(b', ops).entries, p.key, n);
  }

  // ----- capture

  /** The reservation of this bill, still open. */
  predicate FirstTime(b: Books, c: Bill, i: nat) {
    && FindByRequest(b.reservations, c.request) == Some(i) && b.reservations[i].status.Authorized?
    && (c.reservation.None? || c.reservation == Some(i)) && c.actual > 0
  }

  /** The first call, what it left and what it answered. */
  predicate CapturedAs(b: Books, c: Bill, i: nat, b': Books, first: Settlement) {
    FirstTime(b, c, i) && Capture(b, c) == (b', Ok(first))
  }

  /** What is left of the balance for an overage once the reservation has been captured. */
  function LeftFor(b: Books, i: nat): int
    requires i < |b.reservations|
  {
    var row := BalanceOf(b, b.reservations[i].account);
    row.Available()
  }

  /** The reservation has been captured, in part or in full, and is otherwise the same. */
  predicate EndedAs(held: Reservation, r: Reservation) {
    && r.status.Captured? && r.released == held.authorized - r.captured
    && r.account == held.account && r.request == held.request && r.authorized == held.authorized && r.key == held.key
  }

  /**
   What the user pays, from the reservation and then from what is left of the balance, and
   what the platform writes off add up to the actual amount.  Something is written off
   exactly when something is left to pay, and then the user has nothing available any more.
   */
  predicate Conserved(c: Bill, i: nat, held: Reservation, before: Balance, b': Books, first: Settlement) {
    var captured, overage := first.reservation.captured, first.overage;
    var row := BalanceOf(b', held.account);
    && EndedAs(held, first.reservation) && held.request == c.request && captured == Min(c.actual, held.authorized)
    && 0 <= overage && WrittenOff(WriteOffOf(b', i), c.actual, captured + overage)
    && (captured + overage < c.actual ==> row.balance == row.reserved)
    && row == Balance(before.balance - captured - overage, before.reserved - held.authorized)
  }

  /** What is left of a bill after the user's part, and only that, is written off. */
  predicate WrittenOff(x: Option<BillingException>, actual: int, paid: int) {
    paid <= actual && x == if paid < actual then Some(WriteOff(actual, paid, actual - paid)) else None
  }

  function WriteOffOf(b: Books, i: nat): Option<BillingException> {
    if i in b.exceptions then Some(b.exceptions[i]) else None
  }

  /** What collecting the overage of a bill leaves. */
  predicate Collected(m: Books, c: Bill, i: nat, captured: int, b': Books, overage: int)
    requires i < |m.reservations|
  {
    var a := m.reservations[i].account;
    && 0 <= overage && WrittenOff(WriteOffOf(b', i), c.actual, captured + overage)
    && (captured + overage < c.actual ==> BalanceOf(b', a).balance == BalanceOf(b', a).reserved)
    && BalanceOf(b', a) == Balance(BalanceOf(m, a).balance - overage, BalanceOf(m, a).reserved)
  }

  lemma OverageCollects(m: Books, c: Bill, i: nat, captured: int)
    requires i < |m.reservations| && m.reservations[i].account in m.balances && i !in m.exceptions
    requires m.balances[m.reservations[i].account].Available() >= 0 && captured == m.reservations[i].authorized < c.actual
    requires CollectOverage(m, c, i, captured).1.Ok?
    ensures Collected(m, c, i, captured, CollectOverage(m, c, i, captured).0, CollectOverage(m, c, i, captured).1.value)
  {}

  lemma OverageLeavesOthers(m: Books, c: Bill, i: nat, captured: int)
    requires i < |m.reservations| && m.reservations[i].account in m.balances
    ensures CollectOverage(m, c, i, captured).0.reservations == m.reservations
    ensures forall a :: a != m.reservations[i].account ==> BalanceOf(CollectOverage(m, c, i, captured).0, a) == BalanceOf(m, a)
  {}

  /** A first capture that succeeds debits the hold, and then collects the overage if there is one. */
  lemma CaptureInTwoParts(b: Books, c: Bill, i: nat, b': Books, first: Settlement)
    requires CapturedAs(b, c, i, b', first)
    ensures b.reservations[i].account in b.balances && b.reservations[i].request == c.request
    ensures var m := AfterHold(b, c, i);
      && first.reservation == m.reservations[i]
      && if c.actual <= b.reservations[i].authorized then b' == m && first.overage == 0
         else CollectOverage(m, c, i, first.reservation.captured) == (b', Ok(first.overage))
  {}

  lemma HoldMoves(b: Books, c: Bill, i: nat)
    requires i < |b.reservations| && b.reservations[i].account in b.balances
    ensures var m := AfterHold(b, c, i); var held := b.reservations[i]; var captured := Min(c.actual, held.authorized);
      && EndedAs(held, m.reservations[i]) && m.reservations[i].captured == captured && m.exceptions == b.exceptions
      && BalanceOf(m, held.account) == Balance(b.balances[held.account].balance - captured, b.balances[held.account].reserved - held.authorized)
      && forall a :: a != held.account ==> BalanceOf(m, a) == BalanceOf(b, a)
  {}

  /** The reservation covers the whole bill. */
  lemma HoldAloneConserves(c: Bill, i: nat, held: Reservation, before: Balance, b': Books, first: Settlement)
    requires held.request == c.request && 0 < c.actual <= held.authorized && i !in b'.exceptions
    requires EndedAs(held, first.reservation) && first.reservation.captured == Min(c.actual, held.authorized) && first.overage == 0
    requires BalanceOf(b', held.account) == Balance(before.balance - first.reservation.captured, before.reserved - held.authorized)
    ensures Conserved(c, i, held, before, b', first)
  {}

  /** The reservation does not cover the bill. */
  lemma HoldAndOverageConserve(c: Bill, i: nat, m: Books, held: Reservation, before: Balance, b': Books, first: Settlement)
    requires i < |m.reservations| && held.account == m.reservations[i].account
    requires held.request == c.request && 0 < held.authorized < c.actual
    requires EndedAs(held, first.reservation) && first.reservation.captured == Min(c.actual, held.authorized)
    requires BalanceOf(m, held.account) == Balance(before.balance - first.reservation.captured, before.reserved - held.authorized)
    requires Collected(m, c, i, first.reservation.captured, b', first.overage)
    ensures Conserved(c, i, held, before, b', first)
  {}

  /** A first capture conserves the bill, and nobody else's balance moves. */
  lemma CaptureConserves(b: Books, c: Bill, i: nat, b': Books, first: Settlement)
    requires Valid(b) && CapturedAs(b, c, i, b', first)
    ensures i < |b'.reservations| && b'.reservations[i] == first.reservation
    ensures Conserved(c, i, b.reservations[i], BalanceOf(b, b.reservations[i].account), b', first)
    ensures forall a :: a != b.reservations[i].account ==> BalanceOf(b', a) == BalanceOf(b, a)
  {
    CaptureInTwoParts(b, c, i, b', first);
    HoldIsCovered(b, i);
    HoldMoves(b, c, i);
    assert ReservationOk(b, i);
    var held, before := b.reservations[i], b.balances[b.reservations[i].account];
    if c.actual <= held.authorized {
      HoldAloneConserves(c, i, held, before, b', first);
    } else {
      var m := AfterHold(b, c, i);
      OverageCollects(m, c, i, first.reservation.captured);
      OverageLeavesOthers(m, c, i, first.reservation.captured);
      HoldAndOverageConserve(c, i, m, held, before, b', first);
    }
  }

  /** What a first capture posts: one entry, or two when an overage was collected. */
  lemma CapturePosts(b: Books, c: Bill, i: nat, b': Books, first: Settlement)
    requires Valid(b) && CapturedAs(b, c, i, b', first)
    ensures b.entries <= b'.entries
    ensures var posted := b'.entries[|b.entries|..];
      && |posted| == (if first.overage > 0 then 2 else 1)
      && posted[0].key == c.key && posted[0].amount == first.reservation.captured
      && (first.overage > 0 ==> posted[1].key == OverageKey(c.key) && posted[1].amount == first.overage)
  {}

  /** The overage a first capture will try to collect. */
  function Owed(b: Books, c: Bill, i: nat): int
    requires i < |b.reservations|
  {
    Max(Min(LeftFor(b, i), c.actual - b.reservations[i].authorized), 0)
  }

  /** A first capture succeeds exactly when the keys it needs are free and the amount can be stored. */
  lemma FirstCaptureSucceedsIff(b: Books, c: Bill, i: nat)
    requires Valid(b) && FirstTime(b, c, i)
    ensures Capture(b, c).1.Ok? <==>
      && c.key != "" && FindEntry(b.entries, c.key).None?
      && (c.actual > b.reservations[i].authorized ==> c.actual < LIMIT)
      && (Owed(b, c, i) > 0 ==> FindEntry(b.entries, OverageKey(c.key)).None?)
  {
    HoldIsCovered(b, i);
    assert ReservationOk(b, i) && AccountOk(b, b.reservations[i].account);
    if FindEntry(b.entries, c.key).None? { OverageKeyIsAnother(b, c, i); }
  }

  lemma OverageKeyIsAnother(b: Books, c: Bill, i: nat)
    requires Valid(b) && i < |b.reservations| && b.reservations[i].account in b.balances
    ensures FindEntry(AfterHold(b, c, i).entries, OverageKey(c.key)).None? <==> FindEntry(b.entries, OverageKey(c.key)).None?
  {
    assert |OverageKey(c.key)| > |c.key|;
    var es := AfterHold(b, c, i).entries;
    assert es[..|b.entries|] == b.entries;
  }

  // ----- replays

  /** What a first capture settled: the parts of the bill, and the write-off of the rest. */
  predicate Paid(c: Bill, first: Settlement, wroteOff: Option<BillingException>) {
    var r := first.reservation;
    && r.request == c.request && r.status.Captured? && c.actual > 0
    && r.captured == Min(c.actual, r.authorized) && 0 <= first.overage
    && WrittenOff(wroteOff, c.actual, r.captured + first.overage)
  }

  /** The books still know of a capture: its reservation, its write-off and its overage entry. */
  predicate Remembers(later: Books, c: Bill, i: nat, first: Settlement, wroteOff: Option<BillingException>) {
    && FindByRequest(later.reservations, c.request) == Some(i) && later.reservations[i] == first.reservation
    && wroteOff == (if i in later.exceptions then Some(later.exceptions[i]) else None)
    && (first.overage > 0 ==>
          var n := FindEntry(later.entries, OverageKey(c.key)); n.Some? && later.entries[n.value].amount == first.overage)
  }

  lemma ConservedIsPaid(c: Bill, i: nat, held: Reservation, before: Balance, b': Books, first: Settlement)
    requires Conserved(c, i, held, before, b', first) && c.actual > 0
    ensures Paid(c, first, WriteOffOf(b', i))
  {}

  lemma CapturePays(b: Books, c: Bill, i: nat, b': Books, first: Settlement)
    requires Valid(b) && CapturedAs(b, c, i, b', first)
    ensures Paid(c, first, WriteOffOf(b', i)) && i < |b'.reservations| && b'.reservations[i] == first.reservation
  {
    CaptureConserves(b, c, i, b', first);
    ConservedIsPaid(c, i, b.reservations[i], BalanceOf(b, b.reservations[i].account), b', first);
  }

  lemma CaptureIsRemembered(b: Books, c: Bill, i: nat, b': Books, first: Settlement)
    requires Valid(b) && CapturedAs(b, c, i, b', first)
    ensures Valid(b') && Remembers(b', c, i, first, WriteOffOf(b', i))
  {
    CaptureKeeps(b, c);
    CapturePays(b, c, i, b', first);
    RequestStays(b', i);
    CapturePosts(b, c, i, b', first);
    if first.overage > 0 {
      assert b'.entries[|b.entries| + 1] == b'.entries[|b.entries|..][1];
      FoundStays(b'.entries, b'.entries, OverageKey(c.key), |b.entries| + 1);
    }
  }

  lemma MemoryStays(b': Books, c: Bill, i: nat, first: Settlement, ops: seq<Op>)
    requires Valid(b') && Remembers(b', c, i, first, WriteOffOf(b', i)) && first.reservation.status.Captured?
    requires forall j :: 0 <= j < |ops| ==> Proper(ops[j])
    ensures Valid(Run(b', ops)) && Remembers(Run(b', ops), c, i, first, WriteOffOf(b', i))
  {
    RunKeeps(b', ops);
    RunSettles(b', ops, i);
    RequestStays(Run(b', ops), i);
    if first.overage > 0 {
      FoundStays(b'.entries, Run(b', ops).entries, OverageKey(c.key), FindEntry(b'.entries, OverageKey(c.key)).value);
    }
  }

  /** Somebody else's entry sits under the key an overage would have had. */
  predicate Foreign(later: Books, c: Bill, first: Settlement) {
    first.overage == 0 && FindEntry(later.entries, OverageKey(c.key)).Some?
  }

  /** The amount under the key an overage of this bill has. */
  function UnderOverageKey(later: Books, c: Bill): int {
    var n := FindEntry(later.entries, OverageKey(c.key));
    if n.Some? then later.entries[n.value].amount else 0
  }

  /**
   Which bills under the request and the key of a captured one are accepted.  A smaller one
   passes while it still uses up the reservation, unless something was written off; a larger
   one passes when somebody else's entry makes up for what it asks beyond the reservation.
   */
  predicate Acceptable(later: Books, c: Bill, i: nat, first: Settlement, again: Bill) {
    && (again.reservation.None? || again.reservation == Some(i))
    && if again.actual > c.actual then
         Foreign(later, c, first) && c.actual == first.reservation.authorized && again.actual <= c.actual + UnderOverageKey(later, c)
       else if again.actual == c.actual then !(Foreign(later, c, first) && i in later.exceptions)
       else first.reservation.authorized <= again.actual && i !in later.exceptions
  }

  lemma ReplayFrom(later: Books, c: Bill, i: nat, first: Settlement, wroteOff: Option<BillingException>, again: Bill)
    requires Valid(later) && Paid(c, first, wroteOff) && Remembers(later, c, i, first, wroteOff)
    requires again.request == c.request && again.key == c.key
    ensures var (books, answer) := Capture(later, again);
      && books == later && (answer.Ok? <==> Acceptable(later, c, i, first, again))
      && (answer.Ok? ==> (answer.value == first <==> !Foreign(later, c, first)))
  {
    assert ReservationOk(later, i) && ExceptionOk(later, i);
    var n := FindEntry(later.entries, OverageKey(c.key));
    if n.Some? { assert ChainOk(later.entries, n.value); }
  }

  /**
   The original call, repeated at any time, writes nothing.  It answers as it did the first
   time if and only if no entry posted by somebody else sits under the derived overage key;
   with such an entry it is turned down if something was written off, and otherwise reports
   an overage that was never collected.
   */
  lemma OriginalReplay(b: Books, c: Bill, i: nat, b': Books, first: Settlement, ops: seq<Op>)
    requires Valid(b) && CapturedAs(b, c, i, b', first) && forall j :: 0 <= j < |ops| ==> Proper(ops[j])
    ensures var later := Run(b', ops); var (again, answer) := Capture(later, c);
      && again == later
      && (answer == Ok(first) <==> !Foreign(later, c, first))
      && (answer.Ok? <==> !(Foreign(later, c, first) && i in b'.exceptions))
  {
    CapturePays(b, c, i, b', first);
    CaptureIsRemembered(b, c, i, b', first);
    MemoryStays(b', c, i, first, ops);
    ReplayFrom(Run(b', ops), c, i, first, WriteOffOf(b', i), c);
  }

  /**
   Under the key of a capture a replay at any time, of whatever amount, writes nothing.
   Exactly the acceptable ones are accepted, and an accepted one answers the captured and
   collected amounts of the first call if and only if nobody else uses the derived key.  So
   without such an entry every larger bill is turned down.
   */
  lemma ReplaysAgree(b: Books, c: Bill, i: nat, b': Books, first: Settlement, ops: seq<Op>, again: Bill)
    requires Valid(b) && CapturedAs(b, c, i, b', first) && forall j :: 0 <= j < |ops| ==> Proper(ops[j])
    requires again.request == c.request && again.key == c.key
    ensures var later := Run(b', ops); var (books, answer) := Capture(later, again);
      && books == later
      && (answer.Ok? <==> Acceptable(later, c, i, first, again))
      && (answer.Ok? ==> (answer.value == first <==> !Foreign(later, c, first)))
      && (again.actual > c.actual && !Foreign(later, c, first) ==> !answer.Ok?)
  {
    CapturePays(b, c, i, b', first);
    CaptureIsRemembered(b, c, i, b', first);
    MemoryStays(b', c, i, first, ops);
    ReplayFrom(Run(b', ops), c, i, first, WriteOffOf(b', i), again);
  }

  // ----- a replay that fails, and one that should

  const PAYER := Account(1, "USD")
  const FUND := Posting(PAYER, None, Credit, 5, "fund")
  const HOLD := Hold(PAYER, 9, 5, "hold")
  const BILL := Bill(9, None, 7, "k")
  const FOREIGN := Posting(Account(2, "USD"), None, Credit, 1, "k:overage")

  lemma Funded() returns (b: Books)
    ensures b == Run(EMPTY, [DoCredit(FUND), DoPreAuthorize(HOLD)]) && Valid(b) && b.exceptions == map[]
    ensures b.entries == [Entry(PAYER, None, Credit, 5, 0, 5, "fund")] && b.balances == map[PAYER := Balance(5, 5)]
    ensures b.reservations == [Reservation(PAYER, 9, Authorized, 5, 5, 0, 0, None, "hold")]
  {
    var ops := [DoCredit(FUND), DoPreAuthorize(HOLD)];
    EmptyIsValid();
    CreditKeeps(EMPTY, FUND);
    var b1 := PostCredit(EMPTY, FUND).0;
    assert ops[..1][..0] == [] && ops[..1] == [DoCredit(FUND)];
    assert Run(EMPTY, ops[..1]) == b1;
    PreAuthorizeKeeps(b1, HOLD);
    b := PreAuthorize(b1, HOLD).0;
  }

  /** The bill exceeds the reservation, nothing is left to collect, and the rest is written off. */
  lemma BilledOnce() returns (b: Books, b': Books, first: Settlement)
    ensures b == Run(EMPTY, [DoCredit(FUND), DoPreAuthorize(HOLD)]) && Valid(b) && CapturedAs(b, BILL, 0, b', first)
    ensures Valid(b') && first.overage == 0 && 0 in b'.exceptions && BalanceOf(b', FOREIGN.account) == Balance(0, 0)
  {
    b := Funded();
    BillSucceeds(b);
    b', first := Capture(b, BILL).0, Capture(b, BILL).1.value;
    BillLeaves(b, b', first);
  }

  lemma BillSucceeds(b: Books)
    requires Valid(b) && |b.reservations| == 1 && |b.entries| == 1 && b.entries[0].key == "fund"
    requires var r := b.reservations[0]; r.request == 9 && r.status.Authorized? && r.account == PAYER && r.authorized == 5
    requires BalanceOf(b, PAYER) == Balance(5, 5)
    ensures FirstTime(b, BILL, 0) && Capture(b, BILL).1.Ok?
  {
    assert "k" != "fund" by { assert |"k"| == 1 && |"fund"| == 4; }
    FirstCaptureSucceedsIff(b, BILL, 0);
  }

  lemma BillLeaves(b: Books, b': Books, first: Settlement)
    requires Valid(b) && CapturedAs(b, BILL, 0, b', first)
    requires b.reservations[0].account == PAYER && b.reservations[0].authorized == 5
    requires BalanceOf(b, PAYER) == Balance(5, 5) && BalanceOf(b, FOREIGN.account) == Balance(0, 0)
    ensures Valid(b') && first.overage == 0 && 0 in b'.exceptions && BalanceOf(b', FOREIGN.account) == Balance(0, 0)
  {
    CaptureKeeps(b, BILL);
    CaptureConserves(b, BILL, 0, b', first);
    assert AccountOk(b', PAYER);
    NothingLeftToCollect(b.reservations[0], b', first);
  }

  /** A replay of the original call can fail: after such a bill an unrelated credit takes the derived key. */
  lemma ForeignEntryBreaksReplay() returns (b: Books, b': Books, first: Settlement)
    ensures b == Run(EMPTY, [DoCredit(FUND), DoPreAuthorize(HOLD)]) && CapturedAs(b, BILL, 0, b', first)
    ensures !Capture(Run(b', [DoCredit(FOREIGN)]), BILL).1.Ok?
  {
    b, b', first := BilledOnce();
    OriginalReplay(b, BILL, 0, b', first, [DoCredit(FOREIGN)]);
    assert [DoCredit(FOREIGN)][..0] == [];
    assert Run(b', [DoCredit(FOREIGN)]) == PostCredit(b', FOREIGN).0;
    ForeignCredit(b');
  }

  lemma NothingLeftToCollect(held: Reservation, b': Books, first: Settlement)
    requires Conserved(BILL, 0, held, Balance(5, 5), b', first) && held.authorized == 5 && held.account == PAYER
    requires BalanceOf(b', PAYER).balance >= 0
    ensures first.overage == 0 && 0 in b'.exceptions
  {}

  lemma ForeignCredit(b: Books)
    requires BalanceOf(b, FOREIGN.account) == Balance(0, 0)
    ensures FindEntry(PostCredit(b, FOREIGN).0.entries, OverageKey("k")).Some?
  {
    assert OverageKey("k") == "k:overage";
    var es := PostCredit(b, FOREIGN).0.entries;
    if FindEntry(b.entries, FOREIGN.key).None? { assert es[|es| - 1].key == FOREIGN.key; }
  }

  const EXACT := Bill(9, None, 5, "k")
  const LARGER := Bill(9, None, 8, "k")
  const GIFT := Posting(Account(2, "USD"), None, Credit, 3, "k:overage")

  /** The reservation covers the bill exactly. */
  lemma BilledExactly() returns (b: Books, b': Books, first: Settlement)
    ensures b == Run(EMPTY, [DoCredit(FUND), DoPreAuthorize(HOLD)]) && Valid(b) && CapturedAs(b, EXACT, 0, b', first)
    ensures Valid(b') && first.overage == 0 && first.reservation.authorized == 5
    ensures BalanceOf(b', GIFT.account) == Balance(0, 0) && |b'.entries| == 2 && b'.entries[0].key == "fund" && b'.entries[1].key == "k"
  {
    b := Funded();
    assert "k" != "fund" by { assert |"k"| == 1 && |"fund"| == 4; }
    FirstCaptureSucceedsIff(b, EXACT, 0);
    b', first := Capture(b, EXACT).0, Capture(b, EXACT).1.value;
    CaptureKeeps(b, EXACT);
    CaptureConserves(b, EXACT, 0, b', first);
    CapturePosts(b, EXACT, 0, b', first);
    assert b'.entries[1] == b'.entries[|b.entries|..][0] && b'.entries[0] == b.entries[0];
    assert BalanceOf(b', GIFT.account) == BalanceOf(b, GIFT.account);
  }

  /**
   A larger bill can be accepted: after a bill of exactly the reserved 5 an unrelated credit
   of 3 takes the derived key, and a bill of 8 passes as a replay.
   */
  lemma LargerBillAccepted() returns (b: Books, b': Books, first: Settlement)
    ensures b == Run(EMPTY, [DoCredit(FUND), DoPreAuthorize(HOLD)]) && CapturedAs(b, EXACT, 0, b', first)
    ensures var (books, answer) := Capture(Run(b', [DoCredit(GIFT)]), LARGER);
      answer.Ok? && answer.value == Settlement(first.reservation, 3) && books == Run(b', [DoCredit(GIFT)])
  {
    b, b', first := BilledExactly();
    var ops := [DoCredit(GIFT)];
    var later := Run(b', ops);
    assert ops[..0] == [];
    assert Run(b', ops) == Apply(Run(b', ops[..0]), ops[0]);
    GiftUnderTheKey(b', later);
    ReplaysAgree(b, EXACT, 0, b', first, ops, LARGER);
    RunSettles(b', ops, 0);
    RequestStays(b', 0);
    FoundGift(later, first);
  }

  lemma GiftUnderTheKey(b: Books, later: Books)
    requires later == PostCredit(b, GIFT).0 && BalanceOf(b, GIFT.account) == Balance(0, 0)
    requires |b.entries| == 2 && b.entries[0].key == "fund" && b.entries[1].key == "k"
    ensures UnderOverageKey(later, EXACT) == 3 && FindEntry(later.entries, OverageKey("k")).Some?
  {
    assert OverageKey("k") == "k:overage" && |"k:overage"| == 9 && |"fund"| == 4 && |"k"| == 1;
    assert FindEntry(b.entries, GIFT.key).None?;
    assert later.entries[|later.entries| - 1].key == GIFT.key;
  }

  lemma FoundGift(later: Books, first: Settlement)
    requires Capture(later, LARGER).1.Ok? && UnderOverageKey(later, EXACT) == 3
    requires FindByRequest(later.reservations, 9) == Some(0) && later.reservations[0] == first.reservation && first.reservation.status.Captured?
    ensures Capture(later, LARGER).1.value == Settlement(first.reservation, 3)
  {}
}
