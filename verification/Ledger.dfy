/**
 The money ledger: balances, entries, reservations and billing exceptions, and the six
 operations on them as functions from the books before a call to the books after it.

 Amounts are integers in units of 10^-10, the scale of every amount column; `LIMIT` is
 where a numeric(20,10) column overflows.  A transaction that fails leaves the books as
 they were.
 */
module Ledger {
  import opened Common

  type Key = string

  const LIMIT: int := 100_000_000_000_000_000_000

  /** A balance row: one user, one currency. */
  datatype Account = Account(user: int, currency: string)

  datatype Balance = Balance(balance: int, reserved: int) {

    function Available(): int {
      balance - reserved
    }
  }

  datatype EntryType = Credit | Debit | Refund | AdjustmentCredit | AdjustmentDebit {

    predicate Adds() {
      Credit? || Refund? || AdjustmentCredit?
    }
  }

  datatype Entry = Entry(
    account: Account, request: Option<int>, kind: EntryType, amount: int, before: int, after: int, key: Key)

  datatype Status = Authorized | Captured | Released

  /** A reservation is identified by its position; `entry` is the position of its capture entry. */
  datatype Reservation = Reservation(
    account: Account, request: int, status: Status, estimated: int, authorized: int, captured: int, released: int,
    entry: Option<nat>, key: Key)

  datatype BillingException =
    | WriteOff(actual: int, captured: int, platform: int)
    | RiskExposure(platform: int)

  datatype Books = Books(
    balances: map<Account, Balance>,
    entries: seq<Entry>,
    reservations: seq<Reservation>,
    exceptions: map<nat, BillingException>)

  datatype Result<+T> = Ok(value: T) | InvalidAmount | Insufficient | Conflict | NotFound | StoreFailed

  // ----- lookups

  function FindEntry(entries: seq<Entry>, key: Key): (r: Option<nat>)
    ensures r.Some? ==> r.value < |entries| && entries[r.value].key == key
    ensures r.None? ==> forall i :: 0 <= i < |entries| ==> entries[i].key != key
  {
    if entries == [] then None
    else if entries[|entries| - 1].key == key then Some(|entries| - 1)
    else FindEntry(entries[..|entries| - 1], key)
  }

  function FindByKey(rs: seq<Reservation>, key: Key): (r: Option<nat>)
    ensures r.Some? ==> r.value < |rs| && rs[r.value].key == key
    ensures r.None? ==> forall i :: 0 <= i < |rs| ==> rs[i].key != key
  {
    if rs == [] then None
    else if rs[|rs| - 1].key == key then Some(|rs| - 1)
    else FindByKey(rs[..|rs| - 1], key)
  }

  function FindByRequest(rs: seq<Reservation>, request: int): (r: Option<nat>)
    ensures r.Some? ==> r.value < |rs| && rs[r.value].request == request
    ensures r.None? ==> forall i :: 0 <= i < |rs| ==> rs[i].request != request
  {
    if rs == [] then None
    else if rs[|rs| - 1].request == request then Some(|rs| - 1)
    else FindByRequest(rs[..|rs| - 1], request)
  }

  // ----- direct credits and debits

  /** What a caller asks to be posted. */
  datatype Posting = Posting(account: Account, request: Option<int>, kind: EntryType, amount: int, key: Key)

  /** The same posting, asked for again. */
  predicate SamePosting(e: Entry, p: Posting) {
    e.account == p.account && e.kind == p.kind && e.request == p.request && e.amount == p.amount
  }

  function PostingEntry(p: Posting, before: int, after: int): Entry {
    Entry(p.account, p.request, p.kind, p.amount, before, after, p.key)
  }

  /** The row checks on an entry. */
  predicate Storable(amount: int, key: Key) {
    0 < amount < LIMIT && key != ""
  }

  function BalanceOf(b: Books, a: Account): Balance {
    if a in b.balances then b.balances[a] else Balance(0, 0)
  }

  function PostCredit(b: Books, p: Posting): (Books, Result<Entry>) {
    var seen := FindEntry(b.entries, p.key);
    if seen.Some? then (b, if SamePosting(b.entries[seen.value], p) then Ok(b.entries[seen.value]) else Conflict)
    else
      var before := BalanceOf(b, p.account);
      if !Storable(p.amount, p.key) || before.balance + p.amount >= LIMIT then (b, StoreFailed)
      else
        var e := PostingEntry(p, before.balance, before.balance + p.amount);
        (b.(balances := b.balances[p.account := before.(balance := before.balance + p.amount)], entries := b.entries + [e]), Ok(e))
  }

  function PostDebit(b: Books, p: Posting): (Books, Result<Entry>) {
    var seen := FindEntry(b.entries, p.key);
    if seen.Some? then (b, if SamePosting(b.entries[seen.value], p) then Ok(b.entries[seen.value]) else Conflict)
    else if p.account !in b.balances then (b, Insufficient)
    else
      var before := b.balances[p.account];
      if before.balance < p.amount || before.Available() < p.amount then (b, Insufficient)
      else if !Storable(p.amount, p.key) then (b, StoreFailed)
      else
        var e := PostingEntry(p, before.balance, before.balance - p.amount);
        (b.(balances := b.balances[p.account := before.(balance := before.balance - p.amount)], entries := b.entries + [e]), Ok(e))
  }

  // ----- reservations

  datatype Hold = Hold(account: Account, request: int, estimated: int, key: Key)

  predicate SameHold(r: Reservation, h: Hold) {
    r.account == h.account && r.request == h.request && r.estimated == h.estimated
  }

  function Min(x: int, y: int): int {
    if x <= y then x else y
  }

  function Max(x: int, y: int): int {
    if x <= y then y else x
  }

  function PreAuthorize(b: Books, h: Hold): (Books, Result<Reservation>) {
    if h.estimated <= 0 then (b, InvalidAmount)
    else
      var seen := FindByKey(b.reservations, h.key);
      if seen.Some? then (b, if SameHold(b.reservations[seen.value], h) then Ok(b.reservations[seen.value]) else Conflict)
      else if h.estimated >= LIMIT then (b, StoreFailed)
      else if h.account !in b.balances then (b, Insufficient)
      else
        var before := b.balances[h.account];
        var authorized := Min(before.Available(), h.estimated);
        if authorized <= 0 then (b, Insufficient)
        else if h.key == "" then (b, StoreFailed)
        else if FindByRequest(b.reservations, h.request).Some? then (b, Conflict)
        else
          var r := Reservation(h.account, h.request, Authorized, h.estimated, authorized, 0, 0, None, h.key);
          (b.(balances := b.balances[h.account := before.(reserved := before.reserved + authorized)],
              reservations := b.reservations + [r]), Ok(r))
  }

  /** A capture asks for the real cost of a request. */
  datatype Bill = Bill(request: int, reservation: Option<nat>, actual: int, key: Key)

  /** The reservation after a capture and what was collected beyond it. */
  datatype Settlement = Settlement(reservation: Reservation, overage: int)

  function OverageKey(key: Key): Key {
    key + ":overage"
  }

  function Capture(b: Books, c: Bill): (Books, Result<Settlement>) {
    if c.actual <= 0 then (b, InvalidAmount)
    else
      var found := FindByRequest(b.reservations, c.request);
      if found.None? then (b, NotFound)
      else if c.reservation.Some? && c.reservation != found then (b, Conflict)
      else
        match b.reservations[found.value].status
        case Captured => (b, ReplayCapture(b, c, found.value))
        case Released => (b, Conflict)
        case Authorized => FirstCapture(b, c, found.value)
  }

  /** A capture of a reservation that has been captured: nothing is written. */
  function ReplayCapture(b: Books, c: Bill, i: nat): Result<Settlement>
    requires i < |b.reservations|
  {
    var r := b.reservations[i];
    var captured := Min(c.actual, r.authorized);
    if r.captured != captured then Conflict
    else
      var extra := FindEntry(b.entries, OverageKey(c.key));
      var overage := if extra.Some? then b.entries[extra.value].amount else 0;
      var residual := c.actual > captured + overage;
      if i in b.exceptions then
        var x := b.exceptions[i];
        if x.WriteOff? && residual && x.actual == c.actual && x.captured == captured + overage
        then Ok(Settlement(r, overage)) else Conflict
      else if residual then Conflict
      else Ok(Settlement(r, overage))
  }

  function FirstCapture(b: Books, c: Bill, i: nat): (Books, Result<Settlement>)
    requires i < |b.reservations|
  {
    var r := b.reservations[i];
    var captured := Min(c.actual, r.authorized);
    if r.account !in b.balances then (b, StoreFailed)
    else if b.balances[r.account].reserved < r.authorized || b.balances[r.account].balance < captured then (b, StoreFailed)
    else if !Storable(captured, c.key) then (b, StoreFailed)
    else if FindEntry(b.entries, c.key).Some? then (b, Conflict)
    else
      var b' := AfterHold(b, c, i);
      if c.actual <= r.authorized then (b', Ok(Settlement(b'.reservations[i], 0)))
      else
        var (b'', result) := CollectOverage(b', c, i, captured);
        if result.Ok? then (b'', Ok(Settlement(b'.reservations[i], result.value))) else (b, WithoutValue(result))
  }

  /** The books after the debit of the reserved part. */
  function AfterHold(b: Books, c: Bill, i: nat): Books
    requires i < |b.reservations| && b.reservations[i].account in b.balances
  {
    var r := b.reservations[i];
    var captured := Min(c.actual, r.authorized);
    var before := b.balances[r.account];
    var after := Balance(before.balance - captured, before.reserved - r.authorized);
    var debit := Entry(r.account, Some(r.request), Debit, captured, before.balance, after.balance, c.key);
    var r' := r.(status := Captured, captured := captured, released := r.authorized - captured, entry := Some(|b.entries|));
    b.(balances := b.balances[r.account := after], entries := b.entries + [debit], reservations := b.reservations[i := r'])
  }

  /** The books after the debit of an overage, if there is any. */
  function AfterOverage(b: Books, c: Bill, i: nat, overage: int): Books
    requires i < |b.reservations| && b.reservations[i].account in b.balances
  {
    var r := b.reservations[i];
    var before := b.balances[r.account];
    var debit := Entry(r.account, Some(r.request), Debit, overage, before.balance, before.balance - overage, OverageKey(c.key));
    if overage > 0
    then b.(balances := b.balances[r.account := before.(balance := before.balance - overage)], entries := b.entries + [debit])
    else b
  }

  /** Collects what was not reserved, from what the user has left; the rest is written off. */
  function CollectOverage(b: Books, c: Bill, i: nat, captured: int): (Books, Result<int>)
    requires i < |b.reservations| && b.reservations[i].account in b.balances
  {
    var r := b.reservations[i];
    var overage := Max(Min(b.balances[r.account].Available(), c.actual - r.authorized), 0);
    if c.actual >= LIMIT then (b, StoreFailed)
    else if overage > 0 && FindEntry(b.entries, OverageKey(c.key)).Some? then (b, Conflict)
    else
      var b' := AfterOverage(b, c, i, overage);
      if c.actual <= captured + overage then (b', Ok(overage))
      else if i in b.exceptions then (b, StoreFailed)
      else (b'.(exceptions := b.exceptions[i := WriteOff(c.actual, captured + overage, c.actual - captured - overage)]), Ok(overage))
  }

  /** The same failure, of a call with another value. */
  function WithoutValue<T, U>(r: Result<T>): Result<U>
    requires !r.Ok?
  {
    match r
    case InvalidAmount => InvalidAmount
    case Insufficient => Insufficient
    case Conflict => Conflict
    case NotFound => NotFound
    case StoreFailed => StoreFailed
  }

  function Release(b: Books, request: int, reservation: Option<nat>): (Books, Result<nat>) {
    var found := FindByRequest(b.reservations, request);
    if found.None? then (b, NotFound)
    else if reservation.Some? && reservation != found then (b, Conflict)
    else
      var i := found.value;
      var r := b.reservations[i];
      match r.status
      case Released => (b, Ok(i))
      case Captured => (b, Conflict)
      case Authorized =>
        if r.account !in b.balances || b.balances[r.account].reserved < r.authorized then (b, StoreFailed)
        else
          var before := b.balances[r.account];
          (b.(balances := b.balances[r.account := before.(reserved := before.reserved - r.authorized)],
              reservations := b.reservations[i := r.(status := Released, released := r.authorized)]), Ok(i))
  }

  /** Releases, and records a risk exposure unless the reservation has an exception. */
  function ReleaseWithException(b: Books, request: int, reservation: Option<nat>): (Books, Result<nat>) {
    var (b', result) := Release(b, request, reservation);
    if !result.Ok? then (b, result)
    else if result.value in b'.exceptions then (b', result)
    else (b'.(exceptions := b'.exceptions[result.value := RiskExposure(b'.reservations[result.value].authorized)]), result)
  }

  // ----- runs

  datatype Op =
    | DoCredit(p: Posting)
    | DoDebit(p: Posting)
    | DoPreAuthorize(h: Hold)
    | DoCapture(c: Bill)
    | DoRelease(request: int, reservation: Option<nat>)
    | DoReleaseWithException(request: int, reservation: Option<nat>)

  /** Callers choose the entry type by the operation. */
  predicate Proper(op: Op) {
    match op
    case DoCredit(p) => p.kind.Adds()
    case DoDebit(p) => !p.kind.Adds()
    case _ => true
  }

  function Apply(b: Books, op: Op): Books {
    match op
    case DoCredit(p) => PostCredit(b, p).0
    case DoDebit(p) => PostDebit(b, p).0
    case DoPreAuthorize(h) => PreAuthorize(b, h).0
    case DoCapture(c) => Capture(b, c).0
    case DoRelease(request, reservation) => Release(b, request, reservation).0
    case DoReleaseWithException(request, reservation) => ReleaseWithException(b, request, reservation).0
  }

  function Run(b: Books, ops: seq<Op>): Books {
    if ops == [] then b else Apply(Run(b, ops[..|ops| - 1]), ops[|ops| - 1])
  }

  const EMPTY := Books(map[], [], [], map[])
}
