/** When each ledger operation succeeds, and what exactly it then changes. */
module LedgerOutcomes {
  import opened Common
  import opened Ledger
  import opened LedgerInvariant
  import opened LedgerRuns

  /** No balance but this one differs. */
  ghost predicate OnlyBalance(b: Books, b': Books, a: Account) {
    forall other :: other != a ==> BalanceOf(b', other) == BalanceOf(b, other)
  }

  function Available(b: Books, a: Account): int {
    BalanceOf(b, a).balance - BalanceOf(b, a).reserved
  }

  // ----- direct postings

  /**
   A first credit succeeds exactly if the entry can be stored and the balance has room for
   it; then the balance is higher by the amount and one entry says so.
   */
  lemma CreditOutcome(b: Books, p: Posting)
    requires Valid(b) && p.kind.Adds() && FindEntry(b.entries, p.key).None?
    ensures var (b', result) := PostCredit(b, p); var row := BalanceOf(b, p.account);
      && (result.Ok? <==> 0 < p.amount < LIMIT && p.key != "" && row.balance + p.amount < LIMIT)
      && (!result.Ok? ==> b' == b && result == StoreFailed)
      && (result.Ok? ==>
            && b'.entries == b.entries + [Entry(p.account, p.request, p.kind, p.amount, row.balance, row.balance + p.amount, p.key)]
            && result.value == b'.entries[|b.entries|] && b'.reservations == b.reservations && b'.exceptions == b.exceptions
            && BalanceOf(b', p.account) == Balance(row.balance + p.amount, row.reserved) && OnlyBalance(b, b', p.account))
  {}

  /**
   A first debit succeeds exactly if the entry can be stored and what is not reserved covers
   it; then the balance is lower by the amount and one entry says so.  For want of balance it
   fails as such.
   */
  lemma DebitOutcome(b: Books, p: Posting)
    requires Valid(b) && !p.kind.Adds() && FindEntry(b.entries, p.key).None?
    ensures var (b', result) := PostDebit(b, p); var row := BalanceOf(b, p.account);
      && (result.Ok? <==> 0 < p.amount < LIMIT && p.key != "" && p.amount <= row.balance - row.reserved)
      && (!result.Ok? ==> b' == b) && (p.amount > row.balance - row.reserved ==> result == Insufficient)
      && (result.Ok? ==>
            && b'.entries == b.entries + [Entry(p.account, p.request, p.kind, p.amount, row.balance, row.balance - p.amount, p.key)]
            && result.value == b'.entries[|b.entries|] && b'.reservations == b.reservations && b'.exceptions == b.exceptions
            && BalanceOf(b', p.account) == Balance(row.balance - p.amount, row.reserved) && OnlyBalance(b, b', p.account))
  {
    assert AccountOk(b, p.account);
  }

  /** After a posting its key answers that very posting and no other, at any later time. */
  lemma OnlyTheSamePostingIsAnswered(b: Books, p: Posting, ops: seq<Op>, q: Posting)
    requires Valid(b) && q.key == p.key && FindEntry(b.entries, p.key).None? && forall i :: 0 <= i < |ops| ==> Proper(ops[i])
    ensures p.kind.Adds() && PostCredit(b, p).1.Ok? ==>
              var later := Run(PostCredit(b, p).0, ops);
              (PostCredit(later, q).1.Ok? <==> q == p) && (PostDebit(later, q).1.Ok? <==> q == p)
    ensures !p.kind.Adds() && PostDebit(b, p).1.Ok? ==>
              var later := Run(PostDebit(b, p).0, ops);
              (PostCredit(later, q).1.Ok? <==> q == p) && (PostDebit(later, q).1.Ok? <==> q == p)
  {
    hide Run, Valid;
    if p.kind.Adds() && PostCredit(b, p).1.Ok? {
      CreditOutcome(b, p);
      PostingIsIdempotent(b, p, ops, q);
    }
    if !p.kind.Adds() && PostDebit(b, p).1.Ok? {
      DebitOutcome(b, p);
      DebitIsIdempotent(b, p, ops, q);
    }
  }

  // ----- holds

  /**
   A first hold takes what was estimated, or what is left of it: exactly the smaller of the
   estimate and what is not reserved.  It succeeds whenever something is left and neither
   its key nor its request is taken; the balance stays, the reserved part grows.
   */
  lemma HoldOutcome(b: Books, h: Hold)
    requires Valid(b) && FindByKey(b.reservations, h.key).None?
    ensures var (b', result) := PreAuthorize(b, h); var row := BalanceOf(b, h.account);
      var left := row.balance - row.reserved;
      && (result.Ok? <==> 0 < h.estimated < LIMIT && left > 0 && h.key != "" && FindByRequest(b.reservations, h.request).None?)
      && (!result.Ok? ==> b' == b) && (0 < h.estimated < LIMIT && left == 0 ==> result == Insufficient)
      && (result.Ok? ==>
            var held := if h.estimated <= left then h.estimated else left;
            && result.value == Reservation(h.account, h.request, Authorized, h.estimated, held, 0, 0, None, h.key)
            && b'.reservations == b.reservations + [result.value] && b'.entries == b.entries && b'.exceptions == b.exceptions
            && BalanceOf(b', h.account) == Balance(row.balance, row.reserved + held) && OnlyBalance(b, b', h.account)
            && (h.estimated > left ==> Available(b', h.account) == 0))
  {
    assert AccountOk(b, h.account);
  }

  /**
   A hold repeated at any later time writes nothing and answers the reservation as it then
   is; with the same key and other parameters it is turned down.
   */
  lemma HoldIsIdempotent(b: Books, h: Hold, ops: seq<Op>, again: Hold)
    requires Valid(b) && FindByKey(b.reservations, h.key).None? && PreAuthorize(b, h).1.Ok?
    requires again.key == h.key && again.estimated > 0 && forall j :: 0 <= j < |ops| ==> Proper(ops[j])
    ensures var i := |b.reservations|; var later := Run(PreAuthorize(b, h).0, ops);
      && i < |later.reservations|
      && PreAuthorize(later, again) ==
           (later, if again.account == h.account && again.request == h.request && again.estimated == h.estimated
                   then Ok(later.reservations[i]) else Conflict)
  {
    HoldOutcome(b, h);
    PreAuthorizeKeeps(b, h);
    var b' := PreAuthorize(b, h).0;
    var i := |b.reservations|;
    RunKeeps(b', ops);
    RunHeld(b', ops, i);
    KeyStays(Run(b', ops), i);
  }

  /** What no operation changes about a reservation. */
  predicate SameIdentity(r: Reservation, r': Reservation) {
    r'.account == r.account && r'.request == r.request && r'.estimated == r.estimated && r'.authorized == r.authorized && r'.key == r.key
  }

  predicate Held(b: Books, b': Books, i: nat) {
    i < |b.reservations| ==> i < |b'.reservations| && SameIdentity(b.reservations[i], b'.reservations[i])
  }

  lemma ApplyHeld(b: Books, op: Op, i: nat)
    ensures Held(b, Apply(b, op), i)
  {
    match op
    case DoCapture(c) => CaptureHeld(b, c, i);
    case _ =>
  }

  lemma CaptureHeld(b: Books, c: Bill, i: nat)
    ensures Held(b, Capture(b, c).0, i)
  {}

  lemma {:induction false} RunHeld(b: Books, ops: seq<Op>, i: nat)
    ensures Held(b, Run(b, ops), i)
  {
    if ops != [] {
      hide Apply;
      RunHeld(b, ops[..|ops| - 1], i);
      ApplyHeld(Run(b, ops[..|ops| - 1]), ops[|ops| - 1], i);
    }
  }

  lemma KeyStays(b: Books, i: nat)
    requires ReservationsOk(b) && i < |b.reservations|
    ensures FindByKey(b.reservations, b.reservations[i].key) == Some(i)
  {
    var m := FindByKey(b.reservations, b.reservations[i].key).value;
    assert RequestsApart(b.reservations, m, i) && RequestsApart(b.reservations, i, m);
  }

  // ----- releases

  /** The caller names the reservation of the request, or none. */
  predicate Names(b: Books, request: int, reservation: Option<nat>, i: nat) {
    FindByRequest(b.reservations, request) == Some(i) && (reservation.None? || reservation == Some(i))
  }

  /** The hold is freed in full: only the reserved part of its account and its own reservation differ. */
  ghost predicate Freed(b: Books, b': Books, i: nat)
    requires i < |b.reservations|
  {
    var r := b.reservations[i];
    && b'.entries == b.entries && |b'.reservations| == |b.reservations|
    && (forall j :: 0 <= j < |b.reservations| && j != i ==> b'.reservations[j] == b.reservations[j])
    && b'.reservations[i] == r.(status := Released, released := r.authorized)
    && BalanceOf(b', r.account).balance == BalanceOf(b, r.account).balance
    && BalanceOf(b', r.account).reserved == BalanceOf(b, r.account).reserved - r.authorized
    && OnlyBalance(b, b', r.account)
  }

  /**
   A release of an open reservation always succeeds and frees the whole hold.  A released one
   is answered again, a captured one, an unknown request and another reservation are
   refused, and none of these writes anything.
   */
  lemma ReleaseOutcome(b: Books, request: int, reservation: Option<nat>, i: nat)
    requires Valid(b)
    ensures var (b', result) := Release(b, request, reservation);
      && (FindByRequest(b.reservations, request).None? ==> b' == b && result == NotFound)
      && (FindByRequest(b.reservations, request) == Some(i) && !Names(b, request, reservation, i) ==> b' == b && result == Conflict)
      && (Names(b, request, reservation, i) ==>
            match b.reservations[i].status
            case Authorized => result == Ok(i) && Freed(b, b', i) && b'.exceptions == b.exceptions
            case Released => result == Ok(i) && b' == b
            case Captured => result == Conflict && b' == b)
  {
    if Names(b, request, reservation, i) && b.reservations[i].status.Authorized? { HoldIsCovered(b, i); }
  }

  /** A release repeated at any later time answers the same and writes nothing. */
  lemma ReleaseIsIdempotent(b: Books, request: int, reservation: Option<nat>, i: nat, ops: seq<Op>)
    requires Valid(b) && Release(b, request, reservation).1 == Ok(i) && forall j :: 0 <= j < |ops| ==> Proper(ops[j])
    ensures var later := Run(Release(b, request, reservation).0, ops);
      Release(later, request, reservation) == (later, Ok(i))
  {
    var b' := Release(b, request, reservation).0;
    ReleaseOutcome(b, request, reservation, i);
    ReleaseKeeps(b, request, reservation);
    RunKeeps(b', ops);
    EndedReservationsNeverChange(b', ops, i);
    RequestStays(Run(b', ops), i);
  }

  /**
   A release with an exposure frees the hold alike, and records the whole authorized amount
   as a risk unless the reservation has an exception already; a refused one records nothing.
   */
  lemma ExposureOutcome(b: Books, request: int, reservation: Option<nat>, i: nat)
    requires Valid(b) && Names(b, request, reservation, i)
    ensures var (b', result) := ReleaseWithException(b, request, reservation); var r := b.reservations[i];
      match r.status
      case Authorized => result == Ok(i) && Freed(b, b', i) && b'.exceptions == b.exceptions[i := RiskExposure(r.authorized)]
      case Released =>
        result == Ok(i) && b'.reservations == b.reservations && b'.balances == b.balances && b'.entries == b.entries &&
        b'.exceptions == if i in b.exceptions then b.exceptions else b.exceptions[i := RiskExposure(r.authorized)]
      case Captured => result == Conflict && b' == b
  {
    ReleaseOutcome(b, request, reservation, i);
    assert ReservationOk(b, i);
  }

  /** An exception is never dropped. */
  lemma ApplyKeepsException(b: Books, op: Op, i: nat)
    requires i in b.exceptions
    ensures i in Apply(b, op).exceptions
  {
    match op
    case DoCapture(c) => CaptureKeepsException(b, c, i);
    case _ =>
  }

  lemma CaptureKeepsException(b: Books, c: Bill, i: nat)
    requires i in b.exceptions
    ensures i in Capture(b, c).0.exceptions
  {}

  lemma {:induction false} RunKeepsException(b: Books, ops: seq<Op>, i: nat)
    requires i in b.exceptions
    ensures i in Run(b, ops).exceptions
  {
    if ops != [] {
      hide Apply;
      RunKeepsException(b, ops[..|ops| - 1], i);
      ApplyKeepsException(Run(b, ops[..|ops| - 1]), ops[|ops| - 1], i);
    }
  }

  /** And that repeated at any later time answers the same and writes nothing. */
  lemma ExposureIsRecordedOnce(b: Books, request: int, reservation: Option<nat>, i: nat, ops: seq<Op>)
    requires Valid(b) && ReleaseWithException(b, request, reservation).1 == Ok(i) && forall j :: 0 <= j < |ops| ==> Proper(ops[j])
    ensures var later := Run(ReleaseWithException(b, request, reservation).0, ops);
      ReleaseWithException(later, request, reservation) == (later, Ok(i))
  {
    hide Run;
    var b' := ReleaseWithException(b, request, reservation).0;
    ExposureLeaves(b, request, reservation, i);
    ReleaseWithExceptionKeeps(b, request, reservation);
    RunKeeps(b', ops);
    EndedReservationsNeverChange(b', ops, i);
    RunKeepsException(b', ops, i);
    RequestStays(Run(b', ops), i);
    ReleaseOutcome(Run(b', ops), request, reservation, i);
  }

  lemma ExposureLeaves(b: Books, request: int, reservation: Option<nat>, i: nat)
    requires Valid(b) && ReleaseWithException(b, request, reservation).1 == Ok(i)
    ensures var b' := ReleaseWithException(b, request, reservation).0;
      && Names(b, request, reservation, i) && i in b'.exceptions && i < |b'.reservations| && b'.reservations[i].status.Released?
      && b'.reservations[i].request == request
  {
    var found := FindByRequest(b.reservations, request);
    if found.Some? {
      ReleaseOutcome(b, request, reservation, found.value);
      if Names(b, request, reservation, found.value) { ExposureOutcome(b, request, reservation, found.value); }
    }
  }

  /** A released hold can never be captured, and a call for a wrong amount, request or reservation captures nothing. */
  lemma CaptureRefusals(b: Books, c: Bill, i: nat)
    requires Valid(b)
    ensures c.actual <= 0 ==> Capture(b, c) == (b, InvalidAmount)
    ensures c.actual > 0 && FindByRequest(b.reservations, c.request).None? ==> Capture(b, c) == (b, NotFound)
    ensures c.actual > 0 && FindByRequest(b.reservations, c.request) == Some(i) && !Names(b, c.request, c.reservation, i) ==>
              Capture(b, c) == (b, Conflict)
    ensures c.actual > 0 && Names(b, c.request, c.reservation, i) && b.reservations[i].status.Released? ==> Capture(b, c) == (b, Conflict)
  {}
}
