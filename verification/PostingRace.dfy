/**
 Credits and debits that race for one idempotency key.  Each call is a PostgreSQL transaction
 at read committed: it sees what others have committed, waits for the balance row it wants to
 lock and for a key another transaction is inserting, and publishes everything at its commit.
 A debit, and only a debit, first takes the advisory lock of its key.
 */
module PostingRace {
  import opened Common
  import opened Ledger
  import opened LedgerInvariant

  /** Committed rows, who has locked a balance row, who has inserted a key without committing, and who has an advisory lock. */
  datatype Store = Store(
    balances: map<Account, int>, entries: seq<Entry>, rows: map<Account, nat>, keys: map<Key, nat>, advisory: map<Key, nat>)
  {
    function Committed(a: Account): int {
      if a in balances then balances[a] else 0
    }

    predicate RowFree(a: Account, p: nat) {
      a in rows ==> rows[a] == p
    }

    predicate KeyFree(k: Key, p: nat) {
      k in keys ==> keys[k] == p
    }

    /** Ends the transaction of `p`, whatever it held. */
    function Unlock(p: nat): Store {
      this.(rows := map a | a in rows && rows[a] != p :: rows[a], keys := map k | k in keys && keys[k] != p :: keys[k],
            advisory := map k | k in advisory && advisory[k] != p :: advisory[k])
    }
  }

  datatype Call =
    | Asking(p: Posting)
    | Looking(p: Posting)
    | Locking(p: Posting)
    | Adding(p: Posting, before: int)
    | Inserting(p: Posting, before: int)
    | Committing(p: Posting, entry: Entry)
    | Resolving(p: Posting)
    | Answered(p: Posting, result: Result<Entry>)

  datatype State = State(store: Store, calls: map<nat, Call>)

  function Answer(e: Entry, p: Posting): Result<Entry> {
    if SamePosting(e, p) then Ok(e) else Conflict
  }

  /** What a posting does to the balance. */
  function After(p: Posting, before: int): int {
    if p.kind.Adds() then before + p.amount else before - p.amount
  }

  /** One statement of call `n`. */
  predicate CallStep(s: Store, n: nat, c: Call, s': Store, c': Call) {
    match c
    case Asking(p) =>
      (p.key in s.advisory ==> s.advisory[p.key] == n) && s' == s.(advisory := s.advisory[p.key := n]) && c' == Looking(p)
    case Looking(p) =>
      var seen := FindEntry(s.entries, p.key);
      if seen.Some? then s' == s.Unlock(n) && c' == Answered(p, Answer(s.entries[seen.value], p))
      else s' == s && c' == Locking(p)
    case Locking(p) =>
      // a credit creates the row if there is none, a debit takes that for an empty balance
      if !p.kind.Adds() && p.account !in s.balances then s' == s.Unlock(n) && c' == Answered(p, Insufficient)
      else s.RowFree(p.account, n) && s' == s.(rows := s.rows[p.account := n]) && c' == Adding(p, s.Committed(p.account))
    case Adding(p, before) =>
      // part of the balance may be reserved, so that a debit can fail on any balance
      || (After(p, before) >= LIMIT && s' == s.Unlock(n) && c' == Answered(p, StoreFailed))
      || (After(p, before) < LIMIT && (p.kind.Adds() || before >= p.amount) && s' == s && c' == Inserting(p, before))
      || (!p.kind.Adds() && s' == s.Unlock(n) && c' == Answered(p, Insufficient))
    case Inserting(p, before) =>
      if !Storable(p.amount, p.key) then s' == s.Unlock(n) && c' == Answered(p, StoreFailed)
      else if FindEntry(s.entries, p.key).Some? then s' == s.Unlock(n) && c' == Resolving(p)
      else s.KeyFree(p.key, n) && s' == s.(keys := s.keys[p.key := n]) && c' == Committing(p, PostingEntry(p, before, After(p, before)))
    case Committing(p, e) =>
      // the commit may take effect although its reply is lost
      s' == s.(balances := s.balances[p.account := e.after], entries := s.entries + [e]).Unlock(n) &&
      (c' == Answered(p, Ok(e)) || c' == Answered(p, StoreFailed))
    case Resolving(p) =>
      var seen := FindEntry(s.entries, p.key);
      s' == s && c' == Answered(p, if seen.Some? then Answer(s.entries[seen.value], p) else StoreFailed)
    case Answered(_, _) => false
  }

  datatype Step = Start(n: nat, p: Posting) | Run(n: nat, c: Call) | Fail(n: nat)

  predicate NextBy(s: State, s': State, step: Step) {
    match step
    case Start(n, p) => n !in s.calls && s' == s.(calls := s.calls[n := if p.kind.Adds() then Looking(p) else Asking(p)])
    case Run(n, c) => n in s.calls && CallStep(s.store, n, s.calls[n], s'.store, c) && s'.calls == s.calls[n := c]
    case Fail(n) =>
      // a lost connection or a crashed process: the transaction is rolled back
      n in s.calls && s' == State(s.store.Unlock(n), s.calls[n := Answered(s.calls[n].p, StoreFailed)])
  }

  ghost predicate Next(s: State, s': State) {
    exists step :: NextBy(s, s', step)
  }

  predicate Init(s: State) {
    s == State(Store(map[], [], map[], map[], map[]), map[])
  }

  ghost predicate Follows(run: seq<State>, i: nat) {
    i + 1 < |run| ==> Next(run[i], run[i + 1])
  }

  ghost predicate IsRun(run: seq<State>) {
    |run| > 0 && Init(run[0]) && forall i: nat :: Follows(run, i)
  }

  // ----- invariant

  /** The committed balance is what the committed entries add up to, not negative and small enough for its column. */
  predicate BalanceOk(s: Store, a: Account) {
    s.Committed(a) == Net(s.entries, a) && 0 <= s.Committed(a) < LIMIT
  }

  /** Past the advisory lock, if any, and not yet through. */
  predicate AtWork(c: Call) {
    !c.Asking? && !c.Resolving? && !c.Answered?
  }

  /** What a call holds and knows while others run. */
  predicate CallOk(s: Store, n: nat, c: Call) {
    (c.p.kind.Adds() || !AtWork(c) || (c.p.key in s.advisory && s.advisory[c.p.key] == n)) &&
    match c
    case Adding(p, before) => p.account in s.rows && s.rows[p.account] == n && before == s.Committed(p.account)
    case Inserting(p, before) =>
      && p.account in s.rows && s.rows[p.account] == n && before == s.Committed(p.account)
      && (p.kind.Adds() || before >= p.amount) && After(p, before) < LIMIT
    case Committing(p, e) =>
      && p.account in s.rows && s.rows[p.account] == n && p.key in s.keys && s.keys[p.key] == n
      && FindEntry(s.entries, p.key).None? && Storable(p.amount, p.key) && (p.kind.Adds() || s.Committed(p.account) >= p.amount) && e.after < LIMIT
      && e == PostingEntry(p, s.Committed(p.account), After(p, s.Committed(p.account)))
    case Answered(p, result) =>
      if !result.Ok? then result.Conflict? || result.StoreFailed? || (result.Insufficient? && !p.kind.Adds())
      else SamePosting(result.value, p) && FindEntry(s.entries, p.key).Some? && s.entries[FindEntry(s.entries, p.key).value] == result.value
    case _ => true
  }

  ghost predicate CallsOk(s: State) {
    forall n {:trigger s.calls[n]} :: n in s.calls ==> CallOk(s.store, n, s.calls[n])
  }

  ghost predicate Inv(s: State) {
    EntriesOk(s.store.entries) && (forall a {:trigger BalanceOk(s.store, a)} :: BalanceOk(s.store, a)) && CallsOk(s)
  }

  /** Another call only adds or drops its own locks. */
  predicate OthersLocks(s: Store, s': Store, n: nat) {
    && s'.entries == s.entries && s'.balances == s.balances
    && (forall a :: a in s.rows && s.rows[a] != n ==> a in s'.rows && s'.rows[a] == s.rows[a])
    && (forall k :: k in s.keys && s.keys[k] != n ==> k in s'.keys && s'.keys[k] == s.keys[k])
    && (forall k :: k in s.advisory && s.advisory[k] != n ==> k in s'.advisory && s'.advisory[k] == s.advisory[k])
  }

  lemma LocksLeaveOthers(s: Store, s': Store, n: nat, m: nat, c: Call)
    requires OthersLocks(s, s', n) && m != n && CallOk(s, m, c)
    ensures CallOk(s', m, c)
  {}

  /** The last entry is found first; the others are found where they were. */
  lemma FindAppended(entries: seq<Entry>, e: Entry, key: Key)
    ensures FindEntry(entries + [e], key) == if e.key == key then Some(|entries|) else FindEntry(entries, key)
  {
    assert (entries + [e])[..|entries|] == entries;
  }

  function Published(s: Store, n: nat, p: Posting, e: Entry): Store {
    s.(balances := s.balances[p.account := e.after], entries := s.entries + [e]).Unlock(n)
  }

  /** A commit of another call leaves a call's row and key alone: it would have had to hold them. */
  lemma CommitLeavesOthers(s: Store, n: nat, p: Posting, e: Entry, m: nat, c: Call)
    requires CallOk(s, n, Committing(p, e)) && m != n && CallOk(s, m, c)
    ensures CallOk(Published(s, n, p, e), m, c)
  {
    FindAppended(s.entries, e, c.p.key);
  }

  lemma CommitKeepsStore(s: State, n: nat, p: Posting, e: Entry)
    requires Inv(s) && CallOk(s.store, n, Committing(p, e))
    ensures var t := Published(s.store, n, p, e);
      EntriesOk(t.entries) && forall a {:trigger BalanceOk(t, a)} :: BalanceOk(t, a)
  {
    var t := Published(s.store, n, p, e);
    assert BalanceOk(s.store, p.account);
    forall i: nat ensures ChainOk(t.entries, i) {
      assert ChainOk(s.store.entries, i);
      if i < |s.store.entries| { assert t.entries[..i] == s.store.entries[..i]; }
      else if i == |s.store.entries| { assert t.entries[..i] == s.store.entries; }
    }
    forall i: nat, j: nat ensures KeysApart(t.entries, i, j) { assert KeysApart(s.store.entries, i, j); }
    forall a ensures BalanceOk(t, a) {
      assert BalanceOk(s.store, a);
      NetAppend(s.store.entries, e, a);
    }
  }

  lemma OwnStep(s: Store, n: nat, c: Call, s': Store, c': Call)
    requires CallOk(s, n, c) && CallStep(s, n, c, s', c')
    ensures CallOk(s', n, c')
  {
    if c.Committing? { FindAppended(s.entries, c.entry, c.p.key); }
  }

  lemma RunKeeps(s: State, n: nat, s': State, c: Call)
    requires Inv(s) && NextBy(s, s', Step.Run(n, c))
    ensures Inv(s')
  {
    var own := s.calls[n];
    OwnStep(s.store, n, own, s'.store, c);
    if own.Committing? {
      CommitKeepsStore(s, n, own.p, own.entry);
      forall m | m in s'.calls ensures CallOk(s'.store, m, s'.calls[m]) {
        if m != n { CommitLeavesOthers(s.store, n, own.p, own.entry, m, s.calls[m]); }
      }
    } else {
      QuietKeeps(s, s', n);
    }
  }

  /** A step that commits nothing. */
  lemma QuietKeeps(s: State, s': State, n: nat)
    requires Inv(s) && OthersLocks(s.store, s'.store, n)
    requires n in s'.calls && CallOk(s'.store, n, s'.calls[n])
    requires forall m :: m in s'.calls && m != n ==> m in s.calls && s'.calls[m] == s.calls[m]
    ensures Inv(s')
  {
    forall a ensures BalanceOk(s'.store, a) { assert BalanceOk(s.store, a); }
    forall m | m in s'.calls ensures CallOk(s'.store, m, s'.calls[m]) {
      if m != n { LocksLeaveOthers(s.store, s'.store, n, m, s.calls[m]); }
    }
  }

  lemma StepKeeps(s: State, s': State)
    requires Inv(s) && Next(s, s')
    ensures Inv(s')
  {
    var step :| NextBy(s, s', step);
    match step
    case Start(n, p) => QuietKeeps(s, s', n);
    case Run(n, c) => RunKeeps(s, n, s', c);
    case Fail(n) => QuietKeeps(s, s', n);
  }

  lemma {:induction false} RunKeepsInv(run: seq<State>, i: nat)
    requires IsRun(run) && i < |run|
    ensures Inv(run[i])
  {
    if i > 0 {
      RunKeepsInv(run, i - 1);
      assert Follows(run, i - 1);
      StepKeeps(run[i - 1], run[i]);
    } else {
      forall a ensures BalanceOk(run[0].store, a) {}
    }
  }

  // ----- the guarantees

  /** The committed entries with this key. */
  function WithKey(entries: seq<Entry>, key: Key): nat {
    if entries == [] then 0
    else WithKey(entries[..|entries| - 1], key) + if entries[|entries| - 1].key == key then 1 else 0
  }

  lemma {:induction false} AtMostOneWithKey(entries: seq<Entry>, key: Key)
    requires EntriesOk(entries)
    ensures WithKey(entries, key) == if FindEntry(entries, key).Some? then 1 else 0
  {
    if entries != [] {
      var front := entries[..|entries| - 1];
      forall i: nat ensures ChainOk(front, i) { assert ChainOk(entries, i); if i < |front| { assert front[..i] == entries[..i]; } }
      forall i: nat, j: nat ensures KeysApart(front, i, j) { assert KeysApart(entries, i, j); }
      AtMostOneWithKey(front, key);
      assert FindEntry(front, key).Some? ==> KeysApart(entries, FindEntry(front, key).value, |entries| - 1);
    }
  }

  /**
   However many credits and debits race for one key, exactly one entry is committed once any of them
   has succeeded, all that succeed answer that entry, and it is what each of them asked for.
   */
  lemma OneEntryPerKey(run: seq<State>, i: nat, n: nat, m: nat)
    requires IsRun(run) && i < |run| && n in run[i].calls && m in run[i].calls
    requires run[i].calls[n].Answered? && run[i].calls[n].result.Ok?
    requires run[i].calls[m].Answered? && run[i].calls[m].result.Ok? && run[i].calls[m].p.key == run[i].calls[n].p.key
    ensures WithKey(run[i].store.entries, run[i].calls[n].p.key) == 1
    ensures run[i].calls[n].result.value == run[i].calls[m].result.value && run[i].calls[n].result.value in run[i].store.entries
    ensures SamePosting(run[i].calls[n].result.value, run[i].calls[n].p)
  {
    RunKeepsInv(run, i);
    AtMostOneWithKey(run[i].store.entries, run[i].calls[n].p.key);
  }

  /** At every moment the committed balances are what the committed entries add up to, each entry once, and not negative. */
  lemma BalancesFollowEntries(run: seq<State>, i: nat, a: Account)
    requires IsRun(run) && i < |run|
    ensures run[i].store.Committed(a) == Net(run[i].store.entries, a) && 0 <= run[i].store.Committed(a) < LIMIT
    ensures forall k :: WithKey(run[i].store.entries, k) <= 1
  {
    RunKeepsInv(run, i);
    assert BalanceOk(run[i].store, a);
    forall k ensures WithKey(run[i].store.entries, k) <= 1 { AtMostOneWithKey(run[i].store.entries, k); }
  }

  /** A commit adds one entry and moves one balance by its amount; every other statement leaves both alone. */
  predicate Moves(s: Store, c: Call, s': Store, c': Call) {
    if s'.entries == s.entries && s'.balances == s.balances then true
    else
      var p := c.p;
      && c.Committing? && c'.Answered? && (c'.result.Ok? || c'.result.StoreFailed?)
      && s'.entries == s.entries + [PostingEntry(p, s.Committed(p.account), After(p, s.Committed(p.account)))]
      && s'.balances == s.balances[p.account := After(p, s.Committed(p.account))]
  }

  lemma StatementMoves(s: Store, n: nat, c: Call, s': Store, c': Call)
    requires CallOk(s, n, c) && CallStep(s, n, c, s', c')
    ensures Moves(s, c, s', c')
  {}

  /** The only step that changes what is committed is a commit, and it adds one entry and moves one balance by its amount. */
  lemma OnlyCommitsMoveMoney(run: seq<State>, i: nat)
    requires IsRun(run) && i + 1 < |run|
    ensures var s, s' := run[i].store, run[i + 1].store;
      || (s'.entries == s.entries && s'.balances == s.balances)
      || exists n :: n in run[i].calls && n in run[i + 1].calls && Moves(s, run[i].calls[n], s', run[i + 1].calls[n])
  {
    hide CallOk, CallStep, Moves;
    RunKeepsInv(run, i);
    assert Follows(run, i);
    var step :| NextBy(run[i], run[i + 1], step);
    if step.Run? { StatementMoves(run[i].store, step.n, run[i].calls[step.n], run[i + 1].store, step.c); }
  }

  /** The entry that holds a key stays where it is, whatever is committed later. */
  lemma {:induction false} HolderStays(run: seq<State>, i: nat, j: nat, key: Key)
    requires IsRun(run) && i <= j < |run| && FindEntry(run[i].store.entries, key).Some?
    ensures FindEntry(run[j].store.entries, key) == FindEntry(run[i].store.entries, key)
    ensures run[i].store.entries <= run[j].store.entries
    decreases j
  {
    if i < j {
      HolderStays(run, i, j - 1, key);
      RunKeepsInv(run, j - 1);
      assert Follows(run, j - 1);
      HolderStep(run[j - 1], run[j], key);
    }
  }

  lemma HolderStep(s: State, s': State, key: Key)
    requires Inv(s) && Next(s, s') && FindEntry(s.store.entries, key).Some?
    ensures FindEntry(s'.store.entries, key) == FindEntry(s.store.entries, key) && s.store.entries <= s'.store.entries
  {
    var step :| NextBy(s, s', step);
    if step.Run? && s.calls[step.n].Committing? {
      assert CallOk(s.store, step.n, s.calls[step.n]);
      FindAppended(s.store.entries, s.calls[step.n].entry, key);
    }
  }

  /** The posting could be answered by whoever holds its key, but asks for something else. */
  predicate TakenByAnother(s: Store, p: Posting) {
    var n := FindEntry(s.entries, p.key);
    n.Some? && !SamePosting(s.entries[n.value], p)
  }

  /**
   Once a key is committed for other parameters, no call that asks for it, whenever it
   started and whatever runs in between, is ever about to commit or has succeeded: it ends in
   a conflict or a failure, or a debit for want of balance, and none of its steps changes
   what is committed.
   */
  lemma LaterCallWithOtherParameters(run: seq<State>, i: nat, j: nat, n: nat)
    requires IsRun(run) && i <= j < |run| && n in run[j].calls && TakenByAnother(run[i].store, run[j].calls[n].p)
    ensures !run[j].calls[n].Committing?
    ensures run[j].calls[n].Answered? ==> run[j].calls[n].result in {Conflict, StoreFailed, Insufficient}
    ensures forall s', step :: StepOf(step, n) && NextBy(run[j], s', step) ==>
              s'.store.entries == run[j].store.entries && s'.store.balances == run[j].store.balances
  {
    HolderStays(run, i, j, run[j].calls[n].p.key);
    RunKeepsInv(run, j);
    assert CallOk(run[j].store, n, run[j].calls[n]);
    forall s', step | StepOf(step, n) && NextBy(run[j], s', step)
      ensures s'.store.entries == run[j].store.entries && s'.store.balances == run[j].store.balances
    {
      QuietStep(run[j], n, s', step);
    }
  }

  /** Of two debits with one key only one is ever at work, so they cannot meet at the unique key. */
  lemma DebitsTakeTurns(run: seq<State>, i: nat, n: nat, m: nat)
    requires IsRun(run) && i < |run| && n in run[i].calls && m in run[i].calls
    requires AtWork(run[i].calls[n]) && AtWork(run[i].calls[m]) && run[i].calls[n].p.key == run[i].calls[m].p.key
    requires !run[i].calls[n].p.kind.Adds() && !run[i].calls[m].p.kind.Adds()
    ensures n == m
  {
    RunKeepsInv(run, i);
    assert CallOk(run[i].store, n, run[i].calls[n]) && CallOk(run[i].store, m, run[i].calls[m]);
  }

  predicate StepOf(step: Step, n: nat) {
    !step.Start? && step.n == n
  }

  lemma QuietStep(s: State, n: nat, s': State, step: Step)
    requires StepOf(step, n) && NextBy(s, s', step) && !s.calls[n].Committing?
    ensures s'.store.entries == s.store.entries && s'.store.balances == s.store.balances
  {}
}
