/** A call that nobody disturbs does, statement by statement, what the ledger's operation does at once. */
module PostingAlone {
  import opened Ledger
  import opened PostingRace

  /** The committed rows as books without holds. */
  function BooksOf(s: Store): Books {
    Books(map a | a in s.balances :: Balance(s.balances[a], 0), s.entries, [], map[])
  }

  ghost predicate OwnMove(s: State, s': State, n: nat) {
    exists c :: NextBy(s, s', Step.Run(n, c))
  }

  ghost predicate MoveAt(path: seq<State>, i: nat, n: nat) {
    i + 1 < |path| ==> OwnMove(path[i], path[i + 1], n)
  }

  /** From one state to the other by statements of this call alone. */
  ghost predicate Path(path: seq<State>, s: State, s': State, n: nat) {
    |path| > 0 && path[0] == s && path[|path| - 1] == s' && forall i: nat :: MoveAt(path, i, n)
  }

  ghost predicate Alone(s: State, s': State, n: nat) {
    exists path :: Path(path, s, s', n)
  }

  lemma Nothing(s: State, n: nat)
    ensures Alone(s, s, n)
  {
    assert forall i: nat :: MoveAt([s], i, n);
    assert Path([s], s, s, n);
  }

  lemma Then(s: State, m: State, n: nat, store: Store, c: Call) returns (s': State)
    requires Alone(s, m, n) && n in m.calls && CallStep(m.store, n, m.calls[n], store, c)
    ensures s' == State(store, m.calls[n := c]) && Alone(s, s', n)
  {
    s' := State(store, m.calls[n := c]);
    var path: seq<State> :| Path(path, s, m, n);
    assert NextBy(m, s', Step.Run(n, c));
    var longer := path + [s'];
    forall i: nat ensures MoveAt(longer, i, n) { assert MoveAt(path, i, n); }
    assert Path(longer, s, s', n);
  }

  /** Nobody else holds the row or the key. */
  predicate Undisturbed(s: Store, n: nat, p: Posting) {
    s.RowFree(p.account, n) && s.KeyFree(p.key, n) && (p.key in s.advisory ==> s.advisory[p.key] == n)
  }

  /** The answer and the committed rows are those of the operation. */
  predicate EndsAs(s: State, n: nat, p: Posting, b: Books, result: Result<Entry>) {
    n in s.calls && s.calls[n] == Answered(p, result) && BooksOf(s.store) == b
  }

  lemma CreditStarts(s: State, n: nat, p: Posting) returns (m: State)
    requires n in s.calls && s.calls[n] == Looking(p) && Undisturbed(s.store, n, p) && FindEntry(s.store.entries, p.key).None?
    requires p.kind.Adds() || p.account in s.store.balances
    ensures Alone(s, m, n) && n in m.calls && m.calls[n] == Adding(p, s.store.Committed(p.account))
    ensures m.store == s.store.(rows := s.store.rows[p.account := n])
  {
    Nothing(s, n);
    m := Then(s, s, n, s.store, Locking(p));
    m := Then(s, m, n, s.store.(rows := s.store.rows[p.account := n]), Adding(p, s.store.Committed(p.account)));
  }

  /** From the balance row on, when the balance allows the posting. */
  lemma Inserts(s: State, m: State, n: nat, p: Posting) returns (s': State)
    requires Alone(s, m, n) && n in m.calls && m.calls[n] == Adding(p, m.store.Committed(p.account)) && m.store.KeyFree(p.key, n)
    requires FindEntry(m.store.entries, p.key).None? && After(p, m.store.Committed(p.account)) < LIMIT
    requires p.kind.Adds() || m.store.Committed(p.account) >= p.amount
    ensures Alone(s, s', n) && n in s'.calls
    ensures var before := m.store.Committed(p.account); var e := PostingEntry(p, before, After(p, before));
      if Storable(p.amount, p.key)
      then s'.calls[n] == Answered(p, Ok(e)) && s'.store.entries == m.store.entries + [e] && s'.store.balances == m.store.balances[p.account := e.after]
      else s'.calls[n] == Answered(p, StoreFailed) && s'.store.entries == m.store.entries && s'.store.balances == m.store.balances
  {
    var before := m.store.Committed(p.account);
    var e := PostingEntry(p, before, After(p, before));
    s' := Then(s, m, n, m.store, Inserting(p, before));
    if Storable(p.amount, p.key) {
      s' := Then(s, s', n, m.store.(keys := m.store.keys[p.key := n]), Committing(p, e));
      var t := s'.store;
      s' := Then(s, s', n, t.(balances := t.balances[p.account := e.after], entries := t.entries + [e]).Unlock(n), Answered(p, Ok(e)));
    } else {
      s' := Then(s, s', n, m.store.Unlock(n), Answered(p, StoreFailed));
    }
  }

  /** An undisturbed credit answers and commits what `PostCredit` does. */
  lemma UndisturbedCredit(s: State, n: nat, p: Posting) returns (s': State)
    requires n in s.calls && s.calls[n] == Looking(p) && p.kind.Adds() && Undisturbed(s.store, n, p)
    ensures Alone(s, s', n) && var (b, result) := PostCredit(BooksOf(s.store), p); EndsAs(s', n, p, b, result)
  {
    var seen := FindEntry(s.store.entries, p.key);
    Nothing(s, n);
    if seen.Some? {
      s' := Then(s, s, n, s.store.Unlock(n), Answered(p, Answer(s.store.entries[seen.value], p)));
    } else {
      var m := CreditStarts(s, n, p);
      if After(p, m.store.Committed(p.account)) < LIMIT { s' := Inserts(s, m, n, p); }
      else { s' := Then(s, m, n, m.store.Unlock(n), Answered(p, StoreFailed)); }
      CreditBooks(s.store, s'.store, p);
    }
  }

  lemma CreditBooks(s: Store, s': Store, p: Posting)
    ensures s'.balances == s.balances[p.account := s.Committed(p.account) + p.amount] ==>
              BooksOf(s').balances == BooksOf(s).balances[p.account := Balance(s.Committed(p.account) + p.amount, 0)]
    ensures s'.balances == s.balances ==> BooksOf(s').balances == BooksOf(s).balances
    ensures BalanceOf(BooksOf(s), p.account) == Balance(s.Committed(p.account), 0)
  {}

  lemma DebitBooks(s: Store, s': Store, p: Posting)
    requires p.account in s.balances
    ensures s'.balances == s.balances[p.account := s.balances[p.account] - p.amount] ==>
              BooksOf(s').balances == BooksOf(s).balances[p.account := Balance(s.balances[p.account] - p.amount, 0)]
  {}

  /** An undisturbed debit answers and commits what `PostDebit` does. */
  lemma UndisturbedDebit(s: State, n: nat, p: Posting) returns (s': State)
    requires Inv(s) && n in s.calls && s.calls[n] == Asking(p) && !p.kind.Adds() && Undisturbed(s.store, n, p)
    ensures Alone(s, s', n) && var (b, result) := PostDebit(BooksOf(s.store), p); EndsAs(s', n, p, b, result)
  {
    assert BalanceOk(s.store, p.account);
    var seen := FindEntry(s.store.entries, p.key);
    Nothing(s, n);
    var l := Then(s, s, n, s.store.(advisory := s.store.advisory[p.key := n]), Looking(p));
    if seen.Some? {
      s' := Then(s, l, n, l.store.Unlock(n), Answered(p, Answer(s.store.entries[seen.value], p)));
    } else {
      s' := DebitGoesOn(s, l, n, p);
    }
  }

  lemma DebitGoesOn(s: State, l: State, n: nat, p: Posting) returns (s': State)
    requires Alone(s, l, n) && n in l.calls && l.calls[n] == Looking(p) && !p.kind.Adds() && Undisturbed(l.store, n, p)
    requires FindEntry(l.store.entries, p.key).None? && l.store.Committed(p.account) < LIMIT
    ensures Alone(s, s', n) && var (b, result) := PostDebit(BooksOf(l.store), p); EndsAs(s', n, p, b, result)
  {
    var m := Then(s, l, n, l.store, Locking(p));
    if p.account !in l.store.balances {
      s' := Then(s, m, n, m.store.Unlock(n), Answered(p, Insufficient));
    } else {
      var before := l.store.Committed(p.account);
      m := Then(s, m, n, l.store.(rows := l.store.rows[p.account := n]), Adding(p, before));
      if before < p.amount {
        s' := Then(s, m, n, m.store.Unlock(n), Answered(p, Insufficient));
      } else if After(p, before) < LIMIT {
        s' := Inserts(s, m, n, p);
      } else {
        s' := Then(s, m, n, m.store.Unlock(n), Answered(p, StoreFailed));
      }
      DebitBooks(l.store, s'.store, p);
    }
  }
}
