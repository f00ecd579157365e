/** The reconcile-and-restore pass over provider routing as the worker runs it. */
module ProviderWorker {
  import opened Common
  import opened ProviderControls
  import opened ProviderRuns
  import opened ProviderRecovery
  import P = Publication

  ghost predicate AllReconcilable(s: Stores) {
    forall k :: s.Open(k) ==> Reconcilable(s, k)
  }

  /** Every gate is missing or agrees with its row, or its open operation can put it right. */
  ghost predicate Calm(s: Stores) {
    (forall k :: s.Open(k) ==> CalmAfter(s, k)) && (forall p :: p in s.log && Idle(s, p) ==> Quiet(s, p))
  }

  ghost predicate CalmAfter(s: Stores, k: Token) {
    k in s.ops && s.HasRow(Provider(s, k)) && QuietAfter(s, k)
  }

  /** No version was added, and every operation has ended the way its business transaction had gone. */
  ghost predicate Ended(s: Stores, s': Stores, todo: set<Token>) {
    && s'.log == s.log && s'.ops.Keys == s.ops.Keys
    && forall k :: k in s'.ops && k !in todo ==> s'.ops[k].state.Terminal() && (s'.ops[k].state.Committed? <==> s.ops[k].state.Durable())
  }

  /** The gates of reconciled operations came out as foreseen, if `exact` no worse; where nothing was open nothing changed. */
  ghost predicate Foreseen(s: Stores, s': Stores, todo: set<Token>, exact: bool) {
    && (forall k :: s.Open(k) && k !in todo ==>
          Reconcilable(s, k) && (Quiet(s', Provider(s, k)) ==> CalmAfter(s, k)) && (exact && CalmAfter(s, k) ==> Quiet(s', Provider(s, k))))
    && (forall p :: Idle(s, p) ==> (p in s'.gates <==> p in s.gates) && (p in s.gates ==> s'.gates[p] == s.gates[p]))
  }

  /** An operation not yet reached is as it was, with its key and its gate. */
  ghost predicate Waits(s: Stores, s': Stores, k: Token) {
    && s.Open(k) && k in s'.ops && s'.ops[k] == s.ops[k]
    && (k in s'.keys <==> k in s.keys) && (k in s.keys ==> s'.keys[k] == s.keys[k])
    && (Provider(s, k) in s'.gates <==> Provider(s, k) in s.gates)
    && (Provider(s, k) in s.gates ==> s'.gates[Provider(s, k)] == s.gates[Provider(s, k)])
  }

  ghost predicate AllWait(s: Stores, s': Stores, todo: set<Token>) {
    forall k :: k in todo ==> Waits(s, s', k)
  }

  lemma WaitingIsForeseen(s: Stores, s': Stores, k: Token)
    requires Waits(s, s', k) && s'.log == s.log
    ensures s.Open(k) && s'.Open(k) && (Reconcilable(s', k) <==> Reconcilable(s, k)) && (CalmAfter(s', k) <==> CalmAfter(s, k))
  {}

  lemma WaitKeeps(before: Stores, s: Stores, s': Stores, todo: set<Token>, k: Token)
    requires Exclusive(before) && AllWait(before, s, todo) && k in todo && Apart(s, s', k)
    ensures AllWait(before, s', todo - {k})
  {
    assert Waits(before, s, k);
    forall j | j in todo - {k} ensures Waits(before, s', j) {
      assert Waits(before, s, j);
      assert before.Open(j) && before.Open(k);
    }
  }

  lemma EndedKeeps(before: Stores, s: Stores, s': Stores, todo: set<Token>, k: Token)
    requires Ended(before, s, todo) && k in todo && Waits(before, s, k) && Apart(s, s', k)
    requires s'.ops[k].state == if s.ops[k].state.DbCommitted? then P.Committed else P.Aborted
    ensures Ended(before, s', todo - {k})
  {}

  lemma ForeseenKeeps(before: Stores, s: Stores, s': Stores, todo: set<Token>, k: Token, exact: bool)
    requires Exclusive(before) && Foreseen(before, s, todo, exact) && k in todo && Waits(before, s, k) && Apart(s, s', k) && s.log == before.log
    requires Reconcilable(s, k) && (Quiet(s', Provider(s, k)) ==> CalmAfter(s, k)) && (exact && CalmAfter(s, k) ==> Quiet(s', Provider(s, k)))
    ensures Foreseen(before, s', todo - {k}, exact)
  {
    WaitingIsForeseen(before, s, k);
    forall j | before.Open(j) && j !in todo - {k}
      ensures Reconcilable(before, j) && (Quiet(s', Provider(before, j)) ==> CalmAfter(before, j)) &&
              (exact && CalmAfter(before, j) ==> Quiet(s', Provider(before, j)))
    {
      if j != k {
        assert Provider(before, j) != Provider(before, k);
        assert Quiet(s', Provider(before, j)) <==> Quiet(s, Provider(before, j));
      }
    }
    forall p | Idle(before, p)
      ensures (p in s'.gates <==> p in before.gates) && (p in before.gates ==> s'.gates[p] == before.gates[p])
    {
      assert p != Provider(before, k);
    }
  }

  lemma ReconciledOne(before: Stores, s: Stores, s': Stores, todo: set<Token>, k: Token, exact: bool)
    requires Reachable(before) && Reachable(s) && Recovered(s, s', k) && k in todo && (exact ==> ReconcileOp(s, k) == Some(s'))
    requires AllWait(before, s, todo) && Ended(before, s, todo) && Foreseen(before, s, todo, exact)
    ensures AllWait(before, s', todo - {k}) && Ended(before, s', todo - {k}) && Foreseen(before, s', todo - {k}, exact)
  {
    hide Inv, Reachable, ReconcileOp, Apart, Reconcilable, Quiet, QuietAfter, Foreseen, Ended;
    assert Waits(before, s, k);
    ReachableHasInv(before);
    OnlyOneOpen(before);
    RowExists(s, k);
    ReconcilesIffOtherHalfCurrent(s, k);
    QuietAfterReconciling(s, k);
    WaitKeeps(before, s, s', todo, k);
    EndedKeeps(before, s, s', todo, k);
    SameLog(before, s, todo);
    ForeseenKeeps(before, s, s', todo, k, exact);
  }

  lemma SameLog(before: Stores, s: Stores, todo: set<Token>)
    requires Ended(before, s, todo)
    ensures s.log == before.log
  {}

  lemma RowExists(s: Stores, k: Token)
    requires Reachable(s) && k in s.ops
    ensures s.HasRow(Provider(s, k))
  {
    ReachableHasInv(s);
    assert OpOk(s, k) && LogOk(s, Provider(s, k));
  }

  ghost predicate AllQuiet(s: Stores) {
    forall p :: p in s.log ==> Quiet(s, p)
  }

  /** Whether restoring can succeed after the operations have been reconciled was already decided before. */
  lemma CalmAfterwards(s: Stores, s': Stores, exact: bool)
    requires Reachable(s) && s'.log == s.log && Foreseen(s, s', {}, exact)
    ensures AllQuiet(s') ==> Calm(s)
    ensures exact && Calm(s) ==> AllQuiet(s')
  {
    if exact && Calm(s) {
      forall p | p in s'.log ensures Quiet(s', p) {
        if Idle(s, p) {
          assert Quiet(s, p);
        } else {
          var k :| k in s.ops && Provider(s, k) == p && !s.ops[k].state.Terminal();
          assert s.Open(k) && CalmAfter(s, k);
        }
      }
    }
    if AllQuiet(s') {
      forall k | s.Open(k) ensures CalmAfter(s, k) {
        RowExists(s, k);
        assert Quiet(s', Provider(s, k));
      }
      forall p | p in s.log && Idle(s, p) ensures Quiet(s, p) {
        assert Quiet(s', p);
      }
    }
  }

  ghost predicate OnlyGate(s: Stores, s': Stores, p: int) {
    && s'.log == s.log && s'.ops == s.ops
    && forall q :: q != p ==> (q in s'.gates <==> q in s.gates) && (q in s.gates ==> s'.gates[q] == s.gates[q])
  }

  ghost predicate RestoredExcept(s: Stores, s': Stores, todo: set<int>) {
    && s'.log == s.log && s'.ops == s.ops
    && (forall p :: p in todo ==> (p in s'.gates <==> p in s.gates) && (p in s.gates ==> s'.gates[p] == s.gates[p]))
    && (forall p :: p in s.log && p !in todo ==> Agrees(s', p))
  }

  lemma RestoredOne(before: Stores, s: Stores, s': Stores, todo: set<int>, p: int)
    requires RestoredExcept(before, s, todo) && p in todo && OnlyGate(s, s', p) && Agrees(s', p)
    ensures RestoredExcept(before, s', todo - {p})
  {
    forall q | q in s'.log && q !in todo - {p} ensures Agrees(s', q) {
      if q != p { assert Agrees(s, q); }
    }
  }

  lemma RowsExist(s: Stores, p: int)
    requires Reachable(s) && p in s.log
    ensures s.HasRow(p)
  {
    ReachableHasInv(s);
    assert LogOk(s, p);
  }

  /** Every call to a store may fail, before or after it took effect, when `flaky`. */
  class Worker {
    var stores: Stores

    constructor (s: Stores)
      ensures stores == s
    {
      stores := s;
    }

    method ReconcileOne(k: Token, flaky: bool) returns (ok: bool)
      requires Reachable(stores) && stores.Open(k)
      modifies this
      ensures Reachable(stores)
      ensures ok ==> Recovered(old(stores), stores, k)
      ensures !flaky ==> if ok then ReconcileOp(old(stores), k) == Some(stores) else ReconcileOp(old(stores), k).None?
    {
      hide Apply, Reachable, Matches, CommitFence, AbortFence, Recovered;
      ghost var s := stores;
      var op := stores.ops[k];
      var p := op.envelope.providerID;
      if !ValidEnvelope(op.envelope) { return false; }
      if !stores.HasRow(p) { return false; }
      var row := stores.RowOf(p);
      if op.state.Preparing? {
        ok, stores := Attempt(stores, SetAborted(k), flaky);
        if ok { ReconciledRecovers(s, k); }
      } else if op.state.Prepared? {
        ok, stores := Attempt(stores, Abort(k, op.stored), flaky);
        if ok { ok, stores := Attempt(stores, SetAborted(k), flaky); }
        if ok { ReconciledRecovers(s, k); }
      } else {
        if !Matches(row, op.envelope) { return false; }
        var version := |stores.log[p]| - 1;
        var result := CommitFence(stores.CellOf(k), op.envelope.kind, k, op.stored).0;
        var heard;
        heard, stores := Attempt(stores, Commit(k, op.stored), flaky);
        WentOnRecovers(s, stores, k);
        ReconciledRecovers(s, k);
        ok := true;
        if !heard || result != FenceCommitted { ok, stores := Attempt(stores, Install(p, version), flaky); }
        if ok { ok, stores := Attempt(stores, SetCommitted(k), flaky); }
      }
    }

    /** Reconciles every operation that is open when the pass starts, stopping at the first error. */
    method Reconcile(flaky: bool) returns (ok: bool)
      requires Reachable(stores)
      modifies this
      ensures Reachable(stores)
      ensures ok ==> Ended(old(stores), stores, {}) && Foreseen(old(stores), stores, {}, !flaky) && AllReconcilable(old(stores))
      ensures AllReconcilable(old(stores)) && !flaky ==> ok
    {
      hide Apart, Recovered, Quiet, QuietAfter, Reconcilable, ReconcileOp, Ended, Foreseen, Waits, Reachable;
      ghost var before := stores;
      var todo := set k | k in stores.ops && stores.Open(k);
      StartsForeseen(before, todo, !flaky);
      while todo != {}
        invariant Reachable(stores)
        invariant Ended(before, stores, todo) && Foreseen(before, stores, todo, !flaky) && AllWait(before, stores, todo)
        invariant todo <= before.ops.Keys
        decreases |todo|
      {
        var k :| k in todo;
        assert Waits(before, stores, k);
        ghost var s := stores;
        SameLog(before, s, todo);
        WaitingIsForeseen(before, s, k);
        ReconcilesIffOtherHalfCurrent(s, k);
        var done := ReconcileOne(k, flaky);
        if !done { return false; }
        ReconciledOne(before, s, stores, todo, k, !flaky);
        todo := todo - {k};
      }
      ForeseenReconcilable(before, stores, !flaky);
      ok := true;
    }

    /** Installs the row where the gate is missing, or anyway when authoritative, and checks the gate. */
    method RestoreOne(p: int, authoritative: bool, flaky: bool) returns (ok: bool)
      requires Reachable(stores) && stores.HasRow(p)
      modifies this
      ensures Reachable(stores) && OnlyGate(old(stores), stores, p)
      ensures ok ==> Agrees(stores, p) && (authoritative || Quiet(old(stores), p))
      ensures (authoritative || Quiet(old(stores), p)) && !flaky ==> ok
    {
      hide Reachable;
      var row := stores.RowOf(p);
      var version := |stores.log[p]| - 1;
      ok, stores := Attempt(stores, if authoritative then Step.Replace(p, version) else Install(p, version), flaky);
      if !ok { return; }
      var fault := Fault(flaky);
      ok := !fault && p in stores.gates && stores.gates[p] == Stable(row);
    }

    method RestoreControls(authoritative: bool, flaky: bool) returns (ok: bool)
      requires Reachable(stores)
      modifies this
      ensures Reachable(stores) && stores.log == old(stores).log && stores.ops == old(stores).ops
      ensures ok ==> (forall p :: p in stores.log ==> Agrees(stores, p)) && (authoritative || AllQuiet(old(stores)))
      ensures (authoritative || AllQuiet(old(stores))) && !flaky ==> ok
    {
      hide Reachable, Agrees;
      ghost var before := stores;
      var todo := stores.log.Keys;
      while todo != {}
        invariant Reachable(stores) && todo <= before.log.Keys && RestoredExcept(before, stores, todo)
        invariant authoritative || forall p :: p in before.log && p !in todo ==> Quiet(before, p)
        decreases |todo|
      {
        HasElement(todo);
        var p :| p in todo;
        ghost var s := stores;
        RowsExist(s, p);
        assert Quiet(s, p) <==> Quiet(before, p);
        var done := RestoreOne(p, authoritative, flaky);
        if !done { return false; }
        RestoredOne(before, s, stores, todo, p);
        todo := todo - {p};
      }
      ok := true;
    }

    /**
     A whole pass.  Without an error every operation is terminal and every gate shows its row
     with nothing pending.  When no call fails, a start-up pass succeeds exactly when every
     operation is reconcilable, and a periodic pass exactly when, besides, no gate needs more
     than its own open operation to agree.
     */
    method Pass(authoritative: bool, flaky: bool) returns (ok: bool)
      requires Reachable(stores)
      modifies this
      ensures Reachable(stores)
      ensures ok ==> Ended(old(stores), stores, {}) && forall p :: p in stores.log ==> Agrees(stores, p)
      ensures ok ==> AllReconcilable(old(stores)) && (authoritative || Calm(old(stores)))
      ensures AllReconcilable(old(stores)) && (authoritative || Calm(old(stores))) && !flaky ==> ok
    {
      hide Reachable, Agrees, AllQuiet, Calm, AllReconcilable;
      ghost var before := stores;
      ok := Reconcile(flaky);
      if ok {
        CalmAfterwards(before, stores, !flaky);
        ok := RestoreControls(authoritative, flaky);
      }
    }
  }

  lemma HasElement(s: set<int>)
    ensures s == {} || exists p :: p in s
  {
    if forall p :: p !in s { assert s == {}; }
  }

  lemma StartsForeseen(s: Stores, todo: set<Token>, exact: bool)
    requires todo == set k | k in s.ops && s.Open(k)
    ensures Ended(s, s, todo) && Foreseen(s, s, todo, exact) && AllWait(s, s, todo)
  {}

  lemma ForeseenReconcilable(s: Stores, s': Stores, exact: bool)
    requires Foreseen(s, s', {}, exact)
    ensures AllReconcilable(s)
  {}
}
