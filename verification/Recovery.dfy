/**
 One reconcile-and-restore pass over ordinary controls, with no other writer: what it
 leaves behind when it reports no error, and exactly when it can.
 */
module Recovery {
  import opened Common
  import opened ControlScripts
  import opened Publication
  import opened PublicationRuns
  import opened Reachability

  predicate Open(s: Stores, k: Token) {
    k in s.ops && !s.ops[k].state.Terminal()
  }

  /** The control shows the business row, with nothing pending. */
  predicate Agrees(s: Stores, t: Target) {
    t in s.rows && s.Control(t) == Present(Some(s.rows[t]), None)
  }

  /** Reconciling one listed operation without faults; `None` is any error return. */
  function ReconcileOp(s: Stores, k: Token): Option<Stores>
    requires Open(s, k)
  {
    var op := s.ops[k];
    var r := op.request;
    var c := s.Control(r.target);
    if r.target !in s.rows || s.rows[r.target].revision != ExpectedRevision(op) then None
    else
      var row := s.rows[r.target];
      if op.state.DbCommitted? && row.payload != r.next.payload then None
      else if c.HasPending() && c.pending.value.version != r.next then None
      else
        var (code, cell) := Recover(s, op, row);
        if op.state.DbCommitted? then
          if code == CodeCommitted then Some(Mark(s.WithCell(r, cell), r, {DbCommitted}, Committed)) else None
        else
          if code == CodeAborted then Some(Mark(s.WithCell(r, cell), r, {Preparing, Prepared}, Aborted)) else None
  }

  /** `ReconcileOp` is a path of the protocol: the steps of one reconciler, none of them failing. */
  lemma ReconcileOpIsSteps(s: Stores, k: Token) returns (row: Version, mid: Stores)
    requires StoresOk(s) && Open(s, k) && ReconcileOp(s, k).Some?
    ensures row == s.rows[s.ops[k].request.target] && mid == s.WithCell(s.ops[k].request, Recover(s, s.ops[k], row).1)
    ensures var op := s.ops[k];
      && Starts(s, RecListed(op))
      && ReconcilerStep(s, RecListed(op), s, RecResolved(op, row))
      && ReconcilerStep(s, RecResolved(op, row), s, RecChecked(op, row))
      && ReconcilerStep(s, RecChecked(op, row), mid, RecMark(op))
      && ReconcilerStep(mid, RecMark(op), ReconcileOp(s, k).value, RecDone)
  {
    var op := s.ops[k];
    row := s.rows[op.request.target];
    mid := s.WithCell(op.request, Recover(s, op, row).1);
  }

  /**
   What an administrator could look up before the pass: the Redis operation key is not
   already marked aborted, no other operation is pending, the control is missing or at one
   of the operation's two revisions, and a publication that never reached its business
   transaction still starts from the current row.
   */
  predicate Recoverable(s: Stores, k: Token)
    requires Open(s, k)
  {
    var op := s.ops[k];
    var r := op.request;
    var c := s.Control(r.target);
    && (c.HasPending() ==> c.pending.value.token == k)
    && r.target in s.rows
    && if op.state.DbCommitted? then
         && !(k in s.redisOps && s.redisOps[k].mark.OpAborted?)
         && (c.Present? ==> c.ActiveRevision() in {r.current, r.next.revision})
       else
         && s.rows[r.target].revision == r.current
         && (c.Present? ==> c.active.Some? && c.ActiveRevision() == r.current)
  }

  /** Two committed versions of a target with one revision are the same version. */
  lemma CommittedVersionsAreUnique(s: Stores, t: Target, v: Version, w: Version)
    requires s.EverCommitted(t, v) && s.EverCommitted(t, w) && v.revision == w.revision
    ensures v == w
  {}

  /** What a good state says about one open operation and the control of its target. */
  predicate Facts(s: Stores, k: Token)
    requires Open(s, k)
  {
    var op := s.ops[k];
    var r := op.request;
    var c := s.Control(r.target);
    && r.token == k && r.Valid()
    && (op.state.DbCommitted? ==> r.target in s.rows && s.rows[r.target] == r.next)
    && (k in s.redisOps ==> s.redisOps[k].payload == r.next.payload && (s.redisOps[k].mark.OpCommitted? ==> op.state.DbCommitted?))
    && (c.HasPending() && c.pending.value.token == k ==> c.pending.value.version == r.next)
    && (r.target in s.rows ==> s.rows[r.target].revision >= 1)
    && (r.target in s.rows && c.ActiveRevision() == s.rows[r.target].revision ==> c.active == Some(s.rows[r.target]))
  }

  lemma GoodGivesFacts(s: Stores, k: Token)
    requires Good(s) && Open(s, k)
    ensures Facts(s, k)
  {
    var r := s.ops[k].request;
    var c := s.Control(r.target);
    assert ControlOk(s, r.target, c);
    if k in s.redisOps { assert RedisOpOk(s, k, s.redisOps[k]); }
    if r.target in s.rows {
      assert RowFromLog(s, r.target);
      if c.Present? && c.active.Some? && c.active.value.revision == s.rows[r.target].revision {
        CommittedVersionsAreUnique(s, r.target, c.active.value, s.rows[r.target]);
      }
    }
  }

  lemma FactsDecide(s: Stores, k: Token)
    requires Open(s, k) && Facts(s, k)
    ensures ReconcileOp(s, k).Some? <==> Recoverable(s, k)
  {}

  lemma ReconciledAgrees(s: Stores, k: Token)
    requires Open(s, k) && Facts(s, k) && ReconcileOp(s, k).Some?
    ensures var s' := ReconcileOp(s, k).value;
      && s'.rows == s.rows && s'.ops.Keys == s.ops.Keys && s'.ops[k].state.Terminal()
      && (s'.ops[k].state.Committed? <==> s.ops[k].state.DbCommitted?)
      && Agrees(s', s.ops[k].request.target)
  {}

  /** An operation is reconciled exactly when it is recoverable, and then row and control agree. */
  lemma ReconcilesIffRecoverable(s: Stores, k: Token)
    requires Good(s) && Open(s, k)
    ensures ReconcileOp(s, k).Some? <==> Recoverable(s, k)
    ensures ReconcileOp(s, k).Some? ==>
      var s' := ReconcileOp(s, k).value;
      && s'.rows == s.rows && s'.ops.Keys == s.ops.Keys && s'.ops[k].state.Terminal()
      && (s'.ops[k].state.Committed? <==> s.ops[k].state.DbCommitted?)
      && Agrees(s', s.ops[k].request.target)
  {
    GoodGivesFacts(s, k);
    FactsDecide(s, k);
    if ReconcileOp(s, k).Some? { ReconciledAgrees(s, k); }
  }

  // ----- reconciling one operation leaves the others as they were

  /** Only the keys of one operation differ. */
  ghost predicate Apart(s: Stores, s': Stores, k: Token)
    requires k in s.ops
  {
    && s'.rows == s.rows && s'.ops.Keys == s.ops.Keys
    && (forall j :: j in s.ops && j != k ==> s'.ops[j] == s.ops[j])
    && (forall j :: j != k ==> (j in s'.redisOps <==> j in s.redisOps) && (j in s.redisOps ==> s'.redisOps[j] == s.redisOps[j]))
    && (forall t :: t != s.ops[k].request.target ==> s'.Control(t) == s.Control(t))
  }

  lemma ReconcileOpIsApart(s: Stores, k: Token)
    requires Open(s, k) && Facts(s, k) && ReconcileOp(s, k).Some?
    ensures Apart(s, ReconcileOp(s, k).value, k)
  {}

  lemma ReconcileOpIsReachable(s: Stores, k: Token)
    requires Reachable(s) && Open(s, k) && ReconcileOp(s, k).Some?
    ensures Reachable(ReconcileOp(s, k).value)
    ensures var r := s.ops[k].request; Reachable(s.WithCell(r, Recover(s, s.ops[k], s.rows[r.target]).1))
  {
    ReachableIsGood(s);
    var row, mid := ReconcileOpIsSteps(s, k);
    var op := s.ops[k];
    StartHolds(s, RecListed(op));
    RunHolds(s, RecListed(op), s, RecResolved(op, row));
    RunHolds(s, RecResolved(op, row), s, RecChecked(op, row));
    RunHolds(s, RecChecked(op, row), mid, RecMark(op));
    RunHolds(mid, RecMark(op), ReconcileOp(s, k).value, RecDone);
  }

  lemma OthersStayRecoverable(s: Stores, s': Stores, k: Token, j: Token)
    requires Exclusive(s) && Open(s, k) && Open(s, j) && j != k && Apart(s, s', k)
    ensures Open(s', j) && (Recoverable(s', j) <==> Recoverable(s, j))
  {}

  lemma RestoreIsReachable(s: Stores, t: Target, c: Control)
    requires Reachable(s) && t in s.rows
    requires c == RestoreMissing(s.Control(t), s.rows[t]) || c == Replace(s.rows[t])
    ensures Reachable(s.(controls := s.controls[t := c]))
  {
    StartHolds(s, Restore(t, s.rows[t]));
    RunHolds(s, Restore(t, s.rows[t]), s.(controls := s.controls[t := c]), RecDone);
  }

  /** A recovery worker.  Every call to a store may fail, before or after it took effect, when `flaky`. */
  class Worker {
    var stores: Stores

    constructor (s: Stores)
      ensures stores == s
    {
      stores := s;
    }

    method ReconcileOne(k: Token, flaky: bool) returns (ok: bool)
      requires Reachable(stores) && Open(stores, k)
      modifies this
      ensures Reachable(stores)
      ensures ok ==> ReconcileOp(old(stores), k) == Some(stores)
      ensures !flaky && !ok ==> ReconcileOp(old(stores), k).None?
    {
      var op := stores.ops[k];
      var r := op.request;
      var fault := Fault(flaky);
      if fault { return false; }
      if r.target !in stores.rows || stores.rows[r.target].revision != ExpectedRevision(op) { return false; }
      var row := stores.rows[r.target];
      fault := Fault(flaky);
      if fault { return false; }
      var snapshot := stores.Control(r.target);
      if op.state.DbCommitted? && row.payload != r.next.payload { return false; }
      if snapshot.HasPending() && snapshot.pending.value.version != r.next { return false; }
      fault := Fault(flaky);
      if fault { return false; }
      var (code, cell) := Recover(stores, op, row);
      if code != (if op.state.DbCommitted? then CodeCommitted else CodeAborted) { return false; }
      ReconcileOpIsReachable(stores, k);
      stores := stores.WithCell(r, cell);
      fault := Fault(flaky);
      if fault { return false; }
      if op.state.DbCommitted? {
        stores := Mark(stores, r, {DbCommitted}, Committed);
      } else {
        stores := Mark(stores, r, {Preparing, Prepared}, Aborted);
      }
      fault := Fault(flaky);
      ok := !fault;
    }

    /** Reconciles every operation that is open when the pass starts, stopping at the first error. */
    method Reconcile(flaky: bool) returns (ok: bool)
      requires Reachable(stores)
      modifies this
      ensures Reachable(stores)
      ensures ok ==> Ended(old(stores), stores, {}) && Settled(old(stores), stores, {})
      ensures ok ==> AllRecoverable(old(stores))
      ensures AllRecoverable(old(stores)) && !flaky ==> ok
    {
      ghost var before := stores;
      var todo := set k | k in stores.ops && Open(stores, k);
      while todo != {}
        invariant Reachable(stores)
        invariant Ended(before, stores, todo) && Settled(before, stores, todo) && AllUntouched(before, stores, todo)
        invariant forall k :: Open(before, k) && k !in todo ==> Recoverable(before, k)
        decreases |todo|
      {
        var k :| k in todo;
        assert Untouched(before, stores, k);
        ghost var s := stores;
        SucceedsIffRecoverable(s, k);
        var done := ReconcileOne(k, flaky);
        if !done { return false; }
        ReconciledOne(before, s, stores, todo, k);
        todo := todo - {k};
      }
      ok := true;
    }

    /** Installs the business row where the control is missing, or anyway when authoritative, and checks the control. */
    method RestoreOne(t: Target, authoritative: bool, flaky: bool) returns (ok: bool)
      requires Reachable(stores) && t in stores.rows
      modifies this
      ensures Reachable(stores) && OnlyControl(old(stores), stores, t)
      ensures ok ==> Agrees(stores, t)
      ensures ok ==> authoritative || old(stores).Control(t).Absent? || Agrees(old(stores), t)
      ensures (authoritative || old(stores).Control(t).Absent? || Agrees(old(stores), t)) && !flaky ==> ok
    {
      var row := stores.rows[t];
      var fault := Fault(flaky);
      if fault { return false; }
      var control := if authoritative then Replace(row) else RestoreMissing(stores.Control(t), row);
      RestoreIsReachable(stores, t, control);
      stores := stores.(controls := stores.controls[t := control]);
      fault := Fault(flaky);
      if fault { return false; }
      var snapshot := stores.Control(t);
      ok := !snapshot.HasPending() && snapshot.ActiveRevision() == row.revision && snapshot.active == Some(row);
    }

    method RestoreControls(authoritative: bool, flaky: bool) returns (ok: bool)
      requires Reachable(stores)
      modifies this
      ensures Reachable(stores) && stores.rows == old(stores).rows && stores.ops == old(stores).ops
      ensures ok ==> forall t :: t in stores.rows ==> Agrees(stores, t)
      ensures ok ==> authoritative || MissingOrAgreeing(old(stores))
      ensures (authoritative || MissingOrAgreeing(old(stores))) && !flaky ==> ok
    {
      hide RestoreMissing, Replace;
      ghost var before := stores;
      var todo := stores.rows.Keys;
      while todo != {}
        invariant Reachable(stores) && todo <= before.rows.Keys && RestoredExcept(before, stores, todo)
        invariant authoritative || forall t :: t in before.rows && t !in todo ==> before.Control(t).Absent? || Agrees(before, t)
        decreases |todo|
      {
        var t :| t in todo;
        var done := RestoreOne(t, authoritative, flaky);
        if !done { return false; }
        todo := todo - {t};
      }
      ok := true;
    }

    /**
     A whole pass.  Without an error every operation is terminal and every control shows
     its business row with nothing pending.  When no call fails, a start-up pass fails exactly
     when some open operation is not recoverable, and a periodic pass fails in that case or
     when a control that no open operation explains differs from its row.
     */
    method Pass(authoritative: bool, flaky: bool) returns (ok: bool)
      requires Reachable(stores)
      modifies this
      ensures Reachable(stores)
      ensures ok ==> Ended(old(stores), stores, {}) && forall t :: t in stores.rows ==> Agrees(stores, t)
      ensures ok ==> AllRecoverable(old(stores)) && (authoritative || Explained(old(stores)))
      ensures AllRecoverable(old(stores)) && (authoritative || Explained(old(stores))) && !flaky ==> ok
    {
      ghost var before := stores;
      ok := Reconcile(flaky);
      if ok {
        ghost var middle := stores;
        ExplainedAfterwards(before, middle);
        ok := RestoreControls(authoritative, flaky);
      }
    }
  }

  ghost predicate OnlyControl(s: Stores, s': Stores, t: Target) {
    s'.rows == s.rows && s'.ops == s.ops && forall u :: u != t ==> s'.Control(u) == s.Control(u)
  }

  ghost predicate RestoredExcept(s: Stores, s': Stores, todo: set<Target>) {
    && s'.rows == s.rows && s'.ops == s.ops
    && (forall t :: t in todo ==> s'.Control(t) == s.Control(t))
    && (forall t :: t in s.rows && t !in todo ==> Agrees(s', t))
  }

  ghost predicate AllRecoverable(s: Stores) {
    forall k :: Open(s, k) ==> Recoverable(s, k)
  }

  ghost predicate MissingOrAgreeing(s: Stores) {
    forall t :: t in s.rows ==> s.Control(t).Absent? || Agrees(s, t)
  }

  ghost predicate HasOpen(s: Stores, t: Target) {
    exists k :: Open(s, k) && s.ops[k].request.target == t
  }

  /** Where no open operation accounts for a difference there is none. */
  ghost predicate Explained(s: Stores) {
    forall t :: t in s.rows && !HasOpen(s, t) ==> s.Control(t).Absent? || Agrees(s, t)
  }

  /** The rows are untouched, and every operation has ended the way its business transaction had gone. */
  ghost predicate Ended(s: Stores, s': Stores, todo: set<Token>) {
    && s'.rows == s.rows && s'.ops.Keys == s.ops.Keys
    && forall k :: k in s'.ops && k !in todo ==> s'.ops[k].state.Terminal() && (s'.ops[k].state.Committed? <==> s.ops[k].state.Durable())
  }

  /** The targets of the operations that were reconciled agree; no other control was touched. */
  ghost predicate Settled(s: Stores, s': Stores, todo: set<Token>) {
    && (forall k :: Open(s, k) && k !in todo ==> Agrees(s', s.ops[k].request.target))
    && (forall t :: !HasOpen(s, t) ==> s'.Control(t) == s.Control(t))
  }

  /** An operation not yet reached is as it was, and as recoverable as it was. */
  ghost predicate Untouched(s: Stores, s': Stores, k: Token) {
    Open(s, k) && Open(s', k) && s'.ops[k] == s.ops[k] && (Recoverable(s', k) <==> Recoverable(s, k))
  }

  ghost predicate AllUntouched(s: Stores, s': Stores, todo: set<Token>) {
    forall k :: k in todo ==> Untouched(s, s', k)
  }

  lemma UntouchedKeeps(before: Stores, s: Stores, s': Stores, todo: set<Token>, k: Token)
    requires Exclusive(s) && AllUntouched(before, s, todo) && k in todo && Apart(s, s', k)
    ensures AllUntouched(before, s', todo - {k})
  {
    assert Untouched(before, s, k);
    forall j | j in todo - {k} ensures Untouched(before, s', j) {
      assert Untouched(before, s, j);
      OthersStayRecoverable(s, s', k, j);
    }
  }

  lemma EndedKeeps(before: Stores, s: Stores, s': Stores, todo: set<Token>, k: Token)
    requires Ended(before, s, todo) && k in todo && Untouched(before, s, k) && Apart(s, s', k)
    requires s'.ops[k].state.Terminal() && (s'.ops[k].state.Committed? <==> s.ops[k].state.DbCommitted?)
    ensures Ended(before, s', todo - {k})
  {}

  lemma SettledKeeps(before: Stores, s: Stores, s': Stores, todo: set<Token>, k: Token)
    requires Settled(before, s, todo) && k in todo && Untouched(before, s, k) && Apart(s, s', k)
    requires Exclusive(before) && Agrees(s', s.ops[k].request.target)
    ensures Settled(before, s', todo - {k})
  {
    forall j | Open(before, j) && j !in todo - {k} ensures Agrees(s', before.ops[j].request.target) {
      if j != k { assert Agrees(s, before.ops[j].request.target); }
    }
    forall t | !HasOpen(before, t) ensures s'.Control(t) == before.Control(t) {
      assert t != before.ops[k].request.target;
    }
  }

  lemma SucceedsIffRecoverable(s: Stores, k: Token)
    requires Reachable(s) && Open(s, k)
    ensures ReconcileOp(s, k).Some? <==> Recoverable(s, k)
  {
    ReachableIsGood(s);
    ReconcilesIffRecoverable(s, k);
  }

  lemma ReconciledOne(before: Stores, s: Stores, s': Stores, todo: set<Token>, k: Token)
    requires Reachable(before) && Reachable(s) && Open(s, k) && ReconcileOp(s, k) == Some(s')
    requires AllUntouched(before, s, todo) && Ended(before, s, todo) && Settled(before, s, todo) && k in todo
    ensures AllUntouched(before, s', todo - {k}) && Ended(before, s', todo - {k}) && Settled(before, s', todo - {k})
  {
    ReachableIsGood(before);
    ReachableIsGood(s);
    GoodGivesFacts(s, k);
    ReconcileOpIsApart(s, k);
    ReconciledAgrees(s, k);
    assert Untouched(before, s, k);
    UntouchedKeeps(before, s, s', todo, k);
    EndedKeeps(before, s, s', todo, k);
    SettledKeeps(before, s, s', todo, k);
  }

  lemma ExplainedAfterwards(s: Stores, s': Stores)
    requires s'.rows == s.rows && Settled(s, s', {})
    ensures MissingOrAgreeing(s') <==> Explained(s)
  {
    forall t | t in s.rows && HasOpen(s, t) ensures Agrees(s', t) {
      var k :| Open(s, k) && s.ops[k].request.target == t;
    }
    if MissingOrAgreeing(s') {
      forall t | t in s.rows && !HasOpen(s, t) ensures s.Control(t).Absent? || Agrees(s, t) {
        assert s'.Control(t).Absent? || Agrees(s', t);
      }
    }
  }
}
