/** What the publication protocol guarantees over whole runs. */
module PublicationRuns {
  import opened Common
  import opened ControlScripts
  import opened Publication

  lemma InitIsOk(s: State)
    requires Init(s)
    ensures Inv(s)
  {
    forall t | t in s.stores.rows ensures RowFromLog(s.stores, t) {}
  }

  lemma {:induction false} RunKeepsInv(run: seq<State>, i: nat)
    requires IsRun(run) && i < |run|
    ensures Inv(run[i])
  {
    if i == 0 {
      InitIsOk(run[0]);
    } else {
      RunKeepsInv(run, i - 1);
      assert Follows(run, i - 1);
      StepKeeps(run[i - 1], run[i]);
    }
  }

  lemma RunStep(run: seq<State>, i: nat)
    requires IsRun(run) && i + 1 < |run|
    ensures Extends(run[i].stores, run[i + 1].stores)
    ensures LogStep(run[i].stores, run[i + 1].stores)
  {
    hide Extends, StoresOk, PublisherStep, ReconcilerStep, LocalOk;
    RunKeepsInv(run, i);
    assert Follows(run, i);
    StepKeeps(run[i], run[i + 1]);
    var step :| NextBy(run[i], run[i + 1], step);
    if step.Run? { RunLogs(run[i].stores, run[i].procs[step.p], run[i + 1].stores, step.l); }
  }

  /** A step leaves all logs and rows alone, or commits one prepared operation. */
  ghost predicate LogStep(s: Stores, s': Stores) {
    || (s'.log == s.log && s'.rows == s.rows)
    || exists r :: CanCommitBusiness(s, r) && s' == CommitBusiness(s, r)
  }

  lemma RunLogs(s: Stores, l: Local, s': Stores, l': Local)
    requires PublisherStep(s, l, s', l') || ReconcilerStep(s, l, s', l')
    ensures LogStep(s, s')
  {
    if l.PubBusiness? && s' != s { assert CanCommitBusiness(s, l.req) && s' == CommitBusiness(s, l.req); }
  }

  predicate LaterThan(a: OpState, b: OpState) {
    || a == b || a.Preparing? || (a.Prepared? && !b.Preparing?) || (a.DbCommitted? && b.Committed?)
  }

  /** What any number of steps can do to operations and logs. */
  predicate Later(s: Stores, s': Stores) {
    && s.start == s'.start && s.log.Keys == s'.log.Keys
    && (forall t :: t in s.log ==> s.log[t] <= s'.log[t])
    && (forall k :: k in s.ops ==> k in s'.ops && s'.ops[k].request == s.ops[k].request &&
                                   LaterThan(s.ops[k].state, s'.ops[k].state))
  }

  lemma LaterByOne(s: Stores, m: Stores, s': Stores)
    requires Later(s, m) && Extends(m, s')
    ensures Later(s, s')
  {}

  lemma {:induction false} RunExtends(run: seq<State>, i: nat, j: nat)
    requires IsRun(run) && i <= j < |run|
    ensures Later(run[i].stores, run[j].stores)
    decreases j
  {
    if i < j {
      RunExtends(run, i, j - 1);
      RunStep(run, j - 1);
      LaterByOne(run[i].stores, run[j - 1].stores, run[j].stores);
    }
  }

  /** A committed version was the PostgreSQL row at some earlier moment of the run. */
  lemma {:induction false} CommittedWasTheRow(run: seq<State>, i: nat, t: Target, v: Version) returns (j: nat)
    requires IsRun(run) && i < |run| && run[i].stores.EverCommitted(t, v)
    ensures j <= i && t in run[j].stores.rows && run[j].stores.rows[t] == v
    decreases i
  {
    var s := run[i].stores;
    RunKeepsInv(run, i);
    assert RowFromLog(s, t);
    if s.rows[t] == v || i == 0 {
      j := i;
    } else {
      RunStep(run, i - 1);
      EarlierVersion(run[i - 1].stores, s, t, v);
      j := CommittedWasTheRow(run, i - 1, t, v);
    }
  }

  /** Whatever a step finds committed, other than the row it may just have written, was committed before. */
  lemma EarlierVersion(s: Stores, s': Stores, t: Target, v: Version)
    requires Rows(s') && LogStep(s, s') && s.start == s'.start && s.log.Keys == s'.log.Keys
    requires s'.EverCommitted(t, v) && s'.rows[t] != v
    ensures s.EverCommitted(t, v)
  {
    assert RowFromLog(s', t);
    if s'.log[t] != s.log[t] {
      var r :| CanCommitBusiness(s, r) && s' == CommitBusiness(s, r);
      assert s'.log[t] == s.log[t] + [Commitment(r.token, r.next.payload)];
    }
  }

  // ----- the guarantees

  /**
   Redis only ever shows what PostgreSQL has committed: in every state of every run, the
   active version of a control was the business row of its target at some moment up to
   then, and its revision is not ahead of the row as it is now.
   */
  lemma RedisShowsCommittedVersions(run: seq<State>, i: nat, t: Target)
    requires IsRun(run) && i < |run|
    requires run[i].stores.Control(t).Present? && run[i].stores.Control(t).active.Some?
    ensures var v := run[i].stores.Control(t).active.value;
            && (exists j :: 0 <= j <= i && t in run[j].stores.rows && run[j].stores.rows[t] == v)
            && t in run[i].stores.rows && v.revision <= run[i].stores.rows[t].revision
  {
    var s := run[i].stores;
    RunKeepsInv(run, i);
    assert ControlOk(s, t, s.controls[t]);
    assert RowFromLog(s, t);
    var j := CommittedWasTheRow(run, i, t, s.controls[t].active.value);
  }

  /**
   The fate of an operation is sealed once: after its business transaction it is never
   aborted, after an abort it is never committed, and its fields never change.
   */
  lemma NeverBothCommittedAndAborted(run: seq<State>, i: nat, j: nat, k: Token)
    requires IsRun(run) && i <= j < |run| && k in run[i].stores.ops
    ensures k in run[j].stores.ops && run[j].stores.ops[k].request == run[i].stores.ops[k].request
    ensures run[i].stores.ops[k].state.Durable() ==> run[j].stores.ops[k].state.Durable()
    ensures run[i].stores.ops[k].state.Aborted? ==> run[j].stores.ops[k].state.Aborted?
  {
    RunExtends(run, i, j);
  }

  /** The step from `run[i]` runs the business transaction of this token. */
  predicate CommitsBusiness(run: seq<State>, i: nat, k: Token)
    requires i + 1 < |run|
  {
    k in run[i].stores.ops && run[i].stores.ops[k].state.Prepared? &&
    k in run[i + 1].stores.ops && run[i + 1].stores.ops[k].state.DbCommitted?
  }

  /** However often a publication is retried, its business transaction takes effect once. */
  lemma BusinessCommitsAtMostOnce(run: seq<State>, i: nat, j: nat, k: Token)
    requires IsRun(run) && i + 1 < |run| && j + 1 < |run|
    requires CommitsBusiness(run, i, k) && CommitsBusiness(run, j, k)
    ensures i == j
  {
    if i < j { RunExtends(run, i + 1, j); }
    if j < i { RunExtends(run, j + 1, i); }
  }

  /** A business row changes only in a step that commits one operation, and then to that operation's version. */
  lemma RowsMoveOnlyByCommits(run: seq<State>, i: nat, t: Target)
    requires IsRun(run) && i + 1 < |run| && t in run[i].stores.rows
    ensures t in run[i + 1].stores.rows
    ensures run[i + 1].stores.rows[t] == run[i].stores.rows[t]
            || exists k :: CommitsBusiness(run, i, k) && run[i].stores.ops[k].request.target == t
                           && run[i].stores.ops[k].request.current == run[i].stores.rows[t].revision
                           && run[i + 1].stores.rows[t] == run[i].stores.ops[k].request.next
  {
    RunStep(run, i);
    var s, s' := run[i].stores, run[i + 1].stores;
    if s'.rows[t] != s.rows[t] {
      var r :| CanCommitBusiness(s, r) && s' == CommitBusiness(s, r);
      assert CommitsBusiness(run, i, r.token);
    }
  }

  /** The operations of a target whose business transaction has been committed. */
  ghost function DurableOps(s: Stores, t: Target): set<Token> {
    set k | k in s.ops && s.ops[k].request.target == t && s.ops[k].state.Durable()
  }

  /** The revision of a row counts the operations that reached db_committed. */
  lemma RevisionCountsCommits(run: seq<State>, i: nat, t: Target)
    requires IsRun(run) && i < |run| && t in run[i].stores.rows
    ensures t in run[0].stores.rows
    ensures run[i].stores.rows[t].revision == run[0].stores.rows[t].revision + |DurableOps(run[i].stores, t)|
  {
    RunKeepsInv(run, 0);
    RunKeepsInv(run, i);
    RunExtends(run, 0, i);
    var s := run[i].stores;
    assert RowFromLog(s, t);
    var tokens := seq(|s.log[t]|, n requires 0 <= n < |s.log[t]| => s.log[t][n].token);
    forall n | 0 <= n < |tokens| ensures LogEntry(s, t, n) {}
    forall m, n | 0 <= m < n < |tokens| ensures tokens[m] != tokens[n] {
      assert LogEntry(s, t, m) && LogEntry(s, t, n);
    }
    forall k | k in DurableOps(s, t) ensures k in tokens {
      assert Logged(s, s.ops[k].request);
      var n := s.ops[k].request.next.revision - s.start[t].revision - 1;
      assert tokens[n] == k;
    }
    forall k | k in tokens ensures k in DurableOps(s, t) {
      var n :| 0 <= n < |tokens| && tokens[n] == k;
      assert LogEntry(s, t, n);
    }
    assert Elements(tokens) == DurableOps(s, t);
    DistinctSize(tokens);
  }

  /**
   The branch the publisher calls a fork "impossible under this protocol": when Prepare
   answers `committed`, PostgreSQL has already committed the operation, so nothing forked.
   */
  lemma PrepareSeesCommittedOnlyAfterPostgres(run: seq<State>, i: nat, r: Request)
    requires IsRun(run) && i < |run| && run[i].stores.Knows(r)
    requires Prepare(run[i].stores.CellOf(r), r.token, r.current, r.next).0 == CodeCommitted
    ensures run[i].stores.KnowsDurable(r)
  {
    RunKeepsInv(run, i);
    assert RedisOpOk(run[i].stores, r.token, run[i].stores.redisOps[r.token]);
  }

  /** A publication reported as committed is durable in PostgreSQL. */
  lemma ReportedCommittedIsDurable(run: seq<State>, i: nat, p: nat)
    requires IsRun(run) && i < |run| && p in run[i].procs
    requires run[i].procs[p].PubDone? && run[i].procs[p].outcome.OutCommitted?
    ensures run[i].stores.KnowsDurable(run[i].procs[p].req)
  {
    RunKeepsInv(run, i);
    assert LocalOk(run[i].stores, run[i].procs[p]);
  }

  /** The control is there, at this revision or a later one. */
  predicate AtLeast(s: Stores, t: Target, revision: int) {
    s.Control(t).Present? && s.Control(t).ActiveRevision() >= revision
  }

  /** The control is lost, or a restorer replaces it by a row it read when that was older. */
  predicate Lowers(s: State, s': State, step: Step, t: Target, revision: int) {
    || step == LoseControl(t)
    || (step.Run? && step.p in s.procs && s.procs[step.p].Restore? && s.procs[step.p].target == t &&
        s.procs[step.p].row.revision < revision && s'.stores.Control(t) == Replace(s.procs[step.p].row))
  }

  /**
   A control leaves a revision in one step exactly by being lost or by a start-up restorer
   that replaces it by an older version, whatever publishers, reconcilers, crashes and lost
   replies do.  Installing a missing control never takes a present one back.
   */
  lemma ControlFallsIffLowered(s: State, s': State, step: Step, t: Target, revision: int)
    requires Inv(s) && NextBy(s, s', step) && AtLeast(s.stores, t, revision)
    ensures !AtLeast(s'.stores, t, revision) <==> Lowers(s, s', step, t, revision)
  {
    assert ControlOk(s.stores, t, s.stores.controls[t]);
    if step.Run? {
      assert LocalOk(s.stores, s.procs[step.p]);
      var l := s.procs[step.p];
      if !(l.Restore? && l.target == t) { RunNeverFalls(s.stores, l, s'.stores, step.l, t); }
    }
  }

  predicate LoweredBy(s: State, s': State, step: Step, t: Target, revision: int) {
    NextBy(s, s', step) && Lowers(s, s', step, t, revision)
  }

  ghost predicate Lowered(s: State, s': State, t: Target, revision: int) {
    exists step :: LoweredBy(s, s', step, t, revision)
  }

  ghost predicate LoweredAt(run: seq<State>, i: nat, t: Target, revision: int) {
    i + 1 < |run| && Lowered(run[i], run[i + 1], t, revision)
  }

  lemma StepOfRunLowers(run: seq<State>, i: nat, t: Target, revision: int)
    requires IsRun(run) && i + 1 < |run| && AtLeast(run[i].stores, t, revision)
    ensures !AtLeast(run[i + 1].stores, t, revision) <==> LoweredAt(run, i, t, revision)
  {
    hide Inv, NextBy, Lowers;
    RunKeepsInv(run, i);
    assert Follows(run, i);
    if LoweredAt(run, i, t, revision) {
      var step :| LoweredBy(run[i], run[i + 1], step, t, revision);
      ControlFallsIffLowered(run[i], run[i + 1], step, t, revision);
    }
    if !AtLeast(run[i + 1].stores, t, revision) {
      var step :| NextBy(run[i], run[i + 1], step);
      ControlFallsIffLowered(run[i], run[i + 1], step, t, revision);
      assert LoweredBy(run[i], run[i + 1], step, t, revision);
    }
  }

  /** A control keeps a revision all along a stretch of a run exactly if no step of it lowers the control. */
  lemma {:induction false} ActiveRevisionNeverFalls(run: seq<State>, i: nat, j: nat, t: Target, revision: int)
    requires IsRun(run) && i <= j < |run| && AtLeast(run[i].stores, t, revision)
    ensures (forall k :: i <= k <= j ==> AtLeast(run[k].stores, t, revision)) <==> (forall k: nat :: i <= k < j ==> !LoweredAt(run, k, t, revision))
    decreases j
  {
    if i < j {
      ActiveRevisionNeverFalls(run, i, j - 1, t, revision);
      if AtLeast(run[j - 1].stores, t, revision) { StepOfRunLowers(run, j - 1, t, revision); }
    }
  }

  lemma RunNeverFalls(s: Stores, l: Local, s': Stores, l': Local, t: Target)
    requires LocalOk(s, l) && s.Control(t).Present? && ControlOk(s, t, s.Control(t))
    requires PublisherStep(s, l, s', l') || ReconcilerStep(s, l, s', l')
    requires !(l.Restore? && l.target == t)
    ensures s'.Control(t).Present? && s.Control(t).ActiveRevision() <= s'.Control(t).ActiveRevision()
  {
    if l.RecChecked? { RecoveryNeverFalls(s, l.op, l.row); }
  }

  lemma RecoveryNeverFalls(s: Stores, op: OpRow, row: Version)
    requires LocalOk(s, RecChecked(op, row))
    ensures s.Control(op.request.target).Present? ==>
              Recover(s, op, row).1.control.ActiveRevision() >= s.Control(op.request.target).ActiveRevision()
  {}

  // ----- at most one open operation per target

  /** Operations that are not terminal have targets of their own. */
  predicate Exclusive(s: Stores) {
    forall j, k :: j in s.ops && k in s.ops && j != k && s.ops[j].request.target == s.ops[k].request.target ==>
      s.ops[j].state.Terminal() || s.ops[k].state.Terminal()
  }

  /** An operation between its business transaction and its end holds the current row. */
  predicate OpenIsCurrent(s: Stores) {
    forall k :: k in s.ops && s.ops[k].state.DbCommitted? ==>
      s.ops[k].request.target in s.rows && s.rows[s.ops[k].request.target] == s.ops[k].request.next
  }

  /** A step adds at most one operation, on a target that is free, and seals at most one. */
  predicate OpsStep(s: Stores, s': Stores) {
    && (forall k :: k in s'.ops && k !in s.ops ==> Free(s, s'.ops[k].request.target) && s' == CreateOp(s, s'.ops[k].request))
    && (forall k :: k in s.ops && k in s'.ops && s'.ops[k].state.DbCommitted? && !s.ops[k].state.DbCommitted? ==>
          CanCommitBusiness(s, s.ops[k].request) && s' == CommitBusiness(s, s.ops[k].request))
  }

  lemma PublisherOps(s: Stores, l: Local, s': Stores, l': Local)
    requires PublisherStep(s, l, s', l')
    ensures OpsStep(s, s')
  {}

  lemma ReconcilerOps(s: Stores, l: Local, s': Stores, l': Local)
    requires ReconcilerStep(s, l, s', l')
    ensures OpsStep(s, s')
  {
    if !l.RecMark? {
      ReconcilerLeavesOps(s, l, s', l');
    } else {
      hide OpsStep, Mark;
      MarkOpsStep(s, l.op.request, {DbCommitted}, Committed);
      MarkOpsStep(s, l.op.request, {Preparing, Prepared}, Aborted);
      SameOps(s);
    }
  }

  lemma SameOps(s: Stores)
    ensures OpsStep(s, s)
  {}

  lemma MarkOpsStep(s: Stores, r: Request, from: set<OpState>, to: OpState)
    requires !to.DbCommitted?
    ensures OpsStep(s, Mark(s, r, from, to))
  {}

  lemma ReconcilerLeavesOps(s: Stores, l: Local, s': Stores, l': Local)
    requires ReconcilerStep(s, l, s', l') && !l.RecMark?
    ensures s'.ops == s.ops
  {}

  lemma ExclusiveKeeps(s: Stores, s': Stores)
    requires Exclusive(s) && OpsExtend(s, s') && OpsStep(s, s')
    ensures Exclusive(s')
  {
    forall j, k | j in s'.ops && k in s'.ops && j != k && s'.ops[j].request.target == s'.ops[k].request.target
      ensures s'.ops[j].state.Terminal() || s'.ops[k].state.Terminal()
    {
      if j !in s.ops { CreatedIsAlone(s, s', j, k); }
      else if k !in s.ops { CreatedIsAlone(s, s', k, j); }
    }
  }

  lemma CreatedIsAlone(s: Stores, s': Stores, j: Token, k: Token)
    requires OpsStep(s, s') && j in s'.ops && j !in s.ops && k in s'.ops && j != k
    requires s'.ops[j].request.target == s'.ops[k].request.target
    ensures s'.ops[k].state.Terminal()
  {
    assert s' == CreateOp(s, s'.ops[j].request);
  }

  predicate HoldsRow(s: Stores, k: Token)
    requires k in s.ops
  {
    s.ops[k].request.target in s.rows && s.rows[s.ops[k].request.target] == s.ops[k].request.next
  }

  /** Another commit is on another target. */
  lemma OpenStaysCurrent(s: Stores, s': Stores, k: Token)
    requires Exclusive(s) && LogStep(s, s') && k in s.ops && s.ops[k].state.DbCommitted? && HoldsRow(s, k)
    requires k in s'.ops && s'.ops[k].request == s.ops[k].request && s'.ops[k].state.DbCommitted?
    ensures HoldsRow(s', k)
  {
    if s'.rows != s.rows {
      var r :| CanCommitBusiness(s, r) && s' == CommitBusiness(s, r);
      assert r.token != k;
    }
  }

  lemma OpenIsCurrentKeeps(s: Stores, s': Stores)
    requires Exclusive(s) && OpenIsCurrent(s) && Extends(s, s') && OpsStep(s, s') && LogStep(s, s')
    ensures OpenIsCurrent(s')
  {
    hide Exclusive, LogStep;
    forall k | k in s'.ops && s'.ops[k].state.DbCommitted?
      ensures s'.ops[k].request.target in s'.rows && s'.rows[s'.ops[k].request.target] == s'.ops[k].request.next
    {
      if k in s.ops && s.ops[k].state.DbCommitted? { OpenStaysCurrent(s, s', k); }
    }
  }

  /**
   In every state of a run a target has at most one open operation, and one that is
   db_committed still holds the row of its target: a reconciler can always rebuild the
   payload it has to commit.
   */
  lemma {:induction false} OneOpenOperation(run: seq<State>, i: nat)
    requires IsRun(run) && i < |run|
    ensures Exclusive(run[i].stores) && OpenIsCurrent(run[i].stores)
  {
    if i == 0 {
      NothingOpenAtFirst(run[0]);
    } else {
      hide Exclusive, OpenIsCurrent, OpsStep, LogStep, OpsExtend;
      OneOpenOperation(run, i - 1);
      RunStep(run, i - 1);
      OpsStepOf(run, i - 1);
      ExclusiveKeeps(run[i - 1].stores, run[i].stores);
      OpenIsCurrentKeeps(run[i - 1].stores, run[i].stores);
    }
  }

  lemma NothingOpenAtFirst(s: State)
    requires Init(s)
    ensures Exclusive(s.stores) && OpenIsCurrent(s.stores)
  {}

  lemma OpsStepOf(run: seq<State>, i: nat)
    requires IsRun(run) && i + 1 < |run|
    ensures OpsStep(run[i].stores, run[i + 1].stores)
  {
    assert Follows(run, i);
    var step :| NextBy(run[i], run[i + 1], step);
    if step.Run? {
      var s, l, s' := run[i].stores, run[i].procs[step.p], run[i + 1].stores;
      if PublisherStep(s, l, s', step.l) { PublisherOps(s, l, s', step.l); }
      else { ReconcilerOps(s, l, s', step.l); }
    }
  }
}
