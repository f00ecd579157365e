/**
 One reconcile-and-restore pass over provider routing, with no other writer: what it leaves
 behind when it reports no error, exactly when it can succeed, and which fences it never takes down.
 */
module ProviderRecovery {
  import opened Common
  import opened ProviderControls
  import opened ProviderRuns
  import opened ProviderGuarantees
  import P = Publication

  function Provider(s: Stores, k: Token): int
    requires k in s.ops
  {
    s.ops[k].envelope.providerID
  }

  /** Reconciling one listed operation without faults; `None` is any error return. */
  function ReconcileOp(s: Stores, k: Token): Option<Stores>
    requires s.Open(k)
  {
    var op := s.ops[k];
    var p := op.envelope.providerID;
    if !ValidEnvelope(op.envelope) || !s.HasRow(p) then None
    else if op.state.Preparing? then Some(Apply(s, SetAborted(k)))
    else if op.state.Prepared? then Some(Apply(Apply(s, Abort(k, op.stored)), SetAborted(k)))
    else if !Matches(s.RowOf(p), op.envelope) then None
    else Some(Apply(Finished(s, k), SetCommitted(k)))
  }

  /** The commit script, and where it does not report committed the restore of a missing gate. */
  function Finished(s: Stores, k: Token): Stores
    requires s.Open(k) && s.HasRow(Provider(s, k))
  {
    var op := s.ops[k];
    var committed := CommitFence(s.CellOf(k), op.envelope.kind, k, op.stored).0 == FenceCommitted;
    var t := Apply(s, Commit(k, op.stored));
    if committed then t else Apply(t, Install(Provider(s, k), |s.log[Provider(s, k)]| - 1))
  }

  // ----- when an operation can be reconciled

  /** A business transaction that is not yet concluded is the latest thing that happened to its row. */
  ghost predicate LatestAt(s: Stores, k: Token)
    requires k in s.ops
  {
    s.HasRow(Provider(s, k)) && var log := s.log[Provider(s, k)]; log[|log| - 1].cause == Some(k)
  }

  ghost predicate Latest(s: Stores) {
    forall k :: k in s.ops && s.ops[k].state.DbCommitted? ==> LatestAt(s, k)
  }

  lemma NotArchived(s: Stores, k: Token)
    requires Inv(s) && k in s.ops && LatestAt(s, k)
    ensures !s.RowOf(Provider(s, k)).status.Archived?
    ensures var e, row := s.ops[k].envelope, s.RowOf(Provider(s, k));
      && ValidEnvelope(e) && LogOk(s, e.providerID)
      && if e.kind.OriginKind? then row.originRevision == e.nextOriginRevision && row.origin == e.nextOrigin
         else row.statusRevision == e.nextStatusRevision && row.status == e.nextStatus
  {
    var p := Provider(s, k);
    assert OpOk(s, k) && LogOk(s, p);
    assert FollowsAt(s, p, |s.log[p]| - 1);
  }

  lemma LatestStep(s: Stores, step: Step)
    requires Inv(s) && Latest(s) && Possible(s, step)
    ensures Latest(Effect(s, step))
  {
    hide PrepareFence, CommitFence, AbortFence, ValidEnvelope, Moved, LogsOk, OpsOk, GatesOk, KeysOk;
    var s' := Effect(s, step);
    forall k | k in s'.ops && s'.ops[k].state.DbCommitted? ensures LatestAt(s', k) {
      if step == Business(k) {
        assert s'.log[Provider(s', k)][|s'.log[Provider(s', k)]| - 1].cause == Some(k);
      } else {
        assert LatestAt(s, k) && s.Open(k);
        NotArchived(s, k);
      }
    }
  }

  lemma {:induction false} RunIsLatest(steps: seq<Step>)
    ensures Latest(Run(Empty, steps))
    decreases |steps|
  {
    if steps != [] {
      var shorter := steps[..|steps| - 1];
      RunIsLatest(shorter);
      RunKeeps(Empty, shorter);
      if Possible(Run(Empty, shorter), steps[|steps| - 1]) { LatestStep(Run(Empty, shorter), steps[|steps| - 1]); }
    }
  }

  lemma ReachableIsLatest(s: Stores)
    requires Reachable(s)
    ensures Inv(s) && Latest(s)
  {
    ReachableHasInv(s);
    var steps: seq<Step> :| Run(Empty, steps) == s;
    RunIsLatest(steps);
  }

  /** The half an operation leaves alone is where its envelope says it is. */
  predicate OtherHalfCurrent(row: Row, e: Envelope) {
    if e.kind.OriginKind? then row.statusRevision == e.currentStatusRevision else row.originRevision == e.currentOriginRevision
  }

  /** What an administrator can look up: nothing stale about an operation whose transaction went through. */
  predicate Reconcilable(s: Stores, k: Token)
    requires k in s.ops
  {
    s.ops[k].state.DbCommitted? ==> s.HasRow(Provider(s, k)) && OtherHalfCurrent(s.RowOf(Provider(s, k)), s.ops[k].envelope)
  }

  /**
   An open operation fails to reconcile in one case only: its business transaction went
   through although the other half of the row had moved since the envelope was made.
   */
  lemma ReconcilesIffOtherHalfCurrent(s: Stores, k: Token)
    requires Reachable(s) && s.Open(k)
    ensures ReconcileOp(s, k).Some? <==> Reconcilable(s, k)
  {
    ReachableIsLatest(s);
    var e := s.ops[k].envelope;
    var p := e.providerID;
    assert OpOk(s, k) && LogOk(s, p);
    if s.ops[k].state.DbCommitted? {
      assert LatestAt(s, k);
      NotArchived(s, k);
      if e.kind.OriginKind? && OtherHalfCurrent(s.RowOf(p), e) { SameRevisionSameStatus(s, p, e.currentStatusRevision, e.currentStatus); }
    }
  }

  lemma SameRevisionSameStatus(s: Stores, p: int, revision: int, status: RoutingStatus)
    requires p in s.log && LogOk(s, p) && HadStatus(s, p, revision, status) && s.RowOf(p).statusRevision == revision
    ensures s.RowOf(p).status == status
  {
    var i :| 0 <= i < |s.log[p]| && s.log[p][i].row.statusRevision == revision && s.log[p][i].row.status == status;
    VersionsAreOrdered(s, p, i, |s.log[p]| - 1);
  }

  // ----- what it does to the gate

  /** The gate is missing, or shows the row with nothing pending. */
  predicate Quiet(s: Stores, p: int) {
    p in s.gates ==> s.HasRow(p) && s.gates[p] == Stable(s.RowOf(p))
  }

  predicate Agrees(s: Stores, p: int) {
    p in s.gates && Quiet(s, p)
  }

  /** The fence is the operation's, no script has ended it, and PostgreSQL gives back the text that was hashed. */
  predicate Releasable(s: Stores, k: Token)
    requires k in s.ops && Provider(s, k) in s.gates
  {
    && s.gates[Provider(s, k)].fence.Some? && s.gates[Provider(s, k)].fence.value.token == k
    && (k in s.keys ==> s.keys[k].mark.MarkPrepared?)
    && s.ops[k].stored == s.ops[k].payload
  }

  /** Whether the gate of an open operation is quiet once the operation has been reconciled. */
  predicate QuietAfter(s: Stores, k: Token)
    requires k in s.ops && s.HasRow(Provider(s, k))
  {
    var p := Provider(s, k);
    Quiet(s, p) ||
    (Releasable(s, k) &&
     if s.ops[k].state.DbCommitted? then Opened(s.gates[p]) == Stable(s.RowOf(p))
     else s.ops[k].state.Prepared? && s.gates[p].(fence := None) == Stable(s.RowOf(p)))
  }

  /** Nothing but one operation, its key and its gate has changed. */
  ghost predicate Apart(s: Stores, s': Stores, k: Token)
    requires k in s.ops
  {
    && s'.log == s.log && s'.ops.Keys == s.ops.Keys
    && (forall j :: j in s.ops && j != k ==> s'.ops[j] == s.ops[j])
    && (forall j :: j != k ==> (j in s'.keys <==> j in s.keys) && (j in s.keys ==> s'.keys[j] == s.keys[j]))
    && (forall q :: q != Provider(s, k) ==> (q in s'.gates <==> q in s.gates) && (q in s.gates ==> s'.gates[q] == s.gates[q]))
  }

  /** The steps a reconciler takes for one operation. */
  predicate StepFor(s: Stores, step: Step, k: Token)
    requires k in s.ops
  {
    match step
    case Abort(j, _) => j == k
    case Commit(j, _) => j == k
    case SetAborted(j) => j == k
    case SetCommitted(j) => j == k
    case Install(p, _) => p == Provider(s, k)
    case _ => false
  }

  lemma StepApart(s: Stores, step: Step, k: Token)
    requires k in s.ops && StepFor(s, step, k)
    ensures Apart(s, Apply(s, step), k) && Apply(s, step).ops[k].envelope == s.ops[k].envelope
    ensures step.Install? || step.Abort? || step.Commit? ==> Apply(s, step).ops == s.ops
    ensures step.SetAborted? || step.SetCommitted? ==> Apply(s, step).gates == s.gates && Apply(s, step).keys == s.keys
  {
    hide CommitFence, AbortFence;
  }

  lemma ApartFurther(s: Stores, t: Stores, u: Stores, k: Token)
    requires k in s.ops && Apart(s, t, k) && t.ops[k].envelope == s.ops[k].envelope && Apart(t, u, k)
    ensures Apart(s, u, k)
  {}

  lemma FinishedApart(s: Stores, k: Token)
    requires s.Open(k) && s.HasRow(Provider(s, k))
    ensures Apart(s, Finished(s, k), k) && Finished(s, k).ops == s.ops
  {
    hide CommitFence, Apply, Apart;
    var t := Apply(s, Commit(k, s.ops[k].stored));
    var install := Install(Provider(s, k), |s.log[Provider(s, k)]| - 1);
    StepApart(s, Commit(k, s.ops[k].stored), k);
    StepApart(t, install, k);
    ApartFurther(s, t, Apply(t, install), k);
  }

  lemma ReconciledApart(s: Stores, k: Token)
    requires s.Open(k) && ReconcileOp(s, k).Some?
    ensures Apart(s, ReconcileOp(s, k).value, k)
    ensures var s' := ReconcileOp(s, k).value;
      s'.ops[k].state == if s.ops[k].state.DbCommitted? then P.Committed else P.Aborted
  {
    hide ValidEnvelope, Matches, CommitFence, AbortFence, Apart, Finished;
    var op := s.ops[k];
    if op.state.Preparing? {
      StepApart(s, SetAborted(k), k);
    } else if op.state.Prepared? {
      var t := Apply(s, Abort(k, op.stored));
      StepApart(s, Abort(k, op.stored), k);
      StepApart(t, SetAborted(k), k);
      ApartFurther(s, t, Apply(t, SetAborted(k)), k);
    } else {
      var t := Finished(s, k);
      FinishedApart(s, k);
      StepApart(t, SetCommitted(k), k);
      ApartFurther(s, t, Apply(t, SetCommitted(k)), k);
    }
  }

  /** What the invariant says about the fence of one operation. */
  predicate Owned(s: Stores, k: Token)
    requires k in s.ops
  {
    var p := Provider(s, k);
    && (s.ops[k].envelope.kind.OriginKind? || s.ops[k].envelope.kind.StatusKind?)
    && (p in s.gates && s.gates[p].fence.Some? && s.gates[p].fence.value.token == k ==>
          s.gates[p].fence.value == FenceOf(s.ops[k].envelope, k, s.ops[k].payload))
    && (k in s.keys ==> s.keys[k].kind == s.ops[k].envelope.kind && s.keys[k].payload == s.ops[k].payload)
  }

  lemma OwnFence(s: Stores, k: Token)
    requires Inv(s) && k in s.ops
    ensures Owned(s, k)
  {
    assert OpOk(s, k);
    assert k in s.keys ==> KeyOk(s, k);
    if Provider(s, k) in s.gates { assert GateOk(s, Provider(s, k)); }
  }

  lemma QuietAfterAbort(s: Stores, k: Token)
    requires s.Open(k) && s.ops[k].state.Prepared? && s.HasRow(Provider(s, k)) && Owned(s, k)
    ensures Quiet(Apply(s, Abort(k, s.ops[k].stored)), Provider(s, k)) <==> QuietAfter(s, k)
  {}

  lemma QuietAfterFinish(s: Stores, k: Token)
    requires s.Open(k) && s.ops[k].state.DbCommitted? && s.HasRow(Provider(s, k)) && Owned(s, k)
    ensures Quiet(Finished(s, k), Provider(s, k)) <==> QuietAfter(s, k)
  {}

  lemma QuietAfterMark(s: Stores, step: Step, k: Token, p: int)
    requires k in s.ops && (step == SetAborted(k) || step == SetCommitted(k))
    ensures Quiet(Apply(s, step), p) <==> Quiet(s, p)
  {}

  lemma NotReleased(s: Stores, k: Token)
    requires s.Open(k) && s.ops[k].state.Preparing? && s.HasRow(Provider(s, k))
    ensures Quiet(s, Provider(s, k)) <==> QuietAfter(s, k)
  {}

  lemma QuietAfterReconciling(s: Stores, k: Token)
    requires Reachable(s) && s.Open(k) && ReconcileOp(s, k).Some?
    ensures Quiet(ReconcileOp(s, k).value, Provider(s, k)) <==> QuietAfter(s, k)
  {
    hide Matches, ValidEnvelope, Apply, Finished, Apart, Quiet, QuietAfter, Inv, Owned, Reachable;
    var op := s.ops[k];
    var p := Provider(s, k);
    ReachableHasInv(s);
    OwnFence(s, k);
    if op.state.Preparing? {
      NotReleased(s, k);
      QuietAfterMark(s, SetAborted(k), k, p);
    } else if op.state.Prepared? {
      QuietAfterAbort(s, k);
      StepApart(s, Abort(k, op.stored), k);
      QuietAfterMark(Apply(s, Abort(k, op.stored)), SetAborted(k), k, p);
    } else {
      QuietAfterFinish(s, k);
      FinishedApart(s, k);
      QuietAfterMark(Finished(s, k), SetCommitted(k), k, p);
    }
  }

  // ----- fences that stay

  lemma OtherTextMisses(s: Stores, k: Token)
    requires s.Open(k) && s.HasRow(Provider(s, k)) && Owned(s, k) && s.ops[k].stored != s.ops[k].payload
    requires Provider(s, k) in s.gates
    ensures Apply(s, Abort(k, s.ops[k].stored)).gates == s.gates
    ensures Finished(s, k).gates == s.gates
  {}

  lemma IdleAfterwards(s: Stores, s': Stores, k: Token)
    requires Exclusive(s) && s.Open(k) && Apart(s, s', k) && s'.ops[k].state.Terminal()
    ensures Idle(s', Provider(s, k))
  {
    forall j | j in s'.ops && s'.ops[j].envelope.providerID == Provider(s, k) ensures s'.ops[j].state.Terminal() {
      assert j != k ==> s'.ops[j] == s.ops[j] && !(s.Open(j) && j != k);
    }
  }

  /**
   A periodic pass leaves up the fence of an operation it found preparing, since it marks
   that one aborted without calling Redis, and every fence whose payload PostgreSQL renders
   differently from the text that was hashed, as it may for a jsonb column.
   */
  lemma FenceOutlivesItsOperation(s: Stores, k: Token)
    requires Reachable(s) && s.Open(k) && ReconcileOp(s, k).Some?
    requires Provider(s, k) in s.gates && s.gates[Provider(s, k)].fence.Some?
    requires s.ops[k].state.Preparing? || s.ops[k].stored != s.ops[k].payload
    ensures var s' := ReconcileOp(s, k).value;
      s'.ops[k].state.Terminal() && Provider(s, k) in s'.gates && s'.gates[Provider(s, k)] == s.gates[Provider(s, k)] && Orphaned(s', Provider(s, k))
  {
    hide Matches, ValidEnvelope, Apply, Finished, Apart, Inv, Owned, Reachable, Idle;
    var op := s.ops[k];
    ReachableHasInv(s);
    OwnFence(s, k);
    ReconciledApart(s, k);
    OnlyOneOpen(s);
    IdleAfterwards(s, ReconcileOp(s, k).value, k);
    if op.state.Preparing? {
      StepApart(s, SetAborted(k), k);
    } else if op.state.Prepared? {
      OtherTextMisses(s, k);
      StepApart(s, Abort(k, op.stored), k);
      StepApart(Apply(s, Abort(k, op.stored)), SetAborted(k), k);
    } else {
      OtherTextMisses(s, k);
      FinishedApart(s, k);
      StepApart(Finished(s, k), SetCommitted(k), k);
    }
  }

  // ----- a commit call whose reply is an error

  /** What a reconciled operation leaves, whatever replies were lost: no gate is quiet that had no chance to be. */
  ghost predicate Recovered(s: Stores, s': Stores, k: Token) {
    && s.Open(k) && ReconcileOp(s, k).Some? && Apart(s, s', k)
    && s'.ops[k].state == (if s.ops[k].state.DbCommitted? then P.Committed else P.Aborted)
    && (Quiet(s', Provider(s, k)) ==> QuietAfter(s, k))
  }

  /** The reconciler goes on after a failed commit call: it restores a missing gate and marks the operation committed. */
  function WentOn(t: Stores, k: Token): Stores
    requires k in t.ops && t.HasRow(Provider(t, k))
  {
    Apply(Apply(t, Install(Provider(t, k), |t.log[Provider(t, k)]| - 1)), SetCommitted(k))
  }

  lemma InstallIsQuietOnlyIf(s: Stores, k: Token)
    requires s.Open(k) && s.ops[k].state.DbCommitted? && s.HasRow(Provider(s, k)) && Owned(s, k)
    ensures var p := Provider(s, k);
      var last := |s.log[p]| - 1;
      && (Quiet(Apply(s, Install(p, last)), p) ==> QuietAfter(s, k))
      && (Quiet(Apply(Apply(s, Commit(k, s.ops[k].stored)), Install(p, last)), p) ==> QuietAfter(s, k))
  {
    QuietAfterFinish(s, k);
  }

  lemma WentOnRecovers(s: Stores, t: Stores, k: Token)
    requires Reachable(s) && s.Open(k) && s.ops[k].state.DbCommitted? && ReconcileOp(s, k).Some?
    requires t == s || t == Apply(s, Commit(k, s.ops[k].stored))
    ensures k in t.ops && Provider(t, k) == Provider(s, k) && t.log == s.log && t.HasRow(Provider(t, k)) && Recovered(s, WentOn(t, k), k)
  {
    hide Matches, ValidEnvelope, Apply, Apart, Quiet, QuietAfter, Inv, Owned, Reachable;
    var p := Provider(s, k);
    ReachableHasInv(s);
    OwnFence(s, k);
    InstallIsQuietOnlyIf(s, k);
    StepApart(s, Commit(k, s.ops[k].stored), k);
    ApartSelf(s, k);
    KeepsLog(s, t, k);
    var install := Install(p, |s.log[p]| - 1);
    var u := Apply(t, install);
    StepApart(t, install, k);
    ApartFurther(s, t, u, k);
    StepApart(u, SetCommitted(k), k);
    ApartFurther(s, u, WentOn(t, k), k);
    QuietAfterMark(u, SetCommitted(k), k, p);
    SetsCommitted(u, k);
  }

  lemma SetsCommitted(s: Stores, k: Token)
    requires k in s.ops && s.ops[k].state.DbCommitted?
    ensures k in Apply(s, SetCommitted(k)).ops && Apply(s, SetCommitted(k)).ops[k].state == P.Committed
  {}

  lemma KeepsLog(s: Stores, t: Stores, k: Token)
    requires k in s.ops && Apart(s, t, k)
    ensures t.log == s.log
  {}

  lemma ApartSelf(s: Stores, k: Token)
    requires k in s.ops
    ensures Apart(s, s, k)
  {}

  lemma ReconciledRecovers(s: Stores, k: Token)
    requires Reachable(s) && s.Open(k) && ReconcileOp(s, k).Some?
    ensures Recovered(s, ReconcileOp(s, k).value, k)
  {
    hide Apart, ReconcileOp, Quiet, QuietAfter, Reachable;
    ReconciledApart(s, k);
    QuietAfterReconciling(s, k);
  }

  /** A commit call that never arrived leaves its fence up under an operation that is marked committed. */
  lemma UnheardCommitOrphansItsFence(s: Stores, k: Token)
    requires Reachable(s) && s.Open(k) && s.ops[k].state.DbCommitted? && ReconcileOp(s, k).Some?
    requires Provider(s, k) in s.gates && s.gates[Provider(s, k)].fence.Some?
    ensures s.HasRow(Provider(s, k)) && k in WentOn(s, k).ops && WentOn(s, k).ops[k].state.Committed?
    ensures Orphaned(WentOn(s, k), Provider(s, k)) && WentOn(s, k).gates == s.gates
  {
    hide Matches, ValidEnvelope, Apart, Quiet, QuietAfter, Inv, Owned, Reachable, Idle;
    ReachableHasInv(s);
    OnlyOneOpen(s);
    WentOnRecovers(s, s, k);
    IdleAfterwards(s, WentOn(s, k), k);
  }

  lemma OnlyOneOpen(s: Stores)
    requires Inv(s)
    ensures Exclusive(s)
  {}

  /** A fence is up and no open operation of the provider could end it. */
  ghost predicate Orphaned(s: Stores, p: int) {
    p in s.gates && s.gates[p].fence.Some? && Idle(s, p)
  }

  /** Under an orphaned fence the provider is not quiet, and every first prepare is turned away. */
  lemma OrphanedFenceBlocks(s: Stores, p: int, e: Envelope, token: Token, payload: Payload)
    requires Orphaned(s, p) && ValidEnvelope(e)
    ensures !Quiet(s, p) && PrepareFence(Cell(Some(s.gates[p]), None), e, token, payload).0 == FenceConflict
  {}
}
