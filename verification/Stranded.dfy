/**
 Operations that a reconciler cannot finish.  Two runs of the protocol lead to one, and both
 block every further publication on the target until somebody intervenes.
 */
module Stranded {
  import opened Common
  import opened ControlScripts
  import opened Publication
  import opened PublicationRuns
  import opened Reachability
  import opened Recovery
  import opened PublisherService

  function Expired(s: Stores, k: Token): Stores {
    s.(redisOps := s.redisOps - {k})
  }

  lemma ExpiryIsReachable(s: Stores, k: Token)
    requires Reachable(s)
    ensures Reachable(Expired(s, k))
  {
    var run: seq<State> :| EndsWith(run, s);
    var last := run[|run| - 1];
    Extend(run, State(Expired(s, k), last.procs), Step.ExpireOp(k));
    assert EndsWith(run + [State(Expired(s, k), last.procs)], Expired(s, k));
  }

  /** The stores after the business transaction committed and its publisher aborted the Redis side. */
  function LostReply(s: Stores, r: Request): Stores
    requires CanCommitBusiness(s, r)
  {
    AbortedControl(CommitBusiness(s, r), r)
  }

  lemma LostReplyIsStranded(s: Stores, r: Request)
    requires CanCommitBusiness(s, r) && PendingHere(s, r) && s.Control(r.target).ActiveRevision() == r.current
    ensures LostReply(s, r).KnowsDurable(r) && Open(LostReply(s, r), r.token)
    ensures !Recoverable(LostReply(s, r), r.token) && Prepare(LostReply(s, r).CellOf(r), r.token, r.current, r.next).0 == CodeAborted
  {}

  lemma ExpiredIsRecoverable(s: Stores, r: Request)
    requires CanCommitBusiness(s, r) && PendingHere(s, r) && s.Control(r.target).ActiveRevision() == r.current
    ensures Open(Expired(LostReply(s, r), r.token), r.token) && Recoverable(Expired(LostReply(s, r), r.token), r.token)
  {}

  lemma LostReplyIsReachable(s: Stores, r: Request)
    requires Holding(s, PubBusiness(r)) && CanCommitBusiness(s, r)
    ensures Reachable(LostReply(s, r))
  {
    BusinessHolds(s, r);
    AbortHolds(CommitBusiness(s, r), r);
    HeldIsReachable(LostReply(s, r), PubMarkAborted(r));
  }

  /** What is pending on a reachable control follows its active version. */
  lemma PendingFollowsActive(s: Stores, r: Request)
    requires Holding(s, PubBusiness(r)) && CanCommitBusiness(s, r) && PendingHere(s, r)
    ensures s.Control(r.target).ActiveRevision() == r.current
  {
    HeldIsReachable(s, PubBusiness(r));
    ReachableIsGood(s);
    assert ControlOk(s, r.target, s.controls[r.target]);
    assert s.ops[r.token].request.Valid();
  }

  /**
   A business transaction that commits while its reply is lost: the publisher believes it
   failed and aborts the Redis side, so the operation is db_committed in PostgreSQL and
   aborted in Redis.  No reconciler can finish it until the Redis operation key expires;
   from then on every one can.
   */
  lemma LostCommitReplyStrands(s: Stores, r: Request) returns (s': Stores)
    requires Holding(s, PubBusiness(r)) && CanCommitBusiness(s, r) && PendingHere(s, r)
    ensures Reachable(s') && s'.KnowsDurable(r) && Open(s', r.token)
    ensures ReconcileOp(s', r.token).None? && Prepare(s'.CellOf(r), r.token, r.current, r.next).0 == CodeAborted
    ensures Reachable(Expired(s', r.token)) && ReconcileOp(Expired(s', r.token), r.token).Some?
  {
    PendingFollowsActive(s, r);
    LostReplyIsReachable(s, r);
    LostReplyIsStranded(s, r);
    ExpiredIsRecoverable(s, r);
    s' := LostReply(s, r);
    ExpiryIsReachable(s', r.token);
    SucceedsIffRecoverable(s', r.token);
    SucceedsIffRecoverable(Expired(s', r.token), r.token);
  }

  /** The operation is open, uncommitted, and does not start from the current row. */
  predicate Stale(s: Stores, k: Token) {
    k in s.ops && (s.ops[k].state.Preparing? || s.ops[k].state.Prepared?) &&
    s.ops[k].request.target in s.rows && s.rows[s.ops[k].request.target].revision != s.ops[k].request.current
  }

  /** Recording an operation does not compare it with the row: every free target can get a stale one. */
  lemma StaleOperationsArise(s: Stores, r: Request)
    requires Reachable(s) && r.Valid() && r.token !in s.ops && Free(s, r.target)
    requires r.target in s.rows && s.rows[r.target].revision != r.current
    ensures Reachable(CreateOp(s, r)) && Stale(CreateOp(s, r), r.token)
  {
    CreateHolds(s, r);
    HeldIsReachable(CreateOp(s, r), PubPrepare(r));
  }

  /**
   A stale operation freezes its target: as long as no publisher aborts it, the business row
   stays as it is, no new operation on the target can be recorded, and every reconcile pass fails.
   */
  lemma {:induction false} StaleOperationFreezesItsTarget(run: seq<State>, i: nat, j: nat, k: Token)
    requires IsRun(run) && i <= j < |run| && Stale(run[i].stores, k)
    ensures k in run[j].stores.ops && run[j].stores.ops[k].request == run[i].stores.ops[k].request
    ensures var t := run[i].stores.ops[k].request.target;
      run[j].stores.ops[k].state.Aborted? ||
      (Stale(run[j].stores, k) && run[j].stores.rows[t] == run[i].stores.rows[t] &&
       !Free(run[j].stores, t) && ReconcileOp(run[j].stores, k).None?)
    decreases j
  {
    if i < j {
      StaleOperationFreezesItsTarget(run, i, j - 1, k);
      RunStep(run, j - 1);
      if !run[j - 1].stores.ops[k].state.Aborted? {
        OneOpenOperation(run, j - 1);
        OpsStepOf(run, j - 1);
        StaleStep(run[j - 1].stores, run[j].stores, k);
      }
    }
  }

  lemma StaleStep(s: Stores, s': Stores, k: Token)
    requires OpsExtend(s, s') && OpsStep(s, s') && LogStep(s, s') && Exclusive(s) && Stale(s, k)
    ensures s'.ops[k].state.Aborted? || (Stale(s', k) && s'.rows[s.ops[k].request.target] == s.rows[s.ops[k].request.target])
  {
    if s'.rows != s.rows {
      var r :| CanCommitBusiness(s, r) && s' == CommitBusiness(s, r);
      assert r.target != s.ops[k].request.target || r.token == k;
    }
  }

  // ----- both arise

  const Setting := AppSetting("gateway.concurrency_defaults")

  const Raised := Request(Setting, "k", 1, Version(2, "b"))

  function Installed(control: Control): Stores {
    Stores(map[Setting := Version(1, "a")], map[], map[Setting := control], map[], map[Setting := Version(1, "a")], map[Setting := []])
  }

  /** One setting at revision 1, shown by its control. */
  lemma OneSetting() returns (s: Stores)
    ensures Reachable(s) && s == Installed(Present(Some(Version(1, "a")), None))
  {
    var s0 := Installed(Absent).(controls := map[]);
    InitIsReachable(s0);
    RestoreIsReachable(s0, Setting, RestoreMissing(Absent, Version(1, "a")));
    s := s0.(controls := s0.controls[Setting := RestoreMissing(Absent, Version(1, "a"))]);
  }

  /** A change of it comes to the point where its business transaction is due. */
  lemma ChangeGetsToBusiness() returns (s: Stores)
    ensures Holding(s, PubBusiness(Raised)) && CanCommitBusiness(s, Raised) && PendingHere(s, Raised)
  {
    var s0 := OneSetting();
    CreateHolds(s0, Raised);
    var s1 := CreateOp(s0, Raised);
    FenceGoesUp(s1, Raised);
    PrepareHolds(s1, Raised);
    var s2 := PreparedControl(s1, Raised);
    MarkPreparedHolds(s2, Raised);
    MarkedFence(s2, Raised);
    s := Marked(s2, Raised);
  }

  /** So a lost reply strands an operation in some run. */
  lemma StrandedOperationsExist() returns (s: Stores)
    ensures Reachable(s) && s.KnowsDurable(Raised) && Open(s, "k") && ReconcileOp(s, "k").None?
    ensures Reachable(Expired(s, "k")) && ReconcileOp(Expired(s, "k"), "k").Some?
  {
    var s0 := ChangeGetsToBusiness();
    s := LostCommitReplyStrands(s0, Raised);
  }

  /** And an operation for a revision the row does not have can be recorded in some run. */
  lemma StaleOperationsExist() returns (s: Stores)
    ensures Reachable(s) && Stale(s, "k") && ReconcileOp(s, "k").None?
  {
    var r := Raised.(current := 2, next := Version(3, "b"));
    var s0 := OneSetting();
    StaleOperationsArise(s0, r);
    s := CreateOp(s0, r);
    assert Open(s, "k");
    StaleIsNotReconciled(s, "k");
  }

  lemma StaleIsNotReconciled(s: Stores, k: Token)
    requires Stale(s, k) && Open(s, k)
    ensures ReconcileOp(s, k).None?
  {}
}
