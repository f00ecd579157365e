/** What every step of every coordinator keeps true of both stores. */
module StateEpochInvariant {
  import opened Common
  import opened StateEpoch

  /** PostgreSQL has durably moved to this identity, by the operation in the log. */
  predicate Reached(s: Stores, id: Id) {
    1 <= id.revision <= |s.log| &&
    var e := s.log[id.revision - 1];
    e.epoch == id.epoch && e.token in s.ops &&
    s.ops[e.token].state.Durable() && s.ops[e.token].transition.next == id
  }

  /** The row has had this identity. */
  predicate InLog(s: Stores, id: Id) {
    1 <= id.revision <= |s.log| && s.log[id.revision - 1].epoch == id.epoch
  }

  /** An open operation starts from the current row, or has just moved it. */
  predicate OpenOk(s: Stores, k: Token)
    requires k in s.ops
  {
    var t := s.ops[k].transition;
    s.row.Some? &&
    if s.ops[k].state.DbCommitted? || t.reason.Bootstrap?
    then s.row.value == Row(t.next, t.reason, false) && |s.log| == t.next.revision > 0 && s.log[|s.log| - 1] == Entry(t.next.epoch, k)
    else t.prior == Some(s.row.value.id) && s.row.value.ready
  }

  predicate OpOk(s: Stores, k: Token) {
    k in s.ops ==>
      var op := s.ops[k];
      && op.token == k && op.transition.Valid()
      && (op.state.Durable() ==> Reached(s, op.transition.next) && s.log[op.transition.next.revision - 1].token == k)
      && (op.state.Committed? ==> op.transition.next in s.shown)
      && (!op.state.Committed? ==> OpenOk(s, k))
  }

  predicate Alone(s: Stores, j: Token, k: Token) {
    Open(s, j) && Open(s, k) ==> j == k
  }

  ghost predicate OpsOk(s: Stores) {
    && (forall k {:trigger OpOk(s, k)} :: OpOk(s, k))
    && (forall j, k {:trigger Alone(s, j, k)} :: Alone(s, j, k))
  }

  predicate RowOk(s: Stores) {
    && (s.row.None? <==> s.log == [])
    && (s.row.None? ==> s.ops == map[])
    && (s.row.Some? ==>
          && s.row.value.id == Id(s.log[|s.log| - 1].epoch, |s.log|)
          && (s.row.value.ready ==> s.row.value.id in s.shown)
          && (!s.row.value.ready ==> Open(s, s.log[|s.log| - 1].token)))
  }

  predicate StampOk(s: Stores, st: Stamp) {
    st.token in s.ops && s.ops[st.token].transition == st.transition
  }

  predicate MarkerOk(s: Stores) {
    match s.marker
    case NoMarker => true
    case ReadyMarker(id, last) => id in s.shown && (last.Some? ==> StampOk(s, last.value) && last.value.transition.next == id)
    case PendingMarker(st, _) => StampOk(s, st)
  }

  predicate ReachedIfShown(s: Stores, id: Id) {
    id in s.shown ==> Reached(s, id)
  }

  ghost predicate ShownOk(s: Stores) {
    forall id {:trigger ReachedIfShown(s, id)} :: ReachedIfShown(s, id)
  }

  ghost predicate StoresOk(s: Stores) {
    OpsOk(s) && RowOk(s) && MarkerOk(s) && ShownOk(s)
  }

  predicate Past(s: Stores, record: Row) {
    InLog(s, record.id) && (record.ready ==> record.id in s.shown)
  }

  predicate LocalOk(s: Stores, l: Local) {
    match l
    case EnsCreate(_, _) => true
    case EnsReadRow(created) => created.Some? ==> s.Knows(created.value)
    case EnsFindOp(record) => Past(s, record)
    case EnsReconcile(record) => Past(s, record) && record.ready
    case EnsCheck(record) => Past(s, record) && record.ready
    case RecReadCommitted(op) => s.Knows(op) && s.ops[op.token].state.Committed?
    case RecCommit(op) => s.KnowsDurable(op)
    case RecReloadReady(op) => s.Knows(op) && op.transition.next in s.shown
    case RecFinalize(op) => s.KnowsDurable(op) && op.transition.next in s.shown
    case Answered(a) => a.Failed? || (Past(s, a.record) && (a.Ready? && !a.record.ready ==> a.record.id.revision > 1))
    case _ => s.Knows(l.op)
  }

  ghost predicate Inv(s: State) {
    StoresOk(s.stores) && forall p :: p in s.procs ==> LocalOk(s.stores, s.procs[p])
  }

  /** Nothing durable is taken back. */
  predicate Extends(s: Stores, s': Stores) {
    s.log <= s'.log && s.shown <= s'.shown && OpsExtend(s, s')
  }

  predicate OpsExtend(s: Stores, s': Stores) {
    forall k :: k in s.ops ==> k in s'.ops && s'.ops[k].token == s.ops[k].token && s'.ops[k].transition == s.ops[k].transition
                               && s.ops[k].state.Rank() <= s'.ops[k].state.Rank()
  }

  lemma KnowledgeIsStable(s: Stores, s': Stores, l: Local)
    requires Extends(s, s') && LocalOk(s, l)
    ensures LocalOk(s', l)
  {}

  lemma ReachedIsStable(s: Stores, s': Stores, id: Id)
    requires Extends(s, s') && Reached(s, id)
    ensures Reached(s', id)
  {}

  // ----- Redis alone changes

  lemma MarkerChangeKeeps(s: Stores, s': Stores)
    requires StoresOk(s) && s'.row == s.row && s'.ops == s.ops && s'.log == s.log && s.shown <= s'.shown
    requires MarkerOk(s') && forall id :: id in s'.shown && id !in s.shown ==> Reached(s, id)
    ensures StoresOk(s') && Extends(s, s')
  {
    forall k ensures OpOk(s', k) { assert OpOk(s, k); }
    forall j, k ensures Alone(s', j, k) { assert Alone(s, j, k); }
    forall id ensures ReachedIfShown(s', id) { assert ReachedIfShown(s, id); }
  }

  lemma PrepareKeeps(s: Stores, op: Op)
    requires StoresOk(s) && s.Knows(op) && op.expected.Some?
    ensures var (code, m, key) := PrepareFence(s.marker, s.Key(op.token), Stamp(op.token, op.transition), op.expected.value);
      && StoresOk(s.WithFence(op.token, m, key)) && Extends(s, s.WithFence(op.token, m, key))
      && (code.NewReadyObserved? ==> op.transition.next in s.shown)
  {
    var (code, m, key) := PrepareFence(s.marker, s.Key(op.token), Stamp(op.token, op.transition), op.expected.value);
    MarkerChangeKeeps(s, s.WithFence(op.token, m, key));
  }

  lemma CommitKeeps(s: Stores, op: Op)
    requires StoresOk(s) && s.KnowsDurable(op)
    ensures var (done, m, key) := CommitFence(s.marker, s.Key(op.token), Stamp(op.token, op.transition));
      && StoresOk(s.WithFence(op.token, m, key)) && Extends(s, s.WithFence(op.token, m, key))
      && (done ==> op.transition.next in s.WithFence(op.token, m, key).shown)
  {
    var (done, m, key) := CommitFence(s.marker, s.Key(op.token), Stamp(op.token, op.transition));
    assert OpOk(s, op.token);
    MarkerChangeKeeps(s, s.WithFence(op.token, m, key));
  }

  lemma ReconcileKeeps(s: Stores, record: Row)
    requires StoresOk(s) && Past(s, record) && record.ready
    ensures var s' := s.(marker := ReconcileReady(s.marker, record.id), shown := s.shown + {record.id});
      StoresOk(s') && Extends(s, s')
  {
    MarkerChangeKeeps(s, s.(marker := ReconcileReady(s.marker, record.id), shown := s.shown + {record.id}));
  }

  // ----- PostgreSQL changes

  lemma ShownIsStable(s: Stores, s': Stores)
    requires ShownOk(s) && MarkerOk(s) && Extends(s, s') && s'.shown == s.shown && s'.marker == s.marker
    ensures ShownOk(s') && MarkerOk(s')
  {
    forall id ensures ReachedIfShown(s', id) {
      assert ReachedIfShown(s, id);
      if id in s.shown { ReachedIsStable(s, s', id); }
    }
  }

  lemma CreateKeeps(s: Stores, token: Token, epoch: string)
    requires StoresOk(s) && s.row.None? && epoch != ""
    ensures StoresOk(CreateBootstrap(s, token, epoch)) && Extends(s, CreateBootstrap(s, token, epoch))
  {
    var s' := CreateBootstrap(s, token, epoch);
    forall k ensures OpOk(s', k) {}
    forall j, k ensures Alone(s', j, k) {}
    ShownIsStable(s, s');
  }

  lemma RequestKeeps(s: Stores, op: Op)
    requires StoresOk(s) && CanCreateRecovery(s, op)
    ensures StoresOk(s.WithOp(op)) && Extends(s, s.WithOp(op))
  {
    var s' := s.WithOp(op);
    forall k ensures OpOk(s', k) { assert OpOk(s, k); }
    forall j, k ensures Alone(s', j, k) { assert Alone(s, j, k); }
    ShownIsStable(s, s');
  }

  /** Only the open operation changes. */
  lemma OthersKeep(s: Stores, s': Stores, k0: Token)
    requires OpsOk(s) && Open(s, k0) && Extends(s, s') && s'.ops.Keys == s.ops.Keys
    requires forall k :: k in s.ops && k != k0 ==> s'.ops[k] == s.ops[k]
    requires OpOk(s', k0)
    ensures OpsOk(s')
  {
    forall k ensures OpOk(s', k) {
      assert OpOk(s, k) && Alone(s, k, k0);
      if k in s.ops && k != k0 { ReachedIsStable(s, s', s.ops[k].transition.next); }
    }
    forall j, k ensures Alone(s', j, k) { assert Alone(s, j, k0) && Alone(s, k, k0); }
  }

  /** Changing only the expectation, or preparing to prepared. */
  lemma TouchKeeps(s: Stores, op: Op)
    requires StoresOk(s) && Open(s, op.token) && op.transition == s.ops[op.token].transition && op.token == s.ops[op.token].token
    requires op.state == s.ops[op.token].state || (op.state.Prepared? && s.ops[op.token].state.Preparing?)
    ensures StoresOk(s.WithOp(op)) && Extends(s, s.WithOp(op))
  {
    var s' := s.WithOp(op);
    assert OpOk(s, op.token);
    OthersKeep(s, s', op.token);
    ShownIsStable(s, s');
  }

  lemma AdvanceKeeps(s: Stores, op: Op)
    requires StoresOk(s) && CanAdvance(s, op)
    ensures StoresOk(Advance(s, op)) && Extends(s, Advance(s, op)) && Advance(s, op).KnowsDurable(op)
  {
    var s' := Advance(s, op);
    assert OpOk(s, op.token);
    OthersKeep(s, s', op.token);
    ShownIsStable(s, s');
  }

  lemma FinalizeKeeps(s: Stores, op: Op)
    requires StoresOk(s) && CanFinalize(s, op) && op.transition.next in s.shown
    ensures StoresOk(Finalize(s, op)) && Extends(s, Finalize(s, op))
  {
    var s' := Finalize(s, op);
    assert OpOk(s, op.token);
    OthersKeep(s, s', op.token);
    ShownIsStable(s, s');
  }

  // ----- one step

  lemma EffectKeeps(s: Stores, l: Local)
    requires StoresOk(s) && LocalOk(s, l)
    ensures StoresOk(Effect(s, l)) && Extends(s, Effect(s, l))
  {
    match l
    case EnsCreate(token, epoch) => if s.row.None? && epoch != "" { CreateKeeps(s, token, epoch); }
    case EnsReconcile(record) => ReconcileKeeps(s, record);
    case RecRecord(op, expected) => if CanRecord(s, op) { TouchKeeps(s, s.ops[op.token].(expected := Some(expected))); }
    case RecPrepare(op) => if op.expected.Some? { PrepareKeeps(s, op); }
    case RecMarkPrepared(op) => if s.ops[op.token].state.Preparing? { TouchKeeps(s, s.ops[op.token].(state := Prepared)); }
    case RecAdvance(op) => if CanAdvance(s, op) { AdvanceKeeps(s, op); }
    case RecCommit(op) => CommitKeeps(s, op);
    case RecFinalize(op) => if CanFinalize(s, op) { FinalizeKeeps(s, op); }
    case _ =>
  }

  // ----- what a coordinator has learnt is true

  predicate Learnt(s: Stores, l: Local) {
    LocalOk(Effect(s, l), Learns(s, l))
  }

  lemma EnsureLearns(s: Stores, l: Local)
    requires StoresOk(s) && LocalOk(s, l) && (l.EnsCreate? || l.EnsReadRow? || l.EnsFindOp? || l.EnsReconcile? || l.EnsCheck?)
    ensures Learnt(s, l)
  {}

  lemma ReadLearns(s: Stores, l: Local)
    requires StoresOk(s) && LocalOk(s, l) && (l.RecRead? || l.RecReload? || l.RecReloadReady?)
    ensures Learnt(s, l)
  {}

  lemma RecordLearns(s: Stores, op: Op, expected: Expected)
    requires s.Knows(op)
    ensures Learnt(s, RecRecord(op, expected))
  {}

  lemma PrepareLearns(s: Stores, op: Op)
    requires StoresOk(s) && s.Knows(op)
    ensures Learnt(s, RecPrepare(op))
  {
    if op.expected.Some? { PrepareKeeps(s, op); }
  }

  lemma MarkLearns(s: Stores, op: Op)
    requires s.Knows(op)
    ensures Learnt(s, RecMarkPrepared(op))
  {}

  lemma AdvanceLearns(s: Stores, op: Op)
    requires s.Knows(op)
    ensures Learnt(s, RecAdvance(op))
  {}

  lemma CommitLearns(s: Stores, op: Op)
    requires s.KnowsDurable(op)
    ensures Learnt(s, RecCommit(op))
  {}

  /** Once an operation is committed the row is at or past it; if it is recovering again, a later one opened. */
  lemma CommittedRow(s: Stores, op: Op)
    requires StoresOk(s) && s.Knows(op) && s.ops[op.token].state.Committed?
    ensures Learnt(s, RecReadCommitted(op))
  {
    assert OpOk(s, op.token);
    if s.row.Some? && !s.row.value.ready { assert OpOk(s, s.log[|s.log| - 1].token); }
  }

  lemma FinalizeLearns(s: Stores, op: Op)
    requires StoresOk(s) && LocalOk(s, RecFinalize(op))
    ensures Learnt(s, RecFinalize(op))
  {}

  lemma LearnsKnowledge(s: Stores, l: Local)
    requires StoresOk(s) && LocalOk(s, l)
    ensures Learnt(s, l)
  {
    match l
    case RecRead(_) => ReadLearns(s, l);
    case RecReload(_) => ReadLearns(s, l);
    case RecReloadReady(_) => ReadLearns(s, l);
    case RecRecord(op, expected) => RecordLearns(s, op, expected);
    case RecPrepare(op) => PrepareLearns(s, op);
    case RecMarkPrepared(op) => MarkLearns(s, op);
    case RecAdvance(op) => AdvanceLearns(s, op);
    case RecReadCommitted(op) => CommittedRow(s, op);
    case RecCommit(op) => CommitLearns(s, op);
    case RecFinalize(op) => FinalizeLearns(s, op);
    case Answered(_) =>
    case _ => EnsureLearns(s, l);
  }

  lemma RunKeeps(s: Stores, l: Local, s': Stores, l': Local)
    requires StoresOk(s) && LocalOk(s, l) && CoordinatorStep(s, l, s', l')
    ensures StoresOk(s') && Extends(s, s') && LocalOk(s', l')
  {
    if s' != s { EffectKeeps(s, l); }
    if FindsOp(s, l, l') { assert OpOk(s, l'.op.token); }
    else if l' != Answered(Failed) { LearnsKnowledge(s, l); }
  }

  /** What changed in one step is consistent. */
  lemma ChangeKeeps(s: State, s': State, step: Step)
    requires Inv(s) && NextBy(s, s', step)
    ensures StoresOk(s'.stores) && Extends(s.stores, s'.stores)
    ensures forall p :: p in s'.procs && (p !in s.procs || s'.procs[p] != s.procs[p]) ==> LocalOk(s'.stores, s'.procs[p])
  {
    match step
    case Start(_, _, _) =>
    case Run(p, l) => RunKeeps(s.stores, s.procs[p], s'.stores, l);
    case Crash(_) =>
    case RequestRecovery(op) => RequestKeeps(s.stores, op);
    case LoseMarker => MarkerChangeKeeps(s.stores, s'.stores);
    case LoseKey(k) => MarkerChangeKeeps(s.stores, s'.stores);
  }

  /** Every step keeps the invariant and takes back nothing durable. */
  lemma StepKeeps(s: State, s': State)
    requires Inv(s) && Next(s, s')
    ensures Inv(s') && Extends(s.stores, s'.stores)
  {
    var step :| NextBy(s, s', step);
    ChangeKeeps(s, s', step);
    forall p | p in s'.procs && p in s.procs && s'.procs[p] == s.procs[p] ensures LocalOk(s'.stores, s'.procs[p]) {
      KnowledgeIsStable(s.stores, s'.stores, s.procs[p]);
    }
  }
}
