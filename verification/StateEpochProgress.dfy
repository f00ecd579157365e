/**
 When a start-up can always get through: as long as the marker is not lost and nobody
 installs an old record over it, the stores stay in order, whatever calls fail, crash or overlap.
 */
module StateEpochProgress {
  import opened Common
  import opened StateEpoch
  import opened StateEpochInvariant
  import opened StateEpochCoordinator
  import opened StateEpochRuns
  import opened StateEpochFalls

  /** The marker an operation starts from. */
  function Origin(t: Transition): Expected {
    if t.prior.None? then ExpectAbsent else ExpectReady(t.prior.value)
  }

  predicate OwnFence(s: Stores, k: Token)
    requires k in s.ops
  {
    && s.marker == PendingMarker(Stamp(k, s.ops[k].transition), Origin(s.ops[k].transition))
    && KeySays(s, k, KeyPending) && s.ops[k].expected == Some(Origin(s.ops[k].transition))
  }

  predicate OwnReady(s: Stores, k: Token)
    requires k in s.ops
  {
    s.marker == ReadyMarker(s.ops[k].transition.next, Some(Stamp(k, s.ops[k].transition))) && KeySays(s, k, KeyCommitted) && s.ops[k].expected.Some?
  }

  /** Marker and key are where the state of an open operation wants them. */
  predicate OpenTidy(s: Stores, k: Token) {
    Open(s, k) ==>
      match s.ops[k].state
      case Preparing =>
        || OwnFence(s, k)
        || (KeySays(s, k, KeyPending) && if s.ops[k].transition.prior.None? then s.marker.NoMarker? else s.marker.Ready(s.ops[k].transition.prior.value))
      case Prepared => OwnFence(s, k)
      case _ => OwnFence(s, k) || OwnReady(s, k)
  }

  predicate OpTidy(s: Stores, k: Token) {
    k in s.ops ==>
      && (s.ops[k].expected.Some? ==> s.ops[k].expected.value == Origin(s.ops[k].transition))
      && (s.marker.NoMarker? ==> !s.ops[k].state.Committed? && s.ops[k].transition.prior.None?)
      && OpenTidy(s, k)
  }

  ghost predicate Tidy(s: Stores) {
    && (forall k {:trigger OpTidy(s, k)} :: OpTidy(s, k))
    && (forall k :: k in s.keys ==> k in s.ops)
    && (NoneOpen(s) && s.row.Some? ==> s.marker.Ready(s.row.value.id))
    && (s.row.None? ==> s.marker.NoMarker?)
  }

  /** What a coordinator has in hand agrees with the operation it is about. */
  predicate Current(s: Stores, op: Op) {
    op.expected.Some? ==> op.expected.value == Origin(op.transition) && op.token in s.ops && s.ops[op.token].expected == op.expected
  }

  /** The fence was put up, and the operation has moved on from there. */
  predicate FenceStands(s: Stores, op: Op) {
    Current(s, op) && op.expected.Some? && op.token in s.ops && (s.ops[op.token].state.Durable() || OwnFence(s, op.token))
  }

  predicate LocalTidy(s: Stores, l: Local) {
    match l
    case EnsReadRow(created) => created.Some? ==> Current(s, created.value)
    case RecRead(op) => Current(s, op)
    case RecRecord(op, expected) => Current(s, op) && expected == Origin(op.transition)
    case RecPrepare(op) => Current(s, op)
    case RecMarkPrepared(op) => FenceStands(s, op)
    case RecAdvance(op) => FenceStands(s, op)
    case RecReloadReady(op) => op.token in s.ops && (s.ops[op.token].state.Committed? || OwnReady(s, op.token))
    case RecFinalize(op) => op.token in s.ops && (s.ops[op.token].state.Committed? || OwnReady(s, op.token))
    case _ => true
  }

  ghost predicate AllTidy(s: State) {
    Inv(s) && Tidy(s.stores) && forall p :: p in s.procs ==> LocalTidy(s.stores, s.procs[p])
  }

  /** The marker is not lost, and no coordinator that found nothing to do replaces it. */
  predicate Gentle(s: State, s': State, step: Step) {
    !step.LoseMarker? && !Installs(s, s', step)
  }

  // ----- in order means startable

  lemma TidyIsFenceable(s: Stores, k: Token)
    requires StoresOk(s) && OpTidy(s, k) && Open(s, k)
    ensures s.ops[k].token == k && Fenceable(s, s.ops[k])
  {
    assert OpOk(s, k);
    FenceableIff(s, s.ops[k]);
  }

  lemma TidyIsStartable(s: Stores, token: Token)
    requires StoresOk(s) && Tidy(s)
    ensures Startable(s, token)
  {
    forall k | k in s.ops && Open(s, k) ensures Fenceable(s, s.ops[k]) {
      assert OpTidy(s, k);
      TidyIsFenceable(s, k);
    }
  }

  // ----- every gentle step keeps the order

  /** The only open operation, if any. */
  lemma Others(s: Stores, k: Token, j: Token)
    requires StoresOk(s) && Open(s, k) && j in s.ops && j != k
    ensures s.ops[j].state.Committed?
  {
    assert Alone(s, j, k);
  }

  /** A committed operation leads no further than the row, and does not start from it. */
  lemma CommittedIsPast(s: Stores, k: Token)
    requires StoresOk(s) && k in s.ops && s.ops[k].state.Committed?
    ensures s.row.Some? && s.ops[k].transition.next.revision <= s.row.value.id.revision
    ensures s.ops[k].transition.Valid() && s.ops[k].token == k
  {
    assert OpOk(s, k);
  }

  lemma CreateTidy(s: Stores, token: Token, epoch: string)
    requires StoresOk(s) && Tidy(s) && s.row.None? && token !in s.ops && epoch != ""
    ensures Tidy(CreateBootstrap(s, token, epoch))
  {
    var s' := CreateBootstrap(s, token, epoch);
    assert s.ops == map[];
    forall k ensures OpTidy(s', k) {}
    assert Open(s', token);
  }

  lemma RequestTidy(s: Stores, op: Op)
    requires StoresOk(s) && Tidy(s) && CanCreateRecovery(s, op)
    ensures Tidy(s.WithOp(op)) && forall j :: Kept(s, s.WithOp(op), j)
  {
    var s' := s.WithOp(op);
    forall k ensures OpTidy(s', k) { assert OpTidy(s, k); }
    assert Open(s', op.token);
  }

  lemma RecordTidy(s: Stores, op: Op, expected: Expected)
    requires StoresOk(s) && Tidy(s) && CanRecord(s, op) && expected == Origin(op.transition)
    ensures Tidy(s.WithOp(s.ops[op.token].(expected := Some(expected))))
  {
    var s' := s.WithOp(s.ops[op.token].(expected := Some(expected)));
    forall k ensures OpTidy(s', k) { assert OpTidy(s, k); }
    assert Open(s', op.token);
  }

  lemma MarkTidy(s: Stores, op: Op)
    requires StoresOk(s) && Tidy(s) && s.Knows(op) && s.ops[op.token].state.Preparing? && OwnFence(s, op.token)
    ensures Tidy(s.WithOp(s.ops[op.token].(state := Prepared)))
  {
    var s' := s.WithOp(s.ops[op.token].(state := Prepared));
    forall k ensures OpTidy(s', k) { assert OpTidy(s, k); }
    assert Open(s', op.token);
  }

  lemma AdvanceTidy(s: Stores, op: Op)
    requires StoresOk(s) && Tidy(s) && CanAdvance(s, op)
    ensures Tidy(Advance(s, op))
  {
    var s' := Advance(s, op);
    forall k ensures OpTidy(s', k) { assert OpTidy(s, k); }
    assert Open(s', op.token);
  }

  lemma FinalizeTidy(s: Stores, op: Op)
    requires StoresOk(s) && Tidy(s) && CanFinalize(s, op) && LocalTidy(s, RecFinalize(op))
    ensures Tidy(Finalize(s, op))
  {
    var s' := Finalize(s, op);
    forall k ensures OpTidy(s', k) { assert OpTidy(s, k); }
  }

  /** What the prepare script does to stores in order. */
  lemma PrepareTidy(s: Stores, op: Op)
    requires StoresOk(s) && Tidy(s) && s.Knows(op) && Current(s, op) && op.expected.Some?
    ensures var (code, m, key) := PrepareFence(s.marker, s.Key(op.token), Stamp(op.token, op.transition), op.expected.value);
      var s' := s.WithFence(op.token, m, key);
      && Tidy(s')
      && (code.FencePrepared? ==> FenceStands(s', op))
      && (code.NewReadyObserved? ==> s'.ops[op.token].state.Committed? || OwnReady(s', op.token))
  {
    var (code, m, key) := PrepareFence(s.marker, s.Key(op.token), Stamp(op.token, op.transition), op.expected.value);
    var s' := s.WithFence(op.token, m, key);
    var k := op.token;
    assert OpTidy(s, k) && OpOk(s, k);
    if Open(s, k) {
      forall j ensures OpTidy(s', j) {
        assert OpTidy(s, j);
        if j in s.ops && j != k { Others(s, k, j); }
      }
    } else {
      CommittedIsPast(s, k);
      OldFenceChangesNothing(s, op);
      forall j ensures OpTidy(s', j) { assert OpTidy(s, j); }
    }
  }

  /** The prepare script of an operation that has ended leaves the marker alone, and no key but its own. */
  lemma OldFenceChangesNothing(s: Stores, op: Op)
    requires StoresOk(s) && Tidy(s) && s.Knows(op) && Current(s, op) && op.expected.Some? && s.ops[op.token].state.Committed?
    ensures var (code, m, key) := PrepareFence(s.marker, s.Key(op.token), Stamp(op.token, op.transition), op.expected.value);
      m == s.marker && !code.FencePrepared?
  {
    var k := op.token;
    CommittedIsPast(s, k);
    assert OpTidy(s, k);
    if NoneOpen(s) {
    } else {
      var j :| j in s.ops && !s.ops[j].state.Committed?;
      assert OpTidy(s, j) && OpOk(s, j);
    }
  }

  lemma CommitTidy(s: Stores, op: Op)
    requires StoresOk(s) && Tidy(s) && s.KnowsDurable(op)
    ensures var (done, m, key) := CommitFence(s.marker, s.Key(op.token), Stamp(op.token, op.transition));
      var s' := s.WithFence(op.token, m, key);
      && Tidy(s') && (done ==> s'.ops[op.token].state.Committed? || OwnReady(s', op.token))
  {
    var (done, m, key) := CommitFence(s.marker, s.Key(op.token), Stamp(op.token, op.transition));
    var s' := s.WithFence(op.token, m, key);
    var k := op.token;
    assert OpTidy(s, k) && OpOk(s, k);
    forall j ensures OpTidy(s', j) {
      assert OpTidy(s, j);
      if j in s.ops && j != k && Open(s, k) { Others(s, k, j); }
      if j in s.ops && j != k && Open(s, j) { Others(s, j, k); }
    }
  }

  /** A call of a coordinator that gets through keeps the order. */
  lemma EffectTidy(s: Stores, l: Local)
    requires StoresOk(s) && Tidy(s) && LocalOk(s, l) && LocalTidy(s, l)
    requires l.EnsReconcile? ==> Effect(s, l).marker == s.marker
    ensures Tidy(Effect(s, l))
  {
    hide StoresOk, PrepareFence, CommitFence, CreateBootstrap, CanRecord, CanAdvance, Advance, CanFinalize, Finalize;
    match l
    case EnsCreate(token, epoch) => if s.row.None? && token !in s.ops && epoch != "" { CreateTidy(s, token, epoch); }
    case EnsReconcile(_) =>
      forall k ensures OpTidy(Effect(s, l), k) { assert OpTidy(s, k); }
    case RecRecord(op, expected) => if CanRecord(s, op) { RecordTidy(s, op, expected); }
    case RecPrepare(op) => if op.expected.Some? { PrepareTidy(s, op); }
    case RecMarkPrepared(op) => if s.ops[op.token].state.Preparing? { MarkTidy(s, op); }
    case RecAdvance(op) => if CanAdvance(s, op) { AdvanceTidy(s, op); }
    case RecCommit(op) => CommitTidy(s, op);
    case RecFinalize(op) => if CanFinalize(s, op) { FinalizeTidy(s, op); }
    case _ =>
  }

  // ----- what a coordinator has in hand stays in order

  /** What is known about one operation does not get worse. */
  predicate Kept(s: Stores, s': Stores, k: Token) {
    k in s.ops ==>
      && k in s'.ops && s'.ops[k].transition == s.ops[k].transition
      && (s.ops[k].expected.Some? ==> s'.ops[k].expected == s.ops[k].expected)
      && s.ops[k].state.Rank() <= s'.ops[k].state.Rank()
      && (OwnFence(s, k) ==> s'.ops[k].state.Durable() || OwnFence(s', k))
      && (OwnReady(s, k) ==> s'.ops[k].state.Committed? || OwnReady(s', k))
  }

  lemma KeptLocal(s: Stores, s': Stores, l: Local)
    requires LocalTidy(s, l) && LocalOk(s, l) && forall k :: Kept(s, s', k)
    ensures LocalTidy(s', l)
  {
    match l
    case EnsReadRow(created) => if created.Some? { assert Kept(s, s', created.value.token); }
    case RecRead(op) => assert Kept(s, s', op.token);
    case RecRecord(op, _) => assert Kept(s, s', op.token);
    case RecPrepare(op) => assert Kept(s, s', op.token);
    case RecMarkPrepared(op) => assert Kept(s, s', op.token);
    case RecAdvance(op) => assert Kept(s, s', op.token);
    case RecReloadReady(op) => assert Kept(s, s', op.token);
    case RecFinalize(op) => assert Kept(s, s', op.token);
    case _ =>
  }

  lemma PrepareKeepsOthers(s: Stores, op: Op)
    requires StoresOk(s) && Tidy(s) && s.Knows(op) && Current(s, op) && op.expected.Some?
    ensures forall k :: Kept(s, Effect(s, RecPrepare(op)), k)
  {
    var s' := Effect(s, RecPrepare(op));
    if s.ops[op.token].state.Committed? {
      OldFenceChangesNothing(s, op);
      hide PrepareFence, Tidy, StoresOk;
      assert s'.marker == s.marker;
      assert forall k :: k != op.token ==> s'.Key(k) == s.Key(k);
      assert Open(s, op.token) == false;
    } else {
      forall k ensures Kept(s, s', k) {
        assert OpTidy(s, op.token) && OpOk(s, op.token);
        if k in s.ops && k != op.token { Others(s, op.token, k); }
      }
    }
  }

  lemma CommitKeepsOthers(s: Stores, op: Op)
    requires StoresOk(s) && Tidy(s) && s.KnowsDurable(op)
    ensures forall k :: Kept(s, Effect(s, RecCommit(op)), k)
  {
    var s' := Effect(s, RecCommit(op));
    forall k ensures Kept(s, s', k) {
      assert OpTidy(s, k) && OpOk(s, k) && OpTidy(s, op.token) && OpOk(s, op.token);
    }
  }

  lemma EffectKeepsKnown(s: Stores, l: Local)
    requires StoresOk(s) && Tidy(s) && LocalOk(s, l) && LocalTidy(s, l)
    requires l.EnsReconcile? ==> Effect(s, l).marker == s.marker
    ensures forall k :: Kept(s, Effect(s, l), k)
  {
    if l.RecPrepare? && l.op.expected.Some? {
      PrepareKeepsOthers(s, l.op);
    } else if l.RecCommit? {
      CommitKeepsOthers(s, l.op);
    } else {
      var s' := Effect(s, l);
      forall k ensures Kept(s, s', k) {
        assert OpTidy(s, k);
      }
    }
  }

  predicate LearntTidy(s: Stores, l: Local) {
    LocalTidy(Effect(s, l), Learns(s, l))
  }

  lemma ReadTidy(s: Stores, op: Op)
    requires StoresOk(s) && Tidy(s) && s.Knows(op) && Current(s, op)
    ensures LearntTidy(s, RecRead(op))
  {
    assert OpTidy(s, op.token);
  }

  lemma RecordLearnsTidy(s: Stores, op: Op, expected: Expected)
    requires s.Knows(op) && LocalTidy(s, RecRecord(op, expected))
    ensures LearntTidy(s, RecRecord(op, expected))
  {}

  lemma PrepareLearnsTidy(s: Stores, op: Op)
    requires StoresOk(s) && Tidy(s) && s.Knows(op) && Current(s, op)
    ensures LearntTidy(s, RecPrepare(op))
  {
    hide PrepareFence, Tidy, StoresOk;
    if op.expected.Some? { PrepareTidy(s, op); }
  }

  lemma CommitLearnsTidy(s: Stores, op: Op)
    requires StoresOk(s) && Tidy(s) && s.KnowsDurable(op)
    ensures LearntTidy(s, RecCommit(op))
  {
    hide CommitFence, Tidy, StoresOk;
    CommitTidy(s, op);
  }

  lemma AdvanceLearnsTidy(s: Stores, op: Op)
    requires s.Knows(op) && FenceStands(s, op)
    ensures LearntTidy(s, RecMarkPrepared(op)) && LearntTidy(s, RecAdvance(op))
  {}

  /** A marker that already shows the new identity is the open operation's own. */
  lemma ReloadLearnsTidy(s: Stores, op: Op)
    requires s.Knows(op) && LocalTidy(s, RecReloadReady(op))
    ensures LearntTidy(s, RecReloadReady(op))
  {}

  lemma LearnsInOrder(s: Stores, l: Local)
    requires StoresOk(s) && Tidy(s) && LocalOk(s, l) && LocalTidy(s, l)
    ensures LearntTidy(s, l)
  {
    hide StoresOk, Tidy, PrepareFence, CommitFence, FenceStands;
    match l
    case RecRead(op) => ReadTidy(s, op);
    case RecRecord(op, expected) => RecordLearnsTidy(s, op, expected);
    case RecPrepare(op) => PrepareLearnsTidy(s, op);
    case RecMarkPrepared(op) => AdvanceLearnsTidy(s, op);
    case RecAdvance(op) => AdvanceLearnsTidy(s, op);
    case RecCommit(op) => CommitLearnsTidy(s, op);
    case RecReloadReady(op) => ReloadLearnsTidy(s, op);
    case EnsReadRow(created) => EnsReadTidy(s, created);
    case _ =>
  }

  lemma EnsReadTidy(s: Stores, created: Option<Op>)
    requires LocalTidy(s, EnsReadRow(created))
    ensures LearntTidy(s, EnsReadRow(created))
  {}

  // ----- runs

  lemma RunTidy(s: State, s': State, p: nat, l': Local)
    requires AllTidy(s) && GentleBy(s, s', Step.Run(p, l'))
    ensures Tidy(s'.stores) && LocalTidy(s'.stores, l') && forall k :: Kept(s.stores, s'.stores, k)
  {
    hide StoresOk, Tidy, Effect, Learns;
    var l := s.procs[p];
    if s'.stores != s.stores {
      EffectTidy(s.stores, l);
      EffectKeepsKnown(s.stores, l);
    }
    if FindsOp(s.stores, l, l') { FoundIsCurrent(s.stores, l'.op); }
    else if l' != Answered(Failed) { LearnsInOrder(s.stores, l); }
  }

  lemma FoundIsCurrent(s: Stores, op: Op)
    requires StoresOk(s) && Tidy(s) && op.token in s.ops && s.ops[op.token] == op
    ensures Current(s, op)
  {
    assert OpTidy(s, op.token);
  }

  lemma LoseKeyTidy(s: Stores, k: Token)
    requires Tidy(s)
    ensures var s' := s.(keys := s.keys - {k}); Tidy(s') && forall j :: Kept(s, s', j)
  {
    var s' := s.(keys := s.keys - {k});
    forall j ensures OpTidy(s', j) { assert OpTidy(s, j); }
  }

  /** Every step but the two that replace the marker keeps everything in order. */
  lemma StepTidy(s: State, s': State, step: Step)
    requires AllTidy(s) && GentleBy(s, s', step)
    ensures AllTidy(s')
  {
    hide StoresOk, Tidy, CoordinatorStep, CanCreateRecovery;
    StepKeeps(s, s');
    match step {
      case Start(_, _, _) =>
      case Run(p, l) => RunTidy(s, s', p, l);
      case Crash(_) =>
      case RequestRecovery(op) => RequestTidy(s.stores, op);
      case LoseKey(k) => LoseKeyTidy(s.stores, k);
    }
    forall p | p in s'.procs && p in s.procs && s'.procs[p] == s.procs[p] ensures LocalTidy(s'.stores, s'.procs[p]) {
      KeptLocal(s.stores, s'.stores, s.procs[p]);
    }
  }

  predicate GentleBy(s: State, s': State, step: Step) {
    NextBy(s, s', step) && Gentle(s, s', step)
  }

  ghost predicate GentleNext(s: State, s': State) {
    exists step :: GentleBy(s, s', step)
  }

  ghost predicate GentleRun(run: seq<State>) {
    IsRun(run) && forall i: nat :: GentleAt(run, i)
  }

  ghost predicate GentleAt(run: seq<State>, i: nat) {
    i + 1 < |run| ==> GentleNext(run[i], run[i + 1])
  }

  lemma {:induction false} GentleRunIsTidy(run: seq<State>, i: nat)
    requires GentleRun(run) && i < |run|
    ensures AllTidy(run[i])
  {
    if i == 0 {
      RunKeepsInv(run, 0);
      assert forall k :: OpTidy(run[0].stores, k);
    } else {
      GentleRunIsTidy(run, i - 1);
      assert GentleAt(run, i - 1);
      var step :| GentleBy(run[i - 1], run[i], step);
      StepTidy(run[i - 1], run[i], step);
    }
  }

  /**
   However many coordinators have failed, crashed or overlapped, and whichever operation keys
   have expired: unless the marker was lost or an installation replaced it, the next start-up can
   get through.
   */
  lemma StartUpCanGetThrough(run: seq<State>, i: nat, token: Token)
    requires GentleRun(run) && i < |run|
    ensures Startable(run[i].stores, token)
  {
    GentleRunIsTidy(run, i);
    TidyIsStartable(run[i].stores, token);
  }

  /** Losing the marker then stops start-ups exactly if an open operation has committed its key. */
  lemma LossStopsStartUpsIff(run: seq<State>, i: nat, token: Token)
    requires GentleRun(run) && i < |run|
    ensures var s := run[i].stores;
      !Startable(s.(marker := NoMarker), token) <==> exists k :: Open(s, k) && k in s.keys && s.keys[k] == KeyCommitted
  {
    GentleRunIsTidy(run, i);
    var s := run[i].stores;
    forall k | Open(s, k) ensures Fenceable(s.(marker := NoMarker), s.ops[k]) <==> !(k in s.keys && s.keys[k] == KeyCommitted) {
      assert OpOk(s, k);
      FenceableIff(s.(marker := NoMarker), s.ops[k]);
    }
    if s.row.None? { EmptyStoresHaveNoMarker(s); }
  }

  /** A state in which every start-up fails: the first epoch's coordinator stopped before finalizing the row, and the marker is gone. */
  lemma LostMarkerStopsStartUps() returns (s: State)
    ensures Reachable(s) && s.stores.marker.NoMarker?
    ensures forall token :: !Startable(s.stores, token)
  {
    var t := FirstFence();
    t := PreparedAlone(t, 0, BOOTSTRAP);
    DriveReaches(t, 0);
    t := Drive(t, 0);
    s := t.(stores := t.stores.(marker := NoMarker));
    Extend(t, s, Step.LoseMarker);
    assert Open(s.stores, "a") && s.stores.keys["a"] == KeyCommitted;
  }
}
