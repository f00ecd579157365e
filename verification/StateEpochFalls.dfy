/**
 When the marker falls back: a marker is at a revision once it is ready for it or a later
 one, or carries the fence of an operation that leads there.
 */
module StateEpochFalls {
  import opened Common
  import opened StateEpoch
  import opened StateEpochInvariant
  import opened StateEpochRuns

  predicate AtLeast(m: Marker, revision: int) {
    match m
    case NoMarker => false
    case ReadyMarker(id, _) => id.revision >= revision
    case PendingMarker(st, _) => st.transition.next.revision >= revision
  }

  /** A coordinator that found nothing to do installs its record, and that changes the marker. */
  predicate Installs(s: State, s': State, step: Step) {
    step.Run? && step.p in s.procs && s.procs[step.p].EnsReconcile? && s'.stores.marker != s.stores.marker
  }

  /** The marker is lost, or an older record takes its place. */
  predicate Lowers(s: State, s': State, step: Step, revision: int) {
    step.LoseMarker? || (Installs(s, s', step) && s.procs[step.p].record.id.revision < revision)
  }

  lemma FenceKeepsLevel(s: Stores, op: Op, revision: int)
    requires AtLeast(s.marker, revision) && op.expected.Some? && op.transition.Valid()
    ensures AtLeast(PrepareFence(s.marker, s.Key(op.token), Stamp(op.token, op.transition), op.expected.value).1, revision)
  {}

  lemma CommitKeepsLevel(s: Stores, op: Op, revision: int)
    requires AtLeast(s.marker, revision)
    ensures AtLeast(CommitFence(s.marker, s.Key(op.token), Stamp(op.token, op.transition)).1, revision)
  {}

  lemma KnownIsValid(s: Stores, op: Op)
    requires StoresOk(s) && s.Knows(op)
    ensures op.transition.Valid()
  {
    assert OpOk(s, op.token);
  }

  /** A marker at a revision, ready or fenced, leaves it in one step exactly by being lost or by the installation of an older record. */
  lemma MarkerFallsIffLowered(s: State, s': State, step: Step, revision: int)
    requires Inv(s) && NextBy(s, s', step) && AtLeast(s.stores.marker, revision)
    ensures !AtLeast(s'.stores.marker, revision) <==> Lowers(s, s', step, revision)
  {
    hide StoresOk;
    if step.Run? { RunFallsIffLowered(s, s', step.p, step.l, revision); }
  }

  lemma RunFallsIffLowered(s: State, s': State, p: nat, l': Local, revision: int)
    requires Inv(s) && NextBy(s, s', Step.Run(p, l')) && AtLeast(s.stores.marker, revision)
    ensures !AtLeast(s'.stores.marker, revision) <==> Lowers(s, s', Step.Run(p, l'), revision)
  {
    hide StoresOk, PrepareFence, CommitFence, Learns;
    var l := s.procs[p];
    assert LocalOk(s.stores, l);
    if l.RecPrepare? && l.op.expected.Some? {
      KnownIsValid(s.stores, l.op);
      FenceKeepsLevel(s.stores, l.op, revision);
    } else if l.RecCommit? {
      CommitKeepsLevel(s.stores, l.op, revision);
    }
  }

  // ----- over stretches of a run

  predicate LoweredBy(s: State, s': State, step: Step, revision: int) {
    NextBy(s, s', step) && Lowers(s, s', step, revision)
  }

  ghost predicate Lowered(s: State, s': State, revision: int) {
    exists step :: LoweredBy(s, s', step, revision)
  }

  ghost predicate LoweredAt(run: seq<State>, i: nat, revision: int) {
    i + 1 < |run| && Lowered(run[i], run[i + 1], revision)
  }

  /** The marker keeps a revision all along a stretch of a run exactly if no step of it lowers the marker. */
  lemma {:induction false} MarkerStaysIffNeverLowered(run: seq<State>, i: nat, j: nat, revision: int)
    requires IsRun(run) && i <= j < |run| && AtLeast(run[i].stores.marker, revision)
    ensures (forall k :: i <= k <= j ==> AtLeast(run[k].stores.marker, revision)) <==> (forall k: nat :: i <= k < j ==> !LoweredAt(run, k, revision))
    decreases j
  {
    if i < j {
      MarkerStaysIffNeverLowered(run, i, j - 1, revision);
      if AtLeast(run[j - 1].stores.marker, revision) { StepOfRunLowers(run, j - 1, revision); }
    }
  }

  lemma StepOfRunLowers(run: seq<State>, i: nat, revision: int)
    requires IsRun(run) && i + 1 < |run| && AtLeast(run[i].stores.marker, revision)
    ensures !AtLeast(run[i + 1].stores.marker, revision) <==> LoweredAt(run, i, revision)
  {
    RunKeepsInv(run, i);
    assert Follows(run, i);
    if LoweredAt(run, i, revision) {
      var step :| LoweredBy(run[i], run[i + 1], step, revision);
      MarkerFallsIffLowered(run[i], run[i + 1], step, revision);
    }
    if !AtLeast(run[i + 1].stores.marker, revision) {
      var step :| NextBy(run[i], run[i + 1], step);
      MarkerFallsIffLowered(run[i], run[i + 1], step, revision);
      assert LoweredBy(run[i], run[i + 1], step, revision);
    }
  }

  /** A marker that has been ready for a revision and is found below it was lowered in between. */
  lemma FallenMarkerWasLowered(run: seq<State>, i: nat, j: nat, id: Id) returns (k: nat)
    requires IsRun(run) && i <= j < |run| && run[i].stores.marker.Ready(id) && !AtLeast(run[j].stores.marker, id.revision)
    ensures i <= k < j && LoweredAt(run, k, id.revision)
  {
    MarkerStaysIffNeverLowered(run, i, j, id.revision);
    k :| i <= k < j && LoweredAt(run, k, id.revision);
  }

  // ----- what puts an old identity into the marker

  /** The marker has been ready for a later revision. */
  ghost predicate Behind(s: Stores, revision: int) {
    exists id :: id in s.shown && id.revision > revision
  }

  /** The fence of the operation stands, and its commit script will let it through. */
  predicate Stands(s: Stores, op: Op) {
    s.marker.PendingMarker? && s.marker.stamp == Stamp(op.token, op.transition) && Compatible(s.Key(op.token), KeyPending)
  }

  /** How a step makes the marker ready: it installs a record, or lets a standing fence through. */
  ghost predicate ShowsOld(s: State, step: Step) {
    step.Run? && step.p in s.procs &&
    var l := s.procs[step.p];
    (l.EnsReconcile? && Behind(s.stores, l.record.id.revision)) ||
    (l.RecCommit? && Stands(s.stores, l.op) && Behind(s.stores, l.op.transition.next.revision))
  }

  /**
   A step that makes the marker ready shows an identity older than one it has shown before if
   and only if it installs a record that old, or commits an operation that old whose fence
   stands: one that was put up on a lost marker, or on one that had fallen back.
   */
  lemma ShowsOldIff(s: State, s': State, step: Step)
    requires Inv(s) && NextBy(s, s', step) && s'.stores.marker != s.stores.marker && s'.stores.marker.ReadyMarker?
    ensures Behind(s.stores, s'.stores.marker.id.revision) <==> ShowsOld(s, step)
  {
    hide Inv, Learns;
    if step.Run? {
      var l := s.procs[step.p];
      if l.RecPrepare? && l.op.expected.Some? { FenceIsPending(s.stores, l.op); }
    }
  }

  lemma FenceIsPending(s: Stores, op: Op)
    requires op.expected.Some?
    ensures var m := PrepareFence(s.marker, s.Key(op.token), Stamp(op.token, op.transition), op.expected.value).1;
      m == s.marker || m.PendingMarker?
  {}

  /**
   A fence is put up by the prepare script of its own operation, on a missing marker or on
   one ready for what the operation starts from.  So a fence that leads back behind what has
   been shown stands where the marker was lost or had fallen back itself.
   */
  lemma OldFencesFollowOldMarkers(s: State, s': State, step: Step)
    requires Inv(s) && NextBy(s, s', step) && s'.stores.marker != s.stores.marker && s'.stores.marker.PendingMarker?
    ensures step.Run? && s.procs[step.p].RecPrepare? && s'.stores.marker.stamp == Stamp(s.procs[step.p].op.token, s.procs[step.p].op.transition)
    ensures s.stores.marker.NoMarker? || s.procs[step.p].op.transition.prior == Some(s.stores.marker.id)
    ensures var next := s.procs[step.p].op.transition.next;
      Behind(s.stores, next.revision) ==> s.stores.marker.NoMarker? || Behind(s.stores, s.stores.marker.id.revision)
  {
    hide StoresOk, Learns;
    if step.Run? {
      var l := s.procs[step.p];
      assert LocalOk(s.stores, l);
      if l.RecPrepare? && l.op.expected.Some? { KnownIsValid(s.stores, l.op); }
    }
  }

  // ----- runs in which the marker falls back

  ghost predicate EndsAt(run: seq<State>, s: State) {
    IsRun(run) && run[|run| - 1] == s
  }

  ghost predicate Reachable(s: State) {
    exists run :: EndsAt(run, s)
  }

  lemma Extend(s: State, s': State, step: Step)
    requires Reachable(s) && NextBy(s, s', step)
    ensures Reachable(s')
  {
    var run: seq<State> :| EndsAt(run, s);
    var longer := run + [s'];
    forall i: nat ensures Follows(longer, i) { assert Follows(run, i); }
    assert EndsAt(longer, s');
  }

  /** The state after process `p` makes its next step and no call fails. */
  function Drive(s: State, p: nat): State
    requires p in s.procs
  {
    State(Effect(s.stores, s.procs[p]), s.procs[p := Learns(s.stores, s.procs[p])])
  }

  lemma DriveReaches(s: State, p: nat)
    requires Reachable(s) && p in s.procs && !s.procs[p].EnsFindOp?
    ensures Reachable(Drive(s, p))
  {
    Extend(s, Drive(s, p), Step.Run(p, Learns(s.stores, s.procs[p])));
  }

  /** The fence stands, and nobody has prepared the operation yet. */
  predicate AtFence(s: State, p: nat, op: Op) {
    p in s.procs && s.procs[p] == RecPrepare(op) && op.expected.Some? && op.state.Preparing? && op.transition.Valid() &&
    op.token in s.stores.ops && s.stores.ops[op.token] == op && op.token !in s.stores.keys &&
    (if op.expected.value.ExpectAbsent? then s.stores.marker.NoMarker? else s.stores.marker.Ready(op.expected.value.id) && op.transition.prior == Some(op.expected.value.id)) &&
    CanAdvance(s.stores.WithOp(op.(state := Prepared)), op)
  }

  /** An undisturbed coordinator takes a new operation from its fence to a ready epoch. */
  lemma FinishAlone(s: State, p: nat, op: Op) returns (s': State)
    requires Reachable(s) && AtFence(s, p, op)
    ensures Reachable(s') && s'.procs.Keys == s.procs.Keys && forall q :: q in s.procs && q != p ==> s'.procs[q] == s.procs[q]
    ensures s'.stores.row == Some(Row(op.transition.next, op.transition.reason, true))
    ensures s'.stores.ops == s.stores.ops[op.token := op.(state := Committed)]
    ensures s'.stores.marker.Ready(op.transition.next) && s'.stores.keys.Keys == s.stores.keys.Keys + {op.token}
  {
    var a := PreparedAlone(s, p, op);
    s' := CommittedAlone(a, p, op.(state := DbCommitted));
  }

  lemma PreparedAlone(s: State, p: nat, op: Op) returns (s': State)
    requires Reachable(s) && AtFence(s, p, op)
    ensures Reachable(s') && s'.procs.Keys == s.procs.Keys && forall q :: q in s.procs && q != p ==> s'.procs[q] == s.procs[q]
    ensures s'.procs[p] == RecCommit(op.(state := DbCommitted)) && s'.stores.marker == PendingMarker(Stamp(op.token, op.transition), op.expected.value)
    ensures s'.stores.row == Some(Row(op.transition.next, op.transition.reason, false))
    ensures s'.stores.ops == s.stores.ops[op.token := op.(state := DbCommitted)]
    ensures s'.stores.keys == s.stores.keys[op.token := KeyPending]
  {
    var a := FencedAlone(s, p, op);
    assert a.stores.ops == s.stores.ops[op.token := op.(state := Prepared)];
    s' := AdvancedAlone(a, p, op.(state := Prepared));
  }

  lemma FencedAlone(s: State, p: nat, op: Op) returns (s': State)
    requires Reachable(s) && AtFence(s, p, op)
    ensures Reachable(s') && s'.procs == s.procs[p := RecAdvance(op.(state := Prepared))]
    ensures s'.stores.marker == PendingMarker(Stamp(op.token, op.transition), op.expected.value)
    ensures s'.stores.row == s.stores.row
    ensures s'.stores.ops == s.stores.ops[op.token := op.(state := Prepared)]
    ensures s'.stores.keys == s.stores.keys[op.token := KeyPending]
  {
    DriveReaches(s, p);
    var m := Drive(s, p);
    assert m.procs == s.procs[p := RecMarkPrepared(op)];
    DriveReaches(m, p);
    s' := Drive(m, p);
  }

  lemma AdvancedAlone(s: State, p: nat, op: Op) returns (s': State)
    requires Reachable(s) && p in s.procs && s.procs[p] == RecAdvance(op) && CanAdvance(s.stores, op) && s.stores.ops[op.token] == op
    requires op.transition.Valid()
    ensures Reachable(s') && s'.procs == s.procs[p := RecCommit(op.(state := DbCommitted))]
    ensures s'.stores.row == Some(Row(op.transition.next, op.transition.reason, false))
    ensures s'.stores.ops == s.stores.ops[op.token := op.(state := DbCommitted)]
    ensures s'.stores.marker == s.stores.marker && s'.stores.keys == s.stores.keys
  {
    DriveReaches(s, p);
    var m := Drive(s, p);
    assert m.procs == s.procs[p := RecReload(op)];
    DriveReaches(m, p);
    s' := Drive(m, p);
  }

  lemma CommittedAlone(s: State, p: nat, op: Op) returns (s': State)
    requires Reachable(s) && p in s.procs && s.procs[p] == RecCommit(op) && op.state.DbCommitted?
    requires s.stores.marker.PendingMarker? && s.stores.marker.stamp == Stamp(op.token, op.transition)
    requires op.token in s.stores.ops && s.stores.ops[op.token] == op && s.stores.Key(op.token) == Some(KeyPending)
    requires s.stores.row == Some(Row(op.transition.next, op.transition.reason, false))
    ensures Reachable(s') && s'.procs.Keys == s.procs.Keys && forall q :: q in s.procs && q != p ==> s'.procs[q] == s.procs[q]
    ensures s'.stores.row == Some(Row(op.transition.next, op.transition.reason, true))
    ensures s'.stores.ops == s.stores.ops[op.token := op.(state := Committed)]
    ensures s'.stores.marker.Ready(op.transition.next) && s'.stores.keys.Keys == s.stores.keys.Keys
  {
    DriveReaches(s, p);
    s' := Drive(s, p);
    assert s'.procs[p] == RecFinalize(op);
    DriveReaches(s', p);
    s' := Drive(s', p);
  }

  const FIRST := Transition(None, Id("e1", 1), Bootstrap)
  const SECOND := Transition(Some(Id("e1", 1)), Id("e2", 2), StateLoss)

  const BOOTSTRAP := Op("a", FIRST, Some(ExpectAbsent), Preparing)

  /** The first start-up gets to the point where its fence is due. */
  lemma FirstFence() returns (s: State)
    ensures Reachable(s) && s.procs == map[0 := RecPrepare(BOOTSTRAP)] && AtFence(s, 0, BOOTSTRAP)
    ensures s.stores.row == Some(Row(FIRST.next, Bootstrap, false)) && s.stores.ops == map["a" := BOOTSTRAP] && s.stores.keys == map[]
    ensures s.stores.marker.NoMarker?
  {
    var none := State(Stores(None, map[], NoMarker, map[], [], {}), map[]);
    assert forall i: nat :: Follows([none], i);
    assert EndsAt([none], none);
    s := none.(procs := map[0 := EnsCreate("a", "e1")]);
    Extend(none, s, Step.Start(0, "a", "e1"));
    DriveReaches(s, 0);
    s := Drive(s, 0);
    DriveReaches(s, 0);
    s := Drive(s, 0);
    assert s.procs[0] == RecRead(BootstrapOp("a", "e1"));
    DriveReaches(s, 0);
    s := Drive(s, 0);
    DriveReaches(s, 0);
    s := Drive(s, 0);
  }

  /** The first start-up, undisturbed. */
  lemma FirstEpoch() returns (s: State)
    ensures Reachable(s) && s.procs.Keys == {0} && s.stores.keys.Keys == {"a"}
    ensures s.stores.row == Some(Row(FIRST.next, Bootstrap, true)) && s.stores.marker.Ready(FIRST.next)
    ensures s.stores.ops == map["a" := Op("a", FIRST, Some(ExpectAbsent), Committed)]
  {
    s := FirstFence();
    s := FinishAlone(s, 0, BOOTSTRAP);
  }

  /** Another coordinator finds the first epoch ready and nothing to do, and stops short of the marker. */
  lemma Latecomer(s: State) returns (s': State)
    requires Reachable(s) && 1 !in s.procs && s.stores.row.Some? && s.stores.row.value.ready && NoneOpen(s.stores)
    ensures Reachable(s') && s' == s.(procs := s.procs[1 := EnsReconcile(s.stores.row.value)])
  {
    var m := s.(procs := s.procs[1 := EnsCreate("x", "e9")]);
    Extend(s, m, Step.Start(1, "x", "e9"));
    DriveReaches(m, 1);
    m := Drive(m, 1);
    DriveReaches(m, 1);
    m := Drive(m, 1);
    s' := Drive(m, 1);
    Extend(m, s', Step.Run(1, EnsReconcile(s.stores.row.value)));
  }

  const RECOVERY := Op("b", SECOND, None, Preparing)

  /** Meanwhile a recovery is requested, and a third coordinator finds it. */
  lemma RecoveryFound(s: State) returns (s': State)
    requires Reachable(s) && 2 !in s.procs && NoneOpen(s.stores) && "b" !in s.stores.ops
    requires s.stores.row == Some(Row(FIRST.next, Bootstrap, true))
    ensures Reachable(s') && s' == State(s.stores.WithOp(RECOVERY), s.procs[2 := RecRead(RECOVERY)])
  {
    var m := s.(stores := s.stores.WithOp(RECOVERY));
    Extend(s, m, Step.RequestRecovery(RECOVERY));
    var n := m.(procs := m.procs[2 := EnsCreate("y", "e8")]);
    Extend(m, n, Step.Start(2, "y", "e8"));
    DriveReaches(n, 2);
    m := Drive(n, 2);
    DriveReaches(m, 2);
    m := Drive(m, 2);
    assert m.procs[2].EnsFindOp? && Open(m.stores, "b");
    s' := m.(procs := m.procs[2 := RecRead(RECOVERY)]);
    Extend(m, s', Step.Run(2, RecRead(RECOVERY)));
  }

  /** It brings the second epoch. */
  lemma SecondEpoch(s: State) returns (s': State)
    requires Reachable(s) && 2 in s.procs && s.procs[2] == RecRead(RECOVERY) && "b" !in s.stores.keys
    requires s.stores.row == Some(Row(FIRST.next, Bootstrap, true)) && s.stores.marker.Ready(FIRST.next)
    requires s.stores.ops == map["a" := Op("a", FIRST, Some(ExpectAbsent), Committed), "b" := RECOVERY]
    ensures Reachable(s') && forall q :: q in s.procs && q != 2 ==> q in s'.procs && s'.procs[q] == s.procs[q]
    ensures s'.stores.row == Some(Row(SECOND.next, StateLoss, true)) && s'.stores.marker.Ready(SECOND.next) && NoneOpen(s'.stores)
  {
    var m := RecoveryFenced(s);
    s' := FinishAlone(m, 2, RECOVERY.(expected := Some(ExpectReady(FIRST.next))));
  }

  /**
   The marker can fall back: a coordinator that found nothing to do installs the first epoch
   over the second, which PostgreSQL holds ready.  Readiness then stays closed until the
   next start-up.
   */
  lemma MarkerCanFallBack() returns (s: State)
    ensures Reachable(s) && NoneOpen(s.stores)
    ensures s.stores.row == Some(Row(SECOND.next, StateLoss, true)) && s.stores.marker.Ready(FIRST.next)
  {
    s := FirstEpoch();
    s := Latecomer(s);
    s := RecoveryFound(s);
    s := SecondEpoch(s);
    DriveReaches(s, 1);
    s := Drive(s, 1);
  }

  /** The second epoch is ready, and the coordinator that found the first one still has to install it. */
  lemma SecondEpochWithLatecomer() returns (s: State)
    ensures Reachable(s) && NoneOpen(s.stores) && 1 in s.procs && s.procs[1] == EnsReconcile(Row(FIRST.next, Bootstrap, true))
    ensures s.stores.row == Some(Row(SECOND.next, StateLoss, true)) && s.stores.marker.Ready(SECOND.next)
  {
    s := FirstEpoch();
    s := Latecomer(s);
    s := RecoveryFound(s);
    s := SecondEpoch(s);
  }

  /** The same after the marker has been lost. */
  lemma OldRecordReplacesLostMarker() returns (s: State)
    ensures Reachable(s) && NoneOpen(s.stores)
    ensures s.stores.row == Some(Row(SECOND.next, StateLoss, true)) && s.stores.marker.Ready(FIRST.next)
  {
    var t := SecondEpochWithLatecomer();
    s := t.(stores := t.stores.(marker := NoMarker));
    Extend(t, s, Step.LoseMarker);
    DriveReaches(s, 1);
    s := Drive(s, 1);
  }

  /** The second epoch is fenced, and PostgreSQL has moved to it. */
  lemma SecondFence() returns (s: State)
    ensures Reachable(s) && 1 in s.procs && s.procs[1] == EnsReconcile(Row(FIRST.next, Bootstrap, true))
    ensures s.stores.marker.PendingMarker? && s.stores.marker.stamp == Stamp("b", SECOND)
    ensures s.stores.row == Some(Row(SECOND.next, StateLoss, false))
  {
    s := FirstEpoch();
    s := Latecomer(s);
    s := RecoveryFound(s);
    s := RecoveryFenced(s);
    s := PreparedAlone(s, 2, RECOVERY.(expected := Some(ExpectReady(FIRST.next))));
  }

  lemma RecoveryFenced(s: State) returns (s': State)
    requires Reachable(s) && 2 in s.procs && s.procs[2] == RecRead(RECOVERY) && "b" !in s.stores.keys
    requires s.stores.row == Some(Row(FIRST.next, Bootstrap, true)) && s.stores.marker.Ready(FIRST.next)
    requires "b" in s.stores.ops && s.stores.ops["b"] == RECOVERY
    ensures Reachable(s') && forall q :: q in s.procs && q != 2 ==> q in s'.procs && s'.procs[q] == s.procs[q]
    ensures AtFence(s', 2, RECOVERY.(expected := Some(ExpectReady(FIRST.next))))
    ensures s'.stores.ops == s.stores.ops["b" := RECOVERY.(expected := Some(ExpectReady(FIRST.next)))]
  {
    DriveReaches(s, 2);
    s' := Drive(s, 2);
    assert s'.procs[2] == RecRecord(RECOVERY, ExpectReady(FIRST.next));
    DriveReaches(s', 2);
    s' := Drive(s', 2);
  }

  /** And over that fence. */
  lemma OldRecordReplacesFence() returns (t: State, s: State)
    ensures Reachable(t) && t.stores.marker.PendingMarker? && t.stores.marker.stamp == Stamp("b", SECOND)
    ensures Reachable(s) && s.stores.marker.Ready(FIRST.next) && s.stores.row == t.stores.row == Some(Row(SECOND.next, StateLoss, false))
  {
    t := SecondFence();
    DriveReaches(t, 1);
    s := Drive(t, 1);
  }

  // ----- and one in which nobody installs a record

  /** A further coordinator starts and finds the open operation. */
  lemma OpenFound(s: State, q: nat, k: Token) returns (s': State)
    requires Reachable(s) && q !in s.procs && s.stores.row.Some? && Open(s.stores, k) && s.stores.ops[k].token == k
    ensures Reachable(s') && s' == s.(procs := s.procs[q := RecRead(s.stores.ops[k])])
  {
    var m := s.(procs := s.procs[q := EnsCreate("z", "e7")]);
    Extend(s, m, Step.Start(q, "z", "e7"));
    DriveReaches(m, q);
    m := Drive(m, q);
    DriveReaches(m, q);
    m := Drive(m, q);
    s' := m.(procs := m.procs[q := RecRead(s.stores.ops[k])]);
    assert s'.procs == s.procs[q := RecRead(s.stores.ops[k])];
    Extend(m, s', Step.Run(q, RecRead(s.stores.ops[k])));
  }

  /** Coordinator 3 is about to put up the fence of the first epoch, 0 has moved PostgreSQL and is about to commit it. */
  lemma TwoHeldUp() returns (s: State)
    ensures Reachable(s) && s.procs == map[0 := RecCommit(BOOTSTRAP.(state := DbCommitted)), 3 := RecPrepare(BOOTSTRAP)]
    ensures s.stores.row == Some(Row(FIRST.next, Bootstrap, false)) && s.stores.ops == map["a" := BOOTSTRAP.(state := DbCommitted)]
    ensures s.stores.marker == PendingMarker(Stamp("a", FIRST), ExpectAbsent) && s.stores.keys == map["a" := KeyPending]
  {
    s := FirstFence();
    s := OpenFound(s, 3, "a");
    DriveReaches(s, 3);
    s := Drive(s, 3);
    assert s.procs == map[0 := RecPrepare(BOOTSTRAP), 3 := RecPrepare(BOOTSTRAP)];
    s := PreparedAlone(s, 0, BOOTSTRAP);
  }

  /** Coordinator 4 finds the operation and finishes it. */
  lemma FirstFinishedByAnother(s: State) returns (s': State)
    requires Reachable(s) && s.procs.Keys == {0, 3}
    requires s.stores.row == Some(Row(FIRST.next, Bootstrap, false)) && s.stores.ops == map["a" := BOOTSTRAP.(state := DbCommitted)]
    requires s.stores.marker == PendingMarker(Stamp("a", FIRST), ExpectAbsent) && s.stores.keys == map["a" := KeyPending]
    ensures Reachable(s') && s'.procs.Keys == {0, 3, 4} && s'.procs[0] == s.procs[0] && s'.procs[3] == s.procs[3]
    ensures s'.stores.row == Some(Row(FIRST.next, Bootstrap, true)) && s'.stores.marker.Ready(FIRST.next)
    ensures s'.stores.ops == map["a" := Op("a", FIRST, Some(ExpectAbsent), Committed)] && s'.stores.keys.Keys == {"a"}
  {
    var op := BOOTSTRAP.(state := DbCommitted);
    s' := OpenFound(s, 4, "a");
    s' := AgainAtCommit(s', 4, op);
    s' := CommittedAlone(s', 4, op);
  }

  lemma AgainAtCommit(s: State, q: nat, op: Op) returns (s': State)
    requires Reachable(s) && q in s.procs && s.procs[q] == RecRead(op) && op.state.DbCommitted? && op.expected.Some?
    requires op.token in s.stores.ops && s.stores.ops[op.token] == op && s.stores.Key(op.token) == Some(KeyPending)
    requires s.stores.marker == PendingMarker(Stamp(op.token, op.transition), op.expected.value)
    ensures Reachable(s') && s'.stores == s.stores && s'.procs == s.procs[q := RecCommit(op)]
  {
    DriveReaches(s, q);
    s' := Drive(s, q);
    assert s'.procs == s.procs[q := RecPrepare(op)];
    DriveReaches(s', q);
    s' := Drive(s', q);
    assert s'.stores.keys == s.stores.keys;
    assert s'.stores == s.stores && s'.procs == s.procs[q := RecReload(op)];
    DriveReaches(s', q);
    s' := Drive(s', q);
  }

  /** After marker and key are lost, the two held up bring the first epoch back. */
  lemma ComesBack(s: State) returns (t: State, s': State)
    requires Reachable(s) && 0 in s.procs && 3 in s.procs && s.stores.marker.NoMarker? && "a" !in s.stores.keys
    requires s.procs[0] == RecCommit(BOOTSTRAP.(state := DbCommitted)) && s.procs[3] == RecPrepare(BOOTSTRAP)
    ensures Reachable(t) && 0 in t.procs && t.procs[0] == s.procs[0] && Stands(t.stores, t.procs[0].op)
    ensures Reachable(s') && s' == Drive(t, 0) && s'.stores.marker.Ready(FIRST.next)
    ensures t.stores.row == s'.stores.row == s.stores.row && t.stores.ops == s'.stores.ops == s.stores.ops && t.stores.shown == s.stores.shown
  {
    DriveReaches(s, 3);
    t := Drive(s, 3);
    DriveReaches(t, 0);
    s' := Drive(t, 0);
  }

  /**
   The marker can fall back although nobody installs a record.  One coordinator is held up
   before the prepare script of the first epoch, another before its commit script; others
   finish that epoch and bring the second.  Then marker and operation key are lost, and the
   two scripts show the first epoch again, with nothing open and the row at the second.
   */
  lemma EndedOperationComesBack() returns (t: State, s: State)
    ensures Reachable(t) && 0 in t.procs && t.procs[0].RecCommit? && s == Drive(t, 0) && Reachable(s)
    ensures Stands(t.stores, t.procs[0].op) && Behind(t.stores, t.procs[0].op.transition.next.revision)
    ensures s.stores.row == Some(Row(SECOND.next, StateLoss, true)) && NoneOpen(s.stores) && s.stores.marker.Ready(FIRST.next)
  {
    var m := TwoHeldUp();
    m := FirstFinishedByAnother(m);
    m := RecoveryFound(m);
    m := SecondEpoch(m);
    var n := AllLost(m);
    t, s := ComesBack(n);
  }

  lemma AllLost(s: State) returns (s': State)
    requires Reachable(s)
    requires s.stores.row == Some(Row(SECOND.next, StateLoss, true)) && s.stores.marker.Ready(SECOND.next)
    ensures Reachable(s') && s'.procs == s.procs && s'.stores.marker.NoMarker? && "a" !in s'.stores.keys
    ensures s'.stores.row == s.stores.row && s'.stores.ops == s.stores.ops && Behind(s'.stores, 1)
  {
    var m := s.(stores := s.stores.(marker := NoMarker));
    Extend(s, m, Step.LoseMarker);
    s' := m.(stores := m.stores.(keys := m.stores.keys - {"a"}));
    Extend(m, s', Step.LoseKey("a"));
    ReadyWasShown(s);
    assert SECOND.next in s'.stores.shown;
  }

  lemma ReadyWasShown(s: State)
    requires Reachable(s) && s.stores.marker.ReadyMarker?
    ensures s.stores.marker.id in s.stores.shown
  {
    var run: seq<State> :| EndsAt(run, s);
    RunKeepsInv(run, |run| - 1);
  }
}
