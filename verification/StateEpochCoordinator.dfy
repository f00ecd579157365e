/** `Ensure`, statement by statement, with no other coordinator at work. */
module StateEpochCoordinator {
  import opened Common
  import opened StateEpoch
  import opened StateEpochInvariant

  /** Row, operations and marker tell one story: this identity is ready and nothing is under way. */
  predicate Settled(s: Stores, record: Row) {
    s.row == Some(record) && record.ready && s.marker.Ready(record.id) && NoneOpen(s)
  }

  /** Where a start-up has to arrive: at the new epoch, at the end of the open operation, or where the row is. */
  predicate IsGoal(s: Stores, epoch: string, id: Id) {
    && (s.row.None? ==> id == Id(epoch, 1))
    && (forall k :: k in s.ops && Open(s, k) ==> id == s.ops[k].transition.next)
    && (s.row.Some? && NoneOpen(s) ==> id == s.row.value.id)
  }

  /** The marker is in the truth table of the operation, and its Redis key does not contradict the marker. */
  predicate Fenceable(s: Stores, op: Op) {
    !Classify(s.marker, op).Conflict? &&
    Compatible(s.Key(op.token),
               if s.marker == ReadyMarker(op.transition.next, Some(Stamp(op.token, op.transition))) then KeyCommitted else KeyPending)
  }

  /** The key of the operation is missing, or says what it should. */
  predicate KeySays(s: Stores, k: Token, state: KeyState) {
    k in s.keys ==> s.keys[k] == state
  }

  /**
   The markers an open operation can go on from: none, the ready one it starts from, its own
   fence with the expectation PostgreSQL has, or its own ready marker; and its Redis key is
   not ahead of the marker nor behind it.
   */
  lemma FenceableIff(s: Stores, op: Op)
    requires op.transition.Valid()
    ensures Fenceable(s, op) <==>
      || (s.marker.NoMarker? && KeySays(s, op.token, KeyPending))
      || (s.marker.ReadyMarker? && op.transition.prior == Some(s.marker.id) && KeySays(s, op.token, KeyPending))
      || (s.marker.PendingMarker? && s.marker.stamp == Stamp(op.token, op.transition) && op.expected == Some(s.marker.expected)
          && KeySays(s, op.token, KeyPending))
      || (s.marker == ReadyMarker(op.transition.next, Some(Stamp(op.token, op.transition))) && op.expected.Some?
          && KeySays(s, op.token, KeyCommitted))
  {}

  /** What an operator could look up before the start. */
  predicate Startable(s: Stores, token: Token) {
    if s.row.None? then Compatible(s.Key(token), KeyPending)
    else forall k :: k in s.ops && Open(s, k) ==> Fenceable(s, s.ops[k])
  }

  /** The fence is in place: only the operation's own marker, pending or ready, is there. */
  predicate Fenced(s: Stores, op: Op) {
    && s.marker.PendingMarker? && s.marker.stamp == Stamp(op.token, op.transition)
    && Compatible(s.Key(op.token), KeyPending)
  }

  /** The snapshot of the operation is up to date. */
  predicate Fresh(s: Stores, op: Op) {
    op.token in s.ops && s.ops[op.token] == op
  }

  lemma EmptyStoresHaveNoMarker(s: Stores)
    requires StoresOk(s) && s.row.None?
    ensures s.marker.NoMarker? && s.ops == map[]
  {
    assert s.marker.ReadyMarker? ==> ReachedIfShown(s, s.marker.id);
  }

  lemma OnlyOpen(s: Stores, k: Token)
    requires StoresOk(s) && Open(s, k)
    ensures forall j :: j in s.ops && Open(s, j) ==> j == k
    ensures s.ops[k].token == k && OpenOk(s, k) && s.ops[k].transition.Valid()
  {
    assert OpOk(s, k);
    forall j | j in s.ops && Open(s, j) ensures j == k { assert Alone(s, j, k); }
  }

  lemma SettledRow(s: Stores)
    requires StoresOk(s) && NoneOpen(s) && s.row.Some?
    ensures s.row.value.ready
  {}

  /** Nobody sees an operation's new identity in the marker before PostgreSQL has it. */
  lemma NewReadyIsDurable(s: Stores, op: Op)
    requires StoresOk(s) && Fresh(s, op) && Open(s, op.token)
    requires op.transition.next in s.shown
    ensures op.state.DbCommitted?
  {
    assert OpOk(s, op.token) && ReachedIfShown(s, op.transition.next);
  }

  class Coordinator {
    var stores: Stores

    constructor (s: Stores)
      ensures stores == s
    {
      stores := s;
    }

    /** Records the expected marker; the operation as it then stands, or `None`. */
    method Record(op: Op, expected: Expected, flaky: bool) returns (now: Option<Op>)
      requires StoresOk(stores) && Fresh(stores, op) && Open(stores, op.token)
      modifies this
      ensures StoresOk(stores) && Extends(old(stores), stores)
      ensures stores.marker == old(stores).marker && stores.keys == old(stores).keys && stores.row == old(stores).row
      ensures now.Some? ==> now.value == op.(expected := Some(expected)) && Fresh(stores, now.value)
      ensures !flaky ==> now.Some?
    {
      ghost var s := stores;
      assert OpOk(stores, op.token);
      LearnsKnowledge(stores, RecRecord(op, expected));
      EffectKeeps(stores, RecRecord(op, expected));
      var lost := Fault(flaky);
      var silent := Fault(flaky);
      if !lost { stores := stores.WithOp(op.(expected := Some(expected))); }
      now := if lost || silent then None else Some(op.(expected := Some(expected)));
    }

    /** Puts up the fence, or finds that it has already been committed. */
    method Prepare(op: Op, flaky: bool) returns (code: Option<PrepareCode>)
      requires StoresOk(stores) && Fresh(stores, op) && Open(stores, op.token) && op.expected.Some?
      modifies this
      ensures StoresOk(stores) && Extends(old(stores), stores)
      ensures stores.ops == old(stores).ops && stores.row == old(stores).row
      ensures code == Some(FencePrepared) ==> Fenced(stores, op)
      ensures code == Some(NewReadyObserved) ==> op.transition.next in stores.shown && stores.marker.Ready(op.transition.next)
      ensures !flaky ==> code.Some? && (code.value.FenceConflict? <==>
                !(Classify(old(stores).marker, op) == Expect(op.expected.value, false) && Fenceable(old(stores), op)))
    {
      assert OpOk(stores, op.token);
      PrepareKeeps(stores, op);
      TablesAgree(stores.marker, stores.Key(op.token), op, op.expected.value);
      var (answer, m, key) := PrepareFence(stores.marker, stores.Key(op.token), Stamp(op.token, op.transition), op.expected.value);
      var lost := Fault(flaky);
      var silent := Fault(flaky);
      if !lost { stores := stores.WithFence(op.token, m, key); }
      code := if lost || silent then None else Some(answer);
    }

    /** Marks the operation prepared and then moves the row and the operation in one transaction. */
    method AdvanceDatabase(op: Op, flaky: bool) returns (ok: bool)
      requires StoresOk(stores) && Fresh(stores, op) && Open(stores, op.token) && Fenced(stores, op)
      modifies this
      ensures StoresOk(stores) && Extends(old(stores), stores)
      ensures stores.marker == old(stores).marker && stores.keys == old(stores).keys
      ensures ok ==> Fresh(stores, op.(state := DbCommitted))
      ensures !flaky ==> ok
    {
      OnlyOpen(stores, op.token);
      var current := op;
      if current.state.Preparing? {
        EffectKeeps(stores, RecMarkPrepared(current));
        var lost := Fault(flaky);
        var silent := Fault(flaky);
        if !lost { stores := stores.WithOp(current.(state := Prepared)); }
        if lost || silent { return false; }
        current := current.(state := Prepared);
        OnlyOpen(stores, op.token);
      }
      if current.state.Prepared? {
        ok := AdvanceRow(current, flaky);
      } else {
        ok := true;
      }
    }

    method AdvanceRow(op: Op, flaky: bool) returns (ok: bool)
      requires StoresOk(stores) && Fresh(stores, op) && op.state.Prepared?
      modifies this
      ensures StoresOk(stores) && Extends(old(stores), stores)
      ensures stores.marker == old(stores).marker && stores.keys == old(stores).keys
      ensures ok ==> Fresh(stores, op.(state := DbCommitted))
      ensures !flaky ==> ok
    {
      OnlyOpen(stores, op.token);
      AdvanceKeeps(stores, op);
      var lost := Fault(flaky);
      var silent := Fault(flaky);
      if !lost { stores := Advance(stores, op); }
      ok := !lost && !silent;
    }

    method Commit(op: Op, flaky: bool) returns (ok: bool)
      requires StoresOk(stores) && Fresh(stores, op) && op.state.DbCommitted? && Fenced(stores, op)
      modifies this
      ensures StoresOk(stores) && Extends(old(stores), stores)
      ensures stores.ops == old(stores).ops && stores.row == old(stores).row
      ensures ok ==> stores.marker.Ready(op.transition.next) && op.transition.next in stores.shown
      ensures !flaky ==> ok
    {
      assert OpOk(stores, op.token);
      CommitKeeps(stores, op);
      var (done, m, key) := CommitFence(stores.marker, stores.Key(op.token), Stamp(op.token, op.transition));
      var lost := Fault(flaky);
      var silent := Fault(flaky);
      if !lost { stores := stores.WithFence(op.token, m, key); }
      ok := done && !lost && !silent;
    }

    method Finalize(op: Op, flaky: bool) returns (answer: Answer)
      requires StoresOk(stores) && Fresh(stores, op) && op.state.DbCommitted?
      requires op.transition.next in stores.shown && stores.marker.Ready(op.transition.next)
      modifies this
      ensures StoresOk(stores) && Extends(old(stores), stores)
      ensures answer.Failed? || (answer.Ready? && answer.record.id == op.transition.next && Settled(stores, answer.record))
      ensures !flaky ==> answer.Ready?
    {
      OnlyOpen(stores, op.token);
      FinalizeKeeps(stores, op);
      var lost := Fault(flaky);
      var silent := Fault(flaky);
      if !lost { stores := StateEpoch.Finalize(stores, op); }
      answer := if lost || silent then Failed else Ready(stores.row.value);
    }

    /** From the open operation to a ready epoch. */
    method Reconcile(op: Op, flaky: bool) returns (answer: Answer)
      requires StoresOk(stores) && Fresh(stores, op) && Open(stores, op.token)
      modifies this
      ensures StoresOk(stores) && Extends(old(stores), stores)
      ensures answer.Failed? || (answer.Ready? && answer.record.id == op.transition.next && Settled(stores, answer.record))
      ensures !flaky ==> (answer.Ready? <==> Fenceable(old(stores), op))
    {
      var current := op;
      var unread := Fault(flaky);
      var c := Classify(stores.marker, current);
      if unread || c.Conflict? { return Failed; }
      if c.record {
        var now := Record(current, c.expected, flaky);
        if now.None? { return Failed; }
        current := now.value;
      }
      assert OpOk(stores, current.token);
      var code := Prepare(current, flaky);
      if code.None? || code.value.FenceConflict? { return Failed; }
      if code.value.NewReadyObserved? {
        NewReadyIsDurable(stores, current);
        answer := Finalize(current, flaky);
        return;
      }
      answer := Complete(current, flaky);
    }

    /** From a fence in place to a ready epoch. */
    method Complete(op: Op, flaky: bool) returns (answer: Answer)
      requires StoresOk(stores) && Fresh(stores, op) && Open(stores, op.token) && Fenced(stores, op)
      modifies this
      ensures StoresOk(stores) && Extends(old(stores), stores)
      ensures answer.Failed? || (answer.Ready? && answer.record.id == op.transition.next && Settled(stores, answer.record))
      ensures !flaky ==> answer.Ready?
    {
      var advanced := AdvanceDatabase(op, flaky);
      if !advanced { return Failed; }
      var current := op.(state := DbCommitted);
      var committed := Commit(current, flaky);
      if !committed { return Failed; }
      answer := Finalize(current, flaky);
    }

    /**
     One start-up.  Whatever fails, nothing durable is taken back; an answer of ready means
     that row, operations and marker agree on the identity the start-up had to reach; and when
     no call fails it is ready exactly if the stores it found were startable.
     */
    method Ensure(token: Token, epoch: string, flaky: bool) returns (answer: Answer)
      requires StoresOk(stores) && epoch != ""
      modifies this
      ensures StoresOk(stores) && Extends(old(stores), stores)
      ensures answer.Failed? || (answer.Ready? && Settled(stores, answer.record) && IsGoal(old(stores), epoch, answer.record.id))
      ensures !flaky ==> (answer.Ready? <==> Startable(old(stores), token))
    {
      var lost := Fault(flaky);
      var silent := Fault(flaky);
      if lost { return Failed; }
      if stores.row.None? {
        EmptyStoresHaveNoMarker(stores);
        CreateKeeps(stores, token, epoch);
        stores := CreateBootstrap(stores, token, epoch);
        if silent { return Failed; }
        answer := Reconcile(BootstrapOp(token, epoch), flaky);
        return;
      }
      if silent { return Failed; }
      var record := stores.row.value;
      if exists k :: k in stores.ops && Open(stores, k) {
        var k :| k in stores.ops && Open(stores, k);
        OnlyOpen(stores, k);
        answer := Reconcile(stores.ops[k], flaky);
        return;
      }
      SettledRow(stores);
      lost := Fault(flaky);
      ReconcileKeeps(stores, record);
      if !lost {
        stores := stores.(marker := ReconcileReady(stores.marker, record.id), shown := stores.shown + {record.id});
      }
      silent := Fault(flaky);
      answer := if lost || silent then Failed else if stores.marker.Ready(record.id) then Ready(record) else NotReady(record);
    }
  }
}
