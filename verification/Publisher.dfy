/** `Publisher.Publish`, statement by statement, over stores that any run may have left behind. */
module PublisherService {
  import opened Common
  import opened ControlScripts
  import opened Publication
  import opened Reachability

  predicate Durable(s: Stores, r: Request) {
    r.token in s.ops && s.ops[r.token].state.Durable()
  }

  /** Only the row, the operation and the control of this request may differ. */
  predicate OnlyRequest(s: Stores, s': Stores, r: Request) {
    && s'.ops - {r.token} == s.ops - {r.token}
    && s'.controls - {r.target} == s.controls - {r.target}
  }

  lemma CellIsOwn(s: Stores, r: Request, c: Cell)
    ensures Effect(s, s.WithCell(r, c), r)
  {
    assert s.WithCell(r, c).controls - {r.target} == s.controls - {r.target};
  }

  lemma MarkIsOwn(s: Stores, r: Request, from: set<OpState>, to: OpState)
    requires (from !! {DbCommitted, Committed} && to in {Prepared, Aborted}) || (from == {DbCommitted} && to == Committed)
    ensures Effect(s, Mark(s, r, from, to), r)
  {
    assert Mark(s, r, from, to).ops - {r.token} == s.ops - {r.token};
  }

  lemma CreateIsOwn(s: Stores, r: Request)
    requires r.token !in s.ops
    ensures Effect(s, CreateOp(s, r), r)
  {
    assert CreateOp(s, r).ops - {r.token} == s.ops - {r.token};
  }

  lemma CommitIsOwn(s: Stores, r: Request)
    requires CanCommitBusiness(s, r)
    ensures Effect(s, CommitBusiness(s, r), r)
  {
    assert CommitBusiness(s, r).ops - {r.token} == s.ops - {r.token};
  }

  /** The business row moved if and only if the operation became durable, from `current` to `next`. */
  predicate MovedWithOperation(s: Stores, s': Stores, r: Request) {
    if Durable(s', r) && !Durable(s, r)
    then r.target in s.rows && s.rows[r.target].revision == r.current && s'.rows == s.rows[r.target := r.next]
    else s'.rows == s.rows && (Durable(s, r) ==> Durable(s', r))
  }

  predicate Effect(s: Stores, s': Stores, r: Request) {
    OnlyRequest(s, s', r) && MovedWithOperation(s, s', r)
  }

  lemma EffectsCompose(s: Stores, m: Stores, s': Stores, r: Request)
    requires Effect(s, m, r) && Effect(m, s', r)
    ensures Effect(s, s', r)
  {}

  // ----- what each statement of the publisher does to the stores

  function PreparedControl(s: Stores, r: Request): Stores {
    s.WithCell(r, Prepare(s.CellOf(r), r.token, r.current, r.next).1)
  }

  function PrepareCode(s: Stores, r: Request): Code {
    Prepare(s.CellOf(r), r.token, r.current, r.next).0
  }

  function Marked(s: Stores, r: Request): Stores {
    Mark(s, r, {Preparing}, Prepared)
  }

  function CommittedControl(s: Stores, r: Request): Stores {
    s.WithCell(r, Commit(s.CellOf(r), r.token, r.next.payload).1)
  }

  function CommittedOp(s: Stores, r: Request): Stores {
    Mark(s, r, {DbCommitted}, Committed)
  }

  function AbortedControl(s: Stores, r: Request): Stores {
    s.WithCell(r, Abort(s.CellOf(r), r.token, r.next.payload).1)
  }

  function AbortedOp(s: Stores, r: Request): Stores {
    Mark(s, r, {Preparing, Prepared}, Aborted)
  }

  function Loaded(state: OpState, r: Request): Local {
    match state
    case Committed => PubDone(r, OutCommitted)
    case DbCommitted => PubCommit(r)
    case Aborted => PubDone(r, OutAborted)
    case _ => PubPrepare(r)
  }

  function AfterPrepare(code: Code, r: Request): Local {
    match code
    case CodePrepared => PubMarkPrepared(r)
    case CodeCommitted => PubDone(r, OutSyncPending)
    case _ => PubAbort(r)
  }

  // ----- each statement, with or without its reply, is a step of the protocol

  lemma CreateHolds(s: Stores, r: Request)
    requires Reachable(s) && r.Valid()
    ensures r.token !in s.ops && Free(s, r.target) ==>
              Holding(CreateOp(s, r), PubPrepare(r)) && Effect(s, CreateOp(s, r), r)
    ensures s.Knows(r) ==> Holding(s, Loaded(s.ops[r.token].state, r))
  {
    StartHolds(s, PubCreate(r));
    if r.token !in s.ops && Free(s, r.target) {
      RunHolds(s, PubCreate(r), CreateOp(s, r), PubPrepare(r));
      CreateIsOwn(s, r);
    }
    if s.Knows(r) { RunHolds(s, PubCreate(r), s, Loaded(s.ops[r.token].state, r)); }
  }

  lemma PrepareHolds(s: Stores, r: Request)
    requires Holding(s, PubPrepare(r))
    ensures Holding(s, PubAbort(r)) && Holding(PreparedControl(s, r), PubAbort(r))
    ensures Holding(PreparedControl(s, r), AfterPrepare(PrepareCode(s, r), r))
    ensures Effect(s, PreparedControl(s, r), r)
  {
    RunHolds(s, PubPrepare(r), s, PubAbort(r));
    RunHolds(s, PubPrepare(r), PreparedControl(s, r), PubAbort(r));
    RunHolds(s, PubPrepare(r), PreparedControl(s, r), AfterPrepare(PrepareCode(s, r), r));
    CellIsOwn(s, r, Prepare(s.CellOf(r), r.token, r.current, r.next).1);
  }

  lemma CommittedCodeIsDurable(s: Stores, r: Request)
    requires Reachable(s) && PrepareCode(s, r) == CodeCommitted
    ensures Durable(s, r)
  {
    ReachableIsGood(s);
    assert RedisOpOk(s, r.token, s.redisOps[r.token]);
  }

  lemma MarkPreparedHolds(s: Stores, r: Request)
    requires Holding(s, PubMarkPrepared(r))
    ensures Holding(s, PubAbort(r)) && Holding(Marked(s, r), PubAbort(r)) && Holding(Marked(s, r), PubBusiness(r))
    ensures Effect(s, Marked(s, r), r)
  {
    RunHolds(s, PubMarkPrepared(r), s, PubAbort(r));
    RunHolds(s, PubMarkPrepared(r), Marked(s, r), PubAbort(r));
    RunHolds(s, PubMarkPrepared(r), Marked(s, r), PubBusiness(r));
    MarkIsOwn(s, r, {Preparing}, Prepared);
  }

  lemma BusinessHolds(s: Stores, r: Request)
    requires Holding(s, PubBusiness(r))
    ensures Holding(s, PubAbort(r))
    ensures CanCommitBusiness(s, r) ==>
              && Holding(CommitBusiness(s, r), PubAbort(r)) && Holding(CommitBusiness(s, r), PubCommit(r))
              && Effect(s, CommitBusiness(s, r), r)
  {
    RunHolds(s, PubBusiness(r), s, PubAbort(r));
    if CanCommitBusiness(s, r) {
      RunHolds(s, PubBusiness(r), CommitBusiness(s, r), PubAbort(r));
      RunHolds(s, PubBusiness(r), CommitBusiness(s, r), PubCommit(r));
      CommitIsOwn(s, r);
    }
  }

  lemma CommitHolds(s: Stores, r: Request)
    requires Holding(s, PubCommit(r))
    ensures Reachable(s) && Reachable(CommittedControl(s, r)) && Effect(s, CommittedControl(s, r), r)
    ensures Commit(s.CellOf(r), r.token, r.next.payload).0 == CodeCommitted ==> Holding(CommittedControl(s, r), PubMarkCommitted(r))
  {
    RunHolds(s, PubCommit(r), s, PubDone(r, OutSyncPending));
    RunHolds(s, PubCommit(r), CommittedControl(s, r), PubDone(r, OutSyncPending));
    if Commit(s.CellOf(r), r.token, r.next.payload).0 == CodeCommitted {
      RunHolds(s, PubCommit(r), CommittedControl(s, r), PubMarkCommitted(r));
    }
    CellIsOwn(s, r, Commit(s.CellOf(r), r.token, r.next.payload).1);
  }

  lemma MarkCommittedHolds(s: Stores, r: Request)
    requires Holding(s, PubMarkCommitted(r))
    ensures Reachable(s) && Reachable(CommittedOp(s, r)) && Effect(s, CommittedOp(s, r), r)
  {
    RunHolds(s, PubMarkCommitted(r), s, PubDone(r, OutSyncPending));
    RunHolds(s, PubMarkCommitted(r), CommittedOp(s, r), PubDone(r, OutCommitted));
    MarkIsOwn(s, r, {DbCommitted}, Committed);
  }

  lemma AbortHolds(s: Stores, r: Request)
    requires Holding(s, PubAbort(r))
    ensures Holding(s, PubMarkAborted(r)) && Holding(AbortedControl(s, r), PubMarkAborted(r))
    ensures Effect(s, AbortedControl(s, r), r)
  {
    RunHolds(s, PubAbort(r), s, PubMarkAborted(r));
    RunHolds(s, PubAbort(r), AbortedControl(s, r), PubMarkAborted(r));
    CellIsOwn(s, r, Abort(s.CellOf(r), r.token, r.next.payload).1);
  }

  lemma MarkAbortedHolds(s: Stores, r: Request)
    requires Holding(s, PubMarkAborted(r))
    ensures Reachable(s) && Reachable(AbortedOp(s, r)) && Effect(s, AbortedOp(s, r), r)
  {
    RunHolds(s, PubMarkAborted(r), s, PubDone(r, OutError));
    RunHolds(s, PubMarkAborted(r), AbortedOp(s, r), PubDone(r, OutError));
    MarkIsOwn(s, r, {Preparing, Prepared}, Aborted);
  }

  // ----- the undisturbed path

  /** Nothing stands in the way of a first publication. */
  predicate Clear(s: Stores, r: Request) {
    && r.Valid() && r.token !in s.ops && r.token !in s.redisOps && Free(s, r.target)
    && r.target in s.log && RowReady(s, r) && s.Control(r.target) == Present(Some(s.rows[r.target]), None)
  }

  /** The operation is recorded and its business transaction has not gone through. */
  predicate Unfinished(s: Stores, r: Request) {
    s.Knows(r) && (s.ops[r.token].state.Preparing? || s.ops[r.token].state.Prepared?)
  }

  /** The business row is where the request starts. */
  predicate RowReady(s: Stores, r: Request) {
    r.target in s.rows && s.rows[r.target].revision == r.current
  }

  /** No script has run for the token, the control is where the request starts, and nothing is pending on it. */
  predicate CanFence(s: Stores, r: Request) {
    r.token !in s.redisOps && s.Control(r.target).ActiveRevision() == r.current && !s.Control(r.target).HasPending()
  }

  /** The fence of the request is up. */
  predicate PendingHere(s: Stores, r: Request) {
    s.Control(r.target).PendingIs(r.next, r.token) && r.token in s.redisOps && s.redisOps[r.token] == RedisOp(r.next.payload, OpPrepared)
  }

  /** Row and control are at the next version, with nothing pending. */
  predicate Published(s: Stores, s': Stores, r: Request, outcome: Outcome) {
    outcome == OutCommitted && s'.rows == s.rows[r.target := r.next] && s'.Control(r.target) == Present(Some(r.next), None)
  }

  /** The operation is closed, the row is as it was, and so is the active version; nothing is pending. */
  predicate Withdrawn(s: Stores, s': Stores, r: Request, outcome: Outcome) {
    && outcome == OutError && s'.rows == s.rows && s'.Knows(r) && s'.ops[r.token].state.Aborted?
    && s'.Control(r.target) == Present(if s.Control(r.target).Present? then s.Control(r.target).active else None, None)
  }

  /** The operation is closed, and row and control are as they were. */
  predicate TurnedAway(s: Stores, s': Stores, r: Request, outcome: Outcome) {
    && outcome == OutAborted && s'.rows == s.rows && s'.Knows(r) && s'.ops[r.token].state.Aborted?
    && s'.Control(r.target) == s.Control(r.target)
  }

  /** How a call from the fence on ends when nothing fails. */
  predicate AfterFence(s: Stores, s': Stores, r: Request, outcome: Outcome) {
    if RowReady(s, r) then Published(s, s', r, outcome) else Withdrawn(s, s', r, outcome)
  }

  /**
   How a call ends that nothing disturbs, from an operation that is recorded and not yet
   durable, whether or not an earlier call has put up its fence and the fence still stands.
   */
  predicate Resumed(s: Stores, s': Stores, r: Request, outcome: Outcome) {
    if CanFence(s, r) || PendingHere(s, r) then AfterFence(s, s', r, outcome)
    else if r.token !in s.redisOps || s.redisOps[r.token].mark.OpAborted? then TurnedAway(s, s', r, outcome)
    else WithoutFence(s, s', r, outcome)
  }

  /** The operation key still says prepared, but the fence was lost with its control: the row moves alone. */
  predicate WithoutFence(s: Stores, s': Stores, r: Request, outcome: Outcome) {
    && s'.Knows(r) && s'.Control(r.target) == s.Control(r.target)
    && if RowReady(s, r) then outcome == OutSyncPending && s'.rows == s.rows[r.target := r.next] && s'.ops[r.token].state.DbCommitted?
       else outcome == OutError && s'.rows == s.rows && s'.ops[r.token].state.Aborted?
  }

  predicate FenceGone(s: Stores, r: Request) {
    && r.token in s.redisOps && s.redisOps[r.token] == RedisOp(r.next.payload, OpPrepared)
    && !(s.Control(r.target).HasPending() && s.Control(r.target).pending.value.token == r.token)
  }

  lemma FenceGoesUp(s: Stores, r: Request)
    requires Unfinished(s, r) && r.Valid() && (CanFence(s, r) || PendingHere(s, r))
    ensures var t := PreparedControl(s, r);
      && PrepareCode(s, r) == CodePrepared && PendingHere(t, r) && Unfinished(t, r) && t.ops == s.ops && t.rows == s.rows && t.log == s.log
      && (t.Control(r.target).active == if s.Control(r.target).Present? then s.Control(r.target).active else None)
  {}

  lemma FenceIsRefused(s: Stores, r: Request)
    requires Unfinished(s, r) && r.Valid() && !CanFence(s, r) && !PendingHere(s, r)
    requires r.token !in s.redisOps || (s.redisOps[r.token].mark.OpAborted? && s.redisOps[r.token].payload == r.next.payload)
    ensures PrepareCode(s, r) !in {CodePrepared, CodeCommitted}
    ensures TurnedAway(s, AbortedOp(AbortedControl(PreparedControl(s, r), r), r), r, OutAborted)
  {}

  /** Prepared in both stores. */
  predicate FenceReady(s: Stores, r: Request) {
    s.Knows(r) && s.ops[r.token].state.Prepared? && PendingHere(s, r) && (CanCommitBusiness(s, r) <==> RowReady(s, r))
  }

  predicate NoFenceReady(s: Stores, r: Request) {
    s.Knows(r) && s.ops[r.token].state.Prepared? && FenceGone(s, r) && (CanCommitBusiness(s, r) <==> RowReady(s, r))
  }

  lemma MarkedWithoutFence(s: Stores, r: Request)
    requires Unfinished(s, r) && FenceGone(s, r) && (RowReady(s, r) ==> r.target in s.log)
    ensures NoFenceReady(Marked(s, r), r)
  {}

  lemma RowMovesAlone(s: Stores, r: Request)
    requires NoFenceReady(s, r)
    ensures RowReady(s, r) ==> var t := CommitBusiness(s, r);
      FenceGone(t, r) && t.rows == s.rows[r.target := r.next] && t.Control(r.target) == s.Control(r.target) &&
      t.Knows(r) && t.ops[r.token].state.DbCommitted?
    ensures var t := AbortedOp(AbortedControl(s, r), r);
      t.Knows(r) && t.ops[r.token].state.Aborted? && t.rows == s.rows && t.Control(r.target) == s.Control(r.target)
  {}

  lemma MarkedFence(s: Stores, r: Request)
    requires Unfinished(s, r) && PendingHere(s, r) && (RowReady(s, r) ==> r.target in s.log)
    ensures FenceReady(Marked(s, r), r)
  {}

  lemma FenceCommits(s: Stores, r: Request)
    requires FenceReady(s, r) && RowReady(s, r)
    ensures PendingHere(CommitBusiness(s, r), r) && CommitBusiness(s, r).rows == s.rows[r.target := r.next]
  {}

  lemma FenceComesDown(s: Stores, r: Request)
    requires FenceReady(s, r)
    ensures Withdrawn(s, AbortedOp(AbortedControl(s, r), r), r, OutError)
  {}

  /** What a reachable state says about the operation key and the log of a recorded request. */
  lemma OwnKey(s: Stores, r: Request)
    requires Reachable(s) && Unfinished(s, r)
    ensures r.token in s.redisOps ==> s.redisOps[r.token].payload == r.next.payload && !s.redisOps[r.token].mark.OpCommitted?
    ensures r.target in s.rows ==> r.target in s.log
    ensures var c := s.Control(r.target); c.HasPending() && c.pending.value.token == r.token ==> c.PendingIs(r.next, r.token)
  {
    ReachableIsGood(s);
    assert ControlOk(s, r.target, s.Control(r.target));
    if r.token in s.redisOps { assert RedisOpOk(s, r.token, s.redisOps[r.token]); }
  }

  class Publisher {
    var stores: Stores

    constructor (s: Stores)
      ensures stores == s
    {
      stores := s;
    }

    /** Inserts the operation row, or loads the one that has the token; `None` is an error. */
    method CreateOrLoad(r: Request, flaky: bool) returns (state: Option<OpState>)
      requires Reachable(stores) && r.Valid()
      modifies this
      ensures Reachable(stores) && Effect(old(stores), stores, r)
      ensures state.Some? ==> stores.Knows(r) && stores.ops[r.token].state == state.value
      ensures state.Some? ==> Holding(stores, Loaded(state.value, r))
      ensures !flaky && state.None? ==> !stores.Knows(r)
      ensures !flaky && r.token !in old(stores).ops && Free(old(stores), r.target) ==> state == Some(Preparing) && stores == CreateOp(old(stores), r)
      ensures !flaky && r.token in old(stores).ops ==> stores == old(stores)
      ensures !flaky && r.token !in old(stores).ops && !Free(old(stores), r.target) ==> stores == old(stores)
    {
      CreateHolds(stores, r);
      ghost var s := stores;
      var lost := Fault(flaky);
      if r.token !in stores.ops && Free(stores, r.target) && !lost {
        stores := CreateOp(stores, r);
        HeldIsReachable(stores, PubPrepare(r));
      }
      var silent := Fault(flaky);
      if silent || r.token !in stores.ops || stores.ops[r.token].request != r { return None; }
      state := Some(stores.ops[r.token].state);
    }

    /** Calls Prepare; `None` is a lost or failed call. */
    method PrepareControl(r: Request, flaky: bool) returns (code: Option<Code>)
      requires Holding(stores, PubPrepare(r)) && stores.Knows(r)
      modifies this
      ensures Effect(old(stores), stores, r) && stores.ops == old(stores).ops
      ensures Holding(stores, match code case None => PubAbort(r) case Some(c) => AfterPrepare(c, r))
      ensures !flaky ==> code == Some(PrepareCode(old(stores), r)) && stores == PreparedControl(old(stores), r)
      ensures code == Some(CodeCommitted) ==> Durable(stores, r)
    {
      PrepareHolds(stores, r);
      HeldIsReachable(stores, PubPrepare(r));
      if PrepareCode(stores, r) == CodeCommitted { CommittedCodeIsDurable(stores, r); }
      var answer := PrepareCode(stores, r);
      var lost := Fault(flaky);
      var silent := Fault(flaky);
      if !lost { stores := PreparedControl(stores, r); }
      code := if lost || silent then None else Some(answer);
    }

    method MarkPrepared(r: Request, flaky: bool) returns (ok: bool)
      requires Holding(stores, PubMarkPrepared(r)) && stores.Knows(r)
      modifies this
      ensures Effect(old(stores), stores, r) && stores.Knows(r)
      ensures Durable(stores, r) <==> Durable(old(stores), r)
      ensures Holding(stores, if ok then PubBusiness(r) else PubAbort(r))
      ensures !flaky ==> ok && stores == Marked(old(stores), r)
    {
      MarkPreparedHolds(stores, r);
      var lost := Fault(flaky);
      var silent := Fault(flaky);
      if !lost { stores := Marked(stores, r); }
      ok := !lost && !silent;
    }

    /** The business transaction.  Its commit may take effect although the reply is lost. */
    method CommitBusinessRow(r: Request, flaky: bool) returns (ok: bool)
      requires Holding(stores, PubBusiness(r)) && stores.Knows(r)
      modifies this
      ensures Effect(old(stores), stores, r) && stores.Knows(r)
      ensures Holding(stores, if ok then PubCommit(r) else PubAbort(r))
      ensures ok ==> stores.ops[r.token].state.DbCommitted?
      ensures ok ==> CanCommitBusiness(old(stores), r) && stores == CommitBusiness(old(stores), r)
      ensures !flaky && CanCommitBusiness(old(stores), r) ==> ok
      ensures !flaky && !ok ==> stores == old(stores)
    {
      BusinessHolds(stores, r);
      var lost := Fault(flaky);
      var silent := Fault(flaky);
      var can := CanCommitBusiness(stores, r);
      if can && !lost { stores := CommitBusiness(stores, r); }
      ok := can && !lost && !silent;
    }

    /** Calls Commit from a durable operation; false is a lost reply or any answer but committed. */
    method CommitControl(r: Request, flaky: bool) returns (ok: bool)
      requires Holding(stores, PubCommit(r))
      modifies this
      ensures Reachable(stores) && Effect(old(stores), stores, r) && stores.ops == old(stores).ops
      ensures ok ==> Holding(stores, PubMarkCommitted(r))
      ensures !flaky && PendingHere(old(stores), r) ==> ok && stores.Control(r.target) == Present(Some(r.next), None)
      ensures !flaky && FenceGone(old(stores), r) ==> !ok && stores.Control(r.target) == old(stores).Control(r.target)
    {
      CommitHolds(stores, r);
      var code := Commit(stores.CellOf(r), r.token, r.next.payload).0;
      var lost := Fault(flaky);
      var silent := Fault(flaky);
      if !lost { stores := CommittedControl(stores, r); }
      ok := !lost && !silent && code == CodeCommitted;
    }

    method MarkCommitted(r: Request, flaky: bool) returns (ok: bool)
      requires Holding(stores, PubMarkCommitted(r)) && stores.Knows(r) && Durable(stores, r)
      modifies this
      ensures Reachable(stores) && Effect(old(stores), stores, r) && stores.Knows(r) && Durable(stores, r)
      ensures ok ==> stores.ops[r.token].state.Committed?
      ensures !flaky ==> ok
      ensures stores.Control(r.target) == old(stores).Control(r.target)
    {
      MarkCommittedHolds(stores, r);
      var lost := Fault(flaky);
      var silent := Fault(flaky);
      if !lost { stores := CommittedOp(stores, r); }
      ok := !lost && !silent;
    }

    /** Redis commit and the final mark, from a durable operation. */
    method FinishCommit(r: Request, flaky: bool) returns (outcome: Outcome)
      requires Holding(stores, PubCommit(r)) && stores.Knows(r) && Durable(stores, r)
      modifies this
      ensures Reachable(stores) && Effect(old(stores), stores, r) && stores.Knows(r) && Durable(stores, r)
      ensures outcome == OutSyncPending || (outcome == OutCommitted && stores.ops[r.token].state.Committed?)
      ensures !flaky && PendingHere(old(stores), r) ==>
                outcome == OutCommitted && stores.Control(r.target) == Present(Some(r.next), None)
      ensures !flaky && FenceGone(old(stores), r) ==>
                outcome == OutSyncPending && stores.Control(r.target) == old(stores).Control(r.target) && stores.ops == old(stores).ops
    {
      hide PendingHere, FenceGone;
      ghost var s := stores;
      var ok := CommitControl(r, flaky);
      if !ok { return OutSyncPending; }
      ghost var m := stores;
      ok := MarkCommitted(r, flaky);
      EffectsCompose(s, m, stores, r);
      outcome := if ok then OutCommitted else OutSyncPending;
    }

    /** Best effort: neither the Redis abort nor the final mark is checked. */
    method AbortOperation(r: Request, flaky: bool)
      requires Holding(stores, PubAbort(r)) && stores.Knows(r)
      modifies this
      ensures Reachable(stores) && Effect(old(stores), stores, r) && stores.Knows(r)
      ensures Durable(stores, r) <==> Durable(old(stores), r)
      ensures !flaky ==> stores == AbortedOp(AbortedControl(old(stores), r), r)
    {
      ghost var s := stores;
      AbortHolds(stores, r);
      var lost := Fault(flaky);
      if !lost { stores := AbortedControl(stores, r); }
      ghost var m := stores;
      MarkAbortedHolds(m, r);
      lost := Fault(flaky);
      if !lost { stores := AbortedOp(stores, r); }
      EffectsCompose(s, m, stores, r);
    }

    /** From the prepare call on. */
    method PrepareAndCommit(r: Request, flaky: bool) returns (outcome: Outcome)
      requires Holding(stores, PubPrepare(r)) && stores.Knows(r) && !Durable(stores, r) && r.Valid()
      modifies this
      ensures Reachable(stores) && Effect(old(stores), stores, r) && stores.Knows(r)
      ensures Truthful(stores, r, outcome)
      ensures Failed(outcome) && !flaky ==> stores.ops[r.token].state.Aborted?
      ensures !flaky && Unfinished(old(stores), r) ==> Resumed(old(stores), stores, r, outcome)
    {
      hide PendingHere, CanFence, FenceGone, AfterFence, WithoutFence, TurnedAway, Effect, Clear, Prepare;
      ghost var s := stores;
      HeldIsReachable(s, PubPrepare(r));
      if Unfinished(s, r) { PrepareDecides(s, r); }
      var code := PrepareControl(r, flaky);
      ghost var m := stores;
      if code == Some(CodeCommitted) {
        HeldIsReachable(stores, PubDone(r, OutSyncPending));
        return OutSyncPending;
      }
      if code != Some(CodePrepared) {
        AbortOperation(r, flaky);
        outcome := if code.None? then OutError else OutAborted;
      } else {
        outcome := MarkAndCommit(r, flaky);
        if !flaky && Unfinished(s, r) {
          if CanFence(s, r) || PendingHere(s, r) { AfterFenceFrom(s, m, stores, r, outcome); }
          else { LostFenceFrom(s, m, stores, r, outcome); }
        }
      }
      EffectsCompose(s, m, stores, r);
    }

    /** From the control prepared on. */
    method MarkAndCommit(r: Request, flaky: bool) returns (outcome: Outcome)
      requires Holding(stores, PubMarkPrepared(r)) && stores.Knows(r) && !Durable(stores, r)
      modifies this
      ensures Reachable(stores) && Effect(old(stores), stores, r) && stores.Knows(r)
      ensures Truthful(stores, r, outcome) && !outcome.OutAborted?
      ensures Failed(outcome) && !flaky ==> stores.ops[r.token].state.Aborted?
      ensures !flaky && Unfinished(old(stores), r) && PendingHere(old(stores), r) ==> AfterFence(old(stores), stores, r, outcome)
      ensures !flaky && Unfinished(old(stores), r) && FenceGone(old(stores), r) ==> WithoutFence(old(stores), stores, r, outcome)
    {
      hide PendingHere, FenceGone, WithoutFence, Effect, RowReady, AfterFence, Marked, AbortedControl, AbortedOp;
      ghost var s := stores;
      HeldIsReachable(s, PubMarkPrepared(r));
      if Unfinished(s, r) {
        RowHasLog(s, r);
        if PendingHere(s, r) { MarkedFence(s, r); }
        if FenceGone(s, r) { MarkedWithoutFence(s, r); }
      }
      var marked := MarkPrepared(r, flaky);
      ghost var m := stores;
      if marked {
        outcome := CommitOrAbort(r, flaky);
        if !flaky && Unfinished(s, r) && PendingHere(s, r) { AfterMarkFrom(s, m, stores, r, outcome); }
        if !flaky && Unfinished(s, r) && FenceGone(s, r) { WithoutFenceFrom(s, m, stores, r, outcome); }
      } else {
        AbortOperation(r, flaky);
        outcome := OutError;
      }
      EffectsCompose(s, m, stores, r);
    }

    /** From the operation marked prepared on. */
    method CommitOrAbort(r: Request, flaky: bool) returns (outcome: Outcome)
      requires Holding(stores, PubBusiness(r)) && stores.Knows(r) && !Durable(stores, r)
      modifies this
      ensures Reachable(stores) && Effect(old(stores), stores, r) && stores.Knows(r)
      ensures Truthful(stores, r, outcome) && !outcome.OutAborted?
      ensures Failed(outcome) && !flaky ==> stores.ops[r.token].state.Aborted?
      ensures !flaky && FenceReady(old(stores), r) ==> AfterFence(old(stores), stores, r, outcome)
      ensures !flaky && NoFenceReady(old(stores), r) ==> WithoutFence(old(stores), stores, r, outcome)
    {
      hide PendingHere, FenceGone, Effect, Withdrawn, CommitBusiness, AbortedControl, AbortedOp;
      ghost var s := stores;
      if FenceReady(s, r) {
        FenceComesDown(s, r);
        if RowReady(s, r) { FenceCommits(s, r); }
      }
      if NoFenceReady(s, r) { RowMovesAlone(s, r); }
      var committed := CommitBusinessRow(r, flaky);
      ghost var n := stores;
      if committed {
        outcome := FinishCommit(r, flaky);
        FinishKeepsRows(n, stores, r);
      } else {
        if !flaky { AbortCloses(n, r); }
        AbortOperation(r, flaky);
        outcome := OutError;
      }
      EffectsCompose(s, n, stores, r);
    }

    /**
     A publication, first or retried, from any reachable stores and with any faults.  The
     business row moves only when the operation becomes durable, and then from the expected
     revision to the next version; nothing of any other target or token changes; each
     answer tells the truth about PostgreSQL; and a call that is turned down without a fault
     has closed its operation.

     When nothing fails, a first call and a retry of an unfinished operation, stopped at
     whatever point, end alike: with the fence up or free to go up, the row and the active
     control are at the next version, or, if the row does not start there, the fence is taken
     down; with the fence lost the row moves alone; otherwise the call is turned away and
     touches neither.  A retry of a durable
     operation with its fence up finishes it, and one of an ended operation only reports it.
     */
    method Publish(r: Request, flaky: bool) returns (outcome: Outcome)
      requires Reachable(stores)
      modifies this
      ensures Reachable(stores) && Effect(old(stores), stores, r)
      ensures Truthful(stores, r, outcome)
      ensures Failed(outcome) && !flaky && r.Valid() && stores.Knows(r) ==> stores.ops[r.token].state.Aborted?
      ensures !flaky && Clear(old(stores), r) ==>
                outcome == OutCommitted && stores.rows == old(stores).rows[r.target := r.next] &&
                stores.Control(r.target) == Present(Some(r.next), None)
      ensures !flaky && Unfinished(old(stores), r) ==> Resumed(old(stores), stores, r, outcome)
      ensures !flaky && r.Valid() && r.token !in old(stores).ops && Free(old(stores), r.target) ==>
                Resumed(CreateOp(old(stores), r), stores, r, outcome)
      ensures !flaky && old(stores).Knows(r) && old(stores).ops[r.token].state.DbCommitted? && PendingHere(old(stores), r) ==>
                outcome == OutCommitted && stores.rows == old(stores).rows && stores.Control(r.target) == Present(Some(r.next), None)
      ensures !flaky && old(stores).Knows(r) && old(stores).ops[r.token].state.Terminal() ==>
                stores == old(stores) && outcome == if old(stores).ops[r.token].state.Committed? then OutCommitted else OutAborted
      ensures !flaky && !old(stores).Knows(r) && (!r.Valid() || r.token in old(stores).ops || !Free(old(stores), r.target)) ==>
                outcome == OutError && stores == old(stores)
    {
      hide PendingHere, CanFence, AfterFence, TurnedAway, Resumed, Effect;
      ghost var s := stores;
      if s.Knows(r) { KnownIsValid(s, r); }
      if !r.Valid() {
        OwnEffect(s, r);
        return OutError;
      }
      var state := CreateOrLoad(r, flaky);
      if state.None? { return OutError; }
      ghost var m := stores;
      match state.value {
        case Committed => outcome := OutCommitted;
        case Aborted => outcome := OutAborted;
        case DbCommitted =>
          outcome := FinishCommit(r, flaky);
          if !flaky && PendingHere(m, r) { FinishKeepsRows(m, stores, r); }
          EffectsCompose(s, m, stores, r);
        case _ =>
          outcome := PrepareAndCommit(r, flaky);
          if !flaky && Clear(s, r) { ClearIsPublished(s, stores, r, outcome); }
          EffectsCompose(s, m, stores, r);
      }
    }
  }

  lemma AbortCloses(s: Stores, r: Request)
    requires s.Knows(r) && !Durable(s, r)
    ensures var t := AbortedOp(AbortedControl(s, r), r); t.Knows(r) && t.ops[r.token].state.Aborted?
  {}

  lemma KnownIsValid(s: Stores, r: Request)
    requires Reachable(s) && s.Knows(r)
    ensures r.Valid()
  {
    ReachableIsGood(s);
  }

  lemma RowHasLog(s: Stores, r: Request)
    requires Reachable(s) && Unfinished(s, r)
    ensures RowReady(s, r) ==> r.target in s.log
  {
    OwnKey(s, r);
  }

  /** A durable operation that stays durable leaves the rows alone. */
  lemma FinishKeepsRows(s: Stores, s': Stores, r: Request)
    requires Effect(s, s', r) && Durable(s, r)
    ensures s'.rows == s.rows
  {}

  lemma PrepareDecides(s: Stores, r: Request)
    requires Reachable(s) && Unfinished(s, r) && r.Valid()
    ensures PrepareCode(s, r) != CodeCommitted
    ensures !CanFence(s, r) && !PendingHere(s, r) && r.token in s.redisOps && !s.redisOps[r.token].mark.OpAborted? ==>
              PrepareCode(s, r) == CodePrepared && FenceGone(PreparedControl(s, r), r) && Unfinished(PreparedControl(s, r), r)
    ensures CanFence(s, r) || PendingHere(s, r) ==>
              PrepareCode(s, r) == CodePrepared && PendingHere(PreparedControl(s, r), r) && Unfinished(PreparedControl(s, r), r)
    ensures !CanFence(s, r) && !PendingHere(s, r) && (r.token !in s.redisOps || s.redisOps[r.token].mark.OpAborted?) ==>
              PrepareCode(s, r) != CodePrepared && TurnedAway(s, AbortedOp(AbortedControl(PreparedControl(s, r), r), r), r, OutAborted)
  {
    hide TurnedAway, PendingHere, CanFence, AbortedControl, AbortedOp;
    OwnKey(s, r);
    KeyDecides(s, r);
    if CanFence(s, r) || PendingHere(s, r) { FenceGoesUp(s, r); }
    else if r.token !in s.redisOps || s.redisOps[r.token].mark.OpAborted? { FenceIsRefused(s, r); }
    else { FenceStaysGone(s, r); }
  }

  /** Prepare takes the key's word for the fence. */
  lemma FenceStaysGone(s: Stores, r: Request)
    requires Unfinished(s, r) && !PendingHere(s, r) && r.token in s.redisOps && s.redisOps[r.token] == RedisOp(r.next.payload, OpPrepared)
    requires var c := s.Control(r.target); c.HasPending() && c.pending.value.token == r.token ==> c.PendingIs(r.next, r.token)
    ensures var t := PreparedControl(s, r);
      && PrepareCode(s, r) == CodePrepared && FenceGone(t, r) && Unfinished(t, r)
      && t.ops == s.ops && t.rows == s.rows && t.Control(r.target) == s.Control(r.target)
  {}

  lemma KeyDecides(s: Stores, r: Request)
    requires r.token in s.redisOps ==> s.redisOps[r.token].payload == r.next.payload && !s.redisOps[r.token].mark.OpCommitted?
    ensures PrepareCode(s, r) != CodeCommitted
  {}

  /** Putting the fence up changes nothing the final answer is measured by. */
  lemma AfterFenceFrom(s: Stores, m: Stores, s': Stores, r: Request, outcome: Outcome)
    requires Unfinished(s, r) && r.Valid() && (CanFence(s, r) || PendingHere(s, r)) && m == PreparedControl(s, r)
    requires AfterFence(m, s', r, outcome)
    ensures AfterFence(s, s', r, outcome)
  {
    FenceGoesUp(s, r);
  }

  lemma LostFenceFrom(s: Stores, m: Stores, s': Stores, r: Request, outcome: Outcome)
    requires Reachable(s) && Unfinished(s, r) && !CanFence(s, r) && !PendingHere(s, r)
    requires r.token in s.redisOps && !s.redisOps[r.token].mark.OpAborted?
    requires m == PreparedControl(s, r) && WithoutFence(m, s', r, outcome)
    ensures WithoutFence(s, s', r, outcome)
  {
    OwnKey(s, r);
    FenceStaysGone(s, r);
  }

  lemma WithoutFenceFrom(s: Stores, m: Stores, s': Stores, r: Request, outcome: Outcome)
    requires Unfinished(s, r) && m == Marked(s, r) && WithoutFence(m, s', r, outcome)
    ensures WithoutFence(s, s', r, outcome)
  {}

  /** Marking the operation prepared changes nothing the final answer is measured by. */
  lemma AfterMarkFrom(s: Stores, m: Stores, s': Stores, r: Request, outcome: Outcome)
    requires Unfinished(s, r) && PendingHere(s, r) && m == Marked(s, r) && AfterFence(m, s', r, outcome)
    ensures AfterFence(s, s', r, outcome)
  {}

  lemma ClearIsPublished(s: Stores, s': Stores, r: Request, outcome: Outcome)
    requires Clear(s, r) && Resumed(CreateOp(s, r), s', r, outcome)
    ensures Published(s, s', r, outcome)
  {}

  lemma OwnEffect(s: Stores, r: Request)
    ensures Effect(s, s, r)
  {}

  predicate Failed(outcome: Outcome) {
    outcome.OutAborted? || outcome.OutError?
  }

  /** What an answer promises about PostgreSQL. */
  predicate Truthful(s: Stores, r: Request, outcome: Outcome) {
    && (outcome.OutCommitted? ==> s.Knows(r) && s.ops[r.token].state.Committed?)
    && (outcome.OutSyncPending? ==> s.Knows(r) && Durable(s, r))
    && (outcome.OutAborted? ==> s.Knows(r) && !Durable(s, r))
  }
}
