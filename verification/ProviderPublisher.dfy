/** Publishing a provider routing change, statement by statement, over stores that any run may have left behind. */
module ProviderPublisher {
  import opened Common
  import opened ProviderControls
  import opened ProviderRuns
  import P = Publication

  /** The step that records the request: its token, its envelope and its payload never change. */
  predicate IsRequest(s: Stores, open: Step) {
    (open.OpenOrigin? || open.OpenStatus?) && Version(s, open.p, open.version)
  }

  /** The stored operation is the one this request would have recorded. */
  predicate SameOperation(s: Stores, open: Step, e: Envelope)
    requires open.OpenOrigin? || open.OpenStatus?
  {
    open.k in s.ops && s.ops[open.k].envelope == e && s.ops[open.k].payload == open.payload
  }

  predicate Durable(s: Stores, k: Token) {
    k in s.ops && s.ops[k].state.Durable()
  }

  /** What an answer promises about PostgreSQL. */
  predicate Truthful(s: Stores, k: Token, outcome: P.Outcome) {
    && (outcome.OutCommitted? ==> k in s.ops && s.ops[k].state.Committed?)
    && (outcome.OutSyncPending? ==> Durable(s, k))
    && (outcome.OutAborted? ==> k in s.ops && !Durable(s, k))
  }

  /** The log grew by this operation's one version, exactly if the operation became durable. */
  predicate MovedWithOperation(s: Stores, s': Stores, k: Token, e: Envelope) {
    if Durable(s', k) && !Durable(s, k)
    then s.HasRow(e.providerID) && Starts(s.RowOf(e.providerID), e) &&
         s'.log == s.log[e.providerID := s.log[e.providerID] + [Change(Moved(s.RowOf(e.providerID), e), Some(k))]]
    else s'.log == s.log && (Durable(s, k) ==> Durable(s', k))
  }

  /** Nothing but this operation, its key, its gate and its row may differ. */
  predicate OnlyRequest(s: Stores, s': Stores, k: Token, e: Envelope) {
    && s'.ops - {k} == s.ops - {k} && s'.keys - {k} == s.keys - {k} && s'.gates - {e.providerID} == s.gates - {e.providerID}
    && MovedWithOperation(s, s', k, e)
  }

  predicate OwnStep(step: Step, k: Token) {
    match step
    case OpenOrigin(j, _, _, _, _, _) => j == k
    case OpenStatus(j, _, _, _, _, _) => j == k
    case Prepare(j) => j == k
    case SetPrepared(j) => j == k
    case Business(j) => j == k
    case Commit(j, _) => j == k
    case Abort(j, _) => j == k
    case SetCommitted(j) => j == k
    case SetAborted(j) => j == k
    case _ => false
  }

  lemma StepIsOwn(s: Stores, step: Step, k: Token, e: Envelope)
    requires OwnStep(step, k)
    requires k in s.ops ==> s.ops[k].envelope == e
    requires step.OpenOrigin? || step.OpenStatus? ==> Version(s, step.p, step.version) && EnvelopeOf(s, step) == e
    ensures OnlyRequest(s, Apply(s, step), k, e)
    ensures k in s.ops ==> k in Apply(s, step).ops && Apply(s, step).ops[k] == s.ops[k].(state := Apply(s, step).ops[k].state)
  {
    hide PrepareFence, CommitFence, AbortFence, ValidEnvelope, Moved, Starts, Idle;
    var s' := Apply(s, step);
    assert s'.ops - {k} == s.ops - {k};
    assert s'.keys - {k} == s.keys - {k};
    assert s'.gates - {e.providerID} == s.gates - {e.providerID};
  }

  lemma OwnCompose(s: Stores, m: Stores, s': Stores, k: Token, e: Envelope)
    requires OnlyRequest(s, m, k, e) && OnlyRequest(m, s', k, e)
    ensures OnlyRequest(s, s', k, e)
  {
    hide Moved, Starts;
  }

  lemma CommittedKeyIsDurable(s: Stores, k: Token)
    requires Reachable(s) && k in s.ops && PrepareFence(s.CellOf(k), s.ops[k].envelope, k, s.ops[k].payload).0 == FenceCommitted
    ensures Durable(s, k)
  {
    ReachableHasInv(s);
    assert KeyOk(s, k);
  }

  class Publisher {
    var stores: Stores

    constructor (s: Stores)
      ensures stores == s
    {
      stores := s;
    }

    /** Aborts the fence and, only if Redis answers aborted, the operation. */
    method AbortUncommitted(k: Token, e: Envelope, flaky: bool)
      requires Reachable(stores) && k in stores.ops && stores.ops[k].envelope == e
      modifies this
      ensures Reachable(stores) && OnlyRequest(old(stores), stores, k, e)
      ensures k in stores.ops && (Durable(stores, k) <==> Durable(old(stores), k))
      ensures !flaky ==> stores == Aborted(old(stores), k)
    {
      hide Apply, Reachable, AbortFence, OnlyRequest;
      ghost var s := stores;
      var result := AbortFence(stores.CellOf(k), e.kind, k, stores.ops[k].payload).0;
      StepIsOwn(s, Abort(k, s.ops[k].payload), k, e);
      var heard;
      heard, stores := Attempt(stores, Abort(k, stores.ops[k].payload), flaky);
      ghost var m := stores;
      if m == s { Unchanged(s, k, e); }
      KeepsOps(s, k);
      if heard && result == FenceAborted {
        StepIsOwn(m, SetAborted(k), k, e);
        AbortIsNotDurable(m, k);
        heard, stores := Attempt(stores, SetAborted(k), flaky);
        if stores == m { Unchanged(m, k, e); }
        OwnCompose(s, m, stores, k, e);
      }
    }

    /** The commit script and the final mark, from a durable operation. */
    method FinishRedisCommit(k: Token, e: Envelope, flaky: bool) returns (outcome: P.Outcome)
      requires Reachable(stores) && Durable(stores, k) && stores.ops[k].envelope == e
      modifies this
      ensures Reachable(stores) && OnlyRequest(old(stores), stores, k, e) && Durable(stores, k)
      ensures outcome == P.OutSyncPending || (outcome == P.OutCommitted && stores.ops[k].state.Committed?)
      ensures !flaky ==> (outcome.OutCommitted? <==> CommitCode(old(stores), k) == FenceCommitted)
      ensures !flaky && FenceUp(old(stores), k) ==> outcome.OutCommitted? && GateIs(stores, e.providerID, Opened(old(stores).gates[e.providerID]))
    {
      hide Apply, Reachable, CommitFence, OnlyRequest, Opened;
      ghost var s := stores;
      var result := CommitCode(stores, k);
      StepIsOwn(s, Commit(k, s.ops[k].payload), k, e);
      Unchanged(s, k, e);
      KeepsOps(s, k);
      if FenceUp(s, k) { CommitOpens(s, k); }
      var heard;
      heard, stores := Attempt(stores, Commit(k, stores.ops[k].payload), flaky);
      ghost var m := stores;
      if !heard || result != FenceCommitted { return P.OutSyncPending; }
      MarkFacts(m, k);
      StepIsOwn(m, SetCommitted(k), k, e);
      Unchanged(m, k, e);
      heard, stores := Attempt(stores, SetCommitted(k), flaky);
      OwnCompose(s, m, stores, k, e);
      outcome := if heard then P.OutCommitted else P.OutSyncPending;
    }

    /** From the fence prepared on. */
    method MarkAndCommit(k: Token, e: Envelope, flaky: bool) returns (outcome: P.Outcome)
      requires Reachable(stores) && k in stores.ops && stores.ops[k].envelope == e && !Durable(stores, k)
      modifies this
      ensures Reachable(stores) && OnlyRequest(old(stores), stores, k, e) && k in stores.ops
      ensures Truthful(stores, k, outcome) && !outcome.OutAborted?
      ensures !flaky && FenceUp(old(stores), k) && Unfinished(old(stores), k) ==>
                if Startable(old(stores), e) then
                  outcome.OutCommitted? && GateIs(stores, e.providerID, Opened(old(stores).gates[e.providerID]))
                else
                  outcome.OutError? && stores.ops[k].state.Aborted? && GateIs(stores, e.providerID, old(stores).gates[e.providerID].(fence := None))
    {
      hide Apply, Reachable, OnlyRequest, Opened, Starts;
      ghost var s := stores;
      if stores.ops[k].state.Preparing? {
        MarkFacts(s, k);
        StepIsOwn(s, SetPrepared(k), k, e);
        Unchanged(s, k, e);
        var marked;
        marked, stores := Attempt(stores, SetPrepared(k), flaky);
        if !marked {
          ghost var m := stores;
          AbortUncommitted(k, e, flaky);
          OwnCompose(s, m, stores, k, e);
          return P.OutError;
        }
      } else {
        Unchanged(s, k, e);
      }
      ghost var m := stores;
      var can := Possible(stores, Business(k));
      BusinessFacts(m, k);
      StepIsOwn(m, Business(k), k, e);
      Unchanged(m, k, e);
      var heard;
      heard, stores := Attempt(stores, Business(k), flaky);
      ghost var n := stores;
      OwnCompose(s, m, n, k, e);
      if heard && can {
        outcome := FinishRedisCommit(k, e, flaky);
      } else {
        if FenceUp(n, k) && n.ops[k].state.Prepared? { AbortCloses(n, k); }
        AbortUncommitted(k, e, flaky);
        outcome := P.OutError;
      }
      OwnCompose(s, n, stores, k, e);
    }

    /** From the prepare script on. */
    method PrepareAndCommit(k: Token, e: Envelope, flaky: bool) returns (outcome: P.Outcome)
      requires Reachable(stores) && k in stores.ops && stores.ops[k].envelope == e && !Durable(stores, k) && ValidEnvelope(e)
      modifies this
      ensures Reachable(stores) && OnlyRequest(old(stores), stores, k, e) && k in stores.ops
      ensures Truthful(stores, k, outcome)
      ensures !flaky && Unfinished(old(stores), k) ==> Resumed(old(stores), stores, k, outcome)
    {
      hide Apply, Reachable, OnlyRequest, PrepareFence, AbortFence, Starts, Opened, Preparable, FenceUp;
      ghost var s := stores;
      var code := PrepareFence(stores.CellOf(k), e, k, stores.ops[k].payload).0;
      StepIsOwn(s, Prepare(k), k, e);
      Unchanged(s, k, e);
      KeepsOps(s, k);
      if code == FenceCommitted { CommittedKeyIsDurable(s, k); }
      if Unfinished(s, k) { PrepareDecides(s, k); }
      var heard;
      heard, stores := Attempt(stores, Prepare(k), flaky);
      ghost var m := stores;
      if !heard {
        AbortUncommitted(k, e, flaky);
        outcome := P.OutError;
      } else if code == FencePrepared {
        outcome := MarkAndCommit(k, e, flaky);
      } else if code == FenceCommitted {
        return P.OutSyncPending;
      } else if code == FenceAborted {
        StepIsOwn(m, SetAborted(k), k, e);
        Unchanged(m, k, e);
        AbortIsNotDurable(m, k);
        MarkFacts(m, k);
        heard, stores := Attempt(stores, SetAborted(k), flaky);
        outcome := P.OutAborted;
      } else {
        AbortUncommitted(k, e, flaky);
        outcome := P.OutAborted;
      }
      OwnCompose(s, m, stores, k, e);
    }

    /**
     A publication, first or retried, from any reachable stores and with any faults.  The row
     gets a new version only when the operation becomes durable, and then the one its envelope
     describes; nothing of any other token or provider changes; each answer tells the truth
     about PostgreSQL.  When nothing fails, a first call and a retry of an unfinished operation,
     stopped at whatever point, end alike: with the fence up or free to go up the call goes
     through exactly if the row still starts there, and otherwise gives the gate back and
     closes its operation; a call the gate turns away leaves its operation open.  A retry of a
     durable operation is answered committed exactly when Redis can commit it, and then the
     gate is the opened one.
     */
    method Publish(open: Step, flaky: bool) returns (outcome: P.Outcome)
      requires Reachable(stores) && IsRequest(stores, open)
      modifies this
      ensures Reachable(stores) && OnlyRequest(old(stores), stores, open.k, EnvelopeOf(old(stores), open))
      ensures Truthful(stores, open.k, outcome)
      ensures !flaky && Possible(old(stores), open) && open.k !in old(stores).keys ==>
                Resumed(Apply(old(stores), open), stores, open.k, outcome)
      ensures !flaky && open.k != "" && SameOperation(old(stores), open, EnvelopeOf(old(stores), open)) && old(stores).ops[open.k].state.DbCommitted? ==>
                (outcome.OutCommitted? <==> CommitCode(old(stores), open.k) == FenceCommitted)
      ensures !flaky && open.k != "" && SameOperation(old(stores), open, EnvelopeOf(old(stores), open)) && old(stores).ops[open.k].state.DbCommitted? && FenceUp(old(stores), open.k) ==>
                outcome.OutCommitted? && GateIs(stores, open.p, Opened(old(stores).gates[open.p]))
      ensures !flaky && open.k != "" && SameOperation(old(stores), open, EnvelopeOf(old(stores), open)) && Unfinished(old(stores), open.k) ==>
                Resumed(old(stores), stores, open.k, outcome)
      ensures !flaky && open.k != "" && SameOperation(old(stores), open, EnvelopeOf(old(stores), open)) && old(stores).ops[open.k].state.Terminal() ==>
                stores == old(stores) && outcome == if old(stores).ops[open.k].state.Committed? then P.OutCommitted else P.OutAborted
      ensures !flaky && !Possible(old(stores), open) && !SameOperation(old(stores), open, EnvelopeOf(old(stores), open)) ==>
                outcome.OutError? && stores == old(stores)
    {
      hide Apply, Reachable, OnlyRequest, Starts, Opened, Resumed, FenceUp;
      ghost var s := stores;
      var k := open.k;
      var e := EnvelopeOf(stores, open);
      Unchanged(s, k, e);
      if k in s.ops { RecordedIsValid(s, k); }
      if k == "" || !ValidEnvelope(e) { return P.OutError; }
      var created := Possible(stores, open);
      OpenFacts(s, open);
      if created { StepIsOwn(s, open, k, e); }
      var heard;
      heard, stores := Attempt(stores, open, flaky);
      var silent := Fault(flaky);
      if !(heard && created) && (silent || k !in stores.ops) { return P.OutError; }
      if !SameOperation(stores, open, e) { return P.OutError; }
      ghost var m := stores;
      match stores.ops[k].state {
        case Committed => outcome := P.OutCommitted;
        case Aborted => outcome := P.OutAborted;
        case DbCommitted =>
          outcome := FinishRedisCommit(k, e, flaky);
          OwnCompose(s, m, stores, k, e);
        case _ =>
          outcome := PrepareAndCommit(k, e, flaky);
          OwnCompose(s, m, stores, k, e);
      }
    }
  }

  /** The operation is recorded and its business transaction has not gone through. */
  predicate Unfinished(s: Stores, k: Token) {
    k in s.ops && (s.ops[k].state.Preparing? || s.ops[k].state.Prepared?)
  }

  /** The gate once the operation is committed: the half its envelope names has moved. */
  function Shifted(g: Gate, e: Envelope): Gate {
    if e.kind.OriginKind? then g.(originRevision := e.nextOriginRevision, fence := None)
    else g.(statusRevision := e.nextStatusRevision, status := e.nextStatus, fence := None)
  }

  /** How a call ends that nothing disturbs, from an operation whose business transaction has not gone through. */
  predicate Resumed(s: Stores, s': Stores, k: Token, outcome: P.Outcome)
    requires k in s.ops
  {
    var e := s.ops[k].envelope;
    var p := e.providerID;
    k in s'.ops &&
    if FenceUp(s, k) || (k !in s.keys && Preparable(s.CellOf(k), e)) then
      p in s.gates &&
      if Startable(s, e) then outcome.OutCommitted? && s'.ops[k].state.Committed? && GateIs(s', p, Shifted(s.gates[p], e))
      else outcome.OutError? && s'.ops[k].state.Aborted? && GateIs(s', p, s.gates[p].(fence := None))
    else
      && outcome.OutAborted?
      && if k in s.keys && s.keys[k].mark.MarkAborted? then s'.ops[k].state.Aborted? && s'.gates == s.gates
         else if k !in s.keys && p in s.gates && s.gates[p].fence.Some? && s.gates[p].fence.value.token == k
         then s'.ops[k].state.Aborted? && GateIs(s', p, s.gates[p].(fence := None))
         else s' == s
  }

  /** What the invariant says about the fence and the key of an unfinished operation. */
  predicate Own(s: Stores, k: Token)
    requires k in s.ops
  {
    var e := s.ops[k].envelope;
    && ValidEnvelope(e)
    && (k in s.keys ==> s.keys[k].kind == e.kind && s.keys[k].payload == s.ops[k].payload && !s.keys[k].mark.MarkCommitted?)
    && (e.providerID in s.gates && s.gates[e.providerID].fence.Some? && s.gates[e.providerID].fence.value.token == k ==>
          s.gates[e.providerID].fence.value == FenceOf(e, k, s.ops[k].payload))
  }

  lemma OwnFacts(s: Stores, k: Token)
    requires Reachable(s) && Unfinished(s, k)
    ensures Own(s, k)
  {
    ReachableHasInv(s);
    assert OpOk(s, k);
    assert k in s.keys ==> KeyOk(s, k);
    if s.ops[k].envelope.providerID in s.gates { assert GateOk(s, s.ops[k].envelope.providerID); }
  }

  function PrepareCode(s: Stores, k: Token): FenceResult
    requires k in s.ops
  {
    PrepareFence(s.CellOf(k), s.ops[k].envelope, k, s.ops[k].payload).0
  }

  lemma PrepareGoesUp(s: Stores, k: Token)
    requires Unfinished(s, k) && Own(s, k)
    requires FenceUp(s, k) || (k !in s.keys && Preparable(s.CellOf(k), s.ops[k].envelope))
    ensures var e, t := s.ops[k].envelope, Apply(s, Prepare(k));
      && PrepareCode(s, k) == FencePrepared && FenceUp(t, k) && t.ops == s.ops && t.log == s.log && e.providerID in s.gates
      && t.gates[e.providerID].(fence := None) == s.gates[e.providerID].(fence := None)
      && Opened(t.gates[e.providerID]) == Shifted(s.gates[e.providerID], e)
  {}

  lemma PrepareIsRefused(s: Stores, k: Token)
    requires Unfinished(s, k) && Own(s, k) && !FenceUp(s, k) && !(k !in s.keys && Preparable(s.CellOf(k), s.ops[k].envelope))
    ensures Apply(s, Prepare(k)) == s && PrepareCode(s, k) !in {FencePrepared, FenceCommitted}
    ensures PrepareCode(s, k) == FenceAborted <==> k in s.keys && s.keys[k].mark.MarkAborted?
    ensures PrepareCode(s, k) != FenceAborted ==> Resumed(s, Aborted(s, k), k, P.OutAborted)
  {}

  lemma PrepareDecides(s: Stores, k: Token)
    requires Reachable(s) && Unfinished(s, k)
    ensures PrepareCode(s, k) != FenceCommitted
    ensures var e, t := s.ops[k].envelope, Apply(s, Prepare(k));
      if FenceUp(s, k) || (k !in s.keys && Preparable(s.CellOf(k), e)) then
        && PrepareCode(s, k) == FencePrepared && FenceUp(t, k) && t.ops == s.ops && t.log == s.log && e.providerID in s.gates
        && t.gates[e.providerID].(fence := None) == s.gates[e.providerID].(fence := None)
        && Opened(t.gates[e.providerID]) == Shifted(s.gates[e.providerID], e)
      else
        && t == s && PrepareCode(s, k) != FencePrepared
        && (PrepareCode(s, k) == FenceAborted <==> k in s.keys && s.keys[k].mark.MarkAborted?)
        && (PrepareCode(s, k) != FenceAborted ==> Resumed(s, Aborted(s, k), k, P.OutAborted))
  {
    hide Apply, FenceUp, Preparable, PrepareFence, Own, Resumed, Opened, Aborted, Shifted;
    OwnFacts(s, k);
    if FenceUp(s, k) || (k !in s.keys && Preparable(s.CellOf(k), s.ops[k].envelope)) { PrepareGoesUp(s, k); } else { PrepareIsRefused(s, k); }
  }

  lemma OpenFacts(s: Stores, open: Step)
    requires IsRequest(s, open)
    ensures !Possible(s, open) ==> Apply(s, open) == s
    ensures Possible(s, open) ==> var t := Apply(s, open);
      && open.k in t.ops && t.ops[open.k].envelope == EnvelopeOf(s, open) && t.ops[open.k].payload == open.payload
      && t.ops[open.k].state.Preparing? && t.keys == s.keys && t.gates == s.gates && open.k !in s.ops
  {
    hide ValidEnvelope;
  }

  lemma RecordedIsValid(s: Stores, k: Token)
    requires Reachable(s) && k in s.ops
    ensures ValidEnvelope(s.ops[k].envelope)
  {
    ReachableHasInv(s);
    assert OpOk(s, k);
  }

  function CommitCode(s: Stores, k: Token): FenceResult
    requires k in s.ops
  {
    CommitFence(s.CellOf(k), s.ops[k].envelope.kind, k, s.ops[k].payload).0
  }

  predicate GateIs(s: Stores, p: int, g: Gate) {
    p in s.gates && s.gates[p] == g
  }

  /** The operation is prepared in Redis and its fence is up. */
  predicate FenceUp(s: Stores, k: Token)
    requires k in s.ops
  {
    var e := s.ops[k].envelope;
    && ValidEnvelope(e) && e.providerID in s.gates && s.gates[e.providerID].fence == Some(FenceOf(e, k, s.ops[k].payload))
    && k in s.keys && s.keys[k] == FenceOp(e.kind, s.ops[k].payload, MarkPrepared)
  }

  predicate Startable(s: Stores, e: Envelope) {
    s.HasRow(e.providerID) && Starts(s.RowOf(e.providerID), e)
  }

  lemma CommitOpens(s: Stores, k: Token)
    requires Durable(s, k) && FenceUp(s, k)
    ensures CommitCode(s, k) == FenceCommitted
    ensures GateIs(Apply(s, Commit(k, s.ops[k].payload)), s.ops[k].envelope.providerID, Opened(s.gates[s.ops[k].envelope.providerID]))
  {}

  lemma AbortCloses(s: Stores, k: Token)
    requires k in s.ops && FenceUp(s, k) && s.ops[k].state.Prepared?
    ensures k in Aborted(s, k).ops && Aborted(s, k).ops[k].state.Aborted?
    ensures var p := s.ops[k].envelope.providerID; GateIs(Aborted(s, k), p, s.gates[p].(fence := None))
  {}

  lemma MarkFacts(s: Stores, k: Token)
    requires k in s.ops
    ensures forall step | step in {SetPrepared(k), SetCommitted(k), SetAborted(k)} ::
      Apply(s, step).gates == s.gates && Apply(s, step).keys == s.keys && Apply(s, step).log == s.log && k in Apply(s, step).ops
    ensures s.ops[k].state.Preparing? ==> Apply(s, SetPrepared(k)).ops[k] == s.ops[k].(state := P.Prepared)
    ensures s.ops[k].state.Durable() ==> Apply(s, SetCommitted(k)).ops[k] == s.ops[k].(state := P.Committed)
    ensures Unfinished(s, k) ==> Apply(s, SetAborted(k)).ops[k] == s.ops[k].(state := P.Aborted)
  {}

  lemma BusinessFacts(s: Stores, k: Token)
    requires k in s.ops
    ensures var t := Apply(s, Business(k));
      && t.gates == s.gates && t.keys == s.keys && k in t.ops
      && (Possible(s, Business(k)) ==> t.ops[k] == s.ops[k].(state := P.DbCommitted))
      && (!Possible(s, Business(k)) ==> t == s)
  {
    hide Moved, Starts;
  }

  /** What aborting does when no call fails. */
  function Aborted(s: Stores, k: Token): Stores
    requires k in s.ops
  {
    var t := Apply(s, Abort(k, s.ops[k].payload));
    if AbortFence(s.CellOf(k), s.ops[k].envelope.kind, k, s.ops[k].payload).0 == FenceAborted then Apply(t, SetAborted(k)) else t
  }

  lemma Unchanged(s: Stores, k: Token, e: Envelope)
    ensures OnlyRequest(s, s, k, e)
  {}

  lemma KeepsOps(s: Stores, k: Token)
    requires k in s.ops
    ensures Apply(s, Abort(k, s.ops[k].payload)).ops == s.ops
    ensures Apply(s, Prepare(k)).ops == s.ops
    ensures Apply(s, Commit(k, s.ops[k].payload)).ops == s.ops
  {
    hide PrepareFence, CommitFence, AbortFence;
  }

  lemma AbortIsNotDurable(s: Stores, k: Token)
    requires k in s.ops
    ensures k in Apply(s, SetAborted(k)).ops && (Durable(Apply(s, SetAborted(k)), k) <==> Durable(s, k))
  {}
}
