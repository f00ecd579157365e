/** What every run of the provider routing protocol guarantees. */
module ProviderGuarantees {
  import opened Common
  import opened ProviderControls
  import opened ProviderRuns

  ghost predicate Ordered(a: Row, b: Row) {
    a.originRevision <= b.originRevision && a.statusRevision <= b.statusRevision &&
    (a.statusRevision == b.statusRevision ==> a.status == b.status)
  }

  /** Along the versions of a row no revision falls, and a status revision stands for one status. */
  lemma {:induction false} VersionsAreOrdered(s: Stores, p: int, i: int, j: int)
    requires p in s.log && LogOk(s, p) && 0 <= i <= j < |s.log[p]|
    ensures Ordered(s.log[p][i].row, s.log[p][j].row)
    decreases j
  {
    if i < j {
      VersionsAreOrdered(s, p, i, j - 1);
      assert FollowsAt(s, p, j);
    }
  }

  /**
   Half by half, a gate shows what PostgreSQL has committed and is never ahead of the row;
   a half at the row's revision is the row's.
   */
  lemma GateShowsCommittedHalves(s: Stores, p: int)
    requires Reachable(s) && p in s.gates
    ensures s.HasRow(p)
    ensures var g, row := s.gates[p], s.RowOf(p);
      && HadOrigin(s, p, g.originRevision) && HadStatus(s, p, g.statusRevision, g.status)
      && g.originRevision <= row.originRevision && g.statusRevision <= row.statusRevision
      && (g.statusRevision == row.statusRevision ==> g.status == row.status)
  {
    ReachableHasInv(s);
    var g := s.gates[p];
    assert GateOk(s, p) && LogOk(s, p);
    var i :| 0 <= i < |s.log[p]| && s.log[p][i].row.originRevision == g.originRevision;
    var j :| 0 <= j < |s.log[p]| && s.log[p][j].row.statusRevision == g.statusRevision && s.log[p][j].row.status == g.status;
    VersionsAreOrdered(s, p, i, |s.log[p]| - 1);
    VersionsAreOrdered(s, p, j, |s.log[p]| - 1);
  }

  /**
   A fence that is up belongs to a recorded operation of its provider and would move the
   half it names by exactly one. 
   */
  lemma FenceMovesByOne(s: Stores, p: int)
    requires Reachable(s) && p in s.gates && s.gates[p].fence.Some?
    ensures var g := s.gates[p];
      var k := g.fence.value.token;
      && k in s.ops && s.ops[k].envelope.providerID == p
      && Opened(g) == (if s.ops[k].envelope.kind.OriginKind? then g.(originRevision := g.originRevision + 1, fence := None)
                       else g.(statusRevision := g.statusRevision + 1, status := s.ops[k].envelope.nextStatus, fence := None))
  {
    ReachableHasInv(s);
    assert GateOk(s, p);
    assert OpOk(s, s.gates[p].fence.value.token);
  }

  /** An operation is durable exactly when its business transaction is in the log, and it is there once. */
  lemma BusinessCommitsOnce(s: Stores, k: Token)
    requires Reachable(s) && k in s.ops
    ensures s.ops[k].envelope.providerID in s.log
    ensures var p := s.ops[k].envelope.providerID;
      && (s.ops[k].state.Durable() <==> exists i :: 0 <= i < |s.log[p]| && s.log[p][i].cause == Some(k))
      && (forall i, j :: 0 <= i < |s.log[p]| && 0 <= j < |s.log[p]| && s.log[p][i].cause == Some(k) == s.log[p][j].cause ==> i == j)
  {
    ReachableHasInv(s);
    assert OpOk(s, k);
    var p := s.ops[k].envelope.providerID;
    assert LogOk(s, p);
    if i :| 0 <= i < |s.log[p]| && s.log[p][i].cause == Some(k) { CauseIsDurable(s, p, i); }
  }

  lemma {:induction false} RunExtends(s: Stores, steps: seq<Step>)
    requires Inv(s)
    ensures Extends(s, Run(s, steps))
    decreases |steps|
  {
    if steps != [] {
      var middle := Run(s, steps[..|steps| - 1]);
      RunExtends(s, steps[..|steps| - 1]);
      RunKeeps(s, steps[..|steps| - 1]);
      ApplyKeeps(middle, steps[|steps| - 1]);
      ExtendsFurther(s, middle, Run(s, steps));
    }
  }

  lemma ExtendsFurther(s: Stores, t: Stores, u: Stores)
    requires Extends(s, t) && Extends(t, u)
    ensures Extends(s, u)
  {
    forall p ensures LogExtends(s, u, p) {
      assert LogExtends(s, t, p) && LogExtends(t, u, p);
    }
    forall k ensures OpExtends(s, u, k) {
      assert OpExtends(s, t, k) && OpExtends(t, u, k);
    }
  }

  /** Whatever happens later, a durable operation is never aborted, an ended one never changes, and no version is rewritten. */
  lemma OutcomesAreFinal(s: Stores, steps: seq<Step>, k: Token, p: int)
    requires Reachable(s) && k in s.ops
    ensures k in Run(s, steps).ops
    ensures s.ops[k].state.Durable() ==> Run(s, steps).ops[k].state.Durable()
    ensures s.ops[k].state.Terminal() ==> Run(s, steps).ops[k] == s.ops[k]
    ensures p in s.log ==> p in Run(s, steps).log && s.log[p] <= Run(s, steps).log[p]
  {
    ReachableHasInv(s);
    RunExtends(s, steps);
    assert OpExtends(s, Run(s, steps), k) && LogExtends(s, Run(s, steps), p);
  }

  // ----- revisions count operations

  function Durables(s: Stores, p: int, kind: Kind): set<Token> {
    set k | k in s.ops && s.ops[k].state.Durable() && s.ops[k].envelope.providerID == p && s.ops[k].envelope.kind == kind
  }

  /** The versions made by archiving and restoring. */
  function ByHand(s: Stores, p: int): set<int>
    requires p in s.log
  {
    set i | 0 < i < |s.log[p]| && s.log[p][i].cause.None?
  }

  predicate Counted(s: Stores, p: int) {
    s.HasRow(p) ==>
      && s.RowOf(p).originRevision == 1 + |Durables(s, p, OriginKind)|
      && s.RowOf(p).statusRevision == 1 + |Durables(s, p, StatusKind)| + |ByHand(s, p)|
  }

  lemma CountedWhenUnchanged(s: Stores, s': Stores, p: int)
    requires Counted(s, p) && (p in s.log <==> p in s'.log) && (p in s.log ==> s'.log[p] == s.log[p])
    requires Durables(s', p, OriginKind) == Durables(s, p, OriginKind) && Durables(s', p, StatusKind) == Durables(s, p, StatusKind)
    ensures Counted(s', p)
  {
    if p in s.log { assert ByHand(s', p) == ByHand(s, p); }
  }

  lemma ByHandGrows(s: Stores, s': Stores, p: int, c: Change)
    requires p in s.log && s.log[p] != [] && p in s'.log && s'.log[p] == s.log[p] + [c]
    ensures ByHand(s', p) == ByHand(s, p) + if c.cause.None? then {|s.log[p]|} else {}
  {}

  lemma EnvelopeOk(s: Stores, k: Token)
    requires Inv(s) && k in s.ops
    ensures ValidEnvelope(s.ops[k].envelope) && s.ops[k].envelope.providerID in s.log
  {
    assert OpOk(s, k);
  }

  lemma DurablesGrow(s: Stores, k: Token)
    requires Possible(s, Business(k)) && ValidEnvelope(s.ops[k].envelope)
    ensures var e, s' := s.ops[k].envelope, Effect(s, Business(k));
      && (forall kind :: kind != e.kind ==> Durables(s', e.providerID, kind) == Durables(s, e.providerID, kind))
      && Durables(s', e.providerID, e.kind) == Durables(s, e.providerID, e.kind) + {k}
      && k !in Durables(s, e.providerID, e.kind)
  {
    hide Starts, Moved, ValidEnvelope;
  }

  lemma CountedByBusiness(s: Stores, k: Token)
    requires Inv(s) && Possible(s, Business(k)) && Counted(s, s.ops[k].envelope.providerID)
    ensures Counted(Effect(s, Business(k)), s.ops[k].envelope.providerID)
  {
    hide Inv, Starts, OpOk, Durables, ByHand;
    var e := s.ops[k].envelope;
    var p := e.providerID;
    EnvelopeOk(s, k);
    DurablesGrow(s, k);
    ByHandGrows(s, Effect(s, Business(k)), p, Change(Moved(s.RowOf(p), e), Some(k)));
  }

  lemma CountedByHand(s: Stores, step: Step)
    requires (step.Archive? || step.Unarchive?) && Possible(s, step) && Counted(s, step.p)
    ensures Counted(Effect(s, step), step.p)
  {
    hide Idle;
    var p := step.p;
    var s' := Effect(s, step);
    ByHandGrows(s, s', p, s'.log[p][|s.log[p]|]);
    assert forall kind :: Durables(s', p, kind) == Durables(s, p, kind);
  }

  lemma CountedFromStart(s: Stores, step: Step)
    requires Inv(s) && step.NewProvider? && Possible(s, step)
    ensures Counted(Effect(s, step), step.p)
  {
    hide Inv;
    var s' := Effect(s, step);
    forall k | k in s.ops ensures s.ops[k].envelope.providerID != step.p { EnvelopeOk(s, k); }
    assert Durables(s', step.p, OriginKind) == {} && Durables(s', step.p, StatusKind) == {};
    assert ByHand(s', step.p) == {};
  }

  /** Which provider a step gives a new version to. */
  predicate Touches(s: Stores, step: Step, p: int) {
    match step
    case NewProvider(q, _, _) => q == p
    case Archive(q, _) => q == p
    case Unarchive(q, _) => q == p
    case Business(k) => k in s.ops && s.ops[k].envelope.providerID == p
    case _ => false
  }

  lemma CountedElsewhere(s: Stores, step: Step, p: int)
    requires Possible(s, step) && !Touches(s, step, p) && Counted(s, p)
    ensures Counted(Effect(s, step), p)
  {
    hide PrepareFence, CommitFence, AbortFence, ValidEnvelope, Moved, Starts, Idle, Counted;
    var s' := Effect(s, step);
    assert Durables(s', p, OriginKind) == Durables(s, p, OriginKind);
    assert Durables(s', p, StatusKind) == Durables(s, p, StatusKind);
    CountedWhenUnchanged(s, s', p);
  }

  lemma CountedStep(s: Stores, step: Step, p: int)
    requires Inv(s) && Counted(s, p)
    ensures Counted(Apply(s, step), p)
  {
    hide Inv, Counted, Effect;
    if !Possible(s, step) {
    } else if !Touches(s, step, p) {
      CountedElsewhere(s, step, p);
    } else {
      match step {
        case NewProvider(_, _, _) => CountedFromStart(s, step);
        case Business(k) => CountedByBusiness(s, k);
        case Archive(_, _) => CountedByHand(s, step);
        case Unarchive(_, _) => CountedByHand(s, step);
        case _ =>
      }
    }
  }

  lemma {:induction false} RunCounts(steps: seq<Step>, p: int)
    ensures Counted(Run(Empty, steps), p)
    decreases |steps|
  {
    if steps != [] {
      var shorter := steps[..|steps| - 1];
      RunCounts(shorter, p);
      RunKeeps(Empty, shorter);
      CountedStep(Run(Empty, shorter), steps[|steps| - 1], p);
    }
  }

  /**
   In every run an origin revision is one more than the number of origin operations whose
   business transaction committed, and a status revision one more than the number of such
   status operations and of archivings and restorings.
   */
  lemma RevisionsCountOperations(s: Stores, p: int)
    requires Reachable(s) && s.HasRow(p)
    ensures s.RowOf(p).originRevision == 1 + |Durables(s, p, OriginKind)|
    ensures s.RowOf(p).statusRevision == 1 + |Durables(s, p, StatusKind)| + |ByHand(s, p)|
  {
    var steps: seq<Step> :| Run(Empty, steps) == s;
    RunCounts(steps, p);
  }
}
