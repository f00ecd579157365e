/** Whether the two halves of a gate go together: whether some version of the row had both. */
module ProviderCombinations {
  import opened Common
  import opened ProviderControls
  import opened ProviderRuns
  import opened ProviderGuarantees
  import opened ProviderRecovery
  import opened ProviderExamples

  /** The revision of the half an operation of this kind moves. */
  function Half(row: Row, kind: Kind): int {
    if kind.OriginKind? then row.originRevision else row.statusRevision
  }

  /** The revision of the half it leaves alone. */
  function OtherHalf(row: Row, kind: Kind): int {
    if kind.OriginKind? then row.statusRevision else row.originRevision
  }

  function OtherHalfOf(g: Gate, kind: Kind): int {
    if kind.OriginKind? then g.statusRevision else g.originRevision
  }

  predicate HeldAt(row: Row, g: Gate) {
    row.originRevision == g.originRevision && row.statusRevision == g.statusRevision && row.status == g.status
  }

  /** Some version of the row had both halves of the gate at once. */
  ghost predicate Held(s: Stores, p: int, g: Gate) {
    p in s.log && exists i :: 0 <= i < |s.log[p]| && HeldAt(s.log[p][i].row, g)
  }

  /** The last version in a row of versions with one revision of a half. */
  function LastWith(log: seq<Change>, i: nat, kind: Kind): (j: nat)
    requires i < |log|
    ensures i <= j < |log| && Half(log[j].row, kind) == Half(log[i].row, kind)
    ensures j + 1 < |log| ==> Half(log[j + 1].row, kind) != Half(log[j].row, kind)
    decreases |log| - i
  {
    if i + 1 < |log| && Half(log[i + 1].row, kind) == Half(log[i].row, kind) then LastWith(log, i + 1, kind) else i
  }

  /** While one half stays, the other takes every revision from the first to the last. */
  lemma {:induction false} Between(s: Stores, p: int, kind: Kind, i: nat, j: nat, revision: int) returns (m: nat)
    requires p in s.log && LogOk(s, p) && i <= j < |s.log[p]|
    requires Half(s.log[p][i].row, kind) == Half(s.log[p][j].row, kind)
    requires OtherHalf(s.log[p][i].row, kind) <= revision <= OtherHalf(s.log[p][j].row, kind)
    ensures i <= m <= j && OtherHalf(s.log[p][m].row, kind) == revision && Half(s.log[p][m].row, kind) == Half(s.log[p][i].row, kind)
    decreases j
  {
    if OtherHalf(s.log[p][j].row, kind) == revision {
      m := j;
    } else {
      assert FollowsAt(s, p, j);
      VersionsAreOrdered(s, p, i, j - 1);
      VersionsAreOrdered(s, p, j - 1, j);
      m := Between(s, p, kind, i, j - 1, revision);
    }
  }

  /** The version a durable operation made, and the fence of that operation. */
  predicate MadeAt(s: Stores, k: Token, i: nat) {
    && k in s.ops && Provider(s, k) in s.log && i < |s.log[Provider(s, k)]| && s.log[Provider(s, k)][i].cause == Some(k)
  }

  predicate FenceIs(s: Stores, k: Token) {
    k in s.ops && Provider(s, k) in s.gates && s.gates[Provider(s, k)].fence.Some? && s.gates[Provider(s, k)].fence.value.token == k
  }

  lemma MadeVersion(s: Stores, k: Token, i: nat)
    requires Inv(s) && MadeAt(s, k, i)
    ensures var e := s.ops[k].envelope; var log := s.log[e.providerID];
      && ValidEnvelope(e) && LogOk(s, e.providerID) && i > 0
      && Half(log[i].row, e.kind) == Half(log[i - 1].row, e.kind) + 1 == (if e.kind.OriginKind? then e.nextOriginRevision else e.nextStatusRevision)
      && (e.kind.StatusKind? ==> log[i].row.status == e.nextStatus)
  {
    var p := Provider(s, k);
    assert OpOk(s, k) && LogOk(s, p);
    assert FollowsAt(s, p, i);
  }

  lemma OpenedFence(s: Stores, k: Token)
    requires Inv(s) && FenceIs(s, k)
    ensures var e, g := s.ops[k].envelope, s.gates[Provider(s, k)];
      Opened(g) == if e.kind.OriginKind? then g.(originRevision := e.nextOriginRevision, fence := None)
                   else g.(statusRevision := e.nextStatusRevision, status := e.nextStatus, fence := None)
    ensures var g := s.gates[Provider(s, k)]; HadStatus(s, Provider(s, k), g.statusRevision, g.status)
  {
    assert GateOk(s, Provider(s, k)) && OpOk(s, k);
  }

  /** Two versions with one status revision have one status. */
  lemma OneStatus(s: Stores, p: int, m: nat, revision: int, status: RoutingStatus)
    requires p in s.log && LogOk(s, p) && m < |s.log[p]| && HadStatus(s, p, revision, status) && s.log[p][m].row.statusRevision == revision
    ensures s.log[p][m].row.status == status
  {
    var n :| 0 <= n < |s.log[p]| && s.log[p][n].row.statusRevision == revision && s.log[p][n].row.status == status;
    if m <= n { VersionsAreOrdered(s, p, m, n); } else { VersionsAreOrdered(s, p, n, m); }
  }

  /**
   Letting the fence of a durable operation through, at once or however late, leaves a
   combination the row has had if and only if the other half of the gate lies where the row's
   other half was while the row had the revision this operation gave it.
   */
  lemma OpenedIsHeldIff(s: Stores, k: Token, i: nat)
    requires Reachable(s) && FenceIs(s, k) && MadeAt(s, k, i)
    ensures var p, kind := Provider(s, k), s.ops[k].envelope.kind;
      var log, other := s.log[p], OtherHalfOf(s.gates[p], kind);
      Held(s, p, Opened(s.gates[p])) <==>
        OtherHalf(log[i].row, kind) <= other <= OtherHalf(log[LastWith(log, i, kind)].row, kind)
  {
    ReachableHasInv(s);
    var p, kind := Provider(s, k), s.ops[k].envelope.kind;
    var log, g := s.log[p], s.gates[p];
    var j := LastWith(log, i, kind);
    MadeVersion(s, k, i);
    OpenedFence(s, k);
    hide Inv, LogOk;
    if Held(s, p, Opened(g)) {
      var m :| 0 <= m < |log| && HeldAt(log[m].row, Opened(g));
      VersionIsBetween(s, p, kind, i, m);
    }
    if OtherHalf(log[i].row, kind) <= OtherHalfOf(g, kind) <= OtherHalf(log[j].row, kind) {
      var m := Between(s, p, kind, i, j, OtherHalfOf(g, kind));
      if kind.OriginKind? {
        OneStatus(s, p, m, g.statusRevision, g.status);
      } else {
        VersionsAreOrdered(s, p, i, m);
      }
      assert HeldAt(log[m].row, Opened(g));
    }
  }

  lemma VersionIsBetween(s: Stores, p: int, kind: Kind, i: nat, m: nat)
    requires p in s.log && LogOk(s, p) && 0 < i < |s.log[p]| && m < |s.log[p]|
    requires Half(s.log[p][i - 1].row, kind) < Half(s.log[p][i].row, kind) == Half(s.log[p][m].row, kind)
    ensures var log := s.log[p];
      OtherHalf(log[i].row, kind) <= OtherHalf(log[m].row, kind) <= OtherHalf(log[LastWith(log, i, kind)].row, kind)
  {
    var log := s.log[p];
    var j := LastWith(log, i, kind);
    if m < i { VersionsAreOrdered(s, p, m, i - 1); } else { VersionsAreOrdered(s, p, i, m); }
    if m <= j {
      VersionsAreOrdered(s, p, m, j);
    } else {
      VersionsAreOrdered(s, p, j, j + 1);
      VersionsAreOrdered(s, p, j + 1, m);
    }
  }

  /**
   While the operation is db_committed its version is the row, so the condition is one to look
   up before the commit script: the gate's other half is the row's.
   */
  lemma CommittedIsHeldIff(s: Stores, k: Token)
    requires Reachable(s) && FenceIs(s, k) && s.ops[k].state.DbCommitted?
    ensures s.HasRow(Provider(s, k))
    ensures var p := Provider(s, k);
      Held(s, p, Opened(s.gates[p])) <==>
        if s.ops[k].envelope.kind.OriginKind? then s.gates[p].statusRevision == s.RowOf(p).statusRevision
        else s.gates[p].originRevision == s.RowOf(p).originRevision
  {
    hide Held, ValidEnvelope, Opened;
    LatestChange(s, k);
    OpenedIsHeldIff(s, k, |s.log[Provider(s, k)]| - 1);
  }

  lemma LatestChange(s: Stores, k: Token)
    requires Reachable(s) && k in s.ops && s.ops[k].state.DbCommitted?
    ensures s.HasRow(Provider(s, k)) && MadeAt(s, k, |s.log[Provider(s, k)]| - 1)
  {
    hide Inv;
    ReachableIsLatest(s);
    assert LatestAt(s, k);
  }

  // ----- no other step makes a combination the row never had

  /** The step is a commit script that lets the fence of this gate through. */
  predicate LetsThrough(s: Stores, step: Step, p: int) {
    step.Commit? && Possible(s, step) && Provider(s, step.k) == p &&
    var c, kind := s.CellOf(step.k), s.ops[step.k].envelope.kind;
    !Foreign(c.op, kind, step.text) && (c.op.None? || c.op.value.mark.MarkPrepared?) && Holds(c, kind, step.k, step.text)
  }

  /** What a step may do to a gate that is there before and after it. */
  lemma GateAfter(s: Stores, step: Step, p: int)
    requires p in s.gates && p in Apply(s, step).gates
    ensures var g, g' := s.gates[p], Apply(s, step).gates[p];
      if LetsThrough(s, step, p) then FenceIs(s, step.k) && g' == Opened(g)
      else g'.(fence := None) == g.(fence := None) || (step.Replace? && step.p == p && Version(s, p, step.version) && g' == Stable(s.log[p][step.version].row))
  {
    hide ValidEnvelope, Moved;
  }

  lemma HeldStays(s: Stores, s': Stores, p: int, g: Gate)
    requires LogExtends(s, s', p) && Held(s, p, g)
    ensures Held(s', p, g)
  {
    var i :| 0 <= i < |s.log[p]| && HeldAt(s.log[p][i].row, g);
    assert s'.log[p][i] == s.log[p][i];
  }

  /**
   A gate that showed a combination the row has had goes on doing so, except by a commit
   script that lets through the fence of a durable operation against `OpenedIsHeldIff`.
   */
  lemma OnlyCommitsSeparateHalves(s: Stores, step: Step, p: int)
    requires Reachable(s) && p in s.gates && p in Apply(s, step).gates && Held(s, p, s.gates[p])
    ensures LetsThrough(s, step, p) ==> FenceIs(s, step.k) && s.ops[step.k].state.Durable()
    ensures Held(Apply(s, step), p, Apply(s, step).gates[p]) <==> (LetsThrough(s, step, p) ==> Held(s, p, Opened(s.gates[p])))
  {
    hide Inv, Extends;
    var s' := Apply(s, step);
    ReachableHasInv(s);
    ApplyKeeps(s, step);
    ExtendsLog(s, s', p);
    GateAfter(s, step, p);
    if LetsThrough(s, step, p) {
      SameLog(s, step);
    } else if s'.gates[p].(fence := None) == s.gates[p].(fence := None) {
      var i :| 0 <= i < |s.log[p]| && HeldAt(s.log[p][i].row, s.gates[p]);
      assert HeldAt(s.log[p][i].row, s'.gates[p]);
      HeldStays(s, s', p, s'.gates[p]);
    } else {
      assert HeldAt(s.log[p][step.version].row, s'.gates[p]);
      HeldStays(s, s', p, s'.gates[p]);
    }
  }

  /** A gate that comes into being, for the first time or after a loss, shows a combination the row has had. */
  lemma ReturningGateIsHeld(s: Stores, step: Step, p: int)
    requires Reachable(s) && p !in s.gates && p in Apply(s, step).gates
    ensures Held(Apply(s, step), p, Apply(s, step).gates[p])
  {
    InstallsVersion(s, step, p);
    assert HeldAt(Apply(s, step).log[p][step.version].row, Apply(s, step).gates[p]);
  }

  lemma InstallsVersion(s: Stores, step: Step, p: int)
    requires p !in s.gates && p in Apply(s, step).gates
    ensures (step.Install? || step.Replace?) && step.p == p && Version(s, p, step.version)
    ensures Apply(s, step).log == s.log && Apply(s, step).gates[p] == Stable(s.log[p][step.version].row)
  {
    hide ValidEnvelope, Moved;
  }

  lemma ExtendsLog(s: Stores, s': Stores, p: int)
    requires Extends(s, s')
    ensures LogExtends(s, s', p)
  {}

  lemma SameLog(s: Stores, step: Step)
    requires step.Commit?
    ensures Apply(s, step).log == s.log
  {
    hide CommitFence;
  }

  // ----- a run that does

  /**
   The two halves of a gate need not go together.  The reply to an origin change's business
   transaction is lost, its publisher aborts the fence, a reconciler marks the operation
   committed; a status change then gets as far as its commit script although the other half
   of the gate is not the row's.  The script leaves a combination no version of the row had.
   */
  lemma GateShowsUnheldCombination() returns (t: Stores, s: Stores)
    ensures Reachable(t) && FenceIs(t, "y") && t.ops["y"].state.DbCommitted? && Held(t, 1, Gate(1, 1, Enabled, None))
    ensures Reachable(s) && s.log == t.log && s.HasRow(1) && 1 in s.gates && s.gates[1].fence == None && !Held(s, 1, s.gates[1])
    ensures forall i :: 0 <= i < |s.log[1]| ==>
      s.log[1][i].row.originRevision != s.gates[1].originRevision || s.log[1][i].row.statusRevision != s.gates[1].statusRevision
    ensures forall k :: k in s.ops ==> s.ops[k].state.Committed?
  {
    var g := Gate(1, 1, Enabled, None);
    var s0 := OriginLeftBehind();
    var s1 := StatusOpened(s0);
    var s2 := Fenced(s1, "y", ToDisabled, "Q", Version2.row, g);
    t := Transacted(s2, "y", ToDisabled, "Q", Version2.row, g.(fence := Some(FenceOf(ToDisabled, "y", "Q"))));
    s := Concluded(t, "y", ToDisabled, "Q", Version3.row, g, false);
    assert t.log[1] == [Version1, Version2] + [Version3];
    assert HeldAt(t.log[1][0].row, g);
    CommittedIsHeldIff(t, "y");
  }
}
