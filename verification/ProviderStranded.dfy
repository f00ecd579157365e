/** A provider operation that no reconciler can finish: how it comes about, and what it blocks. */
module ProviderStranded {
  import opened Common
  import opened ProviderControls
  import opened ProviderRuns
  import opened ProviderGuarantees
  import opened ProviderRecovery
  import opened ProviderExamples
  import P = Publication

  /** The business transaction went through on a row whose other half had moved. */
  predicate Stuck(s: Stores, k: Token) {
    k in s.ops && s.ops[k].state.DbCommitted? && !Reconcilable(s, k)
  }

  const StatusFirst := StatusEnvelope(1, Version1.row, Disabled)
  const Switched := Row("https://a", 1, Disabled, 2)

  lemma StatusOpenedFirst() returns (s: Stores)
    ensures Underway(s, "y", StatusFirst, "Q", P.Preparing, Version1.row, Gate(1, 1, Enabled, None))
    ensures s.log == map[1 := [Version1]] && s.keys == map[] && s.ops.Keys == {"y"}
  {
    assert Run(Empty, []) == Empty;
    var s1 := Apply(Empty, NewProvider(1, "https://a", Enabled));
    StepReaches(Empty, NewProvider(1, "https://a", Enabled));
    var s2 := Apply(s1, Install(1, 0));
    StepReaches(s1, Install(1, 0));
    s := Apply(s2, OpenStatus("y", 1, 0, Disabled, "Q", "Q"));
    StepReaches(s2, OpenStatus("y", 1, 0, Disabled, "Q", "Q"));
  }

  lemma StatusGoesThrough() returns (s: Stores)
    ensures Underway(s, "y", StatusFirst, "Q", P.Committed, Switched, Gate(1, 2, Disabled, None))
    ensures s.log == map[1 := [Version1, Change(Switched, Some("y"))]] && s.keys.Keys == {"y"} && s.ops.Keys == {"y"}
  {
    hide Underway;
    var g := Gate(1, 1, Enabled, None);
    var s1 := StatusOpenedFirst();
    var s2 := Fenced(s1, "y", StatusFirst, "Q", Version1.row, g);
    var s3 := Transacted(s2, "y", StatusFirst, "Q", Version1.row, g.(fence := Some(FenceOf(StatusFirst, "y", "Q"))));
    s := Concluded(s3, "y", StatusFirst, "Q", Switched, g, false);
    assert Moved(Version1.row, StatusFirst) == Switched;
    assert [Version1] + [Change(Switched, Some("y"))] == [Version1, Change(Switched, Some("y"))];
    ShowsFence(s3, "y", StatusFirst, "Q", Switched, g);
  }

  lemma ShowsFence(s: Stores, k: Token, e: Envelope, payload: Payload, row: Row, g: Gate)
    requires Underway(s, k, e, payload, P.DbCommitted, row, g.(fence := Some(FenceOf(e, k, payload))))
    ensures 1 in s.gates && s.gates[1] == g.(fence := Some(FenceOf(e, k, payload)))
  {}

  lemma OriginOpenedLate(s: Stores) returns (s': Stores)
    requires Underway(s, "y", StatusFirst, "Q", P.Committed, Switched, Gate(1, 2, Disabled, None))
    requires s.log == map[1 := [Version1, Change(Switched, Some("y"))]] && s.keys.Keys == {"y"} && s.ops.Keys == {"y"}
    ensures Underway(s', "x", ToB, "P", P.Preparing, Switched, Gate(1, 2, Disabled, None)) && s'.keys == s.keys
  {
    var open := OpenOrigin("x", 1, 0, "https://b", "P", "P");
    assert EnvelopeOf(s, open) == ToB;
    s' := Apply(s, open);
    StepReaches(s, open);
  }

  /**
   An origin change and a status change both start from the same row.  The status change goes
   through first; the origin change, whose locked validation looks at the origin revision
   alone, then commits as well, and its envelope no longer describes the row.
   */
  lemma StaleHalfGetsStuck() returns (s: Stores)
    ensures Reachable(s) && s.Open("x") && Stuck(s, "x") && ReconcileOp(s, "x").None?
  {
    var g := Gate(1, 2, Disabled, None);
    var s0 := StatusGoesThrough();
    var s1 := OriginOpenedLate(s0);
    var s2 := Fenced(s1, "x", ToB, "P", Switched, g);
    s := Transacted(s2, "x", ToB, "P", Switched, g.(fence := Some(FenceOf(ToB, "x", "P"))));
    ReconcilesIffOtherHalfCurrent(s, "x");
  }

  lemma StuckStep(s: Stores, step: Step, k: Token)
    requires Inv(s) && Latest(s) && Stuck(s, k) && Possible(s, step)
    ensures var p, s' := Provider(s, k), Effect(s, step);
      k in s'.ops && p in s.log && p in s'.log && s'.log[p] == s.log[p] &&
      s'.ops[k] == s.ops[k].(state := if step == SetCommitted(k) then P.Committed else P.DbCommitted)
  {
    hide PrepareFence, CommitFence, AbortFence, ValidEnvelope, Moved, LogsOk, OpsOk, GatesOk, KeysOk, Starts;
    assert LatestAt(s, k) && s.Open(k);
    NotArchived(s, k);
    if step.Business? { assert s.Open(step.k); }
  }

  /**
   Only the publisher's own retry can end a stuck operation.  Until then the provider's row
   stays as it is, no other operation on it can be opened, and no pass of either kind succeeds.
   */
  lemma {:induction false} StuckFreezesItsProvider(s: Stores, steps: seq<Step>, k: Token)
    requires Reachable(s) && Stuck(s, k)
    ensures Reachable(Run(s, steps))
    ensures var p, s' := Provider(s, k), Run(s, steps);
      && k in s'.ops && s'.ops[k].envelope == s.ops[k].envelope
      && (s'.ops[k].state.Committed? ||
          (Stuck(s', k) && s'.Open(k) && ReconcileOp(s', k).None? && !Idle(s', p) && p in s.log && p in s'.log && s'.log[p] == s.log[p]))
    decreases |steps|
  {
    hide ReconcileOp, Effect, Possible, Idle, Inv, Latest;
    if steps == [] {
      ReconcilesIffOtherHalfCurrent(s, k);
      OpenIsNotIdle(s, k);
    } else {
      var shorter := steps[..|steps| - 1];
      var t := Run(s, shorter);
      var step := steps[|steps| - 1];
      StuckFreezesItsProvider(s, shorter, k);
      StepReaches(t, step);
      ReachableIsLatest(t);
      RunExtends(t, [step]);
      assert Run(t, []) == t;
      assert Run(t, [step]) == Apply(t, step);
      assert OpExtends(t, Run(s, steps), k);
      if t.ops[k].state.DbCommitted? && Possible(t, step) {
        StuckStep(t, step, k);
      }
      if Stuck(Run(s, steps), k) {
        ReconcilesIffOtherHalfCurrent(Run(s, steps), k);
        OpenIsNotIdle(Run(s, steps), k);
      }
    }
  }

  lemma OpenIsNotIdle(s: Stores, k: Token)
    requires Reachable(s) && s.Open(k)
    ensures !Idle(s, Provider(s, k)) && Provider(s, k) in s.log
  {
    ReachableHasInv(s);
    assert OpOk(s, k);
  }

  // ----- fences that outlive their operation

  const Freed := Gate(1, 1, Enabled, None)

  /** An origin change whose fence is up while PostgreSQL still has it as preparing. */
  lemma FencedWhilePreparing() returns (s: Stores)
    ensures Reachable(s) && s.Open("x") && s.ops["x"].state.Preparing? && ReconcileOp(s, "x").Some?
    ensures Provider(s, "x") == 1 && 1 in s.gates && s.gates[1].fence.Some? && Orphaned(ReconcileOp(s, "x").value, 1)
  {
    var s1 := OriginOpened();
    FenceRoundTrip(s1.CellOf("x"), ToB, "x", "P");
    s := Apply(s1, Prepare("x"));
    StepReaches(s1, Prepare("x"));
    ReconcilesIffOtherHalfCurrent(s, "x");
    FenceOutlivesItsOperation(s, "x");
  }

  /** An origin change with its fence up that PostgreSQL has as prepared, and gives back in another text. */
  lemma FencedUnderAnotherText() returns (s: Stores)
    ensures Reachable(s) && s.Open("x") && s.ops["x"].state.Prepared? && s.ops["x"].stored != s.ops["x"].payload && ReconcileOp(s, "x").Some?
    ensures Provider(s, "x") == 1 && 1 in s.gates && s.gates[1].fence.Some? && Orphaned(ReconcileOp(s, "x").value, 1)
  {
    var s1 := OriginOpenedAs("P ");
    s := FencedAs(s1, "P ");
    ReconcilesIffOtherHalfCurrent(s, "x");
    FenceOutlivesItsOperation(s, "x");
  }

  lemma OriginOpenedAs(stored: Payload) returns (s: Stores)
    ensures Reachable(s) && s.ops == map["x" := RoutingOp(ToB, "P", stored, P.Preparing)] && s.keys == map[] && s.gates == map[1 := Freed]
  {
    assert Run(Empty, []) == Empty;
    var s1 := Apply(Empty, NewProvider(1, "https://a", Enabled));
    StepReaches(Empty, NewProvider(1, "https://a", Enabled));
    var s2 := Apply(s1, Install(1, 0));
    StepReaches(s1, Install(1, 0));
    s := Apply(s2, OpenOrigin("x", 1, 0, "https://b", "P", stored));
    StepReaches(s2, OpenOrigin("x", 1, 0, "https://b", "P", stored));
  }

  lemma FencedAs(s: Stores, stored: Payload) returns (s': Stores)
    requires Reachable(s) && s.ops == map["x" := RoutingOp(ToB, "P", stored, P.Preparing)] && s.keys == map[] && s.gates == map[1 := Freed]
    ensures Reachable(s') && "x" in s'.ops && s'.ops["x"] == RoutingOp(ToB, "P", stored, P.Prepared)
    ensures 1 in s'.gates && s'.gates[1].fence.Some?
  {
    FenceRoundTrip(s.CellOf("x"), ToB, "x", "P");
    var s1 := Apply(s, Prepare("x"));
    StepReaches(s, Prepare("x"));
    s' := Apply(s1, SetPrepared("x"));
    StepReaches(s1, SetPrepared("x"));
  }

  /** An origin change whose business transaction went through, with its fence up: what a commit call that never arrives meets. */
  lemma FencedAndDurable() returns (s: Stores)
    ensures Reachable(s) && s.Open("x") && s.ops["x"].state.DbCommitted? && ReconcileOp(s, "x").Some? && Provider(s, "x") == 1
    ensures s.HasRow(1) && 1 in s.gates && s.gates[1].fence.Some? && Orphaned(WentOn(s, "x"), 1)
  {
    var s1 := OriginOpened();
    var s2 := Fenced(s1, "x", ToB, "P", Version1.row, Freed);
    s := Transacted(s2, "x", ToB, "P", Version1.row, Freed.(fence := Some(FenceOf(ToB, "x", "P"))));
    ReconcilesIffOtherHalfCurrent(s, "x");
    UnheardCommitOrphansItsFence(s, "x");
  }
}
