/** What start-up coordinators guarantee about the epoch over whole runs. */
module StateEpochRuns {
  import opened Common
  import opened StateEpoch
  import opened StateEpochInvariant

  lemma {:induction false} RunKeepsInv(run: seq<State>, i: nat)
    requires IsRun(run) && i < |run|
    ensures Inv(run[i])
  {
    if i == 0 {
      EmptyIsOk(run[0].stores);
    } else {
      RunKeepsInv(run, i - 1);
      assert Follows(run, i - 1);
      StepKeeps(run[i - 1], run[i]);
    }
  }

  lemma EmptyIsOk(s: Stores)
    requires s == Stores(None, map[], NoMarker, map[], [], {})
    ensures StoresOk(s)
  {
    forall k ensures OpOk(s, k) {}
    forall j, k ensures Alone(s, j, k) {}
    forall id ensures ReachedIfShown(s, id) {}
  }

  lemma {:induction false} RunExtends(run: seq<State>, i: nat, j: nat)
    requires IsRun(run) && i <= j < |run|
    ensures Extends(run[i].stores, run[j].stores)
    decreases j
  {
    if i < j {
      RunExtends(run, i, j - 1);
      RunKeepsInv(run, j - 1);
      assert Follows(run, j - 1);
      StepKeeps(run[j - 1], run[j]);
      ExtendsByOne(run[i].stores, run[j - 1].stores, run[j].stores);
    }
  }

  lemma ExtendsByOne(s: Stores, m: Stores, s': Stores)
    requires Extends(s, m) && Extends(m, s')
    ensures Extends(s, s')
  {}

  // ----- the guarantees

  /** Redis shows an epoch ready only after PostgreSQL has reached db_committed for it, and never one ahead of the row. */
  lemma MarkerFollowsPostgres(run: seq<State>, i: nat, id: Id)
    requires IsRun(run) && i < |run| && run[i].stores.marker.Ready(id)
    ensures exists k :: k in run[i].stores.ops && run[i].stores.ops[k].transition.next == id && run[i].stores.ops[k].state.Durable()
    ensures run[i].stores.row.Some? && id.revision <= run[i].stores.row.value.id.revision
  {
    RunKeepsInv(run, i);
    assert ReachedIfShown(run[i].stores, id);
  }

  /** A newly shown identity is the one the marker is now ready for. */
  lemma ShownStep(s: State, s': State)
    requires Next(s, s')
    ensures forall id :: id in s'.stores.shown && id !in s.stores.shown ==> s'.stores.marker.Ready(id)
  {
    var step :| NextBy(s, s', step);
    if step.Run? { EffectShows(s.stores, s.procs[step.p]); }
  }

  lemma EffectShows(s: Stores, l: Local)
    ensures forall id :: id in Effect(s, l).shown && id !in s.shown ==> Effect(s, l).marker.Ready(id)
  {}

  lemma {:induction false} ShownWasReady(run: seq<State>, i: nat, id: Id) returns (j: nat)
    requires IsRun(run) && i < |run| && id in run[i].stores.shown
    ensures j <= i && run[j].stores.marker.Ready(id)
    decreases i
  {
    if i > 0 {
      assert Follows(run, i - 1);
      ShownStep(run[i - 1], run[i]);
      if id in run[i - 1].stores.shown { j := ShownWasReady(run, i - 1, id); } else { j := i; }
    }
  }

  /** The row turns ready for an epoch only after Redis was ready for it. */
  lemma RowReadyFollowsMarker(run: seq<State>, i: nat)
    requires IsRun(run) && i < |run| && run[i].stores.row.Some? && run[i].stores.row.value.ready
    ensures exists j :: 0 <= j <= i && run[j].stores.marker.Ready(run[i].stores.row.value.id)
  {
    RunKeepsInv(run, i);
    var j := ShownWasReady(run, i, run[i].stores.row.value.id);
  }

  /** How the row may move: into existence at revision 1, from recovering to ready, or from ready to the next revision. */
  predicate RowStep(r: Option<Row>, r': Option<Row>) {
    || r' == r
    || (r.None? && r'.Some? && r'.value.id.revision == 1 && !r'.value.ready)
    || (r.Some? && !r.value.ready && r' == Some(r.value.(ready := true)))
    || (r.Some? && r.value.ready && r'.Some? && !r'.value.ready && r'.value.id.revision == r.value.id.revision + 1 &&
        r'.value.id.epoch != r.value.id.epoch)
  }

  /** The row revision rises by one at a time, never falls, and an epoch is never replaced at its revision. */
  lemma RowMovesByOne(run: seq<State>, i: nat)
    requires IsRun(run) && i + 1 < |run|
    ensures RowStep(run[i].stores.row, run[i + 1].stores.row)
  {
    RunKeepsInv(run, i);
    assert Follows(run, i);
    var step :| NextBy(run[i], run[i + 1], step);
    if step.Run? && run[i].procs[step.p].RecAdvance? {
      assert OpOk(run[i].stores, run[i].procs[step.p].op.token);
    }
  }

  /** At any moment at most one epoch operation is open, and while the row is recovering there is one. */
  lemma OneOperationOpen(run: seq<State>, i: nat, j: Token, k: Token)
    requires IsRun(run) && i < |run|
    ensures Open(run[i].stores, j) && Open(run[i].stores, k) ==> j == k
    ensures run[i].stores.row.Some? && !run[i].stores.row.value.ready ==> !NoneOpen(run[i].stores)
  {
    RunKeepsInv(run, i);
    assert Alone(run[i].stores, j, k);
  }

  /**
   Coordinators agree: whatever two of them report, ready or not, at whatever moments of a
   run, equal revisions come with equal epochs, and no report is ahead of the row.
   */
  lemma ReportsAgree(run: seq<State>, i: nat, j: nat, p: nat, q: nat)
    requires IsRun(run) && i <= j < |run| && p in run[i].procs && q in run[j].procs
    requires run[i].procs[p].Answered? && !run[i].procs[p].answer.Failed?
    requires run[j].procs[q].Answered? && !run[j].procs[q].answer.Failed?
    ensures var a, b := run[i].procs[p].answer.record.id, run[j].procs[q].answer.record.id;
      && (a.revision == b.revision ==> a == b)
      && run[i].stores.row.Some? && a.revision <= run[i].stores.row.value.id.revision
  {
    RunKeepsInv(run, i);
    RunKeepsInv(run, j);
    RunExtends(run, i, j);
    assert LocalOk(run[i].stores, run[i].procs[p]) && LocalOk(run[j].stores, run[j].procs[q]);
  }

  /** A coordinator that reports a ready row as ready does so after Redis was ready for that very identity. */
  lemma ReadyReportsAreProved(run: seq<State>, i: nat, p: nat)
    requires IsRun(run) && i < |run| && p in run[i].procs && run[i].procs[p].Answered?
    requires run[i].procs[p].answer.Ready? && run[i].procs[p].answer.record.ready
    ensures exists j :: 0 <= j <= i && run[j].stores.marker.Ready(run[i].procs[p].answer.record.id)
  {
    RunKeepsInv(run, i);
    assert LocalOk(run[i].stores, run[i].procs[p]);
    var j := ShownWasReady(run, i, run[i].procs[p].answer.record.id);
  }
}
