/**
 Whether a clear can erase a fault that is newer than it.  It never deletes another token
 than its own, but a late publication of its own token can take the place of a newer one.
 */
module FaultLatchErasures {
  import opened Common
  import opened FaultLatch
  import opened FaultLatchRuns

  predicate Removes(e: Event) {
    e.ErasedBy? || e.Forgotten?
  }

  lemma {:induction false} Removed(log: seq<Event>, k: nat, n: nat) returns (m: nat)
    requires k < n <= |log| && log[k].Stored? && SharedAt(log, n).None?
    ensures k < m < n && Removes(log[m])
    decreases n
  {
    if Removes(log[n - 1]) { m := n - 1; } else { m := Removed(log, k, n - 1); }
  }

  lemma {:induction false} Overwritten(log: seq<Event>, k: nat, n: nat, t: Token) returns (m: nat)
    requires LogOk(log) && k < n <= |log| && log[k].Stored? && log[k].token != t && SharedAt(log, n) == Some(t)
    ensures k < m < n && (Removes(log[m]) || log[m] == Stored(t, true))
    decreases n
  {
    assert FillOk(log, n - 1);
    if log[n - 1] == Stored(t, true) { m := n - 1; }
    else if log[n - 1].Stored? { m := Removed(log, k, n - 1); }
    else { m := Overwritten(log, k, n - 1, t); }
  }

  /**
   When a clear erases its token although another fault was published before the erasure,
   then since that publication either a delayed replacing publication of the erased token has
   arrived, or the shared token had been removed in between.
   */
  lemma NewerFaultIsErasedOnlyIfOverwritten(run: seq<State>, n: nat, d: nat, a: nat, t: Token, k: nat)
    requires IsRun(run) && n < |run| && k < d < |run[n].log| && run[n].log[d] == ErasedBy(a, t)
    requires run[n].log[k].Stored? && run[n].log[k].token != t
    ensures exists m: nat :: k < m < d && (Removes(run[n].log[m]) || run[n].log[m] == Stored(t, true))
  {
    RunKeepsInv(run, n);
    assert EraseOk(run[n].log, d);
    var m := Overwritten(run[n].log, k, d, t);
  }

  // ----- a token whose publication has landed or been dropped

  /** The fault of this token has been found, and its replacing publication is not on its way any more. */
  ghost predicate Landed(s: State, t: Token) {
    EverLatched(s.log, t) && Command(t, true) !in s.flight
  }

  /** Only an arriving publication stores a token, and only a clear's delete erases one. */
  lemma LogAfter(s: State, step: Step)
    requires Enabled(s, step)
    ensures s.log <= Apply(s, step).log
    ensures forall k :: |s.log| <= k < |Apply(s, step).log| ==> EventOf(s, step, Apply(s, step).log[k])
  {
    hide EraseShared, Publish;
    if step.Delete? { DeleteAfter(s, step.a, step.silent); }
  }

  predicate EventOf(s: State, step: Step, e: Event) {
    && (e.Stored? ==> step.Arrive? && e == Stored(step.c.token, step.c.replace))
    && (e.ErasedBy? ==> step.Delete? && e.a == step.a && step.a in s.attempts && s.attempts[step.a].run == s.redis.run)
  }

  lemma DeleteAfter(s: State, a: nat, silent: bool)
    requires InPhase(s, a, Committed)
    ensures s.log <= ApplyDelete(s, a, silent).log
    ensures forall k :: |s.log| <= k < |ApplyDelete(s, a, silent).log| ==> EventOf(s, Delete(a, silent), ApplyDelete(s, a, silent).log[k])
  {}

  /** A replacing publication is sent only when its token is latched. */
  lemma FlightAfter(s: State, step: Step, t: Token)
    requires Enabled(s, step) && Command(t, true) in Apply(s, step).flight && Command(t, true) !in s.flight
    ensures (step.Raise? || step.Ensure?) && t == Token(s.procs[step.p].instance, s.procs[step.p].generation + 1)
  {
    hide EraseShared, Publish;
  }

  lemma LandedStep(s: State, s': State, t: Token)
    requires Inv(s) && Next(s, s') && Landed(s, t)
    ensures Landed(s', t) && s.log <= s'.log
    ensures forall k :: |s.log| <= k < |s'.log| ==> s'.log[k] != Stored(t, true)
  {
    hide Apply, LogOk, ServerOk;
    var step :| NextBy(s, s', step);
    LogAfter(s, step);
    LatchedStable(s.log, s'.log, t);
    if Command(t, true) in s'.flight {
      FlightAfter(s, step, t);
      NewTokenIsNew(s, step.p, t);
    }
  }

  lemma NewTokenIsNew(s: State, p: nat, t: Token)
    requires Inv(s) && p in s.procs && EverLatched(s.log, t)
    ensures t != Token(s.procs[p].instance, s.procs[p].generation + 1)
  {
    var j :| Latched(s.log, j, t);
    assert LatchOk(s, j) && ProcOk(s, p);
  }

  lemma {:induction false} StaysLanded(run: seq<State>, i: nat, n: nat, t: Token)
    requires IsRun(run) && i <= n < |run| && Landed(run[i], t)
    ensures Landed(run[n], t) && run[i].log <= run[n].log
    ensures forall k :: |run[i].log| <= k < |run[n].log| ==> run[n].log[k] != Stored(t, true)
    decreases n
  {
    if i < n {
      StaysLanded(run, i, n - 1, t);
      RunKeepsInv(run, n - 1);
      assert Follows(run, n - 1);
      LandedStep(run[n - 1], run[n], t);
    }
  }

  /**
   Once no replacing publication of a token is on its way, a fault that gets published after
   that is never erased by a clear of this token, unless the shared token was removed in
   between.
   */
  lemma NewerFaultIsSafeOnceLanded(run: seq<State>, i: nat, n: nat, t: Token, k: nat, d: nat, a: nat)
    requires IsRun(run) && i <= n < |run| && Landed(run[i], t)
    requires |run[i].log| <= k < d < |run[n].log| && run[n].log[d] == ErasedBy(a, t)
    requires run[n].log[k].Stored? && run[n].log[k].token != t
    ensures exists m: nat :: k < m < d && Removes(run[n].log[m])
  {
    StaysLanded(run, i, n, t);
    NewerFaultIsErasedOnlyIfOverwritten(run, n, d, a, t, k);
  }

  ghost predicate EndsAt(run: seq<State>, s: State) {
    IsRun(run) && run[|run| - 1] == s
  }

  ghost predicate Reachable(s: State) {
    exists run :: EndsAt(run, s)
  }

  lemma ReachableHasInv(s: State)
    requires Reachable(s)
    ensures Inv(s)
  {
    var run: seq<State> :| EndsAt(run, s);
    RunKeepsInv(run, |run| - 1);
  }

  lemma Do(s: State, step: Step) returns (s': State)
    requires Reachable(s) && Enabled(s, step)
    ensures s' == Apply(s, step) && Reachable(s')
  {
    s' := Apply(s, step);
    var run: seq<State> :| EndsAt(run, s);
    var longer := run + [s'];
    assert NextBy(s, s', step);
    forall i: nat ensures Follows(longer, i) { assert Follows(run, i); }
    assert EndsAt(longer, s');
  }

  // ----- exactly when a clear that is about to delete can erase a newer fault

  ghost predicate Through(run: seq<State>, i: nat, s: State, s': State) {
    EndsAt(run, s') && i < |run| && run[i] == s
  }

  /** Some continuation leads from one state to the other. */
  ghost predicate Leads(s: State, s': State) {
    exists run, i :: Through(run, i, s, s')
  }

  lemma Then(s: State, m: State, step: Step) returns (s': State)
    requires Leads(s, m) && Enabled(m, step)
    ensures s' == Apply(m, step) && Leads(s, s')
  {
    hide Apply, Enabled;
    s' := Apply(m, step);
    var run: seq<State>, i: nat :| Through(run, i, s, m);
    var longer := run + [s'];
    assert NextBy(m, s', step);
    forall j: nat ensures Follows(longer, j) { assert Follows(run, j); }
    assert Through(longer, i, s, s');
  }

  lemma LeadsToItself(s: State)
    requires Reachable(s)
    ensures Leads(s, s)
  {
    var run: seq<State> :| EndsAt(run, s);
    assert Through(run, |run| - 1, s, s);
  }

  /** The log tells of another fault that was published after `from`, stood, and was erased by this clear. */
  predicate Lost(log: seq<Event>, from: nat, a: nat, t: Token, k: nat, d: nat) {
    && from <= k < d < |log| && log[k].Stored? && log[k].token != t && log[d] == ErasedBy(a, t)
    && forall m :: k < m < d ==> !Removes(log[m])
  }

  ghost predicate CanLoseNewer(s: State, a: nat, t: Token) {
    exists s', k, d :: Leads(s, s') && Lost(s'.log, |s.log|, a, t, k, d)
  }

  /** The server has been restarted since this clear began. */
  predicate Outlived(s: State, a: nat) {
    a in s.attempts && (s.attempts[a].phase.Committed? || s.attempts[a].phase.Finished?) && s.redis.run > s.attempts[a].run
  }

  lemma OutlivedAfter(s: State, step: Step, a: nat)
    requires Enabled(s, step) && Outlived(s, a)
    ensures Outlived(Apply(s, step), a)
  {
    hide EraseShared;
    if step.Delete? { RunAfterDelete(s, step.a, step.silent, a); }
  }

  lemma RunAfterDelete(s: State, b: nat, silent: bool, a: nat)
    requires InPhase(s, b, Committed) && Outlived(s, a)
    ensures Outlived(ApplyDelete(s, b, silent), a)
  {}

  lemma OutlivedStep(s: State, s': State, a: nat)
    requires Next(s, s') && Outlived(s, a)
    ensures Outlived(s', a) && s.log <= s'.log
    ensures forall k :: |s.log| <= k < |s'.log| && s'.log[k].ErasedBy? ==> s'.log[k].a != a
  {
    hide Apply;
    var step :| NextBy(s, s', step);
    LogAfter(s, step);
    OutlivedAfter(s, step, a);
  }

  lemma {:induction false} StaysOutlived(run: seq<State>, i: nat, n: nat, a: nat)
    requires IsRun(run) && i <= n < |run| && Outlived(run[i], a)
    ensures Outlived(run[n], a) && run[i].log <= run[n].log
    ensures forall k :: |run[i].log| <= k < |run[n].log| && run[n].log[k].ErasedBy? ==> run[n].log[k].a != a
    decreases n
  {
    if i < n {
      StaysOutlived(run, i, n - 1, a);
      assert Follows(run, n - 1);
      OutlivedStep(run[n - 1], run[n], a);
    }
  }

  /** A clear about to delete the token it read at its Begin. */
  predicate AboutToDelete(s: State, a: nat, t: Token) {
    InPhase(s, a, Committed) && s.attempts[a].token == Some(t)
  }

  lemma ReadTokenWasLatched(s: State, a: nat, t: Token)
    requires Inv(s) && AboutToDelete(s, a, t)
    ensures EverLatched(s.log, t) && s.attempts[a].run <= s.redis.run
  {
    assert AttemptOk(s, a);
    var j: nat :| j < s.attempts[a].read && Latched(s.log, j, t);
    RunNeverFalls(s.log, s.attempts[a].read, |s.log|);
  }

  lemma LosesOnlyIf(s: State, a: nat, t: Token)
    requires Reachable(s) && AboutToDelete(s, a, t) && CanLoseNewer(s, a, t)
    ensures Command(t, true) in s.flight && s.redis.run == s.attempts[a].run
  {
    ReachableHasInv(s);
    ReadTokenWasLatched(s, a, t);
    var s': State, k: nat, d: nat :| Leads(s, s') && Lost(s'.log, |s.log|, a, t, k, d);
    var run: seq<State>, i: nat :| Through(run, i, s, s');
    if s.redis.run > s.attempts[a].run {
      StaysOutlived(run, i, |run| - 1, a);
    }
    if Command(t, true) !in s.flight {
      NewerFaultIsSafeOnceLanded(run, i, |run| - 1, t, k, d, a);
    }
  }

  /** The clear is about to delete, its publication is on its way, and its server still runs. */
  predicate InDoubt(s: State, a: nat, t: Token) {
    AboutToDelete(s, a, t) && Command(t, true) in s.flight && s.redis.run == s.attempts[a].run
  }

  /** Another attempt of the same process goes through first, which opens the process and proves the server. */
  lemma ProcessOpens(s: State, a: nat, t: Token) returns (m: State)
    requires Reachable(s) && InDoubt(s, a, t)
    ensures Leads(s, m) && Cleared(m, a, t) && |s.log| <= |m.log|
  {
    var b := Unused(s.attempts.Keys);
    var p := s.attempts[a].p;
    LeadsToItself(s);
    m := Then(s, s, Begin(b, p));
    m := Then(s, m, Read(b));
    m := Then(s, m, Check(b));
    m := Then(s, m, Commit(b));
    var l := m.procs[p];
    m := OwnDelete(s, m, a, b, t);
  }

  predicate Cleared(m: State, a: nat, t: Token) {
    InDoubt(m, a, t) && !m.procs[m.attempts[a].p].latched && m.redis.proof == Some(m.redis.run)
  }

  lemma OwnDelete(s: State, m: State, a: nat, b: nat, t: Token) returns (m': State)
    requires Leads(s, m) && InDoubt(m, a, t) && InPhase(m, b, Committed) && b != a && |s.log| <= |m.log|
    requires var x := m.attempts[b]; x.p == m.attempts[a].p && x.generation == m.procs[x.p].generation
    requires m.attempts[b].run == m.redis.run && m.redis.proof == Some(m.redis.run) && m.attempts[b].token == m.redis.shared
    ensures Leads(s, m') && Cleared(m', a, t) && |s.log| <= |m'.log|
  {
    m' := Then(s, m, Delete(b, false));
  }

  /** A new process finds a fault and sends its token. */
  lemma FindsFault(s: State, m: State, a: nat, t: Token) returns (m': State, u: Token)
    requires Leads(s, m) && Inv(m) && Cleared(m, a, t) && EverLatched(m.log, t)
    ensures Leads(s, m') && Cleared(m', a, t) && u != t && Command(u, true) in m'.flight && |m'.log| >= |m.log|
  {
    var q := Unused(m.procs.Keys);
    var j :| Latched(m.log, j, t);
    assert LatchOk(m, j);
    u := Token(q, 1);
    m' := Then(s, m, Boot(q));
    m' := Then(s, m', Raise(q));
  }

  /** It is published, and then the late publication takes its place. */
  lemma TakesItsPlace(s: State, m: State, a: nat, t: Token, u: Token) returns (m': State)
    requires Leads(s, m) && Cleared(m, a, t) && u != t && Command(u, true) in m.flight
    ensures Leads(s, m') && m'.log == m.log + [Stored(u, true), Stored(t, true)] && AboutToDelete(m', a, t)
    ensures !m'.procs[m'.attempts[a].p].latched && m'.attempts[a].run == m'.redis.run
    ensures m'.redis == Redis(Some(t), Some(m'.redis.run), m'.redis.run)
  {
    m' := Then(s, m, Arrive(Command(u, true)));
    m' := Then(s, m', Arrive(Command(t, true)));
  }

  lemma NewerFaultGoes(s: State, m: State, a: nat, t: Token) returns (s': State, k: nat)
    requires Leads(s, m) && Inv(m) && Cleared(m, a, t) && |s.log| <= |m.log| && EverLatched(m.log, t)
    ensures Leads(s, s') && Lost(s'.log, |s.log|, a, t, k, k + 2)
  {
    hide Inv, Leads, Cleared, AboutToDelete;
    var m1, u := FindsFault(s, m, a, t);
    var m2 := TakesItsPlace(s, m1, a, t, u);
    s' := DeletesIts(s, m2, a, t);
    k := |m1.log|;
    assert s'.log[k] == m2.log[k] && s'.log[k + 1] == m2.log[k + 1];
    assert s'.log[k + 2] == (m2.log + [ErasedBy(a, t)])[k + 2];
  }

  lemma DeletesIts(s: State, m: State, a: nat, t: Token) returns (s': State)
    requires Leads(s, m) && AboutToDelete(m, a, t) && !m.procs[m.attempts[a].p].latched
    requires m.attempts[a].run == m.redis.run && m.redis == Redis(Some(t), Some(m.redis.run), m.redis.run)
    ensures Leads(s, s') && |s'.log| > |m.log| && m.log + [ErasedBy(a, t)] == s'.log[..|m.log| + 1]
  {
    s' := Then(s, m, Delete(a, false));
  }

  /**
   A clear that is about to delete its token can still erase a fault newer than this moment
   if and only if a replacing publication of that token is on its way and the server has not
   been restarted since the clear began.
   */
  lemma LosesNewerIff(s: State, a: nat, t: Token)
    requires Reachable(s) && AboutToDelete(s, a, t)
    ensures CanLoseNewer(s, a, t) <==> Command(t, true) in s.flight && s.redis.run == s.attempts[a].run
  {
    if CanLoseNewer(s, a, t) { LosesOnlyIf(s, a, t); }
    if InDoubt(s, a, t) {
      var m := ProcessOpens(s, a, t);
      LeadsIsReachable(s, m);
      ReachableHasInv(m);
      ReadTokenWasLatched(m, a, t);
      var s', k := NewerFaultGoes(s, m, a, t);
    }
  }

  lemma LeadsIsReachable(s: State, m: State)
    requires Leads(s, m)
    ensures Reachable(m)
  {
    var run: seq<State>, i: nat :| Through(run, i, s, m);
    assert EndsAt(run, m);
  }

  // ----- a run in which it does

  const OLDER := Token(0, 1)
  const NEWER := Token(2, 1)

  const THREE := map[0 := Latch(0, 1, true, Some(OLDER)), 1 := Latch(1, 0, false, None), 2 := Latch(2, 0, false, None)]

  /** The token of process 0 got to Redis by a repeated check, its replacing publication is still on its way. */
  lemma FilledBeforeStored() returns (s: State)
    ensures Reachable(s)
    ensures s == State(THREE, Redis(Some(OLDER), None, 0), multiset{Command(OLDER, true)}, map[], [LatchedBy(0, 1), Stored(OLDER, false)])
  {
    s := State(map[], Redis(None, None, 0), multiset{}, map[], []);
    assert forall i: nat :: Follows([s], i);
    assert EndsAt([s], s);
    s := Do(s, Boot(0));
    s := Do(s, Boot(1));
    s := Do(s, Boot(2));
    s := FilledByCheck(s);
  }

  lemma FilledByCheck(s: State) returns (s': State)
    requires Reachable(s)
    requires s == State(THREE[0 := Latch(0, 0, false, None)], Redis(None, None, 0), multiset{}, map[], [])
    ensures Reachable(s')
    ensures s' == State(THREE, Redis(Some(OLDER), None, 0), multiset{Command(OLDER, true)}, map[], [LatchedBy(0, 1), Stored(OLDER, false)])
  {
    s' := Do(s, Raise(0));
    assert s'.flight == multiset{Command(OLDER, true)} && s'.procs == THREE;
    s' := Do(s', LocalCheck(0));
    s' := Do(s', Arrive(Command(OLDER, false)));
  }

  /** A clear of process 1 reads that token and proves the controls. */
  lemma ProvedWhileInFlight() returns (s: State)
    ensures Reachable(s)
    ensures s == State(THREE, Redis(Some(OLDER), Some(0), 0), multiset{Command(OLDER, true)},
                       map[7 := Attempt(1, Committed, 0, 2, 3, Some(OLDER), 0)],
                       [LatchedBy(0, 1), Stored(OLDER, false), Began(7, 1), ReadShared(7), Proved(7, 0)])
  {
    s := FilledBeforeStored();
    s := Do(s, Begin(7, 1));
    assert s.attempts == map[7 := Attempt(1, Begun, 0, 2, 0, None, 0)];
    s := Do(s, Read(7));
    assert s.attempts == map[7 := Attempt(1, HasRead, 0, 2, 3, Some(OLDER), 0)];
    s := Do(s, Check(7));
    s := Do(s, Commit(7));
  }

  /**
   A fault that was latched and published after a reconciliation began can be erased from
   Redis by the clear of that reconciliation, when the replacing publication of an older
   fault arrives late.  The process that found it stays closed and fills its token in again
   at its next check; until then the others admit.
   */
  lemma NewerFaultCanBeErased() returns (s: State, b: nat, j: nat, k: nat, d: nat)
    ensures Reachable(s) && b < j < k < d < |s.log|
    ensures s.log[b] == Began(7, 1) && s.log[j] == LatchedBy(2, 1) && s.log[k] == Stored(NEWER, true)
    ensures s.log[d] == ErasedBy(7, OLDER) && (forall i :: k < i < d ==> !Removes(s.log[i]))
    ensures Admits(s.redis) && 2 in s.procs && s.procs[2].latched
  {
    s := ProvedWhileInFlight();
    b := 2;
    j := |s.log|;
    s := Do(s, Raise(2));
    k := |s.log|;
    s := Do(s, Arrive(Command(NEWER, true)));
    s := Do(s, Arrive(Command(OLDER, true)));
    d := |s.log|;
    s := Do(s, Delete(7, false));
  }
}
