/** When a clear succeeds. */
module FaultLatchClears {
  import opened Common
  import opened FaultLatch

  /**
   The final delete opens the latch of its process exactly if the process has not latched
   since the clear began, the server is the one that was proved, and the shared key is empty
   or holds the token that was read at Begin.  Otherwise it leaves process and server alone.
   */
  lemma DeleteOpensIff(s: State, a: nat)
    requires InPhase(s, a, Committed)
    ensures var t, s' := s.attempts[a], Apply(s, Delete(a, false));
      var opens := !(s.procs[t.p].latched && s.procs[t.p].generation != t.generation) && Clears(s.redis, t.token, t.run);
      && t.p in s'.procs
      && (s'.log != s.log && s'.log[|s'.log| - 1] == OpenedBy(a, t.p) <==> opens)
      && (opens ==> !s'.procs[t.p].latched && Admits(s'.redis))
      && (!opens ==> s'.procs == s.procs && s'.redis == s.redis)
  {}

  /** The shared token and the proof stand as the attempt needs them, and its process has not latched since. */
  predicate AtPhase(s: State, a: nat, p: nat, phase: Phase) {
    && InPhase(s, a, phase) && s.attempts[a].p == p && s.attempts[a].generation == s.procs[p].generation
    && (!phase.Begun? ==> s.attempts[a].token == s.redis.shared && s.attempts[a].run == s.redis.run)
    && (phase.Committed? ==> s.redis.proof == Some(s.redis.run))
  }

  /** The state after these steps, one right after the other; a step that is not enabled does nothing. */
  function Play(s: State, steps: seq<Step>): State
    decreases |steps|
  {
    if steps == [] then s
    else
      var m := Play(s, steps[..|steps| - 1]);
      if Enabled(m, steps[|steps| - 1]) then Apply(m, steps[|steps| - 1]) else m
  }

  lemma PlayOn(s: State, steps: seq<Step>, step: Step)
    requires Enabled(Play(s, steps), step)
    ensures Play(s, steps + [step]) == Apply(Play(s, steps), step)
  {
    assert (steps + [step])[..|steps|] == steps;
  }

  lemma BeginsAndReads(s: State, p: nat, a: nat)
    requires p in s.procs && a !in s.attempts
    ensures AtPhase(Play(s, [Begin(a, p)] + [Read(a)]), a, p, HasRead) && Play(s, [Begin(a, p)] + [Read(a)]).procs == s.procs
  {
    PlayOn(s, [], Begin(a, p));
    assert [] + [Begin(a, p)] == [Begin(a, p)];
    PlayOn(s, [Begin(a, p)], Read(a));
  }

  lemma ChecksAndCommits(s: State, steps: seq<Step>, p: nat, a: nat)
    requires AtPhase(Play(s, steps), a, p, HasRead)
    ensures AtPhase(Play(s, steps + [Check(a)] + [Commit(a)]), a, p, Committed)
    ensures Play(s, steps + [Check(a)] + [Commit(a)]).procs == Play(s, steps).procs
  {
    PlayOn(s, steps, Check(a));
    PlayOn(s, steps + [Check(a)], Commit(a));
  }

  /**
   An undisturbed clear always succeeds: in whatever state, the Begin, read, check, commit
   and delete of a new attempt, with nothing in between, leave its process open, the shared
   key empty and this server proved, so that the process passes its local check and the
   server admits.  No other process changes.
   */
  lemma UndisturbedClearOpens(s: State, p: nat, a: nat)
    requires p in s.procs && a !in s.attempts
    ensures var s' := Play(s, [Begin(a, p), Read(a), Check(a), Commit(a), Delete(a, false)]);
      && p in s'.procs && !s'.procs[p].latched && Admits(s'.redis)
      && (forall q :: q in s.procs && q != p ==> q in s'.procs && s'.procs[q] == s.procs[q])
      && Enabled(s', LocalCheck(p)) && Apply(s', LocalCheck(p)).log == s'.log + [PassedLocally(p)] && Enabled(s', Admit)
  {
    hide Play;
    BeginsAndReads(s, p, a);
    var steps := [Begin(a, p)] + [Read(a)];
    ChecksAndCommits(s, steps, p, a);
    var four := steps + [Check(a)] + [Commit(a)];
    var m := Play(s, four);
    DeleteOpensIff(m, a);
    OthersStay(m, a);
    PlayOn(s, four, Delete(a, false));
    assert four + [Delete(a, false)] == [Begin(a, p), Read(a), Check(a), Commit(a), Delete(a, false)];
  }

  lemma OthersStay(s: State, a: nat)
    requires InPhase(s, a, Committed)
    ensures forall q :: q in s.procs && q != s.attempts[a].p ==> q in Apply(s, Delete(a, false)).procs && Apply(s, Delete(a, false)).procs[q] == s.procs[q]
  {}
}
