/** The store states that runs of the publication protocol can reach. */
module Reachability {
  import opened Common
  import opened Publication
  import opened PublicationRuns

  ghost predicate EndsWith(run: seq<State>, s: Stores) {
    IsRun(run) && run[|run| - 1].stores == s
  }

  ghost predicate Reachable(s: Stores) {
    exists run :: EndsWith(run, s)
  }

  /** In some reachable state with these stores, a process is at this point. */
  ghost predicate HeldBy(run: seq<State>, p: nat, s: Stores, l: Local) {
    EndsWith(run, s) && p in run[|run| - 1].procs && run[|run| - 1].procs[p] == l
  }

  ghost predicate Holding(s: Stores, l: Local) {
    exists run, p :: HeldBy(run, p, s, l)
  }

  lemma Extend(run: seq<State>, s': State, step: Step)
    requires IsRun(run) && NextBy(run[|run| - 1], s', step)
    ensures IsRun(run + [s'])
  {
    var longer := run + [s'];
    forall i: nat ensures Follows(longer, i) {
      assert Follows(run, i);
    }
  }

  lemma StartHolds(s: Stores, l: Local)
    requires Reachable(s) && Starts(s, l)
    ensures Holding(s, l)
  {
    var run: seq<State> :| EndsWith(run, s);
    var last := run[|run| - 1];
    var p := Unused(last.procs.Keys);
    var next := last.(procs := last.procs[p := l]);
    Extend(run, next, Step.Start(p, l));
    assert HeldBy(run + [next], p, s, l);
  }

  lemma RunHolds(s: Stores, l: Local, s': Stores, l': Local)
    requires Holding(s, l)
    requires PublisherStep(s, l, s', l') || ReconcilerStep(s, l, s', l')
    ensures Holding(s', l') && Reachable(s')
  {
    var run: seq<State>, p: nat :| HeldBy(run, p, s, l);
    var last := run[|run| - 1];
    var next := State(s', last.procs[p := l']);
    Extend(run, next, Step.Run(p, l'));
    assert EndsWith(run + [next], s');
    assert HeldBy(run + [next], p, s', l');
  }

  lemma HeldIsReachable(s: Stores, l: Local)
    requires Holding(s, l)
    ensures Reachable(s)
  {
    var run: seq<State>, p: nat :| HeldBy(run, p, s, l);
    assert EndsWith(run, s);
  }

  lemma InitIsReachable(s: Stores)
    requires Init(State(s, map[]))
    ensures Reachable(s)
  {
    var run := [State(s, map[])];
    assert forall i: nat :: Follows(run, i);
    assert EndsWith(run, s);
  }

  /** What every reachable store state satisfies. */
  predicate Good(s: Stores) {
    StoresOk(s) && Exclusive(s) && OpenIsCurrent(s)
  }

  lemma ReachableIsGood(s: Stores)
    requires Reachable(s)
    ensures Good(s)
  {
    var run: seq<State> :| EndsWith(run, s);
    RunKeepsInv(run, |run| - 1);
    OneOpenOperation(run, |run| - 1);
  }
}
