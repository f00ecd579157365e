/** What the fault latch guarantees over whole runs, told by the log of what happened. */
module FaultLatchRuns {
  import opened Common
  import opened FaultLatch

  // ----- reading the log

  predicate Latched(log: seq<Event>, j: nat, t: Token) {
    j < |log| && log[j] == LatchedBy(t.instance, t.generation)
  }

  /** The shared token after the first `n` events. */
  function SharedAt(log: seq<Event>, n: nat): Option<Token>
    requires n <= |log|
  {
    if n == 0 then None
    else match log[n - 1]
      case Stored(t, _) => Some(t)
      case ErasedBy(_, _) => None
      case Forgotten => None
      case _ => SharedAt(log, n - 1)
  }

  /** The run id of the server after the first `n` events. */
  function RunAt(log: seq<Event>, n: nat): nat
    requires n <= |log|
  {
    if n == 0 then 0 else if log[n - 1].Restarted? then log[n - 1].run else RunAt(log, n - 1)
  }

  /** After the latch at `j` and before `i`, process `p` began a reconciliation that went on to open its latch. */
  predicate Opening(log: seq<Event>, p: nat, j: nat, i: nat, a: nat, b: nat, c: nat) {
    j < b < c < i <= |log| && log[b] == Began(a, p) && log[c] == OpenedBy(a, p)
  }

  ghost predicate Excused(log: seq<Event>, p: nat, j: nat, i: nat) {
    exists a, b, c :: Opening(log, p, j, i, a, b, c)
  }

  /** Before `i` a clear proved this server instance, having begun on it. */
  predicate Proving(log: seq<Event>, run: nat, i: nat, a: nat, b: nat, c: nat) {
    b < c < i <= |log| && log[b] == ReadShared(a) && log[c] == Proved(a, run) && RunAt(log, b) == run
  }

  ghost predicate ProvedBefore(log: seq<Event>, run: nat, i: nat) {
    exists a, b, c :: Proving(log, run, i, a, b, c)
  }

  // ----- what the log says about every admission and every erasure

  ghost predicate PassOk(log: seq<Event>, i: nat, j: nat) {
    j < i < |log| && log[i].PassedLocally? && log[j].LatchedBy? && log[j].p == log[i].p ==> Excused(log, log[i].p, j, i)
  }

  predicate Reading(log: seq<Event>, d: nat, a: nat, r: nat, j: nat, t: Token) {
    j < r < d <= |log| && log[r] == ReadShared(a) && SharedAt(log, r) == Some(t) && Latched(log, j, t)
  }

  ghost predicate EraseOk(log: seq<Event>, d: nat) {
    d < |log| && log[d].ErasedBy? ==>
      SharedAt(log, d) == Some(log[d].token) && exists r, j :: Reading(log, d, log[d].a, r, j, log[d].token)
  }

  /** A publication that does not replace finds no token. */
  predicate FillOk(log: seq<Event>, i: nat) {
    i < |log| && log[i].Stored? && !log[i].replacing ==> SharedAt(log, i).None?
  }

  ghost predicate AdmitOk(log: seq<Event>, i: nat) {
    i < |log| && log[i].Admitted? ==> SharedAt(log, i).None? && ProvedBefore(log, RunAt(log, i), i)
  }

  predicate RestartOk(log: seq<Event>, i: nat) {
    i < |log| && log[i].Restarted? ==> log[i].run > RunAt(log, i)
  }

  predicate Rising(log: seq<Event>, j: nat, k: nat) {
    j < k < |log| && log[j].LatchedBy? && log[k].LatchedBy? && log[j].p == log[k].p ==> log[j].generation < log[k].generation
  }

  ghost predicate LogOk(log: seq<Event>) {
    && (forall i, j {:trigger PassOk(log, i, j)} :: PassOk(log, i, j))
    && (forall d {:trigger EraseOk(log, d)} :: EraseOk(log, d))
    && (forall i {:trigger AdmitOk(log, i)} :: AdmitOk(log, i))
    && (forall i {:trigger RestartOk(log, i)} :: RestartOk(log, i))
    && (forall i {:trigger FillOk(log, i)} :: FillOk(log, i))
    && (forall j, k {:trigger Rising(log, j, k)} :: Rising(log, j, k))
  }

  // ----- what the processes, the server and the attempts have to do with the log

  ghost predicate EverLatched(log: seq<Event>, t: Token) {
    exists j :: Latched(log, j, t)
  }

  ghost predicate ProcOk(s: State, p: nat) {
    p in s.procs ==>
      var l := s.procs[p];
      l.instance == p && l.token == (if l.latched then Some(Token(p, l.generation)) else None) &&
      (l.latched ==> EverLatched(s.log, Token(p, l.generation)))
  }

  /** A latch event belongs to its process, which is still closed unless the latch has been excused. */
  ghost predicate LatchOk(s: State, j: nat) {
    j < |s.log| && s.log[j].LatchedBy? ==>
      var p := s.log[j].p;
      p in s.procs && s.log[j].generation <= s.procs[p].generation && (s.procs[p].latched || Excused(s.log, p, j, |s.log|))
  }

  predicate NewerOk(s: State, a: nat, j: nat) {
    a in s.attempts && s.attempts[a].begun < j < |s.log| && s.log[j].LatchedBy? && s.log[j].p == s.attempts[a].p ==>
      s.log[j].generation > s.attempts[a].generation
  }

  ghost predicate AttemptOk(s: State, a: nat) {
    a in s.attempts ==>
      var t := s.attempts[a];
      && t.p in s.procs && t.generation <= s.procs[t.p].generation
      && t.begun < |s.log| && s.log[t.begun] == Began(a, t.p)
      && (!t.phase.Begun? ==>
            && t.begun < t.read < |s.log| && s.log[t.read] == ReadShared(a)
            && RunAt(s.log, t.read) == t.run && SharedAt(s.log, t.read) == t.token
            && (t.token.Some? ==> exists j: nat :: j < t.read && Latched(s.log, j, t.token.value)))
  }

  ghost predicate ServerOk(s: State) {
    && SharedAt(s.log, |s.log|) == s.redis.shared && RunAt(s.log, |s.log|) == s.redis.run
    && (s.redis.shared.Some? ==> EverLatched(s.log, s.redis.shared.value))
    && (s.redis.proof.Some? ==> ProvedBefore(s.log, s.redis.proof.value, |s.log|))
  }

  ghost predicate CommandOk(s: State, c: Command) {
    c in s.flight ==> EverLatched(s.log, c.token)
  }

  ghost predicate Inv(s: State) {
    && LogOk(s.log) && ServerOk(s)
    && (forall p {:trigger ProcOk(s, p)} :: ProcOk(s, p))
    && (forall j {:trigger LatchOk(s, j)} :: LatchOk(s, j))
    && (forall a, j {:trigger NewerOk(s, a, j)} :: NewerOk(s, a, j))
    && (forall a {:trigger AttemptOk(s, a)} :: AttemptOk(s, a))
    && (forall c {:trigger CommandOk(s, c)} :: CommandOk(s, c))
  }

  // ----- a longer log says the same about its past

  lemma {:induction false} SharedAtStable(log: seq<Event>, log': seq<Event>, n: nat)
    requires log <= log' && n <= |log|
    ensures SharedAt(log', n) == SharedAt(log, n)
  {
    if n > 0 { SharedAtStable(log, log', n - 1); }
  }

  lemma {:induction false} RunAtStable(log: seq<Event>, log': seq<Event>, n: nat)
    requires log <= log' && n <= |log|
    ensures RunAt(log', n) == RunAt(log, n)
  {
    if n > 0 { RunAtStable(log, log', n - 1); }
  }

  lemma ExcusedStable(log: seq<Event>, log': seq<Event>, p: nat, j: nat, i: nat, i': nat)
    requires log <= log' && Excused(log, p, j, i) && i <= i' <= |log'|
    ensures Excused(log', p, j, i')
  {
    var a, b, c :| Opening(log, p, j, i, a, b, c);
    assert Opening(log', p, j, i', a, b, c);
  }

  lemma ProvedStable(log: seq<Event>, log': seq<Event>, run: nat, i: nat, i': nat)
    requires log <= log' && ProvedBefore(log, run, i) && i <= i' <= |log'|
    ensures ProvedBefore(log', run, i')
  {
    var a, b, c :| Proving(log, run, i, a, b, c);
    RunAtStable(log, log', b);
    assert Proving(log', run, i', a, b, c);
  }

  lemma LatchedStable(log: seq<Event>, log': seq<Event>, t: Token)
    requires log <= log' && EverLatched(log, t)
    ensures EverLatched(log', t)
  {
    var j :| Latched(log, j, t);
    assert Latched(log', j, t);
  }

  lemma EraseStable(log: seq<Event>, log': seq<Event>, d: nat)
    requires log <= log' && d < |log| && EraseOk(log, d)
    ensures EraseOk(log', d)
  {
    if log[d].ErasedBy? {
      var r, j :| Reading(log, d, log[d].a, r, j, log[d].token);
      SharedAtStable(log, log', r);
      SharedAtStable(log, log', d);
      assert Reading(log', d, log[d].a, r, j, log[d].token);
    }
  }

  lemma AdmitStable(log: seq<Event>, log': seq<Event>, i: nat)
    requires log <= log' && i < |log| && AdmitOk(log, i)
    ensures AdmitOk(log', i)
  {
    SharedAtStable(log, log', i);
    RunAtStable(log, log', i);
    if log[i].Admitted? { ProvedStable(log, log', RunAt(log, i), i, i); }
  }

  /** Adding one event leaves what was said about the others. */
  lemma LogGrows(log: seq<Event>, e: Event)
    requires LogOk(log)
    requires forall j {:trigger PassOk(log + [e], |log|, j)} :: PassOk(log + [e], |log|, j)
    requires EraseOk(log + [e], |log|) && AdmitOk(log + [e], |log|) && RestartOk(log + [e], |log|) && FillOk(log + [e], |log|)
    requires forall j {:trigger Rising(log + [e], j, |log|)} :: Rising(log + [e], j, |log|)
    ensures LogOk(log + [e])
  {
    var log' := log + [e];
    forall i: nat, j: nat ensures PassOk(log', i, j) {
      assert PassOk(log, i, j) && PassOk(log', |log|, j);
      if j < i < |log| && log[i].PassedLocally? && log[j].LatchedBy? && log[j].p == log[i].p { ExcusedStable(log, log', log[i].p, j, i, i); }
    }
    forall d: nat ensures EraseOk(log', d) { assert EraseOk(log, d); if d < |log| { EraseStable(log, log', d); } }
    forall i: nat ensures AdmitOk(log', i) { assert AdmitOk(log, i); if i < |log| { AdmitStable(log, log', i); } }
    forall i: nat ensures RestartOk(log', i) { assert RestartOk(log, i); if i < |log| { RunAtStable(log, log', i); } }
    forall i: nat ensures FillOk(log', i) { assert FillOk(log, i); if i < |log| { SharedAtStable(log, log', i); } }
    forall j: nat, k: nat ensures Rising(log', j, k) { assert Rising(log, j, k) && Rising(log', j, |log|); }
  }

  /** An event about which the log promises nothing. */
  predicate Plain(e: Event) {
    !e.PassedLocally? && !e.ErasedBy? && !e.Admitted? && !e.Restarted? && !e.LatchedBy? && !(e.Stored? && !e.replacing)
  }

  lemma PlainGrows(log: seq<Event>, e: Event)
    requires LogOk(log) && Plain(e)
    ensures LogOk(log + [e])
  {
    LogGrows(log, e);
  }

  // ----- what stays true of processes, attempts and publications

  /** Everything but the log and the server. */
  ghost predicate LocalsOk(s: State) {
    && (forall p {:trigger ProcOk(s, p)} :: ProcOk(s, p))
    && (forall j {:trigger LatchOk(s, j)} :: LatchOk(s, j))
    && (forall a, j {:trigger NewerOk(s, a, j)} :: NewerOk(s, a, j))
    && (forall a {:trigger AttemptOk(s, a)} :: AttemptOk(s, a))
    && (forall c {:trigger CommandOk(s, c)} :: CommandOk(s, c))
  }

  lemma AttemptStable(s: State, s': State, a: nat)
    requires s.log <= s'.log && AttemptOk(s, a) && a in s.attempts && a in s'.attempts
    requires s'.attempts[a] == s.attempts[a].(phase := s'.attempts[a].phase) && (s.attempts[a].phase.Begun? ==> s'.attempts[a].phase.Begun?)
    requires s.attempts[a].p in s'.procs && s'.procs[s.attempts[a].p].generation >= s.procs[s.attempts[a].p].generation
    ensures AttemptOk(s', a)
  {
    var t := s.attempts[a];
    if !t.phase.Begun? {
      RunAtStable(s.log, s'.log, t.read);
      SharedAtStable(s.log, s'.log, t.read);
      if t.token.Some? {
        var j: nat :| j < t.read && Latched(s.log, j, t.token.value);
        assert Latched(s'.log, j, t.token.value);
      }
    }
  }

  lemma ProcStable(s: State, s': State, p: nat)
    requires s.log <= s'.log && ProcOk(s, p) && p in s.procs && p in s'.procs && s'.procs[p] == s.procs[p]
    ensures ProcOk(s', p)
  {
    if s.procs[p].latched { LatchedStable(s.log, s'.log, Token(p, s.procs[p].generation)); }
  }

  lemma LatchStable(s: State, s': State, j: nat)
    requires s.log <= s'.log && j < |s.log| && LatchOk(s, j)
    requires s.log[j].LatchedBy? && s.log[j].p in s.procs ==> s.log[j].p in s'.procs && s'.procs[s.log[j].p] == s.procs[s.log[j].p]
    ensures LatchOk(s', j)
  {
    if s.log[j].LatchedBy? && Excused(s.log, s.log[j].p, j, |s.log|) {
      ExcusedStable(s.log, s'.log, s.log[j].p, j, |s.log|, |s'.log|);
    }
  }

  lemma CommandStable(s: State, s': State, c: Command)
    requires s.log <= s'.log && CommandOk(s, c) && c in s.flight
    ensures CommandOk(s', c)
  {
    LatchedStable(s.log, s'.log, c.token);
  }

  /** One event that latches nothing; only attempt `a` may have moved. */
  lemma LocalsKeep(s: State, s': State, a: nat)
    requires LocalsOk(s) && s.log <= s'.log && s'.procs == s.procs && s'.flight <= s.flight
    requires |s'.log| <= |s.log| + 1 && (|s'.log| > |s.log| ==> !s'.log[|s.log|].LatchedBy?)
    requires forall b :: b != a ==> (b in s'.attempts <==> b in s.attempts) && (b in s.attempts ==> s'.attempts[b] == s.attempts[b])
    requires AttemptOk(s', a) && forall j {:trigger NewerOk(s', a, j)} :: NewerOk(s', a, j)
    ensures LocalsOk(s')
  {
    forall p: nat ensures ProcOk(s', p) { assert ProcOk(s, p); if p in s.procs { ProcStable(s, s', p); } }
    forall j: nat ensures LatchOk(s', j) { assert LatchOk(s, j); if j < |s.log| { LatchStable(s, s', j); } }
    forall b: nat, j: nat ensures NewerOk(s', b, j) { assert NewerOk(s, b, j) && NewerOk(s', a, j); }
    forall b: nat ensures AttemptOk(s', b) {
      assert AttemptOk(s, b);
      if b != a && b in s.attempts { AttemptStable(s, s', b); }
    }
    forall c ensures CommandOk(s', c) { assert CommandOk(s, c); if c in s.flight { CommandStable(s, s', c); } }
  }

  /** The same, when no attempt moves. */
  lemma LocalsKeepAll(s: State, s': State)
    requires LocalsOk(s) && s.log <= s'.log && s'.procs == s.procs && s'.flight <= s.flight && s'.attempts == s.attempts
    requires |s'.log| <= |s.log| + 1 && (|s'.log| > |s.log| ==> !s'.log[|s.log|].LatchedBy?)
    ensures LocalsOk(s')
  {
    var a: nat := 0;
    assert AttemptOk(s, a);
    if a in s.attempts { AttemptStable(s, s', a); }
    forall j: nat ensures NewerOk(s', a, j) { assert NewerOk(s, a, j); }
    LocalsKeep(s, s', a);
  }

  // ----- steps that add nothing to the log

  lemma BootKeeps(s: State, p: nat)
    requires LocalsOk(s) && p !in s.procs
    ensures LocalsOk(s.WithProc(p, Latch(p, 0, false, None)))
  {
    var s' := s.WithProc(p, Latch(p, 0, false, None));
    forall q: nat ensures ProcOk(s', q) { assert ProcOk(s, q); }
    forall j: nat ensures LatchOk(s', j) { assert LatchOk(s, j); }
    forall b: nat, j: nat ensures NewerOk(s', b, j) { assert NewerOk(s, b, j); }
    forall b: nat ensures AttemptOk(s', b) { assert AttemptOk(s, b); if b in s.attempts { AttemptStable(s, s', b); } }
    forall c ensures CommandOk(s', c) { assert CommandOk(s, c); }
  }

  lemma SendKeeps(s: State, c: Command)
    requires LocalsOk(s) && EverLatched(s.log, c.token)
    ensures LocalsOk(s.Send(c))
  {
    var s' := s.Send(c);
    forall q: nat ensures ProcOk(s', q) { assert ProcOk(s, q); }
    forall j: nat ensures LatchOk(s', j) { assert LatchOk(s, j); }
    forall b: nat, j: nat ensures NewerOk(s', b, j) { assert NewerOk(s, b, j); }
    forall b: nat ensures AttemptOk(s', b) { assert AttemptOk(s, b); }
    forall d ensures CommandOk(s', d) { assert CommandOk(s, d); }
  }

  /** An attempt goes on to its next phase. */
  lemma PhaseKeeps(s: State, a: nat, phase: Phase)
    requires LocalsOk(s) && a in s.attempts && !s.attempts[a].phase.Begun? && !phase.Begun?
    ensures LocalsOk(s.WithAttempt(a, s.attempts[a].(phase := phase)))
  {
    var s' := s.WithAttempt(a, s.attempts[a].(phase := phase));
    assert AttemptOk(s, a);
    forall j: nat ensures NewerOk(s', a, j) { assert NewerOk(s, a, j); }
    AttemptStable(s, s', a);
    LocalsKeep(s, s', a);
  }

  // ----- the server

  /** Moving the log forward by an event that says nothing about the server. */
  lemma ServerKeeps(s: State, s': State)
    requires ServerOk(s) && |s'.log| == |s.log| + 1 && s.log <= s'.log
    requires s'.redis.shared == s.redis.shared && s'.redis.run == s.redis.run
    requires s'.redis.proof == s.redis.proof || s'.redis.proof.None? || ProvedBefore(s'.log, s'.redis.proof.value, |s'.log|)
    requires var e := s'.log[|s.log|]; !e.Stored? && !e.ErasedBy? && !e.Forgotten? && !e.Restarted?
    ensures ServerOk(s')
  {
    SharedAtStable(s.log, s'.log, |s.log|);
    RunAtStable(s.log, s'.log, |s.log|);
    if s.redis.shared.Some? { LatchedStable(s.log, s'.log, s.redis.shared.value); }
    if s'.redis.proof.Some? && s'.redis.proof == s.redis.proof {
      ProvedStable(s.log, s'.log, s.redis.proof.value, |s.log|, |s'.log|);
    }
  }

  /** The shared token changes as the event says. */
  lemma SharedKeeps(s: State, s': State)
    requires ServerOk(s) && |s'.log| == |s.log| + 1 && s.log <= s'.log
    requires s'.redis.run == s.redis.run && s'.redis.proof == s.redis.proof
    requires var e := s'.log[|s.log|];
      || (e.Stored? && s'.redis.shared == Some(e.token) && EverLatched(s.log, e.token))
      || ((e.ErasedBy? || e.Forgotten?) && s'.redis.shared.None?)
    ensures ServerOk(s')
  {
    RunAtStable(s.log, s'.log, |s.log|);
    if s'.redis.shared.Some? { LatchedStable(s.log, s'.log, s'.redis.shared.value); }
    if s.redis.proof.Some? { ProvedStable(s.log, s'.log, s.redis.proof.value, |s.log|, |s'.log|); }
  }

  lemma RestartKeeps(s: State)
    requires Inv(s)
    ensures Inv(Apply(s, Restart))
  {
    var s' := Apply(s, Restart);
    SharedAtStable(s.log, s'.log, |s.log|);
    RunAtStable(s.log, s'.log, |s.log|);
    if s.redis.shared.Some? { LatchedStable(s.log, s'.log, s.redis.shared.value); }
    if s.redis.proof.Some? { ProvedStable(s.log, s'.log, s.redis.proof.value, |s.log|, |s'.log|); }
    LogGrows(s.log, Restarted(s.redis.run + 1));
    LocalsKeepAll(s, s');
  }

  // ----- the other steps

  lemma RaiseKeeps(s: State, p: nat)
    requires Inv(s) && p in s.procs
    ensures Inv(Apply(s, Raise(p)))
  {
    var s' := Apply(s, Raise(p));
    var l := s.procs[p].Raise();
    var e := LatchedBy(p, l.generation);
    assert ProcOk(s, p);
    assert Latched(s'.log, |s.log|, Token(p, l.generation));
    forall j: nat ensures Rising(s'.log, j, |s.log|) { assert LatchOk(s, j); }
    LogGrows(s.log, e);
    ServerKeeps(s, s');
    RaisedLocals(s, s', p);
  }

  lemma RaisedLocals(s: State, s': State, p: nat)
    requires LocalsOk(s) && p in s.procs && ProcOk(s, p)
    requires var l := s.procs[p].Raise();
      s' == s.WithProc(p, l).Send(Command(l.token.value, true)).Note(LatchedBy(p, l.generation))
    requires EverLatched(s'.log, Token(p, s.procs[p].generation + 1))
    ensures LocalsOk(s')
  {
    forall q: nat ensures ProcOk(s', q) { assert ProcOk(s, q); if q != p && q in s.procs { ProcStable(s, s', q); } }
    forall j: nat ensures LatchOk(s', j) {
      assert LatchOk(s, j);
      if j < |s.log| && s.log[j].LatchedBy? && s.log[j].p != p { LatchStable(s, s', j); }
    }
    forall b: nat, j: nat ensures NewerOk(s', b, j) { assert NewerOk(s, b, j) && AttemptOk(s, b); }
    forall b: nat ensures AttemptOk(s', b) { assert AttemptOk(s, b); if b in s.attempts { AttemptStable(s, s', b); } }
    forall c ensures CommandOk(s', c) { assert CommandOk(s, c); if c in s.flight { CommandStable(s, s', c); } }
  }

  lemma RepublishKeeps(s: State, p: nat)
    requires Inv(s) && p in s.procs && s.procs[p].latched
    ensures s.procs[p].token.Some? && Inv(s.Send(Command(s.procs[p].token.value, false)))
  {
    assert ProcOk(s, p);
    SendKeeps(s, Command(s.procs[p].token.value, false));
  }

  lemma PassKeeps(s: State, p: nat)
    requires Inv(s) && p in s.procs && !s.procs[p].latched
    ensures Inv(s.Note(PassedLocally(p)))
  {
    var s' := s.Note(PassedLocally(p));
    forall j: nat ensures PassOk(s'.log, |s.log|, j) {
      assert LatchOk(s, j);
      if j < |s.log| && s.log[j].LatchedBy? && s.log[j].p == p { ExcusedStable(s.log, s'.log, p, j, |s.log|, |s.log|); }
    }
    LogGrows(s.log, PassedLocally(p));
    ServerKeeps(s, s');
    LocalsKeepAll(s, s');
  }

  lemma ArriveKeeps(s: State, c: Command)
    requires Inv(s) && c in s.flight
    ensures Inv(Apply(s, Arrive(c)))
  {
    var s' := Apply(s, Arrive(c));
    assert CommandOk(s, c);
    if c.replace || s.redis.shared.None? {
      SharedAtStable(s.log, s'.log, |s.log|);
      LogGrows(s.log, Stored(c.token, c.replace));
      SharedKeeps(s, s');
    }
    LocalsKeepAll(s, s');
  }

  lemma BeginKeeps(s: State, a: nat, p: nat)
    requires Inv(s) && a !in s.attempts && p in s.procs
    ensures Inv(Apply(s, Begin(a, p)))
  {
    var s' := Apply(s, Begin(a, p));
    PlainGrows(s.log, Began(a, p));
    ServerKeeps(s, s');
    forall j: nat ensures NewerOk(s', a, j) {}
    LocalsKeep(s, s', a);
  }

  lemma ReadKeeps(s: State, a: nat)
    requires Inv(s) && InPhase(s, a, Begun)
    ensures Inv(Apply(s, Read(a)))
  {
    var s' := Apply(s, Read(a));
    PlainGrows(s.log, ReadShared(a));
    ServerKeeps(s, s');
    assert AttemptOk(s, a);
    SharedAtStable(s.log, s'.log, |s.log|);
    RunAtStable(s.log, s'.log, |s.log|);
    if s.redis.shared.Some? {
      var j: nat :| Latched(s.log, j, s.redis.shared.value);
      assert Latched(s'.log, j, s.redis.shared.value);
    }
    forall j: nat ensures NewerOk(s', a, j) { assert NewerOk(s, a, j); }
    LocalsKeep(s, s', a);
  }

  lemma CommitKeeps(s: State, a: nat)
    requires Inv(s) && InPhase(s, a, Checked) && CanProve(s.redis, s.attempts[a].token, s.attempts[a].run)
    ensures Inv(Apply(s, Commit(a)))
  {
    var s' := Apply(s, Commit(a));
    var t := s.attempts[a];
    PlainGrows(s.log, Proved(a, s.redis.run));
    assert AttemptOk(s, a);
    RunAtStable(s.log, s'.log, t.read);
    assert Proving(s'.log, s.redis.run, |s'.log|, a, t.read, |s.log|);
    ServerKeeps(s, s');
    AttemptStable(s, s', a);
    forall j: nat ensures NewerOk(s', a, j) { assert NewerOk(s, a, j); }
    LocalsKeep(s, s', a);
  }

  lemma AdmitKeeps(s: State)
    requires Inv(s) && Admits(s.redis)
    ensures Inv(s.Note(Admitted))
  {
    var s' := s.Note(Admitted);
    SharedAtStable(s.log, s'.log, |s.log|);
    RunAtStable(s.log, s'.log, |s.log|);
    ProvedStable(s.log, s'.log, s.redis.run, |s.log|, |s.log|);
    LogGrows(s.log, Admitted);
    ServerKeeps(s, s');
    LocalsKeepAll(s, s');
  }

  // ----- the delete

  lemma EraseKeeps(s: State, a: nat)
    requires Inv(s) && a in s.attempts && !s.attempts[a].phase.Begun? && s.redis.shared.Some? && s.redis.shared == s.attempts[a].token
    ensures Inv(s.(redis := s.redis.(shared := None)).Note(ErasedBy(a, s.redis.shared.value)))
  {
    var e := ErasedBy(a, s.redis.shared.value);
    var s' := s.(redis := s.redis.(shared := None)).Note(e);
    assert AttemptOk(s, a);
    var t := s.attempts[a];
    var j: nat :| j < t.read && Latched(s.log, j, t.token.value);
    SharedAtStable(s.log, s'.log, t.read);
    SharedAtStable(s.log, s'.log, |s.log|);
    assert Reading(s'.log, |s.log|, a, t.read, j, t.token.value);
    LogGrows(s.log, e);
    SharedKeeps(s, s');
    LocalsKeepAll(s, s');
  }

  /** An open latch has nothing left that this attempt, or an earlier one, did not begin after. */
  lemma OpenKeeps(s: State, a: nat)
    requires Inv(s) && a in s.attempts && s.attempts[a].p in s.procs
    requires var l := s.procs[s.attempts[a].p]; !(l.latched && l.generation != s.attempts[a].generation)
    ensures var p := s.attempts[a].p; Inv(s.WithProc(p, s.procs[p].Open()).Note(OpenedBy(a, p)))
  {
    var p := s.attempts[a].p;
    var s' := s.WithProc(p, s.procs[p].Open()).Note(OpenedBy(a, p));
    PlainGrows(s.log, OpenedBy(a, p));
    ServerKeeps(s, s');
    assert AttemptOk(s, a);
    forall q: nat ensures ProcOk(s', q) { assert ProcOk(s, q); if q != p && q in s.procs { ProcStable(s, s', q); } }
    forall j: nat ensures LatchOk(s', j) {
      assert LatchOk(s, j) && NewerOk(s, a, j);
      if j < |s.log| && s.log[j].LatchedBy? {
        if s.log[j].p != p { LatchStable(s, s', j); }
        else if s.procs[p].latched { assert Opening(s'.log, p, j, |s'.log|, a, s.attempts[a].begun, |s.log|); }
        else { ExcusedStable(s.log, s'.log, p, j, |s.log|, |s'.log|); }
      }
    }
    forall b: nat, j: nat ensures NewerOk(s', b, j) { assert NewerOk(s, b, j); }
    forall b: nat ensures AttemptOk(s', b) { assert AttemptOk(s, b); if b in s.attempts { AttemptStable(s, s', b); } }
    forall c ensures CommandOk(s', c) { assert CommandOk(s, c); if c in s.flight { CommandStable(s, s', c); } }
  }

  lemma DeleteKeeps(s: State, a: nat, silent: bool)
    requires Inv(s) && InPhase(s, a, Committed)
    ensures Inv(ApplyDelete(s, a, silent))
  {
    var t := s.attempts[a];
    var l := s.procs[t.p];
    PhaseKeeps(s, a, Finished);
    var m := s.WithAttempt(a, t.(phase := Finished));
    if !(l.latched && l.generation != t.generation) {
      var code := EraseShared(s.redis, t.token, t.run).0;
      if code.Erased? {
        EraseKeeps(m, a);
        m := m.(redis := m.redis.(shared := None)).Note(ErasedBy(a, s.redis.shared.value));
      }
      if code.Opens() && !silent { OpenKeeps(m, a); }
    }
  }

  /** Every step keeps the invariant. */
  lemma StepKeeps(s: State, step: Step)
    requires Inv(s) && Enabled(s, step)
    ensures Inv(Apply(s, step))
  {
    match step
    case Boot(p) => BootKeeps(s, p);
    case Raise(p) => RaiseKeeps(s, p);
    case Ensure(p) => if s.procs[p].latched { RepublishKeeps(s, p); } else { RaiseKeeps(s, p); }
    case LocalCheck(p) => if s.procs[p].latched { RepublishKeeps(s, p); } else { PassKeeps(s, p); }
    case Arrive(c) => ArriveKeeps(s, c);
    case Drop(_) => LocalsKeepAll(s, Apply(s, step));
    case Begin(a, p) => BeginKeeps(s, a, p);
    case Read(a) => ReadKeeps(s, a);
    case Check(a) => PhaseKeeps(s, a, Checked);
    case Commit(a) => CommitKeeps(s, a);
    case Delete(a, silent) => DeleteKeeps(s, a, silent);
    case LoseShared => PlainGrows(s.log, Forgotten); SharedKeeps(s, Apply(s, step)); LocalsKeepAll(s, Apply(s, step));
    case LoseProof => LocalsKeepAll(s, Apply(s, step));
    case Restart => RestartKeeps(s);
    case Admit => AdmitKeeps(s);
  }

  lemma {:induction false} RunKeepsInv(run: seq<State>, i: nat)
    requires IsRun(run) && i < |run|
    ensures Inv(run[i])
  {
    if i > 0 {
      RunKeepsInv(run, i - 1);
      assert Follows(run, i - 1);
      var step :| NextBy(run[i - 1], run[i], step);
      StepKeeps(run[i - 1], step);
    } else {
      InitIsOk(run[0]);
    }
  }

  lemma InitIsOk(s: State)
    requires Init(s)
    ensures Inv(s)
  {
    forall p: nat ensures ProcOk(s, p) {}
    forall a: nat ensures AttemptOk(s, a) {}
  }

  // ----- the guarantees, over every run

  /**
   A process that has latched a fault passes its local check again only after a clear opened
   its latch whose reconciliation began after that latch.
   */
  lemma AdmitsOnlyAfterNewerReconciliation(run: seq<State>, n: nat, p: nat, generation: nat, j: nat, i: nat)
    requires IsRun(run) && n < |run| && j < i < |run[n].log|
    requires run[n].log[j] == LatchedBy(p, generation) && run[n].log[i] == PassedLocally(p)
    ensures exists a, b, c :: j < b < c < i && run[n].log[b] == Began(a, p) && run[n].log[c] == OpenedBy(a, p)
  {
    RunKeepsInv(run, n);
    assert PassOk(run[n].log, i, j);
    var a, b, c :| Opening(run[n].log, p, j, i, a, b, c);
  }

  /** No two faults, of one process or of two, ever share a token. */
  lemma TokensNeverRepeat(run: seq<State>, n: nat, j: nat, k: nat, t: Token)
    requires IsRun(run) && n < |run|
    requires Latched(run[n].log, j, t) && Latched(run[n].log, k, t)
    ensures j == k
  {
    RunKeepsInv(run, n);
    assert Rising(run[n].log, j, k) && Rising(run[n].log, k, j);
  }

  /** A clear erases only the token it read at its own Begin, and that fault had been latched before. */
  lemma ErasesOnlyWhatItRead(run: seq<State>, n: nat, d: nat, a: nat, t: Token)
    requires IsRun(run) && n < |run| && d < |run[n].log| && run[n].log[d] == ErasedBy(a, t)
    ensures exists r: nat, j: nat :: j < r < d && run[n].log[r] == ReadShared(a) && SharedAt(run[n].log, r) == Some(t) &&
                                     Latched(run[n].log, j, t)
  {
    RunKeepsInv(run, n);
    assert EraseOk(run[n].log, d);
    var r, j :| Reading(run[n].log, d, a, r, j, t);
  }

  /** After a server restart nothing is admitted until a clear that began on the new instance has proved it. */
  lemma RestartClosesAdmission(run: seq<State>, n: nat, k: nat, i: nat)
    requires IsRun(run) && n < |run| && k < i < |run[n].log|
    requires run[n].log[k].Restarted? && run[n].log[i].Admitted?
    ensures exists a, b, c :: k < b < c < i && run[n].log[b] == ReadShared(a) && run[n].log[c].Proved? && run[n].log[c].a == a
  {
    RunKeepsInv(run, n);
    var log := run[n].log;
    assert AdmitOk(log, i);
    var a: nat, b: nat, c: nat :| Proving(log, RunAt(log, i), i, a, b, c);
    assert RestartOk(log, k);
    RunNeverFalls(log, k + 1, i);
    if b <= k { RunNeverFalls(log, b, k); }
  }

  lemma {:induction false} RunNeverFalls(log: seq<Event>, m: nat, n: nat)
    requires LogOk(log) && m <= n <= |log|
    ensures RunAt(log, m) <= RunAt(log, n)
    decreases n
  {
    if m < n {
      RunNeverFalls(log, m, n - 1);
      assert RestartOk(log, n - 1);
    }
  }
}
