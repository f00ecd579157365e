/**
 The infrastructure fault latch: a latch in every gateway process, one shared token in
 Redis, and the clear that follows a full reconciliation.

 A token is the pair it is printed from; an instance id is never used by two processes and a
 Redis run id never by two server instances.
 */
module FaultLatch {
  import opened Common

  datatype Token = Token(instance: nat, generation: nat)

  datatype Latch = Latch(instance: nat, generation: nat, latched: bool, token: Option<Token>) {

    /** A confirmed fault always opens a new generation. */
    function Raise(): Latch {
      Latch(instance, generation + 1, true, Some(Token(instance, generation + 1)))
    }

    function RaiseIfClear(): Latch {
      if latched then this else Raise()
    }

    function Open(): Latch {
      this.(latched := false, token := None)
    }
  }

  /** The keys of the latch; `run` is the run id of the Redis server itself. */
  datatype Redis = Redis(shared: Option<Token>, proof: Option<nat>, run: nat)

  // ----- scripts

  datatype DeleteCode = InstanceChanged | ProofChanged | AlreadyClear | FaultChanged | Erased | LocalFaultChanged {

    predicate Opens() {
      AlreadyClear? || Erased?
    }
  }

  /** runtime_fault_latch_delete.lua; no token is the empty string, which no stored token equals. */
  function EraseShared(r: Redis, token: Option<Token>, run: nat): (DeleteCode, Redis) {
    if r.run != run then (InstanceChanged, r)
    else if r.proof != Some(run) then (ProofChanged, r)
    else if r.shared.None? then (AlreadyClear, r)
    else if r.shared != token then (FaultChanged, r)
    else (DeleteCode.Erased, r.(shared := None))
  }

  /** This server, proved by this reconciliation, holds no other fault than the one that was read. */
  predicate Clears(r: Redis, token: Option<Token>, run: nat) {
    r.run == run && r.proof == Some(run) && (r.shared.None? || r.shared == token)
  }

  /** runtime_fault_clear_commit.lua, when the marker and every listed control match. */
  predicate CanProve(r: Redis, token: Option<Token>, run: nat) {
    r.run == run && r.shared == token
  }

  /** The shared half of admission: no shared fault, and this server instance has been proved. */
  predicate Admits(r: Redis) {
    r.shared.None? && r.proof == Some(r.run)
  }

  /** Setting the shared token: a confirmed fault replaces it, a repeated one only fills it in. */
  function Publish(r: Redis, token: Token, replace: bool): Redis {
    if replace || r.shared.None? then r.(shared := Some(token)) else r
  }

  // ----- one process

  class Server {
    var state: Redis

    constructor (r: Redis)
      ensures state == r
    {
      state := r;
    }
  }

  /** The fields one process guards with its mutex; every method is one critical section. */
  class LocalLatch {
    const instance: nat
    var generation: nat
    var latched: bool
    var token: Option<Token>

    function View(): Latch
      reads this
    {
      Latch(instance, generation, latched, token)
    }

    constructor (id: nat)
      ensures instance == id && View() == Latch(id, 0, false, None)
    {
      instance, generation, latched, token := id, 0, false, None;
    }

    method Raise() returns (newGeneration: nat, newToken: Token)
      modifies this
      ensures View() == old(View()).Raise() && newGeneration == generation && token == Some(newToken)
    {
      generation := generation + 1;
      latched := true;
      token := Some(Token(instance, generation));
      return generation, Token(instance, generation);
    }

    method RaiseIfClear() returns (newToken: Option<Token>, created: bool)
      modifies this
      ensures View() == old(View()).RaiseIfClear() && newToken == token && created == !old(latched)
    {
      if latched { return token, false; }
      generation := generation + 1;
      latched := true;
      token := Some(Token(instance, generation));
      return token, true;
    }

    /**
     The final delete, under the mutex: refused when the process has latched since, and the
     local latch opens only when the script has answered that nothing is left to erase.
     `None` is a failed call, which may still have erased the token.

     When the call does not fail it opens the latch exactly if the process has not latched
     since, the server and its proof are those of the reconciliation, and the shared key is
     empty or holds the token that was read; the key is empty afterwards, and in every other
     case the server keeps what it had.
     */
    method DeleteShared(server: Server, localGeneration: nat, sharedToken: Option<Token>, run: nat, flaky: bool)
      returns (code: Option<DeleteCode>)
      modifies this, server
      ensures code == Some(LocalFaultChanged) <==> old(latched) && old(generation) != localGeneration
      ensures code == Some(LocalFaultChanged) ==> View() == old(View()) && server.state == old(server.state)
      ensures code.Some? && !code.value.LocalFaultChanged? ==>
                (code.value, server.state) == EraseShared(old(server.state), sharedToken, run)
      ensures View() == if code.Some? && code.value.Opens() then old(View()).Open() else old(View())
      ensures code.None? ==> flaky && server.state in {old(server.state), EraseShared(old(server.state), sharedToken, run).1}
      ensures !flaky ==>
                var r, clears := old(server.state), !(old(latched) && old(generation) != localGeneration) && Clears(old(server.state), sharedToken, run);
                && (clears <==> code.Some? && code.value.Opens())
                && server.state == (if clears then r.(shared := None) else r)
                && (clears ==> !latched && token.None? && generation == old(generation) && code == Some(if r.shared.None? then AlreadyClear else Erased))
    {
      if latched && generation != localGeneration { return Some(LocalFaultChanged); }
      var lost := Fault(flaky);
      if lost { return None; }
      var (answer, redis) := EraseShared(server.state, sharedToken, run);
      server.state := redis;
      var silent := Fault(flaky);
      if silent { return None; }
      if answer.Opens() {
        latched := false;
        token := None;
      }
      code := Some(answer);
    }
  }

  // ----- many processes, one server

  datatype Phase = Begun | HasRead | Checked | Committed | Finished

  /** One pass through Begin, reconciliation and clear; `begun` and `read` are positions in the log. */
  datatype Attempt = Attempt(p: nat, phase: Phase, generation: nat, begun: nat, read: nat, token: Option<Token>, run: nat)

  /** A publication on its way to Redis. */
  datatype Command = Command(token: Token, replace: bool)

  datatype Event =
    | LatchedBy(p: nat, generation: nat)
    | PassedLocally(p: nat)
    | Began(a: nat, p: nat)
    | ReadShared(a: nat)
    | Proved(a: nat, run: nat)
    | Stored(token: Token, replacing: bool)
    | ErasedBy(a: nat, token: Token)
    | OpenedBy(a: nat, p: nat)
    | Forgotten
    | Restarted(run: nat)
    | Admitted

  datatype State = State(
    procs: map<nat, Latch>, redis: Redis, flight: multiset<Command>, attempts: map<nat, Attempt>, log: seq<Event>)
  {
    function Note(e: Event): State {
      this.(log := log + [e])
    }

    function Send(c: Command): State {
      this.(flight := flight + multiset{c})
    }

    function WithProc(p: nat, l: Latch): State {
      this.(procs := procs[p := l])
    }

    function WithAttempt(a: nat, t: Attempt): State {
      this.(attempts := attempts[a := t])
    }
  }

  datatype Step =
    | Boot(p: nat)
    | Raise(p: nat)
    | Ensure(p: nat)
    | LocalCheck(p: nat)
    | Arrive(c: Command)
    | Drop(c: Command)
    | Begin(a: nat, p: nat)
    | Read(a: nat)
    | Check(a: nat)
    | Commit(a: nat)
    | Delete(a: nat, silent: bool)
    | LoseShared
    | LoseProof
    | Restart
    | Admit

  predicate InPhase(s: State, a: nat, phase: Phase) {
    a in s.attempts && s.attempts[a].phase == phase && s.attempts[a].p in s.procs
  }

  predicate Enabled(s: State, step: Step) {
    match step
    case Boot(p) => p !in s.procs
    case Raise(p) => p in s.procs
    case Ensure(p) => p in s.procs
    case LocalCheck(p) => p in s.procs
    case Arrive(c) => c in s.flight
    case Drop(c) => c in s.flight
    case Begin(a, p) => a !in s.attempts && p in s.procs
    case Read(a) => InPhase(s, a, Begun)
    case Check(a) => InPhase(s, a, HasRead) && CanProve(s.redis, s.attempts[a].token, s.attempts[a].run)
    case Commit(a) => InPhase(s, a, Checked) && CanProve(s.redis, s.attempts[a].token, s.attempts[a].run)
    case Delete(a, _) => InPhase(s, a, Committed)
    case Admit => Admits(s.redis)
    case _ => true
  }

  /** The final delete of an attempt, with or without its reply. */
  function ApplyDelete(s: State, a: nat, silent: bool): State
    requires InPhase(s, a, Committed)
  {
    var t := s.attempts[a];
    var l := s.procs[t.p];
    var done := s.WithAttempt(a, t.(phase := Finished));
    if l.latched && l.generation != t.generation then done
    else
      var (code, redis) := EraseShared(s.redis, t.token, t.run);
      var erased := if code.Erased? then done.(redis := redis).Note(ErasedBy(a, s.redis.shared.value)) else done;
      if code.Opens() && !silent then erased.WithProc(t.p, l.Open()).Note(OpenedBy(a, t.p)) else erased
  }

  function Apply(s: State, step: Step): State
    requires Enabled(s, step)
  {
    match step
    case Boot(p) => s.WithProc(p, Latch(p, 0, false, None))
    case Raise(p) =>
      var l := s.procs[p].Raise();
      s.WithProc(p, l).Send(Command(l.token.value, true)).Note(LatchedBy(p, l.generation))
    case Ensure(p) =>
      var l := s.procs[p].Raise();
      if !s.procs[p].latched then s.WithProc(p, l).Send(Command(l.token.value, true)).Note(LatchedBy(p, l.generation))
      else if s.procs[p].token.Some? then s.Send(Command(s.procs[p].token.value, false)) else s
    case LocalCheck(p) =>
      if !s.procs[p].latched then s.Note(PassedLocally(p))
      else if s.procs[p].token.Some? then s.Send(Command(s.procs[p].token.value, false)) else s
    case Arrive(c) =>
      var landed := s.(flight := s.flight - multiset{c}, redis := Publish(s.redis, c.token, c.replace));
      if c.replace || s.redis.shared.None? then landed.Note(Stored(c.token, c.replace)) else landed
    case Drop(c) => s.(flight := s.flight - multiset{c})
    case Begin(a, p) =>
      s.WithAttempt(a, Attempt(p, Begun, s.procs[p].generation, |s.log|, 0, None, 0)).Note(Began(a, p))
    case Read(a) =>
      s.WithAttempt(a, s.attempts[a].(phase := HasRead, read := |s.log|, token := s.redis.shared, run := s.redis.run)).Note(ReadShared(a))
    case Check(a) => s.WithAttempt(a, s.attempts[a].(phase := Checked))
    case Commit(a) =>
      s.WithAttempt(a, s.attempts[a].(phase := Committed)).(redis := s.redis.(proof := Some(s.redis.run)))
       .Note(Proved(a, s.redis.run))
    case Delete(a, silent) => ApplyDelete(s, a, silent)
    case LoseShared => s.(redis := s.redis.(shared := None)).Note(Forgotten)
    case LoseProof => s.(redis := s.redis.(proof := None))
    case Restart => s.(redis := s.redis.(run := s.redis.run + 1)).Note(Restarted(s.redis.run + 1))
    case Admit => s.Note(Admitted)
  }

  /** No process has started; the first server instance has no run to be proved for yet. */
  predicate Init(s: State) {
    s.procs == map[] && s.flight == multiset{} && s.attempts == map[] && s.log == [] && s.redis == Redis(None, None, 0)
  }

  predicate NextBy(s: State, s': State, step: Step) {
    Enabled(s, step) && s' == Apply(s, step)
  }

  ghost predicate Next(s: State, s': State) {
    exists step :: NextBy(s, s', step)
  }

  ghost predicate Follows(run: seq<State>, i: nat) {
    i + 1 < |run| ==> Next(run[i], run[i + 1])
  }

  ghost predicate IsRun(run: seq<State>) {
    |run| > 0 && Init(run[0]) && forall i: nat :: Follows(run, i)
  }
}
