/**
 Runs of the provider routing protocol.

 A step is one SQL statement, one transaction or one script.  Steps of publishers,
 reconcilers and administrators may come in any order that the statements' own guards
 allow, so crashes, lost replies, retries and delayed calls need no steps of their own.
 Only a commit script has a guard outside the stores: nobody calls it for an operation that
 PostgreSQL has not shown as db_committed or committed.
 */
module ProviderRuns {
  import opened Common
  import opened ProviderControls
  import P = Publication

  /** `payload` was hashed when the fence was requested; `stored` is the text PostgreSQL gives back for the transitions. */
  datatype RoutingOp = RoutingOp(envelope: Envelope, payload: Payload, stored: Payload, state: P.OpState)

  /** One version of a provider row and the operation that produced it, if one did. */
  datatype Change = Change(row: Row, cause: Option<Token>)

  /** `log` and `ops` are PostgreSQL, `gates` and `keys` are Redis.  The last change of a provider is its row. */
  datatype Stores = Stores(log: map<int, seq<Change>>, ops: map<Token, RoutingOp>, gates: map<int, Gate>, keys: map<Token, FenceOp>) {

    function CellOf(k: Token): Cell
      requires k in ops
    {
      var p := ops[k].envelope.providerID;
      Cell(if p in gates then Some(gates[p]) else None, if k in keys then Some(keys[k]) else None)
    }

    function WithCell(k: Token, c: Cell): Stores
      requires k in ops
    {
      var p := ops[k].envelope.providerID;
      this.(gates := if c.gate.Some? then gates[p := c.gate.value] else gates,
            keys := if c.op.Some? then keys[k := c.op.value] else keys)
    }

    predicate HasRow(p: int) {
      p in log && log[p] != []
    }

    function RowOf(p: int): Row
      requires HasRow(p)
    {
      log[p][|log[p]| - 1].row
    }

    predicate Open(k: Token) {
      k in ops && !ops[k].state.Terminal()
    }
  }

  datatype Step =
    | NewProvider(p: int, origin: string, status: RoutingStatus)
    | OpenOrigin(k: Token, p: int, version: nat, origin: string, payload: Payload, stored: Payload)
    | OpenStatus(k: Token, p: int, version: nat, status: RoutingStatus, payload: Payload, stored: Payload)
    | Prepare(k: Token)
    | SetPrepared(k: Token)
    | Business(k: Token)
    | Commit(k: Token, text: Payload)
    | Abort(k: Token, text: Payload)
    | SetCommitted(k: Token)
    | SetAborted(k: Token)
    | Archive(p: int, renamed: string)
    | Unarchive(p: int, renamed: string)
    | Install(p: int, version: nat)
    | Replace(p: int, version: nat)
    | LoseGate(p: int)
    | ExpireKey(k: Token)

  /** The partial unique index on open operations. */
  predicate Idle(s: Stores, p: int) {
    forall k :: k in s.ops && s.ops[k].envelope.providerID == p ==> s.ops[k].state.Terminal()
  }

  /** What the locked validation and the guarded update of the business transaction demand of the row. */
  predicate Starts(row: Row, e: Envelope) {
    !row.status.Archived? &&
    if e.kind.OriginKind? then row.originRevision == e.currentOriginRevision else row.statusRevision == e.currentStatusRevision
  }

  /** The version a slow process read some time ago. */
  predicate Version(s: Stores, p: int, version: nat) {
    p in s.log && version < |s.log[p]|
  }

  function EnvelopeOf(s: Stores, step: Step): Envelope
    requires (step.OpenOrigin? || step.OpenStatus?) && Version(s, step.p, step.version)
  {
    var row := s.log[step.p][step.version].row;
    if step.OpenOrigin? then OriginEnvelope(step.p, row, step.origin) else StatusEnvelope(step.p, row, step.status)
  }

  predicate Possible(s: Stores, step: Step) {
    match step
    case NewProvider(p, origin, status) => p > 0 && p !in s.log && Row(origin, 1, status, 1).Valid()
    case OpenOrigin(k, p, version, _, _, _) =>
      k != "" && k !in s.ops && Version(s, p, version) && Idle(s, p) && ValidEnvelope(EnvelopeOf(s, step))
    case OpenStatus(k, p, version, status, _, _) =>
      k != "" && k !in s.ops && Version(s, p, version) && Idle(s, p) && ValidEnvelope(EnvelopeOf(s, step)) && !status.Archived?
    case Prepare(k) => k in s.ops
    case SetPrepared(k) => k in s.ops && s.ops[k].state.Preparing?
    case Business(k) =>
      k in s.ops && s.ops[k].state.Prepared? && s.HasRow(s.ops[k].envelope.providerID) &&
      Starts(s.RowOf(s.ops[k].envelope.providerID), s.ops[k].envelope)
    case Commit(k, _) => k in s.ops && s.ops[k].state.Durable()
    case Abort(k, _) => k in s.ops
    case SetCommitted(k) => k in s.ops && s.ops[k].state.DbCommitted?
    case SetAborted(k) => k in s.ops && (s.ops[k].state.Preparing? || s.ops[k].state.Prepared?)
    case Archive(p, renamed) => s.HasRow(p) && renamed != "" && !s.RowOf(p).status.Archived? && Idle(s, p)
    case Unarchive(p, renamed) => s.HasRow(p) && renamed != "" && s.RowOf(p).status.Archived?
    case Install(p, version) => Version(s, p, version)
    case Replace(p, version) => Version(s, p, version)
    case LoseGate(_) => true
    case ExpireKey(_) => true
  }

  function Append(s: Stores, p: int, row: Row, cause: Option<Token>): Stores
    requires p in s.log
  {
    s.(log := s.log[p := s.log[p] + [Change(row, cause)]])
  }

  function SetState(s: Stores, k: Token, state: P.OpState): Stores
    requires k in s.ops
  {
    s.(ops := s.ops[k := s.ops[k].(state := state)])
  }

  function Effect(s: Stores, step: Step): Stores
    requires Possible(s, step)
  {
    match step
    case NewProvider(p, origin, status) => s.(log := s.log[p := [Change(Row(origin, 1, status, 1), None)]])
    case OpenOrigin(k, _, _, _, payload, stored) => s.(ops := s.ops[k := RoutingOp(EnvelopeOf(s, step), payload, stored, P.Preparing)])
    case OpenStatus(k, _, _, _, payload, stored) => s.(ops := s.ops[k := RoutingOp(EnvelopeOf(s, step), payload, stored, P.Preparing)])
    case Prepare(k) => s.WithCell(k, PrepareFence(s.CellOf(k), s.ops[k].envelope, k, s.ops[k].payload).1)
    case SetPrepared(k) => SetState(s, k, P.Prepared)
    case Business(k) =>
      var p := s.ops[k].envelope.providerID;
      SetState(Append(s, p, Moved(s.RowOf(p), s.ops[k].envelope), Some(k)), k, P.DbCommitted)
    case Commit(k, text) => s.WithCell(k, CommitFence(s.CellOf(k), s.ops[k].envelope.kind, k, text).1)
    case Abort(k, text) => s.WithCell(k, AbortFence(s.CellOf(k), s.ops[k].envelope.kind, k, text).1)
    case SetCommitted(k) => SetState(s, k, P.Committed)
    case SetAborted(k) => SetState(s, k, P.Aborted)
    case Archive(p, renamed) =>
      var row := s.RowOf(p);
      Append(s, p, row.(origin := renamed, status := Archived, statusRevision := row.statusRevision + 1), None)
    case Unarchive(p, renamed) =>
      var row := s.RowOf(p);
      Append(s, p, row.(origin := renamed, status := Disabled, statusRevision := row.statusRevision + 1), None)
    case Install(p, version) => if p in s.gates then s else s.(gates := s.gates[p := Stable(s.log[p][version].row)])
    case Replace(p, version) => s.(gates := s.gates[p := Stable(s.log[p][version].row)])
    case LoseGate(p) => s.(gates := s.gates - {p})
    case ExpireKey(k) => s.(keys := s.keys - {k})
  }

  /** A statement whose guard fails changes nothing. */
  function Apply(s: Stores, step: Step): Stores {
    if Possible(s, step) then Effect(s, step) else s
  }

  function Run(s: Stores, steps: seq<Step>): Stores
    decreases |steps|
  {
    if steps == [] then s else Apply(Run(s, steps[..|steps| - 1]), steps[|steps| - 1])
  }

  const Empty := Stores(map[], map[], map[], map[])

  ghost predicate Reachable(s: Stores) {
    exists steps :: Run(Empty, steps) == s
  }

  lemma StepReaches(s: Stores, step: Step)
    requires Reachable(s)
    ensures Reachable(Apply(s, step))
  {
    var steps: seq<Step> :| Run(Empty, steps) == s;
    var longer := steps + [step];
    assert longer[..|longer| - 1] == steps;
    assert Run(Empty, longer) == Apply(s, step);
  }

  // ----- the invariant

  /** One version follows another: one half moves by one, and only an operation moves the origin revision. */
  predicate Follows(s: Stores, before: Row, c: Change) {
    match c.cause
    case None =>
      c.row.originRevision == before.originRevision && c.row.statusRevision == before.statusRevision + 1
    case Some(k) =>
      k in s.ops && s.ops[k].state.Durable() && Starts(before, s.ops[k].envelope) && c.row == Moved(before, s.ops[k].envelope)
  }

  predicate FollowsAt(s: Stores, p: int, i: int)
    requires p in s.log && 0 < i < |s.log[p]|
  {
    Follows(s, s.log[p][i - 1].row, s.log[p][i]) && (s.log[p][i].cause.Some? ==> s.ops[s.log[p][i].cause.value].envelope.providerID == p)
  }

  ghost predicate LogOk(s: Stores, p: int)
    requires p in s.log
  {
    && |s.log[p]| > 0 && s.log[p][0].cause == None && s.log[p][0].row.originRevision == 1 && s.log[p][0].row.statusRevision == 1
    && (forall i :: 0 <= i < |s.log[p]| ==> s.log[p][i].row.Valid())
    && (forall i :: 0 < i < |s.log[p]| ==> FollowsAt(s, p, i))
    && (forall i, j :: 0 <= i < j < |s.log[p]| ==> s.log[p][i].cause.None? || s.log[p][i].cause != s.log[p][j].cause)
  }

  /** Some version of the provider has this revision of this half. */
  ghost predicate HadOrigin(s: Stores, p: int, revision: int) {
    p in s.log && exists i :: 0 <= i < |s.log[p]| && s.log[p][i].row.originRevision == revision
  }

  ghost predicate HadStatus(s: Stores, p: int, revision: int, status: RoutingStatus) {
    p in s.log && exists i :: 0 <= i < |s.log[p]| && s.log[p][i].row.statusRevision == revision && s.log[p][i].row.status == status
  }

  ghost predicate MadeChange(s: Stores, k: Token)
    requires k in s.ops
  {
    var p := s.ops[k].envelope.providerID;
    p in s.log && exists i :: 0 <= i < |s.log[p]| && s.log[p][i].cause == Some(k)
  }

  ghost predicate OpOk(s: Stores, k: Token)
    requires k in s.ops
  {
    var e := s.ops[k].envelope;
    && ValidEnvelope(e) && e.providerID in s.log && (e.kind.StatusKind? ==> !e.nextStatus.Archived?)
    && HadOrigin(s, e.providerID, e.currentOriginRevision) && HadStatus(s, e.providerID, e.currentStatusRevision, e.currentStatus)
    && (s.ops[k].state.Durable() ==> MadeChange(s, k))
  }

  /** What a gate of provider `p` may show. */
  ghost predicate Shows(s: Stores, p: int, g: Gate) {
    && HadOrigin(s, p, g.originRevision) && HadStatus(s, p, g.statusRevision, g.status)
    && (g.fence.Some? ==>
        var k := g.fence.value.token;
        && k in s.ops && s.ops[k].envelope.providerID == p
        && g.fence.value == FenceOf(s.ops[k].envelope, k, s.ops[k].payload)
        && (if s.ops[k].envelope.kind.OriginKind? then g.originRevision == s.ops[k].envelope.currentOriginRevision
            else g.statusRevision == s.ops[k].envelope.currentStatusRevision))
  }

  ghost predicate GateOk(s: Stores, p: int)
    requires p in s.gates
  {
    Shows(s, p, s.gates[p])
  }

  ghost predicate KeyOk(s: Stores, k: Token)
    requires k in s.keys
  {
    k in s.ops && s.keys[k].kind == s.ops[k].envelope.kind && s.keys[k].payload == s.ops[k].payload &&
    (s.keys[k].mark.MarkCommitted? ==> s.ops[k].state.Durable())
  }

  /** A provider has at most one open operation. */
  ghost predicate Exclusive(s: Stores) {
    forall j, k :: s.Open(j) && s.Open(k) && s.ops[j].envelope.providerID == s.ops[k].envelope.providerID ==> j == k
  }

  ghost predicate LogsOk(s: Stores) { forall p :: p in s.log ==> LogOk(s, p) }
  ghost predicate OpsOk(s: Stores) { forall k :: k in s.ops ==> OpOk(s, k) }
  ghost predicate GatesOk(s: Stores) { forall p :: p in s.gates ==> GateOk(s, p) }
  ghost predicate KeysOk(s: Stores) { forall k :: k in s.keys ==> KeyOk(s, k) }

  ghost predicate Inv(s: Stores) {
    LogsOk(s) && OpsOk(s) && GatesOk(s) && KeysOk(s) && Exclusive(s)
  }

  // ----- every step keeps it

  ghost predicate LogExtends(s: Stores, s': Stores, p: int) {
    p in s.log ==> p in s'.log && |s.log[p]| <= |s'.log[p]| && s.log[p] == s'.log[p][..|s.log[p]|]
  }

  /** The fields of an operation never change, a durable one stays durable and an ended one as it is. */
  ghost predicate OpExtends(s: Stores, s': Stores, k: Token) {
    k in s.ops ==>
      && k in s'.ops && s'.ops[k] == s.ops[k].(state := s'.ops[k].state)
      && (s.ops[k].state.Durable() ==> s'.ops[k].state.Durable())
      && (s.ops[k].state.Terminal() ==> s'.ops[k].state == s.ops[k].state)
  }

  ghost predicate Extends(s: Stores, s': Stores) {
    (forall p :: LogExtends(s, s', p)) && (forall k :: OpExtends(s, s', k))
  }

  lemma EffectExtends(s: Stores, step: Step)
    requires Possible(s, step)
    ensures Extends(s, Effect(s, step))
  {
    hide PrepareFence, CommitFence, AbortFence, ValidEnvelope, Moved;
  }

  lemma HadOriginStays(s: Stores, s': Stores, p: int, revision: int)
    requires LogExtends(s, s', p) && HadOrigin(s, p, revision)
    ensures HadOrigin(s', p, revision)
  {
    var i :| 0 <= i < |s.log[p]| && s.log[p][i].row.originRevision == revision;
    assert s'.log[p][i] == s.log[p][i];
  }

  lemma HadStatusStays(s: Stores, s': Stores, p: int, revision: int, status: RoutingStatus)
    requires LogExtends(s, s', p) && HadStatus(s, p, revision, status)
    ensures HadStatus(s', p, revision, status)
  {
    var i :| 0 <= i < |s.log[p]| && s.log[p][i].row.statusRevision == revision && s.log[p][i].row.status == status;
    assert s'.log[p][i] == s.log[p][i];
  }

  lemma MadeChangeStays(s: Stores, s': Stores, k: Token)
    requires k in s.ops && Extends(s, s') && MadeChange(s, k)
    ensures k in s'.ops && MadeChange(s', k)
  {
    var p := s.ops[k].envelope.providerID;
    assert OpExtends(s, s', k) && LogExtends(s, s', p);
    var i :| 0 <= i < |s.log[p]| && s.log[p][i].cause == Some(k);
    assert s'.log[p][i] == s.log[p][i];
  }

  lemma LogStays(s: Stores, s': Stores, p: int)
    requires Extends(s, s') && p in s.log && LogOk(s, p) && p in s'.log && s'.log[p] == s.log[p]
    ensures LogOk(s', p)
  {
    forall i | 0 < i < |s'.log[p]| ensures FollowsAt(s', p, i) {
      assert FollowsAt(s, p, i);
      if s.log[p][i].cause.Some? { assert OpExtends(s, s', s.log[p][i].cause.value); }
    }
  }

  lemma LogGrows(s: Stores, s': Stores, p: int, c: Change)
    requires Extends(s, s') && p in s.log && LogOk(s, p) && p in s'.log && s'.log[p] == s.log[p] + [c]
    requires c.row.Valid() && Follows(s', s.RowOf(p), c)
    requires c.cause.Some? ==> s'.ops[c.cause.value].envelope.providerID == p
    requires c.cause.Some? ==> forall i :: 0 <= i < |s.log[p]| ==> s.log[p][i].cause != c.cause
    ensures LogOk(s', p)
  {
    var n := |s.log[p]|;
    assert forall i :: 0 <= i < n ==> s'.log[p][i] == s.log[p][i];
    forall i | 0 < i < |s'.log[p]| ensures FollowsAt(s', p, i) {
      if i < n {
        assert FollowsAt(s, p, i);
        if s.log[p][i].cause.Some? { assert OpExtends(s, s', s.log[p][i].cause.value); }
      }
    }
  }

  /** The operation that caused a version is durable. */
  lemma CauseIsDurable(s: Stores, p: int, i: int)
    requires p in s.log && LogOk(s, p) && 0 <= i < |s.log[p]| && s.log[p][i].cause.Some?
    ensures var k := s.log[p][i].cause.value; k in s.ops && s.ops[k].state.Durable() && s.ops[k].envelope.providerID == p
  {
    assert FollowsAt(s, p, i);
  }

  lemma LogsStay(s: Stores, s': Stores)
    requires LogsOk(s) && Extends(s, s') && s'.log == s.log
    ensures LogsOk(s')
  {
    hide LogOk;
    forall p | p in s'.log ensures LogOk(s', p) { LogStays(s, s', p); }
  }

  lemma LogsGrow(s: Stores, s': Stores, p: int)
    requires LogsOk(s) && Extends(s, s') && p in s'.log && LogOk(s', p) && s'.log == s.log[p := s'.log[p]]
    ensures LogsOk(s')
  {
    hide LogOk;
    forall q | q in s'.log ensures LogOk(s', q) {
      if q != p { LogStays(s, s', q); }
    }
  }

  lemma LogsKept(s: Stores, step: Step)
    requires LogsOk(s) && OpsOk(s) && Possible(s, step)
    ensures LogsOk(Effect(s, step))
  {
    hide PrepareFence, CommitFence, AbortFence, ValidEnvelope, Moved, LogsOk, LogOk, Extends;
    var s' := Effect(s, step);
    EffectExtends(s, step);
    match step {
      case NewProvider(p, _, _) => NewLog(s, step); LogsGrow(s, s', p);
      case Business(k) =>
        var p := s.ops[k].envelope.providerID;
        OkAt(s, p, k);
        GrowsByBusiness(s, s', p, k);
        LogsGrow(s, s', p);
      case Archive(p, _) => GrowsByHand(s, step); LogsGrow(s, s', p);
      case Unarchive(p, _) => GrowsByHand(s, step); LogsGrow(s, s', p);
      case _ => LogsStay(s, s');
    }
  }

  lemma OkAt(s: Stores, p: int, k: Token)
    requires LogsOk(s) && OpsOk(s)
    ensures p in s.log ==> LogOk(s, p)
    ensures k in s.ops ==> OpOk(s, k)
  {
    hide LogOk, OpOk;
  }

  lemma NewLog(s: Stores, step: Step)
    requires step.NewProvider? && Possible(s, step)
    ensures LogOk(Effect(s, step), step.p)
  {}

  lemma GrowsByHand(s: Stores, step: Step)
    requires (step.Archive? || step.Unarchive?) && Possible(s, step) && LogsOk(s)
    ensures LogOk(Effect(s, step), step.p)
  {
    var p := step.p;
    OkRow(s, p);
    var row := s.RowOf(p);
    var status := if step.Archive? then Archived else Disabled;
    EffectExtends(s, step);
    LogGrows(s, Effect(s, step), p, Change(row.(origin := step.renamed, status := status, statusRevision := row.statusRevision + 1), None));
  }

  lemma OkRow(s: Stores, p: int)
    requires LogsOk(s) && s.HasRow(p)
    ensures LogOk(s, p) && s.RowOf(p).Valid()
  {}

  lemma GrowsByBusiness(s: Stores, s': Stores, p: int, k: Token)
    requires Possible(s, Business(k)) && s' == Effect(s, Business(k)) && Extends(s, s')
    requires p == s.ops[k].envelope.providerID && p in s.log && LogOk(s, p) && OpOk(s, k)
    ensures LogOk(s', p)
  {
    var row := s.RowOf(p);
    assert row == s.log[p][|s.log[p]| - 1].row;
    forall i | 0 <= i < |s.log[p]| ensures s.log[p][i].cause != Some(k) {
      if s.log[p][i].cause.Some? { CauseIsDurable(s, p, i); }
    }
    LogGrows(s, s', p, Change(Moved(row, s.ops[k].envelope), Some(k)));
  }

  lemma OpStays(s: Stores, s': Stores, k: Token)
    requires Extends(s, s') && k in s.ops && OpOk(s, k) && k in s'.ops
    requires s'.ops[k].state.Durable() ==> s.ops[k].state.Durable() || MadeChange(s', k)
    ensures OpOk(s', k)
  {
    hide ValidEnvelope;
    var e := s.ops[k].envelope;
    assert OpExtends(s, s', k) && LogExtends(s, s', e.providerID);
    HadOriginStays(s, s', e.providerID, e.currentOriginRevision);
    HadStatusStays(s, s', e.providerID, e.currentStatusRevision, e.currentStatus);
    if s.ops[k].state.Durable() { MadeChangeStays(s, s', k); }
  }

  lemma OpsKept(s: Stores, step: Step)
    requires LogsOk(s) && OpsOk(s) && Possible(s, step)
    ensures OpsOk(Effect(s, step))
  {
    hide PrepareFence, CommitFence, AbortFence, ValidEnvelope, Moved, LogsOk, LogOk, OpOk, Extends, MadeChange;
    var s' := Effect(s, step);
    EffectExtends(s, step);
    forall k | k in s'.ops ensures OpOk(s', k) {
      if k in s.ops {
        if step == Business(k) { BusinessIsRecorded(s, k); }
        OpStays(s, s', k);
      } else {
        NewOp(s, step);
      }
    }
  }

  lemma BusinessIsRecorded(s: Stores, k: Token)
    requires Possible(s, Business(k))
    ensures MadeChange(Effect(s, Business(k)), k)
  {
    hide Moved, Starts;
    var p := s.ops[k].envelope.providerID;
    assert Effect(s, Business(k)).log[p][|s.log[p]|].cause == Some(k);
  }

  lemma NewOp(s: Stores, step: Step)
    requires (step.OpenOrigin? || step.OpenStatus?) && Possible(s, step)
    ensures OpOk(Effect(s, step), step.k)
  {
    var row := s.log[step.p][step.version].row;
    assert Effect(s, step).log[step.p][step.version].row == row;
  }

  lemma ExclusiveKept(s: Stores, step: Step)
    requires Exclusive(s) && Possible(s, step)
    ensures Exclusive(Effect(s, step))
  {
    hide PrepareFence, CommitFence, AbortFence, ValidEnvelope, Moved;
    EffectExtends(s, step);
    var s' := Effect(s, step);
    forall j, k | s'.Open(j) && s'.Open(k) && s'.ops[j].envelope.providerID == s'.ops[k].envelope.providerID ensures j == k {
      assert OpExtends(s, s', j) && OpExtends(s, s', k);
    }
  }

  lemma KeysKept(s: Stores, step: Step)
    requires Inv(s) && Possible(s, step)
    ensures KeysOk(Effect(s, step))
  {
    hide ValidEnvelope, Moved, LogsOk, OpsOk, Exclusive;
    EffectExtends(s, step);
    var s' := Effect(s, step);
    forall k | k in s'.keys ensures KeyOk(s', k) {
      assert k in s.keys ==> KeyOk(s, k);
      assert OpExtends(s, s', k);
      if (step.Prepare? || step.Commit? || step.Abort?) && step.k == k { KeyWritten(s, step, k); }
    }
  }

  lemma KeyWritten(s: Stores, step: Step, k: Token)
    requires (step.Prepare? || step.Commit? || step.Abort?) && step.k == k && Possible(s, step) && k in Effect(s, step).keys
    requires k in s.keys ==> KeyOk(s, k)
    requires GatesOk(s)
    ensures KeyOk(Effect(s, step), k)
  {
    var p := s.ops[k].envelope.providerID;
    if p in s.gates { assert GateOk(s, p); }
  }

  /** A durable operation has put the half it changed into the log. */
  lemma DurableIsRecorded(s: Stores, k: Token)
    requires LogsOk(s) && k in s.ops && OpOk(s, k) && s.ops[k].state.Durable()
    ensures var e := s.ops[k].envelope;
      if e.kind.OriginKind? then HadOrigin(s, e.providerID, e.nextOriginRevision)
      else HadStatus(s, e.providerID, e.nextStatusRevision, e.nextStatus)
  {
    var e := s.ops[k].envelope;
    var p := e.providerID;
    assert LogOk(s, p);
    var i :| 0 <= i < |s.log[p]| && s.log[p][i].cause == Some(k);
    assert FollowsAt(s, p, i);
    assert Matches(s.log[p][i].row, e) || s.log[p][i].row == Moved(s.log[p][i - 1].row, e);
  }

  /** What prepare, commit and abort leave in the gate is still what it may show. */
  lemma GateWritten(s: Stores, step: Step)
    requires (step.Prepare? || step.Commit? || step.Abort?) && Possible(s, step) && Inv(s)
    ensures var p := s.ops[step.k].envelope.providerID;
      p in Effect(s, step).gates ==> Shows(s, p, Effect(s, step).gates[p])
  {
    hide LogsOk, OpsOk, KeysOk, Exclusive, HadOrigin, HadStatus;
    var k := step.k;
    var e := s.ops[k].envelope;
    var p := e.providerID;
    EnvelopeIsValid(s, k);
    if p in s.gates {
      assert GateOk(s, p);
      match step {
        case Prepare(_) => PrepareShows(s, k);
        case Commit(_, text) => if Holds(s.CellOf(k), e.kind, k, text) { CommitRecorded(s, k); }
        case Abort(_, _) =>
      }
    }
  }

  lemma EnvelopeIsValid(s: Stores, k: Token)
    requires OpsOk(s) && k in s.ops
    ensures ValidEnvelope(s.ops[k].envelope) && s.ops[k].envelope.providerID in s.log
  {
    assert OpOk(s, k);
  }

  lemma PrepareShows(s: Stores, k: Token)
    requires Possible(s, Prepare(k)) && ValidEnvelope(s.ops[k].envelope)
    requires var p := s.ops[k].envelope.providerID; p in s.gates && Shows(s, p, s.gates[p])
    ensures var p := s.ops[k].envelope.providerID; p in s.gates && Shows(s, p, Effect(s, Prepare(k)).gates[p])
  {
    hide HadOrigin, HadStatus;
  }

  lemma CommitRecorded(s: Stores, k: Token)
    requires LogsOk(s) && OpsOk(s) && k in s.ops && s.ops[k].state.Durable()
    ensures var e := s.ops[k].envelope;
      if e.kind.OriginKind? then HadOrigin(s, e.providerID, e.nextOriginRevision)
      else HadStatus(s, e.providerID, e.nextStatusRevision, e.nextStatus)
  {
    hide LogOk;
    assert OpOk(s, k);
    DurableIsRecorded(s, k);
  }

  lemma ShowsStays(s: Stores, s': Stores, p: int, g: Gate)
    requires Extends(s, s') && Shows(s, p, g)
    ensures Shows(s', p, g)
  {
    hide HadOrigin, HadStatus;
    assert LogExtends(s, s', p);
    HadOriginStays(s, s', p, g.originRevision);
    HadStatusStays(s, s', p, g.statusRevision, g.status);
    if g.fence.Some? { assert OpExtends(s, s', g.fence.value.token); }
  }

  lemma GatesKept(s: Stores, step: Step)
    requires Inv(s) && Possible(s, step)
    ensures GatesOk(Effect(s, step))
  {
    hide PrepareFence, CommitFence, AbortFence, ValidEnvelope, Moved, LogsOk, OpsOk, KeysOk, Exclusive, Extends, Shows;
    EffectExtends(s, step);
    var s' := Effect(s, step);
    forall p | p in s'.gates ensures GateOk(s', p) {
      var g := s'.gates[p];
      if p in s.gates && g == s.gates[p] {
        assert GateOk(s, p);
      } else if step.Install? || step.Replace? {
        StableShows(s, p, step.version);
      } else {
        GateWritten(s, step);
      }
      ShowsStays(s, s', p, g);
    }
  }

  lemma StableShows(s: Stores, p: int, version: nat)
    requires Version(s, p, version)
    ensures Shows(s, p, Stable(s.log[p][version].row))
  {
    assert s.log[p][version].row == s.log[p][version].row;
  }

  lemma ApplyKeeps(s: Stores, step: Step)
    requires Inv(s)
    ensures Inv(Apply(s, step)) && Extends(s, Apply(s, step))
  {
    if Possible(s, step) {
      EffectExtends(s, step);
      LogsKept(s, step);
      OpsKept(s, step);
      ExclusiveKept(s, step);
      KeysKept(s, step);
      GatesKept(s, step);
    }
  }

  lemma {:induction false} RunKeeps(s: Stores, steps: seq<Step>)
    requires Inv(s)
    ensures Inv(Run(s, steps))
    decreases |steps|
  {
    if steps != [] {
      RunKeeps(s, steps[..|steps| - 1]);
      ApplyKeeps(Run(s, steps[..|steps| - 1]), steps[|steps| - 1]);
    }
  }

  lemma ReachableHasInv(s: Stores)
    requires Reachable(s)
    ensures Inv(s)
  {
    var steps: seq<Step> :| Run(Empty, steps) == s;
    RunKeeps(Empty, steps);
  }

  /** One call to a store, which when `flaky` may fail before or after it took effect. */
  method Attempt(s: Stores, step: Step, flaky: bool) returns (ok: bool, s': Stores)
    requires Reachable(s)
    ensures Reachable(s') && (s' == Apply(s, step) || (!ok && s' == s))
    ensures !flaky ==> ok
  {
    StepReaches(s, step);
    s' := s;
    var lost := Fault(flaky);
    var silent := Fault(flaky);
    if !lost { s' := Apply(s, step); }
    ok := !lost && !silent;
  }
}
