/**
 The runtime-state epoch: one PostgreSQL row, one durable operation at a time, and one
 integrity marker in Redis, moved forward by any number of start-up coordinators.

 A canonical marker hash stands for the identity it digests and a transition hash for the
 transition, both taken to be injective; times are left out.
 */
module StateEpoch {
  import opened Common

  type Token = string

  datatype Id = Id(epoch: string, revision: int)

  datatype Reason = Bootstrap | StateLoss | Restore

  datatype Transition = Transition(prior: Option<Id>, next: Id, reason: Reason) {

    predicate Valid() {
      next.epoch != "" &&
      if reason.Bootstrap? then prior.None? && next.revision == 1
      else prior.Some? && prior.value.epoch != "" && prior.value.revision >= 1 &&
           next.revision == prior.value.revision + 1 && next.epoch != prior.value.epoch
    }
  }

  datatype Row = Row(id: Id, reason: Reason, ready: bool)

  datatype Expected = ExpectAbsent | ExpectReady(id: Id)

  datatype OpState = Preparing | Prepared | DbCommitted | Committed {

    predicate Durable() {
      DbCommitted? || Committed?
    }

    function Rank(): nat {
      match this
      case Preparing => 0
      case Prepared => 1
      case DbCommitted => 2
      case Committed => 3
    }
  }

  datatype Op = Op(token: Token, transition: Transition, expected: Option<Expected>, state: OpState)

  /** The operation that a marker belongs to. */
  datatype Stamp = Stamp(token: Token, transition: Transition)

  datatype Marker =
    | NoMarker
    | ReadyMarker(id: Id, last: Option<Stamp>)
    | PendingMarker(stamp: Stamp, expected: Expected)
  {
    predicate Ready(i: Id) {
      ReadyMarker? && id == i
    }
  }

  /** The Redis key of one operation. */
  datatype KeyState = KeyPending | KeyCommitted

  // ----- scripts

  datatype PrepareCode = FencePrepared | NewReadyObserved | FenceConflict

  predicate Compatible(key: Option<KeyState>, allowed: KeyState) {
    key.None? || key.value == allowed
  }

  /** epoch_prepare.lua */
  function PrepareFence(m: Marker, key: Option<KeyState>, st: Stamp, expected: Expected): (PrepareCode, Marker, Option<KeyState>) {
    if m.NoMarker? then
      if expected == ExpectAbsent && Compatible(key, KeyPending)
      then (FencePrepared, PendingMarker(st, expected), Some(KeyPending)) else (FenceConflict, m, key)
    else if m.ReadyMarker? && st.transition.prior == Some(m.id) && expected == ExpectReady(m.id) then
      if Compatible(key, KeyPending)
      then (FencePrepared, PendingMarker(st, expected), Some(KeyPending)) else (FenceConflict, m, key)
    else if m == PendingMarker(st, expected) then
      if Compatible(key, KeyPending) then (FencePrepared, m, Some(KeyPending)) else (FenceConflict, m, key)
    else if m == ReadyMarker(st.transition.next, Some(st)) then
      if Compatible(key, KeyCommitted) then (NewReadyObserved, m, Some(KeyCommitted)) else (FenceConflict, m, key)
    else (FenceConflict, m, key)
  }

  /** epoch_commit.lua */
  function CommitFence(m: Marker, key: Option<KeyState>, st: Stamp): (bool, Marker, Option<KeyState>) {
    if m == ReadyMarker(st.transition.next, Some(st)) then (true, m, key)
    else if m.PendingMarker? && m.stamp == st && Compatible(key, KeyPending)
    then (true, ReadyMarker(st.transition.next, Some(st)), Some(KeyCommitted))
    else (false, m, key)
  }

  /** epoch_reconcile_ready.lua */
  function ReconcileReady(m: Marker, id: Id): Marker {
    if m.Ready(id) then m else ReadyMarker(id, None)
  }

  // ----- the marker truth table of the coordinator

  datatype Classified = Conflict | Expect(expected: Expected, record: bool)

  function Classify(m: Marker, op: Op): Classified {
    var t := op.transition;
    var st := Stamp(op.token, t);
    if m.NoMarker? then Expect(ExpectAbsent, op.expected != Some(ExpectAbsent))
    else if t.prior.Some? && m.Ready(t.prior.value) then Expect(ExpectReady(m.id), op.expected != Some(ExpectReady(m.id)))
    else if m.PendingMarker? && m.stamp == st then
      if op.expected == Some(m.expected) then Expect(m.expected, false) else Conflict
    else if m == ReadyMarker(t.next, Some(st)) then
      if op.expected.Some? then Expect(op.expected.value, false) else Conflict
    else Conflict
  }

  /**
   The coordinator's table and the script's table are one table: once the expectation is
   recorded, the script turns down exactly the markers the coordinator would have turned
   down, and otherwise only an operation key that has run ahead of or behind the marker.
   */
  lemma TablesAgree(m: Marker, key: Option<KeyState>, op: Op, expected: Expected)
    requires op.transition.Valid()
    ensures var (code, m', key') := PrepareFence(m, key, Stamp(op.token, op.transition), expected);
      var wanted := if m == ReadyMarker(op.transition.next, Some(Stamp(op.token, op.transition))) then KeyCommitted else KeyPending;
      code == FenceConflict <==>
        (Classify(m, op.(expected := Some(expected))) != Expect(expected, false) || !Compatible(key, wanted))
  {}

  // ----- stores and coordinators

  /** Who moved the row to a revision. */
  datatype Entry = Entry(epoch: string, token: Token)

  /**
   `row` and `ops` are PostgreSQL, `marker` and `keys` are Redis.  `log` records the epoch
   of every revision the row has had and the operation that brought it, `shown` every
   identity the marker has ever been ready for.
   */
  datatype Stores = Stores(
    row: Option<Row>,
    ops: map<Token, Op>,
    marker: Marker,
    keys: map<Token, KeyState>,
    log: seq<Entry>,
    shown: set<Id>)
  {
    function Key(k: Token): Option<KeyState> {
      if k in keys then Some(keys[k]) else None
    }

    function WithFence(k: Token, m: Marker, key: Option<KeyState>): Stores {
      this.(marker := m, keys := if key.Some? then keys[k := key.value] else keys,
            shown := if m.ReadyMarker? then shown + {m.id} else shown)
    }

    function WithOp(op: Op): Stores {
      this.(ops := ops[op.token := op])
    }

    predicate Knows(op: Op) {
      op.token in ops && ops[op.token].transition == op.transition && ops[op.token].token == op.token
    }

    predicate KnowsDurable(op: Op) {
      Knows(op) && ops[op.token].state.Durable()
    }
  }

  datatype Answer = Ready(record: Row) | NotReady(record: Row) | Failed

  datatype Local =
    | EnsCreate(token: Token, epoch: string)
    | EnsReadRow(created: Option<Op>)
    | EnsFindOp(record: Row)
    | EnsReconcile(record: Row)
    | EnsCheck(record: Row)
    | RecRead(op: Op)
    | RecRecord(op: Op, expected: Expected)
    | RecPrepare(op: Op)
    | RecMarkPrepared(op: Op)
    | RecAdvance(op: Op)
    | RecReload(op: Op)
    | RecReadCommitted(op: Op)
    | RecCommit(op: Op)
    | RecReloadReady(op: Op)
    | RecFinalize(op: Op)
    | Answered(answer: Answer)

  datatype State = State(stores: Stores, procs: map<nat, Local>)

  // ----- PostgreSQL statements

  function BootstrapOp(token: Token, epoch: string): Op {
    Op(token, Transition(None, Id(epoch, 1), Bootstrap), None, Preparing)
  }

  function CreateBootstrap(s: Stores, token: Token, epoch: string): Stores {
    s.WithOp(BootstrapOp(token, epoch)).(row := Some(Row(Id(epoch, 1), Bootstrap, false)), log := [Entry(epoch, token)])
  }

  /** The unique index and the insert trigger: a recovery starts from the ready row, with no operation open. */
  predicate CanCreateRecovery(s: Stores, op: Op) {
    && op.transition.Valid() && !op.transition.reason.Bootstrap? && op.state.Preparing? && op.expected.None?
    && op.token !in s.ops && NoneOpen(s)
    && s.row.Some? && s.row.value.ready && op.transition.prior == Some(s.row.value.id)
  }

  predicate CanRecord(s: Stores, op: Op) {
    s.Knows(op) && !s.ops[op.token].state.Committed? && s.ops[op.token].expected == op.expected
  }

  /** The row agrees with what the transition starts from. */
  predicate CanAdvance(s: Stores, op: Op) {
    s.Knows(op) && s.ops[op.token].state.Prepared? && s.row.Some? &&
    var row := s.row.value;
    if op.transition.reason.Bootstrap?
    then row.id.revision == 1 && row.id.epoch == op.transition.next.epoch && !row.ready && row.reason.Bootstrap?
    else op.transition.prior == Some(row.id) && row.ready
  }

  function Advance(s: Stores, op: Op): Stores
    requires CanAdvance(s, op)
  {
    var s' := s.WithOp(s.ops[op.token].(state := DbCommitted));
    if op.transition.reason.Bootstrap? then s'
    else s'.(row := Some(Row(op.transition.next, op.transition.reason, false)),
             log := s.log + [Entry(op.transition.next.epoch, op.token)])
  }

  predicate AlreadyReady(s: Stores, op: Op) {
    s.Knows(op) && s.ops[op.token].state.Committed? && s.row.Some? && s.row.value.ready && s.row.value.id == op.transition.next
  }

  predicate CanFinalize(s: Stores, op: Op) {
    s.Knows(op) && s.ops[op.token].state.DbCommitted? && s.row.Some? && !s.row.value.ready && s.row.value.id == op.transition.next
  }

  function Finalize(s: Stores, op: Op): Stores
    requires CanFinalize(s, op)
  {
    s.WithOp(s.ops[op.token].(state := Committed)).(row := Some(s.row.value.(ready := true)))
  }

  // ----- steps of a coordinator; any call may fail, before or after it took effect

  /** The stores after the statement or script a coordinator is about to run, if it gets through. */
  function Effect(s: Stores, l: Local): Stores {
    match l
    case EnsCreate(token, epoch) => if s.row.None? && token !in s.ops && epoch != "" then CreateBootstrap(s, token, epoch) else s
    case EnsReconcile(record) => var m := ReconcileReady(s.marker, record.id); s.(marker := m, shown := s.shown + {record.id})
    case RecRecord(op, expected) =>
      if CanRecord(s, op) then s.WithOp(s.ops[op.token].(expected := Some(expected))) else s
    case RecPrepare(op) =>
      if op.expected.None? then s
      else var (code, m, key) := PrepareFence(s.marker, s.Key(op.token), Stamp(op.token, op.transition), op.expected.value);
           s.WithFence(op.token, m, key)
    case RecMarkPrepared(op) =>
      if s.Knows(op) && s.ops[op.token].state.Preparing? then s.WithOp(s.ops[op.token].(state := Prepared)) else s
    case RecAdvance(op) => if CanAdvance(s, op) then Advance(s, op) else s
    case RecCommit(op) =>
      var (done, m, key) := CommitFence(s.marker, s.Key(op.token), Stamp(op.token, op.transition));
      s.WithFence(op.token, m, key)
    case RecFinalize(op) => if CanFinalize(s, op) then Finalize(s, op) else s
    case _ => s
  }

  /** What the coordinator knows once the call has answered. */
  function Learns(s: Stores, l: Local): Local {
    match l
    case EnsCreate(token, epoch) =>
      EnsReadRow(if s.row.None? && token !in s.ops && epoch != "" then Some(BootstrapOp(token, epoch)) else None)
    case EnsReadRow(created) =>
      if s.row.None? then Answered(Failed)
      else if created.Some? then RecRead(created.value) else EnsFindOp(s.row.value)
    case EnsFindOp(record) => if record.ready then EnsReconcile(record) else Answered(Failed)
    case EnsReconcile(record) => EnsCheck(record)
    case EnsCheck(record) => Answered(if s.marker.Ready(record.id) then Ready(record) else NotReady(record))
    case RecRead(op) =>
      var c := Classify(s.marker, op);
      if c.Conflict? then Answered(Failed) else if c.record then RecRecord(op, c.expected) else RecPrepare(op)
    case RecRecord(op, expected) =>
      if CanRecord(s, op) then RecPrepare(op.(expected := Some(expected)))
      else if s.Knows(op) && s.ops[op.token].expected == Some(expected) then RecPrepare(s.ops[op.token])
      else Answered(Failed)
    case RecPrepare(op) =>
      if op.expected.None? then Answered(Failed)
      else
        var code := PrepareFence(s.marker, s.Key(op.token), Stamp(op.token, op.transition), op.expected.value).0;
        if code.FenceConflict? then Answered(Failed)
        else if code.NewReadyObserved? then RecReloadReady(op)
        else if op.state.Preparing? then RecMarkPrepared(op)
        else if op.state.Prepared? then RecAdvance(op)
        else RecReload(op)
    case RecMarkPrepared(op) =>
      if !s.Knows(op) then Answered(Failed)
      else if s.ops[op.token].state.Preparing? then RecAdvance(op.(state := Prepared))
      else if s.ops[op.token].state.Prepared? then RecAdvance(s.ops[op.token])
      else if s.ops[op.token].state.DbCommitted? then RecReload(s.ops[op.token])
      else Answered(Failed)
    case RecAdvance(op) =>
      if CanAdvance(s, op) || s.KnowsDurable(op) then RecReload(op) else Answered(Failed)
    case RecReload(op) =>
      if !s.Knows(op) then Answered(Failed)
      else if s.ops[op.token].state.Committed? then RecReadCommitted(s.ops[op.token])
      else if s.ops[op.token].state.DbCommitted? then RecCommit(s.ops[op.token])
      else Answered(Failed)
    case RecReadCommitted(op) => Answered(if s.row.Some? then Ready(s.row.value) else Failed)
    case RecCommit(op) =>
      if CommitFence(s.marker, s.Key(op.token), Stamp(op.token, op.transition)).0 then RecFinalize(op) else Answered(Failed)
    case RecReloadReady(op) =>
      if s.KnowsDurable(op) then RecFinalize(s.ops[op.token]) else Answered(Failed)
    case RecFinalize(op) =>
      if AlreadyReady(s, op) then Answered(Ready(s.row.value))
      else if CanFinalize(s, op) then Answered(Ready(s.row.value.(ready := true)))
      else Answered(Failed)
    case Answered(_) => l
  }

  predicate Open(s: Stores, k: Token) {
    k in s.ops && !s.ops[k].state.Committed?
  }

  /** The open operation is looked up by kind, not by token. */
  predicate FindsOp(s: Stores, l: Local, l': Local) {
    l.EnsFindOp? && l'.RecRead? && Open(s, l'.op.token) && s.ops[l'.op.token] == l'.op
  }

  predicate NoneOpen(s: Stores) {
    forall k :: k in s.ops ==> s.ops[k].state.Committed?
  }

  predicate CoordinatorStep(s: Stores, l: Local, s': Stores, l': Local) {
    || (s' == s && FindsOp(s, l, l'))
    || (s' == Effect(s, l) && l' == Learns(s, l) && (l.EnsFindOp? ==> NoneOpen(s)))
    || ((s' == s || s' == Effect(s, l)) && l' == Answered(Failed))
  }

  datatype Step =
    | Start(p: nat, token: Token, epoch: string)
    | Run(p: nat, l: Local)
    | Crash(p: nat)
    | RequestRecovery(op: Op)
    | LoseMarker
    | LoseKey(k: Token)

  predicate NextBy(s: State, s': State, step: Step) {
    match step
    case Start(p, token, epoch) => p !in s.procs && s' == s.(procs := s.procs[p := EnsCreate(token, epoch)])
    case Run(p, l) =>
      p in s.procs && CoordinatorStep(s.stores, s.procs[p], s'.stores, l) && s'.procs == s.procs[p := l]
    case Crash(p) => s' == s.(procs := s.procs - {p})
    case RequestRecovery(op) =>
      CanCreateRecovery(s.stores, op) && s' == s.(stores := s.stores.WithOp(op))
    case LoseMarker => s' == s.(stores := s.stores.(marker := NoMarker))
    case LoseKey(k) => s' == s.(stores := s.stores.(keys := s.stores.keys - {k}))
  }

  ghost predicate Next(s: State, s': State) {
    exists step :: NextBy(s, s', step)
  }

  /** Nothing exists yet in either store. */
  predicate Init(s: State) {
    s == State(Stores(None, map[], NoMarker, map[], [], {}), map[])
  }

  ghost predicate Follows(run: seq<State>, i: nat) {
    i + 1 < |run| ==> Next(run[i], run[i + 1])
  }

  ghost predicate IsRun(run: seq<State>) {
    |run| > 0 && Init(run[0]) && forall i: nat :: Follows(run, i)
  }
}
