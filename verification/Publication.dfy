/**
 Recoverable publication of a runtime control across PostgreSQL and Redis.

 `Stores` is what both stores hold, `Local` is what one running publisher, reconciler or
 restorer knows, and `Next` lets any of them make one atomic step: one SQL statement, one
 transaction or one script.  A reply may be lost, a process may stop between any two steps,
 Redis may lose a control or let an operation key expire, and a publication may be retried
 with its token at any time by any number of processes.
 */
module Publication {
  import opened Common
  import opened ControlScripts

  datatype Target = ChannelCapacity(channelID: int) | AppSetting(key: string)

  datatype OpState = Preparing | Prepared | DbCommitted | Committed | Aborted {

    predicate Terminal() {
      Committed? || Aborted?
    }

    /** The business transaction of the operation has been committed. */
    predicate Durable() {
      DbCommitted? || Committed?
    }
  }

  /** The fields of a publication that never change; `next.payload` also stands for its hash. */
  datatype Request = Request(target: Target, token: Token, current: int, next: Version) {

    predicate Valid() {
      token != "" && next.revision == current + 1
    }
  }

  datatype OpRow = OpRow(request: Request, state: OpState)

  datatype Commitment = Commitment(token: Token, payload: Payload)

  /**
   `rows` and `ops` are PostgreSQL, `controls` and `redisOps` are Redis.  `start` and `log`
   record how every business row got where it is: its first version, and the commits since.
   */
  datatype Stores = Stores(
    rows: map<Target, Version>,
    ops: map<Token, OpRow>,
    controls: map<Target, Control>,
    redisOps: map<Token, RedisOp>,
    start: map<Target, Version>,
    log: map<Target, seq<Commitment>>)
  {
    function Control(t: Target): Control {
      if t in controls then controls[t] else Absent
    }

    function CellOf(r: Request): Cell {
      Cell(Control(r.target), if r.token in redisOps then Some(redisOps[r.token]) else None)
    }

    function WithCell(r: Request, c: Cell): Stores {
      this.(controls := controls[r.target := c.control],
            redisOps := if c.op.Some? then redisOps[r.token := c.op.value] else redisOps)
    }

    /** PostgreSQL holds, or once held, this version of the target. */
    predicate EverCommitted(t: Target, v: Version) {
      t in start && t in log &&
      (v == start[t] ||
       var i := v.revision - start[t].revision - 1;
       0 <= i < |log[t]| && log[t][i].payload == v.payload)
    }

    predicate Knows(r: Request) {
      r.token in ops && ops[r.token].request == r
    }

    predicate KnowsDurable(r: Request) {
      Knows(r) && ops[r.token].state.Durable()
    }
  }

  // ----- what one process knows between two of its steps

  datatype Outcome = OutCommitted | OutSyncPending | OutAborted | OutError

  datatype Local =
    | PubCreate(req: Request)
    | PubPrepare(req: Request)
    | PubMarkPrepared(req: Request)
    | PubBusiness(req: Request)
    | PubCommit(req: Request)
    | PubMarkCommitted(req: Request)
    | PubAbort(req: Request)
    | PubMarkAborted(req: Request)
    | PubDone(req: Request, outcome: Outcome)
    | RecListed(op: OpRow)
    | RecResolved(op: OpRow, row: Version)
    | RecChecked(op: OpRow, row: Version)
    | RecMark(op: OpRow)
    | RecDone
    | Restore(target: Target, row: Version)

  datatype State = State(stores: Stores, procs: map<nat, Local>)

  // ----- PostgreSQL statements

  /** The partial unique indexes: a target has at most one operation that is not terminal. */
  predicate Free(s: Stores, t: Target) {
    forall k :: k in s.ops && s.ops[k].request.target == t ==> s.ops[k].state.Terminal()
  }

  function CreateOp(s: Stores, r: Request): Stores {
    s.(ops := s.ops[r.token := OpRow(r, Preparing)])
  }

  /** The four `Mark...` statements: compare-and-set on the state of one operation. */
  function Mark(s: Stores, r: Request, from: set<OpState>, to: OpState): Stores {
    if s.Knows(r) && s.ops[r.token].state in from
    then s.(ops := s.ops[r.token := OpRow(r, to)]) else s
  }

  predicate CanCommitBusiness(s: Stores, r: Request) {
    s.Knows(r) && s.ops[r.token].state.Prepared? &&
    r.target in s.rows && s.rows[r.target].revision == r.current && r.target in s.log
  }

  /** The business transaction: the row moves to the next version and the operation with it. */
  function CommitBusiness(s: Stores, r: Request): Stores
    requires CanCommitBusiness(s, r)
  {
    s.(rows := s.rows[r.target := r.next],
       ops := s.ops[r.token := OpRow(r, DbCommitted)],
       log := s.log[r.target := s.log[r.target] + [Commitment(r.token, r.next.payload)]])
  }

  // ----- steps

  /** What a step does to the stores and what its process knows afterwards. */
  predicate PublisherStep(s: Stores, l: Local, s': Stores, l': Local) {
    match l
    case PubCreate(r) =>
      // the row is inserted, or an existing row with this token is loaded
      || (r.token !in s.ops && Free(s, r.target) && s' == CreateOp(s, r) && l' == PubPrepare(r))
      || (s' == s && s.Knows(r) &&
          l' == match s.ops[r.token].state
                case Committed => PubDone(r, OutCommitted)
                case DbCommitted => PubCommit(r)
                case Aborted => PubDone(r, OutAborted)
                case _ => PubPrepare(r))
      || (s' == s && l' == PubDone(r, OutError))
    case PubPrepare(r) =>
      var (code, c) := Prepare(s.CellOf(r), r.token, r.current, r.next);
      || (s' == s.WithCell(r, c) &&
          l' == match code
                case CodePrepared => PubMarkPrepared(r)
                case CodeCommitted => PubDone(r, OutSyncPending)
                case _ => PubAbort(r))
      || ((s' == s || s' == s.WithCell(r, c)) && l' == PubAbort(r))
    case PubMarkPrepared(r) =>
      (s' == s || s' == Mark(s, r, {Preparing}, Prepared)) &&
      (l' == PubBusiness(r) || l' == PubAbort(r)) &&
      (l' == PubBusiness(r) ==> s' == Mark(s, r, {Preparing}, Prepared))
    case PubBusiness(r) =>
      || (CanCommitBusiness(s, r) && s' == CommitBusiness(s, r) && (l' == PubCommit(r) || l' == PubAbort(r)))
      || (s' == s && l' == PubAbort(r))
    case PubCommit(r) =>
      var (code, c) := Commit(s.CellOf(r), r.token, r.next.payload);
      || (s' == s.WithCell(r, c) && code == CodeCommitted && l' == PubMarkCommitted(r))
      || ((s' == s || s' == s.WithCell(r, c)) && l' == PubDone(r, OutSyncPending))
    case PubMarkCommitted(r) =>
      || (s' == Mark(s, r, {DbCommitted}, Committed) && (l' == PubDone(r, OutCommitted) || l' == PubDone(r, OutSyncPending)))
      || (s' == s && l' == PubDone(r, OutSyncPending))
    case PubAbort(r) =>
      (s' == s || s' == s.WithCell(r, Abort(s.CellOf(r), r.token, r.next.payload).1)) && l' == PubMarkAborted(r)
    case PubMarkAborted(r) =>
      (s' == s || s' == Mark(s, r, {Preparing, Prepared}, Aborted)) &&
      (l' == PubDone(r, OutAborted) || l' == PubDone(r, OutError))
    case _ => false
  }

  /** The revision the business row must have while an operation is in this state. */
  function ExpectedRevision(op: OpRow): int {
    if op.state.DbCommitted? then op.request.next.revision else op.request.current
  }

  /** The recovery script for the state in which the operation was listed. */
  function Recover(s: Stores, op: OpRow, row: Version): (Code, Cell) {
    var r := op.request;
    if op.state.DbCommitted? then RecoverCommitted(s.CellOf(r), r.token, r.current, row)
    else RecoverAborted(s.CellOf(r), r.token, row, r.next)
  }

  predicate ReconcilerStep(s: Stores, l: Local, s': Stores, l': Local) {
    match l
    case RecListed(op) =>
      // the payload is taken from the business row, at the revision the operation expects
      s' == s &&
      (l' == RecDone ||
       (op.request.target in s.rows && s.rows[op.request.target].revision == ExpectedRevision(op) &&
        l' == RecResolved(op, s.rows[op.request.target])))
    case RecResolved(op, row) =>
      var c := s.Control(op.request.target);
      s' == s &&
      (l' == RecDone ||
       (l' == RecChecked(op, row) &&
        (op.state.DbCommitted? ==> row.payload == op.request.next.payload) &&
        (c.HasPending() ==> c.pending.value.version == op.request.next)))
    case RecChecked(op, row) =>
      var r := op.request;
      var (code, c) := Recover(s, op, row);
      || (s' == s.WithCell(r, c) && (code == CodeCommitted || code == CodeAborted) && l' == RecMark(op))
      || ((s' == s || s' == s.WithCell(r, c)) && l' == RecDone)
    case RecMark(op) =>
      l' == RecDone &&
      (s' == s ||
       s' == if op.state.DbCommitted? then Mark(s, op.request, {DbCommitted}, Committed)
             else Mark(s, op.request, {Preparing, Prepared}, Aborted))
    case Restore(t, row) =>
      l' == RecDone &&
      (s' == s
       || s' == s.(controls := s.controls[t := RestoreMissing(s.Control(t), row)])
       || s' == s.(controls := s.controls[t := Replace(row)]))
    case _ => false
  }

  /** A publisher starts on any request, a reconciler on an operation it lists, a restorer on a row it reads. */
  predicate Starts(s: Stores, l: Local) {
    || (l.PubCreate? && l.req.Valid())
    || (l.RecListed? && s.Knows(l.op.request) && s.ops[l.op.request.token] == l.op && !l.op.state.Terminal())
    || (l.Restore? && l.target in s.rows && s.rows[l.target] == l.row)
  }

  datatype Step =
    | Start(p: nat, l: Local)
    | Run(p: nat, l: Local)
    | Crash(p: nat)
    | LoseControl(t: Target)
    | ExpireOp(token: Token)

  predicate NextBy(s: State, s': State, step: Step) {
    match step
    case Start(p, l) =>
      p !in s.procs && Starts(s.stores, l) && s' == s.(procs := s.procs[p := l])
    case Run(p, l) =>
      p in s.procs && s'.procs == s.procs[p := l] &&
      (PublisherStep(s.stores, s.procs[p], s'.stores, l) || ReconcilerStep(s.stores, s.procs[p], s'.stores, l))
    case Crash(p) => s' == s.(procs := s.procs - {p})
    case LoseControl(t) => s' == s.(stores := s.stores.(controls := s.stores.controls - {t}))
    case ExpireOp(k) => s' == s.(stores := s.stores.(redisOps := s.stores.redisOps - {k}))
  }

  ghost predicate Next(s: State, s': State) {
    exists step :: NextBy(s, s', step)
  }

  /** Rows exist at revision 1 or later; nothing has been published yet and Redis is empty. */
  predicate Init(s: State) {
    && s.procs == map[] && s.stores.ops == map[] && s.stores.controls == map[] && s.stores.redisOps == map[]
    && s.stores.start == s.stores.rows
    && s.stores.log == (map t | t in s.stores.rows :: [])
    && (forall t :: t in s.stores.rows ==> s.stores.rows[t].revision >= 1)
  }

  ghost predicate Follows(run: seq<State>, i: nat) {
    i + 1 < |run| ==> Next(run[i], run[i + 1])
  }

  ghost predicate IsRun(run: seq<State>) {
    |run| > 0 && Init(run[0]) && forall i: nat :: Follows(run, i)
  }

  // ----- invariants

  /** A business row is its first version followed by exactly the commits in its log. */
  predicate RowFromLog(s: Stores, t: Target)
    requires t in s.rows && t in s.start && t in s.log
  {
    var n := |s.log[t]|;
    s.start[t].revision >= 1 &&
    s.rows[t] == if n == 0 then s.start[t]
                 else Version(s.start[t].revision + n, s.log[t][n - 1].payload)
  }

  predicate Rows(s: Stores) {
    s.rows.Keys == s.start.Keys == s.log.Keys &&
    forall t :: t in s.rows ==> RowFromLog(s, t)
  }

  /** The place of a durable operation in the log of its target. */
  predicate Logged(s: Stores, r: Request) {
    r.target in s.log && r.target in s.start &&
    var i := r.next.revision - s.start[r.target].revision - 1;
    0 <= i < |s.log[r.target]| && s.log[r.target][i] == Commitment(r.token, r.next.payload)
  }

  predicate LogEntry(s: Stores, t: Target, i: nat)
    requires t in s.log && t in s.start && i < |s.log[t]|
  {
    var k := s.log[t][i].token;
    k in s.ops && s.ops[k].state.Durable() && s.ops[k].request.target == t &&
    s.ops[k].request.next == Version(s.start[t].revision + i + 1, s.log[t][i].payload)
  }

  predicate Ops(s: Stores) {
    && (forall k :: k in s.ops ==> s.ops[k].request.token == k && s.ops[k].request.Valid())
    && (forall k :: k in s.ops && s.ops[k].state.Durable() ==> Logged(s, s.ops[k].request))
    && (forall t, i :: t in s.log && t in s.start && 0 <= i < |s.log[t]| ==> LogEntry(s, t, i))
  }

  predicate ControlOk(s: Stores, t: Target, c: Control) {
    c.Present? ==>
      && (c.active.Some? ==> s.EverCommitted(t, c.active.value))
      && (c.pending.Some? ==>
            var k := c.pending.value.token;
            k in s.ops && s.ops[k].request.target == t && s.ops[k].request.next == c.pending.value.version &&
            c.pending.value.version.revision == c.ActiveRevision() + 1)
  }

  predicate RedisOpOk(s: Stores, k: Token, o: RedisOp) {
    k in s.ops && o.payload == s.ops[k].request.next.payload &&
    (o.mark.OpCommitted? ==> s.ops[k].state.Durable())
  }

  predicate Redis(s: Stores) {
    && (forall t :: t in s.controls ==> ControlOk(s, t, s.controls[t]))
    && (forall k :: k in s.redisOps ==> RedisOpOk(s, k, s.redisOps[k]))
  }

  predicate StoresOk(s: Stores) {
    Rows(s) && Ops(s) && Redis(s)
  }

  /** What a process knows stays true whatever the others do. */
  predicate LocalOk(s: Stores, l: Local) {
    match l
    case PubCreate(r) => r.Valid()
    case PubCommit(r) => s.KnowsDurable(r)
    case PubMarkCommitted(r) => s.KnowsDurable(r)
    case PubDone(r, o) => o.OutCommitted? ==> s.KnowsDurable(r)
    case RecListed(op) => OpSeen(s, op)
    case RecResolved(op, row) => OpSeen(s, op) && s.EverCommitted(op.request.target, row) && row.revision == ExpectedRevision(op)
    case RecChecked(op, row) =>
      && OpSeen(s, op) && s.EverCommitted(op.request.target, row) && row.revision == ExpectedRevision(op)
      && (op.state.DbCommitted? ==> row == op.request.next)
    case RecMark(op) => OpSeen(s, op)
    case RecDone => true
    case Restore(t, row) => s.EverCommitted(t, row)
    case _ => s.Knows(l.req)
  }

  predicate OpSeen(s: Stores, op: OpRow) {
    s.Knows(op.request) && !op.state.Terminal() && (op.state.DbCommitted? ==> s.KnowsDurable(op.request))
  }

  predicate Inv(s: State) {
    StoresOk(s.stores) && forall p :: p in s.procs ==> LocalOk(s.stores, s.procs[p])
  }

  /** How the stores may grow in one step: nothing committed is ever taken back. */
  predicate Extends(s: Stores, s': Stores) {
    && s.start == s'.start && s.log.Keys == s'.log.Keys
    && (forall t :: t in s.log ==> s.log[t] <= s'.log[t])
    && OpsExtend(s, s')
  }

  predicate OpsExtend(s: Stores, s': Stores) {
    forall k :: k in s.ops ==> k in s'.ops && s'.ops[k].request == s.ops[k].request &&
                               Advances(s.ops[k].state, s'.ops[k].state)
  }

  predicate Advances(a: OpState, b: OpState) {
    || a == b
    || (a.Preparing? && (b.Prepared? || b.Aborted?))
    || (a.Prepared? && (b.DbCommitted? || b.Aborted?))
    || (a.DbCommitted? && b.Committed?)
  }

  // ----- what was established about the stores stays true when they are extended

  lemma KnowledgeIsStable(s: Stores, s': Stores, l: Local)
    requires Extends(s, s') && LocalOk(s, l)
    ensures LocalOk(s', l)
  {}

  lemma RedisIsStable(s: Stores, s': Stores)
    requires Extends(s, s') && Redis(s)
    requires s'.controls.Keys <= s.controls.Keys && forall t :: t in s'.controls ==> s'.controls[t] == s.controls[t]
    requires s'.redisOps.Keys <= s.redisOps.Keys && forall k :: k in s'.redisOps ==> s'.redisOps[k] == s.redisOps[k]
    ensures Redis(s')
  {
    forall t | t in s'.controls ensures ControlOk(s', t, s'.controls[t]) { assert ControlOk(s, t, s.controls[t]); }
    forall k | k in s'.redisOps ensures RedisOpOk(s', k, s'.redisOps[k]) { assert RedisOpOk(s, k, s.redisOps[k]); }
  }

  /** PostgreSQL untouched: rows, operations and logs keep their relation. */
  lemma PostgresIsStable(s: Stores, s': Stores)
    requires Rows(s) && Ops(s)
    requires s.rows == s'.rows && s.ops == s'.ops && s.start == s'.start && s.log == s'.log
    ensures Rows(s') && Ops(s') && Extends(s, s')
  {
    forall t | t in s'.rows ensures RowFromLog(s', t) { assert RowFromLog(s, t); }
    forall t, i | t in s'.log && t in s'.start && 0 <= i < |s'.log[t]| ensures LogEntry(s', t, i) {
      assert LogEntry(s, t, i);
    }
    forall k | k in s'.ops && s'.ops[k].state.Durable() ensures Logged(s', s'.ops[k].request) {
      assert Logged(s, s.ops[k].request);
    }
  }

  // ----- every store change keeps the stores consistent and only extends what was committed

  lemma CreateKeeps(s: Stores, r: Request)
    requires StoresOk(s) && r.Valid() && r.token !in s.ops
    ensures StoresOk(CreateOp(s, r)) && Extends(s, CreateOp(s, r))
  {
    var s' := CreateOp(s, r);
    forall t | t in s'.rows ensures RowFromLog(s', t) { assert RowFromLog(s, t); }
    forall t, i | t in s'.log && t in s'.start && 0 <= i < |s'.log[t]| ensures LogEntry(s', t, i) {
      assert LogEntry(s, t, i);
    }
    RedisIsStable(s, s');
  }

  lemma MarkOps(s: Stores, r: Request, to: OpState)
    requires Ops(s) && s.Knows(r) && (s.ops[r.token].state.Durable() <==> to.Durable())
    ensures Ops(s.(ops := s.ops[r.token := OpRow(r, to)]))
  {
    var s' := s.(ops := s.ops[r.token := OpRow(r, to)]);
    forall t, i | t in s'.log && t in s'.start && 0 <= i < |s'.log[t]| ensures LogEntry(s', t, i) {
      assert LogEntry(s, t, i);
    }
    forall k | k in s'.ops && s'.ops[k].state.Durable() ensures Logged(s', s'.ops[k].request) {
      assert Logged(s, s.ops[k].request);
    }
  }

  lemma MarkKeeps(s: Stores, r: Request, to: OpState)
    requires StoresOk(s) && s.Knows(r)
    requires Advances(s.ops[r.token].state, to) && (s.ops[r.token].state.Durable() <==> to.Durable())
    ensures var s' := s.(ops := s.ops[r.token := OpRow(r, to)]); StoresOk(s') && Extends(s, s')
  {
    var s' := s.(ops := s.ops[r.token := OpRow(r, to)]);
    forall t | t in s'.rows ensures RowFromLog(s', t) { assert RowFromLog(s, t); }
    MarkOps(s, r, to);
    RedisIsStable(s, s');
  }

  predicate AtEndOfLog(s: Stores, r: Request) {
    r.target in s.log && r.target in s.start &&
    r.next.revision == s.start[r.target].revision + |s.log[r.target]| + 1
  }

  lemma CommitBusinessRows(s: Stores, r: Request)
    requires Rows(s) && CanCommitBusiness(s, r) && r.Valid()
    ensures Rows(CommitBusiness(s, r)) && AtEndOfLog(s, r)
  {
    var s' := CommitBusiness(s, r);
    assert RowFromLog(s, r.target);
    forall t | t in s'.rows ensures RowFromLog(s', t) { assert RowFromLog(s, t); }
  }

  lemma CommitBusinessOps(s: Stores, r: Request)
    requires Ops(s) && CanCommitBusiness(s, r) && AtEndOfLog(s, r)
    ensures Ops(CommitBusiness(s, r))
  {
    var s' := CommitBusiness(s, r);
    forall t, i | t in s'.log && t in s'.start && 0 <= i < |s'.log[t]| ensures LogEntry(s', t, i) {
      if i < |s.log[t]| { assert LogEntry(s, t, i); }
    }
    forall k | k in s'.ops && s'.ops[k].state.Durable() ensures Logged(s', s'.ops[k].request) {
      if k != r.token { assert Logged(s, s.ops[k].request); }
    }
  }

  lemma CommitBusinessExtends(s: Stores, r: Request)
    requires CanCommitBusiness(s, r)
    ensures Extends(s, CommitBusiness(s, r))
  {}

  lemma CommitBusinessKeeps(s: Stores, r: Request)
    requires StoresOk(s) && CanCommitBusiness(s, r)
    ensures StoresOk(CommitBusiness(s, r)) && Extends(s, CommitBusiness(s, r))
  {
    CommitBusinessRows(s, r);
    CommitBusinessOps(s, r);
    CommitBusinessExtends(s, r);
    RedisIsStable(s, CommitBusiness(s, r));
  }

  predicate CellOk(s: Stores, r: Request, c: Cell) {
    ControlOk(s, r.target, c.control) && (c.op.Some? ==> RedisOpOk(s, r.token, c.op.value))
  }

  lemma CellKeeps(s: Stores, r: Request, c: Cell)
    requires StoresOk(s) && CellOk(s, r, c)
    ensures StoresOk(s.WithCell(r, c)) && Extends(s, s.WithCell(r, c))
  {
    var s' := s.WithCell(r, c);
    PostgresIsStable(s, s');
    forall t | t in s'.controls ensures ControlOk(s', t, s'.controls[t]) {
      assert ControlOk(s, t, if t == r.target then c.control else s.controls[t]);
    }
    forall k | k in s'.redisOps ensures RedisOpOk(s', k, s'.redisOps[k]) {
      assert RedisOpOk(s, k, if k == r.token && c.op.Some? then c.op.value else s.redisOps[k]);
    }
  }

  lemma LossKeeps(s: Stores, s': Stores)
    requires StoresOk(s)
    requires s.rows == s'.rows && s.ops == s'.ops && s.start == s'.start && s.log == s'.log
    requires s'.controls.Keys <= s.controls.Keys && forall t :: t in s'.controls ==> s'.controls[t] == s.controls[t]
    requires s'.redisOps.Keys <= s.redisOps.Keys && forall k :: k in s'.redisOps ==> s'.redisOps[k] == s.redisOps[k]
    ensures StoresOk(s') && Extends(s, s')
  {
    PostgresIsStable(s, s');
    RedisIsStable(s, s');
  }

  lemma RestoreKeeps(s: Stores, t: Target, row: Version, c: Control)
    requires StoresOk(s) && s.EverCommitted(t, row)
    requires c == RestoreMissing(s.Control(t), row) || c == Replace(row)
    ensures StoresOk(s.(controls := s.controls[t := c])) && Extends(s, s.(controls := s.controls[t := c]))
  {
    var r := Request(t, "", 0, row);
    CellKeeps(s, r, Cell(c, None));
    assert s.WithCell(r, Cell(c, None)) == s.(controls := s.controls[t := c]);
  }

  lemma RestoreStepKeeps(s: Stores, t: Target, row: Version, s': Stores)
    requires StoresOk(s) && ReconcilerStep(s, Restore(t, row), s', RecDone) && s.EverCommitted(t, row) && s' != s
    ensures StoresOk(s') && Extends(s, s')
  {
    if s' == s.(controls := s.controls[t := Replace(row)]) { RestoreKeeps(s, t, row, Replace(row)); }
    else { RestoreKeeps(s, t, row, RestoreMissing(s.Control(t), row)); }
  }

  // ----- each script, under what its caller then knows

  lemma PrepareKeeps(s: Stores, r: Request)
    requires StoresOk(s) && s.Knows(r)
    ensures var s' := s.WithCell(r, Prepare(s.CellOf(r), r.token, r.current, r.next).1);
            StoresOk(s') && Extends(s, s')
  {
    CellKeeps(s, r, Prepare(s.CellOf(r), r.token, r.current, r.next).1);
  }

  lemma AbortKeeps(s: Stores, r: Request)
    requires StoresOk(s) && s.Knows(r)
    ensures var s' := s.WithCell(r, Abort(s.CellOf(r), r.token, r.next.payload).1);
            StoresOk(s') && Extends(s, s')
  {
    CellKeeps(s, r, Abort(s.CellOf(r), r.token, r.next.payload).1);
  }

  lemma CommitKeeps(s: Stores, r: Request)
    requires StoresOk(s) && s.KnowsDurable(r)
    ensures var s' := s.WithCell(r, Commit(s.CellOf(r), r.token, r.next.payload).1);
            StoresOk(s') && Extends(s, s')
  {
    assert Logged(s, r);
    CellKeeps(s, r, Commit(s.CellOf(r), r.token, r.next.payload).1);
  }

  lemma RecoverKeeps(s: Stores, op: OpRow, row: Version)
    requires StoresOk(s) && LocalOk(s, RecChecked(op, row))
    ensures var s' := s.WithCell(op.request, Recover(s, op, row).1); StoresOk(s') && Extends(s, s')
  {
    CellKeeps(s, op.request, Recover(s, op, row).1);
  }

  // ----- one step

  lemma PublisherStatementKeeps(s: Stores, l: Local, s': Stores, l': Local)
    requires StoresOk(s) && LocalOk(s, l) && PublisherStep(s, l, s', l') && s' != s
    requires !l.PubPrepare? && !l.PubCommit? && !l.PubAbort?
    ensures StoresOk(s') && Extends(s, s')
  {
    match l
    case PubCreate(r) => CreateKeeps(s, r);
    case PubBusiness(r) => CommitBusinessKeeps(s, r);
    case PubMarkPrepared(r) => MarkKeeps(s, r, Prepared);
    case PubMarkCommitted(r) => MarkKeeps(s, r, Committed);
    case PubMarkAborted(r) => MarkKeeps(s, r, Aborted);
  }

  lemma PublisherScriptKeeps(s: Stores, l: Local, s': Stores, l': Local)
    requires StoresOk(s) && LocalOk(s, l) && PublisherStep(s, l, s', l') && s' != s
    requires l.PubPrepare? || l.PubCommit? || l.PubAbort?
    ensures StoresOk(s') && Extends(s, s')
  {
    match l
    case PubPrepare(r) => PrepareKeeps(s, r);
    case PubCommit(r) => CommitKeeps(s, r);
    case PubAbort(r) => AbortKeeps(s, r);
  }

  lemma StatementLearns(s: Stores, l: Local, s': Stores, l': Local)
    requires LocalOk(s, l) && PublisherStep(s, l, s', l') && Extends(s, s')
    requires !l.PubPrepare? && !l.PubCommit? && !l.PubAbort?
    ensures LocalOk(s', l')
  {}

  lemma ScriptLearns(s: Stores, l: Local, s': Stores, l': Local)
    requires LocalOk(s, l) && PublisherStep(s, l, s', l') && Extends(s, s')
    requires l.PubPrepare? || l.PubCommit? || l.PubAbort?
    ensures LocalOk(s', l')
  {}

  lemma PublisherLearns(s: Stores, l: Local, s': Stores, l': Local)
    requires LocalOk(s, l) && PublisherStep(s, l, s', l') && Extends(s, s')
    ensures LocalOk(s', l')
  {
    if l.PubPrepare? || l.PubCommit? || l.PubAbort? { ScriptLearns(s, l, s', l'); } else { StatementLearns(s, l, s', l'); }
  }

  lemma ReconcilerStepKeeps(s: Stores, l: Local, s': Stores, l': Local)
    requires StoresOk(s) && LocalOk(s, l) && ReconcilerStep(s, l, s', l') && s' != s
    ensures StoresOk(s') && Extends(s, s')
  {
    hide Recover, RestoreMissing, Replace, Rows, Ops, Redis, Extends;
    match l
    case RecChecked(op, row) => RecoverKeeps(s, op, row);
    case RecMark(op) =>
      if op.state.DbCommitted? { MarkKeeps(s, op.request, Committed); } else { MarkKeeps(s, op.request, Aborted); }
    case Restore(t, row) => RestoreStepKeeps(s, t, row, s');
  }

  lemma ReconcilerLearns(s: Stores, l: Local, s': Stores, l': Local)
    requires Rows(s) && LocalOk(s, l) && ReconcilerStep(s, l, s', l') && Extends(s, s')
    ensures LocalOk(s', l')
  {
    if l.RecListed? && l' != RecDone { assert RowFromLog(s, l.op.request.target); }
  }

  lemma StartKnows(s: Stores, l: Local)
    requires StoresOk(s) && Starts(s, l)
    ensures LocalOk(s, l)
  {
    if l.Restore? { assert RowFromLog(s, l.target); }
  }

  lemma RunKeeps(s: Stores, l: Local, s': Stores, l': Local)
    requires StoresOk(s) && LocalOk(s, l)
    requires PublisherStep(s, l, s', l') || ReconcilerStep(s, l, s', l')
    ensures StoresOk(s') && Extends(s, s') && LocalOk(s', l')
  {
    if PublisherStep(s, l, s', l') {
      if s' != s {
        if l.PubPrepare? || l.PubCommit? || l.PubAbort? { PublisherScriptKeeps(s, l, s', l'); }
        else { PublisherStatementKeeps(s, l, s', l'); }
      }
      PublisherLearns(s, l, s', l');
    } else {
      if s' != s { ReconcilerStepKeeps(s, l, s', l'); }
      ReconcilerLearns(s, l, s', l');
    }
  }

  lemma StoresStepKeeps(s: State, s': State, step: Step)
    requires Inv(s) && NextBy(s, s', step)
    ensures StoresOk(s'.stores) && Extends(s.stores, s'.stores)
    ensures forall p :: p in s'.procs && (p !in s.procs || s'.procs[p] != s.procs[p]) ==> LocalOk(s'.stores, s'.procs[p])
  {
    match step
    case Start(p, l) => StartKnows(s.stores, l);
    case Run(p, l) =>
      RunKeeps(s.stores, s.procs[p], s'.stores, l);
    case Crash(p) =>
    case LoseControl(t) => LossKeeps(s.stores, s'.stores);
    case ExpireOp(k) => LossKeeps(s.stores, s'.stores);
  }

  /** Every step keeps the invariant and only extends what the stores have committed. */
  lemma StepKeeps(s: State, s': State)
    requires Inv(s) && Next(s, s')
    ensures Inv(s') && Extends(s.stores, s'.stores)
  {
    var step :| NextBy(s, s', step);
    StoresStepKeeps(s, s', step);
    forall p | p in s'.procs && p in s.procs && s'.procs[p] == s.procs[p] ensures LocalOk(s'.stores, s'.procs[p]) {
      KnowledgeIsStable(s.stores, s'.stores, s.procs[p]);
    }
  }
}
