/**
 Provider routing fences: the envelope of an origin or status change, and the Redis scripts
 that prepare, commit and abort it.

 A `Gate` is the routing part of a provider's Redis hash.  Both prepare scripts demand that
 neither half is pending, so a gate holds at most one fence.
 */
module ProviderControls {
  import opened Common

  type Token = string
  type Payload = string

  datatype RoutingStatus = Enabled | Disabled | Archived | Unknown(name: string)

  datatype Kind = OriginKind | StatusKind | OtherKind(name: string)

  /** One row of the providers table. */
  datatype Row = Row(origin: string, originRevision: int, status: RoutingStatus, statusRevision: int) {
    predicate Valid() {
      origin != "" && originRevision >= 1 && statusRevision >= 1 && !status.Unknown?
    }
  }

  datatype Envelope = Envelope(
    kind: Kind,
    providerID: int,
    currentOriginRevision: int,
    nextOriginRevision: int,
    currentStatusRevision: int,
    nextStatusRevision: int,
    currentStatus: RoutingStatus,
    nextStatus: RoutingStatus,
    nextOrigin: string)

  /** Validation of an envelope, branch by branch. */
  predicate ValidEnvelope(e: Envelope) {
    if e.providerID <= 0 || e.currentOriginRevision < 1 || e.currentStatusRevision < 1 ||
       e.currentStatus.Unknown? || e.nextStatus.Unknown? then false
    else match e.kind
      case OriginKind =>
        !(e.nextOrigin == "" || e.nextOriginRevision != e.currentOriginRevision + 1 ||
          e.nextStatusRevision != e.currentStatusRevision || e.nextStatus != e.currentStatus)
      case StatusKind =>
        !(e.nextOrigin != "" || e.nextOriginRevision != e.currentOriginRevision ||
          e.nextStatusRevision != e.currentStatusRevision + 1 || e.nextStatus == e.currentStatus)
      case OtherKind(_) => false
  }

  /** The envelope of an origin change that starts from `row`. */
  function OriginEnvelope(p: int, row: Row, origin: string): Envelope {
    Envelope(OriginKind, p, row.originRevision, row.originRevision + 1,
             row.statusRevision, row.statusRevision, row.status, row.status, origin)
  }

  /** The envelope of a status change that starts from `row`. */
  function StatusEnvelope(p: int, row: Row, status: RoutingStatus): Envelope {
    Envelope(StatusKind, p, row.originRevision, row.originRevision,
             row.statusRevision, row.statusRevision + 1, row.status, status, "")
  }

  /** What the business transaction does to the row it finds. */
  function Moved(row: Row, e: Envelope): Row {
    if e.kind.OriginKind? then row.(origin := e.nextOrigin, originRevision := row.originRevision + 1)
    else row.(status := e.nextStatus, statusRevision := row.statusRevision + 1)
  }

  /** The reconciler's comparison of a row with the outcome an envelope announces. */
  predicate Matches(row: Row, e: Envelope) {
    row.originRevision == e.nextOriginRevision && row.statusRevision == e.nextStatusRevision && row.status == e.nextStatus &&
    (e.kind.OriginKind? ==> row.origin == e.nextOrigin)
  }

  /**
   An envelope is valid exactly when some row makes it a change of one half: a new origin
   for a provider whose status stays, or another status for a provider whose origin stays.
   Applying the change to that row then gives what the envelope announces.
   */
  lemma ValidEnvelopeIffOneChange(e: Envelope)
    ensures ValidEnvelope(e) <==>
      e.providerID > 0 &&
      exists row: Row :: row.Valid() &&
        ((e == OriginEnvelope(e.providerID, row, e.nextOrigin) && e.nextOrigin != "") ||
         (e == StatusEnvelope(e.providerID, row, e.nextStatus) && !e.nextStatus.Unknown? && e.nextStatus != row.status))
    ensures forall row: Row ::
      (ValidEnvelope(e) && (e == OriginEnvelope(e.providerID, row, e.nextOrigin) || e == StatusEnvelope(e.providerID, row, e.nextStatus)))
      ==> Matches(Moved(row, e), e)
  {
    if ValidEnvelope(e) {
      var row := Row("x", e.currentOriginRevision, e.currentStatus, e.currentStatusRevision);
      assert row.Valid();
      assert e == OriginEnvelope(e.providerID, row, e.nextOrigin) || e == StatusEnvelope(e.providerID, row, e.nextStatus);
    }
  }

  // ----- Redis

  datatype Fence =
    | OriginFence(token: Token, payload: Payload, revision: int)
    | StatusFence(token: Token, payload: Payload, revision: int, status: RoutingStatus)

  datatype Gate = Gate(originRevision: int, statusRevision: int, status: RoutingStatus, fence: Option<Fence>)

  datatype Mark = MarkPrepared | MarkCommitted | MarkAborted

  datatype FenceOp = FenceOp(kind: Kind, payload: Payload, mark: Mark)

  /** `gate` is `None` for a hash without `control_present`. */
  datatype Cell = Cell(gate: Option<Gate>, op: Option<FenceOp>)

  datatype FenceResult = FencePrepared | FenceCommitted | FenceAborted | FenceAbsent | FenceInvalid | FenceStale | FenceConflict

  function FenceOf(e: Envelope, token: Token, payload: Payload): Fence {
    if e.kind.OriginKind? then OriginFence(token, payload, e.nextOriginRevision)
    else StatusFence(token, payload, e.nextStatusRevision, e.nextStatus)
  }

  /** The gate shows this row and nothing is pending. */
  function Stable(row: Row): Gate {
    Gate(row.originRevision, row.statusRevision, row.status, None)
  }

  /** read_op: the operation key belongs to another immutable request. */
  predicate Foreign(op: Option<FenceOp>, kind: Kind, payload: Payload) {
    op.Some? && (op.value.kind != kind || op.value.payload != payload)
  }

  /** prepare_origin.lua and prepare_origin_status.lua */
  function PrepareFence(c: Cell, e: Envelope, token: Token, payload: Payload): (FenceResult, Cell) {
    var current := if e.kind.OriginKind? then e.currentOriginRevision else e.currentStatusRevision;
    var next := if e.kind.OriginKind? then e.nextOriginRevision else e.nextStatusRevision;
    if Foreign(c.op, e.kind, payload) then (FenceConflict, c)
    else if c.op.Some? && c.op.value.mark.MarkCommitted? then (FenceCommitted, c)
    else if c.op.Some? && c.op.value.mark.MarkAborted? then (FenceAborted, c)
    else if c.gate.None? then (FenceAbsent, c)
    else if next != current + 1 || (e.kind.StatusKind? && e.nextStatus.Unknown?) then (FenceInvalid, c)
    else if c.op.Some? then
      (if c.gate.value.fence == Some(FenceOf(e, token, payload)) then FencePrepared else FenceConflict, c)
    else if c.gate.value.fence.Some? then (FenceConflict, c)
    else if (if e.kind.OriginKind? then c.gate.value.originRevision else c.gate.value.statusRevision) != current then (FenceStale, c)
    else
      (FencePrepared,
       Cell(Some(c.gate.value.(fence := Some(FenceOf(e, token, payload)))), Some(FenceOp(e.kind, payload, MarkPrepared))))
  }

  /** The fence that commit and abort look for: this token, this payload, this half. */
  predicate Holds(c: Cell, kind: Kind, token: Token, payload: Payload) {
    c.gate.Some? && c.gate.value.fence.Some? &&
    var f := c.gate.value.fence.value;
    f.token == token && f.payload == payload && (f.OriginFence? <==> kind.OriginKind?)
  }

  /** The gate once its fence has been let through. */
  function Opened(g: Gate): Gate {
    match g.fence
    case None => g
    case Some(OriginFence(_, _, revision)) => g.(originRevision := revision, fence := None)
    case Some(StatusFence(_, _, revision, status)) => g.(statusRevision := revision, status := status, fence := None)
  }

  /** commit_origin.lua and commit_origin_status.lua */
  function CommitFence(c: Cell, kind: Kind, token: Token, payload: Payload): (FenceResult, Cell) {
    if Foreign(c.op, kind, payload) then (FenceConflict, c)
    else if c.op.Some? && c.op.value.mark.MarkCommitted? then (FenceCommitted, c)
    else if c.op.Some? && c.op.value.mark.MarkAborted? then (FenceConflict, c)
    else if !Holds(c, kind, token, payload) then (FenceConflict, c)
    else (FenceCommitted, Cell(Some(Opened(c.gate.value)), Some(FenceOp(kind, payload, MarkCommitted))))
  }

  /** abort_origin.lua and abort_origin_status.lua */
  function AbortFence(c: Cell, kind: Kind, token: Token, payload: Payload): (FenceResult, Cell) {
    if Foreign(c.op, kind, payload) then (FenceConflict, c)
    else if c.op.Some? && c.op.value.mark.MarkAborted? then (FenceAborted, c)
    else if c.op.Some? && c.op.value.mark.MarkCommitted? then (FenceConflict, c)
    else if !Holds(c, kind, token, payload) then (FenceConflict, c)
    else (FenceAborted, Cell(Some(c.gate.value.(fence := None)), Some(FenceOp(kind, payload, MarkAborted))))
  }

  /** Whether a first prepare of this operation is let through. */
  predicate Preparable(c: Cell, e: Envelope) {
    c.op.None? && c.gate.Some? && c.gate.value.fence.None? &&
    if e.kind.OriginKind? then c.gate.value.originRevision == e.currentOriginRevision
    else c.gate.value.statusRevision == e.currentStatusRevision
  }

  /**
   A valid envelope on an unused token is prepared exactly when the gate is free and at its
   starting revision.  Aborting gives the gate back; committing moves exactly the half the
   envelope names; each of the two can be repeated and shuts out the other, and neither
   does anything with another payload.
   */
  lemma FenceRoundTrip(c: Cell, e: Envelope, token: Token, payload: Payload)
    requires ValidEnvelope(e) && c.op.None?
    ensures var (code, held) := PrepareFence(c, e, token, payload);
      && (code == FencePrepared <==> Preparable(c, e)) && (code != FencePrepared ==> held == c)
      && (code == FencePrepared ==>
          var committed := CommitFence(held, e.kind, token, payload);
          var aborted := AbortFence(held, e.kind, token, payload);
          && PrepareFence(held, e, token, payload) == (FencePrepared, held)
          && committed.0 == FenceCommitted && aborted.0 == FenceAborted
          && aborted.1.gate == c.gate
          && committed.1.gate == Some(if e.kind.OriginKind? then c.gate.value.(originRevision := e.nextOriginRevision)
                                      else c.gate.value.(statusRevision := e.nextStatusRevision, status := e.nextStatus))
          && CommitFence(committed.1, e.kind, token, payload) == (FenceCommitted, committed.1)
          && AbortFence(aborted.1, e.kind, token, payload) == (FenceAborted, aborted.1)
          && AbortFence(committed.1, e.kind, token, payload) == (FenceConflict, committed.1)
          && CommitFence(aborted.1, e.kind, token, payload) == (FenceConflict, aborted.1)
          && PrepareFence(aborted.1, e, token, payload) == (FenceAborted, aborted.1)
          && forall other: Payload :: other != payload ==>
               CommitFence(held, e.kind, token, other) == (FenceConflict, held) && AbortFence(held, e.kind, token, other) == (FenceConflict, held))
  {}
}
