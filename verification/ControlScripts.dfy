/**
 The Redis side of one revisioned runtime control, script by script.

 A script runs atomically on two keys: the control hash and the operation hash of one
 token.  `Cell` holds both.  A payload stands for itself and for its SHA-256 digest, which
 is taken to be injective, and `last_terminal`, which no script reads, is left out: what
 remains of it is that a control emptied by an abort still exists.
 */
module ControlScripts {
  import opened Common

  type Token = string
  type Payload = string

  datatype Version = Version(revision: int, payload: Payload)

  datatype Pending = Pending(version: Version, token: Token)

  /** A control without an `active_revision` field reads as revision 0. */
  datatype Control = Absent | Present(active: Option<Version>, pending: Option<Pending>) {

    function ActiveRevision(): int {
      if Present? && active.Some? then active.value.revision else 0
    }

    predicate HasPending() {
      Present? && pending.Some?
    }

    /** The pending fields belong to this operation. */
    predicate PendingIs(v: Version, token: Token) {
      Present? && pending == Some(Pending(v, token))
    }
  }

  datatype OpMark = OpPrepared | OpCommitted | OpAborted

  datatype RedisOp = RedisOp(payload: Payload, mark: OpMark)

  datatype Cell = Cell(control: Control, op: Option<RedisOp>)

  datatype Code =
    | CodePrepared | CodeCommitted | CodeAborted
    | CodeInvalid | CodeStale | CodeConflict | CodeConflictPending
    | CodeUnknownOp | CodeAbortedConflict | CodeCommittedConflict

  function CodeOf(mark: OpMark): Code {
    match mark
    case OpPrepared => CodePrepared
    case OpCommitted => CodeCommitted
    case OpAborted => CodeAborted
  }

  /** control_prepare.lua */
  function Prepare(c: Cell, token: Token, current: int, next: Version): (Code, Cell) {
    if c.op.Some? then
      (if c.op.value.payload == next.payload then CodeOf(c.op.value.mark) else CodeConflict, c)
    else if next.revision != current + 1 then (CodeInvalid, c)
    else if c.control.ActiveRevision() != current then (CodeStale, c)
    else if c.control.HasPending() then (CodeConflictPending, c)
    else
      var active := if c.control.Present? then c.control.active else None;
      (CodePrepared,
       Cell(Present(active, Some(Pending(next, token))), Some(RedisOp(next.payload, OpPrepared))))
  }

  /** control_commit.lua */
  function Commit(c: Cell, token: Token, payload: Payload): (Code, Cell) {
    if c.op.None? then (CodeUnknownOp, c)
    else if c.op.value.mark.OpCommitted? then (CodeCommitted, c)
    else if c.op.value.mark.OpAborted? then (CodeAbortedConflict, c)
    else if c.op.value.payload != payload then (CodeConflict, c)
    else if !(c.control.HasPending() && c.control.pending.value.token == token
              && c.control.pending.value.version.payload == payload) then (CodeConflict, c)
    else
      (CodeCommitted,
       Cell(Present(Some(c.control.pending.value.version), None), Some(RedisOp(payload, OpCommitted))))
  }

  /** control_abort.lua */
  function Abort(c: Cell, token: Token, payload: Payload): (Code, Cell) {
    if c.op.None? then (CodeUnknownOp, c)
    else if c.op.value.mark.OpAborted? then (CodeAborted, c)
    else if c.op.value.mark.OpCommitted? then (CodeCommittedConflict, c)
    else if c.op.value.payload != payload then (CodeConflict, c)
    else
      var control :=
        if c.control.HasPending() && c.control.pending.value.token == token
        then c.control.(pending := None) else c.control;
      (CodeAborted, Cell(control, Some(RedisOp(payload, OpAborted))))
  }

  /** control_recover_committed.lua */
  function RecoverCommitted(c: Cell, token: Token, current: int, next: Version): (Code, Cell) {
    var active := c.control.ActiveRevision();
    if next.revision != current + 1 then (CodeInvalid, c)
    else if c.op.Some? && c.op.value.payload != next.payload then (CodeConflict, c)
    else if c.op.Some? && c.op.value.mark.OpAborted? then (CodeAbortedConflict, c)
    else if c.control.Present? && active != current && active != next.revision then (CodeStale, c)
    else if active == next.revision && !(c.control.Present? && c.control.active == Some(next)) then (CodeConflict, c)
    else if c.control.HasPending() && !c.control.PendingIs(next, token) then (CodeConflictPending, c)
    else
      (CodeCommitted, Cell(Present(Some(next), None), Some(RedisOp(next.payload, OpCommitted))))
  }

  /** control_recover_aborted.lua; `prior` is the version PostgreSQL still holds. */
  function RecoverAborted(c: Cell, token: Token, prior: Version, next: Version): (Code, Cell) {
    if next.revision != prior.revision + 1 then (CodeInvalid, c)
    else if c.op.Some? && c.op.value.payload != next.payload then (CodeConflict, c)
    else if c.op.Some? && c.op.value.mark.OpCommitted? then (CodeCommittedConflict, c)
    else if c.control.Present? && c.control.active != Some(prior) then (CodeStale, c)
    else if c.control.HasPending() && !c.control.PendingIs(next, token) then (CodeConflictPending, c)
    else
      (CodeAborted, Cell(Present(Some(prior), None), Some(RedisOp(next.payload, OpAborted))))
  }

  /** control_restore_missing.lua */
  function RestoreMissing(c: Control, v: Version): Control {
    if c.Present? then c else Present(Some(v), None)
  }

  /** control_reconcile.lua: the start-up form, which replaces whatever it finds. */
  function Replace(v: Version): Control {
    Present(Some(v), None)
  }
}
