/** Short runs of the provider routing protocol, by construction: one provider and the changes it goes through. */
module ProviderExamples {
  import opened Common
  import opened ProviderControls
  import opened ProviderRuns
  import P = Publication

  const Version1 := Change(Row("https://a", 1, Enabled, 1), None)
  const Version2 := Change(Row("https://b", 2, Enabled, 1), Some("x"))
  const Version3 := Change(Row("https://b", 2, Disabled, 2), Some("y"))
  const ToB := OriginEnvelope(1, Version1.row, "https://b")
  const ToDisabled := StatusEnvelope(1, Version2.row, Disabled)

  /** One operation, still open, whose envelope leads from the current row to `next`. */
  ghost predicate Underway(s: Stores, k: Token, e: Envelope, payload: Payload, state: P.OpState, row: Row, g: Gate) {
    && Reachable(s) && s.HasRow(1) && s.RowOf(1) == row && 1 in s.gates && s.gates[1] == g
    && k in s.ops && s.ops[k] == RoutingOp(e, payload, payload, state) && e.providerID == 1
    && forall j :: j in s.ops && j != k ==> s.ops[j].state.Terminal() && s.ops[j].state.Durable()
  }

  lemma Fenced(s: Stores, k: Token, e: Envelope, payload: Payload, row: Row, g: Gate) returns (s': Stores)
    requires Underway(s, k, e, payload, P.Preparing, row, g) && k !in s.keys && ValidEnvelope(e) && Preparable(Cell(Some(g), None), e)
    ensures Underway(s', k, e, payload, P.Prepared, row, g.(fence := Some(FenceOf(e, k, payload)))) && s'.log == s.log
    ensures s'.keys == s.keys[k := FenceOp(e.kind, payload, MarkPrepared)] && s'.ops.Keys == s.ops.Keys
  {
    FenceRoundTrip(s.CellOf(k), e, k, payload);
    var s1 := Apply(s, Prepare(k));
    StepReaches(s, Prepare(k));
    s' := Apply(s1, SetPrepared(k));
    StepReaches(s1, SetPrepared(k));
  }

  lemma Transacted(s: Stores, k: Token, e: Envelope, payload: Payload, row: Row, g: Gate) returns (s': Stores)
    requires Underway(s, k, e, payload, P.Prepared, row, g) && Starts(row, e)
    ensures Underway(s', k, e, payload, P.DbCommitted, Moved(row, e), g)
    ensures s'.log == s.log[1 := s.log[1] + [Change(Moved(row, e), Some(k))]] && s'.keys == s.keys && s'.ops.Keys == s.ops.Keys
  {
    hide ValidEnvelope, Moved;
    s' := Apply(s, Business(k));
    StepReaches(s, Business(k));
  }

  lemma Concluded(s: Stores, k: Token, e: Envelope, payload: Payload, row: Row, g: Gate, lost: bool) returns (s': Stores)
    requires Underway(s, k, e, payload, P.DbCommitted, row, g.(fence := Some(FenceOf(e, k, payload))))
    requires k in s.keys && s.keys[k] == FenceOp(e.kind, payload, MarkPrepared) && (e.kind.OriginKind? || e.kind.StatusKind?)
    ensures Underway(s', k, e, payload, P.Committed, row, if lost then g.(fence := None) else Opened(s.gates[1]))
    ensures s'.log == s.log && s'.keys.Keys == s.keys.Keys && s'.ops.Keys == s.ops.Keys
  {
    hide ValidEnvelope, Moved;
    var step := if lost then Abort(k, payload) else Commit(k, payload);
    var s1 := Apply(s, step);
    StepReaches(s, step);
    s' := Apply(s1, SetCommitted(k));
    StepReaches(s1, SetCommitted(k));
  }

  lemma OriginOpened() returns (s: Stores)
    ensures Underway(s, "x", ToB, "P", P.Preparing, Version1.row, Gate(1, 1, Enabled, None))
    ensures s.log == map[1 := [Version1]] && s.keys == map[] && s.ops.Keys == {"x"}
  {
    assert Run(Empty, []) == Empty;
    var s1 := Apply(Empty, NewProvider(1, "https://a", Enabled));
    StepReaches(Empty, NewProvider(1, "https://a", Enabled));
    var s2 := Apply(s1, Install(1, 0));
    StepReaches(s1, Install(1, 0));
    s := Apply(s2, OpenOrigin("x", 1, 0, "https://b", "P", "P"));
    StepReaches(s2, OpenOrigin("x", 1, 0, "https://b", "P", "P"));
  }

  /** An origin change whose business transaction committed without its publisher hearing of it. */
  lemma OriginLeftBehind() returns (s: Stores)
    ensures Underway(s, "x", ToB, "P", P.Committed, Version2.row, Gate(1, 1, Enabled, None))
    ensures s.log == map[1 := [Version1, Version2]] && s.keys.Keys == {"x"} && s.ops.Keys == {"x"}
  {
    hide Underway;
    var g := Gate(1, 1, Enabled, None);
    var s1 := OriginOpened();
    var s2 := Fenced(s1, "x", ToB, "P", Version1.row, g);
    var s3 := Transacted(s2, "x", ToB, "P", Version1.row, g.(fence := Some(FenceOf(ToB, "x", "P"))));
    s := Concluded(s3, "x", ToB, "P", Version2.row, g, true);
    assert s.log[1] == [Version1] + [Version2] == [Version1, Version2];
  }

  lemma StatusOpened(s: Stores) returns (s': Stores)
    requires Underway(s, "x", ToB, "P", P.Committed, Version2.row, Gate(1, 1, Enabled, None))
    requires s.log == map[1 := [Version1, Version2]] && s.keys.Keys == {"x"} && s.ops.Keys == {"x"}
    ensures Underway(s', "y", ToDisabled, "Q", P.Preparing, Version2.row, Gate(1, 1, Enabled, None))
    ensures s'.log == s.log && s'.keys == s.keys && s'.ops.Keys == {"x", "y"}
  {
    var open := OpenStatus("y", 1, 1, Disabled, "Q", "Q");
    assert EnvelopeOf(s, open) == ToDisabled;
    s' := Apply(s, open);
    StepReaches(s, open);
  }
}
