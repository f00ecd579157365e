/** Shared value types. */
module Common {

  datatype Option<+T> = None | Some(value: T)

  /** The elements of a sequence, as a set. */
  ghost function Elements<T>(s: seq<T>): set<T> {
    set x | x in s
  }

  ghost predicate Distinct<T>(s: seq<T>) {
    forall i, j :: 0 <= i < j < |s| ==> s[i] != s[j]
  }

  /** A duplicate-free sequence has as many elements as positions. */
  lemma {:induction false} DistinctSize<T>(s: seq<T>)
    requires Distinct(s)
    ensures |Elements(s)| == |s|
  {
    if s == [] {
      assert Elements(s) == {};
    } else {
      var front, last := s[..|s| - 1], s[|s| - 1];
      DistinctSize(front);
      assert last !in front;
      assert Elements(s) == Elements(front) + {last};
    }
  }

  /** There is always another number. */
  lemma {:induction false} Unused(used: set<nat>) returns (p: nat)
    ensures forall q :: q in used ==> q < p
    decreases |used|
  {
    p := 0;
    if used != {} {
      var q :| q in used;
      p := Unused(used - {q});
      if p <= q { p := q + 1; }
      assert forall x :: x in used ==> x == q || x in used - {q};
    }
  }

  /** Whether the next call to a store fails. */
  method Fault(flaky: bool) returns (fault: bool)
    ensures fault ==> flaky
  {
    fault := *;
    if !flaky { fault := false; }
  }
}
