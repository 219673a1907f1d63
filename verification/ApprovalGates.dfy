/** The approval-gate rows of one run, in creation order (backend/pipeline/approval_gate.py). */
module ApprovalGates {
  import opened Wrappers

  datatype GateKind = ForChunk(number: int) | ForRun

  datatype GateStatus = Pending | Approved | Rejected | Superseded

  datatype Gate = Gate(kind: GateKind, status: GateStatus)

  /** Position of the newest gate of a kind, or -1: ORDER BY created_at DESC LIMIT 1. */
  function Newest(gates: seq<Gate>, kind: GateKind): (g: int)
    ensures -1 <= g < |gates|
    ensures g >= 0 ==> gates[g].kind == kind
    ensures forall j :: g < j < |gates| ==> gates[j].kind != kind
  {
    if gates == [] then -1
    else if gates[|gates| - 1].kind == kind then |gates| - 1
    else Newest(gates[..|gates| - 1], kind)
  }

  /** Position of the newest pending gate of a kind, or -1. */
  function NewestPending(gates: seq<Gate>, kind: GateKind): (g: int)
    ensures -1 <= g < |gates|
    ensures g >= 0 ==> gates[g] == Gate(kind, Pending)
    ensures forall j :: g < j < |gates| ==> gates[j] != Gate(kind, Pending)
  {
    if gates == [] then -1
    else if gates[|gates| - 1] == Gate(kind, Pending) then |gates| - 1
    else NewestPending(gates[..|gates| - 1], kind)
  }

  predicate HasPending(gates: seq<Gate>, kind: GateKind) {
    NewestPending(gates, kind) >= 0
  }

  /** Create or reuse the chunk gate for a pause; None where the table code raises. A
      rejected gate may always be followed by a new one here, an approved gate only on
      the refinement opt-in. */
  function OpenChunkGate(gates: seq<Gate>, n: int, allowAfterApproved: bool): Option<seq<Gate>> {
    var g := Newest(gates, ForChunk(n));
    if g >= 0 && gates[g].status == Pending then Some(gates)
    else if g < 0 || gates[g].status == Rejected || (gates[g].status == Approved && allowAfterApproved) then
      Some(gates + [Gate(ForChunk(n), Pending)])
    else None
  }

  /** Create or reuse the final gate; None where the table code raises "already decided". */
  function OpenFinalGate(gates: seq<Gate>): Option<seq<Gate>> {
    var g := Newest(gates, ForRun);
    if g >= 0 && gates[g].status == Pending then Some(gates)
    else if g < 0 || gates[g].status == Superseded then Some(gates + [Gate(ForRun, Pending)])
    else None
  }

  /** A guarded UPDATE ... AND status = 'pending': a decided gate is left alone. */
  function Decide(gates: seq<Gate>, g: int, verdict: GateStatus): seq<Gate>
    requires 0 <= g < |gates|
  {
    if gates[g].status == Pending then gates[g := gates[g].(status := verdict)] else gates
  }

  /** Every pending final gate becomes superseded. */
  function SupersedeFinal(gates: seq<Gate>): (r: seq<Gate>)
    ensures |r| == |gates|
    ensures forall i :: 0 <= i < |gates| ==>
      r[i] == if gates[i] == Gate(ForRun, Pending) then Gate(ForRun, Superseded) else gates[i]
  {
    seq(|gates|, i requires 0 <= i < |gates| =>
      if gates[i] == Gate(ForRun, Pending) then Gate(ForRun, Superseded) else gates[i])
  }

  // ----- discipline -------------------------------------------------------------

  /** A status a gate may have once a newer gate of its kind exists. */
  predicate Closed(gate: Gate) {
    if gate.kind.ForRun? then gate.status == Superseded
    else gate.status == Approved || gate.status == Rejected
  }

  /** Only the newest gate of a kind can be open; only final gates are ever superseded. */
  predicate Disciplined(gates: seq<Gate>) {
    && (forall i, j :: 0 <= i < j < |gates| && gates[i].kind == gates[j].kind ==> Closed(gates[i]))
    && (forall i :: 0 <= i < |gates| && gates[i].kind.ForChunk? ==> gates[i].status != Superseded)
  }

  /** The table only grows, kinds are fixed, and a decided gate never changes. */
  predicate Grows(before: seq<Gate>, after: seq<Gate>) {
    && |before| <= |after|
    && forall i :: 0 <= i < |before| ==>
         before[i].kind == after[i].kind
         && (before[i].status != Pending ==> after[i] == before[i])
  }

  lemma GrowsTransitive(a: seq<Gate>, b: seq<Gate>, c: seq<Gate>)
    requires Grows(a, b) && Grows(b, c)
    ensures Grows(a, c)
  {}

  /** Opening a chunk gate keeps the discipline and, when it succeeds, leaves exactly one
      pending gate for that chunk, the newest; every other gate is as it was. */
  lemma OpenChunkGateKeeps(gates: seq<Gate>, n: int, after: bool)
    requires Disciplined(gates)
    requires OpenChunkGate(gates, n, after).Some?
    ensures var r := OpenChunkGate(gates, n, after).value;
            && Disciplined(r) && Grows(gates, r)
            && HasPending(r, ForChunk(n))
            && (forall k :: 0 <= k < |r| && r[k].status == Pending && r[k].kind != ForChunk(n) ==>
                  k < |gates| && gates[k] == r[k])
            && (forall k :: |gates| <= k < |r| ==> r[k].kind == ForChunk(n))
            && (forall k :: 0 <= k < |gates| ==> r[k] == gates[k])
  {
    var r := OpenChunkGate(gates, n, after).value;
    var g := Newest(gates, ForChunk(n));
    if r == gates {
      assert gates[g] == Gate(ForChunk(n), Pending);
    } else {
      assert r[|gates|] == Gate(ForChunk(n), Pending);
      forall i, j | 0 <= i < j < |r| && r[i].kind == r[j].kind ensures Closed(r[i]) {
        if j == |gates| && i != g {
          assert i < g;
        }
      }
    }
  }

  lemma OpenFinalGateKeeps(gates: seq<Gate>)
    requires Disciplined(gates)
    requires OpenFinalGate(gates).Some?
    ensures var r := OpenFinalGate(gates).value;
            && Disciplined(r) && Grows(gates, r) && HasPending(r, ForRun)
            && (forall k :: 0 <= k < |gates| ==> r[k] == gates[k])
            && (forall k :: |gates| <= k < |r| ==> r[k].kind == ForRun)
  {
    var r := OpenFinalGate(gates).value;
    var g := Newest(gates, ForRun);
    if r == gates {
      assert gates[g] == Gate(ForRun, Pending);
    } else {
      assert r[|gates|] == Gate(ForRun, Pending);
      forall i, j | 0 <= i < j < |r| && r[i].kind == r[j].kind ensures Closed(r[i]) {
        if j == |gates| && i != g {
          assert i < g;
        }
      }
    }
  }

  /** Approving or rejecting any gate keeps the discipline. */
  lemma DecideKeeps(gates: seq<Gate>, g: int, verdict: GateStatus)
    requires Disciplined(gates) && 0 <= g < |gates|
    requires verdict == Approved || verdict == Rejected
    ensures Disciplined(Decide(gates, g, verdict)) && Grows(gates, Decide(gates, g, verdict))
  {
    var r := Decide(gates, g, verdict);
    forall i, j | 0 <= i < j < |r| && r[i].kind == r[j].kind ensures Closed(r[i]) {
      assert gates[i].kind == gates[j].kind;
    }
  }

  lemma SupersedeKeeps(gates: seq<Gate>)
    requires Disciplined(gates)
    ensures Disciplined(SupersedeFinal(gates)) && Grows(gates, SupersedeFinal(gates))
    ensures !HasPending(SupersedeFinal(gates), ForRun)
  {}

  /** Under the discipline the pending gate of a kind, if any, is the newest of that kind,
      and no other gate of that kind is pending. */
  lemma PendingIsNewest(gates: seq<Gate>, kind: GateKind, g: int)
    requires Disciplined(gates)
    requires 0 <= g < |gates| && gates[g] == Gate(kind, Pending)
    ensures g == Newest(gates, kind) == NewestPending(gates, kind)
  {
    assert !(g < Newest(gates, kind)) by {
      assert !Closed(gates[g]);
    }
  }

  /** Of all the final gates a run ever opens at most one ends approved or rejected. */
  lemma OneFinalDecision(gates: seq<Gate>, i: int, j: int)
    requires Disciplined(gates)
    requires 0 <= i < |gates| && 0 <= j < |gates|
    requires gates[i].kind == ForRun && gates[j].kind == ForRun
    requires gates[i].status != Superseded && gates[j].status != Superseded
    ensures i == j
  {
    assert !Closed(gates[i]) && !Closed(gates[j]);
  }
}
