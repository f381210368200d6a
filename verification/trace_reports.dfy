/** What the adapter reports of each node of a call tree (server/client/types.go and server/mapper/transaction.go). */
module TraceReports {
  import opened Rosetta
  import opened CallTree
  import opened Evm
  import opened TraceOps

  /** The value of a node; the decoder leaves an absent one nil. */
  function ValueOf(t: Tree): int {
    match t.value case Some(v) => v case None => 0
  }

  /** How many operations a node gives: none for a call without value, one for a self-destruct in its own favour. */
  function Reported(t: Tree): nat {
    if ValueOf(t) == 0 && (t.kind == Call || t.kind == CallCode || t.kind == DelegateCall || t.kind == StaticCall) then 0
    else if t.kind == SelfDestruct && t.from == t.to then 1
    else 2
  }

  /** How many operations the nodes at some paths give. */
  ghost function ReportedAt(t: Tree, paths: seq<Path>): nat
    requires forall p <- paths :: IsPath(t, p)
  {
    if paths == [] then 0
    else ReportedAt(t, paths[..|paths| - 1]) + Reported(NodeAt(t, paths[|paths| - 1]))
  }

  /** What is said of the node at p: failed with the nearest error if it or an ancestor failed, done otherwise. */
  ghost predicate Tells(op: EvmOperation, t: Tree, p: Path, account: Address, amount: Option<int>)
    requires IsPath(t, p)
  {
    && op.kind == Trace(NodeAt(t, p).kind) && op.account == Some(Evm(account)) && op.coinChange == None
    && op.status == (if FailedOnPath(t, p) then Failure else Success)
    && op.metadata == (if FailedOnPath(t, p) then CallError(NearestError(t, p)) else NoMetadata)
    && op.amount == (if amount.Some? then Some(Amount(amount.value, Flare)) else None)
  }

  /** The operations from position m on are those of the node at p: its sender first, then its receiver, who relates to
      the sender. A failed node tells its amounts as well; what the inflation contract pays has no sender's amount. */
  ghost predicate NodeTold(ops: seq<EvmOperation>, m: nat, start: int, t: Tree, p: Path)
    requires IsPath(t, p)
  {
    var n := NodeAt(t, p);
    var value := ValueOf(n);
    && m + Reported(n) <= |ops|
    && (Reported(n) >= 1 ==>
          && Tells(ops[m], t, p, n.from, if value == 0 || n.from == 0x1000000000000000000000000000000000000002 then None else Some(-value))
          && ops[m].index == Some(start + m) && ops[m].related == [])
    && (Reported(n) == 2 ==>
          && Tells(ops[m + 1], t, p, n.to, if value == 0 then None else Some(value))
          && ops[m + 1].index == Some(start + m + 1) && ops[m + 1].related == [start + m])
  }

  /** The operations of call k stand together, after those of the calls before it. */
  lemma {:induction false} SegmentAt(trace: seq<FlatCall>, start: int, k: nat)
    requires k < |trace|
    ensures var ops, m := Run(trace, start).ops, |Run(trace[..k], start).ops|;
      var part := StepOps(trace[k], start + m);
      m + |part| <= |ops| && ops[m..m + |part|] == part
  {
    hide StepOps, StepDestroyed;
    var n := |trace| - 1;
    if k == n {
    } else {
      assert trace[..n][..k] == trace[..k] && trace[..n][k] == trace[k];
      SegmentAt(trace[..n], start, k);
      var before, m := Run(trace[..n], start).ops, |Run(trace[..k], start).ops|;
      var part := StepOps(trace[k], start + m);
      KeepsSegment(before, StepOps(trace[n], start + |before|), m, m + |part|);
    }
  }

  lemma KeepsSegment(a: seq<EvmOperation>, b: seq<EvmOperation>, i: nat, j: nat)
    requires i <= j <= |a|
    ensures (a + b)[i..j] == a[i..j]
  {
  }

  /** The flat call is that of the node at p. */
  ghost predicate Flattens(call: FlatCall, t: Tree, p: Path)
    requires IsPath(t, p)
  {
    var n := NodeAt(t, p);
    && call.kind == n.kind && call.from == n.from && call.to == n.to && call.value == ValueOf(n)
    && call.revert == FailedOnPath(t, p) && call.error == NearestError(t, p)
  }

  lemma FlattensAll(t: Tree)
    ensures var trace := Preorder(Normalise(t, false, ""));
      && |trace| == |Paths(t)|
      && forall k :: 0 <= k < |trace| ==> IsPath(t, Paths(t)[k]) && Flattens(trace[k], t, Paths(t)[k])
  {
    hide FailedOnPath, NearestError, IsPath, NodeAt, Preorder, Normalise, Paths;
    FlattenedTraceByPath(t);
  }

  lemma StepReports(call: FlatCall, next: int, t: Tree, p: Path)
    requires IsPath(t, p) && Flattens(call, t, p)
    ensures |StepOps(call, next)| == Reported(NodeAt(t, p))
  {
    hide FailedOnPath, NearestError, IsPath, NodeAt;
  }

  lemma StepTells(call: FlatCall, ops: seq<EvmOperation>, m: nat, start: int, t: Tree, p: Path)
    requires IsPath(t, p) && Flattens(call, t, p)
    requires var part := StepOps(call, start + m);
      m + |part| <= |ops| && ops[m..m + |part|] == part
    ensures NodeTold(ops, m, start, t, p)
  {
    hide FailedOnPath, NearestError, IsPath, NodeAt;
    var part := StepOps(call, start + m);
    StepReports(call, start + m, t, p);
    assert forall i :: 0 <= i < |part| ==> ops[m + i] == part[i];
  }

  lemma {:induction false} CountReported(trace: seq<FlatCall>, start: int, t: Tree, paths: seq<Path>)
    requires |trace| == |paths| && forall p <- paths :: IsPath(t, p)
    requires forall k :: 0 <= k < |trace| ==> Flattens(trace[k], t, paths[k])
    ensures |Run(trace, start).ops| == ReportedAt(t, paths)
  {
    hide Flattens, StepOps, StepDestroyed, Reported, IsPath, NodeAt;
    if trace != [] {
      var n := |trace| - 1;
      CountReported(trace[..n], start, t, paths[..n]);
      StepReports(trace[n], start + |Run(trace[..n], start).ops|, t, paths[n]);
    }
  }

  /** Main result: the operations of the trace are those of the nodes in preorder, each telling its own kind, accounts and
      amount, with the status and the error that the path above it gives. */
  lemma TraceToldByPath(t: Tree, start: int)
    ensures var ops := Run(Preorder(Normalise(t, false, "")), start).ops;
      && (forall p <- Paths(t) :: IsPath(t, p)) && |ops| == ReportedAt(t, Paths(t))
      && forall k :: 0 <= k < |Paths(t)| ==> NodeTold(ops, ReportedAt(t, Paths(t)[..k]), start, t, Paths(t)[k])
  {
    var trace, paths := Preorder(Normalise(t, false, "")), Paths(t);
    FlattensAll(t);
    PathsAreTheNodes(t);
    hide Preorder, Normalise, Paths, Flattens, NodeTold, IsPath, Run, StepOps, ReportedAt;
    CountReported(trace, start, t, paths);
    forall k | 0 <= k < |paths| ensures NodeTold(Run(trace, start).ops, ReportedAt(t, paths[..k]), start, t, paths[k]) {
      CountReported(trace[..k], start, t, paths[..k]);
      SegmentAt(trace, start, k);
      StepTells(trace[k], Run(trace, start).ops, ReportedAt(t, paths[..k]), start, t, paths[k]);
    }
  }
}
