/** From the call tree to the ledger: flattening a trace and converting it leaves the balances where the calls that
    were not reverted leave them (server/client/types.go and server/mapper/transaction.go). */
module TraceLedger {
  import opened Rosetta
  import opened CallTree
  import opened Evm
  import opened TraceOps

  /** What a node would change if it took effect. */
  function Move(t: Tree, a: Address): int {
    ChangeOf(Flatten(t).(revert := false), a)
  }

  /** What a tree of calls changes: a call that failed takes everything below it back. */
  function TreeMoves(t: Tree, a: Address): int
    decreases t, 1
  {
    if Failed(t) then 0 else Move(t, a) + ForestMoves(t.calls, a)
  }

  function ForestMoves(ts: seq<Tree>, a: Address): int
    decreases ts, 0
  {
    if ts == [] then 0 else TreeMoves(ts[0], a) + ForestMoves(ts[1..], a)
  }

  /** What the nodes at some paths change, those on a failed path counting for nothing. */
  ghost function PathMoves(t: Tree, paths: seq<Path>, a: Address): int
    requires forall p <- paths :: IsPath(t, p)
  {
    if paths == [] then 0
    else
      var p := paths[|paths| - 1];
      PathMoves(t, paths[..|paths| - 1], a) + if FailedOnPath(t, p) then 0 else Move(NodeAt(t, p), a)
  }

  lemma {:induction false} ReplayedAppend(x: seq<FlatCall>, y: seq<FlatCall>, a: Address)
    ensures Replayed(x + y, a) == Replayed(x, a) + Replayed(y, a)
    decreases |y|
  {
    if y == [] {
      assert x + y == x;
    } else {
      assert (x + y)[..|x + y| - 1] == x + y[..|y| - 1];
      ReplayedAppend(x, y[..|y| - 1], a);
    }
  }

  /** Below a reverted call nothing moves; otherwise what the tree says. */
  lemma {:induction false} ReplayIsTreeMoves(t: Tree, revert: bool, error: string, a: Address)
    ensures Replayed(Preorder(Normalise(t, revert, error)), a) == if revert then 0 else TreeMoves(t, a)
    decreases t, 1
  {
    var n := Normalise(t, revert, error);
    ReplayedAppend([Flatten(n)], PreorderAll(n.calls), a);
    ForestReplay(t.calls, n.revert, n.error, a);
    assert ChangeOf(Flatten(n), a) == if n.revert then 0 else Move(t, a);
  }

  lemma {:induction false} ForestReplay(ts: seq<Tree>, revert: bool, error: string, a: Address)
    ensures Replayed(PreorderAll(NormaliseAll(ts, revert, error)), a) == if revert then 0 else ForestMoves(ts, a)
    decreases ts, 0
  {
    if ts != [] {
      var all := NormaliseAll(ts, revert, error);
      assert all[1..] == NormaliseAll(ts[1..], revert, error);
      ReplayIsTreeMoves(ts[0], revert, error, a);
      ForestReplay(ts[1..], revert, error, a);
      ReplayedAppend(Preorder(all[0]), PreorderAll(all[1..]), a);
    }
  }

  /** The same by paths, for any list of calls that are the nodes at these paths. */
  lemma {:induction false} ReplayIsPathMoves(t: Tree, calls: seq<FlatCall>, paths: seq<Path>, a: Address)
    requires |calls| == |paths| && forall p <- paths :: IsPath(t, p)
    requires forall k :: 0 <= k < |paths| ==>
      && calls[k].revert == FailedOnPath(t, paths[k])
      && calls[k].(revert := false, error := "") == Flatten(NodeAt(t, paths[k])).(revert := false, error := "")
    ensures Replayed(calls, a) == PathMoves(t, paths, a)
  {
    if calls != [] {
      var n := |calls| - 1;
      ReplayIsPathMoves(t, calls[..n], paths[..n], a);
      assert paths[n] in paths;
    }
  }

  /** Main result: whatever the call tree, the operations of its flattened trace change every account's balance by exactly
      the value moves of the nodes that neither failed nor have an ancestor that failed. A reverted subtree leaves the
      ledger alone. */
  lemma TraceLedgerIsTreeMoves(t: Tree, start: int, a: Address)
    ensures var trace := Preorder(Normalise(t, false, ""));
      && NetOn(Run(trace, start).ops, a, Flare) == TreeMoves(t, a)
      && (forall p <- Paths(t) :: IsPath(t, p)) && NetOn(Run(trace, start).ops, a, Flare) == PathMoves(t, Paths(t), a)
  {
    var trace := Preorder(Normalise(t, false, ""));
    OpsMatchReplay(trace, start, a);
    ReplayIsTreeMoves(t, false, "", a);
    PathsAreTheNodes(t);
    FlattenedTraceByPath(t);
    ReplayIsPathMoves(t, trace, Paths(t), a);
  }

  /** A call to a in which a calls itself, self-destructs in favour of b and reverts; a then sends 1 to b. */
  function RevertedDestruct(x: Address, a: Address, b: Address): Tree {
    var destruct := Node(SelfDestruct, a, b, Some(5), None, false, "", []);
    var failed := Node(Call, a, a, None, None, false, "execution reverted", [destruct]);
    var send := Node(Call, a, b, Some(1), None, false, "", []);
    Node(Call, x, a, None, None, false, "", [failed, send])
  }

  /** What init makes of that call. */
  function RevertedTrace(x: Address, a: Address, b: Address): seq<FlatCall> {
    [FlatCall(Call, x, a, 0, 0, false, ""),
     FlatCall(Call, a, a, 0, 0, true, "execution reverted"),
     FlatCall(SelfDestruct, a, b, 5, 0, true, "execution reverted"),
     FlatCall(Call, a, b, 1, 0, false, "")]
  }

  lemma RevertedDestructFlattens(x: Address, a: Address, b: Address)
    ensures Preorder(Normalise(RevertedDestruct(x, a, b), false, "")) == RevertedTrace(x, a, b)
  {
    var t := RevertedDestruct(x, a, b);
    var failed, send := t.calls[0], t.calls[1];
    assert NormaliseAll(t.calls, false, "")[1..] == [Normalise(send, false, "")];
    assert PreorderAll([Normalise(send, false, "")]) == Preorder(Normalise(send, false, ""));
    var destruct := Normalise(failed.calls[0], true, "execution reverted");
    assert NormaliseAll(failed.calls, true, "execution reverted") == [destruct];
    assert Preorder(Normalise(failed, false, "")) == [RevertedTrace(x, a, b)[1]] + Preorder(destruct);
  }

  /** One more call, on the replay and on the tracked accounts. */
  lemma OneMoreCall(trace: seq<FlatCall>, call: FlatCall, start: int)
    ensures Run(trace + [call], start).destroyed == StepDestroyed(Run(trace, start).destroyed, call)
    ensures forall who :: Replayed(trace + [call], who) == Replayed(trace, who) + ChangeOf(call, who)
  {
    assert (trace + [call])[..|trace|] == trace;
  }

  /** The calls before the last one, as they follow each other. */
  lemma FirstCalls(x: Address, a: Address, b: Address, start: int)
    ensures var trace := RevertedTrace(x, a, b);
      && trace[..0] == [] && trace[..1] == [] + [trace[0]] && trace[..2] == trace[..1] + [trace[1]]
      && trace[..3] == trace[..2] + [trace[2]] && trace == trace[..3] + [trace[3]]
    ensures Run([], start).destroyed == map[] && forall who :: Replayed([], who) == 0
  {
  }

  /** What the adapter tracks at the end of that trace, and what its first calls change. */
  lemma RevertedTraceRun(x: Address, a: Address, b: Address, start: int)
    requires a != b && a != INFLATION_CONTRACT
    ensures var trace := RevertedTrace(x, a, b);
      && (forall k, who :: 0 <= k < 4 ==> Replayed(trace[..k], who) == 0)
      && Replayed(trace, a) == -1
      && Run(trace[..3], start).destroyed == map[a := 0] && Run(trace, start).destroyed == map[a := -1]
  {
    hide Run, Replayed;
    var trace := RevertedTrace(x, a, b);
    FirstCalls(x, a, b, start);
    OneMoreCall([], trace[0], start);
    OneMoreCall(trace[..1], trace[1], start);
    OneMoreCall(trace[..2], trace[2], start);
    OneMoreCall(trace[..3], trace[3], start);
  }

  /** After the self-destruct that was taken back the account is tracked with nothing, while it still holds its 5. */
  lemma RevertedSelfDestructMisleads(x: Address, a: Address, b: Address)
    requires a != b && a != INFLATION_CONTRACT
    ensures var trace := Preorder(Normalise(RevertedDestruct(x, a, b), false, ""));
      |trace| == 4 && trace[2].kind == SelfDestruct && !MapAgrees(y => 5, trace, 3)
  {
    RevertedDestructFlattens(x, a, b);
    RevertedTraceRun(x, a, b, 0);
    assert a in Run(RevertedTrace(x, a, b)[..3], 0).destroyed;
  }

  /** A call in which nobody overdraws, whose conversion ends in log.Fatalf: a keeps its 5 through the self-destruct that
      was taken back, is tracked as destroyed with nothing, and then sends 1. */
  lemma RevertedSelfDestructIsFatal(x: Address, a: Address, b: Address, start: int)
    requires a != b && a != INFLATION_CONTRACT
    ensures var trace := Preorder(Normalise(RevertedDestruct(x, a, b), false, ""));
      && Overdrawn(Run(trace, start).destroyed)
      && Solvent(y => 5, trace) && Balance(y => 5, trace, a) == 4
  {
    RevertedDestructFlattens(x, a, b);
    RevertedTraceRun(x, a, b, start);
    assert Run(RevertedTrace(x, a, b), start).destroyed[a] < 0;
  }
}
