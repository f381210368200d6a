/** server/client/types.go: the call tree of an EVM trace, revert propagation and preorder flattening. */
module CallTree {
  import opened Rosetta

  datatype CallKind =
    | Call | CallCode | DelegateCall | StaticCall
    | Create | Create2
    | SelfDestruct
    | OtherKind(name: string)

  datatype FlatCall = FlatCall(
    kind: CallKind, from: Address, to: Address,
    value: int, gasUsed: int, revert: bool, error: string)

  /** The value of a call tree at one moment; an absent number is one the decoder left nil. */
  datatype Tree = Node(
    kind: CallKind, from: Address, to: Address,
    value: Option<int>, gasUsed: Option<int>,
    revert: bool, error: string,
    calls: seq<Tree>)

  function OrZero(x: Option<int>): int {
    match x case Some(v) => v case None => 0
  }

  /** The flat form of one node on its own. */
  function Flatten(t: Tree): FlatCall {
    FlatCall(t.kind, t.from, t.to, OrZero(t.value), OrZero(t.gasUsed), t.revert, t.error)
  }

  /** What a parent with the given state writes into a child before visiting it. */
  function Inherit(t: Tree, revert: bool, error: string): Tree {
    if revert then t.(revert := true, error := if t.error == "" then error else t.error) else t
  }

  /** The node itself after its visit, its children untouched. */
  function Settle(t: Tree): Tree {
    t.(value := Some(OrZero(t.value)), gasUsed := Some(OrZero(t.gasUsed)), revert := t.revert || t.error != "")
  }

  /** The whole tree after its visit under a parent in the given state. */
  function Normalise(t: Tree, revert: bool, error: string): Tree
    decreases t, 1
  {
    var s := Settle(Inherit(t, revert, error));
    s.(calls := NormaliseAll(t.calls, s.revert, s.error))
  }

  function NormaliseAll(ts: seq<Tree>, revert: bool, error: string): (r: seq<Tree>)
    ensures |r| == |ts|
    ensures forall i :: 0 <= i < |ts| ==> r[i] == Normalise(ts[i], revert, error)
    decreases ts, 0
  {
    if ts == [] then [] else [Normalise(ts[0], revert, error)] + NormaliseAll(ts[1..], revert, error)
  }

  function Preorder(t: Tree): seq<FlatCall>
    decreases t, 1
  {
    [Flatten(t)] + PreorderAll(t.calls)
  }

  function PreorderAll(ts: seq<Tree>): seq<FlatCall>
    decreases ts, 0
  {
    if ts == [] then [] else Preorder(ts[0]) + PreorderAll(ts[1..])
  }

  // ----- the independent view: nodes addressed by the path from the root -----

  type Path = seq<nat>

  predicate IsPath(t: Tree, p: Path)
    decreases |p|
  {
    p == [] || (p[0] < |t.calls| && IsPath(t.calls[p[0]], p[1..]))
  }

  function NodeAt(t: Tree, p: Path): Tree
    requires IsPath(t, p)
    decreases |p|
  {
    if p == [] then t else NodeAt(t.calls[p[0]], p[1..])
  }

  lemma {:induction false} PrefixIsPath(t: Tree, p: Path, k: nat)
    requires IsPath(t, p) && k <= |p|
    ensures IsPath(t, p[..k])
    ensures k > 0 ==> IsPath(t.calls[p[0]], p[1..][..k - 1])
    ensures k > 0 ==> NodeAt(t, p[..k]) == NodeAt(t.calls[p[0]], p[1..][..k - 1])
    decreases |p|
  {
    if k > 0 {
      assert p[..k][1..] == p[1..][..k - 1];
      PrefixIsPath(t.calls[p[0]], p[1..], k - 1);
    }
  }

  predicate Failed(t: Tree) {
    t.revert || t.error != ""
  }

  ghost predicate FailedAt(t: Tree, p: Path, k: nat)
    requires IsPath(t, p) && k <= |p|
  {
    PrefixIsPath(t, p, k);
    Failed(NodeAt(t, p[..k]))
  }

  /** The node at p or one of its ancestors failed on its own account. */
  ghost predicate FailedOnPath(t: Tree, p: Path)
    requires IsPath(t, p)
  {
    exists k :: 0 <= k <= |p| && FailedAt(t, p, k)
  }

  /** The error of the node at p, or else of its nearest ancestor that has one. */
  ghost function NearestError(t: Tree, p: Path): string
    requires IsPath(t, p)
    decreases |p|
  {
    if NodeAt(t, p).error != "" || p == [] then
      NodeAt(t, p).error
    else
      PrefixIsPath(t, p, |p| - 1);
      NearestError(t, p[..|p| - 1])
  }

  /** All paths of a tree, every node before its children and the children from left to right. */
  function Paths(t: Tree): seq<Path>
    decreases t, 1
  {
    [[]] + PathsBelow(t.calls, 0)
  }

  function PathsBelow(ts: seq<Tree>, first: nat): seq<Path>
    decreases ts, 0
  {
    if ts == [] then []
    else Under(first, Paths(ts[0])) + PathsBelow(ts[1..], first + 1)
  }

  function Under(i: nat, ps: seq<Path>): (r: seq<Path>)
    ensures |r| == |ps|
    ensures forall k :: 0 <= k < |ps| ==> r[k] == [i] + ps[k]
  {
    seq(|ps|, k requires 0 <= k < |ps| => [i] + ps[k])
  }

  /** Preorder on paths: a node comes before its descendants and before its right siblings' subtrees. */
  predicate Before(p: Path, q: Path)
    decreases |p|
  {
    q != [] && (p == [] || p[0] < q[0] || (p[0] == q[0] && Before(p[1..], q[1..])))
  }

  ghost predicate StrictlyOrdered(ps: seq<Path>) {
    forall i, j :: 0 <= i < j < |ps| ==> Before(ps[i], ps[j])
  }

  /** Paths lists exactly the nodes of the tree, in preorder. */
  lemma {:induction false} PathsAreTheNodes(t: Tree)
    ensures forall p :: p in Paths(t) <==> IsPath(t, p)
    ensures StrictlyOrdered(Paths(t))
    decreases t, 1
  {
    PathsBelowAreTheNodes(t.calls, 0);
  }

  lemma {:induction false} PathsBelowAreTheNodes(ts: seq<Tree>, first: nat)
    ensures forall p :: p in PathsBelow(ts, first) <==>
      p != [] && first <= p[0] < first + |ts| && IsPath(ts[p[0] - first], p[1..])
    ensures StrictlyOrdered(PathsBelow(ts, first))
    decreases ts, 0
  {
    if ts != [] {
      PathsAreTheNodes(ts[0]);
      PathsBelowAreTheNodes(ts[1..], first + 1);
      var here, rest := Under(first, Paths(ts[0])), PathsBelow(ts[1..], first + 1);
      forall p ensures p in here <==> p != [] && p[0] == first && IsPath(ts[0], p[1..]) {
        UnderMembers(first, Paths(ts[0]), p);
      }
    }
  }

  lemma UnderMembers(i: nat, ps: seq<Path>, p: Path)
    ensures p in Under(i, ps) <==> p != [] && p[0] == i && p[1..] in ps
  {
    if p != [] && p[0] == i && p[1..] in ps {
      var k :| 0 <= k < |ps| && ps[k] == p[1..];
      assert Under(i, ps)[k] == p;
    }
  }

  // ----- revert propagation, told by paths -----

  /** The revert flag and error a visit leaves at the node at p. */
  function StateAt(t: Tree, p: Path, revert: bool, error: string): (bool, string)
    requires IsPath(t, p)
    decreases |p|
  {
    var s := Settle(Inherit(t, revert, error));
    if p == [] then (s.revert, s.error) else StateAt(t.calls[p[0]], p[1..], s.revert, s.error)
  }

  /** The flat call a visit emits for the node at p. */
  function FlatAt(t: Tree, p: Path, revert: bool, error: string): FlatCall
    requires IsPath(t, p)
  {
    var (r, e) := StateAt(t, p, revert, error);
    Flatten(NodeAt(t, p)).(revert := r, error := e)
  }

  /** Every emitted call is the one its node's path predicts. */
  ghost predicate EmittedByPath(cs: seq<FlatCall>, t: Tree, revert: bool, error: string) {
    && |cs| == |Paths(t)|
    && forall k :: 0 <= k < |cs| ==> IsPath(t, Paths(t)[k]) && cs[k] == FlatAt(t, Paths(t)[k], revert, error)
  }

  lemma {:induction false} PreorderByPaths(t: Tree, revert: bool, error: string)
    ensures EmittedByPath(Preorder(Normalise(t, revert, error)), t, revert, error)
    decreases t, 1
  {
    hide EmittedFor, FlatAt, NormaliseAll, PreorderAll, PathsBelow;
    var s := Settle(Inherit(t, revert, error));
    var below := PreorderAll(NormaliseAll(t.calls, s.revert, s.error));
    PreorderBelowByPaths(t.calls, 0, s.revert, s.error);
    RootFirst(t, revert, error);
    forall k | 0 < k <= |below|
      ensures IsPath(t, Paths(t)[k]) && below[k - 1] == FlatAt(t, Paths(t)[k], revert, error)
    {
      EmittedBelowRoot(below[k - 1], t, PathsBelow(t.calls, 0)[k - 1], revert, error);
    }
  }

  lemma RootFirst(t: Tree, revert: bool, error: string)
    ensures var s := Settle(Inherit(t, revert, error));
      Preorder(Normalise(t, revert, error))
        == [FlatAt(t, [], revert, error)] + PreorderAll(NormaliseAll(t.calls, s.revert, s.error))
  {
    hide NormaliseAll, PreorderAll;
  }

  lemma EmittedBelowRoot(c: FlatCall, t: Tree, p: Path, revert: bool, error: string)
    requires var s := Settle(Inherit(t, revert, error));
      EmittedFor(c, t.calls, 0, p, s.revert, s.error)
    ensures IsPath(t, p) && c == FlatAt(t, p, revert, error)
  {
  }

  /** c is the flat call of the node that p names among the trees ts, the first of them numbered first. */
  ghost predicate EmittedFor(c: FlatCall, ts: seq<Tree>, first: nat, p: Path, revert: bool, error: string) {
    && p != [] && first <= p[0] < first + |ts|
    && IsPath(ts[p[0] - first], p[1..])
    && c == FlatAt(ts[p[0] - first], p[1..], revert, error)
  }

  /** cs are the flat calls of the nodes that ps names. */
  ghost predicate EmittedForAll(cs: seq<FlatCall>, ts: seq<Tree>, first: nat, ps: seq<Path>, revert: bool, error: string) {
    |cs| == |ps| && forall k :: 0 <= k < |cs| ==> EmittedFor(cs[k], ts, first, ps[k], revert, error)
  }

  lemma {:induction false} PreorderBelowByPaths(ts: seq<Tree>, first: nat, revert: bool, error: string)
    ensures EmittedForAll(PreorderAll(NormaliseAll(ts, revert, error)), ts, first, PathsBelow(ts, first), revert, error)
    decreases ts, 0
  {
    if ts != [] {
      PreorderByPaths(ts[0], revert, error);
      PreorderBelowByPaths(ts[1..], first + 1, revert, error);
      var r0, r1 := Preorder(Normalise(ts[0], revert, error)), PreorderAll(NormaliseAll(ts[1..], revert, error));
      assert NormaliseAll(ts, revert, error)[1..] == NormaliseAll(ts[1..], revert, error);
      hide EmittedByPath, EmittedForAll, Normalise, Preorder, Paths;
      EmittedByFirst(r0, ts, first, revert, error);
      EmittedByOthers(r1, ts, first, revert, error);
      EmittedJoin(r0, r1, ts, first, Under(first, Paths(ts[0])), PathsBelow(ts[1..], first + 1), revert, error);
    }
  }

  lemma EmittedByFirst(cs: seq<FlatCall>, ts: seq<Tree>, first: nat, revert: bool, error: string)
    requires ts != [] && EmittedByPath(cs, ts[0], revert, error)
    ensures EmittedForAll(cs, ts, first, Under(first, Paths(ts[0])), revert, error)
  {
    hide FlatAt, Paths;
    var here := Under(first, Paths(ts[0]));
    forall k | 0 <= k < |here| ensures EmittedFor(cs[k], ts, first, here[k], revert, error) {
      assert here[k][1..] == Paths(ts[0])[k];
    }
  }

  lemma EmittedByOthers(cs: seq<FlatCall>, ts: seq<Tree>, first: nat, revert: bool, error: string)
    requires ts != [] && EmittedForAll(cs, ts[1..], first + 1, PathsBelow(ts[1..], first + 1), revert, error)
    ensures EmittedForAll(cs, ts, first, PathsBelow(ts[1..], first + 1), revert, error)
  {
    hide FlatAt, PathsBelow, IsPath;
  }

  lemma EmittedJoin(c0: seq<FlatCall>, c1: seq<FlatCall>, ts: seq<Tree>, first: nat, p0: seq<Path>, p1: seq<Path>,
                    revert: bool, error: string)
    requires EmittedForAll(c0, ts, first, p0, revert, error) && EmittedForAll(c1, ts, first, p1, revert, error)
    ensures EmittedForAll(c0 + c1, ts, first, p0 + p1, revert, error)
  {
    hide EmittedFor;
  }

  lemma {:induction false} FailedOnPathStep(t: Tree, p: Path)
    requires IsPath(t, p) && p != []
    ensures FailedOnPath(t, p) <==> Failed(t) || FailedOnPath(t.calls[p[0]], p[1..])
  {
    assert FailedAt(t, p, 0) == Failed(t);
    forall k | 0 < k <= |p| ensures FailedAt(t, p, k) == FailedAt(t.calls[p[0]], p[1..], k - 1) {
      PrefixIsPath(t, p, k);
    }
    if FailedOnPath(t.calls[p[0]], p[1..]) {
      var k :| 0 <= k <= |p[1..]| && FailedAt(t.calls[p[0]], p[1..], k);
      assert FailedAt(t, p, k + 1);
    }
  }

  lemma {:induction false} NearestErrorStep(t: Tree, p: Path)
    requires IsPath(t, p) && p != []
    ensures var below := NearestError(t.calls[p[0]], p[1..]);
      NearestError(t, p) == if below != "" then below else t.error
    decreases |p|
  {
    if NodeAt(t, p).error == "" {
      var q := p[..|p| - 1];
      PrefixIsPath(t, p, |p| - 1);
      if |p| > 1 {
        assert q[1..] == p[1..][..|p[1..]| - 1];
        NearestErrorStep(t, q);
      }
    }
  }

  lemma {:induction false} StateByPath(t: Tree, p: Path, revert: bool, error: string)
    requires IsPath(t, p)
    requires !revert ==> error == ""
    ensures var near := NearestError(t, p);
      StateAt(t, p, revert, error) == (revert || FailedOnPath(t, p), if near != "" then near else error)
    decreases |p|
  {
    if p == [] {
      assert FailedAt(t, p, 0) == Failed(t);
    } else {
      var s := Settle(Inherit(t, revert, error));
      StateByPath(t.calls[p[0]], p[1..], s.revert, s.error);
      FailedOnPathStep(t, p);
      NearestErrorStep(t, p);
    }
  }

  /** The flat call has the node's own kind and accounts, and its numbers, zero when absent. */
  predicate Copies(c: FlatCall, t: Tree) {
    && c.kind == t.kind && c.from == t.from && c.to == t.to
    && c.value == (match t.value case Some(v) => v case None => 0)
    && c.gasUsed == (match t.gasUsed case Some(g) => g case None => 0)
  }

  /** Main result: what init returns for the whole trace, node by node of the tree it was given. */
  lemma {:induction false} FlattenedTraceByPath(t: Tree)
    ensures var r := Preorder(Normalise(t, false, ""));
      && |r| == |Paths(t)|
      && forall k :: 0 <= k < |r| ==>
        var p := Paths(t)[k];
        && IsPath(t, p)
        && r[k].revert == FailedOnPath(t, p)
        && r[k].error == NearestError(t, p)
        && Copies(r[k], NodeAt(t, p))
        && r[k].(revert := false, error := "") == Flatten(NodeAt(t, p)).(revert := false, error := "")
  {
    PreorderByPaths(t, false, "");
    forall k | 0 <= k < |Paths(t)|
      ensures StateAt(t, Paths(t)[k], false, "") == (FailedOnPath(t, Paths(t)[k]), NearestError(t, Paths(t)[k]))
    {
      StateByPath(t, Paths(t)[k], false, "");
    }
  }

  /** A second visit finds nothing to change, so it returns the same list. */
  lemma {:induction false} NormaliseIdempotent(t: Tree, revert: bool, error: string)
    ensures Normalise(Normalise(t, revert, error), false, "") == Normalise(t, revert, error)
    ensures Normalise(Normalise(t, revert, error), revert, error) == Normalise(t, revert, error)
    decreases t, 1
  {
    var s := Settle(Inherit(t, revert, error));
    NormaliseAllIdempotent(t.calls, s.revert, s.error);
  }

  lemma {:induction false} NormaliseAllIdempotent(ts: seq<Tree>, revert: bool, error: string)
    ensures NormaliseAll(NormaliseAll(ts, revert, error), revert, error) == NormaliseAll(ts, revert, error)
    decreases ts, 0
  {
    if ts != [] {
      NormaliseIdempotent(ts[0], revert, error);
      NormaliseAllIdempotent(ts[1..], revert, error);
      assert NormaliseAll(ts, revert, error)[1..] == NormaliseAll(ts[1..], revert, error);
    }
  }

  lemma {:induction false} PreorderAllAppend(ts: seq<Tree>, t: Tree)
    ensures PreorderAll(ts + [t]) == PreorderAll(ts) + Preorder(t)
  {
    if ts == [] {
      assert [t][1..] == [];
    } else {
      assert (ts + [t])[1..] == ts[1..] + [t];
      PreorderAllAppend(ts[1..], t);
    }
  }

  // ----- the mutable tree -----

  /** The decoded call. The fields that init never writes are constants. */
  class CallNode {
    const kind: CallKind
    const from: Address
    const to: Address
    const calls: seq<CallNode>
    var value: Option<int>
    var gasUsed: Option<int>
    var revert: bool
    var error: string
    ghost const Repr: set<CallNode>

    constructor (kind: CallKind, from: Address, to: Address, value: Option<int>, gasUsed: Option<int>,
                 revert: bool, error: string, calls: seq<CallNode>)
      requires forall c <- calls :: c.Valid()
      requires forall i, j :: 0 <= i < j < |calls| ==> calls[i].Repr !! calls[j].Repr
      ensures Valid()
      ensures forall c <- calls :: c.View() == old(c.View())
      ensures View().(calls := []) == Node(kind, from, to, value, gasUsed, revert, error, [])
      ensures |View().calls| == |calls| && forall i :: 0 <= i < |calls| ==> View().calls[i] == old(calls[i].View())
    {
      this.kind, this.from, this.to, this.calls := kind, from, to, calls;
      this.value, this.gasUsed, this.revert, this.error := value, gasUsed, revert, error;
      Repr := {this} + set c, r | c in calls && r in c.Repr :: r;
    }

    /** The nodes form a tree: children's parts are below this node and apart from each other. */
    ghost predicate Valid()
      decreases Repr
    {
      && this in Repr
      && (forall c <- calls :: c.Repr < Repr && this !in c.Repr && c.Valid())
      && (forall i, j :: 0 <= i < j < |calls| ==> calls[i].Repr !! calls[j].Repr)
    }

    ghost function View(): Tree
      requires Valid()
      reads Repr
      decreases Repr, 1
    {
      Node(kind, from, to, value, gasUsed, revert, error, Views())
    }

    ghost function Views(): (r: seq<Tree>)
      requires Valid()
      reads Repr
      ensures |r| == |calls| && forall i :: 0 <= i < |calls| ==> r[i] == calls[i].View()
      decreases Repr, 0
    {
      seq(|calls|, i requires 0 <= i < |calls| reads Repr => calls[i].View())
    }

    /** What a parent does to a child before visiting it: hand down its revert flag and its error. */
    method TakeFrom(parentRevert: bool, parentError: string)
      requires Valid()
      modifies this`revert, this`error
      ensures View() == Inherit(old(View()), parentRevert, parentError)
    {
      if parentRevert {
        revert := true;
        if error == "" {
          error := parentError;
        }
      }
      assert Views() == old(Views());
    }

    /** The first lines of Init, on this call alone. */
    method SettleSelf()
      requires Valid()
      modifies this`value, this`gasUsed, this`revert
      ensures View() == Settle(old(View()))
    {
      if value == None {
        value := Some(0);
      }
      if gasUsed == None {
        gasUsed := Some(0);
      }
      if error != "" {
        revert := true;
      }
      assert Views() == old(Views());
    }

    /** Propagates reverts and errors to every descendant, fills in missing numbers and lists the calls in preorder. */
    method Init() returns (results: seq<FlatCall>)
      requires Valid()
      modifies Repr
      ensures View() == Normalise(old(View()), false, "")
      ensures results == Preorder(View())
      decreases Repr, 2
    {
      SettleSelf();
      results := [FlatCall(kind, from, to, value.value, gasUsed.value, revert, error)];
      var descendants := VisitCalls();
      results := results + descendants;
    }

    /** The loop of Init over the children. */
    method VisitCalls() returns (results: seq<FlatCall>)
      requires Valid()
      modifies Repr - {this}
      ensures Views() == NormaliseAll(old(Views()), revert, error)
      ensures results == PreorderAll(Views())
      decreases Repr, 1
    {
      hide Normalise, Preorder;
      ghost var before := Views();
      ghost var after := NormaliseAll(before, revert, error);
      results := [];
      for i := 0 to |calls|
        invariant forall j :: 0 <= j < i ==> calls[j].View() == after[j]
        invariant forall j :: i <= j < |calls| ==> calls[j].View() == before[j]
        invariant results == PreorderAll(after[..i])
      {
        var children := VisitCall(i);
        results := results + children;
        assert after[..i + 1] == after[..i] + [after[i]];
        PreorderAllAppend(after[..i], after[i]);
      }
      assert after[..|calls|] == after == Views();
    }

    /** One turn of the loop: hand down the state of this call, then visit the child. */
    method VisitCall(i: nat) returns (results: seq<FlatCall>)
      requires Valid() && i < |calls|
      modifies calls[i].Repr
      ensures calls[i].View() == Normalise(old(calls[i].View()), revert, error)
      ensures forall j :: 0 <= j < |calls| && j != i ==> calls[j].View() == old(calls[j].View())
      ensures results == Preorder(calls[i].View())
      decreases Repr, 0
    {
      calls[i].TakeFrom(revert, error);
      results := calls[i].Init();
      forall j | 0 <= j < |calls| && j != i ensures calls[j].View() == old(calls[j].View()) {
        assert calls[j].Repr !! calls[i].Repr;
      }
    }
  }
}
