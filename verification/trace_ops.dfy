/** server/mapper/transaction.go, traceOps: from flat calls to balance-changing operations. */
module TraceOps {
  import opened Rosetta
  import opened Sequences
  import opened CallTree
  import opened Evm

  predicate IsCallType(kind: CallKind) {
    kind in {Call, CallCode, DelegateCall, StaticCall}
  }

  predicate IsCreateType(kind: CallKind) {
    kind in {Create, Create2}
  }

  /** The two variables of the loop: the operations so far and the destroyed accounts with what they hold. */
  datatype TraceState = TraceState(ops: seq<EvmOperation>, destroyed: map<Address, int>)

  function CallStatus(call: FlatCall): Status {
    if call.revert then Failure else Success
  }

  function CallMetadata(call: FlatCall): EvmMetadata {
    if call.revert then CallError(call.error) else NoMetadata
  }

  predicate ShouldAdd(call: FlatCall) {
    !(call.value == 0 && IsCallType(call.kind))
  }

  predicate BurnsItself(call: FlatCall) {
    call.kind == SelfDestruct && call.from == call.to
  }

  function FromOp(call: FlatCall, index: int): EvmOperation {
    Operation(Some(index), [], Trace(call.kind), CallStatus(call), Some(Evm(call.from)),
              if call.value == 0 || call.from == INFLATION_CONTRACT then None else Some(Amount(-call.value, Flare)),
              None, CallMetadata(call))
  }

  function ToOp(call: FlatCall, index: int): EvmOperation {
    Operation(Some(index), [index - 1], Trace(call.kind), CallStatus(call), Some(Evm(call.to)),
              if call.value == 0 then None else Some(Amount(call.value, Flare)),
              None, CallMetadata(call))
  }

  /** Adds to a tracked account only. */
  function Adjust(destroyed: map<Address, int>, a: Address, delta: int): map<Address, int> {
    if a in destroyed then destroyed[a := destroyed[a] + delta] else destroyed
  }

  /** The destroyed accounts after one call. */
  function StepDestroyed(destroyed: map<Address, int>, call: FlatCall): map<Address, int> {
    var success := CallStatus(call) == Success;
    var debited :=
      if ShouldAdd(call) && call.value != 0 && call.from != INFLATION_CONTRACT && success
      then Adjust(destroyed, call.from, -call.value) else destroyed;
    var reset := if call.kind == SelfDestruct then debited[call.from := 0] else debited;
    if BurnsItself(call) then
      reset
    else
      var resurrected := if IsCreateType(call.kind) then reset - {call.to} else reset;
      if ShouldAdd(call) && call.value != 0 && success
      then Adjust(resurrected, call.to, call.value) else resurrected
  }

  /** The operations one call appends, the first of them numbered next. */
  function StepOps(call: FlatCall, next: int): seq<EvmOperation> {
    if !ShouldAdd(call) then []
    else if BurnsItself(call) then [FromOp(call, next)]
    else [FromOp(call, next), ToOp(call, next + 1)]
  }

  function Run(trace: seq<FlatCall>, start: int): TraceState {
    if trace == [] then TraceState([], map[])
    else
      var st := Run(trace[..|trace| - 1], start);
      var call := trace[|trace| - 1];
      TraceState(st.ops + StepOps(call, start + |st.ops|), StepDestroyed(st.destroyed, call))
  }

  // ----- the final loop over the destroyed accounts, in whatever order the map yields them -----

  ghost predicate Enumerates(order: seq<Address>, keys: set<Address>) {
    (forall a :: a in order <==> a in keys) && NoRepeats(order)
  }

  function DestructOp(a: Address, held: int, index: int): EvmOperation {
    Operation(Some(index), [], Destruct, Success, Some(Evm(a)), Some(Amount(-held, Flare)), None, NoMetadata)
  }

  function DestructOps(destroyed: map<Address, int>, order: seq<Address>, next: int): seq<EvmOperation>
    requires forall a <- order :: a in destroyed
  {
    if order == [] then []
    else
      var before := DestructOps(destroyed, order[..|order| - 1], next);
      var a := order[|order| - 1];
      if destroyed[a] == 0 then before else before + [DestructOp(a, destroyed[a], next + |before|)]
  }

  predicate Overdrawn(destroyed: map<Address, int>) {
    exists a <- destroyed :: destroyed[a] < 0
  }

  datatype Outcome = Operations(ops: seq<EvmOperation>) | Fatal(account: Address, held: int)

  /** The outcome of the final loop on a state: fatal when some account is overdrawn, otherwise one DESTRUCT
      operation for each account with something left, in the order met. */
  ghost predicate Finished(st: TraceState, start: int, outcome: Outcome, order: seq<Address>) {
    if Overdrawn(st.destroyed) then
      outcome.Fatal? && outcome.account in st.destroyed && st.destroyed[outcome.account] == outcome.held < 0
    else
      && Enumerates(order, st.destroyed.Keys)
      && outcome == Operations(st.ops + DestructOps(st.destroyed, order, start + |st.ops|))
  }

  // ----- indices -----

  /** An operation relates to nothing, or it receives what the operation just before it sends, and relates to that. */
  ghost predicate Paired(ops: seq<EvmOperation>, start: int) {
    forall i :: 0 <= i < |ops| && ops[i].related != [] ==> i > 0 && Receives(ops[i - 1], ops[i], start + i - 1)
  }

  predicate Receives(from: EvmOperation, to: EvmOperation, index: int) {
    && from.index == Some(index) && from.related == [] && to.related == [index]
    && from.kind == to.kind && from.status == to.status && from.metadata == to.metadata
    && (from.amount.Some? ==> to.amount == Some(Amount(-from.amount.value.value, from.amount.value.currency)))
  }

  /** Every operation's index is its position, and a receiving operation relates to the one just before it and to nothing
      else: its sender. */
  lemma {:induction false} RunNumbered(trace: seq<FlatCall>, start: int)
    ensures Numbered(Run(trace, start).ops, start) && RelatedEarlier(Run(trace, start).ops, start)
    ensures Paired(Run(trace, start).ops, start)
  {
    hide StepDestroyed, StepOps, Numbered, RelatedEarlier, Paired;
    if trace == [] {
      NothingNumbered(start);
    } else {
      var ops := Run(trace[..|trace| - 1], start).ops;
      RunNumbered(trace[..|trace| - 1], start);
      StepNumbered(trace[|trace| - 1], start + |ops|);
      NumberedAppend(ops, StepOps(trace[|trace| - 1], start + |ops|), start);
      PairedStep(ops, trace[|trace| - 1], start);
    }
  }

  lemma NothingNumbered(start: int)
    ensures Numbered([], start) && RelatedEarlier([], start) && Paired([], start)
  {
  }

  lemma StepNumbered(call: FlatCall, next: int)
    ensures Numbered(StepOps(call, next), next) && RelatedEarlier(StepOps(call, next), next)
  {
  }

  lemma PairedStep(ops: seq<EvmOperation>, call: FlatCall, start: int)
    requires Paired(ops, start)
    ensures Paired(ops + StepOps(call, start + |ops|), start)
  {
    var all := ops + StepOps(call, start + |ops|);
    forall i | 0 <= i < |all| && all[i].related != [] ensures i > 0 && Receives(all[i - 1], all[i], start + i - 1) {
      if i < |ops| {
        assert Receives(ops[i - 1], ops[i], start + i - 1);
      }
    }
  }

  /** An account is tracked only after a SELFDESTRUCT, which always adds an operation. */
  lemma {:induction false} TrackedMeansOps(trace: seq<FlatCall>, start: int)
    ensures Run(trace, start).destroyed.Keys != {} ==> Run(trace, start).ops != []
  {
    if trace != [] {
      TrackedMeansOps(trace[..|trace| - 1], start);
    }
  }

  /** The body of the main loop. */
  method ConvertCall(ops0: seq<EvmOperation>, destroyed0: map<Address, int>, call: FlatCall, start: int)
    returns (ops: seq<EvmOperation>, destroyed: map<Address, int>)
    requires Numbered(ops0, start)
    ensures ops == ops0 + StepOps(call, start + |ops0|)
    ensures destroyed == StepDestroyed(destroyed0, call)
  {
    ops, destroyed := ops0, destroyed0;
    var status := if call.revert then Failure else Success;
    var metadata := if call.revert then CallError(call.error) else NoMetadata;
    var zeroValue := call.value == 0;
    var shouldAdd := true;
    if zeroValue && IsCallType(call.kind) {
      shouldAdd := false;
    }
    var fromInflation := call.from == INFLATION_CONTRACT;
    if shouldAdd {
      var amount := Some(Amount(-call.value, Flare));
      if zeroValue || fromInflation {
        amount := None;
      } else if call.from in destroyed && status == Success {
        destroyed := destroyed[call.from := destroyed[call.from] - call.value];
      }
      ops := ops + [Operation(Some(|ops| + start), [], Trace(call.kind), status, Some(Evm(call.from)), amount, None, metadata)];
    }
    if call.kind == SelfDestruct {
      destroyed := destroyed[call.from := 0];
      if call.from == call.to {
        return;
      }
    }
    if IsCreateType(call.kind) {
      destroyed := destroyed - {call.to};
    }
    if shouldAdd {
      var last := ops[|ops| - 1].index.value;
      var amount := Some(Amount(call.value, Flare));
      if zeroValue {
        amount := None;
      } else if call.to in destroyed && status == Success {
        destroyed := destroyed[call.to := destroyed[call.to] + call.value];
      }
      ops := ops + [Operation(Some(last + 1), [last], Trace(call.kind), status, Some(Evm(call.to)), amount, None, metadata)];
    }
  }

  /** The final loop: zeroes out what destroyed accounts still hold. */
  method ZeroOut(emitted: seq<EvmOperation>, destroyed: map<Address, int>, start: int)
    returns (outcome: Outcome, ghost order: seq<Address>)
    requires Numbered(emitted, start)
    requires destroyed.Keys != {} ==> emitted != []
    ensures Finished(TraceState(emitted, destroyed), start, outcome, order)
  {
    var ops := emitted;
    order := [];
    var remaining := destroyed.Keys;
    while remaining != {}
      invariant remaining <= destroyed.Keys
      invariant Enumerates(order, destroyed.Keys - remaining)
      invariant forall a <- order :: destroyed[a] >= 0
      invariant ops == emitted + DestructOps(destroyed, order, start + |emitted|)
      invariant Numbered(ops, start) && (emitted != [] ==> ops != [])
      decreases remaining
    {
      var a :| a in remaining;
      remaining := remaining - {a};
      var held := destroyed[a];
      assert (order + [a])[..|order|] == order;
      order := order + [a];
      if held == 0 {
        continue;
      }
      if held < 0 {
        return Fatal(a, held), order;
      }
      ops := ops + [DestructOp(a, held, ops[|ops| - 1].index.value + 1)];
    }
    return Operations(ops), order;
  }

  /** The whole of traceOps. The process exits, through log.Fatalf, exactly when a destroyed account ends below zero. */
  method Convert(trace: seq<FlatCall>, start: int) returns (outcome: Outcome, ghost order: seq<Address>)
    ensures Finished(Run(trace, start), start, outcome, order)
  {
    var ops: seq<EvmOperation> := [];
    if |trace| == 0 {
      order := [];
      return Operations(ops), order;
    }
    var destroyed: map<Address, int> := map[];
    for i := 0 to |trace|
      invariant TraceState(ops, destroyed) == Run(trace[..i], start)
    {
      RunNumbered(trace[..i], start);
      assert trace[..i + 1][..i] == trace[..i];
      ops, destroyed := ConvertCall(ops, destroyed, trace[i], start);
    }
    assert trace[..|trace|] == trace;
    RunNumbered(trace, start);
    TrackedMeansOps(trace, start);
    outcome, order := ZeroOut(ops, destroyed, start);
  }

  lemma {:induction false} DestructNumbered(destroyed: map<Address, int>, order: seq<Address>, next: int)
    requires forall a <- order :: a in destroyed
    ensures Numbered(DestructOps(destroyed, order, next), next) && RelatedEarlier(DestructOps(destroyed, order, next), next)
  {
    if order != [] {
      DestructNumbered(destroyed, order[..|order| - 1], next);
    }
  }

  // ----- conservation -----

  /** Value a call creates: what the inflation contract pays out. */
  function Minted(call: FlatCall): int {
    if !call.revert && call.from == INFLATION_CONTRACT then call.value else 0
  }

  /** Value a call destroys: what an account sends to itself while self-destructing. */
  function Burned(call: FlatCall): int {
    if !call.revert && call.kind == SelfDestruct && call.from == call.to then call.value else 0
  }

  function TotalMinted(trace: seq<FlatCall>): int {
    if trace == [] then 0 else TotalMinted(trace[..|trace| - 1]) + Minted(trace[|trace| - 1])
  }

  function TotalBurned(trace: seq<FlatCall>): int {
    if trace == [] then 0 else TotalBurned(trace[..|trace| - 1]) + Burned(trace[|trace| - 1])
  }

  function Held(destroyed: map<Address, int>, order: seq<Address>): int
    requires forall a <- order :: a in destroyed
  {
    if order == [] then 0 else Held(destroyed, order[..|order| - 1]) + destroyed[order[|order| - 1]]
  }

  /** Over the whole trace the amounts add up to what was minted, less what was burned. */
  lemma {:induction false} RunConserves(trace: seq<FlatCall>, start: int)
    ensures NetIn(Run(trace, start).ops, Flare) == TotalMinted(trace) - TotalBurned(trace)
  {
    hide StepOps, StepDestroyed, Effect;
    if trace != [] {
      var rest, call := trace[..|trace| - 1], trace[|trace| - 1];
      RunConserves(rest, start);
      var ops := Run(rest, start).ops;
      StepConserves(ops, call, start + |ops|);
    }
  }

  lemma StepConserves(ops: seq<EvmOperation>, call: FlatCall, next: int)
    ensures NetIn(ops + StepOps(call, next), Flare) == NetIn(ops, Flare) + Minted(call) - Burned(call)
  {
    hide StepOps, Effect;
    StepNet(call, next);
    NetInAppend(ops, StepOps(call, next), Flare);
  }

  lemma StepNet(call: FlatCall, next: int)
    ensures NetIn(StepOps(call, next), Flare) == Minted(call) - Burned(call)
  {
    var added := StepOps(call, next);
    if added != [] {
      assert added[..1] == [FromOp(call, next)];
      assert NetIn([FromOp(call, next)], Flare) == Effect(FromOp(call, next), Flare);
    }
  }

  lemma {:induction false} DestructConserves(destroyed: map<Address, int>, order: seq<Address>, next: int)
    requires forall a <- order :: a in destroyed
    ensures NetIn(DestructOps(destroyed, order, next), Flare) == -Held(destroyed, order)
  {
    if order != [] {
      var a, before := order[|order| - 1], DestructOps(destroyed, order[..|order| - 1], next);
      DestructConserves(destroyed, order[..|order| - 1], next);
      var op := DestructOp(a, destroyed[a], next + |before|);
      assert (before + [op])[..|before|] == before;
    }
  }

  lemma FinishConserves(st: TraceState, order: seq<Address>, start: int)
    requires Enumerates(order, st.destroyed.Keys)
    ensures NetIn(st.ops + DestructOps(st.destroyed, order, start + |st.ops|), Flare)
         == NetIn(st.ops, Flare) - Held(st.destroyed, order)
  {
    hide NetIn, DestructOps, Held, NoRepeats;
    DestructConserves(st.destroyed, order, start + |st.ops|);
    NetInAppend(st.ops, DestructOps(st.destroyed, order, start + |st.ops|), Flare);
  }

  /** Main result: exact conservation over everything traceOps returns. */
  lemma TraceConserves(trace: seq<FlatCall>, order: seq<Address>, start: int)
    requires Enumerates(order, Run(trace, start).destroyed.Keys)
    ensures var st := Run(trace, start);
      NetIn(st.ops + DestructOps(st.destroyed, order, start + |st.ops|), Flare)
        == TotalMinted(trace) - TotalBurned(trace) - Held(st.destroyed, order)
  {
    hide Run, NetIn, DestructOps, Held, TotalMinted, TotalBurned, NoRepeats;
    RunConserves(trace, start);
    FinishConserves(Run(trace, start), order, start);
  }

  // ----- the independent view: a balance replay -----

  /** What leaves the sender of a call: nothing if it was reverted or minted. */
  function Debit(call: FlatCall): int {
    if call.revert || call.from == INFLATION_CONTRACT then 0 else call.value
  }

  /** What reaches the receiver of a call: nothing if it was reverted or burned. */
  function Credit(call: FlatCall): int {
    if call.revert || (call.kind == SelfDestruct && call.from == call.to) then 0 else call.value
  }

  function ChangeOf(call: FlatCall, a: Address): int {
    (if call.to == a then Credit(call) else 0) - (if call.from == a then Debit(call) else 0)
  }

  /** How much replaying the calls changes the balance of an account. */
  function Replayed(trace: seq<FlatCall>, a: Address): int {
    if trace == [] then 0 else Replayed(trace[..|trace| - 1], a) + ChangeOf(trace[|trace| - 1], a)
  }

  /** The balance of an account after replaying the calls from its opening balance. */
  function Balance(opening: Address -> int, trace: seq<FlatCall>, a: Address): int {
    opening(a) + Replayed(trace, a)
  }

  /** For every account the operations of the trace change the ledger as the replay does, whatever the trace. */
  lemma {:induction false} OpsMatchReplay(trace: seq<FlatCall>, start: int, a: Address)
    ensures NetOn(Run(trace, start).ops, a, Flare) == Replayed(trace, a)
  {
    hide StepOps, StepDestroyed, Effect;
    if trace != [] {
      var rest, call := trace[..|trace| - 1], trace[|trace| - 1];
      OpsMatchReplay(rest, start, a);
      var ops := Run(rest, start).ops;
      StepMatchesReplay(ops, call, start + |ops|, a);
    }
  }

  lemma StepMatchesReplay(ops: seq<EvmOperation>, call: FlatCall, next: int, a: Address)
    ensures NetOn(ops + StepOps(call, next), a, Flare) == NetOn(ops, a, Flare) + ChangeOf(call, a)
  {
    hide StepOps, Effect;
    StepNetOn(call, next, a);
    NetOnAppend(ops, StepOps(call, next), a, Flare);
  }

  lemma StepNetOn(call: FlatCall, next: int, a: Address)
    ensures NetOn(StepOps(call, next), a, Flare) == ChangeOf(call, a)
  {
    var added := StepOps(call, next);
    if added != [] {
      assert added[..1] == [FromOp(call, next)];
      assert NetOn([FromOp(call, next)], a, Flare) == EffectOn(FromOp(call, next), a, Flare);
    }
  }

  /** At every moment of the loop the map holds the replayed balance of each account it tracks. */
  ghost predicate MapAgrees(opening: Address -> int, trace: seq<FlatCall>, k: nat)
    requires k <= |trace|
  {
    var destroyed := Run(trace[..k], 0).destroyed;
    forall a <- destroyed :: destroyed[a] == Balance(opening, trace[..k], a)
  }

  /** The call at k does not leave a self-destructing account with anything of its own. */
  predicate Empties(opening: Address -> int, trace: seq<FlatCall>, k: nat)
    requires k < |trace|
  {
    trace[k].kind == SelfDestruct ==> Balance(opening, trace[..k], trace[k].from) == Debit(trace[k])
  }

  lemma {:induction false} DestroyedIgnoresStart(trace: seq<FlatCall>, start: int)
    ensures Run(trace, start).destroyed == Run(trace, 0).destroyed
  {
    if trace != [] {
      DestroyedIgnoresStart(trace[..|trace| - 1], start);
    }
  }

  lemma MapStep(opening: Address -> int, trace: seq<FlatCall>, k: nat)
    requires k < |trace| && MapAgrees(opening, trace, k)
    ensures MapAgrees(opening, trace, k + 1) <==> Empties(opening, trace, k)
  {
    var before, after := Run(trace[..k], 0).destroyed, Run(trace[..k + 1], 0).destroyed;
    assert trace[..k + 1][..k] == trace[..k];
    var call := trace[k];
    assert after == StepDestroyed(before, call);
    var then_ := (a: Address) => Balance(opening, trace[..k], a);
    StepAgrees(before, call, then_);
    forall a: Address ensures Balance(opening, trace[..k + 1], a) == then_(a) + ChangeOf(call, a) {
    }
  }

  /** One step of the map against one step of the replay. */
  lemma StepAgrees(before: map<Address, int>, call: FlatCall, balance: Address -> int)
    requires forall a <- before :: before[a] == balance(a)
    ensures var after := StepDestroyed(before, call);
      (forall a <- after :: after[a] == balance(a) + ChangeOf(call, a)) <==>
      (call.kind == SelfDestruct ==> balance(call.from) == Debit(call))
  {
    var after := StepDestroyed(before, call);
    if call.kind == SelfDestruct {
      assert call.from in after && after[call.from] == 0;
    }
  }

  /** Main result: the map agrees with the replay throughout exactly when every SELFDESTRUCT empties its account. */
  lemma MapAgreesIff(opening: Address -> int, trace: seq<FlatCall>)
    ensures (forall k :: 0 <= k <= |trace| ==> MapAgrees(opening, trace, k))
       <==> (forall k :: 0 <= k < |trace| ==> Empties(opening, trace, k))
  {
    if forall k :: 0 <= k <= |trace| ==> MapAgrees(opening, trace, k) {
      forall k | 0 <= k < |trace| ensures Empties(opening, trace, k) {
        assert MapAgrees(opening, trace, k) && MapAgrees(opening, trace, k + 1);
        MapStep(opening, trace, k);
      }
    }
    if forall k :: 0 <= k < |trace| ==> Empties(opening, trace, k) {
      assert MapAgrees(opening, trace, 0);
      for k := 0 to |trace|
        invariant forall j :: 0 <= j <= k ==> MapAgrees(opening, trace, j)
      {
        MapStep(opening, trace, k);
      }
    }
  }

  /** Nobody overdraws: every call that takes effect is paid from what its sender holds at that moment. */
  ghost predicate Solvent(opening: Address -> int, trace: seq<FlatCall>) {
    && (forall a: Address :: opening(a) >= 0)
    && (forall k :: 0 <= k < |trace| ==>
          && trace[k].value >= 0
          && Debit(trace[k]) <= Balance(opening, trace[..k], trace[k].from))
  }

  /** The traces of SELFDESTRUCTs that are never reverted: nobody overdraws, and each takes effect and moves the whole
      balance. */
  ghost predicate Sound(opening: Address -> int, trace: seq<FlatCall>) {
    && Solvent(opening, trace)
    && (forall k :: 0 <= k < |trace| && trace[k].kind == SelfDestruct ==>
          && !trace[k].revert && trace[k].from != INFLATION_CONTRACT
          && trace[k].value == Balance(opening, trace[..k], trace[k].from))
  }

  lemma SolventNeverNegative(opening: Address -> int, trace: seq<FlatCall>, a: Address)
    requires Solvent(opening, trace)
    ensures Balance(opening, trace, a) >= 0
  {
    assert trace[..0] == [];
    for k := 0 to |trace|
      invariant Balance(opening, trace[..k], a) >= 0
    {
      assert trace[..k + 1][..k] == trace[..k];
    }
    assert trace[..|trace|] == trace;
  }

  /** Main result: on sound traces the map is the replay at every step and log.Fatalf is out of reach. */
  lemma SoundTraceNeverFatal(opening: Address -> int, trace: seq<FlatCall>, start: int)
    requires Sound(opening, trace)
    ensures forall k :: 0 <= k <= |trace| ==> MapAgrees(opening, trace, k)
    ensures var destroyed := Run(trace, start).destroyed;
      forall a <- destroyed :: destroyed[a] == Balance(opening, trace, a) >= 0
  {
    MapAgreesIff(opening, trace);
    assert MapAgrees(opening, trace, |trace|);
    assert trace[..|trace|] == trace;
    DestroyedIgnoresStart(trace, start);
    forall a: Address ensures Balance(opening, trace, a) >= 0 {
      SolventNeverNegative(opening, trace, a);
    }
  }

  /** The call creates a contract at the account. */
  predicate Creates(call: FlatCall, a: Address) {
    (call.kind == Create || call.kind == Create2) && call.to == a
  }

  /** Call k destroyed the account, and no later call created it again. */
  ghost predicate StaysDestroyed(trace: seq<FlatCall>, a: Address, k: nat)
    requires k < |trace|
  {
    && trace[k].kind == SelfDestruct && trace[k].from == a
    && forall j :: k < j < |trace| ==> !Creates(trace[j], a)
  }

  /** An account is still tracked exactly when it self-destructed and was not created again afterwards. */
  lemma {:induction false} TrackedIff(trace: seq<FlatCall>, start: int, a: Address)
    ensures a in Run(trace, start).destroyed <==> exists k :: 0 <= k < |trace| && StaysDestroyed(trace, a, k)
  {
    hide StepOps;
    if trace != [] {
      var n := |trace| - 1;
      var rest, call := trace[..n], trace[n];
      TrackedIff(rest, start, a);
      var before := Run(rest, start).destroyed;
      assert Run(trace, start).destroyed == StepDestroyed(before, call);
      if call.kind == SelfDestruct && call.from == a {
        assert StaysDestroyed(trace, a, n);
      } else if !Creates(call, a) {
        assert a in StepDestroyed(before, call) <==> a in before;
        forall k | 0 <= k < n ensures StaysDestroyed(trace, a, k) <==> StaysDestroyed(rest, a, k) {
          assert trace[k] == rest[k];
          if StaysDestroyed(trace, a, k) {
            assert forall j :: k < j < n ==> rest[j] == trace[j];
          }
        }
        assert !StaysDestroyed(trace, a, n);
      }
    }
  }

  /** Call k destroyed the account for good: no later call destroyed it again or created it. */
  ghost predicate LastDestroyedBy(trace: seq<FlatCall>, a: Address, k: nat)
    requires k < |trace|
  {
    StaysDestroyed(trace, a, k) && forall j :: k < j < |trace| ==> !(trace[j].kind == SelfDestruct && trace[j].from == a)
  }

  lemma {:induction false} TrackedHasLast(trace: seq<FlatCall>, start: int, a: Address)
    requires a in Run(trace, start).destroyed
    ensures exists k :: 0 <= k < |trace| && LastDestroyedBy(trace, a, k)
  {
    TrackedIff(trace, start, a);
    var k: nat :| k < |trace| && StaysDestroyed(trace, a, k);
    var j := |trace| - 1;
    while !(trace[j].kind == SelfDestruct && trace[j].from == a)
      invariant k <= j < |trace|
      invariant forall i :: j < i < |trace| ==> !(trace[i].kind == SelfDestruct && trace[i].from == a)
      decreases j
    {
      j := j - 1;
    }
    assert LastDestroyedBy(trace, a, j);
  }

  /** What one call does to the holding of a tracked account that it neither destroys nor creates. */
  lemma HoldingStep(destroyed: map<Address, int>, call: FlatCall, a: Address)
    requires a in destroyed && !(call.kind == SelfDestruct && call.from == a) && !Creates(call, a)
    ensures a in StepDestroyed(destroyed, call) && StepDestroyed(destroyed, call)[a] == destroyed[a] + ChangeOf(call, a)
  {
  }

  /** Whatever the trace, a tracked account holds what it received less what it sent since it was last destroyed. */
  lemma {:induction false} HoldsSinceDestroyed(trace: seq<FlatCall>, start: int, a: Address, k: nat)
    requires k < |trace| && LastDestroyedBy(trace, a, k)
    ensures a in Run(trace, start).destroyed
    ensures Run(trace, start).destroyed[a] == Replayed(trace, a) - Replayed(trace[..k + 1], a)
  {
    var n := |trace| - 1;
    hide StepOps;
    if k == n {
      assert trace[..k + 1] == trace;
    } else {
      assert forall j :: 0 <= j < n ==> trace[..n][j] == trace[j];
      assert trace[..n][..k + 1] == trace[..k + 1];
      HoldsSinceDestroyed(trace[..n], start, a, k);
      HoldingStep(Run(trace[..n], start).destroyed, trace[n], a);
    }
  }

  /** Main result: on any trace at all, the fatal exit is reached exactly when some account, after it was destroyed for
      good, sent more than it received. */
  lemma FatalIff(trace: seq<FlatCall>, start: int)
    ensures Overdrawn(Run(trace, start).destroyed) <==>
      exists a, k :: 0 <= k < |trace| && LastDestroyedBy(trace, a, k) && Replayed(trace, a) < Replayed(trace[..k + 1], a)
  {
    var destroyed := Run(trace, start).destroyed;
    if a :| a in destroyed && destroyed[a] < 0 {
      TrackedHasLast(trace, start, a);
      var k: nat :| k < |trace| && LastDestroyedBy(trace, a, k);
      HoldsSinceDestroyed(trace, start, a, k);
    }
    if a, k: nat :| k < |trace| && LastDestroyedBy(trace, a, k) && Replayed(trace, a) < Replayed(trace[..k + 1], a) {
      HoldsSinceDestroyed(trace, start, a, k);
    }
  }

  /** How many of the accounts hold something. */
  function Holding(destroyed: map<Address, int>, order: seq<Address>): nat
    requires forall a <- order :: a in destroyed
  {
    if order == [] then 0
    else Holding(destroyed, order[..|order| - 1]) + if destroyed[order[|order| - 1]] == 0 then 0 else 1
  }

  /** Each account that holds something has its operation, after those of the accounts met before it, and no other does. */
  lemma {:induction false} DestructsTold(destroyed: map<Address, int>, order: seq<Address>, next: int, k: nat)
    requires (forall a <- order :: a in destroyed) && k < |order|
    ensures var ops, j, a := DestructOps(destroyed, order, next), Holding(destroyed, order[..k]), order[k];
      && |ops| == Holding(destroyed, order)
      && (destroyed[a] != 0 ==>
            && j < |ops| && ops[j].index == Some(next + j) && ops[j].related == [] && ops[j].coinChange == None
            && ops[j].kind == Destruct && ops[j].status == Success && ops[j].metadata == NoMetadata
            && ops[j].account == Some(Evm(a)) && ops[j].amount == Some(Amount(-destroyed[a], Flare)))
  {
    var n := |order| - 1;
    if k < n {
      DestructsTold(destroyed, order[..n], next, k);
      assert order[..n][..k] == order[..k];
    } else if n > 0 {
      DestructsTold(destroyed, order[..n], next, n - 1);
    }
  }

  /** One more destroyed account at the end of the order. */
  lemma DestructEffectStep(destroyed: map<Address, int>, rest: seq<Address>, x: Address, next: int, a: Address)
    requires forall y <- rest + [x] :: y in destroyed
    ensures NetOn(DestructOps(destroyed, rest + [x], next), a, Flare)
         == NetOn(DestructOps(destroyed, rest, next), a, Flare) - if a == x then destroyed[a] else 0
  {
    hide NetOn;
    var before := DestructOps(destroyed, rest, next);
    assert (rest + [x])[..|rest|] == rest;
    NetOnLast(before, DestructOp(x, destroyed[x], next + |before|), a, Flare);
  }

  lemma {:induction false} DestructEffect(destroyed: map<Address, int>, order: seq<Address>, next: int, a: Address)
    requires forall x <- order :: x in destroyed
    requires NoRepeats(order)
    ensures NetOn(DestructOps(destroyed, order, next), a, Flare) == if a in order then -destroyed[a] else 0
  {
    if order != [] {
      var rest, x := order[..|order| - 1], order[|order| - 1];
      assert order == rest + [x];
      DestructEffect(destroyed, rest, next, a);
      DestructEffectStep(destroyed, rest, x, next, a);
      hide DestructOps, NetOn, NoRepeats;
      assert a in order <==> a in rest || a == x;
    }
  }

  lemma FinishOnAccount(st: TraceState, order: seq<Address>, start: int, a: Address)
    requires Enumerates(order, st.destroyed.Keys)
    ensures NetOn(st.ops + DestructOps(st.destroyed, order, start + |st.ops|), a, Flare)
         == NetOn(st.ops, a, Flare) - if a in st.destroyed then st.destroyed[a] else 0
  {
    hide NetOn, DestructOps, NoRepeats;
    DestructEffect(st.destroyed, order, start + |st.ops|, a);
    NetOnAppend(st.ops, DestructOps(st.destroyed, order, start + |st.ops|), a, Flare);
  }

  /** Main result: where the map agrees, the operations leave every tracked account at zero and every other at its replayed balance. */
  lemma DestroyedAccountsEndAtZero(opening: Address -> int, trace: seq<FlatCall>, order: seq<Address>, start: int, a: Address)
    requires forall k :: 0 <= k < |trace| ==> Empties(opening, trace, k)
    requires Enumerates(order, Run(trace, start).destroyed.Keys)
    ensures var st := Run(trace, start);
      opening(a) + NetOn(st.ops + DestructOps(st.destroyed, order, start + |st.ops|), a, Flare)
        == if a in st.destroyed then 0 else Balance(opening, trace, a)
  {
    hide Run, NetOn, DestructOps, Replayed, Empties, NoRepeats;
    OpsMatchReplay(trace, start, a);
    FinishOnAccount(Run(trace, start), order, start, a);
    TrackedBalance(opening, trace, start, a);
  }

  lemma TrackedBalance(opening: Address -> int, trace: seq<FlatCall>, start: int, a: Address)
    requires forall k :: 0 <= k < |trace| ==> Empties(opening, trace, k)
    ensures var destroyed := Run(trace, start).destroyed;
      a in destroyed ==> destroyed[a] == Balance(opening, trace, a)
  {
    MapAgreesIff(opening, trace);
    assert MapAgrees(opening, trace, |trace|);
    assert trace[..|trace|] == trace;
    DestroyedIgnoresStart(trace, start);
  }
}
