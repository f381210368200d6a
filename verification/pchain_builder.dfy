/** server/mapper/pchain/tx_builder.go: from matched Rosetta operations to P-chain transactions. */
module PChainBuilder {
  import opened Rosetta
  import opened Sequences
  import opened PChain

  datatype BuildError =
    | InvalidOpType | InvalidMetadata | UnreadableMetadata | InvalidInputType | InvalidOutputType
    | AmountMissing | AddressMalformed | AmountOverflow

  /** The texts of a staking request after decoding; one that does not decode is None. An absent subnet decodes, and
      proven tells whether the key and its proof of possession decode and agree. */
  datatype StakingMetadata = StakingMetadata(
    nodeId: Option<Id>, subnet: Option<Id>, proven: bool, owners: seq<Option<ShortId>>, delegationOwners: seq<Option<ShortId>>)
  {
    /** What each type of staking transaction reads of it. */
    predicate ReadableFor(kind: StakeKind) {
      && nodeId.Some? && AllDecode(owners)
      && (kind == AddPermissionlessValidator ==> subnet.Some? && proven && AllDecode(delegationOwners))
      && (kind == AddPermissionlessDelegator ==> subnet.Some?)
    }
  }

  predicate AllDecode(owners: seq<Option<ShortId>>) {
    forall i :: 0 <= i < |owners| ==> owners[i].Some?
  }

  /** What building needs beside the operations: the asset, where an export goes, the staking data, and the order of
      outputs, which the library sorts by their codec bytes. */
  datatype Settings = Settings(avaxAsset: Id, destination: Option<Id>, staking: Option<StakingMetadata>, outputOrder: Output -> int)

  /** Inputs are sorted by the coins they spend. */
  function InputKey(input: Input): int {
    CoinKey(input.utxo)
  }

  const INPUT_KEY: Input -> int := (input: Input) => InputKey(input)

  /** ParseOpMetadata: threshold 1 and a single signer unless given. */
  function Defaults(m: OpMeta): OpMeta {
    m.(threshold := if m.threshold == 0 then 1 else m.threshold,
       sigIndices := if m.sigIndices == None then Some([0]) else m.sigIndices)
  }

  /** The operations of one metadata type, in their order. */
  function OfType(ops: seq<POperation>, metaType: MetaType): (r: seq<POperation>)
    ensures forall op <- r :: op in ops && op.metadata.metaType == metaType
  {
    if ops == [] then []
    else
      var last := ops[|ops| - 1];
      OfType(ops[..|ops| - 1], metaType) + if last.metadata.metaType == metaType then [last] else []
  }

  /** An operation the matcher lets through as an input: it spends a coin. */
  predicate IsInputOp(op: POperation) {
    op.coinChange.Some?
  }

  function RebuildInput(asset: Id, op: POperation): Input
    requires op.coinChange.Some? && op.amount.Some?
  {
    Input(op.coinChange.value.coin, asset,
          TransferIn(LowUint64(op.amount.value.value), Defaults(op.metadata).sigIndices.value))
  }

  /** RebuildInput on any operation; one that is not an input never gets this far. */
  function InputOf(asset: Id): POperation -> Input {
    (op: POperation) =>
      if op.coinChange.Some? && op.amount.Some? then RebuildInput(asset, op)
      else Input(UtxoId(0, 0), asset, OtherIn(0))
  }

  function RebuildOutput(asset: Id, op: POperation): Output
    requires op.account.Some? && op.account.value.Bech32? && op.amount.Some?
  {
    var meta := Defaults(op.metadata);
    Output(asset, Transfer(TransferOutput(LowUint64(op.amount.value.value), meta.locktime, meta.threshold, [op.account.value.id])))
  }

  function OutputOf(asset: Id): POperation -> Output {
    (op: POperation) =>
      if op.account.Some? && op.account.value.Bech32? && op.amount.Some? then RebuildOutput(asset, op)
      else Output(asset, OtherOut)
  }

  function InputError(op: POperation): Option<BuildError> {
    if op.amount.None? then Some(AmountMissing)
    else if op.metadata.metaType != ImportType && op.metadata.metaType != InputType then Some(InvalidInputType)
    else None
  }

  function OutputError(op: POperation): Option<BuildError> {
    if op.account.None? || !op.account.value.Bech32? then Some(AddressMalformed)
    else if op.amount.None? then Some(AmountMissing)
    else if !op.metadata.metaType.OutputType? && !op.metadata.metaType.StakeType? && !op.metadata.metaType.ExportType? then
      Some(InvalidOutputType)
    else None
  }

  /** The error of the first faulty operation. */
  function FirstError(ops: seq<POperation>, fault: POperation -> Option<BuildError>): Option<BuildError> {
    if ops == [] then None
    else
      var before := FirstError(ops[..|ops| - 1], fault);
      if before.Some? then before else fault(ops[|ops| - 1])
  }

  lemma {:induction false} ErrorStays(ops: seq<POperation>, fault: POperation -> Option<BuildError>, k: nat)
    requires k <= |ops| && FirstError(ops[..k], fault).Some?
    ensures FirstError(ops, fault) == FirstError(ops[..k], fault)
    decreases |ops|
  {
    if k == |ops| {
      assert ops[..k] == ops;
    } else {
      assert ops[..|ops| - 1][..k] == ops[..k];
      ErrorStays(ops[..|ops| - 1], fault, k);
    }
  }

  lemma {:induction false} NoErrorMeans(ops: seq<POperation>, fault: POperation -> Option<BuildError>)
    ensures FirstError(ops, fault).None? <==> forall op <- ops :: fault(op).None?
  {
    if ops != [] {
      NoErrorMeans(ops[..|ops| - 1], fault);
      assert forall op <- ops :: op in ops[..|ops| - 1] || op == ops[|ops| - 1];
    }
  }

  /** The inputs of one type, sorted. */
  ghost predicate AreInputs(ins: seq<Input>, ops: seq<POperation>, metaType: MetaType, asset: Id) {
    IsSorted(ins, Map(OfType(ops, metaType), InputOf(asset)), INPUT_KEY)
  }

  ghost predicate AreOutputs(outs: seq<Output>, ops: seq<POperation>, metaType: MetaType, settings: Settings) {
    IsSorted(outs, Map(OfType(ops, metaType), OutputOf(settings.avaxAsset)), settings.outputOrder)
  }

  /** One more operation: it joins the image of its own type. */
  lemma ImageTurn<T>(ops: seq<POperation>, i: nat, metaType: MetaType, f: POperation -> T)
    requires i < |ops|
    ensures Map(OfType(ops[..i + 1], metaType), f) ==
      Map(OfType(ops[..i], metaType), f) + if ops[i].metadata.metaType == metaType then [f(ops[i])] else []
  {
    assert ops[..i + 1][..i] == ops[..i];
  }

  lemma ErrorTurn(ops: seq<POperation>, i: nat, fault: POperation -> Option<BuildError>)
    requires i < |ops| && FirstError(ops[..i], fault).None?
    ensures FirstError(ops[..i + 1], fault) == fault(ops[i])
    ensures fault(ops[i]).Some? ==> FirstError(ops, fault) == fault(ops[i])
  {
    assert ops[..i + 1][..i] == ops[..i];
    if fault(ops[i]).Some? {
      ErrorStays(ops, fault, i + 1);
    }
  }

  function Accounts(ops: seq<POperation>): seq<Option<Account>> {
    seq(|ops|, i requires 0 <= i < |ops| => ops[i].account)
  }

  /** Decodes one input operation. */
  method ReadInputOp(op: POperation, asset: Id) returns (r: Result<Input, BuildError>)
    requires IsInputOp(op)
    ensures r == match InputError(op) case Some(e) => Err(e) case None => Ok(InputOf(asset)(op))
  {
    if op.amount.None? {
      return Err(AmountMissing);
    }
    var meta := Defaults(op.metadata);
    var input := Input(op.coinChange.value.coin, asset,
                       TransferIn(LowUint64(op.amount.value.value), meta.sigIndices.value));
    if meta.metaType != ImportType && meta.metaType != InputType {
      return Err(InvalidInputType);
    }
    return Ok(input);
  }

  method BuildInputs(ops: seq<POperation>, settings: Settings)
    returns (ins: seq<Input>, imported: seq<Input>, signers: seq<Option<Account>>, error: Option<BuildError>)
    requires forall op <- ops :: IsInputOp(op)
    ensures error == FirstError(ops, InputError)
    ensures error.None? ==>
      && AreInputs(ins, ops, InputType, settings.avaxAsset)
      && AreInputs(imported, ops, ImportType, settings.avaxAsset)
      && signers == Accounts(ops)
  {
    hide OfType, FirstError, Map;
    ins, imported, signers, error := [], [], [], None;
    var asset := settings.avaxAsset;
    NothingYet(InputError, InputType, InputOf(asset));
    NothingYet(InputError, ImportType, InputOf(asset));
    for i := 0 to |ops|
      invariant error == FirstError(ops[..i], InputError) == None
      invariant ins == Map(OfType(ops[..i], InputType), InputOf(asset))
      invariant imported == Map(OfType(ops[..i], ImportType), InputOf(asset))
      invariant signers == Accounts(ops[..i])
    {
      ErrorTurn(ops, i, InputError);
      ImageTurn(ops, i, InputType, InputOf(asset));
      ImageTurn(ops, i, ImportType, InputOf(asset));
      var read := ReadInputOp(ops[i], asset);
      if read.Err? {
        return [], [], [], Some(read.error);
      }
      var input := read.value;
      if ops[i].metadata.metaType == ImportType {
        imported := imported + [input];
      } else {
        ins := ins + [input];
      }
      signers := signers + [ops[i].account];
    }
    assert ops[..|ops|] == ops;
    ins := SortBy(ins, INPUT_KEY);
    imported := SortBy(imported, INPUT_KEY);
  }

  lemma NothingYet<T>(fault: POperation -> Option<BuildError>, metaType: MetaType, f: POperation -> T)
    ensures FirstError([], fault) == None && Map(OfType([], metaType), f) == []
  {
  }

  /** Decodes one output operation. */
  method ReadOutputOp(op: POperation, asset: Id) returns (r: Result<Output, BuildError>)
    requires op.account.Some?
    ensures r == match OutputError(op) case Some(e) => Err(e) case None => Ok(OutputOf(asset)(op))
  {
    var meta := Defaults(op.metadata);
    if !op.account.value.Bech32? {
      return Err(AddressMalformed);
    }
    if op.amount.None? {
      return Err(AmountMissing);
    }
    var owners := TransferOutput(LowUint64(op.amount.value.value), meta.locktime, meta.threshold, [op.account.value.id]);
    if meta.metaType != OutputType && meta.metaType != StakeType && meta.metaType != ExportType {
      return Err(InvalidOutputType);
    }
    return Ok(Output(asset, Transfer(owners)));
  }

  method BuildOutputs(ops: seq<POperation>, settings: Settings)
    returns (outs: seq<Output>, stakes: seq<Output>, exported: seq<Output>, error: Option<BuildError>)
    requires forall op <- ops :: op.account.Some?
    ensures error == FirstError(ops, OutputError)
    ensures error.None? ==>
      && AreOutputs(outs, ops, OutputType, settings)
      && AreOutputs(stakes, ops, StakeType, settings)
      && AreOutputs(exported, ops, ExportType, settings)
  {
    hide OfType, FirstError, Map;
    outs, stakes, exported, error := [], [], [], None;
    var asset := settings.avaxAsset;
    NothingYet(OutputError, OutputType, OutputOf(asset));
    NothingYet(OutputError, StakeType, OutputOf(asset));
    NothingYet(OutputError, ExportType, OutputOf(asset));
    for i := 0 to |ops|
      invariant error == FirstError(ops[..i], OutputError) == None
      invariant outs == Map(OfType(ops[..i], OutputType), OutputOf(asset))
      invariant stakes == Map(OfType(ops[..i], StakeType), OutputOf(asset))
      invariant exported == Map(OfType(ops[..i], ExportType), OutputOf(asset))
    {
      ErrorTurn(ops, i, OutputError);
      ImageTurn(ops, i, OutputType, OutputOf(asset));
      ImageTurn(ops, i, StakeType, OutputOf(asset));
      ImageTurn(ops, i, ExportType, OutputOf(asset));
      var read := ReadOutputOp(ops[i], asset);
      if read.Err? {
        return [], [], [], Some(read.error);
      }
      var out := read.value;
      match ops[i].metadata.metaType {
        case OutputType => outs := outs + [out];
        case StakeType => stakes := stakes + [out];
        case _ => exported := exported + [out];
      }
    }
    assert ops[..|ops|] == ops;
    outs := SortBy(outs, settings.outputOrder);
    stakes := SortBy(stakes, settings.outputOrder);
    exported := SortBy(exported, settings.outputOrder);
  }

  function OutputAmount(out: Output): uint64 {
    match out.out
    case Transfer(o) => o.amount
    case _ => 0
  }

  function TotalOutput(outs: seq<Output>): nat {
    if outs == [] then 0 else TotalOutput(outs[..|outs| - 1]) + OutputAmount(outs[|outs| - 1])
  }

  lemma {:induction false} TotalOutputGrows(outs: seq<Output>, k: nat)
    requires k <= |outs|
    ensures TotalOutput(outs[..k]) <= TotalOutput(outs)
    decreases |outs| - k
  {
    if k == |outs| {
      assert outs[..k] == outs;
    } else {
      assert outs[..k + 1][..k] == outs[..k];
      TotalOutputGrows(outs, k + 1);
    }
  }

  /** The checked sum is the true sum, and overflow is reported exactly when that does not fit 64 bits. */
  method SumOutputAmounts(outs: seq<Output>) returns (total: Option<uint64>)
    ensures total == if TotalOutput(outs) < TWO_64 then Some(TotalOutput(outs)) else None
  {
    var sum: uint64 := 0;
    for i := 0 to |outs|
      invariant sum == TotalOutput(outs[..i])
    {
      assert outs[..i + 1][..i] == outs[..i];
      TotalOutputGrows(outs, i + 1);
      var amount := OutputAmount(outs[i]);
      if amount > TWO_64 - 1 - sum {
        return None;
      }
      sum := sum + amount;
    }
    assert outs[..|outs|] == outs;
    return Some(sum);
  }

  // ----- whole transactions -----

  predicate IsBuildable(kind: TxType) {
    kind.Staking? || kind == ImportAvax || kind == ExportAvax
  }

  /** The transaction that building gives, up to the order of outputs with the same sort key. */
  ghost predicate IsBuilt(tx: UnsignedTx, kind: TxType, inputs: seq<POperation>, outputs: seq<POperation>, settings: Settings) {
    match kind
    case ImportAvax =>
      && tx.ImportTx?
      && AreInputs(tx.ins, inputs, InputType, settings.avaxAsset)
      && AreInputs(tx.imported, inputs, ImportType, settings.avaxAsset)
      && AreOutputs(tx.outs, outputs, OutputType, settings)
    case ExportAvax =>
      && tx.ExportTx? && settings.destination == Some(tx.destination)
      && AreInputs(tx.ins, inputs, InputType, settings.avaxAsset)
      && AreOutputs(tx.outs, outputs, OutputType, settings)
      && AreOutputs(tx.exported, outputs, ExportType, settings)
    case Staking(stakeKind) =>
      && tx.StakeTx? && tx.stakeKind == stakeKind
      && AreInputs(tx.ins, inputs, InputType, settings.avaxAsset)
      && AreOutputs(tx.outs, outputs, OutputType, settings)
      && AreOutputs(tx.stake, outputs, StakeType, settings)
      && tx.weight == TotalOutput(tx.stake)
    case _ => false
  }

  /** A short id's bytes, read as a number, have the library's order of short ids. */
  const SHORT_ID_KEY: ShortId -> int := (id: ShortId) => id

  function Decoded(owners: seq<Option<ShortId>>): (ids: seq<ShortId>)
    requires AllDecode(owners)
    ensures |ids| == |owners| && forall i :: 0 <= i < |owners| ==> owners[i] == Some(ids[i])
  {
    seq(|owners|, i requires 0 <= i < |owners| => owners[i].value)
  }

  /** buildOutputOwner: decodes the owners one by one, and sorts them. */
  method BuildOutputOwner(owners: seq<Option<ShortId>>) returns (ids: Option<seq<ShortId>>)
    ensures ids.Some? <==> AllDecode(owners)
    ensures ids.Some? ==> IsSorted(ids.value, Decoded(owners), SHORT_ID_KEY)
  {
    var r: seq<ShortId> := [];
    for i := 0 to |owners|
      invariant |r| == i && forall k :: 0 <= k < i ==> owners[k] == Some(r[k])
    {
      if owners[i].None? {
        return None;
      }
      r := r + [owners[i].value];
    }
    assert r == Decoded(owners);
    r := SortBy(r, SHORT_ID_KEY);
    return Some(r);
  }

  /** What a staking builder decodes before it looks at the operations; a delegation's subnet comes last. */
  method ReadStakingMetadata(staking: StakingMetadata, kind: StakeKind) returns (readable: bool)
    ensures readable <==> staking.(subnet := if kind == AddPermissionlessDelegator then Some(0) else staking.subnet).ReadableFor(kind)
  {
    if staking.nodeId.None? {
      return false;
    }
    if kind == AddPermissionlessValidator && (staking.subnet.None? || !staking.proven) {
      return false;
    }
    var owners := BuildOutputOwner(staking.owners);
    if owners.None? {
      return false;
    }
    if kind == AddPermissionlessValidator {
      var delegationOwners := BuildOutputOwner(staking.delegationOwners);
      return delegationOwners.Some?;
    }
    return true;
  }

  /** BuildTx on a match of inputs and a match of outputs. */
  method BuildTx(kind: TxType, inputs: seq<POperation>, outputs: seq<POperation>, settings: Settings)
    returns (r: Result<(UnsignedTx, seq<Option<Account>>), BuildError>)
    requires forall op <- inputs :: IsInputOp(op)
    requires forall op <- outputs :: op.account.Some?
    ensures r.Ok? ==> IsBuilt(r.value.0, kind, inputs, outputs, settings) && r.value.1 == Accounts(inputs)
    ensures r.Err? <==>
      || !IsBuildable(kind)
      || (kind == ExportAvax && settings.destination.None?)
      || (kind.Staking? && (settings.staking.None? || !settings.staking.value.ReadableFor(kind.stake)))
      || FirstError(inputs, InputError).Some?
      || FirstError(outputs, OutputError).Some?
      || (kind.Staking? && StakeAsked(outputs) >= TWO_64)
  {
    if !IsBuildable(kind) {
      return Err(InvalidOpType);
    }
    if (kind == ExportAvax && settings.destination.None?) || (kind.Staking? && settings.staking.None?) {
      return Err(InvalidMetadata);
    }
    if kind.Staking? {
      var readable := ReadStakingMetadata(settings.staking.value, kind.stake);
      if !readable {
        return Err(UnreadableMetadata);
      }
    }
    var ins, imported, signers, inputError := BuildInputs(inputs, settings);
    if inputError.Some? {
      return Err(inputError.value);
    }
    var outs, stakes, exported, outputError := BuildOutputs(outputs, settings);
    if outputError.Some? {
      return Err(outputError.value);
    }
    match kind {
      case ImportAvax => return Ok((UnsignedTx.ImportTx(ins, outs, imported), signers));
      case ExportAvax => return Ok((UnsignedTx.ExportTx(ins, outs, settings.destination.value, exported), signers));
      case Staking(stakeKind) =>
        TotalOfPermutation(stakes, Map(OfType(outputs, StakeType), OutputOf(settings.avaxAsset)));
        NoErrorMeans(outputs, OutputError);
        StakeIsAsked(outputs, settings.avaxAsset);
        var weight := SumOutputAmounts(stakes);
        if weight.None? {
          return Err(AmountOverflow);
        }
        if stakeKind == AddPermissionlessDelegator && settings.staking.value.subnet.None? {
          return Err(UnreadableMetadata);
        }
        return Ok((StakeTx(stakeKind, ins, outs, stakes, weight.value), signers));
    }
  }

  lemma {:induction false} TotalOfPermutation(a: seq<Output>, b: seq<Output>)
    requires multiset(a) == multiset(b)
    ensures TotalOutput(a) == TotalOutput(b)
    decreases |a|
  {
    if a == [] {
      assert |multiset(a)| == |multiset(b)|;
    } else {
      var n := |a| - 1;
      assert a[n] in multiset(b);
      var k :| 0 <= k < |b| && b[k] == a[n];
      WithoutOne(a, n);
      WithoutOne(b, k);
      assert a[..n] + a[n + 1..] == a[..n];
      TotalOfPermutation(a[..n], b[..k] + b[k + 1..]);
      TotalWithoutOne(b, k);
    }
  }

  lemma WithoutEarlier(s: seq<Output>, k: nat)
    requires k < |s| - 1
    ensures var n, rest := |s| - 1, s[..k] + s[k + 1..];
      rest[..|rest| - 1] == s[..n][..k] + s[..n][k + 1..] && rest[|rest| - 1] == s[n]
  {
  }

  lemma {:induction false} TotalWithoutOne(s: seq<Output>, k: nat)
    requires k < |s|
    ensures TotalOutput(s) == TotalOutput(s[..k] + s[k + 1..]) + OutputAmount(s[k])
    decreases |s|
  {
    var n := |s| - 1;
    if k == n {
      assert s[..k] + s[k + 1..] == s[..n];
    } else {
      TotalWithoutOne(s[..n], k);
      WithoutEarlier(s, k);
    }
  }

  // ----- what was asked for, told by the operations' own fields -----

  /** The output pays what the operation asks: its amount of the native asset to its one address, at its locktime, with one
      signature unless it says otherwise. */
  predicate Pays(out: Output, op: POperation, asset: Id) {
    && op.account.Some? && op.account.value.Bech32? && op.amount.Some?
    && out == Output(asset, Transfer(TransferOutput(
         LowUint64(op.amount.value.value), op.metadata.locktime,
         if op.metadata.threshold == 0 then 1 else op.metadata.threshold, [op.account.value.id])))
  }

  /** The input spends what the operation names, signed by the first owner unless it says otherwise. */
  predicate Spends(input: Input, op: POperation, asset: Id) {
    && op.coinChange.Some? && op.amount.Some?
    && input == Input(op.coinChange.value.coin, asset, TransferIn(
         LowUint64(op.amount.value.value),
         match op.metadata.sigIndices case None => [0] case Some(sigIndices) => sigIndices))
  }

  function PayingOps(out: Output, metaType: MetaType, asset: Id): POperation -> bool {
    (op: POperation) => op.metadata.metaType == metaType && Pays(out, op, asset)
  }

  function SpendingOps(input: Input, metaType: MetaType, asset: Id): POperation -> bool {
    (op: POperation) => op.metadata.metaType == metaType && Spends(input, op, asset)
  }

  /** Each output is there as often as there are operations of the type that ask for it. */
  ghost predicate PaysAsked(outs: seq<Output>, ops: seq<POperation>, metaType: MetaType, asset: Id) {
    forall out :: multiset(outs)[out] == CountWhere(ops, PayingOps(out, metaType, asset))
  }

  ghost predicate SpendsAsked(ins: seq<Input>, ops: seq<POperation>, metaType: MetaType, asset: Id) {
    forall input :: multiset(ins)[input] == CountWhere(ops, SpendingOps(input, metaType, asset))
  }

  /** The amounts of the stake operations. */
  function StakeAsked(ops: seq<POperation>): nat {
    if ops == [] then 0
    else
      var op := ops[|ops| - 1];
      StakeAsked(ops[..|ops| - 1]) + if op.metadata.metaType == StakeType && op.amount.Some? then LowUint64(op.amount.value.value) else 0
  }

  lemma OneMoreOfType(ops: seq<POperation>, op: POperation, metaType: MetaType)
    ensures OfType(ops + [op], metaType) == OfType(ops, metaType) + if op.metadata.metaType == metaType then [op] else []
  {
    assert (ops + [op])[..|ops|] == ops;
  }

  lemma NothingToCount(metaType: MetaType, p: POperation -> bool)
    ensures OfType([], metaType) == [] && CountWhere([], p) == 0
  {
  }

  /** Counting among the operations of one type. */
  lemma {:induction false} CountOfTypeWhere(ops: seq<POperation>, metaType: MetaType, p: POperation -> bool, q: POperation -> bool)
    requires forall op <- ops :: q(op) <==> op.metadata.metaType == metaType && p(op)
    ensures CountWhere(OfType(ops, metaType), p) == CountWhere(ops, q)
  {
    hide OfType, CountWhere;
    if ops == [] {
      NothingToCount(metaType, p);
      NothingToCount(metaType, q);
    } else {
      var rest, last := ops[..|ops| - 1], ops[|ops| - 1];
      WithLast(ops);
      CountOfTypeWhere(rest, metaType, p, q);
      OneMoreOfType(rest, last, metaType);
      CountWithLast(OfType(rest, metaType), last, p);
      CountWithLast(rest, last, q);
      assert OfType(rest, metaType) + [] == OfType(rest, metaType);
    }
  }

  lemma OutputsAsked(outs: seq<Output>, ops: seq<POperation>, metaType: MetaType, settings: Settings)
    requires AreOutputs(outs, ops, metaType, settings)
    requires forall op <- ops :: OutputError(op).None?
    ensures PaysAsked(outs, ops, metaType, settings.avaxAsset)
  {
    hide OfType, Map, CountWhere;
    var mine, build, asset := OfType(ops, metaType), OutputOf(settings.avaxAsset), settings.avaxAsset;
    forall out ensures multiset(outs)[out] == CountWhere(ops, PayingOps(out, metaType, asset)) {
      forall op | op in mine ensures PayingOps(out, metaType, asset)(op) <==> build(op) == out {
        assert op in ops;
        assert OutputError(op).None?;
      }
      ImageCount(mine, build, out, PayingOps(out, metaType, asset));
      CountOfTypeWhere(ops, metaType, PayingOps(out, metaType, asset), PayingOps(out, metaType, asset));
    }
  }

  lemma InputsAsked(ins: seq<Input>, ops: seq<POperation>, metaType: MetaType, asset: Id)
    requires AreInputs(ins, ops, metaType, asset)
    requires forall op <- ops :: IsInputOp(op) && InputError(op).None?
    ensures SpendsAsked(ins, ops, metaType, asset)
  {
    hide OfType, Map, CountWhere;
    var mine, build := OfType(ops, metaType), InputOf(asset);
    forall input ensures multiset(ins)[input] == CountWhere(ops, SpendingOps(input, metaType, asset)) {
      forall op | op in mine ensures SpendingOps(input, metaType, asset)(op) <==> build(op) == input {
        assert op in ops;
        assert InputError(op).None?;
      }
      ImageCount(mine, build, input, SpendingOps(input, metaType, asset));
      CountOfTypeWhere(ops, metaType, SpendingOps(input, metaType, asset), SpendingOps(input, metaType, asset));
    }
  }

  /** The stake outputs add up to the amounts of the stake operations. */
  lemma {:induction false} StakeIsAsked(ops: seq<POperation>, asset: Id)
    requires forall op <- ops :: OutputError(op).None?
    ensures TotalOutput(Map(OfType(ops, StakeType), OutputOf(asset))) == StakeAsked(ops)
  {
    if ops == [] {
      NothingYet(OutputError, StakeType, OutputOf(asset));
    } else {
      hide OfType, Map, TotalOutput;
      var n := |ops| - 1;
      assert ops[n] in ops;
      StakeIsAsked(ops[..n], asset);
      ImageTurn(ops, n, StakeType, OutputOf(asset));
      assert ops[..n + 1] == ops;
      TotalOfOneMore(Map(OfType(ops[..n], StakeType), OutputOf(asset)), OutputOf(asset)(ops[n]));
      BuiltAmount(ops[n], asset);
      assert Map(OfType(ops[..n], StakeType), OutputOf(asset)) + [] == Map(OfType(ops[..n], StakeType), OutputOf(asset));
    }
  }

  lemma BuiltAmount(op: POperation, asset: Id)
    requires OutputError(op).None?
    ensures OutputAmount(OutputOf(asset)(op)) == LowUint64(op.amount.value.value)
  {
  }

  lemma TotalOfOneMore(outs: seq<Output>, out: Output)
    ensures TotalOutput(outs + [out]) == TotalOutput(outs) + OutputAmount(out)
  {
    assert (outs + [out])[..|outs|] == outs;
  }

  /** The parts of the transaction are what the operations of each type ask for, its weight what they stake. */
  ghost predicate IsAsked(tx: UnsignedTx, kind: TxType, inputs: seq<POperation>, outputs: seq<POperation>, settings: Settings) {
    match tx
    case ImportTx(ins, outs, imported) =>
      && SpendsAsked(ins, inputs, InputType, settings.avaxAsset) && SpendsAsked(imported, inputs, ImportType, settings.avaxAsset)
      && PaysAsked(outs, outputs, OutputType, settings.avaxAsset)
    case ExportTx(ins, outs, destination, exported) =>
      && SpendsAsked(ins, inputs, InputType, settings.avaxAsset) && settings.destination == Some(destination)
      && PaysAsked(outs, outputs, OutputType, settings.avaxAsset) && PaysAsked(exported, outputs, ExportType, settings.avaxAsset)
    case StakeTx(stakeKind, ins, outs, stake, weight) =>
      && kind == Staking(stakeKind) && SpendsAsked(ins, inputs, InputType, settings.avaxAsset)
      && PaysAsked(outs, outputs, OutputType, settings.avaxAsset) && PaysAsked(stake, outputs, StakeType, settings.avaxAsset)
      && weight == StakeAsked(outputs)
    case _ => false
  }

  /** Main result: a built transaction spends and pays exactly what the operations of each type ask for, and is of the
      weight of what they stake. */
  lemma BuiltIsAsked(tx: UnsignedTx, kind: TxType, inputs: seq<POperation>, outputs: seq<POperation>, settings: Settings)
    requires IsBuilt(tx, kind, inputs, outputs, settings)
    requires forall op <- inputs :: IsInputOp(op) && InputError(op).None?
    requires forall op <- outputs :: OutputError(op).None?
    ensures IsAsked(tx, kind, inputs, outputs, settings)
  {
    hide AreInputs, AreOutputs, SpendsAsked, PaysAsked, InputError, OutputError, TotalOutput, StakeAsked;
    var asset := settings.avaxAsset;
    match tx {
      case ImportTx(ins, outs, imported) =>
        InputsAsked(ins, inputs, InputType, asset);
        InputsAsked(imported, inputs, ImportType, asset);
        OutputsAsked(outs, outputs, OutputType, settings);
      case ExportTx(ins, outs, _, exported) =>
        InputsAsked(ins, inputs, InputType, asset);
        OutputsAsked(outs, outputs, OutputType, settings);
        OutputsAsked(exported, outputs, ExportType, settings);
      case StakeTx(_, ins, outs, stake, _) =>
        InputsAsked(ins, inputs, InputType, asset);
        OutputsAsked(outs, outputs, OutputType, settings);
        OutputsAsked(stake, outputs, StakeType, settings);
        StakeIsAsked(outputs, asset);
        SameTotal(stake, outputs, settings);
    }
  }

  lemma SameTotal(stake: seq<Output>, ops: seq<POperation>, settings: Settings)
    requires AreOutputs(stake, ops, StakeType, settings)
    ensures TotalOutput(stake) == TotalOutput(Map(OfType(ops, StakeType), OutputOf(settings.avaxAsset)))
  {
    TotalOfPermutation(stake, Map(OfType(ops, StakeType), OutputOf(settings.avaxAsset)));
  }
}
