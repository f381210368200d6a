/** server/mapper/transaction.go: crossChainTransaction and createExportedOuts. */
module CrossChain {
  import opened Rosetta
  import opened Evm
  import opened Atomic

  /** From atomic units to wei. */
  const X2C_RATE: int := 1_000_000_000

  /** What the mapper is configured with; hrp is None on an unrecognised network. */
  datatype Config = Config(hrp: Option<string>, aliases: map<Id, string>, flr: Id)

  datatype Outcome =
    | Built(ops: seq<EvmOperation>, exported: Option<seq<EvmOperation>>, fee: int)
    | UnsupportedTransaction
    | UnrecognisedNetwork

  // ----- sums the fee is made of -----

  function InputSum(ins: seq<ImportedInput>): int {
    if ins == [] then 0 else InputSum(ins[..|ins| - 1]) + ins[|ins| - 1].amount
  }

  /** The running total of an import adds each amount after a conversion to int64. */
  function SignedInputSum(ins: seq<ImportedInput>): int {
    if ins == [] then 0 else SignedInputSum(ins[..|ins| - 1]) + Int64(ins[|ins| - 1].amount)
  }

  function LargeInputs(ins: seq<ImportedInput>): nat {
    if ins == [] then 0 else LargeInputs(ins[..|ins| - 1]) + if ins[|ins| - 1].amount >= TWO_63 then 1 else 0
  }

  function InputSumOf(ins: seq<ImportedInput>, asset: Id): int {
    if ins == [] then 0 else InputSumOf(ins[..|ins| - 1], asset) + if ins[|ins| - 1].assetId == asset then ins[|ins| - 1].amount else 0
  }

  function EvmOutputSum(outs: seq<EvmOutput>, asset: Id): int {
    if outs == [] then 0 else EvmOutputSum(outs[..|outs| - 1], asset) + if outs[|outs| - 1].assetId == asset then outs[|outs| - 1].amount else 0
  }

  function EvmInputSum(ins: seq<EvmInput>, asset: Id): int {
    if ins == [] then 0 else EvmInputSum(ins[..|ins| - 1], asset) + if ins[|ins| - 1].assetId == asset then ins[|ins| - 1].amount else 0
  }

  function InputsOf(ins: seq<EvmInput>, asset: Id): nat {
    if ins == [] then 0 else InputsOf(ins[..|ins| - 1], asset) + if ins[|ins| - 1].assetId == asset then 1 else 0
  }

  function ExportedSum(outs: seq<ExportedOutput>): int {
    if outs == [] then 0 else ExportedSum(outs[..|outs| - 1]) + outs[|outs| - 1].amount
  }

  function ExportedSumOf(outs: seq<ExportedOutput>, asset: Id): int {
    if outs == [] then 0 else ExportedSumOf(outs[..|outs| - 1], asset) + if outs[|outs| - 1].assetId == asset then outs[|outs| - 1].amount else 0
  }

  // ----- the operations, as functions of the transaction -----

  function ImportOp(out: EvmOutput, index: int): EvmOperation {
    Operation(Some(index), [], Import, Success, Some(Evm(out.address)), Some(Amount(out.amount * X2C_RATE, Flare)), None,
              EvmMetadata.Atomic(out.assetId))
  }

  function ExportOp(input: EvmInput, index: int): EvmOperation {
    Operation(Some(index), [], Export, Success, Some(Evm(input.address)), Some(Amount(input.amount * -X2C_RATE, Flare)), None,
              EvmMetadata.Atomic(input.assetId))
  }

  /** The operation of an exported output before it gets its index. */
  function ExportedOp(alias: string, hrp: string, txId: Id, outs: seq<ExportedOutput>, i: nat): EvmOperation
    requires i < |outs|
  {
    var account := if outs[i].addresses == [] then Blank else Bech32(alias, hrp, outs[i].addresses[0]);
    Operation(None, [], Export, Success, Some(account), Some(Amount(outs[i].amount, AtomicAvax)),
              Some(CoinChange(UtxoId(txId, Uint32(i)), CoinCreated)), NoMetadata)
  }

  function ImportOps(outs: seq<EvmOutput>, flr: Id, start: int): seq<EvmOperation> {
    if outs == [] then []
    else
      var before := ImportOps(outs[..|outs| - 1], flr, start);
      var out := outs[|outs| - 1];
      if out.assetId != flr then before else before + [ImportOp(out, start + |before|)]
  }

  function ExportOps(ins: seq<EvmInput>, flr: Id, start: int): seq<EvmOperation> {
    if ins == [] then []
    else
      var before := ExportOps(ins[..|ins| - 1], flr, start);
      var input := ins[|ins| - 1];
      if input.assetId != flr then before else before + [ExportOp(input, start + |before|)]
  }

  function ExportedOuts(alias: string, hrp: string, txId: Id, outs: seq<ExportedOutput>): seq<EvmOperation> {
    seq(|outs|, i requires 0 <= i < |outs| => ExportedOp(alias, hrp, txId, outs, i))
  }

  function Repeat(ops: seq<EvmOperation>, times: nat): seq<EvmOperation> {
    if times == 0 then [] else Repeat(ops, times - 1) + ops
  }

  function NumberFrom(ops: seq<EvmOperation>, start: int): seq<EvmOperation> {
    seq(|ops|, i requires 0 <= i < |ops| => ops[i].(index := Some(start + i)))
  }

  /** Exported outputs are reported when the destination is known and the list is not nil. */
  predicate Reports(config: Config, tx: AtomicTx)
    requires tx.ExportTx?
  {
    tx.exportedOutputs.Some? && tx.destinationChain in config.aliases
  }

  /** The outcome for a prefix of the export's inputs, before the exported outputs get their indices. */
  ghost function ExportOutcome(config: Config, txId: Id, tx: AtomicTx, ins: seq<EvmInput>, start: int): Outcome
    requires tx.ExportTx?
  {
    var k := InputsOf(ins, config.flr);
    var ops := ExportOps(ins, config.flr, start);
    var total := EvmInputSum(ins, config.flr);
    if k == 0 || !Reports(config, tx) then Built(ops, None, total)
    else if config.hrp.None? then UnrecognisedNetwork
    else
      var outs := tx.exportedOutputs.value;
      Built(ops, Some(Repeat(ExportedOuts(config.aliases[tx.destinationChain], config.hrp.value, txId, outs), k)),
            total - k * ExportedSum(outs))
  }

  ghost function CrossChainOutcome(config: Config, txId: Id, tx: AtomicTx, start: int): Outcome {
    match tx
    case ImportTx(_, ins, outs) => Built(ImportOps(outs, config.flr, start), None, SignedInputSum(ins) - EvmOutputSum(outs, config.flr))
    case ExportTx(_, ins, _) =>
      (match ExportOutcome(config, txId, tx, ins, start)
       case Built(ops, Some(exported), fee) => Built(ops, Some(NumberFrom(exported, start + |ops|)), fee)
       case outcome => outcome)
    case OtherTx => UnsupportedTransaction
  }

  // ----- the loops -----

  /** createExportedOuts, once the network is recognised. */
  method CreateExportedOuts(alias: string, hrp: string, txId: Id, outs: seq<ExportedOutput>)
    returns (operations: seq<EvmOperation>, total: int)
    ensures operations == ExportedOuts(alias, hrp, txId, outs)
    ensures total == ExportedSum(outs)
  {
    operations, total := [], 0;
    for i := 0 to |outs|
      invariant operations == ExportedOuts(alias, hrp, txId, outs)[..i]
      invariant total == ExportedSum(outs[..i])
    {
      var out := outs[i];
      var account := Blank;
      if |out.addresses| > 0 {
        account := Bech32(alias, hrp, out.addresses[0]);
      }
      assert outs[..i + 1][..i] == outs[..i];
      total := total + out.amount;
      operations := operations + [
        Operation(None, [], Export, Success, Some(account), Some(Amount(out.amount, AtomicAvax)),
                  Some(CoinChange(UtxoId(txId, Uint32(i)), CoinCreated)), NoMetadata)];
    }
    assert outs[..|outs|] == outs;
  }

  method ImportTransaction(config: Config, tx: AtomicTx, start: int) returns (ops: seq<EvmOperation>, fee: int)
    requires tx.ImportTx?
    ensures ops == ImportOps(tx.outs, config.flr, start)
    ensures fee == SignedInputSum(tx.importedInputs) - EvmOutputSum(tx.outs, config.flr)
  {
    var totalInput, totalOutput, idx := 0, 0, start;
    ops := [];
    for i := 0 to |tx.importedInputs|
      invariant totalInput == SignedInputSum(tx.importedInputs[..i])
    {
      assert tx.importedInputs[..i + 1][..i] == tx.importedInputs[..i];
      totalInput := totalInput + Int64(tx.importedInputs[i].amount);
    }
    for i := 0 to |tx.outs|
      invariant ops == ImportOps(tx.outs[..i], config.flr, start) && idx == start + |ops|
      invariant totalOutput == EvmOutputSum(tx.outs[..i], config.flr)
    {
      assert tx.outs[..i + 1][..i] == tx.outs[..i];
      var out := tx.outs[i];
      if out.assetId != config.flr {
        continue;
      }
      totalOutput := totalOutput + out.amount;
      ops := ops + [Operation(Some(idx), [], Import, Success, Some(Evm(out.address)),
                              Some(Amount(out.amount * X2C_RATE, Flare)), None, EvmMetadata.Atomic(out.assetId))];
      idx := idx + 1;
    }
    assert tx.importedInputs[..|tx.importedInputs|] == tx.importedInputs && tx.outs[..|tx.outs|] == tx.outs;
    fee := totalInput - totalOutput;
  }

  method ExportTransaction(config: Config, txId: Id, tx: AtomicTx, start: int) returns (outcome: Outcome)
    requires tx.ExportTx?
    ensures outcome == CrossChainOutcome(config, txId, tx, start)
  {
    var ops: seq<EvmOperation>, exported: seq<EvmOperation>, reported := [], [], false;
    var totalInput, totalOutput, idx := 0, 0, start;
    assert ExportOutcome(config, txId, tx, [], start) == Built([], None, 0);
    assert tx.ins[..0] == [];
    hide ExportOutcome;
    for i := 0 to |tx.ins|
      invariant idx == start + |ops|
      invariant reported || exported == []
      invariant ExportOutcome(config, txId, tx, tx.ins[..i], start) ==
                Built(ops, if reported then Some(exported) else None, totalInput - totalOutput)
    {
      var input := tx.ins[i];
      ExportStep(config, txId, tx, i, start);
      if input.assetId != config.flr {
        continue;
      }
      totalInput := totalInput + input.amount;
      ops := ops + [Operation(Some(idx), [], Export, Success, Some(Evm(input.address)),
                              Some(Amount(input.amount * -X2C_RATE, Flare)), None, EvmMetadata.Atomic(input.assetId))];
      idx := idx + 1;
      if tx.exportedOutputs.Some? && tx.destinationChain in config.aliases {
        if config.hrp.None? {
          FailureStays(config, txId, tx, i + 1, start);
          return UnrecognisedNetwork;
        }
        var operations, total :=
          CreateExportedOuts(config.aliases[tx.destinationChain], config.hrp.value, txId, tx.exportedOutputs.value);
        exported := exported + operations;
        reported := true;
        totalOutput := totalOutput + total;
      }
    }
    assert tx.ins[..|tx.ins|] == tx.ins;
    ghost var unnumbered := exported;
    for i := 0 to |exported|
      invariant |exported| == |unnumbered|
      invariant forall j :: 0 <= j < i ==> exported[j] == NumberFrom(unnumbered, idx)[j]
      invariant forall j :: i <= j < |exported| ==> exported[j] == unnumbered[j]
    {
      exported := exported[i := exported[i].(index := Some(idx + i))];
    }
    assert exported == NumberFrom(unnumbered, idx);
    outcome := Built(ops, if reported then Some(exported) else None, totalInput - totalOutput);
  }

  method CrossChainTransaction(config: Config, txId: Id, tx: AtomicTx, start: int) returns (outcome: Outcome)
    ensures outcome == CrossChainOutcome(config, txId, tx, start)
  {
    match tx {
      case ImportTx(_, _, _) =>
        var ops, fee := ImportTransaction(config, tx, start);
        outcome := Built(ops, None, fee);
      case ExportTx(_, _, _) =>
        outcome := ExportTransaction(config, txId, tx, start);
      case OtherTx =>
        outcome := UnsupportedTransaction;
    }
  }

  /** What one more input does to the outcome of an export. */
  lemma ExportStep(config: Config, txId: Id, tx: AtomicTx, i: nat, start: int)
    requires tx.ExportTx? && i < |tx.ins|
    ensures
      var before := ExportOutcome(config, txId, tx, tx.ins[..i], start);
      var after := ExportOutcome(config, txId, tx, tx.ins[..i + 1], start);
      before.Built? ==>
        if tx.ins[i].assetId != config.flr then after == before
        else if !Reports(config, tx) then
          after == Built(before.ops + [ExportOp(tx.ins[i], start + |before.ops|)], before.exported, before.fee + tx.ins[i].amount)
        else if config.hrp.None? then after == UnrecognisedNetwork
        else
          var outs := tx.exportedOutputs.value;
          var more := ExportedOuts(config.aliases[tx.destinationChain], config.hrp.value, txId, outs);
          after == Built(before.ops + [ExportOp(tx.ins[i], start + |before.ops|)],
                         Some((if before.exported.Some? then before.exported.value else []) + more),
                         before.fee + tx.ins[i].amount - ExportedSum(outs))
  {
    hide ExportedOuts, ExportedSum, ExportOp;
    assert tx.ins[..i + 1][..i] == tx.ins[..i];
    var k := InputsOf(tx.ins[..i], config.flr);
    if Reports(config, tx) && config.hrp.Some? {
      var outs := tx.exportedOutputs.value;
      var more := ExportedOuts(config.aliases[tx.destinationChain], config.hrp.value, txId, outs);
      assert Repeat(more, k + 1) == Repeat(more, k) + more;
      assert [] + more == more;
    }
  }

  /** Once the network turns out unrecognised, the rest of the inputs does not matter. */
  lemma {:induction false} FailureStays(config: Config, txId: Id, tx: AtomicTx, i: nat, start: int)
    requires tx.ExportTx? && i <= |tx.ins|
    requires ExportOutcome(config, txId, tx, tx.ins[..i], start) == UnrecognisedNetwork
    ensures ExportOutcome(config, txId, tx, tx.ins, start) == UnrecognisedNetwork
    decreases |tx.ins| - i
  {
    if i == |tx.ins| {
      assert tx.ins[..i] == tx.ins;
    } else {
      assert tx.ins[..i + 1][..i] == tx.ins[..i];
      FailureStays(config, txId, tx, i + 1, start);
    }
  }

  // ----- numbering -----

  lemma {:induction false} ImportOpsNumbered(outs: seq<EvmOutput>, flr: Id, start: int)
    ensures Numbered(ImportOps(outs, flr, start), start)
  {
    if outs != [] {
      ImportOpsNumbered(outs[..|outs| - 1], flr, start);
    }
  }

  function OutputsOf(outs: seq<EvmOutput>, asset: Id): nat {
    if outs == [] then 0 else OutputsOf(outs[..|outs| - 1], asset) + if outs[|outs| - 1].assetId == asset then 1 else 0
  }

  /** A native amount moved between the C-chain and another one: 10^9 wei for each unit. */
  predicate Moves(op: EvmOperation, index: int, kind: EvmOpType, a: Address, wei: int, asset: Id) {
    && op.index == Some(index) && op.related == [] && op.kind == kind && op.status == Success
    && op.account == Some(Evm(a)) && op.amount == Some(Amount(wei, Flare)) && op.coinChange == None
    && op.metadata == EvmMetadata.Atomic(asset)
  }

  /** The k-th native output gives the k-th operation. */
  lemma {:induction false} ImportOpsTold(outs: seq<EvmOutput>, flr: Id, start: int, i: nat)
    requires i < |outs| && outs[i].assetId == flr
    ensures var ops, k := ImportOps(outs, flr, start), OutputsOf(outs[..i], flr);
      && |ops| == OutputsOf(outs, flr) && k < |ops|
      && Moves(ops[k], start + k, Import, outs[i].address, outs[i].amount * 1_000_000_000, flr)
  {
    var n := |outs| - 1;
    ImportOpsCount(outs[..n], flr, start);
    if i < n {
      ImportOpsTold(outs[..n], flr, start, i);
      assert outs[..n][..i] == outs[..i];
    }
  }

  lemma {:induction false} ImportOpsCount(outs: seq<EvmOutput>, flr: Id, start: int)
    ensures |ImportOps(outs, flr, start)| == OutputsOf(outs, flr)
  {
    if outs != [] {
      ImportOpsCount(outs[..|outs| - 1], flr, start);
    }
  }

  /** The k-th native input gives the k-th operation. */
  lemma {:induction false} ExportOpsTold(ins: seq<EvmInput>, flr: Id, start: int, i: nat)
    requires i < |ins| && ins[i].assetId == flr
    ensures var ops, k := ExportOps(ins, flr, start), InputsOf(ins[..i], flr);
      && |ops| == InputsOf(ins, flr) && k < |ops|
      && Moves(ops[k], start + k, Export, ins[i].address, -1_000_000_000 * ins[i].amount, flr)
  {
    var n := |ins| - 1;
    ExportOpsNumbered(ins[..n], flr, start);
    if i < n {
      ExportOpsTold(ins[..n], flr, start, i);
      assert ins[..n][..i] == ins[..i];
    }
  }

  /** Main result: an import credits the address of each native output, and an export debits that of each native input,
      in order, with 10^9 wei for each unit. */
  lemma NativePartsTold(config: Config, txId: Id, tx: AtomicTx, start: int, i: nat)
    requires CrossChainOutcome(config, txId, tx, start).Built?
    ensures var ops := CrossChainOutcome(config, txId, tx, start).ops;
      match tx
      case ImportTx(_, _, outs) =>
        && |ops| == OutputsOf(outs, config.flr)
        && (i < |outs| && outs[i].assetId == config.flr ==>
              var k := OutputsOf(outs[..i], config.flr);
              k < |ops| && Moves(ops[k], start + k, Import, outs[i].address, outs[i].amount * 1_000_000_000, config.flr))
      case ExportTx(_, ins, _) =>
        && |ops| == InputsOf(ins, config.flr)
        && (i < |ins| && ins[i].assetId == config.flr ==>
              var k := InputsOf(ins[..i], config.flr);
              k < |ops| && Moves(ops[k], start + k, Export, ins[i].address, -1_000_000_000 * ins[i].amount, config.flr))
  {
    hide Moves, ImportOps, ExportOps;
    match tx {
      case ImportTx(_, _, outs) =>
        ImportOpsCount(outs, config.flr, start);
        if i < |outs| && outs[i].assetId == config.flr {
          ImportOpsTold(outs, config.flr, start, i);
        }
      case ExportTx(_, ins, _) =>
        ExportOpsNumbered(ins, config.flr, start);
        if i < |ins| && ins[i].assetId == config.flr {
          ExportOpsTold(ins, config.flr, start, i);
        }
    }
  }

  lemma {:induction false} ExportOpsNumbered(ins: seq<EvmInput>, flr: Id, start: int)
    ensures Numbered(ExportOps(ins, flr, start), start)
    ensures |ExportOps(ins, flr, start)| == InputsOf(ins, flr)
  {
    if ins != [] {
      ExportOpsNumbered(ins[..|ins| - 1], flr, start);
    }
  }

  /** Main result: the operations followed by the exported outputs carry consecutive indices. */
  lemma ConsecutiveIndices(config: Config, txId: Id, tx: AtomicTx, start: int)
    requires CrossChainOutcome(config, txId, tx, start).Built?
    ensures
      var outcome := CrossChainOutcome(config, txId, tx, start);
      Numbered(outcome.ops + (if outcome.exported.Some? then outcome.exported.value else []), start)
  {
    match tx {
      case ImportTx(_, _, outs) => ImportOpsNumbered(outs, config.flr, start);
      case ExportTx(_, ins, _) => ExportOpsNumbered(ins, config.flr, start);
    }
  }

  // ----- imports: value and fee -----

  lemma {:induction false} SignedInputSumIs(ins: seq<ImportedInput>)
    ensures SignedInputSum(ins) == InputSum(ins) - TWO_64 * LargeInputs(ins)
    ensures LargeInputs(ins) == 0 <==> forall i :: 0 <= i < |ins| ==> ins[i].amount < TWO_63
  {
    if ins != [] {
      var n := |ins| - 1;
      SignedInputSumIs(ins[..n]);
      assert forall i :: 0 <= i < n ==> ins[..n][i] == ins[i];
    }
  }

  lemma {:induction false} ImportOpsNet(outs: seq<EvmOutput>, flr: Id, start: int)
    ensures NetIn(ImportOps(outs, flr, start), Flare) == X2C_RATE * EvmOutputSum(outs, flr)
  {
    if outs != [] {
      var n := |outs| - 1;
      ImportOpsNet(outs[..n], flr, start);
      var before := ImportOps(outs[..n], flr, start);
      assert (before + [ImportOp(outs[n], start + |before|)])[..|before|] == before;
    }
  }

  /** Main result: what an import credits is what its inputs hold above the reported fee, and with every input
      below 2^63 this counts the inputs as they are; one larger input makes it miss by 2^64. */
  lemma ImportConserves(config: Config, txId: Id, tx: AtomicTx, start: int)
    requires tx.ImportTx?
    ensures
      var outcome := CrossChainOutcome(config, txId, tx, start);
      && outcome.Built? && outcome.exported == None
      && NetIn(outcome.ops, Flare) ==
         X2C_RATE * (InputSum(tx.importedInputs) - TWO_64 * LargeInputs(tx.importedInputs) - outcome.fee)
      && (NetIn(outcome.ops, Flare) == X2C_RATE * (InputSum(tx.importedInputs) - outcome.fee) <==>
          forall i :: 0 <= i < |tx.importedInputs| ==> tx.importedInputs[i].amount < TWO_63)
  {
    SignedInputSumIs(tx.importedInputs);
    ImportOpsNet(tx.outs, config.flr, start);
  }

  lemma {:induction false} InputSumSplits(ins: seq<ImportedInput>, asset: Id)
    ensures InputSumOf(ins, asset) <= InputSum(ins)
    ensures InputSumOf(ins, asset) == InputSum(ins) <==> forall i :: 0 <= i < |ins| && ins[i].assetId != asset ==> ins[i].amount == 0
  {
    if ins != [] {
      var n := |ins| - 1;
      InputSumSplits(ins[..n], asset);
      assert forall i :: 0 <= i < n ==> ins[..n][i] == ins[i];
    }
  }

  /** Main result: the reported fee of an import counts every input but only the native outputs. It is the native value
      burned exactly when what other assets bring in is what the int64 conversions lose; with inputs below 2^63, exactly
      when no other asset of value comes in. */
  lemma ImportFeeIsBurnIff(config: Config, txId: Id, tx: AtomicTx, start: int)
    requires tx.ImportTx?
    ensures
      var ins := tx.importedInputs;
      var isBurn := CrossChainOutcome(config, txId, tx, start).fee == InputSumOf(ins, config.flr) - EvmOutputSum(tx.outs, config.flr);
      && (isBurn <==> InputSum(ins) - InputSumOf(ins, config.flr) == TWO_64 * LargeInputs(ins))
      && ((forall i :: 0 <= i < |ins| ==> ins[i].amount < TWO_63) ==>
            (isBurn <==> forall i :: 0 <= i < |ins| && ins[i].assetId != config.flr ==> ins[i].amount == 0))
  {
    SignedInputSumIs(tx.importedInputs);
    InputSumSplits(tx.importedInputs, config.flr);
  }

  /** The value of one input, and of two. */
  lemma InputSums(x: ImportedInput, y: ImportedInput, asset: Id)
    ensures SignedInputSum([x]) == Int64(x.amount) && SignedInputSum([x, y]) == Int64(x.amount) + Int64(y.amount)
    ensures InputSumOf([x], asset) == if x.assetId == asset then x.amount else 0
    ensures InputSumOf([x, y], asset) == InputSumOf([x], asset) + if y.assetId == asset then y.amount else 0
  {
    assert [x, y][..1] == [x];
  }

  lemma EvmOutputSums(x: EvmOutput, y: EvmOutput, asset: Id)
    ensures EvmOutputSum([x], asset) == if x.assetId == asset then x.amount else 0
    ensures EvmOutputSum([x, y], asset) == EvmOutputSum([x], asset) + if y.assetId == asset then y.amount else 0
  {
    assert [x, y][..1] == [x];
  }

  /** An import of 10, of which 9 arrives, that moves 5 of another asset as well: 1 is burned, and the fee reported is 6. */
  lemma OtherAssetCountsAsFee(config: Config, txId: Id, source: Id, coin: UtxoId, second: UtxoId, asset: Id, a: Address, start: int)
    requires asset != config.flr && coin != second
    ensures
      var ins := [ImportedInput(coin, config.flr, 10, [0]), ImportedInput(second, asset, 5, [0])];
      var outs := [EvmOutput(a, 9, config.flr), EvmOutput(a, 5, asset)];
      && InputSumOf(ins, config.flr) - EvmOutputSum(outs, config.flr) == 1
      && CrossChainOutcome(config, txId, ImportTx(source, ins, outs), start).fee == 6
  {
    InputSums(ImportedInput(coin, config.flr, 10, [0]), ImportedInput(second, asset, 5, [0]), config.flr);
    EvmOutputSums(EvmOutput(a, 9, config.flr), EvmOutput(a, 5, asset), config.flr);
  }

  /** An import of 2^63 that burns 1 of it: the fee reported is 1 - 2^64. */
  lemma LargeImportHasNegativeFee(config: Config, txId: Id, source: Id, coin: UtxoId, a: Address, start: int)
    ensures
      var ins, outs := [ImportedInput(coin, config.flr, TWO_63, [0])], [EvmOutput(a, TWO_63 - 1, config.flr)];
      && InputSumOf(ins, config.flr) - EvmOutputSum(outs, config.flr) == 1
      && CrossChainOutcome(config, txId, ImportTx(source, ins, outs), start).fee == 1 - TWO_64
  {
    InputSums(ImportedInput(coin, config.flr, TWO_63, [0]), ImportedInput(coin, config.flr, 0, [0]), config.flr);
    EvmOutputSums(EvmOutput(a, TWO_63 - 1, config.flr), EvmOutput(a, 0, config.flr), config.flr);
  }

  // ----- exports: value and fee -----

  lemma {:induction false} ExportOpsNet(ins: seq<EvmInput>, flr: Id, start: int)
    ensures NetIn(ExportOps(ins, flr, start), Flare) == -X2C_RATE * EvmInputSum(ins, flr)
  {
    if ins != [] {
      var n := |ins| - 1;
      ExportOpsNet(ins[..n], flr, start);
      var before := ExportOps(ins[..n], flr, start);
      assert (before + [ExportOp(ins[n], start + |before|)])[..|before|] == before;
    }
  }

  lemma {:induction false} ExportedSumSplits(outs: seq<ExportedOutput>, asset: Id)
    ensures 0 <= ExportedSumOf(outs, asset) <= ExportedSum(outs)
    ensures (forall out <- outs :: out.assetId == asset) ==> ExportedSumOf(outs, asset) == ExportedSum(outs)
    ensures ExportedSumOf(outs, asset) == 0 <==> forall i :: 0 <= i < |outs| && outs[i].assetId == asset ==> outs[i].amount == 0
  {
    if outs != [] {
      var n := |outs| - 1;
      ExportedSumSplits(outs[..n], asset);
      assert forall i :: 0 <= i < n ==> outs[..n][i] == outs[i];
    }
  }

  /** Main result: an export debits its native inputs; its reported fee takes the exported sum off once for each
      native input. It is the native value burned exactly when this comes to the native part of what is exported; with
      native outputs only, exactly when there is one such input or nothing of value goes out. */
  lemma ExportFeeIff(config: Config, txId: Id, tx: AtomicTx, start: int)
    requires tx.ExportTx? && Reports(config, tx)
    requires CrossChainOutcome(config, txId, tx, start).Built?
    ensures
      var outcome := CrossChainOutcome(config, txId, tx, start);
      var outs := tx.exportedOutputs.value;
      var k := InputsOf(tx.ins, config.flr);
      var isBurn := outcome.fee == EvmInputSum(tx.ins, config.flr) - ExportedSumOf(outs, config.flr);
      && NetIn(outcome.ops, Flare) == -X2C_RATE * EvmInputSum(tx.ins, config.flr)
      && outcome.fee == EvmInputSum(tx.ins, config.flr) - k * ExportedSum(outs)
      && (isBurn <==> k * ExportedSum(outs) == ExportedSumOf(outs, config.flr))
      && ((forall out <- outs :: out.assetId == config.flr) ==> (isBurn <==> k == 1 || ExportedSum(outs) == 0))
  {
    hide NetIn, EvmInputSum, ExportedSum, ExportedSumOf, InputsOf, ExportOps, Repeat;
    ExportOpsNet(tx.ins, config.flr, start);
    ExportedSumSplits(tx.exportedOutputs.value, config.flr);
    assert InputsOf(tx.ins, config.flr) == 0 ==> InputsOf(tx.ins, config.flr) * ExportedSum(tx.exportedOutputs.value) == 0;
  }

  /** When nothing exported is reported the whole native input counts as the fee. With an unknown destination that is the
      value burned exactly when no native output has any value. */
  lemma UnreportedExportFeeIff(config: Config, txId: Id, tx: AtomicTx, start: int)
    requires tx.ExportTx? && tx.exportedOutputs.Some? && !Reports(config, tx)
    ensures
      var outcome := CrossChainOutcome(config, txId, tx, start);
      var outs := tx.exportedOutputs.value;
      && outcome.Built? && NetIn(outcome.ops, Flare) == -X2C_RATE * outcome.fee
      && (outcome.fee == EvmInputSum(tx.ins, config.flr) - ExportedSumOf(outs, config.flr) <==>
          forall i :: 0 <= i < |outs| && outs[i].assetId == config.flr ==> outs[i].amount == 0)
  {
    ExportOpsNet(tx.ins, config.flr, start);
    ExportedSumSplits(tx.exportedOutputs.value, config.flr);
  }

  /** An export of 10, paid by 6 from each of two accounts. */
  function ExportOfTen(config: Config, destination: Id, a: Address, b: Address, nonce: uint64, to: nat): AtomicTx {
    ExportTx(destination, [EvmInput(a, 6, config.flr, nonce), EvmInput(b, 6, config.flr, nonce)],
             Some([ExportedOutput(config.flr, 10, 0, 1, [to])]))
  }

  lemma ExportOfTenSums(config: Config, destination: Id, a: Address, b: Address, nonce: uint64, to: nat)
    ensures var tx := ExportOfTen(config, destination, a, b, nonce, to);
      && EvmInputSum(tx.ins, config.flr) == 12 && InputsOf(tx.ins, config.flr) == 2
      && ExportedSum(tx.exportedOutputs.value) == 10 && ExportedSumOf(tx.exportedOutputs.value, config.flr) == 10
  {
    var ins := ExportOfTen(config, destination, a, b, nonce, to).ins;
    assert ins[..1] == [ins[0]];
    assert EvmInputSum([ins[0]], config.flr) == 6 && InputsOf([ins[0]], config.flr) == 1;
  }

  /** It burns 2, and the fee reported is -8. */
  lemma TwoInputsHaveNegativeFee(config: Config, txId: Id, destination: Id, a: Address, b: Address, nonce: uint64, to: nat, start: int)
    requires a != b && config.hrp.Some? && destination in config.aliases
    ensures var tx := ExportOfTen(config, destination, a, b, nonce, to);
      && EvmInputSum(tx.ins, config.flr) - ExportedSumOf(tx.exportedOutputs.value, config.flr) == 2
      && CrossChainOutcome(config, txId, tx, start).Built? && CrossChainOutcome(config, txId, tx, start).fee == -8
  {
    hide EvmInputSum, InputsOf, ExportedSum, ExportedSumOf, ExportOps, ExportedOuts, Repeat;
    ExportOfTenSums(config, destination, a, b, nonce, to);
  }

  /** To a chain without an alias it burns 2 just the same, and the fee reported is 12. */
  lemma UnknownDestinationCountsAsFee(config: Config, txId: Id, destination: Id, a: Address, b: Address, nonce: uint64, to: nat, start: int)
    requires a != b && destination !in config.aliases
    ensures var tx := ExportOfTen(config, destination, a, b, nonce, to);
      && EvmInputSum(tx.ins, config.flr) - ExportedSumOf(tx.exportedOutputs.value, config.flr) == 2
      && CrossChainOutcome(config, txId, tx, start).Built? && CrossChainOutcome(config, txId, tx, start).fee == 12
  {
    hide EvmInputSum, InputsOf, ExportedSum, ExportedSumOf, ExportOps, ExportedOuts, Repeat;
    ExportOfTenSums(config, destination, a, b, nonce, to);
  }

  lemma {:induction false} RepeatAt(ops: seq<EvmOperation>, times: nat, r: nat, i: nat)
    requires r < times && i < |ops|
    ensures |Repeat(ops, times)| == times * |ops|
    ensures r * |ops| + i < times * |ops|
    ensures Repeat(ops, times)[r * |ops| + i] == ops[i]
  {
    RepeatLength(ops, times - 1);
    assert times * |ops| == (times - 1) * |ops| + |ops|;
    if r < times - 1 {
      RepeatAt(ops, times - 1, r, i);
    }
  }

  lemma {:induction false} RepeatLength(ops: seq<EvmOperation>, times: nat)
    ensures |Repeat(ops, times)| == times * |ops|
  {
    if times > 0 {
      RepeatLength(ops, times - 1);
      assert times * |ops| == (times - 1) * |ops| + |ops|;
    }
  }

  /** Main result: each exported output is reported once for every native input, always naming the same coin. */
  lemma ReportedOncePerInput(config: Config, txId: Id, tx: AtomicTx, start: int, r: nat, i: nat)
    requires tx.ExportTx? && Reports(config, tx)
    requires CrossChainOutcome(config, txId, tx, start).Built?
    requires r < InputsOf(tx.ins, config.flr) && i < |tx.exportedOutputs.value|
    ensures config.hrp.Some?
    ensures
      var outs := tx.exportedOutputs.value;
      var exported := CrossChainOutcome(config, txId, tx, start).exported;
      && exported.Some? && |exported.value| == InputsOf(tx.ins, config.flr) * |outs|
      && r * |outs| + i < |exported.value|
      && var op := exported.value[r * |outs| + i];
      && op.coinChange == Some(CoinChange(UtxoId(txId, Uint32(i)), CoinCreated))
      && op.amount == Some(Amount(outs[i].amount, AtomicAvax))
      && op.account == Some(if outs[i].addresses == [] then Blank
                            else Bech32(config.aliases[tx.destinationChain], config.hrp.value, outs[i].addresses[0]))
      && op.kind == Export && op.status == Success && op.related == [] && op.metadata == NoMetadata
  {
    hide EvmInputSum, ExportedSum, ExportOps, InputsOf, Repeat;
    var outs := tx.exportedOutputs.value;
    RepeatAt(ExportedOuts(config.aliases[tx.destinationChain], config.hrp.value, txId, outs), InputsOf(tx.ins, config.flr), r, i);
  }
}
