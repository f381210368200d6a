/** The parse of a transaction of a block: exactly when it succeeds, and what each operation says
    (server/mapper/pchain/tx_parser.go). */
module PChainBlockParse {
  import opened Rosetta
  import opened Emission
  import opened PChain
  import opened PChainTxOps
  import opened PChainDependency
  import opened PChainParser
  import opened PChainParserProperties

  // ----- when a transaction is parsed -----

  /** Nothing about the output stops the parse: its shape is known, and its asset if it gives an operation. */
  predicate ReadsOut(cfg: Config, out: Out, asset: Id) {
    KnownOut(out) && (SingleAddress(out) ==> KnownAsset(cfg, asset))
  }

  ghost predicate OutsRead(cfg: Config, outs: seq<Output>) {
    forall i :: 0 <= i < |outs| ==> ReadsOut(cfg, outs[i].out, outs[i].asset)
  }

  ghost predicate RewardsRead(cfg: Config, rewards: seq<Utxo>) {
    forall i :: 0 <= i < |rewards| ==> ReadsOut(cfg, rewards[i].out, rewards[i].asset)
  }

  ghost predicate InsRead(ctx: Context, ins: seq<Input>)
    requires ctx.deps.Some?
  {
    forall input <- ins :: ReadsWell(ctx, input)
  }

  /** Imported inputs of a block are not looked up. */
  ghost predicate ImportsRead(cfg: Config, imported: seq<Input>) {
    forall i :: 0 <= i < |imported| ==> KnownIn(imported[i].in_) && KnownAsset(cfg, imported[i].asset)
  }

  /** The staking transaction is among the dependencies, is one, and left readable rewards. */
  ghost predicate RewardReads(ctx: Context, stakingTx: Id)
    requires ctx.deps.Some?
  {
    && stakingTx in ctx.deps.value
    && ctx.deps.value[stakingTx].tx.Some? && ctx.deps.value[stakingTx].tx.value.unsigned.StakeTx?
    && RewardsRead(ctx.cfg, ctx.deps.value[stakingTx].rewards)
  }

  ghost predicate Reads(ctx: Context, unsigned: UnsignedTx)
    requires ctx.deps.Some?
  {
    match unsigned
    case SpendTx(_, ins, outs) => InsRead(ctx, ins) && OutsRead(ctx.cfg, outs)
    case StakeTx(_, ins, outs, stake, _) => InsRead(ctx, ins) && OutsRead(ctx.cfg, outs) && OutsRead(ctx.cfg, stake)
    case ImportTx(ins, outs, imported) => InsRead(ctx, ins) && ImportsRead(ctx.cfg, imported) && OutsRead(ctx.cfg, outs)
    case ExportTx(ins, outs, destination, exported) =>
      InsRead(ctx, ins) && OutsRead(ctx.cfg, outs) && destination in ctx.cfg.chains && OutsRead(ctx.cfg, exported)
    case RewardTx(stakingTx) => RewardReads(ctx, stakingTx)
    case _ => true
  }

  lemma OneOutputFailsIff(cfg: Config, kind: TxType, metaType: MetaType, chain: string, out: Out, asset: Id, coin: UtxoId)
    requires !cfg.construction
    ensures OneOutput(cfg, kind, metaType, chain, out, asset, coin).Fail? <==> !ReadsOut(cfg, out, asset)
    ensures ReadsOut(cfg, out, asset) ==> (OneOutput(cfg, kind, metaType, chain, out, asset, coin).Emit? <==> SingleAddress(out))
    ensures OneOutput(cfg, kind, metaType, chain, out, asset, coin).Emit? ==>
      Describes(OneOutput(cfg, kind, metaType, chain, out, asset, coin).op, cfg, kind, metaType, chain, asset, out, coin)
  {
    OutputStepDescribes(cfg, kind, metaType, chain, Output(asset, out), coin);
    if KnownOut(out) {
      PlainAddresses(out);
      AmountErrors(cfg, Int64(PlainOut(out).value.amount), asset);
    }
  }

  lemma PlainAddresses(out: Out)
    requires KnownOut(out)
    ensures PlainOut(out).Some? && Addresses(out) == PlainOut(out).value.addrs
  {
    match out
    case LockOut(_, inner) => assert Addresses(inner) == inner.out.addrs;
    case _ =>
  }

  lemma AddOutsOk(cfg: Config, c: Collected, kind: TxType, txId: Id, outs: seq<Output>, metaType: MetaType, chain: string)
    requires !cfg.construction
    ensures AddOutputs(cfg, c, kind, txId, outs, metaType, chain).Ok? <==> c.Ok? && OutsRead(cfg, outs)
  {
    hide EmitAll, OneOutput, ReadsOut, Into;
    if c.Ok? {
      var offset := c.value.OutputLen();
      var step := OutputStep(cfg, kind, metaType, chain, txId, offset);
      FailsIff(step, outs);
      forall i | 0 <= i < |outs| ensures step(outs[i], i).Fail? <==> !ReadsOut(cfg, outs[i].out, outs[i].asset) {
        OneOutputFailsIff(cfg, kind, metaType, chain, outs[i].out, outs[i].asset, OutKey(txId, offset + i));
      }
    }
  }

  lemma AddInsOk(ctx: Context, c: Collected, kind: TxType, ins: seq<Input>)
    requires BlockContext(ctx)
    ensures AddInputs(ctx, c, kind, ins, InputType).Ok? <==> c.Ok? && InsRead(ctx, ins)
  {
    hide EmitAll, ReadsWell, Into, AllAddressable, AreReferencedAccounts;
    InputsResolve(ctx, kind, InputType, ins);
  }

  lemma OneImportFailsIff(ctx: Context, kind: TxType, input: Input)
    requires !ctx.cfg.construction
    ensures OneInput(ctx, kind, ImportType, input).Emit? <==> KnownIn(input.in_) && KnownAsset(ctx.cfg, input.asset)
    ensures OneInput(ctx, kind, ImportType, input).Fail? <==> !(KnownIn(input.in_) && KnownAsset(ctx.cfg, input.asset))
  {
    hide IsMultisig;
  }

  lemma AddImportsOk(ctx: Context, c: Collected, kind: TxType, imported: seq<Input>)
    requires !ctx.cfg.construction
    ensures AddInputs(ctx, c, kind, imported, ImportType).Ok? <==> c.Ok? && ImportsRead(ctx.cfg, imported)
  {
    hide EmitAll, OneInput, KnownIn, KnownAsset, Into;
    var step := InputStep(ctx, kind, ImportType);
    FailsIff(step, imported);
    forall i | 0 <= i < |imported|
      ensures step(imported[i], i).Fail? <==> !(KnownIn(imported[i].in_) && KnownAsset(ctx.cfg, imported[i].asset))
    {
      OneImportFailsIff(ctx, kind, imported[i]);
    }
  }

  lemma RewardOk(ctx: Context, stakingTx: Id)
    requires !ctx.cfg.construction && ctx.deps.Some?
    ensures RewardBuckets(ctx, stakingTx).Ok? <==> RewardReads(ctx, stakingTx)
  {
    hide EmitAll, OneOutput, ReadsOut, Into;
    if stakingTx in ctx.deps.value {
      var rewards, step := ctx.deps.value[stakingTx].rewards, UtxoStep(ctx.cfg, RewardValidator, RewardType, "P");
      FailsIff(step, rewards);
      forall i | 0 <= i < |rewards| ensures step(rewards[i], i).Fail? <==> !ReadsOut(ctx.cfg, rewards[i].out, rewards[i].asset) {
        OneOutputFailsIff(ctx.cfg, RewardValidator, RewardType, "P", rewards[i].out, rewards[i].asset, rewards[i].id);
      }
    }
  }

  lemma BaseOk(ctx: Context, kind: TxType, txId: Id, ins: seq<Input>, outs: seq<Output>)
    requires BlockContext(ctx)
    ensures BaseBuckets(ctx, kind, txId, ins, outs).Ok? <==> InsRead(ctx, ins) && OutsRead(ctx.cfg, outs)
  {
    InBlock(ctx);
    hide BlockContext, AddInputs, AddOutputs, InsRead, OutsRead;
    AddInsOk(ctx, Ok(EMPTY), kind, ins);
    AddOutsOk(ctx.cfg, AddInputs(ctx, Ok(EMPTY), kind, ins, InputType), kind, txId, outs, OutputType, "P");
  }

  /** Main result: a transaction of a block is parsed exactly when its inputs, outputs and destination read well; a reward,
      exactly when its staking transaction is known, is one, and left readable rewards. */
  lemma BlockTxParsesIff(ctx: Context, tx: Tx)
    requires BlockContext(ctx)
    ensures ParseTx(ctx, tx).Ok? <==> Reads(ctx, tx.unsigned)
  {
    InBlock(ctx);
    hide BlockContext, BaseBuckets, AddInputs, AddOutputs, RewardBuckets, InsRead, OutsRead, ImportsRead, RewardReads;
    match tx.unsigned {
      case SpendTx(kind, ins, outs) => BaseOk(ctx, Spending(kind), tx.id, ins, outs);
      case StakeTx(kind, ins, outs, stake, _) =>
        BaseOk(ctx, Staking(kind), tx.id, ins, outs);
        AddOutsOk(ctx.cfg, BaseBuckets(ctx, Staking(kind), tx.id, ins, outs), Staking(kind), tx.id, stake, StakeType, "P");
      case ImportTx(ins, outs, imported) =>
        var c := AddInputs(ctx, Ok(EMPTY), ImportAvax, ins, InputType);
        AddInsOk(ctx, Ok(EMPTY), ImportAvax, ins);
        AddImportsOk(ctx, c, ImportAvax, imported);
        AddOutsOk(ctx.cfg, AddInputs(ctx, c, ImportAvax, imported, ImportType), ImportAvax, tx.id, outs, OutputType, "P");
      case ExportTx(ins, outs, destination, exported) =>
        var c := BaseBuckets(ctx, ExportAvax, tx.id, ins, outs);
        BaseOk(ctx, ExportAvax, tx.id, ins, outs);
        if destination in ctx.cfg.chains {
          AddOutsOk(ctx.cfg, c, ExportAvax, tx.id, exported, ExportType, ctx.cfg.chains[destination]);
        }
      case RewardTx(stakingTx) => RewardOk(ctx, stakingTx);
      case _ =>
    }
  }

  // ----- what the operations say -----

  /** How many of the UTXOs have exactly one address. */
  function SingleUtxos(utxos: seq<Utxo>): nat {
    if utxos == [] then 0
    else SingleUtxos(utxos[..|utxos| - 1]) + if SingleAddress(utxos[|utxos| - 1].out) then 1 else 0
  }

  lemma {:induction false} EmittingIsSingleUtxos(cfg: Config, rewards: seq<Utxo>)
    requires !cfg.construction && RewardsRead(cfg, rewards)
    ensures Emitting(UtxoStep(cfg, RewardValidator, RewardType, "P"), rewards) == SingleUtxos(rewards)
  {
    hide OneOutput, SingleAddress, ReadsOut;
    if rewards != [] {
      var n := |rewards| - 1;
      EmittingIsSingleUtxos(cfg, rewards[..n]);
      OneOutputFailsIff(cfg, RewardValidator, RewardType, "P", rewards[n].out, rewards[n].asset, rewards[n].id);
    }
  }

  lemma RewardOps(ctx: Context, tx: Tx)
    requires !ctx.cfg.construction && tx.unsigned.RewardTx? && ParseTx(ctx, tx).Ok?
    ensures ctx.deps.Some? && tx.unsigned.stakingTx in ctx.deps.value
    ensures var e := EmitAll(UtxoStep(ctx.cfg, RewardValidator, RewardType, "P"), ctx.deps.value[tx.unsigned.stakingTx].rewards);
      && e.error.None? && ParseTx(ctx, tx).value.operations == Indexed(e.ops, 0)
      && ParseTx(ctx, tx).value.imported == [] && ParseTx(ctx, tx).value.exported == []
  {
    hide EmitAll;
  }

  /** Main result: a reward is reported with one operation for each UTXO it left to a single address, in order, each naming
      that UTXO's own id, its address, amount and asset. */
  lemma RewardShown(ctx: Context, tx: Tx, i: nat)
    requires BlockContext(ctx) && tx.unsigned.RewardTx? && ParseTx(ctx, tx).Ok?
    requires i < |ctx.deps.value[tx.unsigned.stakingTx].rewards|
    ensures var ops, rewards := ParseTx(ctx, tx).value.operations, ctx.deps.value[tx.unsigned.stakingTx].rewards;
      && |ops| == SingleUtxos(rewards)
      && ParseTx(ctx, tx).value.imported == [] && ParseTx(ctx, tx).value.exported == []
      && (SingleAddress(rewards[i].out) ==>
            && SingleUtxos(rewards[..i]) < |ops|
            && Describes(ops[SingleUtxos(rewards[..i])], ctx.cfg, RewardValidator, RewardType, "P", rewards[i].asset,
                         rewards[i].out, rewards[i].id))
  {
    InBlock(ctx);
    BlockTxParsesIff(ctx, tx);
    RewardOps(ctx, tx);
    hide BlockContext, ParseTx, EmitAll, OneOutput, Describes, SingleAddress, ReadsOut;
    var rewards, step := ctx.deps.value[tx.unsigned.stakingTx].rewards, UtxoStep(ctx.cfg, RewardValidator, RewardType, "P");
    EmittedInOrder(step, rewards);
    EmittingIsSingleUtxos(ctx.cfg, rewards);
    EmittingIsSingleUtxos(ctx.cfg, rewards[..i]);
    OneOutputFailsIff(ctx.cfg, RewardValidator, RewardType, "P", rewards[i].out, rewards[i].asset, rewards[i].id);
    DescribesAtAnyIndex(ctx.cfg, RewardValidator, RewardType, "P", rewards[i].asset, rewards[i].out, rewards[i].id);
  }

  lemma DescribesAtAnyIndex(cfg: Config, kind: TxType, metaType: MetaType, chain: string, asset: Id, out: Out, coin: UtxoId)
    ensures forall op: POperation, k :: Describes(op, cfg, kind, metaType, chain, asset, out, coin) ==>
      Describes(op.(index := k), cfg, kind, metaType, chain, asset, out, coin)
  {
  }

  /** In a block the base inputs come first, and buckets without a source stay empty. */
  lemma BaseInsCollected(ctx: Context, tx: Tx)
    requires !ctx.cfg.construction && ParseBuckets(ctx, tx).Ok? && !tx.unsigned.RewardTx?
    ensures var b := ParseBuckets(ctx, tx).value;
      var e := EmitAll(InputStep(ctx, TypeOf(tx.unsigned), InputType), BaseIns(tx.unsigned));
      && e.error.None? && b.ins == Indexed(e.ops, 0)
      && (BaseOuts(tx.unsigned) == [] ==> b.outs == []) && (!tx.unsigned.StakeTx? ==> b.stakeOuts == [])
      && (!tx.unsigned.ImportTx? ==> b.importIns == []) && (!tx.unsigned.ExportTx? ==> b.exportOuts == [])
  {
    hide EmitAll, OneInput, OneOutput;
    NoTurn(InputStep(ctx, TypeOf(tx.unsigned), InputType));
    if BaseOuts(tx.unsigned) == [] {
      NoTurn(OutputStep(ctx.cfg, TypeOf(tx.unsigned), OutputType, "P", tx.id, 0));
    }
  }

  lemma ImportedCollected(ctx: Context, tx: Tx)
    requires !ctx.cfg.construction && tx.unsigned.ImportTx? && ParseBuckets(ctx, tx).Ok?
    ensures var e := EmitAll(InputStep(ctx, ImportAvax, ImportType), tx.unsigned.imported);
      e.error.None? && ParseBuckets(ctx, tx).value.importIns == e.ops
  {
    hide EmitAll;
  }

  /** How many operations the base inputs, the base outputs and the stake outputs of a transaction give. */
  ghost function InCount(ctx: Context, unsigned: UnsignedTx): nat
    requires ctx.deps.Some?
  {
    SinglesSpent(ctx.deps.value, BaseIns(unsigned))
  }

  function OutCount(unsigned: UnsignedTx): nat {
    Singles(BaseOuts(unsigned))
  }

  function StakeCount(unsigned: UnsignedTx): nat {
    if unsigned.StakeTx? then Singles(unsigned.stake) else 0
  }

  /** The k-th input that spends a single-address UTXO gives the k-th operation. */
  lemma InputsDescribed(ctx: Context, kind: TxType, ins: seq<Input>, i: nat, u: Utxo)
    requires BlockContext(ctx) && OwnIds(ctx.deps.value)
    requires EmitAll(InputStep(ctx, kind, InputType), ins).error.None?
    requires i < |ins| && Origin(ctx.deps.value, ins[i].utxo, u) && |Addresses(u.out)| == 1
    ensures var ops, k := EmitAll(InputStep(ctx, kind, InputType), ins).ops, SinglesSpent(ctx.deps.value, ins[..i]);
      && k < |ops|
      && DescribesInput(ops[k], ctx.cfg, kind, InputType, ins[i], Some(Bech32("P", ctx.cfg.hrp, Addresses(u.out)[0])))
  {
    InBlock(ctx);
    assert SpendsSingle(ctx.deps.value, ins[i].utxo);
    hide BlockContext, OwnIds, EmitAll, OneInput, DescribesInput, ReadsWell, Origin, SpendsSingle, Addresses;
    var step := InputStep(ctx, kind, InputType);
    EmittedInOrder(step, ins);
    InputsResolve(ctx, kind, InputType, ins);
    EmittingIsSinglesSpent(ctx, kind, InputType, ins[..i]);
    WellReadEmits(ctx, kind, ins[i]);
    InputBookedOnOwner(ctx, kind, InputType, ins[i], u);
  }

  lemma WellReadEmits(ctx: Context, kind: TxType, input: Input)
    requires BlockContext(ctx) && ReadsWell(ctx, input) && SpendsSingle(ctx.deps.value, input.utxo)
    ensures OneInput(ctx, kind, InputType, input).Emit?
  {
    hide AllAddressable, AreReferencedAccounts, SpendsSingle;
    InputResolves(ctx, kind, InputType, input);
  }

  lemma DescribedAtAnyIndex(cfg: Config, kind: TxType, metaType: MetaType, input: Input, account: Option<Account>)
    ensures forall op: POperation, k :: DescribesInput(op, cfg, kind, metaType, input, account) ==>
      DescribesInput(op.(index := k), cfg, kind, metaType, input, account)
  {
  }

  /** Main result: an input that spends a single-address UTXO, be it an output or a reward of the transaction it names, has
      its operation after those of the inputs before it, booked on that address. */
  lemma InputShown(ctx: Context, tx: Tx, i: nat, u: Utxo)
    requires BlockContext(ctx) && OwnIds(ctx.deps.value) && ParseTx(ctx, tx).Ok?
    requires i < |BaseIns(tx.unsigned)| && Origin(ctx.deps.value, BaseIns(tx.unsigned)[i].utxo, u) && |Addresses(u.out)| == 1
    ensures var ops, ins := ParseTx(ctx, tx).value.operations, BaseIns(tx.unsigned);
      var k := SinglesSpent(ctx.deps.value, ins[..i]);
      && k < InCount(ctx, tx.unsigned) <= |ops|
      && DescribesInput(ops[k], ctx.cfg, TypeOf(tx.unsigned), InputType, ins[i],
                        Some(Bech32("P", ctx.cfg.hrp, Addresses(u.out)[0])))
  {
    InBlock(ctx);
    var ins, kind, account := BaseIns(tx.unsigned), TypeOf(tx.unsigned), Some(Bech32("P", ctx.cfg.hrp, Addresses(u.out)[0]));
    BaseInsCollected(ctx, tx);
    hide BlockContext, OwnIds, ParseBuckets, EmitAll, DescribesInput, Origin, Addresses;
    InputsDescribed(ctx, kind, ins, i, u);
    InputsResolve(ctx, kind, InputType, ins);
    DescribedAtAnyIndex(ctx.cfg, kind, InputType, ins[i], account);
  }

  /** The operations are those of the base inputs, the base outputs and the stake outputs, in this order. */
  lemma OperationCount(ctx: Context, tx: Tx)
    requires BlockContext(ctx) && ParseTx(ctx, tx).Ok? && !tx.unsigned.RewardTx?
    ensures var b := ParseBuckets(ctx, tx).value;
      && |b.ins| == InCount(ctx, tx.unsigned) && |b.outs| == OutCount(tx.unsigned) && |b.stakeOuts| == StakeCount(tx.unsigned)
      && ParseTx(ctx, tx).value.operations == b.ins + b.outs + b.stakeOuts
  {
    InBlock(ctx);
    BaseInsCollected(ctx, tx);
    hide ParseBuckets, EmitAll;
    InputsResolve(ctx, TypeOf(tx.unsigned), InputType, BaseIns(tx.unsigned));
    if BaseOuts(tx.unsigned) != [] {
      BaseOutsCollected(ctx, tx);
      var step := OutputStep(ctx.cfg, TypeOf(tx.unsigned), OutputType, "P", tx.id, 0);
      EmittedInOrder(step, BaseOuts(tx.unsigned));
      EmittingIsSingles(ctx.cfg, TypeOf(tx.unsigned), OutputType, "P", tx.id, 0, BaseOuts(tx.unsigned));
    }
    if tx.unsigned.StakeTx? {
      StakeOutsCollected(ctx, tx);
      var step := OutputStep(ctx.cfg, TypeOf(tx.unsigned), StakeType, "P", tx.id, |ParseBuckets(ctx, tx).value.outs|);
      EmittedInOrder(step, tx.unsigned.stake);
      EmittingIsSingles(ctx.cfg, TypeOf(tx.unsigned), StakeType, "P", tx.id, |ParseBuckets(ctx, tx).value.outs|, tx.unsigned.stake);
    }
  }

  /** What the parts of a parsed transaction are, type by type. */
  lemma PartsOf(ctx: Context, tx: Tx)
    requires ParseTx(ctx, tx).Ok?
    ensures ParseBuckets(ctx, tx).Ok?
    ensures var b, p := ParseBuckets(ctx, tx).value, ParseTx(ctx, tx).value;
      p.exported == Indexed(b.exportOuts, |b.ins + b.outs + b.stakeOuts| + |b.importIns|)
    ensures OutCount(tx.unsigned) == Singles(BaseOuts(tx.unsigned))
    ensures tx.unsigned.StakeTx? ==>
      && BaseOuts(tx.unsigned) == tx.unsigned.outs && StakeCount(tx.unsigned) == Singles(tx.unsigned.stake)
      && TypeOf(tx.unsigned) == Staking(tx.unsigned.stakeKind)
    ensures tx.unsigned.ExportTx? ==> BaseOuts(tx.unsigned) == tx.unsigned.outs
    ensures tx.unsigned.RewardTx? ==> BaseOuts(tx.unsigned) == []
  {
    hide ParseBuckets, Singles, Indexed;
  }

  lemma NumbersFit(tx: Tx, i: nat)
    requires |OutsToAdd(tx.unsigned)| <= TWO_32 && i < |BaseOuts(tx.unsigned)|
    ensures i < TWO_32 && OutKey(tx.id, i) == UtxoId(tx.id, i)
  {
  }

  lemma SecondOfThree(x: seq<POperation>, y: seq<POperation>, z: seq<POperation>, k: nat)
    requires k < |y|
    ensures |x| + k < |x + y + z| && (x + y + z)[|x| + k] == y[k]
  {
  }

  lemma ThirdOfThree(x: seq<POperation>, y: seq<POperation>, z: seq<POperation>, k: nat)
    requires k < |z|
    ensures |x| + |y| + k < |x + y + z| && (x + y + z)[|x| + |y| + k] == z[k]
  {
  }

  /** Main result: a base output with a single address has its operation after the inputs', naming its own coin. */
  lemma BaseOutputShown(ctx: Context, tx: Tx, i: nat)
    requires BlockContext(ctx) && ParseTx(ctx, tx).Ok? && |OutsToAdd(tx.unsigned)| <= TWO_32
    requires i < |BaseOuts(tx.unsigned)| && SingleAddress(BaseOuts(tx.unsigned)[i].out)
    ensures var ops, outs := ParseTx(ctx, tx).value.operations, BaseOuts(tx.unsigned);
      var k := InCount(ctx, tx.unsigned) + Singles(outs[..i]);
      && k < InCount(ctx, tx.unsigned) + OutCount(tx.unsigned) <= |ops|
      && Describes(ops[k], ctx.cfg, TypeOf(tx.unsigned), OutputType, "P", outs[i].asset, outs[i].out, UtxoId(tx.id, i))
  {
    hide *;
    InBlock(ctx);
    PartsOf(ctx, tx);
    NumbersFit(tx, i);
    OperationCount(ctx, tx);
    BaseCoinsMatchUtxos(ctx, tx, [], i);
    var b := ParseBuckets(ctx, tx).value;
    SecondOfThree(b.ins, b.outs, b.stakeOuts, Singles(BaseOuts(tx.unsigned)[..i]));
  }

  /** Main result: a stake output with a single address has its operation last, naming the coin that is short by the base
      outputs left out. */
  lemma StakeOutputShown(ctx: Context, tx: Tx, j: nat)
    requires BlockContext(ctx) && ParseTx(ctx, tx).Ok? && tx.unsigned.StakeTx?
    requires j < |tx.unsigned.stake| && SingleAddress(tx.unsigned.stake[j].out)
    ensures var ops, stake := ParseTx(ctx, tx).value.operations, tx.unsigned.stake;
      var k := InCount(ctx, tx.unsigned) + OutCount(tx.unsigned) + Singles(stake[..j]);
      && k < |ops|
      && Describes(ops[k], ctx.cfg, TypeOf(tx.unsigned), StakeType, "P", stake[j].asset, stake[j].out,
                   OutKey(tx.id, OutCount(tx.unsigned) + j))
  {
    hide *;
    InBlock(ctx);
    PartsOf(ctx, tx);
    OperationCount(ctx, tx);
    StakeCoinsShifted(ctx, tx, j);
    var b := ParseBuckets(ctx, tx).value;
    ThirdOfThree(b.ins, b.outs, b.stakeOuts, Singles(tx.unsigned.stake[..j]));
  }

  /** Main result: every imported input is told in the metadata, in order, on no account. */
  lemma ImportedShown(ctx: Context, tx: Tx, j: nat)
    requires BlockContext(ctx) && ParseTx(ctx, tx).Ok? && tx.unsigned.ImportTx? && j < |tx.unsigned.imported|
    ensures var told, imported := ParseTx(ctx, tx).value.imported, tx.unsigned.imported;
      && |told| == |imported|
      && DescribesInput(told[j], ctx.cfg, ImportAvax, ImportType, imported[j], None)
  {
    InBlock(ctx);
    var imported, step := tx.unsigned.imported, InputStep(ctx, ImportAvax, ImportType);
    ImportedCollected(ctx, tx);
    BlockTxParsesIff(ctx, tx);
    hide BlockContext, ParseBuckets, EmitAll, OneInput, DescribesInput;
    forall i | 0 <= i < |imported| ensures step(imported[i], i).Emit? {
      OneImportFailsIff(ctx, ImportAvax, imported[i]);
    }
    AllEmit(step, imported);
    EmitDescribes(ctx, ImportAvax, ImportType, imported[j]);
    DescribedAtAnyIndex(ctx.cfg, ImportAvax, ImportType, imported[j], None);
  }

  /** Main result: an exported output with a single address is told in the metadata, on the chain it goes to. */
  lemma ExportedShown(ctx: Context, tx: Tx, j: nat)
    requires BlockContext(ctx) && ParseTx(ctx, tx).Ok? && tx.unsigned.ExportTx?
    requires |tx.unsigned.outs| + |tx.unsigned.exported| <= TWO_32
    requires j < |tx.unsigned.exported| && SingleAddress(tx.unsigned.exported[j].out)
    ensures tx.unsigned.destination in ctx.cfg.chains
    ensures var told, exported := ParseTx(ctx, tx).value.exported, tx.unsigned.exported;
      && |told| == Singles(exported) && Singles(exported[..j]) < |told|
      && Describes(told[Singles(exported[..j])], ctx.cfg, ExportAvax, ExportType, ctx.cfg.chains[tx.unsigned.destination],
                   exported[j].asset, exported[j].out, OutKey(tx.id, OutCount(tx.unsigned) + j))
  {
    hide *;
    InBlock(ctx);
    PartsOf(ctx, tx);
    ExportCoinsShiftedIff(ctx, tx, j);
    DescribesAtAnyIndex(ctx.cfg, ExportAvax, ExportType, ctx.cfg.chains[tx.unsigned.destination],
                        tx.unsigned.exported[j].asset, tx.unsigned.exported[j].out, OutKey(tx.id, OutCount(tx.unsigned) + j));
  }
}
