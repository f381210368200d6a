/** What a parse of a P-chain transaction guarantees: indices, coin identifiers and resolved accounts. */
module PChainParserProperties {
  import opened Rosetta
  import opened Emission
  import opened PChain
  import opened PChainTxOps
  import opened PChainDependency
  import opened PChainParser

  // ----- indices -----

  /** The bucket an append reaches is the last one in use, so numbering at append time counts positions. */
  ghost predicate InTurn(b: Buckets, construction: bool, metaType: MetaType) {
    match metaType
    case InputType => b.outs == [] && b.stakeOuts == []
    case ImportType => construction ==> b.outs == [] && b.stakeOuts == []
    case OutputType => b.stakeOuts == []
    case ExportType => construction ==> b.stakeOuts == []
    case StakeType => true
    case RewardType => true
  }

  lemma IntoKeepsPositions(b: Buckets, construction: bool, metaType: MetaType, ops: seq<POperation>)
    requires Positions(b.Included()) && InTurn(b, construction, metaType)
    ensures Positions(Into(b, construction, metaType, ops).Included())
  {
    hide Into;
    IntoAppends(b, construction, metaType, ops);
    PositionsAppend(b.Included(), ops);
  }

  lemma PositionsAppend(a: seq<POperation>, ops: seq<POperation>)
    requires Positions(a)
    ensures Positions(a + Indexed(ops, |a|))
  {
  }

  lemma IntoAppends(b: Buckets, construction: bool, metaType: MetaType, ops: seq<POperation>)
    requires InTurn(b, construction, metaType)
    ensures Into(b, construction, metaType, ops).Included() ==
      if KeptApart(construction, metaType) then b.Included() else b.Included() + Indexed(ops, |b.Included()|)
  {
    var numbered := Indexed(ops, |b.Included()|);
    if !KeptApart(construction, metaType) {
      if b.outs == [] && b.stakeOuts == [] {
        assert b.Included() == b.ins;
      }
      if b.stakeOuts == [] {
        assert b.Included() == b.ins + b.outs;
        assert b.ins + (b.outs + numbered) == b.ins + b.outs + numbered;
      }
      assert b.ins + b.outs + (b.stakeOuts + numbered) == b.ins + b.outs + b.stakeOuts + numbered;
    }
  }

  ghost predicate WellNumbered(c: Collected) {
    c.Ok? ==> Positions(c.value.Included())
  }

  lemma CollectKeepsPositions(c: Collected, construction: bool, metaType: MetaType, e: Emission<POperation, ParseError>)
    requires WellNumbered(c)
    requires c.Ok? ==> InTurn(c.value, construction, metaType)
    ensures WellNumbered(Collect(c, construction, metaType, e))
  {
    if c.Ok? {
      IntoKeepsPositions(c.value, construction, metaType, e.ops);
    }
  }

  lemma BaseKeepsPositions(ctx: Context, kind: TxType, txId: Id, ins: seq<Input>, outs: seq<Output>)
    ensures var c := BaseBuckets(ctx, kind, txId, ins, outs);
      WellNumbered(c) && (c.Ok? ==> c.value.stakeOuts == [])
  {
    hide EmitAll;
    var inputs := AddInputs(ctx, Ok(EMPTY), kind, ins, InputType);
    CollectKeepsPositions(Ok(EMPTY), ctx.cfg.construction, InputType, EmitAll(InputStep(ctx, kind, InputType), ins));
    if inputs.Ok? {
      CollectKeepsPositions(inputs, ctx.cfg.construction, OutputType,
                            EmitAll(OutputStep(ctx.cfg, kind, OutputType, "P", txId, inputs.value.OutputLen()), outs));
    }
  }

  lemma ImportKeepsPositions(ctx: Context, txId: Id, ins: seq<Input>, imported: seq<Input>, outs: seq<Output>)
    ensures var c := AddInputs(ctx, AddInputs(ctx, Ok(EMPTY), ImportAvax, ins, InputType), ImportAvax, imported, ImportType);
      WellNumbered(AddOutputs(ctx.cfg, c, ImportAvax, txId, outs, OutputType, "P"))
  {
    hide EmitAll;
    var first := AddInputs(ctx, Ok(EMPTY), ImportAvax, ins, InputType);
    var second := AddInputs(ctx, first, ImportAvax, imported, ImportType);
    CollectKeepsPositions(Ok(EMPTY), ctx.cfg.construction, InputType, EmitAll(InputStep(ctx, ImportAvax, InputType), ins));
    CollectKeepsPositions(first, ctx.cfg.construction, ImportType, EmitAll(InputStep(ctx, ImportAvax, ImportType), imported));
    if second.Ok? {
      CollectKeepsPositions(second, ctx.cfg.construction, OutputType,
                            EmitAll(OutputStep(ctx.cfg, ImportAvax, OutputType, "P", txId, second.value.OutputLen()), outs));
    }
  }

  lemma OutputsKeepPositions(ctx: Context, c: Collected, kind: TxType, txId: Id, outs: seq<Output>, metaType: MetaType, chain: string)
    requires WellNumbered(c) && (c.Ok? ==> c.value.stakeOuts == [])
    requires metaType == StakeType || metaType == ExportType
    ensures WellNumbered(AddOutputs(ctx.cfg, c, kind, txId, outs, metaType, chain))
  {
    hide EmitAll;
    if c.Ok? {
      CollectKeepsPositions(c, ctx.cfg.construction, metaType,
                            EmitAll(OutputStep(ctx.cfg, kind, metaType, chain, txId, c.value.OutputLen()), outs));
    }
  }

  lemma BucketsKeepPositions(ctx: Context, tx: Tx)
    ensures WellNumbered(ParseBuckets(ctx, tx))
  {
    hide BaseBuckets, AddOutputs, AddInputs, EmitAll;
    match tx.unsigned {
      case SpendTx(kind, ins, outs) =>
        BaseKeepsPositions(ctx, Spending(kind), tx.id, ins, outs);
      case StakeTx(kind, ins, outs, stake, _) =>
        BaseKeepsPositions(ctx, Staking(kind), tx.id, ins, outs);
        OutputsKeepPositions(ctx, BaseBuckets(ctx, Staking(kind), tx.id, ins, outs), Staking(kind), tx.id, stake, StakeType, "P");
      case ImportTx(ins, outs, imported) =>
        ImportKeepsPositions(ctx, tx.id, ins, imported, outs);
      case ExportTx(ins, outs, destination, exported) =>
        BaseKeepsPositions(ctx, ExportAvax, tx.id, ins, outs);
        if destination in ctx.cfg.chains {
          OutputsKeepPositions(ctx, BaseBuckets(ctx, ExportAvax, tx.id, ins, outs), ExportAvax, tx.id, exported,
                               ExportType, ctx.cfg.chains[destination]);
        }
      case RewardTx(stakingTx) =>
        if ctx.deps.Some? && stakingTx in ctx.deps.value {
          CollectKeepsPositions(Ok(EMPTY), ctx.cfg.construction, RewardType,
            EmitAll(UtxoStep(ctx.cfg, RewardValidator, RewardType, "P"), ctx.deps.value[stakingTx].rewards));
        }
      case _ =>
    }
  }

  /** Main result: for every transaction type and both modes the indices are the positions, and the imported inputs
      and then the exported outputs carry the numbering on without a gap. */
  lemma IndexIsPosition(ctx: Context, tx: Tx)
    requires ParseTx(ctx, tx).Ok?
    ensures Positions(ParseTx(ctx, tx).value.All())
  {
    hide ParseBuckets;
    BucketsKeepPositions(ctx, tx);
    var b := ParseBuckets(ctx, tx).value;
    var parsed := Finish(b);
    var n := |parsed.operations|;
    forall i | 0 <= i < |parsed.All()| ensures parsed.All()[i].index == Some(i) {
      if n <= i < n + |parsed.imported| {
        assert parsed.All()[i] == parsed.imported[i - n];
      } else if n + |parsed.imported| <= i {
        assert parsed.All()[i] == parsed.exported[i - n - |parsed.imported|];
      }
    }
  }

  // ----- coin identifiers -----

  /** How many outputs have exactly one address. */
  function Singles(outs: seq<Output>): nat {
    if outs == [] then 0
    else Singles(outs[..|outs| - 1]) + if SingleAddress(outs[|outs| - 1].out) then 1 else 0
  }

  lemma {:induction false} SinglesBound(outs: seq<Output>)
    ensures Singles(outs) <= |outs|
    ensures Singles(outs) == |outs| <==> forall i :: 0 <= i < |outs| ==> SingleAddress(outs[i].out)
  {
    if outs != [] {
      var rest := outs[..|outs| - 1];
      SinglesBound(rest);
      assert forall i :: 0 <= i < |rest| ==> rest[i] == outs[i];
    }
  }

  /** An output either fails, or emits exactly when it has a single address, describing that output. */
  lemma OutputStepDescribes(cfg: Config, kind: TxType, metaType: MetaType, chain: string, out: Output, coin: UtxoId)
    ensures var step := OneOutput(cfg, kind, metaType, chain, out.out, out.asset, coin);
      && (!step.Fail? ==> (step.Emit? <==> SingleAddress(out.out)))
      && (step.Emit? && !cfg.construction ==> Describes(step.op, cfg, kind, metaType, chain, out.asset, out.out, coin))
  {
    if PlainOut(out.out).Some? {
      assert Addresses(out.out) == PlainOut(out.out).value.addrs by {
        match out.out
        case LockOut(_, inner) => assert Addresses(inner) == inner.out.addrs;
        case _ =>
      }
    }
  }

  lemma {:induction false} EmittingIsSingles(cfg: Config, kind: TxType, metaType: MetaType, chain: string, txId: Id,
                                            offset: nat, outs: seq<Output>)
    requires EmitAll(OutputStep(cfg, kind, metaType, chain, txId, offset), outs).error.None?
    ensures Emitting(OutputStep(cfg, kind, metaType, chain, txId, offset), outs) == Singles(outs)
  {
    if outs != [] {
      var n := |outs| - 1;
      EmittingIsSingles(cfg, kind, metaType, chain, txId, offset, outs[..n]);
      OutputStepDescribes(cfg, kind, metaType, chain, outs[n], OutKey(txId, offset + n));
    }
  }

  /** The amount is so much of the asset, in the currency it is known by. */
  predicate Amounts(amount: Option<Amount>, cfg: Config, asset: Id, value: int) {
    && amount.Some? && amount.value.value == value
    && if asset == cfg.avaxAsset then amount.value.currency == AtomicAvax
       else asset in cfg.assets && amount.value.currency == cfg.assets[asset]
  }

  /** The operation of a block says everything about this output: its only address, amount and asset, its own locktime and
      threshold, and the given coin. A lock around it leaves no trace. */
  predicate Describes(op: POperation, cfg: Config, kind: TxType, metaType: MetaType, chain: string, asset: Id, out: Out, coin: UtxoId) {
    match out
    case Transfer(o) => DescribesTransfer(op, cfg, kind, metaType, chain, asset, o, coin)
    case LockOut(_, Transfer(o)) => DescribesTransfer(op, cfg, kind, metaType, chain, asset, o, coin)
    case _ => false
  }

  predicate DescribesTransfer(op: POperation, cfg: Config, kind: TxType, metaType: MetaType, chain: string, asset: Id,
                              o: TransferOutput, coin: UtxoId) {
    && op.kind == kind && op.status == Success && op.related == []
    && |o.addrs| == 1 && op.account == Some(Bech32(chain, cfg.hrp, o.addrs[0]))
    && Amounts(op.amount, cfg, asset, Int64(o.amount))
    && op.coinChange == Some(CoinChange(coin, CoinCreated))
    && op.metadata == OpMeta(metaType, None, o.locktime, o.threshold)
  }

  /** The k-th single-address output gives the k-th operation, named by its place among all the outputs. */
  lemma {:induction false} OutputsDescribed(cfg: Config, kind: TxType, metaType: MetaType, chain: string, txId: Id,
                                            offset: nat, outs: seq<Output>, i: nat)
    requires !cfg.construction
    requires EmitAll(OutputStep(cfg, kind, metaType, chain, txId, offset), outs).error.None?
    requires i < |outs| && SingleAddress(outs[i].out)
    ensures var ops := EmitAll(OutputStep(cfg, kind, metaType, chain, txId, offset), outs).ops;
      && |ops| == Singles(outs) && Singles(outs[..i]) < |ops|
      && Describes(ops[Singles(outs[..i])], cfg, kind, metaType, chain, outs[i].asset, outs[i].out, OutKey(txId, offset + i))
  {
    hide OneOutput, Describes;
    var step := OutputStep(cfg, kind, metaType, chain, txId, offset);
    EmittedInOrder(step, outs);
    OutputStepDescribes(cfg, kind, metaType, chain, outs[i], OutKey(txId, offset + i));
    EmittingIsSingles(cfg, kind, metaType, chain, txId, offset, outs);
    PrefixSucceeds(step, outs, i);
    EmittingIsSingles(cfg, kind, metaType, chain, txId, offset, outs[..i]);
  }

  lemma PrefixSucceeds<T, O, E>(step: (T, nat) -> Step<O, E>, items: seq<T>, k: nat)
    requires k <= |items| && EmitAll(step, items).error.None?
    ensures EmitAll(step, items[..k]).error.None?
  {
    if EmitAll(step, items[..k]).error.Some? {
      FailureStays(step, items, k);
    }
  }

  /** The base outputs of a transaction that has any. */
  function BaseOuts(unsigned: UnsignedTx): seq<Output> {
    match unsigned
    case SpendTx(_, _, outs) => outs
    case StakeTx(_, _, outs, _, _) => outs
    case ImportTx(_, outs, _) => outs
    case ExportTx(_, outs, _, _) => outs
    case _ => []
  }

  function TypeOf(unsigned: UnsignedTx): TxType {
    match unsigned
    case SpendTx(kind, _, _) => Spending(kind)
    case StakeTx(kind, _, _, _, _) => Staking(kind)
    case ImportTx(_, _, _) => ImportAvax
    case ExportTx(_, _, _, _) => ExportAvax
    case _ => RewardValidator
  }

  /** In a block, whatever the type, the base outputs are collected first, under the numbers from zero. */
  lemma BaseOutsCollected(ctx: Context, tx: Tx)
    requires !ctx.cfg.construction && ParseBuckets(ctx, tx).Ok? && BaseOuts(tx.unsigned) != []
    ensures var outs, b := BaseOuts(tx.unsigned), ParseBuckets(ctx, tx).value;
      var e := EmitAll(OutputStep(ctx.cfg, TypeOf(tx.unsigned), OutputType, "P", tx.id, 0), outs);
      e.error.None? && b.outs == Indexed(e.ops, |b.ins|)
  {
    hide EmitAll;
  }

  /** Main result: in a block every operation of a base output names the UTXO under which the dependency index files
      that output, and every base output with a single address has its operation. */
  lemma BaseCoinsMatchUtxos(ctx: Context, tx: Tx, rewards: seq<Utxo>, i: nat)
    requires !ctx.cfg.construction && ParseBuckets(ctx, tx).Ok?
    requires |OutsToAdd(tx.unsigned)| <= TWO_32
    requires i < |BaseOuts(tx.unsigned)| && SingleAddress(BaseOuts(tx.unsigned)[i].out)
    ensures var outs, b := BaseOuts(tx.unsigned), ParseBuckets(ctx, tx).value;
      && |b.outs| == Singles(outs) && Singles(outs[..i]) < |b.outs|
      && Describes(b.outs[Singles(outs[..i])], ctx.cfg, TypeOf(tx.unsigned), OutputType, "P", outs[i].asset, outs[i].out, OutKey(tx.id, i))
    ensures var utxos := UtxosOf(Dep(Some(tx), rewards));
      && OutKey(tx.id, i) in utxos
      && utxos[OutKey(tx.id, i)] == Utxo(OutKey(tx.id, i), BaseOuts(tx.unsigned)[i].asset, BaseOuts(tx.unsigned)[i].out)
  {
    hide ParseBuckets, UtxosOf;
    var outs, b := BaseOuts(tx.unsigned), ParseBuckets(ctx, tx).value;
    BaseOutsCollected(ctx, tx);
    OutputsDescribed(ctx.cfg, TypeOf(tx.unsigned), OutputType, "P", tx.id, 0, outs, i);
    OutsAreNumbered(tx, rewards, i);
  }

  lemma StakeOutsCollected(ctx: Context, tx: Tx)
    requires !ctx.cfg.construction && tx.unsigned.StakeTx? && ParseBuckets(ctx, tx).Ok?
    ensures var b, kind := ParseBuckets(ctx, tx).value, Staking(tx.unsigned.stakeKind);
      var e := EmitAll(OutputStep(ctx.cfg, kind, StakeType, "P", tx.id, |b.outs|), tx.unsigned.stake);
      && e.error.None? && b.stakeOuts == Indexed(e.ops, |b.ins| + |b.outs|)
      && |b.outs| == Singles(tx.unsigned.outs)
  {
    var kind := Staking(tx.unsigned.stakeKind);
    var step := OutputStep(ctx.cfg, kind, OutputType, "P", tx.id, 0);
    var e := EmitAll(step, tx.unsigned.outs);
    StakeBuckets(ctx, tx);
    EmittedInOrder(step, tx.unsigned.outs);
    EmittingIsSingles(ctx.cfg, kind, OutputType, "P", tx.id, 0, tx.unsigned.outs);
    hide EmitAll, ParseBuckets;
  }

  lemma StakeBuckets(ctx: Context, tx: Tx)
    requires !ctx.cfg.construction && tx.unsigned.StakeTx? && ParseBuckets(ctx, tx).Ok?
    ensures var b, kind := ParseBuckets(ctx, tx).value, Staking(tx.unsigned.stakeKind);
      var base := EmitAll(OutputStep(ctx.cfg, kind, OutputType, "P", tx.id, 0), tx.unsigned.outs);
      var e := EmitAll(OutputStep(ctx.cfg, kind, StakeType, "P", tx.id, |b.outs|), tx.unsigned.stake);
      && base.error.None? && |b.outs| == |base.ops|
      && e.error.None? && b.stakeOuts == Indexed(e.ops, |b.ins| + |b.outs|)
  {
    hide EmitAll;
  }

  /** The operation of a stake output is numbered after the base outputs that gave operations, not after all of them. */
  lemma StakeCoinsShifted(ctx: Context, tx: Tx, j: nat)
    requires !ctx.cfg.construction && tx.unsigned.StakeTx? && ParseBuckets(ctx, tx).Ok?
    requires j < |tx.unsigned.stake| && SingleAddress(tx.unsigned.stake[j].out)
    ensures var b, stake := ParseBuckets(ctx, tx).value, tx.unsigned.stake;
      && |b.stakeOuts| == Singles(stake) && Singles(stake[..j]) < |b.stakeOuts|
      && Describes(b.stakeOuts[Singles(stake[..j])], ctx.cfg, Staking(tx.unsigned.stakeKind), StakeType, "P",
                   stake[j].asset, stake[j].out, OutKey(tx.id, Singles(tx.unsigned.outs) + j))
  {
    hide ParseBuckets;
    StakeOutsCollected(ctx, tx);
    OutputsDescribed(ctx.cfg, Staking(tx.unsigned.stakeKind), StakeType, "P", tx.id,
                     |ParseBuckets(ctx, tx).value.outs|, tx.unsigned.stake, j);
  }

  /** Main result: a stake operation names the UTXO of its output exactly when every base output has a single address. */
  lemma StakeCoinsMatchUtxosIff(ctx: Context, tx: Tx, rewards: seq<Utxo>, j: nat)
    requires !ctx.cfg.construction && tx.unsigned.StakeTx? && ParseBuckets(ctx, tx).Ok?
    requires |OutsToAdd(tx.unsigned)| <= TWO_32
    requires j < |tx.unsigned.stake| && SingleAddress(tx.unsigned.stake[j].out)
    ensures var b, outs, stake := ParseBuckets(ctx, tx).value, tx.unsigned.outs, tx.unsigned.stake;
      var filed := OutKey(tx.id, |outs| + j);
      && filed in UtxosOf(Dep(Some(tx), rewards))
      && UtxosOf(Dep(Some(tx), rewards))[filed].out == stake[j].out
      && Singles(stake[..j]) < |b.stakeOuts|
      && ((b.stakeOuts[Singles(stake[..j])].coinChange == Some(CoinChange(filed, CoinCreated)))
          <==> (forall i :: 0 <= i < |outs| ==> SingleAddress(outs[i].out)))
  {
    hide ParseBuckets, UtxosOf;
    StakeCoinsShifted(ctx, tx, j);
    OutsAreNumbered(tx, rewards, |tx.unsigned.outs| + j);
    SinglesBound(tx.unsigned.outs);
  }

  lemma ExportBuckets(ctx: Context, tx: Tx)
    requires !ctx.cfg.construction && tx.unsigned.ExportTx? && ParseBuckets(ctx, tx).Ok?
    ensures tx.unsigned.destination in ctx.cfg.chains
    ensures var b, chain := ParseBuckets(ctx, tx).value, ctx.cfg.chains[tx.unsigned.destination];
      var base := EmitAll(OutputStep(ctx.cfg, ExportAvax, OutputType, "P", tx.id, 0), tx.unsigned.outs);
      var e := EmitAll(OutputStep(ctx.cfg, ExportAvax, ExportType, chain, tx.id, |b.outs|), tx.unsigned.exported);
      base.error.None? && |b.outs| == |base.ops| && e.error.None? && b.exportOuts == e.ops
  {
    hide EmitAll;
  }

  /** The operation of an exported output is numbered after the base outputs that gave operations, too. The node numbers
      the coin it creates on the other chain after all base outputs, so the two are the same coin exactly when every
      base output has a single address. */
  lemma ExportCoinsShiftedIff(ctx: Context, tx: Tx, j: nat)
    requires !ctx.cfg.construction && tx.unsigned.ExportTx? && ParseBuckets(ctx, tx).Ok?
    requires |tx.unsigned.outs| + |tx.unsigned.exported| <= TWO_32
    requires j < |tx.unsigned.exported| && SingleAddress(tx.unsigned.exported[j].out)
    ensures var b, outs, exported := ParseBuckets(ctx, tx).value, tx.unsigned.outs, tx.unsigned.exported;
      && |b.exportOuts| == Singles(exported) && Singles(exported[..j]) < |b.exportOuts|
      && tx.unsigned.destination in ctx.cfg.chains
      && Describes(b.exportOuts[Singles(exported[..j])], ctx.cfg, ExportAvax, ExportType, ctx.cfg.chains[tx.unsigned.destination],
                   exported[j].asset, exported[j].out, OutKey(tx.id, Singles(outs) + j))
      && ((b.exportOuts[Singles(exported[..j])].coinChange == Some(CoinChange(OutKey(tx.id, |outs| + j), CoinCreated)))
          <==> (forall i :: 0 <= i < |outs| ==> SingleAddress(outs[i].out)))
  {
    hide ParseBuckets, EmitAll;
    ExportBuckets(ctx, tx);
    var chain := ctx.cfg.chains[tx.unsigned.destination];
    var step := OutputStep(ctx.cfg, ExportAvax, OutputType, "P", tx.id, 0);
    EmittedInOrder(step, tx.unsigned.outs);
    EmittingIsSingles(ctx.cfg, ExportAvax, OutputType, "P", tx.id, 0, tx.unsigned.outs);
    SinglesBound(tx.unsigned.outs);
    OutputsDescribed(ctx.cfg, ExportAvax, ExportType, chain, tx.id, |ParseBuckets(ctx, tx).value.outs|, tx.unsigned.exported, j);
  }

  lemma OneTurn<T, O, E>(step: (T, nat) -> Step<O, E>, item: T)
    requires !step(item, 0).Fail?
    ensures EmitAll(step, [item]) == Emission(if step(item, 0).Emit? then [step(item, 0).op] else [], None)
  {
    assert [item][..0] == [];
  }

  // ----- accounts of spent UTXOs -----

  /** The dependency shows a UTXO with this id, or is of a kind that creates UTXOs it does not show. */
  ghost predicate Explains(dep: Dep, id: UtxoId) {
    || (exists u :: Shows(dep, id, u))
    || (dep.tx.Some? && dep.tx.value.unsigned.SpendTx? &&
          (dep.tx.value.unsigned.kind == DisableL1Validator || dep.tx.value.unsigned.kind == SetL1ValidatorWeight))
  }

  ghost predicate Resolvable(deps: Dependencies, id: UtxoId) {
    id.txId in deps && Explains(deps[id.txId], id)
  }

  /** The transaction the id names left u under it. */
  ghost predicate Origin(deps: Dependencies, id: UtxoId, u: Utxo) {
    id.txId in deps && Shows(deps[id.txId], id, u)
  }

  ghost predicate SpendsSingle(deps: Dependencies, id: UtxoId) {
    exists u :: Origin(deps, id, u) && SingleAddress(u.out)
  }

  lemma OriginIff(deps: Dependencies, id: UtxoId)
    requires id.txId in deps
    ensures Resolvable(deps, id) <==> id in UtxosOf(deps[id.txId]) || CreatesHiddenUtxos(deps[id.txId])
    ensures id in UtxosOf(deps[id.txId]) ==> forall u :: Origin(deps, id, u) <==> u == UtxosOf(deps[id.txId])[id]
    ensures SpendsSingle(deps, id) <==> id in UtxosOf(deps[id.txId]) && SingleAddress(UtxosOf(deps[id.txId])[id].out)
  {
    hide Shows, UtxosOf, SingleAddress;
    ShownIff(deps[id.txId], id);
    if id in UtxosOf(deps[id.txId]) {
      assert Origin(deps, id, UtxosOf(deps[id.txId])[id]);
    }
  }

  /** A block is parsed with the accounts that its own dependencies refer to. */
  ghost predicate BlockContext(ctx: Context) {
    && !ctx.cfg.construction && ctx.deps.Some?
    && AllAddressable(ctx.deps.value)
    && AreReferencedAccounts(ctx.cfg.hrp, ctx.deps.value, ctx.accounts)
  }

  /** A transfer, or one inside a single lock. */
  predicate KnownIn(i: In) {
    i.TransferIn? || (i.LockIn? && i.inner.TransferIn?)
  }

  predicate KnownOut(out: Out) {
    out.Transfer? || (out.LockOut? && out.inner.Transfer?)
  }

  predicate KnownAsset(cfg: Config, asset: Id) {
    asset == cfg.avaxAsset || asset in cfg.assets
  }

  /** Nothing about the input stops a block from being parsed: it is of a known shape, its origin shows it, and it is of
      a known asset when it gives an operation. */
  ghost predicate ReadsWell(ctx: Context, input: Input)
    requires ctx.deps.Some?
  {
    && KnownIn(input.in_) && Resolvable(ctx.deps.value, input.utxo)
    && (SpendsSingle(ctx.deps.value, input.utxo) ==> KnownAsset(ctx.cfg, input.asset))
  }

  /** The accounts and the multisig check draw the same line: no input passes the one and fails the other, and the check
      fails exactly on inputs whose origin does not show them. */
  lemma InputResolves(ctx: Context, kind: TxType, metaType: MetaType, input: Input)
    requires BlockContext(ctx) && metaType != ImportType
    ensures OneInput(ctx, kind, metaType, input) != Fail(NoMatchingInputAddresses)
    ensures OneInput(ctx, kind, metaType, input) == Fail(FailedToCheckMultisig) <==>
      KnownIn(input.in_) && !Resolvable(ctx.deps.value, input.utxo)
    ensures OneInput(ctx, kind, metaType, input).Fail? <==> !ReadsWell(ctx, input)
    ensures OneInput(ctx, kind, metaType, input).Emit? <==>
      KnownIn(input.in_) && SpendsSingle(ctx.deps.value, input.utxo) && KnownAsset(ctx.cfg, input.asset)
  {
    hide IsMultisig, BuildAmount, InputOp, Resolvable, SpendsSingle, AllAddressable, AreReferencedAccounts;
    MultisigLine(ctx, input.utxo);
    AmountErrors(ctx.cfg, -(InAmount(input.in_) as int), input.asset);
  }

  lemma NoOrigin(deps: Dependencies, id: UtxoId)
    requires id.txId !in deps
    ensures !Resolvable(deps, id) && !SpendsSingle(deps, id)
  {
  }

  /** The multisig check tells resolvable UTXOs, and lets through exactly those with an account. */
  lemma MultisigLine(ctx: Context, id: UtxoId)
    requires BlockContext(ctx)
    ensures IsMultisig(ctx.deps.value, id).Err? <==> !Resolvable(ctx.deps.value, id)
    ensures IsMultisig(ctx.deps.value, id) == Ok(false) <==> SpendsSingle(ctx.deps.value, id)
    ensures SpendsSingle(ctx.deps.value, id) ==> id in ctx.accounts
  {
    hide UtxosOf, CreatesHiddenUtxos, Shows, Resolvable, SpendsSingle;
    var deps := ctx.deps.value;
    if id.txId !in deps {
      NoOrigin(deps, id);
    } else {
      OriginIff(deps, id);
      if id in UtxosOf(deps[id.txId]) {
        UtxosByIds(deps[id.txId]);
        HoldsIff(deps, id.txId, UtxosOf(deps[id.txId])[id]);
      }
    }
  }

  lemma AmountErrors(cfg: Config, value: int, asset: Id)
    ensures !cfg.construction ==> (BuildAmount(cfg, value, asset).Ok? <==> KnownAsset(cfg, asset))
    ensures BuildAmount(cfg, value, asset).Err? ==> !AboutAccounts(BuildAmount(cfg, value, asset).error)
  {
  }

  ghost function SinglesSpent(deps: Dependencies, ins: seq<Input>): nat {
    if ins == [] then 0
    else SinglesSpent(deps, ins[..|ins| - 1]) + if SpendsSingle(deps, ins[|ins| - 1].utxo) then 1 else 0
  }

  lemma {:induction false} EmittingIsSinglesSpent(ctx: Context, kind: TxType, metaType: MetaType, ins: seq<Input>)
    requires BlockContext(ctx) && metaType != ImportType
    requires forall input <- ins :: ReadsWell(ctx, input)
    ensures Emitting(InputStep(ctx, kind, metaType), ins) == SinglesSpent(ctx.deps.value, ins)
  {
    if ins != [] {
      EmittingIsSinglesSpent(ctx, kind, metaType, ins[..|ins| - 1]);
      assert ins[|ins| - 1] in ins;
      InputResolves(ctx, kind, metaType, ins[|ins| - 1]);
    }
  }

  /** Main result: the inputs of a block transaction are read without error exactly when nothing stops any of them, and
      then there is one operation for each input whose UTXO has a single address. */
  lemma InputsResolve(ctx: Context, kind: TxType, metaType: MetaType, ins: seq<Input>)
    requires BlockContext(ctx) && metaType != ImportType
    ensures var e := EmitAll(InputStep(ctx, kind, metaType), ins);
      && (e.error.None? <==> forall input <- ins :: ReadsWell(ctx, input))
      && (e.error.None? ==> |e.ops| == SinglesSpent(ctx.deps.value, ins))
  {
    hide OneInput, ReadsWell, SpendsSingle, EmitAll, SinglesSpent;
    var step := InputStep(ctx, kind, metaType);
    FailsIff(step, ins);
    forall i | 0 <= i < |ins| ensures step(ins[i], i).Fail? <==> !ReadsWell(ctx, ins[i]) {
      InputResolves(ctx, kind, metaType, ins[i]);
    }
    if EmitAll(step, ins).error.None? {
      forall input | input in ins ensures ReadsWell(ctx, input) {
        var i :| 0 <= i < |ins| && ins[i] == input;
        assert !step(ins[i], i).Fail?;
      }
      EmittedInOrder(step, ins);
      EmittingIsSinglesSpent(ctx, kind, metaType, ins);
    }
  }

  // ----- errors about accounts over a whole parse -----

  predicate AboutAccounts(e: ParseError) {
    e == NoMatchingInputAddresses || e == FailedToCheckMultisig
  }

  /** The first input that stops the parse stops it because its origin does not show it. */
  ghost predicate LosesOrigin(ctx: Context, ins: seq<Input>, i: nat)
    requires ctx.deps.Some? && i < |ins|
  {
    && KnownIn(ins[i].in_) && !Resolvable(ctx.deps.value, ins[i].utxo)
    && forall j :: 0 <= j < i ==> ReadsWell(ctx, ins[j])
  }

  lemma BaseInputErrors(ctx: Context, kind: TxType, ins: seq<Input>)
    requires BlockContext(ctx)
    ensures var error := EmitAll(InputStep(ctx, kind, InputType), ins).error;
      && error != Some(NoMatchingInputAddresses)
      && (error == Some(FailedToCheckMultisig) <==> exists i :: 0 <= i < |ins| && LosesOrigin(ctx, ins, i))
  {
    hide OneInput, ReadsWell, Resolvable, EmitAll, AllAddressable, AreReferencedAccounts;
    var step := InputStep(ctx, kind, InputType);
    forall i | 0 <= i < |ins|
      ensures step(ins[i], i).Fail? <==> !ReadsWell(ctx, ins[i])
      ensures step(ins[i], i) != Fail(NoMatchingInputAddresses)
      ensures step(ins[i], i) == Fail(FailedToCheckMultisig) <==>
        KnownIn(ins[i].in_) && !Resolvable(ctx.deps.value, ins[i].utxo)
    {
      InputResolves(ctx, kind, InputType, ins[i]);
    }
    var error := EmitAll(step, ins).error;
    if error.Some? {
      ErrorHasFirst(step, ins);
      var i: nat :| i < |ins| && FailsFirst(step, ins, i, error.value);
      assert error.value == FailedToCheckMultisig ==> LosesOrigin(ctx, ins, i);
    }
    if i: nat :| i < |ins| && LosesOrigin(ctx, ins, i) {
      FirstFailureGiven(step, ins, i, FailedToCheckMultisig);
    }
  }

  /** Imported inputs of a block are not looked up at all. */
  lemma ImportedInputErrors(ctx: Context, kind: TxType, ins: seq<Input>)
    requires !ctx.cfg.construction
    ensures var error := EmitAll(InputStep(ctx, kind, ImportType), ins).error;
      error.Some? ==> !AboutAccounts(error.value)
  {
    hide EmitAll;
    var step := InputStep(ctx, kind, ImportType);
    if EmitAll(step, ins).error.Some? {
      ErrorHasFirst(step, ins);
    }
  }

  lemma OneOutputErrors(cfg: Config, kind: TxType, metaType: MetaType, chain: string, out: Out, asset: Id, coin: UtxoId)
    ensures var step := OneOutput(cfg, kind, metaType, chain, out, asset, coin);
      step.Fail? ==> !AboutAccounts(step.error)
  {
  }

  lemma OutputErrors(cfg: Config, kind: TxType, metaType: MetaType, chain: string, txId: Id, offset: nat, outs: seq<Output>)
    ensures var error := EmitAll(OutputStep(cfg, kind, metaType, chain, txId, offset), outs).error;
      error.Some? ==> !AboutAccounts(error.value)
  {
    hide EmitAll;
    var step := OutputStep(cfg, kind, metaType, chain, txId, offset);
    if EmitAll(step, outs).error.Some? {
      ErrorHasFirst(step, outs);
      var i: nat :| i < |outs| && FailsFirst(step, outs, i, EmitAll(step, outs).error.value);
      OneOutputErrors(cfg, kind, metaType, chain, outs[i].out, outs[i].asset, OutKey(txId, offset + i));
    }
  }

  lemma RewardErrors(ctx: Context, stakingTx: Id)
    ensures RewardBuckets(ctx, stakingTx).Err? ==> !AboutAccounts(RewardBuckets(ctx, stakingTx).error)
  {
    hide EmitAll;
    if ctx.deps.Some? && stakingTx in ctx.deps.value {
      var step, rewards := UtxoStep(ctx.cfg, RewardValidator, RewardType, "P"), ctx.deps.value[stakingTx].rewards;
      if EmitAll(step, rewards).error.Some? {
        ErrorHasFirst(step, rewards);
        var i: nat :| i < |rewards| && FailsFirst(step, rewards, i, EmitAll(step, rewards).error.value);
        OneOutputErrors(ctx.cfg, RewardValidator, RewardType, "P", rewards[i].out, rewards[i].asset, rewards[i].id);
      }
    }
  }

  /** Whatever the type, an error about accounts is one of the loop over the base inputs. */
  lemma AccountErrorsAreOfInputs(ctx: Context, tx: Tx)
    requires !ctx.cfg.construction
    ensures var c := ParseBuckets(ctx, tx);
      var error := EmitAll(InputStep(ctx, TypeOf(tx.unsigned), InputType), BaseIns(tx.unsigned)).error;
      && (error.Some? ==> c == Err(error.value))
      && (error.None? && c.Err? ==> !AboutAccounts(c.error))
  {
    hide EmitAll, RewardBuckets, AboutAccounts, Into;
    match tx.unsigned {
      case SpendTx(kind, ins, outs) => BaseErrors(ctx, Spending(kind), tx.id, ins, outs);
      case StakeTx(kind, ins, outs, stake, _) =>
        var c := BaseBuckets(ctx, Staking(kind), tx.id, ins, outs);
        BaseErrors(ctx, Staking(kind), tx.id, ins, outs);
        hide BaseBuckets;
        MoreOutputErrors(ctx, c, Staking(kind), tx.id, stake, StakeType, "P");
      case ImportTx(ins, outs, imported) =>
        var c := AddInputs(ctx, AddInputs(ctx, Ok(EMPTY), ImportAvax, ins, InputType), ImportAvax, imported, ImportType);
        ImportedInputErrors(ctx, ImportAvax, imported);
        MoreOutputErrors(ctx, c, ImportAvax, tx.id, outs, OutputType, "P");
      case ExportTx(ins, outs, destination, exported) =>
        var c := BaseBuckets(ctx, ExportAvax, tx.id, ins, outs);
        BaseErrors(ctx, ExportAvax, tx.id, ins, outs);
        hide BaseBuckets;
        assert !AboutAccounts(UnknownDestinationChain) by { DestinationError(); }
        if destination in ctx.cfg.chains {
          MoreOutputErrors(ctx, c, ExportAvax, tx.id, exported, ExportType, ctx.cfg.chains[destination]);
        }
      case RewardTx(stakingTx) =>
        NoTurn(InputStep(ctx, RewardValidator, InputType));
        RewardErrors(ctx, stakingTx);
      case _ => NoTurn(InputStep(ctx, RewardValidator, InputType));
    }
  }

  lemma DestinationError()
    ensures !AboutAccounts(UnknownDestinationChain)
  {
  }

  lemma MoreOutputErrors(ctx: Context, c: Collected, kind: TxType, txId: Id, outs: seq<Output>, metaType: MetaType, chain: string)
    ensures var all := AddOutputs(ctx.cfg, c, kind, txId, outs, metaType, chain);
      (c.Err? ==> all == c) && (c.Ok? && all.Err? ==> !AboutAccounts(all.error))
  {
    if c.Ok? {
      OutputErrors(ctx.cfg, kind, metaType, chain, txId, c.value.OutputLen(), outs);
    }
  }

  lemma BaseErrors(ctx: Context, kind: TxType, txId: Id, ins: seq<Input>, outs: seq<Output>)
    ensures var c := BaseBuckets(ctx, kind, txId, ins, outs);
      var error := EmitAll(InputStep(ctx, kind, InputType), ins).error;
      && (error.Some? ==> c == Err(error.value))
      && (error.None? && c.Err? ==> !AboutAccounts(c.error))
  {
    hide EmitAll, AboutAccounts, Into;
    MoreOutputErrors(ctx, AddInputs(ctx, Ok(EMPTY), kind, ins, InputType), kind, txId, outs, OutputType, "P");
  }

  /** Main result: parsing a transaction of a block never fails for a missing account, whatever its type; and it fails in
      the multisig check exactly when the first base input that stops it is one whose origin does not show it. */
  lemma ParseAccountErrors(ctx: Context, tx: Tx)
    requires BlockContext(ctx)
    ensures ParseTx(ctx, tx) != Err(NoMatchingInputAddresses)
    ensures ParseTx(ctx, tx) == Err(FailedToCheckMultisig) <==>
      exists i :: 0 <= i < |BaseIns(tx.unsigned)| && LosesOrigin(ctx, BaseIns(tx.unsigned), i)
    ensures (forall i :: 0 <= i < |BaseIns(tx.unsigned)| ==> Resolvable(ctx.deps.value, BaseIns(tx.unsigned)[i].utxo)) ==>
      ParseTx(ctx, tx).Ok? || !AboutAccounts(ParseTx(ctx, tx).error)
  {
    hide EmitAll, ParseBuckets, Resolvable, ReadsWell;
    BaseInputErrors(ctx, TypeOf(tx.unsigned), BaseIns(tx.unsigned));
    AccountErrorsAreOfInputs(ctx, tx);
  }

  // ----- a delegation of shared funds -----

  function SharedOut(asset: Id, amount: uint64, owner: ShortId, second: ShortId): Output {
    Output(asset, Transfer(TransferOutput(amount, 0, 2, [owner, second])))
  }

  /** What a block knows of the one transaction it depends on, which left 12 to two owners. */
  function SharedFunds(cfg: Config, origin: Id, owner: ShortId, second: ShortId): Context {
    var funding := Tx(origin, SpendTx(Base, [], [SharedOut(cfg.avaxAsset, 12, owner, second)]));
    Context(cfg, map[], Some(map[origin := Dep(Some(funding), [])]))
  }

  lemma SharedFundsHold(cfg: Config, origin: Id, owner: ShortId, second: ShortId)
    requires !cfg.construction
    ensures var ctx := SharedFunds(cfg, origin, owner, second);
      BlockContext(ctx) && IsMultisig(ctx.deps.value, OutKey(origin, 0)) == Ok(true)
  {
    var out := SharedOut(cfg.avaxAsset, 12, owner, second);
    var deps := SharedFunds(cfg, origin, owner, second).deps.value;
    assert UtxosOf(deps[origin]) == map[OutKey(origin, 0) := OutUtxo(origin, [out], 0)] by {
      assert AddOuts(map[], origin, [out], 0) == map[];
    }
    forall k, u | Holds(deps, k, u) ensures u == OutUtxo(origin, [out], 0) {
      HoldsIff(deps, k, u);
    }
  }

  /** These two owners delegate 7 of it and keep 5 as shared change. */
  function SharedDelegation(asset: Id, origin: Id, id: Id, owner: ShortId, second: ShortId): Tx {
    Tx(id, StakeTx(AddDelegator,
                   [Input(OutKey(origin, 0), asset, TransferIn(12, [0, 1]))],
                   [SharedOut(asset, 5, owner, second)],
                   [Output(asset, Transfer(TransferOutput(7, 0, 1, [owner])))], 7))
  }

  /** The parser leaves out the shared input and the shared change, and its stake operation names the UTXO of the change. */
  lemma SharedChangeShiftsStake(cfg: Config, origin: Id, id: Id, owner: ShortId, second: ShortId)
    requires !cfg.construction && origin != id && owner != second
    ensures var ctx, tx := SharedFunds(cfg, origin, owner, second), SharedDelegation(cfg.avaxAsset, origin, id, owner, second);
      && BlockContext(ctx) && ParseBuckets(ctx, tx).Ok?
      && |ParseBuckets(ctx, tx).value.stakeOuts| == 1
      && ParseBuckets(ctx, tx).value.stakeOuts[0].coinChange == Some(CoinChange(OutKey(id, 0), CoinCreated))
      && var utxos := UtxosOf(Dep(Some(tx), []));
      && OutKey(id, 0) in utxos && utxos[OutKey(id, 0)].out == tx.unsigned.outs[0].out
      && OutKey(id, 1) in utxos && utxos[OutKey(id, 1)].out == tx.unsigned.stake[0].out
  {
    var ctx, tx := SharedFunds(cfg, origin, owner, second), SharedDelegation(cfg.avaxAsset, origin, id, owner, second);
    assert ctx.cfg == cfg && ctx.deps.Some?;
    SharedFundsHold(cfg, origin, owner, second);
    hide BlockContext, IsMultisig, SharedFunds, UtxosOf, AddOuts, EmitAll;
    OneTurn(InputStep(ctx, Staking(AddDelegator), InputType), tx.unsigned.ins[0]);
    IntoNothing(EMPTY, false, InputType);
    IntoNothing(EMPTY, false, OutputType);
    assert AddInputs(ctx, Ok(EMPTY), Staking(AddDelegator), tx.unsigned.ins, InputType) == Ok(EMPTY);
    OneTurn(OutputStep(cfg, Staking(AddDelegator), OutputType, "P", id, 0), tx.unsigned.outs[0]);
    assert BaseBuckets(ctx, Staking(AddDelegator), id, tx.unsigned.ins, tx.unsigned.outs) == Ok(EMPTY);
    hide BaseBuckets, AddInputs, OneInput;
    OneTurn(OutputStep(cfg, Staking(AddDelegator), StakeType, "P", id, 0), tx.unsigned.stake[0]);
    SharedDelegationOuts(cfg.avaxAsset, origin, id, owner, second);
  }

  lemma SharedDelegationOuts(asset: Id, origin: Id, id: Id, owner: ShortId, second: ShortId)
    ensures var tx := SharedDelegation(asset, origin, id, owner, second);
      var utxos := UtxosOf(Dep(Some(tx), []));
      && OutKey(id, 0) in utxos && utxos[OutKey(id, 0)].out == tx.unsigned.outs[0].out
      && OutKey(id, 1) in utxos && utxos[OutKey(id, 1)].out == tx.unsigned.stake[0].out
  {
    hide UtxosOf;
    var tx := SharedDelegation(asset, origin, id, owner, second);
    OutsAreNumbered(tx, [], 0);
    OutsAreNumbered(tx, [], 1);
  }

  /** Each dependency is filed under its own id and its rewards belong to it, as the block backend fetches them. */
  ghost predicate OwnIds(deps: Dependencies) {
    forall k <- deps :: deps[k].tx.Some? && deps[k].tx.value.id == k && forall r <- deps[k].rewards :: r.id.txId == k
  }

  lemma HeldByOwner(deps: Dependencies, k: Id, u: Utxo)
    requires OwnIds(deps) && Holds(deps, k, u)
    ensures u.id.txId == k
  {
    var dep := deps[k];
    HoldsIff(deps, k, u);
    RewardMapByIds(dep.rewards);
    var outs := OutsToAdd(dep.tx.value.unsigned);
    AddOutsByIds(RewardMap(dep.rewards), k, outs, |outs|);
  }

  /** The operation of a block says everything about this input: the coin it spends, its amount and asset, the locktime
      around it and who signs, on the given account. */
  predicate DescribesInput(op: POperation, cfg: Config, kind: TxType, metaType: MetaType, input: Input, account: Option<Account>) {
    match input.in_
    case TransferIn(amount, sigIndices) => DescribesSpend(op, cfg, kind, metaType, input, account, amount, sigIndices, 0)
    case LockIn(locktime, TransferIn(amount, sigIndices)) =>
      DescribesSpend(op, cfg, kind, metaType, input, account, amount, sigIndices, locktime)
    case _ => false
  }

  predicate DescribesSpend(op: POperation, cfg: Config, kind: TxType, metaType: MetaType, input: Input, account: Option<Account>,
                           amount: uint64, sigIndices: seq<uint32>, locktime: uint64) {
    && op.kind == kind && op.status == Success && op.related == [] && op.account == account
    && Amounts(op.amount, cfg, input.asset, -(amount as int))
    && op.coinChange == Some(CoinChange(input.utxo, CoinSpent))
    && op.metadata == OpMeta(metaType, if sigIndices == [] then None else Some(sigIndices), locktime, 0)
  }

  lemma EmitDescribes(ctx: Context, kind: TxType, metaType: MetaType, input: Input)
    requires !ctx.cfg.construction && OneInput(ctx, kind, metaType, input).Emit?
    requires metaType != ImportType ==> input.utxo in ctx.accounts
    ensures DescribesInput(OneInput(ctx, kind, metaType, input).op, ctx.cfg, kind, metaType, input,
                           if metaType == ImportType then None else Some(ctx.accounts[input.utxo]))
  {
    hide IsMultisig;
    match input.in_
    case LockIn(_, TransferIn(amount, _)) => assert InAmount(input.in_.inner) == amount;
    case _ =>
  }

  /** The account on record for a UTXO with a single address is that address. */
  lemma OwnerOnRecord(ctx: Context, id: UtxoId, u: Utxo)
    requires BlockContext(ctx) && OwnIds(ctx.deps.value)
    requires Origin(ctx.deps.value, id, u) && |Addresses(u.out)| == 1
    ensures id in ctx.accounts && ctx.accounts[id] == Bech32("P", ctx.cfg.hrp, Addresses(u.out)[0])
  {
    hide UtxosOf, Shows, Addresses, OwnIds, AllAddressable;
    var deps := ctx.deps.value;
    OriginIff(deps, id);
    UtxosByIds(deps[id.txId]);
    HoldsIff(deps, id.txId, u);
    var k, v :| Holds(deps, k, v) && SingleAddress(v.out) && v.id == id
             && ctx.accounts[id] == PAccount(ctx.cfg.hrp, Addresses(v.out)[0]);
    HeldByOwner(deps, k, v);
    assert Origin(deps, id, v);
  }

  /** Main result: an input operation of a block is booked on the only address of the UTXO that the transaction it names
      left under that id, be it an output or a reward. */
  lemma InputBookedOnOwner(ctx: Context, kind: TxType, metaType: MetaType, input: Input, u: Utxo)
    requires BlockContext(ctx) && OwnIds(ctx.deps.value) && metaType != ImportType
    requires OneInput(ctx, kind, metaType, input).Emit? && Origin(ctx.deps.value, input.utxo, u)
    ensures |Addresses(u.out)| == 1
    ensures DescribesInput(OneInput(ctx, kind, metaType, input).op, ctx.cfg, kind, metaType, input,
                           Some(Bech32("P", ctx.cfg.hrp, Addresses(u.out)[0])))
  {
    InBlock(ctx);
    hide UtxosOf, Shows, IsMultisig, Addresses, OneInput, DescribesInput, BlockContext, OwnIds;
    InputResolves(ctx, kind, metaType, input);
    OriginIff(ctx.deps.value, input.utxo);
    OwnerOnRecord(ctx, input.utxo, u);
    EmitDescribes(ctx, kind, metaType, input);
  }

  lemma InBlock(ctx: Context)
    requires BlockContext(ctx)
    ensures !ctx.cfg.construction && ctx.deps.Some?
  {
  }
}
