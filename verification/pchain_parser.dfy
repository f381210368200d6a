/** server/mapper/pchain/tx_parser.go: from P-chain transactions to Rosetta operations. */
module PChainParser {
  import opened Rosetta
  import opened Emission
  import opened PChain
  import opened PChainTxOps
  import opened PChainDependency

  datatype ParseError =
    | UnknownInputType | FailedToCheckMultisig | NoMatchingInputAddresses
    | UnsupportedAssetInConstruction | UnknownAsset
    | UnknownOutputType | UnknownDestinationChain
    | NoDependencyTxs | NoMatchingRewardOutputs | UnknownRewardSource

  /** The parser's settings; an asset the node cannot describe is missing from assets. */
  datatype Config = Config(
    construction: bool, hrp: string, chains: map<Id, string>, avaxAsset: Id, assets: map<Id, Currency>)

  /** All that a parse depends on. */
  datatype Context = Context(cfg: Config, accounts: map<UtxoId, Account>, deps: Option<Dependencies>)

  function BuildAmount(cfg: Config, value: int, asset: Id): Result<Amount, ParseError> {
    if asset == cfg.avaxAsset then Ok(Amount(value, AtomicAvax))
    else if cfg.construction then Err(UnsupportedAssetInConstruction)
    else if asset in cfg.assets then Ok(Amount(value, cfg.assets[asset]))
    else Err(UnknownAsset)
  }

  function OpStatus(cfg: Config): Status {
    if cfg.construction then Unset else Success
  }

  // ----- inputs -----

  /** These transactions create UTXOs that their own bytes do not show. */
  predicate CreatesHiddenUtxos(dep: Dep) {
    dep.tx.Some? && match dep.tx.value.unsigned
      case SpendTx(kind, _, _) => kind == DisableL1Validator || kind == SetL1ValidatorWeight
      case _ => false
  }

  function IsMultisig(deps: Dependencies, id: UtxoId): Result<bool, ParseError> {
    if id.txId !in deps then Err(FailedToCheckMultisig)
    else
      var utxos := UtxosOf(deps[id.txId]);
      if id !in utxos then
        if CreatesHiddenUtxos(deps[id.txId]) then Ok(true) else Err(FailedToCheckMultisig)
      else if !IsAddressable(utxos[id].out) then Err(FailedToCheckMultisig)
      else Ok(!SingleAddress(utxos[id].out))
  }

  /** The locktime and signature indices of an input the mapper can read. */
  function PlainIn(i: In): Option<(uint64, seq<uint32>)> {
    match i
    case TransferIn(_, sigIndices) => Some((0, sigIndices))
    case LockIn(locktime, TransferIn(_, sigIndices)) => Some((locktime, sigIndices))
    case _ => None
  }

  predicate NeedsAccount(cfg: Config, metaType: MetaType) {
    cfg.construction || metaType != ImportType
  }

  function InputOp(ctx: Context, kind: TxType, metaType: MetaType, input: Input, amount: Amount): POperation
    requires NeedsAccount(ctx.cfg, metaType) ==> input.utxo in ctx.accounts
    requires PlainIn(input.in_).Some?
  {
    var (locktime, sigIndices) := PlainIn(input.in_).value;
    Operation(
      None, [], kind, OpStatus(ctx.cfg),
      if NeedsAccount(ctx.cfg, metaType) then Some(ctx.accounts[input.utxo]) else None,
      Some(amount), Some(CoinChange(input.utxo, CoinSpent)),
      OpMeta(metaType, if sigIndices == [] then None else Some(sigIndices), locktime, 0))
  }

  /** One turn of the loop over the inputs; the index is given when the operation is appended. */
  function OneInput(ctx: Context, kind: TxType, metaType: MetaType, input: Input): Step<POperation, ParseError> {
    if PlainIn(input.in_).None? then Fail(UnknownInputType)
    else
      var check := if NeedsAccount(ctx.cfg, metaType) && ctx.deps.Some?
                   then IsMultisig(ctx.deps.value, input.utxo) else Ok(false);
      if check.Err? then Fail(FailedToCheckMultisig)
      else if check.value then Skip
      else if NeedsAccount(ctx.cfg, metaType) && input.utxo !in ctx.accounts then Fail(NoMatchingInputAddresses)
      else
        match BuildAmount(ctx.cfg, -(InAmount(input.in_) as int), input.asset)
        case Err(error) => Fail(error)
        case Ok(amount) => Emit(InputOp(ctx, kind, metaType, input, amount))
  }

  /** The account an input is booked on: none for an imported input of a block; a multisig input is skipped. */
  function ResolvedAccount(ctx: Context, metaType: MetaType, id: UtxoId): Step<Option<Account>, ParseError> {
    if !NeedsAccount(ctx.cfg, metaType) then Emit(None)
    else if ctx.deps.Some? && IsMultisig(ctx.deps.value, id).Err? then Fail(FailedToCheckMultisig)
    else if ctx.deps.Some? && IsMultisig(ctx.deps.value, id).value then Skip
    else if id !in ctx.accounts then Fail(NoMatchingInputAddresses)
    else Emit(Some(ctx.accounts[id]))
  }

  lemma OneInputSteps(ctx: Context, kind: TxType, metaType: MetaType, input: Input)
    ensures OneInput(ctx, kind, metaType, input) ==
      match PlainIn(input.in_)
      case None => Fail(UnknownInputType)
      case Some((locktime, sigIndices)) =>
        match ResolvedAccount(ctx, metaType, input.utxo)
        case Fail(e) => Fail(e)
        case Skip => Skip
        case Emit(account) =>
          match BuildAmount(ctx.cfg, -(InAmount(input.in_) as int), input.asset)
          case Err(e) => Fail(e)
          case Ok(amount) =>
            Emit(Operation(None, [], kind, OpStatus(ctx.cfg), account, Some(amount), Some(CoinChange(input.utxo, CoinSpent)),
                           OpMeta(metaType, if sigIndices == [] then None else Some(sigIndices), locktime, 0)))
  {
    hide IsMultisig, BuildAmount;
  }

  function InputStep(ctx: Context, kind: TxType, metaType: MetaType): (Input, nat) -> Step<POperation, ParseError> {
    (input: Input, i: nat) => OneInput(ctx, kind, metaType, input)
  }

  // ----- outputs -----

  function OutputOp(cfg: Config, kind: TxType, metaType: MetaType, chain: string,
                    out: TransferOutput, coin: UtxoId, amount: Amount): POperation
    requires out.addrs != []
  {
    Operation(
      None, [], kind, OpStatus(cfg), Some(Bech32(chain, cfg.hrp, out.addrs[0])), Some(amount),
      if cfg.construction then None else Some(CoinChange(coin, CoinCreated)),
      OpMeta(metaType, None, out.locktime, out.threshold))
  }

  /** One turn of a loop over outputs; outputs without exactly one address are left out. */
  function OneOutput(cfg: Config, kind: TxType, metaType: MetaType, chain: string,
                     out: Out, asset: Id, coin: UtxoId): Step<POperation, ParseError> {
    match PlainOut(out)
    case None => Fail(UnknownOutputType)
    case Some(o) =>
      if |o.addrs| != 1 then Skip
      else
        match BuildAmount(cfg, Int64(o.amount), asset)
        case Err(error) => Fail(error)
        case Ok(amount) => Emit(OutputOp(cfg, kind, metaType, chain, o, coin, amount))
  }

  function OutputStep(cfg: Config, kind: TxType, metaType: MetaType, chain: string, txId: Id, offset: nat)
    : (Output, nat) -> Step<POperation, ParseError>
  {
    (out: Output, i: nat) => OneOutput(cfg, kind, metaType, chain, out.out, out.asset, OutKey(txId, offset + i))
  }

  function UtxoStep(cfg: Config, kind: TxType, metaType: MetaType, chain: string)
    : (Utxo, nat) -> Step<POperation, ParseError>
  {
    (utxo: Utxo, i: nat) => OneOutput(cfg, kind, metaType, chain, utxo.out, utxo.asset, utxo.id)
  }

  // ----- whole transactions -----

  type Collected = Result<Buckets, ParseError>

  function Collect(c: Collected, construction: bool, metaType: MetaType, e: Emission<POperation, ParseError>): Collected {
    if c.Err? then c
    else if e.error.Some? then Err(e.error.value)
    else Ok(Into(c.value, construction, metaType, e.ops))
  }

  function AddInputs(ctx: Context, c: Collected, kind: TxType, ins: seq<Input>, metaType: MetaType): Collected {
    Collect(c, ctx.cfg.construction, metaType, EmitAll(InputStep(ctx, kind, metaType), ins))
  }

  /** The coin numbers of the outputs start after the outputs collected so far. */
  function AddOutputs(cfg: Config, c: Collected, kind: TxType, txId: Id, outs: seq<Output>, metaType: MetaType, chain: string)
    : Collected
  {
    if c.Err? then c
    else
      Collect(c, cfg.construction, metaType,
              EmitAll(OutputStep(cfg, kind, metaType, chain, txId, c.value.OutputLen()), outs))
  }

  function BaseBuckets(ctx: Context, kind: TxType, txId: Id, ins: seq<Input>, outs: seq<Output>): Collected {
    AddOutputs(ctx.cfg, AddInputs(ctx, Ok(EMPTY), kind, ins, InputType), kind, txId, outs, OutputType, "P")
  }

  predicate IsStaking(dep: Dep) {
    dep.tx.Some? && dep.tx.value.unsigned.StakeTx?
  }

  function RewardBuckets(ctx: Context, stakingTx: Id): Collected {
    if ctx.deps.None? then Err(NoDependencyTxs)
    else if stakingTx !in ctx.deps.value then Err(NoMatchingRewardOutputs)
    else
      var dep := ctx.deps.value[stakingTx];
      var c := Collect(Ok(EMPTY), ctx.cfg.construction, RewardType,
                       EmitAll(UtxoStep(ctx.cfg, RewardValidator, RewardType, "P"), dep.rewards));
      if c.Ok? && !IsStaking(dep) then Err(UnknownRewardSource) else c
  }

  function ParseBuckets(ctx: Context, tx: Tx): Collected {
    match tx.unsigned
    case SpendTx(kind, ins, outs) => BaseBuckets(ctx, Spending(kind), tx.id, ins, outs)
    case StakeTx(kind, ins, outs, stake, _) =>
      AddOutputs(ctx.cfg, BaseBuckets(ctx, Staking(kind), tx.id, ins, outs), Staking(kind), tx.id, stake, StakeType, "P")
    case ImportTx(ins, outs, imported) =>
      var c := AddInputs(ctx, AddInputs(ctx, Ok(EMPTY), ImportAvax, ins, InputType), ImportAvax, imported, ImportType);
      AddOutputs(ctx.cfg, c, ImportAvax, tx.id, outs, OutputType, "P")
    case ExportTx(ins, outs, destination, exported) =>
      var c := BaseBuckets(ctx, ExportAvax, tx.id, ins, outs);
      if c.Ok? && destination !in ctx.cfg.chains then Err(UnknownDestinationChain)
      else if c.Err? then c
      else AddOutputs(ctx.cfg, c, ExportAvax, tx.id, exported, ExportType, ctx.cfg.chains[destination])
    case AdvanceTimeTx => Ok(EMPTY)
    case RewardTx(stakingTx) => RewardBuckets(ctx, stakingTx)
    case UnknownTx => Ok(EMPTY)
  }

  /** A parsed transaction: its operations, and the imported inputs and exported outputs kept in its metadata. */
  datatype Parsed = Parsed(operations: seq<POperation>, imported: seq<POperation>, exported: seq<POperation>)
  {
    function All(): seq<POperation> {
      operations + imported + exported
    }
  }

  function Finish(b: Buckets): Parsed {
    var n := |b.Included()|;
    Parsed(b.Included(), Indexed(b.importIns, n), Indexed(b.exportOuts, n + |b.importIns|))
  }

  function ParseTx(ctx: Context, tx: Tx): Result<Parsed, ParseError> {
    match ParseBuckets(ctx, tx)
    case Err(error) => Err(error)
    case Ok(b) => Ok(Finish(b))
  }

  // ----- the parser object -----

  class TxParser {
    const cfg: Config
    const accounts: map<UtxoId, Account>
    const deps: Option<map<Id, SingleTxDependency>>

    constructor (cfg: Config, accounts: map<UtxoId, Account>, deps: Option<map<Id, SingleTxDependency>>)
      ensures this.cfg == cfg && this.accounts == accounts && this.deps == deps
    {
      this.cfg, this.accounts, this.deps := cfg, accounts, deps;
    }

    function Objects(): set<SingleTxDependency> {
      if deps.Some? then deps.value.Values else {}
    }

    function Ctx(): Context {
      Context(cfg, accounts, if deps.Some? then Some(Views(deps.value)) else None)
    }

    /** Every dependency has its transaction, as the block backend fetches them. */
    ghost predicate Valid()
      reads Objects()
    {
      deps.Some? ==> AllValid(deps.value) && forall k <- deps.value :: deps.value[k].tx.Some?
    }

    method CheckMultisig(id: UtxoId) returns (r: Result<bool, ParseError>)
      requires Valid() && deps.Some?
      modifies Objects()
      ensures Valid() && r == IsMultisig(Ctx().deps.value, id)
    {
      if id.txId !in deps.value {
        return Err(FailedToCheckMultisig);
      }
      var dependency := deps.value[id.txId];
      assert dependency.Valid();
      var utxos := dependency.GetUtxos();
      if id !in utxos {
        match dependency.tx.value.unsigned {
          case SpendTx(DisableL1Validator, _, _) => return Ok(true);
          case SpendTx(SetL1ValidatorWeight, _, _) => return Ok(true);
          case _ => return Err(FailedToCheckMultisig);
        }
      }
      var out := utxos[id].out;
      if !IsAddressable(out) {
        return Err(FailedToCheckMultisig);
      }
      return Ok(|Addresses(out)| != 1);
    }

    /** The account an input is booked on: none for an imported input of a block; a multisig input is skipped. */
    method ResolveAccount(metaType: MetaType, id: UtxoId) returns (account: Step<Option<Account>, ParseError>)
      requires Valid()
      modifies Objects()
      ensures Valid()
      ensures account == ResolvedAccount(Ctx(), metaType, id)
    {
      if !cfg.construction && metaType == ImportType {
        return Emit(None);
      }
      if deps.Some? {
        var check := CheckMultisig(id);
        if check.Err? {
          return Fail(FailedToCheckMultisig);
        }
        if check.value {
          return Skip;
        }
      }
      if id !in accounts {
        return Fail(NoMatchingInputAddresses);
      }
      return Emit(Some(accounts[id]));
    }

    /** One turn of insToOperations. */
    method ReadInput(kind: TxType, metaType: MetaType, input: Input) returns (step: Step<POperation, ParseError>)
      requires Valid()
      modifies Objects()
      ensures Valid() && step == OneInput(Ctx(), kind, metaType, input)
      ensures step.Emit? ==> step.op.index == None
    {
      OneInputSteps(Ctx(), kind, metaType, input);
      hide OneInput, IsMultisig, ResolvedAccount, BuildAmount;
      var locktime: uint64 := 0;
      var plain := input.in_;
      if plain.LockIn? {
        locktime := plain.locktime;
        plain := plain.inner;
      }
      if !plain.TransferIn? {
        return Fail(UnknownInputType);
      }
      var account := ResolveAccount(metaType, input.utxo);
      match account {
        case Fail(e) => return Fail(e);
        case Skip => return Skip;
        case Emit(_) =>
      }
      var amount := BuildAmount(cfg, -(InAmount(input.in_) as int), input.asset);
      if amount.Err? {
        return Fail(amount.error);
      }
      var sigIndices := if plain.sigIndices == [] then None else Some(plain.sigIndices);
      var op := Operation(None, [], kind, if cfg.construction then Unset else Success, account.op, Some(amount.value),
                          Some(CoinChange(input.utxo, CoinSpent)), OpMeta(metaType, sigIndices, locktime, 0));
      assert PlainIn(input.in_) == Some((locktime, plain.sigIndices));
      return Emit(op);
    }

    /** Numbers an operation and appends it. */
    method AppendNumbered(ops: TxOps, op: POperation, metaType: MetaType, ghost start: Buckets, ghost emitted: seq<POperation>)
      requires ops.construction == cfg.construction && op.index == None
      requires ops.View() == Into(start, cfg.construction, metaType, emitted)
      modifies ops
      ensures ops.View() == Into(start, cfg.construction, metaType, emitted + [op])
    {
      IntoTwice(start, cfg.construction, metaType, emitted, op);
      ops.Append(op.(index := Some(ops.Len())), metaType);
    }

    /** Appends the operations of the inputs up to the first error, if any. */
    method InsToOperations(ops: TxOps, kind: TxType, ins: seq<Input>, metaType: MetaType)
      returns (error: Option<ParseError>)
      requires Valid() && ops.construction == cfg.construction
      modifies ops, Objects()
      ensures Valid()
      ensures var e := EmitAll(InputStep(Ctx(), kind, metaType), ins);
        error == e.error && ops.View() == Into(old(ops.View()), cfg.construction, metaType, e.ops)
    {
      hide OneInput, Into;
      ghost var step := InputStep(Ctx(), kind, metaType);
      ghost var start := ops.View();
      IntoNothing(start, cfg.construction, metaType);
      for i := 0 to |ins|
        invariant Valid()
        invariant EmitAll(step, ins[..i]).error.None?
        invariant ops.View() == Into(start, cfg.construction, metaType, EmitAll(step, ins[..i]).ops)
      {
        Turn(step, ins, i);
        var read := ReadInput(kind, metaType, ins[i]);
        match read {
          case Fail(e) =>
            return Some(e);
          case Skip =>
          case Emit(op) =>
            AppendNumbered(ops, op, metaType, start, EmitAll(step, ins[..i]).ops);
        }
      }
      assert ins[..|ins|] == ins;
      return None;
    }

    /** outsToOperations. */
    method OutsToOperations(ops: TxOps, kind: TxType, txId: Id, outs: seq<Output>, metaType: MetaType, chain: string)
      returns (error: Option<ParseError>)
      requires ops.construction == cfg.construction
      modifies ops
      ensures var e := EmitAll(OutputStep(cfg, kind, metaType, chain, txId, old(ops.OutputLen())), outs);
        error == e.error && ops.View() == Into(old(ops.View()), cfg.construction, metaType, e.ops)
    {
      hide OneOutput, Into;
      var offset := ops.OutputLen();
      ghost var step := OutputStep(cfg, kind, metaType, chain, txId, offset);
      ghost var start := ops.View();
      IntoNothing(start, cfg.construction, metaType);
      for i := 0 to |outs|
        invariant EmitAll(step, outs[..i]).error.None?
        invariant ops.View() == Into(start, cfg.construction, metaType, EmitAll(step, outs[..i]).ops)
      {
        Turn(step, outs, i);
        var read := ReadOutput(kind, metaType, chain, outs[i].out, outs[i].asset, OutKey(txId, offset + i));
        match read {
          case Fail(e) =>
            return Some(e);
          case Skip =>
          case Emit(op) =>
            AppendNumbered(ops, op, metaType, start, EmitAll(step, outs[..i]).ops);
        }
      }
      assert outs[..|outs|] == outs;
      return None;
    }

    /** utxosToOperations. */
    method UtxosToOperations(ops: TxOps, kind: TxType, utxos: seq<Utxo>, metaType: MetaType, chain: string)
      returns (error: Option<ParseError>)
      requires ops.construction == cfg.construction
      modifies ops
      ensures var e := EmitAll(UtxoStep(cfg, kind, metaType, chain), utxos);
        error == e.error && ops.View() == Into(old(ops.View()), cfg.construction, metaType, e.ops)
    {
      hide OneOutput, Into;
      ghost var step := UtxoStep(cfg, kind, metaType, chain);
      ghost var start := ops.View();
      IntoNothing(start, cfg.construction, metaType);
      for i := 0 to |utxos|
        invariant EmitAll(step, utxos[..i]).error.None?
        invariant ops.View() == Into(start, cfg.construction, metaType, EmitAll(step, utxos[..i]).ops)
      {
        Turn(step, utxos, i);
        var read := ReadOutput(kind, metaType, chain, utxos[i].out, utxos[i].asset, utxos[i].id);
        match read {
          case Fail(e) =>
            return Some(e);
          case Skip =>
          case Emit(op) =>
            AppendNumbered(ops, op, metaType, start, EmitAll(step, utxos[..i]).ops);
        }
      }
      assert utxos[..|utxos|] == utxos;
      return None;
    }

    /** One turn of either loop over outputs, with buildOutputOperation. */
    method ReadOutput(kind: TxType, metaType: MetaType, chain: string, out: Out, asset: Id, coin: UtxoId)
      returns (step: Step<POperation, ParseError>)
      ensures step == OneOutput(cfg, kind, metaType, chain, out, asset, coin)
      ensures step.Emit? ==> step.op.index == None
    {
      var plain := out;
      if plain.LockOut? {
        plain := plain.inner;
      }
      if !plain.Transfer? {
        return Fail(UnknownOutputType);
      }
      var transfer := plain.out;
      if |transfer.addrs| != 1 {
        return Skip;
      }
      var amount := BuildAmount(cfg, Int64(transfer.amount), asset);
      if amount.Err? {
        return Fail(amount.error);
      }
      var coinChange := if cfg.construction then None else Some(CoinChange(coin, CoinCreated));
      return Emit(Operation(None, [], kind, if cfg.construction then Unset else Success,
                            Some(Bech32(chain, cfg.hrp, transfer.addrs[0])), Some(amount.value), coinChange,
                            OpMeta(metaType, None, transfer.locktime, transfer.threshold)));
    }

    /** baseTxToCombinedOperations. */
    method BaseOperations(kind: TxType, txId: Id, ins: seq<Input>, outs: seq<Output>)
      returns (ops: TxOps, error: Option<ParseError>)
      requires Valid()
      modifies Objects()
      ensures Valid() && fresh(ops) && ops.construction == cfg.construction
      ensures BaseBuckets(Ctx(), kind, txId, ins, outs) == if error.Some? then Err(error.value) else Ok(ops.View())
    {
      hide Into;
      ops := new TxOps(cfg.construction);
      error := InsToOperations(ops, kind, ins, InputType);
      if error.Some? {
        return;
      }
      error := OutsToOperations(ops, kind, txId, outs, OutputType, "P");
    }

    method ParseReward(stakingTx: Id) returns (ops: TxOps, error: Option<ParseError>)
      requires Valid()
      ensures Valid() && fresh(ops)
      ensures RewardBuckets(Ctx(), stakingTx) == if error.Some? then Err(error.value) else Ok(ops.View())
    {
      ops := new TxOps(cfg.construction);
      if deps.None? {
        return ops, Some(NoDependencyTxs);
      }
      if stakingTx !in deps.value {
        return ops, Some(NoMatchingRewardOutputs);
      }
      var dependency := deps.value[stakingTx];
      error := UtxosToOperations(ops, RewardValidator, dependency.rewardUtxos, RewardType, "P");
      if error.Some? {
        return;
      }
      if !dependency.tx.value.unsigned.StakeTx? {
        error := Some(UnknownRewardSource);
      }
    }

    method Parse(tx: Tx) returns (r: Result<Parsed, ParseError>)
      requires Valid()
      modifies Objects()
      ensures Valid() && r == ParseTx(Ctx(), tx)
    {
      hide ParseBuckets;
      var ops, error := CollectOperations(tx);
      if error.Some? {
        return Err(error.value);
      }
      var operations := ops.IncludedOperations();
      var imported := Indexed(ops.importIns, |operations|);
      var exported := Indexed(ops.exportOuts, |operations| + |imported|);
      return Ok(Parsed(operations, imported, exported));
    }

    /** The switch over the transaction types. */
    method CollectOperations(tx: Tx) returns (ops: TxOps, error: Option<ParseError>)
      requires Valid()
      modifies Objects()
      ensures Valid()
      ensures ParseBuckets(Ctx(), tx) == if error.Some? then Err(error.value) else Ok(ops.View())
    {
      hide Into, BaseBuckets, RewardBuckets;
      match tx.unsigned {
        case SpendTx(kind, ins, outs) =>
          ops, error := BaseOperations(Spending(kind), tx.id, ins, outs);
        case StakeTx(kind, ins, outs, stake, _) =>
          ops, error := BaseOperations(Staking(kind), tx.id, ins, outs);
          if error.None? {
            error := OutsToOperations(ops, Staking(kind), tx.id, stake, StakeType, "P");
          }
        case ImportTx(ins, outs, imported) =>
          ops := new TxOps(cfg.construction);
          error := InsToOperations(ops, ImportAvax, ins, InputType);
          if error.None? {
            error := InsToOperations(ops, ImportAvax, imported, ImportType);
          }
          if error.None? {
            error := OutsToOperations(ops, ImportAvax, tx.id, outs, OutputType, "P");
          }
        case ExportTx(ins, outs, destination, exported) =>
          ops, error := BaseOperations(ExportAvax, tx.id, ins, outs);
          if error.None? {
            if destination !in cfg.chains {
              error := Some(UnknownDestinationChain);
            } else {
              error := OutsToOperations(ops, ExportAvax, tx.id, exported, ExportType, cfg.chains[destination]);
            }
          }
        case AdvanceTimeTx =>
          ops := new TxOps(cfg.construction);
          error := None;
        case RewardTx(stakingTx) =>
          ops, error := ParseReward(stakingTx);
        case UnknownTx =>
          ops := new TxOps(cfg.construction);
          error := None;
      }
    }
  }
}
