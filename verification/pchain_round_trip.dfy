/** Building a P-chain transaction from operations and parsing it back, as /construction/payloads and /construction/parse do. */
module PChainRoundTrip {
  import opened Rosetta
  import opened Sequences
  import opened Emission
  import opened PChain
  import opened PChainTxOps
  import opened PChainDependency
  import opened PChainParser
  import opened PChainBuilder

  // ----- what comes back for one operation -----

  /** The operation that parsing gives for a built input: amount modulo 2^64, no locktime, no threshold. */
  function ReturnedInput(kind: TxType, op: POperation): POperation {
    var sigIndices := Defaults(op.metadata).sigIndices.value;
    Operation(
      None, [], kind, Unset, op.account,
      if op.amount.Some? then Some(Amount(-(LowUint64(op.amount.value.value) as int), AtomicAvax)) else None,
      if op.coinChange.Some? then Some(CoinChange(op.coinChange.value.coin, CoinSpent)) else None,
      OpMeta(op.metadata.metaType, if sigIndices == [] then None else Some(sigIndices), 0, 0))
  }

  /** The operation that parsing gives for a built output: address reformatted, amount through int64, no signature indices. */
  function ReturnedOutput(cfg: Config, kind: TxType, chain: string, op: POperation): POperation {
    var meta := Defaults(op.metadata);
    Operation(
      None, [], kind, Unset,
      if op.account.Some? && op.account.value.Bech32? then Some(Bech32(chain, cfg.hrp, op.account.value.id)) else None,
      if op.amount.Some? then Some(Amount(Int64(LowUint64(op.amount.value.value)), AtomicAvax)) else None,
      None, OpMeta(op.metadata.metaType, None, meta.locktime, meta.threshold))
  }

  function ReturnInput(kind: TxType): POperation -> POperation {
    (op: POperation) => ReturnedInput(kind, op)
  }

  function ReturnOutput(cfg: Config, kind: TxType, chain: string): POperation -> POperation {
    (op: POperation) => ReturnedOutput(cfg, kind, chain, op)
  }

  /** Construction-mode parsing of what was built with these settings. */
  predicate Constructing(ctx: Context, settings: Settings) {
    ctx.cfg.construction && ctx.deps == None && ctx.cfg.avaxAsset == settings.avaxAsset
  }

  /** The accounts known to the parser are those of the input operations. */
  predicate AccountsKnown(ctx: Context, ops: seq<POperation>) {
    forall op <- ops ::
      op.coinChange.Some? && op.coinChange.value.coin in ctx.accounts &&
      op.account == Some(ctx.accounts[op.coinChange.value.coin])
  }

  /** A loop in which every item emits by itself, run over a rearrangement, gives a rearrangement of the image. */
  lemma EmitsImage<T, O, E>(step: (T, nat) -> Step<O, E>, items: seq<T>, built: seq<T>, parse: T -> O)
    requires multiset(items) == multiset(built)
    requires forall x, i: nat :: x in built ==> step(x, i) == Emit(parse(x))
    ensures var e := EmitAll(step, items);
      && e.error.None? && e.ops == Map(items, parse)
      && |e.ops| == |built| && multiset(e.ops) == multiset(Map(built, parse))
  {
    forall i | 0 <= i < |items| ensures step(items[i], i) == Emit(parse(items[i])) {
      assert items[i] in multiset(items);
      assert items[i] in multiset(built);
    }
    AllEmit(step, items);
    assert EmitAll(step, items).ops == Map(items, parse);
    MapPermutation(items, built, parse);
    assert |multiset(items)| == |multiset(built)|;
  }

  // ----- inputs -----

  function ParsedInput(ctx: Context, kind: TxType, metaType: MetaType): Input -> POperation {
    (input: Input) =>
      match OneInput(ctx, kind, metaType, input)
      case Emit(op) => op
      case _ => Operation(None, [], kind, Unset, None, None, None, OpMeta(metaType, None, 0, 0))
  }

  lemma InputReturns(ctx: Context, settings: Settings, kind: TxType, metaType: MetaType, op: POperation)
    requires Constructing(ctx, settings) && AccountsKnown(ctx, [op])
    requires op.metadata.metaType == metaType && InputError(op).None?
    ensures OneInput(ctx, kind, metaType, InputOf(settings.avaxAsset)(op)) == Emit(ReturnedInput(kind, op))
  {
    assert op in [op];
  }

  lemma InputsReturn(ctx: Context, settings: Settings, kind: TxType, metaType: MetaType, ops: seq<POperation>, ins: seq<Input>)
    requires Constructing(ctx, settings) && AccountsKnown(ctx, OfType(ops, metaType))
    requires forall op <- ops :: InputError(op).None?
    requires AreInputs(ins, ops, metaType, settings.avaxAsset)
    ensures var e := EmitAll(InputStep(ctx, kind, metaType), ins);
      && e.error.None? && |e.ops| == |OfType(ops, metaType)|
      && e.ops == Map(ins, ParsedInput(ctx, kind, metaType))
      && multiset(e.ops) == multiset(Map(OfType(ops, metaType), ReturnInput(kind)))
  {
    hide OneInput, ReturnedInput, Constructing, InputError, EmitAll;
    var mine := OfType(ops, metaType);
    var built := Map(mine, InputOf(settings.avaxAsset));
    var parse := ParsedInput(ctx, kind, metaType);
    forall i | 0 <= i < |mine|
      ensures OneInput(ctx, kind, metaType, built[i]) == Emit(ReturnedInput(kind, mine[i]))
    {
      InputReturns(ctx, settings, kind, metaType, mine[i]);
    }
    EmitsImage(InputStep(ctx, kind, metaType), ins, built, parse);
    assert Map(built, parse) == Map(mine, ReturnInput(kind));
  }

  /** The operations of a built list of inputs name its coins, in UTXO order. */
  lemma InputsComeInUtxoOrder(ctx: Context, settings: Settings, kind: TxType, metaType: MetaType, ops: seq<POperation>, ins: seq<Input>)
    requires Constructing(ctx, settings) && AccountsKnown(ctx, OfType(ops, metaType))
    requires forall op <- ops :: InputError(op).None?
    requires AreInputs(ins, ops, metaType, settings.avaxAsset)
    ensures var parsed := Map(ins, ParsedInput(ctx, kind, metaType));
      && (forall i :: 0 <= i < |ins| ==> parsed[i].coinChange == Some(CoinChange(ins[i].utxo, CoinSpent)))
      && (forall i, j :: 0 <= i < j < |ins| ==> InputKey(ins[i]) <= InputKey(ins[j]))
  {
    hide OneInput, ReturnedInput, Constructing, InputError, Map;
    var mine := OfType(ops, metaType);
    var built := Map(mine, InputOf(settings.avaxAsset));
    forall i, j | 0 <= i < j < |ins| ensures InputKey(ins[i]) <= InputKey(ins[j]) {
      assert INPUT_KEY(ins[i]) <= INPUT_KEY(ins[j]);
    }
    forall i | 0 <= i < |ins| ensures ParsedInput(ctx, kind, metaType)(ins[i]).coinChange == Some(CoinChange(ins[i].utxo, CoinSpent)) {
      assert ins[i] in multiset(built);
      var k :| 0 <= k < |built| && built[k] == ins[i];
      InputReturns(ctx, settings, kind, metaType, mine[k]);
      ReturnedCoin(kind, settings.avaxAsset, mine[k]);
    }
  }

  lemma ReturnedCoin(kind: TxType, asset: Id, op: POperation)
    requires op.coinChange.Some? && InputError(op).None?
    ensures ReturnedInput(kind, op).coinChange == Some(CoinChange(InputOf(asset)(op).utxo, CoinSpent))
  {
  }

  // ----- outputs -----

  function ParsedOutput(cfg: Config, kind: TxType, metaType: MetaType, chain: string): Output -> POperation {
    (out: Output) =>
      match OneOutput(cfg, kind, metaType, chain, out.out, out.asset, UtxoId(0, 0))
      case Emit(op) => op
      case _ => Operation(None, [], kind, Unset, None, None, None, OpMeta(metaType, None, 0, 0))
  }

  lemma OutputReturns(cfg: Config, asset: Id, kind: TxType, metaType: MetaType, chain: string, op: POperation, coin: UtxoId)
    requires cfg.construction && cfg.avaxAsset == asset
    requires op.metadata.metaType == metaType && OutputError(op).None?
    ensures var out := OutputOf(asset)(op);
      OneOutput(cfg, kind, metaType, chain, out.out, out.asset, coin) == Emit(ReturnedOutput(cfg, kind, chain, op))
  {
  }

  lemma OutputStepsReturn(cfg: Config, asset: Id, kind: TxType, metaType: MetaType, chain: string,
                          txId: Id, offset: nat, ops: seq<POperation>)
    requires cfg.construction && cfg.avaxAsset == asset
    requires forall op <- ops :: OutputError(op).None? && op.metadata.metaType == metaType
    ensures var built, parse := Map(ops, OutputOf(asset)), ParsedOutput(cfg, kind, metaType, chain);
      && (forall out, i: nat :: out in built ==>
            OutputStep(cfg, kind, metaType, chain, txId, offset)(out, i) == Emit(parse(out)))
      && Map(built, parse) == Map(ops, ReturnOutput(cfg, kind, chain))
  {
    hide OneOutput, ReturnedOutput, OutputError;
    var built, parse := Map(ops, OutputOf(asset)), ParsedOutput(cfg, kind, metaType, chain);
    forall i | 0 <= i < |ops| ensures parse(built[i]) == ReturnedOutput(cfg, kind, chain, ops[i]) {
      OutputReturns(cfg, asset, kind, metaType, chain, ops[i], UtxoId(0, 0));
    }
    forall out, i: nat | out in built
      ensures OutputStep(cfg, kind, metaType, chain, txId, offset)(out, i) == Emit(parse(out))
    {
      var k :| 0 <= k < |built| && built[k] == out;
      OutputReturns(cfg, asset, kind, metaType, chain, ops[k], OutKey(txId, offset + i));
    }
  }

  lemma OutputsReturn(cfg: Config, settings: Settings, kind: TxType, metaType: MetaType, chain: string,
                      txId: Id, offset: nat, ops: seq<POperation>, outs: seq<Output>)
    requires cfg.construction && cfg.avaxAsset == settings.avaxAsset
    requires forall op <- ops :: OutputError(op).None?
    requires AreOutputs(outs, ops, metaType, settings)
    ensures var e := EmitAll(OutputStep(cfg, kind, metaType, chain, txId, offset), outs);
      && e.error.None? && |e.ops| == |OfType(ops, metaType)|
      && e.ops == Map(outs, ParsedOutput(cfg, kind, metaType, chain))
      && multiset(e.ops) == multiset(Map(OfType(ops, metaType), ReturnOutput(cfg, kind, chain)))
  {
    hide OutputError, EmitAll, OutputStep, ParsedOutput;
    var mine := OfType(ops, metaType);
    OutputStepsReturn(cfg, settings.avaxAsset, kind, metaType, chain, txId, offset, mine);
    EmitsImage(OutputStep(cfg, kind, metaType, chain, txId, offset), outs, Map(mine, OutputOf(settings.avaxAsset)),
               ParsedOutput(cfg, kind, metaType, chain));
  }

  // ----- whole transactions -----

  /** What the operations kept for this transaction type come back as, listed by their types. */
  function Returned(cfg: Config, kind: TxType, exportChain: string, inputs: seq<POperation>, outputs: seq<POperation>): seq<POperation> {
    var ins := Map(OfType(inputs, InputType), ReturnInput(kind));
    var outs := Map(OfType(outputs, OutputType), ReturnOutput(cfg, kind, "P"));
    match kind
    case ImportAvax => ins + Map(OfType(inputs, ImportType), ReturnInput(kind)) + outs
    case ExportAvax => ins + outs + Map(OfType(outputs, ExportType), ReturnOutput(cfg, kind, exportChain))
    case _ => ins + outs + Map(OfType(outputs, StakeType), ReturnOutput(cfg, kind, "P"))
  }

  /** The parse succeeded with these operations, numbered, and nothing set aside. */
  ghost predicate ParsesTo(ctx: Context, tx: Tx, ops: seq<POperation>) {
    ParseTx(ctx, tx) == Ok(Parsed(Indexed(ops, 0), [], []))
  }

  /** Where exported outputs go; other types have no such chain. */
  function ExportChain(ctx: Context, settings: Settings): string {
    if settings.destination.Some? && settings.destination.value in ctx.cfg.chains
    then ctx.cfg.chains[settings.destination.value] else ""
  }

  /** The operations of a transaction's lists, list after list. */
  function InOrder(ctx: Context, kind: TxType, exportChain: string, unsigned: UnsignedTx): seq<POperation> {
    match unsigned
    case ImportTx(ins, outs, imported) =>
      Map(ins, ParsedInput(ctx, kind, InputType)) + Map(imported, ParsedInput(ctx, kind, ImportType))
      + Map(outs, ParsedOutput(ctx.cfg, kind, OutputType, "P"))
    case ExportTx(ins, outs, _, exported) =>
      Map(ins, ParsedInput(ctx, kind, InputType)) + Map(outs, ParsedOutput(ctx.cfg, kind, OutputType, "P"))
      + Map(exported, ParsedOutput(ctx.cfg, kind, ExportType, exportChain))
    case StakeTx(_, ins, outs, stake, _) =>
      Map(ins, ParsedInput(ctx, kind, InputType)) + Map(outs, ParsedOutput(ctx.cfg, kind, OutputType, "P"))
      + Map(stake, ParsedOutput(ctx.cfg, kind, StakeType, "P"))
    case _ => []
  }

  lemma TwoBuckets(a: seq<POperation>, b: seq<POperation>)
    ensures Into(Into(EMPTY, true, InputType, a), true, ImportType, b)
         == EMPTY.(ins := Indexed(a + b, 0))
    ensures Into(Into(EMPTY, true, InputType, a), true, OutputType, b)
         == EMPTY.(ins := Indexed(a, 0), outs := Indexed(b, |a|))
  {
    hide Indexed;
    IndexedAppend(a, b, 0);
  }

  lemma LastBucket(outs: seq<POperation>, ins: seq<POperation>, c: seq<POperation>)
    ensures var b, more := EMPTY.(ins := ins, outs := outs), Indexed(c, |ins| + |outs|);
      && Into(b, true, OutputType, c) == Into(b, true, ExportType, c) == Buckets(ins, outs + more, [], [], [])
      && Into(b, true, StakeType, c) == Buckets(ins, outs, more, [], [])
  {
    hide Indexed;
    var b := EMPTY.(ins := ins, outs := outs);
    assert b.Included() == ins + outs;
  }

  /** Buckets without anything set aside. */
  lemma IncludedOnly(ins: seq<POperation>, outs: seq<POperation>, stakeOuts: seq<POperation>)
    ensures Finish(Buckets(ins, outs, stakeOuts, [], [])) == Parsed(ins + outs + stakeOuts, [], [])
  {
  }

  lemma JoinThree(x: seq<POperation>, y: seq<POperation>, z: seq<POperation>)
    ensures x + (y + z) + [] == x + y + z == (x + y) + ([] + z) + []
  {
  }

  lemma ThreeParts(a: seq<POperation>, b: seq<POperation>, c: seq<POperation>)
    ensures Finish(Into(Into(Into(EMPTY, true, InputType, a), true, ImportType, b), true, OutputType, c))
         == Parsed(Indexed(a + b + c, 0), [], [])
    ensures Finish(Into(Into(Into(EMPTY, true, InputType, a), true, OutputType, b), true, ExportType, c))
         == Parsed(Indexed(a + b + c, 0), [], [])
    ensures Finish(Into(Into(Into(EMPTY, true, InputType, a), true, OutputType, b), true, StakeType, c))
         == Parsed(Indexed(a + b + c, 0), [], [])
  {
    hide Indexed, Finish, Into;
    TwoBuckets(a, b);
    LastBucket([], Indexed(a + b, 0), c);
    LastBucket(Indexed(b, |a|), Indexed(a, 0), c);
    var x, y, z := Indexed(a, 0), Indexed(b, |a|), Indexed(c, |a + b|);
    IndexedAppend(a, b, 0);
    IndexedAppend(a + b, c, 0);
    IncludedOnly(x + y, [] + z, []);
    IncludedOnly(x, y + z, []);
    IncludedOnly(x, y, z);
    JoinThree(x, y, z);
  }

  lemma ImportReturns(ctx: Context, tx: Tx, inputs: seq<POperation>, outputs: seq<POperation>, settings: Settings)
    returns (a: seq<POperation>, b: seq<POperation>, c: seq<POperation>)
    requires Constructing(ctx, settings) && AccountsKnown(ctx, inputs)
    requires forall op <- inputs :: InputError(op).None?
    requires forall op <- outputs :: OutputError(op).None?
    requires IsBuilt(tx.unsigned, ImportAvax, inputs, outputs, settings)
    ensures ParsesTo(ctx, tx, a + b + c)
    ensures a + b + c == InOrder(ctx, ImportAvax, "", tx.unsigned)
    ensures multiset(a) == multiset(Map(OfType(inputs, InputType), ReturnInput(ImportAvax)))
    ensures multiset(b) == multiset(Map(OfType(inputs, ImportType), ReturnInput(ImportAvax)))
    ensures multiset(c) == multiset(Map(OfType(outputs, OutputType), ReturnOutput(ctx.cfg, ImportAvax, "P")))
  {
    hide EmitAll, Into, Finish, Map, InputError, OutputError, AreInputs, AreOutputs;
    var u := tx.unsigned;
    InputsReturn(ctx, settings, ImportAvax, InputType, inputs, u.ins);
    InputsReturn(ctx, settings, ImportAvax, ImportType, inputs, u.imported);
    a := EmitAll(InputStep(ctx, ImportAvax, InputType), u.ins).ops;
    b := EmitAll(InputStep(ctx, ImportAvax, ImportType), u.imported).ops;
    var before := Into(Into(EMPTY, true, InputType, a), true, ImportType, b);
    OutputsReturn(ctx.cfg, settings, ImportAvax, OutputType, "P", tx.id, before.OutputLen(), outputs, u.outs);
    c := EmitAll(OutputStep(ctx.cfg, ImportAvax, OutputType, "P", tx.id, before.OutputLen()), u.outs).ops;
    ThreeParts(a, b, c);
  }

  lemma BaseReturns(ctx: Context, kind: TxType, txId: Id, ins: seq<Input>, outs: seq<Output>,
                    inputs: seq<POperation>, outputs: seq<POperation>, settings: Settings)
    returns (a: seq<POperation>, b: seq<POperation>)
    requires Constructing(ctx, settings) && AccountsKnown(ctx, inputs)
    requires forall op <- inputs :: InputError(op).None?
    requires forall op <- outputs :: OutputError(op).None?
    requires AreInputs(ins, inputs, InputType, settings.avaxAsset) && AreOutputs(outs, outputs, OutputType, settings)
    ensures BaseBuckets(ctx, kind, txId, ins, outs) == Ok(Into(Into(EMPTY, true, InputType, a), true, OutputType, b))
    ensures a == Map(ins, ParsedInput(ctx, kind, InputType)) && b == Map(outs, ParsedOutput(ctx.cfg, kind, OutputType, "P"))
    ensures multiset(a) == multiset(Map(OfType(inputs, InputType), ReturnInput(kind)))
    ensures multiset(b) == multiset(Map(OfType(outputs, OutputType), ReturnOutput(ctx.cfg, kind, "P")))
  {
    hide EmitAll, Into, Map, InputError, OutputError, AreInputs, AreOutputs;
    InputsReturn(ctx, settings, kind, InputType, inputs, ins);
    a := EmitAll(InputStep(ctx, kind, InputType), ins).ops;
    var before := Into(EMPTY, true, InputType, a);
    OutputsReturn(ctx.cfg, settings, kind, OutputType, "P", txId, before.OutputLen(), outputs, outs);
    b := EmitAll(OutputStep(ctx.cfg, kind, OutputType, "P", txId, before.OutputLen()), outs).ops;
  }

  /** An export or a staking transaction. */
  lemma SpendingReturns(ctx: Context, tx: Tx, kind: TxType, inputs: seq<POperation>, outputs: seq<POperation>, settings: Settings)
    returns (a: seq<POperation>, b: seq<POperation>, c: seq<POperation>)
    requires Constructing(ctx, settings) && AccountsKnown(ctx, inputs)
    requires forall op <- inputs :: InputError(op).None?
    requires forall op <- outputs :: OutputError(op).None?
    requires kind == ExportAvax || kind.Staking?
    requires IsBuilt(tx.unsigned, kind, inputs, outputs, settings)
    requires kind == ExportAvax ==> settings.destination.value in ctx.cfg.chains
    ensures ParsesTo(ctx, tx, a + b + c)
    ensures a + b + c == InOrder(ctx, kind, ExportChain(ctx, settings), tx.unsigned)
    ensures multiset(a) == multiset(Map(OfType(inputs, InputType), ReturnInput(kind)))
    ensures multiset(b) == multiset(Map(OfType(outputs, OutputType), ReturnOutput(ctx.cfg, kind, "P")))
    ensures multiset(c) ==
      if kind == ExportAvax
      then multiset(Map(OfType(outputs, ExportType), ReturnOutput(ctx.cfg, kind, ctx.cfg.chains[settings.destination.value])))
      else multiset(Map(OfType(outputs, StakeType), ReturnOutput(ctx.cfg, kind, "P")))
  {
    hide EmitAll, Into, Finish, Map, InputError, OutputError, AreInputs, AreOutputs, BaseBuckets;
    var u := tx.unsigned;
    a, b := BaseReturns(ctx, kind, tx.id, u.ins, u.outs, inputs, outputs, settings);
    var before := Into(Into(EMPTY, true, InputType, a), true, OutputType, b);
    if kind == ExportAvax {
      var chain := ctx.cfg.chains[settings.destination.value];
      OutputsReturn(ctx.cfg, settings, kind, ExportType, chain, tx.id, before.OutputLen(), outputs, u.exported);
      c := EmitAll(OutputStep(ctx.cfg, kind, ExportType, chain, tx.id, before.OutputLen()), u.exported).ops;
    } else {
      OutputsReturn(ctx.cfg, settings, kind, StakeType, "P", tx.id, before.OutputLen(), outputs, u.stake);
      c := EmitAll(OutputStep(ctx.cfg, kind, StakeType, "P", tx.id, before.OutputLen()), u.stake).ops;
    }
    ThreeParts(a, b, c);
  }

  /** Main result: parsing what was built succeeds, numbers the operations without a gap, lists them in the order of the
      transaction's sorted lists, and gives each kept operation back once, up to defaults. */
  lemma BuildThenParse(ctx: Context, tx: Tx, kind: TxType, inputs: seq<POperation>, outputs: seq<POperation>, settings: Settings)
    returns (ops: seq<POperation>)
    requires Constructing(ctx, settings) && AccountsKnown(ctx, inputs)
    requires FirstError(inputs, InputError).None? && FirstError(outputs, OutputError).None?
    requires IsBuilt(tx.unsigned, kind, inputs, outputs, settings)
    requires kind == ExportAvax ==> settings.destination.value in ctx.cfg.chains
    ensures ParsesTo(ctx, tx, ops) && ops == InOrder(ctx, kind, ExportChain(ctx, settings), tx.unsigned)
    ensures multiset(ops) == multiset(Returned(ctx.cfg, kind, ExportChain(ctx, settings), inputs, outputs))
  {
    hide ParsesTo, ReturnedInput, ReturnedOutput, OfType, Map, FirstError, InputError, OutputError;
    NoErrorMeans(inputs, InputError);
    NoErrorMeans(outputs, OutputError);
    var a, b, c;
    if kind == ImportAvax {
      a, b, c := ImportReturns(ctx, tx, inputs, outputs, settings);
    } else {
      a, b, c := SpendingReturns(ctx, tx, kind, inputs, outputs, settings);
    }
    ops := a + b + c;
  }

  // ----- when nothing is lost -----

  /** The metadata types a transaction type has a place for. Operations of another type are dropped without an error. */
  predicate HasPlace(kind: TxType, metaType: MetaType) {
    match metaType
    case InputType => true
    case OutputType => true
    case ImportType => kind == ImportAvax
    case ExportType => kind == ExportAvax
    case StakeType => kind.Staking?
    case RewardType => false
  }

  lemma {:induction false} TypesPartition(ops: seq<POperation>)
    ensures |ops| == |OfType(ops, InputType)| + |OfType(ops, OutputType)| + |OfType(ops, ImportType)|
                   + |OfType(ops, ExportType)| + |OfType(ops, StakeType)| + |OfType(ops, RewardType)|
  {
    if ops != [] {
      TypesPartition(ops[..|ops| - 1]);
    }
  }

  lemma {:induction false} NoneOfType(ops: seq<POperation>, metaType: MetaType)
    ensures OfType(ops, metaType) == [] <==> forall op <- ops :: op.metadata.metaType != metaType
  {
    if ops != [] {
      NoneOfType(ops[..|ops| - 1], metaType);
      assert forall op <- ops :: op in ops[..|ops| - 1] || op == ops[|ops| - 1];
    }
  }

  lemma InputsPlacedIff(kind: TxType, inputs: seq<POperation>)
    requires IsBuildable(kind) && forall op <- inputs :: InputError(op).None?
    ensures var kept := |OfType(inputs, InputType)| + if kind == ImportAvax then |OfType(inputs, ImportType)| else 0;
      kept <= |inputs| && (kept == |inputs| <==> forall op <- inputs :: HasPlace(kind, op.metadata.metaType))
  {
    TypesPartition(inputs);
    hide OfType;
    NoneOfType(inputs, ImportType);
    NoneOfType(inputs, OutputType);
    NoneOfType(inputs, ExportType);
    NoneOfType(inputs, StakeType);
    NoneOfType(inputs, RewardType);
  }

  lemma OutputsPlacedIff(kind: TxType, outputs: seq<POperation>)
    requires IsBuildable(kind) && forall op <- outputs :: OutputError(op).None?
    ensures var kept := |OfType(outputs, OutputType)|
                      + (if kind == ExportAvax then |OfType(outputs, ExportType)| else 0)
                      + (if kind.Staking? then |OfType(outputs, StakeType)| else 0);
      kept <= |outputs| && (kept == |outputs| <==> forall op <- outputs :: HasPlace(kind, op.metadata.metaType))
  {
    TypesPartition(outputs);
    hide OfType;
    NoneOfType(outputs, InputType);
    NoneOfType(outputs, ImportType);
    NoneOfType(outputs, ExportType);
    NoneOfType(outputs, StakeType);
    NoneOfType(outputs, RewardType);
  }

  /** Main result: as many operations come back as went in exactly when every one has a place in the transaction. */
  lemma NothingLostIff(cfg: Config, kind: TxType, exportChain: string, inputs: seq<POperation>, outputs: seq<POperation>)
    requires IsBuildable(kind)
    requires FirstError(inputs, InputError).None? && FirstError(outputs, OutputError).None?
    ensures |Returned(cfg, kind, exportChain, inputs, outputs)| == |inputs| + |outputs| <==>
      && (forall op <- inputs :: HasPlace(kind, op.metadata.metaType))
      && (forall op <- outputs :: HasPlace(kind, op.metadata.metaType))
  {
    hide OfType, FirstError, HasPlace;
    NoErrorMeans(inputs, InputError);
    NoErrorMeans(outputs, OutputError);
    InputsPlacedIff(kind, inputs);
    OutputsPlacedIff(kind, outputs);
  }

  /** Two operations say the same once positions are dropped and metadata defaults are filled in. */
  predicate SameUpToDefaults(a: POperation, b: POperation) {
    a.(index := None, related := [], metadata := Defaults(a.metadata))
      == b.(index := None, related := [], metadata := Defaults(b.metadata))
  }

  /** A construction operation that spends a coin of the native asset, with nothing the transaction has no room for. */
  predicate FitsInput(kind: TxType, op: POperation) {
    && op.kind == kind && op.status == Unset
    && op.amount.Some? && op.amount.value.currency == AtomicAvax && -TWO_64 < op.amount.value.value <= 0
    && op.coinChange.Some? && op.coinChange.value.action == CoinSpent
    && op.metadata.locktime == 0 && op.metadata.threshold <= 1 && op.metadata.sigIndices != Some([])
  }

  /** Main result: an input comes back as it was, up to defaults, exactly when it fits. */
  lemma InputComesBackIff(kind: TxType, op: POperation)
    requires op.amount.Some? && op.coinChange.Some?
    ensures SameUpToDefaults(ReturnedInput(kind, op), op) <==> FitsInput(kind, op)
  {
    var back := ReturnedInput(kind, op);
    assert back.amount == op.amount <==>
      op.amount.value.currency == AtomicAvax && -TWO_64 < op.amount.value.value <= 0;
    assert Defaults(back.metadata) == Defaults(op.metadata) <==>
      op.metadata.locktime == 0 && op.metadata.threshold <= 1 && op.metadata.sigIndices != Some([]);
  }

  /** A construction operation that creates a coin of the native asset on a chain of the network. */
  predicate FitsOutput(cfg: Config, kind: TxType, chain: string, op: POperation) {
    && op.kind == kind && op.status == Unset && op.coinChange.None?
    && op.account.Some? && op.account.value.Bech32? && op.account.value.chain == chain && op.account.value.hrp == cfg.hrp
    && op.amount.Some? && op.amount.value.currency == AtomicAvax && 0 <= op.amount.value.value < TWO_63
    && Defaults(op.metadata).sigIndices == Some([0])
  }

  /** Main result: a positive output comes back as it was, up to defaults, exactly when it fits. */
  lemma OutputComesBackIff(cfg: Config, kind: TxType, chain: string, op: POperation)
    requires op.account.Some? && op.account.value.Bech32? && op.amount.Some? && op.amount.value.value >= 0
    ensures SameUpToDefaults(ReturnedOutput(cfg, kind, chain, op), op) <==> FitsOutput(cfg, kind, chain, op)
  {
    var back := ReturnedOutput(cfg, kind, chain, op);
    assert Defaults(back.metadata) == Defaults(op.metadata) <==> Defaults(op.metadata).sigIndices == Some([0]);
  }

  /** An output that has a place in the transaction is among what comes back. */
  lemma PlacedOutputReturns(cfg: Config, kind: TxType, exportChain: string, inputs: seq<POperation>, outputs: seq<POperation>, op: POperation)
    requires IsBuildable(kind) && op in outputs && OutputError(op).None? && HasPlace(kind, op.metadata.metaType)
    ensures ReturnedOutput(cfg, kind, ChainOf(exportChain, op), op) in Returned(cfg, kind, exportChain, inputs, outputs)
  {
    hide OfType, Map, ReturnedInput, ReturnedOutput;
    CountOfType(outputs, op.metadata.metaType, op);
    var mine, back := OfType(outputs, op.metadata.metaType), ReturnOutput(cfg, kind, ChainOf(exportChain, op));
    assert op in multiset(mine);
    var k :| 0 <= k < |mine| && mine[k] == op;
    assert Map(mine, back)[k] == back(op);
  }

  /** An output of 2^63 or more comes back from parsing what was built, booked as a debit of its owner. */
  lemma LargeOutputComesBackNegative(ctx: Context, tx: Tx, kind: TxType, inputs: seq<POperation>, outputs: seq<POperation>,
                                     settings: Settings, op: POperation)
    returns (ops: seq<POperation>, k: nat)
    requires Constructing(ctx, settings) && AccountsKnown(ctx, inputs)
    requires FirstError(inputs, InputError).None? && FirstError(outputs, OutputError).None?
    requires IsBuilt(tx.unsigned, kind, inputs, outputs, settings)
    requires kind == ExportAvax ==> settings.destination.value in ctx.cfg.chains
    requires op in outputs && HasPlace(kind, op.metadata.metaType)
    requires op.amount.Some? && TWO_63 <= op.amount.value.value < TWO_64
    ensures ParsesTo(ctx, tx, ops) && k < |ops|
    ensures ops[k].amount == Some(Amount(op.amount.value.value - TWO_64, AtomicAvax))
    ensures op.account.Some? && op.account.value.Bech32?
    ensures ops[k].account == Some(Bech32(ChainOf(ExportChain(ctx, settings), op), ctx.cfg.hrp, op.account.value.id))
  {
    hide ParsesTo, OfType, FirstError, Returned, ReturnedInput, ReturnedOutput, ExportChain;
    NoErrorMeans(outputs, OutputError);
    var exportChain := ExportChain(ctx, settings);
    ops := BuildThenParse(ctx, tx, kind, inputs, outputs, settings);
    PlacedOutputReturns(ctx.cfg, kind, exportChain, inputs, outputs, op);
    var back := ReturnedOutput(ctx.cfg, kind, ChainOf(exportChain, op), op);
    assert back in multiset(ops);
    k :| 0 <= k < |ops| && ops[k] == back;
    LargeAmountWraps(ctx.cfg, kind, ChainOf(exportChain, op), op);
  }

  lemma LargeAmountWraps(cfg: Config, kind: TxType, chain: string, op: POperation)
    requires OutputError(op).None? && TWO_63 <= op.amount.value.value < TWO_64
    ensures var back := ReturnedOutput(cfg, kind, chain, op);
      && back.amount == Some(Amount(op.amount.value.value - TWO_64, AtomicAvax))
      && back.account == Some(Bech32(chain, cfg.hrp, op.account.value.id))
  {
  }

  function Canonical(op: POperation): POperation {
    op.(index := None, related := [], metadata := Defaults(op.metadata))
  }

  const CANONICAL: POperation -> POperation := (op: POperation) => Canonical(op)

  lemma {:induction false} CountOfType(ops: seq<POperation>, metaType: MetaType, op: POperation)
    ensures multiset(OfType(ops, metaType))[op] == if op.metadata.metaType == metaType then multiset(ops)[op] else 0
  {
    if ops != [] {
      CountOfType(ops[..|ops| - 1], metaType, op);
      assert ops == ops[..|ops| - 1] + [ops[|ops| - 1]];
    }
  }

  lemma TypesPartitionElements(ops: seq<POperation>)
    ensures multiset(ops) ==
      multiset(OfType(ops, InputType)) + multiset(OfType(ops, OutputType)) + multiset(OfType(ops, ImportType))
      + multiset(OfType(ops, ExportType)) + multiset(OfType(ops, StakeType)) + multiset(OfType(ops, RewardType))
  {
    hide OfType;
    forall op: POperation, metaType
      ensures multiset(OfType(ops, metaType))[op] == if op.metadata.metaType == metaType then multiset(ops)[op] else 0
    {
      CountOfType(ops, metaType, op);
    }
  }

  /** The operations that have a place, type by type, are all of them. */
  lemma PlacedInputs(kind: TxType, inputs: seq<POperation>)
    requires IsBuildable(kind) && forall op <- inputs :: InputError(op).None? && HasPlace(kind, op.metadata.metaType)
    ensures multiset(inputs) == multiset(OfType(inputs, InputType) + OfType(inputs, ImportType))
    ensures kind != ImportAvax ==> OfType(inputs, ImportType) == []
  {
    TypesPartitionElements(inputs);
    hide OfType;
    NoneOfType(inputs, OutputType);
    NoneOfType(inputs, ExportType);
    NoneOfType(inputs, StakeType);
    NoneOfType(inputs, RewardType);
    NoneOfType(inputs, ImportType);
  }

  lemma PlacedOutputs(kind: TxType, outputs: seq<POperation>)
    requires IsBuildable(kind) && forall op <- outputs :: OutputError(op).None? && HasPlace(kind, op.metadata.metaType)
    ensures multiset(outputs) == multiset(OfType(outputs, OutputType) + OfType(outputs, ExportType) + OfType(outputs, StakeType))
    ensures kind != ExportAvax ==> OfType(outputs, ExportType) == []
    ensures !kind.Staking? ==> OfType(outputs, StakeType) == []
  {
    TypesPartitionElements(outputs);
    hide OfType;
    NoneOfType(outputs, InputType);
    NoneOfType(outputs, ImportType);
    NoneOfType(outputs, RewardType);
    NoneOfType(outputs, ExportType);
    NoneOfType(outputs, StakeType);
  }

  /** The chain an output operation must name: the destination for an exported one. */
  function ChainOf(exportChain: string, op: POperation): string {
    if op.metadata.metaType == ExportType then exportChain else "P"
  }

  lemma CanonicalImage(ops: seq<POperation>, f: POperation -> POperation)
    requires forall op <- ops :: SameUpToDefaults(f(op), op)
    ensures Map(Map(ops, f), CANONICAL) == Map(ops, CANONICAL)
  {
  }

  /** The operations that the transaction keeps, type by type. */
  function Kept(kind: TxType, inputs: seq<POperation>, outputs: seq<POperation>): seq<POperation> {
    match kind
    case ImportAvax => OfType(inputs, InputType) + OfType(inputs, ImportType) + OfType(outputs, OutputType)
    case ExportAvax => OfType(inputs, InputType) + OfType(outputs, OutputType) + OfType(outputs, ExportType)
    case _ => OfType(inputs, InputType) + OfType(outputs, OutputType) + OfType(outputs, StakeType)
  }

  lemma KeptIsAll(kind: TxType, inputs: seq<POperation>, outputs: seq<POperation>)
    requires IsBuildable(kind)
    requires forall op <- inputs :: InputError(op).None? && HasPlace(kind, op.metadata.metaType)
    requires forall op <- outputs :: OutputError(op).None? && HasPlace(kind, op.metadata.metaType)
    ensures multiset(Kept(kind, inputs, outputs)) == multiset(inputs + outputs)
  {
    PlacedInputs(kind, inputs);
    PlacedOutputs(kind, outputs);
    hide OfType, HasPlace, InputError, OutputError;
    var ins := OfType(inputs, InputType) + OfType(inputs, ImportType);
    var outs := OfType(outputs, OutputType) + OfType(outputs, ExportType) + OfType(outputs, StakeType);
    EmptyPartsDropOut(OfType(inputs, InputType), OfType(inputs, ImportType),
                      OfType(outputs, OutputType), OfType(outputs, ExportType), OfType(outputs, StakeType));
    assert Kept(kind, inputs, outputs) == ins + outs;
  }

  lemma EmptyPartsDropOut(a: seq<POperation>, b: seq<POperation>, c: seq<POperation>, d: seq<POperation>, e: seq<POperation>)
    ensures d == [] && e == [] ==> a + b + c == a + b + (c + d + e)
    ensures b == [] && e == [] ==> a + c + d == a + b + (c + d + e)
    ensures b == [] && d == [] ==> a + c + e == a + b + (c + d + e)
  {
  }

  lemma MapThree(a: seq<POperation>, b: seq<POperation>, c: seq<POperation>)
    ensures Map(a + b + c, CANONICAL) == Map(a, CANONICAL) + Map(b, CANONICAL) + Map(c, CANONICAL)
  {
  }

  lemma FittingOpsReturn(cfg: Config, kind: TxType, exportChain: string, inputs: seq<POperation>, outputs: seq<POperation>)
    requires forall op <- inputs :: FitsInput(kind, op)
    requires forall op <- outputs :: FitsOutput(cfg, kind, ChainOf(exportChain, op), op)
    ensures forall op <- inputs :: SameUpToDefaults(ReturnInput(kind)(op), op)
    ensures forall op <- outputs :: SameUpToDefaults(ReturnOutput(cfg, kind, ChainOf(exportChain, op))(op), op)
  {
    hide FitsInput, FitsOutput, ReturnedInput, ReturnedOutput, SameUpToDefaults, ChainOf;
    forall op | op in inputs ensures SameUpToDefaults(ReturnInput(kind)(op), op) {
      FittingParts(cfg, kind, "", op);
      InputComesBackIff(kind, op);
    }
    forall op | op in outputs ensures SameUpToDefaults(ReturnOutput(cfg, kind, ChainOf(exportChain, op))(op), op) {
      FittingParts(cfg, kind, ChainOf(exportChain, op), op);
      OutputComesBackIff(cfg, kind, ChainOf(exportChain, op), op);
    }
  }

  lemma ReturnedIsCanonical(cfg: Config, kind: TxType, exportChain: string, inputs: seq<POperation>, outputs: seq<POperation>)
    requires IsBuildable(kind)
    requires forall op <- inputs :: FitsInput(kind, op)
    requires forall op <- outputs :: FitsOutput(cfg, kind, ChainOf(exportChain, op), op)
    ensures Map(Returned(cfg, kind, exportChain, inputs, outputs), CANONICAL) == Map(Kept(kind, inputs, outputs), CANONICAL)
  {
    FittingOpsReturn(cfg, kind, exportChain, inputs, outputs);
    hide OfType, FitsInput, FitsOutput, ReturnedInput, ReturnedOutput, SameUpToDefaults, Map;
    var ins, outs := OfType(inputs, InputType), OfType(outputs, OutputType);
    var backIns, backOuts := Map(ins, ReturnInput(kind)), Map(outs, ReturnOutput(cfg, kind, "P"));
    CanonicalImage(ins, ReturnInput(kind));
    CanonicalImage(outs, ReturnOutput(cfg, kind, "P"));
    match kind {
      case ImportAvax =>
        var more := OfType(inputs, ImportType);
        CanonicalImage(more, ReturnInput(kind));
        MapThree(ins, more, outs);
        MapThree(backIns, Map(more, ReturnInput(kind)), backOuts);
      case ExportAvax =>
        var more := OfType(outputs, ExportType);
        CanonicalImage(more, ReturnOutput(cfg, kind, exportChain));
        MapThree(ins, outs, more);
        MapThree(backIns, backOuts, Map(more, ReturnOutput(cfg, kind, exportChain)));
      case _ =>
        var more := OfType(outputs, StakeType);
        CanonicalImage(more, ReturnOutput(cfg, kind, "P"));
        MapThree(ins, outs, more);
        MapThree(backIns, backOuts, Map(more, ReturnOutput(cfg, kind, "P")));
    }
  }

  lemma FittingParts(cfg: Config, kind: TxType, chain: string, op: POperation)
    ensures FitsInput(kind, op) ==> op.amount.Some? && op.coinChange.Some?
    ensures FitsOutput(cfg, kind, chain, op) ==>
      op.account.Some? && op.account.value.Bech32? && op.amount.Some? && op.amount.value.value >= 0
  {
  }

  /** Main result: operations that fit and have a place all come back, each once, the same up to defaults. */
  lemma RoundTripUpToDefaults(ctx: Context, tx: Tx, kind: TxType, inputs: seq<POperation>, outputs: seq<POperation>, settings: Settings)
    returns (ops: seq<POperation>)
    requires Constructing(ctx, settings) && AccountsKnown(ctx, inputs)
    requires IsBuildable(kind)
    requires forall op <- inputs :: InputError(op).None? && HasPlace(kind, op.metadata.metaType) && FitsInput(kind, op)
    requires forall op <- outputs ::
      && OutputError(op).None? && HasPlace(kind, op.metadata.metaType)
      && FitsOutput(ctx.cfg, kind, ChainOf(ExportChain(ctx, settings), op), op)
    requires IsBuilt(tx.unsigned, kind, inputs, outputs, settings)
    requires kind == ExportAvax ==> settings.destination.value in ctx.cfg.chains
    ensures ParsesTo(ctx, tx, ops) && ops == InOrder(ctx, kind, ExportChain(ctx, settings), tx.unsigned)
    ensures multiset(Map(ops, CANONICAL)) == multiset(Map(inputs + outputs, CANONICAL))
  {
    hide OfType, Kept, Returned, ReturnedInput, ReturnedOutput, HasPlace, FitsInput, FitsOutput, FirstError, ParsesTo, InputError, OutputError, Map;
    NoErrorMeans(inputs, InputError);
    NoErrorMeans(outputs, OutputError);
    ops := BuildThenParse(ctx, tx, kind, inputs, outputs, settings);
    var exportChain := ExportChain(ctx, settings);
    MapPermutation(ops, Returned(ctx.cfg, kind, exportChain, inputs, outputs), CANONICAL);
    ReturnedIsCanonical(ctx.cfg, kind, exportChain, inputs, outputs);
    KeptIsAll(kind, inputs, outputs);
    MapPermutation(Kept(kind, inputs, outputs), inputs + outputs, CANONICAL);
  }

  // ----- when everything comes back -----

  /** The operation that parsing gives for some input of these. */
  ghost predicate ReturnsInput(kind: TxType, inputs: seq<POperation>, back: POperation) {
    exists k :: 0 <= k < |inputs| && back == ReturnedInput(kind, inputs[k])
  }

  ghost predicate ReturnsOutput(cfg: Config, kind: TxType, exportChain: string, outputs: seq<POperation>, back: POperation) {
    exists k :: 0 <= k < |outputs| && back == ReturnedOutput(cfg, kind, ChainOf(exportChain, outputs[k]), outputs[k])
  }

  lemma InputPartMember(kind: TxType, inputs: seq<POperation>, metaType: MetaType, back: POperation)
    requires back in Map(OfType(inputs, metaType), ReturnInput(kind))
    ensures ReturnsInput(kind, inputs, back)
  {
    hide ReturnedInput;
    var mine := OfType(inputs, metaType);
    var i :| 0 <= i < |mine| && Map(mine, ReturnInput(kind))[i] == back;
    assert mine[i] in inputs;
  }

  lemma OutputPartMember(cfg: Config, kind: TxType, exportChain: string, outputs: seq<POperation>, metaType: MetaType,
                         chain: string, back: POperation)
    requires chain == if metaType == ExportType then exportChain else "P"
    requires back in Map(OfType(outputs, metaType), ReturnOutput(cfg, kind, chain))
    ensures ReturnsOutput(cfg, kind, exportChain, outputs, back)
  {
    hide ReturnedOutput;
    var mine := OfType(outputs, metaType);
    var i :| 0 <= i < |mine| && Map(mine, ReturnOutput(cfg, kind, chain))[i] == back;
    var op := mine[i];
    assert op in mine;
    var k :| 0 <= k < |outputs| && outputs[k] == op;
    assert ChainOf(exportChain, outputs[k]) == chain;
  }

  /** Whatever comes back comes from an input or from an output. */
  lemma ReturnedMember(cfg: Config, kind: TxType, exportChain: string, inputs: seq<POperation>, outputs: seq<POperation>, back: POperation)
    requires back in Returned(cfg, kind, exportChain, inputs, outputs)
    ensures ReturnsInput(kind, inputs, back) || ReturnsOutput(cfg, kind, exportChain, outputs, back)
  {
    hide Map, OfType, ReturnsInput, ReturnsOutput;
    if back in Map(OfType(inputs, InputType), ReturnInput(kind)) {
      InputPartMember(kind, inputs, InputType, back);
    } else if back in Map(OfType(inputs, ImportType), ReturnInput(kind)) {
      InputPartMember(kind, inputs, ImportType, back);
    } else if back in Map(OfType(outputs, OutputType), ReturnOutput(cfg, kind, "P")) {
      OutputPartMember(cfg, kind, exportChain, outputs, OutputType, "P", back);
    } else if back in Map(OfType(outputs, ExportType), ReturnOutput(cfg, kind, exportChain)) {
      OutputPartMember(cfg, kind, exportChain, outputs, ExportType, exportChain, back);
    } else {
      OutputPartMember(cfg, kind, exportChain, outputs, StakeType, "P", back);
    }
  }

  /** Every returned input fits, and fitting is not lost by filling in defaults. */
  lemma LikeReturnedInputFits(kind: TxType, x: POperation, op: POperation)
    requires InputError(x).None? && x.coinChange.Some? && CANONICAL(ReturnedInput(kind, x)) == CANONICAL(op)
    ensures FitsInput(kind, op)
  {
  }

  lemma LikeReturnedOutputFits(cfg: Config, kind: TxType, exportChain: string, x: POperation, op: POperation)
    requires OutputError(x).None? && op.amount.Some? && op.amount.value.value >= 0
    requires CANONICAL(ReturnedOutput(cfg, kind, ChainOf(exportChain, x), x)) == CANONICAL(op)
    ensures FitsOutput(cfg, kind, ChainOf(exportChain, op), op)
  {
  }

  /** An operation has a counterpart among the returned ones. */
  lemma CanonicalCounterpart(ops: seq<POperation>, given: seq<POperation>, i: nat) returns (back: POperation)
    requires multiset(Map(ops, CANONICAL)) == multiset(Map(given, CANONICAL)) && i < |given|
    ensures back in ops && CANONICAL(back) == CANONICAL(given[i])
  {
    assert Map(given, CANONICAL)[i] in multiset(Map(ops, CANONICAL));
    var k :| 0 <= k < |ops| && Map(ops, CANONICAL)[k] == CANONICAL(given[i]);
    back := ops[k];
  }

  lemma ReturnedInputsFit(cfg: Config, kind: TxType, exportChain: string, inputs: seq<POperation>, outputs: seq<POperation>, ops: seq<POperation>)
    requires forall op <- inputs :: InputError(op).None? && IsInputOp(op)
    requires forall op <- outputs :: OutputError(op).None?
    requires multiset(ops) == multiset(Returned(cfg, kind, exportChain, inputs, outputs))
    requires multiset(Map(ops, CANONICAL)) == multiset(Map(inputs + outputs, CANONICAL))
    ensures forall op <- inputs :: FitsInput(kind, op)
  {
    hide Returned, ReturnedInput, ReturnedOutput, Map, FitsInput, InputError, OutputError, Canonical, ChainOf;
    forall op | op in inputs ensures FitsInput(kind, op) {
      var i :| 0 <= i < |inputs| && inputs[i] == op;
      assert (inputs + outputs)[i] == op;
      var back := CanonicalCounterpart(ops, inputs + outputs, i);
      assert back in multiset(ops);
      ReturnedMember(cfg, kind, exportChain, inputs, outputs, back);
      if ReturnsInput(kind, inputs, back) {
        var k :| 0 <= k < |inputs| && back == ReturnedInput(kind, inputs[k]);
        LikeReturnedInputFits(kind, inputs[k], op);
      } else {
        var k :| 0 <= k < |outputs| && back == ReturnedOutput(cfg, kind, ChainOf(exportChain, outputs[k]), outputs[k]);
        InputIsNoOutput(cfg, kind, ChainOf(exportChain, outputs[k]), op, outputs[k]);
      }
    }
  }

  lemma InputIsNoOutput(cfg: Config, kind: TxType, chain: string, input: POperation, output: POperation)
    requires InputError(input).None? && OutputError(output).None?
    ensures CANONICAL(ReturnedOutput(cfg, kind, chain, output)) != CANONICAL(input)
    ensures CANONICAL(ReturnedInput(kind, input)) != CANONICAL(output)
  {
    assert CANONICAL(ReturnedOutput(cfg, kind, chain, output)).metadata.metaType == output.metadata.metaType;
    assert CANONICAL(ReturnedInput(kind, input)).metadata.metaType == input.metadata.metaType;
  }

  lemma ReturnedOutputsFit(cfg: Config, kind: TxType, exportChain: string, inputs: seq<POperation>, outputs: seq<POperation>, ops: seq<POperation>)
    requires forall op <- inputs :: InputError(op).None? && IsInputOp(op)
    requires forall op <- outputs :: OutputError(op).None? && op.amount.Some? && op.amount.value.value >= 0
    requires multiset(ops) == multiset(Returned(cfg, kind, exportChain, inputs, outputs))
    requires multiset(Map(ops, CANONICAL)) == multiset(Map(inputs + outputs, CANONICAL))
    ensures forall op <- outputs :: FitsOutput(cfg, kind, ChainOf(exportChain, op), op)
  {
    hide Returned, ReturnedInput, ReturnedOutput, Map, FitsOutput, InputError, OutputError, Canonical, ChainOf;
    forall op | op in outputs ensures FitsOutput(cfg, kind, ChainOf(exportChain, op), op) {
      var i :| 0 <= i < |outputs| && outputs[i] == op;
      assert (inputs + outputs)[|inputs| + i] == op;
      var back := CanonicalCounterpart(ops, inputs + outputs, |inputs| + i);
      assert back in multiset(ops);
      ReturnedMember(cfg, kind, exportChain, inputs, outputs, back);
      if ReturnsOutput(cfg, kind, exportChain, outputs, back) {
        var k :| 0 <= k < |outputs| && back == ReturnedOutput(cfg, kind, ChainOf(exportChain, outputs[k]), outputs[k]);
        LikeReturnedOutputFits(cfg, kind, exportChain, outputs[k], op);
      } else {
        var k :| 0 <= k < |inputs| && back == ReturnedInput(kind, inputs[k]);
        InputIsNoOutput(cfg, kind, "", inputs[k], op);
      }
    }
  }

  /** Operations that a transaction type has room for, in every part. */
  ghost predicate AllFit(cfg: Config, kind: TxType, exportChain: string, inputs: seq<POperation>, outputs: seq<POperation>) {
    && (forall op <- inputs :: HasPlace(kind, op.metadata.metaType) && FitsInput(kind, op))
    && (forall op <- outputs :: HasPlace(kind, op.metadata.metaType) && FitsOutput(cfg, kind, ChainOf(exportChain, op), op))
  }

  /** Main result: for all matched operations that can be built, parsing gives all of them back, each once and the same up
      to defaults, exactly when every one has a place in the transaction type and fits it. */
  lemma RoundTripIff(ctx: Context, tx: Tx, kind: TxType, inputs: seq<POperation>, outputs: seq<POperation>, settings: Settings)
    returns (ops: seq<POperation>)
    requires Constructing(ctx, settings) && AccountsKnown(ctx, inputs)
    requires IsBuildable(kind)
    requires forall op <- inputs :: InputError(op).None? && IsInputOp(op)
    requires forall op <- outputs :: OutputError(op).None? && op.amount.Some? && op.amount.value.value >= 0
    requires IsBuilt(tx.unsigned, kind, inputs, outputs, settings)
    requires kind == ExportAvax ==> settings.destination.value in ctx.cfg.chains
    ensures ParsesTo(ctx, tx, ops) && ops == InOrder(ctx, kind, ExportChain(ctx, settings), tx.unsigned)
    ensures multiset(Map(ops, CANONICAL)) == multiset(Map(inputs + outputs, CANONICAL)) <==>
            AllFit(ctx.cfg, kind, ExportChain(ctx, settings), inputs, outputs)
  {
    hide Returned, InOrder, IsBuilt, ParsesTo, Map, FirstError, FitsInput, FitsOutput, ChainOf, HasPlace, InputError, OutputError, ExportChain;
    NoErrorMeans(inputs, InputError);
    NoErrorMeans(outputs, OutputError);
    var exportChain := ExportChain(ctx, settings);
    ops := BuildThenParse(ctx, tx, kind, inputs, outputs, settings);
    if AllFit(ctx.cfg, kind, exportChain, inputs, outputs) {
      var again := RoundTripUpToDefaults(ctx, tx, kind, inputs, outputs, settings);
    }
    if multiset(Map(ops, CANONICAL)) == multiset(Map(inputs + outputs, CANONICAL)) {
      SameLength(ops, Returned(ctx.cfg, kind, exportChain, inputs, outputs), inputs + outputs);
      NothingLostIff(ctx.cfg, kind, exportChain, inputs, outputs);
      ReturnedInputsFit(ctx.cfg, kind, exportChain, inputs, outputs, ops);
      ReturnedOutputsFit(ctx.cfg, kind, exportChain, inputs, outputs, ops);
    }
  }

  lemma SameLength(ops: seq<POperation>, returned: seq<POperation>, given: seq<POperation>)
    requires multiset(ops) == multiset(returned) && multiset(Map(ops, CANONICAL)) == multiset(Map(given, CANONICAL))
    ensures |returned| == |given|
  {
    assert |multiset(ops)| == |multiset(returned)|;
    assert |multiset(Map(ops, CANONICAL))| == |multiset(Map(given, CANONICAL))|;
  }
}
