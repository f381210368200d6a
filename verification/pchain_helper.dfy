/** server/mapper/pchain/helper.go: parsing all transactions of a block against the accounts of their dependencies. */
module PChainHelper {
  import opened Rosetta
  import opened Emission
  import opened PChain
  import opened PChainDependency
  import opened PChainParser
  import opened PChainParserProperties

  /** One turn of the loop over the transactions of a block. */
  function TxStep(ctx: Context): (Tx, nat) -> Step<Parsed, ParseError> {
    (tx: Tx, i: nat) => match ParseTx(ctx, tx) case Ok(parsed) => Emit(parsed) case Err(error) => Fail(error)
  }

  /** All transactions parsed, or the error of the first that is not. */
  function ParseAll(ctx: Context, txs: seq<Tx>): Result<seq<Parsed>, ParseError> {
    var e := EmitAll(TxStep(ctx), txs);
    if e.error.Some? then Err(e.error.value) else Ok(e.ops)
  }

  datatype BlockError = NoAddresses | ParseFailed(reason: ParseError)

  /** The dependencies of a block; the genesis block has a nil map, which is None. */
  type BlockDeps = Option<map<Id, SingleTxDependency>>

  /** Ranging over a nil map is ranging over an empty one. */
  function Entries(bd: BlockDeps): map<Id, SingleTxDependency> {
    if bd.Some? then bd.value else map[]
  }

  /** The context that a block is parsed in: its dependencies and the accounts they refer to. */
  function BlockCtx(cfg: Config, bd: BlockDeps, accounts: map<UtxoId, Account>): Context {
    Context(cfg, accounts, if bd.Some? then Some(Views(bd.value)) else None)
  }

  method ParseRosettaTxs(cfg: Config, txs: seq<Tx>, bd: BlockDeps)
    returns (r: Result<seq<Parsed>, BlockError>, ghost accounts: map<UtxoId, Account>)
    requires AllValid(Entries(bd)) && forall k <- Entries(bd) :: Entries(bd)[k].tx.Some?
    modifies Entries(bd).Values
    ensures !AllAddressable(Views(Entries(bd))) <==> r == Err(NoAddresses)
    ensures AllAddressable(Views(Entries(bd))) ==>
      match ParseAll(BlockCtx(cfg, bd, accounts), txs)
      case Ok(transactions) => r == Ok(transactions)
      case Err(reason) => r == Err(ParseFailed(reason))
    ensures AllAddressable(Views(Entries(bd))) && bd.Some? && !cfg.construction ==> BlockContext(BlockCtx(cfg, bd, accounts))
    ensures bd.None? ==> r != Err(NoAddresses) && accounts == map[]
  {
    accounts := map[];
    if bd.None? {
      NoDependencies(cfg.hrp);
    }
    var referenced := GetReferencedAccounts(cfg.hrp, Entries(bd));
    if referenced.None? {
      return Err(NoAddresses), accounts;
    }
    accounts := referenced.value;
    ghost var ctx := BlockCtx(cfg, bd, accounts);
    var parser := new TxParser(cfg, referenced.value, bd);
    hide EmitAll, ParseTx;
    NoTurn(TxStep(ctx));
    var transactions: seq<Parsed> := [];
    for i := 0 to |txs|
      invariant parser.Valid()
      invariant EmitAll(TxStep(ctx), txs[..i]) == Emission(transactions, None)
    {
      Turn(TxStep(ctx), txs, i);
      var parsed := parser.Parse(txs[i]);
      if parsed.Err? {
        return Err(ParseFailed(parsed.error)), accounts;
      }
      transactions := transactions + [parsed.value];
    }
    assert txs[..|txs|] == txs;
    return Ok(transactions), accounts;
  }

  lemma NoDependencies(hrp: string)
    ensures AllAddressable(map[])
    ensures forall accounts :: AreReferencedAccounts(hrp, map[], accounts) ==> accounts == map[]
  {
  }

  /** Main result: without dependencies, as the genesis block is parsed, there is no multisig check, and a transaction fails
      for a missing account exactly when it has a base input and the first is of a known shape. */
  lemma GenesisErrors(ctx: Context, tx: Tx)
    requires !ctx.cfg.construction && ctx.deps.None? && ctx.accounts == map[]
    ensures ParseTx(ctx, tx) != Err(FailedToCheckMultisig)
    ensures ParseTx(ctx, tx) == Err(NoMatchingInputAddresses) <==>
      BaseIns(tx.unsigned) != [] && KnownIn(BaseIns(tx.unsigned)[0].in_)
  {
    hide EmitAll, ParseBuckets;
    var ins, step := BaseIns(tx.unsigned), InputStep(ctx, TypeOf(tx.unsigned), InputType);
    AccountErrorsAreOfInputs(ctx, tx);
    if ins == [] {
      NoTurn(step);
    } else {
      FirstFailureGiven(step, ins, 0, if KnownIn(ins[0].in_) then NoMatchingInputAddresses else UnknownInputType);
    }
  }
}
