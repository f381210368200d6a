/** From the fetched dependencies of a block to its parsed transactions (server/service/backend/pchain/block.go and
    server/mapper/pchain/helper.go). */
module BlockParsing {
  import opened Rosetta
  import opened Emission
  import opened PChain
  import opened PChainDependency
  import opened PChainParser
  import opened PChainParserProperties
  import opened PChainBlockParse
  import opened PChainHelper
  import opened BlockFetch
  import opened BlockDependencies

  /** The transaction an input names created the UTXO, or is of a kind that creates UTXOs it does not show. */
  ghost predicate OriginKnown(ledger: Id -> Dep, id: UtxoId) {
    Explains(ledger(id.txId), id)
  }

  /** Among the dependencies fetched for its block, the UTXO of a transaction's input is found exactly when its origin
      is known on the ledger. */
  lemma FetchedResolvesIff(job: Job, ledger: Id -> Dep, run: seq<State>, txs: seq<Tx>, k: nat, i: nat)
    requires IsRun(job, run) && Stuck(job, run[|run| - 1]) && job.AllGood()
    requires HonestAnswers(job, ledger) && CollectsIds(txs, RequestedIds(job))
    requires k < |txs| && i < |BaseIns(txs[k].unsigned)|
    ensures run[|run| - 1].main.Finished?
    ensures var utxo := BaseIns(txs[k].unsigned)[i].utxo;
      Resolvable(run[|run| - 1].main.deps, utxo) <==> OriginKnown(ledger, utxo)
  {
    FetchedFromLedger(job, ledger, run, txs);
    hide Stuck, IsRun, HonestAnswers, CollectsIds, Explains, DependsOn;
  }

  /** Every base input of the block has a known origin. */
  ghost predicate OriginsKnown(ledger: Id -> Dep, txs: seq<Tx>) {
    forall k, i | 0 <= k < |txs| && 0 <= i < |BaseIns(txs[k].unsigned)| :: OriginKnown(ledger, BaseIns(txs[k].unsigned)[i].utxo)
  }

  /** Of the inputs of transaction k, the first that stops the parse is one without a known origin. */
  ghost predicate LosesKnownOrigin(ctx: Context, ledger: Id -> Dep, ins: seq<Input>, i: nat)
    requires ctx.deps.Some? && i < |ins|
  {
    && KnownIn(ins[i].in_) && !OriginKnown(ledger, ins[i].utxo)
    && forall j :: 0 <= j < i ==> ReadsWell(ctx, ins[j])
  }

  /** Transaction k is the first that fails, and it fails on a base input without a known origin. */
  ghost predicate FailsOnOrigin(ctx: Context, ledger: Id -> Dep, txs: seq<Tx>, k: nat)
    requires ctx.deps.Some? && k < |txs|
  {
    && (forall j :: 0 <= j < k ==> ParseTx(ctx, txs[j]).Ok?)
    && exists i :: 0 <= i < |BaseIns(txs[k].unsigned)| && LosesKnownOrigin(ctx, ledger, BaseIns(txs[k].unsigned), i)
  }

  /** What the account errors of transaction k come from. */
  ghost predicate ErrorsKnown(ctx: Context, ledger: Id -> Dep, txs: seq<Tx>, k: nat)
    requires ctx.deps.Some? && k < |txs|
  {
    var ins := BaseIns(txs[k].unsigned);
    && ParseTx(ctx, txs[k]) != Err(NoMatchingInputAddresses)
    && (ParseTx(ctx, txs[k]) == Err(FailedToCheckMultisig) <==> exists i :: 0 <= i < |ins| && LosesKnownOrigin(ctx, ledger, ins, i))
  }

  /** The error of a block is that of its first transaction that fails. */
  lemma BlockErrorIff(ctx: Context, ledger: Id -> Dep, txs: seq<Tx>)
    requires ctx.deps.Some? && forall k :: 0 <= k < |txs| ==> ErrorsKnown(ctx, ledger, txs, k)
    ensures ParseAll(ctx, txs) != Err(NoMatchingInputAddresses)
    ensures ParseAll(ctx, txs) == Err(FailedToCheckMultisig) <==>
      exists k :: 0 <= k < |txs| && FailsOnOrigin(ctx, ledger, txs, k)
  {
    hide ParseTx, EmitAll, LosesKnownOrigin, BaseIns;
    var step := TxStep(ctx);
    if ParseAll(ctx, txs).Err? {
      ErrorHasFirst(step, txs);
      var k: nat :| k < |txs| && FailsFirst(step, txs, k, ParseAll(ctx, txs).error);
      assert ErrorsKnown(ctx, ledger, txs, k);
      assert ParseAll(ctx, txs).error == FailedToCheckMultisig ==> FailsOnOrigin(ctx, ledger, txs, k);
    }
    if k: nat :| k < |txs| && FailsOnOrigin(ctx, ledger, txs, k) {
      assert ErrorsKnown(ctx, ledger, txs, k);
      FirstFailureGiven(step, txs, k, ParseTx(ctx, txs[k]).error);
    }
  }

  /** Main result: parsed against the dependencies that were fetched for it under any schedule, a block never fails for a
      missing account; it fails in the multisig check exactly when the first transaction that fails has, as the first
      base input that stops it, one whose origin is not known on the ledger. */
  lemma FetchedBlockParses(job: Job, ledger: Id -> Dep, run: seq<State>, txs: seq<Tx>, ctx: Context)
    requires IsRun(job, run) && Stuck(job, run[|run| - 1]) && job.AllGood()
    requires HonestAnswers(job, ledger) && CollectsIds(txs, RequestedIds(job))
    requires BlockContext(ctx)
    requires run[|run| - 1].main.Finished? && ctx.deps.value == run[|run| - 1].main.deps
    ensures ParseAll(ctx, txs) != Err(NoMatchingInputAddresses)
    ensures ParseAll(ctx, txs) == Err(FailedToCheckMultisig) <==>
      exists k :: 0 <= k < |txs| && FailsOnOrigin(ctx, ledger, txs, k)
    ensures OriginsKnown(ledger, txs) ==> ParseAll(ctx, txs) != Err(FailedToCheckMultisig)
  {
    assert ctx.deps.Some?;
    hide Stuck, IsRun, HonestAnswers, CollectsIds, BlockContext, ParseAll, ErrorsKnown, FailsOnOrigin, OriginsKnown;
    forall k | 0 <= k < |txs| ensures ErrorsKnown(ctx, ledger, txs, k) {
      TxFailsOnOrigin(job, ledger, run, txs, ctx, k);
    }
    BlockErrorIff(ctx, ledger, txs);
    if OriginsKnown(ledger, txs) {
      forall k | 0 <= k < |txs| ensures !FailsOnOrigin(ctx, ledger, txs, k) {
        KnownIsNotLost(ctx, ledger, txs, k);
      }
    }
  }

  lemma KnownIsNotLost(ctx: Context, ledger: Id -> Dep, txs: seq<Tx>, k: nat)
    requires ctx.deps.Some? && OriginsKnown(ledger, txs) && k < |txs|
    ensures !FailsOnOrigin(ctx, ledger, txs, k)
  {
    hide BaseIns, OriginKnown, ReadsWell, ParseTx;
  }

  /** The errors of one transaction about accounts, told by the ledger. */
  lemma TxFailsOnOrigin(job: Job, ledger: Id -> Dep, run: seq<State>, txs: seq<Tx>, ctx: Context, k: nat)
    requires IsRun(job, run) && Stuck(job, run[|run| - 1]) && job.AllGood()
    requires HonestAnswers(job, ledger) && CollectsIds(txs, RequestedIds(job))
    requires BlockContext(ctx) && k < |txs|
    requires run[|run| - 1].main.Finished? && ctx.deps.value == run[|run| - 1].main.deps
    ensures ErrorsKnown(ctx, ledger, txs, k)
  {
    hide Stuck, IsRun, HonestAnswers, CollectsIds, OriginKnown, Resolvable, ReadsWell, ParseTx, BaseIns, AllAddressable, AreReferencedAccounts;
    ParseAccountErrors(ctx, txs[k]);
    var ins := BaseIns(txs[k].unsigned);
    forall i | 0 <= i < |ins| ensures LosesOrigin(ctx, ins, i) <==> LosesKnownOrigin(ctx, ledger, ins, i) {
      FetchedResolvesIff(job, ledger, run, txs, k, i);
    }
  }

  /** Main result, for the objects themselves: from the ids of a block over the concurrent fetch to its operations. */
  method ParseFetchedBlock(cfg: Config, txs: seq<Tx>, bd: map<Id, SingleTxDependency>, ghost job: Job, ghost ledger: Id -> Dep, ghost run: seq<State>)
    returns (r: Result<seq<Parsed>, BlockError>, ghost accounts: map<UtxoId, Account>)
    requires AllValid(bd) && !cfg.construction
    requires IsRun(job, run) && Stuck(job, run[|run| - 1]) && job.AllGood()
    requires HonestAnswers(job, ledger) && CollectsIds(txs, RequestedIds(job))
    requires run[|run| - 1].main.Finished? && Views(bd) == run[|run| - 1].main.deps
    modifies bd.Values
    ensures r != Err(ParseFailed(NoMatchingInputAddresses))
    ensures AllAddressable(run[|run| - 1].main.deps) ==>
      var ctx := Context(cfg, accounts, Some(run[|run| - 1].main.deps));
      r == Err(ParseFailed(FailedToCheckMultisig)) <==> exists k :: 0 <= k < |txs| && FailsOnOrigin(ctx, ledger, txs, k)
    ensures OriginsKnown(ledger, txs) ==> r != Err(ParseFailed(FailedToCheckMultisig))
    ensures r == Err(NoAddresses) <==> !AllAddressable(run[|run| - 1].main.deps)
  {
    FetchedFromLedger(job, ledger, run, txs);
    hide Stuck, IsRun, HonestAnswers, CollectsIds, BlockContext, OriginsKnown, FailsOnOrigin, ParseAll;
    forall k | k in bd ensures bd[k].tx.Some? {
      assert Views(bd)[k] == bd[k].View();
    }
    r, accounts := ParseRosettaTxs(cfg, txs, Some(bd));
    if AllAddressable(Views(bd)) {
      FetchedBlockParses(job, ledger, run, txs, BlockCtx(cfg, Some(bd), accounts));
    }
  }

  /** Main result: a reward of a block is parsed exactly when the ledger's transaction it names is a staking one whose
      rewards are readable: the fetch has always brought it. */
  lemma FetchedRewardParsesIff(job: Job, ledger: Id -> Dep, run: seq<State>, txs: seq<Tx>, ctx: Context, k: nat)
    requires IsRun(job, run) && Stuck(job, run[|run| - 1]) && job.AllGood()
    requires HonestAnswers(job, ledger) && CollectsIds(txs, RequestedIds(job))
    requires BlockContext(ctx) && k < |txs| && txs[k].unsigned.RewardTx?
    requires run[|run| - 1].main.Finished? && ctx.deps.value == run[|run| - 1].main.deps
    ensures var dep := ledger(txs[k].unsigned.stakingTx);
      ParseTx(ctx, txs[k]).Ok? <==> dep.tx.Some? && dep.tx.value.unsigned.StakeTx? && RewardsRead(ctx.cfg, dep.rewards)
  {
    InBlock(ctx);
    BlockTxParsesIff(ctx, txs[k]);
    FetchedFromLedger(job, ledger, run, txs);
    hide Stuck, IsRun, HonestAnswers, CollectsIds, BlockContext, ParseTx, RewardsRead;
    assert DependsOn(txs[k].unsigned, txs[k].unsigned.stakingTx);
  }
}
