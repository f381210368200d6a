/** From the transactions of a block to the dependencies it is parsed with: which ids are asked for
    (server/mapper/pchain/tx_dependency.go) and what is fetched for them (server/service/backend/pchain/block.go). */
module BlockDependencies {
  import opened Rosetta
  import opened Sequences
  import opened PChain
  import opened PChainDependency
  import opened PChainParserProperties
  import opened BlockFetch

  // ----- GetTxDependenciesIDs -----

  /** The transactions a transaction depends on: those whose outputs it spends, or the staking it rewards. */
  predicate DependsOn(unsigned: UnsignedTx, id: Id) {
    match unsigned
    case RewardTx(stakingTx) => id == stakingTx
    case _ => exists i :: 0 <= i < |BaseIns(unsigned)| && BaseIns(unsigned)[i].utxo.txId == id
  }

  ghost predicate StrictlyIncreasing(ids: seq<Id>) {
    forall i, j :: 0 <= i < j < |ids| ==> ids[i] < ids[j]
  }

  /** Main result: each dependency once, in order; only unknown types have none to give. */
  method GetTxDependenciesIds(unsigned: UnsignedTx) returns (ids: Option<seq<Id>>)
    ensures ids.None? <==> unsigned.UnknownTx?
    ensures ids.Some? ==> StrictlyIncreasing(ids.value) && forall id :: id in ids.value <==> DependsOn(unsigned, id)
  {
    match unsigned {
      case UnknownTx => return None;
      case AdvanceTimeTx => return Some([]);
      case RewardTx(stakingTx) => return Some([stakingTx]);
      case _ =>
    }
    var ins := BaseIns(unsigned);
    var txIds: set<Id> := {};
    for i := 0 to |ins|
      invariant forall id :: id in txIds <==> exists k :: 0 <= k < i && ins[k].utxo.txId == id
    {
      txIds := txIds + {ins[i].utxo.txId};
    }
    var unique := Enumerate(txIds);
    var key := (id: Id) => id;
    var sorted := SortBy(unique, key);
    SortedStrictly(unique, sorted, key);
    assert forall i :: 0 <= i < |sorted| ==> key(sorted[i]) == sorted[i];
    return Some(sorted);
  }

  // ----- the ids of a block -----

  /** All ids that some transaction of the block depends on, possibly several times. */
  ghost predicate CollectsIds(txs: seq<Tx>, ids: seq<Id>) {
    forall id :: id in ids <==> exists k :: 0 <= k < |txs| && DependsOn(txs[k].unsigned, id)
  }

  method CollectIds(txs: seq<Tx>) returns (ids: Option<seq<Id>>)
    ensures ids.None? <==> exists k :: 0 <= k < |txs| && txs[k].unsigned.UnknownTx?
    ensures ids.Some? ==> CollectsIds(txs, ids.value)
  {
    var all: seq<Id> := [];
    for i := 0 to |txs|
      invariant forall k :: 0 <= k < i ==> !txs[k].unsigned.UnknownTx?
      invariant forall id :: id in all <==> exists k :: 0 <= k < i && DependsOn(txs[k].unsigned, id)
    {
      var more := GetTxDependenciesIds(txs[i].unsigned);
      if more.None? {
        return None;
      }
      all := all + more.value;
    }
    return Some(all);
  }

  // ----- the fetched dependencies -----

  /** The answer is the transaction with that id and what the ledger has for it. */
  predicate AnswersFrom(request: Request, ledger: Id -> Dep)
    requires request.answer.Found?
  {
    && request.answer.tx.id == request.id
    && ledger(request.id).tx == Some(request.answer.tx) && ledger(request.id).rewards == request.answer.rewards
  }

  /** The node answers from one ledger: with the transaction asked for, and with reward UTXOs of that transaction. */
  ghost predicate HonestAnswers(job: Job, ledger: Id -> Dep) {
    && (forall i :: 0 <= i < |job.requests| && job.requests[i].answer.Found? ==> AnswersFrom(job.requests[i], ledger))
    && (forall id :: forall r <- ledger(id).rewards :: r.id.txId == id)
  }

  function RequestedIds(job: Job): seq<Id> {
    Map(job.requests, (request: Request) => request.id)
  }

  lemma {:induction false} SequentialIsLedger(job: Job, ledger: Id -> Dep, n: nat)
    requires n <= |job.requests| && job.AllGood() && HonestAnswers(job, ledger)
    ensures forall id :: id in Sequential(job, n) <==> id in RequestedIds(job)[..n]
    ensures forall id <- Sequential(job, n) ::
      Sequential(job, n)[id] == ledger(id) && ledger(id).tx.Some? && ledger(id).tx.value.id == id
  {
    if n > 0 {
      SequentialIsLedger(job, ledger, n - 1);
      var ids := RequestedIds(job);
      assert ids[..n] == ids[..n - 1] + [ids[n - 1]];
      assert job.Good(n - 1) && AnswersFrom(job.requests[n - 1], ledger);
    }
  }

  /** Main result: a fetch that went well, under whatever schedule, has filed every transaction the block depends on
      under its id, and nothing else. */
  lemma FetchedFromLedger(job: Job, ledger: Id -> Dep, run: seq<State>, txs: seq<Tx>)
    requires IsRun(job, run) && Stuck(job, run[|run| - 1]) && job.AllGood()
    requires HonestAnswers(job, ledger) && CollectsIds(txs, RequestedIds(job))
    ensures run[|run| - 1].main.Finished?
    ensures var deps := run[|run| - 1].main.deps;
      && OwnIds(deps)
      && (forall id :: id in deps <==> exists k :: 0 <= k < |txs| && DependsOn(txs[k].unsigned, id))
      && (forall id <- deps :: deps[id] == ledger(id))
  {
    hide Stuck, IsRun, DependsOn;
    OutcomeIsSequential(job, run);
    SequentialIsLedger(job, ledger, |job.requests|);
    assert RequestedIds(job)[..|job.requests|] == RequestedIds(job);
  }
}
