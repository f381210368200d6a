/** server/mapper/pchain/tx_dependency.go: the transactions whose outputs a block spends. */
module PChainDependency {
  import opened Rosetta
  import opened PChain

  /** What is known of one dependency: the transaction, if any, and the UTXOs its staking reward created. */
  datatype Dep = Dep(tx: Option<Tx>, rewards: seq<Utxo>)

  /** The outputs GetUtxos numbers, in order. */
  function OutsToAdd(unsigned: UnsignedTx): seq<Output> {
    match unsigned
    case SpendTx(_, _, outs) => outs
    case StakeTx(_, _, outs, stake, _) => outs + stake
    case ImportTx(_, outs, _) => outs
    case ExportTx(_, outs, _, _) => outs
    case AdvanceTimeTx => []
    case RewardTx(_) => []
    case UnknownTx => []
  }

  /** The inputs whose origins are looked up: not those imported from another chain. */
  function BaseIns(unsigned: UnsignedTx): seq<Input> {
    match unsigned
    case SpendTx(_, ins, _) => ins
    case StakeTx(_, ins, _, _, _) => ins
    case ImportTx(ins, _, _) => ins
    case ExportTx(ins, _, _, _) => ins
    case _ => []
  }

  function RewardMap(rewards: seq<Utxo>): map<UtxoId, Utxo> {
    if rewards == [] then map[]
    else
      var last := rewards[|rewards| - 1];
      RewardMap(rewards[..|rewards| - 1])[last.id := last]
  }

  function OutKey(txId: Id, i: nat): UtxoId {
    UtxoId(txId, Uint32(i))
  }

  /** The UTXO that the i-th numbered output of a transaction becomes. */
  function OutUtxo(txId: Id, outs: seq<Output>, i: nat): Utxo
    requires i < |outs|
  {
    Utxo(OutKey(txId, i), outs[i].asset, outs[i].out)
  }

  function AddOuts(m: map<UtxoId, Utxo>, txId: Id, outs: seq<Output>, n: nat): map<UtxoId, Utxo>
    requires n <= |outs|
  {
    if n == 0 then m else AddOuts(m, txId, outs, n - 1)[OutKey(txId, n - 1) := OutUtxo(txId, outs, n - 1)]
  }

  function UtxosOf(dep: Dep): map<UtxoId, Utxo> {
    match dep.tx
    case None => RewardMap(dep.rewards)
    case Some(tx) =>
      var outs := OutsToAdd(tx.unsigned);
      AddOuts(RewardMap(dep.rewards), tx.id, outs, |outs|)
  }

  class SingleTxDependency {
    const tx: Option<Tx>
    const rewardUtxos: seq<Utxo>
    var utxosMap: Option<map<UtxoId, Utxo>>

    constructor (tx: Option<Tx>, rewardUtxos: seq<Utxo>)
      ensures Valid() && View() == Dep(tx, rewardUtxos)
    {
      this.tx, this.rewardUtxos, utxosMap := tx, rewardUtxos, None;
    }

    function View(): Dep {
      Dep(tx, rewardUtxos)
    }

    /** A cached map is the map of this dependency. */
    ghost predicate Valid()
      reads this
    {
      utxosMap.Some? ==> utxosMap.value == UtxosOf(View())
    }

    /** Computes the UTXO map once and caches it. */
    method GetUtxos() returns (utxos: map<UtxoId, Utxo>)
      requires Valid()
      modifies this
      ensures Valid() && utxosMap == Some(utxos) && utxos == UtxosOf(View())
      ensures forall k, u :: Shows(View(), k, u) <==> k in utxos && utxos[k] == u
    {
      AllShown(View());
      hide Shows;
      if utxosMap.Some? {
        return utxosMap.value;
      }
      utxos := map[];
      for i := 0 to |rewardUtxos|
        invariant utxos == RewardMap(rewardUtxos[..i])
        invariant utxosMap == old(utxosMap)
      {
        assert rewardUtxos[..i + 1][..i] == rewardUtxos[..i];
        utxos := utxos[rewardUtxos[i].id := rewardUtxos[i]];
      }
      assert rewardUtxos[..|rewardUtxos|] == rewardUtxos;
      if tx.Some? {
        var outsToAdd := OutsToAdd(tx.value.unsigned);
        for i := 0 to |outsToAdd|
          invariant utxos == AddOuts(RewardMap(rewardUtxos), tx.value.id, outsToAdd, i)
          invariant utxosMap == old(utxosMap)
        {
          var key := UtxoId(tx.value.id, Uint32(i));
          utxos := utxos[key := Utxo(key, outsToAdd[i].asset, outsToAdd[i].out)];
        }
      }
      utxosMap := Some(utxos);
    }
  }

  /** Every entry is filed under its own id. */
  lemma {:induction false} RewardMapByIds(rewards: seq<Utxo>)
    ensures forall k <- RewardMap(rewards) :: RewardMap(rewards)[k].id == k
    ensures forall k <- RewardMap(rewards) :: RewardMap(rewards)[k] in rewards
  {
    if rewards != [] {
      RewardMapByIds(rewards[..|rewards| - 1]);
    }
  }

  lemma {:induction false} AddOutsByIds(m: map<UtxoId, Utxo>, txId: Id, outs: seq<Output>, n: nat)
    requires n <= |outs|
    requires forall k <- m :: m[k].id == k
    ensures forall k <- AddOuts(m, txId, outs, n) :: AddOuts(m, txId, outs, n)[k].id == k
    ensures forall k <- AddOuts(m, txId, outs, n) :: k in m || k.txId == txId
  {
    if n > 0 {
      AddOutsByIds(m, txId, outs, n - 1);
    }
  }

  lemma UtxosByIds(dep: Dep)
    ensures forall k <- UtxosOf(dep) :: UtxosOf(dep)[k].id == k
  {
    RewardMapByIds(dep.rewards);
    if dep.tx.Some? {
      var outs := OutsToAdd(dep.tx.value.unsigned);
      AddOutsByIds(RewardMap(dep.rewards), dep.tx.value.id, outs, |outs|);
    }
  }

  /** Output i is found under its own number, as long as numbers do not wrap around. */
  lemma {:induction false} AddOutsFinds(m: map<UtxoId, Utxo>, txId: Id, outs: seq<Output>, n: nat, i: nat)
    requires i < n <= |outs| && |outs| <= TWO_32
    ensures OutKey(txId, i) in AddOuts(m, txId, outs, n)
    ensures AddOuts(m, txId, outs, n)[OutKey(txId, i)] == OutUtxo(txId, outs, i)
  {
    if i < n - 1 {
      AddOutsFinds(m, txId, outs, n - 1, i);
    }
  }

  // ----- what the map holds, told by the dependency's own fields -----

  /** How many UTXOs a transaction leaves on this chain: its base outputs, and after them its stake outputs. */
  function CreatedCount(unsigned: UnsignedTx): nat {
    match unsigned
    case SpendTx(_, _, outs) => |outs|
    case StakeTx(_, _, outs, stake, _) => |outs| + |stake|
    case ImportTx(_, outs, _) => |outs|
    case ExportTx(_, outs, _, _) => |outs|
    case _ => 0
  }

  /** Output number i of the transaction. */
  predicate CreatesOut(unsigned: UnsignedTx, i: nat, out: Output) {
    match unsigned
    case SpendTx(_, _, outs) => i < |outs| && out == outs[i]
    case StakeTx(_, _, outs, stake, _) =>
      if i < |outs| then out == outs[i] else i < |outs| + |stake| && out == stake[i - |outs|]
    case ImportTx(_, outs, _) => i < |outs| && out == outs[i]
    case ExportTx(_, outs, _, _) => i < |outs| && out == outs[i]
    case _ => false
  }

  /** Of the first n outputs of a transaction the i-th is the last with this id; numbers are 32 bits wide. */
  predicate LastNumbered(txId: Id, n: nat, k: UtxoId, i: nat) {
    && i < n && k == UtxoId(txId, i % 0x1_0000_0000)
    && forall l :: i < l < n ==> k.index != l % 0x1_0000_0000
  }

  /** The last of the rewards with this id. */
  predicate LastReward(rewards: seq<Utxo>, k: UtxoId, j: nat) {
    && j < |rewards| && rewards[j].id == k && forall l :: j < l < |rewards| ==> rewards[l].id != k
  }

  /** An output of the transaction has this id. */
  ghost predicate HasOutput(dep: Dep, k: UtxoId) {
    dep.tx.Some? && exists i: nat :: LastNumbered(dep.tx.value.id, CreatedCount(dep.tx.value.unsigned), k, i)
  }

  /** The dependency shows u under k: the output with that number, or else the reward with that id. */
  ghost predicate Shows(dep: Dep, k: UtxoId, u: Utxo) {
    if HasOutput(dep, k) then
      exists i: nat, out ::
        && LastNumbered(dep.tx.value.id, CreatedCount(dep.tx.value.unsigned), k, i)
        && CreatesOut(dep.tx.value.unsigned, i, out) && u == Utxo(k, out.asset, out.out)
    else
      exists j: nat :: LastReward(dep.rewards, k, j) && u == dep.rewards[j]
  }

  lemma {:induction false} RewardMapIs(rewards: seq<Utxo>, k: UtxoId)
    ensures k in RewardMap(rewards) <==> exists j: nat :: LastReward(rewards, k, j)
    ensures forall j: nat :: LastReward(rewards, k, j) ==> k in RewardMap(rewards) && RewardMap(rewards)[k] == rewards[j]
  {
    if rewards != [] {
      var n := |rewards| - 1;
      var rest := rewards[..n];
      RewardMapIs(rest, k);
      if rewards[n].id == k {
        assert LastReward(rewards, k, n);
      } else {
        forall j: nat | j < n ensures LastReward(rewards, k, j) <==> LastReward(rest, k, j) {
          assert forall l :: j <= l < n ==> rest[l] == rewards[l];
        }
      }
    }
  }

  lemma NotTheLast(txId: Id, before: nat, n: nat, k: UtxoId)
    requires n == before + 1 && k != OutKey(txId, before)
    ensures forall i: nat :: LastNumbered(txId, n, k, i) <==> LastNumbered(txId, before, k, i)
  {
  }

  lemma {:induction false} AddOutsAre(m: map<UtxoId, Utxo>, txId: Id, outs: seq<Output>, n: nat, k: UtxoId)
    requires n <= |outs|
    ensures k in AddOuts(m, txId, outs, n) <==> k in m || exists i: nat :: LastNumbered(txId, n, k, i)
    ensures forall i: nat :: LastNumbered(txId, n, k, i) ==>
      k in AddOuts(m, txId, outs, n) && AddOuts(m, txId, outs, n)[k] == Utxo(k, outs[i].asset, outs[i].out)
    ensures k in m && (forall i: nat :: !LastNumbered(txId, n, k, i)) ==> AddOuts(m, txId, outs, n)[k] == m[k]
  {
    if n > 0 {
      AddOutsAre(m, txId, outs, n - 1, k);
      if k == OutKey(txId, n - 1) {
        assert LastNumbered(txId, n, k, n - 1);
      } else {
        NotTheLast(txId, n - 1, n, k);
      }
    }
  }

  lemma CreatedAre(unsigned: UnsignedTx)
    ensures |OutsToAdd(unsigned)| == CreatedCount(unsigned)
    ensures forall i: nat, out :: CreatesOut(unsigned, i, out) <==> i < |OutsToAdd(unsigned)| && out == OutsToAdd(unsigned)[i]
  {
  }

  /** Main result: the map holds exactly what the dependency shows, every output and every reward that no output shadows. */
  lemma ShownIff(dep: Dep, k: UtxoId)
    ensures k in UtxosOf(dep) <==> exists u :: Shows(dep, k, u)
    ensures k in UtxosOf(dep) ==> forall u :: Shows(dep, k, u) <==> u == UtxosOf(dep)[k]
  {
    hide RewardMap, AddOuts, OutsToAdd, LastNumbered, LastReward, CreatesOut, CreatedCount;
    RewardMapIs(dep.rewards, k);
    var rewards := RewardMap(dep.rewards);
    if dep.tx.Some? {
      var outs, txId := OutsToAdd(dep.tx.value.unsigned), dep.tx.value.id;
      CreatedAre(dep.tx.value.unsigned);
      AddOutsAre(rewards, txId, outs, |outs|, k);
      if i: nat :| LastNumbered(txId, |outs|, k, i) {
        assert i < |outs| by { LastIsBelow(txId, |outs|, k, i); }
        assert CreatesOut(dep.tx.value.unsigned, i, outs[i]);
        assert Shows(dep, k, UtxosOf(dep)[k]);
      } else if k in rewards {
        var j: nat :| LastReward(dep.rewards, k, j);
        assert Shows(dep, k, dep.rewards[j]) by { LastIsReward(dep.rewards, k, j); }
      }
    } else if k in rewards {
      var j: nat :| LastReward(dep.rewards, k, j);
      assert Shows(dep, k, dep.rewards[j]) by { LastIsReward(dep.rewards, k, j); }
    }
  }

  lemma AllShown(dep: Dep)
    ensures forall k, u :: Shows(dep, k, u) <==> k in UtxosOf(dep) && UtxosOf(dep)[k] == u
  {
    hide Shows, UtxosOf;
    forall k, u ensures Shows(dep, k, u) <==> k in UtxosOf(dep) && UtxosOf(dep)[k] == u {
      ShownIff(dep, k);
    }
  }

  lemma LastIsBelow(txId: Id, n: nat, k: UtxoId, i: nat)
    requires LastNumbered(txId, n, k, i)
    ensures i < n
  {
  }

  lemma LastIsReward(rewards: seq<Utxo>, k: UtxoId, j: nat)
    requires LastReward(rewards, k, j)
    ensures j < |rewards|
  {
  }

  /** Main result: GetUtxos files the outputs of a transaction under consecutive numbers, rewards notwithstanding. */
  lemma OutsAreNumbered(tx: Tx, rewards: seq<Utxo>, i: nat)
    requires |OutsToAdd(tx.unsigned)| <= TWO_32 && i < |OutsToAdd(tx.unsigned)|
    ensures var utxos := UtxosOf(Dep(Some(tx), rewards));
      OutKey(tx.id, i) in utxos && utxos[OutKey(tx.id, i)] == OutUtxo(tx.id, OutsToAdd(tx.unsigned), i)
  {
    var outs := OutsToAdd(tx.unsigned);
    AddOutsFinds(RewardMap(rewards), tx.id, outs, |outs|, i);
  }

  // ----- the dependencies of a block -----

  type Dependencies = map<Id, Dep>

  /** Some dependency holds this UTXO. */
  ghost predicate Holds(deps: Dependencies, k: Id, u: Utxo) {
    k in deps && Shows(deps[k], u.id, u)
  }

  lemma HoldsIff(deps: Dependencies, k: Id, u: Utxo)
    ensures Holds(deps, k, u) <==> k in deps && u.id in UtxosOf(deps[k]) && UtxosOf(deps[k])[u.id] == u
  {
    hide Shows, UtxosOf;
    if k in deps {
      ShownIff(deps[k], u.id);
    }
  }

  function PAccount(hrp: string, a: ShortId): Account {
    Bech32("P", hrp, a)
  }

  /** One account for each UTXO that has exactly one address, and nothing else. */
  ghost predicate AreReferencedAccounts(hrp: string, deps: Dependencies, accounts: map<UtxoId, Account>) {
    && (forall k, u :: Holds(deps, k, u) && SingleAddress(u.out) ==> u.id in accounts)
    && (forall id <- accounts :: exists k, u ::
          Holds(deps, k, u) && SingleAddress(u.out) && u.id == id && accounts[id] == PAccount(hrp, Addresses(u.out)[0]))
  }

  ghost predicate AllAddressable(deps: Dependencies) {
    forall k, u :: Holds(deps, k, u) ==> !u.out.OtherOut?
  }

  /** The objects behind the dependencies of a block. */
  function Views(bd: map<Id, SingleTxDependency>): Dependencies {
    map k | k in bd :: bd[k].View()
  }

  ghost predicate AllValid(bd: map<Id, SingleTxDependency>)
    reads bd.Values
  {
    forall k <- bd :: bd[k].Valid()
  }

  /** Fills in the accounts of one dependency; None when an output has no addresses to ask for. */
  method AccountsOf(hrp: string, utxos: map<UtxoId, Utxo>, before: map<UtxoId, Account>)
    returns (accounts: Option<map<UtxoId, Account>>)
    requires forall k <- utxos :: utxos[k].id == k
    ensures accounts.None? <==> exists k <- utxos :: utxos[k].out.OtherOut?
    ensures accounts.Some? ==>
      accounts.value.Keys == before.Keys + set k | k in utxos && SingleAddress(utxos[k].out)
    ensures accounts.Some? ==> forall k <- accounts.value ::
      if k in utxos && SingleAddress(utxos[k].out)
      then accounts.value[k] == PAccount(hrp, Addresses(utxos[k].out)[0])
      else k in before && accounts.value[k] == before[k]
  {
    var result := before;
    var remaining := utxos.Keys;
    while remaining != {}
      invariant remaining <= utxos.Keys
      invariant forall k <- utxos.Keys - remaining :: IsAddressable(utxos[k].out)
      invariant result.Keys == before.Keys + set k | k in utxos.Keys - remaining && SingleAddress(utxos[k].out)
      invariant forall k <- result ::
        if k in utxos.Keys - remaining && SingleAddress(utxos[k].out)
        then result[k] == PAccount(hrp, Addresses(utxos[k].out)[0])
        else k in before && result[k] == before[k]
      decreases remaining
    {
      var k :| k in remaining;
      remaining := remaining - {k};
      var utxo := utxos[k];
      if !IsAddressable(utxo.out) {
        return None;
      }
      if |Addresses(utxo.out)| != 1 {
        continue;
      }
      result := result[utxo.id := PAccount(hrp, Addresses(utxo.out)[0])];
    }
    return Some(result);
  }

  /** Collects the accounts that the UTXOs of all dependencies belong to, visiting the map in any order. */
  method GetReferencedAccounts(hrp: string, bd: map<Id, SingleTxDependency>)
    returns (accounts: Option<map<UtxoId, Account>>)
    requires AllValid(bd)
    modifies bd.Values
    ensures AllValid(bd)
    ensures accounts.Some? <==> AllAddressable(Views(bd))
    ensures accounts.Some? ==> AreReferencedAccounts(hrp, Views(bd), accounts.value)
  {
    ghost var deps := Views(bd);
    hide Shows, UtxosOf;
    var result: map<UtxoId, Account> := map[];
    var remaining := bd.Keys;
    while remaining != {}
      invariant remaining <= bd.Keys
      invariant AllValid(bd)
      invariant AllAddressable(Visited(deps, remaining))
      invariant AreReferencedAccounts(hrp, Visited(deps, remaining), result)
      decreases remaining
    {
      var k :| k in remaining;
      assert bd[k].Valid();
      var utxos := bd[k].GetUtxos();
      UtxosByIds(deps[k]);
      var more := AccountsOf(hrp, utxos, result);
      if more.None? {
        var id :| id in utxos && utxos[id].out.OtherOut?;
        HoldsIff(deps, k, utxos[id]);
        return None;
      }
      AddDependency(hrp, deps, remaining, k, result, more.value);
      remaining := remaining - {k};
      result := more.value;
    }
    assert Visited(deps, {}) == deps;
    return Some(result);
  }

  ghost function Visited(deps: Dependencies, remaining: set<Id>): Dependencies {
    deps - remaining
  }

  lemma AddDependency(hrp: string, deps: Dependencies, remaining: set<Id>, k: Id,
                      before: map<UtxoId, Account>, after: map<UtxoId, Account>)
    requires k in deps && k in remaining
    requires AllAddressable(Visited(deps, remaining)) && AreReferencedAccounts(hrp, Visited(deps, remaining), before)
    requires var utxos := UtxosOf(deps[k]);
      && (forall id <- utxos :: IsAddressable(utxos[id].out))
      && after.Keys == before.Keys + (set id | id in utxos && SingleAddress(utxos[id].out))
      && forall id <- after ::
           if id in utxos && SingleAddress(utxos[id].out)
           then after[id] == PAccount(hrp, Addresses(utxos[id].out)[0])
           else id in before && after[id] == before[id]
    ensures AllAddressable(Visited(deps, remaining - {k}))
    ensures AreReferencedAccounts(hrp, Visited(deps, remaining - {k}), after)
  {
    hide UtxosOf, Shows, Addresses;
    var old_, new_, utxos := Visited(deps, remaining), Visited(deps, remaining - {k}), UtxosOf(deps[k]);
    UtxosByIds(deps[k]);
    forall u ensures Holds(deps, k, u) <==> u.id in utxos && utxos[u.id] == u {
      HoldsIff(deps, k, u);
    }
    forall j, u ensures Holds(new_, j, u) <==> Holds(old_, j, u) || (j == k && Holds(deps, k, u)) {
    }
    forall id | id in after
      ensures exists j, u ::
        Holds(new_, j, u) && SingleAddress(u.out) && u.id == id && after[id] == PAccount(hrp, Addresses(u.out)[0])
    {
      if id in utxos && SingleAddress(utxos[id].out) {
        assert Holds(deps, k, utxos[id]) && Holds(new_, k, utxos[id]);
      } else {
        var j, u :| Holds(old_, j, u) && SingleAddress(u.out) && u.id == id
                 && before[id] == PAccount(hrp, Addresses(u.out)[0]);
        assert Holds(new_, j, u);
      }
    }
  }
}
