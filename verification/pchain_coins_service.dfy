/** server/service/backend/pchain/account.go: AccountCoins, from the node's pages to the listed coins. */
module PChainCoinsService {
  import opened Rosetta
  import opened Sequences
  import opened PChain
  import opened UtxoPaging
  import opened PChainAccount
  import opened PChainBalanceService
  import opened Coins

  /** The assets the listing is restricted to. The error of the currency lookup is not looked at, and what it leaves
      behind is an empty set. */
  function AssetsUsed(node: Node, currencies: seq<RequestedCurrency>): set<Id> {
    match AssetsOf(node, currencies)
    case None => {}
    case Some(assets) => assets
  }

  /** The currency is known to the node and is that of the UTXO. */
  predicate Names(node: Node, currency: RequestedCurrency, u: Utxo) {
    Described(node, currency) && node.describe(currency.symbol).value.assetId == u.asset
  }

  /** The UTXO is of an asset asked for, or none was named. */
  predicate AskedFor(node: Node, currencies: seq<RequestedCurrency>, u: Utxo) {
    currencies == [] || exists i :: 0 <= i < |currencies| && Names(node, currencies[i], u)
  }

  /** There is always an id that is not among finitely many. */
  lemma {:induction false} FreshId(ids: set<Id>) returns (bound: Id)
    ensures forall id <- ids :: id < bound
    decreases |ids|
  {
    if ids == {} {
      bound := 0;
    } else {
      var id :| id in ids;
      bound := FreshId(ids - {id});
      assert forall x <- ids :: x == id || x in ids - {id};
      if bound <= id {
        bound := id + 1;
      }
    }
  }

  /** Main result: a listing is restricted to the assets asked for exactly when the node knows all of them; otherwise it is
      not restricted at all, and no error is returned. */
  lemma RestrictedIff(node: Node, currencies: seq<RequestedCurrency>)
    ensures (forall u :: Wanted(AssetsUsed(node, currencies), u) <==> AskedFor(node, currencies, u)) <==>
            AssetsOf(node, currencies).Some?
    ensures AssetsOf(node, currencies).None? ==> forall u :: Wanted(AssetsUsed(node, currencies), u)
  {
    if AssetsOf(node, currencies).Some? {
      forall u ensures Wanted(AssetsUsed(node, currencies), u) <==> AskedFor(node, currencies, u) {
        if currencies != [] {
          assert node.describe(currencies[0].symbol).value.assetId in AssetsUsed(node, currencies);
        }
      }
    } else {
      var known := set i | 0 <= i < |currencies| && Described(node, currencies[i]) :: node.describe(currencies[i].symbol).value.assetId;
      var bound := FreshId(known);
      var stranger := Utxo(UtxoId(0, 0), bound, OtherOut);
      assert !AskedFor(node, currencies, stranger) by {
        forall i | 0 <= i < |currencies| ensures !Names(node, currencies[i], stranger) {
          assert Described(node, currencies[i]) ==> node.describe(currencies[i].symbol).value.assetId in known;
        }
      }
      assert Wanted(AssetsUsed(node, currencies), stranger);
    }
  }

  /** A request for one currency that the node does not know: the coins of every asset are listed. */
  lemma UnknownCurrencyListsAll(node: Node, currency: RequestedCurrency, u: Utxo)
    requires node.describe(currency.symbol).None?
    ensures Wanted(AssetsUsed(node, [currency]), u) && !AskedFor(node, [currency], u)
  {
    assert !Described(node, [currency][0]);
  }

  /** Exactly the coins of the UTXOs, in the order of their texts. */
  ghost predicate ListsCoinsOf(listed: seq<Coin>, utxos: seq<Utxo>, order: TextOrder) {
    && (forall i, j :: 0 <= i < j < |listed| ==> order(listed[i].id) < order(listed[j].id))
    && forall c :: c in listed <==> IsCoinOf(c, utxos)
  }

  ghost predicate IsCoinOf(c: Coin, utxos: seq<Utxo>) {
    exists u <- utxos :: OutAmount(u.out).Some? && c == Coin(u.id, OutAmount(u.out).value)
  }

  method AccountCoins(node: Node, base: Reader, request: Request, order: TextOrder, ghost ledger: Ledger, ghost owned: seq<Utxo>)
    returns (r: Result<seq<Coin>, Failure>)
    requires HonestNode(node, base.pageSize, ledger) && TellsApart(order)
    requires WellFormed(base, ledger, request.sub.SharedMemory?)
    requires Lists(base.(assets := AssetsUsed(node, request.currencies)), ledger, request.sub.SharedMemory?, owned)
    ensures r.Ok? <==>
      && request.address.Some?
      && Undisturbed(node, base.pageSize, ledger, false, request.sub.SharedMemory?)
      && (forall u <- owned :: OutAmount(u.out).Some?)
      && node.hasBlock(node.postHeight.value)
    ensures r.Ok? ==> ListsCoinsOf(r.value, owned, order)
  {
    if request.address.None? {
      return Err(BadAddress);
    }
    var assets := BuildCurrencyAssetIds(node, request.currencies);
    var reader := base.(assets := if assets.Some? then assets.value else {});
    ghost var shared := request.sub.SharedMemory?;
    WellFormedIgnoresAssets(base, reader.assets, ledger, shared);
    hide WellFormed, Lists, Filtered, OnLedger, Remains, HonestNode, RawOf, Sources, AssetsOf, IsSortedUnique, AreCoinsOf;
    ghost var raw := RawOf(node, reader.pageSize, ledger, Sources(shared));
    RawIsOnLedger(node, reader.pageSize, ledger, Sources(shared));
    SourcesGiveRemains(ledger, shared);
    if raw.Some? {
      FetchedIsOwned(reader, ledger, shared, raw.value, owned);
    }
    var fetched := Fetch(node, reader, false, request.sub.SharedMemory?, ledger);
    if fetched.Err? {
      return Err(fetched.error);
    }
    assert forall u :: u in fetched.value.utxos <==> u in owned;
    var coins := CoinsOf(fetched.value.utxos);
    if coins.None? {
      return Err(NoAmount);
    }
    if !node.hasBlock(fetched.value.height) {
      return Err(NoBlock);
    }
    var listed := SortUnique(coins.value, order);
    ListedAreOwned(fetched.value.utxos, coins.value, order, listed);
    return Ok(listed);
  }

  lemma ListedAreOwned(utxos: seq<Utxo>, coins: seq<Coin>, order: TextOrder, listed: seq<Coin>)
    requires DistinctIds(utxos) && AreCoinsOf(coins, utxos) && IsSortedUnique(coins, order, listed)
    ensures ListsCoinsOf(listed, utxos, order)
  {
    DistinctUtxosDistinctCoins(utxos, coins);
    UniqueHasSameCoins(coins, order, listed);
    forall c ensures c in coins <==> IsCoinOf(c, utxos) {
      if c in coins {
        var i :| 0 <= i < |coins| && coins[i] == c;
        assert utxos[i] in utxos;
      }
      if u :| u in utxos && OutAmount(u.out).Some? && c == Coin(u.id, OutAmount(u.out).value) {
        var i :| 0 <= i < |utxos| && utxos[i] == u;
        assert coins[i] == c;
      }
    }
  }
}
