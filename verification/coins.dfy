/** server/service/backend/common/account.go (SortUnique) and the coin listings and balances that use it:
    server/service/backend/cchainatomictx/account.go and server/service/backend/pchain/account.go (AccountCoins). */
module Coins {
  import opened Rosetta
  import opened Sequences
  import opened PChain
  import opened PChainAccount

  datatype Coin = Coin(id: UtxoId, amount: uint64)

  /** The place of a coin id in the order of the ids' texts; different ids have different texts. */
  type TextOrder = UtxoId -> int

  ghost predicate TellsApart(order: TextOrder) {
    forall a, b :: order(a) == order(b) ==> a == b
  }

  function Ids(coins: seq<Coin>): set<UtxoId> {
    set i | 0 <= i < |coins| :: coins[i].id
  }

  /** The last coin with an id. */
  function LastWith(coins: seq<Coin>, id: UtxoId): (c: Coin)
    requires id in Ids(coins)
    ensures c in coins && c.id == id
  {
    if coins[|coins| - 1].id == id then coins[|coins| - 1]
    else
      assert forall i :: 0 <= i < |coins| - 1 ==> coins[i] == coins[..|coins| - 1][i];
      LastWith(coins[..|coins| - 1], id)
  }

  /** Coin k is the last one with its id. */
  ghost predicate NoneAfter(coins: seq<Coin>, k: nat) {
    k < |coins| && forall l :: k < l < |coins| ==> coins[l].id != coins[k].id
  }

  lemma LastWithStep(coins: seq<Coin>, id: UtxoId)
    requires id in Ids(coins)
    ensures coins != []
    ensures var n := |coins| - 1;
      if coins[n].id == id then LastWith(coins, id) == coins[n]
      else id in Ids(coins[..n]) && LastWith(coins, id) == LastWith(coins[..n], id)
  {
    assert forall i :: 0 <= i < |coins| - 1 ==> coins[i] == coins[..|coins| - 1][i];
  }

  lemma {:induction false} LastWithIsLast(coins: seq<Coin>, id: UtxoId)
    requires id in Ids(coins)
    ensures exists k: nat :: NoneAfter(coins, k) && coins[k] == LastWith(coins, id)
  {
    LastWithStep(coins, id);
    hide *;
    var rest, last := coins[..|coins| - 1], coins[|coins| - 1];
    if last.id == id {
      NoneAfterLast(rest, last);
      WithLast(coins);
    } else {
      LastWithIsLast(rest, id);
      var k: nat :| NoneAfter(rest, k) && rest[k] == LastWith(rest, id);
      NoneAfterMore(rest, k, last);
      WithLast(coins);
    }
  }

  lemma NoneAfterLast(rest: seq<Coin>, last: Coin)
    ensures NoneAfter(rest + [last], |rest|) && (rest + [last])[|rest|] == last
  {
  }

  lemma NoneAfterMore(rest: seq<Coin>, k: nat, last: Coin)
    requires NoneAfter(rest, k) && last.id != rest[k].id
    ensures NoneAfter(rest + [last], k) && (rest + [last])[k] == rest[k]
  {
  }

  /** One coin for each id, the last one given, in the order of their texts. */
  ghost predicate IsSortedUnique(coins: seq<Coin>, order: TextOrder, r: seq<Coin>) {
    && (forall i, j :: 0 <= i < j < |r| ==> order(r[i].id) < order(r[j].id))
    && Ids(r) == Ids(coins)
    && (forall i :: 0 <= i < |r| ==> r[i].id in Ids(coins) && r[i] == LastWith(coins, r[i].id))
  }

  method SortUnique(coins: seq<Coin>, order: TextOrder) returns (unique: seq<Coin>)
    requires TellsApart(order)
    ensures IsSortedUnique(coins, order, unique)
  {
    var coinsMap: map<UtxoId, Coin> := map[];
    for i := 0 to |coins|
      invariant coinsMap.Keys == Ids(coins[..i])
      invariant forall id <- coinsMap :: coinsMap[id] == LastWith(coins[..i], id)
    {
      assert coins[..i + 1][..i] == coins[..i];
      IdsSnoc(coins[..i], coins[i]);
      assert coins[..i + 1] == coins[..i] + [coins[i]];
      coinsMap := coinsMap[coins[i].id := coins[i]];
    }
    assert coins[..|coins|] == coins;
    var ids := Enumerate(coinsMap.Keys);
    var sorted := SortBy(ids, order);
    SortedStrictly(ids, sorted, order);
    unique := [];
    for i := 0 to |sorted|
      invariant |unique| == i
      invariant forall j :: 0 <= j < i ==> unique[j].id == sorted[j] && unique[j] == LastWith(coins, sorted[j])
    {
      assert sorted[i] in coinsMap.Keys;
      unique := unique + [coinsMap[sorted[i]]];
    }
    CoinsInPlace(coins, order, sorted, unique);
  }

  lemma CoinsInPlace(coins: seq<Coin>, order: TextOrder, ids: seq<UtxoId>, unique: seq<Coin>)
    requires forall id :: id in ids <==> id in Ids(coins)
    requires forall i, j :: 0 <= i < j < |ids| ==> order(ids[i]) < order(ids[j])
    requires |unique| == |ids| && forall i :: 0 <= i < |ids| ==> unique[i].id == ids[i] && unique[i] == LastWith(coins, ids[i])
    ensures IsSortedUnique(coins, order, unique)
  {
    hide LastWith;
    forall id ensures id in Ids(unique) <==> id in Ids(coins) {
      if id in Ids(coins) {
        var k :| 0 <= k < |ids| && ids[k] == id;
        assert unique[k].id == id;
      }
    }
  }

  lemma IdsSnoc(coins: seq<Coin>, c: Coin)
    ensures Ids(coins + [c]) == Ids(coins) + {c.id}
  {
    var all := coins + [c];
    forall id ensures id in Ids(all) <==> id in Ids(coins) + {c.id} {
      if id in Ids(coins) {
        var k :| 0 <= k < |coins| && coins[k].id == id;
        assert all[k].id == id;
      }
      assert all[|coins|].id == c.id;
    }
  }

  /** Main result: the listing is determined by the coins, whatever order the map was ranged over. */
  lemma {:induction false} SortUniqueIsDetermined(coins: seq<Coin>, order: TextOrder, a: seq<Coin>, b: seq<Coin>)
    requires TellsApart(order) && IsSortedUnique(coins, order, a) && IsSortedUnique(coins, order, b)
    ensures a == b
  {
    forall c ensures multiset(a)[c] == multiset(b)[c] {
      AtMostOnce(a, c);
      AtMostOnce(b, c);
      assert c in a ==> c.id in Ids(b);
      assert c in b ==> c.id in Ids(a);
    }
    SortedIsUnique(a, b, (c: Coin) => order(c.id));
  }

  ghost predicate DistinctCoins(coins: seq<Coin>) {
    forall i, j :: 0 <= i < j < |coins| ==> coins[i].id != coins[j].id
  }

  // ----- what the coins add up to -----

  function CoinSum(coins: seq<Coin>): nat {
    if coins == [] then 0 else CoinSum(coins[..|coins| - 1]) + coins[|coins| - 1].amount
  }

  /** AccountBalance of the C-chain: every fetched coin counts, and an overflow is an error. */
  method AtomicBalance(coins: seq<Coin>) returns (balance: Option<uint64>)
    ensures balance.Some? <==> CoinSum(coins) < TWO_64
    ensures balance.Some? ==> balance.value == CoinSum(coins)
  {
    var sum: uint64 := 0;
    for i := 0 to |coins|
      invariant sum == CoinSum(coins[..i])
    {
      assert coins[..i + 1][..i] == coins[..i];
      CoinSumGrows(coins, i + 1);
      var next := Add64(sum, LowUint64(coins[i].amount));
      if next.None? {
        return None;
      }
      sum := next.value;
    }
    assert coins[..|coins|] == coins;
    return Some(sum);
  }

  lemma {:induction false} CoinSumGrows(coins: seq<Coin>, n: nat)
    requires n <= |coins|
    ensures CoinSum(coins[..n]) <= CoinSum(coins)
    decreases |coins| - n
  {
    if n == |coins| {
      assert coins[..n] == coins;
    } else {
      assert coins[..n + 1][..n] == coins[..n];
      CoinSumGrows(coins, n + 1);
    }
  }

  lemma CoinSumLast(coins: seq<Coin>, c: Coin)
    ensures CoinSum(coins + [c]) == CoinSum(coins) + c.amount
  {
    assert (coins + [c])[..|coins|] == coins;
  }

  lemma {:induction false} CoinSumAppend(a: seq<Coin>, b: seq<Coin>)
    ensures CoinSum(a + b) == CoinSum(a) + CoinSum(b)
    decreases |b|
  {
    if b == [] {
      assert a + b == a;
    } else {
      AppendAllButLast(a, b);
      CoinSumAppend(a, b[..|b| - 1]);
    }
  }

  lemma CoinSumWithout(coins: seq<Coin>, k: nat)
    requires k < |coins|
    ensures CoinSum(coins) == CoinSum(coins[..k] + coins[k + 1..]) + coins[k].amount
  {
    hide CoinSum;
    AroundOne(coins, k);
    CoinSumAppend(coins[..k], coins[k + 1..]);
    CoinSumAppend(coins[..k] + [coins[k]], coins[k + 1..]);
    CoinSumLast(coins[..k], coins[k]);
  }

  /** The sum that counts each id once. */
  function DistinctSum(coins: seq<Coin>): nat {
    if coins == [] then 0
    else
      var n := |coins| - 1;
      DistinctSum(coins[..n]) + if coins[n].id in Ids(coins[..n]) then 0 else coins[n].amount
  }

  ghost predicate OneCoinPerId(coins: seq<Coin>) {
    forall c, d :: c in coins && d in coins && c.id == d.id ==> c == d
  }

  lemma NoCoins(coins: seq<Coin>)
    ensures coins == [] || exists c :: c in coins
  {
    if coins != [] {
      assert coins[0] in coins;
    }
  }

  lemma {:induction false} DistinctSumOf(coins: seq<Coin>, unique: seq<Coin>)
    requires OneCoinPerId(coins) && DistinctCoins(unique) && forall c :: c in unique <==> c in coins
    ensures CoinSum(unique) == DistinctSum(coins)
  {
    if coins == [] {
      assert forall c :: c !in unique;
      NoCoins(unique);
    } else {
      var n := |coins| - 1;
      var c, before := coins[n], coins[..n];
      assert coins == before + [c];
      if c.id in Ids(before) {
        var k :| 0 <= k < n && before[k].id == c.id;
        assert before[k] in coins;
        DistinctSumOf(before, unique);
      } else {
        assert c !in before;
        var k :| 0 <= k < |unique| && unique[k] == c;
        CoinSumWithout(unique, k);
        WithoutCoin(unique, k);
        DistinctSumOf(before, unique[..k] + unique[k + 1..]);
      }
    }
  }

  lemma WithoutCoin(coins: seq<Coin>, k: nat)
    requires k < |coins| && DistinctCoins(coins)
    ensures var rest := coins[..k] + coins[k + 1..];
      DistinctCoins(rest) && forall c :: c in rest <==> c in coins && c != coins[k]
  {
    var rest := coins[..k] + coins[k + 1..];
    forall c ensures c in rest <==> c in coins && c != coins[k] {
      if c in coins && c != coins[k] {
        var i :| 0 <= i < |coins| && coins[i] == c;
        assert c == rest[if i < k then i else i - 1];
      }
    }
  }

  /** A coin of some value that is listed again later. */
  ghost predicate RepeatsValue(coins: seq<Coin>) {
    exists i, j :: 0 <= i < j < |coins| && coins[i].id == coins[j].id && coins[j].amount > 0
  }

  lemma RepeatsSnoc(coins: seq<Coin>, c: Coin)
    ensures RepeatsValue(coins + [c]) <==> RepeatsValue(coins) || (c.id in Ids(coins) && c.amount > 0)
  {
    var n, all := |coins|, coins + [c];
    if i: nat, j: nat :| i < j < n && coins[i].id == coins[j].id && coins[j].amount > 0 {
      assert all[i].id == all[j].id && all[j].amount > 0;
    }
    if i: nat :| i < n && coins[i].id == c.id && c.amount > 0 {
      assert all[i].id == all[n].id && all[n].amount > 0;
    }
  }

  lemma {:induction false} DistinctSumIff(coins: seq<Coin>)
    ensures DistinctSum(coins) <= CoinSum(coins)
    ensures DistinctSum(coins) == CoinSum(coins) <==> !RepeatsValue(coins)
  {
    hide RepeatsValue;
    if coins == [] {
      assert !RepeatsValue(coins) by { NothingRepeats(); }
    } else {
      var n := |coins| - 1;
      DistinctSumIff(coins[..n]);
      RepeatsSnoc(coins[..n], coins[n]);
      assert coins == coins[..n] + [coins[n]];
    }
  }

  lemma NothingRepeats()
    ensures !RepeatsValue([])
  {
  }

  lemma UniqueHasSameCoins(coins: seq<Coin>, order: TextOrder, unique: seq<Coin>)
    requires OneCoinPerId(coins) && IsSortedUnique(coins, order, unique)
    ensures DistinctCoins(unique) && forall c :: c in unique <==> c in coins
  {
    forall c ensures c in unique <==> c in coins {
      if c in unique {
        assert c.id in Ids(coins);
      }
      if c in coins {
        assert c.id in Ids(coins) && c.id in Ids(unique);
        var k :| 0 <= k < |unique| && unique[k].id == c.id;
        assert unique[k] == LastWith(coins, c.id);
      }
    }
  }

  /** Main result: the C-chain balance adds up the fetched coins without removing repetitions, so it agrees with the
      listed coins exactly when overlapping pages repeated no coin of value. */
  lemma AtomicBalanceIff(coins: seq<Coin>, order: TextOrder, listed: seq<Coin>)
    requires OneCoinPerId(coins) && IsSortedUnique(coins, order, listed)
    ensures CoinSum(listed) <= CoinSum(coins)
    ensures CoinSum(listed) == CoinSum(coins) <==> !RepeatsValue(coins)
  {
    UniqueHasSameCoins(coins, order, listed);
    DistinctSumOf(coins, listed);
    DistinctSumIff(coins);
  }

  // ----- coins of a P-chain account -----

  /** The coins of the filtered UTXOs; None when an output has no amount. */
  method CoinsOf(utxos: seq<Utxo>) returns (coins: Option<seq<Coin>>)
    ensures coins.Some? <==> forall u <- utxos :: OutAmount(u.out).Some?
    ensures coins.Some? ==> AreCoinsOf(coins.value, utxos)
  {
    var r: seq<Coin> := [];
    for i := 0 to |utxos|
      invariant |r| == i
      invariant forall j :: 0 <= j < i ==> OutAmount(utxos[j].out).Some? && r[j] == Coin(utxos[j].id, OutAmount(utxos[j].out).value)
    {
      var amount := OutAmount(utxos[i].out);
      if amount.None? {
        assert utxos[i] in utxos;
        return None;
      }
      r := r + [Coin(utxos[i].id, amount.value)];
    }
    return Some(r);
  }

  ghost predicate AreCoinsOf(coins: seq<Coin>, utxos: seq<Utxo>) {
    && |coins| == |utxos|
    && forall i :: 0 <= i < |utxos| ==>
         OutAmount(utxos[i].out).Some? && coins[i] == Coin(utxos[i].id, OutAmount(utxos[i].out).value)
  }

  /** Value in outputs that the balance passes over: locks inside locks. */
  function IgnoredSum(utxos: seq<Utxo>): nat {
    if utxos == [] then 0
    else
      var last := utxos[|utxos| - 1].out;
      IgnoredSum(utxos[..|utxos| - 1]) + if PlainOut(last).None? && OutAmount(last).Some? then OutAmount(last).value else 0
  }

  lemma {:induction false} CoinSumSplits(coins: seq<Coin>, utxos: seq<Utxo>)
    requires AreCoinsOf(coins, utxos)
    ensures CoinSum(coins) == SumOf(utxos, PLAIN) + IgnoredSum(utxos)
  {
    if utxos != [] {
      var n := |utxos| - 1;
      CoinSumSplits(coins[..n], utxos[..n]);
      var out := utxos[n].out;
      assert PlainOut(out).Some? ==> OutAmount(out) == Some(PlainAmount(out));
    }
  }

  lemma DistinctUtxosDistinctCoins(utxos: seq<Utxo>, coins: seq<Coin>)
    requires DistinctIds(utxos) && AreCoinsOf(coins, utxos)
    ensures OneCoinPerId(coins) && !RepeatsValue(coins)
  {
    forall c, d | c in coins && d in coins && c.id == d.id ensures c == d {
      var i :| 0 <= i < |coins| && coins[i] == c;
      var j :| 0 <= j < |coins| && coins[j] == d;
      assert utxos[i].id == utxos[j].id;
    }
  }

  /** Main result: the listed coins add up to the total before stake, apart from locks inside locks, which the listing
      counts and the balance does not. */
  lemma ListedCoinsAddUp(utxos: seq<Utxo>, coins: seq<Coin>, order: TextOrder, listed: seq<Coin>)
    requires DistinctIds(utxos) && AreCoinsOf(coins, utxos) && IsSortedUnique(coins, order, listed)
    ensures CoinSum(listed) == SumOf(utxos, PLAIN) + IgnoredSum(utxos)
    ensures CoinSum(listed) == SumOf(utxos, PLAIN) <==> IgnoredSum(utxos) == 0
  {
    DistinctUtxosDistinctCoins(utxos, coins);
    hide OneCoinPerId, RepeatsValue, IsSortedUnique, AreCoinsOf, DistinctIds;
    AtomicBalanceIff(coins, order, listed);
    CoinSumSplits(coins, utxos);
  }
}
