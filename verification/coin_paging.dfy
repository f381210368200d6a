/** server/service/backend/cchainatomictx/account.go: the coins of an account, fetched page by page, against its balance. */
module CoinPaging {
  import opened Rosetta
  import opened UtxoPaging
  import opened Coins

  /** How many UTXOs the C-chain backend asks for at a time. */
  const PAGE_SIZE: nat := 1024

  /** A node with one full page of coins, whose second page gives the last of them again. */
  function Overlapping(coins: seq<Coin>, next: Cursor): Server<Coin>
    requires coins != []
  {
    (c: Cursor) =>
      if c == START then Some(Page(coins, next)) else if c == next then Some(Page([coins[|coins| - 1]], next)) else None
  }

  /** What that node holds from a cursor on. */
  ghost function OverlapHolds(coins: seq<Coin>): Cursor -> set<Coin>
    requires coins != []
  {
    (c: Cursor) => if c == START then set x | x in coins else {coins[|coins| - 1]}
  }

  const STARTS_HIGH: Cursor -> nat := (c: Cursor) => if c == START then 1 else 0

  lemma OverlappingIsHonest(coins: seq<Coin>, next: Cursor)
    requires |coins| == PAGE_SIZE && next != START
    ensures Honest(Overlapping(coins, next), PAGE_SIZE, OverlapHolds(coins), STARTS_HIGH)
    ensures Pages(Overlapping(coins, next), PAGE_SIZE, OverlapHolds(coins), STARTS_HIGH, START) == Some(coins + [coins[|coins| - 1]])
  {
    var server, last := Overlapping(coins, next), coins[|coins| - 1];
    forall c ensures HonestAt(server, PAGE_SIZE, OverlapHolds(coins), STARTS_HIGH, c) {
      assert (set u | u in [last]) == {last};
      assert last in coins;
    }
    assert Pages(server, PAGE_SIZE, OverlapHolds(coins), STARTS_HIGH, next) == Some([last]);
  }

  lemma SameLastCoin(coins: seq<Coin>, order: TextOrder, listed: seq<Coin>)
    requires coins != [] && DistinctCoins(coins) && IsSortedUnique(coins + [coins[|coins| - 1]], order, listed)
    ensures CoinSum(listed) == CoinSum(coins)
  {
    var all := coins + [coins[|coins| - 1]];
    assert forall c :: c in all <==> c in coins;
    UniqueHasSameCoins(all, order, listed);
    DistinctSumOf(coins, listed);
    DistinctSumIff(coins);
  }

  /** An account of 1024 coins at a node that repeats the last of them on its second page: everything it holds is fetched
      and listed once, and the balance counts that coin twice. */
  lemma OverlapCountsTwice(coins: seq<Coin>, next: Cursor, order: TextOrder, listed: seq<Coin>)
    requires |coins| == PAGE_SIZE && DistinctCoins(coins) && next != START
    requires coins[PAGE_SIZE - 1].amount > 0
    requires IsSortedUnique(coins + [coins[PAGE_SIZE - 1]], order, listed)
    ensures Honest(Overlapping(coins, next), PAGE_SIZE, OverlapHolds(coins), STARTS_HIGH)
    ensures var fetched := Pages(Overlapping(coins, next), PAGE_SIZE, OverlapHolds(coins), STARTS_HIGH, START);
      && fetched == Some(coins + [coins[PAGE_SIZE - 1]])
      && CoinSum(listed) == CoinSum(coins)
      && CoinSum(fetched.value) == CoinSum(listed) + coins[PAGE_SIZE - 1].amount
  {
    hide Honest, Pages, IsSortedUnique, DistinctCoins;
    OverlappingIsHonest(coins, next);
    SameLastCoin(coins, order, listed);
    CoinSumLast(coins, coins[PAGE_SIZE - 1]);
  }
}
