/** What the figures of server/service/backend/pchain/account.go mean: of which assets they are, and how the balance and
    the coin listing of one account compare. */
module PChainFigures {
  import opened Rosetta
  import opened PChain
  import opened PChainAccount
  import opened PChainBalanceService
  import opened PChainCoinsService
  import opened Coins

  // ----- the assets of a figure -----

  /** A sum over the UTXOs of some assets. */
  function SumIn(assets: set<Id>, utxos: seq<Utxo>, amount: Out -> nat): nat {
    if utxos == [] then 0
    else
      var u := utxos[|utxos| - 1];
      SumIn(assets, utxos[..|utxos| - 1], amount) + if u.asset in assets then amount(u.out) else 0
  }

  /** What an encoded stake output counts for. */
  function StakeOf(output: Option<Output>): nat {
    if output.Some? then UnsharedAmount(output.value.out) else 0
  }

  function StakeIn(assets: set<Id>, raw: seq<Raw>, decode: OutputCodec): nat {
    if raw == [] then 0
    else
      StakeIn(assets, raw[..|raw| - 1], decode)
      + if Outside(assets, decode(raw[|raw| - 1])) then 0 else StakeOf(decode(raw[|raw| - 1]))
  }

  predicate Outside(assets: set<Id>, output: Option<Output>) {
    output.Some? && output.value.asset !in assets
  }

  /** The figure a sub-account stands for, of some assets only. */
  function FigureIn(assets: set<Id>, owned: seq<Utxo>, stake: seq<Raw>, reader: Reader, sub: SubAccount): nat {
    match sub
    case UnlockedPart => SumIn(assets, owned, Open(reader.now))
    case LockedStakeablePart => SumIn(assets, owned, Stakeable(reader.now))
    case LockedNotStakeablePart => SumIn(assets, owned, Timed(reader.now))
    case StakedPart => StakeIn(assets, stake, reader.decodeOutput)
    case _ => SumIn(assets, owned, PLAIN) + StakeIn(assets, stake, reader.decodeOutput)
  }

  predicate CountsStake(sub: SubAccount) {
    !sub.UnlockedPart? && !sub.LockedStakeablePart? && !sub.LockedNotStakeablePart?
  }

  /** No UTXO of another asset has an amount that counts. */
  ghost predicate NothingElseOwned(assets: set<Id>, owned: seq<Utxo>, amount: Out -> nat) {
    forall u <- owned :: u.asset !in assets ==> amount(u.out) == 0
  }

  ghost predicate NothingElseStaked(assets: set<Id>, stake: seq<Raw>, decode: OutputCodec) {
    forall raw <- stake :: Outside(assets, decode(raw)) ==> StakeOf(decode(raw)) == 0
  }

  /** Nothing of another asset is in what the sub-account counts. */
  ghost predicate NothingElse(assets: set<Id>, owned: seq<Utxo>, stake: seq<Raw>, reader: Reader, sub: SubAccount) {
    match sub
    case UnlockedPart => NothingElseOwned(assets, owned, Open(reader.now))
    case LockedStakeablePart => NothingElseOwned(assets, owned, Stakeable(reader.now))
    case LockedNotStakeablePart => NothingElseOwned(assets, owned, Timed(reader.now))
    case StakedPart => NothingElseStaked(assets, stake, reader.decodeOutput)
    case _ => NothingElseOwned(assets, owned, PLAIN) && NothingElseStaked(assets, stake, reader.decodeOutput)
  }

  lemma {:induction false} SumInIff(assets: set<Id>, utxos: seq<Utxo>, amount: Out -> nat)
    ensures SumIn(assets, utxos, amount) <= SumOf(utxos, amount)
    ensures SumIn(assets, utxos, amount) == SumOf(utxos, amount) <==> NothingElseOwned(assets, utxos, amount)
  {
    if utxos != [] {
      var n := |utxos| - 1;
      SumInIff(assets, utxos[..n], amount);
      assert forall u :: u in utxos <==> u in utxos[..n] || u == utxos[n];
    }
  }

  lemma {:induction false} StakeInIff(assets: set<Id>, raw: seq<Raw>, decode: OutputCodec)
    ensures StakeIn(assets, raw, decode) <= UnsharedSum(raw, decode)
    ensures StakeIn(assets, raw, decode) == UnsharedSum(raw, decode) <==> NothingElseStaked(assets, raw, decode)
  {
    hide UnsharedAmount, Outside;
    if raw != [] {
      var n := |raw| - 1;
      StakeInIff(assets, raw[..n], decode);
      assert forall a :: a in raw <==> a in raw[..n] || a == raw[n];
    }
  }

  /** Main result: the figure, which is reported in the native currency whatever was asked for, is that of some assets,
      such as the native one, exactly when nothing of value in what it counts is of another asset. */
  lemma FigureIsOfAssetsIff(assets: set<Id>, owned: seq<Utxo>, stake: seq<Raw>, reader: Reader, sub: SubAccount)
    ensures FigureIn(assets, owned, stake, reader, sub) <= Figure(owned, stake, reader, sub)
    ensures FigureIn(assets, owned, stake, reader, sub) == Figure(owned, stake, reader, sub) <==>
            NothingElse(assets, owned, stake, reader, sub)
  {
    hide SumOf, SumIn, UnsharedSum, StakeIn, NothingElseOwned, NothingElseStaked;
    SumInIff(assets, owned, Open(reader.now));
    SumInIff(assets, owned, Stakeable(reader.now));
    SumInIff(assets, owned, Timed(reader.now));
    SumInIff(assets, owned, PLAIN);
    StakeInIff(assets, stake, reader.decodeOutput);
  }

  /** Main result: UTXOs are restricted to the currencies asked for and stake is not, so the figure is that of the assets
      asked for exactly when it counts no stake or none of value in another asset. */
  lemma AskedFigureIff(node: Node, base: Reader, request: Request, ledger: Ledger, owned: seq<Utxo>, stake: seq<Raw>)
    requires request.currencies != [] && AssetsOf(node, request.currencies).Some?
    requires Lists(base.(assets := AssetsOf(node, request.currencies).value), ledger, request.sub.SharedMemory?, owned)
    ensures var assets := AssetsOf(node, request.currencies).value;
      FigureIn(assets, owned, stake, base, request.sub) == Figure(owned, stake, base, request.sub) <==>
        !CountsStake(request.sub) || NothingElseStaked(assets, stake, base.decodeOutput)
  {
    var assets := AssetsOf(node, request.currencies).value;
    assert node.describe(request.currencies[0].symbol).value.assetId in assets;
    hide AssetsOf, Figure, FigureIn, NothingElseStaked;
    FigureIsOfAssetsIff(assets, owned, stake, base, request.sub);
  }

  /** Asked for one asset, an account without UTXOs that stakes 7 of another is told 7; and asked for none in particular,
      one that owns 7 of another asset than the native one is told 7 in the native currency. */
  lemma OtherAssetsAreTold(base: Reader, asked: Id, native: Id, asset: Id, a: ShortId, raw: Raw, id: UtxoId)
    requires asset != asked && asset != native
    requires base.decodeOutput(raw) == Some(Output(asset, Transfer(TransferOutput(7, 0, 1, [a]))))
    ensures Figure([], [raw], base, NoSubAccount) == 7 && FigureIn({asked}, [], [raw], base, NoSubAccount) == 0
    ensures var u := Utxo(id, asset, Transfer(TransferOutput(7, 0, 1, [a])));
      Figure([u], [], base, NoSubAccount) == 7 && FigureIn({native}, [u], [], base, NoSubAccount) == 0
  {
    var u := Utxo(id, asset, Transfer(TransferOutput(7, 0, 1, [a])));
    assert [raw][..0] == [] && [u][..0] == [];
    assert UnsharedSum([], base.decodeOutput) == 0 && StakeIn({asked}, [], base.decodeOutput) == 0;
    assert SumOf([], PLAIN) == 0 && SumIn({native}, [], PLAIN) == 0;
  }

  // ----- the balance and the coins -----

  /** The coins of the UTXOs, one by one. */
  function CoinsFor(utxos: seq<Utxo>): (coins: seq<Coin>)
    requires forall u <- utxos :: OutAmount(u.out).Some?
    ensures AreCoinsOf(coins, utxos)
  {
    seq(|utxos|, i requires 0 <= i < |utxos| => Coin(utxos[i].id, OutAmount(utxos[i].out).value))
  }

  lemma ListedAreCoins(owned: seq<Utxo>, listed: seq<Coin>, order: TextOrder)
    requires DistinctIds(owned) && (forall u <- owned :: OutAmount(u.out).Some?) && ListsCoinsOf(listed, owned, order)
    ensures DistinctCoins(listed) && forall c :: c in listed <==> c in CoinsFor(owned)
  {
    hide OutAmount;
    var coins := CoinsFor(owned);
    forall c ensures c in coins <==> IsCoinOf(c, owned) {
      if c in coins {
        var i :| 0 <= i < |coins| && coins[i] == c;
        assert owned[i] in owned;
      }
      if u :| u in owned && OutAmount(u.out).Some? && c == Coin(u.id, OutAmount(u.out).value) {
        var i :| 0 <= i < |owned| && owned[i] == u;
        assert coins[i] == c;
      }
    }
  }

  /** Main result: for one account and one time, what the listing of coins and the stake add up to is the total of the
      balance and the locks inside locks, which are listed and not counted. */
  lemma CoinsAndBalance(owned: seq<Utxo>, listed: seq<Coin>, order: TextOrder, stake: seq<Raw>, reader: Reader)
    requires DistinctIds(owned) && (forall u <- owned :: OutAmount(u.out).Some?) && ListsCoinsOf(listed, owned, order)
    ensures CoinSum(listed) + UnsharedSum(stake, reader.decodeOutput) == Figure(owned, stake, reader, NoSubAccount) + IgnoredSum(owned)
    ensures CoinSum(listed) + UnsharedSum(stake, reader.decodeOutput) == Figure(owned, stake, reader, NoSubAccount) <==>
            IgnoredSum(owned) == 0
  {
    var coins := CoinsFor(owned);
    ListedAreCoins(owned, listed, order);
    DistinctUtxosDistinctCoins(owned, coins);
    hide AreCoinsOf, ListsCoinsOf, DistinctIds, OneCoinPerId, RepeatsValue, CoinSum, SumOf, UnsharedSum, CoinsFor;
    DistinctSumOf(coins, listed);
    DistinctSumIff(coins);
    CoinSumSplits(coins, owned);
  }
}
