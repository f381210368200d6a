/** server/service/backend/pchain/account.go: AccountBalance from the node's pages to the reported figure. */
module PChainBalanceService {
  import opened Rosetta
  import opened PChain
  import opened Sequences
  import opened UtxoPaging
  import opened PChainAccount

  /** Which chains' UTXOs are asked for. */
  datatype Source = AnyChain | CChain | XChain

  /** The sub-accounts a balance can be asked for; other names are not known. */
  datatype SubAccount = NoSubAccount | UnlockedPart | LockedStakeablePart | LockedNotStakeablePart | StakedPart | SharedMemory | UnknownPart

  /** A currency of a request, and what the node says about the asset with its symbol. */
  datatype RequestedCurrency = RequestedCurrency(symbol: string, decimals: int)

  datatype AssetDescription = AssetDescription(assetId: Id, denomination: int)

  /** The answers of the node during one request; a failed call yields None. */
  datatype Node = Node(
    preHeight: Option<nat>, postHeight: Option<nat>, serve: Source -> Server<Raw>, stake: Option<seq<Raw>>,
    describe: string -> Option<AssetDescription>, hasBlock: nat -> bool)

  /** The codec, the page size, the requested assets and the clock. */
  datatype Reader = Reader(pageSize: nat, decode: UtxoCodec, decodeOutput: OutputCodec, assets: set<Id>, now: uint64)

  /** What the node has to give from each cursor on, and how far along the cursor is. */
  datatype Ledger = Ledger(remaining: Source -> Cursor -> set<Raw>, rank: Source -> Cursor -> nat)

  datatype Failure =
    | NoHeight | NoUtxos | NoStake | NewBlock | BadUtxos(filtering: FilterError) | BadBalance(adding: BalanceError)
    | UnknownAccountType | BadAddress | BadCurrency | NoBlock | NoAmount

  ghost predicate HonestNode(node: Node, pageSize: nat, ledger: Ledger) {
    forall source :: Honest(node.serve(source), pageSize, ledger.remaining(source), ledger.rank(source))
  }

  // ----- buildCurrencyAssetIDs -----

  predicate Described(node: Node, currency: RequestedCurrency) {
    node.describe(currency.symbol).Some? && node.describe(currency.symbol).value.denomination == currency.decimals
  }

  /** The assets asked for, or None when the node does not know one of them with these decimals. */
  function AssetsOf(node: Node, currencies: seq<RequestedCurrency>): Option<set<Id>> {
    if exists i :: 0 <= i < |currencies| && !Described(node, currencies[i]) then None
    else Some(set i | 0 <= i < |currencies| :: node.describe(currencies[i].symbol).value.assetId)
  }

  method BuildCurrencyAssetIds(node: Node, currencies: seq<RequestedCurrency>) returns (assets: Option<set<Id>>)
    ensures assets == AssetsOf(node, currencies)
  {
    var ids: set<Id> := {};
    for i := 0 to |currencies|
      invariant forall k :: 0 <= k < i ==> Described(node, currencies[k])
      invariant ids == set k | 0 <= k < i :: node.describe(currencies[k].symbol).value.assetId
    {
      var description := node.describe(currencies[i].symbol);
      if description.None? {
        return None;
      }
      if description.value.denomination != currencies[i].decimals {
        return None;
      }
      ids := ids + {description.value.assetId};
    }
    return Some(ids);
  }

  function Sources(shared: bool): seq<Source> {
    if shared then [CChain, XChain] else [AnyChain]
  }

  /** What the node gives for the sources asked. */
  ghost function RawOf(node: Node, pageSize: nat, ledger: Ledger, sources: seq<Source>): Option<seq<Raw>>
    requires HonestNode(node, pageSize, ledger)
  {
    if sources == [] then Some([])
    else
      var last := sources[|sources| - 1];
      match RawOf(node, pageSize, ledger, sources[..|sources| - 1])
      case None => None
      case Some(before) =>
        match Pages(node.serve(last), pageSize, ledger.remaining(last), ledger.rank(last), START)
        case None => None
        case Some(more) => Some(before + more)
  }

  /** What is on the ledger for the sources asked. */
  ghost predicate OnLedger(ledger: Ledger, sources: seq<Source>, raw: Raw) {
    exists source <- sources :: raw in ledger.remaining(source)(START)
  }

  lemma {:induction false} RawIsOnLedger(node: Node, pageSize: nat, ledger: Ledger, sources: seq<Source>)
    requires HonestNode(node, pageSize, ledger)
    ensures RawOf(node, pageSize, ledger, sources).Some? ==>
      forall raw :: raw in RawOf(node, pageSize, ledger, sources).value <==> OnLedger(ledger, sources, raw)
  {
    if sources != [] {
      var last, rest := sources[|sources| - 1], sources[..|sources| - 1];
      RawIsOnLedger(node, pageSize, ledger, rest);
      PagesCover(node.serve(last), pageSize, ledger.remaining(last), ledger.rank(last), START);
      assert sources == rest + [last];
      var more := Pages(node.serve(last), pageSize, ledger.remaining(last), ledger.rank(last), START);
      if RawOf(node, pageSize, ledger, sources).Some? {
        forall raw ensures raw in RawOf(node, pageSize, ledger, sources).value <==> OnLedger(ledger, sources, raw) {
          var here := set r | r in more.value;
          assert raw in here <==> raw in more.value;
          assert OnLedger(ledger, sources, raw) <==> OnLedger(ledger, rest, raw) || raw in ledger.remaining(last)(START);
        }
      }
    }
  }

  datatype Fetched = Fetched(height: nat, utxos: seq<Utxo>, stake: seq<Raw>)

  /** All calls answered, and no block was added in between. */
  ghost predicate Undisturbed(node: Node, pageSize: nat, ledger: Ledger, staked: bool, shared: bool)
    requires HonestNode(node, pageSize, ledger)
  {
    && node.preHeight.Some? && node.postHeight == node.preHeight
    && RawOf(node, pageSize, ledger, Sources(shared)).Some?
    && (staked ==> node.stake.Some?)
  }

  /** fetchUTXOsAndStakedOutputs. */
  method Fetch(node: Node, reader: Reader, staked: bool, shared: bool, ghost ledger: Ledger) returns (r: Result<Fetched, Failure>)
    requires HonestNode(node, reader.pageSize, ledger)
    ensures r.Ok? <==>
      && Undisturbed(node, reader.pageSize, ledger, staked, shared)
      && Filtered(RawOf(node, reader.pageSize, ledger, Sources(shared)).value, reader.decode, reader.assets).Ok?
    ensures r.Ok? ==> r.value == Fetched(
      node.postHeight.value,
      Filtered(RawOf(node, reader.pageSize, ledger, Sources(shared)).value, reader.decode, reader.assets).value,
      if staked then node.stake.value else [])
  {
    if node.preHeight.None? {
      return Err(NoHeight);
    }
    var sources := [AnyChain];
    if shared {
      sources := [CChain, XChain];
    }
    var raw: seq<Raw> := [];
    for i := 0 to |sources|
      invariant RawOf(node, reader.pageSize, ledger, sources[..i]) == Some(raw)
    {
      assert sources[..i + 1][..i] == sources[..i];
      var source := sources[i];
      var chainRaw := FetchAll(node.serve(source), reader.pageSize, ledger.remaining(source), ledger.rank(source));
      if chainRaw.None? {
        MissingStays(node, reader.pageSize, ledger, sources, i + 1);
        return Err(NoUtxos);
      }
      raw := raw + chainRaw.value;
    }
    assert sources[..|sources|] == sources;
    var stake: seq<Raw> := [];
    if staked {
      if node.stake.None? {
        return Err(NoStake);
      }
      stake := node.stake.value;
    }
    if node.postHeight.None? {
      return Err(NoHeight);
    }
    if node.postHeight.value != node.preHeight.value {
      return Err(NewBlock);
    }
    var utxos := ParseAndFilter(raw, reader.decode, reader.assets);
    if utxos.Err? {
      return Err(BadUtxos(utxos.error));
    }
    return Ok(Fetched(node.postHeight.value, utxos.value, stake));
  }

  lemma {:induction false} MissingStays(node: Node, pageSize: nat, ledger: Ledger, sources: seq<Source>, n: nat)
    requires HonestNode(node, pageSize, ledger)
    requires n <= |sources| && RawOf(node, pageSize, ledger, sources[..n]).None?
    ensures RawOf(node, pageSize, ledger, sources).None?
    decreases |sources| - n
  {
    if n == |sources| {
      assert sources[..n] == sources;
    } else {
      assert sources[..n + 1][..n] == sources[..n];
      MissingStays(node, pageSize, ledger, sources, n + 1);
    }
  }

  // ----- the ideal balance -----

  /** Shared memory holds what the C-chain and the X-chain sent; otherwise it is the chain's own UTXOs. */
  ghost predicate Remains(ledger: Ledger, shared: bool, raw: Raw) {
    if shared then raw in ledger.remaining(CChain)(START) || raw in ledger.remaining(XChain)(START)
    else raw in ledger.remaining(AnyChain)(START)
  }

  lemma SourcesGiveRemains(ledger: Ledger, shared: bool)
    ensures forall raw :: OnLedger(ledger, Sources(shared), raw) <==> Remains(ledger, shared, raw)
  {
  }

  /** The UTXO is on the ledger, of a requested asset, and not shared between addresses. */
  ghost predicate Owned(reader: Reader, ledger: Ledger, shared: bool, u: Utxo) {
    && (exists raw :: Remains(ledger, shared, raw) && reader.decode(raw) == Some(u))
    && Wanted(reader.assets, u) && |Addresses(u.out)| <= 1
  }

  /** A listing of what the account owns, each UTXO once. */
  ghost predicate Lists(reader: Reader, ledger: Ledger, shared: bool, owned: seq<Utxo>) {
    DistinctIds(owned) && forall u :: u in owned <==> Owned(reader, ledger, shared, u)
  }

  /** Encodings on the ledger decode, to outputs with addresses, and one id has one UTXO. */
  ghost predicate WellFormed(reader: Reader, ledger: Ledger, shared: bool) {
    && (forall raw :: Remains(ledger, shared, raw) ==> reader.decode(raw).Some? && !reader.decode(raw).value.out.OtherOut?)
    && (forall a, b | Remains(ledger, shared, a) && Remains(ledger, shared, b) ::
          reader.decode(a).value.id == reader.decode(b).value.id ==> reader.decode(a) == reader.decode(b))
  }

  lemma FetchedIsOwned(reader: Reader, ledger: Ledger, shared: bool, raw: seq<Raw>, owned: seq<Utxo>)
    requires WellFormed(reader, ledger, shared) && Lists(reader, ledger, shared, owned)
    requires forall a :: a in raw <==> Remains(ledger, shared, a)
    ensures Filtered(raw, reader.decode, reader.assets).Ok?
    ensures var utxos := Filtered(raw, reader.decode, reader.assets).value;
      DistinctIds(utxos) && forall u :: u in utxos <==> u in owned
    ensures var utxos, now := Filtered(raw, reader.decode, reader.assets).value, reader.now;
      && SumOf(utxos, Open(now)) == SumOf(owned, Open(now)) && SumOf(utxos, Stakeable(now)) == SumOf(owned, Stakeable(now))
      && SumOf(utxos, Timed(now)) == SumOf(owned, Timed(now)) && SumOf(utxos, PLAIN) == SumOf(owned, PLAIN)
  {
    forall u ensures u in owned <==> Held(raw, reader.decode, reader.assets, u) {
      if a :| Remains(ledger, shared, a) && reader.decode(a) == Some(u) {
        var k :| 0 <= k < |raw| && raw[k] == a;
        assert Map(raw, reader.decode)[k] == Some(u);
      }
      if Some(u) in Map(raw, reader.decode) {
        var k :| 0 <= k < |raw| && Map(raw, reader.decode)[k] == Some(u);
        assert raw[k] in raw;
        assert reader.decode(raw[k]) == Some(u);
      }
    }
    FilterListsHeldOnce(raw, reader.decode, reader.assets);
    PagedSumsAreIdeal(raw, reader.decode, reader.assets, owned, reader.now);
    FiguresByLocktime(Filtered(raw, reader.decode, reader.assets).value, reader.now);
    FiguresByLocktime(owned, reader.now);
  }

  lemma NoStakeCounts(decode: OutputCodec)
    ensures StakeReadable([], decode) && UnsharedSum([], decode) == 0
  {
  }

  /** The figure a sub-account stands for. */
  function Figure(owned: seq<Utxo>, stake: seq<Raw>, reader: Reader, sub: SubAccount): nat {
    match sub
    case UnlockedPart => SumOf(owned, Open(reader.now))
    case LockedStakeablePart => SumOf(owned, Stakeable(reader.now))
    case LockedNotStakeablePart => SumOf(owned, Timed(reader.now))
    case StakedPart => UnsharedSum(stake, reader.decodeOutput)
    case _ => SumOf(owned, PLAIN) + UnsharedSum(stake, reader.decodeOutput)
  }

  /** The parsed request: an address that does not parse is None. */
  datatype Request = Request(address: Option<ShortId>, currencies: seq<RequestedCurrency>, sub: SubAccount)

  /** Main result: on a well-formed ledger behind an honest node, whatever pages it cuts and repeats, the reported figure
      is the ideal one modulo 2^64; and the request fails exactly when its address or a currency is unknown, a call fails
      or a block arrives, the unstaked value does not fit in 64 bits, the stake cannot be read, the sub-account is unknown,
      or the block at the height found cannot be read. */
  method AccountBalance(node: Node, base: Reader, request: Request, ghost ledger: Ledger, ghost owned: seq<Utxo>)
    returns (r: Result<uint64, Failure>)
    requires HonestNode(node, base.pageSize, ledger)
    requires WellFormed(base, ledger, request.sub.SharedMemory?)
    requires AssetsOf(node, request.currencies).Some? ==>
      Lists(base.(assets := AssetsOf(node, request.currencies).value), ledger, request.sub.SharedMemory?, owned)
    ensures r.Ok? <==>
      && AssetsOf(node, request.currencies).Some? && request.address.Some?
      && Undisturbed(node, base.pageSize, ledger, !request.sub.SharedMemory?, request.sub.SharedMemory?)
      && SumOf(owned, PLAIN) < TWO_64
      && (request.sub.SharedMemory? || StakeReadable(node.stake.value, base.decodeOutput))
      && !request.sub.UnknownPart?
      && node.hasBlock(node.postHeight.value)
    ensures r.Ok? ==>
      var stake := if request.sub.SharedMemory? then [] else node.stake.value;
      r.value == Figure(owned, stake, base, request.sub) % TWO_64
  {
    hide WellFormed, Lists, Filtered, OnLedger, Remains, SumOf, UnsharedSum, StakeReadable, HonestNode, RawOf, Sources, AssetsOf;
    var assets := BuildCurrencyAssetIds(node, request.currencies);
    if assets.None? {
      return Err(BadCurrency);
    }
    if request.address.None? {
      return Err(BadAddress);
    }
    var reader := base.(assets := assets.value);
    WellFormedIgnoresAssets(base, assets.value, ledger, request.sub.SharedMemory?);
    var found := ReportedFigure(node, reader, request.sub, ledger, owned);
    if found.Err? {
      return Err(found.error);
    }
    if !node.hasBlock(node.postHeight.value) {
      return Err(NoBlock);
    }
    return found;
  }

  lemma WellFormedIgnoresAssets(base: Reader, assets: set<Id>, ledger: Ledger, shared: bool)
    requires WellFormed(base, ledger, shared)
    ensures WellFormed(base.(assets := assets), ledger, shared)
  {
  }

  /** From the fetch to the figure of the sub-account. */
  method ReportedFigure(node: Node, reader: Reader, sub: SubAccount, ghost ledger: Ledger, ghost owned: seq<Utxo>)
    returns (r: Result<uint64, Failure>)
    requires HonestNode(node, reader.pageSize, ledger)
    requires WellFormed(reader, ledger, sub.SharedMemory?) && Lists(reader, ledger, sub.SharedMemory?, owned)
    ensures r.Ok? <==>
      && Undisturbed(node, reader.pageSize, ledger, !sub.SharedMemory?, sub.SharedMemory?)
      && SumOf(owned, PLAIN) < TWO_64
      && (sub.SharedMemory? || StakeReadable(node.stake.value, reader.decodeOutput))
      && !sub.UnknownPart?
    ensures r.Ok? ==>
      var stake := if sub.SharedMemory? then [] else node.stake.value;
      r.value == Figure(owned, stake, reader, sub) % TWO_64
  {
    hide WellFormed, Lists, Filtered, OnLedger, Remains, SumOf, UnsharedSum, StakeReadable, HonestNode, RawOf, Sources;
    NoStakeCounts(reader.decodeOutput);
    var shared := sub.SharedMemory?;
    ghost var raw := RawOf(node, reader.pageSize, ledger, Sources(shared));
    RawIsOnLedger(node, reader.pageSize, ledger, Sources(shared));
    SourcesGiveRemains(ledger, shared);
    if raw.Some? {
      FetchedIsOwned(reader, ledger, shared, raw.value, owned);
    }
    var fetched := Fetch(node, reader, !shared, shared, ledger);
    if fetched.Err? {
      return Err(fetched.error);
    }
    var balance := FetchBalance(fetched.value.utxos, fetched.value.stake, reader.decodeOutput, reader.now);
    if balance.Err? {
      return Err(BadBalance(balance.error));
    }
    match sub {
      case UnlockedPart => return Ok(balance.value.unlocked);
      case StakedPart => return Ok(balance.value.staked);
      case LockedStakeablePart => return Ok(balance.value.lockedStakeable);
      case LockedNotStakeablePart => return Ok(balance.value.lockedNotStakeable);
      case SharedMemory => return Ok(balance.value.total);
      case NoSubAccount => return Ok(balance.value.total);
      case UnknownPart => return Err(UnknownAccountType);
    }
  }
}
