/** Vocabulary shared by every mapper: results, fixed-width integers and the Rosetta ledger objects. */
module Rosetta {

  datatype Option<+T> = None | Some(value: T)

  datatype Result<+T, +E> = Ok(value: T) | Err(error: E)

  // ----- fixed-width integers -----

  const TWO_63: int := 0x8000_0000_0000_0000
  const TWO_64: int := 0x1_0000_0000_0000_0000
  const TWO_32: int := 0x1_0000_0000

  type uint64 = x: int | 0 <= x < 0x1_0000_0000_0000_0000
  type uint32 = x: int | 0 <= x < 0x1_0000_0000

  /** Go's conversion of an unsigned 64-bit number to int64: two's complement wrap-around. */
  function Int64(x: uint64): (r: int)
    ensures -TWO_63 <= r < TWO_63
    ensures r == x <==> x < TWO_63
    ensures (r - x) % TWO_64 == 0
  {
    if x < TWO_63 then x else x - TWO_64
  }

  /** Go's conversion of a non-negative int to uint32. */
  function Uint32(x: nat): (r: uint32)
    ensures r == x <==> x < TWO_32
  {
    x % TWO_32
  }

  /** big.Int's Uint64: the low 64 bits of the absolute value. */
  function LowUint64(x: int): (r: uint64)
    ensures r == x <==> 0 <= x < TWO_64
    ensures r == -x <==> -TWO_64 < x <= 0
  {
    (if x < 0 then -x else x) % TWO_64
  }

  // ----- ledger objects -----

  /** A 20-byte EVM address. Its checksummed text is injective, so the number stands for the text. */
  type Address = a: int | 0 <= a < 0x1_0000000000_0000000000_0000000000_0000000000

  /** Account identifiers. Hex and bech32 formatting are injective, so the parts stand for the text. */
  datatype Account =
    | Evm(address: Address)
    | Bech32(chain: string, hrp: string, id: nat)
    | Blank

  datatype Currency =
    | Flare
    | AtomicAvax
    | Token(symbol: string, decimals: int, contract: Address)
    | Asset(symbol: string, decimals: int)

  datatype Amount = Amount(value: int, currency: Currency)

  /** Operation status; construction leaves it out. */
  datatype Status = Success | Failure | Unset

  datatype CoinAction = CoinSpent | CoinCreated

  /** An avax.UTXOID: its text form is injective, so the pair stands for the text. */
  datatype UtxoId = UtxoId(txId: nat, index: uint32)

  /** The library's order on coins: by transaction id, then by output index. */
  function CoinKey(coin: UtxoId): int {
    coin.txId * TWO_32 + coin.index
  }

  lemma CoinKeyOrder(a: UtxoId, b: UtxoId)
    ensures CoinKey(a) <= CoinKey(b) <==> a.txId < b.txId || (a.txId == b.txId && a.index <= b.index)
    ensures CoinKey(a) == CoinKey(b) <==> a == b
  {
  }

  datatype CoinChange = CoinChange(coin: UtxoId, action: CoinAction)

  /** A Rosetta operation; K is the operation type and M the metadata of the chain at hand. */
  datatype Operation<+K, +M> = Operation(
    index: Option<int>,
    related: seq<int>,
    kind: K,
    status: Status,
    account: Option<Account>,
    amount: Option<Amount>,
    coinChange: Option<CoinChange>,
    metadata: M)
}
