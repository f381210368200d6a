/** Ledger vocabulary of the C-chain mapper (server/mapper/types.go and server/mapper/transaction.go). */
module Evm {
  import opened Rosetta
  import opened CallTree

  const INFLATION_CONTRACT: Address := 0x1000000000000000000000000000000000000002
  const FTSO_CONTRACT: Address := 0x1000000000000000000000000000000000000003
  const BURN_ADDRESS: Address := 0x000000000000000000000000000000000000dEaD
  const ZERO_ADDRESS: Address := 0

  datatype EvmOpType =
    | Fee | Trace(call: CallKind) | Destruct
    | Erc20Transfer | Erc20Mint | Erc20Burn
    | Erc721Send | Erc721Receive | Erc721Mint | Erc721Burn
    | Import | Export

  datatype EvmMetadata =
    | NoMetadata
    | CallError(error: string)
    | TokenTransferred(contract: Address, token: nat)
    | Atomic(assetId: nat)

  type EvmOperation = Operation<EvmOpType, EvmMetadata>

  /** Every operation carries its position, counted from start, as its index. */
  ghost predicate Numbered(ops: seq<EvmOperation>, start: int) {
    forall i :: 0 <= i < |ops| ==> ops[i].index == Some(start + i)
  }

  /** Related operations lie inside the transaction and before the operation that names them. */
  ghost predicate RelatedEarlier(ops: seq<EvmOperation>, start: int) {
    forall i, r :: 0 <= i < |ops| && r in ops[i].related ==> start <= r < start + i
  }

  lemma NumberedAppend(a: seq<EvmOperation>, b: seq<EvmOperation>, start: int)
    requires Numbered(a, start) && RelatedEarlier(a, start)
    requires Numbered(b, start + |a|) && RelatedEarlier(b, start + |a|)
    ensures Numbered(a + b, start) && RelatedEarlier(a + b, start)
  {
    var ab := a + b;
    forall i, r | 0 <= i < |ab| && r in ab[i].related ensures start <= r < start + i {
      if i >= |a| {
        assert ab[i] == b[i - |a|];
      }
    }
  }

  /** What an operation adds to the balance sheet in a currency: nothing unless it succeeded. */
  function Effect(op: EvmOperation, currency: Currency): int {
    if op.status == Success && op.amount.Some? && op.amount.value.currency == currency
    then op.amount.value.value else 0
  }

  /** The sum of the effects of all operations in a currency. */
  function NetIn(ops: seq<EvmOperation>, currency: Currency): int {
    if ops == [] then 0 else NetIn(ops[..|ops| - 1], currency) + Effect(ops[|ops| - 1], currency)
  }

  /** What an operation adds to an account's balance in a currency. */
  function EffectOn(op: EvmOperation, a: Address, currency: Currency): int {
    if op.account == Some(Evm(a)) then Effect(op, currency) else 0
  }

  /** The sum of the effects of all operations on an account's balance in a currency. */
  function NetOn(ops: seq<EvmOperation>, a: Address, currency: Currency): int {
    if ops == [] then 0 else NetOn(ops[..|ops| - 1], a, currency) + EffectOn(ops[|ops| - 1], a, currency)
  }

  lemma {:induction false} NetInAppend(x: seq<EvmOperation>, y: seq<EvmOperation>, currency: Currency)
    ensures NetIn(x + y, currency) == NetIn(x, currency) + NetIn(y, currency)
    decreases |y|
  {
    if y == [] {
      assert x + y == x;
    } else {
      assert (x + y)[..|x + y| - 1] == x + y[..|y| - 1];
      NetInAppend(x, y[..|y| - 1], currency);
    }
  }

  lemma NetOnLast(ops: seq<EvmOperation>, op: EvmOperation, a: Address, currency: Currency)
    ensures NetOn(ops + [op], a, currency) == NetOn(ops, a, currency) + EffectOn(op, a, currency)
  {
    assert (ops + [op])[..|ops|] == ops;
  }

  lemma {:induction false} NetOnAppend(x: seq<EvmOperation>, y: seq<EvmOperation>, a: Address, currency: Currency)
    ensures NetOn(x + y, a, currency) == NetOn(x, a, currency) + NetOn(y, a, currency)
    decreases |y|
  {
    if y == [] {
      assert x + y == x;
    } else {
      assert (x + y)[..|x + y| - 1] == x + y[..|y| - 1];
      NetOnAppend(x, y[..|y| - 1], a, currency);
    }
  }
}
