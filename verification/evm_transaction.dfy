/** server/mapper/transaction.go: Transaction, erc20Ops and erc721Ops. */
module EvmTransaction {
  import opened Rosetta
  import opened CallTree
  import opened Evm
  import opened Bytes
  import opened CallData
  import opened TraceOps

  const TRANSFER_TOPIC: nat := 0xddf252ad1be2c89b69c2b068fc378daa952ba7f163c4a11628f55a4df523b3ef
  const FTSO_GAS_LIMIT: int := 3000000
  const FTSO_FEE: int := 21000 * 25_000_000_000

  /** A receipt log; topics are 32-byte hashes. */
  datatype Log = Log(address: Address, topics: seq<nat>, data: seq<byte>)

  /** What the node says about a token contract. */
  datatype TokenInfo = TokenInfo(symbol: string, decimals: int, unknown: bool)

  /** The settings and the node a transaction is read with. A contract lookup that fails yields None. */
  datatype Reader = Reader(
    analytics: bool, whiteList: seq<Address>, includeUnknown: bool,
    contractInfo: (Address, bool) -> Option<TokenInfo>)

  datatype Message = Message(from: Address, to: Option<Address>, gasPrice: int, txGas: int, gasUsed: int, succeeded: bool)

  /** common.BytesToAddress of a 32-byte topic keeps its last 20 bytes. */
  function TopicAddress(topic: nat): Address {
    topic % TWO_160
  }

  /** common.BytesToHash(data).Big(). */
  function TransferValue(log: Log): nat {
    BigEndian(Last(log.data, 32))
  }

  function Erc20Ops(log: Log, currency: Currency, next: int): seq<EvmOperation>
    requires |log.topics| >= 3
  {
    var from, to := TopicAddress(log.topics[1]), TopicAddress(log.topics[2]);
    var value: int := TransferValue(log);
    if from == ZERO_ADDRESS then
      [Operation(Some(next), [], Erc20Mint, Success, Some(Evm(to)), Some(Amount(value, currency)), None, NoMetadata)]
    else if to == ZERO_ADDRESS then
      [Operation(Some(next), [], Erc20Burn, Success, Some(Evm(from)), Some(Amount(-value, currency)), None, NoMetadata)]
    else
      [Operation(Some(next), [], Erc20Transfer, Success, Some(Evm(from)), Some(Amount(-value, currency)), None, NoMetadata),
       Operation(Some(next + 1), [next], Erc20Transfer, Success, Some(Evm(to)), Some(Amount(value, currency)), None, NoMetadata)]
  }

  function Erc721Ops(log: Log, next: int): seq<EvmOperation>
    requires |log.topics| >= 4
  {
    var from, to := TopicAddress(log.topics[1]), TopicAddress(log.topics[2]);
    var metadata := TokenTransferred(log.address, log.topics[3]);
    if from == ZERO_ADDRESS then
      [Operation(Some(next), [], Erc721Mint, Success, Some(Evm(to)), None, None, metadata)]
    else if to == ZERO_ADDRESS then
      [Operation(Some(next), [], Erc721Burn, Success, Some(Evm(from)), None, None, metadata)]
    else
      [Operation(Some(next), [], Erc721Send, Success, Some(Evm(from)), None, None, metadata),
       Operation(Some(next + 1), [next], Erc721Receive, Success, Some(Evm(to)), None, None, metadata)]
  }

  /** A transfer log of a contract the reader wants to see. */
  predicate IsListed(reader: Reader, log: Log) {
    && log.topics != [] && log.topics[0] == TRANSFER_TOPIC
    && (reader.analytics || log.address in reader.whiteList)
  }

  function LogCurrency(log: Log, info: TokenInfo): Currency {
    Token(info.symbol, info.decimals, log.address)
  }

  /** One turn of the loop over the logs; None when the contract lookup failed. */
  function LogOps(reader: Reader, log: Log, next: int): Option<seq<EvmOperation>> {
    if !IsListed(reader, log) || (|log.topics| != 3 && |log.topics| != 4) then Some([])
    else
      match reader.contractInfo(log.address, |log.topics| == 3)
      case None => None
      case Some(info) =>
        if info.unknown && !reader.includeUnknown then Some([])
        else if |log.topics| == 3 then Some(Erc20Ops(log, LogCurrency(log, info), next))
        else Some(Erc721Ops(log, next))
  }

  function AllLogOps(reader: Reader, logs: seq<Log>, next: int): Option<seq<EvmOperation>> {
    if logs == [] then Some([])
    else
      match AllLogOps(reader, logs[..|logs| - 1], next)
      case None => None
      case Some(before) =>
        match LogOps(reader, logs[|logs| - 1], next + |before|)
        case None => None
        case Some(ops) => Some(before + ops)
  }

  function TxFee(msg: Message): int {
    if msg.to == Some(FTSO_CONTRACT) && msg.succeeded && msg.txGas <= FTSO_GAS_LIMIT then FTSO_FEE
    else msg.gasUsed * msg.gasPrice
  }

  function FeeOps(msg: Message): seq<EvmOperation> {
    [Operation(Some(0), [], Fee, Success, Some(Evm(msg.from)), Some(Amount(-TxFee(msg), Flare)), None, NoMetadata),
     Operation(Some(1), [0], Fee, Success, Some(Evm(BURN_ADDRESS)), Some(Amount(TxFee(msg), Flare)), None, NoMetadata)]
  }

  /** The native-currency operations: fees, calls and the destroyed accounts in the order met. */
  function NativeOps(msg: Message, trace: seq<FlatCall>, order: seq<Address>): seq<EvmOperation>
    requires forall a <- order :: a in Run(trace, 2).destroyed
  {
    var st := Run(trace, 2);
    FeeOps(msg) + (st.ops + DestructOps(st.destroyed, order, 2 + |st.ops|))
  }

  /** One turn of the loop over the receipt logs. */
  method ReadLog(reader: Reader, log: Log, next: int) returns (ops: Option<seq<EvmOperation>>)
    ensures ops == LogOps(reader, log, next)
  {
    if |log.topics| == 0 || log.topics[0] != TRANSFER_TOPIC {
      return Some([]);
    }
    if !reader.analytics && log.address !in reader.whiteList {
      return Some([]);
    }
    if |log.topics| == 4 {
      var info := reader.contractInfo(log.address, false);
      if info.None? {
        return None;
      }
      if info.value.unknown && !reader.includeUnknown {
        return Some([]);
      }
      return Some(Erc721Ops(log, next));
    } else if |log.topics| == 3 {
      var info := reader.contractInfo(log.address, true);
      if info.None? {
        return None;
      }
      if info.value.unknown && !reader.includeUnknown {
        return Some([]);
      }
      return Some(Erc20Ops(log, LogCurrency(log, info.value), next));
    }
    return Some([]);
  }

  datatype TxOutcome = Built(ops: seq<EvmOperation>) | LookupFailed | Exited(account: Address, held: int)

  method Transaction(reader: Reader, msg: Message, trace: seq<FlatCall>, logs: seq<Log>)
    returns (outcome: TxOutcome, ghost order: seq<Address>)
    ensures Overdrawn(Run(trace, 2).destroyed) ==> outcome.Exited?
    ensures !Overdrawn(Run(trace, 2).destroyed) ==>
      && Enumerates(order, Run(trace, 2).destroyed.Keys)
      && var head := NativeOps(msg, trace, order);
      match AllLogOps(reader, logs, |head|)
      case None => outcome == LookupFailed
      case Some(tail) => outcome == Built(head + tail)
  {
    var ops := FeeOps(msg);
    var traced;
    traced, order := Convert(trace, |ops|);
    if traced.Fatal? {
      return Exited(traced.account, traced.held), order;
    }
    ops := ops + traced.ops;
    var read := ReadLogs(reader, logs, ops);
    return if read.None? then LookupFailed else Built(read.value), order;
  }

  /** The loop over the receipt logs. */
  method ReadLogs(reader: Reader, logs: seq<Log>, head: seq<EvmOperation>) returns (read: Option<seq<EvmOperation>>)
    ensures match AllLogOps(reader, logs, |head|)
      case None => read == None
      case Some(tail) => read == Some(head + tail)
  {
    hide LogOps;
    var ops := head;
    for i := 0 to |logs|
      invariant AllLogOps(reader, logs[..i], |head|).Some?
      invariant ops == head + AllLogOps(reader, logs[..i], |head|).value
    {
      assert logs[..i + 1][..i] == logs[..i];
      var added := ReadLog(reader, logs[i], |ops|);
      if added.None? {
        LookupFailureStays(reader, logs, i + 1, |head|);
        return None;
      }
      ops := ops + added.value;
    }
    assert logs[..|logs|] == logs;
    return Some(ops);
  }

  lemma {:induction false} LookupFailureStays(reader: Reader, logs: seq<Log>, k: nat, next: int)
    requires k <= |logs| && AllLogOps(reader, logs[..k], next).None?
    ensures AllLogOps(reader, logs, next).None?
    decreases |logs| - k
  {
    if k < |logs| {
      assert logs[..k + 1][..k] == logs[..k];
      LookupFailureStays(reader, logs, k + 1, next);
    } else {
      assert logs[..k] == logs;
    }
  }

  // ----- indices over the whole transaction -----

  lemma LogNumbered(reader: Reader, log: Log, next: int)
    requires LogOps(reader, log, next).Some?
    ensures var ops := LogOps(reader, log, next).value;
      Numbered(ops, next) && RelatedEarlier(ops, next)
  {
  }

  lemma {:induction false} LogsNumbered(reader: Reader, logs: seq<Log>, next: int)
    requires AllLogOps(reader, logs, next).Some?
    ensures var ops := AllLogOps(reader, logs, next).value;
      Numbered(ops, next) && RelatedEarlier(ops, next)
  {
    hide LogOps;
    if logs != [] {
      LogsNumbered(reader, logs[..|logs| - 1], next);
      var before := AllLogOps(reader, logs[..|logs| - 1], next).value;
      var added := LogOps(reader, logs[|logs| - 1], next + |before|).value;
      LogNumbered(reader, logs[|logs| - 1], next + |before|);
      NumberedAppend(before, added, next);
    }
  }

  /** Main result: over fees, trace, destructs and token logs each index is the position, and relations point back. */
  lemma WholeTransactionNumbered(reader: Reader, msg: Message, trace: seq<FlatCall>, logs: seq<Log>, order: seq<Address>)
    requires Enumerates(order, Run(trace, 2).destroyed.Keys)
    ensures var head := NativeOps(msg, trace, order);
      var tail := AllLogOps(reader, logs, |head|);
      tail.Some? ==> Numbered(head + tail.value, 0) && RelatedEarlier(head + tail.value, 0)
  {
    NativeOpsNumbered(msg, trace, order);
    var head := NativeOps(msg, trace, order);
    if AllLogOps(reader, logs, |head|).Some? {
      LogsNumbered(reader, logs, |head|);
      NumberedAppend(head, AllLogOps(reader, logs, |head|).value, 0);
    }
  }

  lemma FeesNumbered(msg: Message)
    ensures |FeeOps(msg)| == 2 && Numbered(FeeOps(msg), 0) && RelatedEarlier(FeeOps(msg), 0)
  {
  }

  lemma NativeOpsNumbered(msg: Message, trace: seq<FlatCall>, order: seq<Address>)
    requires Enumerates(order, Run(trace, 2).destroyed.Keys)
    ensures Numbered(NativeOps(msg, trace, order), 0) && RelatedEarlier(NativeOps(msg, trace, order), 0)
  {
    var st := Run(trace, 2);
    var destructs := DestructOps(st.destroyed, order, 2 + |st.ops|);
    RunNumbered(trace, 2);
    DestructNumbered(st.destroyed, order, 2 + |st.ops|);
    NumberedAppend(st.ops, destructs, 2);
    FeesNumbered(msg);
    hide Run, DestructOps, FeeOps, Numbered, RelatedEarlier;
    NumberedAppend(FeeOps(msg), st.ops + destructs, 0);
    assert NativeOps(msg, trace, order) == FeeOps(msg) + (st.ops + destructs);
  }

  // ----- token ledgers: an independent replay of the Transfer events -----

  /** The log is a fungible transfer in this currency that the reader reports. */
  predicate Reports(reader: Reader, log: Log, currency: Currency) {
    && IsListed(reader, log) && |log.topics| == 3
    && var info := reader.contractInfo(log.address, true);
    && info.Some? && (!info.value.unknown || reader.includeUnknown)
    && LogCurrency(log, info.value) == currency
  }

  /** What Transfer events do to a token balance: the receiver gains what the sender loses. */
  function TokenReplay(reader: Reader, logs: seq<Log>, currency: Currency, a: Address): int {
    if logs == [] then 0
    else
      var log := logs[|logs| - 1];
      TokenReplay(reader, logs[..|logs| - 1], currency, a) +
      if !Reports(reader, log, currency) then 0
      else
        (if TopicAddress(log.topics[2]) == a then TransferValue(log) else 0)
        - (if TopicAddress(log.topics[1]) == a then TransferValue(log) else 0)
  }

  lemma LogOpsMatchReplay(reader: Reader, log: Log, next: int, currency: Currency, a: Address)
    requires currency.Token? && a != ZERO_ADDRESS
    requires LogOps(reader, log, next).Some?
    ensures NetOn(LogOps(reader, log, next).value, a, currency) == TokenReplay(reader, [log], currency, a)
  {
    var ops := LogOps(reader, log, next).value;
    assert [log][..0] == [];
    if ops != [] {
      assert ops[..1] == [ops[0]];
      assert NetOn([ops[0]], a, currency) == EffectOn(ops[0], a, currency);
    }
  }

  /** Main result: for every account but the zero address, the token operations replay the reported Transfer events. */
  lemma {:induction false} TokenLedgerMatches(reader: Reader, logs: seq<Log>, next: int, currency: Currency, a: Address)
    requires currency.Token? && a != ZERO_ADDRESS
    requires AllLogOps(reader, logs, next).Some?
    ensures NetOn(AllLogOps(reader, logs, next).value, a, currency) == TokenReplay(reader, logs, currency, a)
  {
    hide LogOps;
    if logs != [] {
      var rest, log := logs[..|logs| - 1], logs[|logs| - 1];
      TokenLedgerMatches(reader, rest, next, currency, a);
      var before := AllLogOps(reader, rest, next).value;
      var ops := LogOps(reader, log, next + |before|).value;
      NetOnAppend(before, ops, a, currency);
      LogOpsMatchReplay(reader, log, next + |before|, currency, a);
      assert [log][..0] == [];
    }
  }

  lemma LogLeavesFlareAlone(reader: Reader, log: Log, next: int)
    requires LogOps(reader, log, next).Some?
    ensures NetIn(LogOps(reader, log, next).value, Flare) == 0
  {
    var ops := LogOps(reader, log, next).value;
    if ops != [] {
      assert ops[..1] == [ops[0]];
      assert NetIn([ops[0]], Flare) == 0;
    }
  }

  lemma {:induction false} LogsLeaveFlareAlone(reader: Reader, logs: seq<Log>, next: int)
    requires AllLogOps(reader, logs, next).Some?
    ensures NetIn(AllLogOps(reader, logs, next).value, Flare) == 0
  {
    hide LogOps;
    if logs != [] {
      var rest, log := logs[..|logs| - 1], logs[|logs| - 1];
      LogsLeaveFlareAlone(reader, rest, next);
      var before := AllLogOps(reader, rest, next).value;
      NetInAppend(before, LogOps(reader, log, next + |before|).value, Flare);
      LogLeavesFlareAlone(reader, log, next + |before|);
    }
  }

  /** Main result: the native currency of the whole transaction is conserved up to what the trace mints, burns and destructs. */
  lemma WholeTransactionConserves(reader: Reader, msg: Message, trace: seq<FlatCall>, logs: seq<Log>, order: seq<Address>)
    requires Enumerates(order, Run(trace, 2).destroyed.Keys)
    ensures var head := NativeOps(msg, trace, order);
      var tail := AllLogOps(reader, logs, |head|);
      tail.Some? ==>
        NetIn(head + tail.value, Flare)
          == TotalMinted(trace) - TotalBurned(trace) - Held(Run(trace, 2).destroyed, order)
  {
    NativeOpsConserve(msg, trace, order);
    var head := NativeOps(msg, trace, order);
    if AllLogOps(reader, logs, |head|).Some? {
      LogsLeaveFlareAlone(reader, logs, |head|);
      NetInAppend(head, AllLogOps(reader, logs, |head|).value, Flare);
    }
  }

  lemma NativeOpsConserve(msg: Message, trace: seq<FlatCall>, order: seq<Address>)
    requires Enumerates(order, Run(trace, 2).destroyed.Keys)
    ensures NetIn(NativeOps(msg, trace, order), Flare)
         == TotalMinted(trace) - TotalBurned(trace) - Held(Run(trace, 2).destroyed, order)
  {
    var st := Run(trace, 2);
    TraceConserves(trace, order, 2);
    FeesCancel(msg);
    NetInAppend(FeeOps(msg), st.ops + DestructOps(st.destroyed, order, 2 + |st.ops|), Flare);
  }

  lemma FeesCancel(msg: Message)
    ensures NetIn(FeeOps(msg), Flare) == 0
  {
    var ops := FeeOps(msg);
    assert ops[..1] == [ops[0]];
    assert NetIn([ops[0]], Flare) == -TxFee(msg);
  }
}
