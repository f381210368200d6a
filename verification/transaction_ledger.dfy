/** What a whole EVM transaction does to each account, and what is reported of each receipt log
    (server/mapper/transaction.go). */
module TransactionLedger {
  import opened Rosetta
  import opened CallTree
  import opened Evm
  import opened Bytes
  import opened Sequences
  import opened TraceOps
  import opened TraceLedger
  import opened EvmTransaction

  // ----- the native currency, account by account -----

  /** What the sender pays: a fixed fee for a successful call of the FTSO contract with little gas, otherwise the gas used. */
  function FeePaid(msg: Message): int {
    if msg.to == Some(0x1000000000000000000000000000000000000003) && msg.succeeded && msg.txGas <= 3_000_000
    then 21_000 * 25_000_000_000
    else msg.gasUsed * msg.gasPrice
  }

  lemma FeeLedger(msg: Message, a: Address)
    ensures NetOn(FeeOps(msg), a, Flare)
         == (if a == 0xdEaD then FeePaid(msg) else 0) - (if a == msg.from then FeePaid(msg) else 0)
  {
    var ops := FeeOps(msg);
    assert ops == [] + [ops[0]] + [ops[1]];
    NetOnLast([], ops[0], a, Flare);
    NetOnLast([ops[0]], ops[1], a, Flare);
    assert [] + [ops[0]] == [ops[0]];
  }

  lemma LogLeavesAccountsAlone(reader: Reader, log: Log, next: int, a: Address)
    requires LogOps(reader, log, next).Some?
    ensures NetOn(LogOps(reader, log, next).value, a, Flare) == 0
  {
    var ops := LogOps(reader, log, next).value;
    if ops != [] {
      assert ops[..1] == [ops[0]];
      assert NetOn([ops[0]], a, Flare) == 0;
    }
  }

  lemma {:induction false} LogsLeaveAccountsAlone(reader: Reader, logs: seq<Log>, next: int, a: Address)
    requires AllLogOps(reader, logs, next).Some?
    ensures NetOn(AllLogOps(reader, logs, next).value, a, Flare) == 0
  {
    hide LogOps;
    if logs != [] {
      var rest, log := logs[..|logs| - 1], logs[|logs| - 1];
      LogsLeaveAccountsAlone(reader, rest, next, a);
      var before := AllLogOps(reader, rest, next).value;
      NetOnAppend(before, LogOps(reader, log, next + |before|).value, a, Flare);
      LogLeavesAccountsAlone(reader, log, next + |before|, a);
    }
  }

  /** Main result: over the whole transaction every account gains what the calls that took effect give it, less what it is
      left with when it is destroyed; the sender pays the fee and the burn address receives it. */
  lemma WholeTransactionLedger(reader: Reader, msg: Message, t: Tree, logs: seq<Log>, order: seq<Address>, a: Address)
    requires Enumerates(order, Run(Preorder(Normalise(t, false, "")), 2).destroyed.Keys)
    ensures var trace := Preorder(Normalise(t, false, ""));
      var destroyed, head := Run(trace, 2).destroyed, NativeOps(msg, trace, order);
      var tail := AllLogOps(reader, logs, |head|);
      tail.Some? ==>
        NetOn(head + tail.value, a, Flare)
          == TreeMoves(t, a) - (if a in destroyed then destroyed[a] else 0)
             + (if a == 0xdEaD then FeePaid(msg) else 0) - (if a == msg.from then FeePaid(msg) else 0)
  {
    var trace := Preorder(Normalise(t, false, ""));
    TraceLedgerIsTreeMoves(t, 2, a);
    hide Preorder, Normalise, TreeMoves, Run, FeePaid, FeeOps, NetOn, DestructOps, AllLogOps;
    NativeLedger(msg, trace, order, a);
    var head := NativeOps(msg, trace, order);
    if AllLogOps(reader, logs, |head|).Some? {
      LogsLeaveAccountsAlone(reader, logs, |head|, a);
      NetOnAppend(head, AllLogOps(reader, logs, |head|).value, a, Flare);
    }
  }

  lemma NativeLedger(msg: Message, trace: seq<FlatCall>, order: seq<Address>, a: Address)
    requires Enumerates(order, Run(trace, 2).destroyed.Keys)
    ensures var st := Run(trace, 2);
      NetOn(NativeOps(msg, trace, order), a, Flare)
        == NetOn(st.ops, a, Flare) - (if a in st.destroyed then st.destroyed[a] else 0)
           + (if a == 0xdEaD then FeePaid(msg) else 0) - (if a == msg.from then FeePaid(msg) else 0)
  {
    hide Run, FeePaid, FeeOps, NetOn, DestructOps;
    var st := Run(trace, 2);
    FinishOnAccount(st, order, 2, a);
    FeeLedger(msg, a);
    NetOnAppend(FeeOps(msg), st.ops + DestructOps(st.destroyed, order, 2 + |st.ops|), a, Flare);
  }

  // ----- the token operations, log by log -----

  /** The signature of Transfer events in a contract the reader looks at, with the topics of one of the two standards. */
  predicate IsTransfer(reader: Reader, log: Log) {
    && (|log.topics| == 3 || |log.topics| == 4)
    && log.topics[0] == 0xddf252ad1be2c89b69c2b068fc378daa952ba7f163c4a11628f55a4df523b3ef
    && (reader.analytics || log.address in reader.whiteList)
  }

  /** What the node says of the contract, as a fungible token when there are three topics. */
  function Info(reader: Reader, log: Log): Option<TokenInfo> {
    reader.contractInfo(log.address, |log.topics| == 3)
  }

  predicate IsTold(reader: Reader, log: Log) {
    && IsTransfer(reader, log) && Info(reader, log).Some?
    && (Info(reader, log).value.unknown ==> reader.includeUnknown)
  }

  /** An address is the last 20 bytes of a topic. */
  function Party(log: Log, i: nat): Address
    requires i < |log.topics|
  {
    log.topics[i] % 0x1_0000000000000000000000000000000000000000
  }

  /** How many operations a log gives: a mint, from the zero address, and a burn, to it, have one side only. */
  function Entries(reader: Reader, log: Log): nat {
    if !IsTold(reader, log) then 0 else if Party(log, 1) == 0 || Party(log, 2) == 0 then 1 else 2
  }

  predicate Is(op: EvmOperation, index: int, related: seq<int>, kind: EvmOpType, a: Address, amount: Option<Amount>, metadata: EvmMetadata) {
    && op.index == Some(index) && op.related == related && op.kind == kind && op.status == Success
    && op.account == Some(Evm(a)) && op.amount == amount && op.coinChange == None && op.metadata == metadata
  }

  /** The operations from position m on, numbered from start, are those of the log. */
  predicate LogTold(ops: seq<EvmOperation>, m: nat, start: int, reader: Reader, log: Log) {
    && m + Entries(reader, log) <= |ops|
    && (IsTold(reader, log) ==>
          if |log.topics| == 3 then FungibleTold(ops[m..m + Entries(reader, log)], start + m, log, Info(reader, log).value)
          else OwnerTold(ops[m..m + Entries(reader, log)], start + m, log))
  }

  /** The value in the last 32 bytes of the data goes from the one party to the other. */
  predicate FungibleTold(ops: seq<EvmOperation>, next: int, log: Log, info: TokenInfo)
    requires |log.topics| == 3
  {
    var from, to, value: int := Party(log, 1), Party(log, 2), BigEndian(Last(log.data, 32));
    var currency := Token(info.symbol, info.decimals, log.address);
    if from == 0 then
      |ops| == 1 && Is(ops[0], next, [], Erc20Mint, to, Some(Amount(value, currency)), NoMetadata)
    else if to == 0 then
      |ops| == 1 && Is(ops[0], next, [], Erc20Burn, from, Some(Amount(-value, currency)), NoMetadata)
    else
      && |ops| == 2
      && Is(ops[0], next, [], Erc20Transfer, from, Some(Amount(-value, currency)), NoMetadata)
      && Is(ops[1], next + 1, [next], Erc20Transfer, to, Some(Amount(value, currency)), NoMetadata)
  }

  /** The token in the fourth topic changes hands. */
  predicate OwnerTold(ops: seq<EvmOperation>, next: int, log: Log)
    requires |log.topics| == 4
  {
    var from, to, token := Party(log, 1), Party(log, 2), TokenTransferred(log.address, log.topics[3]);
    if from == 0 then |ops| == 1 && Is(ops[0], next, [], Erc721Mint, to, None, token)
    else if to == 0 then |ops| == 1 && Is(ops[0], next, [], Erc721Burn, from, None, token)
    else
      && |ops| == 2
      && Is(ops[0], next, [], Erc721Send, from, None, token)
      && Is(ops[1], next + 1, [next], Erc721Receive, to, None, token)
  }

  function EntriesOf(reader: Reader, logs: seq<Log>): nat {
    if logs == [] then 0 else EntriesOf(reader, logs[..|logs| - 1]) + Entries(reader, logs[|logs| - 1])
  }

  lemma OneLogTold(reader: Reader, log: Log, next: int)
    ensures LogOps(reader, log, next).None? <==> IsTransfer(reader, log) && Info(reader, log).None?
    ensures LogOps(reader, log, next).Some? ==>
      var ops := LogOps(reader, log, next).value;
      |ops| == Entries(reader, log) && LogTold(ops, 0, next, reader, log)
  {
    hide BigEndian, Last;
  }

  lemma ToldInPlace(before: seq<EvmOperation>, part: seq<EvmOperation>, next: int, reader: Reader, log: Log)
    requires |part| == Entries(reader, log) && LogTold(part, 0, next + |before|, reader, log)
    ensures LogTold(before + part, |before|, next, reader, log)
  {
    hide FungibleTold, OwnerTold, IsTold, Entries, Info;
    assert (before + part)[|before|..|before| + |part|] == part == part[0..0 + |part|];
  }

  lemma ToldStays(before: seq<EvmOperation>, part: seq<EvmOperation>, m: nat, next: int, reader: Reader, log: Log)
    requires LogTold(before, m, next, reader, log)
    ensures LogTold(before + part, m, next, reader, log)
  {
    hide FungibleTold, OwnerTold, IsTold, Entries, Info;
    var n := Entries(reader, log);
    assert (before + part)[m..m + n] == before[m..m + n];
  }

  /** No lookup for a Transfer event fails. */
  ghost predicate LookedUp(reader: Reader, logs: seq<Log>) {
    forall log <- logs :: IsTransfer(reader, log) ==> Info(reader, log).Some?
  }

  /** Each log has its own operations, after those of the logs before it. */
  ghost predicate AllTold(ops: seq<EvmOperation>, next: int, reader: Reader, logs: seq<Log>) {
    |ops| == EntriesOf(reader, logs) && forall k :: 0 <= k < |logs| ==> LogTold(ops, EntriesOf(reader, logs[..k]), next, reader, logs[k])
  }

  lemma OneMoreTold(before: seq<EvmOperation>, part: seq<EvmOperation>, next: int, reader: Reader, rest: seq<Log>, log: Log)
    requires AllTold(before, next, reader, rest)
    requires |part| == Entries(reader, log) && LogTold(part, 0, next + |before|, reader, log)
    ensures AllTold(before + part, next, reader, rest + [log])
  {
    hide LogTold, Entries;
    var logs := rest + [log];
    ToldInPlace(before, part, next, reader, log);
    assert logs[..|rest|] == rest;
    forall k | 0 <= k < |rest| ensures LogTold(before + part, EntriesOf(reader, logs[..k]), next, reader, logs[k]) {
      assert logs[..k] == rest[..k];
      ToldStays(before, part, EntriesOf(reader, rest[..k]), next, reader, rest[k]);
    }
  }

  /** Main result: the logs are reported exactly when no lookup for a Transfer event fails, and then each log has its own
      operations, in order, telling kind, parties, amount and token. */
  lemma {:induction false} LogsTold(reader: Reader, logs: seq<Log>, next: int)
    ensures AllLogOps(reader, logs, next).Some? <==> LookedUp(reader, logs)
    ensures AllLogOps(reader, logs, next).Some? ==> AllTold(AllLogOps(reader, logs, next).value, next, reader, logs)
  {
    hide LogOps, LogTold, Entries, IsTransfer, Info;
    if logs != [] {
      var n := |logs| - 1;
      var rest, log := logs[..n], logs[n];
      WithLast(logs);
      LogsTold(reader, rest, next);
      hide AllTold, EntriesOf;
      if AllLogOps(reader, rest, next).Some? {
        var before := AllLogOps(reader, rest, next).value;
        OneLogTold(reader, log, next + |before|);
        if LogOps(reader, log, next + |before|).Some? {
          OneMoreTold(before, LogOps(reader, log, next + |before|).value, next, reader, rest, log);
        }
      }
    }
  }
}
