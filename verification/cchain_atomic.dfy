/** server/mapper/cchainatomictx: building atomic transactions from operations (tx_builder.go) and parsing them back
    (tx_parser.go). */
module CChainAtomic {
  import opened Rosetta
  import opened Sequences
  import opened Atomic
  import opened Signers

  datatype Kind = Import | Export

  /** Atomic operations carry no metadata. */
  datatype NoMetadata = NoMetadata

  type AtomicOperation = Operation<Kind, NoMetadata>

  /** The transaction metadata, the library's reading of a hex address, and the byte order of outputs. */
  datatype Settings = Settings(
    avaxAsset: Id, nonce: uint64, source: Id, destination: Id,
    hexAddress: Account -> Address, outputOrder: ExportedOutput -> int)

  /** Reading the text of an EVM address gives that address; of other texts nothing is known. */
  ghost predicate ReadsHex(s: Settings) {
    forall a :: s.hexAddress(Evm(a)) == a
  }

  /** What the operation matcher lets through: an account and an amount. */
  predicate Matched(op: AtomicOperation) {
    op.account.Some? && op.amount.Some?
  }

  /** The account is a bech32 address. */
  predicate ToBech32(op: AtomicOperation) {
    op.account.Some? && op.account.value.Bech32?
  }

  // ----- tx_builder.go -----

  /** Library orders: address before asset, transaction before index. */
  const EVM_INPUT_KEY: EvmInput -> int := (input: EvmInput) => input.address * TWO_ASSETS + input.assetId

  const EVM_OUTPUT_KEY: EvmOutput -> int := (out: EvmOutput) => out.address * TWO_ASSETS + out.assetId

  const IMPORTED_KEY: ImportedInput -> int := (input: ImportedInput) => CoinKey(input.utxo)

  /** The number of asset ids. */
  const TWO_ASSETS: int := 0x1_0000000000000000_0000000000000000_0000000000000000_0000000000000000

  function EvmInputOf(s: Settings): AtomicOperation -> EvmInput {
    (op: AtomicOperation) =>
      if Matched(op) then EvmInput(s.hexAddress(op.account.value), LowUint64(op.amount.value.value), s.avaxAsset, s.nonce)
      else EvmInput(0, 0, s.avaxAsset, s.nonce)
  }

  function EvmOutputOf(s: Settings): AtomicOperation -> EvmOutput {
    (op: AtomicOperation) =>
      if Matched(op) then EvmOutput(s.hexAddress(op.account.value), LowUint64(op.amount.value.value), s.avaxAsset)
      else EvmOutput(0, 0, s.avaxAsset)
  }

  function ImportedInputOf(s: Settings): AtomicOperation -> ImportedInput {
    (op: AtomicOperation) =>
      if Matched(op) && op.coinChange.Some?
      then ImportedInput(op.coinChange.value.coin, s.avaxAsset, LowUint64(op.amount.value.value), [0])
      else ImportedInput(UtxoId(0, 0), s.avaxAsset, 0, [0])
  }

  function ExportedOutputOf(s: Settings): AtomicOperation -> ExportedOutput {
    (op: AtomicOperation) =>
      if Matched(op) && op.account.value.Bech32?
      then ExportedOutput(s.avaxAsset, LowUint64(op.amount.value.value), 0, 1, [op.account.value.id])
      else ExportedOutput(s.avaxAsset, 0, 0, 1, [])
  }

  function Accounts(ops: seq<AtomicOperation>): seq<Option<Account>> {
    seq(|ops|, i requires 0 <= i < |ops| => ops[i].account)
  }

  method BuildIns(ops: seq<AtomicOperation>, s: Settings) returns (ins: seq<EvmInput>, signers: seq<Option<Account>>)
    requires forall op <- ops :: Matched(op)
    ensures IsSorted(ins, Map(ops, EvmInputOf(s)), EVM_INPUT_KEY)
    ensures signers == Accounts(ops)
  {
    ins, signers := [], [];
    for i := 0 to |ops|
      invariant ins == Map(ops, EvmInputOf(s))[..i]
      invariant signers == Accounts(ops)[..i]
    {
      assert Matched(ops[i]);
      ins := ins + [EvmInput(s.hexAddress(ops[i].account.value), LowUint64(ops[i].amount.value.value), s.avaxAsset, s.nonce)];
      signers := signers + [ops[i].account];
    }
    assert ins == Map(ops, EvmInputOf(s));
    ins := SortBy(ins, EVM_INPUT_KEY);
  }

  method BuildImportedInputs(ops: seq<AtomicOperation>, s: Settings)
    returns (r: Option<(seq<ImportedInput>, seq<Option<Account>>)>)
    requires forall op <- ops :: Matched(op)
    ensures r.Some? <==> forall op <- ops :: op.coinChange.Some?
    ensures r.Some? ==> IsSorted(r.value.0, Map(ops, ImportedInputOf(s)), IMPORTED_KEY) && r.value.1 == Accounts(ops)
  {
    var ins: seq<ImportedInput>, signers := [], [];
    for i := 0 to |ops|
      invariant forall k :: 0 <= k < i ==> ops[k].coinChange.Some?
      invariant ins == Map(ops, ImportedInputOf(s))[..i]
      invariant signers == Accounts(ops)[..i]
    {
      assert ops[i] in ops && Matched(ops[i]);
      if ops[i].coinChange.None? {
        return None;
      }
      ins := ins + [ImportedInput(ops[i].coinChange.value.coin, s.avaxAsset, LowUint64(ops[i].amount.value.value), [0])];
      signers := signers + [ops[i].account];
    }
    assert ins == Map(ops, ImportedInputOf(s));
    ins := SortBy(ins, IMPORTED_KEY);
    return Some((ins, signers));
  }

  method BuildOuts(ops: seq<AtomicOperation>, s: Settings) returns (outs: seq<EvmOutput>)
    requires forall op <- ops :: Matched(op)
    ensures IsSorted(outs, Map(ops, EvmOutputOf(s)), EVM_OUTPUT_KEY)
  {
    outs := [];
    for i := 0 to |ops|
      invariant outs == Map(ops, EvmOutputOf(s))[..i]
    {
      assert Matched(ops[i]);
      outs := outs + [EvmOutput(s.hexAddress(ops[i].account.value), LowUint64(ops[i].amount.value.value), s.avaxAsset)];
    }
    assert outs == Map(ops, EvmOutputOf(s));
    outs := SortBy(outs, EVM_OUTPUT_KEY);
  }

  method BuildExportedOutputs(ops: seq<AtomicOperation>, s: Settings) returns (r: Option<seq<ExportedOutput>>)
    requires forall op <- ops :: Matched(op)
    ensures r.Some? <==> forall op <- ops :: ToBech32(op)
    ensures r.Some? ==> IsSorted(r.value, Map(ops, ExportedOutputOf(s)), s.outputOrder)
  {
    var outs: seq<ExportedOutput> := [];
    for i := 0 to |ops|
      invariant forall k :: 0 <= k < i ==> ToBech32(ops[k])
      invariant outs == Map(ops, ExportedOutputOf(s))[..i]
    {
      assert ops[i] in ops && Matched(ops[i]);
      if !ops[i].account.value.Bech32? {
        return None;
      }
      outs := outs + [ExportedOutput(s.avaxAsset, LowUint64(ops[i].amount.value.value), 0, 1, [ops[i].account.value.id])];
    }
    assert outs == Map(ops, ExportedOutputOf(s));
    outs := SortBy(outs, s.outputOrder);
    return Some(outs);
  }

  /** The transaction that building gives, up to the order of entries with the same sort key. */
  ghost predicate IsBuilt(tx: AtomicTx, kind: Kind, inputs: seq<AtomicOperation>, outputs: seq<AtomicOperation>, s: Settings) {
    match kind
    case Export =>
      && tx.ExportTx? && tx.destinationChain == s.destination
      && IsSorted(tx.ins, Map(inputs, EvmInputOf(s)), EVM_INPUT_KEY)
      && tx.exportedOutputs.Some? && IsSorted(tx.exportedOutputs.value, Map(outputs, ExportedOutputOf(s)), s.outputOrder)
    case Import =>
      && tx.ImportTx? && tx.sourceChain == s.source
      && IsSorted(tx.importedInputs, Map(inputs, ImportedInputOf(s)), IMPORTED_KEY)
      && IsSorted(tx.outs, Map(outputs, EvmOutputOf(s)), EVM_OUTPUT_KEY)
  }

  method BuildTx(kind: Kind, inputs: seq<AtomicOperation>, outputs: seq<AtomicOperation>, s: Settings)
    returns (r: Option<(AtomicTx, seq<Option<Account>>)>)
    requires (forall op <- inputs :: Matched(op)) && forall op <- outputs :: Matched(op)
    ensures r.Some? <==>
      match kind
      case Export => forall op <- outputs :: ToBech32(op)
      case Import => forall op <- inputs :: op.coinChange.Some?
    ensures r.Some? ==> IsBuilt(r.value.0, kind, inputs, outputs, s) && r.value.1 == Accounts(inputs)
  {
    match kind {
      case Export =>
        var ins, signers := BuildIns(inputs, s);
        var exported := BuildExportedOutputs(outputs, s);
        if exported.None? {
          return None;
        }
        return Some((ExportTx(s.destination, ins, exported), signers));
      case Import =>
        var imported := BuildImportedInputs(inputs, s);
        if imported.None? {
          return None;
        }
        var outs := BuildOuts(outputs, s);
        return Some((ImportTx(s.source, imported.value.0, outs), imported.value.1));
    }
  }

  // ----- tx_parser.go -----

  /** What the parser knows: the address prefix, the chains, and the accounts of the spent coins. */
  datatype Parser = Parser(hrp: string, chains: map<Id, string>, accounts: map<UtxoId, Account>)

  datatype ParseError = UnknownDestinationChain | NoMatchingInputAddresses | UnsupportedTxType

  /** The identifiers 0 to n-1, as a list of related operations. */
  function Upto(n: nat): seq<int> {
    seq(n, i => i)
  }

  method BuildRelatedOperations(n: nat) returns (related: seq<int>)
    ensures related == Upto(n)
  {
    related := [];
    for i := 0 to n
      invariant related == Upto(n)[..i]
    {
      related := related + [i];
    }
  }

  /** Operations before they are placed. */
  function DebitOf(input: EvmInput): AtomicOperation {
    Operation(None, [], Export, Unset, Some(Evm(input.address)), Some(Amount(-(input.amount as int), AtomicAvax)), None, NoMetadata)
  }

  function SpendOf(accounts: map<UtxoId, Account>, input: ImportedInput): AtomicOperation {
    var account := if input.utxo in accounts then Some(accounts[input.utxo]) else None;
    Operation(None, [], Import, Unset, account, Some(Amount(-(input.amount as int), AtomicAvax)), Some(CoinChange(input.utxo, CoinSpent)), NoMetadata)
  }

  function CreditOf(out: EvmOutput): AtomicOperation {
    Operation(None, [], Import, Unset, Some(Evm(out.address)), Some(Amount(out.amount, AtomicAvax)), None, NoMetadata)
  }

  function ExportOf(alias: string, hrp: string, out: ExportedOutput): AtomicOperation {
    var account := if out.addresses == [] then Blank else Bech32(alias, hrp, out.addresses[0]);
    Operation(None, [], Export, Unset, Some(account), Some(Amount(out.amount, AtomicAvax)), None, NoMetadata)
  }

  /** Operations with their positions from start on, related to the given ones. */
  function Placed(ops: seq<AtomicOperation>, start: nat, related: seq<int>): seq<AtomicOperation> {
    seq(|ops|, i requires 0 <= i < |ops| => ops[i].(index := Some(start + i), related := related))
  }

  function ToDebit(): EvmInput -> AtomicOperation { (input: EvmInput) => DebitOf(input) }

  function ToSpend(accounts: map<UtxoId, Account>): ImportedInput -> AtomicOperation {
    (input: ImportedInput) => SpendOf(accounts, input)
  }

  function ToCredit(): EvmOutput -> AtomicOperation { (out: EvmOutput) => CreditOf(out) }

  function ToExport(alias: string, hrp: string): ExportedOutput -> AtomicOperation {
    (out: ExportedOutput) => ExportOf(alias, hrp, out)
  }

  method InsToOperations(start: nat, ins: seq<EvmInput>) returns (ops: seq<AtomicOperation>)
    ensures ops == Placed(Map(ins, ToDebit()), start, [])
  {
    var idx := start;
    ops := [];
    for i := 0 to |ins|
      invariant idx == start + i && ops == Placed(Map(ins, ToDebit()), start, [])[..i]
    {
      ops := ops + [Operation(Some(idx), [], Export, Unset, Some(Evm(ins[i].address)), Some(Amount(-(ins[i].amount as int), AtomicAvax)), None, NoMetadata)];
      idx := idx + 1;
    }
  }

  method ImportedInToOperations(parser: Parser, start: nat, ins: seq<ImportedInput>) returns (ops: Option<seq<AtomicOperation>>)
    ensures ops.Some? <==> forall i :: 0 <= i < |ins| ==> ins[i].utxo in parser.accounts
    ensures ops.Some? ==> ops.value == Placed(Map(ins, ToSpend(parser.accounts)), start, [])
  {
    var idx, r: seq<AtomicOperation> := start, [];
    for i := 0 to |ins|
      invariant forall k :: 0 <= k < i ==> ins[k].utxo in parser.accounts
      invariant idx == start + i && r == Placed(Map(ins, ToSpend(parser.accounts)), start, [])[..i]
    {
      if ins[i].utxo !in parser.accounts {
        return None;
      }
      r := r + [Operation(Some(idx), [], Import, Unset, Some(parser.accounts[ins[i].utxo]),
                          Some(Amount(-(ins[i].amount as int), AtomicAvax)), Some(CoinChange(ins[i].utxo, CoinSpent)), NoMetadata)];
      idx := idx + 1;
    }
    return Some(r);
  }

  method OutsToOperations(start: nat, outs: seq<EvmOutput>) returns (ops: seq<AtomicOperation>)
    ensures ops == Placed(Map(outs, ToCredit()), start, Upto(start))
  {
    var idx := start;
    ops := [];
    for i := 0 to |outs|
      invariant idx == start + i && ops == Placed(Map(outs, ToCredit()), start, Upto(start))[..i]
    {
      var related := BuildRelatedOperations(start);
      ops := ops + [Operation(Some(idx), related, Import, Unset, Some(Evm(outs[i].address)), Some(Amount(outs[i].amount, AtomicAvax)), None, NoMetadata)];
      idx := idx + 1;
    }
  }

  method ExportedOutputsToOperations(parser: Parser, start: nat, alias: string, outs: seq<ExportedOutput>)
    returns (ops: seq<AtomicOperation>)
    ensures ops == Placed(Map(outs, ToExport(alias, parser.hrp)), start, Upto(start))
  {
    var idx := start;
    ops := [];
    for i := 0 to |outs|
      invariant idx == start + i && ops == Placed(Map(outs, ToExport(alias, parser.hrp)), start, Upto(start))[..i]
    {
      var account := Blank;
      if |outs[i].addresses| > 0 {
        account := Bech32(alias, parser.hrp, outs[i].addresses[0]);
      }
      var related := BuildRelatedOperations(start);
      ops := ops + [Operation(Some(idx), related, Export, Unset, Some(account), Some(Amount(outs[i].amount, AtomicAvax)), None, NoMetadata)];
      idx := idx + 1;
    }
  }

  function ExportedList(tx: AtomicTx): seq<ExportedOutput>
    requires tx.ExportTx?
  {
    if tx.exportedOutputs.Some? then tx.exportedOutputs.value else []
  }

  function Parsed(parser: Parser, tx: AtomicTx): Result<seq<AtomicOperation>, ParseError> {
    match tx
    case ExportTx(destination, ins, _) =>
      if destination !in parser.chains then Err(UnknownDestinationChain)
      else Ok(Placed(Map(ins, ToDebit()), 0, [])
              + Placed(Map(ExportedList(tx), ToExport(parser.chains[destination], parser.hrp)), |ins|, Upto(|ins|)))
    case ImportTx(_, ins, outs) =>
      if exists i :: 0 <= i < |ins| && ins[i].utxo !in parser.accounts then Err(NoMatchingInputAddresses)
      else Ok(Placed(Map(ins, ToSpend(parser.accounts)), 0, []) + Placed(Map(outs, ToCredit()), |ins|, Upto(|ins|)))
    case OtherTx => Err(UnsupportedTxType)
  }

  method Parse(parser: Parser, tx: AtomicTx) returns (r: Result<seq<AtomicOperation>, ParseError>)
    ensures r == Parsed(parser, tx)
  {
    match tx {
      case ExportTx(destination, ins, _) =>
        var inOps := InsToOperations(0, ins);
        if destination !in parser.chains {
          return Err(UnknownDestinationChain);
        }
        var outOps := ExportedOutputsToOperations(parser, |inOps|, parser.chains[destination], ExportedList(tx));
        return Ok(inOps + outOps);
      case ImportTx(_, ins, outs) =>
        var inOps := ImportedInToOperations(parser, 0, ins);
        if inOps.None? {
          return Err(NoMatchingInputAddresses);
        }
        var outOps := OutsToOperations(|inOps.value|, outs);
        return Ok(inOps.value + outOps);
      case OtherTx =>
        return Err(UnsupportedTxType);
    }
  }

  // ----- properties -----

  function InputCount(tx: AtomicTx): nat {
    match tx
    case ExportTx(_, ins, _) => |ins|
    case ImportTx(_, ins, _) => |ins|
    case OtherTx => 0
  }

  /** Main result: indices are positions; inputs relate to nothing and every output to all inputs and nothing else. */
  lemma PositionsAndRelations(parser: Parser, tx: AtomicTx)
    requires Parsed(parser, tx).Ok?
    ensures var ops := Parsed(parser, tx).value;
      && InputCount(tx) <= |ops|
      && (forall i :: 0 <= i < |ops| ==> ops[i].index == Some(i))
      && (forall i, r :: 0 <= i < |ops| ==> (r in ops[i].related <==> InputCount(tx) <= i && 0 <= r < InputCount(tx)))
  {
    hide Map, DebitOf, SpendOf, CreditOf, ExportOf;
    UptoHas(InputCount(tx));
  }

  lemma UptoHas(n: nat)
    ensures forall r: int :: r in Upto(n) <==> 0 <= r < n
  {
    forall r: int | 0 <= r < n ensures r in Upto(n) {
      assert Upto(n)[r] == r;
    }
  }

  function Unplaced(op: AtomicOperation): AtomicOperation {
    op.(index := None, related := [])
  }

  const UNPLACED: AtomicOperation -> AtomicOperation := (op: AtomicOperation) => Unplaced(op)

  lemma PlacedUnplaced(ops: seq<AtomicOperation>, start: nat, related: seq<int>)
    requires forall i :: 0 <= i < |ops| ==> ops[i].index == None && ops[i].related == []
    ensures Map(Placed(ops, start, related), UNPLACED) == ops
  {
  }

  /** A sorted list of built entries, parsed, gives a rearrangement of what each operation gives by itself. */
  lemma PartReturns<T>(ops: seq<AtomicOperation>, built: seq<T>, key: T -> int, build: AtomicOperation -> T, parse: T -> AtomicOperation,
                       back: AtomicOperation -> AtomicOperation, start: nat, related: seq<int>)
    requires IsSorted(built, Map(ops, build), key)
    requires forall x :: parse(x).index == None && parse(x).related == []
    requires forall op <- ops :: parse(build(op)) == back(op)
    ensures |built| == |ops|
    ensures multiset(Map(Placed(Map(built, parse), start, related), UNPLACED)) == multiset(Map(ops, back))
  {
    assert |multiset(built)| == |multiset(Map(ops, build))|;
    PlacedUnplaced(Map(built, parse), start, related);
    MapPermutation(built, Map(ops, build), parse);
    assert Map(Map(ops, build), parse) == Map(ops, back);
  }

  /** What comes back for one input operation: a readable address or the account on record, and the amount modulo 2^64. */
  function ReturnedInput(kind: Kind, s: Settings, accounts: map<UtxoId, Account>, op: AtomicOperation): AtomicOperation
    requires Matched(op) && (kind == Import ==> op.coinChange.Some?)
  {
    var amount := Some(Amount(-(LowUint64(op.amount.value.value) as int), AtomicAvax));
    match kind
    case Export => Operation(None, [], Export, Unset, Some(Evm(s.hexAddress(op.account.value))), amount, None, NoMetadata)
    case Import =>
      var coin := op.coinChange.value.coin;
      Operation(None, [], Import, Unset, if coin in accounts then Some(accounts[coin]) else None, amount,
                Some(CoinChange(coin, CoinSpent)), NoMetadata)
  }

  function ReturnedOutput(kind: Kind, s: Settings, parser: Parser, op: AtomicOperation): AtomicOperation
    requires Matched(op) && (kind == Export ==> ToBech32(op))
  {
    var amount := Some(Amount(LowUint64(op.amount.value.value), AtomicAvax));
    match kind
    case Export =>
      Operation(None, [], Export, Unset, Some(Bech32(DestinationAlias(s, parser), parser.hrp, op.account.value.id)), amount, None, NoMetadata)
    case Import => Operation(None, [], Import, Unset, Some(Evm(s.hexAddress(op.account.value))), amount, None, NoMetadata)
  }

  function BackInput(kind: Kind, s: Settings, accounts: map<UtxoId, Account>): AtomicOperation -> AtomicOperation {
    (op: AtomicOperation) => if Matched(op) && (kind == Import ==> op.coinChange.Some?) then ReturnedInput(kind, s, accounts, op) else op
  }

  function BackOutput(kind: Kind, s: Settings, parser: Parser): AtomicOperation -> AtomicOperation {
    (op: AtomicOperation) => if Matched(op) && (kind == Export ==> ToBech32(op)) then ReturnedOutput(kind, s, parser, op) else op
  }

  function DestinationAlias(s: Settings, parser: Parser): string {
    if s.destination in parser.chains then parser.chains[s.destination] else ""
  }

  /** The spent coins have accounts on record, and the destination is known. */
  predicate Parseable(kind: Kind, inputs: seq<AtomicOperation>, s: Settings, parser: Parser) {
    match kind
    case Export => s.destination in parser.chains
    case Import => forall op <- inputs :: op.coinChange.Some? && op.coinChange.value.coin in parser.accounts
  }

  lemma ImportedCoinsKnown(ins: seq<ImportedInput>, inputs: seq<AtomicOperation>, s: Settings, parser: Parser)
    requires IsSorted(ins, Map(inputs, ImportedInputOf(s)), IMPORTED_KEY)
    requires forall op <- inputs :: Matched(op) && op.coinChange.Some? && op.coinChange.value.coin in parser.accounts
    ensures forall i :: 0 <= i < |ins| ==> ins[i].utxo in parser.accounts
  {
    var built := Map(inputs, ImportedInputOf(s));
    forall i | 0 <= i < |ins| ensures ins[i].utxo in parser.accounts {
      assert ins[i] in multiset(built);
      var k :| 0 <= k < |built| && built[k] == ins[i];
      assert inputs[k] in inputs;
    }
  }

  /** Main result: parsing a built transaction gives back the inputs first and the outputs after, each operation once. */
  lemma BuildThenParse(kind: Kind, tx: AtomicTx, inputs: seq<AtomicOperation>, outputs: seq<AtomicOperation>, s: Settings, parser: Parser)
    requires IsBuilt(tx, kind, inputs, outputs, s) && Parseable(kind, inputs, s, parser)
    requires forall op <- inputs :: Matched(op)
    requires forall op <- outputs :: Matched(op) && (kind == Export ==> ToBech32(op))
    ensures Parsed(parser, tx).Ok? && InputCount(tx) == |inputs| && |Parsed(parser, tx).value| == |inputs| + |outputs|
    ensures var ops := Parsed(parser, tx).value;
      && multiset(Map(ops[..|inputs|], UNPLACED)) == multiset(Map(inputs, BackInput(kind, s, parser.accounts)))
      && multiset(Map(ops[|inputs|..], UNPLACED)) == multiset(Map(outputs, BackOutput(kind, s, parser)))
  {
    hide IsSorted, Map, DebitOf, SpendOf, CreditOf, ExportOf, Matched, EvmInputOf, EvmOutputOf, ImportedInputOf, ExportedOutputOf;
    match kind {
      case Export =>
        DebitsReturn(tx.ins, inputs, s, parser);
        ExportsReturn(tx, inputs, outputs, s, parser);
        var a := Placed(Map(tx.ins, ToDebit()), 0, []);
        var b := Placed(Map(ExportedList(tx), ToExport(parser.chains[s.destination], parser.hrp)), |tx.ins|, Upto(|tx.ins|));
        assert (a + b)[..|a|] == a && (a + b)[|a|..] == b;
      case Import =>
        ImportedCoinsKnown(tx.importedInputs, inputs, s, parser);
        SpendsReturn(tx.importedInputs, inputs, s, parser);
        CreditsReturn(tx.outs, outputs, s, parser, |tx.importedInputs|);
        var a := Placed(Map(tx.importedInputs, ToSpend(parser.accounts)), 0, []);
        var b := Placed(Map(tx.outs, ToCredit()), |tx.importedInputs|, Upto(|tx.importedInputs|));
        assert (a + b)[..|a|] == a && (a + b)[|a|..] == b;
    }
  }

  lemma DebitsReturn(ins: seq<EvmInput>, inputs: seq<AtomicOperation>, s: Settings, parser: Parser)
    requires IsSorted(ins, Map(inputs, EvmInputOf(s)), EVM_INPUT_KEY) && forall op <- inputs :: Matched(op)
    ensures |ins| == |inputs|
    ensures multiset(Map(Placed(Map(ins, ToDebit()), 0, []), UNPLACED)) == multiset(Map(inputs, BackInput(Export, s, parser.accounts)))
  {
    PartReturns(inputs, ins, EVM_INPUT_KEY, EvmInputOf(s), ToDebit(), BackInput(Export, s, parser.accounts), 0, []);
  }

  lemma ExportsReturn(tx: AtomicTx, inputs: seq<AtomicOperation>, outputs: seq<AtomicOperation>, s: Settings, parser: Parser)
    requires IsBuilt(tx, Export, inputs, outputs, s) && s.destination in parser.chains
    requires forall op <- outputs :: Matched(op) && ToBech32(op)
    ensures |ExportedList(tx)| == |outputs|
    ensures multiset(Map(Placed(Map(ExportedList(tx), ToExport(parser.chains[s.destination], parser.hrp)), |tx.ins|, Upto(|tx.ins|)), UNPLACED))
         == multiset(Map(outputs, BackOutput(Export, s, parser)))
  {
    PartReturns(outputs, ExportedList(tx), s.outputOrder, ExportedOutputOf(s), ToExport(parser.chains[s.destination], parser.hrp),
                BackOutput(Export, s, parser), |tx.ins|, Upto(|tx.ins|));
  }

  lemma SpendsReturn(ins: seq<ImportedInput>, inputs: seq<AtomicOperation>, s: Settings, parser: Parser)
    requires IsSorted(ins, Map(inputs, ImportedInputOf(s)), IMPORTED_KEY)
    requires forall op <- inputs :: Matched(op) && op.coinChange.Some?
    ensures |ins| == |inputs|
    ensures multiset(Map(Placed(Map(ins, ToSpend(parser.accounts)), 0, []), UNPLACED))
         == multiset(Map(inputs, BackInput(Import, s, parser.accounts)))
  {
    PartReturns(inputs, ins, IMPORTED_KEY, ImportedInputOf(s), ToSpend(parser.accounts), BackInput(Import, s, parser.accounts), 0, []);
  }

  lemma CreditsReturn(outs: seq<EvmOutput>, outputs: seq<AtomicOperation>, s: Settings, parser: Parser, start: nat)
    requires IsSorted(outs, Map(outputs, EvmOutputOf(s)), EVM_OUTPUT_KEY) && forall op <- outputs :: Matched(op)
    ensures |outs| == |outputs|
    ensures multiset(Map(Placed(Map(outs, ToCredit()), start, Upto(start)), UNPLACED)) == multiset(Map(outputs, BackOutput(Import, s, parser)))
  {
    PartReturns(outputs, outs, EVM_OUTPUT_KEY, EvmOutputOf(s), ToCredit(), BackOutput(Import, s, parser), start, Upto(start));
  }

  predicate NotAfter(kind: Kind, a: AtomicOperation, b: AtomicOperation) {
    match kind
    case Export =>
      && a.account.Some? && a.account.value.Evm? && b.account.Some? && b.account.value.Evm?
      && a.account.value.address <= b.account.value.address
    case Import =>
      a.coinChange.Some? && b.coinChange.Some? && CoinKey(a.coinChange.value.coin) <= CoinKey(b.coinChange.value.coin)
  }

  /** The operations of the inputs come in the library's order: by account for an export, by coin for an import. */
  lemma InputsComeSorted(kind: Kind, tx: AtomicTx, inputs: seq<AtomicOperation>, outputs: seq<AtomicOperation>, s: Settings, parser: Parser)
    requires IsBuilt(tx, kind, inputs, outputs, s) && Parsed(parser, tx).Ok?
    ensures var ops := Parsed(parser, tx).value;
      InputCount(tx) <= |ops| && forall i, j :: 0 <= i < j < InputCount(tx) ==> NotAfter(kind, ops[i], ops[j])
  {
    if kind == Export {
      var built := Map(inputs, EvmInputOf(s));
      forall i | 0 <= i < |tx.ins| ensures tx.ins[i].assetId == s.avaxAsset {
        assert tx.ins[i] in multiset(built);
      }
      forall i, j | 0 <= i < j < |tx.ins| ensures tx.ins[i].address <= tx.ins[j].address {
        assert EVM_INPUT_KEY(tx.ins[i]) <= EVM_INPUT_KEY(tx.ins[j]);
      }
    } else {
      forall i, j | 0 <= i < j < |tx.importedInputs| ensures CoinKey(tx.importedInputs[i].utxo) <= CoinKey(tx.importedInputs[j].utxo) {
        assert IMPORTED_KEY(tx.importedInputs[i]) <= IMPORTED_KEY(tx.importedInputs[j]);
      }
    }
  }

  // ----- when an operation comes back as it was -----

  predicate Plain(kind: Kind, op: AtomicOperation) {
    Matched(op) && op.kind == kind && op.status == Unset && op.amount.value.currency == AtomicAvax
  }

  /** A debit of an EVM account, or the spending of a coin of an account on record. */
  predicate FitsInput(kind: Kind, parser: Parser, op: AtomicOperation) {
    && Plain(kind, op) && -TWO_64 < op.amount.value.value <= 0
    && match kind
       case Export => op.account.value.Evm? && op.coinChange.None?
       case Import =>
         && op.coinChange.Some? && op.coinChange.value.action == CoinSpent
         && op.coinChange.value.coin in parser.accounts && parser.accounts[op.coinChange.value.coin] == op.account.value
  }

  predicate FitsOutput(kind: Kind, s: Settings, parser: Parser, op: AtomicOperation) {
    && Plain(kind, op) && 0 <= op.amount.value.value < TWO_64 && op.coinChange.None?
    && match kind
       case Export =>
         op.account.value.Bech32? && op.account.value.chain == DestinationAlias(s, parser) && op.account.value.hrp == parser.hrp
       case Import => op.account.value.Evm?
  }

  /** Main result: an input comes back as it was exactly when it fits. */
  lemma InputComesBackIff(kind: Kind, s: Settings, parser: Parser, op: AtomicOperation)
    requires Matched(op) && (kind == Import ==> op.coinChange.Some?) && ReadsHex(s)
    ensures ReturnedInput(kind, s, parser.accounts, op) == Unplaced(op) <==> FitsInput(kind, parser, op)
  {
    var back := ReturnedInput(kind, s, parser.accounts, op);
    assert back.amount == op.amount <==> op.amount.value.currency == AtomicAvax && -TWO_64 < op.amount.value.value <= 0;
    assert kind == Export ==> (back.account == op.account <==> op.account.value.Evm?);
    assert op.metadata == back.metadata;
  }

  /** Main result: an output comes back as it was exactly when it fits. */
  lemma OutputComesBackIff(kind: Kind, s: Settings, parser: Parser, op: AtomicOperation)
    requires Matched(op) && (kind == Export ==> ToBech32(op)) && ReadsHex(s)
    ensures ReturnedOutput(kind, s, parser, op) == Unplaced(op) <==> FitsOutput(kind, s, parser, op)
  {
    var back := ReturnedOutput(kind, s, parser, op);
    assert back.amount == op.amount <==> op.amount.value.currency == AtomicAvax && 0 <= op.amount.value.value < TWO_64;
    assert kind == Import ==> (back.account == op.account <==> op.account.value.Evm?);
    assert op.metadata == back.metadata;
  }

  lemma FittingIsParseable(kind: Kind, inputs: seq<AtomicOperation>, s: Settings, parser: Parser)
    requires forall op <- inputs :: FitsInput(kind, parser, op)
    requires kind == Export ==> s.destination in parser.chains
    ensures Parseable(kind, inputs, s, parser) && forall op <- inputs :: Matched(op) && (kind == Import ==> op.coinChange.Some?)
  {
  }

  lemma OutputsMatched(kind: Kind, outputs: seq<AtomicOperation>, s: Settings, parser: Parser)
    requires forall op <- outputs :: FitsOutput(kind, s, parser, op)
    ensures forall op <- outputs :: Matched(op) && (kind == Export ==> ToBech32(op))
  {
  }

  // ----- when everything comes back -----

  /** Fitting is a matter of what an operation says, not of its place; and whatever comes back fits. */
  lemma LikeReturnedInputFits(kind: Kind, s: Settings, parser: Parser, x: AtomicOperation, op: AtomicOperation)
    requires Matched(x) && (kind == Import ==> x.coinChange.Some? && x.coinChange.value.coin in parser.accounts)
    requires ReturnedInput(kind, s, parser.accounts, x) == Unplaced(op)
    ensures FitsInput(kind, parser, op)
  {
    assert Unplaced(op).kind == op.kind && Unplaced(op).status == op.status && Unplaced(op).account == op.account;
    assert Unplaced(op).amount == op.amount && Unplaced(op).coinChange == op.coinChange;
  }

  lemma LikeReturnedOutputFits(kind: Kind, s: Settings, parser: Parser, x: AtomicOperation, op: AtomicOperation)
    requires Matched(x) && (kind == Export ==> ToBech32(x))
    requires ReturnedOutput(kind, s, parser, x) == Unplaced(op)
    ensures FitsOutput(kind, s, parser, op)
  {
    assert Unplaced(op).kind == op.kind && Unplaced(op).status == op.status && Unplaced(op).account == op.account;
    assert Unplaced(op).amount == op.amount && Unplaced(op).coinChange == op.coinChange;
  }

  /** An operation of one list looks like one of the other, place aside. */
  lemma ImageCounterpart(ops: seq<AtomicOperation>, back: AtomicOperation -> AtomicOperation, i: nat) returns (k: nat)
    requires multiset(Map(ops, back)) == multiset(Map(ops, UNPLACED)) && i < |ops|
    ensures k < |ops| && back(ops[k]) == Unplaced(ops[i])
  {
    assert Map(ops, UNPLACED)[i] in multiset(Map(ops, back));
    k :| 0 <= k < |ops| && Map(ops, back)[k] == UNPLACED(ops[i]);
  }

  /** The inputs' images are the inputs exactly when all of them fit. */
  lemma InputsComeBackIff(kind: Kind, s: Settings, parser: Parser, inputs: seq<AtomicOperation>)
    requires ReadsHex(s) && Parseable(kind, inputs, s, parser) && forall op <- inputs :: Matched(op)
    ensures multiset(Map(inputs, BackInput(kind, s, parser.accounts))) == multiset(Map(inputs, UNPLACED)) <==>
            forall op <- inputs :: FitsInput(kind, parser, op)
  {
    hide Map, ReturnedInput, FitsInput, Matched, Unplaced, ReadsHex;
    var back := BackInput(kind, s, parser.accounts);
    if multiset(Map(inputs, back)) == multiset(Map(inputs, UNPLACED)) {
      forall op | op in inputs ensures FitsInput(kind, parser, op) {
        var i :| 0 <= i < |inputs| && inputs[i] == op;
        var k := ImageCounterpart(inputs, back, i);
        assert inputs[k] in inputs;
        LikeReturnedInputFits(kind, s, parser, inputs[k], op);
      }
    }
    if forall op <- inputs :: FitsInput(kind, parser, op) {
      forall op | op in inputs ensures back(op) == UNPLACED(op) {
        InputComesBackIff(kind, s, parser, op);
      }
      MapAgree(inputs, back, UNPLACED);
    }
  }

  lemma OutputsComeBackIff(kind: Kind, s: Settings, parser: Parser, outputs: seq<AtomicOperation>)
    requires ReadsHex(s) && forall op <- outputs :: Matched(op) && (kind == Export ==> ToBech32(op))
    ensures multiset(Map(outputs, BackOutput(kind, s, parser))) == multiset(Map(outputs, UNPLACED)) <==>
            forall op <- outputs :: FitsOutput(kind, s, parser, op)
  {
    hide Map, ReturnedOutput, FitsOutput, Matched, Unplaced, ReadsHex;
    var back := BackOutput(kind, s, parser);
    if multiset(Map(outputs, back)) == multiset(Map(outputs, UNPLACED)) {
      forall op | op in outputs ensures FitsOutput(kind, s, parser, op) {
        var i :| 0 <= i < |outputs| && outputs[i] == op;
        var k := ImageCounterpart(outputs, back, i);
        assert outputs[k] in outputs;
        LikeReturnedOutputFits(kind, s, parser, outputs[k], op);
      }
    }
    if forall op <- outputs :: FitsOutput(kind, s, parser, op) {
      forall op | op in outputs ensures back(op) == UNPLACED(op) {
        OutputComesBackIff(kind, s, parser, op);
      }
      MapAgree(outputs, back, UNPLACED);
    }
  }

  /** The parsed operations are the given ones, place aside: the inputs first and the outputs after. */
  ghost predicate ComesBack(ops: seq<AtomicOperation>, inputs: seq<AtomicOperation>, outputs: seq<AtomicOperation>)
    requires |ops| == |inputs| + |outputs|
  {
    && multiset(Map(ops[..|inputs|], UNPLACED)) == multiset(Map(inputs, UNPLACED))
    && multiset(Map(ops[|inputs|..], UNPLACED)) == multiset(Map(outputs, UNPLACED))
  }

  /** Main result: for all matched operations that can be built and parsed, all of them come back as they were, inputs
      first, exactly when every one fits. */
  lemma RoundTripIff(kind: Kind, tx: AtomicTx, inputs: seq<AtomicOperation>, outputs: seq<AtomicOperation>, s: Settings, parser: Parser)
    requires IsBuilt(tx, kind, inputs, outputs, s) && ReadsHex(s) && Parseable(kind, inputs, s, parser)
    requires forall op <- inputs :: Matched(op)
    requires forall op <- outputs :: Matched(op) && (kind == Export ==> ToBech32(op))
    ensures Parsed(parser, tx).Ok? && |Parsed(parser, tx).value| == |inputs| + |outputs|
    ensures ComesBack(Parsed(parser, tx).value, inputs, outputs) <==>
            (forall op <- inputs :: FitsInput(kind, parser, op)) && forall op <- outputs :: FitsOutput(kind, s, parser, op)
  {
    hide IsBuilt, Parsed, Map, FitsInput, FitsOutput, Matched, ReturnedInput, ReturnedOutput, Unplaced, ReadsHex, Parseable;
    BuildThenParse(kind, tx, inputs, outputs, s, parser);
    InputsComeBackIff(kind, s, parser, inputs);
    OutputsComeBackIff(kind, s, parser, outputs);
  }

  // ----- signers of a parsed transaction -----

  lemma {:induction false} DebitsFirst(a: seq<AtomicOperation>, b: seq<AtomicOperation>)
    requires HaveAmounts(a) && HaveAmounts(b)
    requires forall i :: 0 <= i < |a| ==> Debits(a[i])
    requires forall i :: 0 <= i < |b| ==> !Debits(b[i])
    ensures HaveAmounts(a + b) && Debiting(a + b) == a
    decreases |a| + |b|
  {
    if b != [] {
      AppendAllButLast(a, b);
      DebitsFirst(a, b[..|b| - 1]);
    } else {
      assert a + b == a;
      if a != [] {
        DebitsFirst(a[..|a| - 1], []);
        assert a[..|a| - 1] + [] == a[..|a| - 1];
        WithLast(a);
      }
    }
  }

  /** Operations that are a rearrangement of others up to place agree with one of them in amount, account and coin. */
  lemma Counterpart(ops: seq<AtomicOperation>, given: seq<AtomicOperation>, i: nat) returns (k: nat)
    requires multiset(Map(ops, UNPLACED)) == multiset(Map(given, UNPLACED)) && i < |ops|
    ensures k < |given| && ops[i].amount == given[k].amount && ops[i].account == given[k].account
    ensures CoinTextOf(ops[i]) == CoinTextOf(given[k])
  {
    assert Map(ops, UNPLACED)[i] in multiset(Map(given, UNPLACED));
    k :| 0 <= k < |given| && Map(given, UNPLACED)[k] == UNPLACED(ops[i]);
    assert Unplaced(ops[i]) == Unplaced(given[k]);
  }

  lemma DebitsReturned(ops: seq<AtomicOperation>, inputs: seq<AtomicOperation>)
    requires multiset(Map(ops, UNPLACED)) == multiset(Map(inputs, UNPLACED))
    requires forall op <- inputs :: op.amount.Some? && op.amount.value.value < 0
    requires RecordAgrees(inputs)
    ensures forall i :: 0 <= i < |ops| ==> ops[i].amount.Some? && Debits(ops[i]) && Recorded(SignersOf(inputs), ops[i]) == ops[i].account
  {
    RecordRightIff(inputs);
    forall i | 0 <= i < |ops|
      ensures ops[i].amount.Some? && Debits(ops[i]) && Recorded(SignersOf(inputs), ops[i]) == ops[i].account
    {
      var k := Counterpart(ops, inputs, i);
      assert inputs[k] in inputs;
      assert Recorded(SignersOf(inputs), inputs[k]) == inputs[k].account;
    }
  }

  lemma CreditsReturned(ops: seq<AtomicOperation>, outputs: seq<AtomicOperation>)
    requires multiset(Map(ops, UNPLACED)) == multiset(Map(outputs, UNPLACED))
    requires forall op <- outputs :: op.amount.Some? && op.amount.value.value >= 0
    ensures forall i :: 0 <= i < |ops| ==> ops[i].amount.Some? && !Debits(ops[i])
  {
    forall i | 0 <= i < |ops| ensures ops[i].amount.Some? && !Debits(ops[i]) {
      var k := Counterpart(ops, outputs, i);
      assert outputs[k] in outputs;
    }
  }

  /** Distinct coins for an import; one debited account for an export. */
  ghost predicate RecordAgrees(inputs: seq<AtomicOperation>) {
    forall i, j | 0 <= i < j < |inputs| && CoinTextOf(inputs[i]) == CoinTextOf(inputs[j]) :: inputs[i].account == inputs[j].account
  }

  /** Main result: for imports of distinct coins and exports from one account, the debiting operations of the parsed
      transaction are the inputs, and the account on record for each is its own. */
  lemma RoundTripSigners(kind: Kind, tx: AtomicTx, inputs: seq<AtomicOperation>, outputs: seq<AtomicOperation>, s: Settings, parser: Parser)
    requires IsBuilt(tx, kind, inputs, outputs, s) && ReadsHex(s)
    requires kind == Export ==> s.destination in parser.chains
    requires forall op <- inputs :: FitsInput(kind, parser, op) && op.amount.value.value < 0
    requires forall op <- outputs :: FitsOutput(kind, s, parser, op)
    requires RecordAgrees(inputs)
    ensures Parsed(parser, tx).Ok? && |inputs| <= |Parsed(parser, tx).value|
    ensures var ops := Parsed(parser, tx).value;
      && HaveAmounts(ops) && Debiting(ops) == ops[..|inputs|]
      && forall i :: 0 <= i < |inputs| ==> Recorded(SignersOf(inputs), ops[i]) == ops[i].account
  {
    hide IsBuilt, Parsed, Map, Unplaced, ReadsHex, RecordAgrees, Debiting, Recorded, Plain;
    FittingIsParseable(kind, inputs, s, parser);
    OutputsMatched(kind, outputs, s, parser);
    RoundTripIff(kind, tx, inputs, outputs, s, parser);
    hide FitsInput, FitsOutput, HaveAmounts;
    PartsSigned(Parsed(parser, tx).value, inputs, outputs);
  }

  lemma PartsSigned(ops: seq<AtomicOperation>, inputs: seq<AtomicOperation>, outputs: seq<AtomicOperation>)
    requires |inputs| <= |ops|
    requires multiset(Map(ops[..|inputs|], UNPLACED)) == multiset(Map(inputs, UNPLACED))
    requires multiset(Map(ops[|inputs|..], UNPLACED)) == multiset(Map(outputs, UNPLACED))
    requires forall op <- inputs :: op.amount.Some? && op.amount.value.value < 0
    requires forall op <- outputs :: op.amount.Some? && op.amount.value.value >= 0
    requires RecordAgrees(inputs)
    ensures HaveAmounts(ops) && Debiting(ops) == ops[..|inputs|]
    ensures forall i :: 0 <= i < |inputs| ==> Recorded(SignersOf(inputs), ops[i]) == ops[i].account
  {
    hide Map, RecordAgrees, Debiting, Recorded, Debits;
    DebitsReturned(ops[..|inputs|], inputs);
    CreditsReturned(ops[|inputs|..], outputs);
    JoinParts(ops, |inputs|, SignersOf(inputs));
  }

  lemma JoinParts(ops: seq<AtomicOperation>, n: nat, signers: seq<Signer>)
    requires n <= |ops|
    requires forall i :: 0 <= i < n ==>
      ops[..n][i].amount.Some? && Debits(ops[..n][i]) && Recorded(signers, ops[..n][i]) == ops[..n][i].account
    requires forall i :: 0 <= i < |ops| - n ==> ops[n..][i].amount.Some? && !Debits(ops[n..][i])
    ensures HaveAmounts(ops) && Debiting(ops) == ops[..n]
    ensures forall i :: 0 <= i < n ==> Recorded(signers, ops[i]) == ops[i].account
  {
    hide Debiting, Recorded;
    DebitsFirst(ops[..n], ops[n..]);
    assert ops[..n] + ops[n..] == ops;
    assert forall i :: 0 <= i < n ==> ops[..n][i] == ops[i];
  }
  // ----- what was asked for, told by the operations' own fields -----

  /** The operations that take just this from an account: their amount of the native asset, with the nonce of the request. */
  function Taking(input: EvmInput, s: Settings): AtomicOperation -> bool {
    (op: AtomicOperation) =>
      op.account.Some? && op.amount.Some?
      && input == EvmInput(s.hexAddress(op.account.value), LowUint64(op.amount.value.value), s.avaxAsset, s.nonce)
  }

  /** Those that give just this to an account. */
  function Giving(out: EvmOutput, s: Settings): AtomicOperation -> bool {
    (op: AtomicOperation) =>
      op.account.Some? && op.amount.Some?
      && out == EvmOutput(s.hexAddress(op.account.value), LowUint64(op.amount.value.value), s.avaxAsset)
  }

  /** Those that spend just this coin, signed by its first owner. */
  function Spending(input: ImportedInput, s: Settings): AtomicOperation -> bool {
    (op: AtomicOperation) =>
      op.coinChange.Some? && op.amount.Some?
      && input == ImportedInput(op.coinChange.value.coin, s.avaxAsset, LowUint64(op.amount.value.value), [0])
  }

  /** Those that pay just this to one address, at once and with one signature. */
  function Paying(out: ExportedOutput, s: Settings): AtomicOperation -> bool {
    (op: AtomicOperation) =>
      op.account.Some? && op.account.value.Bech32? && op.amount.Some?
      && out == ExportedOutput(s.avaxAsset, LowUint64(op.amount.value.value), 0, 1, [op.account.value.id])
  }

  ghost predicate ExportIsAsked(ins: seq<EvmInput>, outs: seq<ExportedOutput>, inputs: seq<AtomicOperation>,
                                outputs: seq<AtomicOperation>, s: Settings) {
    && (forall input :: multiset(ins)[input] == CountWhere(inputs, Taking(input, s)))
    && (forall out :: multiset(outs)[out] == CountWhere(outputs, Paying(out, s)))
  }

  ghost predicate ImportIsAsked(ins: seq<ImportedInput>, outs: seq<EvmOutput>, inputs: seq<AtomicOperation>,
                                outputs: seq<AtomicOperation>, s: Settings) {
    && (forall input :: multiset(ins)[input] == CountWhere(inputs, Spending(input, s)))
    && (forall out :: multiset(outs)[out] == CountWhere(outputs, Giving(out, s)))
  }

  /** Main result: a built transaction has each of its parts as often as there are operations that ask for it. */
  lemma BuiltIsAsked(tx: AtomicTx, kind: Kind, inputs: seq<AtomicOperation>, outputs: seq<AtomicOperation>, s: Settings)
    requires IsBuilt(tx, kind, inputs, outputs, s)
    requires (forall op <- inputs :: Matched(op)) && forall op <- outputs :: Matched(op)
    requires kind == Export ==> forall op <- outputs :: ToBech32(op)
    requires kind == Import ==> forall op <- inputs :: op.coinChange.Some?
    ensures kind == Export ==>
      && tx.ExportTx? && tx.destinationChain == s.destination && tx.exportedOutputs.Some?
      && ExportIsAsked(tx.ins, tx.exportedOutputs.value, inputs, outputs, s)
    ensures kind == Import ==>
      && tx.ImportTx? && tx.sourceChain == s.source
      && ImportIsAsked(tx.importedInputs, tx.outs, inputs, outputs, s)
  {
    hide Map, CountWhere;
    match kind {
      case Export =>
        forall input ensures multiset(tx.ins)[input] == CountWhere(inputs, Taking(input, s)) {
          ImageCount(inputs, EvmInputOf(s), input, Taking(input, s));
        }
        forall out ensures multiset(tx.exportedOutputs.value)[out] == CountWhere(outputs, Paying(out, s)) {
          ImageCount(outputs, ExportedOutputOf(s), out, Paying(out, s));
        }
      case Import =>
        forall input ensures multiset(tx.importedInputs)[input] == CountWhere(inputs, Spending(input, s)) {
          ImageCount(inputs, ImportedInputOf(s), input, Spending(input, s));
        }
        forall out ensures multiset(tx.outs)[out] == CountWhere(outputs, Giving(out, s)) {
          ImageCount(outputs, EvmOutputOf(s), out, Giving(out, s));
        }
    }
  }
}
