# Verified model of the Flare Rosetta adapter

A Rosetta adapter turns chain data into ledger operations, and operations back into transactions. This project models
the parts of the adapter where that has to be exact, and proves in Dafny what the operations have to keep: that they
conserve value, are numbered without gaps, agree with an independent view of the chain, and survive being built into a
transaction and read back. Where the code does not keep a property, the model keeps the code, gives an input on which the
property fails, and proves the exact condition under which it holds.

Run `dafny verify dfyconfig.toml` in this directory.

## Layout

| file | what it models |
|---|---|
| `rosetta.dfy`, `sequences.dfy`, `bytes.dfy` | ledger objects and Go integers, sorting and rearrangements, big-endian byte strings |
| `call_tree.dfy` | `Call.init`: reverts and errors handed down a mutable call tree, flattened in preorder |
| `evm.dfy`, `trace_ops.dfy`, `trace_ledger.dfy`, `trace_reports.dfy`, `evm_transaction.dfy`, `transaction_ledger.dfy` | `traceOps`, `Transaction`, `erc20Ops`, `erc721Ops`; from the call tree to the ledger, and what each operation says |
| `atomic.dfy`, `cross_chain.dfy` | `crossChainTransaction`, `createExportedOuts` |
| `call_data.dfy` | ERC-20 and unwrap call data |
| `pchain.dfy`, `emission.dfy`, `pchain_tx_ops.dfy`, `pchain_dependency.dfy`, `pchain_parser.dfy`, `pchain_parser_properties.dfy`, `pchain_block_parse.dfy`, `pchain_helper.dfy` | P-chain parsing: buckets, dependency index, parser, and what each operation of a block says |
| `pchain_builder.dfy`, `pchain_round_trip.dfy`, `payload_round_trip.dfy` | P-chain building, and building followed by parsing |
| `block_fetch.dfy`, `block_dependencies.dfy`, `block_parsing.dfy` | the concurrent fetch of a block's dependencies, and what it gives the parser |
| `utxo_paging.dfy`, `pchain_account.dfy`, `pchain_balance_service.dfy`, `pchain_coins_service.dfy`, `pchain_figures.dfy`, `coins.dfy`, `coin_paging.dfy`, `rewards.dfy` | paged fetch, filtering, balances, coin listings, pending rewards |
| `cchain_atomic.dfy` | building and parsing C-chain atomic transactions |
| `credentials.dfy`, `cchain_combine.dfy`, `signers.dfy` | credentials from signatures, and who signs what |

## How the model reads the code

- A loop is a method with invariants, proved equal to a recursive function of its input; the properties are lemmas about
  that function. Objects with mutable fields (`CallNode`, `TxOps`, `TxParser`, `SingleTxDependency`) are classes.
- Goroutines and the buffered channel are a state machine whose runs are all interleavings.
- `big.Int` is `int`. Go's `int64`, `uint32` and `uint64` conversions are functions with the wrap-around written out, and
  unchecked `uint64` sums are taken modulo 2^64. `big.Int.Uint64` of a negative number is the low part of its magnitude.
- A UTXO id is a pair of transaction id and index; addresses are numbers with their chain and prefix. Their text forms
  are injective, so the values stand for the texts. The order of coin ids as texts is a parameter.
- Ranging over a Go map is picking the keys in any order. Library sorts are known only to give a sorted rearrangement;
  the byte order of outputs is a parameter.
- The node, the codec, contract lookups, the clock and the settings are parameters; a failed call is an absent answer.
- The operation matcher of the Rosetta SDK is not part of this model. Its result is: the inputs with negative amounts and
  the outputs with positive amounts, each with an account and an amount, each list in the order given.

## Where the code and its intent part

Each item names the theorem with the exact condition and a lemma with an input on which the property fails.

- A reverted SELFDESTRUCT is tracked as a destroyed account. The map of destroyed accounts agrees with a replay exactly
  when every SELFDESTRUCT empties its account (`TraceOps.MapAgreesIff`, `TraceLedger.RevertedSelfDestructMisleads`), and if
  such an account sends value later the process exits (`TraceOps.FatalIff`, `TraceLedger.RevertedSelfDestructIsFatal`).
- Call data is read from the second byte of each word, so amounts of 2^248 and more lose their top byte
  (`CallData.Erc20IdentityIff`, `LargeTransferParsesAsZero`); and an unwrap whose chain id is a multiple of 2^64 passes the
  check that means to accept zero alone (`UnwrapRoundTrip`, `NonZeroChainIdAccepted`).
- The stake outputs of a P-chain transaction and the exported outputs are numbered after the base outputs that gave
  operations, so they name the right coins exactly when every base output has a single address
  (`PChainParserProperties.StakeCoinsMatchUtxosIff`, `ExportCoinsShiftedIff`, `SharedChangeShiftsStake`).
- P-chain outputs pass through `int64`: an output of 2^63 or more is reported as negative
  (`PChainRoundTrip.RoundTripIff`, `LargeOutputComesBackNegative`).
- The fee of a C-chain import adds inputs of every asset through `int64` (`CrossChain.ImportConserves` with
  `LargeImportHasNegativeFee`, `ImportFeeIsBurnIff` with `OtherAssetCountsAsFee`); the fee of an export takes off the
  exported value once for each input (`ExportFeeIff`, `TwoInputsHaveNegativeFee`), or not at all when the destination is
  unknown (`UnreportedExportFeeIff`, `UnknownDestinationCountsAsFee`).
- The comment on the P-chain balance calls it a copy of the node's; the staked part is added without an overflow check
  (`PChainAccount.FetchBalance`, `FullStakeReportsNothing`).
- A P-chain balance is given in the native currency whatever was asked for: stake is not restricted to the currencies
  asked for, and with none named all assets are added up (`PChainFigures.AskedFigureIff`, `FigureIsOfAssetsIff`,
  `OtherAssetsAreTold`).
- The P-chain coin listing checks the wrong error variable after its currency lookup: with an unknown currency it lists
  the coins of all assets (`PChainCoinsService.RestrictedIff`, `UnknownCurrencyListsAll`).
- C-chain balances count repeated coins of overlapping pages twice, while the coin listing removes them
  (`Coins.AtomicBalanceIff`, `CoinPaging.OverlapCountsTwice`).
- Each of several owners of a reward is told the whole of it (`Rewards.RewardsConservedIff`, `TwoOwnersAreToldTwice`).
- A P-chain import is signed for its imported inputs only: one with base inputs as well cannot be combined with a
  signature for every payload (`Credentials.OneSignaturePerPayloadIff`, `BaseInputIsNotSigned`).
- A C-chain export is combined with one credential (`CChainCombine.CombineCoversInputsIff`, `TwoDebitsOneCredential`), and
  the signers reported for it are all the last account (`Signers.RecordRightIff`, `ExportOfTwoAccountsMisleads`).

## Model

| member | source | states |
|---|---|---|
| `CallTree.CallNode.Init` | server/client/types.go:77-109 | on a mutable tree, leaves every node with its inherited state and returns the preorder list of the flattened nodes, whatever the shape |
| `CallTree.CallNode.VisitCalls` | server/client/types.go:90-106 | the children are visited in order and nodes outside the tree keep their state |
| `CallTree.PathsAreTheNodes` | server/client/types.go:90-108 | the list of positions in the result is exactly the nodes of the tree, each once, in preorder |
| `CallTree.FlattenedTraceByPath` | server/client/types.go:77-109 | entry k is the k-th node; it is reverted exactly when it or an ancestor was reverted or had an error, and its error is the nearest nonempty one on the way up; all else is its own |
| `CallTree.StateByPath` | server/client/types.go:77-106 | the same for a subtree visited with any inherited state |
| `CallTree.NormaliseIdempotent` | server/client/types.go:77-109 | running it again changes nothing, so it returns the same list |
| `TraceOps.ConvertCall` | server/mapper/transaction.go:404-524 | one turn of the loop appends and tracks as the specification step does, and the last-operation access is in range |
| `TraceOps.ZeroOut` | server/mapper/transaction.go:526-551 | for the enumeration order met, appends one DESTRUCT for each tracked account with a positive holding; exits exactly when some holding is negative |
| `TraceOps.Convert` | server/mapper/transaction.go:397-554 | the whole conversion equals the run of the specification followed by the DESTRUCT operations, and it exits exactly when some destroyed account ends below zero |
| `TraceOps.RunNumbered` | server/mapper/transaction.go:432-523 | indices count up from the start; an operation relates to nothing, or to just the one before it, which sends what it receives |
| `TraceOps.TraceConserves` | server/mapper/transaction.go:432-551 | the successful amounts add up to what the inflation contract sent, less what self-destructs to self burned, less the DESTRUCT amounts |
| `TraceOps.OpsMatchReplay` | server/mapper/transaction.go:432-523 | for every account and any trace, the operations change the ledger as a replay of the successful value moves does |
| `TraceOps.MapAgreesIff` | server/mapper/transaction.go:455-520 | the destroyed-accounts map equals the replayed balances at every step if and only if every SELFDESTRUCT leaves its account with nothing |
| `TraceOps.SoundTraceNeverFatal` | server/mapper/transaction.go:533-535 | on traces that never overdraw and whose self-destructs empty the account, every tracked holding is the replayed, non-negative balance, so the fatal exit is out of reach |
| `TraceOps.TrackedIff` | server/mapper/transaction.go:464-489 | an account is tracked at the end exactly when it self-destructed and was not created again after |
| `TraceOps.HoldsSinceDestroyed` | server/mapper/transaction.go:452-520 | on any trace, sound or not, a tracked account holds what it received less what it sent since it was last destroyed |
| `TraceOps.FatalIff` | server/mapper/transaction.go:528-535 | on any trace, the fatal exit is reached if and only if some account, after it was destroyed for good, sent more than it received |
| `TraceOps.DestroyedAccountsEndAtZero` | server/mapper/transaction.go:397-554 | after the DESTRUCT operations every tracked account is at exactly zero and every other at its replayed balance, for any enumeration order |
| `TraceOps.DestructsTold` | server/mapper/transaction.go:528-551 | each tracked account that holds something has one DESTRUCT operation, numbered on, of minus what it holds; no other has |
| `TraceReports.TraceToldByPath` | server/mapper/transaction.go:404-524 | for any call tree, the node at each path gives no operation, one or two, told by its own kind, value and accounts: failed with the nearest error exactly when it or an ancestor failed, its sender first, its amounts even when it failed |
| `TraceLedger.ReplayIsTreeMoves` | server/client/types.go:77-109 | replaying a flattened tree adds up the moves of the calls that took effect; below a failed call nothing moves |
| `TraceLedger.TraceLedgerIsTreeMoves` | server/mapper/transaction.go:397-523 | for any call tree the operations change every balance by exactly the moves of the nodes that neither failed nor have a failed ancestor |
| `TraceLedger.RevertedSelfDestructMisleads` | server/mapper/transaction.go:464-476 | a call tree with a reverted self-destruct, on which the map and the replay differ |
| `TraceLedger.RevertedSelfDestructIsFatal` | server/mapper/transaction.go:464-535 | a call tree, a self-destruct in a part that is reverted and a later transfer, on which nobody ever overdraws and the fatal exit is reached |
| `EvmTransaction.ReadLog` | server/mapper/transaction.go:99-137 | one receipt log gives the operations of the specification or reports the failed lookup |
| `EvmTransaction.ReadLogs` | server/mapper/transaction.go:99-137 | the loop over the logs gives their operations in order, and stops at the first failed lookup |
| `EvmTransaction.Transaction` | server/mapper/transaction.go:46-152 | fees, trace, DESTRUCT and token operations in this order; fails exactly on a failed lookup, exits exactly on an overdrawn destroyed account |
| `EvmTransaction.WholeTransactionNumbered` | server/mapper/transaction.go:69-137 | over all of these each index is the position and each related index is smaller |
| `EvmTransaction.TokenLedgerMatches` | server/mapper/transaction.go:556-610 | for every account but the zero address the token operations are a replay of the reported Transfer events, mints and burns included |
| `EvmTransaction.WholeTransactionConserves` | server/mapper/transaction.go:46-152 | native currency over the whole transaction is conserved up to mints, burns and DESTRUCT amounts |
| `EvmTransaction.FeesCancel` | server/mapper/transaction.go:62-93 | the two fee operations cancel, with or without the reduced fee |
| `TransactionLedger.WholeTransactionLedger` | server/mapper/transaction.go:46-152 | over the whole transaction each account gains the moves of the call tree less what it is destroyed with; the sender pays the fee, the fixed one for small successful calls of the FTSO contract, and the burn address gets it |
| `TransactionLedger.LogsTold` | server/mapper/transaction.go:99-137 | the logs are reported if and only if no lookup for a Transfer event fails; then each has its own operations, telling mint, burn or transfer, the parties, the amount and the token |
| `CrossChain.CreateExportedOuts` | server/mapper/transaction.go:292-338 | one operation for each output, naming its coin and first address, and their exact sum |
| `CrossChain.ImportTransaction` | server/mapper/transaction.go:176-225 | an operation for each native output, numbered on, and the fee with inputs added as int64 |
| `CrossChain.ExportTransaction` | server/mapper/transaction.go:226-283 | an operation for each native input and, after each, the exported outputs again; they are numbered after the loop |
| `CrossChain.CrossChainTransaction` | server/mapper/transaction.go:154-290 | all three cases, the unsupported type and the unrecognised network |
| `CrossChain.ConsecutiveIndices` | server/mapper/transaction.go:276-283 | operations followed by exported outputs carry consecutive indices from the start given |
| `CrossChain.NativePartsTold` | server/mapper/transaction.go:191-261 | an import credits the address of each native output, an export debits that of each native input, in order, with 10^9 wei a unit |
| `CrossChain.ImportConserves` | server/mapper/transaction.go:181-287 | the credited amounts are 10^9 times the inputs less the fee if and only if every input is below 2^63; otherwise it misses by 2^64 for each larger one |
| `CrossChain.LargeImportHasNegativeFee` | server/mapper/transaction.go:181-225 | an import of 2^63 that burns 1 is given a fee of 1 - 2^64 |
| `CrossChain.ImportFeeIsBurnIff` | server/mapper/transaction.go:181-287 | the fee is the native value burned if and only if the other assets that come in make up for what the int64 conversions lose; below 2^63, if and only if no other asset of value comes in |
| `CrossChain.OtherAssetCountsAsFee` | server/mapper/transaction.go:181-225 | an import that burns 1 and moves 5 of another asset is given a fee of 6 |
| `CrossChain.ExportFeeIff` | server/mapper/transaction.go:226-287 | debits are 10^9 times the native inputs; the fee is their sum less the exported sum once per input, and is the value burned if and only if that comes to the native part exported; with native outputs, if and only if there is one input or nothing of value goes out |
| `CrossChain.TwoInputsHaveNegativeFee` | server/mapper/transaction.go:226-287 | an export of 10 paid by 6 from each of two accounts burns 2 and is given a fee of -8 |
| `CrossChain.UnreportedExportFeeIff` | server/mapper/transaction.go:226-287 | with an unknown destination the whole native input is the fee, which is the value burned if and only if no native output has any value |
| `CrossChain.UnknownDestinationCountsAsFee` | server/mapper/transaction.go:226-287 | the same export to a chain without an alias is given a fee of 12 |
| `CrossChain.ReportedOncePerInput` | server/mapper/transaction.go:261-283 | each exported output appears once for every native input, each time with the same coin, amount and first address |
| `CallData.Erc20RoundTrip` | server/service/service_construction.go:1519-1557 | parsing generated transfer data succeeds if and only if the value is below 2^256, and gives the address and the value modulo 2^248 |
| `CallData.Erc20IdentityIff` | server/service/service_construction.go:1546-1557 | the round trip is the identity exactly below 2^248 |
| `CallData.LargeTransferParsesAsZero` | server/service/service_construction.go:1554-1556 | a transfer of 2^248 parses as zero |
| `CallData.Erc20CanonicalIff` | server/service/service_construction.go:1519-1557 | accepted data is what the generator makes of its parse exactly when the skipped bytes are zero |
| `CallData.UnwrapRoundTrip` | server/service/service_construction.go:1533-1575 | when unwrap data parses and to what, for every value and chain id |
| `CallData.NonZeroChainIdAccepted` | server/service/service_construction.go:1567-1572 | chain id 2^64 is accepted |
| `PChainTxOps.TxOps.Append` | server/mapper/pchain/tx_ops.go:37-62 | an operation goes into the bucket of its type; imported and exported ones of a block lose their index |
| `PChainParserProperties.IntoAppends` | server/mapper/pchain/tx_ops.go:19-62 | an operation filed in turn comes last among the included ones, under the number it was given; one kept apart leaves them as they are |
| `PChainTxOps.IntoTwice` | server/mapper/pchain/tx_ops.go:28-62 | appending one more numbered operation is appending the longer list: indices fixed one by one fit together |
| `PChainDependency.SingleTxDependency.GetUtxos` | server/mapper/pchain/tx_dependency.go:131-212 | the map has exactly what the dependency shows: under each id the output of that number, or else the last reward with it; computed once and the same when cached |
| `PChainDependency.ShownIff` | server/mapper/pchain/tx_dependency.go:131-212 | the same, told by the outputs and the rewards themselves |
| `PChainDependency.OutsAreNumbered` | server/mapper/pchain/tx_dependency.go:142-208 | output i of a transaction, stake outputs after base outputs, is found under index i, rewards notwithstanding |
| `PChainDependency.GetReferencedAccounts` | server/mapper/pchain/tx_dependency.go:87-113 | the accounts are exactly those of the UTXOs with one address, in any map order; fails exactly on an output without addresses to ask for |
| `PChainDependency.AccountsOf` | server/mapper/pchain/tx_dependency.go:92-110 | the same for one dependency, keeping what was there |
| `PChainParser.TxParser.CheckMultisig` | server/mapper/pchain/tx_parser.go:768-794 | whether a spent UTXO is left out, and when this cannot be told |
| `PChainParser.TxParser.ReadInput` | server/mapper/pchain/tx_parser.go:491-567 | one input emits, is skipped or fails as specified |
| `PChainParser.TxParser.InsToOperations` | server/mapper/pchain/tx_parser.go:483-570 | the inputs' operations are numbered and filed in order, up to the first error |
| `PChainParser.TxParser.OutsToOperations` | server/mapper/pchain/tx_parser.go:589-646 | the same for outputs, with coin ids counted from the outputs already there |
| `PChainParser.TxParser.UtxosToOperations` | server/mapper/pchain/tx_parser.go:648-703 | the same for reward UTXOs, with the coins they name |
| `PChainParser.TxParser.Parse` | server/mapper/pchain/tx_parser.go:117-222 | the parse of every transaction type in both modes, with errors |
| `PChainParserProperties.IndexIsPosition` | server/mapper/pchain/tx_parser.go:199-233 | for every type and both modes, operation i carries index i; imported inputs and then exported outputs continue without a gap |
| `PChainParserProperties.BaseCoinsMatchUtxos` | server/mapper/pchain/tx_parser.go:597-633 | in a block every base-output operation names the id the dependency index gives that output, and every single-address base output has its operation |
| `PChainParserProperties.StakeCoinsShifted` | server/mapper/pchain/tx_parser.go:597-633 | a stake operation's coin id is short by the number of base outputs left out |
| `PChainParserProperties.StakeCoinsMatchUtxosIff` | server/mapper/pchain/tx_parser.go:597-633 | it is the id of the dependency index if and only if every base output has one address |
| `PChainParserProperties.SharedChangeShiftsStake` | server/mapper/pchain/tx_parser.go:597-633 | a delegation of shared funds with a shared change output, whose parse leaves out both and gives a stake operation that names the change |
| `PChainParserProperties.ExportCoinsShiftedIff` | server/mapper/pchain/tx_parser.go:245-251 | exported outputs of a block are numbered short in the same way, and name the coin that follows all base outputs if and only if every base output has one address |
| `PChainParserProperties.InputResolves` | server/mapper/pchain/tx_parser.go:519-539 | accounts and multisig check draw the same line: no input fails for a missing account, and the check fails exactly on an input of known shape whose origin does not show it; exactly when an input emits |
| `PChainParserProperties.InputsResolve` | server/mapper/pchain/tx_parser.go:483-570 | all inputs of a block transaction are read exactly when none is of an unknown shape, origin or asset, with one operation for each input spending a single-address UTXO |
| `PChainParserProperties.ParseAccountErrors` | server/mapper/pchain/tx_parser.go:117-222 | parsing a transaction of a block, of any type, never fails for a missing account; it fails in the multisig check if and only if the first base input that stops it has an origin that does not show it |
| `PChainParserProperties.InputBookedOnOwner` | server/mapper/pchain/tx_parser.go:491-567 | an input operation is booked on the one address of the output or reward it spends, with its coin, amount, asset, locktime and signers |
| `PChainBlockParse.BlockTxParsesIff` | server/mapper/pchain/tx_parser.go:117-222 | a transaction of a block, of any type, is parsed if and only if its inputs, outputs and destination read well; a reward, if and only if its staking transaction is known, is one, and left rewards of known shape and asset |
| `PChainBlockParse.InputShown` | server/mapper/pchain/tx_parser.go:483-570 | in the whole parse an input spending a single-address output or reward has its operation in its place, booked on that address |
| `PChainBlockParse.BaseOutputShown` | server/mapper/pchain/tx_parser.go:589-646 | a single-address base output has its operation after the inputs', saying its coin, address, amount, asset, locktime and threshold |
| `PChainBlockParse.StakeOutputShown` | server/mapper/pchain/tx_parser.go:275-339 | the same for a stake output, last and with the coin that is short |
| `PChainBlockParse.ImportedShown` | server/mapper/pchain/tx_parser.go:254-273 | every imported input is told in the metadata, on no account |
| `PChainBlockParse.ExportedShown` | server/mapper/pchain/tx_parser.go:245-251 | a single-address exported output is told in the metadata, on the chain it goes to |
| `PChainBlockParse.RewardShown` | server/mapper/pchain/tx_parser.go:341-417 | a reward is reported with one operation for each UTXO left to a single address, in order, naming that UTXO's own id, its address, amount and asset |
| `PChainHelper.ParseRosettaTxs` | server/mapper/pchain/helper.go:8-33 | the transactions of a block are parsed in order against the accounts of their dependencies, or against none for the genesis block; the error is that of the first failure |
| `PChainHelper.GenesisErrors` | server/service/backend/pchain/block.go:123-130 | a transaction parsed without dependencies never fails in the multisig check, and fails for a missing account if and only if it has a base input and the first is of a known shape |
| `Emission.EmittedInOrder` | server/mapper/pchain/tx_parser.go:491-568 | a loop that skips and stops keeps order: the k-th operation comes from the k-th emitting item |
| `BlockDependencies.GetTxDependenciesIds` | server/mapper/pchain/tx_dependency.go:22-84 | the ids spent from, each once, strictly increasing; the staking transaction for a reward; none only for unknown types |
| `BlockDependencies.CollectIds` | server/service/backend/pchain/block.go:161-171 | the ids of a block are those some transaction depends on |
| `BlockDependencies.FetchedFromLedger` | server/service/backend/pchain/block.go:161-191 | under every schedule, a good fetch files exactly the transactions the block depends on, each under its own id |
| `BlockParsing.FetchedResolvesIff` | server/mapper/pchain/tx_parser.go:768-794 | among what was fetched, the UTXO of an input is found if and only if its origin is known on the ledger |
| `BlockParsing.FetchedBlockParses` | server/mapper/pchain/helper.go:21-30 | parsed against what was fetched for it under any schedule, a block never fails for a missing account, and in the multisig check if and only if its first failing transaction is first stopped by a base input without a known origin |
| `BlockParsing.FetchedRewardParsesIff` | server/mapper/pchain/tx_dependency.go:44-46 | a reward of a fetched block is parsed if and only if the ledger's transaction it names is a staking one with readable rewards: the fetch always brought it |
| `BlockParsing.ParseFetchedBlock` | server/service/backend/pchain/block.go:132-144 | the same for the objects themselves, from the fetched dependencies through the helper to the operations |
| `BlockFetch.NoSendBlocksOrPanics` | server/service/backend/pchain/block.go:173-186 | under every schedule a worker about to send finds the channel open and with room |
| `BlockFetch.StuckIsFinal` | server/service/backend/pchain/block.go:176-190 | no deadlock: only the two final states are stuck |
| `BlockFetch.RunsAreBounded` | server/service/backend/pchain/block.go:176-190 | no run has more than three steps per worker and two more |
| `BlockFetch.OutcomeIsSequential` | server/service/backend/pchain/block.go:161-239 | when answers with one id agree, a run that stops has the outcome of a sequential fetch: its map when all answers are good, the error otherwise, even with repeated ids |
| `BlockFetch.ScheduleIndependentIff` | server/service/backend/pchain/block.go:161-239 | with all requests answered, every schedule gives the sequential map if and only if requests answered with one transaction id are answered alike |
| `PChainBuilder.BuildInputs` | server/mapper/pchain/tx_builder.go:447-498 | sorted rearrangements of the inputs of each type, signers in the given order, and the error of the first faulty operation |
| `PChainBuilder.BuildOutputs` | server/mapper/pchain/tx_builder.go:520-577 | the same for base, stake and exported outputs |
| `PChainBuilder.SumOutputAmounts` | server/mapper/pchain/tx_builder.go:579-589 | the exact sum, or overflow exactly when it does not fit 64 bits |
| `PChainBuilder.BuildOutputOwner` | server/mapper/pchain/tx_builder.go:425-445 | a sorted rearrangement of the decoded owners, or an error exactly when one does not decode |
| `PChainBuilder.BuildTx` | server/mapper/pchain/tx_builder.go:31-56 | what each type is built from, and precisely when building fails, stake over 64 bits and staking metadata included |
| `PChainBuilder.BuiltIsAsked` | server/mapper/pchain/tx_builder.go:447-577 | a built transaction has each input and output as often as operations of its type ask for it, with the default signer and threshold, and weighs what the stake operations ask |
| `PChainRoundTrip.BuildThenParse` | server/mapper/pchain/tx_parser.go:483-646 | parsing what was built succeeds, lists operations in the order of the sorted lists, and gives each kept operation back once |
| `PChainRoundTrip.InputsComeInUtxoOrder` | server/mapper/pchain/tx_builder.go:494-497 | the parsed inputs name the built coins, in UTXO order |
| `PChainRoundTrip.NothingLostIff` | server/mapper/pchain/tx_builder.go:479-574 | as many operations come back as went in exactly when each has a place in the transaction type |
| `PChainRoundTrip.InputComesBackIff` | server/mapper/pchain/tx_builder.go:447-518 | an input comes back as it was, up to defaults, if and only if it fits |
| `PChainRoundTrip.OutputComesBackIff` | server/mapper/pchain/tx_parser.go:705-766 | the same for an output; amounts must be below 2^63 |
| `PChainRoundTrip.LargeOutputComesBackNegative` | server/mapper/pchain/tx_parser.go:597-633 | the parse of a built transaction gives an output of 2^63 or more back on its owner's account, as a debit of 2^64 less its amount |
| `PChainRoundTrip.RoundTripIff` | server/mapper/pchain/tx_builder.go:447-589 | all operations of a built transaction come back, each once and the same up to default metadata, if and only if every one has a place in the type and fits it |
| `PayloadRoundTrip.PayloadAccountsKnown` | server/service/backend/common/construction.go:130-147 | with distinct coins the accounts recorded for the debits of a request are those the parser needs |
| `PayloadRoundTrip.PayloadsThenParse` | server/service/backend/common/construction.go:121-215 | from the request to its parse with nothing but the recorded accounts: it comes back whole if and only if its operations fit, and the account on record for each debit is then its own |
| `UtxoPaging.FetchAll` | server/service/backend/pchain/account.go:513-545 | against a node whose cursor advances, the loop ends and has fetched exactly what the node holds, however pages overlap |
| `UtxoPaging.LoopEndsIff` | server/service/backend/pchain/account.go:513-545 | against a node that answers each cursor always alike, with finitely many cursors to give out, the loop ends if and only if it is never sent back to a cursor it has asked for |
| `UtxoPaging.LoopIsFetchAll` | server/service/backend/pchain/account.go:513-545 | against an honest node this loop ends with what the fetch gives, or breaks off with it |
| `PChainAccount.ParseAndFilter` | server/service/backend/pchain/account.go:475-511 | decode, asset filter, duplicates, addresses, multisig, in this order, with the errors |
| `PChainAccount.FilterListsHeldOnce` | server/service/backend/pchain/account.go:475-511 | it succeeds exactly on readable data, and then lists every wanted UTXO that is not shared, once |
| `PChainAccount.GetBalances` | server/service/backend/pchain/account.go:293-363 | succeeds if and only if the true sum is below 2^64, and then the three figures are the sums that the locktimes say |
| `PChainAccount.FiguresByLocktime` | server/service/backend/pchain/account.go:304-348 | an amount counts as unlocked when all its locktimes have come, as stakeable when just that of the lock is to come, as not stakeable when its own is to come |
| `PChainAccount.ClassSumPermutation` | server/service/backend/pchain/account.go:304-348 | the sums do not depend on the order of the UTXOs |
| `PChainAccount.PagedSumsAreIdeal` | server/service/backend/pchain/account.go:475-511 | whatever repetitions pages bring, the sums are those of the held UTXOs taken once |
| `PChainAccount.CalculateStaked` | server/service/backend/pchain/account.go:443-473 | the unshared stake modulo 2^64; fails exactly on unreadable outputs |
| `PChainAccount.FetchBalance` | server/service/backend/pchain/account.go:257-288 | the total is exact if and only if unstaked and staked value together are below 2^64; when it fails |
| `PChainAccount.FullStakeReportsNothing` | server/service/backend/pchain/account.go:277-285 | with 2^64 - 1 in a UTXO and 1 staked the total is 0 modulo 2^64 |
| `PChainBalanceService.Fetch` | server/service/backend/pchain/account.go:386-441 | succeeds exactly when all calls answer, the height did not move and the data filters |
| `PChainBalanceService.BuildCurrencyAssetIds` | server/service/backend/pchain/account.go:365-379 | the assets asked for, or an error exactly when one is unknown or of other decimals |
| `PChainBalanceService.AccountBalance` | server/service/backend/pchain/account.go:43-107 | for every sub-account the reported figure is the sum that locktimes and stake say, modulo 2^64, for any paging; and exactly when the request fails |
| `PChainFigures.FigureIsOfAssetsIff` | server/service/backend/pchain/account.go:70-105 | a figure is that of the native asset, or of any set of assets, if and only if nothing of value in the classes it counts is of another asset |
| `PChainFigures.AskedFigureIff` | server/service/backend/pchain/account.go:257-288 | with currencies named, the figure is that of their assets if and only if it counts no stake or none of value in another asset |
| `PChainFigures.OtherAssetsAreTold` | server/service/backend/pchain/account.go:97-104 | an account that has only 7 of another asset, staked or with none named, is told 7 |
| `PChainCoinsService.AccountCoins` | server/service/backend/pchain/account.go:110-171 | exactly the coins of the owned UTXOs of the assets used, in order; and exactly when the request fails |
| `PChainFigures.CoinsAndBalance` | server/service/backend/pchain/account.go:43-171 | the coins listed and the stake add up to the total of the balance plus the locks inside locks |
| `PChainCoinsService.RestrictedIff` | server/service/backend/pchain/account.go:119-122 | the listing is restricted to the assets asked for if and only if the node knows them all; otherwise it is not restricted, and there is no error |
| `PChainCoinsService.UnknownCurrencyListsAll` | server/service/backend/pchain/account.go:119-122 | asked for one currency the node does not know, the listing takes every UTXO, of whatever asset |
| `Coins.SortUnique` | server/service/backend/common/account.go:14-32 | one coin for each id, the last given, strictly increasing |
| `Coins.SortUniqueIsDetermined` | server/service/backend/common/account.go:14-32 | this determines the result, whatever order the map is ranged over |
| `Coins.LastWithIsLast` | server/service/backend/common/account.go:14-22 | the coin kept for an id is the last one given |
| `Coins.AtomicBalance` | server/service/backend/cchainatomictx/account.go:38-50 | the sum of all fetched coins, or an error exactly when it does not fit 64 bits |
| `Coins.AtomicBalanceIff` | server/service/backend/cchainatomictx/account.go:29-75 | the balance equals the sum of the listed coins if and only if no coin of value was repeated |
| `CoinPaging.OverlapCountsTwice` | server/service/backend/cchainatomictx/account.go:38-50 | an honest node that repeats the last of 1024 coins on a second page: all are fetched and listed once, and the balance counts that one twice |
| `Coins.CoinsOf` | server/service/backend/pchain/account.go:140-155 | a coin for each UTXO, or an error exactly when one has no amount |
| `PChainAccount.AmountThroughLocks` | server/service/backend/pchain/account.go:140-155 | a lock has the amount of what it holds, however deep |
| `Coins.ListedCoinsAddUp` | server/service/backend/pchain/account.go:110-171 | the listed coins add up to the total before stake, except for locks inside locks |
| `Rewards.PendingRewards` | server/service/backend/pchain/account.go:193-228 | the three figures and their total for an address |
| `Rewards.FeeWithinReward` | server/service/backend/pchain/account.go:206-210 | the fee is the share of the reward in parts of a million, rounded down, and within it for a share up to the whole |
| `Rewards.OneMoreValidator` | server/service/backend/pchain/account.go:199-204 | one more validator adds its reward to the validation figure of its owners and nothing else |
| `Rewards.OneMoreDelegator` | server/service/backend/pchain/account.go:205-222 | one more delegator adds the fee to the fees of the validator's owners and the rest to the delegation figure of its own |
| `Rewards.RewardsShared` | server/service/backend/pchain/account.go:193-228 | over all distinct owners the totals are all rewards plus each reward again for every further owner, exactly, rounding notwithstanding |
| `Rewards.RewardsConservedIff` | server/service/backend/pchain/account.go:193-228 | when every reward has an owner, the totals over all owners are the rewards if and only if every reward worth something has exactly one |
| `Rewards.TwoOwnersAreToldTwice` | server/service/backend/pchain/account.go:200-203 | two owners of a validator are each told the whole reward |
| `Credentials.BuildCredential` | server/service/backend/common/construction.go:302-317 | takes the next signatures and moves the offset, or fails exactly when they are too few or of the wrong length |
| `Credentials.BuildCredentialList` | server/service/backend/common/construction.go:267-289 | succeeds if and only if all inputs are plain transfers, their signature indices number the signatures, and each has 65 bytes; then the credentials partition the signatures in order |
| `Credentials.PartitionAt` | server/service/backend/common/construction.go:302-317 | signature j of input i is the one after all slots of earlier inputs |
| `Credentials.BuildSingletonCredentialList` | server/service/backend/common/construction.go:292-300 | one credential with the first signature; further signatures are not looked at |
| `Credentials.CombineTx` | server/service/backend/pchain/construction.go:247-278 | exactly when combining succeeds, and what the credentials are |
| `CChainCombine.GetTxCreds` | server/service/backend/cchainatomictx/construction.go:297-309 | an import's signatures are divided among its inputs, an export gets the first one |
| `CChainCombine.CombineCoversInputsIff` | server/service/backend/cchainatomictx/construction.go:268-309 | with a good signature for every payload a built transaction is combined; every input has its own credential if and only if it is an import or an export of one debit |
| `CChainCombine.TwoDebitsOneCredential` | server/service/backend/cchainatomictx/construction.go:304-305 | an export of two debits and a credit, built with two inputs and combined with one credential |
| `Credentials.OneSignaturePerPayloadIff` | server/service/backend/pchain/construction.go:304-351 | with a signature for every payload, combining succeeds if and only if all inputs are of the type the transaction is signed for |
| `Credentials.BaseInputIsNotSigned` | server/service/backend/pchain/construction.go:304-351 | an import built with one imported and one base input, which the two signatures of its payloads do not combine with |
| `Credentials.AlignedIff` | server/service/backend/common/construction.go:154-161 | input i, and so credential i, is for payload signer i if and only if the input operations come in UTXO order |
| `Credentials.SignaturesInPlaceIff` | server/service/backend/pchain/construction.go:247-351 | from the debits of a request to the credentials: combining succeeds with every signature on the input it was made for if and only if all debits are of the signed type and in UTXO order |
| `Signers.CollectSigners` | server/service/backend/common/construction.go:130-147 | one signer with coin and account for each debiting operation, in order |
| `Signers.InputAddresses` | server/service/backend/common/construction.go:217-225 | the last account given for each coin |
| `Signers.GetAccountIdentifiers` | server/service/backend/common/types.go:95-122 | one signer for each debiting operation, the account on record for its coin; fails exactly when one has none |
| `Signers.RecordRightIff` | server/service/backend/common/types.go:98-101 | the record gives every debit its own account if and only if debits of one coin, or of none, share an account |
| `Signers.ExportOfTwoAccountsMisleads` | server/service/backend/common/types.go:98-117 | an export of two accounts gives the second as signer for both |
| `Signers.SignersOfParsed` | server/service/backend/common/construction.go:192-215 | signers of a parsed transaction are the accounts of its debits when the record is right |
| `CChainAtomic.BuildIns` | server/mapper/cchainatomictx/tx_builder.go:85-106 | a sorted rearrangement of the debits, and the signers in the given order |
| `CChainAtomic.BuildImportedInputs` | server/mapper/cchainatomictx/tx_builder.go:108-137 | the same for spent coins; fails exactly when an operation names no coin |
| `CChainAtomic.BuildOuts` | server/mapper/cchainatomictx/tx_builder.go:139-153 | a sorted rearrangement of the credits |
| `CChainAtomic.BuildExportedOutputs` | server/mapper/cchainatomictx/tx_builder.go:155-181 | the same for exported outputs; fails exactly on an account that is no bech32 address |
| `CChainAtomic.BuildTx` | server/mapper/cchainatomictx/tx_builder.go:26-83 | what each type is built from, and when building fails |
| `CChainAtomic.BuiltIsAsked` | server/mapper/cchainatomictx/tx_builder.go:85-181 | a built transaction has each input and output as often as operations ask for it, with the nonce of the request, and exported outputs at once and with one signature |
| `CChainAtomic.Parse` | server/mapper/cchainatomictx/tx_parser.go:40-83 | the parse of both types with their errors |
| `CChainAtomic.ImportedInToOperations` | server/mapper/cchainatomictx/tx_parser.go:104-132 | operations of the spent coins; fails exactly on a coin without a known account |
| `CChainAtomic.ExportedOutputsToOperations` | server/mapper/cchainatomictx/tx_parser.go:155-189 | operations of the exported outputs, placed after the inputs and related to all of them |
| `CChainAtomic.PositionsAndRelations` | server/mapper/cchainatomictx/tx_parser.go:51-199 | indices are positions; inputs relate to nothing, each output to all inputs and nothing else |
| `CChainAtomic.InputsComeSorted` | server/mapper/cchainatomictx/tx_builder.go:103-134 | parsed inputs come by account for an export and by coin for an import |
| `CChainAtomic.BuildThenParse` | server/mapper/cchainatomictx/tx_parser.go:51-83 | parsing a built transaction gives the inputs, then the outputs, each once |
| `CChainAtomic.InputComesBackIff` | server/mapper/cchainatomictx/tx_parser.go:85-132 | an input comes back as it was if and only if it fits |
| `CChainAtomic.OutputComesBackIff` | server/mapper/cchainatomictx/tx_parser.go:134-189 | the same for an output; amounts up to 2^64 |
| `CChainAtomic.RoundTripIff` | server/mapper/cchainatomictx/tx_builder.go:38-181 | all operations of a built transaction come back as they were, inputs first, if and only if every one fits |
| `CChainAtomic.RoundTripSigners` | server/service/backend/common/types.go:95-122 | for imports of distinct coins and exports of one account, the debits of the parsed transaction are the inputs and each has its own account on record |
| `Rosetta.Int64` | server/mapper/transaction.go:183 | the conversion to int64: the number itself exactly below 2^63, always congruent to it modulo 2^64 |
| `Rosetta.LowUint64` | server/mapper/pchain/tx_builder.go:476 | big.Int's Uint64: the number itself exactly in range, its magnitude for a small negative |
| `Rosetta.CoinKeyOrder` | server/mapper/pchain/tx_builder.go:494-497 | coins are ordered by transaction id first and output index next |

## Left out

- `len(call.To.String()) == 0` in `traceOps`: a 20-byte address never has an empty text, so the branch cannot run.
- Shape fields of a call (type, addresses, input) are constants of a node; only the fields that `init` writes can change.
- The texts of addresses, coin ids and transaction ids: encoding, decoding and their errors. Ids arrive decoded.
- The numeric precision of operation metadata through JSON: values come back as they were given.
- Metadata attached to stake operations (validator, dates, subnet, reward owners) and its reading when staking transactions are built; whether it is present is kept.
- The decoding of owner addresses, node ids, subnet ids and proofs of possession in the staking builders: only whether each decodes, and the decoded owners, are kept; they do not reach the operations.
- Locked imported outputs with an output type of their own: the library has plain transfers and locks only.
- Keccak: the two function selectors are parameters.
- `PChainBalanceService.AccountBalance`: leaves out a missing account identifier and a historical block, which are refused before anything else, and the sub-accounts of node ids, which are the rewards modelled in `rewards.dfy`.
- Fees, gas, network status, mempool, block headers and historical lookups: thin wrappers around the node.
- Generic contract calls, transfer and unwrap operation lists of the construction service: straight-line code around the call data.
- The contract-info cache and the reading of asset descriptions: one answer per contract and asset.
- Conversion of the delegation fee from a float: rewards start from the integer share.
- Nil rewards and nil currencies in node answers, on which the code would panic.
- C-chain page decoding: pages are fetched by the loop of `UtxoPaging.FetchAll` and their coins are given.
- `Coins.ListedCoinsAddUp`: says nothing of locks around an unknown output type, because the codec has none.
- `CChainAtomic.RoundTripIff`: does not say which of two entries with the same address and asset comes first, because the library sort is not stable.
