/** The C-chain's atomic transactions (coreth plugin/evm/atomic), as far as the mappers read and build them. */
module Atomic {
  import opened Rosetta

  /** A chain, asset or transaction id. */
  type Id = nat

  datatype EvmInput = EvmInput(address: Address, amount: uint64, assetId: Id, nonce: uint64)

  datatype EvmOutput = EvmOutput(address: Address, amount: uint64, assetId: Id)

  datatype ImportedInput = ImportedInput(utxo: UtxoId, assetId: Id, amount: uint64, sigIndices: seq<uint32>)

  /** A transferable output that pays a list of 20-byte addresses. */
  datatype ExportedOutput = ExportedOutput(assetId: Id, amount: uint64, locktime: uint64, threshold: uint32, addresses: seq<nat>)

  /** A nil slice of exported outputs is None. */
  datatype AtomicTx =
    | ImportTx(sourceChain: Id, importedInputs: seq<ImportedInput>, outs: seq<EvmOutput>)
    | ExportTx(destinationChain: Id, ins: seq<EvmInput>, exportedOutputs: Option<seq<ExportedOutput>>)
    | OtherTx
}
