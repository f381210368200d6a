/** P-chain transactions and operations, as far as parsing and building them needs
    (server/mapper/pchain/types.go and the transaction types of the node's library). */
module PChain {
  import opened Rosetta

  type Id = nat
  type ShortId = nat

  // ----- outputs, inputs and UTXOs -----

  datatype TransferOutput = TransferOutput(amount: uint64, locktime: uint64, threshold: uint32, addrs: seq<ShortId>)

  datatype Out = Transfer(out: TransferOutput) | LockOut(locktime: uint64, inner: Out) | OtherOut

  datatype In =
    | TransferIn(amount: uint64, sigIndices: seq<uint32>)
    | LockIn(locktime: uint64, inner: In)
    | OtherIn(amount: uint64)

  datatype Output = Output(asset: Id, out: Out)

  datatype Input = Input(utxo: UtxoId, asset: Id, in_: In)

  datatype Utxo = Utxo(id: UtxoId, asset: Id, out: Out)

  function InAmount(i: In): uint64 {
    match i
    case TransferIn(amount, _) => amount
    case LockIn(_, inner) => InAmount(inner)
    case OtherIn(amount) => amount
  }

  /** The transfer inside at most one stakeable lock, the only shape the mapper reads. */
  function PlainOut(out: Out): Option<TransferOutput> {
    match out
    case Transfer(o) => Some(o)
    case LockOut(_, Transfer(o)) => Some(o)
    case _ => None
  }

  predicate IsAddressable(out: Out) {
    !out.OtherOut?
  }

  /** The Addresses method: a lock answers for what it holds, and with none if that has no addresses. */
  function Addresses(out: Out): seq<ShortId> {
    match out
    case Transfer(o) => o.addrs
    case LockOut(_, inner) => if IsAddressable(inner) then Addresses(inner) else []
    case OtherOut => []
  }

  predicate SingleAddress(out: Out) {
    |Addresses(out)| == 1
  }

  // ----- transactions -----

  datatype SpendKind =
    | AddSubnetValidator | CreateChain | CreateSubnet | RemoveSubnetValidator | TransformSubnet
    | TransferSubnetOwnership | ConvertSubnetToL1 | RegisterL1Validator | IncreaseL1ValidatorBalance
    | SetL1ValidatorWeight | DisableL1Validator | Base

  datatype StakeKind = AddValidator | AddDelegator | AddPermissionlessValidator | AddPermissionlessDelegator

  datatype TxType =
    | Spending(spend: SpendKind) | Staking(stake: StakeKind)
    | ImportAvax | ExportAvax | RewardValidator

  datatype UnsignedTx =
    | SpendTx(kind: SpendKind, ins: seq<Input>, outs: seq<Output>)
    | StakeTx(stakeKind: StakeKind, ins: seq<Input>, outs: seq<Output>, stake: seq<Output>, weight: uint64)
    | ImportTx(ins: seq<Input>, outs: seq<Output>, imported: seq<Input>)
    | ExportTx(ins: seq<Input>, outs: seq<Output>, destination: Id, exported: seq<Output>)
    | AdvanceTimeTx
    | RewardTx(stakingTx: Id)
    | UnknownTx

  datatype Tx = Tx(id: Id, unsigned: UnsignedTx)

  // ----- operations -----

  datatype MetaType = ImportType | ExportType | InputType | OutputType | StakeType | RewardType

  /** Operation metadata after the JSON round trip: an absent or empty list of signature indices is left out. */
  datatype OpMeta = OpMeta(metaType: MetaType, sigIndices: Option<seq<uint32>>, locktime: uint64, threshold: uint32)

  type POperation = Operation<TxType, OpMeta>

  ghost predicate Positions(ops: seq<POperation>) {
    forall i :: 0 <= i < |ops| ==> ops[i].index == Some(i)
  }

  function Indexed(ops: seq<POperation>, next: nat): (r: seq<POperation>)
    ensures |r| == |ops|
    ensures forall i :: 0 <= i < |ops| ==> r[i] == ops[i].(index := Some(next + i))
  {
    seq(|ops|, i requires 0 <= i < |ops| => ops[i].(index := Some(next + i)))
  }
}
