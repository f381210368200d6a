/** server/service/backend/cchainatomictx/construction.go: putting signatures to C-chain atomic transactions. */
module CChainCombine {
  import opened Rosetta
  import opened Sequences
  import opened Atomic
  import opened CChainAtomic
  import opened Credentials
  import P = PChain

  /** The spending inputs of an import, as the credential builder sees them. */
  function Transfers(ins: seq<ImportedInput>): seq<P.In> {
    seq(|ins|, i requires 0 <= i < |ins| => P.TransferIn(ins[i].amount, ins[i].sigIndices))
  }

  /** getTxCreds: an import has its signatures divided among its inputs, an export is given the first one. */
  ghost predicate AreCreds(tx: AtomicTx, signatures: seq<Signature>, creds: Option<seq<Credential>>) {
    match tx
    case ImportTx(_, ins, _) =>
      && (creds.Some? <==> Slots(Transfers(ins)) == |signatures| && WellSized(signatures))
      && (creds.Some? ==> Partitions(creds.value, Transfers(ins), signatures))
    case ExportTx(_, _, _) =>
      creds == if signatures != [] && |signatures[0]| == SIGNATURE_LENGTH then Some([[signatures[0]]]) else None
    case OtherTx => creds == None
  }

  method GetTxCreds(tx: AtomicTx, signatures: seq<Signature>) returns (creds: Option<seq<Credential>>)
    ensures AreCreds(tx, signatures, creds)
  {
    match tx {
      case ImportTx(_, ins, _) =>
        var r := BuildCredentialList(Transfers(ins), signatures);
        return if r.Ok? then Some(r.value) else None;
      case ExportTx(_, _, _) =>
        var r := BuildSingletonCredentialList(signatures);
        return if r.Ok? then Some(r.value) else None;
      case OtherTx =>
        return None;
    }
  }

  /** Every input has a credential, made of the signature of the payload at its place. */
  predicate CoversInputs(tx: AtomicTx, signatures: seq<Signature>, creds: seq<Credential>) {
    |creds| == InputCount(tx) == |signatures| && forall i :: 0 <= i < |signatures| ==> creds[i] == [signatures[i]]
  }

  lemma BuiltInputs(tx: AtomicTx, kind: Kind, inputs: seq<AtomicOperation>, outputs: seq<AtomicOperation>, s: Settings)
    requires IsBuilt(tx, kind, inputs, outputs, s)
    ensures InputCount(tx) == |inputs|
    ensures tx.ImportTx? ==> AllSignedOnce(Transfers(tx.importedInputs))
  {
    match kind {
      case Export =>
        assert |multiset(tx.ins)| == |multiset(Map(inputs, EvmInputOf(s)))|;
      case Import =>
        var built := Map(inputs, ImportedInputOf(s));
        assert |multiset(tx.importedInputs)| == |multiset(built)|;
        forall i | 0 <= i < |tx.importedInputs| ensures |tx.importedInputs[i].sigIndices| == 1 {
          assert tx.importedInputs[i] in multiset(built);
        }
    }
  }

  /** Main result: signed with one good signature for every payload, a built transaction is always combined; and every
      input has its credential exactly for imports and for exports of a single debit. */
  lemma CombineCoversInputsIff(tx: AtomicTx, kind: Kind, inputs: seq<AtomicOperation>, outputs: seq<AtomicOperation>,
                               s: Settings, signatures: seq<Signature>, creds: Option<seq<Credential>>)
    requires IsBuilt(tx, kind, inputs, outputs, s) && AreCreds(tx, signatures, creds)
    requires inputs != [] && |signatures| == |inputs| && WellSized(signatures)
    ensures creds.Some?
    ensures CoversInputs(tx, signatures, creds.value) <==> kind == Import || |inputs| == 1
  {
    BuiltInputs(tx, kind, inputs, outputs, s);
    if kind == Import {
      SingleSlots(Transfers(tx.importedInputs));
      PartitionOfSingles(creds.value, Transfers(tx.importedInputs), signatures);
    }
  }

  /** A request to export: 1 from each of two accounts, and 1 for a P-chain address. */
  function DebitsOfTwo(a: Address, b: Address, s: Settings): seq<AtomicOperation> {
    [DebitOf(EvmInput(a, 1, s.avaxAsset, s.nonce)), DebitOf(EvmInput(b, 1, s.avaxAsset, s.nonce))]
  }

  function CreditOfOne(alias: string, hrp: string, id: P.ShortId, s: Settings): seq<AtomicOperation> {
    [ExportOf(alias, hrp, ExportedOutput(s.avaxAsset, 1, 0, 1, [id]))]
  }

  /** An export that debits two accounts: built with two inputs, combined with one credential. */
  lemma TwoDebitsOneCredential(a: Address, b: Address, alias: string, hrp: string, id: P.ShortId, s: Settings,
                               first: Signature, second: Signature) returns (tx: AtomicTx)
    requires a < b && ReadsHex(s) && |first| == |second| == SIGNATURE_LENGTH
    ensures IsBuilt(tx, Export, DebitsOfTwo(a, b, s), CreditOfOne(alias, hrp, id, s), s)
    ensures |tx.ins| == 2 && AreCreds(tx, [first, second], Some([[first]]))
  {
    var inputs, outputs := DebitsOfTwo(a, b, s), CreditOfOne(alias, hrp, id, s);
    tx := ExportTx(s.destination, Map(inputs, EvmInputOf(s)), Some(Map(outputs, ExportedOutputOf(s))));
  }
}
