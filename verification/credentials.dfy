/** server/service/backend/common/construction.go: assembling credentials from signatures, and
    server/service/backend/pchain/construction.go: the inputs a P-chain transaction is signed for. */
module Credentials {
  import opened Rosetta
  import opened Bytes
  import opened Sequences
  import opened PChain
  import opened PChainBuilder
  import opened PChainRoundTrip

  const SIGNATURE_LENGTH: nat := 65

  type Signature = seq<byte>

  /** The signatures of one input. */
  type Credential = seq<Signature>

  datatype CredentialError = InvalidInput | SignatureCount | InsufficientSignatures | InvalidSignatureLength

  function Slots(ins: seq<In>): nat {
    if ins == [] then 0
    else
      var last := ins[|ins| - 1];
      Slots(ins[..|ins| - 1]) + if last.TransferIn? then |last.sigIndices| else 0
  }

  function Flatten(creds: seq<Credential>): seq<Signature> {
    if creds == [] then [] else Flatten(creds[..|creds| - 1]) + creds[|creds| - 1]
  }

  predicate WellSized(signatures: seq<Signature>) {
    forall i :: 0 <= i < |signatures| ==> |signatures[i]| == SIGNATURE_LENGTH
  }

  /** buildCredential: takes the next signatures from the offset on; the offset that the calls share is an in- and an out-parameter. */
  method BuildCredential(numSigs: nat, offset: nat, signatures: seq<Signature>)
    returns (cred: Result<Credential, CredentialError>, next: nat)
    requires offset <= |signatures|
    ensures cred.Ok? <==>
      offset + numSigs <= |signatures| && forall k :: offset <= k < offset + numSigs ==> |signatures[k]| == SIGNATURE_LENGTH
    ensures cred.Ok? ==> next == offset + numSigs && cred.value == signatures[offset..next]
  {
    var sigs := new Signature[numSigs];
    next := offset;
    for j := 0 to numSigs
      invariant next == offset + j <= |signatures|
      invariant sigs[..j] == signatures[offset..next]
      invariant forall k :: offset <= k < next ==> |signatures[k]| == SIGNATURE_LENGTH
    {
      if next >= |signatures| {
        return Err(InsufficientSignatures), next;
      }
      if |signatures[next]| != SIGNATURE_LENGTH {
        return Err(InvalidSignatureLength), next;
      }
      sigs[j] := signatures[next];
      next := next + 1;
      assert sigs[..j + 1] == sigs[..j] + [signatures[next - 1]];
    }
    assert sigs[..] == sigs[..numSigs];
    cred := Ok(sigs[..]);
  }

  lemma {:induction false} SlotsGrow(ins: seq<In>, n: nat)
    requires n <= |ins|
    ensures Slots(ins[..n]) <= Slots(ins)
    decreases |ins| - n
  {
    if n == |ins| {
      assert ins[..n] == ins;
    } else {
      assert ins[..n + 1][..n] == ins[..n];
      SlotsGrow(ins, n + 1);
    }
  }

  lemma SlotsStep(ins: seq<In>, i: nat)
    requires i < |ins|
    ensures Slots(ins[..i + 1]) == Slots(ins[..i]) + if ins[i].TransferIn? then |ins[i].sigIndices| else 0
  {
    assert ins[..i + 1][..i] == ins[..i];
  }

  lemma FlattenMore(creds: seq<Credential>, cred: Credential)
    ensures Flatten(creds + [cred]) == Flatten(creds) + cred
  {
    assert (creds + [cred])[..|creds|] == creds;
  }

  /** Main result: credentials are built exactly when every input is a plain transfer, the signature indices of the
      inputs number the signatures, and each signature has 65 bytes; then each input gets as many signatures as it has
      indices, and one after the other they are all the signatures in order. */
  method BuildCredentialList(ins: seq<In>, signatures: seq<Signature>) returns (r: Result<seq<Credential>, CredentialError>)
    ensures r.Ok? <==> (forall input <- ins :: input.TransferIn?) && Slots(ins) == |signatures| && WellSized(signatures)
    ensures r.Ok? ==> Partitions(r.value, ins, signatures)
  {
    var creds: seq<Credential>, sigOffset := [], 0;
    assert ins[..0] == [] && signatures[..0] == [];
    assert Slots([]) == 0 && Flatten([]) == [];
    hide Slots, Flatten;
    for i := 0 to |ins|
      invariant forall k :: 0 <= k < i ==> ins[k].TransferIn?
      invariant sigOffset == Slots(ins[..i]) <= |signatures|
      invariant forall k :: 0 <= k < sigOffset ==> |signatures[k]| == SIGNATURE_LENGTH
      invariant |creds| == i && forall k :: 0 <= k < i ==> |creds[k]| == |ins[k].sigIndices|
      invariant Flatten(creds) == signatures[..sigOffset]
    {
      SlotsStep(ins, i);
      SlotsGrow(ins, i + 1);
      if !ins[i].TransferIn? {
        assert ins[i] in ins;
        return Err(InvalidInput);
      }
      var cred, next := BuildCredential(|ins[i].sigIndices|, sigOffset, signatures);
      if cred.Err? {
        return Err(cred.error);
      }
      FlattenMore(creds, cred.value);
      assert signatures[..sigOffset] + signatures[sigOffset..next] == signatures[..next];
      creds := creds + [cred.value];
      sigOffset := next;
    }
    assert ins[..|ins|] == ins;
    if sigOffset != |signatures| {
      return Err(SignatureCount);
    }
    assert signatures[..sigOffset] == signatures;
    return Ok(creds);
  }

  ghost predicate Partitions(creds: seq<Credential>, ins: seq<In>, signatures: seq<Signature>) {
    && |creds| == |ins|
    && (forall i :: 0 <= i < |ins| ==> ins[i].TransferIn? && |creds[i]| == |ins[i].sigIndices|)
    && Flatten(creds) == signatures
  }

  /** Signature j of input i is the one at the number of slots before it: the partition is the only one. */
  lemma {:induction false} PartitionAt(creds: seq<Credential>, ins: seq<In>, signatures: seq<Signature>, i: nat, j: nat)
    requires Partitions(creds, ins, signatures) && i < |ins| && j < |ins[i].sigIndices|
    ensures |signatures| == Slots(ins) && Slots(ins[..i]) + j < |signatures|
    ensures creds[i][j] == signatures[Slots(ins[..i]) + j]
    decreases |ins|
  {
    var n := |ins| - 1;
    FlattenLength(creds[..n], ins[..n]);
    if i < n {
      PartitionAt(creds[..n], ins[..n], Flatten(creds[..n]), i, j);
      assert ins[..n][..i] == ins[..i];
    }
  }

  lemma {:induction false} FlattenLength(creds: seq<Credential>, ins: seq<In>)
    requires |creds| == |ins| && forall i :: 0 <= i < |ins| ==> ins[i].TransferIn? && |creds[i]| == |ins[i].sigIndices|
    ensures |Flatten(creds)| == Slots(ins)
  {
    if ins != [] {
      FlattenLength(creds[..|ins| - 1], ins[..|ins| - 1]);
    }
  }

  /** The credential of an export from the C-chain: the first signature, however many there are. */
  method BuildSingletonCredentialList(signatures: seq<Signature>) returns (r: Result<seq<Credential>, CredentialError>)
    ensures r.Ok? <==> signatures != [] && |signatures[0]| == SIGNATURE_LENGTH
    ensures r.Ok? ==> r.value == [[signatures[0]]]
  {
    var cred, _ := BuildCredential(1, 0, signatures);
    assert signatures != [] ==> signatures[..1] == [signatures[0]];
    if cred.Err? {
      return Err(cred.error);
    }
    return Ok([cred.value]);
  }

  // ----- signing what was built -----

  /** The inputs that credentials are made for; None for types that cannot be combined. */
  function SignedInputs(unsigned: UnsignedTx): Option<seq<Input>> {
    match unsigned
    case SpendTx(kind, ins, _) => if kind == RemoveSubnetValidator then None else Some(ins)
    case StakeTx(_, ins, _, _, _) => Some(ins)
    case ImportTx(_, _, imported) => Some(imported)
    case ExportTx(ins, _, _, _) => Some(ins)
    case AdvanceTimeTx => Some([])
    case RewardTx(_) => Some([])
    case UnknownTx => None
  }

  function Spends(ins: seq<Input>): seq<In> {
    seq(|ins|, i requires 0 <= i < |ins| => ins[i].in_)
  }

  /** When combining succeeds, and what the credentials are. */
  ghost predicate Combined(unsigned: UnsignedTx, signatures: seq<Signature>, creds: Option<seq<Credential>>) {
    && (creds.Some? <==>
          && SignedInputs(unsigned).Some?
          && (forall input <- Spends(SignedInputs(unsigned).value) :: input.TransferIn?)
          && Slots(Spends(SignedInputs(unsigned).value)) == |signatures| && WellSized(signatures))
    && (creds.Some? ==> Partitions(creds.value, Spends(SignedInputs(unsigned).value), signatures))
  }

  method CombineTx(unsigned: UnsignedTx, signatures: seq<Signature>) returns (creds: Option<seq<Credential>>)
    ensures Combined(unsigned, signatures, creds)
  {
    var ins := SignedInputs(unsigned);
    if ins.None? {
      return None;
    }
    var r := BuildCredentialList(Spends(ins.value), signatures);
    return if r.Ok? then Some(r.value) else None;
  }

  /** The metadata type of the input operations that a built transaction is signed for. */
  function SignedType(kind: TxType): MetaType {
    if kind == ImportAvax then ImportType else InputType
  }

  /** One signer for the operation, as when nothing else is given. */
  predicate SignedOnce(op: POperation) {
    |Defaults(op.metadata).sigIndices.value| == 1
  }

  /** Every input is a transfer that is signed once. */
  predicate AllSignedOnce(ins: seq<In>) {
    forall i :: 0 <= i < |ins| ==> ins[i].TransferIn? && |ins[i].sigIndices| == 1
  }

  lemma {:induction false} SingleSlots(ins: seq<In>)
    requires AllSignedOnce(ins)
    ensures Slots(ins) == |ins|
  {
    if ins != [] {
      SingleSlots(ins[..|ins| - 1]);
    }
  }

  /** Then credential i is made of signature i. */
  lemma PartitionOfSingles(creds: seq<Credential>, ins: seq<In>, signatures: seq<Signature>)
    requires Partitions(creds, ins, signatures) && AllSignedOnce(ins)
    ensures |signatures| == |creds| == |ins| && forall i :: 0 <= i < |ins| ==> creds[i] == [signatures[i]]
  {
    hide Slots, Flatten;
    FlattenLength(creds, ins);
    SingleSlots(ins);
    forall i | 0 <= i < |ins| ensures creds[i] == [signatures[i]] {
      PartitionAt(creds, ins, signatures, i, 0);
      SingleSlots(ins[..i]);
    }
  }

  /** Every built input spends by plain transfer, once for an operation that is signed once. */
  lemma BuiltInputsSignedOnce(ins: seq<Input>, ops: seq<POperation>, metaType: MetaType, asset: Id)
    requires AreInputs(ins, ops, metaType, asset)
    requires forall op <- ops :: IsInputOp(op) && InputError(op).None? && SignedOnce(op)
    ensures |ins| == |OfType(ops, metaType)|
    ensures AllSignedOnce(Spends(ins))
  {
    var mine := OfType(ops, metaType);
    var built := Map(mine, InputOf(asset));
    assert |multiset(ins)| == |multiset(built)|;
    forall i | 0 <= i < |ins| ensures ins[i].in_.TransferIn? && |ins[i].in_.sigIndices| == 1 {
      assert ins[i] in multiset(built);
      var k :| 0 <= k < |built| && built[k] == ins[i];
      assert mine[k] in ops;
    }
  }

  lemma SignedTypeIff(kind: TxType, inputs: seq<POperation>)
    requires IsBuildable(kind) && forall op <- inputs :: InputError(op).None?
    ensures |OfType(inputs, SignedType(kind))| == |inputs| <==> forall op <- inputs :: op.metadata.metaType == SignedType(kind)
  {
    TypesPartition(inputs);
    hide OfType;
    NoneOfType(inputs, ImportType);
    NoneOfType(inputs, InputType);
    NoneOfType(inputs, OutputType);
    NoneOfType(inputs, ExportType);
    NoneOfType(inputs, StakeType);
    NoneOfType(inputs, RewardType);
  }

  /** Main result: with one good signature for every payload, combining a built transaction succeeds exactly when all
      input operations are of the type it is signed for. An import that also has base inputs cannot be combined. */
  lemma OneSignaturePerPayloadIff(
    unsigned: UnsignedTx, kind: TxType, inputs: seq<POperation>, outputs: seq<POperation>, settings: Settings, signatures: seq<Signature>)
    requires IsBuilt(unsigned, kind, inputs, outputs, settings)
    requires forall op <- inputs :: IsInputOp(op) && InputError(op).None? && SignedOnce(op)
    requires |signatures| == |inputs| && WellSized(signatures)
    ensures SignedInputs(unsigned).Some?
    ensures (forall input <- Spends(SignedInputs(unsigned).value) :: input.TransferIn?)
    ensures Slots(Spends(SignedInputs(unsigned).value)) == |signatures| <==>
            forall op <- inputs :: op.metadata.metaType == SignedType(kind)
  {
    hide AreInputs, Defaults, InputError, OfType, Slots;
    var ins := SignedInputs(unsigned).value;
    BuiltInputsSignedOnce(ins, inputs, SignedType(kind), settings.avaxAsset);
    SingleSlots(Spends(ins));
    SignedTypeIff(kind, inputs);
  }

  // ----- whose signature goes where -----

  /** The key that inputs are sorted by, read off an operation. */
  function OpKey(op: POperation): int {
    if op.coinChange.Some? then CoinKey(op.coinChange.value.coin) else 0
  }

  ghost predicate InUtxoOrder(ops: seq<POperation>) {
    forall i, j :: 0 <= i < j < |ops| ==> OpKey(ops[i]) < OpKey(ops[j])
  }

  ghost predicate CoinsDistinct(ops: seq<POperation>) {
    forall i, j | 0 <= i < j < |ops| && ops[i].coinChange.Some? && ops[j].coinChange.Some? ::
      ops[i].coinChange.value.coin != ops[j].coinChange.value.coin
  }

  /** Input i, and with it credential i, is for the coin of operation i, and with it of payload signer i. */
  ghost predicate Aligned(ins: seq<Input>, ops: seq<POperation>) {
    |ins| == |ops| && forall i :: 0 <= i < |ops| ==> ops[i].coinChange.Some? && ins[i].utxo == ops[i].coinChange.value.coin
  }

  lemma {:induction false} AllOfType(ops: seq<POperation>, metaType: MetaType)
    requires forall i :: 0 <= i < |ops| ==> ops[i].metadata.metaType == metaType
    ensures OfType(ops, metaType) == ops
  {
    if ops != [] {
      var n := |ops| - 1;
      hide OfType;
      AllOfType(ops[..n], metaType);
      WithLast(ops);
    }
  }

  lemma BuiltIsAligned(ops: seq<POperation>, asset: Id)
    requires forall op <- ops :: IsInputOp(op) && InputError(op).None?
    ensures Aligned(Map(ops, InputOf(asset)), ops)
  {
    forall i | 0 <= i < |ops| ensures ops[i].coinChange.Some? && InputOf(asset)(ops[i]).utxo == ops[i].coinChange.value.coin {
      assert ops[i] in ops;
    }
  }

  /** Main result: credentials follow the payload signers exactly when the input operations come in UTXO order. */
  lemma AlignedIff(ins: seq<Input>, ops: seq<POperation>, metaType: MetaType, asset: Id)
    requires AreInputs(ins, ops, metaType, asset) && CoinsDistinct(ops)
    requires forall op <- ops :: IsInputOp(op) && InputError(op).None? && op.metadata.metaType == metaType
    ensures Aligned(ins, ops) <==> InUtxoOrder(ops)
  {
    forall i | 0 <= i < |ops| ensures ops[i].metadata.metaType == metaType {
      assert ops[i] in ops;
    }
    AllOfType(ops, metaType);
    BuiltIsAligned(ops, asset);
    var built := Map(ops, InputOf(asset));
    hide InputOf, IsInputOp, InputError, Map, OfType, SortedBy, Aligned, InUtxoOrder, CoinsDistinct;
    if InUtxoOrder(ops) {
      OrderedIsUnchanged(ins, built, ops);
    }
    if Aligned(ins, ops) {
      AlignedIsSorted(ins, ops);
    }
  }

  lemma OrderedIsUnchanged(ins: seq<Input>, built: seq<Input>, ops: seq<POperation>)
    requires IsSorted(ins, built, INPUT_KEY) && Aligned(built, ops) && InUtxoOrder(ops)
    ensures ins == built
  {
    assert forall i :: 0 <= i < |ops| ==> INPUT_KEY(built[i]) == OpKey(ops[i]);
    assert forall x :: x in ins <==> x in multiset(ins);
    assert forall x :: x in built <==> x in multiset(built);
    SortedIsUnique(ins, built, INPUT_KEY);
  }

  lemma AlignedIsSorted(ins: seq<Input>, ops: seq<POperation>)
    requires Aligned(ins, ops) && SortedBy(ins, INPUT_KEY) && CoinsDistinct(ops)
    ensures InUtxoOrder(ops)
  {
    forall i, j | 0 <= i < j < |ops| ensures OpKey(ops[i]) < OpKey(ops[j]) {
      assert INPUT_KEY(ins[i]) <= INPUT_KEY(ins[j]);
    }
  }

  /** Input i spends the coin of operation i, and its credential is made of the signature for that operation's payload. */
  ghost predicate InPlace(ins: seq<Input>, ops: seq<POperation>, creds: seq<Credential>, signatures: seq<Signature>) {
    && Aligned(ins, ops)
    && |creds| == |ins| == |signatures| && forall i :: 0 <= i < |signatures| ==> creds[i] == [signatures[i]]
  }

  lemma SignedPart(unsigned: UnsignedTx, kind: TxType, inputs: seq<POperation>, outputs: seq<POperation>, settings: Settings)
    requires IsBuilt(unsigned, kind, inputs, outputs, settings)
    ensures SignedInputs(unsigned).Some?
    ensures AreInputs(SignedInputs(unsigned).value, inputs, SignedType(kind), settings.avaxAsset)
  {
    hide AreInputs, AreOutputs, TotalOutput;
  }

  /** Main result: from the debits of a request to the credentials of the transaction. With one good signature for every
      payload, combining succeeds with every signature on the input it was made for exactly when all debits are of the
      type the transaction is signed for and come in UTXO order. */
  lemma SignaturesInPlaceIff(
    unsigned: UnsignedTx, kind: TxType, inputs: seq<POperation>, outputs: seq<POperation>, settings: Settings,
    signatures: seq<Signature>, creds: Option<seq<Credential>>)
    requires IsBuilt(unsigned, kind, inputs, outputs, settings) && Combined(unsigned, signatures, creds)
    requires CoinsDistinct(inputs) && forall op <- inputs :: IsInputOp(op) && InputError(op).None? && SignedOnce(op)
    requires |signatures| == |inputs| && WellSized(signatures)
    ensures SignedInputs(unsigned).Some?
    ensures creds.Some? && InPlace(SignedInputs(unsigned).value, inputs, creds.value, signatures) <==>
            (forall op <- inputs :: op.metadata.metaType == SignedType(kind)) && InUtxoOrder(inputs)
  {
    hide AreInputs, IsBuilt, InputError, IsInputOp, SignedOnce, Aligned, Slots, Partitions, InUtxoOrder, CoinsDistinct, AllSignedOnce,
         SignedInputs, SignedType;
    OneSignaturePerPayloadIff(unsigned, kind, inputs, outputs, settings, signatures);
    SignedPart(unsigned, kind, inputs, outputs, settings);
    var ins := SignedInputs(unsigned).value;
    if creds.Some? {
      BuiltInputsSignedOnce(ins, inputs, SignedType(kind), settings.avaxAsset);
      PartitionOfSingles(creds.value, Spends(ins), signatures);
      AlignedIff(ins, inputs, SignedType(kind), settings.avaxAsset);
    }
  }

  // ----- an import that also spends a coin of the P-chain -----

  function Spend(metaType: MetaType, coin: UtxoId, account: Account): POperation {
    Operation(None, [], ImportAvax, Unset, Some(account), Some(Amount(-5, AtomicAvax)), Some(CoinChange(coin, CoinSpent)),
              OpMeta(metaType, None, 0, 0))
  }

  function Credit(account: Account): POperation {
    Operation(None, [], ImportAvax, Unset, Some(account), Some(Amount(9, AtomicAvax)), None, OpMeta(OutputType, None, 0, 0))
  }

  lemma OfTypeOf(op: POperation, metaType: MetaType)
    ensures OfType([op], metaType) == if op.metadata.metaType == metaType then [op] else []
  {
    assert [op][..0] == [];
  }

  lemma MixedOfType(imported: UtxoId, base: UtxoId, account: Account)
    ensures var inputs := [Spend(ImportType, imported, account), Spend(InputType, base, account)];
      && OfType(inputs, ImportType) == [inputs[0]] && OfType(inputs, InputType) == [inputs[1]]
    ensures OfType([Credit(account)], OutputType) == [Credit(account)]
  {
    hide OfType;
    var first, second := Spend(ImportType, imported, account), Spend(InputType, base, account);
    OfTypeOf(first, ImportType);
    OfTypeOf(first, InputType);
    OfTypeOf(Credit(account), OutputType);
    OneMoreOfType([first], second, ImportType);
    OneMoreOfType([first], second, InputType);
    assert [first] + [second] == [first, second];
  }

  /** A request to import 5 and to spend 5 of the P-chain with it: the transaction is built, there are two payloads, and
      the two signatures cannot be combined with it. */
  lemma BaseInputIsNotSigned(imported: UtxoId, base: UtxoId, account: Account, settings: Settings, first: Signature, second: Signature)
    returns (unsigned: UnsignedTx)
    requires imported != base && account.Bech32? && |first| == |second| == SIGNATURE_LENGTH
    ensures var inputs := [Spend(ImportType, imported, account), Spend(InputType, base, account)];
      IsBuilt(unsigned, ImportAvax, inputs, [Credit(account)], settings)
    ensures forall creds :: Combined(unsigned, [first, second], creds) ==> creds == None
  {
    var inputs, outputs := [Spend(ImportType, imported, account), Spend(InputType, base, account)], [Credit(account)];
    MixedOfType(imported, base, account);
    unsigned := UnsignedTx.ImportTx(Map([inputs[1]], InputOf(settings.avaxAsset)), Map(outputs, OutputOf(settings.avaxAsset)),
                                    Map([inputs[0]], InputOf(settings.avaxAsset)));
    hide OfType, Slots;
    OneSignaturePerPayloadIff(unsigned, ImportAvax, inputs, outputs, settings, [first, second]);
    assert inputs[1] in inputs && inputs[1].metadata.metaType != SignedType(ImportAvax);
  }
}
