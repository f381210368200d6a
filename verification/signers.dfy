/** Who signs: server/service/backend/common/construction.go (BuildPayloads, getInputAddresses) and
    server/service/backend/common/types.go (GetAccountIdentifiers). */
module Signers {
  import opened Rosetta

  /** An operation's coin, when it names one; the empty text otherwise. */
  type CoinText = Option<UtxoId>

  /** What travels with an unsigned transaction for each debiting operation. */
  datatype Signer = Signer(coin: CoinText, account: Option<Account>)

  function CoinTextOf<K, M>(op: Operation<K, M>): CoinText {
    if op.coinChange.Some? then Some(op.coinChange.value.coin) else None
  }

  predicate Debits<K, M>(op: Operation<K, M>)
    requires op.amount.Some?
  {
    op.amount.value.value < 0
  }

  predicate HaveAmounts<K, M>(ops: seq<Operation<K, M>>) {
    forall i :: 0 <= i < |ops| ==> ops[i].amount.Some?
  }

  function Debiting<K, M>(ops: seq<Operation<K, M>>): (r: seq<Operation<K, M>>)
    requires HaveAmounts(ops)
    ensures HaveAmounts(r) && forall i :: 0 <= i < |r| ==> Debits(r[i])
  {
    if ops == [] then []
    else
      var last := ops[|ops| - 1];
      Debiting(ops[..|ops| - 1]) + if Debits(last) then [last] else []
  }

  /** The operations with a positive amount. */
  function Crediting<K, M>(ops: seq<Operation<K, M>>): (r: seq<Operation<K, M>>)
    requires HaveAmounts(ops)
    ensures HaveAmounts(r) && forall i :: 0 <= i < |r| ==> r[i].amount.value.value > 0
  {
    if ops == [] then []
    else
      var last := ops[|ops| - 1];
      Crediting(ops[..|ops| - 1]) + if last.amount.value.value > 0 then [last] else []
  }

  function SignersOf<K, M>(ops: seq<Operation<K, M>>): seq<Signer> {
    seq(|ops|, i requires 0 <= i < |ops| => Signer(CoinTextOf(ops[i]), ops[i].account))
  }

  /** BuildPayloads: one signer for each debiting operation. */
  method CollectSigners<K, M>(ops: seq<Operation<K, M>>) returns (signers: seq<Signer>)
    requires HaveAmounts(ops)
    ensures signers == SignersOf(Debiting(ops))
  {
    signers := [];
    for i := 0 to |ops|
      invariant signers == SignersOf(Debiting(ops[..i]))
    {
      assert ops[..i + 1][..i] == ops[..i];
      if ops[i].amount.value.value >= 0 {
        continue;
      }
      var coin: CoinText := None;
      if ops[i].coinChange.Some? {
        coin := Some(ops[i].coinChange.value.coin);
      }
      signers := signers + [Signer(coin, ops[i].account)];
    }
    assert ops[..|ops|] == ops;
  }

  /** The last signer of each coin. */
  function ByCoin(signers: seq<Signer>): map<CoinText, Option<Account>> {
    if signers == [] then map[]
    else ByCoin(signers[..|signers| - 1])[signers[|signers| - 1].coin := signers[|signers| - 1].account]
  }

  /** getInputAddresses, and the map GetAccountIdentifiers begins with. */
  method InputAddresses(signers: seq<Signer>) returns (addresses: map<CoinText, Option<Account>>)
    ensures addresses == ByCoin(signers)
  {
    addresses := map[];
    for i := 0 to |signers|
      invariant addresses == ByCoin(signers[..i])
    {
      assert signers[..i + 1][..i] == signers[..i];
      addresses := addresses[signers[i].coin := signers[i].account];
    }
    assert signers[..|signers|] == signers;
  }

  /** The account on record for an operation's coin. */
  function Recorded<K, M>(signers: seq<Signer>, op: Operation<K, M>): Option<Account> {
    var addresses := ByCoin(signers);
    if CoinTextOf(op) in addresses then addresses[CoinTextOf(op)] else None
  }

  /** Main result: every debiting operation gets the account on record for its coin, in order, and the call fails exactly
      when one of them has none on record. */
  method GetAccountIdentifiers<K, M>(signers: seq<Signer>, ops: seq<Operation<K, M>>) returns (accounts: Option<seq<Account>>)
    requires HaveAmounts(ops)
    ensures accounts.Some? <==> forall i :: 0 <= i < |Debiting(ops)| ==> Recorded(signers, Debiting(ops)[i]).Some?
    ensures accounts.Some? ==>
      && |accounts.value| == |Debiting(ops)|
      && forall i :: 0 <= i < |Debiting(ops)| ==> Recorded(signers, Debiting(ops)[i]) == Some(accounts.value[i])
  {
    var addresses := InputAddresses(signers);
    var found: seq<Account> := [];
    NothingDebited(ops[..0]);
    hide Debiting;
    for i := 0 to |ops|
      invariant |found| == |Debiting(ops[..i])|
      invariant forall k :: 0 <= k < |found| ==> Recorded(signers, Debiting(ops[..i])[k]) == Some(found[k])
    {
      DebitingTurn(ops, i);
      if ops[i].amount.value.value >= 0 {
        continue;
      }
      var coin: CoinText := None;
      if ops[i].coinChange.Some? {
        coin := Some(ops[i].coinChange.value.coin);
      }
      var signer: Option<Account> := None;
      if coin in addresses {
        signer := addresses[coin];
      }
      if signer.None? {
        DebitingPrefix(ops, i + 1);
        assert Debiting(ops)[|Debiting(ops[..i])|] == ops[i];
        return None;
      }
      found := found + [signer.value];
    }
    assert ops[..|ops|] == ops;
    return Some(found);
  }

  lemma NothingDebited<K, M>(ops: seq<Operation<K, M>>)
    requires ops == []
    ensures Debiting(ops) == []
  {
  }

  lemma DebitingTurn<K, M>(ops: seq<Operation<K, M>>, i: nat)
    requires HaveAmounts(ops) && i < |ops|
    ensures Debiting(ops[..i + 1]) == Debiting(ops[..i]) + if Debits(ops[i]) then [ops[i]] else []
  {
    assert ops[..i + 1][..i] == ops[..i];
  }

  lemma {:induction false} DebitingPrefix<K, M>(ops: seq<Operation<K, M>>, n: nat)
    requires HaveAmounts(ops) && n <= |ops|
    ensures Debiting(ops[..n]) <= Debiting(ops)
    decreases |ops| - n
  {
    if n == |ops| {
      assert ops[..n] == ops;
    } else {
      assert ops[..n + 1][..n] == ops[..n];
      DebitingPrefix(ops, n + 1);
    }
  }

  // ----- when the record is right -----

  ghost predicate DistinctCoinTexts<K, M>(ops: seq<Operation<K, M>>) {
    forall i, j :: 0 <= i < j < |ops| ==> CoinTextOf(ops[i]) != CoinTextOf(ops[j])
  }

  /** The account on record for a coin is that of the last operation naming it. */
  lemma {:induction false} RecordedIsLast<K, M>(ops: seq<Operation<K, M>>, i: nat)
    requires i < |ops|
    requires forall j :: i < j < |ops| ==> CoinTextOf(ops[j]) != CoinTextOf(ops[i])
    ensures Recorded(SignersOf(ops), ops[i]) == ops[i].account
  {
    var n := |ops| - 1;
    assert SignersOf(ops)[..n] == SignersOf(ops[..n]);
    if i < n {
      RecordedIsLast(ops[..n], i);
    }
  }

  lemma SameRecord<K, M>(signers: seq<Signer>, x: Operation<K, M>, y: Operation<K, M>)
    requires CoinTextOf(x) == CoinTextOf(y)
    ensures Recorded(signers, x) == Recorded(signers, y)
  {
  }

  /** The last operation naming the same coin. */
  function LastSharing<K, M>(ops: seq<Operation<K, M>>, i: nat): (j: nat)
    requires i < |ops|
    ensures i <= j < |ops| && CoinTextOf(ops[j]) == CoinTextOf(ops[i])
    ensures forall k :: j < k < |ops| ==> CoinTextOf(ops[k]) != CoinTextOf(ops[i])
  {
    var n := |ops| - 1;
    if i == n || CoinTextOf(ops[n]) == CoinTextOf(ops[i]) then n
    else LastSharing(ops[..n], i)
  }

  /** Main result: the record gives every debiting operation its own account exactly when operations that name the same
      coin, or name none, have the same account. Distinct coins meet this; C-chain exports name no coins, and meet it
      exactly when all of them debit one account. */
  lemma RecordRightIff<K, M>(ops: seq<Operation<K, M>>)
    ensures (forall i :: 0 <= i < |ops| ==> Recorded(SignersOf(ops), ops[i]) == ops[i].account) <==>
            (forall i, j | 0 <= i < j < |ops| && CoinTextOf(ops[i]) == CoinTextOf(ops[j]) :: ops[i].account == ops[j].account)
    ensures DistinctCoinTexts(ops) ==> forall i :: 0 <= i < |ops| ==> Recorded(SignersOf(ops), ops[i]) == ops[i].account
  {
    hide SignersOf, ByCoin, Recorded, LastSharing;
    forall i | 0 <= i < |ops|
      ensures Recorded(SignersOf(ops), ops[i]) == ops[LastSharing(ops, i)].account
    {
      RecordedIsLast(ops, LastSharing(ops, i));
      SameRecord(SignersOf(ops), ops[i], ops[LastSharing(ops, i)]);
    }
    forall i, j | 0 <= i < j < |ops| && CoinTextOf(ops[i]) == CoinTextOf(ops[j])
      ensures Recorded(SignersOf(ops), ops[i]) == Recorded(SignersOf(ops), ops[j])
    {
      SameRecord(SignersOf(ops), ops[i], ops[j]);
    }
  }

  /** Two accounts debited in one C-chain export: both operations are given the second account as their signer. */
  lemma ExportOfTwoAccountsMisleads<K, M>(a: Operation<K, M>, b: Operation<K, M>)
    requires a.coinChange.None? && b.coinChange.None? && a.account != b.account
    ensures Recorded(SignersOf([a, b]), a) == b.account && Recorded(SignersOf([a, b]), a) != a.account
  {
    assert SignersOf([a, b])[..1] == SignersOf([a]);
    RecordedIsLast([a, b], 1);
  }

  /** Main result: when the record is right for the operations given to payloads and parsing gives back operations that
      agree with the record, the signers of the parsed transaction are the accounts of its debiting operations. */
  method SignersOfParsed<K, M>(given: seq<Operation<K, M>>, parsed: seq<Operation<K, M>>) returns (accounts: Option<seq<Account>>)
    requires HaveAmounts(given) && HaveAmounts(parsed)
    requires forall i :: 0 <= i < |Debiting(parsed)| ==> Debiting(parsed)[i].account.Some? && HasCounterpart(Debiting(given), Debiting(parsed)[i])
    requires forall i, j | 0 <= i < j < |Debiting(given)| && CoinTextOf(Debiting(given)[i]) == CoinTextOf(Debiting(given)[j]) ::
      Debiting(given)[i].account == Debiting(given)[j].account
    ensures accounts.Some? && |accounts.value| == |Debiting(parsed)|
    ensures forall i :: 0 <= i < |Debiting(parsed)| ==> Debiting(parsed)[i].account == Some(accounts.value[i])
  {
    var signers := CollectSigners(given);
    ghost var debits := Debiting(given);
    RecordRightIff(debits);
    accounts := GetAccountIdentifiers(signers, parsed);
    forall i | 0 <= i < |Debiting(parsed)| ensures Recorded(signers, Debiting(parsed)[i]) == Debiting(parsed)[i].account {
      var op := Debiting(parsed)[i];
      var k :| 0 <= k < |debits| && CoinTextOf(debits[k]) == CoinTextOf(op) && debits[k].account == op.account;
      assert Recorded(signers, debits[k]) == debits[k].account;
    }
  }

  /** Some operation names the same coin and account. */
  ghost predicate HasCounterpart<K, M>(ops: seq<Operation<K, M>>, op: Operation<K, M>) {
    exists k :: 0 <= k < |ops| && CoinTextOf(ops[k]) == CoinTextOf(op) && ops[k].account == op.account
  }
}
