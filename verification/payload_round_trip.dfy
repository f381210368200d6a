/** From /construction/payloads to /construction/parse on the P-chain: the accounts that travel with the unsigned
    transaction are all that parsing and signing need. */
module PayloadRoundTrip {
  import opened Rosetta
  import opened Sequences
  import opened PChain
  import opened PChainParser
  import opened PChainBuilder
  import opened PChainRoundTrip
  import opened Signers

  /** The accounts on record, by coin. */
  function CoinAccounts(signers: seq<Signer>): map<UtxoId, Account> {
    var addresses := ByCoin(signers);
    map text | text in addresses && text.Some? && addresses[text].Some? :: text.value := addresses[text].value
  }

  /** The record that payloads makes of a request lets the parser book every debited coin on its account. */
  lemma PayloadAccountsKnown(ctx: Context, given: seq<POperation>)
    requires HaveAmounts(given) && ctx.accounts == CoinAccounts(SignersOf(Debiting(given)))
    requires DistinctCoinTexts(Debiting(given))
    requires forall op <- Debiting(given) :: op.coinChange.Some? && op.account.Some?
    ensures AccountsKnown(ctx, Debiting(given))
  {
    hide Debiting, ByCoin, SignersOf;
    var inputs := Debiting(given);
    RecordRightIff(inputs);
    forall op | op in inputs
      ensures op.coinChange.value.coin in ctx.accounts && op.account == Some(ctx.accounts[op.coinChange.value.coin])
    {
      var k :| 0 <= k < |inputs| && inputs[k] == op;
      assert Recorded(SignersOf(inputs), inputs[k]) == op.account;
      assert CoinTextOf(op) in ByCoin(SignersOf(inputs));
    }
  }

  /** What two operations that are the same up to defaults share. */
  lemma CanonicalShares(a: POperation, b: POperation)
    requires CANONICAL(a) == CANONICAL(b)
    ensures a.amount == b.amount && a.account == b.account && CoinTextOf(a) == CoinTextOf(b)
  {
  }

  lemma {:induction false} DebitingMember(ops: seq<POperation>, op: POperation)
    requires HaveAmounts(ops)
    ensures op in Debiting(ops) <==> op in ops && op.amount.value.value < 0
  {
    if ops != [] {
      DebitingMember(ops[..|ops| - 1], op);
      assert ops == ops[..|ops| - 1] + [ops[|ops| - 1]];
    }
  }

  /** Parsed operations that are the given ones up to defaults debit the accounts on record. */
  lemma ParsedDebits(ops: seq<POperation>, inputs: seq<POperation>, outputs: seq<POperation>)
    requires multiset(Map(ops, CANONICAL)) == multiset(Map(inputs + outputs, CANONICAL))
    requires HaveAmounts(inputs) && HaveAmounts(outputs)
    requires forall op <- outputs :: op.amount.value.value >= 0
    requires forall op <- inputs :: op.account.Some?
    ensures HaveAmounts(ops)
    ensures forall i :: 0 <= i < |Debiting(ops)| ==> Debiting(ops)[i].account.Some? && HasCounterpart(inputs, Debiting(ops)[i])
  {
    hide Debiting, HasCounterpart;
    var given := inputs + outputs;
    assert forall k :: |inputs| <= k < |given| ==> given[k] in outputs;
    forall i | 0 <= i < |ops| ensures exists k :: 0 <= k < |given| && CANONICAL(ops[i]) == CANONICAL(given[k]) {
      assert Map(ops, CANONICAL)[i] in multiset(Map(given, CANONICAL));
      var k :| 0 <= k < |given| && Map(given, CANONICAL)[k] == CANONICAL(ops[i]);
      assert CANONICAL(ops[i]) == CANONICAL(given[k]);
    }
    forall i | 0 <= i < |ops| ensures ops[i].amount.Some? {
      var k :| 0 <= k < |given| && CANONICAL(ops[i]) == CANONICAL(given[k]);
      CanonicalShares(ops[i], given[k]);
    }
    forall i | 0 <= i < |Debiting(ops)| ensures Debiting(ops)[i].account.Some? && HasCounterpart(inputs, Debiting(ops)[i]) {
      var op := Debiting(ops)[i];
      DebitingMember(ops, op);
      var j :| 0 <= j < |ops| && ops[j] == op;
      var k :| 0 <= k < |given| && CANONICAL(op) == CANONICAL(given[k]);
      CanonicalShares(op, given[k]);
      IsCounterpart(inputs, op, k);
    }
  }

  lemma IsCounterpart(inputs: seq<POperation>, op: POperation, k: nat)
    requires k < |inputs| && inputs[k].account.Some? && CoinTextOf(inputs[k]) == CoinTextOf(op) && inputs[k].account == op.account
    ensures HasCounterpart(inputs, op) && op.account.Some?
  {
  }

  lemma CreditsArePositive(given: seq<POperation>)
    requires HaveAmounts(given)
    ensures HaveAmounts(Debiting(given)) && HaveAmounts(Crediting(given))
    ensures forall op <- Crediting(given) :: op.amount.Some? && op.amount.value.value >= 0
  {
    hide Crediting, Debiting;
  }

  /** Main result: a request whose debits name distinct coins, built into a transaction, parses with just the signers that
      payloads recorded for it; it comes back whole exactly when all its operations fit, and then the account on record
      for each debit that comes back is its own. The matcher takes the debits for inputs and the credits for outputs. */
  lemma PayloadsThenParse(ctx: Context, tx: Tx, kind: TxType, given: seq<POperation>, settings: Settings)
    returns (ops: seq<POperation>)
    requires Constructing(ctx, settings) && IsBuildable(kind)
    requires HaveAmounts(given) && ctx.accounts == CoinAccounts(SignersOf(Debiting(given)))
    requires DistinctCoinTexts(Debiting(given))
    requires forall op <- Debiting(given) :: op.account.Some? && InputError(op).None? && IsInputOp(op)
    requires forall op <- Crediting(given) :: OutputError(op).None?
    requires IsBuilt(tx.unsigned, kind, Debiting(given), Crediting(given), settings)
    requires kind == ExportAvax ==> settings.destination.value in ctx.cfg.chains
    ensures ParsesTo(ctx, tx, ops)
    ensures multiset(Map(ops, CANONICAL)) == multiset(Map(Debiting(given) + Crediting(given), CANONICAL)) <==>
            AllFit(ctx.cfg, kind, ExportChain(ctx, settings), Debiting(given), Crediting(given))
    ensures AllFit(ctx.cfg, kind, ExportChain(ctx, settings), Debiting(given), Crediting(given)) ==>
      && HaveAmounts(ops)
      && forall i :: 0 <= i < |Debiting(ops)| ==>
           Debiting(ops)[i].account.Some? && Recorded(SignersOf(Debiting(given)), Debiting(ops)[i]) == Debiting(ops)[i].account
  {
    hide ParsesTo, IsBuilt, InOrder, ExportChain, AllFit, InputError, OutputError, Map, Debiting, Crediting, ByCoin,
         SignersOf, CoinAccounts, Recorded, DistinctCoinTexts, AccountsKnown, Constructing;
    var inputs, outputs := Debiting(given), Crediting(given);
    PayloadAccountsKnown(ctx, given);
    CreditsArePositive(given);
    hide HaveAmounts;
    ops := RoundTripIff(ctx, tx, kind, inputs, outputs, settings);
    if AllFit(ctx.cfg, kind, ExportChain(ctx, settings), inputs, outputs) {
      ParsedDebits(ops, inputs, outputs);
      DebitsOnRecord(ops, inputs);
    }
  }

  lemma DebitsOnRecord(ops: seq<POperation>, inputs: seq<POperation>)
    requires HaveAmounts(ops) && DistinctCoinTexts(inputs)
    requires forall i :: 0 <= i < |Debiting(ops)| ==> HasCounterpart(inputs, Debiting(ops)[i])
    ensures forall i :: 0 <= i < |Debiting(ops)| ==> Recorded(SignersOf(inputs), Debiting(ops)[i]) == Debiting(ops)[i].account
  {
    hide Debiting, ByCoin;
    RecordRightIff(inputs);
    forall i | 0 <= i < |Debiting(ops)| ensures Recorded(SignersOf(inputs), Debiting(ops)[i]) == Debiting(ops)[i].account {
      var op := Debiting(ops)[i];
      var k :| 0 <= k < |inputs| && CoinTextOf(inputs[k]) == CoinTextOf(op) && inputs[k].account == op.account;
      assert Recorded(SignersOf(inputs), inputs[k]) == inputs[k].account;
    }
  }
}
