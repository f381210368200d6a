/** server/service/backend/pchain/account.go: filtering fetched UTXOs and adding up a balance. */
module PChainAccount {
  import opened Rosetta
  import opened PChain
  import opened Sequences

  /** Encoded UTXOs and outputs; the codec is a parameter. */
  type Raw = nat

  type UtxoCodec = Raw -> Option<Utxo>

  datatype FilterError = CannotParse | NoOutput

  // ----- parseAndFilterUTXOs -----

  /** An empty set of requested assets asks for all of them. */
  predicate Wanted(assets: set<Id>, u: Utxo) {
    assets == {} || u.asset in assets
  }

  method ParseAndFilter(raw: seq<Raw>, decode: UtxoCodec, assets: set<Id>) returns (r: Result<seq<Utxo>, FilterError>)
    ensures r == Filtered(raw, decode, assets)
  {
    NothingFiltered(decode, assets);
    hide Filtered, IdsSeen;
    var utxos: seq<Utxo>, ids: set<UtxoId> := [], {};
    assert raw[..0] == [];
    for i := 0 to |raw|
      invariant Filtered(raw[..i], decode, assets) == Ok(utxos)
      invariant ids == IdsSeen(raw[..i], decode, assets)
    {
      FilterTurn(raw, i, decode, assets);
      if decode(raw[i]).None? {
        return Err(CannotParse);
      }
      var utxo := decode(raw[i]).value;
      if |assets| > 0 && utxo.asset !in assets {
        continue;
      }
      if utxo.id in ids {
        continue;
      }
      ids := ids + {utxo.id};
      if !IsAddressable(utxo.out) {
        return Err(NoOutput);
      }
      if |Addresses(utxo.out)| > 1 {
        continue;
      }
      utxos := utxos + [utxo];
    }
    assert raw[..|raw|] == raw;
    return Ok(utxos);
  }

  /** The ids met so far among the wanted UTXOs. */
  function IdsSeen(raw: seq<Raw>, decode: UtxoCodec, assets: set<Id>): set<UtxoId> {
    if raw == [] then {}
    else
      var rest := IdsSeen(raw[..|raw| - 1], decode, assets);
      match decode(raw[|raw| - 1])
      case None => rest
      case Some(u) => if Wanted(assets, u) then rest + {u.id} else rest
  }

  /** Each wanted id counts the first time it is met. */
  function Filtered(raw: seq<Raw>, decode: UtxoCodec, assets: set<Id>): Result<seq<Utxo>, FilterError> {
    if raw == [] then Ok([])
    else
      match Filtered(raw[..|raw| - 1], decode, assets)
      case Err(e) => Err(e)
      case Ok(utxos) =>
        match decode(raw[|raw| - 1])
        case None => Err(CannotParse)
        case Some(u) =>
          if !Wanted(assets, u) || u.id in IdsSeen(raw[..|raw| - 1], decode, assets) then Ok(utxos)
          else if !IsAddressable(u.out) then Err(NoOutput)
          else if |Addresses(u.out)| > 1 then Ok(utxos)
          else Ok(utxos + [u])
  }

  lemma {:induction false} FailureStays(raw: seq<Raw>, n: nat, decode: UtxoCodec, assets: set<Id>)
    requires n <= |raw| && Filtered(raw[..n], decode, assets).Err?
    ensures Filtered(raw, decode, assets) == Filtered(raw[..n], decode, assets)
    decreases |raw| - n
  {
    if n == |raw| {
      assert raw[..n] == raw;
    } else {
      assert raw[..n + 1][..n] == raw[..n];
      FailureStays(raw, n + 1, decode, assets);
    }
  }

  /** Encodings of UTXOs with one id are encodings of one UTXO: what a ledger guarantees across pages. */
  ghost predicate OneUtxoPerId(raw: seq<Raw>, decode: UtxoCodec) {
    forall a, b :: a in raw && b in raw && decode(a).Some? && decode(b).Some? && decode(a).value.id == decode(b).value.id ==>
      decode(a) == decode(b)
  }

  /** A UTXO some encoding stands for, of a requested asset, that is not shared between addresses. */
  ghost predicate Held(raw: seq<Raw>, decode: UtxoCodec, assets: set<Id>, u: Utxo) {
    Some(u) in Map(raw, decode) && Wanted(assets, u) && |Addresses(u.out)| <= 1
  }

  ghost predicate Readable(raw: seq<Raw>, decode: UtxoCodec, assets: set<Id>) {
    forall a <- raw :: decode(a).Some? && (Wanted(assets, decode(a).value) ==> !decode(a).value.out.OtherOut?)
  }

  ghost predicate DistinctIds(utxos: seq<Utxo>) {
    forall i, j :: 0 <= i < j < |utxos| ==> utxos[i].id != utxos[j].id
  }

  lemma {:induction false} IdsSeenAre(raw: seq<Raw>, decode: UtxoCodec, assets: set<Id>, id: UtxoId)
    ensures id in IdsSeen(raw, decode, assets) <==>
            exists k :: 0 <= k < |raw| && decode(raw[k]).Some? && decode(raw[k]).value.id == id && Wanted(assets, decode(raw[k]).value)
  {
    if raw != [] {
      var n := |raw| - 1;
      IdsSeenAre(raw[..n], decode, assets, id);
      if k: nat :| k < n && decode(raw[k]).Some? && decode(raw[k]).value.id == id && Wanted(assets, decode(raw[k]).value) {
        assert raw[..n][k] == raw[k];
      }
    }
  }

  /** Main result: filtering succeeds exactly on readable data, and then lists every held UTXO once. */
  lemma {:induction false} FilterListsHeldOnce(raw: seq<Raw>, decode: UtxoCodec, assets: set<Id>)
    requires OneUtxoPerId(raw, decode)
    ensures Filtered(raw, decode, assets).Ok? <==> Readable(raw, decode, assets)
    ensures Filtered(raw, decode, assets).Ok? ==>
      var utxos := Filtered(raw, decode, assets).value;
      DistinctIds(utxos) && forall u :: u in utxos <==> Held(raw, decode, assets, u)
  {
    if raw != [] {
      var n := |raw| - 1;
      assert forall a <- raw[..n] :: a in raw;
      FilterListsHeldOnce(raw[..n], decode, assets);
      assert raw == raw[..n] + [raw[n]];
      if Filtered(raw[..n], decode, assets).Ok? && decode(raw[n]).Some? {
        FilterStep(raw[..n], raw[n], decode, assets);
      }
    }
  }

  /** One more encoding that is read. */
  function FilterOne(utxos: seq<Utxo>, seen: set<UtxoId>, u: Utxo, assets: set<Id>): Result<seq<Utxo>, FilterError> {
    if !Wanted(assets, u) || u.id in seen then Ok(utxos)
    else if !IsAddressable(u.out) then Err(NoOutput)
    else if |Addresses(u.out)| > 1 then Ok(utxos)
    else Ok(utxos + [u])
  }

  lemma NothingFiltered(decode: UtxoCodec, assets: set<Id>)
    ensures Filtered([], decode, assets) == Ok([]) && IdsSeen([], decode, assets) == {}
  {
  }

  /** One turn of the loop; an error is final. */
  lemma FilterTurn(raw: seq<Raw>, i: nat, decode: UtxoCodec, assets: set<Id>)
    requires i < |raw| && Filtered(raw[..i], decode, assets).Ok?
    ensures var utxos, seen, after := Filtered(raw[..i], decode, assets).value, IdsSeen(raw[..i], decode, assets), Filtered(raw[..i + 1], decode, assets);
      && after == (match decode(raw[i]) case None => Err(CannotParse) case Some(u) => FilterOne(utxos, seen, u, assets))
      && (after.Err? ==> Filtered(raw, decode, assets) == after)
      && IdsSeen(raw[..i + 1], decode, assets) ==
         if decode(raw[i]).Some? && Wanted(assets, decode(raw[i]).value) then seen + {decode(raw[i]).value.id} else seen
  {
    assert raw[..i + 1][..i] == raw[..i];
    if Filtered(raw[..i + 1], decode, assets).Err? {
      FailureStays(raw, i + 1, decode, assets);
    }
  }

  lemma FilterStep(before: seq<Raw>, last: Raw, decode: UtxoCodec, assets: set<Id>)
    requires OneUtxoPerId(before + [last], decode) && decode(last).Some?
    requires Filtered(before, decode, assets).Ok? && Readable(before, decode, assets)
    requires var utxos := Filtered(before, decode, assets).value;
      DistinctIds(utxos) && forall u :: u in utxos <==> Held(before, decode, assets, u)
    ensures var all := Filtered(before + [last], decode, assets);
      && (all.Ok? <==> Readable(before + [last], decode, assets))
      && (all.Ok? ==> DistinctIds(all.value) && forall u :: u in all.value <==> Held(before + [last], decode, assets, u))
  {
    hide ClassOf, Addresses, Map, IdsSeen;
    var raw, u := before + [last], decode(last).value;
    assert raw[..|before|] == before && raw[..|before| + 1] == raw;
    FilterTurn(raw, |before|, decode, assets);
    hide Filtered;
    IdsSeenAre(before, decode, assets, u.id);
    MapWithLast(before, last, decode);
    assert last in raw && forall a <- before :: a in raw;
    assert forall v :: Held(raw, decode, assets, v) <==>
      Held(before, decode, assets, v) || (v == u && Wanted(assets, u) && |Addresses(u.out)| <= 1);
    if Wanted(assets, u) {
      if u.id in IdsSeen(before, decode, assets) {
        var k :| 0 <= k < |before| && decode(before[k]).Some? && decode(before[k]).value.id == u.id && Wanted(assets, decode(before[k]).value);
        assert before[k] in raw && decode(before[k]) == decode(last);
        assert Map(before, decode)[k] == Some(u);
      } else {
        NotHeldYet(before, decode, assets, u.id);
      }
    }
  }

  lemma NotHeldYet(raw: seq<Raw>, decode: UtxoCodec, assets: set<Id>, id: UtxoId)
    requires id !in IdsSeen(raw, decode, assets)
    ensures forall u :: Held(raw, decode, assets, u) ==> u.id != id
  {
    IdsSeenAre(raw, decode, assets, id);
    forall u | Held(raw, decode, assets, u) ensures u.id != id {
      var k :| 0 <= k < |raw| && Map(raw, decode)[k] == Some(u);
      assert decode(raw[k]) == Some(u);
    }
  }

  // ----- getBalancesWithoutMultisig -----

  datatype Class = Unlocked | LockedStakeable | LockedNotStakeable | Ignored

  function ClassOf(out: Out, now: uint64): Class {
    match out
    case Transfer(o) => if o.locktime <= now then Unlocked else LockedNotStakeable
    case LockOut(locktime, Transfer(o)) =>
      if o.locktime > now then LockedNotStakeable else if locktime <= now then Unlocked else LockedStakeable
    case _ => Ignored
  }

  /** The amount of an output that is plain or locked once. */
  function CountedAmount(out: Out): uint64 {
    if PlainOut(out).Some? then PlainOut(out).value.amount else 0
  }

  /** The Amount method: a lock answers for what it holds. */
  function OutAmount(out: Out): Option<uint64> {
    match out
    case Transfer(o) => Some(o.amount)
    case LockOut(_, inner) => OutAmount(inner)
    case OtherOut => None
  }

  /** A lock has the amount of what it holds, however deep. */
  lemma AmountThroughLocks(out: Out, locktime: uint64, o: TransferOutput)
    ensures OutAmount(Transfer(o)) == Some(o.amount) && OutAmount(OtherOut) == None
    ensures OutAmount(LockOut(locktime, out)) == OutAmount(out)
  {
  }

  function ClassSum(utxos: seq<Utxo>, now: uint64, kind: Class): nat {
    if utxos == [] then 0
    else
      var last := utxos[|utxos| - 1].out;
      ClassSum(utxos[..|utxos| - 1], now, kind) + if ClassOf(last, now) == kind then CountedAmount(last) else 0
  }

  /** Everything that is counted before stake. */
  function TrueSum(utxos: seq<Utxo>, now: uint64): nat {
    ClassSum(utxos, now, Unlocked) + ClassSum(utxos, now, LockedStakeable) + ClassSum(utxos, now, LockedNotStakeable)
  }

  // ----- the same figures, told by locktimes -----

  /** The amount when every locktime around it has come. */
  function OpenAmount(out: Out, now: uint64): nat {
    match out
    case Transfer(o) => if o.locktime <= now then o.amount else 0
    case LockOut(locktime, Transfer(o)) => if locktime <= now && o.locktime <= now then o.amount else 0
    case _ => 0
  }

  /** The amount when the locktime of the lock around it is still to come, and its own has come. */
  function StakeableAmount(out: Out, now: uint64): nat {
    match out
    case LockOut(locktime, Transfer(o)) => if now < locktime && o.locktime <= now then o.amount else 0
    case _ => 0
  }

  /** The amount when its own locktime is still to come. */
  function TimedAmount(out: Out, now: uint64): nat {
    match out
    case Transfer(o) => if now < o.locktime then o.amount else 0
    case LockOut(_, Transfer(o)) => if now < o.locktime then o.amount else 0
    case _ => 0
  }

  /** The amount of a transfer, whatever its locktimes, inside one lock at most. */
  function PlainAmount(out: Out): nat {
    match out
    case Transfer(o) => o.amount
    case LockOut(_, Transfer(o)) => o.amount
    case _ => 0
  }

  function SumOf(utxos: seq<Utxo>, amount: Out -> nat): nat {
    if utxos == [] then 0 else SumOf(utxos[..|utxos| - 1], amount) + amount(utxos[|utxos| - 1].out)
  }

  function Open(now: uint64): Out -> nat { (out: Out) => OpenAmount(out, now) }

  function Stakeable(now: uint64): Out -> nat { (out: Out) => StakeableAmount(out, now) }

  function Timed(now: uint64): Out -> nat { (out: Out) => TimedAmount(out, now) }

  const PLAIN: Out -> nat := (out: Out) => PlainAmount(out)

  /** Each amount is in the class its locktimes say, and in one class only. */
  lemma ClassByLocktime(out: Out, now: uint64, kind: Class)
    ensures (if ClassOf(out, now) == kind then CountedAmount(out) else 0) ==
      match kind
      case Unlocked => OpenAmount(out, now)
      case LockedStakeable => StakeableAmount(out, now)
      case LockedNotStakeable => TimedAmount(out, now)
      case Ignored => 0
    ensures OpenAmount(out, now) + StakeableAmount(out, now) + TimedAmount(out, now) == PlainAmount(out)
  {
  }

  /** Main result: the three figures are the sums that the locktimes say, and together they are all there is in transfers
      inside one lock at most. */
  lemma {:induction false} FiguresByLocktime(utxos: seq<Utxo>, now: uint64)
    ensures ClassSum(utxos, now, Unlocked) == SumOf(utxos, Open(now))
    ensures ClassSum(utxos, now, LockedStakeable) == SumOf(utxos, Stakeable(now))
    ensures ClassSum(utxos, now, LockedNotStakeable) == SumOf(utxos, Timed(now))
    ensures TrueSum(utxos, now) == SumOf(utxos, PLAIN)
  {
    hide ClassOf, CountedAmount, OpenAmount, StakeableAmount, TimedAmount, PlainAmount;
    if utxos != [] {
      var out := utxos[|utxos| - 1].out;
      FiguresByLocktime(utxos[..|utxos| - 1], now);
      ClassByLocktime(out, now, Unlocked);
      ClassByLocktime(out, now, LockedStakeable);
      ClassByLocktime(out, now, LockedNotStakeable);
    }
  }

  datatype Balance = Balance(total: uint64, staked: uint64, unlocked: uint64, lockedStakeable: uint64, lockedNotStakeable: uint64)

  datatype BalanceError = Overflow | BadStake

  /** math.Add64. */
  function Add64(a: uint64, b: uint64): (r: Option<uint64>)
    ensures r.Some? <==> a + b < TWO_64
    ensures r.Some? ==> r.value == a + b
  {
    if a + b < TWO_64 then Some(a + b) else None
  }

  /** Main result: adding up succeeds exactly when the true sum fits in 64 bits, and then every figure is exact. */
  method GetBalances(utxos: seq<Utxo>, now: uint64) returns (r: Result<Balance, BalanceError>)
    ensures r.Ok? <==> SumOf(utxos, PLAIN) < TWO_64
    ensures r.Ok? ==>
      && r.value.unlocked == SumOf(utxos, Open(now))
      && r.value.lockedStakeable == SumOf(utxos, Stakeable(now))
      && r.value.lockedNotStakeable == SumOf(utxos, Timed(now))
      && r.value.total == SumOf(utxos, PLAIN) && r.value.staked == 0
      && r.value.total == r.value.unlocked + r.value.lockedStakeable + r.value.lockedNotStakeable
    ensures r.Err? ==> r.error == Overflow
  {
    hide ClassSum, SumOf;
    FiguresByLocktime(utxos, now);
    NothingCounted(now);
    assert utxos[..0] == [];
    var unlocked: uint64, stakeable: uint64, notStakeable: uint64 := 0, 0, 0;
    for i := 0 to |utxos|
      invariant unlocked == ClassSum(utxos[..i], now, Unlocked)
      invariant stakeable == ClassSum(utxos[..i], now, LockedStakeable)
      invariant notStakeable == ClassSum(utxos[..i], now, LockedNotStakeable)
    {
      TrueSumGrows(utxos, now, i + 1);
      ClassSumStep(utxos, now, i, Unlocked);
      ClassSumStep(utxos, now, i, LockedStakeable);
      ClassSumStep(utxos, now, i, LockedNotStakeable);
      match utxos[i].out {
        case Transfer(o) =>
          if o.locktime <= now {
            var sum := Add64(unlocked, o.amount);
            if sum.None? { return Err(Overflow); }
            unlocked := sum.value;
          } else {
            var sum := Add64(notStakeable, o.amount);
            if sum.None? { return Err(Overflow); }
            notStakeable := sum.value;
          }
        case LockOut(locktime, Transfer(o)) =>
          if o.locktime > now {
            var sum := Add64(notStakeable, o.amount);
            if sum.None? { return Err(Overflow); }
            notStakeable := sum.value;
          } else if locktime <= now {
            var sum := Add64(unlocked, o.amount);
            if sum.None? { return Err(Overflow); }
            unlocked := sum.value;
          } else {
            var sum := Add64(stakeable, o.amount);
            if sum.None? { return Err(Overflow); }
            stakeable := sum.value;
          }
        case _ =>
      }
    }
    assert utxos[..|utxos|] == utxos;
    var locked := Add64(stakeable, notStakeable);
    if locked.None? {
      return Err(Overflow);
    }
    var total := Add64(unlocked, locked.value);
    if total.None? {
      return Err(Overflow);
    }
    return Ok(Balance(total.value, 0, unlocked, stakeable, notStakeable));
  }

  lemma NothingCounted(now: uint64)
    ensures forall kind :: ClassSum([], now, kind) == 0
  {
  }

  lemma ClassSumStep(utxos: seq<Utxo>, now: uint64, i: nat, kind: Class)
    requires i < |utxos|
    ensures ClassSum(utxos[..i + 1], now, kind) ==
      ClassSum(utxos[..i], now, kind) + if ClassOf(utxos[i].out, now) == kind then CountedAmount(utxos[i].out) else 0
  {
    assert utxos[..i + 1][..i] == utxos[..i];
  }

  lemma {:induction false} TrueSumGrows(utxos: seq<Utxo>, now: uint64, n: nat)
    requires n <= |utxos|
    ensures TrueSum(utxos[..n], now) <= TrueSum(utxos, now)
    decreases |utxos| - n
  {
    if n == |utxos| {
      assert utxos[..n] == utxos;
    } else {
      assert utxos[..n + 1][..n] == utxos[..n];
      TrueSumGrows(utxos, now, n + 1);
    }
  }

  lemma ClassSumLast(utxos: seq<Utxo>, u: Utxo, now: uint64, kind: Class)
    ensures ClassSum(utxos + [u], now, kind) ==
      ClassSum(utxos, now, kind) + if ClassOf(u.out, now) == kind then CountedAmount(u.out) else 0
  {
    assert (utxos + [u])[..|utxos|] == utxos;
  }

  lemma {:induction false} ClassSumAppend(a: seq<Utxo>, b: seq<Utxo>, now: uint64, kind: Class)
    ensures ClassSum(a + b, now, kind) == ClassSum(a, now, kind) + ClassSum(b, now, kind)
    decreases |b|
  {
    if b == [] {
      assert a + b == a;
    } else {
      AppendAllButLast(a, b);
      ClassSumAppend(a, b[..|b| - 1], now, kind);
    }
  }

  lemma ClassSumWithout(utxos: seq<Utxo>, k: nat, now: uint64, kind: Class)
    requires k < |utxos|
    ensures ClassSum(utxos, now, kind) ==
      ClassSum(utxos[..k] + utxos[k + 1..], now, kind) + if ClassOf(utxos[k].out, now) == kind then CountedAmount(utxos[k].out) else 0
  {
    hide ClassSum, ClassOf, CountedAmount;
    AroundOne(utxos, k);
    ClassSumAppend(utxos[..k], utxos[k + 1..], now, kind);
    ClassSumAppend(utxos[..k] + [utxos[k]], utxos[k + 1..], now, kind);
    ClassSumLast(utxos[..k], utxos[k], now, kind);
  }

  /** The sums do not depend on the order of the UTXOs. */
  lemma {:induction false} ClassSumPermutation(a: seq<Utxo>, b: seq<Utxo>, now: uint64, kind: Class)
    requires multiset(a) == multiset(b)
    ensures ClassSum(a, now, kind) == ClassSum(b, now, kind)
    decreases |a|
  {
    hide ClassSum, ClassOf, CountedAmount;
    if a == [] {
      assert |multiset(a)| == |multiset(b)|;
    } else {
      var n := |a| - 1;
      assert a[n] in multiset(b);
      var k :| 0 <= k < |b| && b[k] == a[n];
      WithoutOne(a, n);
      WithoutOne(b, k);
      ClassSumPermutation(a[..n] + a[n + 1..], b[..k] + b[k + 1..], now, kind);
      ClassSumWithout(a, n, now, kind);
      ClassSumWithout(b, k, now, kind);
    }
  }

  // ----- pages that overlap -----

  lemma {:induction false} DistinctIdsPermutation(a: seq<Utxo>, b: seq<Utxo>)
    requires DistinctIds(a) && DistinctIds(b) && forall u :: u in a <==> u in b
    ensures multiset(a) == multiset(b)
  {
    forall u ensures multiset(a)[u] == multiset(b)[u] {
      AtMostOnce(a, u);
      AtMostOnce(b, u);
    }
  }

  /** Main result: whatever repetitions the pages bring, the sums are those of the held UTXOs taken once each. */
  lemma PagedSumsAreIdeal(raw: seq<Raw>, decode: UtxoCodec, assets: set<Id>, held: seq<Utxo>, now: uint64)
    requires OneUtxoPerId(raw, decode) && Readable(raw, decode, assets)
    requires DistinctIds(held) && forall u :: u in held <==> Held(raw, decode, assets, u)
    ensures Filtered(raw, decode, assets).Ok?
    ensures forall kind :: ClassSum(Filtered(raw, decode, assets).value, now, kind) == ClassSum(held, now, kind)
    ensures multiset(Filtered(raw, decode, assets).value) == multiset(held)
  {
    FilterListsHeldOnce(raw, decode, assets);
    var utxos := Filtered(raw, decode, assets).value;
    DistinctIdsPermutation(utxos, held);
    forall kind ensures ClassSum(utxos, now, kind) == ClassSum(held, now, kind) {
      ClassSumPermutation(utxos, held, now, kind);
    }
  }

  // ----- calculateStakedAmount and fetchBalance -----

  type OutputCodec = Raw -> Option<Output>

  /** The stake that counts in an output: what is plain or once locked and not shared. */
  function UnsharedStake(output: Option<Output>): nat {
    match output
    case None => 0
    case Some(o) =>
      if PlainOut(o.out).Some? && |PlainOut(o.out).value.addrs| <= 1 then PlainOut(o.out).value.amount else 0
  }

  function TrueStake(raw: seq<Raw>, decode: OutputCodec): nat {
    if raw == [] then 0
    else
      TrueStake(raw[..|raw| - 1], decode) + UnsharedStake(decode(raw[|raw| - 1]))
  }

  /** The same stake by shape: transfers inside one lock at most, to one address at most. */
  function UnsharedAmount(out: Out): nat {
    match out
    case Transfer(o) => if |o.addrs| <= 1 then o.amount else 0
    case LockOut(_, Transfer(o)) => if |o.addrs| <= 1 then o.amount else 0
    case _ => 0
  }

  function UnsharedSum(raw: seq<Raw>, decode: OutputCodec): nat {
    if raw == [] then 0
    else
      UnsharedSum(raw[..|raw| - 1], decode)
      + if decode(raw[|raw| - 1]).Some? then UnsharedAmount(decode(raw[|raw| - 1]).value.out) else 0
  }

  lemma {:induction false} StakeByShape(raw: seq<Raw>, decode: OutputCodec)
    ensures TrueStake(raw, decode) == UnsharedSum(raw, decode)
  {
    if raw != [] {
      StakeByShape(raw[..|raw| - 1], decode);
    }
  }

  predicate StakeReadable(raw: seq<Raw>, decode: OutputCodec) {
    forall a <- raw :: decode(a).Some? && (decode(a).value.out.Transfer? || (decode(a).value.out.LockOut? && decode(a).value.out.inner.Transfer?))
  }

  lemma AddWraps(a: int, b: int)
    ensures (a % TWO_64 + b) % TWO_64 == (a + b) % TWO_64
  {
  }

  /** A 64-bit sum and a wrapped one, added with wrap-around. */
  lemma TotalIsExactIff(sum: uint64, stake: nat)
    ensures var total, staked := (sum + stake % TWO_64) % TWO_64, stake % TWO_64;
      && total == (sum + stake) % TWO_64
      && (total == sum + stake <==> sum + stake < TWO_64)
      && (total == sum + staked <==> sum + staked < TWO_64)
  {
    AddWraps(stake, sum);
  }

  lemma StakeStep(raw: seq<Raw>, decode: OutputCodec, i: nat)
    requires i < |raw|
    ensures TrueStake(raw[..i + 1], decode) == TrueStake(raw[..i], decode) + UnsharedStake(decode(raw[i]))
  {
    assert raw[..i + 1][..i] == raw[..i];
  }

  /** The running total is a uint64 that is not checked for overflow. */
  method CalculateStaked(raw: seq<Raw>, decode: OutputCodec) returns (staked: Option<uint64>)
    ensures staked.Some? <==> StakeReadable(raw, decode)
    ensures staked.Some? ==> staked.value == UnsharedSum(raw, decode) % TWO_64
  {
    StakeByShape(raw, decode);
    var sum: uint64 := 0;
    assert raw[..0] == [];
    assert TrueStake([], decode) == 0;
    hide TrueStake;
    for i := 0 to |raw|
      invariant sum == TrueStake(raw[..i], decode) % TWO_64
      invariant StakeReadable(raw[..i], decode)
    {
      StakeStep(raw, decode, i);
      assert raw[i] in raw;
      if decode(raw[i]).None? {
        return None;
      }
      var out := PlainOut(decode(raw[i]).value.out);
      if out.None? {
        return None;
      }
      if |out.value.addrs| > 1 {
        continue;
      }
      AddWraps(TrueStake(raw[..i], decode), out.value.amount);
      sum := (sum + out.value.amount) % TWO_64;
    }
    assert raw[..|raw|] == raw;
    return Some(sum);
  }

  /** Main result: the reported total is exact precisely when unstaked and staked value together fit in 64 bits;
      nothing is reported only when the unstaked value alone overflows or the stake cannot be read. */
  method FetchBalance(utxos: seq<Utxo>, stake: seq<Raw>, decode: OutputCodec, now: uint64) returns (r: Result<Balance, BalanceError>)
    ensures r.Ok? <==> SumOf(utxos, PLAIN) < TWO_64 && StakeReadable(stake, decode)
    ensures r.Ok? ==>
      var all, staked := SumOf(utxos, PLAIN), UnsharedSum(stake, decode);
      && r.value.unlocked == SumOf(utxos, Open(now))
      && r.value.lockedStakeable == SumOf(utxos, Stakeable(now))
      && r.value.lockedNotStakeable == SumOf(utxos, Timed(now))
      && r.value.staked == staked % TWO_64
      && r.value.total == (all + staked) % TWO_64
      && (r.value.total == all + staked <==> all + staked < TWO_64)
      && (r.value.total == r.value.unlocked + r.value.lockedStakeable + r.value.lockedNotStakeable + r.value.staked <==>
          all + staked % TWO_64 < TWO_64)
  {
    hide SumOf, UnsharedSum, StakeReadable, TrueStake;
    r := GetBalances(utxos, now);
    if r.Err? {
      return;
    }
    var staked := CalculateStaked(stake, decode);
    if staked.None? {
      return Err(BadStake);
    }
    TotalIsExactIff(r.value.total, UnsharedSum(stake, decode));
    var total := (r.value.total + staked.value) % TWO_64;
    r := Ok(r.value.(staked := staked.value, total := total));
  }

  /** An account with 2^64 - 1 in one UTXO and 1 staked: the balance reported is 0. */
  lemma FullStakeReportsNothing(u: Utxo, raw: Raw, decode: OutputCodec, asset: Id, a: ShortId, now: uint64)
    requires u.out == Transfer(TransferOutput(TWO_64 - 1, 0, 1, [a]))
    requires decode(raw) == Some(Output(asset, Transfer(TransferOutput(1, 0, 1, [a]))))
    ensures SumOf([u], PLAIN) == TWO_64 - 1 && UnsharedSum([raw], decode) == 1 && StakeReadable([raw], decode)
    ensures (SumOf([u], PLAIN) + UnsharedSum([raw], decode)) % TWO_64 == 0
  {
    assert [u][..0] == [] && [raw][..0] == [];
    assert SumOf([], PLAIN) == 0 && UnsharedSum([], decode) == 0;
  }
}
