/** server/service/backend/pchain/account.go: getPendingRewardsBalance. */
module Rewards {
  import opened Rosetta
  import opened PChain
  import opened Sequences

  const SHARE_UNIT: int := 1_000_000

  datatype Delegator = Delegator(owners: seq<ShortId>, reward: uint64)

  /** share is the delegation fee in parts of SHARE_UNIT, after its conversion to an integer. */
  datatype Validator = Validator(owners: seq<ShortId>, reward: uint64, share: int, delegators: seq<Delegator>)

  /** big.Int's Div rounds as Dafny's division does. */
  function FeeOf(reward: uint64, share: int): int {
    reward * share / SHARE_UNIT
  }

  /** The fee is the share of the reward, in parts of a million, rounded down; a share between nothing and everything takes
      between nothing and the whole reward. */
  lemma FeeWithinReward(reward: uint64, share: int)
    ensures 1_000_000 * FeeOf(reward, share) <= reward * share < 1_000_000 * (FeeOf(reward, share) + 1)
    ensures 0 <= share <= 1_000_000 ==> 0 <= FeeOf(reward, share) <= reward
  {
    assert 0 <= share <= SHARE_UNIT ==> 0 <= reward * share <= reward * SHARE_UNIT by {
    }
  }

  // ----- what an address is told -----

  function FeeSum(ds: seq<Delegator>, share: int): int {
    if ds == [] then 0 else FeeSum(ds[..|ds| - 1], share) + FeeOf(ds[|ds| - 1].reward, share)
  }

  function DelegationSum(addr: ShortId, ds: seq<Delegator>, share: int): int {
    if ds == [] then 0
    else
      var d := ds[|ds| - 1];
      DelegationSum(addr, ds[..|ds| - 1], share) + if addr in d.owners then d.reward - FeeOf(d.reward, share) else 0
  }

  datatype Pending = Pending(validation: int, fees: int, delegation: int)
  {
    function Total(): int {
      validation + fees + delegation
    }
  }

  function PendingOf(addr: ShortId, vs: seq<Validator>): Pending {
    if vs == [] then Pending(0, 0, 0)
    else
      var v := vs[|vs| - 1];
      var p := PendingOf(addr, vs[..|vs| - 1]);
      var owns := addr in v.owners;
      Pending(p.validation + (if owns then v.reward else 0),
              p.fees + (if owns then FeeSum(v.delegators, v.share) else 0),
              p.delegation + DelegationSum(addr, v.delegators, v.share))
  }

  method PendingRewards(validators: seq<Validator>, addr: ShortId) returns (p: Pending, total: int)
    ensures p == PendingOf(addr, validators) && total == p.Total()
  {
    var validation, fees, delegation := 0, 0, 0;
    for i := 0 to |validators|
      invariant Pending(validation, fees, delegation) == PendingOf(addr, validators[..i])
    {
      assert validators[..i + 1][..i] == validators[..i];
      var v := validators[i];
      var isValidatorOwner := false;
      if addr in v.owners {
        validation := validation + v.reward;
        isValidatorOwner := true;
      }
      ghost var fees0, delegation0 := fees, delegation;
      for j := 0 to |v.delegators|
        invariant fees == fees0 + if isValidatorOwner then FeeSum(v.delegators[..j], v.share) else 0
        invariant delegation == delegation0 + DelegationSum(addr, v.delegators[..j], v.share)
      {
        assert v.delegators[..j + 1][..j] == v.delegators[..j];
        var d := v.delegators[j];
        var fee := d.reward * v.share / SHARE_UNIT;
        if isValidatorOwner {
          fees := fees + fee;
        }
        if addr in d.owners {
          delegation := delegation + (d.reward - fee);
        }
      }
      assert v.delegators[..|v.delegators|] == v.delegators;
    }
    assert validators[..|validators|] == validators;
    p := Pending(validation, fees, delegation);
    total := validation + fees + delegation;
  }

  /** What another validator, without delegators, changes: its owners are told its reward. */
  lemma OneMoreValidator(addr: ShortId, vs: seq<Validator>, v: Validator)
    requires v.delegators == []
    ensures PendingOf(addr, []) == Pending(0, 0, 0)
    ensures var before, after := PendingOf(addr, vs), PendingOf(addr, vs + [v]);
      && after.validation == before.validation + (if addr in v.owners then v.reward else 0)
      && after.fees == before.fees && after.delegation == before.delegation
  {
    assert (vs + [v])[..|vs|] == vs;
  }

  /** What another delegator changes: the owners of its validator are told the fee, and its own owners the rest. With
      OneMoreValidator this determines all figures. */
  lemma OneMoreDelegator(addr: ShortId, vs: seq<Validator>, v: Validator, d: Delegator, fee: int)
    requires 1_000_000 * fee <= d.reward * v.share < 1_000_000 * (fee + 1)
    ensures var more := v.(delegators := v.delegators + [d]);
      var before, after := PendingOf(addr, vs + [v]), PendingOf(addr, vs + [more]);
      && after.validation == before.validation
      && after.fees == before.fees + (if addr in v.owners then fee else 0)
      && after.delegation == before.delegation + (if addr in d.owners then d.reward - fee else 0)
  {
    var more := v.(delegators := v.delegators + [d]);
    assert (vs + [v])[..|vs|] == vs && (vs + [more])[..|vs|] == vs;
    assert more.delegators[..|v.delegators|] == v.delegators;
    FeeIsFloor(d.reward, v.share, fee);
    hide FeeOf;
  }

  lemma FeeIsFloor(reward: uint64, share: int, fee: int)
    requires 1_000_000 * fee <= reward * share < 1_000_000 * (fee + 1)
    ensures FeeOf(reward, share) == fee
  {
    FeeWithinReward(reward, share);
  }

  // ----- what there is to share out -----

  function DelegatorRewards(ds: seq<Delegator>): int {
    if ds == [] then 0 else DelegatorRewards(ds[..|ds| - 1]) + ds[|ds| - 1].reward
  }

  function AllRewards(vs: seq<Validator>): int {
    if vs == [] then 0
    else AllRewards(vs[..|vs| - 1]) + vs[|vs| - 1].reward + DelegatorRewards(vs[|vs| - 1].delegators)
  }

  /** Each reward once for every owner beyond the first, and once less for a reward without owners. */
  function DelegatorSurplus(ds: seq<Delegator>, share: int): int {
    if ds == [] then 0
    else
      var d := ds[|ds| - 1];
      DelegatorSurplus(ds[..|ds| - 1], share) + (Owners(d.owners) - 1) * (d.reward - FeeOf(d.reward, share))
  }

  function Surplus(vs: seq<Validator>): int {
    if vs == [] then 0
    else
      var v := vs[|vs| - 1];
      Surplus(vs[..|vs| - 1]) + (Owners(v.owners) - 1) * (v.reward + FeeSum(v.delegators, v.share)) + DelegatorSurplus(v.delegators, v.share)
  }

  function OwnerSet(owners: seq<ShortId>): set<ShortId> {
    set a | a in owners
  }

  function Owners(owners: seq<ShortId>): nat {
    |OwnerSet(owners)|
  }

  // ----- summing over addresses -----

  /** Every owner of a reward is among the addresses. */
  ghost predicate Covers(addrs: seq<ShortId>, vs: seq<Validator>) {
    forall v <- vs :: OwnersAmong(addrs, v.owners) && DelegatorsAmong(addrs, v.delegators)
  }

  ghost predicate OwnersAmong(addrs: seq<ShortId>, owners: seq<ShortId>) {
    forall a <- owners :: a in addrs
  }

  ghost predicate DelegatorsAmong(addrs: seq<ShortId>, ds: seq<Delegator>) {
    forall d <- ds :: OwnersAmong(addrs, d.owners)
  }

  function TotalOver(addrs: seq<ShortId>, vs: seq<Validator>): int {
    if addrs == [] then 0 else TotalOver(addrs[..|addrs| - 1], vs) + PendingOf(addrs[|addrs| - 1], vs).Total()
  }

  function DelegationOver(addrs: seq<ShortId>, ds: seq<Delegator>, share: int): int {
    if addrs == [] then 0 else DelegationOver(addrs[..|addrs| - 1], ds, share) + DelegationSum(addrs[|addrs| - 1], ds, share)
  }

  /** How many of the addresses are owners. */
  function OwningCount(addrs: seq<ShortId>, owners: seq<ShortId>): nat {
    if addrs == [] then 0 else OwningCount(addrs[..|addrs| - 1], owners) + if addrs[|addrs| - 1] in owners then 1 else 0
  }

  function Common(addrs: seq<ShortId>, owners: seq<ShortId>): set<ShortId> {
    set a | a in addrs && a in owners
  }

  lemma CommonSnoc(addrs: seq<ShortId>, last: ShortId, owners: seq<ShortId>)
    requires last !in addrs
    ensures |Common(addrs + [last], owners)| == |Common(addrs, owners)| + if last in owners then 1 else 0
  {
    var before := Common(addrs, owners);
    assert last !in before;
    assert Common(addrs + [last], owners) == if last in owners then before + {last} else before;
  }

  lemma {:induction false} OwningCountIs(addrs: seq<ShortId>, owners: seq<ShortId>)
    requires NoRepeats(addrs)
    ensures OwningCount(addrs, owners) == |Common(addrs, owners)|
  {
    if addrs == [] {
      assert Common(addrs, owners) == {};
    } else {
      var n := |addrs| - 1;
      OwningCountIs(addrs[..n], owners);
      assert addrs == addrs[..n] + [addrs[n]];
      CommonSnoc(addrs[..n], addrs[n], owners);
    }
  }

  lemma OwningCountCovers(addrs: seq<ShortId>, owners: seq<ShortId>)
    requires NoRepeats(addrs) && OwnersAmong(addrs, owners)
    ensures OwningCount(addrs, owners) == Owners(owners)
  {
    OwningCountIs(addrs, owners);
    assert Common(addrs, owners) == OwnerSet(owners);
  }

  lemma {:induction false} DelegationOverSnoc(addrs: seq<ShortId>, ds: seq<Delegator>, d: Delegator, share: int)
    ensures DelegationOver(addrs, ds + [d], share) ==
      DelegationOver(addrs, ds, share) + OwningCount(addrs, d.owners) * (d.reward - FeeOf(d.reward, share))
  {
    if addrs != [] {
      var net := d.reward - FeeOf(d.reward, share);
      hide FeeOf;
      var last, rest := addrs[|addrs| - 1], addrs[..|addrs| - 1];
      DelegationOverSnoc(rest, ds, d, share);
      assert (ds + [d])[..|ds|] == ds;
      OneMore(OwningCount(rest, d.owners), net);
    }
  }

  lemma OneMore(n: int, x: int)
    ensures (n + 1) * x == n * x + x
  {
  }

  lemma {:induction false} TotalOverSnoc(addrs: seq<ShortId>, vs: seq<Validator>, v: Validator)
    ensures TotalOver(addrs, vs + [v]) ==
      TotalOver(addrs, vs) + OwningCount(addrs, v.owners) * (v.reward + FeeSum(v.delegators, v.share))
      + DelegationOver(addrs, v.delegators, v.share)
  {
    hide FeeSum, DelegationSum;
    if addrs != [] {
      var own := v.reward + FeeSum(v.delegators, v.share);
      var last, rest := addrs[|addrs| - 1], addrs[..|addrs| - 1];
      TotalOverSnoc(rest, vs, v);
      assert (vs + [v])[..|vs|] == vs;
      OneMore(OwningCount(rest, v.owners), own);
    }
  }

  lemma NothingDelegated(addrs: seq<ShortId>, share: int)
    ensures DelegationOver(addrs, [], share) == 0
  {
  }

  lemma PendingOfNothing(addr: ShortId)
    ensures PendingOf(addr, []).Total() == 0
  {
  }

  lemma {:induction false} NothingPending(addrs: seq<ShortId>)
    ensures TotalOver(addrs, []) == 0
  {
    hide PendingOf, FeeOf, FeeSum, DelegationSum;
    if addrs != [] {
      NothingPending(addrs[..|addrs| - 1]);
      PendingOfNothing(addrs[|addrs| - 1]);
    }
  }

  /** Fees and net delegation rewards split the delegation rewards, rounding notwithstanding. */
  lemma {:induction false} DelegationShared(addrs: seq<ShortId>, ds: seq<Delegator>, share: int)
    requires NoRepeats(addrs) && DelegatorsAmong(addrs, ds)
    ensures DelegationOver(addrs, ds, share) + FeeSum(ds, share) == DelegatorRewards(ds) + DelegatorSurplus(ds, share)
  {
    if ds == [] {
      NothingDelegated(addrs, share);
    } else {
      var n := |ds| - 1;
      var d := ds[n];
      hide FeeOf, OwnerSet, OwningCount, DelegationOver, NoRepeats;
      DelegationShared(addrs, ds[..n], share);
      assert d in ds;
      DelegationOverSnoc(addrs, ds[..n], d, share);
      assert ds == ds[..n] + [d];
      OwningCountCovers(addrs, d.owners);
      OneMore(Owners(d.owners) - 1, d.reward - FeeOf(d.reward, share));
    }
  }

  /** Main result: over all distinct addresses the reported totals are the rewards, plus each reward again for every
      owner beyond the first (and less those without an owner). */
  lemma {:induction false} RewardsShared(addrs: seq<ShortId>, vs: seq<Validator>)
    requires NoRepeats(addrs) && Covers(addrs, vs)
    ensures TotalOver(addrs, vs) == AllRewards(vs) + Surplus(vs)
  {
    hide Owners, OwningCount, TotalOver, NoRepeats, FeeSum, DelegationOver, DelegatorRewards, DelegatorSurplus, FeeOf;
    if vs == [] {
      NothingPending(addrs);
    } else {
      var n := |vs| - 1;
      var v := vs[n];
      RewardsShared(addrs, vs[..n]);
      assert v in vs;
      TotalOverSnoc(addrs, vs[..n], v);
      assert vs == vs[..n] + [v];
      OwningCountCovers(addrs, v.owners);
      DelegationShared(addrs, v.delegators, v.share);
      OneMore(Owners(v.owners) - 1, v.reward + FeeSum(v.delegators, v.share));
    }
  }

  /** Every reward has someone to go to, and the delegation fee is a share. */
  ghost predicate Owned(vs: seq<Validator>) {
    forall v <- vs :: 0 <= v.share <= SHARE_UNIT && v.owners != [] && DelegatorsOwned(v.delegators)
  }

  ghost predicate DelegatorsOwned(ds: seq<Delegator>) {
    forall d <- ds :: d.owners != []
  }

  /** One owner, or nothing to be told twice. */
  predicate ToldOnce(owners: seq<ShortId>, amount: int) {
    Owners(owners) == 1 || amount == 0
  }

  ghost predicate DelegatorsToldOnce(ds: seq<Delegator>, share: int) {
    forall d <- ds :: ToldOnce(d.owners, d.reward - FeeOf(d.reward, share))
  }

  ghost predicate AllToldOnce(vs: seq<Validator>) {
    forall v <- vs :: ToldOnce(v.owners, v.reward + FeeSum(v.delegators, v.share)) && DelegatorsToldOnce(v.delegators, v.share)
  }

  lemma SomeOwner(owners: seq<ShortId>)
    requires owners != []
    ensures Owners(owners) >= 1
  {
    assert owners[0] in OwnerSet(owners);
  }

  /** A surplus is never negative, and is nothing exactly when the amount is told once. */
  lemma SurplusIff(n: int, amount: int)
    requires n >= 1 && amount >= 0
    ensures (n - 1) * amount >= 0
    ensures (n - 1) * amount == 0 <==> n == 1 || amount == 0
  {
  }

  lemma {:induction false} DelegatorSurplusIff(ds: seq<Delegator>, share: int)
    requires 0 <= share <= SHARE_UNIT && DelegatorsOwned(ds)
    ensures DelegatorSurplus(ds, share) >= 0 && FeeSum(ds, share) >= 0
    ensures DelegatorSurplus(ds, share) == 0 <==> DelegatorsToldOnce(ds, share)
  {
    hide FeeOf, Owners;
    if ds != [] {
      var before, d := ds[..|ds| - 1], ds[|ds| - 1];
      assert ds == before + [d];
      DelegatorSurplusIff(before, share);
      FeeWithinReward(d.reward, share);
      SomeOwner(d.owners);
      SurplusIff(Owners(d.owners), d.reward - FeeOf(d.reward, share));
    }
  }

  lemma {:induction false} SurplusIsNothingIff(vs: seq<Validator>)
    requires Owned(vs)
    ensures Surplus(vs) >= 0
    ensures Surplus(vs) == 0 <==> AllToldOnce(vs)
  {
    hide Owners, DelegatorsToldOnce, DelegatorsOwned, DelegatorSurplus, FeeSum;
    if vs != [] {
      var before, v := vs[..|vs| - 1], vs[|vs| - 1];
      assert vs == before + [v];
      SurplusIsNothingIff(before);
      SomeOwner(v.owners);
      DelegatorSurplusIff(v.delegators, v.share);
      SurplusIff(Owners(v.owners), v.reward + FeeSum(v.delegators, v.share));
    }
  }

  /** Main result: the reported totals over all owners are the rewards exactly when every reward that is worth something
      has one owner: each validator's, counted with its fees, and each delegator's, after the fee. */
  lemma RewardsConservedIff(addrs: seq<ShortId>, vs: seq<Validator>)
    requires NoRepeats(addrs) && Covers(addrs, vs) && Owned(vs)
    ensures TotalOver(addrs, vs) >= AllRewards(vs)
    ensures TotalOver(addrs, vs) == AllRewards(vs) <==> AllToldOnce(vs)
  {
    RewardsShared(addrs, vs);
    SurplusIsNothingIff(vs);
  }

  /** Two owners of a validator are each told the whole reward. */
  lemma TwoOwnersAreToldTwice(a: ShortId, b: ShortId, reward: uint64)
    requires a != b && reward > 0
    ensures var vs := [Validator([a, b], reward, 0, [])];
      TotalOver([a, b], vs) == 2 * reward && TotalOver([a, b], vs) != AllRewards(vs)
  {
    var v := Validator([a, b], reward, 0, []);
    assert [v][..0] == [] && [a, b][..1] == [a] && [a][..0] == [];
    assert PendingOf(a, [v]).Total() == reward && PendingOf(b, [v]).Total() == reward;
    assert TotalOver([a], [v]) == reward;
  }
}
