/** Deployment records, the chain as the upgrade scripts see it, and the two dispatch
    ladders over contract names: one that upgrades and one that verifies. */
module Deployment {
  import opened Wrappers
  import opened ContractTypes

  /** Addresses are compared as numbers. */
  type Address = nat

  datatype QueuedUpdate =
    QueuedUpdate(address: Address, deployTxn: string, commit: string, buildInfo: string)

  datatype Record =
    Record(proxy: Address, impl: Address, deployTxn: string, commit: string, buildInfo: string)

  datatype Deployments = Deployments(proxyAdmin: Address, contracts: map<ContractName, Record>)

  type Queue = map<ContractName, QueuedUpdate>

  /** The places that hold an implementation address. */
  datatype Slot =
    | ProxyImpl(proxy: Address)
    | BeaconImpl(beacon: Address)
    | AdminFacetOf(rollup: Address)
    | UserFacetOf(rollup: Address)

  /** `code` are the addresses that answer calls; unset storage reads as zero. */
  datatype Chain = Chain(
    impls: map<Slot, Address>,
    admins: map<Address, Address>,
    owners: map<Address, Address>,
    code: set<Address>
  ) {
    function Read(slot: Slot): Address { if slot in impls then impls[slot] else 0 }
    function AdminOf(proxy: Address): Address { if proxy in admins then admins[proxy] else 0 }
    function OwnerOf(target: Address): Address { if target in owners then owners[target] else 0 }
  }

  // ---------------------------------------------------------------- upgrading

  datatype Tx =
    | UpgradeTo(beacon: Address, impl: Address)
    | UpgradeBeacon(rollup: Address, beacon: Address, impl: Address)
    | SetFacets(rollup: Address, adminFacet: Address, userFacet: Address)
    | Upgrade(proxy: Address, impl: Address)
    | UpgradeAndCall(proxy: Address, impl: Address)

  /** The transaction that installs `u` for `name`; None where the source reads a
      property of a missing record and throws. */
  function TxFor(name: ContractName, u: QueuedUpdate, d: Deployments): Option<Tx>
    requires name in d.contracts
  {
    var c := d.contracts;
    if IsBeaconOwnedByEOA(name) then
      Some(UpgradeTo(c[name].proxy, u.address))
    else if IsBeaconOwnedByRollup(name) then
      if Rollup in c then Some(UpgradeBeacon(c[Rollup].proxy, c[name].proxy, u.address)) else None
    else if IsFacet(name) then
      if !IsRollupUserFacet(name) && RollupUserFacet !in c then None
      else if !IsRollupAdminFacet(name) && RollupAdminFacet !in c then None
      else if Rollup !in c then None
      else
        var userFacet := if IsRollupUserFacet(name) then u.address else c[RollupUserFacet].impl;
        var adminFacet := if IsRollupAdminFacet(name) then u.address else c[RollupAdminFacet].impl;
        Some(SetFacets(c[Rollup].proxy, adminFacet, userFacet))
    else if HasPostInitHook(name) then
      Some(UpgradeAndCall(c[name].proxy, u.address))
    else
      Some(Upgrade(c[name].proxy, u.address))
  }

  /** What an accepted transaction does. Only implementation slots change. */
  function Execute(chain: Chain, tx: Tx): Chain {
    match tx
    case UpgradeTo(b, i) => chain.(impls := chain.impls[BeaconImpl(b) := i])
    case UpgradeBeacon(_, b, i) => chain.(impls := chain.impls[BeaconImpl(b) := i])
    case SetFacets(r, a, u) => chain.(impls := chain.impls[AdminFacetOf(r) := a][UserFacetOf(r) := u])
    case Upgrade(p, i) => chain.(impls := chain.impls[ProxyImpl(p) := i])
    case UpgradeAndCall(p, i) => chain.(impls := chain.impls[ProxyImpl(p) := i])
  }

  function NewRecord(prior: Record, u: QueuedUpdate): Record {
    Record(prior.proxy, u.address, u.deployTxn, u.commit, "")
  }

  /** The record is that of the update `u`, on the given proxy. */
  predicate Carries(r: Record, proxy: Address, u: QueuedUpdate) {
    && r.proxy == proxy && r.impl == u.address && r.buildInfo == ""
    && r.deployTxn == u.deployTxn && r.commit == u.commit
  }

  // ---------------------------------------------------------------- verifying

  datatype Check = Throws | Passes | Fails

  /** One turn of the verification loop, for the record `d` in force for `name`. */
  function CheckRecord(name: ContractName, d: Record, current: Deployments, chain: Chain): Check {
    var c := current.contracts;
    if IsBeacon(name) then
      if d.proxy !in chain.code then Throws
      else if IsBeaconOwnedByRollup(name) && Rollup !in c then Throws
      else
        var expectedOwner :=
          if IsBeaconOwnedByRollup(name) then c[Rollup].proxy else chain.OwnerOf(current.proxyAdmin);
        if chain.Read(BeaconImpl(d.proxy)) == d.impl && chain.OwnerOf(d.proxy) == expectedOwner
        then Passes else Fails
    else if IsFacet(name) then
      if Rollup !in c || c[Rollup].proxy !in chain.code then Throws
      else
        var facet := if IsRollupUserFacet(name) then chain.Read(UserFacetOf(c[Rollup].proxy))
                     else chain.Read(AdminFacetOf(c[Rollup].proxy));
        if facet == d.impl then Passes else Fails
    else if chain.AdminOf(d.proxy) == current.proxyAdmin && chain.Read(ProxyImpl(d.proxy)) == d.impl
    then Passes else Fails
  }

  /** The tmp record when there is one, the current record otherwise. */
  function RecordFor(name: ContractName, current: Deployments, tmp: Option<Deployments>): Record
    requires name in current.contracts
  {
    if tmp.Some? && name in tmp.value.contracts then tmp.value.contracts[name]
    else current.contracts[name]
  }

  datatype Verdict = Threw | Verified(ok: bool)

  /** The verdict: a failed check does not stop the loop, a throw does. */
  ghost function Verify(current: Deployments, tmp: Option<Deployments>, chain: Chain): Verdict {
    if current.proxyAdmin !in chain.code then Threw
    else if exists n :: n in current.contracts
              && CheckRecord(n, RecordFor(n, current, tmp), current, chain) == Throws then Threw
    else Verified(forall n :: n in current.contracts ==>
                    CheckRecord(n, RecordFor(n, current, tmp), current, chain) == Passes)
  }

  // ------------------------------------------------- implementations and custody

  /** The slot that belongs to a record. A facet has one only if the Rollup is recorded. */
  function SlotOf(name: ContractName, c: map<ContractName, Record>): Option<Slot>
    requires name in c
  {
    match ProxyType(name)
    case BeaconOwnedByEOA => Some(BeaconImpl(c[name].proxy))
    case BeaconOwnedByRollup => Some(BeaconImpl(c[name].proxy))
    case AdminFacet => if Rollup in c then Some(AdminFacetOf(c[Rollup].proxy)) else None
    case UserFacet => if Rollup in c then Some(UserFacetOf(c[Rollup].proxy)) else None
    case _ => Some(ProxyImpl(c[name].proxy))
  }

  /** The chain runs the implementation that the record names. */
  predicate Agrees(name: ContractName, d: Deployments, chain: Chain)
    requires name in d.contracts
  {
    var slot := SlotOf(name, d.contracts);
    slot.Some? && chain.Read(slot.value) == d.contracts[name].impl
  }

  ghost predicate AgreeExcept(d: Deployments, chain: Chain, except: Option<ContractName>) {
    forall n :: n in d.contracts && except != Some(n) ==> Agrees(n, d, chain)
  }

  /** Everything the verifier tests besides implementations: who holds what. */
  ghost predicate Custody(d: Deployments, chain: Chain) {
    && d.proxyAdmin in chain.code
    && forall n :: n in d.contracts ==> InCustody(n, d, chain)
  }

  predicate InCustody(name: ContractName, d: Deployments, chain: Chain)
    requires name in d.contracts
  {
    var c := d.contracts;
    match ProxyType(name)
    case BeaconOwnedByEOA =>
      c[name].proxy in chain.code && chain.OwnerOf(c[name].proxy) == chain.OwnerOf(d.proxyAdmin)
    case BeaconOwnedByRollup =>
      c[name].proxy in chain.code && Rollup in c && chain.OwnerOf(c[name].proxy) == c[Rollup].proxy
    case AdminFacet => Rollup in c && c[Rollup].proxy in chain.code
    case UserFacet => Rollup in c && c[Rollup].proxy in chain.code
    case _ => chain.AdminOf(c[name].proxy) == d.proxyAdmin
  }

  /** Same keys, same proxies, same proxy admin. */
  ghost predicate SameLayout(a: Deployments, b: Deployments) {
    && a.proxyAdmin == b.proxyAdmin
    && a.contracts.Keys == b.contracts.Keys
    && forall n :: n in a.contracts ==> a.contracts[n].proxy == b.contracts[n].proxy
  }

  function InForce(current: Deployments, tmp: Option<Deployments>): Deployments {
    if tmp.Some? then tmp.value else current
  }

  /** No two records share an implementation slot. */
  ghost predicate DistinctSlots(c: map<ContractName, Record>) {
    forall n, m :: n in c && m in c && n != m && SlotOf(n, c).Some? ==> SlotOf(n, c) != SlotOf(m, c)
  }

  /** Verification succeeds exactly when every record in force agrees with the chain and
      everything else is in the expected hands. */
  lemma VerifiedIff(current: Deployments, tmp: Option<Deployments>, chain: Chain)
    requires tmp.Some? ==> SameLayout(tmp.value, current)
    ensures Verify(current, tmp, chain) == Verified(true)
       <==> Custody(current, chain) && AgreeExcept(InForce(current, tmp), chain, None)
  {
    var d := InForce(current, tmp);
    forall n | n in current.contracts
      ensures RecordFor(n, current, tmp) == d.contracts[n]
      ensures CheckRecord(n, d.contracts[n], current, chain) == Passes
         <==> InCustody(n, current, chain) && Agrees(n, d, chain)
    {
    }
  }

  /** The upgrade ladder and the verification ladder meet: an accepted upgrade of `name`
      writes the queued address where the verifier will look for it, and every other read
      is what it was -- for a facet, because the record re-supplies its sibling. */
  lemma UpgradeWritesOwnSlot(name: ContractName, u: QueuedUpdate, d: Deployments, chain: Chain)
    requires name in d.contracts && TxFor(name, u, d).Some?
    requires AgreeExcept(d, chain, Some(name))
    ensures SlotOf(name, d.contracts).Some?
    ensures var chain' := Execute(chain, TxFor(name, u, d).value);
            && chain' == chain.(impls := chain'.impls)
            && chain'.Read(SlotOf(name, d.contracts).value) == u.address
            && forall slot :: slot != SlotOf(name, d.contracts).value ==>
                 chain'.Read(slot) == chain.Read(slot)
  {
    hide HasPostInitHook;
    if IsFacet(name) {
      FacetWritesOwnSlot(name, u, d, chain);
    } else {
      hide AgreeExcept, Agrees;
    }
  }

  lemma FacetWritesOwnSlot(name: ContractName, u: QueuedUpdate, d: Deployments, chain: Chain)
    requires name in d.contracts && IsFacet(name) && TxFor(name, u, d).Some?
    requires AgreeExcept(d, chain, Some(name))
    ensures SlotOf(name, d.contracts).Some?
    ensures var chain' := Execute(chain, TxFor(name, u, d).value);
            && chain' == chain.(impls := chain'.impls)
            && chain'.Read(SlotOf(name, d.contracts).value) == u.address
            && forall slot :: slot != SlotOf(name, d.contracts).value ==>
                 chain'.Read(slot) == chain.Read(slot)
  {
    var sibling := if IsRollupUserFacet(name) then RollupAdminFacet else RollupUserFacet;
    assert Agrees(sibling, d, chain);
  }

  /** Each upgrade is asked of whoever holds the slot, as the verifier checks it: a beacon of
      its owner's key or of the Rollup, a facet of the Rollup, a proxy of the proxy admin --
      with the initialisation call exactly for the contracts that have the hook. */
  lemma TxGoesToHolder(name: ContractName, u: QueuedUpdate, d: Deployments, chain: Chain)
    requires name in d.contracts && TxFor(name, u, d).Some? && InCustody(name, d, chain)
    ensures var c := d.contracts;
      match TxFor(name, u, d).value
      case UpgradeTo(beacon, impl) =>
        && name == StandardArbERC20 && beacon == c[name].proxy && impl == u.address
        && chain.OwnerOf(beacon) == chain.OwnerOf(d.proxyAdmin)
      case UpgradeBeacon(rollup, beacon, impl) =>
        && name in {Node, Challenge, OutboxEntry} && beacon == c[name].proxy && impl == u.address
        && Rollup in c && rollup == c[Rollup].proxy == chain.OwnerOf(beacon)
      case SetFacets(rollup, adminFacet, userFacet) =>
        && Rollup in c && rollup == c[Rollup].proxy && rollup in chain.code
        && ((name == RollupAdminFacet && adminFacet == u.address
             && RollupUserFacet in c && userFacet == c[RollupUserFacet].impl)
            || (name == RollupUserFacet && userFacet == u.address
                && RollupAdminFacet in c && adminFacet == c[RollupAdminFacet].impl))
      case Upgrade(proxy, impl) =>
        && proxy == c[name].proxy && impl == u.address && chain.AdminOf(proxy) == d.proxyAdmin
        && !HasPostInitHook(name)
      case UpgradeAndCall(proxy, impl) =>
        && proxy == c[name].proxy && impl == u.address && chain.AdminOf(proxy) == d.proxyAdmin
        && HasPostInitHook(name)
  {
    Kinds(name);
  }

  /** A read that the check of this record makes has no contract, or no record, to go to. */
  predicate Unreadable(name: ContractName, proxy: Address, c: map<ContractName, Record>, chain: Chain) {
    || (IsBeacon(name) && proxy !in chain.code)
    || (IsBeaconOwnedByRollup(name) && Rollup !in c)
    || (IsFacet(name) && (Rollup !in c || c[Rollup].proxy !in chain.code))
  }

  /** Verification throws exactly if some read fails; otherwise it has a verdict. */
  lemma ThrowsIff(current: Deployments, tmp: Option<Deployments>, chain: Chain)
    requires tmp.Some? ==> SameLayout(tmp.value, current)
    ensures Verify(current, tmp, chain) == Threw <==>
      || current.proxyAdmin !in chain.code
      || exists n :: n in current.contracts
                     && Unreadable(n, current.contracts[n].proxy, current.contracts, chain)
  {
    forall n | n in current.contracts
      ensures CheckRecord(n, RecordFor(n, current, tmp), current, chain) == Throws
         <==> Unreadable(n, current.contracts[n].proxy, current.contracts, chain)
    {
    }
  }

  lemma SameSlots(a: Deployments, b: Deployments, name: ContractName)
    requires SameLayout(a, b) && name in a.contracts
    ensures SlotOf(name, a.contracts) == SlotOf(name, b.contracts)
  {
  }
}
