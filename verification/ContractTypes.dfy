/** The record keys of tasks/types.ts, and the switches over them. */
module ContractTypes {
  /** `Other` stands for a key that a JSON file may hold but the enumeration does not name. */
  datatype ContractName =
    | L1GatewayRouter | L1ERC20Gateway | L1CustomGateway | L1WethGateway
    | L2ERC20Gateway | L2GatewayRouter | L2CustomGateway | L2WethGateway
    | StandardArbERC20
    | Rollup | RollupAdminFacet | RollupUserFacet | RollupEventBridge
    | Node | Challenge | OneStepProof | OneStepProof2 | OneStepProofHash
    | Inbox | Bridge | SequencerInbox | Outbox | OldOutbox | OutboxEntry
    | Other(key: string)

  datatype UpgradeableType =
    | BeaconOwnedByEOA | BeaconOwnedByRollup | TransparentProxy | Proxy | UserFacet | AdminFacet

  function ProxyType(name: ContractName): UpgradeableType {
    match name
    case StandardArbERC20 => BeaconOwnedByEOA
    case Node => BeaconOwnedByRollup
    case Challenge => BeaconOwnedByRollup
    case OutboxEntry => BeaconOwnedByRollup
    case RollupAdminFacet => AdminFacet
    case RollupUserFacet => UserFacet
    case _ => TransparentProxy
  }

  predicate IsBeaconOwnedByEOA(name: ContractName) { ProxyType(name) == BeaconOwnedByEOA }

  predicate IsBeaconOwnedByRollup(name: ContractName) { ProxyType(name) == BeaconOwnedByRollup }

  predicate IsBeacon(name: ContractName) { IsBeaconOwnedByEOA(name) || IsBeaconOwnedByRollup(name) }

  predicate IsRollupUserFacet(name: ContractName) { ProxyType(name) == UserFacet }

  predicate IsRollupAdminFacet(name: ContractName) { ProxyType(name) == AdminFacet }

  predicate IsFacet(name: ContractName) { IsRollupAdminFacet(name) || IsRollupUserFacet(name) }

  function GetLayer(name: ContractName): nat {
    match name
    case L2ERC20Gateway => 2
    case L2GatewayRouter => 2
    case L2WethGateway => 2
    case L2CustomGateway => 2
    case StandardArbERC20 => 2
    case _ => 1
  }

  predicate HasPostInitHook(name: ContractName) {
    match name
    case L1GatewayRouter => true
    case L1ERC20Gateway => true
    case L1CustomGateway => true
    case L1WethGateway => true
    case L2ERC20Gateway => true
    case L2GatewayRouter => true
    case L2CustomGateway => true
    case L2WethGateway => true
    case Rollup => true
    case SequencerInbox => true
    case _ => false
  }

  /** Which names are which. A key that the enumeration does not name is a layer 1 proxy
      without a hook. */
  lemma Kinds(name: ContractName)
    ensures IsBeaconOwnedByEOA(name) <==> name == StandardArbERC20
    ensures IsBeaconOwnedByRollup(name) <==> name in {Node, Challenge, OutboxEntry}
    ensures IsBeacon(name) <==> name in {StandardArbERC20, Node, Challenge, OutboxEntry}
    ensures IsRollupAdminFacet(name) <==> name == RollupAdminFacet
    ensures IsRollupUserFacet(name) <==> name == RollupUserFacet
    ensures IsFacet(name) <==> name in {RollupAdminFacet, RollupUserFacet}
    ensures GetLayer(name) in {1, 2}
    ensures GetLayer(name) == 2 <==>
      name in {L2ERC20Gateway, L2GatewayRouter, L2WethGateway, L2CustomGateway, StandardArbERC20}
    ensures HasPostInitHook(name) <==>
      name in {L1GatewayRouter, L1ERC20Gateway, L1CustomGateway, L1WethGateway, L2ERC20Gateway, L2GatewayRouter,
               L2CustomGateway, L2WethGateway, Rollup, SequencerInbox}
  {
  }
}
