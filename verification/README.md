# Token bridge verification

A Dafny model of the parts of the Arbitrum token bridge repository where state, order and
arithmetic interact, with proofs over every input, every history and every interleaving.
`dafny verify dfyconfig.toml` checks the whole project.

## What is modelled

**The resumable upgrade scripts** (`ContractTypes`, `Deployment`, `Protocol`, `Atomicity`,
`Resume`, `Upgrader`). `updateImplementations` works on three files (current deployments, tmp
deployments, queued updates) and on the chain: proxy and beacon implementations, the two facets
of the Rollup, admins and owners. `Protocol` is the state machine over these four, with a step
for every persistent effect, a crash between any two effects, refused transactions, resumed runs
and new deployments. `Upgrader.UpgradeScripts` is the imperative form, with the source's loops
and file writes; each of its runs is proved to be a history of the machine. On top of this:

* safety over every history: at most one record in force disagrees with the chain. It is the one
  whose transaction has landed and whose tmp write has not: of the running process, or of the
  last process killed at that point. It is still queued, and no run does anything while it waits;
* the update is all or nothing, whatever the order of the queue, wherever processes die, however
  often they are resumed, and whenever something is deployed in between; no deployed update is lost
  and none is undone, also not a facet's by its sibling's;
* an uninterrupted run from a verified state succeeds, and any run that returns, resumed or not,
  has applied the whole queue and passes the final verification.

**The bridge** (`Ledger`, `Gateways`, `Bridge`, `Relays`, `BridgeLaws`, `Migration`). Two gateways
for one token pair, as classes with the contracts that callers rely on, joined by tickets and exits
in flight. The machine of `Bridge` interleaves deposits (also of tokens that take a fee on
transfer), relays, forced withdrawals, withdrawals, exit transfers, token transfers, mints and burns
by others, and the USDC migration. `Relays.TwoChains` runs the two contracts and carries their
messages; each of its calls is proved to be a step of the machine. Conservation holds over every
interleaving, and the users' guarantees follow from it.

**The routers** (`Routers`). The L1 and L2 gateway routers and the ticket queue between them. The
L1 router overwrites the gateway array in place, as the source does. After any interleaving of
calls and in-order deliveries the L2 router is the counterpart image of the L1 router as it was
after the same number of served calls.

**Address codecs** (`Hex`, `Addresses`). Aliasing modulo 2^160 and its printed form, and the
three separately written readers of an address in a storage word (the slots are those of EIP-1967).

**Fees** (`Fees`, `Retryables`). Rounding-up decimal scaling in its three written forms, the
allowance of `createTokenBridge`, and the prefunded inbox of fee-token chains.

## What the proofs found

Each entry names the exact condition and, where there is one, a lemma at an input that fails.

* The resume prompts are of the kind that yields a Boolean, but the answer is compared with the
  text `'Yes'` (tasks/index.ts:140-150). With the answers such a prompt can give, a tmp file ends
  every later run at once (`Protocol.ConfirmNeverResumes`). The other results take the answer as
  an input, accepted or not.
* A run with an empty queue throws, after it has created the tmp file. So a crash between the
  last queue write and the commit cannot be repaired by running again, unless an entry that the
  records do not know keeps the queue from being empty; it takes another deployment.
  `Resume.ResumableIff` states exactly which crashed updates re-runs alone can finish, and
  `Resume.CompletableIff` which can be completed at all, with deployments: those without a
  mismatch. `Resume.DeploymentReleases` is the way out of an empty queue, and
  `Resume.MismatchForever` says that there is none out of a mismatch. Inputs:
  `Resume.EarlyKillStrands` and `Resume.LateKillNeedsDeployment` for every single queued update,
  `Resume.KilledStatesReachable` for a concrete system.
* Escrow equals supply plus messages in flight exactly for histories without a gift to the escrow:
  tokens sent to the gateway, a withdrawal paid to the gateway itself, bridged tokens burned by a
  holder. In general it is larger by the sum of the gifts (`BridgeLaws.EscrowCoversClaims`). The
  same condition decides whether the migration leaves precisely what is owed
  (`Migration.MigrationLeavesWhatIsOwed`); that stays payable unless withdrawals are resumed or
  another amount is burned (`Migration.MigrationBurnsOnce`, `Migration.UnpausingBreaksCover`). Inputs: `BridgeLaws.DonationBreaksEquality` and
  `BridgeLaws.BurningBreaksEquality`.
* A forced withdrawal returns to the depositor if and only if the depositor owns the exit it
  creates (`BridgeLaws.ForcedWithdrawalReturns`): `transferExitAndCall` accepts numbers that do
  not exist yet. Input: `BridgeLaws.RedirectedBounceIsLost`.
* Router tickets delivered out of order: two orders of the same tickets leave the same L2 router
  if and only if they agree on the last write of every token and on the last default
  (`Routers.OrdersAgreeIff`). Input: `Routers.OutOfOrderBreaksMirror`.
* The telescoping of fee-token outlays holds for an inbox that sends on each ticket's fee. For the
  repository's mock, which sends on all it has, it holds exactly when the first ticket created uses
  up the prefunding or every later attempt is for nothing or refused
  (`Retryables.MockTelescopesIff`). Input: `Retryables.MockSweepsPrefunding`.

## Assumptions

The upgrade results assume distinct implementation slots per record (`DistinctSlots`), for
liveness also that the records each upgrade reads are there (`AllHaveMechanisms`), and that
upgrades change implementations only. One script process runs at a time, and a transaction takes
effect before or after a crash, not later. The histories of the bridge start
from `Fresh` (nothing bridged, nothing in flight) or from any balanced world.

## Model

| member | source | states |
|---|---|---|
| Deployment.VerifiedIff | tasks/index.ts:418-546 | verification returns true if and only if every record in force names what the chain runs and every proxy, beacon and facet is in the expected hands |
| Deployment.ThrowsIff | tasks/index.ts:432-490 | verification throws if and only if the proxy admin, a beacon, or the Rollup that a facet or beacon needs, is not there to be read |
| ContractTypes.Kinds | tasks/types.ts:64-125 | which names are beacons of a key or of the Rollup, which are facets, which belong to layer 2 and which have the initialisation hook; any other key is a layer 1 proxy without a hook |
| Deployment.TxGoesToHolder | tasks/index.ts:331-387 | each upgrade is asked of the holder that the verifier expects, for the contract's own proxy and with the queued address: beacon, Rollup, facets with the recorded sibling, or proxy admin, with the hook call exactly where there is a hook |
| Deployment.UpgradeWritesOwnSlot | tasks/index.ts:331-387 | the upgrade ladder and the verification ladder agree: an accepted upgrade puts the queued address where the verifier looks for that contract, and changes no other read, whichever of the mechanisms of tasks/types.ts applies |
| Protocol.SafeStep | tasks/index.ts:248-416 | every step (start, effect, refused transaction, crash, deployment) keeps the invariant that files mirror the process and only the contract in flight may differ from the chain |
| Protocol.SafeForever | tasks/index.ts:248-416 | so does every history |
| Protocol.AtMostOneMismatch | tasks/index.ts:248-413 | after any history at most one record in force disagrees with the chain: the one in flight, or the one whose process was killed between its transaction and its tmp write and since when no run has had an effect; it is still queued, without new deployments under the very address the chain runs; and while it waits every new run leaves everything as it is |
| Protocol.MismatchOrigin | tasks/index.ts:388-404 | a mismatch without a process identifies the step of the history at which that contract was in flight and its process was killed |
| Protocol.ConfirmNeverResumes | tasks/index.ts:129-157 | with any answer but the text 'Yes', and so with all that a confirm prompt can give, a tmp file makes every run stop without an effect |
| Atomicity.BetweenStep | tasks/index.ts:319-413 | every step keeps the system between the base state and the fully applied queue |
| Atomicity.AllOrNothing | tasks/index.ts:319-413 | over histories without new deployments: with no tmp file left, either nothing has changed, or every recognised entry is applied in records (queued address, transaction and commit, same proxy), queue and chain, and nothing else is |
| Atomicity.SnapshotAtRest | tasks/index.ts:166-416 | over every history, deployments included: with no tmp file left, the records are the original ones or hold, for some point of the history, exactly the last updates accepted before it; and the chain runs them |
| Atomicity.NothingUndone | tasks/index.ts:166-416 | over every history, deployments included, and at any time: the last update accepted for a recorded contract is still queued, or on record with its address, transaction and commit and run by the chain; no later setFacets undoes a facet |
| Atomicity.CompletedHistoriesAgree | tasks/index.ts:317 | two completed histories of one queue, without new deployments but with any sort orders, crashes and resumptions, leave the same files and the same implementations |
| Resume.UpdateSucceeds | tasks/index.ts:248-416 | from a verified state without a tmp file, a run whose transactions are all accepted applies the whole queue, for every order, and its last verification is a success |
| Resume.FinishedVerifies | tasks/index.ts:411-415 | a finished update of a verified state verifies, for every contract kind |
| Resume.FullRunFinishes | tasks/index.ts:319-413 | from any point of an interrupted update with no mismatch and a non-empty queue, one full run finishes it (no deployments since the base state) |
| Resume.Stranded | tasks/index.ts:308-313 | with a tmp file, a mismatch or an empty queue makes every further run a no-op, as long as nothing is deployed |
| Resume.ResumableIff | tasks/index.ts:308-413 | a crashed update can be finished by re-runs alone if and only if there is no mismatch and something is still queued |
| Resume.MismatchForever | tasks/index.ts:248-256 | once a contract runs what its record in force does not name, no history, deployments included, changes anything but the queue |
| Resume.DeploymentReleases | tasks/index.ts:308-328 | an update waiting with an empty queue and no mismatch is completed by deploying anything the records do not know and running once; the chain is untouched |
| Resume.CompletableIff | tasks/index.ts:166-416 | a crashed update can be completed by some history of runs and deployments if and only if there is no mismatch |
| Resume.EarlyKillStrands | tasks/index.ts:388-404 | a kill between the transaction and the tmp write of a single queued update with a new address leaves a mismatch, and nothing but the queue ever changes again |
| Resume.LateKillNeedsDeployment | tasks/index.ts:406-413 | a kill between the last queue write and the commit leaves everything applied but the current file; no re-run commits it, any deployment of an unrecorded contract and a run do |
| Resume.KilledStatesReachable | tasks/index.ts:308-413 | both states are reachable from a concrete verified system; re-runs finish neither, and deployments only the second |
| Resume.LoopHead | tasks/index.ts:319-409 | at every loop head, each visited recognised contract is dequeued and its record has exactly the queued address, transaction and commit, no build information and the old proxy; all others are queued with their old record |
| Upgrader.UpgradeScripts.VerifyCurrentImplementations | tasks/index.ts:418-546 | the loop with its success flag computes the verdict; it exits if a tmp file is not accepted and fails if a read throws |
| Upgrader.UpgradeScripts.DeployLogic | tasks/index.ts:166-246 | every request is skipped if already queued and not to be redeployed, or deployed on its layer, up to the first that can be neither; the queue holds the last deployment of every name and is otherwise what it was |
| Upgrader.UpgradeScripts.UpdateImplementations | tasks/index.ts:248-416 | every run is a history of the machine with its own answers, signer and accepted transactions; a prompt that is not accepted or a failed verification ends it without an effect, another signer or an empty queue with no effect but the tmp file; no refused contract is touched; it returns if and only if nothing stands in the way and it lives long enough, and then it has applied the whole queue to the records in force and returns true, resumed or not |
| Upgrader.UpgradeScripts.UpdateEach | tasks/index.ts:319-409 | the loop gets to the commit if and only if every recorded contract can be upgraded and is accepted and the process lives for three effects each; it touches no contract that is refused |
| Upgrader.UpgradeScripts.Install | tasks/index.ts:388-407 | transaction, tmp write and queue write, in this order, each of which may be the last |
| Upgrader.UpgradeScripts.Commit | tasks/index.ts:410-415 | commit and unlink; after any history whose custody was right the result verifies, and after one run, resumed or not, it is finished |
| Upgrader.DeployedAll | tasks/index.ts:188-245 | deployments that all succeed queue each contract under the address deployed for it, and keep all other entries |
| Upgrader.DeployAllThenUpdate | tasks/index.ts:548-555 | deploying all recorded contracts and updating leaves each running exactly the address deployed for it, recorded with its transaction and commit on the same proxy, and none of them queued |
| Gateways.L1Gateway.OutboundTransfer | contracts/tokenbridge/ethereum/gateway/L1ArbitrumGateway.sol:239-305 | a deposit is refused for pause, extra data, allowance or balance if and only if one of these fails, and then without a trace; otherwise the ticket promises what the escrow gained, the depositor pays, and no other balance or allowance moves |
| Gateways.L1Gateway.FinalizeInboundTransfer | contracts/tokenbridge/ethereum/gateway/L1ArbitrumGateway.sol:104-146 | the exit's current owner gets the amount from escrow if and only if escrow covers it; otherwise nothing changes; the total is conserved |
| Gateways.L1Gateway.TransferExitAndCall | contracts/tokenbridge/ethereum/gateway/L1ArbitrumExtendedGateway.sol:64-100 | accepted if and only if the sender is whom the exit was last transferred to, or else its initial destination, no new data is given, and hook data goes to a contract that takes it; otherwise the redirections are restored |
| Gateways.L1Gateway.BurnLockedUSDC | contracts/tokenbridge/ethereum/gateway/L1USDCGateway.sol:142-157 | succeeds if and only if the burner calls it, deposits are paused and an amount is set that escrow covers; then exactly that amount is gone from escrow and the amount is cleared; otherwise nothing changes |
| Gateways.L1Gateway.SetBurnAmount | contracts/tokenbridge/ethereum/gateway/L1USDCGateway.sol:130-133 | only the owner sets the burn amount |
| Gateways.L1Gateway.PauseDeposits | contracts/tokenbridge/ethereum/gateway/L1USDCGateway.sol:96-103 | only the owner pauses, and only once |
| Gateways.L2Gateway.FinalizeInboundTransfer | contracts/tokenbridge/arbitrum/gateway/L2ArbitrumGateway.sol:227-269 | the whole deposit goes to the recipient, adding as much to the supply, or into a withdrawal for the depositor under the next exit number, adding nothing |
| Gateways.L2Gateway.OutboundTransfer | contracts/tokenbridge/arbitrum/gateway/L2ArbitrumGateway.sol:133-205 | a withdrawal is refused exactly for the named reasons and then without a trace; otherwise the exit releases what left the supply, from the holder alone |
| Relays.TwoChains.Deposit | contracts/tokenbridge/ethereum/gateway/L1ArbitrumGateway.sol:239-292 | a call of the L1 gateway is a step of the machine, and what it sends is in flight under the next number |
| Relays.TwoChains.ProcessL1ToL2 | test/testhelper.ts:26-65 | relaying a ticket to the L2 gateway is a step of the machine; the ticket is gone |
| Relays.TwoChains.Withdraw | contracts/tokenbridge/arbitrum/gateway/L2ArbitrumGateway.sol:133-191 | a call of the L2 gateway is a step of the machine, and what it sends is in flight under its exit number |
| Relays.TwoChains.ProcessL2ToL1 | test/testhelper.ts:91-119 | relaying an exit to the L1 gateway is a step of the machine, which succeeds if and only if escrow covers it |
| Relays.TwoChains.DepositAndRelay | test/canonicalBridge.e2e.ts:124-189 | a deposit relayed at once is two steps, and keeps the books balanced |
| Relays.TwoChains.SetDepositsPaused | contracts/tokenbridge/ethereum/gateway/L1USDCGateway.sol:96-115 | pausing and resuming deposits is a step of the machine, by the owner |
| Relays.TwoChains.SetWithdrawalsPaused | contracts/tokenbridge/arbitrum/gateway/L2USDCGateway.sol:86-103 | so is pausing and resuming withdrawals |
| Bridge.BalancedStep | test/testhelper.ts:26-119 | every step of users, relayers and administrators keeps the books balanced |
| Bridge.Conservation | test/canonicalBridge.e2e.ts:124-346 | over every interleaving, escrow + minted by others + burned = L2 supply + tickets in flight + exits in flight + surplus, and escrow + released + burned = taken in |
| BridgeLaws.SurplusIsGifts | contracts/tokenbridge/ethereum/gateway/L1ArbitrumGateway.sol:139-146 | the surplus of a history is the sum of its gifts to the escrow, and zero if and only if no step makes one |
| BridgeLaws.EscrowCoversClaims | test/canonicalBridge.e2e.ts:124-346 | for a token only the bridge mints, escrow is supply plus all messages in flight plus the gifts of the history; it covers the claims, and equals them if and only if no step of the history is a gift |
| BridgeLaws.DonationBreaksEquality | contracts/tokenbridge/ethereum/gateway/L1ArbitrumGateway.sol:139-146 | a donation after which escrow and claims differ |
| BridgeLaws.BurningBreaksEquality | contracts/tokenbridge/arbitrum/gateway/L2ArbitrumGateway.sol:193-205 | a holder's burn after which escrow and claims differ |
| BridgeLaws.EveryExitPayable | test/customGateway.e2e.ts:162-231 | for such a token every withdrawal in flight can be paid, in any order, and paying it moves exactly its amount from escrow to its owner |
| BridgeLaws.ReleasesAreCollateralised | test/customGateway.e2e.ts:310-430 | with tokens minted on L2 at will, releases never exceed what escrow took in; an exit is paid exactly when escrow covers it and otherwise nothing changes |
| BridgeLaws.MessagesOnce | contracts/tokenbridge/arbitrum/gateway/L2ArbitrumGateway.sol:174-191 | exit and ticket numbers are never reused, messages never altered, a delivered one never returns, and one that is in flight stays so until its own relay |
| BridgeLaws.DepositArrives | test/canonicalBridge.e2e.ts:124-189 | a deposit and its relay credit the recipient with what escrow received, and move no other balance |
| BridgeLaws.WithdrawalArrives | test/canonicalBridge.e2e.ts:191-232 | a covered withdrawal and its relay pay the owner of the new exit and move no other balance |
| BridgeLaws.RoundTrip | test/canonicalBridge.e2e.ts:124-232 | deposit, relay, withdrawal, relay leave every L2 balance and every message in flight as before, and every L1 balance if and only if the depositor owns the new exit or the amount is zero |
| BridgeLaws.ForcedWithdrawalReturns | test/canonicalBridge.e2e.ts:277-346 | a deposit whose L2 token is missing leaves every L1 balance as before if and only if the depositor owns the exit it creates or the amount is zero; otherwise that owner has the amount; only the allowance is spent |
| BridgeLaws.BounceInterleaved | test/canonicalBridge.e2e.ts:277-346 | with any other steps between deposit, bounce and release, the exit carries exactly what escrow gained, and its release pays whom the depositor last passed it on to, if and only if escrow covers it; for a token only the bridge mints it does |
| BridgeLaws.RedirectedBounceIsLost | contracts/tokenbridge/ethereum/gateway/L1ArbitrumExtendedGateway.sol:64-100 | a forced withdrawal that goes to another account, since its number was given away before it existed |
| BridgeLaws.ExitCustody | test-foundry/L1ArbitrumExtendedGateway.t.sol:33-111 | over any history an exit has one owner, the destination of its last accepted transfer; each transfer is made by the owner at the time, and calls for other exits play no part |
| BridgeLaws.TransferRefusedIff | test-foundry/L1ArbitrumExtendedGateway.t.sol:171-236 | refused transfers change nothing, and of the accepted only a repeated one to oneself does not |
| BridgeLaws.PayoutFollowsCustody | test/canonicalBridge.l1.ts:294-364 | after any history a relayed withdrawal pays the last destination of its exit's transfers if escrow covers it, and otherwise changes nothing |
| Migration.BurnExactIff | contracts/tokenbridge/ethereum/gateway/L1USDCGateway.sol:125-157 | burning the L2 supply leaves precisely what withdrawals in flight are owed if and only if deposits in flight and surplus weigh up foreign mints and earlier burns |
| Migration.DrainedStays | test-e2e/orbitTokenBridge.ts:900-916 | once paused and drained, no relay, exit transfer or token transfer changes supply or burn amount |
| Migration.MigrationLeavesWhatIsOwed | test-e2e/orbitTokenBridge.ts:872-1002 | pause, drain, set the burn amount to the supply, then burn: L2 balances are untouched, escrow keeps what withdrawals in flight are owed plus the gifts, so each can still be paid, and precisely what they are owed if and only if no step was a gift |
| Migration.MigrationBurnsOnce | contracts/tokenbridge/ethereum/gateway/L1USDCGateway.sol:135-157 | after the migration no history that sets no other amount and does not resume withdrawals burns again, and every withdrawal in flight can be paid at any time |
| Migration.NeverBurnsAgain | contracts/tokenbridge/ethereum/gateway/L1USDCGateway.sol:149-155 | without another amount set, no history whatsoever burns again |
| Migration.UnpausingBreaksCover | contracts/tokenbridge/arbitrum/gateway/L2USDCGateway.sol:97-103 | resuming withdrawals after the burn can leave a withdrawal that was in flight without cover |
| Routers.L1Router.UpdateGateways | contracts/tokenbridge/ethereum/gateway/L1GatewayRouter.sol:229-276 | served if and only if the arrays match, every entry is zero, disabled or handled by a gateway with a counterpart, and the fee is paid; then each token has the gateway of its last mention, no other route or default changes, and the array, which is the ticket, holds the counterparts; a revert writes nothing |
| Routers.L1Router.SetGateways | contracts/tokenbridge/ethereum/gateway/L1GatewayRouter.sol:208-227 | the same, if and only if the owner calls |
| Routers.L1Router.SetGateway | contracts/tokenbridge/ethereum/gateway/L1GatewayRouter.sol:169-206 | served if and only if the token is enabled, the gateway a contract that handles it, and its present gateway none, the default or the same; then exactly its own route is set |
| Routers.L1Router.SetDefaultGateway | contracts/tokenbridge/ethereum/gateway/L1GatewayRouter.sol:65-117 | refused exactly for the named reasons; otherwise the tokens without a route of their own follow the new default and no others, and delivering the ticket restores the mirror |
| Routers.L2Router.SetGateway | contracts/tokenbridge/arbitrum/gateway/L2GatewayRouter.sol:43-54 | only the aliased L1 router writes; then each token has the gateway of its last mention and no other route or the default changes |
| Routers.AssignedOnBothSides | contracts/tokenbridge/ethereum/gateway/L1GatewayRouter.sol:240-255 | after a served assignment and its delivery, L1 routes each token to the gateway of its last mention and L2 to that gateway's counterpart |
| Routers.OwnRouteDecides | contracts/tokenbridge/libraries/gateway/GatewayRouter.sol:108-122 | a token with a route of its own goes there, or nowhere if that is disabled or no contract |
| Routers.DefaultDecides | contracts/tokenbridge/libraries/gateway/GatewayRouter.sol:108-122 | any other token goes to the default on the same conditions |
| Routers.L2Router.SetDefaultGateway | contracts/tokenbridge/arbitrum/gateway/L2GatewayRouter.sol:65-68 | of all L1 senders only the counterpart gets through, and then exactly the tokens without a route of their own follow the new default |
| Routers.OnlyTheCounterpartPasses | test-foundry/L2GatewayRouter.t.sol:84-114 | of all L1 addresses exactly the counterpart passes the check |
| Routers.ServeMirrors | test-foundry/L1GatewayRouter.t.sol:113-204 | a served call and its ticket keep the L2 router the image of the L1 router |
| Routers.MirrorAfterEachTicket | test-foundry/L1GatewayRouter.t.sol:456-635 | over every interleaving, after k tickets the L2 router is the image of the L1 router after its k-th served call |
| Routers.RoutesCorrespond | contracts/tokenbridge/libraries/gateway/GatewayRouter.sol:108-122 | while mirrored, withdrawals of a token go through the counterpart of its deposit gateway, and through none when deposits have none |
| Routers.OrderMattersIff | contracts/tokenbridge/arbitrum/gateway/L2GatewayRouter.sol:43-68 | swapping two tickets changes the L2 router exactly if they write a token, or the default, differently |
| Routers.OrdersAgreeIff | contracts/tokenbridge/arbitrum/gateway/L2GatewayRouter.sol:43-68 | two orders of the same tickets leave the same L2 router if and only if every token, and the default, has the same last write |
| Routers.OutOfOrderBreaksMirror | contracts/tokenbridge/ethereum/gateway/L1GatewayRouter.sol:81-117 | two tickets the L1 router sends that mirror it in order and do not when swapped |
| Routers.TokenCannotMove | contracts/tokenbridge/ethereum/gateway/L1GatewayRouter.sol:184-188 | a token with a gateway of its own cannot change any route by registering again |
| Addresses.AliasBijection | contracts/tokenbridge/libraries/AddressAliasHelper.sol:28-42 | aliasing and its removal are inverse on all 160-bit addresses |
| Addresses.AliasVectors | test/canonicalBridge.l2.ts:384-393 | the repository's vectors hold |
| Addresses.ApplyAliasRoundTrip | test/testhelper.ts:82-89 | the printed alias is 0x and 40 lower-case digits, denotes the alias, and undoing it gives the address back |
| Addresses.ReadersAgree | test-e2e/tokenBridgeDeploymentTest.ts:741-761 | all three readers denote a 32-byte word modulo 2^160; the third accepts no other length |
| Addresses.AdminReader | tasks/index.ts:26-35 | the admin reader denotes the word modulo 2^160, at every length |
| Addresses.ImplementationReader | tasks/index.ts:517-530 | so does the implementation reader, also at odd lengths and in any case |
| Addresses.ReadersPrint | tasks/index.ts:26-35 | a 32-byte word is printed as 0x and its last 40 digits, by the implementation reader in lower case; on lower-case words all three readers print the same string |
| Fees.GetScaledAmount | scripts/local-deployment/localDeploymentLib.ts:275-293 | the first scaling computes the amount rounded up |
| Fees.GetPrescaledAmount | scripts/usdc-bridge-deployment/deployUsdcBridge.ts:729-751 | the second computes the same on every input |
| Fees.ExpectedFee | test-foundry/L1AtomicTokenBridgeCreator.t.sol:462-494 | the fuzz test expects exactly the fee that the creator takes |
| Fees.LeastCover | contracts/tokenbridge/ethereum/L1AtomicTokenBridgeCreator.sol:601-618 | a number of units covers an amount if and only if it is at least the scaled amount |
| Fees.ScaledMonotone | contracts/tokenbridge/ethereum/L1AtomicTokenBridgeCreator.sol:601-618 | scaling is monotone |
| Fees.ScaledSubadditive | contracts/tokenbridge/ethereum/L1AtomicTokenBridgeCreator.sol:601-618 | scaling a sum never takes more than scaling its parts |
| Fees.RoundingIsSmall | contracts/tokenbridge/ethereum/L1AtomicTokenBridgeCreator.sol:601-618 | rounding adds less than one unit, and nothing from 18 decimals on |
| Fees.Examples | scripts/local-deployment/localDeploymentLib.ts:275-293 | amounts in tokens with 6, 17, 18 and 20 decimals |
| Fees.ApproveFees | scripts/atomicTokenBridgeDeployer.ts:112-150 | the approved allowance covers what the creator takes; the excess is the two scaled submission costs, or up to two units less |
| Retryables.FeeGateway.CreateRetryable | contracts/tokenbridge/ethereum/gateway/L1OrbitERC20Gateway.sol:90-130 | what the inbox lacks of the fee is taken from the user of a routed call and from the caller of a direct one, and from nobody else; it succeeds if and only if the fee covers the ticket and that account, within its approval, and the inbox cover the fee; otherwise nothing changes |
| Retryables.FeeGateway.InboxCreateTicket | contracts/tokenbridge/test/InboxMock.sol:84-119 | refuses a fee below the ticket's cost; sends tokens on |
| Retryables.ShortfallRule | test-foundry/L1OrbitERC20Gateway.t.sol:177-324 | the payer pays exactly the part of the fee that the inbox lacks, and nobody else pays |
| Retryables.CreatedIff | contracts/tokenbridge/ethereum/gateway/L1OrbitERC20Gateway.sol:90-130 | a ticket is created if and only if the fee covers the cost, and inbox plus payer's balance, and inbox plus approval, cover the fee |
| Retryables.OutlayTelescopes | test-foundry/L1OrbitIntegration.t.sol:160-190 | over any sequence of attempts the total outlay is what the fees exceed the prefunding by; the bridge receives the fees, the inbox keeps the rest, and tokens are conserved |
| Retryables.EachPaysItsOwn | test-foundry/L1OrbitIntegration.t.sol:160-190 | over any sequence each account loses exactly the shortfalls of its own tickets |
| Retryables.MockTelescopesIff | contracts/tokenbridge/test/InboxMock.sol:112-116 | for the sweeping mock the telescoping holds exactly when the first ticket created uses up the prefunding, or every later attempt is for nothing or refused at its turn |
| Retryables.MockSweepsPrefunding | contracts/tokenbridge/test/InboxMock.sol:112-116 | two tickets below the prefunding, of which the second is paid in full |

## Left out

- RPC calls, signers, prompts, compilation and the git check: their outcomes are inputs of the methods (answers, receipts, accepted transactions, the number of effects a process survives).
- JSON and file details: a file is a value or absent, a write is one effect, and a missing queue file is an empty queue; the scripts' own creation of it is not a step.
- Transactions that are still pending when their process dies and land during a later run.
- The sort itself: its comparator is not consistent (section 23.1.3.30 of ECMA-262, 2023), so any arrangement of the keys is allowed; two processes at once are not.
- `transferAdmin`, `transferBeaconOwner`, build-info removal and explorer verification: single checks and calls.
- Checksum casing: addresses are numbers; the strings of `Addresses` are compared after lowering, and the third reader is given lower-case words.
- The hash under which a redirected exit is stored: the pair of exit number and initial destination is the key.
- The exit-transfer hook's own calls: only whether it succeeds is modelled, so re-entrant transfers from inside the hook are not.
- Wrapped ether, reverse and Orbit variants of the gateways: the same argument with escrow and mint exchanged; depositing with permit and registering custom tokens are single calls.
- Gateways.L2Gateway.OutboundTransfer: the allowance that the USDC gateway needs on L2 before it burns is not modelled, so more withdrawals are allowed than there; for other tokens the bridge burns without one.
- Gateways.L1Gateway.OutboundTransfer: the refusals of a deposit because the token is no contract, because the gateway knows no L2 token for it, or because the inbox rejects the ticket or its fee are not modelled; the fee rule of fee-token inboxes is in `Retryables`.
- Token contracts: a ledger with balances and, on L1, allowances to the gateway; blacklists and the token's own pause are not modelled.
- The handover of the L2 USDC roles, changes of owner, and 256-bit overflow: amounts are unbounded naturals, so the creator's revert on an overflowing multiplication is not modelled.
- Aliasing on delivery is checked where the receiver's check is the point (the L2 router); the gateways' messages are taken to come from their counterparts.
- The nitro inbox is not part of this model: its sending on of exactly the ticket's fee is taken from what the integration test observes, beside the repository's mock.
- Retry and expiry of tickets: a ticket is either relayed once or stays in flight.
- Ether sent with deposits, gas refunds and the child-chain accounting of fees.
- Contract creation, salts and predicted addresses of the token bridge creator.
