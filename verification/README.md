# Upgrade governance and proxy redirection, modelled in Dafny

This project models the two upgrade state machines of a Soroban (Stellar) smart
contract and proves their properties:

- **Governed upgrade** (`contract/src/upgrade/`): semantic versions with an
  asymmetric compatibility predicate; a proposal store keyed by a monotonic id
  counter; weighted voting with the simple-majority threshold
  `total_voters / 2 + 1`; the lifecycle `Pending → Approved/Rejected → Executed`;
  governance-gated execution, emergency upgrade, emergency toggle, migration-plan
  registration and rollback.
- **Proxy redirection** (`contract/src/proxy/`): a configuration record
  (implementation, admin, version counter, last update) mirrored by a dedicated
  implementation slot; admin-gated `upgrade`, which draws an id from its own
  counter, counts one more version and files an audit record; immediate admin
  transfer; and three operations that check identity but change nothing.

## How the contract is rendered

- **State.** Each subsystem is one immutable record: `UpgradeStorage.UpgradeStore`
  and `ProxyStorage.ProxyStore`. Soroban `Map`s become Dafny `map`s. Storage
  entries that readers `expect` are `Option`s. Entries that readers default when
  absent hold that default in the empty store: the maps, the emergency flag
  (`false`), and the id counters `nxt_prop` and `nxt_upg` (`1`).
- **Calls.** Every public call is a pure function from the old store to
  `Result<new store>`. An `Err` means the call aborted and nothing is committed.
  The contract runs each call atomically, so the order of writes inside a call
  (for example slot before configuration in `set_implementation`) is not
  observable.
- **Environment.** `Base.Env` carries the ledger timestamp (`now`) and the set of
  addresses whose `require_auth` succeeds (`signers`). `Address` is an opaque
  identity compared only for equality.
- **Errors.** Each string error or panic of the source maps to one `Base.Error`
  kind. Checks happen in the source's order, so the first failing check picks
  the error. `expect` on uninitialised storage gives `Uninitialized`.
- **Integer widths.** `u32` and `u64` are subset types of `int`. Vote tallies
  (`+=` on `u32`), their unused sum in `vote_on_proposal`, the proxy version (`+= 1` on `u32`) and both id counters
  (`+ 1` on `u64`) are checked additions. Overflow gives `Overflow`, which
  models an overflow-checked build in which the panic reverts the call.
- **Runs.** `UpgradeMachine` and `ProxyMachine` define the public calls as a
  datatype, a `Step`, and `Run` over a sequence of calls, in which failed calls
  leave the state unchanged. The cross-call properties are stated over runs:
  consecutive ids, lifecycle order, and the version counter.

### Behaviour of the contract worth noting

- `execute_upgrade` checks existence, then `Approved` status, and only then the
  governance address. A non-governance caller therefore gets `NotFound` or
  `InvalidState` before `Unauthorized`.
- `emergency_upgrade` checks the emergency flag before the caller's identity.
- `propose_upgrade` reads the governance address before checking the
  proposer's signature, so it fails with `Uninitialized` before `initialize`. It
  never compares the proposer with that address: anyone who signs may propose.
- `perform_state_migration` always succeeds, so a migration never aborts an execution.
- `upgrade` on the proxy records only successful upgrades. The admin check comes
  before an id is drawn, and a later overflow panic reverts the draw. So no
  record ever has `success = false`, and no id is spent on a refused call.
- No function in contract/src/upgrade sets `total_voters` or `Cancelled`. Every
  proposal these functions store has `total_voters = 0` (one vote decides it)
  and is never `Cancelled`.
- `initialize` of either subsystem leaves its id counter as it is. After a
  re-initialisation, ids continue from where they stopped.
- `Version` derives only `Clone` and `Debug`: it has no ordering, only the
  compatibility predicate.
- The two state machines treat `initialize` (both subsystems) and
  `set_voting_power` as calls with no identity check. The contract's public
  entry points that wrap them are not part of this model.

## Model

| member | source | states |
|---|---|---|
| Base.RequireAuth | contract/src/upgrade/logic.rs:15 | passes iff the address signed the call, else `NotAuthenticated` |
| Base.AddU32 | contract/src/upgrade/storage.rs:149 | the sum when it fits in `u32`, else `Overflow` |
| Base.IncU64 | contract/src/upgrade/logic.rs:22 | the successor when below `u64::MAX`, else `Overflow` |
| UpgradeTypes.NewVersion | contract/src/upgrade/types.rs:13-15 | the constructed version carries exactly the given major, minor and patch |
| UpgradeTypes.IsCompatibleWith | contract/src/upgrade/types.rs:19-24 | same major, and a minor not behind the other's; its laws are the lemmas below |
| UpgradeTypes.CompatibleReflexive | contract/src/upgrade/tests.rs:18-19 | every version is compatible with itself |
| UpgradeTypes.CompatibleTransitive | contract/src/upgrade/types.rs:19-24 | compatibility chains: a with b and b with c gives a with c |
| UpgradeTypes.CompatibleBothWays | contract/src/upgrade/types.rs:19-24 | mutual compatibility holds iff major and minor agree, whatever the patches |
| UpgradeTypes.PatchIgnored | contract/src/upgrade/types.rs:19-24 | changing either side's patch never changes compatibility |
| UpgradeTypes.DifferentMajorsIncompatible | contract/src/upgrade/tests.rs:27-29 | versions with different majors are incompatible in both directions |
| UpgradeTypes.CompatibleAsymmetric | contract/src/upgrade/types.rs:17-24 | with equal majors and different minors, compatibility holds in exactly one direction |
| UpgradeTypes.CompatibilityExamples | contract/src/upgrade/tests.rs:10-30 | 1.0.0~1.0.0 and 1.1.0~1.0.0 hold; 1.0.0~1.1.0, 2.0.0~1.0.0 and 1.0.0~2.0.0 do not |
| UpgradeTypes.Discriminant | contract/src/upgrade/types.rs:30-36 | every status has a discriminant below 5 |
| UpgradeTypes.StatusOf | contract/src/upgrade/types.rs:30-36 | a number denotes a status iff it is below 5 |
| UpgradeTypes.DiscriminantBijection | contract/src/upgrade/types.rs:30-36 | discriminant and status correspond one-to-one: exactly five statuses |
| UpgradeTypes.DiscriminantValues | contract/src/upgrade/tests.rs:41-52 | Pending=0, Approved=1, Executed=2, Rejected=3, Cancelled=4 |
| UpgradeTypes.Required | contract/src/upgrade/logic.rs:62 | the threshold is the least number exceeding half of `total_voters`, and at least 1 |
| UpgradeStorage.Initialize | contract/src/upgrade/storage.rs:13-35 | reads back the given version and governance; no proposal, weight or plan; flag off; counter untouched |
| UpgradeStorage.GetCurrentVersion | contract/src/upgrade/storage.rs:38-43 | fails with `Uninitialized` exactly when no version was stored |
| UpgradeStorage.SetCurrentVersion | contract/src/upgrade/storage.rs:46-48 | a read-back returns the version set; nothing else changes |
| UpgradeStorage.GetGovernanceAddress | contract/src/upgrade/storage.rs:51-56 | fails with `Uninitialized` exactly when no governance address was stored |
| UpgradeStorage.GetUpgradeProposal | contract/src/upgrade/storage.rs:73-81 | a proposal is found iff its id is stored |
| UpgradeStorage.StoreUpgradeProposal | contract/src/upgrade/storage.rs:59-70 | get after store returns the proposal unchanged; other ids and other entries untouched |
| UpgradeStorage.UpdateProposalStatus | contract/src/upgrade/storage.rs:100-105 | unknown id: no change; known id: only the status field changes, other proposals untouched |
| UpgradeStorage.GetVotingPower | contract/src/upgrade/storage.rs:120-128 | an unregistered address weighs 0 |
| UpgradeStorage.SetVotingPower | contract/src/upgrade/storage.rs:108-117 | get after set returns the weight set; every other address keeps its weight |
| UpgradeStorage.RecordVote | contract/src/upgrade/storage.rs:131-156 | unknown id: `NotFound`; not Pending: `InvalidState`; else the weight is added to exactly one tally, all other fields kept |
| UpgradeStorage.RepeatedVotesAccumulate | contract/src/upgrade/storage.rs:144-152 | n votes-for by one voter add n times the voter's weight: no double-vote protection |
| UpgradeStorage.GetMigrationPlan | contract/src/upgrade/storage.rs:173-181 | a plan is found iff one was stored for the id |
| UpgradeStorage.StoreMigrationPlan | contract/src/upgrade/storage.rs:159-170 | get after store returns the plan; other plans and entries untouched |
| UpgradeStorage.MigrationPlanOverwrite | contract/src/upgrade/storage.rs:166 | storing twice under one id keeps only the second plan |
| UpgradeStorage.IsEmergencyUpgradeEnabled | contract/src/upgrade/storage.rs:184-189 | reads the flag; false before `initialize` (EmptyStoreDefaults), and as set after `set_emergency_upgrade_enabled` |
| UpgradeStorage.SetEmergencyUpgradeEnabled | contract/src/upgrade/storage.rs:192-194 | the flag reads back as set; nothing else changes |
| UpgradeStorage.EmptyStoreDefaults | contract/src/upgrade/storage.rs:184-189 | before `initialize` the flag reads false, weights read 0, version and governance reads fail |
| UpgradeLogic.ProposeUpgrade | contract/src/upgrade/logic.rs:6-44 | issues the counter's value as id and advances it by one; stores a Pending proposal with the given data, zero tallies and `total_voters` 0 |
| UpgradeLogic.VoteOnProposal | contract/src/upgrade/logic.rs:47-76 | errors of `record_vote`, then `Overflow` if the two tallies' sum would pass `u32::MAX`; on success one tally grows by the weight, then Approved if `votes_for` reaches the threshold, else Rejected if `votes_against` does, else Pending |
| UpgradeLogic.PerformStateMigration | contract/src/upgrade/logic.rs:186-202 | never fails, whatever the plan |
| UpgradeLogic.LoadProposal | contract/src/upgrade/logic.rs:82-83 | the stored proposal, or `NotFound` exactly when the id is absent |
| UpgradeLogic.ExecuteUpgrade | contract/src/upgrade/logic.rs:79-112 | fails in order: not found, not Approved, uninitialised, not governance; success installs the proposal's version and marks it Executed |
| UpgradeLogic.ExecuteTwiceFails | contract/src/upgrade/logic.rs:85-87 | a proposal just executed cannot be executed again |
| UpgradeLogic.EmergencyUpgrade | contract/src/upgrade/logic.rs:115-142 | fails if the flag is off, then if the caller is not governance; success sets exactly the new version and nothing else |
| UpgradeLogic.EmergencyIgnoresAddress | contract/src/upgrade/logic.rs:118 | the contract-address argument has no effect on the outcome |
| UpgradeLogic.RequireGovernance | contract/src/upgrade/logic.rs:146-153 | passes iff the caller signed and is the stored governance address; otherwise `NotAuthenticated`, `Uninitialized` or `Unauthorized` in that order |
| UpgradeLogic.ToggleEmergencyUpgrades | contract/src/upgrade/logic.rs:145-160 | non-governance callers are refused; success sets the flag to exactly `enable` |
| UpgradeLogic.ToggleIdempotent | contract/src/upgrade/logic.rs:154 | toggling twice with the same value equals toggling once |
| UpgradeLogic.RegisterMigrationPlan | contract/src/upgrade/logic.rs:163-183 | non-governance callers are refused; success overwrites the plan for the id, whether or not the proposal exists |
| UpgradeLogic.CheckVersionCompatibility | contract/src/upgrade/logic.rs:205-209 | same major, and a target minor not behind the current one; related to `is_compatible_with` by the next lemma |
| UpgradeLogic.CheckIsMirrorOfCompatible | contract/src/upgrade/logic.rs:205-209 | `check_version_compatibility(c, t)` equals `t.is_compatible_with(c)` |
| UpgradeLogic.RollbackToVersion | contract/src/upgrade/logic.rs:212-241 | succeeds iff caller is governance, same major, minor not ahead (equivalently `check_version_compatibility(target, current)`); then sets the target |
| UpgradeLogic.RollbackExamples | contract/src/upgrade/logic.rs:229-232 | from 1.2.0: 1.1.0 and 1.1.7 are allowed; 2.0.0 and 1.3.0 are `InvalidTransition` |
| UpgradeLogic.SingleVoteDecides | contract/src/upgrade/logic.rs:59-72 | with `total_voters` 0 and empty tallies, one vote of weight at least 1 approves (for) or rejects (against) |
| UpgradeLogic.ZeroWeightVoteIsNoOp | contract/src/upgrade/storage.rs:127 | a weight-0 vote on an undecided Pending proposal leaves the whole store unchanged |
| UpgradeMachine.StepCounter | contract/src/upgrade/logic.rs:21-22 | only a successful proposal moves the counter, by one, and returns its old value |
| UpgradeMachine.IdsConsecutive | contract/src/upgrade/logic.rs:21-22 | the ids returned in any run are the counter's start value plus 0, 1, 2, …, and the counter ends past them |
| UpgradeMachine.IdsFromOne | contract/src/upgrade/logic.rs:21 | from a fresh contract, proposal ids are 1, 2, 3, … |
| UpgradeMachine.EvolvesTransitive | contract/src/upgrade/types.rs:30-36 | the allowed evolution of a proposal composes over several calls |
| UpgradeMachine.StepPreservesValid | contract/src/upgrade/logic.rs:6-112 | each call keeps every proposal under its id, below the counter, with `total_voters` 0, never Cancelled, Pending only below threshold, and moves it at most one lifecycle edge (Pending → Approved/Rejected, Approved → Executed) |
| UpgradeMachine.OneEdgeOnLifecycle | contract/src/upgrade/logic.rs:64-69 | a single edge lies on the lifecycle, and Pending → Executed is not a single edge |
| UpgradeMachine.NoCallSkipsApproval | contract/src/upgrade/logic.rs:85-87 | no single call takes a Pending proposal to Executed or Cancelled |
| UpgradeMachine.RunPreservesValid | contract/src/upgrade/logic.rs:64-72 | over any run the invariant holds and each proposal only moves Pending → Approved/Rejected, Approved → Executed, with tallies growing only while Pending |
| UpgradeMachine.TerminalIsFinal | contract/src/upgrade/storage.rs:140-142 | an Executed or Rejected proposal never changes again |
| UpgradeMachine.ReachableSingleVoteDecides | contract/src/upgrade/logic.rs:34 | in every reachable store one vote of weight at least 1 decides any Pending proposal |
| UpgradeMachine.DecidedProposalsRefuse | contract/src/upgrade/storage.rs:140-142 | votes and executions on Executed, Rejected or Cancelled proposals fail with `InvalidState` |
| UpgradeMachine.GovernanceGuardsConfiguration | contract/src/upgrade/logic.rs:150-153 | only a signed governance call changes the version, the emergency flag or a migration plan |
| UpgradeMachine.EndToEnd | contract/src/upgrade/logic.rs:6-112 | initialize, propose (id 1), weight 10, vote for, execute: version 1.1.0, proposal Executed with 10 votes for |
| UpgradeMachine.EmptyStoreValid | contract/src/upgrade/logic.rs:21 | the fresh store satisfies the invariant |
| ProxyStorage.Initialize | contract/src/proxy/storage.rs:11-27 | config is (implementation, admin, version 1, now), the slot holds the implementation, history empty, counter untouched |
| ProxyStorage.GetProxyConfig | contract/src/proxy/storage.rs:30-35 | fails with `Uninitialized` exactly when no config was stored |
| ProxyStorage.GetImplementation | contract/src/proxy/storage.rs:38-43 | fails with `Uninitialized` exactly when the slot is empty; otherwise agrees with the config when mirrored |
| ProxyStorage.SetImplementation | contract/src/proxy/storage.rs:46-56 | sets slot and config implementation, version plus one, `last_updated` now, admin and history kept, mirror restored |
| ProxyStorage.GetAdmin | contract/src/proxy/storage.rs:59-62 | returns the config's admin, failing before `initialize` |
| ProxyStorage.SetAdmin | contract/src/proxy/storage.rs:65-71 | changes only `admin` and `last_updated`, and keeps the slot mirror |
| ProxyStorage.GetUpgradeTransaction | contract/src/proxy/storage.rs:88-96 | a record is found iff one is filed under the id |
| ProxyStorage.RecordUpgradeTransaction | contract/src/proxy/storage.rs:74-85 | get after record by `transaction.id` returns it; other records and entries untouched |
| ProxyStorage.IsAdmin | contract/src/proxy/storage.rs:99-102 | true iff the address is the configured admin |
| ProxyStorage.IsCurrentImplementation | contract/src/proxy/storage.rs:105-108 | true iff the address is in the implementation slot |
| ProxyStorage.EmptyProxyDefaults | contract/src/proxy/storage.rs:30-43 | before `initialize` config, implementation and admin reads fail and no record exists |
| ProxyImplementation.RequireAdmin | contract/src/proxy/implementation.rs:9-14 | passes iff the caller signed and is the configured admin; otherwise `NotAuthenticated`, `Uninitialized` or `Unauthorized` in that order |
| ProxyImplementation.Upgrade | contract/src/proxy/implementation.rs:8-43 | refused unless signed by the admin; success draws the counter's id, installs the implementation with version plus one and time now, files a successful record by the caller under that id |
| ProxyImplementation.TransferAdmin | contract/src/proxy/implementation.rs:46-62 | refused unless signed by the admin; afterwards exactly `new_admin` passes `is_admin`; implementation and version kept |
| ProxyImplementation.AcceptAdmin | contract/src/proxy/implementation.rs:65-75 | needs only `new_admin`'s signature and never changes state |
| ProxyImplementation.EmergencyStop | contract/src/proxy/implementation.rs:78-92 | refused unless signed by the admin, and never changes state |
| ProxyImplementation.Resume | contract/src/proxy/implementation.rs:95-109 | refused unless signed by the admin, and never changes state |
| ProxyImplementation.GetProxyInfo | contract/src/proxy/implementation.rs:112-114 | returns the stored config, whose admin and implementation are those `get_admin` and `get_implementation` read |
| ProxyImplementation.IsPaused | contract/src/proxy/implementation.rs:117-121 | the proxy never reports paused |
| ProxyImplementation.EmergencyStopDoesNotBlockUpgrade | contract/src/proxy/implementation.rs:117-121 | after an emergency stop, `upgrade` behaves exactly as before it |
| ProxyImplementation.TransferMovesUpgradeRight | contract/src/proxy/implementation.rs:50-55 | after a transfer the old admin's upgrade is `Unauthorized` and the new admin's succeeds (counters permitting) |
| ProxyMachine.UpgradeStepValid | contract/src/proxy/implementation.rs:20-36 | a successful upgrade adds one fresh record and one version, keeping the invariant |
| ProxyMachine.StepPreservesValid | contract/src/proxy/storage.rs:46-71 | every call keeps the slot mirror, version = 1 + history size, and well-formed records |
| ProxyMachine.RunPreservesValid | contract/src/proxy/storage.rs:11-56 | every reachable proxy store satisfies that invariant |
| ProxyMachine.EmptyProxyValid | contract/src/proxy/storage.rs:30-43 | the fresh proxy store satisfies the invariant |
| ProxyMachine.StepCounter | contract/src/proxy/implementation.rs:20-21 | only a successful upgrade moves the id counter and the version, each by one |
| ProxyMachine.IdsConsecutive | contract/src/proxy/implementation.rs:20-21 | the upgrade ids in any run are the counter's start plus 0, 1, 2, …, separate from proposal ids |
| ProxyMachine.IdsFromOne | contract/src/proxy/implementation.rs:20 | from a fresh proxy, upgrade ids are 1, 2, 3, … |
| ProxyMachine.VersionCountsUpgrades | contract/src/proxy/storage.rs:52 | without re-initialisation the version grows by exactly the number of successful upgrades |
| ProxyMachine.VersionAfterInit | contract/src/proxy/types.rs:11-12 | `version` is 1 + the number of successful upgrades since `initialize` |
| ProxyMachine.RecordsAreSuccessful | contract/src/proxy/implementation.rs:20-36 | every reachable record is filed under its own id, is successful and has no failure reason |
| ProxyMachine.AdminGuardsConfiguration | contract/src/proxy/implementation.rs:12-14 | only a signed call by the current admin changes the config, slot or history |

## Left out

- Event publishing (`env.events().publish`): notifications carry no state.
- `get_pending_proposals` (contract/src/upgrade/storage.rs:84-97): a placeholder that always returns an empty list.
- The body of `perform_state_migration`: it only publishes events. It is modelled as a step that always succeeds, and the plan's selector and gas estimate are opaque data.
- Soroban storage mechanics: persistent versus instance tiers, `symbol_short!` keys and `Map` serialisation collapse into record fields.
- Host signature checking: `require_auth` is reduced to membership of the caller in `Env.signers`.
- The ledger clock: `env.ledger().timestamp()` is the parameter `Env.now`.
- Contents of `soroban_sdk::String` and `Symbol` values: descriptions, selectors and failure reasons are opaque strings.
- Builds without overflow checks: `Overflow` models a panic. A wrapping build is not modelled.
- The test file contract/src/upgrade/tests.rs: it is used only as a source of properties.
- UpgradeStorage.UpdateProposalStatus: the per-proposal effect is stated only for a proposal filed under its own id. The source writes a proposal back under its `id` field, and every proposal the contract stores satisfies this (UpgradeMachine.RunPreservesValid).
- UpgradeStorage.RecordVote: the same restriction applies to its per-proposal effect.
- UpgradeLogic.VoteOnProposal: the same restriction applies to its per-proposal effect.
- UpgradeLogic.ExecuteUpgrade: the same restriction applies to its per-proposal effect.
