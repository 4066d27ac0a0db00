/**
 Entry points of the governed-upgrade subsystem. Each is one atomic call:
 it returns the store to commit, or the error that aborted the call, in
 which case nothing is committed. Checks run in the order the contract
 makes them, so the first failing check decides the error.
 */
module UpgradeLogic {
  import opened Base
  import opened UpgradeTypes
  import opened UpgradeStorage

  /** A proposal lookup that fails with `NotFound`. */
  function LoadProposal(s: UpgradeStore, id: u64): (r: Result<UpgradeProposal>)
    ensures r.Ok? <==> id in s.proposals
    ensures r.Ok? ==> r.value == s.proposals[id]
    ensures r.Err? ==> r.error == NotFound
  {
    match GetUpgradeProposal(s, id)
    case Some(p) => Ok(p)
    case None => Err(NotFound)
  }

  /** `propose_upgrade`: files a new Pending proposal under the next id.
      Anyone who signs may propose; the governance address is read (so the
      call fails before `initialize`) but not compared. Returns the new store
      and the id issued. */
  function ProposeUpgrade(env: Env, s: UpgradeStore, proposer: Address, newContractAddress: Address,
                          targetVersion: Version, description: string): (r: Result<(UpgradeStore, u64)>)
    ensures s.governance.None? ==> r == Err(Uninitialized)
    ensures s.governance.Some? && proposer !in env.signers ==> r == Err(NotAuthenticated)
    ensures r.Ok? <==> s.governance.Some? && proposer in env.signers && s.nextProposalId < MAX_U64
    ensures r.Ok? ==>
      var t := r.value.0;
      var id := r.value.1;
      && id == s.nextProposalId
      && t.nextProposalId == id + 1
      && GetUpgradeProposal(t, id).Some?
      && var p := GetUpgradeProposal(t, id).value;
      && p.id == id
      && p.proposer == proposer
      && p.newContractAddress == newContractAddress
      && p.version == targetVersion
      && p.description == description
      && p.timestamp == env.now
      && p.status == Pending
      && p.votesFor == 0 && p.votesAgainst == 0 && p.totalVoters == 0
      && (forall k :: k != id ==> GetUpgradeProposal(t, k) == GetUpgradeProposal(s, k))
      && t.(proposals := s.proposals, nextProposalId := s.nextProposalId) == s
  {
    var _ :- GetGovernanceAddress(s);
    var _ :- RequireAuth(env, proposer);
    var id := s.nextProposalId;
    var next :- IncU64(id);
    var p := UpgradeProposal(id, proposer, newContractAddress, targetVersion, description,
                             env.now, Pending, 0, 0, 0);
    Ok((StoreUpgradeProposal(s.(nextProposalId := next), p), id))
  }

  /** `vote_on_proposal`: records the vote, then decides the proposal if a
      tally has reached a simple majority of `total_voters`, approval first.
      The unused sum of both tallies is still computed in `u32`, so a vote
      that takes that sum past `u32::MAX` panics and is undone. */
  function VoteOnProposal(env: Env, s: UpgradeStore, voter: Address, id: u64, voteFor: bool): (r: Result<UpgradeStore>)
    ensures voter !in env.signers ==> r == Err(NotAuthenticated)
    ensures voter in env.signers && id !in s.proposals ==> r == Err(NotFound)
    ensures voter in env.signers && id in s.proposals && s.proposals[id].status != Pending ==>
      r == Err(InvalidState)
    ensures r.Ok? ==>
      && voter in env.signers
      && id in s.proposals
      && s.proposals[id].status == Pending
      && (if voteFor then s.proposals[id].votesFor else s.proposals[id].votesAgainst)
           + GetVotingPower(s, voter) <= MAX_U32
    ensures FiledUnderOwnId(s, id) ==>
      (r.Ok? <==>
        && voter in env.signers
        && id in s.proposals
        && s.proposals[id].status == Pending
        && s.proposals[id].votesFor + s.proposals[id].votesAgainst + GetVotingPower(s, voter) <= MAX_U32)
    ensures FiledUnderOwnId(s, id) && voter in env.signers && id in s.proposals &&
      s.proposals[id].status == Pending &&
      s.proposals[id].votesFor + s.proposals[id].votesAgainst + GetVotingPower(s, voter) > MAX_U32
      ==> r == Err(Overflow)
    ensures r.Ok? && FiledUnderOwnId(s, id) ==>
      var p := s.proposals[id];
      var w := GetVotingPower(s, voter);
      && GetUpgradeProposal(r.value, id).Some?
      && var q := GetUpgradeProposal(r.value, id).value;
      && q.votesFor == p.votesFor + (if voteFor then w else 0)
      && q.votesAgainst == p.votesAgainst + (if voteFor then 0 else w)
      && q.status == (if q.votesFor >= Required(p) then Approved
                      else if q.votesAgainst >= Required(p) then Rejected
                      else Pending)
      && q.(votesFor := p.votesFor, votesAgainst := p.votesAgainst, status := p.status) == p
      && forall k :: k != id ==> GetUpgradeProposal(r.value, k) == GetUpgradeProposal(s, k)
    ensures r.Ok? ==> r.value.(proposals := s.proposals) == s
  {
    var _ :- RequireAuth(env, voter);
    var s1 :- RecordVote(s, id, voter, voteFor);
    match GetUpgradeProposal(s1, id)
    case Some(p) =>
      var _ :- AddU32(p.votesFor, p.votesAgainst);
      var required := p.totalVoters / 2 + 1;
      if p.votesFor >= required then Ok(UpdateProposalStatus(s1, id, Approved))
      else if p.votesAgainst >= required then Ok(UpdateProposalStatus(s1, id, Rejected))
      else Ok(s1)
    case None => Ok(s1)
  }

  /** `perform_state_migration`: in this contract it only announces the
      migration and always succeeds; the plan's selector is not acted on. */
  function PerformStateMigration(plan: MigrationPlan): (r: Result<()>)
    ensures r.Ok?
  {
    Ok(())
  }

  /** `execute_upgrade`: installs the version of an Approved proposal and marks
      it Executed. Only the governance address may execute, but that is
      checked after the proposal's existence and status. */
  function ExecuteUpgrade(env: Env, s: UpgradeStore, executor: Address, id: u64): (r: Result<UpgradeStore>)
    ensures executor !in env.signers ==> r == Err(NotAuthenticated)
    ensures executor in env.signers && id !in s.proposals ==> r == Err(NotFound)
    ensures executor in env.signers && id in s.proposals && s.proposals[id].status != Approved ==>
      r == Err(InvalidState)
    ensures executor in env.signers && id in s.proposals && s.proposals[id].status == Approved ==>
      (s.governance.None? ==> r == Err(Uninitialized)) &&
      (s.governance.Some? && s.governance.value != executor ==> r == Err(Unauthorized))
    ensures r.Ok? <==>
      executor in env.signers && id in s.proposals && s.proposals[id].status == Approved &&
      s.governance == Some(executor)
    ensures r.Ok? ==> GetCurrentVersion(r.value) == Ok(s.proposals[id].version)
    ensures r.Ok? && FiledUnderOwnId(s, id) ==>
      && GetUpgradeProposal(r.value, id) == Some(s.proposals[id].(status := Executed))
      && (forall k :: k != id ==> GetUpgradeProposal(r.value, k) == GetUpgradeProposal(s, k))
    ensures r.Ok? ==> r.value.(currentVersion := s.currentVersion, proposals := s.proposals) == s
  {
    var _ :- RequireAuth(env, executor);
    var p :- LoadProposal(s, id);
    if p.status != Approved then Err(InvalidState)
    else
      var governance :- GetGovernanceAddress(s);
      if executor != governance then Err(Unauthorized)
      else
        var executed := StoreUpgradeProposal(SetCurrentVersion(s, p.version), p.(status := Executed));
        match GetMigrationPlan(s, id)
        case Some(plan) =>
          (match PerformStateMigration(plan)
           case Ok(_) => Ok(executed)
           case Err(e) => Err(e))
        case None => Ok(executed)
  }

  /** `emergency_upgrade`: sets the current version directly, bypassing the
      proposal process. The contract address argument is not used. */
  function EmergencyUpgrade(env: Env, s: UpgradeStore, caller: Address, newContractAddress: Address,
                            newVersion: Version): (r: Result<UpgradeStore>)
    ensures caller !in env.signers ==> r == Err(NotAuthenticated)
    ensures caller in env.signers && !IsEmergencyUpgradeEnabled(s) ==> r == Err(NotEnabled)
    ensures caller in env.signers && IsEmergencyUpgradeEnabled(s) ==>
      (s.governance.None? ==> r == Err(Uninitialized)) &&
      (s.governance.Some? && s.governance.value != caller ==> r == Err(Unauthorized))
    ensures r.Ok? <==> caller in env.signers && IsEmergencyUpgradeEnabled(s) && s.governance == Some(caller)
    ensures r.Ok? ==> GetCurrentVersion(r.value) == Ok(newVersion)
    ensures r.Ok? ==> r.value.(currentVersion := s.currentVersion) == s
  {
    var _ :- RequireAuth(env, caller);
    if !IsEmergencyUpgradeEnabled(s) then Err(NotEnabled)
    else
      var governance :- GetGovernanceAddress(s);
      if caller != governance then Err(Unauthorized)
      else Ok(SetCurrentVersion(s, newVersion))
  }

  /** The governance gate shared by the remaining entry points: the caller
      signed, the store is initialised, and the caller is the governance address. */
  function RequireGovernance(env: Env, s: UpgradeStore, caller: Address): (r: Result<()>)
    ensures caller !in env.signers ==> r == Err(NotAuthenticated)
    ensures caller in env.signers && s.governance.None? ==> r == Err(Uninitialized)
    ensures caller in env.signers && s.governance.Some? && s.governance.value != caller ==>
      r == Err(Unauthorized)
    ensures r.Ok? <==> caller in env.signers && s.governance == Some(caller)
  {
    var _ :- RequireAuth(env, caller);
    var governance :- GetGovernanceAddress(s);
    if caller != governance then Err(Unauthorized) else Ok(())
  }

  /** `toggle_emergency_upgrades`: sets the flag to exactly `enable`. */
  function ToggleEmergencyUpgrades(env: Env, s: UpgradeStore, caller: Address, enable: bool): (r: Result<UpgradeStore>)
    ensures RequireGovernance(env, s, caller).Err? ==> r == Err(RequireGovernance(env, s, caller).error)
    ensures r.Ok? <==> caller in env.signers && s.governance == Some(caller)
    ensures r.Ok? ==> IsEmergencyUpgradeEnabled(r.value) == enable
    ensures r.Ok? ==> r.value.(emergencyEnabled := s.emergencyEnabled) == s
  {
    var _ :- RequireGovernance(env, s, caller);
    Ok(SetEmergencyUpgradeEnabled(s, enable))
  }

  /** `register_migration_plan`: files the plan under `id`, replacing any
      earlier plan; no proposal `id` need exist. */
  function RegisterMigrationPlan(env: Env, s: UpgradeStore, caller: Address, id: u64, plan: MigrationPlan): (r: Result<UpgradeStore>)
    ensures RequireGovernance(env, s, caller).Err? ==> r == Err(RequireGovernance(env, s, caller).error)
    ensures r.Ok? <==> caller in env.signers && s.governance == Some(caller)
    ensures r.Ok? ==> GetMigrationPlan(r.value, id) == Some(plan)
    ensures r.Ok? ==> forall k :: k != id ==> GetMigrationPlan(r.value, k) == GetMigrationPlan(s, k)
    ensures r.Ok? ==> r.value.(migrationPlans := s.migrationPlans) == s
  {
    var _ :- RequireGovernance(env, s, caller);
    Ok(StoreMigrationPlan(s, id, plan))
  }

  /** `check_version_compatibility(current, target)`: the target stays in the
      current major series and does not go back in minor. */
  predicate CheckVersionCompatibility(current: Version, target: Version) {
    current.major == target.major && target.minor >= current.minor
  }

  /** The two compatibility predicates take their arguments in opposite orders. */
  lemma CheckIsMirrorOfCompatible(current: Version, target: Version)
    ensures CheckVersionCompatibility(current, target) == IsCompatibleWith(target, current)
  {
  }

  /** `rollback_to_version`: moves the current version to a target in the same
      major series whose minor is not ahead; the patch level is free. */
  function RollbackToVersion(env: Env, s: UpgradeStore, caller: Address, target: Version): (r: Result<UpgradeStore>)
    ensures RequireGovernance(env, s, caller).Err? ==> r == Err(RequireGovernance(env, s, caller).error)
    ensures RequireGovernance(env, s, caller).Ok? && s.currentVersion.None? ==> r == Err(Uninitialized)
    ensures RequireGovernance(env, s, caller).Ok? && s.currentVersion.Some? ==>
      ((target.major != s.currentVersion.value.major || target.minor > s.currentVersion.value.minor)
       ==> r == Err(InvalidTransition))
    ensures r.Ok? <==>
      && caller in env.signers && s.governance == Some(caller) && s.currentVersion.Some?
      && target.major == s.currentVersion.value.major
      && target.minor <= s.currentVersion.value.minor
    ensures r.Ok? <==>
      && caller in env.signers && s.governance == Some(caller) && s.currentVersion.Some?
      && CheckVersionCompatibility(target, s.currentVersion.value)
    ensures r.Ok? ==> GetCurrentVersion(r.value) == Ok(target)
    ensures r.Ok? ==> r.value.(currentVersion := s.currentVersion) == s
  {
    var _ :- RequireGovernance(env, s, caller);
    var current :- GetCurrentVersion(s);
    if target.major != current.major
       || (target.major == current.major && target.minor > current.minor)
    then Err(InvalidTransition)
    else Ok(SetCurrentVersion(s, target))
  }

  /** Once executed, a proposal cannot be executed again. */
  lemma ExecuteTwiceFails(env: Env, env': Env, s: UpgradeStore, executor: Address, executor': Address, id: u64)
    requires FiledUnderOwnId(s, id)
    requires ExecuteUpgrade(env, s, executor, id).Ok?
    ensures ExecuteUpgrade(env', ExecuteUpgrade(env, s, executor, id).value, executor', id).Err?
  {
  }

  /** The contract address passed to an emergency upgrade has no effect. */
  lemma EmergencyIgnoresAddress(env: Env, s: UpgradeStore, caller: Address, a: Address, b: Address, v: Version)
    ensures EmergencyUpgrade(env, s, caller, a, v) == EmergencyUpgrade(env, s, caller, b, v)
  {
  }

  /** Toggling twice with the same value is toggling once. */
  lemma ToggleIdempotent(env: Env, s: UpgradeStore, caller: Address, enable: bool)
    requires ToggleEmergencyUpgrades(env, s, caller, enable).Ok?
    ensures ToggleEmergencyUpgrades(env, ToggleEmergencyUpgrades(env, s, caller, enable).value, caller, enable)
         == ToggleEmergencyUpgrades(env, s, caller, enable)
  {
  }

  /** With `total_voters` at 0 a majority is one vote, so the first vote of
      weight at least 1 decides the proposal. */
  lemma SingleVoteDecides(env: Env, s: UpgradeStore, voter: Address, id: u64, voteFor: bool)
    requires voter in env.signers && id in s.proposals && FiledUnderOwnId(s, id)
    requires s.proposals[id].status == Pending && s.proposals[id].totalVoters == 0
    requires s.proposals[id].votesFor == 0 && s.proposals[id].votesAgainst == 0
    requires GetVotingPower(s, voter) >= 1
    ensures VoteOnProposal(env, s, voter, id, voteFor).Ok?
    ensures GetUpgradeProposal(VoteOnProposal(env, s, voter, id, voteFor).value, id).value.status
         == if voteFor then Approved else Rejected
  {
  }

  /** A vote of weight 0 on a Pending proposal that has not reached its
      threshold changes nothing at all. */
  lemma ZeroWeightVoteIsNoOp(env: Env, s: UpgradeStore, voter: Address, id: u64, voteFor: bool)
    requires voter in env.signers && id in s.proposals && FiledUnderOwnId(s, id)
    requires s.proposals[id].status == Pending
    requires s.proposals[id].votesFor < Required(s.proposals[id])
    requires s.proposals[id].votesAgainst < Required(s.proposals[id])
    requires GetVotingPower(s, voter) == 0
    ensures VoteOnProposal(env, s, voter, id, voteFor) == Ok(s)
  {
    var r := VoteOnProposal(env, s, voter, id, voteFor);
    assert r.value.proposals == s.proposals;
  }

  /** Rollback from version 1.2.0: two targets allowed, two refused. */
  lemma RollbackExamples(env: Env, s: UpgradeStore, g: Address)
    requires g in env.signers && s.governance == Some(g)
    requires s.currentVersion == Some(NewVersion(1, 2, 0))
    ensures RollbackToVersion(env, s, g, NewVersion(1, 1, 0)).Ok?
    ensures RollbackToVersion(env, s, g, NewVersion(1, 1, 7)).Ok?
    ensures RollbackToVersion(env, s, g, NewVersion(2, 0, 0)) == Err(InvalidTransition)
    ensures RollbackToVersion(env, s, g, NewVersion(1, 3, 0)) == Err(InvalidTransition)
  {
  }
}
