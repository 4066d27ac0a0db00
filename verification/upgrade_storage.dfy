/**
 Persistent state of the governed-upgrade subsystem and its accessors.

 The contract keeps one storage entry per concern; here they are the fields
 of one immutable record. Entries that `initialize` writes and readers
 `expect` are `Option`s (absent = uninitialised). Entries that readers
 default when absent (the maps, the emergency flag, the proposal counter)
 hold that default in the empty store, which no reader can tell apart from
 an absent entry.
 */
module UpgradeStorage {
  import opened Base
  import opened UpgradeTypes

  datatype UpgradeStore = UpgradeStore(
    currentVersion: Option<Version>,
    governance: Option<Address>,
    proposals: map<u64, UpgradeProposal>,
    votingPower: map<Address, u32>,
    migrationPlans: map<u64, MigrationPlan>,
    emergencyEnabled: bool,
    nextProposalId: u64)   // instance entry `nxt_prop`, read with default 1

  /** The store of a freshly deployed contract, before `initialize`. */
  const EmptyStore: UpgradeStore :=
    UpgradeStore(None, None, map[], map[], map[], false, 1)

  /** `initialize`: sets version and governance, empties the three maps and
      clears the emergency flag. The proposal counter lives in instance
      storage and is left as it was. */
  function Initialize(s: UpgradeStore, initialVersion: Version, governanceAddress: Address): (r: UpgradeStore)
    ensures GetCurrentVersion(r) == Ok(initialVersion)
    ensures GetGovernanceAddress(r) == Ok(governanceAddress)
    ensures forall id :: GetUpgradeProposal(r, id) == None
    ensures forall a :: GetVotingPower(r, a) == 0
    ensures forall id :: GetMigrationPlan(r, id) == None
    ensures !IsEmergencyUpgradeEnabled(r)
    ensures r.nextProposalId == s.nextProposalId
  {
    UpgradeStore(Some(initialVersion), Some(governanceAddress), map[], map[], map[], false, s.nextProposalId)
  }

  /** `get_current_version`: panics before `initialize`. */
  function GetCurrentVersion(s: UpgradeStore): (r: Result<Version>)
    ensures r.Ok? <==> s.currentVersion.Some?
    ensures r.Err? ==> r.error == Uninitialized
  {
    match s.currentVersion
    case Some(v) => Ok(v)
    case None => Err(Uninitialized)
  }

  /** `set_current_version`: a read-back returns `v`; nothing else changes. */
  function SetCurrentVersion(s: UpgradeStore, v: Version): (r: UpgradeStore)
    ensures GetCurrentVersion(r) == Ok(v)
    ensures r.(currentVersion := s.currentVersion) == s
  {
    s.(currentVersion := Some(v))
  }

  /** `get_governance_address`: panics before `initialize`. */
  function GetGovernanceAddress(s: UpgradeStore): (r: Result<Address>)
    ensures r.Ok? <==> s.governance.Some?
    ensures r.Err? ==> r.error == Uninitialized
  {
    match s.governance
    case Some(a) => Ok(a)
    case None => Err(Uninitialized)
  }

  /** `get_upgrade_proposal`. */
  function GetUpgradeProposal(s: UpgradeStore, id: u64): (r: Option<UpgradeProposal>)
    ensures r.Some? <==> id in s.proposals
  {
    if id in s.proposals then Some(s.proposals[id]) else None
  }

  /** `store_upgrade_proposal`: the proposal is filed under its own id,
      replacing whatever was there; other ids and other entries are untouched. */
  function StoreUpgradeProposal(s: UpgradeStore, p: UpgradeProposal): (r: UpgradeStore)
    ensures GetUpgradeProposal(r, p.id) == Some(p)
    ensures forall id :: id != p.id ==> GetUpgradeProposal(r, id) == GetUpgradeProposal(s, id)
    ensures r.(proposals := s.proposals) == s
  {
    s.(proposals := s.proposals[p.id := p])
  }

  /** Every proposal is filed under its own id. The accessors below read a
      proposal by key and write it back under its `id` field, so they act on
      the right entry only where this holds. */
  ghost predicate FiledUnderOwnId(s: UpgradeStore, id: u64) {
    id in s.proposals ==> s.proposals[id].id == id
  }

  /** `update_proposal_status`: rewrites only the status of a known proposal;
      an unknown id leaves the store as it is. */
  function UpdateProposalStatus(s: UpgradeStore, id: u64, status: UpgradeStatus): (r: UpgradeStore)
    ensures id !in s.proposals ==> r == s
    ensures FiledUnderOwnId(s, id) && id in s.proposals ==>
      GetUpgradeProposal(r, id) == Some(s.proposals[id].(status := status))
    ensures FiledUnderOwnId(s, id) ==>
      forall k :: k != id ==> GetUpgradeProposal(r, k) == GetUpgradeProposal(s, k)
    ensures r.(proposals := s.proposals) == s
  {
    match GetUpgradeProposal(s, id)
    case Some(p) => StoreUpgradeProposal(s, p.(status := status))
    case None => s
  }

  /** `get_voting_power`: an unregistered address weighs 0. */
  function GetVotingPower(s: UpgradeStore, a: Address): (w: u32)
    ensures a !in s.votingPower ==> w == 0
  {
    if a in s.votingPower then s.votingPower[a] else 0
  }

  /** `set_voting_power`: a read-back returns `power`; every other address
      keeps its weight and nothing else changes. */
  function SetVotingPower(s: UpgradeStore, a: Address, power: u32): (r: UpgradeStore)
    ensures GetVotingPower(r, a) == power
    ensures forall b :: b != a ==> GetVotingPower(r, b) == GetVotingPower(s, b)
    ensures r.(votingPower := s.votingPower) == s
  {
    s.(votingPower := s.votingPower[a := power])
  }

  /** `record_vote`: adds the voter's current weight to one tally of a Pending
      proposal. There is no record of who has voted, so each call adds the
      weight again. */
  function RecordVote(s: UpgradeStore, id: u64, voter: Address, voteFor: bool): (r: Result<UpgradeStore>)
    ensures id !in s.proposals ==> r == Err(NotFound)
    ensures id in s.proposals && s.proposals[id].status != Pending ==> r == Err(InvalidState)
    ensures r.Ok? <==>
      && id in s.proposals
      && s.proposals[id].status == Pending
      && (if voteFor then s.proposals[id].votesFor else s.proposals[id].votesAgainst)
           + GetVotingPower(s, voter) <= MAX_U32
    ensures r.Err? && id in s.proposals && s.proposals[id].status == Pending ==> r.error == Overflow
    ensures r.Ok? && FiledUnderOwnId(s, id) ==>
      var p := s.proposals[id];
      var w := GetVotingPower(s, voter);
      && GetUpgradeProposal(r.value, id).Some?
      && var q := GetUpgradeProposal(r.value, id).value;
      && q.votesFor + q.votesAgainst == p.votesFor + p.votesAgainst + w
      && (if voteFor then q.votesAgainst == p.votesAgainst else q.votesFor == p.votesFor)
      && q.(votesFor := p.votesFor, votesAgainst := p.votesAgainst) == p
      && forall k :: k != id ==> GetUpgradeProposal(r.value, k) == GetUpgradeProposal(s, k)
    ensures r.Ok? ==> r.value.(proposals := s.proposals) == s
  {
    var p :- match GetUpgradeProposal(s, id)
             case Some(p) => Ok(p)
             case None => Err(NotFound);
    if p.status != Pending then Err(InvalidState)
    else if voteFor then
      var n :- AddU32(p.votesFor, GetVotingPower(s, voter));
      Ok(StoreUpgradeProposal(s, p.(votesFor := n)))
    else
      var n :- AddU32(p.votesAgainst, GetVotingPower(s, voter));
      Ok(StoreUpgradeProposal(s, p.(votesAgainst := n)))
  }

  /** `get_migration_plan`. */
  function GetMigrationPlan(s: UpgradeStore, id: u64): (r: Option<MigrationPlan>)
    ensures r.Some? <==> id in s.migrationPlans
  {
    if id in s.migrationPlans then Some(s.migrationPlans[id]) else None
  }

  /** `store_migration_plan`: overwrites any earlier plan for `id`, whether or
      not a proposal `id` exists; other plans and other entries are untouched. */
  function StoreMigrationPlan(s: UpgradeStore, id: u64, plan: MigrationPlan): (r: UpgradeStore)
    ensures GetMigrationPlan(r, id) == Some(plan)
    ensures forall k :: k != id ==> GetMigrationPlan(r, k) == GetMigrationPlan(s, k)
    ensures r.(migrationPlans := s.migrationPlans) == s
  {
    s.(migrationPlans := s.migrationPlans[id := plan])
  }

  /** `is_emergency_upgrade_enabled`: false unless set. */
  function IsEmergencyUpgradeEnabled(s: UpgradeStore): bool {
    s.emergencyEnabled
  }

  /** `set_emergency_upgrade_enabled`: a read-back returns `enabled`. */
  function SetEmergencyUpgradeEnabled(s: UpgradeStore, enabled: bool): (r: UpgradeStore)
    ensures IsEmergencyUpgradeEnabled(r) == enabled
    ensures r.(emergencyEnabled := s.emergencyEnabled) == s
  {
    s.(emergencyEnabled := enabled)
  }

  /** Before `initialize` the emergency flag reads false and both expected
      entries are missing. */
  lemma EmptyStoreDefaults(id: u64, a: Address)
    ensures !IsEmergencyUpgradeEnabled(EmptyStore)
    ensures GetCurrentVersion(EmptyStore) == Err(Uninitialized)
    ensures GetGovernanceAddress(EmptyStore) == Err(Uninitialized)
    ensures GetUpgradeProposal(EmptyStore, id) == None
    ensures GetVotingPower(EmptyStore, a) == 0
  {
  }

  /** Storing a migration plan twice keeps only the second. */
  lemma MigrationPlanOverwrite(s: UpgradeStore, id: u64, p1: MigrationPlan, p2: MigrationPlan)
    ensures StoreMigrationPlan(StoreMigrationPlan(s, id, p1), id, p2) == StoreMigrationPlan(s, id, p2)
  {
  }

  /** `record_vote` repeated `n` times, stopping at the first failure. */
  function RecordVotes(s: UpgradeStore, id: u64, voter: Address, voteFor: bool, n: nat): Result<UpgradeStore>
    decreases n
  {
    if n == 0 then Ok(s)
    else
      var s1 :- RecordVote(s, id, voter, voteFor);
      RecordVotes(s1, id, voter, voteFor, n - 1)
  }

  /** Without double-vote protection, `n` votes-for by one voter add
      `n` times the voter's weight to `votes_for`, as long as no sum overflows. */
  lemma {:induction false} RepeatedVotesAccumulate(s: UpgradeStore, id: u64, voter: Address, n: nat)
    requires id in s.proposals && s.proposals[id].status == Pending && s.proposals[id].id == id
    requires s.proposals[id].votesFor + n * GetVotingPower(s, voter) <= MAX_U32
    ensures RecordVotes(s, id, voter, true, n).Ok?
    ensures var q := RecordVotes(s, id, voter, true, n).value.proposals;
      id in q && q[id] == s.proposals[id].(votesFor := s.proposals[id].votesFor + n * GetVotingPower(s, voter))
    decreases n
  {
    if n > 0 {
      var w := GetVotingPower(s, voter);
      var p := s.proposals[id];
      assert n * w == (n - 1) * w + w;
      assert p.votesFor + w <= p.votesFor + n * w by {
        assert (n - 1) * w >= 0;
      }
      var s1 := RecordVote(s, id, voter, true).value;
      assert s1.proposals[id] == p.(votesFor := p.votesFor + w);
      assert GetVotingPower(s1, voter) == w;
      RepeatedVotesAccumulate(s1, id, voter, n - 1);
    }
  }
}
