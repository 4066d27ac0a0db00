/**
 The governed-upgrade subsystem as a state machine: the public calls, one
 step of the machine, runs of many steps, and the properties that hold of
 every run — consecutive proposal ids, the proposal lifecycle, and which
 identities may move the version.
 */
module UpgradeMachine {
  import opened Base
  import opened UpgradeTypes
  import opened UpgradeStorage
  import opened UpgradeLogic

  /** One external call into the subsystem. `SetPower` is the storage-level
      weight assignment, which checks no identity. */
  datatype UpgradeCall =
    | Init(version: Version, governance: Address)
    | SetPower(who: Address, power: u32)
    | Propose(env: Env, proposer: Address, newContractAddress: Address, version: Version, description: string)
    | Vote(env: Env, voter: Address, id: u64, voteFor: bool)
    | Execute(env: Env, executor: Address, id: u64)
    | Emergency(env: Env, caller: Address, newContractAddress: Address, version: Version)
    | Toggle(env: Env, caller: Address, enable: bool)
    | RegisterPlan(env: Env, caller: Address, id: u64, plan: MigrationPlan)
    | Rollback(env: Env, caller: Address, target: Version)

  /** The store a call commits, or the error that aborts it. */
  function Step(s: UpgradeStore, c: UpgradeCall): Result<UpgradeStore> {
    match c
    case Init(v, g) => Ok(Initialize(s, v, g))
    case SetPower(a, w) => Ok(SetVotingPower(s, a, w))
    case Propose(env, p, a, v, d) =>
      var r :- ProposeUpgrade(env, s, p, a, v, d);
      Ok(r.0)
    case Vote(env, voter, id, f) => VoteOnProposal(env, s, voter, id, f)
    case Execute(env, e, id) => ExecuteUpgrade(env, s, e, id)
    case Emergency(env, caller, a, v) => EmergencyUpgrade(env, s, caller, a, v)
    case Toggle(env, caller, enable) => ToggleEmergencyUpgrades(env, s, caller, enable)
    case RegisterPlan(env, caller, id, plan) => RegisterMigrationPlan(env, s, caller, id, plan)
    case Rollback(env, caller, t) => RollbackToVersion(env, s, caller, t)
  }

  /** The store after a call: an aborted call leaves it as it was. */
  function After(s: UpgradeStore, c: UpgradeCall): UpgradeStore {
    match Step(s, c)
    case Ok(t) => t
    case Err(_) => s
  }

  /** The proposal id a call returns, if it is a successful proposal. */
  function IssuedBy(s: UpgradeStore, c: UpgradeCall): Option<u64> {
    match c
    case Propose(env, p, a, v, d) =>
      (match ProposeUpgrade(env, s, p, a, v, d)
       case Ok(r) => Some(r.1)
       case Err(_) => None)
    case _ => None
  }

  function Run(s: UpgradeStore, calls: seq<UpgradeCall>): UpgradeStore
    decreases |calls|
  {
    if |calls| == 0 then s else Run(After(s, calls[0]), calls[1..])
  }

  /** The proposal ids returned during a run, in order. */
  function IssuedIds(s: UpgradeStore, calls: seq<UpgradeCall>): seq<u64>
    decreases |calls|
  {
    if |calls| == 0 then []
    else
      var here := match IssuedBy(s, calls[0]) case Some(id) => [id] case None => [];
      here + IssuedIds(After(s, calls[0]), calls[1..])
  }

  /** Only a successful proposal moves the proposal counter, by one, and the
      id it returns is the counter's old value. */
  lemma StepCounter(s: UpgradeStore, c: UpgradeCall)
    ensures IssuedBy(s, c).Some? ==>
      IssuedBy(s, c).value == s.nextProposalId && After(s, c).nextProposalId == s.nextProposalId + 1
    ensures IssuedBy(s, c).None? ==> After(s, c).nextProposalId == s.nextProposalId
  {
  }

  /** Proposal ids are issued consecutively from the counter, with no gap or
      repeat, whatever other calls succeed or fail in between. */
  lemma {:induction false} IdsConsecutive(s: UpgradeStore, calls: seq<UpgradeCall>)
    ensures Run(s, calls).nextProposalId == s.nextProposalId + |IssuedIds(s, calls)|
    ensures forall i :: 0 <= i < |IssuedIds(s, calls)| ==> IssuedIds(s, calls)[i] == s.nextProposalId + i
    decreases |calls|
  {
    if |calls| > 0 {
      var s1 := After(s, calls[0]);
      StepCounter(s, calls[0]);
      IdsConsecutive(s1, calls[1..]);
    }
  }

  /** From a freshly deployed contract the proposals are numbered 1, 2, 3, … */
  lemma IdsFromOne(calls: seq<UpgradeCall>)
    ensures forall i :: 0 <= i < |IssuedIds(EmptyStore, calls)| ==> IssuedIds(EmptyStore, calls)[i] == i + 1
  {
    IdsConsecutive(EmptyStore, calls);
  }

  /** The lifecycle order of statuses: Pending may become anything but
      Cancelled, Approved may become Executed, the rest are terminal. */
  predicate Reaches(a: UpgradeStatus, b: UpgradeStatus) {
    a == b || (a == Pending && b != Cancelled) || (a == Approved && b == Executed)
  }

  /** One edge of the lifecycle, or none: Pending is decided to Approved or
      Rejected, Approved is executed. This is all a single call may do. */
  predicate OneEdge(a: UpgradeStatus, b: UpgradeStatus) {
    a == b || (a == Pending && (b == Approved || b == Rejected)) || (a == Approved && b == Executed)
  }

  /** A single edge lies on the lifecycle, and Pending reaches Executed only
      through Approved: no call skips the approval. */
  lemma OneEdgeOnLifecycle(a: UpgradeStatus, b: UpgradeStatus)
    ensures OneEdge(a, b) ==> Reaches(a, b)
    ensures !OneEdge(Pending, Executed)
    ensures Reaches(Pending, Executed) && OneEdge(Pending, Approved) && OneEdge(Approved, Executed)
  {
  }

  /** How a stored proposal may evolve: along the lifecycle, with tallies that
      only grow and only while Pending, and with every other field fixed. */
  predicate Evolves(p: UpgradeProposal, q: UpgradeProposal) {
    && Reaches(p.status, q.status)
    && q.votesFor >= p.votesFor
    && q.votesAgainst >= p.votesAgainst
    && (p.status != Pending ==> q.votesFor == p.votesFor && q.votesAgainst == p.votesAgainst)
    && q.(status := p.status, votesFor := p.votesFor, votesAgainst := p.votesAgainst) == p
  }

  lemma EvolvesTransitive(p: UpgradeProposal, q: UpgradeProposal, r: UpgradeProposal)
    requires Evolves(p, q) && Evolves(q, r)
    ensures Evolves(p, r)
  {
  }

  /** A proposal as the contract's own calls leave it: under its own id, with
      `total_voters` never set, never Cancelled, and still Pending only while
      neither tally has reached the majority. */
  predicate ProposalOk(k: u64, p: UpgradeProposal) {
    && p.id == k
    && p.totalVoters == 0
    && p.status != Cancelled
    && (p.status == Pending ==> p.votesFor < Required(p) && p.votesAgainst < Required(p))
  }

  /** The invariant of every reachable store. */
  ghost predicate Valid(s: UpgradeStore) {
    && s.nextProposalId >= 1
    && forall k :: k in s.proposals ==> 1 <= k < s.nextProposalId && ProposalOk(k, s.proposals[k])
  }

  lemma EmptyStoreValid()
    ensures Valid(EmptyStore)
  {
  }

  /** What one call may do to the proposals of a valid store: keep the
      invariant, file new proposals only at or above the counter, and move
      each surviving proposal at most one edge along the lifecycle. */
  ghost predicate StepOk(s: UpgradeStore, t: UpgradeStore) {
    && Valid(t)
    && t.nextProposalId >= s.nextProposalId
    && (forall k :: k in t.proposals && k !in s.proposals ==> k >= s.nextProposalId)
    && (forall k :: k in s.proposals && k in t.proposals ==>
          Evolves(s.proposals[k], t.proposals[k]) && OneEdge(s.proposals[k].status, t.proposals[k].status))
  }

  /** A call that leaves the proposals and the counter alone. */
  lemma FrameStepOk(s: UpgradeStore, t: UpgradeStore)
    requires Valid(s) && t.proposals == s.proposals && t.nextProposalId == s.nextProposalId
    ensures StepOk(s, t)
  {
  }

  lemma ProposeStepOk(env: Env, s: UpgradeStore, p: Address, a: Address, v: Version, d: string)
    requires Valid(s)
    ensures StepOk(s, After(s, Propose(env, p, a, v, d)))
  {
    var t := After(s, Propose(env, p, a, v, d));
    if ProposeUpgrade(env, s, p, a, v, d).Ok? {
      var id := ProposeUpgrade(env, s, p, a, v, d).value.1;
      assert forall k :: k in t.proposals && k != id ==> k in s.proposals;
    }
  }

  lemma VoteStepOk(env: Env, s: UpgradeStore, voter: Address, id: u64, f: bool)
    requires Valid(s)
    ensures StepOk(s, After(s, Vote(env, voter, id, f)))
  {
    var t := After(s, Vote(env, voter, id, f));
    if VoteOnProposal(env, s, voter, id, f).Ok? {
      assert FiledUnderOwnId(s, id);
      assert forall k :: k in t.proposals && k != id ==> k in s.proposals;
    }
  }

  lemma ExecuteStepOk(env: Env, s: UpgradeStore, e: Address, id: u64)
    requires Valid(s)
    ensures StepOk(s, After(s, Execute(env, e, id)))
  {
    var t := After(s, Execute(env, e, id));
    if ExecuteUpgrade(env, s, e, id).Ok? {
      assert FiledUnderOwnId(s, id);
      assert forall k :: k in t.proposals && k != id ==> k in s.proposals;
    }
  }

  /** Every call keeps the invariant. */
  lemma StepPreservesValid(s: UpgradeStore, c: UpgradeCall)
    requires Valid(s)
    ensures StepOk(s, After(s, c))
  {
    match c {
      case Init(v, g) =>
      case Propose(env, p, a, v, d) => ProposeStepOk(env, s, p, a, v, d);
      case Vote(env, voter, id, f) => VoteStepOk(env, s, voter, id, f);
      case Execute(env, e, id) => ExecuteStepOk(env, s, e, id);
      case _ => FrameStepOk(s, After(s, c));
    }
  }

  /** No single call executes a proposal that was still Pending: execution
      needs a separate call after the approving vote. */
  lemma NoCallSkipsApproval(s: UpgradeStore, c: UpgradeCall, k: u64)
    requires Valid(s) && k in s.proposals && k in After(s, c).proposals
    requires s.proposals[k].status == Pending
    ensures After(s, c).proposals[k].status in {Pending, Approved, Rejected}
  {
    StepPreservesValid(s, c);
  }

  /** The run-level invariant: every reachable store is valid, and each
      proposal present at both ends of a run has evolved along the lifecycle. */
  lemma {:induction false} RunPreservesValid(s: UpgradeStore, calls: seq<UpgradeCall>)
    requires Valid(s)
    ensures Valid(Run(s, calls))
    ensures Run(s, calls).nextProposalId >= s.nextProposalId
    ensures forall k :: k in Run(s, calls).proposals && k !in s.proposals ==> k >= s.nextProposalId
    ensures forall k :: k in s.proposals && k in Run(s, calls).proposals ==>
      Evolves(s.proposals[k], Run(s, calls).proposals[k])
    decreases |calls|
  {
    if |calls| > 0 {
      var s1 := After(s, calls[0]);
      var e := Run(s, calls);
      StepPreservesValid(s, calls[0]);
      RunPreservesValid(s1, calls[1..]);
      assert e == Run(s1, calls[1..]);
      forall k | k in s.proposals && k in e.proposals
        ensures Evolves(s.proposals[k], e.proposals[k])
      {
        assert k in s1.proposals;
        EvolvesTransitive(s.proposals[k], s1.proposals[k], e.proposals[k]);
      }
    }
  }

  /** Executed and Rejected proposals never change again. */
  lemma TerminalIsFinal(s: UpgradeStore, calls: seq<UpgradeCall>, k: u64)
    requires Valid(s) && k in s.proposals && k in Run(s, calls).proposals
    requires s.proposals[k].status == Executed || s.proposals[k].status == Rejected
    ensures Run(s, calls).proposals[k] == s.proposals[k]
  {
    RunPreservesValid(s, calls);
  }

  /** In every reachable store the majority needed is one vote, so a single
      vote of weight at least 1 decides any Pending proposal. */
  lemma ReachableSingleVoteDecides(calls: seq<UpgradeCall>, env: Env, voter: Address, id: u64, voteFor: bool)
    requires var s := Run(EmptyStore, calls);
      voter in env.signers && id in s.proposals && s.proposals[id].status == Pending
      && GetVotingPower(s, voter) >= 1
    ensures var s := Run(EmptyStore, calls);
      VoteOnProposal(env, s, voter, id, voteFor).Ok? &&
      GetUpgradeProposal(VoteOnProposal(env, s, voter, id, voteFor).value, id).value.status
        == if voteFor then Approved else Rejected
  {
    var s := Run(EmptyStore, calls);
    RunPreservesValid(EmptyStore, calls);
    SingleVoteDecides(env, s, voter, id, voteFor);
  }

  /** Calls on a proposal that has left Pending are refused with nothing
      changed: votes need Pending, execution needs Approved. */
  lemma DecidedProposalsRefuse(env: Env, s: UpgradeStore, a: Address, id: u64, voteFor: bool)
    requires a in env.signers && id in s.proposals
    requires s.proposals[id].status in {Executed, Rejected, Cancelled}
    ensures VoteOnProposal(env, s, a, id, voteFor) == Err(InvalidState)
    ensures ExecuteUpgrade(env, s, a, id) == Err(InvalidState)
  {
  }

  /** The identity acting in a call, where the call has one. */
  function Actor(c: UpgradeCall): Option<Address> {
    match c
    case Init(_, _) => None
    case SetPower(_, _) => None
    case Propose(_, p, _, _, _) => Some(p)
    case Vote(_, v, _, _) => Some(v)
    case Execute(_, e, _) => Some(e)
    case Emergency(_, a, _, _) => Some(a)
    case Toggle(_, a, _) => Some(a)
    case RegisterPlan(_, a, _, _) => Some(a)
    case Rollback(_, a, _) => Some(a)
  }

  /** Only a signed call by the governance address can change the current
      version, the emergency flag or a migration plan. */
  lemma GovernanceGuardsConfiguration(s: UpgradeStore, c: UpgradeCall)
    requires !c.Init? && !c.SetPower?
    requires Step(s, c).Ok?
    requires var t := Step(s, c).value;
      t.currentVersion != s.currentVersion || t.emergencyEnabled != s.emergencyEnabled
      || t.migrationPlans != s.migrationPlans
    ensures s.governance == Actor(c) && Actor(c).value in c.env.signers
  {
  }

  /** A full governed upgrade from deployment: one proposal, one weighted
      vote, one execution. */
  lemma EndToEnd(g: Address, a: Address, b: Address, addr: Address, desc: string, now: u64)
    requires g != b
    ensures var env := Env(now, {g, a, b});
      var calls := [
        Init(NewVersion(1, 0, 0), g),
        Propose(env, a, addr, NewVersion(1, 1, 0), desc),
        SetPower(b, 10),
        Vote(env, b, 1, true),
        Execute(env, g, 1)];
      && IssuedIds(EmptyStore, calls) == [1]
      && Run(EmptyStore, calls).currentVersion == Some(NewVersion(1, 1, 0))
      && 1 in Run(EmptyStore, calls).proposals
      && Run(EmptyStore, calls).proposals[1].status == Executed
      && Run(EmptyStore, calls).proposals[1].votesFor == 10
  {
    var env := Env(now, {g, a, b});
    var c0 := Init(NewVersion(1, 0, 0), g);
    var c1 := Propose(env, a, addr, NewVersion(1, 1, 0), desc);
    var c2 := SetPower(b, 10);
    var c3 := Vote(env, b, 1, true);
    var c4 := Execute(env, g, 1);
    var s1 := After(EmptyStore, c0);
    var s2 := After(s1, c1);
    assert IssuedBy(s1, c1) == Some(1);
    assert s2.proposals[1].status == Pending && s2.proposals[1].id == 1;
    var s3 := After(s2, c2);
    assert GetVotingPower(s3, b) == 10;
    var s4 := After(s3, c3);
    assert s4.proposals[1].status == Approved && s4.proposals[1].votesFor == 10;
    var s5 := After(s4, c4);
    assert s5.currentVersion == Some(NewVersion(1, 1, 0));
    assert Run(s4, [c4]) == s5 && IssuedIds(s4, [c4]) == [];
    assert [c3, c4][1..] == [c4];
    assert Run(s3, [c3, c4]) == s5 && IssuedIds(s3, [c3, c4]) == [];
    assert [c2, c3, c4][1..] == [c3, c4];
    assert Run(s2, [c2, c3, c4]) == s5 && IssuedIds(s2, [c2, c3, c4]) == [];
    assert [c1, c2, c3, c4][1..] == [c2, c3, c4];
    assert Run(s1, [c1, c2, c3, c4]) == s5 && IssuedIds(s1, [c1, c2, c3, c4]) == [1];
    assert [c0, c1, c2, c3, c4][1..] == [c1, c2, c3, c4];
  }
}
