/**
 Value types of the governed-upgrade subsystem: semantic versions with their
 (asymmetric) compatibility relation, the proposal status enumeration, and
 the proposal and migration-plan records.
 */
module UpgradeTypes {
  import opened Base

  datatype Version = Version(major: u32, minor: u32, patch: u32)

  /** `Version::new`: the components are kept exactly as given. */
  function NewVersion(major: u32, minor: u32, patch: u32): (v: Version)
    ensures (v.major, v.minor, v.patch) == (major, minor, patch)
  {
    Version(major, minor, patch)
  }

  /** `v.is_compatible_with(other)`: same major series, and `v` is at least as
      recent in minor. The patch level plays no part. */
  predicate IsCompatibleWith(v: Version, other: Version) {
    v.major == other.major && v.minor >= other.minor
  }

  lemma CompatibleReflexive(v: Version)
    ensures IsCompatibleWith(v, v)
  {
  }

  lemma CompatibleTransitive(a: Version, b: Version, c: Version)
    requires IsCompatibleWith(a, b) && IsCompatibleWith(b, c)
    ensures IsCompatibleWith(a, c)
  {
  }

  /** Compatibility in both directions pins major and minor, never patch. */
  lemma CompatibleBothWays(a: Version, b: Version)
    ensures IsCompatibleWith(a, b) && IsCompatibleWith(b, a)
        <==> a.major == b.major && a.minor == b.minor
  {
  }

  lemma PatchIgnored(a: Version, b: Version, p: u32)
    ensures IsCompatibleWith(a.(patch := p), b) == IsCompatibleWith(a, b)
    ensures IsCompatibleWith(a, b.(patch := p)) == IsCompatibleWith(a, b)
  {
  }

  lemma DifferentMajorsIncompatible(a: Version, b: Version)
    requires a.major != b.major
    ensures !IsCompatibleWith(a, b) && !IsCompatibleWith(b, a)
  {
  }

  /** Within one major series, compatibility holds in exactly one direction
      when the minors differ: the relation is not symmetric. */
  lemma CompatibleAsymmetric(a: Version, b: Version)
    requires a.major == b.major && a.minor != b.minor
    ensures IsCompatibleWith(a, b) != IsCompatibleWith(b, a)
  {
  }

  /** The concrete cases the repository's unit test pins down. */
  lemma CompatibilityExamples()
    ensures IsCompatibleWith(NewVersion(1, 0, 0), NewVersion(1, 0, 0))
    ensures IsCompatibleWith(NewVersion(1, 1, 0), NewVersion(1, 0, 0))
    ensures !IsCompatibleWith(NewVersion(1, 0, 0), NewVersion(1, 1, 0))
    ensures !IsCompatibleWith(NewVersion(2, 0, 0), NewVersion(1, 0, 0))
    ensures !IsCompatibleWith(NewVersion(1, 0, 0), NewVersion(2, 0, 0))
  {
  }

  datatype UpgradeStatus = Pending | Approved | Executed | Rejected | Cancelled

  /** The `as u32` value of each status. */
  function Discriminant(s: UpgradeStatus): (d: nat)
    ensures d < 5
  {
    match s
    case Pending => 0
    case Approved => 1
    case Executed => 2
    case Rejected => 3
    case Cancelled => 4
  }

  /** The status a discriminant denotes, if any: the inverse of `Discriminant`. */
  function StatusOf(d: nat): (r: Option<UpgradeStatus>)
    ensures r.Some? <==> d < 5
  {
    if d == 0 then Some(Pending)
    else if d == 1 then Some(Approved)
    else if d == 2 then Some(Executed)
    else if d == 3 then Some(Rejected)
    else if d == 4 then Some(Cancelled)
    else None
  }

  /** Exactly five statuses, numbered 0 to 4 one-to-one. */
  lemma DiscriminantBijection(s: UpgradeStatus, d: nat)
    ensures StatusOf(Discriminant(s)) == Some(s)
    ensures StatusOf(d).Some? ==> Discriminant(StatusOf(d).value) == d
  {
  }

  lemma DiscriminantValues()
    ensures Discriminant(Pending) == 0 && Discriminant(Approved) == 1
    ensures Discriminant(Executed) == 2 && Discriminant(Rejected) == 3
    ensures Discriminant(Cancelled) == 4
  {
  }

  /** A proposal to move the contract to `version`. `description` is an opaque
      payload; the tallies are weighted sums of voting power. */
  datatype UpgradeProposal = UpgradeProposal(
    id: u64,
    proposer: Address,
    newContractAddress: Address,
    version: Version,
    description: string,
    timestamp: u64,
    status: UpgradeStatus,
    votesFor: u32,
    votesAgainst: u32,
    totalVoters: u32)

  /** Votes needed to decide a proposal: a simple majority of `totalVoters`. */
  function Required(p: UpgradeProposal): (n: nat)
    ensures n >= 1 && 2 * n > p.totalVoters
    ensures 2 * (n - 1) <= p.totalVoters
  {
    p.totalVoters / 2 + 1
  }

  /** A migration between two versions; the selector names a migration
      routine and is not interpreted here. */
  datatype MigrationPlan = MigrationPlan(
    fromVersion: Version,
    toVersion: Version,
    migrationFunctionSelector: string,
    estimatedGas: u64)
}
