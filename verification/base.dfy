/**
 Shared vocabulary of both subsystems: machine integer widths, opaque
 identities, the ledger environment of one call, and the failure outcomes
 of the contract's entry points.
 */
module Base {

  const MAX_U32: nat := 0xFFFF_FFFF
  const MAX_U64: nat := 0xFFFF_FFFF_FFFF_FFFF

  /** Rust `u32` and `u64`: unbounded naturals restricted to the machine range. */
  type u32 = x: int | 0 <= x <= 0xFFFF_FFFF
  type u64 = x: int | 0 <= x <= 0xFFFF_FFFF_FFFF_FFFF

  /** A Soroban `Address`. Only its identity matters to the core: two
      addresses are compared for equality and nothing else. */
  datatype Address = Address(key: nat)

  /** What the host tells one call about its surroundings: the ledger
      timestamp, and the addresses whose `require_auth` succeeds. */
  datatype Env = Env(now: u64, signers: set<Address>)

  /** Failure outcomes. The source returns string messages or panics; each
      message or panic is mapped to the kind it reports. */
  datatype Error =
    | NotAuthenticated   // `require_auth` rejected the call
    | Uninitialized      // `expect` on a storage key that `initialize` writes
    | NotFound           // "Proposal does not exist"
    | InvalidState       // proposal not in the status the operation needs
    | Unauthorized       // caller is not the admin / governance address
    | NotEnabled         // emergency upgrades are switched off
    | InvalidTransition  // rollback outside the same major series
    | Overflow           // checked integer arithmetic panicked

  datatype Option<+T> = None | Some(value: T)

  /** The result of one entry point: the new state (or a returned value), or
      the error that aborted the call. An aborted call commits nothing. */
  datatype Result<+T> = Ok(value: T) | Err(error: Error)
  {
    predicate IsFailure() {
      Err?
    }

    function PropagateFailure<U>(): Result<U>
      requires Err?
    {
      Err(error)
    }

    function Extract(): T
      requires Ok?
    {
      value
    }
  }

  /** `address.require_auth()`: aborts the call unless `a` signed it. */
  function RequireAuth(env: Env, a: Address): (r: Result<()>)
    ensures r.Ok? <==> a in env.signers
    ensures r.Err? ==> r.error == NotAuthenticated
  {
    if a in env.signers then Ok(()) else Err(NotAuthenticated)
  }

  /** `a + b` on `u32` with overflow checks: the sum, or a panic. */
  function AddU32(a: u32, b: u32): (r: Result<u32>)
    ensures r.Ok? <==> a + b <= MAX_U32
    ensures r.Ok? ==> r.value - a == b
    ensures r.Err? ==> r.error == Overflow
  {
    if a + b <= MAX_U32 then Ok(a + b) else Err(Overflow)
  }

  /** `n + 1` on `u64` with overflow checks. */
  function IncU64(n: u64): (r: Result<u64>)
    ensures r.Ok? <==> n < MAX_U64
    ensures r.Ok? ==> r.value > n && r.value - 1 == n
    ensures r.Err? ==> r.error == Overflow
  {
    if n < MAX_U64 then Ok(n + 1) else Err(Overflow)
  }
}
