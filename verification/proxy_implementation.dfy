/**
 Entry points of the proxy-redirection subsystem. As on the governance side,
 each call returns the store to commit or the error that aborted it, and an
 aborted call commits nothing: the id counter, slot, configuration and
 history writes of `upgrade` happen together or not at all.
 */
module ProxyImplementation {
  import opened Base
  import opened ProxyTypes
  import opened ProxyStorage

  /** The admin gate of `upgrade`, `transfer_admin`, `emergency_stop` and
      `resume`: the caller signed, the proxy is initialised, the caller is admin. */
  function RequireAdmin(env: Env, s: ProxyStore, caller: Address): (r: Result<()>)
    ensures caller !in env.signers ==> r == Err(NotAuthenticated)
    ensures caller in env.signers && s.config.None? ==> r == Err(Uninitialized)
    ensures caller in env.signers && s.config.Some? && s.config.value.admin != caller ==>
      r == Err(Unauthorized)
    ensures r.Ok? <==> caller in env.signers && GetAdmin(s) == Ok(caller)
  {
    var _ :- RequireAuth(env, caller);
    var isAdmin :- IsAdmin(s, caller);
    if !isAdmin then Err(Unauthorized) else Ok(())
  }

  /** `upgrade`: the admin redirects the proxy to `newImplementation`. The
      admin check comes before the id is drawn, so a refused call uses no id.
      On success the next id is drawn, the implementation is installed with
      one more version, and a successful audit record by `caller` is filed
      under that id. */
  function Upgrade(env: Env, s: ProxyStore, caller: Address, newImplementation: Address): (r: Result<ProxyStore>)
    ensures RequireAdmin(env, s, caller).Err? ==> r == Err(RequireAdmin(env, s, caller).error)
    ensures r.Ok? <==>
      && caller in env.signers && GetAdmin(s) == Ok(caller)
      && s.nextUpgradeId < MAX_U64 && s.config.value.version < MAX_U32
    ensures r.Ok? ==> r.value.config.Some?
    ensures r.Ok? ==>
      var id := s.nextUpgradeId;
      var c := s.config.value;
      var c' := r.value.config.value;
      && r.value.nextUpgradeId == id + 1
      && GetImplementation(r.value) == Ok(newImplementation)
      && c'.implementation == newImplementation
      && c'.version == c.version + 1
      && c'.lastUpdated == env.now
      && c'.admin == c.admin
      && GetUpgradeTransaction(r.value, id) == Some(UpgradeTransaction(id, newImplementation, caller, env.now, true, None))
      && forall k :: k != id ==> GetUpgradeTransaction(r.value, k) == GetUpgradeTransaction(s, k)
    ensures r.Ok? ==> SlotMirrorsConfig(r.value)
  {
    var _ :- RequireAdmin(env, s, caller);
    var id := s.nextUpgradeId;
    var next :- IncU64(id);
    var tx := UpgradeTransaction(id, newImplementation, caller, env.now, true, None);
    var s1 :- SetImplementation(env, s.(nextUpgradeId := next), newImplementation);
    Ok(RecordUpgradeTransaction(s1, tx))
  }

  /** `transfer_admin`: the admin hands over at once; no acceptance by the
      new admin is awaited. Implementation and version stay as they were. */
  function TransferAdmin(env: Env, s: ProxyStore, caller: Address, newAdmin: Address): (r: Result<ProxyStore>)
    ensures RequireAdmin(env, s, caller).Err? ==> r == Err(RequireAdmin(env, s, caller).error)
    ensures r.Ok? <==> caller in env.signers && GetAdmin(s) == Ok(caller)
    ensures r.Ok? ==> forall a :: IsAdmin(r.value, a) == Ok(a == newAdmin)
    ensures r.Ok? ==> r.value.config.Some?
    ensures r.Ok? ==>
      && r.value.config.value.implementation == s.config.value.implementation
      && r.value.config.value.version == s.config.value.version
      && r.value.config.value.lastUpdated == env.now
      && GetImplementation(r.value) == GetImplementation(s)
      && r.value.history == s.history
      && r.value.nextUpgradeId == s.nextUpgradeId
    ensures r.Ok? && SlotMirrorsConfig(s) ==> SlotMirrorsConfig(r.value)
  {
    var _ :- RequireAdmin(env, s, caller);
    SetAdmin(env, s, newAdmin)
  }

  /** `accept_admin`: only the signature of `newAdmin` is checked; the call
      changes nothing. */
  function AcceptAdmin(env: Env, s: ProxyStore, newAdmin: Address): (r: Result<ProxyStore>)
    ensures r.Ok? <==> newAdmin in env.signers
    ensures r.Err? ==> r.error == NotAuthenticated
    ensures r.Ok? ==> r.value == s
  {
    var _ :- RequireAuth(env, newAdmin);
    Ok(s)
  }

  /** `emergency_stop`: admin-only, and changes nothing; no paused state exists. */
  function EmergencyStop(env: Env, s: ProxyStore, caller: Address): (r: Result<ProxyStore>)
    ensures RequireAdmin(env, s, caller).Err? ==> r == Err(RequireAdmin(env, s, caller).error)
    ensures r.Ok? <==> caller in env.signers && GetAdmin(s) == Ok(caller)
    ensures r.Ok? ==> r.value == s
  {
    var _ :- RequireAdmin(env, s, caller);
    Ok(s)
  }

  /** `resume`: admin-only, and changes nothing. */
  function Resume(env: Env, s: ProxyStore, caller: Address): (r: Result<ProxyStore>)
    ensures RequireAdmin(env, s, caller).Err? ==> r == Err(RequireAdmin(env, s, caller).error)
    ensures r.Ok? <==> caller in env.signers && GetAdmin(s) == Ok(caller)
    ensures r.Ok? ==> r.value == s
  {
    var _ :- RequireAdmin(env, s, caller);
    Ok(s)
  }

  /** `get_proxy_info`: the stored configuration, which panics before `initialize`. */
  function GetProxyInfo(s: ProxyStore): (r: Result<ProxyConfig>)
    ensures r.Ok? <==> s.config.Some?
    ensures r.Err? ==> r.error == Uninitialized
    ensures r.Ok? ==> GetAdmin(s) == Ok(r.value.admin)
    ensures r.Ok? && SlotMirrorsConfig(s) ==> GetImplementation(s) == Ok(r.value.implementation)
  {
    GetProxyConfig(s)
  }

  /** `is_paused`: no paused state is kept, so the proxy never reports paused. */
  function IsPaused(s: ProxyStore): (paused: bool)
    ensures !paused
  {
    false
  }

  /** An emergency stop does not block later upgrades: after it, `upgrade`
      behaves exactly as it would have before. */
  lemma EmergencyStopDoesNotBlockUpgrade(env: Env, env': Env, s: ProxyStore, admin: Address, caller: Address, impl: Address)
    requires EmergencyStop(env, s, admin).Ok?
    ensures !IsPaused(EmergencyStop(env, s, admin).value)
    ensures Upgrade(env', EmergencyStop(env, s, admin).value, caller, impl) == Upgrade(env', s, caller, impl)
  {
  }

  /** After an admin transfer, the old admin can no longer redirect the
      proxy, and the new admin can (counters permitting). */
  lemma TransferMovesUpgradeRight(env: Env, env': Env, s: ProxyStore, admin: Address, newAdmin: Address, impl: Address)
    requires admin != newAdmin && admin in env'.signers && newAdmin in env'.signers
    requires TransferAdmin(env, s, admin, newAdmin).Ok?
    ensures Upgrade(env', TransferAdmin(env, s, admin, newAdmin).value, admin, impl) == Err(Unauthorized)
    ensures var t := TransferAdmin(env, s, admin, newAdmin).value;
      t.nextUpgradeId < MAX_U64 && t.config.value.version < MAX_U32 ==> Upgrade(env', t, newAdmin, impl).Ok?
  {
  }
}
