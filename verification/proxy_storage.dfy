/**
 Persistent state of the proxy-redirection subsystem and its accessors.

 The configuration and the dedicated implementation slot are written by
 `initialize` and `expect`ed by readers, so they are `Option`s. The history
 map and the upgrade counter default when absent (empty map, 1), and hold
 those defaults in the empty store.
 */
module ProxyStorage {
  import opened Base
  import opened ProxyTypes

  datatype ProxyStore = ProxyStore(
    config: Option<ProxyConfig>,
    implementationSlot: Option<Address>,
    history: map<u64, UpgradeTransaction>,
    nextUpgradeId: u64)   // instance entry `nxt_upg`, read with default 1

  /** The store of a freshly deployed proxy, before `initialize`. */
  const EmptyProxy: ProxyStore := ProxyStore(None, None, map[], 1)

  /** The implementation slot is a copy of `config.implementation`, and both
      exist exactly when the proxy is initialised. */
  ghost predicate SlotMirrorsConfig(s: ProxyStore) {
    && (s.config.Some? <==> s.implementationSlot.Some?)
    && (s.config.Some? ==> s.implementationSlot.value == s.config.value.implementation)
  }

  /** `initialize`: version 1, stamped now, with the implementation in both
      places and an empty history. The upgrade counter lives in instance
      storage and is left as it was. */
  function Initialize(env: Env, s: ProxyStore, initialImplementation: Address, admin: Address): (r: ProxyStore)
    ensures GetProxyConfig(r) == Ok(ProxyConfig(initialImplementation, admin, 1, env.now))
    ensures GetImplementation(r) == Ok(initialImplementation)
    ensures forall id :: GetUpgradeTransaction(r, id) == None
    ensures r.nextUpgradeId == s.nextUpgradeId
    ensures SlotMirrorsConfig(r)
  {
    var config := ProxyConfig(initialImplementation, admin, 1, env.now);
    ProxyStore(Some(config), Some(config.implementation), map[], s.nextUpgradeId)
  }

  /** `get_proxy_config`: panics before `initialize`. */
  function GetProxyConfig(s: ProxyStore): (r: Result<ProxyConfig>)
    ensures r.Ok? <==> s.config.Some?
    ensures r.Err? ==> r.error == Uninitialized
  {
    match s.config
    case Some(c) => Ok(c)
    case None => Err(Uninitialized)
  }

  /** `get_implementation`: reads the dedicated slot; panics before `initialize`. */
  function GetImplementation(s: ProxyStore): (r: Result<Address>)
    ensures r.Ok? <==> s.implementationSlot.Some?
    ensures r.Err? ==> r.error == Uninitialized
    ensures SlotMirrorsConfig(s) && r.Ok? ==> r.value == s.config.value.implementation
  {
    match s.implementationSlot
    case Some(a) => Ok(a)
    case None => Err(Uninitialized)
  }

  /** `set_implementation`: points slot and configuration at `implementation`,
      counts one more version and stamps the time. The slot is written before
      the configuration is read, but a missing configuration panics and the
      whole call is undone, as is a version counter at `u32::MAX`. */
  function SetImplementation(env: Env, s: ProxyStore, implementation: Address): (r: Result<ProxyStore>)
    ensures s.config.None? ==> r == Err(Uninitialized)
    ensures r.Ok? <==> s.config.Some? && s.config.value.version < MAX_U32
    ensures r.Err? && s.config.Some? ==> r.error == Overflow
    ensures r.Ok? ==> r.value.config.Some?
    ensures r.Ok? ==>
      var c := s.config.value;
      var c' := r.value.config.value;
      && GetImplementation(r.value) == Ok(implementation)
      && c'.implementation == implementation
      && c'.version == c.version + 1
      && c'.lastUpdated == env.now
      && c'.admin == c.admin
      && r.value.history == s.history
      && r.value.nextUpgradeId == s.nextUpgradeId
      && SlotMirrorsConfig(r.value)
  {
    var config :- GetProxyConfig(s);
    var version :- AddU32(config.version, 1);
    Ok(s.(implementationSlot := Some(implementation),
          config := Some(config.(implementation := implementation, version := version,
                                 lastUpdated := env.now))))
  }

  /** `get_admin`. */
  function GetAdmin(s: ProxyStore): (r: Result<Address>)
    ensures r.Ok? <==> s.config.Some?
    ensures r.Ok? ==> r.value == s.config.value.admin
  {
    var config :- GetProxyConfig(s);
    Ok(config.admin)
  }

  /** `set_admin`: replaces the admin and stamps the time; the implementation
      (in both places), the version and the history are untouched. */
  function SetAdmin(env: Env, s: ProxyStore, admin: Address): (r: Result<ProxyStore>)
    ensures r.Ok? <==> s.config.Some?
    ensures r.Err? ==> r.error == Uninitialized
    ensures r.Ok? ==>
      && r.value.config.Some?
      && GetAdmin(r.value) == Ok(admin)
      && r.value.config.value.lastUpdated == env.now
      && r.value.config.value.(admin := s.config.value.admin, lastUpdated := s.config.value.lastUpdated)
         == s.config.value
      && r.value.(config := s.config) == s
    ensures r.Ok? && SlotMirrorsConfig(s) ==> SlotMirrorsConfig(r.value)
  {
    var config :- GetProxyConfig(s);
    Ok(s.(config := Some(config.(admin := admin, lastUpdated := env.now))))
  }

  /** `get_upgrade_transaction`. */
  function GetUpgradeTransaction(s: ProxyStore, id: u64): (r: Option<UpgradeTransaction>)
    ensures r.Some? <==> id in s.history
  {
    if id in s.history then Some(s.history[id]) else None
  }

  /** `record_upgrade_transaction`: files the record under its own id; other
      records and the rest of the store are untouched. */
  function RecordUpgradeTransaction(s: ProxyStore, tx: UpgradeTransaction): (r: ProxyStore)
    ensures GetUpgradeTransaction(r, tx.id) == Some(tx)
    ensures forall k :: k != tx.id ==> GetUpgradeTransaction(r, k) == GetUpgradeTransaction(s, k)
    ensures r.(history := s.history) == s
  {
    s.(history := s.history[tx.id := tx])
  }

  /** `is_admin`: panics before `initialize`. */
  function IsAdmin(s: ProxyStore, a: Address): (r: Result<bool>)
    ensures r.Ok? <==> s.config.Some?
    ensures r.Err? ==> r.error == Uninitialized
    ensures r.Ok? ==> (r.value <==> GetAdmin(s) == Ok(a))
  {
    var config :- GetProxyConfig(s);
    Ok(config.admin == a)
  }

  /** `is_current_implementation`: compares against the dedicated slot. */
  function IsCurrentImplementation(s: ProxyStore, a: Address): (r: Result<bool>)
    ensures r.Ok? <==> s.implementationSlot.Some?
    ensures r.Err? ==> r.error == Uninitialized
    ensures r.Ok? ==> (r.value <==> GetImplementation(s) == Ok(a))
    ensures SlotMirrorsConfig(s) && r.Ok? ==> (r.value <==> s.config.value.implementation == a)
  {
    var current :- GetImplementation(s);
    Ok(current == a)
  }

  /** Before `initialize` every expected read fails and the history is empty. */
  lemma EmptyProxyDefaults(a: Address, id: u64)
    ensures GetProxyConfig(EmptyProxy) == Err(Uninitialized)
    ensures GetImplementation(EmptyProxy) == Err(Uninitialized)
    ensures IsAdmin(EmptyProxy, a) == Err(Uninitialized)
    ensures GetUpgradeTransaction(EmptyProxy, id) == None
    ensures SlotMirrorsConfig(EmptyProxy)
  {
  }
}
