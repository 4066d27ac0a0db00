/**
 The proxy-redirection subsystem as a state machine: its public calls, runs
 of many calls, and what holds of every run — the slot mirrors the
 configuration, upgrade ids are consecutive, the history holds one
 successful record per upgrade under its own id, and the version counts them.
 */
module ProxyMachine {
  import opened Base
  import opened ProxyTypes
  import opened ProxyStorage
  import P = ProxyImplementation

  datatype ProxyCall =
    | Init(env: Env, implementation: Address, admin: Address)
    | Upgrade(env: Env, caller: Address, newImplementation: Address)
    | TransferAdmin(env: Env, caller: Address, newAdmin: Address)
    | AcceptAdmin(env: Env, newAdmin: Address)
    | EmergencyStop(env: Env, caller: Address)
    | Resume(env: Env, caller: Address)

  function Step(s: ProxyStore, c: ProxyCall): Result<ProxyStore> {
    match c
    case Init(env, impl, admin) => Ok(Initialize(env, s, impl, admin))
    case Upgrade(env, caller, impl) => P.Upgrade(env, s, caller, impl)
    case TransferAdmin(env, caller, a) => P.TransferAdmin(env, s, caller, a)
    case AcceptAdmin(env, a) => P.AcceptAdmin(env, s, a)
    case EmergencyStop(env, caller) => P.EmergencyStop(env, s, caller)
    case Resume(env, caller) => P.Resume(env, s, caller)
  }

  /** The store after a call: an aborted call leaves it as it was. */
  function After(s: ProxyStore, c: ProxyCall): ProxyStore {
    match Step(s, c)
    case Ok(t) => t
    case Err(_) => s
  }

  /** The id of the audit record a call files, if it is a successful upgrade. */
  function IssuedBy(s: ProxyStore, c: ProxyCall): Option<u64> {
    if c.Upgrade? && Step(s, c).Ok? then Some(s.nextUpgradeId) else None
  }

  function Run(s: ProxyStore, calls: seq<ProxyCall>): ProxyStore
    decreases |calls|
  {
    if |calls| == 0 then s else Run(After(s, calls[0]), calls[1..])
  }

  /** The audit ids filed during a run, in order. */
  function IssuedIds(s: ProxyStore, calls: seq<ProxyCall>): seq<u64>
    decreases |calls|
  {
    if |calls| == 0 then []
    else
      var here := match IssuedBy(s, calls[0]) case Some(id) => [id] case None => [];
      here + IssuedIds(After(s, calls[0]), calls[1..])
  }

  /** A history record as `upgrade` files it: under its own id, below the
      counter, successful and without a failure reason. */
  predicate RecordOk(k: u64, next: u64, tx: UpgradeTransaction) {
    && 1 <= k < next
    && tx.id == k
    && tx.success
    && tx.failureReason == None
  }

  /** The invariant of every reachable proxy store. */
  ghost predicate Valid(s: ProxyStore) {
    && s.nextUpgradeId >= 1
    && SlotMirrorsConfig(s)
    && (s.config.None? ==> s.history == map[])
    && (s.config.Some? ==> s.config.value.version == 1 + |s.history|)
    && forall k :: k in s.history ==> RecordOk(k, s.nextUpgradeId, s.history[k])
  }

  lemma EmptyProxyValid()
    ensures Valid(EmptyProxy)
  {
  }

  lemma UpgradeStepValid(env: Env, s: ProxyStore, caller: Address, impl: Address)
    requires Valid(s)
    ensures Valid(After(s, Upgrade(env, caller, impl)))
  {
    var t := After(s, Upgrade(env, caller, impl));
    if P.Upgrade(env, s, caller, impl).Ok? {
      var id := s.nextUpgradeId;
      assert id !in s.history;
      assert t.history == s.history[id := t.history[id]];
      assert |t.history| == |s.history| + 1;
      forall k | k in t.history
        ensures RecordOk(k, t.nextUpgradeId, t.history[k])
      {
        if k != id {
          assert GetUpgradeTransaction(t, k) == GetUpgradeTransaction(s, k);
        }
      }
    }
  }

  /** Every call keeps the invariant. */
  lemma StepPreservesValid(s: ProxyStore, c: ProxyCall)
    requires Valid(s)
    ensures Valid(After(s, c))
  {
    match c {
      case Upgrade(env, caller, impl) => UpgradeStepValid(env, s, caller, impl);
      case _ =>
    }
  }

  /** Every reachable proxy store satisfies the invariant. */
  lemma {:induction false} RunPreservesValid(s: ProxyStore, calls: seq<ProxyCall>)
    requires Valid(s)
    ensures Valid(Run(s, calls))
    decreases |calls|
  {
    if |calls| > 0 {
      StepPreservesValid(s, calls[0]);
      RunPreservesValid(After(s, calls[0]), calls[1..]);
    }
  }

  /** Only a successful upgrade moves the id counter, by one, and only it
      moves the version, by one; re-initialising resets the version only. */
  lemma StepCounter(s: ProxyStore, c: ProxyCall)
    ensures IssuedBy(s, c).Some? ==>
      IssuedBy(s, c).value == s.nextUpgradeId && After(s, c).nextUpgradeId == s.nextUpgradeId + 1
    ensures IssuedBy(s, c).None? ==> After(s, c).nextUpgradeId == s.nextUpgradeId
    ensures !c.Init? && s.config.Some? ==>
      (After(s, c).config.Some? &&
       After(s, c).config.value.version == s.config.value.version + (if IssuedBy(s, c).Some? then 1 else 0))
  {
  }

  /** Upgrade ids are drawn consecutively from the counter, with no gap or
      repeat, whatever other calls succeed or fail in between. */
  lemma {:induction false} IdsConsecutive(s: ProxyStore, calls: seq<ProxyCall>)
    ensures Run(s, calls).nextUpgradeId == s.nextUpgradeId + |IssuedIds(s, calls)|
    ensures forall i :: 0 <= i < |IssuedIds(s, calls)| ==> IssuedIds(s, calls)[i] == s.nextUpgradeId + i
    decreases |calls|
  {
    if |calls| > 0 {
      StepCounter(s, calls[0]);
      IdsConsecutive(After(s, calls[0]), calls[1..]);
    }
  }

  /** From a freshly deployed proxy the upgrades are numbered 1, 2, 3, … */
  lemma IdsFromOne(calls: seq<ProxyCall>)
    ensures forall i :: 0 <= i < |IssuedIds(EmptyProxy, calls)| ==> IssuedIds(EmptyProxy, calls)[i] == i + 1
  {
    IdsConsecutive(EmptyProxy, calls);
  }

  /** Between re-initialisations, the version grows by exactly the number of
      successful upgrades; right after `initialize` it is therefore one more
      than the number of upgrades since. */
  lemma {:induction false} VersionCountsUpgrades(s: ProxyStore, calls: seq<ProxyCall>)
    requires s.config.Some?
    requires forall i :: 0 <= i < |calls| ==> !calls[i].Init?
    ensures Run(s, calls).config.Some?
    ensures Run(s, calls).config.value.version == s.config.value.version + |IssuedIds(s, calls)|
    decreases |calls|
  {
    if |calls| > 0 {
      StepCounter(s, calls[0]);
      VersionCountsUpgrades(After(s, calls[0]), calls[1..]);
    }
  }

  /** `ProxyConfig.version` is one more than the number of successful
      upgrades since the last `initialize`. */
  lemma VersionAfterInit(env: Env, s: ProxyStore, impl: Address, admin: Address, calls: seq<ProxyCall>)
    requires forall i :: 0 <= i < |calls| ==> !calls[i].Init?
    ensures var s0 := After(s, Init(env, impl, admin));
      Run(s0, calls).config.Some? && Run(s0, calls).config.value.version == 1 + |IssuedIds(s0, calls)|
  {
    VersionCountsUpgrades(After(s, Init(env, impl, admin)), calls);
  }

  /** Every audit record in a reachable store is filed under its own id and
      records a success without a failure reason. */
  lemma RecordsAreSuccessful(calls: seq<ProxyCall>, k: u64)
    requires k in Run(EmptyProxy, calls).history
    ensures Run(EmptyProxy, calls).history[k].id == k
    ensures Run(EmptyProxy, calls).history[k].success
    ensures Run(EmptyProxy, calls).history[k].failureReason == None
  {
    EmptyProxyValid();
    RunPreservesValid(EmptyProxy, calls);
  }

  /** Only a signed call by the current admin can redirect the proxy or
      change its admin; every other call leaves the configuration and the
      history as they were. */
  lemma AdminGuardsConfiguration(s: ProxyStore, c: ProxyCall)
    requires !c.Init?
    requires After(s, c).config != s.config || After(s, c).history != s.history
             || After(s, c).implementationSlot != s.implementationSlot
    ensures (c.Upgrade? || c.TransferAdmin?)
    ensures s.config.Some? && s.config.value.admin == c.caller && c.caller in c.env.signers
  {
  }
}
