/** The DNS providers manager: a sequential state machine over the persisted
    active selection, the stored custom providers and the cached effective
    view. Each public mutator checks its guards, delegates to the custom
    store, possibly overwrites the selection, then recomputes the view. A
    mutator that throws is modelled by a `Failure` that carries no state:
    every throw precedes the first write, so the caller keeps the state it had. */
module DnsProvidersManager {
  import opened Wrappers
  import opened DnsTypes
  import opened ActiveDnsInfoStorage
  import opened CustomProvidersStore

  datatype DnsProviderError =
    | InvalidProvider(providerId: int)
    | InvalidCombination(providerId: int, serverId: int)
    | UnsupportedProtocol(prot: DnsProtocol)
    | DnsProviderExists(upstreams: seq<string>)

  /** What a mutator can throw: its own error or one from the custom store. */
  datatype ManagerError = ProviderError(providerError: DnsProviderError) | StorageError(storeError: StoreError)

  /** The collaborators: the providers vendor, the custom store, the system
      default (provider id, server id) pair and the language's string equality. */
  datatype Env = Env(resolve: Resolver, store: Store, systemDefault: ActiveDnsInfo, sameString: StringEquality)

  datatype Manager = Manager(
    implementation: DnsImplementation,
    catalog: seq<DnsProvider>,
    activeInfoSlot: Slot,
    customStore: seq<CustomDnsProvider>,
    view: View)

  /** `userDefaults.activeDnsInfo` as the getter returns it. */
  function ActiveInfo(env: Env, m: Manager): ActiveDnsInfo {
    Read(m.activeInfoSlot, env.systemDefault)
  }

  /** The cached view is what the vendor returns for the present state. */
  predicate Current(env: Env, m: Manager) {
    m.view == env.resolve(m.implementation, ActiveInfo(env, m), m.catalog, m.customStore)
  }

  /** `reinitializeProviders`: recompute the view, touch nothing else. */
  function Reinitialize(env: Env, m: Manager): (r: Manager)
    ensures Current(env, r)
    ensures r.(view := m.view) == m
  {
    m.(view := env.resolve(m.implementation, ActiveInfo(env, m), m.catalog, m.customStore))
  }

  /** The test initialiser: the view is computed from what is persisted. */
  function Init(env: Env, implementation: DnsImplementation, catalog: seq<DnsProvider>,
                slot: Slot, customStore: seq<CustomDnsProvider>): (m: Manager)
    ensures Current(env, m)
    ensures m.implementation == implementation && m.catalog == catalog
    ensures m.activeInfoSlot == slot && m.customStore == customStore
  {
    var unresolved := Manager(implementation, catalog, slot, customStore,
                              View([], [], Predefined(DnsProvider(0, "", [])), DnsServer(0, "", [], Dns)));
    Reinitialize(env, unresolved)
  }

  /** `update(dnsImplementation:)`: switch the implementation and recompute; never fails. */
  function UpdateImplementation(env: Env, m: Manager, implementation: DnsImplementation): (r: Manager)
    ensures r.implementation == implementation
    ensures Current(env, r)
    ensures r.catalog == m.catalog && r.activeInfoSlot == m.activeInfoSlot && r.customStore == m.customStore
  {
    Reinitialize(env, m.(implementation := implementation))
  }

  /** `selectProvider(withId:serverId:)`: the provider is the first of the cached
      `allProviders` with the id; the server must be one of its servers. */
  function SelectProvider(env: Env, m: Manager, id: int, serverId: int): (r: Result<Manager, ManagerError>)
    ensures r == Failure(ProviderError(InvalidProvider(id))) <==> !ListsProviderId(AllProviders(m.view), id)
    ensures var all := AllProviders(m.view);
            ListsProviderId(all, id) ==>
              (r == Failure(ProviderError(InvalidCombination(id, serverId)))
               <==> !HasServer(all[FirstWithId(all, id).value].DnsServers(), serverId))
    ensures r.Success? ==>
              && ActiveInfo(env, r.value) == ActiveDnsInfo(id, serverId)
              && Current(env, r.value)
              && r.value.customStore == m.customStore
              && r.value.implementation == m.implementation && r.value.catalog == m.catalog
  {
    var all := AllProviders(m.view);
    match FirstWithId(all, id)
    case None => Failure(ProviderError(InvalidProvider(id)))
    case Some(k) =>
      if !HasServer(all[k].DnsServers(), serverId) then
        Failure(ProviderError(InvalidCombination(id, serverId)))
      else
        Success(Reinitialize(env, m.(activeInfoSlot := Write(ActiveDnsInfo(id, serverId)))))
  }

  /** Some stored custom server lists `upstreams`, equal element by element and in order. */
  predicate UpstreamsTaken(same: StringEquality, custom: seq<CustomDnsProvider>, upstreams: seq<string>) {
    exists i :: 0 <= i < |custom| && SameUpstreams(same, UpstreamStrings(custom[i].server), upstreams)
  }

  /** As `UpstreamsTaken`, ignoring the providers whose id is `id`. */
  predicate UpstreamsTakenByAnother(same: StringEquality, custom: seq<CustomDnsProvider>, id: int,
                                    upstreams: seq<string>) {
    exists i :: 0 <= i < |custom| && custom[i].providerId != id
                && SameUpstreams(same, UpstreamStrings(custom[i].server), upstreams)
  }

  /** `addCustomProvider`: reject upstreams a stored custom server already has
      (whatever `isMigration` says), add through the store, and select the new
      provider only when asked to. */
  function AddCustomProvider(env: Env, m: Manager, name: string, upstreams: seq<string>,
                             selectAsCurrent: bool, isMigration: bool): (r: Result<Manager, ManagerError>)
    ensures r == Failure(ProviderError(DnsProviderExists(upstreams))) <==> UpstreamsTaken(env.sameString, m.customStore, upstreams)
    ensures r.Success? ==>
              && Current(env, r.value)
              && r.value.implementation == m.implementation && r.value.catalog == m.catalog
    ensures !UpstreamsTaken(env.sameString, m.customStore, upstreams) ==>
              var stored := env.store.add(m.customStore, name, upstreams, isMigration);
              && (stored.Failure? ==> r == Failure(StorageError(stored.error)))
              && (stored.Success? ==>
                    && r.Success?
                    && r.value.customStore == stored.value.providers
                    && (selectAsCurrent ==>
                          ActiveInfo(env, r.value) == ActiveDnsInfo(stored.value.providerId, stored.value.serverId))
                    && (!selectAsCurrent ==> r.value.activeInfoSlot == m.activeInfoSlot))
  {
    if UpstreamsTaken(env.sameString, m.customStore, upstreams) then
      Failure(ProviderError(DnsProviderExists(upstreams)))
    else
      match env.store.add(m.customStore, name, upstreams, isMigration)
      case Failure(e) => Failure(StorageError(e))
      case Success(added) =>
        var slot := if selectAsCurrent then Write(ActiveDnsInfo(added.providerId, added.serverId))
                    else m.activeInfoSlot;
        Success(Reinitialize(env, m.(customStore := added.providers, activeInfoSlot := slot)))
  }

  /** `updateCustomProvider`: reject upstreams another custom server already
      has, update through the store, and, when asked to select, take the server
      id from the cached view from before the update; a provider absent from
      that view leaves the selection as it was. */
  function UpdateCustomProvider(env: Env, m: Manager, id: int, newName: string, newUpstreams: seq<string>,
                                selectAsCurrent: bool): (r: Result<Manager, ManagerError>)
    ensures r == Failure(ProviderError(DnsProviderExists(newUpstreams)))
            <==> UpstreamsTakenByAnother(env.sameString, m.customStore, id, newUpstreams)
    ensures r.Success? ==>
              && Current(env, r.value)
              && r.value.implementation == m.implementation && r.value.catalog == m.catalog
    ensures !UpstreamsTakenByAnother(env.sameString, m.customStore, id, newUpstreams) ==>
              var stored := env.store.update(m.customStore, id, newName, newUpstreams);
              && (stored.Failure? ==> r == Failure(StorageError(stored.error)))
              && (stored.Success? ==> r.Success? && r.value.customStore == stored.value)
    ensures r.Success? ==>
              && (forall k :: selectAsCurrent && IsFirstWithId(CustomMetas(m.view.custom), id, k) ==>
                    ActiveInfo(env, r.value) == ActiveDnsInfo(id, m.view.custom[k].server.id))
              && (!selectAsCurrent || !ListsProviderId(CustomMetas(m.view.custom), id) ==>
                    r.value.activeInfoSlot == m.activeInfoSlot)
  {
    if UpstreamsTakenByAnother(env.sameString, m.customStore, id, newUpstreams) then
      Failure(ProviderError(DnsProviderExists(newUpstreams)))
    else
      match env.store.update(m.customStore, id, newName, newUpstreams)
      case Failure(e) => Failure(StorageError(e))
      case Success(providers) =>
        var cached := FirstWithId(CustomMetas(m.view.custom), id);
        var slot := if selectAsCurrent && cached.Some? then
                      Write(ActiveDnsInfo(id, m.view.custom[cached.value].server.id))
                    else m.activeInfoSlot;
        Success(Reinitialize(env, m.(customStore := providers, activeInfoSlot := slot)))
  }

  /** `removeCustomProvider`: remove through the store, then fall back to the
      system default pair when the removed id is the active provider id. */
  function RemoveCustomProvider(env: Env, m: Manager, id: int): (r: Result<Manager, ManagerError>)
    ensures var stored := env.store.remove(m.customStore, id);
            && (stored.Failure? <==> r.Failure?)
            && (stored.Failure? ==> r.error == StorageError(stored.error))
            && (stored.Success? ==> r.Success? && r.value.customStore == stored.value)
    ensures r.Success? ==>
              && Current(env, r.value)
              && r.value.implementation == m.implementation && r.value.catalog == m.catalog
              && (id == ActiveInfo(env, m).providerId ==> ActiveInfo(env, r.value) == env.systemDefault)
              && (id != ActiveInfo(env, m).providerId ==> r.value.activeInfoSlot == m.activeInfoSlot)
  {
    match env.store.remove(m.customStore, id)
    case Failure(e) => Failure(StorageError(e))
    case Success(providers) =>
      var slot := if id == ActiveInfo(env, m).providerId then Write(env.systemDefault) else m.activeInfoSlot;
      Success(Reinitialize(env, m.(customStore := providers, activeInfoSlot := slot)))
  }

  /** `reset`: the system default pair becomes the selection and the custom list
      is cleared (the store's reset is taken to succeed). */
  function Reset(env: Env, m: Manager): (r: Manager)
    ensures ActiveInfo(env, r) == env.systemDefault
    ensures r.customStore == []
    ensures Current(env, r)
    ensures r.implementation == m.implementation && r.catalog == m.catalog
  {
    Reinitialize(env, m.(activeInfoSlot := Write(env.systemDefault), customStore := []))
  }
}
