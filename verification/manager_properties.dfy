/** Properties of the manager that relate several calls or hold across every
    mutator: the consistency of the stored custom list, the idempotence of the
    update's duplicate check, the removal fallback and the precedence of
    predefined providers in `selectProvider`. */
module ManagerProperties {
  import opened Wrappers
  import opened DnsTypes
  import opened ActiveDnsInfoStorage
  import opened CustomProvidersStore
  import opened DnsProvidersManager

  /** When a predefined provider of the cached view has the id, selection checks
      the server against the first such predefined provider, whatever custom
      provider shares the id. */
  lemma SelectPrefersPredefined(env: Env, m: Manager, id: int, serverId: int, i: int)
    requires 0 <= i < |m.view.predefined| && m.view.predefined[i].providerId == id
    ensures exists k :: 0 <= k <= i && m.view.predefined[k].providerId == id
              && (SelectProvider(env, m, id, serverId).Success? <==> HasServer(m.view.predefined[k].servers, serverId))
  {
    var all := AllProviders(m.view);
    assert all[i].ProviderId() == id;
    var k := FirstWithId(all, id).value;
    assert k <= i;
    assert all[k] == Predefined(m.view.predefined[k]);
  }

  /** Selection fails only with its own two errors: it succeeds exactly when a
      listed provider has the id and the first such provider has the server. */
  lemma SelectSucceedsExactlyWhenListed(env: Env, m: Manager, id: int, serverId: int)
    ensures var all := AllProviders(m.view);
            SelectProvider(env, m, id, serverId).Success? <==>
              && ListsProviderId(all, id)
              && HasServer(all[FirstWithId(all, id).value].DnsServers(), serverId)
    ensures var r := SelectProvider(env, m, id, serverId);
            r.Failure? ==>
              && r.error.ProviderError?
              && (r.error.providerError.InvalidProvider? || r.error.providerError.InvalidCombination?)
  {
  }

  /** Adding keeps the stored custom list consistent, migration or not. */
  lemma AddKeepsStoreConsistent(env: Env, m: Manager, name: string, upstreams: seq<string>,
                                selectAsCurrent: bool, isMigration: bool)
    requires Lawful(env.store)
    requires Consistent(env.sameString, m.customStore)
    ensures var r := AddCustomProvider(env, m, name, upstreams, selectAsCurrent, isMigration);
            r.Success? ==> Consistent(env.sameString, r.value.customStore)
  {
    var r := AddCustomProvider(env, m, name, upstreams, selectAsCurrent, isMigration);
    if r.Success? {
      var before := m.customStore;
      var stored := env.store.add(before, name, upstreams, isMigration);
      assert AddLaw(before, name, upstreams, stored);
      var after := stored.value.providers;
      assert r.value.customStore == after;
      forall i | 0 <= i < |before|
        ensures after[i] == before[i]
      {
        assert after[..|before|][i] == after[i];
      }
      forall i, j | 0 <= i < j < |after|
        ensures after[i].providerId != after[j].providerId
        ensures !SameUpstreams(env.sameString, UpstreamStrings(after[i].server), UpstreamStrings(after[j].server))
      {
        if j == |before| {
          assert after[i] == before[i];
        }
      }
    }
  }

  /** An add that selects the new provider leaves the selection naming the
      appended stored provider and its server. */
  lemma AddSelectsStoredProvider(env: Env, m: Manager, name: string, upstreams: seq<string>, isMigration: bool)
    requires Lawful(env.store)
    ensures var r := AddCustomProvider(env, m, name, upstreams, true, isMigration);
            r.Success? ==>
              && |r.value.customStore| == |m.customStore| + 1
              && var p := r.value.customStore[|m.customStore|];
                 && ActiveInfo(env, r.value) == ActiveDnsInfo(p.providerId, p.server.id)
                 && p.name == name && UpstreamStrings(p.server) == upstreams
                 && !HasProviderId(m.customStore, p.providerId)
  {
    var stored := env.store.add(m.customStore, name, upstreams, isMigration);
    assert AddLaw(m.customStore, name, upstreams, stored);
  }

  /** Updating keeps the stored custom list consistent. */
  lemma UpdateKeepsStoreConsistent(env: Env, m: Manager, id: int, newName: string, newUpstreams: seq<string>,
                                   selectAsCurrent: bool)
    requires Lawful(env.store)
    requires IsEquivalence(env.sameString)
    requires Consistent(env.sameString, m.customStore)
    ensures var r := UpdateCustomProvider(env, m, id, newName, newUpstreams, selectAsCurrent);
            r.Success? ==> Consistent(env.sameString, r.value.customStore)
  {
    var r := UpdateCustomProvider(env, m, id, newName, newUpstreams, selectAsCurrent);
    if r.Success? {
      var before := m.customStore;
      var stored := env.store.update(before, id, newName, newUpstreams);
      assert UpdateLaw(before, id, newName, newUpstreams, stored);
      var after := stored.value;
      forall i, j | 0 <= i < j < |after|
        ensures after[i].providerId != after[j].providerId
        ensures !SameUpstreams(env.sameString, UpstreamStrings(after[i].server), UpstreamStrings(after[j].server))
      {
        if before[i].providerId == id {
          assert before[j].providerId != id;
          assert !SameUpstreams(env.sameString, UpstreamStrings(before[j].server), newUpstreams);
          SameUpstreamsSymmetric(env.sameString, newUpstreams, UpstreamStrings(before[j].server));
        } else if before[j].providerId == id {
          assert !SameUpstreams(env.sameString, UpstreamStrings(before[i].server), newUpstreams);
        }
      }
    }
  }

  /** Removing keeps the stored custom list consistent. */
  lemma RemoveKeepsStoreConsistent(env: Env, m: Manager, id: int)
    requires Lawful(env.store)
    requires Consistent(env.sameString, m.customStore)
    ensures var r := RemoveCustomProvider(env, m, id);
            r.Success? ==> Consistent(env.sameString, r.value.customStore)
  {
    var stored := env.store.remove(m.customStore, id);
    assert RemoveLaw(m.customStore, id, stored);
    WithoutKeepsConsistent(env.sameString, m.customStore, id);
  }

  /** Re-applying a stored provider's own upstreams never trips the duplicate check. */
  lemma UpdateIgnoresItself(env: Env, m: Manager, i: int, newName: string, selectAsCurrent: bool)
    requires IsEquivalence(env.sameString)
    requires DistinctUpstreams(env.sameString, m.customStore)
    requires 0 <= i < |m.customStore|
    ensures var p := m.customStore[i];
            UpdateCustomProvider(env, m, p.providerId, newName, UpstreamStrings(p.server), selectAsCurrent)
              != Failure(ProviderError(DnsProviderExists(UpstreamStrings(p.server))))
  {
    var p := m.customStore[i];
    forall j | 0 <= j < |m.customStore| && m.customStore[j].providerId != p.providerId
      ensures !SameUpstreams(env.sameString, UpstreamStrings(m.customStore[j].server), UpstreamStrings(p.server))
    {
      if i < j {
        SameUpstreamsSymmetric(env.sameString, UpstreamStrings(m.customStore[j].server), UpstreamStrings(p.server));
      }
    }
  }

  /** After a successful update, the identical update passes the duplicate check again. */
  lemma UpdateTwicePassesDuplicateCheck(env: Env, m: Manager, id: int, newName: string, newUpstreams: seq<string>,
                                        selectAsCurrent: bool)
    requires Lawful(env.store)
    ensures var r := UpdateCustomProvider(env, m, id, newName, newUpstreams, selectAsCurrent);
            r.Success? ==>
              UpdateCustomProvider(env, r.value, id, newName, newUpstreams, selectAsCurrent)
                != Failure(ProviderError(DnsProviderExists(newUpstreams)))
  {
    var r := UpdateCustomProvider(env, m, id, newName, newUpstreams, selectAsCurrent);
    if r.Success? {
      var before := m.customStore;
      var stored := env.store.update(before, id, newName, newUpstreams);
      assert UpdateLaw(before, id, newName, newUpstreams, stored);
      var after := r.value.customStore;
      forall j | 0 <= j < |after| && after[j].providerId != id
        ensures !SameUpstreams(env.sameString, UpstreamStrings(after[j].server), newUpstreams)
      {
        assert after[j] == before[j];
      }
    }
  }

  /** A successful removal leaves no stored provider with that id, and the
      selection names the removed id only when it is the system default's. */
  lemma RemoveLeavesNoDanglingSelection(env: Env, m: Manager, id: int)
    requires Lawful(env.store)
    ensures var r := RemoveCustomProvider(env, m, id);
            r.Success? ==>
              && !HasProviderId(r.value.customStore, id)
              && (ActiveInfo(env, r.value).providerId == id ==> id == env.systemDefault.providerId)
  {
    assert RemoveLaw(m.customStore, id, env.store.remove(m.customStore, id));
  }

  /** Removing an id the store does not hold fails and changes nothing. */
  lemma RemoveUnknownFails(env: Env, m: Manager, id: int)
    requires Lawful(env.store)
    requires !HasProviderId(m.customStore, id)
    ensures RemoveCustomProvider(env, m, id).Failure?
    ensures RemoveCustomProvider(env, m, id).error.StorageError?
  {
    assert RemoveLaw(m.customStore, id, env.store.remove(m.customStore, id));
  }

  /** Updating an id the store does not hold fails, with the duplicate error
      when another provider has the upstreams and the store's error otherwise. */
  lemma UpdateUnknownFails(env: Env, m: Manager, id: int, newName: string, newUpstreams: seq<string>,
                           selectAsCurrent: bool)
    requires Lawful(env.store)
    requires !HasProviderId(m.customStore, id)
    ensures var r := UpdateCustomProvider(env, m, id, newName, newUpstreams, selectAsCurrent);
            && r.Failure?
            && (r.error.StorageError? <==> !UpstreamsTaken(env.sameString, m.customStore, newUpstreams))
  {
    assert UpdateLaw(m.customStore, id, newName, newUpstreams,
                     env.store.update(m.customStore, id, newName, newUpstreams));
  }

  /** The public mutators, as one command type. */
  datatype Command =
    | SetImplementation(implementation: DnsImplementation)
    | Select(providerId: int, serverId: int)
    | AddCustom(name: string, upstreams: seq<string>, selectAsCurrent: bool, isMigration: bool)
    | UpdateCustom(providerId: int, newName: string, newUpstreams: seq<string>, selectAsCurrent: bool)
    | RemoveCustom(providerId: int)
    | ResetAll

  function Apply(env: Env, m: Manager, c: Command): Result<Manager, ManagerError> {
    match c
    case SetImplementation(impl) => Success(UpdateImplementation(env, m, impl))
    case Select(id, serverId) => SelectProvider(env, m, id, serverId)
    case AddCustom(name, ups, sel, mig) => AddCustomProvider(env, m, name, ups, sel, mig)
    case UpdateCustom(id, name, ups, sel) => UpdateCustomProvider(env, m, id, name, ups, sel)
    case RemoveCustom(id) => RemoveCustomProvider(env, m, id)
    case ResetAll => Success(Reset(env, m))
  }

  /** A caller issuing commands one after another and catching every throw. */
  function Run(env: Env, m: Manager, commands: seq<Command>): Manager
    decreases |commands|
  {
    if |commands| == 0 then m
    else
      var next := match Apply(env, m, commands[0]) case Success(m') => m' case Failure(_) => m;
      Run(env, next, commands[1..])
  }

  /** The manager's invariant: the view is up to date and the custom list is consistent. */
  predicate Invariant(env: Env, m: Manager) {
    Current(env, m) && Consistent(env.sameString, m.customStore)
  }

  /** A manager built over a consistent persisted custom list starts in the invariant. */
  lemma InitEstablishesInvariant(env: Env, implementation: DnsImplementation, catalog: seq<DnsProvider>,
                                 slot: Slot, customStore: seq<CustomDnsProvider>)
    requires Consistent(env.sameString, customStore)
    ensures Invariant(env, Init(env, implementation, catalog, slot, customStore))
  {
  }

  lemma ApplyKeepsInvariant(env: Env, m: Manager, c: Command)
    requires Lawful(env.store)
    requires IsEquivalence(env.sameString)
    requires Invariant(env, m)
    ensures Apply(env, m, c).Success? ==> Invariant(env, Apply(env, m, c).value)
  {
    match c
    case SetImplementation(_) =>
    case Select(_, _) =>
    case AddCustom(name, ups, sel, mig) => AddKeepsStoreConsistent(env, m, name, ups, sel, mig);
    case UpdateCustom(id, name, ups, sel) => UpdateKeepsStoreConsistent(env, m, id, name, ups, sel);
    case RemoveCustom(id) => RemoveKeepsStoreConsistent(env, m, id);
    case ResetAll =>
  }

  /** Starting from a consistent persisted custom list, every sequence of calls
      keeps the invariant. */
  lemma {:induction false} RunKeepsInvariant(env: Env, m: Manager, commands: seq<Command>)
    requires Lawful(env.store)
    requires IsEquivalence(env.sameString)
    requires Invariant(env, m)
    ensures Invariant(env, Run(env, m, commands))
    decreases |commands|
  {
    if |commands| > 0 {
      ApplyKeepsInvariant(env, m, commands[0]);
      var next := match Apply(env, m, commands[0]) case Success(m') => m' case Failure(_) => m;
      RunKeepsInvariant(env, next, commands[1..]);
    }
  }
}
