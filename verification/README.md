# DNS providers manager — a Dafny model

This project models the DNS providers manager of AdGuard for iOS (`DnsProvidersManager`). The manager is a small
sequential state machine over three pieces of state:

- the persisted active selection `ActiveDnsInfo(providerId, serverId)`;
- the stored custom providers, each with one server and an ordered list of upstream strings;
- the cached effective view: predefined providers, custom providers, the active provider and the active server.

Every public mutator follows the same four steps:

1. Check its guards and throw a `DnsProviderError`.
2. Delegate to the custom providers storage.
3. Possibly overwrite the active selection.
4. Recompute the view (`reinitializeProviders`).

The model is functional. The manager is an immutable `Manager` record, and each mutator is a pure function that
returns `Result<Manager, ManagerError>`. A `Failure` carries no state. This matches the source, where every throw
comes before the first write, so a caller that catches the error keeps the state it had.

Files:

- `wrappers.dfy`: `Option` and `Result`.
- `dns_types.dfy`: servers, predefined and custom providers, `ActiveDnsInfo`, the view, and `allProviders` with its
  first-match search.
- `active_dns_info.dfy`: the user-defaults slot holding the selection, and its getter and setter.
- `custom_providers_store.dfy`: the custom providers storage, kept abstract, plus the consistency of a custom list.
- `dns_providers_manager.dfy`: the manager's errors, state and mutators.
- `manager_properties.dfy`: lemmas relating several calls, and the invariant kept by every sequence of calls.

Collaborators become parameters, gathered in `Env`:

- `resolve` stands for `DnsProvidersVendor.getProvidersWithState`. It is a pure function from (implementation,
  active selection, predefined catalog, custom list) to the view. Nothing is assumed about it.
- `store` stands for `CustomDnsProvidersStorage`, given as three functions: add, update and remove. `Lawful(store)`
  holds only what the manager relies on:
  - add gives a provider id no stored provider has, and appends one provider with the given name and upstreams;
  - update fails on an unknown id, keeps every provider id in place, and changes only the entry with that id;
  - remove fails on an unknown id, and otherwise drops the entries with that id.
- `sameString` stands for Swift's `==` on `String`, which compares canonical equivalence rather than code points.
  The duplicate-upstream checks compare upstream lists with it, position by position. The lemmas that need it
  assume only that it is an equivalence (`IsEquivalence`).
- `systemDefault` stands for the pair `PredefinedDnsProvider.systemDefaultProviderId` /
  `PredefinedDnsServer.systemDefaultServerId`. Those constants are defined outside the manager, so their values are
  not part of this model.

The user-defaults slot is a `Slot`: `Missing`, `Undecodable` or `Encoded(info)`. The getter returns the system default
pair in the first two cases.

Details of the code that the model follows and that are easy to misread:

- `selectProvider` looks the provider up in the cached view (`predefinedProviders + customProviders`), as the vendor
  last computed it. The first match wins, so a predefined provider hides a custom provider with the same id.
- `updateCustomProvider` with `selectAsCurrent` takes the server id from the cached view from before the update. If
  that view does not list the provider, the selection is silently left as it was.
- `removeCustomProvider` compares the removed id with the selection as the getter returns it. When the slot is empty
  or undecodable, that is the system default pair.
- `addCustomProvider` runs its duplicate-upstream check even when `isMigration` is true.

## Model

| member | source | states |
|---|---|---|
| DnsTypes.AllProviders | AdGuardSDK/AdGuardSDK/DNS/DnsProviders/DnsProvidersManager/DnsProvidersManager.swift:85 | all providers are the predefined ones followed by the custom ones, each list in its own order |
| DnsTypes.FirstWithId | AdGuardSDK/AdGuardSDK/DNS/DnsProviders/DnsProvidersManager/DnsProvidersManager.swift:149 | the search finds the first provider with the id, with none before it, and finds nothing exactly when no provider has the id |
| ActiveDnsInfoStorage.Read | AdGuardSDK/AdGuardSDK/DNS/DnsProviders/DnsProvidersManager/DnsProvidersManager.swift:287-298 | the getter returns the stored selection when it decodes, and the system default pair when the slot is empty or undecodable |
| ActiveDnsInfoStorage.Write | AdGuardSDK/AdGuardSDK/DNS/DnsProviders/DnsProvidersManager/DnsProvidersManager.swift:299-304 | whatever the slot held before, reading after a write returns the written selection (get after set round-trips) |
| DnsProvidersManager.Reinitialize | AdGuardSDK/AdGuardSDK/DNS/DnsProviders/DnsProvidersManager/DnsProvidersManager.swift:245-253 | the view becomes the vendor's result for the current implementation, selection, catalog and custom list; nothing else changes |
| DnsProvidersManager.Init | AdGuardSDK/AdGuardSDK/DNS/DnsProviders/DnsProvidersManager/DnsProvidersManager.swift:119-136 | a new manager keeps the persisted selection and custom list as they are, and its view is up to date |
| DnsProvidersManager.UpdateImplementation | AdGuardSDK/AdGuardSDK/DNS/DnsProviders/DnsProvidersManager/DnsProvidersManager.swift:140-144 | switching the implementation never fails, keeps the selection and the custom list, and refreshes the view |
| DnsProvidersManager.SelectProvider | AdGuardSDK/AdGuardSDK/DNS/DnsProviders/DnsProvidersManager/DnsProvidersManager.swift:146-162 | throws invalidProvider exactly when no listed provider has the id; throws invalidCombination exactly when the first provider with the id lacks the server; on success the selection is exactly (id, serverId), the custom list is kept and the view refreshed |
| DnsProvidersManager.AddCustomProvider | AdGuardSDK/AdGuardSDK/DNS/DnsProviders/DnsProvidersManager/DnsProvidersManager.swift:166-187 | throws dnsProviderExists exactly when a stored server's upstreams equal the given ones position by position under the string equality, whatever isMigration is; otherwise passes on the store's error, or stores the store's list and selects the new ids only when selectAsCurrent, leaving the selection untouched otherwise |
| DnsProvidersManager.UpdateCustomProvider | AdGuardSDK/AdGuardSDK/DNS/DnsProviders/DnsProvidersManager/DnsProvidersManager.swift:189-212 | throws dnsProviderExists exactly when a provider with another id has upstreams equal to the new ones position by position under the string equality; otherwise passes on the store's error or stores its list; with selectAsCurrent the selection becomes (id, server id from the cached view) when that view lists the id, and stays as it was when it does not |
| DnsProvidersManager.RemoveCustomProvider | AdGuardSDK/AdGuardSDK/DNS/DnsProviders/DnsProvidersManager/DnsProvidersManager.swift:214-228 | fails exactly when the store fails, with the store's error; on success the selection falls back to the system default pair when the removed id was the active provider id, and is untouched otherwise |
| DnsProvidersManager.Reset | AdGuardSDK/AdGuardSDK/DNS/DnsProviders/DnsProvidersManager/DnsProvidersManager.swift:230-241 | after reset the selection reads as the system default pair, the custom list is empty and the view is refreshed |
| ManagerProperties.SelectSucceedsExactlyWhenListed | AdGuardSDK/AdGuardSDK/DNS/DnsProviders/DnsProvidersManager/DnsProvidersManager.swift:149-159 | selection succeeds exactly when a listed provider has the id and the first such provider has the server; every failure is invalidProvider or invalidCombination |
| ManagerProperties.SelectPrefersPredefined | AdGuardSDK/AdGuardSDK/DNS/DnsProviders/DnsProvidersManager/DnsProvidersManager.swift:85-87 | when a predefined provider has the id, selection succeeds exactly when the first such predefined provider has the server, whatever custom provider shares the id |
| ManagerProperties.AddKeepsStoreConsistent | AdGuardSDK/AdGuardSDK/DNS/DnsProviders/DnsProvidersManager/DnsProvidersManager.swift:169-179 | a successful add keeps the custom ids unique and no two upstream lists equal under the string equality, including a migration add |
| ManagerProperties.AddSelectsStoredProvider | AdGuardSDK/AdGuardSDK/DNS/DnsProviders/DnsProvidersManager/DnsProvidersManager.swift:179-182 | an add with selectAsCurrent selects the newly appended provider and its server, which carries the given name and upstreams under a fresh id |
| ManagerProperties.UpdateKeepsStoreConsistent | AdGuardSDK/AdGuardSDK/DNS/DnsProviders/DnsProvidersManager/DnsProvidersManager.swift:192-205 | when string equality is an equivalence, a successful update keeps the custom ids unique and no two upstream lists equal |
| ManagerProperties.RemoveKeepsStoreConsistent | AdGuardSDK/AdGuardSDK/DNS/DnsProviders/DnsProvidersManager/DnsProvidersManager.swift:217 | a successful remove keeps the custom list consistent |
| ManagerProperties.UpdateIgnoresItself | AdGuardSDK/AdGuardSDK/DNS/DnsProviders/DnsProvidersManager/DnsProvidersManager.swift:192-203 | when string equality is an equivalence and no two stored upstream lists are equal, re-applying a stored provider's own upstreams never raises dnsProviderExists |
| ManagerProperties.UpdateTwicePassesDuplicateCheck | AdGuardSDK/AdGuardSDK/DNS/DnsProviders/DnsProvidersManager/DnsProvidersManager.swift:192-205 | after a successful update, the identical update does not raise dnsProviderExists (idempotence of the check) |
| ManagerProperties.UpdateUnknownFails | AdGuardSDK/AdGuardSDK/DNS/DnsProviders/DnsProvidersManager/DnsProvidersManager.swift:192-205 | updating an id the store lacks always fails: with dnsProviderExists when some provider has the upstreams, with the store's error otherwise |
| ManagerProperties.RemoveLeavesNoDanglingSelection | AdGuardSDK/AdGuardSDK/DNS/DnsProviders/DnsProvidersManager/DnsProvidersManager.swift:217-224 | after a successful remove no stored provider has the id, and the selection names the id only if it is the system default provider id |
| ManagerProperties.RemoveUnknownFails | AdGuardSDK/AdGuardSDK/DNS/DnsProviders/DnsProvidersManager/DnsProvidersManager.swift:217 | removing an id the store lacks fails with the store's error |
| ManagerProperties.InitEstablishesInvariant | AdGuardSDK/AdGuardSDK/DNS/DnsProviders/DnsProvidersManager/DnsProvidersManager.swift:119-136 | a manager built over a persisted custom list with unique ids and no two equal upstream lists starts with its view up to date and that list consistent |
| ManagerProperties.ApplyKeepsInvariant | AdGuardSDK/AdGuardSDK/DNS/DnsProviders/DnsProvidersManager/DnsProvidersManager.swift:140-241 | every public mutator, on success, leaves the view up to date and the custom list consistent |
| ManagerProperties.RunKeepsInvariant | AdGuardSDK/AdGuardSDK/DNS/DnsProviders/DnsProvidersManager/DnsProvidersManager.swift:140-241 | from a consistent state, any sequence of calls whose errors are caught keeps the view up to date and the custom list consistent |

## Left out

- JSON encoding and decoding of `ActiveDnsInfo`: the slot holds the decoded value or a marker for "undecodable". The
  setter's encode-failure branch (DnsProvidersManager.swift:305-308) is left out, because two integers always encode.
- The `try!` on the store's reset (line 237): the store's reset is taken to succeed and to empty the list. A crash is
  not modelled.
- Internals of `PredefinedDnsProvidersDecoder`, `DnsProvidersVendor` and `CustomDnsProvidersStorage` are not part of
  this model: id allocation, upstream syntax validation through `networkUtils`, protocol filtering, persistence.
  They are parameters, and only the store carries assumptions (`Lawful`).
- How Swift decides canonical equivalence of strings is not modelled. The string equality is a parameter, and only
  its being an equivalence is used.
- Whether the store keeps a custom server's id on update is not known, so nothing is assumed about it.
  `UpdateCustomProvider` states the selection in terms of the server id from the cached view.
- The `unsupportedProtocol` error is declared but never thrown by the manager, so no member produces it.
- Logging, the `UserDefaults` wrappers and the convenience initialisers that build the decoder and the storage
  (lines 102-116).
- Concurrency: the source has no locking, and the model is sequential.
- The settings-reset service, and the settings, import and advanced-settings screens, are UI or orchestration around
  `reset()` and the mutators. They are not part of this model.
