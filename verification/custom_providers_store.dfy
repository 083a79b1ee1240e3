/** The custom providers storage seen from the manager: a list of custom
    providers and three operations on it whose internals (id allocation,
    upstream syntax validation, persistence) are not part of this model.
    `Lawful` states the only behaviour the manager relies on. */
module CustomProvidersStore {
  import opened Wrappers
  import opened DnsTypes

  datatype StoreError =
    | ProviderNotFound(providerId: int)
    | InvalidUpstreams(upstreams: seq<string>)
    | UpstreamsExist(upstreams: seq<string>)

  /** A successful add: the new list and the ids given to the new provider and its server. */
  datatype Added = Added(providers: seq<CustomDnsProvider>, providerId: int, serverId: int)

  datatype Store = Store(
    add: (seq<CustomDnsProvider>, string, seq<string>, bool) -> Result<Added, StoreError>,
    update: (seq<CustomDnsProvider>, int, string, seq<string>) -> Result<seq<CustomDnsProvider>, StoreError>,
    remove: (seq<CustomDnsProvider>, int) -> Result<seq<CustomDnsProvider>, StoreError>)

  predicate HasProviderId(providers: seq<CustomDnsProvider>, id: int) {
    exists i :: 0 <= i < |providers| && providers[i].providerId == id
  }

  /** `providers` with every entry of provider id `id` taken out. */
  function Without(providers: seq<CustomDnsProvider>, id: int): (r: seq<CustomDnsProvider>)
    ensures !HasProviderId(r, id)
    ensures forall p :: p in r ==> p in providers && p.providerId != id
    ensures forall p :: p in providers && p.providerId != id ==> p in r
  {
    if |providers| == 0 then []
    else if providers[0].providerId == id then Without(providers[1..], id)
    else [providers[0]] + Without(providers[1..], id)
  }

  /** A successful add appends one provider, with the given name and upstreams,
      under a provider id no stored provider has. */
  ghost predicate AddLaw(before: seq<CustomDnsProvider>, name: string, upstreams: seq<string>,
                         r: Result<Added, StoreError>) {
    r.Success? ==>
      && !HasProviderId(before, r.value.providerId)
      && |r.value.providers| == |before| + 1
      && r.value.providers[..|before|] == before
      && r.value.providers[|before|].providerId == r.value.providerId
      && r.value.providers[|before|].name == name
      && r.value.providers[|before|].server.id == r.value.serverId
      && UpstreamStrings(r.value.providers[|before|].server) == upstreams
  }

  /** Update fails on an unknown id; a successful one keeps every provider id in
      place, rewrites the entry of `id` and leaves the others alone. */
  ghost predicate UpdateLaw(before: seq<CustomDnsProvider>, id: int, name: string, upstreams: seq<string>,
                            r: Result<seq<CustomDnsProvider>, StoreError>) {
    && (!HasProviderId(before, id) ==> r.Failure?)
    && (r.Success? ==>
          && |r.value| == |before|
          && forall i :: 0 <= i < |before| ==>
               if before[i].providerId == id then
                 && r.value[i].providerId == id
                 && r.value[i].name == name
                 && UpstreamStrings(r.value[i].server) == upstreams
               else r.value[i] == before[i])
  }

  /** Remove fails on an unknown id; a successful one drops the entries of `id`. */
  ghost predicate RemoveLaw(before: seq<CustomDnsProvider>, id: int,
                            r: Result<seq<CustomDnsProvider>, StoreError>) {
    && (!HasProviderId(before, id) ==> r.Failure?)
    && (r.Success? ==> r.value == Without(before, id))
  }

  ghost predicate Lawful(store: Store) {
    && (forall before, name, upstreams, isMigration ::
          AddLaw(before, name, upstreams, store.add(before, name, upstreams, isMigration)))
    && (forall before, id, name, upstreams ::
          UpdateLaw(before, id, name, upstreams, store.update(before, id, name, upstreams)))
    && (forall before, id :: RemoveLaw(before, id, store.remove(before, id)))
  }

  /** Provider ids are unique within the custom list. */
  predicate UniqueIds(providers: seq<CustomDnsProvider>) {
    forall i, j :: 0 <= i < j < |providers| ==> providers[i].providerId != providers[j].providerId
  }

  /** No two custom servers list equal upstreams in the same order. */
  predicate DistinctUpstreams(same: StringEquality, providers: seq<CustomDnsProvider>) {
    forall i, j :: 0 <= i < j < |providers| ==>
      !SameUpstreams(same, UpstreamStrings(providers[i].server), UpstreamStrings(providers[j].server))
  }

  predicate Consistent(same: StringEquality, providers: seq<CustomDnsProvider>) {
    UniqueIds(providers) && DistinctUpstreams(same, providers)
  }

  lemma ConsistentTail(same: StringEquality, providers: seq<CustomDnsProvider>)
    requires Consistent(same, providers) && |providers| > 0
    ensures Consistent(same, providers[1..])
  {
    var tail := providers[1..];
    forall i, j | 0 <= i < j < |tail|
      ensures tail[i].providerId != tail[j].providerId
      ensures !SameUpstreams(same, UpstreamStrings(tail[i].server), UpstreamStrings(tail[j].server))
    {
      assert tail[i] == providers[i + 1] && tail[j] == providers[j + 1];
    }
  }

  /** A provider that clashes with no entry of a consistent list can go in front of it. */
  lemma ConsistentCons(same: StringEquality, p: CustomDnsProvider, rest: seq<CustomDnsProvider>)
    requires Consistent(same, rest)
    requires forall q :: q in rest ==>
               q.providerId != p.providerId && !SameUpstreams(same, UpstreamStrings(p.server), UpstreamStrings(q.server))
    ensures Consistent(same, [p] + rest)
  {
    var r := [p] + rest;
    forall i, j | 0 <= i < j < |r|
      ensures r[i].providerId != r[j].providerId
      ensures !SameUpstreams(same, UpstreamStrings(r[i].server), UpstreamStrings(r[j].server))
    {
      assert r[j] == rest[j - 1];
      if i > 0 {
        assert r[i] == rest[i - 1];
      } else {
        assert r[j] in rest;
      }
    }
  }

  /** Removing providers from a consistent list keeps it consistent. */
  lemma {:induction false} WithoutKeepsConsistent(same: StringEquality, providers: seq<CustomDnsProvider>, id: int)
    requires Consistent(same, providers)
    ensures Consistent(same, Without(providers, id))
  {
    if |providers| > 0 {
      var tail := providers[1..];
      ConsistentTail(same, providers);
      WithoutKeepsConsistent(same, tail, id);
      var rest := Without(tail, id);
      if providers[0].providerId != id {
        forall q | q in rest
          ensures q.providerId != providers[0].providerId
          ensures !SameUpstreams(same, UpstreamStrings(providers[0].server), UpstreamStrings(q.server))
        {
          var k :| 0 <= k < |tail| && tail[k] == q;
          assert providers[k + 1] == q;
        }
        ConsistentCons(same, providers[0], rest);
      }
    }
  }
}
