/** The entities the DNS provider manager works on: servers, predefined and
    custom providers, the persisted active selection and the effective view
    that the providers vendor computes from them. */
module DnsTypes {
  import opened Wrappers

  /** Transport protocol of a DNS server (the enumeration lives outside the manager). */
  datatype DnsProtocol = Dns | DnsCrypt | Doh | Dot | Doq

  /** How DNS is resolved: by the app's own proxy or by the OS-native resolver. */
  datatype DnsImplementation = AdGuard | Native

  /** One upstream address of a server, as the custom store keeps it. */
  datatype DnsUpstream = DnsUpstream(upstream: string, protocol: DnsProtocol)

  datatype DnsServer = DnsServer(id: int, name: string, upstreams: seq<DnsUpstream>, protocol: DnsProtocol)

  /** A predefined provider may expose several servers. */
  datatype DnsProvider = DnsProvider(providerId: int, name: string, servers: seq<DnsServer>)

  /** A custom provider exposes exactly one server. */
  datatype CustomDnsProvider = CustomDnsProvider(providerId: int, name: string, server: DnsServer)

  /** The common shape of both provider kinds, as `allProviders` lists them. */
  datatype ProviderMeta = Predefined(provider: DnsProvider) | Custom(custom: CustomDnsProvider) {

    function ProviderId(): int {
      match this
      case Predefined(p) => p.providerId
      case Custom(c) => c.providerId
    }

    function DnsServers(): seq<DnsServer> {
      match this
      case Predefined(p) => p.servers
      case Custom(c) => [c.server]
    }
  }

  /** The persisted (provider, server) pair the user has selected. */
  datatype ActiveDnsInfo = ActiveDnsInfo(providerId: int, serverId: int)

  /** What the providers vendor hands back and the manager caches and publishes. */
  datatype View = View(
    predefined: seq<DnsProvider>,
    custom: seq<CustomDnsProvider>,
    activeDnsProvider: ProviderMeta,
    activeDnsServer: DnsServer)

  /** The providers vendor: from the implementation, the active selection, the
      predefined catalog and the stored custom providers to the effective view. */
  type Resolver = (DnsImplementation, ActiveDnsInfo, seq<DnsProvider>, seq<CustomDnsProvider>) -> View

  /** The upstream strings of a server, in order (`server.upstreams.map { $0.upstream }`). */
  function UpstreamStrings(server: DnsServer): (r: seq<string>)
    ensures |r| == |server.upstreams|
    ensures forall i :: 0 <= i < |r| ==> r[i] == server.upstreams[i].upstream
  {
    seq(|server.upstreams|, i requires 0 <= i < |server.upstreams| => server.upstreams[i].upstream)
  }

  /** String equality as the source's `==` on `String` decides it. Swift
      compares strings by canonical equivalence rather than code point by code
      point, so the relation is a parameter; comparing code points is one
      instance of it. */
  type StringEquality = (string, string) -> bool

  ghost predicate IsEquivalence(same: StringEquality) {
    && (forall a :: same(a, a))
    && (forall a, b :: same(a, b) ==> same(b, a))
    && (forall a, b, c :: same(a, b) && same(b, c) ==> same(a, c))
  }

  /** `[String] ==`: the same length and equal strings position by position. */
  predicate SameUpstreams(same: StringEquality, a: seq<string>, b: seq<string>) {
    |a| == |b| && forall i :: 0 <= i < |a| ==> same(a[i], b[i])
  }

  /** Element-wise equality of upstream lists is symmetric when string equality is. */
  lemma SameUpstreamsSymmetric(same: StringEquality, a: seq<string>, b: seq<string>)
    requires IsEquivalence(same)
    ensures SameUpstreams(same, a, b) ==> SameUpstreams(same, b, a)
  {
  }

  function CustomMetas(custom: seq<CustomDnsProvider>): (metas: seq<ProviderMeta>)
    ensures |metas| == |custom|
    ensures forall j :: 0 <= j < |custom| ==> metas[j] == Custom(custom[j])
  {
    seq(|custom|, j requires 0 <= j < |custom| => Custom(custom[j]))
  }

  /** `predefinedProviders + customProviders`: predefined ones first, each list in its own order. */
  function AllProviders(view: View): (all: seq<ProviderMeta>)
    ensures |all| == |view.predefined| + |view.custom|
    ensures forall i :: 0 <= i < |view.predefined| ==> all[i] == Predefined(view.predefined[i])
    ensures forall j :: 0 <= j < |view.custom| ==> all[|view.predefined| + j] == Custom(view.custom[j])
  {
    seq(|view.predefined|, i requires 0 <= i < |view.predefined| => Predefined(view.predefined[i]))
    + CustomMetas(view.custom)
  }

  /** `k` is where `first(where: { $0.providerId == id })` stops in `metas`. */
  ghost predicate IsFirstWithId(metas: seq<ProviderMeta>, id: int, k: int) {
    && 0 <= k < |metas|
    && metas[k].ProviderId() == id
    && forall j :: 0 <= j < k ==> metas[j].ProviderId() != id
  }

  predicate ListsProviderId(metas: seq<ProviderMeta>, id: int) {
    exists i :: 0 <= i < |metas| && metas[i].ProviderId() == id
  }

  /** The first-match search `first(where:)` on provider ids. */
  function FirstWithId(metas: seq<ProviderMeta>, id: int): (r: Option<nat>)
    ensures r.Some? ==> IsFirstWithId(metas, id, r.value)
    ensures r.None? <==> !ListsProviderId(metas, id)
  {
    if |metas| == 0 then None
    else if metas[0].ProviderId() == id then Some(0)
    else
      match FirstWithId(metas[1..], id)
      case None => None
      case Some(k) => Some(k + 1)
  }

  /** `dnsServers.contains(where: { $0.id == serverId })`. */
  predicate HasServer(servers: seq<DnsServer>, serverId: int) {
    exists i :: 0 <= i < |servers| && servers[i].id == serverId
  }
}
