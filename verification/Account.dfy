/** The two stores that a publication must keep in step: the local ownership table
    (internal/store/cloudflare_resources.go) and the Cloudflare account it names objects in. */
module Account {
  import opened Basics
  import opened Cidr
  import opened Text

  /** Identifier of a remote object; 0 plays the empty string. */
  type Id = nat

  // ----- local state

  datatype Kind =
    | KTunnel | KPrivateRoute | KWorker | KWorkerRoute | KWorkerDns
    | KSpectrum | KRedirect | KDns | KProxy | KAccess(scope: string)

  datatype RemoteId = Blank | Object(id: Id) | Script(name: string) | RulePair(ruleset: Id, rule: Id)

  /** The hostname column, which also holds the CIDR of a private route. */
  datatype Label = Host(name: string) | Network(prefix: Prefix)

  datatype Key = Key(owner: string, kind: Kind)

  datatype Resource = Resource(remote: RemoteId, hostname: Label)

  type Table = map<Key, Resource>

  datatype PublicIp = NoIp | V4(text: string) | V6(text: string)

  /** A service row. `target` is TargetHost as an address, when it is one. */
  datatype Service = Service(
    id: string, name: string, mode: string,
    protocol: string, tunnelProtocol: string, targetHost: string, target: Option<Addr>, targetPort: int,
    privateNetwork: NetworkText, scheme: string, entry: string, origin: string, manageDns: bool,
    redirectStatus: int, preservePath: bool, preserveQuery: bool,
    publicIp: PublicIp, publicPort: int, edgePort: int)

  // ----- remote state

  datatype Target = Url(scheme: string, host: string, port: int) | Status404 | Block(prefix: Prefix)

  datatype IngressRule = IngressRule(hostname: string, service: Target)

  datatype TunnelConfig = Unset | Configured(warpRouting: bool, ingress: seq<IngressRule>)

  datatype Tunnel = Tunnel(name: string, remotelyManaged: bool, config: TunnelConfig)

  /** The network text of a route; foreign routes may carry text that is no prefix. */
  datatype RouteNetwork = Parsed(prefix: Prefix) | Unreadable(text: string)

  datatype PrivateRoute = PrivateRoute(network: RouteNetwork, tunnel: Id, comment: string)

  /** `reachable`: workers.dev or preview addresses lead to the script. */
  datatype WorkerScript = WorkerScript(tags: set<string>, reachable: bool, origin: Target, host: string)

  datatype WorkerRoute = WorkerRoute(pattern: string, script: string)

  datatype Content = Address(text: string) | TunnelHost(tunnel: Id)

  datatype DnsRecord = DnsRecord(name: string, kind: string, content: Content, proxied: bool, comment: string)

  datatype Rule = Rule(ref: string, host: string, target: Target, status: int, keepPath: bool, keepQuery: bool,
                       title: string)

  datatype EdgeSettings = EdgeSettings(
    ipFirewall: bool, proxyProtocol: string, tls: string,
    edgeIps: Option<string>, smartRouting: Option<bool>, trafficType: string)

  datatype SpectrumApp = SpectrumApp(name: string, protocol: string, edgePort: int, origin: Target,
                                     settings: EdgeSettings)

  datatype Cloud = Cloud(
    nextId: Id,
    tunnels: map<Id, Tunnel>,
    routes: map<Id, PrivateRoute>,
    scripts: map<string, WorkerScript>,
    workerRoutes: map<Id, WorkerRoute>,
    dns: map<Id, DnsRecord>,
    ruleset: Id,
    rules: map<Id, Rule>,
    apps: map<Id, SpectrumApp>)

  // ----- marks of ownership

  function TunnelName(id: string): string { "stundeck-" + id }

  function Mark(id: string): string { "managed-by=stundeck:" + id }

  function Tag(id: string): string { "stundeck:" + id }

  function Underscored(id: string): string {
    seq(|id|, i requires 0 <= i < |id| => if id[i] == '-' then '_' else id[i])
  }

  function RuleRef(id: string): string { "stundeck_" + Underscored(id) }

  /** The script name: a digest of the service id, cut to 41 characters. */
  function WorkerName(digest: string -> string, id: string): string { "stundeck-" + digest(id) }

  predicate Managed(comment: string) { "managed-by=stundeck:" <= comment }

  lemma NamesInjective()
    ensures forall a, b :: TunnelName(a) == TunnelName(b) ==> a == b
    ensures forall a, b :: Mark(a) == Mark(b) ==> a == b
    ensures forall a, b :: Tag(a) == Tag(b) ==> a == b
    ensures forall a :: Managed(Mark(a))
  {
    forall a, b | TunnelName(a) == TunnelName(b) ensures a == b {
      assert TunnelName(a)[9..] == a && TunnelName(b)[9..] == b;
    }
    forall a, b | Mark(a) == Mark(b) ensures a == b { assert Mark(a)[20..] == a && Mark(b)[20..] == b; }
    forall a, b | Tag(a) == Tag(b) ensures a == b { assert Tag(a)[9..] == a && Tag(b)[9..] == b; }
  }

  // ----- what every state keeps

  ghost predicate IdsBelow(c: Cloud) {
    && c.nextId > 0
    && c.ruleset < c.nextId
    && (forall id :: id in c.tunnels ==> 0 < id < c.nextId)
    && (forall id :: id in c.routes ==> 0 < id < c.nextId)
    && (forall id :: id in c.workerRoutes ==> 0 < id < c.nextId)
    && (forall id :: id in c.dns ==> 0 < id < c.nextId)
    && (forall id :: id in c.rules ==> 0 < id < c.nextId)
    && (forall id :: id in c.apps ==> 0 < id < c.nextId)
  }

  ghost predicate RecordsBelow(t: Table, next: Id) {
    forall k :: k in t && t[k].remote.Object? ==> 0 < t[k].remote.id < next
  }

  /** Records of services and Access records do not share an owner. */
  ghost predicate Owners(t: Table, services: map<string, Service>) {
    && (forall k :: k in t ==> (k.kind.KAccess? <==> k.owner !in services))
    && (forall s :: s in services ==> services[s].id == s)
  }

  ghost predicate TunnelRecords(t: Table, tunnels: map<Id, Tunnel>) {
    forall s :: Key(s, KTunnel) in t ==>
      var r := t[Key(s, KTunnel)].remote;
      r.Object? && (r.id in tunnels ==> tunnels[r.id].name == TunnelName(s))
  }

  /** A private_route record comes with a tunnel record, and its route, while it exists, agrees with both. */
  ghost predicate RouteRecords(t: Table, routes: map<Id, PrivateRoute>) {
    forall s :: Key(s, KPrivateRoute) in t ==>
      var r := t[Key(s, KPrivateRoute)];
      && Key(s, KTunnel) in t && t[Key(s, KTunnel)].remote.Object?
      && r.remote.Object? && r.hostname.Network?
      && (r.remote.id in routes ==>
            routes[r.remote.id] == PrivateRoute(Parsed(r.hostname.prefix), t[Key(s, KTunnel)].remote.id, TunnelName(s)))
  }

  ghost predicate WorkerRecords(t: Table, scripts: map<string, WorkerScript>, digest: string -> string) {
    forall s :: Key(s, KWorker) in t ==>
      && t[Key(s, KWorker)].remote == Script(WorkerName(digest, s))
      && (WorkerName(digest, s) in scripts ==> Tag(s) in scripts[WorkerName(digest, s)].tags)
  }

  /** Publication order of a Worker: a recorded route that still exists leads to a script that exists and
      cannot be reached around it. */
  ghost predicate WorkerRouteRecords(t: Table, routes: map<Id, WorkerRoute>, scripts: map<string, WorkerScript>,
                                     digest: string -> string)
  {
    forall s :: Key(s, KWorkerRoute) in t ==>
      var r := t[Key(s, KWorkerRoute)];
      && Key(s, KWorker) in t && r.remote.Object? && r.hostname.Host?
      && (r.remote.id in routes ==>
            && routes[r.remote.id] == WorkerRoute(r.hostname.name + "/*", WorkerName(digest, s))
            && WorkerName(digest, s) in scripts && !scripts[WorkerName(digest, s)].reachable)
  }

  ghost predicate SpectrumRecords(t: Table, apps: map<Id, SpectrumApp>) {
    forall s :: Key(s, KSpectrum) in t ==>
      var r := t[Key(s, KSpectrum)];
      r.remote.Object? && r.hostname.Host? && (r.remote.id in apps ==> apps[r.remote.id].name == r.hostname.name)
  }

  /** The only hostname is `host`, and everything else ends in the 404 catch-all. */
  predicate ServesOnly(config: TunnelConfig, host: string) {
    && config.Configured? && |config.ingress| == 2
    && config.ingress[0].hostname == host && config.ingress[1] == IngressRule("", Status404)
  }

  /** Publication order of a tunnel: a CNAME of service s to a tunnel names the recorded tunnel and the entry
      host, and that tunnel, while it exists, serves only this host. */
  ghost predicate TunnelCnames(t: Table, tunnels: map<Id, Tunnel>, dns: map<Id, DnsRecord>,
                               services: map<string, Service>)
  {
    forall d, s :: d in dns && dns[d].comment == Mark(s) && dns[d].content.TunnelHost? ==>
      var id := dns[d].content.tunnel;
      && s in services && services[s].mode == "tunnel" && dns[d].name == services[s].entry
      && Key(s, KTunnel) in t && t[Key(s, KTunnel)].remote == Object(id)
      && (id in tunnels ==> ServesOnly(tunnels[id].config, dns[d].name))
  }

  /** A managed DNS record is the only record of its hostname. */
  ghost predicate DnsUnique(dns: map<Id, DnsRecord>) {
    forall d, e :: d in dns && e in dns && d != e && dns[d].name == dns[e].name ==> !Managed(dns[d].comment)
  }

  /** At most one redirect rule for each ref of the fleet. */
  ghost predicate RulesUnique(rules: map<Id, Rule>, ruleset: Id) {
    && (ruleset == 0 ==> rules == map[])
    && forall d, e, s :: d in rules && e in rules && rules[d].ref == RuleRef(s) && rules[e].ref == RuleRef(s) ==> d == e
  }

  ghost predicate Digests(digest: string -> string) {
    forall a, b :: digest(a) == digest(b) ==> a == b
  }

  /** Tunnels that carry the name of s without being the one its record names. */
  ghost function Strays(t: Table, tunnels: map<Id, Tunnel>, s: string): set<Id> {
    set id | id in tunnels && tunnels[id].name == TunnelName(s) &&
             !(Key(s, KTunnel) in t && t[Key(s, KTunnel)].remote == Object(id))
  }

  /** Every stray tunnel is owed to a mishap: a create that was lost or came back without id, or the failed undo
      of a create whose record could not be saved. */
  ghost predicate StraysExplained(t: Table, tunnels: map<Id, Tunnel>, mishaps: multiset<string>) {
    forall s :: |Strays(t, tunnels, s)| <= mishaps[s]
  }

  ghost predicate Reconciled(services: map<string, Service>, t: Table, c: Cloud, digest: string -> string) {
    && IdsBelow(c) && RecordsBelow(t, c.nextId) && Owners(t, services) && Digests(digest)
    && TunnelRecords(t, c.tunnels) && RouteRecords(t, c.routes)
    && WorkerRecords(t, c.scripts, digest) && WorkerRouteRecords(t, c.workerRoutes, c.scripts, digest)
    && SpectrumRecords(t, c.apps)
    && TunnelCnames(t, c.tunnels, c.dns, services)
    && DnsUnique(c.dns) && RulesUnique(c.rules, c.ruleset)
  }

  // ----- private routes as address sets

  ghost predicate ReadableRoutes(routes: map<Id, PrivateRoute>) {
    forall id :: id in routes && routes[id].network.Parsed? ==> ValidPrefix(routes[id].network.prefix)
  }

  /** No address is claimed by two routes. */
  ghost predicate RoutesDisjoint(routes: map<Id, PrivateRoute>)
    requires ReadableRoutes(routes)
  {
    forall a, b :: a in routes && b in routes && a != b && routes[a].network.Parsed? && routes[b].network.Parsed? ==>
      DisjointBlocks(routes[a].network.prefix, routes[b].network.prefix)
  }

  // ----- what service s may change

  /** Every object of `a` that differs in `b` carried the evidence of s: name, comment or tag, the record of the
      table for objects that are owned by recorded id. */
  ghost predicate Respects(s: string, digest: string -> string, t: Table, a: Cloud, b: Cloud) {
    Spares(s, digest, t, a, b) && Makes(s, digest, a, b)
  }

  ghost predicate Spares(s: string, digest: string -> string, t: Table, a: Cloud, b: Cloud) {
    && a.nextId <= b.nextId
    && (a.ruleset != 0 ==> b.ruleset == a.ruleset)
    && TunnelsSpared(s, a.tunnels, b.tunnels)
    && RoutesSpared(s, t, a.routes, b.routes)
    && ScriptsSpared(s, a.scripts, b.scripts)
    && WorkerRoutesSpared(s, t, digest, a.workerRoutes, b.workerRoutes)
    && RecordsSpared(s, a.dns, b.dns)
    && RulesSpared(s, a.rules, b.rules)
    && AppsSpared(s, t, a.apps, b.apps)
  }

  ghost predicate TunnelsSpared(s: string, a: map<Id, Tunnel>, b: map<Id, Tunnel>) {
    forall id :: id in a ==> (id in b && b[id] == a[id]) || a[id].name == TunnelName(s)
  }

  ghost predicate RoutesSpared(s: string, t: Table, a: map<Id, PrivateRoute>, b: map<Id, PrivateRoute>) {
    forall id :: id in a ==> (id in b && b[id] == a[id]) || OwnsRoute(t, s, id, a[id])
  }

  ghost predicate ScriptsSpared(s: string, a: map<string, WorkerScript>, b: map<string, WorkerScript>) {
    forall id :: id in a ==> (id in b && b[id] == a[id]) || Tag(s) in a[id].tags
  }

  ghost predicate WorkerRoutesSpared(s: string, t: Table, digest: string -> string, a: map<Id, WorkerRoute>,
                                     b: map<Id, WorkerRoute>)
  {
    forall id :: id in a ==> (id in b && b[id] == a[id]) || OwnsWorkerRoute(t, digest, s, id, a[id])
  }

  ghost predicate RecordsSpared(s: string, a: map<Id, DnsRecord>, b: map<Id, DnsRecord>) {
    forall id :: id in a ==> (id in b && b[id] == a[id]) || a[id].comment == Mark(s)
  }

  ghost predicate RulesSpared(s: string, a: map<Id, Rule>, b: map<Id, Rule>) {
    forall id :: id in a ==> (id in b && b[id] == a[id]) || a[id].ref == RuleRef(s)
  }

  ghost predicate AppsSpared(s: string, t: Table, a: map<Id, SpectrumApp>, b: map<Id, SpectrumApp>) {
    forall id :: id in a ==> (id in b && b[id] == a[id]) || OwnsApp(t, s, id, a[id])
  }

  /** What is new or has changed carries the evidence of s afterwards. */
  ghost predicate Makes(s: string, digest: string -> string, a: Cloud, b: Cloud) {
    && TunnelsMade(s, a.tunnels, b.tunnels) && RoutesMade(s, a.routes, b.routes) && ScriptsMade(s, a.scripts, b.scripts)
    && WorkerRoutesMade(s, digest, a.workerRoutes, b.workerRoutes) && RecordsMade(s, a.dns, b.dns)
    && RulesMade(s, a.rules, b.rules) && NamesKept(a, b)
  }

  ghost predicate TunnelsMade(s: string, a: map<Id, Tunnel>, b: map<Id, Tunnel>) {
    forall id :: id in b ==> (id in a && b[id] == a[id]) || b[id].name == TunnelName(s)
  }

  ghost predicate RoutesMade(s: string, a: map<Id, PrivateRoute>, b: map<Id, PrivateRoute>) {
    forall id :: id in b ==> (id in a && b[id] == a[id]) || (b[id].network.Parsed? && b[id].comment == TunnelName(s))
  }

  ghost predicate ScriptsMade(s: string, a: map<string, WorkerScript>, b: map<string, WorkerScript>) {
    forall n :: n in b ==> (n in a && b[n] == a[n]) || Tag(s) in b[n].tags
  }

  ghost predicate WorkerRoutesMade(s: string, digest: string -> string, a: map<Id, WorkerRoute>,
                                   b: map<Id, WorkerRoute>)
  {
    forall id :: id in b ==> (id in a && b[id] == a[id]) || b[id].script == WorkerName(digest, s)
  }

  ghost predicate RecordsMade(s: string, a: map<Id, DnsRecord>, b: map<Id, DnsRecord>) {
    forall id :: id in b ==> (id in a && b[id] == a[id]) || b[id].comment == Mark(s)
  }

  ghost predicate RulesMade(s: string, a: map<Id, Rule>, b: map<Id, Rule>) {
    forall id :: id in b ==> (id in a && b[id] == a[id]) || b[id].ref == RuleRef(s)
  }

  /** What is the same needs no evidence. */
  lemma RespectsBy(s: string, digest: string -> string, t: Table, a: Cloud, b: Cloud)
    requires a.nextId <= b.nextId && (a.ruleset != 0 ==> b.ruleset == a.ruleset)
    requires a.tunnels == b.tunnels || (TunnelsSpared(s, a.tunnels, b.tunnels) && TunnelsMade(s, a.tunnels, b.tunnels))
    requires a.routes == b.routes || (RoutesSpared(s, t, a.routes, b.routes) && RoutesMade(s, a.routes, b.routes))
    requires a.scripts == b.scripts || (ScriptsSpared(s, a.scripts, b.scripts) && ScriptsMade(s, a.scripts, b.scripts))
    requires a.workerRoutes == b.workerRoutes || (WorkerRoutesSpared(s, t, digest, a.workerRoutes, b.workerRoutes)
                                                 && WorkerRoutesMade(s, digest, a.workerRoutes, b.workerRoutes))
    requires a.dns == b.dns || (RecordsSpared(s, a.dns, b.dns) && RecordsMade(s, a.dns, b.dns))
    requires a.rules == b.rules || (RulesSpared(s, a.rules, b.rules) && RulesMade(s, a.rules, b.rules))
    requires a.apps == b.apps || (AppsSpared(s, t, a.apps, b.apps) && NamesKept(a, b))
    ensures Respects(s, digest, t, a, b)
  {
  }

  /** Applications keep their hostnames, and a new one takes none that is taken. */
  ghost predicate NamesKept(a: Cloud, b: Cloud) {
    AppsBelow(a) ==>
      && AppsBelow(b)
      && (forall id :: id in b.apps && id < a.nextId ==> id in a.apps && b.apps[id].name == a.apps[id].name)
      && (forall id, other :: id in b.apps && id !in a.apps && other in a.apps && other in b.apps ==>
            b.apps[id].name != a.apps[other].name)
  }

  ghost predicate AppsBelow(c: Cloud) { forall id :: id in c.apps ==> id < c.nextId }

  predicate OwnsRoute(t: Table, s: string, id: Id, route: PrivateRoute) {
    && Key(s, KPrivateRoute) in t && t[Key(s, KPrivateRoute)].remote == Object(id)
    && t[Key(s, KPrivateRoute)].hostname.Network? && Key(s, KTunnel) in t && t[Key(s, KTunnel)].remote.Object?
    && route == PrivateRoute(Parsed(t[Key(s, KPrivateRoute)].hostname.prefix), t[Key(s, KTunnel)].remote.id,
                             TunnelName(s))
  }

  predicate OwnsWorkerRoute(t: Table, digest: string -> string, s: string, id: Id, route: WorkerRoute) {
    && Key(s, KWorkerRoute) in t && t[Key(s, KWorkerRoute)].remote == Object(id)
    && t[Key(s, KWorkerRoute)].hostname.Host?
    && route == WorkerRoute(t[Key(s, KWorkerRoute)].hostname.name + "/*", WorkerName(digest, s))
  }

  predicate OwnsApp(t: Table, s: string, id: Id, app: SpectrumApp) {
    && Key(s, KSpectrum) in t && t[Key(s, KSpectrum)].remote == Object(id)
    && t[Key(s, KSpectrum)].hostname == Host(app.name)
  }

  lemma SparesTransitive(s: string, digest: string -> string, t: Table, a: Cloud, b: Cloud, c: Cloud)
    requires Spares(s, digest, t, a, b) && Spares(s, digest, t, b, c)
    ensures Spares(s, digest, t, a, c)
  {
  }

  lemma NamesKeptTransitive(a: Cloud, b: Cloud, c: Cloud)
    requires NamesKept(a, b) && NamesKept(b, c) && a.nextId <= b.nextId
    ensures NamesKept(a, c)
  {
  }

  lemma MakesTransitive(s: string, digest: string -> string, a: Cloud, b: Cloud, c: Cloud)
    requires Makes(s, digest, a, b) && Makes(s, digest, b, c) && a.nextId <= b.nextId
    ensures Makes(s, digest, a, c)
  {
    hide TunnelName;
    hide Mark;
    hide Tag;
    hide RuleRef;
    hide WorkerName;
    hide NamesKept;
    NamesKeptTransitive(a, b, c);
  }

  lemma RespectsTransitive(s: string, digest: string -> string, t: Table, a: Cloud, b: Cloud, c: Cloud)
    requires Respects(s, digest, t, a, b) && Respects(s, digest, t, b, c)
    ensures Respects(s, digest, t, a, c)
  {
    hide Makes;
    SparesTransitive(s, digest, t, a, b, c);
    MakesTransitive(s, digest, a, b, c);
  }

  /** Only rows of s change, and an object id that s records anew did not exist before. */
  ghost predicate OwnRows(s: string, a: Table, b: Table, next: Id) {
    && (forall k :: k in a && k.owner != s ==> k in b && b[k] == a[k])
    && (forall k :: k in b && k.owner != s ==> k in a)
    && (forall k :: k in b && k.owner == s && b[k].remote.Object? ==>
          (k in a && b[k].remote == a[k].remote) || b[k].remote.id >= next)
  }

  // ----- names in a zone

  predicate EndsWith(s: string, suffix: string) {
    |suffix| <= |s| && s[|s| - |suffix|..] == suffix
  }

  predicate HostInZone(host: string, zone: string) {
    Lower(host) == Lower(zone) || EndsWith(Lower(host), "." + Lower(zone))
  }

  /** `*` stands for any run of characters. */
  predicate GlobMatches(pattern: string, text: string)
    decreases |pattern| + |text|
  {
    if pattern == "" then text == ""
    else if pattern[0] == '*' then GlobMatches(pattern[1..], text) || (text != "" && GlobMatches(pattern, text[1..]))
    else text != "" && pattern[0] == text[0] && GlobMatches(pattern[1..], text[1..])
  }

  function WithoutPrefix(s: string, prefix: string): string {
    if prefix <= s then s[|prefix|..] else s
  }

  function UpTo(s: string, stop: char): string {
    if s == "" || s[0] == stop then "" else [s[0]] + UpTo(s[1..], stop)
  }

  /** workerRouteCovers: a route pattern, script or exclusion alike, takes requests for the hostname. */
  predicate RouteCovers(pattern: string, hostname: string) {
    var bare := WithoutPrefix(WithoutPrefix(pattern, "https://"), "http://");
    GlobMatches(Lower(UpTo(bare, '/')), Lower(hostname))
  }
}
