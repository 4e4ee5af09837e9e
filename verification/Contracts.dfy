/** What a publication is: when a service can be published (no conflict in the account), and what stands in both
    stores once it is. One pair of predicates for each mode of internal/cloudflare/publisher.go. */
module Contracts {
  import opened Basics
  import opened Cidr
  import opened Account
  import opened Text
  import opened Pagination

  datatype Zone = Zone(name: string, savedName: string, active: bool, hasAccount: bool)

  datatype SyncResult = SyncResult(resource: RemoteId, ruleset: Id, rule: Id, target: Target)

  /** The inventories fit the page budget of Pagination.ListAll: 100, 50 and 100 items a page. */
  ghost predicate InventoryFits(c: Cloud) {
    |c.routes| <= PAGE_LIMIT * 100 && |c.apps| <= PAGE_LIMIT * 50 && |c.dns| <= PAGE_LIMIT * 100
  }

  function RowId(t: Table, s: string, kind: Kind): Id {
    if Key(s, kind) in t && t[Key(s, kind)].remote.Object? then t[Key(s, kind)].remote.id else 0
  }

  predicate TunnelProtocolAllowed(p: string) {
    p == "http" || p == "https" || p == "tcp" || p == "ssh" || p == "rdp"
  }

  predicate ProxyPortAllowed(scheme: string, port: int) {
    || (scheme == "http" && port in {80, 8080, 8880, 2052, 2082, 2086, 2095})
    || (scheme == "https" && port in {443, 2053, 2083, 2087, 2096, 8443})
  }

  predicate ZoneMatches(zone: Zone) { Lower(zone.name) == Lower(zone.savedName) }

  /** The checks of sync that come before any mode but warp. */
  predicate HostsAccepted(zone: Zone, svc: Service) {
    && zone.active && HostInZone(svc.entry, zone.name)
    && (svc.manageDns && svc.origin != "" ==> HostInZone(svc.origin, zone.name))
  }

  predicate Mapped(svc: Service) {
    svc.publicIp != NoIp && 1 <= svc.publicPort <= 65535
  }

  // ----- DNS

  /** The hostname carries no record, or a single one of the service. */
  ghost predicate DnsFree(dns: map<Id, DnsRecord>, name: string, s: string) {
    forall d, e :: d in dns && e in dns && dns[d].name == name && dns[e].name == name ==>
      d == e && dns[d].comment == Mark(s)
  }

  ghost predicate DnsTypeFits(dns: map<Id, DnsRecord>, name: string, kind: string) {
    forall d :: d in dns && dns[d].name == name ==> dns[d].kind == kind
  }

  ghost predicate CanHold(dns: map<Id, DnsRecord>, record: DnsRecord, s: string) {
    DnsFree(dns, record.name, s) && DnsTypeFits(dns, record.name, record.kind)
  }

  /** Exactly this record stands at its hostname. */
  ghost predicate Stands(dns: map<Id, DnsRecord>, record: DnsRecord, s: string) {
    DnsFree(dns, record.name, s) && exists d :: d in dns && dns[d] == record
  }

  /** Records of other hostnames are the same in both. */
  ghost predicate SameElsewhere(a: map<Id, DnsRecord>, b: map<Id, DnsRecord>, name: string) {
    && (forall d :: d in a && a[d].name != name ==> d in b && b[d] == a[d])
    && (forall d :: d in b && b[d].name != name ==> d in a && a[d] == b[d])
  }

  function IpText(ip: PublicIp): string { if ip.NoIp? then "" else ip.text }

  function AddressRecord(name: string, ip: PublicIp, proxied: bool, s: string): DnsRecord {
    DnsRecord(name, if ip.V6? then "AAAA" else "A", Address(IpText(ip)), proxied, Mark(s))
  }

  function CnameRecord(svc: Service, tunnel: Id): DnsRecord {
    DnsRecord(svc.entry, "CNAME", TunnelHost(tunnel), true, Mark(svc.id))
  }

  // ----- tunnel and warp

  function Protocol(svc: Service): string {
    if svc.tunnelProtocol == "" then "http" else svc.tunnelProtocol
  }

  function ConfigOf(svc: Service): TunnelConfig {
    if svc.mode == "warp" then Configured(true, [IngressRule("", Status404)])
    else Configured(false,
           [IngressRule(svc.entry, Url(Protocol(svc), svc.targetHost, svc.targetPort)), IngressRule("", Status404)])
  }

  /** No tunnel is recorded yet, or the recorded one exists and is still managed remotely under its name. */
  ghost predicate TunnelUsable(t: Table, tunnels: map<Id, Tunnel>, s: string) {
    Key(s, KTunnel) in t ==>
      var id := RowId(t, s, KTunnel);
      id in tunnels && tunnels[id].name == TunnelName(s) && tunnels[id].remotelyManaged
  }

  ghost predicate TunnelHeld(t: Table, tunnels: map<Id, Tunnel>, s: string, id: Id) {
    && Key(s, KTunnel) in t && t[Key(s, KTunnel)].remote == Object(id)
    && id in tunnels && tunnels[id].name == TunnelName(s) && tunnels[id].remotelyManaged
  }

  /** The tables differ at most in this row. */
  ghost predicate OneRow(a: Table, b: Table, key: Key) {
    && (forall k :: k in a && k != key ==> k in b && b[k] == a[k])
    && (forall k :: k in b && k != key ==> k in a)
  }

  ghost predicate TunnelCan(zone: Zone, t: Table, c: Cloud, svc: Service) {
    && zone.hasAccount && HostsAccepted(zone, svc)
    && svc.protocol == "tcp" && TunnelProtocolAllowed(Protocol(svc))
    && DnsFree(c.dns, svc.entry, svc.id) && DnsTypeFits(c.dns, svc.entry, "CNAME")
    && TunnelUsable(t, c.tunnels, svc.id)
  }

  ghost predicate TunnelStands(t: Table, c: Cloud, svc: Service, id: Id) {
    && Key(svc.id, KTunnel) in t && t[Key(svc.id, KTunnel)].remote == Object(id)
    && id in c.tunnels && c.tunnels[id] == Tunnel(TunnelName(svc.id), true, ConfigOf(svc))
  }

  ghost predicate TunnelDone(t: Table, c: Cloud, svc: Service, r: SyncResult) {
    && r.resource.Object? && TunnelStands(t, c, svc, r.resource.id)
    && Stands(c.dns, CnameRecord(svc, r.resource.id), svc.id)
    && r == SyncResult(r.resource, 0, 0, Url("https", svc.entry, 0))
  }

  function RouteOf(svc: Service, net: Prefix, tunnel: Id): PrivateRoute {
    PrivateRoute(Parsed(net), tunnel, TunnelName(svc.id))
  }

  /** Every other route of the account can be read, and none overlaps. */
  ghost predicate RouteClear(routes: map<Id, PrivateRoute>, own: Id, net: Prefix)
    requires net.bits <= net.addr.width && ReadableRoutes(routes)
  {
    forall id :: id in routes && id != own ==>
      routes[id].network.Parsed? && !Overlaps(net, routes[id].network.prefix)
  }

  /** The recorded route, if any, exists as it was made, and no other overlaps. */
  ghost predicate RouteFits(t: Table, routes: map<Id, PrivateRoute>, svc: Service, tunnel: Id, net: Prefix)
    requires net.bits <= net.addr.width && ReadableRoutes(routes)
  {
    && (Key(svc.id, KPrivateRoute) in t ==>
          RowId(t, svc.id, KPrivateRoute) in routes &&
          routes[RowId(t, svc.id, KPrivateRoute)] == RouteOf(svc, net, tunnel))
    && RouteClear(routes, RowId(t, svc.id, KPrivateRoute), net)
  }

  predicate TargetsValid(svc: Service) {
    && (svc.target.Some? ==> svc.target.value.width == 32 || svc.target.value.width == 128)
    && CarriesValid(svc.privateNetwork)
  }

  function NetworkOf(svc: Service): Option<Prefix>
    requires TargetsValid(svc)
  {
    Choice(svc.target, svc.privateNetwork)
  }

  predicate AccountMode(mode: string) { mode != "direct" && mode != "quick" }

  /** What the API stores: direct and quick services carry no hostname at all, the others two different ones. */
  ghost predicate ServiceValid(svc: Service) {
    && TargetsValid(svc)
    && (svc.target.Some? ==> ValidAddr(svc.target.value))
    && (svc.privateNetwork.Cidr? ==> ValidPrefix(svc.privateNetwork.prefix))
    && (AccountMode(svc.mode) && svc.entry != "" ==> svc.entry != svc.origin)
  }

  function WarpResult(svc: Service, id: Id): SyncResult
    requires TargetsValid(svc) && NetworkOf(svc).Some?
  {
    SyncResult(Object(id), 0, 0, Block(NetworkOf(svc).value))
  }

  lemma NetworkValid(svc: Service)
    requires ServiceValid(svc) && NetworkOf(svc).Some?
    ensures ValidPrefix(NetworkOf(svc).value)
  {
    ChosenBlock(svc.target, svc.privateNetwork);
  }

  /** The tunnel can be had, and the network collides with no route. */
  ghost predicate NetworkFits(t: Table, c: Cloud, svc: Service, net: Prefix)
    requires ReadableRoutes(c.routes)
  {
    && net.bits <= net.addr.width && TunnelUsable(t, c.tunnels, svc.id)
    && RouteFits(t, c.routes, svc, RowId(t, svc.id, KTunnel), net)
  }

  ghost predicate WarpCan(zone: Zone, t: Table, c: Cloud, svc: Service)
    requires TargetsValid(svc) && ReadableRoutes(c.routes)
  {
    zone.hasAccount && NetworkOf(svc).Some? && NetworkFits(t, c, svc, NetworkOf(svc).value)
  }

  ghost predicate WarpDone(t: Table, c: Cloud, svc: Service, r: SyncResult)
    requires TargetsValid(svc) && ReadableRoutes(c.routes)
  {
    && r.resource.Object? && TunnelStands(t, c, svc, r.resource.id)
    && NetworkOf(svc).Some? && NetworkOf(svc).value.bits <= NetworkOf(svc).value.addr.width
    && Key(svc.id, KPrivateRoute) in t && RouteFits(t, c.routes, svc, r.resource.id, NetworkOf(svc).value)
    && r == SyncResult(r.resource, 0, 0, Block(NetworkOf(svc).value))
  }

  // ----- dns and proxy

  ghost predicate DirectCan(zone: Zone, c: Cloud, svc: Service) {
    && HostsAccepted(zone, svc) && Mapped(svc)
    && (svc.mode == "proxy" ==> ProxyPortAllowed(svc.scheme, svc.publicPort))
    && CanHold(c.dns, AddressRecord(svc.entry, svc.publicIp, svc.mode == "proxy", svc.id), svc.id)
  }

  function DirectKind(svc: Service): Kind { if svc.mode == "proxy" then KProxy else KDns }

  ghost predicate DirectDone(t: Table, c: Cloud, svc: Service, r: SyncResult) {
    && Stands(c.dns, AddressRecord(svc.entry, svc.publicIp, svc.mode == "proxy", svc.id), svc.id)
    && Key(svc.id, DirectKind(svc)) in t && t[Key(svc.id, DirectKind(svc))] == Resource(RulePair(0, 0), Host(svc.entry))
    && r == SyncResult(Blank, 0, 0, Url(svc.scheme, svc.entry, svc.publicPort))
  }

  // ----- redirect

  function RedirectTarget(svc: Service): Target {
    Url(svc.scheme, if svc.origin != "" then svc.origin else IpText(svc.publicIp), svc.publicPort)
  }

  function RedirectRule(svc: Service): Rule {
    Rule(RuleRef(svc.id), Lower(svc.entry), RedirectTarget(svc), svc.redirectStatus,
         svc.preservePath, svc.preserveQuery, svc.name)
  }

  ghost predicate RedirectDnsCan(dns: map<Id, DnsRecord>, svc: Service) {
    svc.manageDns ==>
      && CanHold(dns, AddressRecord(svc.entry, svc.publicIp, true, svc.id), svc.id)
      && (svc.origin != "" ==> CanHold(dns, AddressRecord(svc.origin, svc.publicIp, false, svc.id), svc.id))
  }

  ghost predicate RedirectCan(zone: Zone, c: Cloud, svc: Service) {
    && HostsAccepted(zone, svc) && Mapped(svc) && RedirectDnsCan(c.dns, svc)
    && (svc.redirectStatus == 302 || svc.redirectStatus == 307) && svc.entry != ""
  }

  ghost predicate RedirectDnsDone(dns: map<Id, DnsRecord>, svc: Service) {
    svc.manageDns ==>
      && Stands(dns, AddressRecord(svc.entry, svc.publicIp, true, svc.id), svc.id)
      && (svc.origin != "" ==> Stands(dns, AddressRecord(svc.origin, svc.publicIp, false, svc.id), svc.id))
  }

  ghost predicate RuleStands(t: Table, c: Cloud, svc: Service, id: Id) {
    && c.ruleset != 0 && id in c.rules && c.rules[id] == RedirectRule(svc)
    && Key(svc.id, KRedirect) in t && t[Key(svc.id, KRedirect)] == Resource(RulePair(c.ruleset, id), Host(svc.entry))
  }

  ghost predicate RedirectDone(t: Table, c: Cloud, svc: Service, r: SyncResult) {
    && RedirectDnsDone(c.dns, svc) && RuleStands(t, c, svc, r.rule)
    && r == SyncResult(Blank, c.ruleset, r.rule, RedirectTarget(svc))
  }

  // ----- Spectrum

  /** No other application uses the hostname. */
  ghost predicate AppClear(apps: map<Id, SpectrumApp>, own: Id, name: string) {
    forall id :: id in apps && id != own ==> apps[id].name != name
  }

  /** The recorded application stands at the hostname; a first publication finds no DNS record there. */
  ghost predicate AppsFit(t: Table, c: Cloud, svc: Service) {
    && AppClear(c.apps, RowId(t, svc.id, KSpectrum), svc.entry)
    && if Key(svc.id, KSpectrum) in t
       then RowId(t, svc.id, KSpectrum) in c.apps && c.apps[RowId(t, svc.id, KSpectrum)].name == svc.entry
       else forall d :: d in c.dns ==> c.dns[d].name != svc.entry
  }

  ghost predicate SpectrumCan(zone: Zone, t: Table, c: Cloud, svc: Service) {
    HostsAccepted(zone, svc) && Mapped(svc) && 1 <= svc.edgePort <= 65535 && AppsFit(t, c, svc)
  }

  /** Settings an administrator made survive; empty ones get the default "off". */
  function Kept(e: EdgeSettings): EdgeSettings {
    e.(proxyProtocol := if e.proxyProtocol != "" then e.proxyProtocol else "off",
       tls := if e.tls != "" then e.tls else "off")
  }

  /** What an administrator has set is as before. */
  predicate SettingsSurvive(a: EdgeSettings, b: EdgeSettings) {
    && b.ipFirewall == a.ipFirewall && b.edgeIps == a.edgeIps && b.smartRouting == a.smartRouting
    && b.trafficType == a.trafficType
    && (a.proxyProtocol != "" ==> b.proxyProtocol == a.proxyProtocol) && (a.tls != "" ==> b.tls == a.tls)
  }

  /** And what was not set is off. */
  predicate SettingsFilled(a: EdgeSettings, b: EdgeSettings) {
    && SettingsSurvive(a, b)
    && (a.proxyProtocol == "" ==> b.proxyProtocol == "off") && (a.tls == "" ==> b.tls == "off")
  }

  /** An application that existed still does, with its settings. */
  ghost predicate SettingsKept(id: Id, a: map<Id, SpectrumApp>, b: map<Id, SpectrumApp>) {
    id in a ==> id in b && SettingsSurvive(a[id].settings, b[id].settings)
  }

  const DEFAULT_SETTINGS := EdgeSettings(false, "off", "off", None, None, "")

  function AppOf(svc: Service, settings: EdgeSettings): SpectrumApp {
    SpectrumApp(svc.entry, svc.protocol, svc.edgePort,
                Url(svc.protocol, IpText(svc.publicIp), svc.publicPort), settings)
  }

  ghost predicate AppStands(t: Table, c: Cloud, svc: Service, id: Id) {
    && Key(svc.id, KSpectrum) in t && t[Key(svc.id, KSpectrum)] == Resource(Object(id), Host(svc.entry))
    && id in c.apps && c.apps[id] == AppOf(svc, Kept(c.apps[id].settings))
    && AppClear(c.apps, id, svc.entry)
  }

  ghost predicate SpectrumDone(t: Table, c: Cloud, svc: Service, r: SyncResult) {
    && r.resource.Object? && AppStands(t, c, svc, r.resource.id)
    && r == SyncResult(r.resource, 0, 0, Url(svc.protocol, svc.entry, svc.edgePort))
  }

  // ----- Workers

  function Pattern(svc: Service): string { svc.entry + "/*" }

  /** No other route takes the entry or the origin host. */
  ghost predicate WorkerRouteClear(routes: map<Id, WorkerRoute>, own: Id, svc: Service) {
    forall id :: id in routes && id != own ==>
      !RouteCovers(routes[id].pattern, svc.entry) && !RouteCovers(routes[id].pattern, svc.origin)
  }

  function EntryRecord(svc: Service): DnsRecord { AddressRecord(svc.entry, V4("192.0.2.1"), true, svc.id) }

  function OriginRecord(svc: Service): DnsRecord { AddressRecord(svc.origin, svc.publicIp, false, svc.id) }

  /** The script name is free or ours. */
  ghost predicate ScriptFree(digest: string -> string, c: Cloud, s: string) {
    var name := WorkerName(digest, s);
    name in c.scripts ==> Tag(s) in c.scripts[name].tags
  }

  ghost predicate WorkerRouteFits(digest: string -> string, t: Table, routes: map<Id, WorkerRoute>, svc: Service) {
    && (Key(svc.id, KWorkerRoute) in t ==>
          var id := RowId(t, svc.id, KWorkerRoute);
          id in routes && routes[id] == WorkerRoute(Pattern(svc), WorkerName(digest, svc.id)))
    && WorkerRouteClear(routes, RowId(t, svc.id, KWorkerRoute), svc)
  }

  /** An existing script is recorded and ours, both hostnames are free or ours, and so is every route over them. */
  ghost predicate WorkerFits(digest: string -> string, t: Table, c: Cloud, svc: Service) {
    && DnsFree(c.dns, svc.entry, svc.id) && DnsFree(c.dns, svc.origin, svc.id)
    && ScriptFree(digest, c, svc.id)
    && (WorkerName(digest, svc.id) in c.scripts ==> Key(svc.id, KWorker) in t)
    && WorkerRouteFits(digest, t, c.workerRoutes, svc)
  }

  ghost predicate WorkersCan(zone: Zone, digest: string -> string, t: Table, c: Cloud, svc: Service) {
    && HostsAccepted(zone, svc) && Mapped(svc)
    && zone.hasAccount && svc.protocol == "tcp" && HostInZone(svc.origin, zone.name) && svc.origin != svc.entry
    && WorkerDnsCan(c.dns, svc) && WorkerFits(digest, t, c, svc)
  }

  function ScriptOf(svc: Service, reachable: bool): WorkerScript {
    WorkerScript({Tag(svc.id)}, reachable, Url(svc.scheme, svc.origin, svc.publicPort), svc.entry)
  }

  /** The script forwards to the origin, and only the route leads to it. */
  ghost predicate ScriptStands(digest: string -> string, c: Cloud, svc: Service) {
    var name := WorkerName(digest, svc.id);
    name in c.scripts && c.scripts[name] == ScriptOf(svc, false)
  }

  ghost predicate WorkerRows(digest: string -> string, t: Table, svc: Service) {
    && Key(svc.id, KWorkerDns) in t && t[Key(svc.id, KWorkerDns)] == Resource(Blank, Host(svc.entry))
    && Key(svc.id, KWorker) in t
    && t[Key(svc.id, KWorker)] == Resource(Script(WorkerName(digest, svc.id)), Host(svc.entry))
  }

  ghost predicate WorkerRouteRowSame(a: Table, b: Table, s: string) {
    && (Key(s, KWorkerRoute) in a <==> Key(s, KWorkerRoute) in b)
    && (Key(s, KWorkerRoute) in a ==> a[Key(s, KWorkerRoute)] == b[Key(s, KWorkerRoute)])
  }

  ghost predicate WorkerStands(digest: string -> string, t: Table, c: Cloud, svc: Service) {
    && WorkerRows(digest, t, svc) && ScriptStands(digest, c, svc)
    && Stands(c.dns, EntryRecord(svc), svc.id) && Stands(c.dns, OriginRecord(svc), svc.id)
    && Key(svc.id, KWorkerRoute) in t && WorkerRouteFits(digest, t, c.workerRoutes, svc)
  }

  ghost predicate WorkerDnsCan(dns: map<Id, DnsRecord>, svc: Service) {
    CanHold(dns, EntryRecord(svc), svc.id) && CanHold(dns, OriginRecord(svc), svc.id)
  }

  /** Everything but the entry record and the route is in place. */
  ghost predicate EntryReady(digest: string -> string, t: Table, c: Cloud, svc: Service) {
    && WorkerRows(digest, t, svc) && ScriptStands(digest, c, svc)
    && Stands(c.dns, OriginRecord(svc), svc.id) && WorkerRouteFits(digest, t, c.workerRoutes, svc)
  }

  ghost predicate WorkersDone(digest: string -> string, t: Table, c: Cloud, svc: Service, r: SyncResult) {
    && WorkerStands(digest, t, c, svc)
    && r == SyncResult(Script(WorkerName(digest, svc.id)), 0, 0, Url("https", svc.entry, 0))
  }

  // ----- every mode

  /** Sync of this service meets no refusal in the present state. */
  ghost predicate CanPublish(zone: Zone, digest: string -> string, t: Table, c: Cloud, svc: Service)
    requires ServiceValid(svc) && ReadableRoutes(c.routes)
  {
    ZoneMatches(zone) &&
    if svc.mode == "warp" then WarpCan(zone, t, c, svc)
    else if svc.mode == "tunnel" then TunnelCan(zone, t, c, svc)
    else if svc.mode == "redirect" then RedirectCan(zone, c, svc)
    else if svc.mode == "dns" || svc.mode == "proxy" then DirectCan(zone, c, svc)
    else if svc.mode == "spectrum" then SpectrumCan(zone, t, c, svc)
    else svc.mode == "workers" && WorkersCan(zone, digest, t, c, svc)
  }

  /** Both stores show the service as published with this result. */
  ghost predicate Published(digest: string -> string, t: Table, c: Cloud, svc: Service, r: SyncResult)
    requires ServiceValid(svc) && ReadableRoutes(c.routes)
  {
    if svc.mode == "warp" then WarpDone(t, c, svc, r)
    else if svc.mode == "tunnel" then TunnelDone(t, c, svc, r)
    else if svc.mode == "redirect" then RedirectDone(t, c, svc, r)
    else if svc.mode == "dns" || svc.mode == "proxy" then DirectDone(t, c, svc, r)
    else if svc.mode == "spectrum" then SpectrumDone(t, c, svc, r)
    else svc.mode == "workers" && WorkersDone(digest, t, c, svc, r)
  }

  // ----- cleanup

  /** The rows are cleaned in this order; kinds that are not listed come first, with the routes. */
  function Priority(kind: Kind): nat {
    if kind == KWorker then 1 else if kind == KTunnel then 2 else 0
  }

  ghost predicate InOrder(rows: seq<Key>) {
    forall i, j :: 0 <= i < j < |rows| ==> rows[i] != rows[j] && Priority(rows[i].kind) <= Priority(rows[j].kind)
  }

  /** The rows of the table, each once, by priority. */
  ghost predicate Arranged(rows: seq<Key>, t: Table) {
    (forall k :: k in rows <==> k in t) && InOrder(rows)
  }

  ghost predicate RefAbsent(rules: map<Id, Rule>, ref: string) {
    forall id :: id in rules ==> rules[id].ref != ref
  }

  /** What the row names no longer exists. */
  ghost predicate Gone(digest: string -> string, t: Table, c: Cloud, key: Key) {
    match key.kind
    case KTunnel => RowId(t, key.owner, KTunnel) !in c.tunnels
    case KPrivateRoute => RowId(t, key.owner, KPrivateRoute) !in c.routes
    case KWorker => WorkerName(digest, key.owner) !in c.scripts
    case KWorkerRoute => RowId(t, key.owner, KWorkerRoute) !in c.workerRoutes
    case KSpectrum => RowId(t, key.owner, KSpectrum) !in c.apps
    case KRedirect => RefAbsent(c.rules, RuleRef(key.owner))
    case _ => true
  }

  /** `b` is `a` without some objects that the rows of s name or that carry the comment or ref of s. */
  ghost predicate Trimmed(digest: string -> string, t: Table, a: Cloud, b: Cloud, s: string) {
    && b.nextId == a.nextId && b.ruleset == a.ruleset
    && (b.tunnels == a.tunnels || b.tunnels == a.tunnels - {RowId(t, s, KTunnel)})
    && (b.routes == a.routes || b.routes == a.routes - {RowId(t, s, KPrivateRoute)})
    && (b.scripts == a.scripts || (Key(s, KWorker) in t && b.scripts == a.scripts - {WorkerName(digest, s)}))
    && (b.workerRoutes == a.workerRoutes || b.workerRoutes == a.workerRoutes - {RowId(t, s, KWorkerRoute)})
    && (b.apps == a.apps || b.apps == a.apps - {RowId(t, s, KSpectrum)})
    && (forall d :: d in b.dns ==> d in a.dns && b.dns[d] == a.dns[d])
    && (forall d :: d in a.dns && a.dns[d].comment != Mark(s) ==> d in b.dns)
    && (forall d :: d in b.rules ==> d in a.rules && b.rules[d] == a.rules[d])
    && (forall d :: d in a.rules && a.rules[d].ref != RuleRef(s) ==> d in b.rules)
  }

  /** The modes whose cleanup sweeps the zone for records with the comment of the service. */
  predicate SweepsDns(svc: Service) {
    svc.mode != "spectrum" && svc.mode != "warp" && (svc.mode != "redirect" || svc.manageDns)
  }

  predicate SweepsRules(t: Table, svc: Service) {
    Key(svc.id, KRedirect) in t || svc.mode == "redirect"
  }

  /** The account without what the service owned. */
  ghost function Swept(digest: string -> string, t: Table, c: Cloud, svc: Service): Cloud {
    c.(tunnels := c.tunnels - {RowId(t, svc.id, KTunnel)},
       routes := c.routes - {RowId(t, svc.id, KPrivateRoute)},
       scripts := if Key(svc.id, KWorker) in t then c.scripts - {WorkerName(digest, svc.id)} else c.scripts,
       workerRoutes := c.workerRoutes - {RowId(t, svc.id, KWorkerRoute)},
       apps := c.apps - {RowId(t, svc.id, KSpectrum)},
       dns := if SweepsDns(svc) then map d | d in c.dns && c.dns[d].comment != Mark(svc.id) :: c.dns[d] else c.dns,
       rules := if SweepsRules(t, svc)
                then map d | d in c.rules && c.rules[d].ref != RuleRef(svc.id) :: c.rules[d] else c.rules)
  }

  function WithoutRows(t: Table, s: string): Table {
    map k | k in t && k.owner != s :: t[k]
  }

  // ----- whole runs

  /** Objects that no row of the acting services names, and that carry no mark of theirs, are what they were. */
  ghost predicate Untouched(acting: set<string>, t: Table, a: Cloud, b: Cloud) {
    && (a.ruleset != 0 ==> b.ruleset == a.ruleset)
    && (forall id :: id in a.tunnels && ForeignTunnel(acting, a.tunnels[id]) ==>
          id in b.tunnels && b.tunnels[id] == a.tunnels[id])
    && (forall id :: id in a.routes && Unnamed(acting, t, KPrivateRoute, id) ==>
          id in b.routes && b.routes[id] == a.routes[id])
    && (forall n :: n in a.scripts && ForeignScript(acting, a.scripts[n]) ==>
          n in b.scripts && b.scripts[n] == a.scripts[n])
    && (forall id :: id in a.workerRoutes && Unnamed(acting, t, KWorkerRoute, id) ==>
          id in b.workerRoutes && b.workerRoutes[id] == a.workerRoutes[id])
    && (forall id :: id in a.dns && ForeignRecord(acting, a.dns[id]) ==> id in b.dns && b.dns[id] == a.dns[id])
    && (forall id :: id in a.rules && ForeignRule(acting, a.rules[id]) ==> id in b.rules && b.rules[id] == a.rules[id])
    && (forall id :: id in a.apps && Unnamed(acting, t, KSpectrum, id) ==> id in b.apps && b.apps[id] == a.apps[id])
  }

  ghost predicate ForeignTunnel(acting: set<string>, tunnel: Tunnel) {
    forall s :: s in acting ==> tunnel.name != TunnelName(s)
  }

  ghost predicate ForeignScript(acting: set<string>, script: WorkerScript) {
    forall s :: s in acting ==> Tag(s) !in script.tags
  }

  ghost predicate ForeignRecord(acting: set<string>, record: DnsRecord) {
    forall s :: s in acting ==> record.comment != Mark(s)
  }

  ghost predicate ForeignRule(acting: set<string>, rule: Rule) {
    forall s :: s in acting ==> rule.ref != RuleRef(s)
  }

  ghost predicate Unnamed(acting: set<string>, t: Table, kind: Kind, id: Id) {
    forall s :: s in acting && Key(s, kind) in t ==> t[Key(s, kind)].remote != Object(id)
  }

  /** Only rows of the acting services differ. */
  ghost predicate OtherRows(acting: set<string>, a: Table, b: Table) {
    && (forall k :: k in a && k.owner !in acting ==> k in b && b[k] == a[k])
    && (forall k :: k in b && k.owner !in acting ==> k in a)
  }

  /** What a run adds or changes carries the evidence of a service that acts. */
  ghost predicate Added(acting: set<string>, a: Cloud, b: Cloud) {
    && (forall id :: id in b.tunnels ==>
          (id in a.tunnels && b.tunnels[id] == a.tunnels[id]) || !ForeignTunnel(acting, b.tunnels[id]))
    && (forall id :: id in b.routes ==>
          (id in a.routes && b.routes[id] == a.routes[id]) || b.routes[id].network.Parsed?)
    && (forall n :: n in b.scripts ==>
          (n in a.scripts && b.scripts[n] == a.scripts[n]) || !ForeignScript(acting, b.scripts[n]))
    && (forall id :: id in b.dns ==> (id in a.dns && b.dns[id] == a.dns[id]) || !ForeignRecord(acting, b.dns[id]))
    && (forall id :: id in b.rules ==>
          (id in a.rules && b.rules[id] == a.rules[id]) || !ForeignRule(acting, b.rules[id]))
    && NamesKept(a, b)
  }

  /** A service that does not act, and whose ref and recorded application are its own. A Worker is not among them: its
      publication also speaks of the patterns of all other routes. */
  ghost predicate Bystander(acting: set<string>, t: Table, c: Cloud, svc: Service)
    requires ReadableRoutes(c.routes)
  {
    && svc.id !in acting && svc.mode != "workers"
    && (svc.mode == "redirect" ==> forall s :: s in acting ==> RuleRef(s) != RuleRef(svc.id))
    && (svc.mode == "spectrum" ==> Unnamed(acting, t, KSpectrum, RowId(t, svc.id, KSpectrum)))
    && (svc.mode == "warp" ==> RoutesDisjoint(c.routes))
  }

  /** An id that a row names was named by it at the start or did not exist then. */
  ghost predicate RowsOldOrNew(a: Table, b: Table, next: Id) {
    forall k :: k in b && b[k].remote.Object? ==> (k in a && a[k].remote == b[k].remote) || b[k].remote.id >= next
  }

  ghost function NamedTunnels(tunnels: map<Id, Tunnel>, s: string): set<Id> {
    set id | id in tunnels && tunnels[id].name == TunnelName(s)
  }

  /** The row of s names a tunnel that exists. */
  ghost predicate TunnelLive(t: Table, tunnels: map<Id, Tunnel>, s: string) {
    Key(s, KTunnel) in t && t[Key(s, KTunnel)].remote.Object? && t[Key(s, KTunnel)].remote.id in tunnels
  }
}
