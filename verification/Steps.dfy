/** One lemma per remote call or table write of the publisher: under the guard the code establishes before the
    call, the step keeps everything in Account.Reconciled. */
module Steps {
  import opened Cidr
  import opened Account
  import opened Basics
  import opened Contracts

  type Services = map<string, Service>

  function WithTunnel(c: Cloud, name: string): Cloud {
    c.(nextId := c.nextId + 1, tunnels := c.tunnels[c.nextId := Tunnel(name, true, Unset)])
  }

  function WithoutTunnel(c: Cloud, id: Id): Cloud { c.(tunnels := c.tunnels - {id}) }

  function WithConfig(c: Cloud, id: Id, config: TunnelConfig): Cloud
    requires id in c.tunnels
  {
    c.(tunnels := c.tunnels[id := c.tunnels[id].(config := config)])
  }

  function WithRoute(c: Cloud, route: PrivateRoute): Cloud {
    c.(nextId := c.nextId + 1, routes := c.routes[c.nextId := route])
  }

  function WithoutRoute(c: Cloud, id: Id): Cloud { c.(routes := c.routes - {id}) }

  function WithScript(c: Cloud, name: string, script: WorkerScript): Cloud { c.(scripts := c.scripts[name := script]) }

  function WithoutScript(c: Cloud, name: string): Cloud { c.(scripts := c.scripts - {name}) }

  function WithWorkerRoute(c: Cloud, route: WorkerRoute): Cloud {
    c.(nextId := c.nextId + 1, workerRoutes := c.workerRoutes[c.nextId := route])
  }

  function WithoutWorkerRoute(c: Cloud, id: Id): Cloud { c.(workerRoutes := c.workerRoutes - {id}) }

  function WithRecord(c: Cloud, record: DnsRecord): Cloud {
    c.(nextId := c.nextId + 1, dns := c.dns[c.nextId := record])
  }

  function WithPatch(c: Cloud, id: Id, record: DnsRecord): Cloud { c.(dns := c.dns[id := record]) }

  function WithoutRecord(c: Cloud, id: Id): Cloud { c.(dns := c.dns - {id}) }

  function WithRuleset(c: Cloud, rule: Rule): Cloud {
    c.(nextId := c.nextId + 2, ruleset := c.nextId, rules := map[c.nextId + 1 := rule])
  }

  function WithRule(c: Cloud, rule: Rule): Cloud {
    c.(nextId := c.nextId + 1, rules := c.rules[c.nextId := rule])
  }

  function WithRulePatch(c: Cloud, id: Id, rule: Rule): Cloud { c.(rules := c.rules[id := rule]) }

  function WithoutRule(c: Cloud, id: Id): Cloud { c.(rules := c.rules - {id}) }

  function WithApp(c: Cloud, app: SpectrumApp): Cloud {
    c.(nextId := c.nextId + 1, apps := c.apps[c.nextId := app])
  }

  function WithAppPut(c: Cloud, id: Id, app: SpectrumApp): Cloud { c.(apps := c.apps[id := app]) }

  function WithoutApp(c: Cloud, id: Id): Cloud { c.(apps := c.apps - {id}) }

  // ----- a change of one row

  lemma TunnelRecordsKept(t: Table, u: Table, key: Key, tunnels: map<Id, Tunnel>)
    requires TunnelRecords(t, tunnels) && OneRow(t, u, key) && key.kind != KTunnel
    ensures TunnelRecords(u, tunnels)
  {
    hide TunnelName;
  }

  lemma RouteRecordsKept(t: Table, u: Table, key: Key, routes: map<Id, PrivateRoute>)
    requires RouteRecords(t, routes) && OneRow(t, u, key) && key.kind != KTunnel && key.kind != KPrivateRoute
    ensures RouteRecords(u, routes)
  {
    hide TunnelName;
  }

  lemma WorkerRecordsKept(t: Table, u: Table, key: Key, scripts: map<string, WorkerScript>, digest: string -> string)
    requires WorkerRecords(t, scripts, digest) && OneRow(t, u, key) && key.kind != KWorker
    ensures WorkerRecords(u, scripts, digest)
  {
    hide WorkerName;
    hide Tag;
  }

  lemma WorkerRouteRecordsKept(t: Table, u: Table, key: Key, routes: map<Id, WorkerRoute>,
                               scripts: map<string, WorkerScript>,
                               digest: string -> string)
    requires WorkerRouteRecords(t, routes, scripts, digest) && OneRow(t, u, key)
    requires key.kind != KWorkerRoute && (key.kind == KWorker ==> key in u || Key(key.owner, KWorkerRoute) !in t)
    ensures WorkerRouteRecords(u, routes, scripts, digest)
  {
    hide WorkerName;
  }

  lemma SpectrumRecordsKept(t: Table, u: Table, key: Key, apps: map<Id, SpectrumApp>)
    requires SpectrumRecords(t, apps) && OneRow(t, u, key) && key.kind != KSpectrum
    ensures SpectrumRecords(u, apps)
  {
  }

  lemma TunnelCnamesKept(t: Table, u: Table, key: Key, tunnels: map<Id, Tunnel>, dns: map<Id, DnsRecord>, sv: Services)
    requires TunnelCnames(t, tunnels, dns, sv) && OneRow(t, u, key) && key.kind != KTunnel
    ensures TunnelCnames(u, tunnels, dns, sv)
  {
    hide Mark;
    hide ServesOnly;
  }

  /** The rest of a table write, once the predicates about rows of its kind hold. */
  lemma RowChanged(sv: Services, t: Table, u: Table, c: Cloud, digest: string -> string, key: Key)
    requires Reconciled(sv, t, c, digest) && OneRow(t, u, key)
    requires key in u ==>
               key.owner in sv && !key.kind.KAccess? && (u[key].remote.Object? ==> 0 < u[key].remote.id < c.nextId)
    requires key.kind == KTunnel ==>
               TunnelRecords(u, c.tunnels) && RouteRecords(u, c.routes) && TunnelCnames(u, c.tunnels, c.dns, sv)
    requires key.kind == KPrivateRoute ==> RouteRecords(u, c.routes)
    requires key.kind == KWorker ==>
               WorkerRecords(u, c.scripts, digest) && (key in u || Key(key.owner, KWorkerRoute) !in t)
    requires key.kind == KWorkerRoute ==> WorkerRouteRecords(u, c.workerRoutes, c.scripts, digest)
    requires key.kind == KSpectrum ==> SpectrumRecords(u, c.apps)
    ensures Reconciled(sv, u, c, digest)
  {
    hide TunnelRecords;
    hide RouteRecords;
    hide WorkerRecords;
    hide WorkerRouteRecords;
    hide SpectrumRecords;
    hide TunnelCnames;
    hide Digests;
    hide DnsUnique;
    hide RulesUnique;
    hide IdsBelow;
    if key.kind != KTunnel {
      TunnelRecordsKept(t, u, key, c.tunnels);
      TunnelCnamesKept(t, u, key, c.tunnels, c.dns, sv);
      if key.kind != KPrivateRoute {
        RouteRecordsKept(t, u, key, c.routes);
      }
    }
    if key.kind != KWorkerRoute {
      WorkerRouteRecordsKept(t, u, key, c.workerRoutes, c.scripts, digest);
    }
    if key.kind != KWorker {
      WorkerRecordsKept(t, u, key, c.scripts, digest);
    }
    if key.kind != KSpectrum {
      SpectrumRecordsKept(t, u, key, c.apps);
    }
  }

  // ----- tunnels

  lemma TunnelCreated(sv: Services, t: Table, c: Cloud, digest: string -> string, s: string)
    requires Reconciled(sv, t, c, digest)
    ensures Reconciled(sv, t, WithTunnel(c, TunnelName(s)), digest)
  {
    hide Owners;
    hide Digests;
    hide RouteRecords;
    hide WorkerRecords;
    hide WorkerRouteRecords;
    hide SpectrumRecords;
    hide DnsUnique;
    hide RulesUnique;
    hide TunnelName;
    hide Mark;
    hide ServesOnly;
  }

  lemma TunnelRecorded(sv: Services, t: Table, c: Cloud, digest: string -> string, s: string, id: Id, host: Label)
    requires Reconciled(sv, t, c, digest) && s in sv
    requires Key(s, KTunnel) !in t && id in c.tunnels && c.tunnels[id].name == TunnelName(s)
    ensures Reconciled(sv, t[Key(s, KTunnel) := Resource(Object(id), host)], c, digest)
  {
    hide WorkerRecords;
    hide WorkerRouteRecords;
    hide SpectrumRecords;
    hide Digests;
    hide DnsUnique;
    hide RulesUnique;
    hide TunnelName;
    hide Mark;
    hide ServesOnly;
    RowChanged(sv, t, t[Key(s, KTunnel) := Resource(Object(id), host)], c, digest, Key(s, KTunnel));
  }

  /** A record may also name a tunnel that is gone: a save that took effect although it reported failure. */
  lemma TunnelDropped(sv: Services, t: Table, c: Cloud, digest: string -> string, s: string, id: Id)
    requires Reconciled(sv, t, c, digest)
    requires id in c.tunnels ==> c.tunnels[id].name == TunnelName(s)
    ensures Reconciled(sv, t, WithoutTunnel(c, id), digest)
  {
    hide RecordsBelow;
    hide Owners;
    hide Digests;
    hide RouteRecords;
    hide WorkerRecords;
    hide WorkerRouteRecords;
    hide SpectrumRecords;
    hide DnsUnique;
    hide RulesUnique;
    hide TunnelName;
    hide Mark;
    hide ServesOnly;
  }

  lemma TunnelConfigured(sv: Services, t: Table, c: Cloud, digest: string -> string, s: string, id: Id,
                         config: TunnelConfig)
    requires Reconciled(sv, t, c, digest) && s in sv
    requires Key(s, KTunnel) in t && t[Key(s, KTunnel)].remote == Object(id) && id in c.tunnels
    requires sv[s].mode == "tunnel" ==> ServesOnly(config, sv[s].entry)
    ensures Reconciled(sv, t, WithConfig(c, id, config), digest)
  {
    hide RecordsBelow;
    hide Owners;
    hide Digests;
    hide RouteRecords;
    hide WorkerRecords;
    hide WorkerRouteRecords;
    hide SpectrumRecords;
    hide DnsUnique;
    hide RulesUnique;
    NamesInjective();
  }

  // ----- private routes

  lemma RouteCreated(sv: Services, t: Table, c: Cloud, digest: string -> string, s: string, route: PrivateRoute)
    requires Reconciled(sv, t, c, digest)
    ensures Reconciled(sv, t, WithRoute(c, route), digest)
  {
    hide Owners;
    hide Digests;
    hide TunnelRecords;
    hide WorkerRecords;
    hide WorkerRouteRecords;
    hide SpectrumRecords;
    hide TunnelCnames;
    hide DnsUnique;
    hide RulesUnique;
    hide TunnelName;
  }

  lemma RouteRecorded(sv: Services, t: Table, c: Cloud, digest: string -> string, s: string, id: Id, p: Prefix)
    requires Reconciled(sv, t, c, digest) && s in sv
    requires Key(s, KTunnel) in t && id in c.routes
    requires c.routes[id] == PrivateRoute(Parsed(p), t[Key(s, KTunnel)].remote.id, TunnelName(s))
    ensures Reconciled(sv, t[Key(s, KPrivateRoute) := Resource(Object(id), Network(p))], c, digest)
  {
    hide WorkerRecords;
    hide WorkerRouteRecords;
    hide SpectrumRecords;
    hide TunnelCnames;
    hide Digests;
    hide DnsUnique;
    hide RulesUnique;
    hide TunnelName;
    RowChanged(sv, t, t[Key(s, KPrivateRoute) := Resource(Object(id), Network(p))], c, digest, Key(s, KPrivateRoute));
  }

  lemma RouteDropped(sv: Services, t: Table, c: Cloud, digest: string -> string, s: string, id: Id)
    requires Reconciled(sv, t, c, digest)
    ensures Reconciled(sv, t, WithoutRoute(c, id), digest)
  {
    hide RecordsBelow;
    hide Owners;
    hide Digests;
    hide TunnelRecords;
    hide WorkerRecords;
    hide WorkerRouteRecords;
    hide SpectrumRecords;
    hide TunnelCnames;
    hide DnsUnique;
    hide RulesUnique;
    hide TunnelName;
  }

  // ----- Workers

  lemma DnsIntended(sv: Services, t: Table, c: Cloud, digest: string -> string, s: string, host: Label)
    requires Reconciled(sv, t, c, digest) && s in sv
    ensures Reconciled(sv, t[Key(s, KWorkerDns) := Resource(Blank, host)], c, digest)
  {
    hide Reconciled;
    hide TunnelRecords;
    hide RouteRecords;
    hide WorkerRecords;
    hide WorkerRouteRecords;
    hide SpectrumRecords;
    hide TunnelCnames;
    RowChanged(sv, t, t[Key(s, KWorkerDns) := Resource(Blank, host)], c, digest, Key(s, KWorkerDns));
  }

  lemma WorkerIntended(sv: Services, t: Table, c: Cloud, digest: string -> string, s: string, host: Label)
    requires Reconciled(sv, t, c, digest) && s in sv
    requires var n := WorkerName(digest, s); n in c.scripts ==> Tag(s) in c.scripts[n].tags
    ensures Reconciled(sv, t[Key(s, KWorker) := Resource(Script(WorkerName(digest, s)), host)], c, digest)
  {
    hide TunnelRecords;
    hide RouteRecords;
    hide WorkerRouteRecords;
    hide SpectrumRecords;
    hide TunnelCnames;
    hide Digests;
    hide DnsUnique;
    hide RulesUnique;
    hide WorkerName;
    hide Tag;
    RowChanged(sv, t, t[Key(s, KWorker) := Resource(Script(WorkerName(digest, s)), host)], c, digest, Key(s, KWorker));
  }

  /** An upload or a subdomain setting: the script keeps its tag, and does not become reachable again. */
  lemma ScriptPut(sv: Services, t: Table, c: Cloud, digest: string -> string, s: string, script: WorkerScript)
    requires Reconciled(sv, t, c, digest) && s in sv
    requires var n := WorkerName(digest, s);
             n in c.scripts ==> Tag(s) in c.scripts[n].tags && (script.reachable ==> c.scripts[n].reachable)
    requires Tag(s) in script.tags
    ensures Reconciled(sv, t, WithScript(c, WorkerName(digest, s), script), digest)
  {
    hide RecordsBelow;
    hide Owners;
    hide TunnelRecords;
    hide RouteRecords;
    hide SpectrumRecords;
    hide TunnelCnames;
    hide DnsUnique;
    hide RulesUnique;
    hide Tag;
    DigestInjective(digest, s);
  }

  lemma DigestInjective(digest: string -> string, s: string)
    requires Digests(digest)
    ensures forall r :: WorkerName(digest, r) == WorkerName(digest, s) ==> r == s
  {
    forall r | WorkerName(digest, r) == WorkerName(digest, s) ensures r == s {
      assert WorkerName(digest, r)[9..] == digest(r) && WorkerName(digest, s)[9..] == digest(s);
    }
  }

  /** Only when no recorded route leads to it. */
  lemma ScriptDropped(sv: Services, t: Table, c: Cloud, digest: string -> string, s: string)
    requires Reconciled(sv, t, c, digest)
    requires var n := WorkerName(digest, s); n in c.scripts ==> Tag(s) in c.scripts[n].tags
    requires Key(s, KWorkerRoute) in t ==> t[Key(s, KWorkerRoute)].remote.id !in c.workerRoutes
    ensures Reconciled(sv, t, WithoutScript(c, WorkerName(digest, s)), digest)
  {
    hide RecordsBelow;
    hide Owners;
    hide TunnelRecords;
    hide RouteRecords;
    hide SpectrumRecords;
    hide TunnelCnames;
    hide DnsUnique;
    hide RulesUnique;
    hide Tag;
    DigestInjective(digest, s);
  }

  lemma WorkerRouteCreated(sv: Services, t: Table, c: Cloud, digest: string -> string, s: string, route: WorkerRoute)
    requires Reconciled(sv, t, c, digest)
    ensures Reconciled(sv, t, WithWorkerRoute(c, route), digest)
  {
    hide Owners;
    hide Digests;
    hide TunnelRecords;
    hide RouteRecords;
    hide WorkerRecords;
    hide SpectrumRecords;
    hide TunnelCnames;
    hide DnsUnique;
    hide RulesUnique;
    hide WorkerName;
  }

  lemma WorkerRouteRecorded(sv: Services, t: Table, c: Cloud, digest: string -> string, s: string, id: Id, host: string)
    requires Reconciled(sv, t, c, digest) && s in sv
    requires Key(s, KWorker) in t && id in c.workerRoutes
    requires c.workerRoutes[id] == WorkerRoute(host + "/*", WorkerName(digest, s))
    requires WorkerName(digest, s) in c.scripts && !c.scripts[WorkerName(digest, s)].reachable
    ensures Reconciled(sv, t[Key(s, KWorkerRoute) := Resource(Object(id), Host(host))], c, digest)
  {
    hide TunnelRecords;
    hide RouteRecords;
    hide WorkerRecords;
    hide SpectrumRecords;
    hide TunnelCnames;
    hide Digests;
    hide DnsUnique;
    hide RulesUnique;
    hide WorkerName;
    RowChanged(sv, t, t[Key(s, KWorkerRoute) := Resource(Object(id), Host(host))], c, digest, Key(s, KWorkerRoute));
  }

  lemma WorkerRouteDropped(sv: Services, t: Table, c: Cloud, digest: string -> string, s: string, id: Id)
    requires Reconciled(sv, t, c, digest)
    ensures Reconciled(sv, t, WithoutWorkerRoute(c, id), digest)
  {
    hide RecordsBelow;
    hide Owners;
    hide Digests;
    hide TunnelRecords;
    hide RouteRecords;
    hide WorkerRecords;
    hide SpectrumRecords;
    hide TunnelCnames;
    hide DnsUnique;
    hide RulesUnique;
    hide WorkerName;
  }

  // ----- DNS

  /** A CNAME to a tunnel may be written only by the tunnel's own service, once the tunnel serves the host. */
  ghost predicate CnameAllowed(sv: Services, t: Table, c: Cloud, s: string, record: DnsRecord) {
    record.content.TunnelHost? ==>
      var id := record.content.tunnel;
      && s in sv && sv[s].mode == "tunnel" && record.name == sv[s].entry
      && Key(s, KTunnel) in t && t[Key(s, KTunnel)].remote == Object(id)
      && (id in c.tunnels ==> ServesOnly(c.tunnels[id].config, record.name))
  }

  lemma FreshNameUnique(dns: map<Id, DnsRecord>, id: Id, record: DnsRecord)
    requires DnsUnique(dns) && id !in dns && forall d :: d in dns ==> dns[d].name != record.name
    ensures DnsUnique(dns[id := record])
  {
    hide Managed;
  }

  lemma RecordCreated(sv: Services, t: Table, c: Cloud, digest: string -> string, s: string, record: DnsRecord)
    requires Reconciled(sv, t, c, digest)
    requires record.comment == Mark(s) && CnameAllowed(sv, t, c, s, record)
    requires forall d :: d in c.dns ==> c.dns[d].name != record.name
    ensures Reconciled(sv, t, WithRecord(c, record), digest)
  {
    hide Owners;
    hide Digests;
    hide TunnelRecords;
    hide RouteRecords;
    hide WorkerRecords;
    hide WorkerRouteRecords;
    hide SpectrumRecords;
    hide RulesUnique;
    hide ServesOnly;
    hide DnsUnique;
    NamesInjective();
    FreshNameUnique(c.dns, c.nextId, record);
  }

  lemma RecordPatched(sv: Services, t: Table, c: Cloud, digest: string -> string, s: string, id: Id, record: DnsRecord)
    requires Reconciled(sv, t, c, digest)
    requires record.comment == Mark(s) && CnameAllowed(sv, t, c, s, record)
    requires id in c.dns && c.dns[id].name == record.name && c.dns[id].comment == Mark(s)
    ensures Reconciled(sv, t, WithPatch(c, id, record), digest)
  {
    hide RecordsBelow;
    hide Owners;
    hide Digests;
    hide TunnelRecords;
    hide RouteRecords;
    hide WorkerRecords;
    hide WorkerRouteRecords;
    hide SpectrumRecords;
    hide RulesUnique;
    hide ServesOnly;
    NamesInjective();
  }

  lemma RecordDropped(sv: Services, t: Table, c: Cloud, digest: string -> string, s: string, id: Id)
    requires Reconciled(sv, t, c, digest)
    requires id in c.dns ==> c.dns[id].comment == Mark(s)
    ensures Reconciled(sv, t, WithoutRecord(c, id), digest)
  {
    hide RecordsBelow;
    hide Owners;
    hide Digests;
    hide TunnelRecords;
    hide RouteRecords;
    hide WorkerRecords;
    hide WorkerRouteRecords;
    hide SpectrumRecords;
    hide RulesUnique;
    hide Mark;
    hide ServesOnly;
  }

  // ----- redirect rules

  lemma RulesetCreated(sv: Services, t: Table, c: Cloud, digest: string -> string, s: string, rule: Rule)
    requires Reconciled(sv, t, c, digest) && c.ruleset == 0
    ensures Reconciled(sv, t, WithRuleset(c, rule), digest)
  {
    hide Owners;
    hide Digests;
    hide TunnelRecords;
    hide RouteRecords;
    hide WorkerRecords;
    hide WorkerRouteRecords;
    hide SpectrumRecords;
    hide TunnelCnames;
    hide DnsUnique;
    hide RuleRef;
  }

  lemma RuleCreated(sv: Services, t: Table, c: Cloud, digest: string -> string, s: string, rule: Rule)
    requires Reconciled(sv, t, c, digest) && c.ruleset != 0 && RefAbsent(c.rules, rule.ref)
    ensures Reconciled(sv, t, WithRule(c, rule), digest)
  {
    hide Owners;
    hide Digests;
    hide TunnelRecords;
    hide RouteRecords;
    hide WorkerRecords;
    hide WorkerRouteRecords;
    hide SpectrumRecords;
    hide TunnelCnames;
    hide DnsUnique;
    hide RuleRef;
  }

  lemma RulePatched(sv: Services, t: Table, c: Cloud, digest: string -> string, s: string, id: Id, rule: Rule)
    requires Reconciled(sv, t, c, digest)
    requires id in c.rules && c.rules[id].ref == rule.ref == RuleRef(s)
    ensures Reconciled(sv, t, WithRulePatch(c, id, rule), digest)
  {
    hide RecordsBelow;
    hide Owners;
    hide Digests;
    hide TunnelRecords;
    hide RouteRecords;
    hide WorkerRecords;
    hide WorkerRouteRecords;
    hide SpectrumRecords;
    hide TunnelCnames;
    hide DnsUnique;
    hide RuleRef;
  }

  lemma RuleDropped(sv: Services, t: Table, c: Cloud, digest: string -> string, s: string, id: Id)
    requires Reconciled(sv, t, c, digest)
    requires id in c.rules ==> c.rules[id].ref == RuleRef(s)
    ensures Reconciled(sv, t, WithoutRule(c, id), digest)
  {
    hide RecordsBelow;
    hide Owners;
    hide Digests;
    hide TunnelRecords;
    hide RouteRecords;
    hide WorkerRecords;
    hide WorkerRouteRecords;
    hide SpectrumRecords;
    hide TunnelCnames;
    hide DnsUnique;
    hide RuleRef;
  }

  // ----- Spectrum

  lemma AppCreated(sv: Services, t: Table, c: Cloud, digest: string -> string, s: string, app: SpectrumApp)
    requires Reconciled(sv, t, c, digest)
    ensures Reconciled(sv, t, WithApp(c, app), digest)
  {
    hide Owners;
    hide Digests;
    hide TunnelRecords;
    hide RouteRecords;
    hide WorkerRecords;
    hide WorkerRouteRecords;
    hide TunnelCnames;
    hide DnsUnique;
    hide RulesUnique;
  }

  lemma AppPut(sv: Services, t: Table, c: Cloud, digest: string -> string, s: string, id: Id, app: SpectrumApp)
    requires Reconciled(sv, t, c, digest)
    requires id in c.apps && c.apps[id].name == app.name && OwnsApp(t, s, id, c.apps[id])
    ensures Reconciled(sv, t, WithAppPut(c, id, app), digest)
  {
    hide RecordsBelow;
    hide Owners;
    hide Digests;
    hide TunnelRecords;
    hide RouteRecords;
    hide WorkerRecords;
    hide WorkerRouteRecords;
    hide TunnelCnames;
    hide DnsUnique;
    hide RulesUnique;
  }

  lemma AppRecorded(sv: Services, t: Table, c: Cloud, digest: string -> string, s: string, id: Id, host: string)
    requires Reconciled(sv, t, c, digest) && s in sv
    requires id in c.apps && c.apps[id].name == host
    ensures Reconciled(sv, t[Key(s, KSpectrum) := Resource(Object(id), Host(host))], c, digest)
  {
    hide TunnelRecords;
    hide RouteRecords;
    hide WorkerRecords;
    hide WorkerRouteRecords;
    hide TunnelCnames;
    hide Digests;
    hide DnsUnique;
    hide RulesUnique;
    RowChanged(sv, t, t[Key(s, KSpectrum) := Resource(Object(id), Host(host))], c, digest, Key(s, KSpectrum));
  }

  lemma AppDropped(sv: Services, t: Table, c: Cloud, digest: string -> string, s: string, id: Id)
    requires Reconciled(sv, t, c, digest)
    ensures Reconciled(sv, t, WithoutApp(c, id), digest)
  {
    hide RecordsBelow;
    hide Owners;
    hide Digests;
    hide TunnelRecords;
    hide RouteRecords;
    hide WorkerRecords;
    hide WorkerRouteRecords;
    hide TunnelCnames;
    hide DnsUnique;
    hide RulesUnique;
  }

  // ----- table rows

  /** Rows that name no object of their own: dns, proxy and redirect. */
  lemma PlainRecorded(sv: Services, t: Table, c: Cloud, digest: string -> string, s: string, kind: Kind, r: Resource)
    requires Reconciled(sv, t, c, digest) && s in sv
    requires kind == KDns || kind == KProxy || kind == KRedirect
    requires !r.remote.Object?
    ensures Reconciled(sv, t[Key(s, kind) := r], c, digest)
  {
    hide Reconciled;
    hide TunnelRecords;
    hide RouteRecords;
    hide WorkerRecords;
    hide WorkerRouteRecords;
    hide SpectrumRecords;
    hide TunnelCnames;
    RowChanged(sv, t, t[Key(s, kind) := r], c, digest, Key(s, kind));
  }

  /** A row may go once nothing rests on it: the tunnel row after the route row and the CNAMEs, the worker row
      after the worker_route row. */
  lemma RowDropped(sv: Services, t: Table, c: Cloud, digest: string -> string, s: string, kind: Kind)
    requires Reconciled(sv, t, c, digest)
    requires kind == KTunnel ==> Key(s, KPrivateRoute) !in t
    requires kind == KTunnel ==> forall d :: d in c.dns && c.dns[d].content.TunnelHost? ==> c.dns[d].comment != Mark(s)
    requires kind == KWorker ==> Key(s, KWorkerRoute) !in t
    ensures Reconciled(sv, t - {Key(s, kind)}, c, digest)
  {
    hide Digests;
    hide DnsUnique;
    hide RulesUnique;
    hide IdsBelow;
    hide TunnelName;
    hide Mark;
    hide Tag;
    hide WorkerName;
    hide ServesOnly;
    hide TunnelCnames;
    CnamesWithout(sv, t, c, s, kind);
    RowChanged(sv, t, t - {Key(s, kind)}, c, digest, Key(s, kind));
  }

  lemma CnamesWithout(sv: Services, t: Table, c: Cloud, s: string, kind: Kind)
    requires TunnelCnames(t, c.tunnels, c.dns, sv)
    requires kind == KTunnel ==> forall d :: d in c.dns && c.dns[d].content.TunnelHost? ==> c.dns[d].comment != Mark(s)
    ensures TunnelCnames(t - {Key(s, kind)}, c.tunnels, c.dns, sv)
  {
    hide Mark;
    hide ServesOnly;
  }

  /** The guard of updateService: while rows of s exist, what they depend on stays as it is. */
  predicate GuardedFieldsEqual(a: Service, b: Service) {
    && a.mode == b.mode && a.entry == b.entry && a.origin == b.origin
    && a.manageDns == b.manageDns && a.privateNetwork == b.privateNetwork
  }

  lemma ServiceUpdated(sv: Services, t: Table, c: Cloud, digest: string -> string, svc: Service)
    requires Reconciled(sv, t, c, digest)
    requires (forall k :: k in t ==> k.owner != svc.id) || (svc.id in sv && GuardedFieldsEqual(sv[svc.id], svc))
    ensures Reconciled(sv[svc.id := svc], t, c, digest)
  {
    hide RecordsBelow;
    hide Digests;
    hide TunnelRecords;
    hide RouteRecords;
    hide WorkerRecords;
    hide WorkerRouteRecords;
    hide SpectrumRecords;
    hide DnsUnique;
    hide RulesUnique;
    hide Mark;
    hide ServesOnly;
  }

  /** A service without rows may go. */
  lemma ServiceDeleted(sv: Services, t: Table, c: Cloud, digest: string -> string, s: string)
    requires Reconciled(sv, t, c, digest) && forall k :: k in t ==> k.owner != s
    ensures Reconciled(sv - {s}, t, c, digest)
  {
    hide RecordsBelow;
    hide Digests;
    hide TunnelRecords;
    hide RouteRecords;
    hide WorkerRecords;
    hide WorkerRouteRecords;
    hide SpectrumRecords;
    hide DnsUnique;
    hide RulesUnique;
    hide Mark;
    hide ServesOnly;
  }

  lemma CnamesGone(sv: Services, t: Table, c: Cloud, digest: string -> string, s: string)
    requires Reconciled(sv, t, c, digest) && s !in sv
    ensures forall d :: d in c.dns && c.dns[d].comment == Mark(s) ==> !c.dns[d].content.TunnelHost?
  {
    hide Mark;
  }

  // ----- frames of single writes

  lemma IdsOf(sv: Services, t: Table, c: Cloud, digest: string -> string)
    requires Reconciled(sv, t, c, digest)
    ensures IdsBelow(c)
  {
  }

  lemma RespectsSelf(s: string, digest: string -> string, t: Table, c: Cloud)
    ensures Respects(s, digest, t, c, c)
  {
  }

  lemma RecordCreatedFrame(s: string, digest: string -> string, t: Table, c: Cloud, record: DnsRecord)
    requires IdsBelow(c) && record.comment == Mark(s)
    requires forall d :: d in c.dns ==> c.dns[d].name != record.name
    ensures Respects(s, digest, t, c, WithRecord(c, record))
    ensures SameElsewhere(c.dns, WithRecord(c, record).dns, record.name)
    ensures Stands(WithRecord(c, record).dns, record, s)
  {
    hide Respects;
    RespectsBy(s, digest, t, c, WithRecord(c, record));
    assert WithRecord(c, record).dns[c.nextId] == record;
  }

  lemma RecordPatchedFrame(s: string, digest: string -> string, t: Table, c: Cloud, id: Id, record: DnsRecord)
    requires record.comment == Mark(s) && DnsFree(c.dns, record.name, s)
    requires id in c.dns && c.dns[id].name == record.name && c.dns[id].comment == Mark(s)
    ensures Respects(s, digest, t, c, WithPatch(c, id, record))
    ensures SameElsewhere(c.dns, WithPatch(c, id, record).dns, record.name)
    ensures Stands(WithPatch(c, id, record).dns, record, s)
  {
    hide Respects;
    RespectsBy(s, digest, t, c, WithPatch(c, id, record));
    assert WithPatch(c, id, record).dns[id] == record;
  }

  lemma OwnRowsTransitive(s: string, a: Table, b: Table, c: Table, n: Id, m: Id)
    requires OwnRows(s, a, b, n) && OwnRows(s, b, c, m) && n <= m
    ensures OwnRows(s, a, c, n)
  {
  }

  lemma OwnRowsLater(s: string, a: Table, b: Table, n: Id, m: Id)
    requires OwnRows(s, a, b, m) && n <= m
    ensures OwnRows(s, a, b, n)
  {
  }

  lemma OwnRowsSelf(s: string, a: Table, n: Id)
    ensures OwnRows(s, a, a, n)
  {
  }

  lemma OneRowSelf(t: Table, key: Key)
    ensures OneRow(t, t, key)
  {
  }

  lemma TunnelFrameSelf(c: Cloud)
    ensures c == c.(nextId := c.nextId, tunnels := c.tunnels)
  {
  }

  lemma TunnelUsableFresh(t: Table, tunnels: map<Id, Tunnel>, s: string)
    requires Key(s, KTunnel) !in t
    ensures TunnelUsable(t, tunnels, s)
  {
  }

  lemma RowWritten(s: string, kind: Kind, r: Resource, t: Table, n: Id)
    requires r.remote.Object? ==> r.remote.id >= n || (Key(s, kind) in t && t[Key(s, kind)].remote == r.remote)
    ensures OwnRows(s, t, t[Key(s, kind) := r], n) && OwnRows(s, t, t, n)
    ensures OneRow(t, t[Key(s, kind) := r], Key(s, kind)) && OneRow(t, t, Key(s, kind))
  {
  }

  /** The route check sees the same before and after the tunnel row is written. */
  lemma RouteFitsMoved(t: Table, u: Table, routes: map<Id, PrivateRoute>, svc: Service, id: Id, net: Prefix)
    requires net.bits <= net.addr.width && ReadableRoutes(routes)
    requires OneRow(t, u, Key(svc.id, KTunnel)) && Key(svc.id, KTunnel) in u
    requires u[Key(svc.id, KTunnel)].remote == Object(id)
    requires Key(svc.id, KTunnel) in t ==> t == u
    requires Key(svc.id, KPrivateRoute) in t ==> Key(svc.id, KTunnel) in t
    ensures RouteFits(t, routes, svc, RowId(t, svc.id, KTunnel), net) <==> RouteFits(u, routes, svc, id, net)
  {
    hide RouteClear;
    hide ReadableRoutes;
  }

  lemma WarpAgain(zone: Zone, t: Table, u: Table, c: Cloud, d: Cloud, svc: Service, id: Id)
    requires TargetsValid(svc) && ReadableRoutes(d.routes) && zone.hasAccount
    requires NetworkOf(svc).Some? && NetworkOf(svc).value.bits <= NetworkOf(svc).value.addr.width
    requires OneRow(t, u, Key(svc.id, KPrivateRoute)) && c.tunnels == d.tunnels
    requires TunnelStands(t, c, svc, id) && Key(svc.id, KPrivateRoute) in u
    requires RouteFits(u, d.routes, svc, id, NetworkOf(svc).value)
    ensures WarpDone(u, d, svc, WarpResult(svc, id)) && WarpCan(zone, u, d, svc)
  {
    hide RouteFits;
    hide NetworkOf;
    hide ReadableRoutes;
  }

  // ----- cleanup

  lemma TrimmedTransitive(digest: string -> string, t: Table, a: Cloud, b: Cloud, c: Cloud, s: string)
    requires Trimmed(digest, t, a, b, s) && Trimmed(digest, t, b, c, s)
    ensures Trimmed(digest, t, a, c, s)
  {
    hide RuleRef;
    hide Mark;
    hide WorkerName;
  }

  lemma TrimmedSelf(digest: string -> string, t: Table, c: Cloud, s: string)
    ensures Trimmed(digest, t, c, c, s)
  {
  }

  /** What is gone stays gone. */
  lemma GoneStays(digest: string -> string, t: Table, a: Cloud, b: Cloud, s: string, key: Key)
    requires Trimmed(digest, t, a, b, s) && Gone(digest, t, a, key)
    ensures Gone(digest, t, b, key)
  {
    hide RuleRef;
    hide Mark;
    hide WorkerName;
  }

  /** The rows of a service agree with the objects they name. */
  lemma RowsOwn(sv: Services, t: Table, c: Cloud, digest: string -> string, s: string)
    requires Reconciled(sv, t, c, digest)
    ensures RowId(t, s, KTunnel) in c.tunnels ==> c.tunnels[RowId(t, s, KTunnel)].name == TunnelName(s)
    ensures RowId(t, s, KPrivateRoute) in c.routes ==>
              OwnsRoute(t, s, RowId(t, s, KPrivateRoute), c.routes[RowId(t, s, KPrivateRoute)])
    ensures RowId(t, s, KWorkerRoute) in c.workerRoutes ==>
              OwnsWorkerRoute(t, digest, s, RowId(t, s, KWorkerRoute), c.workerRoutes[RowId(t, s, KWorkerRoute)])
    ensures RowId(t, s, KSpectrum) in c.apps ==> OwnsApp(t, s, RowId(t, s, KSpectrum), c.apps[RowId(t, s, KSpectrum)])
    ensures Key(s, KWorker) in t ==> ScriptFree(digest, c, s)
  {
    hide TunnelCnames;
    hide DnsUnique;
    hide RulesUnique;
  }

  /** A cleanup makes nothing. */
  lemma TrimmedMakes(digest: string -> string, t: Table, a: Cloud, b: Cloud, s: string)
    requires Trimmed(digest, t, a, b, s)
    ensures TunnelsMade(s, a.tunnels, b.tunnels) && RoutesMade(s, a.routes, b.routes)
    ensures ScriptsMade(s, a.scripts, b.scripts) && WorkerRoutesMade(s, digest, a.workerRoutes, b.workerRoutes)
    ensures RecordsMade(s, a.dns, b.dns) && RulesMade(s, a.rules, b.rules) && NamesKept(a, b)
  {
    hide RuleRef;
    hide Mark;
    hide Tag;
    hide TunnelName;
    hide WorkerName;
    hide RowId;
  }

  /** Everything that cleanup removes is evidence-bearing. */
  lemma TrimmedRespects(sv: Services, digest: string -> string, t: Table, a: Cloud, b: Cloud, s: string)
    requires Reconciled(sv, t, a, digest) && Trimmed(digest, t, a, b, s)
    ensures Respects(s, digest, t, a, b)
  {
    hide Respects;
    hide Reconciled;
    hide TunnelsMade;
    hide RoutesMade;
    hide ScriptsMade;
    hide WorkerRoutesMade;
    hide RecordsMade;
    hide RulesMade;
    hide NamesKept;
    hide RuleRef;
    hide Mark;
    hide Tag;
    hide TunnelName;
    hide WorkerName;
    hide OwnsRoute;
    hide OwnsWorkerRoute;
    hide OwnsApp;
    hide RowId;
    RowsOwn(sv, t, a, digest, s);
    TrimmedMakes(digest, t, a, b, s);
    RespectsBy(s, digest, t, a, b);
  }

  /** A kind without a row names nothing. */
  lemma AbsentIsGone(digest: string -> string, t: Table, c: Cloud, key: Key)
    requires 0 !in c.tunnels && 0 !in c.routes && 0 !in c.workerRoutes && 0 !in c.apps
    requires key !in t && key.kind in {KTunnel, KPrivateRoute, KWorkerRoute, KSpectrum}
    ensures Gone(digest, t, c, key)
  {
  }

  /** Once every row's object is gone, and the sweeps are done, the account is exactly the swept one. */
  lemma TrimmedIsSwept(digest: string -> string, t: Table, a: Cloud, b: Cloud, svc: Service)
    requires Trimmed(digest, t, a, b, svc.id)
    requires 0 !in a.tunnels && 0 !in a.routes && 0 !in a.workerRoutes && 0 !in a.apps
    requires forall k :: k in t && k.owner == svc.id ==> Gone(digest, t, b, k)
    requires SweepsRules(t, svc) ==> RefAbsent(b.rules, RuleRef(svc.id))
    requires !SweepsRules(t, svc) ==> b.rules == a.rules
    requires SweepsDns(svc) ==> forall d :: d in b.dns ==> b.dns[d].comment != Mark(svc.id)
    requires !SweepsDns(svc) ==> b.dns == a.dns
    ensures b == Swept(digest, t, a, svc)
  {
    hide RuleRef;
    hide Mark;
    hide WorkerName;
    hide SweepsDns;
    hide SweepsRules;
    ObjectsSwept(digest, t, a, b, svc);
    assert b.dns == Swept(digest, t, a, svc).dns;
    assert b.rules == Swept(digest, t, a, svc).rules;
  }

  lemma ObjectsSwept(digest: string -> string, t: Table, a: Cloud, b: Cloud, svc: Service)
    requires Trimmed(digest, t, a, b, svc.id)
    requires 0 !in a.tunnels && 0 !in a.routes && 0 !in a.workerRoutes && 0 !in a.apps
    requires forall k :: k in t && k.owner == svc.id ==> Gone(digest, t, b, k)
    ensures var w := Swept(digest, t, a, svc);
            && b.tunnels == w.tunnels && b.routes == w.routes && b.scripts == w.scripts
            && b.workerRoutes == w.workerRoutes && b.apps == w.apps
  {
    hide RuleRef;
    hide Mark;
    hide WorkerName;
    hide SweepsDns;
    hide SweepsRules;
    hide Gone;
    hide RowId;
    NothingNamed(digest, t, a, b, svc.id);
    WithoutAbsent(a.tunnels, RowId(t, svc.id, KTunnel));
    WithoutAbsent(a.routes, RowId(t, svc.id, KPrivateRoute));
    WithoutAbsent(a.workerRoutes, RowId(t, svc.id, KWorkerRoute));
    WithoutAbsent(a.apps, RowId(t, svc.id, KSpectrum));
    WithoutAbsent(a.scripts, WorkerName(digest, svc.id));
  }

  /** What the rows of s name has gone. */
  lemma NothingNamed(digest: string -> string, t: Table, a: Cloud, b: Cloud, s: string)
    requires Trimmed(digest, t, a, b, s)
    requires 0 !in a.tunnels && 0 !in a.routes && 0 !in a.workerRoutes && 0 !in a.apps
    requires forall k :: k in t && k.owner == s ==> Gone(digest, t, b, k)
    ensures RowId(t, s, KTunnel) !in b.tunnels && RowId(t, s, KPrivateRoute) !in b.routes
    ensures RowId(t, s, KWorkerRoute) !in b.workerRoutes && RowId(t, s, KSpectrum) !in b.apps
    ensures Key(s, KWorker) in t ==> WorkerName(digest, s) !in b.scripts
  {
    hide RuleRef;
    hide Mark;
    hide WorkerName;
    forall kind | kind in {KTunnel, KPrivateRoute, KWorkerRoute, KSpectrum} ensures Gone(digest, t, b, Key(s, kind)) {
      if Key(s, kind) !in t {
        AbsentIsGone(digest, t, b, Key(s, kind));
      }
    }
    assert Gone(digest, t, b, Key(s, KTunnel)) && Gone(digest, t, b, Key(s, KPrivateRoute));
    assert Gone(digest, t, b, Key(s, KWorkerRoute)) && Gone(digest, t, b, Key(s, KSpectrum));
    assert Key(s, KWorker) in t ==> Gone(digest, t, b, Key(s, KWorker));
  }

  lemma WithoutAbsent<K, V>(m: map<K, V>, k: K)
    ensures k !in m ==> m - {k} == m
  {
  }

  lemma CleanTunnelTrim(digest: string -> string, t: Table, c: Cloud, s: string, mishaps: multiset<string>)
    requires StraysExplained(t, c.tunnels, mishaps)
    ensures var d := WithoutTunnel(c, RowId(t, s, KTunnel));
            Trimmed(digest, t, c, d, s) && StraysExplained(t, d.tunnels, mishaps)
  {
    StraysKept(t, c.tunnels, t, WithoutTunnel(c, RowId(t, s, KTunnel)).tunnels, mishaps) by { hide Trimmed; }
  }

  lemma CleanPrivateRouteTrim(digest: string -> string, t: Table, c: Cloud, s: string, mishaps: multiset<string>)
    requires ReadableRoutes(c.routes)
    ensures var d := WithoutRoute(c, RowId(t, s, KPrivateRoute));
            Trimmed(digest, t, c, d, s) && ReadableRoutes(d.routes)
  {
  }

  lemma CleanWorkerRouteTrim(digest: string -> string, t: Table, c: Cloud, s: string, mishaps: multiset<string>)
    ensures Trimmed(digest, t, c, WithoutWorkerRoute(c, RowId(t, s, KWorkerRoute)), s)
  {
  }

  lemma CleanWorkerTrim(digest: string -> string, t: Table, c: Cloud, s: string, mishaps: multiset<string>)
    requires Key(s, KWorker) in t
    ensures Trimmed(digest, t, c, WithoutScript(c, WorkerName(digest, s)), s)
  {
  }

  lemma CleanAppTrim(digest: string -> string, t: Table, c: Cloud, s: string, mishaps: multiset<string>)
    ensures Trimmed(digest, t, c, WithoutApp(c, RowId(t, s, KSpectrum)), s)
  {
  }

  lemma CleanRuleTrim(digest: string -> string, t: Table, a: Cloud, c: Cloud, s: string, id: Id)
    requires Trimmed(digest, t, a, c, s) && id in c.rules && c.rules[id].ref == RuleRef(s)
    ensures Trimmed(digest, t, a, WithoutRule(c, id), s)
  {
    hide RuleRef;
  }

  lemma CleanRecordTrim(digest: string -> string, t: Table, a: Cloud, c: Cloud, s: string, id: Id)
    requires Trimmed(digest, t, a, c, s) && id in c.dns && c.dns[id].comment == Mark(s)
    ensures Trimmed(digest, t, a, WithoutRecord(c, id), s)
  {
    hide Mark;
  }

  lemma LeastPriority(rest: set<Key>)
    requires rest != {}
    ensures exists k :: k in rest && forall j :: j in rest ==> Priority(k.kind) <= Priority(j.kind)
  {
    if k :| k in rest && Priority(k.kind) == 0 {
    } else if k :| k in rest && Priority(k.kind) == 1 {
    } else {
      var k :| k in rest;
    }
  }

  /** A worker_route row comes before the worker row. */
  lemma RouteRowFirst(rows: seq<Key>, t: Table, i: nat, s: string)
    requires Arranged(rows, t) && i < |rows| && rows[i].owner == s
    ensures rows[i].kind == KWorker && Key(s, KWorkerRoute) in t ==>
              exists j :: 0 <= j < i && rows[j] == Key(s, KWorkerRoute)
  {
    if rows[i].kind == KWorker && Key(s, KWorkerRoute) in t {
      assert Key(s, KWorkerRoute) in rows;
    }
  }

  lemma DependentsFirst(rows: seq<Key>, t: Table, i: nat, s: string)
    requires Arranged(rows, t) && i < |rows| && rows[i].owner == s
    ensures rows[i].kind == KWorker && Key(s, KWorkerRoute) in t ==>
              exists j :: 0 <= j < i && rows[j] == Key(s, KWorkerRoute)
    ensures rows[i].kind == KTunnel && Key(s, KPrivateRoute) in t ==>
              exists j :: 0 <= j < i && rows[j] == Key(s, KPrivateRoute)
  {
    RouteRowFirst(rows, t, i, s);
    if rows[i].kind == KTunnel && Key(s, KPrivateRoute) in t {
      assert Key(s, KPrivateRoute) in rows;
    }
  }

  lemma DroppedRowStrays(digest: string -> string, t0: Table, t: Table, c: Cloud, mishaps: multiset<string>, key: Key)
    requires StraysExplained(t, c.tunnels, mishaps) && key in t && key in t0 && t[key] == t0[key]
    requires Gone(digest, t0, c, key) && (key.kind == KTunnel ==> t[key].remote.Object?)
    ensures StraysExplained(t - {key}, c.tunnels, mishaps)
  {
    StraysKept(t, c.tunnels, t - {key}, c.tunnels, mishaps);
  }

  lemma CleanupFrame(sv: Services, digest: string -> string, t: Table, u: Table, a: Cloud, b: Cloud, s: string)
    requires Reconciled(sv, t, a, digest) && Trimmed(digest, t, a, b, s)
    requires forall k :: k in u ==> k in t && u[k] == t[k]
    requires forall k :: k in t && k.owner != s ==> k in u
    requires ReadableRoutes(a.routes)
    ensures Respects(s, digest, t, a, b) && OwnRows(s, t, u, a.nextId)
    ensures ReadableRoutes(b.routes) && (RoutesDisjoint(a.routes) ==> RoutesDisjoint(b.routes))
  {
    TrimmedRespects(sv, digest, t, a, b, s);
    hide Reconciled;
    hide Respects;
    hide RuleRef;
    hide Mark;
    hide DisjointBlocks;
    hide ValidPrefix;
  }

  /** After the sweep no CNAME of the service is left; modes without sweep never wrote one. */
  lemma NoCnames(sv: Services, t: Table, a: Cloud, b: Cloud, digest: string -> string, svc: Service)
    requires Reconciled(sv, t, b, digest) && svc.id in sv && sv[svc.id] == svc
    requires b == Swept(digest, t, a, svc)
    ensures forall d :: d in b.dns && b.dns[d].content.TunnelHost? ==> b.dns[d].comment != Mark(svc.id)
  {
    hide Mark;
    hide RouteRecords;
    hide WorkerRecords;
    hide WorkerRouteRecords;
    hide DnsUnique;
    hide RulesUnique;
  }

  lemma IdsNotZero(sv: Services, t: Table, c: Cloud, digest: string -> string)
    requires Reconciled(sv, t, c, digest)
    ensures 0 !in c.tunnels && 0 !in c.routes && 0 !in c.workerRoutes && 0 !in c.apps
  {
  }

  lemma RedirectRowGone(digest: string -> string, t: Table, c: Cloud, s: string)
    requires forall k :: k in t && k.owner == s ==> Gone(digest, t, c, k)
    ensures Key(s, KRedirect) in t ==> RefAbsent(c.rules, RuleRef(s))
  {
    assert Key(s, KRedirect) in t ==> Gone(digest, t, c, Key(s, KRedirect));
  }

  lemma AllStayGone(digest: string -> string, t: Table, a: Cloud, b: Cloud, s: string)
    requires Trimmed(digest, t, a, b, s) && forall k :: k in t && k.owner == s ==> Gone(digest, t, a, k)
    ensures forall k :: k in t && k.owner == s ==> Gone(digest, t, b, k)
  {
    forall k | k in t && k.owner == s ensures Gone(digest, t, b, k) {
      GoneStays(digest, t, a, b, s, k);
    }
  }

  /** Every row of s is dropped, and no other. */
  lemma AllDropped(t: Table, u: Table, rows: seq<Key>, s: string)
    requires Arranged(rows, t)
    requires forall k :: k in u ==> k in t && u[k] == t[k]
    requires forall k :: k in t && k.owner != s ==> k in u
    requires forall j :: 0 <= j < |rows| && rows[j].owner == s ==> rows[j] !in u
    ensures u == WithoutRows(t, s)
  {
    forall k | k in u ensures k.owner != s {
      assert k in rows;
    }
  }

  // ----- whole runs

  lemma ServicesNamed(sv: Services, t: Table, c: Cloud, digest: string -> string)
    requires Reconciled(sv, t, c, digest)
    ensures forall s :: s in sv ==> sv[s].id == s
  {
  }

  lemma UntouchedSelf(acting: set<string>, t: Table, c: Cloud)
    ensures Untouched(acting, t, c, c) && RowsOldOrNew(t, t, c.nextId) && OtherRows(acting, t, t)
  {
  }

  /** No acting service has evidence for a foreign object. */
  lemma NeverMarked(acting: set<string>, s: string)
    requires s in acting
    ensures forall x: Tunnel :: ForeignTunnel(acting, x) ==> x.name != TunnelName(s)
    ensures forall x: WorkerScript :: ForeignScript(acting, x) ==> Tag(s) !in x.tags
    ensures forall x: DnsRecord :: ForeignRecord(acting, x) ==> x.comment != Mark(s)
    ensures forall x: Rule :: ForeignRule(acting, x) ==> x.ref != RuleRef(s)
  {
    hide TunnelName;
    hide Mark;
    hide Tag;
    hide RuleRef;
  }

  /** An object older than the run that no row of an acting service named at its start is not the recorded object of
      any of them. */
  lemma NeverOwned(digest: string -> string, acting: set<string>, t0: Table, t: Table, n: Id, s: string)
    requires RowsOldOrNew(t0, t, n) && s in acting
    ensures forall id: Id, route :: id < n && Unnamed(acting, t0, KPrivateRoute, id) ==> !OwnsRoute(t, s, id, route)
    ensures forall id: Id, route ::
              id < n && Unnamed(acting, t0, KWorkerRoute, id) ==> !OwnsWorkerRoute(t, digest, s, id, route)
    ensures forall id: Id, app :: id < n && Unnamed(acting, t0, KSpectrum, id) ==> !OwnsApp(t, s, id, app)
  {
  }

  lemma UntouchedStep(digest: string -> string, acting: set<string>, t0: Table, c0: Cloud, t: Table, c: Cloud, d: Cloud,
                      s: string)
    requires Untouched(acting, t0, c0, c) && RowsOldOrNew(t0, t, c0.nextId) && IdsBelow(c0) && s in acting
    requires Respects(s, digest, t, c, d)
    ensures Untouched(acting, t0, c0, d)
  {
    hide TunnelName;
    hide Mark;
    hide Tag;
    hide RuleRef;
    hide WorkerName;
    hide OwnsRoute;
    hide OwnsWorkerRoute;
    hide OwnsApp;
    hide Unnamed;
    hide RowsOldOrNew;
    hide ForeignTunnel;
    hide ForeignScript;
    hide ForeignRecord;
    hide ForeignRule;
    NeverMarked(acting, s);
    NeverOwned(digest, acting, t0, t, c0.nextId, s);
  }

  lemma RowsStep(acting: set<string>, t0: Table, t: Table, u: Table, n: Id, m: Id, s: string)
    requires RowsOldOrNew(t0, t, n) && OwnRows(s, t, u, m) && n <= m && OtherRows(acting, t0, t) && s in acting
    ensures RowsOldOrNew(t0, u, n) && OtherRows(acting, t0, u)
  {
  }

  lemma DnsAlone(sv: Services, t: Table, c: Cloud, digest: string -> string)
    requires Reconciled(sv, t, c, digest)
    ensures DnsUnique(c.dns)
  {
  }

  /** A managed record that is still there still stands alone at its hostname. */
  lemma StandsAlone(a: map<Id, DnsRecord>, b: map<Id, DnsRecord>, record: DnsRecord, s: string)
    requires Stands(a, record, s) && record.comment == Mark(s) && DnsUnique(b)
    requires forall d :: d in a && a[d].comment == Mark(s) ==> d in b && b[d] == a[d]
    ensures Stands(b, record, s)
  {
    NamesInjective();
  }

  /** The marks of a service that does not act are foreign to those that do. */
  lemma MarksAlone(acting: set<string>, t: Table, a: Cloud, b: Cloud, s: string)
    requires Untouched(acting, t, a, b) && s !in acting
    ensures a.ruleset != 0 ==> b.ruleset == a.ruleset
    ensures forall id :: id in a.tunnels && a.tunnels[id].name == TunnelName(s) ==>
              id in b.tunnels && b.tunnels[id] == a.tunnels[id]
    ensures forall d :: d in a.dns && a.dns[d].comment == Mark(s) ==> d in b.dns && b.dns[d] == a.dns[d]
    ensures (forall r :: r in acting ==> RuleRef(r) != RuleRef(s)) ==>
              forall d :: d in a.rules && a.rules[d].ref == RuleRef(s) ==> d in b.rules && b.rules[d] == a.rules[d]
  {
    hide RuleRef;
    hide Mark;
    hide TunnelName;
    hide Tag;
    NamesInjective();
  }

  /** Tunnels named for s: the recorded one, if it exists, and one for each mishap at most. */
  lemma NamedBound(t: Table, tunnels: map<Id, Tunnel>, mishaps: multiset<string>)
    requires StraysExplained(t, tunnels, mishaps)
    ensures forall s :: |NamedTunnels(tunnels, s)| <= (if TunnelLive(t, tunnels, s) then 1 else 0) + mishaps[s]
  {
    hide TunnelName;
    forall s
      ensures |NamedTunnels(tunnels, s)| <= (if TunnelLive(t, tunnels, s) then 1 else 0) + mishaps[s]
    {
      var strays := Strays(t, tunnels, s);
      if TunnelLive(t, tunnels, s) {
        assert NamedTunnels(tunnels, s) <= strays + {t[Key(s, KTunnel)].remote.id};
        SubsetSize(NamedTunnels(tunnels, s), strays + {t[Key(s, KTunnel)].remote.id});
      } else {
        assert NamedTunnels(tunnels, s) <= strays;
        SubsetSize(NamedTunnels(tunnels, s), strays);
      }
    }
  }

  /** An account and a table without any mark of the fleet are a reconciled start. */
  lemma CleanStart(sv: Services, t: Table, c: Cloud, digest: string -> string)
    requires IdsBelow(c) && RecordsBelow(t, c.nextId) && Digests(digest) && (c.ruleset == 0 ==> c.rules == map[])
    requires (forall s :: s in sv ==> sv[s].id == s) && forall k :: k in t ==> k.kind.KAccess? && k.owner !in sv
    requires forall id, s :: id in c.tunnels ==> c.tunnels[id].name != TunnelName(s)
    requires forall d :: d in c.dns ==> !Managed(c.dns[d].comment)
    requires forall d, s :: d in c.rules ==> c.rules[d].ref != RuleRef(s)
    ensures Reconciled(sv, t, c, digest) && forall s :: Strays(t, c.tunnels, s) == {}
  {
    NamesInjective();
  }

  // ----- stray tunnels

  lemma StrayAfterCreate(t: Table, tunnels: map<Id, Tunnel>, mishaps: multiset<string>, s: string, id: Id)
    requires StraysExplained(t, tunnels, mishaps)
    ensures StraysExplained(t, tunnels[id := Tunnel(TunnelName(s), true, Unset)], mishaps + multiset{s})
  {
    NamesInjective();
    var after := tunnels[id := Tunnel(TunnelName(s), true, Unset)];
    forall r ensures |Strays(t, after, r)| <= (mishaps + multiset{s})[r] {
      if r == s {
        assert Strays(t, after, r) <= Strays(t, tunnels, r) + {id};
        SubsetSize(Strays(t, after, r), Strays(t, tunnels, r) + {id});
      } else {
        assert Strays(t, after, r) <= Strays(t, tunnels, r);
        SubsetSize(Strays(t, after, r), Strays(t, tunnels, r));
      }
    }
  }

  /** No tunnel becomes a stray: the created one is recorded, or gone again, or no other has changed its name. */
  lemma StraysKept(t: Table, tunnels: map<Id, Tunnel>, u: Table, after: map<Id, Tunnel>, mishaps: multiset<string>)
    requires StraysExplained(t, tunnels, mishaps)
    requires forall id, r :: id in after && after[id].name == TunnelName(r) ==>
               || (id in tunnels && tunnels[id].name == after[id].name)
               || (Key(r, KTunnel) in u && u[Key(r, KTunnel)].remote == Object(id))
    requires forall r :: Key(r, KTunnel) in t ==>
               Key(r, KTunnel) !in u || u[Key(r, KTunnel)].remote != t[Key(r, KTunnel)].remote ==>
               t[Key(r, KTunnel)].remote.Object? && t[Key(r, KTunnel)].remote.id !in after
    ensures StraysExplained(u, after, mishaps)
  {
    forall r ensures |Strays(u, after, r)| <= mishaps[r] {
      assert Strays(u, after, r) <= Strays(t, tunnels, r);
      SubsetSize(Strays(u, after, r), Strays(t, tunnels, r));
    }
  }

  /** The four ends of a create: recorded or not, undone or not. Only the unrecorded tunnel that stays
      needs a mishap. */
  lemma CreateAccounted(t: Table, tunnels: map<Id, Tunnel>, mishaps: multiset<string>, s: string, id: Id, row: Resource)
    requires StraysExplained(t, tunnels, mishaps)
    requires Key(s, KTunnel) !in t && id !in tunnels && row.remote == Object(id)
    ensures var u, after := t[Key(s, KTunnel) := row], tunnels[id := Tunnel(TunnelName(s), true, Unset)];
            && StraysExplained(u, after, mishaps)
            && StraysExplained(t, after - {id}, mishaps) && StraysExplained(u, after - {id}, mishaps)
            && StraysExplained(t, after, mishaps + multiset{s}) && StraysExplained(u, after, mishaps + multiset{s})
            && StraysExplained(t, after - {id}, mishaps + multiset{s})
            && StraysExplained(u, after - {id}, mishaps + multiset{s})
  {
    var u, after := t[Key(s, KTunnel) := row], tunnels[id := Tunnel(TunnelName(s), true, Unset)];
    NamesInjective();
    StrayAfterCreate(t, tunnels, mishaps, s, id);
    forall r
      ensures |Strays(u, after, r)| <= mishaps[r]
      ensures |Strays(t, after - {id}, r)| <= mishaps[r] && |Strays(u, after - {id}, r)| <= mishaps[r]
    {
      assert Strays(u, after, r) <= Strays(t, tunnels, r);
      SubsetSize(Strays(u, after, r), Strays(t, tunnels, r));
      assert Strays(t, after - {id}, r) <= Strays(t, tunnels, r);
      SubsetSize(Strays(t, after - {id}, r), Strays(t, tunnels, r));
      assert Strays(u, after - {id}, r) <= Strays(t, tunnels, r);
      SubsetSize(Strays(u, after - {id}, r), Strays(t, tunnels, r));
    }
  }

  /** The row of a service names an object. */
  lemma TunnelRow(sv: Services, t: Table, c: Cloud, digest: string -> string, s: string)
    requires Reconciled(sv, t, c, digest)
    ensures Key(s, KTunnel) in t ==> t[Key(s, KTunnel)].remote.Object?
  {
  }

  lemma TunnelCreatedFrame(s: string, digest: string -> string, t0: Table, c: Cloud, sv: Services, t: Table)
    requires Reconciled(sv, t, c, digest)
    ensures c.nextId > 0 && c.nextId !in c.tunnels
    ensures Respects(s, digest, t0, c, WithTunnel(c, TunnelName(s)))
  {
    hide Respects;
    RespectsBy(s, digest, t0, c, WithTunnel(c, TunnelName(s)));
  }

  lemma ConfigFrame(s: string, digest: string -> string, t0: Table, t: Table, c: Cloud, id: Id, config: TunnelConfig,
                    mishaps: multiset<string>)
    requires TunnelHeld(t, c.tunnels, s, id)
    ensures Respects(s, digest, t0, c, WithConfig(c, id, config))
    ensures StraysExplained(t, c.tunnels, mishaps) ==> StraysExplained(t, WithConfig(c, id, config).tunnels, mishaps)
  {
    hide Respects;
    RespectsBy(s, digest, t0, c, WithConfig(c, id, config));
    if StraysExplained(t, c.tunnels, mishaps) {
      StraysKept(t, c.tunnels, t, WithConfig(c, id, config).tunnels, mishaps);
    }
  }

  lemma CanHoldIff(dns: map<Id, DnsRecord>, record: DnsRecord, s: string)
    ensures CanHold(dns, record, s) <==> DnsFree(dns, record.name, s) && DnsTypeFits(dns, record.name, record.kind)
  {
  }

  /** What a publication leaves behind is again publishable. */
  lemma PublicTunnelAgain(zone: Zone, t: Table, c: Cloud, svc: Service, id: Id)
    requires zone.hasAccount && HostsAccepted(zone, svc) && svc.protocol == "tcp"
    requires TunnelProtocolAllowed(Protocol(svc))
    requires TunnelStands(t, c, svc, id) && Stands(c.dns, CnameRecord(svc, id), svc.id)
    ensures TunnelCan(zone, t, c, svc)
  {
  }

  /** What holds of a hostname is not affected by a write to another one. */
  lemma HeldElsewhere(a: map<Id, DnsRecord>, b: map<Id, DnsRecord>, written: string, record: DnsRecord, s: string)
    requires SameElsewhere(a, b, written) && record.name != written
    ensures CanHold(a, record, s) <==> CanHold(b, record, s)
    ensures Stands(a, record, s) <==> Stands(b, record, s)
  {
  }

  lemma RedirectDnsAgain(dns: map<Id, DnsRecord>, svc: Service)
    requires RedirectDnsDone(dns, svc)
    ensures RedirectDnsCan(dns, svc)
  {
  }

  lemma RulesKnown(sv: Services, t: Table, c: Cloud, digest: string -> string, svc: Service)
    requires Reconciled(sv, t, c, digest)
    ensures c.nextId > 0 && c.nextId !in c.rules && 0 !in c.rules && (c.ruleset == 0 ==> c.rules == map[])
    ensures forall d, e :: d in c.rules && e in c.rules && c.rules[d].ref == RedirectRule(svc).ref ==>
              c.rules[e].ref == RedirectRule(svc).ref ==> d == e
    ensures RedirectRule(svc).ref == RuleRef(svc.id)
  {
  }

  lemma RulesetFrame(s: string, digest: string -> string, t: Table, c: Cloud, rule: Rule)
    requires c.ruleset == 0 && c.rules == map[] && rule.ref == RuleRef(s)
    ensures Respects(s, digest, t, c, WithRuleset(c, rule))
  {
    hide Respects;
    RespectsBy(s, digest, t, c, WithRuleset(c, rule));
  }

  lemma RuleFrame(s: string, digest: string -> string, t: Table, c: Cloud, rule: Rule)
    requires c.nextId !in c.rules && rule.ref == RuleRef(s)
    ensures Respects(s, digest, t, c, WithRule(c, rule))
  {
    hide Respects;
    RespectsBy(s, digest, t, c, WithRule(c, rule));
  }

  lemma RulePatchFrame(s: string, digest: string -> string, t: Table, c: Cloud, id: Id, rule: Rule)
    requires id in c.rules && c.rules[id].ref == RuleRef(s) && rule.ref == RuleRef(s)
    ensures Respects(s, digest, t, c, WithRulePatch(c, id, rule))
    ensures c.rules[id] == rule ==> WithRulePatch(c, id, rule) == c
  {
    hide Respects;
    RespectsBy(s, digest, t, c, WithRulePatch(c, id, rule));
    if c.rules[id] == rule {
      assert c.rules[id := rule] == c.rules;
    }
  }

  lemma SpectrumRow(sv: Services, t: Table, c: Cloud, digest: string -> string, s: string)
    requires Reconciled(sv, t, c, digest)
    ensures c.nextId > 0 && 0 !in c.apps && c.nextId !in c.apps
    ensures Key(s, KSpectrum) in t ==>
              var r := t[Key(s, KSpectrum)];
              r.remote.Object? && r.remote.id > 0 && r.hostname.Host? &&
              (r.remote.id in c.apps ==> c.apps[r.remote.id].name == r.hostname.name)
  {
  }

  lemma AppPutFrame(s: string, digest: string -> string, t: Table, c: Cloud, id: Id, app: SpectrumApp)
    requires id in c.apps && OwnsApp(t, s, id, c.apps[id]) && app.name == c.apps[id].name
    ensures Respects(s, digest, t, c, WithAppPut(c, id, app))
    ensures c.apps[id] == app ==> WithAppPut(c, id, app) == c
  {
    hide Respects;
    RespectsBy(s, digest, t, c, WithAppPut(c, id, app));
    if c.apps[id] == app {
      assert c.apps[id := app] == c.apps;
    }
  }

  lemma KeptSurvives(apps: map<Id, SpectrumApp>, id: Id, app: SpectrumApp)
    requires id in apps && app.settings == Kept(apps[id].settings)
    ensures SettingsKept(id, apps, apps) && SettingsKept(id, apps, apps[id := app])
    ensures SettingsFilled(apps[id].settings, app.settings)
  {
  }

  lemma AppFoundAgain(t: Table, c: Cloud, svc: Service, id: Id)
    requires AppsFit(t, c, svc) && Key(svc.id, KSpectrum) in t
    requires t[Key(svc.id, KSpectrum)] == Resource(Object(id), Host(svc.entry))
    requires id in c.apps
    ensures AppStands(t, WithAppPut(c, id, AppOf(svc, Kept(c.apps[id].settings))), svc, id)
  {
  }

  lemma AppsFitAgain(t: Table, c: Cloud, svc: Service, id: Id)
    requires AppStands(t, c, svc, id)
    ensures AppsFit(t, c, svc)
  {
  }

  lemma AppEstablished(t: Table, c: Cloud, svc: Service)
    requires AppsFit(t, c, svc) && Key(svc.id, KSpectrum) !in t && 0 !in c.apps && c.nextId !in c.apps
    ensures var app := AppOf(svc, DEFAULT_SETTINGS);
            && app.name == svc.entry && AppClear(c.apps, 0, app.name)
            && app.settings == EdgeSettings(false, "off", "off", None, None, "")
            && AppStands(t[Key(svc.id, KSpectrum) := Resource(Object(c.nextId), Host(svc.entry))],
                         WithApp(c, app), svc, c.nextId)
  {
  }

  /** Creating the application, and undoing it. */
  lemma AppFrame(s: string, digest: string -> string, t: Table, c: Cloud, app: SpectrumApp)
    requires c.nextId !in c.apps && AppClear(c.apps, 0, app.name) && 0 !in c.apps
    ensures Respects(s, digest, t, c, WithApp(c, app))
    ensures Respects(s, digest, t, c, WithoutApp(WithApp(c, app), c.nextId))
  {
    hide Respects;
    hide NamesKept;
    hide AppClear;
    AppNamesKept(c, app);
    RespectsBy(s, digest, t, c, WithApp(c, app));
    RespectsBy(s, digest, t, c, WithoutApp(WithApp(c, app), c.nextId));
  }

  lemma AppNamesKept(c: Cloud, app: SpectrumApp)
    requires c.nextId !in c.apps && AppClear(c.apps, 0, app.name) && 0 !in c.apps
    ensures NamesKept(c, WithApp(c, app))
    ensures WithoutApp(WithApp(c, app), c.nextId) == c.(nextId := c.nextId + 1)
  {
    PutThenDrop(c.apps, c.nextId, app);
  }

  lemma WorkerRow(sv: Services, t: Table, c: Cloud, digest: string -> string, s: string)
    requires Reconciled(sv, t, c, digest)
    ensures c.nextId > 0 && 0 !in c.workerRoutes && c.nextId !in c.workerRoutes
    ensures Key(s, KWorker) in t ==> t[Key(s, KWorker)].remote == Script(WorkerName(digest, s))
    ensures Key(s, KWorkerRoute) in t ==>
              Key(s, KWorker) in t && t[Key(s, KWorkerRoute)].remote.Object? && t[Key(s, KWorkerRoute)].remote.id > 0
  {
  }

  lemma WorkerFitsAgain(digest: string -> string, t: Table, c: Cloud, svc: Service)
    requires WorkerStands(digest, t, c, svc)
    ensures WorkerFits(digest, t, c, svc) && WorkerDnsCan(c.dns, svc)
  {
    hide RouteCovers;
  }

  lemma WorkerStandsParts(digest: string -> string, t: Table, c: Cloud, svc: Service)
    ensures WorkerStands(digest, t, c, svc) ==>
              Stands(c.dns, OriginRecord(svc), svc.id) && Key(svc.id, KWorkerRoute) in t
  {
  }

  lemma SameRow(t: Table, key: Key, r: Resource)
    ensures key in t && t[key] == r ==> t[key := r] == t
  {
  }

  lemma ScriptFreeMoved(digest: string -> string, c: Cloud, d: Cloud, svc: Service)
    requires c.scripts == d.scripts
    ensures ScriptFree(digest, c, svc.id) <==> ScriptFree(digest, d, svc.id)
    ensures ScriptStands(digest, c, svc) <==> ScriptStands(digest, d, svc)
  {
  }

  lemma WorkerRouteFitsMoved(digest: string -> string, t: Table, u: Table, c: Cloud, svc: Service)
    requires WorkerRouteRowSame(t, u, svc.id)
    ensures WorkerRouteFits(digest, t, c.workerRoutes, svc) <==> WorkerRouteFits(digest, u, c.workerRoutes, svc)
  {
    hide WorkerRouteClear;
  }

  /** Uploading over our own script. */
  lemma ScriptFrame(digest: string -> string, t: Table, c: Cloud, s: string, script: WorkerScript)
    requires ScriptFree(digest, c, s) && Tag(s) in script.tags
    ensures Respects(s, digest, t, c, WithScript(c, WorkerName(digest, s), script))
  {
    hide Respects;
    RespectsBy(s, digest, t, c, WithScript(c, WorkerName(digest, s), script));
    hide WorkerName;
  }

  lemma ScriptSame(c: Cloud, name: string, script: WorkerScript)
    ensures name in c.scripts && c.scripts[name] == script ==> WithScript(c, name, script) == c
  {
    if name in c.scripts && c.scripts[name] == script {
      assert c.scripts[name := script] == c.scripts;
    }
  }

  lemma ScriptTwice(c: Cloud, name: string, a: WorkerScript, b: WorkerScript)
    ensures WithScript(WithScript(c, name, a), name, b) == WithScript(c, name, b)
  {
    assert c.scripts[name := a][name := b] == c.scripts[name := b];
  }

  lemma ScriptUndone(digest: string -> string, t: Table, c: Cloud, s: string, script: WorkerScript)
    requires ScriptFree(digest, c, s)
    ensures var name := WorkerName(digest, s);
            Respects(s, digest, t, c, WithoutScript(WithScript(c, name, script), name))
  {
    hide Respects;
    RespectsBy(s, digest, t, c, WithoutScript(WithScript(c, WorkerName(digest, s), script), WorkerName(digest, s)));
    hide WorkerName;
  }

  /** Creating the route, and undoing it. */
  lemma WorkerRouteFrame(s: string, digest: string -> string, t: Table, c: Cloud, route: WorkerRoute)
    requires c.nextId !in c.workerRoutes && route.script == WorkerName(digest, s)
    ensures Respects(s, digest, t, c, WithWorkerRoute(c, route))
    ensures Respects(s, digest, t, c, WithoutWorkerRoute(WithWorkerRoute(c, route), c.nextId))
  {
    hide Respects;
    RespectsBy(s, digest, t, c, WithWorkerRoute(c, route));
    RespectsBy(s, digest, t, c, WithoutWorkerRoute(WithWorkerRoute(c, route), c.nextId));
    PutThenDrop(c.workerRoutes, c.nextId, route);
  }

  lemma WorkerRouteFound(digest: string -> string, t: Table, c: Cloud, svc: Service)
    requires Key(svc.id, KWorkerRoute) !in t && 0 !in c.workerRoutes && c.nextId !in c.workerRoutes && c.nextId > 0
    requires WorkerRouteFits(digest, t, c.workerRoutes, svc)
    ensures var after := c.workerRoutes[c.nextId := WorkerRoute(Pattern(svc), WorkerName(digest, svc.id))];
            WorkerRouteFits(digest, t[Key(svc.id, KWorkerRoute) := Resource(Object(c.nextId), Host(svc.entry))],
                                after, svc)
  {
    hide RouteCovers;
    hide WorkerName;
  }

  lemma RespectsGrows(s: string, digest: string -> string, t: Table, a: Cloud, b: Cloud)
    requires Respects(s, digest, t, a, b)
    ensures a.nextId <= b.nextId
  {
  }

  lemma StandsHolds(dns: map<Id, DnsRecord>, record: DnsRecord, s: string)
    requires Stands(dns, record, s)
    ensures CanHold(dns, record, s)
  {
  }

  lemma RouteRow(sv: Services, t: Table, c: Cloud, digest: string -> string, s: string)
    requires Reconciled(sv, t, c, digest)
    ensures Key(s, KPrivateRoute) in t ==>
              Key(s, KTunnel) in t && t[Key(s, KPrivateRoute)].remote.Object? && t[Key(s, KPrivateRoute)].remote.id > 0
  {
  }

  lemma DisjointSymmetric(p: Prefix, q: Prefix)
    requires ValidPrefix(p) && ValidPrefix(q) && DisjointBlocks(p, q)
    ensures DisjointBlocks(q, p)
  {
  }

  /** A route that passed the overlap check claims no address of another route. */
  lemma ClearRouteKeepsDisjoint(routes: map<Id, PrivateRoute>, id: Id, route: PrivateRoute)
    requires ReadableRoutes(routes) && RoutesDisjoint(routes) && id !in routes
    requires route.network.Parsed? && ValidPrefix(route.network.prefix)
    requires RouteClear(routes, 0, route.network.prefix) && 0 !in routes
    ensures ReadableRoutes(routes[id := route]) && RoutesDisjoint(routes[id := route])
  {
    forall other | other in routes
      ensures DisjointBlocks(route.network.prefix, routes[other].network.prefix)
      ensures DisjointBlocks(routes[other].network.prefix, route.network.prefix)
    {
      OverlapsIffMeet(route.network.prefix, routes[other].network.prefix);
      DisjointSymmetric(route.network.prefix, routes[other].network.prefix);
    }
  }

  lemma PrefixBits(p: Prefix)
    requires ValidPrefix(p)
    ensures p.bits <= p.addr.width
  {
  }

  lemma RouteFrame(sv: Services, t: Table, c: Cloud, digest: string -> string, s: string, t0: Table,
                   route: PrivateRoute)
    requires Reconciled(sv, t, c, digest) && route.network.Parsed? && route.comment == TunnelName(s)
    ensures c.nextId != 0 && c.nextId !in c.routes && 0 !in c.routes
    ensures Respects(s, digest, t0, c, WithRoute(c, route))
  {
    hide Respects;
    hide Reconciled;
    FreshRoute(sv, t, c, digest);
    RespectsBy(s, digest, t0, c, WithRoute(c, route));
    hide OwnsRoute;
    hide OwnsWorkerRoute;
    hide OwnsApp;
    hide TunnelName;
    hide Mark;
    hide Tag;
    hide RuleRef;
  }

  lemma FreshRoute(sv: Services, t: Table, c: Cloud, digest: string -> string)
    requires Reconciled(sv, t, c, digest)
    ensures c.nextId != 0 && c.nextId !in c.routes && 0 !in c.routes
  {
    IdsOf(sv, t, c, digest);
    hide Reconciled;
  }

  /** Creating a route and deleting it leaves only the id counter changed. */
  lemma RouteUndone(s: string, digest: string -> string, t0: Table, c: Cloud, route: PrivateRoute)
    requires c.nextId !in c.routes
    ensures WithoutRoute(WithRoute(c, route), c.nextId) == c.(nextId := c.nextId + 1)
    ensures Respects(s, digest, t0, c, WithoutRoute(WithRoute(c, route), c.nextId))
  {
    hide Respects;
    RespectsBy(s, digest, t0, c, WithoutRoute(WithRoute(c, route), c.nextId));
    PutThenDrop(c.routes, c.nextId, route);
  }

  /** A route that passed the check is one the next check finds. */
  lemma RouteFound(t: Table, routes: map<Id, PrivateRoute>, svc: Service, tunnel: Id, net: Prefix, id: Id)
    requires net.bits <= net.addr.width && ReadableRoutes(routes) && id != 0 && 0 !in routes && id !in routes
    requires Key(svc.id, KPrivateRoute) !in t && RouteFits(t, routes, svc, tunnel, net) && ValidPrefix(net)
    ensures var after := routes[id := RouteOf(svc, net, tunnel)];
            && ReadableRoutes(after) && (RoutesDisjoint(routes) ==> RoutesDisjoint(after))
            && RouteFits(t[Key(svc.id, KPrivateRoute) := Resource(Object(id), Network(net))], after, svc, tunnel, net)
  {
    hide Overlaps;
    hide ValidPrefix;
    hide DisjointBlocks;
    if RoutesDisjoint(routes) {
      ClearRouteKeepsDisjoint(routes, id, RouteOf(svc, net, tunnel));
    }
  }

  /** Creating a tunnel and deleting it leaves only the id counter changed. */
  lemma UndoneFrame(s: string, digest: string -> string, t0: Table, c: Cloud, id: Id)
    requires id == c.nextId && id !in c.tunnels
    ensures Respects(s, digest, t0, c, WithoutTunnel(WithTunnel(c, TunnelName(s)), id))
  {
    hide Respects;
    RespectsBy(s, digest, t0, c, WithoutTunnel(WithTunnel(c, TunnelName(s)), id));
  }

  lemma StraysOtherRow(t: Table, u: Table, key: Key, tunnels: map<Id, Tunnel>, mishaps: multiset<string>)
    requires StraysExplained(t, tunnels, mishaps) && OneRow(t, u, key) && key.kind != KTunnel
    ensures StraysExplained(u, tunnels, mishaps)
  {
    forall s ensures |Strays(u, tunnels, s)| <= mishaps[s] {
      assert Strays(u, tunnels, s) == Strays(t, tunnels, s);
    }
  }

  // ----- sets and maps

  lemma PutThenDrop<K, V>(m: map<K, V>, k: K, v: V)
    requires k !in m
    ensures m[k := v] - {k} == m
  {
    assert forall j :: j in m[k := v] - {k} <==> j in m;
  }
}
