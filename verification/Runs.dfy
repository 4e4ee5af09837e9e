/** What whole runs of the publisher add to the account, and what they leave to the services that do not act. */
module Runs {
  import opened Basics
  import opened Cidr
  import opened Account
  import opened Contracts
  import opened Steps
  import opened Plans

  // ----- what is added

  lemma AddedSelf(acting: set<string>, c: Cloud)
    ensures Added(acting, c, c)
  {
  }

  /** An acting service has evidence for what it makes. */
  lemma MadeIsMarked(acting: set<string>, s: string)
    requires s in acting
    ensures forall x: Tunnel :: x.name == TunnelName(s) ==> !ForeignTunnel(acting, x)
    ensures forall x: WorkerScript :: Tag(s) in x.tags ==> !ForeignScript(acting, x)
    ensures forall x: DnsRecord :: x.comment == Mark(s) ==> !ForeignRecord(acting, x)
    ensures forall x: Rule :: x.ref == RuleRef(s) ==> !ForeignRule(acting, x)
  {
    hide TunnelName;
    hide Mark;
    hide Tag;
    hide RuleRef;
  }

  lemma AddedStep(digest: string -> string, acting: set<string>, t: Table, a: Cloud, c: Cloud, d: Cloud, s: string)
    requires Added(acting, a, c) && Respects(s, digest, t, c, d) && s in acting && a.nextId <= c.nextId
    ensures Added(acting, a, d)
  {
    hide TunnelName;
    hide Mark;
    hide Tag;
    hide RuleRef;
    hide WorkerName;
    hide Spares;
    hide NamesKept;
    hide ForeignTunnel;
    hide ForeignScript;
    hide ForeignRecord;
    hide ForeignRule;
    MadeIsMarked(acting, s);
    NamesKeptTransitive(a, c, d);
  }

  // ----- what stands

  /** A record of a service that does not act is an old one. */
  lemma RecordsAlone(acting: set<string>, a: Cloud, b: Cloud, s: string)
    requires Added(acting, a, b) && s !in acting
    ensures forall d :: d in b.dns && b.dns[d].comment == Mark(s) ==> d in a.dns && a.dns[d] == b.dns[d]
  {
    hide Mark;
    hide TunnelName;
    hide Tag;
    hide RuleRef;
    NamesInjective();
  }

  /** A route that is recorded and exists carries the name of its service. */
  lemma RouteAlone(acting: set<string>, t: Table, routes: map<Id, PrivateRoute>, svc: Service, tunnel: Id, net: Prefix)
    requires RouteRecords(t, routes) && svc.id !in acting
    requires Key(svc.id, KPrivateRoute) in t && RowId(t, svc.id, KPrivateRoute) in routes
    requires routes[RowId(t, svc.id, KPrivateRoute)] == RouteOf(svc, net, tunnel)
    ensures Unnamed(acting, t, KPrivateRoute, RowId(t, svc.id, KPrivateRoute))
  {
    hide TunnelName;
    NamesInjective();
  }

  /** Routes that others add collide with none. */
  lemma RouteStillFits(acting: set<string>, t0: Table, t: Table, c0: Cloud, c: Cloud, svc: Service, tunnel: Id,
                       net: Prefix)
    requires Untouched(acting, t0, c0, c) && Added(acting, c0, c) && OtherRows(acting, t0, t) && svc.id !in acting
    requires RouteRecords(t0, c0.routes) && ValidPrefix(net)
    requires ReadableRoutes(c0.routes) && ReadableRoutes(c.routes) && RoutesDisjoint(c.routes)
    requires Key(svc.id, KPrivateRoute) in t0 && net.bits <= net.addr.width
    requires RouteFits(t0, c0.routes, svc, tunnel, net)
    ensures Key(svc.id, KPrivateRoute) in t && RouteFits(t, c.routes, svc, tunnel, net)
  {
    hide TunnelName;
    hide Overlaps;
    hide DisjointBlocks;
    hide NamesKept;
    hide ForeignTunnel;
    hide ForeignScript;
    hide ForeignRecord;
    hide ForeignRule;
    hide RouteRecords;
    hide Unnamed;
    var own := RowId(t0, svc.id, KPrivateRoute);
    RouteAlone(acting, t0, c0.routes, svc, tunnel, net);
    forall id | id in c.routes && id != own
      ensures c.routes[id].network.Parsed? && !Overlaps(net, c.routes[id].network.prefix)
    {
      assert c.routes[id].network.Parsed?;
      OverlapsIffMeet(net, c.routes[id].network.prefix);
    }
  }

  lemma TunnelStillStands(acting: set<string>, t0: Table, t: Table, c0: Cloud, c: Cloud, svc: Service, id: Id)
    requires Untouched(acting, t0, c0, c) && OtherRows(acting, t0, t) && svc.id !in acting
    requires TunnelStands(t0, c0, svc, id)
    ensures TunnelStands(t, c, svc, id)
  {
    hide Untouched;
    hide TunnelName;
    MarksAlone(acting, t0, c0, c, svc.id);
  }

  /** No application takes the hostname of another. */
  lemma AppStillStands(acting: set<string>, t0: Table, t: Table, c0: Cloud, c: Cloud, svc: Service, id: Id)
    requires Untouched(acting, t0, c0, c) && Added(acting, c0, c) && OtherRows(acting, t0, t) && svc.id !in acting
    requires IdsBelow(c0) && AppStands(t0, c0, svc, id) && Unnamed(acting, t0, KSpectrum, id)
    ensures AppStands(t, c, svc, id)
  {
    hide Unnamed;
    hide ForeignTunnel;
    hide ForeignScript;
    hide ForeignRecord;
    hide ForeignRule;
    hide Kept;
    assert AppsBelow(c0);
  }

  ghost predicate Ran(acting: set<string>, t0: Table, t: Table, c0: Cloud, c: Cloud) {
    && Untouched(acting, t0, c0, c) && Added(acting, c0, c) && OtherRows(acting, t0, t)
    && RouteRecords(t0, c0.routes) && IdsBelow(c0) && DnsUnique(c.dns)
    && ReadableRoutes(c0.routes) && ReadableRoutes(c.routes) && (RoutesDisjoint(c0.routes) ==> RoutesDisjoint(c.routes))
  }

  lemma RecordStillStands(acting: set<string>, t0: Table, t: Table, c0: Cloud, c: Cloud, record: DnsRecord, s: string)
    requires Ran(acting, t0, t, c0, c) && s !in acting && record.comment == Mark(s) && Stands(c0.dns, record, s)
    ensures Stands(c.dns, record, s)
  {
    hide Untouched;
    hide Added;
    hide RouteRecords;
    hide IdsBelow;
    hide RoutesDisjoint;
    hide ReadableRoutes;
    hide Mark;
    hide Stands;
    hide DnsUnique;
    MarksAlone(acting, t0, c0, c, s);
    StandsAlone(c0.dns, c.dns, record, s);
  }

  lemma RedirectStillStands(acting: set<string>, t0: Table, t: Table, c0: Cloud, c: Cloud, svc: Service, x: SyncResult)
    requires Ran(acting, t0, t, c0, c) && svc.id !in acting && RedirectDone(t0, c0, svc, x)
    requires forall s :: s in acting ==> RuleRef(s) != RuleRef(svc.id)
    ensures RedirectDone(t, c, svc, x)
  {
    hide Untouched;
    hide Added;
    hide RouteRecords;
    hide IdsBelow;
    hide RoutesDisjoint;
    hide ReadableRoutes;
    hide Mark;
    hide Stands;
    hide DnsUnique;
    hide RuleRef;
    MarksAlone(acting, t0, c0, c, svc.id);
    if svc.manageDns {
      RecordStillStands(acting, t0, t, c0, c, EntryAddress(svc), svc.id);
      if svc.origin != "" {
        RecordStillStands(acting, t0, t, c0, c, OriginAddress(svc), svc.id);
      }
    }
  }

  /** What a service has published stands while others act. */
  lemma BystanderStands(digest: string -> string, acting: set<string>, t0: Table, t: Table, c0: Cloud, c: Cloud,
                        svc: Service, x: SyncResult)
    requires Ran(acting, t0, t, c0, c) && ServiceValid(svc) && Bystander(acting, t0, c0, svc)
    requires Published(digest, t0, c0, svc, x)
    ensures Published(digest, t, c, svc, x)
  {
    hide Untouched;
    hide Added;
    hide RouteRecords;
    hide IdsBelow;
    hide DnsUnique;
    hide RoutesDisjoint;
    hide ReadableRoutes;
    hide Mark;
    hide RuleRef;
    hide TunnelName;
    hide Stands;
    hide RouteFits;
    hide TunnelStands;
    hide AppStands;
    hide RedirectDone;
    hide Unnamed;
    hide ValidPrefix;
    if svc.mode == "warp" {
      NetworkValid(svc);
      TunnelStillStands(acting, t0, t, c0, c, svc, x.resource.id);
      RouteStillFits(acting, t0, t, c0, c, svc, x.resource.id, NetworkOf(svc).value);
    } else if svc.mode == "tunnel" {
      TunnelStillStands(acting, t0, t, c0, c, svc, x.resource.id);
      RecordStillStands(acting, t0, t, c0, c, CnameRecord(svc, x.resource.id), svc.id);
    } else if svc.mode == "redirect" {
      RedirectStillStands(acting, t0, t, c0, c, svc, x);
    } else if svc.mode == "spectrum" {
      AppRowNames(t0, c0, svc, x.resource.id);
      AppStillStands(acting, t0, t, c0, c, svc, x.resource.id);
    } else {
      RecordStillStands(acting, t0, t, c0, c, DirectRecord(svc), svc.id);
    }
  }

  lemma AppRowNames(t: Table, c: Cloud, svc: Service, id: Id)
    requires AppStands(t, c, svc, id)
    ensures RowId(t, svc.id, KSpectrum) == id
  {
  }

  // ----- records and rows

  /** A record with the mark of s is one that a cleanup of s sweeps, and a row of s shows that there is something to
      clean: s cannot be deleted. */
  ghost predicate AccountedFor(sv: map<string, Service>, t: Table, c: Cloud, s: string) {
    Marked(c.dns, s) ==> s in sv && SweepsDns(sv[s]) && !Unrowed(t, s)
  }

  lemma UpdateAccounts(sv: map<string, Service>, t: Table, c: Cloud, svc: Service)
    requires Unrowed(t, svc.id) || (svc.id in sv && GuardedFieldsEqual(sv[svc.id], svc))
    ensures forall s :: AccountedFor(sv, t, c, s) ==> AccountedFor(sv[svc.id := svc], t, c, s)
  {
    hide Marked;
    hide Unrowed;
  }

  lemma DeleteAccounts(sv: map<string, Service>, t: Table, c: Cloud, s: string)
    requires Unrowed(t, s)
    ensures forall r :: AccountedFor(sv, t, c, r) ==> AccountedFor(sv - {s}, t, c, r)
  {
    hide Marked;
    hide Unrowed;
  }

  lemma ServeAccounts(digest: string -> string, sv: map<string, Service>, t: Table, u: Table, c: Cloud, d: Cloud, n: Id,
                      r: string)
    requires Respects(r, digest, t, c, d) && OwnRows(r, t, u, n) && r in sv && sv[r].id == r
    requires RowsFirst(sv[r].mode) && Accounted(sv[r], t, c) ==> Accounted(sv[r], u, d)
    ensures forall s :: (s in sv ==> RowsFirst(sv[s].mode)) ==> AccountedFor(sv, t, c, s) ==> AccountedFor(sv, u, d, s)
  {
    hide Spares;
    hide TunnelsMade;
    hide RoutesMade;
    hide ScriptsMade;
    hide WorkerRoutesMade;
    hide RulesMade;
    hide NamesKept;
    hide Mark;
    hide SweepsDns;
    hide RowsFirst;
    NamesInjective();
    forall s | (s in sv ==> RowsFirst(sv[s].mode)) && AccountedFor(sv, t, c, s) ensures AccountedFor(sv, u, d, s) {
      if s != r && Marked(d.dns, s) {
        var e :| e in d.dns && d.dns[e].comment == Mark(s);
        assert e in c.dns && c.dns[e] == d.dns[e];
        var k :| k in t && k.owner == s;
        assert k in u;
      }
    }
  }

  lemma RowsKnown(sv: map<string, Service>, t: Table, c: Cloud, digest: string -> string)
    requires Reconciled(sv, t, c, digest)
    ensures RouteRecords(t, c.routes)
  {
  }
}
