/** When a publication that has gone wrong can be made good: a cleanup and then a publication. */
module Recovery {
  import opened Basics
  import opened Cidr
  import opened Account
  import opened Pagination
  import opened Contracts
  import opened Steps
  import opened Plans

  /** Only the service itself has records at the hostname. */
  ghost predicate NoForeign(dns: map<Id, DnsRecord>, name: string, s: string) {
    forall d :: d in dns && dns[d].name == name ==> dns[d].comment == Mark(s)
  }

  ghost predicate RedirectRecoverable(zone: Zone, c: Cloud, svc: Service) {
    && HostsAccepted(zone, svc) && Mapped(svc) && RuleBuilt(svc)
    && (svc.manageDns ==> NoForeign(c.dns, svc.entry, svc.id))
    && (svc.manageDns && svc.origin != "" ==> NoForeign(c.dns, svc.origin, svc.id))
  }

  ghost predicate WarpRecoverable(zone: Zone, t: Table, c: Cloud, svc: Service)
    requires TargetsValid(svc) && ReadableRoutes(c.routes)
  {
    && zone.hasAccount && NetworkOf(svc).Some?
    && var net := NetworkOf(svc).value;
       net.bits <= net.addr.width && RouteClear(c.routes, RowId(t, svc.id, KPrivateRoute), net)
  }

  ghost predicate TunnelRecoverable(zone: Zone, c: Cloud, svc: Service) {
    && HostsAccepted(zone, svc) && zone.hasAccount && svc.protocol == "tcp" && TunnelProtocolAllowed(Protocol(svc))
    && NoForeign(c.dns, svc.entry, svc.id)
  }

  ghost predicate DirectRecoverable(zone: Zone, c: Cloud, svc: Service) {
    && HostsAccepted(zone, svc) && Mapped(svc) && (svc.mode == "proxy" ==> ProxyPortAllowed(svc.scheme, svc.publicPort))
    && NoForeign(c.dns, svc.entry, svc.id)
  }

  ghost predicate SpectrumRecoverable(zone: Zone, t: Table, c: Cloud, svc: Service) {
    && HostsAccepted(zone, svc) && Mapped(svc) && 1 <= svc.edgePort <= 65535
    && AppClear(c.apps, RowId(t, svc.id, KSpectrum), svc.entry) && forall d :: d in c.dns ==> c.dns[d].name != svc.entry
  }

  ghost predicate WorkersRecoverable(zone: Zone, digest: string -> string, t: Table, c: Cloud, svc: Service) {
    && HostsAccepted(zone, svc) && Mapped(svc)
    && zone.hasAccount && svc.protocol == "tcp" && HostInZone(svc.origin, zone.name) && svc.origin != svc.entry
    && NoForeign(c.dns, svc.entry, svc.id) && NoForeign(c.dns, svc.origin, svc.id)
    && (WorkerName(digest, svc.id) in c.scripts ==> Key(svc.id, KWorker) in t)
    && WorkerRouteClear(c.workerRoutes, RowId(t, svc.id, KWorkerRoute), svc)
  }

  /** What stands in the way of a service, once what it owns is cleaned, is only what is not its own, or what no row
      names: seen in the account before the cleanup. */
  ghost predicate Recoverable(zone: Zone, digest: string -> string, t: Table, c: Cloud, svc: Service)
    requires ServiceValid(svc) && ReadableRoutes(c.routes)
  {
    ZoneMatches(zone) &&
    if svc.mode == "warp" then WarpRecoverable(zone, t, c, svc)
    else if svc.mode == "tunnel" then TunnelRecoverable(zone, c, svc)
    else if svc.mode == "redirect" then RedirectRecoverable(zone, c, svc)
    else if svc.mode == "dns" || svc.mode == "proxy" then DirectRecoverable(zone, c, svc)
    else if svc.mode == "spectrum" then SpectrumRecoverable(zone, t, c, svc)
    else svc.mode == "workers" && WorkersRecoverable(zone, digest, t, c, svc)
  }

  /** After the sweep a hostname that had only records of the service has none. */
  lemma SweptHolds(digest: string -> string, t: Table, c: Cloud, svc: Service, record: DnsRecord)
    requires SweepsDns(svc)
    ensures var dns := Swept(digest, t, c, svc).dns;
            && (CanHold(dns, record, svc.id) <==> NoForeign(c.dns, record.name, svc.id))
            && (DnsFree(dns, record.name, svc.id) <==> NoForeign(c.dns, record.name, svc.id))
  {
    hide Mark;
    hide RuleRef;
    hide SweepsRules;
    hide WorkerName;
    hide RowId;
    var dns := Swept(digest, t, c, svc).dns;
    assert forall d :: d in dns <==> d in c.dns && c.dns[d].comment != Mark(svc.id);
    forall d | d in c.dns && c.dns[d].name == record.name && c.dns[d].comment != Mark(svc.id)
      ensures !DnsFree(dns, record.name, svc.id)
    {
      assert d in dns && dns[d].name == record.name;
    }
  }

  lemma RoutesSwept(digest: string -> string, t: Table, c: Cloud, svc: Service, net: Prefix)
    requires ReadableRoutes(c.routes) && 0 !in c.routes && net.bits <= net.addr.width
    ensures var w, u := Swept(digest, t, c, svc), WithoutRows(t, svc.id);
            && ReadableRoutes(w.routes)
            && (NetworkFits(u, w, svc, net) <==> RouteClear(c.routes, RowId(t, svc.id, KPrivateRoute), net))
  {
    hide Overlaps;
    hide SweepsDns;
    hide SweepsRules;
    hide WorkerName;
    hide Mark;
    hide RuleRef;
    var w, own := Swept(digest, t, c, svc), RowId(t, svc.id, KPrivateRoute);
    if RouteClear(w.routes, 0, net) {
      forall id | id in c.routes && id != own
        ensures c.routes[id].network.Parsed? && !Overlaps(net, c.routes[id].network.prefix)
      {
        assert id in w.routes;
      }
    }
  }

  lemma AppsSwept(digest: string -> string, t: Table, c: Cloud, svc: Service)
    requires 0 !in c.apps && !SweepsDns(svc)
    ensures AppsFit(WithoutRows(t, svc.id), Swept(digest, t, c, svc), svc) <==>
              && AppClear(c.apps, RowId(t, svc.id, KSpectrum), svc.entry)
              && forall d :: d in c.dns ==> c.dns[d].name != svc.entry
  {
    hide Mark;
    hide RuleRef;
    hide SweepsDns;
    var w, own := Swept(digest, t, c, svc), RowId(t, svc.id, KSpectrum);
    if AppClear(w.apps, 0, svc.entry) {
      forall id | id in c.apps && id != own ensures c.apps[id].name != svc.entry {
        assert id in w.apps;
      }
    }
  }

  lemma WorkersSwept(digest: string -> string, t: Table, c: Cloud, svc: Service)
    requires 0 !in c.workerRoutes && SweepsDns(svc) && NoForeign(c.dns, svc.entry, svc.id)
    requires NoForeign(c.dns, svc.origin, svc.id)
    ensures WorkerFits(digest, WithoutRows(t, svc.id), Swept(digest, t, c, svc), svc) <==>
              && (WorkerName(digest, svc.id) in c.scripts ==> Key(svc.id, KWorker) in t)
              && WorkerRouteClear(c.workerRoutes, RowId(t, svc.id, KWorkerRoute), svc)
  {
    hide SweepsRules;
    hide Mark;
    hide RuleRef;
    hide SweepsDns;
    hide RouteCovers;
    hide WorkerName;
    var w, own := Swept(digest, t, c, svc), RowId(t, svc.id, KWorkerRoute);
    assert DnsFree(w.dns, svc.entry, svc.id) && DnsFree(w.dns, svc.origin, svc.id) by {
      SweptHolds(digest, t, c, svc, EntryRecord(svc));
      SweptHolds(digest, t, c, svc, OriginRecord(svc));
    }
    if WorkerRouteClear(w.workerRoutes, 0, svc) {
      forall id | id in c.workerRoutes && id != own
        ensures !RouteCovers(c.workerRoutes[id].pattern, svc.entry)
        ensures !RouteCovers(c.workerRoutes[id].pattern, svc.origin)
      {
        assert id in w.workerRoutes;
      }
    }
  }

  lemma WorkersRecover(zone: Zone, digest: string -> string, t: Table, c: Cloud, svc: Service)
    requires 0 !in c.workerRoutes && svc.mode == "workers"
    ensures WorkersCan(zone, digest, WithoutRows(t, svc.id), Swept(digest, t, c, svc), svc) <==>
              WorkersRecoverable(zone, digest, t, c, svc)
  {
    hide HostsAccepted;
    hide Mapped;
    hide CanHold;
    hide DnsFree;
    hide NoForeign;
    hide Swept;
    hide WorkerRouteClear;
    hide WorkerRouteFits;
    hide ScriptFree;
    hide HostInZone;
    hide Mark;
    SweptHolds(digest, t, c, svc, EntryRecord(svc));
    SweptHolds(digest, t, c, svc, OriginRecord(svc));
    if NoForeign(c.dns, svc.entry, svc.id) && NoForeign(c.dns, svc.origin, svc.id) {
      hide WorkerFits;
      WorkersSwept(digest, t, c, svc);
    }
  }

  lemma RedirectRecovers(zone: Zone, digest: string -> string, t: Table, c: Cloud, svc: Service)
    requires svc.mode == "redirect"
    ensures RedirectCan(zone, Swept(digest, t, c, svc), svc) <==> RedirectRecoverable(zone, c, svc)
  {
    hide HostsAccepted;
    hide Mapped;
    hide CanHold;
    hide NoForeign;
    hide Swept;
    hide Mark;
    if svc.manageDns {
      SweptHolds(digest, t, c, svc, EntryAddress(svc));
      SweptHolds(digest, t, c, svc, OriginAddress(svc));
    }
  }

  lemma TunnelRecovers(zone: Zone, digest: string -> string, t: Table, c: Cloud, svc: Service)
    requires svc.mode == "tunnel"
    ensures TunnelCan(zone, WithoutRows(t, svc.id), Swept(digest, t, c, svc), svc) <==> TunnelRecoverable(zone, c, svc)
  {
    hide HostsAccepted;
    hide TunnelProtocolAllowed;
    hide DnsFree;
    hide DnsTypeFits;
    hide NoForeign;
    hide Swept;
    hide Mark;
    SweptHolds(digest, t, c, svc, CnameRecord(svc, 0));
  }

  lemma DirectRecovers(zone: Zone, digest: string -> string, t: Table, c: Cloud, svc: Service)
    requires svc.mode == "dns" || svc.mode == "proxy"
    ensures DirectCan(zone, Swept(digest, t, c, svc), svc) <==> DirectRecoverable(zone, c, svc)
  {
    hide HostsAccepted;
    hide Mapped;
    hide ProxyPortAllowed;
    hide CanHold;
    hide NoForeign;
    hide Swept;
    hide Mark;
    SweptHolds(digest, t, c, svc, DirectRecord(svc));
  }

  /** A cleaned service can be published exactly when it was recoverable. */
  lemma RecoverIff(zone: Zone, digest: string -> string, sv: map<string, Service>, t: Table, c: Cloud, svc: Service)
    requires Reconciled(sv, t, c, digest) && ReadableRoutes(c.routes) && ServiceValid(svc)
    ensures var w, u := Swept(digest, t, c, svc), WithoutRows(t, svc.id);
            ReadableRoutes(w.routes) && (CanPublish(zone, digest, u, w, svc) <==> Recoverable(zone, digest, t, c, svc))
  {
    hide Reconciled;
    hide ZoneMatches;
    hide WorkersCan;
    hide WorkersRecoverable;
    hide RedirectCan;
    hide RedirectRecoverable;
    hide TunnelCan;
    hide TunnelRecoverable;
    hide DirectCan;
    hide DirectRecoverable;
    hide HostsAccepted;
    hide Mapped;
    hide AppsFit;
    hide AppClear;
    hide NetworkFits;
    hide RouteClear;
    hide WithoutRows;
    hide RowId;
    hide Mark;
    hide RuleRef;
    NothingIsZero(sv, t, c, digest);
    if svc.mode == "warp" {
      if NetworkOf(svc).Some? {
        NetworkValid(svc);
        RoutesSwept(digest, t, c, svc, NetworkOf(svc).value);
      }
    } else if svc.mode == "tunnel" {
      TunnelRecovers(zone, digest, t, c, svc);
    } else if svc.mode == "redirect" {
      RedirectRecovers(zone, digest, t, c, svc);
    } else if svc.mode == "dns" || svc.mode == "proxy" {
      DirectRecovers(zone, digest, t, c, svc);
    } else if svc.mode == "spectrum" {
      AppsSwept(digest, t, c, svc);
    } else if svc.mode == "workers" {
      WorkersRecover(zone, digest, t, c, svc);
    }
  }

  lemma NeedsZone(zone: Zone, digest: string -> string, t: Table, c: Cloud, svc: Service)
    requires ServiceValid(svc) && ReadableRoutes(c.routes)
    ensures Recoverable(zone, digest, t, c, svc) ==> ZoneMatches(zone)
  {
  }

  lemma NothingIsZero(sv: map<string, Service>, t: Table, c: Cloud, digest: string -> string)
    requires Reconciled(sv, t, c, digest)
    ensures 0 !in c.routes && 0 !in c.apps && 0 !in c.workerRoutes
  {
  }

  lemma SweptIsPart(digest: string -> string, t: Table, c: Cloud, svc: Service)
    ensures var w := Swept(digest, t, c, svc);
            && (forall id :: id in w.routes ==> id in c.routes) && (forall id :: id in w.apps ==> id in c.apps)
            && (forall id :: id in w.dns ==> id in c.dns)
  {
    hide Mark;
    hide RuleRef;
    hide SweepsDns;
    hide SweepsRules;
    hide RowId;
    hide WorkerName;
  }

  /** A swept account is not larger. */
  lemma SweptFits(digest: string -> string, t: Table, c: Cloud, svc: Service)
    requires InventoryFits(c)
    ensures InventoryFits(Swept(digest, t, c, svc))
  {
    hide Swept;
    var w := Swept(digest, t, c, svc);
    SweptIsPart(digest, t, c, svc);
    Smaller(w.routes, c.routes);
    Smaller(w.apps, c.apps);
    Smaller(w.dns, c.dns);
  }

  lemma Smaller<K, V>(a: map<K, V>, b: map<K, V>)
    requires forall k :: k in a ==> k in b
    ensures |a| <= |b|
  {
    assert a.Keys <= b.Keys;
    SubsetSize(a.Keys, b.Keys);
    assert |a| == |a.Keys| && |b| == |b.Keys|;
  }

  /** A route whose create was lost blocks its service for good: no row names it, so no cleanup removes it. */
  lemma LostRouteBlocks(zone: Zone, digest: string -> string, t: Table, c: Cloud, svc: Service, tunnel: Id)
    requires ServiceValid(svc) && svc.mode == "warp" && NetworkOf(svc).Some? && Key(svc.id, KPrivateRoute) !in t
    requires c.nextId != 0 && ReadableRoutes(c.routes)
    ensures var lost := WithRoute(c, RouteOf(svc, NetworkOf(svc).value, tunnel));
            ReadableRoutes(lost.routes) && !Recoverable(zone, digest, t, lost, svc)
  {
    NetworkValid(svc);
    var net := NetworkOf(svc).value;
    var lost := WithRoute(c, RouteOf(svc, net, tunnel));
    assert c.nextId in lost.routes && c.nextId != RowId(t, svc.id, KPrivateRoute);
    PrefixBits(net);
    OverlapsSelf(net);
  }

  lemma OverlapsSelf(net: Prefix)
    requires ValidPrefix(net)
    ensures net.bits <= net.addr.width && Overlaps(net, net)
  {
  }

  /** So does an application. */
  lemma LostAppBlocks(zone: Zone, digest: string -> string, t: Table, c: Cloud, svc: Service, settings: EdgeSettings)
    requires ServiceValid(svc) && svc.mode == "spectrum" && Key(svc.id, KSpectrum) !in t && c.nextId != 0
    requires ReadableRoutes(c.routes)
    ensures !Recoverable(zone, digest, t, WithApp(c, AppOf(svc, settings)), svc)
  {
    var lost := WithApp(c, AppOf(svc, settings));
    assert c.nextId in lost.apps && c.nextId != RowId(t, svc.id, KSpectrum);
  }
}
