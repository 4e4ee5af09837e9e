/** What the predicates of a publication say in plain terms: the names, the records and the settings that stand in the
    account once a service is published, and the services and states that are accepted. */
module Meaning {
  import opened Basics
  import opened Text
  import opened Cidr
  import opened Account
  import opened Contracts

  // ----- hostnames and patterns

  /** The zone itself, or a name that ends in a dot and the zone. */
  lemma HostInZoneIff(host: string, zone: string)
    ensures HostInZone(host, zone) <==>
              Lower(host) == Lower(zone) || exists sub :: Lower(host) == sub + "." + Lower(zone)
  {
    var h, z := Lower(host), Lower(zone);
    if EndsWith(h, "." + z) {
      assert h == h[..|h| - |z| - 1] + "." + z;
    }
    if sub :| h == sub + "." + z {
      assert h == sub + ("." + z);
    }
  }

  lemma {:induction false} GlobPlain(p: string, text: string)
    requires '*' !in p
    ensures GlobMatches(p, text) <==> text == p
    decreases |p|
  {
    if p != "" && text != "" {
      GlobPlain(p[1..], text[1..]);
      assert p == [p[0]] + p[1..] && text == [text[0]] + text[1..];
    }
  }

  /** A star leaves a run of any length to itself, and the rest of the text to the rest of the pattern. */
  lemma {:induction false} GlobStar(q: string, text: string)
    ensures GlobMatches("*" + q, text) <==> exists k :: 0 <= k <= |text| && GlobMatches(q, text[k..])
    decreases |text|
  {
    assert ("*" + q)[1..] == q && text[0..] == text;
    if text != "" {
      GlobStar(q, text[1..]);
      if k :| 0 <= k <= |text[1..]| && GlobMatches(q, text[1..][k..]) {
        assert text[1..][k..] == text[k + 1..];
      }
      if k :| 0 <= k <= |text| && GlobMatches(q, text[k..]) {
        if k > 0 {
          assert text[1..][k - 1..] == text[k..];
        }
      }
    }
  }

  /** What stands before the first star stands at the start of the text. */
  lemma {:induction false} GlobSplits(p: string, q: string, text: string)
    requires '*' !in p
    ensures GlobMatches(p + q, text) <==> p <= text && GlobMatches(q, text[|p|..])
    decreases |p|
  {
    if p == "" {
      assert p + q == q && text[0..] == text;
    } else {
      assert (p + q)[0] == p[0] && (p + q)[1..] == p[1..] + q;
      if text != "" {
        GlobSplits(p[1..], q, text[1..]);
        if p <= text {
          assert text[1..][|p| - 1..] == text[|p|..];
        }
        assert p <= text <==> p[0] == text[0] && p[1..] <= text[1..];
      }
    }
  }

  lemma {:induction false} UpToSlash(host: string, rest: string)
    requires '/' !in host && (rest == "" || rest[0] == '/')
    ensures UpTo(host + rest, '/') == host
    decreases |host|
  {
    if host == "" {
      assert host + rest == rest;
    } else {
      assert (host + rest)[0] == host[0] && (host + rest)[1..] == host[1..] + rest;
      UpToSlash(host[1..], rest);
    }
  }

  /** A route covers a hostname by the host of its pattern alone: after any scheme, before any path, in any case. */
  lemma RouteCoversIff(scheme: string, host: string, rest: string, name: string)
    requires scheme == "" || scheme == "https://" || scheme == "http://"
    requires '/' !in host && (rest == "" || rest[0] == '/') && host != "https:" && host != "http:"
    ensures RouteCovers(scheme + host + rest, name) <==> GlobMatches(Lower(host), Lower(name))
  {
    BareHost(scheme, host, rest);
    UpToSlash(host, rest);
  }

  lemma BareHost(scheme: string, host: string, rest: string)
    requires scheme == "" || scheme == "https://" || scheme == "http://"
    requires '/' !in host && (rest == "" || rest[0] == '/') && host != "https:" && host != "http:"
    ensures WithoutPrefix(WithoutPrefix(scheme + host + rest, "https://"), "http://") == host + rest
  {
    assert scheme + host + rest == scheme + (host + rest);
    NoScheme(host, rest, "https:");
    NoScheme(host, rest, "http:");
    var s, bare := scheme + (host + rest), host + rest;
    assert s[|scheme|..] == bare;
    assert "https:" + "//" == "https://" && "http:" + "//" == "http://";
    if scheme == "http://" {
      assert s[4] == scheme[4] == ':' && "https://"[4] == 's';
    } else if scheme == "https://" {
      assert "https://" <= s;
    }
  }

  lemma NoScheme(host: string, rest: string, word: string)
    requires '/' !in host && (rest == "" || rest[0] == '/') && host != word && '/' !in word && word != ""
    ensures !(word + "//" <= host + rest)
  {
    var s := host + rest;
    if word + "//" <= s {
      var tail := "//" + s[|word| + 2..];
      assert s == word + tail;
      UpToSlash(host, rest);
      UpToSlash(word, tail);
    }
  }

  // ----- what stands once a service is published

  /** Exactly one record at the hostname: this one, with the comment of the service. */
  ghost predicate OnlyRecord(dns: map<Id, DnsRecord>, name: string, kind: string, content: Content, proxied: bool,
                             s: string)
  {
    exists d :: && d in dns && dns[d] == DnsRecord(name, kind, content, proxied, "managed-by=stundeck:" + s)
                && forall e :: e in dns && dns[e].name == name ==> e == d
  }

  lemma StandsMeans(dns: map<Id, DnsRecord>, record: DnsRecord, s: string)
    requires Stands(dns, record, s) && record.comment == Mark(s)
    ensures OnlyRecord(dns, record.name, record.kind, record.content, record.proxied, s)
  {
    var d :| d in dns && dns[d] == record;
    forall e | e in dns && dns[e].name == record.name ensures e == d {
      assert dns[d].name == dns[e].name;
    }
  }

  function AddressKind(ip: PublicIp): string { if ip.V6? then "AAAA" else "A" }

  function AddressText(ip: PublicIp): string {
    match ip
    case NoIp => ""
    case V4(text) => text
    case V6(text) => text
  }

  lemma AddressStands(dns: map<Id, DnsRecord>, name: string, ip: PublicIp, proxied: bool, s: string)
    requires Stands(dns, AddressRecord(name, ip, proxied, s), s)
    ensures OnlyRecord(dns, name, AddressKind(ip), Address(AddressText(ip)), proxied, s)
  {
    StandsMeans(dns, AddressRecord(name, ip, proxied, s), s);
  }

  /** tunnel: its ingress leads to the target and ends in the 404 rule, and a proxied CNAME leads to it. */
  lemma TunnelMeans(digest: string -> string, t: Table, c: Cloud, svc: Service, r: SyncResult)
    requires ServiceValid(svc) && ReadableRoutes(c.routes) && svc.mode == "tunnel" && Published(digest, t, c, svc, r)
    ensures r.resource.Object? && r == SyncResult(r.resource, 0, 0, Url("https", svc.entry, 0))
    ensures var id := r.resource.id;
            && Key(svc.id, KTunnel) in t && t[Key(svc.id, KTunnel)].remote == Object(id) && id in c.tunnels
            && c.tunnels[id] == Tunnel("stundeck-" + svc.id, true, Configured(false, [
                 IngressRule(svc.entry, Url(if svc.tunnelProtocol == "" then "http" else svc.tunnelProtocol,
                                            svc.targetHost, svc.targetPort)),
                 IngressRule("", Status404)]))
            && OnlyRecord(c.dns, svc.entry, "CNAME", TunnelHost(id), true, svc.id)
  {
    StandsMeans(c.dns, CnameRecord(svc, r.resource.id), svc.id);
  }

  /** warp: the tunnel routes the private network, answers nothing else, and the recorded route leads to it. */
  lemma WarpMeans(digest: string -> string, t: Table, c: Cloud, svc: Service, r: SyncResult)
    requires ServiceValid(svc) && ReadableRoutes(c.routes) && svc.mode == "warp" && Published(digest, t, c, svc, r)
    ensures r.resource.Object? && NetworkOf(svc).Some?
    ensures r == SyncResult(r.resource, 0, 0, Block(NetworkOf(svc).value))
    ensures var id := r.resource.id;
            && Key(svc.id, KTunnel) in t && t[Key(svc.id, KTunnel)].remote == Object(id) && id in c.tunnels
            && c.tunnels[id] == Tunnel("stundeck-" + svc.id, true, Configured(true, [IngressRule("", Status404)]))
    ensures Key(svc.id, KPrivateRoute) in t && t[Key(svc.id, KPrivateRoute)].remote.Object? ==>
              var own := t[Key(svc.id, KPrivateRoute)].remote.id;
              && own in c.routes
              && c.routes[own] == PrivateRoute(Parsed(NetworkOf(svc).value), r.resource.id, "stundeck-" + svc.id)
  {
    hide Overlaps;
  }

  /** dns and proxy: one address record, proxied in proxy mode, and its row. */
  lemma DirectMeans(digest: string -> string, t: Table, c: Cloud, svc: Service, r: SyncResult)
    requires ServiceValid(svc) && ReadableRoutes(c.routes) && (svc.mode == "dns" || svc.mode == "proxy")
    requires Published(digest, t, c, svc, r)
    ensures OnlyRecord(c.dns, svc.entry, AddressKind(svc.publicIp), Address(AddressText(svc.publicIp)),
                       svc.mode == "proxy", svc.id)
    ensures var key := Key(svc.id, if svc.mode == "proxy" then KProxy else KDns);
            key in t && t[key] == Resource(RulePair(0, 0), Host(svc.entry))
    ensures r == SyncResult(Blank, 0, 0, Url(svc.scheme, svc.entry, svc.publicPort))
  {
    AddressStands(c.dns, svc.entry, svc.publicIp, svc.mode == "proxy", svc.id);
  }

  /** The ref in the zone's rule set: the id with underscores for hyphens. */
  lemma RefMeans(id: string)
    ensures |RuleRef(id)| == 9 + |id| && RuleRef(id)[..9] == "stundeck_"
    ensures forall i :: 0 <= i < |id| ==> RuleRef(id)[9 + i] == if id[i] == '-' then '_' else id[i]
  {
  }

  /** redirect: the rule under the ref leads from the entry to the origin, or to the address without one; the records
      stand where the zone is managed. */
  lemma RedirectMeans(digest: string -> string, t: Table, c: Cloud, svc: Service, r: SyncResult)
    requires ServiceValid(svc) && ReadableRoutes(c.routes) && svc.mode == "redirect"
    requires Published(digest, t, c, svc, r)
    ensures var target := Url(svc.scheme, if svc.origin == "" then AddressText(svc.publicIp) else svc.origin,
                              svc.publicPort);
            && c.ruleset != 0 && r == SyncResult(Blank, c.ruleset, r.rule, target) && r.rule in c.rules
            && c.rules[r.rule] == Rule(RuleRef(svc.id), Lower(svc.entry), target, svc.redirectStatus,
                                       svc.preservePath, svc.preserveQuery, svc.name)
            && Key(svc.id, KRedirect) in t
            && t[Key(svc.id, KRedirect)] == Resource(RulePair(c.ruleset, r.rule), Host(svc.entry))
    ensures svc.manageDns ==>
              OnlyRecord(c.dns, svc.entry, AddressKind(svc.publicIp), Address(AddressText(svc.publicIp)), true, svc.id)
    ensures svc.manageDns && svc.origin != "" ==>
              OnlyRecord(c.dns, svc.origin, AddressKind(svc.publicIp), Address(AddressText(svc.publicIp)), false,
                         svc.id)
  {
    hide OnlyRecord;
    hide Stands;
    if svc.manageDns {
      AddressStands(c.dns, svc.entry, svc.publicIp, true, svc.id);
      if svc.origin != "" {
        AddressStands(c.dns, svc.origin, svc.publicIp, false, svc.id);
      }
    }
  }

  /** spectrum: the application at the entry leads to the mapped address, and no other has the hostname. */
  lemma SpectrumMeans(digest: string -> string, t: Table, c: Cloud, svc: Service, r: SyncResult)
    requires ServiceValid(svc) && ReadableRoutes(c.routes) && svc.mode == "spectrum" && Published(digest, t, c, svc, r)
    ensures r.resource.Object? && r == SyncResult(r.resource, 0, 0, Url(svc.protocol, svc.entry, svc.edgePort))
    ensures var id := r.resource.id;
            && Key(svc.id, KSpectrum) in t && t[Key(svc.id, KSpectrum)] == Resource(Object(id), Host(svc.entry))
            && id in c.apps
            && c.apps[id] == SpectrumApp(svc.entry, svc.protocol, svc.edgePort,
                                         Url(svc.protocol, AddressText(svc.publicIp), svc.publicPort),
                                         c.apps[id].settings)
            && c.apps[id].settings.proxyProtocol != "" && c.apps[id].settings.tls != ""
            && forall other :: other in c.apps && c.apps[other].name == svc.entry ==> other == id
  {
  }

  /** workers: the tagged script forwards to the origin and has no other address, its route takes the whole entry host,
      and the entry is a proxied record of a reserved address. */
  lemma WorkersMean(digest: string -> string, t: Table, c: Cloud, svc: Service, r: SyncResult)
    requires ServiceValid(svc) && ReadableRoutes(c.routes) && svc.mode == "workers" && Published(digest, t, c, svc, r)
    ensures var name := "stundeck-" + digest(svc.id);
            && r == SyncResult(Script(name), 0, 0, Url("https", svc.entry, 0)) && name in c.scripts
            && c.scripts[name] == WorkerScript({"stundeck:" + svc.id}, false,
                                               Url(svc.scheme, svc.origin, svc.publicPort), svc.entry)
            && Key(svc.id, KWorker) in t && t[Key(svc.id, KWorker)] == Resource(Script(name), Host(svc.entry))
            && Key(svc.id, KWorkerDns) in t && t[Key(svc.id, KWorkerDns)] == Resource(Blank, Host(svc.entry))
            && Key(svc.id, KWorkerRoute) in t
            && (t[Key(svc.id, KWorkerRoute)].remote.Object? ==>
                  var own := t[Key(svc.id, KWorkerRoute)].remote.id;
                  own in c.workerRoutes && c.workerRoutes[own] == WorkerRoute(svc.entry + "/*", name))
    ensures OnlyRecord(c.dns, svc.entry, "A", Address("192.0.2.1"), true, svc.id)
    ensures OnlyRecord(c.dns, svc.origin, AddressKind(svc.publicIp), Address(AddressText(svc.publicIp)), false, svc.id)
  {
    hide RouteCovers;
    hide OnlyRecord;
    hide Stands;
    AddressStands(c.dns, svc.entry, V4("192.0.2.1"), true, svc.id);
    AddressStands(c.dns, svc.origin, svc.publicIp, false, svc.id);
  }

  // ----- what is accepted

  ghost predicate InZone(host: string, zone: string) {
    Lower(host) == Lower(zone) || exists sub :: Lower(host) == sub + "." + Lower(zone)
  }

  lemma HostsAcceptedIff(zone: Zone, svc: Service)
    ensures HostsAccepted(zone, svc) <==>
              && zone.active && InZone(svc.entry, zone.name)
              && (svc.manageDns && svc.origin != "" ==> InZone(svc.origin, zone.name))
  {
    HostInZoneIff(svc.entry, zone.name);
    HostInZoneIff(svc.origin, zone.name);
    hide HostInZone;
  }

  lemma MappedIff(svc: Service)
    ensures Mapped(svc) <==> (svc.publicIp.V4? || svc.publicIp.V6?) && 1 <= svc.publicPort <= 65535
  {
  }

  /** The ports that Cloudflare proxies, and the protocols that a public tunnel carries. */
  lemma PortsAndProtocols(scheme: string, port: int, p: string)
    ensures ProxyPortAllowed(scheme, port) <==>
              || (scheme == "http" && port in [80, 8080, 8880, 2052, 2082, 2086, 2095])
              || (scheme == "https" && port in [443, 2053, 2083, 2087, 2096, 8443])
    ensures TunnelProtocolAllowed(p) <==> p in ["http", "https", "tcp", "ssh", "rdp"]
  {
  }

  /** Nothing in the account is in the way. */
  ghost predicate NoConflict(digest: string -> string, t: Table, c: Cloud, svc: Service)
    requires ServiceValid(svc) && ReadableRoutes(c.routes)
  {
    && (svc.mode == "warp" ==> NetworkOf(svc).Some? && NetworkFits(t, c, svc, NetworkOf(svc).value))
    && (svc.mode == "tunnel" ==> DnsFree(c.dns, svc.entry, svc.id) && DnsTypeFits(c.dns, svc.entry, "CNAME"))
    && (svc.mode == "tunnel" ==> TunnelUsable(t, c.tunnels, svc.id))
    && (svc.mode == "redirect" ==> RedirectDnsCan(c.dns, svc))
    && (svc.mode == "dns" || svc.mode == "proxy" ==>
          CanHold(c.dns, AddressRecord(svc.entry, svc.publicIp, svc.mode == "proxy", svc.id), svc.id))
    && (svc.mode == "spectrum" ==> AppsFit(t, c, svc))
    && (svc.mode == "workers" ==> WorkerDnsCan(c.dns, svc) && WorkerFits(digest, t, c, svc))
  }

  /** A service can be published exactly when the zone is the saved one, no conflict is in the way, and the mode has
      what it needs. */
  lemma CanPublishIff(zone: Zone, digest: string -> string, t: Table, c: Cloud, svc: Service)
    requires ServiceValid(svc) && ReadableRoutes(c.routes)
    ensures CanPublish(zone, digest, t, c, svc) <==>
              && NoConflict(digest, t, c, svc) && Lower(zone.name) == Lower(zone.savedName)
              && svc.mode in ["warp", "tunnel", "redirect", "dns", "proxy", "spectrum", "workers"]
              && (svc.mode != "warp" ==> HostsAccepted(zone, svc))
              && (svc.mode != "warp" && svc.mode != "tunnel" ==> Mapped(svc))
              && (svc.mode in ["warp", "tunnel", "workers"] ==> zone.hasAccount)
              && (svc.mode in ["tunnel", "workers"] ==> svc.protocol == "tcp")
              && (svc.mode == "tunnel" ==>
                    TunnelProtocolAllowed(if svc.tunnelProtocol == "" then "http" else svc.tunnelProtocol))
              && (svc.mode == "redirect" ==> svc.redirectStatus in [302, 307] && svc.entry != "")
              && (svc.mode == "proxy" ==> ProxyPortAllowed(svc.scheme, svc.publicPort))
              && (svc.mode == "spectrum" ==> 1 <= svc.edgePort <= 65535)
              && (svc.mode == "workers" ==> InZone(svc.origin, zone.name) && svc.origin != svc.entry)
  {
    hide RedirectDnsCan;
    HostInZoneIff(svc.origin, zone.name);
    hide HostsAccepted;
    hide Mapped;
    hide HostInZone;
    hide WorkerFits;
    hide WorkerDnsCan;
    hide AppsFit;
    hide NetworkFits;
    hide CanHold;
    hide DnsFree;
    hide DnsTypeFits;
    hide TunnelUsable;
    hide ProxyPortAllowed;
    hide TunnelProtocolAllowed;
  }

  // ----- what a cleanup removes

  /** The object that a row of s names, if it names one. */
  predicate Names(t: Table, s: string, kind: Kind, id: Id) {
    Key(s, kind) in t && t[Key(s, kind)].remote == Object(id)
  }

  lemma SweptMeans(digest: string -> string, t: Table, c: Cloud, svc: Service)
    requires 0 !in c.tunnels && 0 !in c.routes && 0 !in c.workerRoutes && 0 !in c.apps
    ensures var w := Swept(digest, t, c, svc);
            && (forall id :: id in w.tunnels <==> id in c.tunnels && !Names(t, svc.id, KTunnel, id))
            && (forall id :: id in w.routes <==> id in c.routes && !Names(t, svc.id, KPrivateRoute, id))
            && (forall id :: id in w.workerRoutes <==> id in c.workerRoutes && !Names(t, svc.id, KWorkerRoute, id))
            && (forall id :: id in w.apps <==> id in c.apps && !Names(t, svc.id, KSpectrum, id))
            && (forall n :: n in w.scripts <==>
                  n in c.scripts && !(Key(svc.id, KWorker) in t && n == "stundeck-" + digest(svc.id)))
    ensures var w := Swept(digest, t, c, svc);
            && w.nextId == c.nextId && w.ruleset == c.ruleset
            && (forall d :: d in w.dns <==>
                  && d in c.dns
                  && !(c.dns[d].comment == "managed-by=stundeck:" + svc.id
                       && svc.mode !in ["spectrum", "warp"] && (svc.mode == "redirect" ==> svc.manageDns)))
            && (forall d :: d in w.rules <==>
                  && d in c.rules
                  && !(c.rules[d].ref == RuleRef(svc.id) && (svc.mode == "redirect" || Key(svc.id, KRedirect) in t)))
  {
    hide RuleRef;
  }

  lemma WithoutRowsMeans(t: Table, s: string)
    ensures forall k :: k in WithoutRows(t, s) <==> k in t && k.owner != s
    ensures forall k :: k in WithoutRows(t, s) ==> WithoutRows(t, s)[k] == t[k]
  {
  }
}
