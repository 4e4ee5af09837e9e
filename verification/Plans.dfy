/** The calls of a publication up to its first row, and what they leave of a service that has none. */
module Plans {
  import opened Basics
  import opened Account
  import opened Pagination
  import opened Contracts
  import opened Steps
  import opened Faults

  // ----- what a service leaves

  ghost predicate Unrowed(t: Table, s: string) { forall k :: k in t ==> k.owner != s }

  ghost predicate Marked(dns: map<Id, DnsRecord>, s: string) { exists d :: d in dns && dns[d].comment == Mark(s) }

  ghost predicate Ruled(rules: map<Id, Rule>, s: string) { exists d :: d in rules && rules[d].ref == RuleRef(s) }

  ghost predicate Named(tunnels: map<Id, Tunnel>, s: string) {
    exists id :: id in tunnels && tunnels[id].name == TunnelName(s)
  }

  /** No object without a mark has been added. */
  ghost predicate NothingElse(a: Cloud, c: Cloud) {
    && c.routes.Keys <= a.routes.Keys && c.apps.Keys <= a.apps.Keys
    && c.scripts.Keys <= a.scripts.Keys && c.workerRoutes.Keys <= a.workerRoutes.Keys
  }

  /** What the account c has of service s: an object with its mark, or another one that a did not have. */
  ghost predicate Traces(a: Cloud, c: Cloud, s: string) {
    Marked(c.dns, s) || Ruled(c.rules, s) || Named(c.tunnels, s) || !NothingElse(a, c)
  }

  /** No record and no rule differs. */
  ghost predicate Silent(a: Cloud, c: Cloud) { c.dns == a.dns && c.rules == a.rules }

  /** The modes that save a row, or the row of the tunnel, before they write a record or a rule. */
  predicate RowsFirst(mode: string) { mode != "redirect" && mode != "dns" && mode != "proxy" }

  /** The stores went where the plan leads: rows stay, one comes exactly when the plan saves one, and without one the
      traces are the old ones and what the plan made. */
  ghost predicate Follows(p: Played, t0: Table, t: Table, c0: Cloud, c: Cloud, s: string) {
    && t0.Keys <= t.Keys
    && (Unrowed(t0, s) ==> (Unrowed(t, s) <==> !p.saved))
    && (Unrowed(t, s) ==> (Traces(c0, c, s) <==> Traces(c0, c0, s) || p.made))
  }

  /** The records went where the plan leads. */
  ghost predicate DnsFollows(p: Played, a: map<Id, DnsRecord>, b: map<Id, DnsRecord>, s: string) {
    Marked(b, s) <==> Marked(a, s) || p.made
  }

  /** The rules went where the plan leads. */
  ghost predicate RulesFollow(p: Played, a: map<Id, Rule>, b: map<Id, Rule>, s: string) {
    Ruled(b, s) <==> Ruled(a, s) || p.made
  }

  // ----- plans

  ghost function RecordPlan(dns: map<Id, DnsRecord>, record: DnsRecord, s: string): seq<Call> {
    if !CanHold(dns, record, s) then [Stop] else if Stands(dns, record, s) then [Look] else [Look, Put]
  }

  function DirectRecord(svc: Service): DnsRecord {
    AddressRecord(svc.entry, svc.publicIp, svc.mode == "proxy", svc.id)
  }

  function EntryAddress(svc: Service): DnsRecord { AddressRecord(svc.entry, svc.publicIp, true, svc.id) }

  function OriginAddress(svc: Service): DnsRecord { AddressRecord(svc.origin, svc.publicIp, false, svc.id) }

  ghost function DirectPlan(c: Cloud, svc: Service): seq<Call> {
    if svc.mode == "proxy" && !ProxyPortAllowed(svc.scheme, svc.publicPort) then [Stop]
    else RecordPlan(c.dns, DirectRecord(svc), svc.id) + [Save]
  }

  ghost function RedirectDnsPlan(dns: map<Id, DnsRecord>, svc: Service): seq<Call> {
    if !svc.manageDns then []
    else RecordPlan(dns, EntryAddress(svc), svc.id) +
         if svc.origin == "" then [] else RecordPlan(dns, OriginAddress(svc), svc.id)
  }

  predicate RuleBuilt(svc: Service) {
    (svc.redirectStatus == 302 || svc.redirectStatus == 307) && svc.entry != ""
  }

  function RulePlan(c: Cloud): seq<Call> {
    if c.ruleset == 0 then [Look, PutForId] else [Look, Look, PutForId]
  }

  ghost function RedirectPlan(c: Cloud, svc: Service): seq<Call> {
    RedirectDnsPlan(c.dns, svc) + if RuleBuilt(svc) then RulePlan(c) + [Save] else [Stop]
  }

  ghost function TunnelPlan(zone: Zone, c: Cloud, svc: Service): seq<Call> {
    if && zone.hasAccount && svc.protocol == "tcp" && TunnelProtocolAllowed(Protocol(svc))
       && DnsFree(c.dns, svc.entry, svc.id)
    then [Look, Look, Establish] else [Stop]
  }

  ghost function WarpPlan(zone: Zone, svc: Service): seq<Call>
    requires TargetsValid(svc)
  {
    if zone.hasAccount && NetworkOf(svc).Some? then [Look, Establish] else [Stop]
  }

  ghost function SpectrumPlan(t: Table, c: Cloud, svc: Service): seq<Call> {
    if 1 <= svc.edgePort <= 65535 && AppsFit(t, c, svc) && |c.apps| <= PAGE_LIMIT * 50
    then [Look, Look, Look, Establish] else [Stop]
  }

  /** What is read before a Worker is published. */
  const SIX_LOOKS: seq<Call> := [Look, Look, Look, Look, Look, Look]

  ghost function WorkerPlan(zone: Zone, digest: string -> string, t: Table, c: Cloud, svc: Service): seq<Call> {
    if && zone.hasAccount && svc.protocol == "tcp" && HostInZone(svc.origin, zone.name) && svc.origin != svc.entry
       && WorkerFits(digest, t, c, svc)
    then SIX_LOOKS + [Save] else [Stop]
  }

  ghost function MappedPlan(zone: Zone, digest: string -> string, t: Table, c: Cloud, svc: Service): seq<Call> {
    if svc.mode == "redirect" then RedirectPlan(c, svc)
    else if svc.mode == "dns" || svc.mode == "proxy" then DirectPlan(c, svc)
    else if svc.mode == "spectrum" then SpectrumPlan(t, c, svc)
    else if svc.mode == "workers" then WorkerPlan(zone, digest, t, c, svc)
    else [Stop]
  }

  ghost function ModePlan(zone: Zone, digest: string -> string, t: Table, c: Cloud, svc: Service): seq<Call>
    requires TargetsValid(svc)
  {
    if svc.mode == "warp" then WarpPlan(zone, svc)
    else if !HostsAccepted(zone, svc) then [Stop]
    else if svc.mode == "tunnel" then TunnelPlan(zone, c, svc)
    else if !Mapped(svc) then [Stop]
    else MappedPlan(zone, digest, t, c, svc)
  }

  /** The calls of sync up to the first row of a service that has none. */
  ghost function SyncPlan(zone: Zone, digest: string -> string, t: Table, c: Cloud, svc: Service): seq<Call>
    requires TargetsValid(svc)
  {
    if !ZoneMatches(zone) then [Stop] else [Look, Look] + ModePlan(zone, digest, t, c, svc)
  }

  lemma RecordMarks(c: Cloud, record: DnsRecord, s: string)
    requires record.comment == Mark(s)
    ensures Marked(WithRecord(c, record).dns, s)
    ensures forall d :: d in c.dns ==> Marked(WithPatch(c, d, record).dns, s)
    ensures forall d :: d in c.dns && c.dns[d].comment == Mark(s) ==> Marked(c.dns, s)
  {
    assert c.nextId in WithRecord(c, record).dns;
    forall d | d in c.dns ensures Marked(WithPatch(c, d, record).dns, s) {
      assert d in WithPatch(c, d, record).dns;
    }
  }

  lemma RuleMarks(c: Cloud, rule: Rule, s: string)
    requires rule.ref == RuleRef(s)
    ensures Ruled(WithRuleset(c, rule).rules, s) && Ruled(WithRule(c, rule).rules, s)
    ensures forall d :: d in c.rules ==> Ruled(WithRulePatch(c, d, rule).rules, s)
    ensures forall d :: d in c.rules && c.rules[d].ref == RuleRef(s) ==> Ruled(c.rules, s)
  {
    hide RuleRef;
    assert c.nextId + 1 in WithRuleset(c, rule).rules && c.nextId in WithRule(c, rule).rules;
    forall d | d in c.rules ensures Ruled(WithRulePatch(c, d, rule).rules, s) {
      assert d in WithRulePatch(c, d, rule).rules;
    }
  }

  lemma SameSelf(dns: map<Id, DnsRecord>, name: string)
    ensures SameElsewhere(dns, dns, name)
  {
  }

  lemma HoldsIfFree(dns: map<Id, DnsRecord>, record: DnsRecord, s: string)
    ensures CanHold(dns, record, s) || Stands(dns, record, s) ==> DnsFree(dns, record.name, s)
  {
  }

  lemma IdsFresh(c: Cloud)
    requires IdsBelow(c)
    ensures c.nextId !in c.dns && c.nextId !in c.rules && c.nextId !in c.apps && c.nextId !in c.tunnels
  {
  }

  /** A hostname without a record can take one. */
  lemma FreshRecord(c: Cloud, record: DnsRecord, s: string)
    requires record.comment == Mark(s) && c.nextId !in c.dns
    requires forall e :: e in c.dns ==> c.dns[e].name != record.name
    ensures CanHold(c.dns, record, s) && !Stands(c.dns, record, s)
    ensures Stands(WithRecord(c, record).dns, record, s)
    ensures SameElsewhere(c.dns, WithRecord(c, record).dns, record.name)
  {
    hide Mark;
    assert c.nextId in WithRecord(c, record).dns;
  }

  /** A hostname with a record of ours can take one of the same type. */
  lemma OwnRecord(c: Cloud, d: Id, record: DnsRecord, s: string)
    requires record.comment == Mark(s) && d in c.dns && c.dns[d].name == record.name && c.dns[d].comment == Mark(s)
    requires DnsFree(c.dns, record.name, s)
    ensures CanHold(c.dns, record, s) <==> c.dns[d].kind == record.kind
    ensures Stands(c.dns, record, s) <==> c.dns[d] == record
    ensures Stands(WithPatch(c, d, record).dns, record, s)
    ensures SameElsewhere(c.dns, WithPatch(c, d, record).dns, record.name)
  {
    hide Mark;
    assert d in WithPatch(c, d, record).dns;
  }

  // ----- how the parts play

  lemma StopPlays(faults: seq<Fault>)
    ensures Play([Stop], faults) == Played(false, false, false, faults)
  {
    PlayOne(Stop, faults);
  }

  lemma PutPlays(call: Call, faults: seq<Fault>)
    ensures var p := Play([Look, call], faults);
            p == if Coming(faults) == Fine then One(call, Rest(faults)) else Played(false, false, false, Rest(faults))
  {
    hide Play;
    assert [Look, call] == [Look] + [call];
    PlayNext(Look, [call], faults);
    PlayOne(call, Rest(faults));
  }

  lemma RecordPlays(dns: map<Id, DnsRecord>, record: DnsRecord, s: string, faults: seq<Fault>)
    ensures var p := Play(RecordPlan(dns, record, s), faults);
            && !p.saved
            && (!CanHold(dns, record, s) ==> !p.going && !p.made)
            && (Coming(faults) != Fine ==> !p.going && !p.made)
            && (CanHold(dns, record, s) && Coming(faults) == Fine ==>
                  if Stands(dns, record, s) then p == Played(true, false, false, Rest(faults))
                  else p == One(Put, Rest(faults)))
  {
    hide Play;
    hide CanHold;
    hide Stands;
    StopPlays(faults);
    PlayOne(Look, faults);
    PutPlays(Put, faults);
  }

  lemma RulePlays(c: Cloud, faults: seq<Fault>)
    ensures var p := Play(RulePlan(c), faults);
            && (Coming(faults) != Fine ==> p == Played(false, false, false, Rest(faults)))
            && (Coming(faults) == Fine && c.ruleset == 0 ==> p == One(PutForId, Rest(faults)))
            && (Coming(faults) == Fine && c.ruleset != 0 ==>
                  p == if Coming(Rest(faults)) == Fine then One(PutForId, Rest(Rest(faults)))
                       else Played(false, false, false, Rest(Rest(faults))))
  {
    hide Play;
    PutPlays(PutForId, faults);
    assert [Look, Look, PutForId] == [Look] + [Look, PutForId];
    PlayNext(Look, [Look, PutForId], faults);
    PutPlays(PutForId, Rest(faults));
  }

  lemma RedirectDnsPlays(dns: map<Id, DnsRecord>, svc: Service, faults: seq<Fault>)
    ensures var entry := RecordPlan(dns, EntryAddress(svc), svc.id);
            var origin := RecordPlan(dns, OriginAddress(svc), svc.id);
            var p, first := Play(RedirectDnsPlan(dns, svc), faults), Play(entry, faults);
            && !p.saved
            && (!svc.manageDns ==> p == Played(true, false, false, faults))
            && (svc.manageDns ==> p == if svc.origin != "" && first.going then Joined(first, Play(origin, first.rest))
                                       else first)
  {
    hide RecordPlan;
    if svc.manageDns {
      var entry := RecordPlan(dns, EntryAddress(svc), svc.id);
      var origin := RecordPlan(dns, OriginAddress(svc), svc.id);
      hide Play;
      assert entry + [] == entry;
      RecordPlays(dns, EntryAddress(svc), svc.id, faults);
      RecordPlays(dns, OriginAddress(svc), svc.id, Play(entry, faults).rest);
      PlayBoth(entry, origin, faults);
    }
  }

  /** What is written at one hostname does not change the plan for another. */
  lemma PlanElsewhere(a: map<Id, DnsRecord>, b: map<Id, DnsRecord>, written: string, record: DnsRecord, s: string)
    requires SameElsewhere(a, b, written) && record.name != written
    ensures RecordPlan(a, record, s) == RecordPlan(b, record, s)
  {
    HeldElsewhere(a, b, written, record, s);
  }

  /** A plan that goes on with a row. */
  lemma SavePlays(plan: seq<Call>, faults: seq<Fault>)
    ensures var p, q := Play(plan, faults), Play(plan + [Save], faults);
            if p.going then q == Joined(p, One(Save, p.rest)) else q == p
  {
    hide Play;
    PlayBoth(plan, [Save], faults);
    if Play(plan, faults).going {
      PlayOne(Save, Play(plan, faults).rest);
    }
  }

  // ----- following a plan

  /** Only records, rules and rule sets differ, and the marks among them are the old ones and what the plan made. */
  ghost predicate MarksFollow(p: Played, c0: Cloud, c: Cloud, s: string) {
    && c == c0.(nextId := c.nextId, dns := c.dns, ruleset := c.ruleset, rules := c.rules)
    && (Marked(c.dns, s) || Ruled(c.rules, s) <==> Marked(c0.dns, s) || Ruled(c0.rules, s) || p.made)
  }

  lemma DnsMarksFollow(p: Played, c0: Cloud, c: Cloud, s: string)
    requires c == c0.(nextId := c.nextId, dns := c.dns) && DnsFollows(p, c0.dns, c.dns, s)
    ensures MarksFollow(p, c0, c, s)
  {
  }

  /** The row after a plan that made the marks. */
  lemma SavedFollows(plan: seq<Call>, faults: seq<Fault>, t0: Table, t: Table, c0: Cloud, c: Cloud, key: Key,
                     row: Resource)
    requires !Play(plan, faults).saved && MarksFollow(Play(plan, faults), c0, c, key.owner)
    requires var p := Play(plan, faults); t == if p.going && Coming(p.rest) != Refused then t0[key := row] else t0
    ensures Follows(Play(plan + [Save], faults), t0, t, c0, c, key.owner)
  {
    hide Play;
    hide Marked;
    hide Ruled;
    hide Named;
    SavePlays(plan, faults);
    if key in t {
      assert t[key] == t[key];
    }
  }

  /** A plan that, as far as it goes, saves no row and makes nothing. */
  lemma StayFollows(p: Played, t: Table, c: Cloud, s: string)
    ensures !p.saved && !p.made ==> Follows(p, t, t, c, c, s)
    ensures Silent(c, c)
  {
  }

  /** A service that has a row keeps it. */
  lemma RowedFollows(p: Played, t0: Table, t: Table, c0: Cloud, c: Cloud, key: Key)
    requires t0.Keys <= t.Keys && key in t0
    ensures Follows(p, t0, t, c0, c, key.owner) && !Unrowed(t, key.owner)
  {
    assert key in t0.Keys;
  }

  lemma StoppedFollows(p: Played, t: Table, c0: Cloud, c: Cloud, s: string)
    requires !p.saved && MarksFollow(p, c0, c, s)
    ensures Follows(p, t, t, c0, c, s)
  {
    hide Marked;
    hide Ruled;
    hide Named;
  }

  /** The records of a redirect, then its rule and its row. */
  lemma RedirectFollows(t0: Table, t: Table, c0: Cloud, c1: Cloud, c: Cloud, svc: Service, faults: seq<Fault>)
    requires var p := Play(RedirectDnsPlan(c0.dns, svc), faults);
             && !p.saved && c1 == c0.(nextId := c1.nextId, dns := c1.dns) && DnsFollows(p, c0.dns, c1.dns, svc.id)
             && if p.going && RuleBuilt(svc) then RuleWritten(Play(RulePlan(c1), p.rest), t0, t, c1, c, svc.id)
                else t == t0 && c == c1
    ensures Follows(Play(RedirectPlan(c0, svc), faults), t0, t, c0, c, svc.id)
  {
    hide Play;
    hide RedirectDnsPlan;
    hide Follows;
    hide Marked;
    hide Ruled;
    var s, first := svc.id, RedirectDnsPlan(c0.dns, svc);
    var p := Play(first, faults);
    if p.going && RuleBuilt(svc) {
      var rules, key := RulePlan(c0), Key(s, KRedirect);
      PlayBoth(first, rules, faults);
      RulePlays(c0, p.rest);
      assert first + rules + [Save] == first + (rules + [Save]);
      var row := if key in t then t[key] else Resource(Blank, Host(""));
      SavedFollows(first + rules, faults, t0, t, c0, c, key, row);
    } else {
      PlayBoth(first, RulePlan(c0) + [Save], faults);
      PlayBoth(first, [Stop], faults);
      StopPlays(p.rest);
      StoppedFollows(Play(RedirectPlan(c0, svc), faults), t, c0, c, s);
    }
  }

  /** The rules and the row went where the plan leads. */
  ghost predicate RuleWritten(p: Played, t0: Table, t: Table, c1: Cloud, c: Cloud, s: string) {
    var key := Key(s, KRedirect);
    && c == c1.(nextId := c.nextId, ruleset := c.ruleset, rules := c.rules) && RulesFollow(p, c1.rules, c.rules, s)
    && if p.going && Coming(p.rest) != Refused then key in t && t == t0[key := t[key]] else t == t0
  }

  // ----- tunnels

  /** The tunnel and its row went where the plan leads. */
  ghost predicate TunnelFollows(p: Played, t0: Table, t: Table, c0: Cloud, c: Cloud, s: string) {
    && t0.Keys <= t.Keys
    && (Key(s, KTunnel) !in t0 && p.saved ==> Key(s, KTunnel) in t)
    && (Key(s, KTunnel) !in t0 && !p.saved ==>
          && t == t0 && c == c0.(nextId := c.nextId, tunnels := c.tunnels)
          && (Named(c.tunnels, s) <==> Named(c0.tunnels, s) || p.made))
  }

  lemma TunnelStays(p: Played, t: Table, c: Cloud, s: string)
    requires !p.saved && !p.made
    ensures TunnelFollows(p, t, t, c, c, s)
  {
  }

  /** A recorded tunnel, or one that has just been recorded, is followed by more rows at most. */
  lemma TunnelRecordedFollows(p: Played, t0: Table, t: Table, c0: Cloud, c: Cloud, s: string)
    requires t0.Keys <= t.Keys && Key(s, KTunnel) in t && (Key(s, KTunnel) !in t0 ==> p.saved)
    ensures TunnelFollows(p, t0, t, c0, c, s)
  {
  }

  lemma TunnelOnlyFollows(p: Played, t0: Table, t: Table, c0: Cloud, c: Cloud, s: string)
    requires TunnelFollows(p, t0, t, c0, c, s)
    ensures Follows(p, t0, t, c0, c, s)
    ensures Unrowed(t, s) ==> Silent(c0, c)
  {
    hide Named;
    hide Marked;
    hide Ruled;
    if Unrowed(t, s) {
      forall k | k in t0 ensures k.owner != s {
        assert k in t;
      }
    }
  }

  /** The end of a create: recorded; not recorded, and gone or left. */
  lemma EstablishedFollows(faults: seq<Fault>, t0: Table, t: Table, c0: Cloud, c: Cloud, s: string)
    requires Key(s, KTunnel) !in t0 && c0.nextId !in c0.tunnels && t0.Keys <= t.Keys && OneRow(t0, t, Key(s, KTunnel))
    requires var p, made, rest := Established(faults), WithTunnel(c0, TunnelName(s)), Rest(Rest(faults));
             && (Key(s, KTunnel) in t <==> p.saved)
             && (p.going ==> c == made)
             && (Coming(faults) != Fine ==> c == if p.made then made else c0)
             && (Coming(faults) == Fine && !p.going ==>
                   c == if Coming(rest) == Refused then made else WithoutTunnel(made, c0.nextId))
    ensures TunnelFollows(Established(faults), t0, t, c0, c, s)
  {
    hide TunnelName;
    var made := WithTunnel(c0, TunnelName(s));
    assert c0.nextId in made.tunnels;
    if !Established(faults).saved {
      assert t == t0;
      PutThenDrop(c0.tunnels, c0.nextId, Tunnel(TunnelName(s), true, Unset));
      assert made.tunnels[c0.nextId].name == TunnelName(s);
    }
  }

  lemma TunnelIdFresh(sv: Services, t: Table, c: Cloud, digest: string -> string)
    requires Reconciled(sv, t, c, digest)
    ensures c.nextId !in c.tunnels
  {
  }

  lemma EstablishPlays(faults: seq<Fault>)
    ensures Play([Look, Establish], faults) == if Coming(faults) == Fine then Established(Rest(faults))
                                               else Played(false, false, false, Rest(faults))
  {
    PutPlays(Establish, faults);
  }

  lemma TunnelPlays(zone: Zone, c: Cloud, svc: Service, faults: seq<Fault>)
    ensures var p := Play(TunnelPlan(zone, c, svc), faults);
            if && zone.hasAccount && svc.protocol == "tcp" && TunnelProtocolAllowed(Protocol(svc))
               && DnsFree(c.dns, svc.entry, svc.id) && Coming(faults) == Fine
            then p == Play([Look, Establish], Rest(faults))
            else !p.saved && !p.made
  {
    hide DnsFree;
    hide Play;
    hide Established;
    StopPlays(faults);
    assert [Look, Look, Establish] == [Look] + [Look, Establish];
    PlayNext(Look, [Look, Establish], faults);
  }

  // ----- Spectrum

  /** The application and its row went where the plan leads. */
  ghost predicate AppFollows(p: Played, t0: Table, t: Table, c0: Cloud, c: Cloud, s: string) {
    && t0.Keys <= t.Keys && c == c0.(nextId := c.nextId, apps := c.apps)
    && if p.saved then Key(s, KSpectrum) in t
       else t == t0 && (c.apps.Keys <= c0.apps.Keys <==> !p.made)
  }

  lemma AppOnlyFollows(p: Played, t0: Table, t: Table, c0: Cloud, c: Cloud, s: string)
    requires AppFollows(p, t0, t, c0, c, s)
    ensures Follows(p, t0, t, c0, c, s) && Silent(c0, c)
  {
    hide Named;
    hide Marked;
    hide Ruled;
  }

  /** The ends of a create: the application stays unless it is undone. */
  lemma AppEnds(c: Cloud, t: Table, app: SpectrumApp, s: string, row: Resource, faults: seq<Fault>)
    requires c.nextId !in c.apps
    ensures var p, made, u := Established(faults), WithApp(c, app), t[Key(s, KSpectrum) := row];
            var gone, rest := WithoutApp(made, c.nextId), Rest(faults);
            if Coming(faults) == Refused then AppFollows(p, t, t, c, c, s)
            else if Coming(faults) != Fine then AppFollows(p, t, t, c, made, s)
            else if Coming(rest) == Fine then AppFollows(p, t, u, c, made, s)
            else AppFollows(p, t, if Coming(rest) == Refused then t else u, c,
                            if Coming(Rest(rest)) == Refused then made else gone, s)
  {
    assert c.nextId in WithApp(c, app).apps;
    PutThenDrop(c.apps, c.nextId, app);
  }

  lemma LooksPlay(faults: seq<Fault>)
    ensures var p := Play([Look, Look, Look], faults);
            && !p.saved && !p.made
            && (p.going <==> && Coming(faults) == Fine && Coming(Rest(faults)) == Fine
                             && Coming(Rest(Rest(faults))) == Fine)
            && (p.going ==> p.rest == Rest(Rest(Rest(faults))))
  {
    hide Play;
    assert [Look, Look, Look] == [Look] + [Look, Look];
    PlayNext(Look, [Look, Look], faults);
    PutPlays(Look, Rest(faults));
  }

  lemma SpectrumPlays(t: Table, c: Cloud, svc: Service, faults: seq<Fault>)
    ensures var p, looks := Play(SpectrumPlan(t, c, svc), faults), Play([Look, Look, Look], faults);
            if && 1 <= svc.edgePort <= 65535 && AppsFit(t, c, svc) && |c.apps| <= PAGE_LIMIT * 50 && looks.going
            then p == Established(looks.rest) else !p.saved && !p.made
  {
    hide AppsFit;
    hide Play;
    hide Established;
    StopPlays(faults);
    LooksPlay(faults);
    assert [Look, Look, Look, Establish] == [Look, Look, Look] + [Establish];
    PlayBoth([Look, Look, Look], [Establish], faults);
    PlayOne(Establish, Play([Look, Look, Look], faults).rest);
  }

  // ----- Workers

  lemma SixLooksPlay(faults: seq<Fault>)
    ensures var p, four := Play(SIX_LOOKS, faults), Rest(Rest(Rest(Rest(faults))));
            && !p.saved && !p.made
            && (p.going <==> && Coming(faults) == Fine && Coming(Rest(faults)) == Fine
                             && Coming(Rest(Rest(faults))) == Fine && Coming(Rest(Rest(Rest(faults)))) == Fine
                             && Play([Look, Look], four).going)
            && (p.going ==> p.rest == Play([Look, Look], four).rest)
  {
    hide Play;
    assert SIX_LOOKS == [Look, Look] + ([Look, Look] + [Look, Look]);
    PlayBoth([Look, Look], [Look, Look] + [Look, Look], faults);
    PutPlays(Look, faults);
    PlayBoth([Look, Look], [Look, Look], Rest(Rest(faults)));
    PutPlays(Look, Rest(Rest(faults)));
    PutPlays(Look, Rest(Rest(Rest(Rest(faults)))));
  }

  lemma WorkerPlays(zone: Zone, digest: string -> string, t: Table, c: Cloud, svc: Service, faults: seq<Fault>)
    ensures var p, looks := Play(WorkerPlan(zone, digest, t, c, svc), faults), Play(SIX_LOOKS, faults);
            if && zone.hasAccount && svc.protocol == "tcp" && HostInZone(svc.origin, zone.name)
               && svc.origin != svc.entry && WorkerFits(digest, t, c, svc) && looks.going
            then p == One(Save, looks.rest) else !p.saved && !p.made
  {
    hide WorkerFits;
    hide HostInZone;
    hide Play;
    StopPlays(faults);
    SixLooksPlay(faults);
    SavePlays(SIX_LOOKS, faults);
  }

  /** The first row of a Worker comes before anything is written. */
  lemma WorkerFollows(zone: Zone, digest: string -> string, t0: Table, t: Table, c0: Cloud, c: Cloud, svc: Service,
                      faults: seq<Fault>, rest: seq<Fault>)
    requires var p := Play(SIX_LOOKS, faults); p.going && rest == p.rest
    requires && zone.hasAccount && svc.protocol == "tcp" && HostInZone(svc.origin, zone.name) && svc.origin != svc.entry
             && WorkerFits(digest, t0, c0, svc)
    requires t0.Keys <= t.Keys
    requires if Coming(rest) == Refused then t == t0 && c == c0 else Key(svc.id, KWorkerDns) in t
    ensures Follows(Play(WorkerPlan(zone, digest, t0, c0, svc), faults), t0, t, c0, c, svc.id)
    ensures Unrowed(t, svc.id) ==> Silent(c0, c)
  {
    hide WorkerFits;
    hide HostInZone;
    hide Play;
    hide WorkerPlan;
    hide Named;
    hide Marked;
    hide Ruled;
    WorkerPlays(zone, digest, t0, c0, svc, faults);
  }

  // ----- every mode

  lemma ValidTargets(svc: Service)
    requires ServiceValid(svc)
    ensures TargetsValid(svc)
  {
  }

  lemma SyncPlays(zone: Zone, digest: string -> string, t: Table, c: Cloud, svc: Service, faults: seq<Fault>)
    requires TargetsValid(svc)
    ensures var p, mode := Play(SyncPlan(zone, digest, t, c, svc), faults), ModePlan(zone, digest, t, c, svc);
            if ZoneMatches(zone) && Coming(faults) == Fine && Coming(Rest(faults)) == Fine
            then p == Play(mode, Rest(Rest(faults)))
            else !p.saved && !p.made
    ensures var rest := Rest(Rest(faults)); Play([Stop], rest) == Played(false, false, false, rest)
  {
    hide Play;
    hide ModePlan;
    hide TargetsValid;
    hide ZoneMatches;
    StopPlays(faults);
    StopPlays(Rest(Rest(faults)));
    PlayBoth([Look, Look], ModePlan(zone, digest, t, c, svc), faults);
    PutPlays(Look, faults);
  }

  // ----- what stays without a row

  /** A write that is lost, or one that is not refused before a row that is. */
  predicate LostOrUnsaved(faults: seq<Fault>) {
    Coming(faults) == Lost || (Coming(faults) != Refused && Coming(Rest(faults)) == Refused)
  }

  /** A create that is lost or comes back without its id, or one whose row and undo are both refused. */
  predicate Abandoned(faults: seq<Fault>) {
    || CreateLost(faults)
    || (Coming(faults) == Fine && Coming(Rest(faults)) == Refused && Coming(Rest(Rest(faults))) == Refused)
  }

  predicate AllFine(faults: seq<Fault>, n: nat) {
    n == 0 || (Coming(faults) == Fine && AllFine(Rest(faults), n - 1))
  }

  function Later(faults: seq<Fault>, n: nat): seq<Fault> { if n == 0 then faults else Later(Rest(faults), n - 1) }

  lemma {:induction false} LooksAreFine(n: nat, faults: seq<Fault>)
    ensures var p := Play(Looks(n), faults);
            !p.saved && !p.made && (p.going <==> AllFine(faults, n)) && (p.going ==> p.rest == Later(faults, n))
  {
    hide Play;
    if n == 0 {
      assert Play([], faults) == Played(true, false, false, faults) by { PlayNothing(faults); }
    } else {
      PlayNext(Look, Looks(n - 1), faults);
      LooksAreFine(n - 1, Rest(faults));
    }
  }

  function Looks(n: nat): seq<Call> { if n == 0 then [] else [Look] + Looks(n - 1) }

  /** dns and proxy: the record is new or changed, and is lost or its row is refused. */
  lemma DirectLeaves(zone: Zone, digest: string -> string, t: Table, c: Cloud, svc: Service, faults: seq<Fault>)
    requires TargetsValid(svc) && (svc.mode == "dns" || svc.mode == "proxy")
    ensures var p := Play(SyncPlan(zone, digest, t, c, svc), faults);
            !p.saved && p.made <==> && ZoneMatches(zone) && DirectCan(zone, c, svc)
                                    && !Stands(c.dns, DirectRecord(svc), svc.id)
                                    && AllFine(faults, 3) && LostOrUnsaved(Later(faults, 3))
  {
    hide Play;
    hide SyncPlan;
    hide RecordPlan;
    hide TargetsValid;
    hide HostsAccepted;
    hide Mapped;
    hide ZoneMatches;
    hide CanHold;
    hide Stands;
    hide ProxyPortAllowed;
    var rest := Rest(Rest(faults));
    SyncPlays(zone, digest, t, c, svc, faults);
    RecordPlays(c.dns, DirectRecord(svc), svc.id, rest);
    SavePlays(RecordPlan(c.dns, DirectRecord(svc), svc.id), rest);
    StopPlays(rest);
    ThreeFine(faults);
  }

  lemma SavedTooLate(faults: seq<Fault>)
    requires faults == [Fine, Fine, Fine, Fine, Refused]
    ensures AllFine(faults, 3) && LostOrUnsaved(Later(faults, 3))
  {
    ThreeFine(faults);
    assert Rest(Rest(Rest(faults))) == [Fine, Refused] && Rest([Fine, Refused]) == [Refused];
  }

  lemma ThreeFine(faults: seq<Fault>)
    ensures var rest := Rest(Rest(faults));
            && (AllFine(faults, 3) <==> Coming(faults) == Fine && Coming(Rest(faults)) == Fine && Coming(rest) == Fine)
            && Later(faults, 3) == Rest(rest)
  {
    var one, two := Rest(faults), Rest(Rest(faults));
    assert AllFine(two, 1) <==> Coming(two) == Fine;
    assert AllFine(one, 2) <==> Coming(one) == Fine && AllFine(two, 1);
    assert Later(faults, 3) == Later(one, 2) == Later(two, 1) == Later(Rest(two), 0);
  }

  /** The reads before a create, and what they have to show: tunnel, warp and spectrum. */
  function ReadsBefore(mode: string): nat { if mode == "warp" then 3 else if mode == "tunnel" then 4 else 5 }

  ghost predicate Starts(zone: Zone, t: Table, c: Cloud, svc: Service)
    requires TargetsValid(svc)
  {
    ZoneMatches(zone) &&
    if svc.mode == "warp" then zone.hasAccount && NetworkOf(svc).Some?
    else if svc.mode == "tunnel" then
      && HostsAccepted(zone, svc) && zone.hasAccount && svc.protocol == "tcp" && TunnelProtocolAllowed(Protocol(svc))
      && DnsFree(c.dns, svc.entry, svc.id)
    else
      && HostsAccepted(zone, svc) && Mapped(svc) && 1 <= svc.edgePort <= 65535 && AppsFit(t, c, svc)
      && |c.apps| <= PAGE_LIMIT * 50
  }

  /** tunnel, warp and spectrum: the created object is abandoned. */
  lemma CreateLeaves(zone: Zone, digest: string -> string, t: Table, c: Cloud, svc: Service, faults: seq<Fault>)
    requires TargetsValid(svc) && (svc.mode == "tunnel" || svc.mode == "warp" || svc.mode == "spectrum")
    ensures var p, n := Play(SyncPlan(zone, digest, t, c, svc), faults), ReadsBefore(svc.mode);
            !p.saved && p.made <==> Starts(zone, t, c, svc) && AllFine(faults, n) && Abandoned(Later(faults, n))
  {
    hide Play;
    hide SyncPlan;
    hide TargetsValid;
    hide NetworkOf;
    hide HostsAccepted;
    hide Mapped;
    hide ZoneMatches;
    hide AppsFit;
    hide DnsFree;
    hide AllFine;
    hide Later;
    var rest, n := Rest(Rest(faults)), ReadsBefore(svc.mode);
    SyncPlays(zone, digest, t, c, svc, faults);
    StopPlays(rest);
    TwoMore(faults, n - 2);
    LooksAreFine(n - 2, rest);
    FewLooks();
    PlayBoth(Looks(n - 2), [Establish], rest);
    PlayOne(Establish, Later(rest, n - 2));
  }

  lemma FewLooks()
    ensures Looks(1) + [Establish] == [Look, Establish]
    ensures Looks(2) + [Establish] == [Look, Look, Establish]
    ensures Looks(3) + [Establish] == [Look, Look, Look, Establish]
  {
    assert Looks(1) == [Look] && Looks(2) == [Look] + Looks(1) && Looks(3) == [Look] + Looks(2);
  }

  lemma TwoMore(faults: seq<Fault>, n: nat)
    ensures var rest := Rest(Rest(faults));
            && (AllFine(faults, n + 2) <==> Coming(faults) == Fine && Coming(Rest(faults)) == Fine && AllFine(rest, n))
            && Later(faults, n + 2) == Later(rest, n)
  {
    assert AllFine(Rest(faults), n + 1) <==> Coming(Rest(faults)) == Fine && AllFine(Rest(Rest(faults)), n);
    assert Later(Rest(faults), n + 1) == Later(Rest(Rest(faults)), n);
  }

  /** workers: nothing is written before the first row. */
  lemma WorkerLeavesNothing(zone: Zone, digest: string -> string, t: Table, c: Cloud, svc: Service, faults: seq<Fault>)
    requires TargetsValid(svc) && svc.mode == "workers"
    ensures !Play(SyncPlan(zone, digest, t, c, svc), faults).made
  {
    hide Play;
    hide SyncPlan;
    hide TargetsValid;
    hide HostsAccepted;
    hide Mapped;
    hide ZoneMatches;
    hide WorkerPlan;
    SyncPlays(zone, digest, t, c, svc, faults);
    StopPlays(Rest(Rest(faults)));
    WorkerPlays(zone, digest, t, c, svc, Rest(Rest(faults)));
  }

  /** redirect: something was written at its records or its rule, and the row was not reached or was refused. */
  lemma RedirectLeaves(zone: Zone, digest: string -> string, t: Table, c: Cloud, svc: Service, faults: seq<Fault>)
    requires TargetsValid(svc) && svc.mode == "redirect"
    ensures var p := Play(SyncPlan(zone, digest, t, c, svc), faults);
            var dns := Play(RedirectDnsPlan(c.dns, svc), Later(faults, 2));
            var rule := Play(RulePlan(c), dns.rest);
            !p.saved && p.made <==>
              && ZoneMatches(zone) && HostsAccepted(zone, svc) && Mapped(svc) && AllFine(faults, 2)
              && if dns.going && RuleBuilt(svc)
                 then (dns.made || rule.made) && (rule.going ==> Coming(rule.rest) == Refused) else dns.made
  {
    hide Play;
    hide SyncPlan;
    hide RedirectDnsPlan;
    hide RulePlan;
    hide TargetsValid;
    hide HostsAccepted;
    hide Mapped;
    hide ZoneMatches;
    hide RuleBuilt;
    var rest, first := Rest(Rest(faults)), RedirectDnsPlan(c.dns, svc);
    SyncPlays(zone, digest, t, c, svc, faults);
    TwoMore(faults, 0);
    StopPlays(rest);
    RedirectDnsPlays(c.dns, svc, rest);
    var dns := Play(first, rest);
    PlayBoth(first, RulePlan(c) + [Save], rest);
    PlayBoth(first, [Stop], rest);
    StopPlays(dns.rest);
    SavePlays(RulePlan(c), dns.rest);
    RulePlays(c, dns.rest);
  }

  /** Without a fault, only a redirect leaves anything: its entry record when the origin is taken, or its records when
      no rule can be built. */
  lemma FaultFreeLeaves(zone: Zone, digest: string -> string, t: Table, c: Cloud, svc: Service)
    requires TargetsValid(svc)
    ensures var p := Play(SyncPlan(zone, digest, t, c, svc), []);
            !p.saved && p.made <==> && ZoneMatches(zone) && HostsAccepted(zone, svc) && Mapped(svc)
                                    && svc.mode == "redirect" && svc.manageDns && HalfRedirected(c.dns, svc)
  {
    hide Play;
    hide SyncPlan;
    hide RulePlan;
    hide TargetsValid;
    hide HostsAccepted;
    hide Mapped;
    hide ZoneMatches;
    hide CanHold;
    hide Stands;
    hide DirectCan;
    hide Starts;
    hide RecordPlan;
    hide RedirectDnsPlan;
    hide ModePlan;
    FineForever();
    if svc.mode == "redirect" {
      RedirectLeaves(zone, digest, t, c, svc, []);
      RedirectDnsPlays(c.dns, svc, []);
      RecordPlays(c.dns, EntryAddress(svc), svc.id, []);
      RecordPlays(c.dns, OriginAddress(svc), svc.id, []);
      RulePlays(c, []);
    } else if svc.mode == "dns" || svc.mode == "proxy" {
      DirectLeaves(zone, digest, t, c, svc, []);
    } else if svc.mode == "tunnel" || svc.mode == "warp" || svc.mode == "spectrum" {
      CreateLeaves(zone, digest, t, c, svc, []);
    } else if svc.mode == "workers" {
      WorkerLeavesNothing(zone, digest, t, c, svc, []);
    } else {
      OtherLeavesNothing(zone, digest, t, c, svc, []);
    }
  }

  lemma FineForever()
    ensures forall n: nat :: AllFine([], n) && Later([], n) == []
  {
    forall n: nat ensures AllFine([], n) && Later([], n) == [] {
      FineUpTo(n);
    }
  }

  lemma FineUpTo(n: nat)
    ensures AllFine([], n) && Later([], n) == []
  {
  }

  lemma OtherLeavesNothing(zone: Zone, digest: string -> string, t: Table, c: Cloud, svc: Service, faults: seq<Fault>)
    requires TargetsValid(svc)
    requires svc.mode !in {"redirect", "dns", "proxy", "tunnel", "warp", "spectrum", "workers"}
    ensures !Play(SyncPlan(zone, digest, t, c, svc), faults).made
  {
    hide Play;
    hide SyncPlan;
    hide TargetsValid;
    hide HostsAccepted;
    hide Mapped;
    hide ZoneMatches;
    SyncPlays(zone, digest, t, c, svc, faults);
    StopPlays(Rest(Rest(faults)));
  }

  ghost predicate HalfRedirected(dns: map<Id, DnsRecord>, svc: Service) {
    var entry, origin := EntryAddress(svc), OriginAddress(svc);
    && CanHold(dns, entry, svc.id)
    && if svc.origin != "" && !CanHold(dns, origin, svc.id) then !Stands(dns, entry, svc.id)
       else !RuleBuilt(svc) && (!Stands(dns, entry, svc.id) || (svc.origin != "" && !Stands(dns, origin, svc.id)))
  }

  // ----- what stays after a cleanup

  /** What a cleanup leaves: marks that the mode does not sweep, and tunnels that no row names. */
  ghost predicate Unswept(t: Table, c: Cloud, svc: Service) {
    || (!SweepsDns(svc) && Marked(c.dns, svc.id))
    || (!SweepsRules(t, svc) && Ruled(c.rules, svc.id))
    || Strays(t, c.tunnels, svc.id) != {}
  }

  lemma SweptTunnels(tunnels: map<Id, Tunnel>, t: Table, s: string)
    requires TunnelRecords(t, tunnels) && 0 !in tunnels
    ensures Named(tunnels - {RowId(t, s, KTunnel)}, s) <==> Strays(t, tunnels, s) != {}
  {
    hide TunnelName;
    var left := tunnels - {RowId(t, s, KTunnel)};
    if Named(left, s) {
      var id :| id in left && left[id].name == TunnelName(s);
      assert id in Strays(t, tunnels, s);
    }
    if id :| id in Strays(t, tunnels, s) {
      assert id in left && left[id].name == TunnelName(s);
    }
  }

  lemma TunnelsKnown(sv: map<string, Service>, t: Table, c: Cloud, digest: string -> string)
    requires Reconciled(sv, t, c, digest)
    ensures TunnelRecords(t, c.tunnels) && 0 !in c.tunnels
  {
  }

  lemma SweptTraces(t: Table, c: Cloud, digest: string -> string, svc: Service)
    requires TunnelRecords(t, c.tunnels) && 0 !in c.tunnels
    ensures Traces(c, Swept(digest, t, c, svc), svc.id) <==> Unswept(t, c, svc)
  {
    hide TunnelRecords;
    hide Named;
    hide Strays;
    hide Mark;
    hide RuleRef;
    hide WorkerName;
    hide SweepsDns;
    hide SweepsRules;
    hide RowId;
    var s, w := svc.id, Swept(digest, t, c, svc);
    SweptTunnels(c.tunnels, t, s);
    assert Marked(w.dns, s) <==> !SweepsDns(svc) && Marked(c.dns, s);
    assert Ruled(w.rules, s) <==> !SweepsRules(t, svc) && Ruled(c.rules, s);
  }

  // ----- modes whose rows come first

  /** A record with the mark is one that a cleanup sweeps, and a row shows that there is something to clean. */
  ghost predicate Accounted(svc: Service, t: Table, c: Cloud) {
    Marked(c.dns, svc.id) ==> SweepsDns(svc) && !Unrowed(t, svc.id)
  }

  lemma SyncAccounts(p: Played, svc: Service, t0: Table, t: Table, c0: Cloud, c: Cloud)
    requires Follows(p, t0, t, c0, c, svc.id) && (RowsFirst(svc.mode) && Unrowed(t, svc.id) ==> Silent(c0, c))
    requires svc.mode == "warp" || svc.mode == "spectrum" ==> c.dns == c0.dns
    ensures RowsFirst(svc.mode) && Accounted(svc, t0, c0) ==> Accounted(svc, t, c)
  {
    hide Marked;
    hide Ruled;
    hide Named;
    if Unrowed(t, svc.id) {
      forall k | k in t0 ensures k.owner != svc.id {
        assert k in t;
      }
    }
  }

  lemma CleanupAccounts(digest: string -> string, svc: Service, t0: Table, t: Table, c0: Cloud, c: Cloud)
    requires Trimmed(digest, t0, c0, c, svc.id) && (t == t0 || c == Swept(digest, t0, c0, svc))
    ensures Accounted(svc, t0, c0) ==> Accounted(svc, t, c)
  {
    hide Mark;
    hide RuleRef;
    hide WorkerName;
    hide SweepsRules;
  }
}
