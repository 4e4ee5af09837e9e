/** The publisher of internal/cloudflare/publisher.go, private_network.go, reconciler.go and workers.go: every remote
    call and every table write may be refused, may take effect and still report failure, or may take effect without
    returning the new id. A crash is the case in which every later call is refused. */
module Publishing {
  import opened Basics
  import opened Cidr
  import opened Account
  import opened Pagination
  import opened Contracts
  import opened Steps
  import opened Faults
  import opened Plans
  import opened Runs
  import opened Recovery

  datatype Outcome = Synced(result: SyncResult) | Rejected

  datatype Status = Ok | NotFound | Failed

  class Publisher {
    const zone: Zone
    const digest: string -> string
    var services: map<string, Service>
    var table: Table
    var cloud: Cloud
    var oracle: seq<Fault>            // faults of the calls to come; no fault after its end
    ghost var trouble: nat            // faults met so far
    ghost var mishaps: multiset<string>  // services of lost creates and failed undos

    ghost predicate Valid()
      reads this
    {
      && Reconciled(services, table, cloud, digest) && ReadableRoutes(cloud.routes)
      && StraysExplained(table, cloud.tunnels, mishaps) && |mishaps| <= trouble
    }

    ghost predicate Registered(svc: Service)
      reads this
    {
      svc.id in services && services[svc.id] == svc && ServiceValid(svc)
    }

    constructor (zone: Zone, digest: string -> string, services: map<string, Service>, table: Table, cloud: Cloud,
                 oracle: seq<Fault>)
      requires Reconciled(services, table, cloud, digest) && ReadableRoutes(cloud.routes)
      requires forall s :: Strays(table, cloud.tunnels, s) == {}
      ensures Valid() && this.zone == zone && this.digest == digest && this.services == services
      ensures this.table == table && this.cloud == cloud && this.oracle == oracle && trouble == 0
    {
      this.zone, this.digest, this.services := zone, digest, services;
      this.table, this.cloud, this.oracle := table, cloud, oracle;
      trouble, mishaps := 0, multiset{};
    }

    // ----- single calls

    method Draw() returns (f: Fault)
      modifies `oracle, `trouble
      ensures trouble == old(trouble) + if f == Fine then 0 else 1
      ensures f == Coming(old(oracle)) && oracle == Rest(old(oracle))
      ensures old(oracle) == [] ==> oracle == [] && trouble == old(trouble)
    {
      f := if oracle == [] then Fine else oracle[0];
      oracle := if oracle == [] then [] else oracle[1..];
      trouble := trouble + if f == Fine then 0 else 1;
    }

    method Read() returns (ok: bool)
      modifies `oracle, `trouble
      ensures trouble >= old(trouble) && (ok <==> trouble == old(trouble))
      ensures (ok <==> Coming(old(oracle)) == Fine) && oracle == Rest(old(oracle))
      ensures old(oracle) == [] ==> oracle == [] && trouble == old(trouble)
    {
      var f := Draw();
      ok := f == Fine;
    }

    /** The complete inventory, page by page in some order of the server; a fault breaks off at the first page. */
    method List(ids: set<Id>, perPage: nat) returns (r: Listing<Id>)
      requires perPage > 0
      modifies `oracle, `trouble
      ensures trouble >= old(trouble)
      ensures r.Complete? <==> trouble == old(trouble) && |ids| <= PAGE_LIMIT * perPage
      ensures r.Complete? ==> forall x :: x in r.items <==> x in ids
      ensures r.Complete? <==> Coming(old(oracle)) == Fine && |ids| <= PAGE_LIMIT * perPage
      ensures oracle == Rest(old(oracle))
      ensures old(oracle) == [] ==> oracle == [] && trouble == old(trouble)
    {
      var ok := Read();
      var order := Enumerate(ids);
      r := ListAll(Server(order, true, if ok then {} else {1}), perPage);
    }

    method Remote(next: Cloud) returns (f: Fault)
      modifies `cloud, `oracle, `trouble
      ensures trouble == old(trouble) + if f == Fine then 0 else 1
      ensures f == Coming(old(oracle)) && oracle == Rest(old(oracle))
      ensures cloud == if f == Refused then old(cloud) else next
      ensures old(oracle) == [] ==> oracle == [] && trouble == old(trouble)
    {
      f := Draw();
      if f != Refused {
        cloud := next;
      }
    }

    /** A remote write whose reply carries nothing the caller needs. */
    method Write(next: Cloud) returns (ok: bool)
      modifies `cloud, `oracle, `trouble
      ensures trouble >= old(trouble) && (trouble == old(trouble) ==> ok)
      ensures (ok <==> Coming(old(oracle)) == Fine || Coming(old(oracle)) == Blanked) && oracle == Rest(old(oracle))
      ensures cloud == if Coming(old(oracle)) == Refused then old(cloud) else next
      ensures old(oracle) == [] ==> oracle == [] && trouble == old(trouble)
    {
      var f := Remote(next);
      ok := f == Fine || f == Blanked;
    }

    method Persist(next: Table) returns (ok: bool)
      modifies `table, `oracle, `trouble
      ensures trouble >= old(trouble) && (ok <==> trouble == old(trouble))
      ensures (ok <==> Coming(old(oracle)) == Fine) && oracle == Rest(old(oracle))
      ensures table == if Coming(old(oracle)) == Refused then old(table) else next
      ensures old(oracle) == [] ==> oracle == [] && trouble == old(trouble)
    {
      var f := Draw();
      if f != Refused {
        table := next;
      }
      ok := f == Fine;
    }

    method ClientFor() returns (ok: bool)
      modifies `oracle, `trouble
      ensures trouble >= old(trouble)
      ensures ok <==> trouble == old(trouble) && ZoneMatches(zone)
      ensures ok <==> Coming(old(oracle)) == Fine && Coming(Rest(old(oracle))) == Fine && ZoneMatches(zone)
      ensures ok ==> oracle == Rest(Rest(old(oracle)))
      ensures old(oracle) == [] ==> oracle == [] && trouble == old(trouble)
    {
      ok := Read();
      if ok {
        ok := Read();
      }
      ok := ok && ZoneMatches(zone);
    }

    // ----- DNS

    /** ownedDNS: the single record of the hostname if it is ours, 0 if there is none. */
    method OwnedDns(name: string, s: string) returns (ok: bool, d: Id)
      requires Reconciled(services, table, cloud, digest)
      modifies `oracle, `trouble
      ensures trouble >= old(trouble)
      ensures ok ==> DnsFree(cloud.dns, name, s)
      ensures trouble == old(trouble) && DnsFree(cloud.dns, name, s) ==> ok
      ensures (ok <==> Coming(old(oracle)) == Fine && DnsFree(cloud.dns, name, s)) && oracle == Rest(old(oracle))
      ensures ok && d != 0 ==> d in cloud.dns && cloud.dns[d].name == name && cloud.dns[d].comment == Mark(s)
      ensures ok && d == 0 ==> forall e :: e in cloud.dns ==> cloud.dns[e].name != name
      ensures old(oracle) == [] ==> oracle == [] && trouble == old(trouble)
    {
      d := 0;
      ok := Read();
      if !ok {
        return;
      }
      var records := set e | e in cloud.dns && cloud.dns[e].name == name;
      assert forall e :: e in cloud.dns && cloud.dns[e].name == name ==> e in records;
      if |records| > 1 {
        TwoMembers(records);
        return false, 0;
      }
      if records != {} {
        d :| d in records;
        OnlyMember(records, d);
        if cloud.dns[d].comment != Mark(s) {
          return false, 0;
        }
      }
    }

    /** ensureRecord: create the record, bring ours up to date, or refuse. */
    method EnsureRecord(s: string, record: DnsRecord, ghost t0: Table) returns (ok: bool)
      requires Valid() && record.comment == Mark(s) && CnameAllowed(services, table, cloud, s, record)
      modifies `cloud, `oracle, `trouble
      ensures Valid() && trouble >= old(trouble)
      ensures cloud == old(cloud).(nextId := cloud.nextId, dns := cloud.dns)
      ensures Respects(s, digest, t0, old(cloud), cloud)
      ensures ok ==> CanHold(old(cloud).dns, record, s) && Stands(cloud.dns, record, s)
      ensures trouble == old(trouble) && CanHold(old(cloud).dns, record, s) ==> ok
      ensures Stands(old(cloud).dns, record, s) ==> cloud == old(cloud)
      ensures SameElsewhere(old(cloud).dns, cloud.dns, record.name)
      ensures var p := Play(RecordPlan(old(cloud).dns, record, s), old(oracle));
              ok == p.going && (ok ==> oracle == p.rest) && DnsFollows(p, old(cloud).dns, cloud.dns, s)
      ensures old(oracle) == [] ==> oracle == [] && trouble == old(trouble)
    {
      hide Reconciled;
      hide Respects;
      hide StraysExplained;
      hide IdsBelow;
      hide Play;
      hide RecordPlan;
      hide Marked;
      hide Mark;
      hide CnameAllowed;
      hide DnsFree;
      hide CanHold;
      hide Stands;
      hide WithRecord;
      hide WithPatch;
      hide SameElsewhere;
      RespectsSelf(s, digest, t0, cloud);
      SameSelf(cloud.dns, record.name);
      HoldsIfFree(cloud.dns, record, s);
      RecordPlays(cloud.dns, record, s, oracle);
      RecordMarks(cloud, record, s);
      var d;
      ok, d := OwnedDns(record.name, s);
      if !ok {
        return;
      }
      if d == 0 {
        IdsOf(services, table, cloud, digest);
        IdsFresh(cloud);
        FreshRecord(cloud, record, s);
        ok := CreateRecord(s, record, t0);
      } else {
        OwnRecord(cloud, d, record, s);
        var current := cloud.dns[d];
        if current.kind == record.kind && current.content == record.content && current.proxied == record.proxied {
          return;
        }
        if current.kind != record.kind {
          return false;
        }
        ok := PatchRecord(s, d, record, t0);
      }
    }

    method CreateRecord(s: string, record: DnsRecord, ghost t0: Table) returns (ok: bool)
      requires Valid() && record.comment == Mark(s) && CnameAllowed(services, table, cloud, s, record)
      requires forall e :: e in cloud.dns ==> cloud.dns[e].name != record.name
      modifies `cloud, `oracle, `trouble
      ensures Valid() && trouble >= old(trouble) && (trouble == old(trouble) ==> ok)
      ensures (ok <==> One(Put, old(oracle)).going) && oracle == Rest(old(oracle))
      ensures cloud == if One(Put, old(oracle)).made then WithRecord(old(cloud), record) else old(cloud)
      ensures cloud == old(cloud).(nextId := cloud.nextId, dns := cloud.dns)
      ensures Respects(s, digest, t0, old(cloud), cloud)
      ensures old(oracle) == [] ==> oracle == [] && trouble == old(trouble)
    {
      hide Reconciled;
      hide Respects;
      hide StraysExplained;
      hide ReadableRoutes;
      hide IdsBelow;
      hide CnameAllowed;
      RespectsSelf(s, digest, t0, cloud);
      RecordCreated(services, table, cloud, digest, s, record);
      IdsOf(services, table, cloud, digest);
      RecordCreatedFrame(s, digest, t0, cloud, record);
      ok := Write(WithRecord(cloud, record));
    }

    method PatchRecord(s: string, d: Id, record: DnsRecord, ghost t0: Table) returns (ok: bool)
      requires Valid() && record.comment == Mark(s) && CnameAllowed(services, table, cloud, s, record)
      requires d in cloud.dns && cloud.dns[d].name == record.name && cloud.dns[d].comment == Mark(s)
      requires DnsFree(cloud.dns, record.name, s)
      modifies `cloud, `oracle, `trouble
      ensures Valid() && trouble >= old(trouble) && (trouble == old(trouble) ==> ok)
      ensures (ok <==> One(Put, old(oracle)).going) && oracle == Rest(old(oracle))
      ensures cloud == if One(Put, old(oracle)).made then WithPatch(old(cloud), d, record) else old(cloud)
      ensures cloud == old(cloud).(nextId := cloud.nextId, dns := cloud.dns)
      ensures Respects(s, digest, t0, old(cloud), cloud)
      ensures old(oracle) == [] ==> oracle == [] && trouble == old(trouble)
    {
      hide Reconciled;
      hide Respects;
      hide StraysExplained;
      hide ReadableRoutes;
      hide IdsBelow;
      hide CnameAllowed;
      hide DnsFree;
      RespectsSelf(s, digest, t0, cloud);
      RecordPatched(services, table, cloud, digest, s, d, record);
      RecordPatchedFrame(s, digest, t0, cloud, d, record);
      ok := Write(WithPatch(cloud, d, record));
    }

    // ----- tunnels

    /** The tunnel of the service, read back by its recorded id or created and recorded; 0 on failure. */
    method AcquireTunnel(svc: Service, ghost t0: Table) returns (id: Id)
      requires Valid() && Registered(svc)
      modifies `table, `cloud, `oracle, `trouble, `mishaps
      ensures Valid() && trouble >= old(trouble)
      ensures cloud == old(cloud).(nextId := cloud.nextId, tunnels := cloud.tunnels)
      ensures Respects(svc.id, digest, t0, old(cloud), cloud) && OwnRows(svc.id, old(table), table, old(cloud).nextId)
      ensures OneRow(old(table), table, Key(svc.id, KTunnel))
      ensures id != 0 ==>
                TunnelUsable(old(table), old(cloud).tunnels, svc.id) && TunnelHeld(table, cloud.tunnels, svc.id, id)
      ensures trouble == old(trouble) && TunnelUsable(old(table), old(cloud).tunnels, svc.id) ==> id != 0
      ensures Key(svc.id, KTunnel) in old(table) ==> table == old(table) && cloud == old(cloud)
      ensures id != 0 && Key(svc.id, KTunnel) !in old(table) ==>
                id == old(cloud).nextId && cloud == WithTunnel(old(cloud), TunnelName(svc.id))
      ensures mishaps == old(mishaps) + Charge(svc.id, Key(svc.id, KTunnel) !in old(table) &&
                                                       Coming(old(oracle)) == Fine && EstablishFails(Rest(old(oracle))))
      ensures Charged(old(mishaps), mishaps, svc.id, trouble - old(trouble)) && (id != 0 ==> mishaps == old(mishaps))
      ensures old(oracle) == [] ==> oracle == [] && trouble == old(trouble)
      ensures TunnelFollows(Play([Look, Establish], old(oracle)), old(table), table, old(cloud), cloud, svc.id)
      ensures Key(svc.id, KTunnel) !in old(table) && id != 0 ==> Play([Look, Establish], old(oracle)).saved
      ensures old(table).Keys <= table.Keys
      ensures id != 0 && Key(svc.id, KTunnel) !in old(table) ==>
                table == old(table)[Key(svc.id, KTunnel) := Resource(Object(id), Host(svc.entry))]
    {
      hide Reconciled;
      hide Respects;
      hide StraysExplained;
      hide OwnRows;
      hide OneRow;
      hide TunnelUsable;
      hide TunnelHeld;
      hide TunnelFollows;
      hide Established;
      hide Play;
      RespectsSelf(svc.id, digest, t0, cloud);
      OwnRowsSelf(svc.id, table, cloud.nextId);
      OneRowSelf(table, Key(svc.id, KTunnel));
      EstablishPlays(oracle);
      ghost var rows, c0, faults := table, cloud, oracle;
      if Key(svc.id, KTunnel) in table {
        TunnelRecordedFollows(Play([Look, Establish], oracle), table, table, cloud, cloud, svc.id);
      } else if Coming(oracle) != Fine {
        TunnelStays(Play([Look, Establish], oracle), table, cloud, svc.id);
      }
      var ok := Read();
      if !ok {
        TunnelFrameSelf(cloud);
        return 0;
      }
      if Key(svc.id, KTunnel) in table {
        TunnelFrameSelf(cloud);
        id := ReadTunnel(svc.id);
      } else {
        TunnelUsableFresh(table, cloud.tunnels, svc.id);
        id := EstablishTunnel(svc, t0);
      }
    }

    /** A recorded tunnel must still carry our name and be managed remotely. */
    method ReadTunnel(s: string) returns (id: Id)
      requires Valid() && Key(s, KTunnel) in table
      modifies `oracle, `trouble
      ensures trouble >= old(trouble)
      ensures id != 0 ==> TunnelUsable(table, cloud.tunnels, s) && TunnelHeld(table, cloud.tunnels, s, id)
      ensures trouble == old(trouble) && TunnelUsable(table, cloud.tunnels, s) ==> id != 0
      ensures old(oracle) == [] ==> oracle == [] && trouble == old(trouble)
    {
      hide Reconciled;
      hide StraysExplained;
      TunnelRow(services, table, cloud, digest, s);
      IdsOf(services, table, cloud, digest);
      id := table[Key(s, KTunnel)].remote.id;
      var ok := Read();
      if !ok || id !in cloud.tunnels || cloud.tunnels[id].name != TunnelName(s) || !cloud.tunnels[id].remotelyManaged {
        id := 0;
      }
    }

    /** Create, then record; a create whose record cannot be saved is undone. */
    method EstablishTunnel(svc: Service, ghost t0: Table) returns (id: Id)
      requires Valid() && Registered(svc) && Key(svc.id, KTunnel) !in table
      modifies `table, `cloud, `oracle, `trouble, `mishaps
      ensures Valid() && trouble >= old(trouble) && (trouble == old(trouble) <==> id != 0)
      ensures cloud == old(cloud).(nextId := cloud.nextId, tunnels := cloud.tunnels)
      ensures Respects(svc.id, digest, t0, old(cloud), cloud) && OwnRows(svc.id, old(table), table, old(cloud).nextId)
      ensures OneRow(old(table), table, Key(svc.id, KTunnel))
      ensures id != 0 ==> id == old(cloud).nextId && cloud == WithTunnel(old(cloud), TunnelName(svc.id))
      ensures id != 0 ==> TunnelHeld(table, cloud.tunnels, svc.id, id)
      ensures mishaps == old(mishaps) + Charge(svc.id, EstablishFails(old(oracle)))
      ensures EstablishFails(old(oracle)) ==> id == 0
      ensures old(oracle) == [] ==> oracle == [] && trouble == old(trouble)
      ensures (id != 0 <==> Established(old(oracle)).going) && (id != 0 ==> Established(old(oracle)).saved)
      ensures TunnelFollows(Established(old(oracle)), old(table), table, old(cloud), cloud, svc.id)
      ensures old(table).Keys <= table.Keys
      ensures id != 0 ==>
                table == old(table)[Key(svc.id, KTunnel) := Resource(Object(id), Host(svc.entry))]
    {
      hide Reconciled;
      hide Respects;
      hide StraysExplained;
      hide OwnRows;
      hide OneRow;
      hide TunnelHeld;
      hide CreateLost;
      hide UndoFails;
      hide ServiceValid;
      hide ReadableRoutes;
      hide TunnelName;
      hide Charge;
      hide WithTunnel;
      hide Pending;
      hide Valid;
      hide TunnelFollows;
      hide Named;
      var s := svc.id;
      OwnRowsSelf(s, table, cloud.nextId);
      OneRowSelf(table, Key(s, KTunnel));
      ghost var before, rows, faults := cloud, table, oracle;
      id := CreateTunnel(s, t0);
      if id != 0 {
        var ok := RecordTunnel(svc, id, before, t0);
        id := if ok then id else 0;
      }
      EstablishedFollows(faults, rows, table, before, cloud, s);
    }

    ghost predicate Pending(s: string, id: Id, before: Cloud)
      reads this
    {
      && Reconciled(services, table, cloud, digest) && ReadableRoutes(cloud.routes)
      && StraysExplained(table, before.tunnels, mishaps) && |mishaps| <= trouble
      && id == before.nextId && id > 0 && cloud == WithTunnel(before, TunnelName(s)) && id !in before.tunnels
    }

    method CreateTunnel(s: string, ghost t0: Table) returns (id: Id)
      requires Valid()
      modifies `cloud, `oracle, `trouble, `mishaps
      ensures trouble >= old(trouble) && (trouble == old(trouble) <==> id != 0)
      ensures id == 0 ==> Valid()
      ensures id != 0 ==> Pending(s, id, old(cloud))
      ensures id != 0 ==> id == old(cloud).nextId && cloud == WithTunnel(old(cloud), TunnelName(s))
      ensures cloud == old(cloud).(nextId := cloud.nextId, tunnels := cloud.tunnels)
      ensures cloud == if Coming(old(oracle)) == Refused then old(cloud) else WithTunnel(old(cloud), TunnelName(s))
      ensures mishaps == old(mishaps) + Charge(s, id == 0 && cloud != old(cloud))
      ensures id != 0 ==> mishaps == old(mishaps)
      ensures id == 0 && cloud != old(cloud) <==> CreateLost(old(oracle))
      ensures id != 0 ==> Coming(old(oracle)) == Fine && oracle == Rest(old(oracle))
      ensures id == 0 ==> Coming(old(oracle)) != Fine
      ensures Respects(s, digest, t0, old(cloud), cloud)
      ensures old(oracle) == [] ==> oracle == [] && trouble == old(trouble)
      ensures old(cloud).nextId !in old(cloud).tunnels
    {
      hide Reconciled;
      hide Respects;
      hide StraysExplained;
      RespectsSelf(s, digest, t0, cloud);
      TunnelIdFresh(services, table, cloud, digest);
      TunnelCreated(services, table, cloud, digest, s);
      TunnelCreatedFrame(s, digest, t0, cloud, services, table);
      id := cloud.nextId;
      ghost var before := cloud;
      var f := Remote(WithTunnel(cloud, TunnelName(s)));
      if f == Fine {
        return;
      }
      if f != Refused {
        StrayAfterCreate(table, before.tunnels, mishaps, s, id);
        mishaps := mishaps + multiset{s};
      }
      id := 0;
    }

    method RecordTunnel(svc: Service, id: Id, ghost before: Cloud, ghost t0: Table) returns (ok: bool)
      requires Registered(svc) && Pending(svc.id, id, before) && Key(svc.id, KTunnel) !in table
      requires Respects(svc.id, digest, t0, before, cloud)
      modifies `table, `cloud, `oracle, `trouble, `mishaps
      ensures Valid() && trouble >= old(trouble) && (ok <==> trouble == old(trouble))
      ensures OneRow(old(table), table, Key(svc.id, KTunnel)) && OwnRows(svc.id, old(table), table, before.nextId)
      ensures ok ==> cloud == old(cloud) && TunnelHeld(table, cloud.tunnels, svc.id, id)
      ensures cloud == old(cloud).(tunnels := cloud.tunnels)
      ensures mishaps == old(mishaps) + Charge(svc.id, UndoFails(old(oracle)))
      ensures !ok && !UndoFails(old(oracle)) ==> id !in cloud.tunnels
      ensures UndoFails(old(oracle)) ==> !ok && trouble >= old(trouble) + 2
      ensures Respects(svc.id, digest, t0, before, cloud)
      ensures old(oracle) == [] ==> oracle == [] && trouble == old(trouble)
      ensures (ok <==> Coming(old(oracle)) == Fine) && (ok ==> oracle == Rest(old(oracle)))
      ensures (Key(svc.id, KTunnel) in table <==> Coming(old(oracle)) != Refused) && old(table).Keys <= table.Keys
      ensures !ok ==>
                cloud == if Coming(Rest(old(oracle))) == Refused then old(cloud) else WithoutTunnel(old(cloud), id)
      ensures table == if Coming(old(oracle)) == Refused then old(table)
                       else old(table)[Key(svc.id, KTunnel) := Resource(Object(id), Host(svc.entry))]
    {
      hide Reconciled;
      hide Respects;
      hide StraysExplained;
      hide OwnRows;
      hide OneRow;
      hide ReadableRoutes;
      hide ServiceValid;
      hide TunnelName;
      hide Unconfirmed;
      var s := svc.id;
      var row := Resource(Object(id), Host(svc.entry));
      RowWritten(s, KTunnel, row, table, before.nextId);
      TunnelRecorded(services, table, cloud, digest, s, id, Host(svc.entry));
      CreateAccounted(table, before.tunnels, mishaps, s, id, row);
      ok := Persist(table[Key(s, KTunnel) := row]);
      if ok {
        return;
      }
      UndoTunnel(s, id, before, t0);
    }

    /** The deletion after a failed save; unless it is confirmed, the tunnel may be left behind. */
    method UndoTunnel(s: string, id: Id, ghost before: Cloud, ghost t0: Table)
      requires Reconciled(services, table, cloud, digest) && ReadableRoutes(cloud.routes) && |mishaps| < trouble
      requires id == before.nextId && id !in before.tunnels && cloud == WithTunnel(before, TunnelName(s))
      requires StraysExplained(table, cloud.tunnels - {id}, mishaps)
      requires forall tunnels :: tunnels == cloud.tunnels || tunnels == cloud.tunnels - {id} ==>
                 StraysExplained(table, tunnels, mishaps + multiset{s})
      requires Respects(s, digest, t0, before, cloud)
      modifies `cloud, `oracle, `trouble, `mishaps
      ensures Valid() && trouble >= old(trouble)
      ensures cloud == old(cloud).(tunnels := cloud.tunnels) && Respects(s, digest, t0, before, cloud)
      ensures mishaps == old(mishaps) + Charge(s, Unconfirmed(old(oracle)))
      ensures if Unconfirmed(old(oracle)) then trouble > old(trouble) else id !in cloud.tunnels
      ensures old(oracle) == [] ==> oracle == [] && trouble == old(trouble)
      ensures cloud == if Coming(old(oracle)) == Refused then old(cloud) else WithoutTunnel(old(cloud), id)
    {
      hide Reconciled;
      hide Respects;
      hide StraysExplained;
      hide ReadableRoutes;
      hide TunnelName;
      TunnelDropped(services, table, cloud, digest, s, id);
      UndoneFrame(s, digest, t0, before, id);
      var undone := Write(WithoutTunnel(cloud, id));
      if !undone {
        mishaps := mishaps + multiset{s};
      }
    }

    /** The ingress goes in before anything leads to the tunnel. */
    method PutConfig(svc: Service, id: Id, ghost t0: Table) returns (ok: bool)
      requires Valid() && Registered(svc) && TunnelHeld(table, cloud.tunnels, svc.id, id)
      requires svc.mode == "tunnel" || svc.mode == "warp"
      modifies `cloud, `oracle, `trouble
      ensures Valid() && trouble >= old(trouble) && (trouble == old(trouble) ==> ok)
      ensures cloud == old(cloud).(tunnels := cloud.tunnels)
      ensures Respects(svc.id, digest, t0, old(cloud), cloud) && TunnelHeld(table, cloud.tunnels, svc.id, id)
      ensures ok ==> TunnelStands(table, cloud, svc, id)
      ensures old(TunnelStands(table, cloud, svc, id)) ==> cloud == old(cloud)
      ensures old(oracle) == [] ==> oracle == [] && trouble == old(trouble)
    {
      hide Reconciled;
      hide Respects;
      hide StraysExplained;
      hide ServiceValid;
      hide ReadableRoutes;
      RespectsSelf(svc.id, digest, t0, cloud);
      TunnelConfigured(services, table, cloud, digest, svc.id, id, ConfigOf(svc));
      ConfigFrame(svc.id, digest, t0, table, cloud, id, ConfigOf(svc), mishaps);
      if cloud.tunnels[id].config == ConfigOf(svc) {
        assert WithConfig(cloud, id, ConfigOf(svc)) == cloud;
      }
      ok := Write(WithConfig(cloud, id, ConfigOf(svc)));
    }

    method SyncPublicTunnel(svc: Service) returns (r: Outcome)
      requires Valid() && Registered(svc) && svc.mode == "tunnel" && HostsAccepted(zone, svc)
      modifies `table, `cloud, `oracle, `trouble, `mishaps
      ensures Valid() && trouble >= old(trouble)
      ensures Respects(svc.id, digest, old(table), old(cloud), cloud)
      ensures OwnRows(svc.id, old(table), table, old(cloud).nextId)
      ensures cloud.routes == old(cloud).routes
      ensures r.Synced? ==> TunnelCan(zone, old(table), old(cloud), svc)
      ensures r.Synced? ==> TunnelDone(table, cloud, svc, r.result) && TunnelCan(zone, table, cloud, svc)
      ensures trouble == old(trouble) && TunnelCan(zone, old(table), old(cloud), svc) ==> r.Synced?
      ensures forall x :: old(TunnelDone(table, cloud, svc, x)) ==>
                table == old(table) && cloud == old(cloud) && (r.Synced? ==> r.result == x)
      ensures Charged(old(mishaps), mishaps, svc.id, trouble - old(trouble)) && (r.Synced? ==> mishaps == old(mishaps))
      ensures old(oracle) == [] ==> oracle == [] && trouble == old(trouble)
      ensures Follows(Play(TunnelPlan(zone, old(cloud), svc), old(oracle)),
                      old(table), table, old(cloud), cloud, svc.id)
      ensures Unrowed(table, svc.id) ==> Silent(old(cloud), cloud)
    {
      hide Reconciled;
      hide Respects;
      hide StraysExplained;
      hide ServiceValid;
      hide ReadableRoutes;
      hide OwnRows;
      hide DnsFree;
      hide DnsTypeFits;
      hide HostsAccepted;
      hide TunnelUsable;
      hide TunnelProtocolAllowed;
      hide TunnelStands;
      hide Stands;
      hide CanHold;
      hide Play;
      hide Follows;
      hide TunnelFollows;
      hide TunnelPlan;
      hide Unrowed;
      hide Silent;
      RespectsSelf(svc.id, digest, table, cloud);
      OwnRowsSelf(svc.id, table, cloud.nextId);
      r := Rejected;
      ghost var t0, c0, faults := table, cloud, oracle;
      TunnelPlays(zone, cloud, svc, faults);
      StayFollows(Play(TunnelPlan(zone, cloud, svc), faults), table, cloud, svc.id);
      if zone.hasAccount && svc.protocol == "tcp" && TunnelProtocolAllowed(Protocol(svc)) {
        var ok, d := OwnedDns(svc.entry, svc.id);
        if ok {
          var id := RaiseTunnel(svc);
          TunnelOnlyFollows(Play([Look, Establish], Rest(faults)), t0, table, c0, cloud, svc.id);
          if id != 0 {
            CanHoldIff(old(cloud).dns, CnameRecord(svc, id), svc.id);
            PublicTunnelAgain(zone, table, cloud, svc, id);
            r := Synced(SyncResult(Object(id), 0, 0, Url("https", svc.entry, 0)));
          }
        }
      }
    }

    /** The tunnel, its ingress and its CNAME; 0 on failure. */
    method RaiseTunnel(svc: Service) returns (id: Id)
      requires Valid() && Registered(svc) && svc.mode == "tunnel"
      modifies `table, `cloud, `oracle, `trouble, `mishaps
      ensures Valid() && trouble >= old(trouble) && cloud.routes == old(cloud).routes
      ensures Respects(svc.id, digest, old(table), old(cloud), cloud)
      ensures OwnRows(svc.id, old(table), table, old(cloud).nextId)
      ensures id != 0 ==> TunnelUsable(old(table), old(cloud).tunnels, svc.id)
      ensures id != 0 ==> CanHold(old(cloud).dns, CnameRecord(svc, id), svc.id)
      ensures id != 0 ==> TunnelStands(table, cloud, svc, id) && Stands(cloud.dns, CnameRecord(svc, id), svc.id)
      ensures trouble == old(trouble) ==> DnsFree(old(cloud).dns, svc.entry, svc.id) ==>
              DnsTypeFits(old(cloud).dns, svc.entry, "CNAME") ==>
              TunnelUsable(old(table), old(cloud).tunnels, svc.id) ==> id != 0
      ensures forall x :: old(TunnelStands(table, cloud, svc, x) && Stands(cloud.dns, CnameRecord(svc, x), svc.id)) ==>
                table == old(table) && cloud == old(cloud) && (id != 0 ==> id == x)
      ensures Charged(old(mishaps), mishaps, svc.id, trouble - old(trouble)) && (id != 0 ==> mishaps == old(mishaps))
      ensures old(oracle) == [] ==> oracle == [] && trouble == old(trouble)
      ensures TunnelFollows(Play([Look, Establish], old(oracle)), old(table), table, old(cloud), cloud, svc.id)
    {
      hide Reconciled;
      hide Respects;
      hide StraysExplained;
      hide ServiceValid;
      hide ReadableRoutes;
      hide OwnRows;
      hide OneRow;
      hide Play;
      hide TunnelFollows;
      hide DnsFree;
      hide DnsTypeFits;
      hide TunnelUsable;
      hide Stands;
      hide CanHold;
      ghost var t0, c0, faults := table, cloud, oracle;
      id := AcquireTunnel(svc, t0);
      if id != 0 {
        ghost var c1 := cloud;
        CanHoldIff(cloud.dns, CnameRecord(svc, id), svc.id);
        var ok := PublishHost(svc, id, t0);
        RespectsTransitive(svc.id, digest, t0, c0, c1, cloud);
        id := if ok then id else 0;
        TunnelRecordedFollows(Play([Look, Establish], faults), t0, table, c0, cloud, svc.id);
      }
    }

    /** First the ingress, then the CNAME that leads to it. */
    method PublishHost(svc: Service, id: Id, ghost t0: Table) returns (ok: bool)
      requires Valid() && Registered(svc) && TunnelHeld(table, cloud.tunnels, svc.id, id) && svc.mode == "tunnel"
      modifies `cloud, `oracle, `trouble
      ensures Valid() && trouble >= old(trouble) && cloud.routes == old(cloud).routes
      ensures Respects(svc.id, digest, t0, old(cloud), cloud)
      ensures ok ==> TunnelStands(table, cloud, svc, id) && Stands(cloud.dns, CnameRecord(svc, id), svc.id)
      ensures ok ==> CanHold(old(cloud).dns, CnameRecord(svc, id), svc.id)
      ensures trouble == old(trouble) && CanHold(old(cloud).dns, CnameRecord(svc, id), svc.id) ==> ok
      ensures old(TunnelStands(table, cloud, svc, id) && Stands(cloud.dns, CnameRecord(svc, id), svc.id)) ==>
                cloud == old(cloud)
      ensures old(oracle) == [] ==> oracle == [] && trouble == old(trouble)
    {
      hide Reconciled;
      hide Respects;
      hide StraysExplained;
      hide ServiceValid;
      hide ReadableRoutes;
      hide CanHold;
      hide Stands;
      hide SameElsewhere;
      ghost var c0 := cloud;
      ok := PutConfig(svc, id, t0);
      if !ok {
        return;
      }
      ghost var c1 := cloud;
      ok := EnsureRecord(svc.id, CnameRecord(svc, id), t0);
      RespectsTransitive(svc.id, digest, t0, c0, c1, cloud);
    }

    // ----- private routes

    method SyncWarp(svc: Service) returns (r: Outcome)
      requires Valid() && Registered(svc) && svc.mode == "warp"
      modifies `table, `cloud, `oracle, `trouble, `mishaps
      ensures Valid() && trouble >= old(trouble)
      ensures Respects(svc.id, digest, old(table), old(cloud), cloud)
      ensures OwnRows(svc.id, old(table), table, old(cloud).nextId)
      ensures old(RoutesDisjoint(cloud.routes)) ==> RoutesDisjoint(cloud.routes)
      ensures r.Synced? ==> WarpCan(zone, old(table), old(cloud), svc)
      ensures r.Synced? ==> WarpDone(table, cloud, svc, r.result) && WarpCan(zone, table, cloud, svc)
      ensures trouble == old(trouble) ==>
              WarpCan(zone, old(table), old(cloud), svc) && |old(cloud).routes| <= PAGE_LIMIT * 100 ==> r.Synced?
      ensures forall x :: old(WarpDone(table, cloud, svc, x)) ==>
                table == old(table) && cloud == old(cloud) && (r.Synced? ==> r.result == x)
      ensures Charged(old(mishaps), mishaps, svc.id, trouble - old(trouble)) && (r.Synced? ==> mishaps == old(mishaps))
      ensures old(oracle) == [] ==> oracle == [] && trouble == old(trouble)
      ensures Follows(Play(WarpPlan(zone, svc), old(oracle)), old(table), table, old(cloud), cloud, svc.id)
      ensures Unrowed(table, svc.id) ==> Silent(old(cloud), cloud)
      ensures cloud.dns == old(cloud).dns
    {
      hide Reconciled;
      hide Respects;
      hide StraysExplained;
      hide ReadableRoutes;
      hide OwnRows;
      hide OneRow;
      hide TunnelUsable;
      hide RoutesDisjoint;
      hide RouteClear;
      hide Choice;
      hide RouteFits;
      hide ValidAddr;
      hide ValidPrefix;
      hide TargetsValid;
      hide Play;
      hide Follows;
      hide TunnelFollows;
      hide Unrowed;
      hide Silent;
      var s := svc.id;
      ghost var t0, c0 := table, cloud;
      RespectsSelf(s, digest, t0, cloud);
      OwnRowsSelf(s, table, cloud.nextId);
      ghost var faults := oracle;
      StopPlays(faults);
      StayFollows(Play([Stop], faults), table, cloud, svc.id);
      var net := PrivateNetwork(svc.target, svc.privateNetwork);
      if !zone.hasAccount || net.None? {
        return Rejected;
      }
      r := Rejected;
      NetworkValid(svc);
      var id := RaiseNetwork(svc, net.value);
      TunnelOnlyFollows(Play([Look, Establish], faults), t0, table, c0, cloud, s);
      if id != 0 {
        r := Synced(SyncResult(Object(id), 0, 0, Block(net.value)));
      }
    }

    /** The tunnel, its configuration and its route; 0 on failure. */
    method RaiseNetwork(svc: Service, net: Prefix) returns (id: Id)
      requires Valid() && Registered(svc) && svc.mode == "warp"
      requires NetworkOf(svc) == Some(net) && ValidPrefix(net) && zone.hasAccount
      modifies `table, `cloud, `oracle, `trouble, `mishaps
      ensures Valid() && trouble >= old(trouble)
      ensures Respects(svc.id, digest, old(table), old(cloud), cloud)
      ensures OwnRows(svc.id, old(table), table, old(cloud).nextId)
      ensures old(RoutesDisjoint(cloud.routes)) ==> RoutesDisjoint(cloud.routes)
      ensures id != 0 ==> old(NetworkFits(table, cloud, svc, net))
      ensures id != 0 ==> WarpDone(table, cloud, svc, WarpResult(svc, id)) && WarpCan(zone, table, cloud, svc)
      ensures trouble == old(trouble) ==> old(NetworkFits(table, cloud, svc, net)) ==>
                |old(cloud).routes| <= PAGE_LIMIT * 100 ==> id != 0
      ensures forall x :: old(TunnelStands(table, cloud, svc, x) && Key(svc.id, KPrivateRoute) in table) ==>
                table == old(table) && cloud == old(cloud) && (id != 0 ==> id == x)
      ensures Charged(old(mishaps), mishaps, svc.id, trouble - old(trouble)) && (id != 0 ==> mishaps == old(mishaps))
      ensures old(oracle) == [] ==> oracle == [] && trouble == old(trouble)
      ensures TunnelFollows(Play([Look, Establish], old(oracle)), old(table), table, old(cloud), cloud, svc.id)
      ensures cloud.dns == old(cloud).dns
    {
      hide Reconciled;
      hide Respects;
      hide StraysExplained;
      hide ReadableRoutes;
      hide OwnRows;
      hide OneRow;
      hide Play;
      hide TunnelFollows;
      hide TunnelUsable;
      hide RoutesDisjoint;
      hide RouteFits;
      hide ServiceValid;
      hide ValidAddr;
      hide TargetsValid;
      hide WarpDone;
      hide WarpCan;
      hide Choice;
      var s := svc.id;
      ghost var t0, c0, faults := table, cloud, oracle;
      RouteRow(services, table, cloud, digest, s);
      id := AcquireTunnel(svc, t0);
      if id != 0 {
        ghost var t1, c1 := table, cloud;
        RouteFitsMoved(t0, t1, cloud.routes, svc, id, net);
        var ok := JoinNetwork(svc, id, net, t0);
        RespectsTransitive(s, digest, t0, c0, c1, cloud);
        OwnRowsTransitive(s, t0, t1, table, c0.nextId, c1.nextId);
        id := if ok then id else 0;
        TunnelRecordedFollows(Play([Look, Establish], faults), t0, table, c0, cloud, s);
      }
    }

    /** First the configuration, then the route that leads to the tunnel. */
    method JoinNetwork(svc: Service, id: Id, net: Prefix, ghost t0: Table) returns (ok: bool)
      requires Valid() && Registered(svc) && TunnelHeld(table, cloud.tunnels, svc.id, id) && svc.mode == "warp"
      requires NetworkOf(svc) == Some(net) && ValidPrefix(net) && zone.hasAccount
      modifies `table, `cloud, `oracle, `trouble
      ensures Valid() && trouble >= old(trouble)
      ensures Respects(svc.id, digest, t0, old(cloud), cloud) && OwnRows(svc.id, old(table), table, old(cloud).nextId)
      ensures old(RoutesDisjoint(cloud.routes)) ==> RoutesDisjoint(cloud.routes)
      ensures ok ==> RouteFits(old(table), old(cloud).routes, svc, id, net)
      ensures ok ==> WarpDone(table, cloud, svc, WarpResult(svc, id)) && WarpCan(zone, table, cloud, svc)
      ensures trouble == old(trouble) ==>
              RouteFits(old(table), old(cloud).routes, svc, id, net) && |old(cloud).routes| <= PAGE_LIMIT * 100 ==> ok
      ensures old(TunnelStands(table, cloud, svc, id)) && Key(svc.id, KPrivateRoute) in old(table) ==>
                table == old(table) && cloud == old(cloud)
      ensures old(oracle) == [] ==> oracle == [] && trouble == old(trouble)
      ensures old(table).Keys <= table.Keys
      ensures cloud.dns == old(cloud).dns
    {
      hide Reconciled;
      hide Respects;
      hide StraysExplained;
      hide ReadableRoutes;
      hide ValidAddr;
      hide ValidPrefix;
      hide TargetsValid;
      hide OwnRows;
      hide OneRow;
      hide RoutesDisjoint;
      hide RouteFits;
      hide NetworkOf;
      hide WarpDone;
      hide WarpCan;
      hide TunnelStands;
      ghost var c1, t1 := cloud, table;
      OwnRowsSelf(svc.id, table, cloud.nextId);
      PrefixBits(net);
      ok := PutConfig(svc, id, t0);
      if !ok {
        return;
      }
      ghost var c2 := cloud;
      ok := SyncPrivateRoute(svc, id, net, t0);
      RespectsTransitive(svc.id, digest, t0, c1, c2, cloud);
      if ok {
        WarpAgain(zone, t1, table, c2, cloud, svc, id);
      }
    }

    /** A recorded route must still be the one it was; a new one may overlap no other route of the account. */
    method SyncPrivateRoute(svc: Service, id: Id, net: Prefix, ghost t0: Table) returns (ok: bool)
      requires Valid() && Registered(svc) && TunnelHeld(table, cloud.tunnels, svc.id, id) && ValidPrefix(net)
      modifies `table, `cloud, `oracle, `trouble
      ensures Valid() && trouble >= old(trouble)
      ensures cloud == old(cloud).(nextId := cloud.nextId, routes := cloud.routes)
      ensures Respects(svc.id, digest, t0, old(cloud), cloud) && OwnRows(svc.id, old(table), table, old(cloud).nextId)
      ensures OneRow(old(table), table, Key(svc.id, KPrivateRoute))
      ensures old(RoutesDisjoint(cloud.routes)) ==> RoutesDisjoint(cloud.routes)
      ensures ok ==>
                RouteFits(old(table), old(cloud).routes, svc, id, net) && RouteFits(table, cloud.routes, svc, id, net)
      ensures ok ==> Key(svc.id, KPrivateRoute) in table
      ensures trouble == old(trouble) ==>
              RouteFits(old(table), old(cloud).routes, svc, id, net) && |old(cloud).routes| <= PAGE_LIMIT * 100 ==> ok
      ensures Key(svc.id, KPrivateRoute) in old(table) ==> table == old(table) && cloud == old(cloud)
      ensures old(oracle) == [] ==> oracle == [] && trouble == old(trouble)
      ensures old(table).Keys <= table.Keys
    {
      hide Reconciled;
      hide Respects;
      hide StraysExplained;
      hide OwnRows;
      hide OneRow;
      hide RoutesDisjoint;
      hide RouteFits;
      hide ReadableRoutes;
      hide TunnelHeld;
      hide ValidPrefix;
      RespectsSelf(svc.id, digest, t0, cloud);
      OwnRowsSelf(svc.id, table, cloud.nextId);
      OneRowSelf(table, Key(svc.id, KPrivateRoute));
      ok := Read();
      if !ok {
        return;
      }
      ok := CheckRoutes(svc, id, net);
      if ok && Key(svc.id, KPrivateRoute) !in table {
        ok := EstablishRoute(svc, id, net, t0);
      }
    }

    method CheckRoutes(svc: Service, tunnel: Id, net: Prefix) returns (ok: bool)
      requires Valid() && ValidPrefix(net)
      modifies `oracle, `trouble
      ensures Valid() && trouble >= old(trouble)
      ensures ok ==> RouteFits(table, cloud.routes, svc, tunnel, net)
      ensures trouble == old(trouble) ==>
              RouteFits(table, cloud.routes, svc, tunnel, net) && |cloud.routes| <= PAGE_LIMIT * 100 ==> ok
      ensures old(oracle) == [] ==> oracle == [] && trouble == old(trouble)
    {
      hide Reconciled;
      hide StraysExplained;
      hide Overlaps;
      hide ValidAddr;
      IdsOf(services, table, cloud, digest);
      RouteRow(services, table, cloud, digest, svc.id);
      var own := RowId(table, svc.id, KPrivateRoute);
      var listing := List(cloud.routes.Keys, 100);
      if listing.Unlisted? {
        return false;
      }
      var found := false;
      for i := 0 to |listing.items|
        invariant found <==> own in listing.items[..i]
        invariant forall id :: id in listing.items[..i] ==>
                    if id == own then cloud.routes[id] == RouteOf(svc, net, tunnel)
                    else cloud.routes[id].network.Parsed? && !Overlaps(net, cloud.routes[id].network.prefix)
      {
        var id := listing.items[i];
        assert id in listing.items && listing.items[..i + 1] == listing.items[..i] + [id];
        var route := cloud.routes[id];
        if id == own {
          if route != RouteOf(svc, net, tunnel) {
            return false;
          }
          found := true;
        } else if route.network.Unreadable? || Overlaps(net, route.network.prefix) {
          return false;
        }
      }
      assert listing.items[..|listing.items|] == listing.items;
      ok := found || own == 0;
    }

    method EstablishRoute(svc: Service, tunnel: Id, net: Prefix, ghost t0: Table) returns (ok: bool)
      requires Valid() && Registered(svc) && TunnelHeld(table, cloud.tunnels, svc.id, tunnel) && ValidPrefix(net)
      requires RouteFits(table, cloud.routes, svc, tunnel, net) && Key(svc.id, KPrivateRoute) !in table
      modifies `table, `cloud, `oracle, `trouble
      ensures Valid() && trouble >= old(trouble) && (ok <==> trouble == old(trouble))
      ensures cloud == old(cloud).(nextId := cloud.nextId, routes := cloud.routes)
      ensures Respects(svc.id, digest, t0, old(cloud), cloud) && OwnRows(svc.id, old(table), table, old(cloud).nextId)
      ensures OneRow(old(table), table, Key(svc.id, KPrivateRoute))
      ensures old(RoutesDisjoint(cloud.routes)) ==> RoutesDisjoint(cloud.routes)
      ensures ok ==> Key(svc.id, KPrivateRoute) in table && RouteFits(table, cloud.routes, svc, tunnel, net)
      ensures old(oracle) == [] ==> oracle == [] && trouble == old(trouble)
      ensures old(table).Keys <= table.Keys
    {
      hide Reconciled;
      hide Respects;
      hide StraysExplained;
      hide OwnRows;
      hide OneRow;
      hide RoutesDisjoint;
      hide RouteFits;
      hide ReadableRoutes;
      hide ValidPrefix;
      var s, id, route := svc.id, cloud.nextId, RouteOf(svc, net, tunnel);
      var key, row := Key(s, KPrivateRoute), Resource(Object(id), Network(net));
      RespectsSelf(s, digest, t0, cloud);
      RouteCreated(services, table, cloud, digest, s, route);
      RouteFrame(services, table, cloud, digest, s, t0, route);
      PrefixBits(net);
      RouteUndone(s, digest, t0, cloud, route);
      RouteFound(table, cloud.routes, svc, tunnel, net, id);
      RowWritten(s, KPrivateRoute, row, table, cloud.nextId);
      StraysOtherRow(table, table[key := row], key, cloud.tunnels, mishaps);
      var f := Remote(WithRoute(cloud, route));
      if f != Fine {
        return false;
      }
      RouteRecorded(services, table, cloud, digest, s, id, net);
      ok := Persist(table[key := row]);
      if !ok {
        RouteDropped(services, table, cloud, digest, s, id);
        var undone := Write(WithoutRoute(cloud, id));
      }
    }

    /** syncTunnel: public hostnames and WARP private networks. */
    method SyncTunnel(svc: Service) returns (r: Outcome)
      requires Valid() && Registered(svc) && ZoneMatches(zone) && (svc.mode == "tunnel" || svc.mode == "warp")
      requires svc.mode == "tunnel" ==> HostsAccepted(zone, svc)
      modifies `table, `cloud, `oracle, `trouble, `mishaps
      ensures Valid() && trouble >= old(trouble)
      ensures Respects(svc.id, digest, old(table), old(cloud), cloud)
      ensures OwnRows(svc.id, old(table), table, old(cloud).nextId)
      ensures old(RoutesDisjoint(cloud.routes)) ==> RoutesDisjoint(cloud.routes)
      ensures r.Synced? ==> CanPublish(zone, digest, old(table), old(cloud), svc)
      ensures r.Synced? ==>
                Published(digest, table, cloud, svc, r.result) && CanPublish(zone, digest, table, cloud, svc)
      ensures trouble == old(trouble) ==>
              CanPublish(zone, digest, old(table), old(cloud), svc) && InventoryFits(old(cloud)) ==> r.Synced?
      ensures forall x :: old(Published(digest, table, cloud, svc, x)) ==>
                table == old(table) && cloud == old(cloud) && (r.Synced? ==> r.result == x)
      ensures Charged(old(mishaps), mishaps, svc.id, trouble - old(trouble)) && (r.Synced? ==> mishaps == old(mishaps))
      ensures old(oracle) == [] ==> oracle == [] && trouble == old(trouble)
      ensures var plan := if svc.mode == "warp" then WarpPlan(zone, svc) else TunnelPlan(zone, old(cloud), svc);
              Follows(Play(plan, old(oracle)), old(table), table, old(cloud), cloud, svc.id)
      ensures Unrowed(table, svc.id) ==> Silent(old(cloud), cloud)
      ensures svc.mode == "warp" ==> cloud.dns == old(cloud).dns
    {
      if svc.mode == "warp" {
        r := SyncWarp(svc);
      } else {
        r := SyncPublicTunnel(svc);
      }
    }

    // ----- dns, proxy and redirect

    /** The row of a mode that names no object of its own. */
    method SavePlain(svc: Service, kind: Kind, row: Resource, ghost n: Id) returns (ok: bool)
      requires Valid() && Registered(svc) && (kind == KDns || kind == KProxy || kind == KRedirect)
      requires !row.remote.Object?
      modifies `table, `oracle, `trouble
      ensures Valid() && trouble >= old(trouble) && (ok <==> trouble == old(trouble))
      ensures OwnRows(svc.id, old(table), table, n)
      ensures table == if Coming(old(oracle)) == Refused then old(table) else old(table)[Key(svc.id, kind) := row]
      ensures (ok <==> Coming(old(oracle)) == Fine) && oracle == Rest(old(oracle))
      ensures old(oracle) == [] ==> oracle == [] && trouble == old(trouble)
    {
      hide Reconciled;
      hide StraysExplained;
      hide OwnRows;
      hide OneRow;
      hide ReadableRoutes;
      var key := Key(svc.id, kind);
      PlainRecorded(services, table, cloud, digest, svc.id, kind, row);
      RowWritten(svc.id, kind, row, table, n);
      StraysOtherRow(table, table[key := row], key, cloud.tunnels, mishaps);
      ok := Persist(table[key := row]);
    }

    method SyncDirect(svc: Service) returns (r: Outcome)
      requires Valid() && Registered(svc) && (svc.mode == "dns" || svc.mode == "proxy") && HostsAccepted(zone, svc)
      requires Mapped(svc)
      modifies `table, `cloud, `oracle, `trouble
      ensures Valid() && trouble >= old(trouble) && cloud.routes == old(cloud).routes
      ensures Respects(svc.id, digest, old(table), old(cloud), cloud)
      ensures OwnRows(svc.id, old(table), table, old(cloud).nextId)
      ensures r.Synced? ==> DirectCan(zone, old(cloud), svc)
      ensures Follows(Play(DirectPlan(old(cloud), svc), old(oracle)), old(table), table, old(cloud), cloud, svc.id)
      ensures r.Synced? ==> DirectDone(table, cloud, svc, r.result) && DirectCan(zone, cloud, svc)
      ensures trouble == old(trouble) && DirectCan(zone, old(cloud), svc) ==> r.Synced?
      ensures forall x :: old(DirectDone(table, cloud, svc, x)) ==>
                table == old(table) && cloud == old(cloud) && (r.Synced? ==> r.result == x)
      ensures old(oracle) == [] ==> oracle == [] && trouble == old(trouble)
    {
      hide Reconciled;
      hide StraysExplained;
      hide OwnRows;
      hide ReadableRoutes;
      hide ServiceValid;
      hide Respects;
      hide CanHold;
      hide Stands;
      hide HostsAccepted;
      hide ProxyPortAllowed;
      hide Mapped;
      hide Play;
      hide RecordPlan;
      hide Follows;
      RespectsSelf(svc.id, digest, table, cloud);
      OwnRowsSelf(svc.id, table, cloud.nextId);
      StopPlays(oracle);
      StayFollows(Play([Stop], oracle), table, cloud, svc.id);
      r := Rejected;
      if svc.mode != "proxy" || ProxyPortAllowed(svc.scheme, svc.publicPort) {
        var record := AddressRecord(svc.entry, svc.publicIp, svc.mode == "proxy", svc.id);
        var ok := WriteDirect(svc, record);
        if ok {
          StandsHolds(cloud.dns, record, svc.id);
          r := Synced(SyncResult(Blank, 0, 0, Url(svc.scheme, svc.entry, svc.publicPort)));
        }
      }
    }

    /** The record, then the row. */
    method WriteDirect(svc: Service, record: DnsRecord) returns (ok: bool)
      requires Valid() && Registered(svc) && record.comment == Mark(svc.id) && record.content.Address?
      modifies `table, `cloud, `oracle, `trouble
      ensures Valid() && trouble >= old(trouble) && cloud.routes == old(cloud).routes
      ensures Respects(svc.id, digest, old(table), old(cloud), cloud)
      ensures OwnRows(svc.id, old(table), table, old(cloud).nextId)
      ensures ok ==> CanHold(old(cloud).dns, record, svc.id) && Stands(cloud.dns, record, svc.id)
      ensures var key, row := Key(svc.id, DirectKind(svc)), Resource(RulePair(0, 0), Host(svc.entry));
              && (ok ==> key in table && table[key] == row)
              && (Stands(old(cloud).dns, record, svc.id) && key in old(table) && old(table)[key] == row ==>
                    table == old(table) && cloud == old(cloud))
      ensures trouble == old(trouble) && CanHold(old(cloud).dns, record, svc.id) ==> ok
      ensures Follows(Play(RecordPlan(old(cloud).dns, record, svc.id) + [Save], old(oracle)),
                      old(table), table, old(cloud), cloud, svc.id)
      ensures old(oracle) == [] ==> oracle == [] && trouble == old(trouble)
    {
      hide Reconciled;
      hide StraysExplained;
      hide OwnRows;
      hide ReadableRoutes;
      hide ServiceValid;
      hide Respects;
      hide CanHold;
      hide Stands;
      hide SameElsewhere;
      hide Play;
      hide RecordPlan;
      hide Follows;
      hide DnsFollows;
      hide MarksFollow;
      ghost var t0, c0, faults, plan := table, cloud, oracle, RecordPlan(cloud.dns, record, svc.id);
      var key, row := Key(svc.id, DirectKind(svc)), Resource(RulePair(0, 0), Host(svc.entry));
      OwnRowsSelf(svc.id, table, cloud.nextId);
      ok := EnsureRecord(svc.id, record, t0);
      RecordPlays(c0.dns, record, svc.id, faults);
      DnsMarksFollow(Play(plan, faults), c0, cloud, svc.id);
      if ok {
        ok := SavePlain(svc, DirectKind(svc), row, c0.nextId);
      }
      SavedFollows(plan, faults, t0, table, c0, cloud, key, row);
    }

    method SyncRedirect(svc: Service) returns (r: Outcome)
      requires Valid() && Registered(svc) && svc.mode == "redirect" && HostsAccepted(zone, svc) && Mapped(svc)
      modifies `table, `cloud, `oracle, `trouble
      ensures Valid() && trouble >= old(trouble) && cloud.routes == old(cloud).routes
      ensures Respects(svc.id, digest, old(table), old(cloud), cloud)
      ensures OwnRows(svc.id, old(table), table, old(cloud).nextId)
      ensures r.Synced? ==> RedirectCan(zone, old(cloud), svc)
      ensures r.Synced? ==> RedirectDone(table, cloud, svc, r.result) && RedirectCan(zone, cloud, svc)
      ensures trouble == old(trouble) && RedirectCan(zone, old(cloud), svc) ==> r.Synced?
      ensures forall x :: old(RedirectDone(table, cloud, svc, x)) ==>
                table == old(table) && cloud == old(cloud) && (r.Synced? ==> r.result == x)
      ensures old(oracle) == [] ==> oracle == [] && trouble == old(trouble)
      ensures Follows(Play(RedirectPlan(old(cloud), svc), old(oracle)), old(table), table, old(cloud), cloud, svc.id)
    {
      hide Reconciled;
      hide StraysExplained;
      hide OwnRows;
      hide ReadableRoutes;
      hide ServiceValid;
      hide Respects;
      hide RedirectDnsCan;
      hide RedirectDnsDone;
      hide HostsAccepted;
      hide RedirectRule;
      hide RedirectTarget;
      hide Play;
      hide RedirectDnsPlan;
      hide RulePlan;
      hide RedirectPlan;
      hide Follows;
      hide DnsFollows;
      hide RuleWritten;
      hide RuleStands;
      hide Mapped;
      hide Valid;
      ghost var t0, c0 := table, cloud;
      r := Rejected;
      RespectsSelf(svc.id, digest, t0, cloud);
      OwnRowsSelf(svc.id, table, cloud.nextId);
      ghost var faults := oracle;
      var ok := EnsureRedirectDns(svc, t0);
      ghost var c1 := cloud;
      if ok && RuleBuilt(svc) {
        var id := WriteRedirect(svc, t0, c0.nextId);
        RespectsTransitive(svc.id, digest, t0, c0, c1, cloud);
        if id != 0 {
          RedirectDnsAgain(cloud.dns, svc);
          r := Synced(SyncResult(Blank, cloud.ruleset, id, RedirectTarget(svc)));
        }
      }
      RedirectFollows(t0, table, c0, c1, cloud, svc, faults);
    }

    /** The rule, then its row; 0 on failure. */
    method WriteRedirect(svc: Service, ghost t0: Table, ghost n: Id) returns (id: Id)
      requires Valid() && Registered(svc)
      modifies `table, `cloud, `oracle, `trouble
      ensures Valid() && trouble >= old(trouble) && (trouble == old(trouble) ==> id != 0)
      ensures cloud == old(cloud).(nextId := cloud.nextId, ruleset := cloud.ruleset, rules := cloud.rules)
      ensures Respects(svc.id, digest, t0, old(cloud), cloud) && OwnRows(svc.id, old(table), table, n)
      ensures id != 0 ==> RuleStands(table, cloud, svc, id)
      ensures forall x :: old(RuleStands(table, cloud, svc, x)) ==>
                cloud == old(cloud) && table == old(table) && (id != 0 ==> id == x)
      ensures old(oracle) == [] ==> oracle == [] && trouble == old(trouble)
      ensures RuleWritten(Play(RulePlan(old(cloud)), old(oracle)), old(table), table, old(cloud), cloud, svc.id)
    {
      hide Reconciled;
      hide StraysExplained;
      hide OwnRows;
      hide ReadableRoutes;
      hide ServiceValid;
      hide Respects;
      hide RedirectRule;
      hide Play;
      hide RulesFollow;
      OwnRowsSelf(svc.id, table, n);
      id := EnsureRule(svc, t0);
      if id != 0 {
        var ok := SavePlain(svc, KRedirect, Resource(RulePair(cloud.ruleset, id), Host(svc.entry)), n);
        id := if ok then id else 0;
      }
    }

    method EnsureRedirectDns(svc: Service, ghost t0: Table) returns (ok: bool)
      requires Valid() && Registered(svc) && svc.mode == "redirect"
      modifies `cloud, `oracle, `trouble
      ensures Valid() && trouble >= old(trouble)
      ensures cloud == old(cloud).(nextId := cloud.nextId, dns := cloud.dns)
      ensures Respects(svc.id, digest, t0, old(cloud), cloud)
      ensures ok ==> RedirectDnsCan(old(cloud).dns, svc) && RedirectDnsDone(cloud.dns, svc)
      ensures trouble == old(trouble) && RedirectDnsCan(old(cloud).dns, svc) ==> ok
      ensures RedirectDnsDone(old(cloud).dns, svc) ==> cloud == old(cloud)
      ensures old(oracle) == [] ==> oracle == [] && trouble == old(trouble)
      ensures var p := Play(RedirectDnsPlan(old(cloud).dns, svc), old(oracle));
              && (ok <==> p.going) && (ok ==> oracle == p.rest) && !p.saved
              && DnsFollows(p, old(cloud).dns, cloud.dns, svc.id)
    {
      hide Reconciled;
      hide StraysExplained;
      hide ReadableRoutes;
      hide Respects;
      hide CanHold;
      hide Stands;
      hide SameElsewhere;
      hide ValidAddr;
      hide ValidPrefix;
      hide TargetsValid;
      hide Play;
      hide RecordPlan;
      hide Marked;
      RespectsSelf(svc.id, digest, t0, cloud);
      ok := true;
      ghost var faults := oracle;
      RedirectDnsPlays(cloud.dns, svc, faults);
      if svc.manageDns {
        var entry := AddressRecord(svc.entry, svc.publicIp, true, svc.id);
        var origin := AddressRecord(svc.origin, svc.publicIp, false, svc.id);
        ghost var c0 := cloud;
        ok := EnsureRecord(svc.id, entry, t0);
        if ok && svc.origin != "" {
          ghost var c1 := cloud;
          HeldElsewhere(c0.dns, c1.dns, svc.entry, origin, svc.id);
          PlanElsewhere(c0.dns, c1.dns, svc.entry, origin, svc.id);
          ok := EnsureRecord(svc.id, origin, t0);
          HeldElsewhere(c1.dns, cloud.dns, svc.origin, entry, svc.id);
          RespectsTransitive(svc.id, digest, t0, c0, c1, cloud);
        }
      }
    }

    /** One rule under the ref of the service: created with its ruleset, created in it, or updated; 0 on failure. */
    method EnsureRule(svc: Service, ghost t0: Table) returns (id: Id)
      requires Valid() && Registered(svc)
      modifies `cloud, `oracle, `trouble
      ensures Valid() && trouble >= old(trouble) && (trouble == old(trouble) ==> id != 0)
      ensures cloud == old(cloud).(nextId := cloud.nextId, ruleset := cloud.ruleset, rules := cloud.rules)
      ensures Respects(svc.id, digest, t0, old(cloud), cloud)
      ensures id != 0 ==> cloud.ruleset != 0 && id in cloud.rules && cloud.rules[id] == RedirectRule(svc)
      ensures old(cloud).ruleset != 0 ==>
                forall x :: x in old(cloud).rules && old(cloud).rules[x] == RedirectRule(svc) ==>
                cloud == old(cloud) && (id != 0 ==> id == x)
      ensures old(oracle) == [] ==> oracle == [] && trouble == old(trouble)
      ensures var p := Play(RulePlan(old(cloud)), old(oracle));
              && (id != 0 <==> p.going) && (id != 0 ==> oracle == p.rest)
              && RulesFollow(p, old(cloud).rules, cloud.rules, svc.id)
    {
      hide Reconciled;
      hide StraysExplained;
      hide ReadableRoutes;
      hide ServiceValid;
      hide Respects;
      hide RedirectRule;
      hide Play;
      hide RulePlan;
      hide Ruled;
      RespectsSelf(svc.id, digest, t0, cloud);
      RulesKnown(services, table, cloud, digest, svc);
      RulePlays(cloud, oracle);
      RuleMarks(cloud, RedirectRule(svc), svc.id);
      id := 0;
      var ok := Read();
      if !ok {
        return;
      }
      if cloud.ruleset == 0 {
        RulesetCreated(services, table, cloud, digest, svc.id, RedirectRule(svc));
        RulesetFrame(svc.id, digest, t0, cloud, RedirectRule(svc));
        var f := Remote(WithRuleset(cloud, RedirectRule(svc)));
        id := if f == Fine then cloud.nextId - 1 else 0;
      } else {
        ok := Read();
        if ok {
          id := PutRule(svc, t0);
        }
      }
    }

    method PutRule(svc: Service, ghost t0: Table) returns (id: Id)
      requires Valid() && Registered(svc) && cloud.ruleset != 0
      modifies `cloud, `oracle, `trouble
      ensures Valid() && trouble >= old(trouble) && (trouble == old(trouble) ==> id != 0)
      ensures cloud == old(cloud).(nextId := cloud.nextId, rules := cloud.rules)
      ensures Respects(svc.id, digest, t0, old(cloud), cloud)
      ensures id != 0 ==> id in cloud.rules && cloud.rules[id] == RedirectRule(svc)
      ensures forall x :: x in old(cloud).rules && old(cloud).rules[x] == RedirectRule(svc) ==>
                cloud == old(cloud) && (id != 0 ==> id == x)
      ensures old(oracle) == [] ==> oracle == [] && trouble == old(trouble)
      ensures var p := One(PutForId, old(oracle));
              (id != 0 <==> p.going) && oracle == p.rest && RulesFollow(p, old(cloud).rules, cloud.rules, svc.id)
    {
      hide Reconciled;
      hide StraysExplained;
      hide ReadableRoutes;
      hide ServiceValid;
      hide Respects;
      hide WithRule;
      hide WithRulePatch;
      hide RuleRef;
      hide RedirectRule;
      hide RulesFollow;
      RespectsSelf(svc.id, digest, t0, cloud);
      var rule := RedirectRule(svc);
      RulesKnown(services, table, cloud, digest, svc);
      id := FindRule(rule.ref);
      if id == 0 {
        id := AddRule(svc.id, rule, t0);
      } else {
        id := ReplaceRule(svc.id, id, rule, t0);
      }
    }

    /** A rule with this ref, 0 if there is none. */
    method FindRule(ref: string) returns (id: Id)
      requires 0 !in cloud.rules
      ensures id != 0 ==> id in cloud.rules && cloud.rules[id].ref == ref
      ensures id == 0 ==> RefAbsent(cloud.rules, ref)
    {
      var same := set x | x in cloud.rules && cloud.rules[x].ref == ref;
      assert forall x :: x in cloud.rules && cloud.rules[x].ref == ref ==> x in same;
      id := 0;
      if same != {} {
        id :| id in same;
      }
    }

    method AddRule(s: string, rule: Rule, ghost t0: Table) returns (id: Id)
      requires Valid() && cloud.ruleset != 0 && RefAbsent(cloud.rules, rule.ref) && cloud.nextId > 0
      requires cloud.nextId !in cloud.rules
      requires rule.ref == RuleRef(s)
      modifies `cloud, `oracle, `trouble
      ensures Valid() && trouble >= old(trouble) && (trouble == old(trouble) ==> id != 0)
      ensures cloud == old(cloud).(nextId := cloud.nextId, rules := cloud.rules)
      ensures id != 0 ==> cloud == WithRule(old(cloud), rule) && id in cloud.rules && cloud.rules[id] == rule
      ensures Respects(s, digest, t0, old(cloud), cloud)
      ensures old(oracle) == [] ==> oracle == [] && trouble == old(trouble)
      ensures var p := One(PutForId, old(oracle));
              (id != 0 <==> p.going) && oracle == p.rest && RulesFollow(p, old(cloud).rules, cloud.rules, s)
    {
      hide Reconciled;
      hide StraysExplained;
      hide ReadableRoutes;
      hide Respects;
      hide Ruled;
      RuleMarks(cloud, rule, s);
      RespectsSelf(s, digest, t0, cloud);
      RuleCreated(services, table, cloud, digest, s, rule);
      RuleFrame(s, digest, t0, cloud, rule);
      id := cloud.nextId;
      var f := Remote(WithRule(cloud, rule));
      id := if f == Fine then id else 0;
    }

    method ReplaceRule(s: string, own: Id, rule: Rule, ghost t0: Table) returns (id: Id)
      requires Valid() && own in cloud.rules && cloud.rules[own].ref == rule.ref == RuleRef(s) && own != 0
      modifies `cloud, `oracle, `trouble
      ensures Valid() && trouble >= old(trouble) && (trouble == old(trouble) ==> id != 0)
      ensures cloud == old(cloud).(rules := cloud.rules)
      ensures id != 0 ==> id == own && cloud == WithRulePatch(old(cloud), own, rule)
      ensures id != 0 ==> id in cloud.rules && cloud.rules[id] == rule
      ensures old(cloud).rules[own] == rule ==> cloud == old(cloud)
      ensures Respects(s, digest, t0, old(cloud), cloud)
      ensures old(oracle) == [] ==> oracle == [] && trouble == old(trouble)
      ensures var p := One(PutForId, old(oracle));
              (id != 0 <==> p.going) && oracle == p.rest && RulesFollow(p, old(cloud).rules, cloud.rules, s)
    {
      hide Reconciled;
      hide StraysExplained;
      hide ReadableRoutes;
      hide Respects;
      hide Ruled;
      hide RuleRef;
      RuleMarks(cloud, rule, s);
      RespectsSelf(s, digest, t0, cloud);
      RulePatched(services, table, cloud, digest, s, own, rule);
      RulePatchFrame(s, digest, t0, cloud, own, rule);
      var f := Remote(WithRulePatch(cloud, own, rule));
      id := if f == Fine then own else 0;
    }

    // ----- Spectrum

    method SyncSpectrum(svc: Service) returns (r: Outcome)
      requires Valid() && Registered(svc) && svc.mode == "spectrum" && HostsAccepted(zone, svc) && Mapped(svc)
      modifies `table, `cloud, `oracle, `trouble
      ensures Valid() && trouble >= old(trouble) && cloud.routes == old(cloud).routes
      ensures Respects(svc.id, digest, old(table), old(cloud), cloud)
      ensures OwnRows(svc.id, old(table), table, old(cloud).nextId)
      ensures r.Synced? ==> SpectrumCan(zone, old(table), old(cloud), svc)
      ensures r.Synced? ==> SpectrumDone(table, cloud, svc, r.result) && SpectrumCan(zone, table, cloud, svc)
      ensures trouble == old(trouble) ==>
              SpectrumCan(zone, old(table), old(cloud), svc) && |old(cloud).apps| <= PAGE_LIMIT * 50 ==> r.Synced?
      ensures forall x :: old(SpectrumDone(table, cloud, svc, x)) ==>
                table == old(table) && cloud == old(cloud) && (r.Synced? ==> r.result == x)
      ensures old(oracle) == [] ==> oracle == [] && trouble == old(trouble)
      ensures Follows(Play(SpectrumPlan(old(table), old(cloud), svc), old(oracle)),
                      old(table), table, old(cloud), cloud, svc.id)
      ensures Unrowed(table, svc.id) ==> Silent(old(cloud), cloud)
      ensures cloud.dns == old(cloud).dns
      ensures SettingsKept(RowId(old(table), svc.id, KSpectrum), old(cloud).apps, cloud.apps)
      ensures r.Synced? ==>
                var id := r.result.resource.id;
                if Key(svc.id, KSpectrum) in old(table)
                then id in old(cloud).apps && SettingsFilled(old(cloud).apps[id].settings, cloud.apps[id].settings)
                else cloud.apps[id].settings == EdgeSettings(false, "off", "off", None, None, "")
    {
      hide Reconciled;
      hide StraysExplained;
      hide OwnRows;
      hide ReadableRoutes;
      hide ServiceValid;
      hide Respects;
      hide HostsAccepted;
      hide AppsFit;
      hide AppClear;
      hide AppOf;
      hide AppStands;
      hide Mapped;
      hide Valid;
      hide Kept;
      hide Play;
      hide Established;
      hide Follows;
      hide AppFollows;
      hide SpectrumPlan;
      hide Silent;
      hide Unrowed;
      ghost var t0, c0, faults := table, cloud, oracle;
      r := Rejected;
      SpectrumPlays(table, cloud, svc, faults);
      LooksPlay(faults);
      StayFollows(Play(SpectrumPlan(table, cloud, svc), faults), table, cloud, svc.id);
      if Key(svc.id, KSpectrum) in table {
        RowedFollows(Play(SpectrumPlan(table, cloud, svc), faults), table, table, cloud, cloud, Key(svc.id, KSpectrum));
      }
      RespectsSelf(svc.id, digest, table, cloud);
      OwnRowsSelf(svc.id, table, cloud.nextId);
      if 1 <= svc.edgePort <= 65535 {
        var ok := CheckApps(svc);
        if ok {
          ghost var rest := oracle;
          var id := EnsureApp(svc);
          if Key(svc.id, KSpectrum) in t0 {
            RowedFollows(Play(SpectrumPlan(t0, c0, svc), faults), t0, table, c0, cloud, Key(svc.id, KSpectrum));
          } else {
            AppOnlyFollows(Established(rest), t0, table, c0, cloud, svc.id);
          }
          if id != 0 {
            AppsFitAgain(table, cloud, svc, id);
            r := Synced(SyncResult(Object(id), 0, 0, Url(svc.protocol, svc.entry, svc.edgePort)));
          }
        }
      }
    }

    method EnsureApp(svc: Service) returns (id: Id)
      requires Valid() && Registered(svc) && AppsFit(table, cloud, svc)
      modifies `table, `cloud, `oracle, `trouble
      ensures Valid() && trouble >= old(trouble) && (trouble == old(trouble) <==> id != 0)
      ensures cloud == old(cloud).(nextId := cloud.nextId, apps := cloud.apps)
      ensures Respects(svc.id, digest, old(table), old(cloud), cloud)
      ensures OwnRows(svc.id, old(table), table, old(cloud).nextId)
      ensures id != 0 ==> AppStands(table, cloud, svc, id)
      ensures forall x :: old(AppStands(table, cloud, svc, x)) ==>
                table == old(table) && cloud == old(cloud) && (id != 0 ==> id == x)
      ensures old(oracle) == [] ==> oracle == [] && trouble == old(trouble)
      ensures old(table).Keys <= table.Keys
      ensures Key(svc.id, KSpectrum) !in old(table) ==>
                AppFollows(Established(old(oracle)), old(table), table, old(cloud), cloud, svc.id)
      ensures SettingsKept(RowId(old(table), svc.id, KSpectrum), old(cloud).apps, cloud.apps)
      ensures id != 0 ==> if Key(svc.id, KSpectrum) in old(table)
                          then id in old(cloud).apps &&
                               SettingsFilled(old(cloud).apps[id].settings, cloud.apps[id].settings)
                          else cloud.apps[id].settings == EdgeSettings(false, "off", "off", None, None, "")
    {
      hide Reconciled;
      hide StraysExplained;
      hide OwnRows;
      hide ReadableRoutes;
      hide ServiceValid;
      hide Respects;
      hide AppsFit;
      hide AppClear;
      hide AppOf;
      hide Kept;
      hide Established;
      OwnRowsSelf(svc.id, table, cloud.nextId);
      if Key(svc.id, KSpectrum) in table {
        id := PutApp(svc);
      } else {
        id := cloud.nextId;
        var ok := EstablishApp(svc, table);
        if !ok {
          id := 0;
        }
      }
    }

    /** No foreign application and, for a first publication, no DNS record uses the hostname. */
    method CheckApps(svc: Service) returns (ok: bool)
      requires Valid()
      modifies `oracle, `trouble
      ensures Valid() && trouble >= old(trouble)
      ensures ok ==> AppsFit(table, cloud, svc)
      ensures trouble == old(trouble) && AppsFit(table, cloud, svc) && |cloud.apps| <= PAGE_LIMIT * 50 ==> ok
      ensures old(oracle) == [] ==> oracle == [] && trouble == old(trouble)
      ensures Key(svc.id, KSpectrum) !in table ==>
                var p := Play([Look, Look, Look], old(oracle));
                && (ok <==> p.going && AppsFit(table, cloud, svc) && |cloud.apps| <= PAGE_LIMIT * 50)
                && (ok ==> oracle == p.rest)
    {
      hide Reconciled;
      hide StraysExplained;
      hide ReadableRoutes;
      hide Play;
      LooksPlay(oracle);
      SpectrumRow(services, table, cloud, digest, svc.id);
      var own := RowId(table, svc.id, KSpectrum);
      ok := Read();
      if !ok {
        return;
      }
      var listing := List(cloud.apps.Keys, 50);
      if listing.Unlisted? {
        return false;
      }
      ok := CheckListedApps(svc, own, listing.items);
      if ok && own == 0 {
        ok := Read();
        ok := ok && forall d <- cloud.dns :: cloud.dns[d].name != svc.entry;
      }
    }

    /** No other application uses the hostname, and the recorded one does. */
    method CheckListedApps(svc: Service, own: Id, ids: seq<Id>) returns (ok: bool)
      requires forall x :: x in ids <==> x in cloud.apps
      ensures ok <==> && AppClear(cloud.apps, own, svc.entry)
                      && (own in cloud.apps ==> cloud.apps[own].name == svc.entry) && (own != 0 ==> own in cloud.apps)
    {
      var found := false;
      for i := 0 to |ids|
        invariant found <==> own in ids[..i]
        invariant forall id :: id in ids[..i] ==> (cloud.apps[id].name == svc.entry <==> id == own)
      {
        var id := ids[i];
        assert id in ids && ids[..i + 1] == ids[..i] + [id];
        if (cloud.apps[id].name == svc.entry) != (id == own) {
          return false;
        }
        if id == own {
          found := true;
        }
      }
      assert ids[..|ids|] == ids;
      ok := own == 0 || found;
    }

    /** An update keeps the settings an administrator made; 0 on failure. */
    method PutApp(svc: Service) returns (id: Id)
      requires Valid() && Registered(svc) && Key(svc.id, KSpectrum) in table && AppsFit(table, cloud, svc)
      modifies `table, `cloud, `oracle, `trouble
      ensures Valid() && trouble >= old(trouble) && (trouble == old(trouble) <==> id != 0)
      ensures table == old(table) && cloud == old(cloud).(apps := cloud.apps)
      ensures Respects(svc.id, digest, old(table), old(cloud), cloud)
      ensures id != 0 ==> AppStands(table, cloud, svc, id)
      ensures forall x :: old(AppStands(table, cloud, svc, x)) ==> cloud == old(cloud) && (id != 0 ==> id == x)
      ensures old(oracle) == [] ==> oracle == [] && trouble == old(trouble)
      ensures SettingsKept(RowId(old(table), svc.id, KSpectrum), old(cloud).apps, cloud.apps)
      ensures id != 0 ==>
                id in old(cloud).apps && SettingsFilled(old(cloud).apps[id].settings, cloud.apps[id].settings)
    {
      hide Reconciled;
      hide StraysExplained;
      hide ReadableRoutes;
      hide ServiceValid;
      hide Respects;
      hide AppClear;
      SpectrumRow(services, table, cloud, digest, svc.id);
      id := RowId(table, svc.id, KSpectrum);
      var app := AppOf(svc, Kept(cloud.apps[id].settings));
      RespectsSelf(svc.id, digest, table, cloud);
      AppPut(services, table, cloud, digest, svc.id, id, app);
      AppPutFrame(svc.id, digest, table, cloud, id, app);
      AppFoundAgain(table, cloud, svc, id);
      KeptSurvives(cloud.apps, id, app);
      var f := Remote(WithAppPut(cloud, id, app));
      if f != Fine {
        return 0;
      }
      var key, row := Key(svc.id, KSpectrum), Resource(Object(id), Host(svc.entry));
      assert table[key := row] == table;
      var ok := Persist(table[key := row]);
      if !ok {
        id := 0;
      }
    }

    method EstablishApp(svc: Service, ghost t0: Table) returns (ok: bool)
      requires Valid() && Registered(svc) && Key(svc.id, KSpectrum) !in table && AppsFit(table, cloud, svc)
      modifies `table, `cloud, `oracle, `trouble
      ensures Valid() && trouble >= old(trouble) && (ok <==> trouble == old(trouble))
      ensures cloud == old(cloud).(nextId := cloud.nextId, apps := cloud.apps)
      ensures Respects(svc.id, digest, t0, old(cloud), cloud) && OwnRows(svc.id, old(table), table, old(cloud).nextId)
      ensures ok ==> old(cloud).nextId != 0 && AppStands(table, cloud, svc, old(cloud).nextId)
      ensures old(oracle) == [] ==> oracle == [] && trouble == old(trouble)
      ensures (ok <==> Established(old(oracle)).going)
      ensures AppFollows(Established(old(oracle)), old(table), table, old(cloud), cloud, svc.id)
      ensures SettingsKept(RowId(old(table), svc.id, KSpectrum), old(cloud).apps, cloud.apps)
      ensures ok ==> cloud.apps[old(cloud).nextId].settings == EdgeSettings(false, "off", "off", None, None, "")
    {
      hide Reconciled;
      hide StraysExplained;
      hide ReadableRoutes;
      hide ServiceValid;
      hide Respects;
      hide OwnRows;
      hide OneRow;
      hide AppsFit;
      hide AppStands;
      hide AppOf;
      hide AppFollows;
      SpectrumRow(services, table, cloud, digest, svc.id);
      var s, id, app := svc.id, cloud.nextId, AppOf(svc, DEFAULT_SETTINGS);
      var key, row := Key(s, KSpectrum), Resource(Object(id), Host(svc.entry));
      RespectsSelf(s, digest, t0, cloud);
      AppCreated(services, table, cloud, digest, s, app);
      AppEstablished(table, cloud, svc);
      AppFrame(s, digest, t0, cloud, app);
      RowWritten(s, KSpectrum, row, table, id);
      StraysOtherRow(table, table[key := row], key, cloud.tunnels, mishaps);
      ghost var c0, faults := cloud, oracle;
      AppEnds(c0, table, app, s, row, faults);
      var f := Remote(WithApp(cloud, app));
      if f != Fine {
        return false;
      }
      AppRecorded(services, table, cloud, digest, s, id, svc.entry);
      ok := Persist(table[key := row]);
      if !ok {
        AppDropped(services, table, cloud, digest, s, id);
        var undone := Write(WithoutApp(cloud, id));
      }
    }

    // ----- Workers

    method SyncWorker(svc: Service) returns (r: Outcome)
      requires Valid() && Registered(svc) && svc.mode == "workers" && HostsAccepted(zone, svc) && Mapped(svc)
      modifies `table, `cloud, `oracle, `trouble
      ensures Valid() && trouble >= old(trouble) && cloud.routes == old(cloud).routes
      ensures Respects(svc.id, digest, old(table), old(cloud), cloud)
      ensures OwnRows(svc.id, old(table), table, old(cloud).nextId)
      ensures r.Synced? ==> WorkersCan(zone, digest, old(table), old(cloud), svc)
      ensures r.Synced? ==>
                WorkersDone(digest, table, cloud, svc, r.result) && WorkersCan(zone, digest, table, cloud, svc)
      ensures trouble == old(trouble) && WorkersCan(zone, digest, old(table), old(cloud), svc) ==> r.Synced?
      ensures forall x :: old(WorkersDone(digest, table, cloud, svc, x)) ==>
                table == old(table) && cloud == old(cloud) && (r.Synced? ==> r.result == x)
      ensures old(oracle) == [] ==> oracle == [] && trouble == old(trouble)
      ensures Follows(Play(WorkerPlan(zone, digest, old(table), old(cloud), svc), old(oracle)),
                      old(table), table, old(cloud), cloud, svc.id)
      ensures Unrowed(table, svc.id) ==> Silent(old(cloud), cloud)
    {
      hide Reconciled;
      hide StraysExplained;
      hide OwnRows;
      hide ReadableRoutes;
      hide ServiceValid;
      hide Respects;
      hide HostsAccepted;
      hide WorkerFits;
      hide WorkerStands;
      hide CanHold;
      hide HostInZone;
      hide Mapped;
      hide Play;
      hide Follows;
      hide WorkerPlan;
      hide Silent;
      hide Unrowed;
      ghost var t0, c0, faults := table, cloud, oracle;
      r := Rejected;
      WorkerPlays(zone, digest, table, cloud, svc, faults);
      StayFollows(Play(WorkerPlan(zone, digest, table, cloud, svc), faults), table, cloud, svc.id);
      RespectsSelf(svc.id, digest, table, cloud);
      OwnRowsSelf(svc.id, table, cloud.nextId);
      if zone.hasAccount && svc.protocol == "tcp" && HostInZone(svc.origin, zone.name) && svc.origin != svc.entry {
        var ok := CheckWorker(svc);
        if ok {
          ghost var rest := oracle;
          ok := PublishWorker(svc);
          WorkerFollows(zone, digest, t0, table, c0, cloud, svc, faults, rest);
          if ok {
            WorkerFitsAgain(digest, table, cloud, svc);
            r := Synced(SyncResult(Script(WorkerName(digest, svc.id)), 0, 0, Url("https", svc.entry, 0)));
          }
        }
      }
    }

    /** Everything that is read before the first write. */
    method CheckWorker(svc: Service) returns (ok: bool)
      requires Valid()
      modifies `oracle, `trouble
      ensures Valid() && trouble >= old(trouble)
      ensures ok ==> WorkerFits(digest, table, cloud, svc)
      ensures trouble == old(trouble) && WorkerFits(digest, table, cloud, svc) ==> ok
      ensures old(oracle) == [] ==> oracle == [] && trouble == old(trouble)
      ensures var p := Play(SIX_LOOKS, old(oracle));
              (ok <==> p.going && WorkerFits(digest, table, cloud, svc)) && (ok ==> oracle == p.rest)
    {
      hide Reconciled;
      hide StraysExplained;
      hide ReadableRoutes;
      hide DnsFree;
      hide WorkerRouteClear;
      hide WorkerRouteFits;
      hide Play;
      SixLooksPlay(oracle);
      WorkerRow(services, table, cloud, digest, svc.id);
      var d;
      ok, d := OwnedDns(svc.entry, svc.id);
      if !ok {
        return;
      }
      ok, d := OwnedDns(svc.origin, svc.id);
      if !ok {
        return;
      }
      ok := Read();
      if !ok {
        return;
      }
      var name := WorkerName(digest, svc.id);
      ok := Read();
      if !ok
         || (name in cloud.scripts && (Key(svc.id, KWorker) !in table || Tag(svc.id) !in cloud.scripts[name].tags)) {
        return false;
      }
      ok := CheckWorkerRoutes(svc);
    }

    method CheckWorkerRoutes(svc: Service) returns (ok: bool)
      requires Valid()
      modifies `oracle, `trouble
      ensures Valid() && trouble >= old(trouble)
      ensures ok ==> WorkerRouteFits(digest, table, cloud.workerRoutes, svc)
      ensures trouble == old(trouble) && WorkerRouteFits(digest, table, cloud.workerRoutes, svc) ==> ok
      ensures old(oracle) == [] ==> oracle == [] && trouble == old(trouble)
      ensures var p := Play([Look, Look], old(oracle));
              (ok <==> p.going && WorkerRouteFits(digest, table, cloud.workerRoutes, svc)) && (ok ==> oracle == p.rest)
    {
      hide Reconciled;
      hide StraysExplained;
      hide ReadableRoutes;
      hide RouteCovers;
      hide Play;
      PutPlays(Look, oracle);
      WorkerRow(services, table, cloud, digest, svc.id);
      var own := RowId(table, svc.id, KWorkerRoute);
      ok := Read();
      if ok {
        ok := Read();
      }
      if !ok {
        return;
      }
      var pending, found := cloud.workerRoutes.Keys, false;
      while pending != {}
        invariant pending <= cloud.workerRoutes.Keys
        invariant found <==> own in cloud.workerRoutes && own !in pending
        invariant forall id :: id in cloud.workerRoutes && id !in pending ==>
                    if id == own then cloud.workerRoutes[id] == WorkerRoute(Pattern(svc), WorkerName(digest, svc.id))
                    else !RouteCovers(cloud.workerRoutes[id].pattern, svc.entry) &&
                         !RouteCovers(cloud.workerRoutes[id].pattern, svc.origin)
      {
        var id :| id in pending;
        pending := pending - {id};
        var route := cloud.workerRoutes[id];
        if id == own {
          if route.pattern != Pattern(svc) || route.script != WorkerName(digest, svc.id) {
            return false;
          }
          found := true;
        } else if RouteCovers(route.pattern, svc.entry) || RouteCovers(route.pattern, svc.origin) {
          return false;
        }
      }
      ok := found || own == 0;
    }

    /** Intent first, then the origin record, the script, its closed subdomain, the entry record, and the route last. */
    method PublishWorker(svc: Service) returns (ok: bool)
      requires Valid() && Registered(svc) && WorkerFits(digest, table, cloud, svc) && svc.origin != svc.entry
      modifies `table, `cloud, `oracle, `trouble
      ensures Valid() && trouble >= old(trouble) && cloud.routes == old(cloud).routes
      ensures Respects(svc.id, digest, old(table), old(cloud), cloud)
      ensures OwnRows(svc.id, old(table), table, old(cloud).nextId)
      ensures ok ==> WorkerStands(digest, table, cloud, svc)
      ensures ok ==> WorkerDnsCan(old(cloud).dns, svc)
      ensures trouble == old(trouble) && WorkerDnsCan(old(cloud).dns, svc) ==> ok
      ensures old(WorkerStands(digest, table, cloud, svc)) ==> table == old(table) && cloud == old(cloud)
      ensures old(oracle) == [] ==> oracle == [] && trouble == old(trouble)
      ensures old(table).Keys <= table.Keys
      ensures if Coming(old(oracle)) == Refused then table == old(table) && cloud == old(cloud)
              else Key(svc.id, KWorkerDns) in table
    {
      hide Reconciled;
      hide StraysExplained;
      hide OwnRows;
      hide ReadableRoutes;
      hide ServiceValid;
      hide Respects;
      hide CanHold;
      hide Stands;
      hide DnsFree;
      hide WorkerRouteFits;
      hide WorkerRows;
      hide ScriptStands;
      hide ScriptFree;
      hide SameElsewhere;
      var s := svc.id;
      ghost var t0, c0 := table, cloud;
      RespectsSelf(s, digest, t0, cloud);
      var recorded := Key(s, KWorker) in table;
      WorkerRow(services, table, cloud, digest, s);
      ok := IntendWorker(svc, cloud.nextId);
      if ok {
        WorkerRouteFitsMoved(digest, t0, table, cloud, svc);
        ghost var t1 := table;
        ok := BuildWorker(svc, recorded, t0);
        OwnRowsTransitive(s, t0, t1, table, c0.nextId, c0.nextId);
      }
    }

    method BuildWorker(svc: Service, recorded: bool, ghost t0: Table) returns (ok: bool)
      requires Valid() && Registered(svc) && svc.entry != svc.origin && WorkerRows(digest, table, svc)
      requires ScriptFree(digest, cloud, svc.id) && WorkerRouteFits(digest, table, cloud.workerRoutes, svc)
      requires !recorded ==> Key(svc.id, KWorkerRoute) !in table
      modifies `table, `cloud, `oracle, `trouble
      ensures Valid() && trouble >= old(trouble) && cloud.routes == old(cloud).routes
      ensures Respects(svc.id, digest, t0, old(cloud), cloud) && OwnRows(svc.id, old(table), table, old(cloud).nextId)
      ensures ok ==> WorkerStands(digest, table, cloud, svc) && WorkerDnsCan(old(cloud).dns, svc)
      ensures trouble == old(trouble) && WorkerDnsCan(old(cloud).dns, svc) ==> ok
      ensures old(WorkerStands(digest, table, cloud, svc)) ==> table == old(table) && cloud == old(cloud)
      ensures old(oracle) == [] ==> oracle == [] && trouble == old(trouble)
      ensures old(table).Keys <= table.Keys
    {
      hide Reconciled;
      hide StraysExplained;
      hide OwnRows;
      hide ReadableRoutes;
      hide ServiceValid;
      hide Respects;
      hide CanHold;
      hide Play;
      hide RecordPlan;
      hide DnsFollows;
      hide Stands;
      hide WorkerRouteFits;
      hide WorkerRows;
      hide ScriptStands;
      hide ScriptFree;
      hide SameElsewhere;
      hide WorkerStands;
      hide EntryReady;
      ghost var c0 := cloud;
      OwnRowsSelf(svc.id, table, cloud.nextId);
      ok := EnsureRecord(svc.id, OriginRecord(svc), t0);
      HeldElsewhere(c0.dns, cloud.dns, svc.origin, EntryRecord(svc), svc.id);
      WorkerStandsParts(digest, table, c0, svc);
      if ok {
        ghost var c1, t1 := cloud, table;
        ScriptFreeMoved(digest, c0, c1, svc);
        ok := OpenWorker(svc, recorded, t0);
        RespectsGrows(svc.id, digest, t0, c0, c1);
        RespectsTransitive(svc.id, digest, t0, c0, c1, cloud);
        OwnRowsLater(svc.id, t1, table, c0.nextId, c1.nextId);
      }
    }

    method OpenWorker(svc: Service, recorded: bool, ghost t0: Table) returns (ok: bool)
      requires Valid() && Registered(svc) && svc.entry != svc.origin && WorkerRows(digest, table, svc)
      requires ScriptFree(digest, cloud, svc.id) && WorkerRouteFits(digest, table, cloud.workerRoutes, svc)
      requires Stands(cloud.dns, OriginRecord(svc), svc.id)
      requires !recorded ==> Key(svc.id, KWorkerRoute) !in table
      modifies `table, `cloud, `oracle, `trouble
      ensures Valid() && trouble >= old(trouble) && cloud.routes == old(cloud).routes
      ensures Respects(svc.id, digest, t0, old(cloud), cloud) && OwnRows(svc.id, old(table), table, old(cloud).nextId)
      ensures ok ==> WorkerStands(digest, table, cloud, svc) && CanHold(old(cloud).dns, EntryRecord(svc), svc.id)
      ensures trouble == old(trouble) && CanHold(old(cloud).dns, EntryRecord(svc), svc.id) ==> ok
      ensures old(WorkerStands(digest, table, cloud, svc)) ==> table == old(table) && cloud == old(cloud)
      ensures old(oracle) == [] ==> oracle == [] && trouble == old(trouble)
      ensures old(table).Keys <= table.Keys
    {
      hide Reconciled;
      hide StraysExplained;
      hide OwnRows;
      hide ReadableRoutes;
      hide ServiceValid;
      hide Respects;
      hide CanHold;
      hide Stands;
      hide WorkerRouteFits;
      hide WorkerRows;
      hide ScriptStands;
      hide ScriptFree;
      ghost var c1, t1 := cloud, table;
      OwnRowsSelf(svc.id, table, cloud.nextId);
      ok := DeployScript(svc, recorded, t0);
      if ok {
        ghost var c2 := cloud;
        ok := PublishEntry(svc, t0);
        RespectsGrows(svc.id, digest, t0, c1, c2);
        RespectsTransitive(svc.id, digest, t0, c1, c2, cloud);
        OwnRowsLater(svc.id, t1, table, c1.nextId, c2.nextId);
      }
    }

    /** The rows that let a later cleanup find what an interrupted publication leaves. */
    method IntendWorker(svc: Service, ghost n: Id) returns (ok: bool)
      requires Valid() && Registered(svc) && WorkerFits(digest, table, cloud, svc)
      modifies `table, `oracle, `trouble
      ensures Valid() && trouble >= old(trouble) && (ok <==> trouble == old(trouble))
      ensures OwnRows(svc.id, old(table), table, n) && WorkerRouteRowSame(old(table), table, svc.id)
      ensures ok ==> WorkerRows(digest, table, svc)
      ensures old(WorkerRows(digest, table, svc)) ==> table == old(table)
      ensures old(oracle) == [] ==> oracle == [] && trouble == old(trouble)
      ensures old(table).Keys <= table.Keys
      ensures if Coming(old(oracle)) == Refused then !ok && table == old(table) else Key(svc.id, KWorkerDns) in table
    {
      hide Reconciled;
      hide StraysExplained;
      hide OwnRows;
      hide OneRow;
      hide ReadableRoutes;
      hide ServiceValid;
      hide WorkerRouteFits;
      hide DnsFree;
      var s, host := svc.id, Host(svc.entry);
      var dnsRow, row := Resource(Blank, host), Resource(Script(WorkerName(digest, s)), host);
      DnsIntended(services, table, cloud, digest, s, host);
      RowWritten(s, KWorkerDns, dnsRow, table, n);
      StraysOtherRow(table, table[Key(s, KWorkerDns) := dnsRow], Key(s, KWorkerDns), cloud.tunnels, mishaps);
      SameRow(table, Key(s, KWorkerDns), dnsRow);
      SameRow(table, Key(s, KWorker), row);
      ghost var t0 := table;
      ok := Persist(table[Key(s, KWorkerDns) := dnsRow]);
      if ok {
        ok := SaveWorkerRow(svc, n);
        OwnRowsTransitive(s, t0, t0[Key(s, KWorkerDns) := dnsRow], table, n, n);
      }
    }

    method SaveWorkerRow(svc: Service, ghost n: Id) returns (ok: bool)
      requires Valid() && Registered(svc)
      requires var name := WorkerName(digest, svc.id); name in cloud.scripts ==> Tag(svc.id) in cloud.scripts[name].tags
      modifies `table, `oracle, `trouble
      ensures Valid() && trouble >= old(trouble) && (ok <==> trouble == old(trouble))
      ensures var row := Resource(Script(WorkerName(digest, svc.id)), Host(svc.entry));
              table == old(table)[Key(svc.id, KWorker) := row] || (!ok && table == old(table))
      ensures OwnRows(svc.id, old(table), table, n)
      ensures old(oracle) == [] ==> oracle == [] && trouble == old(trouble)
      ensures old(table).Keys <= table.Keys
    {
      hide Reconciled;
      hide StraysExplained;
      hide OwnRows;
      hide OneRow;
      hide ReadableRoutes;
      hide ServiceValid;
      var key, row := Key(svc.id, KWorker), Resource(Script(WorkerName(digest, svc.id)), Host(svc.entry));
      WorkerIntended(services, table, cloud, digest, svc.id, Host(svc.entry));
      RowWritten(svc.id, KWorker, row, table, n);
      StraysOtherRow(table, table[key := row], key, cloud.tunnels, mishaps);
      ok := Persist(table[key := row]);
    }

    /** Upload and record again; a first upload whose record fails is undone. Then no address but the route may lead
        to the script. */
    method DeployScript(svc: Service, recorded: bool, ghost t0: Table) returns (ok: bool)
      requires Valid() && Registered(svc) && WorkerRows(digest, table, svc)
      requires ScriptFree(digest, cloud, svc.id) && (!recorded ==> Key(svc.id, KWorkerRoute) !in table)
      modifies `table, `cloud, `oracle, `trouble
      ensures Valid() && trouble >= old(trouble) && (trouble == old(trouble) ==> ok)
      ensures table == old(table) && cloud == old(cloud).(scripts := cloud.scripts)
      ensures Respects(svc.id, digest, t0, old(cloud), cloud)
      ensures ok ==> ScriptStands(digest, cloud, svc)
      ensures old(ScriptStands(digest, cloud, svc)) && recorded ==> cloud == old(cloud)
      ensures old(oracle) == [] ==> oracle == [] && trouble == old(trouble)
    {
      hide Reconciled;
      hide StraysExplained;
      hide ReadableRoutes;
      hide ServiceValid;
      hide Respects;
      var s, name := svc.id, WorkerName(digest, svc.id);
      var script := ScriptOf(svc, if name in cloud.scripts then cloud.scripts[name].reachable else true);
      RespectsSelf(s, digest, t0, cloud);
      ScriptPut(services, table, cloud, digest, s, script);
      ghost var c0 := cloud;
      ScriptFrame(digest, t0, cloud, s, script);
      ScriptFrame(digest, t0, cloud, s, script.(reachable := false));
      ScriptSame(cloud, name, script);
      ScriptTwice(cloud, name, script, script.(reachable := false));
      ScriptUndone(digest, t0, cloud, s, script);
      SameRow(table, Key(s, KWorker), Resource(Script(name), Host(svc.entry)));
      ok := Write(WithScript(cloud, name, script));
      if !ok {
        return;
      }
      ok := SaveWorkerRow(svc, 0);
      if !ok {
        if !recorded {
          ScriptDropped(services, table, cloud, digest, s);
          var undone := Write(WithoutScript(cloud, name));
        }
        return;
      }
      ScriptPut(services, table, cloud, digest, s, script.(reachable := false));
      ok := Write(WithScript(cloud, name, script.(reachable := false)));
    }

    /** The entry record, then the route, with its row or undone. */
    method PublishEntry(svc: Service, ghost t0: Table) returns (ok: bool)
      requires Valid() && Registered(svc) && svc.entry != svc.origin && EntryReady(digest, table, cloud, svc)
      modifies `table, `cloud, `oracle, `trouble
      ensures Valid() && trouble >= old(trouble) && cloud.routes == old(cloud).routes
      ensures Respects(svc.id, digest, t0, old(cloud), cloud) && OwnRows(svc.id, old(table), table, old(cloud).nextId)
      ensures ok ==> WorkerStands(digest, table, cloud, svc) && CanHold(old(cloud).dns, EntryRecord(svc), svc.id)
      ensures trouble == old(trouble) && CanHold(old(cloud).dns, EntryRecord(svc), svc.id) ==> ok
      ensures old(WorkerStands(digest, table, cloud, svc)) ==> table == old(table) && cloud == old(cloud)
      ensures old(oracle) == [] ==> oracle == [] && trouble == old(trouble)
      ensures old(table).Keys <= table.Keys
    {
      hide Reconciled;
      hide StraysExplained;
      hide OwnRows;
      hide ReadableRoutes;
      hide ServiceValid;
      hide Respects;
      hide CanHold;
      hide Play;
      hide RecordPlan;
      hide DnsFollows;
      hide Stands;
      hide SameElsewhere;
      hide WorkerRows;
      hide WorkerRouteFits;
      ghost var c0 := cloud;
      OwnRowsSelf(svc.id, table, cloud.nextId);
      ok := EnsureRecord(svc.id, EntryRecord(svc), t0);
      HeldElsewhere(c0.dns, cloud.dns, svc.entry, OriginRecord(svc), svc.id);
      if ok && Key(svc.id, KWorkerRoute) !in table {
        ghost var c1, t1 := cloud, table;
        ok := EstablishWorkerRoute(svc, t0);
        RespectsTransitive(svc.id, digest, t0, c0, c1, cloud);
        RespectsGrows(svc.id, digest, t0, c0, c1);
        OwnRowsLater(svc.id, t1, table, c0.nextId, c1.nextId);
      }
    }

    method EstablishWorkerRoute(svc: Service, ghost t0: Table) returns (ok: bool)
      requires Valid() && Registered(svc) && Key(svc.id, KWorkerRoute) !in table
      requires WorkerRows(digest, table, svc) && ScriptStands(digest, cloud, svc)
      requires WorkerRouteFits(digest, table, cloud.workerRoutes, svc)
      modifies `table, `cloud, `oracle, `trouble
      ensures Valid() && trouble >= old(trouble) && (ok <==> trouble == old(trouble))
      ensures cloud == old(cloud).(nextId := cloud.nextId, workerRoutes := cloud.workerRoutes)
      ensures Respects(svc.id, digest, t0, old(cloud), cloud) && OwnRows(svc.id, old(table), table, old(cloud).nextId)
      ensures ok ==> WorkerRows(digest, table, svc) && Key(svc.id, KWorkerRoute) in table
      ensures ok ==> WorkerRouteFits(digest, table, cloud.workerRoutes, svc)
      ensures old(oracle) == [] ==> oracle == [] && trouble == old(trouble)
      ensures old(table).Keys <= table.Keys
    {
      hide Reconciled;
      hide StraysExplained;
      hide ReadableRoutes;
      hide ServiceValid;
      hide Respects;
      hide OwnRows;
      hide OneRow;
      hide WorkerRouteFits;
      var s, id, route := svc.id, cloud.nextId, WorkerRoute(Pattern(svc), WorkerName(digest, svc.id));
      var key, row := Key(s, KWorkerRoute), Resource(Object(id), Host(svc.entry));
      WorkerRow(services, table, cloud, digest, s);
      RespectsSelf(s, digest, t0, cloud);
      WorkerRouteCreated(services, table, cloud, digest, s, route);
      WorkerRouteFrame(s, digest, t0, cloud, route);
      WorkerRouteFound(digest, table, cloud, svc);
      RowWritten(s, KWorkerRoute, row, table, id);
      StraysOtherRow(table, table[key := row], key, cloud.tunnels, mishaps);
      var f := Remote(WithWorkerRoute(cloud, route));
      if f != Fine {
        return false;
      }
      WorkerRouteRecorded(services, table, cloud, digest, s, id, svc.entry);
      ok := Persist(table[key := row]);
      if !ok {
        WorkerRouteDropped(services, table, cloud, digest, s, id);
        var undone := Write(WithoutWorkerRoute(cloud, id));
      }
    }

    // ----- cleanup

    /** A tunnel that no longer carries our name is left alone. */
    method CleanTunnel(svc: Service) returns (e: Status)
      requires Valid() && Registered(svc) && Key(svc.id, KTunnel) in table
      modifies `cloud, `oracle, `trouble
      ensures Valid() && trouble >= old(trouble) && Trimmed(digest, table, old(cloud), cloud, svc.id)
      ensures cloud.dns == old(cloud).dns && cloud.rules == old(cloud).rules
      ensures e != Failed ==> Gone(digest, table, cloud, Key(svc.id, KTunnel))
      ensures trouble == old(trouble) ==> e != Failed
      ensures old(oracle) == [] ==> oracle == [] && trouble == old(trouble)
    {
      hide Reconciled;
      hide StraysExplained;
      hide ReadableRoutes;
      hide ServiceValid;
      hide Trimmed;
      TrimmedSelf(digest, table, cloud, svc.id);
      RowsOwn(services, table, cloud, digest, svc.id);
      var id := RowId(table, svc.id, KTunnel);
      var ok := Read();
      if !ok {
        return Failed;
      }
      if id !in cloud.tunnels {
        return NotFound;
      }
      if cloud.tunnels[id].name != TunnelName(svc.id) {
        return Failed;
      }
      TunnelDropped(services, table, cloud, digest, svc.id, id);
      CleanTunnelTrim(digest, table, cloud, svc.id, mishaps);
      ok := Write(WithoutTunnel(cloud, id));
      e := if ok then Ok else Failed;
    }

    /** A route that no longer agrees with its row and the tunnel row is left alone. */
    method CleanPrivateRoute(svc: Service) returns (e: Status)
      requires Valid() && Registered(svc) && Key(svc.id, KPrivateRoute) in table
      modifies `cloud, `oracle, `trouble
      ensures Valid() && trouble >= old(trouble) && Trimmed(digest, table, old(cloud), cloud, svc.id)
      ensures cloud.dns == old(cloud).dns && cloud.rules == old(cloud).rules
      ensures e != Failed ==> Gone(digest, table, cloud, Key(svc.id, KPrivateRoute))
      ensures trouble == old(trouble) ==> e != Failed
      ensures old(oracle) == [] ==> oracle == [] && trouble == old(trouble)
    {
      hide Reconciled;
      hide StraysExplained;
      hide ReadableRoutes;
      hide ServiceValid;
      hide Trimmed;
      TrimmedSelf(digest, table, cloud, svc.id);
      RowsOwn(services, table, cloud, digest, svc.id);
      RouteRow(services, table, cloud, digest, svc.id);
      var id := RowId(table, svc.id, KPrivateRoute);
      var ok := Read();
      if !ok {
        return Failed;
      }
      if id !in cloud.routes {
        return NotFound;
      }
      ok := Read();
      if !ok || !OwnsRoute(table, svc.id, id, cloud.routes[id]) {
        return Failed;
      }
      RouteDropped(services, table, cloud, digest, svc.id, id);
      CleanPrivateRouteTrim(digest, table, cloud, svc.id, mishaps);
      ok := Write(WithoutRoute(cloud, id));
      e := if ok then Ok else Failed;
    }

    /** A route that no longer leads from the recorded host to our script is left alone. */
    method CleanWorkerRoute(svc: Service) returns (e: Status)
      requires Valid() && Registered(svc) && Key(svc.id, KWorkerRoute) in table
      modifies `cloud, `oracle, `trouble
      ensures Valid() && trouble >= old(trouble) && Trimmed(digest, table, old(cloud), cloud, svc.id)
      ensures cloud.dns == old(cloud).dns && cloud.rules == old(cloud).rules
      ensures e != Failed ==> Gone(digest, table, cloud, Key(svc.id, KWorkerRoute))
      ensures trouble == old(trouble) ==> e != Failed
      ensures old(oracle) == [] ==> oracle == [] && trouble == old(trouble)
    {
      hide Reconciled;
      hide StraysExplained;
      hide ReadableRoutes;
      hide ServiceValid;
      hide Trimmed;
      TrimmedSelf(digest, table, cloud, svc.id);
      RowsOwn(services, table, cloud, digest, svc.id);
      var id := RowId(table, svc.id, KWorkerRoute);
      var ok := Read();
      if !ok {
        return Failed;
      }
      if id !in cloud.workerRoutes {
        return NotFound;
      }
      if !OwnsWorkerRoute(table, digest, svc.id, id, cloud.workerRoutes[id]) {
        return Failed;
      }
      WorkerRouteDropped(services, table, cloud, digest, svc.id, id);
      CleanWorkerRouteTrim(digest, table, cloud, svc.id, mishaps);
      ok := Write(WithoutWorkerRoute(cloud, id));
      e := if ok then Ok else Failed;
    }

    /** A script without our tag is left alone; its route has gone before. */
    method CleanWorker(svc: Service) returns (e: Status)
      requires Valid() && Registered(svc) && Key(svc.id, KWorker) in table
      requires Key(svc.id, KWorkerRoute) in table ==> Gone(digest, table, cloud, Key(svc.id, KWorkerRoute))
      modifies `cloud, `oracle, `trouble
      ensures Valid() && trouble >= old(trouble) && Trimmed(digest, table, old(cloud), cloud, svc.id)
      ensures cloud.dns == old(cloud).dns && cloud.rules == old(cloud).rules
      ensures e != Failed ==> Gone(digest, table, cloud, Key(svc.id, KWorker))
      ensures trouble == old(trouble) ==> e != Failed
      ensures old(oracle) == [] ==> oracle == [] && trouble == old(trouble)
    {
      hide Reconciled;
      hide StraysExplained;
      hide ReadableRoutes;
      hide ServiceValid;
      hide Trimmed;
      TrimmedSelf(digest, table, cloud, svc.id);
      RowsOwn(services, table, cloud, digest, svc.id);
      WorkerRow(services, table, cloud, digest, svc.id);
      var name := WorkerName(digest, svc.id);
      if table[Key(svc.id, KWorker)].remote != Script(name) {
        return Failed;
      }
      var ok := Read();
      if !ok {
        return Failed;
      }
      if name !in cloud.scripts {
        return NotFound;
      }
      if Tag(svc.id) !in cloud.scripts[name].tags {
        return Failed;
      }
      ScriptDropped(services, table, cloud, digest, svc.id);
      CleanWorkerTrim(digest, table, cloud, svc.id, mishaps);
      ok := Write(WithoutScript(cloud, name));
      e := if ok then Ok else Failed;
    }

    /** An application whose hostname changed is left alone. */
    method CleanApp(svc: Service) returns (e: Status)
      requires Valid() && Registered(svc) && Key(svc.id, KSpectrum) in table
      modifies `cloud, `oracle, `trouble
      ensures Valid() && trouble >= old(trouble) && Trimmed(digest, table, old(cloud), cloud, svc.id)
      ensures cloud.dns == old(cloud).dns && cloud.rules == old(cloud).rules
      ensures e != Failed ==> Gone(digest, table, cloud, Key(svc.id, KSpectrum))
      ensures trouble == old(trouble) ==> e != Failed
      ensures old(oracle) == [] ==> oracle == [] && trouble == old(trouble)
    {
      hide Reconciled;
      hide StraysExplained;
      hide ReadableRoutes;
      hide ServiceValid;
      hide Trimmed;
      TrimmedSelf(digest, table, cloud, svc.id);
      RowsOwn(services, table, cloud, digest, svc.id);
      var id := RowId(table, svc.id, KSpectrum);
      var ok := Read();
      if !ok {
        return Failed;
      }
      if id !in cloud.apps {
        return NotFound;
      }
      if !OwnsApp(table, svc.id, id, cloud.apps[id]) {
        return Failed;
      }
      AppDropped(services, table, cloud, digest, svc.id, id);
      CleanAppTrim(digest, table, cloud, svc.id, mishaps);
      ok := Write(WithoutApp(cloud, id));
      e := if ok then Ok else Failed;
    }

    /** Every rule under the ref of the service, recorded or not. */
    method CleanRedirect(svc: Service) returns (e: Status)
      requires Valid() && Registered(svc)
      modifies `cloud, `oracle, `trouble
      ensures Valid() && trouble >= old(trouble) && Trimmed(digest, table, old(cloud), cloud, svc.id)
      ensures cloud == old(cloud).(rules := cloud.rules)
      ensures e == Ok || e == Failed
      ensures e == Ok ==> RefAbsent(cloud.rules, RuleRef(svc.id))
      ensures trouble == old(trouble) ==> e == Ok
      ensures old(oracle) == [] ==> oracle == [] && trouble == old(trouble)
    {
      hide Reconciled;
      hide StraysExplained;
      hide ReadableRoutes;
      hide ServiceValid;
      hide Trimmed;
      hide RuleRef;
      ghost var c0 := cloud;
      TrimmedSelf(digest, table, cloud, svc.id);
      RulesKnown(services, table, cloud, digest, svc);
      var ok := Read();
      if !ok {
        return Failed;
      }
      if cloud.ruleset == 0 {
        return Ok;
      }
      ok := Read();
      if !ok {
        return Failed;
      }
      var pending := cloud.rules.Keys;
      while pending != {}
        invariant Valid() && trouble >= old(trouble) && Trimmed(digest, table, c0, cloud, svc.id)
        invariant cloud == c0.(rules := cloud.rules)
        invariant old(oracle) == [] ==> oracle == [] && trouble == old(trouble)
        invariant forall id :: id in cloud.rules && id !in pending ==> cloud.rules[id].ref != RuleRef(svc.id)
      {
        var id :| id in pending;
        pending := pending - {id};
        if id in cloud.rules && cloud.rules[id].ref == RuleRef(svc.id) {
          RuleDropped(services, table, cloud, digest, svc.id, id);
          CleanRuleTrim(digest, table, c0, cloud, svc.id, id);
          ok := Write(WithoutRule(cloud, id));
          if !ok {
            return Failed;
          }
        }
      }
      e := Ok;
    }

    /** Every DNS record with the comment of the service. */
    method CleanDns(svc: Service) returns (e: Status)
      requires Valid() && Registered(svc)
      modifies `cloud, `oracle, `trouble
      ensures Valid() && trouble >= old(trouble) && Trimmed(digest, table, old(cloud), cloud, svc.id)
      ensures cloud == old(cloud).(dns := cloud.dns)
      ensures e == Ok || e == Failed
      ensures e == Ok ==> forall d :: d in cloud.dns ==> cloud.dns[d].comment != Mark(svc.id)
      ensures trouble == old(trouble) && |old(cloud).dns| <= PAGE_LIMIT * 100 ==> e == Ok
      ensures old(oracle) == [] ==> oracle == [] && trouble == old(trouble)
    {
      hide Reconciled;
      hide StraysExplained;
      hide ReadableRoutes;
      hide ServiceValid;
      hide Trimmed;
      hide Mark;
      ghost var c0 := cloud;
      TrimmedSelf(digest, table, cloud, svc.id);
      var listing := List(cloud.dns.Keys, 100);
      if listing.Unlisted? {
        return Failed;
      }
      for i := 0 to |listing.items|
        invariant Valid() && trouble >= old(trouble) && Trimmed(digest, table, c0, cloud, svc.id)
        invariant cloud == c0.(dns := cloud.dns)
        invariant old(oracle) == [] ==> oracle == [] && trouble == old(trouble)
        invariant forall id :: id in cloud.dns ==> id in c0.dns && cloud.dns[id] == c0.dns[id]
        invariant forall id :: id in cloud.dns && id in listing.items[..i] ==> cloud.dns[id].comment != Mark(svc.id)
      {
        var id := listing.items[i];
        assert id in listing.items && listing.items[..i + 1] == listing.items[..i] + [id];
        if id in cloud.dns && cloud.dns[id].comment == Mark(svc.id) {
          var ok := CleanRecord(svc.id, id, c0);
          if !ok {
            return Failed;
          }
        }
      }
      assert listing.items[..|listing.items|] == listing.items;
      e := Ok;
    }

    method CleanRecord(s: string, id: Id, ghost c0: Cloud) returns (ok: bool)
      requires Valid() && id in cloud.dns && cloud.dns[id].comment == Mark(s) && Trimmed(digest, table, c0, cloud, s)
      modifies `cloud, `oracle, `trouble
      ensures Valid() && trouble >= old(trouble) && (trouble == old(trouble) ==> ok)
      ensures Trimmed(digest, table, c0, cloud, s)
      ensures cloud == old(cloud).(dns := cloud.dns) && (ok ==> id !in cloud.dns)
      ensures forall d :: d in cloud.dns ==> d in old(cloud).dns && cloud.dns[d] == old(cloud).dns[d]
      ensures old(oracle) == [] ==> oracle == [] && trouble == old(trouble)
    {
      hide Reconciled;
      hide StraysExplained;
      hide ReadableRoutes;
      hide Trimmed;
      hide Mark;
      RecordDropped(services, table, cloud, digest, s, id);
      CleanRecordTrim(digest, table, c0, cloud, s, id);
      ok := Write(WithoutRecord(cloud, id));
    }

    method CleanRow(svc: Service, key: Key, last: Status) returns (e: Status)
      requires Valid() && Registered(svc) && key in table && key.owner == svc.id && last != Failed
      requires key.kind == KWorker && Key(svc.id, KWorkerRoute) in table ==>
                 Gone(digest, table, cloud, Key(svc.id, KWorkerRoute))
      modifies `cloud, `oracle, `trouble
      ensures Valid() && trouble >= old(trouble) && Trimmed(digest, table, old(cloud), cloud, svc.id)
      ensures cloud.dns == old(cloud).dns && (key.kind != KRedirect ==> cloud.rules == old(cloud).rules)
      ensures e != Failed ==> Gone(digest, table, cloud, key)
      ensures trouble == old(trouble) ==> e != Failed
      ensures old(oracle) == [] ==> oracle == [] && trouble == old(trouble)
    {
      hide Reconciled;
      hide StraysExplained;
      hide ReadableRoutes;
      hide ServiceValid;
      hide Trimmed;
      TrimmedSelf(digest, table, cloud, svc.id);
      match key.kind
      case KPrivateRoute => e := CleanPrivateRoute(svc);
      case KWorkerRoute => e := CleanWorkerRoute(svc);
      case KWorker => e := CleanWorker(svc);
      case KTunnel => e := CleanTunnel(svc);
      case KSpectrum => e := CleanApp(svc);
      case KRedirect => e := CleanRedirect(svc);
      case _ => e := last;
    }

    /** The rows of the connection, objects that depend on others first. */
    method Rows() returns (ok: bool, rows: seq<Key>)
      modifies `oracle, `trouble
      ensures trouble >= old(trouble) && (ok <==> trouble == old(trouble))
      ensures ok ==> Arranged(rows, table)
      ensures old(oracle) == [] ==> oracle == [] && trouble == old(trouble)
    {
      rows := [];
      ok := Read();
      if !ok {
        return;
      }
      var rest := table.Keys;
      while rest != {}
        invariant rest <= table.Keys
        invariant forall k :: k in rows <==> k in table && k !in rest
        invariant forall k, j :: k in rows && j in rest ==> Priority(k.kind) <= Priority(j.kind)
        invariant InOrder(rows) && trouble == old(trouble)
        invariant old(oracle) == [] ==> oracle == [] && trouble == old(trouble)
      {
        LeastPriority(rest);
        var k :| k in rest && forall j :: j in rest ==> Priority(k.kind) <= Priority(j.kind);
        rest := rest - {k};
        rows := rows + [k];
      }
    }

    /** Remote objects row by row; the last error is carried, and only "not found" lets the loop go on. */
    method CleanRows(svc: Service, rows: seq<Key>) returns (ok: bool)
      requires Valid() && Registered(svc) && Arranged(rows, table)
      modifies `cloud, `oracle, `trouble
      ensures Valid() && trouble >= old(trouble) && Trimmed(digest, table, old(cloud), cloud, svc.id)
      ensures cloud.dns == old(cloud).dns && (Key(svc.id, KRedirect) !in table ==> cloud.rules == old(cloud).rules)
      ensures ok ==> forall k :: k in table && k.owner == svc.id ==> Gone(digest, table, cloud, k)
      ensures trouble == old(trouble) ==> ok
      ensures old(oracle) == [] ==> oracle == [] && trouble == old(trouble)
    {
      hide Reconciled;
      hide StraysExplained;
      hide ReadableRoutes;
      hide ServiceValid;
      hide Trimmed;
      hide Gone;
      var s, err, i := svc.id, Ok, 0;
      ghost var c0 := cloud;
      TrimmedSelf(digest, table, cloud, s);
      while i < |rows|
        invariant 0 <= i <= |rows| && err != Failed
        invariant Valid() && trouble >= old(trouble) && Trimmed(digest, table, c0, cloud, s)
        invariant old(oracle) == [] ==> oracle == [] && trouble == old(trouble)
        invariant cloud.dns == c0.dns && (Key(s, KRedirect) !in table ==> cloud.rules == c0.rules)
        invariant forall j :: 0 <= j < i && rows[j].owner == s ==> Gone(digest, table, cloud, rows[j])
      {
        if rows[i].owner == s {
          ghost var c1 := cloud;
          RouteRowFirst(rows, table, i, s);
          err := CleanRow(svc, rows[i], err);
          TrimmedTransitive(digest, table, c0, c1, cloud, s);
          forall j | 0 <= j < i && rows[j].owner == s ensures Gone(digest, table, cloud, rows[j]) {
            GoneStays(digest, table, c1, cloud, s, rows[j]);
          }
          if err == Failed {
            return false;
          }
        }
        i := i + 1;
      }
      ok := true;
    }

    /** The rows go last, in the same order, so that what is left after a failure can still be cleaned. */
    method DropRows(svc: Service, rows: seq<Key>) returns (ok: bool)
      requires Valid() && Registered(svc) && Arranged(rows, table)
      requires forall k :: k in table && k.owner == svc.id ==> Gone(digest, table, cloud, k)
      requires forall d :: d in cloud.dns && cloud.dns[d].content.TunnelHost? ==> cloud.dns[d].comment != Mark(svc.id)
      modifies `table, `oracle, `trouble
      ensures Valid() && trouble >= old(trouble) && (ok <==> trouble == old(trouble))
      ensures forall k :: k in table ==> k in old(table) && table[k] == old(table)[k]
      ensures forall k :: k in old(table) && k.owner != svc.id ==> k in table
      ensures ok ==> table == WithoutRows(old(table), svc.id)
      ensures old(oracle) == [] ==> oracle == [] && trouble == old(trouble)
    {
      hide Reconciled;
      hide StraysExplained;
      hide ReadableRoutes;
      hide ServiceValid;
      hide Gone;
      hide WithoutRows;
      hide Mark;
      var s, i := svc.id, 0;
      ghost var t0 := table;
      while i < |rows|
        invariant 0 <= i <= |rows| && Valid() && trouble == old(trouble)
        invariant old(oracle) == [] ==> oracle == [] && trouble == old(trouble)
        invariant forall k :: k in table ==> k in t0 && table[k] == t0[k]
        invariant forall k :: k in t0 && (k.owner != s || k in rows[i..]) ==> k in table
        invariant forall j :: 0 <= j < i && rows[j].owner == s ==> rows[j] !in table
      {
        if rows[i].owner == s {
          DependentsFirst(rows, t0, i, s);
          ok := DropRow(rows[i], t0);
          if !ok {
            return;
          }
        }
        i := i + 1;
      }
      ok := true;
      AllDropped(t0, table, rows, s);
    }

    method DropRow(key: Key, ghost t0: Table) returns (ok: bool)
      requires Valid() && key in table && key in t0 && table[key] == t0[key] && Gone(digest, t0, cloud, key)
      requires key.kind == KTunnel ==> Key(key.owner, KPrivateRoute) !in table
      requires key.kind == KTunnel ==> forall d :: d in cloud.dns && cloud.dns[d].content.TunnelHost? ==>
                 cloud.dns[d].comment != Mark(key.owner)
      requires key.kind == KWorker ==> Key(key.owner, KWorkerRoute) !in table
      modifies `table, `oracle, `trouble
      ensures Valid() && trouble >= old(trouble) && (ok <==> trouble == old(trouble))
      ensures table == old(table) - {key} || (!ok && table == old(table))
      ensures old(oracle) == [] ==> oracle == [] && trouble == old(trouble)
    {
      hide Reconciled;
      hide StraysExplained;
      hide ReadableRoutes;
      hide Gone;
      hide Mark;
      TunnelRow(services, table, cloud, digest, key.owner);
      RowDropped(services, table, cloud, digest, key.owner, key.kind);
      DroppedRowStrays(digest, t0, table, cloud, mishaps, key);
      ok := Persist(table - {key});
    }

    /** Cleanup: when it reports success, the account is the swept one and no row of the service is left; a run that
        meets no fault succeeds from every reachable state. */
    method Cleanup(svc: Service) returns (ok: bool)
      requires Valid() && Registered(svc)
      modifies `table, `cloud, `oracle, `trouble
      ensures Valid() && trouble >= old(trouble)
      ensures Respects(svc.id, digest, old(table), old(cloud), cloud)
      ensures OwnRows(svc.id, old(table), table, old(cloud).nextId)
      ensures Trimmed(digest, old(table), old(cloud), cloud, svc.id)
      ensures old(RoutesDisjoint(cloud.routes)) ==> RoutesDisjoint(cloud.routes)
      ensures ok ==> table == WithoutRows(old(table), svc.id) && cloud == Swept(digest, old(table), old(cloud), svc)
      ensures trouble == old(trouble) && ZoneMatches(zone) && InventoryFits(old(cloud)) ==> ok
      ensures old(oracle) == [] ==> oracle == [] && trouble == old(trouble)
      ensures table == old(table) || cloud == Swept(digest, old(table), old(cloud), svc)
      ensures RowsFirst(svc.mode) && Accounted(svc, old(table), old(cloud)) ==> Accounted(svc, table, cloud)
    {
      hide Reconciled;
      hide StraysExplained;
      hide ReadableRoutes;
      hide ServiceValid;
      hide Trimmed;
      hide Gone;
      hide Swept;
      hide WithoutRows;
      hide Respects;
      hide OwnRows;
      hide RoutesDisjoint;
      hide InOrder;
      hide Arranged;
      hide Mark;
      hide ZoneMatches;
      hide Accounted;
      hide RowsFirst;
      ghost var c0, t0 := cloud, table;
      var rows;
      TrimmedSelf(digest, table, cloud, svc.id);
      CleanupFrame(services, digest, t0, t0, c0, c0, svc.id);
      ok := ClientFor();
      if !ok {
        return;
      }
      ok, rows := Rows();
      if !ok {
        return;
      }
      ok := CleanObjects(svc, rows);
      CleanupFrame(services, digest, t0, t0, c0, cloud, svc.id);
      if ok {
        NoCnames(services, table, c0, cloud, digest, svc);
        ok := DropRows(svc, rows);
        CleanupFrame(services, digest, t0, table, c0, cloud, svc.id);
      }
      CleanupAccounts(digest, svc, t0, table, c0, cloud);
    }

    method CleanObjects(svc: Service, rows: seq<Key>) returns (ok: bool)
      requires Valid() && Registered(svc) && Arranged(rows, table)
      modifies `cloud, `oracle, `trouble
      ensures Valid() && trouble >= old(trouble) && Trimmed(digest, table, old(cloud), cloud, svc.id)
      ensures ok ==> cloud == Swept(digest, table, old(cloud), svc)
      ensures ok ==> forall k :: k in table && k.owner == svc.id ==> Gone(digest, table, cloud, k)
      ensures trouble == old(trouble) && |old(cloud).dns| <= PAGE_LIMIT * 100 ==> ok
      ensures old(oracle) == [] ==> oracle == [] && trouble == old(trouble)
    {
      hide Reconciled;
      hide StraysExplained;
      hide ReadableRoutes;
      hide ServiceValid;
      hide Trimmed;
      hide Gone;
      hide Swept;
      hide Arranged;
      hide RefAbsent;
      hide Mark;
      hide SweepsDns;
      hide IdsBelow;
      hide RuleRef;
      var s := svc.id;
      ghost var c0 := cloud;
      IdsNotZero(services, table, cloud, digest);
      ok := CleanRows(svc, rows);
      if !ok {
        return;
      }
      RedirectRowGone(digest, table, cloud, s);
      if svc.mode == "redirect" && Key(s, KRedirect) !in table {
        ghost var c1 := cloud;
        var e := CleanRedirect(svc);
        TrimmedTransitive(digest, table, c0, c1, cloud, s);
        AllStayGone(digest, table, c1, cloud, s);
        if e != Ok {
          return false;
        }
      }
      ok := SweepDns(svc, c0);
      if ok {
        TrimmedIsSwept(digest, table, c0, cloud, svc);
      }
    }

    /** The sweep of the zone, in the modes that have one. */
    method SweepDns(svc: Service, ghost c0: Cloud) returns (ok: bool)
      requires Valid() && Registered(svc) && Trimmed(digest, table, c0, cloud, svc.id)
      requires forall k :: k in table && k.owner == svc.id ==> Gone(digest, table, cloud, k)
      modifies `cloud, `oracle, `trouble
      ensures Valid() && trouble >= old(trouble) && Trimmed(digest, table, c0, cloud, svc.id)
      ensures cloud == old(cloud).(dns := cloud.dns) && (!SweepsDns(svc) ==> cloud == old(cloud))
      ensures ok && SweepsDns(svc) ==> forall d :: d in cloud.dns ==> cloud.dns[d].comment != Mark(svc.id)
      ensures forall k :: k in table && k.owner == svc.id ==> Gone(digest, table, cloud, k)
      ensures trouble == old(trouble) && |old(cloud).dns| <= PAGE_LIMIT * 100 ==> ok
      ensures old(oracle) == [] ==> oracle == [] && trouble == old(trouble)
    {
      hide Reconciled;
      hide StraysExplained;
      hide ReadableRoutes;
      hide ServiceValid;
      hide Trimmed;
      hide Gone;
      hide SweepsDns;
      hide Mark;
      ok := true;
      if SweepsDns(svc) {
        ghost var c := cloud;
        var e := CleanDns(svc);
        TrimmedTransitive(digest, table, c0, c, cloud, svc.id);
        AllStayGone(digest, table, c, cloud, svc.id);
        ok := e == Ok;
      }
    }

    // ----- the operations

    /** Sync: it succeeds in exactly the states that hold no conflict, unless a call fails; what it leaves is the
        published state; and in a published state it changes nothing, whatever call fails. */
    method Sync(svc: Service) returns (r: Outcome)
      requires Valid() && Registered(svc)
      modifies `table, `cloud, `oracle, `trouble, `mishaps
      ensures Valid() && trouble >= old(trouble)
      ensures Respects(svc.id, digest, old(table), old(cloud), cloud)
      ensures OwnRows(svc.id, old(table), table, old(cloud).nextId)
      ensures old(RoutesDisjoint(cloud.routes)) ==> RoutesDisjoint(cloud.routes)
      ensures r.Synced? ==> CanPublish(zone, digest, old(table), old(cloud), svc)
      ensures r.Synced? ==>
                Published(digest, table, cloud, svc, r.result) && CanPublish(zone, digest, table, cloud, svc)
      ensures trouble == old(trouble) ==>
              CanPublish(zone, digest, old(table), old(cloud), svc) && InventoryFits(old(cloud)) ==> r.Synced?
      ensures forall x :: old(Published(digest, table, cloud, svc, x)) ==>
                table == old(table) && cloud == old(cloud) && (r.Synced? ==> r.result == x)
      ensures Charged(old(mishaps), mishaps, svc.id, trouble - old(trouble)) && (r.Synced? ==> mishaps == old(mishaps))
      ensures old(oracle) == [] ==> oracle == [] && trouble == old(trouble)
      ensures Follows(Play(SyncPlan(zone, digest, old(table), old(cloud), svc), old(oracle)),
                      old(table), table, old(cloud), cloud, svc.id)
      ensures RowsFirst(svc.mode) && Unrowed(table, svc.id) ==> Silent(old(cloud), cloud)
      ensures RowsFirst(svc.mode) && Accounted(svc, old(table), old(cloud)) ==> Accounted(svc, table, cloud)
    {
      hide Reconciled;
      hide StraysExplained;
      hide ReadableRoutes;
      hide ServiceValid;
      hide Respects;
      hide OwnRows;
      hide RoutesDisjoint;
      hide HostsAccepted;
      hide ZoneMatches;
      hide TunnelDone;
      hide WarpDone;
      hide DirectDone;
      hide RedirectDone;
      hide SpectrumDone;
      hide WorkersDone;
      hide Play;
      hide Follows;
      hide Silent;
      hide Unrowed;
      hide WarpPlan;
      hide TunnelPlan;
      hide MappedPlan;
      hide Mapped;
      hide SyncPlan;
      hide Accounted;
      hide RowsFirst;
      ghost var t0, c0, faults := table, cloud, oracle;
      ValidTargets(svc);
      SyncPlays(zone, digest, table, cloud, svc, faults);
      StayFollows(Play(SyncPlan(zone, digest, table, cloud, svc), faults), table, cloud, svc.id);
      RespectsSelf(svc.id, digest, table, cloud);
      OwnRowsSelf(svc.id, table, cloud.nextId);
      r := Rejected;
      var ok := ClientFor();
      if ok {
        if svc.mode == "warp" {
          r := SyncTunnel(svc);
        } else if HostsAccepted(zone, svc) {
          if svc.mode == "tunnel" {
            r := SyncTunnel(svc);
          } else if Mapped(svc) {
            r := SyncMapped(svc);
          }
        }
      }
      SyncAccounts(Play(SyncPlan(zone, digest, t0, c0, svc), faults), svc, t0, table, c0, cloud);
    }

    /** The modes that publish the public mapping. */
    method SyncMapped(svc: Service) returns (r: Outcome)
      requires Valid() && Registered(svc) && ZoneMatches(zone) && HostsAccepted(zone, svc) && Mapped(svc)
      requires svc.mode != "warp" && svc.mode != "tunnel"
      modifies `table, `cloud, `oracle, `trouble
      ensures Valid() && trouble >= old(trouble) && cloud.routes == old(cloud).routes
      ensures Respects(svc.id, digest, old(table), old(cloud), cloud)
      ensures OwnRows(svc.id, old(table), table, old(cloud).nextId)
      ensures r.Synced? ==> CanPublish(zone, digest, old(table), old(cloud), svc)
      ensures r.Synced? ==>
                Published(digest, table, cloud, svc, r.result) && CanPublish(zone, digest, table, cloud, svc)
      ensures trouble == old(trouble) ==>
              CanPublish(zone, digest, old(table), old(cloud), svc) && InventoryFits(old(cloud)) ==> r.Synced?
      ensures forall x :: old(Published(digest, table, cloud, svc, x)) ==>
                table == old(table) && cloud == old(cloud) && (r.Synced? ==> r.result == x)
      ensures old(oracle) == [] ==> oracle == [] && trouble == old(trouble)
      ensures Follows(Play(MappedPlan(zone, digest, old(table), old(cloud), svc), old(oracle)),
                      old(table), table, old(cloud), cloud, svc.id)
      ensures RowsFirst(svc.mode) && Unrowed(table, svc.id) ==> Silent(old(cloud), cloud)
      ensures svc.mode == "spectrum" ==> cloud.dns == old(cloud).dns
    {
      hide Reconciled;
      hide StraysExplained;
      hide ReadableRoutes;
      hide ServiceValid;
      hide Respects;
      hide OwnRows;
      hide HostsAccepted;
      hide Mapped;
      hide ZoneMatches;
      hide DirectDone;
      hide RedirectDone;
      hide SpectrumDone;
      hide WorkersDone;
      hide DirectCan;
      hide RedirectCan;
      hide SpectrumCan;
      hide WorkersCan;
      hide Play;
      hide Follows;
      hide Silent;
      hide Unrowed;
      hide RedirectPlan;
      hide DirectPlan;
      hide SpectrumPlan;
      hide WorkerPlan;
      StopPlays(oracle);
      StayFollows(Play([Stop], oracle), table, cloud, svc.id);
      RespectsSelf(svc.id, digest, table, cloud);
      OwnRowsSelf(svc.id, table, cloud.nextId);
      if svc.mode == "redirect" {
        r := SyncRedirect(svc);
      } else if svc.mode == "dns" || svc.mode == "proxy" {
        r := SyncDirect(svc);
      } else if svc.mode == "spectrum" {
        r := SyncSpectrum(svc);
      } else if svc.mode == "workers" {
        r := SyncWorker(svc);
      } else {
        r := Rejected;
      }
    }

    /** TunnelToken: the token belongs to the tunnel that has just been published; Blank on failure. */
    method TunnelToken(svc: Service) returns (tunnel: RemoteId)
      requires Valid() && Registered(svc) && (svc.mode == "tunnel" || svc.mode == "warp")
      modifies `table, `cloud, `oracle, `trouble, `mishaps
      ensures Valid() && trouble >= old(trouble)
      ensures Respects(svc.id, digest, old(table), old(cloud), cloud)
      ensures OwnRows(svc.id, old(table), table, old(cloud).nextId)
      ensures old(RoutesDisjoint(cloud.routes)) ==> RoutesDisjoint(cloud.routes)
      ensures tunnel == Blank || (tunnel.Object? && TunnelStands(table, cloud, svc, tunnel.id))
      ensures trouble == old(trouble) ==>
              CanPublish(zone, digest, old(table), old(cloud), svc) && InventoryFits(old(cloud)) ==> tunnel != Blank
      ensures Charged(old(mishaps), mishaps, svc.id, trouble - old(trouble))
      ensures tunnel != Blank ==> mishaps == old(mishaps)
      ensures old(oracle) == [] ==> oracle == [] && trouble == old(trouble)
      ensures RowsFirst(svc.mode) && Accounted(svc, old(table), old(cloud)) ==> Accounted(svc, table, cloud)
    {
      hide Reconciled;
      hide StraysExplained;
      hide ReadableRoutes;
      hide ServiceValid;
      hide Respects;
      hide OwnRows;
      hide Accounted;
      hide RowsFirst;
      hide Follows;
      hide Play;
      hide RoutesDisjoint;
      hide TunnelStands;
      hide TunnelCan;
      hide WarpCan;
      hide ZoneMatches;
      tunnel := Blank;
      var r := Sync(svc);
      if r.Synced? {
        var ok := ClientFor();
        if ok {
          ok := Read();
        }
        tunnel := if ok then r.result.resource else Blank;
      }
    }

    /** updateService, refused while the engine runs the service, and createService: a guarded field changes only while
        the service owns no row. */
    method UpdateService(svc: Service, running: bool) returns (ok: bool)
      requires Valid() && ServiceValid(svc)
      modifies `services
      ensures Valid()
      ensures ok <==>
                !running && (Unrowed(table, svc.id) ||
                             (svc.id in old(services) && GuardedFieldsEqual(old(services)[svc.id], svc)))
      ensures svc.id in old(services) && !Unrowed(table, svc.id) ==>
                var was := old(services)[svc.id];
                ok <==> && !running && svc.mode == was.mode && svc.entry == was.entry && svc.origin == was.origin
                        && svc.manageDns == was.manageDns && svc.privateNetwork == was.privateNetwork
      ensures services == if ok then old(services)[svc.id := svc] else old(services)
    {
      hide Reconciled;
      hide StraysExplained;
      hide ReadableRoutes;
      hide ServiceValid;
      ok := && !running
            && ((svc.id in services && GuardedFieldsEqual(services[svc.id], svc))
                || forall k <- table :: k.owner != svc.id);
      if ok {
        ServiceUpdated(services, table, cloud, digest, svc);
        services := services[svc.id := svc];
      }
    }

    /** deleteService: refused while the engine runs the service, and while a row of it is left; a deleted service has
        no record that leads to a tunnel. */
    method DeleteService(s: string, running: bool) returns (ok: bool)
      requires Valid()
      modifies `services
      ensures Valid()
      ensures ok <==> !running && s in old(services) && Unrowed(table, s)
      ensures services == if ok then old(services) - {s} else old(services)
      ensures ok ==> forall d :: d in cloud.dns && cloud.dns[d].comment == Mark(s) ==> !cloud.dns[d].content.TunnelHost?
    {
      hide Reconciled;
      hide StraysExplained;
      hide ReadableRoutes;
      ok := !running && s in services && forall k <- table :: k.owner != s;
      if ok {
        ServiceDeleted(services, table, cloud, digest, s);
        services := services - {s};
        CnamesGone(services, table, cloud, digest, s);
      }
    }

    /** sync and then deleteService: when the service goes, and when something of it stays. */
    method PublishThenDelete(svc: Service) returns (r: Outcome, deleted: bool)
      requires Valid() && Registered(svc)
      modifies this
      ensures Valid()
      ensures var p := Play(SyncPlan(zone, digest, old(table), old(cloud), svc), old(oracle));
              && (deleted <==> old(Unrowed(table, svc.id)) && !p.saved)
              && (deleted && Traces(old(cloud), cloud, svc.id) <==>
                    old(Unrowed(table, svc.id)) && !p.saved && (old(Traces(cloud, cloud, svc.id)) || p.made))
      ensures deleted ==> svc.id !in services && (RowsFirst(svc.mode) ==> Silent(old(cloud), cloud))
    {
      hide Reconciled;
      hide StraysExplained;
      hide ReadableRoutes;
      hide ServiceValid;
      hide Published;
      hide CanPublish;
      hide RoutesDisjoint;
      hide Respects;
      hide OwnRows;
      hide Play;
      hide SyncPlan;
      hide Traces;
      hide Silent;
      r := Sync(svc);
      deleted := DeleteService(svc.id, false);
    }

    /** A run that leaves the record of a service that is gone: its row could not be saved. */
    method Orphan(svc: Service) returns (deleted: bool)
      requires Valid() && Registered(svc) && (svc.mode == "dns" || svc.mode == "proxy") && Unrowed(table, svc.id)
      requires CanPublish(zone, digest, table, cloud, svc) && !Stands(cloud.dns, DirectRecord(svc), svc.id)
      requires oracle == [Fine, Fine, Fine, Fine, Refused]
      modifies this
      ensures Valid() && deleted && svc.id !in services && Traces(old(cloud), cloud, svc.id)
    {
      hide Reconciled;
      hide StraysExplained;
      hide ReadableRoutes;
      hide Play;
      hide SyncPlan;
      hide Traces;
      SavedTooLate(oracle);
      DirectLeaves(zone, digest, table, cloud, svc, oracle);
      var r;
      r, deleted := PublishThenDelete(svc);
    }

    /** Without any fault, a redirect whose origin is taken leaves its entry record. */
    method RedirectOrphan(svc: Service) returns (deleted: bool)
      requires Valid() && Registered(svc) && svc.mode == "redirect" && svc.manageDns && Unrowed(table, svc.id)
      requires ZoneMatches(zone) && HostsAccepted(zone, svc) && Mapped(svc)
      requires CanHold(cloud.dns, EntryAddress(svc), svc.id) && !Stands(cloud.dns, EntryAddress(svc), svc.id)
      requires svc.origin != "" && !CanHold(cloud.dns, OriginAddress(svc), svc.id)
      requires oracle == []
      modifies this
      ensures Valid() && deleted && svc.id !in services && Traces(old(cloud), cloud, svc.id)
    {
      hide Reconciled;
      hide StraysExplained;
      hide ReadableRoutes;
      hide Play;
      hide SyncPlan;
      hide Traces;
      FaultFreeLeaves(zone, digest, table, cloud, svc);
      var r;
      r, deleted := PublishThenDelete(svc);
    }

    /** Cleanup and then deleteService: with a row to clean, the deletion goes through only once everything is swept,
        and what stays could be told before. */
    method CleanThenDelete(svc: Service) returns (ok: bool, deleted: bool)
      requires Valid() && Registered(svc)
      modifies this
      ensures Valid() && (ok ==> deleted)
      ensures ok || (deleted && !old(Unrowed(table, svc.id))) ==>
                && cloud == Swept(digest, old(table), old(cloud), svc)
                && (Traces(old(cloud), cloud, svc.id) <==> old(Unswept(table, cloud, svc)))
    {
      hide Reconciled;
      hide StraysExplained;
      hide ReadableRoutes;
      hide ServiceValid;
      hide RoutesDisjoint;
      hide Respects;
      hide OwnRows;
      hide Trimmed;
      hide Swept;
      hide Traces;
      hide Unswept;
      TunnelsKnown(services, table, cloud, digest);
      SweptTraces(table, cloud, digest, svc);
      ok := Cleanup(svc);
      deleted := DeleteService(svc.id, false);
    }

    /** Cleanup and then sync, without a fault: whether it makes the publication good could be told before. */
    method Recover(svc: Service) returns (ok: bool, r: Outcome)
      requires Valid() && Registered(svc)
      modifies this
      ensures Valid()
      ensures old(oracle) == [] && old(InventoryFits(cloud)) ==>
                (r.Synced? <==> old(Recoverable(zone, digest, table, cloud, svc)))
      ensures ok && r.Synced? ==> Published(digest, table, cloud, svc, r.result)
    {
      hide Reconciled;
      hide StraysExplained;
      hide ReadableRoutes;
      hide ServiceValid;
      hide RoutesDisjoint;
      hide Respects;
      hide OwnRows;
      hide Trimmed;
      hide Swept;
      hide Published;
      hide CanPublish;
      hide Follows;
      hide Play;
      hide Accounted;
      hide WithoutRows;
      hide InventoryFits;
      ghost var t0, c0 := table, cloud;
      RecoverIff(zone, digest, services, table, cloud, svc);
      NeedsZone(zone, digest, table, cloud, svc);
      r := Rejected;
      ok := Cleanup(svc);
      if ok {
        if InventoryFits(c0) {
          SweptFits(digest, t0, c0, svc);
        }
        r := Sync(svc);
      }
    }

    // ----- whole runs

    /** Any sequence of operations, with any faults. What is foreign to the services that act is never touched, nor
        are the rows and the publications of the others; what is added carries their evidence; private routes stay
        disjoint; a service is charged with at most one mishap for each attempt to publish it; a service that saves rows
        first has no record without a row that a cleanup sweeps; and Valid carries every invariant of Account.Reconciled
        to the end. Since the faults are arbitrary, the end may be any point at which a run is cut off. */
    method Run(ops: seq<Operation>)
      requires Valid() && forall op <- ops :: op.Update? ==> ServiceValid(op.svc)
      requires forall s <- services :: ServiceValid(services[s])
      modifies this
      ensures Valid()
      ensures old(RoutesDisjoint(cloud.routes)) ==> RoutesDisjoint(cloud.routes)
      ensures Untouched(Actors(ops), old(table), old(cloud), cloud) && Added(Actors(ops), old(cloud), cloud)
      ensures OtherRows(Actors(ops), old(table), table)
      ensures forall svc, x :: old(Bystander(Actors(ops), table, cloud, svc)) && ServiceValid(svc) ==>
                old(Published(digest, table, cloud, svc, x)) ==> Published(digest, table, cloud, svc, x)
      ensures forall s ::
                |NamedTunnels(cloud.tunnels, s)| <= (if TunnelLive(table, cloud.tunnels, s) then 1 else 0) + mishaps[s]
      ensures forall s :: old(mishaps)[s] <= mishaps[s] <= old(mishaps)[s] + Attempts(ops, s)
      ensures |mishaps| <= trouble && old(trouble) <= trouble && (trouble == old(trouble) ==> mishaps == old(mishaps))
      ensures forall s :: RowsFirstThroughout(old(services), ops, s) ==>
                old(AccountedFor(services, table, cloud, s)) ==> AccountedFor(services, table, cloud, s)
      ensures old(oracle) == [] ==> oracle == [] && trouble == old(trouble)
    {
      hide Reconciled;
      hide StraysExplained;
      hide ReadableRoutes;
      hide ServiceValid;
      hide RoutesDisjoint;
      hide Untouched;
      hide Added;
      hide RowsOldOrNew;
      hide Published;
      hide Bystander;
      hide OtherRows;
      hide AccountedFor;
      hide RowsFirst;
      hide Attempts;
      hide NamedTunnels;
      hide TunnelLive;
      ghost var t0, c0, sv0, acting := table, cloud, services, Actors(ops);
      UntouchedSelf(acting, t0, c0);
      AddedSelf(acting, c0);
      IdsOf(services, table, cloud, digest);
      RowsKnown(services, table, cloud, digest);
      hide IdsBelow;
      var i := 0;
      while i < |ops|
        invariant 0 <= i <= |ops| && Valid()
        invariant forall s <- services :: ServiceValid(services[s])
        invariant old(RoutesDisjoint(cloud.routes)) ==> RoutesDisjoint(cloud.routes)
        invariant Untouched(acting, t0, c0, cloud) && OtherRows(acting, t0, table) && Added(acting, c0, cloud)
        invariant RowsOldOrNew(t0, table, c0.nextId) && c0.nextId <= cloud.nextId
        invariant old(trouble) <= trouble && (trouble == old(trouble) ==> mishaps == old(mishaps))
        invariant old(oracle) == [] ==> oracle == [] && trouble == old(trouble)
        invariant forall s :: old(mishaps)[s] <= mishaps[s] <= old(mishaps)[s] + Attempts(ops[..i], s)
        invariant forall s :: RowsFirstThroughout(sv0, ops, s) ==>
                    && (s in services ==> RowsFirst(services[s].mode))
                    && (AccountedFor(sv0, t0, c0, s) ==> AccountedFor(services, table, cloud, s))
      {
        AttemptsGrow(ops, i);
        Step(ops[i], acting, t0, c0);
        i := i + 1;
      }
      assert ops[..i] == ops;
      AllStand(acting, t0, c0);
      NamedBound(table, cloud.tunnels, mishaps);
    }

    lemma AllStand(acting: set<string>, t0: Table, c0: Cloud)
      requires Valid() && ReadableRoutes(c0.routes) && RouteRecords(t0, c0.routes) && IdsBelow(c0)
      requires Untouched(acting, t0, c0, cloud) && Added(acting, c0, cloud) && OtherRows(acting, t0, table)
      requires RoutesDisjoint(c0.routes) ==> RoutesDisjoint(cloud.routes)
      ensures forall svc, x :: Bystander(acting, t0, c0, svc) && ServiceValid(svc) ==>
                Published(digest, t0, c0, svc, x) ==> Published(digest, table, cloud, svc, x)
    {
      hide Published;
      hide Reconciled;
      hide StraysExplained;
      hide Untouched;
      hide Added;
      hide OtherRows;
      hide ServiceValid;
      hide Bystander;
      hide ReadableRoutes;
      hide RoutesDisjoint;
      hide RouteRecords;
      hide IdsBelow;
      hide DnsUnique;
      DnsAlone(services, table, cloud, digest);
      forall svc, x | Bystander(acting, t0, c0, svc) && ServiceValid(svc) && Published(digest, t0, c0, svc, x)
        ensures Published(digest, table, cloud, svc, x)
      {
        BystanderStands(digest, acting, t0, table, c0, cloud, svc, x);
      }
    }

    /** One operation of the run. */
    method Step(op: Operation, ghost acting: set<string>, ghost t0: Table, ghost c0: Cloud)
      requires Valid() && (op.Update? ==> ServiceValid(op.svc)) && IdsBelow(c0)
      requires op.Update? || op.Delete? || op.id in acting
      requires forall s <- services :: ServiceValid(services[s])
      requires Untouched(acting, t0, c0, cloud) && OtherRows(acting, t0, table) && Added(acting, c0, cloud)
      requires RowsOldOrNew(t0, table, c0.nextId) && c0.nextId <= cloud.nextId
      modifies this
      ensures Valid() && forall s <- services :: ServiceValid(services[s])
      ensures old(RoutesDisjoint(cloud.routes)) ==> RoutesDisjoint(cloud.routes)
      ensures Untouched(acting, t0, c0, cloud) && OtherRows(acting, t0, table) && Added(acting, c0, cloud)
      ensures RowsOldOrNew(t0, table, c0.nextId) && c0.nextId <= cloud.nextId
      ensures trouble >= old(trouble)
      ensures if op.Publish? || op.Token? then Charged(old(mishaps), mishaps, op.id, trouble - old(trouble))
              else mishaps == old(mishaps)
      ensures forall s :: s in services ==>
                || (s in old(services) && services[s] == old(services)[s])
                || (op.Update? && services[s] == op.svc && op.svc.id == s)
      ensures forall s :: (s in old(services) ==> RowsFirst(old(services)[s].mode)) ==>
                old(AccountedFor(services, table, cloud, s)) ==> AccountedFor(services, table, cloud, s)
      ensures old(oracle) == [] ==> oracle == [] && trouble == old(trouble)
    {
      hide Reconciled;
      hide StraysExplained;
      hide ReadableRoutes;
      hide ServiceValid;
      hide RoutesDisjoint;
      hide Untouched;
      hide Added;
      hide RowsOldOrNew;
      hide IdsBelow;
      hide Respects;
      hide OwnRows;
      hide OtherRows;
      hide AccountedFor;
      hide Accounted;
      hide RowsFirst;
      hide Unrowed;
      hide GuardedFieldsEqual;
      ServicesNamed(services, table, cloud, digest);
      ghost var sv, t, c := services, table, cloud;
      if op.Update? {
        var ok := UpdateService(op.svc, op.running);
        if ok {
          UpdateAccounts(sv, t, c, op.svc);
        }
      } else if op.Delete? {
        var ok := DeleteService(op.id, op.running);
        if ok {
          DeleteAccounts(sv, t, c, op.id);
        }
      } else if op.id in services {
        Serve(op, services[op.id]);
        RespectsGrows(op.id, digest, t, c, cloud);
        UntouchedStep(digest, acting, t0, c0, t, c, cloud, op.id);
        AddedStep(digest, acting, t, c0, c, cloud, op.id);
        RowsStep(acting, t0, t, table, c0.nextId, c.nextId, op.id);
        ServeAccounts(digest, sv, t, table, c, cloud, c.nextId, op.id);
      }
    }

    /** One operation on a registered service: it touches only what that service owns. */
    method Serve(op: Operation, svc: Service)
      requires Valid() && Registered(svc) && !op.Update? && !op.Delete?
      modifies `table, `cloud, `oracle, `trouble, `mishaps
      ensures Valid() && trouble >= old(trouble)
      ensures Respects(svc.id, digest, old(table), old(cloud), cloud)
      ensures OwnRows(svc.id, old(table), table, old(cloud).nextId)
      ensures old(RoutesDisjoint(cloud.routes)) ==> RoutesDisjoint(cloud.routes)
      ensures Charged(old(mishaps), mishaps, svc.id, trouble - old(trouble)) && (op.Clean? ==> mishaps == old(mishaps))
      ensures old(oracle) == [] ==> oracle == [] && trouble == old(trouble)
      ensures RowsFirst(svc.mode) && Accounted(svc, old(table), old(cloud)) ==> Accounted(svc, table, cloud)
    {
      hide Reconciled;
      hide StraysExplained;
      hide ReadableRoutes;
      hide ServiceValid;
      hide RoutesDisjoint;
      hide Respects;
      hide OwnRows;
      hide Accounted;
      hide RowsFirst;
      hide Follows;
      hide Play;
      hide Published;
      hide CanPublish;
      hide Swept;
      hide Trimmed;
      RespectsSelf(svc.id, digest, table, cloud);
      OwnRowsSelf(svc.id, table, cloud.nextId);
      match op {
        case Publish(_) => var r := Sync(svc);
        case Clean(_) => var ok := Cleanup(svc);
        case Token(_) =>
          if svc.mode == "tunnel" || svc.mode == "warp" {
            var token := TunnelToken(svc);
          }
      }
    }

    /** Sync is idempotent: repeated after a success, it changes nothing in either store, t and c, that the first one
        left, and with no fault in between it returns the same result. */
    method Resync(svc: Service) returns (first: Outcome, second: Outcome, ghost t: Table, ghost c: Cloud)
      requires Valid() && Registered(svc)
      modifies `table, `cloud, `oracle, `trouble, `mishaps
      ensures Valid()
      ensures first.Synced? && trouble == old(trouble) && InventoryFits(cloud) ==> second == first
      ensures first.Synced? ==>
                ReadableRoutes(c.routes) && Published(digest, t, c, svc, first.result) && table == t && cloud == c
      ensures old(oracle) == [] ==> oracle == [] && trouble == old(trouble)
    {
      hide Reconciled;
      hide StraysExplained;
      hide ReadableRoutes;
      hide ServiceValid;
      hide Published;
      hide CanPublish;
      hide RoutesDisjoint;
      first := Sync(svc);
      t, c := table, cloud;
      second := Sync(svc);
    }
  }

  datatype Operation =
    | Publish(id: string) | Clean(id: string) | Token(id: string)
    | Update(svc: Service, running: bool) | Delete(id: string, running: bool)

  /** The services that a run publishes or cleans. */
  ghost function Actors(ops: seq<Operation>): set<string> {
    set op | op in ops && !op.Update? && !op.Delete? :: op.id
  }

  method Enumerate<T(!new, ==)>(members: set<T>) returns (order: seq<T>)
    ensures |order| == |members| && forall x :: x in order <==> x in members
  {
    order := [];
    var rest := members;
    while rest != {}
      invariant rest <= members && |order| + |rest| == |members|
      invariant forall x :: x in order <==> x in members && x !in rest
    {
      var x :| x in rest;
      order, rest := order + [x], rest - {x};
    }
  }

  /** Service s keeps to modes that save a row first. */
  ghost predicate RowsFirstThroughout(services: map<string, Service>, ops: seq<Operation>, s: string) {
    && (s in services ==> RowsFirst(services[s].mode))
    && forall op <- ops :: op.Update? && op.svc.id == s ==> RowsFirst(op.svc.mode)
  }

  /** How often a run tries to publish s. */
  function Attempts(ops: seq<Operation>, s: string): nat {
    if ops == [] then 0
    else
      var op := ops[|ops| - 1];
      Attempts(ops[..|ops| - 1], s) + if (op.Publish? || op.Token?) && op.id == s then 1 else 0
  }

  lemma AttemptsGrow(ops: seq<Operation>, i: nat)
    requires i < |ops|
    ensures forall s :: Attempts(ops[..i + 1], s) ==
                        Attempts(ops[..i], s) + if (ops[i].Publish? || ops[i].Token?) && ops[i].id == s then 1 else 0
  {
    assert ops[..i + 1][..i] == ops[..i];
  }
}
