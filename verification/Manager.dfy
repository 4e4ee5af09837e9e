/** The manager of internal/engine/natmap.go as an object, and the output of a Quick Tunnel that reports to it
    (internal/engine/quick_tunnel.go). */
module Managing {
  import opened Basics
  import opened Engine
  import opened Router
  import opened QuickTunnel

  /** The step itself, with an order of its own in which StopAll lists the processes. */
  predicate Carries(step: Step, done: Step) {
    done == step || (step.StopAll? && done.StopAll? && done.tid == step.tid)
  }

  lemma DrawsSame(step: Step, done: Step, applied: iset<Gateway>)
    requires Draws([step], applied) && (done == step || done.StopAll?)
    ensures Draws([done], applied)
  {
    assert step in [step];
  }

  lemma StepKeepsValid(s: State, step: Step, applied: iset<Gateway>)
    requires Linked(s) && Apart(s) && UrlsCurrent(s) && From(s, applied) && (Stable(applied) ==> Ledger(s))
    requires Draws([step], applied)
    ensures var u := Next(s, step);
            && Linked(u) && Apart(u) && UrlsCurrent(u) && From(u, applied) && (Stable(applied) ==> Ledger(u))
  {
    hide Linked;
    hide Apart;
    hide UrlsCurrent;
    hide From;
    hide Stable;
    hide Ledger;
    hide Draws;
    hide Next;
    NextKeepsLinked(s, step);
    NextKeepsApart(s, step);
    NextKeepsUrls(s, step);
    NextKeepsFrom(s, step, applied);
    if Stable(applied) {
      NextKeepsLedger(s, step, applied);
    }
  }

  /** The fields in which two mappings differ for Apply: the old one is neither the same mapping nor in the same
      place. */
  predicate Differ(left: Gateway, right: Gateway) {
    && (|| left.mode != right.mode || left.gateway != right.gateway || left.internalIp != right.internalIp
        || left.internalPort != right.internalPort || left.externalPort != right.externalPort
        || left.protocol != right.protocol)
    && (|| left.mode != right.mode || left.gateway != right.gateway || left.control != right.control
        || left.externalPort != right.externalPort || left.protocol != right.protocol)
  }

  /** Within one gateway the entry of a replaced mapping is removed exactly when it is not the entry of the new one. */
  lemma DifferIff(left: Gateway, right: Gateway)
    requires Applicable(left) && Applicable(right) && left.mode == right.mode == "upnp"
    requires left.gateway == right.gateway && left.control == right.control
    ensures Differ(left, right) <==> Entries(left) != Entries(right)
  {
    assert EntryOf(left) in Entries(left) && EntryOf(right) in Entries(right);
    if Entries(left) == Entries(right) {
      assert EntryOf(left) in Entries(right);
    }
  }

  lemma CancelledNew(procs: map<Pid, Process>, pid: Pid, service: string)
    ensures Cancelled(procs[pid := Process(service, false, None, {})], pid) ==
            procs[pid := Process(service, true, None, {})]
  {
  }

  lemma StartedRow(rows: map<string, Row>, service: string, starter: Starter)
    ensures SetRuntime(rows, service, StartStatus(starter)) ==
            if service !in rows then rows
            else rows[service := if starter.Natmap? then Row("discovering", rows[service].url)
                                 else if starter.Quick? then Row("tunnel_starting", "")
                                 else Row("tunnel_running", rows[service].url)]
  {
  }

  /** Manager, with the process objects, the service rows, the router and the threads in flight as explicit fields.
      A method is one atomic section; a thread id stands for the goroutine that runs it. */
  class Manager {
    var processes: map<string, Pid>
    var procs: map<Pid, Process>
    var rows: map<string, Row>
    var router: set<Entry>
    var threads: map<Tid, Pc>
    var closing: bool
    ghost const applied: iset<Gateway>  // the mappings that are ever applied

    function View(): State
      reads this
    {
      State(processes, procs, rows, router, threads, closing)
    }

    /** What holds between any two sections. */
    ghost predicate Valid()
      reads this
    {
      && Linked(View()) && Apart(View()) && UrlsCurrent(View())
      && From(View(), applied) && (Stable(applied) ==> Ledger(View()))
    }

    constructor (rows: map<string, Row>, ghost applied: iset<Gateway>)
      requires forall service :: service in rows ==> rows[service].url == ""
      ensures Valid() && View() == Idle(rows) && this.applied == applied
    {
      processes, procs, this.rows, router, threads, closing := map[], map[], rows, {}, map[], false;
      this.applied := applied;
    }

    method Start(service: string, pid: Pid, starter: Starter, saved: bool)
      requires pid !in procs
      modifies this
      ensures View() == Next(old(View()), Step.Start(service, pid, starter, saved))
      ensures old(service in processes) ==> View() == old(View())
      ensures old(service !in processes) && (saved || starter.Natmap?) ==>
                && processes == old(processes)[service := pid]
                && procs == old(procs)[pid := Process(service, false, None, {})]
      ensures old(service !in processes) && !saved && !starter.Natmap? ==>
                processes == old(processes) && procs == old(procs)[pid := Process(service, true, None, {})]
      ensures rows == if old(service !in processes && service in rows) && saved
                      then var row := old(rows)[service];
                           old(rows)[service := if starter.Natmap? then Row("discovering", row.url)
                                                else if starter.Quick? then Row("tunnel_starting", "")
                                                else Row("tunnel_running", row.url)]
                      else old(rows)
    {
      hide SetRuntime;
      hide StartStatus;
      hide Cancelled;
      StartedRow(rows, service, starter);
      CancelledNew(procs, pid, service);
      if service in processes {
        return;
      }
      processes := processes[service := pid];
      procs := procs[pid := Process(service, false, None, {})];
      if saved {
        rows := SetRuntime(rows, service, StartStatus(starter));
      } else if starter != Natmap {
        processes := processes - {service};
        procs := Cancelled(procs, pid);
        assert processes == old(processes);
      }
    }

    method Stop(tid: Tid, service: string)
      requires tid !in threads
      modifies this
      ensures View() == Next(old(View()), Step.Stop(tid, service))
      ensures processes == old(processes) - {service} && router == old(router)
      ensures service in old(processes) && old(processes)[service] in old(procs) ==>
                var pid := old(processes)[service];
                threads == old(threads)[tid := Unlinked([pid])] &&
                procs == old(procs)[pid := old(procs)[pid].(cancelled := true)]
      ensures service !in old(processes) ==> threads == old(threads) && procs == old(procs)
      ensures rows == if service in old(rows) then old(rows)[service := Row("stopped", "")] else old(rows)
    {
      var found := service in processes;
      if found {
        var running := processes[service];
        processes := processes - {service};
        procs := Cancelled(procs, running);
        threads := threads[tid := Unlinked([running])];
      }
      rows := SetRuntime(rows, service, "stopped");
    }

    method StopAll(tid: Tid) returns (order: seq<Pid>)
      requires tid !in threads
      modifies this
      ensures View() == Next(old(View()), Step.StopAll(tid, order))
      ensures processes == map[] && closing && threads == old(threads)[tid := Unlinked(order)]
      ensures forall pid :: pid in order <==>
                exists service :: service in old(processes) && old(processes)[service] == pid
      ensures rows == old(rows) && router == old(router) && procs == old(procs)
    {
      order := [];
      var rest := processes.Keys;
      while rest != {}
        invariant rest <= processes.Keys && View() == old(View())
        invariant forall pid :: pid in order ==> pid in processes.Values
        invariant forall service :: service in processes && service !in rest ==> processes[service] in order
      {
        var service :| service in rest;
        order := order + [processes[service]];
        rest := rest - {service};
      }
      assert Lists(order, processes);
      processes, closing := map[], true;
      threads := threads[tid := Unlinked(order)];
    }

    /** wait, after the command has ended. */
    method Wait(tid: Tid, pid: Pid)
      requires tid !in threads && pid in procs
      modifies this
      ensures View() == Next(old(View()), Exit(tid, pid))
      ensures var p := old(procs)[pid];
              if old(p.service in processes && processes[p.service] == pid)
              then && processes == old(processes) - {p.service} && threads == old(threads)[tid := Unlinked([pid])]
                   && rows == if p.cancelled || p.service !in old(rows) then old(rows)
                              else old(rows)[p.service := Row("error", "")]
              else View() == old(View())
    {
      var service := procs[pid].service;
      if service !in processes || processes[service] != pid {
        return;
      }
      processes := processes - {service};
      if !procs[pid].cancelled {
        rows := SetRuntime(rows, service, "error");
      }
      threads := threads[tid := Unlinked([pid])];
    }

    /** ApplyGatewayMapping up to the lock. */
    method Add(tid: Tid, g: Gateway)
      requires tid !in threads
      modifies this
      ensures View() == Next(old(View()), Step.Add(tid, g))
      ensures if g.mode in {"upnp", "natpmp", "fw4"} && 1 <= g.internalPort <= 65535 && g.externalPort == g.internalPort
              then && threads == old(threads)[tid := Holding(g)]
                   && router == old(router) +
                                if g.mode == "upnp" then {Entry(g.control, g.externalPort, g.protocol)} else {}
              else View() == old(View())
    {
      if !Applicable(g) {
        return;
      }
      router := router + Entries(g);
      threads := threads[tid := Holding(g)];
    }

    /** ApplyGatewayMapping under the lock. */
    method Record(tid: Tid)
      requires tid in threads && threads[tid].Holding? && Linked(View())
      modifies this
      ensures View() == Next(old(View()), Step.Record(tid))
      ensures processes == old(processes) && rows == old(rows) && router == old(router)
      ensures var g := old(threads)[tid].state;
              g.service !in processes ==> procs == old(procs) && threads == old(threads)[tid := Owing(g)]
      ensures var g := old(threads)[tid].state;
              g.service in processes ==>
                var pid := processes[g.service];
                && procs == old(procs)[pid := old(procs)[pid].(gateway := Some(g))]
                && threads == if old(procs)[pid].gateway.Some? && Differ(old(procs)[pid].gateway.value, g)
                              then old(threads)[tid := Owing(old(procs)[pid].gateway.value)] else old(threads) - {tid}
    {
      var g := threads[tid].state;
      if g.service !in processes {
        threads := threads[tid := Owing(g)];
        return;
      }
      var running := processes[g.service];
      var previous := procs[running].gateway;
      procs := procs[running := procs[running].(gateway := Some(g))];
      if previous.Some? && !Same(previous.value, g) && Separate(previous.value, g) {
        threads := threads[tid := Owing(previous.value)];
      } else {
        threads := threads - {tid};
      }
    }

    /** removeGatewayMapping, in whichever thread. */
    method Remove(tid: Tid)
      requires tid in threads && !threads[tid].Holding? && Apart(View())
      modifies this
      ensures View() == Next(old(View()), Step.Remove(tid))
      ensures old(threads)[tid].Owing? ==>
                var g := old(threads)[tid].state;
                router == old(router) - if g.mode == "upnp" then {Entry(g.control, g.externalPort, g.protocol)} else {}
      ensures old(threads)[tid].Unlinked? && old(threads)[tid].pids != [] ==>
                var gone := old(procs)[old(threads)[tid].pids[0]].gateway;
                router == old(router) - if gone.Some? && gone.value.mode == "upnp"
                                        then {Entry(gone.value.control, gone.value.externalPort, gone.value.protocol)}
                                        else {}
      ensures processes == old(processes) && rows == old(rows)
    {
      match threads[tid] {
        case Owing(g) =>
          router := router - Entries(g);
          threads := threads - {tid};
        case Unlinked(pids) =>
          if pids != [] {
            router := router - EntriesOf(procs[pids[0]]);
            procs := Cancelled(procs, pids[0]);
          }
          threads := if |pids| <= 1 then threads - {tid} else threads[tid := Unlinked(pids[1..])];
      }
    }

    /** quickTunnelOutput.Write under the lock. */
    method Report(pid: Pid, url: string, saved: bool)
      requires pid in procs
      modifies this
      ensures View() == Next(old(View()), Step.Report(pid, url, saved))
      ensures var p := old(procs)[pid];
              rows == if old(p.service in processes && processes[p.service] == pid) && !p.cancelled && saved
                         && p.service in old(rows)
                      then old(rows)[p.service := Row("tunnel_running", url)] else old(rows)
      ensures processes == old(processes) && router == old(router) && threads == old(threads)
    {
      var p := procs[pid];
      if p.service in processes && processes[p.service] == pid && !p.cancelled && saved {
        rows := SetUrl(rows, p.service, url);
        rows := SetRuntime(rows, p.service, "tunnel_running");
      }
      procs := procs[pid := p.(printed := p.printed + {url})];
    }

    /** Any section or router call, as far as it is enabled; StopAll lists the processes in an order of its own. */
    method Perform(step: Step) returns (done: Step)
      requires Valid() && Draws([step], applied)
      modifies this
      ensures Valid() && View() == Next(old(View()), done) && Carries(step, done)
    {
      ghost var s := View();
      done := Enact(step);
      DrawsSame(step, done, applied);
      StepKeepsValid(s, done, applied);
    }

    method Enact(step: Step) returns (done: Step)
      requires Linked(View()) && Apart(View())
      modifies this
      ensures View() == Next(old(View()), done) && Carries(step, done)
    {
      hide Linked;
      hide Apart;
      done := step;
      match step {
        case Start(service, pid, starter, saved) =>
          if pid !in procs {
            Start(service, pid, starter, saved);
          }
        case Stop(tid, service) =>
          if tid !in threads {
            Stop(tid, service);
          }
        case StopAll(tid, _) =>
          if tid !in threads {
            var order := StopAll(tid);
            done := Step.StopAll(tid, order);
          }
        case Exit(tid, pid) =>
          if tid !in threads && pid in procs {
            Wait(tid, pid);
          }
        case Add(tid, g) =>
          if tid !in threads {
            Add(tid, g);
          }
        case Record(tid) =>
          if tid in threads && threads[tid].Holding? {
            Record(tid);
          }
        case Remove(tid) =>
          if tid in threads && !threads[tid].Holding? {
            Remove(tid);
          }
        case Report(pid, url, saved) =>
          if pid in procs {
            Report(pid, url, saved);
          }
        case Status(service, status) =>
          rows := SetRuntime(rows, service, status);
      }
    }

    /** Any sections and router calls, in any order: they are the steps of the engine one after the other, before
        shutdown each published address was printed by the command the map holds, and with nothing in flight the
        router holds only recorded entries. */
    method Run(steps: seq<Step>) returns (ghost done: seq<Step>)
      requires Valid() && Draws(steps, applied)
      modifies this
      ensures Valid() && View() == Engine.Run(old(View()), done)
      ensures |done| == |steps| && forall i :: 0 <= i < |steps| ==> Carries(steps[i], done[i])
      ensures Stable(applied) ==> Clean(View())
    {
      hide Stable;
      hide Next;
      ghost var s := View();
      done := [];
      RunNothing(s);
      for i := 0 to |steps|
        invariant Valid() && |done| == i && View() == Engine.Run(s, done)
        invariant forall k :: 0 <= k < i ==> Carries(steps[k], done[k])
      {
        assert Draws([steps[i]], applied);
        ghost var before := done;
        var step := Perform(steps[i]);
        done := done + [step];
        assert done[..i] == before && done[..i + 1] == done;
        RunAt(s, done, i);
      }
      if Stable(applied) {
        LedgerIsClean(View());
      }
    }
  }

  // ----- the output of a command

  /** The manager holds the command, and has not cancelled it. */
  predicate Listens(s: State, pid: Pid) { Current(s, pid) && !s.procs[pid].cancelled }

  function HitOf(o: Output, data: string): Option<string> {
    if o.found then None else Find(Lines(o.buffer + data), 0)
  }

  /** What one Write does to the manager. */
  function Heard(s: State, o: Output, pid: Pid, data: string, saved: bool): State {
    var hit := HitOf(o, data);
    if hit.Some? then Next(s, Report(pid, TrimRight(hit.value), saved)) else s
  }

  class QuickTunnelOutput {
    const manager: Manager
    const pid: Pid
    var buffer: string
    var found: bool
    var recorded: Option<string>

    function View(): Output
      reads this
    {
      Output(buffer, found, recorded)
    }

    constructor (manager: Manager, pid: Pid)
      ensures View() == FRESH && this.manager == manager && this.pid == pid
    {
      this.manager, this.pid := manager, pid;
      buffer, found, recorded := "", false, None;
    }

    /** The section under the manager's lock. */
    method Publish(address: string, saved: bool)
      requires pid in manager.procs
      modifies `found, `recorded, manager
      ensures var ok := old(Listens(manager.View(), pid)) && saved;
              found == (old(found) || ok) && recorded == (if ok then Some(address) else old(recorded))
      ensures manager.View() == Next(old(manager.View()), Report(pid, address, saved))
      ensures var service := old(manager.procs)[pid].service;
              old(Listens(manager.View(), pid)) && saved && service in old(manager.rows) ==>
                manager.rows == old(manager.rows)[service := Row("tunnel_running", address)]
      ensures !old(Listens(manager.View(), pid)) || !saved ==> manager.rows == old(manager.rows)
    {
      hide Next;
      if Listens(manager.View(), pid) && saved {
        recorded, found := Some(address), true;
      }
      manager.Report(pid, address, saved);
    }

    /** Write. `saved`: SetServiceRuntimeURL succeeds. */
    method Write(data: string, saved: bool) returns (n: nat)
      requires pid in manager.procs
      modifies this, manager
      ensures n == |data|
      ensures View() == Written(old(View()), data, old(Listens(manager.View(), pid)) && saved)
      ensures manager.View() == Heard(old(manager.View()), old(View()), pid, data, saved)
      ensures var service, hit := old(manager.procs)[pid].service, Find(Lines(old(buffer) + data), 0);
              if old(!found && Listens(manager.View(), pid)) && saved && hit.Some?
              then && found && recorded == Some(TrimRight(hit.value))
                   && (service in old(manager.rows) ==>
                         manager.rows == old(manager.rows)[service := Row("tunnel_running", TrimRight(hit.value))])
              else found == old(found) && recorded == old(recorded) && manager.rows == old(manager.rows)
    {
      hide Find;
      hide TrimRight;
      hide Next;
      hide Listens;
      NothingInNothing();
      n := |data|;
      if found {
        return;
      }
      buffer := buffer + data;
      var end := LineEnd(buffer);
      if end > 0 {
        var hit := Find(buffer[..end], 0);
        buffer := buffer[end..];
        if hit.Some? {
          Publish(TrimRight(hit.value), saved);
        }
      }
      if |buffer| > BUFFER_LIMIT {
        buffer := buffer[|buffer| - BUFFER_LIMIT..];
      }
    }
  }

  // ----- the address that is published

  /** One command's output, between the other steps of the engine. */
  datatype Event = Printed(data: string) | Meanwhile(step: Step)

  datatype Both = Both(engine: State, output: Output)

  /** Saves succeed. */
  function After(b: Both, pid: Pid, event: Event): Both {
    match event
    case Printed(data) =>
      Both(Heard(b.engine, b.output, pid, data, true), Written(b.output, data, Listens(b.engine, pid)))
    case Meanwhile(step) => b.(engine := Next(b.engine, step))
  }

  function AfterAll(b: Both, pid: Pid, events: seq<Event>): Both
    decreases |events|
  {
    if events == [] then b else AfterAll(After(b, pid, events[0]), pid, events[1..])
  }

  function Chunks(events: seq<Event>): seq<string> {
    if events == [] then []
    else (if events[0].Printed? then [events[0].data] else []) + Chunks(events[1..])
  }

  /** Output reaches the engine through Write alone. */
  predicate Elsewhere(event: Event, pid: Pid) {
    event.Meanwhile? && event.step.Report? ==> event.step.pid != pid
  }

  /** While the manager holds the command, its output is scanned as a whole, and has reported what it recorded. */
  ghost predicate Followed(b: Both, pid: Pid, stream: string) {
    && pid in b.engine.procs
    && (Current(b.engine, pid) ==>
          && Scanned(b.output, stream)
          && b.engine.procs[pid].printed == (if b.output.recorded.Some? then {b.output.recorded.value} else {}))
  }

  lemma PrintedKept(s: State, step: Step, pid: Pid)
    requires pid in s.procs && !(step.Report? && step.pid == pid)
    ensures pid in Next(s, step).procs && Next(s, step).procs[pid].printed == s.procs[pid].printed
  {
    hide SetRuntime;
    hide SetUrl;
    hide Same;
    hide Separate;
    hide Applicable;
    hide Entries;
    hide EntriesOf;
    hide Lists;
  }

  lemma MeanwhileKeepsFollowed(b: Both, pid: Pid, stream: string, step: Step)
    requires Followed(b, pid, stream) && Elsewhere(Meanwhile(step), pid)
    ensures Followed(After(b, pid, Meanwhile(step)), pid, stream)
  {
    hide Current;
    hide Next;
    hide Scanned;
    PrintedKept(b.engine, step, pid);
    if !Current(b.engine, pid) {
      NextSupersedes(b.engine, step, pid);
    }
  }

  lemma PrintedKeepsFollowed(b: Both, pid: Pid, stream: string, data: string)
    requires Followed(b, pid, stream) && Linked(b.engine) && |Tail(stream + data)| <= BUFFER_LIMIT
    ensures Followed(After(b, pid, Printed(data)), pid, stream + data)
  {
    hide Find;
    hide TrimRight;
    hide Tail;
    hide Lines;
    hide SetRuntime;
    hide SetUrl;
    if Current(b.engine, pid) {
      WrittenKeepsScanned(b.output, stream, data);
    }
  }

  ghost predicate Sane(s: State) { Linked(s) && Apart(s) && UrlsCurrent(s) }

  lemma StepKeepsSane(s: State, step: Step)
    requires Sane(s)
    ensures Sane(Next(s, step))
  {
    hide Next;
    hide Linked;
    hide Apart;
    hide UrlsCurrent;
    NextKeepsLinked(s, step);
    NextKeepsApart(s, step);
    NextKeepsUrls(s, step);
  }

  lemma EventKeepsSane(b: Both, pid: Pid, event: Event)
    requires Sane(b.engine)
    ensures Sane(After(b, pid, event).engine)
  {
    hide Sane;
    hide Next;
    hide HitOf;
    match event
    case Printed(data) =>
      var hit := HitOf(b.output, data);
      if hit.Some? {
        StepKeepsSane(b.engine, Report(pid, TrimRight(hit.value), true));
      }
    case Meanwhile(step) => StepKeepsSane(b.engine, step);
  }

  lemma {:induction false} AllKeepFollowed(b: Both, pid: Pid, stream: string, events: seq<Event>)
    requires Sane(b.engine) && Followed(b, pid, stream)
    requires (forall event <- events :: Elsewhere(event, pid)) && TailsFit(stream, Chunks(events))
    ensures Sane(AfterAll(b, pid, events).engine)
    ensures Followed(AfterAll(b, pid, events), pid, stream + Concat(Chunks(events)))
    decreases |events|
  {
    hide After;
    hide Followed;
    hide Tail;
    if events == [] {
      assert stream + Concat(Chunks(events)) == stream;
    } else {
      var event, rest := events[0], events[1..];
      EventKeepsSane(b, pid, event);
      match event {
        case Printed(data) =>
          assert Chunks(events)[1..] == Chunks(rest);
          PrintedKeepsFollowed(b, pid, stream, data);
          AllKeepFollowed(After(b, pid, event), pid, stream + data, rest);
          assert stream + data + Concat(Chunks(rest)) == stream + Concat(Chunks(events));
        case Meanwhile(step) =>
          assert Chunks(events) == Chunks(rest);
          MeanwhileKeepsFollowed(b, pid, stream, step);
          AllKeepFollowed(After(b, pid, event), pid, stream, rest);
      }
    }
  }

  // ----- the address arrives

  /** The event writes no state into the row of the service that clears its address. */
  predicate Quiet(event: Event, service: string) {
    event.Meanwhile? && event.step.Status? && event.step.service == service ==>
      event.step.status !in {"stopped", "error", "tunnel_starting"}
  }

  /** While the manager holds the command, the row of its service shows what the output has recorded. */
  ghost predicate Shown(b: Both, pid: Pid, service: string, first: string) {
    && pid in b.engine.procs && b.engine.procs[pid].service == service
    && (Current(b.engine, pid) ==>
          && service in b.engine.rows
          && b.engine.rows[service].url == if b.output.recorded.Some? then b.output.recorded.value else first)
  }

  lemma MeanwhileKeepsShown(b: Both, pid: Pid, step: Step, service: string, first: string)
    requires Shown(b, pid, service, first) && Linked(b.engine)
    requires Elsewhere(Meanwhile(step), pid) && Quiet(Meanwhile(step), service)
    ensures Shown(After(b, pid, Meanwhile(step)), pid, service, first)
  {
    hide Same;
    hide Separate;
    hide Applicable;
    hide Entries;
    hide EntriesOf;
    if !Current(b.engine, pid) {
      NextSupersedes(b.engine, step, pid);
      ServiceKept(b.engine, step, pid);
    }
  }

  lemma ServiceKept(s: State, step: Step, pid: Pid)
    requires pid in s.procs
    ensures pid in Next(s, step).procs && Next(s, step).procs[pid].service == s.procs[pid].service
  {
    hide SetRuntime;
    hide SetUrl;
    hide Same;
    hide Separate;
    hide Applicable;
    hide Entries;
    hide EntriesOf;
    hide Lists;
  }

  lemma PrintedKeepsShown(b: Both, pid: Pid, data: string, service: string, first: string)
    requires Shown(b, pid, service, first) && Linked(b.engine) && (b.output.found <==> b.output.recorded.Some?)
    ensures Shown(After(b, pid, Printed(data)), pid, service, first)
  {
    hide Find;
    hide TrimRight;
    hide Tail;
    hide Lines;
  }

  lemma {:induction false} AllKeepShown(b: Both, pid: Pid, events: seq<Event>, service: string, first: string)
    requires Shown(b, pid, service, first) && Sane(b.engine) && (b.output.found <==> b.output.recorded.Some?)
    requires forall event <- events :: Elsewhere(event, pid) && Quiet(event, service)
    ensures Shown(AfterAll(b, pid, events), pid, service, first)
    decreases |events|
  {
    hide After;
    hide Shown;
    if events != [] {
      var event := events[0];
      EventKeepsSane(b, pid, event);
      FoundIsRecorded(b, pid, event);
      match event {
        case Printed(data) => PrintedKeepsShown(b, pid, data, service, first);
        case Meanwhile(step) => MeanwhileKeepsShown(b, pid, step, service, first);
      }
      AllKeepShown(After(b, pid, event), pid, events[1..], service, first);
    }
  }

  lemma FoundIsRecorded(b: Both, pid: Pid, event: Event)
    requires b.output.found <==> b.output.recorded.Some?
    ensures var o := After(b, pid, event).output; o.found <==> o.recorded.Some?
  {
    hide Find;
    hide Next;
    hide Listens;
  }

  /** The other half: when saves succeed and nothing else clears the row, the leftmost match does arrive there, and
      until there is one the address stays what it was. */
  lemma LeftmostIsPublished(s: State, pid: Pid, events: seq<Event>)
    requires Sane(s) && Current(s, pid) && s.procs[pid].printed == {} && s.procs[pid].service in s.rows
    requires forall event <- events :: Elsewhere(event, pid) && Quiet(event, s.procs[pid].service)
    requires TailsFit("", Chunks(events))
    ensures var u, hit := AfterAll(Both(s, FRESH), pid, events).engine, Find(Lines(Concat(Chunks(events))), 0);
            var service := s.procs[pid].service;
            Current(u, pid) ==>
              && service in u.rows
              && u.rows[service].url == if hit.Some? then TrimRight(hit.value) else s.rows[service].url
  {
    hide Find;
    hide TrimRight;
    hide AfterAll;
    hide Apart;
    assert Lines("") == "" && Tail("") == "";
    NothingInNothing();
    AllKeepFollowed(Both(s, FRESH), pid, "", events);
    AllKeepShown(Both(s, FRESH), pid, events, s.procs[pid].service, s.rows[s.procs[pid].service].url);
    assert "" + Concat(Chunks(events)) == Concat(Chunks(events));
  }

  /** However a command's output is cut into writes, and whatever else happens in between: while the command is the one
      that the map holds, the address in its service's row can only be that of the leftmost match in the complete lines
      of all it has printed. */
  lemma PublishedIsLeftmost(s: State, pid: Pid, events: seq<Event>)
    requires Sane(s) && Current(s, pid) && s.procs[pid].printed == {}
    requires (forall event <- events :: Elsewhere(event, pid)) && TailsFit("", Chunks(events))
    ensures var u, hit := AfterAll(Both(s, FRESH), pid, events).engine, Find(Lines(Concat(Chunks(events))), 0);
            Current(u, pid) && !u.closing ==>
              var service := u.procs[pid].service;
              service in u.rows && u.rows[service].url != "" ==>
                hit.Some? && u.rows[service].url == TrimRight(hit.value)
  {
    hide Find;
    hide TrimRight;
    hide AfterAll;
    hide Apart;
    assert Lines("") == "" && Tail("") == "";
    NothingInNothing();
    AllKeepFollowed(Both(s, FRESH), pid, "", events);
    assert "" + Concat(Chunks(events)) == Concat(Chunks(events));
  }
}
