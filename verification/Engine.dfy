/** The connector processes of internal/engine under every interleaving: each section under the manager's lock and
    each call to the router is one atomic step of a transition system, and the threads between two such steps are
    part of the state. */
module Engine {
  import opened Basics

  type Pid = nat
  type Tid = nat

  /** A GatewayMapping. */
  datatype Gateway = Gateway(
    mode: string, service: string, gateway: string, control: string,
    internalIp: string, internalPort: int, externalPort: int, protocol: string)

  /** A port mapping of a UPnP router: what DeletePortMapping addresses. */
  datatype Entry = Entry(control: string, port: int, protocol: string)

  /** A started command. `printed` holds the tunnel addresses its output has contained. */
  datatype Process = Process(service: string, cancelled: bool, gateway: Option<Gateway>, printed: set<string>)

  datatype Row = Row(status: string, url: string)

  /** What a thread still has to do outside the lock. */
  datatype Pc =
    | Holding(state: Gateway)     // Apply: the router has the mapping, no process records it yet
    | Owing(state: Gateway)       // Apply: a mapping to remove
    | Unlinked(pids: seq<Pid>)    // Stop, StopAll, wait: processes taken out of the map

  datatype State = State(
    processes: map<string, Pid>, procs: map<Pid, Process>, rows: map<string, Row>,
    router: set<Entry>, threads: map<Tid, Pc>, closing: bool)

  datatype Starter = Natmap | Connector | Quick

  datatype Step =
    | Start(service: string, pid: Pid, starter: Starter, saved: bool)
    | Stop(tid: Tid, service: string)
    | StopAll(tid: Tid, order: seq<Pid>)
    | Exit(tid: Tid, pid: Pid)
    | Add(tid: Tid, state: Gateway)
    | Record(tid: Tid)
    | Remove(tid: Tid)
    | Report(pid: Pid, url: string, saved: bool)
    | Status(service: string, status: string)

  // ----- values

  predicate Same(left: Gateway, right: Gateway) {
    && left.mode == right.mode && left.gateway == right.gateway
    && left.internalIp == right.internalIp && left.internalPort == right.internalPort
    && left.externalPort == right.externalPort && left.protocol == right.protocol
  }

  predicate Separate(left: Gateway, right: Gateway) {
    left.mode != right.mode || left.gateway != right.gateway || left.control != right.control ||
    left.externalPort != right.externalPort || left.protocol != right.protocol
  }

  function EntryOf(g: Gateway): Entry { Entry(g.control, g.externalPort, g.protocol) }

  /** The UPnP entry of a mapping; other modes leave the router's table alone. */
  function Entries(g: Gateway): set<Entry> { if g.mode == "upnp" then {EntryOf(g)} else {} }

  function EntriesOf(p: Process): set<Entry> { if p.gateway.Some? then Entries(p.gateway.value) else {} }

  /** What ApplyGatewayMapping accepts: a supported mode and a port. */
  predicate Applicable(g: Gateway) {
    && (g.mode == "upnp" || g.mode == "natpmp" || g.mode == "fw4")
    && 1 <= g.internalPort <= 65535 && g.externalPort == g.internalPort
  }

  function StartStatus(starter: Starter): string {
    match starter
    case Natmap => "discovering"
    case Connector => "tunnel_running"
    case Quick => "tunnel_starting"
  }

  /** SetServiceRuntime: three states also clear the address. */
  function SetRuntime(rows: map<string, Row>, service: string, status: string): map<string, Row> {
    if service !in rows then rows
    else rows[service := Row(status, if status in {"stopped", "error", "tunnel_starting"} then ""
                else rows[service].url)]
  }

  /** SetServiceRuntimeURL. */
  function SetUrl(rows: map<string, Row>, service: string, url: string): map<string, Row> {
    if service !in rows then rows else rows[service := rows[service].(url := url)]
  }

  function Cancelled(procs: map<Pid, Process>, pid: Pid): map<Pid, Process> {
    if pid in procs then procs[pid := procs[pid].(cancelled := true)] else procs
  }

  /** The command is the one the map holds for its service. */
  predicate Current(s: State, pid: Pid) {
    pid in s.procs && s.procs[pid].service in s.processes && s.processes[s.procs[pid].service] == pid
  }

  predicate Lists(order: seq<Pid>, processes: map<string, Pid>) {
    Members(order) == processes.Values
  }

  // ----- the steps; a step that is not enabled changes nothing

  function Next(s: State, step: Step): State {
    match step
    case Start(service, pid, starter, saved) => NextStart(s, service, pid, starter, saved)
    case Stop(tid, service) => NextStop(s, tid, service)
    case StopAll(tid, order) => NextStopAll(s, tid, order)
    case Exit(tid, pid) => NextExit(s, tid, pid)
    case Add(tid, g) => NextAdd(s, tid, g)
    case Record(tid) => NextRecord(s, tid)
    case Remove(tid) => NextRemove(s, tid)
    case Report(pid, url, saved) => NextReport(s, pid, url, saved)
    case Status(service, status) => s.(rows := SetRuntime(s.rows, service, status))
  }

  /** A running service is left alone. A connector whose row cannot be saved is taken out again; NATMap stays. */
  function NextStart(s: State, service: string, pid: Pid, starter: Starter, saved: bool): State {
    if service in s.processes || pid in s.procs then s
    else if !saved && starter != Natmap then s.(procs := s.procs[pid := Process(service, true, None, {})])
    else s.(processes := s.processes[service := pid],
            procs := s.procs[pid := Process(service, false, None, {})],
            rows := if saved then SetRuntime(s.rows, service, StartStatus(starter)) else s.rows)
  }

  function NextStop(s: State, tid: Tid, service: string): State {
    if tid in s.threads then s
    else if service !in s.processes then s.(rows := SetRuntime(s.rows, service, "stopped"))
    else s.(processes := s.processes - {service},
            procs := Cancelled(s.procs, s.processes[service]),
            rows := SetRuntime(s.rows, service, "stopped"),
            threads := s.threads[tid := Unlinked([s.processes[service]])])
  }

  /** Shutdown: rows keep what they say. */
  function NextStopAll(s: State, tid: Tid, order: seq<Pid>): State {
    if tid in s.threads || !Lists(order, s.processes) then s
    else s.(processes := map[], threads := s.threads[tid := Unlinked(order)], closing := true)
  }

  /** wait, once the command has ended: a superseded command is ignored. */
  function NextExit(s: State, tid: Tid, pid: Pid): State {
    if tid in s.threads || !Current(s, pid) then s
    else
      var p := s.procs[pid];
      s.(processes := s.processes - {p.service},
         rows := if p.cancelled then s.rows else SetRuntime(s.rows, p.service, "error"),
         threads := s.threads[tid := Unlinked([pid])])
  }

  function NextAdd(s: State, tid: Tid, g: Gateway): State {
    if tid in s.threads || !Applicable(g) then s
    else s.(router := s.router + Entries(g), threads := s.threads[tid := Holding(g)])
  }

  /** The section of ApplyGatewayMapping under the lock. */
  function NextRecord(s: State, tid: Tid): State {
    if tid !in s.threads || !s.threads[tid].Holding? then s
    else
      var g := s.threads[tid].state;
      if g.service !in s.processes || s.processes[g.service] !in s.procs then s.(threads := s.threads[tid := Owing(g)])
      else
        var pid := s.processes[g.service];
        var previous := s.procs[pid].gateway;
        s.(procs := s.procs[pid := s.procs[pid].(gateway := Some(g))],
           threads := if previous.Some? && !Same(previous.value, g) && Separate(previous.value, g)
                      then s.threads[tid := Owing(previous.value)] else s.threads - {tid})
  }

  /** One removal. The mapping of an unlinked process is read only now, outside the lock. */
  function NextRemove(s: State, tid: Tid): State {
    if tid !in s.threads then s
    else match s.threads[tid]
      case Holding(_) => s
      case Owing(g) => s.(router := s.router - Entries(g), threads := s.threads - {tid})
      case Unlinked(pids) =>
        if pids == [] then s.(threads := s.threads - {tid})
        else
          s.(router := s.router - (if pids[0] in s.procs then EntriesOf(s.procs[pids[0]]) else {}),
             procs := Cancelled(s.procs, pids[0]),
             threads := if |pids| == 1 then s.threads - {tid} else s.threads[tid := Unlinked(pids[1..])])
  }

  /** The section of quickTunnelOutput.Write under the lock, after a match. */
  function NextReport(s: State, pid: Pid, url: string, saved: bool): State {
    if pid !in s.procs then s
    else
      var p := s.procs[pid];
      s.(procs := s.procs[pid := p.(printed := p.printed + {url})],
         rows := if Current(s, pid) && !p.cancelled && saved
                 then SetRuntime(SetUrl(s.rows, p.service, url), p.service, "tunnel_running") else s.rows)
  }

  function Run(s: State, steps: seq<Step>): State
    decreases |steps|
  {
    if steps == [] then s else Run(Next(s, steps[0]), steps[1..])
  }

  // ----- invariants

  /** The map holds started, uncancelled commands of their services. */
  ghost predicate Linked(s: State) {
    forall service :: service in s.processes ==>
      var pid := s.processes[service];
      pid in s.procs && s.procs[pid].service == service && !s.procs[pid].cancelled
  }

  /** A process a thread took out of the map does not come back, so no Apply changes its mapping any more. */
  ghost predicate Apart(s: State) {
    forall t, pid :: t in s.threads && s.threads[t].Unlinked? && pid in s.threads[t].pids ==>
      pid in s.procs && !Current(s, pid)
  }

  /** Until shutdown, a published address was printed by the very command that is running. */
  ghost predicate UrlsCurrent(s: State) {
    !s.closing ==>
      forall service :: service in s.rows && s.rows[service].url != "" ==>
        service in s.processes && s.processes[service] in s.procs &&
        s.rows[service].url in s.procs[s.processes[service]].printed
  }

  // ----- what every step keeps

  predicate ChangesMap(step: Step) { step.Start? || step.Stop? || step.StopAll? || step.Exit? }

  lemma MapStepsKeepLinked(s: State, step: Step)
    requires Linked(s) && Apart(s) && ChangesMap(step)
    ensures Linked(Next(s, step))
  {
    hide SetRuntime;
    hide Members;
  }

  lemma OtherStepsKeepLinked(s: State, step: Step)
    requires Linked(s) && Apart(s) && !ChangesMap(step)
    ensures Linked(Next(s, step))
  {
    hide SetRuntime;
    hide SetUrl;
    hide Same;
    hide Separate;
    hide Applicable;
    hide Entries;
    hide EntriesOf;
  }

  lemma NextKeepsLinked(s: State, step: Step)
    requires Linked(s) && Apart(s)
    ensures Linked(Next(s, step))
  {
    hide Linked;
    hide Apart;
    hide Next;
    if ChangesMap(step) {
      MapStepsKeepLinked(s, step);
    } else {
      OtherStepsKeepLinked(s, step);
    }
  }

  /** StopAll unlinks every process of the map. */
  lemma ListsAll(s: State, order: seq<Pid>)
    requires Linked(s) && Lists(order, s.processes)
    ensures forall pid :: pid in order ==> pid in s.procs
    ensures forall pid :: Current(s, pid) ==> pid in order
  {
    forall pid | pid in order ensures pid in s.procs {
      assert pid in Members(order);
      var service :| service in s.processes && s.processes[service] == pid;
    }
    forall pid | Current(s, pid) ensures pid in order {
      assert pid in s.processes.Values;
      assert pid in Members(order);
    }
  }

  /** The thread that unlinks processes is the only new one, and no unlinked process becomes current. */
  lemma UnlinkKeepsApart(s: State, u: State, tid: Tid)
    requires Apart(s) && tid in u.threads && u.threads[tid].Unlinked?
    requires forall t :: t in u.threads && t != tid ==> t in s.threads && u.threads[t] == s.threads[t]
    requires forall pid :: pid in s.procs ==> pid in u.procs && (Current(u, pid) ==> Current(s, pid))
    requires forall pid :: pid in u.threads[tid].pids ==> pid in u.procs && !Current(u, pid)
    ensures Apart(u)
  {
  }

  lemma UnlinkStepsKeepApart(s: State, step: Step)
    requires Linked(s) && Apart(s) && (step.Stop? || step.StopAll? || step.Exit?)
    ensures Apart(Next(s, step))
  {
    hide SetRuntime;
    hide Apart;
    var u := Next(s, step);
    if step.tid !in s.threads && step.tid in u.threads {
      if step.StopAll? {
        ListsAll(s, step.order);
      }
      UnlinkKeepsApart(s, u, step.tid);
    } else {
      assert u.processes == s.processes && u.procs == s.procs && u.threads == s.threads;
      StructureKeepsApart(s, u);
    }
  }

  /** Fewer or shorter duties, and no unlinked process that becomes current. */
  lemma StructureKeepsApart(s: State, u: State)
    requires Apart(s)
    requires forall t :: t in u.threads && u.threads[t].Unlinked? ==>
               t in s.threads && s.threads[t].Unlinked? &&
               forall pid :: pid in u.threads[t].pids ==> pid in s.threads[t].pids
    requires forall pid :: pid in s.procs ==> pid in u.procs && (Current(u, pid) ==> Current(s, pid))
    ensures Apart(u)
  {
  }

  predicate Settles(step: Step) { step.Record? || step.Remove? }

  lemma SettlingStepsKeepApart(s: State, step: Step)
    requires Apart(s) && Settles(step)
    ensures Apart(Next(s, step))
  {
    hide Apart;
    hide Same;
    hide Separate;
    hide Entries;
    hide EntriesOf;
    StructureKeepsApart(s, Next(s, step));
  }

  lemma OtherStepsKeepApart(s: State, step: Step)
    requires Apart(s) && !Settles(step) && !(step.Stop? || step.StopAll? || step.Exit?)
    ensures Apart(Next(s, step))
  {
    hide Apart;
    hide SetRuntime;
    hide SetUrl;
    hide Applicable;
    hide Entries;
    StructureKeepsApart(s, Next(s, step));
  }

  lemma NextKeepsApart(s: State, step: Step)
    requires Linked(s) && Apart(s)
    ensures Apart(Next(s, step))
  {
    hide Linked;
    hide Apart;
    hide Next;
    if step.Stop? || step.StopAll? || step.Exit? {
      UnlinkStepsKeepApart(s, step);
    } else if Settles(step) {
      SettlingStepsKeepApart(s, step);
    } else {
      OtherStepsKeepApart(s, step);
    }
  }

  lemma MapStepsKeepUrls(s: State, step: Step)
    requires Linked(s) && UrlsCurrent(s) && ChangesMap(step)
    ensures UrlsCurrent(Next(s, step))
  {
    hide Members;
  }

  lemma OtherStepsKeepUrls(s: State, step: Step)
    requires Linked(s) && UrlsCurrent(s) && !ChangesMap(step)
    ensures UrlsCurrent(Next(s, step))
  {
    hide Same;
    hide Separate;
    hide Applicable;
    hide Entries;
    hide EntriesOf;
  }

  /** Stopping, failing and starting clear the address, and only the running command sets it. */
  lemma NextKeepsUrls(s: State, step: Step)
    requires Linked(s) && UrlsCurrent(s)
    ensures UrlsCurrent(Next(s, step))
  {
    hide Linked;
    hide UrlsCurrent;
    hide Next;
    if ChangesMap(step) {
      MapStepsKeepUrls(s, step);
    } else {
      OtherStepsKeepUrls(s, step);
    }
  }

  // ----- whole runs

  /** The manager before its first command. */
  function Idle(rows: map<string, Row>): State { State(map[], map[], rows, {}, map[], false) }

  lemma {:induction false} RunKeepsStructure(s: State, steps: seq<Step>)
    requires Linked(s) && Apart(s)
    ensures Linked(Run(s, steps)) && Apart(Run(s, steps))
    decreases |steps|
  {
    hide Linked;
    hide Apart;
    hide Next;
    if steps != [] {
      NextKeepsLinked(s, steps[0]);
      NextKeepsApart(s, steps[0]);
      RunKeepsStructure(Next(s, steps[0]), steps[1..]);
    }
  }

  lemma {:induction false} RunKeepsUrls(s: State, steps: seq<Step>)
    requires Linked(s) && Apart(s) && UrlsCurrent(s)
    ensures UrlsCurrent(Run(s, steps))
    decreases |steps|
  {
    hide Linked;
    hide Apart;
    hide UrlsCurrent;
    hide Next;
    if steps != [] {
      NextKeepsLinked(s, steps[0]);
      NextKeepsApart(s, steps[0]);
      NextKeepsUrls(s, steps[0]);
      RunKeepsUrls(Next(s, steps[0]), steps[1..]);
    }
  }

  /** Whatever the schedule: before shutdown, an address in a row was printed by the command the map holds. */
  lemma AddressIsCurrent(rows: map<string, Row>, steps: seq<Step>, service: string)
    requires forall other :: other in rows ==> rows[other].url == ""
    ensures var s := Run(Idle(rows), steps);
            !s.closing && service in s.rows && s.rows[service].url != "" ==>
              service in s.processes && s.processes[service] in s.procs &&
              s.rows[service].url in s.procs[s.processes[service]].printed
  {
    RunKeepsUrls(Idle(rows), steps);
  }

  // ----- superseded commands

  /** A command that the map does not hold is never put there again. */
  lemma NextSupersedes(s: State, step: Step, pid: Pid)
    requires pid in s.procs && !Current(s, pid)
    ensures pid in Next(s, step).procs && !Current(Next(s, step), pid)
  {
    hide SetRuntime;
    hide SetUrl;
    hide Same;
    hide Separate;
    hide Applicable;
    hide Entries;
    hide EntriesOf;
    hide Lists;
  }

  lemma {:induction false} RunSupersedes(s: State, steps: seq<Step>, pid: Pid)
    requires pid in s.procs && !Current(s, pid)
    ensures pid in Run(s, steps).procs && !Current(Run(s, steps), pid)
    decreases |steps|
  {
    hide Current;
    hide Next;
    if steps != [] {
      NextSupersedes(s, steps[0], pid);
      RunSupersedes(Next(s, steps[0]), steps[1..], pid);
    }
  }

  /** The command speaks: its end reaches wait, or its output reaches Write. */
  predicate Of(step: Step, pid: Pid) { (step.Exit? || step.Report?) && step.pid == pid }

  /** From the moment a command is superseded, at any point of any run: its end and its late output change neither the
      map nor any row. */
  lemma SupersededIsInert(s: State, steps: seq<Step>, pid: Pid, k: nat)
    requires pid in s.procs && !Current(s, pid) && k < |steps| && Of(steps[k], pid)
    ensures Run(s, steps[..k + 1]).processes == Run(s, steps[..k]).processes
    ensures Run(s, steps[..k + 1]).rows == Run(s, steps[..k]).rows
  {
    hide Run;
    hide Next;
    hide Current;
    RunSupersedes(s, steps[..k], pid);
    RunAt(s, steps, k);
    SupersededStep(Run(s, steps[..k]), steps[k], pid);
  }

  lemma SupersededStep(s: State, step: Step, pid: Pid)
    requires !Current(s, pid) && Of(step, pid)
    ensures Next(s, step).processes == s.processes && Next(s, step).rows == s.rows
  {
  }

  lemma {:induction false} RunAt(s: State, steps: seq<Step>, k: nat)
    requires k < |steps|
    ensures Run(s, steps[..k + 1]) == Next(Run(s, steps[..k]), steps[k])
    decreases k
  {
    hide Next;
    if k == 0 {
      assert steps[..1][1..] == [];
    } else {
      RunAt(Next(s, steps[0]), steps[1..], k - 1);
      assert steps[..k + 1][1..] == steps[1..][..k] && steps[..k][1..] == steps[1..][..k - 1];
    }
  }

  lemma RunNothing(s: State)
    ensures Run(s, []) == s
  {
  }
}
