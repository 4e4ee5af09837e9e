/** The router's UPnP entries under every interleaving of the engine: when they leak, and when the entries that the
    processes record are there. */
module Router {
  import opened Basics
  import opened Engine

  // ----- who answers for an entry

  ghost predicate Recorded(s: State, e: Entry) {
    exists pid :: Current(s, pid) && e in EntriesOf(s.procs[pid])
  }

  /** A thread holds the entry or owes its removal. */
  ghost predicate InFlight(s: State, t: Tid, e: Entry) {
    t in s.threads &&
    match s.threads[t]
    case Holding(g) => e in Entries(g)
    case Owing(g) => e in Entries(g)
    case Unlinked(pids) => exists pid :: pid in pids && pid in s.procs && e in EntriesOf(s.procs[pid])
  }

  ghost predicate Answered(s: State, e: Entry) {
    Recorded(s, e) || exists t :: InFlight(s, t, e)
  }

  /** No leak: every entry on the router has someone who answers for it. */
  ghost predicate Ledger(s: State) {
    forall e :: e in s.router ==> Answered(s, e)
  }

  /** No thread in flight, and every entry on the router is recorded by a running process; with no process running the
      router is clean. */
  ghost predicate Clean(s: State) {
    s.threads == map[] ==>
      (forall e :: e in s.router ==> Recorded(s, e)) && (s.processes == map[] ==> s.router == {})
  }

  // ----- the mappings that are applied

  ghost predicate Draws(steps: seq<Step>, applied: iset<Gateway>) {
    forall step <- steps :: step.Add? ==> step.state in applied
  }

  /** Two mappings of one service that Apply takes for the same one have the same control URL. */
  ghost predicate Stable(applied: iset<Gateway>) {
    forall g, h :: g in applied && h in applied && Clashing(g, h) ==> g.control == h.control
  }

  /** UPnP mappings of one service that differ in the control URL at most. */
  predicate Clashing(g: Gateway, h: Gateway) {
    Applicable(g) && g.mode == "upnp" && h == g.(control := h.control)
  }

  /** Every mapping a process or thread has comes from `applied`, and a process has mappings of its own service. */
  ghost predicate From(s: State, applied: iset<Gateway>) {
    && (forall pid :: pid in s.procs && s.procs[pid].gateway.Some? ==>
          var g := s.procs[pid].gateway.value;
          g in applied && Applicable(g) && g.service == s.procs[pid].service)
    && (forall t :: t in s.threads && !s.threads[t].Unlinked? ==>
          s.threads[t].state in applied && Applicable(s.threads[t].state))
  }

  /** When Apply replaces a mapping without removing the old one, both are the same router entry. */
  lemma KeptEntry(left: Gateway, right: Gateway, applied: iset<Gateway>)
    requires Stable(applied) && left in applied && right in applied && Applicable(left)
    requires left.service == right.service && (Same(left, right) || !Separate(left, right))
    ensures Entries(left) == Entries(right)
  {
    hide Applicable;
    if left.mode == "upnp" && Same(left, right) {
      assert Clashing(left, right);
    }
  }

  lemma MapStepsKeepFrom(s: State, step: Step, applied: iset<Gateway>)
    requires From(s, applied) && ChangesMap(step)
    ensures From(Next(s, step), applied)
  {
    hide NextAdd;
    hide NextRecord;
    hide NextRemove;
    hide NextReport;
    hide SetRuntime;
    hide Lists;
    hide Applicable;
  }

  lemma OtherStepsKeepFrom(s: State, step: Step, applied: iset<Gateway>)
    requires Linked(s) && From(s, applied) && Draws([step], applied) && !ChangesMap(step)
    ensures From(Next(s, step), applied)
  {
    hide NextStart;
    hide NextStop;
    hide NextStopAll;
    hide NextExit;
    hide SetRuntime;
    hide SetUrl;
    hide Same;
    hide Separate;
    hide Applicable;
    hide Entries;
    hide EntriesOf;
    assert step in [step];
  }

  lemma NextKeepsFrom(s: State, step: Step, applied: iset<Gateway>)
    requires Linked(s) && From(s, applied) && Draws([step], applied)
    ensures From(Next(s, step), applied)
  {
    hide From;
    hide Linked;
    hide Draws;
    hide Next;
    if ChangesMap(step) {
      MapStepsKeepFrom(s, step, applied);
    } else {
      OtherStepsKeepFrom(s, step, applied);
    }
  }

  // ----- every entry stays answered for

  /** Who answers for an entry: the witness of Answered, by name. */
  lemma ByRecord(s: State, e: Entry, pid: Pid)
    requires Current(s, pid) && e in EntriesOf(s.procs[pid])
    ensures Answered(s, e)
  {
  }

  lemma ByThread(s: State, e: Entry, t: Tid)
    requires InFlight(s, t, e)
    ensures Answered(s, e)
  {
  }

  /** A process that leaves the map passes its mapping to the thread that unlinked it. */
  lemma UnlinkAnswers(s: State, u: State, tid: Tid, e: Entry)
    requires Answered(s, e) && tid !in s.threads && tid in u.threads && u.threads[tid].Unlinked?
    requires forall t :: t in s.threads ==> t in u.threads && u.threads[t] == s.threads[t]
    requires forall pid :: pid in s.procs ==> pid in u.procs && u.procs[pid].gateway == s.procs[pid].gateway
    requires forall pid :: Current(s, pid) ==> Current(u, pid) || pid in u.threads[tid].pids
    ensures Answered(u, e)
  {
    if Recorded(s, e) {
      var pid :| Current(s, pid) && e in EntriesOf(s.procs[pid]);
      if Current(u, pid) {
        ByRecord(u, e, pid);
      } else {
        ByThread(u, e, tid);
      }
    } else {
      var t :| InFlight(s, t, e);
      ByThread(u, e, t);
    }
  }

  /** Apply hands the entry it holds to the process, or owes its removal; the mapping it replaces is owed a removal
      unless it is the same entry. */
  lemma RecordAnswers(s: State, tid: Tid, applied: iset<Gateway>, e: Entry)
    requires Linked(s) && From(s, applied) && Stable(applied) && Answered(s, e)
    ensures Answered(NextRecord(s, tid), e)
  {
    hide From;
    hide Stable;
    hide Entries;
    hide NextRecord;
    if tid in s.threads && s.threads[tid].Holding? {
      if Recorded(s, e) {
        var pid :| Current(s, pid) && e in EntriesOf(s.procs[pid]);
        if s.procs[pid].service == s.threads[tid].state.service {
          ReplacedAnswers(s, tid, applied, e, pid);
        } else {
          OtherProcessAnswers(s, tid, e, pid);
        }
      } else {
        var t :| InFlight(s, t, e);
        HeldAnswers(s, tid, e, t);
      }
    } else {
      RecordIdle(s, tid);
    }
  }

  lemma RecordIdle(s: State, tid: Tid)
    requires !(tid in s.threads && s.threads[tid].Holding?)
    ensures NextRecord(s, tid) == s
  {
  }

  /** The mapping of a process of another service. */
  lemma OtherProcessAnswers(s: State, tid: Tid, e: Entry, pid: Pid)
    requires Linked(s) && tid in s.threads && s.threads[tid].Holding?
    requires Current(s, pid) && e in EntriesOf(s.procs[pid]) && s.procs[pid].service != s.threads[tid].state.service
    ensures Answered(NextRecord(s, tid), e)
  {
    hide Same;
    hide Separate;
    hide Entries;
    ByRecord(NextRecord(s, tid), e, pid);
  }

  /** The entry of the Apply itself, or of any other thread. */
  lemma HeldAnswers(s: State, tid: Tid, e: Entry, t: Tid)
    requires Linked(s) && tid in s.threads && s.threads[tid].Holding? && InFlight(s, t, e) && !Recorded(s, e)
    ensures Answered(NextRecord(s, tid), e)
  {
    hide Same;
    hide Separate;
    hide Entries;
    var u, g := NextRecord(s, tid), s.threads[tid].state;
    if t != tid {
      ByThread(u, e, t);
    } else if g.service in s.processes {
      ByRecord(u, e, s.processes[g.service]);
    } else {
      ByThread(u, e, tid);
    }
  }

  lemma ReplacedAnswers(s: State, tid: Tid, applied: iset<Gateway>, e: Entry, pid: Pid)
    requires Linked(s) && From(s, applied) && Stable(applied) && tid in s.threads && s.threads[tid].Holding?
    requires Current(s, pid) && s.procs[pid].service == s.threads[tid].state.service && e in EntriesOf(s.procs[pid])
    ensures Answered(NextRecord(s, tid), e)
  {
    var g, previous := s.threads[tid].state, s.procs[pid].gateway.value;
    if !Same(previous, g) && Separate(previous, g) {
      ByThread(NextRecord(s, tid), e, tid);
    } else {
      KeptEntry(previous, g, applied);
      ByRecord(NextRecord(s, tid), e, pid);
    }
  }

  /** A removal gives up exactly the entries it takes off the router. */
  lemma RemoveAnswers(s: State, tid: Tid, e: Entry)
    requires Answered(s, e) && e in NextRemove(s, tid).router
    ensures Answered(NextRemove(s, tid), e)
  {
    hide NextRemove;
    RemoveKeepsOthers(s, tid);
    var u := NextRemove(s, tid);
    if Recorded(s, e) {
      var pid :| Current(s, pid) && e in EntriesOf(s.procs[pid]);
      ByRecord(u, e, pid);
    } else {
      var t :| InFlight(s, t, e);
      if t == tid {
        RemoveKeepsOwn(s, tid, e);
      }
      ByThread(u, e, t);
    }
  }

  lemma RemoveKeepsOthers(s: State, tid: Tid)
    ensures var u := NextRemove(s, tid);
            && u.processes == s.processes
            && (forall pid :: pid in s.procs ==>
                  && pid in u.procs && u.procs[pid].gateway == s.procs[pid].gateway
                  && u.procs[pid].service == s.procs[pid].service)
            && (forall t :: t in s.threads && t != tid ==> t in u.threads && u.threads[t] == s.threads[t])
  {
    hide Entries;
  }

  lemma RemoveKeepsOwn(s: State, tid: Tid, e: Entry)
    requires InFlight(s, tid, e) && e in NextRemove(s, tid).router
    ensures InFlight(NextRemove(s, tid), tid, e)
  {
    hide Entries;
    if s.threads[tid].Unlinked? {
      var pids := s.threads[tid].pids;
      var pid :| pid in pids && pid in s.procs && e in EntriesOf(s.procs[pid]);
      assert pid in pids[1..];
    }
  }

  /** Steps that change neither map nor mapping leave every answer in place. */
  lemma PlainAnswers(s: State, step: Step, e: Entry)
    requires Linked(s) && Answered(s, e)
    requires step.Start? || step.Add? || step.Report? || step.Status?
    ensures Answered(Next(s, step), e)
  {
    hide NextStop;
    hide NextStopAll;
    hide NextExit;
    hide NextRecord;
    hide NextRemove;
    hide SetRuntime;
    hide SetUrl;
    hide Same;
    hide Separate;
    hide Applicable;
    hide Entries;
    var u := Next(s, step);
    if Recorded(s, e) {
      var pid :| Current(s, pid) && e in EntriesOf(s.procs[pid]);
      ByRecord(u, e, pid);
    } else {
      var t :| InFlight(s, t, e);
      ByThread(u, e, t);
    }
  }

  lemma NextAnswers(s: State, step: Step, applied: iset<Gateway>, e: Entry)
    requires Linked(s) && From(s, applied) && Stable(applied) && Answered(s, e) && e in Next(s, step).router
    ensures Answered(Next(s, step), e)
  {
    hide Answered;
    hide SetRuntime;
    var u := Next(s, step);
    match step
    case Stop(tid, _) =>
      if tid !in s.threads && step.service in s.processes {
        UnlinkAnswers(s, u, tid, e);
      } else {
        SameAnswers(s, u, e);
      }
    case StopAll(tid, order) =>
      if u != s {
        ListsAll(s, order);
        UnlinkAnswers(s, u, tid, e);
      }
    case Exit(tid, _) =>
      if u != s {
        UnlinkAnswers(s, u, tid, e);
      }
    case Record(tid) => RecordAnswers(s, tid, applied, e);
    case Remove(tid) => RemoveAnswers(s, tid, e);
    case _ => PlainAnswers(s, step, e);
  }

  lemma SameAnswers(s: State, u: State, e: Entry)
    requires Answered(s, e) && u.processes == s.processes && u.procs == s.procs && u.threads == s.threads
    ensures Answered(u, e)
  {
    if Recorded(s, e) {
      var pid :| Current(s, pid) && e in EntriesOf(s.procs[pid]);
      ByRecord(u, e, pid);
    } else {
      var t :| InFlight(s, t, e);
      ByThread(u, e, t);
    }
  }

  lemma NextKeepsLedger(s: State, step: Step, applied: iset<Gateway>)
    requires Linked(s) && From(s, applied) && Stable(applied) && Ledger(s)
    ensures Ledger(Next(s, step))
  {
    forall e | e in Next(s, step).router ensures Answered(Next(s, step), e) {
      if e in s.router {
        NextAnswers(s, step, applied, e);
      } else {
        assert step.Add? && InFlight(Next(s, step), step.tid, e);
      }
    }
  }

  lemma {:induction false} RunKeepsLedger(s: State, steps: seq<Step>, applied: iset<Gateway>)
    requires Linked(s) && Apart(s) && From(s, applied) && Ledger(s) && Stable(applied) && Draws(steps, applied)
    ensures Ledger(Run(s, steps))
    decreases |steps|
  {
    hide Linked;
    hide Apart;
    hide From;
    hide Ledger;
    hide Stable;
    hide Next;
    if steps != [] {
      assert Draws([steps[0]], applied) && Draws(steps[1..], applied);
      NextKeepsLinked(s, steps[0]);
      NextKeepsApart(s, steps[0]);
      NextKeepsFrom(s, steps[0], applied);
      NextKeepsLedger(s, steps[0], applied);
      RunKeepsLedger(Next(s, steps[0]), steps[1..], applied);
    }
  }

  lemma LedgerIsClean(s: State)
    requires Ledger(s)
    ensures Clean(s)
  {
    if s.threads == map[] {
      forall e | e in s.router ensures Recorded(s, e) {
        assert forall t :: !InFlight(s, t, e);
      }
    }
  }

  /** Whatever the schedule: once no thread is in flight, each entry on the router is recorded by a running process. */
  lemma NoLeak(rows: map<string, Row>, applied: iset<Gateway>, steps: seq<Step>)
    requires Stable(applied) && Draws(steps, applied)
    ensures Clean(Run(Idle(rows), steps))
  {
    hide Stable;
    hide Draws;
    RunKeepsLedger(Idle(rows), steps, applied);
    LedgerIsClean(Run(Idle(rows), steps));
  }

  // ----- a control URL that moves

  function LeakRun(g: Gateway, h: Gateway): seq<Step> {
    [Start(g.service, 0, Natmap, true), Add(0, g), Record(0), Add(1, h), Record(1)]
  }

  /** Process 0 runs and records the mapping. */
  lemma MappedOnce(rows: map<string, Row>, g: Gateway, steps: seq<Step>)
    requires g.mode == "upnp" && Applicable(g) && |steps| > 3
    requires steps[0] == Start(g.service, 0, Natmap, true) && steps[1] == Add(0, g) && steps[2] == Record(0)
    ensures var s := Run(Idle(rows), steps[..3]);
            && s.processes == map[g.service := 0] && s.procs == map[0 := Process(g.service, false, Some(g), {})]
            && s.threads == map[] && s.router == {EntryOf(g)}
  {
    hide Run;
    hide SetRuntime;
    hide Applicable;
    hide Same;
    hide Separate;
    var i := Idle(rows);
    RunNothing(i);
    RunAt(i, steps, 0);
    RunAt(i, steps, 1);
    RunAt(i, steps, 2);
    assert steps[..0] == [];
    var s1, s2 := Run(i, steps[..1]), Run(i, steps[..2]);
    assert s1 == NextStart(i, g.service, 0, Natmap, true);
    assert s1.processes == map[g.service := 0] && s1.procs == map[0 := Process(g.service, false, None, {})];
    assert s2 == NextAdd(s1, 0, g) && s2.threads == map[0 := Holding(g)];
    assert Run(i, steps[..3]) == NextRecord(s2, 0);
  }

  /** A control URL that changes between two applications of one mapping: the first entry stays for good. */
  lemma MovedControlLeaks(rows: map<string, Row>, g: Gateway, h: Gateway)
    requires Clashing(g, h) && h.control != g.control
    ensures !Clean(Run(Idle(rows), LeakRun(g, h)))
  {
    hide Run;
    hide SetRuntime;
    assert Applicable(h);
    hide Applicable;
    var steps, i := LeakRun(g, h), Idle(rows);
    MappedOnce(rows, g, steps);
    RunAt(i, steps, 3);
    RunAt(i, steps, 4);
    assert steps[..5] == steps;
    var s3, s4, s := Run(i, steps[..3]), Run(i, steps[..4]), Run(i, steps);
    assert s4 == NextAdd(s3, 1, h) && s4.threads == map[1 := Holding(h)];
    assert s == NextRecord(s4, 1) && s.threads == map[] && s.procs == map[0 := Process(g.service, false, Some(h), {})];
    assert EntryOf(g) in s.router && !Recorded(s, EntryOf(g));
  }

  /** The router stays free of leaks under every schedule exactly when no service applies one mapping under two control
      URLs. */
  lemma NoLeakIff(rows: map<string, Row>, applied: iset<Gateway>)
    ensures Stable(applied) <==> forall steps: seq<Step> :: Draws(steps, applied) ==> Clean(Run(Idle(rows), steps))
  {
    hide Clean;
    hide Run;
    if Stable(applied) {
      forall steps: seq<Step> | Draws(steps, applied) ensures Clean(Run(Idle(rows), steps)) {
        NoLeak(rows, applied, steps);
      }
    } else {
      var g, h :| g in applied && h in applied && Clashing(g, h) && g.control != h.control;
      MovedControlLeaks(rows, g, h);
      assert Draws(LeakRun(g, h), applied);
    }
  }

  // ----- recorded entries and the router

  ghost predicate Held(s: State, e: Entry) {
    exists t :: t in s.threads && s.threads[t].Holding? && e in Entries(s.threads[t].state)
  }

  /** What a process records, or an Apply is about to record. */
  ghost predicate Claimed(s: State, e: Entry) { Recorded(s, e) || Held(s, e) }

  ghost predicate Installed(s: State) {
    forall e :: Claimed(s, e) ==> e in s.router
  }

  /** The entries that a removal by this thread addresses. */
  function Addressed(s: State, tid: Tid): set<Entry> {
    if tid !in s.threads then {}
    else match s.threads[tid]
      case Holding(_) => {}
      case Owing(g) => Entries(g)
      case Unlinked(pids) => if pids != [] && pids[0] in s.procs then EntriesOf(s.procs[pids[0]]) else {}
  }

  /** A removal of an entry that someone claims by now. */
  ghost predicate Clash(s: State, step: Step) {
    step.Remove? && exists e :: e in Addressed(s, step.tid) && Claimed(s, e)
  }

  lemma RemoveKeepsClaims(s: State, tid: Tid)
    ensures forall e :: Claimed(NextRemove(s, tid), e) <==> Claimed(s, e)
    ensures NextRemove(s, tid).router == s.router - Addressed(s, tid)
  {
    hide Entries;
    var u := NextRemove(s, tid);
    RemoveKeepsOthers(s, tid);
    forall pid ensures Current(u, pid) <==> Current(s, pid) {
    }
  }

  /** Without a new holder and with no new mapping, nothing new is claimed. */
  lemma ClaimsShrink(s: State, u: State)
    requires Installed(s) && s.router <= u.router
    requires forall pid :: Current(u, pid) && u.procs[pid].gateway.Some? ==>
               Current(s, pid) && s.procs[pid].gateway == u.procs[pid].gateway
    requires forall t :: t in u.threads && u.threads[t].Holding? ==>
               (t in s.threads && s.threads[t] == u.threads[t]) || Entries(u.threads[t].state) <= u.router
    ensures Installed(u)
  {
    hide Entries;
    forall e | Claimed(u, e) ensures e in u.router {
      if Recorded(u, e) {
        var pid :| Current(u, pid) && e in EntriesOf(u.procs[pid]);
        assert Current(s, pid) && e in EntriesOf(s.procs[pid]);
      } else {
        var t :| t in u.threads && u.threads[t].Holding? && e in Entries(u.threads[t].state);
        if t in s.threads && s.threads[t] == u.threads[t] {
          assert Held(s, e);
        }
      }
    }
  }

  lemma RecordKeepsInstalled(s: State, tid: Tid)
    requires Linked(s) && Installed(s)
    ensures Installed(NextRecord(s, tid))
  {
    hide Entries;
    hide Same;
    hide Separate;
    var u := NextRecord(s, tid);
    forall e | Claimed(u, e) ensures e in s.router {
      if Recorded(u, e) {
        var pid :| Current(u, pid) && e in EntriesOf(u.procs[pid]);
        assert (Current(s, pid) && e in EntriesOf(s.procs[pid])) || e in Entries(s.threads[tid].state);
      } else {
        assert Held(s, e);
      }
    }
  }

  lemma StartKeepsInstalled(s: State, service: string, pid: Pid, starter: Starter, saved: bool)
    requires Linked(s) && Installed(s)
    ensures Installed(NextStart(s, service, pid, starter, saved))
  {
    hide Installed;
    hide SetRuntime;
    hide Entries;
    ClaimsShrink(s, NextStart(s, service, pid, starter, saved));
  }

  lemma UnlinkStepsKeepInstalled(s: State, step: Step)
    requires Linked(s) && Installed(s) && (step.Stop? || step.StopAll? || step.Exit?)
    ensures Installed(Next(s, step))
  {
    hide Installed;
    hide SetRuntime;
    hide Entries;
    hide Lists;
    hide NextStart;
    hide NextAdd;
    hide NextRecord;
    hide NextRemove;
    hide NextReport;
    ClaimsShrink(s, Next(s, step));
  }

  lemma OtherStepsKeepInstalled(s: State, step: Step)
    requires Installed(s) && (step.Add? || step.Report? || step.Status?)
    ensures Installed(Next(s, step))
  {
    hide NextStart;
    hide NextStop;
    hide NextStopAll;
    hide NextExit;
    hide NextRecord;
    hide NextRemove;
    hide Installed;
    hide SetRuntime;
    hide SetUrl;
    hide Applicable;
    hide Entries;
    ClaimsShrink(s, Next(s, step));
  }

  /** Steps other than removals claim only what is on the router. */
  lemma NextKeepsInstalled(s: State, step: Step)
    requires Linked(s) && Installed(s) && !step.Remove?
    ensures Installed(Next(s, step))
  {
    hide Installed;
    hide Linked;
    hide NextRecord;
    hide NextStart;
    match step
    case Start(service, pid, starter, saved) => StartKeepsInstalled(s, service, pid, starter, saved);
    case Record(tid) => RecordKeepsInstalled(s, tid);
    case Stop(_, _) => UnlinkStepsKeepInstalled(s, step);
    case StopAll(_, _) => UnlinkStepsKeepInstalled(s, step);
    case Exit(_, _) => UnlinkStepsKeepInstalled(s, step);
    case _ => OtherStepsKeepInstalled(s, step);
  }

  /** Claimed entries stay installed over a step exactly when it does not remove one of them. */
  lemma InstalledIff(s: State, step: Step)
    requires Linked(s) && Installed(s)
    ensures Installed(Next(s, step)) <==> !Clash(s, step)
  {
    hide Claimed;
    hide Addressed;
    if step.Remove? {
      RemoveKeepsClaims(s, step.tid);
      hide NextRemove;
      if e :| e in Addressed(s, step.tid) && Claimed(s, e) {
        assert e !in Next(s, step).router;
      }
    } else {
      NextKeepsInstalled(s, step);
    }
  }

  /** At every moment of the run, claimed entries are installed. */
  ghost predicate InstalledThroughout(s: State, steps: seq<Step>)
    decreases |steps|
  {
    Installed(s) && (steps == [] || InstalledThroughout(Next(s, steps[0]), steps[1..]))
  }

  ghost predicate ClashFree(s: State, steps: seq<Step>)
    decreases |steps|
  {
    steps == [] || (!Clash(s, steps[0]) && ClashFree(Next(s, steps[0]), steps[1..]))
  }

  lemma {:induction false} RunInstalledIff(s: State, steps: seq<Step>)
    requires Linked(s) && Apart(s) && Installed(s)
    ensures InstalledThroughout(s, steps) <==> ClashFree(s, steps)
    decreases |steps|
  {
    hide Linked;
    hide Apart;
    hide Clash;
    hide Next;
    if steps != [] {
      InstalledIff(s, steps[0]);
      NextKeepsLinked(s, steps[0]);
      NextKeepsApart(s, steps[0]);
      if Installed(Next(s, steps[0])) {
        RunInstalledIff(Next(s, steps[0]), steps[1..]);
      }
    }
  }

  /** Whatever the schedule: recorded entries, and those about to be recorded, are on the router at every moment exactly
      when no removal comes after another process has claimed its entry. */
  lemma RecordedInstalledIff(rows: map<string, Row>, steps: seq<Step>)
    ensures InstalledThroughout(Idle(rows), steps) <==> ClashFree(Idle(rows), steps)
  {
    RunInstalledIff(Idle(rows), steps);
  }

  // ----- a removal that comes late

  /** wait unlinks process 0, whose command has ended, before process 1 takes over the same mapping, and removes the
      mapping after that. */
  function LateRun(g: Gateway): seq<Step> {
    [Start(g.service, 0, Natmap, true), Add(0, g), Record(0), Exit(1, 0),
     Start(g.service, 1, Natmap, true), Add(2, g), Record(2), Remove(1)]
  }

  /** Ended and started again, with the removal still owed. */
  lemma EndedLate(rows: map<string, Row>, g: Gateway)
    requires g.mode == "upnp" && Applicable(g)
    ensures var s := Run(Idle(rows), LateRun(g)[..5]);
            && s.processes == map[g.service := 1] && s.threads == map[1 := Unlinked([0])] && s.router == {EntryOf(g)}
            && s.procs == map[0 := Process(g.service, false, Some(g), {}), 1 := Process(g.service, false, None, {})]
  {
    hide Run;
    hide SetRuntime;
    hide EntryOf;
    var steps, i := LateRun(g), Idle(rows);
    MappedOnce(rows, g, steps);
    RunAt(i, steps, 3);
    RunAt(i, steps, 4);
    var s3, s4 := Run(i, steps[..3]), Run(i, steps[..4]);
    assert s4 == NextExit(s3, 1, 0) && s4.processes == map[];
    assert Run(i, steps[..5]) == NextStart(s4, g.service, 1, Natmap, true);
  }

  /** Process 1 records the same mapping. */
  lemma MappedAgain(rows: map<string, Row>, g: Gateway)
    requires g.mode == "upnp" && Applicable(g)
    ensures var s := Run(Idle(rows), LateRun(g)[..7]);
            && s.processes == map[g.service := 1] && s.threads == map[1 := Unlinked([0])] && s.router == {EntryOf(g)}
            && s.procs == map[0 := Process(g.service, false, Some(g), {}), 1 := Process(g.service, false, Some(g), {})]
  {
    hide Run;
    hide SetRuntime;
    hide Applicable;
    hide Same;
    hide Separate;
    hide EntryOf;
    var steps, i := LateRun(g), Idle(rows);
    EndedLate(rows, g);
    RunAt(i, steps, 5);
    RunAt(i, steps, 6);
    var s5, s6 := Run(i, steps[..5]), Run(i, steps[..6]);
    assert s6 == NextAdd(s5, 2, g) && s6.threads == map[1 := Unlinked([0]), 2 := Holding(g)];
    assert Run(i, steps[..7]) == NextRecord(s6, 2);
  }

  /** The converse of NoLeak fails: a removal that comes late takes the entry of the next process with it. */
  lemma LateRemoval(rows: map<string, Row>, g: Gateway)
    requires g.mode == "upnp" && Applicable(g)
    ensures var s := Run(Idle(rows), LateRun(g));
            s.threads == map[] && Recorded(s, EntryOf(g)) && EntryOf(g) !in s.router
    ensures Clash(Run(Idle(rows), LateRun(g)[..7]), LateRun(g)[7])
  {
    hide Run;
    hide Applicable;
    var steps, i := LateRun(g), Idle(rows);
    MappedAgain(rows, g);
    RunAt(i, steps, 7);
    assert steps[..8] == steps;
    var s7, s := Run(i, steps[..7]), Run(i, steps);
    assert s == NextRemove(s7, 1) && s.threads == map[];
    assert Current(s, 1) && EntryOf(g) in EntriesOf(s.procs[1]);
    assert Current(s7, 1) && EntryOf(g) in EntriesOf(s7.procs[1]) && EntryOf(g) in Addressed(s7, 1);
  }
}
