/**
 The unattended delivery manager's loop: each cycle runs as its function says, and however
 the loop ends, the daemon is stopped and the runner services are restored.
 */
module ManagerLoop {
  import opened Options
  import opened SortedLists
  import opened HostIsolation
  import opened HostLifetime
  import opened CircuitBreaker
  import opened ManagerCycles

  class Manager {
    const stopOnIdle: bool
    const threshold: Option<int>
    const agent: HostAgent
    var daemons: set<int>
    var pidFile: Option<int>
    var daemonAlive: bool
    var hostSignal: Option<Signal>
    var blocked: bool
    var breaker: Breaker

    constructor (stopOnIdle: bool, threshold: Option<int>, agent: HostAgent, daemons: set<int>, pidFile: Option<int>,
                 hostSignal: Option<Signal>)
      ensures this.stopOnIdle == stopOnIdle && this.threshold == threshold && this.agent == agent
      ensures View() == Machine(agent.View(), daemons, pidFile, hostSignal)
      ensures !blocked && breaker == Breaker(0, "")
    {
      this.stopOnIdle, this.threshold, this.agent := stopOnIdle, threshold, agent;
      this.daemons, this.pidFile, this.hostSignal := daemons, pidFile, hostSignal;
      daemonAlive, blocked, breaker := false, false, Breaker(0, "");
    }

    ghost function View(): Machine
      reads this, agent
    {
      Machine(agent.View(), daemons, pidFile, hostSignal)
    }

    /** A phase that is through, or has thrown. */
    ghost function Reached(threw: bool): Course
      reads this, agent
    {
      Course(View(), daemonAlive, blocked, threw)
    }

    method StopIfAlive()
      modifies this`daemons, this`daemonAlive
      ensures Reached(false) == ManagerCycles.StopIfAlive(old(Reached(false)))
    {
      if daemonAlive { daemons, daemonAlive := {}, false; }
    }

    /** Raises a counter of the isolation record, and puts the signal on it if there is one. */
    method UpdateHostIsolationState(now: int, counter: Counter)
      modifies agent
      ensures agent.View() == Note(old(View()), now, counter).host
    {
      var state := if agent.record.Some? then agent.record.value else DefaultRecord(now);
      match counter {
        case NoCounter =>
        case RepairCounter => state := state.(counters := state.counters.(repairs := state.counters.repairs + 1));
        case BlockedCounter => state := state.(counters := state.counters.(blocked := state.counters.blocked + 1));
      }
      if hostSignal.Some? {
        state := state.(stamp := now, fingerprint := Some(hostSignal.value.fingerprint), lastStatus := Some(hostSignal.value.status));
      }
      agent.record := Some(state);
    }

    /** Runs the host tool; its report becomes the signal unless it throws. */
    method InvokeHostSignal(q: Request, a: Answers) returns (ok: bool)
      modifies this`hostSignal, agent
      ensures View() == Sense(old(View()), q, a) && ok == !Throws(q, a)
    {
      var report := agent.RunDeliveryHostSignal(q, a);
      ok := report.Some?;
      if ok { hostSignal := report; }
    }

    /** Reads the pid file and tests the daemon it names; some processes may have died since. */
    method FindDaemon(died: set<int>)
      modifies this`daemons, this`daemonAlive, this`blocked
      ensures Reached(false) == Found(old(View()), died)
    {
      daemons := daemons - died;
      var pid := if pidFile.Some? then pidFile.value else 0;
      daemonAlive, blocked := pid > 0 && pid in daemons, false;
    }

    method Observe(i: Inputs) returns (ok: bool)
      requires !blocked
      modifies this`daemons, this`daemonAlive, this`hostSignal, agent
      ensures Reached(!ok) == ManagerCycles.Observe(old(Reached(false)), i)
    {
      ok := InvokeHostSignal(CollectRequest(hostSignal), i.collect);
      if ok && hostSignal.value.status.RunnerConflict? {
        StopIfAlive();
        ok := InvokeHostSignal(IsolateRequest(hostSignal.value), i.isolate);
      }
    }

    /** Runs the prerequisites; a repair has succeeded once it is also on record. */
    method Repair(i: Inputs) returns (repaired: bool)
      modifies this`hostSignal, agent
      ensures repaired == (Succeeds(i.repair.prereqs) && i.repair.noted)
      ensures View() == Note(Prepare(old(View()), i.repair), i.now, if repaired then RepairCounter else NoCounter)
    {
      var report := RunPrereqs(agent, i.repair.prereqs);
      if report.Some? { hostSignal := if i.repair.readable then report else None; }
      repaired := report.Some? && i.repair.noted;
      UpdateHostIsolationState(i.now, if repaired then RepairCounter else NoCounter);
    }

    method Recollect(i: Inputs) returns (ok: bool)
      modifies this`hostSignal, this`blocked, agent
      ensures Reached(!ok) == ManagerCycles.Recollect(old(Reached(false)), i)
    {
      var collected := agent.RunDeliveryHostSignal(CollectRequest(hostSignal), i.recollect);
      if collected.None? { return false; }
      var resolution := ResolvePostRepair(hostSignal, collected);
      hostSignal, blocked := resolution.effective, resolution.blocked;
      if resolution.resolution.RoutedRunnerConflict? { UpdateHostIsolationState(i.now, NoCounter); }
      return true;
    }

    method HandleConflict(i: Inputs) returns (ok: bool)
      requires !blocked && hostSignal.Some?
      modifies this`daemons, this`daemonAlive, this`hostSignal, this`blocked, this`pidFile, agent
      ensures Reached(!ok) == ManagerCycles.HandleConflict(old(Reached(false)), i)
    {
      if hostSignal.value.status.NativeWsl? { return true; }
      StopIfAlive();
      pidFile := None;
      UpdateHostIsolationState(i.now, BlockedCounter);
      var repaired := Repair(i);
      if repaired {
        ok := Recollect(i);
      } else {
        ok := hostSignal.Some?;
        blocked := !IsNative(hostSignal);
      }
    }

    method StartDaemon(i: Inputs) returns (ok: bool)
      requires Plausible(i) && !daemonAlive && !blocked
      modifies this`daemons, this`daemonAlive, this`pidFile, agent
      ensures Reached(!ok) == ManagerCycles.StartDaemon(old(Reached(false)), i)
    {
      match i.start {
        case Launched(pid, survives) =>
          daemons, pidFile := if survives then {pid} else {}, Some(pid);
          daemonAlive := pid > 0 && pid in daemons;
          ok := true;
        case LaunchFailed(pidMissing, lingering) =>
          daemons := lingering;
          var outcome := ObserverOutcome(i.startHeartbeat, i.startReport, Some(i.notBefore));
          ok := pidMissing && outcome.Some?;
          if ok { UpdateHostIsolationState(i.now, NoCounter); }
      }
    }

    /** The part of a cycle that settles whether the host is usable and the daemon runs. */
    method SettleDaemon(i: Inputs) returns (ok: bool)
      requires Plausible(i)
      modifies this`daemons, this`daemonAlive, this`hostSignal, this`blocked, this`pidFile, agent
      ensures Reached(!ok) == Settle(old(View()), i)
    {
      ObservedIs(View(), i);
      FindDaemon(i.died);
      ok := Observe(i);
      if !ok { return; }
      ok := HandleConflict(i);
      if ok && !blocked && !daemonAlive { ok := StartDaemon(i); }
    }

    method CountCycle(i: Inputs) returns (end: End)
      modifies this`breaker
      ensures breaker == Next(old(breaker), CycleOf(Reached(false), i, stopOnIdle))
      ensures end == EndOf(Reached(false), i, stopOnIdle, old(breaker), threshold)
    {
      var outcome := ObserverOutcome(i.heartbeat, i.report, Some(i.notBefore));
      var cycle := Cycle(daemonAlive, blocked, stopOnIdle, outcome, i.lane);
      var verdict := Judge(breaker, cycle, threshold);
      breaker := Next(breaker, cycle);
      end := if verdict.FailClosed? then FailedClosed
             else if blocked then Continue
             else if !daemonAlive && stopOnIdle && i.report.outcome == Some("idle-stop") then IdleStop
             else Continue;
    }

    /** One cycle: what it leaves and how it ends are those of its function, and it throws when that does. */
    method RunCycle(i: Inputs) returns (end: End)
      requires Plausible(i)
      modifies this, agent
      ensures Reached(end.Threw?) == Settle(old(View()), i)
      ensures end == EndOf(Settle(old(View()), i), i, stopOnIdle, old(breaker), threshold)
      ensures breaker == if end.Threw? then old(breaker) else Next(old(breaker), CycleOf(Reached(false), i, stopOnIdle))
    {
      var ok := SettleDaemon(i);
      if !ok { return Threw; }
      end := CountCycle(i);
    }

    /** The cycle that follows the first `k` ones. */
    method RunCycleAt(ghost m: Machine, inputs: seq<Inputs>, k: nat) returns (end: End)
      requires k < |inputs| && Plausible(inputs[k])
      requires View() == AfterCycles(m, inputs[..k]) && breaker == After(CyclesOf(m, inputs[..k], stopOnIdle))
      modifies this, agent
      ensures View() == AfterCycles(m, inputs[..k + 1]) && end == EndAt(m, inputs, stopOnIdle, threshold, k)
      ensures !end.Threw? ==> breaker == After(CyclesOf(m, inputs[..k + 1], stopOnIdle))
    {
      OneMoreCycle(m, inputs, stopOnIdle, k);
      end := RunCycle(inputs[k]);
    }

    /** The loop's finally: the daemon and its pid file go, and the runner services are restored. */
    method Finish(now: int, restore: Answers)
      modifies this, agent
      ensures View() == Finished(old(View()), now, restore)
      ensures unchanged(`breaker, `blocked)
    {
      daemons, daemonAlive := {}, false;
      pidFile := None;
      var ok := InvokeHostSignal(RestoreRequest(hostSignal), restore);
      if !ok { UpdateHostIsolationState(now, NoCounter); }
    }

    /** Runs cycles until the budget or a stop request ends them, the breaker opens, the daemon stops idle, or one throws. */
    method RunCycles(inputs: seq<Inputs>) returns (ran: nat, end: End)
      requires forall i | i in inputs :: Plausible(i)
      requires breaker == Breaker(0, "")
      modifies this, agent
      ensures ran <= |inputs| && View() == AfterCycles(old(View()), inputs[..ran])
      ensures Ends(old(View()), inputs, stopOnIdle, threshold, ran, end)
      ensures end.Continue? ==> ran == |inputs|
    {
      ghost var m := View();
      ran, end := 0, Continue;
      while ran < |inputs| && end.Continue?
        invariant ran <= |inputs| && View() == AfterCycles(m, inputs[..ran])
        invariant end.Continue? ==> breaker == After(CyclesOf(m, inputs[..ran], stopOnIdle))
        invariant Ends(m, inputs, stopOnIdle, threshold, ran, end)
        decreases |inputs| - ran
      {
        assert inputs[ran] in inputs;
        end := RunCycleAt(m, inputs, ran);
        EndsNext(m, inputs, stopOnIdle, threshold, ran, end);
        ran := ran + 1;
      }
    }

    /** The loop, which finishes once however it ends. */
    method RunManagerLoop(inputs: seq<Inputs>, now: int, restore: Answers) returns (ran: nat, end: End)
      requires forall i | i in inputs :: Plausible(i)
      requires breaker == Breaker(0, "")
      modifies this, agent
      ensures ran <= |inputs| && View() == Finished(AfterCycles(old(View()), inputs[..ran]), now, restore)
      ensures Ends(old(View()), inputs, stopOnIdle, threshold, ran, end)
      ensures end.Continue? ==> ran == |inputs|
    {
      ran, end := RunCycles(inputs);
      Finish(now, restore);
    }
  }
}
