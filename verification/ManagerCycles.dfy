/**
 The unattended delivery manager's cycle as a function of what it learns from outside: what
 it observes of the host and the daemon, how it repairs a conflict, and when it starts and
 stops the daemon.
 */
module ManagerCycles {
  import opened Options
  import opened SortedLists
  import opened HostIsolation
  import opened RuntimeReceipts
  import opened HostLifetime
  import opened CircuitBreaker

  // ---------------------------------------------------------------- after a repair

  datatype Resolution = RoutedRunnerConflict | HostClear | HostBlocked

  datatype PostRepair = PostRepair(resolution: Resolution, blocked: bool, effective: Option<Signal>)

  /** A repaired daemon may keep going while runner services remain, if it is the same daemon. */
  predicate Routed(repaired: Option<Signal>, collected: Option<Signal>) {
    && repaired.Some? && repaired.value.status.NativeWsl? && repaired.value.provider.Native?
    && collected.Some? && collected.value.status.RunnerConflict? && collected.value.provider.Native?
    && repaired.value.fingerprint != "" && repaired.value.fingerprint == collected.value.fingerprint
  }

  function ResolvePostRepair(repaired: Option<Signal>, collected: Option<Signal>): (r: PostRepair)
    ensures r.blocked <==> !(r.effective.Some? && r.effective.value.status.NativeWsl?)
    ensures collected.Some? ==> r.effective.Some?
    ensures collected.Some? && !r.blocked ==> collected.value.status.NativeWsl? || Routed(repaired, collected)
  {
    if Routed(repaired, collected) then PostRepair(RoutedRunnerConflict, false, repaired)
    else
      var effective := if collected.Some? then collected else repaired;
      var clear := effective.Some? && effective.value.status.NativeWsl?;
      PostRepair(if clear then HostClear else HostBlocked, !clear, effective)
  }

  // ---------------------------------------------------------------- what a cycle learns

  /**
   How a repair goes: the prerequisites, whether the signal file can be read back after
   them, and whether noting the repair in the isolation record works.
   */
  datatype Repair = Repair(prereqs: Prereqs, readable: bool, noted: bool)

  /** How starting the daemon goes; after a failed start processes of its unit may be lingering. */
  datatype Start = Launched(pid: int, survives: bool) | LaunchFailed(pidMissing: bool, lingering: set<int>)

  /** Everything that a cycle learns from outside. */
  datatype Inputs = Inputs(
    died: set<int>, now: int, collect: Answers, isolate: Answers, repair: Repair, recollect: Answers,
    start: Start, startHeartbeat: Observation, startReport: Observation,
    notBefore: int, heartbeat: Observation, report: Observation, lane: Lane)

  /** A started daemon has a pid. */
  predicate Plausible(i: Inputs) {
    i.start.Launched? ==> i.start.pid > 0
  }

  /** `daemons` are the live processes of the daemon's unit; the manager knows them by the pid file only. */
  datatype Machine = Machine(host: Host, daemons: set<int>, pidFile: Option<int>, signal: Option<Signal>)

  /** How far a cycle has come: the daemon as the manager sees it, the blocked flag, and whether it threw. */
  datatype Course = Course(machine: Machine, alive: bool, blocked: bool, threw: bool)

  predicate IsNative(signal: Option<Signal>) {
    signal.Some? && signal.value.status.NativeWsl?
  }

  /** The daemon that the pid file points to. */
  predicate Seen(pidFile: Option<int>, daemons: set<int>) {
    pidFile.Some? && pidFile.value > 0 && pidFile.value in daemons
  }

  /** Every live daemon process is the one in the pid file. */
  predicate Named(m: Machine) {
    forall p | p in m.daemons :: p > 0 && m.pidFile == Some(p)
  }

  function Previous(signal: Option<Signal>): Option<string> {
    if signal.Some? && signal.value.fingerprint != "" then Some(signal.value.fingerprint) else None
  }

  function CollectRequest(signal: Option<Signal>): Request {
    Request(Collect, Previous(signal), true)
  }

  function IsolateRequest(signal: Signal): Request {
    Request(Isolate, Some(signal.fingerprint), true)
  }

  function RestoreRequest(signal: Option<Signal>): Request {
    Request(Restore, Previous(signal), true)
  }

  // ---------------------------------------------------------------- the phases of a cycle

  /** A host run; one that throws leaves the signal as it was. */
  function Sense(m: Machine, q: Request, a: Answers): Machine {
    m.(host := Step(m.host, q, a), signal := if Throws(q, a) then m.signal else Some(Report(m.host, q, a)))
  }

  /** The manager's own note in the isolation record. */
  function Note(m: Machine, now: int, counter: Counter): Machine {
    m.(host := m.host.(record := Some(UpdateRecord(m.host.record, now, counter, 1, m.signal))))
  }

  function Found(m: Machine, died: set<int>): Course {
    var left := m.daemons - died;
    Course(m.(daemons := left), Seen(m.pidFile, left), false, false)
  }

  function StopIfAlive(c: Course): Course {
    if c.alive then c.(machine := c.machine.(daemons := {}), alive := false) else c
  }

  /** Collects the signal, and isolates when runner services are in the way. */
  function Observe(c: Course, i: Inputs): Course {
    var q := CollectRequest(c.machine.signal);
    var d := c.(machine := Sense(c.machine, q, i.collect));
    if Throws(q, i.collect) then d.(threw := true)
    else if !d.machine.signal.value.status.RunnerConflict? then d
    else
      var s, p := StopIfAlive(d), IsolateRequest(d.machine.signal.value);
      s.(machine := Sense(s.machine, p, i.isolate), threw := Throws(p, i.isolate))
  }

  /** The prerequisites run, and when all went well their signal is read back. */
  function Prepare(m: Machine, r: Repair): Machine {
    m.(host := Bootstrapped(m.host, r.prereqs),
       signal := if !Succeeds(r.prereqs) then m.signal
                 else if r.readable then Some(Report(m.host, PREREQ_REQUEST, r.prereqs.collection))
                 else None)
  }

  /** Collects once more after a repair that was noted, and settles the conflict. */
  function Recollect(c: Course, i: Inputs): Course {
    var m, q := c.machine, CollectRequest(c.machine.signal);
    var h := Step(m.host, q, i.recollect);
    if Throws(q, i.recollect) then c.(machine := m.(host := h), threw := true)
    else
      var resolved := ResolvePostRepair(m.signal, Some(Report(m.host, q, i.recollect)));
      var n := m.(host := h, signal := resolved.effective);
      c.(machine := if resolved.resolution.RoutedRunnerConflict? then Note(n, i.now, NoCounter) else n, blocked := resolved.blocked)
  }

  /** Without a signal there is no telling whether the host is blocked, and the cycle throws. */
  function RepairHost(c: Course, i: Inputs): Course {
    var m := Prepare(c.machine, i.repair);
    if Succeeds(i.repair.prereqs) && i.repair.noted then Recollect(c.(machine := Note(m, i.now, RepairCounter)), i)
    else c.(machine := Note(m, i.now, NoCounter), blocked := !IsNative(m.signal), threw := m.signal.None?)
  }

  /** A conflict: no daemon, no pid file, one repair, and its verdict. */
  function HandleConflict(c: Course, i: Inputs): Course {
    if IsNative(c.machine.signal) then c
    else
      var s := StopIfAlive(c);
      RepairHost(s.(machine := Note(s.machine.(pidFile := None), i.now, BlockedCounter)), i)
  }

  /** A failed start is explained when the pid is missing and the observer has told a fresh outcome. */
  predicate Explained(i: Inputs)
    requires i.start.LaunchFailed?
  {
    i.start.pidMissing && ObserverOutcome(i.startHeartbeat, i.startReport, Some(i.notBefore)).Some?
  }

  function StartDaemon(c: Course, i: Inputs): Course {
    match i.start
    case Launched(pid, survives) =>
      c.(machine := c.machine.(daemons := if survives then {pid} else {}, pidFile := Some(pid)), alive := survives)
    case LaunchFailed(_, lingering) =>
      var m := c.machine.(daemons := lingering);
      if Explained(i) then c.(machine := Note(m, i.now, NoCounter)) else c.(machine := m, threw := true)
  }

  /** Settles whether the host is usable and whether the daemon runs. */
  function Settle(m: Machine, i: Inputs): Course {
    var c := Observe(Found(m, i.died), i);
    if c.threw then c else
    var d := HandleConflict(c, i);
    if d.threw || d.blocked || d.alive then d else StartDaemon(d, i)
  }

  // ---------------------------------------------------------------- the loop

  datatype End = Continue | IdleStop | FailedClosed | Threw

  function CycleOf(c: Course, i: Inputs, stopOnIdle: bool): Cycle {
    Cycle(c.alive, c.blocked, stopOnIdle, ObserverOutcome(i.heartbeat, i.report, Some(i.notBefore)), i.lane)
  }

  function EndOf(c: Course, i: Inputs, stopOnIdle: bool, breaker: Breaker, threshold: Option<int>): End {
    if c.threw then Threw
    else if Judge(breaker, CycleOf(c, i, stopOnIdle), threshold).FailClosed? then FailedClosed
    else if !c.blocked && !c.alive && stopOnIdle && i.report.outcome == Some("idle-stop") then IdleStop
    else Continue
  }

  function AfterCycles(m: Machine, inputs: seq<Inputs>): Machine {
    if inputs == [] then m else Settle(AfterCycles(m, inputs[..|inputs| - 1]), inputs[|inputs| - 1]).machine
  }

  /** What the breaker sees of the cycles. */
  function CyclesOf(m: Machine, inputs: seq<Inputs>, stopOnIdle: bool): (cycles: seq<Cycle>)
    ensures |cycles| == |inputs|
  {
    if inputs == [] then [] else
    var init, i := inputs[..|inputs| - 1], inputs[|inputs| - 1];
    CyclesOf(m, init, stopOnIdle) + [CycleOf(Settle(AfterCycles(m, init), i), i, stopOnIdle)]
  }

  /** How the `k`-th cycle ends. */
  function EndAt(m: Machine, inputs: seq<Inputs>, stopOnIdle: bool, threshold: Option<int>, k: nat): End
    requires k < |inputs|
  {
    EndOf(Settle(AfterCycles(m, inputs[..k]), inputs[k]), inputs[k], stopOnIdle, After(CyclesOf(m, inputs[..k], stopOnIdle)), threshold)
  }

  /** The last of the first `ran` ends is `end`, and no earlier one ends the loop. */
  predicate FirstEnd(ends: seq<End>, ran: nat, end: End) {
    ran <= |ends| && (if ran == 0 then end.Continue? else end == ends[ran - 1]) && forall k | 0 <= k < ran - 1 :: ends[k].Continue?
  }

  function EndsOf(m: Machine, inputs: seq<Inputs>, stopOnIdle: bool, threshold: Option<int>): (ends: seq<End>)
    ensures |ends| == |inputs|
  {
    seq(|inputs|, k requires 0 <= k < |inputs| => EndAt(m, inputs, stopOnIdle, threshold, k))
  }

  /** Of the first `ran` cycles the last one ends with `end`, and no earlier one ends the loop. */
  predicate Ends(m: Machine, inputs: seq<Inputs>, stopOnIdle: bool, threshold: Option<int>, ran: nat, end: End) {
    FirstEnd(EndsOf(m, inputs, stopOnIdle, threshold), ran, end)
  }

  lemma FirstEndNext(ends: seq<End>, k: nat, end: End)
    requires k < |ends| && end == ends[k] && FirstEnd(ends, k, Continue)
    ensures FirstEnd(ends, k + 1, end)
  {
  }

  lemma EndsNext(m: Machine, inputs: seq<Inputs>, stopOnIdle: bool, threshold: Option<int>, k: nat, end: End)
    requires k < |inputs| && end == EndAt(m, inputs, stopOnIdle, threshold, k) && Ends(m, inputs, stopOnIdle, threshold, k, Continue)
    ensures Ends(m, inputs, stopOnIdle, threshold, k + 1, end)
  {
    FirstEndNext(EndsOf(m, inputs, stopOnIdle, threshold), k, end);
  }

  lemma OneMoreCycle(m: Machine, inputs: seq<Inputs>, stopOnIdle: bool, k: nat)
    requires k < |inputs|
    ensures AfterCycles(m, inputs[..k + 1]) == Settle(AfterCycles(m, inputs[..k]), inputs[k]).machine
    ensures After(CyclesOf(m, inputs[..k + 1], stopOnIdle)) ==
            Next(After(CyclesOf(m, inputs[..k], stopOnIdle)), CycleOf(Settle(AfterCycles(m, inputs[..k]), inputs[k]), inputs[k], stopOnIdle))
  {
    var so, c := inputs[..k + 1], CycleOf(Settle(AfterCycles(m, inputs[..k]), inputs[k]), inputs[k], stopOnIdle);
    assert so[..k] == inputs[..k] && so[k] == inputs[k];
    var cycles := CyclesOf(m, inputs[..k], stopOnIdle);
    assert CyclesOf(m, so, stopOnIdle) == cycles + [c] && (cycles + [c])[..k] == cycles;
  }

  /** The loop's finally: the daemon and its pid file go, and the runner services are restored. */
  function Finished(m: Machine, now: int, restore: Answers): Machine {
    var q, stopped := RestoreRequest(m.signal), m.(daemons := {}, pidFile := None);
    var sensed := Sense(stopped, q, restore);
    if Throws(q, restore) then Note(sensed, now, NoCounter) else sensed
  }

  // ---------------------------------------------------------------- when a cycle meets what

  /** The collection finds runner services in the way. */
  predicate MeetsRunners(m: Machine, i: Inputs) {
    i.collect.running.Some? && Report(m.host, CollectRequest(m.signal), i.collect).status.RunnerConflict?
  }

  predicate IsolationThrows(m: Machine, i: Inputs) {
    MeetsRunners(m, i) && (i.isolate.found.None? || i.isolate.running.None?)
  }

  /** The signal it acts on, after an isolation if there was one, is not native. */
  predicate Conflicts(m: Machine, i: Inputs) {
    i.collect.running.Some? && !IsolationThrows(m, i) && !IsNative(Observe(Found(m, i.died), i).machine.signal)
  }

  /** The daemon it found is still running when the host has been settled. */
  predicate KeepsDaemon(m: Machine, i: Inputs) {
    Seen(m.pidFile, m.daemons - i.died) && !MeetsRunners(m, i) && !Conflicts(m, i)
  }

  /** The host once a conflict, if there is one, has been handled. */
  function Handled(m: Machine, i: Inputs): Course {
    HandleConflict(Observe(Found(m, i.died), i), i)
  }

  lemma ObservedIs(m: Machine, i: Inputs)
    ensures var c := Observe(Found(m, i.died), i);
      && (c.threw <==> i.collect.running.None? || IsolationThrows(m, i))
      && !c.blocked && (!c.threw ==> c.machine.signal.Some?) && c.machine.pidFile == m.pidFile
      && c.alive == (Seen(m.pidFile, m.daemons - i.died) && !MeetsRunners(m, i))
      && c.machine.daemons == (if MeetsRunners(m, i) && Seen(m.pidFile, m.daemons - i.died) then {} else m.daemons - i.died)
  {
  }

  /** The verdict over a conflict whose repair went through: that of the collection after it. */
  function VerdictAfter(m: Machine, i: Inputs): PostRepair
    requires i.recollect.running.Some?
  {
    var n := Note(m, i.now, RepairCounter);
    ResolvePostRepair(n.signal, Some(Report(n.host, CollectRequest(n.signal), i.recollect)))
  }

  lemma {:induction false} RepairedIs(c: Course, i: Inputs)
    requires !c.threw && c.machine.signal.Some? && !IsNative(c.machine.signal)
    ensures var d, m := RepairHost(c, i), Prepare(c.machine, i.repair);
      && (d.threw <==> Succeeds(i.repair.prereqs) && if i.repair.noted then i.recollect.running.None? else !i.repair.readable)
      && (!d.threw ==> d.machine.signal.Some? && (d.blocked <==> !IsNative(d.machine.signal)))
      && (!d.threw ==>
            (d.blocked <==> if !Succeeds(i.repair.prereqs) then true
                            else if i.repair.noted then VerdictAfter(m, i).blocked else !IsNative(m.signal)))
      && d.alive == c.alive && d.machine.daemons == c.machine.daemons && d.machine.pidFile == c.machine.pidFile
  {
  }

  /** When a cycle throws, by what it learns and where it starts. */
  lemma {:induction false} ThrewIff(m: Machine, i: Inputs)
    ensures Settle(m, i).threw <==>
            || i.collect.running.None?
            || IsolationThrows(m, i)
            || (Conflicts(m, i) && Succeeds(i.repair.prereqs) && if i.repair.noted then i.recollect.running.None? else !i.repair.readable)
            || (!Handled(m, i).blocked && !KeepsDaemon(m, i) && i.start.LaunchFailed? && !Explained(i))
  {
    ObservedIs(m, i);
    var c := Observe(Found(m, i.died), i);
    if !c.threw && !IsNative(c.machine.signal) {
      var s := StopIfAlive(c);
      RepairedIs(s.(machine := Note(s.machine.(pidFile := None), i.now, BlockedCounter)), i);
    }
  }

  // ---------------------------------------------------------------- what every cycle leaves

  /** The signal of the prerequisites' collection, and the state it is part of, for a conflict of this cycle. */
  function Prepared(m: Machine, i: Inputs): Machine {
    var s := StopIfAlive(Observe(Found(m, i.died), i));
    Prepare(Note(s.machine.(pidFile := None), i.now, BlockedCounter), i.repair)
  }

  /**
   A cycle that does not throw: a daemon it leaves alive is one it can see, on a native host;
   it is blocked exactly by a conflict whose repair failed or whose verdict is so; and a
   blocked cycle leaves no pid file and no daemon that the pid file named.
   */
  lemma {:induction false} SettledFacts(m: Machine, i: Inputs)
    requires !Settle(m, i).threw && Plausible(i)
    ensures var c := Settle(m, i);
      && c.machine.signal.Some? && (c.blocked <==> !IsNative(c.machine.signal))
      && (c.alive ==> !c.blocked && Seen(c.machine.pidFile, c.machine.daemons))
      && (c.blocked ==> c.machine.pidFile == None && !c.alive)
      && (c.blocked ==> c.machine.daemons == if Seen(m.pidFile, m.daemons - i.died) then {} else m.daemons - i.died)
    ensures Settle(m, i).blocked <==>
            Conflicts(m, i) &&
            if !Succeeds(i.repair.prereqs) then true
            else if i.repair.noted then VerdictAfter(Prepared(m, i), i).blocked
            else !IsNative(Prepared(m, i).signal)
  {
    ObservedIs(m, i);
    var c := Observe(Found(m, i.died), i);
    if !c.threw && !IsNative(c.machine.signal) {
      var s := StopIfAlive(c);
      RepairedIs(s.(machine := Note(s.machine.(pidFile := None), i.now, BlockedCounter)), i);
    }
  }

  /** As long as every start leaves nothing behind that the pid file does not name, a blocked cycle leaves no daemon at all. */
  lemma {:induction false} NamedStays(m: Machine, i: Inputs)
    requires Named(m) && !Settle(m, i).threw && Plausible(i)
    ensures (i.start.LaunchFailed? ==> i.start.lingering == {}) ==> Named(Settle(m, i).machine)
    ensures Settle(m, i).blocked ==> Settle(m, i).machine.daemons == {}
  {
    SettledFacts(m, i);
    ObservedIs(m, i);
    var c := Observe(Found(m, i.died), i);
    if !IsNative(c.machine.signal) {
      var s := StopIfAlive(c);
      RepairedIs(s.(machine := Note(s.machine.(pidFile := None), i.now, BlockedCounter)), i);
    }
    assert forall p | p in m.daemons - i.died :: m.pidFile == Some(p) && p > 0;
    if !Seen(m.pidFile, m.daemons - i.died) { assert m.daemons - i.died == {}; }
  }

  // ---------------------------------------------------------------- a daemon nobody sees

  const QUIET := Answers(1, Some([]), k => true, Some([]), Docker(false, true, "f"))

  const DESKTOP := QUIET.(docker := Docker(true, true, "f"))

  const SILENT := Observation(None, None)

  /** The start fails for want of a pid, the observer has reported, and the process 7 lives on. */
  const LINGERS := Inputs({}, 1, QUIET, QUIET, Repair(Prereqs(true, QUIET, true), true, true), QUIET,
    LaunchFailed(true, {7}), SILENT, Observation(Some("idle"), Some(1)), 1, SILENT, SILENT, Lane("", "", "", ""))

  /** The next collection finds the desktop daemon, and the prerequisites fail. */
  const BLOCKED := LINGERS.(collect := DESKTOP, repair := Repair(Prereqs(false, QUIET, false), false, false))

  /** Two cycles from a clean start: the second is blocked, and a daemon of the first is still running. */
  lemma {:induction false} UnseenDaemonLives()
    ensures var clean := Machine(Host(None, {}), {}, None, None);
      var one := Settle(clean, LINGERS); var two := Settle(one.machine, BLOCKED);
      && !one.threw && !one.blocked && one.machine.daemons == {7} && one.machine.pidFile == None
      && !two.threw && two.blocked && two.machine.daemons == {7} && two.machine.pidFile == None
  {
    var clean := Machine(Host(None, {}), {}, None, None);
    var one := Settle(clean, LINGERS);
    assert clean.daemons - LINGERS.died == {};
    assert one.machine.daemons == {7} && one.machine.pidFile == None && !one.threw && !one.blocked;
    assert one.machine.daemons - BLOCKED.died == {7};
  }

  // ---------------------------------------------------------------- tracked services

  /** The isolation of this cycle stops a service that is not on record, and then throws. */
  predicate Loses(m: Machine, i: Inputs) {
    IsolationThrows(m, i) && Members(Stopped(Request(Isolate, None, true), i.isolate)) - m.host.held != {}
  }

  lemma CollectTracks(h: Host, q: Request, a: Answers)
    requires q.mode.Collect?
    ensures Tracks(h) ==> Tracks(Step(h, q, a))
    ensures h.record.Some? ==> Step(h, q, a).record.Some? && Tracked(h) <= Tracked(Step(h, q, a))
    ensures Step(h, q, a).held == h.held
  {
    assert Members<string>([]) == {};
    assert Step(h, q, a).held == h.held + {} - {};
    if Tracks(h) { TracksIff(h, q, a); }
    if h.record.Some? { LiveGrows(h, Ran(Event(q, a))); }
  }

  lemma NoteTracks(m: Machine, now: int, counter: Counter)
    ensures Tracks(m.host) ==> Tracks(Note(m, now, counter).host)
    ensures Tracked(m.host) <= Tracked(Note(m, now, counter).host)
    ensures Note(m, now, counter).host.record.Some? && Note(m, now, counter).host.held == m.host.held
  {
  }

  /** A change of the host that drops no service from the record and keeps it exact if it was. */
  predicate Keeps(a: Host, b: Host) {
    && (Tracks(a) ==> Tracks(b)) && b.held == a.held
    && (a.record.Some? ==> b.record.Some? && Tracked(a) <= Tracked(b))
  }

  lemma SenseKeeps(m: Machine, q: Request, a: Answers)
    requires q.mode.Collect?
    ensures Keeps(m.host, Sense(m, q, a).host)
  {
    CollectTracks(m.host, q, a);
  }

  lemma NoteKeeps(m: Machine, now: int, counter: Counter)
    ensures Keeps(m.host, Note(m, now, counter).host)
  {
    NoteTracks(m, now, counter);
  }

  lemma PrereqsKeep(m: Machine, r: Repair)
    ensures Keeps(m.host, Prepare(m, r).host)
  {
    CollectTracks(m.host, PREREQ_REQUEST, r.prereqs.collection);
  }

  lemma {:induction false} RecollectKeeps(c: Course, i: Inputs)
    ensures Keeps(c.machine.host, Recollect(c, i).machine.host)
  {
    var m, q := c.machine, CollectRequest(c.machine.signal);
    CollectTracks(m.host, q, i.recollect);
    var h := Step(m.host, q, i.recollect);
    if !Throws(q, i.recollect) {
      var resolved := ResolvePostRepair(m.signal, Some(Report(m.host, q, i.recollect)));
      NoteKeeps(m.(host := h, signal := resolved.effective), i.now, NoCounter);
    }
  }

  lemma RepairKeeps(c: Course, i: Inputs)
    ensures Keeps(c.machine.host, RepairHost(c, i).machine.host)
  {
    var m := Prepare(c.machine, i.repair);
    PrereqsKeep(c.machine, i.repair);
    NoteKeeps(m, i.now, RepairCounter);
    NoteKeeps(m, i.now, NoCounter);
    RecollectKeeps(c.(machine := Note(m, i.now, RepairCounter)), i);
  }

  lemma HandleKeeps(c: Course, i: Inputs)
    ensures Keeps(c.machine.host, HandleConflict(c, i).machine.host)
  {
    var s := StopIfAlive(c);
    NoteKeeps(s.machine.(pidFile := None), i.now, BlockedCounter);
    RepairKeeps(s.(machine := Note(s.machine.(pidFile := None), i.now, BlockedCounter)), i);
  }

  lemma StartKeeps(c: Course, i: Inputs)
    ensures Keeps(c.machine.host, StartDaemon(c, i).machine.host)
  {
    if i.start.LaunchFailed? { NoteKeeps(c.machine.(daemons := i.start.lingering), i.now, NoCounter); }
  }

  lemma {:induction false} ObserveTracks(m: Machine, i: Inputs)
    ensures var c := Observe(Found(m, i.died), i);
      && (Tracks(m.host) ==> (Tracks(c.machine.host) <==> !Loses(m, i)))
      && (m.host.record.Some? ==> c.machine.host.record.Some? && Tracked(m.host) <= Tracked(c.machine.host))
  {
    var c, q := Found(m, i.died), CollectRequest(m.signal);
    SenseKeeps(c.machine, q, i.collect);
    if MeetsRunners(m, i) {
      var s := StopIfAlive(c.(machine := Sense(c.machine, q, i.collect)));
      var p := IsolateRequest(s.machine.signal.value);
      if Tracks(s.machine.host) { TracksIff(s.machine.host, p, i.isolate); }
      if s.machine.host.record.Some? { LiveGrows(s.machine.host, Ran(Event(p, i.isolate))); }
    }
  }

  /**
   No cycle, however it goes, drops a service from the record; and the record stays exact
   unless the cycle's isolation stops a service and then throws.
   */
  lemma CycleTracksIff(m: Machine, i: Inputs)
    ensures m.host.record.Some? ==>
              Settle(m, i).machine.host.record.Some? && Tracked(m.host) <= Tracked(Settle(m, i).machine.host)
    ensures Tracks(m.host) ==> (Tracks(Settle(m, i).machine.host) <==> !Loses(m, i))
    ensures Loses(m, i) ==> Settle(m, i).threw
  {
    ObserveTracks(m, i);
    var c := Observe(Found(m, i.died), i);
    ObservedIs(m, i);
    HandleKeeps(c, i);
    StartKeeps(HandleConflict(c, i), i);
  }

  // ---------------------------------------------------------------- whole runs

  predicate ThrowsAt(m: Machine, inputs: seq<Inputs>, k: nat)
    requires k < |inputs|
  {
    Settle(AfterCycles(m, inputs[..k]), inputs[k]).threw
  }

  lemma ThrowsAlike(m: Machine, inputs: seq<Inputs>, n: nat, k: nat)
    requires k < n <= |inputs|
    ensures ThrowsAt(m, inputs[..n], k) == ThrowsAt(m, inputs, k)
  {
    assert inputs[..n][..k] == inputs[..k];
  }

  /** Over the loop no tracked service is dropped, and unless its last cycle loses one the record is exact. */
  lemma {:induction false} LoopTracksIff(m: Machine, inputs: seq<Inputs>)
    requires forall k | 0 <= k < |inputs| - 1 :: !ThrowsAt(m, inputs, k)
    ensures m.host.record.Some? ==>
              AfterCycles(m, inputs).host.record.Some? && Tracked(m.host) <= Tracked(AfterCycles(m, inputs).host)
    ensures Tracks(m.host) ==>
              (Tracks(AfterCycles(m, inputs).host) <==>
               inputs == [] || !Loses(AfterCycles(m, inputs[..|inputs| - 1]), inputs[|inputs| - 1]))
  {
    if inputs != [] {
      var init, i := inputs[..|inputs| - 1], inputs[|inputs| - 1];
      forall k | 0 <= k < |init| ensures !ThrowsAt(m, init, k) { ThrowsAlike(m, inputs, |init|, k); }
      LoopTracksIff(m, init);
      CycleTracksIff(AfterCycles(m, init), i);
      if init != [] {
        var last := init[..|init| - 1];
        assert !ThrowsAt(m, init, |init| - 1);
        CycleTracksIff(AfterCycles(m, last), init[|init| - 1]);
      }
    }
  }

  lemma {:induction false} EndAtIff(m: Machine, inputs: seq<Inputs>, stopOnIdle: bool, threshold: Option<int>, k: nat)
    requires k < |inputs|
    ensures var c, end := Settle(AfterCycles(m, inputs[..k]), inputs[k]), EndAt(m, inputs, stopOnIdle, threshold, k);
      && (end.Threw? <==> c.threw)
      && (end.FailedClosed? <==> !c.threw && Opens(CyclesOf(m, inputs[..k + 1], stopOnIdle), threshold))
      && (end.IdleStop? ==> !c.threw && !c.blocked && !c.alive && stopOnIdle && inputs[k].report.outcome == Some("idle-stop"))
  {
    var so := inputs[..k + 1];
    assert so[..k] == inputs[..k] && so[k] == inputs[k];
    var cycles := CyclesOf(m, inputs[..k], stopOnIdle);
    var c := CycleOf(Settle(AfterCycles(m, inputs[..k]), inputs[k]), inputs[k], stopOnIdle);
    assert CyclesOf(m, so, stopOnIdle) == cycles + [c] && (cycles + [c])[..k] == cycles;
  }

  lemma EndsGoOn(m: Machine, inputs: seq<Inputs>, stopOnIdle: bool, threshold: Option<int>, ran: nat, end: End, k: nat)
    requires k + 1 < ran <= |inputs| && Ends(m, inputs, stopOnIdle, threshold, ran, end)
    ensures !ThrowsAt(m, inputs, k) && !Opens(CyclesOf(m, inputs[..k + 1], stopOnIdle), threshold)
  {
    assert EndsOf(m, inputs, stopOnIdle, threshold)[k].Continue?;
    EndAtIff(m, inputs, stopOnIdle, threshold, k);
  }

  /**
   How a loop ends: closed, exactly at the first cycle that opens the breaker; with an
   exception, exactly at the first cycle that throws.
   */
  lemma {:induction false} LoopEnds(m: Machine, inputs: seq<Inputs>, stopOnIdle: bool, threshold: Option<int>, ran: nat, end: End)
    requires 0 < ran <= |inputs| && Ends(m, inputs, stopOnIdle, threshold, ran, end)
    ensures end.Threw? <==> ThrowsAt(m, inputs, ran - 1)
    ensures end.FailedClosed? <==> !end.Threw? && Opens(CyclesOf(m, inputs[..ran], stopOnIdle), threshold)
    ensures forall k | 0 <= k < ran - 1 :: !ThrowsAt(m, inputs, k)
    ensures forall k | 0 < k < ran :: !Opens(CyclesOf(m, inputs[..k], stopOnIdle), threshold)
  {
    EndAtIff(m, inputs, stopOnIdle, threshold, ran - 1);
    forall k | 0 <= k < ran - 1 ensures !ThrowsAt(m, inputs, k) { EndsGoOn(m, inputs, stopOnIdle, threshold, ran, end, k); }
    forall k | 0 < k < ran ensures !Opens(CyclesOf(m, inputs[..k], stopOnIdle), threshold) {
      EndsGoOn(m, inputs, stopOnIdle, threshold, ran, end, k - 1);
    }
  }

  /** The final restore of an exact record leaves on it the services that would not start, unless it starts one and throws. */
  lemma FinishedTracksIff(m: Machine, now: int, restore: Answers)
    requires Tracks(m.host)
    ensures var h, q := Finished(m, now, restore).host, RestoreRequest(m.signal);
      && h.held == m.host.held - Members(Started(m.host, q, restore))
      && (Tracks(h) <==> restore.running.Some? || Started(m.host, q, restore) == [])
      && (restore.running.Some? ==> Tracked(h) == h.held)
  {
    var q, stopped := RestoreRequest(m.signal), m.(daemons := {}, pidFile := None);
    TracksIff(m.host, q, restore);
    assert Members<string>([]) == {};
    assert Step(m.host, q, restore).held == m.host.held + {} - Members(Started(m.host, q, restore));
    if Throws(q, restore) { NoteTracks(Sense(stopped, q, restore), now, NoCounter); }
  }

  lemma LoopKeeps(m: Machine, inputs: seq<Inputs>, stopOnIdle: bool, threshold: Option<int>, ran: nat, end: End)
    requires ran <= |inputs| && Ends(m, inputs, stopOnIdle, threshold, ran, end) && m.host.record.Some?
    ensures Tracked(m.host) <= Tracked(AfterCycles(m, inputs[..ran]).host)
  {
    forall k | 0 <= k < ran - 1 ensures !ThrowsAt(m, inputs[..ran], k) {
      LoopEnds(m, inputs, stopOnIdle, threshold, ran, end);
      ThrowsAlike(m, inputs, ran, k);
    }
    LoopTracksIff(m, inputs[..ran]);
  }

  /**
   From the isolation before a manager, through its startup quarantine, whatever it does
   before its loop, and the loop itself however that ends: at the final restore every
   service that was on record is still there.
   */
  lemma {:induction false} RunKeeps(isolated: Host, files: Files, epoch: string, t: int, lives: seq<Life>, m: Machine,
                 inputs: seq<Inputs>, stopOnIdle: bool, threshold: Option<int>, ran: nat, end: End)
    requires isolated.record.Some? && isolated.record.value.stamp >= t && RecordOf(files) == isolated.record
    requires (forall l | l in lives :: RestoresNothing(l)) && m.host == LiveAll(Inherited(files, isolated.held, epoch, t), lives)
    requires ran <= |inputs| && Ends(m, inputs, stopOnIdle, threshold, ran, end)
    ensures Tracked(isolated) <= Tracked(AfterCycles(m, inputs[..ran]).host)
  {
    AsideIsQuarantine(files, isolated.held, epoch, t);
    assert Inherited(files, isolated.held, epoch, t) == isolated;
    LiveAllGrows(isolated, lives);
    LoopKeeps(m, inputs, stopOnIdle, threshold, ran, end);
  }
}
