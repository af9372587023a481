/**
 From the isolation that starts a manager to the restore that ends it: no step in between
 loses track of a stopped service.
 */
module HostLifetime {
  import opened Options
  import opened SortedLists
  import opened HostIsolation
  import opened RuntimeReceipts

  // ---------------------------------------------------------------- the prerequisites

  /** Whether the prerequisites get as far as their collection, what it finds, and whether the rest succeeds. */
  datatype Prereqs = Prereqs(collects: bool, collection: Answers, completes: bool)

  /** The prerequisites' own collection allows runner services. */
  const PREREQ_REQUEST := Request(Collect, None, false)

  predicate Succeeds(p: Prereqs) {
    p.collects && !Throws(PREREQ_REQUEST, p.collection) && p.completes
  }

  function Bootstrapped(h: Host, p: Prereqs): Host {
    if p.collects then Step(h, PREREQ_REQUEST, p.collection) else h
  }

  method RunPrereqs(agent: HostAgent, p: Prereqs) returns (report: Option<Signal>)
    modifies agent
    ensures agent.View() == Bootstrapped(old(agent.View()), p)
    ensures report == if Succeeds(p) then Some(Report(old(agent.View()), PREREQ_REQUEST, p.collection)) else None
  {
    report := None;
    if p.collects {
      var collected := agent.RunDeliveryHostSignal(PREREQ_REQUEST, p.collection);
      if p.completes { report := collected; }
    }
  }

  // ---------------------------------------------------------------- from startup to restore

  /** The counters that the manager itself raises. */
  datatype Counter = NoCounter | RepairCounter | BlockedCounter

  /** The second writer of the record: raises a counter and, when given one, notes a signal. */
  function UpdateRecord(record: Option<Record>, now: int, counter: Counter, increment: int, signal: Option<Signal>): Record {
    var r := if record.Some? then record.value else DefaultRecord(now);
    var counted := r.(counters :=
      match counter
      case NoCounter => r.counters
      case RepairCounter => r.counters.(repairs := r.counters.repairs + increment)
      case BlockedCounter => r.counters.(blocked := r.counters.blocked + increment));
    if signal.None? then counted
    else counted.(stamp := now, fingerprint := Some(signal.value.fingerprint), lastStatus := Some(signal.value.status))
  }

  /** What the startup quarantine does to the record. */
  function Aside(h: Host, managerStartedAt: int): Host {
    if h.record.Some? && h.record.value.stamp < managerStartedAt then h.(record := None) else h
  }

  /** The quarantine of the runtime directory does just that, whatever else it moves and even if the record is unreadable. */
  lemma {:induction false} AsideIsQuarantine(files: Files, held: set<string>, epoch: string, t: int)
    ensures Host(RecordOf(MoveAll(files, CANDIDATES, epoch, t)), held) == Aside(Host(RecordOf(files), held), t)
  {
    IsolationIsCandidate();
    if RecordOf(files).Some? {
      IsolationKeptIff(files, CANDIDATES, epoch, t);
    } else {
      MoveAllAt(files, CANDIDATES, epoch, t, Runtime(ISOLATION));
    }
  }

  /** A startup quarantine keeps track of the stopped services unless it moves a record that names some. */
  lemma AsideTracksIff(h: Host, t: int)
    requires Tracks(h)
    ensures Tracks(Aside(h, t)) <==> h.held == {} || h.record.value.stamp >= t
  {
    if h.held != {} { assert h.record.Some?; }
  }

  /** What happens between startup and the final restore. */
  datatype Life = Ran(event: Event) | Updated(now: int, counter: Counter, increment: int, signal: Option<Signal>)

  function Live(h: Host, life: Life): Host {
    match life
    case Ran(e) => Step(h, e.request, e.answers)
    case Updated(now, counter, increment, signal) => h.(record := Some(UpdateRecord(h.record, now, counter, increment, signal)))
  }

  function LiveAll(h: Host, lives: seq<Life>): Host
    decreases lives
  {
    if lives == [] then h else LiveAll(Live(h, lives[0]), lives[1..])
  }

  function Tracked(h: Host): set<string> {
    if h.record.Some? then Members(h.record.value.preempted) else {}
  }

  predicate RestoresNothing(life: Life) {
    life.Ran? ==> !life.event.request.mode.Restore?
  }

  predicate Quiet(life: Life) {
    life.Ran? ==> !Throws(life.event.request, life.event.answers)
  }

  lemma UnionGrows(a: seq<string>, b: seq<string>)
    ensures forall x | x in a :: x in Union(a, b)
    decreases b
  {
    if b != [] { UnionGrows(if b[0] in a then a else a + [b[0]], b[1..]); }
  }

  /** Outside a restore no step drops a service from the record, whether or not it throws. */
  lemma LiveGrows(h: Host, life: Life)
    requires RestoresNothing(life) && h.record.Some?
    ensures Live(h, life).record.Some? && Tracked(h) <= Tracked(Live(h, life))
  {
    if life.Ran? { UnionGrows(h.record.value.preempted, Stopped(life.event.request, life.event.answers)); }
  }

  lemma {:induction false} LiveAllGrows(h: Host, lives: seq<Life>)
    requires h.record.Some? && forall l | l in lives :: RestoresNothing(l)
    ensures LiveAll(h, lives).record.Some? && Tracked(h) <= Tracked(LiveAll(h, lives))
    decreases lives
  {
    if lives != [] {
      assert lives[0] in lives;
      LiveGrows(h, lives[0]);
      LiveAllGrows(Live(h, lives[0]), lives[1..]);
    }
  }

  lemma LiveTracks(h: Host, life: Life)
    requires Tracks(h) && Quiet(life)
    ensures Tracks(Live(h, life))
  {
    if life.Ran? { WrittenTracks(h, life.event.request, life.event.answers); }
  }

  lemma {:induction false} LiveAllTracks(h: Host, lives: seq<Life>)
    requires Tracks(h) && forall l | l in lives :: Quiet(l)
    ensures Tracks(LiveAll(h, lives))
    decreases lives
  {
    if lives != [] {
      assert lives[0] in lives;
      LiveTracks(h, lives[0]);
      LiveAllTracks(Live(h, lives[0]), lives[1..]);
    }
  }

  /** A restore that does not throw leaves on record precisely the services that would not start. */
  lemma RestoredExactly(h: Host, q: Request, a: Answers)
    requires Tracks(h) && q.mode.Restore? && !Throws(q, a)
    ensures Tracks(Step(h, q, a)) && Tracked(Step(h, q, a)) == Step(h, q, a).held
    ensures Step(h, q, a).held == h.held - Members(Started(h, q, a))
  {
    WrittenTracks(h, q, a);
    assert Members<string>([]) == {};
  }

  /** What a manager starts from: the services down, and the record that its quarantine leaves in the directory. */
  function Inherited(files: Files, held: set<string>, epoch: string, t: int): Host {
    Host(RecordOf(MoveAll(files, CANDIDATES, epoch, t)), held)
  }

  /**
   A manager's lifetime, from the runtime directory as the isolation leaves it.  The
   manager's start is taken before its isolation, so the startup quarantine keeps the
   record; whatever happens then, every service on record after the isolation is still
   there when the restore begins.  When no step throws, the record is exact all along, and
   afterwards names precisely the services that would not start.
   */
  lemma {:induction false} LifetimeKeeps(h: Host, isolate: Event, files: Files, epoch: string, t: int, lives: seq<Life>, restore: Event)
    requires Tracks(h)
    requires isolate.request.mode.Isolate? && !Throws(isolate.request, isolate.answers) && isolate.answers.now >= t
    requires RecordOf(files) == Step(h, isolate.request, isolate.answers).record
    requires restore.request.mode.Restore? && forall l | l in lives :: RestoresNothing(l)
    ensures var isolated := Step(h, isolate.request, isolate.answers);
      var before := LiveAll(Inherited(files, isolated.held, epoch, t), lives);
      && Tracked(isolated) <= Tracked(before)
      && ((forall l | l in lives :: Quiet(l)) && !Throws(restore.request, restore.answers) ==>
            var after := Step(before, restore.request, restore.answers);
            && Tracks(before) && Tracks(after) && Tracked(after) == after.held
            && after.held == before.held - Members(Started(before, restore.request, restore.answers)))
  {
    var isolated := Step(h, isolate.request, isolate.answers);
    AsideIsQuarantine(files, isolated.held, epoch, t);
    assert Inherited(files, isolated.held, epoch, t) == isolated;
    LiveAllGrows(isolated, lives);
    WrittenTracks(h, isolate.request, isolate.answers);
    if (forall l | l in lives :: Quiet(l)) && !Throws(restore.request, restore.answers) {
      LiveAllTracks(isolated, lives);
      RestoredExactly(LiveAll(isolated, lives), restore.request, restore.answers);
    }
  }

  /** A manager told no start time takes its own, after the isolation: the record goes, the services stay down. */
  lemma LateStartDrops(h: Host, t: int)
    requires Tracks(h) && h.held != {} && h.record.value.stamp < t
    ensures Aside(h, t).record == None && Aside(h, t).held == h.held && !Tracks(Aside(h, t))
  {
    AsideTracksIff(h, t);
  }

  datatype Ensured = WorkspaceBlocked | PrereqsThrew | AlreadyRunning | IsolationThrew | Spawned(managerStartedAt: int)

  const ISOLATE_REQUEST := Request(Isolate, None, true)

  /**
   The ensure command.  The start time handed to the manager is read before the isolation,
   so the record it leaves is never older than the manager that will quarantine.
   */
  method EnsureManagerCommand(agent: HostAgent, workspaceBlocked: bool, prereqs: Prereqs, managerAlive: bool,
                              managerStartedAt: int, isolation: Answers)
    returns (outcome: Ensured)
    requires isolation.now >= managerStartedAt
    modifies agent
    ensures outcome ==
            if workspaceBlocked then WorkspaceBlocked
            else if !Succeeds(prereqs) then PrereqsThrew
            else if managerAlive then AlreadyRunning
            else if Throws(ISOLATE_REQUEST, isolation) then IsolationThrew
            else Spawned(managerStartedAt)
    ensures agent.View() ==
            if workspaceBlocked then old(agent.View())
            else if !Succeeds(prereqs) || managerAlive then Bootstrapped(old(agent.View()), prereqs)
            else Step(Bootstrapped(old(agent.View()), prereqs), ISOLATE_REQUEST, isolation)
    ensures !outcome.Spawned? && !outcome.IsolationThrew? ==> agent.held == old(agent.held)
    ensures outcome.Spawned? ==> agent.record.Some? && Aside(agent.View(), managerStartedAt) == agent.View()
    ensures outcome.Spawned? && old(Tracks(agent.View())) ==> Tracks(agent.View())
  {
    if workspaceBlocked { return WorkspaceBlocked; }
    var bootstrapped := RunPrereqs(agent, prereqs);
    assert Members<string>([]) == {};
    if bootstrapped.None? { return PrereqsThrew; }
    if managerAlive { return AlreadyRunning; }
    ghost var before := agent.View();
    var isolated := agent.RunDeliveryHostSignal(ISOLATE_REQUEST, isolation);
    if isolated.None? { return IsolationThrew; }
    outcome := Spawned(managerStartedAt);
    if old(Tracks(agent.View())) {
      WrittenTracks(old(agent.View()), PREREQ_REQUEST, prereqs.collection);
      WrittenTracks(before, ISOLATE_REQUEST, isolation);
    }
  }
}
