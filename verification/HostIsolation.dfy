/**
 Host isolation: stopping the runner services that are in the way, remembering which ones,
 and starting them again.  Every command may fail, and a run that throws leaves the record
 on disk as it was.
 */
module HostIsolation {
  import opened Options
  import opened SortedLists

  // ---------------------------------------------------------------- classification

  datatype Status = NativeWsl | DesktopBacked | RunnerConflict | Drifted

  datatype Provider = Native | Desktop

  datatype Docker = Docker(isDesktop: bool, available: bool, fingerprint: string)

  datatype Signal = Signal(status: Status, provider: Provider, fingerprint: string, changed: bool)

  function Classify(docker: Docker, running: seq<string>, previous: Option<string>, requireStopped: bool): (r: Signal)
    ensures r.status.NativeWsl? <==>
            !docker.isDesktop && docker.available && (requireStopped ==> running == []) && !r.changed
    ensures r.changed <==> previous.Some? && previous.value != "" && previous.value != docker.fingerprint
    ensures r.status.NativeWsl? ==> r.provider.Native?
  {
    var provider := if docker.isDesktop then Desktop else Native;
    var changed := previous.Some? && previous.value != "" && previous.value != docker.fingerprint;
    var status :=
      if changed then Drifted
      else if provider.Desktop? || !docker.available then DesktopBacked
      else if requireStopped && running != [] then RunnerConflict
      else NativeWsl;
    Signal(status, provider, docker.fingerprint, changed)
  }

  // ---------------------------------------------------------------- the isolation record

  datatype Counters = Counters(preemptions: int, restores: int, drifts: int, repairs: int, blocked: int)

  /** The record on disk; `stamp` is its generatedAt. */
  datatype Record = Record(
    stamp: int, preempted: seq<string>, restored: seq<string>, fingerprint: Option<string>, lastStatus: Option<Status>,
    counters: Counters)

  function DefaultRecord(now: int): Record {
    Record(now, [], [], None, None, Counters(0, 0, 0, 0, 0))
  }

  /** Appends what is not there yet: a set union that keeps the order. */
  function Union(a: seq<string>, b: seq<string>): seq<string>
    decreases b
  {
    if b == [] then a else Union(if b[0] in a then a else a + [b[0]], b[1..])
  }

  function Without(a: seq<string>, b: seq<string>): seq<string> {
    if a == [] then [] else (if a[0] in b then [] else [a[0]]) + Without(a[1..], b)
  }

  lemma {:induction false} UnionMembers(a: seq<string>, b: seq<string>)
    requires Distinct(a)
    ensures Distinct(Union(a, b)) && forall x :: x in Union(a, b) <==> x in a || x in b
    ensures |Union(a, b)| <= |a| + |b|
    decreases b
  {
    if b != [] {
      var c := if b[0] in a then a else a + [b[0]];
      UnionMembers(c, b[1..]);
      assert forall x :: x in b <==> x == b[0] || x in b[1..];
    }
  }

  lemma {:induction false} WithoutMembers(a: seq<string>, b: seq<string>)
    requires Distinct(a)
    ensures Distinct(Without(a, b)) && forall x :: x in Without(a, b) <==> x in a && x !in b
  {
    if a != [] {
      DistinctTail(a);
      WithoutMembers(a[1..], b);
    }
  }

  // ---------------------------------------------------------------- one run

  datatype Mode = Collect | Isolate | Restore

  /**
   The outside world's answers during one run: the services found running when isolating
   (or a failed query), whether each stop or start command succeeds, and what the final
   collection finds (or a failed service query, which throws).
   */
  datatype Answers = Answers(now: int, found: Option<seq<string>>, succeeds: nat -> bool, running: Option<seq<string>>, docker: Docker)

  datatype Request = Request(mode: Mode, previous: Option<string>, requireStopped: bool)

  /** The record on disk, if any, and the services that the tool has stopped and not since started. */
  datatype Host = Host(record: Option<Record>, held: set<string>)

  /** The names, from the `k`-th command on, whose command succeeds. */
  function Mutated(names: seq<string>, succeeds: nat -> bool, k: nat): seq<string>
    requires k <= |names|
    decreases |names| - k
  {
    if k == |names| then [] else (if succeeds(k) then [names[k]] else []) + Mutated(names, succeeds, k + 1)
  }

  function Loaded(h: Host, now: int): Record {
    if h.record.Some? then h.record.value else DefaultRecord(now)
  }

  /** The services stopped by a run, or started by it. */
  function Stopped(q: Request, a: Answers): seq<string> {
    if q.mode.Isolate? && a.found.Some? then Mutated(a.found.value, a.succeeds, 0) else []
  }

  function Started(h: Host, q: Request, a: Answers): seq<string> {
    if q.mode.Restore? then Mutated(Loaded(h, a.now).preempted, a.succeeds, 0) else []
  }

  predicate Throws(q: Request, a: Answers) {
    (q.mode.Isolate? && a.found.None?) || a.running.None?
  }

  /** The record in memory after the commands, before the collection. */
  function Moved(h: Host, q: Request, a: Answers): Record {
    var r := Loaded(h, a.now);
    var stopped, started := Stopped(q, a), Started(h, q, a);
    var s := if stopped == [] then r else
      r.(preempted := Union(r.preempted, stopped), counters := r.counters.(preemptions := r.counters.preemptions + |stopped|));
    if started == [] then s else
      s.(restored := Union(s.restored, started), preempted := Without(s.preempted, started),
         counters := s.counters.(restores := s.counters.restores + |started|))
  }

  function Report(h: Host, q: Request, a: Answers): Signal
    requires !Throws(q, a)
  {
    Classify(a.docker, a.running.value, if q.previous.Some? then q.previous else Loaded(h, a.now).fingerprint, q.requireStopped)
  }

  function Written(h: Host, q: Request, a: Answers): Record
    requires !Throws(q, a)
  {
    var r, signal := Moved(h, q, a), Report(h, q, a);
    r.(stamp := a.now, fingerprint := Some(signal.fingerprint), lastStatus := Some(signal.status),
       counters := if signal.changed then r.counters.(drifts := r.counters.drifts + 1) else r.counters)
  }

  function Step(h: Host, q: Request, a: Answers): Host {
    Host(if Throws(q, a) then h.record else Some(Written(h, q, a)),
         h.held + Members(Stopped(q, a)) - Members(Started(h, q, a)))
  }

  class HostAgent {
    var record: Option<Record>
    ghost var held: set<string>

    constructor ()
      ensures record == None && held == {}
    {
      record, held := None, {};
    }

    ghost function View(): Host
      reads this
    {
      Host(record, held)
    }

    /** Runs one command per name and returns the names whose command succeeded. */
    method MutateRunnerServices(names: seq<string>, succeeds: nat -> bool) returns (mutated: seq<string>)
      ensures mutated == Mutated(names, succeeds, 0)
    {
      mutated := [];
      for i := 0 to |names|
        invariant mutated + Mutated(names, succeeds, i) == Mutated(names, succeeds, 0)
      {
        ghost var rest := Mutated(names, succeeds, i + 1);
        assert mutated + ([names[i]] + rest) == (mutated + [names[i]]) + rest && mutated + ([] + rest) == mutated + rest;
        if succeeds(i) { mutated := mutated + [names[i]]; }
      }
    }

    method Merge(a: seq<string>, b: seq<string>) returns (merged: seq<string>)
      ensures merged == Union(a, b)
    {
      merged := a;
      for i := 0 to |b|
        invariant Union(merged, b[i..]) == Union(a, b)
      {
        assert b[i..][1..] == b[i + 1..];
        if b[i] !in merged { merged := merged + [b[i]]; }
      }
    }

    method Drop(a: seq<string>, b: seq<string>) returns (kept: seq<string>)
      ensures kept == Without(a, b)
    {
      kept := [];
      for i := 0 to |a|
        invariant kept + Without(a[i..], b) == Without(a, b)
      {
        assert a[i..][1..] == a[i + 1..];
        if a[i] !in b { kept := kept + [a[i]]; }
      }
    }

    /** Stops or starts the services a run is about, and updates the record in memory. */
    method MoveServices(q: Request, a: Answers) returns (moved: Option<Record>)
      modifies this`held
      ensures moved == if q.mode.Isolate? && a.found.None? then None else Some(Moved(old(View()), q, a))
      ensures held == Step(old(View()), q, a).held
    {
      var isolation := if record.Some? then record.value else DefaultRecord(a.now);
      if q.mode.Isolate? {
        if a.found.None? { return None; }
        var stopped := MutateRunnerServices(a.found.value, a.succeeds);
        held := held + Members(stopped);
        if stopped != [] {
          var preempted := Merge(isolation.preempted, stopped);
          isolation := isolation.(preempted := preempted,
            counters := isolation.counters.(preemptions := isolation.counters.preemptions + |stopped|));
        }
      } else if q.mode.Restore? {
        var started := MutateRunnerServices(isolation.preempted, a.succeeds);
        held := held - Members(started);
        if started != [] {
          var restored := Merge(isolation.restored, started);
          var preempted := Drop(isolation.preempted, started);
          isolation := isolation.(restored := restored, preempted := preempted,
            counters := isolation.counters.(restores := isolation.counters.restores + |started|));
        }
      }
      return Some(isolation);
    }

    /** Collects, isolates or restores; the record is written last, and not at all when a query throws. */
    method RunDeliveryHostSignal(q: Request, a: Answers) returns (report: Option<Signal>)
      modifies this
      ensures View() == Step(old(View()), q, a)
      ensures report == if Throws(q, a) then None else Some(Report(old(View()), q, a))
    {
      var previous := if q.previous.Some? then q.previous else if record.Some? then record.value.fingerprint else None;
      var moved := MoveServices(q, a);
      if moved.None? || a.running.None? { return None; }
      var signal := Classify(a.docker, a.running.value, previous, q.requireStopped);
      var isolation := moved.value.(stamp := a.now, fingerprint := Some(signal.fingerprint), lastStatus := Some(signal.status));
      if signal.changed {
        isolation := isolation.(counters := isolation.counters.(drifts := isolation.counters.drifts + 1));
      }
      record := Some(isolation);
      return Some(signal);
    }
  }

  // ---------------------------------------------------------------- tracking

  /** The record names, once each, exactly the services held, and its counters cover them. */
  predicate Tracks(h: Host) {
    if h.record.None? then h.held == {} else
    var r := h.record.value;
    && Distinct(r.preempted) && Members(r.preempted) == h.held
    && r.counters.preemptions - r.counters.restores >= |r.preempted|
  }

  /** Whether a run stops or starts a service that the record on disk does not account for. */
  predicate Shifts(h: Host, q: Request, a: Answers) {
    Step(h, q, a).held != h.held
  }

  lemma DistinctFrom(names: seq<string>, k: nat)
    requires k < |names| && Distinct(names)
    ensures names[k] !in names[k + 1..]
  {
    var rest := names[k + 1..];
    forall j | 0 <= j < |rest| ensures rest[j] != names[k] {
      assert rest[j] == names[k + 1 + j];
    }
  }

  lemma {:induction false} MutatedMembers(names: seq<string>, succeeds: nat -> bool, k: nat)
    requires k <= |names|
    ensures forall x | x in Mutated(names, succeeds, k) :: x in names[k..]
    ensures Distinct(names) ==> Distinct(Mutated(names, succeeds, k))
    decreases |names| - k
  {
    if k < |names| {
      MutatedMembers(names, succeeds, k + 1);
      assert names[k..] == [names[k]] + names[k + 1..];
      if Distinct(names) { DistinctFrom(names, k); }
    }
  }

  lemma DistinctConcat(a: seq<string>, b: seq<string>)
    requires Distinct(a) && Distinct(b) && forall x | x in a :: x !in b
    ensures Distinct(a + b)
  {
    forall i, j | 0 <= i < j < |a + b| ensures (a + b)[i] != (a + b)[j] {
      if i < |a| <= j { assert a[i] in a && b[j - |a|] in b; }
    }
  }

  lemma WithoutLength(a: seq<string>, b: seq<string>)
    requires Distinct(a) && Distinct(b) && forall x | x in b :: x in a
    ensures |Without(a, b)| + |b| == |a|
  {
    WithoutMembers(a, b);
    var c := Without(a, b);
    DistinctConcat(c, b);
    assert Members(c + b) == Members(a) by { assert forall x :: x in c + b <==> x in c || x in b; }
    DistinctSize(c + b);
    DistinctSize(a);
  }

  lemma {:induction false} DistinctSize(s: seq<string>)
    requires Distinct(s)
    ensures |Members(s)| == |s|
  {
    if s != [] {
      DistinctTail(s);
      DistinctSize(s[1..]);
      assert Members(s) == {s[0]} + Members(s[1..]) by { assert forall x :: x in s <==> x == s[0] || x in s[1..]; }
    }
  }

  lemma {:induction false} WrittenTracks(h: Host, q: Request, a: Answers)
    requires Tracks(h) && !Throws(q, a)
    ensures Tracks(Step(h, q, a))
  {
    var r := Loaded(h, a.now);
    var stopped, started := Stopped(q, a), Started(h, q, a);
    assert Members(r.preempted) == h.held && Distinct(r.preempted);
    if q.mode.Isolate? {
      UnionMembers(r.preempted, stopped);
      assert Members(Union(r.preempted, stopped)) == h.held + Members(stopped);
    } else if q.mode.Restore? {
      MutatedMembers(r.preempted, a.succeeds, 0);
      assert r.preempted[0..] == r.preempted;
      WithoutMembers(r.preempted, started);
      WithoutLength(r.preempted, started);
      assert Members(Without(r.preempted, started)) == h.held - Members(started);
    }
  }

  /**
   A run keeps the record exact unless it throws after it has stopped a service that was
   not on record, or started one that was.
   */
  lemma TracksIff(h: Host, q: Request, a: Answers)
    requires Tracks(h)
    ensures Tracks(Step(h, q, a)) <==> !Throws(q, a) || !Shifts(h, q, a)
    ensures Shifts(h, q, a) <==> Members(Stopped(q, a)) - h.held != {} || Started(h, q, a) != []
  {
    if !Throws(q, a) { WrittenTracks(h, q, a); }
    var started := Started(h, q, a);
    if started != [] {
      MutatedMembers(Loaded(h, a.now).preempted, a.succeeds, 0);
      assert started[0] in started && started[0] in Loaded(h, a.now).preempted;
      assert started[0] in h.held && started[0] !in Step(h, q, a).held;
    } else {
      assert Members(started) == {};
      assert Step(h, q, a).held == h.held + Members(Stopped(q, a));
      assert Step(h, q, a).held != h.held <==> Members(Stopped(q, a)) - h.held != {};
    }
  }

  datatype Event = Event(request: Request, answers: Answers)

  function Runs(h: Host, events: seq<Event>): Host
    decreases events
  {
    if events == [] then h else Runs(Step(h, events[0].request, events[0].answers), events[1..])
  }

  /** No run throws after it has shifted a service; runs that throw with nothing shifted are welcome. */
  predicate Accounted(h: Host, events: seq<Event>)
    decreases events
  {
    events == [] ||
    (var e := events[0];
     (!Throws(e.request, e.answers) || !Shifts(h, e.request, e.answers)) &&
     Accounted(Step(h, e.request, e.answers), events[1..]))
  }

  /** The record is exact after each of the runs if and only if none of them throws having shifted a service. */
  lemma {:induction false} RunsTrack(h: Host, events: seq<Event>)
    requires Tracks(h)
    ensures Accounted(h, events) <==> forall k | 0 <= k <= |events| :: Tracks(Runs(h, events[..k]))
    decreases events
  {
    if events != [] {
      var e, rest := events[0], events[1..];
      var next := Step(h, e.request, e.answers);
      forall k | 0 < k <= |events| ensures Runs(h, events[..k]) == Runs(next, rest[..k - 1]) {
        assert events[..k][0] == e && events[..k][1..] == rest[..k - 1];
      }
      TracksIff(h, e.request, e.answers);
      assert Runs(h, events[..1]) == Runs(next, rest[..0]) == next;
      if Tracks(next) {
        RunsTrack(next, rest);
        RunsAlike(h, next, events);
      }
    }
  }

  lemma RunsAlike(h: Host, next: Host, events: seq<Event>)
    requires events != [] && Tracks(h)
    requires forall k | 0 < k <= |events| :: Runs(h, events[..k]) == Runs(next, events[1..][..k - 1])
    ensures (forall k | 0 <= k <= |events| :: Tracks(Runs(h, events[..k]))) <==>
            forall k | 0 <= k <= |events| - 1 :: Tracks(Runs(next, events[1..][..k]))
  {
    assert Runs(h, events[..0]) == h;
    if forall k | 0 <= k <= |events| :: Tracks(Runs(h, events[..k])) {
      forall k | 0 <= k <= |events| - 1 ensures Tracks(Runs(next, events[1..][..k])) {
        assert Tracks(Runs(h, events[..k + 1]));
      }
    }
  }

  /** A query that fails after a service was stopped: the service is down and nobody knows. */
  lemma StoppedUntracked()
    ensures var h := Host(None, {});
      var a := Answers(1, Some(["actions.runner.a"]), k => true, None, Docker(false, true, "f"));
      var after := Step(h, Request(Isolate, None, true), a);
      after.record == None && after.held == {"actions.runner.a"} && !Tracks(after)
  {
    var a := Answers(1, Some(["actions.runner.a"]), k => true, None, Docker(false, true, "f"));
    assert Mutated(a.found.value, a.succeeds, 0) == ["actions.runner.a"];
    assert "actions.runner.a" in Members(["actions.runner.a"]);
  }
}
