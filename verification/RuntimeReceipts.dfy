/**
 Startup quarantine: the receipts of an earlier manager are moved aside before the new one
 reads any of them.
 */
module RuntimeReceipts {
  import opened Options
  import opened SortedLists
  import opened HostIsolation

  /** A file of the runtime directory, or one moved into the quarantine of an epoch. */
  datatype Path = Runtime(name: string) | Quarantined(epoch: string, name: string)

  /** The four timestamps a receipt may carry, where they parse. */
  datatype Stamps = Stamps(generatedAt: Option<int>, startedAt: Option<int>, requestedAt: Option<int>, updatedAt: Option<int>)

  datatype Content = Invalid | Receipt(stamps: Stamps, text: string) | Isolation(record: Record)

  function Timestamp(c: Content): Option<int> {
    match c
    case Invalid => None
    case Isolation(record) => Some(record.stamp)
    case Receipt(s, _) =>
      if s.generatedAt.Some? then s.generatedAt
      else if s.startedAt.Some? then s.startedAt
      else if s.requestedAt.Some? then s.requestedAt
      else s.updatedAt
  }

  predicate Stale(c: Content, managerStartedAt: int) {
    var t := Timestamp(c);
    t.None? || t.value < managerStartedAt
  }

  const CANDIDATES := [
    "delivery-agent-runtime-epoch.json", "delivery-agent-manager-state.json", "delivery-agent-manager-cycle.json",
    "observer-heartbeat.json", "delivery-agent-state.json", "runtime-state.json", "task-packet.json",
    "delivery-memory.json", "delivery-agent-wsl-daemon-pid.json", "daemon-host-signal.json",
    "delivery-agent-host-isolation.json", "wsl-native-docker.json", "runtime-daemon-report.json"]

  const ISOLATION := "delivery-agent-host-isolation.json"

  /** The candidates are thirteen different files. */
  lemma {:induction false} CandidatesDistinct()
    ensures Distinct(CANDIDATES)
  {
    var s := CANDIDATES;
    assert |s[0]| == 33 && |s[1]| == 33 && |s[2]| == 33 && s[0][15] == 'r' && s[1][15] == 'm' && s[2][15] == 'm';
    assert s[1][23] == 's' && s[2][23] == 'c';
    assert |s[3]| == 23 && |s[9]| == 23 && s[3][0] == 'o' && s[9][0] == 'd';
    assert |s[8]| == 34 && |s[10]| == 34 && s[8][15] == 'w' && s[10][15] == 'h';
    assert |s[4]| == 25 && |s[5]| == 18 && |s[6]| == 16 && |s[7]| == 20 && |s[11]| == 22 && |s[12]| == 26;
  }

  lemma IsolationIsCandidate()
    ensures ISOLATION in CANDIDATES
  {
    assert CANDIDATES[10] == ISOLATION;
  }

  datatype Reason = InvalidJson | MissingTimestamp | PredatesEpoch

  datatype Entry = Entry(name: string, reason: Reason)

  function ReasonFor(c: Content): Reason {
    if c.Invalid? then InvalidJson else if Timestamp(c).None? then MissingTimestamp else PredatesEpoch
  }

  type Files = map<Path, Content>

  predicate Moves(files: Files, name: string, managerStartedAt: int) {
    Runtime(name) in files && Stale(files[Runtime(name)], managerStartedAt)
  }

  /** One candidate: whatever the quarantine holds under its name is replaced by it. */
  function MoveAside(files: Files, name: string, epoch: string, managerStartedAt: int): Files {
    if Moves(files, name, managerStartedAt)
    then (files - {Runtime(name)})[Quarantined(epoch, name) := files[Runtime(name)]]
    else files
  }

  function MoveAll(files: Files, names: seq<string>, epoch: string, managerStartedAt: int): Files
    decreases names
  {
    if names == [] then files
    else MoveAll(MoveAside(files, names[0], epoch, managerStartedAt), names[1..], epoch, managerStartedAt)
  }

  class RuntimeDirectory {
    var files: Files

    constructor (files: Files)
      ensures this.files == files
    {
      this.files := files;
    }

    /** Moves every stale candidate aside, one rename at a time, and lists what it moved. */
    method QuarantineEach(names: seq<string>, epoch: string, managerStartedAt: int) returns (entries: seq<Entry>)
      requires Distinct(names)
      modifies this
      ensures files == MoveAll(old(files), names, epoch, managerStartedAt)
      ensures forall e :: e in entries <==> Listed(old(files), names, |names|, e, managerStartedAt)
    {
      entries := [];
      for i := 0 to |names|
        invariant MoveAll(files, names[i..], epoch, managerStartedAt) == MoveAll(old(files), names, epoch, managerStartedAt)
        invariant forall k | i <= k < |names| :: Same(files, old(files), Runtime(names[k]))
        invariant forall e :: e in entries <==> Listed(old(files), names, i, e, managerStartedAt)
      {
        assert names[i..][1..] == names[i + 1..] && names[i..][0] == names[i];
        assert Same(files, old(files), Runtime(names[i]));
        if Runtime(names[i]) in files {
          var payload := files[Runtime(names[i])];
          var generatedAt := Timestamp(payload);
          if generatedAt.None? || generatedAt.value < managerStartedAt {
            files := (files - {Runtime(names[i])})[Quarantined(epoch, names[i]) := payload];
            entries := entries + [Entry(names[i], ReasonFor(payload))];
          }
        }
      }
    }

    method QuarantineStaleRuntimeReceipts(epoch: string, managerStartedAt: int) returns (entries: seq<Entry>)
      modifies this
      ensures files == MoveAll(old(files), CANDIDATES, epoch, managerStartedAt)
      ensures forall e :: e in entries <==> Listed(old(files), CANDIDATES, |CANDIDATES|, e, managerStartedAt)
    {
      CandidatesDistinct();
      entries := QuarantineEach(CANDIDATES, epoch, managerStartedAt);
    }
  }

  /** An entry for one of the first `i` names: its file was stale, and this is why. */
  predicate Listed(files: Files, names: seq<string>, i: nat, e: Entry, managerStartedAt: int)
    requires i <= |names|
  {
    (exists k :: 0 <= k < i && names[k] == e.name) && Moves(files, e.name, managerStartedAt) &&
    e.reason == ReasonFor(files[Runtime(e.name)])
  }

  predicate Same(a: Files, b: Files, p: Path) {
    (p in a <==> p in b) && (p in a ==> a[p] == b[p])
  }

  /**
   After the moves no stale candidate is left in place, each is found under its own name in
   the quarantine, and every other file is where and what it was.
   */
  lemma {:induction false} MoveAllAt(files: Files, names: seq<string>, epoch: string, t: int, p: Path)
    ensures var out := MoveAll(files, names, epoch, t);
      match p
      case Runtime(n) => if n in names && Moves(files, n, t) then p !in out else Same(out, files, p)
      case Quarantined(e, n) =>
        if e == epoch && n in names && Moves(files, n, t) then p in out && out[p] == files[Runtime(n)] else Same(out, files, p)
    decreases names
  {
    if names != [] {
      MoveAllAt(MoveAside(files, names[0], epoch, t), names[1..], epoch, t, p);
      assert forall n :: n in names <==> n == names[0] || n in names[1..];
    }
  }

  // ---------------------------------------------------------------- the isolation record

  function RecordOf(files: Files): Option<Record> {
    if Runtime(ISOLATION) in files && files[Runtime(ISOLATION)].Isolation?
    then Some(files[Runtime(ISOLATION)].record) else None
  }

  lemma KeptIff(files: Files, names: seq<string>, name: string, epoch: string, t: int)
    requires name in names
    ensures Runtime(name) in MoveAll(files, names, epoch, t) <==> Runtime(name) in files && !Moves(files, name, t)
    ensures Runtime(name) in MoveAll(files, names, epoch, t) ==> MoveAll(files, names, epoch, t)[Runtime(name)] == files[Runtime(name)]
  {
    MoveAllAt(files, names, epoch, t, Runtime(name));
  }

  /** Quarantining a list of files that holds the isolation record keeps it exactly when it is not older than the manager. */
  lemma IsolationKeptIff(files: Files, names: seq<string>, epoch: string, t: int)
    requires RecordOf(files).Some? && ISOLATION in names
    ensures RecordOf(MoveAll(files, names, epoch, t)) == if RecordOf(files).value.stamp < t then None else RecordOf(files)
  {
    KeptIff(files, names, ISOLATION, epoch, t);
  }
}
