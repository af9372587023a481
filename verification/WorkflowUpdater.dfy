/**
 The updater as a command: files are loaded, rewritten and dumped, `--check` reports the
 ones whose text would change and `--write` stores the new text.
 */
module WorkflowUpdater {
  import opened Options
  import opened Texts
  import opened WorkflowVocabulary
  import opened StepLists
  import opened WorkflowStages
  import opened StepFacts
  import opened WorkflowRuns
  import opened RewiredJobs
  import opened WorkflowDocuments
  import opened WorkflowFixedPoint
  import opened WorkflowDocumentState
  import SortedLists

  /** The YAML round trip: loading may fail, dumping may not. */
  datatype Codec = Codec(load: string -> Option<Doc>, dump: Doc -> string)

  /** Loading what was dumped gives it back, for the documents the tool dumps: rewrites of documents it has loaded. */
  ghost predicate RoundTrips(c: Codec) {
    forall f, text | c.load(text).Some? ::
      var once := Updated(f, c.load(text).value);
      c.load(c.dump(once)) == Some(once)
  }

  function BaseName(path: string): string {
    if path == [] then []
    else if path[|path| - 1] == '/' then []
    else BaseName(path[..|path| - 1]) + [path[|path| - 1]]
  }

  function FileOf(name: string): File {
    if name == "pester-selfhosted.yml" then PesterSelfhosted
    else if name == "fixture-drift.yml" then FixtureDrift
    else if name == "ci-orchestrated.yml" then CiOrchestrated
    else if name == "pester-integration-on-label.yml" then IntegrationOnLabel
    else if name == "smoke.yml" then Smoke
    else if name == "compare-artifacts.yml" then CompareArtifacts
    else if name == "pester-reusable.yml" then PesterReusable
    else if name == "validate.yml" then Validate
    else OtherFile
  }

  /** What processing a file comes to: an error, no change, or a new text. */
  datatype Outcome = Failed | Same | Rewrite(text: string)

  function Process(c: Codec, f: File, text: string): Outcome {
    var loaded := c.load(text);
    if loaded.None? then Failed else
    var once := c.dump(Updated(f, loaded.value));
    if RunReports(FilePipeline(f, loaded.value), loaded.value) && once != text then Rewrite(once) else Same
  }

  // ---------------------------------------------------------------- a run that reports nothing

  predicate AllWritten(doc: Doc) {
    forall n | n in doc.jobs && doc.jobs[n].Job? :: doc.jobs[n].steps.Some?
  }

  lemma {:induction false} QuietJob(stage: Stage, n: string, node: Node)
    requires !Reports(stage, n, node) && (node.Job? ==> node.steps.Some?)
    ensures Apply(stage, n, node) == node
  {
    if Visits(stage, n) && node.Job? && !Skips(stage, node) && stage.WireProbes? {
      WithoutNothing(StepsOf(node));
    }
  }

  lemma {:induction false} QuietStage(stage: Stage, doc: Doc)
    requires !DocReports(stage, doc) && AllWritten(doc)
    ensures StageDoc(stage, doc) == doc
  {
    forall n | n in StageJobs(stage, doc.jobs) ensures n in doc.jobs && StageJobs(stage, doc.jobs)[n] == doc.jobs[n] {
      WantedAt(stage, doc.jobs, n);
      QuietJob(stage, n, Lookup(doc.jobs, n));
    }
    assert StageJobs(stage, doc.jobs) == doc.jobs;
  }

  lemma {:induction false} QuietRun(stages: seq<Stage>, doc: Doc)
    requires !RunReports(stages, doc) && AllWritten(doc)
    ensures RunDoc(stages, doc) == doc
    decreases stages
  {
    if stages != [] {
      QuietStage(stages[0], doc);
      QuietRun(stages[1..], doc);
    }
  }

  lemma {:induction false} RewiredWritten(f: File, doc: Doc)
    requires Rewires(f)
    ensures AllWritten(Updated(f, doc))
  {
    var P, pester := FilePipeline(f, doc), IsPester(f, doc.name);
    forall n | n in Updated(f, doc).jobs && Updated(f, doc).jobs[n].Job? ensures Updated(f, doc).jobs[n].steps.Some? {
      var node := Lookup(doc.jobs, n);
      RunDocNode(P, doc, n);
      RewiredNeverSkips(f, pester);
      if node.Job? {
        RunWrites(P, n, node);
      } else if Created(f, n) {
        CreatedRun(pester, n, node);
        RunWrites(P, n, StartOf(f, n, node));
      } else {
        NotJobIdle(f, pester, n, node);
      }
    }
  }

  /** An updated document on which no transform reports a change is a fixed point. */
  lemma {:induction false} QuietFixed(f: File, doc: Doc)
    requires !RunReports(FilePipeline(f, Updated(f, doc)), Updated(f, doc))
    ensures Converges(f, doc)
  {
    UpdateTwiceIff(f, doc);
    if Rewires(f) {
      RewiredWritten(f, doc);
      QuietRun(FilePipeline(f, Updated(f, doc)), Updated(f, doc));
    }
  }

  lemma {:induction false} ProcessLoaded(c: Codec, f: File, text: string, doc: Doc)
    requires c.load(text) == Some(doc)
    ensures Process(c, f, text) ==
            if RunReports(FilePipeline(f, doc), doc) && c.dump(Updated(f, doc)) != text then Rewrite(c.dump(Updated(f, doc))) else Same
  {
  }

  /** Processing the text that a rewrite dumped. */
  lemma {:induction false} SecondPass(c: Codec, f: File, doc: Doc, once: Doc)
    requires once == Updated(f, doc) && c.load(c.dump(once)) == Some(once)
    requires c.load(c.dump(Updated(f, once))) == Some(Updated(f, once))
    ensures !Process(c, f, c.dump(once)).Failed?
    ensures Process(c, f, c.dump(once)).Same? <==> Updated(f, once) == once
  {
    ProcessLoaded(c, f, c.dump(once), once);
    if !RunReports(FilePipeline(f, once), once) {
      QuietFixed(f, doc);
      UpdateTwiceIff(f, doc);
    }
  }

  /** The text that a file's own rewrite produced is left alone exactly when its document converges. */
  lemma {:induction false} WrittenQuietIff(c: Codec, f: File, text: string)
    requires RoundTrips(c) && Process(c, f, text).Rewrite?
    ensures c.load(text).Some?
    ensures !Process(c, f, Process(c, f, text).text).Failed?
    ensures Process(c, f, Process(c, f, text).text).Same? <==> Converges(f, c.load(text).value)
  {
    var doc := c.load(text).value;
    ProcessLoaded(c, f, text, doc);
    var once := Updated(f, doc);
    assert c.load(c.dump(once)) == Some(once);
    assert c.load(c.dump(Updated(f, once))) == Some(Updated(f, once));
    UpdateTwiceIff(f, doc);
    SecondPass(c, f, doc, once);
  }

  // ---------------------------------------------------------------- a whole command

  datatype Tally = Tally(disk: map<string, string>, changed: bool, failed: bool)

  function At(disk: map<string, string>, path: string): Option<string> {
    if path in disk then Some(disk[path]) else None
  }

  function ProcessHeld(c: Codec, path: string, held: Option<string>): Outcome {
    if held.Some? then Process(c, FileOf(BaseName(path)), held.value) else Failed
  }

  function ProcessPath(c: Codec, path: string, disk: map<string, string>): Outcome {
    ProcessHeld(c, path, At(disk, path))
  }

  /** What processing a file with a given content comes to. */
  type Tool = (string, Option<string>) -> Outcome

  function ToolOf(c: Codec): Tool {
    (path, held) => ProcessHeld(c, path, held)
  }

  function Visit(tool: Tool, write: bool, path: string, t: Tally): Tally {
    match tool(path, At(t.disk, path))
    case Failed => t.(failed := true)
    case Same => t
    case Rewrite(text) => t.(changed := true, disk := if write then t.disk[path := text] else t.disk)
  }

  function VisitAll(tool: Tool, write: bool, paths: seq<string>, t: Tally): Tally {
    if paths == [] then t else VisitAll(tool, write, paths[1..], Visit(tool, write, paths[0], t))
  }

  function ExitCode(write: bool, t: Tally): int {
    if t.failed then 4 else if !write && t.changed then 3 else 0
  }

  class Updater {
    const codec: Codec
    var disk: map<string, string>

    constructor (codec: Codec, disk: map<string, string>)
      ensures this.codec == codec && this.disk == disk
    {
      this.codec, this.disk := codec, disk;
    }

    /** Loads one file, runs its transforms in place, and compares the dumped text. */
    method ApplyTransforms(path: string) returns (outcome: Outcome)
      ensures outcome == ProcessPath(codec, path, disk)
    {
      if path !in disk { return Failed; }
      var loaded := codec.load(disk[path]);
      if loaded.None? { return Failed; }
      var file := FileOf(BaseName(path));
      var workflow := new Workflow(loaded.value);
      var changed := workflow.RunStages(FilePipeline(file, loaded.value));
      var text := codec.dump(workflow.View());
      outcome := if changed && text != disk[path] then Rewrite(text) else Same;
    }

    method Command(args: seq<string>) returns (code: int)
      modifies this`disk
      ensures |args| < 2 || (args[0] != "--check" && args[0] != "--write") ==> code == 2 && disk == old(disk)
      ensures |args| >= 2 && (args[0] == "--check" || args[0] == "--write") ==>
                var t := VisitAll(ToolOf(codec), args[0] == "--write", args[1..], Tally(old(disk), false, false));
                code == ExitCode(args[0] == "--write", t) && disk == t.disk
    {
      if |args| == 0 || (args[0] != "--check" && args[0] != "--write") { return 2; }
      var write, paths := args[0] == "--write", args[1..];
      if paths == [] { return 2; }
      var changed, failed := false, false;
      for i := 0 to |paths|
        invariant VisitAll(ToolOf(codec), write, paths[i..], Tally(disk, changed, failed)) ==
                  VisitAll(ToolOf(codec), write, paths, Tally(old(disk), false, false))
      {
        assert paths[i..][1..] == paths[i + 1..];
        var outcome := ApplyTransforms(paths[i]);
        if outcome.Failed? {
          failed := true;
        } else if outcome.Rewrite? {
          changed := true;
          if write { disk := disk[paths[i] := outcome.text]; }
        }
      }
      code := if failed then 4 else if !write && changed then 3 else 0;
    }
  }

  // ---------------------------------------------------------------- --check after --write

  /** A check leaves the disk alone and reports exactly the listed files that would change or fail. */
  lemma {:induction false} CheckVisits(tool: Tool, paths: seq<string>, t: Tally)
    ensures var r := VisitAll(tool, false, paths, t);
      && r.disk == t.disk
      && (r.changed <==> t.changed || exists p :: p in paths && tool(p, At(t.disk, p)).Rewrite?)
      && (r.failed <==> t.failed || exists p :: p in paths && tool(p, At(t.disk, p)).Failed?)
    decreases paths
  {
    if paths != [] {
      CheckVisits(tool, paths[1..], Visit(tool, false, paths[0], t));
      assert forall p :: p in paths <==> p == paths[0] || p in paths[1..];
    }
  }

  /** How often a list names a file. */
  function Times(paths: seq<string>, path: string): nat {
    if paths == [] then 0 else (if paths[0] == path then 1 else 0) + Times(paths[1..], path)
  }

  /** What a write leaves of a file that it found so. */
  function Left(held: Option<string>, o: Outcome): Option<string> {
    if o.Rewrite? then Some(o.text) else held
  }

  /** What a file holds after `k` visits that write it. */
  function Held(tool: Tool, path: string, held: Option<string>, k: nat): Option<string> {
    if k == 0 then held else
    var before := Held(tool, path, held, k - 1);
    Left(before, tool(path, before))
  }

  /** Whether the visit after the next one finds the file settled. */
  predicate Steady(c: Codec, path: string, held: Option<string>) {
    ProcessHeld(c, path, held).Rewrite? ==> Converges(FileOf(BaseName(path)), c.load(held.value).value)
  }

  lemma {:induction false} SteadyVisit(c: Codec, path: string, held: Option<string>)
    requires RoundTrips(c)
    ensures var after := Left(held, ProcessHeld(c, path, held));
      && (ProcessHeld(c, path, after).Failed? <==> ProcessHeld(c, path, held).Failed?)
      && (ProcessHeld(c, path, after).Rewrite? <==> !Steady(c, path, held))
  {
    if ProcessHeld(c, path, held).Rewrite? { WrittenQuietIff(c, FileOf(BaseName(path)), held.value); }
  }

  lemma {:induction false} HeldFirst(tool: Tool, path: string, held: Option<string>, k: nat)
    ensures Held(tool, path, Left(held, tool(path, held)), k) == Held(tool, path, held, k + 1)
  {
    if k > 0 { HeldFirst(tool, path, held, k - 1); }
  }

  /** What one visit of a file keeps, every further one keeps. */
  lemma {:induction false} HeldKeeps(tool: Tool, path: string, held: Option<string>, k: nat, kept: Option<string> -> bool)
    requires forall h :: kept(h) ==> kept(Left(h, tool(path, h)))
    requires kept(held)
    ensures kept(Held(tool, path, held, k))
  {
    if k > 0 { HeldKeeps(tool, path, held, k - 1, kept); }
  }

  /** A file that fails keeps failing, and one that is steady or settled stays so. */
  lemma {:induction false} HeldOutcome(c: Codec, path: string, held: Option<string>, k: nat)
    requires RoundTrips(c)
    ensures ProcessHeld(c, path, Held(ToolOf(c), path, held, k)).Failed? <==> ProcessHeld(c, path, held).Failed?
    ensures Steady(c, path, held) ==> Steady(c, path, Held(ToolOf(c), path, held, k))
  {
    var fails := (h: Option<string>) => ProcessHeld(c, path, h).Failed?;
    var works := (h: Option<string>) => !ProcessHeld(c, path, h).Failed?;
    var steady := (h: Option<string>) => Steady(c, path, h);
    forall h
      ensures fails(h) ==> fails(Left(h, ToolOf(c)(path, h)))
      ensures works(h) ==> works(Left(h, ToolOf(c)(path, h)))
      ensures steady(h) ==> steady(Left(h, ToolOf(c)(path, h)))
    {
      SteadyVisit(c, path, h);
    }
    if fails(held) { HeldKeeps(ToolOf(c), path, held, k, fails); } else { HeldKeeps(ToolOf(c), path, held, k, works); }
    if steady(held) { HeldKeeps(ToolOf(c), path, held, k, steady); }
  }

  /** What a write leaves of one file: as many visits as the list names it. */
  lemma {:induction false} WriteVisits(tool: Tool, paths: seq<string>, t: Tally, p: string)
    ensures var r := VisitAll(tool, true, paths, t);
      && At(r.disk, p) == Held(tool, p, At(t.disk, p), Times(paths, p))
      && (p in paths && tool(p, At(t.disk, p)).Failed? ==> r.failed)
      && (t.failed ==> r.failed)
    decreases paths
  {
    if paths != [] {
      var u := Visit(tool, true, paths[0], t);
      WriteVisits(tool, paths[1..], u, p);
      if paths[0] == p { HeldFirst(tool, p, At(t.disk, p), Times(paths[1..], p)); }
      assert p in paths <==> p == paths[0] || p in paths[1..];
    }
  }

  lemma {:induction false} TimesPositive(paths: seq<string>, p: string)
    ensures Times(paths, p) > 0 <==> p in paths
    ensures SortedLists.Distinct(paths) ==> Times(paths, p) <= 1
  {
    if paths != [] { TimesPositive(paths[1..], p); }
  }

  /** What the last of a write's visits of a file finds in it. */
  function LastFound(c: Codec, paths: seq<string>, p: string, disk: map<string, string>): Option<string>
    requires p in paths
  {
    TimesPositive(paths, p);
    Held(ToolOf(c), p, At(disk, p), Times(paths, p) - 1)
  }

  /** What a check finds of one file after a write. */
  lemma {:induction false} CheckOne(c: Codec, paths: seq<string>, disk: map<string, string>, p: string)
    requires RoundTrips(c) && p in paths
    ensures var w := VisitAll(ToolOf(c), true, paths, Tally(disk, false, false));
      && (ProcessPath(c, p, w.disk).Failed? <==> ProcessPath(c, p, disk).Failed?)
      && (ProcessPath(c, p, w.disk).Rewrite? <==> !Steady(c, p, LastFound(c, paths, p, disk)))
      && (ProcessPath(c, p, disk).Failed? ==> w.failed)
  {
    TimesPositive(paths, p);
    WriteVisits(ToolOf(c), paths, Tally(disk, false, false), p);
    HeldOutcome(c, p, At(disk, p), Times(paths, p));
    SteadyVisit(c, p, LastFound(c, paths, p, disk));
  }

  /**
   The tool's promise: `--check` straight after `--write` on the same files.  It fails on the
   files that could not be processed, and is otherwise quiet exactly when, for every file,
   what the last of its write visits found was up to date or converges.
   */
  lemma {:induction false} CheckAfterWrite(c: Codec, paths: seq<string>, disk: map<string, string>)
    requires RoundTrips(c)
    ensures var w := VisitAll(ToolOf(c), true, paths, Tally(disk, false, false));
      var r := VisitAll(ToolOf(c), false, paths, Tally(w.disk, false, false));
      && r.disk == w.disk
      && (r.failed <==> exists p :: p in paths && ProcessPath(c, p, disk).Failed?)
      && (r.changed <==> exists p :: p in paths && !Steady(c, p, LastFound(c, paths, p, disk)))
      && (r.failed ==> w.failed)
  {
    var w := VisitAll(ToolOf(c), true, paths, Tally(disk, false, false));
    CheckVisits(ToolOf(c), paths, Tally(w.disk, false, false));
    forall p | p in paths
      ensures ProcessPath(c, p, w.disk).Failed? <==> ProcessPath(c, p, disk).Failed?
      ensures ProcessPath(c, p, w.disk).Rewrite? <==> !Steady(c, p, LastFound(c, paths, p, disk))
      ensures ProcessPath(c, p, disk).Failed? ==> w.failed
    {
      CheckOne(c, paths, disk, p);
    }
  }

  lemma {:induction false} FoundOnce(c: Codec, paths: seq<string>, p: string, disk: map<string, string>)
    requires RoundTrips(c) && p in paths
    ensures Steady(c, p, At(disk, p)) ==> Steady(c, p, LastFound(c, paths, p, disk))
    ensures SortedLists.Distinct(paths) ==> LastFound(c, paths, p, disk) == At(disk, p)
  {
    TimesPositive(paths, p);
    HeldOutcome(c, p, At(disk, p), Times(paths, p) - 1);
  }

  /**
   Read off the disk as it was before the write: a check after it is quiet when every file
   that needed an update converges, and only then when the list names no file twice.
   */
  lemma {:induction false} CheckAfterWriteOnce(c: Codec, paths: seq<string>, disk: map<string, string>)
    requires RoundTrips(c)
    ensures var w := VisitAll(ToolOf(c), true, paths, Tally(disk, false, false));
      var r := VisitAll(ToolOf(c), false, paths, Tally(w.disk, false, false));
      && ((forall p | p in paths :: Steady(c, p, At(disk, p))) ==> !r.changed)
      && (SortedLists.Distinct(paths) && !r.changed ==> forall p | p in paths :: Steady(c, p, At(disk, p)))
  {
    CheckAfterWrite(c, paths, disk);
    forall p | p in paths
      ensures Steady(c, p, At(disk, p)) ==> Steady(c, p, LastFound(c, paths, p, disk))
      ensures SortedLists.Distinct(paths) ==> LastFound(c, paths, p, disk) == At(disk, p)
    {
      FoundOnce(c, paths, p, disk);
    }
  }
}
