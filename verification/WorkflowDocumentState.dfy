/**
 The document the updater loads and rewrites in place: its jobs mapping is reassigned job
 by job, and each transform reports whether it changed anything.
 */
module WorkflowDocumentState {
  import opened Options
  import opened Texts
  import opened WorkflowVocabulary
  import opened StepLists
  import opened WorkflowStages
  import opened StepFacts
  import opened WorkflowTransforms

  predicate Threads(stage: Stage) {
    stage.LongWire? || stage.SessionIndex? || stage.TestProbe? || stage.DriftProbes? || stage.InvokerProbes? ||
    stage.GuardProbes? || stage.FinalProbe?
  }

  /** The transforms that add a step to a role or normalize the hosted ones. */
  method EditRoleSteps(stage: Stage, n: string, steps: seq<Step>) returns (out: seq<Step>, changed: bool)
    requires stage.PostSession? || stage.NormalizeHostedSteps? || stage.EnsureHostedPreflight? || stage.EnsureUnblockGuard? || stage.PreflightGuard?
    ensures out == StageSteps(stage, n, steps) && changed == (out != steps)
  {
    match stage {
      case PostSession(_, title, dir, artifact, _) =>
        out, changed := AppendStep(steps, PostsSessionIndex, SessionPostStep(title, dir, artifact));
      case NormalizeHostedSteps => out, changed := NormalizeHostedPreflight(steps);
      case EnsureHostedPreflight => out, changed := EnsurePreflight(steps);
      case EnsureUnblockGuard(_, dir, _) => out, changed := AppendStep(steps, GuardsRunner, UnblockGuardStep(dir));
      case PreflightGuard => out, changed := EnsurePreflightGuard(steps);
    }
  }

  /** The transforms of the lint job. */
  method EditLintSteps(stage: Stage, n: string, steps: seq<Step>) returns (out: seq<Step>, changed: bool)
    requires stage.LintResiliency? || stage.DriftGate?
    ensures out == StageSteps(stage, n, steps) && changed == (out != steps)
  {
    if stage.LintResiliency? {
      out, changed := EnsureLint(steps);
    } else {
      out, changed := EnsureDriftGate(steps);
    }
  }

  /** The transforms that edit steps or append one. */
  method EditSteps(stage: Stage, n: string, steps: seq<Step>) returns (out: seq<Step>, changed: bool)
    requires !stage.WireProbes? && !Threads(stage)
    ensures out == StageSteps(stage, n, steps) && changed == (out != steps)
  {
    out, changed := steps, false;
    match stage {
      case PreInitOutputs => out, changed := EnsurePreInit(steps);
      case RerunAfterSummary => out, changed := EnsureRerunAfterSummary(steps);
      case RerunInJob(_, single) =>
        out, changed := EnsureStep(steps, Named(RerunName(single)), RerunEdit(single), |steps|, RerunStep(single));
      case InteractivityProbe => out, changed := EnsureInteractivity(steps);
      case LintResiliency => out, changed := EditLintSteps(stage, n, steps);
      case DriftGate => out, changed := EditLintSteps(stage, n, steps);
      case ForceRunInput =>
      case JobCondition(_, _) =>
      case JobNeeds(_, _) =>
      case _ => out, changed := EditRoleSteps(stage, n, steps);
    }
  }

  method PlaceStage(stage: Stage, n: string, steps: seq<Step>) returns (out: seq<Step>, changed: bool)
    requires Threads(stage)
    ensures out == StageSteps(stage, n, steps) && changed == (out != steps)
  {
    out, changed := PlaceSteps(steps, Threaded(stage, n));
  }

  method RewriteSteps(stage: Stage, n: string, steps: seq<Step>) returns (out: seq<Step>, changed: bool)
    requires !stage.WireProbes?
    ensures out == StageSteps(stage, n, steps) && changed == (out != steps)
  {
    if Threads(stage) {
      out, changed := PlaceStage(stage, n, steps);
    } else {
      out, changed := EditSteps(stage, n, steps);
    }
  }

  method AddNeed(jobs: seq<string>, need: string) returns (out: seq<string>, changed: bool)
    ensures out == WithNeed(jobs, need) && changed == (out != jobs) == (|out| > |jobs|)
  {
    out, changed := jobs, need !in jobs;
    if changed { out := jobs + [need]; }
  }

  method SetProbeFields(job: Node) returns (out: Node, changed: bool)
    requires job.Job?
    ensures out == StageFields(InteractivityProbe, job) && changed == (out != job)
  {
    out, changed := job, false;
    if out.cond != Some(SingleStrategy) { out, changed := out.(cond := Some(SingleStrategy)), true; }
    if out.runsOn != Some(CapabilityIngress) { out, changed := out.(runsOn := Some(CapabilityIngress)), true; }
    if out.timeout != Some(2) { out, changed := out.(timeout := Some(2)), true; }
    if out.outputs != Some(PROBE_OUTPUTS) { out, changed := out.(outputs := Some(PROBE_OUTPUTS)), true; }
    if out.needs.Some? && out.needs.value.ManyNeeds? {
      var once, added1 := AddNeed(out.needs.value.jobs, "normalize");
      var twice, added2 := AddNeed(once, "preflight");
      out, changed := out.(needs := Some(ManyNeeds(twice))), changed || added1 || added2;
    } else {
      out, changed := out.(needs := Some(ManyNeeds(["normalize", "preflight"]))), true;
    }
  }

  method SetNeed(job: Node, need: string) returns (out: Node, changed: bool)
    requires job.Job?
    ensures forall n :: out == StageFields(JobNeeds(n, need), job)
    ensures changed == (out != job)
  {
    out, changed := job, false;
    if job.needs.None? {
      out, changed := job.(needs := Some(ManyNeeds([need]))), true;
    } else if job.needs.value.ManyNeeds? {
      var jobs, added := AddNeed(job.needs.value.jobs, need);
      if added { out, changed := job.(needs := Some(ManyNeeds(jobs))), true; }
    }
  }

  method SetKey(keys: Option<Keys>, k: Key, v: Value) returns (out: Option<Keys>, changed: bool)
    ensures out == Some(keys.GetOr(map[])[k := v])
    ensures changed == (out != keys)
  {
    var m := keys.GetOr(map[]);
    out, changed := Some(m), false;
    if k !in m || m[k] != v {
      assert k in m ==> m[k] != m[k := v][k];
      out, changed := Some(m[k := v]), true;
    } else {
      assert m[k := v] == m;
    }
  }

  method SetFields(stage: Stage, job: Node) returns (out: Node, changed: bool)
    requires job.Job?
    ensures out == StageFields(stage, job) && changed == (out != job)
  {
    out, changed := job, false;
    match stage {
      case PreInitOutputs =>
        var keys;
        keys, changed := SetKey(job.outputs, DocsOnly, OutDocsOnly);
        out := job.(outputs := keys);
      case LintResiliency =>
        var keys;
        keys, changed := SetKey(job.env, ActionlintVersion, ActionlintVersionValue);
        out := job.(env := keys);
      case LongWire =>
        if job.concurrency != Some(FixtureGroup) { out, changed := job.(concurrency := Some(FixtureGroup)), true; }
      case EnsureHostedPreflight =>
        if job.runsOn != Some(WindowsLatest) { out, changed := job.(runsOn := Some(WindowsLatest)), true; }
      case InteractivityProbe => out, changed := SetProbeFields(job);
      case JobCondition(_, cond) =>
        if job.cond != Some(cond) { out, changed := job.(cond := Some(cond)), true; }
      case JobNeeds(_, need) => out, changed := SetNeed(job, need);
      case _ =>
    }
  }

  method RewriteJob(stage: Stage, n: string, job: Node) returns (out: Node, changed: bool)
    requires job.Job?
    ensures out == Rewritten(stage, n, job)
    ensures changed == if stage.WireProbes?
                       then Has(StepsOf(job), NamedEither(WireJ1, WireJ2)) || Has(WithoutProbes(StepsOf(job)), Checkout)
                       else StageFields(stage, job) != job || StageSteps(stage, n, StepsOf(job)) != StepsOf(job)
  {
    var fields, edited := SetFields(stage, job);
    var steps, moved := StepsOf(job), false;
    if stage.WireProbes? {
      steps, moved := InsertWireProbes(steps, ProbeDir(n));
    } else {
      steps, moved := RewriteSteps(stage, n, steps);
    }
    out := fields.(steps := if job.steps.None? && steps == [] && !WritesSteps(stage) then None else Some(steps));
    changed := edited || moved;
  }

  /** One transform on one key of the jobs mapping. */
  method ApplyTo(stage: Stage, n: string, node: Node) returns (out: Node, changed: bool)
    requires Visits(stage, n)
    ensures out == Apply(stage, n, node) && changed == Reports(stage, n, node)
  {
    out, changed := node, false;
    if node.NotJob? {
      if stage.EnsureHostedPreflight? {
        out, changed := RewriteJob(stage, n, NEW_PREFLIGHT);
        changed := true;
      } else if stage.InteractivityProbe? {
        out, changed := NEW_PROBE, true;
      }
    } else if !Skips(stage, node) {
      out, changed := RewriteJob(stage, n, node);
    }
  }

  function StageKeys(stage: Stage, jobs: map<string, Node>): set<string> {
    jobs.Keys + (if Creates(stage) then {Target(stage).value} else {})
  }

  /** The keys of `done` have the wanted value, and the others are as they were. */
  ghost predicate Swept(before: map<string, Node>, want: map<string, Node>, now: map<string, Node>, done: set<string>) {
    && before.Keys <= want.Keys && done <= want.Keys
    && now.Keys == before.Keys + done
    && forall n | n in now :: now[n] == if n in done then want[n] else before[n]
  }

  lemma LessTodo(keys: set<string>, todo: set<string>, n: string)
    requires n in todo && todo <= keys
    ensures keys - (todo - {n}) == (keys - todo) + {n}
  {
  }

  lemma LessFlagged(flagged: set<string>, todo: set<string>, n: string)
    requires n in todo
    ensures flagged - (todo - {n}) == flagged - todo + (if n in flagged then {n} else {})
  {
  }

  lemma SweepOne(before: map<string, Node>, want: map<string, Node>, now: map<string, Node>, done: set<string>, n: string)
    requires Swept(before, want, now, done) && n in want && n !in done
    ensures Lookup(now, n) == Lookup(before, n)
    ensures Swept(before, want, now[n := want[n]], done + {n})
    ensures n in before && want[n] == before[n] ==> Swept(before, want, now, done + {n})
  {
  }

  lemma SweepAll(before: map<string, Node>, want: map<string, Node>, now: map<string, Node>)
    requires Swept(before, want, now, want.Keys)
    ensures now == want
  {
  }

  ghost function Flagged(stage: Stage, jobs: map<string, Node>): set<string> {
    set n | n in StageKeys(stage, jobs) && Reports(stage, n, Lookup(jobs, n))
  }

  lemma {:induction false} WantedAt(stage: Stage, jobs: map<string, Node>, n: string)
    requires n in StageKeys(stage, jobs)
    ensures n in StageJobs(stage, jobs) && StageJobs(stage, jobs)[n] == Apply(stage, n, Lookup(jobs, n))
    ensures n in Flagged(stage, jobs) <==> Reports(stage, n, Lookup(jobs, n))
    ensures !Visits(stage, n) ==> n in jobs && StageJobs(stage, jobs)[n] == jobs[n] && n !in Flagged(stage, jobs)
  {
  }

  lemma {:induction false} FlaggedHas(stage: Stage, jobs: map<string, Node>)
    ensures Flagged(stage, jobs) != {} <==>
            exists n | n in jobs.Keys + (if Creates(stage) then {Target(stage).value} else {}) :: Reports(stage, n, Lookup(jobs, n))
  {
    assert forall n :: n in Flagged(stage, jobs) <==> n in StageKeys(stage, jobs) && Reports(stage, n, Lookup(jobs, n));
    if Flagged(stage, jobs) != {} {
      var n :| n in Flagged(stage, jobs);
      assert Reports(stage, n, Lookup(jobs, n));
    }
  }

  lemma {:induction false} FlaggedReports(stage: Stage, doc: Doc)
    ensures StageJobs(stage, doc.jobs).Keys == StageKeys(stage, doc.jobs)
    ensures DocReports(stage, doc) == (StageDispatch(stage, doc.dispatch) != doc.dispatch || Flagged(stage, doc.jobs) != {})
  {
    FlaggedHas(stage, doc.jobs);
  }

  class Workflow {
    const name: string
    const rest: string
    var dispatch: Dispatch
    var jobs: map<string, Node>

    constructor (doc: Doc)
      ensures View() == doc
    {
      name, rest, dispatch, jobs := doc.name, doc.rest, doc.dispatch, doc.jobs;
    }

    function View(): (doc: Doc)
      reads this
    {
      Doc(name, dispatch, jobs, rest)
    }

    method EnsureForceRunInput(stage: Stage) returns (changed: bool)
      modifies this`dispatch
      ensures dispatch == StageDispatch(stage, old(dispatch)) && changed == (dispatch != old(dispatch))
    {
      changed := false;
      if stage.ForceRunInput? && dispatch.Dispatch? {
        var inputs := dispatch.inputs.GetOr(map[]);
        if ForceRun !in inputs {
          assert ForceRun in inputs[ForceRun := ForceRunChoice];
          dispatch := Dispatch(Some(inputs[ForceRun := ForceRunChoice]));
          changed := true;
        }
      }
    }

    method RewriteKey(stage: Stage, n: string) returns (changed: bool)
      modifies this`jobs
      ensures jobs == if Visits(stage, n) then old(jobs)[n := Apply(stage, n, Lookup(old(jobs), n))] else old(jobs)
      ensures changed == Reports(stage, n, Lookup(old(jobs), n))
    {
      changed := false;
      if Visits(stage, n) {
        var node;
        node, changed := ApplyTo(stage, n, Lookup(jobs, n));
        jobs := jobs[n := node];
      }
    }

    /** The loop state: `todo` is left to do, and the flag tells whether a finished key reported. */
    ghost predicate Sweeping(stage: Stage, before: map<string, Node>, todo: set<string>, changed: bool)
      reads this`jobs
    {
      && todo <= StageKeys(stage, before)
      && Swept(before, StageJobs(stage, before), jobs, StageKeys(stage, before) - todo)
      && (changed <==> Flagged(stage, before) - todo != {})
    }

    method SweepKey(stage: Stage, n: string, todo: set<string>, before: map<string, Node>, so: bool) returns (changed: bool)
      requires Sweeping(stage, before, todo, so) && n in todo
      modifies this`jobs
      ensures Sweeping(stage, before, todo - {n}, changed)
    {
      ghost var done := StageKeys(stage, before) - todo;
      WantedAt(stage, before, n);
      SweepOne(before, StageJobs(stage, before), jobs, done, n);
      var moved := RewriteKey(stage, n);
      changed := so || moved;
      LessTodo(StageKeys(stage, before), todo, n);
      LessFlagged(Flagged(stage, before), todo, n);
    }

    lemma SweepBegins(stage: Stage)
      ensures Sweeping(stage, jobs, StageKeys(stage, jobs), false)
    {
      assert StageKeys(stage, jobs) - StageKeys(stage, jobs) == {};
    }

    lemma SweepEnds(stage: Stage, before: map<string, Node>, changed: bool)
      requires Sweeping(stage, before, {}, changed)
      ensures jobs == StageJobs(stage, before) && (changed <==> Flagged(stage, before) != {})
    {
      assert StageKeys(stage, before) - {} == StageKeys(stage, before);
      SweepAll(before, StageJobs(stage, before), jobs);
      assert Flagged(stage, before) - {} == Flagged(stage, before);
    }

    /** Rewrites the jobs a transform visits, whatever the order of the keys. */
    method SweepJobs(stage: Stage) returns (changed: bool)
      modifies this`jobs
      ensures jobs == StageJobs(stage, old(jobs)) && (changed <==> Flagged(stage, old(jobs)) != {})
    {
      var before, todo := jobs, StageKeys(stage, jobs);
      changed := false;
      SweepBegins(stage);
      while todo != {}
        invariant Sweeping(stage, before, todo, changed)
        decreases |todo|
      {
        var n :| n in todo;
        changed := SweepKey(stage, n, todo, before, changed);
        todo := todo - {n};
      }
      SweepEnds(stage, before, changed);
    }

    method RunStage(stage: Stage) returns (changed: bool)
      modifies this
      ensures View() == StageDoc(stage, old(View()))
      ensures changed == DocReports(stage, old(View()))
    {
      FlaggedReports(stage, View());
      var input := EnsureForceRunInput(stage);
      var moved := SweepJobs(stage);
      changed := input || moved;
    }

    /** Runs a file's transforms in their fixed order; every one of them runs, whatever the others reported. */
    method RunStages(stages: seq<Stage>) returns (changed: bool)
      modifies this
      ensures View() == RunDoc(stages, old(View()))
      ensures changed == RunReports(stages, old(View()))
    {
      changed := false;
      for i := 0 to |stages|
        invariant RunDoc(stages[i..], View()) == RunDoc(stages, old(View()))
        invariant (changed || RunReports(stages[i..], View())) == RunReports(stages, old(View()))
      {
        assert stages[i..][1..] == stages[i + 1..];
        var moved := RunStage(stages[i]);
        changed := changed || moved;
      }
    }
  }
}
