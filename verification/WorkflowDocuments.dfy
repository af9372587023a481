/**
 Whole documents: a second run over a managed file changes nothing exactly when every job
 of a rewired file settles; files that are not rewired are always fixed after one run.
 */
module WorkflowDocuments {
  import opened Options
  import opened Texts
  import opened WorkflowVocabulary
  import opened StepLists
  import opened WorkflowStages
  import opened StepFacts
  import opened StageReadiness
  import opened RewiredJobs
  import opened RewiredSettling
  import opened RewiredIdempotence
  import opened WorkflowRuns

  // ---------------------------------------------------------------- job fields

  function Fields(job: Node): Node
    requires job.Job?
  {
    job.(steps := None)
  }

  function VisitFields(stage: Stage, n: string, job: Node): (r: Node)
    requires job.Job?
    ensures r.Job?
  {
    FieldsAreJob(stage, job);
    if Visits(stage, n) then StageFields(stage, job) else job
  }

  function RunFields(stages: seq<Stage>, n: string, job: Node): (r: Node)
    requires job.Job?
    ensures r.Job?
  {
    if stages == [] then job else RunFields(stages[1..], n, VisitFields(stages[0], n, job))
  }

  lemma {:induction false} RunFieldsOf(stages: seq<Stage>, n: string, node: Node)
    requires node.Job?
    ensures RunJob(stages, n, node).Job?
    ensures Fields(RunJob(stages, n, node)) == RunFields(stages, n, Fields(node))
    decreases stages
  {
    if stages != [] {
      FieldsAreJob(stages[0], node);
      RunFieldsOf(stages[1..], n, Apply(stages[0], n, node));
    }
  }

  /** The job conditions and needs the pipelines set; any two stages agree on what they write. */
  predicate Managed(stage: Stage) {
    && (stage.JobCondition? ==> stage.cond == if stage.job == "windows-single" then SingleWithProbe else MatrixOrFallback)
    && (stage.JobCondition? || stage.JobNeeds? ==> stage.job == "windows-single" || stage.job == "pester-category")
    && (stage.JobNeeds? ==> stage.need == "probe")
  }

  lemma ManagedPipeline(f: File, pester: bool)
    ensures forall st | st in Pipeline(f, pester) :: Managed(st)
  {
    ManagedStages(f);
    var head := (if pester then PESTER_STAGES else []) + (if f.FixtureDrift? then DRIFT_STAGES else []) + [NormalizeHostedSteps];
    assert forall st | st in head :: Managed(st);
    assert Pipeline(f, pester) == head + FileStages(f);
  }

  lemma ManagedConcat(a: seq<Stage>, b: seq<Stage>)
    requires (forall st | st in a :: Managed(st)) && forall st | st in b :: Managed(st)
    ensures forall st | st in a + b :: Managed(st)
  {
  }

  lemma {:induction false} ManagedOrchestrated()
    ensures forall st | st in FileStages(CiOrchestrated) :: Managed(st)
  {
    var gated := EARLY_STAGES + GATING_STAGES;
    assert forall st | st in EARLY_STAGES :: Managed(st);
    ManagedConcat(EARLY_STAGES, GATING_STAGES);
    ManagedConcat(gated, [LintResiliency, DriftGate]);
    ManagedConcat(gated + [LintResiliency, DriftGate], [WireProbes]);
    ManagedConcat(gated + [LintResiliency, DriftGate] + [WireProbes], LATE_STAGES);
  }

  lemma ManagedStages(f: File)
    ensures forall st | st in FileStages(f) :: Managed(st)
  {
    if f.CiOrchestrated? { ManagedOrchestrated(); }
  }

  predicate FieldFixed(stage: Stage, n: string, job: Node)
    requires job.Job?
  {
    VisitFields(stage, n, job) == job
  }

  lemma {:induction false} FieldsOnce(a: Stage, n: string, job: Node)
    requires job.Job? && Managed(a)
    ensures FieldFixed(a, n, VisitFields(a, n, job))
  {
    if a.PreInitOutputs? {
      KeyTwice(job.outputs.GetOr(map[]), DocsOnly, OutDocsOnly);
    } else if a.LintResiliency? {
      KeyTwice(job.env.GetOr(map[]), ActionlintVersion, ActionlintVersionValue);
    }
  }

  lemma KeyTwice(m: Keys, k: Key, v: Value)
    ensures m[k := v][k := v] == m[k := v]
  {
  }

  lemma {:induction false} FieldsKeep(a: Stage, b: Stage, n: string, job: Node)
    requires job.Job? && Managed(a) && Managed(b) && FieldFixed(a, n, job)
    ensures FieldFixed(a, n, VisitFields(b, n, job))
  {
  }

  lemma {:induction false} RunFieldsKeep(stages: seq<Stage>, a: Stage, n: string, job: Node)
    requires job.Job? && Managed(a) && FieldFixed(a, n, job) && forall st | st in stages :: Managed(st)
    ensures FieldFixed(a, n, RunFields(stages, n, job))
    decreases stages
  {
    if stages != [] {
      assert stages[0] in stages && forall st | st in stages[1..] :: st in stages;
      FieldsKeep(a, stages[0], n, job);
      RunFieldsKeep(stages[1..], a, n, VisitFields(stages[0], n, job));
    }
  }

  lemma {:induction false} RunFieldsFixed(stages: seq<Stage>, n: string, job: Node)
    requires job.Job? && forall st | st in stages :: Managed(st)
    ensures forall st | st in stages :: FieldFixed(st, n, RunFields(stages, n, job))
    decreases stages
  {
    if stages != [] {
      assert stages[0] in stages && forall st | st in stages[1..] :: st in stages;
      var job' := VisitFields(stages[0], n, job);
      FieldsOnce(stages[0], n, job);
      RunFieldsKeep(stages[1..], stages[0], n, job');
      RunFieldsFixed(stages[1..], n, job');
      assert forall st | st in stages :: st == stages[0] || st in stages[1..];
    }
  }

  lemma {:induction false} RunFieldsIdle(stages: seq<Stage>, n: string, job: Node)
    requires job.Job? && forall st | st in stages :: FieldFixed(st, n, job)
    ensures RunFields(stages, n, job) == job
    decreases stages
  {
    if stages != [] {
      assert stages[0] in stages && forall st | st in stages[1..] :: st in stages;
      RunFieldsIdle(stages[1..], n, job);
    }
  }

  lemma RunFieldsTwice(stages: seq<Stage>, n: string, job: Node)
    requires job.Job? && forall st | st in stages :: Managed(st)
    ensures RunFields(stages, n, RunFields(stages, n, job)) == RunFields(stages, n, job)
  {
    RunFieldsFixed(stages, n, job);
    RunFieldsIdle(stages, n, RunFields(stages, n, job));
  }

  // ---------------------------------------------------------------- jobs of rewired files

  lemma {:induction false} RunWrites(stages: seq<Stage>, n: string, node: Node)
    requires node.Job? && (node.steps.Some? || WireProbes in stages)
    ensures RunJob(stages, n, node).Job? && RunJob(stages, n, node).steps.Some?
    decreases stages
  {
    if stages != [] {
      FieldsAreJob(stages[0], node);
      RunWrites(stages[1..], n, Apply(stages[0], n, node));
    }
  }

  lemma RewiredNeverSkips(f: File, pester: bool)
    requires Rewires(f)
    ensures NeverSkips(Pipeline(f, pester)) && WireProbes in Pipeline(f, pester)
  {
    StagesNeverSkip(f);
    var head := (if pester then PESTER_STAGES else []) + [NormalizeHostedSteps];
    assert Pipeline(f, pester) == head + FileStages(f);
    assert NeverSkips(head);
  }

  lemma {:induction false} StagesNeverSkip(f: File)
    requires Rewires(f)
    ensures NeverSkips(FileStages(f)) && WireProbes in FileStages(f)
  {
    assert NeverSkips(EARLY_STAGES);
  }

  /** A job of a rewired file is fixed after one run exactly when its step list settles. */
  lemma {:induction false} RewiredJobIff(f: File, pester: bool, n: string, node: Node)
    requires Rewires(f) && node.Job?
    ensures var P := Pipeline(f, pester);
      RunJob(P, n, RunJob(P, n, node)) == RunJob(P, n, node) <==> Settles(f, pester, n, StepsOf(node))
  {
    var P := Pipeline(f, pester);
    var q := RunJob(P, n, node);
    ManagedPipeline(f, pester);
    RewiredNeverSkips(f, pester);
    RunStepsOf(P, n, node);
    RunStepsOf(P, n, q);
    PipelineSteps(f, pester, n, StepsOf(node));
    PipelineSteps(f, pester, n, StepsOf(q));
    RunFieldsOf(P, n, node);
    RunFieldsOf(P, n, q);
    RunFieldsTwice(P, n, Fields(node));
    RunWrites(P, n, node);
    RunWrites(P, n, q);
    RewiredIff(f, pester, n, StepsOf(node));
    var r := RunJob(P, n, q);
    assert r == Fields(r).(steps := Some(StepsOf(r))) && q == Fields(q).(steps := Some(StepsOf(q)));
  }

  // ---------------------------------------------------------------- jobs that a stage creates

  predicate Created(f: File, n: string) {
    f.CiOrchestrated? && (n == "preflight" || n == "probe")
  }

  /** What a job starts from: itself, or the skeleton the orchestrated file is given. */
  function StartOf(f: File, n: string, node: Node): Node {
    if node.Job? || !Created(f, n) then node
    else if n == "preflight" then NEW_PREFLIGHT
    else NEW_PROBE
  }

  lemma {:induction false} RunIdle(stages: seq<Stage>, n: string, node: Node)
    requires forall st | st in stages :: Apply(st, n, node) == node
    ensures RunJob(stages, n, node) == node
    decreases stages
  {
    if stages != [] {
      assert stages[0] in stages && forall st | st in stages[1..] :: st in stages;
      RunIdle(stages[1..], n, node);
    }
  }

  lemma {:induction false} OpeningIdle(pester: bool, n: string, node: Node)
    requires node.NotJob? || (n == "preflight" && node == NEW_PREFLIGHT) || (n == "probe" && node == NEW_PROBE)
    ensures RunJob((if pester then PESTER_STAGES else []) + [] + [NormalizeHostedSteps], n, node) == node
  {
    var stages := (if pester then PESTER_STAGES else []) + [] + [NormalizeHostedSteps];
    if node.Job? { NormalFixed(StepsOf(node)); }
    forall st | st in stages ensures Apply(st, n, node) == node {
      assert st == ForceRunInput || st == PreInitOutputs || st == NormalizeHostedSteps;
    }
    RunIdle(stages, n, node);
  }

  lemma {:induction false} SummaryBeforeProbe()
    ensures Apply(RerunAfterSummary, "probe", NEW_PROBE) == NEW_PROBE
  {
    NoSummary(NEW_PROBE.steps.value, BARE_CHECKOUT, PROBE_STEP);
  }

  lemma {:induction false} NoSummary(s: seq<Step>, a: Step, b: Step)
    requires s == [a, b] && a.Step? && b.Step? && a.name.None? && b.name == Some(RunInteractivityProbe)
    ensures RerunAfterSummarySteps(s) == s
  {
    FindIs(s, CategorySummary, 2);
  }

  lemma {:induction false} BeforeProbe(k: nat, node: Node)
    requires k < 9 && (node.NotJob? || node == NEW_PROBE)
    ensures Apply(EARLY_STAGES[k], "probe", node) == node
  {
    if k == 6 {
      if node.Job? { SummaryBeforeProbe(); }
    } else {
      assert !Visits(EARLY_STAGES[k], "probe");
    }
  }

  lemma {:induction false} ProbeBehind(s: seq<Step>, a: Step, b: Step)
    requires s == [a, b] && Is(a, Checkout) && !Is(a, WithId("out")) && Is(b, WithId("out")) && Edited(ProbeEdit, b) == b
    ensures InteractivityReady(s)
  {
    FindIs(s, Checkout, 0);
    FindIs(s, WithId("out"), 1);
  }

  lemma {:induction false} ProbeInPlace()
    ensures Apply(InteractivityProbe, "probe", NEW_PROBE) == NEW_PROBE
  {
    ProbeBehind(NEW_PROBE.steps.value, BARE_CHECKOUT, PROBE_STEP);
    InteractivityFixed(NEW_PROBE.steps.value);
  }

  lemma {:induction false} CreatedEarly(n: string, node: Node)
    requires node.NotJob? && Created(CiOrchestrated, n)
    ensures RunJob(EARLY_STAGES, n, node) == RunJob(EARLY_STAGES, n, StartOf(CiOrchestrated, n, node))
  {
    if n == "preflight" {
      assert EARLY_STAGES[0] == EnsureHostedPreflight;
      assert Apply(EARLY_STAGES[0], n, node) == Apply(EARLY_STAGES[0], n, NEW_PREFLIGHT);
    } else {
      var front, probe := EARLY_STAGES[..9], EARLY_STAGES[9..];
      assert EARLY_STAGES == front + probe;
      RunConcat(front, probe, n, node);
      RunConcat(front, probe, n, NEW_PROBE);
      forall st | st in front ensures Apply(st, n, node) == node && Apply(st, n, NEW_PROBE) == NEW_PROBE {
        var k :| 0 <= k < 9 && front[k] == st;
        BeforeProbe(k, node);
        BeforeProbe(k, NEW_PROBE);
      }
      RunIdle(front, n, node);
      RunIdle(front, n, NEW_PROBE);
      ProbeInPlace();
      assert probe == [InteractivityProbe];
    }
  }

  lemma {:induction false} CreatedRun(pester: bool, n: string, node: Node)
    requires node.NotJob? && Created(CiOrchestrated, n)
    ensures RunJob(Pipeline(CiOrchestrated, pester), n, node) ==
            RunJob(Pipeline(CiOrchestrated, pester), n, StartOf(CiOrchestrated, n, node))
  {
    var opening := (if pester then PESTER_STAGES else []) + [] + [NormalizeHostedSteps];
    var rest := GATING_STAGES + [LintResiliency, DriftGate] + [WireProbes] + LATE_STAGES;
    var start := StartOf(CiOrchestrated, n, node);
    assert Pipeline(CiOrchestrated, pester) == opening + (EARLY_STAGES + rest);
    RunConcat(opening, EARLY_STAGES + rest, n, node);
    RunConcat(opening, EARLY_STAGES + rest, n, start);
    OpeningIdle(pester, n, node);
    OpeningIdle(pester, n, start);
    RunConcat(EARLY_STAGES, rest, n, node);
    RunConcat(EARLY_STAGES, rest, n, start);
    CreatedEarly(n, node);
  }

  lemma {:induction false} ApplyNotJob(st: Stage, n: string, node: Node)
    requires node.NotJob? && !(Creates(st) && Visits(st, n))
    ensures Apply(st, n, node) == node
  {
  }

  lemma {:induction false} RunNotJob(stages: seq<Stage>, n: string, node: Node)
    requires node.NotJob? && forall st | st in stages :: !(Creates(st) && Visits(st, n))
    ensures RunJob(stages, n, node) == node
    decreases stages
  {
    if stages != [] {
      assert stages[0] in stages && forall st | st in stages[1..] :: st in stages;
      ApplyNotJob(stages[0], n, node);
      RunNotJob(stages[1..], n, node);
    }
  }

  /** A stage creates the preflight and probe jobs only. */
  lemma CreatorTarget(st: Stage, n: string)
    requires Creates(st) && Visits(st, n)
    ensures n == "preflight" || n == "probe"
  {
  }

  lemma {:induction false} IdleStages(f: File, stages: seq<Stage>, n: string, node: Node)
    requires node.NotJob? && !Created(f, n) && forall st | st in stages && Creates(st) :: f.CiOrchestrated?
    ensures RunJob(stages, n, node) == node
  {
    forall st | st in stages ensures !(Creates(st) && Visits(st, n)) {
      if Creates(st) && Visits(st, n) { CreatorTarget(st, n); }
    }
    RunNotJob(stages, n, node);
  }

  lemma {:induction false} NotJobIdle(f: File, pester: bool, n: string, node: Node)
    requires node.NotJob? && !Created(f, n)
    ensures RunJob(Pipeline(f, pester), n, node) == node
  {
    var stages := Pipeline(f, pester);
    forall st | st in stages && Creates(st) ensures f.CiOrchestrated? { CreatorsOrchestrate(f, pester, st); }
    IdleStages(f, stages, n, node);
  }

  lemma {:induction false} CreatorsOrchestrate(f: File, pester: bool, st: Stage)
    requires st in Pipeline(f, pester) && Creates(st)
    ensures f.CiOrchestrated?
  {
    assert st in FileStages(f);
  }
}
