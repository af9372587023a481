/**
 Running the stages of a file over one job: the step list and the other fields evolve
 independently, and a rewired file amounts to `RewiredSteps` on the list.
 */
module WorkflowRuns {
  import opened Options
  import opened Texts
  import opened WorkflowVocabulary
  import opened StepLists
  import opened WorkflowStages
  import opened StepFacts
  import opened StageReadiness
  import opened RewiredJobs
  import opened RewiredSettling
  import opened RewiredIdempotence

  lemma {:induction false} RunConcat(a: seq<Stage>, b: seq<Stage>, n: string, node: Node)
    ensures RunJob(a + b, n, node) == RunJob(b, n, RunJob(a, n, node))
    decreases a
  {
    if a == [] {
      assert a + b == b;
    } else {
      assert (a + b)[1..] == a[1..] + b;
      RunConcat(a[1..], b, n, Apply(a[0], n, node));
    }
  }

  // ---------------------------------------------------------------- steps alone

  predicate NeverSkips(stages: seq<Stage>) {
    forall st | st in stages :: (st.PostSession? || st.EnsureUnblockGuard?) ==> !st.skipReusable
  }

  function VisitSteps(stage: Stage, n: string, s: seq<Step>): seq<Step> {
    if Visits(stage, n) then StageSteps(stage, n, s) else s
  }

  function RunSteps(stages: seq<Stage>, n: string, s: seq<Step>): seq<Step> {
    if stages == [] then s else RunSteps(stages[1..], n, VisitSteps(stages[0], n, s))
  }

  lemma {:induction false} RunStepsOf(stages: seq<Stage>, n: string, node: Node)
    requires node.Job? && NeverSkips(stages)
    ensures RunJob(stages, n, node).Job?
    ensures StepsOf(RunJob(stages, n, node)) == RunSteps(stages, n, StepsOf(node))
    ensures node.steps.Some? ==> RunJob(stages, n, node).steps.Some?
  {
    if stages != [] {
      assert stages[0] in stages && !Skips(stages[0], node);
      FieldsAreJob(stages[0], node);
      assert forall st | st in stages[1..] :: st in stages;
      RunStepsOf(stages[1..], n, Apply(stages[0], n, node));
    }
  }

  lemma {:induction false} FieldsAreJob(stage: Stage, job: Node)
    requires job.Job?
    ensures StageFields(stage, job).Job? && StageFields(stage, job).uses == job.uses
    ensures StageFields(stage, job).steps == job.steps
    ensures forall steps :: StageFields(stage, job.(steps := steps)) == StageFields(stage, job).(steps := steps)
  {
  }

  lemma {:induction false} RunStepsConcat(a: seq<Stage>, b: seq<Stage>, n: string, s: seq<Step>)
    ensures RunSteps(a + b, n, s) == RunSteps(b, n, RunSteps(a, n, s))
    decreases a
  {
    if a == [] {
      assert a + b == b;
    } else {
      assert (a + b)[1..] == a[1..] + b;
      RunStepsConcat(a[1..], b, n, VisitSteps(a[0], n, s));
    }
  }

  lemma {:induction false} RunStepsAt(stages: seq<Stage>, k: nat, n: string, s: seq<Step>)
    requires k < |stages|
    ensures RunSteps(stages[k..], n, s) == RunSteps(stages[k + 1..], n, VisitSteps(stages[k], n, s))
  {
    assert stages[k..][1..] == stages[k + 1..];
  }

  // ---------------------------------------------------------------- unrolling the orchestrated file

  /** Stage `k` of the orchestrated file's early stages, on the step list of job `n`. */
  function EarlyVisit(k: nat, n: string, s: seq<Step>): seq<Step>
    requires k < 10
  {
    if k == 0 then (if n == "preflight" then HostedPreflightSteps(s) else s)
    else if k <= 2 then
      (if n == (if k == 1 then "pester" else "pester-category")
       then AppendUnless(s, PostsSessionIndex, SessionPostStep(SessionPost, MatrixResults, MatrixArtifact)) else s)
    else if k <= 5 then
      (if n == (if k == 3 then "drift" else if k == 4 then "pester" else "pester-category")
       then AppendUnless(s, GuardsRunner, UnblockGuardStep(Snapshot(n))) else s)
    else if k == 6 then RerunAfterSummarySteps(s)
    else if k == 7 then (if n == "windows-single" then RerunInJobSteps(s, true) else s)
    else if k == 8 then (if n == "publish" then RerunInJobSteps(s, false) else s)
    else (if n == "probe" then InteractivitySteps(s) else s)
  }

  lemma {:induction false} EarlyVisits(k: nat, n: string, s: seq<Step>)
    requires k < 10
    ensures VisitSteps(EARLY_STAGES[k], n, s) == EarlyVisit(k, n, s)
  {
    if k <= 2 { EarlyPosts(k, n, s); } else if k <= 5 { EarlyGuards(k, n, s); } else { EarlyHints(k, n, s); }
  }

  lemma {:induction false} EarlyPosts(k: nat, n: string, s: seq<Step>)
    requires k <= 2
    ensures VisitSteps(EARLY_STAGES[k], n, s) == EarlyVisit(k, n, s)
  {
  }

  lemma {:induction false} EarlyGuards(k: nat, n: string, s: seq<Step>)
    requires 3 <= k <= 5
    ensures VisitSteps(EARLY_STAGES[k], n, s) == EarlyVisit(k, n, s)
  {
  }

  lemma {:induction false} EarlyHints(k: nat, n: string, s: seq<Step>)
    requires 6 <= k < 10
    ensures VisitSteps(EARLY_STAGES[k], n, s) == EarlyVisit(k, n, s)
  {
    if k == 6 { assert EARLY_STAGES[k] == RerunAfterSummary; }
    else if k == 7 { EarlyHint(7, "windows-single", true, n, s); }
    else if k == 8 { EarlyHint(8, "publish", false, n, s); }
    else { EarlyProbe(n, s); }
  }

  lemma {:induction false} EarlyHint(k: nat, job: string, single: bool, n: string, s: seq<Step>)
    requires k < 10 && EARLY_STAGES[k] == RerunInJob(job, single)
    ensures VisitSteps(EARLY_STAGES[k], n, s) == if n == job then RerunInJobSteps(s, single) else s
  {
  }

  lemma {:induction false} EarlyProbe(n: string, s: seq<Step>)
    ensures VisitSteps(EARLY_STAGES[9], n, s) == if n == "probe" then InteractivitySteps(s) else s
  {
    assert EARLY_STAGES[9] == InteractivityProbe;
  }

  lemma {:induction false} EarlyChain(k: nat, n: string, s: seq<Step>)
    requires k < 10
    ensures RunSteps(EARLY_STAGES[k..], n, s) == RunSteps(EARLY_STAGES[k + 1..], n, EarlyVisit(k, n, s))
  {
    RunStepsAt(EARLY_STAGES, k, n, s);
    EarlyVisits(k, n, s);
  }

  function RunEarly(k: nat, n: string, s: seq<Step>): seq<Step>
    requires k <= 10
    decreases 10 - k
  {
    if k == 10 then s else RunEarly(k + 1, n, EarlyVisit(k, n, s))
  }

  lemma {:induction false} EarlyRuns(k: nat, n: string, s: seq<Step>)
    requires k <= 10
    ensures RunSteps(EARLY_STAGES[k..], n, s) == RunEarly(k, n, s)
    decreases 10 - k
  {
    if k < 10 {
      EarlyChain(k, n, s);
      EarlyRuns(k + 1, n, EarlyVisit(k, n, s));
    }
  }

  lemma {:induction false} RunEarlyRoles(n: string, s: seq<Step>)
    ensures RunEarly(0, n, s) == RunEarly(6, n, RoleSteps(n, s))
  {
    var s1 := EarlyVisit(0, n, s);
    var s2 := EarlyVisit(1, n, s1);
    var s3 := EarlyVisit(2, n, s2);
    var s4 := EarlyVisit(3, n, s3);
    var s5 := EarlyVisit(4, n, s4);
    assert RunEarly(0, n, s) == RunEarly(3, n, s3);
    assert RunEarly(3, n, s3) == RunEarly(6, n, EarlyVisit(5, n, s5));
  }

  lemma {:induction false} RunEarlyHints(n: string, s: seq<Step>)
    ensures RunEarly(6, n, RoleSteps(n, s)) == OrchestratedSteps(n, s)
  {
    var s7 := EarlyVisit(6, n, RoleSteps(n, s));
    var s9 := EarlyVisit(8, n, EarlyVisit(7, n, s7));
    assert RunEarly(6, n, RoleSteps(n, s)) == RunEarly(8, n, EarlyVisit(7, n, s7));
    assert RunEarly(8, n, EarlyVisit(7, n, s7)) == RunEarly(10, n, EarlyVisit(9, n, s9));
  }

  lemma {:induction false} UnrollEarly(n: string, s: seq<Step>)
    ensures RunSteps(EARLY_STAGES, n, s) == OrchestratedSteps(n, s)
  {
    assert EARLY_STAGES[0..] == EARLY_STAGES;
    EarlyRuns(0, n, s);
    RunEarlyRoles(n, s);
    RunEarlyHints(n, s);
  }

  /** Stages that only touch job fields leave the step list alone. */
  lemma {:induction false} FieldStages(stages: seq<Stage>, n: string, s: seq<Step>)
    requires forall st | st in stages :: st.JobCondition? || st.JobNeeds?
    ensures RunSteps(stages, n, s) == s
  {
    if stages != [] {
      assert stages[0] in stages;
      assert forall st | st in stages[1..] :: st in stages;
      FieldStages(stages[1..], n, s);
    }
  }

  // ---------------------------------------------------------------- placement stages

  predicate Places(stage: Stage) {
    stage.SessionIndex? || stage.TestProbe? || stage.DriftProbes? || stage.InvokerProbes? || stage.GuardProbes? || stage.FinalProbe?
  }

  function StagePlacements(stage: Stage, n: string): seq<Placement> {
    if Visits(stage, n) && Places(stage) then Threaded(stage, n) else []
  }

  function PlacementsOf(stages: seq<Stage>, n: string): seq<Placement> {
    if stages == [] then [] else StagePlacements(stages[0], n) + PlacementsOf(stages[1..], n)
  }

  lemma {:induction false} PlacesOne(stage: Stage, n: string, s: seq<Step>)
    requires Places(stage)
    ensures VisitSteps(stage, n, s) == PlaceAll(s, StagePlacements(stage, n))
  {
  }

  lemma {:induction false} PlacesAll(stages: seq<Stage>, n: string, s: seq<Step>)
    requires forall st | st in stages :: Places(st)
    ensures RunSteps(stages, n, s) == PlaceAll(s, PlacementsOf(stages, n))
    decreases stages
  {
    if stages != [] {
      assert stages[0] in stages;
      assert forall st | st in stages[1..] :: st in stages;
      PlacesOne(stages[0], n, s);
      PlaceAllConcat(s, StagePlacements(stages[0], n), PlacementsOf(stages[1..], n));
      PlacesAll(stages[1..], n, VisitSteps(stages[0], n, s));
    }
  }

  lemma PlacementsFrom(k: nat, n: string)
    requires k < 6
    ensures PlacementsOf(LATE_STAGES[k..], n) == StagePlacements(LATE_STAGES[k], n) + PlacementsOf(LATE_STAGES[k + 1..], n)
  {
    assert LATE_STAGES[k..][1..] == LATE_STAGES[k + 1..];
  }

  lemma {:induction false} LastPlacements(n: string)
    ensures PlacementsOf(LATE_STAGES[4..], n) == GuardPlacements() + FinalPlacements()
  {
    PlacementsFrom(4, n);
    PlacementsFrom(5, n);
    assert PlacementsOf(LATE_STAGES[6..], n) == [];
  }

  lemma {:induction false} TailPlacements(n: string)
    ensures PlacementsOf(LATE_STAGES[2..], n) == AfterTests(n)
  {
    PlacementsFrom(2, n);
    PlacementsFrom(3, n);
    LastPlacements(n);
  }

  lemma {:induction false} LatePlacementsOf(n: string)
    ensures PlacementsOf(LATE_STAGES, n) == LatePlacements(CiOrchestrated, n)
  {
    assert LATE_STAGES[0..] == LATE_STAGES;
    PlacementsFrom(0, n);
    PlacementsFrom(1, n);
    TailPlacements(n);
  }

  // ---------------------------------------------------------------- the two rewired files

  lemma {:induction false} UnrollLint(n: string, s: seq<Step>)
    ensures RunSteps([LintResiliency], n, s) == LintJobSteps(Validate, n, s)
  {
    RunStepsAt([LintResiliency], 0, n, s);
  }

  lemma {:induction false} UnrollLintGate(n: string, s: seq<Step>)
    ensures RunSteps([DriftGate], n, LintJobSteps(Validate, n, s)) == LintJobSteps(CiOrchestrated, n, s)
  {
    RunStepsAt([DriftGate], 0, n, LintJobSteps(Validate, n, s));
  }

  lemma {:induction false} UnrollWire(n: string, s: seq<Step>)
    ensures RunSteps([WireProbes], n, s) == WireProbesSteps(s, ProbeDir(n))
  {
    RunStepsAt([WireProbes], 0, n, s);
  }

  lemma {:induction false} UnrollNormalize(n: string, s: seq<Step>)
    ensures RunSteps([NormalizeHostedSteps], n, s) == NormalizeHosted(s)
  {
    RunStepsAt([NormalizeHostedSteps], 0, n, s);
  }

  lemma {:induction false} UnrollPester(n: string, s: seq<Step>)
    ensures RunSteps(PESTER_STAGES, n, s) == if n == "pre-init" then PreInitSteps(s) else s
  {
    RunStepsAt(PESTER_STAGES, 0, n, s);
    RunStepsAt(PESTER_STAGES, 1, n, s);
  }

  lemma {:induction false} UnrollOpening(pester: bool, n: string, s: seq<Step>)
    ensures RunSteps((if pester then PESTER_STAGES else []) + [] + [NormalizeHostedSteps], n, s) == OpeningSteps(pester, n, s)
  {
    var a := if pester then PESTER_STAGES else [];
    assert a + [] == a;
    RunStepsConcat(a, [NormalizeHostedSteps], n, s);
    UnrollPester(n, s);
    UnrollNormalize(n, RunSteps(a, n, s));
  }

  lemma {:induction false} JoinSteps(a: seq<Stage>, b: seq<Stage>, n: string, s: seq<Step>, t: seq<Step>, u: seq<Step>)
    requires RunSteps(a, n, s) == t && RunSteps(b, n, t) == u
    ensures RunSteps(a + b, n, s) == u
  {
    RunStepsConcat(a, b, n, s);
  }

  lemma {:induction false} UnrollOrchestratedHead(n: string, s: seq<Step>)
    ensures RunSteps(EARLY_STAGES + GATING_STAGES, n, s) == OrchestratedSteps(n, s)
  {
    UnrollEarly(n, s);
    FieldStages(GATING_STAGES, n, OrchestratedSteps(n, s));
    JoinSteps(EARLY_STAGES, GATING_STAGES, n, s, OrchestratedSteps(n, s), OrchestratedSteps(n, s));
  }

  lemma {:induction false} UnrollLintPair(n: string, s: seq<Step>)
    ensures RunSteps([LintResiliency, DriftGate], n, s) == LintJobSteps(CiOrchestrated, n, s)
  {
    assert [LintResiliency, DriftGate] == [LintResiliency] + [DriftGate];
    UnrollLint(n, s);
    UnrollLintGate(n, s);
    JoinSteps([LintResiliency], [DriftGate], n, s, LintJobSteps(Validate, n, s), LintJobSteps(CiOrchestrated, n, s));
  }

  lemma {:induction false} UnrollOrchestrated(n: string, s: seq<Step>)
    ensures RunSteps(FileStages(CiOrchestrated), n, s) ==
            PlaceAll(WireProbesSteps(LintJobSteps(CiOrchestrated, n, OrchestratedSteps(n, s)), ProbeDir(n)), LatePlacements(CiOrchestrated, n))
  {
    var a := OrchestratedSteps(n, s);
    var b := LintJobSteps(CiOrchestrated, n, a);
    var c := WireProbesSteps(b, ProbeDir(n));
    var head := EARLY_STAGES + GATING_STAGES;
    UnrollOrchestratedHead(n, s);
    UnrollLintPair(n, a);
    JoinSteps(head, [LintResiliency, DriftGate], n, s, a, b);
    UnrollWire(n, b);
    JoinSteps(head + [LintResiliency, DriftGate], [WireProbes], n, s, b, c);
    PlacesAll(LATE_STAGES, n, c);
    LatePlacementsOf(n);
    JoinSteps(head + [LintResiliency, DriftGate] + [WireProbes], LATE_STAGES, n, s, c, PlaceAll(c, LatePlacements(CiOrchestrated, n)));
  }

  lemma {:induction false} UnrollSession(n: string, s: seq<Step>)
    ensures RunSteps([SessionIndex], n, s) == PlaceAll(s, LatePlacements(Validate, n))
  {
    PlacesAll([SessionIndex], n, s);
    assert PlacementsOf([SessionIndex], n) == SessionIndexPlacements(ProbeDir(n));
  }

  lemma {:induction false} UnrollLintWire(n: string, s: seq<Step>, b: seq<Step>)
    requires b == LintJobSteps(Validate, n, s)
    ensures RunSteps([LintResiliency] + [WireProbes], n, s) == WireProbesSteps(b, ProbeDir(n))
  {
    UnrollLint(n, s);
    UnrollWire(n, b);
    JoinSteps([LintResiliency], [WireProbes], n, s, b, WireProbesSteps(b, ProbeDir(n)));
  }

  lemma {:induction false} UnrollValidate(n: string, s: seq<Step>)
    ensures RunSteps(FileStages(Validate), n, s) ==
            PlaceAll(WireProbesSteps(LintJobSteps(Validate, n, s), ProbeDir(n)), LatePlacements(Validate, n))
  {
    var b := LintJobSteps(Validate, n, s);
    var c := WireProbesSteps(b, ProbeDir(n));
    UnrollLintWire(n, s, b);
    UnrollSession(n, c);
    JoinSteps([LintResiliency] + [WireProbes], [SessionIndex], n, s, c, PlaceAll(c, LatePlacements(Validate, n)));
  }

  /** The stages of a rewired file do to a step list what `RewiredSteps` says. */
  lemma {:induction false} PipelineSteps(f: File, pester: bool, n: string, s: seq<Step>)
    requires Rewires(f)
    ensures RunSteps(Pipeline(f, pester), n, s) == RewiredSteps(f, pester, n, s)
  {
    var opening := (if pester then PESTER_STAGES else []) + [] + [NormalizeHostedSteps];
    assert Pipeline(f, pester) == opening + FileStages(f);
    UnrollOpening(pester, n, s);
    var a := OpeningSteps(pester, n, s);
    if f.CiOrchestrated? { UnrollOrchestrated(n, a); } else { UnrollValidate(n, a); }
    RunStepsConcat(opening, FileStages(f), n, s);
  }
}
