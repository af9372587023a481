/**
 One job of a rewired workflow as a single function of its step list: the early rewrites,
 J1/J2 behind the first checkout, then the remaining wire placements.
 */
module RewiredJobs {
  import opened Options
  import opened Texts
  import opened WorkflowVocabulary
  import opened StepLists
  import opened WorkflowStages
  import opened StepFacts
  import opened StageReadiness

  predicate Rewires(f: File) {
    f.CiOrchestrated? || f.Validate?
  }

  predicate PesterJob(n: string) {
    n == "pester" || n == "pester-category"
  }

  /** Where the runner guard of a job keeps its snapshot. */
  function Snapshot(n: string): Value {
    if n == "drift" then DriftResults else MatrixResults
  }

  function OrchestratedSteps(n: string, s: seq<Step>): seq<Step> {
    var a := if n == "preflight" then HostedPreflightSteps(s) else s;
    var b := if PesterJob(n) then AppendUnless(a, PostsSessionIndex, SessionPostStep(SessionPost, MatrixResults, MatrixArtifact)) else a;
    var c := if PesterJob(n) || n == "drift" then AppendUnless(b, GuardsRunner, UnblockGuardStep(Snapshot(n))) else b;
    var d := RerunAfterSummarySteps(c);
    if n == "windows-single" then RerunInJobSteps(d, true)
    else if n == "publish" then RerunInJobSteps(d, false)
    else if n == "probe" then InteractivitySteps(d)
    else d
  }

  function LintJobSteps(f: File, n: string, s: seq<Step>): seq<Step> {
    if n != "lint" then s
    else if f.CiOrchestrated? then DriftGateSteps(LintSteps(s))
    else LintSteps(s)
  }

  function OpeningSteps(pester: bool, n: string, s: seq<Step>): seq<Step> {
    NormalizeHosted(if pester && n == "pre-init" then PreInitSteps(s) else s)
  }

  /** Everything that happens to a job before J1 and J2 are rewired. */
  function EarlySteps(f: File, pester: bool, n: string, s: seq<Step>): seq<Step> {
    var opened' := OpeningSteps(pester, n, s);
    LintJobSteps(f, n, if f.CiOrchestrated? then OrchestratedSteps(n, opened') else opened')
  }

  function AfterTests(n: string): seq<Placement> {
    (if n == "drift" then DriftProbePlacements() else []) + (InvokerPlacements() + (GuardPlacements() + FinalPlacements()))
  }

  function LatePlacements(f: File, n: string): seq<Placement> {
    if !f.CiOrchestrated? then SessionIndexPlacements(ProbeDir(n))
    else SessionIndexPlacements(ProbeDir(n)) + (TestProbePlacements(TestDir(n)) + AfterTests(n))
  }

  function RewiredSteps(f: File, pester: bool, n: string, s: seq<Step>): seq<Step> {
    PlaceAll(WireProbesSteps(EarlySteps(f, pester, n, s), ProbeDir(n)), LatePlacements(f, n))
  }

  // ---------------------------------------------------------------- when the early rewrites rest

  predicate OrchestratedReady(n: string, s: seq<Step>) {
    && (n == "preflight" ==> PreflightReady(s))
    && (PesterJob(n) ==> Has(s, PostsSessionIndex))
    && (PesterJob(n) || n == "drift" ==> Has(s, GuardsRunner))
    && RerunReady(s)
    && (n == "windows-single" ==> Ready(s, Named(RerunSingle), RerunEdit(true)))
    && (n == "publish" ==> Ready(s, Named(RerunMatrix), RerunEdit(false)))
    && (n == "probe" ==> InteractivityReady(s))
  }

  predicate EarlyReady(f: File, pester: bool, n: string, s: seq<Step>) {
    && Normal(s)
    && (pester && n == "pre-init" ==> PreInitReady(s))
    && (f.CiOrchestrated? ==> OrchestratedReady(n, s))
    && (n == "lint" ==> LintReady(s) && (f.CiOrchestrated? ==> DriftGateReady(s)))
  }

  lemma {:induction false} OrchestratedFixed(n: string, s: seq<Step>)
    requires OrchestratedReady(n, s)
    ensures OrchestratedSteps(n, s) == s
  {
    if n == "preflight" { PreflightFixed(s); }
    RerunFixed(s);
    if n == "windows-single" { EnsureReady(s, Named(RerunSingle), RerunEdit(true), |s|, RerunStep(true)); }
    if n == "publish" { EnsureReady(s, Named(RerunMatrix), RerunEdit(false), |s|, RerunStep(false)); }
    if n == "probe" { InteractivityFixed(s); }
  }

  lemma {:induction false} EarlyFixed(f: File, pester: bool, n: string, s: seq<Step>)
    requires EarlyReady(f, pester, n, s)
    ensures EarlySteps(f, pester, n, s) == s
  {
    if pester && n == "pre-init" { PreInitFixed(s); }
    NormalFixed(s);
    if f.CiOrchestrated? { OrchestratedFixed(n, s); }
    if n == "lint" {
      LintFixed(s);
      if f.CiOrchestrated? { DriftGateFixed(s); }
    }
  }

  // ---------------------------------------------------------------- selectors the early rewrites read

  predicate WireName(n: Name) {
    n.WireJ1? || n.WireJ2? || n.WireT1? || n.WireC1? || n.WireC2? || n.WireC3? || n.WireV1? || n.WireP1? ||
    n.WireSession? || n.WireInvokerStart? || n.WireInvokerStop? || n.WireGuardPre? || n.WireGuardPost?
  }

  predicate EarlySelector(sel: Selector) {
    match sel
    case Named(n) => !WireName(n)
    case WithId(_) => true
    case VerifyRunner => true
    case CategorySummary => true
    case Checkout => true
    case PostsSessionIndex => true
    case GuardsRunner => true
    case PreInitGate => true
    case _ => false
  }

  /** A step as the wire placements write it: no early selector and no anchor picks it. */
  predicate WireStep(st: Step) {
    st.Step? && st.id.None? && st.name.Some? && WireName(st.name.value) &&
    st.uses.Some? && st.uses.value.Local? && !st.uses.value.action.SessionIndexPost? && !st.uses.value.action.RunnerUnblockGuard?
  }

  predicate WireProof(sel: Selector) {
    match sel
    case Named(n) => !WireName(n)
    case NamedEither(a, b) => !WireName(a) && !WireName(b)
    case UsesAction(_) => false
    case _ => true
  }

  lemma {:induction false} WireStepUnseen(st: Step, sel: Selector)
    requires WireStep(st) && (EarlySelector(sel) || WireProof(sel))
    ensures !Is(st, sel)
  {
  }

  predicate GoodPlacement(p: Placement) {
    WireStep(p.step) && !IsJProbe(p.step) && WireProof(p.anchor) && Is(p.step, p.guard)
  }

  predicate GoodPlacements(ps: seq<Placement>) {
    forall p | p in ps :: GoodPlacement(p)
  }

  lemma {:induction false} GoodSessionIndex(dir: Value)
    ensures GoodPlacements(SessionIndexPlacements(dir))
  {
  }

  lemma GoodTestProbe(dir: Value)
    ensures GoodPlacements(TestProbePlacements(dir))
  {
  }

  lemma GoodDriftProbes()
    ensures GoodPlacements(DriftProbePlacements())
  {
  }

  lemma {:induction false} GoodInvoker()
    ensures GoodPlacements(InvokerPlacements())
  {
  }

  lemma GoodGuards()
    ensures GoodPlacements(GuardPlacements())
  {
  }

  lemma GoodFinal()
    ensures GoodPlacements(FinalPlacements())
  {
  }

  lemma GoodConcat(ps: seq<Placement>, qs: seq<Placement>)
    requires GoodPlacements(ps) && GoodPlacements(qs)
    ensures GoodPlacements(ps + qs)
  {
  }

  lemma AfterTestsGood(n: string)
    ensures GoodPlacements(AfterTests(n))
  {
    GoodDriftProbes();
    GoodInvoker();
    GoodGuards();
    GoodFinal();
    GoodConcat(GuardPlacements(), FinalPlacements());
    GoodConcat(InvokerPlacements(), GuardPlacements() + FinalPlacements());
    GoodConcat(if n == "drift" then DriftProbePlacements() else [], InvokerPlacements() + (GuardPlacements() + FinalPlacements()));
  }

  lemma LateGood(f: File, n: string)
    ensures GoodPlacements(LatePlacements(f, n))
  {
    GoodSessionIndex(ProbeDir(n));
    GoodTestProbe(TestDir(n));
    AfterTestsGood(n);
    GoodConcat(TestProbePlacements(TestDir(n)), AfterTests(n));
    GoodConcat(SessionIndexPlacements(ProbeDir(n)), TestProbePlacements(TestDir(n)) + AfterTests(n));
  }

  lemma {:induction false} GoodIsSafe(ps: seq<Placement>, dir: Value)
    requires GoodPlacements(ps)
    ensures Coherent(ps) && Foreign(ps, dir)
    ensures forall sel | EarlySelector(sel) || WireProof(sel) :: Inert(ps, sel)
    ensures forall p | p in ps :: HostedNormal(p.step) == p.step
  {
    forall p, sel | p in ps && (EarlySelector(sel) || WireProof(sel)) ensures !Is(p.step, sel) {
      assert GoodPlacement(p);
      WireStepUnseen(p.step, sel);
    }
    forall p | p in ps
      ensures !Is(p.step, Checkout) && !Is(StepJ1(dir), p.anchor) && !Is(StepJ2(dir), p.anchor)
    {
      assert GoodPlacement(p);
      WireStepUnseen(p.step, Checkout);
      WireStepUnseen(StepJ1(dir), p.anchor);
      WireStepUnseen(StepJ2(dir), p.anchor);
    }
    forall p | p in ps ensures HostedNormal(p.step) == p.step { assert GoodPlacement(p); }
  }

  /** Two lists in which every early selector finds the same step first. */
  ghost predicate Alike(s: seq<Step>, t: seq<Step>) {
    forall sel | EarlySelector(sel) :: First(s, sel) == First(t, sel)
  }

  lemma AlikeAt(s: seq<Step>, t: seq<Step>, sel: Selector)
    requires Alike(s, t) && EarlySelector(sel)
    ensures First(s, sel) == First(t, sel) && Has(s, sel) == Has(t, sel)
    ensures forall e :: Ready(s, sel, e) == Ready(t, sel, e)
  {
  }

  lemma AlikeRerun(s: seq<Step>, t: seq<Step>)
    requires Alike(s, t)
    ensures RerunReady(s) == RerunReady(t)
  {
    AlikeAt(s, t, CategorySummary);
    AlikeAt(s, t, Named(RerunMatrix));
  }

  lemma AlikeInteractivity(s: seq<Step>, t: seq<Step>)
    requires Alike(s, t)
    ensures InteractivityReady(s) == InteractivityReady(t)
  {
    AlikeAt(s, t, Checkout);
    AlikeAt(s, t, WithId("out"));
  }

  lemma AlikePreInit(s: seq<Step>, t: seq<Step>)
    requires Alike(s, t)
    ensures PreInitReady(s) == PreInitReady(t)
  {
    AlikeAt(s, t, PreInitGate);
    AlikeAt(s, t, WithId("out"));
  }

  lemma {:induction false} AlikeMarkdown(s: seq<Step>, t: seq<Step>)
    requires Alike(s, t)
    ensures MarkdownlintName(s) == MarkdownlintName(t)
  {
    AlikeAt(s, t, Named(RunMarkdownlint));
    AlikeAt(s, t, Named(RunMarkdownlintNonBlocking));
    AlikeAt(s, t, Named(RunMarkdownlintScoped));
  }

  lemma {:induction false} AlikeMarkdownReady(s: seq<Step>, t: seq<Step>)
    requires Alike(s, t)
    ensures Ready(s, Named(MarkdownlintName(s)), MarkdownlintEdit) == Ready(t, Named(MarkdownlintName(t)), MarkdownlintEdit)
  {
    AlikeMarkdown(s, t);
    AlikeAt(s, t, Named(MarkdownlintName(s)));
  }

  lemma {:induction false} AlikeArranged(s: seq<Step>, t: seq<Step>)
    requires Alike(s, t)
    ensures LintArranged(s) == LintArranged(t)
  {
    AlikeMarkdownReady(s, t);
    AlikeAt(s, t, Named(InstallActionlint));
    AlikeAt(s, t, Named(RunActionlint));
    AlikeAt(s, t, Named(SetupNode));
  }

  lemma {:induction false} AlikeLint(s: seq<Step>, t: seq<Step>)
    requires Alike(s, t)
    ensures LintReady(s) == LintReady(t) && DriftGateReady(s) == DriftGateReady(t)
  {
    AlikeArranged(s, t);
    AlikeAt(s, t, Named(InstallMarkdownlint));
    AlikeAt(s, t, Named(NonLabviewChecks));
  }

  lemma AlikeRoles(n: string, s: seq<Step>, t: seq<Step>)
    requires Alike(s, t)
    ensures PreflightReady(s) == PreflightReady(t)
    ensures Has(s, PostsSessionIndex) == Has(t, PostsSessionIndex) && Has(s, GuardsRunner) == Has(t, GuardsRunner)
  {
    AlikeAt(s, t, Checkout);
    AlikeAt(s, t, VerifyRunner);
    AlikeAt(s, t, PostsSessionIndex);
    AlikeAt(s, t, GuardsRunner);
  }

  lemma {:induction false} AlikeOrchestrated(n: string, s: seq<Step>, t: seq<Step>)
    requires OrchestratedReady(n, s) && Alike(s, t)
    ensures OrchestratedReady(n, t)
  {
    AlikeRoles(n, s, t);
    AlikeRerun(s, t);
    AlikeInteractivity(s, t);
    AlikeAt(s, t, Named(RerunSingle));
    AlikeAt(s, t, Named(RerunMatrix));
  }

  /** Rewiring and the late placements are invisible to the early selectors. */
  lemma {:induction false} RewiredAlike(f: File, n: string, e: seq<Step>)
    ensures Alike(WithoutProbes(e), PlaceAll(WireProbesSteps(e, ProbeDir(n)), LatePlacements(f, n)))
  {
    var ps, dir := LatePlacements(f, n), ProbeDir(n);
    LateGood(f, n);
    GoodIsSafe(ps, dir);
    forall sel | EarlySelector(sel)
      ensures First(PlaceAll(WireProbesSteps(e, dir), ps), sel) == First(WithoutProbes(e), sel)
    {
      WireStepUnseen(StepJ1(dir), sel);
      WireStepUnseen(StepJ2(dir), sel);
      WireFirst(e, dir, sel);
      PlaceAllInert(WireProbesSteps(e, dir), ps, sel);
    }
  }

  lemma NormalBehind(s: seq<Step>, a: Step, b: Step)
    requires Normal(s) && HostedNormal(a) == a && HostedNormal(b) == b
    ensures Normal(Behind(s, a, b))
  {
    if Has(s, Checkout) {
      var c := Find(s, Checkout) + 1;
      NormalInsert(s, c, a);
      NormalInsert(Insert(s, c, a), c + 1, b);
    }
  }

  lemma WireNormal(e: seq<Step>, dir: Value)
    requires Normal(WithoutProbes(e))
    ensures Normal(WireProbesSteps(e, dir))
  {
    NormalBehind(WithoutProbes(e), StepJ1(dir), StepJ2(dir));
  }

  lemma RewiredNormal(f: File, n: string, e: seq<Step>)
    requires Normal(e)
    ensures Normal(PlaceAll(WireProbesSteps(e, ProbeDir(n)), LatePlacements(f, n)))
    ensures Normal(WithoutProbes(e))
  {
    WithoutMembers(e);
    WireNormal(e, ProbeDir(n));
    LateGood(f, n);
    GoodIsSafe(LatePlacements(f, n), ProbeDir(n));
    NormalPlaceAll(WireProbesSteps(e, ProbeDir(n)), LatePlacements(f, n));
  }
}
