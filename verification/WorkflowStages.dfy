/**
 What each rewrite of the workflow updater does, as functions, and the fixed order
 in which every managed file goes through them.
 */
module WorkflowStages {
  import opened Options
  import opened Texts
  import opened WorkflowVocabulary
  import opened StepLists

  // ---------------------------------------------------------------- the steps the updater writes

  const BLANK := Step(None, None, None, None, None, None, None, None, None, "")

  function ActionStep(name: Name, cond: Option<Condition>, action: Action, with: Keys): Step {
    BLANK.(name := Some(name), cond := cond, uses := Some(Local(action)), with := Some(with))
  }

  function ScriptStep(name: Name, shell: Option<string>, body: Body): (st: Step)
    ensures st.Step?
  {
    BLANK.(name := Some(name), shell := shell, run := Some(Run(body, true)))
  }

  /** A wire probe that runs unless probes are switched off. */
  function GatedProbe(name: Name, dir: Value): Step {
    ActionStep(name, Some(ProbesEnabled), WireProbe, map[Phase := PhaseOf(name), ResultsDir := dir])
  }

  function PlainProbe(name: Name, dir: Value): Step {
    ActionStep(name, None, WireProbe, map[Phase := PhaseOf(name), ResultsDir := dir])
  }

  function StepJ1(dir: Value): Step { GatedProbe(WireJ1, dir) }

  function StepJ2(dir: Value): Step { GatedProbe(WireJ2, dir) }

  const BARE_CHECKOUT := BLANK.(uses := Some(Checkout5))

  const PREFLIGHT_STEP := ScriptStep(HostedPreflight, Some("pwsh"), PreflightBody)

  const PROBE_STEP := var st := ScriptStep(RunInteractivityProbe, Some("pwsh"), ProbeBody); st.(id := Some("out"))

  const DOCS_ONLY_STEP := var st := ScriptStep(ComputeDocsOnly, Some("pwsh"), DocsOnlyBody); st.(id := Some("out"))

  const RERUN_ENV: Keys := map[GhStrategy := StrategyInput, GhInclude := IncludeInput, GhSampleId := SampleIdInput]

  function RerunName(single: bool): Name {
    if single then RerunSingle else RerunMatrix
  }

  function RerunStep(single: bool): Step {
    var st := ScriptStep(RerunName(single), Some("pwsh"), RerunBody(single));
    st.(cond := Some(Always), env := Some(RERUN_ENV))
  }

  const INSTALL_STEP := ScriptStep(InstallActionlint, Some("bash"), InstallActionlintBody)

  const RUN_ACTIONLINT_STEP := ScriptStep(RunActionlint, None, RunActionlintBody)

  const NODE_WITH: Keys := map[NodeVersion := Node20, Cache := Npm]

  const NODE_STEP := BLANK.(name := Some(SetupNode), uses := Some(SetupNode6), with := Some(NODE_WITH))

  const MARKDOWNLINT_STEP := ScriptStep(RunMarkdownlint, None, MarkdownlintBody)

  const DRIFT_GATE_ENV: Keys := map[DefaultBranch := DefaultBranchValue]

  function SessionPostStep(title: Name, dir: Value, artifact: Value): Step {
    ActionStep(title, Some(Always), SessionIndexPost,
               map[ResultsDir := dir, ValidateSchema := True, Upload := True, ArtifactName := artifact])
  }

  function GuardStep(name: Name, cond: Option<Condition>, snapshot: Value, cleanup: Value, processes: Value): Step {
    ActionStep(name, cond, RunnerUnblockGuard, map[SnapshotPath := snapshot, Cleanup := cleanup, ProcessNames := processes])
  }

  function UnblockGuardStep(dir: Value): Step {
    GuardStep(UnblockGuard, Some(Always), SnapshotIn(dir), WhenUnblockGuard, AllRunnerProcesses)
  }

  const PREFLIGHT_GUARD_STEP :=
    GuardStep(UnblockGuardPreflight, None, SnapshotIn(DefaultResults), WhenCleanLv, LabviewThenCompare)

  // ---------------------------------------------------------------- edits of an existing step

  datatype Edit =
    | HostedEdit | RerunEdit(single: bool) | GateEdit | ProbeEdit
    | InstallEdit | RunActionlintEdit | NodeEdit | MarkdownlintEdit | DriftGateEdit

  predicate Runs(st: Step, body: Body)
    requires st.Step?
  {
    st.run.Some? && st.run.value.body == body
  }

  /** Rewrites the shell body when its text differs; block style alone is not a difference. */
  function WithBody(st: Step, body: Body): (r: Step)
    requires st.Step?
    ensures r.Step?
  {
    if Runs(st, body) then st else st.(run := Some(Run(body, true)))
  }

  function Edited(e: Edit, st: Step): Step {
    if st.NotMapping? then st else
    match e
    case HostedEdit =>
      if Runs(st, PreflightBody) then st
      else st.(run := Some(Run(PreflightBody, true)), shell := Some("pwsh"))
    case RerunEdit(single) =>
      var hint := WithBody(st, RerunBody(single));
      hint.(cond := Some(Always), shell := Some("pwsh"), env := Some(RERUN_ENV))
    case GateEdit => st.(cond := Some(ForceRunOff))
    case ProbeEdit =>
      var probe := WithBody(st, ProbeBody);
      probe.(name := Some(RunInteractivityProbe), shell := Some("pwsh"))
    case InstallEdit =>
      if st.shell == Some("bash") && Runs(st, InstallActionlintBody) then st else INSTALL_STEP
    case RunActionlintEdit => WithBody(st, RunActionlintBody)
    case NodeEdit =>
      st.(uses := Some(SetupNode6),
          with := if st.with.Some? && NodeVersion in st.with.value && st.with.value[NodeVersion] == Node20
                     && Cache in st.with.value && st.with.value[Cache] == Npm
                  then st.with else Some(NODE_WITH))
    case MarkdownlintEdit =>
      var quiet := st.(continueOnError := None);
      if st.name == Some(RunMarkdownlintScoped) then WithBody(quiet, MarkdownlintBody)
      else if Runs(st, MarkdownlintBody) then quiet.(name := Some(RunMarkdownlint))
      else MARKDOWNLINT_STEP
    case DriftGateEdit =>
      st.(shell := Some("pwsh"), env := Some(DRIFT_GATE_ENV),
          run := if st.run == Some(Run(DriftGateBody, true)) then st.run else Some(Run(DriftGateBody, true)))
  }

  /** Edit the first selected step, when there is one. */
  function Revise(s: seq<Step>, sel: Selector, e: Edit): seq<Step> {
    if Has(s, sel) then s[Find(s, sel) := Edited(e, s[Find(s, sel)])] else s
  }

  /** Edit the first selected step, or insert `x` at `k` when there is none. */
  function Ensure(s: seq<Step>, sel: Selector, e: Edit, k: nat, x: Step): seq<Step>
    requires k <= |s|
  {
    if Has(s, sel) then Revise(s, sel, e) else Insert(s, k, x)
  }

  function AppendUnless(s: seq<Step>, guard: Selector, x: Step): seq<Step> {
    if Has(s, guard) then s else s + [x]
  }

  // ---------------------------------------------------------------- the rewrites of one step list

  function HostedNormal(st: Step): Step {
    if st.NotMapping? then st
    else if st.name == Some(HostedPreflight) then HostedBody(st, PreflightBody)
    else if st.name == Some(HostedNotice) then HostedBody(st, NoticeBody)
    else st
  }

  function HostedBody(st: Step, body: Body): Step
    requires st.Step?
  {
    if Runs(st, body) && st.shell == Some("pwsh") then st
    else st.(run := Some(Run(body, true)), shell := Some("pwsh"))
  }

  function NormalizeHosted(s: seq<Step>): (t: seq<Step>)
    ensures |t| == |s| && forall i | 0 <= i < |s| :: t[i] == HostedNormal(s[i])
  {
    seq(|s|, i requires 0 <= i < |s| => HostedNormal(s[i]))
  }

  function PreInitSteps(s: seq<Step>): seq<Step> {
    if !Has(s, PreInitGate) then s else
    var gated := Revise(s, PreInitGate, GateEdit);
    if Has(gated, WithId("out")) then gated else Insert(gated, Find(s, PreInitGate) + 1, DOCS_ONLY_STEP)
  }

  function WithCheckout(s: seq<Step>): seq<Step> {
    if Has(s, Checkout) then s else [BARE_CHECKOUT] + s
  }

  function HostedPreflightSteps(s: seq<Step>): seq<Step> {
    Ensure(WithCheckout(s), VerifyRunner, HostedEdit, if Has(s, Checkout) then 1 else 0, PREFLIGHT_STEP)
  }

  function RerunAfterSummarySteps(s: seq<Step>): seq<Step> {
    if !Has(s, CategorySummary) then s
    else Ensure(s, Named(RerunMatrix), RerunEdit(false), Find(s, CategorySummary) + 1, RerunStep(false))
  }

  function RerunInJobSteps(s: seq<Step>, single: bool): seq<Step> {
    Ensure(s, Named(RerunName(single)), RerunEdit(single), |s|, RerunStep(single))
  }

  function InteractivitySteps(s: seq<Step>): seq<Step> {
    var t := WithCheckout(s);
    Ensure(t, WithId("out"), ProbeEdit, if Has(t, Checkout) then Find(t, Checkout) + 1 else |t|, PROBE_STEP)
  }

  /** The markdownlint step the lint job already has: plain, non-blocking or scoped, in that order. */
  function MarkdownlintName(s: seq<Step>): Name {
    if Has(s, Named(RunMarkdownlint)) then RunMarkdownlint
    else if Has(s, Named(RunMarkdownlintNonBlocking)) then RunMarkdownlintNonBlocking
    else if Has(s, Named(RunMarkdownlintScoped)) then RunMarkdownlintScoped
    else RunMarkdownlint
  }

  function LintInstall(s: seq<Step>): seq<Step> {
    Ensure(s, Named(InstallActionlint), InstallEdit, if Has(s, Checkout) then Find(s, Checkout) + 1 else 0, INSTALL_STEP)
  }

  function LintRun(s: seq<Step>): seq<Step>
    requires Has(s, Named(InstallActionlint))
  {
    Ensure(s, Named(RunActionlint), RunActionlintEdit, Find(s, Named(InstallActionlint)) + 1, RUN_ACTIONLINT_STEP)
  }

  function LintNode(s: seq<Step>): seq<Step> {
    Ensure(s, Named(SetupNode), NodeEdit, Find(s, Named(MarkdownlintName(s))), NODE_STEP)
  }

  function LintDropInstall(s: seq<Step>): seq<Step> {
    if Has(s, Named(InstallMarkdownlint)) then Remove(s, Find(s, Named(InstallMarkdownlint))) else s
  }

  function LintMarkdown(s: seq<Step>): seq<Step> {
    Ensure(s, Named(MarkdownlintName(s)), MarkdownlintEdit, |s|, MARKDOWNLINT_STEP)
  }

  lemma LintInstallHas(s: seq<Step>)
    ensures Has(LintInstall(s), Named(InstallActionlint))
  {
    var sel := Named(InstallActionlint);
    if Has(s, sel) {
      FindUpdate(s, Find(s, sel), Edited(InstallEdit, s[Find(s, sel)]), sel);
    } else {
      HasInsert(s, if Has(s, Checkout) then Find(s, Checkout) + 1 else 0, INSTALL_STEP, sel);
    }
  }

  function LintSteps(s: seq<Step>): seq<Step> {
    LintInstallHas(s);
    LintMarkdown(LintDropInstall(LintNode(LintRun(LintInstall(s)))))
  }

  function DriftGateSteps(s: seq<Step>): seq<Step> {
    Revise(s, Named(NonLabviewChecks), DriftGateEdit)
  }

  function PreflightGuardSteps(s: seq<Step>): seq<Step> {
    if Has(s, GuardsRunner) then s
    else Insert(s, if s != [] && Is(s[0], CheckoutAny) then 1 else 0, PREFLIGHT_GUARD_STEP)
  }

  predicate IsJProbe(st: Step) {
    Is(st, NamedEither(WireJ1, WireJ2))
  }

  function WithoutProbes(s: seq<Step>): seq<Step> {
    if s == [] then []
    else if IsJProbe(s[0]) then WithoutProbes(s[1..])
    else [s[0]] + WithoutProbes(s[1..])
  }

  /** J1 and J2 are taken out and put back directly after the first checkout. */
  function WireProbesSteps(s: seq<Step>, dir: Value): seq<Step> {
    Behind(WithoutProbes(s), StepJ1(dir), StepJ2(dir))
  }

  /** Two steps put in directly after the first checkout, when there is one. */
  function Behind(s: seq<Step>, a: Step, b: Step): seq<Step> {
    if !Has(s, Checkout) then s else Insert(Insert(s, Find(s, Checkout) + 1, a), Find(s, Checkout) + 2, b)
  }

  // ---------------------------------------------------------------- placements

  function SessionIndexPlacements(dir: Value): seq<Placement> {
    var s1 := ActionStep(WireSession, Some(ProbesEnabled), WireSessionIndex, map[ResultsDir := dir]);
    [ Placement(UsesAction(WireSessionIndex), Named(SessionPost), Before, s1),
      Placement(UsesAction(WireSessionIndex), Named(SessionPostBestEffort), Before, s1),
      Placement(UsesAction(WireSessionIndex), Named(SessionPostSingle), Before, s1) ]
  }

  function TestProbePlacements(dir: Value): seq<Placement> {
    [ Placement(Named(WireT1), NamedEither(RunPesterCategory, PesterSerial), Before, PlainProbe(WireT1, dir)) ]
  }

  function DriftProbePlacements(): seq<Placement> {
    [ Placement(Named(WireC1), DetectsDrift, Before, GatedProbe(WireC1, DriftResults)),
      Placement(Named(WireC2), DetectsDrift, After, GatedProbe(WireC2, DriftResults)) ]
  }

  function InvokerPlacements(): seq<Placement> {
    var with: Keys := map[ResultsDir := DefaultResults];
    [ Placement(Named(WireInvokerStart), Named(EnsureInvokerStart), Before,
                ActionStep(WireInvokerStart, Some(ProbesEnabled), WireInvokerStarter, with)),
      Placement(Named(WireInvokerStop), Named(EnsureInvokerStop), After,
                ActionStep(WireInvokerStop, Some(ProbesEnabled), WireInvokerStopper, with)) ]
  }

  function GuardPlacements(): seq<Placement> {
    var with: Keys := map[ResultsDir := DefaultResults];
    [ Placement(Named(WireGuardPre), Named(UnblockGuard), Before,
                ActionStep(WireGuardPre, Some(ProbesEnabled), WireGuardBefore, with)),
      Placement(Named(WireGuardPost), Named(UnblockGuard), After,
                ActionStep(WireGuardPost, Some(ProbesEnabled), WireGuardAfter, with)) ]
  }

  function FinalPlacements(): seq<Placement> {
    var p1 := GatedProbe(WireP1, DefaultResults);
    [ Placement(Named(WireP1), Named(AppendFinalSummary), After, p1),
      Placement(Named(WireP1), Named(SummarizeOrchestrated), After, p1) ]
  }

  /** The long wire of the fixture-drift job, in the order it is threaded. */
  function LongWirePlacements(dir: Value): seq<Placement> {
    LongWireFront(dir) + LongWireBack(dir)
  }

  function LongWireFront(dir: Value): seq<Placement> {
    var with: Keys := map[ResultsDir := dir];
    [ Placement(Named(WireJ1), Checkout, Before, PlainProbe(WireJ1, dir)),
      Placement(Named(WireJ2), Checkout, After, PlainProbe(WireJ2, dir)),
      Placement(Named(LvGuardPre), Named(DetectDocsOnly), After,
                GuardStep(LvGuardPre, None, LvGuardSnapshot, WhenCleanLv, CompareThenLabview)),
      Placement(Named(WireGuardPre), Named(DetectDocsOnly), After, ActionStep(WireGuardPre, None, WireGuardBefore, with)),
      Placement(Named(Warmup), Named(DetectDocsOnly), After, ScriptStep(Warmup, Some("pwsh"), WarmupBody)),
      Placement(Named(WireInvokerStart), Named(DetectDocsOnly), After,
                ActionStep(WireInvokerStart, None, WireInvokerStarter, with)),
      Placement(Named(WireC1), Named(FixtureOrchestrator), Before, PlainProbe(WireC1, dir)),
      Placement(Named(WireC2), Named(FixtureOrchestrator), After, PlainProbe(WireC2, dir)) ]
  }

  function LongWireBack(dir: Value): seq<Placement> {
    var with: Keys := map[ResultsDir := dir];
    [ Placement(Named(WireC3), Named(VerifyFixture), After, PlainProbe(WireC3, dir)),
      Placement(Named(WireV1), Named(VerifyFixture), After, PlainProbe(WireV1, dir)),
      Placement(UsesAction(WireSessionIndex), Named(SessionPostBestEffort), Before,
                ActionStep(WireSession, Some(Always), WireSessionIndex, with)),
      Placement(Named(WireInvokerStop), Named(UnblockGuard), After,
                ActionStep(WireInvokerStop, None, WireInvokerStopper, with)),
      Placement(Named(WireP1), Named(EnsureInvokerStop), After, PlainProbe(WireP1, dir)),
      Placement(UsesAction(WireGuardAfter), Named(LvGuardPost), After,
                ActionStep(WireGuardPost, None, WireGuardAfter, with)) ]
  }

  // ---------------------------------------------------------------- stages

  datatype Stage =
    | ForceRunInput
    | PreInitOutputs
    | PostSession(job: string, title: Name, dir: Value, artifact: Value, skipReusable: bool)
    | LongWire
    | NormalizeHostedSteps
    | EnsureHostedPreflight
    | EnsureUnblockGuard(job: string, dir: Value, skipReusable: bool)
    | RerunAfterSummary
    | RerunInJob(job: string, single: bool)
    | InteractivityProbe
    | JobCondition(job: string, cond: Condition)
    | JobNeeds(job: string, need: string)
    | LintResiliency
    | DriftGate
    | WireProbes | SessionIndex | TestProbe | DriftProbes | InvokerProbes | GuardProbes | FinalProbe
    | PreflightGuard

  /** The job key a stage looks up, when it does not visit every job. */
  function Target(stage: Stage): Option<string> {
    match stage
    case PreInitOutputs => Some("pre-init")
    case PostSession(job, _, _, _, _) => Some(job)
    case LongWire => Some("validate-windows")
    case EnsureHostedPreflight => Some("preflight")
    case EnsureUnblockGuard(job, _, _) => Some(job)
    case RerunInJob(job, _) => Some(job)
    case InteractivityProbe => Some("probe")
    case JobCondition(job, _) => Some(job)
    case JobNeeds(job, _) => Some(job)
    case LintResiliency => Some("lint")
    case DriftGate => Some("lint")
    case DriftProbes => Some("drift")
    case PreflightGuard => Some("preflight")
    case _ => None
  }

  predicate Visits(stage: Stage, n: string) {
    !stage.ForceRunInput? && (Target(stage).None? || Target(stage).value == n)
  }

  function ProbeDir(n: string): Value {
    if n == "pester-category" then MatrixResults else if n == "drift" then DriftResults else DefaultResults
  }

  function TestDir(n: string): Value {
    if n == "pester-category" then MatrixResults else DefaultResults
  }

  /** The placements of a transform that only inserts steps beside others. */
  function Threaded(stage: Stage, n: string): seq<Placement> {
    match stage
    case LongWire => LongWirePlacements(DriftResults)
    case SessionIndex => SessionIndexPlacements(ProbeDir(n))
    case TestProbe => TestProbePlacements(TestDir(n))
    case DriftProbes => DriftProbePlacements()
    case InvokerProbes => InvokerPlacements()
    case GuardProbes => GuardPlacements()
    case FinalProbe => FinalPlacements()
    case _ => []
  }

  function StageSteps(stage: Stage, n: string, s: seq<Step>): seq<Step> {
    match stage
    case ForceRunInput => s
    case PreInitOutputs => PreInitSteps(s)
    case PostSession(_, title, dir, artifact, _) => AppendUnless(s, PostsSessionIndex, SessionPostStep(title, dir, artifact))
    case NormalizeHostedSteps => NormalizeHosted(s)
    case EnsureHostedPreflight => HostedPreflightSteps(s)
    case EnsureUnblockGuard(_, dir, _) => AppendUnless(s, GuardsRunner, UnblockGuardStep(dir))
    case RerunAfterSummary => RerunAfterSummarySteps(s)
    case RerunInJob(_, single) => RerunInJobSteps(s, single)
    case InteractivityProbe => InteractivitySteps(s)
    case JobCondition(_, _) => s
    case JobNeeds(_, _) => s
    case LintResiliency => LintSteps(s)
    case DriftGate => DriftGateSteps(s)
    case WireProbes => WireProbesSteps(s, ProbeDir(n))
    case PreflightGuard => PreflightGuardSteps(s)
    case _ => PlaceAll(s, Threaded(stage, n))
  }

  // ---------------------------------------------------------------- job fields

  const PROBE_OUTPUTS: Keys := map[Ok := OutOk]

  function WithNeed(jobs: seq<string>, need: string): seq<string> {
    if need in jobs then jobs else jobs + [need]
  }

  function StageFields(stage: Stage, job: Node): Node
    requires job.Job?
  {
    match stage
    case PreInitOutputs =>
      job.(outputs := Some(job.outputs.GetOr(map[])[DocsOnly := OutDocsOnly]))
    case LongWire => job.(concurrency := Some(FixtureGroup))
    case EnsureHostedPreflight => job.(runsOn := Some(WindowsLatest))
    case InteractivityProbe =>
      job.(cond := Some(SingleStrategy), runsOn := Some(CapabilityIngress), timeout := Some(2), outputs := Some(PROBE_OUTPUTS),
           needs := Some(ManyNeeds(
             if job.needs.Some? && job.needs.value.ManyNeeds?
             then WithNeed(WithNeed(job.needs.value.jobs, "normalize"), "preflight")
             else ["normalize", "preflight"])))
    case JobCondition(_, cond) => job.(cond := Some(cond))
    case JobNeeds(_, need) =>
      (match job.needs
       case None => job.(needs := Some(ManyNeeds([need])))
       case Some(OneNeed(_)) => job
       case Some(ManyNeeds(jobs)) => job.(needs := Some(ManyNeeds(WithNeed(jobs, need)))))
    case LintResiliency => job.(env := Some(job.env.GetOr(map[])[ActionlintVersion := ActionlintVersionValue]))
    case _ => job
  }

  /** The stages that leave a `steps` key behind even when there was none and nothing was added. */
  predicate WritesSteps(stage: Stage) {
    stage.PreInitOutputs? || stage.LongWire? || stage.EnsureHostedPreflight? || stage.RerunInJob? ||
    stage.InteractivityProbe? || stage.LintResiliency? || stage.WireProbes? || stage.InvokerProbes? || stage.PreflightGuard?
  }

  function StepsOf(job: Node): seq<Step> {
    if job.Job? then job.steps.GetOr([]) else []
  }

  const NEW_PREFLIGHT := Job(None, None, None, None, Some(WindowsLatest), Some(3), None, None,
                             Some([BARE_CHECKOUT]), "")

  const NEW_PROBE := Job(None, Some(SingleStrategy), Some(ManyNeeds(["normalize", "preflight"])), None,
                         Some(CapabilityIngress), Some(2), Some(PROBE_OUTPUTS), None, Some([BARE_CHECKOUT, PROBE_STEP]), "")

  /** The stages that create their job; a missing job reads as a value that is no mapping. */
  predicate Creates(stage: Stage) {
    stage.EnsureHostedPreflight? || stage.InteractivityProbe?
  }

  predicate Skips(stage: Stage, job: Node)
    requires job.Job?
  {
    (stage.PostSession? || stage.EnsureUnblockGuard?) && stage.skipReusable && job.uses.Some?
  }

  function Apply(stage: Stage, n: string, node: Node): Node {
    if !Visits(stage, n) then node
    else if node.NotJob? then
      if stage.EnsureHostedPreflight? then Rewritten(stage, n, NEW_PREFLIGHT)
      else if stage.InteractivityProbe? then NEW_PROBE
      else node
    else if Skips(stage, node) then node
    else Rewritten(stage, n, node)
  }

  function Rewritten(stage: Stage, n: string, job: Node): Node
    requires job.Job?
  {
    var steps := StageSteps(stage, n, StepsOf(job));
    StageFields(stage, job).(steps := if job.steps.None? && steps == [] && !WritesSteps(stage) then None else Some(steps))
  }

  function Lookup(jobs: map<string, Node>, n: string): Node {
    if n in jobs then jobs[n] else NotJob("")
  }

  function StageJobs(stage: Stage, jobs: map<string, Node>): map<string, Node> {
    map n | n in jobs.Keys + (if Creates(stage) then {Target(stage).value} else {}) :: Apply(stage, n, Lookup(jobs, n))
  }

  function StageDispatch(stage: Stage, d: Dispatch): Dispatch {
    if stage.ForceRunInput? && d.Dispatch? && ForceRun !in d.inputs.GetOr(map[])
    then Dispatch(Some(d.inputs.GetOr(map[])[ForceRun := ForceRunChoice]))
    else d
  }

  function StageDoc(stage: Stage, doc: Doc): Doc {
    doc.(jobs := StageJobs(stage, doc.jobs), dispatch := StageDispatch(stage, doc.dispatch))
  }

  /**
   The `changed` result of a stage on one job.  The J1/J2 rewiring reports a change on
   every job that has a checkout, whether or not anything moved.
   */
  predicate Reports(stage: Stage, n: string, node: Node) {
    Visits(stage, n) &&
    if node.NotJob? then Creates(stage)
    else if Skips(stage, node) then false
    else if stage.WireProbes? then
      Has(StepsOf(node), NamedEither(WireJ1, WireJ2)) || Has(WithoutProbes(StepsOf(node)), Checkout)
    else StageFields(stage, node) != node || StageSteps(stage, n, StepsOf(node)) != StepsOf(node)
  }

  predicate DocReports(stage: Stage, doc: Doc) {
    || StageDispatch(stage, doc.dispatch) != doc.dispatch
    || exists n | n in doc.jobs.Keys + (if Creates(stage) then {Target(stage).value} else {}) ::
         Reports(stage, n, Lookup(doc.jobs, n))
  }

  // ---------------------------------------------------------------- pipelines

  function RunJob(stages: seq<Stage>, n: string, node: Node): Node {
    if stages == [] then node else RunJob(stages[1..], n, Apply(stages[0], n, node))
  }

  function RunDoc(stages: seq<Stage>, doc: Doc): Doc {
    if stages == [] then doc else RunDoc(stages[1..], StageDoc(stages[0], doc))
  }

  predicate RunReports(stages: seq<Stage>, doc: Doc) {
    stages != [] && (DocReports(stages[0], doc) || RunReports(stages[1..], StageDoc(stages[0], doc)))
  }

  /** The managed workflow files that get transforms of their own. */
  datatype File =
    | PesterSelfhosted | FixtureDrift | CiOrchestrated | IntegrationOnLabel | Smoke
    | CompareArtifacts | PesterReusable | Validate | OtherFile

  const PESTER_STAGES := [ForceRunInput, PreInitOutputs]

  const DRIFT_STAGES := [
    PostSession("validate-windows", SessionPostBestEffort, DriftResults, DriftArtifact, false), LongWire]

  const EARLY_STAGES := [
    EnsureHostedPreflight,
    PostSession("pester", SessionPost, MatrixResults, MatrixArtifact, false),
    PostSession("pester-category", SessionPost, MatrixResults, MatrixArtifact, false),
    EnsureUnblockGuard("drift", DriftResults, false),
    EnsureUnblockGuard("pester", MatrixResults, false),
    EnsureUnblockGuard("pester-category", MatrixResults, false),
    RerunAfterSummary, RerunInJob("windows-single", true), RerunInJob("publish", false), InteractivityProbe]

  const GATING_STAGES := [
    JobCondition("windows-single", SingleWithProbe), JobNeeds("windows-single", "probe"),
    JobCondition("pester-category", MatrixOrFallback), JobNeeds("pester-category", "probe")]

  const LATE_STAGES := [SessionIndex, TestProbe, DriftProbes, InvokerProbes, GuardProbes, FinalProbe]

  function FileStages(file: File): seq<Stage> {
    match file
    case CiOrchestrated => EARLY_STAGES + GATING_STAGES + [LintResiliency, DriftGate] + [WireProbes] + LATE_STAGES
    case IntegrationOnLabel =>
      [PostSession("pester-integration", SessionPostBestEffort, DefaultResults, PesterArtifact, true),
       EnsureUnblockGuard("pester-integration", DefaultResults, true)]
    case Smoke =>
      [PostSession("compare", SessionPostBestEffort, DefaultResults, SmokeArtifact, false),
       EnsureUnblockGuard("compare", DefaultResults, false)]
    case CompareArtifacts =>
      [PostSession("publish", SessionPostBestEffort, DefaultResults, CompareArtifact, false),
       EnsureUnblockGuard("publish", DefaultResults, false)]
    case PesterReusable => [PreflightGuard]
    case Validate => [LintResiliency] + [WireProbes] + [SessionIndex]
    case _ => []
  }

  /** The self-hosted Pester transforms go by the workflow's own name as well as by its file. */
  predicate IsPester(file: File, name: string) {
    file.PesterSelfhosted? || name == "Pester (self-hosted)" || name == "Pester (integration)"
  }

  function Pipeline(file: File, pester: bool): seq<Stage> {
    (if pester then PESTER_STAGES else []) + (if file.FixtureDrift? then DRIFT_STAGES else []) +
    [NormalizeHostedSteps] + FileStages(file)
  }
}
