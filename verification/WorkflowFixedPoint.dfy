/**
 The updater's central promise at document level.  Files that are not rewired are fixed
 after one run; a rewired file is fixed after one run exactly when all its jobs settle.
 */
module WorkflowFixedPoint {
  import opened Options
  import opened Texts
  import opened WorkflowVocabulary
  import opened StepLists
  import opened WorkflowStages
  import opened StepFacts
  import opened StageReadiness
  import opened RewiredJobs
  import opened RewiredSettling
  import opened WorkflowRuns
  import opened WorkflowDocuments

  // ---------------------------------------------------------------- files that are not rewired

  /** The stages of files that are neither ci-orchestrated.yml nor validate.yml. */
  predicate Plain(stage: Stage) {
    stage.ForceRunInput? || stage.PreInitOutputs? || (stage.PostSession? && stage.title.SessionPostBestEffort?) || stage.LongWire? ||
    stage.NormalizeHostedSteps? || stage.EnsureUnblockGuard? || stage.PreflightGuard?
  }

  predicate StepsRest(stage: Stage, s: seq<Step>) {
    match stage
    case PreInitOutputs => PreInitReady(s)
    case PostSession(_, _, _, _, _) => Has(s, PostsSessionIndex)
    case LongWire => AllRest(s, LongWirePlacements(DriftResults))
    case NormalizeHostedSteps => Normal(s)
    case EnsureUnblockGuard(_, _, _) => Has(s, GuardsRunner)
    case PreflightGuard => Has(s, GuardsRunner)
    case _ => true
  }

  predicate LongWireAnchor(n: Name) {
    n.DetectDocsOnly? || n.FixtureOrchestrator? || n.VerifyFixture? || n.SessionPostBestEffort? || n.UnblockGuard? ||
    n.EnsureInvokerStop? || n.LvGuardPost?
  }

  /** A placement of the long wire: its step is no checkout and no anchor, and its own guard sees it. */
  predicate LongWireGood(p: Placement) {
    && Is(p.step, p.guard) && p.step.name.Some? && !LongWireAnchor(p.step.name.value)
    && (p.step.uses.Some? ==> p.step.uses.value.Local?)
    && (p.anchor.Checkout? || (p.anchor.Named? && LongWireAnchor(p.anchor.name)))
  }

  lemma LongWireFrontGood(dir: Value)
    ensures forall p | p in LongWireFront(dir) :: LongWireGood(p)
  {
    var ps := LongWireFront(dir);
    forall p | p in ps ensures LongWireGood(p) {
      var k :| 0 <= k < |ps| && ps[k] == p;
      if k < 2 { FrontProbes(ps, k, dir); }
      else if k < 4 { FrontGuards(ps, k, dir); }
      else if k < 6 { FrontWarmup(ps, k, dir); }
      else { FrontDrift(ps, k, dir); }
    }
  }

  lemma {:induction false} FrontProbes(ps: seq<Placement>, k: nat, dir: Value)
    requires ps == LongWireFront(dir) && k < 2
    ensures LongWireGood(ps[k])
  {
  }

  lemma {:induction false} FrontGuards(ps: seq<Placement>, k: nat, dir: Value)
    requires ps == LongWireFront(dir) && 2 <= k < 4
    ensures LongWireGood(ps[k])
  {
    assert ps[k].anchor == Named(DetectDocsOnly);
  }

  lemma {:induction false} FrontWarmup(ps: seq<Placement>, k: nat, dir: Value)
    requires ps == LongWireFront(dir) && 4 <= k < 6
    ensures LongWireGood(ps[k])
  {
    assert ps[k].anchor == Named(DetectDocsOnly);
  }

  lemma {:induction false} FrontDrift(ps: seq<Placement>, k: nat, dir: Value)
    requires ps == LongWireFront(dir) && 6 <= k < |ps|
    ensures LongWireGood(ps[k])
  {
  }

  lemma LongWireBackGood(dir: Value)
    ensures forall p | p in LongWireBack(dir) :: LongWireGood(p)
  {
    var ps := LongWireBack(dir);
    forall p | p in ps ensures LongWireGood(p) {
      var k :| 0 <= k < |ps| && ps[k] == p;
      if k < 3 { BackVerify(ps, k, dir); } else { BackStop(ps, k, dir); }
    }
  }

  lemma {:induction false} BackVerify(ps: seq<Placement>, k: nat, dir: Value)
    requires ps == LongWireBack(dir) && k < 3
    ensures LongWireGood(ps[k])
  {
  }

  lemma {:induction false} BackStop(ps: seq<Placement>, k: nat, dir: Value)
    requires ps == LongWireBack(dir) && 3 <= k < |ps|
    ensures LongWireGood(ps[k])
  {
  }

  lemma GoodCoherent(ps: seq<Placement>)
    requires forall p | p in ps :: LongWireGood(p)
    ensures Coherent(ps)
  {
    forall p, q | p in ps && q in ps ensures !Is(q.step, p.anchor) {
      assert LongWireGood(p) && LongWireGood(q);
    }
  }

  lemma LongWireCoherent(dir: Value)
    ensures Coherent(LongWirePlacements(dir))
  {
    LongWireFrontGood(dir);
    LongWireBackGood(dir);
    GoodCoherent(LongWireFront(dir) + LongWireBack(dir));
  }

  lemma {:induction false} StepsOnce(stage: Stage, n: string, s: seq<Step>)
    requires Plain(stage)
    ensures StepsRest(stage, StageSteps(stage, n, s))
  {
    match stage {
      case PreInitOutputs => PreInitSettles(s);
      case PostSession(_, title, dir, artifact, _) =>
        AppendHas(s, PostsSessionIndex, SessionPostStep(title, dir, artifact), PostsSessionIndex);
      case LongWire =>
        LongWireCoherent(DriftResults);
        PlaceAllRests(s, LongWirePlacements(DriftResults));
      case NormalizeHostedSteps => NormalizeNormal(s);
      case EnsureUnblockGuard(_, dir, _) => AppendHas(s, GuardsRunner, UnblockGuardStep(dir), GuardsRunner);
      case PreflightGuard =>
        HasInsert(s, if s != [] && Is(s[0], CheckoutAny) then 1 else 0, PREFLIGHT_GUARD_STEP, GuardsRunner);
      case _ =>
    }
  }

  lemma {:induction false} StepsIdle(stage: Stage, n: string, s: seq<Step>)
    requires Plain(stage) && StepsRest(stage, s)
    ensures StageSteps(stage, n, s) == s
  {
    match stage {
      case PreInitOutputs => PreInitFixed(s);
      case LongWire => PlaceAllRested(s, LongWirePlacements(DriftResults));
      case NormalizeHostedSteps => NormalFixed(s);
      case _ =>
    }
  }

  // What each plain stage leaves alone in the list.

  lemma {:induction false} NormalizeKeeps(a: Stage, s: seq<Step>)
    requires Plain(a) && StepsRest(a, s)
    ensures StepsRest(a, NormalizeHosted(s))
  {
    var t := NormalizeHosted(s);
    match a {
      case PreInitOutputs =>
        NormalizeFind(s, PreInitGate);
        NormalizeFind(s, WithId("out"));
      case LongWire =>
        forall p | p in LongWirePlacements(DriftResults) ensures Rests(t, p) {
          NormalizeFind(s, p.guard);
          NormalizeFind(s, p.anchor);
        }
      case NormalizeHostedSteps => NormalizeNormal(s);
      case ForceRunInput =>
      case _ =>
        NormalizeFind(s, PostsSessionIndex);
        NormalizeFind(s, GuardsRunner);
    }
  }

  lemma {:induction false} LongWireKeeps(a: Stage, s: seq<Step>)
    requires a.PostSession? && StepsRest(a, s)
    ensures StepsRest(a, PlaceAll(s, LongWirePlacements(DriftResults)))
  {
    PlaceAllKeeps(s, LongWirePlacements(DriftResults), PostsSessionIndex);
  }

  lemma {:induction false} GuardKeeps(a: Stage, dir: Value, s: seq<Step>)
    requires (a.NormalizeHostedSteps? || a.PostSession?) && StepsRest(a, s)
    ensures StepsRest(a, AppendUnless(s, GuardsRunner, UnblockGuardStep(dir)))
  {
    if a.NormalizeHostedSteps? {
      AppendNormal(s, GuardsRunner, UnblockGuardStep(dir));
    } else {
      AppendHas(s, GuardsRunner, UnblockGuardStep(dir), PostsSessionIndex);
    }
  }

  /** The plain stages that follow one another on one job, in pipeline order. */
  predicate Follows(a: Stage, b: Stage) {
    match b
    case ForceRunInput => true
    case NormalizeHostedSteps => true
    case LongWire => a.PostSession? || a.ForceRunInput?
    case PostSession(_, _, _, _, _) => a.NormalizeHostedSteps? || a.ForceRunInput?
    case EnsureUnblockGuard(_, _, _) => a.NormalizeHostedSteps? || a.PostSession? || a.ForceRunInput?
    case PreflightGuard => a.NormalizeHostedSteps? || a.ForceRunInput?
    case _ => a.ForceRunInput?
  }

  lemma {:induction false} StepsKeep(a: Stage, b: Stage, n: string, s: seq<Step>)
    requires Plain(a) && Plain(b) && Follows(a, b) && StepsRest(a, s)
    ensures StepsRest(a, StageSteps(b, n, s))
  {
    match b {
      case NormalizeHostedSteps => NormalizeKeeps(a, s);
      case LongWire => if a.PostSession? { LongWireKeeps(a, s); }
      case PostSession(_, title, dir, artifact, _) =>
        if a.NormalizeHostedSteps? { AppendNormal(s, PostsSessionIndex, SessionPostStep(title, dir, artifact)); }
      case EnsureUnblockGuard(_, dir, _) => if !a.ForceRunInput? { GuardKeeps(a, dir, s); }
      case PreflightGuard =>
        if a.NormalizeHostedSteps? {
          NormalInsert(s, if s != [] && Is(s[0], CheckoutAny) then 1 else 0, PREFLIGHT_GUARD_STEP);
        }
      case _ =>
    }
  }

  /** A stage has nothing left to do on a job. */
  predicate JobRests(stage: Stage, n: string, job: Node) {
    job.Job? && Visits(stage, n) && !Skips(stage, job) ==>
      && StepsRest(stage, StepsOf(job)) && FieldFixed(stage, n, job)
      && (WritesSteps(stage) ==> job.steps.Some?)
  }

  lemma {:induction false} RestsIdle(stage: Stage, n: string, job: Node)
    requires Plain(stage) && JobRests(stage, n, job)
    ensures Apply(stage, n, job) == job
  {
    if job.Job? && Visits(stage, n) && !Skips(stage, job) {
      StepsIdle(stage, n, StepsOf(job));
    }
  }

  lemma {:induction false} RestsOnce(stage: Stage, n: string, job: Node)
    requires Plain(stage) && Managed(stage)
    ensures JobRests(stage, n, Apply(stage, n, job))
  {
    if job.Job? && Visits(stage, n) && !Skips(stage, job) {
      FieldsAreJob(stage, job);
      StepsOnce(stage, n, StepsOf(job));
      FieldsOnce(stage, n, job);
    }
  }

  lemma {:induction false} RestsKeepBoth(a: Stage, b: Stage, n: string, job: Node)
    requires Plain(a) && Plain(b) && Managed(a) && Managed(b) && Follows(a, b)
    requires job.Job? && Visits(a, n) && Visits(b, n) && !Skips(b, job) && !Skips(a, job) && JobRests(a, n, job)
    ensures JobRests(a, n, Apply(b, n, job))
  {
    FieldsAreJob(b, job);
    StepsKeep(a, b, n, StepsOf(job));
    FieldsKeep(a, b, n, job);
  }

  lemma {:induction false} RestsKeep(a: Stage, b: Stage, n: string, job: Node)
    requires Plain(a) && Plain(b) && Managed(a) && Managed(b)
    requires Visits(a, n) && Visits(b, n) ==> Follows(a, b)
    requires JobRests(a, n, job)
    ensures JobRests(a, n, Apply(b, n, job))
  {
    if job.Job? && Visits(a, n) && Visits(b, n) && !Skips(b, job) {
      FieldsAreJob(b, job);
      if !Skips(a, job) { RestsKeepBoth(a, b, n, job); }
    }
  }

  /** Every later stage that visits the same job may follow the earlier one. */
  predicate InOrder(stages: seq<Stage>, n: string) {
    forall i, j | 0 <= i < j < |stages| :: Visits(stages[i], n) && Visits(stages[j], n) ==> Follows(stages[i], stages[j])
  }

  lemma {:induction false} RunKeepsRest(stages: seq<Stage>, a: Stage, n: string, job: Node)
    requires Plain(a) && Managed(a) && JobRests(a, n, job)
    requires forall st | st in stages :: Plain(st) && Managed(st) && (Visits(a, n) && Visits(st, n) ==> Follows(a, st))
    ensures JobRests(a, n, RunJob(stages, n, job))
    decreases stages
  {
    if stages != [] {
      assert stages[0] in stages && forall st | st in stages[1..] :: st in stages;
      RestsKeep(a, stages[0], n, job);
      RunKeepsRest(stages[1..], a, n, Apply(stages[0], n, job));
    }
  }

  /** After one run in order, every plain stage rests. */
  lemma {:induction false} RunRests(stages: seq<Stage>, n: string, job: Node)
    requires InOrder(stages, n) && forall st | st in stages :: Plain(st) && Managed(st)
    ensures forall st | st in stages :: JobRests(st, n, RunJob(stages, n, job))
    decreases stages
  {
    if stages != [] {
      var rest := stages[1..];
      assert stages[0] in stages && forall st | st in rest :: st in stages;
      forall st | st in rest ensures Visits(stages[0], n) && Visits(st, n) ==> Follows(stages[0], st) {
        var j :| 0 <= j < |rest| && rest[j] == st;
        assert stages[j + 1] == st;
      }
      RestsOnce(stages[0], n, job);
      RunKeepsRest(rest, stages[0], n, Apply(stages[0], n, job));
      RunRests(rest, n, Apply(stages[0], n, job));
      assert forall st | st in stages :: st == stages[0] || st in rest;
    }
  }

  lemma PlainPipeline(f: File, pester: bool)
    requires !Rewires(f)
    ensures forall st | st in Pipeline(f, pester) :: Plain(st)
    ensures |Pipeline(f, pester)| <= 6
  {
    assert forall st | st in FileStages(f) :: Plain(st);
  }

  lemma OrderedTail(f: File, n: string)
    requires !Rewires(f)
    ensures InOrder((if f.FixtureDrift? then DRIFT_STAGES else []) + [NormalizeHostedSteps] + FileStages(f), n)
  {
  }

  lemma InOrderCons(st: Stage, rest: seq<Stage>, n: string)
    requires InOrder(rest, n) && forall b | b in rest :: Visits(st, n) && Visits(b, n) ==> Follows(st, b)
    ensures InOrder([st] + rest, n)
  {
  }

  lemma PlainTail(f: File)
    requires !Rewires(f)
    ensures forall st | st in (if f.FixtureDrift? then DRIFT_STAGES else []) + [NormalizeHostedSteps] + FileStages(f) ::
              st == NormalizeHostedSteps || !Visits(st, "pre-init")
  {
    assert forall st | st in FileStages(f) :: !Visits(st, "pre-init");
  }

  lemma {:induction false} OrderedPipeline(f: File, pester: bool, n: string)
    requires !Rewires(f)
    ensures InOrder(Pipeline(f, pester), n)
  {
    var tail := (if f.FixtureDrift? then DRIFT_STAGES else []) + [NormalizeHostedSteps] + FileStages(f);
    OrderedTail(f, n);
    if pester {
      PlainTail(f);
      InOrderCons(PreInitOutputs, tail, n);
      InOrderCons(ForceRunInput, [PreInitOutputs] + tail, n);
      assert Pipeline(f, pester) == [ForceRunInput] + ([PreInitOutputs] + tail);
    } else {
      assert Pipeline(f, pester) == tail;
    }
  }

  lemma {:induction false} PlainJobFixed(f: File, pester: bool, n: string, job: Node)
    requires !Rewires(f)
    ensures var P := Pipeline(f, pester); RunJob(P, n, RunJob(P, n, job)) == RunJob(P, n, job)
  {
    var P := Pipeline(f, pester);
    PlainPipeline(f, pester);
    ManagedPipeline(f, pester);
    OrderedPipeline(f, pester, n);
    RunRests(P, n, job);
    forall st | st in P ensures Apply(st, n, RunJob(P, n, job)) == RunJob(P, n, job) {
      RestsIdle(st, n, RunJob(P, n, job));
    }
    RunIdle(P, n, RunJob(P, n, job));
  }

  // ---------------------------------------------------------------- documents

  predicate AnyCreates(stages: seq<Stage>, n: string) {
    exists st | st in stages :: Creates(st) && Target(st) == Some(n)
  }

  lemma {:induction false} StageNode(stage: Stage, doc: Doc, n: string)
    ensures n in StageDoc(stage, doc).jobs <==> n in doc.jobs || (Creates(stage) && Target(stage) == Some(n))
    ensures Lookup(StageDoc(stage, doc).jobs, n) == if n in StageDoc(stage, doc).jobs then Apply(stage, n, Lookup(doc.jobs, n)) else NotJob("")
    ensures n !in StageDoc(stage, doc).jobs ==> Lookup(doc.jobs, n) == NotJob("") && Apply(stage, n, NotJob("")) == NotJob("")
  {
  }

  /** A document run is a job run on every key, plus the keys the stages create. */
  lemma {:induction false} RunDocNode(stages: seq<Stage>, doc: Doc, n: string)
    ensures n in RunDoc(stages, doc).jobs <==> n in doc.jobs || AnyCreates(stages, n)
    ensures Lookup(RunDoc(stages, doc).jobs, n) == RunJob(stages, n, Lookup(doc.jobs, n))
    decreases stages
  {
    if stages != [] {
      StageNode(stages[0], doc, n);
      RunDocNode(stages[1..], StageDoc(stages[0], doc), n);
      assert forall st :: st in stages <==> st == stages[0] || st in stages[1..];
    }
  }

  lemma {:induction false} RunDocRest(stages: seq<Stage>, doc: Doc)
    ensures RunDoc(stages, doc).name == doc.name && RunDoc(stages, doc).rest == doc.rest
    ensures RunDoc(stages, doc).dispatch == if ForceRunInput in stages then StageDispatch(ForceRunInput, doc.dispatch) else doc.dispatch
    decreases stages
  {
    if stages != [] {
      RunDocRest(stages[1..], StageDoc(stages[0], doc));
      assert forall st :: st in stages <==> st == stages[0] || st in stages[1..];
    }
  }

  /** Whether a job of a managed file is fixed after one run. */
  predicate JobConverges(f: File, pester: bool, n: string, node: Node) {
    var start := StartOf(f, n, node);
    Rewires(f) && start.Job? ==> Settles(f, pester, n, StepsOf(start))
  }

  lemma {:induction false} JobConvergesIff(f: File, pester: bool, n: string, node: Node)
    ensures var P := Pipeline(f, pester);
      RunJob(P, n, RunJob(P, n, node)) == RunJob(P, n, node) <==> JobConverges(f, pester, n, node)
  {
    var P, start := Pipeline(f, pester), StartOf(f, n, node);
    if !Rewires(f) {
      PlainJobFixed(f, pester, n, node);
    } else if node.Job? {
      RewiredJobIff(f, pester, n, node);
    } else if Created(f, n) {
      CreatedRun(pester, n, node);
      RewiredJobIff(f, pester, n, start);
    } else {
      NotJobIdle(f, pester, n, node);
    }
  }

  function FilePipeline(f: File, doc: Doc): seq<Stage> {
    Pipeline(f, IsPester(f, doc.name))
  }

  /** The document as the updater leaves it in memory. */
  function Updated(f: File, doc: Doc): Doc {
    RunDoc(FilePipeline(f, doc), doc)
  }

  predicate Converges(f: File, doc: Doc) {
    forall n | n in Updated(f, doc).jobs :: JobConverges(f, IsPester(f, doc.name), n, Lookup(doc.jobs, n))
  }

  lemma {:induction false} NodeTwiceIff(f: File, pester: bool, doc: Doc, n: string)
    ensures var P := Pipeline(f, pester); var once := RunDoc(P, doc); var twice := RunDoc(P, once);
      && (n in twice.jobs <==> n in once.jobs)
      && (Lookup(twice.jobs, n) == Lookup(once.jobs, n) <==> JobConverges(f, pester, n, Lookup(doc.jobs, n)))
  {
    var P := Pipeline(f, pester);
    RunDocNode(P, doc, n);
    RunDocNode(P, RunDoc(P, doc), n);
    JobConvergesIff(f, pester, n, Lookup(doc.jobs, n));
  }

  /**
   Updating an updated document changes nothing exactly when every job converges.  Files
   other than ci-orchestrated.yml and validate.yml always converge.
   */
  lemma {:induction false} UpdateTwiceIff(f: File, doc: Doc)
    ensures Updated(f, Updated(f, doc)) == Updated(f, doc) <==> Converges(f, doc)
    ensures !Rewires(f) ==> Converges(f, doc)
  {
    var P, once := FilePipeline(f, doc), Updated(f, doc);
    RunDocRest(P, doc);
    RunDocRest(P, once);
    var twice := RunDoc(P, once);
    forall n
      ensures n in twice.jobs <==> n in once.jobs
      ensures Lookup(twice.jobs, n) == Lookup(once.jobs, n) <==> JobConverges(f, IsPester(f, doc.name), n, Lookup(doc.jobs, n))
    {
      NodeTwiceIff(f, IsPester(f, doc.name), doc, n);
    }
    SameJobs(twice.jobs, once.jobs);
  }

  lemma SameJobs(a: map<string, Node>, b: map<string, Node>)
    requires forall n :: n in a <==> n in b
    ensures a == b <==> forall n | n in b :: Lookup(a, n) == Lookup(b, n)
  {
    if forall n | n in b :: Lookup(a, n) == Lookup(b, n) {
      forall n | n in b ensures a[n] == b[n] { assert Lookup(a, n) == Lookup(b, n); }
    }
  }
}
