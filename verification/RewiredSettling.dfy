/**
 Sufficiency: a job whose early rewrites keep their roles once J1 and J2 are taken out,
 and whose anchors are clear of the checkout, is a fixed point after one run.
 */
module RewiredSettling {
  import opened Options
  import opened Texts
  import opened WorkflowVocabulary
  import opened StepLists
  import opened WorkflowStages
  import opened StepFacts
  import opened StageReadiness
  import opened RewiredJobs
  import opened RewiredFixedPoint

  /** The pre-init gate is in order, or is the job's re-run hint and is set back every run. */
  predicate GateRests(f: File, s: seq<Step>) {
    PreInitReady(s) || (f.CiOrchestrated? && GateIsHint(s))
  }

  /**
   The roles that the early rewrites count on are still filled in `e`, the list they leave,
   after every step named J1 or J2 has been taken out.
   */
  predicate RolesKept(f: File, pester: bool, n: string, e: seq<Step>) {
    var w := WithoutProbes(e);
    && (pester && n == "pre-init" ==> GateRests(f, w))
    && (n == "lint" ==> !Has(e, Named(InstallMarkdownlint)))
    && (f.CiOrchestrated? ==>
        && (n == "preflight" || n == "probe" ==> Has(w, Checkout))
        && (PesterJob(n) ==> Has(w, PostsSessionIndex))
        && (PesterJob(n) || n == "drift" ==> Has(w, GuardsRunner))
        && (n == "probe" ==> RerunReady(e)))
  }

  /** The exact condition under which one run of a rewired job reaches a fixed point. */
  predicate Settles(f: File, pester: bool, n: string, s: seq<Step>) {
    var e := EarlySteps(f, pester, n, s);
    RolesKept(f, pester, n, e) && AnchorsClear(f, n, WireProbesSteps(e, ProbeDir(n)))
  }

  /** The early rewrites have nothing left to do, one way or the other. */
  predicate EarlyRests(f: File, pester: bool, n: string, s: seq<Step>) {
    && Normal(s)
    && (pester && n == "pre-init" ==> GateRests(f, s))
    && (f.CiOrchestrated? ==> OrchestratedReady(n, s))
    && (n == "lint" ==> LintReady(s) && (f.CiOrchestrated? ==> DriftGateReady(s)))
  }

  lemma {:induction false} EarlyRestsFixed(f: File, pester: bool, n: string, s: seq<Step>)
    requires EarlyRests(f, pester, n, s)
    ensures EarlySteps(f, pester, n, s) == s
  {
    if pester && n == "pre-init" && !PreInitReady(s) {
      GateIsHintFixed(s);
      assert OrchestratedSteps(n, OpeningSteps(pester, n, s)) == s;
    } else {
      EarlyFixed(f, pester, n, s);
    }
  }

  // ---------------------------------------------------------------- what the early rewrites leave

  lemma OpeningSettles(pester: bool, n: string, s: seq<Step>)
    ensures Normal(OpeningSteps(pester, n, s))
  {
    NormalizeNormal(if pester && n == "pre-init" then PreInitSteps(s) else s);
  }

  lemma AppendNormal(s: seq<Step>, guard: Selector, x: Step)
    requires Normal(s) && HostedNormal(x) == x
    ensures Normal(AppendUnless(s, guard, x))
  {
    if !Has(s, guard) {
      assert s + [x] == Insert(s, |s|, x);
      NormalInsert(s, |s|, x);
    }
  }

  /** The rewrites of the orchestrated file before the re-run hint. */
  function RoleSteps(n: string, s: seq<Step>): seq<Step> {
    var a := if n == "preflight" then HostedPreflightSteps(s) else s;
    var b := if PesterJob(n) then AppendUnless(a, PostsSessionIndex, SessionPostStep(SessionPost, MatrixResults, MatrixArtifact)) else a;
    if PesterJob(n) || n == "drift" then AppendUnless(b, GuardsRunner, UnblockGuardStep(Snapshot(n))) else b
  }

  lemma AppendSettles(s: seq<Step>, guard: Selector, x: Step)
    requires Normal(s) && HostedNormal(x) == x && Is(x, guard)
    ensures Normal(AppendUnless(s, guard, x)) && Has(AppendUnless(s, guard, x), guard)
    ensures forall sel | Has(s, sel) :: Has(AppendUnless(s, guard, x), sel)
  {
    AppendNormal(s, guard, x);
    AppendHas(s, guard, x, guard);
    forall sel | Has(s, sel) ensures Has(AppendUnless(s, guard, x), sel) { AppendHas(s, guard, x, sel); }
  }

  lemma {:induction false} RoleSettles(n: string, s: seq<Step>)
    requires Normal(s)
    ensures var t := RoleSteps(n, s);
      && Normal(t)
      && (n == "preflight" ==> PreflightReady(t))
      && (PesterJob(n) ==> Has(t, PostsSessionIndex))
      && (PesterJob(n) || n == "drift" ==> Has(t, GuardsRunner))
  {
    if n == "preflight" {
      PreflightSettles(s);
    } else {
      var post := SessionPostStep(SessionPost, MatrixResults, MatrixArtifact);
      var b := if PesterJob(n) then AppendUnless(s, PostsSessionIndex, post) else s;
      AppendSettles(s, PostsSessionIndex, post);
      AppendSettles(b, GuardsRunner, UnblockGuardStep(Snapshot(n)));
    }
  }

  /** What the orchestrated rewrites always achieve; only the probe job can undo its own hint. */
  predicate OrchestratedDone(n: string, s: seq<Step>) {
    && (n != "probe" ==> OrchestratedReady(n, s))
    && (n == "probe" ==> InteractivityReady(s))
  }

  lemma {:induction false} RoleAfterRerun(n: string, s: seq<Step>)
    requires Normal(s) && (n == "preflight" ==> PreflightReady(s)) && (PesterJob(n) ==> Has(s, PostsSessionIndex))
    requires PesterJob(n) || n == "drift" ==> Has(s, GuardsRunner)
    ensures var t := RerunAfterSummarySteps(s);
      && Normal(t) && RerunReady(t)
      && (n == "preflight" ==> PreflightReady(t))
      && (PesterJob(n) ==> Has(t, PostsSessionIndex))
      && (PesterJob(n) || n == "drift" ==> Has(t, GuardsRunner))
  {
    RerunSettles(s);
    if n == "preflight" {
      RerunKeeps(s, Checkout);
      RerunOther(s, VerifyRunner);
    }
    if PesterJob(n) { RerunKeeps(s, PostsSessionIndex); }
    if PesterJob(n) || n == "drift" { RerunKeeps(s, GuardsRunner); }
  }

  lemma {:induction false} OrchestratedSettles(n: string, s: seq<Step>)
    requires Normal(s)
    ensures Normal(OrchestratedSteps(n, s)) && OrchestratedDone(n, OrchestratedSteps(n, s))
  {
    RoleSettles(n, s);
    RoleAfterRerun(n, RoleSteps(n, s));
    var d := RerunAfterSummarySteps(RoleSteps(n, s));
    if n == "windows-single" { RerunInJobSettles(d, true); }
    else if n == "publish" { RerunInJobSettles(d, false); }
    else if n == "probe" { InteractivitySettles(d); }
  }

  lemma {:induction false} DriftGateArranged(s: seq<Step>)
    requires LintArranged(s)
    ensures LintArranged(DriftGateSteps(s))
  {
    DriftGateOther(s, Named(RunMarkdownlint));
    DriftGateOther(s, Named(RunMarkdownlintNonBlocking));
    DriftGateOther(s, Named(RunMarkdownlintScoped));
    DriftGateOther(s, Named(InstallActionlint));
    DriftGateOther(s, Named(RunActionlint));
    DriftGateOther(s, Named(SetupNode));
    assert MarkdownlintName(DriftGateSteps(s)) == MarkdownlintName(s);
  }

  lemma RerunReadyFrom(s: seq<Step>, t: seq<Step>)
    requires RerunReady(s)
    requires First(t, CategorySummary) == First(s, CategorySummary) && First(t, Named(RerunMatrix)) == First(s, Named(RerunMatrix))
    ensures RerunReady(t)
  {
  }

  lemma DriftGateKeepsRerun(s: seq<Step>)
    requires RerunReady(s)
    ensures RerunReady(DriftGateSteps(s))
  {
    DriftGateOther(s, CategorySummary);
    DriftGateOther(s, Named(RerunMatrix));
    RerunReadyFrom(s, DriftGateSteps(s));
  }

  lemma LintLeavesSummary(s: seq<Step>)
    ensures First(LintSteps(s), CategorySummary) == First(s, CategorySummary)
  {
    forall st | LintNamed(st) ensures !Is(st, CategorySummary) {}
    LintOther(s, CategorySummary);
  }

  lemma LintLeavesHint(s: seq<Step>)
    ensures First(LintSteps(s), Named(RerunMatrix)) == First(s, Named(RerunMatrix))
  {
    forall st | LintNamed(st) ensures !Is(st, Named(RerunMatrix)) {}
    LintOther(s, Named(RerunMatrix));
  }

  lemma LintLeavesRerun(s: seq<Step>, t: seq<Step>)
    requires RerunReady(s) && t == LintSteps(s)
    ensures RerunReady(t)
  {
    LintLeavesSummary(s);
    LintLeavesHint(s);
    RerunReadyFrom(s, t);
  }

  lemma LintKeepsRerun(s: seq<Step>)
    requires RerunReady(s)
    ensures RerunReady(LintSteps(s)) && RerunReady(DriftGateSteps(LintSteps(s)))
  {
    LintLeavesRerun(s, LintSteps(s));
    DriftGateKeepsRerun(LintSteps(s));
  }

  lemma LintJobSettles(f: File, s: seq<Step>)
    requires Normal(s) && RerunReady(s)
    ensures var t := LintJobSteps(f, "lint", s);
      Normal(t) && LintArranged(t) && (f.CiOrchestrated? ==> DriftGateReady(t)) && RerunReady(t)
  {
    LintNormal(s);
    LintSettles(s);
    LintKeepsRerun(s);
    DriftGateSettles(LintSteps(s));
    DriftGateArranged(LintSteps(s));
  }

  lemma LintJobPlain(f: File, s: seq<Step>)
    requires Normal(s) && !f.CiOrchestrated?
    ensures Normal(LintJobSteps(f, "lint", s)) && LintArranged(LintJobSteps(f, "lint", s))
  {
    LintNormal(s);
    LintSettles(s);
  }

  lemma {:induction false} LintEarlySettles(f: File, a: seq<Step>)
    requires Normal(a)
    ensures var e := LintJobSteps(f, "lint", if f.CiOrchestrated? then OrchestratedSteps("lint", a) else a);
      && Normal(e) && LintArranged(e)
      && (f.CiOrchestrated? ==> OrchestratedDone("lint", e) && DriftGateReady(e))
  {
    if f.CiOrchestrated? {
      OrchestratedSettles("lint", a);
      LintJobSettles(f, OrchestratedSteps("lint", a));
    } else {
      LintJobPlain(f, a);
    }
  }

  /** What the early rewrites leave in every job, before anything is taken out. */
  lemma {:induction false} EarlySettles(f: File, pester: bool, n: string, s: seq<Step>)
    ensures var e := EarlySteps(f, pester, n, s);
      && Normal(e)
      && (f.CiOrchestrated? ==> OrchestratedDone(n, e))
      && (n == "lint" ==> LintArranged(e) && (f.CiOrchestrated? ==> DriftGateReady(e)))
  {
    var a := OpeningSteps(pester, n, s);
    OpeningSettles(pester, n, s);
    if n == "lint" {
      LintEarlySettles(f, a);
    } else if f.CiOrchestrated? {
      OrchestratedSettles(n, a);
    }
  }

  // ---------------------------------------------------------------- after J1 and J2 are taken out

  lemma ReadyWithout(s: seq<Step>, sel: Selector, e: Edit)
    requires Ready(s, sel, e) && !IsJProbe(First(s, sel).value)
    ensures Ready(WithoutProbes(s), sel, e)
  {
    WithoutFirst(s, sel);
  }

  lemma NamedWithout(s: seq<Step>, n: Name)
    requires !n.WireJ1? && !n.WireJ2?
    ensures First(WithoutProbes(s), Named(n)) == First(s, Named(n))
  {
    WithoutFirst(s, Named(n));
  }

  lemma RerunReadyIff(s: seq<Step>, t: seq<Step>)
    requires First(t, CategorySummary) == First(s, CategorySummary) && First(t, Named(RerunMatrix)) == First(s, Named(RerunMatrix))
    ensures RerunReady(t) == RerunReady(s)
  {
    if RerunReady(s) { RerunReadyFrom(s, t); }
    if RerunReady(t) { RerunReadyFrom(t, s); }
  }

  lemma {:induction false} RerunWithout(s: seq<Step>)
    ensures RerunReady(WithoutProbes(s)) == RerunReady(s)
  {
    NamedWithout(s, RerunMatrix);
    WithoutFirst(s, CategorySummary);
    RerunReadyIff(s, WithoutProbes(s));
  }

  lemma {:induction false} LintWithout(s: seq<Step>)
    requires LintArranged(s)
    ensures LintArranged(WithoutProbes(s))
  {
    NamedWithout(s, RunMarkdownlint);
    NamedWithout(s, RunMarkdownlintNonBlocking);
    NamedWithout(s, RunMarkdownlintScoped);
    NamedWithout(s, InstallActionlint);
    NamedWithout(s, RunActionlint);
    NamedWithout(s, SetupNode);
  }

  lemma PreflightWithout(e: seq<Step>)
    requires PreflightReady(e) && Has(WithoutProbes(e), Checkout)
    ensures PreflightReady(WithoutProbes(e))
  {
    ReadyWithout(e, VerifyRunner, HostedEdit);
  }

  lemma ProbeWithout(e: seq<Step>)
    requires InteractivityReady(e) && Has(WithoutProbes(e), Checkout)
    ensures InteractivityReady(WithoutProbes(e))
  {
    ReadyWithout(e, WithId("out"), ProbeEdit);
  }

  lemma {:induction false} OrchestratedWithout(n: string, e: seq<Step>)
    requires OrchestratedDone(n, e) && RolesKept(CiOrchestrated, false, n, e)
    ensures OrchestratedReady(n, WithoutProbes(e))
  {
    RerunWithout(e);
    if n == "preflight" {
      PreflightWithout(e);
    } else if n == "probe" {
      ProbeWithout(e);
    } else {
      NamedWithout(e, RerunSingle);
      NamedWithout(e, RerunMatrix);
    }
  }

  lemma {:induction false} RestsWithout(f: File, pester: bool, n: string, s: seq<Step>)
    requires RolesKept(f, pester, n, EarlySteps(f, pester, n, s))
    ensures EarlyRests(f, pester, n, WithoutProbes(EarlySteps(f, pester, n, s)))
  {
    var e := EarlySteps(f, pester, n, s);
    EarlySettles(f, pester, n, s);
    RewiredNormal(f, n, e);
    if f.CiOrchestrated? { OrchestratedWithout(n, e); }
    if n == "lint" {
      LintWithout(e);
      NamedWithout(e, InstallMarkdownlint);
      NamedWithout(e, NonLabviewChecks);
    }
  }

  lemma AlikeGateIsHint(s: seq<Step>, t: seq<Step>)
    requires Alike(s, t)
    ensures GateIsHint(s) == GateIsHint(t)
  {
    AlikeAt(s, t, PreInitGate);
    AlikeAt(s, t, WithId("out"));
    AlikeAt(s, t, CategorySummary);
    AlikeAt(s, t, Named(RerunMatrix));
    AlikeRerun(s, t);
  }

  lemma AlikeRests(f: File, pester: bool, n: string, s: seq<Step>, t: seq<Step>)
    requires EarlyRests(f, pester, n, s) && Alike(s, t) && Normal(t)
    ensures EarlyRests(f, pester, n, t)
  {
    if f.CiOrchestrated? { AlikeOrchestrated(n, s, t); }
    if n == "lint" { AlikeLint(s, t); }
    if n == "pre-init" { AlikePreInit(s, t); AlikeGateIsHint(s, t); }
  }

  /** A job that settles is left alone by the second run. */
  lemma {:induction false} SettlesFixed(f: File, pester: bool, n: string, s: seq<Step>)
    requires Rewires(f) && Settles(f, pester, n, s)
    ensures var q := RewiredSteps(f, pester, n, s);
      && RewiredSteps(f, pester, n, q) == q
      && Placed(q, ProbeDir(n))
  {
    var e, dir, ps := EarlySteps(f, pester, n, s), ProbeDir(n), LatePlacements(f, n);
    var q := RewiredSteps(f, pester, n, s);
    RestsWithout(f, pester, n, s);
    EarlySettles(f, pester, n, s);
    RewiredAlike(f, n, e);
    RewiredNormal(f, n, e);
    AlikeRests(f, pester, n, WithoutProbes(e), q);
    EarlyRestsFixed(f, pester, n, q);
    LateGood(f, n);
    GoodIsSafe(ps, dir);
    WirePlaced(e, dir);
    ClearIff(f, n, WireProbesSteps(e, dir));
    ClearPlaced(WireProbesSteps(e, dir), ps, dir);
    WireFixed(q, dir);
    PlaceAllTwice(WireProbesSteps(e, dir), ps);
  }
}
