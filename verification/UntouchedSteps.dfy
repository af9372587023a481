/**
 What the rewired files keep: every step that no rewrite of its job targets survives
 unmodified, in its original order, and J1/J2 end up directly behind the first checkout.
 */
module UntouchedSteps {
  import opened Options
  import opened Texts
  import opened WorkflowVocabulary
  import opened StepLists
  import opened WorkflowStages
  import opened StepFacts
  import opened StageReadiness
  import opened RewiredJobs
  import opened RewiredFixedPoint
  import opened RewiredSettling

  /** A rewrite of the first selected step: that step, and what the edit makes of it. */
  predicate Revises(found: Option<Step>, e: Edit, st: Step) {
    found.Some? && (st == found.value || st == Edited(e, found.value))
  }

  /** The same, or the step inserted where none is selected. */
  predicate Reworks(found: Option<Step>, e: Edit, x: Step, st: Step) {
    Revises(found, e, st) || (found.None? && st == x)
  }

  predicate AddsFor(s: seq<Step>, guard: Selector, x: Step, st: Step) {
    !Has(s, guard) && st == x
  }

  predicate GateTouches(s: seq<Step>, st: Step) {
    Has(s, PreInitGate) && (Revises(First(s, PreInitGate), GateEdit, st) || AddsFor(s, WithId("out"), DOCS_ONLY_STEP, st))
  }

  predicate HostedTouches(s: seq<Step>, st: Step) {
    exists y | y in s :: HostedNormal(y) != y && (st == y || st == HostedNormal(y))
  }

  predicate RoleTouches(n: string, s: seq<Step>, st: Step) {
    || (n == "preflight" && (AddsFor(s, Checkout, BARE_CHECKOUT, st) || Reworks(First(s, VerifyRunner), HostedEdit, PREFLIGHT_STEP, st)))
    || (PesterJob(n) && AddsFor(s, PostsSessionIndex, SessionPostStep(SessionPost, MatrixResults, MatrixArtifact), st))
    || ((PesterJob(n) || n == "drift") && AddsFor(s, GuardsRunner, UnblockGuardStep(Snapshot(n)), st))
  }

  predicate HintTouches(n: string, s: seq<Step>, st: Step) {
    || ((Has(s, CategorySummary) || n == "publish") && Reworks(First(s, Named(RerunMatrix)), RerunEdit(false), RerunStep(false), st))
    || (n == "windows-single" && Reworks(First(s, Named(RerunSingle)), RerunEdit(true), RerunStep(true), st))
  }

  predicate ProbeTouches(s: seq<Step>, st: Step) {
    AddsFor(s, Checkout, BARE_CHECKOUT, st) || Reworks(First(s, WithId("out")), ProbeEdit, PROBE_STEP, st)
  }

  predicate LintTouches(s: seq<Step>, st: Step) {
    || Reworks(First(s, Named(InstallActionlint)), InstallEdit, INSTALL_STEP, st)
    || Reworks(First(s, Named(RunActionlint)), RunActionlintEdit, RUN_ACTIONLINT_STEP, st)
    || NodeTouches(s, st)
  }

  predicate NodeTouches(s: seq<Step>, st: Step) {
    || Reworks(First(s, Named(SetupNode)), NodeEdit, NODE_STEP, st)
    || First(s, Named(InstallMarkdownlint)) == Some(st)
    || Reworks(First(s, Named(MarkdownlintName(s))), MarkdownlintEdit, MARKDOWNLINT_STEP, st)
  }

  predicate OrchestratedTouches(n: string, s: seq<Step>, st: Step) {
    || RoleTouches(n, s, st)
    || HintTouches(n, s, st)
    || (n == "probe" && ProbeTouches(RerunAfterSummarySteps(s), st))
    || (n == "lint" && Revises(First(s, Named(NonLabviewChecks)), DriftGateEdit, st))
  }

  /**
   The steps that a run over job `n` inserts, edits, replaces or deletes: the first one each
   rewrite looks up and what becomes of it, or the step added where the lookup finds none,
   the hosted steps whose body or shell is off, and J1 and J2.
   */
  predicate Touched(f: File, pester: bool, n: string, s: seq<Step>, st: Step) {
    var gated := if pester && n == "pre-init" then PreInitSteps(s) else s;
    || IsJProbe(st)
    || (pester && n == "pre-init" && GateTouches(s, st))
    || HostedTouches(gated, st)
    || (f.CiOrchestrated? && OrchestratedTouches(n, NormalizeHosted(gated), st))
    || (n == "lint" && LintTouches(NormalizeHosted(gated), st))
  }

  /** Told by the name, the id or the action of a step alone: what a run over job `n` can touch in any list. */
  predicate Targets(f: File, pester: bool, n: string, st: Step) {
    st.Step? && (
      || IsJProbe(st)
      || (st.name.Some? && (st.name.value.HostedPreflight? || st.name.value.HostedNotice?))
      || (pester && n == "pre-init" && (Is(st, PreInitGate) || st.id == Some("out")))
      || (n == "lint" && LintNamed(st))
      || (f.CiOrchestrated? && OrchestratedTarget(n, st)))
  }

  predicate OrchestratedTarget(n: string, st: Step)
    requires st.Step?
  {
    || st.name == Some(RerunMatrix)
    || (n == "preflight" && (Is(st, VerifyRunner) || st == BARE_CHECKOUT))
    || (PesterJob(n) && (st.name == Some(SessionPost) || st.name == Some(UnblockGuard)))
    || (n == "drift" && st.name == Some(UnblockGuard))
    || (n == "windows-single" && st.name == Some(RerunSingle))
    || (n == "probe" && (st.id == Some("out") || st == BARE_CHECKOUT))
    || (n == "lint" && st.name == Some(NonLabviewChecks))
  }

  /** The wire steps that a run puts into a list for the first time. */
  predicate Added(f: File, n: string, s: seq<Step>, st: Step) {
    st !in s && exists p :: p in LatePlacements(f, n) && p.step == st
  }

  /** The steps outside `target`, in order. */
  function Others(s: seq<Step>, target: Step -> bool): seq<Step> {
    if s == [] then [] else (if target(s[0]) then [] else [s[0]]) + Others(s[1..], target)
  }

  lemma {:induction false} OthersConcat(s: seq<Step>, t: seq<Step>, target: Step -> bool)
    ensures Others(s + t, target) == Others(s, target) + Others(t, target)
  {
    if s == [] {
      assert s + t == t;
    } else {
      assert (s + t)[1..] == s[1..] + t;
      OthersConcat(s[1..], t, target);
    }
  }

  lemma {:induction false} OthersInsert(s: seq<Step>, k: nat, x: Step, target: Step -> bool)
    requires k <= |s| && target(x)
    ensures Others(Insert(s, k, x), target) == Others(s, target)
  {
    assert s == s[..k] + s[k..] && Insert(s, k, x) == (s[..k] + [x]) + s[k..];
    OthersConcat(s[..k], s[k..], target);
    OthersConcat(s[..k] + [x], s[k..], target);
    OthersConcat(s[..k], [x], target);
  }

  lemma OthersUpdate(s: seq<Step>, i: nat, y: Step, target: Step -> bool)
    requires i < |s| && target(s[i]) && target(y)
    ensures Others(s[i := y], target) == Others(s, target) && Others(Remove(s, i), target) == Others(s, target)
  {
    var r := Remove(s, i);
    assert s == Insert(r, i, s[i]) && s[i := y] == Insert(r, i, y);
    OthersInsert(r, i, s[i], target);
    OthersInsert(r, i, y, target);
  }

  lemma OthersRevise(s: seq<Step>, sel: Selector, e: Edit, target: Step -> bool)
    requires forall st | Revises(First(s, sel), e, st) :: target(st)
    ensures Others(Revise(s, sel, e), target) == Others(s, target)
  {
    if Has(s, sel) {
      var y := s[Find(s, sel)];
      assert Revises(First(s, sel), e, y) && Revises(First(s, sel), e, Edited(e, y));
      OthersUpdate(s, Find(s, sel), Edited(e, y), target);
    }
  }

  lemma OthersEnsure(s: seq<Step>, sel: Selector, e: Edit, k: nat, x: Step, target: Step -> bool)
    requires k <= |s| && forall st | Reworks(First(s, sel), e, x, st) :: target(st)
    ensures Others(Ensure(s, sel, e, k, x), target) == Others(s, target)
  {
    if Has(s, sel) {
      OthersRevise(s, sel, e, target);
    } else {
      assert Reworks(First(s, sel), e, x, x);
      OthersInsert(s, k, x, target);
    }
  }

  lemma OthersAppend(s: seq<Step>, guard: Selector, x: Step, target: Step -> bool)
    requires AddsFor(s, guard, x, x) ==> target(x)
    ensures Others(AppendUnless(s, guard, x), target) == Others(s, target)
  {
    if !Has(s, guard) {
      assert s + [x] == Insert(s, |s|, x);
      OthersInsert(s, |s|, x, target);
    }
  }

  /** Placements insert targets only, where they are not at rest already. */
  lemma {:induction false} OthersPlaceAll(s: seq<Step>, ps: seq<Placement>, target: Step -> bool)
    requires forall p | p in ps :: target(p.step) || Has(s, p.guard)
    ensures Others(PlaceAll(s, ps), target) == Others(s, target)
    decreases ps
  {
    if ps != [] {
      if !Rests(s, ps[0]) {
        OthersInsert(s, Spot(s, ps[0]), ps[0].step, target);
        forall p | p in ps && Has(s, p.guard) ensures Has(Place(s, ps[0]), p.guard) { HasInsert(s, Spot(s, ps[0]), ps[0].step, p.guard); }
      }
      OthersPlaceAll(Place(s, ps[0]), ps[1..], target);
    }
  }

  lemma {:induction false} OthersWithout(s: seq<Step>, target: Step -> bool)
    requires forall st | IsJProbe(st) :: target(st)
    ensures Others(WithoutProbes(s), target) == Others(s, target)
  {
    if s != [] { OthersWithout(s[1..], target); }
  }

  lemma {:induction false} OthersNormalize(s: seq<Step>, target: Step -> bool)
    requires forall y | y in s && HostedNormal(y) != y :: target(y) && target(HostedNormal(y))
    ensures Others(NormalizeHosted(s), target) == Others(s, target)
  {
    if s != [] {
      OthersNormalize(s[1..], target);
      assert NormalizeHosted(s)[1..] == NormalizeHosted(s[1..]);
      assert s[0] in s;
    }
  }

  lemma OthersInsertTwo(s: seq<Step>, k: nat, x: Step, y: Step, target: Step -> bool)
    requires k <= |s| && target(x) && target(y)
    ensures |Insert(s, k, x)| == |s| + 1 && Others(Insert(Insert(s, k, x), k + 1, y), target) == Others(s, target)
  {
    InsertIndex(s, k, x);
    OthersInsert(s, k, x, target);
    OthersInsert(Insert(s, k, x), k + 1, y, target);
  }

  lemma OthersBehind(s: seq<Step>, x: Step, y: Step, target: Step -> bool)
    requires target(x) && target(y)
    ensures Others(Behind(s, x, y), target) == Others(s, target)
  {
    if Has(s, Checkout) { OthersInsertTwo(s, Find(s, Checkout) + 1, x, y, target); }
  }

  lemma JNamed(dir: Value)
    ensures IsJProbe(StepJ1(dir)) && IsJProbe(StepJ2(dir))
  {
  }

  lemma OthersWire(s: seq<Step>, dir: Value, target: Step -> bool)
    requires forall st | IsJProbe(st) :: target(st)
    ensures Others(WireProbesSteps(s, dir), target) == Others(s, target)
  {
    OthersWithout(s, target);
    JNamed(dir);
    OthersBehind(WithoutProbes(s), StepJ1(dir), StepJ2(dir), target);
  }

  // ---------------------------------------------------------------- the rewrites, one by one

  lemma GateOthers(s: seq<Step>, target: Step -> bool)
    requires forall st | GateTouches(s, st) :: target(st)
    ensures Others(PreInitSteps(s), target) == Others(s, target)
  {
    if Has(s, PreInitGate) {
      var gated := Revise(s, PreInitGate, GateEdit);
      forall st | Revises(First(s, PreInitGate), GateEdit, st) ensures target(st) { assert GateTouches(s, st); }
      OthersRevise(s, PreInitGate, GateEdit, target);
      GateKeepsId(s);
      if !Has(gated, WithId("out")) {
        assert GateTouches(s, DOCS_ONLY_STEP);
        OthersInsert(gated, Find(s, PreInitGate) + 1, DOCS_ONLY_STEP, target);
      }
    }
  }

  lemma GateKeepsId(s: seq<Step>)
    ensures Has(Revise(s, PreInitGate, GateEdit), WithId("out")) == Has(s, WithId("out"))
  {
    ReviseFirst(s, PreInitGate, GateEdit, WithId("out"));
  }

  lemma {:induction false} OpeningOthers(f: File, pester: bool, n: string, s: seq<Step>, target: Step -> bool)
    requires forall st | Touched(f, pester, n, s, st) :: target(st)
    ensures Others(OpeningSteps(pester, n, s), target) == Others(s, target)
  {
    var gated := if pester && n == "pre-init" then PreInitSteps(s) else s;
    if pester && n == "pre-init" {
      forall st | GateTouches(s, st) ensures target(st) { assert Touched(f, pester, n, s, st); }
      GateOthers(s, target);
    }
    forall y | y in gated && HostedNormal(y) != y ensures target(y) && target(HostedNormal(y)) {
      assert HostedTouches(gated, y) && HostedTouches(gated, HostedNormal(y));
      assert Touched(f, pester, n, s, y) && Touched(f, pester, n, s, HostedNormal(y));
    }
    OthersNormalize(gated, target);
  }

  lemma PreflightOthers(s: seq<Step>, target: Step -> bool)
    requires forall st | RoleTouches("preflight", s, st) :: target(st)
    ensures Others(HostedPreflightSteps(s), target) == Others(s, target)
  {
    assert AddsFor(s, Checkout, BARE_CHECKOUT, BARE_CHECKOUT) ==> RoleTouches("preflight", s, BARE_CHECKOUT);
    OthersCheckout(s, VerifyRunner, target);
    forall st | Reworks(First(s, VerifyRunner), HostedEdit, PREFLIGHT_STEP, st) ensures target(st) {
      assert RoleTouches("preflight", s, st);
    }
    OthersEnsure(WithCheckout(s), VerifyRunner, HostedEdit, if Has(s, Checkout) then 1 else 0, PREFLIGHT_STEP, target);
  }

  lemma OthersCheckout(s: seq<Step>, sel: Selector, target: Step -> bool)
    requires AddsFor(s, Checkout, BARE_CHECKOUT, BARE_CHECKOUT) ==> target(BARE_CHECKOUT)
    requires !Is(BARE_CHECKOUT, sel)
    ensures Others(WithCheckout(s), target) == Others(s, target)
    ensures First(WithCheckout(s), sel) == First(s, sel)
  {
    FirstCons(BARE_CHECKOUT, s, sel);
    if !Has(s, Checkout) {
      assert [BARE_CHECKOUT] + s == Insert(s, 0, BARE_CHECKOUT);
      OthersInsert(s, 0, BARE_CHECKOUT, target);
    }
  }

  lemma {:induction false} RolesOthers(n: string, s: seq<Step>, target: Step -> bool)
    requires forall st | RoleTouches(n, s, st) :: target(st)
    ensures Others(RoleSteps(n, s), target) == Others(s, target)
  {
    var post, guard := SessionPostStep(SessionPost, MatrixResults, MatrixArtifact), UnblockGuardStep(Snapshot(n));
    if n == "preflight" {
      PreflightOthers(s, target);
    } else if PesterJob(n) {
      assert AddsFor(s, PostsSessionIndex, post, post) ==> RoleTouches(n, s, post);
      assert AddsFor(s, GuardsRunner, guard, guard) ==> RoleTouches(n, s, guard);
      OthersAppend(s, PostsSessionIndex, post, target);
      AppendHas(s, PostsSessionIndex, post, GuardsRunner);
      OthersAppend(AppendUnless(s, PostsSessionIndex, post), GuardsRunner, guard, target);
    } else if n == "drift" {
      assert AddsFor(s, GuardsRunner, guard, guard) ==> RoleTouches(n, s, guard);
      OthersAppend(s, GuardsRunner, guard, target);
    }
  }

  /** The role rewrites leave the re-run hint and the summary it follows to be found as before. */
  lemma {:induction false} RolesLeaveHint(n: string, s: seq<Step>)
    ensures First(RoleSteps(n, s), Named(RerunMatrix)) == First(s, Named(RerunMatrix))
    ensures Has(RoleSteps(n, s), CategorySummary) == Has(s, CategorySummary)
  {
    if n == "preflight" {
      PreflightLeavesHint(s);
    } else if PesterJob(n) {
      var a := AppendUnless(s, PostsSessionIndex, SessionPostStep(SessionPost, MatrixResults, MatrixArtifact));
      AppendLeavesHint(s, PostsSessionIndex, SessionPostStep(SessionPost, MatrixResults, MatrixArtifact));
      AppendLeavesHint(a, GuardsRunner, UnblockGuardStep(Snapshot(n)));
    } else if n == "drift" {
      AppendLeavesHint(s, GuardsRunner, UnblockGuardStep(Snapshot(n)));
    }
  }

  lemma {:induction false} AppendLeavesHint(s: seq<Step>, guard: Selector, x: Step)
    requires !Is(x, Named(RerunMatrix)) && !Is(x, CategorySummary)
    ensures First(AppendUnless(s, guard, x), Named(RerunMatrix)) == First(s, Named(RerunMatrix))
    ensures Has(AppendUnless(s, guard, x), CategorySummary) == Has(s, CategorySummary)
  {
    assert s + [x] == Insert(s, |s|, x);
    FindInsert(s, |s|, x, Named(RerunMatrix));
    HasInsert(s, |s|, x, CategorySummary);
  }

  lemma CheckoutLeavesHint(s: seq<Step>)
    ensures First(WithCheckout(s), Named(RerunMatrix)) == First(s, Named(RerunMatrix))
    ensures Has(WithCheckout(s), CategorySummary) == Has(s, CategorySummary)
  {
    FirstCons(BARE_CHECKOUT, s, Named(RerunMatrix));
    FirstCons(BARE_CHECKOUT, s, CategorySummary);
  }

  lemma VerifyEdit(st: Step, sel: Selector)
    requires Is(st, VerifyRunner)
    ensures Is(Edited(HostedEdit, st), sel) == Is(st, sel)
  {
    SelectorsIgnore(st, Edited(HostedEdit, st), sel);
  }

  lemma VerifyNotHint(st: Step)
    requires Is(st, VerifyRunner)
    ensures !Is(st, Named(RerunMatrix))
  {
  }

  lemma VerifyLeaves(s: seq<Step>, k: nat, x: Step, sel: Selector)
    requires k <= |s| && !Is(x, sel)
    ensures Has(Ensure(s, VerifyRunner, HostedEdit, k, x), sel) == Has(s, sel)
    ensures Find(s, sel) != Find(s, VerifyRunner) || !Has(s, sel) ==> First(Ensure(s, VerifyRunner, HostedEdit, k, x), sel) == First(s, sel)
  {
    var i := Find(s, VerifyRunner);
    if i < |s| {
      VerifyEdit(s[i], sel);
      UpdateFirst(s, i, Edited(HostedEdit, s[i]), sel);
    } else {
      FindInsert(s, k, x, sel);
      HasInsert(s, k, x, sel);
    }
  }

  lemma VerifyLeavesHint(s: seq<Step>, k: nat, x: Step)
    requires k <= |s| && !Is(x, Named(RerunMatrix)) && !Is(x, CategorySummary)
    ensures First(Ensure(s, VerifyRunner, HostedEdit, k, x), Named(RerunMatrix)) == First(s, Named(RerunMatrix))
    ensures Has(Ensure(s, VerifyRunner, HostedEdit, k, x), CategorySummary) == Has(s, CategorySummary)
  {
    VerifyLeaves(s, k, x, Named(RerunMatrix));
    VerifyLeaves(s, k, x, CategorySummary);
    if Has(s, VerifyRunner) { VerifyNotHint(s[Find(s, VerifyRunner)]); }
  }

  lemma {:induction false} PreflightLeavesHint(s: seq<Step>)
    ensures First(HostedPreflightSteps(s), Named(RerunMatrix)) == First(s, Named(RerunMatrix))
    ensures Has(HostedPreflightSteps(s), CategorySummary) == Has(s, CategorySummary)
  {
    CheckoutLeavesHint(s);
    VerifyLeavesHint(WithCheckout(s), if Has(s, Checkout) then 1 else 0, PREFLIGHT_STEP);
  }

  predicate HintTargets(n: string, s: seq<Step>, target: Step -> bool) {
    (Has(s, CategorySummary) || n == "publish") ==>
      match First(s, Named(RerunMatrix))
      case Some(y) => target(y) && target(Edited(RerunEdit(false), y))
      case None => target(RerunStep(false))
  }

  lemma {:induction false} HintOthers(n: string, s: seq<Step>, target: Step -> bool)
    requires HintTargets(n, s, target)
    ensures Others(RerunAfterSummarySteps(s), target) == Others(s, target)
    ensures n == "publish" ==> Others(RerunInJobSteps(RerunAfterSummarySteps(s), false), target) == Others(s, target)
  {
    var d := RerunAfterSummarySteps(s);
    if Has(s, CategorySummary) {
      OthersEnsure(s, Named(RerunMatrix), RerunEdit(false), Find(s, CategorySummary) + 1, RerunStep(false), target);
      HintReady(s);
      EnsureReady(d, Named(RerunMatrix), RerunEdit(false), |d|, RerunStep(false));
    } else if n == "publish" {
      OthersEnsure(s, Named(RerunMatrix), RerunEdit(false), |s|, RerunStep(false), target);
    }
  }

  lemma {:induction false} HintReady(s: seq<Step>)
    requires Has(s, CategorySummary)
    ensures Ready(RerunAfterSummarySteps(s), Named(RerunMatrix), RerunEdit(false))
  {
    HintSettles(s, false, Find(s, CategorySummary) + 1);
  }

  lemma SingleOthers(s: seq<Step>, target: Step -> bool)
    requires forall st | Reworks(First(s, Named(RerunSingle)), RerunEdit(true), RerunStep(true), st) :: target(st)
    ensures Others(RerunInJobSteps(RerunAfterSummarySteps(s), true), target) == Others(RerunAfterSummarySteps(s), target)
  {
    var d := RerunAfterSummarySteps(s);
    RerunOther(s, Named(RerunSingle));
    OthersEnsure(d, Named(RerunSingle), RerunEdit(true), |d|, RerunStep(true), target);
  }

  lemma {:induction false} InteractivityOthers(s: seq<Step>, target: Step -> bool)
    requires forall st | ProbeTouches(s, st) :: target(st)
    ensures Others(InteractivitySteps(s), target) == Others(s, target)
  {
    assert AddsFor(s, Checkout, BARE_CHECKOUT, BARE_CHECKOUT) ==> ProbeTouches(s, BARE_CHECKOUT);
    OthersCheckout(s, WithId("out"), target);
    var t := WithCheckout(s);
    forall st | Reworks(First(s, WithId("out")), ProbeEdit, PROBE_STEP, st) ensures target(st) { assert ProbeTouches(s, st); }
    OthersEnsure(t, WithId("out"), ProbeEdit, if Has(t, Checkout) then Find(t, Checkout) + 1 else |t|, PROBE_STEP, target);
  }

  lemma {:induction false} HintsOthers(n: string, s: seq<Step>, target: Step -> bool)
    requires forall st | HintTouches(n, s, st) :: target(st)
    ensures HintTargets(n, RoleSteps(n, s), target)
    ensures n == "windows-single" ==> Others(RerunInJobSteps(RerunAfterSummarySteps(s), true), target) == Others(RerunAfterSummarySteps(s), target)
  {
    RolesLeaveHint(n, s);
    var found := First(s, Named(RerunMatrix));
    if Has(s, CategorySummary) || n == "publish" {
      match found
      case Some(y) => assert HintTouches(n, s, y) && HintTouches(n, s, Edited(RerunEdit(false), y));
      case None => assert HintTouches(n, s, RerunStep(false));
    }
    if n == "windows-single" {
      forall st | Reworks(First(s, Named(RerunSingle)), RerunEdit(true), RerunStep(true), st) ensures target(st) {
        assert HintTouches(n, s, st);
      }
      SingleOthers(s, target);
    }
  }

  lemma {:induction false} OrchestratedOthers(n: string, s: seq<Step>, target: Step -> bool)
    requires forall st | OrchestratedTouches(n, s, st) :: target(st)
    ensures Others(OrchestratedSteps(n, s), target) == Others(s, target)
  {
    forall st | RoleTouches(n, s, st) ensures target(st) { assert OrchestratedTouches(n, s, st); }
    forall st | HintTouches(n, s, st) ensures target(st) { assert OrchestratedTouches(n, s, st); }
    RolesOthers(n, s, target);
    HintsOthers(n, s, target);
    HintOthers(n, RoleSteps(n, s), target);
    if n == "probe" {
      forall st | ProbeTouches(RerunAfterSummarySteps(s), st) ensures target(st) { assert OrchestratedTouches(n, s, st); }
      InteractivityOthers(RerunAfterSummarySteps(s), target);
    }
  }

  lemma {:induction false} LintHeadOthers(s: seq<Step>, target: Step -> bool)
    requires forall st | LintTouches(s, st) :: target(st)
    ensures Has(LintInstall(s), Named(InstallActionlint))
    ensures Others(LintRun(LintInstall(s)), target) == Others(s, target)
  {
    LintInstallHas(s);
    var a := LintInstall(s);
    forall st | Reworks(First(s, Named(InstallActionlint)), InstallEdit, INSTALL_STEP, st) ensures target(st) { assert LintTouches(s, st); }
    OthersEnsure(s, Named(InstallActionlint), InstallEdit, if Has(s, Checkout) then Find(s, Checkout) + 1 else 0, INSTALL_STEP, target);
    LintInstallOther(s, Named(RunActionlint));
    forall st | Reworks(First(a, Named(RunActionlint)), RunActionlintEdit, RUN_ACTIONLINT_STEP, st) ensures target(st) { assert LintTouches(s, st); }
    OthersEnsure(a, Named(RunActionlint), RunActionlintEdit, Find(a, Named(InstallActionlint)) + 1, RUN_ACTIONLINT_STEP, target);
  }

  lemma LintHeadOther(s: seq<Step>, n: Name)
    requires !n.InstallActionlint? && !n.RunActionlint?
    ensures Has(LintInstall(s), Named(InstallActionlint))
    ensures First(LintRun(LintInstall(s)), Named(n)) == First(s, Named(n))
  {
    LintInstallHas(s);
    LintInstallOther(s, Named(n));
    LintRunOther(LintInstall(s), Named(n));
  }

  lemma LintHeadName(s: seq<Step>)
    ensures Has(LintInstall(s), Named(InstallActionlint))
    ensures MarkdownlintName(LintRun(LintInstall(s))) == MarkdownlintName(s)
  {
    LintInstallHas(s);
    InstallName(s);
    RunName(LintInstall(s));
  }

  /** What the rest of the lint rewrite looks up, it finds as before. */
  lemma {:induction false} LintTouchesAlike(s: seq<Step>, st: Step)
    ensures Has(LintInstall(s), Named(InstallActionlint))
    ensures NodeTouches(LintRun(LintInstall(s)), st) == NodeTouches(s, st)
  {
    LintHeadOther(s, SetupNode);
    LintHeadOther(s, InstallMarkdownlint);
    LintHeadName(s);
    LintHeadOther(s, MarkdownlintName(s));
  }

  lemma LintNodeOthers(s: seq<Step>, target: Step -> bool)
    requires forall st | NodeTouches(s, st) :: target(st)
    ensures Others(LintDropInstall(LintNode(s)), target) == Others(s, target)
  {
    forall st | Reworks(First(s, Named(SetupNode)), NodeEdit, NODE_STEP, st) ensures target(st) { assert NodeTouches(s, st); }
    OthersEnsure(s, Named(SetupNode), NodeEdit, Find(s, Named(MarkdownlintName(s))), NODE_STEP, target);
    var c := LintNode(s);
    NodeOther(s, Named(InstallMarkdownlint));
    if Has(c, Named(InstallMarkdownlint)) {
      var i := Find(c, Named(InstallMarkdownlint));
      assert NodeTouches(s, c[i]);
      OthersUpdate(c, i, c[i], target);
    }
  }

  lemma {:induction false} LintMarkdownOthers(s: seq<Step>, target: Step -> bool)
    requires forall st | NodeTouches(s, st) :: target(st)
    ensures var d := LintDropInstall(LintNode(s)); Others(LintMarkdown(d), target) == Others(d, target)
  {
    var c := LintNode(s);
    var d, m := LintDropInstall(c), MarkdownlintName(s);
    NodeName(s);
    DropName(c);
    NodeOther(s, Named(m));
    DropOther(c, Named(m));
    forall st | Reworks(First(d, Named(m)), MarkdownlintEdit, MARKDOWNLINT_STEP, st) ensures target(st) { assert NodeTouches(s, st); }
    OthersEnsure(d, Named(m), MarkdownlintEdit, |d|, MARKDOWNLINT_STEP, target);
  }

  lemma LintOthers(s: seq<Step>, target: Step -> bool)
    requires forall st | LintTouches(s, st) :: target(st)
    ensures Others(LintSteps(s), target) == Others(s, target)
  {
    LintHeadOthers(s, target);
    var b := LintRun(LintInstall(s));
    forall st | NodeTouches(b, st) ensures target(st) {
      LintTouchesAlike(s, st);
      assert LintTouches(s, st);
    }
    LintNodeOthers(b, target);
    LintMarkdownOthers(b, target);
  }

  lemma DriftGateOthers(s: seq<Step>, target: Step -> bool)
    requires forall st | Revises(First(s, Named(NonLabviewChecks)), DriftGateEdit, st) :: target(st)
    ensures Others(DriftGateSteps(LintSteps(s)), target) == Others(LintSteps(s), target)
  {
    LintOther(s, Named(NonLabviewChecks));
    OthersRevise(LintSteps(s), Named(NonLabviewChecks), DriftGateEdit, target);
  }

  /** The re-run hint leaves the lint steps to be found as before. */
  lemma HintLeavesLint(s: seq<Step>, st: Step)
    ensures LintTouches(RerunAfterSummarySteps(s), st) == LintTouches(s, st)
    ensures First(RerunAfterSummarySteps(s), Named(NonLabviewChecks)) == First(s, Named(NonLabviewChecks))
  {
    RerunOther(s, Named(InstallActionlint));
    RerunOther(s, Named(RunActionlint));
    RerunOther(s, Named(SetupNode));
    RerunOther(s, Named(InstallMarkdownlint));
    RerunOther(s, Named(NonLabviewChecks));
    HintLeavesMarkdown(s);
  }

  lemma {:induction false} HintLeavesMarkdown(s: seq<Step>)
    ensures MarkdownlintName(RerunAfterSummarySteps(s)) == MarkdownlintName(s)
    ensures var n := Named(MarkdownlintName(s)); First(RerunAfterSummarySteps(s), n) == First(s, n)
  {
    forall n | MarkdownName(n) ensures First(RerunAfterSummarySteps(s), Named(n)) == First(s, Named(n)) { RerunOther(s, Named(n)); }
    SameName(s, RerunAfterSummarySteps(s));
  }

  lemma {:induction false} LintJobOthers(f: File, s: seq<Step>, t: seq<Step>, target: Step -> bool)
    requires t == s || (f.CiOrchestrated? && t == RerunAfterSummarySteps(s))
    requires forall st | LintTouches(s, st) :: target(st)
    requires f.CiOrchestrated? ==> forall st | Revises(First(s, Named(NonLabviewChecks)), DriftGateEdit, st) :: target(st)
    ensures Others(LintJobSteps(f, "lint", t), target) == Others(t, target)
  {
    forall st | LintTouches(t, st) ensures target(st) { HintLeavesLint(s, st); }
    LintOthers(t, target);
    if f.CiOrchestrated? {
      HintLeavesLint(s, BLANK);
      DriftGateOthers(t, target);
    }
  }

  lemma {:induction false} EarlyOthers(f: File, pester: bool, n: string, s: seq<Step>, target: Step -> bool)
    requires forall st | Touched(f, pester, n, s, st) :: target(st)
    ensures Others(EarlySteps(f, pester, n, s), target) == Others(s, target)
  {
    OpeningOthers(f, pester, n, s, target);
    var a := OpeningSteps(pester, n, s);
    if f.CiOrchestrated? {
      forall st | OrchestratedTouches(n, a, st) ensures target(st) { assert Touched(f, pester, n, s, st); }
      OrchestratedOthers(n, a, target);
    }
    if n == "lint" {
      forall st | LintTouches(a, st) ensures target(st) { assert Touched(f, pester, n, s, st); }
      forall st | f.CiOrchestrated? && Revises(First(a, Named(NonLabviewChecks)), DriftGateEdit, st) ensures target(st) {
        assert OrchestratedTouches(n, a, st);
      }
      LintJobOthers(f, a, if f.CiOrchestrated? then OrchestratedSteps(n, a) else a, target);
    }
  }

  // ---------------------------------------------------------------- what is touched, told by its name

  lemma {:induction false} ReviseKeeps(found: Option<Step>, sel: Selector, e: Edit, st: Step)
    requires Revises(found, e, st) && found.Some? && Is(found.value, sel)
    requires match sel
      case Named(n) => n.RerunMatrix? || n.RerunSingle? || n.InstallActionlint? || n.RunActionlint? || n.SetupNode? || n.NonLabviewChecks?
      case WithId(_) => e.ProbeEdit?
      case VerifyRunner => e.HostedEdit?
      case PreInitGate => e.GateEdit?
      case _ => false
    requires sel.Named? ==> !e.ProbeEdit? && !e.MarkdownlintEdit? && (e.InstallEdit? ==> sel.name.InstallActionlint?)
    ensures Is(st, sel)
  {
  }

  lemma {:induction false} GateNamed(f: File, s: seq<Step>, st: Step)
    requires GateTouches(s, st)
    ensures Targets(f, true, "pre-init", st)
  {
    if Revises(First(s, PreInitGate), GateEdit, st) { ReviseKeeps(First(s, PreInitGate), PreInitGate, GateEdit, st); }
  }

  lemma HostedNamed(f: File, pester: bool, n: string, s: seq<Step>, st: Step)
    requires HostedTouches(s, st)
    ensures Targets(f, pester, n, st)
  {
  }

  lemma MarkdownNamed(st: Step)
    requires st.Step? && st.name.Some? && MarkdownName(st.name.value)
    ensures LintNamed(Edited(MarkdownlintEdit, st))
  {
  }

  lemma {:induction false} NodeTouchedNamed(s: seq<Step>, st: Step)
    requires NodeTouches(s, st)
    ensures LintNamed(st)
  {
    if Revises(First(s, Named(SetupNode)), NodeEdit, st) {
      ReviseKeeps(First(s, Named(SetupNode)), Named(SetupNode), NodeEdit, st);
    } else if Revises(First(s, Named(MarkdownlintName(s))), MarkdownlintEdit, st) {
      MarkdownNamed(First(s, Named(MarkdownlintName(s))).value);
    }
  }

  lemma {:induction false} LintTouchedNamed(s: seq<Step>, st: Step)
    requires LintTouches(s, st)
    ensures LintNamed(st)
  {
    var install, run := Named(InstallActionlint), Named(RunActionlint);
    if NodeTouches(s, st) {
      NodeTouchedNamed(s, st);
    } else if Revises(First(s, install), InstallEdit, st) {
      ReviseKeeps(First(s, install), install, InstallEdit, st);
    } else if Revises(First(s, run), RunActionlintEdit, st) {
      ReviseKeeps(First(s, run), run, RunActionlintEdit, st);
    }
  }

  lemma {:induction false} RoleNamed(n: string, s: seq<Step>, st: Step)
    requires RoleTouches(n, s, st)
    ensures st.Step? && OrchestratedTarget(n, st)
  {
    if Revises(First(s, VerifyRunner), HostedEdit, st) && n == "preflight" { ReviseKeeps(First(s, VerifyRunner), VerifyRunner, HostedEdit, st); }
  }

  lemma {:induction false} HintNamed(n: string, s: seq<Step>, st: Step)
    requires HintTouches(n, s, st)
    ensures st.Step? && OrchestratedTarget(n, st)
  {
  }

  lemma ProbeNamed(s: seq<Step>, st: Step)
    requires ProbeTouches(s, st)
    ensures st.Step? && OrchestratedTarget("probe", st)
  {
    if Revises(First(s, WithId("out")), ProbeEdit, st) { ReviseKeeps(First(s, WithId("out")), WithId("out"), ProbeEdit, st); }
  }

  lemma {:induction false} OrchestratedNamed(n: string, s: seq<Step>, st: Step)
    requires OrchestratedTouches(n, s, st)
    ensures st.Step? && OrchestratedTarget(n, st)
  {
    if RoleTouches(n, s, st) {
      RoleNamed(n, s, st);
    } else if HintTouches(n, s, st) {
      HintNamed(n, s, st);
    } else if n == "probe" {
      ProbeNamed(RerunAfterSummarySteps(s), st);
    }
  }

  /** Whatever a run touches bears one of the names, ids or actions that the rewrites of its job look for. */
  lemma {:induction false} TouchedNamed(f: File, pester: bool, n: string, s: seq<Step>, st: Step)
    requires Touched(f, pester, n, s, st)
    ensures Targets(f, pester, n, st)
  {
    var gated := if pester && n == "pre-init" then PreInitSteps(s) else s;
    if IsJProbe(st) {
    } else if pester && n == "pre-init" && GateTouches(s, st) {
      GateNamed(f, s, st);
    } else if HostedTouches(gated, st) {
      HostedNamed(f, pester, n, gated, st);
    } else if f.CiOrchestrated? && OrchestratedTouches(n, NormalizeHosted(gated), st) {
      OrchestratedNamed(n, NormalizeHosted(gated), st);
    } else {
      LintTouchedNamed(NormalizeHosted(gated), st);
    }
  }

  lemma {:induction false} OthersMembers(s: seq<Step>, target: Step -> bool)
    ensures forall st :: st in Others(s, target) <==> st in s && !target(st)
  {
    if s != [] {
      OthersMembers(s[1..], target);
      assert forall st :: st in s <==> st == s[0] || st in s[1..];
    }
  }

  /** What a placement inserts is no target of another rewrite. */
  lemma {:induction false} WireUntargeted(f: File, pester: bool, n: string, st: Step)
    requires WireStep(st) && !IsJProbe(st)
    ensures !Targets(f, pester, n, st)
  {
    WireStepUnseen(st, PreInitGate);
    WireStepUnseen(st, VerifyRunner);
  }

  /** A wire step that was there all along is still there when its placement comes, which then rests. */
  lemma WireStays(e: seq<Step>, dir: Value, p: Placement)
    requires GoodPlacement(p) && p.step in e
    ensures Has(WireProbesSteps(e, dir), p.guard)
  {
    WithoutMembers(e);
    var j := WireProbesSteps(e, dir);
    assert p.step in j;
    var i :| 0 <= i < |j| && j[i] == p.step;
    HasAt(j, p.guard, i);
  }

  lemma {:induction false} WireRests(f: File, pester: bool, n: string, s: seq<Step>, e: seq<Step>, target: Step -> bool, p: Placement)
    requires GoodPlacement(p) && p in LatePlacements(f, n)
    requires target(p.step) <==> Touched(f, pester, n, s, p.step) || Added(f, n, s, p.step)
    requires Others(e, target) == Others(s, target)
    ensures target(p.step) || Has(WireProbesSteps(e, ProbeDir(n)), p.guard)
  {
    if p.step in s {
      WireUntargeted(f, pester, n, p.step);
      if Touched(f, pester, n, s, p.step) { TouchedNamed(f, pester, n, s, p.step); }
      OthersMembers(s, target);
      OthersMembers(e, target);
      assert p.step in Others(e, target);
      WireStays(e, ProbeDir(n), p);
    }
  }

  /**
   The steps of a job that the run does not touch, later ones of an edited name and wire steps
   that were there among them, come out unmodified and in their original order; and what the
   run adds is touched or a wire step that was not there.
   */
  lemma {:induction false} UntouchedSurvive(f: File, pester: bool, n: string, s: seq<Step>)
    ensures var target := (st: Step) => Touched(f, pester, n, s, st) || Added(f, n, s, st);
      Others(RewiredSteps(f, pester, n, s), target) == Others(s, target)
  {
    var target := (st: Step) => Touched(f, pester, n, s, st) || Added(f, n, s, st);
    var e := EarlySteps(f, pester, n, s);
    EarlyOthers(f, pester, n, s, target);
    OthersWire(e, ProbeDir(n), target);
    LateGood(f, n);
    forall p | p in LatePlacements(f, n) ensures target(p.step) || Has(WireProbesSteps(e, ProbeDir(n)), p.guard) {
      WireRests(f, pester, n, s, e, target, p);
    }
    OthersPlaceAll(WireProbesSteps(e, ProbeDir(n)), LatePlacements(f, n), target);
  }

  /**
   J1 and J2 are the two steps directly after the first checkout, and the only steps of
   those names, exactly when no pending after-placement anchors on that checkout.
   */
  lemma {:induction false} ProbesPlacedIff(f: File, pester: bool, n: string, s: seq<Step>)
    requires Rewires(f)
    ensures Placed(RewiredSteps(f, pester, n, s), ProbeDir(n)) <==>
            AnchorsClear(f, n, WireProbesSteps(EarlySteps(f, pester, n, s), ProbeDir(n)))
  {
    var j := WireProbesSteps(EarlySteps(f, pester, n, s), ProbeDir(n));
    WirePlaced(EarlySteps(f, pester, n, s), ProbeDir(n));
    ClearIff(f, n, j);
    LateGood(f, n);
    PlacedAfterIff(j, LatePlacements(f, n), ProbeDir(n));
  }

  lemma PlacedAfterIff(j: seq<Step>, ps: seq<Placement>, dir: Value)
    requires Placed(j, dir) && GoodPlacements(ps)
    ensures Placed(PlaceAll(j, ps), dir) <==> Clear(j, ps)
  {
    GoodIsSafe(ps, dir);
    if Clear(j, ps) {
      ClearPlaced(j, ps, dir);
    } else {
      BlockedParts(j, ps, dir);
      PartedUnplaced(PlaceAll(j, ps), dir);
    }
  }
}
