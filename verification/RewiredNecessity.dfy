/**
 Necessity: a rewired job that a second run leaves alone met the settling condition.
 */
module RewiredNecessity {
  import opened Options
  import opened Texts
  import opened WorkflowVocabulary
  import opened StepLists
  import opened WorkflowStages
  import opened StepFacts
  import opened StageReadiness
  import opened RewiredJobs
  import opened RewiredFixedPoint
  import opened RewiredSettling

  // ---------------------------------------------------------------- only the updater's own J1 and J2

  /** The steps after which a wire step may have to be inserted. */
  predicate Anchors(st: Step) {
    Is(st, DetectsDrift) || (st.Step? && st.name.Some? && (
      st.name.value.EnsureInvokerStop? || st.name.value.UnblockGuard? ||
      st.name.value.AppendFinalSummary? || st.name.value.SummarizeOrchestrated?))
  }

  /** A step named J1 or J2 is one the updater wrote; under `strict`, no checkout is an anchor either. */
  predicate Sane(strict: bool, st: Step) {
    (IsJProbe(st) ==> WireStep(st)) && (strict && Is(st, Checkout) ==> !Anchors(st))
  }

  predicate Own(strict: bool, s: seq<Step>) {
    forall st | st in s :: Sane(strict, st)
  }

  lemma BehindMembers(s: seq<Step>, a: Step, b: Step, st: Step)
    requires st in Behind(s, a, b)
    ensures st in s || st == a || st == b
  {
  }

  lemma WireMembers(e: seq<Step>, dir: Value, st: Step)
    requires st in WireProbesSteps(e, dir)
    ensures st in WithoutProbes(e) || st == StepJ1(dir) || st == StepJ2(dir)
  {
    BehindMembers(WithoutProbes(e), StepJ1(dir), StepJ2(dir), st);
  }

  lemma {:induction false} OwnWire(e: seq<Step>, dir: Value)
    ensures Own(false, WireProbesSteps(e, dir))
  {
    WithoutMembers(e);
    forall st | st in WireProbesSteps(e, dir) ensures Sane(false, st) { WireMembers(e, dir, st); }
  }

  lemma {:induction false} OwnPlaceAll(s: seq<Step>, ps: seq<Placement>)
    requires Own(false, s) && forall p | p in ps :: !IsJProbe(p.step)
    ensures Own(false, PlaceAll(s, ps))
    decreases ps
  {
    if ps != [] { OwnPlaceAll(Place(s, ps[0]), ps[1..]); }
  }

  /** With only its own probes in the list, taking them out hides nothing from the early selectors. */
  lemma OwnAlike(strict: bool, s: seq<Step>)
    requires Own(strict, s)
    ensures Alike(s, WithoutProbes(s))
  {
    forall sel | EarlySelector(sel) ensures First(s, sel) == First(WithoutProbes(s), sel) {
      WithoutFirst(s, sel);
      if Has(s, sel) && IsJProbe(s[Find(s, sel)]) {
        assert Sane(strict, s[Find(s, sel)]);
        WireStepUnseen(s[Find(s, sel)], sel);
      }
    }
  }

  predicate KeepsOwn(strict: bool, e: Edit, st: Step) {
    Sane(strict, st) ==> Sane(strict, Edited(e, st))
  }

  lemma {:induction false} OwnEnsure(strict: bool, s: seq<Step>, sel: Selector, e: Edit, k: nat, x: Step)
    requires k <= |s| && Own(strict, s) && Sane(strict, x)
    requires forall st | Is(st, sel) :: KeepsOwn(strict, e, st)
    ensures Own(strict, Ensure(s, sel, e, k, x)) && Own(strict, Revise(s, sel, e))
  {
    if Has(s, sel) {
      var i := Find(s, sel);
      assert s[i] in s && KeepsOwn(strict, e, s[i]);
      forall st | st in Revise(s, sel, e) ensures Sane(strict, st) {
        var j :| 0 <= j < |s| && Revise(s, sel, e)[j] == st;
        assert s[j] in s;
      }
    }
  }

  lemma {:induction false} OwnNormalize(strict: bool, s: seq<Step>)
    requires Own(strict, s)
    ensures Own(strict, NormalizeHosted(s))
  {
    forall st | st in NormalizeHosted(s) ensures Sane(strict, st) {
      var i :| 0 <= i < |s| && NormalizeHosted(s)[i] == st;
      assert s[i] in s;
    }
  }

  lemma OwnInsert(strict: bool, s: seq<Step>, k: nat, x: Step)
    requires k <= |s| && Own(strict, s) && Sane(strict, x)
    ensures Own(strict, Insert(s, k, x)) && Own(strict, s + [x]) && Own(strict, [x] + s)
  {
  }

  lemma {:induction false} OwnPreInit(strict: bool, s: seq<Step>)
    requires Own(strict, s)
    ensures Own(strict, PreInitSteps(s))
  {
    OwnEnsure(strict, s, PreInitGate, GateEdit, 0, BLANK);
    if Has(s, PreInitGate) {
      OwnInsert(strict, Revise(s, PreInitGate, GateEdit), Find(s, PreInitGate) + 1, DOCS_ONLY_STEP);
    }
  }

  lemma OwnWithCheckout(strict: bool, s: seq<Step>)
    requires Own(strict, s)
    ensures Own(strict, WithCheckout(s))
  {
    OwnInsert(strict, s, 0, BARE_CHECKOUT);
  }

  lemma {:induction false} OwnVerify(strict: bool, s: seq<Step>, k: nat)
    requires k <= |s| && Own(strict, s)
    ensures Own(strict, Ensure(s, VerifyRunner, HostedEdit, k, PREFLIGHT_STEP))
  {
    OwnEnsure(strict, s, VerifyRunner, HostedEdit, k, PREFLIGHT_STEP);
  }

  lemma OwnPreflight(strict: bool, s: seq<Step>)
    requires Own(strict, s)
    ensures Own(strict, HostedPreflightSteps(s))
  {
    OwnWithCheckout(strict, s);
    OwnVerify(strict, WithCheckout(s), if Has(s, Checkout) then 1 else 0);
  }

  lemma OwnAppend(strict: bool, s: seq<Step>, guard: Selector, x: Step)
    requires Own(strict, s) && Sane(strict, x)
    ensures Own(strict, AppendUnless(s, guard, x))
  {
    OwnInsert(strict, s, 0, x);
  }

  lemma {:induction false} OwnRole(strict: bool, n: string, s: seq<Step>)
    requires Own(strict, s)
    ensures Own(strict, RoleSteps(n, s))
  {
    if n == "preflight" {
      OwnPreflight(strict, s);
    } else {
      var post, guard := SessionPostStep(SessionPost, MatrixResults, MatrixArtifact), UnblockGuardStep(Snapshot(n));
      OwnAppend(strict, s, PostsSessionIndex, post);
      OwnAppend(strict, if PesterJob(n) then AppendUnless(s, PostsSessionIndex, post) else s, GuardsRunner, guard);
    }
  }

  lemma {:induction false} OwnHint(strict: bool, s: seq<Step>, k: nat, single: bool)
    requires Own(strict, s) && k <= |s|
    ensures Own(strict, Ensure(s, Named(RerunName(single)), RerunEdit(single), k, RerunStep(single)))
  {
    OwnEnsure(strict, s, Named(RerunName(single)), RerunEdit(single), k, RerunStep(single));
  }

  lemma OwnRerun(strict: bool, s: seq<Step>)
    requires Own(strict, s)
    ensures Own(strict, RerunAfterSummarySteps(s)) && Own(strict, RerunInJobSteps(s, true)) && Own(strict, RerunInJobSteps(s, false))
  {
    if Has(s, CategorySummary) { OwnHint(strict, s, Find(s, CategorySummary) + 1, false); }
    OwnHint(strict, s, |s|, true);
    OwnHint(strict, s, |s|, false);
  }

  lemma OwnCheckout(strict: bool, s: seq<Step>)
    requires Own(strict, s)
    ensures Own(strict, WithCheckout(s))
  {
    OwnInsert(strict, s, 0, BARE_CHECKOUT);
  }

  lemma {:induction false} OwnProbe(strict: bool, s: seq<Step>, k: nat)
    requires Own(strict, s) && k <= |s|
    ensures Own(strict, Ensure(s, WithId("out"), ProbeEdit, k, PROBE_STEP))
  {
    OwnEnsure(strict, s, WithId("out"), ProbeEdit, k, PROBE_STEP);
  }

  lemma {:induction false} OwnInteractivity(strict: bool, s: seq<Step>)
    requires Own(strict, s)
    ensures Own(strict, InteractivitySteps(s))
  {
    OwnCheckout(strict, s);
    var t := WithCheckout(s);
    OwnProbe(strict, t, if Has(t, Checkout) then Find(t, Checkout) + 1 else |t|);
  }

  lemma {:induction false} OwnLintHead(strict: bool, s: seq<Step>)
    requires Own(strict, s)
    ensures Has(LintInstall(s), Named(InstallActionlint)) && Own(strict, LintRun(LintInstall(s)))
  {
    LintInstallHas(s);
    var a := LintInstall(s);
    OwnInstall(strict, s, if Has(s, Checkout) then Find(s, Checkout) + 1 else 0);
    OwnRun(strict, a, Find(a, Named(InstallActionlint)) + 1);
  }

  lemma {:induction false} OwnInstall(strict: bool, s: seq<Step>, k: nat)
    requires Own(strict, s) && k <= |s|
    ensures Own(strict, Ensure(s, Named(InstallActionlint), InstallEdit, k, INSTALL_STEP))
  {
    OwnEnsure(strict, s, Named(InstallActionlint), InstallEdit, k, INSTALL_STEP);
  }

  lemma {:induction false} OwnRun(strict: bool, s: seq<Step>, k: nat)
    requires Own(strict, s) && k <= |s|
    ensures Own(strict, Ensure(s, Named(RunActionlint), RunActionlintEdit, k, RUN_ACTIONLINT_STEP))
  {
    OwnEnsure(strict, s, Named(RunActionlint), RunActionlintEdit, k, RUN_ACTIONLINT_STEP);
  }

  lemma {:induction false} OwnLintNode(strict: bool, s: seq<Step>)
    requires Own(strict, s)
    ensures Own(strict, LintNode(s)) && Own(strict, LintDropInstall(LintNode(s)))
  {
    OwnEnsure(strict, s, Named(SetupNode), NodeEdit, Find(s, Named(MarkdownlintName(s))), NODE_STEP);
  }

  lemma {:induction false} MarkdownlintSane(strict: bool, st: Step)
    requires st.Step? && st.name.Some? && MarkdownName(st.name.value)
    ensures KeepsOwn(strict, MarkdownlintEdit, st)
  {
    var done := Edited(MarkdownlintEdit, st);
    assert done.name.Some? && MarkdownName(done.name.value);
    assert !IsJProbe(done);
    assert done.uses == st.uses || done.uses.None?;
  }

  lemma {:induction false} OwnLintMarkdown(strict: bool, s: seq<Step>)
    requires Own(strict, s)
    ensures Own(strict, LintMarkdown(s))
  {
    var sel := Named(MarkdownlintName(s));
    forall st | Is(st, sel) ensures KeepsOwn(strict, MarkdownlintEdit, st) { MarkdownlintSane(strict, st); }
    OwnEnsure(strict, s, sel, MarkdownlintEdit, |s|, MARKDOWNLINT_STEP);
  }

  lemma {:induction false} OwnDriftGate(strict: bool, s: seq<Step>)
    requires Own(strict, s)
    ensures Own(strict, DriftGateSteps(s))
  {
    OwnEnsure(strict, s, Named(NonLabviewChecks), DriftGateEdit, 0, BLANK);
  }

  lemma OwnLint(strict: bool, s: seq<Step>)
    requires Own(strict, s)
    ensures Own(strict, LintSteps(s))
  {
    OwnLintHead(strict, s);
    OwnLintNode(strict, LintRun(LintInstall(s)));
    OwnLintMarkdown(strict, LintDropInstall(LintNode(LintRun(LintInstall(s)))));
  }

  lemma {:induction false} OwnOrchestrated(strict: bool, n: string, s: seq<Step>)
    requires Own(strict, s)
    ensures Own(strict, OrchestratedSteps(n, s))
  {
    var roles := RoleSteps(n, s);
    OwnRole(strict, n, s);
    OwnRerun(strict, roles);
    OwnRerun(strict, RerunAfterSummarySteps(roles));
    OwnInteractivity(strict, RerunAfterSummarySteps(roles));
  }

  lemma OwnOpening(strict: bool, pester: bool, n: string, s: seq<Step>)
    requires Own(strict, s)
    ensures Own(strict, OpeningSteps(pester, n, s))
  {
    OwnPreInit(strict, s);
    OwnNormalize(strict, if pester && n == "pre-init" then PreInitSteps(s) else s);
  }

  lemma OwnLintJob(strict: bool, f: File, n: string, s: seq<Step>)
    requires Own(strict, s)
    ensures Own(strict, LintJobSteps(f, n, s))
  {
    OwnLint(strict, s);
    OwnDriftGate(strict, LintSteps(s));
  }

  lemma {:induction false} OwnEarly(strict: bool, f: File, pester: bool, n: string, s: seq<Step>)
    requires Own(strict, s)
    ensures Own(strict, EarlySteps(f, pester, n, s))
  {
    OwnOpening(strict, pester, n, s);
    var b := OpeningSteps(pester, n, s);
    OwnOrchestrated(strict, n, b);
    OwnLintJob(strict, f, n, if f.CiOrchestrated? then OrchestratedSteps(n, b) else b);
  }

  // ---------------------------------------------------------------- the roles

  /** The re-run hint leaves every first step but the hint itself where and as it is. */
  lemma {:induction false} RerunElsewhere(s: seq<Step>, sel: Selector)
    requires Find(s, sel) != Find(s, Named(RerunMatrix)) && !Is(RerunStep(false), sel)
    ensures First(RerunAfterSummarySteps(s), sel) == First(s, sel)
  {
    if Has(s, CategorySummary) {
      var i := Find(s, Named(RerunMatrix));
      if i < |s| {
        var y := Edited(RerunEdit(false), s[i]);
        SelectorsIgnore(s[i], y, sel);
        FindUpdate(s, i, y, sel);
      } else {
        FindInsert(s, Find(s, CategorySummary) + 1, RerunStep(false), sel);
      }
    }
  }

  lemma {:induction false} ProbeStays(s: seq<Step>)
    requires Normal(s) && InteractivityReady(s)
    ensures RerunReady(OrchestratedSteps("probe", NormalizeHosted(s)))
    ensures OrchestratedSteps("probe", NormalizeHosted(s)) == RerunAfterSummarySteps(s)
  {
    NormalFixed(s);
    RerunElsewhere(s, WithId("out"));
    RerunKeeps(s, Checkout);
    InteractivityFixed(RerunAfterSummarySteps(s));
    RerunSettles(s);
  }

  lemma {:induction false} GateAfterHint(s: seq<Step>)
    requires PreInitReady(s) && Normal(s)
    ensures GateRests(CiOrchestrated, RerunAfterSummarySteps(s))
  {
    var t := RerunAfterSummarySteps(s);
    RerunSettles(s);
    if Has(s, PreInitGate) && Has(s, CategorySummary) {
      RerunKeeps(s, WithId("out"));
      RerunKeeps(s, CategorySummary);
      if Find(s, PreInitGate) == Find(s, Named(RerunMatrix)) {
        var i := Find(s, PreInitGate);
        UpdateUnseen(s, i, Edited(RerunEdit(false), s[i]), PreInitGate);
        UpdateUnseen(s, i, Edited(RerunEdit(false), s[i]), Named(RerunMatrix));
      } else {
        GateBesideHint(s);
        GateFrom(s, t);
      }
    } else if !Has(s, PreInitGate) {
      GateAbsent(s);
    }
  }

  lemma GateFrom(s: seq<Step>, t: seq<Step>)
    requires Ready(s, PreInitGate, GateEdit) && First(t, PreInitGate) == First(s, PreInitGate) && Has(t, WithId("out"))
    ensures PreInitReady(t)
  {
  }

  lemma HintIsNoGate()
    ensures !Is(RerunStep(false), PreInitGate)
  {
  }

  lemma GateBesideHint(s: seq<Step>)
    requires Find(s, PreInitGate) != Find(s, Named(RerunMatrix))
    ensures First(RerunAfterSummarySteps(s), PreInitGate) == First(s, PreInitGate)
  {
    HintIsNoGate();
    RerunElsewhere(s, PreInitGate);
  }

  lemma {:induction false} GateAbsent(s: seq<Step>)
    requires !Has(s, PreInitGate)
    ensures PreInitReady(RerunAfterSummarySteps(s))
  {
    if Has(s, CategorySummary) {
      var i := Find(s, Named(RerunMatrix));
      if i < |s| {
        UpdateUnseen(s, i, Edited(RerunEdit(false), s[i]), PreInitGate);
      } else {
        FindInsert(s, Find(s, CategorySummary) + 1, RerunStep(false), PreInitGate);
      }
    }
  }

  // ---------------------------------------------------------------- the deleted install step

  function Count(s: seq<Step>, sel: Selector): nat {
    if s == [] then 0 else (if Is(s[0], sel) then 1 else 0) + Count(s[1..], sel)
  }

  lemma {:induction false} CountConcat(s: seq<Step>, t: seq<Step>, sel: Selector)
    ensures Count(s + t, sel) == Count(s, sel) + Count(t, sel)
  {
    if s == [] {
      assert s + t == t;
    } else {
      assert (s + t)[1..] == s[1..] + t;
      CountConcat(s[1..], t, sel);
    }
  }

  lemma {:induction false} CountHas(s: seq<Step>, sel: Selector)
    ensures Has(s, sel) == (Count(s, sel) > 0)
  {
    if s != [] { CountHas(s[1..], sel); }
  }

  lemma CountInsert(s: seq<Step>, k: nat, x: Step, sel: Selector)
    requires k <= |s|
    ensures Count(Insert(s, k, x), sel) == Count(s, sel) + if Is(x, sel) then 1 else 0
  {
    assert s == s[..k] + s[k..] && Insert(s, k, x) == (s[..k] + [x]) + s[k..];
    CountConcat(s[..k], s[k..], sel);
    CountConcat(s[..k] + [x], s[k..], sel);
    CountConcat(s[..k], [x], sel);
  }

  lemma {:induction false} CountUpdate(s: seq<Step>, i: nat, y: Step, sel: Selector)
    requires i < |s| && Is(y, sel) == Is(s[i], sel)
    ensures Count(s[i := y], sel) == Count(s, sel)
  {
    var r := Remove(s, i);
    assert s == Insert(r, i, s[i]) && s[i := y] == Insert(r, i, y);
    CountInsert(r, i, s[i], sel);
    CountInsert(r, i, y, sel);
  }

  lemma CountEnsure(s: seq<Step>, own: Selector, e: Edit, k: nat, x: Step, sel: Selector)
    requires k <= |s| && !Is(x, sel)
    requires forall st | Is(st, own) :: !Is(st, sel) && !Is(Edited(e, st), sel)
    ensures Count(Ensure(s, own, e, k, x), sel) == Count(s, sel)
    ensures Count(Revise(s, own, e), sel) == Count(s, sel)
  {
    if Has(s, own) {
      CountUpdate(s, Find(s, own), Edited(e, s[Find(s, own)]), sel);
    } else {
      CountInsert(s, k, x, sel);
    }
  }

  lemma {:induction false} CountPlaceAll(s: seq<Step>, ps: seq<Placement>, sel: Selector)
    requires Inert(ps, sel)
    ensures Count(PlaceAll(s, ps), sel) == Count(s, sel)
    decreases ps
  {
    if ps != [] {
      if !Rests(s, ps[0]) { CountInsert(s, Spot(s, ps[0]), ps[0].step, sel); }
      CountPlaceAll(Place(s, ps[0]), ps[1..], sel);
    }
  }

  lemma {:induction false} CountWithout(s: seq<Step>, sel: Selector)
    requires forall st | IsJProbe(st) :: !Is(st, sel)
    ensures Count(WithoutProbes(s), sel) == Count(s, sel)
  {
    if s != [] { CountWithout(s[1..], sel); }
  }

  lemma {:induction false} CountNormalize(s: seq<Step>, sel: Selector)
    ensures Count(NormalizeHosted(s), sel) == Count(s, sel)
  {
    if s != [] {
      CountNormalize(s[1..], sel);
      assert NormalizeHosted(s)[1..] == NormalizeHosted(s[1..]);
      if s[0].Step? { SelectorsIgnore(s[0], HostedNormal(s[0]), sel); }
    }
  }

  lemma CountInsertTwo(s: seq<Step>, k: nat, x: Step, y: Step, sel: Selector)
    requires k <= |s| && !Is(x, sel) && !Is(y, sel)
    ensures |Insert(s, k, x)| == |s| + 1 && Count(Insert(Insert(s, k, x), k + 1, y), sel) == Count(s, sel)
  {
    InsertIndex(s, k, x);
    CountInsert(s, k, x, sel);
    CountInsert(Insert(s, k, x), k + 1, y, sel);
  }

  lemma CountBehind(s: seq<Step>, x: Step, y: Step, sel: Selector)
    requires !Is(x, sel) && !Is(y, sel)
    ensures Count(Behind(s, x, y), sel) == Count(s, sel)
  {
    if Has(s, Checkout) { CountInsertTwo(s, Find(s, Checkout) + 1, x, y, sel); }
  }

  lemma {:induction false} CountWire(e: seq<Step>, dir: Value, sel: Selector)
    requires forall st | IsJProbe(st) :: !Is(st, sel)
    ensures Count(WireProbesSteps(e, dir), sel) == Count(e, sel)
  {
    CountWithout(e, sel);
    CountBehind(WithoutProbes(e), StepJ1(dir), StepJ2(dir), sel);
  }

  const DROPPED := Named(InstallMarkdownlint)

  lemma CountDrop(s: seq<Step>)
    ensures Count(LintDropInstall(s), DROPPED) == Count(s, DROPPED) - if Count(s, DROPPED) > 0 then 1 else 0
  {
    CountHas(s, DROPPED);
    if Has(s, DROPPED) {
      var i := Find(s, DROPPED);
      assert s == Insert(Remove(s, i), i, s[i]);
      CountInsert(Remove(s, i), i, s[i], DROPPED);
    }
  }

  lemma {:induction false} CountLintHead(s: seq<Step>)
    ensures Has(LintInstall(s), Named(InstallActionlint)) && Count(LintRun(LintInstall(s)), DROPPED) == Count(s, DROPPED)
  {
    LintInstallHas(s);
    var a := LintInstall(s);
    CountEnsure(s, Named(InstallActionlint), InstallEdit, if Has(s, Checkout) then Find(s, Checkout) + 1 else 0, INSTALL_STEP, DROPPED);
    CountEnsure(a, Named(RunActionlint), RunActionlintEdit, Find(a, Named(InstallActionlint)) + 1, RUN_ACTIONLINT_STEP, DROPPED);
  }

  lemma CountLintNode(s: seq<Step>)
    ensures Count(LintNode(s), DROPPED) == Count(s, DROPPED)
  {
    CountEnsure(s, Named(SetupNode), NodeEdit, Find(s, Named(MarkdownlintName(s))), NODE_STEP, DROPPED);
  }

  lemma {:induction false} CountLintMarkdown(s: seq<Step>)
    ensures Count(LintMarkdown(s), DROPPED) == Count(s, DROPPED)
  {
    CountEnsure(s, Named(MarkdownlintName(s)), MarkdownlintEdit, |s|, MARKDOWNLINT_STEP, DROPPED);
  }

  lemma CountLint(s: seq<Step>)
    ensures Count(LintSteps(s), DROPPED) == Count(s, DROPPED) - if Count(s, DROPPED) > 0 then 1 else 0
  {
    CountLintHead(s);
    var c := LintRun(LintInstall(s));
    CountLintNode(c);
    CountDrop(LintNode(c));
    CountLintMarkdown(LintDropInstall(LintNode(c)));
  }

  lemma CountRerun(s: seq<Step>)
    ensures Count(RerunAfterSummarySteps(s), DROPPED) == Count(s, DROPPED)
  {
    if Has(s, CategorySummary) {
      CountEnsure(s, Named(RerunMatrix), RerunEdit(false), Find(s, CategorySummary) + 1, RerunStep(false), DROPPED);
    }
  }

  lemma CountDriftGate(s: seq<Step>)
    ensures Count(DriftGateSteps(s), DROPPED) == Count(s, DROPPED)
  {
    CountEnsure(s, Named(NonLabviewChecks), DriftGateEdit, 0, BLANK, DROPPED);
  }

  lemma CountLintJob(f: File, s: seq<Step>)
    ensures Count(LintJobSteps(f, "lint", s), DROPPED) == Count(s, DROPPED) - if Count(s, DROPPED) > 0 then 1 else 0
  {
    CountLint(s);
    CountDriftGate(LintSteps(s));
  }

  lemma CountOpening(f: File, s: seq<Step>)
    ensures var a := NormalizeHosted(s);
      Count(if f.CiOrchestrated? then RerunAfterSummarySteps(a) else a, DROPPED) == Count(s, DROPPED)
  {
    CountNormalize(s, DROPPED);
    CountRerun(NormalizeHosted(s));
  }

  lemma LintOpening(pester: bool, s: seq<Step>)
    ensures OpeningSteps(pester, "lint", s) == NormalizeHosted(s)
  {
  }

  lemma LintOrchestrated(s: seq<Step>)
    ensures OrchestratedSteps("lint", s) == RerunAfterSummarySteps(s)
  {
  }

  lemma LintEarly(f: File, pester: bool, s: seq<Step>)
    ensures var a := NormalizeHosted(s);
      EarlySteps(f, pester, "lint", s) == LintJobSteps(f, "lint", if f.CiOrchestrated? then RerunAfterSummarySteps(a) else a)
  {
    LintOpening(pester, s);
    LintOrchestrated(NormalizeHosted(s));
  }

  /** Each run of the lint rewrite deletes exactly one markdownlint install step, while there is one. */
  lemma {:induction false} CountEarly(f: File, pester: bool, s: seq<Step>)
    ensures Count(EarlySteps(f, pester, "lint", s), DROPPED) == Count(s, DROPPED) - if Count(s, DROPPED) > 0 then 1 else 0
  {
    var a := NormalizeHosted(s);
    LintEarly(f, pester, s);
    CountOpening(f, s);
    CountLintJob(f, if f.CiOrchestrated? then RerunAfterSummarySteps(a) else a);
  }
}
