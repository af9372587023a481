/**
 A rewired job reaches a fixed point in one run exactly when it settles.
 */
module RewiredIdempotence {
  import opened Options
  import opened Texts
  import opened WorkflowVocabulary
  import opened StepLists
  import opened WorkflowStages
  import opened StepFacts
  import opened StageReadiness
  import opened RewiredJobs
  import opened RewiredFixedPoint
  import opened RewiredSettling
  import opened RewiredNecessity

  lemma {:induction false} RewiredOwn(f: File, pester: bool, n: string, s: seq<Step>)
    ensures Own(false, RewiredSteps(f, pester, n, s))
  {
    var e, dir, ps := EarlySteps(f, pester, n, s), ProbeDir(n), LatePlacements(f, n);
    OwnWire(e, dir);
    LateGood(f, n);
    forall p | p in ps ensures !IsJProbe(p.step) { assert GoodPlacement(p); }
    OwnPlaceAll(WireProbesSteps(e, dir), ps);
  }

  /** Around a fixed point `q` of the run that started from `s`, the early selectors agree everywhere. */
  lemma {:induction false} FixedAlike(f: File, pester: bool, n: string, s: seq<Step>)
    requires var q := RewiredSteps(f, pester, n, s); RewiredSteps(f, pester, n, q) == q
    ensures var q := RewiredSteps(f, pester, n, s);
      Alike(WithoutProbes(EarlySteps(f, pester, n, s)), EarlySteps(f, pester, n, q))
      && Alike(WithoutProbes(EarlySteps(f, pester, n, s)), q)
  {
    var q := RewiredSteps(f, pester, n, s);
    RewiredOwn(f, pester, n, s);
    OwnEarly(false, f, pester, n, q);
    OwnAlike(false, EarlySteps(f, pester, n, q));
    RewiredAlike(f, n, EarlySteps(f, pester, n, q));
    RewiredAlike(f, n, EarlySteps(f, pester, n, s));
  }

  // ---------------------------------------------------------------- a fixed point keeps the roles

  lemma {:induction false} FixedKeepsGate(f: File, s: seq<Step>)
    requires Rewires(f)
    requires var q := RewiredSteps(f, true, "pre-init", s); RewiredSteps(f, true, "pre-init", q) == q
    ensures GateRests(f, WithoutProbes(EarlySteps(f, true, "pre-init", s)))
  {
    var n := "pre-init";
    var q, w := RewiredSteps(f, true, n, s), WithoutProbes(EarlySteps(f, true, n, s));
    FixedAlike(f, true, n, s);
    EarlySettles(f, true, n, s);
    RewiredNormal(f, n, EarlySteps(f, true, n, s));
    PreInitSettles(q);
    var a := PreInitSteps(q);
    NormalFixed(a);
    assert OpeningSteps(true, n, q) == a;
    var e2 := EarlySteps(f, true, n, q);
    if f.CiOrchestrated? {
      assert e2 == RerunAfterSummarySteps(a);
      GateAfterHint(a);
    } else {
      assert e2 == a;
    }
    AlikePreInit(w, e2);
    AlikeGateIsHint(w, e2);
  }

  lemma InteractivityWithout(e: seq<Step>)
    requires InteractivityReady(e)
    ensures Ready(WithoutProbes(e), WithId("out"), ProbeEdit)
  {
    ReadyWithout(e, WithId("out"), ProbeEdit);
  }

  lemma {:induction false} FixedKeepsHint(s: seq<Step>)
    requires var q := RewiredSteps(CiOrchestrated, false, "probe", s); RewiredSteps(CiOrchestrated, false, "probe", q) == q
    ensures RerunReady(EarlySteps(CiOrchestrated, false, "probe", s))
    ensures var q := RewiredSteps(CiOrchestrated, false, "probe", s);
      EarlySteps(CiOrchestrated, false, "probe", q) == RerunAfterSummarySteps(q)
  {
    var f, n := CiOrchestrated, "probe";
    var q, e := RewiredSteps(f, false, n, s), EarlySteps(f, false, n, s);
    var w := WithoutProbes(e);
    FixedAlike(f, false, n, s);
    EarlySettles(f, false, n, s);
    InteractivityWithout(e);
    RewiredNormal(f, n, e);
    EarlySettles(f, false, n, q);
    AlikeAt(w, EarlySteps(f, false, n, q), Checkout);
    AlikeInteractivity(w, q);
    ProbeStays(q);
    AlikeRerun(w, EarlySteps(f, false, n, q));
    RerunWithout(e);
  }

  lemma {:induction false} CountRewired(f: File, n: string, e: seq<Step>)
    ensures Count(PlaceAll(WireProbesSteps(e, ProbeDir(n)), LatePlacements(f, n)), DROPPED) == Count(e, DROPPED)
  {
    CountWire(e, ProbeDir(n), DROPPED);
    LateGood(f, n);
    GoodIsSafe(LatePlacements(f, n), ProbeDir(n));
    CountPlaceAll(WireProbesSteps(e, ProbeDir(n)), LatePlacements(f, n), DROPPED);
  }

  /** A list that the lint run maps to itself has no step for it to delete. */
  lemma {:induction false} FixedCount(f: File, pester: bool, q: seq<Step>)
    requires RewiredSteps(f, pester, "lint", q) == q
    ensures !Has(q, DROPPED)
  {
    CountEarly(f, pester, q);
    CountRewired(f, "lint", EarlySteps(f, pester, "lint", q));
    CountHas(q, DROPPED);
  }

  lemma {:induction false} FixedKeepsLint(f: File, pester: bool, s: seq<Step>)
    requires Rewires(f)
    requires var q := RewiredSteps(f, pester, "lint", s); RewiredSteps(f, pester, "lint", q) == q
    ensures !Has(EarlySteps(f, pester, "lint", s), DROPPED)
  {
    var q := RewiredSteps(f, pester, "lint", s);
    FixedCount(f, pester, q);
    FixedAlike(f, pester, "lint", s);
    AlikeAt(WithoutProbes(EarlySteps(f, pester, "lint", s)), q, DROPPED);
    NamedWithout(EarlySteps(f, pester, "lint", s), InstallMarkdownlint);
  }

  lemma {:induction false} PesterIrrelevant(f: File, pester: bool, n: string, s: seq<Step>)
    requires n != "pre-init"
    ensures EarlySteps(f, pester, n, s) == EarlySteps(f, false, n, s)
    ensures RewiredSteps(f, pester, n, s) == RewiredSteps(f, false, n, s)
  {
  }

  lemma {:induction false} FixedKeepsRoles(f: File, pester: bool, n: string, s: seq<Step>)
    requires Rewires(f)
    requires var q := RewiredSteps(f, pester, n, s); RewiredSteps(f, pester, n, q) == q
    ensures RolesKept(f, pester, n, EarlySteps(f, pester, n, s))
  {
    var q, w := RewiredSteps(f, pester, n, s), WithoutProbes(EarlySteps(f, pester, n, s));
    var e2 := EarlySteps(f, pester, n, q);
    FixedAlike(f, pester, n, s);
    EarlySettles(f, pester, n, q);
    AlikeAt(w, e2, Checkout);
    AlikeAt(w, e2, PostsSessionIndex);
    AlikeAt(w, e2, GuardsRunner);
    if n == "lint" { FixedKeepsLint(f, pester, s); }
    if pester && n == "pre-init" { FixedKeepsGate(f, s); }
    if n == "probe" && f.CiOrchestrated? {
      PesterIrrelevant(f, pester, n, s);
      PesterIrrelevant(f, pester, n, q);
      FixedKeepsHint(s);
    }
  }

  // ---------------------------------------------------------------- a fixed point has clear anchors

  lemma {:induction false} RoleKeepsWire(n: string, s: seq<Step>, g: Name)
    requires WireName(g) && Has(s, Named(g))
    ensures Has(RoleSteps(n, s), Named(g))
  {
    var sel := Named(g);
    WithCheckoutHas(s);
    EnsureKeeps(WithCheckout(s), VerifyRunner, HostedEdit, if Has(s, Checkout) then 1 else 0, PREFLIGHT_STEP, sel);
    var a := if n == "preflight" then HostedPreflightSteps(s) else s;
    var post, guard := SessionPostStep(SessionPost, MatrixResults, MatrixArtifact), UnblockGuardStep(Snapshot(n));
    AppendHas(a, PostsSessionIndex, post, sel);
    AppendHas(if PesterJob(n) then AppendUnless(a, PostsSessionIndex, post) else a, GuardsRunner, guard, sel);
  }

  lemma {:induction false} OrchestratedKeepsWire(n: string, s: seq<Step>, g: Name)
    requires WireName(g) && Has(s, Named(g)) && n != "probe"
    ensures Has(OrchestratedSteps(n, s), Named(g))
  {
    var sel := Named(g);
    RoleKeepsWire(n, s, g);
    RerunKeeps(RoleSteps(n, s), sel);
    var d := RerunAfterSummarySteps(RoleSteps(n, s));
    EnsureKeeps(d, Named(RerunSingle), RerunEdit(true), |d|, RerunStep(true), sel);
    EnsureKeeps(d, Named(RerunMatrix), RerunEdit(false), |d|, RerunStep(false), sel);
  }

  lemma {:induction false} OpeningKeeps(pester: bool, n: string, s: seq<Step>, g: Name)
    requires Has(s, Named(g))
    ensures Has(OpeningSteps(pester, n, s), Named(g))
  {
    NormalizeFind(s, Named(g));
    if pester && n == "pre-init" && Has(s, PreInitGate) {
      var gated := Revise(s, PreInitGate, GateEdit);
      EnsureKeeps(s, PreInitGate, GateEdit, 0, BLANK, Named(g));
      HasInsert(gated, Find(s, PreInitGate) + 1, DOCS_ONLY_STEP, Named(g));
      NormalizeFind(PreInitSteps(s), Named(g));
    }
  }

  lemma {:induction false} LintKeepsWire(f: File, n: string, s: seq<Step>, g: Name)
    requires WireName(g) && Has(s, Named(g))
    ensures Has(LintJobSteps(f, n, s), Named(g))
  {
    LintOther(s, Named(g));
    DriftGateOther(LintSteps(s), Named(g));
  }

  lemma {:induction false} EarlyKeepsWire(f: File, pester: bool, n: string, s: seq<Step>, g: Name)
    requires WireName(g) && Has(s, Named(g))
    requires f.CiOrchestrated? && n == "probe" ==> EarlySteps(f, pester, n, s) == RerunAfterSummarySteps(s)
    ensures Has(EarlySteps(f, pester, n, s), Named(g))
  {
    OpeningKeeps(pester, n, s, g);
    var a := OpeningSteps(pester, n, s);
    if f.CiOrchestrated? && n == "probe" {
      RerunKeeps(s, Named(g));
    } else {
      if f.CiOrchestrated? { OrchestratedKeepsWire(n, a, g); }
      LintKeepsWire(f, n, if f.CiOrchestrated? then OrchestratedSteps(n, a) else a, g);
    }
  }

  /** In the second run towards a fixed point, an after-placement finds its step already there. */
  lemma {:induction false} FixedServed(pester: bool, n: string, s: seq<Step>, p: Placement)
    requires var q := RewiredSteps(CiOrchestrated, pester, n, s); RewiredSteps(CiOrchestrated, pester, n, q) == q
    requires p in LatePlacements(CiOrchestrated, n) && p.guard.Named? && WireName(p.guard.name)
    requires !p.guard.name.WireJ1? && !p.guard.name.WireJ2?
    ensures var q := RewiredSteps(CiOrchestrated, pester, n, s);
      Rests(WireProbesSteps(EarlySteps(CiOrchestrated, pester, n, q), ProbeDir(n)), p)
  {
    var f, dir, ps := CiOrchestrated, ProbeDir(n), LatePlacements(CiOrchestrated, n);
    var q := RewiredSteps(f, pester, n, s);
    var e2 := EarlySteps(f, pester, n, q);
    var j2 := WireProbesSteps(e2, dir);
    LateGood(f, n);
    GoodIsSafe(ps, dir);
    PlaceAllRests(WireProbesSteps(EarlySteps(f, pester, n, s), dir), ps);
    assert Rests(q, p);
    if Has(j2, p.anchor) {
      PlaceAllKeeps(j2, ps, p.anchor);
      if n == "probe" {
        PesterIrrelevant(f, pester, n, s);
        PesterIrrelevant(f, pester, n, q);
        FixedKeepsHint(s);
      }
      EarlyKeepsWire(f, pester, n, q, p.guard.name);
      NamedWithout(e2, p.guard.name);
      WireFirst(e2, dir, p.guard);
    }
  }

  lemma LateMembers(n: string)
    ensures InvokerPlacements()[1] in LatePlacements(CiOrchestrated, n)
    ensures GuardPlacements()[1] in LatePlacements(CiOrchestrated, n)
    ensures FinalPlacements()[0] in LatePlacements(CiOrchestrated, n)
    ensures FinalPlacements()[1] in LatePlacements(CiOrchestrated, n)
    ensures n == "drift" ==> DriftProbePlacements()[1] in LatePlacements(CiOrchestrated, n)
  {
    assert InvokerPlacements()[1] in AfterTests(n) && GuardPlacements()[1] in AfterTests(n);
    assert FinalPlacements()[0] in AfterTests(n) && FinalPlacements()[1] in AfterTests(n);
    assert forall p | p in AfterTests(n) :: p in LatePlacements(CiOrchestrated, n);
  }

  lemma {:induction false} FixedClearAgain(pester: bool, n: string, s: seq<Step>)
    requires var q := RewiredSteps(CiOrchestrated, pester, n, s); RewiredSteps(CiOrchestrated, pester, n, q) == q
    ensures var q := RewiredSteps(CiOrchestrated, pester, n, s);
      AnchorsClear(CiOrchestrated, n, WireProbesSteps(EarlySteps(CiOrchestrated, pester, n, q), ProbeDir(n)))
  {
    LateMembers(n);
    FixedServed(pester, n, s, InvokerPlacements()[1]);
    FixedServed(pester, n, s, GuardPlacements()[1]);
    FixedServed(pester, n, s, FinalPlacements()[0]);
    FixedServed(pester, n, s, FinalPlacements()[1]);
    if n == "drift" { FixedServed(pester, n, s, DriftProbePlacements()[1]); }
  }

  /** An insertion behind the checkout of `j` would part it from J1 in `q`, which is the run over the placed list `k`. */
  lemma {:induction false} ClearBefore(j: seq<Step>, k: seq<Step>, q: seq<Step>, ps: seq<Placement>, dir: Value)
    requires GoodPlacements(ps) && q == PlaceAll(j, ps) && q == PlaceAll(k, ps) && Placed(k, dir) && Clear(k, ps)
    ensures Clear(j, ps)
  {
    GoodIsSafe(ps, dir);
    ClearPlaced(k, ps, dir);
    if !Clear(j, ps) {
      BlockedParts(j, ps, dir);
      PartedUnplaced(q, dir);
    }
  }

  lemma {:induction false} FixedKeepsAnchors(f: File, pester: bool, n: string, s: seq<Step>)
    requires Rewires(f)
    requires var q := RewiredSteps(f, pester, n, s); RewiredSteps(f, pester, n, q) == q
    ensures AnchorsClear(f, n, WireProbesSteps(EarlySteps(f, pester, n, s), ProbeDir(n)))
  {
    if f.CiOrchestrated? {
      var dir, ps := ProbeDir(n), LatePlacements(f, n);
      var q := RewiredSteps(f, pester, n, s);
      var j, k := WireProbesSteps(EarlySteps(f, pester, n, s), dir), WireProbesSteps(EarlySteps(f, pester, n, q), dir);
      FixedClearAgain(pester, n, s);
      LateGood(f, n);
      ClearIff(f, n, j);
      ClearIff(f, n, k);
      WirePlaced(EarlySteps(f, pester, n, q), dir);
      ClearBefore(j, k, q, ps, dir);
    }
  }

  /** One run reaches a fixed point of the job exactly when the job settles. */
  lemma {:induction false} RewiredIff(f: File, pester: bool, n: string, s: seq<Step>)
    requires Rewires(f)
    ensures var q := RewiredSteps(f, pester, n, s);
      RewiredSteps(f, pester, n, q) == q <==> Settles(f, pester, n, s)
  {
    var q := RewiredSteps(f, pester, n, s);
    if Settles(f, pester, n, s) { SettlesFixed(f, pester, n, s); }
    if RewiredSteps(f, pester, n, q) == q {
      FixedKeepsRoles(f, pester, n, s);
      FixedKeepsAnchors(f, pester, n, s);
    }
  }
}
