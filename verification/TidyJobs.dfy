/**
 A simple condition on a job as it is written that makes it settle, whatever kind of job it
 is, and the two ways an untidy job keeps changing, shown on concrete jobs.
 */
module TidyJobs {
  import opened Options
  import opened Texts
  import opened WorkflowVocabulary
  import opened StepLists
  import opened WorkflowStages
  import opened StepFacts
  import opened StageReadiness
  import opened RewiredJobs
  import opened RewiredFixedPoint
  import opened RewiredSettling
  import opened RewiredNecessity
  import opened RewiredIdempotence
  import opened WorkflowDocuments
  import opened WorkflowFixedPoint

  /**
   Steps named J1 or J2 are wire probes, no checkout is named as an insertion anchor, the
   lint job installs markdownlint at most once, and the interactivity probe is neither the
   re-run hint nor the category summary.
   */
  predicate Tidy(f: File, n: string, s: seq<Step>) {
    && Own(true, s)
    && (n == "lint" ==> Count(s, DROPPED) <= 1)
    && (f.CiOrchestrated? && n == "probe" ==> forall st | st in s && Is(st, WithId("out")) :: !HintRole(st))
  }

  predicate HintRole(st: Step) {
    Is(st, CategorySummary) || Is(st, Named(RerunMatrix))
  }

  // ---------------------------------------------------------------- the probe job

  lemma {:induction false} NormalizedOut(s: seq<Step>)
    requires forall st | st in s && Is(st, WithId("out")) :: !HintRole(st)
    ensures forall st | st in NormalizeHosted(s) && Is(st, WithId("out")) :: !HintRole(st)
  {
    forall st | st in NormalizeHosted(s) && Is(st, WithId("out")) ensures !HintRole(st) {
      var i :| 0 <= i < |s| && NormalizeHosted(s)[i] == st;
      assert s[i] in s;
    }
  }

  lemma {:induction false} HintedOut(s: seq<Step>)
    requires forall st | st in s && Is(st, WithId("out")) :: !HintRole(st)
    ensures forall st | st in RerunAfterSummarySteps(s) && Is(st, WithId("out")) :: !HintRole(st)
  {
    forall st | st in RerunAfterSummarySteps(s) && Is(st, WithId("out")) ensures !HintRole(st) {
      var m := Find(s, Named(RerunMatrix));
      assert st in s || st == RerunStep(false) || (m < |s| && st == Edited(RerunEdit(false), s[m]));
      if m < |s| {
        assert s[m] in s;
        SelectorsIgnore(s[m], Edited(RerunEdit(false), s[m]), WithId("out"));
      }
    }
  }

  lemma ProbeEditedUnhinted(st: Step)
    requires st.Step?
    ensures !HintRole(Edited(ProbeEdit, st))
  {
  }

  lemma UnhintedEdit(s: seq<Step>, i: nat, sel: Selector)
    requires i < |s| && s[i].Step? && !HintRole(s[i]) && (sel.CategorySummary? || sel == Named(RerunMatrix))
    ensures First(s[i := Edited(ProbeEdit, s[i])], sel) == First(s, sel)
  {
    ProbeEditedUnhinted(s[i]);
    FindUpdate(s, i, Edited(ProbeEdit, s[i]), sel);
  }

  lemma BareKeepsHint(s: seq<Step>, sel: Selector)
    requires sel.CategorySummary? || sel == Named(RerunMatrix)
    ensures First(WithCheckout(s), sel) == First(s, sel)
  {
    if !Has(s, Checkout) { FirstCons(BARE_CHECKOUT, s, sel); }
  }

  lemma {:induction false} InteractivityKeepsHint(s: seq<Step>, sel: Selector)
    requires sel.CategorySummary? || sel == Named(RerunMatrix)
    requires forall st | st in s && Is(st, WithId("out")) :: !HintRole(st)
    ensures First(InteractivitySteps(s), sel) == First(s, sel)
  {
    var t := WithCheckout(s);
    BareKeepsHint(s, sel);
    var i := Find(t, WithId("out"));
    if i < |t| {
      assert t[i] in s;
      UnhintedEdit(t, i, sel);
    } else {
      FindInsert(t, if Has(t, Checkout) then Find(t, Checkout) + 1 else |t|, PROBE_STEP, sel);
    }
  }

  lemma {:induction false} ProbeKeepsHint(pester: bool, s: seq<Step>)
    requires Tidy(CiOrchestrated, "probe", s)
    ensures RerunReady(EarlySteps(CiOrchestrated, pester, "probe", s))
  {
    var a := NormalizeHosted(s);
    var d := RerunAfterSummarySteps(a);
    NormalizeNormal(s);
    NormalizedOut(s);
    HintedOut(a);
    RerunSettles(a);
    InteractivityKeepsHint(d, CategorySummary);
    InteractivityKeepsHint(d, Named(RerunMatrix));
    RerunReadyFrom(d, InteractivitySteps(d));
  }

  // ---------------------------------------------------------------- roles and anchors

  lemma {:induction false} GateSettled(f: File, s: seq<Step>)
    ensures GateRests(f, EarlySteps(f, true, "pre-init", s))
  {
    PreInitSettles(s);
    var a := OpeningSteps(true, "pre-init", s);
    NormalizeNormal(PreInitSteps(s));
    AlikeOpening(PreInitSteps(s));
    if f.CiOrchestrated? { GateAfterHint(a); }
  }

  /** Normalizing the hosted preflight bodies moves no selector's step and leaves the gate in order. */
  lemma {:induction false} AlikeOpening(s: seq<Step>)
    requires PreInitReady(s)
    ensures PreInitReady(NormalizeHosted(s))
  {
    NormalizeFind(s, PreInitGate);
    NormalizeFind(s, WithId("out"));
  }

  lemma {:induction false} TidyKeepsRoles(f: File, pester: bool, n: string, s: seq<Step>)
    requires Rewires(f) && Tidy(f, n, s)
    ensures RolesKept(f, pester, n, EarlySteps(f, pester, n, s))
  {
    var e := EarlySteps(f, pester, n, s);
    OwnEarly(true, f, pester, n, s);
    OwnAlike(true, e);
    EarlySettles(f, pester, n, s);
    var w := WithoutProbes(e);
    AlikeAt(e, w, Checkout);
    AlikeAt(e, w, PostsSessionIndex);
    AlikeAt(e, w, GuardsRunner);
    if pester && n == "pre-init" {
      GateSettled(f, s);
      AlikePreInit(e, w);
      AlikeGateIsHint(e, w);
    }
    if n == "lint" {
      CountEarly(f, pester, s);
      CountHas(e, DROPPED);
    }
    if f.CiOrchestrated? && n == "probe" { ProbeKeepsHint(pester, s); }
  }

  lemma UnanchoredClear(f: File, n: string, j: seq<Step>)
    requires forall st | st in j && Is(st, Checkout) :: !Anchors(st)
    ensures AnchorsClear(f, n, j)
  {
    if Has(j, Checkout) {
      assert j[Find(j, Checkout)] in j;
    }
  }

  lemma ProbesAreNoCheckout(dir: Value)
    ensures !Is(StepJ1(dir), Checkout) && !Is(StepJ2(dir), Checkout)
  {
  }

  lemma UnanchoredWire(e: seq<Step>, dir: Value)
    requires Own(true, e)
    ensures forall st | st in WireProbesSteps(e, dir) && Is(st, Checkout) :: !Anchors(st)
  {
    WithoutMembers(e);
    forall st | st in WireProbesSteps(e, dir) && Is(st, Checkout) ensures !Anchors(st) {
      WireMembers(e, dir, st);
      ProbesAreNoCheckout(dir);
      assert st in e && Sane(true, st);
    }
  }

  lemma {:induction false} TidyClear(f: File, pester: bool, n: string, s: seq<Step>)
    requires Tidy(f, n, s)
    ensures AnchorsClear(f, n, WireProbesSteps(EarlySteps(f, pester, n, s), ProbeDir(n)))
  {
    var e, dir := EarlySteps(f, pester, n, s), ProbeDir(n);
    OwnEarly(true, f, pester, n, s);
    UnanchoredWire(e, dir);
    UnanchoredClear(f, n, WireProbesSteps(e, dir));
  }

  /**
   A tidy job settles: running the rewrites a second time changes nothing, and J1 and J2
   stand directly behind its first checkout.
   */
  lemma {:induction false} TidySettles(f: File, pester: bool, n: string, s: seq<Step>)
    requires Rewires(f) && Tidy(f, n, s)
    ensures Settles(f, pester, n, s)
    ensures var q := RewiredSteps(f, pester, n, s); RewiredSteps(f, pester, n, q) == q && Placed(q, ProbeDir(n))
  {
    TidyKeepsRoles(f, pester, n, s);
    TidyClear(f, pester, n, s);
    SettlesFixed(f, pester, n, s);
  }

  /** The bound on install steps is exact: with everything else tidy, a lint job settles just when it holds. */
  lemma {:induction false} TidyLintIff(f: File, pester: bool, s: seq<Step>)
    requires Rewires(f) && Own(true, s)
    ensures Settles(f, pester, "lint", s) <==> Count(s, DROPPED) <= 1
  {
    if Count(s, DROPPED) <= 1 {
      TidySettles(f, pester, "lint", s);
    } else {
      CountEarly(f, pester, s);
      CountHas(EarlySteps(f, pester, "lint", s), DROPPED);
    }
  }

  lemma {:induction false} TidyStart(f: File, n: string, node: Node)
    requires node.Job? ==> Tidy(f, n, StepsOf(node))
    ensures StartOf(f, n, node).Job? ==> Tidy(f, n, StepsOf(StartOf(f, n, node)))
  {
  }

  /** A document whose rewired jobs are all tidy converges: updating it twice is updating it once. */
  lemma {:induction false} TidyConverges(f: File, doc: Doc)
    requires Rewires(f) ==> forall n | n in doc.jobs && doc.jobs[n].Job? :: Tidy(f, n, StepsOf(doc.jobs[n]))
    ensures Converges(f, doc) && Updated(f, Updated(f, doc)) == Updated(f, doc)
  {
    if Rewires(f) {
      forall n | n in Updated(f, doc).jobs ensures JobConverges(f, IsPester(f, doc.name), n, Lookup(doc.jobs, n)) {
        TidyStart(f, n, Lookup(doc.jobs, n));
        var start := StartOf(f, n, Lookup(doc.jobs, n));
        if start.Job? { TidySettles(f, IsPester(f, doc.name), n, StepsOf(start)); }
      }
    }
    UpdateTwiceIff(f, doc);
  }

  // ---------------------------------------------------------------- jobs that keep changing

  const GUARD_CHECKOUT := BLANK.(name := Some(UnblockGuard), uses := Some(Checkout5))
  const INSTALL := ScriptStep(InstallMarkdownlint, None, OtherBody("npm ci"))

  lemma {:induction false} GuardEarly(s: seq<Step>)
    requires s == [GUARD_CHECKOUT]
    ensures EarlySteps(CiOrchestrated, false, "build", s) == s
  {
    FindIs(s, CategorySummary, 1);
    assert NormalizeHosted(s) == s;
  }

  lemma {:induction false} GuardWired(s: seq<Step>)
    requires s == [GUARD_CHECKOUT]
    ensures WireProbesSteps(s, DefaultResults) == [GUARD_CHECKOUT, StepJ1(DefaultResults), StepJ2(DefaultResults)]
  {
    assert !IsJProbe(GUARD_CHECKOUT) && Is(GUARD_CHECKOUT, Checkout);
    WithoutNothing(s);
    FindIs(s, Checkout, 0);
    BehindOnly(s, StepJ1(DefaultResults), StepJ2(DefaultResults));
  }

  lemma BehindOnly(s: seq<Step>, a: Step, b: Step)
    requires |s| == 1
    ensures s[..1] + [a, b] + s[1..] == [s[0], a, b]
  {
  }

  lemma {:induction false} GuardBlocked(j: seq<Step>)
    requires j == [GUARD_CHECKOUT, StepJ1(DefaultResults), StepJ2(DefaultResults)]
    ensures !AnchorsClear(CiOrchestrated, "build", j)
  {
    FindIs(j, Checkout, 0);
    FindIs(j, Named(UnblockGuard), 0);
    FindIs(j, Named(WireGuardPost), 3);
  }

  /** A first checkout named after an insertion anchor: J1 and J2 are parted from it, and the second run moves them. */
  lemma {:induction false} GuardNamedCheckout()
    ensures var q := RewiredSteps(CiOrchestrated, false, "build", [GUARD_CHECKOUT]);
      RewiredSteps(CiOrchestrated, false, "build", q) != q
  {
    var s := [GUARD_CHECKOUT];
    GuardEarly(s);
    GuardWired(s);
    GuardBlocked(WireProbesSteps(s, DefaultResults));
    RewiredIff(CiOrchestrated, false, "build", s);
    assert !Settles(CiOrchestrated, false, "build", s);
  }

  /** Two markdownlint install steps: each run deletes one. */
  lemma {:induction false} TwoInstalls()
    ensures var s := [INSTALL, INSTALL];
      var q := RewiredSteps(Validate, false, "lint", s);
      RewiredSteps(Validate, false, "lint", q) != q
  {
    var s := [INSTALL, INSTALL];
    assert Count(s, DROPPED) == 2 by {
      assert Is(INSTALL, DROPPED) && s[1..] == [INSTALL];
      assert Count([INSTALL], DROPPED) == 1;
    }
    TidyLintIff(Validate, false, s);
    RewiredIff(Validate, false, "lint", s);
  }
}
