/**
 The settling condition on the job as it is written, for validate.yml and for the gated
 pre-init job.
 */
module WrittenSpecialJobs {
  import opened Options
  import opened Texts
  import opened WorkflowVocabulary
  import opened StepLists
  import opened WorkflowStages
  import opened StepFacts
  import opened StageReadiness
  import opened RewiredJobs
  import opened RewiredFixedPoint
  import opened RewiredSettling
  import opened RewiredNecessity
  import opened WrittenJobs

  // ---------------------------------------------------------------- validate.yml

  /** In validate.yml a job that is neither linted nor gated always settles. */
  lemma {:induction false} ValidateSettles(pester: bool, n: string, s: seq<Step>)
    requires n != "lint" && !(pester && n == "pre-init")
    ensures Settles(Validate, pester, n, s)
  {
  }

  // ---------------------------------------------------------------- the gated job

  /**
   The gate of the pre-init job, without J1 and J2: with its output step, and in order
   unless the step named J1 or J2 stood before it and got its condition; or it is the
   re-run hint.
   */
  predicate GateWritten(f: File, s: seq<Step>) {
    var w := WithoutProbes(s);
    Has(w, PreInitGate) ==>
      && Kept(s, WithId("out"))
      && (GateOwn(s) || First(w, PreInitGate).value.cond == Some(ForceRunOff) ||
          (f.CiOrchestrated? && Has(s, CategorySummary) && Find(w, PreInitGate) == Find(w, Named(RerunMatrix))))
  }

  /** The first gate is not named J1 or J2. */
  predicate GateOwn(s: seq<Step>) {
    Has(s, PreInitGate) && !IsJProbe(First(s, PreInitGate).value)
  }

  /** What the gated job's condition depends on. */
  ghost predicate SameGate(w: seq<Step>, t: seq<Step>) {
    && Has(w, PreInitGate) == Has(t, PreInitGate)
    && (Find(w, PreInitGate) == Find(w, Named(RerunMatrix))) == (Find(t, PreInitGate) == Find(t, Named(RerunMatrix)))
  }

  lemma WithoutProbeUpdate(s: seq<Step>, i: nat, y: Step)
    requires i < |s| && IsJProbe(s[i]) && IsJProbe(y)
    ensures WithoutProbes(s[i := y]) == WithoutProbes(s)
  {
    assert s == s[..i] + ([s[i]] + s[i + 1..]) && s[i := y] == s[..i] + ([y] + s[i + 1..]);
    WithoutConcat(s[..i], [s[i]] + s[i + 1..]);
    WithoutConcat(s[..i], [y] + s[i + 1..]);
    WithoutConcat([s[i]], s[i + 1..]);
    WithoutConcat([y], s[i + 1..]);
    assert [s[i]][1..] == [] && [y][1..] == [];
  }

  /** The place of a first step among those that are left. */
  lemma {:induction false} FirstPlace(s: seq<Step>, sel: Selector)
    requires Has(s, sel) && !IsJProbe(First(s, sel).value)
    ensures Find(WithoutProbes(s), sel) == |WithoutProbes(s[..Find(s, sel)])|
  {
    var i := Find(s, sel);
    var head, tail := s[..i], s[i + 1..];
    assert s == head + ([s[i]] + tail);
    WithoutConcat(head, [s[i]] + tail);
    WithoutFront(s[i], tail);
    var w, k := WithoutProbes(s), |WithoutProbes(head)|;
    WithoutMembers(head);
    forall m | 0 <= m < k ensures !Is(w[m], sel) {
      assert w[m] == WithoutProbes(head)[m] && w[m] in head;
      var j :| 0 <= j < |head| && head[j] == w[m];
      assert s[j] == head[j];
    }
    FindIs(w, sel, k);
  }

  lemma GateEditIs(st: Step)
    requires st.Step?
    ensures var y := Edited(GateEdit, st);
      y.Step? && y.name == st.name && y.id == st.id && y.uses == st.uses && y.cond == Some(ForceRunOff) && IsJProbe(y) == IsJProbe(st)
  {
  }

  /** Setting the first gate's condition: it counts for the gate that is left only if that is the same step. */
  lemma {:induction false} GatedWithout(s: seq<Step>)
    requires Has(s, PreInitGate)
    ensures var t := Revise(s, PreInitGate, GateEdit); var w, u := WithoutProbes(s), WithoutProbes(t);
      && |w| == |u| && (forall sel :: Find(u, sel) == Find(w, sel) && Find(t, sel) == Find(s, sel))
      && (Has(w, PreInitGate) ==>
            (First(u, PreInitGate).value.cond == Some(ForceRunOff) <==>
             GateOwn(s) || First(w, PreInitGate).value.cond == Some(ForceRunOff)))
      && SameAnchors(w, u)
  {
    var i := Find(s, PreInitGate);
    var y, k := Edited(GateEdit, s[i]), |WithoutProbes(s[..i])|;
    GateEditIs(s[i]);
    forall sel ensures Find(s[i := y], sel) == Find(s, sel) { UpdateUnseen(s, i, y, sel); }
    if IsJProbe(s[i]) {
      WithoutProbeUpdate(s, i, y);
    } else {
      WithoutUpdate(s, i, y);
      FirstPlace(s, PreInitGate);
      forall sel ensures Find(WithoutProbes(s)[k := y], sel) == Find(WithoutProbes(s), sel) { UpdateUnseen(WithoutProbes(s), k, y, sel); }
      FoundSame(WithoutProbes(s), WithoutProbes(s)[k := y]);
    }
  }

  lemma {:induction false} InsertApart(s: seq<Step>, k: nat, x: Step, a: Selector, b: Selector)
    requires k <= |s| && !Is(x, a) && !Is(x, b)
    ensures (Find(Insert(s, k, x), a) == Find(Insert(s, k, x), b)) == (Find(s, a) == Find(s, b))
  {
    FindShift(s, k, x, a);
    FindShift(s, k, x, b);
  }

  lemma {:induction false} DocsOnlyIs()
    ensures !IsJProbe(DOCS_ONLY_STEP) && !Is(DOCS_ONLY_STEP, PreInitGate) && !Is(DOCS_ONLY_STEP, Named(RerunMatrix))
    ensures Is(DOCS_ONLY_STEP, WithId("out")) && !Is(DOCS_ONLY_STEP, CategorySummary) && Unread(DOCS_ONLY_STEP)
  {
    ScriptUnread(DOCS_ONLY_STEP);
  }

  /** The output step put in when there is none. */
  lemma DocsOnlyWithout(s: seq<Step>, k: nat)
    requires k <= |s| && !Has(s, WithId("out"))
    ensures var t := Insert(s, k, DOCS_ONLY_STEP); var w, u := WithoutProbes(s), WithoutProbes(t);
      && SameGate(w, u) && First(u, PreInitGate) == First(w, PreInitGate) && Has(u, WithId("out"))
      && Has(t, CategorySummary) == Has(s, CategorySummary) && SameAnchors(w, u)
  {
    var w, m := WithoutProbes(s), |WithoutProbes(s[..k])|;
    DocsOnlyIs();
    WithoutInsert(s, k, DOCS_ONLY_STEP);
    FindInsert(w, m, DOCS_ONLY_STEP, PreInitGate);
    InsertApart(w, m, DOCS_ONLY_STEP, PreInitGate, Named(RerunMatrix));
    HasInsert(w, m, DOCS_ONLY_STEP, WithId("out"));
    HasInsert(s, k, DOCS_ONLY_STEP, CategorySummary);
    InsertUnread(s, k, DOCS_ONLY_STEP);
  }

  /** A list in which the gate is as after the rewrite, as far as the rest of the run sees it. */
  ghost predicate GatedAs(s: seq<Step>, p: seq<Step>) {
    var w, u := WithoutProbes(s), WithoutProbes(p);
    && SameGate(w, u) && SameAnchors(w, u) && Has(p, CategorySummary) == Has(s, CategorySummary)
    && (Has(w, PreInitGate) ==>
          (First(u, PreInitGate).value.cond == Some(ForceRunOff) <==>
           GateOwn(s) || First(w, PreInitGate).value.cond == Some(ForceRunOff)))
  }

  lemma {:induction false} RevisedGate(s: seq<Step>)
    requires Has(s, PreInitGate)
    ensures var g := Revise(s, PreInitGate, GateEdit);
      && GatedAs(s, g) && |g| == |s| && Find(g, WithId("out")) == Find(s, WithId("out"))
      && Has(WithoutProbes(g), WithId("out")) == Has(WithoutProbes(s), WithId("out"))
  {
    GatedWithout(s);
    var g := Revise(s, PreInitGate, GateEdit);
    assert Find(g, WithId("out")) == Find(s, WithId("out")) && Find(g, CategorySummary) == Find(s, CategorySummary);
    assert Find(WithoutProbes(g), WithId("out")) == Find(WithoutProbes(s), WithId("out"));
  }

  lemma GatedFurther(s: seq<Step>, g: seq<Step>, p: seq<Step>)
    requires GatedAs(s, g)
    requires var w, u := WithoutProbes(g), WithoutProbes(p);
      SameGate(w, u) && First(u, PreInitGate) == First(w, PreInitGate) && SameAnchors(w, u) && Has(p, CategorySummary) == Has(g, CategorySummary)
    ensures GatedAs(s, p)
  {
    SameTrans(WithoutProbes(s), WithoutProbes(g), WithoutProbes(p));
  }

  lemma Ungated(s: seq<Step>)
    requires !Has(s, PreInitGate)
    ensures !Has(WithoutProbes(s), PreInitGate) && GatedAs(s, s)
  {
    if Has(WithoutProbes(s), PreInitGate) { WithoutHas(s, PreInitGate); }
  }

  lemma {:induction false} PreInitWithout(s: seq<Step>)
    ensures var p := PreInitSteps(s);
      && GatedAs(s, p)
      && (Has(WithoutProbes(s), PreInitGate) ==> Has(WithoutProbes(p), WithId("out")) == Kept(s, WithId("out")))
  {
    if Has(s, PreInitGate) {
      RevisedGate(s);
      var g := Revise(s, PreInitGate, GateEdit);
      if !Has(g, WithId("out")) {
        DocsOnlyWithout(g, Find(s, PreInitGate) + 1);
        GatedFurther(s, g, PreInitSteps(s));
      }
    } else {
      Ungated(s);
    }
  }

  lemma GateNormalize(s: seq<Step>)
    ensures var w, u := WithoutProbes(s), WithoutProbes(NormalizeHosted(s));
      && SameGate(w, u) && Has(NormalizeHosted(s), CategorySummary) == Has(s, CategorySummary)
      && Has(u, WithId("out")) == Has(w, WithId("out"))
      && (Has(w, PreInitGate) ==> First(u, PreInitGate).value.cond == First(w, PreInitGate).value.cond)
  {
    NormalizeFind(s, CategorySummary);
    NormalizeLeft(s, PreInitGate);
    NormalizeLeft(s, Named(RerunMatrix));
    NormalizeLeft(s, WithId("out"));
    NormalizeCond(s);
  }

  lemma NormalizeLeft(s: seq<Step>, sel: Selector)
    ensures |WithoutProbes(NormalizeHosted(s))| == |WithoutProbes(s)|
    ensures Find(WithoutProbes(NormalizeHosted(s)), sel) == Find(WithoutProbes(s), sel)
  {
    WithoutNormalize(s);
    NormalizeFind(WithoutProbes(s), sel);
  }

  lemma {:induction false} NormalizeCond(s: seq<Step>)
    ensures var w, u := WithoutProbes(s), WithoutProbes(NormalizeHosted(s));
      |w| == |u| && forall i | 0 <= i < |w| && w[i].Step? :: u[i].Step? && u[i].cond == w[i].cond
  {
    WithoutNormalize(s);
  }

  lemma ReadyGate(s: seq<Step>)
    ensures PreInitReady(s) <==>
            (Has(s, PreInitGate) ==> Has(s, WithId("out")) && First(s, PreInitGate).value.cond == Some(ForceRunOff))
  {
    if Has(s, PreInitGate) { GateEditIs(s[Find(s, PreInitGate)]); }
  }

  lemma SummaryLeft(s: seq<Step>)
    ensures Has(WithoutProbes(s), CategorySummary) == Has(s, CategorySummary)
  {
    WithoutFirst(s, CategorySummary);
  }

  lemma FirstEqual(s: seq<Step>, a: Selector, b: Selector)
    requires Has(s, a)
    ensures First(s, a) == First(s, b) <==> Find(s, a) == Find(s, b)
  {
    if First(s, a) == First(s, b) {
      HasAt(s, a, Find(s, b));
      HasAt(s, b, Find(s, a));
    }
  }

  /** The gate when the hint is already there: setting the hint's condition matters when it is the gate. */
  lemma {:induction false} GateHinted(a: seq<Step>)
    requires Normal(a) && Has(a, CategorySummary) && Has(a, Named(RerunMatrix)) && Has(WithoutProbes(a), PreInitGate)
    ensures var w, u := WithoutProbes(a), WithoutProbes(RerunAfterSummarySteps(a));
      GateRests(CiOrchestrated, u) <==>
      Has(w, WithId("out")) &&
      (First(w, PreInitGate).value.cond == Some(ForceRunOff) || Find(w, PreInitGate) == Find(w, Named(RerunMatrix)))
  {
    var w, i := WithoutProbes(a), Find(a, Named(RerunMatrix));
    var t, y, k := RerunAfterSummarySteps(a), Edited(RerunEdit(false), a[i]), |WithoutProbes(a[..i])|;
    RerunEditPlain(a[i], false);
    PlainEdit(a[i], y);
    WithoutUpdate(a, i, y);
    FirstPlace(a, Named(RerunMatrix));
    var u := w[k := y];
    UpdateUnseen(w, k, y, PreInitGate);
    UpdateUnseen(w, k, y, Named(RerunMatrix));
    UpdateUnseen(w, k, y, WithId("out"));
    assert y.cond == Some(Always);
    ReadyGate(u);
    FirstEqual(u, PreInitGate, Named(RerunMatrix));
    RerunSettles(a);
    RerunWithout(t);
    SummaryLeft(t);
    HintSummary(a);
  }

  lemma HintSummary(a: seq<Step>)
    requires Has(a, CategorySummary)
    ensures Has(RerunAfterSummarySteps(a), CategorySummary)
  {
    RerunKeeps(a, CategorySummary);
  }

  /** A step put in that is the first of one selector and not of another. */
  lemma InsertFirst(w: seq<Step>, m: nat, x: Step, gate: Selector, hint: Selector)
    requires m <= |w| && Is(x, hint) && !Is(x, gate) && !Has(w, hint) && Has(w, gate)
    ensures var u := Insert(w, m, x);
      First(u, gate) == First(w, gate) && Has(u, gate) && First(u, gate) != First(u, hint) && Find(w, gate) != Find(w, hint)
  {
    FindInsert(w, m, x, gate);
    InsertIndex(w, m, x);
    FindIs(Insert(w, m, x), hint, m);
  }

  lemma NoneLeft(s: seq<Step>, sel: Selector)
    requires !Has(s, sel)
    ensures !Has(WithoutProbes(s), sel)
  {
    WithoutFirst(s, sel);
  }

  lemma GateNoHint(u: seq<Step>)
    requires Has(u, PreInitGate) && First(u, PreInitGate) != First(u, Named(RerunMatrix))
    ensures GateRests(CiOrchestrated, u) <==> Has(u, WithId("out")) && First(u, PreInitGate).value.cond == Some(ForceRunOff)
  {
    ReadyGate(u);
  }

  /** The list of the gated job with a hint put in, before and after. */
  lemma GateFromUnhinted(w: seq<Step>, m: nat, x: Step)
    requires m <= |w| && Is(x, Named(RerunMatrix)) && !Is(x, PreInitGate) && !Is(x, WithId("out"))
    requires !Has(w, Named(RerunMatrix)) && Has(w, PreInitGate)
    ensures var u := Insert(w, m, x);
      && (GateRests(CiOrchestrated, u) <==> Has(w, WithId("out")) && First(w, PreInitGate).value.cond == Some(ForceRunOff))
      && Find(w, PreInitGate) != Find(w, Named(RerunMatrix))
  {
    InsertFirst(w, m, x, PreInitGate, Named(RerunMatrix));
    HasInsert(w, m, x, WithId("out"));
    GateNoHint(Insert(w, m, x));
  }

  /** The gate when the hint is put in: it is not the gate. */
  lemma {:induction false} GateUnhinted(a: seq<Step>)
    requires Has(a, CategorySummary) && !Has(a, Named(RerunMatrix)) && Has(WithoutProbes(a), PreInitGate)
    ensures var w, u := WithoutProbes(a), WithoutProbes(RerunAfterSummarySteps(a));
      && (GateRests(CiOrchestrated, u) <==> Has(w, WithId("out")) && First(w, PreInitGate).value.cond == Some(ForceRunOff))
      && Find(w, PreInitGate) != Find(w, Named(RerunMatrix))
  {
    var k, x := Find(a, CategorySummary) + 1, RerunStep(false);
    RerunStepIs(false);
    HintIsNoGate();
    NoneLeft(a, Named(RerunMatrix));
    WithoutInsert(a, k, x);
    HintPutIn(a, RerunStep(false));
    GateFromUnhinted(WithoutProbes(a), |WithoutProbes(a[..k])|, x);
  }

  lemma EnsurePutIn(s: seq<Step>, sel: Selector, e: Edit, k: nat, x: Step)
    requires k <= |s| && !Has(s, sel)
    ensures Ensure(s, sel, e, k, x) == Insert(s, k, x)
  {
  }

  lemma {:induction false} HintPutIn(a: seq<Step>, x: Step)
    requires Has(a, CategorySummary) && !Has(a, Named(RerunMatrix)) && x == RerunStep(false)
    ensures RerunAfterSummarySteps(a) == Insert(a, Find(a, CategorySummary) + 1, x)
  {
    EnsurePutIn(a, Named(RerunMatrix), RerunEdit(false), Find(a, CategorySummary) + 1, x);
  }

  lemma GateHint(a: seq<Step>)
    requires Normal(a)
    ensures var w, u := WithoutProbes(a), WithoutProbes(RerunAfterSummarySteps(a));
      GateRests(CiOrchestrated, u) <==>
      (Has(w, PreInitGate) ==>
         Has(w, WithId("out")) &&
         (First(w, PreInitGate).value.cond == Some(ForceRunOff) ||
          (Has(a, CategorySummary) && Find(w, PreInitGate) == Find(w, Named(RerunMatrix)))))
  {
    var w, t := WithoutProbes(a), RerunAfterSummarySteps(a);
    if !Has(a, CategorySummary) {
      ReadyGate(w);
      SummaryLeft(a);
    } else if !Has(w, PreInitGate) {
      GateAbsent(w);
      GateStaysAbsent(a);
    } else if Has(a, Named(RerunMatrix)) {
      GateHinted(a);
    } else {
      GateUnhinted(a);
    }
  }

  lemma {:induction false} GateStaysAbsent(a: seq<Step>)
    requires Has(a, CategorySummary) && !Has(WithoutProbes(a), PreInitGate)
    ensures !Has(WithoutProbes(RerunAfterSummarySteps(a)), PreInitGate)
  {
    HintIsNoGate();
    forall st | Is(st, Named(RerunMatrix)) ensures Is(Edited(RerunEdit(false), st), PreInitGate) == Is(st, PreInitGate) {
      SelectorsIgnore(st, Edited(RerunEdit(false), st), PreInitGate);
    }
    RerunStepIs(false);
    EnsureKept(a, Named(RerunMatrix), RerunEdit(false), Find(a, CategorySummary) + 1, RerunStep(false), PreInitGate);
  }

  /** The gated list after normalization, in either file. */
  lemma {:induction false} GateNormalized(s: seq<Step>)
    ensures var a := NormalizeHosted(PreInitSteps(s)); var w, u := WithoutProbes(s), WithoutProbes(a);
      && Normal(a) && SameGate(w, u) && SameAnchors(w, u) && Has(a, CategorySummary) == Has(s, CategorySummary)
      && (Has(w, PreInitGate) ==>
            && Has(u, WithId("out")) == Kept(s, WithId("out"))
            && (First(u, PreInitGate).value.cond == Some(ForceRunOff) <==>
                GateOwn(s) || First(w, PreInitGate).value.cond == Some(ForceRunOff)))
  {
    var p := PreInitSteps(s);
    PreInitWithout(s);
    GateNormalize(p);
    NormalizeNormal(p);
    NormalizeKept(p, Checkout);
    SameTrans(WithoutProbes(s), WithoutProbes(p), WithoutProbes(NormalizeHosted(p)));
  }

  lemma {:induction false} OrchestratedGateIff(s: seq<Step>)
    ensures GateRests(CiOrchestrated, WithoutProbes(EarlySteps(CiOrchestrated, true, "pre-init", s))) <==> GateWritten(CiOrchestrated, s)
  {
    GateNormalized(s);
    GateHint(NormalizeHosted(PreInitSteps(s)));
  }

  lemma {:induction false} ValidateGateIff(s: seq<Step>)
    ensures GateRests(Validate, WithoutProbes(EarlySteps(Validate, true, "pre-init", s))) <==> GateWritten(Validate, s)
  {
    GateNormalized(s);
    ReadyGate(WithoutProbes(NormalizeHosted(PreInitSteps(s))));
  }

  lemma {:induction false} GateAnchors(s: seq<Step>)
    ensures var e := EarlySteps(CiOrchestrated, true, "pre-init", s);
      AnchorsClear(CiOrchestrated, "pre-init", WireProbesSteps(e, ProbeDir("pre-init"))) ==
      AnchorsClear(CiOrchestrated, "pre-init", WithoutProbes(s))
  {
    var a, dir := NormalizeHosted(PreInitSteps(s)), ProbeDir("pre-init");
    var e := RerunAfterSummarySteps(a);
    GateNormalized(s);
    HintSame(a);
    WireSame(e, dir);
    SameTrans(WithoutProbes(s), WithoutProbes(a), WithoutProbes(e));
    SameTrans(WithoutProbes(s), WithoutProbes(e), WireProbesSteps(e, dir));
    SameClear(CiOrchestrated, "pre-init", WithoutProbes(s), WireProbesSteps(e, dir));
  }

  /** The gated job of a rewired file, read off its steps as written. */
  lemma {:induction false} WrittenGateIff(f: File, s: seq<Step>)
    requires Rewires(f)
    ensures Settles(f, true, "pre-init", s) <==> GateWritten(f, s) && AnchorsClear(f, "pre-init", WithoutProbes(s))
  {
    if f.CiOrchestrated? {
      OrchestratedGateIff(s);
      GateAnchors(s);
    } else {
      ValidateGateIff(s);
    }
  }
}
