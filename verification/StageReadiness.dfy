/**
 For every rewrite of one job: a condition on the step list under which the rewrite has
 nothing left to do, and the proof that one pass of the rewrite brings it about.
 */
module StageReadiness {
  import opened Options
  import opened Texts
  import opened WorkflowVocabulary
  import opened StepLists
  import opened WorkflowStages
  import opened StepFacts

  // ---------------------------------------------------------------- pre-init

  predicate PreInitReady(s: seq<Step>) {
    Has(s, PreInitGate) ==> Ready(s, PreInitGate, GateEdit) && Has(s, WithId("out"))
  }

  /**
   The gate step is also the job's re-run hint: each run sets its condition for the gate
   and then sets it back for the hint.
   */
  predicate GateIsHint(s: seq<Step>) {
    Has(s, PreInitGate) && Has(s, WithId("out")) && Has(s, CategorySummary) &&
    First(s, PreInitGate) == First(s, Named(RerunMatrix)) && RerunReady(s)
  }

  lemma HintUndoesGate(g: Step)
    requires g.Step? && Edited(RerunEdit(false), g) == g
    ensures Edited(RerunEdit(false), Edited(GateEdit, g)) == g
  {
  }

  /** Rewriting a step without touching its name, id and action moves no selector. */
  lemma UpdateUnseen(s: seq<Step>, i: nat, y: Step, sel: Selector)
    requires i < |s| && s[i].Step? && y.Step? && s[i].name == y.name && s[i].id == y.id && s[i].uses == y.uses
    ensures Find(s[i := y], sel) == Find(s, sel) && Has(s[i := y], sel) == Has(s, sel)
  {
    SelectorsIgnore(s[i], y, sel);
    FindUpdate(s, i, y, sel);
  }

  lemma {:induction false} GateIsHintFixed(s: seq<Step>)
    requires GateIsHint(s) && Normal(s)
    ensures RerunAfterSummarySteps(NormalizeHosted(PreInitSteps(s))) == s
  {
    var i, j := Find(s, PreInitGate), Find(s, Named(RerunMatrix));
    assert s[j] == s[i];
    var gated := Edited(GateEdit, s[i]);
    HintUndoesGate(s[i]);
    UpdateUnseen(s, i, gated, WithId("out"));
    UpdateUnseen(s, i, gated, CategorySummary);
    UpdateUnseen(s, i, gated, Named(RerunMatrix));
    ReviseRestores(s, Named(RerunMatrix), RerunEdit(false), gated);
    NormalEnsure'(s, PreInitGate, GateEdit);
    NormalFixed(s[i := gated]);
  }

  lemma PreInitFixed(s: seq<Step>)
    requires PreInitReady(s)
    ensures PreInitSteps(s) == s
  {
    if Has(s, PreInitGate) { EnsureReady(s, PreInitGate, GateEdit, 0, DOCS_ONLY_STEP); }
  }

  lemma GateSettles(s: seq<Step>)
    requires Has(s, PreInitGate)
    ensures Ready(Revise(s, PreInitGate, GateEdit), PreInitGate, GateEdit)
    ensures Find(Revise(s, PreInitGate, GateEdit), PreInitGate) == Find(s, PreInitGate)
  {
    var i := Find(s, PreInitGate);
    UpdateUnseen(s, i, Edited(GateEdit, s[i]), PreInitGate);
  }

  lemma {:induction false} DocsOnlyAdded(s: seq<Step>, k: nat)
    requires k <= |s|
    ensures First(Insert(s, k, DOCS_ONLY_STEP), PreInitGate) == First(s, PreInitGate)
    ensures Has(Insert(s, k, DOCS_ONLY_STEP), WithId("out"))
    ensures Normal(s) ==> Normal(Insert(s, k, DOCS_ONLY_STEP))
  {
    FindInsert(s, k, DOCS_ONLY_STEP, PreInitGate);
    HasInsert(s, k, DOCS_ONLY_STEP, WithId("out"));
  }

  lemma {:induction false} PreInitSettles(s: seq<Step>)
    ensures PreInitReady(PreInitSteps(s))
    ensures Normal(s) ==> Normal(PreInitSteps(s))
  {
    if Has(s, PreInitGate) {
      GateSettles(s);
      NormalEnsure'(s, PreInitGate, GateEdit);
      DocsOnlyAdded(Revise(s, PreInitGate, GateEdit), Find(s, PreInitGate) + 1);
    }
  }

  lemma NormalEnsure'(s: seq<Step>, sel: Selector, e: Edit)
    requires forall st | Is(st, sel) && HostedNormal(st) == st :: HostedNormal(Edited(e, st)) == Edited(e, st)
    ensures Normal(s) ==> Normal(Revise(s, sel, e))
  {
    if Normal(s) && Has(s, sel) { NormalEnsure(s, sel, e, 0, BLANK); }
  }

  // ---------------------------------------------------------------- hosted preflight

  predicate PreflightReady(s: seq<Step>) {
    Has(s, Checkout) && Ready(s, VerifyRunner, HostedEdit)
  }

  lemma PreflightFixed(s: seq<Step>)
    requires PreflightReady(s)
    ensures HostedPreflightSteps(s) == s
  {
    EnsureReady(s, VerifyRunner, HostedEdit, 1, PREFLIGHT_STEP);
  }

  lemma WithCheckoutHas(s: seq<Step>)
    ensures Has(WithCheckout(s), Checkout)
    ensures forall sel | !Is(BARE_CHECKOUT, sel) :: First(WithCheckout(s), sel) == First(s, sel)
    ensures Normal(s) ==> Normal(WithCheckout(s))
  {
    assert [BARE_CHECKOUT] + s == Insert(s, 0, BARE_CHECKOUT);
    HasInsert(s, 0, BARE_CHECKOUT, Checkout);
    forall sel | !Is(BARE_CHECKOUT, sel)
      ensures First(WithCheckout(s), sel) == First(s, sel)
    {
      FindInsert(s, 0, BARE_CHECKOUT, sel);
    }
  }

  lemma {:induction false} VerifySettles(t: seq<Step>, k: nat)
    requires k <= |t| && Normal(t)
    ensures var u := Ensure(t, VerifyRunner, HostedEdit, k, PREFLIGHT_STEP); Ready(u, VerifyRunner, HostedEdit) && Normal(u)
  {
    EnsureSettles(t, VerifyRunner, HostedEdit, k, PREFLIGHT_STEP);
    NormalEnsure(t, VerifyRunner, HostedEdit, k, PREFLIGHT_STEP);
  }

  lemma VerifyKeepsCheckout(t: seq<Step>, k: nat)
    requires k <= |t| && Has(t, Checkout)
    ensures Has(Ensure(t, VerifyRunner, HostedEdit, k, PREFLIGHT_STEP), Checkout)
  {
    EnsureKeeps(t, VerifyRunner, HostedEdit, k, PREFLIGHT_STEP, Checkout);
  }

  lemma PreflightSettles(s: seq<Step>)
    requires Normal(s)
    ensures PreflightReady(HostedPreflightSteps(s)) && Normal(HostedPreflightSteps(s))
  {
    var t, k := WithCheckout(s), if Has(s, Checkout) then 1 else 0;
    WithCheckoutHas(s);
    VerifySettles(t, k);
    VerifyKeepsCheckout(t, k);
  }

  // ---------------------------------------------------------------- re-run hints

  predicate RerunReady(s: seq<Step>) {
    Has(s, CategorySummary) ==> Ready(s, Named(RerunMatrix), RerunEdit(false))
  }

  lemma RerunFixed(s: seq<Step>)
    requires RerunReady(s)
    ensures RerunAfterSummarySteps(s) == s
  {
    if Has(s, CategorySummary) {
      EnsureReady(s, Named(RerunMatrix), RerunEdit(false), Find(s, CategorySummary) + 1, RerunStep(false));
    }
  }

  lemma RerunEditStays(st: Step, single: bool)
    requires Is(st, Named(RerunName(single)))
    ensures var y := Edited(RerunEdit(single), st);
      && Is(y, Named(RerunName(single))) && Edited(RerunEdit(single), y) == y
      && (HostedNormal(st) == st ==> HostedNormal(y) == y)
  {
  }

  lemma RerunStepStays(single: bool)
    ensures var x := RerunStep(single);
      Is(x, Named(RerunName(single))) && Edited(RerunEdit(single), x) == x && HostedNormal(x) == x
  {
  }

  /** A selector sees a re-run hint as before its edit. */
  lemma RerunEditSeen(st: Step, single: bool, sel: Selector)
    requires st.Step?
    ensures Is(Edited(RerunEdit(single), st), sel) == Is(st, sel)
  {
    SelectorsIgnore(st, Edited(RerunEdit(single), st), sel);
  }

  lemma HintSettles(s: seq<Step>, single: bool, k: nat)
    requires k <= |s|
    ensures Ready(Ensure(s, Named(RerunName(single)), RerunEdit(single), k, RerunStep(single)), Named(RerunName(single)), RerunEdit(single))
  {
    var sel, e := Named(RerunName(single)), RerunEdit(single);
    RerunStepStays(single);
    forall st | Is(st, sel) ensures Is(Edited(e, st), sel) && Edited(e, Edited(e, st)) == Edited(e, st) { RerunEditStays(st, single); }
    EnsureSettles(s, sel, e, k, RerunStep(single));
  }

  lemma HintNormal(s: seq<Step>, single: bool, k: nat)
    requires k <= |s| && Normal(s)
    ensures Normal(Ensure(s, Named(RerunName(single)), RerunEdit(single), k, RerunStep(single)))
  {
    var sel, e := Named(RerunName(single)), RerunEdit(single);
    RerunStepStays(single);
    forall st | Is(st, sel) && HostedNormal(st) == st ensures HostedNormal(Edited(e, st)) == Edited(e, st) { RerunEditStays(st, single); }
    NormalEnsure(s, sel, e, k, RerunStep(single));
  }

  lemma {:induction false} RerunSettles(s: seq<Step>)
    requires Normal(s)
    ensures RerunReady(RerunAfterSummarySteps(s)) && Normal(RerunAfterSummarySteps(s))
  {
    if Has(s, CategorySummary) {
      HintSettles(s, false, Find(s, CategorySummary) + 1);
      HintNormal(s, false, Find(s, CategorySummary) + 1);
    }
  }

  /** The re-run hint never takes another selector's steps away. */
  lemma {:induction false} RerunKeeps(s: seq<Step>, sel: Selector)
    requires Has(s, sel)
    ensures Has(RerunAfterSummarySteps(s), sel)
  {
    if Has(s, CategorySummary) {
      forall st | Is(st, Named(RerunMatrix)) && Is(st, sel) ensures Is(Edited(RerunEdit(false), st), sel) { RerunEditSeen(st, false, sel); }
      EnsureKeeps(s, Named(RerunMatrix), RerunEdit(false), Find(s, CategorySummary) + 1, RerunStep(false), sel);
    }
  }

  lemma {:induction false} RerunOther(s: seq<Step>, sel: Selector)
    requires forall st | Is(st, Named(RerunMatrix)) :: !Is(st, sel)
    ensures First(RerunAfterSummarySteps(s), sel) == First(s, sel)
  {
    if Has(s, CategorySummary) {
      EnsureOther(s, Named(RerunMatrix), RerunEdit(false), Find(s, CategorySummary) + 1, RerunStep(false), sel);
    }
  }

  lemma {:induction false} SingleHintUnseen(sel: Selector)
    requires sel.CategorySummary? || sel == Named(RerunMatrix)
    ensures !Is(RerunStep(true), sel)
    ensures forall st | Is(st, Named(RerunSingle)) :: !Is(st, sel) && !Is(Edited(RerunEdit(true), st), sel)
  {
  }

  lemma SingleHintOther(s: seq<Step>, sel: Selector)
    requires sel.CategorySummary? || sel == Named(RerunMatrix)
    ensures First(RerunInJobSteps(s, true), sel) == First(s, sel)
  {
    SingleHintUnseen(sel);
    EnsureOther(s, Named(RerunSingle), RerunEdit(true), |s|, RerunStep(true), sel);
  }

  lemma {:induction false} MatrixHintNoSummary(s: seq<Step>)
    requires !Has(s, CategorySummary)
    ensures !Has(RerunInJobSteps(s, false), CategorySummary)
  {
    var i := Find(s, Named(RerunMatrix));
    if i < |s| {
      UpdateUnseen(s, i, Edited(RerunEdit(false), s[i]), CategorySummary);
    } else {
      HasInsert(s, |s|, RerunStep(false), CategorySummary);
    }
  }

  lemma MatrixHintKeepsReady(s: seq<Step>)
    requires RerunReady(s)
    ensures RerunReady(RerunInJobSteps(s, false))
  {
    if Has(s, CategorySummary) {
      EnsureReady(s, Named(RerunMatrix), RerunEdit(false), |s|, RerunStep(false));
    } else {
      MatrixHintNoSummary(s);
    }
  }

  lemma RerunInJobKeepsReady(s: seq<Step>, single: bool)
    requires RerunReady(s)
    ensures RerunReady(RerunInJobSteps(s, single))
  {
    if single {
      SingleHintOther(s, CategorySummary);
      SingleHintOther(s, Named(RerunMatrix));
    } else {
      MatrixHintKeepsReady(s);
    }
  }

  lemma {:induction false} RerunInJobSettles(s: seq<Step>, single: bool)
    requires Normal(s) && RerunReady(s)
    ensures Ready(RerunInJobSteps(s, single), Named(RerunName(single)), RerunEdit(single))
    ensures Normal(RerunInJobSteps(s, single)) && RerunReady(RerunInJobSteps(s, single))
  {
    RerunInJobKeepsReady(s, single);
    HintSettles(s, single, |s|);
    HintNormal(s, single, |s|);
  }

  // ---------------------------------------------------------------- interactivity probe

  predicate InteractivityReady(s: seq<Step>) {
    Has(s, Checkout) && Ready(s, WithId("out"), ProbeEdit)
  }

  lemma InteractivityFixed(s: seq<Step>)
    requires InteractivityReady(s)
    ensures InteractivitySteps(s) == s
  {
    EnsureReady(s, WithId("out"), ProbeEdit, Find(s, Checkout) + 1, PROBE_STEP);
  }

  lemma ProbeEditSettles(st: Step)
    requires Is(st, WithId("out"))
    ensures var y := Edited(ProbeEdit, st);
      Is(y, WithId("out")) && Edited(ProbeEdit, y) == y && Is(y, Checkout) == Is(st, Checkout)
  {
  }

  lemma {:induction false} ProbeStepSettled()
    ensures Is(PROBE_STEP, WithId("out")) && Edited(ProbeEdit, PROBE_STEP) == PROBE_STEP && !Is(PROBE_STEP, Checkout)
  {
  }

  lemma {:induction false} ProbeReady(t: seq<Step>, k: nat)
    requires k <= |t|
    requires !Has(t, WithId("out")) ==> forall m | 0 <= m < k :: !Is(t[m], WithId("out"))
    ensures Ready(Ensure(t, WithId("out"), ProbeEdit, k, PROBE_STEP), WithId("out"), ProbeEdit)
  {
    var i := Find(t, WithId("out"));
    if i < |t| {
      ProbeEditSettles(t[i]);
      UpdateFirst(t, i, Edited(ProbeEdit, t[i]), WithId("out"));
    } else {
      ProbeStepSettled();
      FindIs(Insert(t, k, PROBE_STEP), WithId("out"), k);
    }
  }

  lemma ProbeKeepsCheckout(t: seq<Step>, k: nat)
    requires k <= |t| && Has(t, Checkout)
    ensures Has(Ensure(t, WithId("out"), ProbeEdit, k, PROBE_STEP), Checkout)
  {
    var i := Find(t, WithId("out"));
    if i < |t| {
      ProbeEditSettles(t[i]);
      UpdateFirst(t, i, Edited(ProbeEdit, t[i]), Checkout);
    } else {
      HasInsert(t, k, PROBE_STEP, Checkout);
    }
  }

  lemma ProbeSettles(t: seq<Step>, k: nat)
    requires Has(t, Checkout) && k <= |t|
    requires !Has(t, WithId("out")) ==> forall m | 0 <= m < k :: !Is(t[m], WithId("out"))
    ensures InteractivityReady(Ensure(t, WithId("out"), ProbeEdit, k, PROBE_STEP))
  {
    ProbeReady(t, k);
    ProbeKeepsCheckout(t, k);
  }

  lemma {:induction false} InteractivitySettles(s: seq<Step>)
    requires Normal(s)
    ensures InteractivityReady(InteractivitySteps(s)) && Normal(InteractivitySteps(s))
  {
    var t := WithCheckout(s);
    WithCheckoutHas(s);
    ProbeSettles(t, Find(t, Checkout) + 1);
    NormalEnsure(t, WithId("out"), ProbeEdit, Find(t, Checkout) + 1, PROBE_STEP);
  }

  // ---------------------------------------------------------------- lint

  /** Everything the lint rewrite wants, apart from the one install step it deletes per run. */
  predicate LintArranged(s: seq<Step>) {
    && Ready(s, Named(InstallActionlint), InstallEdit)
    && Ready(s, Named(RunActionlint), RunActionlintEdit)
    && Ready(s, Named(SetupNode), NodeEdit)
    && Ready(s, Named(MarkdownlintName(s)), MarkdownlintEdit)
  }

  predicate LintReady(s: seq<Step>) {
    LintArranged(s) && !Has(s, Named(InstallMarkdownlint))
  }

  lemma {:induction false} LintFixed(s: seq<Step>)
    requires LintReady(s)
    ensures LintSteps(s) == s
  {
    EnsureReady(s, Named(InstallActionlint), InstallEdit, if Has(s, Checkout) then Find(s, Checkout) + 1 else 0, INSTALL_STEP);
    EnsureReady(s, Named(RunActionlint), RunActionlintEdit, Find(s, Named(InstallActionlint)) + 1, RUN_ACTIONLINT_STEP);
    EnsureReady(s, Named(SetupNode), NodeEdit, Find(s, Named(MarkdownlintName(s))), NODE_STEP);
    EnsureReady(s, Named(MarkdownlintName(s)), MarkdownlintEdit, |s|, MARKDOWNLINT_STEP);
    LintInstallHas(s);
  }

  predicate MarkdownName(n: Name) {
    n.RunMarkdownlint? || n.RunMarkdownlintNonBlocking? || n.RunMarkdownlintScoped?
  }

  /** The steps the lint rewrite edits, replaces, inserts or deletes. */
  predicate LintNamed(st: Step) {
    st.Step? && st.name.Some? &&
    (MarkdownName(st.name.value) || st.name.value.InstallActionlint? || st.name.value.RunActionlint?
     || st.name.value.SetupNode? || st.name.value.InstallMarkdownlint?)
  }

  lemma {:induction false} MarkdownSettles(s: seq<Step>)
    ensures Ready(LintMarkdown(s), Named(MarkdownlintName(LintMarkdown(s))), MarkdownlintEdit)
  {
    var was := Named(MarkdownlintName(s));
    var t, i := LintMarkdown(s), Find(s, was);
    if was.name.RunMarkdownlintScoped? {
      ReviseFirst(s, was, MarkdownlintEdit, Named(RunMarkdownlint));
      ReviseFirst(s, was, MarkdownlintEdit, Named(RunMarkdownlintNonBlocking));
      ReviseFirst(s, was, MarkdownlintEdit, was);
    } else {
      FindIs(t, Named(RunMarkdownlint), i);
    }
  }

  lemma {:induction false} MarkdownOther(s: seq<Step>, sel: Selector)
    requires forall st: Step | st.Step? && st.name.Some? && MarkdownName(st.name.value) :: !Is(st, sel)
    ensures First(LintMarkdown(s), sel) == First(s, sel)
  {
    var was := Named(MarkdownlintName(s));
    forall st | Is(st, was) ensures !Is(Edited(MarkdownlintEdit, st), sel) && !Is(st, sel) {
      var done := Edited(MarkdownlintEdit, st);
      assert done.name.Some? && MarkdownName(done.name.value);
    }
    EnsureOther(s, was, MarkdownlintEdit, |s|, MARKDOWNLINT_STEP, sel);
  }

  lemma {:induction false} NodeSettles(s: seq<Step>)
    ensures Ready(LintNode(s), Named(SetupNode), NodeEdit)
  {
    EnsureSettles(s, Named(SetupNode), NodeEdit, Find(s, Named(MarkdownlintName(s))), NODE_STEP);
  }

  lemma NodeEditName(st: Step)
    requires Is(st, Named(SetupNode))
    ensures Edited(NodeEdit, st).Step? && Edited(NodeEdit, st).name == Some(SetupNode)
  {
  }

  lemma {:induction false} NodeOther(s: seq<Step>, sel: Selector)
    requires forall st: Step | st.Step? && st.name == Some(SetupNode) :: !Is(st, sel)
    ensures First(LintNode(s), sel) == First(s, sel)
  {
    var i := Find(s, Named(SetupNode));
    if i < |s| {
      NodeEditName(s[i]);
      UpdateElsewhere(s, i, Edited(NodeEdit, s[i]), sel);
    } else {
      FindInsert(s, Find(s, Named(MarkdownlintName(s))), NODE_STEP, sel);
    }
  }

  lemma {:induction false} LintRunFacts(s: seq<Step>)
    requires Ready(s, Named(InstallActionlint), InstallEdit)
    ensures Ready(LintRun(s), Named(InstallActionlint), InstallEdit) && Ready(LintRun(s), Named(RunActionlint), RunActionlintEdit)
  {
    var k := Find(s, Named(InstallActionlint)) + 1;
    EnsureSettles(s, Named(RunActionlint), RunActionlintEdit, k, RUN_ACTIONLINT_STEP);
    EnsureOther(s, Named(RunActionlint), RunActionlintEdit, k, RUN_ACTIONLINT_STEP, Named(InstallActionlint));
  }

  lemma DropOther(s: seq<Step>, sel: Selector)
    requires forall st: Step | st.Step? && st.name == Some(InstallMarkdownlint) :: !Is(st, sel)
    ensures First(LintDropInstall(s), sel) == First(s, sel)
  {
    if Has(s, Named(InstallMarkdownlint)) { FindRemove(s, Find(s, Named(InstallMarkdownlint)), sel); }
  }

  lemma LintInstallSettles(s: seq<Step>)
    ensures Ready(LintInstall(s), Named(InstallActionlint), InstallEdit)
  {
    EnsureSettles(s, Named(InstallActionlint), InstallEdit, if Has(s, Checkout) then Find(s, Checkout) + 1 else 0, INSTALL_STEP);
  }

  lemma {:induction false} LintTailKeeps(s: seq<Step>, n: Name)
    requires n.InstallActionlint? || n.RunActionlint?
    ensures First(LintMarkdown(LintDropInstall(LintNode(s))), Named(n)) == First(s, Named(n))
  {
    NodeOther(s, Named(n));
    DropOther(LintNode(s), Named(n));
    MarkdownOther(LintDropInstall(LintNode(s)), Named(n));
  }

  lemma LintTailSettles(s: seq<Step>)
    ensures var t := LintMarkdown(LintDropInstall(LintNode(s)));
      Ready(t, Named(SetupNode), NodeEdit) && Ready(t, Named(MarkdownlintName(t)), MarkdownlintEdit)
  {
    NodeSettles(s);
    DropOther(LintNode(s), Named(SetupNode));
    MarkdownOther(LintDropInstall(LintNode(s)), Named(SetupNode));
    MarkdownSettles(LintDropInstall(LintNode(s)));
  }

  lemma LintSettles(s: seq<Step>)
    ensures LintArranged(LintSteps(s))
  {
    LintInstallHas(s);
    LintInstallSettles(s);
    LintRunFacts(LintInstall(s));
    var b := LintRun(LintInstall(s));
    LintTailKeeps(b, InstallActionlint);
    LintTailKeeps(b, RunActionlint);
    LintTailSettles(b);
  }

  /** A step that is not looked for, in the place of another such step. */
  lemma UpdateElsewhere(s: seq<Step>, i: nat, y: Step, sel: Selector)
    requires i < |s| && !Is(s[i], sel) && !Is(y, sel)
    ensures First(s[i := y], sel) == First(s, sel)
  {
    FindUpdate(s, i, y, sel);
  }

  lemma InstallEditName(st: Step)
    requires Is(st, Named(InstallActionlint))
    ensures Edited(InstallEdit, st).Step? && Edited(InstallEdit, st).name == Some(InstallActionlint)
  {
  }

  lemma {:induction false} LintInstallOther(s: seq<Step>, sel: Selector)
    requires forall st: Step | st.Step? && st.name == Some(InstallActionlint) :: !Is(st, sel)
    ensures First(LintInstall(s), sel) == First(s, sel)
  {
    var i := Find(s, Named(InstallActionlint));
    if i < |s| {
      InstallEditName(s[i]);
      UpdateElsewhere(s, i, Edited(InstallEdit, s[i]), sel);
    } else {
      FindInsert(s, if Has(s, Checkout) then Find(s, Checkout) + 1 else 0, INSTALL_STEP, sel);
    }
  }

  lemma RunEditName(st: Step)
    requires Is(st, Named(RunActionlint))
    ensures Edited(RunActionlintEdit, st).Step? && Edited(RunActionlintEdit, st).name == Some(RunActionlint)
  {
  }

  lemma {:induction false} LintRunOther(s: seq<Step>, sel: Selector)
    requires Has(s, Named(InstallActionlint))
    requires forall st: Step | st.Step? && st.name == Some(RunActionlint) :: !Is(st, sel)
    ensures First(LintRun(s), sel) == First(s, sel)
  {
    var i := Find(s, Named(RunActionlint));
    if i < |s| {
      RunEditName(s[i]);
      UpdateElsewhere(s, i, Edited(RunActionlintEdit, s[i]), sel);
    } else {
      FindInsert(s, Find(s, Named(InstallActionlint)) + 1, RUN_ACTIONLINT_STEP, sel);
    }
  }

  /** The lint rewrite does not affect selectors that pick none of its own steps. */
  lemma {:induction false} LintOther(s: seq<Step>, sel: Selector)
    requires forall st | LintNamed(st) :: !Is(st, sel)
    ensures First(LintSteps(s), sel) == First(s, sel)
  {
    LintInstallHas(s);
    LintInstallOther(s, sel);
    LintRunOther(LintInstall(s), sel);
    var b := LintRun(LintInstall(s));
    NodeOther(b, sel);
    DropOther(LintNode(b), sel);
    MarkdownOther(LintDropInstall(LintNode(b)), sel);
  }

  // ---------------------------------------------------------------- which markdownlint step the lint job has

  lemma SameName(s: seq<Step>, t: seq<Step>)
    requires forall n | MarkdownName(n) :: First(t, Named(n)) == First(s, Named(n))
    ensures MarkdownlintName(t) == MarkdownlintName(s)
  {
    assert First(t, Named(RunMarkdownlint)) == First(s, Named(RunMarkdownlint));
    assert First(t, Named(RunMarkdownlintNonBlocking)) == First(s, Named(RunMarkdownlintNonBlocking));
    assert First(t, Named(RunMarkdownlintScoped)) == First(s, Named(RunMarkdownlintScoped));
  }

  lemma InstallName(s: seq<Step>)
    ensures MarkdownlintName(LintInstall(s)) == MarkdownlintName(s)
  {
    forall n | MarkdownName(n) ensures First(LintInstall(s), Named(n)) == First(s, Named(n)) { LintInstallOther(s, Named(n)); }
    SameName(s, LintInstall(s));
  }

  lemma RunName(s: seq<Step>)
    requires Has(s, Named(InstallActionlint))
    ensures MarkdownlintName(LintRun(s)) == MarkdownlintName(s)
  {
    forall n | MarkdownName(n) ensures First(LintRun(s), Named(n)) == First(s, Named(n)) { LintRunOther(s, Named(n)); }
    SameName(s, LintRun(s));
  }

  lemma NodeName(s: seq<Step>)
    ensures MarkdownlintName(LintNode(s)) == MarkdownlintName(s)
  {
    forall n | MarkdownName(n) ensures First(LintNode(s), Named(n)) == First(s, Named(n)) { NodeOther(s, Named(n)); }
    SameName(s, LintNode(s));
  }

  lemma DropName(s: seq<Step>)
    ensures MarkdownlintName(LintDropInstall(s)) == MarkdownlintName(s)
  {
    forall n | MarkdownName(n) ensures First(LintDropInstall(s), Named(n)) == First(s, Named(n)) { DropOther(s, Named(n)); }
    SameName(s, LintDropInstall(s));
  }

  lemma {:induction false} LintHeadNormal(s: seq<Step>)
    requires Normal(s)
    ensures Has(LintInstall(s), Named(InstallActionlint)) && Normal(LintRun(LintInstall(s)))
  {
    LintInstallHas(s);
    var a := LintInstall(s);
    NormalEnsure(s, Named(InstallActionlint), InstallEdit, if Has(s, Checkout) then Find(s, Checkout) + 1 else 0, INSTALL_STEP);
    NormalEnsure(a, Named(RunActionlint), RunActionlintEdit, Find(a, Named(InstallActionlint)) + 1, RUN_ACTIONLINT_STEP);
  }

  lemma NodeNormal(s: seq<Step>)
    requires Normal(s)
    ensures Normal(LintNode(s))
  {
    NormalEnsure(s, Named(SetupNode), NodeEdit, Find(s, Named(MarkdownlintName(s))), NODE_STEP);
  }

  lemma {:induction false} MarkdownNormal(s: seq<Step>)
    requires Normal(s)
    ensures Normal(LintMarkdown(s))
  {
    NormalEnsure(s, Named(MarkdownlintName(s)), MarkdownlintEdit, |s|, MARKDOWNLINT_STEP);
  }

  lemma {:induction false} LintNormal(s: seq<Step>)
    requires Normal(s)
    ensures Normal(LintSteps(s))
  {
    LintHeadNormal(s);
    var b := LintRun(LintInstall(s));
    NodeNormal(b);
    MarkdownNormal(LintDropInstall(LintNode(b)));
  }

  // ---------------------------------------------------------------- drift gate

  predicate DriftGateReady(s: seq<Step>) {
    Has(s, Named(NonLabviewChecks)) ==> Ready(s, Named(NonLabviewChecks), DriftGateEdit)
  }

  lemma DriftGateFixed(s: seq<Step>)
    requires DriftGateReady(s)
    ensures DriftGateSteps(s) == s
  {
    if Has(s, Named(NonLabviewChecks)) { EnsureReady(s, Named(NonLabviewChecks), DriftGateEdit, 0, BLANK); }
  }

  lemma {:induction false} DriftGateSettles(s: seq<Step>)
    ensures DriftGateReady(DriftGateSteps(s))
    ensures Normal(s) ==> Normal(DriftGateSteps(s))
  {
    ReviseFirst(s, Named(NonLabviewChecks), DriftGateEdit, Named(NonLabviewChecks));
    NormalEnsure'(s, Named(NonLabviewChecks), DriftGateEdit);
  }

  lemma {:induction false} DriftGateOther(s: seq<Step>, sel: Selector)
    requires forall st | Is(st, Named(NonLabviewChecks)) :: !Is(st, sel)
    ensures First(DriftGateSteps(s), sel) == First(s, sel)
  {
    forall st | Is(st, Named(NonLabviewChecks)) ensures !Is(Edited(DriftGateEdit, st), sel) {
      SelectorsIgnore(st, Edited(DriftGateEdit, st), sel);
    }
    ReviseFirst(s, Named(NonLabviewChecks), DriftGateEdit, sel);
  }

  /** A selector reads the name, the id and the action of a step and nothing else. */
  lemma SelectorsIgnore(st: Step, other: Step, sel: Selector)
    requires st.Step? && other.Step? && st.name == other.name && st.id == other.id && st.uses == other.uses
    ensures Is(st, sel) == Is(other, sel)
  {
  }
}
