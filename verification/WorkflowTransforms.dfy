/**
 The transforms as the updater runs them: index-search loops over one job's step list,
 edits field by field, and a `changed` flag raised at every edit.  Each method is proved
 against the function of WorkflowStages that says what it leaves behind.
 */
module WorkflowTransforms {
  import opened Options
  import opened Texts
  import opened WorkflowVocabulary
  import opened StepLists
  import opened WorkflowStages
  import opened StepFacts
  import opened StageReadiness
  import opened RewiredNecessity

  method FindStep(steps: seq<Step>, sel: Selector) returns (i: nat)
    ensures i == Find(steps, sel)
  {
    i := 0;
    while i < |steps| && !Is(steps[i], sel)
      invariant i <= |steps|
      invariant forall k | 0 <= k < i :: !Is(steps[k], sel)
    {
      i := i + 1;
    }
    FindIs(steps, sel, i);
  }

  // ---------------------------------------------------------------- one step, field by field

  method SetBody(st: Step, body: Body) returns (r: Step, changed: bool)
    requires st.Step?
    ensures r == WithBody(st, body) && changed == (r != st)
  {
    r, changed := st, false;
    if !Runs(st, body) {
      r, changed := st.(run := Some(Run(body, true))), true;
    }
  }

  method EditRerun(st: Step, single: bool) returns (r: Step, changed: bool)
    requires st.Step?
    ensures r == Edited(RerunEdit(single), st) && changed == (r != st)
  {
    r, changed := SetBody(st, RerunBody(single));
    if r.cond != Some(Always) { r, changed := r.(cond := Some(Always)), true; }
    if r.shell != Some("pwsh") { r, changed := r.(shell := Some("pwsh")), true; }
    if r.env != Some(RERUN_ENV) { r, changed := r.(env := Some(RERUN_ENV)), true; }
  }

  method EditProbe(st: Step) returns (r: Step, changed: bool)
    requires st.Step?
    ensures r == Edited(ProbeEdit, st) && changed == (r != st)
  {
    r, changed := SetBody(st, ProbeBody);
    if r.name != Some(RunInteractivityProbe) { r, changed := r.(name := Some(RunInteractivityProbe)), true; }
    if r.shell != Some("pwsh") { r, changed := r.(shell := Some("pwsh")), true; }
  }

  method EditNode(st: Step) returns (r: Step, changed: bool)
    requires st.Step?
    ensures r == Edited(NodeEdit, st) && changed == (r != st)
  {
    r, changed := st, false;
    if r.uses != Some(SetupNode6) { r, changed := r.(uses := Some(SetupNode6)), true; }
    var with := if r.with.Some? then r.with.value else map[];
    if !(NodeVersion in with && with[NodeVersion] == Node20 && Cache in with && with[Cache] == Npm) {
      assert NODE_WITH[NodeVersion] == Node20 && NODE_WITH[Cache] == Npm;
      r, changed := r.(with := Some(NODE_WITH)), true;
    }
  }

  method EditMarkdownlint(st: Step) returns (r: Step, changed: bool)
    requires st.Step?
    ensures r == Edited(MarkdownlintEdit, st) && changed == (r != st)
  {
    r, changed := st, false;
    var scoped := st.name == Some(RunMarkdownlintScoped);
    if !scoped && r.name != Some(RunMarkdownlint) { r, changed := r.(name := Some(RunMarkdownlint)), true; }
    var stale := !Runs(st, MarkdownlintBody);
    if r.continueOnError.Some? { r, changed := r.(continueOnError := None), true; }
    if stale {
      r, changed := if scoped then r.(run := Some(Run(MarkdownlintBody, true))) else MARKDOWNLINT_STEP, true;
    }
  }

  method EditDriftGate(st: Step) returns (r: Step, changed: bool)
    requires st.Step?
    ensures r == Edited(DriftGateEdit, st) && changed == (r != st)
  {
    r, changed := st, false;
    if r.shell != Some("pwsh") { r, changed := r.(shell := Some("pwsh")), true; }
    if r.env != Some(DRIFT_GATE_ENV) { r, changed := r.(env := Some(DRIFT_GATE_ENV)), true; }
    if !(r.run.Some? && r.run.value.literal && Runs(r, DriftGateBody)) {
      r, changed := r.(run := Some(Run(DriftGateBody, true))), true;
    }
  }

  method EditStep(e: Edit, st: Step) returns (r: Step, changed: bool)
    requires st.Step?
    ensures r == Edited(e, st) && changed == (r != st)
  {
    r, changed := st, false;
    match e {
      case HostedEdit =>
        if !Runs(st, PreflightBody) { r, changed := st.(run := Some(Run(PreflightBody, true)), shell := Some("pwsh")), true; }
      case RerunEdit(single) => r, changed := EditRerun(st, single);
      case GateEdit => if st.cond != Some(ForceRunOff) { r, changed := st.(cond := Some(ForceRunOff)), true; }
      case ProbeEdit => r, changed := EditProbe(st);
      case InstallEdit =>
        if st.shell != Some("bash") || !Runs(st, InstallActionlintBody) { r, changed := INSTALL_STEP, true; }
      case RunActionlintEdit => r, changed := SetBody(st, RunActionlintBody);
      case NodeEdit => r, changed := EditNode(st);
      case MarkdownlintEdit => r, changed := EditMarkdownlint(st);
      case DriftGateEdit => r, changed := EditDriftGate(st);
    }
  }

  // ---------------------------------------------------------------- one step list

  lemma UpdateDiffers(s: seq<Step>, i: nat, st: Step)
    requires i < |s|
    ensures s[i := st] == s <==> st == s[i]
  {
  }

  lemma InsertDiffers(s: seq<Step>, k: nat, x: Step)
    requires k <= |s|
    ensures Insert(s, k, x) != s
  {
    assert |Insert(s, k, x)| == |s| + 1;
  }

  /** Edit the step found at `i`, or insert `x` at `k`; the shape of most transforms. */
  method EnsureStep(steps: seq<Step>, sel: Selector, e: Edit, k: nat, x: Step) returns (out: seq<Step>, changed: bool)
    requires k <= |steps|
    ensures out == Ensure(steps, sel, e, k, x) && changed == (out != steps)
  {
    var i := FindStep(steps, sel);
    if i == |steps| {
      out, changed := steps[..k] + [x] + steps[k..], true;
      InsertDiffers(steps, k, x);
    } else {
      var st;
      st, changed := EditStep(e, steps[i]);
      out := steps[i := st];
      UpdateDiffers(steps, i, st);
    }
  }

  method AppendStep(steps: seq<Step>, guard: Selector, x: Step) returns (out: seq<Step>, changed: bool)
    ensures out == AppendUnless(steps, guard, x) && changed == (out != steps)
  {
    var i := FindStep(steps, guard);
    out, changed := steps, i == |steps|;
    if changed { out := steps + [x]; }
  }

  method NormalizeHostedStep(st: Step) returns (r: Step, changed: bool)
    ensures r == HostedNormal(st) && changed == (r != st)
  {
    r, changed := st, false;
    if st.Step? && (st.name == Some(HostedPreflight) || st.name == Some(HostedNotice)) {
      var body := if st.name == Some(HostedPreflight) then PreflightBody else NoticeBody;
      if !Runs(st, body) || st.shell != Some("pwsh") {
        r, changed := st.(run := Some(Run(body, true)), shell := Some("pwsh")), true;
      }
    }
  }

  method NormalizeHostedPreflight(steps: seq<Step>) returns (out: seq<Step>, changed: bool)
    ensures out == NormalizeHosted(steps) && changed == (out != steps)
  {
    out, changed := steps, false;
    for i := 0 to |steps|
      invariant |out| == |steps|
      invariant forall k | 0 <= k < i :: out[k] == HostedNormal(steps[k])
      invariant forall k | i <= k < |steps| :: out[k] == steps[k]
      invariant changed == exists k :: 0 <= k < i && out[k] != steps[k]
    {
      var st, moved := NormalizeHostedStep(steps[i]);
      out := out[i := st];
      if moved {
        assert out[i] != steps[i];
        changed := true;
      }
    }
    assert out == NormalizeHosted(steps);
  }

  method EnsurePreInit(steps: seq<Step>) returns (out: seq<Step>, changed: bool)
    ensures out == PreInitSteps(steps) && changed == (out != steps)
  {
    out, changed := steps, false;
    var i := FindStep(steps, PreInitGate);
    if i < |steps| {
      var st;
      st, changed := EditStep(GateEdit, steps[i]);
      out := steps[i := st];
      assert out == Revise(steps, PreInitGate, GateEdit) && (changed ==> out[i] != steps[i]);
      var o := FindStep(out, WithId("out"));
      if o == |out| {
        out, changed := out[..i + 1] + [DOCS_ONLY_STEP] + out[i + 1..], true;
      }
    }
  }

  method EnsureCheckout(steps: seq<Step>) returns (out: seq<Step>, changed: bool)
    ensures out == WithCheckout(steps) && changed == (out != steps) == !Has(steps, Checkout)
  {
    var i := FindStep(steps, Checkout);
    out, changed := steps, i == |steps|;
    if changed { out := [BARE_CHECKOUT] + steps; }
  }

  method EnsurePreflight(steps: seq<Step>) returns (out: seq<Step>, changed: bool)
    ensures out == HostedPreflightSteps(steps) && changed == (out != steps)
  {
    var t, added := EnsureCheckout(steps);
    out, changed := EnsureStep(t, VerifyRunner, HostedEdit, if added then 0 else 1, PREFLIGHT_STEP);
    changed := added || changed;
  }

  method EnsureRerunAfterSummary(steps: seq<Step>) returns (out: seq<Step>, changed: bool)
    ensures out == RerunAfterSummarySteps(steps) && changed == (out != steps)
  {
    out, changed := steps, false;
    var i := FindStep(steps, CategorySummary);
    if i < |steps| {
      out, changed := EnsureStep(steps, Named(RerunMatrix), RerunEdit(false), i + 1, RerunStep(false));
    }
  }

  method EnsureInteractivity(steps: seq<Step>) returns (out: seq<Step>, changed: bool)
    ensures out == InteractivitySteps(steps) && changed == (out != steps)
  {
    var t, added := EnsureCheckout(steps);
    var i := FindStep(t, Checkout);
    out, changed := EnsureStep(t, WithId("out"), ProbeEdit, if i < |t| then i + 1 else |t|, PROBE_STEP);
    changed := added || changed;
  }

  lemma {:induction false} LintRested(s: seq<Step>)
    requires LintReady(s)
    ensures LintInstall(s) == s && LintRun(s) == s && LintNode(s) == s
    ensures LintDropInstall(s) == s && LintMarkdown(s) == s
  {
    EnsureReady(s, Named(InstallActionlint), InstallEdit, 0, INSTALL_STEP);
    EnsureReady(s, Named(RunActionlint), RunActionlintEdit, 0, RUN_ACTIONLINT_STEP);
    EnsureReady(s, Named(SetupNode), NodeEdit, 0, NODE_STEP);
    EnsureReady(s, Named(MarkdownlintName(s)), MarkdownlintEdit, 0, MARKDOWNLINT_STEP);
  }

  /** A lint pass that moves nothing moves nothing on the way either. */
  lemma LintUnmoved(s: seq<Step>)
    requires LintSteps(s) == s
    ensures LintReady(s)
  {
    LintSettles(s);
    CountLint(s);
    CountHas(s, DROPPED);
  }

  /** The first three lint rewrites: install and run actionlint, set up Node. */
  method EnsureLintTools(steps: seq<Step>) returns (out: seq<Step>, changed: bool)
    ensures Has(LintInstall(steps), Named(InstallActionlint))
    ensures out == LintNode(LintRun(LintInstall(steps)))
    ensures changed == (LintInstall(steps) != steps || LintRun(LintInstall(steps)) != LintInstall(steps)
                        || out != LintRun(LintInstall(steps)))
  {
    var checkout := FindStep(steps, Checkout);
    var a, moved1 := EnsureStep(steps, Named(InstallActionlint), InstallEdit,
                                if checkout < |steps| then checkout + 1 else 0, INSTALL_STEP);
    assert a == LintInstall(steps);
    LintInstallHas(steps);
    var install := FindStep(a, Named(InstallActionlint));
    var b, moved2 := EnsureStep(a, Named(RunActionlint), RunActionlintEdit, install + 1, RUN_ACTIONLINT_STEP);
    assert b == LintRun(a);
    var name := FindMarkdownlint(b);
    var at := FindStep(b, Named(name));
    var moved3;
    out, moved3 := EnsureStep(b, Named(SetupNode), NodeEdit, at, NODE_STEP);
    changed := moved1 || moved2 || moved3;
  }

  method EnsureLint(steps: seq<Step>) returns (out: seq<Step>, changed: bool)
    ensures out == LintSteps(steps) && changed == (out != steps)
  {
    var c, moved1 := EnsureLintTools(steps);
    var drop := FindStep(c, Named(InstallMarkdownlint));
    var d, moved2 := c, drop < |c|;
    if moved2 { d := c[..drop] + c[drop + 1..]; }
    assert d == LintDropInstall(c);
    var name := FindMarkdownlint(d);
    var moved3;
    out, moved3 := EnsureStep(d, Named(name), MarkdownlintEdit, |d|, MARKDOWNLINT_STEP);
    assert out == LintMarkdown(d);
    changed := moved1 || moved2 || moved3;
    LintFlags(steps);
  }

  /** The lint flags are down exactly when the pass as a whole moved nothing. */
  lemma LintFlags(s: seq<Step>)
    ensures Has(LintInstall(s), Named(InstallActionlint))
    ensures var a := LintInstall(s); var b := LintRun(a); var c := LintNode(b); var d := LintDropInstall(c);
      LintSteps(s) == s <==> (a == s && b == a && c == b && !Has(c, DROPPED) && LintMarkdown(d) == d)
  {
    LintInstallHas(s);
    if LintSteps(s) == s {
      LintUnmoved(s);
      LintRested(s);
    }
  }

  method FindMarkdownlint(steps: seq<Step>) returns (name: Name)
    ensures name == MarkdownlintName(steps)
  {
    name := RunMarkdownlint;
    var i := FindStep(steps, Named(name));
    if i == |steps| {
      i := FindStep(steps, Named(RunMarkdownlintNonBlocking));
      if i < |steps| { return RunMarkdownlintNonBlocking; }
      i := FindStep(steps, Named(RunMarkdownlintScoped));
      if i < |steps| { return RunMarkdownlintScoped; }
    }
  }

  method EnsureDriftGate(steps: seq<Step>) returns (out: seq<Step>, changed: bool)
    ensures out == DriftGateSteps(steps) && changed == (out != steps)
  {
    out, changed := steps, false;
    var i := FindStep(steps, Named(NonLabviewChecks));
    if i < |steps| {
      var st;
      st, changed := EditStep(DriftGateEdit, steps[i]);
      out := steps[i := st];
      assert changed ==> out[i] != steps[i];
    }
  }

  method EnsurePreflightGuard(steps: seq<Step>) returns (out: seq<Step>, changed: bool)
    ensures out == PreflightGuardSteps(steps) && changed == (out != steps)
  {
    out, changed := steps, false;
    var at := if steps != [] && Is(steps[0], CheckoutAny) then 1 else 0;
    var i := FindStep(steps, GuardsRunner);
    if i == |steps| {
      out, changed := steps[..at] + [PREFLIGHT_GUARD_STEP] + steps[at..], true;
    }
  }

  /** One pass that keeps everything but the steps named J1 or J2. */
  method TakeOutProbes(steps: seq<Step>) returns (out: seq<Step>, changed: bool)
    ensures out == WithoutProbes(steps) && changed == Has(steps, NamedEither(WireJ1, WireJ2))
  {
    out, changed := [], false;
    for i := 0 to |steps|
      invariant out + WithoutProbes(steps[i..]) == WithoutProbes(steps)
      invariant changed == exists k :: 0 <= k < i && IsJProbe(steps[k])
    {
      assert steps[i..][1..] == steps[i + 1..];
      if IsJProbe(steps[i]) {
        changed := true;
      } else {
        out := out + [steps[i]];
      }
    }
    assert steps[|steps|..] == [];
  }

  /** J1 and J2 are filtered out and put back behind the first checkout; the flag is raised whenever they are. */
  method InsertWireProbes(steps: seq<Step>, dir: Value) returns (out: seq<Step>, changed: bool)
    ensures out == WireProbesSteps(steps, dir)
    ensures changed == (Has(steps, NamedEither(WireJ1, WireJ2)) || Has(WithoutProbes(steps), Checkout))
  {
    out, changed := TakeOutProbes(steps);
    var c := FindStep(out, Checkout);
    if c < |out| {
      out := out[..c + 1] + [StepJ1(dir)] + out[c + 1..];
      out, changed := out[..c + 2] + [StepJ2(dir)] + out[c + 2..], true;
    }
  }

  method PlaceStep(steps: seq<Step>, p: Placement) returns (out: seq<Step>, changed: bool)
    ensures out == Place(steps, p) && changed == (|out| > |steps|) && |out| >= |steps|
    ensures !changed ==> out == steps
  {
    out, changed := steps, false;
    var g := FindStep(steps, p.guard);
    if g == |steps| {
      var i := FindStep(steps, p.anchor);
      if i < |steps| {
        var k := if p.side.Before? then i else i + 1;
        out, changed := steps[..k] + [p.step] + steps[k..], true;
      }
    }
  }

  method PlaceSteps(steps: seq<Step>, ps: seq<Placement>) returns (out: seq<Step>, changed: bool)
    ensures out == PlaceAll(steps, ps) && changed == (out != steps)
  {
    out, changed := steps, false;
    for i := 0 to |ps|
      invariant PlaceAll(out, ps[i..]) == PlaceAll(steps, ps)
      invariant |out| >= |steps| && changed == (|out| > |steps|) && (!changed ==> out == steps)
    {
      assert ps[i..][1..] == ps[i + 1..];
      var moved;
      out, moved := PlaceStep(out, ps[i]);
      changed := changed || moved;
    }
  }
}
