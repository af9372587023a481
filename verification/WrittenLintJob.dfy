/**
 The settling condition on the lint job as it is written.  The rewrite replaces and deletes
 some of its own steps, and with them the action they bore, so the condition is about the
 list in which those steps already bear the action that the rewrite leaves them.
 */
module WrittenLintJob {
  import opened Options
  import opened Texts
  import opened WorkflowVocabulary
  import opened StepLists
  import opened WorkflowStages
  import opened StepFacts
  import opened StageReadiness
  import opened RewiredJobs
  import opened RewiredFixedPoint
  import opened RewiredSettling
  import opened RewiredNecessity
  import opened WrittenJobs

  /** The names of the steps that may lose their action. */
  predicate LintName(n: Name) {
    MarkdownName(n) || n.InstallActionlint? || n.SetupNode? || n.InstallMarkdownlint?
  }

  /** The action that the lint rewrite leaves on its first step of a name. */
  function LeftUses(n: Name, st: Step): Option<Uses>
    requires st.Step?
  {
    if n.SetupNode? then Some(SetupNode6)
    else if n.InstallActionlint? then if st.shell == Some("bash") && Runs(st, InstallActionlintBody) then st.uses else None
    else if MarkdownName(n) then if n.RunMarkdownlintScoped? || Runs(st, MarkdownlintBody) then st.uses else None
    else None
  }

  function Reused(n: Name, st: Step): Step
    requires st.Step?
  {
    st.(uses := LeftUses(n, st))
  }

  function Rehouse(s: seq<Step>, n: Name): seq<Step> {
    if Has(s, Named(n)) then s[Find(s, Named(n)) := Reused(n, s[Find(s, Named(n))])] else s
  }

  function RehouseAll(s: seq<Step>, ns: seq<Name>): seq<Step>
    decreases ns
  {
    if ns == [] then s else RehouseAll(Rehouse(s, ns[0]), ns[1..])
  }

  /** The list with the action that the lint rewrite leaves on each of its own steps. */
  function Linted(s: seq<Step>): seq<Step> {
    RehouseAll(s, [InstallActionlint, SetupNode, InstallMarkdownlint, MarkdownlintName(s)])
  }

  // ---------------------------------------------------------------- one change and the steps still to lose their action

  predicate Apart(st: Step, ns: seq<Name>) {
    forall n | n in ns :: !Is(st, Named(n))
  }

  lemma {:induction false} RehouseInsert(s: seq<Step>, k: nat, x: Step, n: Name)
    requires k <= |s| && !Is(x, Named(n))
    ensures Rehouse(Insert(s, k, x), n) == Insert(Rehouse(s, n), k, x) && |Rehouse(s, n)| == |s|
  {
    FindShift(s, k, x, Named(n));
  }

  lemma RehouseUpdate(s: seq<Step>, i: nat, y: Step, n: Name)
    requires i < |s| && !Is(s[i], Named(n)) && !Is(y, Named(n))
    ensures |Rehouse(s, n)| == |s| && Rehouse(s, n)[i] == s[i] && Rehouse(s[i := y], n) == Rehouse(s, n)[i := y]
  {
    FindUpdate(s, i, y, Named(n));
  }

  lemma {:induction false} RehouseAllInsert(s: seq<Step>, k: nat, x: Step, ns: seq<Name>)
    requires k <= |s| && Apart(x, ns)
    ensures |RehouseAll(s, ns)| == |s| && RehouseAll(Insert(s, k, x), ns) == Insert(RehouseAll(s, ns), k, x)
    decreases ns
  {
    if ns != [] {
      RehouseInsert(s, k, x, ns[0]);
      RehouseAllInsert(Rehouse(s, ns[0]), k, x, ns[1..]);
    }
  }

  lemma {:induction false} RehouseAllUpdate(s: seq<Step>, i: nat, y: Step, ns: seq<Name>)
    requires i < |s| && Apart(s[i], ns) && Apart(y, ns)
    ensures |RehouseAll(s, ns)| == |s| && RehouseAll(s, ns)[i] == s[i]
    ensures RehouseAll(s[i := y], ns) == RehouseAll(s, ns)[i := y]
    decreases ns
  {
    if ns != [] {
      RehouseUpdate(s, i, y, ns[0]);
      RehouseAllUpdate(Rehouse(s, ns[0]), i, y, ns[1..]);
    }
  }

  lemma {:induction false} RehouseAllNormalize(s: seq<Step>, ns: seq<Name>)
    requires forall n | n in ns :: LintName(n)
    ensures RehouseAll(NormalizeHosted(s), ns) == NormalizeHosted(RehouseAll(s, ns))
    decreases ns
  {
    if ns != [] {
      RehouseNormalize(s, ns[0]);
      RehouseAllNormalize(Rehouse(s, ns[0]), ns[1..]);
    }
  }

  lemma {:induction false} LintUnhosted(st: Step, n: Name)
    requires Is(st, Named(n)) && LintName(n)
    ensures HostedNormal(st) == st && HostedNormal(Reused(n, st)) == Reused(n, st)
  {
  }

  lemma RehouseNormalize(s: seq<Step>, n: Name)
    requires LintName(n)
    ensures Rehouse(NormalizeHosted(s), n) == NormalizeHosted(Rehouse(s, n))
  {
    NormalizeFind(s, Named(n));
    if Has(s, Named(n)) { LintUnhosted(s[Find(s, Named(n))], n); }
  }

  // ---------------------------------------------------------------- what J1, J2 and the anchors see of it

  ghost predicate ReadAlike(a: Step, b: Step) {
    !IsJProbe(a) && !IsJProbe(b) && forall r | Reads(r) :: Is(a, r) == Is(b, r)
  }

  /** Two lint steps with one action. */
  lemma {:induction false} LintAlike(a: Step, b: Step)
    requires LintNamed(a) && LintNamed(b) && a.uses == b.uses
    ensures ReadAlike(a, b)
  {
  }

  lemma {:induction false} LintBare(st: Step)
    requires LintNamed(st) && (st.uses.None? || st.uses == Some(SetupNode6))
    ensures Unread(st)
  {
  }

  lemma SwapSame(s: seq<Step>, i: nat, y: Step)
    requires i < |s| && ReadAlike(s[i], y)
    ensures SameAnchors(WithoutProbes(s), WithoutProbes(s[i := y]))
  {
    WithoutUpdate(s, i, y);
    UpdateSame(WithoutProbes(s), |WithoutProbes(s[..i])|, y);
  }

  /** Two ways to write one step, the rest of the actions still to be lost. */
  lemma SwapRehoused(s: seq<Step>, i: nat, y: Step, z: Step, ns: seq<Name>)
    requires i < |s| && Apart(s[i], ns) && Apart(y, ns) && Apart(z, ns) && ReadAlike(z, y)
    ensures SameAnchors(WithoutProbes(RehouseAll(s[i := z], ns)), WithoutProbes(RehouseAll(s[i := y], ns)))
  {
    RehouseAllUpdate(s, i, y, ns);
    RehouseAllUpdate(s, i, z, ns);
    var r := RehouseAll(s, ns);
    SwapSame(r[i := z], i, y);
    assert r[i := z][i := y] == r[i := y];
  }

  lemma InsertRehoused(s: seq<Step>, k: nat, x: Step, ns: seq<Name>)
    requires k <= |s| && Apart(x, ns) && Unread(x)
    ensures SameAnchors(WithoutProbes(RehouseAll(s, ns)), WithoutProbes(RehouseAll(Insert(s, k, x), ns)))
  {
    RehouseAllInsert(s, k, x, ns);
    InsertUnread(RehouseAll(s, ns), k, x);
  }

  lemma SameSym(s: seq<Step>, t: seq<Step>)
    requires SameAnchors(s, t)
    ensures SameAnchors(t, s)
  {
  }

  /** A step that has lost its action, or is deleted. */
  lemma RemoveRehoused(s: seq<Step>, i: nat, z: Step, ns: seq<Name>)
    requires i < |s| && Apart(z, ns) && Unread(z)
    ensures SameAnchors(WithoutProbes(RehouseAll(s[i := z], ns)), WithoutProbes(RehouseAll(Remove(s, i), ns)))
  {
    RemoveInsert(s, i, z);
    InsertRehoused(Remove(s, i), i, z, ns);
    SameSym(WithoutProbes(RehouseAll(Remove(s, i), ns)), WithoutProbes(RehouseAll(s[i := z], ns)));
  }

  // ---------------------------------------------------------------- the lint rewrites, one by one

  lemma InstallLeft(st: Step)
    requires Is(st, Named(InstallActionlint))
    ensures var y, z := Edited(InstallEdit, st), Reused(InstallActionlint, st);
      Is(y, Named(InstallActionlint)) && Is(z, Named(InstallActionlint)) && y.uses == z.uses
  {
  }

  lemma RunLeft(st: Step)
    requires Is(st, Named(RunActionlint))
    ensures var y := Edited(RunActionlintEdit, st); Is(y, Named(RunActionlint)) && y.uses == st.uses
  {
  }

  lemma NodeLeft(st: Step)
    requires Is(st, Named(SetupNode))
    ensures var y, z := Edited(NodeEdit, st), Reused(SetupNode, st);
      Is(y, Named(SetupNode)) && Is(z, Named(SetupNode)) && y.uses == z.uses
  {
  }

  lemma {:induction false} MarkdownLeft(st: Step, n: Name)
    requires Is(st, Named(n)) && MarkdownName(n)
    ensures var y, z := Edited(MarkdownlintEdit, st), Reused(n, st);
      LintNamed(y) && LintNamed(z) && y.uses == z.uses
  {
  }

  lemma ApartNamed(st: Step, n: Name, ns: seq<Name>)
    requires Is(st, Named(n)) && n !in ns
    ensures Apart(st, ns)
  {
  }

  lemma {:induction false} InstallSame(s: seq<Step>, ns: seq<Name>)
    requires InstallActionlint !in ns
    ensures SameAnchors(WithoutProbes(RehouseAll(Rehouse(s, InstallActionlint), ns)), WithoutProbes(RehouseAll(LintInstall(s), ns)))
  {
    var n := InstallActionlint;
    var i := Find(s, Named(n));
    if i < |s| {
      var y, z := Edited(InstallEdit, s[i]), Reused(n, s[i]);
      InstallLeft(s[i]);
      ApartNamed(s[i], n, ns);
      ApartNamed(y, n, ns);
      ApartNamed(z, n, ns);
      LintAlike(z, y);
      SwapRehoused(s, i, y, z, ns);
    } else {
      ApartNamed(INSTALL_STEP, n, ns);
      LintBare(INSTALL_STEP);
      InsertRehoused(s, if Has(s, Checkout) then Find(s, Checkout) + 1 else 0, INSTALL_STEP, ns);
    }
  }

  /** An edit that keeps the name and the action, or a plain step to put in. */
  ghost predicate KeepsRehoused(s: seq<Step>, n: Name, e: Edit, x: Step, ns: seq<Name>) {
    && Apart(x, ns) && Unread(x)
    && (Has(s, Named(n)) ==> var st := s[Find(s, Named(n))]; Apart(st, ns) && Apart(Edited(e, st), ns) && ReadAlike(st, Edited(e, st)))
  }

  lemma {:induction false} EnsureRehoused(s: seq<Step>, n: Name, e: Edit, k: nat, x: Step, ns: seq<Name>)
    requires k <= |s| && KeepsRehoused(s, n, e, x, ns)
    ensures SameAnchors(WithoutProbes(RehouseAll(s, ns)), WithoutProbes(RehouseAll(Ensure(s, Named(n), e, k, x), ns)))
  {
    if Has(s, Named(n)) {
      var i := Find(s, Named(n));
      assert s[i := s[i]] == s;
      SwapRehoused(s, i, Edited(e, s[i]), s[i], ns);
    } else {
      InsertRehoused(s, k, x, ns);
    }
  }

  lemma RunApart(st: Step, ns: seq<Name>)
    requires RunActionlint !in ns && Is(st, Named(RunActionlint))
    ensures var y := Edited(RunActionlintEdit, st); Apart(st, ns) && Apart(y, ns) && ReadAlike(st, y)
  {
    var y := Edited(RunActionlintEdit, st);
    RunLeft(st);
    ApartNamed(st, RunActionlint, ns);
    ApartNamed(y, RunActionlint, ns);
    LintAlike(st, y);
  }

  lemma {:induction false} RunRehoused(s: seq<Step>, ns: seq<Name>)
    requires RunActionlint !in ns
    ensures KeepsRehoused(s, RunActionlint, RunActionlintEdit, RUN_ACTIONLINT_STEP, ns)
  {
    if Has(s, Named(RunActionlint)) { RunApart(s[Find(s, Named(RunActionlint))], ns); }
    ApartNamed(RUN_ACTIONLINT_STEP, RunActionlint, ns);
    LintBare(RUN_ACTIONLINT_STEP);
  }

  lemma {:induction false} RunSame(s: seq<Step>, t: seq<Step>, k: nat, ns: seq<Name>)
    requires RunActionlint !in ns && k <= |s| && t == Ensure(s, Named(RunActionlint), RunActionlintEdit, k, RUN_ACTIONLINT_STEP)
    ensures SameAnchors(WithoutProbes(RehouseAll(s, ns)), WithoutProbes(RehouseAll(t, ns)))
  {
    RunRehoused(s, ns);
    EnsureRehoused(s, RunActionlint, RunActionlintEdit, k, RUN_ACTIONLINT_STEP, ns);
  }

  lemma {:induction false} NodeSame(s: seq<Step>, ns: seq<Name>)
    requires SetupNode !in ns
    ensures SameAnchors(WithoutProbes(RehouseAll(Rehouse(s, SetupNode), ns)), WithoutProbes(RehouseAll(LintNode(s), ns)))
  {
    var n := SetupNode;
    var i := Find(s, Named(n));
    if i < |s| {
      var y, z := Edited(NodeEdit, s[i]), Reused(n, s[i]);
      NodeLeft(s[i]);
      ApartNamed(s[i], n, ns);
      ApartNamed(y, n, ns);
      ApartNamed(z, n, ns);
      LintAlike(z, y);
      SwapRehoused(s, i, y, z, ns);
    } else {
      ApartNamed(NODE_STEP, n, ns);
      LintBare(NODE_STEP);
      InsertRehoused(s, Find(s, Named(MarkdownlintName(s))), NODE_STEP, ns);
    }
  }

  lemma DropSame(s: seq<Step>, ns: seq<Name>)
    requires InstallMarkdownlint !in ns
    ensures SameAnchors(WithoutProbes(RehouseAll(Rehouse(s, InstallMarkdownlint), ns)), WithoutProbes(RehouseAll(LintDropInstall(s), ns)))
  {
    var n := InstallMarkdownlint;
    var i := Find(s, Named(n));
    if i < |s| {
      var z := Reused(n, s[i]);
      ApartNamed(z, n, ns);
      LintBare(z);
      RemoveRehoused(s, i, z, ns);
    }
  }

  lemma {:induction false} MarkdownSame(s: seq<Step>)
    ensures SameAnchors(WithoutProbes(Rehouse(s, MarkdownlintName(s))), WithoutProbes(LintMarkdown(s)))
  {
    var n := MarkdownlintName(s);
    var i := Find(s, Named(n));
    if i < |s| {
      var y, z := Edited(MarkdownlintEdit, s[i]), Reused(n, s[i]);
      MarkdownLeft(s[i], n);
      LintAlike(z, y);
      SwapRehoused(s, i, y, z, []);
    } else {
      LintBare(MARKDOWNLINT_STEP);
      InsertUnread(s, |s|, MARKDOWNLINT_STEP);
    }
  }

  // ---------------------------------------------------------------- the lint rewrite

  lemma RehouseCons(s: seq<Step>, n: Name, ns: seq<Name>)
    ensures RehouseAll(s, [n] + ns) == RehouseAll(Rehouse(s, n), ns)
  {
    assert ([n] + ns)[1..] == ns;
  }

  /** Three rewrites in a row. */
  lemma SameThrice(s: seq<Step>, t: seq<Step>, u: seq<Step>, v: seq<Step>)
    requires SameAnchors(WithoutProbes(s), WithoutProbes(t)) && SameAnchors(WithoutProbes(t), WithoutProbes(u))
    requires SameAnchors(WithoutProbes(u), WithoutProbes(v))
    ensures SameAnchors(WithoutProbes(s), WithoutProbes(v))
  {
    SameTrans(WithoutProbes(s), WithoutProbes(t), WithoutProbes(u));
    SameTrans(WithoutProbes(s), WithoutProbes(u), WithoutProbes(v));
  }

  lemma LintHead(s: seq<Step>, ns: seq<Name>)
    requires InstallActionlint !in ns && RunActionlint !in ns
    ensures Has(LintInstall(s), Named(InstallActionlint))
    ensures SameAnchors(WithoutProbes(RehouseAll(Rehouse(s, InstallActionlint), ns)),
                        WithoutProbes(RehouseAll(LintRun(LintInstall(s)), ns)))
    ensures MarkdownlintName(LintRun(LintInstall(s))) == MarkdownlintName(s)
  {
    LintInstallHas(s);
    var a := LintInstall(s);
    InstallSame(s, ns);
    RunSame(a, LintRun(a), Find(a, Named(InstallActionlint)) + 1, ns);
    SameTrans(WithoutProbes(RehouseAll(Rehouse(s, InstallActionlint), ns)), WithoutProbes(RehouseAll(a, ns)),
              WithoutProbes(RehouseAll(LintRun(a), ns)));
    InstallName(s);
    RunName(a);
  }

  lemma {:induction false} NodeStepSame(s: seq<Step>, m: Name)
    requires MarkdownName(m)
    ensures SameAnchors(WithoutProbes(RehouseAll(s, [SetupNode, InstallMarkdownlint, m])),
                        WithoutProbes(RehouseAll(LintNode(s), [InstallMarkdownlint, m])))
  {
    var ns := [InstallMarkdownlint, m];
    NodeSame(s, ns);
    RehouseCons(s, SetupNode, ns);
    assert [SetupNode] + ns == [SetupNode, InstallMarkdownlint, m];
  }

  lemma {:induction false} DropStepSame(s: seq<Step>, m: Name)
    requires MarkdownName(m)
    ensures SameAnchors(WithoutProbes(RehouseAll(s, [InstallMarkdownlint, m])), WithoutProbes(Rehouse(LintDropInstall(s), m)))
  {
    DropSame(s, [m]);
    RehouseCons(s, InstallMarkdownlint, [m]);
    assert [InstallMarkdownlint] + [m] == [InstallMarkdownlint, m];
    assert RehouseAll(LintDropInstall(s), [m]) == Rehouse(LintDropInstall(s), m) by {
      RehouseCons(LintDropInstall(s), m, []);
      assert [m] + [] == [m];
    }
  }

  lemma TailName(s: seq<Step>)
    ensures MarkdownlintName(LintDropInstall(LintNode(s))) == MarkdownlintName(s) && MarkdownName(MarkdownlintName(s))
  {
    NodeName(s);
    DropName(LintNode(s));
  }

  lemma LintTail(s: seq<Step>, m: Name)
    requires m == MarkdownlintName(s)
    ensures SameAnchors(WithoutProbes(RehouseAll(s, [SetupNode, InstallMarkdownlint, m])),
                        WithoutProbes(LintMarkdown(LintDropInstall(LintNode(s)))))
  {
    TailName(s);
    NodeStepSame(s, m);
    DropStepSame(LintNode(s), m);
    MarkdownSame(LintDropInstall(LintNode(s)));
    SameThrice(RehouseAll(s, [SetupNode, InstallMarkdownlint, m]), RehouseAll(LintNode(s), [InstallMarkdownlint, m]),
               Rehouse(LintDropInstall(LintNode(s)), m), LintMarkdown(LintDropInstall(LintNode(s))));
  }

  lemma LintedHead(s: seq<Step>, ns: seq<Name>)
    requires ns == [SetupNode, InstallMarkdownlint, MarkdownlintName(s)]
    ensures Linted(s) == RehouseAll(Rehouse(s, InstallActionlint), ns)
  {
    RehouseCons(s, InstallActionlint, ns);
    assert [InstallActionlint] + ns == [InstallActionlint, SetupNode, InstallMarkdownlint, MarkdownlintName(s)];
  }

  lemma {:induction false} LintSame(s: seq<Step>)
    ensures SameAnchors(WithoutProbes(Linted(s)), WithoutProbes(LintSteps(s)))
  {
    var ns := [SetupNode, InstallMarkdownlint, MarkdownlintName(s)];
    LintInstallHas(s);
    var b := LintRun(LintInstall(s));
    LintHead(s, ns);
    LintedHead(s, ns);
    LintTail(b, MarkdownlintName(s));
    SameTrans(WithoutProbes(Linted(s)), WithoutProbes(RehouseAll(b, ns)), WithoutProbes(LintSteps(s)));
  }

  // ---------------------------------------------------------------- the rewrites around it

  lemma {:induction false} NormalizeLinted(s: seq<Step>)
    ensures SameAnchors(WithoutProbes(Linted(s)), WithoutProbes(Linted(NormalizeHosted(s))))
  {
    var ns := [InstallActionlint, SetupNode, InstallMarkdownlint, MarkdownlintName(s)];
    NormalizeFind(s, Named(RunMarkdownlint));
    NormalizeFind(s, Named(RunMarkdownlintNonBlocking));
    NormalizeFind(s, Named(RunMarkdownlintScoped));
    RehouseAllNormalize(s, ns);
    NormalizeKept(Linted(s), Checkout);
  }

  /** A step with another name, put in or edited, leaves the lint names alone. */
  lemma HintApart(st: Step, ns: seq<Name>)
    requires Is(st, Named(RerunMatrix)) && forall n | n in ns :: LintName(n)
    ensures Apart(st, ns)
  {
  }

  lemma HintName(s: seq<Step>)
    ensures MarkdownlintName(RerunAfterSummarySteps(s)) == MarkdownlintName(s)
  {
    forall n | MarkdownName(n) ensures First(RerunAfterSummarySteps(s), Named(n)) == First(s, Named(n)) { RerunOther(s, Named(n)); }
    SameName(s, RerunAfterSummarySteps(s));
  }

  lemma HintEditRehoused(s: seq<Step>, i: nat, ns: seq<Name>)
    requires i < |s| && Is(s[i], Named(RerunMatrix)) && forall n | n in ns :: LintName(n)
    ensures SameAnchors(WithoutProbes(RehouseAll(s, ns)), WithoutProbes(RehouseAll(s[i := Edited(RerunEdit(false), s[i])], ns)))
  {
    var y := Edited(RerunEdit(false), s[i]);
    RerunEditPlain(s[i], false);
    PlainEdit(s[i], y);
    HintApart(s[i], ns);
    HintApart(y, ns);
    assert s[i := s[i]] == s;
    SwapRehoused(s, i, y, s[i], ns);
  }

  lemma {:induction false} HintRehoused(s: seq<Step>, ns: seq<Name>)
    requires forall n | n in ns :: LintName(n)
    ensures SameAnchors(WithoutProbes(RehouseAll(s, ns)), WithoutProbes(RehouseAll(RerunAfterSummarySteps(s), ns)))
  {
    if Has(s, CategorySummary) {
      if Has(s, Named(RerunMatrix)) {
        HintEditRehoused(s, Find(s, Named(RerunMatrix)), ns);
      } else {
        RerunStepIs(false);
        HintDiscreet(false);
        HintApart(RerunStep(false), ns);
        InsertRehoused(s, Find(s, CategorySummary) + 1, RerunStep(false), ns);
      }
    }
  }

  lemma DriftGateSame(s: seq<Step>)
    ensures SameAnchors(WithoutProbes(s), WithoutProbes(DriftGateSteps(s)))
  {
    if Has(s, Named(NonLabviewChecks)) {
      var st := s[Find(s, Named(NonLabviewChecks))];
      PlainEdit(st, Edited(DriftGateEdit, st));
      EditDiscreet(s, Named(NonLabviewChecks), DriftGateEdit);
    }
  }

  /** The lint job of ci-orchestrated.yml before J1 and J2 are put back. */
  lemma {:induction false} LintedEarly(s: seq<Step>)
    ensures SameAnchors(WithoutProbes(Linted(s)), WithoutProbes(DriftGateSteps(LintSteps(RerunAfterSummarySteps(NormalizeHosted(s))))))
  {
    var a := NormalizeHosted(s);
    var h := RerunAfterSummarySteps(a);
    NormalizeLinted(s);
    HintName(a);
    HintRehoused(a, [InstallActionlint, SetupNode, InstallMarkdownlint, MarkdownlintName(a)]);
    LintSame(h);
    SameThrice(Linted(s), Linted(a), Linted(h), LintSteps(h));
    DriftGateSame(LintSteps(h));
    SameTrans(WithoutProbes(Linted(s)), WithoutProbes(LintSteps(h)), WithoutProbes(DriftGateSteps(LintSteps(h))));
  }

  lemma {:induction false} LintedClear(pester: bool, s: seq<Step>)
    ensures AnchorsClear(CiOrchestrated, "lint", WireProbesSteps(EarlySteps(CiOrchestrated, pester, "lint", s), ProbeDir("lint"))) ==
            AnchorsClear(CiOrchestrated, "lint", WithoutProbes(Linted(s)))
  {
    LintEarly(CiOrchestrated, pester, s);
    var e, dir := DriftGateSteps(LintSteps(RerunAfterSummarySteps(NormalizeHosted(s)))), ProbeDir("lint");
    LintedEarly(s);
    WireSame(e, dir);
    SameTrans(WithoutProbes(Linted(s)), WithoutProbes(e), WireProbesSteps(e, dir));
    SameClear(CiOrchestrated, "lint", WithoutProbes(Linted(s)), WireProbesSteps(e, dir));
  }

  lemma {:induction false} LintCount(f: File, pester: bool, s: seq<Step>)
    ensures Has(EarlySteps(f, pester, "lint", s), Named(InstallMarkdownlint)) <==> Count(s, DROPPED) > 1
  {
    CountEarly(f, pester, s);
    CountHas(EarlySteps(f, pester, "lint", s), DROPPED);
  }

  /**
   The lint job: it settles exactly when it installs markdownlint at most once and, in
   ci-orchestrated.yml, the first checkout that the lint rewrite leaves bears no anchor.
   */
  lemma {:induction false} WrittenLintIff(f: File, pester: bool, s: seq<Step>)
    requires Rewires(f)
    ensures Settles(f, pester, "lint", s) <==>
            Count(s, DROPPED) <= 1 && AnchorsClear(f, "lint", WithoutProbes(Linted(s)))
  {
    LintCount(f, pester, s);
    if f.CiOrchestrated? { LintedClear(pester, s); }
  }
}
