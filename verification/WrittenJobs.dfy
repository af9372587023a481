/**
 The settling condition on the job as it is written: what the early rewrites do to a list
 neither moves its first checkout off an anchor nor onto one, so the exact condition can be
 read off the steps before any of them runs.
 */
module WrittenJobs {
  import opened Options
  import opened Texts
  import opened WorkflowVocabulary
  import opened StepLists
  import opened WorkflowStages
  import opened StepFacts
  import opened StageReadiness
  import opened RewiredJobs
  import opened RewiredFixedPoint
  import opened RewiredSettling

  // ---------------------------------------------------------------- lists with the same checkout and anchors

  /** The selectors whose presence stops an insertion. */
  predicate GuardSelector(sel: Selector) {
    sel.Named? && (sel.name.WireC2? || sel.name.WireInvokerStop? || sel.name.WireGuardPost? || sel.name.WireP1? ||
                   sel.name.AppendFinalSummary?)
  }

  predicate AnchorSelector(sel: Selector) {
    sel.DetectsDrift? ||
    (sel.Named? && (sel.name.EnsureInvokerStop? || sel.name.UnblockGuard? || sel.name.AppendFinalSummary? ||
                    sel.name.SummarizeOrchestrated?))
  }

  /** Two lists that agree on what guards the insertions and on which anchors the first checkout bears. */
  ghost predicate SameAnchors(s: seq<Step>, t: seq<Step>) {
    && Has(s, Checkout) == Has(t, Checkout)
    && (forall sel | GuardSelector(sel) :: Has(s, sel) == Has(t, sel))
    && (Has(s, Checkout) ==> forall sel | AnchorSelector(sel) :: OnCheckout(s, sel) == OnCheckout(t, sel))
  }

  lemma {:induction false} SameClear(f: File, n: string, s: seq<Step>, t: seq<Step>)
    requires SameAnchors(s, t)
    ensures AnchorsClear(f, n, s) == AnchorsClear(f, n, t)
  {
    assert Has(s, Named(WireC2)) == Has(t, Named(WireC2)) && Has(s, Named(WireP1)) == Has(t, Named(WireP1));
    assert Has(s, Named(WireInvokerStop)) == Has(t, Named(WireInvokerStop));
    assert Has(s, Named(WireGuardPost)) == Has(t, Named(WireGuardPost));
    assert Has(s, Named(AppendFinalSummary)) == Has(t, Named(AppendFinalSummary));
  }

  lemma {:induction false} OnCheckoutInsert(s: seq<Step>, k: nat, x: Step, sel: Selector)
    requires k <= |s| && Has(s, Checkout) && !Is(x, Checkout) && (!Is(x, sel) || k == |s|)
    ensures OnCheckout(Insert(s, k, x), sel) == OnCheckout(s, sel)
  {
    FindShift(s, k, x, Checkout);
    if Is(x, sel) {
      InsertIndex(s, k, x);
      FindIs(Insert(s, k, x), sel, Find(s, sel));
    } else {
      FindShift(s, k, x, sel);
    }
  }

  lemma InsertSame(s: seq<Step>, k: nat, x: Step)
    requires k <= |s| && !Is(x, Checkout) && forall sel | GuardSelector(sel) :: !Is(x, sel)
    requires k == |s| || forall sel | AnchorSelector(sel) :: !Is(x, sel)
    ensures SameAnchors(s, Insert(s, k, x))
  {
    HasInsert(s, k, x, Checkout);
    forall sel | GuardSelector(sel) ensures Has(s, sel) == Has(Insert(s, k, x), sel) { HasInsert(s, k, x, sel); }
    if Has(s, Checkout) {
      forall sel | AnchorSelector(sel) ensures OnCheckout(s, sel) == OnCheckout(Insert(s, k, x), sel) { OnCheckoutInsert(s, k, x, sel); }
    }
  }

  predicate Reads(sel: Selector) {
    sel.Checkout? || GuardSelector(sel) || AnchorSelector(sel)
  }

  lemma FoundSame(s: seq<Step>, t: seq<Step>)
    requires |s| == |t| && forall sel | Reads(sel) :: Find(s, sel) == Find(t, sel)
    ensures SameAnchors(s, t)
  {
    assert Reads(Checkout);
    forall sel | GuardSelector(sel) ensures Has(s, sel) == Has(t, sel) { assert Reads(sel); }
    forall sel | AnchorSelector(sel) ensures OnCheckout(s, sel) == OnCheckout(t, sel) { assert Reads(sel); }
  }

  lemma UpdateSame(s: seq<Step>, i: nat, y: Step)
    requires i < |s| && forall sel | Reads(sel) :: Is(y, sel) == Is(s[i], sel)
    ensures SameAnchors(s, s[i := y])
  {
    forall sel | Reads(sel) ensures Find(s, sel) == Find(s[i := y], sel) { FindUpdate(s, i, y, sel); }
    FoundSame(s, s[i := y]);
  }

  lemma NormalizeSame(s: seq<Step>)
    ensures SameAnchors(s, NormalizeHosted(s))
  {
    forall sel | Reads(sel) ensures Find(s, sel) == Find(NormalizeHosted(s), sel) { NormalizeFind(s, sel); }
    FoundSame(s, NormalizeHosted(s));
  }

  // ---------------------------------------------------------------- taking out J1 and J2 commutes

  lemma WithoutInsert(s: seq<Step>, k: nat, x: Step)
    requires k <= |s| && !IsJProbe(x)
    ensures |WithoutProbes(s[..k])| <= |WithoutProbes(s)| && (k == |s| ==> |WithoutProbes(s[..k])| == |WithoutProbes(s)|)
    ensures WithoutProbes(Insert(s, k, x)) == Insert(WithoutProbes(s), |WithoutProbes(s[..k])|, x)
  {
    assert s == s[..k] + s[k..];
    WithoutConcat(s[..k], s[k..]);
    WithoutConcat(s[..k] + [x], s[k..]);
    WithoutConcat(s[..k], [x]);
    WithoutNothing([x]);
  }

  lemma RemoveInsert(s: seq<Step>, i: nat, y: Step)
    requires i < |s|
    ensures s == Insert(Remove(s, i), i, s[i]) && s[i := y] == Insert(Remove(s, i), i, y) && Remove(s, i)[..i] == s[..i]
  {
  }

  lemma InsertEither(w: seq<Step>, k: nat, x: Step, y: Step)
    requires k <= |w|
    ensures Insert(w, k, x)[k] == x && Insert(w, k, x)[k := y] == Insert(w, k, y)
  {
  }

  lemma WithoutUpdate(s: seq<Step>, i: nat, y: Step)
    requires i < |s| && !IsJProbe(s[i]) && !IsJProbe(y)
    ensures var k := |WithoutProbes(s[..i])|;
      k < |WithoutProbes(s)| && WithoutProbes(s)[k] == s[i] && WithoutProbes(s[i := y]) == WithoutProbes(s)[k := y]
  {
    var r, k := Remove(s, i), |WithoutProbes(s[..i])|;
    RemoveInsert(s, i, y);
    WithoutInsert(r, i, s[i]);
    WithoutInsert(r, i, y);
    InsertEither(WithoutProbes(r), k, s[i], y);
  }

  lemma {:induction false} WithoutNormalize(s: seq<Step>)
    ensures WithoutProbes(NormalizeHosted(s)) == NormalizeHosted(WithoutProbes(s))
  {
    if s != [] {
      WithoutNormalize(s[1..]);
      assert NormalizeHosted(s)[1..] == NormalizeHosted(s[1..]);
      assert IsJProbe(HostedNormal(s[0])) == IsJProbe(s[0]);
    }
  }

  /** A selector for which taking out J1 and J2 leaves a step, if it had one. */
  predicate Kept(s: seq<Step>, sel: Selector) {
    Has(s, sel) ==> Has(WithoutProbes(s), sel)
  }

  // ---------------------------------------------------------------- one rewrite at a time

  /** Steps that the insertions and J1/J2 do not look at. */
  ghost predicate Unread(st: Step) {
    !IsJProbe(st) && forall sel | Reads(sel) :: !Is(st, sel)
  }

  /** An edit that neither makes nor undoes anything that is looked at. */
  ghost predicate Discreet(sel: Selector, e: Edit) {
    forall st | Is(st, sel) :: !IsJProbe(st) && !IsJProbe(Edited(e, st)) && forall r | Reads(r) :: Is(Edited(e, st), r) == Is(st, r)
  }

  ghost predicate DiscreetAt(s: seq<Step>, sel: Selector, e: Edit) {
    Has(s, sel) ==>
      var st := s[Find(s, sel)];
      !IsJProbe(st) && !IsJProbe(Edited(e, st)) && forall r | Reads(r) :: Is(Edited(e, st), r) == Is(st, r)
  }

  lemma InsertUnread(s: seq<Step>, k: nat, x: Step)
    requires k <= |s| && Unread(x)
    ensures SameAnchors(WithoutProbes(s), WithoutProbes(Insert(s, k, x)))
  {
    assert Reads(Checkout);
    WithoutInsert(s, k, x);
    InsertSame(WithoutProbes(s), |WithoutProbes(s[..k])|, x);
  }

  lemma EditDiscreet(s: seq<Step>, sel: Selector, e: Edit)
    requires DiscreetAt(s, sel, e)
    ensures SameAnchors(WithoutProbes(s), WithoutProbes(Revise(s, sel, e)))
  {
    if Has(s, sel) {
      var i, y := Find(s, sel), Edited(e, s[Find(s, sel)]);
      WithoutUpdate(s, i, y);
      UpdateSame(WithoutProbes(s), |WithoutProbes(s[..i])|, y);
    }
  }

  lemma EnsureSame(s: seq<Step>, sel: Selector, e: Edit, k: nat, x: Step)
    requires k <= |s| && Unread(x) && DiscreetAt(s, sel, e)
    ensures SameAnchors(WithoutProbes(s), WithoutProbes(Ensure(s, sel, e, k, x)))
  {
    if Has(s, sel) { EditDiscreet(s, sel, e); } else { InsertUnread(s, k, x); }
  }

  /** Whether a role is still filled without J1 and J2, after a rewrite that has nothing to do with it. */
  lemma {:induction false} EnsureKept(s: seq<Step>, sel: Selector, e: Edit, k: nat, x: Step, role: Selector)
    requires k <= |s| && !IsJProbe(x) && !Is(x, role)
    requires forall st | Is(st, sel) :: !IsJProbe(st) && !IsJProbe(Edited(e, st)) && Is(Edited(e, st), role) == Is(st, role)
    ensures Has(WithoutProbes(Ensure(s, sel, e, k, x)), role) == Has(WithoutProbes(s), role)
  {
    var w := WithoutProbes(s);
    if Has(s, sel) {
      var i, y := Find(s, sel), Edited(e, s[Find(s, sel)]);
      WithoutUpdate(s, i, y);
      FindUpdate(w, |WithoutProbes(s[..i])|, y, role);
    } else {
      WithoutInsert(s, k, x);
      HasInsert(w, |WithoutProbes(s[..k])|, x, role);
    }
  }

  lemma NormalizeKept(s: seq<Step>, role: Selector)
    ensures Has(NormalizeHosted(s), role) == Has(s, role)
    ensures Has(WithoutProbes(NormalizeHosted(s)), role) == Has(WithoutProbes(s), role)
    ensures SameAnchors(WithoutProbes(s), WithoutProbes(NormalizeHosted(s)))
  {
    NormalizeFind(s, role);
    WithoutNormalize(s);
    NormalizeFind(WithoutProbes(s), role);
    NormalizeSame(WithoutProbes(s));
  }

  // ---------------------------------------------------------------- the re-run hints

  /** An edit that leaves name, id and action alone. */
  lemma PlainEdit(st: Step, y: Step)
    requires st.Step? && y.Step? && st.name == y.name && st.id == y.id && st.uses == y.uses && !IsJProbe(st)
    ensures !IsJProbe(y) && forall r | Reads(r) :: Is(y, r) == Is(st, r)
  {
    forall r | Reads(r) ensures Is(y, r) == Is(st, r) { SelectorsIgnore(st, y, r); }
  }

  lemma ScriptUnread(st: Step)
    requires st.Step? && st.uses.None? && !IsJProbe(st) && (st.name.Some? ==> forall r | Reads(r) :: r != Named(st.name.value))
    ensures Unread(st)
  {
  }

  lemma RerunEditPlain(st: Step, single: bool)
    requires Is(st, Named(RerunName(single)))
    ensures var y := Edited(RerunEdit(single), st);
      y.Step? && st.name == y.name && st.id == y.id && st.uses == y.uses && !IsJProbe(st)
  {
  }

  lemma RerunStepIs(single: bool)
    ensures var x := RerunStep(single); x.Step? && x.uses.None? && x.id.None? && x.name == Some(RerunName(single)) && !IsJProbe(x)
  {
  }

  lemma {:induction false} HintDiscreet(single: bool)
    ensures Discreet(Named(RerunName(single)), RerunEdit(single)) && Unread(RerunStep(single))
  {
    forall st | Is(st, Named(RerunName(single)))
      ensures !IsJProbe(st) && !IsJProbe(Edited(RerunEdit(single), st))
      ensures forall r | Reads(r) :: Is(Edited(RerunEdit(single), st), r) == Is(st, r)
    {
      RerunEditPlain(st, single);
      PlainEdit(st, Edited(RerunEdit(single), st));
    }
    RerunStepIs(single);
    ScriptUnread(RerunStep(single));
  }

  lemma {:induction false} HintSame(s: seq<Step>)
    ensures SameAnchors(WithoutProbes(s), WithoutProbes(RerunAfterSummarySteps(s)))
  {
    HintDiscreet(false);
    if Has(s, CategorySummary) {
      EnsureSame(s, Named(RerunMatrix), RerunEdit(false), Find(s, CategorySummary) + 1, RerunStep(false));
    }
  }

  lemma JobHintSame(s: seq<Step>, single: bool)
    ensures SameAnchors(WithoutProbes(s), WithoutProbes(RerunInJobSteps(s, single)))
  {
    HintDiscreet(single);
    EnsureSame(s, Named(RerunName(single)), RerunEdit(single), |s|, RerunStep(single));
  }

  lemma {:induction false} HintKept(s: seq<Step>, role: Selector)
    requires role.Checkout? || role.PostsSessionIndex? || role.GuardsRunner? || role == WithId("out")
    ensures Has(WithoutProbes(RerunAfterSummarySteps(s)), role) == Has(WithoutProbes(s), role)
  {
    if Has(s, CategorySummary) {
      forall st | Is(st, Named(RerunMatrix)) ensures Is(Edited(RerunEdit(false), st), role) == Is(st, role) {
        SelectorsIgnore(st, Edited(RerunEdit(false), st), role);
      }
      EnsureKept(s, Named(RerunMatrix), RerunEdit(false), Find(s, CategorySummary) + 1, RerunStep(false), role);
    }
  }

  lemma SameTrans(s: seq<Step>, t: seq<Step>, u: seq<Step>)
    requires SameAnchors(s, t) && SameAnchors(t, u)
    ensures SameAnchors(s, u)
  {
  }

  // ---------------------------------------------------------------- roles that are appended

  /** A step appended at the end may bear an anchor name: it stands behind the first checkout. */
  lemma AppendWithout(s: seq<Step>, guard: Selector, x: Step)
    requires !IsJProbe(x) && Is(x, guard) && !Is(x, Checkout) && forall sel | GuardSelector(sel) :: !Is(x, sel)
    ensures SameAnchors(WithoutProbes(s), WithoutProbes(AppendUnless(s, guard, x)))
    ensures Has(WithoutProbes(AppendUnless(s, guard, x)), guard) == Kept(s, guard)
  {
    var w := WithoutProbes(s);
    if !Has(s, guard) {
      assert s + [x] == Insert(s, |s|, x) && s[..|s|] == s;
      WithoutInsert(s, |s|, x);
      InsertSame(w, |w|, x);
      HasInsert(w, |w|, x, guard);
    }
  }

  lemma AppendKept(s: seq<Step>, guard: Selector, x: Step, role: Selector)
    requires !IsJProbe(x) && !Is(x, role)
    ensures Has(AppendUnless(s, guard, x), role) == Has(s, role)
    ensures Has(WithoutProbes(AppendUnless(s, guard, x)), role) == Has(WithoutProbes(s), role)
  {
    if !Has(s, guard) {
      assert s + [x] == Insert(s, |s|, x);
      HasInsert(s, |s|, x, role);
      WithoutInsert(s, |s|, x);
      HasInsert(WithoutProbes(s), |WithoutProbes(s[..|s|])|, x, role);
    }
  }

  // ---------------------------------------------------------------- jobs in general

  predicate GuardJob(n: string) { PesterJob(n) || n == "drift" }

  /** The jobs whose steps are neither linted, gated nor probed. */
  predicate Ordinary(pester: bool, n: string) {
    n != "lint" && n != "probe" && !(pester && n == "pre-init")
  }

  /** The roles of a job have a step that is not named J1 or J2, if they have a step at all. */
  predicate RolesWritten(n: string, s: seq<Step>) {
    && (n == "preflight" ==> Kept(s, Checkout))
    && (PesterJob(n) ==> Kept(s, PostsSessionIndex))
    && (GuardJob(n) ==> Kept(s, GuardsRunner))
  }

  lemma {:induction false} GuardAppend(n: string, s: seq<Step>)
    ensures var t := AppendUnless(s, GuardsRunner, UnblockGuardStep(Snapshot(n)));
      && SameAnchors(WithoutProbes(s), WithoutProbes(t))
      && Has(WithoutProbes(t), GuardsRunner) == Kept(s, GuardsRunner)
      && Has(WithoutProbes(t), PostsSessionIndex) == Has(WithoutProbes(s), PostsSessionIndex)
  {
    AppendWithout(s, GuardsRunner, UnblockGuardStep(Snapshot(n)));
    AppendKept(s, GuardsRunner, UnblockGuardStep(Snapshot(n)), PostsSessionIndex);
  }

  lemma {:induction false} PostAppend(s: seq<Step>)
    ensures var t := AppendUnless(s, PostsSessionIndex, SessionPostStep(SessionPost, MatrixResults, MatrixArtifact));
      && SameAnchors(WithoutProbes(s), WithoutProbes(t))
      && Has(WithoutProbes(t), PostsSessionIndex) == Kept(s, PostsSessionIndex)
      && Kept(t, GuardsRunner) == Kept(s, GuardsRunner)
  {
    var x := SessionPostStep(SessionPost, MatrixResults, MatrixArtifact);
    AppendWithout(s, PostsSessionIndex, x);
    AppendKept(s, PostsSessionIndex, x, GuardsRunner);
  }

  /** The roles of a job that runs tests or guards its runner. */
  lemma {:induction false} AppendedRoles(n: string, s: seq<Step>)
    requires n != "preflight"
    ensures var t := RoleSteps(n, s);
      && SameAnchors(WithoutProbes(s), WithoutProbes(t))
      && (PesterJob(n) ==> Has(WithoutProbes(t), PostsSessionIndex) == Kept(s, PostsSessionIndex))
      && (GuardJob(n) ==> Has(WithoutProbes(t), GuardsRunner) == Kept(s, GuardsRunner))
  {
    var b := if PesterJob(n) then AppendUnless(s, PostsSessionIndex, SessionPostStep(SessionPost, MatrixResults, MatrixArtifact)) else s;
    if PesterJob(n) { PostAppend(s); }
    if GuardJob(n) { GuardAppend(n, b); }
  }

  // ---------------------------------------------------------------- the preflight checkout

  /** A checkout put in front bears no anchor. */
  lemma {:induction false} BareClear(f: File, n: string, s: seq<Step>)
    ensures Has([BARE_CHECKOUT] + s, Checkout) && AnchorsClear(f, n, [BARE_CHECKOUT] + s)
  {
    var t := [BARE_CHECKOUT] + s;
    assert Is(t[0], Checkout);
    FindIs(t, Checkout, 0);
    forall sel | AnchorSelector(sel) ensures !OnCheckout(t, sel) { assert !Is(t[0], sel); }
  }

  lemma WithoutFront(x: Step, s: seq<Step>)
    requires !IsJProbe(x)
    ensures WithoutProbes([x] + s) == [x] + WithoutProbes(s)
  {
    assert ([x] + s)[1..] == s;
  }

  lemma WithoutHas(s: seq<Step>, sel: Selector)
    requires Has(WithoutProbes(s), sel)
    ensures Has(s, sel)
  {
    WithoutFirst(s, sel);
  }

  /** A checkout that is there or is put in front: whether one is left, and whether it bears an anchor. */
  lemma CheckoutWritten(f: File, n: string, s: seq<Step>)
    ensures var w := WithoutProbes(WithCheckout(s));
      && Has(w, Checkout) == Kept(s, Checkout)
      && AnchorsClear(f, n, w) == AnchorsClear(f, n, WithoutProbes(s))
  {
    if !Has(s, Checkout) {
      WithoutFront(BARE_CHECKOUT, s);
      BareClear(f, n, WithoutProbes(s));
      if Has(WithoutProbes(s), Checkout) { WithoutHas(s, Checkout); }
    }
  }

  lemma HostedEditPlain(st: Step)
    requires Is(st, VerifyRunner)
    ensures var y := Edited(HostedEdit, st);
      y.Step? && st.name == y.name && st.id == y.id && st.uses == y.uses && !IsJProbe(st)
  {
  }

  lemma {:induction false} HostedDiscreet()
    ensures Discreet(VerifyRunner, HostedEdit) && Unread(PREFLIGHT_STEP)
  {
    forall st | Is(st, VerifyRunner)
      ensures !IsJProbe(st) && !IsJProbe(Edited(HostedEdit, st))
      ensures forall r | Reads(r) :: Is(Edited(HostedEdit, st), r) == Is(st, r)
    {
      HostedEditPlain(st);
      PlainEdit(st, Edited(HostedEdit, st));
    }
    ScriptUnread(PREFLIGHT_STEP);
  }

  lemma {:induction false} PreflightRole(f: File, n: string, s: seq<Step>)
    ensures var w := WithoutProbes(HostedPreflightSteps(s));
      && Has(w, Checkout) == Kept(s, Checkout)
      && AnchorsClear(f, n, w) == AnchorsClear(f, n, WithoutProbes(s))
  {
    var c, k := WithCheckout(s), if Has(s, Checkout) then 1 else 0;
    CheckoutWritten(f, n, s);
    HostedDiscreet();
    EnsureSame(c, VerifyRunner, HostedEdit, k, PREFLIGHT_STEP);
    SameClear(f, n, WithoutProbes(c), WithoutProbes(HostedPreflightSteps(s)));
  }

  // ---------------------------------------------------------------- the exact condition, as written

  lemma {:induction false} ProbeUnread(dir: Value, sel: Selector)
    requires Reads(sel)
    ensures !Is(StepJ1(dir), sel) && !Is(StepJ2(dir), sel)
  {
  }

  /** A probe put in anywhere: it is neither a checkout nor an anchor, and guards nothing. */
  lemma ProbeSame(s: seq<Step>, k: nat, dir: Value, x: Step)
    requires k <= |s| && (x == StepJ1(dir) || x == StepJ2(dir))
    ensures SameAnchors(s, Insert(s, k, x))
  {
    forall sel | Reads(sel) ensures !Is(x, sel) { ProbeUnread(dir, sel); }
    assert Reads(Checkout);
    InsertSame(s, k, x);
  }

  lemma WireSame(e: seq<Step>, dir: Value)
    ensures SameAnchors(WithoutProbes(e), WireProbesSteps(e, dir))
  {
    var kept := WithoutProbes(e);
    if Has(kept, Checkout) {
      var c := Find(kept, Checkout) + 1;
      var j1 := Insert(kept, c, StepJ1(dir));
      ProbeSame(kept, c, dir, StepJ1(dir));
      ProbeSame(j1, c + 1, dir, StepJ2(dir));
      SameTrans(kept, j1, Insert(j1, c + 1, StepJ2(dir)));
    }
  }

  /** The roles of a job and the anchors of its checkout after the rewrites before the hint. */
  lemma {:induction false} RolesWrittenIff(f: File, n: string, s: seq<Step>)
    ensures var w := WithoutProbes(RoleSteps(n, s));
      && (n == "preflight" ==> Has(w, Checkout) == Kept(s, Checkout))
      && (PesterJob(n) ==> Has(w, PostsSessionIndex) == Kept(s, PostsSessionIndex))
      && (GuardJob(n) ==> Has(w, GuardsRunner) == Kept(s, GuardsRunner))
      && AnchorsClear(f, n, w) == AnchorsClear(f, n, WithoutProbes(s))
  {
    if n == "preflight" {
      PreflightRole(f, n, s);
    } else {
      AppendedRoles(n, s);
      SameClear(f, n, WithoutProbes(s), WithoutProbes(RoleSteps(n, s)));
    }
  }

  /** The hints change neither. */
  lemma {:induction false} HintsWritten(f: File, n: string, s: seq<Step>)
    ensures var h := RerunAfterSummarySteps(s);
      var t := if n == "windows-single" then RerunInJobSteps(h, true) else if n == "publish" then RerunInJobSteps(h, false) else h;
      AnchorsClear(f, n, WithoutProbes(t)) == AnchorsClear(f, n, WithoutProbes(s))
    ensures forall role | role == Checkout || role == PostsSessionIndex || role == GuardsRunner ::
              Has(WithoutProbes(RerunAfterSummarySteps(s)), role) == Has(WithoutProbes(s), role)
  {
    var h := RerunAfterSummarySteps(s);
    HintSame(s);
    SameClear(f, n, WithoutProbes(s), WithoutProbes(h));
    if n == "windows-single" {
      JobHintSame(h, true);
      SameClear(f, n, WithoutProbes(h), WithoutProbes(RerunInJobSteps(h, true)));
    } else if n == "publish" {
      JobHintSame(h, false);
      SameClear(f, n, WithoutProbes(h), WithoutProbes(RerunInJobSteps(h, false)));
    }
    forall role | role == Checkout || role == PostsSessionIndex || role == GuardsRunner
      ensures Has(WithoutProbes(h), role) == Has(WithoutProbes(s), role)
    {
      HintKept(s, role);
    }
  }

  lemma {:induction false} NormalizeRoles(f: File, n: string, s: seq<Step>)
    ensures RolesWritten(n, NormalizeHosted(s)) == RolesWritten(n, s)
    ensures AnchorsClear(f, n, WithoutProbes(NormalizeHosted(s))) == AnchorsClear(f, n, WithoutProbes(s))
  {
    NormalizeKept(s, Checkout);
    NormalizeKept(s, PostsSessionIndex);
    NormalizeKept(s, GuardsRunner);
    SameClear(f, n, WithoutProbes(s), WithoutProbes(NormalizeHosted(s)));
  }

  lemma {:induction false} RolesKeptIff(pester: bool, n: string, s: seq<Step>)
    requires Ordinary(pester, n)
    ensures RolesKept(CiOrchestrated, pester, n, EarlySteps(CiOrchestrated, pester, n, s)) <==> RolesWritten(n, s)
    ensures AnchorsClear(CiOrchestrated, n, WithoutProbes(EarlySteps(CiOrchestrated, pester, n, s))) <==>
            AnchorsClear(CiOrchestrated, n, WithoutProbes(s))
  {
    var a := NormalizeHosted(s);
    NormalizeRoles(CiOrchestrated, n, s);
    RolesWrittenIff(CiOrchestrated, n, a);
    HintsWritten(CiOrchestrated, n, RoleSteps(n, a));
  }

  /**
   The exact condition for a job of ci-orchestrated.yml that is neither linted, gated nor
   probed, read off its steps as written: its roles do not rest on steps named J1 or J2, and
   the first checkout that is not so named bears no anchor of an insertion still to be made.
   */
  lemma {:induction false} WrittenSettlesIff(pester: bool, n: string, s: seq<Step>)
    requires Ordinary(pester, n)
    ensures Settles(CiOrchestrated, pester, n, s) <==>
            RolesWritten(n, s) && AnchorsClear(CiOrchestrated, n, WithoutProbes(s))
  {
    var e, dir := EarlySteps(CiOrchestrated, pester, n, s), ProbeDir(n);
    RolesKeptIff(pester, n, s);
    WireSame(e, dir);
    SameClear(CiOrchestrated, n, WithoutProbes(e), WireProbesSteps(e, dir));
  }
}
