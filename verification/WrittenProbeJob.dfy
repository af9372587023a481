/**
 The settling condition on the interactivity job of ci-orchestrated.yml as it is written.
 The rewrite renames the job's output step, so the condition is about the list in which
 that step already bears its new name.
 */
module WrittenProbeJob {
  import opened Options
  import opened Texts
  import opened WorkflowVocabulary
  import opened StepLists
  import opened WorkflowStages
  import opened StepFacts
  import opened StageReadiness
  import opened RewiredJobs
  import opened RewiredFixedPoint
  import opened RewiredSettling
  import opened WrittenJobs

  const OUT := WithId("out")

  /** The list with its output step, if it has one, named as the interactivity probe. */
  function Renamed(s: seq<Step>): seq<Step> {
    if Has(s, OUT) then s[Find(s, OUT) := s[Find(s, OUT)].(name := Some(RunInteractivityProbe))] else s
  }

  /**
   A checkout is left without J1 and J2, if there is one at all; and if the output step was
   the re-run hint, a further hint in order is there to take over.
   */
  predicate ProbeWritten(s: seq<Step>) {
    && Kept(Renamed(s), Checkout)
    && (OutIsHint(s) ==> RerunReady(Renamed(s)))
  }

  predicate OutIsHint(s: seq<Step>) {
    Has(s, OUT) && Find(s, OUT) == Find(s, Named(RerunMatrix))
  }

  // ---------------------------------------------------------------- lists that selectors cannot tell apart

  predicate SameFace(a: Step, b: Step) {
    a.Step? == b.Step? && (a.Step? ==> a.name == b.name && a.id == b.id && a.uses == b.uses)
  }

  predicate SameFaces(s: seq<Step>, t: seq<Step>) {
    |s| == |t| && forall i | 0 <= i < |s| :: SameFace(s[i], t[i])
  }

  lemma FaceIs(a: Step, b: Step, sel: Selector)
    requires SameFace(a, b)
    ensures Is(a, sel) == Is(b, sel)
  {
    if a.Step? { SelectorsIgnore(a, b, sel); }
  }

  lemma {:induction false} FacesFind(s: seq<Step>, t: seq<Step>, sel: Selector)
    requires SameFaces(s, t)
    ensures Find(s, sel) == Find(t, sel) && Has(s, sel) == Has(t, sel)
  {
    forall i | 0 <= i < |s| ensures Is(s[i], sel) == Is(t[i], sel) { FaceIs(s[i], t[i], sel); }
    FindIs(t, sel, Find(s, sel));
  }

  lemma {:induction false} FacesWithout(s: seq<Step>, t: seq<Step>)
    requires SameFaces(s, t)
    ensures SameFaces(WithoutProbes(s), WithoutProbes(t))
  {
    if s != [] {
      FaceIs(s[0], t[0], NamedEither(WireJ1, WireJ2));
      FacesWithout(s[1..], t[1..]);
    }
  }

  lemma FacesSame(s: seq<Step>, t: seq<Step>)
    requires SameFaces(s, t)
    ensures SameAnchors(WithoutProbes(s), WithoutProbes(t)) && Kept(s, Checkout) == Kept(t, Checkout)
  {
    FacesWithout(s, t);
    var w, u := WithoutProbes(s), WithoutProbes(t);
    forall sel | Reads(sel) ensures Find(w, sel) == Find(u, sel) { FacesFind(w, u, sel); }
    FoundSame(w, u);
    FacesFind(s, t, Checkout);
    FacesFind(w, u, Checkout);
  }

  lemma RenamedFaces(s: seq<Step>, t: seq<Step>)
    requires SameFaces(s, t)
    ensures SameFaces(Renamed(s), Renamed(t))
  {
    FacesFind(s, t, OUT);
  }

  // ---------------------------------------------------------------- the probe step

  lemma ProbeEditIs(st: Step)
    requires st.Step?
    ensures SameFace(Edited(ProbeEdit, st), st.(name := Some(RunInteractivityProbe)))
  {
  }

  lemma ConsUpdate(x: Step, s: seq<Step>, i: nat, y: Step)
    requires i < |s|
    ensures ([x] + s)[i + 1 := y] == [x] + s[i := y]
  {
  }

  lemma RenamedCheckout(s: seq<Step>)
    ensures Has(Renamed(s), Checkout) == Has(s, Checkout) && Find(Renamed(s), Checkout) == Find(s, Checkout)
  {
    if Has(s, OUT) { FindUpdate(s, Find(s, OUT), s[Find(s, OUT)].(name := Some(RunInteractivityProbe)), Checkout); }
  }

  lemma UpdateFaces(d: seq<Step>, i: nat, y: Step, z: Step)
    requires i < |d| && SameFace(y, z)
    ensures SameFaces(d[i := y], d[i := z])
  {
  }

  lemma ConsFaces(x: Step, s: seq<Step>, t: seq<Step>)
    requires SameFaces(s, t)
    ensures SameFaces([x] + s, [x] + t)
  {
  }

  /** The rewrite, up to what selectors see: the renamed list with a checkout, and the probe step if none was there. */
  lemma InteractivityFaces(d: seq<Step>)
    requires Has(d, OUT)
    ensures SameFaces(InteractivitySteps(d), WithCheckout(Renamed(d)))
  {
    var i := Find(d, OUT);
    var y, z := Edited(ProbeEdit, d[i]), d[i].(name := Some(RunInteractivityProbe));
    RenamedCheckout(d);
    InteractivityEdits(d);
    ProbeEditIs(d[i]);
    UpdateFaces(d, i, y, z);
    ConsFaces(BARE_CHECKOUT, d[i := y], d[i := z]);
  }

  lemma BareOut(d: seq<Step>)
    ensures Find([BARE_CHECKOUT] + d, OUT) == Find(d, OUT) + 1
  {
    FindIs([BARE_CHECKOUT] + d, OUT, Find(d, OUT) + 1);
  }

  lemma ProbeStepUnread()
    ensures Unread(PROBE_STEP)
  {
    ScriptUnread(PROBE_STEP);
  }

  lemma {:induction false} InteractivityWithout(f: File, n: string, d: seq<Step>)
    ensures var w := WithoutProbes(InteractivitySteps(d));
      && Has(w, Checkout) == Kept(Renamed(d), Checkout)
      && AnchorsClear(f, n, w) == AnchorsClear(f, n, WithoutProbes(Renamed(d)))
  {
    var t, c := InteractivitySteps(d), WithCheckout(Renamed(d));
    CheckoutWritten(f, n, Renamed(d));
    if Has(d, OUT) {
      InteractivityFaces(d);
      FacesSame(t, c);
    } else {
      BareOut(d);
      ProbeStepUnread();
      InsertUnread(c, if Has(c, Checkout) then Find(c, Checkout) + 1 else |c|, PROBE_STEP);
    }
    SameClear(f, n, WithoutProbes(c), WithoutProbes(t));
  }

  // ---------------------------------------------------------------- the rewrites before it

  lemma {:induction false} InsertRenamed(s: seq<Step>, k: nat, x: Step)
    requires k <= |s| && !Is(x, OUT)
    ensures Renamed(Insert(s, k, x)) == Insert(Renamed(s), k, x)
  {
    FindShift(s, k, x, OUT);
  }

  lemma InsertKept(s: seq<Step>, k: nat, x: Step, sel: Selector)
    requires k <= |s| && !IsJProbe(x) && !Is(x, sel)
    ensures Kept(Insert(s, k, x), sel) == Kept(s, sel)
  {
    HasInsert(s, k, x, sel);
    WithoutInsert(s, k, x);
    HasInsert(WithoutProbes(s), |WithoutProbes(s[..k])|, x, sel);
  }

  lemma NormalizeFaces(s: seq<Step>)
    ensures SameFaces(s, NormalizeHosted(s))
  {
  }

  lemma {:induction false} HintFaces(a: seq<Step>)
    requires !Has(a, CategorySummary) || Has(a, Named(RerunMatrix))
    ensures SameFaces(a, RerunAfterSummarySteps(a))
  {
    if Has(a, CategorySummary) { RerunEditPlain(a[Find(a, Named(RerunMatrix))], false); }
  }

  lemma {:induction false} HintInserted(a: seq<Step>)
    requires Has(a, CategorySummary) && !Has(a, Named(RerunMatrix))
    ensures SameAnchors(WithoutProbes(Renamed(a)), WithoutProbes(Renamed(RerunAfterSummarySteps(a))))
    ensures Kept(Renamed(RerunAfterSummarySteps(a)), Checkout) == Kept(Renamed(a), Checkout)
    ensures !OutIsHint(a) && !OutIsHint(RerunAfterSummarySteps(a))
  {
    var k, x := Find(a, CategorySummary) + 1, RerunStep(false);
    var d := Insert(a, k, x);
    RerunStepIs(false);
    HintDiscreet(false);
    InsertRenamed(a, k, x);
    InsertUnread(Renamed(a), k, x);
    InsertKept(Renamed(a), k, x, Checkout);
    InsertIndex(a, k, x);
    FindIs(d, Named(RerunMatrix), k);
    assert !Is(d[k], OUT);
  }

  /** The rewrites before the probe step change nothing that the condition reads. */
  lemma {:induction false} BeforeProbe(f: File, n: string, s: seq<Step>)
    ensures var d := RerunAfterSummarySteps(NormalizeHosted(s));
      && Kept(Renamed(d), Checkout) == Kept(Renamed(s), Checkout)
      && AnchorsClear(f, n, WithoutProbes(Renamed(d))) == AnchorsClear(f, n, WithoutProbes(Renamed(s)))
      && OutIsHint(d) == OutIsHint(s)
  {
    var a := NormalizeHosted(s);
    var d := RerunAfterSummarySteps(a);
    NormalizeFaces(s);
    RenamedFaces(s, a);
    FacesSame(Renamed(s), Renamed(a));
    FacesFind(s, a, OUT);
    FacesFind(s, a, Named(RerunMatrix));
    SameClear(f, n, WithoutProbes(Renamed(s)), WithoutProbes(Renamed(a)));
    if Has(a, CategorySummary) && !Has(a, Named(RerunMatrix)) {
      HintInserted(a);
    } else {
      HintFaces(a);
      RenamedFaces(a, d);
      FacesSame(Renamed(a), Renamed(d));
      FacesFind(a, d, OUT);
      FacesFind(a, d, Named(RerunMatrix));
    }
    SameClear(f, n, WithoutProbes(Renamed(a)), WithoutProbes(Renamed(d)));
  }

  // ---------------------------------------------------------------- the hint

  lemma ProbeIsNoHint(st: Step)
    requires st.Step? && st.name == Some(RunInteractivityProbe)
    ensures !Is(st, CategorySummary) && !Is(st, Named(RerunMatrix))
  {
  }

  lemma BareFirst(s: seq<Step>, sel: Selector)
    requires !Is(BARE_CHECKOUT, sel)
    ensures First(WithCheckout(s), sel) == First(s, sel)
  {
    if !Has(s, Checkout) { FirstCons(BARE_CHECKOUT, s, sel); }
  }

  /** Two steps that a selector does not pick, in the same place. */
  lemma UpdateEither(s: seq<Step>, i: nat, y: Step, z: Step, sel: Selector)
    requires i < |s| && !Is(y, sel) && !Is(z, sel)
    ensures First(s[i := y], sel) == First(s[i := z], sel)
  {
    var t := s[i := y];
    assert t[i := z] == s[i := z];
    FindUpdate(t, i, z, sel);
  }

  /** The rewrite of a list that has an output step. */
  lemma {:induction false} InteractivityEdits(d: seq<Step>)
    requires Has(d, OUT)
    ensures var u := d[Find(d, OUT) := Edited(ProbeEdit, d[Find(d, OUT)])];
      InteractivitySteps(d) == if Has(d, Checkout) then u else [BARE_CHECKOUT] + u
  {
    BareOut(d);
    if !Has(d, Checkout) { ConsUpdate(BARE_CHECKOUT, d, Find(d, OUT), Edited(ProbeEdit, d[Find(d, OUT)])); }
  }

  /** The rewrite of a list that has none. */
  lemma {:induction false} InteractivityAdds(d: seq<Step>)
    requires !Has(d, OUT)
    ensures var c := WithCheckout(d);
      InteractivitySteps(d) == Insert(c, if Has(c, Checkout) then Find(c, Checkout) + 1 else |c|, PROBE_STEP)
  {
    BareOut(d);
  }

  lemma EditedFirst(d: seq<Step>, sel: Selector)
    requires Has(d, OUT) && (sel.CategorySummary? || sel == Named(RerunMatrix))
    ensures First(d[Find(d, OUT) := Edited(ProbeEdit, d[Find(d, OUT)])], sel) == First(Renamed(d), sel)
  {
    var i := Find(d, OUT);
    var y, z := Edited(ProbeEdit, d[i]), d[i].(name := Some(RunInteractivityProbe));
    ProbeIsNoHint(y);
    ProbeIsNoHint(z);
    UpdateEither(d, i, y, z, sel);
  }

  lemma {:induction false} ProbeFirst(d: seq<Step>, sel: Selector)
    requires sel.CategorySummary? || sel == Named(RerunMatrix)
    ensures First(InteractivitySteps(d), sel) == First(Renamed(d), sel)
  {
    if Has(d, OUT) {
      InteractivityEdits(d);
      EditedFirst(d, sel);
      FirstCons(BARE_CHECKOUT, d[Find(d, OUT) := Edited(ProbeEdit, d[Find(d, OUT)])], sel);
    } else {
      var c := WithCheckout(d);
      InteractivityAdds(d);
      BareFirst(d, sel);
      FindInsert(c, if Has(c, Checkout) then Find(c, Checkout) + 1 else |c|, PROBE_STEP, sel);
    }
  }

  /** Renaming the output step takes the hint away only if it was the hint. */
  lemma RenamedHint(d: seq<Step>)
    requires RerunReady(d) && !OutIsHint(d)
    ensures RerunReady(Renamed(d))
  {
    if Has(d, OUT) {
      var i := Find(d, OUT);
      var z := d[i].(name := Some(RunInteractivityProbe));
      ProbeIsNoHint(z);
      KeepsEarlier(d, i, z, Named(RerunMatrix));
      LosesOnly(d, i, z, CategorySummary);
    }
  }

  lemma {:induction false} KeepsEarlier(s: seq<Step>, i: nat, z: Step, sel: Selector)
    requires i < |s| && i != Find(s, sel) && !Is(z, sel)
    ensures First(s[i := z], sel) == First(s, sel)
  {
    FindIs(s[i := z], sel, Find(s, sel));
  }

  lemma LosesOnly(s: seq<Step>, i: nat, z: Step, sel: Selector)
    requires i < |s| && !Is(z, sel)
    ensures Has(s[i := z], sel) ==> Has(s, sel)
  {
    if Has(s[i := z], sel) { HasAt(s, sel, Find(s[i := z], sel)); }
  }

  /** The next hint behind the renamed one is the same step before and after the rewrites. */
  lemma {:induction false} NextHint(s: seq<Step>, a: seq<Step>, i: nat, y: Step, z: Step)
    requires a == NormalizeHosted(s) && i < |s| && SameFace(y, z) && !Is(y, Named(RerunMatrix))
    ensures RerunReady(a[i := y]) == RerunReady(s[i := z])
  {
    var p, q := a[i := y], s[i := z];
    NormalizeFaces(s);
    assert SameFaces(p, q);
    FacesFind(p, q, CategorySummary);
    FacesFind(p, q, Named(RerunMatrix));
    if Has(p, Named(RerunMatrix)) {
      var m := Find(p, Named(RerunMatrix));
      assert p[m] == HostedNormal(s[m]) && q[m] == s[m];
    }
  }

  /** What becomes of a hint that was the output step. */
  lemma {:induction false} HintRenamed(s: seq<Step>)
    requires OutIsHint(s)
    ensures RerunReady(Renamed(RerunAfterSummarySteps(NormalizeHosted(s)))) == RerunReady(Renamed(s))
  {
    var a, i := NormalizeHosted(s), Find(s, OUT);
    var d := RerunAfterSummarySteps(a);
    NormalizeFaces(s);
    FacesFind(s, a, OUT);
    FacesFind(s, a, Named(RerunMatrix));
    HintFaces(a);
    FacesFind(a, d, OUT);
    var y, z := d[i].(name := Some(RunInteractivityProbe)), s[i].(name := Some(RunInteractivityProbe));
    assert SameFace(d[i], a[i]) && SameFace(a[i], s[i]);
    ProbeIsNoHint(y);
    HintAt(a, i);
    assert d[i := y] == a[i := y];
    NextHint(s, a, i, y, z);
  }

  lemma HintAt(a: seq<Step>, i: nat)
    requires i < |a| && i == Find(a, Named(RerunMatrix))
    ensures |RerunAfterSummarySteps(a)| == |a| && forall m | 0 <= m < |a| && m != i :: RerunAfterSummarySteps(a)[m] == a[m]
  {
  }

  /** The exact condition for the interactivity job, as written. */
  lemma {:induction false} WrittenProbeIff(pester: bool, s: seq<Step>)
    ensures Settles(CiOrchestrated, pester, "probe", s) <==>
            ProbeWritten(s) && AnchorsClear(CiOrchestrated, "probe", WithoutProbes(Renamed(s)))
  {
    var a := NormalizeHosted(s);
    var d, e, dir := RerunAfterSummarySteps(a), EarlySteps(CiOrchestrated, pester, "probe", s), ProbeDir("probe");
    BeforeProbe(CiOrchestrated, "probe", s);
    InteractivityWithout(CiOrchestrated, "probe", d);
    WireSame(e, dir);
    SameClear(CiOrchestrated, "probe", WithoutProbes(e), WireProbesSteps(e, dir));
    ProbeFirst(d, CategorySummary);
    ProbeFirst(d, Named(RerunMatrix));
    NormalizeNormal(s);
    RerunSettles(a);
    if OutIsHint(s) { HintRenamed(s); } else { RenamedHint(d); }
  }
}
