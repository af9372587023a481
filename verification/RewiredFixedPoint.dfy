/**
 When a second run over a rewired job changes nothing: the exact condition, read off the
 step list the early rewrites leave.
 */
module RewiredFixedPoint {
  import opened Options
  import opened Texts
  import opened WorkflowVocabulary
  import opened StepLists
  import opened WorkflowStages
  import opened StepFacts
  import opened StageReadiness
  import opened RewiredJobs

  /** The first step of `anchor` is the first checkout. */
  predicate OnCheckout(s: seq<Step>, anchor: Selector) {
    Find(s, anchor) == Find(s, Checkout)
  }

  /**
   No step that is still to be inserted after an anchor has the first checkout for its
   anchor: it would land between the checkout and J1.
   */
  predicate AnchorsClear(f: File, n: string, s: seq<Step>) {
    f.CiOrchestrated? && Has(s, Checkout) ==>
      && (n == "drift" ==> Has(s, Named(WireC2)) || !OnCheckout(s, DetectsDrift))
      && (Has(s, Named(WireInvokerStop)) || !OnCheckout(s, Named(EnsureInvokerStop)))
      && (Has(s, Named(WireGuardPost)) || !OnCheckout(s, Named(UnblockGuard)))
      && (Has(s, Named(WireP1)) ||
          (!OnCheckout(s, Named(AppendFinalSummary)) &&
           (Has(s, Named(AppendFinalSummary)) || !OnCheckout(s, Named(SummarizeOrchestrated)))))
  }

  // ---------------------------------------------------------------- AnchorsClear is Clear along the run

  lemma {:induction false} BeforeClear(s: seq<Step>, ps: seq<Placement>)
    requires forall p | p in ps :: p.side.Before?
    ensures Clear(s, ps)
    decreases ps
  {
    if ps != [] { BeforeClear(Place(s, ps[0]), ps[1..]); }
  }

  lemma {:induction false} ClearConcat(s: seq<Step>, ps: seq<Placement>, qs: seq<Placement>)
    ensures Clear(s, ps + qs) == (Clear(s, ps) && Clear(PlaceAll(s, ps), qs))
    decreases ps
  {
    if ps == [] {
      assert ps + qs == qs;
    } else {
      assert (ps + qs)[1..] == ps[1..] + qs;
      ClearConcat(Place(s, ps[0]), ps[1..], qs);
    }
  }

  lemma {:induction false} InsertOnCheckout(s: seq<Step>, k: nat, x: Step, sel: Selector)
    requires k <= |s| && Has(s, Checkout) && !Is(x, sel) && !Is(x, Checkout)
    ensures Has(Insert(s, k, x), Checkout) && OnCheckout(Insert(s, k, x), sel) == OnCheckout(s, sel)
  {
    FindInsert(s, k, x, sel);
    FindInsert(s, k, x, Checkout);
  }

  lemma {:induction false} PlaceAllOnCheckout(s: seq<Step>, ps: seq<Placement>, sel: Selector)
    requires Inert(ps, sel) && Inert(ps, Checkout) && Has(s, Checkout)
    ensures Has(PlaceAll(s, ps), Checkout) && OnCheckout(PlaceAll(s, ps), sel) == OnCheckout(s, sel)
    decreases ps
  {
    if ps != [] {
      if !Rests(s, ps[0]) { InsertOnCheckout(s, Spot(s, ps[0]), ps[0].step, sel); }
      PlaceAllOnCheckout(Place(s, ps[0]), ps[1..], sel);
    }
  }

  /** An after-placement blocks exactly when its guard is missing and it anchors on the checkout. */
  lemma ClearOne(s: seq<Step>, p: Placement)
    requires Has(s, Checkout) && p.side.After?
    ensures Clear(s, [p]) == (Has(s, p.guard) || !OnCheckout(s, p.anchor))
  {
  }

  lemma {:induction false} ClearPair(s: seq<Step>, p: Placement, q: Placement)
    requires Has(s, Checkout) && p.side.Before? && q.side.After? && GoodPlacement(p) && GoodPlacement(q)
    requires !Is(p.step, q.guard)
    ensures Clear(s, [p, q]) == (Has(s, q.guard) || !OnCheckout(s, q.anchor))
  {
    assert [p, q] == [p] + [q];
    ClearConcat(s, [p], [q]);
    BeforeClear(s, [p]);
    var t := PlaceAll(s, [p]);
    GoodIsSafe([p], DefaultResults);
    WireStepUnseen(p.step, q.anchor);
    WireStepUnseen(p.step, Checkout);
    PlaceAllInert(s, [p], q.guard);
    PlaceAllOnCheckout(s, [p], q.anchor);
    ClearOne(t, q);
  }

  lemma ClearInvoker(s: seq<Step>)
    requires Has(s, Checkout)
    ensures Clear(s, InvokerPlacements()) == (Has(s, Named(WireInvokerStop)) || !OnCheckout(s, Named(EnsureInvokerStop)))
  {
    GoodInvoker();
    ClearPair(s, InvokerPlacements()[0], InvokerPlacements()[1]);
  }

  lemma ClearGuard(s: seq<Step>)
    requires Has(s, Checkout)
    ensures Clear(s, GuardPlacements()) == (Has(s, Named(WireGuardPost)) || !OnCheckout(s, Named(UnblockGuard)))
  {
    GoodGuards();
    ClearPair(s, GuardPlacements()[0], GuardPlacements()[1]);
  }

  lemma ClearDrift(s: seq<Step>)
    requires Has(s, Checkout)
    ensures Clear(s, DriftProbePlacements()) == (Has(s, Named(WireC2)) || !OnCheckout(s, DetectsDrift))
  {
    GoodDriftProbes();
    ClearPair(s, DriftProbePlacements()[0], DriftProbePlacements()[1]);
  }

  lemma {:induction false} ClearFinal(s: seq<Step>)
    requires Has(s, Checkout)
    ensures Clear(s, FinalPlacements()) ==
            (Has(s, Named(WireP1)) ||
             (!OnCheckout(s, Named(AppendFinalSummary)) &&
              (Has(s, Named(AppendFinalSummary)) || !OnCheckout(s, Named(SummarizeOrchestrated)))))
  {
    var p, q := FinalPlacements()[0], FinalPlacements()[1];
    assert FinalPlacements() == [p] + [q];
    ClearConcat(s, [p], [q]);
    ClearOne(s, p);
    assert PlaceAll(s, [p]) == Place(s, p);
    GoodFinal();
    if Rests(s, p) {
      ClearOne(s, q);
    } else {
      HasInsert(s, Spot(s, p), p.step, q.guard);
      assert Rests(Place(s, p), q);
    }
  }

  /** A group of placements does not change whether a later one is blocked. */
  lemma GroupKeeps(s: seq<Step>, ps: seq<Placement>, guard: Selector, anchor: Selector)
    requires GoodPlacements(ps) && Has(s, Checkout) && WireProof(anchor) && Inert(ps, guard)
    ensures Has(PlaceAll(s, ps), Checkout)
    ensures Has(PlaceAll(s, ps), guard) == Has(s, guard)
    ensures OnCheckout(PlaceAll(s, ps), anchor) == OnCheckout(s, anchor)
    ensures Has(PlaceAll(s, ps), anchor) == Has(s, anchor)
  {
    GoodIsSafe(ps, DefaultResults);
    PlaceAllOnCheckout(s, ps, anchor);
    PlaceAllInert(s, ps, guard);
    PlaceAllInert(s, ps, anchor);
  }

  predicate FinalClear(s: seq<Step>) {
    Has(s, Named(WireP1)) ||
    (!OnCheckout(s, Named(AppendFinalSummary)) &&
     (Has(s, Named(AppendFinalSummary)) || !OnCheckout(s, Named(SummarizeOrchestrated))))
  }

  predicate GuardClear(s: seq<Step>) {
    Has(s, Named(WireGuardPost)) || !OnCheckout(s, Named(UnblockGuard))
  }

  predicate InvokerClear(s: seq<Step>) {
    Has(s, Named(WireInvokerStop)) || !OnCheckout(s, Named(EnsureInvokerStop))
  }

  lemma {:induction false} GroupKeepsFinal(s: seq<Step>, ps: seq<Placement>)
    requires GoodPlacements(ps) && Has(s, Checkout) && Inert(ps, Named(WireP1))
    ensures Has(PlaceAll(s, ps), Checkout) && FinalClear(PlaceAll(s, ps)) == FinalClear(s)
  {
    GroupKeeps(s, ps, Named(WireP1), Named(AppendFinalSummary));
    GroupKeeps(s, ps, Named(WireP1), Named(SummarizeOrchestrated));
  }

  lemma GroupKeepsTail(s: seq<Step>, ps: seq<Placement>)
    requires GoodPlacements(ps) && Has(s, Checkout) && Inert(ps, Named(WireP1)) && Inert(ps, Named(WireGuardPost))
    ensures Has(PlaceAll(s, ps), Checkout)
    ensures FinalClear(PlaceAll(s, ps)) == FinalClear(s) && GuardClear(PlaceAll(s, ps)) == GuardClear(s)
  {
    GroupKeeps(s, ps, Named(WireGuardPost), Named(UnblockGuard));
    GroupKeepsFinal(s, ps);
  }

  lemma ClearTail(s: seq<Step>)
    requires Has(s, Checkout)
    ensures Clear(s, GuardPlacements() + FinalPlacements()) == (GuardClear(s) && FinalClear(s))
  {
    ClearConcat(s, GuardPlacements(), FinalPlacements());
    ClearGuard(s);
    GoodGuards();
    GroupKeepsFinal(s, GuardPlacements());
    ClearFinal(PlaceAll(s, GuardPlacements()));
  }

  lemma InvokerInert()
    ensures GoodPlacements(InvokerPlacements())
    ensures Inert(InvokerPlacements(), Named(WireP1)) && Inert(InvokerPlacements(), Named(WireGuardPost))
  {
    GoodInvoker();
  }

  lemma {:induction false} DriftInert()
    ensures GoodPlacements(DriftProbePlacements())
    ensures Inert(DriftProbePlacements(), Named(WireP1)) && Inert(DriftProbePlacements(), Named(WireGuardPost))
    ensures Inert(DriftProbePlacements(), Named(WireInvokerStop))
  {
    GoodDriftProbes();
  }

  lemma ClearBeforeTail(s: seq<Step>, ps: seq<Placement>)
    requires Has(s, Checkout) && GoodPlacements(ps) && Inert(ps, Named(WireP1)) && Inert(ps, Named(WireGuardPost))
    ensures Clear(s, ps + (GuardPlacements() + FinalPlacements())) == (Clear(s, ps) && GuardClear(s) && FinalClear(s))
  {
    ClearConcat(s, ps, GuardPlacements() + FinalPlacements());
    GroupKeepsTail(s, ps);
    ClearTail(PlaceAll(s, ps));
  }

  lemma ClearInvokerTail(s: seq<Step>)
    requires Has(s, Checkout)
    ensures Clear(s, InvokerPlacements() + (GuardPlacements() + FinalPlacements())) ==
            (InvokerClear(s) && GuardClear(s) && FinalClear(s))
  {
    InvokerInert();
    ClearBeforeTail(s, InvokerPlacements());
    ClearInvoker(s);
  }

  lemma {:induction false} ClearBeforeInvoker(s: seq<Step>, ps: seq<Placement>)
    requires Has(s, Checkout) && GoodPlacements(ps)
    requires Inert(ps, Named(WireP1)) && Inert(ps, Named(WireGuardPost)) && Inert(ps, Named(WireInvokerStop))
    ensures Clear(s, ps + (InvokerPlacements() + (GuardPlacements() + FinalPlacements()))) ==
            (Clear(s, ps) && InvokerClear(s) && GuardClear(s) && FinalClear(s))
  {
    ClearConcat(s, ps, InvokerPlacements() + (GuardPlacements() + FinalPlacements()));
    GroupKeepsTail(s, ps);
    GroupKeeps(s, ps, Named(WireInvokerStop), Named(EnsureInvokerStop));
    ClearInvokerTail(PlaceAll(s, ps));
  }

  lemma ClearDriftTail(s: seq<Step>)
    requires Has(s, Checkout)
    ensures Clear(s, AfterTests("drift")) == AnchorsClear(CiOrchestrated, "drift", s)
  {
    DriftInert();
    ClearBeforeInvoker(s, DriftProbePlacements());
    ClearDrift(s);
  }

  lemma {:induction false} ClearAfterTests(n: string, s: seq<Step>)
    requires Has(s, Checkout)
    ensures Clear(s, AfterTests(n)) == AnchorsClear(CiOrchestrated, n, s)
  {
    if n == "drift" {
      ClearDriftTail(s);
    } else {
      ClearInvokerTail(s);
      assert AfterTests(n) == InvokerPlacements() + (GuardPlacements() + FinalPlacements());
    }
  }

  lemma {:induction false} FrontKeepsClear(n: string, s: seq<Step>, ps: seq<Placement>)
    requires GoodPlacements(ps) && Has(s, Checkout)
    requires Inert(ps, Named(WireP1)) && Inert(ps, Named(WireGuardPost)) && Inert(ps, Named(WireInvokerStop)) && Inert(ps, Named(WireC2))
    ensures Has(PlaceAll(s, ps), Checkout)
    ensures AnchorsClear(CiOrchestrated, n, PlaceAll(s, ps)) == AnchorsClear(CiOrchestrated, n, s)
  {
    GroupKeeps(s, ps, Named(WireC2), DetectsDrift);
    GroupKeeps(s, ps, Named(WireInvokerStop), Named(EnsureInvokerStop));
    GroupKeeps(s, ps, Named(WireGuardPost), Named(UnblockGuard));
    GroupKeepsFinal(s, ps);
  }

  lemma ClearNoCheckout(s: seq<Step>, ps: seq<Placement>)
    requires !Has(s, Checkout) && Inert(ps, Checkout)
    ensures Clear(s, ps)
    decreases ps
  {
    if ps != [] {
      if !Rests(s, ps[0]) { FindInsert(s, Spot(s, ps[0]), ps[0].step, Checkout); }
      ClearNoCheckout(Place(s, ps[0]), ps[1..]);
    }
  }

  predicate Front(ps: seq<Placement>) {
    && GoodPlacements(ps) && (forall p | p in ps :: p.side.Before?)
    && Inert(ps, Named(WireP1)) && Inert(ps, Named(WireGuardPost)) && Inert(ps, Named(WireInvokerStop)) && Inert(ps, Named(WireC2))
  }

  lemma {:induction false} FrontOf(ps: seq<Placement>, n: Name)
    requires GoodPlacements(ps) && forall p | p in ps :: p.side.Before? && p.step.Step? && p.step.name == Some(n)
    requires !n.WireP1? && !n.WireGuardPost? && !n.WireInvokerStop? && !n.WireC2?
    ensures Front(ps)
  {
  }

  lemma {:induction false} SessionIndexFront(dir: Value)
    ensures Front(SessionIndexPlacements(dir))
  {
    GoodSessionIndex(dir);
    FrontOf(SessionIndexPlacements(dir), WireSession);
  }

  lemma TestProbeFront(dir: Value)
    ensures Front(TestProbePlacements(dir))
  {
    GoodTestProbe(dir);
    FrontOf(TestProbePlacements(dir), WireT1);
  }

  /** Before-placements in front of others do not decide whether those are blocked. */
  lemma ClearFront(n: string, s: seq<Step>, ps: seq<Placement>, qs: seq<Placement>)
    requires Front(ps) && Has(s, Checkout)
    ensures Has(PlaceAll(s, ps), Checkout) && Clear(s, ps + qs) == Clear(PlaceAll(s, ps), qs)
    ensures AnchorsClear(CiOrchestrated, n, PlaceAll(s, ps)) == AnchorsClear(CiOrchestrated, n, s)
  {
    ClearConcat(s, ps, qs);
    BeforeClear(s, ps);
    FrontKeepsClear(n, s, ps);
  }

  lemma ClearOrchestrated(n: string, s: seq<Step>)
    requires Has(s, Checkout)
    ensures Clear(s, LatePlacements(CiOrchestrated, n)) == AnchorsClear(CiOrchestrated, n, s)
  {
    var si, tp := SessionIndexPlacements(ProbeDir(n)), TestProbePlacements(TestDir(n));
    SessionIndexFront(ProbeDir(n));
    TestProbeFront(TestDir(n));
    ClearFront(n, s, si, tp + AfterTests(n));
    ClearFront(n, PlaceAll(s, si), tp, AfterTests(n));
    ClearAfterTests(n, PlaceAll(PlaceAll(s, si), tp));
  }

  lemma {:induction false} ClearIff(f: File, n: string, s: seq<Step>)
    requires Rewires(f)
    ensures Clear(s, LatePlacements(f, n)) == AnchorsClear(f, n, s)
  {
    if !Has(s, Checkout) {
      LateGood(f, n);
      GoodIsSafe(LatePlacements(f, n), ProbeDir(n));
      ClearNoCheckout(s, LatePlacements(f, n));
    } else if f.Validate? {
      BeforeClear(s, SessionIndexPlacements(ProbeDir(n)));
    } else {
      ClearOrchestrated(n, s);
    }
  }
}
