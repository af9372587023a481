/**
 The round trip: plan, apply, read back.  A run whose calls all go through verifies, and
 plans nothing the second time, exactly when the request was faithful.
 */
module MetadataVerify {
  import opened Options
  import opened Texts
  import opened SortedLists
  import opened MetadataModel
  import opened MetadataPlan
  import opened MetadataSurfaces
  import opened MetadataGoals
  import opened MetadataApply
  import opened MetadataOutcome

  function FullScript(before: Snapshot, d: Desired): seq<Mutation> {
    Progress(before, d, |SURFACES|, [])
  }

  /** A full run achieves every surface it acts on, planned or already as wanted, if the request is faithful. */
  lemma {:induction false} FullRunAchieves(w: World, st0: Store, before: Snapshot, d: Desired, s: Surface)
    requires Lawful(w) && Resolved(w, d) && Reads(w, st0, before) && Actionable(before, d, s)
    ensures Faithful(w, d, s) ==> Achieved(w, d, s, Run(w, FullScript(before, d), st0))
  {
    var st := Run(w, FullScript(before, d), st0);
    if IsPlanned(before, d, s) {
      FinishedHolds(w, st0, before, d, |SURFACES|, [], s);
    } else {
      UntouchedHolds(w, st0, before, d, |SURFACES|, [], s);
      ReadIff(w, d, s, st0, before);
      AchievedSame(w, d, s, st, st0);
    }
  }

  // ---------------------------------------------------------------- the projection, surface by surface

  lemma SortReviewers(w: World, rs: seq<Reviewer>)
    requires Total(w.le) && Ordered(w.le, ReviewerKeys(rs))
    ensures Sort(w.le, ReviewerKey, rs) == rs
  {
    SortSorted(w.le, ReviewerKey, rs);
  }

  lemma SortEntities(w: World, es: seq<Entity>)
    requires Total(w.le) && Ordered(w.le, Urls(es))
    ensures Sort(w.le, UrlOf, es) == es
  {
    SortSorted(w.le, UrlOf, es);
  }

  lemma PlanHolds(before: Snapshot, d: Desired, op: Operation)
    ensures op in Plan(before, d) <==> op == PlanSurface(before, d, op.surface)
  {
    var ops := Plan(before, d);
    assert ops[Index(op.surface)] == PlanSurface(before, d, op.surface);
  }

  lemma SuccessfulIff(before: Snapshot, d: Desired, s: Surface)
    ensures SuccessfulSurface(Plan(before, d), s) <==> Succeeds(PlanSurface(before, d, s))
    ensures Checked(Plan(before, d), s) <==> Requested(d, s) && Applicable(before, s)
  {
    var op := PlanSurface(before, d, s);
    PlanHolds(before, d, op);
    forall x | x in Plan(before, d) && x.surface == s ensures x == op { PlanHolds(before, d, x); }
    assert op.requested == Requested(d, s);
    assert op.requested ==> op.applicable == Applicable(before, s);
  }

  /** One projection step sets its own surface, as wanted when the operation succeeds, and no other. */
  lemma {:induction false} ProjectStep(w: World, before: Snapshot, snap: Snapshot, d: Desired, own: Surface, s: Surface)
    requires Lawful(w) && Resolved(w, d) && snap.contentType == before.contentType
    ensures var p := ProjectSurface(w.le, snap, d, Plan(before, d), own);
      && p.contentType == snap.contentType
      && SameSurface(p, if own == s && Actionable(before, d, s) then WithWanted(before, d, s) else snap, s)
  {
    SuccessfulIff(before, d, own);
    if own.Reviewers? && d.reviewers.Wanted? { SortReviewers(w, d.reviewers.value); }
    if own.SubIssues? && d.subIssues.Wanted? { SortEntities(w, d.subIssues.value); }
  }

  lemma {:induction false} ProjectFromAt(w: World, before: Snapshot, snap: Snapshot, d: Desired, k: nat, s: Surface)
    requires Lawful(w) && Resolved(w, d) && snap.contentType == before.contentType && k <= |SURFACES|
    requires Ordered(w.le, ReviewerKeys(snap.reviewers)) && Ordered(w.le, Urls(snap.subIssues))
    ensures SameSurface(ProjectFrom(w.le, snap, d, Plan(before, d), k),
                        if k <= Index(s) && Actionable(before, d, s) then WithWanted(before, d, s) else snap, s)
    decreases |SURFACES| - k
  {
    if k < |SURFACES| {
      var ops := Plan(before, d);
      var p := ProjectSurface(w.le, snap, d, ops, SURFACES[k]);
      ProjectStep(w, before, snap, d, SURFACES[k], s);
      ProjectOrdered(w, before, snap, d, SURFACES[k]);
      ProjectFromAt(w, before, p, d, k + 1, s);
      var last := ProjectFrom(w.le, p, d, ops, k + 1);
      if k >= Index(s) {
        SameTrans(last, p, if k == Index(s) && Actionable(before, d, s) then WithWanted(before, d, s) else snap, s);
      } else if !Actionable(before, d, s) {
        SameTrans(last, p, snap, s);
      }
    }
  }

  lemma {:induction false} ProjectOrdered(w: World, before: Snapshot, snap: Snapshot, d: Desired, own: Surface)
    requires Lawful(w) && Resolved(w, d) && snap.contentType == before.contentType
    requires Ordered(w.le, ReviewerKeys(snap.reviewers)) && Ordered(w.le, Urls(snap.subIssues))
    ensures var p := ProjectSurface(w.le, snap, d, Plan(before, d), own);
      Ordered(w.le, ReviewerKeys(p.reviewers)) && Ordered(w.le, Urls(p.subIssues))
  {
    if own.Reviewers? && d.reviewers.Wanted? { SortReviewers(w, d.reviewers.value); }
    if own.SubIssues? && d.subIssues.Wanted? { SortEntities(w, d.subIssues.value); }
  }

  /** The projection is the wanted value on the surfaces acted on, and the snapshot elsewhere. */
  lemma {:induction false} ProjectAt(w: World, st0: Store, before: Snapshot, d: Desired, s: Surface)
    requires Lawful(w) && Resolved(w, d) && Reads(w, st0, before)
    ensures SameSurface(Project(w.le, before, d, Plan(before, d)),
                        if Actionable(before, d, s) then WithWanted(before, d, s) else before, s)
  {
    assert Ordered(w.le, ReviewerKeys(before.reviewers)) && Ordered(w.le, Urls(before.subIssues));
    SortReviewers(w, before.reviewers);
    SortEntities(w, before.subIssues);
    ProjectFromAt(w, before, before, d, 0, s);
  }

  /** Two reads of one store agree on every compared key. */
  lemma {:induction false} ReadsSame(w: World, a: Store, b: Store, x: Snapshot, y: Snapshot, s: Surface)
    requires Lawful(w) && Reads(w, a, x) && Reads(w, b, y) && SameValue(w, a, b, s)
    ensures SameSurface(x, y, s)
  {
    match s {
      case Assignees => OrderedUnique(w.le, x.assignees, y.assignees);
      case Reviewers =>
        if w.contentType.PullRequest? { OrderedUnique(w.le, ReviewerKeys(x.reviewers), ReviewerKeys(y.reviewers)); }
      case SubIssues =>
        if w.contentType.Issue? {
          ReadsChildren(w, a, x);
          ReadsChildren(w, b, y);
          forall u ensures u in Urls(x.subIssues) <==> u in Urls(y.subIssues) {
            assert Ids(x.subIssues) == Children(w, a) && Ids(y.subIssues) == Children(w, b);
            SameUrls(w, x.subIssues, y.subIssues, u);
            SameUrls(w, y.subIssues, x.subIssues, u);
          }
          OrderedUnique(w.le, Urls(x.subIssues), Urls(y.subIssues));
        }
      case _ =>
    }
  }

  // ---------------------------------------------------------------- main results

  /** On a surface that was acted on, the read-back agrees with the request exactly when it is faithful. */
  lemma {:induction false} ReadBackIff(w: World, st0: Store, before: Snapshot, d: Desired, after: Snapshot, s: Surface)
    requires Lawful(w) && Resolved(w, d) && Reads(w, st0, before) && Actionable(before, d, s)
    requires Reads(w, Run(w, FullScript(before, d), st0), after)
    ensures SameSurface(WithWanted(after, d, s), after, s) <==> Faithful(w, d, s)
  {
    FullRunAchieves(w, st0, before, d, s);
    assert Actionable(after, d, s);
    ReadIff(w, d, s, Run(w, FullScript(before, d), st0), after);
  }

  lemma WantedSame(a: Snapshot, b: Snapshot, d: Desired, s: Surface)
    requires Requested(d, s)
    ensures SameSurface(WithWanted(a, d, s), b, s) == SameSurface(WithWanted(b, d, s), b, s)
  {
  }

  lemma SameTrans(a: Snapshot, b: Snapshot, c: Snapshot, s: Surface)
    requires SameSurface(a, b, s)
    ensures SameSurface(a, c, s) == SameSurface(b, c, s)
  {
  }

  /**
   Apply refines projection: after a run in which every call went through, what is read
   back is the projected snapshot on every requested surface, exactly when the request is
   faithful on the surfaces it acted on.
   */
  lemma {:induction false} ApplyRefinesProjection(w: World, st0: Store, before: Snapshot, d: Desired, after: Snapshot)
    requires Lawful(w) && Resolved(w, d) && Reads(w, st0, before)
    requires Reads(w, Run(w, FullScript(before, d), st0), after)
    ensures Verified(Project(w.le, before, d, Plan(before, d)), after, Plan(before, d)) <==>
            forall s | Actionable(before, d, s) :: Faithful(w, d, s)
  {
    var ops, st := Plan(before, d), Run(w, FullScript(before, d), st0);
    var expected := Project(w.le, before, d, ops);
    forall s | Checked(ops, s)
      ensures SameSurface(expected, after, s) <==> (Actionable(before, d, s) ==> Faithful(w, d, s))
    {
      SuccessfulIff(before, d, s);
      ProjectAt(w, st0, before, d, s);
      if Actionable(before, d, s) {
        SameTrans(expected, WithWanted(before, d, s), after, s);
        WantedSame(before, after, d, s);
        ReadBackIff(w, st0, before, d, after, s);
      } else {
        UntouchedHolds(w, st0, before, d, |SURFACES|, [], s);
        ReadsSame(w, st, st0, after, before, s);
      }
    }
    forall s | Actionable(before, d, s) ensures Checked(ops, s) { SuccessfulIff(before, d, s); }
  }

  /**
   Planning again after such a run finds nothing left to do, exactly when the request is
   faithful; what was failed or unsupported stays so, and nothing else does.
   */
  lemma {:induction false} ReplanIff(w: World, st0: Store, before: Snapshot, d: Desired, after: Snapshot)
    requires Lawful(w) && Resolved(w, d) && Reads(w, st0, before)
    requires Reads(w, Run(w, FullScript(before, d), st0), after)
    ensures (forall s :: !IsPlanned(after, d, s)) <==> forall s | Actionable(before, d, s) :: Faithful(w, d, s)
    ensures forall s :: PlanSurface(after, d, s).status.Failed? <==> PlanSurface(before, d, s).status.Failed?
    ensures forall s :: PlanSurface(after, d, s).status.Unsupported? <==> PlanSurface(before, d, s).status.Unsupported?
  {
    forall s
      ensures PlanSurface(after, d, s).status.Failed? <==> PlanSurface(before, d, s).status.Failed?
      ensures PlanSurface(after, d, s).status.Unsupported? <==> PlanSurface(before, d, s).status.Unsupported?
      ensures IsPlanned(after, d, s) <==> Actionable(before, d, s) && !Faithful(w, d, s)
    {
      ReplanSurface(w, st0, before, d, after, s);
    }
  }

  lemma StatusIff(snap: Snapshot, d: Desired, s: Surface)
    ensures PlanSurface(snap, d, s).status.Failed? <==> Requested(d, s) && Applicable(snap, s) && Reflexive(snap, d, s)
    ensures PlanSurface(snap, d, s).status.Unsupported? <==> Requested(d, s) && !Applicable(snap, s)
    ensures IsPlanned(snap, d, s) <==> Actionable(snap, d, s) && !SameSurface(snap, WithWanted(snap, d, s), s)
  {
  }

  lemma {:induction false} ReplanSurface(w: World, st0: Store, before: Snapshot, d: Desired, after: Snapshot, s: Surface)
    requires Lawful(w) && Resolved(w, d) && Reads(w, st0, before)
    requires Reads(w, Run(w, FullScript(before, d), st0), after)
    ensures PlanSurface(after, d, s).status.Failed? <==> PlanSurface(before, d, s).status.Failed?
    ensures PlanSurface(after, d, s).status.Unsupported? <==> PlanSurface(before, d, s).status.Unsupported?
    ensures IsPlanned(after, d, s) <==> Actionable(before, d, s) && !Faithful(w, d, s)
  {
    StatusIff(before, d, s);
    StatusIff(after, d, s);
    if Actionable(before, d, s) {
      ReadBackIff(w, st0, before, d, after, s);
      SameSym(WithWanted(after, d, s), after, s);
    }
  }

  lemma SameSym(a: Snapshot, b: Snapshot, s: Surface)
    ensures SameSurface(a, b, s) == SameSurface(b, a, s)
  {
  }

  /** A planned reviewers operation always has a call to make; a planned sub-issues one may not. */
  lemma {:induction false} PlannedActs(w: World, st0: Store, before: Snapshot, d: Desired, s: Surface)
    requires Lawful(w) && Resolved(w, d) && Reads(w, st0, before) && IsPlanned(before, d, s)
    ensures PlanSurface(before, d, s).actions == [] <==>
            s.SubIssues? && Members(Urls(before.subIssues)) == Members(Urls(d.subIssues.value)) && !Distinct(Urls(d.subIssues.value))
  {
    PlannedActionable(before, d, s);
    match s {
      case Reviewers => NoDifferenceIff(w.le, before.reviewers, d.reviewers.value, ReviewerKey);
      case SubIssues => SubIssuesAct(w, before, d);
      case _ =>
    }
  }

  lemma SubIssuesAct(w: World, before: Snapshot, d: Desired)
    requires Lawful(w) && d.subIssues.Wanted? && Listed(w.le, Urls(before.subIssues)) && Ordered(w.le, Urls(d.subIssues.value))
    requires Urls(before.subIssues) != Urls(d.subIssues.value)
    ensures PlannedCalls(before, d, SubIssues) == [] <==>
            Members(Urls(before.subIssues)) == Members(Urls(d.subIssues.value)) && !Distinct(Urls(d.subIssues.value))
  {
    var left, right := before.subIssues, d.subIssues.value;
    var diff := ArrayDifference(left, right, UrlOf);
    DifferenceKeys(left, right, UrlOf);
    EmptyIff(Urls(diff.add));
    EmptyIff(Urls(diff.remove));
    assert PlannedCalls(before, d, SubIssues) == [] <==> diff.add == [] && diff.remove == [];
    assert diff.add == [] && diff.remove == [] <==> Members(Urls(left)) == Members(Urls(right)) by {
      assert diff.add == [] <==> Urls(diff.add) == [];
      assert diff.remove == [] <==> Urls(diff.remove) == [];
      assert forall u :: u in Members(Urls(left)) <==> u in Urls(left);
      assert forall u :: u in Members(Urls(right)) <==> u in Urls(right);
    }
    if Members(Urls(left)) == Members(Urls(right)) && Distinct(Urls(right)) {
      NoDifferenceIff(w.le, left, right, UrlOf);
    }
  }

  /** Two urls that lead to one sub-issue, already attached: planned, with nothing to do, for ever. */
  lemma {:induction false} SameIssueTwice(w: World, before: Snapshot, d: Desired, e: Entity)
    requires Lawful(w) && before.contentType.Issue? && before.id != e.id && before.subIssues == [e]
    requires d.subIssues == Wanted([e, e])
    ensures IsPlanned(before, d, SubIssues) && PlanSurface(before, d, SubIssues).actions == []
  {
    assert Urls([e, e])[0] == Urls([e, e])[1];
    assert |Urls(before.subIssues)| == 1 && |Urls(d.subIssues.value)| == 2;
    assert w.le(e.url, e.url);
    assert Urls([e]) == [e.url] && Urls([e, e]) == [e.url, e.url];
    SubIssuesAct(w, before, d);
  }
}
