/**
 What applying a plan comes to: the projected state when every call goes through, and a
 clean cut between finished and untouched surfaces when one does not.
 */
module MetadataOutcome {
  import opened Options
  import opened Texts
  import opened SortedLists
  import opened MetadataModel
  import opened MetadataPlan
  import opened MetadataSurfaces
  import opened MetadataGoals
  import opened MetadataApply

  function Index(s: Surface): (i: nat)
    ensures i < |SURFACES| && SURFACES[i] == s
  {
    match s
    case IssueTypes => 0
    case Milestones => 1
    case Assignees => 2
    case Reviewers => 3
    case ParentIssue => 4
    case SubIssues => 5
  }

  lemma SurfaceAt(i: nat)
    requires i < |SURFACES|
    ensures Index(SURFACES[i]) == i
  {
  }

  predicate IsPlanned(before: Snapshot, d: Desired, s: Surface) {
    PlanSurface(before, d, s).status.Planned?
  }

  lemma PlanSendable(before: Snapshot, d: Desired)
    ensures Sendable(d, Plan(before, d))
    ensures forall k | 0 <= k <= |SURFACES| :: Sendable(d, Plan(before, d)[..k])
  {
  }

  /** The planned calls of a surface belong to that surface. */
  lemma {:induction false} CallsBelong(w: World, st: Store, before: Snapshot, d: Desired, s: Surface)
    requires Reads(w, st, before) && Actionable(before, d, s)
    ensures forall m | m in PlannedCalls(before, d, s) :: SurfaceOf(w, m) == s
  {
    if s.SubIssues? { SubIssueCallsBelong(w, st, before, d); }
  }

  lemma {:induction false} SubIssueCallsBelong(w: World, st: Store, before: Snapshot, d: Desired)
    requires Reads(w, st, before) && Actionable(before, d, SubIssues)
    ensures forall m | m in PlannedCalls(before, d, SubIssues) :: SurfaceOf(w, m) == SubIssues
  {
    var diff := ArrayDifference(before.subIssues, d.subIssues.value, UrlOf);
    DifferenceKeys(before.subIssues, d.subIssues.value, UrlOf);
    ReadsChildren(w, st, before);
    forall e | e in diff.remove ensures e.id != w.target {
      assert ListsId(before.subIssues, e.id);
      ChildIff(w, st, e.id);
    }
    forall e | e in diff.add ensures e.id != w.target { assert e in d.subIssues.value; }
    ListedCallsBelong(w, diff.remove, diff.add);
  }

  lemma ListedCallsBelong(w: World, remove: seq<Entity>, add: seq<Entity>)
    requires (forall e | e in remove :: e.id != w.target) && (forall e | e in add :: e.id != w.target)
    ensures forall m | m in Detach(w.target, remove) + Attach(w.target, add) :: SurfaceOf(w, m) == SubIssues
  {
  }

  lemma PlannedActionable(before: Snapshot, d: Desired, s: Surface)
    requires IsPlanned(before, d, s)
    ensures Actionable(before, d, s)
  {
  }

  lemma {:induction false} CallsElsewhere(w: World, st0: Store, before: Snapshot, d: Desired, k: nat, s: Surface)
    requires Reads(w, st0, before) && k < |SURFACES| && SURFACES[k] != s
    ensures forall m | m in CallsOf(before, d, Plan(before, d)[k]) :: SurfaceOf(w, m) != s
  {
    if IsPlanned(before, d, SURFACES[k]) {
      PlannedActionable(before, d, SURFACES[k]);
      CallsBelong(w, st0, before, d, SURFACES[k]);
    }
  }

  /** The calls of a stretch of the plan that does not hold a surface leave that surface alone. */
  lemma {:induction false} ScriptElsewhere(w: World, st0: Store, before: Snapshot, d: Desired, k: nat, s: Surface)
    requires Reads(w, st0, before) && k <= Index(s)
    ensures Sendable(d, Plan(before, d)[..k])
    ensures forall m | m in Script(before, d, Plan(before, d)[..k]) :: SurfaceOf(w, m) != s
    decreases k
  {
    var ops := Plan(before, d);
    PlanSendable(before, d);
    if k > 0 {
      ScriptElsewhere(w, st0, before, d, k - 1, s);
      ScriptSnoc(before, d, ops, k - 1);
      SurfaceAt(k - 1);
      CallsElsewhere(w, st0, before, d, k - 1, s);
    }
  }

  /** The calls of the plan's first `k` operations, together with a partial run `some` of the next one. */
  function Progress(before: Snapshot, d: Desired, k: nat, some: seq<Mutation>): seq<Mutation>
    requires k <= |SURFACES|
  {
    PlanSendable(before, d);
    Script(before, d, Plan(before, d)[..k]) + some
  }

  /** `some` is the part of operation `k` that got through. */
  predicate PartOf(before: Snapshot, d: Desired, k: nat, some: seq<Mutation>)
    requires k <= |SURFACES|
  {
    if k < |SURFACES| && IsPlanned(before, d, SURFACES[k])
    then some <= PlannedCalls(before, d, SURFACES[k])
    else some == []
  }

  lemma {:induction false} PartBelongs(w: World, st0: Store, before: Snapshot, d: Desired, k: nat, some: seq<Mutation>, s: Surface)
    requires Reads(w, st0, before) && k <= |SURFACES| && PartOf(before, d, k, some)
    requires k == |SURFACES| || SURFACES[k] != s
    ensures forall m | m in some :: SurfaceOf(w, m) != s
  {
    if k < |SURFACES| && IsPlanned(before, d, SURFACES[k]) {
      PlannedActionable(before, d, SURFACES[k]);
      CallsBelong(w, st0, before, d, SURFACES[k]);
    }
  }

  lemma SameValueTrans(w: World, a: Store, b: Store, c: Store, s: Surface)
    requires SameValue(w, a, b, s) && SameValue(w, b, c, s)
    ensures SameValue(w, a, c, s)
  {
  }

  /** The store after the plan's first `k` operations. */
  function AfterOps(w: World, st0: Store, before: Snapshot, d: Desired, k: nat): Store
    requires k <= |SURFACES|
  {
    PlanSendable(before, d);
    if k == 0 then st0 else Run(w, CallsOf(before, d, Plan(before, d)[k - 1]), AfterOps(w, st0, before, d, k - 1))
  }

  lemma {:induction false} AfterOpsIs(w: World, st0: Store, before: Snapshot, d: Desired, k: nat)
    requires k <= |SURFACES|
    ensures Sendable(d, Plan(before, d)[..k])
    ensures AfterOps(w, st0, before, d, k) == Run(w, Script(before, d, Plan(before, d)[..k]), st0)
  {
    var ops := Plan(before, d);
    PlanSendable(before, d);
    if k > 0 {
      AfterOpsIs(w, st0, before, d, k - 1);
      ScriptSnoc(before, d, ops, k - 1);
      RunConcat(w, Script(before, d, ops[..k - 1]), CallsOf(before, d, ops[k - 1]), st0);
    }
  }

  lemma {:induction false} StepElsewhere(w: World, st0: Store, before: Snapshot, d: Desired, k: nat, s: Surface)
    requires Reads(w, st0, before) && k < |SURFACES| && SURFACES[k] != s
    ensures SameValue(w, AfterOps(w, st0, before, d, k + 1), AfterOps(w, st0, before, d, k), s)
  {
    PlanSendable(before, d);
    CallsElsewhere(w, st0, before, d, k, s);
    RunElsewhere(w, CallsOf(before, d, Plan(before, d)[k]), AfterOps(w, st0, before, d, k), s);
  }

  lemma {:induction false} AlongOps(w: World, st0: Store, before: Snapshot, d: Desired, k: nat, s: Surface)
    requires Reads(w, st0, before) && Index(s) < k <= |SURFACES|
    ensures SameValue(w, AfterOps(w, st0, before, d, k), AfterOps(w, st0, before, d, Index(s) + 1), s)
    decreases k
  {
    if Index(s) + 1 < k {
      StepElsewhere(w, st0, before, d, k - 1, s);
      AlongOps(w, st0, before, d, k - 1, s);
      SameValueTrans(w, AfterOps(w, st0, before, d, k), AfterOps(w, st0, before, d, k - 1), AfterOps(w, st0, before, d, Index(s) + 1), s);
    }
  }

  lemma {:induction false} ScriptKeeps(w: World, st0: Store, before: Snapshot, d: Desired, k: nat, s: Surface)
    requires Reads(w, st0, before) && Index(s) < k <= |SURFACES|
    ensures Sendable(d, Plan(before, d)[..k]) && Sendable(d, Plan(before, d)[..Index(s) + 1])
    ensures SameValue(w, Run(w, Script(before, d, Plan(before, d)[..k]), st0), Run(w, Script(before, d, Plan(before, d)[..Index(s) + 1]), st0), s)
  {
    AfterOpsIs(w, st0, before, d, k);
    AfterOpsIs(w, st0, before, d, Index(s) + 1);
    AlongOps(w, st0, before, d, k, s);
  }

  /** After its own calls a surface is left alone by the rest of the run. */
  lemma {:induction false} ProgressKeeps(w: World, st0: Store, before: Snapshot, d: Desired, k: nat, some: seq<Mutation>, s: Surface)
    requires Reads(w, st0, before) && Index(s) < k <= |SURFACES| && PartOf(before, d, k, some)
    ensures Sendable(d, Plan(before, d)[..Index(s) + 1])
    ensures SameValue(w, Run(w, Progress(before, d, k, some), st0), Run(w, Script(before, d, Plan(before, d)[..Index(s) + 1]), st0), s)
  {
    PlanSendable(before, d);
    var done := Script(before, d, Plan(before, d)[..k]);
    RunConcat(w, done, some, st0);
    PartBelongs(w, st0, before, d, k, some, s);
    RunElsewhere(w, some, Run(w, done, st0), s);
    ScriptKeeps(w, st0, before, d, k, s);
  }

  /** A finished operation holds its wanted value, whatever happens to the operations after it. */
  lemma {:induction false} FinishedHolds(w: World, st0: Store, before: Snapshot, d: Desired, k: nat, some: seq<Mutation>, s: Surface)
    requires Lawful(w) && Resolved(w, d) && Reads(w, st0, before)
    requires Index(s) < k <= |SURFACES| && PartOf(before, d, k, some) && IsPlanned(before, d, s)
    ensures Requested(d, s)
    ensures Achieved(w, d, s, Run(w, Progress(before, d, k, some), st0)) <==> (s.Reviewers? ==> Faithful(w, d, s))
  {
    var ops, i := Plan(before, d), Index(s);
    PlanSendable(before, d);
    PlannedActionable(before, d, s);
    ScriptElsewhere(w, st0, before, d, i, s);
    var done := Script(before, d, ops[..i]);
    RunElsewhere(w, done, st0, s);
    ScriptSnoc(before, d, ops, i);
    RunConcat(w, done, PlannedCalls(before, d, s), st0);
    PlannedAchieves(w, before, d, s, st0, Run(w, done, st0));
    ProgressKeeps(w, st0, before, d, k, some, s);
    AchievedSame(w, d, s, Run(w, Progress(before, d, k, some), st0), Run(w, Script(before, d, ops[..i + 1]), st0));
  }

  lemma {:induction false} NotPlannedIdle(w: World, st0: Store, before: Snapshot, d: Desired, s: Surface)
    requires Reads(w, st0, before) && !IsPlanned(before, d, s)
    ensures Sendable(d, Plan(before, d)[..Index(s) + 1])
    ensures SameValue(w, Run(w, Script(before, d, Plan(before, d)[..Index(s) + 1]), st0), st0, s)
  {
    PlanSendable(before, d);
    ScriptElsewhere(w, st0, before, d, Index(s), s);
    ScriptSnoc(before, d, Plan(before, d), Index(s));
    var done := Script(before, d, Plan(before, d)[..Index(s)]);
    assert done + [] == done;
    RunElsewhere(w, done, st0, s);
  }

  /** A surface that is not planned, or whose turn has not come, is untouched. */
  lemma {:induction false} UntouchedHolds(w: World, st0: Store, before: Snapshot, d: Desired, k: nat, some: seq<Mutation>, s: Surface)
    requires Reads(w, st0, before) && k <= |SURFACES| && PartOf(before, d, k, some)
    requires k < Index(s) || !IsPlanned(before, d, s)
    ensures SameValue(w, Run(w, Progress(before, d, k, some), st0), st0, s)
  {
    if k <= Index(s) {
      PlanSendable(before, d);
      ScriptElsewhere(w, st0, before, d, k, s);
      var done := Script(before, d, Plan(before, d)[..k]);
      RunConcat(w, done, some, st0);
      RunElsewhere(w, done, st0, s);
      if k < Index(s) { PartBelongs(w, st0, before, d, k, some, s); }
      RunElsewhere(w, some, Run(w, done, st0), s);
    } else {
      NotPlannedIdle(w, st0, before, d, s);
      ProgressKeeps(w, st0, before, d, k, some, s);
    }
  }

  /**
   A run cut short inside operation `k`: every operation before it that was planned holds its
   wanted value, and every surface after it reads as it did before the run.
   */
  lemma {:induction false} InterruptedRun(w: World, st0: Store, before: Snapshot, d: Desired, k: nat, some: seq<Mutation>)
    requires Lawful(w) && Resolved(w, d) && Reads(w, st0, before)
    requires k < |SURFACES| && PartOf(before, d, k, some)
    requires forall s | Requested(d, s) :: s.Reviewers? ==> Faithful(w, d, s)
    ensures var st := Run(w, Progress(before, d, k, some), st0);
      && (forall s | Index(s) < k && IsPlanned(before, d, s) :: Requested(d, s) && Achieved(w, d, s, st))
      && (forall s | k < Index(s) :: SameValue(w, st, st0, s))
  {
    forall s | Index(s) < k && IsPlanned(before, d, s)
      ensures Requested(d, s) && Achieved(w, d, s, Run(w, Progress(before, d, k, some), st0))
    {
      FinishedHolds(w, st0, before, d, k, some, s);
    }
    forall s | k < Index(s) ensures SameValue(w, Run(w, Progress(before, d, k, some), st0), st0, s) {
      UntouchedHolds(w, st0, before, d, k, some, s);
    }
  }

  // ---------------------------------------------------------------- issues outside the difference

  /** The issues a request moves: the target, and the sub-issues on one side only. */
  predicate Moves(w: World, before: Snapshot, d: Desired, c: string) {
    c == w.target || (d.subIssues.Wanted? && (ListsId(before.subIssues, c) != ListsId(d.subIssues.value, c)))
  }

  lemma {:induction false} CallsName(w: World, st0: Store, before: Snapshot, d: Desired, s: Surface, c: string)
    requires Lawful(w) && Resolved(w, d) && Reads(w, st0, before) && Actionable(before, d, s) && !Moves(w, before, d, c)
    ensures forall m | m in PlannedCalls(before, d, s) :: !Names(m, c)
  {
    if s.SubIssues? {
      var diff := ArrayDifference(before.subIssues, d.subIssues.value, UrlOf);
      ListsDifference(w, before.subIssues, d.subIssues.value, c);
      forall m | m in PlannedCalls(before, d, s) ensures !Names(m, c) {
        if m in Detach(before.id, diff.remove) {
          var e :| e in diff.remove && m == RemoveSubIssue(before.id, e.id);
          assert ListsId(diff.remove, e.id);
        } else {
          var e :| e in diff.add && m == AddSubIssue(before.id, e.id);
          assert ListsId(diff.add, e.id);
        }
      }
    }
  }

  lemma {:induction false} ScriptName(w: World, st0: Store, before: Snapshot, d: Desired, k: nat, c: string)
    requires Lawful(w) && Resolved(w, d) && Reads(w, st0, before) && !Moves(w, before, d, c) && k <= |SURFACES|
    ensures Sendable(d, Plan(before, d)[..k]) && forall m | m in Script(before, d, Plan(before, d)[..k]) :: !Names(m, c)
    decreases k
  {
    PlanSendable(before, d);
    if k > 0 {
      ScriptName(w, st0, before, d, k - 1, c);
      ScriptSnoc(before, d, Plan(before, d), k - 1);
      if IsPlanned(before, d, SURFACES[k - 1]) {
        PlannedActionable(before, d, SURFACES[k - 1]);
        CallsName(w, st0, before, d, SURFACES[k - 1], c);
      }
    }
  }

  /** However far a run gets, an issue outside the difference keeps its parent. */
  lemma {:induction false} OthersKeepParent(w: World, st0: Store, before: Snapshot, d: Desired, k: nat, some: seq<Mutation>, c: string)
    requires Lawful(w) && Resolved(w, d) && Reads(w, st0, before) && !Moves(w, before, d, c)
    requires k <= |SURFACES| && PartOf(before, d, k, some)
    ensures ParentOf(Run(w, Progress(before, d, k, some), st0), c) == ParentOf(st0, c)
  {
    ScriptName(w, st0, before, d, k, c);
    if k < |SURFACES| && IsPlanned(before, d, SURFACES[k]) {
      PlannedActionable(before, d, SURFACES[k]);
      CallsName(w, st0, before, d, SURFACES[k], c);
    }
    RunUnnamed(w, Progress(before, d, k, some), st0, c);
  }
}
