/**
 Planning and projecting: the six surface operations, the calls that carry one out, and
 the state the tool expects to read back.
 */
module MetadataPlan {
  import opened Options
  import opened Texts
  import opened SortedLists
  import opened MetadataModel

  datatype Status = NotRequested | Unchanged | Planned | Applied | Unsupported | Failed | Skipped

  /** A planned remote call, marked once it has been applied. */
  datatype Action = Action(mutation: Mutation, applied: bool)

  datatype Operation = Operation(surface: Surface, requested: bool, applicable: bool, status: Status, actions: seq<Action>)

  const SURFACES := [IssueTypes, Milestones, Assignees, Reviewers, ParentIssue, SubIssues]

  predicate Applicable(snap: Snapshot, s: Surface) {
    match s
    case Milestones => true
    case Assignees => true
    case Reviewers => snap.contentType.PullRequest?
    case _ => snap.contentType.Issue?
  }

  predicate Requested(d: Desired, s: Surface) {
    match s
    case IssueTypes => d.issueType.Wanted?
    case Milestones => d.milestone.Wanted?
    case Assignees => d.assignees.Wanted?
    case Reviewers => d.reviewers.Wanted?
    case ParentIssue => d.parentIssue.Wanted?
    case SubIssues => d.subIssues.Wanted?
  }

  /** The target wanted as its own parent or sub-issue. */
  predicate Reflexive(before: Snapshot, d: Desired, s: Surface)
    requires Requested(d, s)
  {
    match s
    case ParentIssue => d.parentIssue.value.Some? && d.parentIssue.value.value.id == before.id
    case SubIssues => exists e :: e in d.subIssues.value && e.id == before.id
    case _ => false
  }

  function UrlOption(e: Option<Entity>): Option<string> {
    if e.Some? then Some(e.value.url) else None
  }

  /** The comparison a surface is planned and verified by: ids, logins, reviewer keys or urls. */
  predicate SameSurface(a: Snapshot, b: Snapshot, s: Surface) {
    match s
    case IssueTypes => a.issueType == b.issueType
    case Milestones => a.milestone == b.milestone
    case Assignees => a.assignees == b.assignees
    case Reviewers => ReviewerKeys(a.reviewers) == ReviewerKeys(b.reviewers)
    case ParentIssue => UrlOption(a.parentIssue) == UrlOption(b.parentIssue)
    case SubIssues => Urls(a.subIssues) == Urls(b.subIssues)
  }

  /** `snap` with one surface as wanted. */
  function WithWanted(snap: Snapshot, d: Desired, s: Surface): Snapshot
    requires Requested(d, s)
  {
    match s
    case IssueTypes => snap.(issueType := d.issueType.value)
    case Milestones => snap.(milestone := d.milestone.value)
    case Assignees => snap.(assignees := d.assignees.value)
    case Reviewers => snap.(reviewers := d.reviewers.value)
    case ParentIssue => snap.(parentIssue := d.parentIssue.value)
    case SubIssues => snap.(subIssues := d.subIssues.value)
  }

  function Detach(issue: string, es: seq<Entity>): (ms: seq<Mutation>)
    ensures |ms| == |es| && forall i | 0 <= i < |es| :: ms[i] == RemoveSubIssue(issue, es[i].id)
  {
    seq(|es|, i requires 0 <= i < |es| => RemoveSubIssue(issue, es[i].id))
  }

  function Attach(issue: string, es: seq<Entity>): (ms: seq<Mutation>)
    ensures |ms| == |es| && forall i | 0 <= i < |es| :: ms[i] == AddSubIssue(issue, es[i].id)
  {
    seq(|es|, i requires 0 <= i < |es| => AddSubIssue(issue, es[i].id))
  }

  /** The actions a plan announces for a surface that differs. */
  function PlannedCalls(before: Snapshot, d: Desired, s: Surface): seq<Mutation>
    requires Requested(d, s)
  {
    match s
    case IssueTypes => [SetIssueType(d.issueType.value)]
    case Milestones => [SetMilestone(d.milestone.value, before.contentType.Issue?)]
    case Assignees => [ReplaceAssignees(d.assignees.value)]
    case Reviewers =>
      var diff := ArrayDifference(before.reviewers, d.reviewers.value, ReviewerKey);
      (if diff.add != [] then [RequestReviewers(diff.add)] else []) +
      (if diff.remove != [] then [RemoveReviewers(diff.remove)] else [])
    case ParentIssue =>
      if d.parentIssue.value.None? then
        (if before.parentIssue.Some? then [RemoveSubIssue(before.parentIssue.value.id, before.id)] else [])
      else [AddSubIssue(d.parentIssue.value.value.id, before.id)]
    case SubIssues =>
      var diff := ArrayDifference(before.subIssues, d.subIssues.value, UrlOf);
      Detach(before.id, diff.remove) + Attach(before.id, diff.add)
  }

  function Announce(ms: seq<Mutation>): (actions: seq<Action>)
    ensures |actions| == |ms| && forall i | 0 <= i < |ms| :: actions[i] == Action(ms[i], false)
  {
    seq(|ms|, i requires 0 <= i < |ms| => Action(ms[i], false))
  }

  function PlanSurface(before: Snapshot, d: Desired, s: Surface): (op: Operation)
    ensures op.surface == s
  {
    var usable := Applicable(before, s);
    if !Requested(d, s) then Operation(s, false, usable, NotRequested, [])
    else if !usable then Operation(s, true, false, Unsupported, [])
    else if Reflexive(before, d, s) then Operation(s, true, true, Failed, [])
    else if SameSurface(before, WithWanted(before, d, s), s) then Operation(s, true, true, Unchanged, [])
    else Operation(s, true, true, Planned, Announce(PlannedCalls(before, d, s)))
  }

  function Plan(before: Snapshot, d: Desired): (ops: seq<Operation>)
    ensures |ops| == |SURFACES| && forall i | 0 <= i < |SURFACES| :: ops[i] == PlanSurface(before, d, SURFACES[i])
  {
    seq(|SURFACES|, i requires 0 <= i < |SURFACES| => PlanSurface(before, d, SURFACES[i]))
  }

  predicate Succeeds(op: Operation) {
    op.requested && op.status != Failed && op.status != Unsupported
  }

  predicate SuccessfulSurface(ops: seq<Operation>, s: Surface) {
    exists op :: op in ops && op.surface == s && Succeeds(op)
  }

  function ProjectSurface(le: Order, snap: Snapshot, d: Desired, ops: seq<Operation>, s: Surface): Snapshot {
    if SuccessfulSurface(ops, s) && Requested(d, s) && Applicable(snap, s)
    then
      var wanted := WithWanted(snap, d, s);
      wanted.(reviewers := if s.Reviewers? then Sort(le, ReviewerKey, wanted.reviewers) else wanted.reviewers,
              subIssues := if s.SubIssues? then Sort(le, UrlOf, wanted.subIssues) else wanted.subIssues)
    else snap
  }

  function ProjectFrom(le: Order, snap: Snapshot, d: Desired, ops: seq<Operation>, k: nat): Snapshot
    requires k <= |SURFACES|
    decreases |SURFACES| - k
  {
    if k == |SURFACES| then snap
    else ProjectFrom(le, ProjectSurface(le, snap, d, ops, SURFACES[k]), d, ops, k + 1)
  }

  /** The snapshot the tool expects to read once the successful operations are in. */
  function Project(le: Order, before: Snapshot, d: Desired, ops: seq<Operation>): Snapshot {
    var clone := before.(reviewers := Sort(le, ReviewerKey, before.reviewers), subIssues := Sort(le, UrlOf, before.subIssues));
    ProjectFrom(le, clone, d, ops, 0)
  }

  /** The surfaces a verification looks at. */
  predicate Checked(ops: seq<Operation>, s: Surface) {
    exists op :: op in ops && op.surface == s && op.requested && op.applicable
  }

  predicate Verified(expected: Snapshot, actual: Snapshot, ops: seq<Operation>) {
    forall s | Checked(ops, s) :: SameSurface(expected, actual, s)
  }
}
