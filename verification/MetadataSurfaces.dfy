/**
 Surfaces do not interfere: the calls of one surface bring it to the wanted value and leave
 every other surface, and every issue they do not name, alone.
 */
module MetadataSurfaces {
  import opened Options
  import opened Texts
  import opened SortedLists
  import opened MetadataModel
  import opened MetadataPlan

  function SurfaceOf(w: World, m: Mutation): Surface {
    match m
    case SetIssueType(_) => IssueTypes
    case SetMilestone(_, _) => Milestones
    case ReplaceAssignees(_) => Assignees
    case RequestReviewers(_) => Reviewers
    case RemoveReviewers(_) => Reviewers
    case AddSubIssue(_, sub) => if sub == w.target then ParentIssue else SubIssues
    case RemoveSubIssue(_, sub) => if sub == w.target then ParentIssue else SubIssues
  }

  predicate SameValue(w: World, a: Store, b: Store, s: Surface) {
    match s
    case IssueTypes => a.issueType == b.issueType
    case Milestones => a.milestone == b.milestone
    case Assignees => a.assignees == b.assignees
    case Reviewers => a.reviewers == b.reviewers
    case ParentIssue => ParentOf(a, w.target) == ParentOf(b, w.target)
    case SubIssues => Children(w, a) == Children(w, b)
  }

  lemma ParentAfter(w: World, m: Mutation, st: Store, c: string)
    ensures ParentOf(Effect(w, m, st), c) ==
            if m.AddSubIssue? && m.sub == c then Some(m.issue)
            else if m.RemoveSubIssue? && m.sub == c && ParentOf(st, c) == Some(m.issue) then None
            else ParentOf(st, c)
  {
  }

  lemma ChildIff(w: World, st: Store, c: string)
    ensures c in Children(w, st) <==> c != w.target && ParentOf(st, c) == Some(w.target)
  {
  }

  /** A call changes its own surface only. */
  lemma EffectElsewhere(w: World, m: Mutation, st: Store, s: Surface)
    requires SurfaceOf(w, m) != s
    ensures SameValue(w, Effect(w, m, st), st, s)
  {
    if s.ParentIssue? { ParentAfter(w, m, st, w.target); }
    if s.SubIssues? {
      forall c ensures c in Children(w, Effect(w, m, st)) <==> c in Children(w, st) {
        ParentAfter(w, m, st, c);
        ChildIff(w, st, c);
        ChildIff(w, Effect(w, m, st), c);
      }
    }
  }

  lemma {:induction false} RunConcat(w: World, a: seq<Mutation>, b: seq<Mutation>, st: Store)
    ensures Run(w, a + b, st) == Run(w, b, Run(w, a, st))
    decreases a
  {
    if a == [] {
      assert a + b == b;
    } else {
      assert (a + b)[1..] == a[1..] + b;
      RunConcat(w, a[1..], b, Effect(w, a[0], st));
    }
  }

  /** Calls of other surfaces, however many of them run, leave a surface alone. */
  lemma {:induction false} RunElsewhere(w: World, ms: seq<Mutation>, st: Store, s: Surface)
    requires forall m | m in ms :: SurfaceOf(w, m) != s
    ensures SameValue(w, Run(w, ms, st), st, s)
    decreases ms
  {
    if ms != [] {
      EffectElsewhere(w, ms[0], st, s);
      RunElsewhere(w, ms[1..], Effect(w, ms[0], st), s);
    }
  }

  predicate Names(m: Mutation, c: string) {
    (m.AddSubIssue? || m.RemoveSubIssue?) && m.sub == c
  }

  /** An issue that no call names keeps its parent, whatever it is. */
  lemma {:induction false} RunUnnamed(w: World, ms: seq<Mutation>, st: Store, c: string)
    requires forall m | m in ms :: !Names(m, c)
    ensures ParentOf(Run(w, ms, st), c) == ParentOf(st, c)
    decreases ms
  {
    if ms != [] {
      assert !Names(ms[0], c);
      ParentAfter(w, ms[0], st, c);
      RunUnnamed(w, ms[1..], Effect(w, ms[0], st), c);
    }
  }

  // ---------------------------------------------------------------- attaching and detaching lists

  predicate ListsId(es: seq<Entity>, c: string) {
    exists e :: e in es && e.id == c
  }

  lemma {:induction false} DetachAll(w: World, es: seq<Entity>, st: Store, c: string)
    ensures ParentOf(Run(w, Detach(w.target, es), st), c) ==
            if ListsId(es, c) && ParentOf(st, c) == Some(w.target) then None else ParentOf(st, c)
    decreases es
  {
    if es != [] {
      var ms := Detach(w.target, es);
      assert ms[1..] == Detach(w.target, es[1..]);
      ParentAfter(w, ms[0], st, c);
      DetachAll(w, es[1..], Effect(w, ms[0], st), c);
      assert ListsId(es, c) <==> es[0].id == c || ListsId(es[1..], c);
    }
  }

  lemma {:induction false} AttachAll(w: World, es: seq<Entity>, st: Store, c: string)
    ensures ParentOf(Run(w, Attach(w.target, es), st), c) == if ListsId(es, c) then Some(w.target) else ParentOf(st, c)
    decreases es
  {
    if es != [] {
      var ms := Attach(w.target, es);
      assert ms[1..] == Attach(w.target, es[1..]);
      ParentAfter(w, ms[0], st, c);
      AttachAll(w, es[1..], Effect(w, ms[0], st), c);
      assert ListsId(es, c) <==> es[0].id == c || ListsId(es[1..], c);
    }
  }

  /** With urls that determine ids, a keyed difference misses an id exactly when it misses its url. */
  lemma ListsUrl(w: World, es: seq<Entity>, e: Entity)
    requires Lawful(w) && Known(w, e) && forall x | x in es :: Known(w, x)
    ensures ListsId(es, e.id) <==> e.url in Urls(es)
  {
    if ListsId(es, e.id) {
      var x :| x in es && x.id == e.id;
      var i :| 0 <= i < |es| && es[i] == x;
      assert Urls(es)[i] == e.url;
    }
    if e.url in Urls(es) {
      var i :| 0 <= i < |es| && Urls(es)[i] == e.url;
      assert es[i] in es && es[i].id == e.id;
    }
  }

  lemma ListsDifference(w: World, left: seq<Entity>, right: seq<Entity>, c: string)
    requires Lawful(w) && (forall e | e in left :: Known(w, e)) && (forall e | e in right :: Known(w, e))
    ensures var d := ArrayDifference(left, right, UrlOf);
      && (ListsId(d.add, c) <==> ListsId(right, c) && !ListsId(left, c))
      && (ListsId(d.remove, c) <==> ListsId(left, c) && !ListsId(right, c))
  {
    var d := ArrayDifference(left, right, UrlOf);
    DifferenceKeys(left, right, UrlOf);
    var e := Entity(c, w.urlOf(c));
    ListsUrl(w, left, e);
    ListsUrl(w, right, e);
    ListsUrl(w, d.add, e);
    ListsUrl(w, d.remove, e);
  }

  // ---------------------------------------------------------------- reviewers

  lemma SentAsKeyed(w: World, rs: seq<Reviewer>)
    requires forall r | r in rs :: SentKey(w, r) == ReviewerKey(r)
    ensures forall k :: k in SentKeys(w, rs) <==> k in ReviewerKeys(rs)
  {
    forall k ensures k in SentKeys(w, rs) <==> k in ReviewerKeys(rs) {
      if k in ReviewerKeys(rs) {
        var i :| 0 <= i < |rs| && ReviewerKeys(rs)[i] == k;
        assert rs[i] in rs && SentKey(w, rs[i]) == k;
      }
      if k in SentKeys(w, rs) {
        var r :| r in rs && SentKey(w, r) == k;
        var i :| 0 <= i < |rs| && rs[i] == r;
        assert ReviewerKeys(rs)[i] == k;
      }
    }
  }

  /** The reviewers left after the additions are posted and the removals deleted. */
  lemma {:induction false} ReviewersAfter(w: World, before: Snapshot, d: Desired, st: Store)
    requires d.reviewers.Wanted?
    ensures var diff := ArrayDifference(before.reviewers, d.reviewers.value, ReviewerKey);
      Run(w, PlannedCalls(before, d, Reviewers), st).reviewers == st.reviewers + SentKeys(w, diff.add) - SentKeys(w, diff.remove)
  {
    var diff := ArrayDifference(before.reviewers, d.reviewers.value, ReviewerKey);
    var post := if diff.add != [] then [RequestReviewers(diff.add)] else [];
    var delete := if diff.remove != [] then [RemoveReviewers(diff.remove)] else [];
    assert PlannedCalls(before, d, Reviewers) == post + delete;
    RunConcat(w, post, delete, st);
    RunAtMostOne(w, diff.add != [], RequestReviewers(diff.add), st);
    RunAtMostOne(w, diff.remove != [], RemoveReviewers(diff.remove), Run(w, post, st));
  }

  lemma RunAtMostOne(w: World, present: bool, m: Mutation, st: Store)
    ensures Run(w, if present then [m] else [], st) == if present then Effect(w, m, st) else st
  {
  }
}
