/**
 When a surface ends up as wanted: the calls planned for it achieve it exactly when the
 request names accounts, teams and issues the way the remote does.
 */
module MetadataGoals {
  import opened Options
  import opened Texts
  import opened SortedLists
  import opened MetadataModel
  import opened MetadataPlan
  import opened MetadataSurfaces

  function IdOption(e: Option<Entity>): Option<string> {
    if e.Some? then Some(e.value.id) else None
  }

  function Ids(es: seq<Entity>): set<string> {
    set e | e in es :: e.id
  }

  /** The store holds the wanted value of a surface. */
  predicate Achieved(w: World, d: Desired, s: Surface, st: Store)
    requires Requested(d, s)
  {
    match s
    case IssueTypes => st.issueType == d.issueType.value
    case Milestones => st.milestone == d.milestone.value
    case Assignees => st.assignees == set l | l in d.assignees.value :: w.canonical(l)
    case Reviewers => st.reviewers == Members(ReviewerKeys(d.reviewers.value))
    case ParentIssue => ParentOf(st, w.target) == IdOption(d.parentIssue.value)
    case SubIssues => Children(w, st) == Ids(d.subIssues.value)
  }

  /**
   The request names things as the remote does: logins in their own spelling, teams of the
   repository's owner, and every sub-issue once.
   */
  predicate Faithful(w: World, d: Desired, s: Surface)
    requires Requested(d, s)
  {
    match s
    case Assignees => forall l | l in d.assignees.value :: w.canonical(l) == l
    case Reviewers => forall r | r in d.reviewers.value && r.Team? :: Fold(r.org) == Fold(w.owner)
    case SubIssues => Distinct(Urls(d.subIssues.value))
    case _ => true
  }

  lemma AchievedSame(w: World, d: Desired, s: Surface, a: Store, b: Store)
    requires Requested(d, s) && SameValue(w, a, b, s)
    ensures Achieved(w, d, s, a) == Achieved(w, d, s, b)
  {
  }

  // ---------------------------------------------------------------- reviewer keys

  predicate SlashAt(s: string, k: nat) {
    k < |s| && s[k] == '/' && '/' !in s[..k]
  }

  lemma SlashOnce(s: string, j: nat, k: nat)
    requires SlashAt(s, j) && SlashAt(s, k)
    ensures j == k
  {
    assert forall i | 0 <= i < j :: s[..j][i] == s[i];
    assert forall i | 0 <= i < k :: s[..k][i] == s[i];
  }

  lemma SplitUnique(a: string, b: string, c: string, d: string)
    requires '/' !in a && '/' !in c && a + "/" + b == c + "/" + d
    ensures a == c
  {
    var x := a + "/" + b;
    assert x[..|a|] == a;
    assert x == c + "/" + d && x[..|c|] == c;
    SlashOnce(x, |a|, |c|);
  }

  lemma FoldUnslashed(s: string)
    requires '/' !in s
    ensures '/' !in Fold(s)
  {
  }

  /** A team of another organization has a key that no request for it can produce. */
  lemma ForeignKey(w: World, r: Reviewer, other: Reviewer)
    requires Lawful(w) && Unslashed(r) && Unslashed(other) && r.Team? && Fold(r.org) != Fold(w.owner)
    ensures ReviewerKey(r) != SentKey(w, other)
  {
    FoldUnslashed(r.org);
    FoldUnslashed(w.owner);
    match other {
      case User(login) =>
        FoldUnslashed(login);
        assert ReviewerKey(r)[|Fold(r.org)|] == '/';
      case Team(_, slug) =>
        if ReviewerKey(r) == SentKey(w, other) {
          SplitUnique(Fold(r.org), Fold(r.slug), Fold(w.owner), Fold(slug));
        }
    }
  }

  lemma OwnKeys(w: World, rs: seq<Reviewer>)
    requires forall r | r in rs && r.Team? :: Fold(r.org) == Fold(w.owner)
    ensures forall r | r in rs :: SentKey(w, r) == ReviewerKey(r)
  {
  }

  lemma MembersOf<T>(s: seq<T>, x: T)
    ensures x in Members(s) <==> x in s
  {
  }

  lemma {:induction false} ReviewersOwn(w: World, before: Snapshot, d: Desired, st: Store)
    requires w.contentType.PullRequest? && Reads(w, st, before)
    requires d.reviewers.Wanted? && Faithful(w, d, Reviewers)
    ensures Achieved(w, d, Reviewers, Run(w, PlannedCalls(before, d, Reviewers), st))
  {
    var diff := ArrayDifference(before.reviewers, d.reviewers.value, ReviewerKey);
    DifferenceKeys(before.reviewers, d.reviewers.value, ReviewerKey);
    OwnKeys(w, d.reviewers.value);
    SentAsKeyed(w, diff.add);
    SentAsKeyed(w, diff.remove);
    ReviewersAfter(w, before, d, st);
  }

  /** A foreign team never gets its key into the store. */
  lemma {:induction false} ReviewersForeign(w: World, before: Snapshot, d: Desired, st: Store)
    requires Lawful(w) && Resolved(w, d) && w.contentType.PullRequest? && Reads(w, st, before)
    requires d.reviewers.Wanted? && !Faithful(w, d, Reviewers)
    ensures !Achieved(w, d, Reviewers, Run(w, PlannedCalls(before, d, Reviewers), st))
    ensures !Achieved(w, d, Reviewers, st)
  {
    var diff := ArrayDifference(before.reviewers, d.reviewers.value, ReviewerKey);
    var r :| r in d.reviewers.value && r.Team? && Fold(r.org) != Fold(w.owner);
    var k := ReviewerKey(r);
    DifferenceKeys(before.reviewers, d.reviewers.value, ReviewerKey);
    ReviewersAfter(w, before, d, st);
    assert k in ReviewerKeys(d.reviewers.value) by {
      var i :| 0 <= i < |d.reviewers.value| && d.reviewers.value[i] == r;
      assert ReviewerKeys(d.reviewers.value)[i] == k;
    }
    forall x | x in diff.add ensures SentKey(w, x) != k { ForeignKey(w, r, x); }
    assert k !in st.reviewers by {
      if k in st.reviewers {
        assert k in ReviewerKeys(before.reviewers);
        var i :| 0 <= i < |before.reviewers| && ReviewerKeys(before.reviewers)[i] == k;
        ForeignKey(w, r, before.reviewers[i]);
      }
    }
    MembersOf(ReviewerKeys(d.reviewers.value), k);
  }

  // ---------------------------------------------------------------- one surface at a time

  /** What a planned surface needs: asked for, possible here, and not the target itself. */
  predicate Actionable(before: Snapshot, d: Desired, s: Surface) {
    Requested(d, s) && Applicable(before, s) && !Reflexive(before, d, s)
  }

  lemma ParentAchieved(w: World, before: Snapshot, d: Desired, st: Store)
    requires Requested(d, ParentIssue) && before.id == w.target && ParentOf(st, w.target) == IdOption(before.parentIssue)
    ensures Achieved(w, d, ParentIssue, Run(w, PlannedCalls(before, d, ParentIssue), st))
  {
    var ms := PlannedCalls(before, d, ParentIssue);
    if ms != [] { ParentAfter(w, ms[0], st, w.target); }
  }

  lemma {:induction false} SubIssuesAchieved(w: World, before: Snapshot, d: Desired, st: Store)
    requires Lawful(w) && Resolved(w, d) && w.contentType.Issue? && Actionable(before, d, SubIssues)
    requires before.id == w.target && forall e | e in before.subIssues :: Known(w, e)
    requires forall c :: c in Children(w, st) <==> ListsId(before.subIssues, c)
    ensures Achieved(w, d, SubIssues, Run(w, PlannedCalls(before, d, SubIssues), st))
  {
    var right := d.subIssues.value;
    var diff := ArrayDifference(before.subIssues, right, UrlOf);
    var mid := Run(w, Detach(w.target, diff.remove), st);
    var end := Run(w, PlannedCalls(before, d, SubIssues), st);
    RunConcat(w, Detach(w.target, diff.remove), Attach(w.target, diff.add), st);
    forall c ensures c in Children(w, end) <==> c in Ids(right) {
      DetachAll(w, diff.remove, st, c);
      AttachAll(w, diff.add, mid, c);
      ListsDifference(w, before.subIssues, right, c);
      ChildIff(w, st, c);
      ChildIff(w, end, c);
      assert ListsId(right, c) <==> c in Ids(right);
    }
  }

  lemma ReadsChildren(w: World, st: Store, snap: Snapshot)
    requires Reads(w, st, snap) && w.contentType.Issue?
    ensures forall c :: c in Children(w, st) <==> ListsId(snap.subIssues, c)
  {
  }

  /** The planned calls of a surface achieve it; a foreign team is the one thing they cannot. */
  lemma {:induction false} PlannedAchieves(w: World, before: Snapshot, d: Desired, s: Surface, st0: Store, st: Store)
    requires Lawful(w) && Resolved(w, d) && Reads(w, st0, before) && Actionable(before, d, s)
    requires SameValue(w, st, st0, s)
    ensures Achieved(w, d, s, Run(w, PlannedCalls(before, d, s), st)) <==> (s.Reviewers? ==> Faithful(w, d, s))
  {
    match s {
      case Reviewers =>
        ReviewersAfter(w, before, d, st);
        ReviewersAfter(w, before, d, st0);
        if Faithful(w, d, s) { ReviewersOwn(w, before, d, st0); } else { ReviewersForeign(w, before, d, st0); }
      case ParentIssue => ParentAchieved(w, before, d, st);
      case SubIssues =>
        ReadsChildren(w, st0, before);
        SubIssuesAchieved(w, before, d, st);
      case _ =>
    }
  }

  lemma UrlIds(w: World, a: seq<Entity>, b: seq<Entity>)
    requires Lawful(w) && Urls(a) == Urls(b)
    requires (forall e | e in a :: Known(w, e)) && (forall e | e in b :: Known(w, e))
    ensures Ids(a) == Ids(b)
  {
    assert |a| == |b|;
    forall i | 0 <= i < |a| ensures a[i].id == b[i].id {
      assert Urls(a)[i] == Urls(b)[i];
      assert a[i] in a && b[i] in b;
    }
  }

  /**
   Reading a surface back gives the wanted list exactly when the store holds the wanted
   value and the request names it as the remote does.
   */
  lemma {:induction false} ReadIff(w: World, d: Desired, s: Surface, st: Store, snap: Snapshot)
    requires Lawful(w) && Resolved(w, d) && Reads(w, st, snap) && Actionable(snap, d, s)
    ensures SameSurface(WithWanted(snap, d, s), snap, s) <==> Achieved(w, d, s, st) && Faithful(w, d, s)
  {
    match s {
      case Assignees => AssigneesReadIff(w, d, st, snap);
      case Reviewers => ReviewersReadIff(w, d, st, snap);
      case SubIssues => SubIssuesReadIff(w, d, st, snap);
      case _ =>
    }
  }

  lemma FoldDistinct(s: seq<string>)
    requires Distinct(Keys(s, Fold))
    ensures Distinct(s)
  {
    forall i, j | 0 <= i < j < |s| ensures s[i] != s[j] {
      assert Keys(s, Fold)[i] != Keys(s, Fold)[j];
    }
  }

  lemma {:induction false} AssigneesReadIff(w: World, d: Desired, st: Store, snap: Snapshot)
    requires Lawful(w) && Resolved(w, d) && Reads(w, st, snap) && Requested(d, Assignees)
    ensures d.assignees.value == snap.assignees <==> Achieved(w, d, Assignees, st) && Faithful(w, d, Assignees)
  {
    var ls := d.assignees.value;
    var image := set l | l in ls :: w.canonical(l);
    if ls == snap.assignees {
      assert forall l | l in ls :: w.canonical(l) == l;
      assert st.assignees == image;
    }
    if Achieved(w, d, Assignees, st) && Faithful(w, d, Assignees) {
      FoldDistinct(ls);
      forall l ensures l in ls <==> l in snap.assignees {
        if l in ls { assert w.canonical(l) in image; }
      }
      OrderedUnique(w.le, ls, snap.assignees);
    }
  }

  lemma {:induction false} ReviewersReadIff(w: World, d: Desired, st: Store, snap: Snapshot)
    requires Lawful(w) && Resolved(w, d) && Reads(w, st, snap) && Requested(d, Reviewers) && w.contentType.PullRequest?
    ensures ReviewerKeys(d.reviewers.value) == ReviewerKeys(snap.reviewers) <==>
            Achieved(w, d, Reviewers, st) && Faithful(w, d, Reviewers)
  {
    var keys := ReviewerKeys(d.reviewers.value);
    if Achieved(w, d, Reviewers, st) { OrderedUnique(w.le, keys, ReviewerKeys(snap.reviewers)); }
    if keys == ReviewerKeys(snap.reviewers) {
      assert st.reviewers == Members(keys);
      if !Faithful(w, d, Reviewers) { ReviewersForeign(w, snap, d, st); }
    }
  }

  lemma {:induction false} SubIssuesReadIff(w: World, d: Desired, st: Store, snap: Snapshot)
    requires Lawful(w) && Resolved(w, d) && Reads(w, st, snap) && Requested(d, SubIssues) && w.contentType.Issue?
    ensures Urls(d.subIssues.value) == Urls(snap.subIssues) <==> Achieved(w, d, SubIssues, st) && Faithful(w, d, SubIssues)
  {
    var es := d.subIssues.value;
    ReadsChildren(w, st, snap);
    assert Children(w, st) == Ids(snap.subIssues);
    if Urls(es) == Urls(snap.subIssues) { UrlIds(w, es, snap.subIssues); }
    if Achieved(w, d, SubIssues, st) && Faithful(w, d, SubIssues) {
      forall u ensures u in Urls(es) <==> u in Urls(snap.subIssues) { SameUrls(w, es, snap.subIssues, u); SameUrls(w, snap.subIssues, es, u); }
      OrderedUnique(w.le, Urls(es), Urls(snap.subIssues));
    }
  }

  lemma SameUrls(w: World, a: seq<Entity>, b: seq<Entity>, u: string)
    requires Lawful(w) && (forall e | e in a :: Known(w, e)) && (forall e | e in b :: Known(w, e))
    requires Ids(a) == Ids(b)
    ensures u in Urls(a) ==> u in Urls(b)
  {
    if u in Urls(a) {
      var i :| 0 <= i < |a| && Urls(a)[i] == u;
      assert a[i] in a && a[i].id in Ids(a);
      assert a[i].id in Ids(b);
      var x :| x in b && x.id == a[i].id;
      var j :| 0 <= j < |b| && b[j] == x;
      assert Urls(b)[j] == u;
    }
  }
}
