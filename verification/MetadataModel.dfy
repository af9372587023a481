/**
 The metadata reconciler's data: what is read from an issue or pull request, what is wanted
 of it, and the remote store behind both.
 */
module MetadataModel {
  import opened Options
  import opened Texts
  import opened SortedLists

  datatype ContentType = Issue | PullRequest

  datatype Entity = Entity(id: string, url: string)

  datatype Reviewer = User(login: string) | Team(org: string, slug: string)

  function ReviewerKey(r: Reviewer): string {
    match r
    case User(login) => Fold(login)
    case Team(org, slug) => Fold(org) + "/" + Fold(slug)
  }

  function UrlOf(e: Entity): string { e.url }

  datatype Snapshot = Snapshot(
    id: string, contentType: ContentType, assignees: seq<string>, reviewers: seq<Reviewer>,
    milestone: Option<string>, issueType: Option<string>, parentIssue: Option<Entity>, subIssues: seq<Entity>)

  /** A requested surface: not asked for, or asked for with a value (an explicit clear is a value too). */
  datatype Wanted<T> = Ignored | Wanted(value: T)

  datatype Desired = Desired(
    issueType: Wanted<Option<string>>, milestone: Wanted<Option<string>>, assignees: Wanted<seq<string>>,
    reviewers: Wanted<seq<Reviewer>>, parentIssue: Wanted<Option<Entity>>, subIssues: Wanted<seq<Entity>>)

  datatype Surface = IssueTypes | Milestones | Assignees | Reviewers | ParentIssue | SubIssues

  // ---------------------------------------------------------------- the remote

  /** What does not change while the tool runs: collation, the target, and how names and urls resolve. */
  datatype World = World(
    le: Order, target: string, contentType: ContentType, owner: string,
    urlOf: string -> string, canonical: string -> string)

  /** A login in any spelling names one account, which has one spelling; an issue has one url. */
  ghost predicate Lawful(w: World) {
    && Total(w.le)
    && '/' !in w.owner
    && (forall a, b :: w.urlOf(a) == w.urlOf(b) ==> a == b)
    && (forall a :: Fold(w.canonical(a)) == Fold(a))
    && (forall a, b :: Fold(a) == Fold(b) ==> w.canonical(a) == w.canonical(b))
  }

  /** The target's own metadata, and the parent of every issue; sub-issues are the inverse image. */
  datatype Store = Store(
    issueType: Option<string>, milestone: Option<string>, assignees: set<string>, reviewers: set<string>,
    parent: map<string, string>)

  function ParentOf(st: Store, issue: string): Option<string> {
    if issue in st.parent then Some(st.parent[issue]) else None
  }

  function Children(w: World, st: Store): set<string> {
    set c | c in st.parent && c != w.target && st.parent[c] == w.target
  }

  datatype Mutation =
    | SetIssueType(value: Option<string>)
    | SetMilestone(value: Option<string>, onIssue: bool)
    | ReplaceAssignees(logins: seq<string>)
    | RequestReviewers(reviewers: seq<Reviewer>)
    | RemoveReviewers(reviewers: seq<Reviewer>)
    | AddSubIssue(issue: string, sub: string)
    | RemoveSubIssue(issue: string, sub: string)

  /** A team is requested by its slug alone, so it is looked up among the owner's teams. */
  function SentKey(w: World, r: Reviewer): string {
    match r
    case User(login) => Fold(login)
    case Team(_, slug) => Fold(w.owner) + "/" + Fold(slug)
  }

  function SentKeys(w: World, rs: seq<Reviewer>): set<string> {
    set r | r in rs :: SentKey(w, r)
  }

  /** The effect of one remote call; attaching an issue replaces its parent. */
  function Effect(w: World, m: Mutation, st: Store): Store {
    match m
    case SetIssueType(value) => st.(issueType := value)
    case SetMilestone(value, _) => st.(milestone := value)
    case ReplaceAssignees(logins) => st.(assignees := set l | l in logins :: w.canonical(l))
    case RequestReviewers(rs) => st.(reviewers := st.reviewers + SentKeys(w, rs))
    case RemoveReviewers(rs) => st.(reviewers := st.reviewers - SentKeys(w, rs))
    case AddSubIssue(issue, sub) => st.(parent := st.parent[sub := issue])
    case RemoveSubIssue(issue, sub) =>
      if ParentOf(st, sub) == Some(issue) then st.(parent := st.parent - {sub}) else st
  }

  function Run(w: World, ms: seq<Mutation>, st: Store): Store {
    if ms == [] then st else Run(w, ms[1..], Effect(w, ms[0], st))
  }

  // ---------------------------------------------------------------- reading the remote

  function ReviewerKeys(rs: seq<Reviewer>): seq<string> { Keys(rs, ReviewerKey) }

  function Urls(es: seq<Entity>): seq<string> { Keys(es, UrlOf) }

  predicate Known(w: World, e: Entity) {
    e.url == w.urlOf(e.id)
  }

  /** A list is in order and names everything once. */
  predicate Listed(le: Order, keys: seq<string>) {
    Ordered(le, keys) && Distinct(keys)
  }

  predicate Unslashed(r: Reviewer) {
    match r
    case User(login) => '/' !in login
    case Team(org, slug) => '/' !in org && '/' !in slug
  }

  /** `snap` is what a query of the target returns. */
  ghost predicate Reads(w: World, st: Store, snap: Snapshot) {
    && snap.id == w.target && snap.contentType == w.contentType
    && snap.milestone == st.milestone
    && Listed(w.le, snap.assignees) && (forall l :: l in snap.assignees <==> l in st.assignees)
    && (forall l | l in st.assignees :: w.canonical(l) == l)
    && if w.contentType.Issue?
       then
         && snap.issueType == st.issueType && snap.reviewers == []
         && (snap.parentIssue.Some? ==> Known(w, snap.parentIssue.value))
         && (if snap.parentIssue.Some? then Some(snap.parentIssue.value.id) else None) == ParentOf(st, w.target)
         && ParentOf(st, w.target) != Some(w.target)
         && Listed(w.le, Urls(snap.subIssues))
         && (forall e | e in snap.subIssues :: Known(w, e))
         && (forall c :: c in Children(w, st) <==> exists e :: e in snap.subIssues && e.id == c)
       else
         && snap.issueType == None && snap.parentIssue == None && snap.subIssues == []
         && Listed(w.le, ReviewerKeys(snap.reviewers))
         && (forall k :: k in ReviewerKeys(snap.reviewers) <==> k in st.reviewers)
         && (forall r | r in snap.reviewers :: Unslashed(r) && SentKey(w, r) == ReviewerKey(r))
  }

  /** What resolving a request guarantees: ordered lists, no login or reviewer twice, existing issues. */
  ghost predicate Resolved(w: World, d: Desired) {
    && (d.assignees.Wanted? ==> Ordered(w.le, d.assignees.value) && Distinct(Keys(d.assignees.value, Fold)))
    && (d.reviewers.Wanted? ==> Listed(w.le, ReviewerKeys(d.reviewers.value)) && forall r | r in d.reviewers.value :: Unslashed(r))
    && (d.parentIssue.Wanted? && d.parentIssue.value.Some? ==> Known(w, d.parentIssue.value.value))
    && (d.subIssues.Wanted? ==> Ordered(w.le, Urls(d.subIssues.value)) && forall e | e in d.subIssues.value :: Known(w, e))
  }
}
