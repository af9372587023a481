/**
 Applying a plan against a remote whose calls may fail, before or after they take effect.
 */
module MetadataApply {
  import opened Options
  import opened Texts
  import opened SortedLists
  import opened MetadataModel
  import opened MetadataPlan
  import opened MetadataSurfaces

  /** How a call ends: done, or an exception with the effect lost or the acknowledgement lost. */
  datatype Reply = Done | Lost | Unacknowledged

  // ---------------------------------------------------------------- how far a run of calls gets

  /** How many of `n` calls, the first of them number `from`, are done before one throws. */
  function Acknowledged(replies: nat -> Reply, from: nat, n: nat): (f: nat)
    ensures f <= n
    decreases n
  {
    if n == 0 || !replies(from).Done? then 0 else 1 + Acknowledged(replies, from + 1, n - 1)
  }

  /** The calls that took effect: one more when the failing call lost only its acknowledgement. */
  function Landed(replies: nat -> Reply, from: nat, n: nat): (k: nat)
    ensures k <= n
  {
    var f := Acknowledged(replies, from, n);
    if f < n && replies(from + f).Unacknowledged? then f + 1 else f
  }

  /** The calls that were sent: none after the first that throws. */
  function Tried(replies: nat -> Reply, from: nat, n: nat): nat {
    var f := Acknowledged(replies, from, n);
    if f < n then f + 1 else f
  }

  lemma {:induction false} AcknowledgedIff(replies: nat -> Reply, from: nat, n: nat, f: nat)
    requires f <= n
    ensures Acknowledged(replies, from, n) == f <==>
            (forall k | from <= k < from + f :: replies(k).Done?) && (f < n ==> !replies(from + f).Done?)
    decreases n
  {
    if n > 0 && replies(from).Done? && f > 0 { AcknowledgedIff(replies, from + 1, n - 1, f - 1); }
  }

  /** A longer run gets as far as its first part does, and on from there if that part is done. */
  lemma {:induction false} AcknowledgedSplit(replies: nat -> Reply, from: nat, a: nat, b: nat)
    ensures Acknowledged(replies, from, a + b) ==
            if Acknowledged(replies, from, a) < a then Acknowledged(replies, from, a) else a + Acknowledged(replies, from + a, b)
    decreases a
  {
    if a > 0 && replies(from).Done? { AcknowledgedSplit(replies, from + 1, a - 1, b); }
  }

  /** The store after the calls that took effect. */
  function Reached(w: World, replies: nat -> Reply, from: nat, ms: seq<Mutation>, st0: Store): Store {
    Run(w, ms[..Landed(replies, from, |ms|)], st0)
  }

  class Remote {
    const world: World
    const replies: nat -> Reply
    var store: Store
    var sent: nat

    constructor (world: World, replies: nat -> Reply, store: Store)
      ensures this.world == world && this.replies == replies && this.store == store && sent == 0
    {
      this.world, this.replies, this.store, this.sent := world, replies, store, 0;
    }

    /** Since call number `from`, when the store was `st0`, the calls `ms` were sent up to the first that threw. */
    ghost predicate Ran(ms: seq<Mutation>, from: nat, st0: Store)
      reads this
    {
      && sent == from + Tried(replies, from, |ms|)
      && store == Reached(world, replies, from, ms, st0)
    }

    method Send(m: Mutation) returns (ok: bool)
      modifies this
      ensures sent == old(sent) + 1 && ok == replies(old(sent)).Done?
      ensures store == if replies(old(sent)).Lost? then old(store) else Effect(world, m, old(store))
    {
      var reply := replies(sent);
      if !reply.Lost? { store := Effect(world, m, store); }
      sent := sent + 1;
      ok := reply.Done?;
    }
  }

  lemma RunSnoc(w: World, ms: seq<Mutation>, m: Mutation, st: Store)
    ensures Run(w, ms + [m], st) == Effect(w, m, Run(w, ms, st))
  {
    RunConcat(w, ms, [m], st);
  }

  lemma SliceOn(a: seq<Mutation>, b: seq<Mutation>, k: nat)
    requires k <= |b|
    ensures (a + b)[..|a| + k] == a + b[..k]
  {
  }

  lemma RunPart(w: World, done: seq<Mutation>, calls: seq<Mutation>, both: seq<Mutation>, k: nat, st0: Store)
    requires both == done + calls && k <= |calls|
    ensures Run(w, both[..|done| + k], st0) == Run(w, calls[..k], Run(w, done, st0))
  {
    SliceOn(done, calls, k);
    RunConcat(w, done, calls[..k], st0);
  }

  lemma CountsAll(replies: nat -> Reply, from: nat, a: nat, n: nat)
    requires a <= n && Acknowledged(replies, from, a) < a
    ensures Acknowledged(replies, from, n) == Acknowledged(replies, from, a)
    ensures Tried(replies, from, n) == Tried(replies, from, a) && Landed(replies, from, n) == Landed(replies, from, a)
  {
    AcknowledgedSplit(replies, from, a, n - a);
  }

  /** A run stopped within some first calls is the run of all of them. */
  lemma RanAll(replies: nat -> Reply, from: nat, some: seq<Mutation>, all: seq<Mutation>)
    requires some <= all && Acknowledged(replies, from, |some|) < |some|
    ensures Acknowledged(replies, from, |all|) == Acknowledged(replies, from, |some|)
    ensures Tried(replies, from, |all|) == Tried(replies, from, |some|)
    ensures all[..Landed(replies, from, |all|)] == some[..Landed(replies, from, |some|)]
  {
    CountsAll(replies, from, |some|, |all|);
    var k := Landed(replies, from, |some|);
    assert all[..k] == some[..k];
  }

  /** Sends calls one by one, up to the first exception. */
  method SendEach(remote: Remote, ms: seq<Mutation>) returns (ok: bool)
    modifies remote
    ensures remote.Ran(ms, old(remote.sent), old(remote.store))
    ensures ok <==> Acknowledged(remote.replies, old(remote.sent), |ms|) == |ms|
  {
    ghost var from := remote.sent;
    ok := true;
    for i := 0 to |ms|
      invariant ok && remote.sent == from + i && remote.store == Run(remote.world, ms[..i], old(remote.store))
      invariant forall j | from <= j < from + i :: remote.replies(j).Done?
    {
      assert ms[..i + 1] == ms[..i] + [ms[i]];
      RunSnoc(remote.world, ms[..i], ms[i], old(remote.store));
      ok := remote.Send(ms[i]);
      if !ok {
        AcknowledgedIff(remote.replies, from, |ms|, i);
        return;
      }
    }
    assert ms[..|ms|] == ms;
    AcknowledgedIff(remote.replies, from, |ms|, |ms|);
  }

  /** The calls of one planned operation, in the order the tool makes them. */
  method CarryOut(before: Snapshot, d: Desired, s: Surface, remote: Remote) returns (ok: bool)
    requires Requested(d, s)
    modifies remote
    ensures var ms := PlannedCalls(before, d, s);
      && remote.Ran(ms, old(remote.sent), old(remote.store))
      && (ok <==> Acknowledged(remote.replies, old(remote.sent), |ms|) == |ms|)
  {
    match s {
      case IssueTypes => ok := SendEach(remote, [SetIssueType(d.issueType.value)]);
      case Milestones => ok := SendEach(remote, [SetMilestone(d.milestone.value, before.contentType.Issue?)]);
      case Assignees => ok := SendEach(remote, [ReplaceAssignees(d.assignees.value)]);
      case Reviewers =>
        var diff := ArrayDifference(before.reviewers, d.reviewers.value, ReviewerKey);
        var calls := [];
        if diff.add != [] { calls := calls + [RequestReviewers(diff.add)]; }
        if diff.remove != [] { calls := calls + [RemoveReviewers(diff.remove)]; }
        assert calls == PlannedCalls(before, d, Reviewers);
        ok := SendEach(remote, calls);
      case ParentIssue =>
        var calls := [];
        if d.parentIssue.value.None? && before.parentIssue.Some? {
          calls := [RemoveSubIssue(before.parentIssue.value.id, before.id)];
        } else if d.parentIssue.value.Some? {
          calls := [AddSubIssue(d.parentIssue.value.value.id, before.id)];
        }
        assert calls == PlannedCalls(before, d, ParentIssue);
        ok := SendEach(remote, calls);
      case SubIssues =>
        var diff := ArrayDifference(before.subIssues, d.subIssues.value, UrlOf);
        ok := SendEach(remote, Detach(before.id, diff.remove) + Attach(before.id, diff.add));
    }
  }

  function Mark(op: Operation): Operation {
    if op.status.Planned?
    then op.(status := Applied, actions := seq(|op.actions|, i requires 0 <= i < |op.actions| => op.actions[i].(applied := true)))
    else op
  }

  /** The operations with the first `k` of them marked. */
  function MarkFirst(ops: seq<Operation>, k: nat): (marked: seq<Operation>)
    ensures |marked| == |ops| && forall i | 0 <= i < |ops| :: marked[i] == if i < k then Mark(ops[i]) else ops[i]
  {
    seq(|ops|, i requires 0 <= i < |ops| => if i < k then Mark(ops[i]) else ops[i])
  }

  predicate Sendable(d: Desired, ops: seq<Operation>) {
    forall op | op in ops && op.status.Planned? :: Requested(d, op.surface)
  }

  function CallsOf(before: Snapshot, d: Desired, op: Operation): seq<Mutation>
    requires op.status.Planned? ==> Requested(d, op.surface)
  {
    if op.status.Planned? then PlannedCalls(before, d, op.surface) else []
  }

  /** All the calls of a plan, in order. */
  function Script(before: Snapshot, d: Desired, ops: seq<Operation>): seq<Mutation>
    requires Sendable(d, ops)
  {
    if ops == [] then []
    else Script(before, d, ops[..|ops| - 1]) + CallsOf(before, d, ops[|ops| - 1])
  }

  lemma {:induction false} ScriptSnoc(before: Snapshot, d: Desired, ops: seq<Operation>, i: nat)
    requires i < |ops| && Sendable(d, ops)
    ensures Sendable(d, ops[..i]) && Sendable(d, ops[..i + 1])
    ensures Script(before, d, ops[..i + 1]) == Script(before, d, ops[..i]) + CallsOf(before, d, ops[i])
    ensures MarkFirst(ops, i)[i := Mark(ops[i])] == MarkFirst(ops, i + 1)
    ensures MarkFirst(ops, i)[i] == ops[i] && MarkFirst(ops, i)[i := ops[i]] == MarkFirst(ops, i)
  {
    assert ops[..i + 1][..i] == ops[..i] && ops[..i + 1][i] == ops[i];
  }

  /** One operation: carried out and marked when it is planned, passed over otherwise. */
  method ApplyOne(before: Snapshot, d: Desired, operations: array<Operation>, i: nat, remote: Remote)
    returns (ok: bool)
    requires i < operations.Length && (operations[i].status.Planned? ==> Requested(d, operations[i].surface))
    modifies operations, remote
    ensures operations[..] == old(operations[..])[i := if ok then Mark(old(operations[i])) else old(operations[i])]
    ensures var calls := CallsOf(before, d, old(operations[i]));
      && remote.Ran(calls, old(remote.sent), old(remote.store))
      && (ok <==> Acknowledged(remote.replies, old(remote.sent), |calls|) == |calls|)
  {
    ok := true;
    var op := operations[i];
    if op.status.Planned? {
      ok := CarryOut(before, d, op.surface, remote);
      if ok { operations[i] := Mark(op); }
    }
  }

  lemma {:induction false} ScriptPrefix(before: Snapshot, d: Desired, ops: seq<Operation>, k: nat)
    requires k <= |ops| && Sendable(d, ops)
    ensures Sendable(d, ops[..k]) && Script(before, d, ops[..k]) <= Script(before, d, ops)
  {
    if k < |ops| {
      var init := ops[..|ops| - 1];
      ScriptPrefix(before, d, init, k);
      assert init[..k] == ops[..k];
    } else {
      assert ops[..k] == ops;
    }
  }

  /** The run has got through the operations before `at` and stops, if at all, inside the one at `at`. */
  predicate StopsAt(before: Snapshot, d: Desired, ops: seq<Operation>, at: nat, acknowledged: nat)
    requires Sendable(d, ops)
  {
    && at <= |ops|
    && Sendable(d, ops[..at]) && |Script(before, d, ops[..at])| <= acknowledged
    && (at < |ops| ==>
          && ops[at].status.Planned?
          && acknowledged < |Script(before, d, ops[..at])| + |PlannedCalls(before, d, ops[at].surface)|)
  }

  /** One operation of a list of which the first `i` are marked. */
  method ApplyAt(before: Snapshot, d: Desired, operations: array<Operation>, ghost ops: seq<Operation>, i: nat, remote: Remote)
    returns (ok: bool)
    requires i < operations.Length == |ops| && Sendable(d, ops) && operations[..] == MarkFirst(ops, i)
    modifies operations, remote
    ensures operations[..] == MarkFirst(ops, if ok then i + 1 else i)
    ensures !ok ==> ops[i].status.Planned?
    ensures ops[i].status.Planned? ==> Requested(d, ops[i].surface)
    ensures var calls := CallsOf(before, d, ops[i]);
      && remote.Ran(calls, old(remote.sent), old(remote.store))
      && (ok <==> Acknowledged(remote.replies, old(remote.sent), |calls|) == |calls|)
  {
    assert operations[i] == operations[..][i] == ops[i] && ops[i] in ops;
    ScriptSnoc(before, d, ops, i);
    ok := ApplyOne(before, d, operations, i, remote);
  }

  lemma StopsInside(before: Snapshot, d: Desired, ops: seq<Operation>, i: nat)
    requires i < |ops| && Sendable(d, ops)
    ensures Sendable(d, ops[..i]) && Sendable(d, ops[..i + 1])
    ensures Script(before, d, ops[..i + 1]) == Script(before, d, ops[..i]) + CallsOf(before, d, ops[i])
    ensures Script(before, d, ops[..i + 1]) <= Script(before, d, ops)
  {
    ScriptSnoc(before, d, ops, i);
    ScriptPrefix(before, d, ops, i + 1);
  }

  lemma {:induction false} CountsJoin(replies: nat -> Reply, from: nat, sent: nat, a: nat, b: nat, n: nat)
    requires Acknowledged(replies, from, a) == a && sent == from + a && n == a + b
    ensures Acknowledged(replies, from, n) == a + Acknowledged(replies, sent, b)
    ensures from + Tried(replies, from, n) == sent + Tried(replies, sent, b)
    ensures Landed(replies, from, n) == a + Landed(replies, sent, b)
  {
    AcknowledgedSplit(replies, from, a, b);
  }

  lemma ReachedJoin(w: World, replies: nat -> Reply, from: nat, sent: nat, done: seq<Mutation>, calls: seq<Mutation>,
                    both: seq<Mutation>, st0: Store)
    requires both == done + calls && sent == from + |done|
    requires Landed(replies, from, |both|) == |done| + Landed(replies, sent, |calls|)
    ensures Reached(w, replies, from, both, st0) == Reached(w, replies, sent, calls, Run(w, done, st0))
  {
    RunPart(w, done, calls, both, Landed(replies, sent, |calls|), st0);
  }

  /** Calls sent after others that are all done: both together were sent. */
  lemma RanJoin(remote: Remote, from: nat, st0: Store, sent: nat, store: Store, done: seq<Mutation>, calls: seq<Mutation>,
                both: seq<Mutation>)
    requires both == done + calls && Acknowledged(remote.replies, from, |done|) == |done|
    requires sent == from + |done| && store == Run(remote.world, done, st0) && remote.Ran(calls, sent, store)
    ensures remote.Ran(both, from, st0) && |both| == |done| + |calls|
    ensures Acknowledged(remote.replies, from, |both|) == |done| + Acknowledged(remote.replies, sent, |calls|)
  {
    CountsJoin(remote.replies, from, sent, |done|, |calls|, |both|);
    ReachedJoin(remote.world, remote.replies, from, sent, done, calls, both, st0);
  }

  lemma RanStopped(before: Snapshot, d: Desired, ops: seq<Operation>, i: nat, remote: Remote, from: nat, st0: Store)
    requires i < |ops| && Sendable(d, ops) && Sendable(d, ops[..i]) && Sendable(d, ops[..i + 1]) && ops[i].status.Planned?
    requires var so := Script(before, d, ops[..i + 1]);
      |Script(before, d, ops[..i])| <= Acknowledged(remote.replies, from, |so|) < |so| && remote.Ran(so, from, st0)
    ensures var all := Script(before, d, ops);
      && remote.Ran(all, from, st0) && Acknowledged(remote.replies, from, |all|) < |all|
      && StopsAt(before, d, ops, i, Acknowledged(remote.replies, from, |all|))
  {
    StopsInside(before, d, ops, i);
    RanAll(remote.replies, from, Script(before, d, ops[..i + 1]), Script(before, d, ops));
  }

  /**
   Carries out the planned operations in order and marks them as it goes, up to the first
   call that throws.  How far it gets, and all that it leaves behind, follows from the
   replies: the operations before `at` are marked, and those after it were never started.
   */
  method ApplyOperations(before: Snapshot, d: Desired, operations: array<Operation>, remote: Remote)
    returns (ok: bool, ghost at: nat)
    requires Sendable(d, operations[..])
    modifies operations, remote
    ensures remote.Ran(Script(before, d, old(operations[..])), old(remote.sent), old(remote.store))
    ensures var all := Script(before, d, old(operations[..]));
      var acknowledged := Acknowledged(remote.replies, old(remote.sent), |all|);
      && (ok <==> acknowledged == |all|) && (ok <==> at == operations.Length)
      && StopsAt(before, d, old(operations[..]), at, acknowledged)
    ensures operations[..] == MarkFirst(old(operations[..]), at)
  {
    ghost var ops, from := operations[..], remote.sent;
    ok, at := true, 0;
    for i := 0 to operations.Length
      invariant ok && at == i && operations[..] == MarkFirst(ops, i) && Sendable(d, ops[..i])
      invariant remote.Ran(Script(before, d, ops[..i]), from, old(remote.store))
      invariant Acknowledged(remote.replies, from, |Script(before, d, ops[..i])|) == |Script(before, d, ops[..i])|
    {
      StopsInside(before, d, ops, i);
      ghost var done := Script(before, d, ops[..i]);
      assert done[..|done|] == done;
      ghost var sent, store := remote.sent, remote.store;
      ok := ApplyAt(before, d, operations, ops, i, remote);
      RanJoin(remote, from, old(remote.store), sent, store, done, CallsOf(before, d, ops[i]), Script(before, d, ops[..i + 1]));
      if !ok {
        RanStopped(before, d, ops, i, remote, from, old(remote.store));
        return;
      }
      at := i + 1;
    }
    assert ops[..operations.Length] == ops;
  }
}
