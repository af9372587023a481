/**
 One run of the metadata tool: normalize the request, plan, apply, verify with a bounded
 number of reads, and sum up.
 */
module MetadataRun {
  import opened Options
  import opened Texts
  import opened SortedLists
  import opened MetadataModel
  import opened MetadataPlan
  import opened MetadataSurfaces
  import opened MetadataGoals
  import opened MetadataApply
  import opened MetadataOutcome
  import opened MetadataVerify

  // ---------------------------------------------------------------- the request

  predicate EndsLine(c: char) { c == '\n' || c == '\r' || c as int == 0x2028 || c as int == 0x2029 }

  /** A caret in front of a character of the same line stands for that character. */
  function Unescape(s: string): string {
    if s == [] then []
    else if |s| > 1 && s[0] == '^' && !EndsLine(s[1]) then [s[1]] + Unescape(s[2..])
    else [s[0]] + Unescape(s[1..])
  }

  function DropCaret(s: string): string {
    if s != [] && s[|s| - 1] == '^' then s[..|s| - 1] else s
  }

  /** A command-line value: trimmed, and rid of the shell's carets. */
  function CliText(value: string): string {
    var t := Trim(value);
    if '^' in t then Trim(DropCaret(Unescape(t))) else t
  }

  /** The values that are not blank, each in its first spelling. */
  function FirstSpellings(values: seq<string>): seq<string> {
    if values == [] then [] else
    var kept, t := FirstSpellings(values[..|values| - 1]), CliText(values[|values| - 1]);
    if t == "" || Fold(t) in Keys(kept, Fold) then kept else kept + [t]
  }

  /** Nothing is kept twice, nothing but blanks is lost, and nothing is made up. */
  lemma {:induction false} FirstSpellingsFacts(values: seq<string>)
    ensures Distinct(Keys(FirstSpellings(values), Fold))
    ensures forall v | v in values && CliText(v) != "" :: Fold(CliText(v)) in Keys(FirstSpellings(values), Fold)
    ensures forall x | x in FirstSpellings(values) :: x != "" && exists v :: v in values && CliText(v) == x
  {
    if values != [] {
      var init, last := values[..|values| - 1], values[|values| - 1];
      var kept := FirstSpellings(init);
      FirstSpellingsFacts(init);
      assert Keys(kept + [CliText(last)], Fold) == Keys(kept, Fold) + [Fold(CliText(last))];
      assert forall v :: v in values <==> v in init || v == last;
    }
  }

  /** A spelling once kept stays, in place, whatever follows it. */
  lemma {:induction false} EarlierSpellingStays(values: seq<string>, more: seq<string>)
    ensures FirstSpellings(values) <= FirstSpellings(values + more)
    decreases more
  {
    if more == [] {
      assert values + more == values;
    } else {
      var shorter := values + more[..|more| - 1];
      assert values + more == shorter + [more[|more| - 1]];
      EarlierSpellingStays(values, more[..|more| - 1]);
      OneMoreSpelling(shorter, more[|more| - 1]);
    }
  }

  lemma OneMoreSpelling(values: seq<string>, v: string)
    ensures FirstSpellings(values) <= FirstSpellings(values + [v])
  {
    assert (values + [v])[..|values|] == values;
  }

  /** Reads each value, drops blanks, keeps the first spelling of everything, and sorts. */
  method NormalizeUniqueStrings(le: Order, values: seq<string>) returns (normalized: seq<string>)
    requires Total(le)
    ensures normalized == Sort(le, Itself, FirstSpellings(values))
    ensures Ordered(le, normalized) && Distinct(Keys(normalized, Fold))
    ensures forall v | v in values && CliText(v) != "" :: Fold(CliText(v)) in Keys(normalized, Fold)
  {
    var seen: set<string> := {};
    var kept: seq<string> := [];
    for i := 0 to |values|
      invariant kept == FirstSpellings(values[..i]) && seen == Members(Keys(kept, Fold))
    {
      assert values[..i + 1][..i] == values[..i];
      var trimmed := CliText(values[i]);
      if trimmed != "" && Fold(trimmed) !in seen {
        assert Keys(kept + [trimmed], Fold) == Keys(kept, Fold) + [Fold(trimmed)];
        seen, kept := seen + {Fold(trimmed)}, kept + [trimmed];
      }
    }
    assert values[..|values|] == values;
    normalized := Sort(le, Itself, kept);
    FirstSpellingsFacts(values);
    SortOrdered(le, Itself, kept);
    SortKeys(le, Itself, kept, Fold);
    assert Keys(normalized, Itself) == normalized;
  }

  // ---------------------------------------------------------------- verification

  datatype ExecutionStatus = Pass | Fail | PlannedOnly | Error

  /** The number of reads that the environment asks for, or five. */
  function VerifyAttempts(parsed: Option<int>): (n: nat)
    ensures n > 0
  {
    if parsed.Some? && parsed.value > 0 then parsed.value else 5
  }

  /** The verdict of the reads from number `k` on: that of the first that verifies or throws. */
  function VerdictFrom(expected: Snapshot, ops: seq<Operation>, queries: nat -> Option<Snapshot>, k: nat, maxAttempts: nat): ExecutionStatus
    requires k <= maxAttempts
    decreases maxAttempts - k
  {
    if k == maxAttempts then Fail
    else if queries(k).None? then Error
    else if Verified(expected, queries(k).value, ops) then Pass
    else VerdictFrom(expected, ops, queries, k + 1, maxAttempts)
  }

  /** A read that neither verifies nor throws. */
  predicate Stale(expected: Snapshot, ops: seq<Operation>, query: Option<Snapshot>) {
    query.Some? && !Verified(expected, query.value, ops)
  }

  lemma {:induction false} VerdictSkips(expected: Snapshot, ops: seq<Operation>, queries: nat -> Option<Snapshot>, k: nat, maxAttempts: nat)
    requires k <= maxAttempts && forall j | 0 <= j < k :: Stale(expected, ops, queries(j))
    ensures VerdictFrom(expected, ops, queries, 0, maxAttempts) == VerdictFrom(expected, ops, queries, k, maxAttempts)
  {
    if k > 0 { VerdictSkips(expected, ops, queries, k - 1, maxAttempts); }
  }

  /** Reads until a read verifies, at most as often as it is told; a read that throws ends the loop. */
  method VerifyAfterState(expected: Snapshot, ops: seq<Operation>, queries: nat -> Option<Snapshot>, parsed: Option<int>)
    returns (threw: bool, ok: bool, attempts: nat)
    ensures 1 <= attempts <= VerifyAttempts(parsed)
    ensures forall k | 0 <= k < attempts - 1 :: Stale(expected, ops, queries(k))
    ensures threw <==> queries(attempts - 1).None?
    ensures !threw ==> ok == Verified(expected, queries(attempts - 1).value, ops)
    ensures !threw && !ok ==> attempts == VerifyAttempts(parsed)
    ensures VerdictFrom(expected, ops, queries, 0, VerifyAttempts(parsed)) == if threw then Error else if ok then Pass else Fail
  {
    var maxAttempts := VerifyAttempts(parsed);
    threw, ok, attempts := false, false, 0;
    while attempts < maxAttempts && !ok && !threw
      invariant attempts <= maxAttempts && (attempts == 0 ==> !threw && !ok)
      invariant forall k | 0 <= k < attempts - 1 :: Stale(expected, ops, queries(k))
      invariant attempts > 0 ==> (threw <==> queries(attempts - 1).None?)
      invariant attempts > 0 && !threw ==> ok == Verified(expected, queries(attempts - 1).value, ops)
      decreases maxAttempts - attempts
    {
      var observed := queries(attempts);
      attempts := attempts + 1;
      threw := observed.None?;
      if observed.Some? {
        var surfaces := VerifyFields(expected, observed.value, ops);
        ok := surfaces == [];
      }
    }
    VerdictSkips(expected, ops, queries, attempts - 1, maxAttempts);
  }

  /** The checked surfaces that differ. */
  method VerifyFields(expected: Snapshot, actual: Snapshot, ops: seq<Operation>) returns (differing: seq<Surface>)
    ensures forall s :: s in differing <==> Checked(ops, s) && !SameSurface(expected, actual, s)
    ensures differing == [] <==> Verified(expected, actual, ops)
  {
    differing := [];
    for i := 0 to |ops|
      invariant forall s :: s in differing <==>
                  !SameSurface(expected, actual, s) &&
                  exists j :: 0 <= j < i && ops[j].surface == s && ops[j].requested && ops[j].applicable
    {
      if ops[i].requested && ops[i].applicable && !SameSurface(expected, actual, ops[i].surface) {
        differing := differing + [ops[i].surface];
      }
    }
    forall s ensures s in differing <==> Checked(ops, s) && !SameSurface(expected, actual, s) {
      assert (exists j :: 0 <= j < |ops| && ops[j].surface == s && ops[j].requested && ops[j].applicable) <==> Checked(ops, s);
    }
    EmptyIff(differing);
  }

  // ---------------------------------------------------------------- the whole run

  predicate Blocked(ops: seq<Operation>) {
    exists op :: op in ops && (op.status.Failed? || op.status.Unsupported?)
  }

  function Verdict(le: Order, before: Snapshot, d: Desired, queries: nat -> Option<Snapshot>, parsed: Option<int>): ExecutionStatus {
    VerdictFrom(Project(le, before, d, Plan(before, d)), Plan(before, d), queries, 0, VerifyAttempts(parsed))
  }

  ghost predicate AllFaithful(w: World, before: Snapshot, d: Desired) {
    forall s | Actionable(before, d, s) :: Faithful(w, d, s)
  }

  /** Within the budget some read sees the store, and none before it throws. */
  ghost predicate SomeReadSees(w: World, st: Store, queries: nat -> Option<Snapshot>, n: nat) {
    exists k | 0 <= k < n :: (forall j | 0 <= j <= k :: queries(j).Some?) && Reads(w, st, queries(k).value)
  }

  /** Within the budget every read sees the store. */
  ghost predicate EveryReadSees(w: World, st: Store, queries: nat -> Option<Snapshot>, n: nat) {
    forall k | 0 <= k < n :: queries(k).Some? && Reads(w, st, queries(k).value)
  }

  lemma {:induction false} VerdictPasses(expected: Snapshot, ops: seq<Operation>, queries: nat -> Option<Snapshot>, k: nat, n: nat, i: nat)
    requires k <= i < n && (forall j | k <= j <= i :: queries(j).Some?) && Verified(expected, queries(i).value, ops)
    ensures VerdictFrom(expected, ops, queries, k, n).Pass?
    decreases i - k
  {
    if k < i && !Verified(expected, queries(k).value, ops) { VerdictPasses(expected, ops, queries, k + 1, n, i); }
  }

  /** When the reads all agree on whether they verify, so does the verdict. */
  lemma VerdictUniform(expected: Snapshot, ops: seq<Operation>, queries: nat -> Option<Snapshot>, n: nat, good: bool)
    requires n > 0 && forall k | 0 <= k < n :: queries(k).Some? && (Verified(expected, queries(k).value, ops) <==> good)
    ensures VerdictFrom(expected, ops, queries, 0, n) == if good then Pass else Fail
  {
    if good { assert queries(0).Some?; } else { VerdictSkips(expected, ops, queries, n, n); }
  }

  lemma {:induction false} FaithfulPasses(w: World, st0: Store, before: Snapshot, d: Desired, queries: nat -> Option<Snapshot>, n: nat)
    requires Lawful(w) && Resolved(w, d) && Reads(w, st0, before) && AllFaithful(w, before, d)
    requires SomeReadSees(w, Run(w, FullScript(before, d), st0), queries, n)
    ensures VerdictFrom(Project(w.le, before, d, Plan(before, d)), Plan(before, d), queries, 0, n).Pass?
  {
    var st := Run(w, FullScript(before, d), st0);
    var k :| 0 <= k < n && (forall j | 0 <= j <= k :: queries(j).Some?) && Reads(w, st, queries(k).value);
    ApplyRefinesProjection(w, st0, before, d, queries(k).value);
    VerdictPasses(Project(w.le, before, d, Plan(before, d)), Plan(before, d), queries, 0, n, k);
  }

  lemma {:induction false} SeenVerdict(w: World, st0: Store, before: Snapshot, d: Desired, queries: nat -> Option<Snapshot>, n: nat)
    requires Lawful(w) && Resolved(w, d) && Reads(w, st0, before) && n > 0
    requires EveryReadSees(w, Run(w, FullScript(before, d), st0), queries, n)
    ensures VerdictFrom(Project(w.le, before, d, Plan(before, d)), Plan(before, d), queries, 0, n) ==
            if AllFaithful(w, before, d) then Pass else Fail
  {
    var ops, expected := Plan(before, d), Project(w.le, before, d, Plan(before, d));
    forall k | 0 <= k < n
      ensures queries(k).Some? && (Verified(expected, queries(k).value, ops) <==> AllFaithful(w, before, d))
    {
      ApplyRefinesProjection(w, st0, before, d, queries(k).value);
    }
    VerdictUniform(expected, ops, queries, n, AllFaithful(w, before, d));
  }

  /**
   A plan carried out in full: a faithful request passes as soon as some read sees the
   store; and when every read sees it, the run passes if the request is faithful on the
   surfaces it acts on, and fails if it is not.
   */
  lemma {:induction false} FullRunVerdict(w: World, st0: Store, before: Snapshot, d: Desired, queries: nat -> Option<Snapshot>, parsed: Option<int>)
    requires Lawful(w) && Resolved(w, d) && Reads(w, st0, before)
    ensures var st := Run(w, FullScript(before, d), st0);
      && (AllFaithful(w, before, d) && SomeReadSees(w, st, queries, VerifyAttempts(parsed)) ==>
            Verdict(w.le, before, d, queries, parsed).Pass?)
      && (EveryReadSees(w, st, queries, VerifyAttempts(parsed)) ==>
            Verdict(w.le, before, d, queries, parsed) == if AllFaithful(w, before, d) then Pass else Fail)
  {
    var st, n := Run(w, FullScript(before, d), st0), VerifyAttempts(parsed);
    if AllFaithful(w, before, d) && SomeReadSees(w, st, queries, n) { FaithfulPasses(w, st0, before, d, queries, n); }
    if EveryReadSees(w, st, queries, n) { SeenVerdict(w, st0, before, d, queries, n); }
  }

  /** No call of the plan throws. */
  predicate Completes(before: Snapshot, d: Desired, replies: nat -> Reply, from: nat) {
    Acknowledged(replies, from, |FullScript(before, d)|) == |FullScript(before, d)|
  }

  /** The operations before `at` are done with `acknowledged` calls; unless `at` is the end, the next one is not. */
  predicate CutsAt(before: Snapshot, d: Desired, at: nat, acknowledged: nat) {
    PlanSendable(before, d);
    StopsAt(before, d, Plan(before, d), at, acknowledged) && (at == |SURFACES| <==> acknowledged == |FullScript(before, d)|)
  }

  lemma FullScriptIs(before: Snapshot, d: Desired)
    ensures Sendable(d, Plan(before, d)) && FullScript(before, d) == Script(before, d, Plan(before, d))
  {
    var ops := Plan(before, d);
    PlanSendable(before, d);
    assert ops[..|SURFACES|] == ops;
    assert Script(before, d, ops) + [] == Script(before, d, ops);
  }

  lemma {:induction false} FullRun(before: Snapshot, d: Desired, remote: Remote, from: nat, st0: Store, queries: nat -> Option<Snapshot>, parsed: Option<int>)
    requires Completes(before, d, remote.replies, from) && remote.Ran(FullScript(before, d), from, st0)
    ensures Lawful(remote.world) && Resolved(remote.world, d) && Reads(remote.world, st0, before) ==>
              && (AllFaithful(remote.world, before, d) && SomeReadSees(remote.world, remote.store, queries, VerifyAttempts(parsed)) ==>
                    Verdict(remote.world.le, before, d, queries, parsed).Pass?)
              && (EveryReadSees(remote.world, remote.store, queries, VerifyAttempts(parsed)) ==>
                    Verdict(remote.world.le, before, d, queries, parsed) == if AllFaithful(remote.world, before, d) then Pass else Fail)
  {
    var script := FullScript(before, d);
    assert script[..|script|] == script;
    if Lawful(remote.world) && Resolved(remote.world, d) && Reads(remote.world, st0, before) {
      FullRunVerdict(remote.world, st0, before, d, queries, parsed);
    }
  }

  /** Carries out the plan, and reads the outcome if no call throws. */
  method ApplyAndVerify(before: Snapshot, d: Desired, operations: array<Operation>, remote: Remote,
                        queries: nat -> Option<Snapshot>, parsed: Option<int>)
    returns (status: ExecutionStatus, ghost at: nat)
    requires operations[..] == Plan(before, d)
    modifies operations, remote
    ensures var script := FullScript(before, d);
      var acknowledged := Acknowledged(remote.replies, old(remote.sent), |script|);
      && remote.Ran(script, old(remote.sent), old(remote.store))
      && CutsAt(before, d, at, acknowledged) && operations[..] == MarkFirst(Plan(before, d), at)
      && status == if acknowledged < |script| then Error else Verdict(remote.world.le, before, d, queries, parsed)
  {
    var ops := Plan(before, d);
    FullScriptIs(before, d);
    var ok;
    ok, at := ApplyOperations(before, d, operations, remote);
    if !ok { return Error, at; }
    var threw, verified, attempts := VerifyAfterState(Project(remote.world.le, before, d, ops), ops, queries, parsed);
    status := if threw then Error else if verified then Pass else Fail;
  }

  /**
   Plans, applies and verifies.  A dry run or a blocked plan sends nothing.  Otherwise the
   plan's calls are sent up to the first that throws, the operations before it are marked,
   and the status is an error if one threw and the verdict of the reads if none did.  So a
   run whose calls all go through passes exactly for faithful requests, once it is read.
   */
  method RunMetadataApply(dryRun: bool, before: Snapshot, d: Desired, remote: Remote,
                          queries: nat -> Option<Snapshot>, parsed: Option<int>)
    returns (status: ExecutionStatus, operations: array<Operation>, ghost at: nat)
    modifies remote
    ensures fresh(operations)
    ensures dryRun || Blocked(Plan(before, d)) ==>
              && remote.store == old(remote.store) && remote.sent == old(remote.sent)
              && operations[..] == Plan(before, d)
              && status == if Blocked(Plan(before, d)) then Fail else PlannedOnly
    ensures !dryRun && !Blocked(Plan(before, d)) ==>
              var script := FullScript(before, d);
              var acknowledged := Acknowledged(remote.replies, old(remote.sent), |script|);
              && remote.Ran(script, old(remote.sent), old(remote.store))
              && CutsAt(before, d, at, acknowledged) && operations[..] == MarkFirst(Plan(before, d), at)
              && status == if acknowledged < |script| then Error else Verdict(remote.world.le, before, d, queries, parsed)
    ensures !dryRun && !Blocked(Plan(before, d)) && Completes(before, d, remote.replies, old(remote.sent)) &&
            Lawful(remote.world) && Resolved(remote.world, d) && Reads(remote.world, old(remote.store), before) ==>
              && (AllFaithful(remote.world, before, d) && SomeReadSees(remote.world, remote.store, queries, VerifyAttempts(parsed)) ==>
                    status.Pass?)
              && (EveryReadSees(remote.world, remote.store, queries, VerifyAttempts(parsed)) ==>
                    status == if AllFaithful(remote.world, before, d) then Pass else Fail)
  {
    var ops := Plan(before, d);
    PlanSendable(before, d);
    operations := new Operation[|ops|](i requires 0 <= i < |ops| => ops[i]);
    assert operations[..] == ops;
    at := 0;
    var blocked := exists op :: op in ops && (op.status.Failed? || op.status.Unsupported?);
    if dryRun || blocked {
      status := if blocked then Fail else PlannedOnly;
      return;
    }
    status, at := ApplyAndVerify(before, d, operations, remote, queries, parsed);
    if Completes(before, d, remote.replies, old(remote.sent)) {
      FullRun(before, d, remote, old(remote.sent), old(remote.store), queries, parsed);
    }
  }

  lemma {:induction false} MarkedStatus(before: Snapshot, d: Desired, at: nat, op: Operation)
    requires at <= |SURFACES| && op in MarkFirst(Plan(before, d), at)
    ensures op.status.Applied? ==> Index(op.surface) < at && IsPlanned(before, d, op.surface)
    ensures op.status.Planned? ==> at <= Index(op.surface)
  {
    var ops := Plan(before, d);
    var i := MarkedAt(ops, at, op);
    SurfaceAt(i);
    assert ops[i] == PlanSurface(before, d, SURFACES[i]);
  }

  lemma MarkedAt(ops: seq<Operation>, at: nat, op: Operation) returns (i: nat)
    requires op in MarkFirst(ops, at)
    ensures i < |ops| && op == if i < at then Mark(ops[i]) else ops[i]
    ensures op.surface == ops[i].surface && (op.status.Applied? ==> ops[i].status.Applied? || (i < at && ops[i].status.Planned?))
    ensures op.status.Planned? ==> ops[i].status.Planned? && at <= i
  {
    i :| 0 <= i < |ops| && MarkFirst(ops, at)[i] == op;
  }

  /** A run cut short inside operation `at` is the calls before that operation and some of its own. */
  lemma {:induction false} CutProgress(before: Snapshot, d: Desired, at: nat, replies: nat -> Reply, from: nat) returns (some: seq<Mutation>)
    requires CutsAt(before, d, at, Acknowledged(replies, from, |FullScript(before, d)|)) && at < |SURFACES|
    ensures PartOf(before, d, at, some) && IsPlanned(before, d, SURFACES[at])
    ensures FullScript(before, d)[..Landed(replies, from, |FullScript(before, d)|)] == Progress(before, d, at, some)
  {
    var ops := Plan(before, d);
    FullScriptIs(before, d);
    StopsInside(before, d, ops, at);
    var done, calls := Script(before, d, ops[..at]), PlannedCalls(before, d, SURFACES[at]);
    var k := Landed(replies, from, |FullScript(before, d)|) - |done|;
    SliceOn(done, calls, k);
    some := calls[..k];
    TakeSlice(FullScript(before, d), done + calls, |done| + k);
  }

  lemma TakeSlice(all: seq<Mutation>, part: seq<Mutation>, k: nat)
    requires part <= all && k <= |part|
    ensures all[..k] == part[..k]
  {
  }

  /** In a run cut short, the operations marked applied hold and the later planned ones are untouched. */
  lemma {:induction false} CutRun(w: World, st0: Store, before: Snapshot, d: Desired, at: nat, replies: nat -> Reply, from: nat, op: Operation)
    requires Lawful(w) && Resolved(w, d) && Reads(w, st0, before)
    requires CutsAt(before, d, at, Acknowledged(replies, from, |FullScript(before, d)|)) && at < |SURFACES|
    requires forall s | Requested(d, s) :: s.Reviewers? ==> Faithful(w, d, s)
    requires op in MarkFirst(Plan(before, d), at)
    ensures var st := Reached(w, replies, from, FullScript(before, d), st0);
      && (op.status.Applied? ==> Requested(d, op.surface) && Achieved(w, d, op.surface, st))
      && (op.status.Planned? && op.surface != SURFACES[at] ==> SameValue(w, st, st0, op.surface))
  {
    MarkedStatus(before, d, at, op);
    var some := CutProgress(before, d, at, replies, from);
    if op.status.Applied? {
      FinishedHolds(w, st0, before, d, at, some, op.surface);
    } else if op.status.Planned? && op.surface != SURFACES[at] {
      UntouchedHolds(w, st0, before, d, at, some, op.surface);
    }
  }

  // ---------------------------------------------------------------- the summary

  datatype Summary = Summary(requested: nat, applied: nat, planned: nat, same: nat, unsupported: nat, failed: nat, skipped: nat)

  function Count(ops: seq<Operation>, status: Status): nat {
    if ops == [] then 0 else Count(ops[..|ops| - 1], status) + if ops[|ops| - 1].status == status then 1 else 0
  }

  function CountRequested(ops: seq<Operation>): nat {
    if ops == [] then 0 else CountRequested(ops[..|ops| - 1]) + if ops[|ops| - 1].requested then 1 else 0
  }

  method SummarizeOperations(ops: seq<Operation>) returns (s: Summary)
    ensures s.requested == CountRequested(ops)
    ensures s.applied == Count(ops, Applied) && s.planned == Count(ops, Planned) && s.same == Count(ops, Unchanged)
    ensures s.unsupported == Count(ops, Unsupported) && s.failed == Count(ops, Failed) && s.skipped == Count(ops, Skipped)
  {
    s := Summary(0, 0, 0, 0, 0, 0, 0);
    for i := 0 to |ops|
      invariant s.requested == CountRequested(ops[..i])
      invariant s.applied == Count(ops[..i], Applied) && s.planned == Count(ops[..i], Planned)
      invariant s.same == Count(ops[..i], Unchanged) && s.unsupported == Count(ops[..i], Unsupported)
      invariant s.failed == Count(ops[..i], Failed) && s.skipped == Count(ops[..i], Skipped)
    {
      assert ops[..i + 1][..i] == ops[..i];
      var op := ops[i];
      if op.requested { s := s.(requested := s.requested + 1); }
      match op.status {
        case Applied => s := s.(applied := s.applied + 1);
        case Planned => s := s.(planned := s.planned + 1);
        case Unchanged => s := s.(same := s.same + 1);
        case Unsupported => s := s.(unsupported := s.unsupported + 1);
        case Failed => s := s.(failed := s.failed + 1);
        case Skipped => s := s.(skipped := s.skipped + 1);
        case NotRequested =>
      }
    }
    assert ops[..|ops|] == ops;
  }

  lemma {:induction false} RequestedSplit(ops: seq<Operation>)
    requires forall op | op in ops :: op.requested == (op.status != NotRequested)
    ensures CountRequested(ops) == Count(ops, Applied) + Count(ops, Planned) + Count(ops, Unchanged) +
                                   Count(ops, Unsupported) + Count(ops, Failed) + Count(ops, Skipped)
  {
    if ops != [] {
      assert ops[|ops| - 1] in ops;
      RequestedSplit(ops[..|ops| - 1]);
    }
  }

  lemma PlanRequested(before: Snapshot, d: Desired, s: Surface)
    ensures var op := PlanSurface(before, d, s); op.requested == (op.status != NotRequested)
  {
  }

  lemma MarkRequested(op: Operation)
    requires op.requested == (op.status != NotRequested)
    ensures Mark(op).requested == (Mark(op).status != NotRequested)
  {
  }

  lemma MarkedRequested(before: Snapshot, d: Desired, at: nat, op: Operation)
    requires op in MarkFirst(Plan(before, d), at)
    ensures op.requested == (op.status != NotRequested)
  {
    var ops := Plan(before, d);
    var i := MarkedAt(ops, at, op);
    assert ops[i] == PlanSurface(before, d, SURFACES[i]);
    PlanRequested(before, d, SURFACES[i]);
    MarkRequested(ops[i]);
  }

  /** However far a plan has been carried out, its requested operations are those of the six other statuses. */
  lemma SummaryAddsUp(before: Snapshot, d: Desired, at: nat)
    ensures var ops := MarkFirst(Plan(before, d), at);
      CountRequested(ops) == Count(ops, Applied) + Count(ops, Planned) + Count(ops, Unchanged) +
                             Count(ops, Unsupported) + Count(ops, Failed) + Count(ops, Skipped)
  {
    var ops := MarkFirst(Plan(before, d), at);
    forall op | op in ops ensures op.requested == (op.status != NotRequested) { MarkedRequested(before, d, at, op); }
    RequestedSplit(ops);
  }
}
