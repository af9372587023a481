/**
 Watching a workflow run: polls that succeed or fail, two grace windows, and a bound on how
 long consecutive failures are put up with.
 */
module RunWatcher {
  import opened Texts
  import SortedLists

  datatype Reply = Success(completed: bool) | Failure(rateLimited: bool, message: string)

  /**
   One poll.  `began` is the clock when a failure may open a window, `tested` the clock when
   the window is measured.
   */
  datatype Poll = Poll(reply: Reply, began: int, tested: int)

  datatype Settings = Settings(pollMs: int, errorGrace: int, notFoundGrace: int)

  predicate IsNotFoundError(message: string) {
    ContainsFrom(Fold(message), 0, "404") || ContainsFrom(Fold(message), 0, "not found")
  }

  datatype End = Completed | RateLimited | NotFound | TooManyErrors

  /** A window that has not been opened is 0. */
  datatype State = Watching(loaded: bool, errorStart: int, notFoundStart: int) | Ended(end: End)

  const START := Watching(false, 0, 0)

  predicate Failed(p: Poll) { p.reply.Failure? }

  /** Whether a failure counts as the run not being there, in the given state. */
  predicate Misses(loaded: bool, p: Poll) {
    p.reply.Failure? && !p.reply.rateLimited && !loaded && IsNotFoundError(p.reply.message)
  }

  function Next(s: Settings, st: State, p: Poll): State {
    if st.Ended? then st else
    match p.reply
    case Success(completed) => if completed then Ended(Completed) else Watching(true, 0, 0)
    case Failure(_, _) =>
      if p.reply.rateLimited then Ended(RateLimited)
      else if Misses(st.loaded, p) then
        var start := if st.notFoundStart == 0 then p.began else st.notFoundStart;
        if p.tested - start >= s.notFoundGrace then Ended(NotFound) else st.(notFoundStart := start)
      else
        var start := if st.errorStart == 0 then p.began else st.errorStart;
        if p.tested - start >= s.errorGrace then Ended(TooManyErrors) else st.(errorStart := start)
  }

  function Watch(s: Settings, polls: seq<Poll>): State {
    if polls == [] then START else Next(s, Watch(s, polls[..|polls| - 1]), polls[|polls| - 1])
  }

  /** The clock is positive and never runs backwards, and polls are at least `pollMs` apart. */
  predicate Timed(s: Settings, polls: seq<Poll>) {
    && (forall i | 0 <= i < |polls| :: 0 < polls[i].began <= polls[i].tested)
    && (forall i | 0 < i < |polls| :: polls[i - 1].tested + s.pollMs <= polls[i].began)
  }

  /** Polls until the run completes or the watcher gives up, or the polls run out. */
  method WatchRun(s: Settings, polls: seq<Poll>) returns (state: State, count: nat)
    ensures count <= |polls| && state == Watch(s, polls[..count]) && (state.Watching? ==> count == |polls|)
    ensures count > 0 && state.Ended? ==> Watch(s, polls[..count - 1]).Watching?
  {
    var runDataLoaded, errorWindowStart, notFoundStart := false, 0, 0;
    state, count := START, 0;
    while count < |polls| && state.Watching?
      invariant count <= |polls| && state == Watch(s, polls[..count])
      invariant state.Watching? ==> state == Watching(runDataLoaded, errorWindowStart, notFoundStart)
      invariant count > 0 && state.Ended? ==> Watch(s, polls[..count - 1]).Watching?
      decreases |polls| - count
    {
      var poll := polls[count];
      assert polls[..count + 1][..count] == polls[..count] && polls[..count + 1][count] == poll;
      count := count + 1;
      match poll.reply {
        case Success(completed) =>
          runDataLoaded, errorWindowStart, notFoundStart := true, 0, 0;
          if completed { state := Ended(Completed); return; }
        case Failure(rateLimited, message) =>
          if rateLimited { state := Ended(RateLimited); return; }
          if !runDataLoaded && IsNotFoundError(message) {
            if notFoundStart == 0 { notFoundStart := poll.began; }
            if poll.tested - notFoundStart >= s.notFoundGrace { state := Ended(NotFound); return; }
          } else {
            if errorWindowStart == 0 { errorWindowStart := poll.began; }
            if poll.tested - errorWindowStart >= s.errorGrace { state := Ended(TooManyErrors); return; }
          }
      }
      state := Watching(runDataLoaded, errorWindowStart, notFoundStart);
    }
  }

  // ---------------------------------------------------------------- what has changed

  datatype Job = Job(id: string, name: string, status: string, conclusion: string)

  function JobItem(j: Job): string {
    j.id + ":" + j.name + ":" + j.status + ":" + j.conclusion
  }

  function JobItems(jobs: seq<Job>): (items: seq<string>)
    ensures |items| == |jobs| && forall i | 0 <= i < |jobs| :: items[i] == JobItem(jobs[i])
  {
    seq(|jobs|, i requires 0 <= i < |jobs| => JobItem(jobs[i]))
  }

  function Joined(items: seq<string>): string {
    if items == [] then "" else if |items| == 1 then items[0] else items[0] + "|" + Joined(items[1..])
  }

  function JobsSignature(le: SortedLists.Order, jobs: seq<Job>): string {
    if jobs == [] then "jobs:none" else Joined(SortedLists.Sort(le, SortedLists.Itself, JobItems(jobs)))
  }

  function Cut<T>(s: seq<T>, k: nat): seq<T>
    requires k < |s|
  {
    s[..k] + s[k + 1..]
  }

  lemma CutBag<T>(s: seq<T>, k: nat)
    requires k < |s|
    ensures multiset(s) == multiset(Cut(s, k)) + multiset{s[k]}
  {
    assert s == s[..k] + ([s[k]] + s[k + 1..]);
  }

  lemma CutItems(jobs: seq<Job>, k: nat)
    requires k < |jobs|
    ensures JobItems(Cut(jobs, k)) == Cut(JobItems(jobs), k)
  {
  }

  lemma {:induction false} ItemsBag(a: seq<Job>, b: seq<Job>)
    requires multiset(a) == multiset(b)
    ensures multiset(JobItems(a)) == multiset(JobItems(b))
    decreases |a|
  {
    assert |a| == |multiset(a)| && |b| == |multiset(b)|;
    if a != [] {
      assert a[0] in multiset(b);
      var k :| 0 <= k < |b| && b[k] == a[0];
      CutBag(a, 0);
      CutBag(b, k);
      assert multiset(Cut(a, 0)) == multiset(a) - multiset{a[0]};
      assert multiset(Cut(b, k)) == multiset(b) - multiset{a[0]};
      ItemsBag(Cut(a, 0), Cut(b, k));
      CutItems(a, 0);
      CutItems(b, k);
      CutBag(JobItems(a), 0);
      CutBag(JobItems(b), k);
    }
  }

  /** The jobs signature does not depend on the order in which the jobs are listed. */
  lemma SignatureUnordered(le: SortedLists.Order, a: seq<Job>, b: seq<Job>)
    requires SortedLists.Total(le) && multiset(a) == multiset(b)
    ensures JobsSignature(le, a) == JobsSignature(le, b)
  {
    assert |a| == |multiset(a)| && |b| == |multiset(b)|;
    ItemsBag(a, b);
    SortedLists.SortUnordered(le, JobItems(a), JobItems(b));
  }

  // ---------------------------------------------------------------- what an abort means

  predicate Succeeded(polls: seq<Poll>) {
    exists i :: 0 <= i < |polls| && polls[i].reply.Success?
  }

  lemma SucceededSnoc(polls: seq<Poll>)
    requires polls != []
    ensures Succeeded(polls) <==> Succeeded(polls[..|polls| - 1]) || polls[|polls| - 1].reply.Success?
  {
    var init := polls[..|polls| - 1];
    if Succeeded(init) {
      var i :| 0 <= i < |init| && init[i].reply.Success?;
      assert polls[i].reply.Success?;
    }
    if Succeeded(polls) {
      var i :| 0 <= i < |polls| && polls[i].reply.Success?;
      assert i < |init| ==> init[i].reply.Success?;
    }
  }

  /** While watching, the watcher has run data exactly when a poll has succeeded. */
  lemma {:induction false} LoadedIff(s: Settings, polls: seq<Poll>)
    ensures Watch(s, polls).Watching? ==> (Watch(s, polls).loaded <==> Succeeded(polls))
  {
    if polls != [] {
      LoadedIff(s, polls[..|polls| - 1]);
      SucceededSnoc(polls);
    }
  }

  /** Giving up on a missing run means that no poll ever succeeded. */
  lemma NotFoundMeansNever(s: Settings, polls: seq<Poll>)
    requires polls != [] && Watch(s, polls) == Ended(NotFound) && Watch(s, polls[..|polls| - 1]).Watching?
    ensures !Succeeded(polls)
  {
    LoadedIff(s, polls[..|polls| - 1]);
    SucceededSnoc(polls);
  }

  /** An open window was opened by a failure later than every success. */
  lemma {:induction false} WindowsOpenLate(s: Settings, polls: seq<Poll>)
    requires Timed(s, polls) && s.pollMs > 0
    ensures var st := Watch(s, polls);
      st.Watching? && st.errorStart != 0 ==>
        forall j | 0 <= j < |polls| && polls[j].reply.Success? :: polls[j].tested < st.errorStart
  {
    if polls != [] {
      var init, p := polls[..|polls| - 1], polls[|polls| - 1];
      WindowsOpenLate(s, init);
      var st, before := Watch(s, polls), Watch(s, init);
      if st.Watching? && st.errorStart != 0 {
        forall j | 0 <= j < |polls| && polls[j].reply.Success? ensures polls[j].tested < st.errorStart {
          assert j < |init| && init[j] == polls[j];
          if before.errorStart == 0 { Later(s, polls, j, |polls| - 1); }
        }
      }
    }
  }

  lemma {:induction false} Later(s: Settings, polls: seq<Poll>, i: nat, j: nat)
    requires Timed(s, polls) && s.pollMs > 0 && i < j < |polls|
    ensures polls[i].tested + s.pollMs <= polls[j].began
    decreases j
  {
    if i + 1 < j { Later(s, polls, i, j - 1); }
  }

  /** The poll that gives up on errors was measured a whole grace after its window opened. */
  lemma GivesUpLate(s: Settings, st: State, p: Poll)
    requires st.Watching? && Next(s, st, p) == Ended(TooManyErrors)
    ensures p.tested - (if st.errorStart == 0 then p.began else st.errorStart) >= s.errorGrace && !p.reply.Success?
  {
  }

  lemma SilentBefore(s: Settings, init: seq<Poll>, p: Poll, j: nat)
    requires Timed(s, init + [p]) && s.pollMs > 0 && Watch(s, init).Watching? && j < |init| && init[j].reply.Success?
    requires Timed(s, init)
    ensures init[j].tested < if Watch(s, init).errorStart == 0 then p.began else Watch(s, init).errorStart
  {
    WindowsOpenLate(s, init);
    if Watch(s, init).errorStart == 0 { Later(s, init + [p], j, |init|); }
  }

  lemma SilentUntil(s: Settings, init: seq<Poll>, p: Poll)
    requires Timed(s, init) && Timed(s, init + [p]) && s.pollMs > 0
    requires Watch(s, init).Watching? && Next(s, Watch(s, init), p) == Ended(TooManyErrors)
    ensures !p.reply.Success?
    ensures forall j | 0 <= j < |init| && init[j].reply.Success? :: p.tested - init[j].tested > s.errorGrace
  {
    GivesUpLate(s, Watch(s, init), p);
    forall j | 0 <= j < |init| && init[j].reply.Success? ensures p.tested - init[j].tested > s.errorGrace {
      SilentBefore(s, init, p, j);
    }
  }

  lemma TimedInit(s: Settings, polls: seq<Poll>)
    requires Timed(s, polls) && polls != []
    ensures Timed(s, polls[..|polls| - 1]) && polls[..|polls| - 1] + [polls[|polls| - 1]] == polls
  {
  }

  /** Giving up on errors means that nothing succeeded for the whole error grace. */
  lemma {:induction false} ErrorsMeanSilence(s: Settings, polls: seq<Poll>)
    requires Timed(s, polls) && s.pollMs > 0
    requires polls != [] && Watch(s, polls) == Ended(TooManyErrors) && Watch(s, polls[..|polls| - 1]).Watching?
    ensures forall j | 0 <= j < |polls| && polls[j].reply.Success? ::
              polls[|polls| - 1].tested - polls[j].tested > s.errorGrace
  {
    var init, p := polls[..|polls| - 1], polls[|polls| - 1];
    TimedInit(s, polls);
    SilentUntil(s, init, p);
    forall j | 0 <= j < |polls| && polls[j].reply.Success? ensures p.tested - polls[j].tested > s.errorGrace {
      assert j < |init| && init[j] == polls[j];
    }
  }

  // ---------------------------------------------------------------- the bound

  /** The least number of polls, `p` apart, that outlast a grace of `a`. */
  function Ceil(a: int, p: int): nat
    requires p > 0
  {
    if a <= 0 then 0 else (a + p - 1) / p
  }

  lemma MulOrder(a: int, b: int, p: int)
    requires p > 0 && a * p < b * p
    ensures a < b
  {
  }

  lemma CeilCovers(n: nat, a: int, p: int)
    requires p > 0 && n > 0 && (n - 1) * p < a
    ensures n <= Ceil(a, p)
  {
    var x := a + p - 1;
    assert n * p == (n - 1) * p + p <= x;
    assert x < (x / p + 1) * p;
    MulOrder(n, x / p + 1, p);
    assert (n - 1) * p >= 0;
  }

  function Latest(polls: seq<Poll>): int {
    if polls == [] then 0 else polls[|polls| - 1].tested
  }

  /** `n` failures, `p` apart, spread over a window opened by `now`, the last of them measured within its grace. */
  predicate Fills(start: int, grace: int, n: nat, p: int, last: int, now: int) {
    0 <= start <= now && (n > 0 ==> 0 < start && start + (n - 1) * p <= last <= now && last - start < grace)
  }

  predicate Filled(s: Settings, st: State, missed: nat, erred: nat, lastMissed: int, lastErred: int, now: int)
    requires st.Watching?
  {
    && Fills(st.notFoundStart, s.notFoundGrace, missed, s.pollMs, lastMissed, now)
    && Fills(st.errorStart, s.errorGrace, erred, s.pollMs, lastErred, now)
  }

  lemma FillOne(start: int, grace: int, n: nat, p: int, last: int, now: int, began: int, tested: int)
    requires Fills(start, grace, n, p, last, now) && p > 0 && now + p <= began <= tested
    ensures var since := if start == 0 then began else start;
      tested - since < grace ==> Fills(since, grace, n + 1, p, tested, tested)
    ensures Fills(start, grace, n, p, last, tested)
  {
    OneMore(n, p);
  }

  /** One more failure, at least `pollMs` after the last, takes one more place in its window. */
  lemma OneMoreFailure(s: Settings, st: State, p: Poll, missed: nat, erred: nat, lastMissed: int, lastErred: int, now: int)
    requires s.pollMs > 0 && st.Watching? && Next(s, st, p).Watching? && Failed(p) && now + s.pollMs <= p.began <= p.tested
    requires Filled(s, st, missed, erred, lastMissed, lastErred, now)
    ensures if Misses(st.loaded, p) then Filled(s, Next(s, st, p), missed + 1, erred, p.tested, lastErred, p.tested)
            else Filled(s, Next(s, st, p), missed, erred + 1, lastMissed, p.tested, p.tested)
  {
    FillOne(st.notFoundStart, s.notFoundGrace, missed, s.pollMs, lastMissed, now, p.began, p.tested);
    FillOne(st.errorStart, s.errorGrace, erred, s.pollMs, lastErred, now, p.began, p.tested);
  }

  lemma FirstFailure(s: Settings, p: Poll)
    requires s.pollMs > 0 && Next(s, START, p).Watching? && Failed(p) && 0 < p.began <= p.tested
    ensures if Misses(false, p) then Filled(s, Next(s, START, p), 1, 0, p.tested, 0, p.tested)
            else Filled(s, Next(s, START, p), 0, 1, 0, p.tested, p.tested)
  {
  }

  lemma {:induction false} WindowsSane(s: Settings, polls: seq<Poll>)
    requires s.pollMs > 0 && Timed(s, polls)
    ensures Watch(s, polls).Watching? ==> Filled(s, Watch(s, polls), 0, 0, 0, 0, Latest(polls))
  {
    if polls != [] {
      var n := |polls| - 1;
      TimedInit(s, polls);
      WindowsSane(s, polls[..n]);
      assert 0 < polls[n].began <= polls[n].tested;
      if n > 0 { assert polls[n - 1].tested + s.pollMs <= polls[n].began; }
    }
  }

  lemma FailureStep(s: Settings, all: seq<Poll>, missed: nat, erred: nat, lastMissed: int, lastErred: int)
    requires s.pollMs > 0 && Timed(s, all) && all != [] && Failed(all[|all| - 1]) && Watch(s, all).Watching?
    requires var init := all[..|all| - 1]; Filled(s, Watch(s, init), missed, erred, lastMissed, lastErred, Latest(init))
    ensures var p := all[|all| - 1];
      if Misses(Watch(s, all[..|all| - 1]).loaded, p)
      then Filled(s, Watch(s, all), missed + 1, erred, p.tested, lastErred, p.tested)
      else Filled(s, Watch(s, all), missed, erred + 1, lastMissed, p.tested, p.tested)
  {
    var n := |all| - 1;
    assert 0 < all[n].began <= all[n].tested;
    if n > 0 {
      assert all[n - 1].tested + s.pollMs <= all[n].began;
      OneMoreFailure(s, Watch(s, all[..n]), all[n], missed, erred, lastMissed, lastErred, Latest(all[..n]));
    } else {
      assert all[..n] == [];
      FirstFailure(s, all[n]);
    }
  }

  lemma FailuresInit(polls: seq<Poll>, init: seq<Poll>, k: nat)
    requires k < |polls| && init == polls[..|polls| - 1] && forall i | k <= i < |polls| :: Failed(polls[i])
    ensures forall i | k <= i < |init| :: Failed(init[i])
  {
  }

  lemma WatchInit(s: Settings, polls: seq<Poll>)
    requires polls != [] && Watch(s, polls).Watching?
    ensures Watch(s, polls[..|polls| - 1]).Watching?
  {
  }

  /**
   When every poll from the `k`-th on failed and the watcher is still watching, each window
   holds as many of those failures as fit between its start and its last measurement.
   */
  lemma {:induction false} FailuresFill(s: Settings, polls: seq<Poll>, k: nat)
    returns (missed: nat, erred: nat, lastMissed: int, lastErred: int)
    requires s.pollMs > 0 && Timed(s, polls) && k <= |polls|
    requires forall i | k <= i < |polls| :: Failed(polls[i])
    requires Watch(s, polls).Watching?
    ensures missed + erred == |polls| - k
    ensures Filled(s, Watch(s, polls), missed, erred, lastMissed, lastErred, Latest(polls))
    decreases |polls|
  {
    missed, erred, lastMissed, lastErred := 0, 0, 0, 0;
    if k == |polls| {
      WindowsSane(s, polls);
    } else {
      var init, p := polls[..|polls| - 1], polls[|polls| - 1];
      TimedInit(s, polls);
      FailuresInit(polls, init, k);
      WatchInit(s, polls);
      missed, erred, lastMissed, lastErred := FailuresFill(s, init, k);
      FailureStep(s, polls, missed, erred, lastMissed, lastErred);
      if Misses(Watch(s, init).loaded, p) {
        missed, lastMissed := missed + 1, p.tested;
      } else {
        erred, lastErred := erred + 1, p.tested;
      }
    }
  }

  lemma OneMore(n: int, p: int)
    ensures n * p == (n - 1) * p + p
  {
  }

  /**
   Consecutive failures end the watch: once there are more of them than fit into both grace
   windows, the watcher has stopped, whatever came before and however they are mixed.
   */
  lemma FailuresEnd(s: Settings, pre: seq<Poll>, fails: seq<Poll>)
    requires s.pollMs > 0 && Timed(s, pre + fails)
    requires forall f | f in fails :: Failed(f)
    requires |fails| >= Ceil(s.notFoundGrace, s.pollMs) + Ceil(s.errorGrace, s.pollMs) + 1
    ensures Watch(s, pre + fails).Ended?
  {
    var polls := pre + fails;
    forall i | |pre| <= i < |polls| ensures Failed(polls[i]) { assert polls[i] in fails; }
    if Watch(s, polls).Watching? {
      var missed, erred, lastMissed, lastErred := FailuresFill(s, polls, |pre|);
      if missed > 0 { CeilCovers(missed, s.notFoundGrace, s.pollMs); }
      if erred > 0 { CeilCovers(erred, s.errorGrace, s.pollMs); }
    }
  }
}
