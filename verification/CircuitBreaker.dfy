/**
 The manager's circuit breaker: how cycles are counted as failures, and when the loop
 gives up.
 */
module CircuitBreaker {
  import opened Options

  // ---------------------------------------------------------------- what the observer said

  datatype Observation = Observation(outcome: Option<string>, generatedAt: Option<int>)

  predicate Fresh(o: Observation, notBefore: Option<int>) {
    notBefore.None? || (o.generatedAt.Some? && o.generatedAt.value >= notBefore.value)
  }

  /** A fresh report speaks before a fresh heartbeat. */
  function ObserverOutcome(heartbeat: Observation, report: Observation, notBefore: Option<int>): Option<string> {
    if report.outcome.Some? && Fresh(report, notBefore) then report.outcome
    else if heartbeat.outcome.Some? && Fresh(heartbeat, notBefore) then heartbeat.outcome
    else None
  }

  datatype Lane = Lane(laneId: string, issue: string, workerSlotId: string, blockerClass: string)

  function StripBars(s: string): string {
    if s != [] && s[|s| - 1] == '|' then StripBars(s[..|s| - 1]) else s
  }

  function FailureSignature(outcome: Option<string>, lane: Lane): string {
    if outcome.None? then ""
    else StripBars(outcome.value + "|" + lane.laneId + "|" + lane.issue + "|" + lane.workerSlotId + "|" + lane.blockerClass)
  }

  // ---------------------------------------------------------------- one cycle

  datatype Cycle = Cycle(daemonAlive: bool, blocked: bool, stopOnIdle: bool, outcome: Option<string>, lane: Lane)

  datatype Breaker = Breaker(failures: nat, signature: string)

  datatype Verdict = Clear | CountedFailure | FailClosed

  predicate Counted(c: Cycle) {
    !c.daemonAlive && !c.blocked && c.outcome.Some? && !(c.stopOnIdle && c.outcome.value == "idle-stop")
  }

  function SignatureOf(c: Cycle): string {
    FailureSignature(c.outcome, c.lane)
  }

  /** A positive integer threshold, or none. */
  function Threshold(configured: Option<int>): nat {
    if configured.Some? && configured.value > 0 then configured.value else 0
  }

  function Next(b: Breaker, c: Cycle): Breaker {
    if !Counted(c) then Breaker(0, "")
    else if SignatureOf(c) != "" && SignatureOf(c) == b.signature then Breaker(b.failures + 1, b.signature)
    else Breaker(1, SignatureOf(c))
  }

  function Judge(b: Breaker, c: Cycle, configured: Option<int>): Verdict {
    if !Counted(c) then Clear
    else if Threshold(configured) > 0 && Next(b, c).failures >= Threshold(configured) then FailClosed
    else CountedFailure
  }

  // ---------------------------------------------------------------- whole runs

  function After(cycles: seq<Cycle>): Breaker {
    if cycles == [] then Breaker(0, "") else Next(After(cycles[..|cycles| - 1]), cycles[|cycles| - 1])
  }

  /** The last `k` cycles all count, with one signature that is not empty. */
  predicate Block(cycles: seq<Cycle>, k: nat) {
    k <= |cycles| && forall i | |cycles| - k <= i < |cycles| ::
      Counted(cycles[i]) && SignatureOf(cycles[i]) == SignatureOf(cycles[|cycles| - 1]) && SignatureOf(cycles[i]) != ""
  }

  /** `n` is the length of the longest such block at the end. */
  predicate LongestBlock(cycles: seq<Cycle>, n: nat) {
    Block(cycles, n) && !Block(cycles, n + 1)
  }

  lemma BlockGrows(cycles: seq<Cycle>, c: Cycle, k: nat)
    requires cycles != [] && Counted(c) && SignatureOf(c) != "" && SignatureOf(c) == SignatureOf(cycles[|cycles| - 1])
    ensures Block(cycles + [c], k + 1) <==> Block(cycles, k)
  {
    var longer := cycles + [c];
    if Block(cycles, k) {
      forall i | |longer| - (k + 1) <= i < |longer|
        ensures Counted(longer[i]) && SignatureOf(longer[i]) == SignatureOf(longer[|longer| - 1]) && SignatureOf(longer[i]) != ""
      {
        if i < |cycles| { assert longer[i] == cycles[i]; }
      }
    }
    if Block(longer, k + 1) {
      forall i | |cycles| - k <= i < |cycles|
        ensures Counted(cycles[i]) && SignatureOf(cycles[i]) == SignatureOf(cycles[|cycles| - 1]) && SignatureOf(cycles[i]) != ""
      {
        assert longer[i] == cycles[i];
      }
    }
  }

  lemma BlockBroken(cycles: seq<Cycle>, c: Cycle)
    requires cycles != [] && SignatureOf(c) != SignatureOf(cycles[|cycles| - 1])
    ensures !Block(cycles + [c], 2)
  {
    assert (cycles + [c])[|cycles| - 1] == cycles[|cycles| - 1];
  }

  /**
   The failure count is the length of the block of like failures at the end of the run; a
   counted cycle with an empty signature stands alone.
   */
  lemma {:induction false} CountIsBlock(cycles: seq<Cycle>)
    ensures var b := After(cycles);
      if cycles == [] || !Counted(cycles[|cycles| - 1]) then b == Breaker(0, "")
      else b.signature == SignatureOf(cycles[|cycles| - 1]) &&
           if b.signature == "" then b.failures == 1 else LongestBlock(cycles, b.failures)
  {
    if cycles != [] {
      var init, c := cycles[..|cycles| - 1], cycles[|cycles| - 1];
      assert cycles == init + [c];
      CountIsBlock(init);
      if Counted(c) && SignatureOf(c) != "" {
        if init != [] && SignatureOf(c) == SignatureOf(init[|init| - 1]) {
          var n := After(init).failures;
          BlockGrows(init, c, n);
          BlockGrows(init, c, n + 1);
        } else if init != [] {
          BlockBroken(init, c);
        }
      }
    }
  }

  predicate Opens(cycles: seq<Cycle>, configured: Option<int>) {
    cycles != [] && Judge(After(cycles[..|cycles| - 1]), cycles[|cycles| - 1], configured).FailClosed?
  }

  /** The breaker opens exactly when a threshold is set and the failure count has reached it. */
  lemma OpensIff(cycles: seq<Cycle>, configured: Option<int>)
    requires cycles != []
    ensures Opens(cycles, configured) <==>
            configured.Some? && configured.value > 0 && After(cycles).failures >= configured.value
  {
    if !Counted(cycles[|cycles| - 1]) { assert After(cycles).failures == 0; }
  }

  /** It opens at the first cycle whose count reaches the threshold, so the count then equals it. */
  lemma OpensAtThreshold(cycles: seq<Cycle>, configured: Option<int>)
    requires cycles != [] && Opens(cycles, configured)
    requires |cycles| > 1 ==> !Opens(cycles[..|cycles| - 1], configured)
    ensures configured.Some? && After(cycles).failures == configured.value
  {
    var init := cycles[..|cycles| - 1];
    OpensIff(cycles, configured);
    if init != [] { OpensIff(init, configured); }
    assert After(cycles).failures <= After(init).failures + 1;
  }
}
