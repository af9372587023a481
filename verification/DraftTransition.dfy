/**
 Evidence for a draft transition: the newest event of the expected kind on the pull
 request's timeline, told apart from the one that was there before.
 */
module DraftTransition {
  import opened Options

  datatype Kind = ReadyForReview | ConvertedToDraft | OtherKind

  datatype Event = Event(id: Option<int>, kind: Kind, createdAt: Option<int>)

  const CLOCK_SKEW_MS := 5000

  function Expected(ready: bool): Kind {
    if ready then ReadyForReview else ConvertedToDraft
  }

  predicate Matches(e: Event, ready: bool) {
    e.kind == Expected(ready) && (e.id.Some? || e.createdAt.Some?)
  }

  function Matching(timeline: seq<Event>, ready: bool): seq<Event> {
    if timeline == [] then []
    else (if Matches(timeline[0], ready) then [timeline[0]] else []) + Matching(timeline[1..], ready)
  }

  /** Newest first: by time, an unknown time counting as -1, and then by id, an unknown id counting as 0. */
  predicate Precedes(a: Event, b: Event) {
    var s, t := a.createdAt.GetOr(-1), b.createdAt.GetOr(-1);
    s > t || (s == t && a.id.GetOr(0) >= b.id.GetOr(0))
  }

  function Newest(events: seq<Event>): Event
    requires events != []
  {
    if |events| == 1 || Precedes(events[0], Newest(events[1..])) then events[0] else Newest(events[1..])
  }

  /** The newest matching event, unless it is the previous one or, without a previous one, too old. */
  function Select(timeline: seq<Event>, ready: bool, startedAt: Option<int>, previous: Option<int>): Option<Event> {
    var matching := Matching(timeline, ready);
    if matching == [] then None else
    var latest := Newest(matching);
    if previous.Some? && latest.id == previous then None
    else if previous.None? && startedAt.Some? && latest.createdAt.Some? && latest.createdAt.value < LowerBound(startedAt.value) then None
    else Some(latest)
  }

  function LowerBound(startedAt: int): int {
    if startedAt - CLOCK_SKEW_MS < 0 then 0 else startedAt - CLOCK_SKEW_MS
  }

  /** Polls the timeline until it shows a transition, at most `attempts` times; a read that throws counts as one. */
  method WaitForTransition(ready: bool, startedAt: int, previous: Option<int>, polls: nat -> Option<seq<Event>>, pollAttempts: int)
    returns (found: Option<Event>, used: nat)
    ensures 1 <= used && (pollAttempts >= 1 ==> used <= pollAttempts) && (pollAttempts < 1 ==> used == 1)
    ensures forall k | 0 <= k < used - 1 :: Shows(polls(k), ready, startedAt, previous).None?
    ensures found == Shows(polls(used - 1), ready, startedAt, previous)
    ensures found.None? ==> used == (if pollAttempts < 1 then 1 else pollAttempts)
  {
    var attempts := if pollAttempts < 1 then 1 else pollAttempts;
    found, used := None, 0;
    while used < attempts && found.None?
      invariant used <= attempts && (used == 0 ==> found.None?)
      invariant forall k | 0 <= k < used - 1 :: Shows(polls(k), ready, startedAt, previous).None?
      invariant used > 0 ==> found == Shows(polls(used - 1), ready, startedAt, previous)
      decreases attempts - used
    {
      var timeline := polls(used);
      used := used + 1;
      if timeline.Some? {
        found := Select(timeline.value, ready, Some(startedAt), previous);
      }
    }
  }

  function Shows(read: Option<seq<Event>>, ready: bool, startedAt: int, previous: Option<int>): Option<Event> {
    if read.None? then None else Select(read.value, ready, Some(startedAt), previous)
  }

  /** The id noted before the transition: none when the read failed or nothing matched. */
  function PreviousId(before: Option<seq<Event>>, ready: bool): Option<int> {
    if before.None? then None else
    var latest := Select(before.value, ready, None, None);
    if latest.Some? then latest.value.id else None
  }

  /** Reads the timeline, runs the command, and waits for its evidence. */
  method SetReadyState(ready: bool, before: Option<seq<Event>>, commandOk: bool, startedAt: int, polls: nat -> Option<seq<Event>>, pollAttempts: int)
    returns (ok: bool, evidence: Option<Event>, used: nat)
    requires pollAttempts >= 1
    ensures ok ==> commandOk && evidence.Some? && 1 <= used <= pollAttempts
    ensures evidence.Some? ==> commandOk && used >= 1
    ensures evidence.Some? ==>
              evidence == Shows(polls(used - 1), ready, startedAt, PreviousId(before, ready))
    ensures commandOk && !ok ==> forall k | 0 <= k < pollAttempts :: Shows(polls(k), ready, startedAt, PreviousId(before, ready)).None?
  {
    var previous := PreviousId(before, ready);
    ok, evidence, used := false, None, 0;
    if commandOk {
      evidence, used := WaitForTransition(ready, startedAt, previous, polls, pollAttempts);
      ok := evidence.Some?;
    }
  }

  // ---------------------------------------------------------------- accepted evidence is new

  lemma {:induction false} MatchingMembers(timeline: seq<Event>, ready: bool)
    ensures forall e :: e in Matching(timeline, ready) <==> e in timeline && Matches(e, ready)
  {
    if timeline != [] { MatchingMembers(timeline[1..], ready); }
  }

  lemma {:induction false} NewestLeads(events: seq<Event>)
    requires events != []
    ensures Newest(events) in events && forall e | e in events :: Precedes(Newest(events), e)
  {
    if |events| > 1 {
      NewestLeads(events[1..]);
      assert forall e :: e in events <==> e == events[0] || e in events[1..];
    }
  }

  /** The events that can count as evidence have ids, and no two of them share one; other entries need none. */
  predicate Identified(timeline: seq<Event>, ready: bool) {
    forall a, b | a in timeline && b in timeline && Matches(a, ready) && Matches(b, ready) ::
      a.id.Some? && (a.id == b.id ==> a == b)
  }

  predicate Grown(before: seq<Event>, after: seq<Event>) {
    forall e | e in before :: e in after
  }

  lemma SelectNewest(timeline: seq<Event>, ready: bool, startedAt: Option<int>, previous: Option<int>)
    ensures Select(timeline, ready, startedAt, previous).Some? ==>
      var e := Select(timeline, ready, startedAt, previous).value;
      e in timeline && Matches(e, ready) && (forall x | x in timeline && Matches(x, ready) :: Precedes(e, x)) &&
      (previous.Some? ==> e.id != previous)
    ensures Select(timeline, ready, None, None).None? <==> forall x | x in timeline :: !Matches(x, ready)
  {
    var matching := Matching(timeline, ready);
    MatchingMembers(timeline, ready);
    if matching != [] {
      NewestLeads(matching);
    } else {
      assert forall x | x in timeline :: Matches(x, ready) ==> x in matching;
    }
  }

  lemma SameEvent(timeline: seq<Event>, ready: bool, a: Event, b: Event)
    requires Identified(timeline, ready) && a in timeline && b in timeline && Matches(a, ready) && Matches(b, ready)
    requires Precedes(a, b) && Precedes(b, a)
    ensures a == b
  {
    assert a.id.Some? && b.id.Some?;
  }

  /** When the timeline was read before the command, the evidence accepted after it was not there yet. */
  lemma EvidenceIsNew(before: seq<Event>, after: seq<Event>, ready: bool, startedAt: int)
    requires Identified(after, ready) && Grown(before, after)
    requires Select(after, ready, Some(startedAt), PreviousId(Some(before), ready)).Some?
    ensures Select(after, ready, Some(startedAt), PreviousId(Some(before), ready)).value !in before
  {
    var e := Select(after, ready, Some(startedAt), PreviousId(Some(before), ready)).value;
    SelectNewest(before, ready, None, None);
    SelectNewest(after, ready, Some(startedAt), PreviousId(Some(before), ready));
    if e in before {
      var last := Select(before, ready, None, None);
      if last.Some? { SameEvent(after, ready, e, last.value); }
    }
  }

  /**
   When that read failed, an event from before the command is accepted exactly when it is
   still the newest of its kind and is recent enough, or bears no time.
   */
  lemma UnreadEvidenceIff(before: seq<Event>, after: seq<Event>, ready: bool, startedAt: int)
    requires Matching(after, ready) != []
    ensures var e := Newest(Matching(after, ready));
      (Select(after, ready, Some(startedAt), PreviousId(None, ready)) == Some(e) && e in before) <==>
      e in before && (e.createdAt.Some? ==> e.createdAt.value >= LowerBound(startedAt))
    ensures var e := Newest(Matching(after, ready));
      Select(after, ready, Some(startedAt), PreviousId(None, ready)) in [None, Some(e)]
  {
  }

  /** A stale event taken for evidence: read failure before, the last transition two seconds old. */
  lemma StaleEvidence(e: Event)
    requires e == Event(Some(7), ReadyForReview, Some(998000))
    ensures Select([e], true, Some(1000000), PreviousId(None, true)) == Some(e)
    ensures Select([e], true, Some(1000000), PreviousId(Some([e]), true)) == None
  {
    assert [e][1..] == [];
    assert Matching([e], true) == [e];
  }

  /** A new transition that is the newest of its kind is found within the budget, by the first read that has it. */
  lemma NewEventShows(before: seq<Event>, after: seq<Event>, ready: bool, startedAt: int, e: Event)
    requires Identified(after, ready) && Grown(before, after) && e in after && e !in before && Matches(e, ready)
    requires forall x | x in after && Matches(x, ready) :: Precedes(e, x)
    requires e.createdAt.Some? ==> e.createdAt.value >= LowerBound(startedAt)
    ensures Select(after, ready, Some(startedAt), PreviousId(Some(before), ready)) == Some(e)
  {
    var matching := Matching(after, ready);
    MatchingMembers(after, ready);
    assert e in matching;
    NewestLeads(matching);
    SameEvent(after, ready, e, Newest(matching));
    SelectNewest(before, ready, None, None);
    var last := Select(before, ready, None, None);
    if last.Some? { assert last.value in after && last.value.id != e.id; }
  }
}
