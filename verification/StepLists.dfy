/**
 Searching and rewriting step lists: the first step a selector picks out, anchored
 insertion, and what insertion leaves alone.
 */
module StepLists {
  import opened Options
  import opened Texts
  import opened WorkflowVocabulary

  /** The index of the first selected step, or the length of the list. */
  function Find(s: seq<Step>, sel: Selector): (i: nat)
    ensures i <= |s|
    ensures forall k | 0 <= k < i :: !Is(s[k], sel)
    ensures i < |s| ==> Is(s[i], sel)
  {
    if s == [] || Is(s[0], sel) then 0 else 1 + Find(s[1..], sel)
  }

  predicate Has(s: seq<Step>, sel: Selector) {
    Find(s, sel) < |s|
  }

  function First(s: seq<Step>, sel: Selector): Option<Step> {
    if Has(s, sel) then Some(s[Find(s, sel)]) else None
  }

  function Insert(s: seq<Step>, k: nat, x: Step): seq<Step>
    requires k <= |s|
  {
    s[..k] + [x] + s[k..]
  }

  function Remove(s: seq<Step>, k: nat): seq<Step>
    requires k < |s|
  {
    s[..k] + s[k + 1..]
  }

  lemma FindIs(s: seq<Step>, sel: Selector, i: nat)
    requires i <= |s|
    requires forall k | 0 <= k < i :: !Is(s[k], sel)
    requires i < |s| ==> Is(s[i], sel)
    ensures Find(s, sel) == i
  {
  }

  lemma HasAt(s: seq<Step>, sel: Selector, i: nat)
    requires i < |s| && Is(s[i], sel)
    ensures Has(s, sel) && Find(s, sel) <= i
  {
  }

  lemma {:induction false} FirstCons(x: Step, s: seq<Step>, sel: Selector)
    ensures First([x] + s, sel) == if Is(x, sel) then Some(x) else First(s, sel)
  {
    FindIs([x] + s, sel, if Is(x, sel) then 0 else 1 + Find(s, sel));
  }

  lemma InsertIndex(s: seq<Step>, k: nat, x: Step)
    requires k <= |s|
    ensures |Insert(s, k, x)| == |s| + 1 && Insert(s, k, x)[k] == x
    ensures forall m | 0 <= m < k :: Insert(s, k, x)[m] == s[m]
    ensures forall m | k < m <= |s| :: Insert(s, k, x)[m] == s[m - 1]
  {
  }

  lemma {:induction false} FindShift(s: seq<Step>, k: nat, x: Step, sel: Selector)
    requires k <= |s| && !Is(x, sel)
    ensures Find(Insert(s, k, x), sel) == Find(s, sel) + if Find(s, sel) < k then 0 else 1
  {
    var t, f := Insert(s, k, x), Find(s, sel);
    InsertIndex(s, k, x);
    if f < k {
      FindIs(t, sel, f);
    } else {
      FindIs(t, sel, f + 1);
    }
  }

  /** Inserting a step the selector does not pick shifts the found index and nothing else. */
  lemma {:induction false} FindInsert(s: seq<Step>, k: nat, x: Step, sel: Selector)
    requires k <= |s| && !Is(x, sel)
    ensures Find(Insert(s, k, x), sel) == Find(s, sel) + if Find(s, sel) < k then 0 else 1
    ensures First(Insert(s, k, x), sel) == First(s, sel)
  {
    FindShift(s, k, x, sel);
    InsertIndex(s, k, x);
  }

  /** Insertion never makes a selector lose its steps. */
  lemma {:induction false} HasInsert(s: seq<Step>, k: nat, x: Step, sel: Selector)
    requires k <= |s|
    ensures Has(Insert(s, k, x), sel) == (Has(s, sel) || Is(x, sel))
  {
    var t := Insert(s, k, x);
    if Is(x, sel) {
      HasAt(t, sel, k);
    } else {
      FindInsert(s, k, x, sel);
    }
  }

  lemma {:induction false} FindUpdate(s: seq<Step>, i: nat, y: Step, sel: Selector)
    requires i < |s| && Is(y, sel) == Is(s[i], sel)
    ensures Find(s[i := y], sel) == Find(s, sel)
    ensures First(s[i := y], sel) == if Find(s, sel) == i then Some(y) else First(s, sel)
  {
    FindIs(s[i := y], sel, Find(s, sel));
  }

  lemma FindRemove(s: seq<Step>, k: nat, sel: Selector)
    requires k < |s| && !Is(s[k], sel)
    ensures First(Remove(s, k), sel) == First(s, sel)
  {
    assert s == Insert(Remove(s, k), k, s[k]);
    FindInsert(Remove(s, k), k, s[k], sel);
  }

  // ---------------------------------------------------------------- anchored placement

  datatype Side = Before | After

  /** Insert `step` beside the first `anchor` step unless a `guard` step is already there. */
  datatype Placement = Placement(guard: Selector, anchor: Selector, side: Side, step: Step)

  predicate Rests(s: seq<Step>, p: Placement) {
    Has(s, p.guard) || !Has(s, p.anchor)
  }

  function Spot(s: seq<Step>, p: Placement): nat {
    Find(s, p.anchor) + if p.side.After? then 1 else 0
  }

  function Place(s: seq<Step>, p: Placement): seq<Step> {
    if Rests(s, p) then s else Insert(s, Spot(s, p), p.step)
  }

  function PlaceAll(s: seq<Step>, ps: seq<Placement>): seq<Step>
    decreases ps
  {
    if ps == [] then s else PlaceAll(Place(s, ps[0]), ps[1..])
  }

  /** No placement inserts an anchor of another, and each inserts a step its own guard sees. */
  predicate Coherent(ps: seq<Placement>) {
    && (forall p | p in ps :: Is(p.step, p.guard))
    && (forall p, q | p in ps && q in ps :: !Is(q.step, p.anchor))
  }

  predicate Inert(ps: seq<Placement>, sel: Selector) {
    forall p | p in ps :: !Is(p.step, sel)
  }

  lemma PlaceAllConcat(s: seq<Step>, ps: seq<Placement>, qs: seq<Placement>)
    ensures PlaceAll(s, ps + qs) == PlaceAll(PlaceAll(s, ps), qs)
    decreases ps
  {
    if ps == [] {
      assert ps + qs == qs;
    } else {
      assert (ps + qs)[1..] == ps[1..] + qs;
      PlaceAllConcat(Place(s, ps[0]), ps[1..], qs);
    }
  }

  lemma {:induction false} PlaceAllInert(s: seq<Step>, ps: seq<Placement>, sel: Selector)
    requires Inert(ps, sel)
    ensures First(PlaceAll(s, ps), sel) == First(s, sel)
    ensures Has(PlaceAll(s, ps), sel) == Has(s, sel)
    decreases ps
  {
    if ps != [] {
      if !Rests(s, ps[0]) { FindInsert(s, Spot(s, ps[0]), ps[0].step, sel); }
      PlaceAllInert(Place(s, ps[0]), ps[1..], sel);
    }
  }

  lemma {:induction false} PlaceAllKeeps(s: seq<Step>, ps: seq<Placement>, sel: Selector)
    requires Has(s, sel)
    ensures Has(PlaceAll(s, ps), sel)
    decreases ps
  {
    if ps != [] {
      if !Rests(s, ps[0]) { HasInsert(s, Spot(s, ps[0]), ps[0].step, sel); }
      PlaceAllKeeps(Place(s, ps[0]), ps[1..], sel);
    }
  }

  predicate AllRest(s: seq<Step>, ps: seq<Placement>) {
    forall p | p in ps :: Rests(s, p)
  }

  lemma {:induction false} PlaceAllRested(s: seq<Step>, ps: seq<Placement>)
    requires AllRest(s, ps)
    ensures PlaceAll(s, ps) == s
  {
    if ps != [] { PlaceAllRested(s, ps[1..]); }
  }

  /** A placement that rests keeps resting while others insert steps that are not its anchor. */
  lemma {:induction false} PlaceAllKeepsRest(s: seq<Step>, ps: seq<Placement>, p: Placement)
    requires Rests(s, p) && Inert(ps, p.anchor)
    ensures Rests(PlaceAll(s, ps), p)
  {
    if Has(s, p.guard) {
      PlaceAllKeeps(s, ps, p.guard);
    } else {
      PlaceAllInert(s, ps, p.anchor);
    }
  }

  /** One pass over coherent placements leaves every one of them at rest. */
  lemma {:induction false} PlaceAllRests(s: seq<Step>, ps: seq<Placement>)
    requires Coherent(ps)
    ensures AllRest(PlaceAll(s, ps), ps)
    decreases ps
  {
    if ps != [] {
      var t := Place(s, ps[0]);
      assert Rests(t, ps[0]) by {
        if !Rests(s, ps[0]) { HasInsert(s, Spot(s, ps[0]), ps[0].step, ps[0].guard); }
      }
      PlaceAllKeepsRest(t, ps[1..], ps[0]);
      PlaceAllRests(t, ps[1..]);
      assert forall p | p in ps :: p == ps[0] || p in ps[1..];
    }
  }

  /** A second pass over coherent placements changes nothing. */
  lemma PlaceAllTwice(s: seq<Step>, ps: seq<Placement>)
    requires Coherent(ps)
    ensures PlaceAll(PlaceAll(s, ps), ps) == PlaceAll(s, ps)
  {
    PlaceAllRests(s, ps);
    PlaceAllRested(PlaceAll(s, ps), ps);
  }
}
