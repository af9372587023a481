/**
 How the rewrites of a step list act on the first step a selector picks, and the
 shape in which J1 and J2 sit directly behind the first checkout.
 */
module StepFacts {
  import opened Options
  import opened Texts
  import opened WorkflowVocabulary
  import opened StepLists
  import opened WorkflowStages

  /** The first selected step exists and its edit has nothing left to do. */
  predicate Ready(s: seq<Step>, sel: Selector, e: Edit) {
    First(s, sel).Some? && Edited(e, First(s, sel).value) == First(s, sel).value
  }

  lemma {:induction false} EnsureReady(s: seq<Step>, sel: Selector, e: Edit, k: nat, x: Step)
    requires Ready(s, sel, e) && k <= |s|
    ensures Ensure(s, sel, e, k, x) == s && Revise(s, sel, e) == s
  {
  }

  lemma UpdateFirst(s: seq<Step>, i: nat, y: Step, other: Selector)
    requires i < |s| && Is(y, other) == Is(s[i], other)
    ensures Has(s[i := y], other) == Has(s, other)
    ensures First(s[i := y], other) == if Find(s, other) == i then Some(y) else First(s, other)
  {
    FindUpdate(s, i, y, other);
  }

  lemma {:induction false} ReviseFirst(s: seq<Step>, sel: Selector, e: Edit, other: Selector)
    requires forall st | Is(st, sel) :: Is(Edited(e, st), other) == Is(st, other)
    ensures Has(Revise(s, sel, e), other) == Has(s, other)
    ensures First(Revise(s, sel, e), other) ==
            if Has(s, sel) && Find(s, other) == Find(s, sel) then Some(Edited(e, s[Find(s, sel)])) else First(s, other)
  {
    if Has(s, sel) { UpdateFirst(s, Find(s, sel), Edited(e, s[Find(s, sel)]), other); }
  }

  /** An edit that restores the step it is given restores the list. */
  lemma {:induction false} ReviseRestores(s: seq<Step>, sel: Selector, e: Edit, y: Step)
    requires Has(s, sel) && Is(y, sel) && Edited(e, y) == s[Find(s, sel)]
    ensures Has(s[Find(s, sel) := y], sel)
    ensures Revise(s[Find(s, sel) := y], sel, e) == s
  {
    var i := Find(s, sel);
    FindUpdate(s, i, y, sel);
    assert s[i := y][i := s[i]] == s;
  }

  /** `Ensure` makes its own selector ready. */
  lemma {:induction false} EnsureSettles(s: seq<Step>, sel: Selector, e: Edit, k: nat, x: Step)
    requires k <= |s| && Is(x, sel) && Edited(e, x) == x
    requires forall st | Is(st, sel) :: Is(Edited(e, st), sel) && Edited(e, Edited(e, st)) == Edited(e, st)
    requires !Has(s, sel) ==> forall m | 0 <= m < k :: !Is(s[m], sel)
    ensures Ready(Ensure(s, sel, e, k, x), sel, e)
  {
    if Has(s, sel) {
      ReviseFirst(s, sel, e, sel);
    } else {
      FindIs(Insert(s, k, x), sel, k);
    }
  }

  /** `Ensure` leaves the first step of an unrelated selector where and as it was. */
  lemma EnsureOther(s: seq<Step>, sel: Selector, e: Edit, k: nat, x: Step, other: Selector)
    requires k <= |s| && !Is(x, other)
    requires forall st | Is(st, sel) :: Is(Edited(e, st), other) == Is(st, other)
    requires forall st | Is(st, sel) && Is(st, other) :: Edited(e, st) == st
    ensures First(Ensure(s, sel, e, k, x), other) == First(s, other)
  {
    if Has(s, sel) { ReviseFirst(s, sel, e, other); } else { FindInsert(s, k, x, other); }
  }

  lemma {:induction false} EnsureKeeps(s: seq<Step>, sel: Selector, e: Edit, k: nat, x: Step, other: Selector)
    requires k <= |s| && Has(s, other)
    requires forall st | Is(st, sel) && Is(st, other) :: Is(Edited(e, st), other)
    ensures Has(Ensure(s, sel, e, k, x), other)
  {
    if Has(s, sel) {
      HasAt(Revise(s, sel, e), other, Find(s, other));
    } else {
      HasInsert(s, k, x, other);
    }
  }

  lemma AppendHas(s: seq<Step>, guard: Selector, x: Step, other: Selector)
    ensures Has(AppendUnless(s, guard, x), other) == (Has(s, other) || (!Has(s, guard) && Is(x, other)))
  {
    assert s + [x] == Insert(s, |s|, x);
    HasInsert(s, |s|, x, other);
  }

  // ---------------------------------------------------------------- hosted normalization

  predicate Normal(s: seq<Step>) {
    forall st | st in s :: HostedNormal(st) == st
  }

  lemma NormalFixed(s: seq<Step>)
    requires Normal(s)
    ensures NormalizeHosted(s) == s
  {
  }

  lemma NormalizeNormal(s: seq<Step>)
    ensures Normal(NormalizeHosted(s))
  {
    forall st | st in NormalizeHosted(s) ensures HostedNormal(st) == st {
      var i :| 0 <= i < |s| && NormalizeHosted(s)[i] == st;
    }
  }

  /** Normalization touches only `run` and `shell`, which no selector reads. */
  lemma {:induction false} NormalizeFind(s: seq<Step>, sel: Selector)
    ensures Find(NormalizeHosted(s), sel) == Find(s, sel)
    ensures Has(NormalizeHosted(s), sel) == Has(s, sel)
  {
    assert forall st :: Is(HostedNormal(st), sel) == Is(st, sel);
    FindIs(NormalizeHosted(s), sel, Find(s, sel));
  }

  lemma NormalInsert(s: seq<Step>, k: nat, x: Step)
    requires k <= |s| && Normal(s) && HostedNormal(x) == x
    ensures Normal(Insert(s, k, x))
  {
  }

  lemma {:induction false} NormalEnsure(s: seq<Step>, sel: Selector, e: Edit, k: nat, x: Step)
    requires k <= |s| && Normal(s) && HostedNormal(x) == x
    requires forall st | Is(st, sel) && HostedNormal(st) == st :: HostedNormal(Edited(e, st)) == Edited(e, st)
    ensures Normal(Ensure(s, sel, e, k, x))
  {
    if Has(s, sel) {
      var i := Find(s, sel);
      assert s[i] in s;
      forall st | st in Revise(s, sel, e) ensures HostedNormal(st) == st {
        var j :| 0 <= j < |s| && Revise(s, sel, e)[j] == st;
        assert s[j] in s;
      }
    }
  }

  lemma {:induction false} NormalPlaceAll(s: seq<Step>, ps: seq<Placement>)
    requires Normal(s) && forall p | p in ps :: HostedNormal(p.step) == p.step
    ensures Normal(PlaceAll(s, ps))
    decreases ps
  {
    if ps != [] { NormalPlaceAll(Place(s, ps[0]), ps[1..]); }
  }

  // ---------------------------------------------------------------- taking J1 and J2 out

  lemma {:induction false} WithoutMembers(s: seq<Step>)
    ensures forall st :: st in WithoutProbes(s) <==> st in s && !IsJProbe(st)
    ensures |WithoutProbes(s)| <= |s|
  {
    if s != [] {
      WithoutMembers(s[1..]);
      assert forall st :: st in s <==> st == s[0] || st in s[1..];
    }
  }

  /** A first step that is kept is still the first. */
  lemma {:induction false} WithoutFirst(s: seq<Step>, sel: Selector)
    ensures First(s, sel).None? ==> First(WithoutProbes(s), sel).None?
    ensures First(s, sel).Some? && !IsJProbe(First(s, sel).value) ==> First(WithoutProbes(s), sel) == First(s, sel)
  {
    if s != [] {
      WithoutFirst(s[1..], sel);
      assert s == [s[0]] + s[1..];
      FirstCons(s[0], s[1..], sel);
      FirstCons(s[0], WithoutProbes(s[1..]), sel);
    }
  }

  lemma {:induction false} WithoutConcat(s: seq<Step>, t: seq<Step>)
    ensures WithoutProbes(s + t) == WithoutProbes(s) + WithoutProbes(t)
  {
    if s == [] {
      assert s + t == t;
    } else {
      assert (s + t)[1..] == s[1..] + t;
      WithoutConcat(s[1..], t);
    }
  }

  lemma {:induction false} WithoutNothing(s: seq<Step>)
    requires forall st | st in s :: !IsJProbe(st)
    ensures WithoutProbes(s) == s
  {
    if s != [] { WithoutNothing(s[1..]); }
  }

  // ---------------------------------------------------------------- J1 and J2 in place

  /** J1 and J2 directly behind the first checkout, and no step of either name elsewhere. */
  predicate Placed(s: seq<Step>, dir: Value) {
    var c := Find(s, Checkout);
    if c < |s| then
      && c + 2 < |s| && s[c + 1] == StepJ1(dir) && s[c + 2] == StepJ2(dir)
      && forall i | 0 <= i < |s| && i != c + 1 && i != c + 2 :: !IsJProbe(s[i])
    else forall i | 0 <= i < |s| :: !IsJProbe(s[i])
  }

  lemma InsertTwoIndex(s: seq<Step>, k: nat, x: Step, y: Step)
    requires k <= |s|
    ensures |Insert(s, k, x)| == |s| + 1
    ensures var t := Insert(Insert(s, k, x), k + 1, y);
      && |t| == |s| + 2 && t[k] == x && t[k + 1] == y
      && (forall m | 0 <= m < k :: t[m] == s[m]) && (forall m | k + 1 < m < |t| :: t[m] == s[m - 2])
  {
    InsertIndex(s, k, x);
    InsertIndex(Insert(s, k, x), k + 1, y);
  }

  /** Two probes put in behind the first checkout of a list without probes. */
  lemma {:induction false} PutPlaced(s: seq<Step>, t: seq<Step>, c: nat, dir: Value)
    requires c == Find(s, Checkout) < |s| && |t| == |s| + 2 && t[c + 1] == StepJ1(dir) && t[c + 2] == StepJ2(dir)
    requires forall m | 0 <= m <= c :: t[m] == s[m]
    requires forall m | c + 2 < m < |t| :: t[m] == s[m - 2]
    requires forall m | 0 <= m < |s| :: !IsJProbe(s[m])
    ensures Has(t, Checkout) && Placed(t, dir)
  {
    FindIs(t, Checkout, c);
  }

  lemma {:induction false} PutBehind(s: seq<Step>, x: Step, y: Step, dir: Value)
    requires x == StepJ1(dir) && y == StepJ2(dir)
    requires forall m | 0 <= m < |s| :: !IsJProbe(s[m])
    ensures Has(Behind(s, x, y), Checkout) == Has(s, Checkout) && Placed(Behind(s, x, y), dir)
  {
    if Has(s, Checkout) {
      InsertTwoIndex(s, Find(s, Checkout) + 1, x, y);
      PutPlaced(s, Behind(s, x, y), Find(s, Checkout), dir);
    }
  }

  lemma UnprobedLeft(s: seq<Step>)
    ensures forall m | 0 <= m < |WithoutProbes(s)| :: !IsJProbe(WithoutProbes(s)[m])
  {
    WithoutMembers(s);
  }

  lemma WirePlaced(s: seq<Step>, dir: Value)
    ensures Placed(WireProbesSteps(s, dir), dir)
    ensures Has(WireProbesSteps(s, dir), Checkout) == Has(WithoutProbes(s), Checkout)
  {
    UnprobedLeft(s);
    PutBehind(WithoutProbes(s), StepJ1(dir), StepJ2(dir), dir);
  }

  lemma {:induction false} WithoutOwn(head: seq<Step>, tail: seq<Step>, dir: Value)
    requires forall st | st in head + tail :: !IsJProbe(st)
    ensures WithoutProbes(head + [StepJ1(dir), StepJ2(dir)] + tail) == head + tail
  {
    var j1, j2 := StepJ1(dir), StepJ2(dir);
    WithoutNothing(head);
    WithoutNothing(tail);
    WithoutConcat(head + [j1, j2], tail);
    WithoutConcat(head, [j1, j2]);
    assert IsJProbe(j1) && IsJProbe(j2) && [j1, j2][1..] == [j2] && [j2][1..] == [];
    assert WithoutProbes([j2]) == [];
  }

  lemma BehindAsInserts(head: seq<Step>, tail: seq<Step>, a: Step, b: Step)
    ensures Insert(Insert(head + tail, |head|, a), |head| + 1, b) == head + [a, b] + tail
  {
    assert Insert(head + tail, |head|, a) == head + [a] + tail;
  }

  lemma PlacedApart(s: seq<Step>, dir: Value, c: nat)
    requires c + 2 < |s| && s[c + 1] == StepJ1(dir) && s[c + 2] == StepJ2(dir)
    requires forall i | 0 <= i < |s| && i != c + 1 && i != c + 2 :: !IsJProbe(s[i])
    ensures s == s[..c + 1] + [StepJ1(dir), StepJ2(dir)] + s[c + 3..]
    ensures forall st | st in s[..c + 1] + s[c + 3..] :: !IsJProbe(st)
  {
    var rest := s[..c + 1] + s[c + 3..];
    forall st | st in rest ensures !IsJProbe(st) {
      var i :| 0 <= i < |rest| && rest[i] == st;
      assert st == s[if i < c + 1 then i else i + 2];
    }
  }

  lemma {:induction false} WireFixed(s: seq<Step>, dir: Value)
    requires Placed(s, dir)
    ensures WireProbesSteps(s, dir) == s
  {
    var c := Find(s, Checkout);
    if c < |s| {
      var head, tail := s[..c + 1], s[c + 3..];
      PlacedApart(s, dir, c);
      WithoutOwn(head, tail, dir);
      FindIs(head + tail, Checkout, c);
      BehindAsInserts(head, tail, StepJ1(dir), StepJ2(dir));
    } else {
      WithoutNothing(s);
    }
  }

  lemma {:induction false} InsertsFirst(s: seq<Step>, k: nat, a: Step, b: Step, sel: Selector)
    requires k <= |s| && !Is(a, sel) && !Is(b, sel)
    ensures First(Insert(Insert(s, k, a), k + 1, b), sel) == First(s, sel)
  {
    FindInsert(s, k, a, sel);
    FindInsert(Insert(s, k, a), k + 1, b, sel);
  }

  lemma BehindFirst(s: seq<Step>, a: Step, b: Step, sel: Selector)
    requires !Is(a, sel) && !Is(b, sel)
    ensures First(Behind(s, a, b), sel) == First(s, sel)
  {
    if Has(s, Checkout) { InsertsFirst(s, Find(s, Checkout) + 1, a, b, sel); }
  }

  /** Apart from J1 and J2 themselves, rewiring does not change what a selector finds first. */
  lemma WireFirst(s: seq<Step>, dir: Value, sel: Selector)
    requires !Is(StepJ1(dir), sel) && !Is(StepJ2(dir), sel)
    ensures First(WireProbesSteps(s, dir), sel) == First(WithoutProbes(s), sel)
  {
    BehindFirst(WithoutProbes(s), StepJ1(dir), StepJ2(dir), sel);
  }

  /** A placement that would push its step between the first checkout and J1. */
  predicate Blocks(s: seq<Step>, p: Placement) {
    !Rests(s, p) && p.side.After? && Has(s, Checkout) && Find(s, p.anchor) == Find(s, Checkout)
  }

  predicate Clear(s: seq<Step>, ps: seq<Placement>)
    decreases ps
  {
    ps == [] || (!Blocks(s, ps[0]) && Clear(Place(s, ps[0]), ps[1..]))
  }

  /** Placements that insert neither checkouts nor J1/J2 and do not anchor on J1/J2. */
  predicate Foreign(ps: seq<Placement>, dir: Value) {
    forall p | p in ps ::
      && !Is(p.step, Checkout) && !IsJProbe(p.step)
      && !Is(StepJ1(dir), p.anchor) && !Is(StepJ2(dir), p.anchor)
  }

  lemma InsertPlaced(s: seq<Step>, k: nat, x: Step, dir: Value)
    requires Placed(s, dir) && k <= |s| && !Is(x, Checkout) && !IsJProbe(x)
    requires Has(s, Checkout) ==> k != Find(s, Checkout) + 1 && k != Find(s, Checkout) + 2
    ensures Placed(Insert(s, k, x), dir)
  {
    FindInsert(s, k, x, Checkout);
    InsertIndex(s, k, x);
    PlacedShift(s, Insert(s, k, x), k, dir);
  }

  lemma UnprobedShift(s: seq<Step>, t: seq<Step>, k: nat)
    requires k <= |s| && |t| == |s| + 1 && !IsJProbe(t[k]) && forall i | 0 <= i < |s| :: !IsJProbe(s[i])
    requires forall m | 0 <= m < k :: t[m] == s[m]
    requires forall m | k < m <= |s| :: t[m] == s[m - 1]
    ensures forall i | 0 <= i < |t| :: !IsJProbe(t[i])
  {
    forall i | 0 <= i < |t| ensures !IsJProbe(t[i]) {
      if i < k { assert t[i] == s[i]; } else if i > k { assert t[i] == s[i - 1]; }
    }
  }

  lemma UnprobedPlaced(s: seq<Step>, dir: Value)
    requires Find(s, Checkout) == |s|
    ensures Placed(s, dir) <==> forall i | 0 <= i < |s| :: !IsJProbe(s[i])
  {
  }

  /** A list that is `s` with a step that is neither a checkout nor a probe slipped in at `k`. */
  lemma {:induction false} PlacedShift(s: seq<Step>, t: seq<Step>, k: nat, dir: Value)
    requires Placed(s, dir) && k <= |s| && |t| == |s| + 1 && !IsJProbe(t[k])
    requires Has(s, Checkout) ==> k != Find(s, Checkout) + 1 && k != Find(s, Checkout) + 2
    requires Find(t, Checkout) == Find(s, Checkout) + if Find(s, Checkout) < k then 0 else 1
    requires forall m | 0 <= m < k :: t[m] == s[m]
    requires forall m | k < m <= |s| :: t[m] == s[m - 1]
    ensures Placed(t, dir)
  {
    var c := Find(s, Checkout);
    if c == |s| {
      UnprobedPlaced(s, dir);
      UnprobedShift(s, t, k);
      UnprobedPlaced(t, dir);
    } else {
      PlacedAround(s, t, k, c, dir);
    }
  }

  lemma {:induction false} PlacedAround(s: seq<Step>, t: seq<Step>, k: nat, c: nat, dir: Value)
    requires c + 2 < |s| && s[c + 1] == StepJ1(dir) && s[c + 2] == StepJ2(dir)
    requires forall i | 0 <= i < |s| && i != c + 1 && i != c + 2 :: !IsJProbe(s[i])
    requires k <= |s| && |t| == |s| + 1 && !IsJProbe(t[k]) && k != c + 1 && k != c + 2
    requires forall m | 0 <= m < k :: t[m] == s[m]
    requires forall m | k < m <= |s| :: t[m] == s[m - 1]
    ensures var d := if c < k then c else c + 1;
      && d + 2 < |t| && t[d + 1] == StepJ1(dir) && t[d + 2] == StepJ2(dir)
      && forall i | 0 <= i < |t| && i != d + 1 && i != d + 2 :: !IsJProbe(t[i])
  {
    var d := if c < k then c else c + 1;
    forall i | 0 <= i < |t| && i != d + 1 && i != d + 2 ensures !IsJProbe(t[i]) {
      if i < k { assert t[i] == s[i]; } else if i > k { assert t[i] == s[i - 1]; }
    }
    if c < k { assert t[c + 1] == s[c + 1] && t[c + 2] == s[c + 2]; } else { assert t[c + 2] == s[c + 1] && t[c + 3] == s[c + 2]; }
  }

  lemma {:induction false} ClearPlaced(s: seq<Step>, ps: seq<Placement>, dir: Value)
    requires Placed(s, dir) && Foreign(ps, dir) && Clear(s, ps)
    ensures Placed(PlaceAll(s, ps), dir)
    decreases ps
  {
    if ps != [] {
      if !Rests(s, ps[0]) { InsertPlaced(s, Spot(s, ps[0]), ps[0].step, dir); }
      ClearPlaced(Place(s, ps[0]), ps[1..], dir);
    }
  }

  /** The step after the first checkout is not J1. */
  predicate Parted(s: seq<Step>) {
    PartedAt(s, Find(s, Checkout))
  }

  predicate PartedAt(s: seq<Step>, c: nat) {
    c < |s| && (c + 1 < |s| ==> !Is(s[c + 1], Named(WireJ1)))
  }

  lemma {:induction false} InsertParted(s: seq<Step>, k: nat, x: Step)
    requires k <= |s| && !Is(x, Checkout) && !IsJProbe(x)
    requires Has(s, Checkout) && (Parted(s) || k == Find(s, Checkout) + 1)
    ensures Parted(Insert(s, k, x))
  {
    FindShift(s, k, x, Checkout);
    InsertIndex(s, k, x);
    NotNamed(x);
    PartedShift(s, Insert(s, k, x), k, Find(s, Checkout));
  }

  lemma {:induction false} PartedShift(s: seq<Step>, t: seq<Step>, k: nat, c: nat)
    requires c < |s| && k <= |s| && |t| == |s| + 1 && !Is(t[k], Named(WireJ1))
    requires PartedAt(s, c) || k == c + 1
    requires forall m | 0 <= m < k :: t[m] == s[m]
    requires forall m | k < m <= |s| :: t[m] == s[m - 1]
    ensures PartedAt(t, c + if c < k then 0 else 1)
  {
    if k <= c {
      if c + 1 < |s| { assert t[c + 2] == s[c + 1]; }
    } else if k > c + 1 {
      assert t[c + 1] == s[c + 1];
    }
  }

  lemma NotNamed(st: Step)
    requires !IsJProbe(st)
    ensures !Is(st, Named(WireJ1))
  {
  }

  lemma {:induction false} PartedStays(s: seq<Step>, ps: seq<Placement>, dir: Value)
    requires Foreign(ps, dir) && Parted(s)
    ensures Parted(PlaceAll(s, ps))
    decreases ps
  {
    if ps != [] {
      if !Rests(s, ps[0]) { InsertParted(s, Spot(s, ps[0]), ps[0].step); }
      PartedStays(Place(s, ps[0]), ps[1..], dir);
    }
  }

  lemma PartedUnplaced(s: seq<Step>, dir: Value)
    requires Parted(s)
    ensures !Placed(s, dir)
  {
  }

  lemma {:induction false} BlockedParts(s: seq<Step>, ps: seq<Placement>, dir: Value)
    requires Foreign(ps, dir) && !Clear(s, ps)
    ensures Parted(PlaceAll(s, ps))
    decreases ps
  {
    if Blocks(s, ps[0]) {
      InsertParted(s, Spot(s, ps[0]), ps[0].step);
      PartedStays(Place(s, ps[0]), ps[1..], dir);
    } else {
      BlockedParts(Place(s, ps[0]), ps[1..], dir);
    }
  }
}
