/**
 Lists kept in the order of a string key, under any total order: a sorted list without
 duplicates is determined by its members, and a keyed difference has exactly the keys that
 one side misses.
 */
module SortedLists {

  type Order = (string, string) -> bool

  ghost predicate Total(le: Order) {
    && (forall a, b :: le(a, b) || le(b, a))
    && (forall a, b :: le(a, b) && le(b, a) ==> a == b)
    && (forall a, b, c :: le(a, b) && le(b, c) ==> le(a, c))
  }

  predicate Ordered(le: Order, s: seq<string>) {
    forall i, j | 0 <= i < j < |s| :: le(s[i], s[j])
  }

  predicate Distinct<T(==)>(s: seq<T>) {
    forall i, j | 0 <= i < j < |s| :: s[i] != s[j]
  }

  function Members<T>(s: seq<T>): set<T> {
    set x | x in s
  }

  lemma EmptyIff<T>(s: seq<T>)
    ensures s == [] <==> forall x :: x !in s
  {
    if s != [] { assert s[0] in s; }
  }

  /** Two ordered lists without duplicates that have the same members are the same list. */
  lemma {:induction false} OrderedUnique(le: Order, s: seq<string>, t: seq<string>)
    requires Total(le) && Ordered(le, s) && Ordered(le, t) && Distinct(s) && Distinct(t)
    requires forall x :: x in s <==> x in t
    ensures s == t
    decreases |s|
  {
    if s == [] {
      EmptyIff(t);
    } else {
      assert s[0] in t;
      assert t[0] in s;
      assert s[0] == t[0];
      forall x ensures x in s[1..] <==> x in t[1..] {
        assert x in s <==> x == s[0] || x in s[1..];
        assert x in t <==> x == t[0] || x in t[1..];
      }
      OrderedUnique(le, s[1..], t[1..]);
      assert s == [s[0]] + s[1..] && t == [t[0]] + t[1..];
    }
  }

  // ---------------------------------------------------------------- sorting by a key

  function Keys<T>(s: seq<T>, key: T -> string): (ks: seq<string>)
    ensures |ks| == |s| && forall i | 0 <= i < |s| :: ks[i] == key(s[i])
  {
    seq(|s|, i requires 0 <= i < |s| => key(s[i]))
  }

  lemma TailKeys<T>(s: seq<T>, key: T -> string)
    requires s != []
    ensures Keys(s[1..], key) == Keys(s, key)[1..] && Keys(s, key) == [key(s[0])] + Keys(s[1..], key)
  {
  }

  lemma OrderedTail(le: Order, ks: seq<string>)
    requires ks != [] && Ordered(le, ks)
    ensures Ordered(le, ks[1..])
  {
  }

  lemma OrderedCons(le: Order, k: string, ks: seq<string>)
    requires Ordered(le, ks) && forall x | x in ks :: le(k, x)
    ensures Ordered(le, [k] + ks)
  {
  }

  function Insort<T>(le: Order, key: T -> string, x: T, s: seq<T>): seq<T> {
    if s == [] then [x]
    else if le(key(x), key(s[0])) then [x] + s
    else [s[0]] + Insort(le, key, x, s[1..])
  }

  /** A stable sort. */
  function Sort<T>(le: Order, key: T -> string, s: seq<T>): seq<T> {
    if s == [] then [] else Insort(le, key, s[0], Sort(le, key, s[1..]))
  }

  lemma DistinctTail(ks: seq<string>)
    requires ks != [] && Distinct(ks)
    ensures Distinct(ks[1..]) && ks[0] !in ks[1..]
  {
    forall j | 0 <= j < |ks| - 1 ensures ks[1..][j] != ks[0] { assert ks[1..][j] == ks[j + 1]; }
  }

  lemma {:induction false} InsortBag<T>(le: Order, key: T -> string, x: T, s: seq<T>)
    ensures multiset(Insort(le, key, x, s)) == multiset{x} + multiset(s)
  {
    if s != [] {
      assert s == [s[0]] + s[1..];
      if !le(key(x), key(s[0])) { InsortBag(le, key, x, s[1..]); }
    }
  }

  lemma {:induction false} InsortKeys<T>(le: Order, key: T -> string, x: T, s: seq<T>, other: T -> string)
    ensures forall k :: k in Keys(Insort(le, key, x, s), other) <==> k == other(x) || k in Keys(s, other)
  {
    var t := Insort(le, key, x, s);
    TailKeys(t, other);
    if s != [] {
      TailKeys(s, other);
      if le(key(x), key(s[0])) {
        assert t[1..] == s;
      } else {
        InsortKeys(le, key, x, s[1..], other);
        assert t[1..] == Insort(le, key, x, s[1..]);
      }
    }
  }

  lemma DistinctCons(k: string, ks: seq<string>)
    requires Distinct(ks) && k !in ks
    ensures Distinct([k] + ks)
  {
  }

  lemma {:induction false} InsortDistinct<T>(le: Order, key: T -> string, x: T, s: seq<T>, other: T -> string)
    requires Distinct(Keys(s, other)) && other(x) !in Keys(s, other)
    ensures Distinct(Keys(Insort(le, key, x, s), other))
  {
    var t := Insort(le, key, x, s);
    TailKeys(t, other);
    if s == [] {
    } else if le(key(x), key(s[0])) {
      assert t[1..] == s;
      DistinctCons(other(x), Keys(s, other));
    } else {
      TailKeys(s, other);
      DistinctTail(Keys(s, other));
      InsortDistinct(le, key, x, s[1..], other);
      InsortKeys(le, key, x, s[1..], other);
      assert t[1..] == Insort(le, key, x, s[1..]);
      DistinctCons(other(s[0]), Keys(t[1..], other));
    }
  }

  lemma HeadLeast(le: Order, ks: seq<string>, below: string)
    requires Total(le) && Ordered(le, ks) && ks != [] && le(below, ks[0])
    ensures forall k | k in ks :: le(below, k) && le(ks[0], k)
  {
    forall k | k in ks ensures le(below, k) && le(ks[0], k) {
      var j :| 0 <= j < |ks| && ks[j] == k;
      if j > 0 { assert le(ks[0], ks[j]); }
    }
  }

  lemma InsortFirst<T>(le: Order, key: T -> string, x: T, s: seq<T>)
    requires Total(le) && Ordered(le, Keys(s, key)) && s != [] && le(key(x), key(s[0]))
    ensures Ordered(le, Keys([x] + s, key))
  {
    HeadLeast(le, Keys(s, key), key(x));
    OrderedCons(le, key(x), Keys(s, key));
    assert Keys([x] + s, key) == [key(x)] + Keys(s, key);
  }

  lemma {:induction false} InsortOrdered<T>(le: Order, key: T -> string, x: T, s: seq<T>)
    requires Total(le) && Ordered(le, Keys(s, key))
    ensures Ordered(le, Keys(Insort(le, key, x, s), key))
  {
    if s == [] {
    } else if le(key(x), key(s[0])) {
      InsortFirst(le, key, x, s);
    } else {
      var ks := Keys(s, key);
      var t := Insort(le, key, x, s[1..]);
      TailKeys(s, key);
      OrderedTail(le, ks);
      InsortOrdered(le, key, x, s[1..]);
      InsortKeys(le, key, x, s[1..], key);
      HeadLeast(le, ks, ks[0]);
      OrderedCons(le, key(s[0]), Keys(t, key));
      assert Keys([s[0]] + t, key) == [key(s[0])] + Keys(t, key);
    }
  }

  lemma {:induction false} SortOrdered<T>(le: Order, key: T -> string, s: seq<T>)
    requires Total(le)
    ensures multiset(Sort(le, key, s)) == multiset(s) && Ordered(le, Keys(Sort(le, key, s), key))
  {
    if s != [] {
      SortOrdered(le, key, s[1..]);
      InsortOrdered(le, key, s[0], Sort(le, key, s[1..]));
      InsortBag(le, key, s[0], Sort(le, key, s[1..]));
      assert s == [s[0]] + s[1..];
    }
  }

  /** Sorting keeps every key of the members, and keeps distinct keys distinct, whatever key it sorts by. */
  lemma {:induction false} SortKeys<T>(le: Order, key: T -> string, s: seq<T>, other: T -> string)
    ensures forall k :: k in Keys(Sort(le, key, s), other) <==> k in Keys(s, other)
    ensures Distinct(Keys(s, other)) ==> Distinct(Keys(Sort(le, key, s), other))
  {
    if s != [] {
      TailKeys(s, other);
      SortKeys(le, key, s[1..], other);
      InsortKeys(le, key, s[0], Sort(le, key, s[1..]), other);
      if Distinct(Keys(s, other)) {
        DistinctTail(Keys(s, other));
        InsortDistinct(le, key, s[0], Sort(le, key, s[1..]), other);
      }
    }
  }

  /** A list in order is its own sorting. */
  lemma {:induction false} SortSorted<T>(le: Order, key: T -> string, s: seq<T>)
    requires Total(le) && Ordered(le, Keys(s, key))
    ensures Sort(le, key, s) == s
  {
    if s != [] {
      var ks := Keys(s, key);
      TailKeys(s, key);
      OrderedTail(le, ks);
      SortSorted(le, key, s[1..]);
      if |s| > 1 { assert le(ks[0], ks[1]); }
      assert s == [s[0]] + s[1..];
    }
  }

  lemma OrderedHead(le: Order, s: seq<string>, t: seq<string>)
    requires Total(le) && Ordered(le, s) && Ordered(le, t) && s != [] && t != [] && multiset(s) == multiset(t)
    ensures s[0] == t[0]
  {
    assert s[0] in multiset(t) && t[0] in multiset(s);
    HeadLeast(le, s, s[0]);
    HeadLeast(le, t, t[0]);
  }

  lemma BagTail(s: seq<string>)
    requires s != []
    ensures multiset(s[1..]) == multiset(s) - multiset{s[0]}
  {
    assert s == [s[0]] + s[1..];
  }

  /** An ordered list is determined by what it holds and how often. */
  lemma {:induction false} OrderedBag(le: Order, s: seq<string>, t: seq<string>)
    requires Total(le) && Ordered(le, s) && Ordered(le, t) && |s| == |t| && multiset(s) == multiset(t)
    ensures s == t
  {
    if s != [] {
      OrderedHead(le, s, t);
      OrderedTail(le, s);
      OrderedTail(le, t);
      BagTail(s);
      BagTail(t);
      OrderedBag(le, s[1..], t[1..]);
      assert s == [s[0]] + s[1..] && t == [t[0]] + t[1..];
    }
  }

  function Itself(s: string): string { s }

  /** Sorting forgets the order it was given. */
  lemma SortUnordered(le: Order, s: seq<string>, t: seq<string>)
    requires Total(le) && multiset(s) == multiset(t)
    ensures Sort(le, Itself, s) == Sort(le, Itself, t)
  {
    var a, b := Sort(le, Itself, s), Sort(le, Itself, t);
    SortOrdered(le, Itself, s);
    SortOrdered(le, Itself, t);
    assert Keys(a, Itself) == a && Keys(b, Itself) == b;
    assert |a| == |multiset(a)| && |b| == |multiset(b)|;
    OrderedBag(le, a, b);
  }

  // ---------------------------------------------------------------- keyed difference

  predicate HasKey<T>(s: seq<T>, key: T -> string, k: string) {
    k in Keys(s, key)
  }

  /** A map's entries: the first position of each key, with the value written last. */
  function Put<T>(s: seq<T>, key: T -> string, x: T): seq<T> {
    if s == [] then [x]
    else if key(s[0]) == key(x) then [x] + s[1..]
    else [s[0]] + Put(s[1..], key, x)
  }

  function Entries<T>(s: seq<T>, key: T -> string): seq<T> {
    if s == [] then [] else Put(Entries(s[..|s| - 1], key), key, s[|s| - 1])
  }

  function Missing<T>(s: seq<T>, key: T -> string, other: seq<T>): seq<T> {
    if s == [] then []
    else (if HasKey(other, key, key(s[0])) then [] else [s[0]]) + Missing(s[1..], key, other)
  }

  datatype Difference<T> = Difference(add: seq<T>, remove: seq<T>)

  function ArrayDifference<T>(left: seq<T>, right: seq<T>, key: T -> string): Difference<T> {
    Difference(Missing(Entries(right, key), key, left), Missing(Entries(left, key), key, right))
  }

  lemma {:induction false} PutKeys<T>(s: seq<T>, key: T -> string, x: T)
    requires Distinct(Keys(s, key))
    ensures Distinct(Keys(Put(s, key, x), key))
    ensures forall k :: k in Keys(Put(s, key, x), key) <==> k in Keys(s, key) || k == key(x)
    ensures forall y | y in Put(s, key, x) :: y in s || y == x
  {
    if s != [] {
      TailKeys(s, key);
      DistinctTail(Keys(s, key));
      var t := Put(s, key, x);
      TailKeys(t, key);
      if key(s[0]) == key(x) {
        assert t[1..] == s[1..];
      } else {
        PutKeys(s[1..], key, x);
        assert t[1..] == Put(s[1..], key, x);
      }
    } else {
      assert Keys([x], key) == [key(x)];
    }
  }

  lemma {:induction false} EntriesKeys<T>(s: seq<T>, key: T -> string)
    ensures Distinct(Keys(Entries(s, key), key))
    ensures forall k :: k in Keys(Entries(s, key), key) <==> k in Keys(s, key)
    ensures forall y | y in Entries(s, key) :: y in s
  {
    if s != [] {
      var init := s[..|s| - 1];
      EntriesKeys(init, key);
      PutKeys(Entries(init, key), key, s[|s| - 1]);
      assert Keys(s, key) == Keys(init, key) + [key(s[|s| - 1])];
    }
  }

  lemma ConsKeys<T>(x: T, s: seq<T>, key: T -> string)
    ensures Keys([x] + s, key) == [key(x)] + Keys(s, key)
  {
  }

  lemma {:induction false} MissingKeys<T>(s: seq<T>, key: T -> string, other: seq<T>)
    ensures forall k :: k in Keys(Missing(s, key, other), key) <==> k in Keys(s, key) && k !in Keys(other, key)
    ensures forall y | y in Missing(s, key, other) :: y in s
  {
    if s != [] {
      var m := Missing(s[1..], key, other);
      MissingKeys(s[1..], key, other);
      TailKeys(s, key);
      ConsKeys(s[0], m, key);
      assert [] + m == m;
    }
  }

  /** What is to be added is missing on the left, what is to be removed is missing on the right. */
  lemma DifferenceKeys<T>(left: seq<T>, right: seq<T>, key: T -> string)
    ensures var d := ArrayDifference(left, right, key);
      && (forall k :: k in Keys(d.add, key) <==> k in Keys(right, key) && k !in Keys(left, key))
      && (forall k :: k in Keys(d.remove, key) <==> k in Keys(left, key) && k !in Keys(right, key))
      && (forall y | y in d.add :: y in right) && (forall y | y in d.remove :: y in left)
  {
    EntriesKeys(left, key);
    EntriesKeys(right, key);
    MissingKeys(Entries(right, key), key, left);
    MissingKeys(Entries(left, key), key, right);
  }

  /** On ordered lists without duplicates the difference is empty exactly when their keys are equal. */
  lemma NoDifferenceIff<T>(le: Order, left: seq<T>, right: seq<T>, key: T -> string)
    requires Total(le) && Ordered(le, Keys(left, key)) && Ordered(le, Keys(right, key))
    requires Distinct(Keys(left, key)) && Distinct(Keys(right, key))
    ensures ArrayDifference(left, right, key) == Difference([], []) <==> Keys(left, key) == Keys(right, key)
  {
    var d := ArrayDifference(left, right, key);
    DifferenceKeys(left, right, key);
    if d == Difference([], []) {
      assert Keys(d.add, key) == [] && Keys(d.remove, key) == [];
      OrderedUnique(le, Keys(left, key), Keys(right, key));
    }
    if Keys(left, key) == Keys(right, key) {
      EmptyIff(Keys(d.add, key));
      EmptyIff(Keys(d.remove, key));
    }
  }
}
