/** The stable sort and the filter of arrays, with the laws the other modules need. */
module Sorting {
  function Filter<T>(p: T -> bool, xs: seq<T>): seq<T> {
    if xs == [] then [] else if p(xs[0]) then [xs[0]] + Filter(p, xs[1..]) else Filter(p, xs[1..])
  }

  lemma {:induction false} FilterIsExact<T>(p: T -> bool, xs: seq<T>, x: T)
    ensures x in Filter(p, xs) <==> x in xs && p(x)
    ensures multiset(Filter(p, xs))[x] == if p(x) then multiset(xs)[x] else 0
  {
    if xs != [] {
      FilterIsExact(p, xs[1..], x);
      assert xs == [xs[0]] + xs[1..];
    }
  }

  lemma {:induction false} FilterOfSum<T>(p: T -> bool, a: seq<T>, b: seq<T>)
    ensures Filter(p, a + b) == Filter(p, a) + Filter(p, b)
  {
    if a == [] {
      assert a + b == b;
    } else {
      FilterOfSum(p, a[1..], b);
      assert (a + b)[1..] == a[1..] + b;
    }
  }

  lemma {:induction false} FilterFindsNothing<T>(p: T -> bool, xs: seq<T>)
    requires forall x <- xs :: !p(x)
    ensures Filter(p, xs) == []
  {
    if xs != [] { FilterFindsNothing(p, xs[1..]); }
  }

  /** Puts `x` before the first element that must come after it. */
  function Insert<T>(leq: (T, T) -> bool, x: T, xs: seq<T>): seq<T> {
    if xs == [] || leq(x, xs[0]) then [x] + xs else [xs[0]] + Insert(leq, x, xs[1..])
  }

  function Sort<T>(leq: (T, T) -> bool, xs: seq<T>): seq<T> {
    if xs == [] then [] else Insert(leq, xs[0], Sort(leq, xs[1..]))
  }

  ghost predicate TotalOrder<T(!new)>(leq: (T, T) -> bool) {
    && (forall a, b :: leq(a, b) || leq(b, a))
    && (forall a, b, c :: leq(a, b) && leq(b, c) ==> leq(a, c))
  }

  predicate Sorted<T>(leq: (T, T) -> bool, xs: seq<T>) {
    forall i, j :: 0 <= i < j < |xs| ==> leq(xs[i], xs[j])
  }

  lemma {:induction false} InsertKeepsAll<T>(leq: (T, T) -> bool, x: T, xs: seq<T>)
    ensures multiset(Insert(leq, x, xs)) == multiset{x} + multiset(xs)
  {
    if xs != [] && !leq(x, xs[0]) {
      InsertKeepsAll(leq, x, xs[1..]);
      assert xs == [xs[0]] + xs[1..];
    }
  }

  lemma {:induction false} InsertKeepsSorted<T(!new)>(leq: (T, T) -> bool, x: T, xs: seq<T>)
    requires TotalOrder(leq) && Sorted(leq, xs)
    ensures Sorted(leq, Insert(leq, x, xs))
  {
    if xs != [] && !leq(x, xs[0]) {
      var rest := Insert(leq, x, xs[1..]);
      InsertKeepsSorted(leq, x, xs[1..]);
      InsertKeepsAll(leq, x, xs[1..]);
      forall y | y in rest ensures leq(xs[0], y) {
        assert y in multiset(rest);
      }
    }
  }

  /** Elements of the class need no order among themselves. */
  ghost predicate Level<T(!new)>(leq: (T, T) -> bool, p: T -> bool) {
    forall a, b :: p(a) && p(b) ==> leq(a, b)
  }

  lemma LevelPasses<T(!new)>(leq: (T, T) -> bool, p: T -> bool, a: T, b: T)
    requires Level(leq, p) && p(a) && !leq(a, b)
    ensures !p(b)
  {
  }

  /** Elements that need no order among themselves keep the one they have. */
  lemma {:induction false} InsertIsStable<T(!new)>(leq: (T, T) -> bool, p: T -> bool, x: T, xs: seq<T>)
    requires Level(leq, p)
    ensures Filter(p, Insert(leq, x, xs)) == if p(x) then [x] + Filter(p, xs) else Filter(p, xs)
  {
    hide Level;
    if xs == [] || leq(x, xs[0]) {
      assert ([x] + xs)[1..] == xs;
    } else {
      var rest := Insert(leq, x, xs[1..]);
      InsertIsStable(leq, p, x, xs[1..]);
      assert ([xs[0]] + rest)[1..] == rest;
      assert Filter(p, [xs[0]] + rest) == if p(xs[0]) then [xs[0]] + Filter(p, rest) else Filter(p, rest);
      if p(x) { LevelPasses(leq, p, x, xs[0]); }
    }
  }

  lemma {:induction false} InsertKeepsCount<T>(leq: (T, T) -> bool, p: T -> bool, x: T, xs: seq<T>)
    ensures |Filter(p, Insert(leq, x, xs))| == (if p(x) then 1 else 0) + |Filter(p, xs)|
  {
    if xs == [] || leq(x, xs[0]) {
      assert ([x] + xs)[1..] == xs;
    } else {
      InsertKeepsCount(leq, p, x, xs[1..]);
      assert ([xs[0]] + Insert(leq, x, xs[1..]))[1..] == Insert(leq, x, xs[1..]);
    }
  }

  /** Sorting orders and loses nothing. */
  lemma {:induction false} SortSorts<T(!new)>(leq: (T, T) -> bool, xs: seq<T>)
    requires TotalOrder(leq)
    ensures Sorted(leq, Sort(leq, xs)) && multiset(Sort(leq, xs)) == multiset(xs)
  {
    hide Sorted, TotalOrder;
    if xs == [] {
      assert Sorted(leq, Sort(leq, xs)) by { NothingIsSorted(leq); }
    } else {
      SortSorts(leq, xs[1..]);
      InsertKeepsAll(leq, xs[0], Sort(leq, xs[1..]));
      InsertKeepsSorted(leq, xs[0], Sort(leq, xs[1..]));
      assert xs == [xs[0]] + xs[1..];
    }
  }

  lemma NothingIsSorted<T>(leq: (T, T) -> bool)
    ensures Sorted(leq, [])
  {
  }

  lemma {:induction false} SortKeepsAll<T>(leq: (T, T) -> bool, xs: seq<T>)
    ensures multiset(Sort(leq, xs)) == multiset(xs)
  {
    if xs != [] {
      SortKeepsAll(leq, xs[1..]);
      InsertKeepsAll(leq, xs[0], Sort(leq, xs[1..]));
      assert xs == [xs[0]] + xs[1..];
    }
  }

  lemma {:induction false} SortIsStable<T(!new)>(leq: (T, T) -> bool, p: T -> bool, xs: seq<T>)
    requires Level(leq, p)
    ensures Filter(p, Sort(leq, xs)) == Filter(p, xs)
  {
    hide Level;
    if xs != [] {
      SortIsStable(leq, p, xs[1..]);
      InsertIsStable(leq, p, xs[0], Sort(leq, xs[1..]));
    }
  }

  lemma {:induction false} SortKeepsCount<T>(leq: (T, T) -> bool, p: T -> bool, xs: seq<T>)
    ensures |Filter(p, Sort(leq, xs))| == |Filter(p, xs)|
  {
    if xs != [] {
      SortKeepsCount(leq, p, xs[1..]);
      InsertKeepsCount(leq, p, xs[0], Sort(leq, xs[1..]));
    }
  }
}
