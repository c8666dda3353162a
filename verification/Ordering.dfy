/** Sorting by a total order, as the planner uses it to make its results stable. */
module Ordering {
  /** Lexicographic order of texts by code point. */
  predicate TextLeq(a: string, b: string) {
    if a == [] then true
    else if b == [] then false
    else a[0] < b[0] || (a[0] == b[0] && TextLeq(a[1..], b[1..]))
  }

  lemma {:induction false} TextLeqTotal(a: string, b: string)
    ensures TextLeq(a, b) || TextLeq(b, a)
    ensures TextLeq(a, b) && TextLeq(b, a) ==> a == b
  {
    if a != [] && b != [] {
      TextLeqTotal(a[1..], b[1..]);
      assert a == [a[0]] + a[1..] && b == [b[0]] + b[1..];
    }
  }

  lemma {:induction false} TextLeqTransitive(a: string, b: string, c: string)
    requires TextLeq(a, b) && TextLeq(b, c)
    ensures TextLeq(a, c)
  {
    if a != [] && b != [] && c != [] && a[0] == b[0] == c[0] {
      TextLeqTransitive(a[1..], b[1..], c[1..]);
    }
  }

  /** A total order on the members of a set. */
  ghost predicate TotalOn<T(!new)>(leq: (T, T) -> bool, s: set<T>) {
    && (forall x, y | x in s && y in s :: leq(x, y) || leq(y, x))
    && (forall x, y | x in s && y in s && leq(x, y) && leq(y, x) :: x == y)
    && (forall x, y, z | x in s && y in s && z in s && leq(x, y) && leq(y, z) :: leq(x, z))
  }

  predicate IsSorted<T>(xs: seq<T>, leq: (T, T) -> bool) {
    forall i, j | 0 <= i < j < |xs| :: leq(xs[i], xs[j])
  }

  predicate NoDuplicates<T(==)>(xs: seq<T>) {
    forall i, j | 0 <= i < j < |xs| :: xs[i] != xs[j]
  }

  function Members<T>(xs: seq<T>): set<T> {
    set x | x in xs
  }

  function Insert<T>(x: T, xs: seq<T>, leq: (T, T) -> bool): seq<T> {
    if xs == [] then [x]
    else if leq(x, xs[0]) then [x] + xs
    else [xs[0]] + Insert(x, xs[1..], leq)
  }

  function Sort<T>(xs: seq<T>, leq: (T, T) -> bool): seq<T> {
    if xs == [] then [] else Insert(xs[0], Sort(xs[1..], leq), leq)
  }

  /** The list without repetitions, first occurrences dropped. */
  function Dedup<T(==)>(xs: seq<T>): seq<T> {
    if xs == [] then []
    else if xs[0] in xs[1..] then Dedup(xs[1..])
    else [xs[0]] + Dedup(xs[1..])
  }

  lemma {:induction false} InsertKeeps<T>(x: T, xs: seq<T>, leq: (T, T) -> bool)
    ensures multiset(Insert(x, xs, leq)) == multiset{x} + multiset(xs)
    ensures Members(Insert(x, xs, leq)) == Members(xs) + {x}
  {
    if xs != [] {
      assert xs == [xs[0]] + xs[1..];
      if !leq(x, xs[0]) {
        InsertKeeps(x, xs[1..], leq);
        assert Members(xs) == Members(xs[1..]) + {xs[0]};
        assert Members([xs[0]] + Insert(x, xs[1..], leq)) == Members(Insert(x, xs[1..], leq)) + {xs[0]};
      }
    }
  }

  lemma {:induction false} InsertSorts<T(!new)>(x: T, xs: seq<T>, leq: (T, T) -> bool)
    requires TotalOn(leq, Members(xs) + {x}) && IsSorted(xs, leq)
    ensures IsSorted(Insert(x, xs, leq), leq)
  {
    if xs != [] && !leq(x, xs[0]) {
      var tail := xs[1..];
      var ys := Insert(x, tail, leq);
      assert Members(tail) + {x} <= Members(xs) + {x};
      InsertSorts(x, tail, leq);
      InsertKeeps(x, tail, leq);
      forall j | 0 <= j < |ys|
        ensures leq(xs[0], ys[j])
      {
        assert ys[j] in Members(tail) + {x};
      }
    } else if xs != [] {
      forall j | 0 <= j < |xs|
        ensures leq(x, xs[j])
      {
        assert xs[j] in Members(xs);
      }
    }
  }

  lemma {:induction false} SortKeeps<T(!new)>(xs: seq<T>, leq: (T, T) -> bool)
    ensures multiset(Sort(xs, leq)) == multiset(xs)
    ensures Members(Sort(xs, leq)) == Members(xs)
    ensures TotalOn(leq, Members(xs)) ==> IsSorted(Sort(xs, leq), leq)
  {
    if xs != [] {
      assert xs == [xs[0]] + xs[1..];
      SortKeeps(xs[1..], leq);
      InsertKeeps(xs[0], Sort(xs[1..], leq), leq);
      assert Members(xs) == Members(xs[1..]) + {xs[0]};
      if TotalOn(leq, Members(xs)) {
        InsertSorts(xs[0], Sort(xs[1..], leq), leq);
      }
    }
  }

  lemma {:induction false} DedupKeeps<T>(xs: seq<T>)
    ensures Members(Dedup(xs)) == Members(xs)
    ensures NoDuplicates(Dedup(xs))
  {
    if xs != [] {
      DedupKeeps(xs[1..]);
      assert xs == [xs[0]] + xs[1..];
      forall y
        ensures y in Dedup(xs) <==> y in xs
      {
        assert y in Dedup(xs[1..]) <==> y in Members(Dedup(xs[1..]));
      }
      assert forall j | 0 <= j < |Dedup(xs[1..])| :: Dedup(xs[1..])[j] in Members(xs[1..]);
    }
  }

  /** Distinctness is a property of the counts. */
  lemma NoDuplicatesByCount<T>(xs: seq<T>, ys: seq<T>)
    requires multiset(xs) == multiset(ys) && NoDuplicates(xs)
    ensures NoDuplicates(ys)
  {
    forall i, j | 0 <= i < j < |ys|
      ensures ys[i] != ys[j]
    {
      if ys[i] == ys[j] {
        var x := ys[i];
        assert ys == ys[..j] + [x] + ys[j + 1..];
        assert x in ys[..j];
        assert multiset(ys)[x] >= 2;
        CountOfDistinct(xs, x);
      }
    }
  }

  lemma {:induction false} CountOfDistinct<T>(xs: seq<T>, x: T)
    requires NoDuplicates(xs)
    ensures multiset(xs)[x] <= 1
  {
    if xs != [] {
      assert xs == [xs[0]] + xs[1..];
      CountOfDistinct(xs[1..], x);
      if x == xs[0] {
        assert x !in xs[1..];
      }
    }
  }

  /** A set has one sorted enumeration. */
  lemma {:induction false} SortedIsUnique<T(!new)>(xs: seq<T>, ys: seq<T>, leq: (T, T) -> bool)
    requires TotalOn(leq, Members(xs)) && Members(xs) == Members(ys)
    requires IsSorted(xs, leq) && IsSorted(ys, leq) && NoDuplicates(xs) && NoDuplicates(ys)
    ensures xs == ys
  {
    assert xs != [] ==> xs[0] in Members(xs);
    assert ys != [] ==> ys[0] in Members(ys);
    if xs != [] && ys != [] {
      assert ys[0] in Members(xs);
      assert leq(xs[0], ys[0]);
      assert leq(ys[0], xs[0]);
      assert xs == [xs[0]] + xs[1..] && ys == [ys[0]] + ys[1..];
      assert Members(xs[1..]) == Members(xs) - {xs[0]};
      assert Members(ys[1..]) == Members(ys) - {ys[0]};
      SortedIsUnique(xs[1..], ys[1..], leq);
    }
  }

  /** Sorting forgets the order of the input. */
  lemma SortForgetsOrder<T(!new)>(xs: seq<T>, ys: seq<T>, leq: (T, T) -> bool)
    requires TotalOn(leq, Members(xs)) && Members(xs) == Members(ys)
    requires NoDuplicates(xs) && NoDuplicates(ys)
    ensures Sort(xs, leq) == Sort(ys, leq)
  {
    SortKeeps(xs, leq);
    SortKeeps(ys, leq);
    NoDuplicatesByCount(xs, Sort(xs, leq));
    NoDuplicatesByCount(ys, Sort(ys, leq));
    SortedIsUnique(Sort(xs, leq), Sort(ys, leq), leq);
  }
}
