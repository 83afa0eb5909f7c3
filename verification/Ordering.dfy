/** Values shared by every component: optional values, results, and the sorting
    that Python's `sorted` performs (a stable insertion sort has the same result). */
module Basics {
  datatype Option<+T> = None | Some(value: T)

  datatype Result<+T, +E> = Ok(value: T) | Err(error: E)

  function Max(a: int, b: int): int { if a < b then b else a }

  function Min(a: int, b: int): int { if a < b then a else b }

  /** A set display of the elements of a sequence. */
  function SetOf<T>(xs: seq<T>): set<T> { set x | x in xs }

  function Filter<T>(keep: T -> bool, xs: seq<T>): seq<T> {
    if |xs| == 0 then [] else (if keep(xs[0]) then [xs[0]] else []) + Filter(keep, xs[1..])
  }

  function Sum<T>(f: T -> int, xs: seq<T>): int {
    if |xs| == 0 then 0 else f(xs[0]) + Sum(f, xs[1..])
  }

  lemma {:induction false} SumSplit<T>(f: T -> int, xs: seq<T>, ys: seq<T>)
    ensures Sum(f, xs + ys) == Sum(f, xs) + Sum(f, ys)
  {
    if |xs| == 0 {
      assert xs + ys == ys;
    } else {
      HeadAndTail(xs, ys);
      SumSplit(f, xs[1..], ys);
    }
  }

  function Map<T, U>(f: T -> U, xs: seq<T>): seq<U> {
    if |xs| == 0 then [] else [f(xs[0])] + Map(f, xs[1..])
  }

  lemma {:induction false} FilterMembers<T>(keep: T -> bool, xs: seq<T>)
    ensures forall x :: x in Filter(keep, xs) <==> x in xs && keep(x)
    ensures |Filter(keep, xs)| <= |xs|
  {
    if |xs| > 0 { FilterMembers(keep, xs[1..]); }
  }

  lemma HeadAndTail<T>(xs: seq<T>, ys: seq<T>)
    requires |xs| > 0
    ensures (xs + ys)[0] == xs[0] && (xs + ys)[1..] == xs[1..] + ys
  {
  }

  lemma Regroup<T>(a: seq<T>, b: seq<T>, c: seq<T>)
    ensures a + (b + c) == a + b + c
  {
  }

  lemma TakeNext<T>(xs: seq<T>, i: nat)
    requires i < |xs|
    ensures xs[..i + 1] == xs[..i] + [xs[i]]
  {
  }

  lemma TakeAll<T>(xs: seq<T>)
    ensures xs[..0] == [] && xs[..|xs|] == xs
  {
  }

  lemma HeadOrTail<T>(xs: seq<T>)
    requires |xs| > 0
    ensures forall x :: x in xs <==> x == xs[0] || x in xs[1..]
  {
    assert xs == [xs[0]] + xs[1..];
  }

  lemma SplitLast<T>(xs: seq<T>)
    requires |xs| > 0
    ensures xs == xs[..|xs| - 1] + [xs[|xs| - 1]]
    ensures multiset(xs) == multiset(xs[..|xs| - 1]) + multiset{xs[|xs| - 1]}
  {
    assert xs == xs[..|xs| - 1] + [xs[|xs| - 1]];
  }

  lemma {:induction false} FilterSplit<T>(keep: T -> bool, xs: seq<T>, ys: seq<T>)
    ensures Filter(keep, xs + ys) == Filter(keep, xs) + Filter(keep, ys)
  {
    if |xs| == 0 {
      assert xs + ys == ys;
    } else {
      HeadAndTail(xs, ys);
      FilterSplit(keep, xs[1..], ys);
      Regroup(if keep(xs[0]) then [xs[0]] else [], Filter(keep, xs[1..]), Filter(keep, ys));
    }
  }

  lemma TakenOut<T>(xs: seq<T>, i: nat)
    requires i < |xs|
    ensures xs == xs[..i] + ([xs[i]] + xs[i + 1..])
    ensures multiset(xs[..i] + xs[i + 1..]) == multiset(xs) - multiset{xs[i]}
  {
    assert xs == xs[..i] + ([xs[i]] + xs[i + 1..]);
    assert multiset(xs) == multiset(xs[..i]) + multiset([xs[i]] + xs[i + 1..]);
  }

  /** Taking one occurrence of the head out of a permutation leaves a permutation of the tail. */
  lemma TakeOut<T>(xs: seq<T>, ys: seq<T>) returns (i: nat)
    requires multiset(xs) == multiset(ys) && |xs| > 0
    ensures i < |ys| && ys[i] == xs[0]
    ensures ys == ys[..i] + ([ys[i]] + ys[i + 1..])
    ensures multiset(xs[1..]) == multiset(ys[..i] + ys[i + 1..])
  {
    assert xs[0] in multiset(ys);
    i :| 0 <= i < |ys| && ys[i] == xs[0];
    TakenOut(xs, 0);
    TakenOut(ys, i);
    assert xs[..0] + xs[1..] == xs[1..];
  }

  lemma {:induction false} FilterPermutation<T>(keep: T -> bool, xs: seq<T>, ys: seq<T>)
    requires multiset(xs) == multiset(ys)
    ensures multiset(Filter(keep, xs)) == multiset(Filter(keep, ys))
  {
    if |xs| == 0 {
      assert |multiset(ys)| == 0;
    } else {
      var i := TakeOut(xs, ys);
      FilterPermutation(keep, xs[1..], ys[..i] + ys[i + 1..]);
      FilterSplit(keep, ys[..i], [ys[i]] + ys[i + 1..]);
      FilterSplit(keep, [ys[i]], ys[i + 1..]);
      FilterSplit(keep, ys[..i], ys[i + 1..]);
    }
  }

  lemma {:induction false} FiltersCommute<T>(f: T -> bool, g: T -> bool, xs: seq<T>)
    ensures Filter(f, Filter(g, xs)) == Filter(g, Filter(f, xs))
  {
    if |xs| > 0 {
      FiltersCommute(f, g, xs[1..]);
      FilterSplit(f, if g(xs[0]) then [xs[0]] else [], Filter(g, xs[1..]));
      FilterSplit(g, if f(xs[0]) then [xs[0]] else [], Filter(f, xs[1..]));
    }
  }

  lemma {:induction false} MapIndex<T, U>(f: T -> U, xs: seq<T>)
    ensures |Map(f, xs)| == |xs| && forall i | 0 <= i < |xs| :: Map(f, xs)[i] == f(xs[i])
  {
    if |xs| > 0 { MapIndex(f, xs[1..]); }
  }

  lemma MapMembers<T, U>(f: T -> U, xs: seq<T>)
    ensures forall y :: y in Map(f, xs) <==> exists x :: x in xs && f(x) == y
  {
    MapIndex(f, xs);
    forall x | x in xs ensures f(x) in Map(f, xs) {
      var i :| 0 <= i < |xs| && xs[i] == x;
      assert Map(f, xs)[i] == f(x);
    }
  }

  lemma {:induction false} MapSplit<T, U>(f: T -> U, xs: seq<T>, ys: seq<T>)
    ensures Map(f, xs + ys) == Map(f, xs) + Map(f, ys)
  {
    if |xs| == 0 {
      assert xs + ys == ys;
    } else {
      HeadAndTail(xs, ys);
      MapSplit(f, xs[1..], ys);
      Regroup([f(xs[0])], Map(f, xs[1..]), Map(f, ys));
    }
  }

  lemma {:induction false} MapPermutation<T, U>(f: T -> U, xs: seq<T>, ys: seq<T>)
    requires multiset(xs) == multiset(ys)
    ensures multiset(Map(f, xs)) == multiset(Map(f, ys))
  {
    if |xs| == 0 {
      assert |multiset(ys)| == 0;
    } else {
      var i := TakeOut(xs, ys);
      MapPermutation(f, xs[1..], ys[..i] + ys[i + 1..]);
      MapSplit(f, ys[..i], [ys[i]] + ys[i + 1..]);
      MapSplit(f, [ys[i]], ys[i + 1..]);
      MapSplit(f, ys[..i], ys[i + 1..]);
    }
  }

  ghost predicate Distinct<T>(xs: seq<T>) {
    forall i, j | 0 <= i < j < |xs| :: xs[i] != xs[j]
  }
}

module Ordering {
  import opened Basics

  lemma {:induction false} DistinctCounts<T>(xs: seq<T>, x: T)
    requires Distinct(xs)
    ensures multiset(xs)[x] <= 1
  {
    if |xs| > 0 {
      assert xs == [xs[0]] + xs[1..];
      DistinctCounts(xs[1..], x);
      assert forall k | 0 <= k < |xs| - 1 :: xs[1..][k] == xs[k + 1] && xs[k + 1] != xs[0];
      assert xs[0] !in xs[1..];
    }
  }

  lemma TwiceCounts<T>(xs: seq<T>, i: nat, j: nat)
    requires i < j < |xs|
    ensures xs[i] == xs[j] ==> multiset(xs)[xs[i]] >= 2
  {
    assert xs == xs[..j] + [xs[j]] + xs[j + 1..];
    assert xs[..j][i] in multiset(xs[..j]);
  }

  ghost predicate TotalPreorder<T(!new)>(le: (T, T) -> bool) {
    && (forall a, b :: le(a, b) || le(b, a))
    && (forall a, b, c :: le(a, b) && le(b, c) ==> le(a, c))
  }

  ghost predicate AntisymmetricOn<T>(le: (T, T) -> bool, xs: seq<T>) {
    forall a, b | a in xs && b in xs && le(a, b) && le(b, a) :: a == b
  }

  ghost predicate Sorted<T>(le: (T, T) -> bool, xs: seq<T>) {
    forall i, j | 0 <= i < j < |xs| :: le(xs[i], xs[j])
  }

  function Insert<T>(le: (T, T) -> bool, x: T, xs: seq<T>): seq<T> {
    if |xs| == 0 then [x]
    else if le(x, xs[0]) then [x] + xs
    else [xs[0]] + Insert(le, x, xs[1..])
  }

  function SortBy<T>(le: (T, T) -> bool, xs: seq<T>): seq<T> {
    if |xs| == 0 then [] else Insert(le, xs[0], SortBy(le, xs[1..]))
  }

  lemma SameMembers<T>(xs: seq<T>, ys: seq<T>)
    requires multiset(xs) == multiset(ys)
    ensures |xs| == |ys| && forall x :: x in xs <==> x in ys
  {
    assert |multiset(xs)| == |multiset(ys)|;
    forall x ensures x in xs <==> x in ys { assert x in xs <==> x in multiset(xs); }
  }

  /** Sorting rearranges, whatever the comparison. */
  lemma SortByRearranges<T>(le: (T, T) -> bool, xs: seq<T>)
    ensures multiset(SortBy(le, xs)) == multiset(xs)
    ensures |SortBy(le, xs)| == |xs| && forall x :: x in SortBy(le, xs) <==> x in xs
  {
    SortByKeepsCounts(le, xs);
    SameMembers(SortBy(le, xs), xs);
  }

  lemma {:induction false} SortByKeepsCounts<T>(le: (T, T) -> bool, xs: seq<T>)
    ensures multiset(SortBy(le, xs)) == multiset(xs)
  {
    if |xs| > 0 {
      SortByKeepsCounts(le, xs[1..]);
      InsertRearranges(le, xs[0], SortBy(le, xs[1..]));
      assert xs == [xs[0]] + xs[1..];
    }
  }

  lemma {:induction false} InsertRearranges<T>(le: (T, T) -> bool, x: T, xs: seq<T>)
    ensures multiset(Insert(le, x, xs)) == multiset{x} + multiset(xs)
  {
    if |xs| > 0 {
      assert xs == [xs[0]] + xs[1..];
      if !le(x, xs[0]) { InsertRearranges(le, x, xs[1..]); }
    }
  }

  lemma SortedTail<T>(le: (T, T) -> bool, xs: seq<T>)
    requires Sorted(le, xs) && |xs| > 0
    ensures Sorted(le, xs[1..]) && forall y | y in xs[1..] :: le(xs[0], y)
  {
    forall i, j | 0 <= i < j < |xs| - 1 ensures le(xs[1..][i], xs[1..][j]) {
      assert xs[1..][i] == xs[i + 1] && xs[1..][j] == xs[j + 1];
    }
    forall y | y in xs[1..] ensures le(xs[0], y) {
      var i :| 0 <= i < |xs| - 1 && xs[1..][i] == y;
      assert xs[i + 1] == y;
    }
  }

  lemma SortedCons<T>(le: (T, T) -> bool, x: T, xs: seq<T>)
    requires Sorted(le, xs) && forall y | y in xs :: le(x, y)
    ensures Sorted(le, [x] + xs)
  {
    forall i, j | 0 <= i < j < |xs| + 1 ensures le(([x] + xs)[i], ([x] + xs)[j]) {
      assert ([x] + xs)[j] == xs[j - 1] && (i > 0 ==> ([x] + xs)[i] == xs[i - 1]);
    }
  }

  lemma InsertMembers<T>(le: (T, T) -> bool, x: T, xs: seq<T>)
    ensures forall y | y in Insert(le, x, xs) :: y == x || y in xs
  {
    InsertRearranges(le, x, xs);
    forall y | y in Insert(le, x, xs) ensures y == x || y in xs {
      assert y in multiset(Insert(le, x, xs));
    }
  }

  lemma {:induction false} InsertSorts<T(!new)>(le: (T, T) -> bool, x: T, xs: seq<T>)
    requires TotalPreorder(le) && Sorted(le, xs)
    ensures multiset(Insert(le, x, xs)) == multiset{x} + multiset(xs)
    ensures Sorted(le, Insert(le, x, xs))
  {
    InsertRearranges(le, x, xs);
    if |xs| > 0 {
      SortedTail(le, xs);
      if le(x, xs[0]) {
        forall y | y in xs ensures le(x, y) { assert y == xs[0] || y in xs[1..]; }
        SortedCons(le, x, xs);
      } else {
        InsertSorts(le, x, xs[1..]);
        InsertMembers(le, x, xs[1..]);
        SortedCons(le, xs[0], Insert(le, x, xs[1..]));
      }
    }
  }

  lemma {:induction false} SortByIsSorted<T(!new)>(le: (T, T) -> bool, xs: seq<T>)
    requires TotalPreorder(le)
    ensures Sorted(le, SortBy(le, xs))
  {
    if |xs| > 0 {
      SortByIsSorted(le, xs[1..]);
      InsertSorts(le, xs[0], SortBy(le, xs[1..]));
    }
  }

  /** Sorting yields the ordered arrangement of exactly the given elements. */
  lemma SortBySorts<T(!new)>(le: (T, T) -> bool, xs: seq<T>)
    requires TotalPreorder(le)
    ensures multiset(SortBy(le, xs)) == multiset(xs)
    ensures Sorted(le, SortBy(le, xs))
    ensures |SortBy(le, xs)| == |xs|
    ensures forall x :: x in SortBy(le, xs) <==> x in xs
  {
    SortByRearranges(le, xs);
    SortByIsSorted(le, xs);
  }

  lemma TailMultiset<T>(xs: seq<T>)
    requires |xs| > 0
    ensures multiset(xs[1..]) == multiset(xs) - multiset{xs[0]}
  {
    assert xs == [xs[0]] + xs[1..];
  }

  lemma SortedHeadsAgree<T>(le: (T, T) -> bool, xs: seq<T>, ys: seq<T>)
    requires Sorted(le, xs) && Sorted(le, ys) && |xs| > 0
    requires multiset(xs) == multiset(ys)
    requires AntisymmetricOn(le, xs)
    ensures |ys| > 0 && xs[0] == ys[0]
  {
    assert xs[0] in multiset(ys);
    assert ys[0] in multiset(xs);
    var i :| 0 <= i < |xs| && xs[i] == ys[0];
    var j :| 0 <= j < |ys| && ys[j] == xs[0];
    if i > 0 && j > 0 {
      assert le(xs[0], xs[i]) && le(ys[0], ys[j]);
    }
  }

  lemma AntisymmetricTail<T>(le: (T, T) -> bool, xs: seq<T>)
    requires AntisymmetricOn(le, xs) && |xs| > 0
    ensures AntisymmetricOn(le, xs[1..])
  {
    assert forall a | a in xs[1..] :: a in xs;
  }

  lemma SameHeadAndTail<T>(xs: seq<T>, ys: seq<T>)
    requires |xs| > 0 && |ys| > 0 && xs[0] == ys[0] && xs[1..] == ys[1..]
    ensures xs == ys
  {
    assert xs == [xs[0]] + xs[1..] && ys == [ys[0]] + ys[1..];
  }

  /** An ordered arrangement is unique as soon as no two elements tie. */
  lemma {:induction false} SortedUnique<T>(le: (T, T) -> bool, xs: seq<T>, ys: seq<T>)
    requires Sorted(le, xs) && Sorted(le, ys)
    requires multiset(xs) == multiset(ys)
    requires AntisymmetricOn(le, xs)
    ensures xs == ys
  {
    hide Sorted, AntisymmetricOn;
    if |xs| == 0 {
      assert |multiset(ys)| == 0;
    } else {
      SortedHeadsAgree(le, xs, ys);
      TailMultiset(xs);
      TailMultiset(ys);
      SortedTail(le, xs);
      SortedTail(le, ys);
      AntisymmetricTail(le, xs);
      SortedUnique(le, xs[1..], ys[1..]);
      SameHeadAndTail(xs, ys);
    }
  }

  /** The canonical order forgets the order in which the elements arrived. */
  lemma SortByForgetsOrder<T(!new)>(le: (T, T) -> bool, xs: seq<T>, ys: seq<T>)
    requires TotalPreorder(le) && multiset(xs) == multiset(ys)
    requires AntisymmetricOn(le, xs)
    ensures SortBy(le, xs) == SortBy(le, ys)
  {
    SortBySorts(le, xs);
    SortBySorts(le, ys);
    SortedUnique(le, SortBy(le, xs), SortBy(le, ys));
  }

  lemma {:induction false} FilterKeepsSorted<T(!new)>(le: (T, T) -> bool, keep: T -> bool, xs: seq<T>)
    requires Sorted(le, xs)
    ensures Sorted(le, Filter(keep, xs))
  {
    if |xs| > 0 {
      var tail := xs[1..];
      assert forall i, j | 0 <= i < j < |tail| :: tail[i] == xs[i + 1] && tail[j] == xs[j + 1];
      FilterKeepsSorted(le, keep, tail);
      FilterMembers(keep, tail);
      var kept := Filter(keep, tail);
      forall j | 0 <= j < |kept| ensures le(xs[0], kept[j]) {
        assert kept[j] in kept;
        var i :| 0 <= i < |tail| && tail[i] == kept[j];
        assert xs[i + 1] == kept[j];
      }
    }
  }

  /** Python's order on strings: lexicographic by code point. */
  predicate StrLe(a: string, b: string) {
    |a| == 0 || (|b| > 0 && (a[0] < b[0] || (a[0] == b[0] && StrLe(a[1..], b[1..]))))
  }

  /** The two texts share their first k characters, and there b goes on, or has the greater character. */
  predicate DivergeAt(a: string, b: string, k: nat) {
    && k <= |a| && k <= |b| && a[..k] == b[..k]
    && (k == |a| || (k < |b| && a[k] < b[k]))
  }

  /** Lexicographic: at the first difference the smaller character comes first, and a beginning comes before the whole.
      */
  lemma {:induction false} StrLeIsLexicographic(a: string, b: string)
    ensures StrLe(a, b) <==> exists k: nat :: DivergeAt(a, b, k)
  {
    if |a| == 0 {
      assert DivergeAt(a, b, 0);
    } else if |b| == 0 {
      assert forall k: nat :: !DivergeAt(a, b, k);
    } else if a[0] == b[0] {
      StrLeIsLexicographic(a[1..], b[1..]);
      forall k: nat ensures DivergeAt(a[1..], b[1..], k) <==> DivergeAt(a, b, k + 1) { DivergeNext(a, b, k); }
      assert !DivergeAt(a, b, 0);
      if k: nat :| DivergeAt(a, b, k) { assert DivergeAt(a[1..], b[1..], k - 1); }
    } else {
      if a[0] < b[0] { assert DivergeAt(a, b, 0); }
      forall k: nat | k > 0 ensures !DivergeAt(a, b, k) {
        if k <= |a| && k <= |b| { assert a[..k][0] != b[..k][0]; }
      }
    }
  }

  lemma DivergeNext(a: string, b: string, k: nat)
    requires |a| > 0 && |b| > 0 && a[0] == b[0]
    ensures DivergeAt(a[1..], b[1..], k) <==> DivergeAt(a, b, k + 1)
  {
    if k < |a| && k < |b| {
      assert a[..k + 1] == [a[0]] + a[1..][..k] && b[..k + 1] == [b[0]] + b[1..][..k];
      assert a[..k + 1][1..] == a[1..][..k] && b[..k + 1][1..] == b[1..][..k];
    }
  }

  lemma {:induction false} StrLeTotal(a: string, b: string)
    ensures StrLe(a, b) || StrLe(b, a)
  {
    if |a| > 0 && |b| > 0 && a[0] == b[0] { StrLeTotal(a[1..], b[1..]); }
  }

  lemma {:induction false} StrLeAntisymmetric(a: string, b: string)
    requires StrLe(a, b) && StrLe(b, a)
    ensures a == b
  {
    if |a| > 0 {
      StrLeAntisymmetric(a[1..], b[1..]);
      assert a == [a[0]] + a[1..] && b == [b[0]] + b[1..];
    }
  }

  lemma {:induction false} StrLeTransitive(a: string, b: string, c: string)
    requires StrLe(a, b) && StrLe(b, c)
    ensures StrLe(a, c)
  {
    if |a| > 0 && a[0] == b[0] == c[0] { StrLeTransitive(a[1..], b[1..], c[1..]); }
  }

  lemma StrLeOrder()
    ensures TotalPreorder(StrLe)
    ensures forall a: string, b: string | StrLe(a, b) && StrLe(b, a) :: a == b
  {
    forall a: string, b: string ensures StrLe(a, b) || StrLe(b, a) { StrLeTotal(a, b); }
    forall a: string, b: string | StrLe(a, b) && StrLe(b, a) ensures a == b { StrLeAntisymmetric(a, b); }
    forall a: string, b: string, c: string | StrLe(a, b) && StrLe(b, c) ensures StrLe(a, c) {
      StrLeTransitive(a, b, c);
    }
  }

  /** `dict.fromkeys`: each value once, where it first occurs. */
  function Dedupe(xs: seq<string>): seq<string> {
    if |xs| == 0 then []
    else
      var front := Dedupe(xs[..|xs| - 1]);
      if xs[|xs| - 1] in front then front else front + [xs[|xs| - 1]]
  }

  /** `sorted(set(...))`. */
  function SortedSet(xs: seq<string>): seq<string> { SortBy(StrLe, Dedupe(xs)) }

  lemma {:induction false} DedupeKeeps(xs: seq<string>)
    ensures Distinct(Dedupe(xs)) && forall x :: x in Dedupe(xs) <==> x in xs
  {
    if |xs| > 0 {
      var front := xs[..|xs| - 1];
      assert xs == front + [xs[|xs| - 1]];
      DedupeKeeps(front);
    }
  }

  lemma DedupeEmpty(xs: seq<string>)
    ensures Dedupe(xs) == [] <==> xs == []
  {
    DedupeKeeps(xs);
    if |xs| > 0 { assert xs[0] in Dedupe(xs); }
  }

  /** The elements of the list, each once, in order. */
  lemma SortedSetSorts(xs: seq<string>)
    ensures Sorted(StrLe, SortedSet(xs)) && Distinct(SortedSet(xs)) && forall x :: x in SortedSet(xs) <==> x in xs
  {
    DedupeKeeps(xs);
    StrLeOrder();
    SortBySorts(StrLe, Dedupe(xs));
    var sorted := SortedSet(xs);
    forall i, j | 0 <= i < j < |sorted| ensures sorted[i] != sorted[j] {
      DistinctCounts(Dedupe(xs), sorted[i]);
      TwiceCounts(sorted, i, j);
    }
  }
}
