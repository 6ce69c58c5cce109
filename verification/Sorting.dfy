/** Stable sorting, text order and list comprehensions, shared by the other modules.
    Every `sorted`, `sort` with a key and ORDER BY of the program is `Sort` under some order, and every filtering
    comprehension is `Filter`; the lemmas below are what makes their results independent of how the input was
    arranged, or dependent on it only through ties. */
module Sorting {

  /** Order in which any two elements are comparable. */
  ghost predicate TotalPreorder<T(!new)>(le: (T, T) -> bool) {
    && (forall x, y :: le(x, y) || le(y, x))
    && (forall x, y, z :: le(x, y) && le(y, z) ==> le(x, z))
  }

  ghost predicate Antisymmetric<T(!new)>(le: (T, T) -> bool) {
    forall x, y :: le(x, y) && le(y, x) ==> x == y
  }

  ghost predicate Sorted<T>(xs: seq<T>, le: (T, T) -> bool) {
    forall i, j :: 0 <= i < j < |xs| ==> le(xs[i], xs[j])
  }

  ghost predicate Distinct<T>(xs: seq<T>) {
    forall i, j :: 0 <= i < j < |xs| ==> xs[i] != xs[j]
  }

  function Insert<T>(x: T, xs: seq<T>, le: (T, T) -> bool): (r: seq<T>)
    ensures multiset(r) == multiset{x} + multiset(xs)
  {
    if xs == [] then [x]
    else if le(x, xs[0]) then [x] + xs
    else
      assert xs == [xs[0]] + xs[1..];
      [xs[0]] + Insert(x, xs[1..], le)
  }

  /** Stable insertion sort: an element stays ahead of later elements it ties with. */
  function Sort<T>(xs: seq<T>, le: (T, T) -> bool): (r: seq<T>)
    ensures multiset(r) == multiset(xs)
  {
    if xs == [] then []
    else
      assert xs == [xs[0]] + xs[1..];
      Insert(xs[0], Sort(xs[1..], le), le)
  }

  lemma {:induction false} InsertSorted<T(!new)>(x: T, xs: seq<T>, le: (T, T) -> bool)
    requires TotalPreorder(le) && Sorted(xs, le)
    ensures Sorted(Insert(x, xs, le), le)
  {
    if xs != [] && !le(x, xs[0]) {
      var t := Insert(x, xs[1..], le);
      InsertSorted(x, xs[1..], le);
      forall y | y in t ensures le(xs[0], y) {
        assert y in multiset(t);
        assert y == x || y in xs[1..];
      }
    }
  }

  lemma {:induction false} SortSorts<T(!new)>(xs: seq<T>, le: (T, T) -> bool)
    requires TotalPreorder(le)
    ensures Sorted(Sort(xs, le), le)
  {
    if xs != [] {
      SortSorts(xs[1..], le);
      InsertSorted(xs[0], Sort(xs[1..], le), le);
    }
  }

  /** Membership and length survive sorting. */
  lemma SortMembers<T>(xs: seq<T>, le: (T, T) -> bool)
    ensures |Sort(xs, le)| == |xs|
    ensures forall x :: x in Sort(xs, le) <==> x in xs
  {
    var r := Sort(xs, le);
    assert |r| == |multiset(r)| == |multiset(xs)|;
    forall x ensures x in r <==> x in xs {
      assert x in r <==> x in multiset(r);
      assert x in xs <==> x in multiset(xs);
    }
  }

  lemma {:induction false} DistinctCount<T>(xs: seq<T>)
    ensures Distinct(xs) <==> forall x :: multiset(xs)[x] <= 1
  {
    if xs != [] {
      DistinctCount(xs[1..]);
      assert xs == [xs[0]] + xs[1..];
      assert Distinct(xs) <==> Distinct(xs[1..]) && xs[0] !in xs[1..];
      assert xs[0] in xs[1..] <==> multiset(xs[1..])[xs[0]] > 0;
      forall x ensures multiset(xs)[x] == multiset(xs[1..])[x] + (if x == xs[0] then 1 else 0) {}
    }
  }

  lemma SortDistinct<T>(xs: seq<T>, le: (T, T) -> bool)
    requires Distinct(xs)
    ensures Distinct(Sort(xs, le))
  {
    DistinctCount(xs);
    DistinctCount(Sort(xs, le));
  }

  /** `le` first, `tie` among equals. */
  ghost predicate Lex<T>(x: T, y: T, le: (T, T) -> bool, tie: (T, T) -> bool) {
    le(x, y) && (le(y, x) ==> tie(x, y))
  }

  ghost predicate LexSorted<T>(xs: seq<T>, le: (T, T) -> bool, tie: (T, T) -> bool) {
    forall i, j :: 0 <= i < j < |xs| ==> Lex(xs[i], xs[j], le, tie)
  }

  lemma {:induction false} InsertStable<T(!new)>(x: T, xs: seq<T>, le: (T, T) -> bool, tie: (T, T) -> bool)
    requires TotalPreorder(le) && LexSorted(xs, le, tie)
    requires forall y :: y in xs ==> tie(x, y)
    ensures LexSorted(Insert(x, xs, le), le, tie)
  {
    if xs != [] && !le(x, xs[0]) {
      var t := Insert(x, xs[1..], le);
      InsertStable(x, xs[1..], le, tie);
      forall y | y in t ensures Lex(xs[0], y, le, tie) {
        assert y in multiset(t);
        if y in xs[1..] {
          var j :| 1 <= j < |xs| && xs[j] == y;
          assert Lex(xs[0], xs[j], le, tie);
        }
      }
    }
  }

  /** Stability: sorting a list already in `tie` order by `le` orders it by `le` and then by `tie`. */
  lemma {:induction false} SortStable<T(!new)>(xs: seq<T>, le: (T, T) -> bool, tie: (T, T) -> bool)
    requires TotalPreorder(le) && Sorted(xs, tie)
    ensures LexSorted(Sort(xs, le), le, tie)
  {
    if xs != [] {
      SortStable(xs[1..], le, tie);
      SortMembers(xs[1..], le);
      InsertStable(xs[0], Sort(xs[1..], le), le, tie);
    }
  }

  // ---------- what sorting leaves in place ----------

  lemma HeadAndRest<T>(xs: seq<T>, ys: seq<T>)
    requires xs != []
    ensures xs == [xs[0]] + xs[1..] && xs + ys == [xs[0]] + (xs[1..] + ys)
  {}

  lemma InsertFirst<T>(x: T, xs: seq<T>, le: (T, T) -> bool)
    requires forall y :: y in xs ==> le(x, y)
    ensures Insert(x, xs, le) == [x] + xs
  {
    if xs != [] { assert xs[0] in xs; }
  }

  lemma InsertLater<T>(x: T, y: T, xs: seq<T>, le: (T, T) -> bool)
    requires !le(x, y)
    ensures Insert(x, [y] + xs, le) == [y] + Insert(x, xs, le)
  {
    assert ([y] + xs)[1..] == xs;
  }

  lemma ConsConcat<T>(x: T, xs: seq<T>, ys: seq<T>)
    ensures [x] + (xs + ys) == ([x] + xs) + ys
  {}

  lemma {:induction false} InsertConcat<T(!new)>(x: T, xs: seq<T>, ys: seq<T>, le: (T, T) -> bool)
    requires forall y :: y in ys ==> le(x, y)
    ensures Insert(x, xs + ys, le) == Insert(x, xs, le) + ys
  {
    hide *;
    if xs == [] {
      assert xs + ys == ys;
      InsertFirst(x, ys, le);
      InsertFirst(x, xs, le);
    } else {
      InsertConcatStep(x, xs[0], xs[1..], ys, le);
      HeadAndRest(xs, ys);
    }
  }

  lemma {:induction false} InsertConcatStep<T(!new)>(x: T, first: T, xs: seq<T>, ys: seq<T>, le: (T, T) -> bool)
    requires forall y :: y in ys ==> le(x, y)
    ensures Insert(x, [first] + (xs + ys), le) == Insert(x, [first] + xs, le) + ys
    decreases |xs|
  {
    hide *;
    if le(x, first) {
      InsertHead(x, first, xs, le);
      InsertHead(x, first, xs + ys, le);
      ConsConcat(first, xs, ys);
      ConsConcat(x, [first] + xs, ys);
    } else {
      InsertLater(x, first, xs, le);
      InsertLater(x, first, xs + ys, le);
      ConsConcat(first, Insert(x, xs, le), ys);
      if xs == [] {
        assert xs + ys == ys;
        InsertFirst(x, ys, le);
        InsertFirst(x, xs, le);
        ConsConcat(x, xs, ys);
      } else {
        InsertConcatStep(x, xs[0], xs[1..], ys, le);
        HeadAndRest(xs, ys);
      }
    }
  }

  lemma InsertHead<T>(x: T, y: T, xs: seq<T>, le: (T, T) -> bool)
    requires le(x, y)
    ensures Insert(x, [y] + xs, le) == [x] + ([y] + xs)
  {}

  /** A list in order is left alone. */
  lemma {:induction false} SortOfSorted<T(!new)>(xs: seq<T>, le: (T, T) -> bool)
    requires Sorted(xs, le)
    ensures Sort(xs, le) == xs
  {
    if xs != [] {
      SortOfSorted(xs[1..], le);
      assert xs[1..] != [] ==> le(xs[0], xs[1..][0]);
    }
  }

  lemma SortCons<T>(x: T, xs: seq<T>, le: (T, T) -> bool)
    ensures Sort([x] + xs, le) == Insert(x, Sort(xs, le), le)
  {
    assert ([x] + xs)[1..] == xs;
  }

  ghost predicate Dominates<T>(ys: seq<T>, xs: seq<T>, le: (T, T) -> bool) {
    forall x, y :: x in xs && y in ys ==> le(x, y)
  }

  /** What follows all other elements in order is left alone. */
  lemma {:induction false} SortConcat<T(!new)>(xs: seq<T>, ys: seq<T>, le: (T, T) -> bool)
    requires Sorted(ys, le) && Dominates(ys, xs, le)
    ensures Sort(xs + ys, le) == Sort(xs, le) + ys
  {
    if xs == [] {
      SortOfSorted(ys, le);
      assert xs + ys == ys;
    } else {
      assert Dominates(ys, xs[1..], le) && forall y :: y in ys ==> le(xs[0], y);
      hide *;
      SortConcat(xs[1..], ys, le);
      InsertConcat(xs[0], Sort(xs[1..], le), ys, le);
      SortCons(xs[0], xs[1..], le);
      SortCons(xs[0], xs[1..] + ys, le);
      HeadAndRest(xs, ys);
    }
  }

  /** Every element from the `n`-th last on is in order after all elements before it. */
  ghost predicate TailInOrder<T>(xs: seq<T>, n: nat, le: (T, T) -> bool) {
    forall i, j :: 0 <= i < j < |xs| && |xs| - n <= j ==> le(xs[i], xs[j])
  }

  lemma TailInOrderMeans<T(!new)>(xs: seq<T>, n: nat, le: (T, T) -> bool)
    requires n <= |xs|
    ensures var k := |xs| - n; TailInOrder(xs, n, le) <==> Sorted(xs[k..], le) && Dominates(xs[k..], xs[..k], le)
  {
    var k := |xs| - n;
    if Sorted(xs[k..], le) && Dominates(xs[k..], xs[..k], le) {
      forall i, j | 0 <= i < j < |xs| && k <= j ensures le(xs[i], xs[j]) {
        if i < k { assert xs[..k][i] in xs[..k] && xs[k..][j - k] in xs[k..]; }
        else { assert xs[i] == xs[k..][i - k] && xs[j] == xs[k..][j - k]; }
      }
    }
  }

  lemma SameFront<T(!new)>(xs: seq<T>, ys: seq<T>, k: nat)
    requires multiset(xs) == multiset(ys) && k <= |xs| == |ys| && xs[k..] == ys[k..]
    ensures forall x :: x in xs[..k] <==> x in ys[..k]
  {
    assert xs == xs[..k] + xs[k..] && ys == ys[..k] + xs[k..];
    assert multiset(xs[..k]) == multiset(xs) - multiset(xs[k..]) == multiset(ys[..k]);
    forall x ensures x in xs[..k] <==> x in ys[..k] {
      assert x in xs[..k] <==> x in multiset(xs[..k]);
      assert x in ys[..k] <==> x in multiset(ys[..k]);
    }
  }

  /** Sorting leaves the last `n` elements where they are exactly when each of them follows all before it in order. */
  lemma SortKeepsTail<T(!new)>(xs: seq<T>, n: nat, le: (T, T) -> bool)
    requires TotalPreorder(le) && n <= |xs|
    ensures |Sort(xs, le)| == |xs|
    ensures Sort(xs, le)[|xs| - n..] == xs[|xs| - n..] <==> TailInOrder(xs, n, le)
  {
    hide *;
    var k, r := |xs| - n, Sort(xs, le);
    SortMembers(xs, le);
    SortSorts(xs, le);
    TailInOrderMeans(xs, n, le);
    if TailInOrder(xs, n, le) {
      SortConcat(xs[..k], xs[k..], le);
      SortMembers(xs[..k], le);
      assert xs == xs[..k] + xs[k..];
    }
    if r[k..] == xs[k..] { SameTail(xs, r, n, le); }
  }

  lemma SameTail<T(!new)>(xs: seq<T>, r: seq<T>, n: nat, le: (T, T) -> bool)
    requires n <= |xs| == |r| && multiset(xs) == multiset(r) && Sorted(r, le) && r[|xs| - n..] == xs[|xs| - n..]
    ensures TailInOrder(xs, n, le)
  {
    assert TailInOrder(r, n, le);
    TailInOrderMeans(r, n, le);
    TailInOrderMeans(xs, n, le);
    SameFront(r, xs, |xs| - n);
  }

  /** Under an antisymmetric order the sorted arrangement of a multiset is unique. */
  lemma {:induction false} SortedUnique<T(!new)>(xs: seq<T>, ys: seq<T>, le: (T, T) -> bool)
    requires TotalPreorder(le) && Antisymmetric(le)
    requires Sorted(xs, le) && Sorted(ys, le) && multiset(xs) == multiset(ys)
    ensures xs == ys
  {
    hide *;
    assert |multiset(xs)| == |xs| && |multiset(ys)| == |ys|;
    if xs != [] {
      SameLeast(xs, ys, le);
      SortedTail(xs, le);
      SortedTail(ys, le);
      TailCounts(xs);
      TailCounts(ys);
      SortedUnique(xs[1..], ys[1..], le);
      assert xs == [xs[0]] + xs[1..] && ys == [ys[0]] + ys[1..];
    }
  }

  lemma TailCounts<T>(xs: seq<T>)
    requires xs != []
    ensures multiset(xs[1..]) == multiset(xs) - multiset{xs[0]}
  {
    assert xs == [xs[0]] + xs[1..];
  }

  lemma SortedTail<T(!new)>(xs: seq<T>, le: (T, T) -> bool)
    requires Sorted(xs, le) && xs != []
    ensures Sorted(xs[1..], le)
  {
  }

  lemma SameLeast<T(!new)>(xs: seq<T>, ys: seq<T>, le: (T, T) -> bool)
    requires TotalPreorder(le) && Antisymmetric(le)
    requires Sorted(xs, le) && Sorted(ys, le) && multiset(xs) == multiset(ys) && xs != [] && ys != []
    ensures xs[0] == ys[0]
  {
    assert xs[0] in multiset(ys) && ys[0] in multiset(xs);
    assert xs[0] in ys && ys[0] in xs;
    assert le(xs[0], ys[0]) && le(ys[0], xs[0]);
  }

  /** Code-point order of text. */
  predicate StrLe(a: string, b: string) {
    a == [] || (b != [] && (a[0] < b[0] || (a[0] == b[0] && StrLe(a[1..], b[1..]))))
  }

  lemma {:induction false} StrTotal(a: string, b: string)
    ensures StrLe(a, b) || StrLe(b, a)
    ensures StrLe(a, b) && StrLe(b, a) ==> a == b
  {
    if a != [] && b != [] {
      StrTotal(a[1..], b[1..]);
      if a[1..] == b[1..] && a[0] == b[0] { assert a == [a[0]] + a[1..] && b == [b[0]] + b[1..]; }
    }
  }

  lemma {:induction false} StrTrans(a: string, b: string, c: string)
    requires StrLe(a, b) && StrLe(b, c)
    ensures StrLe(a, c)
  {
    if a != [] && a[0] == b[0] && b[0] == c[0] { StrTrans(a[1..], b[1..], c[1..]); }
  }

  lemma StrOrder()
    ensures TotalPreorder(StrLe) && Antisymmetric(StrLe)
  {
    forall a, b ensures StrLe(a, b) || StrLe(b, a) { StrTotal(a, b); }
    forall a, b | StrLe(a, b) && StrLe(b, a) ensures a == b { StrTotal(a, b); }
    forall a, b, c | StrLe(a, b) && StrLe(b, c) ensures StrLe(a, c) { StrTrans(a, b, c); }
  }

  // ---------- comprehensions and other list functions ----------

  function Min(a: int, b: int): int { if a <= b then a else b }

  function Reversed<T>(xs: seq<T>): (r: seq<T>)
    ensures |r| == |xs| && forall k :: 0 <= k < |xs| ==> r[k] == xs[|xs| - 1 - k]
  {
    seq(|xs|, k requires 0 <= k < |xs| => xs[|xs| - 1 - k])
  }

  lemma ReversedConcat<T>(a: seq<T>, b: seq<T>)
    ensures Reversed(a + b) == Reversed(b) + Reversed(a)
  {}

  /** `[x for x in xs if p(x)]`. */
  function Filter<T>(xs: seq<T>, p: T -> bool): seq<T> {
    if xs == [] then [] else Filter(xs[..|xs| - 1], p) + if p(xs[|xs| - 1]) then [xs[|xs| - 1]] else []
  }

  lemma {:induction false} FilterMembers<T(!new)>(xs: seq<T>, p: T -> bool)
    ensures forall x :: x in Filter(xs, p) <==> x in xs && p(x)
  {
    if xs != [] {
      FilterMembers(xs[..|xs| - 1], p);
      assert xs == xs[..|xs| - 1] + [xs[|xs| - 1]];
    }
  }

  lemma FilterSnoc<T>(xs: seq<T>, x: T, p: T -> bool)
    ensures Filter(xs + [x], p) == Filter(xs, p) + if p(x) then [x] else []
  {
    assert (xs + [x])[..|xs|] == xs;
  }

  lemma Associative<T>(a: seq<T>, b: seq<T>, c: seq<T>)
    ensures (a + b) + c == a + (b + c)
  {}

  lemma {:induction false} FilterConcat<T>(a: seq<T>, b: seq<T>, p: T -> bool)
    ensures Filter(a + b, p) == Filter(a, p) + Filter(b, p)
  {
    hide *;
    if b == [] {
      FilterNone(b, p);
      assert a + b == a && Filter(a, p) + [] == Filter(a, p);
    } else {
      var t, x := b[..|b| - 1], b[|b| - 1];
      assert b == t + [x];
      FilterConcat(a, t, p);
      FilterSnoc(a + t, x, p);
      FilterSnoc(t, x, p);
      Associative(a, t, [x]);
      Associative(Filter(a, p), Filter(t, p), if p(x) then [x] else []);
    }
  }

  lemma FilterNone<T>(xs: seq<T>, p: T -> bool)
    requires xs == []
    ensures Filter(xs, p) == []
  {}

  lemma {:induction false} FilterDistinct<T(!new)>(xs: seq<T>, p: T -> bool)
    requires Distinct(xs)
    ensures Distinct(Filter(xs, p))
  {
    if xs != [] {
      var n := |xs| - 1;
      FilterDistinct(xs[..n], p);
      FilterMembers(xs[..n], p);
      assert xs[n] !in xs[..n];
    }
  }

  lemma {:induction false} FilterSorted<T(!new)>(xs: seq<T>, p: T -> bool, le: (T, T) -> bool)
    requires Sorted(xs, le)
    ensures Sorted(Filter(xs, p), le)
  {
    if xs != [] {
      FilterSorted(xs[..|xs| - 1], p, le);
      FilterMembers(xs[..|xs| - 1], p);
      var r := Filter(xs[..|xs| - 1], p);
      forall i | 0 <= i < |r| ensures le(r[i], xs[|xs| - 1]) {
        assert r[i] in Filter(xs[..|xs| - 1], p);
        assert r[i] in xs[..|xs| - 1];
        var k :| 0 <= k < |xs| - 1 && xs[..|xs| - 1][k] == r[i];
      }
    }
  }

  lemma {:induction false} FilterImplies<T>(xs: seq<T>, p: T -> bool, q: T -> bool)
    requires forall x :: x in xs && p(x) ==> q(x)
    ensures |Filter(xs, p)| <= |Filter(xs, q)|
  {
    if xs != [] { FilterImplies(xs[..|xs| - 1], p, q); }
  }

  lemma {:induction false} FilterAll<T>(xs: seq<T>, p: T -> bool)
    requires forall x :: x in xs ==> p(x)
    ensures Filter(xs, p) == xs
  {
    if xs != [] {
      FilterAll(xs[..|xs| - 1], p);
      assert xs == xs[..|xs| - 1] + [xs[|xs| - 1]];
    }
  }

  lemma FilterCons<T>(x: T, xs: seq<T>, p: T -> bool)
    ensures Filter([x] + xs, p) == if p(x) then [x] + Filter(xs, p) else Filter(xs, p)
  {
    assert [x][..0] == [];
    FilterConcat([x], xs, p);
  }

  lemma {:induction false} FilterInsert<T(!new)>(x: T, xs: seq<T>, p: T -> bool, le: (T, T) -> bool)
    requires TotalPreorder(le) && Sorted(xs, le)
    ensures Filter(Insert(x, xs, le), p) == if p(x) then Insert(x, Filter(xs, p), le) else Filter(xs, p)
  {
    hide Filter, Insert;
    if xs == [] || le(x, xs[0]) {
      FilterMembers(xs, p);
      assert forall y :: y in xs ==> le(x, y);
      hide *;
      InsertFirst(x, xs, le);
      InsertFirst(x, Filter(xs, p), le);
      FilterCons(x, xs, p);
    } else {
      SortedTail(xs, le);
      hide *;
      FilterInsert(x, xs[1..], p, le);
      HeadAndRest(xs, []);
      InsertLater(x, xs[0], xs[1..], le);
      InsertLater(x, xs[0], Filter(xs[1..], p), le);
      FilterCons(xs[0], xs[1..], p);
      FilterCons(xs[0], Insert(x, xs[1..], le), p);
    }
  }

  /** Sorting and selecting commute. */
  lemma {:induction false} FilterSort<T(!new)>(xs: seq<T>, p: T -> bool, le: (T, T) -> bool)
    requires TotalPreorder(le)
    ensures Filter(Sort(xs, le), p) == Sort(Filter(xs, p), le)
  {
    if xs != [] {
      FilterSort(xs[1..], p, le);
      SortSorts(xs[1..], le);
      FilterInsert(xs[0], Sort(xs[1..], le), p, le);
      HeadAndRest(xs, []);
      hide *;
      FilterCons(xs[0], xs[1..], p);
      SortCons(xs[0], xs[1..], le);
      SortCons(xs[0], Filter(xs[1..], p), le);
    }
  }

  /** The first `n` elements, or all if there are fewer. */
  function Take<T>(xs: seq<T>, n: nat): seq<T> {
    if n <= |xs| then xs[..n] else xs
  }

  /** The last `n` elements backwards agree exactly when the last `n` elements do. */
  lemma TakeReversed<T>(xs: seq<T>, ys: seq<T>, n: nat)
    requires |xs| == |ys|
    ensures var k := if n <= |xs| then |xs| - n else 0;
            Take(Reversed(xs), n) == Take(Reversed(ys), n) <==> xs[k..] == ys[k..]
  {
    var k := if n <= |xs| then |xs| - n else 0;
    var a, b := Take(Reversed(xs), n), Take(Reversed(ys), n);
    if xs[k..] == ys[k..] {
      forall i | 0 <= i < |a| ensures a[i] == b[i] {
        assert a[i] == xs[k..][|xs| - 1 - i - k] && b[i] == ys[k..][|xs| - 1 - i - k];
      }
    }
    if a == b {
      forall i | k <= i < |xs| ensures xs[i] == ys[i] {
        assert xs[i] == a[|xs| - 1 - i] && ys[i] == b[|xs| - 1 - i];
      }
    }
  }
}
