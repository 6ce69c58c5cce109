/** Capping training rows by dealing them round-robin over their families. */
module RoundRobin {
  import opened Sorting

  datatype Row = Row(family: string, trajectory: string, turn: string, content: nat)

  /** `key=lambda x: (trajectory, turn_id)`. */
  predicate RowLe(a: Row, b: Row) {
    if a.trajectory == b.trajectory then StrLe(a.turn, b.turn) else StrLe(a.trajectory, b.trajectory)
  }

  lemma {:induction false} RowOrder()
    ensures TotalPreorder(RowLe)
  {
    StrOrder();
  }

  function InFamily(rows: seq<Row>, k: string): seq<Row> {
    Filter(rows, (r: Row) => r.family == k)
  }

  /** Families in order of first appearance. */
  function Families(rows: seq<Row>): seq<string> {
    if rows == [] then []
    else
      var ks, k := Families(rows[..|rows| - 1]), rows[|rows| - 1].family;
      if k in ks then ks else ks + [k]
  }

  lemma {:induction false} FamiliesFacts(rows: seq<Row>)
    ensures Distinct(Families(rows))
    ensures forall i :: 0 <= i < |rows| ==> rows[i].family in Families(rows)
  {
    if rows != [] {
      FamiliesFacts(rows[..|rows| - 1]);
      forall i | 0 <= i < |rows| - 1 ensures rows[i].family in Families(rows) {
        assert rows[..|rows| - 1][i].family in Families(rows[..|rows| - 1]);
      }
    }
  }

  function Keys(rows: seq<Row>): seq<string> {
    Sort(Families(rows), StrLe)
  }

  /** The families' sorted rows, in the order of the sorted family names. */
  function Groups(rows: seq<Row>): (gs: seq<seq<Row>>)
    ensures |gs| == |Keys(rows)|
  {
    var ks := Keys(rows);
    seq(|ks|, g requires 0 <= g < |ks| => Sort(InFamily(rows, ks[g]), RowLe))
  }

  // ---------- the deal ----------

  /** The `r`-th rows of the first `p` groups. */
  function Round<T>(gs: seq<seq<T>>, r: nat, p: nat): seq<T>
    requires p <= |gs|
  {
    if p == 0 then [] else Round(gs, r, p - 1) + if r < |gs[p - 1]| then [gs[p - 1][r]] else []
  }

  /** `r` full rounds, then the first `p` groups of the next one. */
  function Dealt<T>(gs: seq<seq<T>>, r: nat, p: nat): seq<T>
    requires p <= |gs|
  {
    (if r == 0 then [] else Dealt(gs, r - 1, |gs|)) + Round(gs, r, p)
  }

  /** How many rows of group `g` have been dealt. */
  function Taken<T>(gs: seq<seq<T>>, g: nat, r: nat, p: nat): nat
    requires g < |gs|
  {
    Min(|gs[g]|, if g < p then r + 1 else r)
  }

  function Sum(xs: seq<nat>): nat {
    if xs == [] then 0 else Sum(xs[..|xs| - 1]) + xs[|xs| - 1]
  }

  function TakenAll<T>(gs: seq<seq<T>>, r: nat, p: nat): seq<nat> {
    seq(|gs|, g requires 0 <= g < |gs| => Taken(gs, g, r, p))
  }

  function Sizes<T>(gs: seq<seq<T>>): seq<nat> {
    seq(|gs|, g requires 0 <= g < |gs| => |gs[g]|)
  }

  lemma DealtNext<T>(gs: seq<seq<T>>, r: nat, p: nat)
    requires p < |gs|
    ensures Dealt(gs, r, p + 1) == Dealt(gs, r, p) + if r < |gs[p]| then [gs[p][r]] else []
  {}

  lemma DealtNone<T>(gs: seq<seq<T>>)
    ensures Dealt(gs, 0, 0) == []
  {}

  lemma DealtWrap<T>(gs: seq<seq<T>>, r: nat)
    ensures Dealt(gs, r + 1, 0) == Dealt(gs, r, |gs|)
  {}

  lemma {:induction false} SumOneMore(a: seq<nat>, b: seq<nat>, g: nat, d: nat)
    requires |a| == |b| && g < |a| && b == a[g := a[g] + d]
    ensures Sum(b) == Sum(a) + d
  {
    var n := |a| - 1;
    if g < n {
      assert b[..n] == a[..n][g := a[..n][g] + d];
      SumOneMore(a[..n], b[..n], g, d);
    } else {
      assert b[..n] == a[..n];
    }
  }

  /** The length of a deal is the sum of what the groups contributed. */
  lemma {:induction false} DealtLength<T>(gs: seq<seq<T>>, r: nat, p: nat)
    requires p <= |gs|
    ensures |Dealt(gs, r, p)| == Sum(TakenAll(gs, r, p))
    decreases r, p
  {
    hide Dealt, TakenAll, Sum;
    assert r == 0 && p == 0 ==> Dealt(gs, r, p) == [] by { DealtNone(gs); }
    if p > 0 {
      DealtLength(gs, r, p - 1);
      DealtNext(gs, r, p - 1);
      TakenNext(gs, r, p - 1);
    } else if r > 0 {
      DealtLength(gs, r - 1, |gs|);
      DealtWrap(gs, r - 1);
      TakenWrap(gs, r - 1);
    } else {
      TakenNone(gs);
    }
  }

  lemma TakenNext<T>(gs: seq<seq<T>>, r: nat, p: nat)
    requires p < |gs|
    ensures Sum(TakenAll(gs, r, p + 1)) == Sum(TakenAll(gs, r, p)) + if r < |gs[p]| then 1 else 0
  {
    var a, b, d := TakenAll(gs, r, p), TakenAll(gs, r, p + 1), if r < |gs[p]| then 1 else 0;
    assert b == a[p := a[p] + d];
    SumOneMore(a, b, p, d);
  }

  lemma TakenWrap<T>(gs: seq<seq<T>>, r: nat)
    ensures TakenAll(gs, r + 1, 0) == TakenAll(gs, r, |gs|)
  {}

  lemma TakenNone<T>(gs: seq<seq<T>>)
    ensures Sum(TakenAll(gs, 0, 0)) == 0
  {
    SumZero(TakenAll(gs, 0, 0));
  }

  lemma {:induction false} SumZero(xs: seq<nat>)
    requires forall g :: 0 <= g < |xs| ==> xs[g] == 0
    ensures Sum(xs) == 0
  {
    if xs != [] { SumZero(xs[..|xs| - 1]); }
  }

  /** Each group contributes its own leading rows in order: `r + 1` of them if it precedes position `p` and has
      that many, otherwise `r`, and all of them if it has fewer. */
  lemma {:induction false} DealtIsFair(gs: seq<seq<Row>>, ks: seq<string>, r: nat, p: nat, g: nat)
    requires p <= |gs| && |ks| == |gs| && g < |gs| && Distinct(ks)
    requires forall h, i :: 0 <= h < |gs| && 0 <= i < |gs[h]| ==> gs[h][i].family == ks[h]
    ensures InFamily(Dealt(gs, r, p), ks[g]) == gs[g][..Taken(gs, g, r, p)]
    decreases r, p
  {
    hide Dealt, InFamily;
    if p > 0 {
      DealtIsFair(gs, ks, r, p - 1, g);
      DealtNext(gs, r, p - 1);
      if r < |gs[p - 1]| {
        InFamilySnoc(Dealt(gs, r, p - 1), gs[p - 1][r], ks[g]);
        assert gs[p - 1][r].family == ks[p - 1];
        assert g < p - 1 ==> ks[g] != ks[p - 1];
        assert p - 1 < g ==> ks[p - 1] != ks[g];
        if g == p - 1 { assert gs[g][..r] + [gs[g][r]] == gs[g][..r + 1]; }
      } else {
        assert Dealt(gs, r, p) == Dealt(gs, r, p - 1);
      }
    } else if r > 0 {
      DealtIsFair(gs, ks, r - 1, |gs|, g);
      DealtWrap(gs, r - 1);
    } else {
      DealtNone(gs);
      InFamilyNone(ks[g]);
    }
  }

  lemma InFamilyNone(k: string)
    ensures InFamily([], k) == []
  {}

  lemma InFamilySnoc(rows: seq<Row>, r: Row, k: string)
    ensures InFamily(rows + [r], k) == InFamily(rows, k) + if r.family == k then [r] else []
  {
    assert (rows + [r])[..|rows|] == rows;
  }

  // ---------- grouping ----------

  lemma {:induction false} GroupsCoverRows(rows: seq<Row>, ks: seq<string>)
    requires Distinct(ks) && forall i :: 0 <= i < |rows| ==> rows[i].family in ks
    ensures Sum(seq(|ks|, g requires 0 <= g < |ks| => |InFamily(rows, ks[g])|)) == |rows|
  {
    var now := seq(|ks|, g requires 0 <= g < |ks| => |InFamily(rows, ks[g])|);
    if rows == [] {
      SumZero(now);
    } else {
      var n := |rows| - 1;
      GroupsCoverRows(rows[..n], ks);
      var before := seq(|ks|, g requires 0 <= g < |ks| => |InFamily(rows[..n], ks[g])|);
      assert rows[n].family in ks;
      var g :| 0 <= g < |ks| && ks[g] == rows[n].family;
      forall h | 0 <= h < |ks| ensures now[h] == before[h] + if h == g then 1 else 0 {
        assert rows == rows[..n] + [rows[n]];
        InFamilySnoc(rows[..n], rows[n], ks[h]);
      }
      assert now == before[g := before[g] + 1];
      SumOneMore(before, now, g, 1);
    }
  }

  lemma KeysFacts(rows: seq<Row>)
    ensures Distinct(Keys(rows)) && Sorted(Keys(rows), StrLe)
    ensures forall k :: k in Keys(rows) <==> k in Families(rows)
  {
    StrOrder();
    FamiliesFacts(rows);
    SortSorts(Families(rows), StrLe);
    SortMembers(Families(rows), StrLe);
    SortDistinct(Families(rows), StrLe);
  }

  lemma GroupRows(rows: seq<Row>)
    ensures var ks, gs := Keys(rows), Groups(rows);
            && (forall h, i :: 0 <= h < |gs| && 0 <= i < |gs[h]| ==> gs[h][i].family == ks[h])
            && (forall h :: 0 <= h < |gs| ==> gs[h] == Sort(InFamily(rows, ks[h]), RowLe))
            && Sum(Sizes(gs)) == |rows|
  {
    var ks: seq<string>, gs: seq<seq<Row>> := Keys(rows), Groups(rows);
    KeysFacts(rows);
    hide Keys, StrLe, RowLe, Sort, Families;
    forall h | 0 <= h < |gs|
      ensures |gs[h]| == |InFamily(rows, ks[h])| && forall i: nat :: i < |gs[h]| ==> gs[h][i].family == ks[h]
    {
      SortMembers(InFamily(rows, ks[h]), RowLe);
      FilterMembers(rows, (r: Row) => r.family == ks[h]);
      forall i: nat | i < |gs[h]| ensures gs[h][i].family == ks[h] { assert gs[h][i] in gs[h]; }
    }
    FamiliesFacts(rows);
    forall i | 0 <= i < |rows| ensures rows[i].family in ks { assert rows[i].family in Families(rows); }
    GroupsCoverRows(rows, ks);
    assert Sizes(gs) == seq(|ks|, g requires 0 <= g < |ks| => |InFamily(rows, ks[g])|);
  }

  /** The dictionary of groups, its keys in insertion order, and then each group sorted. */
  method GroupByFamily(rows: seq<Row>) returns (groups: map<string, seq<Row>>, order: seq<string>)
    ensures order == Families(rows) && forall k :: k in groups <==> k in order
    ensures forall k :: k in order ==> groups[k] == Sort(InFamily(rows, k), RowLe)
  {
    hide Sort, InFamily;
    groups, order := map[], [];
    forall k ensures InFamily(rows[..0], k) == [] { InFamilyNone(k); }
    for i := 0 to |rows|
      invariant order == Families(rows[..i])
      invariant forall k :: k in groups <==> k in order
      invariant forall k :: k in order ==> groups[k] == InFamily(rows[..i], k)
      invariant forall k :: k !in order ==> InFamily(rows[..i], k) == []
    {
      assert rows[..i + 1][..i] == rows[..i] && rows[..i + 1] == rows[..i] + [rows[i]];
      forall k
        ensures InFamily(rows[..i + 1], k) == InFamily(rows[..i], k) + if rows[i].family == k then [rows[i]] else []
      {
        InFamilySnoc(rows[..i], rows[i], k);
      }
      var k := rows[i].family;
      if k !in groups { groups, order := groups[k := []], order + [k]; }
      groups := groups[k := groups[k] + [rows[i]]];
    }
    assert rows[..|rows|] == rows;
    FamiliesFacts(rows);
    groups := SortGroups(groups, order);
  }

  method SortGroups(groups: map<string, seq<Row>>, order: seq<string>) returns (r: map<string, seq<Row>>)
    requires Distinct(order) && forall k :: k in groups <==> k in order
    ensures forall k :: k in r <==> k in order
    ensures forall k :: k in order ==> r[k] == Sort(groups[k], RowLe)
  {
    hide Sort;
    r := groups;
    for i := 0 to |order|
      invariant forall k :: k in r <==> k in order
      invariant forall j :: 0 <= j < i ==> r[order[j]] == Sort(groups[order[j]], RowLe)
      invariant forall j :: i <= j < |order| ==> r[order[j]] == groups[order[j]]
    {
      r := r[order[i] := Sort(r[order[i]], RowLe)];
    }
  }

  // ---------- the cap ----------

  /** Groups after `r` rounds and `p` more positions hold exactly their undealt rows. */
  ghost predicate Undealt(groups: map<string, seq<Row>>, ks: seq<string>, gs: seq<seq<Row>>, r: nat, p: nat) {
    && |ks| == |gs| && (forall k :: k in groups <==> k in ks)
    && forall g :: 0 <= g < |gs| ==> ks[g] in groups && groups[ks[g]] == gs[g][Taken(gs, g, r, p)..]
  }

  lemma UndealtNext(groups: map<string, seq<Row>>, ks: seq<string>, gs: seq<seq<Row>>, r: nat, p: nat)
    requires p < |gs| && Undealt(groups, ks, gs, r, p) && Distinct(ks)
    ensures groups[ks[p]] != [] <==> r < |gs[p]|
    ensures groups[ks[p]] != []
        ==> groups[ks[p]][0] == gs[p][r] && Undealt(groups[ks[p] := groups[ks[p]][1..]], ks, gs, r, p + 1)
    ensures groups[ks[p]] == [] ==> Undealt(groups, ks, gs, r, p + 1)
  {}

  function Longest<T>(gs: seq<seq<T>>): (m: nat)
    ensures forall g :: 0 <= g < |gs| ==> |gs[g]| <= m
  {
    if gs == [] then 0
    else
      var m := Longest(gs[..|gs| - 1]);
      if |gs[|gs| - 1]| > m then |gs[|gs| - 1]| else m
  }

  /** The loop counter after `r` rounds of `m` turns and `p` more. */
  function Counter(r: nat, m: nat, p: nat): nat {
    r * m + p
  }

  lemma {:induction false} PositionOf(i: int, r: int, p: int, m: int)
    requires 0 <= p < m && i == r * m + p
    ensures i % m == p
  {
    var d := r - i / m;
    assert d * m == i % m - p by { assert i == i / m * m + i % m; assert d * m == r * m - i / m * m; }
    assert d >= 1 ==> d * m >= m;
    assert d <= -1 ==> d * m <= 0 - m;
    assert d == 0;
  }

  lemma SumBound<T>(gs: seq<seq<T>>, r: nat, p: nat)
    requires forall g :: 0 <= g < |gs| ==> Taken(gs, g, r, p) == |gs[g]|
    ensures TakenAll(gs, r, p) == Sizes(gs)
  {}

  lemma {:induction false} SumLe(a: seq<nat>, b: seq<nat>)
    requires |a| == |b| && forall g :: 0 <= g < |a| ==> a[g] <= b[g]
    ensures Sum(a) <= Sum(b)
  {
    if a != [] { SumLe(a[..|a| - 1], b[..|b| - 1]); }
  }

  /** The dealing loop: it always ends, never returns more than the limit, and what it returns is a deal of the
      sorted groups stopped at some point of some round. */
  method RoundRobinCap(rows: seq<Row>, limit: int) returns (out: seq<Row>, ghost r: nat, ghost p: nat)
    ensures |out| == if limit <= 0 then 0 else Min(limit, |rows|)
    ensures p <= |Groups(rows)| && out == Dealt(Groups(rows), r, p)
  {
    var groups, order := GroupByFamily(rows);
    var keys := Sort(order, StrLe);
    ghost var gs, longest := Groups(rows), Longest(Groups(rows));
    KeysFacts(rows);
    StartUndealt(rows, groups);
    assert keys == Keys(rows);
    hide Sort, Families, Groups, Keys, Longest, Dealing, Undealt, Dealt, InFamily, Sizes, Sum, Min, Remaining, Distinct,
         Counter, Taken, Round;
    out, r, p := [], 0, 0;
    StartDealing(groups, keys, gs);
    var i := 0;
    while |out| < limit && Remaining(groups, keys)
      invariant Dealing(groups, keys, gs, r, p, i, out)
      invariant |out| <= limit || out == []
      decreases longest - r, |keys| - p
    {
      var j := Position(groups, keys, gs, r, p, i, out);
      var k := keys[j];
      r, p := DealOne(groups, keys, gs, r, p, i, out);
      i := i + 1;
      if groups[k] != [] {
        out := out + [groups[k][0]];
        groups := groups[k := groups[k][1..]];
      }
    }
    StopDealing(groups, keys, gs, r, p, i, out, limit, |rows|);
  }

  /** `any(groups[k] for k in keys)`. */
  predicate Remaining(groups: map<string, seq<Row>>, keys: seq<string>) {
    exists k :: k in keys && k in groups && groups[k] != []
  }

  /** The dictionary, the counter and the output agree on a deal stopped in round `r` at position `p`. */
  ghost predicate Dealing(groups: map<string, seq<Row>>, keys: seq<string>, gs: seq<seq<Row>>, r: nat, p: nat, i: nat,
                          out: seq<Row>) {
    && |gs| == |keys| && Distinct(keys) && i == Counter(r, |keys|, p) && (if gs == [] then p == 0 else p < |gs|)
    && out == Dealt(gs, r, p) && Undealt(groups, keys, gs, r, p)
  }

  lemma StartDealing(groups: map<string, seq<Row>>, keys: seq<string>, gs: seq<seq<Row>>)
    requires |gs| == |keys| && Distinct(keys) && Undealt(groups, keys, gs, 0, 0)
    ensures Dealing(groups, keys, gs, 0, 0, 0, [])
  {
    DealtNone(gs);
  }

  /** `i % len(keys)`, which is the position within the current round; a nonempty group leaves rounds to go. */
  method Position(groups: map<string, seq<Row>>, keys: seq<string>, ghost gs: seq<seq<Row>>, ghost r: nat, ghost p: nat,
                  i: nat, ghost out: seq<Row>)
    returns (j: nat)
    requires Dealing(groups, keys, gs, r, p, i, out) && Remaining(groups, keys)
    ensures j == p < |keys| && r < Longest(gs) && keys[p] in groups
  {
    PositionOf(i, r, p, |keys|);
    j := i % |keys|;
  }

  /** The dictionary and the output after family `k` had its turn. */
  function Popped(groups: map<string, seq<Row>>, k: string): map<string, seq<Row>>
    requires k in groups
  {
    if groups[k] == [] then groups else groups[k := groups[k][1..]]
  }

  function Pushed(groups: map<string, seq<Row>>, k: string, out: seq<Row>): seq<Row>
    requires k in groups
  {
    if groups[k] == [] then out else out + [groups[k][0]]
  }

  lemma {:induction false} TurnDealt(groups: map<string, seq<Row>>, keys: seq<string>, gs: seq<seq<Row>>, r: nat,
                                     p: nat, out: seq<Row>)
    requires p < |gs| && Undealt(groups, keys, gs, r, p) && Distinct(keys) && out == Dealt(gs, r, p)
    ensures keys[p] in groups
    ensures Undealt(Popped(groups, keys[p]), keys, gs, r, p + 1) && Pushed(groups, keys[p], out) == Dealt(gs, r, p + 1)
  {
    UndealtNext(groups, keys, gs, r, p);
    DealtNext(gs, r, p);
    hide Dealt;
  }

  /** One turn of the loop: the group at position `p` gives its next row, if it has one. */
  ghost method DealOne(groups: map<string, seq<Row>>, keys: seq<string>, gs: seq<seq<Row>>, r0: nat, p0: nat, i: nat,
                       out: seq<Row>)
    returns (r: nat, p: nat)
    requires Dealing(groups, keys, gs, r0, p0, i, out) && p0 < |keys|
    ensures keys[p0] in groups
    ensures Dealing(Popped(groups, keys[p0]), keys, gs, r, p, i + 1, Pushed(groups, keys[p0], out))
    ensures r == r0 + 1 || (r == r0 && p == p0 + 1)
  {
    hide Dealt, Undealt, Counter, Distinct, Popped, Pushed;
    TurnDealt(groups, keys, gs, r0, p0, out);
    CounterSteps(r0, |keys|, p0);
    r, p := Advance(Popped(groups, keys[p0]), keys, gs, r0, p0 + 1, i + 1);
  }

  lemma StopDealing(groups: map<string, seq<Row>>, keys: seq<string>, gs: seq<seq<Row>>, r: nat, p: nat, i: nat,
                    out: seq<Row>, limit: int, n: nat)
    requires Dealing(groups, keys, gs, r, p, i, out) && Sum(Sizes(gs)) == n && (|out| <= limit || out == [])
    requires |out| >= limit || !Remaining(groups, keys)
    ensures |out| == if limit <= 0 then 0 else Min(limit, n)
    ensures p <= |gs| && out == Dealt(gs, r, p)
  {
    DealtLength(gs, r, p);
    hide Dealt, Sum, Sizes, Undealt, TakenAll;
    if |out| < limit {
      AllDealt(groups, keys, gs, r, p, n);
    }
    DealtWithin(gs, r, p, n);
  }

  /** Bookkeeping of the position counter at the end of a round. */
  ghost method Advance(groups: map<string, seq<Row>>, keys: seq<string>, gs: seq<seq<Row>>, r0: nat, p0: nat, i: nat)
    returns (r: nat, p: nat)
    requires Undealt(groups, keys, gs, r0, p0) && 0 < p0 <= |gs| == |keys| && i == Counter(r0, |keys|, p0)
    ensures Undealt(groups, keys, gs, r, p) && p < |gs| && i == Counter(r, |keys|, p)
    ensures Dealt(gs, r, p) == Dealt(gs, r0, p0)
    ensures forall k :: k in keys ==> k in groups
    ensures r == r0 + 1 || (r == r0 && p == p0)
  {
    r, p := r0, p0;
    if p == |gs| {
      DealtWrap(gs, r);
      CounterSteps(r, p, p);
      r, p := r + 1, 0;
    }
  }

  lemma StartUndealt(rows: seq<Row>, groups: map<string, seq<Row>>)
    requires forall k :: k in groups <==> k in Families(rows)
    requires forall k :: k in Families(rows) ==> groups[k] == Sort(InFamily(rows, k), RowLe)
    ensures Undealt(groups, Keys(rows), Groups(rows), 0, 0) && |Keys(rows)| == |Groups(rows)|
    ensures Sum(Sizes(Groups(rows))) == |rows|
    ensures forall k :: k in Keys(rows) ==> k in groups
  {
    KeysFacts(rows);
    GroupRows(rows);
    hide Keys, Groups, Sort, InFamily, Families;
    forall g | 0 <= g < |Keys(rows)| ensures Keys(rows)[g] in groups { assert Keys(rows)[g] in Keys(rows); }
  }

  lemma CounterSteps(r: nat, m: nat, p: nat)
    ensures Counter(r, m, p + 1) == Counter(r, m, p) + 1 && Counter(r, m, m) == Counter(r + 1, m, 0)
    ensures Counter(0, m, 0) == 0
  {}

  lemma AllDealt(groups: map<string, seq<Row>>, ks: seq<string>, gs: seq<seq<Row>>, r: nat, p: nat, n: nat)
    requires Undealt(groups, ks, gs, r, p) && p <= |gs| && Sum(Sizes(gs)) == n
    requires forall k :: k in ks ==> groups[k] == []
    ensures Sum(TakenAll(gs, r, p)) == n
  {
    forall g | 0 <= g < |gs| ensures Taken(gs, g, r, p) == |gs[g]| {
      assert ks[g] in ks && groups[ks[g]] == [];
    }
    SumBound(gs, r, p);
  }

  lemma DealtWithin(gs: seq<seq<Row>>, r: nat, p: nat, n: nat)
    requires p <= |gs| && Sum(Sizes(gs)) == n
    ensures Sum(TakenAll(gs, r, p)) <= n
  {
    SumLe(TakenAll(gs, r, p), Sizes(gs));
  }

  lemma {:induction false} DealtMembers<T>(gs: seq<seq<T>>, r: nat, p: nat, x: T)
    requires p <= |gs| && x in Dealt(gs, r, p)
    ensures exists g :: 0 <= g < |gs| && x in gs[g]
    decreases r, p
  {
    hide Dealt;
    if p > 0 {
      DealtNext(gs, r, p - 1);
      if r < |gs[p - 1]| && x == gs[p - 1][r] { assert x in gs[p - 1]; } else { DealtMembers(gs, r, p - 1, x); }
    } else if r > 0 {
      DealtWrap(gs, r - 1);
      DealtMembers(gs, r - 1, |gs|, x);
    } else {
      DealtNone(gs);
    }
  }

  lemma GroupedRow(rows: seq<Row>, g: nat, x: Row)
    requires g < |Groups(rows)| && x in Groups(rows)[g]
    ensures x in rows && x.family in Keys(rows)
  {
    KeysFacts(rows);
    GroupRows(rows);
    SortMembers(InFamily(rows, Keys(rows)[g]), RowLe);
    FilterMembers(rows, (r: Row) => r.family == Keys(rows)[g]);
  }

  /** Water-filling: for some `r` every family contributes its first `min(size, r+1)` or `min(size, r)` sorted rows,
      the former exactly for the first `p` families in name order; nothing else is returned. */
  lemma {:induction false} CapIsFair(rows: seq<Row>, out: seq<Row>, r: nat, p: nat, g: nat)
    requires p <= |Groups(rows)| && out == Dealt(Groups(rows), r, p) && g < |Groups(rows)|
    ensures InFamily(out, Keys(rows)[g]) == Sort(InFamily(rows, Keys(rows)[g]), RowLe)[..Taken(Groups(rows), g, r, p)]
    ensures forall x :: x in out ==> x in rows && x.family in Keys(rows)
  {
    forall x | x in out ensures x in rows && x.family in Keys(rows) {
      DealtMembers(Groups(rows), r, p, x);
      var h :| 0 <= h < |Groups(rows)| && x in Groups(rows)[h];
      GroupedRow(rows, h, x);
    }
    KeysFacts(rows);
    GroupRows(rows);
    DealtIsFair(Groups(rows), Keys(rows), r, p, g);
  }
}
