/** Building the induced connectivity graph: degree counting, root selection and edge aggregation. */
module InducedGraph {
  import opened Sorting

  datatype Row = Row(pre: string, post: string, nt: string, count: int)
  datatype Edge = Edge(pre: nat, post: nat, total: int, signed: int)
  datatype Result = NonpositiveCount | NoEdges | Graph(rows: nat, neurons: nat, roots: seq<string>, edges: seq<Edge>)

  // ---------- sums ----------

  function SumOf<T>(xs: seq<T>, f: T -> int): int {
    if xs == [] then 0 else SumOf(xs[..|xs| - 1], f) + f(xs[|xs| - 1])
  }

  lemma {:induction false} SumConcat<T>(a: seq<T>, b: seq<T>, f: T -> int)
    ensures SumOf(a + b, f) == SumOf(a, f) + SumOf(b, f)
  {
    if b == [] { assert a + b == a; }
    else {
      SumConcat(a, b[..|b| - 1], f);
      assert (a + b)[..|a + b| - 1] == a + b[..|b| - 1];
    }
  }

  /** A sum does not depend on the order of its terms. */
  lemma {:induction false} SumPermutes<T>(a: seq<T>, b: seq<T>, f: T -> int)
    requires multiset(a) == multiset(b)
    ensures SumOf(a, f) == SumOf(b, f)
  {
    assert |multiset(a)| == |a| && |multiset(b)| == |b|;
    if a != [] {
      var n := |a| - 1;
      assert a[n] in multiset(b);
      var i :| 0 <= i < |b| && b[i] == a[n];
      SumWithout(a, n, f);
      SumWithout(b, i, f);
      assert a[..n] + a[n + 1..] == a[..n];
      SumPermutes(a[..n], b[..i] + b[i + 1..], f);
    }
  }

  lemma SumWithout<T>(xs: seq<T>, i: nat, f: T -> int)
    requires i < |xs|
    ensures SumOf(xs, f) == SumOf(xs[..i] + xs[i + 1..], f) + f(xs[i])
    ensures multiset(xs[..i] + xs[i + 1..]) == multiset(xs) - multiset{xs[i]}
  {
    hide SumOf;
    Splits(xs, i);
    SumAround(xs[..i], xs[i], xs[i + 1..], f);
  }

  lemma Splits<T>(xs: seq<T>, i: nat)
    requires i < |xs|
    ensures xs == xs[..i] + [xs[i]] + xs[i + 1..]
    ensures multiset(xs[..i] + xs[i + 1..]) == multiset(xs) - multiset{xs[i]}
  {
    assert xs == xs[..i] + [xs[i]] + xs[i + 1..];
  }

  lemma SumAround<T>(a: seq<T>, x: T, c: seq<T>, f: T -> int)
    ensures SumOf(a + [x] + c, f) == SumOf(a + c, f) + f(x)
  {
    SumConcat(a, c, f);
    SumConcat(a + [x], c, f);
  }

  lemma {:induction false} SumSame<T>(xs: seq<T>, f: T -> int, g: T -> int)
    requires forall x :: x in xs ==> f(x) == g(x)
    ensures SumOf(xs, f) == SumOf(xs, g)
  {
    if xs != [] { SumSame(xs[..|xs| - 1], f, g); }
  }

  lemma {:induction false} SumAdd<T>(xs: seq<T>, f: T -> int, g: T -> int, h: T -> int)
    requires forall x :: x in xs ==> h(x) == f(x) + g(x)
    ensures SumOf(xs, h) == SumOf(xs, f) + SumOf(xs, g)
  {
    if xs != [] { SumAdd(xs[..|xs| - 1], f, g, h); }
  }

  lemma {:induction false} SumNone<T>(xs: seq<T>, f: T -> int)
    requires forall x :: x in xs ==> f(x) == 0
    ensures SumOf(xs, f) == 0
  {
    if xs != [] { SumNone(xs[..|xs| - 1], f); }
  }

  /** Among distinct terms only the one at `k` counts. */
  lemma {:induction false} SumSingle<T>(xs: seq<T>, f: T -> int, k: T)
    requires Distinct(xs) && k in xs && forall x :: x in xs && x != k ==> f(x) == 0
    ensures SumOf(xs, f) == f(k)
  {
    var n := |xs| - 1;
    assert xs == xs[..n] + [xs[n]];
    if xs[n] == k {
      forall x | x in xs[..n] ensures f(x) == 0 {
        var i :| 0 <= i < n && xs[i] == x;
        assert xs[i] != xs[n];
      }
      SumNone(xs[..n], f);
    } else {
      SumSingle(xs[..n], f, k);
    }
  }

  function Column<K, R>(f: (K, R) -> int, rows: seq<R>): K -> int {
    k => SumOf(rows, Cell(f, k))
  }

  function Cell<K, R>(f: (K, R) -> int, k: K): R -> int {
    row => f(k, row)
  }

  function Across<K, R>(f: (K, R) -> int, row: R): K -> int {
    k => f(k, row)
  }

  /** Counting by key and counting by row agree. */
  lemma {:induction false} DoubleCount<K, R>(ks: seq<K>, rows: seq<R>, f: (K, R) -> int, g: R -> int)
    requires forall row :: row in rows ==> SumOf(ks, Across(f, row)) == g(row)
    ensures SumOf(ks, Column(f, rows)) == SumOf(rows, g)
  {
    if rows == [] {
      SumNone(ks, Column(f, rows));
    } else {
      var n := |rows| - 1;
      DoubleCount(ks, rows[..n], f, g);
      SumAdd(ks, Column(f, rows[..n]), Across(f, rows[n]), Column(f, rows));
    }
  }

  // ---------- degrees and weights ----------

  function Incident(r: string, row: Row): int {
    (if row.pre == r then row.count else 0) + (if row.post == r then row.count else 0)
  }

  /** Total incident synapse count; a self-connection counts twice. */
  function Degree(rows: seq<Row>, r: string): int {
    SumOf(rows, Cell(Incident, r))
  }

  /** GABA and GLUT rows are inhibitory. */
  function Sign(nt: string): int {
    if nt == "GABA" || nt == "GLUT" then -1 else 1
  }

  function Between(p: (string, string), row: Row): int {
    if row.pre == p.0 && row.post == p.1 then row.count else 0
  }

  function SignedBetween(p: (string, string), row: Row): int {
    if row.pre == p.0 && row.post == p.1 then Sign(row.nt) * row.count else 0
  }

  function Weight(rows: seq<Row>, p: (string, string)): int {
    SumOf(rows, Cell(Between, p))
  }

  function SignedWeight(rows: seq<Row>, p: (string, string)): int {
    SumOf(rows, Cell(SignedBetween, p))
  }

  ghost predicate Positive(rows: seq<Row>) {
    forall i :: 0 <= i < |rows| ==> rows[i].count > 0
  }

  /** Neurons in order of first appearance. */
  function Neurons(rows: seq<Row>): seq<string> {
    if rows == [] then [] else Noted(Noted(Neurons(rows[..|rows| - 1]), rows[|rows| - 1].pre), rows[|rows| - 1].post)
  }

  function Noted(xs: seq<string>, x: string): seq<string> {
    if x in xs then xs else xs + [x]
  }

  ghost predicate Touches(row: Row, x: string) { row.pre == x || row.post == x }

  lemma NotedFacts(xs: seq<string>, x: string)
    requires Distinct(xs)
    ensures Distinct(Noted(xs, x)) && forall y :: y in Noted(xs, x) <==> y in xs || y == x
  {}

  lemma {:induction false} NeuronsFacts(rows: seq<Row>)
    ensures Distinct(Neurons(rows))
    ensures forall x :: x in Neurons(rows) <==> exists i :: 0 <= i < |rows| && Touches(rows[i], x)
  {
    if rows != [] {
      var n := |rows| - 1;
      NeuronsFacts(rows[..n]);
      var before := Neurons(rows[..n]);
      NotedFacts(before, rows[n].pre);
      NotedFacts(Noted(before, rows[n].pre), rows[n].post);
      hide Noted;
      forall x ensures x in Neurons(rows) <==> exists i :: 0 <= i < |rows| && Touches(rows[i], x) {
        TouchedSnoc(rows, x);
      }
    }
  }

  lemma TouchedSnoc(rows: seq<Row>, x: string)
    requires rows != []
    ensures var n := |rows| - 1;
            (exists i :: 0 <= i < |rows| && Touches(rows[i], x))
                <==> (exists i :: 0 <= i < n && Touches(rows[..n][i], x)) || Touches(rows[n], x)
  {
    var n := |rows| - 1;
    if i :| 0 <= i < |rows| && Touches(rows[i], x) {
      assert i < n ==> Touches(rows[..n][i], x);
    }
    if i :| 0 <= i < n && Touches(rows[..n][i], x) { assert Touches(rows[i], x); }
  }

  // ---------- the selection order ----------

  function At(degree: map<string, int>, r: string): int {
    if r in degree then degree[r] else 0
  }

  /** `key=lambda r: (-degree[r], r)`. */
  predicate RootLe(degree: map<string, int>, a: string, b: string) {
    At(degree, a) > At(degree, b) || (At(degree, a) == At(degree, b) && StrLe(a, b))
  }

  function ByDegree(degree: map<string, int>): (string, string) -> bool {
    (a, b) => RootLe(degree, a, b)
  }

  lemma RootOrder(degree: map<string, int>)
    ensures TotalPreorder(ByDegree(degree)) && Antisymmetric(ByDegree(degree))
  {
    StrOrder();
    hide StrLe;
  }

  // ---------- what a graph must be ----------

  /** The chosen roots: the requested number of distinct neurons, none beaten by one left out. */
  ghost predicate RootsOk(rows: seq<Row>, limit: nat, roots: seq<string>) {
    && Distinct(roots) && |roots| == (if limit == 0 || limit > |Neurons(rows)| then |Neurons(rows)| else limit)
    && (forall i :: 0 <= i < |roots| ==> roots[i] in Neurons(rows))
    && (forall i, j :: 0 <= i < j < |roots| ==> Beats(rows, roots[i], roots[j]))
    && (forall i, x :: 0 <= i < |roots| && x in Neurons(rows) && x !in roots ==> Beats(rows, roots[i], x))
  }

  /** Higher degree first, then smaller identifier. */
  ghost predicate Beats(rows: seq<Row>, a: string, b: string) {
    Degree(rows, a) > Degree(rows, b) || (Degree(rows, a) == Degree(rows, b) && StrLe(a, b))
  }

  predicate PairBefore(a: Edge, b: Edge) {
    a.pre < b.pre || (a.pre == b.pre && a.post < b.post)
  }

  ghost predicate SortedEdges(edges: seq<Edge>) {
    forall i, j :: 0 <= i < j < |edges| ==> PairBefore(edges[i], edges[j])
  }

  ghost predicate HasPair(edges: seq<Edge>, a: nat, b: nat) {
    exists i :: 0 <= i < |edges| && edges[i].pre == a && edges[i].post == b
  }

  /** Strictly sorted edges between roots, each carrying the total and signed counts of its rows, none missing. */
  ghost predicate EdgesOk(rows: seq<Row>, roots: seq<string>, edges: seq<Edge>) {
    && SortedEdges(edges) && (forall i :: 0 <= i < |edges| ==> EdgeOk(rows, roots, edges[i]))
    && (forall a, b :: 0 <= a < |roots| && 0 <= b < |roots| && Weight(rows, (roots[a], roots[b])) > 0
         ==> HasPair(edges, a, b))
  }

  ghost predicate EdgeOk(rows: seq<Row>, roots: seq<string>, e: Edge) {
    && e.pre < |roots| && e.post < |roots|
    && e.total == Weight(rows, (roots[e.pre], roots[e.post])) > 0
    && e.signed == SignedWeight(rows, (roots[e.pre], roots[e.post]))
  }

  // ---------- conservation ----------

  function Count(row: Row): int { row.count }
  function TwiceCount(row: Row): int { 2 * row.count }

  /** The degrees of all neurons sum to twice the total synapse count. */
  lemma {:induction false} DegreesSum(rows: seq<Row>)
    ensures SumOf(Neurons(rows), Column(Incident, rows)) == 2 * SumOf(rows, Count)
  {
    NeuronsFacts(rows);
    var ks := Neurons(rows);
    forall row | row in rows ensures SumOf(ks, Across(Incident, row)) == TwiceCount(row) {
      var i :| 0 <= i < |rows| && rows[i] == row;
      assert Touches(rows[i], row.pre) && Touches(rows[i], row.post);
      assert row.pre in ks && row.post in ks;
      RowTwice(ks, row);
    }
    DoubleCount(ks, rows, Incident, TwiceCount);
    SumDouble(rows);
  }

  function FromEnd(row: Row): string -> int { k => if row.pre == k then row.count else 0 }
  function ToEnd(row: Row): string -> int { k => if row.post == k then row.count else 0 }

  lemma RowTwice(ks: seq<string>, row: Row)
    requires Distinct(ks) && row.pre in ks && row.post in ks
    ensures SumOf(ks, Across(Incident, row)) == TwiceCount(row)
  {
    SumSingle(ks, FromEnd(row), row.pre);
    SumSingle(ks, ToEnd(row), row.post);
    RowEnds(ks, row);
  }

  lemma {:induction false} RowEnds(ks: seq<string>, row: Row)
    ensures SumOf(ks, Across(Incident, row)) == SumOf(ks, FromEnd(row)) + SumOf(ks, ToEnd(row))
  {
    if ks != [] {
      var k := ks[|ks| - 1];
      RowEnds(ks[..|ks| - 1], row);
      assert Across(Incident, row)(k) == Incident(k, row);
      assert FromEnd(row)(k) + ToEnd(row)(k) == Incident(k, row);
    }
  }

  lemma {:induction false} SumDouble(rows: seq<Row>)
    ensures SumOf(rows, TwiceCount) == 2 * SumOf(rows, Count)
  {
    if rows != [] { SumDouble(rows[..|rows| - 1]); }
  }

  function EdgeTotal(e: Edge): int { e.total }

  function Selected(roots: seq<string>): Row -> int {
    (row: Row) => if row.pre in roots && row.post in roots then row.count else 0
  }

  function Named(roots: seq<string>, e: Edge): (string, string) {
    if e.pre < |roots| && e.post < |roots| then (roots[e.pre], roots[e.post]) else ("", "")
  }

  function OnEdge(roots: seq<string>): (Edge, Row) -> int {
    (e: Edge, row: Row) => Between(Named(roots, e), row)
  }

  /** The edge totals sum to the synapses of exactly the rows with both endpoints selected. */
  lemma EdgeTotalsSum(rows: seq<Row>, limit: nat, roots: seq<string>, edges: seq<Edge>)
    requires Positive(rows) && RootsOk(rows, limit, roots) && EdgesOk(rows, roots, edges)
    ensures SumOf(edges, EdgeTotal) == SumOf(rows, Selected(roots))
  {
    hide Beats;
    forall row | row in rows ensures SumOf(edges, Across(OnEdge(roots), row)) == Selected(roots)(row) {
      var i :| 0 <= i < |rows| && rows[i] == row;
      RowOnOneEdge(rows, roots, edges, i);
    }
    DoubleCount(edges, rows, OnEdge(roots), Selected(roots));
    forall e | e in edges ensures EdgeTotal(e) == Column(OnEdge(roots), rows)(e) {
      var i :| 0 <= i < |edges| && edges[i] == e;
      assert EdgeOk(rows, roots, edges[i]);
      SumSame(rows, Cell(OnEdge(roots), e), Cell(Between, Named(roots, e)));
    }
    SumSame(edges, EdgeTotal, Column(OnEdge(roots), rows));
  }

  /** A row with both endpoints selected lies on exactly one edge, any other row on none. */
  lemma RowOnOneEdge(rows: seq<Row>, roots: seq<string>, edges: seq<Edge>, i: nat)
    requires Positive(rows) && Distinct(roots) && EdgesOk(rows, roots, edges) && i < |rows|
    ensures SumOf(edges, Across(OnEdge(roots), rows[i])) == Selected(roots)(rows[i])
  {
    var row := rows[i];
    if row.pre in roots && row.post in roots {
      RowHasEdge(rows, roots, edges, i);
      var k :| 0 <= k < |edges| && Carries(roots, edges[k], row);
      OnlyOneEdge(rows, roots, edges, k, row);
    } else {
      hide Weight, SignedWeight, SumOf;
      forall e | e in edges ensures Across(OnEdge(roots), row)(e) == 0 {
        var j :| 0 <= j < |edges| && edges[j] == e;
        assert EdgeOk(rows, roots, edges[j]);
        assert roots[e.pre] in roots && roots[e.post] in roots;
        assert Named(roots, e) == (roots[e.pre], roots[e.post]);
      }
      SumNone(edges, Across(OnEdge(roots), row));
    }
  }

  ghost predicate Carries(roots: seq<string>, e: Edge, row: Row) {
    e.pre < |roots| && e.post < |roots| && roots[e.pre] == row.pre && roots[e.post] == row.post
  }

  lemma RowHasEdge(rows: seq<Row>, roots: seq<string>, edges: seq<Edge>, i: nat)
    requires Positive(rows) && EdgesOk(rows, roots, edges) && i < |rows| && rows[i].pre in roots
    requires rows[i].post in roots
    ensures exists k :: 0 <= k < |edges| && Carries(roots, edges[k], rows[i])
  {
    RowGivesWeight(rows, i);
    hide Weight, SignedWeight;
    var a :| 0 <= a < |roots| && roots[a] == rows[i].pre;
    var b :| 0 <= b < |roots| && roots[b] == rows[i].post;
    assert HasPair(edges, a, b);
    var k :| 0 <= k < |edges| && edges[k].pre == a && edges[k].post == b;
    assert Carries(roots, edges[k], rows[i]);
  }

  lemma OnlyOneEdge(rows: seq<Row>, roots: seq<string>, edges: seq<Edge>, k: nat, row: Row)
    requires Distinct(roots) && EdgesOk(rows, roots, edges) && k < |edges| && Carries(roots, edges[k], row)
    ensures SumOf(edges, Across(OnEdge(roots), row)) == row.count
  {
    hide Weight, SignedWeight, SumOf;
    forall e | e in edges && e != edges[k] ensures Across(OnEdge(roots), row)(e) == 0 {
      var j :| 0 <= j < |edges| && edges[j] == e;
      assert EdgeOk(rows, roots, edges[j]);
      OtherEdge(roots, edges, j, k, row);
    }
    assert Across(OnEdge(roots), row)(edges[k]) == row.count by {
      assert Named(roots, edges[k]) == (row.pre, row.post);
    }
    SumSingle(edges, Across(OnEdge(roots), row), edges[k]);
  }

  lemma OtherEdge(roots: seq<string>, edges: seq<Edge>, j: nat, k: nat, row: Row)
    requires Distinct(roots) && SortedEdges(edges) && j < |edges| && k < |edges| && j != k
    requires edges[j].pre < |roots| && edges[j].post < |roots| && edges[k].pre < |roots| && edges[k].post < |roots|
    requires roots[edges[k].pre] == row.pre && roots[edges[k].post] == row.post
    ensures OnEdge(roots)(edges[j], row) == 0
  {
    var a, b := edges[j], edges[k];
    assert PairBefore(a, b) || PairBefore(b, a);
    assert a.pre != b.pre ==> roots[a.pre] != roots[b.pre];
    assert a.post != b.post ==> roots[a.post] != roots[b.post];
    assert Named(roots, a) == (roots[a.pre], roots[a.post]);
  }

  lemma {:induction false} WeightNonneg(rows: seq<Row>, p: (string, string))
    requires Positive(rows)
    ensures Weight(rows, p) >= 0
    ensures (exists i :: 0 <= i < |rows| && rows[i].pre == p.0 && rows[i].post == p.1) <==> Weight(rows, p) > 0
  {
    if rows != [] {
      var n := |rows| - 1;
      assert Positive(rows[..n]);
      WeightNonneg(rows[..n], p);
      assert Weight(rows, p) == Weight(rows[..n], p) + Between(p, rows[n]);
      if i :| 0 <= i < n && rows[i].pre == p.0 && rows[i].post == p.1 {
        assert rows[..n][i].pre == p.0 && rows[..n][i].post == p.1;
      }
      if i :| 0 <= i < n && rows[..n][i].pre == p.0 && rows[..n][i].post == p.1 {
        assert rows[i].pre == p.0 && rows[i].post == p.1;
      }
    }
  }

  lemma RowGivesWeight(rows: seq<Row>, i: nat)
    requires Positive(rows) && i < |rows|
    ensures Weight(rows, (rows[i].pre, rows[i].post)) > 0
  {
    WeightNonneg(rows, (rows[i].pre, rows[i].post));
  }

  /** A signed weight never exceeds the total and has its parity: it is the total minus twice the inhibitory part. */
  lemma {:induction false} SignedWithinTotal(rows: seq<Row>, p: (string, string))
    requires Positive(rows)
    ensures -Weight(rows, p) <= SignedWeight(rows, p) <= Weight(rows, p)
    ensures (Weight(rows, p) - SignedWeight(rows, p)) % 2 == 0
  {
    if rows != [] {
      var n := |rows| - 1;
      assert Positive(rows[..n]);
      SignedWithinTotal(rows[..n], p);
      assert Weight(rows, p) == Weight(rows[..n], p) + Between(p, rows[n]);
      assert SignedWeight(rows, p) == SignedWeight(rows[..n], p) + SignedBetween(p, rows[n]);
    }
  }

  predicate Inhibitory(row: Row) { row.nt in {"GABA", "GLUT"} }

  /** The signed weight of a pair is its excitatory synapses less its inhibitory ones. */
  lemma {:induction false} SignedIsDifference(rows: seq<Row>, p: (string, string))
    ensures SignedWeight(rows, p)
         == Weight(Filter(rows, (r: Row) => !Inhibitory(r)), p) - Weight(Filter(rows, Inhibitory), p)
  {
    if rows != [] {
      hide Weight, SignedWeight, Filter;
      var before, row := rows[..|rows| - 1], rows[|rows| - 1];
      var excitatory := (r: Row) => !Inhibitory(r);
      SignedIsDifference(before, p);
      assert rows == before + [row];
      FilterSnoc(before, row, Inhibitory);
      FilterSnoc(before, row, excitatory);
      WeightSnoc(before, row, p);
      WeightSnoc(Filter(before, Inhibitory), row, p);
      WeightSnoc(Filter(before, excitatory), row, p);
      assert Filter(before, Inhibitory) + [] == Filter(before, Inhibitory);
      assert Filter(before, excitatory) + [] == Filter(before, excitatory);
    } else {
      NoWeight(rows, p);
    }
  }

  lemma NoWeight(rows: seq<Row>, p: (string, string))
    requires rows == []
    ensures Filter(rows, Inhibitory) == Filter(rows, (r: Row) => !Inhibitory(r)) == []
    ensures Weight([], p) == 0 && SignedWeight(rows, p) == 0
  {}

  // ---------- row order is irrelevant ----------

  lemma {:induction false} DistinctSame(a: seq<string>, b: seq<string>)
    requires Distinct(a) && Distinct(b) && forall x :: x in a <==> x in b
    ensures multiset(a) == multiset(b)
  {
    DistinctCount(a);
    DistinctCount(b);
    forall x ensures multiset(a)[x] == multiset(b)[x] {
      assert x in a <==> x in multiset(a);
      assert x in b <==> x in multiset(b);
      assert multiset(a)[x] <= 1 && multiset(b)[x] <= 1;
    }
  }

  lemma {:induction false} NeuronsPermute(a: seq<Row>, b: seq<Row>)
    requires multiset(a) == multiset(b)
    ensures forall x :: x in Neurons(a) <==> x in Neurons(b)
    ensures |Neurons(a)| == |Neurons(b)|
  {
    forall x ensures x in Neurons(a) <==> x in Neurons(b) {
      if x in Neurons(a) { NeuronMoves(a, b, x); }
      if x in Neurons(b) { NeuronMoves(b, a, x); }
    }
    NeuronsFacts(a);
    NeuronsFacts(b);
    DistinctSame(Neurons(a), Neurons(b));
    assert |multiset(Neurons(a))| == |Neurons(a)| && |multiset(Neurons(b))| == |Neurons(b)|;
  }

  lemma {:induction false} NeuronMoves(a: seq<Row>, b: seq<Row>, x: string)
    requires multiset(a) == multiset(b) && x in Neurons(a)
    ensures x in Neurons(b)
  {
    NeuronsFacts(a);
    NeuronsFacts(b);
    var i :| 0 <= i < |a| && Touches(a[i], x);
    assert a[i] in multiset(b);
    var j :| 0 <= j < |b| && b[j] == a[i];
    assert Touches(b[j], x);
  }

  lemma BeatsPermutes(a: seq<Row>, b: seq<Row>)
    requires multiset(a) == multiset(b)
    ensures forall x, y :: Beats(a, x, y) <==> Beats(b, x, y)
  {
    forall x ensures Degree(a, x) == Degree(b, x) { SumPermutes(a, b, Cell(Incident, x)); }
    hide Degree, StrLe;
  }

  lemma BeatsAntisymmetric(rows: seq<Row>, x: string, y: string)
    requires Beats(rows, x, y) && Beats(rows, y, x)
    ensures x == y
  {
    StrTotal(x, y);
  }

  /** Permuting the rows changes neither the chosen roots nor any edge. */
  lemma RowOrderIrrelevant(a: seq<Row>, b: seq<Row>, limit: nat, ra: seq<string>, rb: seq<string>, ea: seq<Edge>,
                           eb: seq<Edge>)
    requires multiset(a) == multiset(b)
    requires RootsOk(a, limit, ra) && RootsOk(b, limit, rb) && EdgesOk(a, ra, ea) && EdgesOk(b, rb, eb)
    ensures ra == rb && ea == eb
  {
    NeuronsPermute(a, b);
    BeatsPermutes(a, b);
    assert RootsOk(a, limit, rb) by { hide Beats, Neurons; }
    RootsUnique(a, limit, ra, rb, 0);
    forall p ensures Weight(a, p) == Weight(b, p) && SignedWeight(a, p) == SignedWeight(b, p) {
      SumPermutes(a, b, Cell(Between, p));
      SumPermutes(a, b, Cell(SignedBetween, p));
    }
    assert EdgesOk(a, ra, eb) by { hide Weight, SignedWeight; }
    EdgesUnique(a, ra, ea, eb, 0);
  }

  lemma {:induction false} RootsUnique(rows: seq<Row>, limit: nat, x: seq<string>, y: seq<string>, n: nat)
    requires RootsOk(rows, limit, x) && RootsOk(rows, limit, y) && n <= |x| == |y| && x[..n] == y[..n]
    ensures x == y
    decreases |x| - n
  {
    hide *;
    if n < |x| {
      assert x[n] == y[n] by {
        assert forall i :: 0 <= i < n ==> x[i] == y[i] by {
          forall i | 0 <= i < n ensures x[i] == y[i] { assert x[..n][i] == y[..n][i]; }
        }
        if x[n] != y[n] {
          RootAhead(rows, limit, x, y, n);
          RootAhead(rows, limit, y, x, n);
          BeatsAntisymmetric(rows, x[n], y[n]);
        }
      }
      assert x[..n + 1] == x[..n] + [x[n]] && y[..n + 1] == y[..n] + [y[n]];
      RootsUnique(rows, limit, x, y, n + 1);
    }
  }

  /** At the first difference, the root one list chose beats the one the other chose. */
  lemma {:induction false} RootAhead(rows: seq<Row>, limit: nat, x: seq<string>, y: seq<string>, n: nat)
    requires RootsOk(rows, limit, x) && RootsOk(rows, limit, y) && n < |x| == |y|
    requires (forall i :: 0 <= i < n ==> x[i] == y[i]) && x[n] != y[n]
    ensures Beats(rows, x[n], y[n])
  {
    hide Beats, Neurons;
    if y[n] in x {
      var j :| 0 <= j < |x| && x[j] == y[n];
      assert forall i :: 0 <= i < n ==> x[i] != y[n];
    }
  }

  lemma {:induction false} EdgesUnique(rows: seq<Row>, roots: seq<string>, x: seq<Edge>, y: seq<Edge>, n: nat)
    requires EdgesOk(rows, roots, x) && EdgesOk(rows, roots, y) && n <= |x| && n <= |y| && x[..n] == y[..n]
    ensures x == y
    decreases |x| - n
  {
    hide Weight, SignedWeight, SortedEdges, HasPair, EdgeOk;
    assert forall i :: 0 <= i < n ==> x[i] == y[i] by {
      forall i | 0 <= i < n ensures x[i] == y[i] { assert x[..n][i] == y[..n][i]; }
    }
    if n < |x| && n < |y| {
      EdgeNotSkipped(rows, roots, x, y, n);
      EdgeNotSkipped(rows, roots, y, x, n);
      SamePairSameEdge(rows, roots, x[n], y[n]);
      assert x[..n + 1] == x[..n] + [x[n]] && y[..n + 1] == y[..n] + [y[n]];
      EdgesUnique(rows, roots, x, y, n + 1);
    } else if n < |x| {
      var j := EdgePlace(rows, roots, x, y, n);
      assert false;
    } else if n < |y| {
      var j := EdgePlace(rows, roots, y, x, n);
      assert false;
    }
  }

  lemma SamePairSameEdge(rows: seq<Row>, roots: seq<string>, x: Edge, y: Edge)
    requires EdgeOk(rows, roots, x) && EdgeOk(rows, roots, y) && !PairBefore(x, y) && !PairBefore(y, x)
    ensures x == y
  {
    hide Weight, SignedWeight;
  }

  /** Every edge of one list has its pair in the other, at or after the first difference. */
  lemma EdgePlace(rows: seq<Row>, roots: seq<string>, x: seq<Edge>, y: seq<Edge>, n: nat) returns (j: nat)
    requires EdgesOk(rows, roots, x) && EdgesOk(rows, roots, y) && n < |x| && n <= |y|
    requires forall i :: 0 <= i < n ==> x[i] == y[i]
    ensures n <= j < |y| && y[j].pre == x[n].pre && y[j].post == x[n].post
  {
    hide Weight, SignedWeight;
    assert EdgeOk(rows, roots, x[n]);
    assert HasPair(y, x[n].pre, x[n].post);
    j :| 0 <= j < |y| && y[j].pre == x[n].pre && y[j].post == x[n].post;
    forall i | 0 <= i < n ensures PairBefore(y[i], x[n]) { assert PairBefore(x[i], x[n]); }
  }

  lemma EdgeNotSkipped(rows: seq<Row>, roots: seq<string>, x: seq<Edge>, y: seq<Edge>, n: nat)
    requires EdgesOk(rows, roots, x) && EdgesOk(rows, roots, y) && n < |x| && n < |y|
    requires forall i :: 0 <= i < n ==> x[i] == y[i]
    ensures !PairBefore(x[n], y[n])
  {
    var j := EdgePlace(rows, roots, x, y, n);
    assert SortedEdges(y);
    hide EdgesOk;
    assert n < j ==> PairBefore(y[n], y[j]);
  }

  // ---------- the two passes ----------

  /** A `Counter`: entries in insertion order. */
  type Counter = seq<(string, int)>

  function Bump(c: Counter, k: string, n: int): Counter {
    if c == [] then [(k, n)]
    else if c[0].0 == k then [(k, c[0].1 + n)] + c[1..]
    else [c[0]] + Bump(c[1..], k, n)
  }

  function CounterSum(c: Counter): int {
    if c == [] then 0 else c[0].1 + CounterSum(c[1..])
  }

  function CounterSigned(c: Counter): int {
    if c == [] then 0 else Sign(c[0].0) * c[0].1 + CounterSigned(c[1..])
  }

  lemma {:induction false} BumpSums(c: Counter, k: string, n: int)
    ensures CounterSum(Bump(c, k, n)) == CounterSum(c) + n
    ensures CounterSigned(Bump(c, k, n)) == CounterSigned(c) + Sign(k) * n
  {
    if c == [] {
      assert Bump(c, k, n)[1..] == [];
    } else if c[0].0 == k {
      assert Bump(c, k, n)[1..] == c[1..];
      assert Sign(k) * (c[0].1 + n) == Sign(k) * c[0].1 + Sign(k) * n;
    } else {
      BumpSums(c[1..], k, n);
      assert Bump(c, k, n)[1..] == Bump(c[1..], k, n);
    }
  }

  type Pair = (nat, nat)

  function EntryOf(pairs: map<Pair, Counter>, p: Pair): Counter {
    if p in pairs then pairs[p] else []
  }

  /** `degree[r] += n`. */
  function Raised(degree: map<string, int>, r: string, n: int): map<string, int> {
    degree[r := At(degree, r) + n]
  }

  ghost predicate DegreesAre(degree: map<string, int>, rows: seq<Row>) {
    forall x :: At(degree, x) == Degree(rows, x)
  }

  /** The first pass: neurons in order of appearance and their degrees. */
  method CountDegrees(rows: seq<Row>) returns (ok: bool, degree: map<string, int>, order: seq<string>)
    ensures ok <==> Positive(rows)
    ensures ok ==> order == Neurons(rows) && DegreesAre(degree, rows)
  {
    degree, order := map[], [];
    for i := 0 to |rows|
      invariant Positive(rows[..i]) && order == Neurons(rows[..i])
      invariant DegreesAre(degree, rows[..i])
    {
      var r := rows[i];
      if r.count <= 0 { return false, degree, order; }
      FirstPassStep(rows, i, degree);
      hide DegreesAre, Positive, Neurons, Noted, Raised;
      degree := Raised(degree, r.pre, r.count);
      order := Noted(order, r.pre);
      degree := Raised(degree, r.post, r.count);
      order := Noted(order, r.post);
    }
    assert rows[..|rows|] == rows;
    ok := true;
  }

  lemma FirstPassStep(rows: seq<Row>, i: nat, degree: map<string, int>)
    requires i < |rows| && rows[i].count > 0 && Positive(rows[..i]) && DegreesAre(degree, rows[..i])
    ensures Positive(rows[..i + 1])
    ensures Neurons(rows[..i + 1]) == Noted(Noted(Neurons(rows[..i]), rows[i].pre), rows[i].post)
    ensures DegreesAre(Raised(Raised(degree, rows[i].pre, rows[i].count), rows[i].post, rows[i].count), rows[..i + 1])
  {
    assert rows[..i + 1][..i] == rows[..i];
    forall x ensures Degree(rows[..i + 1], x) == Degree(rows[..i], x) + Incident(x, rows[i]) {}
    hide Degree;
    var d := Raised(Raised(degree, rows[i].pre, rows[i].count), rows[i].post, rows[i].count);
    forall x ensures At(d, x) == Degree(rows[..i + 1], x) {}
  }

  method SelectRoots(rows: seq<Row>, degree: map<string, int>, order: seq<string>, limit: nat)
    returns (roots: seq<string>)
    requires order == Neurons(rows) && DegreesAre(degree, rows)
    ensures RootsOk(rows, limit, roots)
  {
    var sorted := Sort(order, ByDegree(degree));
    RootOrder(degree);
    SortSorts(order, ByDegree(degree));
    SortMembers(order, ByDegree(degree));
    NeuronsFacts(rows);
    SortDistinct(order, ByDegree(degree));
    SortedBeats(rows, degree, sorted);
    roots := if limit == 0 || limit > |sorted| then sorted else sorted[..limit];
    FirstRoots(rows, limit, sorted, roots);
  }

  lemma SortedBeats(rows: seq<Row>, degree: map<string, int>, sorted: seq<string>)
    requires Sorted(sorted, ByDegree(degree)) && DegreesAre(degree, rows)
    ensures forall i, j :: 0 <= i < j < |sorted| ==> Beats(rows, sorted[i], sorted[j])
  {
    hide Degree, StrLe;
    forall i, j | 0 <= i < j < |sorted| ensures Beats(rows, sorted[i], sorted[j]) {
      assert ByDegree(degree)(sorted[i], sorted[j]);
    }
  }

  lemma FirstRoots(rows: seq<Row>, limit: nat, sorted: seq<string>, roots: seq<string>)
    requires Distinct(sorted) && (forall x :: x in sorted <==> x in Neurons(rows)) && |sorted| == |Neurons(rows)|
    requires forall i, j :: 0 <= i < j < |sorted| ==> Beats(rows, sorted[i], sorted[j])
    requires roots == if limit == 0 || limit > |sorted| then sorted else sorted[..limit]
    ensures RootsOk(rows, limit, roots)
  {
    hide Beats, Neurons;
    forall i, x | 0 <= i < |roots| && x in Neurons(rows) && x !in roots ensures Beats(rows, roots[i], x) {
      assert x in sorted;
      var j :| 0 <= j < |sorted| && sorted[j] == x;
      assert forall k :: 0 <= k < |roots| ==> roots[k] == sorted[k];
      assert forall k :: 0 <= k < |roots| ==> roots[k] in roots;
    }
    forall i | 0 <= i < |roots| ensures roots[i] in Neurons(rows) { assert sorted[i] in sorted; }
  }

  ghost predicate Indexes(ids: map<string, nat>, roots: seq<string>) {
    && (forall i :: 0 <= i < |roots| ==> roots[i] in ids && ids[roots[i]] == i)
    && (forall x :: x in ids ==> ids[x] < |roots| && roots[ids[x]] == x)
  }

  method IndexRoots(roots: seq<string>) returns (ids: map<string, nat>)
    requires Distinct(roots)
    ensures Indexes(ids, roots)
  {
    ids := map[];
    for i := 0 to |roots|
      invariant forall k :: 0 <= k < i ==> roots[k] in ids && ids[roots[k]] == k
      invariant forall x :: x in ids ==> ids[x] < i && roots[ids[x]] == x
    {
      ids := ids[roots[i] := i];
    }
  }

  ghost predicate Keyed(roots: seq<string>, pairs: map<Pair, Counter>, order: seq<Pair>) {
    && Distinct(order) && (forall p :: p in pairs <==> p in order)
    && (forall p :: p in order ==> p.0 < |roots| && p.1 < |roots| && CounterSum(EntryOf(pairs, p)) > 0)
  }

  ghost predicate Tally(rows: seq<Row>, roots: seq<string>, pairs: map<Pair, Counter>, a: nat, b: nat)
    requires a < |roots| && b < |roots|
  {
    && CounterSum(EntryOf(pairs, (a, b))) == Weight(rows, (roots[a], roots[b]))
    && CounterSigned(EntryOf(pairs, (a, b))) == SignedWeight(rows, (roots[a], roots[b]))
  }

  /** The aggregated pairs hold, for each pair of roots, the counts of its rows. */
  ghost predicate Aggregated(rows: seq<Row>, roots: seq<string>, pairs: map<Pair, Counter>, order: seq<Pair>) {
    Keyed(roots, pairs, order) && forall a, b :: 0 <= a < |roots| && 0 <= b < |roots|
                                   ==> Tally(rows, roots, pairs, a, b)
  }

  lemma WeightSnoc(rows: seq<Row>, row: Row, q: (string, string))
    ensures Weight(rows + [row], q) == Weight(rows, q) + Between(q, row)
    ensures SignedWeight(rows + [row], q) == SignedWeight(rows, q) + SignedBetween(q, row)
  {
    assert (rows + [row])[..|rows|] == rows;
  }

  lemma TallyOther(rows: seq<Row>, row: Row, roots: seq<string>, pairs: map<Pair, Counter>, pairs': map<Pair, Counter>,
                   a: nat, b: nat)
    requires a < |roots| && b < |roots| && Tally(rows, roots, pairs, a, b)
    requires EntryOf(pairs', (a, b)) == EntryOf(pairs, (a, b))
    requires roots[a] != row.pre || roots[b] != row.post
    ensures Tally(rows + [row], roots, pairs', a, b)
  {
    WeightSnoc(rows, row, (roots[a], roots[b]));
    hide Weight, SignedWeight, CounterSum, CounterSigned, Sign, EntryOf;
  }

  lemma TallyThis(rows: seq<Row>, row: Row, roots: seq<string>, pairs: map<Pair, Counter>, p: Pair)
    requires p.0 < |roots| && p.1 < |roots| && Tally(rows, roots, pairs, p.0, p.1) && roots[p.0] == row.pre
    requires roots[p.1] == row.post
    ensures Tally(rows + [row], roots, pairs[p := Bump(EntryOf(pairs, p), row.nt, row.count)], p.0, p.1)
  {
    WeightSnoc(rows, row, (row.pre, row.post));
    BumpSums(EntryOf(pairs, p), row.nt, row.count);
    hide Weight, SignedWeight, CounterSum, CounterSigned, Bump;
    assert p == (p.0, p.1);
  }

  lemma KeyedNext(roots: seq<string>, pairs: map<Pair, Counter>, order: seq<Pair>, p: Pair, c: Counter)
    requires Keyed(roots, pairs, order) && p.0 < |roots| && p.1 < |roots| && CounterSum(c) > 0
    ensures Keyed(roots, pairs[p := c], if p in order then order else order + [p])
  {
    hide CounterSum;
  }

  lemma AggregateRow(rows: seq<Row>, row: Row, roots: seq<string>, pairs: map<Pair, Counter>, order: seq<Pair>, p: Pair)
    requires Distinct(roots) && Aggregated(rows, roots, pairs, order) && row.count > 0
    requires p.0 < |roots| && p.1 < |roots| && roots[p.0] == row.pre && roots[p.1] == row.post
    ensures Aggregated(rows + [row], roots, pairs[p := Bump(EntryOf(pairs, p), row.nt, row.count)], if p in order
        then order else order + [p])
  {
    BumpSums(EntryOf(pairs, p), row.nt, row.count);
    EmptyCounter();
    var c := Bump(EntryOf(pairs, p), row.nt, row.count);
    assert CounterSum(c) > 0 by { hide Bump, CounterSum; }
    KeyedNext(roots, pairs, order, p, c);
    hide Keyed, Tally, CounterSum, CounterSigned, Bump, Sign;
    var next, longer := pairs[p := c], rows + [row];
    forall a, b | 0 <= a < |roots| && 0 <= b < |roots| ensures Tally(longer, roots, next, a, b) {
      if (a, b) == p { TallyThis(rows, row, roots, pairs, p); }
      else {
        assert a != p.0 ==> roots[a] != roots[p.0];
        assert b != p.1 ==> roots[b] != roots[p.1];
        TallyOther(rows, row, roots, pairs, next, a, b);
      }
    }
  }

  lemma SkipRow(rows: seq<Row>, row: Row, roots: seq<string>, pairs: map<Pair, Counter>, order: seq<Pair>)
    requires Aggregated(rows, roots, pairs, order) && (row.pre !in roots || row.post !in roots)
    ensures Aggregated(rows + [row], roots, pairs, order)
  {
    hide Keyed, Tally, EntryOf;
    var longer := rows + [row];
    forall a, b | 0 <= a < |roots| && 0 <= b < |roots| ensures Tally(longer, roots, pairs, a, b) {
      assert roots[a] in roots && roots[b] in roots;
      TallyOther(rows, row, roots, pairs, pairs, a, b);
    }
  }

  /** The second pass: rows whose endpoints are both selected, aggregated per pair and neurotransmitter. */
  method Aggregate(rows: seq<Row>, roots: seq<string>, ids: map<string, nat>)
    returns (pairs: map<Pair, Counter>, order: seq<Pair>)
    requires Positive(rows) && Distinct(roots) && Indexes(ids, roots)
    ensures Aggregated(rows, roots, pairs, order)
  {
    pairs, order := map[], [];
    assert rows[..0] == [];
    for i := 0 to |rows|
      invariant Aggregated(rows[..i], roots, pairs, order)
    {
      assert rows[..i + 1] == rows[..i] + [rows[i]];
      var r := rows[i];
      if r.pre in ids && r.post in ids {
        var p := (ids[r.pre], ids[r.post]);
        AggregateRow(rows[..i], r, roots, pairs, order, p);
        hide Aggregated;
        pairs := pairs[p := Bump(EntryOf(pairs, p), r.nt, r.count)];
        order := if p in order then order else order + [p];
      } else {
        SkipRow(rows[..i], r, roots, pairs, order);
      }
    }
    assert rows[..|rows|] == rows;
  }

  predicate PairLe(a: Pair, b: Pair) {
    a.0 < b.0 || (a.0 == b.0 && a.1 <= b.1)
  }

  method ListEdges(rows: seq<Row>, roots: seq<string>, pairs: map<Pair, Counter>, order: seq<Pair>)
    returns (edges: seq<Edge>)
    requires Aggregated(rows, roots, pairs, order)
    ensures EdgesOk(rows, roots, edges) && |edges| == |order|
  {
    var sorted := Sort(order, PairLe);
    SortSorts(order, PairLe);
    SortMembers(order, PairLe);
    SortDistinct(order, PairLe);
    hide Sort, Aggregated, EdgesOk, CounterSum, CounterSigned, SortedEdges, HasPair, Weight, PairLe;
    edges := [];
    for i := 0 to |sorted|
      invariant |edges| == i && forall k :: 0 <= k < i ==> edges[k] == EdgeOf(pairs, sorted[k])
    {
      edges := edges + [EdgeOf(pairs, sorted[i])];
    }
    PairsOrdered(sorted, edges);
    PairsComplete(rows, roots, pairs, order, sorted, edges);
    EdgesListed(rows, roots, pairs, order, sorted, edges);
  }

  function EdgeOf(pairs: map<Pair, Counter>, p: Pair): Edge {
    Edge(p.0, p.1, CounterSum(EntryOf(pairs, p)), CounterSigned(EntryOf(pairs, p)))
  }

  lemma {:induction false} EdgesListed(rows: seq<Row>, roots: seq<string>, pairs: map<Pair, Counter>, order: seq<Pair>,
                                       sorted: seq<Pair>, edges: seq<Edge>)
    requires Aggregated(rows, roots, pairs, order) && (forall p :: p in sorted <==> p in order) && |edges| == |sorted|
    requires forall k :: 0 <= k < |edges| ==> edges[k] == EdgeOf(pairs, sorted[k])
    requires SortedEdges(edges)
    requires forall a, b :: 0 <= a < |roots| && 0 <= b < |roots| && Weight(rows, (roots[a], roots[b])) > 0
              ==> HasPair(edges, a, b)
    ensures EdgesOk(rows, roots, edges)
  {
    hide Weight, SignedWeight, CounterSum, CounterSigned;
    forall i | 0 <= i < |edges| ensures EdgeOk(rows, roots, edges[i]) {
      var p := sorted[i];
      assert p in sorted && p in pairs && p == (p.0, p.1) && Tally(rows, roots, pairs, p.0, p.1);
    }
  }

  lemma PairsOrdered(sorted: seq<Pair>, edges: seq<Edge>)
    requires Sorted(sorted, PairLe) && Distinct(sorted) && |edges| == |sorted|
    requires forall k :: 0 <= k < |edges| ==> edges[k].pre == sorted[k].0 && edges[k].post == sorted[k].1
    ensures SortedEdges(edges)
  {
    forall i, j | 0 <= i < j < |edges| ensures PairBefore(edges[i], edges[j]) {
      assert PairLe(sorted[i], sorted[j]) && sorted[i] != sorted[j];
    }
  }

  lemma PairsComplete(rows: seq<Row>, roots: seq<string>, pairs: map<Pair, Counter>, order: seq<Pair>,
                      sorted: seq<Pair>, edges: seq<Edge>)
    requires Aggregated(rows, roots, pairs, order) && (forall p :: p in sorted <==> p in order) && |edges| == |sorted|
    requires forall k :: 0 <= k < |edges| ==> edges[k].pre == sorted[k].0 && edges[k].post == sorted[k].1
    ensures forall a, b :: 0 <= a < |roots| && 0 <= b < |roots| && Weight(rows, (roots[a], roots[b])) > 0
             ==> HasPair(edges, a, b)
  {
    EmptyCounter();
    hide Weight, SignedWeight, CounterSum, CounterSigned;
    forall a, b | 0 <= a < |roots| && 0 <= b < |roots| && Weight(rows, (roots[a], roots[b])) > 0
      ensures HasPair(edges, a, b)
    {
      assert Tally(rows, roots, pairs, a, b);
      assert (a, b) in pairs;
      assert (a, b) in sorted;
      var k :| 0 <= k < |sorted| && sorted[k] == (a, b);
      assert edges[k].pre == a && edges[k].post == b;
    }
  }

  lemma EmptyCounter()
    ensures CounterSum([]) == 0
  {}

  /** `graph(path, limit)` on the rows of the file; limit 0 selects every neuron. */
  method BuildGraph(rows: seq<Row>, limit: nat) returns (g: Result)
    ensures g.NonpositiveCount? <==> !Positive(rows)
    ensures g.NoEdges?
        ==> exists roots :: RootsOk(rows, limit, roots) && forall i :: 0 <= i < |rows|
                                                            ==> rows[i].pre !in roots || rows[i].post !in roots
    ensures g.Graph? ==> g.rows == |rows| && g.neurons == |Neurons(rows)| && g.edges != []
    ensures g.Graph? ==> RootsOk(rows, limit, g.roots) && EdgesOk(rows, g.roots, g.edges)
  {
    var ok, degree, order := CountDegrees(rows);
    if !ok { return NonpositiveCount; }
    var roots := SelectRoots(rows, degree, order, limit);
    var ids := IndexRoots(roots);
    var pairs, pairOrder := Aggregate(rows, roots, ids);
    var edges := ListEdges(rows, roots, pairs, pairOrder);
    if edges == [] {
      hide RootsOk, Weight, SignedWeight;
      forall i | 0 <= i < |rows| ensures rows[i].pre !in roots || rows[i].post !in roots {
        if rows[i].pre in roots && rows[i].post in roots { RowHasEdge(rows, roots, edges, i); }
      }
      return NoEdges;
    }
    g := Graph(|rows|, |order|, roots, edges);
  }
}
