/** Selecting a confidence threshold on calibration rows and applying it to frozen rows. Floats are exact reals. */
module ThresholdGate {
  import opened Sorting
  import opened Wrappers

  datatype Row = Row(confidence: real, exact: bool)

  datatype Gate = Gate(coverage: real, precision: Option<real>, threshold: Option<real>, committed: nat)

  const NO_GATE := Gate(0.0, None, None, 0)

  /** `sorted(..., reverse=True)` on (confidence, exact) tuples. */
  predicate Before(a: Row, b: Row) {
    a.confidence > b.confidence || (a.confidence == b.confidence && (a.exact || !b.exact))
  }

  function Above(rows: seq<Row>, t: real): seq<Row> {
    Filter(rows, (r: Row) => r.confidence >= t)
  }

  function Correct(rows: seq<Row>): nat {
    |Filter(rows, (r: Row) => r.exact)|
  }

  function Ratio(part: nat, whole: nat): real
    requires whole > 0
  {
    part as real / whole as real
  }

  function Precision(rows: seq<Row>): real
    requires rows != []
  {
    Ratio(Correct(rows), |rows|)
  }

  /** `t` commits some rows and reaches the target precision on them. */
  ghost predicate Qualifies(rows: seq<Row>, t: real, target: real) {
    Above(rows, t) != [] && Precision(Above(rows, t)) >= target
  }

  /** What the selected gate must be, for any arrangement of the rows: no gate exactly when no threshold
      qualifies; otherwise a qualifying row confidence that commits at least as many rows as any real threshold
      that qualifies, with its own counts. */
  ghost predicate IsGate(rows: seq<Row>, target: real, g: Gate) {
    if g.threshold.None? then g == NO_GATE && forall t :: !Qualifies(rows, t, target)
    else
      var t := g.threshold.value;
      && Qualifies(rows, t, target)
      && (exists r :: r in rows && r.confidence == t)
      && rows != [] && g == Gate(Ratio(|Above(rows, t)|, |rows|), Some(Precision(Above(rows, t))), Some(t),
           |Above(rows, t)|)
      && forall u :: Qualifies(rows, u, target) ==> |Above(rows, u)| <= g.committed
  }

  // ---------- counting does not depend on order ----------

  lemma {:induction false} FilterCount<T>(xs: seq<T>, p: T -> bool, x: T)
    ensures multiset(Filter(xs, p))[x] == if p(x) then multiset(xs)[x] else 0
  {
    hide *;
    if xs == [] {
      FilterNone(xs, p);
    } else {
      var t, last := xs[..|xs| - 1], xs[|xs| - 1];
      FilterCount(t, p, x);
      assert xs == t + [last];
      FilterSnoc(t, last, p);
    }
  }

  lemma FilterPermutes<T(!new)>(a: seq<T>, b: seq<T>, p: T -> bool)
    requires multiset(a) == multiset(b)
    ensures multiset(Filter(a, p)) == multiset(Filter(b, p)) && |Filter(a, p)| == |Filter(b, p)|
  {
    forall x ensures multiset(Filter(a, p))[x] == multiset(Filter(b, p))[x] {
      FilterCount(a, p, x);
      FilterCount(b, p, x);
    }
    assert |multiset(Filter(a, p))| == |Filter(a, p)| && |multiset(Filter(b, p))| == |Filter(b, p)|;
  }

  lemma AbovePermutes(a: seq<Row>, b: seq<Row>, t: real)
    requires multiset(a) == multiset(b)
    ensures |Above(a, t)| == |Above(b, t)| && Correct(Above(a, t)) == Correct(Above(b, t))
  {
    FilterPermutes(a, b, (r: Row) => r.confidence >= t);
    FilterPermutes(Above(a, t), Above(b, t), (r: Row) => r.exact);
  }

  /** The gate is determined by the rows as a multiset: reordering them cannot change it. */
  lemma GateIsUnique(a: seq<Row>, b: seq<Row>, target: real, g: Gate, h: Gate)
    requires multiset(a) == multiset(b) && IsGate(a, target, g) && IsGate(b, target, h)
    ensures g == h
  {
    assert |a| == |multiset(a)| == |multiset(b)| == |b|;
    forall t ensures Qualifies(a, t, target) <==> Qualifies(b, t, target) { AbovePermutes(a, b, t); }
    if g.threshold.Some? {
      var t, u := g.threshold.value, h.threshold.value;
      AbovePermutes(a, b, t);
      AbovePermutes(a, b, u);
      assert |Above(a, t)| == |Above(a, u)|;
      var r :| r in a && r.confidence == t;
      var s :| s in b && s.confidence == u;
      assert s in multiset(b) && s in multiset(a) && s in a;
      SameCountSameThreshold(a, t, u, r, s);
    }
  }

  lemma SameCountSameThreshold(rows: seq<Row>, t: real, u: real, r: Row, s: Row)
    requires r in rows && r.confidence == t && s in rows && s.confidence == u && |Above(rows, t)| == |Above(rows, u)|
    ensures t == u
  {
    if t < u { StrictlyMore(rows, t, u, r); } else if u < t { StrictlyMore(rows, u, t, s); }
  }

  lemma {:induction false} StrictlyMore(rows: seq<Row>, t: real, u: real, r: Row)
    requires r in rows && r.confidence == t && t < u
    ensures |Above(rows, u)| < |Above(rows, t)|
  {
    var n := |rows| - 1;
    assert rows == rows[..n] + [rows[n]];
    if rows[n] == r {
      FilterImplies(rows[..n], (x: Row) => x.confidence >= u, (x: Row) => x.confidence >= t);
    } else {
      StrictlyMore(rows[..n], t, u, r);
    }
  }

  // ---------- prefixes of the sorted rows ----------

  /** In descending order the rows at or above a threshold are a prefix. */
  lemma {:induction false} AboveIsPrefix(xs: seq<Row>, t: real, k: nat)
    requires k <= |xs| && forall i :: 0 <= i < |xs| ==> (xs[i].confidence >= t <==> i < k)
    ensures Above(xs, t) == xs[..k]
  {
    if xs != [] {
      var n := |xs| - 1;
      AboveIsPrefix(xs[..n], t, if k <= n then k else n);
      if k > n { assert xs[..k] == xs[..n] + [xs[n]]; } else { assert xs[..n][..k] == xs[..k]; }
    }
  }

  lemma PrefixFor(xs: seq<Row>, t: real) returns (k: nat)
    requires Sorted(xs, Before)
    ensures k <= |xs| && Above(xs, t) == xs[..k]
    ensures forall i :: 0 <= i < |xs| ==> (xs[i].confidence >= t <==> i < k)
  {
    k := 0;
    while k < |xs| && xs[k].confidence >= t
      invariant k <= |xs| && forall i :: 0 <= i < k ==> xs[i].confidence >= t
    {
      k := k + 1;
    }
    forall i | k <= i < |xs| ensures xs[i].confidence < t {
      assert i == k || Before(xs[k], xs[i]);
    }
    AboveIsPrefix(xs, t, k);
  }

  /** Best among the thresholds whose committed rows end within the first `i` sorted rows. */
  ghost predicate BestSoFar(xs: seq<Row>, target: real, i: nat, best: Gate) {
    if best.threshold.None? then best == NO_GATE && forall u :: |Above(xs, u)| <= i ==> !Qualifies(xs, u, target)
    else
      var t := best.threshold.value;
      && Qualifies(xs, t, target)
      && (exists r :: r in xs && r.confidence == t)
      && xs != [] && best == Gate(Ratio(|Above(xs, t)|, |xs|), Some(Precision(Above(xs, t))), Some(t), |Above(xs, t)|)
      && forall u :: |Above(xs, u)| <= i && Qualifies(xs, u, target) ==> |Above(xs, u)| <= best.committed
  }

  /** Taking in the tie group that ends at `j`: every threshold committing more than `i` and at most `j` rows
      commits exactly the first `j`. */
  lemma NextGroup(xs: seq<Row>, target: real, i: nat, j: nat, best: Gate, next: Gate)
    requires Sorted(xs, Before) && i < j <= |xs| && BestSoFar(xs, target, i, best)
    requires forall k :: i <= k < j ==> xs[k].confidence == xs[i].confidence
    requires i > 0 ==> xs[i - 1].confidence > xs[i].confidence
    requires j < |xs| ==> xs[j].confidence < xs[i].confidence
    requires best.committed <= i
    requires next == if Precision(xs[..j]) >= target
                     then Gate(Ratio(j, |xs|), Some(Precision(xs[..j])), Some(xs[i].confidence), j) else best
    ensures BestSoFar(xs, target, j, next) && next.committed <= j
  {
    var t := xs[i].confidence;
    forall k | 0 <= k < |xs| ensures xs[k].confidence >= t <==> k < j {
      if k < i { assert Before(xs[k], xs[i]); } else if k > j { assert Before(xs[j], xs[k]); }
    }
    AboveIsPrefix(xs, t, j);
    assert xs[i] in xs;
    forall u | i < |Above(xs, u)| <= j ensures Above(xs, u) == xs[..j] {
      var k := PrefixFor(xs, u);
      assert |xs[..k]| == k;
      assert xs[i].confidence >= u;
      assert xs[j - 1].confidence >= u;
    }
    hide Precision, Above;
    assert Qualifies(xs, t, target) <==> Precision(xs[..j]) >= target;
    forall u | |Above(xs, u)| <= j && Qualifies(xs, u, target) && |Above(xs, u)| > i
      ensures Precision(xs[..j]) >= target
    {}
  }

  // ---------- the selection loop ----------

  /** The inner loop: collect the whole tie group that starts at `start`. */
  method TakeGroup(ordered: seq<Row>, start: nat) returns (i: nat, group: seq<Row>)
    requires start < |ordered|
    ensures start < i <= |ordered| && group == ordered[start..i]
    ensures forall k :: start <= k < i ==> ordered[k].confidence == ordered[start].confidence
    ensures i < |ordered| ==> ordered[i].confidence != ordered[start].confidence
  {
    i, group := start, [];
    while i < |ordered| && ordered[i].confidence == ordered[start].confidence
      invariant start <= i <= |ordered| && group == ordered[start..i]
      invariant forall k :: start <= k < i ==> ordered[k].confidence == ordered[start].confidence
    {
      group := group + [ordered[i]];
      i := i + 1;
    }
  }

  method CoverageAtPrecision(rows: seq<Row>, target: real) returns (best: Gate)
    ensures IsGate(rows, target, best)
  {
    SortsRows(rows);
    hide *;
    var ordered := Sort(rows, Before);
    best := NO_GATE;
    StartsEmpty(ordered, target);
    if ordered == [] {
      NothingToGate(rows, target);
      return;
    }
    var correct, committed, i := 0, 0, 0;
    while i < |ordered|
      invariant 0 <= i <= |ordered| && committed == i && correct == Correct(ordered[..i])
      invariant BestSoFar(ordered, target, i, best) && best.committed <= i
      invariant 0 < i < |ordered| ==> ordered[i - 1].confidence > ordered[i].confidence
    {
      var threshold := ordered[i].confidence;
      ghost var start, before := i, best;
      var group;
      i, group := TakeGroup(ordered, i);
      committed := committed + |group|;
      correct := correct + Correct(group);
      CorrectSplit(ordered, start, i);
      var precision := Ratio(correct, committed);
      if precision >= target {
        best := Gate(Ratio(committed, |ordered|), Some(precision), Some(threshold), committed);
      }
      GroupTaken(ordered, target, start, i, before, best);
    }
    WholeIsGate(rows, ordered, target, best);
  }

  /** One round of the outer loop. */
  lemma GroupTaken(xs: seq<Row>, target: real, i: nat, j: nat, best: Gate, next: Gate)
    requires Sorted(xs, Before) && i < j <= |xs| && BestSoFar(xs, target, i, best) && best.committed <= i
    requires forall k :: i <= k < j ==> xs[k].confidence == xs[i].confidence
    requires i > 0 ==> xs[i - 1].confidence > xs[i].confidence
    requires j < |xs| ==> xs[j].confidence != xs[i].confidence
    requires var precision := Ratio(Correct(xs[..j]), j);
             next == if precision >= target
                     then Gate(Ratio(j, |xs|), Some(precision), Some(xs[i].confidence), j) else best
    ensures BestSoFar(xs, target, j, next) && next.committed <= j
    ensures j < |xs| ==> xs[j - 1].confidence > xs[j].confidence
  {
    hide Correct, BestSoFar;
    assert |xs[..j]| == j;
    NextGroup(xs, target, i, j, best, next);
  }

  lemma CorrectSplit(xs: seq<Row>, i: nat, j: nat)
    requires i <= j <= |xs|
    ensures Correct(xs[..j]) == Correct(xs[..i]) + Correct(xs[i..j])
  {
    assert xs[..j] == xs[..i] + xs[i..j];
    FilterConcat(xs[..i], xs[i..j], (r: Row) => r.exact);
  }

  lemma SortsRows(rows: seq<Row>)
    ensures Sorted(Sort(rows, Before), Before) && multiset(Sort(rows, Before)) == multiset(rows)
    ensures |Sort(rows, Before)| == |rows|
  {
    SortSorts(rows, Before);
    SortMembers(rows, Before);
  }

  lemma NothingToGate(rows: seq<Row>, target: real)
    requires rows == []
    ensures IsGate(rows, target, NO_GATE)
  {}

  lemma StartsEmpty(xs: seq<Row>, target: real)
    ensures BestSoFar(xs, target, 0, NO_GATE) && NO_GATE.committed == 0
    ensures Correct(xs[..0]) == 0
  {
    forall u | |Above(xs, u)| <= 0 ensures !Qualifies(xs, u, target) {}
  }

  lemma {:induction false} WholeIsGate(rows: seq<Row>, ordered: seq<Row>, target: real, best: Gate)
    requires multiset(rows) == multiset(ordered) && ordered != [] && BestSoFar(ordered, target, |ordered|, best)
    ensures IsGate(rows, target, best)
  {
    assert |rows| == |multiset(rows)| == |multiset(ordered)| == |ordered|;
    forall u
      ensures (Qualifies(rows, u, target) <==> Qualifies(ordered, u, target)) && |Above(ordered, u)| <= |ordered|
    {
      AbovePermutes(rows, ordered, u);
      AboveShrinks(ordered, u);
    }
    forall u ensures |Above(rows, u)| == |Above(ordered, u)| { AbovePermutes(rows, ordered, u); }
    if best.threshold.Some? {
      AbovePermutes(rows, ordered, best.threshold.value);
      var r :| r in ordered && r.confidence == best.threshold.value;
      assert r in multiset(ordered) && r in multiset(rows) && r in rows;
    }
  }

  lemma {:induction false} AboveShrinks(xs: seq<Row>, t: real)
    ensures |Above(xs, t)| <= |xs|
  {
    if xs != [] { AboveShrinks(xs[..|xs| - 1], t); }
  }

  // ---------- applying a frozen threshold ----------

  datatype Report = Report(rows: nat, committed: nat, coverage: real, precision: Option<real>, threshold: Option<real>)

  function EvaluateFixed(rows: seq<Row>, threshold: Option<real>): Report {
    var committed := if threshold.None? then [] else Above(rows, threshold.value);
    Report(|rows|, |committed|,
           if rows == [] then 0.0 else Ratio(|committed|, |rows|),
           if committed == [] then None else Some(Ratio(Correct(committed), |committed|)),
           threshold)
  }

  /** Applying the selected threshold to the rows it was selected on reproduces the gate's own figures. */
  lemma FixedReproducesGate(rows: seq<Row>, target: real, g: Gate)
    requires IsGate(rows, target, g)
    ensures var r := EvaluateFixed(rows, g.threshold);
            Gate(r.coverage, r.precision, r.threshold, r.committed) == g
  {
    if g.threshold.Some? { assert rows != []; }
  }
}
