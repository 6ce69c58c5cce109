/** The multiclass perceptron and its mistake bound. */
module Perceptron {
  // Floats are exact reals and `1/sqrt(max(1,n))` is a number `s > 0` with `s*s*max(1,n) == 1`.

  const EPOCHS: nat := 32

  datatype Model = Model(w: seq<seq<real>>, b: seq<real>)

  /** One prepared example: hashed feature positions, gold class, feature scale. */
  datatype Example = Example(idx: seq<nat>, gold: nat, s: real)

  ghost predicate Shaped(m: Model, classes: nat, dim: nat) {
    |m.w| == |m.b| == classes && forall c :: 0 <= c < classes ==> |m.w[c]| == dim
  }

  ghost predicate Fits(x: Example, classes: nat, dim: nat) {
    && x.gold < classes
    && (forall i :: 0 <= i < |x.idx| ==> x.idx[i] < dim)
    && (forall i, j :: 0 <= i < j < |x.idx| ==> x.idx[i] != x.idx[j])
    && UnitScale(x)
  }

  /** The scale makes the squared length of the scaled feature vector exactly one (zero without features). */
  ghost predicate UnitScale(x: Example) {
    x.s > 0.0 && x.s * x.s * (if |x.idx| == 0 then 1 else |x.idx|) as real == 1.0
  }

  // ---------- scoring ----------

  /** A named product, so that structural proofs can treat it as a unit. */
  function Mul(a: real, b: real): real {
    a * b
  }

  function Gather(row: seq<real>, idx: seq<nat>): real
    requires forall i :: 0 <= i < |idx| ==> idx[i] < |row|
  {
    if idx == [] then 0.0 else Gather(row, idx[..|idx| - 1]) + row[idx[|idx| - 1]]
  }

  function Logit(m: Model, c: nat, x: Example): real
    requires c < |m.w| == |m.b|
    requires forall i :: 0 <= i < |x.idx| ==> x.idx[i] < |m.w[c]|
  {
    m.b[c] + Mul(Gather(m.w[c], x.idx), x.s)
  }

  function Logits(m: Model, x: Example): seq<real>
    requires |m.w| == |m.b|
    requires forall c, i :: 0 <= c < |m.w| && 0 <= i < |x.idx| ==> x.idx[i] < |m.w[c]|
  {
    seq(|m.w|, c requires 0 <= c < |m.w| => Logit(m, c, x))
  }

  /** `max(range(len(z)), key=...)`: the first position of the largest logit. */
  function ArgMax(z: seq<real>): (k: nat)
    requires z != []
    ensures k < |z|
    ensures forall c :: 0 <= c < |z| ==> z[c] <= z[k]
    ensures forall c :: 0 <= c < k ==> z[c] < z[k]
  {
    if |z| == 1 then 0
    else
      var k := ArgMax(z[..|z| - 1]);
      if z[|z| - 1] > z[k] then |z| - 1 else k
  }

  function Predict(m: Model, x: Example): nat
    requires 0 < |m.w| == |m.b|
    requires forall c, i :: 0 <= c < |m.w| && 0 <= i < |x.idx| ==> x.idx[i] < |m.w[c]|
  {
    ArgMax(Logits(m, x))
  }

  // ---------- the update ----------

  function AddAt(row: seq<real>, idx: seq<nat>, d: real): (r: seq<real>)
    requires forall i :: 0 <= i < |idx| ==> idx[i] < |row|
    ensures |r| == |row|
  {
    if idx == [] then row
    else
      var r := AddAt(row, idx[..|idx| - 1], d);
      r[idx[|idx| - 1] := r[idx[|idx| - 1]] + d]
  }

  /** The mistake update: gold gains `lr` times the feature vector, the wrong winner loses it. */
  function Shift(m: Model, x: Example, p: nat, lr: real): Model
    requires x.gold < |m.w| == |m.b| && p < |m.w|
    requires forall c, i :: 0 <= c < |m.w| && 0 <= i < |x.idx| ==> x.idx[i] < |m.w[c]|
  {
    Model(m.w[x.gold := AddAt(m.w[x.gold], x.idx, Mul(lr, x.s))][p := AddAt(m.w[p], x.idx, 0.0 - Mul(lr, x.s))],
          m.b[x.gold := m.b[x.gold] + lr][p := m.b[p] - lr])
  }

  function Learn(m: Model, x: Example, lr: real): Model
    requires x.gold < |m.w| == |m.b|
    requires forall c, i :: 0 <= c < |m.w| && 0 <= i < |x.idx| ==> x.idx[i] < |m.w[c]|
  {
    if Predict(m, x) == x.gold then m else Shift(m, x, Predict(m, x), lr)
  }

  /** Every cell after adding along distinct positions. */
  lemma {:induction false} AddAtCell(row: seq<real>, idx: seq<nat>, d: real, j: nat)
    requires forall i :: 0 <= i < |idx| ==> idx[i] < |row|
    requires forall i, k :: 0 <= i < k < |idx| ==> idx[i] != idx[k]
    requires j < |row|
    ensures AddAt(row, idx, d)[j] == row[j] + if j in idx then d else 0.0
  {
    if idx != [] {
      var t := idx[..|idx| - 1];
      AddAtCell(row, t, d, j);
      assert idx == t + [idx[|idx| - 1]];
      assert j in idx <==> j in t || j == idx[|idx| - 1];
    }
  }

  // ---------- squared norm ----------

  function Sq(a: real): (r: real)
    ensures r >= 0.0
  {
    a * a
  }

  /** Growth of a squared norm when `d` is added at `n` positions whose entries sum to `sum`. */
  function Growth(d: real, sum: real, n: nat): real {
    2.0 * d * sum + d * d * n as real
  }

  ghost function SumSq(v: seq<real>): (r: real)
    ensures r >= 0.0
  {
    if v == [] then 0.0 else SumSq(v[..|v| - 1]) + Sq(v[|v| - 1])
  }

  ghost function SumRows(w: seq<seq<real>>): (r: real)
    ensures r >= 0.0
  {
    if w == [] then 0.0 else SumRows(w[..|w| - 1]) + SumSq(w[|w| - 1])
  }

  ghost function NormSq(m: Model): (r: real)
    ensures r >= 0.0
  {
    SumRows(m.w) + SumSq(m.b)
  }

  lemma {:induction false} SumSqSet(v: seq<real>, j: nat, a: real)
    requires j < |v|
    ensures SumSq(v[j := a]) == SumSq(v) - Sq(v[j]) + Sq(a)
  {
    var n := |v| - 1;
    if j == n {
      assert v[j := a][..n] == v[..n];
    } else {
      SumSqSet(v[..n], j, a);
      assert v[j := a][..n] == v[..n][j := a];
    }
  }

  lemma {:induction false} SumRowsSet(w: seq<seq<real>>, c: nat, row: seq<real>)
    requires c < |w|
    ensures SumRows(w[c := row]) == SumRows(w) - SumSq(w[c]) + SumSq(row)
  {
    var n := |w| - 1;
    if c == n {
      assert w[c := row][..n] == w[..n];
    } else {
      SumRowsSet(w[..n], c, row);
      assert w[c := row][..n] == w[..n][c := row];
    }
  }

  lemma {:induction false} AddAtNorm(row: seq<real>, idx: seq<nat>, d: real)
    requires forall i :: 0 <= i < |idx| ==> idx[i] < |row|
    requires forall i, k :: 0 <= i < k < |idx| ==> idx[i] != idx[k]
    ensures SumSq(AddAt(row, idx, d)) == SumSq(row) + Growth(d, Gather(row, idx), |idx|)
  {
    if idx != [] {
      var t, j := idx[..|idx| - 1], idx[|idx| - 1];
      var r := AddAt(row, t, d);
      AddAtNorm(row, t, d);
      AddAtCell(row, t, d, j);
      assert r[j] == row[j];
      SumSqSet(r, j, r[j] + d);
      GrowthStep(d, Gather(row, t), row[j], |t|);
    }
  }

  lemma GrowthStep(d: real, sum: real, a: real, n: nat)
    ensures Growth(d, sum + a, n + 1) == Growth(d, sum, n) - Sq(a) + Sq(a + d)
  {
    assert (n + 1) as real == n as real + 1.0;
    assert d * d * (n as real + 1.0) == d * d * n as real + d * d;
  }

  /** Twice the rate times the logit gap, plus the squared-length term of one update. */
  function UpdateCost(lr: real, gap: real): real {
    2.0 * lr * gap + 4.0 * lr * lr
  }

  /** What one mistake update does to the squared norm, for any weights it is applied to. */
  lemma {:induction false} ShiftNorm(v: Model, x: Example, p: nat, lr: real, classes: nat, dim: nat)
    requires Shaped(v, classes, dim) && Fits(x, classes, dim) && p < classes && p != x.gold
    ensures NormSq(Shift(v, x, p, lr)) <= NormSq(v) + UpdateCost(lr, Logit(v, x.gold, x) - Logit(v, p, x))
  {
    hide UnitScale, Mul, Sq, Growth, UpdateCost, AddAt, Gather, SumSq, SumRows;
    var g, d := x.gold, Mul(lr, x.s);
    var rg, rp := AddAt(v.w[g], x.idx, d), AddAt(v.w[p], x.idx, 0.0 - d);
    SumRowsSet(v.w, g, rg);
    SumRowsSet(v.w[g := rg], p, rp);
    AddAtNorm(v.w[g], x.idx, d);
    AddAtNorm(v.w[p], x.idx, 0.0 - d);
    SumSqSet(v.b, g, v.b[g] + lr);
    SumSqSet(v.b[g := v.b[g] + lr], p, v.b[p] - lr);
    ShiftArithmetic(lr, x, Gather(v.w[g], x.idx), Gather(v.w[p], x.idx), v.b[g], v.b[p]);
    assert Shift(v, x, p, lr) == Model(v.w[g := rg][p := rp], v.b[g := v.b[g] + lr][p := v.b[p] - lr]);
    assert NormSq(Shift(v, x, p, lr)) <= NormSq(v)
      + UpdateCost(lr, (v.b[g] + Mul(Gather(v.w[g], x.idx), x.s)) - (v.b[p] + Mul(Gather(v.w[p], x.idx), x.s)));
  }

  lemma ShiftArithmetic(lr: real, x: Example, G: real, P: real, bg: real, bp: real)
    requires UnitScale(x)
    ensures var d := Mul(lr, x.s);
            Growth(d, G, |x.idx|) + Growth(0.0 - d, P, |x.idx|) - Sq(bg) + Sq(bg + lr) - Sq(bp) + Sq(bp - lr)
            <= UpdateCost(lr, (bg + Mul(G, x.s)) - (bp + Mul(P, x.s)))
  {
    var s, n := x.s, |x.idx| as real;
    var d := lr * s;
    assert d * d * n <= lr * lr by {
      assert d * d * n == (lr * lr) * (s * s * n);
    }
    assert Growth(d, G, |x.idx|) + Growth(0.0 - d, P, |x.idx|) <= 2.0 * lr * (G * s) - 2.0 * lr * (P * s)
        + 2.0 * lr * lr by {
      assert (-d) * (-d) * n == d * d * n;
      assert 2.0 * d * G == 2.0 * lr * (G * s) && 2.0 * (-d) * P == -(2.0 * lr * (P * s));
    }
  }

  // ---------- distance to a reference separator ----------

  ghost function SubRow(u: seq<real>, v: seq<real>, t: real): (r: seq<real>)
    requires |u| == |v|
    ensures |r| == |u| && forall j :: 0 <= j < |u| ==> r[j] == u[j] - Mul(t, v[j])
  {
    seq(|u|, j requires 0 <= j < |u| => u[j] - Mul(t, v[j]))
  }

  /** The weights `m - t*u`. */
  ghost function Minus(m: Model, u: Model, t: real, classes: nat, dim: nat): (r: Model)
    requires Shaped(m, classes, dim) && Shaped(u, classes, dim)
    ensures Shaped(r, classes, dim)
  {
    Model(seq(classes, c requires 0 <= c < classes => SubRow(m.w[c], u.w[c], t)), SubRow(m.b, u.b, t))
  }

  lemma {:induction false} GatherMinus(u: seq<real>, v: seq<real>, t: real, idx: seq<nat>)
    requires |u| == |v| && forall i :: 0 <= i < |idx| ==> idx[i] < |u|
    ensures Gather(SubRow(u, v, t), idx) == Gather(u, idx) - Mul(t, Gather(v, idx))
  {
    if idx != [] {
      GatherMinus(u, v, t, idx[..|idx| - 1]);
      MulAdd(t, Gather(v, idx[..|idx| - 1]), v[idx[|idx| - 1]]);
    }
  }

  lemma MulAdd(t: real, a: real, b: real)
    ensures Mul(t, a + b) == Mul(t, a) + Mul(t, b)
  {}

  lemma LogitMinus(m: Model, u: Model, t: real, c: nat, x: Example, classes: nat, dim: nat)
    requires Shaped(m, classes, dim) && Shaped(u, classes, dim) && Fits(x, classes, dim) && c < classes
    ensures Logit(Minus(m, u, t, classes, dim), c, x) == Logit(m, c, x) - Mul(t, Logit(u, c, x))
  {
    hide UnitScale, Mul;
    GatherMinus(m.w[c], u.w[c], t, x.idx);
    LogitArithmetic(m.b[c], Gather(m.w[c], x.idx), u.b[c], Gather(u.w[c], x.idx), t, x.s);
  }

  lemma LogitArithmetic(b: real, a: real, d: real, e: real, t: real, s: real)
    ensures (b - Mul(t, d)) + Mul(a - Mul(t, e), s) == (b + Mul(a, s)) - Mul(t, d + Mul(e, s))
  {
    assert (t * e) * s == t * (e * s);
  }

  lemma {:induction false} AddAtMinus(u: seq<real>, v: seq<real>, t: real, idx: seq<nat>, d: real)
    requires |u| == |v| && forall i :: 0 <= i < |idx| ==> idx[i] < |u|
    ensures SubRow(AddAt(u, idx, d), v, t) == AddAt(SubRow(u, v, t), idx, d)
  {
    hide Mul;
    if idx != [] { AddAtMinus(u, v, t, idx[..|idx| - 1], d); }
  }

  lemma ShiftMinus(m: Model, u: Model, t: real, x: Example, p: nat, lr: real, classes: nat, dim: nat)
    requires Shaped(m, classes, dim) && Shaped(u, classes, dim) && Fits(x, classes, dim) && p < classes && p != x.gold
    ensures Shaped(Shift(m, x, p, lr), classes, dim)
    ensures Minus(Shift(m, x, p, lr), u, t, classes, dim) == Shift(Minus(m, u, t, classes, dim), x, p, lr)
  {
    hide UnitScale, Mul;
    AddAtMinus(m.w[x.gold], u.w[x.gold], t, x.idx, Mul(lr, x.s));
    AddAtMinus(m.w[p], u.w[p], t, x.idx, 0.0 - Mul(lr, x.s));
    var a, e := Minus(Shift(m, x, p, lr), u, t, classes, dim), Shift(Minus(m, u, t, classes, dim), x, p, lr);
    assert a.w == e.w;
    assert a.b == e.b;
  }

  // ---------- whole training histories ----------

  datatype Step = Step(x: Example, lr: real)

  ghost predicate FitAll(h: seq<Step>, classes: nat, dim: nat) {
    forall i :: 0 <= i < |h| ==> Fits(h[i].x, classes, dim)
  }

  /** The outcome of a history of `update` calls from `m`: weights, mistakes, and the sums of the
      learning rates and of their squares over the mistakes. */
  datatype Outcome = Outcome(m: Model, mistakes: nat, rates: real, squares: real)

  ghost function Train(m: Model, h: seq<Step>, classes: nat, dim: nat): (r: Outcome)
    requires 0 < classes && Shaped(m, classes, dim) && FitAll(h, classes, dim)
    ensures Shaped(r.m, classes, dim)
  {
    if h == [] then Outcome(m, 0, 0.0, 0.0)
    else
      var o, e := Train(m, h[..|h| - 1], classes, dim), h[|h| - 1];
      if Predict(o.m, e.x) == e.x.gold then o
      else Outcome(Shift(o.m, e.x, Predict(o.m, e.x), e.lr), o.mistakes + 1, o.rates + e.lr, o.squares + Sq(e.lr))
  }

  lemma {:induction false} TrainSnoc(m: Model, h: seq<Step>, e: Step, classes: nat, dim: nat)
    requires 0 < classes && Shaped(m, classes, dim) && FitAll(h, classes, dim) && Fits(e.x, classes, dim)
    ensures FitAll(h + [e], classes, dim)
    ensures var o, o' := Train(m, h, classes, dim), Train(m, h + [e], classes, dim);
            if Predict(o.m, e.x) == e.x.gold then o' == o && o.m == Learn(o.m, e.x, e.lr)
            else o' == Outcome(Learn(o.m, e.x, e.lr), o.mistakes + 1, o.rates + e.lr, o.squares + Sq(e.lr))
  {
    hide UnitScale, Predict, Shift;
    assert (h + [e])[..|h|] == h;
  }

  function Zero(classes: nat, dim: nat): (m: Model)
    ensures Shaped(m, classes, dim)
  {
    Model(seq(classes, c => seq(dim, j => 0.0)), seq(classes, c => 0.0))
  }

  /** `u` scores the gold label of `x` above every other label by at least `g`. */
  ghost predicate Separates(u: Model, x: Example, g: real, classes: nat, dim: nat)
    requires Shaped(u, classes, dim) && Fits(x, classes, dim)
  {
    forall c :: 0 <= c < classes && c != x.gold ==> Logit(u, x.gold, x) - Logit(u, c, x) >= g
  }

  lemma {:induction false} SumSqScale(u: seq<real>, z: seq<real>, t: real)
    requires |u| == |z| && forall j :: 0 <= j < |z| ==> z[j] == 0.0
    ensures SumSq(SubRow(z, u, t)) == Mul(Sq(t), SumSq(u))
  {
    hide Mul, Sq;
    if u == [] {
      ScaleStep(t, 0.0, 0.0);
    } else {
      var n := |u| - 1;
      SumSqScale(u[..n], z[..n], t);
      assert SubRow(z, u, t)[..n] == SubRow(z[..n], u[..n], t);
      ScaleStep(t, SumSq(u[..n]), u[n]);
    }
  }

  lemma {:induction false} ScaleStep(t: real, sum: real, a: real)
    ensures Mul(Sq(t), sum + Sq(a)) == Mul(Sq(t), sum) + Sq(0.0 - Mul(t, a))
    ensures Mul(Sq(t), 0.0) == 0.0
  {
    assert (t * a) * (t * a) == t * t * (a * a);
  }

  lemma {:induction false} SumRowsScale(u: seq<seq<real>>, d: seq<seq<real>>, t: real, dim: nat)
    requires |u| == |d| && forall c :: 0 <= c < |u| ==> |u[c]| == dim && d[c] == SubRow(seq(dim, j => 0.0), u[c], t)
    ensures SumRows(d) == Mul(Sq(t), SumRows(u))
  {
    hide Mul, Sq;
    if u == [] {
      ScaleStep(t, 0.0, 0.0);
    } else {
      var n := |u| - 1;
      SumRowsScale(u[..n], d[..n], t, dim);
      SumSqScale(u[n], seq(dim, j => 0.0), t);
      MulAdd(Sq(t), SumRows(u[..n]), SumSq(u[n]));
    }
  }

  lemma {:induction false} ZeroDistance(u: Model, t: real, classes: nat, dim: nat)
    requires Shaped(u, classes, dim)
    ensures NormSq(Minus(Zero(classes, dim), u, t, classes, dim)) == Mul(Sq(t), NormSq(u))
  {
    var d := Minus(Zero(classes, dim), u, t, classes, dim);
    ZeroRows(u, t, classes, dim);
    hide Mul, Sq, SubRow, SumSq, SumRows;
    SumRowsScale(u.w, d.w, t, dim);
    SumSqScale(u.b, Zero(classes, dim).b, t);
    MulAdd(Sq(t), SumRows(u.w), SumSq(u.b));
  }

  lemma {:induction false} ZeroRows(u: Model, t: real, classes: nat, dim: nat)
    requires Shaped(u, classes, dim)
    ensures var d := Minus(Zero(classes, dim), u, t, classes, dim);
            d.b == SubRow(Zero(classes, dim).b, u.b, t) && forall c :: 0 <= c < classes
                                                            ==> d.w[c] == SubRow(seq(dim, j => 0.0), u.w[c], t)
  {
    hide Mul, Sq, SubRow;
    var d := Minus(Zero(classes, dim), u, t, classes, dim);
    forall c | 0 <= c < classes ensures d.w[c] == SubRow(seq(dim, j => 0.0), u.w[c], t) {
      assert Zero(classes, dim).w[c] == seq(dim, j => 0.0);
    }
  }

  /** The potential that bounds the squared distance from the weights to `t` times a separator. */
  function Potential(t: real, g: real, normSq: real, rates: real, squares: real): real {
    t * t * normSq - 2.0 * t * g * rates + 4.0 * squares
  }

  /** Along any history the weights stay close to every multiple of a separator. */
  lemma {:induction false} DistanceBound(u: Model, h: seq<Step>, g: real, t: real, classes: nat, dim: nat)
    requires 0 < classes && Shaped(u, classes, dim) && FitAll(h, classes, dim) && t >= 0.0
    requires forall i :: 0 <= i < |h| ==> h[i].lr >= 0.0 && Separates(u, h[i].x, g, classes, dim)
    ensures var o := Train(Zero(classes, dim), h, classes, dim);
            NormSq(Minus(o.m, u, t, classes, dim)) <= Potential(t, g, NormSq(u), o.rates, o.squares)
  {
    hide Mul, UnitScale, Potential, UpdateCost, Sq, Shift, Minus, NormSq, Logit, Zero;
    if h == [] {
      ZeroDistance(u, t, classes, dim);
      PotentialStart(t, g, NormSq(u));
    } else {
      DistanceBound(u, h[..|h| - 1], g, t, classes, dim);
      var o, e := Train(Zero(classes, dim), h[..|h| - 1], classes, dim), h[|h| - 1];
      var p := Predict(o.m, e.x);
      if p != e.x.gold {
        ShiftMinus(o.m, u, t, e.x, p, e.lr, classes, dim);
        ShiftNorm(Minus(o.m, u, t, classes, dim), e.x, p, e.lr, classes, dim);
        LogitMinus(o.m, u, t, e.x.gold, e.x, classes, dim);
        LogitMinus(o.m, u, t, p, e.x, classes, dim);
        assert Logits(o.m, e.x)[e.x.gold] <= Logits(o.m, e.x)[p];
        PotentialStep(Logit(o.m, e.x.gold, e.x), Logit(o.m, p, e.x), Logit(u, e.x.gold, e.x), Logit(u, p, e.x),
                      t, g, e.lr, NormSq(u), o.rates, o.squares);
      }
    }
  }

  lemma {:induction false} PotentialStart(t: real, g: real, n: real)
    ensures Mul(Sq(t), n) == Potential(t, g, n, 0.0, 0.0)
  {}

  lemma {:induction false} PotentialStep(zg: real, zp: real, ug: real, up: real, t: real, g: real, lr: real, n: real,
                                         rates: real, squares: real)
    requires zg <= zp && ug - up >= g && t >= 0.0 && lr >= 0.0
    ensures Potential(t, g, n, rates, squares) + UpdateCost(lr, (zg - Mul(t, ug)) - (zp - Mul(t, up)))
            <= Potential(t, g, n, rates + lr, squares + Sq(lr))
  {
    var gap := (zg - t * ug) - (zp - t * up);
    assert gap <= -(t * g) by {
      assert t * (ug - up) >= t * g;
      assert t * (ug - up) == t * ug - t * up;
    }
    assert lr * gap <= lr * -(t * g);
    assert 2.0 * t * g * (rates + lr) == 2.0 * t * g * rates + 2.0 * (lr * (t * g));
    assert 4.0 * lr * lr == 4.0 * Sq(lr);
  }

  /** The separation margin, the rates used and the separator's size bound every history. */
  lemma {:induction false} RateBound(u: Model, h: seq<Step>, g: real, classes: nat, dim: nat)
    requires 0 < classes && Shaped(u, classes, dim) && FitAll(h, classes, dim) && g > 0.0
    requires forall i :: 0 <= i < |h| ==> h[i].lr >= 0.0 && Separates(u, h[i].x, g, classes, dim)
    ensures var o := Train(Zero(classes, dim), h, classes, dim);
            Sq(Mul(g, o.rates)) <= Mul(4.0 * o.squares, NormSq(u))
  {
    hide Mul, UnitScale, Potential, Separates, Sq, NormSq, Minus, Zero, BestMultiple;
    var o, n := Train(Zero(classes, dim), h, classes, dim), NormSq(u);
    RatesNonneg(Zero(classes, dim), h, classes, dim);
    var t := BestMultiple(g, n, o.rates, o.squares);
    DistanceBound(u, h, g, t, classes, dim);
    PotentialNonneg(g, n, o.rates, o.squares, t);
  }

  /** The multiple of the separator that makes the potential tightest. */
  function BestMultiple(g: real, n: real, rates: real, squares: real): (t: real)
    requires g > 0.0 && n >= 0.0 && rates >= 0.0 && squares >= 0.0
    ensures t >= 0.0
  {
    var k := g * rates;
    assert k >= 0.0;
    if n > 0.0 then k / n else if k > 0.0 then (4.0 * squares + 1.0) / k else 0.0
  }

  lemma {:induction false} Reciprocal(a: real, k: real)
    requires k != 0.0
    ensures a / k * k == a
  {}

  lemma {:induction false} PotentialNonneg(g: real, n: real, rates: real, squares: real, t: real)
    requires g > 0.0 && n >= 0.0 && rates >= 0.0 && squares >= 0.0
    requires t == BestMultiple(g, n, rates, squares) && Potential(t, g, n, rates, squares) >= 0.0
    ensures Sq(Mul(g, rates)) <= Mul(4.0 * squares, n)
  {
    var k := g * rates;
    assert 2.0 * t * g * rates == 2.0 * (t * k);
    if n > 0.0 {
      assert t * n == k;
      assert t * t * n == t * k;
      assert n * (t * k) == k * k;
      assert n * (t * k) <= n * (4.0 * squares);
    } else if k > 0.0 {
      Reciprocal(4.0 * squares + 1.0, k);
      assert false;
    }
  }

  lemma {:induction false} RatesNonneg(m: Model, h: seq<Step>, classes: nat, dim: nat)
    requires 0 < classes && Shaped(m, classes, dim) && FitAll(h, classes, dim)
    requires forall i :: 0 <= i < |h| ==> h[i].lr >= 0.0
    ensures Train(m, h, classes, dim).rates >= 0.0 && Train(m, h, classes, dim).squares >= 0.0
  {
    if h != [] { RatesNonneg(m, h[..|h| - 1], classes, dim); }
  }

  lemma {:induction false} RatesBracket(m: Model, h: seq<Step>, lo: real, hi: real, classes: nat, dim: nat)
    requires 0 < classes && Shaped(m, classes, dim) && FitAll(h, classes, dim) && 0.0 <= lo <= hi
    requires forall i :: 0 <= i < |h| ==> lo <= h[i].lr <= hi
    ensures var o := Train(m, h, classes, dim);
            Mul(lo, o.mistakes as real) <= o.rates && o.squares <= Mul(Sq(hi), o.mistakes as real)
  {
    hide Mul, Sq, UnitScale;
    if h == [] {
      assert Mul(lo, 0.0) == 0.0 && Mul(Sq(hi), 0.0) == 0.0 by { MulZero(lo); MulZero(Sq(hi)); }
    } else {
      RatesBracket(m, h[..|h| - 1], lo, hi, classes, dim);
      BracketStep(lo, hi, h[|h| - 1].lr, Train(m, h[..|h| - 1], classes, dim).mistakes);
    }
  }

  lemma {:induction false} MulZero(a: real)
    ensures Mul(a, 0.0) == 0.0
  {}

  lemma {:induction false} BracketStep(lo: real, hi: real, lr: real, k: nat)
    requires 0.0 <= lo <= lr <= hi
    ensures Mul(lo, (k + 1) as real) <= Mul(lo, k as real) + lr
    ensures Mul(Sq(hi), k as real) + Sq(lr) <= Mul(Sq(hi), (k + 1) as real)
  {
    assert lr * lr <= hi * lr <= hi * hi;
    assert (k + 1) as real == k as real + 1.0;
  }

  ghost predicate WithinBound(g: real, lo: real, hi: real, mistakes: nat, normSq: real) {
    g * g * lo * lo * mistakes as real <= 4.0 * hi * hi * normSq
  }

  /** Mistake bound: with rates in [lo, hi], `g*g*lo*lo*M <= 4*hi*hi*|U|^2` after any history. */
  lemma {:induction false} MistakeBound(u: Model, h: seq<Step>, g: real, lo: real, hi: real, classes: nat, dim: nat)
    requires 0 < classes && Shaped(u, classes, dim) && FitAll(h, classes, dim) && g > 0.0 && 0.0 <= lo <= hi
    requires forall i :: 0 <= i < |h| ==> lo <= h[i].lr <= hi && Separates(u, h[i].x, g, classes, dim)
    ensures WithinBound(g, lo, hi, Train(Zero(classes, dim), h, classes, dim).mistakes, NormSq(u))
  {
    hide UnitScale, Separates, Mul, Sq, WithinBound, NormSq, Zero;
    var o := Train(Zero(classes, dim), h, classes, dim);
    RateBound(u, h, g, classes, dim);
    RatesBracket(Zero(classes, dim), h, lo, hi, classes, dim);
    Cancel(g, lo, hi, o.mistakes, o.rates, o.squares, NormSq(u));
  }

  lemma {:induction false} Cancel(g: real, lo: real, hi: real, k: nat, r: real, q: real, n: real)
    requires g > 0.0 && 0.0 <= lo && n >= 0.0
    requires Mul(lo, k as real) <= r && q <= Mul(Sq(hi), k as real) && Sq(Mul(g, r)) <= Mul(4.0 * q, n)
    ensures WithinBound(g, lo, hi, k, n)
  {
    var m := k as real;
    var L, R := g * g * lo * lo * m, 4.0 * hi * hi * n;
    if k == 0 {
      assert L == 0.0 && R >= 0.0;
    } else {
      var a := g * (lo * m);
      assert a * a <= (g * r) * (g * r) by {
        assert 0.0 <= lo * m;
        assert 0.0 <= a <= g * r;
        assert a * a <= a * (g * r) <= (g * r) * (g * r);
      }
      assert q * n <= (hi * hi * m) * n;
      assert m * L <= m * R by { assert a * a == m * L; assert 4.0 * ((hi * hi * m) * n) == m * R; }
      assert m * (R - L) == m * R - m * L;
      Divide(m, R - L);
    }
  }

  lemma {:induction false} Divide(m: real, x: real)
    requires m > 0.0 && m * x >= 0.0
    ensures x >= 0.0
  {
    calc { x; m * x / m; }
  }

  // ---------- conservation ----------

  ghost function Column(w: seq<seq<real>>, j: nat): real
    requires forall c :: 0 <= c < |w| ==> j < |w[c]|
  {
    if w == [] then 0.0 else Column(w[..|w| - 1], j) + w[|w| - 1][j]
  }

  ghost function Total(v: seq<real>): real {
    if v == [] then 0.0 else Total(v[..|v| - 1]) + v[|v| - 1]
  }

  lemma {:induction false} ColumnSet(w: seq<seq<real>>, c: nat, row: seq<real>, j: nat)
    requires c < |w| && j < |row| && forall e :: 0 <= e < |w| ==> j < |w[e]|
    ensures Column(w[c := row], j) == Column(w, j) - w[c][j] + row[j]
  {
    var n := |w| - 1;
    if c == n { assert w[c := row][..n] == w[..n]; }
    else {
      ColumnSet(w[..n], c, row, j);
      assert w[c := row][..n] == w[..n][c := row];
    }
  }

  lemma {:induction false} TotalSet(v: seq<real>, c: nat, a: real)
    requires c < |v|
    ensures Total(v[c := a]) == Total(v) - v[c] + a
  {
    var n := |v| - 1;
    if c == n { assert v[c := a][..n] == v[..n]; }
    else {
      TotalSet(v[..n], c, a);
      assert v[c := a][..n] == v[..n][c := a];
    }
  }

  lemma {:induction false} ZeroSums(w: seq<seq<real>>, v: seq<real>, j: nat)
    requires forall c :: 0 <= c < |w| ==> j < |w[c]| && w[c][j] == 0.0
    requires forall c :: 0 <= c < |v| ==> v[c] == 0.0
    ensures Column(w, j) == 0.0 && Total(v) == 0.0
    decreases |w| + |v|
  {
    if w != [] { ZeroSums(w[..|w| - 1], v, j); }
    if v != [] { ZeroSums(w, v[..|v| - 1], j); }
  }

  /** Training moves weight between classes and creates none: for each feature the class weights,
      and over all classes the biases, sum to zero after any history. */
  lemma {:induction false} Conservation(h: seq<Step>, j: nat, classes: nat, dim: nat)
    requires 0 < classes && FitAll(h, classes, dim) && j < dim
    ensures var o := Train(Zero(classes, dim), h, classes, dim);
            Column(o.m.w, j) == 0.0 && Total(o.m.b) == 0.0
  {
    if h == [] {
      ZeroSums(Zero(classes, dim).w, Zero(classes, dim).b, j);
    } else {
      Conservation(h[..|h| - 1], j, classes, dim);
      hide UnitScale, Mul, Gather, Logit, Shift, Column, Total;
      var m, e := Train(Zero(classes, dim), h[..|h| - 1], classes, dim).m, h[|h| - 1];
      if Predict(m, e.x) != e.x.gold { ShiftConserves(m, e.x, Predict(m, e.x), e.lr, j, classes, dim); }
    }
  }

  lemma {:induction false} ShiftConserves(m: Model, x: Example, p: nat, lr: real, j: nat, classes: nat, dim: nat)
    requires Shaped(m, classes, dim) && Fits(x, classes, dim) && p < classes && p != x.gold && j < dim
    ensures var r := Shift(m, x, p, lr);
            Shaped(r, classes, dim) && Column(r.w, j) == Column(m.w, j) && Total(r.b) == Total(m.b)
  {
    hide UnitScale, Mul, AddAt, Column, Total;
    var g, d := x.gold, Mul(lr, x.s);
    var rg, rp := AddAt(m.w[g], x.idx, d), AddAt(m.w[p], x.idx, 0.0 - d);
    AddAtCell(m.w[g], x.idx, d, j);
    AddAtCell(m.w[p], x.idx, 0.0 - d, j);
    ColumnSet(m.w, g, rg, j);
    ColumnSet(m.w[g := rg], p, rp, j);
    TotalSet(m.b, g, m.b[g] + lr);
    TotalSet(m.b[g := m.b[g] + lr], p, m.b[p] - lr);
  }

  // ---------- the training program ----------

  /** The decaying learning rate of epoch `ep` out of `epochs`. */
  function Rate(ep: nat, epochs: nat): real
    requires ep < epochs
  {
    0.8 * (1.0 - ep as real / epochs as real) + 0.08
  }

  lemma {:induction false} RateRange(ep: nat, epochs: nat)
    requires ep < epochs
    ensures 0.08 < Rate(epochs - 1, epochs) <= Rate(ep, epochs) <= 0.88
  {
    var h := 1.0 / epochs as real;
    RateIsLinear(ep, epochs, h);
    RateIsLinear(epochs - 1, epochs, h);
    hide Rate;
    RatesOrdered(h, ep as real, epochs as real);
  }

  lemma RatesOrdered(h: real, x: real, n: real)
    requires h > 0.0 && h * n == 1.0 && 0.0 <= x <= n - 1.0
    ensures 0.0 <= h * x <= h * (n - 1.0) == 1.0 - h < 1.0
  {
    Ordered(h, 0.0, x);
    Ordered(h, x, n - 1.0);
  }

  lemma Ordered(h: real, x: real, y: real)
    requires h >= 0.0 && x <= y
    ensures h * x <= h * y
  {}

  lemma RateIsLinear(ep: nat, epochs: nat, h: real)
    requires ep < epochs && h == 1.0 / epochs as real
    ensures h > 0.0 && h * epochs as real == 1.0 && Rate(ep, epochs) == 0.88 - 0.8 * (h * ep as real)
  {
    assert ep as real / epochs as real == h * ep as real;
  }

  /** What one mistake at this rate takes off the potential at 2.5 margins' distance. */
  function Drop(lr: real): real { 5.0 * lr - 4.0 * Sq(lr) }

  /** What one mistake in each of the first `e` epochs takes off. */
  function Drops(e: nat, epochs: nat): real
    requires e <= epochs
  {
    if e == 0 then 0.0 else Drops(e - 1, epochs) + Drop(Rate(e - 1, epochs))
  }

  /** The sum in closed form, with `h` the reciprocal of the number of epochs. */
  function Cubic(x: real, h: real): real {
    1.3024 * x + 0.816 * (h * (x * (x - 1.0))) - 2.56 / 6.0 * (h * h * (x * (x - 1.0) * (2.0 * x - 1.0)))
  }

  lemma {:induction false} DropsAre(e: nat, epochs: nat, h: real)
    requires e <= epochs && epochs > 0 && h == 1.0 / epochs as real
    ensures Drops(e, epochs) == Cubic(e as real, h)
  {
    hide *;
    if e == 0 {
      NoDrops(epochs, h);
    } else {
      DropsAre(e - 1, epochs, h);
      DropsNext(e - 1, epochs, h);
      DropStep((e - 1) as real, h);
    }
  }

  lemma DropsNext(e: nat, epochs: nat, h: real)
    requires e < epochs && h == 1.0 / epochs as real
    ensures Drops(e + 1, epochs) == Drops(e, epochs) + Drop(0.88 - 0.8 * Mul(h, e as real))
  {
    RateIsLinear(e, epochs, h);
    hide Rate, Drop;
  }

  lemma NoDrops(epochs: nat, h: real)
    ensures Drops(0, epochs) == Cubic(0.0, h)
  {}

  lemma DropStep(y: real, h: real)
    ensures Cubic(y + 1.0, h) == Cubic(y, h) + Drop(0.88 - 0.8 * Mul(h, y))
  {
    var p := h * y;
    assert p * p == h * h * (y * y);
    assert Drop(0.88 - 0.8 * p) == 1.3024 + 1.632 * p - 2.56 * (p * p);
    assert h * ((y + 1.0) * y) == h * (y * (y - 1.0)) + 2.0 * p;
    assert h * h * ((y + 1.0) * y * (2.0 * (y + 1.0) - 1.0))
        == h * h * (y * (y - 1.0) * (2.0 * y - 1.0)) + 6.0 * (h * h * (y * y));
  }

  /** Over the whole schedule a mistake in every epoch takes off at least 1.25 per epoch. */
  lemma {:induction false} DropsEnough(epochs: nat)
    requires epochs > 0
    ensures Drops(epochs, epochs) >= 1.25 * epochs as real
    ensures epochs == EPOCHS ==> Drops(epochs, epochs) >= 40.9
  {
    var n := epochs as real;
    var h := 1.0 / n;
    DropsAre(epochs, epochs, h);
    RateIsLinear(epochs - 1, epochs, h);
    hide Drops, Rate;
    ClosedForm(n, h);
  }

  lemma ClosedForm(n: real, h: real)
    requires n >= 1.0 && h > 0.0 && h * n == 1.0
    ensures h <= 1.0 && h * (n * (n - 1.0)) == n - 1.0
    ensures h * h * (n * (n - 1.0) * (2.0 * n - 1.0)) == 2.0 * n - 3.0 + h
  {
    var a, b := n - 1.0, 2.0 * n - 1.0;
    Ordered(h, 1.0, n);
    assert h * (n * a) == (h * n) * a;
    assert h * h * (n * a * b) == (h * n) * (h * (a * b));
    assert h * (a * b) == 2.0 * ((h * n) * n) - 3.0 * (h * n) + h;
  }

  /** The weights once `d` has been added to one row along the positions and taken from another. */
  ghost function Moved(w: seq<seq<real>>, g: nat, p: nat, idx: seq<nat>, d: real): seq<seq<real>>
    requires g < |w| && p < |w| && forall i :: 0 <= i < |idx| ==> idx[i] < |w[g]| && idx[i] < |w[p]|
  {
    w[g := AddAt(w[g], idx, d)][p := AddAt(w[p], idx, 0.0 - d)]
  }

  lemma NoCells(w: seq<seq<real>>, g: nat, p: nat, idx: seq<nat>, d: real)
    requires g < |w| && p < |w|
    ensures Moved(w, g, p, idx[..0], d) == w
  {
    assert w[g := w[g]][p := w[p]] == w;
  }

  lemma NextCell(w: seq<seq<real>>, g: nat, p: nat, idx: seq<nat>, k: nat, d: real)
    requires g < |w| && p < |w| && g != p && k < |idx|
    requires forall i :: 0 <= i < |idx| ==> idx[i] < |w[g]| && idx[i] < |w[p]|
    ensures var v, j := Moved(w, g, p, idx[..k], d), idx[k];
            && |v| == |w| && |v[g]| == |w[g]| && |v[p]| == |w[p]|
            && var u := v[g := v[g][j := v[g][j] + d]];
               u[p := u[p][j := u[p][j] - d]] == Moved(w, g, p, idx[..k + 1], d)
  {
    assert idx[..k + 1][..k] == idx[..k];
  }

  /** From `o` to `p` training made so many mistakes, all at one rate. */
  ghost predicate MistakesAdded(o: Outcome, p: Outcome, mistakes: nat, lr: real) {
    && p.mistakes == o.mistakes + mistakes
    && p.rates == o.rates + Mul(mistakes as real, lr) && p.squares == o.squares + Mul(mistakes as real, Sq(lr))
  }

  lemma NoneAdded(o: Outcome, lr: real)
    ensures MistakesAdded(o, o, 0, lr)
  {}

  lemma OneAdded(o: Outcome, p: Outcome, q: Outcome, mistakes: nat, wrong: nat, lr: real)
    requires MistakesAdded(o, p, mistakes, lr) && wrong <= 1
    requires if wrong == 0 then q == p else q == Outcome(q.m, p.mistakes + 1, p.rates + lr, p.squares + Sq(lr))
    ensures MistakesAdded(o, q, mistakes + wrong, lr)
  {
    assert (mistakes + 1) as real * lr == mistakes as real * lr + lr;
    assert (mistakes + 1) as real * Sq(lr) == mistakes as real * Sq(lr) + Sq(lr);
  }

  /** What an epoch with a mistake takes off the potential. */
  lemma EpochDrops(o: Outcome, p: Outcome, mistakes: nat, ep: nat, epochs: nat)
    requires ep < epochs && mistakes > 0 && MistakesAdded(o, p, mistakes, Rate(ep, epochs))
    requires 5.0 * o.rates - 4.0 * o.squares >= Drops(ep, epochs)
    ensures 5.0 * p.rates - 4.0 * p.squares >= Drops(ep + 1, epochs)
  {
    RateRange(ep, epochs);
    var lr := Rate(ep, epochs);
    hide Rate;
    MistakesDrop(mistakes as real, lr);
  }

  lemma MistakesDrop(k: real, lr: real)
    requires k >= 1.0 && 0.0 <= lr <= 0.88
    ensures 5.0 * Mul(k, lr) - 4.0 * Mul(k, Sq(lr)) >= Drop(lr)
  {
    var d := Drop(lr);
    var b := 5.0 - 4.0 * lr;
    assert lr * b >= 0.0 by { Ordered(lr, 0.0, b); }
    assert lr * b == d;
    assert 5.0 * (k * lr) - 4.0 * (k * Sq(lr)) == k * d;
    Ordered(d, 1.0, k);
  }

  /** Enough mistakes at these rates contradict a separator of this margin. */
  lemma {:induction false} TooManyMistakes(u: Model, h: seq<Step>, g: real, drops: real, classes: nat, dim: nat)
    requires 0 < classes && Shaped(u, classes, dim) && FitAll(h, classes, dim) && g > 0.0
    requires forall i :: 0 <= i < |h| ==> h[i].lr >= 0.0 && Separates(u, h[i].x, g, classes, dim)
    requires var o := Train(Zero(classes, dim), h, classes, dim); 5.0 * o.rates - 4.0 * o.squares >= drops
    ensures drops * (g * g) <= 6.25 * NormSq(u)
  {
    hide UnitScale, Separates, Mul, Sq, NormSq, Zero, Minus, Train;
    var o, n, t := Train(Zero(classes, dim), h, classes, dim), NormSq(u), 2.5 / g;
    DistanceBound(u, h, g, t, classes, dim);
    PotentialDrops(t, g, n, o.rates, o.squares, drops);
  }

  lemma PotentialDrops(t: real, g: real, n: real, rates: real, squares: real, drops: real)
    requires g > 0.0 && t == 2.5 / g && n >= 0.0
    requires Potential(t, g, n, rates, squares) >= 0.0 && 5.0 * rates - 4.0 * squares >= drops
    ensures drops * (g * g) <= 6.25 * n
  {
    var tg, ttn, q := t * g, t * t * n, g * g;
    assert tg == 2.5 by { Reciprocal(2.5, g); }
    assert 2.0 * t * g * rates == 2.0 * (tg * rates);
    assert tg * rates == 2.5 * rates;
    assert Potential(t, g, n, rates, squares) == ttn - 2.0 * t * g * rates + 4.0 * squares;
    assert ttn * q == (tg * tg) * n;
    Ordered(q, drops, ttn);
  }

  ghost predicate Covers(order: seq<nat>, n: nat) {
    (forall i :: 0 <= i < |order| ==> order[i] < n) && forall i :: 0 <= i < n ==> i in order
  }

  ghost predicate AllCover(orders: seq<seq<nat>>, n: nat) {
    forall e :: 0 <= e < |orders| ==> Covers(orders[e], n)
  }

  lemma CoversNext(orders: seq<seq<nat>>, n: nat, e: nat)
    requires AllCover(orders, n) && e < |orders|
    ensures Covers(orders[e], n)
  {}

  ghost predicate AllFit(xs: seq<Example>, classes: nat, dim: nat) {
    forall i :: 0 <= i < |xs| ==> Fits(xs[i], classes, dim)
  }

  ghost predicate SeparatesAll(u: Model, xs: seq<Example>, g: real, classes: nat, dim: nat) {
    && Shaped(u, classes, dim) && g > 0.0
    && forall i :: 0 <= i < |xs| ==> Fits(xs[i], classes, dim) && Separates(u, xs[i], g, classes, dim)
  }

  ghost predicate Right(m: Model, x: Example, classes: nat, dim: nat) {
    0 < classes && Shaped(m, classes, dim) && Fits(x, classes, dim) && Predict(m, x) == x.gold
  }

  ghost predicate ClassifiesAll(m: Model, xs: seq<Example>, classes: nat, dim: nat) {
    forall i :: 0 <= i < |xs| ==> Right(m, xs[i], classes, dim)
  }

  /** None of these models classifies every example. */
  ghost predicate NoneLearned(ms: seq<Model>, xs: seq<Example>, classes: nat, dim: nat) {
    forall k :: 0 <= k < |ms| ==> !ClassifiesAll(ms[k], xs, classes, dim)
  }

  /** The history is made of the given examples at rates the schedule can produce. */
  ghost predicate Scheduled(h: seq<Step>, xs: seq<Example>, epochs: nat)
    requires epochs > 0
  {
    forall i :: 0 <= i < |h| ==> h[i].x in xs && Rate(epochs - 1, epochs) <= h[i].lr <= 0.88
  }

  /** Every separator of the examples bounds the mistakes of the schedule. */
  ghost predicate MistakesBounded(xs: seq<Example>, mistakes: nat, epochs: nat, classes: nat, dim: nat)
    requires epochs > 0
  {
    forall u, g :: SeparatesAll(u, xs, g, classes, dim)
        ==> WithinBound(g, Rate(epochs - 1, epochs), 0.88, mistakes, NormSq(u))
  }

  class Head {
    const classes: nat
    const dim: nat
    var w: seq<seq<real>>
    var b: seq<real>

    function Weights(): Model
      reads this
    {
      Model(w, b)
    }

    ghost predicate Valid()
      reads this
    {
      0 < classes && Shaped(Weights(), classes, dim)
    }

    lemma ValidMeans()
      requires Valid()
      ensures 0 < classes && Shaped(Weights(), classes, dim)
    {}

    constructor (classes: nat, dim: nat)
      requires 0 < classes
      ensures Valid() && this.classes == classes && this.dim == dim
      ensures Weights() == Zero(classes, dim)
    {
      this.classes, this.dim := classes, dim;
      w, b := seq(classes, c => seq(dim, j => 0.0)), seq(classes, c => 0.0);
    }

    method Update(x: Example, lr: real) returns (mistake: nat)
      requires Valid() && Fits(x, classes, dim)
      modifies this
      ensures Valid()
      ensures Weights() == Learn(old(Weights()), x, lr)
      ensures mistake == if Predict(old(Weights()), x) == x.gold then 0 else 1
    {
      var p := Predict(Weights(), x);
      hide UnitScale, Predict, Logits, Gather, AddAt;
      if p == x.gold { return 0; }
      var g, scale := x.gold, Mul(lr, x.s);
      hide Mul;
      ghost var m := Weights();
      NoCells(m.w, g, p, x.idx, scale);
      for k := 0 to |x.idx|
        invariant Valid() && b == m.b && w == Moved(m.w, g, p, x.idx[..k], scale)
      {
        var j := x.idx[k];
        NextCell(m.w, g, p, x.idx, k, scale);
        w := w[g := w[g][j := w[g][j] + scale]];
        w := w[p := w[p][j := w[p][j] - scale]];
      }
      assert x.idx[..|x.idx|] == x.idx;
      b := b[g := b[g] + lr];
      b := b[p := b[p] - lr];
      return 1;
    }

    /** One pass over the examples in the drawn order. */
    method Epoch(xs: seq<Example>, order: seq<nat>, ep: nat, epochs: nat, ghost h0: seq<Step>)
      returns (mistakes: nat, ghost h: seq<Step>)
      requires Valid() && ep < epochs && Covers(order, |xs|)
      requires AllFit(xs, classes, dim)
      requires FitAll(h0, classes, dim) && Scheduled(h0, xs, epochs)
      requires Weights() == Train(Zero(classes, dim), h0, classes, dim).m
      modifies this
      ensures Valid() && FitAll(h, classes, dim) && Scheduled(h, xs, epochs)
      ensures Weights() == Train(Zero(classes, dim), h, classes, dim).m
      ensures MistakesAdded(Train(Zero(classes, dim), h0, classes, dim), Train(Zero(classes, dim), h, classes, dim),
          mistakes, Rate(ep, epochs))
      ensures mistakes == 0 <==> ClassifiesAll(old(Weights()), xs, classes, dim)
      ensures mistakes == 0 ==> Weights() == old(Weights())
    {
      hide UnitScale, Zero, Shift, Mul, Gather, Logit, Predict, Train;
      var lr := Rate(ep, epochs);
      RateRange(ep, epochs);
      hide Rate, Sq, MistakesAdded;
      mistakes, h := 0, h0;
      NoneAdded(Train(Zero(classes, dim), h0, classes, dim), lr);
      for k := 0 to |order|
        invariant Valid() && FitAll(h, classes, dim) && Scheduled(h, xs, epochs)
        invariant Weights() == Train(Zero(classes, dim), h, classes, dim).m
        invariant MistakesAdded(Train(Zero(classes, dim), h0, classes, dim),
            Train(Zero(classes, dim), h, classes, dim), mistakes, lr)
        invariant mistakes == 0 ==> Weights() == old(Weights())
        invariant mistakes == 0 ==> forall i :: 0 <= i < k ==> Right(Weights(), xs[order[i]], classes, dim)
        invariant ClassifiesAll(old(Weights()), xs, classes, dim) ==> mistakes == 0
      {
        ghost var h' := h + [Step(xs[order[k]], lr)];
        TrainSnoc(Zero(classes, dim), h, Step(xs[order[k]], lr), classes, dim);
        var wrong := Update(xs[order[k]], lr);
        OneAdded(Train(Zero(classes, dim), h0, classes, dim), Train(Zero(classes, dim), h, classes, dim),
                 Train(Zero(classes, dim), h', classes, dim), mistakes, wrong, lr);
        assert wrong == 0 ==> Right(Weights(), xs[order[k]], classes, dim);
        assert ClassifiesAll(old(Weights()), xs, classes, dim) ==> Right(old(Weights()), xs[order[k]], classes, dim);
        h, mistakes := h', mistakes + wrong;
      }
      if mistakes == 0 {
        forall i | 0 <= i < |xs| ensures Right(Weights(), xs[i], classes, dim) {
          assert i in order;
          var k :| 0 <= k < |order| && order[k] == i;
        }
      }
    }

    /** The epoch loop of `main`, for any number of epochs: it stops at the first epoch that starts from weights
        which classify every example, and runs all epochs if none does. Every separable set of examples is learned
        by enough of them: a separator of margin `g` needs no more than five times its squared norm over `g*g`. */
    method TrainHead(xs: seq<Example>, orders: seq<seq<nat>>, epochs: nat)
      returns (converged: bool, mistakes: nat, ghost h: seq<Step>, ghost starts: seq<Model>)
      requires Valid() && Weights() == Zero(classes, dim) && |orders| == epochs > 0
      requires AllFit(xs, classes, dim)
      requires AllCover(orders, |xs|)
      modifies this
      ensures Valid() && Finished(Weights(), h, xs, mistakes, starts, converged, epochs, classes, dim)
    {
      hide *;
      ValidMeans();
      converged, mistakes, h, starts := false, 0, [], [];
      NothingTrained(xs, epochs, classes, dim);
      var ep := 0;
      while ep < epochs
        invariant 0 <= ep <= epochs && Valid() && !converged
        invariant Underway(Weights(), h, xs, mistakes, starts, ep, epochs, classes, dim)
      {
        ghost var m, h0 := Weights(), h;
        UnderwayMeans(m, h0, xs, mistakes, starts, ep, epochs, classes, dim);
        CoversNext(orders, |xs|, ep);
        var wrong;
        wrong, h := Epoch(xs, orders[ep], ep, epochs, h);
        EpochDone(m, h0, Weights(), h, xs, mistakes, wrong, starts, ep, epochs, classes, dim);
        starts, mistakes := starts + [m], mistakes + wrong;
        if wrong == 0 { converged := true; break; }
        ep := ep + 1;
      }
      if !converged { NotConverged(Weights(), h, xs, mistakes, starts, epochs, classes, dim); }
    }
  }

  /** What training promises. It stopped at the first epoch that started from weights classifying every example, or
      ran all epochs because none did; every separator bounds its mistakes, and a separator within reach made it
      stop. */
  ghost predicate Finished(m: Model, h: seq<Step>, xs: seq<Example>, mistakes: nat, starts: seq<Model>, converged: bool,
                           epochs: nat, classes: nat, dim: nat)
    requires 0 < classes && 0 < epochs
  {
    && FitAll(h, classes, dim) && Scheduled(h, xs, epochs)
    && m == Train(Zero(classes, dim), h, classes, dim).m
         && mistakes == Train(Zero(classes, dim), h, classes, dim).mistakes
    && 1 <= |starts| <= epochs && starts[0] == Zero(classes, dim)
    && (converged ==> starts[|starts| - 1] == m && ClassifiesAll(m, xs, classes, dim))
    && (!converged ==> |starts| == epochs && mistakes >= epochs)
    && NoneLearned(if converged then starts[..|starts| - 1] else starts, xs, classes, dim)
    && MistakesBounded(xs, mistakes, epochs, classes, dim)
    && (Learnable(xs, epochs, classes, dim) ==> converged)
  }

  /** Training after `ep` epochs, each of which made a mistake. */
  ghost predicate Underway(m: Model, h: seq<Step>, xs: seq<Example>, mistakes: nat, starts: seq<Model>, ep: nat,
      epochs: nat,
                           classes: nat, dim: nat)
    requires 0 < classes && ep <= epochs && 0 < epochs
  {
    && FitAll(h, classes, dim) && Scheduled(h, xs, epochs)
    && |starts| == ep && NoneLearned(starts, xs, classes, dim)
    && (if ep == 0 then m == Zero(classes, dim) else starts[0] == Zero(classes, dim))
    && var o := Train(Zero(classes, dim), h, classes, dim);
       o.m == m && o.mistakes == mistakes && Dropped(o, ep, epochs) && mistakes >= ep
  }

  lemma UnderwayMeans(m: Model, h: seq<Step>, xs: seq<Example>, mistakes: nat, starts: seq<Model>, ep: nat, epochs: nat,
                      classes: nat, dim: nat)
    requires 0 < classes && ep <= epochs && 0 < epochs && Underway(m, h, xs, mistakes, starts, ep, epochs, classes, dim)
    ensures FitAll(h, classes, dim) && Scheduled(h, xs, epochs) && Train(Zero(classes, dim), h, classes, dim).m == m
  {}

  /** After one more epoch training goes on, or it has finished. */
  lemma EpochDone(m: Model, h: seq<Step>, n: Model, k: seq<Step>, xs: seq<Example>, mistakes: nat, wrong: nat,
                  starts: seq<Model>, ep: nat, epochs: nat, classes: nat, dim: nat)
    requires 0 < classes && ep < epochs && Underway(m, h, xs, mistakes, starts, ep, epochs, classes, dim)
    requires FitAll(h, classes, dim) && FitAll(k, classes, dim) && Scheduled(k, xs, epochs)
    requires Train(Zero(classes, dim), k, classes, dim).m == n
    requires MistakesAdded(Train(Zero(classes, dim), h, classes, dim), Train(Zero(classes, dim), k, classes, dim),
        wrong, Rate(ep, epochs))
    requires (wrong == 0 <==> ClassifiesAll(m, xs, classes, dim)) && (wrong == 0 ==> n == m)
    ensures wrong > 0 ==> Underway(n, k, xs, mistakes + wrong, starts + [m], ep + 1, epochs, classes, dim)
    ensures wrong == 0 ==> Finished(n, k, xs, mistakes, starts + [m], true, epochs, classes, dim)
  {
    hide FitAll, Scheduled, Train, Zero, MistakesAdded, Rate, Dropped, ClassifiesAll, MistakesBounded, Learnable;
    EpochAccount(Train(Zero(classes, dim), h, classes, dim), Train(Zero(classes, dim), k, classes, dim), wrong, ep,
        epochs);
    AllBounds(xs, k, epochs, classes, dim);
    assert (starts + [m])[..|starts|] == starts;
  }

  lemma NotConverged(m: Model, h: seq<Step>, xs: seq<Example>, mistakes: nat, starts: seq<Model>, epochs: nat,
                     classes: nat, dim: nat)
    requires 0 < classes && epochs > 0 && Underway(m, h, xs, mistakes, starts, epochs, epochs, classes, dim)
    ensures Finished(m, h, xs, mistakes, starts, false, epochs, classes, dim)
  {
    hide FitAll, Scheduled, Train, Zero, NoneLearned, Dropped, ClassifiesAll, MistakesBounded, Learnable;
    AllBounds(xs, h, epochs, classes, dim);
  }

  /** The epochs reach a squared norm of up to a fifth of a squared margin each, the program's own schedule up to
      6.5. */
  predicate WithinReach(g: real, epochs: nat, normSq: real) {
    normSq < 0.2 * epochs as real * (g * g) || (epochs == EPOCHS && normSq < 6.5 * (g * g))
  }

  /** Some separator of the examples is within reach of the schedule. */
  ghost predicate Learnable(xs: seq<Example>, epochs: nat, classes: nat, dim: nat) {
    exists u, g :: SeparatesAll(u, xs, g, classes, dim) && WithinReach(g, epochs, NormSq(u))
  }

  lemma NotLearnable(xs: seq<Example>, epochs: nat, classes: nat, dim: nat)
    requires forall u, g :: SeparatesAll(u, xs, g, classes, dim) ==> !WithinReach(g, epochs, NormSq(u))
    ensures !Learnable(xs, epochs, classes, dim)
  {
    hide SeparatesAll, WithinReach, NormSq;
  }

  /** Every epoch so far has taken its share off the potential. */
  ghost predicate Dropped(o: Outcome, ep: nat, epochs: nat)
    requires ep <= epochs
  {
    5.0 * o.rates - 4.0 * o.squares >= Drops(ep, epochs)
  }

  lemma DroppedMeans(o: Outcome, ep: nat, epochs: nat)
    requires ep <= epochs && Dropped(o, ep, epochs)
    ensures 5.0 * o.rates - 4.0 * o.squares >= Drops(ep, epochs)
  {}

  lemma NothingTrained(xs: seq<Example>, epochs: nat, classes: nat, dim: nat)
    requires 0 < classes && epochs > 0
    ensures Underway(Zero(classes, dim), [], xs, 0, [], 0, epochs, classes, dim)
  {}

  lemma EpochAccount(o: Outcome, p: Outcome, mistakes: nat, ep: nat, epochs: nat)
    requires ep < epochs && MistakesAdded(o, p, mistakes, Rate(ep, epochs)) && Dropped(o, ep, epochs)
    ensures p.mistakes == o.mistakes + mistakes && (mistakes > 0 ==> Dropped(p, ep + 1, epochs))
  {
    hide Drops, Rate;
    if mistakes > 0 { EpochDrops(o, p, mistakes, ep, epochs); }
  }

  lemma ScheduledSeparates(u: Model, xs: seq<Example>, h: seq<Step>, g: real, epochs: nat, classes: nat, dim: nat)
    requires 0 < classes && epochs > 0 && FitAll(h, classes, dim) && Scheduled(h, xs, epochs)
    requires SeparatesAll(u, xs, g, classes, dim)
    ensures Shaped(u, classes, dim) && g > 0.0
    ensures forall i :: 0 <= i < |h|
             ==> Rate(epochs - 1, epochs) <= h[i].lr <= 0.88 && Separates(u, h[i].x, g, classes, dim)
  {
    hide Rate, Separates, UnitScale;
    forall i | 0 <= i < |h|
      ensures Rate(epochs - 1, epochs) <= h[i].lr <= 0.88 && Separates(u, h[i].x, g, classes, dim)
    {
      var k :| 0 <= k < |xs| && xs[k] == h[i].x;
    }
  }

  /** What a separator says about a history of the schedule. */
  lemma {:induction false} HistoryBounds(u: Model, xs: seq<Example>, h: seq<Step>, g: real, epochs: nat, classes: nat,
                                         dim: nat)
    requires 0 < classes && epochs > 0 && FitAll(h, classes, dim) && Scheduled(h, xs, epochs)
    requires SeparatesAll(u, xs, g, classes, dim)
    ensures WithinBound(g, Rate(epochs - 1, epochs), 0.88, Train(Zero(classes, dim), h, classes, dim).mistakes,
        NormSq(u))
    ensures Dropped(Train(Zero(classes, dim), h, classes, dim), epochs, epochs) ==> !WithinReach(g, epochs, NormSq(u))
  {
    hide *;
    RateRange(epochs - 1, epochs);
    ScheduledSeparates(u, xs, h, g, epochs, classes, dim);
    MistakeBound(u, h, g, Rate(epochs - 1, epochs), 0.88, classes, dim);
    if Dropped(Train(Zero(classes, dim), h, classes, dim), epochs, epochs) {
      DroppedMeans(Train(Zero(classes, dim), h, classes, dim), epochs, epochs);
      TooManyMistakes(u, h, g, Drops(epochs, epochs), classes, dim);
      OutOfReach(g, epochs, NormSq(u));
    }
  }

  lemma MistakesBoundedMeans(xs: seq<Example>, mistakes: nat, epochs: nat, classes: nat, dim: nat)
    requires epochs > 0
    requires forall u, g :: SeparatesAll(u, xs, g, classes, dim)
              ==> WithinBound(g, Rate(epochs - 1, epochs), 0.88, mistakes, NormSq(u))
    ensures MistakesBounded(xs, mistakes, epochs, classes, dim)
  {
    hide SeparatesAll, WithinBound, Rate, NormSq;
  }

  lemma AllBounds(xs: seq<Example>, h: seq<Step>, epochs: nat, classes: nat, dim: nat)
    requires 0 < classes && epochs > 0 && FitAll(h, classes, dim) && Scheduled(h, xs, epochs)
    ensures MistakesBounded(xs, Train(Zero(classes, dim), h, classes, dim).mistakes, epochs, classes, dim)
    ensures Dropped(Train(Zero(classes, dim), h, classes, dim), epochs, epochs)
        ==> !Learnable(xs, epochs, classes, dim)
  {
    hide *;
    forall u, g | SeparatesAll(u, xs, g, classes, dim)
      ensures WithinBound(g, Rate(epochs - 1, epochs), 0.88, Train(Zero(classes, dim), h, classes, dim).mistakes,
          NormSq(u))
      ensures Dropped(Train(Zero(classes, dim), h, classes, dim), epochs, epochs) ==> !WithinReach(g, epochs, NormSq(u))
    {
      HistoryBounds(u, xs, h, g, epochs, classes, dim);
    }
    MistakesBoundedMeans(xs, Train(Zero(classes, dim), h, classes, dim).mistakes, epochs, classes, dim);
    if Dropped(Train(Zero(classes, dim), h, classes, dim), epochs, epochs) { NotLearnable(xs, epochs, classes, dim); }
  }

  lemma OutOfReach(g: real, epochs: nat, n: real)
    requires epochs > 0 && Drops(epochs, epochs) * (g * g) <= 6.25 * n
    ensures !WithinReach(g, epochs, n)
  {
    DropsEnough(epochs);
    hide Drops;
    OutOf(Drops(epochs, epochs), g * g, epochs as real, n);
    if epochs == EPOCHS { Ordered(g * g, 40.9, Drops(epochs, epochs)); }
  }

  lemma OutOf(d: real, q: real, e: real, n: real)
    requires q >= 0.0 && d >= 1.25 * e && d * q <= 6.25 * n
    ensures 0.2 * e * q <= n
  {
    Ordered(q, 1.25 * e, d);
  }

  /** The reach is not empty: two examples of two labels with a feature each are learned within the program's epochs. */
  lemma {:induction false} ReachIsMet()
    ensures var xs, u := [Example([0], 0, 1.0), Example([1], 1, 1.0)], Model([[0.5, -0.5], [-0.5, 0.5]], [0.0, 0.0]);
            SeparatesAll(u, xs, 1.0, 2, 2) && WithinReach(1.0, EPOCHS, NormSq(u)) && Learnable(xs, EPOCHS, 2, 2)
  {
    var w0, w1, b := [0.5, -0.5], [-0.5, 0.5], [0.0, 0.0];
    var u := Model([w0, w1], b);
    var x0, x1 := Example([0], 0, 1.0), Example([1], 1, 1.0);
    PairNorm(w0);
    PairNorm(w1);
    PairNorm(b);
    PairRows(w0, w1);
    OneFeature(u, 0, x0, 0);
    OneFeature(u, 1, x0, 0);
    OneFeature(u, 0, x1, 1);
    OneFeature(u, 1, x1, 1);
    hide Logit, SumSq, SumRows;
    assert SeparatesAll(u, [x0, x1], 1.0, 2, 2) && WithinReach(1.0, EPOCHS, NormSq(u));
  }

  lemma PairNorm(v: seq<real>)
    requires |v| == 2
    ensures SumSq(v) == v[0] * v[0] + v[1] * v[1]
  {
    assert v[..1][..0] == [] && v[..1][0] == v[0];
    assert SumSq(v[..1][..0]) == 0.0;
    assert SumSq(v[..1]) == Sq(v[0]);
  }

  lemma PairRows(a: seq<real>, b: seq<real>)
    ensures SumRows([a, b]) == SumSq(a) + SumSq(b)
  {
    assert [a, b][..1] == [a] && [a][..0] == [];
    assert SumRows([a]) == SumSq(a);
  }

  lemma OneFeature(m: Model, c: nat, x: Example, j: nat)
    requires c < |m.w| == |m.b| && x.idx == [j] && j < |m.w[c]| && x.s == 1.0
    ensures Logit(m, c, x) == m.b[c] + m.w[c][j]
  {
    assert x.idx[..0] == [];
    assert Gather(m.w[c], x.idx[..0]) == 0.0;
    assert Gather(m.w[c], x.idx) == m.w[c][j];
  }
}
