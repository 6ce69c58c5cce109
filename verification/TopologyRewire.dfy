/** Degree-preserving rewiring of a directed edge list by destination swaps. */
module TopologyRewire {
  import opened Sorting

  type Edge = (int, int)

  /** Destinations and the set the loop keeps beside them. */
  datatype Wiring = Wiring(post: seq<int>, edges: set<Edge>)

  function Pairs(pre: seq<int>, post: seq<int>): (r: seq<Edge>)
    requires |pre| == |post|
    ensures |r| == |pre| && forall k :: 0 <= k < |pre| ==> r[k] == (pre[k], post[k])
  {
    seq(|pre|, k requires 0 <= k < |pre| => (pre[k], post[k]))
  }

  function EdgeSet(pre: seq<int>, post: seq<int>): set<Edge>
    requires |pre| == |post|
  {
    set k | 0 <= k < |pre| :: (pre[k], post[k])
  }

  /** The swap of positions `i` and `j` would create neither a self-loop nor an edge already listed. */
  predicate Swappable(pre: seq<int>, w: Wiring, i: nat, j: nat)
    requires |pre| == |w.post| && i < |pre| && j < |pre|
  {
    && i != j && pre[i] != w.post[j] && pre[j] != w.post[i]
    && (pre[i], w.post[j]) !in w.edges && (pre[j], w.post[i]) !in w.edges
  }

  function Swap(pre: seq<int>, w: Wiring, i: nat, j: nat): (r: Wiring)
    requires |pre| == |w.post| && i < |pre| && j < |pre|
    ensures |r.post| == |pre|
  {
    if !Swappable(pre, w, i, j) then w
    else
      Wiring(w.post[i := w.post[j]][j := w.post[i]],
             w.edges - {(pre[i], w.post[i])} - {(pre[j], w.post[j])} + {(pre[i], w.post[j])} + {(pre[j], w.post[i])})
  }

  ghost predicate InRange(draws: seq<(nat, nat)>, m: nat) {
    forall k :: 0 <= k < |draws| ==> draws[k].0 < m && draws[k].1 < m
  }

  ghost function Rewire(pre: seq<int>, w: Wiring, draws: seq<(nat, nat)>): (r: Wiring)
    requires |pre| == |w.post| && InRange(draws, |pre|)
    ensures |r.post| == |pre|
  {
    if draws == [] then w
    else
      var n := |draws| - 1;
      Swap(pre, Rewire(pre, w, draws[..n]), draws[n].0, draws[n].1)
  }

  /** The swap loop, on the cloned destination array; `draws` are the random index pairs, one per attempt. */
  method DegreePreservingSwaps(pre: seq<int>, post: array<int>, draws: seq<(nat, nat)>) returns (edges: set<Edge>)
    requires |pre| == post.Length && InRange(draws, |pre|)
    modifies post
    ensures Wiring(post[..], edges) == Rewire(pre, Wiring(old(post[..]), EdgeSet(pre, old(post[..]))), draws)
  {
    ghost var w0 := Wiring(post[..], EdgeSet(pre, post[..]));
    edges := set k | 0 <= k < |pre| :: (pre[k], post[k]);
    assert edges == EdgeSet(pre, post[..]);
    for n := 0 to |draws|
      invariant Wiring(post[..], edges) == Rewire(pre, w0, draws[..n])
    {
      assert draws[..n + 1][..n] == draws[..n];
      ghost var w := Wiring(post[..], edges);
      var i, j := draws[n].0, draws[n].1;
      if i == j { continue; }
      var a, b, c, d := pre[i], post[i], pre[j], post[j];
      if a == d || c == b || (a, d) in edges || (c, b) in edges { continue; }
      edges := edges - {(a, b)};
      edges := edges - {(c, d)};
      edges := edges + {(a, d)};
      edges := edges + {(c, b)};
      post[i], post[j] := d, b;
      assert post[..] == w.post[i := d][j := b];
      assert edges == w.edges - {(a, b)} - {(c, d)} + {(a, d)} + {(c, b)};
    }
    assert draws[..|draws|] == draws;
  }

  // ---------- degrees ----------

  /** `bincount(pre, n), bincount(post, n)`: out-degrees and in-degrees of the nodes below `n`. */
  function DegreeSignature(pre: seq<int>, post: seq<int>, n: nat): (seq<nat>, seq<nat>) {
    (seq(n, v => multiset(pre)[v]), seq(n, v => multiset(post)[v]))
  }

  lemma {:induction false} RewirePermutes(pre: seq<int>, w: Wiring, draws: seq<(nat, nat)>)
    requires |pre| == |w.post| && InRange(draws, |pre|)
    ensures multiset(Rewire(pre, w, draws).post) == multiset(w.post)
  {
    if draws != [] {
      var n := |draws| - 1;
      RewirePermutes(pre, w, draws[..n]);
    }
  }

  /** Every in-degree and every out-degree is unchanged, from any edge list, by any attempts and draws. */
  lemma DegreesPreserved(pre: seq<int>, w: Wiring, draws: seq<(nat, nat)>, n: nat)
    requires |pre| == |w.post| && InRange(draws, |pre|)
    ensures DegreeSignature(pre, Rewire(pre, w, draws).post, n) == DegreeSignature(pre, w.post, n)
  {
    RewirePermutes(pre, w, draws);
  }

  /** An edge that ends as a self-loop was never touched: no self-loop is created. */
  lemma {:induction false} NoNewSelfLoop(pre: seq<int>, w: Wiring, draws: seq<(nat, nat)>, k: nat)
    requires |pre| == |w.post| && InRange(draws, |pre|) && k < |pre|
    ensures Rewire(pre, w, draws).post[k] == pre[k] ==> w.post[k] == pre[k]
  {
    if draws != [] { NoNewSelfLoop(pre, w, draws[..|draws| - 1], k); }
  }

  // ---------- distinctness and the auxiliary set ----------

  /** The edge list has no duplicate and the set beside it is exactly its content. */
  ghost predicate Exact(pre: seq<int>, w: Wiring) {
    |pre| == |w.post| && Distinct(Pairs(pre, w.post)) && w.edges == EdgeSet(pre, w.post)
  }

  /** From distinct pairs, after any attempts and draws, the pairs are distinct and the set is the list's content. */
  lemma {:induction false} RewireKeepsExact(pre: seq<int>, post: seq<int>, draws: seq<(nat, nat)>)
    requires |pre| == |post| && InRange(draws, |pre|) && Distinct(Pairs(pre, post))
    ensures Exact(pre, Rewire(pre, Wiring(post, EdgeSet(pre, post)), draws))
  {
    if draws != [] {
      var n := |draws| - 1;
      RewireKeepsExact(pre, post, draws[..n]);
    }
  }

  // ---------- what one draw does ----------

  /** Neither exchanged pair would be a self-loop or is in the list. */
  ghost predicate Exchangeable(pre: seq<int>, post: seq<int>, i: nat, j: nat)
    requires |pre| == |post| && i < |pre| && j < |pre|
  {
    && pre[i] != post[j] && pre[j] != post[i]
    && (pre[i], post[j]) !in Pairs(pre, post) && (pre[j], post[i]) !in Pairs(pre, post)
  }

  lemma SetHoldsPairs(pre: seq<int>, post: seq<int>, e: Edge)
    requires |pre| == |post|
    ensures e in EdgeSet(pre, post) <==> e in Pairs(pre, post)
  {
    var p := Pairs(pre, post);
    if e in p {
      var k :| 0 <= k < |p| && p[k] == e;
    }
    if e in EdgeSet(pre, post) {
      var k :| 0 <= k < |pre| && (pre[k], post[k]) == e;
      assert p[k] == e;
    }
  }

  /** One draw, read off the lists alone: with the set exact, two different positions exchange their destinations
      exactly when neither exchanged pair is a self-loop or already listed; otherwise, and everywhere else, nothing
      changes. */
  lemma SwapsExactly(pre: seq<int>, w: Wiring, i: nat, j: nat)
    requires |pre| == |w.post| && w.edges == EdgeSet(pre, w.post) && i < |pre| && j < |pre|
    ensures var r := Swap(pre, w, i, j);
            && (i != j && Exchangeable(pre, w.post, i, j) ==> r.post[i] == w.post[j] && r.post[j] == w.post[i])
            && (i == j || !Exchangeable(pre, w.post, i, j) ==> r == w)
            && (forall k :: 0 <= k < |pre| && k != i && k != j ==> r.post[k] == w.post[k])
  {
    SetHoldsPairs(pre, w.post, (pre[i], w.post[j]));
    SetHoldsPairs(pre, w.post, (pre[j], w.post[i]));
    hide Pairs, EdgeSet;
  }

  /** The two positions of a draw may be drawn in either order. */
  lemma SwapSymmetric(pre: seq<int>, w: Wiring, i: nat, j: nat)
    requires |pre| == |w.post| && i < |pre| && j < |pre|
    ensures Swap(pre, w, i, j) == Swap(pre, w, j, i)
  {
    assert w.post[i := w.post[j]][j := w.post[i]] == w.post[j := w.post[i]][i := w.post[j]];
    assert w.edges - {(pre[i], w.post[i])} - {(pre[j], w.post[j])} + {(pre[i], w.post[j])} + {(pre[j], w.post[i])}
        == w.edges - {(pre[j], w.post[j])} - {(pre[i], w.post[i])} + {(pre[j], w.post[i])} + {(pre[i], w.post[j])};
  }

  /** The last draw of any run over a list without duplicates does exactly that to what the run so far has left. */
  lemma LastDraw(pre: seq<int>, post: seq<int>, draws: seq<(nat, nat)>)
    requires |pre| == |post| && InRange(draws, |pre|) && Distinct(Pairs(pre, post)) && draws != []
    ensures var n, w := |draws| - 1, Wiring(post, EdgeSet(pre, post));
            var (i, j), was, now := draws[n], Rewire(pre, w, draws[..n]).post, Rewire(pre, w, draws).post;
            && (now != was <==> i != j && Exchangeable(pre, was, i, j))
            && (i != j && Exchangeable(pre, was, i, j) ==> now == was[i := was[j]][j := was[i]])
  {
    var n, w := |draws| - 1, Wiring(post, EdgeSet(pre, post));
    RewireKeepsExact(pre, post, draws[..n]);
    var v := Rewire(pre, w, draws[..n]);
    SwapsExactly(pre, v, draws[n].0, draws[n].1);
    assert Pairs(pre, v.post)[draws[n].0] == (pre[draws[n].0], v.post[draws[n].0]);
    assert Exchangeable(pre, v.post, draws[n].0, draws[n].1) ==> v.post[draws[n].0] != v.post[draws[n].1];
    hide Swap, Exchangeable, Pairs, EdgeSet;
  }

  // ---------- reversibility ----------

  ghost predicate LoopFree(pre: seq<int>, post: seq<int>)
    requires |pre| == |post|
  {
    forall k :: 0 <= k < |pre| ==> pre[k] != post[k]
  }

  /** The same draw undoes an accepted swap exactly when neither of the two edges was a self-loop. */
  lemma SwapUndone(pre: seq<int>, w: Wiring, i: nat, j: nat)
    requires Exact(pre, w) && i < |pre| && j < |pre| && Swappable(pre, w, i, j)
    ensures Swappable(pre, Swap(pre, w, i, j), i, j) <==> pre[i] != w.post[i] && pre[j] != w.post[j]
    ensures Swappable(pre, Swap(pre, w, i, j), i, j) ==> Swap(pre, Swap(pre, w, i, j), i, j) == w
  {
    var v := Swap(pre, w, i, j);
    var p := Pairs(pre, w.post);
    assert p[i] in w.edges && p[j] in w.edges;
    assert pre[i] != pre[j] && w.post[i] != w.post[j];
    assert p[i] !in v.edges && p[j] !in v.edges;
    if Swappable(pre, v, i, j) {
      var u := Swap(pre, v, i, j);
      assert u.post == w.post;
    }
  }

  /** Drawing the same pair twice is drawing nothing, on a list without self-loops. */
  lemma SwapTwice(pre: seq<int>, w: Wiring, i: nat, j: nat)
    requires Exact(pre, w) && LoopFree(pre, w.post) && i < |pre| && j < |pre|
    ensures Swap(pre, Swap(pre, w, i, j), i, j) == w
  {
    if Swappable(pre, w, i, j) { SwapUndone(pre, w, i, j); }
  }

  lemma {:induction false} RewireCons(pre: seq<int>, w: Wiring, d: (nat, nat), rest: seq<(nat, nat)>)
    requires |pre| == |w.post| && InRange([d] + rest, |pre|) && InRange(rest, |pre|) && d.0 < |pre| && d.1 < |pre|
    ensures Rewire(pre, w, [d] + rest) == Rewire(pre, Swap(pre, w, d.0, d.1), rest)
  {
    hide Swap;
    if rest == [] {
      assert ([d] + rest)[..0] == [];
      assert [d] + rest == [d];
    } else {
      var n := |rest| - 1;
      assert ([d] + rest)[..n + 1] == [d] + rest[..n];
      RewireCons(pre, w, d, rest[..n]);
    }
  }

  lemma StaysLoopFree(pre: seq<int>, w: Wiring, draws: seq<(nat, nat)>)
    requires |pre| == |w.post| && InRange(draws, |pre|) && LoopFree(pre, w.post)
    ensures LoopFree(pre, Rewire(pre, w, draws).post)
  {
    forall k | 0 <= k < |pre| ensures pre[k] != Rewire(pre, w, draws).post[k] { NoNewSelfLoop(pre, w, draws, k); }
  }

  /** The chain of swaps is reversible: the draws replayed backwards restore any list without duplicates and
      self-loops. */
  lemma {:induction false} RewireReversible(pre: seq<int>, post: seq<int>, draws: seq<(nat, nat)>)
    requires |pre| == |post| && InRange(draws, |pre|) && InRange(Reversed(draws), |pre|)
    requires Distinct(Pairs(pre, post)) && LoopFree(pre, post)
    ensures var w := Wiring(post, EdgeSet(pre, post)); Rewire(pre, Rewire(pre, w, draws), Reversed(draws)) == w
  {
    var w := Wiring(post, EdgeSet(pre, post));
    if draws != [] {
      var n := |draws| - 1;
      var v, d := Rewire(pre, w, draws[..n]), draws[n];
      RewireKeepsExact(pre, post, draws[..n]);
      StaysLoopFree(pre, w, draws[..n]);
      SwapTwice(pre, v, d.0, d.1);
      assert Reversed(draws) == [d] + Reversed(draws[..n]);
      hide Swap, Exact, LoopFree;
      RewireCons(pre, Rewire(pre, w, draws), d, Reversed(draws[..n]));
      RewireReversible(pre, post, draws[..n]);
    }
  }

  /** Position `k` holds one of the two edges a swap takes away. */
  ghost predicate Again(pre: seq<int>, post: seq<int>, i: nat, j: nat, k: nat)
    requires |pre| == |post| && i < |pre| && j < |pre| && k < |pre|
  {
    k != i && k != j && ((pre[k], post[k]) == (pre[i], post[i]) || (pre[k], post[k]) == (pre[j], post[j]))
  }

  lemma EdgeAt(pre: seq<int>, post: seq<int>, k: nat)
    requires |pre| == |post| && k < |pre|
    ensures (pre[k], post[k]) in EdgeSet(pre, post)
  {}

  lemma PositionOf(pre: seq<int>, post: seq<int>, e: Edge) returns (k: nat)
    requires |pre| == |post| && e in EdgeSet(pre, post)
    ensures k < |pre| && (pre[k], post[k]) == e
  {
    k :| k < |pre| && (pre[k], post[k]) == e;
  }

  /** The two edges an accepted swap takes away leave the set. */
  lemma TakenAway(pre: seq<int>, w: Wiring, i: nat, j: nat)
    requires |pre| == |w.post| && w.edges == EdgeSet(pre, w.post) && i < |pre| && j < |pre| && Swappable(pre, w, i, j)
    ensures (pre[i], w.post[i]) !in Swap(pre, w, i, j).edges && (pre[j], w.post[j]) !in Swap(pre, w, i, j).edges
  {
    EdgeAt(pre, w.post, i);
    EdgeAt(pre, w.post, j);
    hide EdgeSet;
  }

  lemma SetEdgeIsListed(pre: seq<int>, w: Wiring, i: nat, j: nat, e: Edge)
    requires |pre| == |w.post| && w.edges == EdgeSet(pre, w.post) && i < |pre| && j < |pre| && Swappable(pre, w, i, j)
    requires e in Swap(pre, w, i, j).edges
    ensures e in EdgeSet(pre, Swap(pre, w, i, j).post)
  {
    TakenAway(pre, w, i, j);
    var r := Swap(pre, w, i, j);
    EdgeAt(pre, r.post, i);
    EdgeAt(pre, r.post, j);
    if e in w.edges {
      var k := PositionOf(pre, w.post, e);
      EdgeAt(pre, r.post, k);
    }
  }

  lemma ListedEdgeIsSet(pre: seq<int>, w: Wiring, i: nat, j: nat, e: Edge)
    requires |pre| == |w.post| && w.edges == EdgeSet(pre, w.post) && i < |pre| && j < |pre| && Swappable(pre, w, i, j)
    requires e in EdgeSet(pre, Swap(pre, w, i, j).post) && forall k :: 0 <= k < |pre| ==> !Again(pre, w.post, i, j, k)
    ensures e in Swap(pre, w, i, j).edges
  {
    var k := PositionOf(pre, Swap(pre, w, i, j).post, e);
    assert !Again(pre, w.post, i, j, k);
    EdgeAt(pre, w.post, k);
    hide EdgeSet;
  }

  /** An accepted swap leaves the set exact, exactly when neither edge it takes away stands at a third position. */
  lemma SwapKeepsSetExactly(pre: seq<int>, w: Wiring, i: nat, j: nat)
    requires |pre| == |w.post| && w.edges == EdgeSet(pre, w.post) && i < |pre| && j < |pre| && Swappable(pre, w, i, j)
    ensures var r := Swap(pre, w, i, j);
            r.edges == EdgeSet(pre, r.post) <==> forall k :: 0 <= k < |pre| ==> !Again(pre, w.post, i, j, k)
  {
    var r := Swap(pre, w, i, j);
    TakenAway(pre, w, i, j);
    forall k | 0 <= k < |pre| && Again(pre, w.post, i, j, k)
      ensures (pre[k], r.post[k]) in EdgeSet(pre, r.post) && (pre[k], r.post[k]) !in r.edges
    {
      EdgeAt(pre, r.post, k);
    }
    hide EdgeSet, Swap, Swappable, Again;
    if forall k :: 0 <= k < |pre| ==> !Again(pre, w.post, i, j, k) {
      forall e | e in r.edges ensures e in EdgeSet(pre, r.post) { SetEdgeIsListed(pre, w, i, j, e); }
      forall e | e in EdgeSet(pre, r.post) ensures e in r.edges { ListedEdgeIsSet(pre, w, i, j, e); }
    }
  }

  /** Distinctness is needed: with a duplicated edge one swap leaves the set without an edge the list still has. */
  lemma DuplicateBreaksSet()
    ensures var pre, post := [0, 0, 2], [1, 1, 3];
            var w := Rewire(pre, Wiring(post, EdgeSet(pre, post)), [(0, 2)]);
            (0, 1) in EdgeSet(pre, w.post) && (0, 1) !in w.edges
  {
    var pre, post := [0, 0, 2], [1, 1, 3];
    var w0 := Wiring(post, EdgeSet(pre, post));
    assert [(0, 2)][..0] == [];
    assert Rewire(pre, w0, []) == w0;
    assert w0.edges == {(0, 1), (2, 3)} by {
      assert (pre[0], post[0]) == (0, 1) && (pre[1], post[1]) == (0, 1) && (pre[2], post[2]) == (2, 3);
    }
    var w := Swap(pre, w0, 0, 2);
    assert (pre[1], w.post[1]) == (0, 1);
  }
}
