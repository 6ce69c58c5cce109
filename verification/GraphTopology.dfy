/** The controlled topology variants of a built graph. */
module GraphTopology {
  import opened Sorting
  import opened TopologyRewire
  import G = InducedGraph

  datatype Mode = Real | DegreeRewired | Random | Disconnected

  function Sources(edges: seq<G.Edge>): (r: seq<int>)
    ensures |r| == |edges| && forall i :: 0 <= i < |edges| ==> r[i] == edges[i].pre
  {
    seq(|edges|, i requires 0 <= i < |edges| => edges[i].pre)
  }

  function Destinations(edges: seq<G.Edge>): (r: seq<int>)
    ensures |r| == |edges| && forall i :: 0 <= i < |edges| ==> r[i] == edges[i].post
  {
    seq(|edges|, i requires 0 <= i < |edges| => edges[i].post)
  }

  function Signs(edges: seq<G.Edge>): (r: seq<int>)
    ensures |r| == |edges| && forall i :: 0 <= i < |edges| ==> r[i] == edges[i].signed
  {
    seq(|edges|, i requires 0 <= i < |edges| => edges[i].signed)
  }

  function Start(edges: seq<G.Edge>): Wiring {
    Wiring(Destinations(edges), EdgeSet(Sources(edges), Destinations(edges)))
  }

  /** `topology(g, mode, seed)`: ten attempted swaps per edge, or fresh end points, or the graph as it is. */
  method Topology(edges: seq<G.Edge>, mode: Mode, draws: seq<(nat, nat)>, drawnPre: seq<int>, drawnPost: seq<int>)
    returns (pre: seq<int>, post: seq<int>, base: seq<int>)
    requires |draws| == 10 * |edges| && InRange(draws, |edges|) && |drawnPre| == |drawnPost| == |edges|
    ensures base == Signs(edges)
    ensures mode.Real? || mode.Disconnected? ==> pre == Sources(edges) && post == Destinations(edges)
    ensures mode.Random? ==> pre == drawnPre && post == drawnPost
    ensures mode.DegreeRewired? ==> pre == Sources(edges) && post == Rewire(Sources(edges), Start(edges), draws).post
  {
    pre, post, base := Sources(edges), Destinations(edges), Signs(edges);
    if mode.DegreeRewired? {
      var a := new int[|edges|](i requires 0 <= i < |edges| => edges[i].post);
      assert a[..] == Destinations(edges);
      var left := DegreePreservingSwaps(pre, a, draws);
      post := a[..];
    } else if mode.Random? {
      pre, post := drawnPre, drawnPost;
    }
  }

  /** A built graph meets what the rewiring asks for: its pairs are distinct. */
  lemma GraphPairsDistinct(rows: seq<G.Row>, roots: seq<string>, edges: seq<G.Edge>)
    requires G.EdgesOk(rows, roots, edges)
    ensures Distinct(Pairs(Sources(edges), Destinations(edges)))
  {
    hide G.EdgeOk, G.Weight;
    var p := Pairs(Sources(edges), Destinations(edges));
    forall i, j | 0 <= i < j < |p| ensures p[i] != p[j] { assert G.PairBefore(edges[i], edges[j]); }
  }

  /** The rewired null model of a built graph: the same in- and out-degrees, distinct edges, no new self-loop, and every
      end point still one of the roots. */
  lemma RewiredGraph(rows: seq<G.Row>, roots: seq<string>, edges: seq<G.Edge>, draws: seq<(nat, nat)>)
    requires G.EdgesOk(rows, roots, edges) && InRange(draws, |edges|)
    ensures var pre, post := Sources(edges), Rewire(Sources(edges), Start(edges), draws).post;
            && (forall n :: DegreeSignature(pre, post, n) == DegreeSignature(pre, Destinations(edges), n))
            && Distinct(Pairs(pre, post))
            && (forall k :: 0 <= k < |edges| && pre[k] == post[k] ==> edges[k].pre == edges[k].post)
            && (forall k :: 0 <= k < |edges| ==> 0 <= post[k] < |roots|)
  {
    var pre, w := Sources(edges), Start(edges);
    var post := Rewire(pre, w, draws).post;
    GraphPairsDistinct(rows, roots, edges);
    forall n: nat ensures DegreeSignature(pre, post, n) == DegreeSignature(pre, Destinations(edges), n) {
      DegreesPreserved(pre, w, draws, n);
    }
    RewireKeepsExact(pre, Destinations(edges), draws);
    RewirePermutes(pre, w, draws);
    EndsAreRoots(rows, roots, edges);
    hide Rewire, DegreeSignature, G.EdgesOk, Exact, Distinct;
    forall k | 0 <= k < |edges| && pre[k] == post[k] ensures edges[k].pre == edges[k].post {
      NoNewSelfLoop(pre, w, draws, k);
    }
    forall k | 0 <= k < |edges| ensures 0 <= post[k] < |roots| {
      assert post[k] in multiset(post);
      assert post[k] in Destinations(edges);
    }
  }

  lemma EndsAreRoots(rows: seq<G.Row>, roots: seq<string>, edges: seq<G.Edge>)
    requires G.EdgesOk(rows, roots, edges)
    ensures forall d :: d in Destinations(edges) ==> 0 <= d < |roots|
  {
    hide G.Weight, G.SignedWeight, G.SortedEdges, G.HasPair;
    forall d | d in Destinations(edges) ensures 0 <= d < |roots| {
      var i :| 0 <= i < |edges| && Destinations(edges)[i] == d;
      assert G.EdgeOk(rows, roots, edges[i]);
    }
  }
}
