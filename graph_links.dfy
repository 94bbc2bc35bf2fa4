/**
 What the children of a vertex are: LinksOf, the reference definition of
 the links NewUEDataPathGraph leaves on a vertex, characterised edge by
 edge, and the edges characterised by the routing paths they come from.
 */
module GraphLinks {
  import opened Wrappers
  import opened DataPath
  import opened GraphSpec

  /** A vertex no edge leaves has no children. */
  lemma {:induction false} LinksOfNoEdge(ctx: SmfContext, edges: seq<Edge>, x: string)
    requires forall j :: 0 <= j < |edges| ==> edges[j].from != x
    ensures LinksOf(ctx, edges, x) == map[]
  {
    if edges != [] {
      var n := |edges| - 1;
      forall j | 0 <= j < n ensures edges[..n][j].from != x {
        assert edges[..n][j] == edges[j];
      }
      LinksOfNoEdge(ctx, edges[..n], x);
    }
  }

  /** One more edge changes the children as LinkStep says. */
  lemma LinksOfSnoc(ctx: SmfContext, edges: seq<Edge>, e: Edge, x: string)
    ensures LinksOf(ctx, edges + [e], x) == LinkStep(ctx, LinksOf(ctx, edges, x), e, x)
  {
    assert (edges + [e])[..|edges|] == edges;
  }

  /** Every child is the target of some edge, resolves, and is keyed by its own id. */
  lemma {:induction false} LinksOfTargets(ctx: SmfContext, edges: seq<Edge>, x: string, targets: set<string>)
    requires forall j :: 0 <= j < |edges| ==> edges[j].to in targets
    ensures forall id :: id in LinksOf(ctx, edges, x) ==>
      var l := LinksOf(ctx, edges, x)[id]; l.to in targets && Resolves(ctx, l.to) && IdOf(ctx, l.to) == id
  {
    if edges != [] {
      var n := |edges| - 1;
      forall j | 0 <= j < n ensures edges[..n][j].to in targets {
        assert edges[..n][j] == edges[j];
      }
      LinksOfTargets(ctx, edges[..n], x, targets);
    }
  }

  /** The keys of the children of x are exactly the ids of the resolvable targets of the edges from x. */
  lemma {:induction false} LinksOfKeys(ctx: SmfContext, edges: seq<Edge>, x: string)
    ensures forall id :: id in LinksOf(ctx, edges, x) <==> exists j :: 0 <= j < |edges| && EdgeFor(ctx, edges[j], x, id)
  {
    if edges != [] {
      var n := |edges| - 1;
      var init := edges[..n];
      LinksOfKeys(ctx, init, x);
      forall id | id in LinksOf(ctx, edges, x) ensures exists j :: 0 <= j < |edges| && EdgeFor(ctx, edges[j], x, id) {
        if id in LinksOf(ctx, init, x) {
          var j :| 0 <= j < n && EdgeFor(ctx, init[j], x, id);
          assert edges[j] == init[j];
        } else {
          assert EdgeFor(ctx, edges[n], x, id);
        }
      }
      forall id, j | 0 <= j < |edges| && EdgeFor(ctx, edges[j], x, id) ensures id in LinksOf(ctx, edges, x) {
        if j < n {
          assert init[j] == edges[j];
        }
      }
    }
  }

  /**
   The endpoint of the child under id is that of the last edge from x to
   a target with that id: AddDestinationOfChild overwrites it every time.
   */
  lemma {:induction false} LinksOfLast(ctx: SmfContext, edges: seq<Edge>, x: string, j: nat)
    requires j < |edges| && edges[j].from == x && Resolves(ctx, edges[j].to)
    requires forall l :: j < l < |edges| ==> !EdgeFor(ctx, edges[l], x, IdOf(ctx, edges[j].to))
    ensures var id := IdOf(ctx, edges[j].to);
      && id in LinksOf(ctx, edges, x)
      && LinksOf(ctx, edges, x)[id].destinationIP == edges[j].destinationIP
      && LinksOf(ctx, edges, x)[id].destinationPort == edges[j].destinationPort
  {
    var n := |edges| - 1;
    if j < n {
      var init := edges[..n];
      assert init[j] == edges[j];
      forall l | j < l < |init| ensures !EdgeFor(ctx, init[l], x, IdOf(ctx, init[j].to)) {
        assert init[l] == edges[l];
      }
      LinksOfLast(ctx, init, x, j);
    }
  }

  /**
   The target of the child under id is that of the first edge from x to a
   target with that id: AddChild never replaces an existing link.
   */
  lemma {:induction false} LinksOfFirst(ctx: SmfContext, edges: seq<Edge>, x: string, j: nat)
    requires j < |edges| && edges[j].from == x && Resolves(ctx, edges[j].to)
    requires forall l :: 0 <= l < j ==> !EdgeFor(ctx, edges[l], x, IdOf(ctx, edges[j].to))
    ensures var id := IdOf(ctx, edges[j].to);
      id in LinksOf(ctx, edges, x) && LinksOf(ctx, edges, x)[id].to == edges[j].to
  {
    var n := |edges| - 1;
    var init := edges[..n];
    var id := IdOf(ctx, edges[j].to);
    if j < n {
      assert init[j] == edges[j];
      forall l | 0 <= l < j ensures !EdgeFor(ctx, init[l], x, IdOf(ctx, init[j].to)) {
        assert init[l] == edges[l];
      }
      LinksOfFirst(ctx, init, x, j);
    } else {
      LinksOfKeys(ctx, init, x);
      forall l | 0 <= l < n ensures !EdgeFor(ctx, init[l], x, id) {
        assert init[l] == edges[l];
      }
    }
  }

  // ---------------------------------------------------------------------
  // The edges of the routing paths

  /** The pairs of the first n iterations over p: one per adjacent pair reached. */
  lemma {:induction false} PathEdgesSpec(p: RoutingPath, n: nat)
    requires n <= |p.upf|
    ensures |PathEdges(p, n)| == if n == 0 then 0 else if n < |p.upf| then n else n - 1
    ensures forall i :: 0 <= i < |PathEdges(p, n)| ==>
      PathEdges(p, n)[i] == Edge(p.upf[i], p.upf[i + 1], p.destinationIP, p.destinationPort)
  {
    if n > 0 {
      PathEdgesSpec(p, n - 1);
    }
  }

  lemma {:induction false} EdgesLength(paths: seq<RoutingPath>, k: nat, l: nat)
    requires k < l <= |paths|
    ensures Edges(paths, k) + PathEdges(paths[k], |paths[k].upf|) <= Edges(paths, l)
    decreases l
  {
    if k + 1 < l {
      EdgesLength(paths, k, l - 1);
    }
  }

  /** The pair (i, i + 1) of path k sits in the edges at offset i after those of the earlier paths. */
  lemma EdgesAt(paths: seq<RoutingPath>, l: nat, k: nat, i: nat)
    requires k < l <= |paths| && i + 1 < |paths[k].upf|
    ensures var p := paths[k]; var j := |Edges(paths, k)| + i;
      j < |Edges(paths, l)| && Edges(paths, l)[j] == Edge(p.upf[i], p.upf[i + 1], p.destinationIP, p.destinationPort)
  {
    var p := paths[k];
    PathEdgesSpec(p, |p.upf|);
    EdgesLength(paths, k, l);
    var pre := Edges(paths, k) + PathEdges(p, |p.upf|);
    assert pre[|Edges(paths, k)| + i] == PathEdges(p, |p.upf|)[i];
  }

  /** Every edge is the pair (i, i + 1) of some path, at offset i after those of the earlier paths. */
  lemma {:induction false} EdgesCover(paths: seq<RoutingPath>, l: nat, j: nat)
    requires l <= |paths| && j < |Edges(paths, l)|
    ensures exists k ::
      && 0 <= k < l && |Edges(paths, k)| <= j && j - |Edges(paths, k)| + 1 < |paths[k].upf|
      && Edges(paths, l)[j] == Edge(paths[k].upf[j - |Edges(paths, k)|], paths[k].upf[j - |Edges(paths, k)| + 1],
                                    paths[k].destinationIP, paths[k].destinationPort)
  {
    var k := l - 1;
    var p := paths[k];
    PathEdgesSpec(p, |p.upf|);
    if j < |Edges(paths, k)| {
      EdgesCover(paths, k, j);
      var k' :|
        && 0 <= k' < k && |Edges(paths, k')| <= j && j - |Edges(paths, k')| + 1 < |paths[k'].upf|
        && Edges(paths, k)[j] == Edge(paths[k'].upf[j - |Edges(paths, k')|], paths[k'].upf[j - |Edges(paths, k')| + 1],
                                      paths[k'].destinationIP, paths[k'].destinationPort);
      EdgesLength(paths, k, l);
      assert Edges(paths, l)[j] == Edges(paths, k)[j];
    } else {
      assert |Edges(paths, k)| <= j && j - |Edges(paths, k)| + 1 < |p.upf|;
      EdgesAt(paths, l, k, j - |Edges(paths, k)|);
    }
  }

  /** The target of every edge is a name some path has after its first position. */
  lemma EdgeTarget(paths: seq<RoutingPath>, j: nat)
    requires j < |Edges(paths, |paths|)|
    ensures exists k, i :: 0 <= k < |paths| && 0 < i < |paths[k].upf| && paths[k].upf[i] == Edges(paths, |paths|)[j].to
  {
    EdgesCover(paths, |paths|, j);
    var k :|
      && 0 <= k < |paths| && |Edges(paths, k)| <= j && j - |Edges(paths, k)| + 1 < |paths[k].upf|
      && Edges(paths, |paths|)[j] == Edge(paths[k].upf[j - |Edges(paths, k)|], paths[k].upf[j - |Edges(paths, k)| + 1],
                                          paths[k].destinationIP, paths[k].destinationPort);
    assert paths[k].upf[j - |Edges(paths, k)| + 1] == Edges(paths, |paths|)[j].to;
  }

  /** Pairs of earlier paths, or earlier in the same path, come earlier in the edges. */
  lemma EdgesOrder(paths: seq<RoutingPath>, k: nat, i: nat, k2: nat, i2: nat)
    requires k < |paths| && i + 1 < |paths[k].upf| && k2 < |paths| && i2 + 1 < |paths[k2].upf|
    requires |Edges(paths, k)| + i < |Edges(paths, k2)| + i2
    ensures k < k2 || (k == k2 && i < i2)
  {
    if k2 < k {
      var p := paths[k2];
      PathEdgesSpec(p, |p.upf|);
      EdgesLength(paths, k2, k);
    }
  }
}
