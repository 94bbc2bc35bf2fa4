/**
 What the graph NewUEDataPathGraph returns looks like: one vertex per
 mentioned name in first-mention order, no parent links, and for every
 adjacent pair of a path a child link to the next vertex carrying the
 endpoint of the last path that links that pair.
 */
module GraphTheorems {
  import opened Wrappers
  import opened DataPath
  import opened GraphSpec
  import opened GraphProperties
  import opened GraphLinks
  import opened GraphBuilder

  /** An unknown SUPI has no routing paths, so the construction succeeds with no vertex and no link. */
  lemma UnknownSupi(ctx: SmfContext, supi: string)
    requires supi !in ctx.ueRoutingPaths
    ensures var paths := Routes(ctx, supi); var all := Flatten(paths, |paths|);
      NoPanic(ctx, paths) && FirstMissing(ctx, all).None? && Dedup(all) == [] && Edges(paths, |paths|) == []
  {
  }

  /** Names of the paths are names of the whole visit order. */
  lemma NameMentioned(paths: seq<RoutingPath>, k: nat, i: nat)
    requires k < |paths| && i < |paths[k].upf|
    ensures paths[k].upf[i] in Flatten(paths, |paths|)
  {
    PrefixContains(paths, k, |paths[k].upf|, i);
    PrefixOfAll(paths, k, |paths[k].upf|);
  }

  /** Every edge leads to a name of the whole visit order. */
  lemma EdgeTargets(paths: seq<RoutingPath>)
    ensures forall l :: 0 <= l < |Edges(paths, |paths|)| ==> Edges(paths, |paths|)[l].to in Flatten(paths, |paths|)
  {
    var e := Edges(paths, |paths|);
    forall l | 0 <= l < |e| ensures e[l].to in Flatten(paths, |paths|) {
      EdgesCover(paths, |paths|, l);
      var k2 :| 0 <= k2 < |paths| && |Edges(paths, k2)| <= l && l - |Edges(paths, k2)| + 1 < |paths[k2].upf|;
      var i2 := l - |Edges(paths, k2)|;
      EdgesAt(paths, |paths|, k2, i2);
      NameMentioned(paths, k2, i2 + 1);
    }
  }

  /**
   Linking the pair (i, i + 1) of path k gives its first name a child
   under the id of the second, whose endpoint is that of path k unless a
   later pair from the same name reaches a node with the same id.
   */
  lemma PairEndpoint(ctx: SmfContext, paths: seq<RoutingPath>, k: nat, i: nat)
    requires k < |paths| && i + 1 < |paths[k].upf| && Resolves(ctx, paths[k].upf[i + 1])
    requires var a, b := paths[k].upf[i], paths[k].upf[i + 1];
      forall k2: nat, i2: nat :: LaterPair(paths, k, i, k2, i2) && paths[k2].upf[i2] == a ==>
        !(Resolves(ctx, paths[k2].upf[i2 + 1]) && IdOf(ctx, paths[k2].upf[i2 + 1]) == IdOf(ctx, b))
    ensures var a, b := paths[k].upf[i], paths[k].upf[i + 1];
      var m := LinksOf(ctx, Edges(paths, |paths|), a);
      && IdOf(ctx, b) in m
      && m[IdOf(ctx, b)].destinationIP == paths[k].destinationIP
      && m[IdOf(ctx, b)].destinationPort == paths[k].destinationPort
  {
    var a, b := paths[k].upf[i], paths[k].upf[i + 1];
    var e := Edges(paths, |paths|);
    var j := |Edges(paths, k)| + i;
    EdgesAt(paths, |paths|, k, i);
    forall l | j < l < |e| ensures !EdgeFor(ctx, e[l], a, IdOf(ctx, b)) {
      EdgesCover(paths, |paths|, l);
      var k2 :| 0 <= k2 < |paths| && |Edges(paths, k2)| <= l && l - |Edges(paths, k2)| + 1 < |paths[k2].upf|;
      var i2 := l - |Edges(paths, k2)|;
      EdgesAt(paths, |paths|, k2, i2);
      EdgesOrder(paths, k, i, k2, i2);
      assert LaterPair(paths, k, i, k2, i2);
    }
    LinksOfLast(ctx, e, a, j);
  }

  /** With distinct ids, the child under the id of b is b itself. */
  lemma PairTarget(ctx: SmfContext, paths: seq<RoutingPath>, k: nat, i: nat)
    requires k < |paths| && i + 1 < |paths[k].upf| && Resolves(ctx, paths[k].upf[i + 1])
    requires IdsDistinct(ctx, Flatten(paths, |paths|))
    ensures var a, b := paths[k].upf[i], paths[k].upf[i + 1];
      var m := LinksOf(ctx, Edges(paths, |paths|), a);
      IdOf(ctx, b) in m && m[IdOf(ctx, b)].to == b
  {
    var a, b := paths[k].upf[i], paths[k].upf[i + 1];
    var all := Flatten(paths, |paths|);
    var e := Edges(paths, |paths|);
    var targets := set x | x in all;
    EdgesAt(paths, |paths|, k, i);
    LinksOfKeys(ctx, e, a);
    assert EdgeFor(ctx, e[|Edges(paths, k)| + i], a, IdOf(ctx, b));
    EdgeTargets(paths);
    LinksOfTargets(ctx, e, a, targets);
    NameMentioned(paths, k, i + 1);
  }

  /**
   With distinct ids, the pair (a, b) at (i, i + 1) of path k, not linked
   again by a later pair, leaves a a child link to b with the endpoint of
   path k.
   */
  lemma PairLink(ctx: SmfContext, paths: seq<RoutingPath>, k: nat, i: nat)
    requires k < |paths| && i + 1 < |paths[k].upf| && Resolves(ctx, paths[k].upf[i + 1])
    requires IdsDistinct(ctx, Flatten(paths, |paths|))
    requires var a, b := paths[k].upf[i], paths[k].upf[i + 1];
      forall k2: nat, i2: nat :: LaterPair(paths, k, i, k2, i2) ==> !(paths[k2].upf[i2] == a && paths[k2].upf[i2 + 1] == b)
    ensures var a, b := paths[k].upf[i], paths[k].upf[i + 1];
      var m := LinksOf(ctx, Edges(paths, |paths|), a);
      IdOf(ctx, b) in m && m[IdOf(ctx, b)] == AbsLink(b, paths[k].destinationIP, paths[k].destinationPort)
  {
    var a, b := paths[k].upf[i], paths[k].upf[i + 1];
    forall k2: nat, i2: nat | LaterPair(paths, k, i, k2, i2) && paths[k2].upf[i2] == a
      ensures !(Resolves(ctx, paths[k2].upf[i2 + 1]) && IdOf(ctx, paths[k2].upf[i2 + 1]) == IdOf(ctx, b))
    {
      NameMentioned(paths, k2, i2 + 1);
      NameMentioned(paths, k, i + 1);
    }
    PairEndpoint(ctx, paths, k, i);
    PairTarget(ctx, paths, k, i);
  }

  /**
   The vertices of a built graph: one per mentioned name, in the order of
   first mention, no two alike, each with its node's UPF, no parent link
   and the flag clear.
   */
  lemma GraphShape(ctx: SmfContext, paths: seq<RoutingPath>, nodeOf: map<string, DataPathNode>, graph: seq<DataPathNode>)
    requires Built(ctx, nodeOf, graph, Dedup(Flatten(paths, |paths|)), Edges(paths, |paths|))
    ensures var all := Flatten(paths, |paths|); var d := Dedup(all);
      && |graph| == |d|
      && (forall x :: x in nodeOf <==> x in all)
      && (forall i :: 0 <= i < |graph| ==> d[i] in nodeOf && graph[i] == nodeOf[d[i]])
      && (forall i :: 0 <= i < |graph| ==>
            d[i] in ctx.upNodes && graph[i].upf == ctx.upNodes[d[i]] && graph[i].prev == None && !graph[i].isBranchingPoint)
      && (forall i, j :: 0 <= i < j < |graph| ==> graph[i] != graph[j])
      && (forall i, j :: 0 <= i < j < |graph| ==> d[i] in all && d[j] in all && FirstIndex(all, d[i]) < FirstIndex(all, d[j]))
  {
    var all := Flatten(paths, |paths|);
    var d := Dedup(all);
    var e := Edges(paths, |paths|);
    DedupSpec(all);
    forall i | 0 <= i < |graph|
      ensures d[i] in ctx.upNodes && graph[i].upf == ctx.upNodes[d[i]] && graph[i].prev == None && !graph[i].isBranchingPoint
    {
      assert VertexBuilt(ctx, nodeOf, e, d[i]);
    }
    forall i, j | 0 <= i < j < |graph| ensures d[i] in all && d[j] in all && FirstIndex(all, d[i]) < FirstIndex(all, d[j]) {
      DedupFirstOccurrence(all, i, j);
    }
  }

  /**
   In a built graph, with distinct ids, the vertex of the first name of a
   pair not linked again later has, under the id of the second name, a
   link to that name's vertex with the endpoint of the pair's path.
   */
  lemma GraphPairLink(ctx: SmfContext, paths: seq<RoutingPath>, nodeOf: map<string, DataPathNode>, graph: seq<DataPathNode>,
                      k: nat, i: nat)
    requires Built(ctx, nodeOf, graph, Dedup(Flatten(paths, |paths|)), Edges(paths, |paths|))
    requires k < |paths| && i + 1 < |paths[k].upf| && Resolves(ctx, paths[k].upf[i + 1])
    requires IdsDistinct(ctx, Flatten(paths, |paths|))
    requires var a, b := paths[k].upf[i], paths[k].upf[i + 1];
      forall k2: nat, i2: nat :: LaterPair(paths, k, i, k2, i2) ==> !(paths[k2].upf[i2] == a && paths[k2].upf[i2 + 1] == b)
    ensures var a, b := paths[k].upf[i], paths[k].upf[i + 1];
      && a in nodeOf && b in nodeOf && IdOf(ctx, b) in nodeOf[a].next
      && nodeOf[a].next[IdOf(ctx, b)] == DataPathLink(nodeOf[b], paths[k].destinationIP, paths[k].destinationPort)
  {
    var a, b := paths[k].upf[i], paths[k].upf[i + 1];
    var all := Flatten(paths, |paths|);
    DedupSpec(all);
    NameMentioned(paths, k, i);
    NameMentioned(paths, k, i + 1);
    assert VertexBuilt(ctx, nodeOf, Edges(paths, |paths|), a);
    PairLink(ctx, paths, k, i);
  }

  /** Every child x gets from the edges of the paths comes from a pair (x, b) of some path, keyed by the id of b. */
  lemma LinksFromPairs(ctx: SmfContext, paths: seq<RoutingPath>, x: string, id: string)
    requires id in LinksOf(ctx, Edges(paths, |paths|), x)
    ensures exists k, i :: (0 <= k < |paths| && 0 <= i && i + 1 < |paths[k].upf| && paths[k].upf[i] == x &&
      Resolves(ctx, paths[k].upf[i + 1]) && IdOf(ctx, paths[k].upf[i + 1]) == id)
  {
    var e := Edges(paths, |paths|);
    LinksOfKeys(ctx, e, x);
    var l :| 0 <= l < |e| && EdgeFor(ctx, e[l], x, id);
    EdgesCover(paths, |paths|, l);
    var k :| 0 <= k < |paths| && |Edges(paths, k)| <= l && l - |Edges(paths, k)| + 1 < |paths[k].upf|;
    EdgesAt(paths, |paths|, k, l - |Edges(paths, k)|);
  }

  /** Every child link of a built vertex x comes from a pair (x, b) of some path, keyed by the id of b. */
  lemma GraphLinksFromPairs(ctx: SmfContext, paths: seq<RoutingPath>, nodeOf: map<string, DataPathNode>,
                            graph: seq<DataPathNode>, x: string, id: string)
    requires Built(ctx, nodeOf, graph, Dedup(Flatten(paths, |paths|)), Edges(paths, |paths|))
    requires x in nodeOf && id in nodeOf[x].next
    ensures exists k, i :: (0 <= k < |paths| && 0 <= i && i + 1 < |paths[k].upf| && paths[k].upf[i] == x &&
      Resolves(ctx, paths[k].upf[i + 1]) && IdOf(ctx, paths[k].upf[i + 1]) == id)
  {
    assert VertexBuilt(ctx, nodeOf, Edges(paths, |paths|), x);
    LinksFromPairs(ctx, paths, x, id);
  }
}
