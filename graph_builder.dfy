/**
 NewUEDataPathGraph (smf_context/ue_datapath.go, lines 134-237): the
 graph of a subscriber's routing paths, built on the heap vertex by
 vertex. What it builds is stated against the reference definitions of
 GraphSpec: the vertices are the mentioned names without repeats in
 first-mention order, each with exactly the children LinksOf gives it and
 no parent link; construction fails exactly when some mentioned name is
 missing from the inventory, naming the first such.
 */
module GraphBuilder {
  import opened Wrappers
  import opened DataPath
  import opened GraphSpec
  import opened GraphProperties
  import opened GraphLinks

  /** A subscriber's graph: its SUPI and its vertices in creation order. */
  datatype UEDataPathGraph = UEDataPathGraph(supi: string, graph: seq<DataPathNode>)

  /** The routing paths configured for a SUPI; an unknown SUPI has none (Go's nil slice). */
  function Routes(ctx: SmfContext, supi: string): seq<RoutingPath> {
    if supi in ctx.ueRoutingPaths then ctx.ueRoutingPaths[supi] else []
  }

  /** The links a name-level children map stands for, each target taken from NodeCreated. */
  function Concrete(nodeOf: map<string, DataPathNode>, m: map<string, AbsLink>): map<string, DataPathLink>
    requires forall id :: id in m ==> m[id].to in nodeOf
  {
    map id | id in m :: DataPathLink(nodeOf[m[id].to], m[id].destinationIP, m[id].destinationPort)
  }

  /**
   The vertex of name x is as the construction leaves it once the given
   edges are linked: the node's UPF, no parent, the flag clear, and the
   children LinksOf gives, as references.
   */
  ghost predicate VertexBuilt(ctx: SmfContext, nodeOf: map<string, DataPathNode>, edges: seq<Edge>, x: string)
    reads if x in nodeOf then {nodeOf[x]} else {}
  {
    x in nodeOf ==>
      var v, m := nodeOf[x], LinksOf(ctx, edges, x);
      && x in ctx.upNodes && v.upf == ctx.upNodes[x]
      && v.prev == None && !v.isBranchingPoint
      && (forall id :: id in m ==> m[id].to in nodeOf)
      && v.next == Concrete(nodeOf, m)
  }

  /**
   The builder's state: NodeCreated maps exactly the created names, the
   Graph slice lists their vertices in creation order, distinct names have
   distinct vertices, and every vertex is built from the edges linked so far.
   */
  ghost predicate Built(ctx: SmfContext, nodeOf: map<string, DataPathNode>, graph: seq<DataPathNode>,
                        names: seq<string>, edges: seq<Edge>)
    reads nodeOf.Values
  {
    && |graph| == |names|
    && (forall x :: x in nodeOf <==> x in names)
    && (forall i :: 0 <= i < |names| ==> nodeOf[names[i]] == graph[i])
    && (forall x, y :: x in nodeOf && y in nodeOf && x != y ==> nodeOf[x] != nodeOf[y])
    && (forall j :: 0 <= j < |edges| ==> edges[j].from in nodeOf && edges[j].to in nodeOf)
    && (forall x {:trigger VertexBuilt(ctx, nodeOf, edges, x)} :: x in nodeOf ==> VertexBuilt(ctx, nodeOf, edges, x))
  }

  /**
   The lookup-or-create block that lines 158-167 and its three copies
   spell out: a created name gives its vertex; otherwise NewUEDataPathNode
   makes one, which is recorded in NodeCreated and appended to Graph.
   `visited` is the sequence of names looked up so far.
   */
  method LookupOrCreate(ctx: SmfContext, nodeCreated: map<string, DataPathNode>, graph: seq<DataPathNode>, name: string,
                        ghost visited: seq<string>, ghost edges: seq<Edge>)
    returns (r: Result<DataPathNode, Error>, nodeCreated': map<string, DataPathNode>, graph': seq<DataPathNode>)
    requires FirstMissing(ctx, visited).None?
    requires Built(ctx, nodeCreated, graph, Dedup(visited), edges)
    ensures r.Failure? <==> FirstMissing(ctx, visited + [name]).Some?
    ensures r.Failure? ==> r.error == UnknownNode(name) && FirstMissing(ctx, visited + [name]) == Some(name)
    ensures r.Success? ==>
      && name in nodeCreated' && r.value == nodeCreated'[name]
      && Built(ctx, nodeCreated', graph', Dedup(visited + [name]), edges)
    ensures name in visited ==>
      && r.Success? && nodeCreated' == nodeCreated && graph' == graph
      && Dedup(visited + [name]) == Dedup(visited) && FirstMissing(ctx, visited + [name]).None?
    ensures r.Success? ==> forall x :: x in nodeCreated ==> x in nodeCreated' && nodeCreated'[x] == nodeCreated[x]
    ensures r.Success? ==> forall x :: x in nodeCreated' && x !in nodeCreated ==> fresh(nodeCreated'[x])
  {
    DedupSnoc(visited, name);
    DedupSpec(visited);
    FirstMissingSnoc(ctx, visited, name);
    if name in nodeCreated {
      assert name in Dedup(visited) && VertexBuilt(ctx, nodeCreated, edges, name);
      return Success(nodeCreated[name]), nodeCreated, graph;
    }
    var created := NewUEDataPathNode(ctx, name);
    if created.Failure? {
      return created, nodeCreated, graph;
    }
    var node := created.value;
    nodeCreated', graph' := nodeCreated[name := node], graph + [node];
    r := Success(node);
    NewVertexBuilt(ctx, nodeCreated, graph, Dedup(visited), edges, name, node);
  }

  /** Recording a new vertex with no links keeps the builder's state. */
  lemma NewVertexBuilt(ctx: SmfContext, nodeOf: map<string, DataPathNode>, graph: seq<DataPathNode>,
                       names: seq<string>, edges: seq<Edge>, name: string, node: DataPathNode)
    requires Built(ctx, nodeOf, graph, names, edges)
    requires name !in nodeOf && name in ctx.upNodes && node !in nodeOf.Values
    requires node.upf == ctx.upNodes[name] && node.next == map[] && node.prev == None && !node.isBranchingPoint
    ensures Built(ctx, nodeOf[name := node], graph + [node], names + [name], edges)
  {
    var nodeOf' := nodeOf[name := node];
    LinksOfNoEdge(ctx, edges, name);
    forall x | x in nodeOf' ensures VertexBuilt(ctx, nodeOf', edges, x) {
      if x != name {
        assert VertexBuilt(ctx, nodeOf, edges, x);
        var m := LinksOf(ctx, edges, x);
        assert Concrete(nodeOf', m) == Concrete(nodeOf, m);
      }
    }
    var names' := names + [name];
    forall i | 0 <= i < |names'| ensures nodeOf'[names'[i]] == (graph + [node])[i] {
      if i < |names| {
        assert names'[i] == names[i] && names[i] in nodeOf;
      }
    }
    forall x, y | x in nodeOf' && y in nodeOf' && x != y ensures nodeOf'[x] != nodeOf'[y] {
      if x in nodeOf && y in nodeOf {
      } else if x in nodeOf {
        assert nodeOf'[x] in nodeOf.Values;
      } else {
        assert nodeOf'[y] in nodeOf.Values;
      }
    }
  }

  /**
   Lines 184-185 (and 228-229): AddChild then AddDestinationOfChild on the
   vertex of x with the vertex of y; both errors are discarded, as there.
   The children then agree with one more edge from x to y.
   */
  method LinkChild(ctx: SmfContext, node: DataPathNode, child: DataPathNode, dest: DataPathLink,
                   ghost nodeCreated: map<string, DataPathNode>, ghost graph: seq<DataPathNode>,
                   ghost names: seq<string>, ghost edges: seq<Edge>, ghost x: string, ghost y: string)
    requires Built(ctx, nodeCreated, graph, names, edges)
    requires x in nodeCreated && y in nodeCreated && node == nodeCreated[x] && child == nodeCreated[y]
    modifies node
    ensures Built(ctx, nodeCreated, graph, names, edges + [Edge(x, y, dest.destinationIP, dest.destinationPort)])
  {
    assert VertexBuilt(ctx, nodeCreated, edges, x) && VertexBuilt(ctx, nodeCreated, edges, y);
    LinkNext(ctx, node, child, dest, nodeCreated, LinksOf(ctx, edges, x), x, y);
    ghost var e := Edge(x, y, dest.destinationIP, dest.destinationPort);
    ghost var edges' := edges + [e];
    LinksOfSnoc(ctx, edges, e, x);
    assert VertexBuilt(ctx, nodeCreated, edges', x);
    forall z | z in nodeCreated && z != x ensures VertexBuilt(ctx, nodeCreated, edges', z) {
      LinksOfSnoc(ctx, edges, e, z);
      assert old(VertexBuilt(ctx, nodeCreated, edges, z));
      assert nodeCreated[z] != node;
    }
    forall j | 0 <= j < |edges'| ensures edges'[j].from in nodeCreated && edges'[j].to in nodeCreated {
      if j < |edges| {
        assert edges'[j] == edges[j];
      }
    }
  }

  /**
   The two calls of LinkChild on the node itself: its children, given by
   the name-level map m, become those of LinkStep with the edge to y.
   */
  method LinkNext(ctx: SmfContext, node: DataPathNode, child: DataPathNode, dest: DataPathLink,
                  ghost nodeOf: map<string, DataPathNode>, ghost m: map<string, AbsLink>, ghost x: string, ghost y: string)
    requires y in nodeOf && child == nodeOf[y] && y in ctx.upNodes && child.upf == ctx.upNodes[y]
    requires (forall id :: id in m ==> m[id].to in nodeOf) && node.next == Concrete(nodeOf, m)
    modifies node
    ensures var m' := LinkStep(ctx, m, Edge(x, y, dest.destinationIP, dest.destinationPort), x);
      (forall id :: id in m' ==> m'[id].to in nodeOf) && node.next == Concrete(nodeOf, m')
    ensures node.prev == old(node.prev) && node.isBranchingPoint == old(node.isBranchingPoint)
  {
    var childErr := node.AddChild(ctx, child);
    var destErr := node.AddDestinationOfChild(ctx, child, dest);
    if Resolves(ctx, y) {
      ChildLinkUpdate(ctx, nodeOf, m, y, dest.destinationIP, dest.destinationPort, node.next);
    } else {
      assert node.next == old(node.next);
    }
  }

  /**
   The children map AddChild then AddDestinationOfChild leave, for a child
   y that resolves, is the reference one with the edge to y added.
   */
  lemma ChildLinkUpdate(ctx: SmfContext, nodeOf: map<string, DataPathNode>, m: map<string, AbsLink>, y: string,
                        ip: string, port: int, next: map<string, DataPathLink>)
    requires y in nodeOf && Resolves(ctx, y)
    requires forall id :: id in m ==> m[id].to in nodeOf
    requires var id, n0 := IdOf(ctx, y), Concrete(nodeOf, m);
      && next.Keys == n0.Keys + {id}
      && (forall k :: k in next && k != id ==> next[k] == n0[k])
      && next[id] == DataPathLink(if id in n0 then n0[id].to else nodeOf[y], ip, port)
    ensures var id := IdOf(ctx, y);
      var l := if id in m then m[id] else AbsLink(y, "", 0);
      var m' := m[id := l.(destinationIP := ip, destinationPort := port)];
      (forall k :: k in m' ==> m'[k].to in nodeOf) && next == Concrete(nodeOf, m')
  {
  }

  /**
   Line 201 (and 230): AddParent on the vertex of x with the vertex of y,
   its error discarded. No vertex has a parent link, and AddParent only
   replaces one, so nothing changes.
   */
  method LinkParent(ctx: SmfContext, node: DataPathNode, parent: DataPathNode,
                    ghost nodeCreated: map<string, DataPathNode>, ghost graph: seq<DataPathNode>,
                    ghost names: seq<string>, ghost edges: seq<Edge>, ghost x: string)
    requires Built(ctx, nodeCreated, graph, names, edges)
    requires x in nodeCreated && node == nodeCreated[x]
    modifies node
    ensures Built(ctx, nodeCreated, graph, names, edges)
  {
    assert VertexBuilt(ctx, nodeCreated, edges, x);
    var parentErr := node.AddParent(ctx, parent);
    forall z | z in nodeCreated ensures VertexBuilt(ctx, nodeCreated, edges, z) {
      if z != x {
        assert old(VertexBuilt(ctx, nodeCreated, edges, z));
        assert nodeCreated[z] != node;
      }
    }
  }

  /**
   One iteration of the inner loop (lines 152-233) at index idx of path
   k: look up or create the vertex of the name there, then, by position,
   link it to the next name (first), to the previous one (last), or both.
   */
  method VisitIndex(ctx: SmfContext, path: RoutingPath, idx: nat, upperBound: int, dataEndPoint: DataPathLink,
                    nodeCreated: map<string, DataPathNode>, graph: seq<DataPathNode>,
                    ghost paths: seq<RoutingPath>, ghost k: nat)
    returns (err: Option<Error>, nodeCreated': map<string, DataPathNode>, graph': seq<DataPathNode>)
    requires k < |paths| && path == paths[k] && idx < |path.upf| && upperBound == |path.upf| - 1
    requires |path.upf| == 1 ==> FirstMissing(ctx, Prefix(paths, k, 1)).Some?
    requires dataEndPoint.destinationIP == path.destinationIP && dataEndPoint.destinationPort == path.destinationPort
    requires FirstMissing(ctx, Prefix(paths, k, Seen(path, idx))).None?
    requires Built(ctx, nodeCreated, graph, Dedup(Prefix(paths, k, Seen(path, idx))), Edges(paths, k) + PathEdges(path, idx))
    modifies nodeCreated.Values
    ensures var seen := Prefix(paths, k, Seen(path, idx + 1));
      && (err.Some? <==> FirstMissing(ctx, seen).Some?)
      && (err.Some? ==> err.value == UnknownNode(FirstMissing(ctx, seen).value))
      && (err.None? ==> Built(ctx, nodeCreated', graph', Dedup(seen), Edges(paths, k) + PathEdges(path, idx + 1)))
    ensures err.None? ==> forall x :: x in nodeCreated ==> x in nodeCreated' && nodeCreated'[x] == nodeCreated[x]
    ensures err.None? ==> forall x :: x in nodeCreated' && x !in nodeCreated ==> fresh(nodeCreated'[x])
  {
    if idx == 0 {
      err, nodeCreated', graph' := VisitFirst(ctx, path, idx, upperBound, dataEndPoint, nodeCreated, graph, paths, k);
    } else {
      err, nodeCreated', graph' := VisitLater(ctx, path, idx, upperBound, dataEndPoint, nodeCreated, graph, paths, k);
    }
  }

  /** Index 0: the name may be new, and is then linked to the next one (case lowerBound). */
  method VisitFirst(ctx: SmfContext, path: RoutingPath, idx: nat, upperBound: int, dataEndPoint: DataPathLink,
                    nodeCreated: map<string, DataPathNode>, graph: seq<DataPathNode>,
                    ghost paths: seq<RoutingPath>, ghost k: nat)
    returns (err: Option<Error>, nodeCreated': map<string, DataPathNode>, graph': seq<DataPathNode>)
    requires k < |paths| && path == paths[k] && idx < |path.upf| && upperBound == |path.upf| - 1
    requires idx == 0 && (|path.upf| == 1 ==> FirstMissing(ctx, Prefix(paths, k, 1)).Some?)
    requires dataEndPoint.destinationIP == path.destinationIP && dataEndPoint.destinationPort == path.destinationPort
    requires FirstMissing(ctx, Prefix(paths, k, Seen(path, idx))).None?
    requires Built(ctx, nodeCreated, graph, Dedup(Prefix(paths, k, Seen(path, idx))), Edges(paths, k) + PathEdges(path, idx))
    modifies nodeCreated.Values
    ensures var seen := Prefix(paths, k, Seen(path, idx + 1));
      && (err.Some? <==> FirstMissing(ctx, seen).Some?)
      && (err.Some? ==> err.value == UnknownNode(FirstMissing(ctx, seen).value))
      && (err.None? ==> Built(ctx, nodeCreated', graph', Dedup(seen), Edges(paths, k) + PathEdges(path, idx + 1)))
    ensures err.None? ==> forall x :: x in nodeCreated ==> x in nodeCreated' && nodeCreated'[x] == nodeCreated[x]
    ensures err.None? ==> forall x :: x in nodeCreated' && x !in nodeCreated ==> fresh(nodeCreated'[x])
  {
    var u := path.upf;
    ghost var seen := Prefix(paths, k, Seen(path, idx));
    ghost var edges := Edges(paths, k) + PathEdges(path, idx);
    var nodeName := u[idx];
    PrefixStep(paths, k, 0);
    SeenFacts(path, 0);
    var found, nc, g := LookupOrCreate(ctx, nodeCreated, graph, nodeName, seen, edges);
    if found.Failure? {
      FirstMissingAfterStart(ctx, paths, k);
      return Some(found.error), nodeCreated, graph;
    }
    err, nodeCreated', graph' := VisitLower(ctx, path, idx, found.value, dataEndPoint, nc, g, paths, k);
  }

  /** A later index: the name was already looked up as a child, so its vertex exists. */
  method VisitLater(ctx: SmfContext, path: RoutingPath, idx: nat, upperBound: int, dataEndPoint: DataPathLink,
                    nodeCreated: map<string, DataPathNode>, graph: seq<DataPathNode>,
                    ghost paths: seq<RoutingPath>, ghost k: nat)
    returns (err: Option<Error>, nodeCreated': map<string, DataPathNode>, graph': seq<DataPathNode>)
    requires k < |paths| && path == paths[k] && idx < |path.upf| && upperBound == |path.upf| - 1
    requires 0 < idx
    requires dataEndPoint.destinationIP == path.destinationIP && dataEndPoint.destinationPort == path.destinationPort
    requires FirstMissing(ctx, Prefix(paths, k, Seen(path, idx))).None?
    requires Built(ctx, nodeCreated, graph, Dedup(Prefix(paths, k, Seen(path, idx))), Edges(paths, k) + PathEdges(path, idx))
    modifies nodeCreated.Values
    ensures var seen := Prefix(paths, k, Seen(path, idx + 1));
      && (err.Some? <==> FirstMissing(ctx, seen).Some?)
      && (err.Some? ==> err.value == UnknownNode(FirstMissing(ctx, seen).value))
      && (err.None? ==> Built(ctx, nodeCreated', graph', Dedup(seen), Edges(paths, k) + PathEdges(path, idx + 1)))
    ensures err.None? ==> forall x :: x in nodeCreated ==> x in nodeCreated' && nodeCreated'[x] == nodeCreated[x]
    ensures err.None? ==> forall x :: x in nodeCreated' && x !in nodeCreated ==> fresh(nodeCreated'[x])
  {
    var u := path.upf;
    ghost var seen := Prefix(paths, k, Seen(path, idx));
    ghost var edges := Edges(paths, k) + PathEdges(path, idx);
    var nodeName := u[idx];
    SeenFacts(path, idx);
    PrefixContains(paths, k, idx + 1, idx);
    var found, nc, g := LookupOrCreate(ctx, nodeCreated, graph, nodeName, seen, edges);
    if idx == upperBound {
      err, nodeCreated', graph' := VisitUpper(ctx, path, idx, found.value, nc, g, paths, k);
    } else {
      err, nodeCreated', graph' := VisitDefault(ctx, path, idx, found.value, dataEndPoint, nc, g, paths, k);
    }
  }

  /** Lines 170-185, case lowerBound: link the first name to the second, with the path's endpoint. */
  method VisitLower(ctx: SmfContext, path: RoutingPath, idx: nat, ueNode: DataPathNode, dataEndPoint: DataPathLink,
                    nodeCreated: map<string, DataPathNode>, graph: seq<DataPathNode>,
                    ghost paths: seq<RoutingPath>, ghost k: nat)
    returns (err: Option<Error>, nodeCreated': map<string, DataPathNode>, graph': seq<DataPathNode>)
    requires k < |paths| && path == paths[k] && idx == 0 && |path.upf| >= 2
    requires dataEndPoint.destinationIP == path.destinationIP && dataEndPoint.destinationPort == path.destinationPort
    requires FirstMissing(ctx, Prefix(paths, k, idx + 1)).None?
    requires Built(ctx, nodeCreated, graph, Dedup(Prefix(paths, k, idx + 1)), Edges(paths, k) + PathEdges(path, idx))
    requires path.upf[idx] in nodeCreated && ueNode == nodeCreated[path.upf[idx]]
    modifies ueNode
    ensures var seen := Prefix(paths, k, Seen(path, idx + 1));
      && (err.Some? <==> FirstMissing(ctx, seen).Some?)
      && (err.Some? ==> err.value == UnknownNode(FirstMissing(ctx, seen).value))
      && (err.None? ==> Built(ctx, nodeCreated', graph', Dedup(seen), Edges(paths, k) + PathEdges(path, idx + 1)))
    ensures err.None? ==> forall x :: x in nodeCreated ==> x in nodeCreated' && nodeCreated'[x] == nodeCreated[x]
    ensures err.None? ==> forall x :: x in nodeCreated' && x !in nodeCreated ==> fresh(nodeCreated'[x])
  {
    var u := path.upf;
    ghost var visited, edges := Prefix(paths, k, idx + 1), Edges(paths, k) + PathEdges(path, idx);
    SeenFacts(path, idx + 1);
    PrefixStep(paths, k, idx + 1);
    var childName := u[idx + 1];
    var child, nc, g := LookupOrCreate(ctx, nodeCreated, graph, childName, visited, edges);
    if child.Failure? {
      return Some(child.error), nodeCreated, graph;
    }
    LinkChild(ctx, ueNode, child.value, dataEndPoint, nc, g, Dedup(visited + [childName]), edges, u[idx], childName);
    EdgesStep(paths, k, idx);
    return None, nc, g;
  }

  /** Lines 187-201, case upperBound: the last name only gets AddParent, which changes nothing. */
  method VisitUpper(ctx: SmfContext, path: RoutingPath, idx: nat, ueNode: DataPathNode,
                    nodeCreated: map<string, DataPathNode>, graph: seq<DataPathNode>,
                    ghost paths: seq<RoutingPath>, ghost k: nat)
    returns (err: Option<Error>, nodeCreated': map<string, DataPathNode>, graph': seq<DataPathNode>)
    requires k < |paths| && path == paths[k] && 0 < idx == |path.upf| - 1
    requires FirstMissing(ctx, Prefix(paths, k, Seen(path, idx))).None?
    requires Built(ctx, nodeCreated, graph, Dedup(Prefix(paths, k, Seen(path, idx))), Edges(paths, k) + PathEdges(path, idx))
    requires path.upf[idx] in nodeCreated && ueNode == nodeCreated[path.upf[idx]]
    modifies ueNode
    ensures err.None? && nodeCreated' == nodeCreated && graph' == graph
    ensures Seen(path, idx + 1) == Seen(path, idx)
    ensures Built(ctx, nodeCreated', graph', Dedup(Prefix(paths, k, Seen(path, idx + 1))), Edges(paths, k) + PathEdges(path, idx + 1))
  {
    var u := path.upf;
    ghost var seen, edges := Prefix(paths, k, Seen(path, idx)), Edges(paths, k) + PathEdges(path, idx);
    SeenFacts(path, idx);
    var parentName := u[idx - 1];
    PrefixContains(paths, k, idx + 1, idx - 1);
    var parent, nc, g := LookupOrCreate(ctx, nodeCreated, graph, parentName, seen, edges);
    LinkParent(ctx, ueNode, parent.value, nc, g, Dedup(seen), edges, u[idx]);
    EdgesLast(paths, k, idx);
    return None, nc, g;
  }

  /** Lines 202-230, default: link the name to the next one, with the path's endpoint, then AddParent. */
  method VisitDefault(ctx: SmfContext, path: RoutingPath, idx: nat, ueNode: DataPathNode, dataEndPoint: DataPathLink,
                      nodeCreated: map<string, DataPathNode>, graph: seq<DataPathNode>,
                      ghost paths: seq<RoutingPath>, ghost k: nat)
    returns (err: Option<Error>, nodeCreated': map<string, DataPathNode>, graph': seq<DataPathNode>)
    requires k < |paths| && path == paths[k] && 0 < idx < |path.upf| - 1
    requires dataEndPoint.destinationIP == path.destinationIP && dataEndPoint.destinationPort == path.destinationPort
    requires FirstMissing(ctx, Prefix(paths, k, Seen(path, idx))).None?
    requires Built(ctx, nodeCreated, graph, Dedup(Prefix(paths, k, Seen(path, idx))), Edges(paths, k) + PathEdges(path, idx))
    requires path.upf[idx] in nodeCreated && ueNode == nodeCreated[path.upf[idx]]
    modifies ueNode
    ensures var seen := Prefix(paths, k, Seen(path, idx + 1));
      && (err.Some? <==> FirstMissing(ctx, seen).Some?)
      && (err.Some? ==> err.value == UnknownNode(FirstMissing(ctx, seen).value))
      && (err.None? ==> Built(ctx, nodeCreated', graph', Dedup(seen), Edges(paths, k) + PathEdges(path, idx + 1)))
    ensures err.None? ==> forall x :: x in nodeCreated ==> x in nodeCreated' && nodeCreated'[x] == nodeCreated[x]
    ensures err.None? ==> forall x :: x in nodeCreated' && x !in nodeCreated ==> fresh(nodeCreated'[x])
  {
    var u := path.upf;
    ghost var visited, edges := Prefix(paths, k, Seen(path, idx)), Edges(paths, k) + PathEdges(path, idx);
    SeenFacts(path, idx);
    SeenFacts(path, idx + 1);
    PrefixStep(paths, k, idx + 1);
    var childName := u[idx + 1];
    var child, nc, g := LookupOrCreate(ctx, nodeCreated, graph, childName, visited, edges);
    if child.Failure? {
      return Some(child.error), nodeCreated, graph;
    }
    ghost var seen := visited + [childName];
    var parentName := u[idx - 1];
    PrefixContains(paths, k, idx + 2, idx - 1);
    var parent, nc2, g2 := LookupOrCreate(ctx, nc, g, parentName, seen, edges);
    LinkChild(ctx, ueNode, child.value, dataEndPoint, nc2, g2, Dedup(seen), edges, u[idx], childName);
    EdgesStep(paths, k, idx);
    LinkParent(ctx, ueNode, parent.value, nc2, g2, Dedup(seen), Edges(paths, k) + PathEdges(path, idx + 1), u[idx]);
    return None, nc2, g2;
  }

  lemma EdgesStep(paths: seq<RoutingPath>, k: nat, idx: nat)
    requires k < |paths| && idx + 1 < |paths[k].upf|
    ensures var p := paths[k];
      Edges(paths, k) + PathEdges(p, idx) + [Edge(p.upf[idx], p.upf[idx + 1], p.destinationIP, p.destinationPort)]
        == Edges(paths, k) + PathEdges(p, idx + 1)
  {
  }

  lemma EdgesLast(paths: seq<RoutingPath>, k: nat, idx: nat)
    requires k < |paths| && idx + 1 == |paths[k].upf|
    ensures Edges(paths, k) + PathEdges(paths[k], idx) == Edges(paths, k) + PathEdges(paths[k], idx + 1)
  {
  }

  /** Before the inner loop: nothing of path k is looked up or linked yet. */
  lemma PathStart(paths: seq<RoutingPath>, k: nat)
    requires k < |paths|
    ensures Prefix(paths, k, Seen(paths[k], 0)) == Flatten(paths, k)
    ensures Edges(paths, k) + PathEdges(paths[k], 0) == Edges(paths, k)
  {
    PrefixFacts(paths, k, 0);
  }

  /** After the inner loop: all of path k is looked up and linked. */
  lemma PathEnd(paths: seq<RoutingPath>, k: nat)
    requires k < |paths|
    ensures Prefix(paths, k, Seen(paths[k], |paths[k].upf|)) == Flatten(paths, k + 1)
    ensures Edges(paths, k) + PathEdges(paths[k], |paths[k].upf|) == Edges(paths, k + 1)
  {
    PrefixFacts(paths, k, |paths[k].upf|);
  }

  /** A name missing among those looked up in path k is the first missing one of the first k + 1 paths. */
  lemma MissingInPath(ctx: SmfContext, paths: seq<RoutingPath>, k: nat, m: nat)
    requires k < |paths| && m <= |paths[k].upf| && FirstMissing(ctx, Prefix(paths, k, m)).Some?
    ensures FirstMissing(ctx, Flatten(paths, k + 1)) == FirstMissing(ctx, Prefix(paths, k, m))
  {
    PrefixOfEnd(paths, k, m);
    FirstMissingPrefix(ctx, Prefix(paths, k, m), Flatten(paths, k + 1));
  }

  /** The builder's state once the first k routing paths are visited: all their names were found, and Built holds. */
  ghost predicate BuiltUpTo(ctx: SmfContext, paths: seq<RoutingPath>, k: nat,
                            nodeCreated: map<string, DataPathNode>, graph: seq<DataPathNode>)
    reads nodeCreated.Values
  {
    && k <= |paths|
    && FirstMissing(ctx, Flatten(paths, k)).None?
    && Built(ctx, nodeCreated, graph, Dedup(Flatten(paths, k)), Edges(paths, k))
  }

  /** The inputs on which the construction does not panic, path by path. */
  lemma NoPanicAt(ctx: SmfContext, paths: seq<RoutingPath>, k: nat)
    requires k < |paths| && NoPanic(ctx, paths)
    ensures |paths[k].upf| == 1 ==> FirstMissing(ctx, Prefix(paths, k, 1)).Some?
  {
  }

  /** A name missing among the first k paths is the first missing one of all of them. */
  lemma MissingBefore(ctx: SmfContext, paths: seq<RoutingPath>, k: nat)
    requires k <= |paths| && FirstMissing(ctx, Flatten(paths, k)).Some?
    ensures FirstMissing(ctx, Flatten(paths, |paths|)) == FirstMissing(ctx, Flatten(paths, k))
  {
    FlattenMonotone(paths, k, |paths|);
    FirstMissingPrefix(ctx, Flatten(paths, k), Flatten(paths, |paths|));
  }

  /** A name missing among the first one of path k is also the first missing one after iteration 0. */
  lemma FirstMissingAfterStart(ctx: SmfContext, paths: seq<RoutingPath>, k: nat)
    requires k < |paths| && 0 < |paths[k].upf| && FirstMissing(ctx, Prefix(paths, k, 1)).Some?
    ensures FirstMissing(ctx, Prefix(paths, k, Seen(paths[k], 1))) == FirstMissing(ctx, Prefix(paths, k, 1))
  {
    if 1 < |paths[k].upf| {
      PrefixMonotone(paths, k, 1, 2);
      FirstMissingPrefix(ctx, Prefix(paths, k, 1), Prefix(paths, k, 2));
    }
  }

  lemma SeenFacts(p: RoutingPath, n: nat)
    requires n < |p.upf|
    ensures n == 0 ==> Seen(p, n) == 0
    ensures 0 < n ==> Seen(p, n) == n + 1
    ensures n + 1 < |p.upf| ==> Seen(p, n + 1) == n + 2
    ensures n + 1 == |p.upf| ==> Seen(p, n + 1) == n + 1
  {
  }

  /**
   One iteration of the outer loop, lines 146-233: the endpoint of path k
   (lines 148-151), then the inner loop over its names.
   */
  method VisitPath(ctx: SmfContext, path: RoutingPath, nodeCreated: map<string, DataPathNode>, graph: seq<DataPathNode>,
                   ghost paths: seq<RoutingPath>, ghost k: nat)
    returns (err: Option<Error>, nodeCreated': map<string, DataPathNode>, graph': seq<DataPathNode>)
    requires k < |paths| && path == paths[k]
    requires |path.upf| == 1 ==> FirstMissing(ctx, Prefix(paths, k, 1)).Some?
    requires BuiltUpTo(ctx, paths, k, nodeCreated, graph)
    modifies nodeCreated.Values
    ensures && (err.Some? <==> FirstMissing(ctx, Flatten(paths, k + 1)).Some?)
      && (err.Some? ==> err.value == UnknownNode(FirstMissing(ctx, Flatten(paths, k + 1)).value))
      && (err.None? ==> BuiltUpTo(ctx, paths, k + 1, nodeCreated', graph'))
    ensures err.None? ==> forall x :: x in nodeCreated' ==> (x in nodeCreated && nodeCreated'[x] == nodeCreated[x]) || fresh(nodeCreated'[x])
  {
    var upperBound := |path.upf| - 1;
    var dataEndPoint := DataPathLink(null, path.destinationIP, path.destinationPort);
    PathStart(paths, k);
    nodeCreated', graph' := nodeCreated, graph;
    var idx := 0;
    while idx < |path.upf|
      invariant idx <= |path.upf|
      invariant FirstMissing(ctx, Prefix(paths, k, Seen(path, idx))).None?
      invariant Built(ctx, nodeCreated', graph', Dedup(Prefix(paths, k, Seen(path, idx))), Edges(paths, k) + PathEdges(path, idx))
      invariant forall x :: x in nodeCreated' ==> (x in nodeCreated && nodeCreated'[x] == nodeCreated[x]) || fresh(nodeCreated'[x])
    {
      err, nodeCreated', graph' := VisitIndex(ctx, path, idx, upperBound, dataEndPoint, nodeCreated', graph', paths, k);
      if err.Some? {
        MissingInPath(ctx, paths, k, Seen(path, idx + 1));
        return;
      }
      idx := idx + 1;
    }
    PathEnd(paths, k);
    return None, nodeCreated', graph';
  }

  /**
   The loop of lines 145-234 over the subscriber's routing paths: stops at
   the first name missing from the inventory, otherwise leaves the state
   Built for all names and pairs.
   */
  method VisitPaths(ctx: SmfContext, paths: seq<RoutingPath>)
    returns (err: Option<Error>, nodeCreated: map<string, DataPathNode>, graph: seq<DataPathNode>)
    requires NoPanic(ctx, paths)
    ensures err.Some? <==> FirstMissing(ctx, Flatten(paths, |paths|)).Some?
    ensures err.Some? ==> err.value == UnknownNode(FirstMissing(ctx, Flatten(paths, |paths|)).value)
    ensures err.None? ==> BuiltUpTo(ctx, paths, |paths|, nodeCreated, graph)
    ensures err.None? ==> forall x :: x in nodeCreated ==> fresh(nodeCreated[x])
  {
    nodeCreated, graph := map[], [];
    var k := 0;
    while k < |paths|
      invariant k <= |paths|
      invariant BuiltUpTo(ctx, paths, k, nodeCreated, graph)
      invariant forall x :: x in nodeCreated ==> fresh(nodeCreated[x])
    {
      NoPanicAt(ctx, paths, k);
      err, nodeCreated, graph := VisitPath(ctx, paths[k], nodeCreated, graph, paths, k);
      if err.Some? {
        MissingBefore(ctx, paths, k + 1);
        return;
      }
      k := k + 1;
    }
    return None, nodeCreated, graph;
  }

  /**
   NewUEDataPathGraph, lines 134-237: walk the subscriber's routing paths
   in order, creating a vertex for each name on its first mention and
   linking each name to the next one (with the path's endpoint). Fails, at
   the first name missing from the inventory, with UnknownNode; otherwise
   every vertex is as Built describes for all names and pairs.
   */
  method NewUEDataPathGraph(ctx: SmfContext, supi: string)
    returns (r: Result<UEDataPathGraph, Error>, ghost nodeOf: map<string, DataPathNode>)
    requires NoPanic(ctx, Routes(ctx, supi))
    ensures var paths := Routes(ctx, supi); var all := Flatten(paths, |paths|);
      && (r.Failure? <==> FirstMissing(ctx, all).Some?)
      && (r.Failure? ==> r.error == UnknownNode(FirstMissing(ctx, all).value))
      && (r.Success? ==> r.value.supi == supi && Built(ctx, nodeOf, r.value.graph, Dedup(all), Edges(paths, |paths|)))
    ensures r.Success? ==> forall x :: x in nodeOf ==> fresh(nodeOf[x])
  {
    var err, nodeCreated, graph := VisitPaths(ctx, Routes(ctx, supi));
    if err.Some? {
      return Failure(err.value), nodeCreated;
    }
    return Success(UEDataPathGraph(supi, graph)), nodeCreated;
  }
}
