/**
 A built graph in which a vertex with two children is never flagged. For
 the routing paths [C, D], [A, C] and [A, D] the vertex of A is created
 last, so no search starts from it (smf_context/ue_datapath.go, lines
 260 and 309), and no link leads to it, since A only begins paths and
 AddParent never sets a parent link. So FindBranchingPoints never dequeues
 it and leaves its flag clear, although it has two children.
 */
module UnreachedVertex {
  import opened Wrappers
  import opened DataPath
  import opened GraphSpec
  import opened GraphProperties
  import opened GraphBuilder
  import opened GraphTheorems
  import opened Branching

  /** The routing paths of the subscriber "imsi-1". */
  function Paths(): seq<RoutingPath> {
    [RoutingPath(["C", "D"], "10.60.0.1", 8080),
     RoutingPath(["A", "C"], "10.60.0.1", 8080),
     RoutingPath(["A", "D"], "10.60.0.2", 8080)]
  }

  /** Three configured nodes whose NodeIDs are their own IPs, each with an id of its own. */
  function Context(): SmfContext {
    SmfContext(map["A" := UPF("10.0.0.1"), "C" := UPF("10.0.0.3"), "D" := UPF("10.0.0.4")],
               map["10.0.0.1" := "upf-a", "10.0.0.3" := "upf-c", "10.0.0.4" := "upf-d"],
               map["imsi-1" := Paths()],
               (nodeID: string) => nodeID)
  }

  // ---------------------------------------------------------------------
  // The reference definitions, evaluated on the example

  /** The names the construction looks up, in order. */
  lemma ExampleFlatten()
    ensures Flatten(Paths(), 3) == ["C", "D", "A", "C", "A", "D"]
  {
    var paths := Paths();
    assert Flatten(paths, 1) == ["C", "D"];
    assert Flatten(paths, 2) == ["C", "D"] + ["A", "C"];
    assert Flatten(paths, 3) == ["C", "D", "A", "C"] + ["A", "D"];
  }

  /** The vertices are created for C, D and A, in that order. */
  lemma ExampleNames()
    ensures Dedup(Flatten(Paths(), 3)) == ["C", "D", "A"]
  {
    ExampleFlatten();
    var all := Flatten(Paths(), 3);
    DedupPrefix(all);
    DedupStep(all, 3, ["C", "D", "A"]);
    DedupStep(all, 4, ["C", "D", "A"]);
    DedupStep(all, 5, ["C", "D", "A"]);
    assert all[..6] == all;
  }

  lemma DedupPrefix(all: seq<string>)
    requires |all| >= 3 && all[0] == "C" && all[1] == "D" && all[2] == "A"
    ensures Dedup(all[..3]) == ["C", "D", "A"]
  {
    assert all[..1][..0] == [];
    assert Dedup(all[..1]) == ["C"];
    assert all[..2][..1] == all[..1];
    assert Dedup(all[..2]) == ["C"] + ["D"];
    assert all[..3][..2] == all[..2];
    assert Dedup(all[..3]) == ["C", "D"] + ["A"];
  }

  /** A name already created adds no vertex. */
  lemma DedupStep(all: seq<string>, n: nat, d: seq<string>)
    requires n < |all| && Dedup(all[..n]) == d && all[n] in d
    ensures Dedup(all[..n + 1]) == d
  {
    assert all[..n + 1][..n] == all[..n];
  }

  /** The adjacent pairs the construction links. */
  lemma ExampleEdges()
    ensures Edges(Paths(), 3) == [Edge("C", "D", "10.60.0.1", 8080), Edge("A", "C", "10.60.0.1", 8080), Edge("A", "D", "10.60.0.2", 8080)]
  {
    var paths := Paths();
    assert PathEdges(paths[0], 2) == [Edge("C", "D", "10.60.0.1", 8080)];
    assert PathEdges(paths[1], 2) == [Edge("A", "C", "10.60.0.1", 8080)];
    assert PathEdges(paths[2], 2) == [Edge("A", "D", "10.60.0.2", 8080)];
  }

  /** A gets children under the ids of C and D. */
  lemma ExampleLinks()
    ensures LinksOf(Context(), Edges(Paths(), 3), "A").Keys == {"upf-c", "upf-d"}
  {
    ExampleEdges();
    var ctx := Context();
    var e := Edges(Paths(), 3);
    assert e[..0] == [];
    assert e[..1][..0] == [];
    assert e[..2][..1] == e[..1];
    assert e[..3][..2] == e[..2];
    assert e[..3] == e;
    assert Resolves(ctx, "C") && IdOf(ctx, "C") == "upf-c";
    assert Resolves(ctx, "D") && IdOf(ctx, "D") == "upf-d";
    assert LinksOf(ctx, e[..1], "A") == map[];
    assert LinksOf(ctx, e[..2], "A").Keys == {"upf-c"};
  }

  /** A only begins paths. */
  lemma NeverFollows()
    ensures var paths := Paths(); forall k, i :: 0 <= k < |paths| && 0 < i < |paths[k].upf| ==> paths[k].upf[i] != "A"
  {
    var paths := Paths();
    assert |paths| == 3 && |paths[0].upf| == 2 && |paths[1].upf| == 2 && |paths[2].upf| == 2;
    assert paths[0].upf[1] == "D" && paths[1].upf[1] == "C" && paths[2].upf[1] == "D";
  }

  /** What the builder and the search are given, and what the reference definitions make of it; A never follows another name. */
  lemma ExampleFacts()
    ensures var ctx, paths := Context(), Paths(); var all := Flatten(paths, |paths|);
      && Routes(ctx, "imsi-1") == paths && NoPanic(ctx, paths) && FirstMissing(ctx, all).None?
      && Dedup(all) == ["C", "D", "A"]
      && |LinksOf(ctx, Edges(paths, |paths|), "A").Keys| == 2
      && forall k, i :: 0 <= k < |paths| && 0 < i < |paths[k].upf| ==> paths[k].upf[i] != "A"
  {
    ExampleFlatten();
    ExampleNames();
    ExampleLinks();
    NeverFollows();
    FirstMissingSpec(Context(), Flatten(Paths(), 3));
  }

  /** A built vertex has as many neighbours as LinksOf gives it children. */
  lemma ConcreteDegree(v: DataPathNode, nodeOf: map<string, DataPathNode>, m: map<string, AbsLink>)
    requires forall id :: id in m ==> m[id].to in nodeOf
    requires v.next == Concrete(nodeOf, m) && v.prev == None
    ensures Degree(v) == |m.Keys|
  {
    assert v.next.Keys == m.Keys;
  }

  /** The built graph of the example: the vertex of A is last, has two children, and no link leads to it. */
  lemma ExampleGraph(nodeOf: map<string, DataPathNode>, graph: seq<DataPathNode>)
    requires Built(Context(), nodeOf, graph, Dedup(Flatten(Paths(), 3)), Edges(Paths(), 3))
    ensures |graph| == 3 && graph[2] == nodeOf["A"] && forall n :: n in graph ==> n in nodeOf.Values
    ensures Degree(graph[2]) == 2 && !graph[2].isBranchingPoint
    ensures graph[2] !in Starts(graph, StartBound(|graph|)) && graph[2] !in Targets(graph)
    ensures WellFormed(Context(), graph)
  {
    var ctx, paths := Context(), Paths();
    ExampleFacts();
    var edges := Edges(paths, |paths|);
    GraphShape(ctx, paths, nodeOf, graph);
    var a := graph[2];
    assert a == nodeOf["A"] && VertexBuilt(ctx, nodeOf, edges, "A");
    ConcreteDegree(a, nodeOf, LinksOf(ctx, edges, "A"));
    forall t | t in Targets(graph) ensures t != a {
      BuiltTargets(ctx, paths, nodeOf, graph, t);
    }
    BuiltWellFormed(ctx, nodeOf, graph, Dedup(Flatten(paths, 3)), edges);
  }

  // ---------------------------------------------------------------------
  // Building and classifying the example

  /**
   Builds the graph of "imsi-1" and classifies it: the vertex of A has two
   neighbours and is still not a branching point.
   */
  method UnflaggedBranchingVertex() returns (g: UEDataPathGraph, a: DataPathNode)
    ensures a in g.graph && Degree(a) == 2 && !a.isBranchingPoint
  {
    ExampleFacts();
    var r, nodeOf := NewUEDataPathGraph(Context(), "imsi-1");
    g := r.value;
    ExampleGraph(nodeOf, g.graph);
    a := g.graph[2];
    ghost var colors := FindBranchingPoints(Context(), g);
  }
}
