/**
 FindBranchingPoints (smf_context/ue_datapath.go, lines 239-312): a
 breadth-first search over the Next and Prev links of a subscriber's
 graph that flags every dequeued vertex with at least two neighbours not
 yet finished. Modelled as written: the colour map is keyed by node id
 (a missing key reads WHITE, Go's zero value), only the id of each
 component's start vertex is ever turned BLACK, the start index lags the
 loop counter, and the channel is a sequence whose capacity is the
 number of vertices.
 */
module Branching {
  import opened Wrappers
  import opened DataPath
  import opened GraphSpec
  import opened GraphLinks
  import opened GraphBuilder

  const WHITE: int := 0
  const GREY: int := 1
  const BLACK: int := 2

  /** `node_id, _ := node.GetUPFID()`: the id, or "" when the node's IP is unknown. */
  function NodeId(ctx: SmfContext, n: DataPathNode): string {
    var r := n.GetUPFID(ctx);
    if r.Success? then r.value else ""
  }

  /** `color[id]`: a missing key reads WHITE. */
  function ColorOf(color: map<string, int>, id: string): int {
    if id in color then color[id] else WHITE
  }

  /**
   The id the search gives a vertex is the id its name has in the
   reference definitions; every vertex whose IP is unknown gets the same
   id "".
   */
  lemma NodeIdOf(ctx: SmfContext, name: string, n: DataPathNode)
    requires name in ctx.upNodes && n.upf == ctx.upNodes[name]
    ensures NodeId(ctx, n) == IdOf(ctx, name)
    ensures n.GetUPFID(ctx).Failure? <==> NodeId(ctx, n) == "" && !Resolves(ctx, name)
  {
  }

  /** The colour map reads as a Go map of ints: a key never written reads WHITE, a written key reads back what was written. */
  lemma ColorOfSpec(color: map<string, int>, id: string, c: int, id': string)
    ensures ColorOf(map[], id) == WHITE
    ensures ColorOf(color[id := c], id') == if id' == id then c else ColorOf(color, id')
  {
  }

  /** The ids of the vertices. */
  ghost function Ids(ctx: SmfContext, graph: seq<DataPathNode>): set<string> {
    set i | 0 <= i < |graph| :: NodeId(ctx, graph[i])
  }

  /** The ids of the vertices no longer WHITE. */
  ghost function NonWhite(color: map<string, int>, ids: set<string>): set<string> {
    set id | id in ids && ColorOf(color, id) != WHITE
  }

  /** Neighbours a vertex can contribute to branchingCount: its children and its parent, if any. */
  function Degree(n: DataPathNode): nat
    reads n`next, n`prev
  {
    |n.next| + if n.prev.Some? then 1 else 0
  }

  /**
   What the search needs of the graph: every child link and parent link
   leads to a vertex of the graph, and every child is keyed by the id of
   a vertex.
   */
  ghost predicate WellFormed(ctx: SmfContext, graph: seq<DataPathNode>)
    reads (set n | n in graph)`next, (set n | n in graph)`prev
  {
    AllLinksOk(ctx, graph, Ids(ctx, graph))
  }

  ghost predicate AllLinksOk(ctx: SmfContext, graph: seq<DataPathNode>, ids: set<string>)
    reads (set n | n in graph)`next, (set n | n in graph)`prev
  {
    forall n :: n in graph ==> LinksOk(ctx, graph, ids, n.next, n.prev)
  }

  /** The links of one vertex lead to vertices of the graph, and its children are keyed by ids of vertices. */
  ghost predicate LinksOk(ctx: SmfContext, graph: seq<DataPathNode>, ids: set<string>,
                          next: map<string, DataPathLink>, prev: Option<DataPathLink>)
  {
    && ChildLinksOk(graph, ids, next)
    && (prev.Some? ==> prev.value.to != null && prev.value.to in graph && NodeId(ctx, prev.value.to) in ids)
  }

  ghost predicate ChildLinksOk(graph: seq<DataPathNode>, ids: set<string>, next: map<string, DataPathLink>) {
    forall id :: id in next ==> next[id].to != null && next[id].to in graph && id in ids
  }

  /** The vertices the links of one vertex lead to: its children and its parent, if any. */
  ghost function Neighbours(next: map<string, DataPathLink>, prev: Option<DataPathLink>): set<DataPathNode?> {
    (set id | id in next :: next[id].to) + if prev.Some? then {prev.value.to} else {}
  }

  /** The vertices some link of the graph leads to. */
  ghost function Targets(graph: seq<DataPathNode>): set<DataPathNode?>
    reads (set n | n in graph)`next, (set n | n in graph)`prev
  {
    set m, t | m in graph && t in Neighbours(m.next, m.prev) :: t
  }

  /** Every link of the graph leads to a vertex of `entered`. */
  ghost predicate Closed(graph: seq<DataPathNode>, entered: set<DataPathNode?>)
    reads (set n | n in graph)`next, (set n | n in graph)`prev
  {
    forall m :: m in graph ==> Neighbours(m.next, m.prev) <= entered
  }

  /** The targets of the links are closed under the links. */
  lemma TargetsClosed(graph: seq<DataPathNode>)
    ensures Closed(graph, Targets(graph))
  {
    forall m, t | m in graph && t in Neighbours(m.next, m.prev) ensures t in Targets(graph) {
    }
  }

  /**
   Against a snapshot flags0 of the flags: no flag was cleared, and every
   flag set since marks a vertex of `entered` with at least two neighbours.
   */
  ghost predicate FlagsFrom(graph: seq<DataPathNode>, flags0: map<DataPathNode, bool>, entered: set<DataPathNode?>)
    reads (set n | n in graph)`isBranchingPoint, (set n | n in graph)`next, (set n | n in graph)`prev
  {
    forall n :: n in graph ==>
      && n in flags0 && (flags0[n] ==> n.isBranchingPoint)
      && (n.isBranchingPoint && !flags0[n] ==> Degree(n) >= 2 && n in entered)
  }

  /** The queue only grows, by vertices of the graph. */
  ghost predicate Extended(graph: seq<DataPathNode>, queue: seq<DataPathNode>, queue': seq<DataPathNode>) {
    |queue| <= |queue'| && queue'[..|queue|] == queue && forall i :: |queue| <= i < |queue'| ==> queue'[i] in graph
  }

  /** An id a dequeued vertex counts: WHITE or GREY. */
  predicate IsLive(color: map<string, int>, id: string) {
    ColorOf(color, id) == WHITE || ColorOf(color, id) == GREY
  }

  /** The ids among `keys` that a dequeued vertex counts. */
  ghost function Live(color: map<string, int>, keys: set<string>): set<string> {
    set id | id in keys && IsLive(color, id)
  }

  /** 1 when the vertex has a parent whose id is counted. */
  ghost function ParentCount(ctx: SmfContext, color: map<string, int>, prev: Option<DataPathLink>): nat {
    if prev.Some? && prev.value.to != null && IsLive(color, NodeId(ctx, prev.value.to)) then 1 else 0
  }

  /** branchingCount of a vertex dequeued while the colours are `color`. */
  ghost function BranchingCount(ctx: SmfContext, color: map<string, int>,
                                next: map<string, DataPathLink>, prev: Option<DataPathLink>): nat {
    |Live(color, next.Keys)| + ParentCount(ctx, color, prev)
  }

  /** Every queued vertex is a vertex of the graph. */
  ghost predicate InGraph(graph: seq<DataPathNode>, queue: seq<DataPathNode>) {
    forall i :: 0 <= i < |queue| ==> queue[i] in graph
  }

  /** The colour of id once the children in done have been visited. */
  ghost function GreyedIn(color: map<string, int>, done: set<string>, id: string): int {
    if id in done && ColorOf(color, id) == WHITE then GREY else ColorOf(color, id)
  }

  /** No colour goes back: only WHITE ids change, and only to GREY. */
  ghost predicate Greyed(color: map<string, int>, color': map<string, int>) {
    forall id :: ColorOf(color', id) != ColorOf(color, id) ==> ColorOf(color, id) == WHITE && ColorOf(color', id) == GREY
  }

  // ---------------------------------------------------------------------
  // Counting

  /** There are no more distinct ids than vertices. */
  lemma {:induction false} IdsBound(ctx: SmfContext, graph: seq<DataPathNode>)
    ensures |Ids(ctx, graph)| <= |graph|
  {
    if graph != [] {
      var n := |graph| - 1;
      IdsBound(ctx, graph[..n]);
      assert graph == graph[..n] + [graph[n]];
      IdsSnoc(ctx, graph[..n], graph[n]);
    }
  }

  lemma IdsSnoc(ctx: SmfContext, graph: seq<DataPathNode>, n: DataPathNode)
    ensures Ids(ctx, graph + [n]) == Ids(ctx, graph) + {NodeId(ctx, n)}
  {
    var s := graph + [n];
    forall id | id in Ids(ctx, s) ensures id in Ids(ctx, graph) + {NodeId(ctx, n)} {
      var i :| 0 <= i < |s| && NodeId(ctx, s[i]) == id;
      if i < |graph| {
        assert s[i] == graph[i];
      }
    }
    forall id | id in Ids(ctx, graph) ensures id in Ids(ctx, s) {
      var i :| 0 <= i < |graph| && NodeId(ctx, graph[i]) == id;
      assert s[i] == graph[i];
    }
    assert NodeId(ctx, s[|graph|]) == NodeId(ctx, n);
  }

  lemma SubsetCard<T>(a: set<T>, b: set<T>)
    requires a <= b
    ensures |a| <= |b|
  {
    assert b == a + (b - a);
  }

  lemma VertexId(ctx: SmfContext, graph: seq<DataPathNode>, n: DataPathNode)
    requires n in graph
    ensures NodeId(ctx, n) in Ids(ctx, graph)
  {
    var i :| 0 <= i < |graph| && graph[i] == n;
  }

  /** Visiting one more child greys it if it was WHITE. */
  lemma GreyedInStep(color: map<string, int>, c: map<string, int>, done: set<string>, x: string)
    requires x !in done && forall id :: ColorOf(c, id) == GreyedIn(color, done, id)
    ensures ColorOf(c, x) == ColorOf(color, x)
    ensures var c' := if ColorOf(c, x) == WHITE then c[x := GREY] else c;
      forall id :: ColorOf(c', id) == GreyedIn(color, done + {x}, id)
  {
    assert ColorOf(c, x) == GreyedIn(color, done, x);
    var c' := if ColorOf(c, x) == WHITE then c[x := GREY] else c;
    forall id ensures ColorOf(c', id) == GreyedIn(color, done + {x}, id) {
      assert ColorOf(c, id) == GreyedIn(color, done, id);
    }
  }

  lemma GreyedInGreyed(color: map<string, int>, c: map<string, int>, done: set<string>)
    requires forall id :: ColorOf(c, id) == GreyedIn(color, done, id)
    ensures Greyed(color, c)
  {
  }

  lemma GreyedTrans(c0: map<string, int>, c1: map<string, int>, c2: map<string, int>)
    requires Greyed(c0, c1) && Greyed(c1, c2)
    ensures Greyed(c0, c2)
  {
  }

  lemma ExtendedStep(graph: seq<DataPathNode>, q0: seq<DataPathNode>, q1: seq<DataPathNode>, q2: seq<DataPathNode>, to: DataPathNode?)
    requires Extended(graph, q0, q1) && (q2 == q1 || (q2 == q1 + [to] && to in graph))
    ensures Extended(graph, q0, q2)
  {
    assert q2[..|q1|] == q1;
  }

  /** Appending a vertex of `targets` keeps every vertex added since q0 in `targets`. */
  lemma QueueStep(graph: seq<DataPathNode>, q0: seq<DataPathNode>, q1: seq<DataPathNode>, q2: seq<DataPathNode>,
                  to: DataPathNode, targets: set<DataPathNode?>)
    requires Extended(graph, q0, q1) && forall i :: |q0| <= i < |q1| ==> q1[i] in targets
    requires q2 == q1 || (q2 == q1 + [to] && to in graph && to in targets)
    ensures Extended(graph, q0, q2) && forall i :: |q0| <= i < |q2| ==> q2[i] in targets
  {
    ExtendedStep(graph, q0, q1, q2, to);
  }

  /** Appending to a queue keeps every vertex already added since q0. */
  lemma AddedKept(q0: seq<DataPathNode>, q1: seq<DataPathNode>, q2: seq<DataPathNode>, t: DataPathNode?)
    requires |q0| <= |q1| <= |q2| && q2[..|q1|] == q1 && t in q1[|q0|..]
    ensures t in q2[|q0|..]
  {
    assert q2[|q0|..] == q1[|q0|..] + q2[|q1|..];
  }

  lemma ExtendedRefl(graph: seq<DataPathNode>, q: seq<DataPathNode>)
    ensures Extended(graph, q, q)
  {
    assert q[..|q|] == q;
  }

  lemma ExtendedTrans(graph: seq<DataPathNode>, q0: seq<DataPathNode>, q1: seq<DataPathNode>, q2: seq<DataPathNode>)
    requires Extended(graph, q0, q1) && Extended(graph, q1, q2)
    ensures Extended(graph, q0, q2)
  {
    assert q2[..|q1|][..|q0|] == q2[..|q0|];
  }

  lemma ExtendedInGraph(graph: seq<DataPathNode>, queue: seq<DataPathNode>, queue': seq<DataPathNode>)
    requires InGraph(graph, queue) && |queue| > 0 && Extended(graph, queue[1..], queue')
    ensures InGraph(graph, queue')
  {
    forall i | 0 <= i < |queue'| ensures queue'[i] in graph {
      if i < |queue| - 1 {
        assert queue'[i] == queue'[..|queue| - 1][i] == queue[1..][i];
      }
    }
  }

  /** After one dequeue, the queue still holds only vertices of `entered`. */
  lemma QueueEntered(graph: seq<DataPathNode>, node: DataPathNode, queue0: seq<DataPathNode>, queue: seq<DataPathNode>,
                     entered: set<DataPathNode?>)
    requires |queue0| > 0 && queue0[0] == node && node in graph
    requires forall i :: 0 <= i < |queue0| ==> queue0[i] in entered
    requires Closed(graph, entered) && Extended(graph, queue0[1..], queue)
    requires forall i :: |queue0| - 1 <= i < |queue| ==> queue[i] in Neighbours(node.next, node.prev)
    ensures forall i :: 0 <= i < |queue| ==> queue[i] in entered
  {
    forall i | 0 <= i < |queue| ensures queue[i] in entered {
      if i < |queue0| - 1 {
        assert queue[i] == queue[..|queue0| - 1][i] == queue0[i + 1];
      } else {
        assert queue[i] in Neighbours(node.next, node.prev);
      }
    }
  }

  /** Greying keeps every id counted or not counted as it was. */
  lemma ParentCountGreyed(ctx: SmfContext, c0: map<string, int>, c1: map<string, int>, prev: Option<DataPathLink>)
    requires Greyed(c0, c1)
    ensures ParentCount(ctx, c1, prev) == ParentCount(ctx, c0, prev)
  {
  }

  /** No more neighbours are counted than a vertex has. */
  lemma BranchingCountBound(ctx: SmfContext, color: map<string, int>, next: map<string, DataPathLink>, prev: Option<DataPathLink>)
    ensures BranchingCount(ctx, color, next, prev) <= |next| + if prev.Some? then 1 else 0
  {
    SubsetCard(Live(color, next.Keys), next.Keys);
  }

  lemma NonWhiteBound(color: map<string, int>, ids: set<string>)
    ensures |NonWhite(color, ids)| <= |ids|
  {
    SubsetCard(NonWhite(color, ids), ids);
  }

  lemma LiveStep(color: map<string, int>, done: set<string>, x: string)
    requires x !in done
    ensures |Live(color, done + {x})| == |Live(color, done)| + if IsLive(color, x) then 1 else 0
  {
    if IsLive(color, x) {
      assert Live(color, done + {x}) == Live(color, done) + {x};
    } else {
      assert Live(color, done + {x}) == Live(color, done);
    }
  }

  /** Turning a WHITE id of the graph GREY adds exactly that id to the non-WHITE ones. */
  lemma Recolor(color: map<string, int>, ids: set<string>, id: string)
    requires id in ids && ColorOf(color, id) == WHITE
    ensures id !in NonWhite(color, ids)
    ensures NonWhite(color[id := GREY], ids) == NonWhite(color, ids) + {id}
    ensures |NonWhite(color, ids)| < |ids|
  {
    SubsetCard(NonWhite(color, ids) + {id}, ids);
  }

  /** Recolouring an id that is not WHITE leaves the non-WHITE ids as they are. */
  lemma RecolorNonWhite(color: map<string, int>, ids: set<string>, id: string, c: int)
    requires ColorOf(color, id) != WHITE && c != WHITE
    ensures NonWhite(color[id := c], ids) == NonWhite(color, ids)
  {
  }

  lemma GreyedNonWhite(color: map<string, int>, color': map<string, int>, ids: set<string>)
    requires Greyed(color, color')
    ensures NonWhite(color, ids) <= NonWhite(color', ids)
  {
    forall id | id in NonWhite(color, ids) ensures id in NonWhite(color', ids) {
      assert ColorOf(color', id) == ColorOf(color, id);
    }
  }

  // ---------------------------------------------------------------------
  // The search

  /**
   One neighbour of a dequeued vertex (lines 274-282 for a child, 290-298
   for the parent): a WHITE id turns GREY and its vertex is enqueued; the
   neighbour is counted when its id was WHITE or GREY.
   */
  method VisitNeighbour(ctx: SmfContext, graph: seq<DataPathNode>, numOfNodes: int, id: string, to: DataPathNode,
                        color: map<string, int>, queue: seq<DataPathNode>, ghost ids: set<string>)
    returns (color': map<string, int>, queue': seq<DataPathNode>, counted: bool)
    requires |ids| <= numOfNodes && id in ids && to in graph
    requires |queue| <= |NonWhite(color, ids)|
    ensures counted <==> IsLive(color, id)
    ensures color' == if ColorOf(color, id) == WHITE then color[id := GREY] else color
    ensures queue' == if ColorOf(color, id) == WHITE then queue + [to] else queue
    ensures |queue'| - |NonWhite(color', ids)| == |queue| - |NonWhite(color, ids)|
  {
    color', queue' := color, queue;
    if ColorOf(color, id) == WHITE {
      Recolor(color, ids, id);
      assert |queue| < numOfNodes;
      color' := color[id := GREY];
      queue' := queue + [to];
    }
    counted := ColorOf(color', id) == WHITE || ColorOf(color', id) == GREY;
  }

  /** The children a dequeued vertex enqueues: the targets of the children whose ids are WHITE. */
  ghost function WhiteTargets(color: map<string, int>, next: map<string, DataPathLink>): set<DataPathNode?> {
    set id | id in next && ColorOf(color, id) == WHITE :: next[id].to
  }

  /**
   Whether a dequeued vertex enqueues its parent: the parent's id is WHITE
   and no child's id turned it GREY first.
   */
  ghost predicate ParentWhite(ctx: SmfContext, color: map<string, int>, next: map<string, DataPathLink>,
                              prev: Option<DataPathLink>)
  {
    && prev.Some? && prev.value.to != null
    && NodeId(ctx, prev.value.to) !in next && ColorOf(color, NodeId(ctx, prev.value.to)) == WHITE
  }

  /** The vertices a dequeued vertex enqueues, against the colours at dequeue. */
  ghost function Enqueued(ctx: SmfContext, color: map<string, int>, next: map<string, DataPathLink>,
                          prev: Option<DataPathLink>): set<DataPathNode?>
  {
    WhiteTargets(color, next) + if ParentWhite(ctx, color, next, prev) then {prev.value.to} else {}
  }

  /** The ids a dequeued vertex looks at: its children's keys and its parent's id. */
  ghost function NeighbourIds(ctx: SmfContext, next: map<string, DataPathLink>, prev: Option<DataPathLink>): set<string> {
    next.Keys + if prev.Some? && prev.value.to != null then {NodeId(ctx, prev.value.to)} else {}
  }

  /**
   The state of the loop over the children once the keys not in `keys`
   have been visited, starting from colours color0 and queue queue0.
   */
  ghost predicate ChildrenVisited(graph: seq<DataPathNode>, ids: set<string>, next: map<string, DataPathLink>,
                                  color0: map<string, int>, queue0: seq<DataPathNode>,
                                  keys: set<string>, color: map<string, int>, queue: seq<DataPathNode>, count: nat)
  {
    && keys <= next.Keys
    && (forall id :: ColorOf(color, id) == GreyedIn(color0, next.Keys - keys, id))
    && count == |Live(color0, next.Keys - keys)|
    && Extended(graph, queue0, queue)
    && (forall i :: |queue0| <= i < |queue| ==> queue[i] in WhiteTargets(color0, next))
    && (forall id :: id in next && id !in keys && ColorOf(color0, id) == WHITE ==> next[id].to in queue[|queue0|..])
    && |queue| - |NonWhite(color, ids)| == |queue0| - |NonWhite(color0, ids)|
  }

  /** One iteration of the range over the children (lines 274-282), for a child not yet visited. */
  method VisitChild(ctx: SmfContext, graph: seq<DataPathNode>, numOfNodes: int, next: map<string, DataPathLink>,
                    ghost color0: map<string, int>, ghost queue0: seq<DataPathNode>, ghost ids: set<string>,
                    keys: set<string>, color: map<string, int>, queue: seq<DataPathNode>, count: nat)
    returns (keys': set<string>, color': map<string, int>, queue': seq<DataPathNode>, count': nat)
    requires ChildLinksOk(graph, ids, next) && |ids| <= numOfNodes && |queue0| <= |NonWhite(color0, ids)|
    requires ChildrenVisited(graph, ids, next, color0, queue0, keys, color, queue, count) && keys != {}
    ensures ChildrenVisited(graph, ids, next, color0, queue0, keys', color', queue', count') && |keys'| < |keys|
  {
    var childId :| childId in keys;
    keys' := keys - {childId};
    ghost var done := next.Keys - keys;
    assert next.Keys - keys' == done + {childId};
    LiveStep(color0, done, childId);
    GreyedInStep(color0, color, done, childId);
    var childLink := next[childId];
    var counted;
    color', queue', counted := VisitNeighbour(ctx, graph, numOfNodes, childId, childLink.to, color, queue, ids);
    QueueStep(graph, queue0, queue, queue', childLink.to, WhiteTargets(color0, next));
    ChildEnqueued(next, color0, queue0, queue, queue', keys, childId);
    count' := if counted then count + 1 else count;
  }

  /** After visiting one more child, the target of every WHITE child visited so far is enqueued. */
  lemma ChildEnqueued(next: map<string, DataPathLink>, color0: map<string, int>, queue0: seq<DataPathNode>,
                      queue: seq<DataPathNode>, queue': seq<DataPathNode>, keys: set<string>, childId: string)
    requires childId in keys && childId in next && |queue0| <= |queue|
    requires forall id :: id in next && id !in keys && ColorOf(color0, id) == WHITE ==> next[id].to in queue[|queue0|..]
    requires queue' == queue || queue' == queue + [next[childId].to]
    requires ColorOf(color0, childId) == WHITE ==> queue' == queue + [next[childId].to]
    ensures forall id :: id in next && id !in keys - {childId} && ColorOf(color0, id) == WHITE ==> next[id].to in queue'[|queue0|..]
  {
    assert queue'[..|queue|] == queue;
    forall id | id in next && id !in keys - {childId} && ColorOf(color0, id) == WHITE ensures next[id].to in queue'[|queue0|..] {
      if id == childId {
        assert queue'[|queue|] == next[id].to;
        assert queue'[|queue0|..][|queue| - |queue0|] == next[id].to;
      } else {
        AddedKept(queue0, queue, queue', next[id].to);
      }
    }
  }

  /**
   Lines 272-283: the children of a dequeued vertex, in Go's unspecified
   map order (an arbitrary choice here). The count is of the children
   whose ids were WHITE or GREY when the vertex was dequeued, which does
   not depend on the order.
   */
  method CountChildren(ctx: SmfContext, graph: seq<DataPathNode>, numOfNodes: int, node: DataPathNode,
                       color: map<string, int>, queue: seq<DataPathNode>, ghost ids: set<string>)
    returns (color': map<string, int>, queue': seq<DataPathNode>, count: nat)
    requires ChildLinksOk(graph, ids, node.next) && |ids| <= numOfNodes
    requires |queue| <= |NonWhite(color, ids)|
    ensures Greyed(color, color')
    ensures forall id :: ColorOf(color', id) == GreyedIn(color, node.next.Keys, id)
    ensures count == |Live(color, node.next.Keys)|
    ensures Extended(graph, queue, queue')
    ensures forall id :: id in node.next && ColorOf(color, id) == WHITE ==> node.next[id].to in queue'[|queue|..]
    ensures forall i :: |queue| <= i < |queue'| ==> queue'[i] in WhiteTargets(color, node.next)
    ensures |queue'| - |NonWhite(color', ids)| == |queue| - |NonWhite(color, ids)|
  {
    color', queue', count := color, queue, 0;
    var next := node.next;
    var keys := next.Keys;
    assert next.Keys - keys == {};
    ExtendedRefl(graph, queue);
    while keys != {}
      invariant ChildrenVisited(graph, ids, next, color, queue, keys, color', queue', count)
      decreases |keys|
    {
      keys, color', queue', count := VisitChild(ctx, graph, numOfNodes, next, color, queue, ids, keys, color', queue', count);
    }
    assert next.Keys - keys == next.Keys;
    GreyedInGreyed(color, color', next.Keys);
  }

  /**
   Lines 285-299: the parent of a dequeued vertex, if it has one: turned
   GREY and enqueued when WHITE, and counted when WHITE or GREY.
   */
  method CountParent(ctx: SmfContext, graph: seq<DataPathNode>, numOfNodes: int, node: DataPathNode,
                     color: map<string, int>, queue: seq<DataPathNode>, ghost ids: set<string>)
    returns (color': map<string, int>, queue': seq<DataPathNode>, count: nat)
    requires LinksOk(ctx, graph, ids, node.next, node.prev) && |ids| <= numOfNodes
    requires |queue| <= |NonWhite(color, ids)|
    ensures Greyed(color, color')
    ensures count == ParentCount(ctx, color, node.prev)
    ensures color' == if node.prev.Some? && ColorOf(color, NodeId(ctx, node.prev.value.to)) == WHITE
                      then color[NodeId(ctx, node.prev.value.to) := GREY] else color
    ensures queue' == if node.prev.Some? && ColorOf(color, NodeId(ctx, node.prev.value.to)) == WHITE
                      then queue + [node.prev.value.to] else queue
    ensures Extended(graph, queue, queue')
    ensures |queue'| - |NonWhite(color', ids)| == |queue| - |NonWhite(color, ids)|
  {
    color', queue', count := color, queue, 0;
    if node.prev.Some? {
      var parent := node.prev.value.to;
      var parentId := NodeId(ctx, parent);
      var counted;
      color', queue', counted := VisitNeighbour(ctx, graph, numOfNodes, parentId, parent, color, queue, ids);
      ExtendedStep(graph, queue, queue, queue', parent);
      if counted {
        count := 1;
      }
    }
  }

  /** Lines 301-303: a vertex with at least two counted neighbours is a branching point. */
  method MarkBranching(ctx: SmfContext, graph: seq<DataPathNode>, ghost ids: set<string>, node: DataPathNode,
                       branchingCount: nat, ghost flags0: map<DataPathNode, bool>, ghost entered: set<DataPathNode?>)
    requires node in graph && node in entered && branchingCount <= Degree(node)
    requires AllLinksOk(ctx, graph, ids) && FlagsFrom(graph, flags0, entered)
    modifies node`isBranchingPoint
    ensures node.isBranchingPoint == (old(node.isBranchingPoint) || branchingCount >= 2)
    ensures AllLinksOk(ctx, graph, ids) && FlagsFrom(graph, flags0, entered)
  {
    if branchingCount >= 2 {
      node.isBranchingPoint := true;
    }
  }

  /**
   Lines 271-299: a dequeued vertex looks at its children, then its
   parent. Every WHITE id among them turns GREY, exactly the vertices
   `Enqueued` names are sent, and the count is that of the ids that were
   WHITE or GREY at dequeue.
   */
  method CountNeighbours(ctx: SmfContext, graph: seq<DataPathNode>, numOfNodes: int, node: DataPathNode,
                         color: map<string, int>, queue: seq<DataPathNode>, ghost ids: set<string>)
    returns (color': map<string, int>, queue': seq<DataPathNode>, count: nat)
    requires LinksOk(ctx, graph, ids, node.next, node.prev) && |ids| <= numOfNodes
    requires |queue| <= |NonWhite(color, ids)|
    ensures forall id :: ColorOf(color', id) == GreyedIn(color, NeighbourIds(ctx, node.next, node.prev), id)
    ensures NonWhite(color, ids) <= NonWhite(color', ids)
    ensures count == BranchingCount(ctx, color, node.next, node.prev)
    ensures Extended(graph, queue, queue')
    ensures forall t :: t in Enqueued(ctx, color, node.next, node.prev) ==> t in queue'[|queue|..]
    ensures forall i :: |queue| <= i < |queue'| ==> queue'[i] in Enqueued(ctx, color, node.next, node.prev)
    ensures forall i :: |queue| <= i < |queue'| ==> queue'[i] in Neighbours(node.next, node.prev)
    ensures |queue'| - |NonWhite(color', ids)| == |queue| - |NonWhite(color, ids)|
  {
    var c1, c2;
    color', queue', c1 := CountChildren(ctx, graph, numOfNodes, node, color, queue, ids);
    ghost var color1, queue1 := color', queue';
    GreyedNonWhite(color, color1, ids);
    color', queue', c2 := CountParent(ctx, graph, numOfNodes, node, color', queue', ids);
    GreyedNonWhite(color1, color', ids);
    ExtendedTrans(graph, queue, queue1, queue');
    ParentCountGreyed(ctx, color, color1, node.prev);
    NeighbourColours(ctx, node.next, node.prev, color, color1, color');
    NeighbourQueue(ctx, node.next, node.prev, color, color1, queue, queue1, queue');
    count := c1 + c2;
  }

  /**
   Lines 270-305, one iteration of the queue loop: the dequeued vertex
   counts its neighbours, is flagged when there are at least two, and the
   start vertex's id is turned BLACK.
   */
  method ProcessNode(ctx: SmfContext, graph: seq<DataPathNode>, numOfNodes: int, node: DataPathNode, nodeId: string,
                     color: map<string, int>, queue: seq<DataPathNode>, ghost ids: set<string>,
                     ghost flags0: map<DataPathNode, bool>, ghost entered: set<DataPathNode?>)
    returns (color': map<string, int>, queue': seq<DataPathNode>)
    requires |queue| > 0 && queue[0] == node && InGraph(graph, queue) && AllLinksOk(ctx, graph, ids)
    requires |ids| <= numOfNodes && |queue| <= |NonWhite(color, ids)| && ColorOf(color, nodeId) != WHITE
    requires node in entered && FlagsFrom(graph, flags0, entered)
    modifies node`isBranchingPoint
    ensures node.isBranchingPoint == (old(node.isBranchingPoint) || BranchingCount(ctx, color, node.next, node.prev) >= 2)
    ensures AllLinksOk(ctx, graph, ids) && FlagsFrom(graph, flags0, entered)
    ensures ColorOf(color', nodeId) == BLACK
    ensures forall id :: id != nodeId ==> ColorOf(color', id) == GreyedIn(color, NeighbourIds(ctx, node.next, node.prev), id)
    ensures forall id :: ColorOf(color', id) == BLACK ==> ColorOf(color, id) == BLACK || id == nodeId
    ensures NonWhite(color, ids) <= NonWhite(color', ids)
    ensures Extended(graph, queue[1..], queue') && InGraph(graph, queue')
    ensures forall t :: t in Enqueued(ctx, color, node.next, node.prev) ==> t in queue'[|queue| - 1..]
    ensures forall i :: |queue| - 1 <= i < |queue'| ==> queue'[i] in Enqueued(ctx, color, node.next, node.prev)
    ensures forall i :: |queue| - 1 <= i < |queue'| ==> queue'[i] in Neighbours(node.next, node.prev)
    ensures |queue'| - |NonWhite(color', ids)| == |queue| - 1 - |NonWhite(color, ids)|
  {
    assert LinksOk(ctx, graph, ids, node.next, node.prev);
    BranchingCountBound(ctx, color, node.next, node.prev);
    var branchingCount;
    color', queue', branchingCount := CountNeighbours(ctx, graph, numOfNodes, node, color, queue[1..], ids);
    ExtendedInGraph(graph, queue, queue');
    MarkBranching(ctx, graph, ids, node, branchingCount, flags0, entered);
    RecolorNonWhite(color', ids, nodeId, BLACK);
    color' := color'[nodeId := BLACK];
  }

  /** After the children and the parent, every id looked at that was WHITE is GREY. */
  lemma NeighbourColours(ctx: SmfContext, next: map<string, DataPathLink>, prev: Option<DataPathLink>,
                         color: map<string, int>, color1: map<string, int>, color2: map<string, int>)
    requires prev.Some? ==> prev.value.to != null
    requires forall id :: ColorOf(color1, id) == GreyedIn(color, next.Keys, id)
    requires color2 == if prev.Some? && ColorOf(color1, NodeId(ctx, prev.value.to)) == WHITE
                       then color1[NodeId(ctx, prev.value.to) := GREY] else color1
    ensures forall id :: ColorOf(color2, id) == GreyedIn(color, NeighbourIds(ctx, next, prev), id)
  {
    forall id ensures ColorOf(color2, id) == GreyedIn(color, NeighbourIds(ctx, next, prev), id) {
      assert ColorOf(color1, id) == GreyedIn(color, next.Keys, id);
    }
  }

  /** After the children and the parent, the queue has gained exactly the vertices `Enqueued` names. */
  lemma NeighbourQueue(ctx: SmfContext, next: map<string, DataPathLink>, prev: Option<DataPathLink>,
                       color: map<string, int>, color1: map<string, int>,
                       q0: seq<DataPathNode>, q1: seq<DataPathNode>, q2: seq<DataPathNode>)
    requires prev.Some? ==> prev.value.to != null
    requires |q0| <= |q1| && q1[..|q0|] == q0
    requires forall id :: id in next && ColorOf(color, id) == WHITE ==> next[id].to in q1[|q0|..]
    requires forall i :: |q0| <= i < |q1| ==> q1[i] in WhiteTargets(color, next)
    requires forall id :: ColorOf(color1, id) == GreyedIn(color, next.Keys, id)
    requires q2 == if prev.Some? && ColorOf(color1, NodeId(ctx, prev.value.to)) == WHITE
                   then q1 + [prev.value.to] else q1
    ensures forall t :: t in Enqueued(ctx, color, next, prev) ==> t in q2[|q0|..]
    ensures forall i :: |q0| <= i < |q2| ==> q2[i] in Enqueued(ctx, color, next, prev)
    ensures forall i :: |q0| <= i < |q2| ==> q2[i] in Neighbours(next, prev)
  {
    var parentWhite := ParentWhite(ctx, color, next, prev);
    if prev.Some? {
      assert ColorOf(color1, NodeId(ctx, prev.value.to)) == GreyedIn(color, next.Keys, NodeId(ctx, prev.value.to));
    }
    assert parentWhite ==> q2 == q1 + [prev.value.to];
    assert !parentWhite ==> q2 == q1;
    assert q2[..|q1|] == q1;
    forall t | t in Enqueued(ctx, color, next, prev) ensures t in q2[|q0|..] {
      if t in WhiteTargets(color, next) {
        var id :| id in next && ColorOf(color, id) == WHITE && next[id].to == t;
        AddedKept(q0, q1, q2, t);
      } else {
        assert q2[|q0|..][|q1| - |q0|] == t;
      }
    }
    forall i | |q0| <= i < |q2| ensures q2[i] in Enqueued(ctx, color, next, prev) && q2[i] in Neighbours(next, prev) {
      if i < |q1| {
        assert q2[i] == q1[i] && q1[i] in WhiteTargets(color, next);
        var id :| id in next && ColorOf(color, id) == WHITE && next[id].to == q2[i];
      }
    }
  }

  /** Lines 265-305: the search from one WHITE start vertex, until the queue is empty. */
  method ExploreComponent(ctx: SmfContext, graph: seq<DataPathNode>, numOfNodes: int, start: DataPathNode,
                          nodeId: string, color: map<string, int>, ghost ids: set<string>,
                          ghost flags0: map<DataPathNode, bool>, ghost entered: set<DataPathNode?>)
    returns (color': map<string, int>)
    requires AllLinksOk(ctx, graph, ids) && |ids| <= numOfNodes && start in graph
    requires nodeId == NodeId(ctx, start) && nodeId in ids && ColorOf(color, nodeId) == WHITE
    requires start in entered && Closed(graph, entered) && FlagsFrom(graph, flags0, entered)
    modifies (set n | n in graph)`isBranchingPoint
    ensures forall id :: ColorOf(color', id) == BLACK ==> ColorOf(color, id) == BLACK || id == nodeId
    ensures AllLinksOk(ctx, graph, ids) && FlagsFrom(graph, flags0, entered)
  {
    Recolor(color, ids, nodeId);
    color' := color[nodeId := GREY];
    assert 0 < numOfNodes;
    var queue := [start];
    while |queue| > 0
      invariant InGraph(graph, queue) && forall i :: 0 <= i < |queue| ==> queue[i] in entered
      invariant ColorOf(color', nodeId) != WHITE
      invariant |queue| <= |NonWhite(color', ids)| <= |ids|
      invariant forall id :: ColorOf(color', id) == BLACK ==> ColorOf(color, id) == BLACK || id == nodeId
      invariant AllLinksOk(ctx, graph, ids) && FlagsFrom(graph, flags0, entered) && Closed(graph, entered)
      decreases |ids| - |NonWhite(color', ids)|, |queue|
    {
      ghost var before, queue0 := color', queue;
      var node := queue[0];
      color', queue := ProcessNode(ctx, graph, numOfNodes, node, nodeId, color', queue, ids, flags0, entered);
      QueueEntered(graph, node, queue0, queue, entered);
      SubsetCard(NonWhite(before, ids), NonWhite(color', ids));
      NonWhiteBound(color', ids);
    }
  }

  /** The start index lags the loop counter, so n iterations start from at most the first StartBound(n) vertices. */
  function StartBound(n: nat): nat {
    if n <= 1 then n else n - 1
  }

  /** The first `bound` vertices, those a search may have begun at. */
  ghost function Starts(graph: seq<DataPathNode>, bound: nat): set<DataPathNode?> {
    set l | 0 <= l < bound && l < |graph| :: graph[l]
  }

  lemma StartsWider(graph: seq<DataPathNode>, bound: nat, bound': nat, curIdx: nat)
    requires bound <= bound' <= |graph| && curIdx < bound'
    ensures Starts(graph, bound) <= Starts(graph, bound') && graph[curIdx] in Starts(graph, bound')
  {
  }

  lemma FlagsFromWider(graph: seq<DataPathNode>, flags0: map<DataPathNode, bool>,
                       entered: set<DataPathNode?>, entered': set<DataPathNode?>)
    requires FlagsFrom(graph, flags0, entered) && entered <= entered'
    ensures FlagsFrom(graph, flags0, entered')
  {
  }

  /** Every BLACK id is the id of one of the first `bound` vertices. */
  ghost predicate BlackAmong(ctx: SmfContext, graph: seq<DataPathNode>, color: map<string, int>, bound: nat) {
    forall id :: ColorOf(color, id) == BLACK ==> exists l :: 0 <= l < bound && l < |graph| && NodeId(ctx, graph[l]) == id
  }

  lemma BlackAmongStep(ctx: SmfContext, graph: seq<DataPathNode>, color0: map<string, int>, color: map<string, int>,
                       bound: nat, curIdx: nat, bound': nat)
    requires BlackAmong(ctx, graph, color0, bound) && bound <= bound' && curIdx < bound' && curIdx < |graph|
    requires forall id :: ColorOf(color, id) == BLACK ==> ColorOf(color0, id) == BLACK || id == NodeId(ctx, graph[curIdx])
    ensures BlackAmong(ctx, graph, color, bound')
  {
    forall id | ColorOf(color, id) == BLACK
      ensures exists l :: 0 <= l < bound' && l < |graph| && NodeId(ctx, graph[l]) == id
    {
      if id != NodeId(ctx, graph[curIdx]) {
        var l :| 0 <= l < bound && l < |graph| && NodeId(ctx, graph[l]) == id;
      }
    }
  }

  /** Lines 262-305: a search begins at the vertex at curIdx when its id is still WHITE. */
  method SearchFrom(ctx: SmfContext, graph: seq<DataPathNode>, numOfNodes: int, curIdx: nat,
                    color: map<string, int>, ghost ids: set<string>,
                    ghost flags0: map<DataPathNode, bool>, ghost entered: set<DataPathNode?>)
    returns (color': map<string, int>)
    requires AllLinksOk(ctx, graph, ids) && |ids| <= numOfNodes && curIdx < |graph| && NodeId(ctx, graph[curIdx]) in ids
    requires graph[curIdx] in entered && Closed(graph, entered) && FlagsFrom(graph, flags0, entered)
    modifies (set n | n in graph)`isBranchingPoint
    ensures forall id :: ColorOf(color', id) == BLACK ==> ColorOf(color, id) == BLACK || id == NodeId(ctx, graph[curIdx])
    ensures ColorOf(color, NodeId(ctx, graph[curIdx])) != WHITE ==>
              color' == color && forall n :: n in graph ==> n.isBranchingPoint == old(n.isBranchingPoint)
    ensures AllLinksOk(ctx, graph, ids) && FlagsFrom(graph, flags0, entered)
  {
    var nodeId := NodeId(ctx, graph[curIdx]);
    color' := color;
    if ColorOf(color, nodeId) == WHITE {
      color' := ExploreComponent(ctx, graph, numOfNodes, graph[curIdx], nodeId, color, ids, flags0, entered);
    }
  }

  /** Lines 253-258: every vertex's id is entered as WHITE. */
  method InitColors(ctx: SmfContext, graph: seq<DataPathNode>) returns (color: map<string, int>)
    ensures color.Keys == Ids(ctx, graph)
    ensures forall id :: id in color ==> color[id] == WHITE
  {
    color := map[];
    for i := 0 to |graph|
      invariant color.Keys == Ids(ctx, graph[..i])
      invariant forall id :: id in color ==> color[id] == WHITE
    {
      IdsSnoc(ctx, graph[..i], graph[i]);
      assert graph[..i + 1] == graph[..i] + [graph[i]];
      var nodeId := NodeId(ctx, graph[i]);
      color := color[nodeId := WHITE];
    }
    assert graph[..|graph|] == graph;
  }

  /**
   Lines 260-310, the loop over j: for j = 0 .. n-1 the start index is
   0, 0, 1, ..., n-2 (cur_idx is set to j after iteration j), and a start
   vertex whose id is WHITE begins a search. So the last of two or more
   vertices never starts a search: every BLACK id is that of an earlier
   vertex, and every flag set is on a start vertex or on a link's target.
   */
  method SearchComponents(ctx: SmfContext, graph: seq<DataPathNode>, color: map<string, int>, ghost ids: set<string>,
                          ghost flags0: map<DataPathNode, bool>, ghost targets: set<DataPathNode?>)
    returns (color': map<string, int>)
    requires ids == Ids(ctx, graph) && |ids| <= |graph| && AllLinksOk(ctx, graph, ids)
    requires BlackAmong(ctx, graph, color, 0) && Closed(graph, targets) && FlagsFrom(graph, flags0, targets)
    modifies (set n | n in graph)`isBranchingPoint
    ensures BlackAmong(ctx, graph, color', StartBound(|graph|))
    ensures FlagsFrom(graph, flags0, Starts(graph, StartBound(|graph|)) + targets)
    ensures forall n :: n in graph ==> n.next == old(n.next) && n.prev == old(n.prev)
  {
    var numOfNodes := |graph|;
    color' := color;
    var curIdx := 0;
    assert Starts(graph, 0) + targets == targets;
    for j := 0 to numOfNodes
      invariant AllLinksOk(ctx, graph, ids) && Closed(graph, targets)
      invariant curIdx == if j == 0 then 0 else j - 1
      invariant BlackAmong(ctx, graph, color', StartBound(j))
      invariant FlagsFrom(graph, flags0, Starts(graph, StartBound(j)) + targets)
    {
      VertexId(ctx, graph, graph[curIdx]);
      ghost var color0 := color';
      ghost var entered := Starts(graph, StartBound(j + 1)) + targets;
      StartsWider(graph, StartBound(j), StartBound(j + 1), curIdx);
      FlagsFromWider(graph, flags0, Starts(graph, StartBound(j)) + targets, entered);
      color' := SearchFrom(ctx, graph, numOfNodes, curIdx, color', ids, flags0, entered);
      BlackAmongStep(ctx, graph, color0, color', StartBound(j), curIdx, StartBound(j + 1));
      curIdx := j;
    }
  }

  /**
   FindBranchingPoints, lines 239-312: every vertex's id starts WHITE,
   then the components are searched. The final colour map is returned as
   a ghost value.
   */
  method FindBranchingPoints(ctx: SmfContext, uepg: UEDataPathGraph) returns (ghost colors: map<string, int>)
    requires WellFormed(ctx, uepg.graph)
    modifies (set n | n in uepg.graph)`isBranchingPoint
    ensures BlackAmong(ctx, uepg.graph, colors, StartBound(|uepg.graph|))
    ensures forall n :: n in uepg.graph ==> n.next == old(n.next) && n.prev == old(n.prev)
    ensures forall n :: n in uepg.graph ==> old(n.isBranchingPoint) ==> n.isBranchingPoint
    ensures forall n :: n in uepg.graph && n.isBranchingPoint && !old(n.isBranchingPoint) ==>
      Degree(n) >= 2 && (n in Starts(uepg.graph, StartBound(|uepg.graph|)) || n in old(Targets(uepg.graph)))
  {
    var graph := uepg.graph;
    ghost var targets := Targets(graph);
    TargetsClosed(graph);
    ghost var ids := Ids(ctx, graph);
    IdsBound(ctx, graph);
    var color := InitColors(ctx, graph);
    ghost var flags0 := map n | n in graph :: n.isBranchingPoint;
    color := SearchComponents(ctx, graph, color, ids, flags0, targets);
    colors := color;
  }

  // ---------------------------------------------------------------------
  // The graphs the builder makes

  lemma BuiltVertexId(ctx: SmfContext, nodeOf: map<string, DataPathNode>, graph: seq<DataPathNode>,
                      names: seq<string>, edges: seq<Edge>, y: string)
    requires Built(ctx, nodeOf, graph, names, edges) && y in nodeOf && Resolves(ctx, y)
    ensures nodeOf[y] in graph && NodeId(ctx, nodeOf[y]) == IdOf(ctx, y)
  {
    assert VertexBuilt(ctx, nodeOf, edges, y);
    var k :| 0 <= k < |names| && names[k] == y;
    assert graph[k] == nodeOf[y];
  }

  /** Every graph NewUEDataPathGraph builds meets what the search needs of it. */
  lemma BuiltWellFormed(ctx: SmfContext, nodeOf: map<string, DataPathNode>, graph: seq<DataPathNode>,
                        names: seq<string>, edges: seq<Edge>)
    requires Built(ctx, nodeOf, graph, names, edges)
    ensures WellFormed(ctx, graph)
  {
    forall n | n in graph ensures LinksOk(ctx, graph, Ids(ctx, graph), n.next, n.prev) {
      var i :| 0 <= i < |graph| && graph[i] == n;
      var x := names[i];
      assert nodeOf[x] == n && VertexBuilt(ctx, nodeOf, edges, x);
      var m := LinksOf(ctx, edges, x);
      LinksOfTargets(ctx, edges, x, nodeOf.Keys);
      forall id | id in n.next ensures n.next[id].to != null && n.next[id].to in graph && id in Ids(ctx, graph) {
        BuiltVertexId(ctx, nodeOf, graph, names, edges, m[id].to);
        VertexId(ctx, graph, nodeOf[m[id].to]);
      }
    }
  }

  /** A link of a built vertex leads to the vertex of the target of one of the edges. */
  lemma BuiltLinkTarget(ctx: SmfContext, nodeOf: map<string, DataPathNode>, edges: seq<Edge>, x: string, t: DataPathNode?)
    requires x in nodeOf && VertexBuilt(ctx, nodeOf, edges, x)
    requires forall j :: 0 <= j < |edges| ==> edges[j].to in nodeOf
    requires t in Neighbours(nodeOf[x].next, nodeOf[x].prev)
    ensures exists j :: 0 <= j < |edges| && edges[j].to in nodeOf && t == nodeOf[edges[j].to]
  {
    var tos := set j | 0 <= j < |edges| :: edges[j].to;
    LinksOfTargets(ctx, edges, x, tos);
    var lm := LinksOf(ctx, edges, x);
    var id :| id in nodeOf[x].next && nodeOf[x].next[id].to == t;
    var j :| 0 <= j < |edges| && edges[j].to == lm[id].to;
  }

  /** Every link of a built graph leads to the vertex of a name that some path has after its first position. */
  lemma BuiltTargets(ctx: SmfContext, paths: seq<RoutingPath>, nodeOf: map<string, DataPathNode>, graph: seq<DataPathNode>,
                     t: DataPathNode?)
    requires Built(ctx, nodeOf, graph, Dedup(Flatten(paths, |paths|)), Edges(paths, |paths|))
    requires t in Targets(graph)
    ensures exists k, i :: 0 <= k < |paths| && 0 < i < |paths[k].upf| && paths[k].upf[i] in nodeOf && t == nodeOf[paths[k].upf[i]]
  {
    var edges := Edges(paths, |paths|);
    var names := Dedup(Flatten(paths, |paths|));
    var m :| m in graph && t in Neighbours(m.next, m.prev);
    var l :| 0 <= l < |graph| && graph[l] == m;
    var x := names[l];
    assert nodeOf[x] == m && VertexBuilt(ctx, nodeOf, edges, x);
    BuiltLinkTarget(ctx, nodeOf, edges, x, t);
    var j :| 0 <= j < |edges| && edges[j].to in nodeOf && t == nodeOf[edges[j].to];
    EdgeTarget(paths, j);
  }
}
