# UE data-path graph of the free5GC SMF, modelled in Dafny

This project models `smf_context/ue_datapath.go` of the free5GC session
management function. That file has three parts:

- **Vertex primitives.** A vertex (`DataPathNode`) is one user-plane function
  of a subscriber's topology. `AddChild`, `AddParent` and
  `AddDestinationOfChild` edit its links in place. `GetUPFID` gives its id.
  `NewUEDataPathNode` makes a fresh vertex for a configured node name.
- **The graph builder.** `NewUEDataPathGraph` walks the subscriber's routing
  paths. It creates one vertex per node name on the name's first mention,
  linking each name to the next name of its path.
- **The branching classifier.** `FindBranchingPoints` is a colour-marking
  breadth-first search. It sets the `IsBranchingPoint` flag of some vertices.

## Modules

- **`DataPath`** (`datapath.dfy`): vertices are heap objects of the class
  `DataPathNode`, with `next`, `prev` and `isBranchingPoint` as mutable
  fields. Links (`DataPathLink`) are values.
  - The process-wide configuration is the read-only value `SmfContext`. It
    holds the node inventory (`UPNodes`), the address table (`UPFsIPtoID`)
    and the routing paths (`UERoutingPaths`).
  - Node-id resolution (`ResolveNodeIdToIp`) is a function field of
    `SmfContext` with no interpretation.
- **`GraphSpec`** (`graph_spec.dfy`): reference definitions over node names
  rather than references.
  - `Flatten`: the names visited, in order.
  - `Dedup`: those names, each kept once in first-mention order.
  - `FirstMissing`: the first name missing from the inventory.
  - `Edges`: the adjacent pairs linked, in order.
  - `LinksOf`: the children a vertex ends up with.
- **`GraphProperties`** and **`GraphLinks`** (`graph_properties.dfy`,
  `graph_links.dfy`): lemmas that characterise the reference definitions.
- **`GraphBuilder`** (`graph_builder.dfy`): the builder as imperative code
  over heap vertices. The code's loops and switch cases become methods, each
  proved against the reference definitions through the invariant `Built`.
- **`GraphTheorems`** (`graph_theorems.dfy`): what a built graph looks like,
  stated over the paths themselves.
- **`Branching`** (`branching.dfy`): the search, with its colour map and its
  queue as local state. It changes only the `isBranchingPoint` fields.
- **`UnreachedVertex`** (`unreached_vertex.dfy`): one concrete configuration,
  built and classified, in which a vertex with two children stays unflagged.

## Where the code differs from its obvious intent

The model follows the code as written.

- **`AddParent` never sets a parent link on a fresh vertex.** It replaces
  `Prev` only when `Prev` is already non-nil (line 41), and every vertex
  starts with nil `Prev` (line 101). So every built vertex has no parent
  link.
  - `GraphShape` proves this.
  - For the path A → B → C one would expect B's parent link to point to A.
    Built graphs never have that.
- **The builder discards the errors of the three primitives** (lines 184-185,
  201 and 228-230).
  - A child whose IP is unknown is silently not linked.
  - The only error `NewUEDataPathGraph` returns is an unknown node name.
- **A one-name path panics.** The `lowerBound` case reads `path.UPF[1]`
  (line 171). The requirement `NoPanic` excludes exactly the inputs that
  reach that line: a one-name path whose name, and every name before it, is
  in the inventory. This demands less of callers than forbidding one-name
  paths outright.
- **`node_id` is the start vertex's id, not the dequeued vertex's id** (lines
  263 and 304). Only start vertices' ids ever turn BLACK. Every other reached
  id stays GREY and is still counted by the vertices that see it later.
- **The last of two or more vertices never starts a search.** `cur_idx` lags
  `j`, so for n ≥ 2 vertices the start index runs 0, 0, 1, ..., n-2 (lines
  260 and 309). A graph of one vertex does start a search at it.
  - `FindBranchingPoints` proves that, in a graph of two or more vertices,
    every BLACK id belongs to one of the first n-1 vertices.
  - A vertex that no earlier start reaches is never processed. It keeps its
    flag whatever its degree. `FindBranchingPoints` proves that every flag set
    lies on a start vertex or on the target of a link.
  - `UnreachedVertex.UnflaggedBranchingVertex` builds such a vertex. For the
    paths [C, D], [A, C] and [A, D], the vertex of A is created last and no
    link leads to it. It has two children and is never flagged.
- **The flag is only ever set, never cleared** (lines 301-303).
- **Being flagged does not coincide with having at least two neighbours.**
  The evident intent is that a vertex is a branching point exactly when it
  has at least two neighbours, and the code does not guarantee it. Only one
  direction is proved: a flag that gets set marks a vertex with at least two
  neighbours. The other direction fails on the example above.

## Model

| member | source | states |
|---|---|---|
| DataPath.UPFID | smf_context/ue_datapath.go:70-81 | the id of a UPF, which `GetUPFID` gives for its vertex, is the address table's entry for the resolved IP; success exactly when that IP is in the table, otherwise an UnresolvedAddress error naming the IP |
| DataPath.DataPathNode.constructor | smf_context/ue_datapath.go:98-103 | a vertex for the given UPF with no children, no parent and the flag clear |
| DataPath.DataPathNode.AddChild | smf_context/ue_datapath.go:12-29 | unknown child IP: error and `next` unchanged; otherwise the child's id becomes a key, a new key gets a link to the child with an empty endpoint, an existing key keeps its link (so a repeated call changes nothing); `prev` and the flag untouched |
| DataPath.DataPathNode.AddParent | smf_context/ue_datapath.go:31-51 | unknown parent IP: error and `prev` unchanged; otherwise `prev` is replaced by a link to the parent only when it was already present, and a missing `prev` stays missing; `next` and the flag untouched |
| DataPath.DataPathNode.AddDestinationOfChild | smf_context/ue_datapath.go:53-68 | error exactly when the child's IP is unknown; keys and every link target unchanged; only the link under the child's id gets the endpoint's IP and port, and all other links are unchanged; a missing key is a no-op |
| DataPath.NewUEDataPathNode | smf_context/ue_datapath.go:89-105 | a name missing from the inventory gives UnknownNode(name); otherwise a fresh vertex with that name's UPF, no links and the flag clear |
| GraphSpec.FirstIndex | smf_context/ue_datapath.go:158-167 | the position of the first occurrence of a name: in range, holding the name, with no earlier occurrence |
| GraphProperties.FirstMissingSpec | smf_context/ue_datapath.go:158-164 | no name is reported missing exactly when every visited name is in the inventory; a reported name is the first one missing, and every name before it is present |
| GraphProperties.FirstMissingConcat | smf_context/ue_datapath.go:158-164 | the first missing name of a concatenation is that of the first part, if it has one, and otherwise that of the second |
| GraphProperties.DedupSpec | smf_context/ue_datapath.go:158-167 | the created-name sequence has no repeats and holds exactly the visited names |
| GraphProperties.DedupSnoc | smf_context/ue_datapath.go:158-167 | looking up one more name appends it to the created names exactly when it is new |
| GraphProperties.DedupFirstOccurrence | smf_context/ue_datapath.go:158-167 | created names are ordered by their first occurrence among the visited names |
| GraphLinks.LinksOfNoEdge | smf_context/ue_datapath.go:100 | a name no edge leaves has no children |
| GraphLinks.LinksOfKeys | smf_context/ue_datapath.go:20-26 | the child keys of x are exactly the ids of the resolvable targets of edges from x |
| GraphLinks.LinksOfTargets | smf_context/ue_datapath.go:14-25 | every child is the target of some edge, resolves, and is keyed by its own id |
| GraphLinks.LinksOfFirst | smf_context/ue_datapath.go:20-26 | the target under an id is that of the first edge from x reaching that id, because AddChild never replaces a link |
| GraphLinks.LinksOfLast | smf_context/ue_datapath.go:60-65 | the endpoint under an id is that of the last edge from x reaching that id, because AddDestinationOfChild overwrites it each time |
| GraphLinks.PathEdgesSpec | smf_context/ue_datapath.go:169-231 | the first n iterations over a path link its pairs (i, i + 1) in order, each with the path's endpoint |
| GraphLinks.EdgesAt | smf_context/ue_datapath.go:145-152 | the pair (i, i + 1) of path k sits in the linked edges right after those of the earlier paths |
| GraphLinks.EdgesCover | smf_context/ue_datapath.go:145-152 | every linked edge is the pair (i, i + 1) of some path k, with that path's endpoint, at index i after the edges of the paths before k |
| GraphLinks.EdgeTarget | smf_context/ue_datapath.go:145-152 | the target of every linked edge is a name that some path has after its first position |
| GraphLinks.EdgesOrder | smf_context/ue_datapath.go:145-152 | an edge linked earlier comes from an earlier path, or from earlier in the same path |
| GraphBuilder.LookupOrCreate | smf_context/ue_datapath.go:158-167 | a known name gives its vertex and nothing changes; a new name in the inventory is recorded and appended to Graph, keeping `Built`; a missing name is UnknownNode and is the first missing name of those visited |
| GraphBuilder.NewVertexBuilt | smf_context/ue_datapath.go:165-166 | recording a fresh vertex with no links extends `Built` by that name |
| GraphBuilder.LinkChild | smf_context/ue_datapath.go:184-185 | AddChild then AddDestinationOfChild, errors discarded, leave every vertex as `Built` says for one more edge (x, y) with the endpoint |
| GraphBuilder.LinkNext | smf_context/ue_datapath.go:184-185 | the children of x become those of `LinkStep` with the edge to y; `prev` and the flag untouched |
| GraphBuilder.LinkParent | smf_context/ue_datapath.go:201 | AddParent with its error discarded changes no vertex, since no vertex has a parent link |
| GraphBuilder.VisitIndex | smf_context/ue_datapath.go:152-233 | one inner iteration: fails exactly when the names looked up so far include a missing one, naming the first; otherwise `Built` holds for one more name and the pairs linked so far |
| GraphBuilder.VisitFirst | smf_context/ue_datapath.go:158-185 | index 0: the name is looked up or created, then linked to the next name; fails exactly when a name looked up so far is missing, naming the first; otherwise `Built` holds for the names and pairs so far |
| GraphBuilder.VisitLater | smf_context/ue_datapath.go:158-167 | a later index finds its vertex already created (it was the previous iteration's child) and dispatches on the position; same outcome as `VisitIndex` |
| GraphBuilder.VisitLower | smf_context/ue_datapath.go:170-185 | case lowerBound: the next name is looked up or created (failing with the first missing name) and linked from the first with the path's endpoint, so `Built` holds with one more pair |
| GraphBuilder.VisitUpper | smf_context/ue_datapath.go:187-201 | case upperBound: never fails; the previous name is found, AddParent changes nothing, and no vertex, name or pair is added |
| GraphBuilder.VisitDefault | smf_context/ue_datapath.go:202-230 | default case: the next name is looked up or created (failing with the first missing name) and linked with the path's endpoint, and the previous name is found; `Built` holds with one more pair |
| GraphBuilder.VisitPath | smf_context/ue_datapath.go:146-233 | one routing path: fails exactly when the names of the paths so far include a missing one, naming the first; otherwise `Built` holds for one more path; old vertices kept, new ones fresh |
| GraphBuilder.MissingBefore | smf_context/ue_datapath.go:162-163 | a name missing among the first k paths is the first missing name of all of them |
| GraphBuilder.VisitPaths | smf_context/ue_datapath.go:145-234 | the loop over the paths: fails exactly when some visited name is missing, naming the first; otherwise `Built` holds for every name and pair, and every vertex is fresh |
| GraphBuilder.NewUEDataPathGraph | smf_context/ue_datapath.go:134-237 | Failure exactly when some visited name is missing from the inventory, and then UnknownNode of the first one; on Success the graph carries the SUPI and its vertices are `Built` for every name and every adjacent pair; all vertices are fresh |
| GraphTheorems.GraphShape | smf_context/ue_datapath.go:143-167 | a built graph has one vertex per mentioned name and no other, in first-mention order, no two alike, each with its name's UPF, no parent link and the flag clear |
| GraphTheorems.PairEndpoint | smf_context/ue_datapath.go:148-151 | the pair (a, b) gives a a child under b's id, with the endpoint of its path unless a later pair from a reaches the same id |
| GraphTheorems.PairTarget | smf_context/ue_datapath.go:184 | with distinct ids, the child of a under b's id is b |
| GraphTheorems.PairLink | smf_context/ue_datapath.go:184-185 | with distinct ids, a pair (a, b) that no later pair repeats leaves a a link to b with the endpoint of the pair's path |
| GraphTheorems.GraphPairLink | smf_context/ue_datapath.go:184-185 | in a built graph with distinct ids, a's vertex has under b's id a link to b's vertex with the endpoint of the last path linking (a, b) |
| GraphTheorems.LinksFromPairs | smf_context/ue_datapath.go:184-185 | every child key of x is the id of the second name of some pair (x, b) of some path |
| GraphTheorems.GraphLinksFromPairs | smf_context/ue_datapath.go:228-229 | every child link of a built vertex comes from a pair of some path, keyed by the id of its second name |
| Branching.IdsBound | smf_context/ue_datapath.go:247-258 | there are no more distinct ids than vertices, so greying each id at most once keeps the queue within the channel's capacity |
| Branching.BranchingCountBound | smf_context/ue_datapath.go:271-299 | branchingCount never exceeds the number of children plus one for a parent |
| Branching.Recolor | smf_context/ue_datapath.go:274-277 | greying a WHITE id adds exactly that id to the non-WHITE ids, of which there are fewer than all ids |
| Branching.LiveStep | smf_context/ue_datapath.go:280-282 | one more child counts one more exactly when its id is WHITE or GREY |
| Branching.VisitNeighbour | smf_context/ue_datapath.go:274-282 | a WHITE id turns GREY and its vertex is enqueued, with the channel not full; the neighbour is counted exactly when its id was WHITE or GREY; the queue grows as the non-WHITE ids do |
| Branching.VisitChild | smf_context/ue_datapath.go:272-283 | one iteration of the range over the children keeps the loop's state and visits one more key |
| Branching.CountChildren | smf_context/ue_datapath.go:272-283 | every child id that was WHITE turns GREY and no other id changes; the target of every WHITE child is sent, and nothing else is; the count is the number of children whose ids were WHITE or GREY at dequeue, whatever the map order; the queue only grows, by vertices of the graph |
| Branching.CountNeighbours | smf_context/ue_datapath.go:271-299 | every WHITE id among the children's keys and the parent's id turns GREY and no other id changes; the queue gains exactly the targets of the WHITE children and, when its id is WHITE and no child's key, the parent; the count is that of the children and parent whose ids were WHITE or GREY at dequeue |
| Branching.CountParent | smf_context/ue_datapath.go:285-299 | a parent adds 1 exactly when its id was WHITE or GREY; a WHITE parent's id turns GREY and the parent is appended to the queue; otherwise colours and queue are unchanged; no parent changes nothing |
| Branching.MarkBranching | smf_context/ue_datapath.go:301-303 | the flag becomes true when the count is at least 2 and is otherwise left as it was |
| Branching.ProcessNode | smf_context/ue_datapath.go:270-305 | the dequeued vertex's flag is set exactly when at least two neighbours are counted (or it was set before); the start id becomes BLACK and no other id does; every other id is as `CountNeighbours` leaves it; the queue loses its head and gains exactly the vertices `Enqueued` names; links unchanged |
| Branching.ExploreComponent | smf_context/ue_datapath.go:264-305 | the search from a WHITE start turns no id BLACK but the start's; links kept; flags only set, on vertices of degree at least 2 |
| Branching.BlackAmongStep | smf_context/ue_datapath.go:304-309 | a search from index cur_idx keeps every BLACK id among the first cur_idx + 1 vertices |
| Branching.SearchFrom | smf_context/ue_datapath.go:263-306 | a start whose id is not WHITE leaves the colours and every flag unchanged; otherwise only the start's id turns BLACK; links kept; flags only set, on the start vertex or a vertex of `entered`, a set that holds every link target, and only on vertices of degree at least 2 |
| Branching.SearchComponents | smf_context/ue_datapath.go:260-310 | the loop over j: every BLACK id is that of one of the first n-1 vertices (all n when n ≤ 1); links kept; every flag set is on a vertex of degree at least 2 that is a start vertex or the target of a link |
| Branching.InitColors | smf_context/ue_datapath.go:253-258 | the colour map holds exactly the vertices' ids, all WHITE |
| Branching.FindBranchingPoints | smf_context/ue_datapath.go:239-312 | each start index passed to `SearchFrom` is in range; no link changes; no flag is cleared; a flag that is set marks a vertex with at least two neighbours; every BLACK id is that of one of the first n-1 vertices (all n when n ≤ 1); a newly set flag lies on one of those start vertices or on the target of some link |
| Branching.NodeIdOf | smf_context/ue_datapath.go:255 | the id read by `node_id, _ := node.GetUPFID()` is the name's resolved id; an unresolvable vertex reads "" |
| Branching.ColorOfSpec | smf_context/ue_datapath.go:264 | the colour map reads as a Go map: an absent id reads WHITE (the zero value), a written id reads back what was written |
| GraphTheorems.UnknownSupi | smf_context/ue_datapath.go:140 | an unknown SUPI reads as the nil slice: nothing is missing, nothing panics, no vertex is created and no pair is linked |
| Branching.BuiltTargets | smf_context/ue_datapath.go:184-185 | every link of a built graph leads to the vertex of a name that some path has after its first position |
| UnreachedVertex.ExampleGraph | smf_context/ue_datapath.go:143-233 | for the paths [C, D], [A, C], [A, D] the built graph has three vertices; the last, A's, has two children, is not a start vertex and is no link's target |
| UnreachedVertex.UnflaggedBranchingVertex | smf_context/ue_datapath.go:239-312 | after building and classifying that graph, a vertex with two neighbours is not a branching point |
| Branching.BuiltWellFormed | smf_context/ue_datapath.go:158-231 | every graph the builder makes meets what the search needs: links lead to vertices of the graph and children are keyed by vertex ids |

## Left out

- `PrintGraph` (lines 107-132) is console output only.
- `GetNodeIP` and `ResolveNodeIdToIp` (lines 83-87) call into node-id resolution. This is the uninterpreted field `resolveNodeIdToIp`, and `NodeIP` applies it.
- Loading `UPNodes`, `UPFsIPtoID` and `UERoutingPaths` from configuration files is not modelled. They are the given value `SmfContext`.
- The text of the `fmt.Errorf` messages is not modelled. Errors are `UnknownNode(name)` or `UnresolvedAddress(ip)`.
- The `distance` map of `FindBranchingPoints` (lines 250, 257, 266, 276 and 292) is not modelled. Lines 276 and 292 read it, but only to compute other distances; no colour, queue entry or flag depends on it.
- The buffered channel of `FindBranchingPoints` (lines 251 and 268-270) is a sequence used as a FIFO. Each send asserts that the channel is not full. No concurrency is modelled.
- Go's unspecified map iteration order (line 272) becomes an arbitrary choice of the next key. Contracts state only what holds for every order.
- Branching.FindBranchingPoints: returns the final colour map only as a ghost value, and states the per-vertex flag formula only through `ProcessNode`. It states which vertices get dequeued only through the BLACK bound and the start-or-target bound, because the code offers no simpler characterisation.
- Branching.FindBranchingPoints: does not state that a second run sets no new flag. No contract relates two runs.
- Branching.FindBranchingPoints: requires `WellFormed`, so the model covers only graphs whose links stay inside Graph and whose children are keyed by vertex ids. Every graph the builder makes is such a graph (`BuiltWellFormed`). On some other inputs the code fails:
  - A parent link with a nil `To` is dereferenced by the GetUPFID call at line 288, when line 85 reads `node.UPF`.
  - A child link with a nil `To` under a WHITE id sends nil at line 277, and the search fails at line 272 when it reads the `Next` of the nil it dequeues.
  - Some inputs block on a full channel at line 277 or 293.
- Branching.ExploreComponent: bounds the flags it may set (degree at least 2, on vertices of `entered`). It does not state which vertices are dequeued, the flag each one gets (that is stated per dequeue by `ProcessNode`), or the colours beyond the BLACK bound. The code offers no simpler characterisation of the dequeued vertices than the run itself.
- Branching.SearchFrom: for a WHITE start, states the same bounds as `ExploreComponent` and no more, for the same reason.
- Branching.SearchComponents: states the BLACK bound and the start-or-target bound on the flags. It does not state which flags are set, for the same reason.
- GraphBuilder.NewUEDataPathGraph: requires `NoPanic` rather than "no one-name path". The inputs it excludes are exactly those on which line 171 indexes past the end of the path.
- GraphBuilder.NewUEDataPathGraph: returns the name-to-vertex table only as a ghost value, on which `Built` is stated. A failure returns no graph, as the Go code returns nil.
