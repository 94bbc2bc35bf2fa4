/**
 Reference definitions for what NewUEDataPathGraph (smf_context/ue_datapath.go,
 lines 134-237) builds, stated over node names rather than references: the
 names the routing paths mention in order, the adjacent pairs they link,
 and the children each vertex ends up with.
 */
module GraphSpec {
  import opened Wrappers
  import opened DataPath

  /** A link whose target is named by its routing name. */
  datatype AbsLink = AbsLink(to: string, destinationIP: string, destinationPort: int)

  predicate Distinct<T(==)>(s: seq<T>) {
    forall i, j :: 0 <= i < j < |s| ==> s[i] != s[j]
  }

  /** The named node is in the inventory and its IP is in the address table. */
  predicate Resolves(ctx: SmfContext, name: string) {
    name in ctx.upNodes && UPFID(ctx, ctx.upNodes[name]).Success?
  }

  /** The id of a named node, or "" (Go's zero value) when it does not resolve. */
  function IdOf(ctx: SmfContext, name: string): string {
    if Resolves(ctx, name) then UPFID(ctx, ctx.upNodes[name]).value else ""
  }

  // ---------------------------------------------------------------------
  // Reference definitions

  /** The node names of the first k paths, concatenated. */
  function Flatten(paths: seq<RoutingPath>, k: nat): seq<string>
    requires k <= |paths|
  {
    if k == 0 then [] else Flatten(paths, k - 1) + paths[k - 1].upf
  }

  /** The names visited before path k, then the first m names of path k. */
  function Prefix(paths: seq<RoutingPath>, k: nat, m: nat): seq<string>
    requires k < |paths| && m <= |paths[k].upf|
  {
    Flatten(paths, k) + paths[k].upf[..m]
  }

  /** The distinct elements of s in the order of their first occurrence. */
  function Dedup(s: seq<string>): seq<string> {
    if s == [] then []
    else
      var d := Dedup(s[..|s| - 1]);
      if s[|s| - 1] in d then d else d + [s[|s| - 1]]
  }

  /** The position of the first occurrence of x in s. */
  function FirstIndex(s: seq<string>, x: string): (i: nat)
    requires x in s
    ensures i < |s| && s[i] == x && x !in s[..i]
  {
    if s[0] == x then 0 else 1 + FirstIndex(s[1..], x)
  }

  /** The first name of xs missing from the node inventory, if any. */
  function FirstMissing(ctx: SmfContext, xs: seq<string>): Option<string> {
    if xs == [] then None
    else
      var f := FirstMissing(ctx, xs[..|xs| - 1]);
      if f.Some? then f
      else if xs[|xs| - 1] !in ctx.upNodes then Some(xs[|xs| - 1])
      else None
  }

  /** An adjacent pair (from, to) of a path, with the endpoint of that path. */
  datatype Edge = Edge(from: string, to: string, destinationIP: string, destinationPort: int)

  /** The adjacent pairs (p[i], p[i+1]) for i + 1 < n: the pairs linked by the first n iterations over p. */
  function PathEdges(p: RoutingPath, n: nat): seq<Edge>
    requires n <= |p.upf|
  {
    if n == 0 then []
    else PathEdges(p, n - 1) +
         (if n < |p.upf| then [Edge(p.upf[n - 1], p.upf[n], p.destinationIP, p.destinationPort)] else [])
  }

  /** All adjacent pairs of the first k paths, in processing order. */
  function Edges(paths: seq<RoutingPath>, k: nat): seq<Edge>
    requires k <= |paths|
  {
    if k == 0 then [] else Edges(paths, k - 1) + PathEdges(paths[k - 1], |paths[k - 1].upf|)
  }

  /**
   The children of x that the edges produce: for each edge from x to a
   resolvable node, the key is the target's id; the first edge with that
   key fixes the target, the last one fixes the endpoint.
   */
  function LinksOf(ctx: SmfContext, edges: seq<Edge>, x: string): map<string, AbsLink> {
    if edges == [] then map[] else LinkStep(ctx, LinksOf(ctx, edges[..|edges| - 1], x), edges[|edges| - 1], x)
  }

  /**
   What one more edge e does to the children m of x: nothing unless it
   leaves x for a resolvable node; then the key of its target's id gets
   e's endpoint, keeping an existing target or else taking e's.
   */
  function LinkStep(ctx: SmfContext, m: map<string, AbsLink>, e: Edge, x: string): map<string, AbsLink> {
    if e.from != x || !Resolves(ctx, e.to) then m
    else
      var id := IdOf(ctx, e.to);
      var l := if id in m then m[id] else AbsLink(e.to, "", 0);
      m[id := l.(destinationIP := e.destinationIP, destinationPort := e.destinationPort)]
  }

  /** Edge j goes from x to a resolvable node whose id is key. */
  predicate EdgeFor(ctx: SmfContext, e: Edge, x: string, key: string) {
    e.from == x && Resolves(ctx, e.to) && IdOf(ctx, e.to) == key
  }

  /** Distinct resolvable names among names have distinct ids (so no two children collide in a Next map). */
  predicate IdsDistinct(ctx: SmfContext, names: seq<string>) {
    forall a, b :: a in names && b in names && Resolves(ctx, a) && Resolves(ctx, b) && IdOf(ctx, a) == IdOf(ctx, b) ==> a == b
  }

  /** The pair (i2, i2 + 1) of path k2 is processed after the pair (i, i + 1) of path k. */
  predicate LaterPair(paths: seq<RoutingPath>, k: nat, i: nat, k2: nat, i2: nat) {
    k2 < |paths| && i2 + 1 < |paths[k2].upf| && (k < k2 || (k == k2 && i < i2))
  }

  /**
   The construction never reaches line 171 on a path of one name: for
   such a path it indexes past the end (a panic), unless the lookup of
   that name or of an earlier one has already failed.
   */
  predicate NoPanic(ctx: SmfContext, paths: seq<RoutingPath>) {
    forall k :: 0 <= k < |paths| && |paths[k].upf| == 1 ==> FirstMissing(ctx, Prefix(paths, k, 1)).Some?
  }

  /** The number of names of p that the first n iterations over it have looked up. */
  function Seen(p: RoutingPath, n: nat): nat
    requires n <= |p.upf|
  {
    if n == 0 then 0 else if n < |p.upf| then n + 1 else |p.upf|
  }
}
