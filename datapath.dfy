/**
 The vertices and edges of a subscriber's user-plane topology and the three
 primitives that edit the edges of one vertex in place
 (smf_context/ue_datapath.go, lines 12-105).
 */
module DataPath {
  import opened Wrappers

  /** The descriptor of a user-plane function; only its NodeID is consulted here. */
  datatype UPF = UPF(nodeID: string)

  /** One configured routing path: node names plus the traffic endpoint of the path. */
  datatype RoutingPath = RoutingPath(upf: seq<string>, destinationIP: string, destinationPort: int)

  /**
   The process-wide configuration the core only reads: the node inventory
   (name to UPF), the address table (IP to node id), the per-subscriber
   routing paths (SUPI to paths), and NodeID resolution, which is left
   uninterpreted.
   */
  datatype SmfContext = SmfContext(
    upNodes: map<string, UPF>,
    upfsIPtoID: map<string, string>,
    ueRoutingPaths: map<string, seq<RoutingPath>>,
    resolveNodeIdToIp: string -> string)

  /** The two error kinds of the core; the text of the messages is not modelled. */
  datatype Error = UnknownNode(name: string) | UnresolvedAddress(ip: string)

  /** The IP address of a UPF, as NodeID resolution gives it. */
  function NodeIP(ctx: SmfContext, upf: UPF): string {
    ctx.resolveNodeIdToIp(upf.nodeID)
  }

  /** The id of a UPF: the address table's entry for its IP, or an error naming that unknown IP. */
  function UPFID(ctx: SmfContext, upf: UPF): (r: Result<string, Error>)
    ensures r.Success? <==> NodeIP(ctx, upf) in ctx.upfsIPtoID
    ensures r.Success? ==> r.value == ctx.upfsIPtoID[NodeIP(ctx, upf)]
    ensures r.Failure? ==> r.error == UnresolvedAddress(NodeIP(ctx, upf))
  {
    var ip := NodeIP(ctx, upf);
    if ip in ctx.upfsIPtoID then Success(ctx.upfsIPtoID[ip]) else Failure(UnresolvedAddress(ip))
  }

  /**
   A directed edge: its target and the traffic endpoint of the branch it
   starts. `to` is null only for the endpoint record the builder makes.
   */
  datatype DataPathLink = DataPathLink(to: DataPathNode?, destinationIP: string, destinationPort: int)

  /** A vertex: its UPF, outgoing links keyed by child id, the optional parent link, the branching flag. */
  class DataPathNode {
    const upf: UPF
    var next: map<string, DataPathLink>
    var prev: Option<DataPathLink>
    var isBranchingPoint: bool

    constructor (upf: UPF)
      ensures this.upf == upf
      ensures next == map[] && prev == None && !isBranchingPoint
    {
      this.upf := upf;
      next := map[];
      prev := None;
      isBranchingPoint := false;
    }

    /** GetUPFID: the id of this node is the id of its UPF. */
    function GetUPFID(ctx: SmfContext): (r: Result<string, Error>)
      ensures r == UPFID(ctx, upf)
    {
      UPFID(ctx, upf)
    }

    /**
     AddChild: a child whose IP is unknown is an error and nothing changes;
     otherwise a link to it is added unless its id is already a key, in
     which case the existing link (and its endpoint) is kept.
     */
    method AddChild(ctx: SmfContext, child: DataPathNode) returns (err: Option<Error>)
      modifies this
      ensures err.Some? <==> child.GetUPFID(ctx).Failure?
      ensures err.Some? ==> err.value == child.GetUPFID(ctx).error && next == old(next)
      ensures err.None? ==>
        var id := child.GetUPFID(ctx).value;
        id in next && next.Keys == old(next).Keys + {id} &&
        (id in old(next) ==> next == old(next)) &&
        (id !in old(next) ==> next == old(next)[id := DataPathLink(child, "", 0)])
      ensures prev == old(prev) && isBranchingPoint == old(isBranchingPoint)
    {
      var childId := child.GetUPFID(ctx);
      if childId.Failure? {
        return Some(childId.error);
      }
      if childId.value !in next {
        next := next[childId.value := DataPathLink(child, "", 0)];
      }
      err := None;
    }

    /**
     AddParent: a parent whose IP is unknown is an error and nothing
     changes; otherwise the parent link is replaced, but only when one is
     already present, so a node without a parent keeps none.
     */
    method AddParent(ctx: SmfContext, parent: DataPathNode) returns (err: Option<Error>)
      modifies this
      ensures err.Some? <==> NodeIP(ctx, parent.upf) !in ctx.upfsIPtoID
      ensures err.Some? ==> err.value == UnresolvedAddress(NodeIP(ctx, parent.upf)) && prev == old(prev)
      ensures err.None? && old(prev).Some? ==> prev == Some(DataPathLink(parent, "", 0))
      ensures old(prev).None? ==> prev == None
      ensures next == old(next) && isBranchingPoint == old(isBranchingPoint)
    {
      var parentIP := NodeIP(ctx, parent.upf);
      if parentIP !in ctx.upfsIPtoID {
        return Some(UnresolvedAddress(parentIP));
      }
      if prev.Some? {
        prev := Some(DataPathLink(parent, "", 0));
      }
      err := None;
    }

    /**
     AddDestinationOfChild: overwrites only the endpoint fields of the link
     stored under the child's id; no such link is a silent no-op, an
     unknown child IP an error.
     */
    method AddDestinationOfChild(ctx: SmfContext, child: DataPathNode, dest: DataPathLink) returns (err: Option<Error>)
      modifies this
      ensures err.Some? <==> child.GetUPFID(ctx).Failure?
      ensures err.Some? ==> err.value == child.GetUPFID(ctx).error
      ensures next.Keys == old(next).Keys
      ensures forall id :: id in next ==> next[id].to == old(next)[id].to
      ensures forall id :: id in next && (err.Some? || id != child.GetUPFID(ctx).value) ==> next[id] == old(next)[id]
      ensures err.None? && child.GetUPFID(ctx).value in next ==>
        var l := next[child.GetUPFID(ctx).value];
        l.destinationIP == dest.destinationIP && l.destinationPort == dest.destinationPort
      ensures prev == old(prev) && isBranchingPoint == old(isBranchingPoint)
    {
      var childId := child.GetUPFID(ctx);
      if childId.Failure? {
        return Some(childId.error);
      }
      if childId.value in next {
        var childLink := next[childId.value];
        next := next[childId.value := childLink.(destinationIP := dest.destinationIP, destinationPort := dest.destinationPort)];
      }
      err := None;
    }
  }

  /**
   NewUEDataPathNode: a name missing from the node inventory is an error;
   otherwise a fresh vertex for that node's UPF with no links and the
   flag clear.
   */
  method NewUEDataPathNode(ctx: SmfContext, name: string) returns (r: Result<DataPathNode, Error>)
    ensures r.Failure? <==> name !in ctx.upNodes
    ensures r.Failure? ==> r.error == UnknownNode(name)
    ensures r.Success? ==>
      fresh(r.value) && r.value.upf == ctx.upNodes[name] &&
      r.value.next == map[] && r.value.prev == None && !r.value.isBranchingPoint
  {
    if name !in ctx.upNodes {
      return Failure(UnknownNode(name));
    }
    var node := new DataPathNode(ctx.upNodes[name]);
    r := Success(node);
  }
}
