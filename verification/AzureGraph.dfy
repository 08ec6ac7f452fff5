/** `azure/network.py`, `azure/resources.py` and `azure/authorization.py`: records that inherit
    their parent's tags, edges guarded by what was recorded, and everything the three modules
    leave behind. */
module AzureGraph {
  import opened Text
  import opened Json
  import opened Tags
  import opened Writer
  import opened Graph
  import opened AzureIds

  // ----- virtual networks -----

  datatype Subnet = Subnet(id: Id, name: Id, nsg: Id, raw: Json)

  datatype Peering = Peering(id: Id, name: Id, remote: Id, raw: Json)

  datatype VNet = VNet(id: Id, name: Id, location: Id, tags: RawTags, subnets: seq<Subnet>, raw: Json)

  /** The peerings of a VNet, asked for by resource group and name. */
  type PeeringApi = (Option<string>, Id) -> Fetch<seq<Peering>>

  function PeeringsOf(v: VNet, api: PeeringApi): Fetch<seq<Peering>> { api(ResourceGroup(v.id), v.name) }

  /** `vnet_id_by_normalized`: the last of several VNets for a key winning. */
  function IdsByNormalized(vs: seq<VNet>): map<string, Id> {
    if vs == [] then map[]
    else
      var last := vs[|vs| - 1];
      IdsByNormalized(vs[..|vs| - 1])[NormalizeId(last.id) := last.id]
  }

  function Resolve(ids: map<string, Id>, remote: Id): Id {
    if NormalizeId(remote) in ids then ids[NormalizeId(remote)] else remote
  }

  function VNetResource(v: VNet): Resource {
    Resource("virtual_network", RegionOf(v.location), v.id, v.name, v.raw, ResourceGroup(v.id), None)
  }

  function SubnetResource(v: VNet, s: Subnet): Resource {
    Resource("subnet", RegionOf(v.location), s.id, s.name, s.raw, v.id, None)
  }

  function PeeringResource(v: VNet, p: Peering): Resource {
    Resource("vnet_peering", RegionOf(v.location), p.id, p.name, p.raw, ResourceGroup(v.id), None)
  }

  function InVNet(v: VNet, s: Subnet): Edge { Edge("subnet", s.id, "virtual_network", v.id, "in_vnet") }

  function ToNsg(s: Subnet): Edge { Edge("subnet", s.id, "nsg", s.nsg, "associated_with_nsg") }

  function PeersWith(p: Peering, id: Id): Edge { Edge("vnet_peering", p.id, "virtual_network", id, "peers_with") }

  /** The edges of a recorded subnet. */
  function SubnetEdges(v: VNet, s: Subnet): seq<Call> {
    [Call.AddEdge(InVNet(v, s))] + if IsTruthy(s.nsg) then [Call.AddEdge(ToNsg(s))] else []
  }

  function SubnetCalls(v: VNet, s: Subnet): seq<Call> {
    [Call.AddResource(SubnetResource(v, s), v.tags)] + if Recorded(v.tags) then SubnetEdges(v, s) else []
  }

  function AllSubnetCalls(v: VNet, ss: seq<Subnet>): seq<Call> {
    if ss == [] then [] else AllSubnetCalls(v, ss[..|ss| - 1]) + SubnetCalls(v, ss[|ss| - 1])
  }

  /** The edges of a recorded peering: its own VNet, and the remote one if it names one. */
  function PeeringEdges(v: VNet, p: Peering, ids: map<string, Id>): seq<Call> {
    [Call.AddEdge(PeersWith(p, v.id))]
    + if IsTruthy(p.remote) then [Call.AddEdge(PeersWith(p, Resolve(ids, p.remote)))] else []
  }

  function PeeringCalls(v: VNet, p: Peering, ids: map<string, Id>): seq<Call> {
    [Call.AddResource(PeeringResource(v, p), v.tags)] + if Recorded(v.tags) then PeeringEdges(v, p, ids) else []
  }

  function AllPeeringCalls(v: VNet, ps: seq<Peering>, ids: map<string, Id>): seq<Call> {
    if ps == [] then [] else AllPeeringCalls(v, ps[..|ps| - 1], ids) + PeeringCalls(v, ps[|ps| - 1], ids)
  }

  const PEERINGS_SOURCE := "network:peerings:"

  function PeeringError(v: VNet, ps: Fetch<seq<Peering>>): seq<Call> {
    FetchError(RegionOf(v.location).value, PEERINGS_SOURCE + NameText(v.name), ps)
  }

  /** A VNet's own record and its subnets. */
  function VNetHead(v: VNet): seq<Call> {
    [Call.AddResource(VNetResource(v), v.tags)] + AllSubnetCalls(v, v.subnets)
  }

  function VNetTail(v: VNet, ps: Fetch<seq<Peering>>, ids: map<string, Id>): seq<Call> {
    PeeringError(v, ps) + AllPeeringCalls(v, OrNone(ps), ids)
  }

  function VNetCalls(v: VNet, ps: Fetch<seq<Peering>>, ids: map<string, Id>): seq<Call> { VNetHead(v) + VNetTail(v, ps, ids) }

  function AllVNetCalls(vs: seq<VNet>, api: PeeringApi, ids: map<string, Id>): seq<Call> {
    if vs == [] then []
    else AllVNetCalls(vs[..|vs| - 1], api, ids) + VNetCalls(vs[|vs| - 1], PeeringsOf(vs[|vs| - 1], api), ids)
  }

  const VNETS_SOURCE := "network:virtual_networks"

  function NetworkCalls(vnets: Fetch<seq<VNet>>, api: PeeringApi): seq<Call> {
    FetchError("global", VNETS_SOURCE, vnets) + AllVNetCalls(OrNone(vnets), api, IdsByNormalized(OrNone(vnets)))
  }

  method WriteSubnet(writer: InventoryWriter, v: VNet, s: Subnet)
    requires writer.Valid()
    modifies writer
    ensures writer.Valid() && writer.history == old(writer.history) + SubnetCalls(v, s)
  {
    hide Run;
    hide Apply;
    hide ParseSuppression;
    hide Stamp;
    hide SubnetResource;
    hide InVNet;
    hide ToNsg;
    var added := writer.AddResource(SubnetResource(v, s), v.tags);
    if added {
      writer.AddEdge(InVNet(v, s));
      if s.nsg.Some? && s.nsg.value != [] {
        writer.AddEdge(ToNsg(s));
      }
    }
  }

  method WriteSubnets(writer: InventoryWriter, v: VNet)
    requires writer.Valid()
    modifies writer
    ensures writer.Valid() && writer.history == old(writer.history) + AllSubnetCalls(v, v.subnets)
  {
    hide Run;
    hide SubnetCalls;
    for i := 0 to |v.subnets|
      invariant writer.Valid() && writer.history == old(writer.history) + AllSubnetCalls(v, v.subnets[..i])
    {
      WriteSubnet(writer, v, v.subnets[i]);
      assert v.subnets[..i + 1][..i] == v.subnets[..i];
    }
    assert v.subnets[..|v.subnets|] == v.subnets;
  }

  method WritePeering(writer: InventoryWriter, v: VNet, p: Peering, ids: map<string, Id>)
    requires writer.Valid()
    modifies writer
    ensures writer.Valid() && writer.history == old(writer.history) + PeeringCalls(v, p, ids)
  {
    hide Run;
    hide Apply;
    hide ParseSuppression;
    hide Stamp;
    hide PeeringResource;
    hide PeersWith;
    hide NormalizeId;
    var added := writer.AddResource(PeeringResource(v, p), v.tags);
    if added {
      writer.AddEdge(PeersWith(p, v.id));
      if p.remote.Some? && p.remote.value != [] {
        var key := NormalizeId(p.remote);
        writer.AddEdge(PeersWith(p, if key in ids then ids[key] else p.remote));
      }
    }
  }

  method WritePeerings(writer: InventoryWriter, v: VNet, ps: seq<Peering>, ids: map<string, Id>)
    requires writer.Valid()
    modifies writer
    ensures writer.Valid() && writer.history == old(writer.history) + AllPeeringCalls(v, ps, ids)
  {
    hide Run;
    hide PeeringCalls;
    for i := 0 to |ps|
      invariant writer.Valid() && writer.history == old(writer.history) + AllPeeringCalls(v, ps[..i], ids)
    {
      WritePeering(writer, v, ps[i], ids);
      assert ps[..i + 1][..i] == ps[..i];
    }
    assert ps[..|ps|] == ps;
  }

  method WriteVNet(writer: InventoryWriter, v: VNet, ps: Fetch<seq<Peering>>, ids: map<string, Id>)
    requires writer.Valid()
    modifies writer
    ensures writer.Valid() && writer.history == old(writer.history) + VNetCalls(v, ps, ids)
  {
    hide Run;
    hide Apply;
    hide ParseSuppression;
    hide Stamp;
    hide VNetResource;
    hide AllSubnetCalls;
    hide AllPeeringCalls;
    hide NameText;
    var _ := writer.AddResource(VNetResource(v), v.tags);
    WriteSubnets(writer, v);
    if ps.Err? {
      writer.AddError(ErrorNote(RegionOf(v.location).value, PEERINGS_SOURCE + NameText(v.name), ps.error));
      assert AllPeeringCalls(v, [], ids) == [] by { NoPeerings(v, ids); }
    } else {
      WritePeerings(writer, v, ps.value, ids);
    }
  }

  lemma NoPeerings(v: VNet, ids: map<string, Id>)
    ensures AllPeeringCalls(v, [], ids) == []
  {}

  /** `network.gather` */
  method GatherNetwork(writer: InventoryWriter, vnets: Fetch<seq<VNet>>, api: PeeringApi)
    requires writer.Valid()
    modifies writer
    ensures writer.Valid() && writer.history == old(writer.history) + NetworkCalls(vnets, api)
  {
    hide Run;
    hide VNetCalls;
    hide NormalizeId;
    hide ResourceGroup;
    if vnets.Err? {
      writer.AddError(ErrorNote("global", VNETS_SOURCE, vnets.error));
      return;
    }
    var vs := vnets.value;
    var ids: map<string, Id> := map[];
    for i := 0 to |vs|
      invariant ids == IdsByNormalized(vs[..i])
    {
      ids := ids[NormalizeId(vs[i].id) := vs[i].id];
      assert vs[..i + 1][..i] == vs[..i];
    }
    assert vs[..|vs|] == vs;
    for i := 0 to |vs|
      invariant writer.Valid() && writer.history == old(writer.history) + AllVNetCalls(vs[..i], api, ids)
    {
      WriteVNet(writer, vs[i], PeeringsOf(vs[i], api), ids);
      assert vs[..i + 1][..i] == vs[..i];
    }
  }

  // ----- inherited suppression -----

  /** Calls that leave no trace in the graph. */
  ghost predicate Silent(calls: seq<Call>) { Accepted(calls) == [] && EdgesOf(calls) == [] }

  lemma SilentAppend(a: seq<Call>, b: seq<Call>)
    requires Silent(a) && Silent(b)
    ensures Silent(a + b)
  {
    PartsAppend(a, b);
  }

  lemma SilentResource(r: Resource, tags: RawTags)
    requires !Recorded(tags)
    ensures Silent([Call.AddResource(r, tags)] + [])
  {
    var c := [Call.AddResource(r, tags)];
    assert c + [] == c && Before(c) == [];
    assert Accepted(c) == AcceptedOf(c[0]);
  }

  lemma SilentError<T>(region: string, source: string, f: Fetch<T>)
    ensures Silent(FetchError(region, source, f))
  {
    if f.Err? { assert Before(FetchError(region, source, f)) == []; }
  }

  lemma {:induction false} SuppressedSubnets(v: VNet, ss: seq<Subnet>)
    requires !Recorded(v.tags)
    ensures Silent(AllSubnetCalls(v, ss))
  {
    hide Recorded;
    if ss != [] {
      var n := |ss| - 1;
      SuppressedSubnets(v, ss[..n]);
      SilentResource(SubnetResource(v, ss[n]), v.tags);
      SilentAppend(AllSubnetCalls(v, ss[..n]), SubnetCalls(v, ss[n]));
    }
  }

  lemma {:induction false} SuppressedPeerings(v: VNet, ps: seq<Peering>, ids: map<string, Id>)
    requires !Recorded(v.tags)
    ensures Silent(AllPeeringCalls(v, ps, ids))
  {
    hide Recorded;
    if ps != [] {
      var n := |ps| - 1;
      SuppressedPeerings(v, ps[..n], ids);
      SilentResource(PeeringResource(v, ps[n]), v.tags);
      SilentAppend(AllPeeringCalls(v, ps[..n], ids), PeeringCalls(v, ps[n], ids));
    }
  }

  /** A fully suppressed VNet leaves nothing: not itself, not its subnets or peerings, and no
      edge from any of them. */
  lemma SuppressedVNetIsSilent(v: VNet, ps: Fetch<seq<Peering>>, ids: map<string, Id>)
    requires !Recorded(v.tags)
    ensures Accepted(VNetCalls(v, ps, ids)) == [] && EdgesOf(VNetCalls(v, ps, ids)) == []
  {
    hide Recorded;
    hide Silent;
    hide FetchError;
    hide AllSubnetCalls;
    hide AllPeeringCalls;
    var first := [Call.AddResource(VNetResource(v), v.tags)];
    SilentResource(VNetResource(v), v.tags);
    assert first + [] == first;
    SuppressedSubnets(v, v.subnets);
    SilentError(RegionOf(v.location).value, PEERINGS_SOURCE + NameText(v.name), ps);
    SuppressedPeerings(v, OrNone(ps), ids);
    SilentAppend(first, AllSubnetCalls(v, v.subnets));
    SilentAppend(PeeringError(v, ps), AllPeeringCalls(v, OrNone(ps), ids));
    SilentAppend(VNetHead(v), VNetTail(v, ps, ids));
    SilentMeans(VNetCalls(v, ps, ids));
  }

  lemma SilentMeans(calls: seq<Call>)
    requires Silent(calls)
    ensures Accepted(calls) == [] && EdgesOf(calls) == []
  {}

  // ----- the graph of virtual networks -----

  /** The edges from a peering to the VNet at its other end. */
  ghost function RemoteEdges(ps: seq<Peering>, ids: map<string, Id>): set<Edge> {
    set p | p in ps && IsTruthy(p.remote) :: PeersWith(p, Resolve(ids, p.remote))
  }

  ghost function AllRemoteEdges(vs: seq<VNet>, api: PeeringApi, ids: map<string, Id>): set<Edge> {
    if vs == [] then {}
    else AllRemoteEdges(vs[..|vs| - 1], api, ids) + RemoteEdges(OrNone(PeeringsOf(vs[|vs| - 1], api)), ids)
  }

  /** The edges that stay inside the module: those to a VNet, other than to a peering's far
      end. */
  ghost function Inner(remotes: set<Edge>): Edge -> bool {
    (e: Edge) => e.toType == "virtual_network" && e !in remotes
  }

  lemma NsgIsElsewhere(s: Subnet, remotes: set<Edge>)
    ensures !Inner(remotes)(ToNsg(s))
  {
    assert |"nsg"| != |"virtual_network"|;
  }

  lemma SubnetAnchored(v: VNet, s: Subnet, nodes: set<Node>, remotes: set<Edge>)
    requires Recorded(v.tags) ==> Node("virtual_network", v.id) in nodes
    ensures Anchored(EdgesOf(SubnetCalls(v, s)), nodes + Named(SubnetCalls(v, s)), Inner(remotes))
  {
    hide Named;
    hide EdgesOf;
    hide ParseSuppression;
    hide RegionOf;
    var own := Inner(remotes);
    var r := SubnetResource(v, s);
    if Recorded(v.tags) {
      var here, nsg := [Call.AddEdge(InVNet(v, s))], [Call.AddEdge(ToNsg(s))];
      NsgIsElsewhere(s, remotes);
      OneEdge(InVNet(v, s));
      OneEdge(ToNsg(s));
      NamedAppend(here, nsg);
      AnchoredAppend(here, nsg, nodes + {Node("subnet", s.id)}, own);
      assert here + [] == here;
      RecordWithEdges(r, v.tags, SubnetEdges(v, s), nodes, own);
    } else {
      SuppressedAnchored(r, v.tags, nodes, own);
    }
  }

  lemma {:induction false} SubnetsAnchored(v: VNet, ss: seq<Subnet>, nodes: set<Node>, remotes: set<Edge>)
    requires Recorded(v.tags) ==> Node("virtual_network", v.id) in nodes
    ensures Anchored(EdgesOf(AllSubnetCalls(v, ss)), nodes + Named(AllSubnetCalls(v, ss)), Inner(remotes))
  {
    hide Named;
    hide EdgesOf;
    hide Anchored;
    hide SubnetCalls;
    hide Recorded;
    if ss == [] {
      NothingAnchored(nodes + Named([]), Inner(remotes));
    } else {
      var n := |ss| - 1;
      SubnetsAnchored(v, ss[..n], nodes, remotes);
      SubnetAnchored(v, ss[n], nodes, remotes);
      AnchoredWithin(AllSubnetCalls(v, ss[..n]), SubnetCalls(v, ss[n]), nodes, Inner(remotes));
    }
  }

  lemma PeeringAnchored(v: VNet, p: Peering, ids: map<string, Id>, nodes: set<Node>, remotes: set<Edge>)
    requires Recorded(v.tags) ==> Node("virtual_network", v.id) in nodes
    requires IsTruthy(p.remote) ==> PeersWith(p, Resolve(ids, p.remote)) in remotes
    ensures Anchored(EdgesOf(PeeringCalls(v, p, ids)), nodes + Named(PeeringCalls(v, p, ids)), Inner(remotes))
  {
    hide Named;
    hide EdgesOf;
    hide ParseSuppression;
    hide RegionOf;
    hide ResourceGroup;
    hide Resolve;
    var own := Inner(remotes);
    var r := PeeringResource(v, p);
    if Recorded(v.tags) {
      var here := [Call.AddEdge(PeersWith(p, v.id))];
      var far := [Call.AddEdge(PeersWith(p, Resolve(ids, p.remote)))];
      OneEdge(PeersWith(p, v.id));
      OneEdge(PeersWith(p, Resolve(ids, p.remote)));
      NamedAppend(here, far);
      if IsTruthy(p.remote) { AnchoredAppend(here, far, nodes + {Node("vnet_peering", p.id)}, own); }
      assert here + [] == here;
      RecordWithEdges(r, v.tags, PeeringEdges(v, p, ids), nodes, own);
    } else {
      SuppressedAnchored(r, v.tags, nodes, own);
    }
  }

  lemma {:induction false} PeeringsAnchored(v: VNet, ps: seq<Peering>, ids: map<string, Id>, nodes: set<Node>, remotes: set<Edge>)
    requires Recorded(v.tags) ==> Node("virtual_network", v.id) in nodes
    requires forall k :: 0 <= k < |ps| && IsTruthy(ps[k].remote) ==> PeersWith(ps[k], Resolve(ids, ps[k].remote)) in remotes
    ensures Anchored(EdgesOf(AllPeeringCalls(v, ps, ids)), nodes + Named(AllPeeringCalls(v, ps, ids)), Inner(remotes))
  {
    hide Named;
    hide EdgesOf;
    hide Anchored;
    hide PeeringCalls;
    hide Recorded;
    hide Resolve;
    hide PeersWith;
    if ps == [] {
      NothingAnchored(nodes + Named([]), Inner(remotes));
    } else {
      var n := |ps| - 1;
      assert forall k :: 0 <= k < n ==> ps[..n][k] == ps[k];
      PeeringsAnchored(v, ps[..n], ids, nodes, remotes);
      PeeringAnchored(v, ps[n], ids, nodes, remotes);
      AnchoredWithin(AllPeeringCalls(v, ps[..n], ids), PeeringCalls(v, ps[n], ids), nodes, Inner(remotes));
    }
  }

  lemma ErrorAnchored<T>(region: string, source: string, f: Fetch<T>, nodes: set<Node>, own: Edge -> bool)
    ensures Anchored(EdgesOf(FetchError(region, source, f)), nodes, own)
  {
    NothingNamed(own);
    if f.Err? { OneError(ErrorNote(region, source, f.error), own); }
  }

  lemma VNetClosed(v: VNet, ps: Fetch<seq<Peering>>, ids: map<string, Id>, remotes: set<Edge>)
    requires RemoteEdges(OrNone(ps), ids) <= remotes
    ensures Closed(VNetCalls(v, ps, ids), Inner(remotes))
    ensures Recorded(v.tags) ==> Node("virtual_network", v.id) in Named(VNetCalls(v, ps, ids))
  {
    hide Named;
    hide EdgesOf;
    hide Anchored;
    hide AllSubnetCalls;
    hide AllPeeringCalls;
    hide FetchError;
    hide ParseSuppression;
    hide Resolve;
    hide PeersWith;
    hide ResourceGroup;
    var own := Inner(remotes);
    var first := [Call.AddResource(VNetResource(v), v.tags)];
    OneResource(VNetResource(v), v.tags, own);
    SubnetsAnchored(v, v.subnets, Named(first), remotes);
    ClosedAfter(first, AllSubnetCalls(v, v.subnets), own);
    NamedAppend(first, AllSubnetCalls(v, v.subnets));
    var nodes := Named(VNetHead(v));
    var peers := OrNone(ps);
    assert forall k :: 0 <= k < |peers| && IsTruthy(peers[k].remote) ==>
      PeersWith(peers[k], Resolve(ids, peers[k].remote)) in RemoteEdges(peers, ids);
    PeeringsAnchored(v, peers, ids, nodes, remotes);
    ErrorAnchored(RegionOf(v.location).value, PEERINGS_SOURCE + NameText(v.name), ps, nodes + Named(PeeringError(v, ps)), own);
    AnchoredWithin(PeeringError(v, ps), AllPeeringCalls(v, peers, ids), nodes, own);
    ClosedAfter(VNetHead(v), VNetTail(v, ps, ids), own);
    NamedAppend(VNetHead(v), VNetTail(v, ps, ids));
  }

  lemma {:induction false} VNetsClosed(vs: seq<VNet>, api: PeeringApi, ids: map<string, Id>, remotes: set<Edge>)
    requires AllRemoteEdges(vs, api, ids) <= remotes
    ensures Closed(AllVNetCalls(vs, api, ids), Inner(remotes))
    ensures forall k :: 0 <= k < |vs| && Recorded(vs[k].tags) ==>
      Node("virtual_network", vs[k].id) in Named(AllVNetCalls(vs, api, ids))
  {
    hide Named;
    hide Closed;
    hide Inner;
    hide VNetCalls;
    hide Recorded;
    hide RemoteEdges;
    if vs == [] {
      NothingNamed(Inner(remotes));
    } else {
      var n := |vs| - 1;
      var a, b := AllVNetCalls(vs[..n], api, ids), VNetCalls(vs[n], PeeringsOf(vs[n], api), ids);
      VNetsClosed(vs[..n], api, ids, remotes);
      VNetClosed(vs[n], PeeringsOf(vs[n], api), ids, remotes);
      ClosedAppend(a, b, Inner(remotes));
      NamedAppend(a, b);
      forall k | 0 <= k < |vs| && Recorded(vs[k].tags) ensures Node("virtual_network", vs[k].id) in Named(a) + Named(b) {
        if k < n { assert vs[..n][k] == vs[k]; }
      }
    }
  }

  /** Whatever listings fail, every edge `network.gather` writes leaves a recorded resource, every
      edge to a VNet that is not the far end of a peering ends at a recorded one, and every VNet
      that is not suppressed is recorded. */
  lemma NetworkClosed(vnets: Fetch<seq<VNet>>, api: PeeringApi)
    ensures var ids := IdsByNormalized(OrNone(vnets));
      && Closed(NetworkCalls(vnets, api), Inner(AllRemoteEdges(OrNone(vnets), api, ids)))
      && forall k :: 0 <= k < |OrNone(vnets)| && Recorded(OrNone(vnets)[k].tags) ==>
           Node("virtual_network", OrNone(vnets)[k].id) in Named(NetworkCalls(vnets, api))
  {
    hide Named;
    hide EdgesOf;
    hide Anchored;
    hide AllVNetCalls;
    hide AllRemoteEdges;
    hide Recorded;
    hide FetchError;
    hide IdsByNormalized;
    var vs := OrNone(vnets);
    var ids := IdsByNormalized(vs);
    var remotes := AllRemoteEdges(vs, api, ids);
    VNetsClosed(vs, api, ids, remotes);
    var e := FetchError("global", VNETS_SOURCE, vnets);
    ErrorAnchored("global", VNETS_SOURCE, vnets, Named(e), Inner(remotes));
    ClosedAppend(e, AllVNetCalls(vs, api, ids), Inner(remotes));
    NamedAppend(e, AllVNetCalls(vs, api, ids));
  }

  // ----- where a peering's far end points -----

  /** The last listed VNet with that id, ignoring case. */
  function LastMatching(vs: seq<VNet>, id: Id): Option<VNet> {
    if vs == [] then None
    else if NormalizeId(vs[|vs| - 1].id) == NormalizeId(id) then Some(vs[|vs| - 1])
    else LastMatching(vs[..|vs| - 1], id)
  }

  lemma {:induction false} ResolveIsSearch(vs: seq<VNet>, remote: Id)
    ensures Resolve(IdsByNormalized(vs), remote) ==
      match LastMatching(vs, remote) case Some(v) => v.id case None => remote
    ensures (LastMatching(vs, remote).Some? <==> NormalizeId(remote) in IdsByNormalized(vs))
  {
    if vs != [] { ResolveIsSearch(vs[..|vs| - 1], remote); }
  }

  lemma {:induction false} MatchingIsListed(vs: seq<VNet>, id: Id)
    ensures LastMatching(vs, id).Some? ==> exists k :: 0 <= k < |vs| && vs[k] == LastMatching(vs, id).value
  {
    if vs != [] && NormalizeId(vs[|vs| - 1].id) != NormalizeId(id) { MatchingIsListed(vs[..|vs| - 1], id); }
  }

  /** A peering's far end is written as the listed VNet's own id, in whatever casing the peering
      names it, and is a recorded VNet unless that one is suppressed; a VNet that is not listed
      is written as the peering names it. */
  lemma RemoteEndExact(vnets: Fetch<seq<VNet>>, api: PeeringApi, remote: Id)
    ensures var vs := OrNone(vnets);
      var end := Resolve(IdsByNormalized(vs), remote);
      match LastMatching(vs, remote) {
        case None => end == remote
        case Some(v) =>
          && end == v.id && NormalizeId(v.id) == NormalizeId(remote)
          && (Recorded(v.tags) ==> Node("virtual_network", end) in Named(NetworkCalls(vnets, api)))
      }
  {
    hide Named;
    hide NetworkCalls;
    hide Closed;
    hide ParseSuppression;
    var vs := OrNone(vnets);
    ResolveIsSearch(vs, remote);
    MatchingIsListed(vs, remote);
    NetworkClosed(vnets, api);
    MatchingMatches(vs, remote);
  }

  lemma {:induction false} MatchingMatches(vs: seq<VNet>, id: Id)
    ensures LastMatching(vs, id).Some? ==> NormalizeId(LastMatching(vs, id).value.id) == NormalizeId(id)
  {
    if vs != [] { MatchingMatches(vs[..|vs| - 1], id); }
  }

  // ----- resource groups and their locks -----

  datatype Group = Group(id: Id, name: Id, location: Id, tags: RawTags, raw: Json)

  type LockApi = Id -> Fetch<seq<ManagementLock>>

  function GroupResource(g: Group): Resource {
    Resource("resource_group", RegionOf(g.location), g.id, g.name, g.raw, g.name, None)
  }

  function LockResource(g: Group, l: ManagementLock): Resource {
    Resource("management_lock", RegionOf(g.location), l.id, l.name, l.raw, g.name, None)
  }

  function Protects(g: Group, l: ManagementLock): Edge { Edge("management_lock", l.id, "resource_group", g.id, "protects") }

  function LockCalls(g: Group, l: ManagementLock): seq<Call> {
    [Call.AddResource(LockResource(g, l), NoTags)] + if Recorded(g.tags) then [Call.AddEdge(Protects(g, l))] else []
  }

  function AllLockCalls(g: Group, ls: seq<ManagementLock>): seq<Call> {
    if ls == [] then [] else AllLockCalls(g, ls[..|ls| - 1]) + LockCalls(g, ls[|ls| - 1])
  }

  const LOCKS_SOURCE := "resources:locks:"

  function GroupTail(g: Group, ls: Fetch<seq<ManagementLock>>): seq<Call> {
    FetchError(RegionOf(g.location).value, LOCKS_SOURCE + NameText(g.name), ls) + AllLockCalls(g, OrNone(ls))
  }

  function GroupCalls(g: Group, ls: Fetch<seq<ManagementLock>>): seq<Call> {
    [Call.AddResource(GroupResource(g), g.tags)] + GroupTail(g, ls)
  }

  function AllGroupCalls(gs: seq<Group>, api: LockApi): seq<Call> {
    if gs == [] then [] else AllGroupCalls(gs[..|gs| - 1], api) + GroupCalls(gs[|gs| - 1], api(gs[|gs| - 1].name))
  }

  const GROUPS_SOURCE := "resources:resource_groups"

  function ResourcesCalls(groups: Fetch<seq<Group>>, api: LockApi): seq<Call> {
    FetchError("global", GROUPS_SOURCE, groups) + AllGroupCalls(OrNone(groups), api)
  }

  method WriteGroup(writer: InventoryWriter, g: Group, ls: Fetch<seq<ManagementLock>>)
    requires writer.Valid()
    modifies writer
    ensures writer.Valid() && writer.history == old(writer.history) + GroupCalls(g, ls)
  {
    hide Run;
    hide Apply;
    hide ParseSuppression;
    hide Stamp;
    hide GroupResource;
    hide LockResource;
    hide Protects;
    hide NameText;
    var groupAdded := writer.AddResource(GroupResource(g), g.tags);
    if ls.Err? {
      writer.AddError(ErrorNote(RegionOf(g.location).value, LOCKS_SOURCE + NameText(g.name), ls.error));
      return;
    }
    var locks := ls.value;
    ghost var was := writer.history;
    UntaggedIsKept();
    for i := 0 to |locks|
      invariant writer.Valid() && writer.history == was + AllLockCalls(g, locks[..i])
    {
      var lockAdded := writer.AddResource(LockResource(g, locks[i]), NoTags);
      if lockAdded && groupAdded {
        writer.AddEdge(Protects(g, locks[i]));
      }
      assert locks[..i + 1][..i] == locks[..i];
    }
    assert locks[..|locks|] == locks;
  }

  /** `resources.gather` */
  method GatherResources(writer: InventoryWriter, groups: Fetch<seq<Group>>, api: LockApi)
    requires writer.Valid()
    modifies writer
    ensures writer.Valid() && writer.history == old(writer.history) + ResourcesCalls(groups, api)
  {
    hide Run;
    hide GroupCalls;
    if groups.Err? {
      writer.AddError(ErrorNote("global", GROUPS_SOURCE, groups.error));
      return;
    }
    var gs := groups.value;
    for i := 0 to |gs|
      invariant writer.Valid() && writer.history == old(writer.history) + AllGroupCalls(gs[..i], api)
    {
      WriteGroup(writer, gs[i], api(gs[i].name));
      assert gs[..i + 1][..i] == gs[..i];
    }
    assert gs[..|gs|] == gs;
  }

  lemma LockAnchored(g: Group, l: ManagementLock, nodes: set<Node>)
    requires Recorded(g.tags) ==> Node("resource_group", g.id) in nodes
    ensures Anchored(EdgesOf(LockCalls(g, l)), nodes + Named(LockCalls(g, l)), AllEdges)
  {
    hide Named;
    hide EdgesOf;
    hide ParseSuppression;
    hide RegionOf;
    var first := [Call.AddResource(LockResource(g, l), NoTags)];
    UntaggedIsKept();
    OneResource(LockResource(g, l), NoTags, AllEdges);
    if Recorded(g.tags) {
      OneEdge(Protects(g, l));
      NamedAppend(first, [Call.AddEdge(Protects(g, l))]);
      PartsAppend(first, [Call.AddEdge(Protects(g, l))]);
    } else {
      assert first + [] == first;
    }
  }

  lemma {:induction false} LocksAnchored(g: Group, ls: seq<ManagementLock>, nodes: set<Node>)
    requires Recorded(g.tags) ==> Node("resource_group", g.id) in nodes
    ensures Anchored(EdgesOf(AllLockCalls(g, ls)), nodes + Named(AllLockCalls(g, ls)), AllEdges)
  {
    hide Named;
    hide EdgesOf;
    hide Anchored;
    hide LockCalls;
    hide Recorded;
    if ls == [] {
      NothingAnchored(nodes + Named([]), AllEdges);
    } else {
      var n := |ls| - 1;
      LocksAnchored(g, ls[..n], nodes);
      LockAnchored(g, ls[n], nodes);
      AnchoredWithin(AllLockCalls(g, ls[..n]), LockCalls(g, ls[n]), nodes, AllEdges);
    }
  }

  lemma GroupClosed(g: Group, ls: Fetch<seq<ManagementLock>>)
    ensures Closed(GroupCalls(g, ls), AllEdges)
  {
    hide Named;
    hide EdgesOf;
    hide Anchored;
    hide AllLockCalls;
    hide FetchError;
    hide ParseSuppression;
    var first := [Call.AddResource(GroupResource(g), g.tags)];
    var e := FetchError(RegionOf(g.location).value, LOCKS_SOURCE + NameText(g.name), ls);
    OneResource(GroupResource(g), g.tags, AllEdges);
    LocksAnchored(g, OrNone(ls), Named(first));
    ErrorAnchored(RegionOf(g.location).value, LOCKS_SOURCE + NameText(g.name), ls, Named(first) + Named(e), AllEdges);
    AnchoredWithin(e, AllLockCalls(g, OrNone(ls)), Named(first), AllEdges);
    ClosedAfter(first, GroupTail(g, ls), AllEdges);
  }

  lemma {:induction false} GroupsClosed(gs: seq<Group>, api: LockApi)
    ensures Closed(AllGroupCalls(gs, api), AllEdges)
  {
    hide Closed;
    hide GroupCalls;
    if gs == [] {
      NothingNamed(AllEdges);
    } else {
      var n := |gs| - 1;
      GroupsClosed(gs[..n], api);
      GroupClosed(gs[n], api(gs[n].name));
      ClosedAppend(AllGroupCalls(gs[..n], api), GroupCalls(gs[n], api(gs[n].name)), AllEdges);
    }
  }

  /** Every edge `resources.gather` writes joins two recorded resources. */
  lemma ResourcesClosed(groups: Fetch<seq<Group>>, api: LockApi)
    ensures Closed(ResourcesCalls(groups, api), AllEdges)
  {
    hide EdgesOf;
    hide Named;
    hide Anchored;
    hide AllGroupCalls;
    hide FetchError;
    var e := FetchError("global", GROUPS_SOURCE, groups);
    ErrorAnchored("global", GROUPS_SOURCE, groups, Named(e), AllEdges);
    GroupsClosed(OrNone(groups), api);
    ClosedAppend(e, AllGroupCalls(OrNone(groups), api), AllEdges);
  }

  lemma {:induction false} LockEdges(g: Group, ls: seq<ManagementLock>, e: Edge)
    ensures e in EdgesOf(AllLockCalls(g, ls)) <==> Recorded(g.tags) && exists l :: l in ls && e == Protects(g, l)
  {
    hide EdgesOf;
    hide Recorded;
    hide Protects;
    hide LockResource;
    if ls == [] {
      NothingNamed(AllEdges);
    } else {
      var front, last := ls[..|ls| - 1], ls[|ls| - 1];
      LockEdges(g, front, e);
      EdgesOfOne(LockResource(g, last), NoTags, Protects(g, last));
      EdgeInEither(AllLockCalls(g, front), LockCalls(g, last), e);
      assert ls == front + [last];
    }
  }

  lemma GroupEdges(g: Group, ls: Fetch<seq<ManagementLock>>, e: Edge)
    ensures e in EdgesOf(GroupCalls(g, ls)) <==> Recorded(g.tags) && exists l :: l in OrNone(ls) && e == Protects(g, l)
  {
    hide EdgesOf;
    hide Recorded;
    hide Protects;
    hide GroupResource;
    hide AllLockCalls;
    hide FetchError;
    var first := [Call.AddResource(GroupResource(g), g.tags)];
    var errors := FetchError(RegionOf(g.location).value, LOCKS_SOURCE + NameText(g.name), ls);
    LockEdges(g, OrNone(ls), e);
    ErrorHasNoEdge(RegionOf(g.location).value, LOCKS_SOURCE + NameText(g.name), ls);
    EdgesOfOne(GroupResource(g), g.tags, e);
    assert first + [] == first;
    EdgeInEither(errors, AllLockCalls(g, OrNone(ls)), e);
    EdgeInEither(first, GroupTail(g, ls), e);
  }

  /** The edge of a lock listed for a recorded group. */
  ghost predicate LockOfGroup(gs: seq<Group>, api: LockApi, g: Group, l: ManagementLock) {
    g in gs && Recorded(g.tags) && l in OrNone(api(g.name))
  }

  lemma {:induction false} GroupsEdges(gs: seq<Group>, api: LockApi, e: Edge)
    ensures e in EdgesOf(AllGroupCalls(gs, api)) <==> exists g, l :: LockOfGroup(gs, api, g, l) && e == Protects(g, l)
  {
    hide EdgesOf;
    hide Recorded;
    hide Protects;
    hide GroupCalls;
    if gs == [] {
      NothingNamed(AllEdges);
    } else {
      var front, last := gs[..|gs| - 1], gs[|gs| - 1];
      GroupsEdges(front, api, e);
      GroupEdges(last, api(last.name), e);
      EdgeInEither(AllGroupCalls(front, api), GroupCalls(last, api(last.name)), e);
      assert gs == front + [last];
      forall g, l | LockOfGroup(front, api, g, l) ensures LockOfGroup(gs, api, g, l) {}
      forall l | Recorded(last.tags) && l in OrNone(api(last.name)) ensures LockOfGroup(gs, api, last, l) {}
      forall g, l | LockOfGroup(gs, api, g, l) ensures LockOfGroup(front, api, g, l) || g == last {}
    }
  }

  /** The edges `resources.gather` writes are exactly those from each lock to the group it was
      listed for, where the group is recorded. */
  lemma ResourcesEdgesExact(groups: Fetch<seq<Group>>, api: LockApi, e: Edge)
    ensures e in EdgesOf(ResourcesCalls(groups, api)) <==>
      exists g, l :: LockOfGroup(OrNone(groups), api, g, l) && e == Protects(g, l)
  {
    hide EdgesOf;
    hide AllGroupCalls;
    hide LockOfGroup;
    hide FetchError;
    GroupsEdges(OrNone(groups), api, e);
    ErrorHasNoEdge("global", GROUPS_SOURCE, groups);
    EdgeInEither(FetchError("global", GROUPS_SOURCE, groups), AllGroupCalls(OrNone(groups), api), e);
  }

  // ----- the locks of a subscription -----

  function SubscriptionLockResource(l: ManagementLock): Resource {
    Resource("authorization_lock", Some("global"), l.id, l.name, l.raw, ResourceGroup(l.id), None)
  }

  function AppliesTo(l: ManagementLock, scope: Id): Edge { Edge("authorization_lock", l.id, "resource_group", scope, "applies_to") }

  function SubscriptionLockCalls(l: ManagementLock): seq<Call> {
    [Call.AddResource(SubscriptionLockResource(l), NoTags)]
    + if IsGroupScope(LockScope(l.id)) then [Call.AddEdge(AppliesTo(l, LockScope(l.id)))] else []
  }

  function AllSubscriptionLockCalls(ls: seq<ManagementLock>): seq<Call> {
    if ls == [] then [] else AllSubscriptionLockCalls(ls[..|ls| - 1]) + SubscriptionLockCalls(ls[|ls| - 1])
  }

  const MANAGEMENT_LOCKS := "authorization:management_locks"

  function LocksCalls(locks: Fetch<seq<ManagementLock>>): seq<Call> {
    FetchError("global", MANAGEMENT_LOCKS, locks) + AllSubscriptionLockCalls(OrNone(locks))
  }

  /** The lock half of `authorization.gather`. */
  method GatherLocks(writer: InventoryWriter, locks: Fetch<seq<ManagementLock>>)
    requires writer.Valid()
    modifies writer
    ensures writer.Valid() && writer.history == old(writer.history) + LocksCalls(locks)
  {
    hide Run;
    hide Apply;
    hide ParseSuppression;
    hide Stamp;
    hide SubscriptionLockResource;
    hide AppliesTo;
    hide IsGroupScope;
    hide LockScope;
    if locks.Err? {
      writer.AddError(ErrorNote("global", MANAGEMENT_LOCKS, locks.error));
    }
    var ls := OrNone(locks);
    ghost var was := writer.history;
    UntaggedIsKept();
    for i := 0 to |ls|
      invariant writer.Valid() && writer.history == was + AllSubscriptionLockCalls(ls[..i])
    {
      var added := writer.AddResource(SubscriptionLockResource(ls[i]), NoTags);
      if added {
        var scope := LockScope(ls[i].id);
        if IsGroupScope(scope) {
          writer.AddEdge(AppliesTo(ls[i], scope));
        }
      }
      assert ls[..i + 1][..i] == ls[..i];
    }
    assert ls[..|ls|] == ls;
  }

  /** A lock placed on an ARM scope has an edge exactly when the scope is a resource group, and
      the edge then ends at that scope. */
  lemma LockEdgeExact(scope: seq<string>, suffix: string, name: string, lock: ManagementLock)
    requires lock.id == Some(Path(scope) + suffix + name)
    requires Lower(suffix) == LOCK_MARKER && !Contains(Lower(Path(scope)) + "/", LOCK_MARKER)
    ensures EdgesOf(SubscriptionLockCalls(lock))
      == if exists g :: GroupSegments(g) && Path(scope) == Path(g) then [AppliesTo(lock, Some(Path(scope)))] else []
  {
    hide EdgesOf;
    hide IsGroupScope;
    hide LockScope;
    hide SubscriptionLockResource;
    hide ParseSuppression;
    LockIdRoundTrip(Path(scope), suffix, name);
    GroupScopeExact(Path(scope));
    var first := [Call.AddResource(SubscriptionLockResource(lock), NoTags)];
    OneResource(SubscriptionLockResource(lock), NoTags, AllEdges);
    assert first + [] == first;
    OneEdge(AppliesTo(lock, Some(Path(scope))));
    PartsAppend(first, [Call.AddEdge(AppliesTo(lock, Some(Path(scope))))]);
  }

  // ----- everything the three modules leave -----

  /** `location or 'global'` */
  ghost function Place(location: Id): Id { if IsTruthy(location) then location else Some("global") }

  ghost function Printed(name: Id): string { if name.Some? then name.value else "None" }

  /** The records of resources that share their tags. */
  function KeptAll(rs: seq<Resource>, tags: RawTags): seq<Resource> {
    if rs == [] then [] else KeptAll(rs[..|rs| - 1], tags) + Kept(rs[|rs| - 1], tags)
  }

  ghost function SubnetsOf(v: VNet, ss: seq<Subnet>): seq<Resource> {
    seq(|ss|, k requires 0 <= k < |ss| => Resource("subnet", Place(v.location), ss[k].id, ss[k].name, ss[k].raw, v.id, None))
  }

  ghost function PeeringsIn(v: VNet, ps: seq<Peering>): seq<Resource> {
    seq(|ps|, k requires 0 <= k < |ps| =>
      Resource("vnet_peering", Place(v.location), ps[k].id, ps[k].name, ps[k].raw, ResourceGroup(v.id), None))
  }

  /** A VNet's record, then those of its subnets and of its peerings, all with the VNet's tags. */
  ghost function VNetRecords(v: VNet, ps: seq<Peering>): seq<Resource> {
    Kept(Resource("virtual_network", Place(v.location), v.id, v.name, v.raw, ResourceGroup(v.id), None), v.tags)
    + KeptAll(SubnetsOf(v, v.subnets), v.tags) + KeptAll(PeeringsIn(v, ps), v.tags)
  }

  /** Each subnet is in its VNet, and with the security group it names. */
  ghost function SubnetLinks(v: VNet, ss: seq<Subnet>): seq<Edge> {
    if ss == [] then []
    else
      var s := ss[|ss| - 1];
      SubnetLinks(v, ss[..|ss| - 1])
      + ([Edge("subnet", s.id, "virtual_network", v.id, "in_vnet")]
         + if IsTruthy(s.nsg) then [Edge("subnet", s.id, "nsg", s.nsg, "associated_with_nsg")] else [])
  }

  /** The id under which the far end of a peering is written. */
  ghost function FarEnd(vs: seq<VNet>, remote: Id): Id {
    match LastMatching(vs, remote) case Some(v) => v.id case None => remote
  }

  /** Each peering is with its own VNet, and with the far one it names. */
  ghost function PeeringLinks(v: VNet, ps: seq<Peering>, vs: seq<VNet>): seq<Edge> {
    if ps == [] then []
    else
      var p := ps[|ps| - 1];
      PeeringLinks(v, ps[..|ps| - 1], vs)
      + ([Edge("vnet_peering", p.id, "virtual_network", v.id, "peers_with")]
         + if IsTruthy(p.remote) then [Edge("vnet_peering", p.id, "virtual_network", FarEnd(vs, p.remote), "peers_with")] else [])
  }

  /** What one VNet leaves: nothing but a listing error when it is suppressed. */
  ghost function VNetTrail(v: VNet, ps: Fetch<seq<Peering>>, vs: seq<VNet>): Trail {
    Trail(VNetRecords(v, OrNone(ps)),
      if Recorded(v.tags) then SubnetLinks(v, v.subnets) + PeeringLinks(v, OrNone(ps), vs) else [],
      Failed(Place(v.location).value, "network:peerings:" + Printed(v.name), ps))
  }

  ghost function VNetsTrail(some: seq<VNet>, api: PeeringApi, vs: seq<VNet>): Trail {
    if some == [] then NO_TRAIL
    else
      var v := some[|some| - 1];
      VNetsTrail(some[..|some| - 1], api, vs).Plus(VNetTrail(v, api(ResourceGroup(v.id), v.name), vs))
  }

  lemma SubnetTrail(v: VNet, s: Subnet)
    ensures TrailOf(SubnetCalls(v, s)) == Trail(
      Kept(Resource("subnet", Place(v.location), s.id, s.name, s.raw, v.id, None), v.tags),
      if Recorded(v.tags) then [Edge("subnet", s.id, "virtual_network", v.id, "in_vnet")]
        + (if IsTruthy(s.nsg) then [Edge("subnet", s.id, "nsg", s.nsg, "associated_with_nsg")] else []) else [], [])
  {
    hide TrailOf, ParseSuppression, Kept;
    var first := [Call.AddResource(SubnetResource(v, s), v.tags)];
    TrailOfResource(SubnetResource(v, s), v.tags);
    if Recorded(v.tags) {
      TrailOfEdge(InVNet(v, s));
      TrailOfEdge(ToNsg(s));
      TrailAppend([Call.AddEdge(InVNet(v, s))], [Call.AddEdge(ToNsg(s))]);
      assert [Call.AddEdge(InVNet(v, s))] + [] == [Call.AddEdge(InVNet(v, s))];
      TrailAppend(first, SubnetEdges(v, s));
    } else {
      assert first + [] == first;
    }
  }

  lemma KeptLast(rs: seq<Resource>, tags: RawTags)
    requires rs != []
    ensures KeptAll(rs, tags) == KeptAll(rs[..|rs| - 1], tags) + Kept(rs[|rs| - 1], tags)
  {
    hide Kept;
  }

  lemma NoSubnets(v: VNet)
    ensures KeptAll(SubnetsOf(v, []), v.tags) == [] && SubnetLinks(v, []) == []
  {}

  lemma LastSubnet(v: VNet, ss: seq<Subnet>)
    requires ss != []
    ensures var n := |ss| - 1;
      var s := ss[n];
      && KeptAll(SubnetsOf(v, ss), v.tags) == KeptAll(SubnetsOf(v, ss[..n]), v.tags)
           + Kept(Resource("subnet", Place(v.location), s.id, s.name, s.raw, v.id, None), v.tags)
      && SubnetLinks(v, ss) == SubnetLinks(v, ss[..n]) + ([Edge("subnet", s.id, "virtual_network", v.id, "in_vnet")]
           + if IsTruthy(s.nsg) then [Edge("subnet", s.id, "nsg", s.nsg, "associated_with_nsg")] else [])
  {
    hide KeptAll, Kept;
    KeptLast(SubnetsOf(v, ss), v.tags);
    assert SubnetsOf(v, ss)[..|ss| - 1] == SubnetsOf(v, ss[..|ss| - 1]);
  }

  lemma {:induction false} SubnetsTrail(v: VNet, ss: seq<Subnet>)
    ensures TrailOf(AllSubnetCalls(v, ss))
      == Trail(KeptAll(SubnetsOf(v, ss), v.tags), if Recorded(v.tags) then SubnetLinks(v, ss) else [], [])
  {
    hide TrailOf, SubnetCalls, Kept, Recorded, SubnetsOf, KeptAll, SubnetLinks;
    TrailOfNothing();
    NoSubnets(v);
    if ss != [] {
      var n := |ss| - 1;
      LastSubnet(v, ss);
      SubnetsTrail(v, ss[..n]);
      SubnetTrail(v, ss[n]);
      TrailAppend(AllSubnetCalls(v, ss[..n]), SubnetCalls(v, ss[n]));
    }
  }

  lemma PeeringTrail(v: VNet, p: Peering, vs: seq<VNet>)
    ensures TrailOf(PeeringCalls(v, p, IdsByNormalized(vs))) == Trail(
      Kept(Resource("vnet_peering", Place(v.location), p.id, p.name, p.raw, ResourceGroup(v.id), None), v.tags),
      if Recorded(v.tags) then [Edge("vnet_peering", p.id, "virtual_network", v.id, "peers_with")]
        + (if IsTruthy(p.remote) then [Edge("vnet_peering", p.id, "virtual_network", FarEnd(vs, p.remote), "peers_with")] else [])
        else [], [])
  {
    hide TrailOf, ParseSuppression, Kept, ResourceGroup, Resolve, IdsByNormalized;
    var ids := IdsByNormalized(vs);
    var first := [Call.AddResource(PeeringResource(v, p), v.tags)];
    TrailOfResource(PeeringResource(v, p), v.tags);
    ResolveIsSearch(vs, p.remote);
    if Recorded(v.tags) {
      var near, far := PeersWith(p, v.id), PeersWith(p, Resolve(ids, p.remote));
      TrailOfEdge(near);
      TrailOfEdge(far);
      TrailAppend([Call.AddEdge(near)], [Call.AddEdge(far)]);
      assert [Call.AddEdge(near)] + [] == [Call.AddEdge(near)];
      TrailAppend(first, PeeringEdges(v, p, ids));
    } else {
      assert first + [] == first;
    }
  }

  lemma NoPeeringsLeft(v: VNet, vs: seq<VNet>)
    ensures KeptAll(PeeringsIn(v, []), v.tags) == [] && PeeringLinks(v, [], vs) == []
  {}

  lemma LastPeering(v: VNet, ps: seq<Peering>, vs: seq<VNet>)
    requires ps != []
    ensures var n := |ps| - 1;
      var p := ps[n];
      && KeptAll(PeeringsIn(v, ps), v.tags) == KeptAll(PeeringsIn(v, ps[..n]), v.tags)
           + Kept(Resource("vnet_peering", Place(v.location), p.id, p.name, p.raw, ResourceGroup(v.id), None), v.tags)
      && PeeringLinks(v, ps, vs) == PeeringLinks(v, ps[..n], vs) + ([Edge("vnet_peering", p.id, "virtual_network", v.id, "peers_with")]
           + if IsTruthy(p.remote) then [Edge("vnet_peering", p.id, "virtual_network", FarEnd(vs, p.remote), "peers_with")] else [])
  {
    hide KeptAll, Kept, ResourceGroup, FarEnd;
    KeptLast(PeeringsIn(v, ps), v.tags);
    assert PeeringsIn(v, ps)[..|ps| - 1] == PeeringsIn(v, ps[..|ps| - 1]);
  }

  lemma {:induction false} PeeringsTrail(v: VNet, ps: seq<Peering>, vs: seq<VNet>)
    ensures TrailOf(AllPeeringCalls(v, ps, IdsByNormalized(vs)))
      == Trail(KeptAll(PeeringsIn(v, ps), v.tags), if Recorded(v.tags) then PeeringLinks(v, ps, vs) else [], [])
  {
    hide TrailOf, PeeringCalls, Kept, Recorded, ResourceGroup, FarEnd, IdsByNormalized, PeeringsIn, KeptAll, PeeringLinks;
    TrailOfNothing();
    NoPeeringsLeft(v, vs);
    if ps != [] {
      var n := |ps| - 1;
      LastPeering(v, ps, vs);
      PeeringsTrail(v, ps[..n], vs);
      PeeringTrail(v, ps[n], vs);
      TrailAppend(AllPeeringCalls(v, ps[..n], IdsByNormalized(vs)), PeeringCalls(v, ps[n], IdsByNormalized(vs)));
    }
  }

  lemma PlaceIsRegion(location: Id, name: Id)
    ensures Place(location) == RegionOf(location) && Place(location).Some? && Printed(name) == NameText(name)
  {}

  lemma OneVNetTrail(v: VNet, ps: Fetch<seq<Peering>>, vs: seq<VNet>)
    ensures TrailOf(VNetCalls(v, ps, IdsByNormalized(vs))) == VNetTrail(v, ps, vs)
  {
    hide TrailOf, AllSubnetCalls, AllPeeringCalls, FetchError, Kept, Recorded, ResourceGroup, KeptAll, SubnetLinks, PeeringLinks;
    hide IdsByNormalized, RegionOf, NameText, Place, Printed, SubnetsOf, PeeringsIn;
    PlaceIsRegion(v.location, v.name);
    var ids := IdsByNormalized(vs);
    var first := [Call.AddResource(VNetResource(v), v.tags)];
    TrailOfResource(VNetResource(v), v.tags);
    SubnetsTrail(v, v.subnets);
    TrailAppend(first, AllSubnetCalls(v, v.subnets));
    TrailOfFetch(RegionOf(v.location).value, PEERINGS_SOURCE + NameText(v.name), ps);
    PeeringsTrail(v, OrNone(ps), vs);
    TrailAppend(PeeringError(v, ps), AllPeeringCalls(v, OrNone(ps), ids));
    TrailAppend(VNetHead(v), VNetTail(v, ps, ids));
  }

  lemma {:induction false} AllVNetsTrail(some: seq<VNet>, api: PeeringApi, vs: seq<VNet>)
    ensures TrailOf(AllVNetCalls(some, api, IdsByNormalized(vs))) == VNetsTrail(some, api, vs)
  {
    hide TrailOf, VNetCalls, VNetTrail, ResourceGroup, IdsByNormalized;
    TrailOfNothing();
    if some != [] {
      var v := some[|some| - 1];
      var front := some[..|some| - 1];
      AllVNetsTrail(front, api, vs);
      OneVNetTrail(v, PeeringsOf(v, api), vs);
      TrailAppend(AllVNetCalls(front, api, IdsByNormalized(vs)), VNetCalls(v, PeeringsOf(v, api), IdsByNormalized(vs)));
    }
  }

  /** Everything `network.gather` leaves: the error of the listing, or what each VNet leaves, in
      order. */
  lemma NetworkExact(vnets: Fetch<seq<VNet>>, api: PeeringApi)
    ensures TrailOf(NetworkCalls(vnets, api))
      == Trail([], [], Failed("global", "network:virtual_networks", vnets)).Plus(VNetsTrail(OrNone(vnets), api, OrNone(vnets)))
  {
    hide TrailOf, AllVNetCalls, FetchError, VNetsTrail, IdsByNormalized;
    AllVNetsTrail(OrNone(vnets), api, OrNone(vnets));
    TrailOfFetch("global", VNETS_SOURCE, vnets);
    TrailAppend(FetchError("global", VNETS_SOURCE, vnets), AllVNetCalls(OrNone(vnets), api, IdsByNormalized(OrNone(vnets))));
  }

  // ----- resource groups -----

  ghost function LocksIn(g: Group, ls: seq<ManagementLock>): seq<Resource> {
    seq(|ls|, k requires 0 <= k < |ls| =>
      Resource("management_lock", Place(g.location), ls[k].id, ls[k].name, ls[k].raw, g.name, None))
  }

  ghost function LockLinks(g: Group, ls: seq<ManagementLock>): seq<Edge> {
    seq(|ls|, k requires 0 <= k < |ls| => Edge("management_lock", ls[k].id, "resource_group", g.id, "protects"))
  }

  /** What one group leaves: its locks are recorded whether it is or not. */
  ghost function GroupTrail(g: Group, ls: Fetch<seq<ManagementLock>>): Trail {
    Trail(Kept(Resource("resource_group", Place(g.location), g.id, g.name, g.raw, g.name, None), g.tags) + LocksIn(g, OrNone(ls)),
      if Recorded(g.tags) then LockLinks(g, OrNone(ls)) else [],
      Failed(Place(g.location).value, "resources:locks:" + Printed(g.name), ls))
  }

  ghost function GroupsTrail(gs: seq<Group>, api: LockApi): Trail {
    if gs == [] then NO_TRAIL
    else GroupsTrail(gs[..|gs| - 1], api).Plus(GroupTrail(gs[|gs| - 1], api(gs[|gs| - 1].name)))
  }

  lemma LockTrail(g: Group, l: ManagementLock)
    ensures TrailOf(LockCalls(g, l)) == Trail(
      [Resource("management_lock", Place(g.location), l.id, l.name, l.raw, g.name, None)],
      if Recorded(g.tags) then [Edge("management_lock", l.id, "resource_group", g.id, "protects")] else [], [])
  {
    hide TrailOf, ParseSuppression;
    var first := [Call.AddResource(LockResource(g, l), NoTags)];
    TrailOfUntagged(LockResource(g, l));
    if Recorded(g.tags) {
      TrailOfEdge(Protects(g, l));
      TrailAppend(first, [Call.AddEdge(Protects(g, l))]);
    } else {
      assert first + [] == first;
    }
  }

  lemma NoLocks(g: Group)
    ensures LocksIn(g, []) == [] && LockLinks(g, []) == []
  {}

  lemma LastLock(g: Group, ls: seq<ManagementLock>)
    requires ls != []
    ensures var n := |ls| - 1;
      && LocksIn(g, ls) == LocksIn(g, ls[..n])
           + [Resource("management_lock", Place(g.location), ls[n].id, ls[n].name, ls[n].raw, g.name, None)]
      && LockLinks(g, ls) == LockLinks(g, ls[..n]) + [Edge("management_lock", ls[n].id, "resource_group", g.id, "protects")]
  {}

  lemma {:induction false} LocksTrail(g: Group, ls: seq<ManagementLock>)
    ensures TrailOf(AllLockCalls(g, ls)) == Trail(LocksIn(g, ls), if Recorded(g.tags) then LockLinks(g, ls) else [], [])
  {
    hide TrailOf, LockCalls, Recorded, LocksIn, LockLinks;
    TrailOfNothing();
    NoLocks(g);
    if ls != [] {
      var n := |ls| - 1;
      LastLock(g, ls);
      LocksTrail(g, ls[..n]);
      LockTrail(g, ls[n]);
      TrailAppend(AllLockCalls(g, ls[..n]), LockCalls(g, ls[n]));
    }
  }

  lemma OneGroupTrail(g: Group, ls: Fetch<seq<ManagementLock>>)
    ensures TrailOf(GroupCalls(g, ls)) == GroupTrail(g, ls)
  {
    hide TrailOf, AllLockCalls, FetchError, Kept, Recorded, LocksIn, LockLinks, RegionOf, NameText, Place, Printed;
    PlaceIsRegion(g.location, g.name);
    var first := [Call.AddResource(GroupResource(g), g.tags)];
    var errors := FetchError(RegionOf(g.location).value, LOCKS_SOURCE + NameText(g.name), ls);
    TrailOfResource(GroupResource(g), g.tags);
    TrailOfFetch(RegionOf(g.location).value, LOCKS_SOURCE + NameText(g.name), ls);
    LocksTrail(g, OrNone(ls));
    TrailAppend(errors, AllLockCalls(g, OrNone(ls)));
    TrailAppend(first, GroupTail(g, ls));
  }

  lemma {:induction false} AllGroupsTrail(gs: seq<Group>, api: LockApi)
    ensures TrailOf(AllGroupCalls(gs, api)) == GroupsTrail(gs, api)
  {
    hide TrailOf, GroupCalls, GroupTrail;
    TrailOfNothing();
    if gs != [] {
      var g := gs[|gs| - 1];
      AllGroupsTrail(gs[..|gs| - 1], api);
      OneGroupTrail(g, api(g.name));
      TrailAppend(AllGroupCalls(gs[..|gs| - 1], api), GroupCalls(g, api(g.name)));
    }
  }

  /** Everything `resources.gather` leaves, likewise. */
  lemma ResourcesExact(groups: Fetch<seq<Group>>, api: LockApi)
    ensures TrailOf(ResourcesCalls(groups, api))
      == Trail([], [], Failed("global", "resources:resource_groups", groups)).Plus(GroupsTrail(OrNone(groups), api))
  {
    hide TrailOf, AllGroupCalls, FetchError, GroupsTrail;
    AllGroupsTrail(OrNone(groups), api);
    TrailOfFetch("global", GROUPS_SOURCE, groups);
    TrailAppend(FetchError("global", GROUPS_SOURCE, groups), AllGroupCalls(OrNone(groups), api));
  }

  // ----- subscription locks -----

  ghost function LockRecords(ls: seq<ManagementLock>): seq<Resource> {
    seq(|ls|, k requires 0 <= k < |ls| =>
      Resource("authorization_lock", Some("global"), ls[k].id, ls[k].name, ls[k].raw, ResourceGroup(ls[k].id), None))
  }

  ghost function ScopeLinks(ls: seq<ManagementLock>): seq<Edge> {
    if ls == [] then []
    else
      var l := ls[|ls| - 1];
      ScopeLinks(ls[..|ls| - 1])
      + if IsGroupScope(LockScope(l.id)) then [Edge("authorization_lock", l.id, "resource_group", LockScope(l.id), "applies_to")]
        else []
  }

  lemma SubscriptionLockTrail(l: ManagementLock)
    ensures TrailOf(SubscriptionLockCalls(l)) == Trail(
      [Resource("authorization_lock", Some("global"), l.id, l.name, l.raw, ResourceGroup(l.id), None)],
      if IsGroupScope(LockScope(l.id)) then [Edge("authorization_lock", l.id, "resource_group", LockScope(l.id), "applies_to")]
      else [], [])
  {
    hide TrailOf, IsGroupScope, LockScope, ResourceGroup;
    var first := [Call.AddResource(SubscriptionLockResource(l), NoTags)];
    TrailOfUntagged(SubscriptionLockResource(l));
    if IsGroupScope(LockScope(l.id)) {
      TrailOfEdge(AppliesTo(l, LockScope(l.id)));
      TrailAppend(first, [Call.AddEdge(AppliesTo(l, LockScope(l.id)))]);
    } else {
      assert first + [] == first;
    }
  }

  lemma {:induction false} SubscriptionLocksExact(ls: seq<ManagementLock>)
    ensures TrailOf(AllSubscriptionLockCalls(ls)) == Trail(LockRecords(ls), ScopeLinks(ls), [])
  {
    hide TrailOf, SubscriptionLockCalls, IsGroupScope, LockScope, ResourceGroup;
    TrailOfNothing();
    if ls != [] {
      var n := |ls| - 1;
      SubscriptionLocksExact(ls[..n]);
      SubscriptionLockTrail(ls[n]);
      TrailAppend(AllSubscriptionLockCalls(ls[..n]), SubscriptionLockCalls(ls[n]));
    }
  }

  /** Everything the lock half of `authorization.gather` leaves: a record for each lock, an edge
      for each on a resource group, or the error of the listing. */
  lemma LocksExact(locks: Fetch<seq<ManagementLock>>)
    ensures TrailOf(LocksCalls(locks)) == Trail(LockRecords(OrNone(locks)), ScopeLinks(OrNone(locks)),
      Failed("global", "authorization:management_locks", locks))
  {
    hide TrailOf, AllSubscriptionLockCalls, FetchError, LockRecords, ScopeLinks;
    SubscriptionLocksExact(OrNone(locks));
    TrailOfFetch("global", MANAGEMENT_LOCKS, locks);
    TrailAppend(FetchError("global", MANAGEMENT_LOCKS, locks), AllSubscriptionLockCalls(OrNone(locks)));
  }
}
