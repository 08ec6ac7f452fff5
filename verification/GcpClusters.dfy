/** `gcp/gke.py` and `gcp/kms.py`: nested listings whose inner resources point at the outer one,
    and everything they leave behind. */
module GcpClusters {
  import opened Text
  import opened Json
  import opened Tags
  import opened Writer
  import opened Graph
  import opened GcpRefs

  // ----- gke -----

  datatype NodePool = NodePool(name: Option<string>, raw: Json)

  datatype Cluster = Cluster(
    name: Option<string>,
    location: Option<string>,
    network: Option<string>,
    subnetwork: Option<string>,
    labels: RawTags,
    pools: seq<NodePool>,
    raw: Json)
  {
    function Name(): string { OrEmpty(name) }

    /** `cluster.get('location', 'global')` */
    function Location(): string { match location case None => "global" case Some(l) => l }
  }

  function ClusterResource(c: Cluster): Resource {
    Resource("gke_cluster", Some(c.Location()), Some(c.Name()), Some(c.Name()), c.raw, ResourceName(c.network), None)
  }

  function PoolName(c: Cluster, p: NodePool): string { c.Name() + "/" + OrEmpty(p.name) }

  function PoolResource(c: Cluster, p: NodePool): Resource {
    Resource("gke_node_pool", Some(c.Location()), Some(PoolName(c, p)), Some(PoolName(c, p)), p.raw, ResourceName(c.network), None)
  }

  function PoolEdge(c: Cluster, p: NodePool): Edge {
    Edge("gke_node_pool", Some(PoolName(c, p)), "gke_cluster", Some(c.Name()), "in_cluster")
  }

  function ClusterEdge(c: Cluster, kind: string, id: string, relationship: string): Edge {
    Edge("gke_cluster", Some(c.Name()), kind, Some(id), relationship)
  }

  function EdgeTo(c: Cluster, kind: string, id: Option<string>, relationship: string): seq<Call> {
    match id case None => [] case Some(i) => [Call.AddEdge(ClusterEdge(c, kind, i, relationship))]
  }

  /** What a recorded cluster points at: its network and its subnet, where they resolve. */
  function PlaceCalls(c: Cluster, networks: seq<Item>, subnets: seq<Subnet>): seq<Call> {
    EdgeTo(c, "vpc_network", NetworkId(networks, c.network), "in_vpc_network")
    + EdgeTo(c, "subnet", ClusterSubnetId(subnets, c.subnetwork, c.Location()), "in_subnet")
  }

  /** A pool's record; its edge only if the cluster was recorded too. */
  function PoolCalls(c: Cluster, p: NodePool): seq<Call> {
    [Call.AddResource(PoolResource(c, p), NoTags)]
    + if Recorded(c.labels) then [Call.AddEdge(PoolEdge(c, p))] else []
  }

  function AllPoolCalls(c: Cluster, ps: seq<NodePool>): seq<Call> {
    if ps == [] then [] else AllPoolCalls(c, ps[..|ps| - 1]) + PoolCalls(c, ps[|ps| - 1])
  }

  function ClusterHead(c: Cluster, networks: seq<Item>, subnets: seq<Subnet>): seq<Call> {
    [Call.AddResource(ClusterResource(c), c.labels)]
    + if Recorded(c.labels) then PlaceCalls(c, networks, subnets) else []
  }

  function ClusterCalls(c: Cluster, networks: seq<Item>, subnets: seq<Subnet>): seq<Call> {
    ClusterHead(c, networks, subnets) + AllPoolCalls(c, c.pools)
  }

  function AllClusterCalls(cs: seq<Cluster>, networks: seq<Item>, subnets: seq<Subnet>): seq<Call> {
    if cs == [] then []
    else AllClusterCalls(cs[..|cs| - 1], networks, subnets) + ClusterCalls(cs[|cs| - 1], networks, subnets)
  }

  const NETWORKS := "gke_cluster (network resolution)"
  const SUBNETS := "gke_cluster (subnet resolution)"

  /** Without clusters nothing else is fetched. */
  function GkeCalls(clusters: Fetch<seq<Cluster>>, networks: Fetch<seq<Item>>, subnets: Fetch<seq<Subnet>>): seq<Call> {
    if clusters.Err? then FetchError("global", "gke_cluster", clusters)
    else
      (FetchError("global", NETWORKS, networks) + FetchError("global", SUBNETS, subnets))
      + AllClusterCalls(clusters.value, OrNone(networks), OrNone(subnets))
  }

  method WritePlaces(writer: InventoryWriter, c: Cluster, networks: map<string, string>, subnets: map<SubnetKey, string>,
      ghost items: seq<Item>, ghost keyed: seq<Subnet>)
    requires writer.Valid() && networks == LinkByName(items) && subnets == LinkByKey(keyed)
    modifies writer
    ensures writer.Valid() && writer.history == old(writer.history) + PlaceCalls(c, items, keyed)
  {
    hide Run;
    hide LinkByName;
    hide LinkByKey;
    hide ResourceName;
    hide RegionOfLocation;
    hide ClusterEdge;
    var name := ResourceName(c.network);
    if name.Some? && name.value in networks && networks[name.value] != [] {
      writer.AddEdge(ClusterEdge(c, "vpc_network", networks[name.value], "in_vpc_network"));
    }
    if c.subnetwork.Some? && c.subnetwork.value != [] {
      var key := SubnetKey(RegionOfLocation(c.Location()), c.subnetwork.value);
      if key in subnets && subnets[key] != [] {
        writer.AddEdge(ClusterEdge(c, "subnet", subnets[key], "in_subnet"));
      }
    }
  }

  method WriteCluster(writer: InventoryWriter, c: Cluster, networks: map<string, string>, subnets: map<SubnetKey, string>,
      ghost items: seq<Item>, ghost keyed: seq<Subnet>)
    requires writer.Valid() && networks == LinkByName(items) && subnets == LinkByKey(keyed)
    modifies writer
    ensures writer.Valid() && writer.history == old(writer.history) + ClusterCalls(c, items, keyed)
  {
    hide Run;
    hide Apply;
    hide ParseSuppression;
    hide Stamp;
    hide LinkByName;
    hide LinkByKey;
    hide PlaceCalls;
    hide AllPoolCalls;
    hide ClusterResource;
    var recorded := writer.AddResource(ClusterResource(c), c.labels);
    if recorded {
      WritePlaces(writer, c, networks, subnets, items, keyed);
    }
    WritePools(writer, c, recorded);
  }

  method WritePools(writer: InventoryWriter, c: Cluster, recorded: bool)
    requires writer.Valid() && (recorded <==> Recorded(c.labels))
    modifies writer
    ensures writer.Valid() && writer.history == old(writer.history) + AllPoolCalls(c, c.pools)
  {
    hide Run;
    hide Apply;
    hide ParseSuppression;
    hide Stamp;
    hide PoolResource;
    hide PoolEdge;
    UntaggedIsKept();
    for i := 0 to |c.pools|
      invariant writer.Valid() && writer.history == old(writer.history) + AllPoolCalls(c, c.pools[..i])
    {
      var poolRecorded := writer.AddResource(PoolResource(c, c.pools[i]), NoTags);
      if poolRecorded && recorded {
        writer.AddEdge(PoolEdge(c, c.pools[i]));
      }
      assert c.pools[..i + 1][..i] == c.pools[..i];
    }
    assert c.pools[..|c.pools|] == c.pools;
  }

  method WriteClusters(writer: InventoryWriter, cs: seq<Cluster>, networks: map<string, string>, subnets: map<SubnetKey, string>,
      ghost items: seq<Item>, ghost keyed: seq<Subnet>)
    requires writer.Valid() && networks == LinkByName(items) && subnets == LinkByKey(keyed)
    modifies writer
    ensures writer.Valid() && writer.history == old(writer.history) + AllClusterCalls(cs, items, keyed)
  {
    hide Run;
    hide ClusterCalls;
    hide LinkByName;
    hide LinkByKey;
    for i := 0 to |cs|
      invariant writer.Valid() && writer.history == old(writer.history) + AllClusterCalls(cs[..i], items, keyed)
    {
      WriteCluster(writer, cs[i], networks, subnets, items, keyed);
      assert cs[..i + 1][..i] == cs[..i];
    }
    assert cs[..|cs|] == cs;
  }

  /** `gke.gather` */
  method GatherGke(writer: InventoryWriter, clusters: Fetch<seq<Cluster>>, networks: Fetch<seq<Item>>, subnets: Fetch<seq<Subnet>>)
    requires writer.Valid()
    modifies writer
    ensures writer.Valid() && writer.history == old(writer.history) + GkeCalls(clusters, networks, subnets)
  {
    hide Run;
    hide AllClusterCalls;
    if clusters.Err? {
      writer.AddError(ErrorNote("global", "gke_cluster", clusters.error));
      return;
    }
    var byName: map<string, string> := map[];
    if networks.Ok? {
      byName := LinkByName(networks.value);
    } else {
      writer.AddError(ErrorNote("global", NETWORKS, networks.error));
    }
    var byKey: map<SubnetKey, string> := map[];
    if subnets.Ok? {
      byKey := LinkByKey(subnets.value);
    } else {
      writer.AddError(ErrorNote("global", SUBNETS, subnets.error));
    }
    WriteClusters(writer, clusters.value, byName, byKey, OrNone(networks), OrNone(subnets));
  }

  // ----- the graph of gke -----

  predicate ToCluster(e: Edge) { e.toType == "gke_cluster" }

  lemma ErrorAdds<T>(region: string, source: string, f: Fetch<T>, own: Edge -> bool)
    ensures Closed(FetchError(region, source, f), own)
  {
    NothingNamed(own);
    if f.Err? { OneError(ErrorNote(region, source, f.error), own); }
  }

  lemma KindsDiffer()
    ensures "vpc_network" != "gke_cluster" && "subnet" != "gke_cluster"
  {
    assert "vpc_network"[0] == 'v' && "gke_cluster"[0] == 'g' && |"subnet"| != |"gke_cluster"|;
  }

  lemma PlacesAnchored(c: Cluster, networks: seq<Item>, subnets: seq<Subnet>, nodes: set<Node>)
    requires Node("gke_cluster", Some(c.Name())) in nodes
    ensures Anchored(EdgesOf(PlaceCalls(c, networks, subnets)), nodes, ToCluster)
  {
    hide NetworkId;
    hide ClusterSubnetId;
    hide EdgesOf;
    KindsDiffer();
    EdgeToAnchored(c, "vpc_network", NetworkId(networks, c.network), "in_vpc_network", nodes);
    EdgeToAnchored(c, "subnet", ClusterSubnetId(subnets, c.subnetwork, c.Location()), "in_subnet", nodes);
    AnchoredAppend(EdgeTo(c, "vpc_network", NetworkId(networks, c.network), "in_vpc_network"),
      EdgeTo(c, "subnet", ClusterSubnetId(subnets, c.subnetwork, c.Location()), "in_subnet"), nodes, ToCluster);
  }

  lemma EdgeToAnchored(c: Cluster, kind: string, id: Option<string>, relationship: string, nodes: set<Node>)
    requires Node("gke_cluster", Some(c.Name())) in nodes && kind != "gke_cluster"
    ensures Anchored(EdgesOf(EdgeTo(c, kind, id, relationship)), nodes, ToCluster)
  {
    NothingNamed(ToCluster);
    if id.Some? { OneEdge(ClusterEdge(c, kind, id.value, relationship)); }
  }

  lemma ClusterHeadClosed(c: Cluster, networks: seq<Item>, subnets: seq<Subnet>)
    ensures Closed(ClusterHead(c, networks, subnets), ToCluster)
    ensures Recorded(c.labels) ==> Node("gke_cluster", Some(c.Name())) in Named(ClusterHead(c, networks, subnets))
  {
    hide PlaceCalls;
    hide Named;
    hide EdgesOf;
    hide ParseSuppression;
    var first := [Call.AddResource(ClusterResource(c), c.labels)];
    OneResource(ClusterResource(c), c.labels, ToCluster);
    if Recorded(c.labels) {
      var places := PlaceCalls(c, networks, subnets);
      PlacesAnchored(c, networks, subnets, Named(first) + Named(places));
      ClosedAfter(first, places, ToCluster);
      NamedAppend(first, places);
    } else {
      assert first + [] == first;
    }
  }

  lemma PoolAnchored(c: Cluster, p: NodePool, nodes: set<Node>)
    requires Recorded(c.labels) ==> Node("gke_cluster", Some(c.Name())) in nodes
    ensures Anchored(EdgesOf(PoolCalls(c, p)), nodes + Named(PoolCalls(c, p)), ToCluster)
  {
    hide Named;
    hide EdgesOf;
    hide ParseSuppression;
    var first := [Call.AddResource(PoolResource(c, p), NoTags)];
    UntaggedIsKept();
    OneResource(PoolResource(c, p), NoTags, ToCluster);
    if Recorded(c.labels) {
      OneEdge(PoolEdge(c, p));
      NamedAppend(first, [Call.AddEdge(PoolEdge(c, p))]);
      PartsAppend(first, [Call.AddEdge(PoolEdge(c, p))]);
    } else {
      assert first + [] == first;
    }
  }

  lemma {:induction false} PoolsAnchored(c: Cluster, ps: seq<NodePool>, nodes: set<Node>)
    requires Recorded(c.labels) ==> Node("gke_cluster", Some(c.Name())) in nodes
    ensures Anchored(EdgesOf(AllPoolCalls(c, ps)), nodes + Named(AllPoolCalls(c, ps)), ToCluster)
  {
    hide Named;
    hide EdgesOf;
    hide Anchored;
    hide PoolCalls;
    hide Recorded;
    if ps == [] {
      NothingAnchored(nodes + Named([]), ToCluster);
    } else {
      var n := |ps| - 1;
      var a, b := AllPoolCalls(c, ps[..n]), PoolCalls(c, ps[n]);
      PoolsAnchored(c, ps[..n], nodes);
      PoolAnchored(c, ps[n], nodes);
      AnchoredWithin(a, b, nodes, ToCluster);
    }
  }

  lemma ClusterClosed(c: Cluster, networks: seq<Item>, subnets: seq<Subnet>)
    ensures Closed(ClusterCalls(c, networks, subnets), ToCluster)
  {
    hide Named;
    hide EdgesOf;
    hide Anchored;
    hide ClusterHead;
    hide AllPoolCalls;
    hide Recorded;
    ClusterHeadClosed(c, networks, subnets);
    PoolsAnchored(c, c.pools, Named(ClusterHead(c, networks, subnets)));
    ClosedAfter(ClusterHead(c, networks, subnets), AllPoolCalls(c, c.pools), ToCluster);
  }

  lemma {:induction false} ClustersClosed(cs: seq<Cluster>, networks: seq<Item>, subnets: seq<Subnet>)
    ensures Closed(AllClusterCalls(cs, networks, subnets), ToCluster)
  {
    hide Closed;
    hide ClusterCalls;
    if cs == [] {
      NothingNamed(ToCluster);
    } else {
      var n := |cs| - 1;
      ClustersClosed(cs[..n], networks, subnets);
      ClusterClosed(cs[n], networks, subnets);
      ClosedAppend(AllClusterCalls(cs[..n], networks, subnets), ClusterCalls(cs[n], networks, subnets), ToCluster);
    }
  }

  /** Every edge `gke.gather` writes leaves a recorded resource, and every edge to a cluster ends
      at a recorded one. */
  lemma GkeClosed(clusters: Fetch<seq<Cluster>>, networks: Fetch<seq<Item>>, subnets: Fetch<seq<Subnet>>)
    ensures Closed(GkeCalls(clusters, networks, subnets), ToCluster)
  {
    hide Closed;
    hide FetchError;
    hide AllClusterCalls;
    ErrorAdds("global", "gke_cluster", clusters, ToCluster);
    ErrorAdds("global", NETWORKS, networks, ToCluster);
    ErrorAdds("global", SUBNETS, subnets, ToCluster);
    var errors := FetchError("global", NETWORKS, networks) + FetchError("global", SUBNETS, subnets);
    ClosedAppend(FetchError("global", NETWORKS, networks), FetchError("global", SUBNETS, subnets), ToCluster);
    if clusters.Ok? {
      ClustersClosed(clusters.value, OrNone(networks), OrNone(subnets));
      ClosedAppend(errors, AllClusterCalls(clusters.value, OrNone(networks), OrNone(subnets)), ToCluster);
    }
  }

  lemma {:induction false} PoolEdges(c: Cluster, ps: seq<NodePool>, e: Edge)
    ensures e in EdgesOf(AllPoolCalls(c, ps)) <==> Recorded(c.labels) && exists p :: p in ps && e == PoolEdge(c, p)
  {
    hide EdgesOf;
    hide Recorded;
    hide PoolEdge;
    hide PoolResource;
    if ps == [] {
      NothingNamed(AllEdges);
    } else {
      var front, last := ps[..|ps| - 1], ps[|ps| - 1];
      PoolEdges(c, front, e);
      EdgesOfOne(PoolResource(c, last), NoTags, PoolEdge(c, last));
      EdgeInEither(AllPoolCalls(c, front), PoolCalls(c, last), e);
      assert ps == front + [last];
    }
  }

  /** The edges of one cluster and its pools. */
  ghost predicate EdgeOfCluster(c: Cluster, networks: seq<Item>, subnets: seq<Subnet>, e: Edge) {
    && Recorded(c.labels)
    && (|| (NetworkId(networks, c.network).Some?
            && e == ClusterEdge(c, "vpc_network", NetworkId(networks, c.network).value, "in_vpc_network"))
        || (ClusterSubnetId(subnets, c.subnetwork, c.Location()).Some?
            && e == ClusterEdge(c, "subnet", ClusterSubnetId(subnets, c.subnetwork, c.Location()).value, "in_subnet"))
        || exists p :: p in c.pools && e == PoolEdge(c, p))
  }

  lemma EdgeToExact(c: Cluster, kind: string, id: Option<string>, relationship: string, e: Edge)
    ensures e in EdgesOf(EdgeTo(c, kind, id, relationship)) <==> id.Some? && e == ClusterEdge(c, kind, id.value, relationship)
  {
    if id.Some? { OneEdge(ClusterEdge(c, kind, id.value, relationship)); }
  }

  lemma ClusterEdges(c: Cluster, networks: seq<Item>, subnets: seq<Subnet>, e: Edge)
    ensures e in EdgesOf(ClusterCalls(c, networks, subnets)) <==> EdgeOfCluster(c, networks, subnets, e)
  {
    hide EdgesOf;
    hide Recorded;
    hide NetworkId;
    hide ClusterSubnetId;
    hide ClusterEdge;
    hide ClusterResource;
    hide PoolEdge;
    hide AllPoolCalls;
    hide EdgeTo;
    var network := EdgeTo(c, "vpc_network", NetworkId(networks, c.network), "in_vpc_network");
    var subnet := EdgeTo(c, "subnet", ClusterSubnetId(subnets, c.subnetwork, c.Location()), "in_subnet");
    EdgeToExact(c, "vpc_network", NetworkId(networks, c.network), "in_vpc_network", e);
    EdgeToExact(c, "subnet", ClusterSubnetId(subnets, c.subnetwork, c.Location()), "in_subnet", e);
    EdgeInEither(network, subnet, e);
    var first := [Call.AddResource(ClusterResource(c), c.labels)];
    EdgesOfOne(ClusterResource(c), c.labels, e);
    assert first + [] == first;
    EdgeInEither(first, PlaceCalls(c, networks, subnets), e);
    PoolEdges(c, c.pools, e);
    EdgeInEither(ClusterHead(c, networks, subnets), AllPoolCalls(c, c.pools), e);
  }

  /** A suppressed cluster leaves no edge, nor do its pools. */
  lemma SuppressedClusterIsSilent(c: Cluster, networks: seq<Item>, subnets: seq<Subnet>)
    requires !Recorded(c.labels)
    ensures EdgesOf(ClusterCalls(c, networks, subnets)) == []
  {
    hide EdgesOf;
    hide ClusterCalls;
    hide Recorded;
    var edges := EdgesOf(ClusterCalls(c, networks, subnets));
    if edges != [] { ClusterEdges(c, networks, subnets, edges[0]); }
  }

  lemma {:induction false} AllClusterEdges(cs: seq<Cluster>, networks: seq<Item>, subnets: seq<Subnet>, e: Edge)
    ensures e in EdgesOf(AllClusterCalls(cs, networks, subnets)) <==>
      exists c :: c in cs && EdgeOfCluster(c, networks, subnets, e)
  {
    hide EdgesOf;
    hide ClusterCalls;
    hide EdgeOfCluster;
    if cs == [] {
      NothingNamed(AllEdges);
    } else {
      var front, last := cs[..|cs| - 1], cs[|cs| - 1];
      AllClusterEdges(front, networks, subnets, e);
      ClusterEdges(last, networks, subnets, e);
      EdgeInEither(AllClusterCalls(front, networks, subnets), ClusterCalls(last, networks, subnets), e);
      assert cs == front + [last];
    }
  }

  /** The edges of `gke.gather` are exactly those of the recorded clusters: to their network and
      subnet where these resolve, and from their own pools. */
  lemma GkeEdgesExact(clusters: Fetch<seq<Cluster>>, networks: Fetch<seq<Item>>, subnets: Fetch<seq<Subnet>>, e: Edge)
    ensures e in EdgesOf(GkeCalls(clusters, networks, subnets)) <==>
      exists c :: c in OrNone(clusters) && EdgeOfCluster(c, OrNone(networks), OrNone(subnets), e)
  {
    hide EdgesOf;
    hide AllClusterCalls;
    hide EdgeOfCluster;
    hide FetchError;
    ErrorHasNoEdge("global", "gke_cluster", clusters);
    ErrorHasNoEdge("global", NETWORKS, networks);
    ErrorHasNoEdge("global", SUBNETS, subnets);
    if clusters.Ok? {
      var errors := FetchError("global", NETWORKS, networks) + FetchError("global", SUBNETS, subnets);
      EdgeInEither(FetchError("global", NETWORKS, networks), FetchError("global", SUBNETS, subnets), e);
      AllClusterEdges(clusters.value, OrNone(networks), OrNone(subnets), e);
      EdgeInEither(errors, AllClusterCalls(clusters.value, OrNone(networks), OrNone(subnets)), e);
    }
  }

  // ----- kms -----

  datatype Location = Location(name: Option<string>, id: Option<string>)
  {
    function Name(): string { OrEmpty(name) }

    /** `location.get('locationId', location_name.split('/')[-1])` */
    function Id(): string { match id case Some(i) => i case None => AfterLast(Name(), '/') }
  }

  datatype Ring = Ring(name: Option<string>, raw: Json)

  datatype CryptoKey = CryptoKey(name: Option<string>, labels: RawTags, fields: seq<Field>)

  /** The three nested listings and the policy of a key. */
  datatype KmsApi = KmsApi(
    rings: string -> Fetch<seq<Ring>>,
    keys: string -> Fetch<seq<CryptoKey>>,
    policy: string -> Fetch<Json>)

  const LOCATIONS := "locations"

  /** `_region_from_key_name` */
  function RegionOfKey(name: string): string {
    match After(Split(name, '/'), LOCATIONS) case Some(r) => r case None => "global"
  }

  const BINDINGS := "_IamPolicyBindings"

  function KeyFields(k: CryptoKey, policy: Fetch<Json>): seq<Field> {
    if policy.Ok? then Put(k.fields, BINDINGS, policy.value) else k.fields
  }

  function KeyResource(k: CryptoKey, policy: Fetch<Json>): Resource {
    Resource("kms_crypto_key", Some(RegionOfKey(OrEmpty(k.name))), Some(OrEmpty(k.name)),
      Some(AfterLast(OrEmpty(k.name), '/')), Obj(KeyFields(k, policy)), None, None)
  }

  function RingResource(l: Location, r: Ring): Resource {
    Resource("kms_keyring", Some(l.Id()), Some(OrEmpty(r.name)), Some(AfterLast(OrEmpty(r.name), '/')), r.raw, None, None)
  }

  function KeyEdge(k: CryptoKey, r: Ring): Edge {
    Edge("kms_crypto_key", Some(OrEmpty(k.name)), "kms_keyring", Some(OrEmpty(r.name)), "in_keyring")
  }

  const KEY_SOURCE := "kms_crypto_key:"

  function KeyTail(k: CryptoKey, r: Ring, policy: Fetch<Json>): seq<Call> {
    [Call.AddResource(KeyResource(k, policy), k.labels)]
    + if Recorded(k.labels) then [Call.AddEdge(KeyEdge(k, r))] else []
  }

  /** A key whose policy cannot be read is recorded without it. */
  function KeyCalls(k: CryptoKey, r: Ring, policy: Fetch<Json>): seq<Call> {
    FetchError(RegionOfKey(OrEmpty(k.name)), KEY_SOURCE + OrEmpty(k.name), policy) + KeyTail(k, r, policy)
  }

  function AllKeyCalls(ks: seq<CryptoKey>, r: Ring, policy: string -> Fetch<Json>): seq<Call> {
    if ks == [] then []
    else AllKeyCalls(ks[..|ks| - 1], r, policy) + KeyCalls(ks[|ks| - 1], r, policy(OrEmpty(ks[|ks| - 1].name)))
  }

  function RingTail(l: Location, r: Ring, keys: Fetch<seq<CryptoKey>>, policy: string -> Fetch<Json>): seq<Call> {
    FetchError(l.Id(), KEY_SOURCE + OrEmpty(r.name), keys) + AllKeyCalls(OrNone(keys), r, policy)
  }

  function RingCalls(l: Location, r: Ring, api: KmsApi): seq<Call> {
    [Call.AddResource(RingResource(l, r), NoTags)] + RingTail(l, r, api.keys(OrEmpty(r.name)), api.policy)
  }

  function AllRingCalls(l: Location, rs: seq<Ring>, api: KmsApi): seq<Call> {
    if rs == [] then [] else AllRingCalls(l, rs[..|rs| - 1], api) + RingCalls(l, rs[|rs| - 1], api)
  }

  function LocationCalls(l: Location, api: KmsApi): seq<Call> {
    FetchError(l.Id(), "kms_keyring", api.rings(l.Name())) + AllRingCalls(l, OrNone(api.rings(l.Name())), api)
  }

  function AllLocationCalls(ls: seq<Location>, api: KmsApi): seq<Call> {
    if ls == [] then [] else AllLocationCalls(ls[..|ls| - 1], api) + LocationCalls(ls[|ls| - 1], api)
  }

  function KmsCalls(locations: Fetch<seq<Location>>, api: KmsApi): seq<Call> {
    FetchError("global", "kms_keyring", locations) + AllLocationCalls(OrNone(locations), api)
  }

  method WriteKey(writer: InventoryWriter, k: CryptoKey, r: Ring, ringRecorded: bool, policy: Fetch<Json>)
    requires writer.Valid() && ringRecorded
    modifies writer
    ensures writer.Valid() && writer.history == old(writer.history) + KeyCalls(k, r, policy)
  {
    hide Run;
    hide Apply;
    hide ParseSuppression;
    hide Stamp;
    hide RegionOfKey;
    hide Put;
    hide AfterLast;
    var name := OrEmpty(k.name);
    var raw := k.fields;
    if policy.Ok? {
      raw := Put(raw, BINDINGS, policy.value);
    } else {
      writer.AddError(ErrorNote(RegionOfKey(name), KEY_SOURCE + name, policy.error));
    }
    var recorded := writer.AddResource(
      Resource("kms_crypto_key", Some(RegionOfKey(name)), Some(name), Some(AfterLast(name, '/')), Obj(raw), None, None), k.labels);
    if recorded && ringRecorded {
      writer.AddEdge(KeyEdge(k, r));
    }
  }

  method WriteRing(writer: InventoryWriter, l: Location, r: Ring, api: KmsApi)
    requires writer.Valid()
    modifies writer
    ensures writer.Valid() && writer.history == old(writer.history) + RingCalls(l, r, api)
  {
    hide Run;
    hide Apply;
    hide ParseSuppression;
    hide Stamp;
    hide RingResource;
    hide KeyCalls;
    UntaggedIsKept();
    var ringRecorded := writer.AddResource(RingResource(l, r), NoTags);
    var keys := api.keys(OrEmpty(r.name));
    if keys.Err? {
      writer.AddError(ErrorNote(l.Id(), KEY_SOURCE + OrEmpty(r.name), keys.error));
      return;
    }
    var ks := keys.value;
    ghost var was := writer.history;
    for i := 0 to |ks|
      invariant writer.Valid() && writer.history == was + AllKeyCalls(ks[..i], r, api.policy)
    {
      WriteKey(writer, ks[i], r, ringRecorded, api.policy(OrEmpty(ks[i].name)));
      assert ks[..i + 1][..i] == ks[..i];
    }
    assert ks[..|ks|] == ks;
  }

  /** `kms.gather` */
  method GatherKms(writer: InventoryWriter, locations: Fetch<seq<Location>>, api: KmsApi)
    requires writer.Valid()
    modifies writer
    ensures writer.Valid() && writer.history == old(writer.history) + KmsCalls(locations, api)
  {
    hide Run;
    hide LocationCalls;
    if locations.Err? {
      writer.AddError(ErrorNote("global", "kms_keyring", locations.error));
      return;
    }
    var ls := locations.value;
    for i := 0 to |ls|
      invariant writer.Valid() && writer.history == old(writer.history) + AllLocationCalls(ls[..i], api)
    {
      WriteLocation(writer, ls[i], api);
      assert ls[..i + 1][..i] == ls[..i];
    }
    assert ls[..|ls|] == ls;
  }

  /** One turn of the outer loop: a location whose rings cannot be listed is skipped. */
  method WriteLocation(writer: InventoryWriter, l: Location, api: KmsApi)
    requires writer.Valid()
    modifies writer
    ensures writer.Valid() && writer.history == old(writer.history) + LocationCalls(l, api)
  {
    hide Run;
    hide RingCalls;
    var rings := api.rings(l.Name());
    if rings.Err? {
      writer.AddError(ErrorNote(l.Id(), "kms_keyring", rings.error));
      return;
    }
    var rs := rings.value;
    for k := 0 to |rs|
      invariant writer.Valid() && writer.history == old(writer.history) + AllRingCalls(l, rs[..k], api)
    {
      WriteRing(writer, l, rs[k], api);
      assert rs[..k + 1][..k] == rs[..k];
    }
    assert rs[..|rs|] == rs;
  }

  // ----- the graph of kms -----

  lemma KeyTailAnchored(k: CryptoKey, r: Ring, policy: Fetch<Json>, nodes: set<Node>)
    requires Node("kms_keyring", Some(OrEmpty(r.name))) in nodes
    ensures Anchored(EdgesOf(KeyTail(k, r, policy)), nodes + Named(KeyTail(k, r, policy)), AllEdges)
  {
    hide Named;
    hide EdgesOf;
    hide ParseSuppression;
    hide RegionOfKey;
    var first := [Call.AddResource(KeyResource(k, policy), k.labels)];
    OneResource(KeyResource(k, policy), k.labels, AllEdges);
    if Recorded(k.labels) {
      OneEdge(KeyEdge(k, r));
      NamedAppend(first, [Call.AddEdge(KeyEdge(k, r))]);
      PartsAppend(first, [Call.AddEdge(KeyEdge(k, r))]);
    } else {
      assert first + [] == first;
    }
  }

  lemma ErrorAnchored<T>(region: string, source: string, f: Fetch<T>, nodes: set<Node>)
    ensures Anchored(EdgesOf(FetchError(region, source, f)), nodes + Named(FetchError(region, source, f)), AllEdges)
  {
    ErrorAdds(region, source, f, AllEdges);
    var calls := FetchError(region, source, f);
    AnchoredMore(EdgesOf(calls), Named(calls), nodes + Named(calls), AllEdges);
  }

  lemma {:induction false} KeysAnchored(ks: seq<CryptoKey>, r: Ring, policy: string -> Fetch<Json>, nodes: set<Node>)
    requires Node("kms_keyring", Some(OrEmpty(r.name))) in nodes
    ensures Anchored(EdgesOf(AllKeyCalls(ks, r, policy)), nodes + Named(AllKeyCalls(ks, r, policy)), AllEdges)
  {
    hide Named;
    hide EdgesOf;
    hide Anchored;
    hide KeyTail;
    hide FetchError;
    hide RegionOfKey;
    if ks == [] {
      NothingAnchored(nodes + Named([]), AllEdges);
    } else {
      var n := |ks| - 1;
      var name := OrEmpty(ks[n].name);
      KeysAnchored(ks[..n], r, policy, nodes);
      KeyTailAnchored(ks[n], r, policy(name), nodes);
      ErrorAnchored(RegionOfKey(name), KEY_SOURCE + name, policy(name), nodes);
      var e := FetchError(RegionOfKey(name), KEY_SOURCE + name, policy(name));
      AnchoredWithin(e, KeyTail(ks[n], r, policy(name)), nodes, AllEdges);
      AnchoredWithin(AllKeyCalls(ks[..n], r, policy), KeyCalls(ks[n], r, policy(name)), nodes, AllEdges);
    }
  }

  lemma RingClosed(l: Location, r: Ring, api: KmsApi)
    ensures Closed(RingCalls(l, r, api), AllEdges)
  {
    hide Named;
    hide EdgesOf;
    hide Anchored;
    hide AllKeyCalls;
    hide FetchError;
    hide ParseSuppression;
    var keys := api.keys(OrEmpty(r.name));
    var first := [Call.AddResource(RingResource(l, r), NoTags)];
    UntaggedIsKept();
    OneResource(RingResource(l, r), NoTags, AllEdges);
    KeysAnchored(OrNone(keys), r, api.policy, Named(first));
    ErrorAnchored(l.Id(), KEY_SOURCE + OrEmpty(r.name), keys, Named(first));
    var e := FetchError(l.Id(), KEY_SOURCE + OrEmpty(r.name), keys);
    AnchoredWithin(e, AllKeyCalls(OrNone(keys), r, api.policy), Named(first), AllEdges);
    ClosedAfter(first, RingTail(l, r, keys, api.policy), AllEdges);
  }

  lemma {:induction false} RingsClosed(l: Location, rs: seq<Ring>, api: KmsApi)
    ensures Closed(AllRingCalls(l, rs, api), AllEdges)
  {
    hide Closed;
    hide RingCalls;
    if rs == [] {
      NothingNamed(AllEdges);
    } else {
      var n := |rs| - 1;
      RingsClosed(l, rs[..n], api);
      RingClosed(l, rs[n], api);
      ClosedAppend(AllRingCalls(l, rs[..n], api), RingCalls(l, rs[n], api), AllEdges);
    }
  }

  lemma {:induction false} LocationsClosed(ls: seq<Location>, api: KmsApi)
    ensures Closed(AllLocationCalls(ls, api), AllEdges)
  {
    hide Closed;
    hide AllRingCalls;
    hide FetchError;
    if ls == [] {
      NothingNamed(AllEdges);
    } else {
      var n := |ls| - 1;
      var l := ls[n];
      LocationsClosed(ls[..n], api);
      ErrorAdds(l.Id(), "kms_keyring", api.rings(l.Name()), AllEdges);
      RingsClosed(l, OrNone(api.rings(l.Name())), api);
      var rings := api.rings(l.Name());
      ClosedAppend(FetchError(l.Id(), "kms_keyring", rings), AllRingCalls(l, OrNone(rings), api), AllEdges);
      ClosedAppend(AllLocationCalls(ls[..n], api), LocationCalls(l, api), AllEdges);
    }
  }

  /** Whatever listings or policies fail at whatever depth, every edge `kms.gather` writes joins two
      recorded resources. */
  lemma KmsClosed(locations: Fetch<seq<Location>>, api: KmsApi)
    ensures Closed(KmsCalls(locations, api), AllEdges)
  {
    hide Closed;
    hide AllLocationCalls;
    hide FetchError;
    ErrorAdds("global", "kms_keyring", locations, AllEdges);
    LocationsClosed(OrNone(locations), api);
    ClosedAppend(FetchError("global", "kms_keyring", locations), AllLocationCalls(OrNone(locations), api), AllEdges);
  }

  lemma KeyEdges(k: CryptoKey, r: Ring, policy: Fetch<Json>, e: Edge)
    ensures e in EdgesOf(KeyCalls(k, r, policy)) <==> Recorded(k.labels) && e == KeyEdge(k, r)
  {
    hide EdgesOf;
    hide Recorded;
    hide KeyEdge;
    hide KeyResource;
    hide FetchError;
    hide RegionOfKey;
    var name := OrEmpty(k.name);
    ErrorHasNoEdge(RegionOfKey(name), KEY_SOURCE + name, policy);
    EdgesOfOne(KeyResource(k, policy), k.labels, KeyEdge(k, r));
    EdgeInEither(FetchError(RegionOfKey(name), KEY_SOURCE + name, policy), KeyTail(k, r, policy), e);
  }

  lemma {:induction false} AllKeyEdges(ks: seq<CryptoKey>, r: Ring, policy: string -> Fetch<Json>, e: Edge)
    ensures e in EdgesOf(AllKeyCalls(ks, r, policy)) <==> exists k :: k in ks && Recorded(k.labels) && e == KeyEdge(k, r)
  {
    hide EdgesOf;
    hide Recorded;
    hide KeyEdge;
    hide KeyCalls;
    if ks == [] {
      NothingNamed(AllEdges);
    } else {
      var front, last := ks[..|ks| - 1], ks[|ks| - 1];
      var own := policy(OrEmpty(last.name));
      AllKeyEdges(front, r, policy, e);
      KeyEdges(last, r, own, e);
      EdgeInEither(AllKeyCalls(front, r, policy), KeyCalls(last, r, own), e);
      assert ks == front + [last];
    }
  }

  /** The key is recorded and listed for the ring. */
  ghost predicate KeyOfRing(api: KmsApi, r: Ring, k: CryptoKey) { k in OrNone(api.keys(OrEmpty(r.name))) && Recorded(k.labels) }

  lemma RingEdges(l: Location, r: Ring, api: KmsApi, e: Edge)
    ensures e in EdgesOf(RingCalls(l, r, api)) <==> exists k :: KeyOfRing(api, r, k) && e == KeyEdge(k, r)
  {
    hide EdgesOf;
    hide Recorded;
    hide KeyEdge;
    hide RingResource;
    hide AllKeyCalls;
    hide FetchError;
    var keys := api.keys(OrEmpty(r.name));
    var first := [Call.AddResource(RingResource(l, r), NoTags)];
    var errors := FetchError(l.Id(), KEY_SOURCE + OrEmpty(r.name), keys);
    AllKeyEdges(OrNone(keys), r, api.policy, e);
    ErrorHasNoEdge(l.Id(), KEY_SOURCE + OrEmpty(r.name), keys);
    EdgeInEither(errors, AllKeyCalls(OrNone(keys), r, api.policy), e);
    EdgesOfOne(RingResource(l, r), NoTags, e);
    assert first + [] == first;
    EdgeInEither(first, RingTail(l, r, keys, api.policy), e);
  }

  lemma {:induction false} AllRingEdges(l: Location, rs: seq<Ring>, api: KmsApi, e: Edge)
    ensures e in EdgesOf(AllRingCalls(l, rs, api)) <==> exists r, k :: r in rs && KeyOfRing(api, r, k) && e == KeyEdge(k, r)
  {
    hide EdgesOf;
    hide KeyOfRing;
    hide KeyEdge;
    hide RingCalls;
    if rs == [] {
      NothingNamed(AllEdges);
    } else {
      var front, last := rs[..|rs| - 1], rs[|rs| - 1];
      AllRingEdges(l, front, api, e);
      RingEdges(l, last, api, e);
      EdgeInEither(AllRingCalls(l, front, api), RingCalls(l, last, api), e);
      assert rs == front + [last];
    }
  }

  lemma LocationEdges(l: Location, api: KmsApi, e: Edge)
    ensures e in EdgesOf(LocationCalls(l, api)) <==>
      exists r, k :: r in OrNone(api.rings(l.Name())) && KeyOfRing(api, r, k) && e == KeyEdge(k, r)
  {
    hide EdgesOf;
    hide KeyOfRing;
    hide KeyEdge;
    hide AllRingCalls;
    hide FetchError;
    ErrorHasNoEdge(l.Id(), "kms_keyring", api.rings(l.Name()));
    AllRingEdges(l, OrNone(api.rings(l.Name())), api, e);
    EdgeInEither(FetchError(l.Id(), "kms_keyring", api.rings(l.Name())), AllRingCalls(l, OrNone(api.rings(l.Name())), api), e);
  }

  /** The ring is listed for one of the locations. */
  ghost predicate RingListed(ls: seq<Location>, api: KmsApi, r: Ring) {
    exists l :: l in ls && r in OrNone(api.rings(l.Name()))
  }

  lemma {:induction false} AllLocationEdges(ls: seq<Location>, api: KmsApi, e: Edge)
    ensures e in EdgesOf(AllLocationCalls(ls, api)) <==>
      exists r, k :: RingListed(ls, api, r) && KeyOfRing(api, r, k) && e == KeyEdge(k, r)
  {
    hide EdgesOf;
    hide KeyOfRing;
    hide KeyEdge;
    hide LocationCalls;
    if ls == [] {
      NothingNamed(AllEdges);
    } else {
      var front, last := ls[..|ls| - 1], ls[|ls| - 1];
      AllLocationEdges(front, api, e);
      LocationEdges(last, api, e);
      EdgeInEither(AllLocationCalls(front, api), LocationCalls(last, api), e);
      assert ls == front + [last];
      forall r ensures RingListed(ls, api, r) <==> RingListed(front, api, r) || r in OrNone(api.rings(last.Name())) {}
    }
  }

  /** The edges of `kms.gather` are exactly those from each recorded key to the ring it was listed
      for, whatever fails elsewhere. */
  lemma KmsEdgesExact(locations: Fetch<seq<Location>>, api: KmsApi, e: Edge)
    ensures e in EdgesOf(KmsCalls(locations, api)) <==>
      exists r, k :: RingListed(OrNone(locations), api, r) && KeyOfRing(api, r, k) && e == KeyEdge(k, r)
  {
    hide EdgesOf;
    hide KeyOfRing;
    hide KeyEdge;
    hide RingListed;
    hide AllLocationCalls;
    hide FetchError;
    ErrorHasNoEdge("global", "kms_keyring", locations);
    AllLocationEdges(OrNone(locations), api, e);
    EdgeInEither(FetchError("global", "kms_keyring", locations), AllLocationCalls(OrNone(locations), api), e);
  }

  // ----- everything gke leaves -----

  ghost function PoolRecords(c: Cluster, ps: seq<NodePool>): seq<Resource> {
    seq(|ps|, k requires 0 <= k < |ps| =>
      var name := OrEmpty(c.name) + "/" + OrEmpty(ps[k].name);
      Resource("gke_node_pool", Some(Where(c)), Some(name), Some(name), ps[k].raw, ResourceName(c.network), None))
  }

  ghost function PoolLinks(c: Cluster, ps: seq<NodePool>): seq<Edge> {
    seq(|ps|, k requires 0 <= k < |ps| =>
      Edge("gke_node_pool", Some(OrEmpty(c.name) + "/" + OrEmpty(ps[k].name)), "gke_cluster", Some(OrEmpty(c.name)), "in_cluster"))
  }

  ghost function Where(c: Cluster): string { if c.location.Some? then c.location.value else "global" }

  /** The edges of a recorded cluster: to its network, to its subnet, and from its pools. */
  ghost function ClusterLinks(c: Cluster, networks: seq<Item>, subnets: seq<Subnet>): seq<Edge> {
    (match NetworkId(networks, c.network)
     case None => []
     case id => [Edge("gke_cluster", Some(OrEmpty(c.name)), "vpc_network", id, "in_vpc_network")])
    + (match ClusterSubnetId(subnets, c.subnetwork, Where(c))
       case None => []
       case id => [Edge("gke_cluster", Some(OrEmpty(c.name)), "subnet", id, "in_subnet")])
    + PoolLinks(c, c.pools)
  }

  /** What one cluster leaves: its pools are recorded whether it is or not. */
  ghost function ClusterTrail(c: Cluster, networks: seq<Item>, subnets: seq<Subnet>): Trail {
    Trail(Kept(Resource("gke_cluster", Some(Where(c)), Some(OrEmpty(c.name)), Some(OrEmpty(c.name)), c.raw, ResourceName(c.network), None),
               c.labels) + PoolRecords(c, c.pools),
      if Recorded(c.labels) then ClusterLinks(c, networks, subnets) else [], [])
  }

  ghost function ClustersTrail(cs: seq<Cluster>, networks: seq<Item>, subnets: seq<Subnet>): Trail {
    if cs == [] then NO_TRAIL
    else ClustersTrail(cs[..|cs| - 1], networks, subnets).Plus(ClusterTrail(cs[|cs| - 1], networks, subnets))
  }

  lemma PoolTrail(c: Cluster, p: NodePool)
    ensures TrailOf(PoolCalls(c, p)) == Trail([PoolResource(c, p)], if Recorded(c.labels) then [PoolEdge(c, p)] else [], [])
  {
    hide TrailOf, ParseSuppression, PoolResource, PoolEdge;
    var first := [Call.AddResource(PoolResource(c, p), NoTags)];
    TrailOfUntagged(PoolResource(c, p));
    if Recorded(c.labels) {
      TrailOfEdge(PoolEdge(c, p));
      TrailAppend(first, [Call.AddEdge(PoolEdge(c, p))]);
    } else {
      assert first + [] == first;
    }
  }

  lemma NoPools(c: Cluster)
    ensures PoolRecords(c, []) == [] && PoolLinks(c, []) == []
  {}

  lemma LastPool(c: Cluster, ps: seq<NodePool>)
    requires ps != []
    ensures var n := |ps| - 1;
      && PoolRecords(c, ps) == PoolRecords(c, ps[..n]) + [PoolResource(c, ps[n])]
      && PoolLinks(c, ps) == PoolLinks(c, ps[..n]) + [PoolEdge(c, ps[n])]
  {
    hide ResourceName;
  }

  lemma {:induction false} PoolsTrail(c: Cluster, ps: seq<NodePool>)
    ensures TrailOf(AllPoolCalls(c, ps)) == Trail(PoolRecords(c, ps), if Recorded(c.labels) then PoolLinks(c, ps) else [], [])
  {
    hide TrailOf, PoolCalls, Recorded, ResourceName, PoolRecords, PoolLinks;
    TrailOfNothing();
    NoPools(c);
    if ps != [] {
      var n := |ps| - 1;
      LastPool(c, ps);
      PoolsTrail(c, ps[..n]);
      PoolTrail(c, ps[n]);
      TrailAppend(AllPoolCalls(c, ps[..n]), PoolCalls(c, ps[n]));
    }
  }

  lemma EdgeToTrail(c: Cluster, kind: string, id: Option<string>, relationship: string)
    ensures TrailOf(EdgeTo(c, kind, id, relationship))
      == Trail([], if id.Some? then [Edge("gke_cluster", Some(OrEmpty(c.name)), kind, id, relationship)] else [], [])
  {
    hide TrailOf;
    TrailOfNothing();
    if id.Some? { TrailOfEdge(ClusterEdge(c, kind, id.value, relationship)); }
  }

  lemma HeadTrail(c: Cluster, networks: seq<Item>, subnets: seq<Subnet>)
    ensures TrailOf(ClusterHead(c, networks, subnets)) == Trail(Kept(ClusterResource(c), c.labels),
      if Recorded(c.labels)
      then EdgesOf(EdgeTo(c, "vpc_network", NetworkId(networks, c.network), "in_vpc_network"))
        + EdgesOf(EdgeTo(c, "subnet", ClusterSubnetId(subnets, c.subnetwork, c.Location()), "in_subnet"))
      else [], [])
  {
    hide TrailOf, ParseSuppression, NetworkId, ClusterSubnetId, EdgeTo, ClusterResource, Kept;
    var first := [Call.AddResource(ClusterResource(c), c.labels)];
    var a := EdgeTo(c, "vpc_network", NetworkId(networks, c.network), "in_vpc_network");
    var b := EdgeTo(c, "subnet", ClusterSubnetId(subnets, c.subnetwork, c.Location()), "in_subnet");
    TrailOfResource(ClusterResource(c), c.labels);
    EdgeToTrail(c, "vpc_network", NetworkId(networks, c.network), "in_vpc_network");
    EdgeToTrail(c, "subnet", ClusterSubnetId(subnets, c.subnetwork, c.Location()), "in_subnet");
    TrailEdges(a);
    TrailEdges(b);
    TrailAppend(a, b);
    TrailAppend(first, a + b);
    assert first + [] == first;
  }

  lemma TrailEdges(calls: seq<Call>)
    ensures TrailOf(calls).edges == EdgesOf(calls)
  {}

  lemma OneClusterTrail(c: Cluster, networks: seq<Item>, subnets: seq<Subnet>)
    ensures TrailOf(ClusterCalls(c, networks, subnets)) == ClusterTrail(c, networks, subnets)
  {
    hide TrailOf, Recorded, NetworkId, ClusterSubnetId, AllPoolCalls, ClusterHead, EdgesOf, EdgeTo, Kept, ResourceName;
    hide PoolRecords, PoolLinks;
    HeadTrail(c, networks, subnets);
    EdgeToTrail(c, "vpc_network", NetworkId(networks, c.network), "in_vpc_network");
    EdgeToTrail(c, "subnet", ClusterSubnetId(subnets, c.subnetwork, c.Location()), "in_subnet");
    TrailEdges(EdgeTo(c, "vpc_network", NetworkId(networks, c.network), "in_vpc_network"));
    TrailEdges(EdgeTo(c, "subnet", ClusterSubnetId(subnets, c.subnetwork, c.Location()), "in_subnet"));
    PoolsTrail(c, c.pools);
    TrailAppend(ClusterHead(c, networks, subnets), AllPoolCalls(c, c.pools));
  }

  lemma {:induction false} AllClustersTrail(cs: seq<Cluster>, networks: seq<Item>, subnets: seq<Subnet>)
    ensures TrailOf(AllClusterCalls(cs, networks, subnets)) == ClustersTrail(cs, networks, subnets)
  {
    hide TrailOf, ClusterCalls, ClusterTrail;
    TrailOfNothing();
    if cs != [] {
      var n := |cs| - 1;
      AllClustersTrail(cs[..n], networks, subnets);
      OneClusterTrail(cs[n], networks, subnets);
      TrailAppend(AllClusterCalls(cs[..n], networks, subnets), ClusterCalls(cs[n], networks, subnets));
    }
  }

  /** Everything `gke.gather` leaves: the error of the cluster listing alone, or the errors of the
      two resolutions and what each cluster leaves, in order. */
  lemma GkeExact(clusters: Fetch<seq<Cluster>>, networks: Fetch<seq<Item>>, subnets: Fetch<seq<Subnet>>)
    ensures TrailOf(GkeCalls(clusters, networks, subnets)) ==
      if clusters.Err? then Trail([], [], [ErrorNote("global", "gke_cluster", clusters.error)])
      else Trail([], [], Failed("global", "gke_cluster (network resolution)", networks)
                         + Failed("global", "gke_cluster (subnet resolution)", subnets))
           .Plus(ClustersTrail(clusters.value, OrNone(networks), OrNone(subnets)))
  {
    hide TrailOf, AllClusterCalls, FetchError, ClustersTrail;
    TrailOfFetch("global", "gke_cluster", clusters);
    if clusters.Ok? {
      var a, b := FetchError("global", NETWORKS, networks), FetchError("global", SUBNETS, subnets);
      TrailOfFetch("global", NETWORKS, networks);
      TrailOfFetch("global", SUBNETS, subnets);
      AllClustersTrail(clusters.value, OrNone(networks), OrNone(subnets));
      TrailAppend(a, b);
      TrailAppend(a + b, AllClusterCalls(clusters.value, OrNone(networks), OrNone(subnets)));
    }
  }

  // ----- everything kms leaves -----

  /** The last segment of a name. */
  ghost function ShortName(name: Option<string>): Option<string> { Some(AfterLast(OrEmpty(name), '/')) }

  /** A key's record: the policy's bindings are in it exactly when they could be read. */
  ghost function KeyRecord(k: CryptoKey, policy: Fetch<Json>): Resource {
    var raw := if policy.Ok? then Put(k.fields, "_IamPolicyBindings", policy.value) else k.fields;
    Resource("kms_crypto_key", Some(RegionOfKey(OrEmpty(k.name))), Some(OrEmpty(k.name)), ShortName(k.name), Obj(raw), None, None)
  }

  ghost function KeyTrail(k: CryptoKey, r: Ring, policy: Fetch<Json>): Trail {
    Trail(Kept(KeyRecord(k, policy), k.labels),
      if Recorded(k.labels) then [Edge("kms_crypto_key", Some(OrEmpty(k.name)), "kms_keyring", Some(OrEmpty(r.name)), "in_keyring")]
      else [],
      Failed(RegionOfKey(OrEmpty(k.name)), "kms_crypto_key:" + OrEmpty(k.name), policy))
  }

  ghost function KeysTrail(ks: seq<CryptoKey>, r: Ring, policy: string -> Fetch<Json>): Trail {
    if ks == [] then NO_TRAIL
    else
      var k := ks[|ks| - 1];
      KeysTrail(ks[..|ks| - 1], r, policy).Plus(KeyTrail(k, r, policy(OrEmpty(k.name))))
  }

  ghost function RingTrail(l: Location, r: Ring, api: KmsApi): Trail {
    var keys := api.keys(OrEmpty(r.name));
    Trail([Resource("kms_keyring", Some(LocationId(l)), Some(OrEmpty(r.name)), ShortName(r.name), r.raw, None, None)], [],
          Failed(LocationId(l), "kms_crypto_key:" + OrEmpty(r.name), keys))
    .Plus(KeysTrail(OrNone(keys), r, api.policy))
  }

  /** The last segment of the location's name, unless it has an id. */
  ghost function LocationId(l: Location): string { if l.id.Some? then l.id.value else AfterLast(OrEmpty(l.name), '/') }

  ghost function RingsTrail(l: Location, rs: seq<Ring>, api: KmsApi): Trail {
    if rs == [] then NO_TRAIL else RingsTrail(l, rs[..|rs| - 1], api).Plus(RingTrail(l, rs[|rs| - 1], api))
  }

  ghost function LocationTrail(l: Location, api: KmsApi): Trail {
    var rings := api.rings(OrEmpty(l.name));
    Trail([], [], Failed(LocationId(l), "kms_keyring", rings)).Plus(RingsTrail(l, OrNone(rings), api))
  }

  ghost function LocationsTrail(ls: seq<Location>, api: KmsApi): Trail {
    if ls == [] then NO_TRAIL else LocationsTrail(ls[..|ls| - 1], api).Plus(LocationTrail(ls[|ls| - 1], api))
  }

  lemma OneKeyTrail(k: CryptoKey, r: Ring, policy: Fetch<Json>)
    ensures TrailOf(KeyCalls(k, r, policy)) == KeyTrail(k, r, policy)
  {
    hide TrailOf, FetchError, ParseSuppression, Kept, RegionOfKey, Put, AfterLast;
    var name := OrEmpty(k.name);
    var first := [Call.AddResource(KeyResource(k, policy), k.labels)];
    TrailOfFetch(RegionOfKey(name), KEY_SOURCE + name, policy);
    TrailOfResource(KeyResource(k, policy), k.labels);
    TrailOfEdge(KeyEdge(k, r));
    TrailAppend(first, [Call.AddEdge(KeyEdge(k, r))]);
    assert first + [] == first;
    TrailAppend(FetchError(RegionOfKey(name), KEY_SOURCE + name, policy), KeyTail(k, r, policy));
  }

  lemma {:induction false} AllKeysTrail(ks: seq<CryptoKey>, r: Ring, policy: string -> Fetch<Json>)
    ensures TrailOf(AllKeyCalls(ks, r, policy)) == KeysTrail(ks, r, policy)
  {
    hide TrailOf, KeyCalls, KeyTrail;
    TrailOfNothing();
    if ks != [] {
      var n := |ks| - 1;
      var own := policy(OrEmpty(ks[n].name));
      AllKeysTrail(ks[..n], r, policy);
      OneKeyTrail(ks[n], r, own);
      TrailAppend(AllKeyCalls(ks[..n], r, policy), KeyCalls(ks[n], r, own));
    }
  }

  lemma OneRingTrail(l: Location, r: Ring, api: KmsApi)
    ensures TrailOf(RingCalls(l, r, api)) == RingTrail(l, r, api)
  {
    hide TrailOf, FetchError, AllKeyCalls, KeysTrail, AfterLast;
    var keys := api.keys(OrEmpty(r.name));
    var first := [Call.AddResource(RingResource(l, r), NoTags)];
    var errors := FetchError(l.Id(), KEY_SOURCE + OrEmpty(r.name), keys);
    TrailOfUntagged(RingResource(l, r));
    TrailOfFetch(l.Id(), KEY_SOURCE + OrEmpty(r.name), keys);
    AllKeysTrail(OrNone(keys), r, api.policy);
    TrailAppend(errors, AllKeyCalls(OrNone(keys), r, api.policy));
    TrailAppend(first, RingTail(l, r, keys, api.policy));
  }

  lemma {:induction false} AllRingsTrail(l: Location, rs: seq<Ring>, api: KmsApi)
    ensures TrailOf(AllRingCalls(l, rs, api)) == RingsTrail(l, rs, api)
  {
    hide TrailOf, RingCalls, RingTrail;
    TrailOfNothing();
    if rs != [] {
      var n := |rs| - 1;
      AllRingsTrail(l, rs[..n], api);
      OneRingTrail(l, rs[n], api);
      TrailAppend(AllRingCalls(l, rs[..n], api), RingCalls(l, rs[n], api));
    }
  }

  lemma OneLocationTrail(l: Location, api: KmsApi)
    ensures TrailOf(LocationCalls(l, api)) == LocationTrail(l, api)
  {
    hide TrailOf, FetchError, AllRingCalls, RingsTrail, AfterLast;
    var rings := api.rings(l.Name());
    TrailOfFetch(l.Id(), "kms_keyring", rings);
    AllRingsTrail(l, OrNone(rings), api);
    TrailAppend(FetchError(l.Id(), "kms_keyring", rings), AllRingCalls(l, OrNone(rings), api));
  }

  lemma {:induction false} AllLocationsTrail(ls: seq<Location>, api: KmsApi)
    ensures TrailOf(AllLocationCalls(ls, api)) == LocationsTrail(ls, api)
  {
    hide TrailOf, LocationCalls, LocationTrail;
    TrailOfNothing();
    if ls != [] {
      var n := |ls| - 1;
      AllLocationsTrail(ls[..n], api);
      OneLocationTrail(ls[n], api);
      TrailAppend(AllLocationCalls(ls[..n], api), LocationCalls(ls[n], api));
    }
  }

  /** Everything `kms.gather` leaves: every ring of every location that could be listed, every key
      of every ring that could be, each recorded key's edge to its ring, and one error for each
      listing or policy that failed. */
  lemma KmsExact(locations: Fetch<seq<Location>>, api: KmsApi)
    ensures TrailOf(KmsCalls(locations, api))
      == Trail([], [], Failed("global", "kms_keyring", locations)).Plus(LocationsTrail(OrNone(locations), api))
  {
    hide TrailOf, FetchError, AllLocationCalls, LocationsTrail;
    TrailOfFetch("global", "kms_keyring", locations);
    AllLocationsTrail(OrNone(locations), api);
    TrailAppend(FetchError("global", "kms_keyring", locations), AllLocationCalls(OrNone(locations), api));
  }

  lemma JoinedParts(parts: seq<string>)
    requires parts != [] && forall k :: 0 <= k < |parts| ==> '/' !in parts[k]
    ensures RegionOfKey(Join(parts, '/')) == match After(parts, LOCATIONS) { case Some(r) => r case None => "global" }
  {
    hide Split, Join, After;
    SplitOfJoin(parts, '/');
  }

  lemma PartsAreSlashless(front: seq<string>, mark: string, region: string, rest: seq<string>)
    requires forall k :: 0 <= k < |front| ==> '/' !in front[k]
    requires '/' !in mark && '/' !in region && forall k :: 0 <= k < |rest| ==> '/' !in rest[k]
    ensures var parts := front + [mark, region] + rest;
      forall k :: 0 <= k < |parts| ==> '/' !in parts[k]
  {
    var parts := front + [mark, region] + rest;
    forall k | 0 <= k < |parts| ensures '/' !in parts[k] {
      if k >= |front| + 2 { assert parts[k] == rest[k - |front| - 2]; }
    }
  }

  lemma RegionOfParts(front: seq<string>, region: string, rest: seq<string>)
    requires forall k :: 0 <= k < |front| ==> '/' !in front[k] && front[k] != LOCATIONS
    requires '/' !in region && forall k :: 0 <= k < |rest| ==> '/' !in rest[k]
    ensures RegionOfKey(Join(front + [LOCATIONS, region] + rest, '/')) == region
  {
    assert '/' !in LOCATIONS by { assert forall k :: 0 <= k < 9 ==> "locations"[k] != '/'; }
    hide Split, Join, After, RegionOfKey, LOCATIONS;
    PartsAreSlashless(front, LOCATIONS, region, rest);
    JoinedParts(front + [LOCATIONS, region] + rest);
    AfterFirst(front, LOCATIONS, region, rest);
  }

  /** The region of a key is the segment after `locations` in its name. */
  lemma RegionOfKeyName(front: seq<string>, region: string, rest: seq<string>)
    requires forall k :: 0 <= k < |front| ==> '/' !in front[k] && front[k] != "locations"
    requires '/' !in region && forall k :: 0 <= k < |rest| ==> '/' !in rest[k]
    ensures RegionOfKey(Join(front + ["locations", region] + rest, '/')) == region
  {
    RegionOfParts(front, region, rest);
  }

  /** Without that segment, or with nothing after it, it is `global`. */
  lemma {:induction false} NoLocation(parts: seq<string>)
    requires forall k :: 0 <= k < |parts| - 1 ==> parts[k] != "locations"
    ensures After(parts, "locations") == None
  {
    if parts != [] { NoLocation(parts[1..]); }
  }

  lemma RegionOfOtherKey(parts: seq<string>)
    requires parts != [] && forall k :: 0 <= k < |parts| ==> '/' !in parts[k]
    requires forall k :: 0 <= k < |parts| - 1 ==> parts[k] != "locations"
    ensures RegionOfKey(Join(parts, '/')) == "global"
  {
    hide Split, Join, After, RegionOfKey;
    JoinedParts(parts);
    NoLocation(parts);
  }
}
