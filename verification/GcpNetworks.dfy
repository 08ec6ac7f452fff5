/** `gcp/vpc.py` and `gcp/lb.py`: resources that others refer to by name, and the edges of those
    that refer to them. */
module GcpNetworks {
  import opened Text
  import opened Json
  import opened Tags
  import opened Writer
  import opened Graph
  import opened GcpRefs

  /** A network or SSL policy. */
  datatype Target = Target(item: Item, raw: Json)

  /** A firewall rule, subnet, backend service or proxy, with the reference it makes. */
  datatype Referrer = Referrer(item: Item, region: string, scope: Id, ref: Option<string>, raw: Json)

  /** What sort of edge the referrers of one kind have. */
  datatype Link = Link(kind: string, targetKind: string, relationship: string)

  const FIREWALL := Link("firewall_rule", "vpc_network", "in_vpc_network")
  const SUBNET := Link("subnet", "vpc_network", "in_vpc_network")
  const BACKEND := Link("lb_backend_service", "vpc_network", "in_vpc_network")
  const PROXY := Link("target_https_proxy", "ssl_policy", "uses_ssl_policy")

  function Items(ts: seq<Target>): seq<Item> { seq(|ts|, k requires 0 <= k < |ts| => ts[k].item) }

  function TargetResource(kind: string, t: Target, scope: Id): Resource {
    Resource(kind, Some("global"), Some(t.item.Link()), Some(t.item.Name()), t.raw, scope, None)
  }

  /** A network's scope is its own name; an SSL policy has none. */
  function ScopeOf(kind: string, t: Target): Id { if kind == "vpc_network" then Some(t.item.Name()) else None }

  function TargetCall(kind: string, t: Target): Call {
    Call.AddResource(TargetResource(kind, t, ScopeOf(kind, t)), NoTags)
  }

  function TargetCalls(kind: string, ts: seq<Target>): seq<Call> {
    if ts == [] then [] else TargetCalls(kind, ts[..|ts| - 1]) + [TargetCall(kind, ts[|ts| - 1])]
  }

  function ReferrerResource(l: Link, r: Referrer): Resource {
    Resource(l.kind, Some(r.region), Some(r.item.Link()), Some(r.item.Name()), r.raw, r.scope, None)
  }

  function RefEdge(l: Link, r: Referrer, id: string): Edge {
    Edge(l.kind, Some(r.item.Link()), l.targetKind, Some(id), l.relationship)
  }

  /** A referrer's record, then its edge if its reference resolves. */
  function ReferrerCalls(l: Link, r: Referrer, targets: seq<Item>): seq<Call> {
    [Call.AddResource(ReferrerResource(l, r), NoTags)]
    + match NetworkId(targets, r.ref) case None => [] case Some(id) => [Call.AddEdge(RefEdge(l, r, id))]
  }

  function AllReferrerCalls(l: Link, rs: seq<Referrer>, targets: seq<Item>): seq<Call> {
    if rs == [] then []
    else AllReferrerCalls(l, rs[..|rs| - 1], targets) + ReferrerCalls(l, rs[|rs| - 1], targets)
  }

  /** One `try` block over targets: their records, or the error of the listing. */
  function TargetBlock(kind: string, f: Fetch<seq<Target>>): seq<Call> {
    TargetCalls(kind, OrNone(f)) + FetchError("global", kind, f)
  }

  function ReferrerBlock(l: Link, f: Fetch<seq<Referrer>>, targets: seq<Item>): seq<Call> {
    AllReferrerCalls(l, OrNone(f), targets) + FetchError("global", l.kind, f)
  }

  // ----- the loops -----

  /** Record the targets, keeping the id of each recorded one under its name. */
  method WriteTargets(writer: InventoryWriter, kind: string, f: Fetch<seq<Target>>) returns (ids: map<string, string>)
    requires writer.Valid()
    modifies writer
    ensures writer.Valid() && writer.history == old(writer.history) + TargetBlock(kind, f)
    ensures ids == LinkByName(Items(OrNone(f)))
  {
    hide Run;
    hide Apply;
    hide ParseSuppression;
    hide Stamp;
    ids := map[];
    if f.Err? {
      writer.AddError(ErrorNote("global", kind, f.error));
      return;
    }
    var ts := f.value;
    UntaggedIsKept();
    for i := 0 to |ts|
      invariant writer.Valid() && writer.history == old(writer.history) + TargetCalls(kind, ts[..i])
      invariant ids == LinkByName(Items(ts[..i]))
    {
      var t := ts[i];
      var recorded := writer.AddResource(TargetResource(kind, t, ScopeOf(kind, t)), NoTags);
      if recorded {
        ids := ids[t.item.Name() := t.item.Link()];
      }
      assert ts[..i + 1][..i] == ts[..i];
      assert Items(ts[..i + 1])[..i] == Items(ts[..i]);
    }
    assert ts[..|ts|] == ts;
  }

  method WriteReferrer(writer: InventoryWriter, l: Link, r: Referrer, ids: map<string, string>, ghost targets: seq<Item>)
    requires writer.Valid() && ids == LinkByName(targets)
    modifies writer
    ensures writer.Valid() && writer.history == old(writer.history) + ReferrerCalls(l, r, targets)
  {
    hide Run;
    hide Apply;
    hide ParseSuppression;
    hide Stamp;
    hide LinkByName;
    hide ResourceName;
    UntaggedIsKept();
    var recorded := writer.AddResource(ReferrerResource(l, r), NoTags);
    if recorded {
      var name := ResourceName(r.ref);
      if name.Some? && name.value in ids && ids[name.value] != [] {
        writer.AddEdge(RefEdge(l, r, ids[name.value]));
      }
    }
  }

  /** Record the referrers, with an edge for each whose reference names an id in the map. */
  method WriteReferrers(writer: InventoryWriter, l: Link, f: Fetch<seq<Referrer>>, ids: map<string, string>,
      ghost targets: seq<Item>)
    requires writer.Valid() && ids == LinkByName(targets)
    modifies writer
    ensures writer.Valid() && writer.history == old(writer.history) + ReferrerBlock(l, f, targets)
  {
    hide Run;
    hide LinkByName;
    hide ReferrerCalls;
    if f.Err? {
      writer.AddError(ErrorNote("global", l.kind, f.error));
      return;
    }
    var rs := f.value;
    for i := 0 to |rs|
      invariant writer.Valid() && writer.history == old(writer.history) + AllReferrerCalls(l, rs[..i], targets)
    {
      WriteReferrer(writer, l, rs[i], ids, targets);
      assert rs[..i + 1][..i] == rs[..i];
    }
    assert rs[..|rs|] == rs;
  }

  // ----- vpc -----

  datatype Rule = Rule(item: Item, network: Option<string>, raw: Json)

  datatype ListedSubnet = ListedSubnet(region: string, item: Item, network: Option<string>, raw: Json)

  function RuleReferrer(r: Rule): Referrer {
    Referrer(r.item, "global", ResourceName(r.network), r.network, r.raw)
  }

  function SubnetReferrer(s: ListedSubnet): Referrer {
    Referrer(s.item, s.region, ResourceName(s.network), s.network, s.raw)
  }

  function MapFetch<A, B>(f: A -> B, xs: Fetch<seq<A>>): Fetch<seq<B>> {
    match xs case Err(e) => Err(e) case Ok(v) => Ok(seq(|v|, k requires 0 <= k < |v| => f(v[k])))
  }

  function VpcCalls(networks: Fetch<seq<Target>>, rules: Fetch<seq<Rule>>, subnets: Fetch<seq<ListedSubnet>>): seq<Call> {
    TargetBlock("vpc_network", networks)
    + (ReferrerBlock(FIREWALL, MapFetch(RuleReferrer, rules), Items(OrNone(networks)))
       + ReferrerBlock(SUBNET, MapFetch(SubnetReferrer, subnets), Items(OrNone(networks))))
  }

  /** `vpc.gather` */
  method GatherVpc(writer: InventoryWriter, networks: Fetch<seq<Target>>, rules: Fetch<seq<Rule>>,
      subnets: Fetch<seq<ListedSubnet>>)
    requires writer.Valid()
    modifies writer
    ensures writer.Valid() && writer.history == old(writer.history) + VpcCalls(networks, rules, subnets)
  {
    hide Run;
    hide TargetBlock;
    hide ReferrerBlock;
    hide LinkByName;
    hide RuleReferrer;
    hide SubnetReferrer;
    var ids := WriteTargets(writer, "vpc_network", networks);
    ghost var targets := Items(OrNone(networks));
    WriteReferrers(writer, FIREWALL, MapFetch(RuleReferrer, rules), ids, targets);
    WriteReferrers(writer, SUBNET, MapFetch(SubnetReferrer, subnets), ids, targets);
  }

  // ----- lb -----

  const REGION_MARK := "/regions/"

  /** `_region_from_self_link` */
  function RegionFromLink(link: string): string {
    var at := Find(link, REGION_MARK);
    if at < 0 then "global"
    else
      var rest := link[at + |REGION_MARK|..];
      var next := Find(rest, REGION_MARK);
      Split(if next < 0 then rest else rest[..next], '/')[0]
  }

  datatype Backend = Backend(item: Item, network: Option<string>, raw: Json)

  datatype Proxy = Proxy(item: Item, sslPolicy: Option<string>, raw: Json)

  function SelfLink(i: Item): string { match i.selfLink case Some(l) => l case None => [] }

  function BackendReferrer(b: Backend): Referrer {
    Referrer(b.item, RegionFromLink(SelfLink(b.item)), ResourceName(b.network), b.network, b.raw)
  }

  function ProxyReferrer(p: Proxy): Referrer {
    Referrer(p.item, RegionFromLink(SelfLink(p.item)), None, p.sslPolicy, p.raw)
  }

  const NETWORK_RESOLUTION := "lb_backend_service (network resolution)"

  function LbCalls(networks: Fetch<seq<Item>>, backends: Fetch<seq<Backend>>, policies: Fetch<seq<Target>>,
      proxies: Fetch<seq<Proxy>>): seq<Call> {
    (FetchError("global", NETWORK_RESOLUTION, networks)
     + ReferrerBlock(BACKEND, MapFetch(BackendReferrer, backends), OrNone(networks)))
    + (TargetBlock("ssl_policy", policies) + ReferrerBlock(PROXY, MapFetch(ProxyReferrer, proxies), Items(OrNone(policies))))
  }

  /** `lb.gather`; the networks are the other module's, listed again. */
  method GatherLb(writer: InventoryWriter, networks: Fetch<seq<Item>>, backends: Fetch<seq<Backend>>,
      policies: Fetch<seq<Target>>, proxies: Fetch<seq<Proxy>>)
    requires writer.Valid()
    modifies writer
    ensures writer.Valid() && writer.history == old(writer.history) + LbCalls(networks, backends, policies, proxies)
  {
    hide Run;
    hide TargetBlock;
    hide ReferrerBlock;
    hide BackendReferrer;
    hide ProxyReferrer;
    hide MapFetch;
    hide Items;
    var links: map<string, string> := map[];
    if networks.Ok? {
      links := LinkByName(networks.value);
    } else {
      writer.AddError(ErrorNote("global", NETWORK_RESOLUTION, networks.error));
    }
    WriteReferrers(writer, BACKEND, MapFetch(BackendReferrer, backends), links, OrNone(networks));
    var ids := WriteTargets(writer, "ssl_policy", policies);
    WriteReferrers(writer, PROXY, MapFetch(ProxyReferrer, proxies), ids, Items(OrNone(policies)));
  }

  // ----- the graph -----

  lemma OneTarget(kind: string, t: Target, own: Edge -> bool)
    ensures EdgesOf([TargetCall(kind, t)]) == [] && Named([TargetCall(kind, t)]) == {Node(kind, Some(t.item.Link()))}
  {
    hide Named;
    hide ParseSuppression;
    hide EdgesOf;
    hide ScopeOf;
    UntaggedIsKept();
    OneResource(TargetResource(kind, t, ScopeOf(kind, t)), NoTags, own);
  }

  lemma LastTarget(kind: string, ts: seq<Target>)
    requires ts != []
    ensures TargetCalls(kind, ts) == TargetCalls(kind, ts[..|ts| - 1]) + [TargetCall(kind, ts[|ts| - 1])]
  {
    hide TargetCall;
  }

  lemma NoTargets(kind: string)
    ensures TargetCalls(kind, []) == []
  {}

  lemma {:induction false} TargetsNamed(kind: string, ts: seq<Target>, own: Edge -> bool)
    ensures EdgesOf(TargetCalls(kind, ts)) == []
    ensures forall k :: 0 <= k < |ts| ==> Node(kind, Some(ts[k].item.Link())) in Named(TargetCalls(kind, ts))
  {
    hide Named;
    hide TargetCall;
    hide EdgesOf;
    hide TargetCalls;
    if ts == [] {
      NoTargets(kind);
      NothingNamed(own);
    } else {
      var n := |ts| - 1;
      var a, b := TargetCalls(kind, ts[..n]), [TargetCall(kind, ts[n])];
      TargetsNamed(kind, ts[..n], own);
      OneTarget(kind, ts[n], own);
      NamedAppend(a, b);
      PartsAppend(a, b);
      LastTarget(kind, ts);
      forall k | 0 <= k < |ts| ensures Node(kind, Some(ts[k].item.Link())) in Named(a) + Named(b) {
        if k < n { assert ts[..n][k] == ts[k]; }
      }
    }
  }

  /** A reference resolves only to a listed item. */
  lemma {:induction false} FoundIsListed(items: seq<Item>, name: string)
    ensures LastNamed(items, name).Some? ==> exists k :: 0 <= k < |items| && items[k] == LastNamed(items, name).value
  {
    if items != [] && items[|items| - 1].Name() != name {
      FoundIsListed(items[..|items| - 1], name);
    }
  }

  lemma ResolvedIsListed(items: seq<Item>, ref: Option<string>)
    ensures NetworkId(items, ref).Some? ==> exists k :: 0 <= k < |items| && NetworkId(items, ref) == Some(items[k].Link())
  {
    var name := ResourceName(ref);
    if name.Some? {
      MapIsSearch(items, name.value);
      FoundIsListed(items, name.value);
    }
  }

  /** Nodes that hold every target of this list. */
  ghost predicate HoldsTargets(nodes: set<Node>, kind: string, items: seq<Item>) {
    forall k :: 0 <= k < |items| ==> Node(kind, Some(items[k].Link())) in nodes
  }

  lemma ReferrerAnchored(l: Link, r: Referrer, targets: seq<Item>, nodes: set<Node>, own: Edge -> bool)
    requires HoldsTargets(nodes, l.targetKind, targets) || forall id :: !own(RefEdge(l, r, id))
    ensures Anchored(EdgesOf(ReferrerCalls(l, r, targets)), nodes + Named(ReferrerCalls(l, r, targets)), own)
  {
    hide Named;
    hide ParseSuppression;
    hide EdgesOf;
    var first := [Call.AddResource(ReferrerResource(l, r), NoTags)];
    UntaggedIsKept();
    OneResource(ReferrerResource(l, r), NoTags, own);
    ResolvedIsListed(targets, r.ref);
    match NetworkId(targets, r.ref)
    case None => assert ReferrerCalls(l, r, targets) == first;
    case Some(id) =>
      var e := RefEdge(l, r, id);
      OneEdge(e);
      NamedAppend(first, [Call.AddEdge(e)]);
      PartsAppend(first, [Call.AddEdge(e)]);
  }

  lemma {:induction false} ReferrersAnchored(l: Link, rs: seq<Referrer>, targets: seq<Item>, nodes: set<Node>, own: Edge -> bool)
    requires HoldsTargets(nodes, l.targetKind, targets) || forall r, id :: !own(RefEdge(l, r, id))
    ensures Anchored(EdgesOf(AllReferrerCalls(l, rs, targets)), nodes + Named(AllReferrerCalls(l, rs, targets)), own)
  {
    hide Named;
    hide EdgesOf;
    hide Anchored;
    hide ReferrerCalls;
    hide HoldsTargets;
    if rs == [] {
      NothingAnchored(nodes + Named([]), own);
    } else {
      var n := |rs| - 1;
      var a, b := AllReferrerCalls(l, rs[..n], targets), ReferrerCalls(l, rs[n], targets);
      ReferrersAnchored(l, rs[..n], targets, nodes, own);
      ReferrerAnchored(l, rs[n], targets, nodes, own);
      AnchoredWithin(a, b, nodes, own);
    }
  }

  lemma ErrorAdds<T>(source: string, f: Fetch<T>, own: Edge -> bool)
    ensures EdgesOf(FetchError("global", source, f)) == [] && Named(FetchError("global", source, f)) == {}
  {
    NothingNamed(own);
    if f.Err? { OneError(ErrorNote("global", source, f.error), own); }
  }

  lemma ReferrerBlockAnchored(l: Link, f: Fetch<seq<Referrer>>, targets: seq<Item>, nodes: set<Node>, own: Edge -> bool)
    requires HoldsTargets(nodes, l.targetKind, targets) || forall r, id :: !own(RefEdge(l, r, id))
    ensures Anchored(EdgesOf(ReferrerBlock(l, f, targets)), nodes + Named(ReferrerBlock(l, f, targets)), own)
  {
    hide Named;
    hide EdgesOf;
    hide FetchError;
    hide AllReferrerCalls;
    hide HoldsTargets;
    hide Anchored;
    var a, b := AllReferrerCalls(l, OrNone(f), targets), FetchError("global", l.kind, f);
    ReferrersAnchored(l, OrNone(f), targets, nodes, own);
    ErrorAdds(l.kind, f, own);
    NamedAppend(a, b);
    PartsAppend(a, b);
    assert EdgesOf(a) + [] == EdgesOf(a) && Named(a) + {} == Named(a);
  }

  lemma TargetBlockNamed(kind: string, f: Fetch<seq<Target>>, own: Edge -> bool)
    ensures EdgesOf(TargetBlock(kind, f)) == [] && Closed(TargetBlock(kind, f), own)
    ensures HoldsTargets(Named(TargetBlock(kind, f)), kind, Items(OrNone(f)))
  {
    hide Named;
    hide EdgesOf;
    hide FetchError;
    hide TargetCalls;
    var a, b := TargetCalls(kind, OrNone(f)), FetchError("global", kind, f);
    TargetsNamed(kind, OrNone(f), own);
    ErrorAdds(kind, f, own);
    NamedAppend(a, b);
    PartsAppend(a, b);
  }

  /** A block of targets and a block of those that refer to them. */
  lemma BlocksClosed(kind: string, ts: Fetch<seq<Target>>, l: Link, rs: Fetch<seq<Referrer>>, own: Edge -> bool)
    requires l.targetKind == kind
    ensures Closed(TargetBlock(kind, ts) + ReferrerBlock(l, rs, Items(OrNone(ts))), own)
  {
    hide Named;
    hide EdgesOf;
    hide TargetBlock;
    hide ReferrerBlock;
    hide Anchored;
    hide HoldsTargets;
    TargetBlockNamed(kind, ts, own);
    ReferrerBlockAnchored(l, rs, Items(OrNone(ts)), Named(TargetBlock(kind, ts)), own);
    ClosedAfter(TargetBlock(kind, ts), ReferrerBlock(l, rs, Items(OrNone(ts))), own);
  }

  /** Whichever of its three listings fail, every edge `vpc.gather` writes joins two resources it
      recorded. */
  lemma VpcClosed(networks: Fetch<seq<Target>>, rules: Fetch<seq<Rule>>, subnets: Fetch<seq<ListedSubnet>>)
    ensures Closed(VpcCalls(networks, rules, subnets), AllEdges)
  {
    hide Named;
    hide EdgesOf;
    hide TargetBlock;
    hide ReferrerBlock;
    hide Anchored;
    hide HoldsTargets;
    hide MapFetch;
    var items := Items(OrNone(networks));
    var t := TargetBlock("vpc_network", networks);
    var a := ReferrerBlock(FIREWALL, MapFetch(RuleReferrer, rules), items);
    var b := ReferrerBlock(SUBNET, MapFetch(SubnetReferrer, subnets), items);
    BlocksClosed("vpc_network", networks, FIREWALL, MapFetch(RuleReferrer, rules), AllEdges);
    TargetBlockNamed("vpc_network", networks, AllEdges);
    ReferrerBlockAnchored(SUBNET, MapFetch(SubnetReferrer, subnets), items, Named(t), AllEdges);
    NamedAppend(t, a);
    AnchoredMore(EdgesOf(b), Named(t) + Named(b), Named(t + a) + Named(b), AllEdges);
    ClosedAfter(t + a, b, AllEdges);
    assert t + a + b == t + (a + b);
  }

  /** The edges that stay inside `lb`. */
  predicate ToPolicy(e: Edge) { e.toType == "ssl_policy" }

  lemma BackendsElsewhere()
    ensures forall r, id :: !ToPolicy(RefEdge(BACKEND, r, id))
  {
    assert |BACKEND.targetKind| == 11;
  }

  /** Every `lb` edge leaves a recorded resource, and every edge to an SSL policy ends at a
      recorded one. */
  lemma LbClosed(networks: Fetch<seq<Item>>, backends: Fetch<seq<Backend>>, policies: Fetch<seq<Target>>,
      proxies: Fetch<seq<Proxy>>)
    ensures Closed(LbCalls(networks, backends, policies, proxies), ToPolicy)
  {
    hide Named;
    hide EdgesOf;
    hide TargetBlock;
    hide ReferrerBlock;
    hide Anchored;
    hide HoldsTargets;
    hide MapFetch;
    hide FetchError;
    hide ToPolicy;
    var e := FetchError("global", NETWORK_RESOLUTION, networks);
    var b := ReferrerBlock(BACKEND, MapFetch(BackendReferrer, backends), OrNone(networks));
    ErrorAdds(NETWORK_RESOLUTION, networks, ToPolicy);
    NothingAnchored(Named(e), ToPolicy);
    NothingNamed(ToPolicy);
    BackendsElsewhere();
    ReferrerBlockAnchored(BACKEND, MapFetch(BackendReferrer, backends), OrNone(networks), Named(e), ToPolicy);
    ClosedAfter(e, b, ToPolicy);
    BlocksClosed("ssl_policy", policies, PROXY, MapFetch(ProxyReferrer, proxies), ToPolicy);
    ClosedAppend(e + b, TargetBlock("ssl_policy", policies)
      + ReferrerBlock(PROXY, MapFetch(ProxyReferrer, proxies), Items(OrNone(policies))), ToPolicy);
  }

  // ----- which edges there are -----

  /** A referrer has an edge exactly when its reference's last segment is the name of a target;
      the edge then ends at the last listed target of that name. */
  lemma EdgeExact(l: Link, r: Referrer, targets: seq<Item>)
    ensures var edges := EdgesOf(ReferrerCalls(l, r, targets));
      match ResourceName(r.ref) {
        case None => edges == []
        case Some(name) =>
          match LastNamed(targets, name) {
            case None => edges == []
            case Some(t) => edges == if t.Link() == [] then [] else [RefEdge(l, r, t.Link())]
          }
      }
  {
    hide EdgesOf;
    hide Named;
    hide LinkByName;
    hide ParseSuppression;
    var first := [Call.AddResource(ReferrerResource(l, r), NoTags)];
    OneResource(ReferrerResource(l, r), NoTags, AllEdges);
    assert first + [] == first;
    if ResourceName(r.ref).Some? {
      var name := ResourceName(r.ref).value;
      MapIsSearch(targets, name);
      if NetworkId(targets, r.ref).Some? {
        var e := RefEdge(l, r, NetworkId(targets, r.ref).value);
        OneEdge(e);
        PartsAppend(first, [Call.AddEdge(e)]);
      }
    }
  }

  // ----- everything the two modules leave -----

  /** The id of the last target that the reference names, if it has one. */
  function Referenced(targets: seq<Item>, ref: Option<string>): Option<string> {
    match ResourceName(ref)
    case None => None
    case Some(name) =>
      match LastNamed(targets, name)
      case None => None
      case Some(t) => if IdOf(t) == [] then None else Some(IdOf(t))
  }

  /** `x.get('selfLink', x.get('name', ''))` */
  function IdOf(i: Item): string {
    match i.selfLink case Some(l) => l case None => (match i.name case Some(n) => n case None => [])
  }

  lemma ReferencedIsNetworkId(targets: seq<Item>, ref: Option<string>)
    ensures NetworkId(targets, ref) == Referenced(targets, ref)
  {
    hide LinkByName, LastNamed;
    if ResourceName(ref).Some? { MapIsSearch(targets, ResourceName(ref).value); }
  }

  /** The id of a resource and the reference it makes. */
  datatype End = End(id: string, ref: Option<string>)

  /** An edge for each reference that names a target with an id. */
  function Links(kind: string, targetKind: string, relationship: string, ends: seq<End>, targets: seq<Item>): seq<Edge> {
    if ends == [] then []
    else
      var last := ends[|ends| - 1];
      Links(kind, targetKind, relationship, ends[..|ends| - 1], targets)
      + match Referenced(targets, last.ref)
        case None => []
        case Some(id) => [Edge(kind, Some(last.id), targetKind, Some(id), relationship)]
  }

  function Ends(rs: seq<Referrer>): seq<End> { seq(|rs|, k requires 0 <= k < |rs| => End(IdOf(rs[k].item), rs[k].ref)) }

  function LinkEdges(l: Link, rs: seq<Referrer>, targets: seq<Item>): seq<Edge> {
    Links(l.kind, l.targetKind, l.relationship, Ends(rs), targets)
  }

  lemma {:induction false} TargetsTrail(kind: string, ts: seq<Target>)
    ensures TrailOf(TargetCalls(kind, ts))
      == Trail(seq(|ts|, k requires 0 <= k < |ts| => TargetResource(kind, ts[k], ScopeOf(kind, ts[k]))), [], [])
  {
    hide TrailOf, TargetResource, ScopeOf;
    TrailOfNothing();
    if ts != [] {
      var n := |ts| - 1;
      TargetsTrail(kind, ts[..n]);
      TrailOfUntagged(TargetResource(kind, ts[n], ScopeOf(kind, ts[n])));
      TrailAppend(TargetCalls(kind, ts[..n]), [TargetCall(kind, ts[n])]);
    }
  }

  lemma ReferrerTrail(l: Link, r: Referrer, targets: seq<Item>)
    ensures TrailOf(ReferrerCalls(l, r, targets)) == Trail([ReferrerResource(l, r)],
      match Referenced(targets, r.ref) { case None => [] case Some(id) => [RefEdge(l, r, id)] }, [])
  {
    hide TrailOf, NetworkId, Referenced, ReferrerResource, RefEdge;
    ReferencedIsNetworkId(targets, r.ref);
    var first := [Call.AddResource(ReferrerResource(l, r), NoTags)];
    TrailOfUntagged(ReferrerResource(l, r));
    if NetworkId(targets, r.ref).Some? {
      var e := RefEdge(l, r, NetworkId(targets, r.ref).value);
      TrailOfEdge(e);
      TrailAppend(first, [Call.AddEdge(e)]);
    } else {
      assert ReferrerCalls(l, r, targets) == first;
    }
  }

  lemma {:induction false} ReferrersTrail(l: Link, rs: seq<Referrer>, targets: seq<Item>)
    ensures TrailOf(AllReferrerCalls(l, rs, targets))
      == Trail(seq(|rs|, k requires 0 <= k < |rs| => ReferrerResource(l, rs[k])), LinkEdges(l, rs, targets), [])
  {
    hide TrailOf, ReferrerCalls, ReferrerResource, Referenced;
    TrailOfNothing();
    if rs != [] {
      var n := |rs| - 1;
      ReferrersTrail(l, rs[..n], targets);
      ReferrerTrail(l, rs[n], targets);
      TrailAppend(AllReferrerCalls(l, rs[..n], targets), ReferrerCalls(l, rs[n], targets));
      assert Ends(rs)[..n] == Ends(rs[..n]);
    }
  }

  lemma TargetBlockTrail(kind: string, f: Fetch<seq<Target>>)
    ensures var ts := OrNone(f);
      TrailOf(TargetBlock(kind, f)) == Trail(
        seq(|ts|, k requires 0 <= k < |ts| => TargetResource(kind, ts[k], ScopeOf(kind, ts[k]))), [], Failed("global", kind, f))
  {
    hide TrailOf, TargetCalls, FetchError, TargetResource, ScopeOf;
    TargetsTrail(kind, OrNone(f));
    TrailOfFetch("global", kind, f);
    TrailAppend(TargetCalls(kind, OrNone(f)), FetchError("global", kind, f));
  }

  lemma ReferrerBlockTrail(l: Link, f: Fetch<seq<Referrer>>, targets: seq<Item>)
    ensures var rs := OrNone(f);
      TrailOf(ReferrerBlock(l, f, targets)) == Trail(
        seq(|rs|, k requires 0 <= k < |rs| => ReferrerResource(l, rs[k])), LinkEdges(l, rs, targets), Failed("global", l.kind, f))
  {
    hide TrailOf, AllReferrerCalls, FetchError, ReferrerResource, LinkEdges;
    ReferrersTrail(l, OrNone(f), targets);
    TrailOfFetch("global", l.kind, f);
    TrailAppend(AllReferrerCalls(l, OrNone(f), targets), FetchError("global", l.kind, f));
  }

  // ----- vpc -----

  ghost function NetworkRecord(n: Target): Resource {
    Resource("vpc_network", Some("global"), Some(IdOf(n.item)), Some(OrEmpty(n.item.name)), n.raw, Some(OrEmpty(n.item.name)), None)
  }

  ghost function RuleRecord(r: Rule): Resource {
    Resource("firewall_rule", Some("global"), Some(IdOf(r.item)), Some(OrEmpty(r.item.name)), r.raw, ResourceName(r.network), None)
  }

  ghost function SubnetRecord(s: ListedSubnet): Resource {
    Resource("subnet", Some(s.region), Some(IdOf(s.item)), Some(OrEmpty(s.item.name)), s.raw, ResourceName(s.network), None)
  }

  ghost function RuleEnds(rs: seq<Rule>): seq<End> {
    seq(|rs|, k requires 0 <= k < |rs| => End(IdOf(rs[k].item), rs[k].network))
  }

  ghost function SubnetEnds(ss: seq<ListedSubnet>): seq<End> {
    seq(|ss|, k requires 0 <= k < |ss| => End(IdOf(ss[k].item), ss[k].network))
  }

  lemma NetworksTrail(networks: Fetch<seq<Target>>)
    ensures var ns := OrNone(networks);
      TrailOf(TargetBlock("vpc_network", networks))
      == Trail(seq(|ns|, k requires 0 <= k < |ns| => NetworkRecord(ns[k])), [], Failed("global", "vpc_network", networks))
  {
    hide TrailOf, TargetBlock;
    TargetBlockTrail("vpc_network", networks);
  }

  lemma RulesTrail(rules: Fetch<seq<Rule>>, networks: seq<Item>)
    ensures var rs := OrNone(rules);
      TrailOf(ReferrerBlock(FIREWALL, MapFetch(RuleReferrer, rules), networks))
      == Trail(seq(|rs|, k requires 0 <= k < |rs| => RuleRecord(rs[k])),
               Links("firewall_rule", "vpc_network", "in_vpc_network", RuleEnds(rs), networks),
               Failed("global", "firewall_rule", rules))
  {
    hide TrailOf, ReferrerBlock, Links, ResourceName;
    ReferrerBlockTrail(FIREWALL, MapFetch(RuleReferrer, rules), networks);
    assert Ends(OrNone(MapFetch(RuleReferrer, rules))) == RuleEnds(OrNone(rules));
  }

  lemma SubnetsTrail(subnets: Fetch<seq<ListedSubnet>>, networks: seq<Item>)
    ensures var ss := OrNone(subnets);
      TrailOf(ReferrerBlock(SUBNET, MapFetch(SubnetReferrer, subnets), networks))
      == Trail(seq(|ss|, k requires 0 <= k < |ss| => SubnetRecord(ss[k])),
               Links("subnet", "vpc_network", "in_vpc_network", SubnetEnds(ss), networks),
               Failed("global", "subnet", subnets))
  {
    hide TrailOf, ReferrerBlock, Links, ResourceName;
    ReferrerBlockTrail(SUBNET, MapFetch(SubnetReferrer, subnets), networks);
    assert Ends(OrNone(MapFetch(SubnetReferrer, subnets))) == SubnetEnds(OrNone(subnets));
  }

  /** Everything `vpc.gather` leaves: a record for each listed network, rule and subnet, in that
      order and once each; an edge for each rule and subnet whose reference names a listed network,
      to the last one so named; and one error for each listing that failed. */
  lemma VpcExact(networks: Fetch<seq<Target>>, rules: Fetch<seq<Rule>>, subnets: Fetch<seq<ListedSubnet>>)
    ensures var calls := VpcCalls(networks, rules, subnets);
      var ns, rs, ss := OrNone(networks), OrNone(rules), OrNone(subnets);
      && Accepted(calls) == seq(|ns|, k requires 0 <= k < |ns| => NetworkRecord(ns[k]))
           + seq(|rs|, k requires 0 <= k < |rs| => RuleRecord(rs[k]))
           + seq(|ss|, k requires 0 <= k < |ss| => SubnetRecord(ss[k]))
      && EdgesOf(calls) == Links("firewall_rule", "vpc_network", "in_vpc_network", RuleEnds(rs), Items(ns))
           + Links("subnet", "vpc_network", "in_vpc_network", SubnetEnds(ss), Items(ns))
      && ErrorsOf(calls) == Failed("global", "vpc_network", networks) + Failed("global", "firewall_rule", rules)
           + Failed("global", "subnet", subnets)
  {
    hide TargetBlock, ReferrerBlock, Accepted, EdgesOf, ErrorsOf, Links, NetworkRecord, RuleRecord, SubnetRecord;
    hide Failed, MapFetch;
    var items := Items(OrNone(networks));
    var t := TargetBlock("vpc_network", networks);
    var a := ReferrerBlock(FIREWALL, MapFetch(RuleReferrer, rules), items);
    var b := ReferrerBlock(SUBNET, MapFetch(SubnetReferrer, subnets), items);
    NetworksTrail(networks);
    RulesTrail(rules, items);
    SubnetsTrail(subnets, items);
    TrailAppend(a, b);
    TrailAppend(t, a + b);
  }

  /** An edge is written exactly for the references that name a target with an id. */
  lemma {:induction false} LinksExact(kind: string, targetKind: string, relationship: string, ends: seq<End>,
      targets: seq<Item>, e: Edge)
    ensures e in Links(kind, targetKind, relationship, ends, targets) <==>
      exists k :: 0 <= k < |ends| && Referenced(targets, ends[k].ref).Some?
        && e == Edge(kind, Some(ends[k].id), targetKind, Referenced(targets, ends[k].ref), relationship)
  {
    hide Referenced;
    if ends != [] {
      var n := |ends| - 1;
      LinksExact(kind, targetKind, relationship, ends[..n], targets, e);
      LinksStep(kind, targetKind, relationship, ends, targets, e);
      hide Links;
      assert forall k :: 0 <= k < n ==> ends[..n][k] == ends[k];
    }
  }

  lemma LinksStep(kind: string, targetKind: string, relationship: string, ends: seq<End>, targets: seq<Item>, e: Edge)
    requires ends != []
    ensures var n := |ends| - 1;
      e in Links(kind, targetKind, relationship, ends, targets) <==>
        (e in Links(kind, targetKind, relationship, ends[..n], targets)
         || (Referenced(targets, ends[n].ref).Some?
             && e == Edge(kind, Some(ends[n].id), targetKind, Referenced(targets, ends[n].ref), relationship)))
  {
    hide Referenced;
  }

  // ----- lb -----

  lemma FirstPiece(region: string, rest: string)
    requires '/' !in region && (rest == [] || rest[0] == '/')
    ensures Split(region + rest, '/')[0] == region
  {
    if rest == [] {
      assert region + rest == region;
      SplitWhole(region, '/');
    } else {
      assert region + rest == region + ['/'] + rest[1..];
      SplitFirst(region, rest[1..], '/');
    }
  }

  /** Splitting at the first mark cuts off nothing of the region. */
  lemma RegionOfTail(region: string, rest: string)
    requires '/' !in region && (rest == [] || rest[0] == '/')
    ensures var tail := region + rest;
      var next := Find(tail, REGION_MARK);
      Split(if next < 0 then tail else tail[..next], '/')[0] == region
  {
    hide Split, Find;
    var tail := region + rest;
    var next := Find(tail, REGION_MARK);
    if next < 0 {
      FirstPiece(region, rest);
    } else {
      assert tail[next] == tail[next..next + 9][0] == '/';
      assert next >= |region|;
      assert tail[..next] == region + rest[..next - |region|];
      FirstPiece(region, rest[..next - |region|]);
    }
  }

  /** The region is the segment after the first mark in a link; without a mark it is `global`. */
  lemma RegionOfLink(before: string, region: string, rest: string)
    requires '/' !in region && (rest == [] || rest[0] == '/')
    requires Find(before + "/regions/" + region + rest, "/regions/") == |before|
    ensures RegionFromLink(before + "/regions/" + region + rest) == region
  {
    hide Split, Find;
    assert (before + "/regions/" + region + rest)[|before| + 9..] == region + rest;
    RegionOfTail(region, rest);
  }

  lemma NoRegionInLink(link: string)
    ensures RegionFromLink(link) == "global" <== !Contains(link, "/regions/")
  {}

  ghost function BackendRecord(b: Backend): Resource {
    Resource("lb_backend_service", Some(RegionFromLink(OrEmpty(b.item.selfLink))), Some(IdOf(b.item)), Some(OrEmpty(b.item.name)),
      b.raw, ResourceName(b.network), None)
  }

  ghost function PolicyRecord(p: Target): Resource {
    Resource("ssl_policy", Some("global"), Some(IdOf(p.item)), Some(OrEmpty(p.item.name)), p.raw, None, None)
  }

  ghost function ProxyRecord(p: Proxy): Resource {
    Resource("target_https_proxy", Some(RegionFromLink(OrEmpty(p.item.selfLink))), Some(IdOf(p.item)), Some(OrEmpty(p.item.name)),
      p.raw, None, None)
  }

  ghost function BackendEnds(bs: seq<Backend>): seq<End> {
    seq(|bs|, k requires 0 <= k < |bs| => End(IdOf(bs[k].item), bs[k].network))
  }

  ghost function ProxyEnds(ps: seq<Proxy>): seq<End> {
    seq(|ps|, k requires 0 <= k < |ps| => End(IdOf(ps[k].item), ps[k].sslPolicy))
  }

  lemma BackendsTrail(backends: Fetch<seq<Backend>>, networks: seq<Item>)
    ensures var bs := OrNone(backends);
      TrailOf(ReferrerBlock(BACKEND, MapFetch(BackendReferrer, backends), networks))
      == Trail(seq(|bs|, k requires 0 <= k < |bs| => BackendRecord(bs[k])),
               Links("lb_backend_service", "vpc_network", "in_vpc_network", BackendEnds(bs), networks),
               Failed("global", "lb_backend_service", backends))
  {
    hide TrailOf, ReferrerBlock, Links, ResourceName, RegionFromLink;
    ReferrerBlockTrail(BACKEND, MapFetch(BackendReferrer, backends), networks);
    assert Ends(OrNone(MapFetch(BackendReferrer, backends))) == BackendEnds(OrNone(backends));
  }

  lemma PoliciesTrail(policies: Fetch<seq<Target>>)
    ensures var ps := OrNone(policies);
      TrailOf(TargetBlock("ssl_policy", policies))
      == Trail(seq(|ps|, k requires 0 <= k < |ps| => PolicyRecord(ps[k])), [], Failed("global", "ssl_policy", policies))
  {
    hide TrailOf, TargetBlock;
    BackendsElsewhere();
    assert "ssl_policy" != "vpc_network";
    TargetBlockTrail("ssl_policy", policies);
  }

  lemma ProxiesTrail(proxies: Fetch<seq<Proxy>>, policies: seq<Item>)
    ensures var xs := OrNone(proxies);
      TrailOf(ReferrerBlock(PROXY, MapFetch(ProxyReferrer, proxies), policies))
      == Trail(seq(|xs|, k requires 0 <= k < |xs| => ProxyRecord(xs[k])),
               Links("target_https_proxy", "ssl_policy", "uses_ssl_policy", ProxyEnds(xs), policies),
               Failed("global", "target_https_proxy", proxies))
  {
    hide TrailOf, ReferrerBlock, Links, ResourceName, RegionFromLink;
    ReferrerBlockTrail(PROXY, MapFetch(ProxyReferrer, proxies), policies);
    assert Ends(OrNone(MapFetch(ProxyReferrer, proxies))) == ProxyEnds(OrNone(proxies));
  }

  /** Everything `lb.gather` leaves, likewise. */
  lemma LbExact(networks: Fetch<seq<Item>>, backends: Fetch<seq<Backend>>, policies: Fetch<seq<Target>>,
      proxies: Fetch<seq<Proxy>>)
    ensures var calls := LbCalls(networks, backends, policies, proxies);
      var bs, ps, xs := OrNone(backends), OrNone(policies), OrNone(proxies);
      && Accepted(calls) == seq(|bs|, k requires 0 <= k < |bs| => BackendRecord(bs[k]))
           + seq(|ps|, k requires 0 <= k < |ps| => PolicyRecord(ps[k]))
           + seq(|xs|, k requires 0 <= k < |xs| => ProxyRecord(xs[k]))
      && EdgesOf(calls) == Links("lb_backend_service", "vpc_network", "in_vpc_network", BackendEnds(bs), OrNone(networks))
           + Links("target_https_proxy", "ssl_policy", "uses_ssl_policy", ProxyEnds(xs), Items(ps))
      && ErrorsOf(calls) == Failed("global", "lb_backend_service (network resolution)", networks)
           + Failed("global", "lb_backend_service", backends) + Failed("global", "ssl_policy", policies)
           + Failed("global", "target_https_proxy", proxies)
  {
    hide TargetBlock, ReferrerBlock, Accepted, EdgesOf, ErrorsOf, Links, FetchError, BackendRecord, PolicyRecord, ProxyRecord;
    hide Failed, MapFetch;
    var n := FetchError("global", NETWORK_RESOLUTION, networks);
    var b := ReferrerBlock(BACKEND, MapFetch(BackendReferrer, backends), OrNone(networks));
    var p := TargetBlock("ssl_policy", policies);
    var x := ReferrerBlock(PROXY, MapFetch(ProxyReferrer, proxies), Items(OrNone(policies)));
    TrailOfFetch("global", NETWORK_RESOLUTION, networks);
    BackendsTrail(backends, OrNone(networks));
    PoliciesTrail(policies);
    ProxiesTrail(proxies, Items(OrNone(policies)));
    TrailAppend(n, b);
    TrailAppend(p, x);
    TrailAppend(n + b, p + x);
  }
}
