/** The graph a stretch of writer calls describes: which resources it records, whether its edges
    have their ends among them, and which edges there are. An edge is matched to a resource by
    type and id; the lemmas put stretches of calls together. */
module Graph {
  import opened Text
  import opened Tags
  import opened Writer

  /** What an edge's end is matched by. */
  datatype Node = Node(kind: string, id: Id)

  ghost function Named(calls: seq<Call>): set<Node> {
    set r | r in Accepted(calls) :: Node(r.resourceType, r.id)
  }

  /** Every edge leaves one of these nodes, and every edge of the module's own also ends at
      one. */
  ghost predicate Anchored(edges: seq<Edge>, nodes: set<Node>, own: Edge -> bool) {
    forall k :: 0 <= k < |edges| ==>
      && Node(edges[k].fromType, edges[k].fromId) in nodes
      && (own(edges[k]) ==> Node(edges[k].toType, edges[k].toId) in nodes)
  }

  /** The edges of a stretch of calls have their ends among the resources it records. */
  ghost predicate Closed(calls: seq<Call>, own: Edge -> bool) { Anchored(EdgesOf(calls), Named(calls), own) }

  predicate AllEdges(e: Edge) { true }

  lemma NamedAppend(a: seq<Call>, b: seq<Call>)
    ensures Named(a + b) == Named(a) + Named(b)
  {
    hide Accepted;
    PartsAppend(a, b);
  }

  lemma AnchoredAppend(a: seq<Call>, b: seq<Call>, nodes: set<Node>, own: Edge -> bool)
    requires Anchored(EdgesOf(a), nodes, own) && Anchored(EdgesOf(b), nodes, own)
    ensures Anchored(EdgesOf(a + b), nodes, own)
  {
    hide EdgesOf;
    PartsAppend(a, b);
  }

  lemma AnchoredMore(edges: seq<Edge>, few: set<Node>, many: set<Node>, own: Edge -> bool)
    requires Anchored(edges, few, own) && few <= many
    ensures Anchored(edges, many, own)
  {}

  /** Later calls may lean on what earlier ones recorded. */
  lemma ClosedAfter(a: seq<Call>, b: seq<Call>, own: Edge -> bool)
    requires Closed(a, own) && Anchored(EdgesOf(b), Named(a) + Named(b), own)
    ensures Closed(a + b, own)
  {
    hide Named;
    hide EdgesOf;
    hide Anchored;
    NamedAppend(a, b);
    AnchoredMore(EdgesOf(a), Named(a), Named(a) + Named(b), own);
    AnchoredAppend(a, b, Named(a) + Named(b), own);
  }

  lemma ClosedAppend(a: seq<Call>, b: seq<Call>, own: Edge -> bool)
    requires Closed(a, own) && Closed(b, own)
    ensures Closed(a + b, own)
  {
    hide Named;
    hide EdgesOf;
    hide Anchored;
    AnchoredMore(EdgesOf(b), Named(b), Named(a) + Named(b), own);
    ClosedAfter(a, b, own);
  }

  lemma AnchoredWithin(a: seq<Call>, b: seq<Call>, nodes: set<Node>, own: Edge -> bool)
    requires Anchored(EdgesOf(a), nodes + Named(a), own) && Anchored(EdgesOf(b), nodes + Named(b), own)
    ensures Anchored(EdgesOf(a + b), nodes + Named(a + b), own)
  {
    hide Named;
    hide EdgesOf;
    hide Anchored;
    NamedAppend(a, b);
    AnchoredMore(EdgesOf(a), nodes + Named(a), nodes + Named(a + b), own);
    AnchoredMore(EdgesOf(b), nodes + Named(b), nodes + Named(a + b), own);
    AnchoredAppend(a, b, nodes + Named(a + b), own);
  }

  lemma NothingAnchored(nodes: set<Node>, own: Edge -> bool)
    ensures Anchored(EdgesOf([]), nodes, own)
  {}

  // ----- single calls -----

  /** What `add_resource` returns for these tags. */
  predicate Recorded(tags: RawTags) { !ParseSuppression(tags).full }

  lemma NothingNamed(own: Edge -> bool)
    ensures Named([]) == {} && EdgesOf([]) == [] && Closed([], own)
  {}

  lemma OneResource(r: Resource, tags: RawTags, own: Edge -> bool)
    ensures var c := [Call.AddResource(r, tags)];
      && EdgesOf(c) == [] && Closed(c, own)
      && Named(c) == if ParseSuppression(tags).full then {} else {Node(r.resourceType, r.id)}
  {
    hide ParseSuppression;
    hide Stamp;
    var c := [Call.AddResource(r, tags)];
    assert Before(c) == [];
    assert Accepted(c) == AcceptedOf(c[0]);
  }

  lemma OneEdge(e: Edge)
    ensures EdgesOf([Call.AddEdge(e)]) == [e] && Named([Call.AddEdge(e)]) == {}
  {
    var c := [Call.AddEdge(e)];
    assert Before(c) == [] && Accepted(c) == [];
  }

  lemma OneError(n: ErrorNote, own: Edge -> bool)
    ensures EdgesOf([Call.AddError(n)]) == [] && Named([Call.AddError(n)]) == {} && Closed([Call.AddError(n)], own)
  {
    var c := [Call.AddError(n)];
    assert Before(c) == [] && Accepted(c) == [];
  }

  /** A recorded resource and edges that lean on it. */
  lemma RecordWithEdges(r: Resource, tags: RawTags, edges: seq<Call>, nodes: set<Node>, own: Edge -> bool)
    requires Recorded(tags) && Named(edges) == {}
    requires Anchored(EdgesOf(edges), nodes + {Node(r.resourceType, r.id)}, own)
    ensures Anchored(EdgesOf([Call.AddResource(r, tags)] + edges), nodes + Named([Call.AddResource(r, tags)] + edges), own)
  {
    hide Named;
    hide EdgesOf;
    hide Anchored;
    hide ParseSuppression;
    var first := [Call.AddResource(r, tags)];
    OneResource(r, tags, own);
    NamedAppend(first, edges);
    AnchoredMore(EdgesOf(first), Named(first), nodes + Named(first), own);
    assert nodes + Named(first + edges) == nodes + {Node(r.resourceType, r.id)};
    AnchoredAppend(first, edges, nodes + Named(first + edges), own);
  }

  lemma SuppressedAnchored(r: Resource, tags: RawTags, nodes: set<Node>, own: Edge -> bool)
    requires !Recorded(tags)
    ensures Anchored(EdgesOf([Call.AddResource(r, tags)] + []), nodes + Named([Call.AddResource(r, tags)] + []), own)
  {
    hide Named;
    hide EdgesOf;
    hide ParseSuppression;
    var first := [Call.AddResource(r, tags)];
    OneResource(r, tags, own);
    assert first + [] == first;
  }

  /** A resource without tags is always recorded. */
  lemma UntaggedIsKept()
    ensures ParseSuppression(NoTags) == Suppression(false, [])
  {
    var m := Normalize(NoTags);
    assert Lower(Strip(SuppressText(m))) == [];
    assert CheckIds(ChecksText(m)) == [];
  }

  // ----- which edges there are -----

  lemma EdgeInEither(a: seq<Call>, b: seq<Call>, e: Edge)
    ensures e in EdgesOf(a + b) <==> e in EdgesOf(a) || e in EdgesOf(b)
  {
    hide EdgesOf;
    hide Accepted;
    hide ErrorsOf;
    PartsAppend(a, b);
  }

  lemma ErrorHasNoEdge<T>(region: string, source: string, f: Fetch<T>)
    ensures EdgesOf(FetchError(region, source, f)) == []
  {
    if f.Err? { OneError(ErrorNote(region, source, f.error), AllEdges); }
  }

  /** A resource followed by an edge under a condition. */
  lemma EdgesOfOne(r: Resource, tags: RawTags, e: Edge)
    ensures EdgesOf([Call.AddResource(r, tags)] + []) == []
    ensures EdgesOf([Call.AddResource(r, tags)] + [Call.AddEdge(e)]) == [e]
  {
    hide EdgesOf;
    hide ParseSuppression;
    var first := [Call.AddResource(r, tags)];
    OneResource(r, tags, AllEdges);
    assert first + [] == first;
    OneEdge(e);
    PartsAppend(first, [Call.AddEdge(e)]);
  }

  // ----- everything a stretch of calls leaves -----

  datatype Trail = Trail(records: seq<Resource>, edges: seq<Edge>, errors: seq<ErrorNote>)
  {
    function Plus(next: Trail): Trail { Trail(records + next.records, edges + next.edges, errors + next.errors) }
  }

  function TrailOf(calls: seq<Call>): Trail { Trail(Accepted(calls), EdgesOf(calls), ErrorsOf(calls)) }

  const NO_TRAIL := Trail([], [], [])

  /** The record of a resource with these tags: none when they suppress it, and otherwise the
      resource with its suppressed check ids stamped in. */
  function Kept(r: Resource, tags: RawTags): seq<Resource> {
    if ParseSuppression(tags).full then [] else [r.(raw := Stamp(r.raw, ParseSuppression(tags)))]
  }

  /** The error of a fetch that failed. */
  function Failed<T>(region: string, source: string, f: Fetch<T>): seq<ErrorNote> {
    if f.Err? then [ErrorNote(region, source, f.error)] else []
  }

  lemma TrailAppend(a: seq<Call>, b: seq<Call>)
    ensures TrailOf(a + b) == TrailOf(a).Plus(TrailOf(b))
  {
    hide Accepted, EdgesOf, ErrorsOf;
    PartsAppend(a, b);
  }

  lemma TrailOfNothing()
    ensures TrailOf([]) == NO_TRAIL
  {}

  lemma PlusNothing(t: Trail)
    ensures t.Plus(NO_TRAIL) == t && NO_TRAIL.Plus(t) == t
  {}

  lemma TrailOfResource(r: Resource, tags: RawTags)
    ensures TrailOf([Call.AddResource(r, tags)]) == Trail(Kept(r, tags), [], [])
  {
    hide ParseSuppression, Stamp;
    var c := [Call.AddResource(r, tags)];
    TrailOfOne(c[0]);
  }

  lemma TrailOfOne(c: Call)
    ensures TrailOf([c]) == Trail(AcceptedOf(c), if c.AddEdge? then [c.e] else [], if c.AddError? then [c.n] else [])
  {
    hide ParseSuppression, Stamp;
    assert Before([c]) == [] && Last([c]) == c;
    assert Accepted([c]) == Accepted([]) + AcceptedOf(c) && EdgesOf([]) == [] && ErrorsOf([]) == [];
  }

  lemma TrailOfUntagged(r: Resource)
    ensures TrailOf([Call.AddResource(r, NoTags)]) == Trail([r], [], [])
  {
    hide ParseSuppression;
    TrailOfResource(r, NoTags);
    UntaggedIsKept();
  }

  lemma TrailOfEdge(e: Edge)
    ensures TrailOf([Call.AddEdge(e)]) == Trail([], [e], [])
  {
    TrailOfOne(Call.AddEdge(e));
  }

  lemma TrailOfFetch<T>(region: string, source: string, f: Fetch<T>)
    ensures TrailOf(FetchError(region, source, f)) == Trail([], [], Failed(region, source, f))
  {
    if f.Err? { TrailOfOne(Call.AddError(ErrorNote(region, source, f.error))); }
  }
}
