/** `InventoryWriter`: the accumulator every gather module writes to. */
module Writer {
  import opened Text
  import opened Json
  import opened Tags

  /** An id, name or region as an SDK may return it: possibly None. */
  type Id = Option<string>

  datatype Resource = Resource(resourceType: string, region: Id, id: Id, name: Id, raw: Json, scopeId: Id,
    hits: Option<seq<string>>)

  datatype Edge = Edge(fromType: string, fromId: Id, toType: string, toId: Id, relationship: string)

  datatype ErrorNote = ErrorNote(region: string, source: string, message: string)

  datatype TagNote = TagNote(resourceType: string, id: Id, region: Id, full: bool, checkIds: seq<string>)

  /** One entry of the per-type counter, a dict in insertion order. */
  datatype Count = Count(resourceType: string, n: nat)

  datatype State = State(
    records: seq<Resource>,
    counts: seq<Count>,
    regions: set<string>,
    errors: seq<ErrorNote>,
    tagNotes: seq<TagNote>,
    edges: seq<Edge>)

  const EMPTY := State([], [], {}, [], [], [])

  // ----- the counter -----

  /** `counts[t] += 1` on a `defaultdict(int)` */
  function Bump(counts: seq<Count>, t: string): seq<Count> {
    if counts == [] then [Count(t, 1)]
    else if counts[0].resourceType == t then [Count(t, counts[0].n + 1)] + counts[1..]
    else [counts[0]] + Bump(counts[1..], t)
  }

  function CountOf(counts: seq<Count>, t: string): nat {
    if counts == [] then 0
    else if counts[0].resourceType == t then counts[0].n
    else CountOf(counts[1..], t)
  }

  function Total(counts: seq<Count>): nat {
    if counts == [] then 0 else counts[0].n + Total(counts[1..])
  }

  /** Every type is counted once, and only if it occurred. */
  ghost predicate ProperCounts(counts: seq<Count>) {
    counts == []
    || (counts[0].n > 0 && CountOf(counts[1..], counts[0].resourceType) == 0 && ProperCounts(counts[1..]))
  }

  // ----- add_resource -----

  const CHECK_IDS_KEY := "_SuppressedCheckIds"

  /** The raw record, with the suppressed check ids injected when there are any and it is a
      dict. */
  function Stamp(raw: Json, s: Suppression): Json {
    if s.checkIds != [] && raw.Obj? then Obj(Put(raw.fields, CHECK_IDS_KEY, Arr(Strings(SortedIds(s))))) else raw
  }

  function NoteOf(r: Resource, s: Suppression): TagNote {
    TagNote(r.resourceType, r.id, r.region, s.full, SortedIds(s))
  }

  function AddRegion(regions: set<string>, region: Id): set<string> {
    if region.Some? && region.value != [] then regions + {region.value} else regions
  }

  /** The state after `add_resource`. */
  function Record(w: State, r: Resource, tags: RawTags): State {
    var s := ParseSuppression(tags);
    var noted := if s.full || s.checkIds != [] then w.(tagNotes := w.tagNotes + [NoteOf(r, s)]) else w;
    if s.full then noted
    else noted.(records := w.records + [r.(raw := Stamp(r.raw, s))],
                counts := Bump(w.counts, r.resourceType), regions := AddRegion(w.regions, r.region))
  }

  // ----- call sequences -----

  datatype Call = AddResource(r: Resource, tags: RawTags) | AddEdge(e: Edge) | AddError(n: ErrorNote)

  /** What a listing or describe call comes back with. */
  type Fetch<T> = Result<T, string>

  /** The call that reports a failed fetch. */
  function FetchError<T>(region: string, source: string, f: Fetch<T>): seq<Call> {
    if f.Err? then [Call.AddError(ErrorNote(region, source, f.error))] else []
  }

  /** A failed listing leaves nothing to go through. */
  function OrNone<T>(f: Fetch<seq<T>>): seq<T> { if f.Ok? then f.value else [] }

  function Apply(w: State, c: Call): State {
    match c
    case AddResource(r, tags) => Record(w, r, tags)
    case AddEdge(e) => w.(edges := w.edges + [e])
    case AddError(n) => w.(errors := w.errors + [n])
  }

  /** The writer after any sequence of calls on a new one. */
  function Run(calls: seq<Call>): State {
    if calls == [] then EMPTY else Apply(Run(Before(calls)), Last(calls))
  }

  lemma RunMore(calls: seq<Call>, c: Call)
    ensures Run(calls + [c]) == Apply(Run(calls), c)
  {
    assert (calls + [c])[..|calls|] == calls;
  }

  // ----- what the calls leave behind, read off the calls -----

  function Last(calls: seq<Call>): Call
    requires calls != []
  {
    calls[|calls| - 1]
  }

  function Before(calls: seq<Call>): seq<Call>
    requires calls != []
  {
    calls[..|calls| - 1]
  }

  /** The record one call leaves, if any. */
  function AcceptedOf(c: Call): seq<Resource> {
    match c
    case AddResource(r, tags) =>
      var s := ParseSuppression(tags);
      if s.full then [] else [r.(raw := Stamp(r.raw, s))]
    case _ => []
  }

  function Accepted(calls: seq<Call>): seq<Resource> {
    if calls == [] then [] else Accepted(Before(calls)) + AcceptedOf(Last(calls))
  }

  function EdgesOf(calls: seq<Call>): seq<Edge> {
    if calls == [] then [] else EdgesOf(Before(calls)) + if Last(calls).AddEdge? then [Last(calls).e] else []
  }

  function ErrorsOf(calls: seq<Call>): seq<ErrorNote> {
    if calls == [] then [] else ErrorsOf(Before(calls)) + if Last(calls).AddError? then [Last(calls).n] else []
  }

  function ResourceCalls(calls: seq<Call>): nat {
    if calls == [] then 0
    else ResourceCalls(Before(calls)) + if Last(calls).AddResource? then 1 else 0
  }

  function FullNotes(notes: seq<TagNote>): nat {
    if notes == [] then 0
    else FullNotes(notes[..|notes| - 1]) + if notes[|notes| - 1].full then 1 else 0
  }

  function Tally(records: seq<Resource>, t: string): nat {
    if records == [] then 0
    else Tally(records[..|records| - 1], t) + if records[|records| - 1].resourceType == t then 1 else 0
  }

  ghost predicate Inv(w: State) {
    CountsHold(w.records, w.counts) && RegionsHold(w.records, w.regions)
  }

  /** The counter is the histogram of the records. */
  ghost predicate CountsHold(records: seq<Resource>, counts: seq<Count>) {
    && ProperCounts(counts)
    && (forall t :: CountOf(counts, t) == Tally(records, t))
    && Total(counts) == |records|
  }

  /** The regions are the non-empty ones of the records. */
  ghost predicate RegionsHold(records: seq<Resource>, regions: set<string>) {
    forall g :: g in regions <==> g != [] && exists k :: 0 <= k < |records| && records[k].region == Some(g)
  }

  lemma {:induction false} BumpCounts(counts: seq<Count>, t: string, u: string)
    ensures CountOf(Bump(counts, t), u) == CountOf(counts, u) + if u == t then 1 else 0
    ensures Total(Bump(counts, t)) == Total(counts) + 1
  {
    if counts != [] && counts[0].resourceType != t { BumpCounts(counts[1..], t, u); }
  }

  lemma {:induction false} BumpKeepsProper(counts: seq<Count>, t: string)
    requires ProperCounts(counts)
    ensures ProperCounts(Bump(counts, t))
  {
    if counts != [] && counts[0].resourceType != t {
      BumpKeepsProper(counts[1..], t);
      BumpCounts(counts[1..], t, counts[0].resourceType);
    }
  }

  /** The counter is the histogram of the records, and the regions are theirs. */
  lemma ApplyKeepsInv(w: State, c: Call)
    requires Inv(w)
    ensures Inv(Apply(w, c))
  {
    hide ParseSuppression;
    hide Stamp;
    hide CountsHold;
    hide RegionsHold;
    var w' := Apply(w, c);
    if w'.records != w.records {
      var r := c.r.(raw := Stamp(c.r.raw, ParseSuppression(c.tags)));
      CountsKept(w.records, w.counts, r);
      RegionsKept(w.records, w.regions, r);
    }
  }

  lemma CountsKept(records: seq<Resource>, counts: seq<Count>, r: Resource)
    requires CountsHold(records, counts)
    ensures CountsHold(records + [r], Bump(counts, r.resourceType))
  {
    hide Bump;
    hide ProperCounts;
    assert (records + [r])[..|records|] == records;
    forall t ensures CountOf(Bump(counts, r.resourceType), t) == Tally(records + [r], t) { BumpCounts(counts, r.resourceType, t); }
    BumpCounts(counts, r.resourceType, r.resourceType);
    BumpKeepsProper(counts, r.resourceType);
  }

  lemma RegionsKept(records: seq<Resource>, regions: set<string>, r: Resource)
    requires RegionsHold(records, regions)
    ensures RegionsHold(records + [r], AddRegion(regions, r.region))
  {
    var more := records + [r];
    forall g ensures g in AddRegion(regions, r.region) <==> g != [] && exists k :: 0 <= k < |more| && more[k].region == Some(g) {
      if g in regions {
        var k :| 0 <= k < |records| && records[k].region == Some(g);
        assert more[k].region == Some(g);
      }
      assert more[|records|].region == r.region;
    }
  }

  /** In every reachable state: each type's count is the number of its records, the counts
      add up to the number of records, and the regions are exactly those of the records. */
  lemma {:induction false} ReachableInv(calls: seq<Call>)
    ensures Inv(Run(calls))
  {
    hide Apply;
    if calls != [] {
      ReachableInv(Before(calls));
      ApplyKeepsInv(Run(Before(calls)), Last(calls));
    }
  }

  /** One call adds what it leaves behind and changes nothing that is already there. */
  lemma ApplyAppends(w: State, c: Call)
    ensures Apply(w, c).records == w.records + AcceptedOf(c)
    ensures Apply(w, c).edges == w.edges + if c.AddEdge? then [c.e] else []
    ensures Apply(w, c).errors == w.errors + if c.AddError? then [c.n] else []
    ensures w.tagNotes <= Apply(w, c).tagNotes
    ensures FullNotes(Apply(w, c).tagNotes) + |AcceptedOf(c)| == FullNotes(w.tagNotes) + if c.AddResource? then 1 else 0
  {
    hide ParseSuppression;
    hide Stamp;
    if c.AddResource? {
      var note := NoteOf(c.r, ParseSuppression(c.tags));
      assert (w.tagNotes + [note])[..|w.tagNotes|] == w.tagNotes;
    }
  }

  /** Records, edges and errors are what the calls handed in, in order, less the resources
      that are fully suppressed; every resource call is a record or a full-suppression note. */
  lemma {:induction false} Conservation(calls: seq<Call>)
    ensures Run(calls).records == Accepted(calls)
    ensures Run(calls).edges == EdgesOf(calls)
    ensures Run(calls).errors == ErrorsOf(calls)
    ensures ResourceCalls(calls) == |Run(calls).records| + FullNotes(Run(calls).tagNotes)
  {
    hide Apply;
    hide AcceptedOf;
    if calls != [] {
      Conservation(Before(calls));
      ApplyAppends(Run(Before(calls)), Last(calls));
    }
  }

  lemma SplitLast(a: seq<Call>, b: seq<Call>)
    requires b != []
    ensures a + b != [] && Last(a + b) == Last(b) && Before(a + b) == a + Before(b)
  {}

  lemma {:induction false} AcceptedAppend(a: seq<Call>, b: seq<Call>)
    ensures Accepted(a + b) == Accepted(a) + Accepted(b)
    decreases |b|
  {
    hide AcceptedOf;
    hide Last;
    hide Before;
    if b == [] {
      assert a + b == a;
    } else {
      SplitLast(a, b);
      ShorterBefore(b);
      AcceptedAppend(a, Before(b));
    }
  }

  lemma ShorterBefore(b: seq<Call>)
    requires b != []
    ensures |Before(b)| < |b|
  {}

  lemma {:induction false} EdgesAppend(a: seq<Call>, b: seq<Call>)
    ensures EdgesOf(a + b) == EdgesOf(a) + EdgesOf(b)
    decreases |b|
  {
    hide Last;
    hide Before;
    if b == [] {
      assert a + b == a;
    } else {
      SplitLast(a, b);
      ShorterBefore(b);
      EdgesAppend(a, Before(b));
    }
  }

  lemma {:induction false} ErrorsAppend(a: seq<Call>, b: seq<Call>)
    ensures ErrorsOf(a + b) == ErrorsOf(a) + ErrorsOf(b)
    decreases |b|
  {
    hide Last;
    hide Before;
    if b == [] {
      assert a + b == a;
    } else {
      SplitLast(a, b);
      ShorterBefore(b);
      ErrorsAppend(a, Before(b));
    }
  }

  /** What two stretches of calls leave behind is what each leaves behind, in order. */
  lemma PartsAppend(a: seq<Call>, b: seq<Call>)
    ensures Accepted(a + b) == Accepted(a) + Accepted(b)
    ensures EdgesOf(a + b) == EdgesOf(a) + EdgesOf(b)
    ensures ErrorsOf(a + b) == ErrorsOf(a) + ErrorsOf(b)
  {
    AcceptedAppend(a, b);
    EdgesAppend(a, b);
    ErrorsAppend(a, b);
  }

  /** A dict record carries precisely its sorted check ids, when it has any, and is otherwise
      as the caller handed it in; a value that is no dict is never touched. */
  lemma StampExact(raw: Json, s: Suppression, key: string)
    ensures !raw.Obj? || s.checkIds == [] ==> Stamp(raw, s) == raw
    ensures raw.Obj? && s.checkIds != [] ==>
      && Stamp(raw, s).Obj?
      && HasKey(Stamp(raw, s).fields, "_SuppressedCheckIds")
      && Get(Stamp(raw, s).fields, "_SuppressedCheckIds") == Arr(Strings(SortedIds(s)))
      && StrictlySorted(SortedIds(s)) && (forall id :: id in SortedIds(s) <==> id in s.checkIds)
      && (key != "_SuppressedCheckIds" ==>
          GetOr(Stamp(raw, s).fields, key, Null) == GetOr(raw.fields, key, Null))
  {
    if raw.Obj? && s.checkIds != [] {
      PutGet(raw.fields, CHECK_IDS_KEY, Arr(Strings(SortedIds(s))), key);
      SortUniqueSorts(s.checkIds);
    }
  }

  /** The notes of a stretch of calls: one for each resource whose tags suppress it or some of its
      checks. */
  ghost function NotesOf(calls: seq<Call>): seq<TagNote> {
    if calls == [] then []
    else
      NotesOf(Before(calls))
      + match Last(calls)
        case AddResource(r, tags) =>
          var s := ParseSuppression(tags);
          if s.full || s.checkIds != [] then [TagNote(r.resourceType, r.id, r.region, s.full, SortUnique(s.checkIds))] else []
        case _ => []
  }

  lemma {:induction false} NotesExact(calls: seq<Call>)
    ensures Run(calls).tagNotes == NotesOf(calls)
  {
    hide ParseSuppression, Stamp, SortUnique, Bump, AddRegion;
    if calls != [] { NotesExact(Before(calls)); }
  }

  // ----- the file -----

  const FORMAT_VERSION := "1.0"

  function IdJson(id: Id): Json { match id case None => Null case Some(s) => Str(s) }

  function RecordJson(r: Resource): Json {
    Obj([ Field("kind", Str("resource")),
          Field("resource_type", Str(r.resourceType)),
          Field("region", IdJson(r.region)),
          Field("resource_id", IdJson(r.id)),
          Field("resource_name", IdJson(r.name)),
          Field("raw", r.raw) ]
        + (if r.scopeId.Some? then [Field("scope_id", Str(r.scopeId.value))] else [])
        + (if r.hits.Some? then [Field("secret_scan_hits", Arr(Strings(r.hits.value)))] else []))
  }

  function EdgeJson(e: Edge): Json {
    Obj([ Field("kind", Str("edge")),
          Field("from_type", Str(e.fromType)),
          Field("from_id", IdJson(e.fromId)),
          Field("to_type", Str(e.toType)),
          Field("to_id", IdJson(e.toId)),
          Field("relationship", Str(e.relationship)) ])
  }

  function ErrorJson(n: ErrorNote): Json {
    Obj([ Field("kind", Str("error")),
          Field("region", Str(n.region)),
          Field("source", Str(n.source)),
          Field("message", Str(n.message)) ])
  }

  function CountsJson(counts: seq<Count>): seq<Field> {
    seq(|counts|, k requires 0 <= k < |counts| => Field(counts[k].resourceType, Int(counts[k].n)))
  }

  datatype Header = Header(provider: string, accountId: string, toolVersion: string, generatedAt: string)

  /** The manifest, given the regions in sorted order. */
  function Manifest(h: Header, w: State, regions: seq<string>): Json {
    Obj([ Field("kind", Str("manifest")),
          Field("format_version", Str(FORMAT_VERSION)),
          Field("tool_version", Str(h.toolVersion)),
          Field("provider", Str(h.provider)),
          Field("account_id", Str(h.accountId)),
          Field("generated_at", Str(h.generatedAt)),
          Field("regions", Arr(Strings(regions))),
          Field("resource_counts", Obj(CountsJson(w.counts))),
          Field("total_resources", Int(|w.records|)),
          Field("total_edges", Int(|w.edges|)),
          Field("error_count", Int(|w.errors|)) ])
  }

  function RecordValues(rs: seq<Resource>): seq<Json> { seq(|rs|, k requires 0 <= k < |rs| => RecordJson(rs[k])) }

  function EdgeValues(es: seq<Edge>): seq<Json> { seq(|es|, k requires 0 <= k < |es| => EdgeJson(es[k])) }

  function ErrorValues(ns: seq<ErrorNote>): seq<Json> { seq(|ns|, k requires 0 <= k < |ns| => ErrorJson(ns[k])) }

  /** Everything the file holds, one value a line. */
  function FileValues(h: Header, w: State, regions: seq<string>): seq<Json> {
    [Manifest(h, w, regions)] + RecordValues(w.records) + EdgeValues(w.edges) + ErrorValues(w.errors)
  }

  function FileText(values: seq<Json>): string {
    if values == [] then [] else Dumps(values[0]) + "\n" + FileText(values[1..])
  }

  /** `xs` is `sorted(regions)`. */
  ghost predicate SortedSet(xs: seq<string>, regions: set<string>) {
    StrictlySorted(xs) && forall g :: g in xs <==> g in regions
  }

  lemma {:induction false} FileTextMore(values: seq<Json>, v: Json)
    ensures FileText(values + [v]) == FileText(values) + Dumps(v) + "\n"
  {
    hide Dumps;
    if values == [] {
      assert [] + [v] == [v];
    } else {
      FileTextMore(values[1..], v);
      assert (values + [v])[1..] == values[1..] + [v];
    }
  }

  /** One more record, edge or error line. */
  lemma RecordLine(head: seq<Json>, rs: seq<Resource>, i: nat)
    requires i < |rs|
    ensures FileText(head + RecordValues(rs[..i + 1])) == FileText(head + RecordValues(rs[..i])) + Dumps(RecordJson(rs[i])) + "\n"
  {
    hide RecordJson;
    hide Dumps;
    FileTextMore(head + RecordValues(rs[..i]), RecordJson(rs[i]));
    assert head + RecordValues(rs[..i + 1]) == head + RecordValues(rs[..i]) + [RecordJson(rs[i])];
  }

  lemma EdgeLine(head: seq<Json>, es: seq<Edge>, i: nat)
    requires i < |es|
    ensures FileText(head + EdgeValues(es[..i + 1])) == FileText(head + EdgeValues(es[..i])) + Dumps(EdgeJson(es[i])) + "\n"
  {
    hide EdgeJson;
    hide Dumps;
    FileTextMore(head + EdgeValues(es[..i]), EdgeJson(es[i]));
    assert head + EdgeValues(es[..i + 1]) == head + EdgeValues(es[..i]) + [EdgeJson(es[i])];
  }

  lemma ErrorLine(head: seq<Json>, ns: seq<ErrorNote>, i: nat)
    requires i < |ns|
    ensures FileText(head + ErrorValues(ns[..i + 1])) == FileText(head + ErrorValues(ns[..i])) + Dumps(ErrorJson(ns[i])) + "\n"
  {
    hide ErrorJson;
    hide Dumps;
    FileTextMore(head + ErrorValues(ns[..i]), ErrorJson(ns[i]));
    assert head + ErrorValues(ns[..i + 1]) == head + ErrorValues(ns[..i]) + [ErrorJson(ns[i])];
  }

  /** What `write` puts into the file and returns. */
  ghost predicate Writes(h: Header, w: State, regions: seq<string>, text: string, manifest: Json) {
    SortedSet(regions, w.regions) && manifest == Manifest(h, w, regions) && text == FileText(FileValues(h, w, regions))
  }

  /** `sorted` of a set of strings */
  method Sorted(items: set<string>) returns (xs: seq<string>)
    ensures SortedSet(xs, items)
  {
    xs := [];
    var rest := items;
    while rest != {}
      invariant rest <= items && StrictlySorted(xs)
      invariant forall g :: g in xs <==> g in items && g !in rest
    {
      var g :| g in rest;
      InsertSorts(g, xs);
      xs := Insert(g, xs);
      rest := rest - {g};
    }
  }

  // ----- the class -----

  class InventoryWriter {
    const provider: string
    const accountId: string
    const toolVersion: string
    var records: seq<Resource>
    var counts: seq<Count>
    var regions: set<string>
    var errors: seq<ErrorNote>
    var tagNotes: seq<TagNote>
    var edges: seq<Edge>
    /** Every call made so far. */
    ghost var history: seq<Call>

    ghost function Snapshot(): State
      reads this
    {
      State(records, counts, regions, errors, tagNotes, edges)
    }

    /** The fields are what the calls so far amount to; `ReachableInv` and `Conservation` say
        what that implies for them. */
    ghost predicate Valid()
      reads this
    {
      Snapshot() == Run(history)
    }

    constructor (provider: string, accountId: string, toolVersion: string)
      ensures Valid() && Snapshot() == EMPTY && history == []
      ensures this.provider == provider && this.accountId == accountId && this.toolVersion == toolVersion
    {
      this.provider := provider;
      this.accountId := accountId;
      this.toolVersion := toolVersion;
      records, counts, regions, errors, tagNotes, edges := [], [], {}, [], [], [];
      history := [];
    }

    method AddResource(r: Resource, tags: RawTags) returns (recorded: bool)
      requires Valid()
      modifies this
      ensures Valid() && history == old(history) + [Call.AddResource(r, tags)]
      ensures Snapshot() == Apply(old(Snapshot()), Call.AddResource(r, tags))
      ensures recorded <==> !ParseSuppression(tags).full
      ensures recorded ==> records == old(records) + [r.(raw := Stamp(r.raw, ParseSuppression(tags)))]
      ensures !recorded ==> records == old(records)
      ensures edges == old(edges) && errors == old(errors)
    {
      hide ParseSuppression;
      hide Bump;
      hide SortUnique;
      hide Put;
      hide Run;
      RunMore(history, Call.AddResource(r, tags));
      history := history + [Call.AddResource(r, tags)];
      var s := ParseSuppression(tags);
      if s.full || s.checkIds != [] {
        tagNotes := tagNotes + [NoteOf(r, s)];
      }
      if s.full {
        return false;
      }
      var raw := r.raw;
      if s.checkIds != [] && raw.Obj? {
        raw := Obj(Put(raw.fields, CHECK_IDS_KEY, Arr(Strings(SortedIds(s)))));
      }
      records := records + [r.(raw := raw)];
      counts := Bump(counts, r.resourceType);
      if r.region.Some? && r.region.value != [] {
        regions := regions + {r.region.value};
      }
      return true;
    }

    method AddEdge(e: Edge)
      requires Valid()
      modifies this`edges, this`history
      ensures Valid() && history == old(history) + [Call.AddEdge(e)]
      ensures edges == old(edges) + [e]
    {
      hide Record;
      hide Run;
      RunMore(history, Call.AddEdge(e));
      history := history + [Call.AddEdge(e)];
      edges := edges + [e];
    }

    method AddError(n: ErrorNote)
      requires Valid()
      modifies this`errors, this`history
      ensures Valid() && history == old(history) + [Call.AddError(n)]
      ensures errors == old(errors) + [n]
    {
      hide Record;
      hide Run;
      RunMore(history, Call.AddError(n));
      history := history + [Call.AddError(n)];
      errors := errors + [n];
    }

    /** `write`: the text that goes into the file, and the manifest it returns. */
    method Write(generatedAt: string) returns (text: string, manifest: Json)
      ensures exists xs :: Writes(Header(provider, accountId, toolVersion, generatedAt), Snapshot(), xs, text, manifest)
    {
      hide Dumps;
      hide RecordJson;
      hide EdgeJson;
      hide ErrorJson;
      var xs := Sorted(regions);
      var h := Header(provider, accountId, toolVersion, generatedAt);
      manifest := Manifest(h, State(records, counts, regions, errors, tagNotes, edges), xs);
      text := Dumps(manifest) + "\n";
      ghost var head := [manifest];
      assert head + RecordValues(records[..0]) == head && FileText(head) == text;
      for i := 0 to |records|
        invariant text == FileText(head + RecordValues(records[..i]))
      {
        text := text + Dumps(RecordJson(records[i])) + "\n";
        RecordLine(head, records, i);
      }
      assert records[..|records|] == records;
      head := head + RecordValues(records);
      assert head + EdgeValues(edges[..0]) == head;
      for i := 0 to |edges|
        invariant text == FileText(head + EdgeValues(edges[..i]))
      {
        text := text + Dumps(EdgeJson(edges[i])) + "\n";
        EdgeLine(head, edges, i);
      }
      assert edges[..|edges|] == edges;
      head := head + EdgeValues(edges);
      assert head + ErrorValues(errors[..0]) == head;
      for i := 0 to |errors|
        invariant text == FileText(head + ErrorValues(errors[..i]))
      {
        text := text + Dumps(ErrorJson(errors[i])) + "\n";
        ErrorLine(head, errors, i);
      }
      assert errors[..|errors|] == errors;
      assert Writes(h, Snapshot(), xs, text, manifest);
    }
  }
}
