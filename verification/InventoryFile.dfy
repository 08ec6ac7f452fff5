/** The inventory file: newline-delimited JSON whose first line is the manifest, and a reader
    that takes it apart again. */
module InventoryFile {
  import opened Text
  import opened Json
  import opened Tags
  import opened Writer

  // ----- the reader -----

  /** A file's content: the manifest and the lines of each kind, in order. */
  datatype Contents = Contents(manifest: Json, records: seq<Json>, edges: seq<Json>, errors: seq<Json>)

  predicate IsKind(v: Json, kind: string) {
    v.Obj? && HasKey(v.fields, "kind") && Get(v.fields, "kind") == Str(kind)
  }

  function OfKind(vs: seq<Json>, kind: string): seq<Json> {
    if vs == [] then []
    else (if IsKind(vs[0], kind) then [vs[0]] else []) + OfKind(vs[1..], kind)
  }

  function LoadLines(lines: seq<string>): Option<seq<Json>> {
    if lines == [] then Some([])
    else
      match Loads(lines[0])
      case None => None
      case Some(v) => match LoadLines(lines[1..]) case None => None case Some(vs) => Some([v] + vs)
  }

  /** The lines of a text whose every line ends in a newline. */
  function Lines(text: string): Option<seq<string>> {
    var parts := Split(text, '\n');
    if parts[|parts| - 1] == [] then Some(parts[..|parts| - 1]) else None
  }

  function ReadInventory(text: string): Option<Contents> {
    match Lines(text)
    case None => None
    case Some(lines) =>
      match LoadLines(lines)
      case None => None
      case Some(vs) =>
        if vs == [] || !IsKind(vs[0], "manifest") then None
        else Some(Contents(vs[0], OfKind(vs, "resource"), OfKind(vs, "edge"), OfKind(vs, "error")))
  }

  // ----- the reader of single lines, by the names of their keys -----

  /** The text under a key, or None for null or a missing key. */
  function IdAt(f: seq<Field>, key: string): Id { match GetOr(f, key, Null) case Str(s) => Some(s) case _ => None }

  function TextAt(f: seq<Field>, key: string): string { OrEmpty(IdAt(f, key)) }

  function Texts(vs: seq<Json>): seq<string> {
    seq(|vs|, k requires 0 <= k < |vs| => match vs[k] case Str(s) => s case _ => [])
  }

  function HitsAt(f: seq<Field>): Option<seq<string>> {
    match GetOr(f, "secret_scan_hits", Null) case Arr(items) => Some(Texts(items)) case _ => None
  }

  function ReadRecord(v: Json): Resource
    requires v.Obj?
  {
    var f := v.fields;
    Resource(TextAt(f, "resource_type"), IdAt(f, "region"), IdAt(f, "resource_id"), IdAt(f, "resource_name"),
      GetOr(f, "raw", Null), IdAt(f, "scope_id"), HitsAt(f))
  }

  function ReadEdge(v: Json): Edge
    requires v.Obj?
  {
    var f := v.fields;
    Edge(TextAt(f, "from_type"), IdAt(f, "from_id"), TextAt(f, "to_type"), IdAt(f, "to_id"), TextAt(f, "relationship"))
  }

  function ReadError(v: Json): ErrorNote
    requires v.Obj?
  {
    ErrorNote(TextAt(v.fields, "region"), TextAt(v.fields, "source"), TextAt(v.fields, "message"))
  }

  function ReadHeader(v: Json): Header
    requires v.Obj?
  {
    var f := v.fields;
    Header(TextAt(f, "provider"), TextAt(f, "account_id"), TextAt(f, "tool_version"), TextAt(f, "generated_at"))
  }

  /** What a file says. */
  datatype Inventory = Inventory(header: Header, records: seq<Resource>, edges: seq<Edge>, errors: seq<ErrorNote>)

  ghost predicate AllObjects(vs: seq<Json>) { forall k :: 0 <= k < |vs| ==> vs[k].Obj? }

  ghost function Understood(c: Contents): Inventory
    requires c.manifest.Obj? && AllObjects(c.records) && AllObjects(c.edges) && AllObjects(c.errors)
  {
    Inventory(ReadHeader(c.manifest),
      seq(|c.records|, k requires 0 <= k < |c.records| => ReadRecord(c.records[k])),
      seq(|c.edges|, k requires 0 <= k < |c.edges| => ReadEdge(c.edges[k])),
      seq(|c.errors|, k requires 0 <= k < |c.errors| => ReadError(c.errors[k])))
  }

  // ----- what is written is well formed -----

  lemma {:induction false} StringsWellFormed(xs: seq<string>)
    ensures AllWellFormed(Strings(xs))
  {
    if xs != [] {
      StringsWellFormed(xs[1..]);
      assert Strings(xs)[1..] == Strings(xs[1..]);
    }
  }

  lemma {:induction false} CountsWellFormed(counts: seq<Count>)
    requires ProperCounts(counts)
    ensures UniqueKeys(CountsJson(counts)) && FieldsWellFormed(CountsJson(counts))
    ensures forall t :: HasKey(CountsJson(counts), t) <==> CountOf(counts, t) > 0
  {
    if counts != [] {
      CountsWellFormed(counts[1..]);
      assert CountsJson(counts)[1..] == CountsJson(counts[1..]);
    }
  }

  /** Every resource call of the sequence hands in a JSON-native raw value. */
  ghost predicate NativeCalls(calls: seq<Call>) {
    forall k :: 0 <= k < |calls| && calls[k].AddResource? ==> WellFormed(calls[k].r.raw)
  }

  ghost predicate NativeRecords(rs: seq<Resource>) {
    forall k :: 0 <= k < |rs| ==> WellFormed(rs[k].raw)
  }

  lemma StampWellFormed(raw: Json, s: Suppression)
    requires WellFormed(raw)
    ensures WellFormed(Stamp(raw, s))
  {
    StringsWellFormed(SortedIds(s));
    if raw.Obj? { PutWellFormed(raw.fields, CHECK_IDS_KEY, Arr(Strings(SortedIds(s)))); }
  }

  lemma AcceptedNative(c: Call)
    requires c.AddResource? ==> WellFormed(c.r.raw)
    ensures NativeRecords(AcceptedOf(c))
  {
    if c.AddResource? { StampWellFormed(c.r.raw, ParseSuppression(c.tags)); }
  }

  lemma {:induction false} RecordsNative(calls: seq<Call>)
    requires NativeCalls(calls)
    ensures NativeRecords(Accepted(calls))
  {
    if calls != [] {
      RecordsNative(Before(calls));
      AcceptedNative(Last(calls));
    }
  }

  /** Objects whose keys are pairwise different and whose values are well formed. */
  lemma {:induction false} FlatObject(f: seq<Field>)
    requires forall a, b :: 0 <= a < b < |f| ==> f[a].key != f[b].key
    requires forall k :: 0 <= k < |f| ==> WellFormed(f[k].value)
    ensures UniqueKeys(f) && FieldsWellFormed(f)
  {
    hide WellFormed;
    if f != [] {
      FlatObject(f[1..]);
      NoSuchKey(f[1..], f[0].key);
    }
  }

  lemma {:induction false} NoSuchKey(f: seq<Field>, key: string)
    requires forall j :: 0 <= j < |f| ==> f[j].key != key
    ensures !HasKey(f, key)
  {
    if f != [] { NoSuchKey(f[1..], key); }
  }

  /** Keys told apart by their length and first character. */
  lemma KeysDiffer(f: seq<Field>)
    requires forall k :: 0 <= k < |f| ==> f[k].key != []
    requires forall a, b :: 0 <= a < b < |f| ==> |f[a].key| != |f[b].key| || f[a].key[0] != f[b].key[0]
    ensures forall a, b :: 0 <= a < b < |f| ==> f[a].key != f[b].key
  {}

  lemma ManifestKeys(h: Header, w: State, regions: seq<string>)
    ensures var f := Manifest(h, w, regions).fields;
      forall a, b :: 0 <= a < b < |f| ==> f[a].key != f[b].key
  {
    hide Strings;
    hide CountsJson;
    var f := Manifest(h, w, regions).fields;
    var sizes := [4, 14, 12, 8, 10, 12, 7, 15, 15, 11, 11];
    var firsts := ['k', 'f', 't', 'p', 'a', 'g', 'r', 'r', 't', 't', 'e'];
    assert |f| == 11;
    forall k | 0 <= k < 11 ensures |f[k].key| == sizes[k] && f[k].key[0] == firsts[k] {}
    KeysDiffer(f);
  }

  lemma ManifestWellFormed(h: Header, w: State, regions: seq<string>)
    requires ProperCounts(w.counts)
    ensures WellFormed(Manifest(h, w, regions)) && IsKind(Manifest(h, w, regions), "manifest")
  {
    StringsWellFormed(regions);
    CountsWellFormed(w.counts);
    ManifestKeys(h, w, regions);
    FlatObject(Manifest(h, w, regions).fields);
  }

  lemma RecordWellFormed(r: Resource)
    requires WellFormed(r.raw)
    ensures WellFormed(RecordJson(r))
  {
    if r.hits.Some? { StringsWellFormed(r.hits.value); }
    var f := RecordJson(r).fields;
    RecordKeys(r);
    forall k | 0 <= k < |f| ensures WellFormed(f[k].value) {}
    FlatObject(f);
  }

  lemma RecordKeys(r: Resource)
    ensures var f := RecordJson(r).fields;
      forall a, b :: 0 <= a < b < |f| ==> f[a].key != f[b].key
  {
    var f := RecordJson(r).fields;
    var sizes := [4, 13, 6, 11, 13, 3];
    forall k | 0 <= k < 6 ensures |f[k].key| == sizes[k] {}
    assert f[1].key[9] == 't' && f[4].key[9] == 'n';
    forall k | 6 <= k < |f| ensures f[k].key[0] == 's' && |f[k].key| == if r.scopeId.Some? && k == 6 then 8 else 16 {}
    forall k | 0 <= k < 6 ensures f[k].key[0] != 's' {}
  }

  lemma EdgeWellFormed(e: Edge)
    ensures WellFormed(EdgeJson(e))
  {
    EdgeKeys(e);
    FlatObject(EdgeJson(e).fields);
  }

  lemma EdgeKeys(e: Edge)
    ensures var f := EdgeJson(e).fields;
      forall a, b :: 0 <= a < b < |f| ==> f[a].key != f[b].key
  {
    var f := EdgeJson(e).fields;
    var sizes := [4, 9, 7, 7, 5, 12];
    var firsts := ['k', 'f', 'f', 't', 't', 'r'];
    forall k | 0 <= k < 6 ensures |f[k].key| == sizes[k] && f[k].key[0] == firsts[k] {}
    KeysDiffer(f);
  }

  lemma ErrorWellFormed(n: ErrorNote)
    ensures WellFormed(ErrorJson(n))
  {
    ErrorKeys(n);
    FlatObject(ErrorJson(n).fields);
  }

  lemma ErrorKeys(n: ErrorNote)
    ensures var f := ErrorJson(n).fields;
      forall a, b :: 0 <= a < b < |f| ==> f[a].key != f[b].key
  {
    var f := ErrorJson(n).fields;
    var firsts := ['k', 'r', 's', 'm'];
    forall k | 0 <= k < 4 ensures f[k].key[0] == firsts[k] {}
  }

  lemma KindOf(v: Json, kind: string)
    requires v.Obj? && v.fields != [] && v.fields[0] == Field("kind", Str(kind))
    ensures forall k :: IsKind(v, k) <==> k == kind
  {}

  // ----- the text is taken apart into its lines -----

  lemma LineOf(v: Json)
    requires WellFormed(v)
    ensures '\n' !in Dumps(v)
  {
    DumpsPrintable(v);
    assert forall k :: 0 <= k < |Dumps(v)| ==> Dumps(v)[k] >= ' ';
  }

  function DumpAll(vs: seq<Json>): seq<string> { seq(|vs|, k requires 0 <= k < |vs| => Dumps(vs[k])) }

  ghost predicate AllNative(vs: seq<Json>) { forall k :: 0 <= k < |vs| ==> WellFormed(vs[k]) }

  lemma {:induction false} SplitFile(vs: seq<Json>)
    requires AllNative(vs)
    ensures Split(FileText(vs), '\n') == DumpAll(vs) + [[]]
  {
    hide Dumps;
    hide WellFormed;
    if vs != [] {
      SplitFile(vs[1..]);
      LineOf(vs[0]);
      SplitFirst(Dumps(vs[0]), FileText(vs[1..]), '\n');
      assert DumpAll(vs) == [Dumps(vs[0])] + DumpAll(vs[1..]);
    }
  }

  lemma {:induction false} LoadDumped(vs: seq<Json>)
    requires AllNative(vs)
    ensures LoadLines(DumpAll(vs)) == Some(vs)
  {
    hide Dumps;
    hide Loads;
    hide WellFormed;
    if vs != [] {
      RoundTrip(vs[0]);
      LoadDumped(vs[1..]);
      assert DumpAll(vs)[1..] == DumpAll(vs[1..]);
      assert vs == [vs[0]] + vs[1..];
    }
  }

  // ----- the lines are told apart by kind -----

  lemma NoneOfKind(kind: string)
    ensures OfKind([], kind) == []
  {}

  lemma OfKindAhead(v: Json, rest: seq<Json>, kind: string)
    ensures OfKind([v] + rest, kind) == if IsKind(v, kind) then [v] + OfKind(rest, kind) else OfKind(rest, kind)
  {
    hide IsKind;
    assert ([v] + rest)[1..] == rest;
  }

  lemma {:induction false} OfKindAppends(a: seq<Json>, b: seq<Json>, kind: string)
    ensures OfKind(a + b, kind) == OfKind(a, kind) + OfKind(b, kind)
  {
    hide OfKind;
    hide IsKind;
    if a == [] {
      NoneOfKind(kind);
      assert a + b == b && [] + OfKind(b, kind) == OfKind(b, kind);
    } else {
      var v, rest := a[0], a[1..];
      OfKindAppends(rest, b, kind);
      OfKindAhead(v, rest, kind);
      OfKindAhead(v, rest + b, kind);
      assert a == [v] + rest && a + b == [v] + (rest + b);
    }
  }

  lemma {:induction false} OfKindAll(vs: seq<Json>, kind: string)
    requires forall k :: 0 <= k < |vs| ==> IsKind(vs[k], kind)
    ensures OfKind(vs, kind) == vs
  {
    if vs != [] {
      OfKindAll(vs[1..], kind);
      assert vs == [vs[0]] + vs[1..];
    }
  }

  lemma {:induction false} OfKindNone(vs: seq<Json>, kind: string)
    requires forall k :: 0 <= k < |vs| ==> !IsKind(vs[k], kind)
    ensures OfKind(vs, kind) == []
  {
    if vs != [] { OfKindNone(vs[1..], kind); }
  }

  /** Every value of `vs` is of the kind `own`. */
  lemma OneKind(vs: seq<Json>, own: string, kind: string)
    requires forall k :: 0 <= k < |vs| ==> vs[k].Obj? && vs[k].fields != [] && vs[k].fields[0] == Field("kind", Str(own))
    ensures OfKind(vs, kind) == if kind == own then vs else []
  {
    forall k | 0 <= k < |vs| ensures IsKind(vs[k], kind) <==> kind == own { KindOf(vs[k], own); }
    if kind == own { OfKindAll(vs, kind); } else { OfKindNone(vs, kind); }
  }

  lemma FileValuesOfKind(h: Header, w: State, regions: seq<string>, kind: string)
    requires kind != "manifest"
    ensures OfKind(FileValues(h, w, regions), kind) ==
      if kind == "resource" then RecordValues(w.records)
      else if kind == "edge" then EdgeValues(w.edges)
      else if kind == "error" then ErrorValues(w.errors)
      else []
  {
    hide OfKind;
    hide IsKind;
    KindNames();
    OneKind([Manifest(h, w, regions)], "manifest", kind);
    OneKind(RecordValues(w.records), "resource", kind);
    OneKind(EdgeValues(w.edges), "edge", kind);
    OneKind(ErrorValues(w.errors), "error", kind);
    ByKind([Manifest(h, w, regions)], RecordValues(w.records), EdgeValues(w.edges), ErrorValues(w.errors), kind);
  }

  lemma KindNames()
    ensures "resource" != "manifest" && "edge" != "manifest" && "error" != "manifest"
    ensures "resource" != "edge" && "resource" != "error" && "edge" != "error"
  {
    assert |"resource"| == |"manifest"| && "resource"[0] != "manifest"[0];
  }

  lemma ByKind(m: seq<Json>, rs: seq<Json>, es: seq<Json>, ns: seq<Json>, kind: string)
    ensures OfKind(m + rs + es + ns, kind) == OfKind(m, kind) + OfKind(rs, kind) + OfKind(es, kind) + OfKind(ns, kind)
  {
    OfKindAppends(m + rs + es, ns, kind);
    OfKindAppends(m + rs, es, kind);
    OfKindAppends(m, rs, kind);
  }

  // ----- the round trip -----

  lemma FileValuesNative(h: Header, w: State, regions: seq<string>)
    requires ProperCounts(w.counts) && NativeRecords(w.records)
    ensures AllNative(FileValues(h, w, regions))
  {
    ManifestWellFormed(h, w, regions);
    forall k | 0 <= k < |w.records| ensures WellFormed(RecordJson(w.records[k])) { RecordWellFormed(w.records[k]); }
    forall k | 0 <= k < |w.edges| ensures WellFormed(EdgeJson(w.edges[k])) { EdgeWellFormed(w.edges[k]); }
    forall k | 0 <= k < |w.errors| ensures WellFormed(ErrorJson(w.errors[k])) { ErrorWellFormed(w.errors[k]); }
  }

  /** Any sequence of well-formed values headed by a manifest is read back, sorted by kind. */
  lemma ReadsBack(vs: seq<Json>)
    requires AllNative(vs) && vs != [] && IsKind(vs[0], "manifest")
    ensures Lines(FileText(vs)) == Some(DumpAll(vs))
    ensures ReadInventory(FileText(vs))
      == Some(Contents(vs[0], OfKind(vs, "resource"), OfKind(vs, "edge"), OfKind(vs, "error")))
  {
    SplitFile(vs);
    var parts := Split(FileText(vs), '\n');
    assert parts[..|parts| - 1] == DumpAll(vs);
    LoadDumped(vs);
  }

  lemma StateReadsBack(h: Header, w: State, regions: seq<string>)
    requires ProperCounts(w.counts) && NativeRecords(w.records)
    ensures ReadInventory(FileText(FileValues(h, w, regions))) == Some(Contents(Manifest(h, w, regions),
      RecordValues(w.records), EdgeValues(w.edges), ErrorValues(w.errors)))
    ensures Lines(FileText(FileValues(h, w, regions))) == Some(DumpAll(FileValues(h, w, regions)))
  {
    var vs := FileValues(h, w, regions);
    FileValuesNative(h, w, regions);
    ManifestWellFormed(h, w, regions);
    ReadsBack(vs);
    KindNames();
    FileValuesOfKind(h, w, regions, "resource");
    FileValuesOfKind(h, w, regions, "edge");
    FileValuesOfKind(h, w, regions, "error");
    assert OfKind(vs, "resource") == RecordValues(w.records);
    assert OfKind(vs, "edge") == EdgeValues(w.edges);
    assert OfKind(vs, "error") == ErrorValues(w.errors);
  }

  /** Reading the file of any reachable writer gives its manifest and exactly its records,
      edges and errors, in order; the file has one line for each and one for the manifest,
      which is first. */
  lemma FileRoundTrip(calls: seq<Call>, h: Header, regions: seq<string>)
    requires NativeCalls(calls)
    ensures var w := Run(calls);
      ReadInventory(FileText(FileValues(h, w, regions))) == Some(Contents(Manifest(h, w, regions),
        RecordValues(w.records), EdgeValues(w.edges), ErrorValues(w.errors)))
    ensures var w := Run(calls);
      var lines := Lines(FileText(FileValues(h, w, regions)));
      && lines.Some? && |lines.value| == 1 + |w.records| + |w.edges| + |w.errors|
      && lines.value[0] == Dumps(Manifest(h, w, regions))
  {
    ReachableInv(calls);
    Conservation(calls);
    RecordsNative(calls);
    StateReadsBack(h, Run(calls), regions);
    var vs := FileValues(h, Run(calls), regions);
    assert DumpAll(vs)[0] == Dumps(vs[0]) && |DumpAll(vs)| == |vs|;
  }

  // ----- what the lines say -----

  lemma {:induction false} KeyThere(f: seq<Field>, key: string)
    ensures HasKey(f, key) <==> exists k :: 0 <= k < |f| && f[k].key == key
  {
    if f != [] {
      var rest := f[1..];
      KeyThere(rest, key);
      assert forall k :: 0 <= k < |rest| ==> rest[k] == f[k + 1];
      if exists k :: 0 <= k < |f| && f[k].key == key {
        var k :| 0 <= k < |f| && f[k].key == key;
        assert k == 0 || rest[k - 1].key == key;
      }
    }
  }

  lemma FieldsRead(f: seq<Field>)
    requires forall a, b :: 0 <= a < b < |f| ==> f[a].key != f[b].key
    ensures forall k :: 0 <= k < |f| ==> HasKey(f, f[k].key) && Get(f, f[k].key) == f[k].value
  {
    forall k | 0 <= k < |f| ensures HasKey(f, f[k].key) && Get(f, f[k].key) == f[k].value { FieldAt(f, k); }
  }

  /** Every key of a record's line. The scope and the hits are there exactly when given. */
  lemma RecordLineReads(r: Resource)
    ensures var f := RecordJson(r).fields;
      && GetOr(f, "kind", Null) == Str("resource")
      && GetOr(f, "resource_type", Null) == Str(r.resourceType)
      && HasKey(f, "region") && Get(f, "region") == IdJson(r.region)
      && HasKey(f, "resource_id") && Get(f, "resource_id") == IdJson(r.id)
      && HasKey(f, "resource_name") && Get(f, "resource_name") == IdJson(r.name)
      && HasKey(f, "raw") && Get(f, "raw") == r.raw
      && (HasKey(f, "scope_id") <==> r.scopeId.Some?)
      && (r.scopeId.Some? ==> Get(f, "scope_id") == Str(r.scopeId.value))
      && (HasKey(f, "secret_scan_hits") <==> r.hits.Some?)
      && (r.hits.Some? ==> Get(f, "secret_scan_hits") == Arr(Strings(r.hits.value)))
  {
    hide HasKey, Get, Strings, IdJson;
    var f := RecordJson(r).fields;
    RecordKeys(r);
    FieldsRead(f);
    assert f[0].key == "kind" && f[1].key == "resource_type" && f[2].key == "region" && f[3].key == "resource_id"
      && f[4].key == "resource_name" && f[5].key == "raw";
    KeyThere(f, "scope_id");
    KeyThere(f, "secret_scan_hits");
    OptionalKeys(r);
  }

  lemma OptionalKeys(r: Resource)
    ensures var f := RecordJson(r).fields;
      && (forall k :: 0 <= k < |f| ==> (f[k].key == "scope_id" <==> k == 6 && r.scopeId.Some?))
      && (forall k :: 0 <= k < |f| ==> (f[k].key == "secret_scan_hits" <==> k == |f| - 1 && r.hits.Some?))
      && (r.scopeId.Some? ==> |f| > 6 && f[6] == Field("scope_id", Str(r.scopeId.value)))
      && (r.hits.Some? ==> |f| > 6 && f[|f| - 1] == Field("secret_scan_hits", Arr(Strings(r.hits.value))))
  {
    hide Strings;
    var f := RecordJson(r).fields;
    forall k | 0 <= k < 6 ensures f[k].key[0] != 's' {}
    assert |"scope_id"| == 8 && |"secret_scan_hits"| == 16;
  }

  lemma EdgeLineReads(e: Edge)
    ensures var f := EdgeJson(e).fields;
      && GetOr(f, "kind", Null) == Str("edge")
      && GetOr(f, "from_type", Null) == Str(e.fromType) && HasKey(f, "from_id") && Get(f, "from_id") == IdJson(e.fromId)
      && GetOr(f, "to_type", Null) == Str(e.toType) && HasKey(f, "to_id") && Get(f, "to_id") == IdJson(e.toId)
      && GetOr(f, "relationship", Null) == Str(e.relationship)
  {
    hide HasKey, Get, IdJson;
    var f := EdgeJson(e).fields;
    EdgeKeys(e);
    FieldsRead(f);
    assert f[0].key == "kind" && f[1].key == "from_type" && f[2].key == "from_id" && f[3].key == "to_type"
      && f[4].key == "to_id" && f[5].key == "relationship";
  }

  lemma ErrorLineReads(n: ErrorNote)
    ensures var f := ErrorJson(n).fields;
      && GetOr(f, "kind", Null) == Str("error") && GetOr(f, "region", Null) == Str(n.region)
      && GetOr(f, "source", Null) == Str(n.source) && GetOr(f, "message", Null) == Str(n.message)
  {
    hide HasKey, Get;
    var f := ErrorJson(n).fields;
    ErrorKeys(n);
    FieldsRead(f);
    assert f[0].key == "kind" && f[1].key == "region" && f[2].key == "source" && f[3].key == "message";
  }

  lemma TextsOfStrings(xs: seq<string>)
    ensures Texts(Strings(xs)) == xs
  {}

  lemma RecordReadsBack(r: Resource)
    ensures RecordJson(r).Obj? && ReadRecord(RecordJson(r)) == r
  {
    RecordIsObject(r);
    hide HasKey, Get, Strings, Texts, RecordJson;
    RecordLineReads(r);
    if r.hits.Some? { TextsOfStrings(r.hits.value); }
  }

  lemma RecordIsObject(r: Resource)
    ensures RecordJson(r).Obj?
  {}

  lemma EdgeReadsBack(e: Edge)
    ensures ReadEdge(EdgeJson(e)) == e
  {
    hide HasKey, Get;
    EdgeLineReads(e);
  }

  lemma ErrorReadsBack(n: ErrorNote)
    ensures ReadError(ErrorJson(n)) == n
  {
    hide HasKey, Get;
    ErrorLineReads(n);
  }

  lemma HeaderReadsBack(h: Header, w: State, regions: seq<string>)
    ensures Manifest(h, w, regions).Obj? && ReadHeader(Manifest(h, w, regions)) == h
  {
    hide HasKey, Get, Strings, CountsJson;
    ManifestFields(h, w, regions);
  }

  /** Read by the names of their keys, the lines are what was written. */
  lemma LinesUnderstood(h: Header, w: State, regions: seq<string>)
    ensures var c := Contents(Manifest(h, w, regions), RecordValues(w.records), EdgeValues(w.edges), ErrorValues(w.errors));
      && c.manifest.Obj? && AllObjects(c.records) && AllObjects(c.edges) && AllObjects(c.errors)
      && Understood(c) == Inventory(h, w.records, w.edges, w.errors)
  {
    hide RecordJson, ReadRecord, ReadEdge, ReadError, ReadHeader, Manifest;
    HeaderReadsBack(h, w, regions);
    forall k | 0 <= k < |w.records|
      ensures RecordValues(w.records)[k].Obj? && ReadRecord(RecordValues(w.records)[k]) == w.records[k]
    {
      RecordReadsBack(w.records[k]);
    }
    forall k | 0 <= k < |w.edges| ensures ReadEdge(EdgeValues(w.edges)[k]) == w.edges[k] { EdgeReadsBack(w.edges[k]); }
    forall k | 0 <= k < |w.errors| ensures ReadError(ErrorValues(w.errors)[k]) == w.errors[k] { ErrorReadsBack(w.errors[k]); }
  }

  /** The file of any reachable writer says, read by the names of its keys, the header it was made
      with and, in order, the records the calls left and the edges and errors they handed in. */
  lemma FileSaysWhatWasCalled(calls: seq<Call>, h: Header, regions: seq<string>)
    requires NativeCalls(calls)
    ensures var c := ReadInventory(FileText(FileValues(h, Run(calls), regions)));
      && c.Some? && c.value.manifest.Obj? && AllObjects(c.value.records) && AllObjects(c.value.edges) && AllObjects(c.value.errors)
      && Understood(c.value) == Inventory(h, Accepted(calls), EdgesOf(calls), ErrorsOf(calls))
  {
    hide FileText, FileValues, ReadInventory, Run, Accepted, EdgesOf, ErrorsOf, RecordValues, EdgeValues, ErrorValues, Manifest;
    hide Understood, AllObjects;
    FileRoundTrip(calls, h, regions);
    Conservation(calls);
    LinesUnderstood(h, Run(calls), regions);
  }

  /** The manifest agrees with the body: its totals are the numbers of lines of each kind,
      and its per-type counts are those of the records. */
  lemma ManifestAgrees(calls: seq<Call>, h: Header, regions: seq<string>)
    requires NativeCalls(calls)
    ensures var w := Run(calls);
      var c := ReadInventory(FileText(FileValues(h, w, regions)));
      && c.Some? && c.value.manifest.Obj?
      && GetOr(c.value.manifest.fields, "format_version", Null) == Str("1.0")
      && GetOr(c.value.manifest.fields, "total_resources", Null) == Int(|c.value.records|)
      && GetOr(c.value.manifest.fields, "total_edges", Null) == Int(|c.value.edges|)
      && GetOr(c.value.manifest.fields, "error_count", Null) == Int(|c.value.errors|)
      && GetOr(c.value.manifest.fields, "resource_counts", Null) == Obj(CountsJson(w.counts))
      && GetOr(c.value.manifest.fields, "regions", Null) == Arr(Strings(regions))
    ensures forall t :: GetOr(CountsJson(Run(calls).counts), t, Int(0)) == Int(Tally(Run(calls).records, t))
  {
    FileRoundTrip(calls, h, regions);
    ReachableInv(calls);
    var w := Run(calls);
    ManifestFields(h, w, regions);
    ManifestTotals(h, w, regions);
    forall t ensures GetOr(CountsJson(w.counts), t, Int(0)) == Int(Tally(w.records, t)) {
      CountsLookup(w.counts, t);
    }
  }

  /** The regions that `write` puts there are the non-empty regions of the records, sorted and
      each once. */
  lemma ManifestRegions(calls: seq<Call>, regions: seq<string>)
    requires SortedSet(regions, Run(calls).regions)
    ensures StrictlySorted(regions)
    ensures forall x :: x in regions <==>
      x != [] && exists k :: 0 <= k < |Run(calls).records| && Run(calls).records[k].region == Some(x)
  {
    hide Run;
    ReachableInv(calls);
  }

  lemma ManifestFields(h: Header, w: State, regions: seq<string>)
    ensures var f := Manifest(h, w, regions).fields;
      && GetOr(f, "kind", Null) == Str("manifest")
      && GetOr(f, "format_version", Null) == Str("1.0")
      && GetOr(f, "tool_version", Null) == Str(h.toolVersion)
      && GetOr(f, "provider", Null) == Str(h.provider)
      && GetOr(f, "account_id", Null) == Str(h.accountId)
      && GetOr(f, "generated_at", Null) == Str(h.generatedAt)
  {
    hide HasKey, Get, Strings, CountsJson;
    var f := Manifest(h, w, regions).fields;
    ManifestKeys(h, w, regions);
    FieldsRead(f);
    assert f[0].key == "kind" && f[1].key == "format_version" && f[2].key == "tool_version" && f[3].key == "provider"
      && f[4].key == "account_id" && f[5].key == "generated_at";
  }

  lemma ManifestTotals(h: Header, w: State, regions: seq<string>)
    ensures var f := Manifest(h, w, regions).fields;
      && GetOr(f, "total_resources", Null) == Int(|w.records|)
      && GetOr(f, "total_edges", Null) == Int(|w.edges|)
      && GetOr(f, "error_count", Null) == Int(|w.errors|)
      && GetOr(f, "resource_counts", Null) == Obj(CountsJson(w.counts))
      && GetOr(f, "regions", Null) == Arr(Strings(regions))
  {
    hide HasKey, Get, Strings, CountsJson;
    var f := Manifest(h, w, regions).fields;
    ManifestKeys(h, w, regions);
    FieldsRead(f);
    assert f[6].key == "regions" && f[7].key == "resource_counts" && f[8].key == "total_resources"
      && f[9].key == "total_edges" && f[10].key == "error_count";
  }

  lemma {:induction false} FieldAt(f: seq<Field>, k: nat)
    requires k < |f| && forall j :: 0 <= j < k ==> f[j].key != f[k].key
    ensures HasKey(f, f[k].key) && Get(f, f[k].key) == f[k].value
  {
    if k > 0 { FieldAt(f[1..], k - 1); }
  }

  lemma {:induction false} CountsLookup(counts: seq<Count>, t: string)
    requires ProperCounts(counts)
    ensures GetOr(CountsJson(counts), t, Int(0)) == Int(CountOf(counts, t))
  {
    if counts != [] {
      CountsLookup(counts[1..], t);
      assert CountsJson(counts)[1..] == CountsJson(counts[1..]);
    }
  }

  /** A line determines its record: nothing is lost in writing one. */
  lemma RecordJsonInjective(a: Resource, b: Resource)
    requires RecordJson(a) == RecordJson(b)
    ensures a == b
  {
    var f, g := RecordJson(a).fields, RecordJson(b).fields;
    assert f[1] == g[1] && f[2] == g[2] && f[3] == g[3] && f[4] == g[4] && f[5] == g[5];
    if |f| == 8 {
      assert f[6] == g[6] && f[7] == g[7];
      StringsInjective(a.hits.value, b.hits.value);
    } else if |f| == 7 {
      assert f[6] == g[6];
      assert f[6].key == g[6].key;
      if a.hits.Some? && b.hits.Some? { StringsInjective(a.hits.value, b.hits.value); }
    }
  }

  lemma StringsInjective(xs: seq<string>, ys: seq<string>)
    requires Strings(xs) == Strings(ys)
    ensures xs == ys
  {
    assert |xs| == |Strings(xs)| == |ys|;
    forall k | 0 <= k < |xs| ensures xs[k] == ys[k] { assert Strings(xs)[k] == Strings(ys)[k]; }
  }
}
