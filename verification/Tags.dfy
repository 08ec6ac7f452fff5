/** Tag-based suppression: the tag shapes of the three clouds and the two suppression tags. */
module Tags {
  import opened Text

  /** A tag dict; a value may be missing (`None`). */
  type TagMap = map<string, Option<string>>

  /** What a gather module passes as `tags`: nothing, Azure's and GCP's flat dict, or one of
      AWS's lists of entries. */
  datatype RawTags = NoTags | Flat(tags: TagMap) | Entries(entries: seq<TagMap>)

  const SUPPRESS_KEY := "lensix-suppress"
  const SUPPRESS_CHECKS_KEY := "lensix-suppress-checks"

  // ----- normalizing -----

  predicate HasText(t: TagMap, field: string) { field in t && t[field].Some? }

  /** The entry's key: the first of three fields that holds one. */
  function EntryKey(t: TagMap): Option<string> {
    if HasText(t, "Key") then t["Key"]
    else if HasText(t, "key") then t["key"]
    else if HasText(t, "TagKey") then t["TagKey"]
    else None
  }

  /** The entry's value: the first of three fields that is there, even when it is None. */
  function EntryValue(t: TagMap): Option<string> {
    if "Value" in t then t["Value"]
    else if "value" in t then t["value"]
    else if "TagValue" in t then t["TagValue"]
    else None
  }

  /** A dict comprehension: a later entry for the same key replaces an earlier one. */
  function FromEntries(entries: seq<TagMap>): TagMap {
    if entries == [] then map[]
    else
      var last := entries[|entries| - 1];
      var m := FromEntries(entries[..|entries| - 1]);
      match EntryKey(last)
      case None => m
      case Some(key) => m[key := EntryValue(last)]
  }

  /** `_normalize_tags` */
  function Normalize(tags: RawTags): TagMap {
    match tags
    case NoTags => map[]
    case Flat(m) => m
    case Entries(entries) => FromEntries(entries)
  }

  // ----- the two suppression tags -----

  datatype Suppression = Suppression(full: bool, checkIds: seq<string>)

  /** `str(normalized.get(SUPPRESS_TAG_KEY, ''))` */
  function SuppressText(m: TagMap): string {
    if SUPPRESS_KEY !in m then [] else match m[SUPPRESS_KEY] case Some(v) => v case None => "None"
  }

  /** `normalized.get(SUPPRESS_CHECKS_TAG_KEY, '') or ''` */
  function ChecksText(m: TagMap): string {
    if HasText(m, SUPPRESS_CHECKS_KEY) then m[SUPPRESS_CHECKS_KEY].value else []
  }

  function KeepIds(pieces: seq<string>): seq<string> {
    if pieces == [] then []
    else (if Strip(pieces[0]) == [] then [] else [Strip(pieces[0])]) + KeepIds(pieces[1..])
  }

  /** The check ids a tag value lists; only the set of them matters. */
  function CheckIds(text: string): seq<string> { KeepIds(Split(text, '-')) }

  /** `parse_tag_suppression` */
  function ParseSuppression(tags: RawTags): Suppression {
    var m := Normalize(tags);
    Suppression(Lower(Strip(SuppressText(m))) == "true", CheckIds(ChecksText(m)))
  }

  /** `sorted(suppressed_check_ids)` */
  function SortedIds(s: Suppression): seq<string> { SortUnique(s.checkIds) }

  // ----- the shapes agree -----

  datatype Pair = Pair(key: string, value: Option<string>)

  datatype Shape = Ec2Style | LowerStyle | KmsStyle

  /** One tag as an entry of each AWS shape. */
  function AsEntry(shape: Shape, p: Pair): TagMap {
    match shape
    case Ec2Style => map["Key" := Some(p.key), "Value" := p.value]
    case LowerStyle => map["key" := Some(p.key), "value" := p.value]
    case KmsStyle => map["TagKey" := Some(p.key), "TagValue" := p.value]
  }

  function AsEntries(shape: Shape, pairs: seq<Pair>): seq<TagMap> {
    seq(|pairs|, k requires 0 <= k < |pairs| => AsEntry(shape, pairs[k]))
  }

  /** `dict(pairs)` */
  function AsDict(pairs: seq<Pair>): TagMap {
    if pairs == [] then map[]
    else
      var last := pairs[|pairs| - 1];
      AsDict(pairs[..|pairs| - 1])[last.key := last.value]
  }

  lemma EntryReadsBack(shape: Shape, p: Pair)
    ensures EntryKey(AsEntry(shape, p)) == Some(p.key) && EntryValue(AsEntry(shape, p)) == p.value
  {}

  lemma {:induction false} EntriesReadBack(shape: Shape, pairs: seq<Pair>)
    ensures FromEntries(AsEntries(shape, pairs)) == AsDict(pairs)
  {
    if pairs != [] {
      var all, n := AsEntries(shape, pairs), |pairs| - 1;
      EntriesReadBack(shape, pairs[..n]);
      EntryReadsBack(shape, pairs[n]);
      assert all[..n] == AsEntries(shape, pairs[..n]);
      assert all[n] == AsEntry(shape, pairs[n]);
    }
  }

  /** The same tags mean the same in every shape a cloud delivers them in, the last of
      several entries for a key winning in each. */
  lemma ShapesAgree(shape: Shape, pairs: seq<Pair>)
    ensures ParseSuppression(Entries(AsEntries(shape, pairs))) == ParseSuppression(Flat(AsDict(pairs)))
  {
    EntriesReadBack(shape, pairs);
  }

  // ----- what the tags mean -----

  /** The text of a tag, empty when the tag is missing. */
  ghost function TagText(m: TagMap, key: string): string {
    if key !in m then "" else if m[key] == None then "None" else m[key].value
  }

  /** A resource is fully suppressed exactly when its tag reads `true` in any casing, with
      nothing but space around it. */
  lemma FullSuppressionExact(tags: RawTags)
    ensures ParseSuppression(tags).full <==>
      exists word, before, after :: Lower(word) == "true" && PaddedWith(TagText(Normalize(tags), "lensix-suppress"), word, before, after)
  {
    var text := SuppressText(Normalize(tags));
    assert text == TagText(Normalize(tags), "lensix-suppress");
    StripTrims(text);
    if ParseSuppression(tags).full {
      var w := Strip(text);
      assert |w| == |Lower(w)| == 4;
      StripExact(text, w);
      var before, after :| PaddedWith(text, w, before, after);
      assert Lower(w) == "true" && PaddedWith(text, w, before, after);
    }
    forall word, before, after | Lower(word) == "true" && PaddedWith(text, word, before, after)
      ensures Strip(text) == word
    {
      assert |word| == |Lower(word)| == 4;
      assert Lower(word)[0] == 't' && Lower(word)[3] == 'e';
      StripExact(text, word);
    }
  }

  ghost predicate IsCheckId(id: string) { id != [] && Trimmed(id) && '-' !in id }

  lemma {:induction false} KeptIdsAreIds(pieces: seq<string>)
    requires forall k :: 0 <= k < |pieces| ==> '-' !in pieces[k]
    ensures forall k :: 0 <= k < |KeepIds(pieces)| ==> IsCheckId(KeepIds(pieces)[k])
  {
    if pieces != [] {
      KeptIdsAreIds(pieces[1..]);
      StripTrims(pieces[0]);
      assert '-' !in pieces[0];
    }
  }

  /** Every parsed check id is trimmed, non-empty and free of hyphens. */
  lemma ParsedIdsAreIds(tags: RawTags)
    ensures forall id :: id in ParseSuppression(tags).checkIds ==> IsCheckId(id)
    ensures forall id :: id in SortedIds(ParseSuppression(tags)) ==> IsCheckId(id)
  {
    var pieces := Split(ChecksText(Normalize(tags)), '-');
    KeptIdsAreIds(pieces);
    forall id | id in KeepIds(pieces) ensures IsCheckId(id) {
      var k :| 0 <= k < |KeepIds(pieces)| && KeepIds(pieces)[k] == id;
    }
  }

  lemma {:induction false} KeepKeepsIds(ids: seq<string>)
    requires forall k :: 0 <= k < |ids| ==> IsCheckId(ids[k])
    ensures KeepIds(ids) == ids
  {
    if ids != [] {
      assert IsCheckId(ids[0]);
      StripFixesTrimmed(ids[0]);
      KeepKeepsIds(ids[1..]);
      assert ids == [ids[0]] + ids[1..];
    }
  }

  /** Joining check ids with hyphens, as the tag convention asks, and parsing the tag gives
      the same ids back. */
  lemma JoinedIdsParse(ids: seq<string>)
    requires forall k :: 0 <= k < |ids| ==> IsCheckId(ids[k])
    ensures CheckIds(Join(ids, '-')) == ids
  {
    if ids == [] {
      assert Split([], '-') == [[]];
    } else {
      assert forall k :: 0 <= k < |ids| ==> IsCheckId(ids[k]) ==> '-' !in ids[k];
      SplitOfJoin(ids, '-');
      KeepKeepsIds(ids);
    }
  }

  /** Printing a parsed tag and parsing it again changes nothing. */
  lemma ReprintedTagParses(tags: RawTags)
    ensures var ids := SortedIds(ParseSuppression(tags));
      SortUnique(CheckIds(Join(ids, '-'))) == ids
  {
    var s := ParseSuppression(tags);
    var ids := SortedIds(s);
    ParsedIdsAreIds(tags);
    JoinedIdsParse(ids);
    SortUniqueSorts(s.checkIds);
    SortUniqueSorts(ids);
    SortedIsCanonical(SortUnique(ids), ids);
  }

  // ----- the tags by name -----

  /** A resource tagged by name, in whatever shape: what each of the two tags does. */
  lemma TagsByName(m: TagMap, ids: seq<string>)
    requires forall k :: 0 <= k < |ids| ==> IsCheckId(ids[k])
    requires "lensix-suppress-checks" in m && m["lensix-suppress-checks"] == Some(Join(ids, '-'))
    ensures ParseSuppression(Flat(m)).checkIds == ids
    ensures ParseSuppression(Flat(m - {"lensix-suppress-checks"})).checkIds == []
  {
    JoinedIdsParse(ids);
    JoinedIdsParse([]);
  }

  /** The fields an entry's key and value may be under, the first of them that has one. */
  lemma EntryFields(t: TagMap, k: nat)
    requires k < 3
    ensures var keys := ["Key", "key", "TagKey"];
      (forall j :: 0 <= j < 3 ==> (HasText(t, keys[j]) <==> j >= k)) ==> EntryKey(t) == t[keys[k]]
    ensures var values := ["Value", "value", "TagValue"];
      (forall j :: 0 <= j < 3 ==> (values[j] in t <==> j >= k)) ==> EntryValue(t) == t[values[k]]
  {
    var keys, values := ["Key", "key", "TagKey"], ["Value", "value", "TagValue"];
    assert keys[0] == "Key" && keys[1] == "key" && keys[2] == "TagKey";
    assert values[0] == "Value" && values[1] == "value" && values[2] == "TagValue";
  }
}
