/** `aws/sg.py`: scanning text for security-group ids, the fault-isolated union over many
    services, and the rules of each group. */
module SecurityGroups {
  import opened Text
  import opened Json
  import opened Tags
  import opened Writer
  import opened Graph
  import opened Patterns

  // ----- the pattern -----

  const PREFIX := "sg-"

  /** `_SG_PATTERN` */
  function Pattern(): Regex { Literal(PREFIX, false).Then(Repeat(OneOf(HEX_LOWER), 8, Some(17))) }

  lemma HexChars()
    ensures forall c :: HEX_LOWER.Has(c) <==> '0' <= c <= '9' || 'a' <= c <= 'f'
    ensures |PREFIX| == 3 && PREFIX[0] == 's' && PREFIX[1] == 'g' && PREFIX[2] == '-'
  {}

  /** From `p` to `q` stands the prefix and then 8 to 17 hex digits. */
  ghost predicate IdAt(t: string, p: nat, q: nat) {
    p + 11 <= q <= |t| && q <= p + 20 && OccursAt(t, PREFIX, p) && AllIn(HEX_LOWER, t, p + 3, q)
  }

  lemma PatternMeaning(t: string, p: nat, q: nat)
    ensures Matches(Pattern(), t, p, q) <==> IdAt(t, p, q)
  {
    HexChars();
    if Matches(Pattern(), t, p, q) {
      var k := CatParts(Pattern(), t, p, q);
      RunMeaning(HEX_LOWER, 8, Some(17), t, k, q);
    }
    if IdAt(t, p, q) {
      RunMeaning(HEX_LOWER, 8, Some(17), t, p + 3, q);
      CatOf(Pattern(), t, p, p + 3, q);
    }
  }

  /** The match at `p` and no longer one. */
  ghost predicate LongestIdAt(t: string, p: nat, q: nat) {
    IdAt(t, p, q) && (q == |t| || !HEX_LOWER.Has(t[q]) || q == p + 20)
  }

  lemma LongestIsLongest(t: string, p: nat, q: nat)
    ensures LongestIdAt(t, p, q) <==> IdAt(t, p, q) && forall r: nat :: IdAt(t, p, r) ==> r <= q
  {
    if IdAt(t, p, q) && !LongestIdAt(t, p, q) { assert IdAt(t, p, q + 1); }
  }

  lemma MatchIsLongest(t: string, p: nat, q: nat)
    requires p <= |t|
    ensures MatchAt(Pattern(), t, p) == Some(q) <==> LongestIdAt(t, p, q)
  {
    HexChars();
    LiteralRunAt(Pattern(), HEX_LOWER, 8, Some(17), t, p);
    if LongestIdAt(t, p, q) {
      CappedRun(t, p + 3, q, 17);
    }
  }

  lemma {:induction false} CappedRun(t: string, i: nat, q: nat, max: nat)
    requires i <= q <= |t| && q <= i + max && AllIn(HEX_LOWER, t, i, q)
    requires q == |t| || !HEX_LOWER.Has(t[q]) || q == i + max
    ensures RunEnd(HEX_LOWER, Some(max), t, i) == q
    decreases q - i
  {
    if i < q { CappedRun(t, i + 1, q, max - 1); }
  }

  /** No match begins inside another: the prefix holds one `s`, and no hex digit is one. */
  lemma NoOverlap(t: string, p: nat, q: nat, x: nat, y: nat)
    requires IdAt(t, p, q) && p < x < q
    ensures !IdAt(t, x, y)
  {
    HexChars();
    if x < p + 3 {
      assert t[x] == t[p..p + 3][x - p] && t[p..p + 3][x - p] != 's';
    } else {
      assert HEX_LOWER.Has(t[x]) && t[x] != 's';
    }
    if x + 3 <= |t| { assert t[x..x + 3][0] == t[x]; }
  }

  /** `findall` from `i` on reports the longest match at every position that has one, and
      nothing else. */
  lemma {:induction false} FindsEveryId(t: string, i: nat, p: nat, q: nat)
    requires i <= |t|
    ensures Span(p, q) in FindAll(Pattern(), t, i) <==> i <= p && LongestIdAt(t, p, q)
    decreases |t| - i
  {
    hide LongestIdAt;
    hide Pattern;
    hide MatchAt;
    if i == |t| {
      NothingAtEnd(t, p, q);
    } else {
      var here := MatchAt(Pattern(), t, i);
      if here.Some? {
        MatchIsLongest(t, i, here.value);
        LongestIsId(t, i, here.value);
        FindsEveryId(t, here.value, p, q);
        if i < p < here.value { NoOverlap(t, i, here.value, p, q); }
        if LongestIdAt(t, p, q) { LongestIsId(t, p, q); MatchIsLongest(t, p, q); }
      } else {
        FindsEveryId(t, i + 1, p, q);
        if p == i { MatchIsLongest(t, i, q); }
      }
    }
  }

  lemma LongestIsId(t: string, p: nat, q: nat)
    requires LongestIdAt(t, p, q)
    ensures IdAt(t, p, q) && p < q <= |t|
  {}

  lemma NothingAtEnd(t: string, p: nat, q: nat)
    ensures p >= |t| ==> !LongestIdAt(t, p, q)
  {}

  function Pieces(t: string, spans: seq<Span>): seq<string>
    requires forall k :: 0 <= k < |spans| ==> 0 <= spans[k].start <= spans[k].end <= |t|
  {
    seq(|spans|, k requires 0 <= k < |spans| => t[spans[k].start..spans[k].end])
  }

  /** `_SG_PATTERN.findall(text)` */
  function ScanIds(text: string): seq<string> { Pieces(text, FindAll(Pattern(), text, 0)) }

  ghost predicate StandsAt(text: string, p: nat, q: nat, id: string) {
    LongestIdAt(text, p, q) && id == text[p..q]
  }

  lemma LongestIsIdHere(text: string, p: nat, q: nat, id: string)
    requires LongestIdAt(text, p, q) && id == text[p..q]
    ensures StandsAt(text, p, q, id)
  {}

  /** An id is found exactly when it stands somewhere in the text as the longest match there. */
  lemma ScanExact(text: string, id: string)
    ensures id in ScanIds(text) <==> exists p: nat, q: nat :: StandsAt(text, p, q, id)
  {
    hide LongestIdAt;
    hide Pattern;
    hide FindAll;
    var spans := FindAll(Pattern(), text, 0);
    if id in ScanIds(text) {
      var k :| 0 <= k < |spans| && id == text[spans[k].start..spans[k].end];
      FindsEveryId(text, 0, spans[k].start, spans[k].end);
      assert spans[k] == Span(spans[k].start, spans[k].end);
      LongestIsIdHere(text, spans[k].start, spans[k].end, id);
    }
    forall p: nat, q: nat | StandsAt(text, p, q, id) ensures id in ScanIds(text) {
      FindsEveryId(text, 0, p, q);
      var k :| 0 <= k < |spans| && spans[k] == Span(p, q);
      assert ScanIds(text)[k] == id;
    }
  }

  // ----- a list of ids -----

  ghost predicate IsId(id: string) { IdAt(id, 0, |id|) }

  /** Text that can stand between two ids: it does not prolong the first one's digits and holds
      nothing that could begin another. */
  ghost predicate IsGap(gap: string) {
    (gap == [] || !HEX_LOWER.Has(gap[0])) && forall k :: 0 <= k < |gap| - 1 ==> gap[k] != 's' || gap[k + 1] != 'g'
  }

  datatype Entry = Entry(id: string, gap: string)

  function EntriesText(es: seq<Entry>): string {
    if es == [] then [] else es[0].id + es[0].gap + EntriesText(es[1..])
  }

  function Ids(es: seq<Entry>): seq<string> { seq(|es|, k requires 0 <= k < |es| => es[k].id) }

  ghost predicate ProperEntries(es: seq<Entry>) { forall k :: 0 <= k < |es| ==> IsId(es[k].id) && IsGap(es[k].gap) }

  lemma EntriesStart(es: seq<Entry>)
    requires ProperEntries(es)
    ensures EntriesText(es) == [] || (EntriesText(es)[0] == 's' && !HEX_LOWER.Has('s'))
  {
    HexChars();
    if es != [] { assert es[0].id[0..3][0] == 's'; }
  }

  /** In the gap there is nothing to find. */
  lemma {:induction false} SkipGap(t: string, i: nat, n: nat)
    requires i + n <= |t|
    requires forall k :: i <= k < i + n && k + 1 < |t| ==> t[k] != 's' || t[k + 1] != 'g'
    ensures FindAll(Pattern(), t, i) == FindAll(Pattern(), t, i + n)
    decreases n
  {
    hide Pattern;
    hide MatchAt;
    if n > 0 {
      NoIdHere(t, i);
      SkipGap(t, i + 1, n - 1);
    }
  }

  lemma NoIdHere(t: string, i: nat)
    requires i < |t| && (i + 1 < |t| ==> t[i] != 's' || t[i + 1] != 'g')
    ensures MatchAt(Pattern(), t, i) == None
  {
    HexChars();
    LiteralRunAt(Pattern(), HEX_LOWER, 8, Some(17), t, i);
    if i + 3 <= |t| { assert t[i..i + 3][0] == t[i] && t[i..i + 3][1] == t[i + 1]; }
  }

  /** One entry of the list, wherever it stands. */
  lemma IdHere(before: string, id: string, after: string)
    requires IsId(id) && (after == [] || !HEX_LOWER.Has(after[0]))
    ensures LongestIdAt(before + id + after, |before|, |before| + |id|)
  {
    var t := before + id + after;
    assert t[|before|..|before| + 3] == id[0..3];
    forall k | |before| + 3 <= k < |before| + |id| ensures HEX_LOWER.Has(t[k]) { assert t[k] == id[k - |before|]; }
  }

  lemma GapSkipped(t: string, i: nat, gap: string, rest: string)
    requires IsGap(gap) && i + |gap| <= |t| && t[i..] == gap + rest && (rest == [] || rest[0] == 's')
    ensures FindAll(Pattern(), t, i) == FindAll(Pattern(), t, i + |gap|)
  {
    hide FindAll;
    forall k | i <= k < i + |gap| && k + 1 < |t| ensures t[k] != 's' || t[k + 1] != 'g' {
      assert t[k] == t[i..][k - i] && t[k + 1] == t[i..][k + 1 - i];
    }
    SkipGap(t, i, |gap|);
  }

  lemma IdsAhead(es: seq<Entry>)
    requires es != []
    ensures Ids(es) == [es[0].id] + Ids(es[1..])
  {}

  lemma NoIds()
    ensures Ids([]) == []
  {}

  lemma FoundNothing(t: string)
    ensures Pieces(t, FindAll(Pattern(), t, |t|)) == []
  {}

  /** A match at `i` is the first one found, and the search goes on behind it; what is found from
      `next` on is the same if nothing lies between. */
  lemma FoundFirst(t: string, i: nat, id: string, next: nat)
    requires i + |id| <= next <= |t| && |id| > 0 && t[i..i + |id|] == id
    requires MatchAt(Pattern(), t, i) == Some(i + |id|)
    requires FindAll(Pattern(), t, i + |id|) == FindAll(Pattern(), t, next)
    ensures Pieces(t, FindAll(Pattern(), t, i)) == [id] + Pieces(t, FindAll(Pattern(), t, next))
  {
    hide Pattern;
    hide MatchAt;
    var spans := FindAll(Pattern(), t, next);
    assert FindAll(Pattern(), t, i) == [Span(i, i + |id|)] + spans;
  }

  lemma {:induction false} EntriesFound(before: string, es: seq<Entry>)
    requires ProperEntries(es)
    ensures Pieces(before + EntriesText(es), FindAll(Pattern(), before + EntriesText(es), |before|)) == Ids(es)
    decreases es
  {
    hide IsId;
    hide IsGap;
    hide MatchAt;
    hide Pattern;
    hide LongestIdAt;
    hide Pieces;
    hide Ids;
    hide FindAll;
    var t := before + EntriesText(es);
    if es != [] {
      var id, gap, rest := es[0].id, es[0].gap, EntriesText(es[1..]);
      var next := before + id + gap;
      assert t == next + rest && t == before + id + (gap + rest);
      assert ProperEntries(es[1..]);
      EntriesStart(es[1..]);
      GapEnds(gap, rest);
      IdHere(before, id, gap + rest);
      MatchIsLongest(t, |before|, |before| + |id|);
      assert |id| > 0 by { IdLength(id); }
      assert t[|before + id|..] == gap + rest;
      GapSkipped(t, |before| + |id|, gap, rest);
      EntriesFound(next, es[1..]);
      assert t[|before|..|before| + |id|] == id;
      FoundFirst(t, |before|, id, |next|);
      IdsAhead(es);
    } else {
      FoundNothing(t);
      NoIds();
      assert t == before;
    }
  }

  lemma IdLength(id: string)
    requires IsId(id)
    ensures |id| >= 11
  {}

  lemma GapEnds(gap: string, rest: string)
    requires IsGap(gap) && (rest == [] || (rest[0] == 's' && !HEX_LOWER.Has('s')))
    ensures gap + rest == [] || !HEX_LOWER.Has((gap + rest)[0])
  {}

  /** Scanning a list of ids, with any such text before and between them, returns those ids in
      order. */
  lemma ListScans(lead: string, es: seq<Entry>)
    requires ProperEntries(es) && IsGap(lead)
    ensures ScanIds(lead + EntriesText(es)) == Ids(es)
  {
    hide IsGap;
    hide IsId;
    hide FindAll;
    hide Pattern;
    var t := lead + EntriesText(es);
    assert t[0..] == t;
    EntriesStart(es);
    GapSkipped(t, 0, lead, EntriesText(es));
    EntriesFound(lead, es);
  }

  /** In particular for ids joined by one character that is no hex digit. */
  lemma JoinedIdsScan(ids: seq<string>, c: char)
    requires !HEX_LOWER.Has(c) && forall k :: 0 <= k < |ids| ==> IsId(ids[k])
    ensures ScanIds(Join(ids, c)) == ids
  {
    hide Pattern;
    if ids == [] {
      FoundNothing([]);
    } else {
      var es := Separated(ids, c);
      JoinIsEntries(ids, c);
      ListScans([], es);
      assert [] + EntriesText(es) == EntriesText(es);
      assert Ids(es) == ids;
    }
  }

  function Separated(ids: seq<string>, c: char): seq<Entry> {
    seq(|ids|, k requires 0 <= k < |ids| => Entry(ids[k], if k + 1 < |ids| then [c] else []))
  }

  lemma {:induction false} JoinIsEntries(ids: seq<string>, c: char)
    requires ids != []
    ensures EntriesText(Separated(ids, c)) == Join(ids, c)
  {
    if |ids| > 1 {
      JoinIsEntries(ids[1..], c);
      assert Separated(ids, c)[1..] == Separated(ids[1..], c);
    } else {
      assert Separated(ids, c)[1..] == [];
      assert ids[0] + [] + [] == ids[0];
    }
  }

  // ----- the union over services -----

  /** What one listed thing refers to: ids as they are, ids that may be empty, or text. */
  datatype Item = Listed(ids: seq<string>) | Optional(ids: seq<string>) | Scanned(texts: seq<string>)

  function NonEmpty(ids: seq<string>): seq<string> {
    if ids == [] then [] else (if ids[0] == "" then [] else [ids[0]]) + NonEmpty(ids[1..])
  }

  function ScanAll(texts: seq<string>): seq<string> {
    if texts == [] then [] else ScanIds(texts[0]) + ScanAll(texts[1..])
  }

  function RefsOf(i: Item): seq<string> {
    match i
    case Listed(ids) => ids
    case Optional(ids) => NonEmpty(ids)
    case Scanned(texts) => ScanAll(texts)
  }

  /** One of the services: whether each thing has its own `try`, and the error source of the one
      service that reports its failure. */
  datatype Service = Service(items: seq<Item>, isolated: bool, source: Option<string>)

  /** How a service misbehaves: its listing raises before it yields item `stop`; handling item
      `k` raises after `cuts(k)` of its references. */
  datatype Fault = Fault(stop: Option<nat>, cuts: nat -> Option<nat>, message: string)

  function FirstRefs(i: Item, cut: Option<nat>): seq<string> {
    if cut.Some? && cut.value < |RefsOf(i)| then RefsOf(i)[..cut.value] else RefsOf(i)
  }

  ghost function AsSet(ids: seq<string>): set<string> { set id | id in ids }

  datatype Visit = Visit(refs: set<string>, failed: bool)

  /** What the block of a service sees from its kth item on, and whether it ends in the outer
      `except`. */
  ghost function Visited(s: Service, f: Fault, k: nat): Visit
    decreases |s.items| - k
  {
    if f.stop == Some(k) then Visit({}, true)
    else if k >= |s.items| then Visit({}, false)
    else
      var here := AsSet(FirstRefs(s.items[k], f.cuts(k)));
      if f.cuts(k).Some? && !s.isolated then Visit(here, true)
      else
        var rest := Visited(s, f, k + 1);
        Visit(here + rest.refs, rest.failed)
  }

  function ReportCalls(region: string, s: Service, f: Fault, failed: bool): seq<Call> {
    if failed && s.source.Some? then [Call.AddError(ErrorNote(region, s.source.value, f.message))] else []
  }

  /** One `try` block of `get_attached_sg_ids`. */
  method ScanService(used: set<string>, s: Service, f: Fault) returns (more: set<string>, failed: bool)
    ensures more == used + Visited(s, f, 0).refs && failed == Visited(s, f, 0).failed
  {
    hide RefsOf;
    more, failed := used, false;
    var k := 0;
    while k < |s.items| && f.stop != Some(k) && !failed
      invariant k <= |s.items|
      invariant !failed ==> used + Visited(s, f, 0).refs == more + Visited(s, f, k).refs
      invariant !failed ==> Visited(s, f, 0).failed == Visited(s, f, k).failed
      invariant failed ==> more == used + Visited(s, f, 0).refs && Visited(s, f, 0).failed
      decreases |s.items| - k
    {
      ghost var before := more;
      var refs := FirstRefs(s.items[k], f.cuts(k));
      for j := 0 to |refs|
        invariant more == before + AsSet(refs[..j])
      {
        more := more + {refs[j]};
        assert refs[..j + 1] == refs[..j] + [refs[j]];
      }
      assert refs[..|refs|] == refs;
      if f.cuts(k).Some? && !s.isolated {
        failed := true;
      }
      k := k + 1;
    }
    if !failed && f.stop == Some(k) {
      failed := true;
    }
  }

  ghost function Used(services: seq<Service>, faults: seq<Fault>): set<string>
    requires |services| == |faults|
  {
    if services == [] then {}
    else
      var n := |services| - 1;
      Used(services[..n], faults[..n]) + Visited(services[n], faults[n], 0).refs
  }

  ghost function Reports(region: string, services: seq<Service>, faults: seq<Fault>): seq<Call>
    requires |services| == |faults|
  {
    if services == [] then []
    else
      var n := |services| - 1;
      Reports(region, services[..n], faults[..n])
      + ReportCalls(region, services[n], faults[n], Visited(services[n], faults[n], 0).failed)
  }

  /** `get_attached_sg_ids` */
  method GetAttached(writer: InventoryWriter, region: string, services: seq<Service>, faults: seq<Fault>)
    returns (used: set<string>)
    requires writer.Valid() && |services| == |faults|
    modifies writer
    ensures writer.Valid() && used == Used(services, faults)
    ensures writer.history == old(writer.history) + Reports(region, services, faults)
  {
    hide Run;
    hide Visited;
    used := {};
    for i := 0 to |services|
      invariant writer.Valid() && used == Used(services[..i], faults[..i])
      invariant writer.history == old(writer.history) + Reports(region, services[..i], faults[..i])
    {
      var more, failed := ScanService(used, services[i], faults[i]);
      used := more;
      if failed && services[i].source.Some? {
        writer.AddError(ErrorNote(region, services[i].source.value, faults[i].message));
      }
      assert services[..i + 1][..i] == services[..i] && faults[..i + 1][..i] == faults[..i];
    }
    assert services[..|services|] == services && faults[..|faults|] == faults;
  }

  /** The id stands in the text as a longest match. */
  ghost predicate StandsIn(text: string, id: string) {
    exists p: nat, q: nat :: StandsAt(text, p, q, id)
  }

  /** What a thing refers to: the ids it lists, those of them that are not empty, or the ids that
      stand in its texts. */
  ghost predicate ItemRefersTo(i: Item, id: string) {
    match i
    case Listed(ids) => id in ids
    case Optional(ids) => id in ids && id != ""
    case Scanned(texts) => exists text :: text in texts && StandsIn(text, id)
  }

  lemma {:induction false} NonEmptyExact(ids: seq<string>, id: string)
    ensures id in NonEmpty(ids) <==> id in ids && id != ""
  {
    if ids != [] {
      NonEmptyExact(ids[1..], id);
      assert ids == [ids[0]] + ids[1..];
    }
  }

  lemma ScannedStands(text: string, id: string)
    ensures id in ScanIds(text) <==> StandsIn(text, id)
  {
    hide ScanIds, StandsAt;
    ScanExact(text, id);
  }

  lemma {:induction false} ScanAllExact(texts: seq<string>, id: string)
    ensures id in ScanAll(texts) <==> exists text :: text in texts && StandsIn(text, id)
  {
    hide ScanIds, StandsIn;
    if texts != [] {
      ScanAllExact(texts[1..], id);
      ScannedStands(texts[0], id);
      assert id in ScanAll(texts) <==> id in ScanIds(texts[0]) || id in ScanAll(texts[1..]);
      assert texts == [texts[0]] + texts[1..];
    }
  }

  lemma RefsExact(i: Item, id: string)
    ensures id in RefsOf(i) <==> ItemRefersTo(i, id)
  {
    hide StandsIn;
    match i
    case Listed(_) =>
    case Optional(ids) => NonEmptyExact(ids, id);
    case Scanned(texts) => ScanAllExact(texts, id);
  }

  ghost predicate RefersTo(s: Service, id: string) { exists k :: 0 <= k < |s.items| && ItemRefersTo(s.items[k], id) }

  ghost predicate Faultless(f: Fault) { f.stop == None && forall k :: f.cuts(k) == None }

  lemma {:induction false} VisitedBounds(s: Service, f: Fault, k: nat, id: string)
    ensures id in Visited(s, f, k).refs ==> exists j :: k <= j < |s.items| && ItemRefersTo(s.items[j], id)
    ensures f.stop == None && (s.isolated || Faultless(f)) ==>
      forall j :: k <= j < |s.items| && f.cuts(j) == None && ItemRefersTo(s.items[j], id) ==> id in Visited(s, f, k).refs
    decreases |s.items| - k
  {
    hide RefsOf, ItemRefersTo;
    if k < |s.items| {
      RefsExact(s.items[k], id);
      VisitedBounds(s, f, k + 1, id);
    }
  }

  /** The kth thing of an isolating service, which raises neither there nor in its listing. */
  ghost predicate SurelySeen(s: Service, f: Fault, k: nat, id: string) {
    k < |s.items| && s.isolated && f.stop == None && f.cuts(k) == None && ItemRefersTo(s.items[k], id)
  }

  /** Whatever fails and however far it gets, the result holds everything the services without a
      fault refer to, and everything but the failing things of a service that isolates them; and
      nothing that no service refers to. */
  lemma {:induction false} UnionUnderFaults(services: seq<Service>, faults: seq<Fault>, id: string)
    requires |services| == |faults|
    ensures id in Used(services, faults) ==> exists i :: 0 <= i < |services| && RefersTo(services[i], id)
    ensures forall i :: 0 <= i < |services| && Faultless(faults[i]) && RefersTo(services[i], id) ==> id in Used(services, faults)
    ensures forall i, k :: 0 <= i < |services| && SurelySeen(services[i], faults[i], k, id) ==> id in Used(services, faults)
  {
    hide ItemRefersTo;
    hide Visited;
    if services != [] {
      var n := |services| - 1;
      var last := services[n];
      UnionUnderFaults(services[..n], faults[..n], id);
      VisitedBounds(last, faults[n], 0, id);
      if id in Used(services, faults) {
        if id in Used(services[..n], faults[..n]) {
          var i :| 0 <= i < n && RefersTo(services[..n][i], id);
          assert RefersTo(services[i], id);
        } else {
          assert RefersTo(last, id);
        }
      }
      forall i | 0 <= i < |services| && Faultless(faults[i]) && RefersTo(services[i], id)
        ensures id in Used(services, faults)
      {
        if i < n { assert services[..n][i] == services[i] && faults[..n][i] == faults[i]; }
      }
      forall i, k | 0 <= i < |services| && SurelySeen(services[i], faults[i], k, id)
        ensures id in Used(services, faults)
      {
        if i < n { assert services[..n][i] == services[i] && faults[..n][i] == faults[i]; }
      }
    }
  }

  // ----- the rules of each group -----

  /** A rule; its `GroupId` may be missing. */
  datatype Rule = Rule(group: Option<string>, raw: Json)

  const KEY_ERROR := "'GroupId'"

  /** The rules before the first without a group: where that one raises, the loop ends. */
  function Indexed(rules: seq<Rule>): seq<Rule> {
    if rules == [] || rules[0].group == None then [] else [rules[0]] + Indexed(rules[1..])
  }

  /** One group's rules, in listing order. */
  function RulesOf(rules: seq<Rule>, group: string): seq<Json> {
    if rules == [] then []
    else
      RulesOf(rules[..|rules| - 1], group)
      + if rules[|rules| - 1].group == Some(group) then [rules[|rules| - 1].raw] else []
  }

  function RulesIn(index: map<string, seq<Json>>, group: string): seq<Json> { if group in index then index[group] else [] }

  lemma {:induction false} IndexedShape(rules: seq<Rule>, n: nat)
    requires n <= |rules| && forall k :: 0 <= k < n ==> rules[k].group.Some?
    requires n == |rules| || rules[n].group == None
    ensures Indexed(rules) == rules[..n]
  {
    if n > 0 {
      IndexedShape(rules[1..], n - 1);
      assert rules[..n] == [rules[0]] + rules[1..][..n - 1];
    }
  }

  /** `rules_by_group.setdefault(rule['GroupId'], []).append(rule)` */
  method IndexRules(rules: seq<Rule>) returns (index: map<string, seq<Json>>, raised: bool)
    ensures forall g :: RulesIn(index, g) == RulesOf(Indexed(rules), g)
    ensures raised <==> exists k :: 0 <= k < |rules| && rules[k].group == None
  {
    hide Indexed;
    hide RulesOf;
    index, raised := map[], false;
    NoRules();
    assert rules[..0] == [];
    var i := 0;
    while i < |rules| && !raised
      invariant i <= |rules| && forall k :: 0 <= k < i ==> rules[k].group.Some?
      invariant forall g :: RulesIn(index, g) == RulesOf(rules[..i], g)
      invariant raised ==> i < |rules| && rules[i].group == None
      decreases |rules| - i, !raised
    {
      if rules[i].group == None {
        raised := true;
      } else {
        var group := rules[i].group.value;
        ghost var was := index;
        index := index[group := RulesIn(index, group) + [rules[i].raw]];
        forall g ensures RulesIn(index, g) == RulesOf(rules[..i + 1], g) {
          NextRule(rules, i, g);
          assert RulesIn(was, g) == RulesOf(rules[..i], g);
        }
        i := i + 1;
      }
    }
    IndexedShape(rules, i);
  }

  lemma NoRules()
    ensures forall g :: RulesOf([], g) == []
  {}

  lemma NextRule(rules: seq<Rule>, i: nat, g: string)
    requires i < |rules|
    ensures RulesOf(rules[..i + 1], g) == RulesOf(rules[..i], g) + if rules[i].group == Some(g) then [rules[i].raw] else []
  {
    assert rules[..i + 1][..i] == rules[..i];
  }

  // ----- gather -----

  datatype GroupInfo = GroupInfo(id: string, name: Option<string>, vpc: Option<string>, tags: RawTags, fields: seq<Field>)

  const RULES_KEY := "_Rules"

  function GroupResource(region: string, g: GroupInfo, rules: seq<Rule>): Resource {
    Resource("security_group", Some(region), Some(g.id), if g.name.Some? then g.name else Some(g.id),
      Obj(Put(g.fields, RULES_KEY, Arr(RulesOf(rules, g.id)))), g.vpc, None)
  }

  function InVpc(g: GroupInfo): Edge { Edge("security_group", Some(g.id), "vpc", g.vpc, "in_vpc") }

  function GroupCalls(region: string, g: GroupInfo, rules: seq<Rule>): seq<Call> {
    [Call.AddResource(GroupResource(region, g, rules), g.tags)]
    + if !ParseSuppression(g.tags).full && IsTruthy(g.vpc) then [Call.AddEdge(InVpc(g))] else []
  }

  function AllGroupCalls(region: string, gs: seq<GroupInfo>, rules: seq<Rule>): seq<Call> {
    if gs == [] then [] else AllGroupCalls(region, gs[..|gs| - 1], rules) + GroupCalls(region, gs[|gs| - 1], rules)
  }

  /** The rules the groups are shown: those indexed before anything failed. */
  function KnownRules(rules: Fetch<seq<Rule>>): seq<Rule> { Indexed(OrNone(rules)) }

  const RULES_SOURCE := "sg (rules)"

  function RulesError(region: string, rules: Fetch<seq<Rule>>): seq<Call> {
    if rules.Err? then [Call.AddError(ErrorNote(region, RULES_SOURCE, rules.error))]
    else if |Indexed(rules.value)| < |rules.value| then [Call.AddError(ErrorNote(region, RULES_SOURCE, KEY_ERROR))]
    else []
  }

  const USAGE_KEY := "AttachedSecurityGroupIds"

  /** The synthetic record, given the ids in sorted order. */
  function UsageResource(region: string, ids: seq<string>): Resource {
    Resource("security_group_usage", Some(region), Some("attached_ids"), Some("attached_ids"),
      Obj([Field(USAGE_KEY, Arr(Strings(ids)))]), None, None)
  }

  method WriteGroups(writer: InventoryWriter, region: string, gs: seq<GroupInfo>, index: map<string, seq<Json>>,
      ghost rules: seq<Rule>)
    requires writer.Valid() && forall g :: RulesIn(index, g) == RulesOf(rules, g)
    modifies writer
    ensures writer.Valid() && writer.history == old(writer.history) + AllGroupCalls(region, gs, rules)
  {
    hide Run;
    hide Apply;
    hide ParseSuppression;
    hide Stamp;
    hide Put;
    hide RulesOf;
    hide RulesIn;
    for i := 0 to |gs|
      invariant writer.Valid() && writer.history == old(writer.history) + AllGroupCalls(region, gs[..i], rules)
    {
      var g := gs[i];
      var raw := Put(g.fields, RULES_KEY, Arr(RulesIn(index, g.id)));
      var name := if g.name.Some? then g.name else Some(g.id);
      var r := Resource("security_group", Some(region), Some(g.id), name, Obj(raw), g.vpc, None);
      assert r == GroupResource(region, g, rules);
      var recorded := writer.AddResource(r, g.tags);
      if recorded && g.vpc.Some? && g.vpc.value != [] {
        writer.AddEdge(InVpc(g));
      }
      assert gs[..i + 1][..i] == gs[..i];
    }
    assert gs[..|gs|] == gs;
  }

  lemma IndexedWhole(rules: seq<Rule>)
    ensures |Indexed(rules)| < |rules| <==> exists k :: 0 <= k < |rules| && rules[k].group == None
  {
    var n := 0;
    while n < |rules| && rules[n].group.Some?
      invariant n <= |rules| && forall k :: 0 <= k < n ==> rules[k].group.Some?
    {
      n := n + 1;
    }
    IndexedShape(rules, n);
  }

  method FetchRules(writer: InventoryWriter, region: string, rules: Fetch<seq<Rule>>) returns (index: map<string, seq<Json>>)
    requires writer.Valid()
    modifies writer
    ensures writer.Valid() && writer.history == old(writer.history) + RulesError(region, rules)
    ensures forall g :: RulesIn(index, g) == RulesOf(KnownRules(rules), g)
  {
    hide Run;
    index := map[];
    if rules.Err? {
      writer.AddError(ErrorNote(region, RULES_SOURCE, rules.error));
    } else {
      var raised;
      index, raised := IndexRules(rules.value);
      IndexedWhole(rules.value);
      if raised {
        writer.AddError(ErrorNote(region, RULES_SOURCE, KEY_ERROR));
      }
    }
  }

  /** `sg.gather`: each group with its own rules, then one record with the sorted union of what
      the services refer to. A failure to list the groups ends the module. */
  method Gather(writer: InventoryWriter, region: string, rules: Fetch<seq<Rule>>, groups: Fetch<seq<GroupInfo>>,
      services: seq<Service>, faults: seq<Fault>)
    returns (failure: Option<string>, ghost ids: seq<string>)
    requires writer.Valid() && |services| == |faults|
    modifies writer
    ensures writer.Valid() && failure == if groups.Err? then Some(groups.error) else None
    ensures failure == None ==> SortedSet(ids, Used(services, faults))
    ensures writer.history == old(writer.history) + RulesError(region, rules)
      + (if failure.Some? then []
         else AllGroupCalls(region, groups.value, KnownRules(rules))
              + Reports(region, services, faults)
              + [Call.AddResource(UsageResource(region, ids), NoTags)])
  {
    hide Run;
    hide Apply;
    hide ParseSuppression;
    hide Stamp;
    hide AllGroupCalls;
    hide RulesError;
    hide RulesOf;
    hide Reports;
    hide Used;
    hide Strings;
    ids := [];
    var index := FetchRules(writer, region, rules);
    if groups.Err? {
      return Some(groups.error), [];
    }
    WriteGroups(writer, region, groups.value, index, KnownRules(rules));
    var attached := GetAttached(writer, region, services, faults);
    var sorted := Sorted(attached);
    ids := sorted;
    var _ := writer.AddResource(UsageResource(region, sorted), NoTags);
    failure := None;
  }

  // ----- everything the module leaves -----

  /** Where something goes wrong: in the listing, or in handling a thing that is not isolated. */
  ghost predicate Trouble(s: Service, f: Fault, k: int) {
    0 <= k <= |s.items| && (f.stop == Some(k) || (k < |s.items| && !s.isolated && f.cuts(k).Some?))
  }

  lemma {:induction false} FailureExact(s: Service, f: Fault, k: nat)
    requires k <= |s.items|
    ensures Visited(s, f, k).failed <==> exists j :: k <= j && Trouble(s, f, j)
    decreases |s.items| - k
  {
    hide RefsOf;
    if k < |s.items| && !Trouble(s, f, k) {
      FailureExact(s, f, k + 1);
    } else {
      assert Trouble(s, f, k) || k == |s.items|;
    }
  }

  /** The errors of the services that report theirs, in order. */
  ghost function ServiceErrors(region: string, services: seq<Service>, faults: seq<Fault>): seq<ErrorNote>
    requires |services| == |faults|
  {
    if services == [] then []
    else
      var n := |services| - 1;
      var s, f := services[n], faults[n];
      ServiceErrors(region, services[..n], faults[..n])
      + if s.source.Some? && exists k :: Trouble(s, f, k) then [ErrorNote(region, s.source.value, f.message)] else []
  }

  lemma {:induction false} ReportsTrail(region: string, services: seq<Service>, faults: seq<Fault>)
    requires |services| == |faults|
    ensures TrailOf(Reports(region, services, faults)) == Trail([], [], ServiceErrors(region, services, faults))
  {
    hide TrailOf, Visited, Trouble;
    TrailOfNothing();
    if services != [] {
      var n := |services| - 1;
      var s, f := services[n], faults[n];
      ReportsTrail(region, services[..n], faults[..n]);
      FailureExact(s, f, 0);
      TroublePlace(s, f);
      if s.source.Some? { TrailOfOne(Call.AddError(ErrorNote(region, s.source.value, f.message))); }
      TrailAppend(Reports(region, services[..n], faults[..n]), ReportCalls(region, s, f, Visited(s, f, 0).failed));
    }
  }

  lemma TroublePlace(s: Service, f: Fault)
    ensures forall k :: Trouble(s, f, k) ==> 0 <= k
  {}

  ghost function GroupRecord(region: string, g: GroupInfo, rules: seq<Rule>): Resource {
    Resource("security_group", Some(region), Some(g.id), if g.name == None then Some(g.id) else g.name,
      Obj(Put(g.fields, "_Rules", Arr(RulesOf(rules, g.id)))), g.vpc, None)
  }

  /** What the groups leave: each its record with its own rules, and its edge to its VPC. */
  ghost function GroupsTrail(region: string, gs: seq<GroupInfo>, rules: seq<Rule>): Trail {
    if gs == [] then NO_TRAIL
    else
      var g := gs[|gs| - 1];
      GroupsTrail(region, gs[..|gs| - 1], rules).Plus(Trail(
        Kept(GroupRecord(region, g, rules), g.tags),
        if Recorded(g.tags) && IsTruthy(g.vpc) then [Edge("security_group", Some(g.id), "vpc", g.vpc, "in_vpc")] else [], []))
  }

  lemma GroupTrail(region: string, g: GroupInfo, rules: seq<Rule>)
    ensures TrailOf(GroupCalls(region, g, rules)) == Trail(Kept(GroupRecord(region, g, rules), g.tags),
      if Recorded(g.tags) && IsTruthy(g.vpc) then [Edge("security_group", Some(g.id), "vpc", g.vpc, "in_vpc")] else [], [])
  {
    hide TrailOf, Kept, Put, RulesOf, ParseSuppression;
    var first := [Call.AddResource(GroupResource(region, g, rules), g.tags)];
    TrailOfResource(GroupResource(region, g, rules), g.tags);
    TrailOfEdge(InVpc(g));
    TrailAppend(first, [Call.AddEdge(InVpc(g))]);
    assert first + [] == first;
  }

  lemma {:induction false} AllGroupsTrail(region: string, gs: seq<GroupInfo>, rules: seq<Rule>)
    ensures TrailOf(AllGroupCalls(region, gs, rules)) == GroupsTrail(region, gs, rules)
  {
    hide TrailOf, GroupCalls, Kept, Recorded, GroupRecord;
    TrailOfNothing();
    if gs != [] {
      var n := |gs| - 1;
      AllGroupsTrail(region, gs[..n], rules);
      GroupTrail(region, gs[n], rules);
      TrailAppend(AllGroupCalls(region, gs[..n], rules), GroupCalls(region, gs[n], rules));
    }
  }

  /** A failed listing of the rules, or else a rule without a group. */
  ghost function RulesErrors(region: string, rules: Fetch<seq<Rule>>): seq<ErrorNote> {
    if rules.Err? then [ErrorNote(region, "sg (rules)", rules.error)]
    else if exists k :: 0 <= k < |rules.value| && rules.value[k].group == None then [ErrorNote(region, "sg (rules)", "'GroupId'")]
    else []
  }

  lemma RulesErrorTrail(region: string, rules: Fetch<seq<Rule>>)
    ensures TrailOf(RulesError(region, rules)) == Trail([], [], RulesErrors(region, rules))
  {
    hide TrailOf, Indexed;
    TrailOfNothing();
    if rules.Err? {
      TrailOfOne(Call.AddError(ErrorNote(region, RULES_SOURCE, rules.error)));
    } else {
      IndexedWhole(rules.value);
      TrailOfOne(Call.AddError(ErrorNote(region, RULES_SOURCE, KEY_ERROR)));
    }
  }

  ghost function UsageRecord(region: string, ids: seq<string>): Resource {
    Resource("security_group_usage", Some(region), Some("attached_ids"), Some("attached_ids"),
      Obj([Field("AttachedSecurityGroupIds", Arr(Strings(ids)))]), None, None)
  }

  lemma UsageTrail(region: string, ids: seq<string>)
    ensures TrailOf([Call.AddResource(UsageResource(region, ids), NoTags)]) == Trail([UsageRecord(region, ids)], [], [])
  {
    hide TrailOf;
    TrailOfUntagged(UsageResource(region, ids));
  }

  /** Everything `sg.gather` leaves once the groups are listed: the error of the rules, the groups,
      the errors of the services, and the usage record. */
  lemma GatherExact(region: string, rules: Fetch<seq<Rule>>, gs: seq<GroupInfo>, services: seq<Service>, faults: seq<Fault>,
      ids: seq<string>)
    requires |services| == |faults|
    ensures TrailOf(RulesError(region, rules)
        + (AllGroupCalls(region, gs, KnownRules(rules)) + Reports(region, services, faults)
           + [Call.AddResource(UsageResource(region, ids), NoTags)]))
      == Trail([], [], RulesErrors(region, rules)).Plus(GroupsTrail(region, gs, KnownRules(rules)))
         .Plus(Trail([UsageRecord(region, ids)], [], ServiceErrors(region, services, faults)))
  {
    hide TrailOf, AllGroupCalls, Reports, GroupsTrail, ServiceErrors, RulesError, RulesErrors, UsageResource, UsageRecord;
    hide KnownRules;
    var groups, reports := AllGroupCalls(region, gs, KnownRules(rules)), Reports(region, services, faults);
    var usage := [Call.AddResource(UsageResource(region, ids), NoTags)];
    RulesErrorTrail(region, rules);
    AllGroupsTrail(region, gs, KnownRules(rules));
    ReportsTrail(region, services, faults);
    UsageTrail(region, ids);
    TrailAppend(groups, reports);
    TrailAppend(groups + reports, usage);
    TrailAppend(RulesError(region, rules), groups + reports + usage);
  }
}
