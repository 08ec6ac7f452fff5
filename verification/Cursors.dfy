/** Paging loops against a server that answers in pages: the exclusive last-key cursor of
    `kinesis.py`, and the inclusive (name, type, optional identifier) cursor of
    `dnsinventory.py`. */
module Cursors {
  import opened Text

  // ----- exclusive cursor: everything after the last key seen -----

  datatype Page<+T> = Page(items: seq<T>, more: bool)

  /** One list call. The second argument is the number of the call, so that the server may cut
      its pages differently each time it is asked. */
  type Lister<!T> = (Option<string>, nat) -> Result<Page<T>, string>

  /** What comes after an exclusive cursor. */
  function After<T>(items: seq<T>, key: T -> string, cursor: Option<string>): (rest: seq<T>) {
    if items == [] then []
    else if cursor.None? || Less(cursor.value, key(items[0])) then [items[0]] + After(items[1..], key, cursor)
    else After(items[1..], key, cursor)
  }

  ghost predicate InKeyOrder<T>(items: seq<T>, key: T -> string) {
    forall j, k :: 0 <= j < k < |items| ==> Less(key(items[j]), key(items[k]))
  }

  /** A page holds the next items after the cursor, says whether that was all of them, and holds
      at least one when it was not. */
  ghost predicate HonestPage<T>(items: seq<T>, key: T -> string, cursor: Option<string>, p: Page<T>) {
    var rest := After(items, key, cursor);
    && |p.items| <= |rest| && p.items == rest[..|p.items|]
    && (p.more <==> |p.items| < |rest|)
    && (p.more ==> p.items != [])
  }

  ghost predicate Serves<T>(server: Lister<T>, items: seq<T>, key: T -> string) {
    forall cursor, turn :: server(cursor, turn).Ok? ==> HonestPage(items, key, cursor, server(cursor, turn).value)
  }

  lemma NoteRefusal<T(!new)>(server: Lister<T>, all: seq<T>, key: T -> string, n: nat, turn: nat, error: string)
    requires n <= |all| && (n == 0 || n < |all|) && server(CursorAfter(all[..n], key), turn) == Err(error)
    ensures Refused(server, all, key, error)
  {
    assert RefusedAfter(server, all, key, n, turn, error);
  }

  lemma LessIsStrict(s: string, t: string)
    ensures !(Less(s, t) && Leq(t, s))
  {
    if Less(s, t) && Leq(t, s) { LeqAntisymmetric(s, t); }
  }

  lemma {:induction false} AfterEverything<T>(items: seq<T>, key: T -> string)
    ensures After(items, key, None) == items
  {
    if items != [] { AfterEverything(items[1..], key); }
  }

  lemma {:induction false} AllLater<T>(items: seq<T>, key: T -> string, cursor: string)
    requires forall k :: 0 <= k < |items| ==> Less(cursor, key(items[k]))
    ensures After(items, key, Some(cursor)) == items
  {
    if items != [] { AllLater(items[1..], key, cursor); }
  }

  /** In key order, what comes after the key of one item is the items behind it. */
  lemma {:induction false} AfterItem<T>(items: seq<T>, key: T -> string, k: nat)
    requires InKeyOrder(items, key) && k < |items|
    ensures After(items, key, Some(key(items[k]))) == items[k + 1..]
  {
    var cursor := key(items[k]);
    if k == 0 {
      LeqReflexive(cursor);
      AllLater(items[1..], key, cursor);
    } else {
      LessIsStrict(key(items[0]), cursor);
      AfterItem(items[1..], key, k - 1);
      assert items[1..][k..] == items[k + 1..];
    }
  }

  function CursorAfter<T>(seen: seq<T>, key: T -> string): Option<string> {
    if seen == [] then None else Some(key(seen[|seen| - 1]))
  }

  /** A prefix of the items leaves the rest after its last key. */
  lemma AfterPrefix<T>(items: seq<T>, key: T -> string, n: nat)
    requires InKeyOrder(items, key) && n <= |items|
    ensures After(items, key, CursorAfter(items[..n], key)) == items[n..]
  {
    if n == 0 { AfterEverything(items, key); } else { AfterItem(items, key, n - 1); }
  }

  /** The server refused a call the loop has to make: the first one, or one for what comes after
      some of the items while others remain. */
  ghost predicate Refused<T(!new)>(server: Lister<T>, all: seq<T>, key: T -> string, error: string) {
    exists n: nat, turn :: RefusedAfter(server, all, key, n, turn, error)
  }

  ghost predicate RefusedAfter<T>(server: Lister<T>, all: seq<T>, key: T -> string, n: nat, turn: nat, error: string) {
    (n == 0 || n < |all|) && server(CursorAfter(all[..n], key), turn) == Err(error)
  }

  lemma PageExtends<T>(items: seq<T>, n: nat, page: seq<T>)
    requires n <= |items| && |page| <= |items[n..]| && page == items[n..][..|page|]
    ensures n + |page| <= |items| && items[..n] + page == items[..n + |page|]
    ensures |page| == |items[n..]| ==> n + |page| == |items|
  {}

  /** One answer of an honest server takes the list of what was seen one page further. */
  lemma NextPage<T>(server: Lister<T>, all: seq<T>, key: T -> string, n: nat, turn: nat)
    requires InKeyOrder(all, key) && Serves(server, all, key) && n <= |all|
    requires server(CursorAfter(all[..n], key), turn).Ok?
    ensures var p := server(CursorAfter(all[..n], key), turn).value;
      && n + |p.items| <= |all| && all[..n] + p.items == all[..n + |p.items|]
      && (p.more <==> n + |p.items| < |all|) && (p.more ==> p.items != [])
  {
    hide Less;
    hide After;
    AfterPrefix(all, key, n);
    var p := server(CursorAfter(all[..n], key), turn).value;
    assert HonestPage(all, key, CursorAfter(all[..n], key), p);
    PageExtends(all, n, p.items);
  }

  function NameKey(name: string): string { name }

  /** `get_streams` and `get_firehose_streams`: however the server cuts its pages, every name is
      returned once, in order; an error is one of the server's. */
  method ListNames(server: Lister<string>, ghost all: seq<string>) returns (r: Result<seq<string>, string>)
    requires InKeyOrder(all, NameKey) && Serves(server, all, NameKey)
    ensures r.Ok? ==> r.value == all
    ensures r.Err? ==> Refused(server, all, NameKey, r.error)
  {
    hide InKeyOrder;
    hide Serves;
    hide Refused;
    var names: seq<string> := [];
    var cursor: Option<string> := None;
    var turn := 0;
    while true
      invariant |names| <= |all| && names == all[..|names|]
      invariant cursor == CursorAfter(names, NameKey) && (names == [] || |names| < |all|)
      decreases |all| - |names|
    {
      var answer := server(cursor, turn);
      if answer.Err? {
        NoteRefusal(server, all, NameKey, |names|, turn, answer.error);
        return Err(answer.error);
      }
      var page := answer.value;
      NextPage(server, all, NameKey, |names|, turn);
      names := names + page.items;
      turn := turn + 1;
      if !page.more { break; }
      cursor := Some(names[|names| - 1]);
    }
    return Ok(names);
  }

  datatype Tag = Tag(key: string, value: string)

  function TagKey(t: Tag): string { t.key }

  /** `get_stream_tags` and `get_firehose_tags`: all the tags, or none of them when a call fails. */
  method ListTags(server: Lister<Tag>, ghost all: seq<Tag>) returns (tags: seq<Tag>)
    requires InKeyOrder(all, TagKey) && Serves(server, all, TagKey)
    ensures tags == all || (tags == [] && exists error :: Refused(server, all, TagKey, error))
  {
    hide InKeyOrder;
    hide Serves;
    hide Refused;
    tags := [];
    var cursor: Option<string> := None;
    var turn := 0;
    while true
      invariant |tags| <= |all| && tags == all[..|tags|]
      invariant cursor == CursorAfter(tags, TagKey) && (tags == [] || |tags| < |all|)
      decreases |all| - |tags|
    {
      var answer := server(cursor, turn);
      if answer.Err? {
        NoteRefusal(server, all, TagKey, |tags|, turn, answer.error);
        return [];
      }
      var page := answer.value;
      NextPage(server, all, TagKey, |tags|, turn);
      tags := tags + page.items;
      turn := turn + 1;
      if !page.more { break; }
      cursor := Some(tags[|tags| - 1].key);
    }
  }

  // ----- inclusive cursor: the first record still to come -----

  /** A record set; the identifier is empty unless several sets share the name and type. */
  datatype RecordSet = RecordSet(name: string, rtype: string, identifier: string, body: string)

  /** `kwargs`, without the zone. */
  datatype Args = FromStart | From(name: string, rtype: string, identifier: Option<string>)

  datatype RecordPage = RecordPage(
    sets: seq<RecordSet>,
    truncated: bool,
    nextName: string,
    nextType: string,
    nextIdentifier: Option<string>)

  /** How the server ranks names; Route 53 compares them label by label from the right. */
  type Ranking = string -> string

  predicate ComesBefore(rank: Ranking, name: string, rtype: string, identifier: string,
                        name': string, rtype': string, identifier': string) {
    Less(rank(name), rank(name'))
    || (rank(name) == rank(name')
        && (Less(rtype, rtype') || (rtype == rtype' && Less(identifier, identifier'))))
  }

  predicate SetBefore(rank: Ranking, a: RecordSet, b: RecordSet) {
    ComesBefore(rank, a.name, a.rtype, a.identifier, b.name, b.rtype, b.identifier)
  }

  function IdentifierOf(args: Args): string
    requires args.From?
  {
    if args.identifier.Some? then args.identifier.value else ""
  }

  /** The zone from an inclusive start on. */
  function StartingAt(zone: seq<RecordSet>, rank: Ranking, args: Args): seq<RecordSet> {
    if zone == [] || args.FromStart? then zone
    else if ComesBefore(rank, zone[0].name, zone[0].rtype, zone[0].identifier, args.name, args.rtype, IdentifierOf(args))
    then StartingAt(zone[1..], rank, args)
    else zone
  }

  ghost predicate InZoneOrder(zone: seq<RecordSet>, rank: Ranking) {
    forall j, k :: 0 <= j < k < |zone| ==> SetBefore(rank, zone[j], zone[k])
  }

  /** A page holds the next records, says whether more remain, and then names the first of
      those; the identifier it names is absent or empty when that record has none. */
  ghost predicate HonestRecordPage(zone: seq<RecordSet>, rank: Ranking, args: Args, p: RecordPage) {
    var rest := StartingAt(zone, rank, args);
    && |p.sets| <= |rest| && p.sets == rest[..|p.sets|]
    && (p.truncated <==> |p.sets| < |rest|)
    && (p.truncated ==>
          && p.sets != []
          && p.nextName == rest[|p.sets|].name
          && p.nextType == rest[|p.sets|].rtype
          && (if p.nextIdentifier.Some? then p.nextIdentifier.value else "") == rest[|p.sets|].identifier)
  }

  type ZoneLister = (Args, nat) -> Result<RecordPage, string>

  ghost predicate ServesZone(server: ZoneLister, zone: seq<RecordSet>, rank: Ranking) {
    forall args, turn :: server(args, turn).Ok? ==> HonestRecordPage(zone, rank, args, server(args, turn).value)
  }

  lemma NotBeforeItself(rank: Ranking, name: string, rtype: string, identifier: string)
    ensures !ComesBefore(rank, name, rtype, identifier, name, rtype, identifier)
  {}

  /** Starting at a record drops exactly the records before it. */
  lemma {:induction false} StartingAtItem(zone: seq<RecordSet>, rank: Ranking, k: nat, args: Args)
    requires InZoneOrder(zone, rank) && k < |zone|
    requires args.From? && args.name == zone[k].name && args.rtype == zone[k].rtype
    requires IdentifierOf(args) == zone[k].identifier
    ensures StartingAt(zone, rank, args) == zone[k..]
  {
    hide ComesBefore;
    if k == 0 {
      NotBeforeItself(rank, zone[0].name, zone[0].rtype, zone[0].identifier);
    } else {
      assert SetBefore(rank, zone[0], zone[k]);
      StartingAtItem(zone[1..], rank, k - 1, args);
      assert zone[1..][k - 1..] == zone[k..];
    }
  }

  /** What the loop passes for the next page. */
  ghost predicate PointsAt(zone: seq<RecordSet>, n: nat, args: Args)
    requires n <= |zone|
  {
    if args.FromStart? then n == 0
    else n < |zone| && args.name == zone[n].name && args.rtype == zone[n].rtype && IdentifierOf(args) == zone[n].identifier
  }

  /** The server refused a call for the records from the nth on. */
  ghost predicate RefusedFrom(server: ZoneLister, zone: seq<RecordSet>, n: nat, args: Args, turn: nat, error: string) {
    n <= |zone| && PointsAt(zone, n, args) && server(args, turn) == Err(error)
  }

  /** `get_record_sets`: every record set of the zone, once and in order. The arguments are built
      anew for each call, and an identifier is passed only when the server gave one. */
  method GetRecordSets(server: ZoneLister, ghost zone: seq<RecordSet>, ghost rank: Ranking)
    returns (r: Result<seq<RecordSet>, string>)
    requires InZoneOrder(zone, rank) && ServesZone(server, zone, rank)
    ensures r.Ok? ==> r.value == zone
    ensures r.Err? ==> exists n: nat, args, turn :: RefusedFrom(server, zone, n, args, turn, r.error)
  {
    hide ComesBefore;
    hide StartingAt;
    var sets: seq<RecordSet> := [];
    var args := FromStart;
    var turn := 0;
    while true
      invariant |sets| <= |zone| && sets == zone[..|sets|]
      invariant PointsAt(zone, |sets|, args)
      decreases |zone| - |sets|
    {
      var answer := server(args, turn);
      if answer.Err? {
        assert RefusedFrom(server, zone, |sets|, args, turn, answer.error);
        return Err(answer.error);
      }
      var page := answer.value;
      StartsThere(zone, rank, |sets|, args);
      assert HonestRecordPage(zone, rank, args, page);
      PageExtends(zone, |sets|, page.sets);
      sets := sets + page.sets;
      turn := turn + 1;
      if !page.truncated { break; }
      args := From(page.nextName, page.nextType, None);
      if page.nextIdentifier.Some? && page.nextIdentifier.value != "" {
        args := args.(identifier := page.nextIdentifier);
      }
    }
    return Ok(sets);
  }

  lemma StartsThere(zone: seq<RecordSet>, rank: Ranking, n: nat, args: Args)
    requires InZoneOrder(zone, rank) && n <= |zone| && PointsAt(zone, n, args)
    ensures StartingAt(zone, rank, args) == zone[n..]
  {
    if args.From? { StartingAtItem(zone, rank, n, args); }
  }

  /** Why the arguments are rebuilt: an identifier left over from an earlier page makes the
      server pass over the very record the page pointed at, if that record has none. */
  lemma {:induction false} StaleIdentifierSkips(zone: seq<RecordSet>, rank: Ranking, k: nat, stale: string)
    requires InZoneOrder(zone, rank) && k < |zone|
    requires zone[k].identifier == "" && stale != ""
    ensures zone[k] !in StartingAt(zone, rank, From(zone[k].name, zone[k].rtype, Some(stale)))
  {
    var args := From(zone[k].name, zone[k].rtype, Some(stale));
    if k == 0 {
      assert Less("", stale);
      PassedOver(zone, rank, args);
    } else {
      BeforeEmptyIsBefore(rank, zone[0], zone[k], stale);
      StaleIdentifierSkips(zone[1..], rank, k - 1, stale);
    }
  }

  lemma BeforeEmptyIsBefore(rank: Ranking, a: RecordSet, b: RecordSet, stale: string)
    requires SetBefore(rank, a, b) && b.identifier == ""
    ensures ComesBefore(rank, a.name, a.rtype, a.identifier, b.name, b.rtype, stale)
  {}

  lemma DistinctFromLater(zone: seq<RecordSet>, rank: Ranking)
    requires InZoneOrder(zone, rank) && zone != []
    ensures zone[0] !in zone[1..]
  {
    forall j | 0 <= j < |zone[1..]| ensures zone[1..][j] != zone[0] {
      assert SetBefore(rank, zone[0], zone[j + 1]);
      NotBeforeItself(rank, zone[0].name, zone[0].rtype, zone[0].identifier);
    }
  }

  lemma {:induction false} StartsInside(zone: seq<RecordSet>, rank: Ranking, args: Args, x: RecordSet)
    requires x in StartingAt(zone, rank, args)
    ensures x in zone
  {
    if zone != [] && StartingAt(zone, rank, args) != zone { StartsInside(zone[1..], rank, args, x); }
  }

  lemma PassedOver(zone: seq<RecordSet>, rank: Ranking, args: Args)
    requires InZoneOrder(zone, rank) && zone != [] && args.From?
    requires ComesBefore(rank, zone[0].name, zone[0].rtype, zone[0].identifier, args.name, args.rtype, IdentifierOf(args))
    ensures zone[0] !in StartingAt(zone, rank, args)
  {
    DistinctFromLater(zone, rank);
    if zone[0] in StartingAt(zone[1..], rank, args) { StartsInside(zone[1..], rank, args, zone[0]); }
  }

  // ----- host names -----

  const ESCAPED_STAR := "\\052"

  function StripDots(s: string): string {
    if s != [] && s[|s| - 1] == '.' then StripDots(s[..|s| - 1]) else s
  }

  /** `s.replace(r'\052', '*')` */
  function Unescape(s: string): string {
    if OccursAt(s, ESCAPED_STAR, 0) then "*" + Unescape(s[4..])
    else if s == [] then []
    else [s[0]] + Unescape(s[1..])
  }

  /** `_normalize_hostname` */
  function NormalizeHostname(s: string): string { Unescape(Lower(StripDots(s))) }

  lemma {:induction false} StripDotsShape(s: string)
    ensures StripDots(s) == [] || StripDots(s)[|StripDots(s)| - 1] != '.'
    ensures |StripDots(s)| <= |s|
  {
    if s != [] && s[|s| - 1] == '.' { StripDotsShape(s[..|s| - 1]); }
  }

  /** Three digits after unescaping were three digits before. */
  lemma {:induction false} DigitsSurvive(s: string, n: nat)
    requires n <= |Unescape(s)| && forall k :: 0 <= k < n ==> IsDigit(Unescape(s)[k])
    ensures n <= |s| && s[..n] == Unescape(s)[..n]
  {
    if n > 0 {
      assert IsDigit(Unescape(s)[0]) && Unescape(s)[0] != '*';
      assert Unescape(s) == [s[0]] + Unescape(s[1..]);
      forall k | 0 <= k < n - 1 ensures IsDigit(Unescape(s[1..])[k]) { assert IsDigit(Unescape(s)[k + 1]); }
      DigitsSurvive(s[1..], n - 1);
      assert s[..n] == [s[0]] + s[1..][..n - 1];
      assert Unescape(s)[..n] == [s[0]] + Unescape(s[1..])[..n - 1];
    }
  }

  lemma EscapeIs(s: string)
    ensures |s| >= 4 && s[0] == '\\' && s[1] == '0' && s[2] == '5' && s[3] == '2' ==> OccursAt(s, ESCAPED_STAR, 0)
  {}

  lemma NotTheEscape(u: string, c: char, v: string)
    requires u == [c] + v
    requires c == '\\' && |v| >= 3 && v[0] == '0' && v[1] == '5' ==> v[2] != '2'
    ensures !OccursAt(u, ESCAPED_STAR, 0)
  {
    if |u| >= 4 { assert u[..4] == [c, v[0], v[1], v[2]]; }
  }

  lemma NoEscapeAtStart(s: string)
    ensures !OccursAt(Unescape(s), ESCAPED_STAR, 0)
  {
    if s != [] && !OccursAt(s, ESCAPED_STAR, 0) {
      var v := Unescape(s[1..]);
      assert Unescape(s) == [s[0]] + v;
      if |v| >= 3 && v[0] == '0' && v[1] == '5' && v[2] == '2' {
        DigitsSurvive(s[1..], 3);
        assert s[1] == s[1..][..3][0] && s[2] == s[1..][..3][1] && s[3] == s[1..][..3][2];
        EscapeIs(s);
      }
      NotTheEscape(Unescape(s), s[0], v);
    } else if s != [] {
      assert Unescape(s)[0] == '*';
    }
  }

  /** No escape is left, and none appears where two pieces now meet. */
  lemma {:induction false} UnescapeRemovesAll(s: string, i: nat)
    ensures !OccursAt(Unescape(s), ESCAPED_STAR, i)
    decreases |s|
  {
    hide OccursAt;
    LongEnough(s);
    if i == 0 {
      NoEscapeAtStart(s);
    } else if s == [] {
      NoRoom(i);
    } else {
      var rest := if OccursAt(s, ESCAPED_STAR, 0) then s[4..] else s[1..];
      UnescapeRemovesAll(rest, i - 1);
      OneLater(Unescape(s), Unescape(rest), i);
    }
  }

  lemma LongEnough(s: string)
    ensures OccursAt(s, ESCAPED_STAR, 0) ==> |s| >= 4
  {}

  lemma NoRoom(i: nat)
    ensures Unescape([]) == [] && !OccursAt([], ESCAPED_STAR, i)
  {}

  lemma OneLater(u: string, v: string, i: nat)
    requires i > 0 && u != [] && u[1..] == v && !OccursAt(v, ESCAPED_STAR, i - 1)
    ensures !OccursAt(u, ESCAPED_STAR, i)
  {
    if i + 4 <= |u| { assert v[i - 1..i + 3] == u[i..i + 4]; }
  }

  lemma {:induction false} NothingToUnescape(s: string)
    requires forall i: nat :: !OccursAt(s, ESCAPED_STAR, i)
    ensures Unescape(s) == s
  {
    if s != [] {
      forall i: nat ensures !OccursAt(s[1..], ESCAPED_STAR, i) {
        assert !OccursAt(s, ESCAPED_STAR, i + 1);
        if i + 5 <= |s| { assert s[i + 1..i + 5] == s[1..][i..i + 4]; }
      }
      assert !OccursAt(s, ESCAPED_STAR, 0);
      NothingToUnescape(s[1..]);
    }
  }

  /** One step of unescaping: the character it writes and the text it goes on with. */
  lemma UnescapeStep(s: string) returns (head: char, rest: string)
    requires s != []
    ensures |rest| < |s| && s[|s| - |rest|..] == rest
    ensures head == '*' || head == s[0]
    ensures Unescape(s) == [head] + Unescape(rest)
    ensures rest == [] && head != '*' ==> head == s[|s| - 1]
  {
    if OccursAt(s, ESCAPED_STAR, 0) { head, rest := '*', s[4..]; } else { head, rest := s[0], s[1..]; }
  }

  lemma LowerSuffix(s: string, n: nat)
    requires n <= |s| && Lower(s) == s
    ensures Lower(s[n..]) == s[n..]
    ensures s != [] ==> LowerChar(s[0]) == s[0]
  {
    forall k | 0 <= k < |s| ensures LowerChar(s[k]) == s[k] { assert Lower(s)[k] == LowerChar(s[k]); }
  }

  lemma LowerAhead(c: char, s: string)
    requires LowerChar(c) == c && Lower(s) == s
    ensures Lower([c] + s) == [c] + s
  {}

  lemma {:induction false} UnescapeKeepsLower(s: string)
    requires Lower(s) == s
    ensures Lower(Unescape(s)) == Unescape(s)
    decreases |s|
  {
    hide Unescape;
    hide Lower;
    if s == [] {
      NoRoom(0);
      LowerOfNothing();
    } else {
      var head, rest := UnescapeStep(s);
      LowerSuffix(s, |s| - |rest|);
      UnescapeKeepsLower(rest);
      LowerAhead(head, Unescape(rest));
    }
  }

  lemma LowerOfNothing()
    ensures Lower([]) == []
  {}

  lemma {:induction false} UnescapeKeepsEnd(s: string)
    ensures s == [] <==> Unescape(s) == []
    ensures s != [] && s[|s| - 1] != '.' ==> Unescape(s)[|Unescape(s)| - 1] != '.'
    decreases |s|
  {
    hide Unescape;
    if s == [] {
      NoRoom(0);
    } else {
      var head, rest := UnescapeStep(s);
      UnescapeKeepsEnd(rest);
      if rest != [] { assert rest[|rest| - 1] == s[|s| - 1]; }
    }
  }

  lemma LowerKeepsEnd(s: string)
    requires s == [] || s[|s| - 1] != '.'
    ensures Lower(s) == [] || Lower(s)[|Lower(s)| - 1] != '.'
  {}

  /** A normalised host name has no trailing dot, no upper-case letter and no escaped star, and
      normalising it again changes nothing. */
  lemma NormalizedHostname(s: string)
    ensures var n := NormalizeHostname(s);
      && (n == [] || n[|n| - 1] != '.')
      && Lower(n) == n
      && !Contains(n, ESCAPED_STAR)
      && NormalizeHostname(n) == n
  {
    hide Unescape;
    hide OccursAt;
    var t := Lower(StripDots(s));
    var n := NormalizeHostname(s);
    StripDotsShape(s);
    LowerKeepsEnd(StripDots(s));
    LowerIdempotent(StripDots(s));
    UnescapeKeepsLower(t);
    UnescapeKeepsEnd(t);
    forall i: nat ensures !OccursAt(n, ESCAPED_STAR, i) { UnescapeRemovesAll(t, i); }
    NothingToUnescape(n);
    OnlyAtNat(n);
    assert StripDots(n) == n;
  }

  lemma OnlyAtNat(n: string)
    requires forall i: nat :: !OccursAt(n, ESCAPED_STAR, i)
    ensures !Contains(n, ESCAPED_STAR)
  {
    forall i: int ensures !OccursAt(n, ESCAPED_STAR, i) {
      if i >= 0 { var k: nat := i; assert !OccursAt(n, ESCAPED_STAR, k); }
    }
  }

  // ----- what normalising keeps -----

  /** The pieces with `sep` between them. */
  function Glue(pieces: seq<string>, sep: string): string {
    if pieces == [] then [] else if |pieces| == 1 then pieces[0] else pieces[0] + (sep + Glue(pieces[1..], sep))
  }

  function Lowered(pieces: seq<string>): seq<string> { seq(|pieces|, k requires 0 <= k < |pieces| => Lower(pieces[k])) }

  lemma {:induction false} LowerOfGlue(pieces: seq<string>, sep: string)
    ensures Lower(Glue(pieces, sep)) == Glue(Lowered(pieces), Lower(sep))
  {
    if |pieces| > 1 {
      var rest := Glue(pieces[1..], sep);
      LowerOfGlue(pieces[1..], sep);
      LowerOfConcat(pieces[0], sep + rest);
      LowerOfConcat(sep, rest);
      assert Lowered(pieces)[1..] == Lowered(pieces[1..]);
    }
  }

  lemma {:induction false} DotsAreStripped(host: string, dots: string)
    requires (host == [] || host[|host| - 1] != '.') && forall k :: 0 <= k < |dots| ==> dots[k] == '.'
    ensures StripDots(host + dots) == host
  {
    if dots == [] {
      assert host + dots == host;
    } else {
      assert (host + dots)[..|host + dots| - 1] == host + dots[..|dots| - 1];
      DotsAreStripped(host, dots[..|dots| - 1]);
    }
  }

  /** No escape starts in the middle of another one's neighbourhood. */
  lemma NoEscapeAcross(p: string, rest: string, i: nat)
    requires !Contains(p, ESCAPED_STAR) && i < |p|
    ensures !OccursAt(p + (ESCAPED_STAR + rest), ESCAPED_STAR, i)
  {
    var t := p + (ESCAPED_STAR + rest);
    if i + 4 <= |p| {
      assert t[i..i + 4] == p[i..i + 4];
      assert !OccursAt(p, ESCAPED_STAR, i);
    } else {
      if OccursAt(t, ESCAPED_STAR, i) { OccursCharacter(t, ESCAPED_STAR, i, |p|); }
      assert t[|p|] == '\\' && ESCAPED_STAR[1] == '0' && ESCAPED_STAR[2] == '5' && ESCAPED_STAR[3] == '2';
    }
  }

  lemma {:induction false} UnescapeUpTo(p: string, rest: string, n: nat)
    requires !Contains(p, ESCAPED_STAR) && n <= |p|
    ensures Unescape(p[n..] + (ESCAPED_STAR + rest)) == p[n..] + ("*" + Unescape(rest))
    decreases |p| - n
  {
    var whole := p + (ESCAPED_STAR + rest);
    var t := p[n..] + (ESCAPED_STAR + rest);
    assert t == whole[n..];
    if n == |p| {
      assert t == ESCAPED_STAR + rest && t[..4] == ESCAPED_STAR && t[4..] == rest;
    } else {
      NoEscapeAcross(p, rest, n);
      assert !OccursAt(t, ESCAPED_STAR, 0) by { if |t| >= 4 { assert t[0..4] == whole[n..n + 4]; } }
      assert t[1..] == p[n + 1..] + (ESCAPED_STAR + rest);
      UnescapeUpTo(p, rest, n + 1);
    }
  }

  /** Escapes become stars and nothing else changes. */
  lemma {:induction false} UnescapeExact(pieces: seq<string>)
    requires pieces != [] && forall k :: 0 <= k < |pieces| ==> !Contains(pieces[k], ESCAPED_STAR)
    ensures Unescape(Glue(pieces, ESCAPED_STAR)) == Glue(pieces, "*")
  {
    if |pieces| == 1 {
      forall i: nat ensures !OccursAt(pieces[0], ESCAPED_STAR, i) {}
      NothingToUnescape(pieces[0]);
    } else {
      UnescapeExact(pieces[1..]);
      UnescapeUpTo(pieces[0], Glue(pieces[1..], ESCAPED_STAR), 0);
      assert pieces[0][0..] == pieces[0];
    }
  }

  /** Normalising drops trailing dots, folds the case, turns each escape into a star, and keeps
      everything else. */
  lemma HostnameKept(pieces: seq<string>, dots: string)
    requires pieces != [] && forall k :: 0 <= k < |pieces| ==> !Contains(Lower(pieces[k]), "\\052")
    requires Glue(pieces, "\\052") == [] || Glue(pieces, "\\052")[|Glue(pieces, "\\052")| - 1] != '.'
    requires forall k :: 0 <= k < |dots| ==> dots[k] == '.'
    ensures NormalizeHostname(Glue(pieces, "\\052") + dots) == Lower(Glue(pieces, "*"))
  {
    hide Unescape, Glue;
    DotsAreStripped(Glue(pieces, ESCAPED_STAR), dots);
    LowerOfGlue(pieces, ESCAPED_STAR);
    LowerOfGlue(pieces, "*");
    assert Lower(ESCAPED_STAR) == ESCAPED_STAR && Lower("*") == "*";
    UnescapeExact(Lowered(pieces));
  }
}
