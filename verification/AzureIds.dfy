/** Azure resource ids: normalisation, the resource group found by a pattern, the test for the
    path of a group, the scope a management lock is placed on, and the paths by which ids are
    compared segment by segment. */
module AzureIds {
  import opened Text
  import opened Json
  import opened Patterns

  // ----- normalize_id, resource_group, is_resource_group_scope -----

  /** `normalize_id`; a missing id reads as the empty one. */
  function NormalizeId(id: Option<string>): string {
    match id case None => [] case Some(s) => Lower(s)
  }

  /** `location or 'global'` */
  function RegionOf(location: Option<string>): Option<string> {
    if location.Some? && location.value != [] then location else Some("global")
  }

  /** How a name is printed into a message. */
  function NameText(name: Option<string>): string { match name case Some(n) => n case None => "None" }

  const SLASH := Chars("/")
  const RESOURCE_GROUPS := "/resourcegroups/"

  function ResourceGroupPattern(): Regex {
    Cat(Literal(RESOURCE_GROUPS, true), Repeat(OneOf(Not(SLASH)), 1, None))
  }

  /** `resource_group`: the group the pattern captures is what follows its literal. */
  function ResourceGroup(id: Option<string>): Option<string> {
    if id == None || id.value == [] then None
    else Captured(id.value, Search(ResourceGroupPattern(), id.value, 0))
  }

  function SegmentPattern(): Regex { Repeat(OneOf(Not(SLASH)), 1, None) }

  /** A literal and a segment, twice. */
  function TwoSteps(first: string, second: string): Regex {
    Literal(first, true).Then(SegmentPattern()).Then(Literal(second, true)).Then(SegmentPattern())
  }

  const SUBSCRIPTIONS := "/subscriptions/"

  function GroupScopePattern(): Regex { TwoSteps(SUBSCRIPTIONS, RESOURCE_GROUPS) }

  /** `^...$` matches `t`; `$` also matches before a final line break. */
  predicate FullMatch(r: Regex, t: string) {
    |t| in Ends(r, t, 0) || (t != [] && t[|t| - 1] == '\n' && |t| - 1 in Ends(r, t, 0))
  }

  /** `is_resource_group_scope` */
  predicate IsGroupScope(scope: Option<string>) {
    scope.Some? && scope.value != [] && FullMatch(GroupScopePattern(), scope.value)
  }

  // ----- lock_scope -----

  /** A management lock as listed. */
  datatype ManagementLock = ManagementLock(id: Option<string>, name: Option<string>, level: Option<string>, raw: Json)

  const PROVIDERS := "/providers"
  const AUTHORIZATION := "/microsoft.authorization"
  const LOCKS := "/locks/"

  /** "/providers/microsoft.authorization/locks/" */
  const LOCK_MARKER := PROVIDERS + AUTHORIZATION + LOCKS

  /** `lock_scope` */
  function LockScope(lockId: Option<string>): Option<string> {
    var id := OrEmpty(lockId);
    var at := Find(Lower(id), LOCK_MARKER);
    if at >= 0 then Some(id[..at]) else None
  }

  lemma MarkerParts()
    ensures |PROVIDERS| == 10 && |AUTHORIZATION| == 24 && |LOCKS| == 7
    ensures forall d :: 0 < d < 10 ==> PROVIDERS[d] != '/'
    ensures forall d :: 0 < d < 24 ==> AUTHORIZATION[d] != '/'
    ensures forall d :: 0 < d < 6 ==> LOCKS[d] != '/'
    ensures PROVIDERS[0] == '/' && PROVIDERS[1] == 'p' && AUTHORIZATION[1] == 'm' && LOCKS[1] == 'l'
  {}

  lemma MarkerAt(d: nat)
    requires d < 41
    ensures |LOCK_MARKER| == 41
    ensures LOCK_MARKER[d] ==
      if d < 10 then PROVIDERS[d] else if d < 34 then AUTHORIZATION[d - 10] else LOCKS[d - 34]
  {}

  lemma MarkerSlashes()
    ensures |LOCK_MARKER| == 41 && LOCK_MARKER[0] == '/'
    ensures forall d :: 0 < d < 40 && LOCK_MARKER[d] == '/' ==> LOCK_MARKER[d + 1] != LOCK_MARKER[1]
  {
    MarkerParts();
    MarkerAt(0);
    MarkerAt(1);
    MarkerAt(11);
    MarkerAt(35);
    forall d | 0 < d < 40 && LOCK_MARKER[d] == '/' ensures d == 10 || d == 34 { MarkerAt(d); }
  }

  /** Two occurrences of a text that overlap in two characters or more. */
  lemma OverlapChars(t: string, m: string, i: int, j: int)
    requires OccursAt(t, m, i) && OccursAt(t, m, j) && i < j && j - i + 1 < |m|
    ensures m[j - i] == m[0] && m[j - i + 1] == m[1]
  {
    var d := j - i;
    assert t[i..i + |m|][d] == t[j] == t[j..j + |m|][0];
    assert t[i..i + |m|][d + 1] == t[j + 1] == t[j..j + |m|][1];
  }

  /** The marker overlaps itself in one character only, so an occurrence that starts before
      a given one ends no later than that one's first character. */
  lemma MarkerOverlap(t: string, i: int, j: int)
    requires OccursAt(t, LOCK_MARKER, i) && OccursAt(t, LOCK_MARKER, j) && i < j
    ensures i + 40 <= j
  {
    MarkerSlashes();
    if j - i < 40 { OverlapChars(t, LOCK_MARKER, i, j); }
  }

  /** Searching for `m` in `s + m + name`, where `m` overlaps itself in one character at most. */
  lemma FindsSuffix(s: string, m: string, name: string)
    requires |m| > 1
    requires forall t: string, i, j :: OccursAt(t, m, i) && OccursAt(t, m, j) && i < j ==> i + |m| - 1 <= j
    ensures Find(s + m + name, m) == |s| <==> !Contains(s + m[..1], m)
  {
    var t, u := s + m + name, s + m[..1];
    assert t[|s|..|s| + |m|] == m;
    var at := Find(t, m);
    assert OccursAt(t, m, |s|) && OccursAt(t, m, at);
    assert u == t[..|s| + 1];
    if at < |s| {
      assert at + |m| - 1 <= |s|;
      assert u[at..at + |m|] == t[at..at + |m|];
      assert OccursAt(u, m, at);
    }
    if Contains(u, m) {
      var i :| OccursAt(u, m, i);
      assert u[i..i + |m|] == t[i..i + |m|];
      assert OccursAt(t, m, i) && i < |s|;
    }
  }

  /** A lock's id gives back the scope it was built from, in whatever casing the suffix comes
      back, exactly when the scope with a slash after it does not contain the marker. */
  lemma LockIdRoundTrip(scope: string, suffix: string, name: string)
    requires Lower(suffix) == LOCK_MARKER
    ensures LockScope(Some(scope + suffix + name)) == Some(scope) <==> !Contains(Lower(scope) + "/", LOCK_MARKER)
  {
    var id := scope + suffix + name;
    MarkerSlashes();
    LowerOfConcat(scope + suffix, name);
    LowerOfConcat(scope, suffix);
    forall t: string, i, j | OccursAt(t, LOCK_MARKER, i) && OccursAt(t, LOCK_MARKER, j) && i < j
      ensures i + |LOCK_MARKER| - 1 <= j
    {
      MarkerOverlap(t, i, j);
    }
    FindsSuffix(Lower(scope), LOCK_MARKER, Lower(name));
    assert LOCK_MARKER[..1] == "/";
    var at := Find(Lower(id), LOCK_MARKER);
    assert OccursAt(Lower(id), LOCK_MARKER, |scope|) by {
      assert Lower(id)[|scope|..|scope| + 41] == LOCK_MARKER;
    }
    assert id[..|scope|] == scope && |id[..at]| == at;
  }

  /** The condition is needed: this scope is the marker less its last slash, which the lock's
      own suffix supplies. */
  lemma LockIdOverlapExample()
    ensures var scope := PROVIDERS + AUTHORIZATION + "/locks";
      LockScope(Some(scope + LOCK_MARKER + "l")) != Some(scope)
  {
    var scope := PROVIDERS + AUTHORIZATION + "/locks";
    MarkerIsLower();
    assert scope + "/" == LOCK_MARKER;
    LowerOfConcat(scope, "/");
    assert OccursAt(Lower(scope) + "/", LOCK_MARKER, 0);
    LockIdRoundTrip(scope, LOCK_MARKER, "l");
  }

  lemma MarkerIsLower()
    ensures Lower(LOCK_MARKER) == LOCK_MARKER
  {
    LowerOfConcat(PROVIDERS + AUTHORIZATION, LOCKS);
    LowerOfConcat(PROVIDERS, AUTHORIZATION);
    assert Lower(PROVIDERS) == PROVIDERS && Lower(AUTHORIZATION) == AUTHORIZATION && Lower(LOCKS) == LOCKS;
  }

  // ----- ARM paths -----

  /** The id with the given path segments: each one after a slash. */
  function Path(segments: seq<string>): string {
    if segments == [] then [] else "/" + segments[0] + Path(segments[1..])
  }

  ghost predicate Segments(segments: seq<string>) {
    forall k :: 0 <= k < |segments| ==> segments[k] != [] && '/' !in segments[k]
  }

  /** Segments that agree up to casing. */
  ghost predicate SameSegments(a: seq<string>, b: seq<string>) {
    |a| == |b| && forall k :: 0 <= k < |a| ==> Lower(a[k]) == Lower(b[k])
  }

  lemma LowerKeepsSlashes(s: string)
    ensures '/' in Lower(s) <==> '/' in s
  {
    if '/' in s {
      var k :| 0 <= k < |s| && s[k] == '/';
      assert Lower(s)[k] == '/';
    }
    if '/' in Lower(s) {
      var k :| 0 <= k < |s| && Lower(s)[k] == '/';
      assert s[k] == '/';
    }
  }

  lemma LowerOfPath(segments: seq<string>)
    requires segments != []
    ensures Lower(Path(segments)) == "/" + Lower(segments[0]) + Lower(Path(segments[1..]))
  {
    LowerOfConcat("/" + segments[0], Path(segments[1..]));
    LowerOfConcat("/", segments[0]);
  }

  /** What may follow a path's first segment. */
  predicate SlashOrEnd(s: string) { s == [] || s[0] == '/' }

  lemma PathShape(segments: seq<string>)
    ensures SlashOrEnd(Path(segments)) && SlashOrEnd(Lower(Path(segments)))
  {}

  function UntilSlash(s: string): string {
    if SlashOrEnd(s) then [] else [s[0]] + UntilSlash(s[1..])
  }

  lemma {:induction false} UntilSlashOf(a: string, x: string)
    requires '/' !in a && SlashOrEnd(x)
    ensures UntilSlash(a + x) == a
  {
    if a == [] {
      assert a + x == x;
    } else {
      assert (a + x)[1..] == a[1..] + x;
      UntilSlashOf(a[1..], x);
    }
  }

  /** Two texts cut at their first slash. */
  lemma CutAtSlash(a: string, x: string, b: string, y: string)
    requires '/' !in a && '/' !in b && SlashOrEnd(x) && SlashOrEnd(y)
    requires a + x == b + y
    ensures a == b && x == y
  {
    UntilSlashOf(a, x);
    UntilSlashOf(b, y);
    assert (a + x)[|a|..] == x && (b + y)[|b|..] == y;
  }

  /** What agreeing up to casing means one segment at a time. */
  lemma SameSegmentsStep(a: seq<string>, b: seq<string>)
    requires a != [] && b != []
    ensures SameSegments(a, b) <==> Lower(a[0]) == Lower(b[0]) && SameSegments(a[1..], b[1..])
  {
    hide Lower;
    if SameSegments(a, b) {
      forall k | 0 <= k < |a| - 1 ensures Lower(a[1..][k]) == Lower(b[1..][k]) {
        assert Lower(a[k + 1]) == Lower(b[k + 1]);
      }
    }
    if Lower(a[0]) == Lower(b[0]) && SameSegments(a[1..], b[1..]) {
      forall k | 0 <= k < |a| ensures Lower(a[k]) == Lower(b[k]) {
        if k > 0 { assert a[1..][k - 1] == a[k] && b[1..][k - 1] == b[k]; }
      }
    }
  }

  lemma HeadAndTail(c: string, a: string, x: string, b: string, y: string)
    requires c + a + x == c + b + y
    ensures a + x == b + y
  {
    assert (c + a + x)[|c|..] == a + x && (c + b + y)[|c|..] == b + y;
  }

  lemma EmptyPath(a: seq<string>)
    ensures Lower(Path([])) == []
    ensures a != [] ==> Lower(Path(a)) != []
  {}

  /** Two paths are the same id, ignoring case, exactly when their segments are. */
  lemma {:induction false} SamePath(a: seq<string>, b: seq<string>)
    requires Segments(a) && Segments(b)
    ensures Lower(Path(a)) == Lower(Path(b)) <==> SameSegments(a, b)
  {
    hide Lower;
    hide Path;
    EmptyPath(a);
    EmptyPath(b);
    if a != [] && b != [] {
      SamePath(a[1..], b[1..]);
      LowerOfPath(a);
      LowerOfPath(b);
      SameSegmentsStep(a, b);
      var x, y := Lower(Path(a[1..])), Lower(Path(b[1..]));
      PathShape(a[1..]);
      PathShape(b[1..]);
      LowerKeepsSlashes(a[0]);
      LowerKeepsSlashes(b[0]);
      if Lower(Path(a)) == Lower(Path(b)) {
        HeadAndTail("/", Lower(a[0]), x, Lower(b[0]), y);
        CutAtSlash(Lower(a[0]), x, Lower(b[0]), y);
      }
    }
  }

  // ----- the resource group of a path -----

  /** Where the group name that the pattern would capture at `p` ends. */
  function GroupHere(t: string, p: nat): Option<nat>
    requires p <= |t|
  {
    var k := p + |RESOURCE_GROUPS|;
    if OccursAt(Lower(t), RESOURCE_GROUPS, p) && k < |t| && t[k] != '/'
    then Some(k + |UntilSlash(t[k..])|) else None
  }

  lemma NotSlash()
    ensures forall c: char :: Not(SLASH).Has(c) <==> c != '/'
  {
    forall c: char ensures Not(SLASH).Has(c) <==> c != '/' { assert SLASH.Has(c) <==> c == '/'; }
  }

  lemma {:induction false} RunIsUntilSlash(t: string, k: nat)
    requires k <= |t|
    ensures RunEnd(Not(SLASH), None, t, k) == k + |UntilSlash(t[k..])|
    decreases |t| - k
  {
    NotSlash();
    if k < |t| {
      assert t[k..][1..] == t[k + 1..];
      RunIsUntilSlash(t, k + 1);
    }
  }

  lemma GroupAt(r: Regex, t: string, p: nat)
    requires p <= |t| && r.Cat? && r.left == Literal(RESOURCE_GROUPS, true) && r.right == Repeat(OneOf(Not(SLASH)), 1, None)
    ensures MatchAt(r, t, p) == GroupHere(t, p)
  {
    LiteralRunAt(r, Not(SLASH), 1, None, t, p);
    var k := p + |RESOURCE_GROUPS|;
    if k <= |t| {
      assert Lower(t[p..k]) == Lower(t)[p..k];
      RunIsUntilSlash(t, k);
    }
  }

  /** The leftmost place the pattern matches, without the pattern. */
  function FirstGroup(t: string, p: nat): Option<string>
    requires p <= |t|
    decreases |t| - p
  {
    if GroupHere(t, p).Some? then Some(UntilSlash(t[p + |RESOURCE_GROUPS|..]))
    else if p == |t| then None
    else FirstGroup(t, p + 1)
  }

  lemma UntilSlashPrefix(s: string)
    ensures |UntilSlash(s)| <= |s| && s[..|UntilSlash(s)|] == UntilSlash(s)
  {}

  /** The text a match's capture group holds. */
  function Captured(t: string, found: Option<Span>): Option<string>
    requires found.Some? ==> found.value.start <= found.value.end <= |t|
  {
    if found.Some? && found.value.start + |RESOURCE_GROUPS| <= found.value.end
    then Some(t[found.value.start + |RESOURCE_GROUPS|..found.value.end]) else None
  }

  lemma CapturedHere(t: string, p: nat)
    requires p <= |t| && GroupHere(t, p).Some?
    ensures GroupHere(t, p).value <= |t|
    ensures Captured(t, Some(Span(p, GroupHere(t, p).value))) == Some(UntilSlash(t[p + |RESOURCE_GROUPS|..]))
  {
    var k := p + |RESOURCE_GROUPS|;
    UntilSlashPrefix(t[k..]);
    assert t[k..k + |UntilSlash(t[k..])|] == t[k..][..|UntilSlash(t[k..])|];
  }

  lemma {:induction false} SearchIsFirstGroup(r: Regex, t: string, p: nat)
    requires p <= |t| && r.Cat? && r.left == Literal(RESOURCE_GROUPS, true) && r.right == Repeat(OneOf(Not(SLASH)), 1, None)
    ensures FirstGroup(t, p) == Captured(t, Search(r, t, p))
    decreases |t| - p
  {
    GroupAt(r, t, p);
    if GroupHere(t, p).Some? {
      CapturedHere(t, p);
    } else if p < |t| {
      SearchIsFirstGroup(r, t, p + 1);
    }
  }

  /** `resource_group` is the segment after the first `/resourceGroups/`, in any casing, that
      one follows. */
  lemma ResourceGroupIsFirst(id: string)
    ensures ResourceGroup(Some(id)) == if id == [] then None else FirstGroup(id, 0)
  {
    SearchIsFirstGroup(ResourceGroupPattern(), id, 0);
  }

  // ----- the resource group of a path -----

  lemma GroupsName()
    ensures RESOURCE_GROUPS == "/" + "resourcegroups" + "/" && |RESOURCE_GROUPS| == 16
    ensures '/' !in "resourcegroups"
  {
    assert forall k :: 0 <= k < 14 ==> "resourcegroups"[k] != '/';
  }

  /** The pattern's literal cannot start inside a segment, and where a segment starts it needs
      that segment to be named `resourceGroups`. */
  lemma GroupNeedsName(segment: string, tail: string, p: nat)
    requires '/' !in segment && SlashOrEnd(tail) && p <= |segment|
    requires OccursAt(Lower("/" + segment + tail), RESOURCE_GROUPS, p)
    ensures p == 0 && Lower(segment) == "resourcegroups"
  {
    var t := "/" + segment + tail;
    GroupsName();
    var found := Lower(t)[p..p + 16];
    assert found == RESOURCE_GROUPS;
    assert found[0] == '/' == Lower(t)[p];
    forall k | 0 < k <= |segment| ensures Lower(t)[k] != '/' { assert t[k] == segment[k - 1]; }
    LowerOfConcat("/" + segment, tail);
    LowerOfConcat("/", segment);
    LowerKeepsSlashes(segment);
    var rest := Lower(t)[1..];
    assert rest == Lower(segment) + Lower(tail);
    assert rest[..15] == found[1..] == "resourcegroups/";
    assert rest[..14] == rest[..15][..14] == "resourcegroups";
    assert rest[14] == rest[..15][14] == '/';
    assert rest == "resourcegroups" + rest[14..];
    CutAtSlash("resourcegroups", rest[14..], Lower(segment), Lower(tail));
  }

  lemma NoGroupBefore(segment: string, tail: string, p: nat)
    requires '/' !in segment && SlashOrEnd(tail) && Lower(segment) != "resourcegroups" && p <= |segment|
    ensures GroupHere("/" + segment + tail, p) == None
  {
    if OccursAt(Lower("/" + segment + tail), RESOURCE_GROUPS, p) { GroupNeedsName(segment, tail, p); }
  }

  /** What is found depends only on the text from there on. */
  lemma GroupHereShift(before: string, t: string, p: nat)
    requires p <= |t|
    ensures GroupHere(before + t, |before| + p).Some? <==> GroupHere(t, p).Some?
  {
    if p + 16 <= |t| {
      GroupsName();
      assert Lower(before + t)[|before| + p..|before| + p + 16] == Lower(t)[p..p + 16];
    }
  }

  lemma {:induction false} FirstGroupShift(before: string, t: string, p: nat)
    requires p <= |t|
    ensures FirstGroup(before + t, |before| + p) == FirstGroup(t, p)
    decreases |t| - p
  {
    GroupHereShift(before, t, p);
    if GroupHere(t, p).Some? {
      assert (before + t)[|before| + p + |RESOURCE_GROUPS|..] == t[p + |RESOURCE_GROUPS|..];
    } else if p < |t| {
      FirstGroupShift(before, t, p + 1);
    }
  }

  lemma {:induction false} FirstGroupSkips(t: string, p: nat, q: nat)
    requires p <= q <= |t| && forall i :: p <= i < q ==> GroupHere(t, i) == None
    ensures FirstGroup(t, p) == FirstGroup(t, q)
    decreases q - p
  {
    if p < q { FirstGroupSkips(t, p + 1, q); }
  }

  /** A leading segment with another name is passed over. */
  lemma SkipSegment(segment: string, tail: string)
    requires '/' !in segment && SlashOrEnd(tail) && Lower(segment) != "resourcegroups"
    ensures FirstGroup("/" + segment + tail, 0) == FirstGroup(tail, 0)
  {
    var t := "/" + segment + tail;
    forall i | 0 <= i < 1 + |segment| ensures GroupHere(t, i) == None { NoGroupBefore(segment, tail, i); }
    FirstGroupSkips(t, 0, 1 + |segment|);
    FirstGroupShift("/" + segment, tail, 0);
  }

  lemma NamedHere(name: string, rest: string)
    requires Lower(name) == "resourcegroups" && rest != [] && rest[0] == '/'
    ensures |name| == 14 && OccursAt(Lower("/" + name + rest), RESOURCE_GROUPS, 0)
  {
    var t := "/" + name + rest;
    GroupsName();
    assert |name| == |Lower(name)|;
    LowerOfConcat("/" + name, rest);
    LowerOfConcat("/", name);
    var x := Lower(t)[0..16];
    assert x[15] == Lower(rest)[0] == '/';
    assert x == "/" + "resourcegroups" + "/";
  }

  lemma GroupFound(name: string, group: string, tail: string)
    requires Lower(name) == "resourcegroups" && group != [] && '/' !in group && SlashOrEnd(tail)
    ensures FirstGroup("/" + name + ("/" + group + tail), 0) == Some(group)
  {
    var t := "/" + name + ("/" + group + tail);
    NamedHere(name, "/" + group + tail);
    GroupsName();
    assert t[16..] == group + tail;
    assert t[16] == group[0] && group[0] in group;
    UntilSlashOf(group, tail);
  }

  /** An id `/a/b/resourceGroups/G...` belongs to the group `G`, as long as neither `a` nor
      `b` is itself named `resourceGroups`; if `b` is, the answer is the third segment. */
  lemma GroupOfPath(segments: seq<string>)
    requires Segments(segments) && |segments| >= 4 && Lower(segments[2]) == "resourcegroups"
    requires Lower(segments[0]) != "resourcegroups"
    ensures ResourceGroup(Some(Path(segments)))
      == Some(if Lower(segments[1]) == "resourcegroups" then segments[2] else segments[3])
  {
    var rest, last := Path(segments[2..]), Path(segments[3..]);
    assert segments[1..][1..] == segments[2..] && segments[2..][1..] == segments[3..] && segments[3..][1..] == segments[4..];
    assert Path(segments) == "/" + segments[0] + Path(segments[1..]);
    assert Path(segments[1..]) == "/" + segments[1] + rest;
    assert rest == "/" + segments[2] + last;
    assert last == "/" + segments[3] + Path(segments[4..]);
    PathShape(segments[1..]);
    PathShape(segments[2..]);
    PathShape(segments[3..]);
    PathShape(segments[4..]);
    ResourceGroupIsFirst(Path(segments));
    SkipSegment(segments[0], Path(segments[1..]));
    if Lower(segments[1]) == "resourcegroups" {
      GroupFound(segments[1], segments[2], last);
    } else {
      SkipSegment(segments[1], rest);
      GroupFound(segments[2], segments[3], Path(segments[4..]));
    }
  }

  // ----- is_resource_group_scope -----

  lemma SegmentMeaning(t: string, i: nat, j: nat)
    ensures Matches(SegmentPattern(), t, i, j) <==> i < j <= |t| && '/' !in t[i..j]
  {
    NotSlash();
    RunMeaning(Not(SLASH), 1, None, t, i, j);
    if i < j <= |t| {
      if '/' !in t[i..j] { assert forall k :: i <= k < j ==> t[k] == t[i..j][k - i]; }
    }
  }

  /** `t` up to `e` is a first literal, a segment, a second literal and a segment, the second
      literal starting at `k`. */
  ghost predicate StepsAt(first: string, second: string, t: string, k: nat, e: nat) {
    && |first| < k && k + |second| < e <= |t|
    && Lower(t[..|first|]) == first && '/' !in t[|first|..k]
    && Lower(t[k..k + |second|]) == second && '/' !in t[k + |second|..e]
  }

  lemma TwoStepsMeaning(first: string, second: string, t: string, e: nat)
    ensures Matches(TwoSteps(first, second), t, 0, e) <==> exists k: nat :: StepsAt(first, second, t, k, e)
  {
    hide Matches;
    hide SegmentPattern;
    var a := Literal(first, true).Then(SegmentPattern());
    var b := a.Then(Literal(second, true));
    var r := b.Then(SegmentPattern());
    if Matches(r, t, 0, e) {
      var y := CatParts(r, t, 0, e);
      var k := CatParts(b, t, 0, y);
      var x := CatParts(a, t, 0, k);
      FoldedLiteral(first, t, 0, x);
      FoldedLiteral(second, t, k, y);
      SegmentMeaning(t, x, k);
      SegmentMeaning(t, y, e);
      assert t[0..x] == t[..x];
      assert StepsAt(first, second, t, k, e);
    }
    forall k: nat | StepsAt(first, second, t, k, e) ensures Matches(r, t, 0, e) {
      assert t[0..|first|] == t[..|first|];
      FoldedLiteral(first, t, 0, |first|);
      FoldedLiteral(second, t, k, k + |second|);
      SegmentMeaning(t, |first|, k);
      SegmentMeaning(t, k + |second|, e);
      CatOf(a, t, 0, |first|, k);
      CatOf(b, t, 0, k, k + |second|);
      CatOf(r, t, 0, k + |second|, e);
    }
  }

  lemma FoldedLiteral(text: string, t: string, i: nat, j: nat)
    ensures Matches(Literal(text, true), t, i, j) <==> j == i + |text| && j <= |t| && Lower(t[i..j]) == text
  {}

  /** A final line break belongs to the last segment, so the `$` that would skip it changes
      nothing. */
  lemma DollarIsEnd(first: string, second: string, t: string, k: nat)
    requires t != [] && t[|t| - 1] == '\n' && StepsAt(first, second, t, k, |t| - 1)
    ensures StepsAt(first, second, t, k, |t|)
  {
    var y := k + |second|;
    assert t[y..] == t[y..|t| - 1] + ['\n'];
    assert t[y..|t|] == t[y..];
  }

  lemma FullMatchMeaning(r: Regex, t: string)
    ensures FullMatch(r, t) <==>
      Matches(r, t, 0, |t|) || (t != [] && t[|t| - 1] == '\n' && Matches(r, t, 0, |t| - 1))
  {
    EndsExact(r, t, 0, |t|);
    if t != [] { EndsExact(r, t, 0, |t| - 1); }
  }

  lemma TwoStepsFullMatch(first: string, second: string, t: string)
    ensures FullMatch(TwoSteps(first, second), t) <==> exists k: nat :: StepsAt(first, second, t, k, |t|)
  {
    FullMatchMeaning(TwoSteps(first, second), t);
    TwoStepsMeaning(first, second, t, |t|);
    if t != [] && t[|t| - 1] == '\n' {
      var e: nat := |t| - 1;
      TwoStepsMeaning(first, second, t, e);
      if Matches(TwoSteps(first, second), t, 0, e) {
        var k: nat :| StepsAt(first, second, t, k, e);
        DollarIsEnd(first, second, t, k);
        assert StepsAt(first, second, t, k, |t|);
      }
    }
  }

  lemma GroupScopeSteps(t: string)
    ensures IsGroupScope(Some(t)) <==> exists k: nat :: StepsAt(SUBSCRIPTIONS, RESOURCE_GROUPS, t, k, |t|)
  {
    TwoStepsFullMatch(SUBSCRIPTIONS, RESOURCE_GROUPS, t);
    forall k: nat | StepsAt(SUBSCRIPTIONS, RESOURCE_GROUPS, t, k, |t|) ensures t != [] {}
    assert GroupScopePattern() == TwoSteps(SUBSCRIPTIONS, RESOURCE_GROUPS);
    assert t != [] ==> (IsGroupScope(Some(t)) <==> FullMatch(TwoSteps(SUBSCRIPTIONS, RESOURCE_GROUPS), t));
  }

  /** The id of a resource group: four segments, named as ARM names them, in any casing. */
  ghost predicate GroupSegments(s: seq<string>) {
    |s| == 4 && Segments(s) && Lower(s[0]) == "subscriptions" && Lower(s[2]) == "resourcegroups"
  }

  lemma FourSegments(s: seq<string>)
    requires |s| == 4
    ensures Path(s) == "/" + s[0] + "/" + s[1] + "/" + s[2] + "/" + s[3]
  {
    assert s[1..][1..] == s[2..] && s[2..][1..] == s[3..] && s[3..][1..] == [];
    assert Path(s[3..]) == "/" + s[3] + [];
    assert Path(s[2..]) == "/" + s[2] + Path(s[3..]);
    assert Path(s[1..]) == "/" + s[1] + Path(s[2..]);
  }

  /** A literal that names a segment between slashes. */
  lemma NamedLiteral(name: string, text: string)
    requires '/' !in name
    ensures Lower(text) == "/" + name + "/" <==>
      |text| == |name| + 2 && text[0] == '/' && text[|name| + 1] == '/' && Lower(text[1..|name| + 1]) == name
  {
    if |text| == |name| + 2 {
      var inner := text[1..|name| + 1];
      assert text == [text[0]] + inner + [text[|name| + 1]];
      LowerOfConcat([text[0]] + inner, [text[|name| + 1]]);
      LowerOfConcat([text[0]], inner);
      var low := "/" + name + "/";
      assert low[1..|name| + 1] == name && Lower(text)[1..|name| + 1] == Lower(inner);
      assert low[0] == '/' && low[|name| + 1] == '/';
    }
  }

  lemma ScopeNames()
    ensures SUBSCRIPTIONS == "/" + "subscriptions" + "/" && |SUBSCRIPTIONS| == 15 && '/' !in "subscriptions"
  {
    assert forall k :: 0 <= k < 13 ==> "subscriptions"[k] != '/';
  }

  lemma StepsOfSegments(s: seq<string>)
    requires GroupSegments(s)
    ensures StepsAt(SUBSCRIPTIONS, RESOURCE_GROUPS, Path(s), 15 + |s[1]|, |Path(s)|)
  {
    ScopeNames();
    GroupsName();
    FourSegments(s);
    var k := 15 + |s[1]|;
    var first, second := "/" + s[0] + "/", "/" + s[2] + "/";
    assert |s[0]| == |Lower(s[0])| == 13 && |s[2]| == |Lower(s[2])| == 14;
    NamedLiteral("subscriptions", first);
    NamedLiteral("resourcegroups", second);
    assert first[1..14] == s[0] && second[1..15] == s[2];
    CutPieces(first, s[1], second, s[3], Path(s));
  }

  lemma CutPieces(a: string, b: string, c: string, d: string, t: string)
    requires t == a + b + c + d
    ensures t[..|a|] == a && t[|a|..|a| + |b|] == b
    ensures t[|a| + |b|..|a| + |b| + |c|] == c && t[|a| + |b| + |c|..|t|] == d
  {}

  /** A text cut into the four segments between its slashes. */
  lemma CutInFour(t: string, k: nat) returns (s: seq<string>)
    requires 15 < k && k + 16 < |t| && t[0] == t[14] == t[k] == t[k + 15] == '/'
    ensures s == [t[1..14], t[15..k], t[k + 1..k + 15], t[k + 16..]] && t == Path(s)
  {
    s := [t[1..14], t[15..k], t[k + 1..k + 15], t[k + 16..]];
    FourSegments(s);
  }

  lemma SegmentsOfSteps(t: string, k: nat) returns (s: seq<string>)
    requires StepsAt(SUBSCRIPTIONS, RESOURCE_GROUPS, t, k, |t|)
    ensures GroupSegments(s) && t == Path(s)
  {
    ScopeNames();
    GroupsName();
    var a, c := t[..15], t[k..k + 16];
    NamedLiteral("subscriptions", a);
    NamedLiteral("resourcegroups", c);
    s := CutInFour(t, k);
    assert a[1..14] == s[0] && c[1..15] == s[2];
    assert t[k + 16..|t|] == s[3];
    LowerKeepsSlashes(s[0]);
    LowerKeepsSlashes(s[2]);
  }

  /** `is_resource_group_scope` accepts exactly the ids of resource groups. */
  lemma GroupScopeExact(t: string)
    ensures IsGroupScope(Some(t)) <==> exists s :: GroupSegments(s) && t == Path(s)
  {
    GroupScopeSteps(t);
    if IsGroupScope(Some(t)) {
      var k: nat :| StepsAt(SUBSCRIPTIONS, RESOURCE_GROUPS, t, k, |t|);
      var s := SegmentsOfSteps(t, k);
    }
    forall s | GroupSegments(s) && t == Path(s) ensures IsGroupScope(Some(t)) { StepsOfSegments(s); }
  }
}
