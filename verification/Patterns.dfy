/** The part of Python's `re` that this tool uses: `Matches` says what a pattern means, and
    `Ends` is the backtracking matcher, its ends in the order `re` would try them. */
module Patterns {
  import opened Text

  // ----- character classes -----

  datatype CharSet =
    | Chars(members: string)
    | Range(lo: char, hi: char)
    | Either(first: CharSet, second: CharSet)
    | Not(inner: CharSet)
    | Space
  {
    predicate Has(c: char) {
      match this
      case Chars(members) => c in members
      case Range(lo, hi) => lo <= c <= hi
      case Either(first, second) => first.Has(c) || second.Has(c)
      case Not(inner) => !inner.Has(c)
      case Space => IsSpace(c)
    }
  }

  const DIGIT := Range('0', '9')

  const HEX_LOWER := Either(DIGIT, Range('a', 'f'))

  // ----- patterns -----

  /** `Literal(text, true)` is a literal under `re.IGNORECASE`, its text given in lower
      case; `Repeat(body, min, None)` has no upper bound. */
  datatype Regex =
    | Literal(text: string, fold: bool)
    | OneOf(chars: CharSet)
    | Cat(left: Regex, right: Regex)
    | Alt(left: Regex, right: Regex)
    | Repeat(body: Regex, min: nat, max: Option<nat>)
    | WordBoundary
  {
    /** The pattern followed by another. */
    function Then(next: Regex): Regex { Cat(this, next) }

    function Or(other: Regex): Regex { Alt(this, other) }
  }

  function Fold(fold: bool, s: string): string { if fold then Lower(s) else s }

  /** `\b` */
  predicate AtBoundary(t: string, i: nat)
    requires i <= |t|
  {
    (i > 0 && IsWord(t[i - 1])) != (i < |t| && IsWord(t[i]))
  }

  predicate MayStop(min: nat) { min == 0 }

  predicate MayGoOn(max: Option<nat>) { max == None || max.value > 0 }

  function OneLess(max: Option<nat>): Option<nat>
    requires MayGoOn(max)
  {
    if max == None then None else Some(max.value - 1)
  }

  function Pred(n: nat): nat { if n == 0 then 0 else n - 1 }

  predicate WithinMax(n: nat, max: Option<nat>) { max == None || n <= max.value }

  // ----- what a pattern means -----

  /** `r` matches `t[i..j]`, seen where it stands in `t`. */
  ghost predicate Matches(r: Regex, t: string, i: nat, j: nat)
    decreases r, 0
  {
    i <= j <= |t| &&
    match r
    case Literal(text, fold) => j == i + |text| && Fold(fold, t[i..j]) == text
    case OneOf(chars) => j == i + 1 && chars.Has(t[i])
    case Cat(a, b) => exists k: nat :: Matches(a, t, i, k) && Matches(b, t, k, j)
    case Alt(a, b) => Matches(a, t, i, j) || Matches(b, t, i, j)
    case Repeat(body, min, max) =>
      exists n: nat :: min <= n && WithinMax(n, max) && MatchesTimes(body, n, t, i, j)
    case WordBoundary => i == j && AtBoundary(t, i)
  }

  /** `n` matches of `r`, one after the other. */
  ghost predicate MatchesTimes(r: Regex, n: nat, t: string, i: nat, j: nat)
    decreases r, n + 1
  {
    if n == 0 then i == j <= |t|
    else exists k: nat :: Matches(r, t, i, k) && MatchesTimes(r, n - 1, t, k, j)
  }

  ghost predicate MatchesSomewhere(r: Regex, t: string) {
    exists i: nat, j: nat :: Matches(r, t, i, j)
  }

  // ----- the backtracking matcher -----

  ghost predicate AllBetween(ends: seq<nat>, low: int, high: int) {
    forall k :: 0 <= k < |ends| ==> low <= ends[k] <= high
  }

  function Ends(r: Regex, t: string, i: nat): (ends: seq<nat>)
    requires i <= |t|
    ensures AllBetween(ends, i, |t|)
    decreases r, 1, 0, 0, 0, 0
  {
    match r
    case Literal(text, fold) =>
      if i + |text| <= |t| && Fold(fold, t[i..i + |text|]) == text then [i + |text|] else []
    case OneOf(chars) => if i < |t| && chars.Has(t[i]) then [i + 1] else []
    case Cat(a, b) => EndsFromAll(b, t, i, Ends(a, t, i))
    case Alt(a, b) => Ends(a, t, i) + Ends(b, t, i)
    case Repeat(body, min, max) => RepeatEnds(body, min, max, t, i)
    case WordBoundary => if AtBoundary(t, i) then [i] else []
  }

  function EndsFromAll(r: Regex, t: string, low: nat, starts: seq<nat>): (ends: seq<nat>)
    requires AllBetween(starts, low, |t|)
    ensures AllBetween(ends, low, |t|)
    decreases r, 2, 0, 0, 0, |starts|
  {
    if starts == [] then []
    else Ends(r, t, starts[0]) + EndsFromAll(r, t, low, starts[1..])
  }

  /** Greedy repetition: while rounds are owed any match will do; after that a round must
      consume something, and stopping here comes last. */
  function RepeatEnds(r: Regex, min: nat, max: Option<nat>, t: string, i: nat): (ends: seq<nat>)
    requires i <= |t|
    ensures AllBetween(ends, i, |t|)
    decreases r, 3, min, |t| - i, 1, 0
  {
    if !MayGoOn(max) then
      (if MayStop(min) then [i] else [])
    else if min > 0 then
      RepeatFromAll(r, min - 1, OneLess(max), t, i, |t| + 1, Ends(r, t, i))
    else
      RepeatFromAll(r, 0, OneLess(max), t, i, |t| - i, Beyond(i, |t|, Ends(r, t, i))) + [i]
  }

  function RepeatFromAll(r: Regex, min: nat, max: Option<nat>, t: string, low: nat, room: nat,
      starts: seq<nat>): (ends: seq<nat>)
    requires AllBetween(starts, low, |t|) && AllBetween(starts, |t| + 1 - room, |t|)
    ensures AllBetween(ends, low, |t|)
    decreases r, 3, min, room, 0, |starts|
  {
    if starts == [] then []
    else RepeatEnds(r, min, max, t, starts[0]) + RepeatFromAll(r, min, max, t, low, room, starts[1..])
  }

  /** The ends after `i`: a round that consumes nothing is not tried again. */
  function Beyond(i: nat, high: nat, ends: seq<nat>): (kept: seq<nat>)
    requires AllBetween(ends, i, high)
    ensures AllBetween(kept, i + 1, high)
    ensures forall e: nat :: e in kept <==> e in ends && e > i
  {
    if ends == [] then []
    else (if ends[0] > i then [ends[0]] else []) + Beyond(i, high, ends[1..])
  }

  // ----- the matcher is sound and complete -----

  lemma {:induction false} FromAllExact(r: Regex, t: string, low: nat, starts: seq<nat>, e: nat)
    requires AllBetween(starts, low, |t|)
    ensures e in EndsFromAll(r, t, low, starts)
      <==> exists k :: 0 <= k < |starts| && e in Ends(r, t, starts[k])
  {
    if starts != [] {
      var rest := starts[1..];
      FromAllExact(r, t, low, rest, e);
      forall k | 0 <= k < |rest| ensures starts[k + 1] == rest[k] {}
      forall k | 1 <= k < |starts| ensures starts[k] == rest[k - 1] {}
      assert e in EndsFromAll(r, t, low, starts)
        <==> e in Ends(r, t, starts[0]) || e in EndsFromAll(r, t, low, rest);
    }
  }

  lemma {:induction false} RepeatFromAllExact(r: Regex, min: nat, max: Option<nat>, t: string,
      low: nat, room: nat, starts: seq<nat>, e: nat)
    requires AllBetween(starts, low, |t|) && AllBetween(starts, |t| + 1 - room, |t|)
    ensures e in RepeatFromAll(r, min, max, t, low, room, starts)
      <==> exists k :: 0 <= k < |starts| && e in RepeatEnds(r, min, max, t, starts[k])
  {
    if starts != [] {
      var rest := starts[1..];
      RepeatFromAllExact(r, min, max, t, low, room, rest, e);
      forall k | 0 <= k < |rest| ensures starts[k + 1] == rest[k] {}
      forall k | 1 <= k < |starts| ensures starts[k] == rest[k - 1] {}
      assert e in RepeatFromAll(r, min, max, t, low, room, starts)
        <==> e in RepeatEnds(r, min, max, t, starts[0]) || e in RepeatFromAll(r, min, max, t, low, room, rest);
    }
  }

  lemma MatchesInRange(r: Regex, t: string, i: nat, j: nat)
    requires Matches(r, t, i, j)
    ensures i <= j <= |t|
  {}

  lemma {:induction false} TimesInRange(r: Regex, n: nat, t: string, i: nat, j: nat)
    requires MatchesTimes(r, n, t, i, j)
    ensures i <= j <= |t|
  {
    if n > 0 {
      var k: nat :| Matches(r, t, i, k) && MatchesTimes(r, n - 1, t, k, j);
      TimesInRange(r, n - 1, t, k, j);
    }
  }

  /** Rounds that consume nothing can be left out, so a repetition that gets anywhere has a
      first round that moves. */
  lemma {:induction false} FirstMovingRound(r: Regex, n: nat, t: string, i: nat, j: nat) returns (k: nat, m: nat)
    requires MatchesTimes(r, n, t, i, j) && i < j
    ensures i < k && m < n && Matches(r, t, i, k) && MatchesTimes(r, m, t, k, j)
  {
    k :| Matches(r, t, i, k) && MatchesTimes(r, n - 1, t, k, j);
    m := n - 1;
    if k == i { k, m := FirstMovingRound(r, n - 1, t, i, j); }
  }

  /** The backtracking matcher reaches exactly the ends the pattern's meaning allows. */
  lemma {:induction false} EndsExact(r: Regex, t: string, i: nat, j: nat)
    requires i <= |t|
    ensures j in Ends(r, t, i) <==> Matches(r, t, i, j)
    decreases r, 1, 0, 0
  {
    match r
    case Literal(text, fold) =>
    case OneOf(chars) =>
    case WordBoundary =>
    case Alt(a, b) =>
      EndsExact(a, t, i, j);
      EndsExact(b, t, i, j);
    case Cat(a, b) =>
      FromAllExact(b, t, i, Ends(a, t, i), j);
      forall k: nat | k <= |t|
        ensures (k in Ends(a, t, i) && j in Ends(b, t, k)) <==> (Matches(a, t, i, k) && Matches(b, t, k, j))
      {
        EndsExact(a, t, i, k);
        EndsExact(b, t, k, j);
      }
    case Repeat(body, min, max) =>
      RepeatExact(body, min, max, t, i, j);
  }

  lemma {:induction false} RepeatExact(r: Regex, min: nat, max: Option<nat>, t: string, i: nat, j: nat)
    requires i <= |t|
    ensures j in RepeatEnds(r, min, max, t, i)
      <==> exists n: nat :: min <= n && WithinMax(n, max) && MatchesTimes(r, n, t, i, j)
    decreases r, 2, min, |t| - i
  {
    if j in RepeatEnds(r, min, max, t, i) {
      RepeatSound(r, min, max, t, i, j);
    }
    if exists n: nat :: min <= n && WithinMax(n, max) && MatchesTimes(r, n, t, i, j) {
      var n: nat :| min <= n && WithinMax(n, max) && MatchesTimes(r, n, t, i, j);
      RepeatComplete(r, min, max, t, i, j, n);
    }
  }

  /** A repetition that may take no more rounds, one that owes some, and one that may stop. */
  lemma RepeatUnfolds(r: Regex, min: nat, max: Option<nat>, t: string, i: nat)
    requires i <= |t|
    ensures !MayGoOn(max) ==> RepeatEnds(r, min, max, t, i) == if MayStop(min) then [i] else []
    ensures MayGoOn(max) && min > 0 ==>
      RepeatEnds(r, min, max, t, i) == RepeatFromAll(r, min - 1, OneLess(max), t, i, |t| + 1, Ends(r, t, i))
    ensures MayGoOn(max) && min == 0 ==>
      RepeatEnds(r, min, max, t, i)
        == RepeatFromAll(r, 0, OneLess(max), t, i, |t| - i, Beyond(i, |t|, Ends(r, t, i))) + [i]
  {}

  lemma MoreRounds(r: Regex, n: nat, t: string, i: nat, k: nat, j: nat)
    requires Matches(r, t, i, k) && MatchesTimes(r, n, t, k, j)
    ensures MatchesTimes(r, n + 1, t, i, j)
  {}

  lemma NoRounds(r: Regex, t: string, i: nat)
    requires i <= |t|
    ensures MatchesTimes(r, 0, t, i, i)
  {}

  lemma {:induction false} RepeatSound(r: Regex, min: nat, max: Option<nat>, t: string, i: nat, j: nat)
    requires i <= |t| && j in RepeatEnds(r, min, max, t, i)
    ensures exists n: nat :: min <= n && WithinMax(n, max) && MatchesTimes(r, n, t, i, j)
    decreases r, 1, min, |t| - i
  {
    hide Ends;
    hide RepeatEnds;
    hide RepeatFromAll;
    hide Matches;
    hide MatchesTimes;
    RepeatUnfolds(r, min, max, t, i);
    if MayStop(min) && j == i {
      NoRounds(r, t, i);
    } else {
      var owed := min > 0;
      var starts := if owed then Ends(r, t, i) else Beyond(i, |t|, Ends(r, t, i));
      var room := if owed then |t| + 1 else |t| - i;
      RepeatFromAllExact(r, Pred(min), OneLess(max), t, i, room, starts, j);
      var x :| 0 <= x < |starts| && j in RepeatEnds(r, Pred(min), OneLess(max), t, starts[x]);
      var k := starts[x];
      assert k in Ends(r, t, i);
      EndsExact(r, t, i, k);
      RepeatSound(r, Pred(min), OneLess(max), t, k, j);
      var n: nat :| Pred(min) <= n && WithinMax(n, OneLess(max)) && MatchesTimes(r, n, t, k, j);
      MoreRounds(r, n, t, i, k, j);
    }
  }

  lemma {:induction false} RepeatComplete(r: Regex, min: nat, max: Option<nat>, t: string, i: nat, j: nat, n: nat)
    requires i <= |t|
    requires min <= n && WithinMax(n, max) && MatchesTimes(r, n, t, i, j)
    ensures j in RepeatEnds(r, min, max, t, i)
    decreases r, 1, min, |t| - i
  {
    hide Ends;
    hide RepeatEnds;
    hide RepeatFromAll;
    hide Matches;
    hide MatchesTimes;
    TimesInRange(r, n, t, i, j);
    RepeatUnfolds(r, min, max, t, i);
    if min > 0 {
      var k := FirstRound(r, n, t, i, j);
      var starts := Ends(r, t, i);
      EndsExact(r, t, i, k);
      RepeatComplete(r, min - 1, OneLess(max), t, k, j, n - 1);
      var x :| 0 <= x < |starts| && starts[x] == k;
      RepeatFromAllExact(r, min - 1, OneLess(max), t, i, |t| + 1, starts, j);
    } else if i < j {
      RepeatCompleteMoving(r, max, t, i, j, n);
    }
  }

  lemma {:induction false} RepeatCompleteMoving(r: Regex, max: Option<nat>, t: string, i: nat, j: nat, n: nat)
    requires i <= |t| && i < j
    requires WithinMax(n, max) && MatchesTimes(r, n, t, i, j)
    ensures j in RepeatEnds(r, 0, max, t, i)
    decreases r, 1, 0, |t| - i, 0
  {
    hide Ends;
    hide RepeatEnds;
    hide RepeatFromAll;
    hide Matches;
    hide MatchesTimes;
    var k, m := FirstMovingRound(r, n, t, i, j);
    var starts := Beyond(i, |t|, Ends(r, t, i));
    EndsExact(r, t, i, k);
    RepeatComplete(r, 0, OneLess(max), t, k, j, m);
    var x :| 0 <= x < |starts| && starts[x] == k;
    RepeatFromAllExact(r, 0, OneLess(max), t, i, |t| - i, starts, j);
    RepeatUnfolds(r, 0, max, t, i);
  }

  // ----- search, findall, sub -----

  /** The match `re` reports at position `i`, if any: the first end the matcher lists. */
  function MatchAt(r: Regex, t: string, i: nat): (found: Option<nat>)
    requires i <= |t|
    ensures found.Some? ==> i <= found.value <= |t|
  {
    var ends := Ends(r, t, i);
    if ends == [] then None else Some(ends[0])
  }

  lemma MatchAtExact(r: Regex, t: string, i: nat)
    requires i <= |t|
    ensures MatchAt(r, t, i).Some? <==> exists j: nat :: Matches(r, t, i, j)
    ensures MatchAt(r, t, i).Some? ==> Matches(r, t, i, MatchAt(r, t, i).value)
  {
    var ends := Ends(r, t, i);
    if ends != [] { EndsExact(r, t, i, ends[0]); }
    forall j: nat | Matches(r, t, i, j) ensures ends != [] { EndsExact(r, t, i, j); }
  }

  datatype Span = Span(start: nat, end: nat)

  /** `pattern.search(t)`, looking from position `i`: the leftmost match. */
  function Search(r: Regex, t: string, i: nat): (found: Option<Span>)
    requires i <= |t|
    ensures found.Some? ==> i <= found.value.start <= found.value.end <= |t|
    decreases |t| - i
  {
    var here := MatchAt(r, t, i);
    if here.Some? then Some(Span(i, here.value))
    else if i == |t| then None
    else Search(r, t, i + 1)
  }

  lemma {:induction false} SearchIsLeftmost(r: Regex, t: string, i: nat)
    requires i <= |t|
    ensures Search(r, t, i).Some? ==>
      var m := Search(r, t, i).value;
      && Matches(r, t, m.start, m.end)
      && (forall p: nat, q: nat :: i <= p < m.start ==> !Matches(r, t, p, q))
    ensures Search(r, t, i) == None ==> forall p: nat, q: nat :: i <= p ==> !Matches(r, t, p, q)
    decreases |t| - i
  {
    MatchAtExact(r, t, i);
    if MatchAt(r, t, i) == None && i < |t| { SearchIsLeftmost(r, t, i + 1); }
  }

  /** `bool(pattern.search(t))` */
  predicate Found(r: Regex, t: string) { Search(r, t, 0).Some? }

  lemma FoundExact(r: Regex, t: string)
    ensures Found(r, t) <==> MatchesSomewhere(r, t)
  {
    SearchIsLeftmost(r, t, 0);
  }

  /** `pattern.findall(t)` from position `i`, for a pattern that never matches nothing: the
      spans `re` reports, left to right, each search starting where the last match ended. */
  function FindAll(r: Regex, t: string, i: nat): (spans: seq<Span>)
    requires i <= |t|
    ensures forall k :: 0 <= k < |spans| ==> i <= spans[k].start < spans[k].end <= |t|
    decreases |t| - i
  {
    if i == |t| then []
    else
      var here := MatchAt(r, t, i);
      if here.Some? && here.value > i then [Span(i, here.value)] + FindAll(r, t, here.value)
      else FindAll(r, t, i + 1)
  }

  /** `pattern.sub('', t)` from position `i`, for a pattern that never matches nothing. */
  function Remove(r: Regex, t: string, i: nat): string
    requires i <= |t|
    decreases |t| - i
  {
    if i == |t| then []
    else
      var here := MatchAt(r, t, i);
      if here.Some? && here.value > i then Remove(r, t, here.value)
      else [t[i]] + Remove(r, t, i + 1)
  }

  // ----- reading composed patterns -----

  lemma CatOf(r: Regex, t: string, i: nat, k: nat, j: nat)
    requires r.Cat? && Matches(r.left, t, i, k) && Matches(r.right, t, k, j)
    ensures Matches(r, t, i, j)
  {}

  lemma CatParts(r: Regex, t: string, i: nat, j: nat) returns (k: nat)
    requires r.Cat? && Matches(r, t, i, j)
    ensures i <= k <= j && Matches(r.left, t, i, k) && Matches(r.right, t, k, j)
  {
    k :| Matches(r.left, t, i, k) && Matches(r.right, t, k, j);
  }

  /** The first round of a repetition. */
  lemma FirstRound(r: Regex, n: nat, t: string, i: nat, j: nat) returns (k: nat)
    requires n > 0 && MatchesTimes(r, n, t, i, j)
    ensures Matches(r, t, i, k) && MatchesTimes(r, n - 1, t, k, j)
  {
    k :| Matches(r, t, i, k) && MatchesTimes(r, n - 1, t, k, j);
  }

  ghost predicate AllIn(chars: CharSet, t: string, i: nat, j: nat)
    requires i <= j <= |t|
  {
    forall k :: i <= k < j ==> chars.Has(t[k])
  }

  lemma {:induction false} TimesOfClass(chars: CharSet, n: nat, t: string, i: nat, j: nat)
    ensures MatchesTimes(OneOf(chars), n, t, i, j) <==> i + n == j <= |t| && AllIn(chars, t, i, j)
  {
    if n > 0 {
      if MatchesTimes(OneOf(chars), n, t, i, j) {
        var k := FirstRound(OneOf(chars), n, t, i, j);
        TimesOfClass(chars, n - 1, t, k, j);
      }
      if i + n == j <= |t| && AllIn(chars, t, i, j) {
        TimesOfClass(chars, n - 1, t, i + 1, j);
        assert Matches(OneOf(chars), t, i, i + 1);
      }
    }
  }

  /** A repeated class matches exactly the runs of its characters of an allowed length. */
  lemma RunMeaning(chars: CharSet, min: nat, max: Option<nat>, t: string, i: nat, j: nat)
    ensures Matches(Repeat(OneOf(chars), min, max), t, i, j)
      <==> i + min <= j <= |t| && WithinMax(j - i, max) && AllIn(chars, t, i, j)
  {
    var body := OneOf(chars);
    if Matches(Repeat(body, min, max), t, i, j) {
      var n: nat :| min <= n && WithinMax(n, max) && MatchesTimes(body, n, t, i, j);
      TimesOfClass(chars, n, t, i, j);
    }
    if i + min <= j <= |t| && WithinMax(j - i, max) && AllIn(chars, t, i, j) {
      TimesOfClass(chars, j - i, t, i, j);
    }
  }

  // ----- greedy runs -----

  lemma {:induction false} FirstOfAll(r: Regex, t: string, low: nat, starts: seq<nat>)
    requires AllBetween(starts, low, |t|)
    requires EndsFromAll(r, t, low, starts) != []
    ensures exists k :: (0 <= k < |starts| && Ends(r, t, starts[k]) != []
      && EndsFromAll(r, t, low, starts)[0] == Ends(r, t, starts[k])[0])
  {
    if Ends(r, t, starts[0]) == [] {
      var rest := starts[1..];
      FirstOfAll(r, t, low, rest);
      var k :| 0 <= k < |rest| && Ends(r, t, rest[k]) != []
        && EndsFromAll(r, t, low, rest)[0] == Ends(r, t, rest[k])[0];
      assert starts[k + 1] == rest[k];
    }
  }

  /** The longest run of `chars` from `i`, of at most `max` characters. */
  function RunEnd(chars: CharSet, max: Option<nat>, t: string, i: nat): (e: nat)
    requires i <= |t|
    ensures i <= e <= |t| && WithinMax(e - i, max) && AllIn(chars, t, i, e)
    ensures e == |t| || !chars.Has(t[e]) || max == Some(e - i)
    decreases |t| - i
  {
    if i < |t| && MayGoOn(max) && chars.Has(t[i]) then RunEnd(chars, OneLess(max), t, i + 1) else i
  }

  lemma {:induction false} RunEndIs(chars: CharSet, t: string, i: nat, j: nat)
    requires i <= j <= |t| && AllIn(chars, t, i, j) && (j == |t| || !chars.Has(t[j]))
    ensures RunEnd(chars, None, t, i) == j
    decreases j - i
  {
    if i < j { RunEndIs(chars, t, i + 1, j); }
  }

  lemma RepeatFromOne(r: Regex, min: nat, max: Option<nat>, t: string, low: nat, room: nat, s: nat)
    requires low <= s <= |t| && |t| + 1 - room <= s
    ensures RepeatFromAll(r, min, max, t, low, room, [s]) == RepeatEnds(r, min, max, t, s)
  {
    hide RepeatEnds;
    assert RepeatFromAll(r, min, max, t, low, room, [s][1..]) == [];
  }

  lemma BeyondNext(i: nat, high: nat)
    requires i <= high
    ensures Beyond(i, high, []) == [] && (i < high ==> Beyond(i, high, [i + 1]) == [i + 1])
  {
    if i < high { assert Beyond(i, high, [i + 1][1..]) == []; }
  }

  lemma RunEndStep(chars: CharSet, max: Option<nat>, t: string, i: nat)
    requires i <= |t|
    ensures RunEnd(chars, max, t, i)
      == if i < |t| && MayGoOn(max) && chars.Has(t[i]) then RunEnd(chars, OneLess(max), t, i + 1) else i
  {}

  /** A greedy run takes all it can. */
  lemma {:induction false} RunIsGreedy(chars: CharSet, min: nat, max: Option<nat>, t: string, i: nat)
    requires i <= |t|
    ensures RepeatEnds(OneOf(chars), min, max, t, i) != [] ==>
      RepeatEnds(OneOf(chars), min, max, t, i)[0] == RunEnd(chars, max, t, i)
    ensures RepeatEnds(OneOf(chars), min, max, t, i) != [] <==> i + min <= RunEnd(chars, max, t, i)
    decreases |t| - i
  {
    hide Ends;
    hide RepeatEnds;
    hide RepeatFromAll;
    hide RunEnd;
    hide Beyond;
    hide CharSet.Has;
    RunEndStep(chars, max, t, i);
    EndsUnfold(OneOf(chars), t, i);
    BeyondNext(i, |t|);
    RepeatUnfolds(OneOf(chars), min, max, t, i);
    if MayGoOn(max) {
      var room := if min > 0 then |t| + 1 else |t| - i;
      if i < |t| { RepeatFromOne(OneOf(chars), Pred(min), OneLess(max), t, i, room, i + 1); }
      NoStarts(OneOf(chars), Pred(min), OneLess(max), t, i, room);
      if i < |t| && chars.Has(t[i]) {
        RunIsGreedy(chars, Pred(min), OneLess(max), t, i + 1);
      }
    }
  }

  lemma NoStarts(r: Regex, min: nat, max: Option<nat>, t: string, low: nat, room: nat)
    ensures RepeatFromAll(r, min, max, t, low, room, []) == []
  {}

  /** A literal and then a greedy run: where it matches and what the match takes. */
  lemma LiteralRunAt(r: Regex, chars: CharSet, min: nat, max: Option<nat>, t: string, i: nat)
    requires i <= |t| && r.Cat? && r.left.Literal? && r.right == Repeat(OneOf(chars), min, max)
    ensures var k := i + |r.left.text|;
      MatchAt(r, t, i) ==
        if k <= |t| && Fold(r.left.fold, t[i..k]) == r.left.text && RunEnd(chars, max, t, k) >= k + min
        then Some(RunEnd(chars, max, t, k)) else None
  {
    hide Ends;
    hide EndsFromAll;
    hide RepeatEnds;
    hide RunEnd;
    hide Fold;
    EndsUnfold(r, t, i);
    EndsUnfold(r.left, t, i);
    var k := i + |r.left.text|;
    if Ends(r.left, t, i) != [] {
      SingleStart(r.right, t, i, k);
      EndsUnfold(r.right, t, k);
      RunIsGreedy(chars, min, max, t, k);
    } else {
      SingleStart(r.right, t, i, i);
    }
  }

  lemma EndsUnfold(r: Regex, t: string, i: nat)
    requires i <= |t|
    ensures r.OneOf? ==> Ends(r, t, i) == if i < |t| && r.chars.Has(t[i]) then [i + 1] else []
    ensures r.Literal? ==>
      Ends(r, t, i) == if i + |r.text| <= |t| && Fold(r.fold, t[i..i + |r.text|]) == r.text then [i + |r.text|] else []
    ensures r.Cat? ==> Ends(r, t, i) == EndsFromAll(r.right, t, i, Ends(r.left, t, i))
    ensures r.Repeat? ==> Ends(r, t, i) == RepeatEnds(r.body, r.min, r.max, t, i)
  {}

  lemma SingleStart(r: Regex, t: string, low: nat, s: nat)
    requires low <= s <= |t|
    ensures EndsFromAll(r, t, low, []) == [] && EndsFromAll(r, t, low, [s]) == Ends(r, t, s)
  {
    assert EndsFromAll(r, t, low, [s][1..]) == [];
  }

  // ----- a pattern without \b reads only what it matches -----

  ghost predicate Local(r: Regex) {
    match r
    case Literal(_, _) => true
    case OneOf(_) => true
    case Cat(a, b) => Local(a) && Local(b)
    case Alt(a, b) => Local(a) && Local(b)
    case Repeat(body, _, _) => Local(body)
    case WordBoundary => false
  }

  ghost predicate SameStretch(t: string, i: nat, j: nat, u: string, p: nat) {
    i <= j <= |t| && p + (j - i) <= |u| && t[i..j] == u[p..p + (j - i)]
  }

  lemma SplitStretch(t: string, i: nat, k: nat, j: nat, u: string, p: nat)
    requires i <= k <= j && SameStretch(t, i, j, u, p)
    ensures SameStretch(t, i, k, u, p) && SameStretch(t, k, j, u, p + (k - i))
  {
    var s, n := t[i..j], k - i;
    assert s == t[i..k] + t[k..j];
    assert s == u[p..p + n] + u[p + n..p + (j - i)];
    assert t[i..k] == s[..n] == u[p..p + n];
    assert t[k..j] == s[n..] == u[p + n..p + (j - i)];
  }

  lemma {:induction false} LocalMoves(r: Regex, t: string, i: nat, j: nat, u: string, p: nat)
    requires Local(r) && Matches(r, t, i, j) && SameStretch(t, i, j, u, p)
    ensures Matches(r, u, p, p + (j - i))
    decreases r, 0
  {
    match r
    case Literal(text, fold) =>
    case OneOf(chars) => assert t[i] == t[i..j][0] && u[p] == u[p..p + (j - i)][0];
    case Alt(a, b) =>
      if Matches(a, t, i, j) { LocalMoves(a, t, i, j, u, p); } else { LocalMoves(b, t, i, j, u, p); }
    case Cat(a, b) =>
      var k: nat :| Matches(a, t, i, k) && Matches(b, t, k, j);
      SplitStretch(t, i, k, j, u, p);
      LocalMoves(a, t, i, k, u, p);
      LocalMoves(b, t, k, j, u, p + (k - i));
    case Repeat(body, min, max) =>
      var n: nat :| min <= n && WithinMax(n, max) && MatchesTimes(body, n, t, i, j);
      LocalTimesMoves(body, n, t, i, j, u, p);
  }

  lemma {:induction false} LocalTimesMoves(r: Regex, n: nat, t: string, i: nat, j: nat, u: string, p: nat)
    requires Local(r) && MatchesTimes(r, n, t, i, j) && SameStretch(t, i, j, u, p)
    ensures MatchesTimes(r, n, u, p, p + (j - i))
    decreases r, n + 1
  {
    if n > 0 {
      var k: nat :| Matches(r, t, i, k) && MatchesTimes(r, n - 1, t, k, j);
      TimesInRange(r, n - 1, t, k, j);
      SplitStretch(t, i, k, j, u, p);
      LocalMoves(r, t, i, k, u, p);
      LocalTimesMoves(r, n - 1, t, k, j, u, p + (k - i));
    }
  }

  // ----- patterns that cannot match a given kind of character -----

  /** No match of `r` contains a character of `banned`. */
  ghost predicate Avoids(r: Regex, banned: CharSet) {
    match r
    case Literal(text, fold) =>
      forall c: char :: banned.Has(c) ==> (if fold then LowerChar(c) else c) !in text
    case OneOf(chars) => forall c: char :: banned.Has(c) ==> !chars.Has(c)
    case Cat(a, b) => Avoids(a, banned) && Avoids(b, banned)
    case Alt(a, b) => Avoids(a, banned) && Avoids(b, banned)
    case Repeat(body, _, _) => Avoids(body, banned)
    case WordBoundary => true
  }

  lemma {:induction false} AvoidsExact(r: Regex, banned: CharSet, t: string, i: nat, j: nat)
    requires Avoids(r, banned) && Matches(r, t, i, j)
    ensures AllIn(Not(banned), t, i, j)
    decreases r, 0
  {
    match r
    case Literal(text, fold) =>
      forall k | i <= k < j ensures !banned.Has(t[k]) {
        assert Fold(fold, t[i..j])[k - i] in text;
      }
    case OneOf(chars) =>
    case WordBoundary =>
    case Alt(a, b) =>
      if Matches(a, t, i, j) { AvoidsExact(a, banned, t, i, j); } else { AvoidsExact(b, banned, t, i, j); }
    case Cat(a, b) =>
      var k: nat :| Matches(a, t, i, k) && Matches(b, t, k, j);
      AvoidsExact(a, banned, t, i, k);
      AvoidsExact(b, banned, t, k, j);
    case Repeat(body, min, max) =>
      var n: nat :| min <= n && WithinMax(n, max) && MatchesTimes(body, n, t, i, j);
      AvoidsTimes(body, n, banned, t, i, j);
  }

  lemma {:induction false} AvoidsTimes(r: Regex, n: nat, banned: CharSet, t: string, i: nat, j: nat)
    requires Avoids(r, banned) && MatchesTimes(r, n, t, i, j)
    ensures i <= j <= |t| && AllIn(Not(banned), t, i, j)
    decreases r, n + 1
  {
    if n > 0 {
      var k: nat :| Matches(r, t, i, k) && MatchesTimes(r, n - 1, t, k, j);
      AvoidsExact(r, banned, t, i, k);
      AvoidsTimes(r, n - 1, banned, t, k, j);
    }
  }

  // ----- shortest match -----

  function MinLength(r: Regex): nat {
    match r
    case Literal(text, _) => |text|
    case OneOf(_) => 1
    case Cat(a, b) => MinLength(a) + MinLength(b)
    case Alt(a, b) => if MinLength(a) <= MinLength(b) then MinLength(a) else MinLength(b)
    case Repeat(body, min, _) => if min == 0 then 0 else MinLength(body)
    case WordBoundary => 0
  }

  lemma {:induction false} MinLengthHolds(r: Regex, t: string, i: nat, j: nat)
    requires Matches(r, t, i, j)
    ensures i + MinLength(r) <= j
  {
    match r
    case Literal(_, _) =>
    case OneOf(_) =>
    case WordBoundary =>
    case Alt(a, b) =>
      if Matches(a, t, i, j) { MinLengthHolds(a, t, i, j); } else { MinLengthHolds(b, t, i, j); }
    case Cat(a, b) =>
      var k := CatParts(r, t, i, j);
      MinLengthHolds(a, t, i, k);
      MinLengthHolds(b, t, k, j);
    case Repeat(body, min, max) =>
      if min > 0 {
        var n: nat :| min <= n && WithinMax(n, max) && MatchesTimes(body, n, t, i, j);
        var k := FirstRound(body, n, t, i, j);
        TimesInRange(body, n - 1, t, k, j);
        MinLengthHolds(body, t, i, k);
      }
  }
}
