/** ASCII text as Python's `str` methods see it: case folding (`lower`), white space (`strip`),
    searching (`find`), splitting and joining on one character, the part before or after the last
    occurrence of a character (`rsplit`, `rpartition`), and the order of code points in which
    `sorted` puts strings. The two result types every other module uses are declared here too. */
module Text {

  datatype Option<+T> = None | Some(value: T)

  datatype Result<+T, +E> = Ok(value: T) | Err(error: E)

  /** `xs or []` */
  function OrEmpty<T>(xs: Option<seq<T>>): seq<T> { match xs case None => [] case Some(s) => s }

  /** The truth value of a string that may be None. */
  predicate IsTruthy(s: Option<string>) { s.Some? && s.value != [] }

  // ----- characters -----

  predicate IsLower(c: char) { 'a' <= c <= 'z' }

  predicate IsUpper(c: char) { 'A' <= c <= 'Z' }

  predicate IsDigit(c: char) { '0' <= c <= '9' }

  predicate IsAlpha(c: char) { IsLower(c) || IsUpper(c) }

  /** `\w` */
  predicate IsWord(c: char) { IsAlpha(c) || IsDigit(c) || c == '_' }

  /** `str.isspace` and `\s`: besides the usual six, Python counts 0x1c to 0x1f. */
  predicate IsSpace(c: char) { 9 <= c as int <= 13 || 28 <= c as int <= 32 }

  function LowerChar(c: char): char {
    if IsUpper(c) then (c as int + 32) as char else c
  }

  // ----- case folding -----

  /** `str.lower` */
  function Lower(s: string): string {
    seq(|s|, i requires 0 <= i < |s| => LowerChar(s[i]))
  }

  lemma LowerOfConcat(s: string, t: string)
    ensures Lower(s + t) == Lower(s) + Lower(t)
  {}

  lemma LowerIdempotent(s: string)
    ensures Lower(Lower(s)) == Lower(s)
  {}

  // ----- searching -----

  /** `needle` stands in `hay` at position `i`. */
  predicate OccursAt(hay: string, needle: string, i: int) {
    0 <= i && i + |needle| <= |hay| && hay[i..i + |needle|] == needle
  }

  lemma OccursCharacter(hay: string, needle: string, i: int, k: int)
    requires OccursAt(hay, needle, i) && i <= k < i + |needle|
    ensures hay[k] == needle[k - i]
  {
    assert hay[i..i + |needle|][k - i] == hay[k];
  }

  ghost predicate Contains(hay: string, needle: string) {
    exists i :: OccursAt(hay, needle, i)
  }

  /** `hay.find(needle, start)`: the least position, or -1. */
  function FindFrom(hay: string, needle: string, start: nat): (r: int)
    ensures r == -1 || start <= r
    ensures r >= 0 ==> OccursAt(hay, needle, r)
    ensures r >= 0 ==> forall i :: start <= i < r ==> !OccursAt(hay, needle, i)
    ensures r == -1 ==> forall i :: start <= i ==> !OccursAt(hay, needle, i)
    decreases |hay| - start
  {
    if start + |needle| > |hay| then -1
    else if OccursAt(hay, needle, start) then start
    else FindFrom(hay, needle, start + 1)
  }

  function Find(hay: string, needle: string): (r: int)
    ensures r >= -1
    ensures r >= 0 ==> OccursAt(hay, needle, r)
    ensures r >= 0 ==> forall i :: 0 <= i < r ==> !OccursAt(hay, needle, i)
    ensures r == -1 <==> !Contains(hay, needle)
  {
    FindFrom(hay, needle, 0)
  }

  // ----- splitting -----

  /** `s.split(c)` for a one-character separator. */
  function Split(s: string, c: char): (parts: seq<string>)
    ensures |parts| >= 1
    ensures forall k :: 0 <= k < |parts| ==> c !in parts[k]
  {
    if s == [] then [[]]
    else
      var rest := Split(s[1..], c);
      if s[0] == c then [[]] + rest else [[s[0]] + rest[0]] + rest[1..]
  }

  /** `c.join(parts)` */
  function Join(parts: seq<string>, c: char): string {
    if parts == [] then []
    else if |parts| == 1 then parts[0]
    else parts[0] + [c] + Join(parts[1..], c)
  }

  lemma {:induction false} SplitWhole(s: string, c: char)
    requires c !in s
    ensures Split(s, c) == [s]
  {
    if s != [] {
      SplitWhole(s[1..], c);
      assert s == [s[0]] + s[1..];
    }
  }

  lemma {:induction false} SplitFirst(part: string, rest: string, c: char)
    requires c !in part
    ensures Split(part + [c] + rest, c) == [part] + Split(rest, c)
  {
    var s := part + [c] + rest;
    if part == [] {
      assert s[1..] == rest;
    } else {
      assert s[1..] == part[1..] + [c] + rest;
      SplitFirst(part[1..], rest, c);
      assert part == [part[0]] + part[1..];
    }
  }

  lemma {:induction false} SplitOfJoin(parts: seq<string>, c: char)
    requires parts != []
    requires forall k :: 0 <= k < |parts| ==> c !in parts[k]
    ensures Split(Join(parts, c), c) == parts
  {
    if |parts| == 1 {
      SplitWhole(parts[0], c);
    } else {
      SplitFirst(parts[0], Join(parts[1..], c), c);
      SplitOfJoin(parts[1..], c);
    }
  }

  lemma {:induction false} JoinOfSplit(s: string, c: char)
    ensures Join(Split(s, c), c) == s
  {
    if s != [] {
      var rest := Split(s[1..], c);
      JoinOfSplit(s[1..], c);
      var parts := Split(s, c);
      if s[0] == c {
        assert parts[1..] == rest;
        assert s == [s[0]] + s[1..];
      } else if |rest| == 1 {
        assert parts == [[s[0]] + rest[0]];
      } else {
        assert parts[1..] == rest[1..];
        assert s == [s[0]] + s[1..];
      }
    }
  }

  /** `s.rsplit(c, 1)[-1]`: what follows the last `c`, or all of `s`. */
  function AfterLast(s: string, c: char): string {
    if s == [] then []
    else if s[|s| - 1] == c then []
    else AfterLast(s[..|s| - 1], c) + [s[|s| - 1]]
  }

  lemma {:induction false} AfterLastPlain(s: string, c: char)
    requires c !in s
    ensures AfterLast(s, c) == s
  {
    if s != [] { AfterLastPlain(s[..|s| - 1], c); }
  }

  lemma {:induction false} AfterLastSuffix(s: string, tail: string, c: char)
    requires c !in tail
    ensures AfterLast(s + [c] + tail, c) == tail
  {
    var t := s + [c] + tail;
    if tail != [] {
      assert t[..|t| - 1] == s + [c] + tail[..|tail| - 1];
      AfterLastSuffix(s, tail[..|tail| - 1], c);
    }
  }

  /** `s.rsplit(c, 1)[0]`: what precedes the last `c`, or all of `s`. */
  function BeforeLast(s: string, c: char): string {
    if c in s then BeforeLastFound(s, c) else s
  }

  function BeforeLastFound(s: string, c: char): string
    requires c in s
  {
    if s[|s| - 1] == c then s[..|s| - 1] else BeforeLastFound(s[..|s| - 1], c)
  }

  lemma {:induction false} BeforeLastSuffix(s: string, tail: string, c: char)
    requires c !in tail
    ensures BeforeLast(s + [c] + tail, c) == s
  {
    var t := s + [c] + tail;
    assert t[|s|] == c;
    if tail != [] {
      var shorter := tail[..|tail| - 1];
      assert t[..|t| - 1] == s + [c] + shorter;
      assert (s + [c] + shorter)[|s|] == c;
      BeforeLastSuffix(s, shorter, c);
    }
  }

  // ----- trimming -----

  function StripLeft(s: string): string {
    if s != [] && IsSpace(s[0]) then StripLeft(s[1..]) else s
  }

  function StripRight(s: string): string {
    if s != [] && IsSpace(s[|s| - 1]) then StripRight(s[..|s| - 1]) else s
  }

  /** `s.strip()` */
  function Strip(s: string): string { StripRight(StripLeft(s)) }

  ghost predicate Trimmed(s: string) {
    s == [] || (!IsSpace(s[0]) && !IsSpace(s[|s| - 1]))
  }

  lemma {:induction false} StripLeftShape(s: string)
    ensures StripLeft(s) == [] || !IsSpace(StripLeft(s)[0])
    ensures exists k :: 0 <= k <= |s| && StripLeft(s) == s[k..]
  {
    if s != [] && IsSpace(s[0]) {
      StripLeftShape(s[1..]);
      var k :| 0 <= k <= |s[1..]| && StripLeft(s[1..]) == s[1..][k..];
      assert s[1..][k..] == s[k + 1..];
    } else {
      assert s == s[0..];
    }
  }

  lemma {:induction false} StripRightShape(s: string)
    ensures StripRight(s) <= s
    ensures StripRight(s) == [] || !IsSpace(StripRight(s)[|StripRight(s)| - 1])
  {
    if s != [] && IsSpace(s[|s| - 1]) { StripRightShape(s[..|s| - 1]); }
  }

  /** Trimming leaves no space at either end and only removes: every character that
      remains was there before. */
  lemma StripTrims(s: string)
    ensures Trimmed(Strip(s))
    ensures forall c :: c in Strip(s) ==> c in s
  {
    StripLeftShape(s);
    StripRightShape(StripLeft(s));
  }

  lemma StripFixesTrimmed(s: string)
    requires Trimmed(s)
    ensures Strip(s) == s
  {}

  predicate AllSpace(s: string) { forall k :: 0 <= k < |s| ==> IsSpace(s[k]) }

  lemma {:induction false} StripLeftDrops(s: string, w: string)
    requires AllSpace(s) && (w == [] || !IsSpace(w[0]))
    ensures StripLeft(s + w) == w
  {
    if s == [] {
      assert s + w == w;
    } else {
      assert (s + w)[1..] == s[1..] + w;
      StripLeftDrops(s[1..], w);
    }
  }

  lemma {:induction false} StripRightDrops(w: string, s: string)
    requires AllSpace(s) && (w == [] || !IsSpace(w[|w| - 1]))
    ensures StripRight(w + s) == w
  {
    if s == [] {
      assert w + s == w;
    } else {
      assert (w + s)[..|w + s| - 1] == w + s[..|s| - 1];
      StripRightDrops(w, s[..|s| - 1]);
    }
  }

  lemma {:induction false} StripLeftKeeps(s: string) returns (a: string)
    ensures AllSpace(a) && s == a + StripLeft(s)
  {
    if s != [] && IsSpace(s[0]) {
      a := StripLeftKeeps(s[1..]);
      a := [s[0]] + a;
    } else {
      a := [];
    }
  }

  lemma {:induction false} StripRightKeeps(s: string) returns (b: string)
    ensures AllSpace(b) && s == StripRight(s) + b
  {
    if s != [] && IsSpace(s[|s| - 1]) {
      b := StripRightKeeps(s[..|s| - 1]);
      b := b + [s[|s| - 1]];
    } else {
      b := [];
    }
  }

  /** `w` is what is left of `s` without the space around it. */
  ghost predicate PaddedWith(s: string, w: string, before: string, after: string) {
    AllSpace(before) && AllSpace(after) && s == before + (w + after)
  }

  /** For a word that itself starts and ends with no space, trimming gives that word exactly
      when there is only space around it. */
  lemma StripExact(s: string, w: string)
    requires w != [] && Trimmed(w)
    ensures Strip(s) == w <==> exists before, after :: PaddedWith(s, w, before, after)
  {
    if Strip(s) == w {
      var a := StripLeftKeeps(s);
      var b := StripRightKeeps(StripLeft(s));
      assert PaddedWith(s, w, a, b);
    }
    forall before, after | PaddedWith(s, w, before, after) ensures Strip(s) == w {
      StripLeftDrops(before, w + after);
      StripRightDrops(w, after);
    }
  }

  // ----- the order of `sorted` -----

  /** Code-point order on strings. */
  predicate Leq(s: string, t: string) {
    if s == [] then true
    else if t == [] then false
    else if s[0] == t[0] then Leq(s[1..], t[1..])
    else s[0] < t[0]
  }

  predicate Less(s: string, t: string) { Leq(s, t) && s != t }

  lemma {:induction false} LeqReflexive(s: string)
    ensures Leq(s, s)
  {
    if s != [] { LeqReflexive(s[1..]); }
  }

  lemma {:induction false} LeqTotal(s: string, t: string)
    ensures Leq(s, t) || Leq(t, s)
  {
    if s != [] && t != [] && s[0] == t[0] { LeqTotal(s[1..], t[1..]); }
  }

  lemma {:induction false} LeqAntisymmetric(s: string, t: string)
    requires Leq(s, t) && Leq(t, s)
    ensures s == t
  {
    if s != [] && t != [] {
      LeqAntisymmetric(s[1..], t[1..]);
      assert s == [s[0]] + s[1..] && t == [t[0]] + t[1..];
    }
  }

  lemma {:induction false} LeqTransitive(s: string, t: string, u: string)
    requires Leq(s, t) && Leq(t, u)
    ensures Leq(s, u)
  {
    if s != [] && t != [] && u != [] && s[0] == t[0] == u[0] {
      LeqTransitive(s[1..], t[1..], u[1..]);
    }
  }

  lemma LessTransitive(s: string, t: string, u: string)
    requires Less(s, t) && Less(t, u)
    ensures Less(s, u)
  {
    LeqTransitive(s, t, u);
    if s == u { LeqAntisymmetric(s, t); }
  }

  // ----- sorted(set(...)) -----

  ghost predicate StrictlySorted(xs: seq<string>) {
    forall i, j :: 0 <= i < j < |xs| ==> Less(xs[i], xs[j])
  }

  function Insert(x: string, xs: seq<string>): (ys: seq<string>)
    ensures forall y :: y in ys <==> y == x || y in xs
  {
    if xs == [] then [x]
    else if x == xs[0] then xs
    else if Leq(x, xs[0]) then [x] + xs
    else [xs[0]] + Insert(x, xs[1..])
  }

  /** `sorted(set(xs))` */
  function SortUnique(xs: seq<string>): (ys: seq<string>)
    ensures forall y :: y in ys <==> y in xs
  {
    if xs == [] then [] else Insert(xs[0], SortUnique(xs[1..]))
  }

  lemma {:induction false} InsertSorts(x: string, xs: seq<string>)
    requires StrictlySorted(xs)
    ensures StrictlySorted(Insert(x, xs))
  {
    if xs == [] || x == xs[0] {
    } else if Leq(x, xs[0]) {
      var ys := [x] + xs;
      forall i, j | 0 <= i < j < |ys| ensures Less(ys[i], ys[j]) {
        if i == 0 && j > 1 { LessTransitive(x, xs[0], ys[j]); }
      }
    } else {
      LeqTotal(x, xs[0]);
      InsertSorts(x, xs[1..]);
      var rest := Insert(x, xs[1..]);
      var ys := [xs[0]] + rest;
      forall i, j | 0 <= i < j < |ys| ensures Less(ys[i], ys[j]) {
        if i == 0 {
          assert ys[j] in rest;
          if ys[j] != x {
            var k :| 0 <= k < |xs[1..]| && xs[1..][k] == ys[j];
            assert xs[k + 1] == ys[j];
          }
        }
      }
    }
  }

  lemma {:induction false} SortUniqueSorts(xs: seq<string>)
    ensures StrictlySorted(SortUnique(xs))
  {
    if xs != [] {
      SortUniqueSorts(xs[1..]);
      InsertSorts(xs[0], SortUnique(xs[1..]));
    }
  }

  /** A strictly sorted list is determined by its elements. */
  lemma {:induction false} SortedIsCanonical(xs: seq<string>, ys: seq<string>)
    requires StrictlySorted(xs) && StrictlySorted(ys)
    requires forall z :: z in xs <==> z in ys
    ensures xs == ys
  {
    assert ys == [] || ys[0] in xs;
    if xs != [] {
      assert xs[0] in ys;
      if xs[0] != ys[0] {
        var i :| 0 <= i < |ys| && ys[i] == xs[0];
        var j :| 0 <= j < |xs| && xs[j] == ys[0];
        LeqAntisymmetric(xs[0], ys[0]);
      }
      forall z ensures z in xs[1..] <==> z in ys[1..] {
        if z in xs[1..] {
          var k :| 0 <= k < |xs[1..]| && xs[1..][k] == z;
          assert xs[k + 1] == z && Less(xs[0], z);
          assert z in xs;
        }
        if z in ys[1..] {
          var k :| 0 <= k < |ys[1..]| && ys[1..][k] == z;
          assert ys[k + 1] == z && Less(ys[0], z);
          assert z in ys;
        }
      }
      SortedIsCanonical(xs[1..], ys[1..]);
      assert xs == [xs[0]] + xs[1..] && ys == [ys[0]] + ys[1..];
    }
  }

  /** Only the set of elements matters to `sorted(set(xs))`. */
  lemma SortUniqueOfSameSet(xs: seq<string>, ys: seq<string>)
    requires forall z :: z in xs <==> z in ys
    ensures SortUnique(xs) == SortUnique(ys)
  {
    SortUniqueSorts(xs);
    SortUniqueSorts(ys);
    SortedIsCanonical(SortUnique(xs), SortUnique(ys));
  }
}
