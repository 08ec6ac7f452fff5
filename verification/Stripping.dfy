/** `re.sub(pattern, '', text)` for a pattern that ends in a greedy run and never matches a
    delimiter: one pass is complete, because what follows a cut is a delimiter or nothing. */
module Stripping {
  import opened Text
  import opened Patterns

  /** `r` reads only what it matches, matches no character of `stop`, and ends in a run of
      everything else. */
  ghost predicate RunsTo(r: Regex, stop: CharSet) {
    && Local(r) && Avoids(r, stop)
    && r.Cat? && r.right == Repeat(OneOf(Not(stop)), 1, None)
  }

  /** A match is never empty, holds no delimiter, and can be moved anywhere. */
  lemma MatchFacts(r: Regex, stop: CharSet, t: string, i: nat, j: nat)
    requires RunsTo(r, stop) && Matches(r, t, i, j)
    ensures i < j <= |t| && AllIn(Not(stop), t, i, j)
  {
    AvoidsExact(r, stop, t, i, j);
    var k := CatParts(r, t, i, j);
    RunMeaning(Not(stop), 1, None, t, k, j);
  }

  /** The match that is cut runs up to the next delimiter or the end of the text. */
  lemma CutIsGreedy(r: Regex, stop: CharSet, t: string, i: nat)
    requires RunsTo(r, stop) && i <= |t| && MatchAt(r, t, i).Some?
    ensures Matches(r, t, i, MatchAt(r, t, i).value)
    ensures MatchAt(r, t, i).value > i
    ensures MatchAt(r, t, i).value == |t| || stop.Has(t[MatchAt(r, t, i).value])
  {
    MatchAtExact(r, t, i);
    MatchFacts(r, stop, t, i, MatchAt(r, t, i).value);
    CutEnd(r, stop, t, i);
  }

  lemma CutEnd(r: Regex, stop: CharSet, t: string, i: nat)
    requires r.Cat? && r.right == Repeat(OneOf(Not(stop)), 1, None)
    requires i <= |t| && MatchAt(r, t, i).Some?
    ensures MatchAt(r, t, i).value == |t| || stop.Has(t[MatchAt(r, t, i).value])
  {
    var starts := Ends(r.left, t, i);
    var ends := EndsFromAll(r.right, t, i, starts);
    assert Ends(r, t, i) == ends;
    FirstOfAll(r.right, t, i, starts);
    var k :| 0 <= k < |starts| && Ends(r.right, t, starts[k]) != [] && ends[0] == Ends(r.right, t, starts[k])[0];
    RunIsGreedy(Not(stop), 1, None, t, starts[k]);
  }

  lemma NoCutAtStop(r: Regex, stop: CharSet, t: string, i: nat)
    requires RunsTo(r, stop) && i < |t| && stop.Has(t[i])
    ensures MatchAt(r, t, i) == None
  {
    if MatchAt(r, t, i).Some? {
      CutIsGreedy(r, stop, t, i);
      MatchFacts(r, stop, t, i, MatchAt(r, t, i).value);
    }
  }

  /** After a cut the text left over starts with a delimiter, if there is any. */
  lemma AfterCut(r: Regex, stop: CharSet, t: string, i: nat)
    requires RunsTo(r, stop) && i < |t| && MatchAt(r, t, i).Some?
    ensures Remove(r, t, i) == [] || stop.Has(Remove(r, t, i)[0])
  {
    CutIsGreedy(r, stop, t, i);
    var e := MatchAt(r, t, i).value;
    assert Remove(r, t, i) == Remove(r, t, e);
    if e < |t| { NoCutAtStop(r, stop, t, e); }
  }

  /** Text kept from position `i` on stays contiguous until its first delimiter. */
  lemma {:induction false} KeptRun(r: Regex, stop: CharSet, t: string, i: nat, q: nat)
    requires RunsTo(r, stop)
    requires i < |t| && MatchAt(r, t, i) == None
    requires 0 < q <= |Remove(r, t, i)| && AllIn(Not(stop), Remove(r, t, i), 0, q)
    ensures SameStretch(Remove(r, t, i), 0, q, t, i)
    decreases |t| - i
  {
    var u := Remove(r, t, i);
    var v := Remove(r, t, i + 1);
    assert u == [t[i]] + v;
    if q > 1 {
      assert v[0] == u[1] && i + 1 < |t|;
      if MatchAt(r, t, i + 1).Some? { AfterCut(r, stop, t, i + 1); }
      forall k | 0 <= k < q - 1 ensures Not(stop).Has(v[k]) { assert v[k] == u[k + 1]; }
      KeptRun(r, stop, t, i + 1, q - 1);
      assert u[..q] == [t[i]] + v[..q - 1];
      assert t[i..i + q] == [t[i]] + t[i + 1..i + q];
    } else {
      assert u[..q] == [t[i]] == t[i..i + q];
    }
  }

  /** One pass is enough: no match is left, and none forms across a seam. */
  lemma {:induction false} NoMatchRemains(r: Regex, stop: CharSet, t: string, i: nat)
    requires RunsTo(r, stop) && i <= |t|
    ensures !MatchesSomewhere(r, Remove(r, t, i))
    decreases |t| - i
  {
    var u := Remove(r, t, i);
    forall p: nat, q: nat ensures !Matches(r, u, p, q) {
      if i == |t| {
        assert u == [];
        if Matches(r, u, p, q) { MatchFacts(r, stop, u, p, q); }
      } else if MatchAt(r, t, i).Some? {
        CutIsGreedy(r, stop, t, i);
        assert u == Remove(r, t, MatchAt(r, t, i).value);
        NoMatchRemains(r, stop, t, MatchAt(r, t, i).value);
      } else if p > 0 {
        NoLaterMatch(r, stop, t, i, p, q);
      } else if Matches(r, u, 0, q) {
        MatchFacts(r, stop, u, 0, q);
        KeptRun(r, stop, t, i, q);
        LocalMoves(r, u, 0, q, t, i);
        assert Matches(r, t, i, i + q);
        MatchAtExact(r, t, i);
      }
    }
  }

  lemma {:induction false} NoLaterMatch(r: Regex, stop: CharSet, t: string, i: nat, p: nat, q: nat)
    requires RunsTo(r, stop) && i < |t| && MatchAt(r, t, i) == None && p > 0
    ensures !Matches(r, Remove(r, t, i), p, q)
    decreases |t| - i, 0
  {
    var u := Remove(r, t, i);
    var v := Remove(r, t, i + 1);
    assert u == [t[i]] + v;
    if Matches(r, u, p, q) {
      MatchFacts(r, stop, u, p, q);
      assert u[p..q] == v[p - 1..q - 1];
      LocalMoves(r, u, p, q, v, p - 1);
      NoMatchRemains(r, stop, t, i + 1);
    }
  }

  lemma {:induction false} NothingToRemove(r: Regex, t: string, i: nat)
    requires i <= |t| && !MatchesSomewhere(r, t)
    ensures Remove(r, t, i) == t[i..]
    decreases |t| - i
  {
    if i < |t| {
      MatchAtExact(r, t, i);
      NothingToRemove(r, t, i + 1);
    }
  }

  // ----- what is kept -----

  /** A text as what was kept and what was cut out of it. */
  datatype Piece = Kept(text: string) | Cut(text: string)

  function Whole(ps: seq<Piece>): string {
    if ps == [] then [] else ps[0].text + Whole(ps[1..])
  }

  function KeptOnly(ps: seq<Piece>): string {
    if ps == [] then [] else (if ps[0].Kept? then ps[0].text else []) + KeptOnly(ps[1..])
  }

  ghost predicate CutsMatch(r: Regex, ps: seq<Piece>) {
    forall k :: 0 <= k < |ps| && ps[k].Cut? ==> Matches(r, ps[k].text, 0, |ps[k].text|)
  }

  lemma {:induction false} RemoveCutsMatches(r: Regex, stop: CharSet, t: string, i: nat) returns (ps: seq<Piece>)
    requires RunsTo(r, stop) && i <= |t|
    ensures CutsMatch(r, ps) && Whole(ps) == t[i..] && KeptOnly(ps) == Remove(r, t, i)
    decreases |t| - i
  {
    hide Matches;
    hide MatchAt;
    hide Local;
    if i == |t| {
      ps := [];
    } else if MatchAt(r, t, i).Some? {
      CutIsGreedy(r, stop, t, i);
      var e := MatchAt(r, t, i).value;
      var rest := RemoveCutsMatches(r, stop, t, e);
      var cut := t[i..e];
      LocalMoves(r, t, i, e, cut, 0);
      ps := [Cut(cut)] + rest;
      assert ps[1..] == rest && t[i..] == cut + t[e..];
    } else {
      var rest := RemoveCutsMatches(r, stop, t, i + 1);
      ps := [Kept([t[i]])] + rest;
      assert ps[1..] == rest && t[i..] == [t[i]] + t[i + 1..];
    }
  }

  /** `sub` removes whole matches and nothing else, leaves no match in the text, and a second
      pass changes nothing. */
  lemma OnePass(r: Regex, stop: CharSet, t: string)
    requires RunsTo(r, stop)
    ensures exists ps :: CutsMatch(r, ps) && Whole(ps) == t && KeptOnly(ps) == Remove(r, t, 0)
    ensures !MatchesSomewhere(r, Remove(r, t, 0))
    ensures Remove(r, Remove(r, t, 0), 0) == Remove(r, t, 0)
  {
    var ps := RemoveCutsMatches(r, stop, t, 0);
    NoMatchRemains(r, stop, t, 0);
    NothingToRemove(r, Remove(r, t, 0), 0);
  }
}
