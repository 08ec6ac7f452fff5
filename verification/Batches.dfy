/** Batched describe calls: the index-stepped loops of `ecs.py` and `cicd.py`, against a server
    that refuses an empty or over-long batch. */
module Batches {
  import opened Text

  /** What describing several names one by one would give; a name may yield nothing, as when the
      cluster it names is gone. */
  function Each<A, B>(one: A -> seq<B>, names: seq<A>): seq<B> {
    if names == [] then [] else one(names[0]) + Each(one, names[1..])
  }

  lemma {:induction false} EachAppends<A, B>(one: A -> seq<B>, a: seq<A>, b: seq<A>)
    ensures Each(one, a + b) == Each(one, a) + Each(one, b)
  {
    if a == [] {
      assert a + b == b;
    } else {
      EachAppends(one, a[1..], b);
      assert (a + b)[1..] == a[1..] + b && (a + b)[0] == a[0];
      assert Each(one, a + b) == one(a[0]) + Each(one, a[1..] + b);
    }
  }

  lemma EachOfNothing<A, B>(one: A -> seq<B>)
    ensures Each(one, []) == []
  {}

  type Describer<!A, !B> = seq<A> -> Result<seq<B>, string>

  /** The server answers a batch of 1 to `limit` names with what each of them stands for, or
      fails; nothing is known of its answer to any other batch. */
  ghost predicate Describes<A(!new), B>(server: Describer<A, B>, one: A -> seq<B>, limit: nat) {
    forall batch :: 1 <= |batch| <= limit && server(batch).Ok? ==> server(batch).value == Each(one, batch)
  }

  /** `names[i:i + limit]` */
  function Batch<A>(names: seq<A>, i: nat, limit: nat): seq<A>
    requires i <= |names|
  {
    names[i..if i + limit < |names| then i + limit else |names|]
  }

  /** The server failed on one of the batches. */
  ghost predicate BatchFails<A, B>(server: Describer<A, B>, names: seq<A>, limit: nat, i: nat, error: string) {
    i < |names| && server(Batch(names, i, limit)) == Err(error)
  }

  /** The names up to the end of the batch that starts at `i`. */
  function UpTo<A>(names: seq<A>, i: nat): seq<A> { names[..if i < |names| then i else |names|] }

  lemma NextBatch<A, B>(one: A -> seq<B>, names: seq<A>, i: nat, limit: nat)
    requires i <= |names|
    ensures Each(one, UpTo(names, i + limit)) == Each(one, UpTo(names, i)) + Each(one, Batch(names, i, limit))
  {
    hide Each;
    EachAppends(one, UpTo(names, i), Batch(names, i, limit));
    assert UpTo(names, i) + Batch(names, i, limit) == UpTo(names, i + limit);
  }

  /** `describe_clusters` (100 a batch), `describe_services` (10) and the second half of
      `get_codebuild_projects` (100). */
  method DescribeAll<A(!new), B>(server: Describer<A, B>, ghost one: A -> seq<B>, names: seq<A>, limit: nat)
    returns (r: Result<seq<B>, string>)
    requires limit > 0 && Describes(server, one, limit)
    ensures r.Ok? ==> r.value == Each(one, names)
    ensures r.Err? ==> exists i: nat :: BatchFails(server, names, limit, i, r.error)
  {
    hide Each;
    var found: seq<B> := [];
    assert UpTo(names, 0) == [];
    EachOfNothing(one);
    var i := 0;
    while i < |names|
      invariant found == Each(one, UpTo(names, i))
    {
      var answer := server(Batch(names, i, limit));
      if answer.Err? {
        assert BatchFails(server, names, limit, i, answer.error);
        return Err(answer.error);
      }
      found := found + answer.value;
      NextBatch(one, names, i, limit);
      i := i + limit;
    }
    assert UpTo(names, i) == names;
    return Ok(found);
  }

  // ----- opaque tokens -----

  datatype TokenPage = TokenPage(names: seq<string>, next: Option<string>)

  type TokenLister = Option<string> -> Result<TokenPage, string>

  /** `if not next_token`: an empty token ends the listing, as an absent one does. */
  predicate IsLast(p: TokenPage) { p.next.None? || p.next.value == "" }

  /** From this token on, the server lists these names in at most `pages` pages, or fails. */
  ghost predicate Lists(server: TokenLister, token: Option<string>, names: seq<string>, pages: nat)
    decreases pages
  {
    pages > 0
    && (server(token).Ok? ==>
          var p := server(token).value;
          && |p.names| <= |names| && p.names == names[..|p.names|]
          && if IsLast(p) then p.names == names else Lists(server, p.next, names[|p.names|..], pages - 1))
  }

  lemma NextPage(all: seq<string>, n: nat, page: seq<string>)
    requires n <= |all| && |page| <= |all[n..]| && page == all[n..][..|page|]
    ensures n + |page| <= |all| && all[..n] + page == all[..n + |page|]
    ensures all[n..][|page|..] == all[n + |page|..]
    ensures page == all[n..] ==> all[..n] + page == all
  {}

  /** The first half of `get_codebuild_projects`: follow the tokens until there is none. */
  method ListProjects(lister: TokenLister, ghost all: seq<string>, ghost pages: nat) returns (r: Result<seq<string>, string>)
    requires Lists(lister, None, all, pages)
    ensures r.Ok? ==> r.value == all
    ensures r.Err? ==> exists token :: lister(token) == Err(r.error)
  {
    var names: seq<string> := [];
    var token: Option<string> := None;
    ghost var left := pages;
    assert all[0..] == all;
    while true
      invariant |names| <= |all| && names == all[..|names|]
      invariant Lists(lister, token, all[|names|..], left)
      decreases left
    {
      var answer := lister(token);
      if answer.Err? { return Err(answer.error); }
      var p := answer.value;
      NextPage(all, |names|, p.names);
      names := names + p.names;
      if p.next.None? || p.next.value == "" { break; }
      token := p.next;
      left := left - 1;
    }
    return Ok(names);
  }

  /** `get_codebuild_projects`: page through the names, then describe them 100 at a time. */
  method GetCodebuildProjects<B>(lister: TokenLister, server: Describer<string, B>,
      ghost one: string -> seq<B>, ghost all: seq<string>, ghost pages: nat)
    returns (r: Result<seq<B>, string>)
    requires Lists(lister, None, all, pages) && Describes(server, one, 100)
    ensures r.Ok? ==> r.value == Each(one, all)
    ensures r.Err? ==>
      (exists token :: lister(token) == Err(r.error)) || (exists i: nat :: BatchFails(server, all, 100, i, r.error))
  {
    hide Lists;
    hide Each;
    hide BatchFails;
    var listed := ListProjects(lister, all, pages);
    if listed.Err? {
      return Err(listed.error);
    }
    r := DescribeAll(server, one, listed.value, 100);
  }
}
