/** The in-place scrub of Azure Container Apps: every literal environment value is scanned and
    then cleared on the live object, however often that object appears in the template. */
module ContainerApps {
  import opened Text
  import Secrets

  class EnvVar {
    const secretRef: Option<string>
    var value: Option<string>

    constructor (secretRef: Option<string>, value: Option<string>)
      ensures this.secretRef == secretRef && this.value == value
    {
      this.secretRef, this.value := secretRef, value;
    }

    /** The value is given here, not by reference to a stored secret. */
    predicate IsLiteral() { secretRef == None || secretRef.value == [] }
  }

  datatype Container = Container(env: Option<seq<EnvVar>>)

  datatype Template = Template(containers: Option<seq<Container>>, initContainers: Option<seq<Container>>)

  function EnvsOf(cs: seq<Container>): seq<EnvVar> {
    if cs == [] then [] else EnvsOf(cs[..|cs| - 1]) + OrEmpty(cs[|cs| - 1].env)
  }

  /** Every environment entry of the template, in the order the loops visit them; the same
      object may appear several times. */
  function AllEnvs(t: Template): seq<EnvVar> { EnvsOf(OrEmpty(t.containers)) + EnvsOf(OrEmpty(t.initContainers)) }

  /** `h` is a rule that hits the original value of a literal entry among `envs`. */
  ghost predicate HitIn(h: string, envs: seq<EnvVar>, held: map<EnvVar, Option<string>>) {
    exists e :: e in envs && e.IsLiteral() && e in held && h in Secrets.ScanText(OrEmpty(held[e]))
  }

  /** What the objects hold once the entries of `done` have been visited. */
  ghost predicate ClearedSoFar(all: seq<EnvVar>, done: seq<EnvVar>, held: map<EnvVar, Option<string>>)
    reads all
  {
    forall e :: e in all ==> e in held && e.value == if e in done && e.IsLiteral() then None else held[e]
  }

  ghost predicate HitsSoFar(hits: seq<string>, done: seq<EnvVar>, held: map<EnvVar, Option<string>>) {
    forall h :: h in hits <==> HitIn(h, done, held)
  }

  lemma VisitOne(hits: seq<string>, more: seq<string>, done: seq<EnvVar>, env: EnvVar, held: map<EnvVar, Option<string>>)
    requires HitsSoFar(hits, done, held) && env in held
    requires forall h :: h in more ==> env.IsLiteral() && h in Secrets.ScanText(OrEmpty(held[env]))
    requires env.IsLiteral() && env !in done ==> forall h :: h in Secrets.ScanText(OrEmpty(held[env])) ==> h in more
    ensures HitsSoFar(hits + more, done + [env], held)
  {
    hide Secrets.ScanText;
    forall h ensures h in hits + more <==> HitIn(h, done + [env], held) {
      if HitIn(h, done, held) {
        var e :| e in done && e.IsLiteral() && e in held && h in Secrets.ScanText(OrEmpty(held[e]));
        assert e in done + [env];
      }
      if h in more { assert env in done + [env]; }
      if HitIn(h, done + [env], held) {
        var e :| e in done + [env] && e.IsLiteral() && e in held && h in Secrets.ScanText(OrEmpty(held[e]));
        assert e in done || e == env;
      }
    }
  }

  /** The entries of one container. */
  method ScrubEnvs(envs: seq<EnvVar>, ghost all: seq<EnvVar>, ghost done: seq<EnvVar>,
      ghost held: map<EnvVar, Option<string>>, hits0: seq<string>) returns (hits: seq<string>)
    requires forall e :: e in envs ==> e in all
    requires ClearedSoFar(all, done, held) && HitsSoFar(hits0, done, held)
    modifies all
    ensures ClearedSoFar(all, done + envs, held) && HitsSoFar(hits, done + envs, held)
  {
    hide Secrets.ScanText;
    hide HitsSoFar;
    hits := hits0;
    assert done + envs[..0] == done;
    for j := 0 to |envs|
      invariant ClearedSoFar(all, done + envs[..j], held) && HitsSoFar(hits, done + envs[..j], held)
    {
      var env := envs[j];
      assert env in all;
      var found := [];
      if env.IsLiteral() {
        found := Secrets.ScanText(OrEmpty(env.value));
        NothingInEmpty();
        env.value := None;
      }
      VisitOne(hits, found, done + envs[..j], env, held);
      hits := hits + found;
      assert done + envs[..j + 1] == done + envs[..j] + [env];
    }
    assert envs[..|envs|] == envs;
  }

  /** One container list: for each container, for each entry. */
  method ScrubContainers(cs: seq<Container>, ghost all: seq<EnvVar>, ghost done: seq<EnvVar>,
      ghost held: map<EnvVar, Option<string>>, hits0: seq<string>) returns (hits: seq<string>)
    requires forall e :: e in EnvsOf(cs) ==> e in all
    requires ClearedSoFar(all, done, held) && HitsSoFar(hits0, done, held)
    modifies all
    ensures ClearedSoFar(all, done + EnvsOf(cs), held) && HitsSoFar(hits, done + EnvsOf(cs), held)
  {
    hide HitsSoFar;
    hide ClearedSoFar;
    hits := hits0;
    assert done + EnvsOf(cs[..0]) == done;
    for i := 0 to |cs|
      invariant ClearedSoFar(all, done + EnvsOf(cs[..i]), held) && HitsSoFar(hits, done + EnvsOf(cs[..i]), held)
    {
      EnvsOfNext(cs, i);
      hits := ScrubEnvs(OrEmpty(cs[i].env), all, done + EnvsOf(cs[..i]), held, hits);
      assert done + EnvsOf(cs[..i + 1]) == done + EnvsOf(cs[..i]) + OrEmpty(cs[i].env);
    }
    assert cs[..|cs|] == cs;
  }

  lemma NothingInEmpty()
    ensures Secrets.ScanText([]) == []
  {}

  lemma EnvsOfNext(cs: seq<Container>, i: nat)
    requires i < |cs|
    ensures EnvsOf(cs[..i + 1]) == EnvsOf(cs[..i]) + OrEmpty(cs[i].env)
    ensures forall e :: e in OrEmpty(cs[i].env) ==> e in EnvsOf(cs)
  {
    assert cs[..i + 1][..i] == cs[..i];
    EnvsOfPrefix(cs, i + 1);
  }

  lemma {:induction false} EnvsOfPrefix(cs: seq<Container>, n: nat)
    requires n <= |cs|
    ensures forall e :: e in EnvsOf(cs[..n]) ==> e in EnvsOf(cs)
  {
    if n == |cs| {
      assert cs[..n] == cs;
    } else {
      var front := cs[..|cs| - 1];
      EnvsOfPrefix(front, n);
      assert front[..n] == cs[..n];
    }
  }

  /** `_redact_env_secrets`: afterwards every literal entry is cleared, every entry with a
      secret reference is untouched, and the hits are the sorted rules that hit the original
      values, an object that appears twice counting for what it held at first. `all` lists the
      entries of the template. */
  method RedactEnvSecrets(template: Option<Template>, ghost all: seq<EnvVar>) returns (hits: seq<string>)
    requires all == if template.Some? then AllEnvs(template.value) else []
    modifies all
    ensures forall e :: e in all ==> e.value == if IsTruthy(e.secretRef) then old(e.value) else None
    ensures StrictlySorted(hits)
    ensures forall h :: h in hits <==>
      exists e :: e in all && !IsTruthy(e.secretRef) && h in Secrets.ScanText(OrEmpty(old(e.value)))
  {
    hide Secrets.ScanText;
    hide SortUnique;
    hide EnvsOf;
    if template == None {
      return [];
    }
    var t := template.value;
    ghost var held: map<EnvVar, Option<string>> := map e: EnvVar | e in all :: e.value;
    hits := ScrubContainers(OrEmpty(t.containers), all, [], held, []);
    assert [] + EnvsOf(OrEmpty(t.containers)) == EnvsOf(OrEmpty(t.containers));
    hits := ScrubContainers(OrEmpty(t.initContainers), all, EnvsOf(OrEmpty(t.containers)), held, hits);
    ghost var found := hits;
    hits := SortUnique(hits);
    SortUniqueSorts(found);
    forall h ensures h in hits <==>
      exists e :: e in all && !IsTruthy(e.secretRef) && h in Secrets.ScanText(OrEmpty(old(e.value)))
    {
      assert h in found <==> HitIn(h, all, held);
    }
  }
}
