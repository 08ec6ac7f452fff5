/** Redaction of the variable lists of ECS task definitions and CodeBuild projects. `pyStr` is
    Python's `str`; `None` stands for a raised TypeError or AttributeError. */
module EnvRedaction {
  import opened Text
  import opened Json
  import opened Secrets

  datatype Redacted = Redacted(record: Json, hits: seq<string>)

  // ----- Python's view of a JSON value -----

  function Keys(fields: seq<Field>): seq<Json> { seq(|fields|, k requires 0 <= k < |fields| => Str(fields[k].key)) }

  function Characters(s: string): seq<Json> { seq(|s|, k requires 0 <= k < |s| => Str([s[k]])) }

  /** What a `for` loop over the value visits. */
  function Iterate(v: Json): Option<seq<Json>> {
    match v
    case Arr(items) => Some(items)
    case Obj(fields) => Some(Keys(fields))
    case Str(s) => Some(Characters(s))
    case _ => None
  }

  predicate Falsy(v: Json) {
    v == Null || v == Bool(false) || v == Int(0) || v == Str([]) || v == Arr([]) || v == Obj([])
  }

  /** `v.get(key, default)`; only a dict has one. */
  function GetFrom(v: Json, key: string, default: Json): Json
    requires v.Obj?
  {
    GetOr(v.fields, key, default)
  }

  // ----- environment lists -----

  function ValueOf(env: Json): Json
    requires env.Obj?
  {
    GetFrom(env, "value", Str([]))
  }

  /** Every entry of the list is a dict. */
  predicate AllDicts(envs: seq<Json>) { forall k :: 0 <= k < |envs| ==> envs[k].Obj? }

  function EnvHits(envs: seq<Json>, pyStr: Json -> string): seq<string>
    requires AllDicts(envs)
  {
    if envs == [] then [] else ScanText(pyStr(ValueOf(envs[0]))) + EnvHits(envs[1..], pyStr)
  }

  /** ECS keeps the names. */
  function EnvNames(envs: seq<Json>): seq<Json>
    requires AllDicts(envs)
  {
    seq(|envs|, k requires 0 <= k < |envs| => GetFrom(envs[k], "name", Str([])))
  }

  /** CodeBuild keeps names and types. */
  function NamesAndTypes(envs: seq<Json>): seq<Json>
    requires AllDicts(envs)
  {
    seq(|envs|, k requires 0 <= k < |envs| =>
      Obj([Field("name", GetFrom(envs[k], "name", Str([]))), Field("type", GetFrom(envs[k], "type", Str([])))]))
  }

  // ----- ECS: _redact_task_def -----

  /** The environment entries of a container, or None if reading them raises. */
  function EnvsOf(c: Json, key: string): Option<seq<Json>>
    requires c.Obj?
  {
    if !HasKey(c.fields, key) then Some([])
    else
      match Iterate(Get(c.fields, key))
      case None => None
      case Some(envs) => if AllDicts(envs) then Some(envs) else None
  }

  function RedactContainer(c: Json): Option<Json> {
    if !c.Obj? || EnvsOf(c, "environment") == None then None
    else if !HasKey(c.fields, "environment") then Some(c)
    else Some(Obj(Put(c.fields, "environment", Arr(EnvNames(EnvsOf(c, "environment").value)))))
  }

  function ContainerHits(c: Json, pyStr: Json -> string): seq<string> {
    if !c.Obj? || EnvsOf(c, "environment") == None then [] else EnvHits(EnvsOf(c, "environment").value, pyStr)
  }

  function RedactContainers(cs: seq<Json>): Option<seq<Json>> {
    if cs == [] then Some([])
    else
      match RedactContainer(cs[0])
      case None => None
      case Some(c) => match RedactContainers(cs[1..]) case None => None case Some(rest) => Some([c] + rest)
  }

  function ContainersHits(cs: seq<Json>, pyStr: Json -> string): seq<string> {
    if cs == [] then [] else ContainerHits(cs[0], pyStr) + ContainersHits(cs[1..], pyStr)
  }

  const CONTAINERS := "containerDefinitions"

  function RedactTaskDef(td: Json, pyStr: Json -> string): Option<Redacted>
    requires td.Obj?
  {
    match Iterate(GetFrom(td, CONTAINERS, Arr([])))
    case None => None
    case Some(cs) =>
      match RedactContainers(cs)
      case None => None
      case Some(out) => Some(Redacted(Obj(Put(td.fields, CONTAINERS, Arr(out))), SortUnique(ContainersHits(cs, pyStr))))
  }

  /** The inner loop of the code. */
  method EnvLoop(envs: seq<Json>, pyStr: Json -> string) returns (names: seq<Json>, hits: seq<string>)
    requires AllDicts(envs)
    ensures names == EnvNames(envs) && hits == EnvHits(envs, pyStr)
  {
    hide ScanText;
    names, hits := [], [];
    for i := 0 to |envs|
      invariant names == EnvNames(envs[..i])
      invariant hits + EnvHits(envs[i..], pyStr) == EnvHits(envs, pyStr)
    {
      names := names + [GetFrom(envs[i], "name", Str([]))];
      hits := hits + ScanText(pyStr(ValueOf(envs[i])));
      assert envs[i..][1..] == envs[i + 1..];
    }
    assert envs[..|envs|] == envs;
  }

  // ----- what a secret can influence -----

  const HIDDEN := Str("hidden")

  /** The entry with its value blotted out, if it has one. */
  function MaskEntry(env: Json): Json {
    if env.Obj? && HasKey(env.fields, "value") then Obj(Put(env.fields, "value", HIDDEN)) else env
  }

  function MaskEntries(envs: seq<Json>): seq<Json> { seq(|envs|, k requires 0 <= k < |envs| => MaskEntry(envs[k])) }

  /** The dict with every entry of the list under `key` blotted out. */
  function MaskUnder(c: Json, key: string): Json {
    if c.Obj? && HasKey(c.fields, key) && Get(c.fields, key).Arr?
    then Obj(Put(c.fields, key, Arr(MaskEntries(Get(c.fields, key).items)))) else c
  }

  function MaskContainers(cs: seq<Json>): seq<Json> {
    seq(|cs|, k requires 0 <= k < |cs| => MaskUnder(cs[k], "environment"))
  }

  function MaskTaskDef(td: Json): Json {
    if td.Obj? && HasKey(td.fields, CONTAINERS) && Get(td.fields, CONTAINERS).Arr?
    then Obj(Put(td.fields, CONTAINERS, Arr(MaskContainers(Get(td.fields, CONTAINERS).items)))) else td
  }

  lemma KeysDifferent()
    ensures "name" != "value" && "type" != "value"
  {
    assert |"name"| == |"type"| == 4 && |"value"| == 5;
  }

  lemma {:induction false} PutTwice(fields: seq<Field>, key: string, a: Json, b: Json)
    ensures Put(Put(fields, key, a), key, b) == Put(fields, key, b)
  {
    if fields != [] && fields[0].key != key { PutTwice(fields[1..], key, a, b); }
  }

  lemma MaskedEntry(env: Json)
    requires env.Obj?
    ensures MaskEntry(env).Obj?
    ensures GetFrom(MaskEntry(env), "name", Str([])) == GetFrom(env, "name", Str([]))
    ensures GetFrom(MaskEntry(env), "type", Str([])) == GetFrom(env, "type", Str([]))
  {
    KeysDifferent();
    PutGet(env.fields, "value", HIDDEN, "name");
    PutGet(env.fields, "value", HIDDEN, "type");
  }

  /** Blotted out, two entries that differ only in their value are the same. */
  lemma MaskForgetsValue(fields: seq<Field>, x: Json, y: Json)
    ensures MaskEntry(Obj(Put(fields, "value", x))) == MaskEntry(Obj(Put(fields, "value", y)))
  {
    PutGet(fields, "value", x, "value");
    PutGet(fields, "value", y, "value");
    PutTwice(fields, "value", x, HIDDEN);
    PutTwice(fields, "value", y, HIDDEN);
  }

  /** What is kept of a list of entries does not depend on their values. */
  lemma MaskedEntries(envs: seq<Json>)
    ensures AllDicts(MaskEntries(envs)) <==> AllDicts(envs)
    ensures AllDicts(envs) ==> EnvNames(MaskEntries(envs)) == EnvNames(envs)
    ensures AllDicts(envs) ==> NamesAndTypes(MaskEntries(envs)) == NamesAndTypes(envs)
  {
    hide Put;
    var masked := MaskEntries(envs);
    assert forall k :: 0 <= k < |envs| ==> masked[k] == MaskEntry(envs[k]) && (masked[k].Obj? <==> envs[k].Obj?);
    if AllDicts(envs) {
      forall k | 0 <= k < |envs|
        ensures EnvNames(masked)[k] == EnvNames(envs)[k] && NamesAndTypes(masked)[k] == NamesAndTypes(envs)[k]
      {
        MaskedEntry(envs[k]);
      }
    }
  }

  lemma MaskedList(c: Json, key: string)
    requires c.Obj?
    ensures MaskUnder(c, key).Obj? && (HasKey(MaskUnder(c, key).fields, key) <==> HasKey(c.fields, key))
    ensures HasKey(c.fields, key) ==> forall v :: Put(MaskUnder(c, key).fields, key, v) == Put(c.fields, key, v)
    ensures EnvsOf(MaskUnder(c, key), key).Some? <==> EnvsOf(c, key).Some?
    ensures EnvsOf(c, key).Some? ==>
      && AllDicts(EnvsOf(c, key).value) && AllDicts(EnvsOf(MaskUnder(c, key), key).value)
      && EnvNames(EnvsOf(MaskUnder(c, key), key).value) == EnvNames(EnvsOf(c, key).value)
      && NamesAndTypes(EnvsOf(MaskUnder(c, key), key).value) == NamesAndTypes(EnvsOf(c, key).value)
  {
    if HasKey(c.fields, key) && Get(c.fields, key).Arr? {
      var envs := Get(c.fields, key).items;
      MaskedEntries(envs);
      PutGet(c.fields, key, Arr(MaskEntries(envs)), key);
      forall v ensures Put(MaskUnder(c, key).fields, key, v) == Put(c.fields, key, v) {
        PutTwice(c.fields, key, Arr(MaskEntries(envs)), v);
      }
    }
  }

  lemma MaskedContainer(c: Json)
    ensures RedactContainer(MaskUnder(c, "environment")) == RedactContainer(c)
  {
    if c.Obj? { MaskedList(c, "environment"); }
  }

  lemma {:induction false} MaskedContainers(cs: seq<Json>)
    ensures RedactContainers(MaskContainers(cs)) == RedactContainers(cs)
  {
    hide RedactContainer;
    hide MaskUnder;
    if cs != [] {
      MaskedContainer(cs[0]);
      MaskedContainers(cs[1..]);
      assert MaskContainers(cs)[1..] == MaskContainers(cs[1..]);
    }
  }

  /** A redaction of `fields` that rewrites `key` sees only what is under it. */
  lemma PutOver(fields: seq<Field>, key: string, masked: Json, out: Json)
    ensures GetOr(Put(fields, key, masked), key, Arr([])) == masked
    ensures Put(Put(fields, key, masked), key, out) == Put(fields, key, out)
  {
    PutGet(fields, key, masked, key);
    PutTwice(fields, key, masked, out);
  }

  /** The redacted task definition is the same with every variable's value blotted out. */
  lemma TaskDefRecordIgnoresValues(td: Json, pyStr: Json -> string)
    requires td.Obj?
    ensures MaskTaskDef(td).Obj?
    ensures RedactTaskDef(td, pyStr).Some? <==> RedactTaskDef(MaskTaskDef(td), pyStr).Some?
    ensures RedactTaskDef(td, pyStr).Some? ==>
      RedactTaskDef(td, pyStr).value.record == RedactTaskDef(MaskTaskDef(td), pyStr).value.record
  {
    hide RedactContainers;
    hide MaskContainers;
    hide SortUnique;
    hide ContainersHits;
    hide Put;
    hide Get;
    hide HasKey;
    if HasKey(td.fields, CONTAINERS) && Get(td.fields, CONTAINERS).Arr? {
      var cs := Get(td.fields, CONTAINERS).items;
      MaskedContainers(cs);
      var out := if RedactContainers(cs).Some? then Arr(RedactContainers(cs).value) else Null;
      PutOver(td.fields, CONTAINERS, Arr(MaskContainers(cs)), out);
      assert MaskTaskDef(td) == Obj(Put(td.fields, CONTAINERS, Arr(MaskContainers(cs))));
    }
  }

  /** The records are the same, and so the whole outcomes are when the same rules hit. */
  ghost predicate SameRecord(a: Option<Redacted>, b: Option<Redacted>) {
    a.Some? && b.Some? ==> a.value.record == b.value.record
  }

  /** Two task definitions that differ only in the values of their variables are redacted to
      the same record, so what is uploaded can differ only in the rules that hit. */
  lemma TaskDefNonInterference(a: Json, b: Json, pyStr: Json -> string)
    requires a.Obj? && b.Obj? && MaskTaskDef(a) == MaskTaskDef(b)
    ensures RedactTaskDef(a, pyStr).Some? <==> RedactTaskDef(b, pyStr).Some?
    ensures SameRecord(RedactTaskDef(a, pyStr), RedactTaskDef(b, pyStr))
  {
    hide RedactTaskDef;
    hide MaskTaskDef;
    TaskDefRecordIgnoresValues(a, pyStr);
    TaskDefRecordIgnoresValues(b, pyStr);
  }

  // ----- what is kept -----

  /** Outside `keys` the two dicts read alike. */
  ghost predicate SameElsewhere(a: seq<Field>, b: seq<Field>, keys: set<string>) {
    forall key :: key !in keys ==> (HasKey(a, key) <==> HasKey(b, key)) && (HasKey(a, key) ==> Get(a, key) == Get(b, key))
  }

  lemma PutKeepsRest(fields: seq<Field>, key: string, value: Json)
    ensures HasKey(Put(fields, key, value), key) && Get(Put(fields, key, value), key) == value
    ensures SameElsewhere(Put(fields, key, value), fields, {key})
  {
    PutGet(fields, key, value, key);
    forall other | other != key
      ensures HasKey(Put(fields, key, value), other) <==> HasKey(fields, other)
      ensures HasKey(fields, other) ==> Get(Put(fields, key, value), other) == Get(fields, other)
    {
      PutGet(fields, key, value, other);
    }
  }

  /** The container `out` is `c` with the entries of its environment replaced by their names. */
  ghost predicate KeepsNames(c: Json, out: Json) {
    && c.Obj? && out.Obj? && SameElsewhere(out.fields, c.fields, {"environment"})
    && (HasKey(out.fields, "environment") <==> HasKey(c.fields, "environment"))
    && (HasKey(c.fields, "environment") ==>
          match Iterate(Get(c.fields, "environment"))
          case None => false
          case Some(envs) => ListsNames(envs, Get(out.fields, "environment")))
  }

  ghost predicate ListsNames(envs: seq<Json>, out: Json) {
    && out.Arr? && |out.items| == |envs|
    && forall k :: 0 <= k < |envs| ==> envs[k].Obj? && out.items[k] == GetFrom(envs[k], "name", Str([]))
  }

  lemma ContainerKeeps(c: Json)
    requires RedactContainer(c).Some?
    ensures KeepsNames(c, RedactContainer(c).value)
  {
    hide Put;
    if HasKey(c.fields, "environment") {
      PutKeepsRest(c.fields, "environment", Arr(EnvNames(EnvsOf(c, "environment").value)));
    }
  }

  lemma {:induction false} ContainersKeep(cs: seq<Json>)
    requires RedactContainers(cs).Some?
    ensures |RedactContainers(cs).value| == |cs|
    ensures forall k :: 0 <= k < |cs| ==> KeepsNames(cs[k], RedactContainers(cs).value[k])
  {
    hide RedactContainer;
    hide KeepsNames;
    if cs != [] {
      ContainerKeeps(cs[0]);
      ContainersKeep(cs[1..]);
    }
  }

  /** The record lists the containers in order, each with the names of its variables in order,
      and is otherwise the definition itself. */
  lemma TaskDefKeeps(td: Json, pyStr: Json -> string)
    requires td.Obj? && RedactTaskDef(td, pyStr).Some?
    ensures var record := RedactTaskDef(td, pyStr).value.record;
      && record.Obj? && SameElsewhere(record.fields, td.fields, {"containerDefinitions"})
      && match Iterate(GetFrom(td, "containerDefinitions", Arr([]))) {
           case None => false
           case Some(cs) =>
             var out := GetFrom(record, "containerDefinitions", Null);
             && out.Arr? && |out.items| == |cs|
             && forall k :: 0 <= k < |cs| ==> KeepsNames(cs[k], out.items[k])
         }
  {
    hide RedactContainers;
    hide ContainersHits;
    hide SortUnique;
    hide KeepsNames;
    hide Put;
    hide SameElsewhere;
    var cs := Iterate(GetFrom(td, CONTAINERS, Arr([]))).value;
    ContainersKeep(cs);
    PutKeepsRest(td.fields, CONTAINERS, Arr(RedactContainers(cs).value));
  }

  // ----- CodeBuild: _redact_project -----

  const VARIABLES := "environmentVariables"

  function RedactProject(project: Json, pyStr: Json -> string): Option<Redacted>
    requires project.Obj?
  {
    var env := GetFrom(project, "environment", Null);
    if !env.Obj? || !HasKey(env.fields, VARIABLES) then Some(Redacted(project, []))
    else
      match EnvsOf(env, VARIABLES)
      case None => None
      case Some(vars) =>
        Some(Redacted(Obj(Put(project.fields, "environment", Obj(Put(env.fields, VARIABLES, Arr(NamesAndTypes(vars)))))),
                      SortUnique(EnvHits(vars, pyStr))))
  }

  /** The loop of the code over the variables. */
  method VariableLoop(vars: seq<Json>, pyStr: Json -> string) returns (kept: seq<Json>, hits: seq<string>)
    requires AllDicts(vars)
    ensures kept == NamesAndTypes(vars) && hits == EnvHits(vars, pyStr)
  {
    hide ScanText;
    kept, hits := [], [];
    for i := 0 to |vars|
      invariant kept == NamesAndTypes(vars[..i])
      invariant hits + EnvHits(vars[i..], pyStr) == EnvHits(vars, pyStr)
    {
      hits := hits + ScanText(pyStr(ValueOf(vars[i])));
      kept := kept + [Obj([Field("name", GetFrom(vars[i], "name", Str([]))), Field("type", GetFrom(vars[i], "type", Str([])))])];
      assert vars[i..][1..] == vars[i + 1..];
    }
    assert vars[..|vars|] == vars;
  }

  function MaskProject(project: Json): Json {
    if project.Obj? && HasKey(project.fields, "environment")
    then Obj(Put(project.fields, "environment", MaskUnder(Get(project.fields, "environment"), VARIABLES))) else project
  }

  lemma {:induction false} PutSame(fields: seq<Field>, key: string)
    requires HasKey(fields, key)
    ensures Put(fields, key, Get(fields, key)) == fields
  {
    if fields[0].key == key {
      assert fields == [Field(key, fields[0].value)] + fields[1..];
    } else {
      PutSame(fields[1..], key);
      assert fields == [fields[0]] + fields[1..];
    }
  }

  /** The redacted project is the same with every variable's value blotted out. */
  lemma ProjectRecordIgnoresValues(project: Json, pyStr: Json -> string)
    requires project.Obj?
    ensures MaskProject(project).Obj?
    ensures RedactProject(project, pyStr).Some? <==> RedactProject(MaskProject(project), pyStr).Some?
    ensures RedactProject(project, pyStr).Some? ==>
      RedactProject(project, pyStr).value.record == RedactProject(MaskProject(project), pyStr).value.record
  {
    hide SortUnique;
    hide EnvHits;
    hide EnvsOf;
    hide Put;
    hide NamesAndTypes;
    if HasKey(project.fields, "environment") {
      var env := Get(project.fields, "environment");
      PutSame(project.fields, "environment");
      if env.Obj? && HasKey(env.fields, VARIABLES) {
        var masked := MaskUnder(env, VARIABLES);
        MaskedList(env, VARIABLES);
        PutGet(project.fields, "environment", masked, "environment");
        var out := if EnvsOf(env, VARIABLES).Some?
          then Obj(Put(env.fields, VARIABLES, Arr(NamesAndTypes(EnvsOf(env, VARIABLES).value)))) else Null;
        PutTwice(project.fields, "environment", masked, out);
      }
    }
  }

  /** Two projects that differ only in the values of their variables are redacted to the same
      record. */
  lemma ProjectNonInterference(a: Json, b: Json, pyStr: Json -> string)
    requires a.Obj? && b.Obj? && MaskProject(a) == MaskProject(b)
    ensures RedactProject(a, pyStr).Some? <==> RedactProject(b, pyStr).Some?
    ensures SameRecord(RedactProject(a, pyStr), RedactProject(b, pyStr))
  {
    hide RedactProject;
    hide MaskProject;
    ProjectRecordIgnoresValues(a, pyStr);
    ProjectRecordIgnoresValues(b, pyStr);
  }

  /** Of each variable the record holds the name and the type, and nothing else. */
  ghost predicate ListsNamesAndTypes(vars: seq<Json>, out: Json) {
    && out.Arr? && |out.items| == |vars|
    && forall k :: 0 <= k < |vars| ==> vars[k].Obj? && NameAndType(vars[k], out.items[k])
  }

  ghost predicate NameAndType(v: Json, out: Json)
    requires v.Obj?
  {
    && out.Obj? && (forall key :: HasKey(out.fields, key) <==> key == "name" || key == "type")
    && GetFrom(out, "name", Null) == GetFrom(v, "name", Str([]))
    && GetFrom(out, "type", Null) == GetFrom(v, "type", Str([]))
  }

  lemma PairKept(v: Json)
    requires v.Obj?
    ensures NameAndType(v, Obj([Field("name", GetFrom(v, "name", Str([]))), Field("type", GetFrom(v, "type", Str([])))]))
  {
    var fields := [Field("name", GetFrom(v, "name", Str([]))), Field("type", GetFrom(v, "type", Str([])))];
    assert "name"[0] != "type"[0];
    forall key
      ensures HasKey(fields, key) <==> key == "name" || key == "type"
      ensures HasKey(fields, key) ==> Get(fields, key) == if key == "name" then fields[0].value else fields[1].value
    {
      assert fields[1..] == [fields[1]];
      assert HasKey(fields[1..], key) <==> fields[1].key == key;
    }
  }

  /** A project whose environment lists variables keeps their names and types in order; every
      other field of the environment and of the project is as before, and so is a project
      without such a list. */
  lemma ProjectKeeps(project: Json, pyStr: Json -> string)
    requires project.Obj? && RedactProject(project, pyStr).Some?
    ensures var record := RedactProject(project, pyStr).value.record;
      var env := GetFrom(project, "environment", Null);
      if !env.Obj? || !HasKey(env.fields, "environmentVariables") then record == project
      else
        && record.Obj? && SameElsewhere(record.fields, project.fields, {"environment"})
        && var out := GetFrom(record, "environment", Null);
           && out.Obj? && SameElsewhere(out.fields, env.fields, {"environmentVariables"})
           && match Iterate(Get(env.fields, "environmentVariables")) {
                case None => false
                case Some(vars) => ListsNamesAndTypes(vars, GetFrom(out, "environmentVariables", Null))
              }
  {
    hide EnvHits;
    hide SortUnique;
    hide Put;
    hide SameElsewhere;
    hide NameAndType;
    var env := GetFrom(project, "environment", Null);
    if env.Obj? && HasKey(env.fields, VARIABLES) {
      var vars := EnvsOf(env, VARIABLES).value;
      forall k | 0 <= k < |vars| ensures NameAndType(vars[k], NamesAndTypes(vars)[k]) { PairKept(vars[k]); }
      var out := Put(env.fields, VARIABLES, Arr(NamesAndTypes(vars)));
      PutKeepsRest(env.fields, VARIABLES, Arr(NamesAndTypes(vars)));
      PutKeepsRest(project.fields, "environment", Obj(out));
    }
  }

  // ----- what the hits are -----

  /** The entry is listed under that key of the dict. */
  ghost predicate ListedUnder(d: Json, key: string, entry: Json) {
    && d.Obj? && HasKey(d.fields, key)
    && Iterate(Get(d.fields, key)).Some? && entry in Iterate(Get(d.fields, key)).value
  }

  /** The rule is among those the entry's value scans to; a missing value is the empty text. */
  ghost predicate ValueHits(entry: Json, pyStr: Json -> string, rule: string) {
    entry.Obj? && rule in ScanText(pyStr(GetOr(entry.fields, "value", Str(""))))
  }

  lemma {:induction false} EnvHitsExact(envs: seq<Json>, pyStr: Json -> string, rule: string)
    requires AllDicts(envs)
    ensures rule in EnvHits(envs, pyStr) <==> exists e :: e in envs && ValueHits(e, pyStr, rule)
  {
    hide ScanText, ValueOf, ValueHits;
    if envs != [] {
      OneValueHits(envs[0], pyStr, rule);
      EnvHitsExact(envs[1..], pyStr, rule);
      assert envs == [envs[0]] + envs[1..];
    }
  }

  lemma OneValueHits(e: Json, pyStr: Json -> string, rule: string)
    requires e.Obj?
    ensures rule in ScanText(pyStr(ValueOf(e))) <==> ValueHits(e, pyStr, rule)
  {
    hide ScanText;
  }

  lemma ContainerHitsExact(c: Json, pyStr: Json -> string, rule: string)
    requires RedactContainer(c).Some?
    ensures rule in ContainerHits(c, pyStr) <==> exists e :: ListedUnder(c, "environment", e) && ValueHits(e, pyStr, rule)
  {
    hide EnvHits, ValueHits, Get, HasKey;
    EnvHitsExact(EnvsOf(c, "environment").value, pyStr, rule);
  }

  lemma {:induction false} ContainersHitsExact(cs: seq<Json>, pyStr: Json -> string, rule: string)
    requires RedactContainers(cs).Some?
    ensures rule in ContainersHits(cs, pyStr)
      <==> exists c, e :: c in cs && ListedUnder(c, "environment", e) && ValueHits(e, pyStr, rule)
  {
    hide RedactContainer, ContainerHits, ListedUnder, ValueHits;
    if cs != [] {
      ContainerHitsExact(cs[0], pyStr, rule);
      ContainersHitsExact(cs[1..], pyStr, rule);
      assert cs == [cs[0]] + cs[1..];
    }
  }

  /** The hits of a definition: sorted, and exactly the rules that hit the value of some entry of
      some container. */
  lemma TaskDefHits(td: Json, pyStr: Json -> string, rule: string)
    requires td.Obj? && RedactTaskDef(td, pyStr).Some?
    ensures var hits := RedactTaskDef(td, pyStr).value.hits;
      && StrictlySorted(hits)
      && (rule in hits <==> exists c, e ::
            ListedUnder(td, "containerDefinitions", c) && ListedUnder(c, "environment", e) && ValueHits(e, pyStr, rule))
  {
    hide RedactContainers, ContainersHits, ValueHits, Put;
    var cs := Iterate(GetFrom(td, CONTAINERS, Arr([]))).value;
    ContainersHitsExact(cs, pyStr, rule);
    SortUniqueSorts(ContainersHits(cs, pyStr));
    assert forall c :: c in cs <==> ListedUnder(td, "containerDefinitions", c);
  }

  /** The hits of a project likewise. */
  lemma ProjectHits(project: Json, pyStr: Json -> string, rule: string)
    requires project.Obj? && RedactProject(project, pyStr).Some?
    ensures var hits := RedactProject(project, pyStr).value.hits;
      && StrictlySorted(hits)
      && (rule in hits <==> exists e ::
            ListedUnder(GetFrom(project, "environment", Null), "environmentVariables", e) && ValueHits(e, pyStr, rule))
  {
    hide EnvHits, ValueHits, Put;
    var env := GetFrom(project, "environment", Null);
    if env.Obj? && HasKey(env.fields, VARIABLES) {
      var vars := EnvsOf(env, VARIABLES).value;
      EnvHitsExact(vars, pyStr, rule);
      SortUniqueSorts(EnvHits(vars, pyStr));
      assert RedactProject(project, pyStr).value.hits == SortUnique(EnvHits(vars, pyStr));
      assert forall e :: e in vars <==> ListedUnder(env, "environmentVariables", e);
    } else {
      assert RedactProject(project, pyStr).value.hits == [];
      assert forall e :: !ListedUnder(env, "environmentVariables", e);
    }
  }

  // ----- when the code raises -----

  /** A list of dicts, or something empty that a loop goes over without looking at an entry. */
  ghost predicate IsDictList(v: Json) {
    (v.Arr? && forall k :: 0 <= k < |v.items| ==> v.items[k].Obj?) || v == Str("") || v == Obj([])
  }

  lemma DictListExact(v: Json)
    ensures (Iterate(v).Some? && AllDicts(Iterate(v).value)) <==> IsDictList(v)
  {
    match v
    case Str(s) => if s != [] { assert Iterate(v).value[0] == Str([s[0]]); }
    case Obj(fields) => if fields != [] { assert Iterate(v).value[0] == Str(fields[0].key); }
    case _ =>
  }

  ghost predicate ReadableContainer(c: Json) {
    c.Obj? && (HasKey(c.fields, "environment") ==> IsDictList(Get(c.fields, "environment")))
  }

  lemma {:induction false} ContainersRedacted(cs: seq<Json>)
    ensures RedactContainers(cs).Some? <==> forall k :: 0 <= k < |cs| ==> ReadableContainer(cs[k])
  {
    hide IsDictList;
    if cs != [] {
      var rest := cs[1..];
      ContainersRedacted(rest);
      if cs[0].Obj? && HasKey(cs[0].fields, "environment") { DictListExact(Get(cs[0].fields, "environment")); }
      assert RedactContainer(cs[0]).Some? <==> ReadableContainer(cs[0]);
      hide RedactContainer, ReadableContainer;
      assert forall k :: 0 <= k < |rest| ==> rest[k] == cs[k + 1];
      if forall k :: 0 <= k < |rest| ==> ReadableContainer(rest[k]) {
        assert forall k :: 1 <= k < |cs| ==> cs[k] == rest[k - 1];
      }
    }
  }

  /** A definition is redacted exactly when it lists dicts whose environments, if they have one,
      are lists of dicts; otherwise the code raises. */
  lemma TaskDefRedacted(td: Json, pyStr: Json -> string)
    requires td.Obj?
    ensures RedactTaskDef(td, pyStr).Some? <==>
      var cs := GetFrom(td, "containerDefinitions", Arr([]));
      IsDictList(cs) && (cs.Arr? ==> forall k :: 0 <= k < |cs.items| ==> ReadableContainer(cs.items[k]))
  {
    hide RedactContainers, ContainersHits, SortUnique, Put, ReadableContainer;
    var list := GetFrom(td, CONTAINERS, Arr([]));
    DictListExact(list);
    if Iterate(list).Some? {
      var cs := Iterate(list).value;
      ContainersRedacted(cs);
      forall k | 0 <= k < |cs| && ReadableContainer(cs[k]) ensures cs[k].Obj? { ReadableIsDict(cs[k]); }
    }
  }

  lemma ReadableIsDict(c: Json)
    requires ReadableContainer(c)
    ensures c.Obj?
  {}

  /** A project is redacted unless its environment holds variables that are no list of dicts. */
  lemma ProjectRedacted(project: Json, pyStr: Json -> string)
    requires project.Obj?
    ensures RedactProject(project, pyStr).Some? <==>
      var env := GetFrom(project, "environment", Null);
      (env.Obj? && HasKey(env.fields, "environmentVariables") ==> IsDictList(Get(env.fields, "environmentVariables")))
  {
    hide EnvHits, SortUnique, Put, NamesAndTypes;
    var env := GetFrom(project, "environment", Null);
    if env.Obj? && HasKey(env.fields, VARIABLES) { DictListExact(Get(env.fields, VARIABLES)); }
  }
}
