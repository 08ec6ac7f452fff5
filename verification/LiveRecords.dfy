/** The redactions on live dicts. Each copies a record shallowly and assigns new dicts or lists
    to the copy, so what the caller holds, nested dicts included, is left as it was. */
module LiveRecords {
  import opened Text
  import opened Json
  import opened Secrets
  import opened EnvRedaction
  import opened MapRedaction

  class Dict {
    var fields: seq<Field>

    /** `dict(other)`: a shallow copy. */
    constructor (fields: seq<Field>)
      ensures this.fields == fields
    {
      this.fields := fields;
    }
  }

  /** An entry of a record: a plain value, a dict or a list of dicts. Any of the dicts may be
      shared, within the record or with other holders. */
  datatype Slot =
    | Plain(key: string, value: Json)
    | Live(key: string, dict: Dict)
    | Many(key: string, dicts: seq<Dict>)

  ghost function DictsIn(s: Slot): set<Dict> {
    match s case Plain(_, _) => {} case Live(_, d) => {d} case Many(_, ds) => set d | d in ds
  }

  ghost function Held(slots: seq<Slot>): set<Dict> { set s, d | s in slots && d in DictsIn(s) :: d }

  function ValuesOf(ds: seq<Dict>): seq<Json>
    reads ds
  {
    seq(|ds|, k requires 0 <= k < |ds| reads ds => Obj(ds[k].fields))
  }

  function ValueIn(s: Slot): Json
    reads DictsIn(s)
  {
    match s case Plain(_, v) => v case Live(_, d) => Obj(d.fields) case Many(_, ds) => Arr(ValuesOf(ds))
  }

  function FieldsIn(slots: seq<Slot>): seq<Field>
    reads Held(slots)
  {
    if slots == [] then [] else [Field(slots[0].key, ValueIn(slots[0]))] + FieldsIn(slots[1..])
  }

  /** `d[slot.key] = ...` */
  function PutSlot(slots: seq<Slot>, slot: Slot): seq<Slot> {
    if slots == [] then [slot]
    else if slots[0].key == slot.key then [slot] + slots[1..]
    else [slots[0]] + PutSlot(slots[1..], slot)
  }

  lemma {:induction false} PutSlotReads(slots: seq<Slot>, slot: Slot)
    ensures FieldsIn(PutSlot(slots, slot)) == Put(FieldsIn(slots), slot.key, ValueIn(slot))
  {
    if slots != [] {
      var put := PutSlot(slots, slot);
      if slots[0].key == slot.key {
        assert put[1..] == slots[1..];
      } else {
        PutSlotReads(slots[1..], slot);
        assert put[1..] == PutSlot(slots[1..], slot);
      }
    }
  }

  class Record {
    var slots: seq<Slot>

    constructor (slots: seq<Slot>)
      ensures this.slots == slots
    {
      this.slots := slots;
    }

    /** The record as a value. */
    function Contents(): Json
      reads this, Held(slots)
    {
      Obj(FieldsIn(slots))
    }
  }

  /** The outcome as values. */
  ghost function Outcome(raw: Option<Record>, hits: seq<string>): Option<Redacted>
    reads if raw.Some? then {raw.value} + Held(raw.value.slots) else {}
  {
    if raw.Some? then Some(Redacted(raw.value.Contents(), hits)) else None
  }

  /** Writing to new dicts alone leaves what the old ones hold. */
  twostate lemma {:induction false} OldFieldsKept(slots: seq<Slot>)
    requires forall d :: d in Held(slots) ==> unchanged(d)
    ensures FieldsIn(slots) == old(FieldsIn(slots))
  {
    if slots != [] {
      HeldParts(slots);
      OldFieldsKept(slots[1..]);
      match slots[0]
      case Live(_, d) => assert d in DictsIn(slots[0]);
      case Many(_, ds) =>
        forall k | 0 <= k < |ds| ensures ds[k].fields == old(ds[k].fields) { assert ds[k] in DictsIn(slots[0]); }
        assert ValuesOf(ds) == old(ValuesOf(ds));
      case _ =>
    }
  }

  lemma HeldParts(slots: seq<Slot>)
    requires slots != []
    ensures forall d :: d in DictsIn(slots[0]) ==> d in Held(slots)
    ensures forall d :: d in Held(slots[1..]) ==> d in Held(slots)
  {
    forall d | d in Held(slots[1..]) ensures d in Held(slots) {
      var s :| s in slots[1..] && d in DictsIn(s);
      assert s in slots;
    }
  }

  twostate predicate AllFresh(new ds: seq<Dict>) { forall k :: 0 <= k < |ds| ==> fresh(ds[k]) }

  // ----- ECS -----

  /** `_redact_task_def` */
  method RedactTaskDefinition(td: Record, pyStr: Json -> string) returns (raw: Option<Record>, hits: seq<string>)
    ensures raw.Some? ==> fresh(raw.value)
    ensures raw.Some? ==> exists ds :: raw.value.slots == PutSlot(td.slots, Many(CONTAINERS, ds)) && AllFresh(ds)
    ensures Outcome(raw, hits) == RedactTaskDef(td.Contents(), pyStr)
  {
    hide RedactContainers;
    hide ContainersHits;
    hide SortUnique;
    hide FieldsIn;
    hide PutSlot;
    hide Put;
    ghost var was := td.Contents();
    var copy := new Record(td.slots);
    var cs := Iterate(GetFrom(copy.Contents(), CONTAINERS, Arr([])));
    if cs == None {
      return None, [];
    }
    var containers, found := CopyContainers(cs.value, pyStr);
    OldFieldsKept(td.slots);
    if containers == None {
      return None, [];
    }
    copy.slots := PutSlot(copy.slots, Many(CONTAINERS, containers.value));
    PutSlotReads(td.slots, Many(CONTAINERS, containers.value));
    raw, hits := Some(copy), SortUnique(found);
  }

  method CopyContainers(cs: seq<Json>, pyStr: Json -> string) returns (copies: Option<seq<Dict>>, hits: seq<string>)
    ensures copies.Some? ==> forall k :: 0 <= k < |copies.value| ==> fresh(copies.value[k])
    ensures RedactContainers(cs) == if copies.Some? then Some(ValuesOf(copies.value)) else None
    ensures copies.Some? ==> hits == ContainersHits(cs, pyStr)
  {
    hide RedactContainer;
    hide ContainerHits;
    hide RedactContainers;
    hide ContainersHits;
    var done: seq<Dict> := [];
    hits := [];
    assert cs[0..] == cs && ValuesOf(done) == [];
    PrependMore([], Null, RedactContainers(cs));
    for i := 0 to |cs|
      invariant forall k :: 0 <= k < i == |done| ==> fresh(done[k])
      invariant |done| == i
      invariant hits + ContainersHits(cs[i..], pyStr) == ContainersHits(cs, pyStr)
      invariant RedactContainers(cs) == Prepend(ValuesOf(done), RedactContainers(cs[i..]))
    {
      NextContainer(cs, i, pyStr);
      var c, found := CopyContainer(cs[i], pyStr);
      if c == None {
        return None, [];
      }
      ghost var before := ValuesOf(done);
      PrependMore(before, Obj(c.value.fields), RedactContainers(cs[i + 1..]));
      hits := hits + found;
      done := done + [c.value];
      assert ValuesOf(done) == before + [Obj(c.value.fields)];
    }
    NoContainers(cs, pyStr);
    assert hits + [] == hits && ValuesOf(done) + [] == ValuesOf(done);
    copies := Some(done);
  }

  function Prepend(front: seq<Json>, rest: Option<seq<Json>>): Option<seq<Json>> {
    if rest == None then None else Some(front + rest.value)
  }

  lemma PrependMore(front: seq<Json>, x: Json, rest: Option<seq<Json>>)
    ensures Prepend([], rest) == rest
    ensures Prepend(front, Prepend([x], rest)) == Prepend(front + [x], rest)
  {
    if rest.Some? {
      assert [] + rest.value == rest.value;
      assert front + ([x] + rest.value) == front + [x] + rest.value;
    }
  }

  lemma NextContainer(cs: seq<Json>, i: nat, pyStr: Json -> string)
    requires i < |cs|
    ensures ContainersHits(cs[i..], pyStr) == ContainerHits(cs[i], pyStr) + ContainersHits(cs[i + 1..], pyStr)
    ensures RedactContainers(cs[i..])
      == if RedactContainer(cs[i]) == None then None else Prepend([RedactContainer(cs[i]).value], RedactContainers(cs[i + 1..]))
  {
    hide ContainerHits;
    hide RedactContainer;
    assert cs[i..][1..] == cs[i + 1..];
  }

  lemma NoContainers(cs: seq<Json>, pyStr: Json -> string)
    ensures ContainersHits(cs[|cs|..], pyStr) == [] && RedactContainers(cs[|cs|..]) == Some([])
  {}

  /** The body of the outer loop. */
  method CopyContainer(container: Json, pyStr: Json -> string) returns (c: Option<Dict>, hits: seq<string>)
    ensures c.Some? ==> fresh(c.value)
    ensures RedactContainer(container) == if c.Some? then Some(Obj(c.value.fields)) else None
    ensures hits == ContainerHits(container, pyStr)
  {
    hide EnvHits;
    hide EnvNames;
    hide Put;
    if !container.Obj? || EnvsOf(container, "environment") == None {
      return None, [];
    }
    var copy := new Dict(container.fields);
    hits := [];
    if HasKey(copy.fields, "environment") {
      var names;
      names, hits := EnvLoop(EnvsOf(container, "environment").value, pyStr);
      copy.fields := Put(copy.fields, "environment", Arr(names));
    } else {
      NoHits(pyStr);
    }
    c := Some(copy);
  }

  lemma NoHits(pyStr: Json -> string)
    ensures EnvHits([], pyStr) == []
  {}

  // ----- CodeBuild -----

  /** `_redact_project` */
  method RedactBuildProject(project: Record, pyStr: Json -> string) returns (raw: Option<Record>, hits: seq<string>)
    ensures raw.Some? ==> fresh(raw.value)
    ensures raw.Some? && raw.value.slots != project.slots ==>
      exists d :: raw.value.slots == PutSlot(project.slots, Live("environment", d)) && fresh(d)
    ensures Outcome(raw, hits) == RedactProject(project.Contents(), pyStr)
  {
    hide EnvHits;
    hide EnvsOf;
    hide NamesAndTypes;
    hide HasKey;
    hide Get;
    hide SortUnique;
    hide FieldsIn;
    hide PutSlot;
    hide Put;
    ghost var was := project.Contents();
    var copy := new Record(project.slots);
    var found := [];
    var env := GetFrom(copy.Contents(), "environment", Null);
    if env.Obj? && HasKey(env.fields, VARIABLES) {
      var d;
      d, found := CopyEnvironment(env, pyStr);
      OldFieldsKept(project.slots);
      if d == None {
        return None, [];
      }
      copy.slots := PutSlot(copy.slots, Live("environment", d.value));
      PutSlotReads(project.slots, Live("environment", d.value));
    }
    NothingSorted();
    raw, hits := Some(copy), SortUnique(found);
  }

  method CopyEnvironment(env: Json, pyStr: Json -> string) returns (copy: Option<Dict>, hits: seq<string>)
    requires env.Obj? && HasKey(env.fields, VARIABLES)
    ensures copy.Some? <==> EnvsOf(env, VARIABLES).Some?
    ensures copy.Some? ==>
      && fresh(copy.value) && AllDicts(EnvsOf(env, VARIABLES).value)
      && copy.value.fields == Put(env.fields, VARIABLES, Arr(NamesAndTypes(EnvsOf(env, VARIABLES).value)))
      && hits == EnvHits(EnvsOf(env, VARIABLES).value, pyStr)
  {
    hide EnvHits;
    hide EnvsOf;
    hide NamesAndTypes;
    hide Put;
    EntriesAreDicts(env, VARIABLES);
    if EnvsOf(env, VARIABLES) == None {
      return None, [];
    }
    var d := new Dict(env.fields);
    var kept;
    kept, hits := VariableLoop(EnvsOf(env, VARIABLES).value, pyStr);
    d.fields := Put(d.fields, VARIABLES, Arr(kept));
    copy := Some(d);
  }

  lemma EntriesAreDicts(c: Json, key: string)
    requires c.Obj?
    ensures EnvsOf(c, key).Some? ==> AllDicts(EnvsOf(c, key).value)
  {}

  lemma NothingSorted()
    ensures SortUnique([]) == []
  {}

  // ----- Lambda -----

  method VariableValues(vars: seq<Field>, pyStr: Json -> string) returns (hits: seq<string>)
    ensures hits == VariableHits(vars, pyStr)
  {
    hide ScanText;
    hits := [];
    for i := 0 to |vars|
      invariant hits + VariableHits(vars[i..], pyStr) == VariableHits(vars, pyStr)
    {
      hits := hits + ScanText(pyStr(vars[i].value));
      assert vars[i..][1..] == vars[i + 1..];
    }
  }

  /** `_redact_environment` and the rewriting of the record; `pop` works on the new dict. */
  method RedactLambda(fn: Record, pyStr: Json -> string) returns (raw: Option<Record>, hits: seq<string>)
    ensures raw.Some? ==> fresh(raw.value)
    ensures raw.Some? && raw.value.slots != fn.slots ==>
      exists d :: raw.value.slots == PutSlot(fn.slots, Live(ENVIRONMENT, d)) && fresh(d)
    ensures Outcome(raw, hits) == RedactFunction(fn.Contents(), pyStr)
  {
    hide VariableHits;
    hide VariablesIn;
    hide SortUnique;
    hide FieldsIn;
    hide PutSlot;
    hide Put;
    hide Without;
    ghost var was := fn.Contents();
    var env := GetFrom(fn.Contents(), ENVIRONMENT, Obj([]));
    var vars := VariablesIn(env);
    if vars == None {
      return None, [];
    }
    DictOfVariables(env);
    var found := VariableValues(vars.value, pyStr);
    OldFieldsKept(fn.slots);
    var names := SortUnique(KeyNames(vars.value));
    var copy := new Record(fn.slots);
    if HasKey(FieldsIn(copy.slots), ENVIRONMENT) {
      var d := new Dict(Put(env.fields, VARIABLE_NAMES, Arr(Strings(names))));
      copy.slots := PutSlot(copy.slots, Live(ENVIRONMENT, d));
      d.fields := Without(d.fields, LAMBDA_VARIABLES);
      OldFieldsKept(fn.slots);
      PutSlotReads(fn.slots, Live(ENVIRONMENT, d));
    }
    raw, hits := Some(copy), SortUnique(found);
  }

  lemma DictOfVariables(env: Json)
    ensures VariablesIn(env).Some? ==> env.Obj?
  {}

  // ----- Compute Engine -----

  /** The metadata part of `gather`; `pop` works on the new dict. */
  method RedactComputeInstance(inst: Record) returns (raw: Option<Record>, hits: seq<string>)
    ensures raw.Some? ==> fresh(raw.value)
    ensures raw.Some? && raw.value.slots != inst.slots ==>
      exists d :: raw.value.slots == PutSlot(inst.slots, Live(METADATA, d)) && fresh(d)
    ensures Outcome(raw, hits) == RedactInstance(inst.Contents())
  {
    hide FieldsIn;
    hide PutSlot;
    hide Put;
    hide Without;
    hide RedactMetadata;
    hide Merged;
    hide Get;
    hide HasKey;
    ghost var was := inst.Contents();
    var md := GetFrom(inst.Contents(), METADATA, Obj([]));
    if !md.Obj? {
      return None, [];
    }
    var items := GetFrom(md, ITEMS, Null);
    var xs := if Falsy(items) then Some([]) else Iterate(items);
    if xs == None {
      return None, [];
    }
    var m := RedactMetadataLoop(xs.value);
    OldFieldsKept(inst.slots);
    if m == None {
      return None, [];
    }
    var copy := new Record(inst.slots);
    if HasKey(FieldsIn(copy.slots), METADATA) {
      var d := new Dict(Merged(md.fields, m.value));
      copy.slots := PutSlot(copy.slots, Live(METADATA, d));
      d.fields := Without(d.fields, ITEMS);
      OldFieldsKept(inst.slots);
      PutSlotReads(inst.slots, Live(METADATA, d));
    }
    raw, hits := Some(copy), m.value.hits;
  }
}
