/** The redactors that keep keys and drop values: Lambda environment variables and Compute
    Engine instance metadata, with its five allow-listed keys. */
module MapRedaction {
  import opened Text
  import opened Json
  import opened Secrets
  import opened EnvRedaction

  // ----- dicts without a key -----

  lemma {:induction false} WithoutIsGone(fields: seq<Field>, key: string)
    ensures !HasKey(Without(fields, key), key)
  {
    if fields != [] {
      WithoutIsGone(fields[1..], key);
      assert Without(fields, key) == Without(fields[1..], key) || Without(fields, key)[1..] == Without(fields[1..], key);
    }
  }

  lemma {:induction false} WithoutForgets(fields: seq<Field>, key: string, value: Json)
    ensures Without(Put(fields, key, value), key) == Without(fields, key)
  {
    if fields != [] && fields[0].key != key { WithoutForgets(fields[1..], key, value); }
  }

  lemma {:induction false} WithoutOther(fields: seq<Field>, key: string, other: string, value: Json)
    requires key != other
    ensures Without(Put(fields, other, value), key) == Put(Without(fields, key), other, value)
  {
    if fields != [] {
      var rest := Without(fields[1..], key);
      if fields[0].key == other {
        assert Put(fields, other, value)[1..] == fields[1..];
        assert ([fields[0]] + rest)[1..] == rest;
      } else {
        WithoutOther(fields[1..], key, other, value);
        assert Put(fields, other, value)[1..] == Put(fields[1..], other, value);
        if fields[0].key != key { assert ([fields[0]] + rest)[1..] == rest; }
      }
    }
  }

  /** A key that is replaced, another that is set, and the first removed: what it was replaced
      with is forgotten. */
  lemma ForgetsReplaced(fields: seq<Field>, key: string, other: string, value: Json, masked: Json)
    requires key != other
    ensures Without(Put(Put(fields, key, masked), other, value), key) == Without(Put(fields, other, value), key)
  {
    WithoutOther(Put(fields, key, masked), key, other, value);
    WithoutForgets(fields, key, masked);
    WithoutOther(fields, key, other, value);
  }

  lemma {:induction false} WithoutKeepsRest(fields: seq<Field>, key: string)
    ensures SameElsewhere(Without(fields, key), fields, {key})
  {
    if fields != [] {
      var rest := Without(fields[1..], key);
      WithoutKeepsRest(fields[1..], key);
      assert fields[0].key != key ==> Without(fields, key)[1..] == rest;
    }
  }

  lemma SameElsewhereChain(a: seq<Field>, b: seq<Field>, c: seq<Field>, ks: set<string>, more: set<string>)
    requires SameElsewhere(a, b, ks) && SameElsewhere(b, c, more)
    ensures SameElsewhere(a, c, ks + more)
  {}

  lemma ReadsAlike(a: seq<Field>, b: seq<Field>, key: string, other: string)
    requires SameElsewhere(a, b, {key}) && other != key
    ensures GetOr(a, other, Null) == GetOr(b, other, Null)
  {}

  // ----- Lambda: _redact_environment and its use in gather -----

  const ENVIRONMENT := "Environment"
  const LAMBDA_VARIABLES := "Variables"
  const VARIABLE_NAMES := "VariableNames"

  /** `env.get('Variables', {}) or {}`; reading anything but a dict raises. */
  function VariablesIn(env: Json): Option<seq<Field>> {
    if !env.Obj? then None
    else
      var vars := GetFrom(env, LAMBDA_VARIABLES, Obj([]));
      if Falsy(vars) then Some([]) else if vars.Obj? then Some(vars.fields) else None
  }

  function KeyNames(vars: seq<Field>): seq<string> { seq(|vars|, k requires 0 <= k < |vars| => vars[k].key) }

  function VariableHits(vars: seq<Field>, pyStr: Json -> string): seq<string> {
    if vars == [] then [] else ScanText(pyStr(vars[0].value)) + VariableHits(vars[1..], pyStr)
  }

  function RedactFunction(fn: Json, pyStr: Json -> string): Option<Redacted>
    requires fn.Obj?
  {
    var env := GetFrom(fn, ENVIRONMENT, Obj([]));
    match VariablesIn(env)
    case None => None
    case Some(vars) =>
      var names := Arr(Strings(SortUnique(KeyNames(vars))));
      var record :=
        if HasKey(fn.fields, ENVIRONMENT)
        then Obj(Put(fn.fields, ENVIRONMENT, Obj(Without(Put(env.fields, VARIABLE_NAMES, names), LAMBDA_VARIABLES))))
        else fn;
      Some(Redacted(record, SortUnique(VariableHits(vars, pyStr))))
  }

  function MaskValues(vars: seq<Field>): seq<Field> {
    seq(|vars|, k requires 0 <= k < |vars| => Field(vars[k].key, HIDDEN))
  }

  function MaskVariables(env: Json): Json {
    if env.Obj? && HasKey(env.fields, LAMBDA_VARIABLES) && Get(env.fields, LAMBDA_VARIABLES).Obj?
    then Obj(Put(env.fields, LAMBDA_VARIABLES, Obj(MaskValues(Get(env.fields, LAMBDA_VARIABLES).fields)))) else env
  }

  function MaskFunction(fn: Json): Json {
    if fn.Obj? && HasKey(fn.fields, ENVIRONMENT)
    then Obj(Put(fn.fields, ENVIRONMENT, MaskVariables(Get(fn.fields, ENVIRONMENT)))) else fn
  }

  lemma VariableKeysDiffer()
    ensures LAMBDA_VARIABLES != VARIABLE_NAMES
  {
    assert |LAMBDA_VARIABLES| == 9 && |VARIABLE_NAMES| == 13;
  }

  lemma MaskedVariables(env: Json, names: Json)
    requires env.Obj?
    ensures MaskVariables(env).Obj?
    ensures VariablesIn(MaskVariables(env)).Some? <==> VariablesIn(env).Some?
    ensures VariablesIn(env).Some? ==>
      KeyNames(VariablesIn(MaskVariables(env)).value) == KeyNames(VariablesIn(env).value)
    ensures Without(Put(MaskVariables(env).fields, VARIABLE_NAMES, names), LAMBDA_VARIABLES)
      == Without(Put(env.fields, VARIABLE_NAMES, names), LAMBDA_VARIABLES)
  {
    VariableKeysDiffer();
    if HasKey(env.fields, LAMBDA_VARIABLES) && Get(env.fields, LAMBDA_VARIABLES).Obj? {
      var vars := Get(env.fields, LAMBDA_VARIABLES).fields;
      var masked := Obj(MaskValues(vars));
      PutGet(env.fields, LAMBDA_VARIABLES, masked, LAMBDA_VARIABLES);
      assert KeyNames(MaskValues(vars)) == KeyNames(vars);
      assert |MaskValues(vars)| == |vars|;
      ForgetsReplaced(env.fields, LAMBDA_VARIABLES, VARIABLE_NAMES, names, masked);
    }
  }

  lemma FunctionRecordIgnoresValues(fn: Json, pyStr: Json -> string)
    requires fn.Obj?
    ensures MaskFunction(fn).Obj?
    ensures RedactFunction(fn, pyStr).Some? <==> RedactFunction(MaskFunction(fn), pyStr).Some?
    ensures RedactFunction(fn, pyStr).Some? ==>
      RedactFunction(fn, pyStr).value.record == RedactFunction(MaskFunction(fn), pyStr).value.record
  {
    hide SortUnique;
    hide VariableHits;
    hide VariablesIn;
    hide MaskVariables;
    hide Without;
    if HasKey(fn.fields, ENVIRONMENT) {
      var env := Get(fn.fields, ENVIRONMENT);
      var masked := MaskVariables(env);
      PutGet(fn.fields, ENVIRONMENT, masked, ENVIRONMENT);
      assert GetFrom(MaskFunction(fn), ENVIRONMENT, Obj([])) == masked;
      if env.Obj? {
        var names := if VariablesIn(env).Some? then Arr(Strings(SortUnique(KeyNames(VariablesIn(env).value)))) else Null;
        MaskedVariables(env, names);
        var out := Obj(Without(Put(env.fields, VARIABLE_NAMES, names), LAMBDA_VARIABLES));
        PutTwice(fn.fields, ENVIRONMENT, masked, out);
      } else {
        NotMasked(env);
        PutSame(fn.fields, ENVIRONMENT);
      }
    }
  }

  lemma NotMasked(env: Json)
    requires !env.Obj?
    ensures MaskVariables(env) == env
  {}

  /** Two functions that differ only in the values of their variables are redacted to the same
      record, in which no variable's value is left. */
  lemma FunctionNonInterference(a: Json, b: Json, pyStr: Json -> string)
    requires a.Obj? && b.Obj? && MaskFunction(a) == MaskFunction(b)
    ensures RedactFunction(a, pyStr).Some? <==> RedactFunction(b, pyStr).Some?
    ensures SameRecord(RedactFunction(a, pyStr), RedactFunction(b, pyStr))
    ensures RedactFunction(a, pyStr).Some? && HasKey(a.fields, "Environment") ==>
      var env := GetFrom(RedactFunction(a, pyStr).value.record, "Environment", Null);
      env.Obj? && !HasKey(env.fields, "Variables")
  {
    FunctionRecordIgnoresValues(a, pyStr);
    FunctionRecordIgnoresValues(b, pyStr);
    if RedactFunction(a, pyStr).Some? && HasKey(a.fields, ENVIRONMENT) {
      FunctionValuesGone(a, pyStr);
    }
  }

  lemma FunctionValuesGone(fn: Json, pyStr: Json -> string)
    requires fn.Obj? && RedactFunction(fn, pyStr).Some? && HasKey(fn.fields, "Environment")
    ensures var env := GetFrom(RedactFunction(fn, pyStr).value.record, "Environment", Null);
      env.Obj? && !HasKey(env.fields, "Variables")
  {
    hide SortUnique;
    hide VariableHits;
    hide Without;
    var env := Get(fn.fields, ENVIRONMENT);
    var names := Arr(Strings(SortUnique(KeyNames(VariablesIn(env).value))));
    var out := Without(Put(env.fields, VARIABLE_NAMES, names), LAMBDA_VARIABLES);
    WithoutIsGone(Put(env.fields, VARIABLE_NAMES, names), LAMBDA_VARIABLES);
    PutGet(fn.fields, ENVIRONMENT, Obj(out), ENVIRONMENT);
  }

  /** The record of a function holds the names of its variables, each once and in order, in
      place of the variables; every other field of the environment and of the function is as
      before. */
  lemma FunctionKeeps(fn: Json, pyStr: Json -> string)
    requires fn.Obj? && RedactFunction(fn, pyStr).Some?
    ensures var record := RedactFunction(fn, pyStr).value.record;
      if !HasKey(fn.fields, "Environment") then record == fn
      else
        && record.Obj? && SameElsewhere(record.fields, fn.fields, {"Environment"})
        && Get(fn.fields, "Environment").Obj? && GetFrom(record, "Environment", Null).Obj?
        && HoldsNames(GetFrom(record, "Environment", Null).fields, Get(fn.fields, "Environment").fields)
  {
    hide SortUnique;
    hide VariableHits;
    hide Without;
    hide Put;
    hide HoldsNames;
    hide SameElsewhere;
    if HasKey(fn.fields, ENVIRONMENT) {
      var env := Get(fn.fields, ENVIRONMENT);
      EnvironmentHolds(env);
      var names := Arr(Strings(SortUnique(KeyNames(VariablesIn(env).value))));
      PutKeepsRest(fn.fields, ENVIRONMENT, Obj(Without(Put(env.fields, VARIABLE_NAMES, names), LAMBDA_VARIABLES)));
    }
  }

  /** The name of a variable: a key of the dict under `Variables`. */
  ghost predicate NamesVariable(env: seq<Field>, name: string) {
    HasKey(env, "Variables") && Get(env, "Variables").Obj? && HasKey(Get(env, "Variables").fields, name)
  }

  ghost predicate HoldsNames(out: seq<Field>, env: seq<Field>) {
    && SameElsewhere(out, env, {"Variables", "VariableNames"})
    && !HasKey(out, "Variables")
    && exists names :: GetOr(out, "VariableNames", Null) == Arr(Strings(names)) && StrictlySorted(names)
         && forall x :: x in names <==> NamesVariable(env, x)
  }

  lemma EnvironmentHolds(env: Json)
    requires VariablesIn(env).Some?
    ensures HoldsNames(Without(Put(env.fields, VARIABLE_NAMES, Arr(Strings(SortUnique(KeyNames(VariablesIn(env).value))))),
                               LAMBDA_VARIABLES), env.fields)
  {
    hide SortUnique;
    hide Put;
    hide Without;
    hide SameElsewhere;
    VariableKeysDiffer();
    var vars := VariablesIn(env).value;
    var names := SortUnique(KeyNames(vars));
    var put := Put(env.fields, VARIABLE_NAMES, Arr(Strings(names)));
    var out := Without(put, LAMBDA_VARIABLES);
    PutKeepsRest(env.fields, VARIABLE_NAMES, Arr(Strings(names)));
    WithoutKeepsRest(put, LAMBDA_VARIABLES);
    WithoutIsGone(put, LAMBDA_VARIABLES);
    SameElsewhereChain(out, put, env.fields, {LAMBDA_VARIABLES}, {VARIABLE_NAMES});
    assert {LAMBDA_VARIABLES} + {VARIABLE_NAMES} == {LAMBDA_VARIABLES, VARIABLE_NAMES};
    ReadsAlike(out, put, LAMBDA_VARIABLES, VARIABLE_NAMES);
    SortUniqueSorts(KeyNames(vars));
    forall x ensures x in names <==> NamesVariable(env.fields, x) { KeyNamesExact(vars, x); }
  }

  lemma {:induction false} KeyNamesExact(vars: seq<Field>, x: string)
    ensures x in KeyNames(vars) <==> HasKey(vars, x)
  {
    if vars != [] {
      KeyNamesExact(vars[1..], x);
      assert KeyNames(vars) == [vars[0].key] + KeyNames(vars[1..]);
    }
  }

  // ----- Compute Engine: _redact_metadata and its use in gather -----

  /** `_CHECK_RELEVANT_METADATA_KEYS` */
  predicate Relevant(key: Json) {
    key == Str("serial-port-enable") || key == Str("enable-oslogin") || key == Str("enable-oslogin-2fa")
    || key == Str("ssh-keys") || key == Str("created-by")
  }

  /** `item.get('value', '') or ''` */
  function ItemValue(item: Json): Json
    requires item.Obj?
  {
    var v := GetFrom(item, "value", Str([]));
    if Falsy(v) then Str([]) else v
  }

  function ItemKey(item: Json): Json
    requires item.Obj?
  {
    GetFrom(item, "key", Null)
  }

  /** Text, or false without being a list or a dict, which cannot be looked up in a set. */
  predicate PlainKey(key: Json) { key.Str? || key == Null || key == Bool(false) || key == Int(0) }

  /** An item the loop gets through: a dict whose value, if any, is text and whose key, if any,
      is text. */
  predicate PlainItem(item: Json) { item.Obj? && ItemValue(item).Str? && PlainKey(ItemKey(item)) }

  predicate PlainItems(items: seq<Json>) { forall k :: 0 <= k < |items| ==> PlainItem(items[k]) }

  datatype Metadata = Metadata(names: seq<string>, hits: seq<string>, values: seq<Field>)

  function ItemNames(items: seq<Json>): seq<string>
    requires PlainItems(items)
  {
    if items == [] then []
    else (if Falsy(ItemKey(items[0])) then [] else [ItemKey(items[0]).s]) + ItemNames(items[1..])
  }

  function ItemHits(items: seq<Json>): seq<string>
    requires PlainItems(items)
  {
    if items == [] then [] else ScanText(ItemValue(items[0]).s) + ItemHits(items[1..])
  }

  /** The allow-listed values, a later item for a key replacing an earlier one. */
  function KeptValues(items: seq<Json>): seq<Field>
    requires PlainItems(items)
  {
    if items == [] then []
    else
      var item := items[|items| - 1];
      var rest := KeptValues(items[..|items| - 1]);
      if Relevant(ItemKey(item)) then Put(rest, ItemKey(item).s, ItemValue(item)) else rest
  }

  function RedactMetadata(items: seq<Json>): Option<Metadata> {
    if PlainItems(items) then Some(Metadata(SortUnique(ItemNames(items)), SortUnique(ItemHits(items)), KeptValues(items)))
    else None
  }

  lemma PlainFacts(item: Json)
    requires PlainItem(item)
    ensures item.Obj? && ItemValue(item).Str?
    ensures Relevant(ItemKey(item)) || !Falsy(ItemKey(item)) ==> ItemKey(item).Str?
  {}

  lemma NoItems()
    ensures ItemHits([]) == [] && ItemNames([]) == [] && KeptValues([]) == []
  {}

  lemma LoopStep(items: seq<Json>, i: nat)
    requires PlainItems(items) && i < |items|
    ensures ItemHits(items[i..]) == ScanText(ItemValue(items[i]).s) + ItemHits(items[i + 1..])
    ensures ItemNames(items[i..]) == (if Falsy(ItemKey(items[i])) then [] else [ItemKey(items[i]).s]) + ItemNames(items[i + 1..])
    ensures KeptValues(items[..i + 1]) == if Relevant(ItemKey(items[i]))
      then Put(KeptValues(items[..i]), ItemKey(items[i]).s, ItemValue(items[i])) else KeptValues(items[..i])
  {
    hide ScanText;
    hide PlainItem;
    hide Relevant;
    hide Falsy;
    hide Put;
    assert items[i..][1..] == items[i + 1..] && items[i..][0] == items[i];
    assert items[..i + 1][..i] == items[..i];
  }

  /** The code: one loop extending the hits and filling the kept values. */
  method RedactMetadataLoop(items: seq<Json>) returns (r: Option<Metadata>)
    ensures r == RedactMetadata(items)
  {
    hide ScanText;
    hide SortUnique;
    hide Put;
    hide Relevant;
    hide PlainItem;
    hide Falsy;
    hide GetOr;
    hide ItemHits;
    hide ItemNames;
    hide KeptValues;
    var hits, values, names := [], [], [];
    if !PlainItems(items) {
      return None;
    }
    assert items[0..] == items;
    NoItems();
    for i := 0 to |items|
      invariant hits + ItemHits(items[i..]) == ItemHits(items)
      invariant names + ItemNames(items[i..]) == ItemNames(items)
      invariant values == KeptValues(items[..i])
    {
      var item := items[i];
      PlainFacts(item);
      LoopStep(items, i);
      hits := hits + ScanText(ItemValue(item).s);
      if Relevant(ItemKey(item)) {
        values := Put(values, ItemKey(item).s, ItemValue(item));
      }
      if !Falsy(ItemKey(item)) {
        names := names + [ItemKey(item).s];
      }
    }
    assert items[..|items|] == items && items[|items|..] == [];
    assert hits + [] == hits && names + [] == names;
    r := Some(Metadata(SortUnique(names), SortUnique(hits), values));
  }

  /** The item with its value blotted out, unless its key is on the allow-list. */
  function MaskItem(item: Json): Json {
    if item.Obj? && HasKey(item.fields, "value") && Get(item.fields, "value").Str? && !Relevant(ItemKey(item))
    then Obj(Put(item.fields, "value", HIDDEN)) else item
  }

  function MaskItems(items: seq<Json>): seq<Json> { seq(|items|, k requires 0 <= k < |items| => MaskItem(items[k])) }

  lemma MaskedItem(item: Json)
    ensures PlainItem(MaskItem(item)) <==> PlainItem(item)
    ensures PlainItem(item) ==> ItemKey(MaskItem(item)) == ItemKey(item)
    ensures PlainItem(item) && Relevant(ItemKey(item)) ==> MaskItem(item) == item
  {
    assert |"key"| == 3 && |"value"| == 5;
    if item.Obj? {
      PutGet(item.fields, "value", HIDDEN, "key");
    }
  }

  lemma {:induction false} MaskedNames(items: seq<Json>)
    requires PlainItems(items) && PlainItems(MaskItems(items))
    ensures ItemNames(MaskItems(items)) == ItemNames(items)
  {
    hide MaskItem;
    if items != [] {
      MaskedItem(items[0]);
      assert MaskItems(items)[1..] == MaskItems(items[1..]);
      MaskedNames(items[1..]);
    }
  }

  lemma {:induction false} MaskedKept(items: seq<Json>)
    requires PlainItems(items) && PlainItems(MaskItems(items))
    ensures KeptValues(MaskItems(items)) == KeptValues(items)
  {
    hide MaskItem;
    hide Put;
    if items != [] {
      var n := |items| - 1;
      MaskedItem(items[n]);
      assert PlainItem(items[n]);
      assert MaskItems(items)[..n] == MaskItems(items[..n]);
      MaskedKept(items[..n]);
    }
  }

  /** Names and kept values are the same with every other value blotted out. */
  lemma MetadataIgnoresValues(items: seq<Json>)
    ensures RedactMetadata(items).Some? <==> RedactMetadata(MaskItems(items)).Some?
    ensures RedactMetadata(items).Some? ==>
      && RedactMetadata(items).value.names == RedactMetadata(MaskItems(items)).value.names
      && RedactMetadata(items).value.values == RedactMetadata(MaskItems(items)).value.values
  {
    hide MaskItem;
    hide PlainItem;
    hide SortUnique;
    var masked := MaskItems(items);
    forall k | 0 <= k < |items| ensures PlainItem(masked[k]) <==> PlainItem(items[k]) { MaskedItem(items[k]); }
    if PlainItems(items) {
      assert PlainItems(masked);
      MaskedNames(items);
      MaskedKept(items);
    } else {
      var k :| 0 <= k < |items| && !PlainItem(items[k]);
      assert !PlainItem(masked[k]);
    }
  }

  /** Two instances that differ only in metadata values outside the allow-list, and on which
      the same rules hit, have the same redacted metadata. */
  lemma MetadataNonInterference(a: seq<Json>, b: seq<Json>)
    requires MaskItems(a) == MaskItems(b)
    ensures RedactMetadata(a).Some? <==> RedactMetadata(b).Some?
    ensures RedactMetadata(a).Some? && RedactMetadata(a).value.hits == RedactMetadata(b).value.hits
      ==> RedactMetadata(a) == RedactMetadata(b)
  {
    hide RedactMetadata;
    MetadataIgnoresValues(a);
    MetadataIgnoresValues(b);
  }

  /** `n` is the last item for `key`. */
  ghost predicate LastFor(items: seq<Json>, key: string, n: int)
    requires PlainItems(items)
  {
    0 <= n < |items| && ItemKey(items[n]) == Str(key) && forall k :: n < k < |items| ==> ItemKey(items[k]) != Str(key)
  }

  lemma PlainDicts(items: seq<Json>)
    requires PlainItems(items)
    ensures forall k :: 0 <= k < |items| ==> items[k].Obj?
  {}

  /** Only allow-listed keys keep a value. */
  lemma {:induction false} KeptAreRelevant(items: seq<Json>, key: string)
    requires PlainItems(items)
    ensures HasKey(KeptValues(items), key) <==>
      Relevant(Str(key)) && exists k :: 0 <= k < |items| && ItemKey(items[k]) == Str(key)
  {
    hide Relevant;
    hide PlainItem;
    PlainDicts(items);
    if items != [] {
      var last := |items| - 1;
      var front := items[..last];
      assert PlainItem(items[last]);
      KeptAreRelevant(front, key);
      KeptStep(KeptValues(front), items[last], key);
      assert forall k :: 0 <= k < last ==> front[k] == items[k];
    }
  }

  /** What is kept under a key is the value of the last item for it. */
  lemma {:induction false} KeptIsLast(items: seq<Json>, key: string, n: nat)
    requires PlainItems(items) && Relevant(Str(key)) && LastFor(items, key, n)
    ensures HasKey(KeptValues(items), key) && Get(KeptValues(items), key) == ItemValue(items[n])
  {
    hide Relevant;
    hide PlainItem;
    PlainDicts(items);
    var last := |items| - 1;
    var front := items[..last];
    assert PlainItem(items[last]);
    KeptStep(KeptValues(front), items[last], key);
    if n < last {
      assert forall k :: 0 <= k < last ==> front[k] == items[k];
      KeptIsLast(front, key, n);
    }
  }

  lemma KeptStep(rest: seq<Field>, item: Json, key: string)
    requires PlainItem(item)
    ensures var now := if Relevant(ItemKey(item)) then Put(rest, ItemKey(item).s, ItemValue(item)) else rest;
      && (HasKey(now, key) <==> HasKey(rest, key) || (Relevant(Str(key)) && ItemKey(item) == Str(key)))
      && (Relevant(Str(key)) && ItemKey(item) == Str(key) ==> Get(now, key) == ItemValue(item))
      && (ItemKey(item) != Str(key) && HasKey(rest, key) ==> Get(now, key) == Get(rest, key))
  {
    if Relevant(ItemKey(item)) { PutGet(rest, ItemKey(item).s, ItemValue(item), key); }
  }

  lemma {:induction false} NamesExact(items: seq<Json>, name: string)
    requires PlainItems(items)
    ensures name in ItemNames(items) <==> name != [] && exists k :: 0 <= k < |items| && ItemKey(items[k]) == Str(name)
  {
    hide PlainItem;
    hide Falsy;
    PlainDicts(items);
    if items != [] {
      var rest := items[1..];
      assert PlainItem(items[0]);
      KeyFacts(items[0]);
      NamesExact(rest, name);
      assert forall k :: 0 <= k < |rest| ==> rest[k] == items[k + 1];
      if exists k :: 0 <= k < |items| && ItemKey(items[k]) == Str(name) {
        var k :| 0 <= k < |items| && ItemKey(items[k]) == Str(name);
        assert k == 0 || ItemKey(rest[k - 1]) == Str(name);
      }
    }
  }

  lemma KeyFacts(item: Json)
    requires PlainItem(item)
    ensures Falsy(ItemKey(item)) || ItemKey(item).Str?
    ensures ItemKey(item).Str? ==> (Falsy(ItemKey(item)) <==> ItemKey(item).s == [])
  {}

  // ----- the records made of it -----

  const METADATA := "metadata"
  const ITEMS := "items"
  const ITEM_KEYS := "itemKeys"
  const ITEM_VALUES := "itemValues"

  /** `_redact_metadata` of whatever is given as the items. */
  function MetadataOf(items: Json): Option<Metadata> {
    if Falsy(items) then RedactMetadata([])
    else match Iterate(items) case None => None case Some(xs) => RedactMetadata(xs)
  }

  /** `{**fields, 'itemKeys': ..., 'itemValues': ...}` */
  function Merged(fields: seq<Field>, m: Metadata): seq<Field> {
    Put(Put(fields, ITEM_KEYS, Arr(Strings(m.names))), ITEM_VALUES, Obj(m.values))
  }

  /** The record of an instance. */
  function RedactInstance(inst: Json): Option<Redacted>
    requires inst.Obj?
  {
    var md := GetFrom(inst, METADATA, Obj([]));
    if !md.Obj? then None
    else
      match MetadataOf(GetFrom(md, ITEMS, Null))
      case None => None
      case Some(m) =>
        var record :=
          if HasKey(inst.fields, METADATA)
          then Obj(Put(inst.fields, METADATA, Obj(Without(Merged(md.fields, m), ITEMS))))
          else inst;
        Some(Redacted(record, m.hits))
  }

  /** The record of the project-wide metadata. */
  function RedactProjectMetadata(items: Json): Option<Redacted> {
    match MetadataOf(items)
    case None => None
    case Some(m) => Some(Redacted(Obj(Merged([], m)), m.hits))
  }

  function MaskList(items: Json): Json { if items.Arr? then Arr(MaskItems(items.items)) else items }

  /** The dict with the values of its items blotted out, but for those on the allow-list. */
  function MaskMetadata(md: Json): Json {
    if md.Obj? && HasKey(md.fields, ITEMS) then Obj(Put(md.fields, ITEMS, MaskList(Get(md.fields, ITEMS)))) else md
  }

  function MaskInstance(inst: Json): Json {
    if inst.Obj? && HasKey(inst.fields, METADATA)
    then Obj(Put(inst.fields, METADATA, MaskMetadata(Get(inst.fields, METADATA)))) else inst
  }

  ghost predicate SameButHits(a: Option<Metadata>, b: Option<Metadata>) {
    && (a.Some? <==> b.Some?)
    && (a.Some? ==> a.value.names == b.value.names && a.value.values == b.value.values)
  }

  lemma MaskedMetadataOf(items: Json)
    ensures SameButHits(MetadataOf(items), MetadataOf(MaskList(items)))
  {
    hide RedactMetadata;
    if items.Arr? {
      MetadataIgnoresValues(items.items);
      assert |MaskItems(items.items)| == |items.items|;
    }
  }

  lemma ItemKeysDiffer()
    ensures ITEMS != ITEM_KEYS && ITEMS != ITEM_VALUES && ITEM_KEYS != ITEM_VALUES
  {
    assert |ITEMS| == 5 && |ITEM_KEYS| == 8 && |ITEM_VALUES| == 10;
  }

  /** What the items are does not outlive the merge and the removal. */
  lemma MergedForgets(fields: seq<Field>, items: Json, m: Metadata)
    ensures Without(Merged(Put(fields, ITEMS, items), m), ITEMS) == Without(Merged(fields, m), ITEMS)
  {
    ItemKeysDiffer();
    var names, values := Arr(Strings(m.names)), Obj(m.values);
    var masked := Put(fields, ITEMS, items);
    WithoutOther(Put(masked, ITEM_KEYS, names), ITEMS, ITEM_VALUES, values);
    WithoutOther(Put(fields, ITEM_KEYS, names), ITEMS, ITEM_VALUES, values);
    ForgetsReplaced(fields, ITEMS, ITEM_KEYS, names, items);
  }

  lemma InstanceRecordIgnoresValues(inst: Json)
    requires inst.Obj?
    ensures MaskInstance(inst).Obj?
    ensures RedactInstance(inst).Some? <==> RedactInstance(MaskInstance(inst)).Some?
    ensures SameRecord(RedactInstance(inst), RedactInstance(MaskInstance(inst)))
  {
    hide MetadataOf;
    hide Merged;
    hide Without;
    hide MaskList;
    hide Put;
    if HasKey(inst.fields, METADATA) {
      var md := Get(inst.fields, METADATA);
      PutGet(inst.fields, METADATA, MaskMetadata(md), METADATA);
      if md.Obj? && HasKey(md.fields, ITEMS) {
        var items := Get(md.fields, ITEMS);
        PutGet(md.fields, ITEMS, MaskList(items), ITEMS);
        MaskedMetadataOf(items);
        SameMerged(inst.fields, md.fields, items);
      } else {
        PutSame(inst.fields, METADATA);
      }
    }
  }

  lemma SameMerged(fields: seq<Field>, md: seq<Field>, items: Json)
    ensures MetadataOf(items).Some? && MetadataOf(MaskList(items)).Some? ==>
      var m, n := MetadataOf(items).value, MetadataOf(MaskList(items)).value;
      var masked := Obj(Put(md, ITEMS, MaskList(items)));
      Put(Put(fields, METADATA, masked), METADATA, Obj(Without(Merged(masked.fields, n), ITEMS)))
      == Put(fields, METADATA, Obj(Without(Merged(md, m), ITEMS)))
  {
    hide MetadataOf;
    hide MaskList;
    hide Without;
    hide Put;
    MaskedMetadataOf(items);
    if MetadataOf(items).Some? {
      var m, n := MetadataOf(items).value, MetadataOf(MaskList(items)).value;
      MergedForgets(md, MaskList(items), m);
      PutTwice(fields, METADATA, Obj(Put(md, ITEMS, MaskList(items))), Obj(Without(Merged(md, m), ITEMS)));
    }
  }

  /** Two instances that differ only in metadata values outside the allow-list give the same
      record; only the hits may differ. */
  lemma InstanceNonInterference(a: Json, b: Json)
    requires a.Obj? && b.Obj? && MaskInstance(a) == MaskInstance(b)
    ensures RedactInstance(a).Some? <==> RedactInstance(b).Some?
    ensures SameRecord(RedactInstance(a), RedactInstance(b))
  {
    hide RedactInstance;
    hide MaskInstance;
    InstanceRecordIgnoresValues(a);
    InstanceRecordIgnoresValues(b);
  }

  lemma ProjectMetadataNonInterference(a: Json, b: Json)
    requires MaskList(a) == MaskList(b)
    ensures RedactProjectMetadata(a).Some? <==> RedactProjectMetadata(b).Some?
    ensures SameRecord(RedactProjectMetadata(a), RedactProjectMetadata(b))
  {
    hide MetadataOf;
    hide MaskList;
    MaskedMetadataOf(a);
    MaskedMetadataOf(b);
  }

  /** The metadata a record carries: the names of the items, the allow-listed values, and every
      other entry of the dict as it was, but no items. */
  ghost predicate HoldsMetadata(out: seq<Field>, md: seq<Field>, items: seq<Json>)
    requires PlainItems(items)
  {
    && SameElsewhere(out, md, {"items", "itemKeys", "itemValues"})
    && !HasKey(out, "items")
    && GetOr(out, "itemValues", Null) == Obj(KeptValues(items))
    && exists names :: GetOr(out, "itemKeys", Null) == Arr(Strings(names)) && StrictlySorted(names)
         && forall x :: x in names <==> x != [] && exists k :: 0 <= k < |items| && ItemKey(items[k]) == Str(x)
  }

  /** What merging and removing leaves to be read. */
  lemma MergedReads(md: seq<Field>, m: Metadata)
    ensures var out := Without(Merged(md, m), ITEMS);
      && SameElsewhere(out, md, {ITEMS, ITEM_KEYS, ITEM_VALUES}) && !HasKey(out, ITEMS)
      && GetOr(out, ITEM_VALUES, Null) == Obj(m.values) && GetOr(out, ITEM_KEYS, Null) == Arr(Strings(m.names))
  {
    hide Put;
    hide Without;
    hide SameElsewhere;
    ItemKeysDiffer();
    var keys, values := Arr(Strings(m.names)), Obj(m.values);
    var first := Put(md, ITEM_KEYS, keys);
    var merged := Put(first, ITEM_VALUES, values);
    var out := Without(merged, ITEMS);
    PutKeepsRest(md, ITEM_KEYS, keys);
    PutKeepsRest(first, ITEM_VALUES, values);
    PutGet(first, ITEM_VALUES, values, ITEM_KEYS);
    WithoutKeepsRest(merged, ITEMS);
    WithoutIsGone(merged, ITEMS);
    SameElsewhereChain(out, merged, first, {ITEMS}, {ITEM_VALUES});
    SameElsewhereChain(out, first, md, {ITEMS} + {ITEM_VALUES}, {ITEM_KEYS});
    assert {ITEMS} + {ITEM_VALUES} + {ITEM_KEYS} == {ITEMS, ITEM_KEYS, ITEM_VALUES};
    ReadsAlike(out, merged, ITEMS, ITEM_KEYS);
    ReadsAlike(out, merged, ITEMS, ITEM_VALUES);
  }

  lemma MergedHolds(md: seq<Field>, items: seq<Json>)
    requires PlainItems(items)
    ensures HoldsMetadata(Without(Merged(md, RedactMetadata(items).value), ITEMS), md, items)
  {
    hide PlainItem;
    hide Merged;
    hide Without;
    hide KeptValues;
    hide SameElsewhere;
    hide SortUnique;
    hide Get;
    hide HasKey;
    PlainDicts(items);
    var m := RedactMetadata(items).value;
    MergedReads(md, m);
    SortUniqueSorts(ItemNames(items));
    forall x ensures x in m.names <==> x != [] && exists k :: 0 <= k < |items| && ItemKey(items[k]) == Str(x) {
      NamesExact(items, x);
    }
  }

  /** The items of an instance, as the redaction gets them. */
  function ItemsOf(inst: Json): Option<seq<Json>>
    requires inst.Obj?
  {
    var md := GetFrom(inst, METADATA, Obj([]));
    if !md.Obj? then None
    else if Falsy(GetFrom(md, ITEMS, Null)) then Some([])
    else Iterate(GetFrom(md, ITEMS, Null))
  }

  /** The record of an instance holds the names of its metadata items, the allow-listed values
      and no items, and is otherwise the instance itself. */
  lemma InstanceKeeps(inst: Json)
    requires inst.Obj?
    ensures RedactInstance(inst).Some? <==> ItemsOf(inst).Some? && PlainItems(ItemsOf(inst).value)
    ensures RedactInstance(inst).Some? ==>
      var record := RedactInstance(inst).value.record;
      if !HasKey(inst.fields, "metadata") then record == inst
      else
        && record.Obj? && SameElsewhere(record.fields, inst.fields, {"metadata"})
        && GetFrom(record, "metadata", Null).Obj? && Get(inst.fields, "metadata").Obj?
        && HoldsMetadata(GetFrom(record, "metadata", Null).fields, Get(inst.fields, "metadata").fields, ItemsOf(inst).value)
  {
    hide PlainItem;
    hide Put;
    hide Without;
    hide Merged;
    hide HoldsMetadata;
    hide SameElsewhere;
    if RedactInstance(inst).Some? && HasKey(inst.fields, METADATA) {
      var md, items := Get(inst.fields, METADATA).fields, ItemsOf(inst).value;
      MergedHolds(md, items);
      PutKeepsRest(inst.fields, METADATA, Obj(Without(Merged(md, RedactMetadata(items).value), ITEMS)));
    }
  }

  // ----- what the hits are -----

  lemma {:induction false} VariableHitsExact(vars: seq<Field>, pyStr: Json -> string, rule: string)
    ensures rule in VariableHits(vars, pyStr) <==> exists k :: 0 <= k < |vars| && rule in ScanText(pyStr(vars[k].value))
  {
    hide ScanText;
    if vars != [] {
      var rest := vars[1..];
      VariableHitsExact(rest, pyStr, rule);
      assert forall k :: 0 <= k < |rest| ==> rest[k] == vars[k + 1];
      if exists k :: 0 <= k < |vars| && rule in ScanText(pyStr(vars[k].value)) {
        var k :| 0 <= k < |vars| && rule in ScanText(pyStr(vars[k].value));
        assert k == 0 || rule in ScanText(pyStr(rest[k - 1].value));
      }
    }
  }

  /** The hits of a function: sorted, and exactly the rules that hit the value of a variable. */
  lemma FunctionHits(fn: Json, pyStr: Json -> string, rule: string)
    requires fn.Obj? && RedactFunction(fn, pyStr).Some?
    ensures var hits := RedactFunction(fn, pyStr).value.hits;
      var env := GetFrom(fn, "Environment", Null);
      var vars := if env.Obj? then GetFrom(env, "Variables", Null) else Null;
      && StrictlySorted(hits)
      && (rule in hits <==> vars.Obj? && exists k :: 0 <= k < |vars.fields| && rule in ScanText(pyStr(vars.fields[k].value)))
  {
    hide VariableHits, ScanText, Put, Without;
    var vars := VariablesIn(GetFrom(fn, ENVIRONMENT, Obj([]))).value;
    VariableHitsExact(vars, pyStr, rule);
    SortUniqueSorts(VariableHits(vars, pyStr));
  }

  lemma {:induction false} ItemHitsExact(items: seq<Json>, rule: string)
    requires PlainItems(items)
    ensures rule in ItemHits(items) <==> exists item :: item in items && TextHits(item, rule)
  {
    hide ScanText, PlainItem, ItemValue, TextHits;
    if items != [] {
      var rest := items[1..];
      assert PlainItem(items[0]);
      PlainFacts(items[0]);
      OneItemHits(items[0], rule);
      ItemHitsExact(rest, rule);
      assert items == [items[0]] + rest;
    }
  }

  /** The item has a text as its value, and the rule hits it. */
  ghost predicate TextHits(item: Json, rule: string) {
    item.Obj? && GetFrom(item, "value", Null).Str? && rule in ScanText(GetFrom(item, "value", Null).s)
  }

  lemma OneItemHits(item: Json, rule: string)
    requires PlainItem(item)
    ensures rule in ScanText(ItemValue(item).s) <==> TextHits(item, rule)
  {
    EmptyHasNoHits();
    hide ScanText;
  }

  lemma EmptyHasNoHits()
    ensures ScanText([]) == []
  {}

  /** The hits of an instance: sorted, and exactly the rules that hit the value of an item,
      allow-listed or not. */
  lemma InstanceHits(inst: Json, rule: string)
    requires inst.Obj? && RedactInstance(inst).Some?
    ensures var hits := RedactInstance(inst).value.hits;
      && StrictlySorted(hits)
      && (rule in hits <==> exists item ::
            ListedUnder(GetFrom(inst, "metadata", Null), "items", item) && TextHits(item, rule))
  {
    hide PlainItem, TextHits, ItemNames, KeptValues, ItemHits, Merged, Put, Without;
    InstanceKeeps(inst);
    var items := ItemsOf(inst).value;
    ItemHitsExact(items, rule);
    SortUniqueSorts(ItemHits(items));
    assert forall item :: item in items <==> ListedUnder(GetFrom(inst, "metadata", Null), "items", item);
  }

  /** The record of the project-wide metadata has two fields: the names of the items and the kept
      values. */
  lemma ProjectMetadataKeeps(items: seq<Json>, rule: string)
    requires PlainItems(items)
    ensures RedactProjectMetadata(Arr(items)).Some?
    ensures exists names ::
      && RedactProjectMetadata(Arr(items)).value.record
         == Obj([Field("itemKeys", Arr(Strings(names))), Field("itemValues", Obj(KeptValues(items)))])
      && StrictlySorted(names)
      && forall x :: x in names <==> x != [] && exists k :: 0 <= k < |items| && ItemKey(items[k]) == Str(x)
    ensures rule in RedactProjectMetadata(Arr(items)).value.hits <==> exists item :: item in items && TextHits(item, rule)
  {
    hide PlainItem, TextHits, KeptValues, ItemHits, ItemNames, ItemKey, Merged, MetadataOf, SortUnique;
    PlainDicts(items);
    var m := RedactMetadata(items).value;
    MetadataOfList(items);
    MergedOfNothing(m);
    ItemHitsExact(items, rule);
    SortUniqueSorts(ItemNames(items));
    forall x ensures x in m.names <==> x != [] && exists k :: 0 <= k < |items| && ItemKey(items[k]) == Str(x) {
      NamesExact(items, x);
    }
  }

  lemma MetadataOfList(items: seq<Json>)
    ensures MetadataOf(Arr(items)) == RedactMetadata(items)
  {
    hide RedactMetadata;
    assert items == [] ==> Arr(items) == Arr([]);
  }

  lemma MergedOfNothing(m: Metadata)
    ensures Merged([], m) == [Field("itemKeys", Arr(Strings(m.names))), Field("itemValues", Obj(m.values))]
  {
    ItemKeysDiffer();
    var first := [Field(ITEM_KEYS, Arr(Strings(m.names)))];
    assert Put([], ITEM_KEYS, Arr(Strings(m.names))) == first;
    assert first[1..] == [] && Put([], ITEM_VALUES, Obj(m.values)) == [Field(ITEM_VALUES, Obj(m.values))];
    assert Put(first, ITEM_VALUES, Obj(m.values)) == [first[0]] + Put(first[1..], ITEM_VALUES, Obj(m.values));
  }

  /** The five keys. */
  lemma RelevantKeys(key: string)
    ensures Relevant(Str(key)) <==>
      key in ["serial-port-enable", "enable-oslogin", "enable-oslogin-2fa", "ssh-keys", "created-by"]
  {}

  // ----- when the code raises -----

  /** Nothing, in one of its forms. */
  ghost predicate IsEmpty(v: Json) { v in [Null, Bool(false), Int(0), Str(""), Arr([]), Obj([])] }

  /** A function is redacted exactly when its environment, if it has one, is a dict whose variables
      are a dict or nothing. */
  lemma FunctionRedacted(fn: Json, pyStr: Json -> string)
    requires fn.Obj?
    ensures RedactFunction(fn, pyStr).Some? <==>
      var env := GetFrom(fn, "Environment", Obj([]));
      env.Obj? && var vars := GetFrom(env, "Variables", Obj([])); vars.Obj? || IsEmpty(vars)
  {
    hide VariableHits, SortUnique, Put, Without;
  }

  /** An instance is redacted exactly when its metadata, if it has any, is a dict whose items are
      nothing or a list of dicts, each with a text or nothing as its value and a text or a plain
      nothing as its key. */
  lemma InstanceRedacted(inst: Json)
    requires inst.Obj?
    ensures RedactInstance(inst).Some? <==>
      var md := GetFrom(inst, "metadata", Obj([]));
      md.Obj? && var items := GetFrom(md, "items", Null);
      IsEmpty(items) || (items.Arr? && forall k :: 0 <= k < |items.items| ==> ReadableItem(items.items[k]))
  {
    hide Put, Without, Merged, HoldsMetadata, SameElsewhere, ReadableItem, PlainItem;
    InstanceKeeps(inst);
    var md := GetFrom(inst, METADATA, Obj([]));
    if md.Obj? {
      var items := GetFrom(md, ITEMS, Null);
      forall item {:trigger PlainItem(item)} {:trigger ReadableItem(item)} { ItemReadable(item); }
      if items.Str? && items.s != [] { CharacterIsNoItem(items.s[0]); assert Iterate(items).value[0] == Str([items.s[0]]); }
      if items.Obj? && items.fields != [] { KeyIsNoItem(items.fields[0].key); assert Iterate(items).value[0] == Str(items.fields[0].key); }
    }
  }

  lemma CharacterIsNoItem(c: char)
    ensures !PlainItem(Str([c]))
  {}

  lemma KeyIsNoItem(key: string)
    ensures !PlainItem(Str(key))
  {}

  ghost predicate ReadableItem(item: Json) {
    && item.Obj?
    && (var v := GetFrom(item, "value", Str("")); v.Str? || IsEmpty(v))
    && (var k := GetFrom(item, "key", Null); k.Str? || k in [Null, Bool(false), Int(0)])
  }

  lemma ItemReadable(item: Json)
    ensures PlainItem(item) <==> ReadableItem(item)
  {}
}
