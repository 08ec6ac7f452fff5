/** Parallel reads followed by sequential writes: the tag loops of `account.py` and the user loop
    of `user.py`, against the serial loop that fetches and writes one item at a time. */
module ParallelWrite {
  import opened Text
  import opened Json
  import opened Tags
  import opened Writer
  import opened RunLoop
  import Pool

  const DEFAULT_MAX_WORKERS := 10

  /** `for item in items: writer.add_resource(..., tags=fetch(item))`: it stops at the first
      fetch that raises, having written the items before it. */
  function FetchAndWrite<T>(items: seq<T>, tagsOf: T -> Fetch<RawTags>, describe: T -> Resource): Outcome {
    if items == [] then Outcome([], None)
    else
      match tagsOf(items[0])
      case Err(e) => Outcome([], Some(e))
      case Ok(tags) =>
        var rest := FetchAndWrite(items[1..], tagsOf, describe);
        Outcome([Call.AddResource(describe(items[0]), tags)] + rest.calls, rest.failure)
  }

  /** The calls of the second half of the parallel version: each item with the tags in its
      place. */
  function Zipped<T>(items: seq<T>, tags: seq<RawTags>, describe: T -> Resource): seq<Call>
    requires |items| == |tags|
  {
    seq(|items|, k requires 0 <= k < |items| => Call.AddResource(describe(items[k]), tags[k]))
  }

  lemma {:induction false} ZippedIsSerial<T>(items: seq<T>, tagsOf: T -> Fetch<RawTags>, describe: T -> Resource)
    ensures FetchAndWrite(items, tagsOf, describe).failure
      == match Pool.Serial(tagsOf, items) case Ok(_) => None case Err(e) => Some(e)
    ensures Pool.Serial(tagsOf, items).Ok? ==>
      var tags := Pool.Serial(tagsOf, items).value;
      |tags| == |items| && Zipped(items, tags, describe) == FetchAndWrite(items, tagsOf, describe).calls
  {
    if items != [] {
      ZippedIsSerial(items[1..], tagsOf, describe);
      if Pool.Serial(tagsOf, items).Ok? {
        var tags := Pool.Serial(tagsOf, items).value;
        assert Zipped(items, tags, describe)
          == [Call.AddResource(describe(items[0]), tags[0])] + Zipped(items[1..], tags[1..], describe);
      }
    }
  }

  /** `for item, tags in zip(items, fetched)` */
  method WriteZipped<T>(writer: InventoryWriter, items: seq<T>, tags: seq<RawTags>, describe: T -> Resource)
    requires writer.Valid() && |items| == |tags|
    modifies writer
    ensures writer.Valid() && writer.history == old(writer.history) + Zipped(items, tags, describe)
  {
    hide Run;
    hide Apply;
    hide ParseSuppression;
    hide Stamp;
    ghost var calls := Zipped(items, tags, describe);
    for i := 0 to |items|
      invariant writer.Valid() && writer.history == old(writer.history) + calls[..i]
    {
      var _ := writer.AddResource(describe(items[i]), tags[i]);
      assert calls[..i + 1] == calls[..i] + [calls[i]];
    }
    assert calls[..|calls|] == calls;
  }

  /** `parallel_map` over the items, then the zip loop. When no fetch raises, the writer has seen
      the calls of the serial loop; when one does, the caller sees the same exception, but none
      of the items is written. */
  method FetchThenWrite<T(!new)>(writer: InventoryWriter, items: seq<T>, tagsOf: T -> Fetch<RawTags>, describe: T -> Resource)
    returns (failure: Option<string>)
    requires writer.Valid()
    modifies writer
    ensures writer.Valid()
    ensures failure == FetchAndWrite(items, tagsOf, describe).failure
    ensures failure == None ==> writer.history == old(writer.history) + FetchAndWrite(items, tagsOf, describe).calls
    ensures failure != None ==> writer.history == old(writer.history)
  {
    hide Run;
    hide FetchAndWrite;
    hide Zipped;
    hide Pool.ParallelMapMay;
    var fetched := Pool.ParallelMap(tagsOf, items, DEFAULT_MAX_WORKERS);
    ZippedIsSerial(items, tagsOf, describe);
    if fetched.Raised? {
      return Some(fetched.error);
    }
    WriteZipped(writer, items, fetched.values, describe);
    failure := None;
  }

  /** With every fetch answered, the kth call is the kth item with the tags fetched for it;
      otherwise the serial loop writes the items before the first that failed. */
  lemma {:induction false} OwnTags<T>(items: seq<T>, tagsOf: T -> Fetch<RawTags>, describe: T -> Resource)
    ensures var r := FetchAndWrite(items, tagsOf, describe);
      && |r.calls| <= |items|
      && (forall k :: 0 <= k < |r.calls| ==>
            tagsOf(items[k]).Ok? && r.calls[k] == Call.AddResource(describe(items[k]), tagsOf(items[k]).value))
      && (r.failure == None <==> |r.calls| == |items|)
      && (r.failure.Some? ==> |r.calls| < |items| && tagsOf(items[|r.calls|]) == Err(r.failure.value))
  {
    if items != [] { OwnTags(items[1..], tagsOf, describe); }
  }

  // ----- account -----

  /** A KMS key: the `KeyId` may be missing, and so may each alias's `AliasName`. */
  datatype KmsKey = KmsKey(id: Option<string>, aliases: seq<Option<string>>, raw: Json)

  datatype Trail = Trail(arn: Option<string>, name: Option<string>, raw: Json)

  datatype LogGroup = LogGroup(name: Option<string>, arn: Option<string>, logGroupArn: Option<string>, raw: Json)

  /** `x or y` on strings that may be None */
  function Or(x: Option<string>, y: Option<string>): Option<string> {
    if x.Some? && x.value != [] then x else y
  }

  const KEY_ERROR := "'KeyId'"

  function KeyTags(tagsOf: string -> RawTags): KmsKey -> Fetch<RawTags> {
    (k: KmsKey) => if k.id == None then Err(KEY_ERROR) else Ok(tagsOf(k.id.value))
  }

  /** The first alias's name, or the key id. */
  function KeyName(k: KmsKey): Option<string> {
    if k.aliases != [] && k.aliases[0].Some? then k.aliases[0] else k.id
  }

  function KeyResource(region: string): KmsKey -> Resource {
    (k: KmsKey) => Resource("kms_key", Some(region), k.id, KeyName(k), k.raw, None, None)
  }

  /** `trail.get('TrailARN', trail.get('Name'))` */
  function TrailArn(t: Trail): Option<string> { if t.arn.Some? then t.arn else t.name }

  function TrailTags(tagsOf: string -> RawTags): Trail -> Fetch<RawTags> {
    (t: Trail) => Ok(if IsTruthy(TrailArn(t)) then tagsOf(TrailArn(t).value) else NoTags)
  }

  function TrailResource(region: string): Trail -> Resource {
    (t: Trail) => Resource("cloudtrail_trail", Some(region), TrailArn(t),
      if t.name.Some? then t.name else TrailArn(t), t.raw, None, None)
  }

  function LogGroupTags(tagsOf: string -> RawTags): LogGroup -> Fetch<RawTags> {
    (g: LogGroup) =>
      Ok(if IsTruthy(Or(g.arn, g.logGroupArn)) then tagsOf(Or(g.arn, g.logGroupArn).value) else NoTags)
  }

  function LogGroupResource(region: string): LogGroup -> Resource {
    (g: LogGroup) => Resource("cloudwatch_log_group", Some(region), g.name, g.name, g.raw, None, None)
  }

  /** One of the three loops: a failed listing is reported and leaves nothing to fetch. */
  method ListThenWrite<T(!new)>(writer: InventoryWriter, region: string, source: string, listed: Fetch<seq<T>>,
      tagsOf: T -> Fetch<RawTags>, describe: T -> Resource)
    returns (failure: Option<string>)
    requires writer.Valid()
    modifies writer
    ensures writer.Valid()
    ensures failure == FetchAndWrite(OrNone(listed), tagsOf, describe).failure
    ensures writer.history == old(writer.history) + FetchError(region, source, listed)
      + if failure == None then FetchAndWrite(OrNone(listed), tagsOf, describe).calls else []
  {
    hide Run;
    hide FetchAndWrite;
    var items: seq<T> := [];
    if listed.Err? {
      writer.AddError(ErrorNote(region, source, listed.error));
    } else {
      items := listed.value;
    }
    failure := FetchThenWrite(writer, items, tagsOf, describe);
  }

  lemma {:induction false} AlwaysTagged<T>(items: seq<T>, tagsOf: T -> Fetch<RawTags>, describe: T -> Resource)
    requires forall k :: 0 <= k < |items| ==> tagsOf(items[k]).Ok?
    ensures FetchAndWrite(items, tagsOf, describe).failure == None
  {
    OwnTags(items, tagsOf, describe);
  }

  /** The KMS loop fails only on a key without an id. */
  method WriteKmsKeys(writer: InventoryWriter, region: string, keys: Fetch<seq<KmsKey>>, tagsOf: string -> RawTags)
    returns (failure: Option<string>)
    requires writer.Valid()
    modifies writer
    ensures writer.Valid()
    ensures failure == if exists k :: 0 <= k < |OrNone(keys)| && OrNone(keys)[k].id == None then Some("'KeyId'") else None
    ensures writer.history == old(writer.history) + FetchError(region, "account (kms keys)", keys)
      + if failure == None then FetchAndWrite(OrNone(keys), KeyTags(tagsOf), KeyResource(region)).calls else []
  {
    hide FetchAndWrite;
    failure := ListThenWrite(writer, region, "account (kms keys)", keys, KeyTags(tagsOf), KeyResource(region));
    OwnTags(OrNone(keys), KeyTags(tagsOf), KeyResource(region));
  }

  /** The trail loop never fails. */
  method WriteTrails(writer: InventoryWriter, region: string, trails: Fetch<seq<Trail>>, tagsOf: string -> RawTags)
    requires writer.Valid()
    modifies writer
    ensures writer.Valid()
    ensures writer.history == old(writer.history) + FetchError(region, "account (cloudtrail trails)", trails)
      + FetchAndWrite(OrNone(trails), TrailTags(tagsOf), TrailResource(region)).calls
  {
    hide FetchAndWrite;
    var failure := ListThenWrite(writer, region, "account (cloudtrail trails)", trails, TrailTags(tagsOf), TrailResource(region));
    AlwaysTagged(OrNone(trails), TrailTags(tagsOf), TrailResource(region));
  }

  /** Nor does the log-group loop. */
  method WriteLogGroups(writer: InventoryWriter, region: string, groups: Fetch<seq<LogGroup>>, tagsOf: string -> RawTags)
    requires writer.Valid()
    modifies writer
    ensures writer.Valid()
    ensures writer.history == old(writer.history) + FetchError(region, "account (log groups)", groups)
      + FetchAndWrite(OrNone(groups), LogGroupTags(tagsOf), LogGroupResource(region)).calls
  {
    hide FetchAndWrite;
    var failure := ListThenWrite(writer, region, "account (log groups)", groups, LogGroupTags(tagsOf), LogGroupResource(region));
    AlwaysTagged(OrNone(groups), LogGroupTags(tagsOf), LogGroupResource(region));
  }

  // ----- users -----

  datatype User = User(name: string, arn: string, fields: seq<Field>)

  datatype UserApi = UserApi(
    policies: string -> Fetch<Json>,
    groups: string -> Fetch<Json>,
    escalation: string -> Fetch<Json>,
    tags: string -> RawTags)

  datatype SourceError = SourceError(source: string, message: string)

  datatype Gathered = Gathered(user: User, raw: seq<Field>, tags: RawTags, errors: seq<SourceError>)

  const POLICIES := "_AttachedPolicies"
  const GROUPS := "_Groups"
  const ESCALATION := "_EscalationActions"
  const REPORT := "_CredentialReport"

  function SetDefault(fields: seq<Field>, key: string, value: Json): seq<Field> {
    if HasKey(fields, key) then fields else Put(fields, key, value)
  }

  /** What is gathered for one user: the policies survive a failure to fetch the groups. */
  function OneUser(api: UserApi): User -> Gathered {
    (u: User) =>
      var p, g, e := api.policies(u.name), api.groups(u.name), api.escalation(u.arn);
      var a := if p.Ok? then Put(u.fields, POLICIES, p.value) else u.fields;
      var b := if p.Ok? && g.Ok? then Put(a, GROUPS, g.value)
               else SetDefault(SetDefault(a, POLICIES, Arr([])), GROUPS, Arr([]));
      Gathered(u, Put(b, ESCALATION, if e.Ok? then e.value else Arr([])), api.tags(u.name),
        MembershipErrors(u, p, g) + EscalationErrors(u, e))
  }

  function MembershipErrors(u: User, p: Fetch<Json>, g: Fetch<Json>): seq<SourceError> {
    if p.Err? then [SourceError("iam_user:" + u.arn, p.error)]
    else if g.Err? then [SourceError("iam_user:" + u.arn, g.error)]
    else []
  }

  function EscalationErrors(u: User, e: Fetch<Json>): seq<SourceError> {
    if e.Err? then [SourceError("iam_user (escalation simulation:" + u.arn + ")", e.error)] else []
  }

  /** `_gather_one_user` */
  method GatherOneUser(api: UserApi, u: User) returns (g: Gathered)
    ensures g == OneUser(api)(u)
  {
    hide Put;
    hide HasKey;
    var raw := u.fields;
    var errors := [];
    var policies := api.policies(u.name);
    var caught: Option<string> := None;
    if policies.Ok? {
      raw := Put(raw, POLICIES, policies.value);
      var groups := api.groups(u.name);
      if groups.Ok? {
        raw := Put(raw, GROUPS, groups.value);
      } else {
        caught := Some(groups.error);
      }
    } else {
      caught := Some(policies.error);
    }
    if caught.Some? {
      errors := errors + [SourceError("iam_user:" + u.arn, caught.value)];
      raw := SetDefault(raw, POLICIES, Arr([]));
      raw := SetDefault(raw, GROUPS, Arr([]));
    }
    var escalation := api.escalation(u.arn);
    if escalation.Ok? {
      raw := Put(raw, ESCALATION, escalation.value);
    } else {
      errors := errors + [SourceError("iam_user (escalation simulation:" + u.arn + ")", escalation.error)];
      raw := Put(raw, ESCALATION, Arr([]));
    }
    assert errors == MembershipErrors(u, policies, api.groups(u.name)) + EscalationErrors(u, escalation);
    g := Gathered(u, raw, api.tags(u.name), errors);
  }

  function ErrorCalls(errors: seq<SourceError>): seq<Call> {
    seq(|errors|, k requires 0 <= k < |errors| => Call.AddError(ErrorNote("global", errors[k].source, errors[k].message)))
  }

  function ReportFor(reports: map<string, Json>, name: string): Json { if name in reports then reports[name] else Null }

  function UserResource(g: Gathered, reports: map<string, Json>): Resource {
    Resource("iam_user", Some("global"), Some(g.user.arn), Some(g.user.name),
      Obj(Put(g.raw, REPORT, ReportFor(reports, g.user.name))), None, None)
  }

  /** One user's calls: its errors, then its record with its own tags. */
  function UserCalls(g: Gathered, reports: map<string, Json>): seq<Call> {
    ErrorCalls(g.errors) + [Call.AddResource(UserResource(g, reports), g.tags)]
  }

  /** The serial loop: gather one user, write it, go on to the next. */
  function SerialUsers(api: UserApi, users: seq<User>, reports: map<string, Json>): seq<Call> {
    if users == [] then []
    else
      SerialUsers(api, users[..|users| - 1], reports) + UserCalls(OneUser(api)(users[|users| - 1]), reports)
  }

  /** Nothing `_gather_one_user` calls can make it raise. */
  function Safely(api: UserApi): User -> Fetch<Gathered> { (u: User) => Ok(OneUser(api)(u)) }

  lemma {:induction false} AllGathered(api: UserApi, users: seq<User>)
    ensures Pool.Serial(Safely(api), users).Ok?
    ensures |Pool.Serial(Safely(api), users).value| == |users|
    ensures forall k :: 0 <= k < |users| ==> Pool.Serial(Safely(api), users).value[k] == OneUser(api)(users[k])
  {
    hide OneUser;
    if users != [] { AllGathered(api, users[1..]); }
  }

  method WriteUser(writer: InventoryWriter, g: Gathered, reports: map<string, Json>)
    requires writer.Valid()
    modifies writer
    ensures writer.Valid() && writer.history == old(writer.history) + UserCalls(g, reports)
  {
    hide Run;
    hide Apply;
    hide ParseSuppression;
    hide Stamp;
    hide Put;
    for i := 0 to |g.errors|
      invariant writer.Valid() && writer.history == old(writer.history) + ErrorCalls(g.errors[..i])
    {
      writer.AddError(ErrorNote("global", g.errors[i].source, g.errors[i].message));
      assert ErrorCalls(g.errors[..i + 1])
        == ErrorCalls(g.errors[..i]) + [Call.AddError(ErrorNote("global", g.errors[i].source, g.errors[i].message))];
    }
    assert g.errors[..|g.errors|] == g.errors;
    var raw := Put(g.raw, REPORT, ReportFor(reports, g.user.name));
    var r := Resource("iam_user", Some("global"), Some(g.user.arn), Some(g.user.name), Obj(raw), None, None);
    var _ := writer.AddResource(r, g.tags);
  }

  method WriteUsers(writer: InventoryWriter, gathered: seq<Gathered>, reports: map<string, Json>,
      ghost api: UserApi, ghost users: seq<User>)
    requires writer.Valid() && |gathered| == |users|
    requires forall k :: 0 <= k < |users| ==> gathered[k] == OneUser(api)(users[k])
    modifies writer
    ensures writer.Valid() && writer.history == old(writer.history) + SerialUsers(api, users, reports)
  {
    hide Run;
    hide OneUser;
    hide UserCalls;
    for i := 0 to |gathered|
      invariant writer.Valid() && writer.history == old(writer.history) + SerialUsers(api, users[..i], reports)
    {
      WriteUser(writer, gathered[i], reports);
      assert users[..i + 1][..i] == users[..i];
    }
    assert users[..|users|] == users;
  }

  const CREDENTIAL_REPORT := "iam_user (credential report)"

  /** `user.gather`: the users are gathered in parallel and written in order, leaving the writer
      as the serial loop would. A failure to list them ends the module. */
  method GatherUsers(writer: InventoryWriter, fetchedReports: Fetch<map<string, Json>>, users: Fetch<seq<User>>, api: UserApi)
    returns (failure: Option<string>)
    requires writer.Valid()
    modifies writer
    ensures writer.Valid()
    ensures failure == if users.Err? then Some(users.error) else None
    ensures writer.history == old(writer.history) + FetchError("global", "iam_user (credential report)", fetchedReports)
      + if users.Ok? then SerialUsers(api, users.value, if fetchedReports.Ok? then fetchedReports.value else map[]) else []
  {
    hide Run;
    hide OneUser;
    hide SerialUsers;
    hide Pool.ParallelMapMay;
    hide Pool.Serial;
    hide Safely;
    var reports := map[];
    if fetchedReports.Ok? {
      reports := fetchedReports.value;
    } else {
      writer.AddError(ErrorNote("global", CREDENTIAL_REPORT, fetchedReports.error));
    }
    if users.Err? {
      return Some(users.error);
    }
    var us := users.value;
    var gathered := Pool.ParallelMap(Safely(api), us, DEFAULT_MAX_WORKERS);
    AllGathered(api, us);
    WriteUsers(writer, gathered.values, reports, api, us);
    failure := None;
  }

  // ----- what is written for the users -----

  function ErrorNotes(errors: seq<SourceError>): seq<ErrorNote> {
    seq(|errors|, k requires 0 <= k < |errors| => ErrorNote("global", errors[k].source, errors[k].message))
  }

  /** The users' own errors, user by user. */
  function UserErrors(api: UserApi, users: seq<User>): seq<ErrorNote> {
    if users == [] then []
    else UserErrors(api, users[..|users| - 1]) + ErrorNotes(OneUser(api)(users[|users| - 1]).errors)
  }

  lemma {:induction false} ErrorsOfErrorCalls(errors: seq<SourceError>)
    ensures ErrorsOf(ErrorCalls(errors)) == ErrorNotes(errors) && Accepted(ErrorCalls(errors)) == []
  {
    if errors != [] {
      var n := |errors| - 1;
      ErrorsOfErrorCalls(errors[..n]);
      assert Before(ErrorCalls(errors)) == ErrorCalls(errors[..n]);
      assert ErrorNotes(errors) == ErrorNotes(errors[..n]) + [ErrorNote("global", errors[n].source, errors[n].message)];
    }
  }

  lemma UserParts(g: Gathered, reports: map<string, Json>)
    ensures ErrorsOf(UserCalls(g, reports)) == ErrorNotes(g.errors)
    ensures Accepted(UserCalls(g, reports)) == AcceptedOf(Call.AddResource(UserResource(g, reports), g.tags))
  {
    hide UserResource;
    hide AcceptedOf;
    var last := Call.AddResource(UserResource(g, reports), g.tags);
    ErrorsOfErrorCalls(g.errors);
    PartsAppend(ErrorCalls(g.errors), [last]);
    assert Before([last]) == [];
  }

  /** Errors come in user order, and each user leaves the record of its own fetches with its own
      tags, unless those suppress it. */
  lemma {:induction false} UsersInOrder(api: UserApi, users: seq<User>, reports: map<string, Json>)
    ensures ErrorsOf(SerialUsers(api, users, reports)) == UserErrors(api, users)
    ensures Accepted(SerialUsers(api, users, reports)) == UserRecords(api, users, reports)
  {
    hide OneUser;
    hide UserCalls;
    hide UserResource;
    hide AcceptedOf;
    hide ErrorNotes;
    hide Accepted;
    hide ErrorsOf;
    if users == [] {
      NothingLeft();
    } else {
      var n := |users| - 1;
      UsersInOrder(api, users[..n], reports);
      var g := OneUser(api)(users[n]);
      PartsAppend(SerialUsers(api, users[..n], reports), UserCalls(g, reports));
      UserParts(g, reports);
      OwnTagsOnly(api, users[n]);
    }
  }

  lemma OwnTagsOnly(api: UserApi, u: User)
    ensures OneUser(api)(u).tags == api.tags(u.name)
  {}

  lemma NothingLeft()
    ensures Accepted([]) == [] && ErrorsOf([]) == []
  {}

  function UserRecords(api: UserApi, users: seq<User>, reports: map<string, Json>): seq<Resource> {
    if users == [] then []
    else
      UserRecords(api, users[..|users| - 1], reports)
      + AcceptedOf(Call.AddResource(UserResource(OneUser(api)(users[|users| - 1]), reports), api.tags(users[|users| - 1].name)))
  }

  lemma UserKeysDiffer()
    ensures POLICIES != GROUPS && POLICIES != ESCALATION && POLICIES != REPORT
    ensures GROUPS != ESCALATION && GROUPS != REPORT && ESCALATION != REPORT
  {
    assert |POLICIES| == 17 && |GROUPS| == 7 && |ESCALATION| == 18 && |REPORT| == 17;
    assert POLICIES[1] == 'A' && REPORT[1] == 'C';
  }

  /** The four fields added to a user: what the user had under that key, or else an empty list,
      stands in for policies and groups that could not be fetched, an empty list for the escalation
      actions, and null for a report without a row for the user. */
  lemma UserRecordExact(api: UserApi, u: User, reports: map<string, Json>)
    ensures var p, g, e := api.policies(u.name), api.groups(u.name), api.escalation(u.arn);
      var raw := UserResource(OneUser(api)(u), reports).raw.fields;
      && GetOr(raw, "_AttachedPolicies", Null) == (if p.Ok? then p.value else GetOr(u.fields, "_AttachedPolicies", Arr([])))
      && GetOr(raw, "_Groups", Null) == (if p.Ok? && g.Ok? then g.value else GetOr(u.fields, "_Groups", Arr([])))
      && GetOr(raw, "_EscalationActions", Null) == (if e.Ok? then e.value else Arr([]))
      && GetOr(raw, "_CredentialReport", Null) == (if u.name in reports then reports[u.name] else Null)
  {
    hide Put;
    hide HasKey;
    hide GetOr;
    UserKeysDiffer();
    DefaultOnlyIfMissing(u.fields, POLICIES);
    DefaultOnlyIfMissing(u.fields, GROUPS);
    var p, g, e := api.policies(u.name), api.groups(u.name), api.escalation(u.arn);
    var none := Arr([]);
    var a := if p.Ok? then Put(u.fields, POLICIES, p.value) else u.fields;
    PutReads(u.fields, POLICIES, if p.Ok? then p.value else none);
    var c := SetDefault(a, POLICIES, none);
    PutReads(a, GROUPS, if g.Ok? then g.value else none);
    PutReads(c, GROUPS, none);
    var b := if p.Ok? && g.Ok? then Put(a, GROUPS, g.value) else SetDefault(c, GROUPS, none);
    var d := Put(b, ESCALATION, if e.Ok? then e.value else none);
    PutReads(b, ESCALATION, if e.Ok? then e.value else none);
    PutReads(d, REPORT, ReportFor(reports, u.name));
    assert UserResource(OneUser(api)(u), reports).raw.fields == Put(d, REPORT, ReportFor(reports, u.name));
  }

  lemma DefaultOnlyIfMissing(fields: seq<Field>, key: string)
    ensures HasKey(fields, key) ==> GetOr(fields, key, Arr([])) == GetOr(fields, key, Null)
    ensures !HasKey(fields, key) ==> GetOr(fields, key, Arr([])) == Arr([])
  {}

  ghost predicate KeepsKey(before: seq<Field>, after: seq<Field>, other: string) {
    GetOr(after, other, Null) == GetOr(before, other, Null) && (HasKey(after, other) <==> HasKey(before, other))
  }

  lemma PutReads(fields: seq<Field>, key: string, value: Json)
    ensures HasKey(Put(fields, key, value), key) && GetOr(Put(fields, key, value), key, Null) == value
    ensures key != POLICIES ==> KeepsKey(fields, Put(fields, key, value), POLICIES)
    ensures key != GROUPS ==> KeepsKey(fields, Put(fields, key, value), GROUPS)
    ensures key != ESCALATION ==> KeepsKey(fields, Put(fields, key, value), ESCALATION)
    ensures key != REPORT ==> KeepsKey(fields, Put(fields, key, value), REPORT)
  {
    hide Put;
    hide Get;
    hide HasKey;
    PutGet(fields, key, value, POLICIES);
    PutGet(fields, key, value, GROUPS);
    PutGet(fields, key, value, ESCALATION);
    PutGet(fields, key, value, REPORT);
  }

  // ----- what is written for keys, trails and log groups -----

  /** The kth call of the key loop, when every key has an id. */
  lemma KmsKeyExact(region: string, keys: seq<KmsKey>, tagsOf: string -> RawTags, k: nat)
    requires k < |keys| && forall j :: 0 <= j < |keys| ==> keys[j].id.Some?
    ensures var calls := FetchAndWrite(keys, KeyTags(tagsOf), KeyResource(region)).calls;
      var name := if keys[k].aliases == [] || keys[k].aliases[0] == None then keys[k].id else keys[k].aliases[0];
      && |calls| == |keys|
      && calls[k] == Call.AddResource(Resource("kms_key", Some(region), keys[k].id, name, keys[k].raw, None, None),
                                      tagsOf(keys[k].id.value))
  {
    OwnTags(keys, KeyTags(tagsOf), KeyResource(region));
  }

  /** A trail is known by its ARN, or by its name when it has none; without either it is untagged. */
  lemma TrailExact(region: string, trails: seq<Trail>, tagsOf: string -> RawTags, k: nat)
    requires k < |trails|
    ensures var calls := FetchAndWrite(trails, TrailTags(tagsOf), TrailResource(region)).calls;
      var t := trails[k];
      var arn := if t.arn.Some? then t.arn else t.name;
      && |calls| == |trails|
      && calls[k] == Call.AddResource(
           Resource("cloudtrail_trail", Some(region), arn, if t.name.Some? then t.name else t.arn, t.raw, None, None),
           if arn == None || arn == Some("") then NoTags else tagsOf(arn.value))
  {
    OwnTags(trails, TrailTags(tagsOf), TrailResource(region));
    AlwaysTagged(trails, TrailTags(tagsOf), TrailResource(region));
    hide FetchAndWrite;
    var calls := FetchAndWrite(trails, TrailTags(tagsOf), TrailResource(region)).calls;
    assert calls[k] == Call.AddResource(TrailResource(region)(trails[k]), TrailTags(tagsOf)(trails[k]).value);
    assert TrailTags(tagsOf)(trails[k]) == Ok(if IsTruthy(TrailArn(trails[k])) then tagsOf(TrailArn(trails[k]).value) else NoTags);
    assert |calls| == |trails|;
  }

  /** A log group's tags are asked for by the first of its two ARNs that is not empty. */
  lemma LogGroupExact(region: string, groups: seq<LogGroup>, tagsOf: string -> RawTags, k: nat)
    requires k < |groups|
    ensures var calls := FetchAndWrite(groups, LogGroupTags(tagsOf), LogGroupResource(region)).calls;
      var g := groups[k];
      && |calls| == |groups|
      && calls[k] == Call.AddResource(Resource("cloudwatch_log_group", Some(region), g.name, g.name, g.raw, None, None),
           if IsTruthy(g.arn) then tagsOf(g.arn.value)
           else if IsTruthy(g.logGroupArn) then tagsOf(g.logGroupArn.value)
           else NoTags)
  {
    OwnTags(groups, LogGroupTags(tagsOf), LogGroupResource(region));
    AlwaysTagged(groups, LogGroupTags(tagsOf), LogGroupResource(region));
    hide FetchAndWrite;
    var calls := FetchAndWrite(groups, LogGroupTags(tagsOf), LogGroupResource(region)).calls;
    assert calls[k] == Call.AddResource(LogGroupResource(region)(groups[k]), LogGroupTags(tagsOf)(groups[k]).value);
    assert LogGroupTags(tagsOf)(groups[k]) == Ok(
      if IsTruthy(Or(groups[k].arn, groups[k].logGroupArn)) then tagsOf(Or(groups[k].arn, groups[k].logGroupArn).value) else NoTags);
    assert |calls| == |groups|;
  }

  /** One user's calls: an error for what could not be fetched, then the record. */
  lemma UserCallsExact(api: UserApi, u: User, reports: map<string, Json>)
    ensures var p, g, e := api.policies(u.name), api.groups(u.name), api.escalation(u.arn);
      var calls := UserCalls(OneUser(api)(u), reports);
      && ErrorsOf(calls)
         == (if p.Err? then [ErrorNote("global", "iam_user:" + u.arn, p.error)]
             else if g.Err? then [ErrorNote("global", "iam_user:" + u.arn, g.error)] else [])
            + (if e.Err? then [ErrorNote("global", "iam_user (escalation simulation:" + u.arn + ")", e.error)] else [])
      && EdgesOf(calls) == []
      && calls != [] && calls[|calls| - 1].AddResource? && calls[|calls| - 1].tags == api.tags(u.name)
      && calls[|calls| - 1].r.raw.Obj?
      && calls[|calls| - 1].r.(raw := Null) == Resource("iam_user", Some("global"), Some(u.arn), Some(u.name), Null, None, None)
  {
    hide Put, HasKey, Accepted, ErrorsOf, EdgesOf;
    var g := OneUser(api)(u);
    UserParts(g, reports);
    NoEdgesInErrors(g.errors);
    var last := [Call.AddResource(UserResource(g, reports), g.tags)];
    PartsAppend(ErrorCalls(g.errors), last);
    NoEdgeInResource(UserResource(g, reports), g.tags);
    OwnTagsOnly(api, u);
    NotesAre(MembershipErrors(u, api.policies(u.name), api.groups(u.name)), EscalationErrors(u, api.escalation(u.arn)));
  }

  lemma NotesAre(a: seq<SourceError>, b: seq<SourceError>)
    ensures ErrorNotes(a + b) == ErrorNotes(a) + ErrorNotes(b)
  {}

  lemma NoEdgeInResource(r: Resource, tags: RawTags)
    ensures EdgesOf([Call.AddResource(r, tags)]) == []
  {
    assert Before([Call.AddResource(r, tags)]) == [];
  }

  lemma {:induction false} NoEdgesInErrors(errors: seq<SourceError>)
    ensures EdgesOf(ErrorCalls(errors)) == []
  {
    if errors != [] {
      var n := |errors| - 1;
      NoEdgesInErrors(errors[..n]);
      assert Before(ErrorCalls(errors)) == ErrorCalls(errors[..n]);
    }
  }

  /** Every other key of a user is as it was. */
  lemma UserKeepsRest(api: UserApi, u: User, reports: map<string, Json>, key: string)
    requires key !in ["_AttachedPolicies", "_Groups", "_EscalationActions", "_CredentialReport"]
    ensures var raw := UserResource(OneUser(api)(u), reports).raw.fields;
      GetOr(raw, key, Null) == GetOr(u.fields, key, Null)
  {
    hide Put, HasKey, GetOr;
    var names := ["_AttachedPolicies", "_Groups", "_EscalationActions", "_CredentialReport"];
    assert names[0] == POLICIES && names[1] == GROUPS && names[2] == ESCALATION && names[3] == REPORT;
    var p, g, e := api.policies(u.name), api.groups(u.name), api.escalation(u.arn);
    var none := Arr([]);
    var a := if p.Ok? then Put(u.fields, POLICIES, p.value) else u.fields;
    var c := SetDefault(a, POLICIES, none);
    var b := if p.Ok? && g.Ok? then Put(a, GROUPS, g.value) else SetDefault(c, GROUPS, none);
    var d := Put(b, ESCALATION, if e.Ok? then e.value else none);
    OtherKey(u.fields, POLICIES, if p.Ok? then p.value else none, key);
    OtherKey(a, POLICIES, none, key);
    OtherKey(a, GROUPS, if g.Ok? then g.value else none, key);
    OtherKey(c, GROUPS, none, key);
    OtherKey(b, ESCALATION, if e.Ok? then e.value else none, key);
    OtherKey(d, REPORT, ReportFor(reports, u.name), key);
    assert UserResource(OneUser(api)(u), reports).raw.fields == Put(d, REPORT, ReportFor(reports, u.name));
  }

  /** However many items there are, no more than ten are fetched at a time. */
  lemma TenAtATime<T, R, E>(fetch: T -> Result<R, E>, items: seq<T>, run: seq<Pool.State<R, E>>, k: nat)
    requires items != [] && k < |run| && Pool.IsRun(fetch, items, Pool.PoolSize(DEFAULT_MAX_WORKERS, |items|), run)
    ensures Pool.InFlight(run[k].slots) <= 10
  {
    Pool.CallsAreBounded(fetch, items, DEFAULT_MAX_WORKERS, run, k);
  }
}
