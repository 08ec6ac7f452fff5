/** Lambda execution roles: the wildcard-admin evaluation, and the per-run caches that look
    each role up once. */
module LambdaRoles {
  import opened Text
  import opened Json
  import opened EnvRedaction

  // ----- _doc_has_wildcard_admin -----

  /** What looking at one thing decides: it grants admin, it does not, or looking raises. */
  datatype Verdict = Grants | Silent | Raises

  /** The first thing that is not silent decides. */
  function FirstVerdict(vs: seq<Verdict>): Verdict {
    if vs == [] then Silent else if vs[0] != Silent then vs[0] else FirstVerdict(vs[1..])
  }

  /** `x in v`, after a single string has been made a list; None if `v` has no members. */
  function Member(x: string, v: Json): Option<bool> {
    match v
    case Str(s) => Some(s == x)
    case Arr(items) => Some(Str(x) in items)
    case Obj(fields) => Some(HasKey(fields, x))
    case _ => None
  }

  /** `('*' in action or 'iam:*' in action) and '*' in resource` */
  function WildcardVerdict(action: Json, resource: Json): Verdict {
    if Member("*", action) == None then Raises
    else if !(Member("*", action).value || Member("iam:*", action).value) then Silent
    else if Member("*", resource) == None then Raises
    else if Member("*", resource).value then Grants else Silent
  }

  function StatementVerdict(stmt: Json): Verdict {
    if !stmt.Obj? then Raises
    else if GetFrom(stmt, "Effect", Null) != Str("Allow") then Silent
    else WildcardVerdict(GetFrom(stmt, "Action", Arr([])), GetFrom(stmt, "Resource", Arr([])))
  }

  function StatementVerdicts(stmts: seq<Json>): seq<Verdict> {
    seq(|stmts|, k requires 0 <= k < |stmts| => StatementVerdict(stmts[k]))
  }

  function Statements(doc: Json): Option<seq<Json>> {
    if Falsy(doc) then Some([])
    else if !doc.Obj? then None
    else Iterate(GetFrom(doc, "Statement", Arr([])))
  }

  /** `_doc_has_wildcard_admin` */
  function DocVerdict(doc: Json): Verdict {
    match Statements(doc) case None => Raises case Some(stmts) => FirstVerdict(StatementVerdicts(stmts))
  }

  method DocVerdictLoop(doc: Json) returns (v: Verdict)
    ensures v == DocVerdict(doc)
  {
    var stmts := Statements(doc);
    if stmts == None {
      return Raises;
    }
    v := FirstOf(stmts.value);
  }

  method FirstOf(stmts: seq<Json>) returns (v: Verdict)
    ensures v == FirstVerdict(StatementVerdicts(stmts))
  {
    hide StatementVerdict;
    ghost var all := StatementVerdicts(stmts);
    for i := 0 to |stmts|
      invariant FirstVerdict(all) == FirstVerdict(all[i..])
    {
      assert all[i..][1..] == all[i + 1..];
      v := StatementVerdict(stmts[i]);
      if v != Silent {
        return;
      }
    }
    v := Silent;
  }

  /** Some position has the verdict, and everything before it is silent. */
  ghost predicate Decides(vs: seq<Verdict>, v: Verdict) {
    exists k :: 0 <= k < |vs| && vs[k] == v && forall j :: 0 <= j < k ==> vs[j] == Silent
  }

  ghost predicate AllSilent(vs: seq<Verdict>) { forall k :: 0 <= k < |vs| ==> vs[k] == Silent }

  lemma {:induction false} FirstVerdictExact(vs: seq<Verdict>, v: Verdict)
    ensures v != Silent ==> (FirstVerdict(vs) == v <==> Decides(vs, v))
    ensures FirstVerdict(vs) == Silent <==> AllSilent(vs)
  {
    if vs != [] {
      var rest := vs[1..];
      FirstVerdictExact(rest, v);
      assert forall k :: 0 <= k < |rest| ==> rest[k] == vs[k + 1];
      if vs[0] == Silent && Decides(rest, v) {
        var k :| 0 <= k < |rest| && rest[k] == v && forall j :: 0 <= j < k ==> rest[j] == Silent;
        assert vs[k + 1] == v && forall j :: 1 <= j < k + 1 ==> vs[j] == rest[j - 1];
      }
      if vs[0] == Silent && v != Silent && Decides(vs, v) {
        var k :| 0 <= k < |vs| && vs[k] == v && forall j :: 0 <= j < k ==> vs[j] == Silent;
        assert rest[k - 1] == v && forall j :: 0 <= j < k - 1 ==> rest[j] == vs[j + 1];
      }
      if AllSilent(rest) && vs[0] == Silent {
        assert forall k :: 1 <= k < |vs| ==> vs[k] == rest[k - 1];
      }
    }
  }

  /** A statement that allows every action, or every IAM action, on every resource; actions
      and resources are a string or a list of them. */
  ghost predicate AdminStatement(stmt: Json) {
    && stmt.Obj? && GetFrom(stmt, "Effect", Null) == Str("Allow")
    && (Lists(GetFrom(stmt, "Action", Arr([])), "*") || Lists(GetFrom(stmt, "Action", Arr([])), "iam:*"))
    && Lists(GetFrom(stmt, "Resource", Arr([])), "*")
  }

  ghost predicate Lists(v: Json, x: string) { v == Str(x) || (v.Arr? && Str(x) in v.items) }

  ghost predicate PlainStatement(stmt: Json) {
    stmt.Obj?
    && (GetFrom(stmt, "Action", Arr([])).Str? || GetFrom(stmt, "Action", Arr([])).Arr?)
    && (GetFrom(stmt, "Resource", Arr([])).Str? || GetFrom(stmt, "Resource", Arr([])).Arr?)
  }

  /** The statements form a list of ordinary statements. */
  ghost predicate PlainDoc(doc: Json) {
    && doc.Obj? && GetFrom(doc, "Statement", Arr([])).Arr?
    && forall k :: 0 <= k < |GetFrom(doc, "Statement", Arr([])).items| ==> PlainStatement(GetFrom(doc, "Statement", Arr([])).items[k])
  }

  /** The statement is one object, which IAM accepts in place of a list. */
  ghost predicate SingleStatement(doc: Json) {
    doc.Obj? && GetFrom(doc, "Statement", Arr([])).Obj? && GetFrom(doc, "Statement", Arr([])) != Obj([])
  }

  /** The statements as IAM reads them. */
  ghost function IamStatements(doc: Json): seq<Json>
    requires doc.Obj?
  {
    match GetFrom(doc, "Statement", Arr([])) case Arr(items) => items case stmt => [stmt]
  }

  /** The document allows admin, as IAM reads it. */
  ghost predicate AdminDoc(doc: Json) {
    doc.Obj? && exists stmt :: stmt in IamStatements(doc) && AdminStatement(stmt)
  }

  /** For a document whose statements form a list of ordinary statements, the check says admin
      exactly when one of them is an admin statement. */
  lemma PlainDocExact(doc: Json)
    requires PlainDoc(doc)
    ensures DocVerdict(doc) == if AdminDoc(doc) then Grants else Silent
  {
    var stmts := GetFrom(doc, "Statement", Arr([])).items;
    var vs := StatementVerdicts(stmts);
    if doc.fields == [] {
      assert vs == [];
    }
    forall k | 0 <= k < |stmts| ensures vs[k] != Raises && (vs[k] == Grants <==> AdminStatement(stmts[k])) {
      assert PlainStatement(stmts[k]);
      PlainVerdict(stmts[k]);
    }
    GrantsIsFirst(vs);
    assert DocVerdict(doc) == FirstVerdict(vs);
    if AdminDoc(doc) {
      var stmt :| stmt in stmts && AdminStatement(stmt);
      var k :| 0 <= k < |stmts| && stmts[k] == stmt;
      assert vs[k] == Grants;
    }
    if Grants in vs {
      var k :| 0 <= k < |vs| && vs[k] == Grants;
      assert stmts[k] in IamStatements(doc);
    }
  }

  lemma PlainVerdict(stmt: Json)
    requires PlainStatement(stmt)
    ensures StatementVerdict(stmt) != Raises && (StatementVerdict(stmt) == Grants <==> AdminStatement(stmt))
  {}

  lemma {:induction false} GrantsIsFirst(vs: seq<Verdict>)
    requires forall k :: 0 <= k < |vs| ==> vs[k] != Raises
    ensures FirstVerdict(vs) != Raises && (FirstVerdict(vs) == Grants <==> Grants in vs)
  {
    if vs != [] {
      GrantsIsFirst(vs[1..]);
      assert vs == [vs[0]] + vs[1..];
    }
  }

  /** With a single statement object the loop visits its keys, and asking a key for its effect
      raises: the document is never evaluated, whatever it allows. */
  lemma SingleStatementRaises(doc: Json)
    requires SingleStatement(doc)
    ensures DocVerdict(doc) == Raises
  {
    var stmt := GetFrom(doc, "Statement", Arr([]));
    assert Statements(doc) == Some(Keys(stmt.fields));
    assert StatementVerdicts(Keys(stmt.fields))[0] == Raises;
  }

  ghost predicate OrdinaryDoc(doc: Json) { PlainDoc(doc) || SingleStatement(doc) }

  /** Over documents of either form, the check meets its purpose exactly on those whose
      statements are a list. */
  lemma OrdinaryDocExact(doc: Json)
    requires OrdinaryDoc(doc)
    ensures DocVerdict(doc) == Raises <==> SingleStatement(doc)
    ensures DocVerdict(doc) == (if AdminDoc(doc) then Grants else Silent) <==> !SingleStatement(doc)
  {
    hide DocVerdict;
    hide AdminDoc;
    if SingleStatement(doc) { SingleStatementRaises(doc); } else { PlainDocExact(doc); }
  }

  // ----- _role_has_admin -----

  const ADMIN_POLICY_ARN := "arn:aws:iam::aws:policy/AdministratorAccess"

  /** What IAM answers about one role; a document that could not be read is None. */
  datatype RolePolicies = RolePolicies(
    attached: Result<seq<Attached>, string>,
    inlineNames: Result<seq<string>, string>,
    inlineDocs: map<string, Json>)

  datatype Attached = Attached(arn: Option<string>, document: Option<Json>)

  function AttachedVerdict(p: Attached): Verdict {
    if p.arn == Some(ADMIN_POLICY_ARN) then Grants
    else if p.arn == None || p.document == None then Silent
    else DocVerdict(p.document.value)
  }

  function InlineVerdict(role: RolePolicies, name: string): Verdict {
    if name in role.inlineDocs then DocVerdict(role.inlineDocs[name]) else Silent
  }

  function AttachedVerdicts(ps: seq<Attached>): seq<Verdict> {
    seq(|ps|, k requires 0 <= k < |ps| => AttachedVerdict(ps[k]))
  }

  function InlineVerdicts(role: RolePolicies, names: seq<string>): seq<Verdict> {
    seq(|names|, k requires 0 <= k < |names| => InlineVerdict(role, names[k]))
  }

  /** `_role_has_admin`; the inline policies are not even listed once an attached one grants. */
  function RoleVerdict(role: RolePolicies): Verdict {
    if role.attached.Err? then Raises
    else if FirstVerdict(AttachedVerdicts(role.attached.value)) != Silent then FirstVerdict(AttachedVerdicts(role.attached.value))
    else if role.inlineNames.Err? then Raises
    else FirstVerdict(InlineVerdicts(role, role.inlineNames.value))
  }

  method RoleVerdictLoop(role: RolePolicies) returns (v: Verdict)
    ensures v == RoleVerdict(role)
  {
    hide DocVerdict;
    if role.attached.Err? {
      return Raises;
    }
    var ps := role.attached.value;
    ghost var all := AttachedVerdicts(ps);
    for i := 0 to |ps|
      invariant FirstVerdict(all) == FirstVerdict(all[i..])
    {
      assert all[i..][1..] == all[i + 1..];
      if ps[i].arn == Some(ADMIN_POLICY_ARN) {
        return Grants;
      }
      if ps[i].arn == None || ps[i].document == None {
        continue;
      }
      v := DocVerdictLoop(ps[i].document.value);
      if v != Silent {
        return;
      }
    }
    if role.inlineNames.Err? {
      return Raises;
    }
    var names := role.inlineNames.value;
    ghost var rest := InlineVerdicts(role, names);
    for i := 0 to |names|
      invariant FirstVerdict(rest) == FirstVerdict(rest[i..])
    {
      assert rest[i..][1..] == rest[i + 1..];
      if names[i] !in role.inlineDocs {
        continue;
      }
      v := DocVerdictLoop(role.inlineDocs[names[i]]);
      if v != Silent {
        return;
      }
    }
    v := Silent;
  }

  /** The first decision in the order of the code counts, and so does a listing that fails
      before it. */
  lemma RoleVerdictExact(role: RolePolicies)
    ensures RoleVerdict(role) == Raises <==>
      || role.attached.Err?
      || Decides(AttachedVerdicts(role.attached.value), Raises)
      || (AllSilent(AttachedVerdicts(role.attached.value))
          && (role.inlineNames.Err? || Decides(InlineVerdicts(role, role.inlineNames.value), Raises)))
    ensures RoleVerdict(role) == Grants <==>
      role.attached.Ok?
      && (Decides(AttachedVerdicts(role.attached.value), Grants)
          || (AllSilent(AttachedVerdicts(role.attached.value))
              && role.inlineNames.Ok? && Decides(InlineVerdicts(role, role.inlineNames.value), Grants)))
  {
    hide FirstVerdict;
    hide Decides;
    hide AllSilent;
    if role.attached.Ok? {
      FirstVerdictExact(AttachedVerdicts(role.attached.value), Raises);
      FirstVerdictExact(AttachedVerdicts(role.attached.value), Grants);
      if role.inlineNames.Ok? {
        FirstVerdictExact(InlineVerdicts(role, role.inlineNames.value), Raises);
        FirstVerdictExact(InlineVerdicts(role, role.inlineNames.value), Grants);
      }
    }
  }

  /** The policies of a role in the order they are looked at; an inline one has no ARN. */
  function Policies(role: RolePolicies): seq<Attached>
    requires role.attached.Ok? && role.inlineNames.Ok?
  {
    role.attached.value
    + seq(|role.inlineNames.value|, k requires 0 <= k < |role.inlineNames.value| => InlinePolicy(role, role.inlineNames.value[k]))
  }

  function InlinePolicy(role: RolePolicies, name: string): Attached {
    Attached(Some([]), if name in role.inlineDocs then Some(role.inlineDocs[name]) else None)
  }

  lemma {:induction false} FirstOfBoth(vs: seq<Verdict>, ws: seq<Verdict>)
    ensures FirstVerdict(vs + ws) == if FirstVerdict(vs) != Silent then FirstVerdict(vs) else FirstVerdict(ws)
  {
    if vs == [] {
      assert vs + ws == ws;
    } else {
      assert (vs + ws)[1..] == vs[1..] + ws;
      FirstOfBoth(vs[1..], ws);
    }
  }

  lemma OneSequence(role: RolePolicies)
    requires role.attached.Ok? && role.inlineNames.Ok?
    ensures RoleVerdict(role) == FirstVerdict(AttachedVerdicts(Policies(role)))
  {
    hide DocVerdict;
    hide FirstVerdict;
    var names := role.inlineNames.value;
    var vs, ws := AttachedVerdicts(role.attached.value), InlineVerdicts(role, names);
    assert |ADMIN_POLICY_ARN| > 0;
    assert AttachedVerdicts(Policies(role)) == vs + ws;
    FirstOfBoth(vs, ws);
  }

  /** The managed policy, or a document that allows admin. */
  ghost predicate AdminPolicy(p: Attached) {
    p.arn == Some("arn:aws:iam::aws:policy/AdministratorAccess") || (p.arn.Some? && p.document.Some? && AdminDoc(p.document.value))
  }

  /** The check raises on this policy. */
  ghost predicate Unevaluated(p: Attached) {
    p.arn.Some? && p.arn != Some(ADMIN_POLICY_ARN) && p.document.Some? && SingleStatement(p.document.value)
  }

  /** Both listings succeed, and every document that can be read is of one of the two forms. */
  ghost predicate OrdinaryRole(role: RolePolicies) {
    && role.attached.Ok? && role.inlineNames.Ok?
    && forall k :: 0 <= k < |Policies(role)| ==>
         (Policies(role)[k].document.Some? ==> OrdinaryDoc(Policies(role)[k].document.value))
  }

  /** Some policy allows admin. */
  ghost predicate RoleIsAdmin(role: RolePolicies)
    requires role.attached.Ok? && role.inlineNames.Ok?
  {
    exists k :: 0 <= k < |Policies(role)| && AdminPolicy(Policies(role)[k])
  }

  /** The check raises exactly when a single statement object comes before any other admin
      policy. Otherwise its answer is right: it grants exactly when some policy allows admin. */
  lemma OrdinaryRoleExact(role: RolePolicies)
    requires OrdinaryRole(role)
    ensures RoleVerdict(role) == Raises <==>
      exists k :: 0 <= k < |Policies(role)| && Unevaluated(Policies(role)[k])
        && forall j :: 0 <= j < k ==> !AdminPolicy(Policies(role)[j]) || Unevaluated(Policies(role)[j])
    ensures RoleVerdict(role) != Raises ==> RoleVerdict(role) == if RoleIsAdmin(role) then Grants else Silent
  {
    hide DocVerdict;
    hide RoleVerdict;
    hide OrdinaryDoc;
    hide AdminDoc;
    hide SingleStatement;
    hide FirstVerdict;
    hide Policies;
    var ps := Policies(role);
    var vs := AttachedVerdicts(ps);
    OneSequence(role);
    forall k | 0 <= k < |ps|
      ensures vs[k] == if Unevaluated(ps[k]) then Raises else if AdminPolicy(ps[k]) then Grants else Silent
    {
      if ps[k].document.Some? { OrdinaryDocExact(ps[k].document.value); }
    }
    FirstVerdictExact(vs, Raises);
    FirstVerdictExact(vs, Grants);
    FirstRaises(ps, vs);
    FirstGrants(ps, vs);
  }

  ghost predicate VerdictsOf(ps: seq<Attached>, vs: seq<Verdict>) {
    && |vs| == |ps|
    && forall k :: 0 <= k < |ps| ==>
         vs[k] == if Unevaluated(ps[k]) then Raises else if AdminPolicy(ps[k]) then Grants else Silent
  }

  lemma {:induction false} FirstUnevaluated(ps: seq<Attached>, vs: seq<Verdict>, n: nat)
    requires VerdictsOf(ps, vs) && n < |ps| && Unevaluated(ps[n])
    requires forall j :: 0 <= j < n ==> !AdminPolicy(ps[j]) || Unevaluated(ps[j])
    ensures Decides(vs, Raises)
  {
    hide AdminPolicy;
    hide Unevaluated;
    if exists j :: 0 <= j < n && Unevaluated(ps[j]) {
      var j :| 0 <= j < n && Unevaluated(ps[j]);
      FirstUnevaluated(ps, vs, j);
    } else {
      assert vs[n] == Raises && forall j :: 0 <= j < n ==> vs[j] == Silent;
    }
  }

  lemma FirstRaises(ps: seq<Attached>, vs: seq<Verdict>)
    requires VerdictsOf(ps, vs)
    ensures Decides(vs, Raises) <==>
      exists k :: 0 <= k < |ps| && Unevaluated(ps[k])
        && forall j :: 0 <= j < k ==> !AdminPolicy(ps[j]) || Unevaluated(ps[j])
  {
    hide AdminPolicy;
    hide Unevaluated;
    if Decides(vs, Raises) {
      var k :| 0 <= k < |vs| && vs[k] == Raises && forall j :: 0 <= j < k ==> vs[j] == Silent;
      assert Unevaluated(ps[k]) && forall j :: 0 <= j < k ==> vs[j] == Silent && !AdminPolicy(ps[j]);
    }
    forall k | 0 <= k < |ps| && Unevaluated(ps[k]) && forall j :: 0 <= j < k ==> !AdminPolicy(ps[j]) || Unevaluated(ps[j])
      ensures Decides(vs, Raises)
    {
      FirstUnevaluated(ps, vs, k);
    }
  }

  lemma FirstGrants(ps: seq<Attached>, vs: seq<Verdict>)
    requires VerdictsOf(ps, vs)
    ensures Decides(vs, Grants) ==> exists k :: 0 <= k < |ps| && AdminPolicy(ps[k])
    ensures AllSilent(vs) ==> forall k :: 0 <= k < |ps| ==> !AdminPolicy(ps[k])
  {
    hide AdminPolicy;
    hide Unevaluated;
    if Decides(vs, Grants) {
      var k :| 0 <= k < |vs| && vs[k] == Grants && forall j :: 0 <= j < k ==> vs[j] == Silent;
      assert AdminPolicy(ps[k]);
    }
    if AllSilent(vs) {
      forall k | 0 <= k < |ps| ensures !AdminPolicy(ps[k]) { assert vs[k] == Silent; }
    }
  }

  /** Without single statement objects the check is always right. */
  lemma PlainRoleExact(role: RolePolicies)
    requires OrdinaryRole(role)
    requires forall k :: 0 <= k < |Policies(role)| ==> !Unevaluated(Policies(role)[k])
    ensures RoleVerdict(role) == if RoleIsAdmin(role) then Grants else Silent
  {
    hide RoleVerdict;
    hide RoleIsAdmin;
    hide Policies;
    OrdinaryRoleExact(role);
  }

  /** The order of the attached policies matters: such a document hides an administrator policy
      attached after it, and does no harm after one. */
  lemma OrderMatters(doc: Json, arn: string, inlineNames: Result<seq<string>, string>, inlineDocs: map<string, Json>)
    requires SingleStatement(doc) && arn != ADMIN_POLICY_ARN
    ensures var single, admin := Attached(Some(arn), Some(doc)), Attached(Some(ADMIN_POLICY_ARN), None);
      && RoleVerdict(RolePolicies(Ok([single, admin]), inlineNames, inlineDocs)) == Raises
      && RoleVerdict(RolePolicies(Ok([admin, single]), inlineNames, inlineDocs)) == Grants
  {
    hide DocVerdict;
    SingleStatementRaises(doc);
    var single, admin := Attached(Some(arn), Some(doc)), Attached(Some(ADMIN_POLICY_ARN), None);
    assert AttachedVerdicts([single, admin])[0] == Raises;
    assert AttachedVerdicts([admin, single])[0] == Grants;
  }

  // ----- the caches -----

  /** One answer about a role: known, or None when looking it up failed. */
  type Answer = Option<bool>

  /** IAM during one run: the same question about the same role always gets the same reply. */
  type Oracle = string -> Result<bool, string>

  function AnswerOf(r: Result<bool, string>): Answer { match r case Ok(b) => Some(b) case Err(_) => None }

  const ROLE_MARK := ":role/"

  /** `arn.split(':role/')[-1]` */
  function AfterMark(arn: string): string
    decreases |arn|
  {
    var at := Find(arn, ROLE_MARK);
    if at < 0 then arn else AfterMark(arn[at + |ROLE_MARK|..])
  }

  /** The role name of a function, if it names one. */
  function RoleName(arn: Option<string>): Option<string> {
    if arn == None || arn.value == [] || AfterMark(arn.value) == [] then None else Some(AfterMark(arn.value))
  }

  datatype RoleFields = RoleFields(exists_: Answer, admin: Answer)

  /** What the fields would be without any cache. */
  function Uncached(arn: Option<string>, existence: Oracle, admin: Oracle): RoleFields {
    match RoleName(arn)
    case None => RoleFields(None, None)
    case Some(name) => RoleFields(AnswerOf(existence(name)), AnswerOf(admin(name)))
  }

  /** The admin question, put to IAM by way of the check. */
  function AdminOracle(iam: string -> RolePolicies, message: string -> string): Oracle {
    name => match RoleVerdict(iam(name))
      case Grants => Ok(true)
      case Silent => Ok(false)
      case Raises => Err(message(name))
  }

  /** What the admin field says: unknown exactly without a role or when the check raises. */
  lemma AdminFieldExact(arn: Option<string>, existence: Oracle, iam: string -> RolePolicies, message: string -> string)
    ensures var admin := Uncached(arn, existence, AdminOracle(iam, message)).admin;
      && (admin == None <==> RoleName(arn) == None || RoleVerdict(iam(RoleName(arn).value)) == Raises)
      && (admin == Some(true) <==> RoleName(arn).Some? && RoleVerdict(iam(RoleName(arn).value)) == Grants)
      && (admin == Some(false) <==> RoleName(arn).Some? && RoleVerdict(iam(RoleName(arn).value)) == Silent)
  {
    hide RoleVerdict;
    hide RoleName;
    if RoleName(arn).Some? {
      var name := RoleName(arn).value;
      match RoleVerdict(iam(name)) {
        case Grants =>
        case Silent =>
        case Raises =>
      }
    }
  }

  datatype Question = RoleExists(role: string) | RoleAdmin(role: string)

  datatype LookupError = LookupError(question: Question, message: string)

  /** The role names of the functions, each at its first occurrence. */
  function DistinctRoles(arns: seq<Option<string>>): seq<string> {
    if arns == [] then []
    else
      var before := DistinctRoles(arns[..|arns| - 1]);
      match RoleName(arns[|arns| - 1])
      case None => before
      case Some(name) => if name in before then before else before + [name]
  }

  function ErrorOf(q: Question, r: Result<bool, string>): seq<LookupError> {
    match r case Ok(_) => [] case Err(m) => [LookupError(q, m)]
  }

  /** The errors of looking each role up once, first whether it exists, then its policies. */
  function LookupErrors(roles: seq<string>, existence: Oracle, admin: Oracle): seq<LookupError> {
    if roles == [] then []
    else
      var name := roles[|roles| - 1];
      LookupErrors(roles[..|roles| - 1], existence, admin)
      + ErrorOf(RoleExists(name), existence(name)) + ErrorOf(RoleAdmin(name), admin(name))
  }

  /** Both questions about each role. */
  function Lookups(roles: seq<string>): seq<Question> {
    if roles == [] then []
    else Lookups(roles[..|roles| - 1]) + [RoleExists(roles[|roles| - 1]), RoleAdmin(roles[|roles| - 1])]
  }

  ghost predicate CacheAgrees(cache: map<string, Answer>, roles: seq<string>, oracle: Oracle) {
    && (forall name :: name in cache <==> name in roles)
    && (forall name :: name in cache ==> cache[name] == AnswerOf(oracle(name)))
  }

  lemma NoArns(existence: Oracle, admin: Oracle)
    ensures DistinctRoles([]) == [] && Lookups([]) == [] && LookupErrors([], existence, admin) == []
  {}

  /** What one more function adds: nothing, unless it names a role not seen before. */
  lemma NextArn(arns: seq<Option<string>>, i: nat, existence: Oracle, admin: Oracle)
    requires i < |arns|
    ensures var before, after := DistinctRoles(arns[..i]), DistinctRoles(arns[..i + 1]);
      match RoleName(arns[i]) {
        case None => after == before
        case Some(name) =>
          if name in before then after == before
          else
            && after == before + [name]
            && Lookups(after) == Lookups(before) + [RoleExists(name)] + [RoleAdmin(name)]
            && LookupErrors(after, existence, admin)
               == LookupErrors(before, existence, admin)
                  + ErrorOf(RoleExists(name), existence(name)) + ErrorOf(RoleAdmin(name), admin(name))
      }
  {
    hide RoleName;
    hide ErrorOf;
    assert arns[..i + 1][..i] == arns[..i];
    var before := DistinctRoles(arns[..i]);
    var role := RoleName(arns[i]);
    if role.Some? {
      assert (before + [role.value])[..|before|] == before;
    }
  }

  /** The role part of `gather`: every function gets the answers an uncached lookup would give
      it, each distinct role is looked up once per question, and each failing lookup leaves
      exactly one error. */
  method RoleFieldsLoop(arns: seq<Option<string>>, existence: Oracle, admin: Oracle)
      returns (fields: seq<RoleFields>, lookups: seq<Question>, errors: seq<LookupError>)
    ensures |fields| == |arns| && forall k :: 0 <= k < |arns| ==> fields[k] == Uncached(arns[k], existence, admin)
    ensures lookups == Lookups(DistinctRoles(arns))
    ensures errors == LookupErrors(DistinctRoles(arns), existence, admin)
  {
    hide RoleName;
    hide AnswerOf;
    hide ErrorOf;
    hide DistinctRoles;
    hide LookupErrors;
    hide Lookups;
    NoArns(existence, admin);
    var existsCache: map<string, Answer>, adminCache: map<string, Answer> := map[], map[];
    fields, lookups, errors := [], [], [];
    for i := 0 to |arns|
      invariant |fields| == i && forall k :: 0 <= k < i ==> fields[k] == Uncached(arns[k], existence, admin)
      invariant CacheAgrees(existsCache, DistinctRoles(arns[..i]), existence)
      invariant CacheAgrees(adminCache, DistinctRoles(arns[..i]), admin)
      invariant lookups == Lookups(DistinctRoles(arns[..i]))
      invariant errors == LookupErrors(DistinctRoles(arns[..i]), existence, admin)
    {
      NextArn(arns, i, existence, admin);
      var role := RoleName(arns[i]);
      if role.Some? {
        var name := role.value;
        if name !in existsCache {
          var r := existence(name);
          lookups := lookups + [RoleExists(name)];
          existsCache := existsCache[name := AnswerOf(r)];
          errors := errors + ErrorOf(RoleExists(name), r);
        }
        if name !in adminCache {
          var r := admin(name);
          lookups := lookups + [RoleAdmin(name)];
          adminCache := adminCache[name := AnswerOf(r)];
          errors := errors + ErrorOf(RoleAdmin(name), r);
        }
        fields := fields + [RoleFields(existsCache[name], adminCache[name])];
      } else {
        fields := fields + [RoleFields(None, None)];
      }
    }
    assert arns[..|arns|] == arns;
  }

  ghost predicate Distinct<T(!new)>(xs: seq<T>) { forall a, b :: 0 <= a < b < |xs| ==> xs[a] != xs[b] }

  /** The roles looked up are exactly the ones some function names, each one once. */
  lemma {:induction false} DistinctRolesExact(arns: seq<Option<string>>)
    ensures Distinct(DistinctRoles(arns))
    ensures forall name :: name in DistinctRoles(arns) <==> exists k :: 0 <= k < |arns| && RoleName(arns[k]) == Some(name)
  {
    hide RoleName;
    if arns != [] {
      var n := |arns| - 1;
      var front := arns[..n];
      DistinctRolesExact(front);
      assert forall k :: 0 <= k < n ==> front[k] == arns[k];
    }
  }

  /** An error is reported exactly for the failing questions about listed roles. */
  lemma {:induction false} ErrorsAreFailures(roles: seq<string>, existence: Oracle, admin: Oracle, name: string, message: string)
    ensures LookupError(RoleExists(name), message) in LookupErrors(roles, existence, admin)
      <==> name in roles && existence(name) == Err(message)
    ensures LookupError(RoleAdmin(name), message) in LookupErrors(roles, existence, admin)
      <==> name in roles && admin(name) == Err(message)
    ensures |LookupErrors(roles, existence, admin)| <= |Lookups(roles)|
  {
    if roles != [] {
      var front := roles[..|roles| - 1];
      ErrorsAreFailures(front, existence, admin, name, message);
      assert roles == front + [roles[|roles| - 1]];
    }
  }

  /** The errors of one role are about it, and differ. */
  lemma OwnErrors(name: string, exists_: Result<bool, string>, admin: Result<bool, string>)
    ensures var errors := ErrorOf(RoleExists(name), exists_) + ErrorOf(RoleAdmin(name), admin);
      Distinct(errors) && forall e :: e in errors ==> e.question.role == name
  {}

  lemma {:induction false} ErrorsOfRoles(roles: seq<string>, existence: Oracle, admin: Oracle, e: LookupError)
    requires e in LookupErrors(roles, existence, admin)
    ensures e.question.role in roles
  {
    hide ErrorOf;
    if roles != [] {
      var front, name := roles[..|roles| - 1], roles[|roles| - 1];
      if e in LookupErrors(front, existence, admin) { ErrorsOfRoles(front, existence, admin, e); }
      OwnErrors(name, existence(name), admin(name));
      assert roles == front + [name];
    }
  }

  lemma DistinctAppend<T(!new)>(xs: seq<T>, ys: seq<T>)
    requires Distinct(xs) && Distinct(ys) && forall y :: y in ys ==> y !in xs
    ensures Distinct(xs + ys)
  {
    var all := xs + ys;
    forall a, b | 0 <= a < b < |all| ensures all[a] != all[b] {
      if a < |xs| <= b {
        assert all[b] in ys && all[a] in xs;
      }
    }
  }

  /** No failure is reported twice. */
  lemma {:induction false} ErrorsDiffer(roles: seq<string>, existence: Oracle, admin: Oracle)
    requires Distinct(roles)
    ensures Distinct(LookupErrors(roles, existence, admin))
  {
    hide ErrorOf;
    if roles != [] {
      var front, name := roles[..|roles| - 1], roles[|roles| - 1];
      ErrorsDiffer(front, existence, admin);
      var before := LookupErrors(front, existence, admin);
      var more := ErrorOf(RoleExists(name), existence(name)) + ErrorOf(RoleAdmin(name), admin(name));
      forall e | e in before ensures e.question.role != name { ErrorsOfRoles(front, existence, admin, e); }
      OwnErrors(name, existence(name), admin(name));
      DistinctAppend(before, more);
      assert LookupErrors(roles, existence, admin) == before + more;
    }
  }

  /** Both fields: unknown without a role or when the lookup fails, and otherwise its answer. */
  lemma FieldsExact(arn: Option<string>, existence: Oracle, admin: Oracle)
    ensures var f, role := Uncached(arn, existence, admin), RoleName(arn);
      && f.exists_ == (if role == None || existence(role.value).Err? then None else Some(existence(role.value).value))
      && f.admin == (if role == None || admin(role.value).Err? then None else Some(admin(role.value).value))
  {
    hide RoleName;
  }

  /** The lookups of a run: each question about each of the roles, and none twice. */
  lemma {:induction false} LookupsExact(roles: seq<string>, q: Question)
    requires Distinct(roles)
    ensures q in Lookups(roles) <==> q.role in roles
    ensures Distinct(Lookups(roles)) && |Lookups(roles)| == 2 * |roles|
  {
    if roles != [] {
      var front, name := roles[..|roles| - 1], roles[|roles| - 1];
      LookupsExact(front, q);
      forall asked | asked in Lookups(front) ensures asked.role in front { LookupsExact(front, asked); }
      DistinctAppend(Lookups(front), [RoleExists(name), RoleAdmin(name)]);
      assert roles == front + [name];
    }
  }

  // ----- the role of a function -----

  /** A mark does not overlap another one. */
  lemma MarkBefore(front: string, name: string, at: nat)
    requires at < |front| && OccursAt(front + ":role/" + name, ":role/", at)
    ensures at + 6 <= |front|
  {
    var arn := front + ":role/" + name;
    if at + 6 > |front| { OccursCharacter(arn, ":role/", at, |front|); }
    assert arn[|front|] == ':' && forall k :: 0 < k < 6 ==> ":role/"[k] != ':';
  }

  /** The role name is what follows the last mark, or the whole text without one; there is none if
      that is empty or no ARN is given. */
  lemma {:induction false} AfterLastMark(front: string, name: string)
    requires !Contains(name, ":role/")
    ensures AfterMark(name) == name && AfterMark(front + ":role/" + name) == name
    decreases |front|
  {
    var arn := front + ":role/" + name;
    assert arn[|front|..|front| + 6] == ":role/";
    assert OccursAt(arn, ":role/", |front|);
    var at := Find(arn, ":role/");
    if at < |front| {
      MarkBefore(front, name, at);
      assert arn[at + 6..] == front[at + 6..] + ":role/" + name;
      AfterLastMark(front[at + 6..], name);
    } else {
      assert arn[at + 6..] == name;
    }
  }

  lemma RoleNameExact(front: string, name: string)
    requires !Contains(name, ":role/")
    ensures RoleName(Some(front + ":role/" + name)) == (if name == [] then None else Some(name))
    ensures RoleName(Some(name)) == (if name == [] then None else Some(name))
    ensures RoleName(None) == None
  {
    hide AfterMark;
    AfterLastMark(front, name);
  }
}
