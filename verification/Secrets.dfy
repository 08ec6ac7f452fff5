/** The local secret scanner: the rule table, the wait-condition strip, and the scan. */
module Secrets {
  import opened Text
  import opened Patterns
  import opened Stripping

  // ----- vocabulary of the patterns -----

  function Lit(s: string): Regex { Literal(s, false) }

  /** A literal under re.IGNORECASE. */
  function LitI(s: string): Regex { Literal(s, true) }

  function Some1(c: CharSet): Regex { Repeat(OneOf(c), 1, None) }

  function Any(c: CharSet): Regex { Repeat(OneOf(c), 0, None) }

  function AtLeast(c: CharSet, n: nat): Regex { Repeat(OneOf(c), n, None) }

  function Times(c: CharSet, n: nat): Regex { Repeat(OneOf(c), n, Some(n)) }

  function Opt(r: Regex): Regex { Repeat(r, 0, Some(1)) }

  const ALNUM := Either(Either(Range('A', 'Z'), Range('a', 'z')), DIGIT)
  const NONSPACE := Not(Space)
  const HEX := Either(HEX_LOWER, Range('A', 'F'))
  const EQ_OR_COLON := Chars("=:")
  const QUOTE := Chars("\"'")

  lemma ClassFacts()
    ensures forall c: char :: NONSPACE.Has(c) <==> !IsSpace(c)
    ensures forall c: char :: EQ_OR_COLON.Has(c) <==> c == '=' || c == ':'
    ensures forall c: char :: ALNUM.Has(c) <==> IsAlpha(c) || IsDigit(c)
    ensures forall c: char :: HEX.Has(c) <==> IsDigit(c) || 'a' <= c <= 'f' || 'A' <= c <= 'F'
  {
    forall c: char ensures ALNUM.Has(c) <==> IsAlpha(c) || IsDigit(c) {
      assert ALNUM.first.Has(c) <==> IsAlpha(c);
      assert ALNUM.second.Has(c) <==> IsDigit(c);
    }
    forall c: char ensures HEX.Has(c) <==> IsDigit(c) || 'a' <= c <= 'f' || 'A' <= c <= 'F' {
      assert HEX.first.Has(c) <==> IsDigit(c) || 'a' <= c <= 'f';
    }
  }

  // ----- the rule table -----

  datatype Rule = Rule(name: string, pattern: Regex)

  /** `name`, then `=` or `:` with optional space around it, then a value. */
  function Assigned(name: Regex): Regex {
    name.Then(Any(Space)).Then(OneOf(EQ_OR_COLON)).Then(Any(Space)).Then(Some1(NONSPACE))
  }

  /** `head` and a run of `chars`, with a word boundary at both ends. */
  function Token(head: Regex, chars: CharSet, min: nat, max: Option<nat>): Regex {
    WordBoundary.Then(head).Then(Repeat(OneOf(chars), min, max)).Then(WordBoundary)
  }

  function AwsSecretKey(): Regex {
    Assigned(LitI("aws_secret_access_key").Or(LitI("aws_secret_key")))
  }

  function AwsSessionToken(): Regex {
    Assigned(LitI("aws_session_token").Or(LitI("x-amz-security-token")))
  }

  function AzureAccountKey(): Regex {
    Lit("AccountKey=").Then(Times(Either(ALNUM, Chars("+/")), 86)).Then(Lit("=="))
  }

  function AzureSas(): Regex {
    WordBoundary.Then(Lit("sv=")).Then(Times(DIGIT, 4)).Then(Lit("-")).Then(Times(DIGIT, 2)).Then(Lit("-"))
    .Then(Times(DIGIT, 2)).Then(Lit("&")).Then(Any(Not(Either(Space, QUOTE)))).Then(Lit("&sig="))
    .Then(AtLeast(Either(ALNUM, Chars("%")), 20))
  }

  function AzureClientSecret(): Regex {
    Assigned(LitI("azure_client_secret").Or(LitI("client_secret")))
  }

  function GcpApiKey(): Regex {
    Token(Lit("AIza"), Either(ALNUM, Chars("-_")), 35, Some(35))
  }

  function GcpServiceAccountKey(): Regex {
    Lit("\"private_key_id\"").Then(Any(Space)).Then(Lit(":")).Then(Any(Space)).Then(Lit("\""))
    .Then(Times(HEX_LOWER, 40)).Then(Lit("\""))
  }

  function GithubToken(): Regex {
    Token(Lit("gh").Then(OneOf(Chars("pousr"))).Then(Lit("_")), ALNUM, 36, Some(255))
  }

  function GithubFineGrained(): Regex {
    Token(Lit("github_pat_"), Either(ALNUM, Chars("_")), 22, Some(255))
  }

  function GitlabToken(): Regex {
    Token(Lit("glpat-"), Either(ALNUM, Chars("-_")), 20, Some(20))
  }

  function SlackToken(): Regex {
    Token(Lit("xox").Then(OneOf(Chars("baprs"))).Then(Lit("-")), Either(ALNUM, Chars("-")), 10, Some(48))
  }

  function SlackWebhook(): Regex {
    Lit("hooks.slack.com/services/T").Then(AtLeast(Either(ALNUM, Chars("_")), 8)).Then(Lit("/B"))
    .Then(AtLeast(Either(ALNUM, Chars("_")), 8)).Then(Lit("/")).Then(Times(Either(ALNUM, Chars("_")), 24))
  }

  function StripeKey(): Regex {
    Token(Lit("sk_live_"), ALNUM, 24, None)
  }

  function TwilioKey(): Regex {
    Token(Lit("SK"), HEX, 32, Some(32))
  }

  function PrivateKey(): Regex {
    Lit("-----BEGIN").Then(Opt(OneOf(Space)))
    .Then(Opt(Lit("RSA").Or(Lit("EC")).Or(Lit("OPENSSH")).Or(Lit("PGP")).Or(Lit("DSA"))))
    .Then(Opt(OneOf(Space))).Then(Lit("PRIVATE KEY-----"))
  }

  function Jwt(): Regex {
    WordBoundary.Then(Lit("eyJ")).Then(AtLeast(Either(ALNUM, Chars("_-")), 5)).Then(Lit(".eyJ"))
    .Then(AtLeast(Either(ALNUM, Chars("_-")), 5)).Then(Lit("."))
    .Then(AtLeast(Either(ALNUM, Chars("_-")), 5)).Then(WordBoundary)
  }

  function DatabaseUrl(): Regex {
    WordBoundary
    .Then(LitI("postgres").Then(Opt(LitI("ql"))).Or(LitI("mysql"))
          .Or(LitI("mongodb").Then(Opt(LitI("+srv")))).Or(LitI("redis")).Or(LitI("amqp")))
    .Then(LitI("://")).Then(Some1(Not(Either(Space, Chars(":/"))))).Then(LitI(":"))
    .Then(Some1(Not(Either(Space, Chars("@/"))))).Then(LitI("@"))
  }

  function BasicAuthUrl(): Regex {
    Lit("http").Then(Opt(Lit("s"))).Then(Lit("://")).Then(Some1(Not(Either(Space, Chars(":/@"))))).Then(Lit(":"))
    .Then(Some1(Not(Either(Space, Chars("@/"))))).Then(Lit("@")).Then(Some1(Not(Either(Space, QUOTE))))
  }

  function GenericAssignment(): Regex {
    LitI("api").Then(Opt(OneOf(Chars("_-")))).Then(LitI("key")).Or(LitI("apikey")).Or(LitI("secret"))
    .Or(LitI("token")).Or(LitI("passwd")).Or(LitI("password"))
    .Then(Any(Space)).Then(OneOf(EQ_OR_COLON)).Then(Any(Space)).Then(OneOf(QUOTE))
    .Then(AtLeast(Either(ALNUM, Chars("-_/+=")), 16)).Then(OneOf(QUOTE))
  }

  /** Credentials of the three clouds. */
  function CloudRules(): seq<Rule> {
    [ Rule("AWS Secret Access Key", AwsSecretKey()),
      Rule("AWS Session Token", AwsSessionToken()),
      Rule("Azure Storage Account Key", AzureAccountKey()),
      Rule("Azure SAS Token", AzureSas()),
      Rule("Azure Client Secret", AzureClientSecret()),
      Rule("GCP API Key", GcpApiKey()),
      Rule("GCP Service Account Key", GcpServiceAccountKey()) ]
  }

  /** Tokens of other services. */
  function ServiceRules(): seq<Rule> {
    [ Rule("GitHub Token", GithubToken()),
      Rule("GitHub Fine-Grained PAT", GithubFineGrained()),
      Rule("GitLab Personal Access Token", GitlabToken()),
      Rule("Slack Token", SlackToken()),
      Rule("Slack Webhook URL", SlackWebhook()),
      Rule("Stripe Live API Key", StripeKey()),
      Rule("Twilio API Key", TwilioKey()) ]
  }

  /** Keys, web tokens, and credentials in URLs and assignments. */
  function OtherRules(): seq<Rule> {
    [ Rule("Private Key", PrivateKey()),
      Rule("JSON Web Token", Jwt()),
      Rule("Database Connection String", DatabaseUrl()),
      Rule("Basic Auth Credentials in URL", BasicAuthUrl()),
      Rule("Generic API Key/Secret Assignment", GenericAssignment()) ]
  }

  /** `SECRET_RULES` */
  function Rules(): seq<Rule> { CloudRules() + ServiceRules() + OtherRules() }

  // ----- stripping wait-condition URLs -----

  function UrlHead(): Regex { LitI("http").Then(Opt(LitI("s"))).Then(LitI("://cloudformation-waitcondition-")) }

  function WaitConditionUrl(): Regex { UrlHead().Then(Some1(NONSPACE)) }

  /** `_CFN_WAITCONDITION_URL_RE.sub('', text)` */
  function StripUrls(t: string): string { Remove(WaitConditionUrl(), t, 0) }

  predicate NoSpaceIn(s: string) { forall k :: 0 <= k < |s| ==> !IsSpace(s[k]) }

  lemma LiteralAvoidsSpace(s: string)
    requires NoSpaceIn(s)
    ensures Avoids(LitI(s), Space)
  {}

  lemma UrlShape()
    ensures RunsTo(WaitConditionUrl(), Space)
  {
    LiteralAvoidsSpace("http");
    LiteralAvoidsSpace("s");
    LiteralAvoidsSpace("://cloudformation-waitcondition-");
    assert Avoids(Some1(NONSPACE), Space);
    assert Avoids(UrlHead(), Space);
  }

  /** The strip removes whole wait-condition URLs and nothing else, leaves no such URL in
      the text, and a second pass changes nothing. */
  lemma StripIsOnePass(t: string)
    ensures exists ps :: CutsMatch(WaitConditionUrl(), ps) && Whole(ps) == t && KeptOnly(ps) == StripUrls(t)
    ensures !MatchesSomewhere(WaitConditionUrl(), StripUrls(t))
    ensures StripUrls(StripUrls(t)) == StripUrls(t)
  {
    UrlShape();
    OnePass(WaitConditionUrl(), Space, t);
  }

  // ----- the scan -----

  function HitNames(rules: seq<Rule>, t: string): seq<string> {
    if rules == [] then []
    else (if Found(rules[0].pattern, t) then [rules[0].name] else []) + HitNames(rules[1..], t)
  }

  /** `scan_text_for_secrets` */
  function ScanText(text: string): seq<string> {
    if text == [] then [] else HitNames(Rules(), StripUrls(text))
  }

  /** `names` are those of `all` that hit, in the order of `all`; `picks` says where each
      one stands. */
  ghost predicate PicksOf(picks: seq<int>, names: seq<string>, all: seq<string>, hit: seq<bool>) {
    && |all| == |hit| && |picks| == |names|
    && (forall a :: 0 <= a < |picks| ==> 0 <= picks[a] < |all| && names[a] == all[picks[a]])
    && (forall a, b :: 0 <= a < b < |picks| ==> picks[a] < picks[b])
    && (forall k :: 0 <= k < |hit| ==> (k in picks <==> hit[k]))
  }

  /** The pick positions of a longer table, one place further on. */
  function Moved(rest: seq<int>): (moved: seq<int>)
    ensures |moved| == |rest|
    ensures forall a :: 0 <= a < |rest| ==> moved[a] == rest[a] + 1
  {
    seq(|rest|, a requires 0 <= a < |rest| => rest[a] + 1)
  }

  lemma MovedMember(rest: seq<int>, k: int)
    ensures k in Moved(rest) <==> k - 1 in rest
  {
    if k - 1 in rest {
      var a :| 0 <= a < |rest| && rest[a] == k - 1;
      assert Moved(rest)[a] == k;
    }
  }

  lemma AddRule(rest: seq<int>, names: seq<string>, all: seq<string>, hit: seq<bool>)
    requires |all| == |hit| > 0 && PicksOf(rest, names, all[1..], hit[1..])
    ensures PicksOf((if hit[0] then [0] else []) + Moved(rest), (if hit[0] then [all[0]] else []) + names, all, hit)
  {
    var moved := Moved(rest);
    var picks := (if hit[0] then [0] else []) + moved;
    forall k | 0 <= k < |hit| ensures k in picks <==> hit[k] {
      MovedMember(rest, k);
      assert k > 0 ==> hit[1..][k - 1] == hit[k];
    }
    forall a | 0 <= a < |rest| ensures all[1..][rest[a]] == all[moved[a]] {}
  }

  function Names(rules: seq<Rule>): seq<string> {
    seq(|rules|, k requires 0 <= k < |rules| => rules[k].name)
  }

  ghost function Hits(rules: seq<Rule>, t: string): seq<bool> {
    seq(|rules|, k requires 0 <= k < |rules| => MatchesSomewhere(rules[k].pattern, t))
  }

  lemma {:induction false} HitNamesExact(rules: seq<Rule>, t: string) returns (picks: seq<int>)
    ensures PicksOf(picks, HitNames(rules, t), Names(rules), Hits(rules, t))
  {
    if rules == [] {
      picks := [];
    } else {
      var rest := HitNamesExact(rules[1..], t);
      FoundExact(rules[0].pattern, t);
      assert Names(rules)[1..] == Names(rules[1..]);
      assert Hits(rules, t)[1..] == Hits(rules[1..], t);
      AddRule(rest, HitNames(rules[1..], t), Names(rules), Hits(rules, t));
      picks := (if Hits(rules, t)[0] then [0] else []) + Moved(rest);
    }
  }

  lemma RuleNamesDistinct()
    ensures forall a, b :: 0 <= a < b < |Rules()| ==> Rules()[a].name != Rules()[b].name
  {
    hide AwsSecretKey, AwsSessionToken, AzureAccountKey, AzureSas, AzureClientSecret,
      GcpApiKey, GcpServiceAccountKey, GithubToken, GithubFineGrained, GitlabToken,
      SlackToken, SlackWebhook, StripeKey, TwilioKey, PrivateKey,
      Jwt, DatabaseUrl, BasicAuthUrl, GenericAssignment;
  }

  /** No rule matches the empty text, so the scan's shortcut for it is only a shortcut. */
  lemma NoRuleMatchesEmpty()
    ensures forall k :: 0 <= k < |Rules()| ==> !MatchesSomewhere(Rules()[k].pattern, [])
  {
    hide Rules;
    hide Matches;
    hide MinLength;
    forall k | 0 <= k < |Rules()| ensures MinLength(Rules()[k].pattern) > 0 { RulesNeedText(k); }
    forall k, i: nat, j: nat | 0 <= k < |Rules()| && Matches(Rules()[k].pattern, [], i, j) ensures false {
      MinLengthHolds(Rules()[k].pattern, [], i, j);
      MatchesInRange(Rules()[k].pattern, [], i, j);
    }
  }

  lemma TableParts()
    ensures |Rules()| == 19 && |CloudRules()| == 7 && |ServiceRules()| == 7 && |OtherRules()| == 5
    ensures forall k :: 0 <= k < 7 ==> Rules()[k] == CloudRules()[k]
    ensures forall k :: 0 <= k < 7 ==> Rules()[k + 7] == ServiceRules()[k]
    ensures forall k :: 0 <= k < 5 ==> Rules()[k + 14] == OtherRules()[k]
  {}

  lemma TablesNeedText()
    ensures forall k :: 0 <= k < 7 ==> MinLength(CloudRules()[k].pattern) > 0
    ensures forall k :: 0 <= k < 7 ==> MinLength(ServiceRules()[k].pattern) > 0
  {}

  lemma OthersNeedText()
    ensures forall k :: 0 <= k < 5 ==> MinLength(OtherRules()[k].pattern) > 0
  {}

  lemma RulesNeedText(k: nat)
    requires k < |Rules()|
    ensures MinLength(Rules()[k].pattern) > 0
  {
    hide Rules, CloudRules, ServiceRules, OtherRules, MinLength;
    TableParts();
    TablesNeedText();
    OthersNeedText();
    if k < 7 {
    } else if k < 14 {
      assert Rules()[k - 7 + 7] == ServiceRules()[k - 7];
    } else {
      assert Rules()[k - 14 + 14] == OtherRules()[k - 14];
    }
  }

  /** The scan reports exactly the rules whose pattern has a match in the stripped text, in
      table order, none twice; an empty text has none. */
  lemma ScanExact(text: string) returns (picks: seq<int>)
    ensures PicksOf(picks, ScanText(text), Names(Rules()), Hits(Rules(), StripUrls(text)))
    ensures forall a, b :: 0 <= a < b < |ScanText(text)| ==> ScanText(text)[a] != ScanText(text)[b]
  {
    RuleNamesDistinct();
    if text == [] {
      picks := [];
      NoRuleMatchesEmpty();
    } else {
      picks := HitNamesExact(Rules(), StripUrls(text));
    }
  }
}
