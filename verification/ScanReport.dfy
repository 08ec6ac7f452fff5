/** What the scan reports of a text, name by name and without the patterns. */
module ScanReport {
  import opened Text
  import opened Patterns
  import opened Stripping
  import opened Secrets
  import opened SecretShapes
  import opened RuleMeanings

  // ----- the strip -----

  lemma UrlHeadMeaning(t: string, i: nat, j: nat)
    ensures Matches(UrlHead(), t, i, j)
      <==> (j == i + 36 && NameAt(t, "http" + WAIT_CONDITION, i)) || (j == i + 37 && NameAt(t, "https" + WAIT_CONDITION, i))
  {
    hide Matches;
    var scheme := LitI("http").Then(Opt(LitI("s")));
    NameEnd(scheme, WAIT_CONDITION, t, i, j);
    if j >= 32 { LongerName("http", "s", t, i, j - 32); }
    assert "http" + "s" == "https" && |WAIT_CONDITION| == 32;
    NameSplits(t, "http", WAIT_CONDITION, i);
    NameSplits(t, "https", WAIT_CONDITION, i);
  }

  lemma UrlMeaning(t: string, i: nat, j: nat)
    requires Matches(WaitConditionUrl(), t, i, j)
    ensures WaitUrlAt(t, i)
  {
    hide Matches;
    hide UrlHead;
    Classes();
    var k := RunBack(UrlHead(), NONSPACE, NoSpace, 1, None, t, i, j);
    UrlHeadMeaning(t, i, k);
  }

  lemma UrlFound(t: string, i: nat)
    requires WaitUrlAt(t, i)
    ensures exists j: nat :: Matches(WaitConditionUrl(), t, i, j)
  {
    hide Matches;
    hide UrlHead;
    Classes();
    var k := if NameAt(t, "http" + WAIT_CONDITION, i) && i + 36 < |t| && !IsSpace(t[i + 36]) then i + 36 else i + 37;
    UrlHeadMeaning(t, i, k);
    assert Matches(UrlHead(), t, i, k);
    assert RunOf(t, k, k + 1, NoSpace, 1, None);
    RunOn(UrlHead(), NONSPACE, NoSpace, 1, None, t, i, k, k + 1);
    assert Matches(WaitConditionUrl(), t, i, k + 1);
  }

  lemma {:induction false} NextSpaceIs(t: string, i: nat, e: nat)
    requires i <= e <= |t| && (forall k :: i <= k < e ==> !IsSpace(t[k])) && (e == |t| || IsSpace(t[e]))
    ensures NextSpace(t, i) == e
    decreases e - i
  {
    if i < e { NextSpaceIs(t, i + 1, e); }
  }

  /** The match that is cut, in positions of the text. */
  lemma CutMeaning(t: string, i: nat)
    requires i <= |t|
    ensures MatchAt(WaitConditionUrl(), t, i) == if WaitUrlAt(t, i) then Some(NextSpace(t, i)) else None
    ensures WaitUrlAt(t, i) ==> NextSpace(t, i) > i
  {
    hide Matches;
    hide WaitUrlAt;
    hide MatchAt;
    hide WaitConditionUrl;
    UrlShape();
    MatchAtExact(WaitConditionUrl(), t, i);
    if WaitUrlAt(t, i) { UrlFound(t, i); }
    if MatchAt(WaitConditionUrl(), t, i).Some? {
      var e := MatchAt(WaitConditionUrl(), t, i).value;
      UrlMeaning(t, i, e);
      CutIsGreedy(WaitConditionUrl(), Space, t, i);
      MatchFacts(WaitConditionUrl(), Space, t, i, e);
      NextSpaceIs(t, i, e);
    }
  }

  lemma {:induction false} RemoveMeaning(t: string, i: nat)
    requires i <= |t|
    ensures Remove(WaitConditionUrl(), t, i) == WithoutUrls(t, i)
    decreases |t| - i
  {
    hide WaitUrlAt;
    hide MatchAt;
    hide NextSpace;
    hide WaitConditionUrl;
    if i < |t| {
      CutMeaning(t, i);
      if WaitUrlAt(t, i) { RemoveMeaning(t, NextSpace(t, i)); } else { RemoveMeaning(t, i + 1); }
    }
  }

  /** The strip drops each wait-condition URL up to the next space and keeps the rest. */
  lemma StripMeaning(t: string)
    ensures StripUrls(t) == WithoutUrls(t, 0)
  {
    RemoveMeaning(t, 0);
  }

  // ----- the scan -----

  lemma NameReported(text: string, k: nat)
    requires k < |Rules()|
    ensures Rules()[k].name in ScanText(text) <==> MatchesSomewhere(Rules()[k].pattern, WithoutUrls(text, 0))
  {
    hide Rules, ScanText, WithoutUrls;
    StripMeaning(text);
    RuleNamesDistinct();
    var picks := ScanExact(text);
    var names, hits := ScanText(text), Hits(Rules(), StripUrls(text));
    assert hits[k] == MatchesSomewhere(Rules()[k].pattern, StripUrls(text));
    if Rules()[k].name in names {
      var a :| 0 <= a < |names| && names[a] == Rules()[k].name;
      assert names[a] == Rules()[picks[a]].name;
      assert picks[a] == k;
    }
    if hits[k] {
      var a :| 0 <= a < |picks| && picks[a] == k;
      assert names[a] == Rules()[k].name;
    }
  }

  lemma CloudTable()
    ensures |CloudRules()| == 7
    ensures CloudRules()[0].name == "AWS Secret Access Key" && CloudRules()[0].pattern == AwsSecretKey()
    ensures CloudRules()[1].name == "AWS Session Token" && CloudRules()[1].pattern == AwsSessionToken()
    ensures CloudRules()[2].name == "Azure Storage Account Key" && CloudRules()[2].pattern == AzureAccountKey()
    ensures CloudRules()[3].name == "Azure SAS Token" && CloudRules()[3].pattern == AzureSas()
    ensures CloudRules()[4].name == "Azure Client Secret" && CloudRules()[4].pattern == AzureClientSecret()
    ensures CloudRules()[5].name == "GCP API Key" && CloudRules()[5].pattern == GcpApiKey()
    ensures CloudRules()[6].name == "GCP Service Account Key" && CloudRules()[6].pattern == GcpServiceAccountKey()
  {
    hide AwsSecretKey, AwsSessionToken, AzureAccountKey, AzureSas, AzureClientSecret,
      GcpApiKey, GcpServiceAccountKey;
  }

  lemma CloudReported(text: string)
    ensures "AWS Secret Access Key" in ScanText(text) <==> HasAwsSecretKey(WithoutUrls(text, 0))
    ensures "AWS Session Token" in ScanText(text) <==> HasAwsSessionToken(WithoutUrls(text, 0))
    ensures "Azure Storage Account Key" in ScanText(text) <==> HasAzureAccountKey(WithoutUrls(text, 0))
    ensures "Azure SAS Token" in ScanText(text) <==> HasAzureSas(WithoutUrls(text, 0))
    ensures "Azure Client Secret" in ScanText(text) <==> HasAzureClientSecret(WithoutUrls(text, 0))
    ensures "GCP API Key" in ScanText(text) <==> HasGcpApiKey(WithoutUrls(text, 0))
    ensures "GCP Service Account Key" in ScanText(text) <==> HasGcpServiceAccountKey(WithoutUrls(text, 0))
  {
    hide Rules, CloudRules, ScanText, WithoutUrls, MatchesSomewhere;
    hide AwsSecretKey, AwsSessionToken, AzureAccountKey, AzureSas, AzureClientSecret,
      GcpApiKey, GcpServiceAccountKey;
    hide HasAwsSecretKey, HasAwsSessionToken, HasAzureAccountKey, HasAzureSas, HasAzureClientSecret,
      HasGcpApiKey, HasGcpServiceAccountKey;
    TableParts();
    CloudTable();
    var t := WithoutUrls(text, 0);
    AssignmentRules(t);
    AccountKeyMeaning(t);
    SasMeaning(t);
    TokenRules(t);
    KeyIdMeaning(t);
    forall k: nat | k < 7 ensures CloudRules()[k].name in ScanText(text) <==> MatchesSomewhere(CloudRules()[k].pattern, t) {
      NameReported(text, k);
    }
  }

  lemma ServiceTable()
    ensures |ServiceRules()| == 7
    ensures ServiceRules()[0].name == "GitHub Token" && ServiceRules()[0].pattern == GithubToken()
    ensures ServiceRules()[1].name == "GitHub Fine-Grained PAT" && ServiceRules()[1].pattern == GithubFineGrained()
    ensures ServiceRules()[2].name == "GitLab Personal Access Token" && ServiceRules()[2].pattern == GitlabToken()
    ensures ServiceRules()[3].name == "Slack Token" && ServiceRules()[3].pattern == SlackToken()
    ensures ServiceRules()[4].name == "Slack Webhook URL" && ServiceRules()[4].pattern == SlackWebhook()
    ensures ServiceRules()[5].name == "Stripe Live API Key" && ServiceRules()[5].pattern == StripeKey()
    ensures ServiceRules()[6].name == "Twilio API Key" && ServiceRules()[6].pattern == TwilioKey()
  {
    hide GithubToken, GithubFineGrained, GitlabToken, SlackToken, SlackWebhook,
      StripeKey, TwilioKey;
  }

  lemma ServiceReported(text: string)
    ensures "GitHub Token" in ScanText(text) <==> HasGithubToken(WithoutUrls(text, 0))
    ensures "GitHub Fine-Grained PAT" in ScanText(text) <==> HasGithubFineGrained(WithoutUrls(text, 0))
    ensures "GitLab Personal Access Token" in ScanText(text) <==> HasGitlabToken(WithoutUrls(text, 0))
    ensures "Slack Token" in ScanText(text) <==> HasSlackToken(WithoutUrls(text, 0))
    ensures "Slack Webhook URL" in ScanText(text) <==> HasSlackWebhook(WithoutUrls(text, 0))
    ensures "Stripe Live API Key" in ScanText(text) <==> HasStripeKey(WithoutUrls(text, 0))
    ensures "Twilio API Key" in ScanText(text) <==> HasTwilioKey(WithoutUrls(text, 0))
  {
    hide Rules, ServiceRules, ScanText, WithoutUrls, MatchesSomewhere;
    hide GithubToken, GithubFineGrained, GitlabToken, SlackToken, SlackWebhook,
      StripeKey, TwilioKey;
    hide HasGithubToken, HasGithubFineGrained, HasGitlabToken, HasSlackToken, HasSlackWebhook,
      HasStripeKey, HasTwilioKey;
    TableParts();
    ServiceTable();
    var t := WithoutUrls(text, 0);
    TokenRules(t);
    WebhookMeaning(t);
    forall k: nat | k < 7 ensures ServiceRules()[k].name in ScanText(text) <==> MatchesSomewhere(ServiceRules()[k].pattern, t) {
      NameReported(text, k + 7);
    }
  }

  lemma OtherTable()
    ensures |OtherRules()| == 5
    ensures OtherRules()[0].name == "Private Key" && OtherRules()[0].pattern == PrivateKey()
    ensures OtherRules()[1].name == "JSON Web Token" && OtherRules()[1].pattern == Jwt()
    ensures OtherRules()[2].name == "Database Connection String" && OtherRules()[2].pattern == DatabaseUrl()
    ensures OtherRules()[3].name == "Basic Auth Credentials in URL" && OtherRules()[3].pattern == BasicAuthUrl()
    ensures OtherRules()[4].name == "Generic API Key/Secret Assignment" && OtherRules()[4].pattern == GenericAssignment()
  {
    hide PrivateKey, Jwt, DatabaseUrl, BasicAuthUrl, GenericAssignment;
  }

  lemma OtherReported(text: string)
    ensures "Private Key" in ScanText(text) <==> HasPrivateKey(WithoutUrls(text, 0))
    ensures "JSON Web Token" in ScanText(text) <==> HasJwt(WithoutUrls(text, 0))
    ensures "Database Connection String" in ScanText(text) <==> HasDatabaseUrl(WithoutUrls(text, 0))
    ensures "Basic Auth Credentials in URL" in ScanText(text) <==> HasBasicAuthUrl(WithoutUrls(text, 0))
    ensures "Generic API Key/Secret Assignment" in ScanText(text) <==> HasGenericAssignment(WithoutUrls(text, 0))
  {
    hide Rules, OtherRules, ScanText, WithoutUrls, MatchesSomewhere;
    hide PrivateKey, Jwt, DatabaseUrl, BasicAuthUrl, GenericAssignment;
    hide HasPrivateKey, HasJwt, HasDatabaseUrl, HasBasicAuthUrl, HasGenericAssignment;
    TableParts();
    OtherTable();
    var t := WithoutUrls(text, 0);
    PrivateKeyMeaning(t);
    JwtMeaning(t);
    DatabaseUrlMeaning(t);
    BasicAuthMeaning(t);
    GenericMeaning(t);
    forall k: nat | k < 5 ensures OtherRules()[k].name in ScanText(text) <==> MatchesSomewhere(OtherRules()[k].pattern, t) {
      NameReported(text, k + 14);
    }
  }

  /** What is reported of a text, name by name: the name is there exactly when the text without
      its wait-condition URLs has that shape. */
  lemma ReportedExact(text: string)
    ensures "AWS Secret Access Key" in ScanText(text) <==> HasAwsSecretKey(WithoutUrls(text, 0))
    ensures "AWS Session Token" in ScanText(text) <==> HasAwsSessionToken(WithoutUrls(text, 0))
    ensures "Azure Storage Account Key" in ScanText(text) <==> HasAzureAccountKey(WithoutUrls(text, 0))
    ensures "Azure SAS Token" in ScanText(text) <==> HasAzureSas(WithoutUrls(text, 0))
    ensures "Azure Client Secret" in ScanText(text) <==> HasAzureClientSecret(WithoutUrls(text, 0))
    ensures "GCP API Key" in ScanText(text) <==> HasGcpApiKey(WithoutUrls(text, 0))
    ensures "GCP Service Account Key" in ScanText(text) <==> HasGcpServiceAccountKey(WithoutUrls(text, 0))
    ensures "GitHub Token" in ScanText(text) <==> HasGithubToken(WithoutUrls(text, 0))
    ensures "GitHub Fine-Grained PAT" in ScanText(text) <==> HasGithubFineGrained(WithoutUrls(text, 0))
    ensures "GitLab Personal Access Token" in ScanText(text) <==> HasGitlabToken(WithoutUrls(text, 0))
    ensures "Slack Token" in ScanText(text) <==> HasSlackToken(WithoutUrls(text, 0))
    ensures "Slack Webhook URL" in ScanText(text) <==> HasSlackWebhook(WithoutUrls(text, 0))
    ensures "Stripe Live API Key" in ScanText(text) <==> HasStripeKey(WithoutUrls(text, 0))
    ensures "Twilio API Key" in ScanText(text) <==> HasTwilioKey(WithoutUrls(text, 0))
    ensures "Private Key" in ScanText(text) <==> HasPrivateKey(WithoutUrls(text, 0))
    ensures "JSON Web Token" in ScanText(text) <==> HasJwt(WithoutUrls(text, 0))
    ensures "Database Connection String" in ScanText(text) <==> HasDatabaseUrl(WithoutUrls(text, 0))
    ensures "Basic Auth Credentials in URL" in ScanText(text) <==> HasBasicAuthUrl(WithoutUrls(text, 0))
    ensures "Generic API Key/Secret Assignment" in ScanText(text) <==> HasGenericAssignment(WithoutUrls(text, 0))
  {
    CloudReported(text);
    ServiceReported(text);
    OtherReported(text);
  }

  /** The names of the table, in order. */
  const RULE_NAMES := [
      "AWS Secret Access Key", "AWS Session Token", "Azure Storage Account Key",
      "Azure SAS Token", "Azure Client Secret", "GCP API Key",
      "GCP Service Account Key", "GitHub Token", "GitHub Fine-Grained PAT",
      "GitLab Personal Access Token", "Slack Token", "Slack Webhook URL",
      "Stripe Live API Key", "Twilio API Key", "Private Key",
      "JSON Web Token", "Database Connection String", "Basic Auth Credentials in URL",
      "Generic API Key/Secret Assignment" ]

  /** Nothing but these names is reported, each at most once and in this order. */
  lemma ReportInOrder(text: string) returns (picks: seq<int>)
    ensures |picks| == |ScanText(text)|
    ensures forall a :: 0 <= a < |picks| ==> 0 <= picks[a] < |RULE_NAMES| && ScanText(text)[a] == RULE_NAMES[picks[a]]
    ensures forall a, b :: 0 <= a < b < |picks| ==> picks[a] < picks[b]
  {
    hide ScanText;
    picks := ScanExact(text);
    assert Names(Rules()) == RULE_NAMES;
  }
}
