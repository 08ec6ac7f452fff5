/** What each rule of the scanner looks for, said in positions of the text. */
module SecretShapes {
  import opened Text

  // ----- characters -----

  predicate IsAlnum(c: char) { IsAlpha(c) || IsDigit(c) }

  predicate IsLowerHex(c: char) { IsDigit(c) || 'a' <= c <= 'f' }

  predicate IsHex(c: char) { IsLowerHex(c) || 'A' <= c <= 'F' }

  predicate IsQuote(c: char) { c == '"' || c == '\'' }

  predicate NoSpace(c: char) { !IsSpace(c) }

  predicate NoSpaceOrQuote(c: char) { !IsSpace(c) && !IsQuote(c) }

  predicate IsDashed(c: char) { IsAlnum(c) || c == '-' }

  predicate IsKeyChar(c: char) { IsAlnum(c) || c == '-' || c == '_' }

  predicate IsBase64(c: char) { IsAlnum(c) || c == '+' || c == '/' }

  predicate IsUrlEncoded(c: char) { IsAlnum(c) || c == '%' }

  predicate IsSecretChar(c: char) { IsKeyChar(c) || c == '/' || c == '+' || c == '=' }

  predicate IsUser(c: char) { !IsSpace(c) && c != ':' && c != '/' }

  predicate IsPlainUser(c: char) { IsUser(c) && c != '@' }

  predicate IsPassword(c: char) { !IsSpace(c) && c != '@' && c != '/' }

  // ----- stretches -----

  /** Every character of `t[i..j]` is allowed. */
  ghost predicate Run(t: string, i: int, j: int, ok: char -> bool) {
    0 <= i <= j <= |t| && forall k :: i <= k < j ==> ok(t[k])
  }

  ghost predicate CharAt(t: string, i: int, ok: char -> bool) { 0 <= i < |t| && ok(t[i]) }

  predicate WordAt(t: string, i: int) { 0 <= i < |t| && IsWord(t[i]) }

  /** A word starts or ends between `i - 1` and `i`. */
  predicate Edge(t: string, i: int) { WordAt(t, i - 1) != WordAt(t, i) }

  /** `name` stands at `i` in any casing. */
  predicate NameAt(t: string, name: string, i: int) { OccursAt(Lower(t), name, i) }

  predicate IsSign(c: char) { c == '=' || c == ':' }

  // ----- name = value -----

  /** From `j` on: optional space, the sign at `a`, optional space up to `b`. */
  ghost predicate SignAt(t: string, j: int, a: int, b: int) {
    Run(t, j, a, IsSpace) && CharAt(t, a, IsSign) && Run(t, a + 1, b, IsSpace)
  }

  ghost predicate ValueFollows(t: string, j: int) {
    exists a, b :: SignAt(t, j, a, b) && CharAt(t, b, NoSpace)
  }

  ghost predicate AssignedAt(t: string, name: string, i: int) { NameAt(t, name, i) && ValueFollows(t, i + |name|) }

  /** One of two names, in any casing, with a value after it. */
  ghost predicate Assigns(t: string, first: string, second: string) {
    exists i :: AssignedAt(t, first, i) || AssignedAt(t, second, i)
  }

  ghost predicate HasAwsSecretKey(t: string) { Assigns(t, "aws_secret_access_key", "aws_secret_key") }

  ghost predicate HasAwsSessionToken(t: string) { Assigns(t, "aws_session_token", "x-amz-security-token") }

  ghost predicate HasAzureClientSecret(t: string) { Assigns(t, "azure_client_secret", "client_secret") }

  const SECRET_WORDS := ["apikey", "api_key", "api-key", "secret", "token", "passwd", "password"]

  /** The value between the quotes at `b` and `c`; the two need not be the same sort. */
  ghost predicate QuotedAt(t: string, b: int, c: int) {
    CharAt(t, b, IsQuote) && b + 17 <= c && Run(t, b + 1, c, IsSecretChar) && CharAt(t, c, IsQuote)
  }

  ghost predicate QuotedFollows(t: string, j: int) {
    exists a, b, c :: SignAt(t, j, a, b) && QuotedAt(t, b, c)
  }

  ghost predicate HasGenericAssignment(t: string) {
    exists i, name :: name in SECRET_WORDS && NameAt(t, name, i) && QuotedFollows(t, i + |name|)
  }

  // ----- tokens -----

  /** `t[i..j]` is `head` and an allowed number of allowed characters, between word edges. */
  ghost predicate TokenAt(t: string, i: int, j: int, head: string, ok: char -> bool, min: nat, max: Option<nat>) {
    && OccursAt(t, head, i) && Edge(t, i) && Edge(t, j)
    && Run(t, i + |head|, j, ok)
    && i + |head| + min <= j && (max.Some? ==> j <= i + |head| + max.value)
  }

  ghost predicate HasToken(t: string, head: string, ok: char -> bool, min: nat, max: Option<nat>) {
    exists i, j :: TokenAt(t, i, j, head, ok, min, max)
  }

  ghost predicate HasGcpApiKey(t: string) { HasToken(t, "AIza", IsKeyChar, 35, Some(35)) }

  /** The letter after `gh` says which sort of GitHub token it is. */
  ghost predicate HasGithubToken(t: string) {
    exists c :: c in "pousr" && HasToken(t, "gh" + [c] + "_", IsAlnum, 36, Some(255))
  }

  ghost predicate HasGithubFineGrained(t: string) { HasToken(t, "github_pat_", IsWord, 22, Some(255)) }

  ghost predicate HasGitlabToken(t: string) { HasToken(t, "glpat-", IsKeyChar, 20, Some(20)) }

  ghost predicate HasSlackToken(t: string) {
    exists c :: c in "baprs" && HasToken(t, "xox" + [c] + "-", IsDashed, 10, Some(48))
  }

  ghost predicate HasStripeKey(t: string) { HasToken(t, "sk_live_", IsAlnum, 24, None) }

  ghost predicate HasTwilioKey(t: string) { HasToken(t, "SK", IsHex, 32, Some(32)) }

  // ----- longer shapes -----

  ghost predicate AccountKeyAt(t: string, i: int) {
    OccursAt(t, "AccountKey=", i) && Run(t, i + 11, i + 97, IsBase64) && OccursAt(t, "==", i + 97)
  }

  ghost predicate HasAzureAccountKey(t: string) { exists i :: AccountKeyAt(t, i) }

  /** `sv=` and a date, then the signature, at `a`, in the same run without space or quote. */
  ghost predicate SasAt(t: string, i: int, a: int) {
    && OccursAt(t, "sv=", i) && Edge(t, i)
    && Run(t, i + 3, i + 7, IsDigit) && OccursAt(t, "-", i + 7)
    && Run(t, i + 8, i + 10, IsDigit) && OccursAt(t, "-", i + 10)
    && Run(t, i + 11, i + 13, IsDigit) && OccursAt(t, "&", i + 13)
    && Run(t, i + 14, a, NoSpaceOrQuote) && OccursAt(t, "&sig=", a)
    && Run(t, a + 5, a + 25, IsUrlEncoded)
  }

  ghost predicate HasAzureSas(t: string) { exists i, a :: SasAt(t, i, a) }

  ghost predicate KeyIdAt(t: string, i: int, a: int, b: int) {
    && OccursAt(t, "\"private_key_id\"", i) && Run(t, i + 16, a, IsSpace) && OccursAt(t, ":", a)
    && Run(t, a + 1, b, IsSpace) && OccursAt(t, "\"", b)
    && Run(t, b + 1, b + 41, IsLowerHex) && OccursAt(t, "\"", b + 41)
  }

  ghost predicate HasGcpServiceAccountKey(t: string) { exists i, a, b :: KeyIdAt(t, i, a, b) }

  ghost predicate WebhookAt(t: string, i: int, a: int, b: int) {
    && OccursAt(t, "hooks.slack.com/services/T", i)
    && i + 34 <= a && Run(t, i + 26, a, IsWord) && OccursAt(t, "/B", a)
    && a + 10 <= b && Run(t, a + 2, b, IsWord) && OccursAt(t, "/", b)
    && Run(t, b + 1, b + 25, IsWord)
  }

  ghost predicate HasSlackWebhook(t: string) { exists i, a, b :: WebhookAt(t, i, a, b) }

  /** At most one space. */
  ghost predicate MaybeSpace(t: string, i: int, j: int) { i <= j <= i + 1 && Run(t, i, j, IsSpace) }

  const KEY_KINDS := ["", "RSA", "EC", "OPENSSH", "PGP", "DSA"]

  ghost predicate PemAt(t: string, i: int, kind: string, a: int, b: int) {
    && kind in KEY_KINDS && OccursAt(t, "-----BEGIN", i) && MaybeSpace(t, i + 10, a)
    && OccursAt(t, kind, a) && MaybeSpace(t, a + |kind|, b) && OccursAt(t, "PRIVATE KEY-----", b)
  }

  ghost predicate HasPrivateKey(t: string) { exists i, kind, a, b :: PemAt(t, i, kind, a, b) }

  /** Three runs of at least five characters, joined by dots, the first two starting `eyJ`. */
  ghost predicate JwtAt(t: string, i: int, a: int, b: int, j: int) {
    && OccursAt(t, "eyJ", i) && Edge(t, i)
    && i + 8 <= a && Run(t, i + 3, a, IsKeyChar) && OccursAt(t, ".eyJ", a)
    && a + 9 <= b && Run(t, a + 4, b, IsKeyChar) && OccursAt(t, ".", b)
    && b + 6 <= j && Run(t, b + 1, j, IsKeyChar) && Edge(t, j)
  }

  ghost predicate HasJwt(t: string) { exists i, a, b, j :: JwtAt(t, i, a, b, j) }

  /** A user and a password, each not empty, with a colon between them and an `@` after. */
  ghost predicate CredentialsAt(t: string, i: int, a: int, b: int, user: char -> bool) {
    && i < a && Run(t, i, a, user) && OccursAt(t, ":", a)
    && a + 1 < b && Run(t, a + 1, b, IsPassword) && OccursAt(t, "@", b)
  }

  const DATABASES := ["postgres", "postgresql", "mysql", "mongodb", "mongodb+srv", "redis", "amqp"]

  ghost predicate DatabaseUrlAt(t: string, i: int, scheme: string, a: int, b: int) {
    && scheme in DATABASES && NameAt(t, scheme, i) && Edge(t, i)
    && OccursAt(t, "://", i + |scheme|) && CredentialsAt(t, i + |scheme| + 3, a, b, IsUser)
  }

  ghost predicate HasDatabaseUrl(t: string) { exists i, scheme, a, b :: DatabaseUrlAt(t, i, scheme, a, b) }

  const WEB_SCHEMES := ["http", "https"]

  ghost predicate WebUrlAt(t: string, i: int, scheme: string, a: int, b: int) {
    && scheme in WEB_SCHEMES && OccursAt(t, scheme, i) && OccursAt(t, "://", i + |scheme|)
    && CredentialsAt(t, i + |scheme| + 3, a, b, IsPlainUser) && CharAt(t, b + 1, NoSpaceOrQuote)
  }

  ghost predicate HasBasicAuthUrl(t: string) { exists i, scheme, a, b :: WebUrlAt(t, i, scheme, a, b) }

  // ----- wait-condition URLs -----

  const WAIT_CONDITION := "://cloudformation-waitcondition-"

  /** A wait-condition URL starts here: its scheme and host in any casing, and something after. */
  predicate WaitUrlAt(t: string, i: nat) {
    || (NameAt(t, "http" + WAIT_CONDITION, i) && i + 36 < |t| && !IsSpace(t[i + 36]))
    || (NameAt(t, "https" + WAIT_CONDITION, i) && i + 37 < |t| && !IsSpace(t[i + 37]))
  }

  /** The next space from `i` on, or the end. */
  function NextSpace(t: string, i: nat): (e: nat)
    requires i <= |t|
    ensures i <= e <= |t|
    decreases |t| - i
  {
    if i < |t| && !IsSpace(t[i]) then NextSpace(t, i + 1) else i
  }

  /** `t` from `i` on without its wait-condition URLs, each up to the next space. */
  function WithoutUrls(t: string, i: nat): string
    requires i <= |t|
    decreases |t| - i
  {
    if i == |t| then []
    else if WaitUrlAt(t, i) && NextSpace(t, i) > i then WithoutUrls(t, NextSpace(t, i))
    else [t[i]] + WithoutUrls(t, i + 1)
  }
}
