/** Each pattern of the table matches somewhere in a text exactly when the text has the shape that
    `SecretShapes` spells out for it. First come lemmas that take a pattern apart from its end: a
    literal, a character class, a run, a word edge; then one lemma for each rule. */
module RuleMeanings {
  import opened Text
  import opened Patterns
  import opened Secrets
  import opened SecretShapes

  // ----- the last part of a pattern -----

  lemma LitEnd(r: Regex, s: string, t: string, i: nat, j: nat)
    ensures Matches(r.Then(Lit(s)), t, i, j)
      <==> j >= |s| && OccursAt(t, s, j - |s|) && Matches(r, t, i, j - |s|)
  {
    if Matches(r.Then(Lit(s)), t, i, j) {
      var k := CatParts(r.Then(Lit(s)), t, i, j);
      LitMeaning(s, t, k, j);
    }
    if j >= |s| && OccursAt(t, s, j - |s|) && Matches(r, t, i, j - |s|) {
      LitMeaning(s, t, j - |s|, j);
      CatOf(r.Then(Lit(s)), t, i, j - |s|, j);
    }
  }

  lemma NameEnd(r: Regex, s: string, t: string, i: nat, j: nat)
    ensures Matches(r.Then(LitI(s)), t, i, j)
      <==> j >= |s| && NameAt(t, s, j - |s|) && Matches(r, t, i, j - |s|)
  {
    if Matches(r.Then(LitI(s)), t, i, j) {
      var k := CatParts(r.Then(LitI(s)), t, i, j);
      NameMeaning(s, t, k, j);
    }
    if j >= |s| && NameAt(t, s, j - |s|) && Matches(r, t, i, j - |s|) {
      NameMeaning(s, t, j - |s|, j);
      CatOf(r.Then(LitI(s)), t, i, j - |s|, j);
    }
  }

  lemma LitMeaning(s: string, t: string, i: nat, j: nat)
    ensures Matches(Lit(s), t, i, j) <==> j == i + |s| && OccursAt(t, s, i)
  {}

  lemma NameMeaning(s: string, t: string, i: nat, j: nat)
    ensures Matches(LitI(s), t, i, j) <==> j == i + |s| && NameAt(t, s, i)
  {
    if i <= j <= |t| { assert Lower(t[i..j]) == Lower(t)[i..j]; }
  }

  lemma OrMeaning(a: Regex, b: Regex, t: string, i: nat, j: nat)
    ensures Matches(a.Or(b), t, i, j) <==> Matches(a, t, i, j) || Matches(b, t, i, j)
  {}

  lemma CharMeaning(chars: CharSet, t: string, i: nat, j: nat)
    ensures Matches(OneOf(chars), t, i, j) <==> j == i + 1 <= |t| && chars.Has(t[i])
  {}

  ghost predicate SameClass(chars: CharSet, ok: char -> bool) { forall c: char :: chars.Has(c) <==> ok(c) }

  lemma CharEnd(r: Regex, chars: CharSet, ok: char -> bool, t: string, i: nat, j: nat)
    requires SameClass(chars, ok)
    ensures Matches(r.Then(OneOf(chars)), t, i, j) <==> j >= 1 && CharAt(t, j - 1, ok) && Matches(r, t, i, j - 1)
  {
    if Matches(r.Then(OneOf(chars)), t, i, j) {
      var k := CatParts(r.Then(OneOf(chars)), t, i, j);
      CharMeaning(chars, t, k, j);
    }
    if j >= 1 && CharAt(t, j - 1, ok) && Matches(r, t, i, j - 1) {
      CharMeaning(chars, t, j - 1, j);
      CatOf(r.Then(OneOf(chars)), t, i, j - 1, j);
    }
  }

  lemma EdgeMeaning(t: string, i: nat, j: nat)
    ensures Matches(WordBoundary, t, i, j) <==> i == j <= |t| && Edge(t, i)
  {}

  lemma EdgeEnd(r: Regex, t: string, i: nat, j: nat)
    ensures Matches(r.Then(WordBoundary), t, i, j) <==> Edge(t, j) && Matches(r, t, i, j)
  {
    EdgeMeaning(t, j, j);
    if Matches(r.Then(WordBoundary), t, i, j) {
      var k := CatParts(r.Then(WordBoundary), t, i, j);
      EdgeMeaning(t, k, j);
    }
    if Edge(t, j) && Matches(r, t, i, j) {
      MatchesInRange(r, t, i, j);
      CatOf(r.Then(WordBoundary), t, i, j, j);
    }
  }

  /** A run of an allowed length from `k` to `j`. */
  ghost predicate RunOf(t: string, k: nat, j: nat, ok: char -> bool, min: nat, max: Option<nat>) {
    k + min <= j && Run(t, k, j, ok) && WithinMax(j - k, max)
  }

  lemma RunBack(r: Regex, chars: CharSet, ok: char -> bool, min: nat, max: Option<nat>, t: string, i: nat, j: nat)
    returns (k: nat)
    requires SameClass(chars, ok) && Matches(r.Then(Repeat(OneOf(chars), min, max)), t, i, j)
    ensures Matches(r, t, i, k) && RunOf(t, k, j, ok, min, max)
  {
    k := CatParts(r.Then(Repeat(OneOf(chars), min, max)), t, i, j);
    RunMeaning(chars, min, max, t, k, j);
  }

  lemma RunOn(r: Regex, chars: CharSet, ok: char -> bool, min: nat, max: Option<nat>, t: string, i: nat, k: nat, j: nat)
    requires SameClass(chars, ok) && Matches(r, t, i, k) && RunOf(t, k, j, ok, min, max)
    ensures Matches(r.Then(Repeat(OneOf(chars), min, max)), t, i, j)
  {
    RunMeaning(chars, min, max, t, k, j);
    CatOf(r.Then(Repeat(OneOf(chars), min, max)), t, i, k, j);
  }

  /** A run of exactly `n` characters. */
  lemma TimesEnd(r: Regex, chars: CharSet, ok: char -> bool, n: nat, t: string, i: nat, j: nat)
    requires SameClass(chars, ok)
    ensures Matches(r.Then(Times(chars, n)), t, i, j) <==> j >= n && Run(t, j - n, j, ok) && Matches(r, t, i, j - n)
  {
    if Matches(r.Then(Times(chars, n)), t, i, j) {
      var k := RunBack(r, chars, ok, n, Some(n), t, i, j);
    }
    if j >= n && Run(t, j - n, j, ok) && Matches(r, t, i, j - n) {
      RunOn(r, chars, ok, n, Some(n), t, i, j - n, j);
    }
  }

  /** The classes of the table. */
  lemma Classes()
    ensures SameClass(Space, IsSpace) && SameClass(NONSPACE, NoSpace) && SameClass(DIGIT, IsDigit)
    ensures SameClass(EQ_OR_COLON, IsSign) && SameClass(QUOTE, IsQuote)
    ensures SameClass(HEX_LOWER, IsLowerHex) && SameClass(HEX, IsHex)
    ensures SameClass(Not(Either(Space, QUOTE)), NoSpaceOrQuote)
  {
    forall c: char ensures HEX_LOWER.Has(c) <==> IsLowerHex(c) { assert HEX_LOWER.first.Has(c) <==> IsDigit(c); }
    forall c: char ensures HEX.Has(c) <==> IsHex(c) { assert HEX.first.Has(c) <==> IsLowerHex(c); }
    forall c: char ensures Not(Either(Space, QUOTE)).Has(c) <==> NoSpaceOrQuote(c) {
      assert Either(Space, QUOTE).Has(c) <==> Space.Has(c) || QUOTE.Has(c);
    }
  }

  lemma AlnumClasses()
    ensures SameClass(ALNUM, IsAlnum)
    ensures SameClass(Either(ALNUM, Chars("_")), IsWord) && SameClass(Either(ALNUM, Chars("-")), IsDashed)
    ensures SameClass(Either(ALNUM, Chars("-_")), IsKeyChar) && SameClass(Either(ALNUM, Chars("_-")), IsKeyChar)
    ensures SameClass(Either(ALNUM, Chars("+/")), IsBase64) && SameClass(Either(ALNUM, Chars("%")), IsUrlEncoded)
    ensures SameClass(Either(ALNUM, Chars("-_/+=")), IsSecretChar)
  {
    ClassFacts();
    forall c: char, more: string ensures Either(ALNUM, Chars(more)).Has(c) <==> IsAlnum(c) || c in more {
      assert ALNUM.Has(c) <==> IsAlnum(c);
    }
  }

  lemma CredentialClasses()
    ensures SameClass(Not(Either(Space, Chars(":/"))), IsUser)
    ensures SameClass(Not(Either(Space, Chars(":/@"))), IsPlainUser)
    ensures SameClass(Not(Either(Space, Chars("@/"))), IsPassword)
  {
    forall c: char, more: string ensures Not(Either(Space, Chars(more))).Has(c) <==> !IsSpace(c) && c !in more {
      assert Either(Space, Chars(more)).Has(c) <==> IsSpace(c) || c in more;
    }
    assert forall c: char :: c in ":/" <==> c == ':' || c == '/';
    assert forall c: char :: c in ":/@" <==> c == ':' || c == '/' || c == '@';
    assert forall c: char :: c in "@/" <==> c == '@' || c == '/';
  }

  // ----- name = value -----

  function Signed(r: Regex): Regex { r.Then(Any(Space)).Then(OneOf(EQ_OR_COLON)).Then(Any(Space)) }

  lemma SignBack(r: Regex, t: string, i: nat, b: nat) returns (k: nat, a: nat)
    requires Matches(Signed(r), t, i, b)
    ensures Matches(r, t, i, k) && SignAt(t, k, a, b)
  {
    hide Matches;
    Classes();
    var spaced := r.Then(Any(Space));
    var c := RunBack(spaced.Then(OneOf(EQ_OR_COLON)), Space, IsSpace, 0, None, t, i, b);
    CharEnd(spaced, EQ_OR_COLON, IsSign, t, i, c);
    a := c - 1;
    k := RunBack(r, Space, IsSpace, 0, None, t, i, a);
  }

  lemma SignOn(r: Regex, t: string, i: nat, k: nat, a: nat, b: nat)
    requires Matches(r, t, i, k) && SignAt(t, k, a, b)
    ensures Matches(Signed(r), t, i, b)
  {
    hide Matches;
    Classes();
    var spaced := r.Then(Any(Space));
    RunOn(r, Space, IsSpace, 0, None, t, i, k, a);
    CharEnd(spaced, EQ_OR_COLON, IsSign, t, i, a + 1);
    RunOn(spaced.Then(OneOf(EQ_OR_COLON)), Space, IsSpace, 0, None, t, i, a + 1, b);
  }

  lemma AssignedBack(r: Regex, t: string, i: nat, j: nat) returns (k: nat)
    requires Matches(Assigned(r), t, i, j)
    ensures Matches(r, t, i, k) && ValueFollows(t, k)
  {
    hide Matches;
    Classes();
    var a;
    var b := RunBack(Signed(r), NONSPACE, NoSpace, 1, None, t, i, j);
    k, a := SignBack(r, t, i, b);
    assert SignAt(t, k, a, b) && CharAt(t, b, NoSpace);
  }

  lemma AssignedOn(r: Regex, t: string, i: nat, k: nat)
    requires Matches(r, t, i, k) && ValueFollows(t, k)
    ensures MatchesSomewhere(Assigned(r), t)
  {
    hide Matches;
    Classes();
    var a, b :| SignAt(t, k, a, b) && CharAt(t, b, NoSpace);
    SignOn(r, t, i, k, a, b);
    RunOn(Signed(r), NONSPACE, NoSpace, 1, None, t, i, b, b + 1);
  }

  lemma AssignmentMeaning(first: string, second: string, t: string)
    ensures MatchesSomewhere(Assigned(LitI(first).Or(LitI(second))), t) <==> Assigns(t, first, second)
  {
    hide Matches;
    hide Assigned;
    hide ValueFollows;
    var name := LitI(first).Or(LitI(second));
    forall i: nat, j: nat | Matches(Assigned(name), t, i, j) ensures Assigns(t, first, second) {
      var k := AssignedBack(name, t, i, j);
      OrMeaning(LitI(first), LitI(second), t, i, k);
      NameMeaning(first, t, i, k);
      NameMeaning(second, t, i, k);
      assert AssignedAt(t, first, i) || AssignedAt(t, second, i);
    }
    forall i, s | (s == first || s == second) && AssignedAt(t, s, i) ensures MatchesSomewhere(Assigned(name), t) {
      OrMeaning(LitI(first), LitI(second), t, i, i + |s|);
      NameMeaning(s, t, i, i + |s|);
      AssignedOn(name, t, i, i + |s|);
    }
  }

  /** The three assignment rules without a quoted value: a name, a sign and at least one
      character of value; how long the value is never matters. */
  lemma AssignmentRules(t: string)
    ensures MatchesSomewhere(AwsSecretKey(), t) <==> HasAwsSecretKey(t)
    ensures MatchesSomewhere(AwsSessionToken(), t) <==> HasAwsSessionToken(t)
    ensures MatchesSomewhere(AzureClientSecret(), t) <==> HasAzureClientSecret(t)
  {
    AssignmentMeaning("aws_secret_access_key", "aws_secret_key", t);
    AssignmentMeaning("aws_session_token", "x-amz-security-token", t);
    AssignmentMeaning("azure_client_secret", "client_secret", t);
  }

  /** The longer Azure name ends in the shorter one, so it adds nothing to the rule. */
  lemma AzureClientSecretIsOneName(t: string)
    ensures MatchesSomewhere(AzureClientSecret(), t) <==> exists i :: AssignedAt(t, "client_secret", i)
  {
    hide ValueFollows;
    AssignmentMeaning("azure_client_secret", "client_secret", t);
    NameEnds();
    forall i | AssignedAt(t, "azure_client_secret", i) ensures AssignedAt(t, "client_secret", i + 6) {
      assert Lower(t)[i..i + 19][6..] == Lower(t)[i + 6..i + 19];
    }
  }

  lemma NameEnds()
    ensures |"azure_client_secret"| == 19 && "azure_client_secret"[6..] == "client_secret"
  {}

  // ----- tokens between word edges -----

  /** A token whose head can be read as any of `heads`. */
  lemma TokenMeaning(head: Regex, heads: seq<string>, chars: CharSet, ok: char -> bool, min: nat, max: Option<nat>, t: string)
    requires SameClass(chars, ok)
    requires forall i: nat, k: nat :: Matches(head, t, i, k) <==> exists h :: h in heads && k == i + |h| && OccursAt(t, h, i)
    ensures MatchesSomewhere(Token(head, chars, min, max), t)
      <==> exists h :: h in heads && HasToken(t, h, ok, min, max)
  {
    hide Matches;
    var headed := WordBoundary.Then(head);
    var filled := headed.Then(Repeat(OneOf(chars), min, max));
    forall i: nat, j: nat | Matches(Token(head, chars, min, max), t, i, j)
      ensures exists h :: h in heads && HasToken(t, h, ok, min, max)
    {
      EdgeEnd(filled, t, i, j);
      var k := RunBack(headed, chars, ok, min, max, t, i, j);
      var i' := CatParts(headed, t, i, k);
      EdgeMeaning(t, i, i');
      var h :| h in heads && k == i + |h| && OccursAt(t, h, i);
      assert TokenAt(t, i, j, h, ok, min, max);
    }
    forall h, i, j | h in heads && TokenAt(t, i, j, h, ok, min, max) ensures MatchesSomewhere(Token(head, chars, min, max), t) {
      EdgeMeaning(t, i, i);
      CatOf(headed, t, i, i, i + |h|);
      RunOn(headed, chars, ok, min, max, t, i, i + |h|, j);
      EdgeEnd(filled, t, i, j);
    }
  }

  lemma PlainToken(head: string, chars: CharSet, ok: char -> bool, min: nat, max: Option<nat>, t: string)
    requires SameClass(chars, ok)
    ensures MatchesSomewhere(Token(Lit(head), chars, min, max), t) <==> HasToken(t, head, ok, min, max)
  {
    hide Matches;
    forall i: nat, k: nat
      ensures Matches(Lit(head), t, i, k) <==> exists h :: h in [head] && k == i + |h| && OccursAt(t, h, i)
    {
      LitMeaning(head, t, i, k);
      assert head in [head];
    }
    TokenMeaning(Lit(head), [head], chars, ok, min, max, t);
    assert head in [head];
  }

  function Spelled(front: string, letters: string, back: string): seq<string> {
    seq(|letters|, k requires 0 <= k < |letters| => front + [letters[k]] + back)
  }

  /** A head that varies in one letter. */
  lemma LetterHead(front: string, letters: string, back: string, t: string, i: nat, k: nat)
    ensures Matches(Lit(front).Then(OneOf(Chars(letters))).Then(Lit(back)), t, i, k)
      <==> exists h :: h in Spelled(front, letters, back) && k == i + |h| && OccursAt(t, h, i)
  {
    hide Matches;
    var lettered := Lit(front).Then(OneOf(Chars(letters)));
    var n := |front|;
    LitEnd(lettered, back, t, i, k);
    if k >= |back| { CharEnd(Lit(front), Chars(letters), c => c in letters, t, i, k - |back|); }
    if k >= |back| + 1 { LitMeaning(front, t, i, k - |back| - 1); }
    if Matches(lettered.Then(Lit(back)), t, i, k) {
      var x :| 0 <= x < |letters| && letters[x] == t[i + n];
      var h := Spelled(front, letters, back)[x];
      assert t[i..k] == t[i..i + n] + [t[i + n]] + t[i + n + 1..k];
      assert h in Spelled(front, letters, back) && OccursAt(t, h, i);
    }
    forall h | h in Spelled(front, letters, back) && k == i + |h| && OccursAt(t, h, i)
      ensures Matches(lettered.Then(Lit(back)), t, i, k)
    {
      var x :| 0 <= x < |letters| && h == front + [letters[x]] + back;
      assert t[i..i + n] == h[..n] == front && t[i + n] == h[n] && t[i + n + 1..k] == h[n + 1..] == back;
    }
  }

  lemma LetteredToken(front: string, letters: string, back: string, chars: CharSet, ok: char -> bool, min: nat,
      max: Option<nat>, t: string)
    requires SameClass(chars, ok)
    ensures MatchesSomewhere(Token(Lit(front).Then(OneOf(Chars(letters))).Then(Lit(back)), chars, min, max), t)
      <==> exists c :: c in letters && HasToken(t, front + [c] + back, ok, min, max)
  {
    hide Matches;
    hide HasToken;
    forall i: nat, k: nat { LetterHead(front, letters, back, t, i, k); }
    var heads := Spelled(front, letters, back);
    TokenMeaning(Lit(front).Then(OneOf(Chars(letters))).Then(Lit(back)), heads, chars, ok, min, max, t);
    forall h | h in heads && HasToken(t, h, ok, min, max)
      ensures exists c :: c in letters && HasToken(t, front + [c] + back, ok, min, max)
    {
      var x :| 0 <= x < |letters| && h == heads[x];
      assert letters[x] in letters;
    }
    forall c | c in letters && HasToken(t, front + [c] + back, ok, min, max)
      ensures exists h :: h in heads && HasToken(t, h, ok, min, max)
    {
      var x :| 0 <= x < |letters| && letters[x] == c;
      assert heads[x] in heads;
    }
  }

  lemma TokenRules(t: string)
    ensures MatchesSomewhere(GcpApiKey(), t) <==> HasGcpApiKey(t)
    ensures MatchesSomewhere(GithubToken(), t) <==> HasGithubToken(t)
    ensures MatchesSomewhere(GithubFineGrained(), t) <==> HasGithubFineGrained(t)
    ensures MatchesSomewhere(GitlabToken(), t) <==> HasGitlabToken(t)
    ensures MatchesSomewhere(SlackToken(), t) <==> HasSlackToken(t)
    ensures MatchesSomewhere(StripeKey(), t) <==> HasStripeKey(t)
    ensures MatchesSomewhere(TwilioKey(), t) <==> HasTwilioKey(t)
  {
    hide MatchesSomewhere;
    hide HasToken;
    hide SameClass;
    Classes();
    AlnumClasses();
    PlainToken("AIza", Either(ALNUM, Chars("-_")), IsKeyChar, 35, Some(35), t);
    LetteredToken("gh", "pousr", "_", ALNUM, IsAlnum, 36, Some(255), t);
    PlainToken("github_pat_", Either(ALNUM, Chars("_")), IsWord, 22, Some(255), t);
    PlainToken("glpat-", Either(ALNUM, Chars("-_")), IsKeyChar, 20, Some(20), t);
    LetteredToken("xox", "baprs", "-", Either(ALNUM, Chars("-")), IsDashed, 10, Some(48), t);
    PlainToken("sk_live_", ALNUM, IsAlnum, 24, None, t);
    PlainToken("SK", HEX, IsHex, 32, Some(32), t);
  }

  // ----- a run that takes the rest of its word -----

  /** For a run of word characters the closing edge leaves no choice: it is all of the word after
      the head, so a longer or otherwise continued word is not reported. */
  ghost predicate WholeWord(t: string, i: int, head: string, ok: char -> bool, min: nat, max: Option<nat>) {
    && OccursAt(t, head, i) && !WordAt(t, i - 1)
    && var e := WordEnd(t, i); i + |head| + min <= e && (max.Some? ==> e <= i + |head| + max.value) && Run(t, i + |head|, e, ok)
  }

  /** The end of the word that goes on at `i`. */
  function WordEnd(t: string, i: nat): (e: nat)
    requires i <= |t|
    ensures i <= e <= |t| && !WordAt(t, e) && forall k :: i <= k < e ==> IsWord(t[k])
    decreases |t| - i
  {
    if i < |t| && IsWord(t[i]) then WordEnd(t, i + 1) else i
  }

  lemma WordTokenMeaning(head: string, ok: char -> bool, min: nat, max: Option<nat>, t: string)
    requires min > 0 && (forall c: char :: ok(c) ==> IsWord(c))
    requires head != [] && forall k :: 0 <= k < |head| ==> IsWord(head[k])
    ensures HasToken(t, head, ok, min, max) <==> exists i :: WholeWord(t, i, head, ok, min, max)
  {
    forall i, j | TokenAt(t, i, j, head, ok, min, max) ensures WholeWord(t, i, head, ok, min, max) {
      HeadIsWord(t, head, i);
      assert WordAt(t, j - 1);
      assert forall k :: i <= k < j ==> IsWord(t[k]);
      WordEndIs(t, i, j);
    }
    forall i | WholeWord(t, i, head, ok, min, max) ensures HasToken(t, head, ok, min, max) {
      HeadIsWord(t, head, i);
      var e := WordEnd(t, i);
      assert WordAt(t, e - 1);
      assert TokenAt(t, i, e, head, ok, min, max);
    }
  }

  lemma HeadIsWord(t: string, head: string, i: int)
    requires OccursAt(t, head, i) && forall k :: 0 <= k < |head| ==> IsWord(head[k])
    ensures forall k :: i <= k < i + |head| ==> IsWord(t[k])
  {
    forall k | i <= k < i + |head| ensures IsWord(t[k]) { assert t[k] == t[i..i + |head|][k - i]; }
  }

  lemma {:induction false} WordEndIs(t: string, i: nat, j: nat)
    requires i <= j <= |t| && !WordAt(t, j) && forall k :: i <= k < j ==> IsWord(t[k])
    ensures WordEnd(t, i) == j
    decreases j - i
  {
    if i < j { WordEndIs(t, i + 1, j); }
  }

  /** GitHub tokens of either sort, Stripe and Twilio keys are reported exactly when they fill a
      whole word: a token of more than 255 characters, say, is not a hit. */
  lemma WholeWordRules(t: string)
    ensures HasGithubToken(t) <==> exists c, i :: c in "pousr" && WholeWord(t, i, "gh" + [c] + "_", IsAlnum, 36, Some(255))
    ensures HasGithubFineGrained(t) <==> exists i :: WholeWord(t, i, "github_pat_", IsWord, 22, Some(255))
    ensures HasStripeKey(t) <==> exists i :: WholeWord(t, i, "sk_live_", IsAlnum, 24, None)
    ensures HasTwilioKey(t) <==> exists i :: WholeWord(t, i, "SK", IsHex, 32, Some(32))
  {
    hide HasToken;
    hide WholeWord;
    forall c | c in "pousr"
      ensures HasToken(t, "gh" + [c] + "_", IsAlnum, 36, Some(255))
        <==> exists i :: WholeWord(t, i, "gh" + [c] + "_", IsAlnum, 36, Some(255))
    {
      WordTokenMeaning("gh" + [c] + "_", IsAlnum, 36, Some(255), t);
    }
    WordTokenMeaning("github_pat_", IsWord, 22, Some(255), t);
    WordTokenMeaning("sk_live_", IsAlnum, 24, None, t);
    WordTokenMeaning("SK", IsHex, 32, Some(32), t);
  }

  // ----- longer shapes -----

  lemma AccountKeyMeaning(t: string)
    ensures MatchesSomewhere(AzureAccountKey(), t) <==> HasAzureAccountKey(t)
  {
    hide Matches;
    AlnumClasses();
    var head := Lit("AccountKey=");
    var filled := head.Then(Times(Either(ALNUM, Chars("+/")), 86));
    forall i: nat, j: nat
      ensures Matches(AzureAccountKey(), t, i, j) <==> j == i + 99 && AccountKeyAt(t, i)
    {
      LitEnd(filled, "==", t, i, j);
      if j >= 2 { TimesEnd(head, Either(ALNUM, Chars("+/")), IsBase64, 86, t, i, j - 2); }
      if j >= 88 { LitMeaning("AccountKey=", t, i, j - 88); }
    }
    if HasAzureAccountKey(t) {
      var i :| AccountKeyAt(t, i);
      assert Matches(AzureAccountKey(), t, i, i + 99);
    }
  }

  /** The fixed part of a SAS token: `sv=`, a date and an ampersand. */
  function SasHead(): Regex {
    WordBoundary.Then(Lit("sv=")).Then(Times(DIGIT, 4)).Then(Lit("-")).Then(Times(DIGIT, 2)).Then(Lit("-"))
    .Then(Times(DIGIT, 2)).Then(Lit("&"))
  }

  ghost predicate SasHeadAt(t: string, i: int) {
    && OccursAt(t, "sv=", i) && Edge(t, i)
    && Run(t, i + 3, i + 7, IsDigit) && OccursAt(t, "-", i + 7)
    && Run(t, i + 8, i + 10, IsDigit) && OccursAt(t, "-", i + 10)
    && Run(t, i + 11, i + 13, IsDigit) && OccursAt(t, "&", i + 13)
  }

  lemma SasHeadMeaning(t: string, i: nat, j: nat)
    ensures Matches(SasHead(), t, i, j) <==> j == i + 14 && SasHeadAt(t, i)
  {
    hide Matches;
    Classes();
    var a := WordBoundary.Then(Lit("sv="));
    var b := a.Then(Times(DIGIT, 4));
    var c := b.Then(Lit("-"));
    var d := c.Then(Times(DIGIT, 2));
    var e := d.Then(Lit("-"));
    var f := e.Then(Times(DIGIT, 2));
    LitEnd(f, "&", t, i, j);
    if j >= 1 { TimesEnd(e, DIGIT, IsDigit, 2, t, i, j - 1); }
    if j >= 3 { LitEnd(d, "-", t, i, j - 3); }
    if j >= 4 { TimesEnd(c, DIGIT, IsDigit, 2, t, i, j - 4); }
    if j >= 6 { LitEnd(b, "-", t, i, j - 6); }
    if j >= 7 { TimesEnd(a, DIGIT, IsDigit, 4, t, i, j - 7); }
    if j >= 11 { LitEnd(WordBoundary, "sv=", t, i, j - 11); }
    if j >= 14 { EdgeMeaning(t, i, j - 14); }
  }

  lemma SasMeaning(t: string)
    ensures MatchesSomewhere(AzureSas(), t) <==> HasAzureSas(t)
  {
    hide Matches;
    Classes();
    AlnumClasses();
    var plain, code := Not(Either(Space, QUOTE)), Either(ALNUM, Chars("%"));
    var filled := SasHead().Then(Any(plain));
    var marked := filled.Then(Lit("&sig="));
    forall i: nat, j: nat | Matches(AzureSas(), t, i, j) ensures HasAzureSas(t) {
      var s := RunBack(marked, code, IsUrlEncoded, 20, None, t, i, j);
      LitEnd(filled, "&sig=", t, i, s);
      var k := RunBack(SasHead(), plain, NoSpaceOrQuote, 0, None, t, i, s - 5);
      SasHeadMeaning(t, i, k);
      assert SasAt(t, i, s - 5);
    }
    forall i, a | SasAt(t, i, a) ensures MatchesSomewhere(AzureSas(), t) {
      SasHeadMeaning(t, i, i + 14);
      RunOn(SasHead(), plain, NoSpaceOrQuote, 0, None, t, i, i + 14, a);
      LitEnd(filled, "&sig=", t, i, a + 5);
      RunOn(marked, code, IsUrlEncoded, 20, None, t, i, a + 5, a + 25);
    }
  }

  lemma KeyIdMeaning(t: string)
    ensures MatchesSomewhere(GcpServiceAccountKey(), t) <==> HasGcpServiceAccountKey(t)
  {
    hide SameClass, OccursAt;
    hide Matches;
    Classes();
    var name := Lit("\"private_key_id\"");
    var spaced := name.Then(Any(Space));
    var colon := spaced.Then(Lit(":"));
    var padded := colon.Then(Any(Space));
    var quoted := padded.Then(Lit("\""));
    var filled := quoted.Then(Times(HEX_LOWER, 40));
    forall i: nat, j: nat | Matches(GcpServiceAccountKey(), t, i, j) ensures HasGcpServiceAccountKey(t) {
      LitEnd(filled, "\"", t, i, j);
      TimesEnd(quoted, HEX_LOWER, IsLowerHex, 40, t, i, j - 1);
      LitEnd(padded, "\"", t, i, j - 41);
      var c := RunBack(colon, Space, IsSpace, 0, None, t, i, j - 42);
      LitEnd(spaced, ":", t, i, c);
      var k := RunBack(name, Space, IsSpace, 0, None, t, i, c - 1);
      LitMeaning("\"private_key_id\"", t, i, k);
      assert KeyIdAt(t, i, c - 1, j - 42);
    }
    forall i, a, b | KeyIdAt(t, i, a, b) ensures MatchesSomewhere(GcpServiceAccountKey(), t) {
      KeyIdPlaces(t, i, a, b);
      LitMeaning("\"private_key_id\"", t, i, i + 16);
      RunOn(name, Space, IsSpace, 0, None, t, i, i + 16, a);
      LitEnd(spaced, ":", t, i, a + 1);
      RunOn(colon, Space, IsSpace, 0, None, t, i, a + 1, b);
      LitEnd(padded, "\"", t, i, b + 1);
      TimesEnd(quoted, HEX_LOWER, IsLowerHex, 40, t, i, b + 41);
      LitEnd(filled, "\"", t, i, b + 42);
    }
  }

  lemma KeyIdPlaces(t: string, i: int, a: int, b: int)
    requires KeyIdAt(t, i, a, b)
    ensures 0 <= i && i + 16 <= a < b && b + 42 <= |t|
  {}

  lemma WebhookMeaning(t: string)
    ensures MatchesSomewhere(SlackWebhook(), t) <==> HasSlackWebhook(t)
  {
    hide Matches;
    AlnumClasses();
    var word := Either(ALNUM, Chars("_"));
    var host := Lit("hooks.slack.com/services/T");
    var team := host.Then(AtLeast(word, 8));
    var mark := team.Then(Lit("/B"));
    var bot := mark.Then(AtLeast(word, 8));
    var last := bot.Then(Lit("/"));
    forall i: nat, j: nat | Matches(SlackWebhook(), t, i, j) ensures HasSlackWebhook(t) {
      TimesEnd(last, word, IsWord, 24, t, i, j);
      LitEnd(bot, "/", t, i, j - 24);
      var c := RunBack(mark, word, IsWord, 8, None, t, i, j - 25);
      LitEnd(team, "/B", t, i, c);
      var k := RunBack(host, word, IsWord, 8, None, t, i, c - 2);
      LitMeaning("hooks.slack.com/services/T", t, i, k);
      assert WebhookAt(t, i, c - 2, j - 25);
    }
    forall i, a, b | WebhookAt(t, i, a, b) ensures MatchesSomewhere(SlackWebhook(), t) {
      LitMeaning("hooks.slack.com/services/T", t, i, i + 26);
      RunOn(host, word, IsWord, 8, None, t, i, i + 26, a);
      LitEnd(team, "/B", t, i, a + 2);
      RunOn(mark, word, IsWord, 8, None, t, i, a + 2, b);
      LitEnd(bot, "/", t, i, b + 1);
      TimesEnd(last, word, IsWord, 24, t, i, b + 25);
    }
  }

  /** The pattern of a web token up to its second dot. */
  function JwtFront(): Regex {
    WordBoundary.Then(Lit("eyJ")).Then(AtLeast(Either(ALNUM, Chars("_-")), 5)).Then(Lit(".eyJ"))
    .Then(AtLeast(Either(ALNUM, Chars("_-")), 5)).Then(Lit("."))
  }

  ghost predicate JwtFrontAt(t: string, i: int, a: int, b: int) {
    && OccursAt(t, "eyJ", i) && Edge(t, i)
    && i + 8 <= a && Run(t, i + 3, a, IsKeyChar) && OccursAt(t, ".eyJ", a)
    && a + 9 <= b && Run(t, a + 4, b, IsKeyChar) && OccursAt(t, ".", b)
  }

  lemma JwtFrontBack(t: string, i: nat, j: nat) returns (a: nat)
    requires Matches(JwtFront(), t, i, j)
    ensures j > 0 && JwtFrontAt(t, i, a, j - 1)
  {
    hide Matches;
    hide SameClass;
    AlnumClasses();
    var code := Either(ALNUM, Chars("_-"));
    var head := WordBoundary.Then(Lit("eyJ"));
    var first := head.Then(AtLeast(code, 5));
    var dot := first.Then(Lit(".eyJ"));
    LitEnd(dot.Then(AtLeast(code, 5)), ".", t, i, j);
    var b := RunBack(dot, code, IsKeyChar, 5, None, t, i, j - 1);
    LitEnd(first, ".eyJ", t, i, b);
    a := b - 4;
    var k := RunBack(head, code, IsKeyChar, 5, None, t, i, a);
    LitEnd(WordBoundary, "eyJ", t, i, k);
    EdgeMeaning(t, i, k - 3);
  }

  lemma JwtFrontOn(t: string, i: int, a: int, b: int)
    requires JwtFrontAt(t, i, a, b)
    ensures Matches(JwtFront(), t, i, b + 1)
  {
    hide Matches;
    hide SameClass;
    AlnumClasses();
    var code := Either(ALNUM, Chars("_-"));
    var head := WordBoundary.Then(Lit("eyJ"));
    var first := head.Then(AtLeast(code, 5));
    var dot := first.Then(Lit(".eyJ"));
    EdgeMeaning(t, i, i);
    LitEnd(WordBoundary, "eyJ", t, i, i + 3);
    RunOn(head, code, IsKeyChar, 5, None, t, i, i + 3, a);
    LitEnd(first, ".eyJ", t, i, a + 4);
    RunOn(dot, code, IsKeyChar, 5, None, t, i, a + 4, b);
    LitEnd(dot.Then(AtLeast(code, 5)), ".", t, i, b + 1);
  }

  lemma JwtMeaning(t: string)
    ensures MatchesSomewhere(Jwt(), t) <==> HasJwt(t)
  {
    hide Matches;
    hide SameClass;
    AlnumClasses();
    var code := Either(ALNUM, Chars("_-"));
    var third := JwtFront().Then(AtLeast(code, 5));
    forall i: nat, j: nat | Matches(Jwt(), t, i, j) ensures HasJwt(t) {
      EdgeEnd(third, t, i, j);
      var c := RunBack(JwtFront(), code, IsKeyChar, 5, None, t, i, j);
      var a := JwtFrontBack(t, i, c);
      assert JwtAt(t, i, a, c - 1, j);
    }
    forall i, a, b, j | JwtAt(t, i, a, b, j) ensures MatchesSomewhere(Jwt(), t) {
      JwtFrontOn(t, i, a, b);
      RunOn(JwtFront(), code, IsKeyChar, 5, None, t, i, b + 1, j);
      EdgeEnd(third, t, i, j);
    }
  }

  // ----- URLs with credentials -----

  /** A literal without letters reads the same under either casing rule. */
  lemma MarkEnd(r: Regex, s: string, fold: bool, t: string, i: nat, j: nat)
    requires forall k :: 0 <= k < |s| ==> !IsAlpha(s[k])
    ensures Matches(r.Then(Literal(s, fold)), t, i, j)
      <==> j >= |s| && OccursAt(t, s, j - |s|) && Matches(r, t, i, j - |s|)
  {
    hide Matches;
    if fold {
      NameEnd(r, s, t, i, j);
      if j >= |s| { UnfoldedMark(t, s, j - |s|); }
    } else {
      LitEnd(r, s, t, i, j);
    }
  }

  lemma UnfoldedMark(t: string, s: string, i: int)
    requires forall k :: 0 <= k < |s| ==> !IsAlpha(s[k])
    ensures NameAt(t, s, i) <==> OccursAt(t, s, i)
  {
    if 0 <= i && i + |s| <= |t| {
      var n := i + |s|;
      assert forall k :: 0 <= k < |s| ==> (LowerChar(t[i + k]) == s[k] <==> t[i + k] == s[k]);
      assert forall k :: 0 <= k < |s| ==> Lower(t)[i..n][k] == LowerChar(t[i + k]) && t[i..n][k] == t[i + k];
      if Lower(t)[i..n] == s { assert forall k :: 0 <= k < |s| ==> t[i..n][k] == s[k]; }
    }
  }

  /** A user, a colon, a password and an `@`. */
  function Credentials(url: Regex, users: CharSet, fold: bool): Regex {
    url.Then(Some1(users)).Then(Literal(":", fold)).Then(Some1(Not(Either(Space, Chars("@/"))))).Then(Literal("@", fold))
  }

  lemma CredentialsBack(url: Regex, users: CharSet, user: char -> bool, fold: bool, t: string, i: nat, j: nat)
    returns (k: nat, a: nat)
    requires SameClass(users, user) && Matches(Credentials(url, users, fold), t, i, j)
    ensures Matches(url, t, i, k) && j > 0 && CredentialsAt(t, k, a, j - 1, user)
  {
    hide Matches;
    CredentialClasses();
    var pass := Not(Either(Space, Chars("@/")));
    var named := url.Then(Some1(users));
    var colon := named.Then(Literal(":", fold));
    MarkEnd(colon.Then(Some1(pass)), "@", fold, t, i, j);
    var b := RunBack(colon, pass, IsPassword, 1, None, t, i, j - 1);
    MarkEnd(named, ":", fold, t, i, b);
    a := b - 1;
    k := RunBack(url, users, user, 1, None, t, i, a);
  }

  lemma CredentialsOn(url: Regex, users: CharSet, user: char -> bool, fold: bool, t: string, i: nat, k: nat, a: int, b: int)
    requires SameClass(users, user) && Matches(url, t, i, k) && CredentialsAt(t, k, a, b, user)
    ensures Matches(Credentials(url, users, fold), t, i, b + 1)
  {
    hide Matches;
    CredentialClasses();
    var pass := Not(Either(Space, Chars("@/")));
    var named := url.Then(Some1(users));
    var colon := named.Then(Literal(":", fold));
    RunOn(url, users, user, 1, None, t, i, k, a);
    MarkEnd(named, ":", fold, t, i, a + 1);
    RunOn(colon, pass, IsPassword, 1, None, t, i, a + 1, b);
    MarkEnd(colon.Then(Some1(pass)), "@", fold, t, i, b + 1);
  }

  /** An optional literal. */
  lemma OptMeaning(r: Regex, t: string, i: nat, j: nat)
    ensures Matches(Opt(r), t, i, j) <==> i <= j <= |t| && (i == j || Matches(r, t, i, j))
  {
    if Matches(Opt(r), t, i, j) {
      var n: nat :| n <= 1 && MatchesTimes(r, n, t, i, j);
      if n == 1 {
        var k := FirstRound(r, 1, t, i, j);
        assert MatchesTimes(r, 0, t, k, j);
      }
    }
    if i == j <= |t| { assert MatchesTimes(r, 0, t, i, j); }
    if Matches(r, t, i, j) {
      MatchesInRange(r, t, i, j);
      assert MatchesTimes(r, 0, t, j, j);
      assert MatchesTimes(r, 1, t, i, j);
    }
  }

  /** A name with an optional ending is one of two names. */
  lemma LongerName(s: string, more: string, t: string, i: nat, j: nat)
    ensures Matches(LitI(s).Then(Opt(LitI(more))), t, i, j)
      <==> (j == i + |s| && NameAt(t, s, i)) || (j == i + |s + more| && NameAt(t, s + more, i))
  {
    hide Matches;
    var whole := LitI(s).Then(Opt(LitI(more)));
    NameSplits(t, s, more, i);
    if Matches(whole, t, i, j) {
      var k := CatParts(whole, t, i, j);
      NameMeaning(s, t, i, k);
      OptMeaning(LitI(more), t, k, j);
      NameMeaning(more, t, k, j);
    }
    if NameAt(t, s, i) && (j == i + |s| || (j == i + |s + more| && NameAt(t, s + more, i))) {
      NameMeaning(s, t, i, i + |s|);
      NameMeaning(more, t, i + |s|, j);
      OptMeaning(LitI(more), t, i + |s|, j);
      CatOf(whole, t, i, i + |s|, j);
    }
  }

  lemma NameSplits(t: string, s: string, more: string, i: int)
    ensures NameAt(t, s + more, i) <==> NameAt(t, s, i) && NameAt(t, more, i + |s|)
  {
    var u, n, m := Lower(t), |s|, |s| + |more|;
    assert |s + more| == m && (s + more)[..n] == s && (s + more)[n..] == more;
    if 0 <= i && i + m <= |u| {
      assert u[i..i + m] == u[i..i + n] + u[i + n..i + m];
      assert u[i..i + m][..n] == u[i..i + n] && u[i..i + m][n..] == u[i + n..i + m];
    }
  }

  function Databases(): Regex {
    LitI("postgres").Then(Opt(LitI("ql"))).Or(LitI("mysql"))
    .Or(LitI("mongodb").Then(Opt(LitI("+srv")))).Or(LitI("redis")).Or(LitI("amqp"))
  }

  lemma DatabaseNames(t: string, i: nat, j: nat)
    ensures Matches(Databases(), t, i, j) <==> exists s :: s in DATABASES && j == i + |s| && NameAt(t, s, i)
  {
    hide NameAt;
    hide DATABASES;
    hide Matches;
    var a := LitI("postgres").Then(Opt(LitI("ql")));
    var b := a.Or(LitI("mysql"));
    var mongo := LitI("mongodb").Then(Opt(LitI("+srv")));
    var c := b.Or(mongo);
    var d := c.Or(LitI("redis"));
    OrMeaning(d, LitI("amqp"), t, i, j);
    OrMeaning(c, LitI("redis"), t, i, j);
    OrMeaning(b, mongo, t, i, j);
    OrMeaning(a, LitI("mysql"), t, i, j);
    LongerName("postgres", "ql", t, i, j);
    LongerName("mongodb", "+srv", t, i, j);
    NameMeaning("mysql", t, i, j);
    NameMeaning("redis", t, i, j);
    NameMeaning("amqp", t, i, j);
    assert "postgres" + "ql" == "postgresql" && "mongodb" + "+srv" == "mongodb+srv";
    DatabaseList();
    assert "postgres" in DATABASES && "postgresql" in DATABASES && "mysql" in DATABASES && "mongodb" in DATABASES
      && "mongodb+srv" in DATABASES && "redis" in DATABASES && "amqp" in DATABASES;
  }

  lemma DatabaseList()
    ensures forall s :: s in DATABASES <==>
      (s == "postgres" || s == "postgresql" || s == "mysql" || s == "mongodb" || s == "mongodb+srv" || s == "redis" || s == "amqp")
  {}

  lemma DatabaseSchemes(t: string, i: nat, k: nat)
    ensures Matches(WordBoundary.Then(Databases()).Then(LitI("://")), t, i, k)
      <==> exists s :: s in DATABASES && k == i + |s| + 3 && NameAt(t, s, i) && Edge(t, i) && OccursAt(t, "://", i + |s|)
  {
    hide NameAt;
    hide OccursAt;
    hide Edge;
    hide DATABASES;
    hide Matches;
    hide Databases;
    var scheme := WordBoundary.Then(Databases());
    MarkEnd(scheme, "://", true, t, i, k);
    if k >= 3 {
      DatabaseNames(t, i, k - 3);
      if Matches(scheme, t, i, k - 3) {
        var m := CatParts(scheme, t, i, k - 3);
        EdgeMeaning(t, i, m);
      }
      if Matches(Databases(), t, i, k - 3) && Edge(t, i) {
        MatchesInRange(Databases(), t, i, k - 3);
        EdgeMeaning(t, i, i);
        CatOf(scheme, t, i, i, k - 3);
      }
    }
  }

  lemma DatabaseUrlMeaning(t: string)
    ensures MatchesSomewhere(DatabaseUrl(), t) <==> HasDatabaseUrl(t)
  {
    hide Matches;
    hide SameClass;
    hide Edge;
    hide OccursAt;
    hide Databases;
    hide DATABASES;
    CredentialClasses();
    DatabaseUrlShape();
    var users := Not(Either(Space, Chars(":/")));
    var url := WordBoundary.Then(Databases()).Then(LitI("://"));
    forall i: nat, j: nat | Matches(DatabaseUrl(), t, i, j) ensures HasDatabaseUrl(t) {
      var k, a := CredentialsBack(url, users, IsUser, true, t, i, j);
      DatabaseSchemes(t, i, k);
      var s :| s in DATABASES && k == i + |s| + 3 && NameAt(t, s, i) && Edge(t, i) && OccursAt(t, "://", i + |s|);
      assert DatabaseUrlAt(t, i, s, a, j - 1);
    }
    forall i, s, a, b | DatabaseUrlAt(t, i, s, a, b) ensures MatchesSomewhere(DatabaseUrl(), t) {
      CredentialPlaces(t, i + |s| + 3, a, b, IsUser);
      NamePlace(t, s, i);
      DatabaseSchemes(t, i, i + |s| + 3);
      CredentialsOn(url, users, IsUser, true, t, i, i + |s| + 3, a, b);
    }
  }

  lemma DatabaseUrlShape()
    ensures DatabaseUrl()
      == Credentials(WordBoundary.Then(Databases()).Then(LitI("://")), Not(Either(Space, Chars(":/"))), true)
  {}

  lemma CredentialPlaces(t: string, i: int, a: int, b: int, user: char -> bool)
    requires CredentialsAt(t, i, a, b, user)
    ensures 0 <= i < a < b < |t|
  {}

  lemma NamePlace(t: string, name: string, i: int)
    requires NameAt(t, name, i)
    ensures 0 <= i && i + |name| <= |t|
  {}

  lemma WebSchemes(t: string, i: nat, j: nat)
    ensures Matches(Lit("http").Then(Opt(Lit("s"))), t, i, j)
      <==> exists s :: s in WEB_SCHEMES && j == i + |s| && OccursAt(t, s, i)
  {
    hide Matches;
    var whole := Lit("http").Then(Opt(Lit("s")));
    if i + 5 <= |t| { assert t[i..i + 5] == t[i..i + 4] + t[i + 4..i + 5]; }
    assert "https" == "http" + "s" && WEB_SCHEMES[0] == "http" && WEB_SCHEMES[1] == "https";
    if Matches(whole, t, i, j) {
      var k := CatParts(whole, t, i, j);
      LitMeaning("http", t, i, k);
      OptMeaning(Lit("s"), t, k, j);
      LitMeaning("s", t, k, j);
      assert OccursAt(t, if j == k then WEB_SCHEMES[0] else WEB_SCHEMES[1], i);
    }
    forall s | s in WEB_SCHEMES && j == i + |s| && OccursAt(t, s, i) ensures Matches(whole, t, i, j) {
      assert s == "http" || s == "https";
      if s == "https" { assert t[i..i + 5][..4] == "http" && t[i..i + 5][4..] == "s"; }
      LitMeaning("http", t, i, i + 4);
      LitMeaning("s", t, i + 4, j);
      OptMeaning(Lit("s"), t, i + 4, j);
      CatOf(whole, t, i, i + 4, j);
    }
  }

  lemma WebUrls(t: string, i: nat, k: nat)
    ensures Matches(Lit("http").Then(Opt(Lit("s"))).Then(Lit("://")), t, i, k)
      <==> exists s :: s in WEB_SCHEMES && k == i + |s| + 3 && OccursAt(t, s, i) && OccursAt(t, "://", i + |s|)
  {
    hide Matches;
    LitEnd(Lit("http").Then(Opt(Lit("s"))), "://", t, i, k);
    if k >= 3 { WebSchemes(t, i, k - 3); }
  }

  lemma BasicAuthMeaning(t: string)
    ensures MatchesSomewhere(BasicAuthUrl(), t) <==> HasBasicAuthUrl(t)
  {
    hide Matches;
    hide SameClass;
    hide WEB_SCHEMES;
    Classes();
    CredentialClasses();
    var users, tail := Not(Either(Space, Chars(":/@"))), Not(Either(Space, QUOTE));
    var url := Lit("http").Then(Opt(Lit("s"))).Then(Lit("://"));
    var all := Credentials(url, users, false);
    forall i: nat, j: nat | Matches(BasicAuthUrl(), t, i, j) ensures HasBasicAuthUrl(t) {
      var e := RunBack(all, tail, NoSpaceOrQuote, 1, None, t, i, j);
      var k, a := CredentialsBack(url, users, IsPlainUser, false, t, i, e);
      WebUrls(t, i, k);
      var s :| s in WEB_SCHEMES && k == i + |s| + 3 && OccursAt(t, s, i) && OccursAt(t, "://", i + |s|);
      assert WebUrlAt(t, i, s, a, e - 1);
    }
    forall i, s, a, b | WebUrlAt(t, i, s, a, b) ensures MatchesSomewhere(BasicAuthUrl(), t) {
      WebUrls(t, i, i + |s| + 3);
      CredentialPlaces(t, i + |s| + 3, a, b, IsPlainUser);
      CredentialsOn(url, users, IsPlainUser, false, t, i, i + |s| + 3, a, b);
      RunOn(all, tail, NoSpaceOrQuote, 1, None, t, i, b + 1, b + 2);
    }
  }

  // ----- private keys -----

  function Kinds(): Regex { Lit("RSA").Or(Lit("EC")).Or(Lit("OPENSSH")).Or(Lit("PGP")).Or(Lit("DSA")) }

  lemma KindMeaning(t: string, i: nat, j: nat)
    ensures Matches(Opt(Kinds()), t, i, j) <==> exists s :: s in KEY_KINDS && j == i + |s| && OccursAt(t, s, i)
  {
    hide Matches;
    var a := Lit("RSA").Or(Lit("EC"));
    var b := a.Or(Lit("OPENSSH"));
    var c := b.Or(Lit("PGP"));
    OptMeaning(Kinds(), t, i, j);
    OrMeaning(c, Lit("DSA"), t, i, j);
    OrMeaning(b, Lit("PGP"), t, i, j);
    OrMeaning(a, Lit("OPENSSH"), t, i, j);
    OrMeaning(Lit("RSA"), Lit("EC"), t, i, j);
    LitMeaning("RSA", t, i, j);
    LitMeaning("EC", t, i, j);
    LitMeaning("OPENSSH", t, i, j);
    LitMeaning("PGP", t, i, j);
    LitMeaning("DSA", t, i, j);
    assert KEY_KINDS[0] == "" && KEY_KINDS[1] == "RSA" && KEY_KINDS[2] == "EC" && KEY_KINDS[3] == "OPENSSH"
      && KEY_KINDS[4] == "PGP" && KEY_KINDS[5] == "DSA" && |KEY_KINDS| == 6;
    assert i <= |t| ==> OccursAt(t, "", i);
  }

  lemma MaybeSpaceMeaning(r: Regex, t: string, i: nat, j: nat)
    ensures Matches(r.Then(Opt(OneOf(Space))), t, i, j) <==> exists k: nat :: Matches(r, t, i, k) && MaybeSpace(t, k, j)
  {
    hide Matches;
    var whole := r.Then(Opt(OneOf(Space)));
    forall k: nat ensures Matches(Opt(OneOf(Space)), t, k, j) <==> MaybeSpace(t, k, j) {
      OptMeaning(OneOf(Space), t, k, j);
      CharMeaning(Space, t, k, j);
    }
    if Matches(whole, t, i, j) { var k := CatParts(whole, t, i, j); }
    forall k: nat | Matches(r, t, i, k) && MaybeSpace(t, k, j) ensures Matches(whole, t, i, j) { CatOf(whole, t, i, k, j); }
  }

  /** Up to the closing words. */
  ghost predicate PemFrontAt(t: string, i: int, kind: string, a: int, b: int) {
    && kind in KEY_KINDS && OccursAt(t, "-----BEGIN", i) && MaybeSpace(t, i + 10, a)
    && OccursAt(t, kind, a) && MaybeSpace(t, a + |kind|, b)
  }

  lemma PemFront(t: string, i: nat, b: nat)
    ensures Matches(Lit("-----BEGIN").Then(Opt(OneOf(Space))).Then(Opt(Kinds())).Then(Opt(OneOf(Space))), t, i, b)
      <==> exists kind, a :: PemFrontAt(t, i, kind, a, b)
  {
    hide Matches;
    hide MaybeSpace;
    hide KEY_KINDS;
    hide Kinds;
    var spaced := Lit("-----BEGIN").Then(Opt(OneOf(Space)));
    var kinded := spaced.Then(Opt(Kinds()));
    MaybeSpaceMeaning(kinded, t, i, b);
    if Matches(kinded.Then(Opt(OneOf(Space))), t, i, b) {
      var c: nat :| Matches(kinded, t, i, c) && MaybeSpace(t, c, b);
      var a := CatParts(kinded, t, i, c);
      KindMeaning(t, a, c);
      var kind :| kind in KEY_KINDS && c == a + |kind| && OccursAt(t, kind, a);
      MaybeSpaceMeaning(Lit("-----BEGIN"), t, i, a);
      var k: nat :| Matches(Lit("-----BEGIN"), t, i, k) && MaybeSpace(t, k, a);
      LitMeaning("-----BEGIN", t, i, k);
      assert PemFrontAt(t, i, kind, a, b);
    }
    forall kind, a | PemFrontAt(t, i, kind, a, b) ensures Matches(kinded.Then(Opt(OneOf(Space))), t, i, b) {
      LitMeaning("-----BEGIN", t, i, i + 10);
      MaybeSpaceMeaning(Lit("-----BEGIN"), t, i, a);
      KindMeaning(t, a, a + |kind|);
      CatOf(kinded, t, i, a, a + |kind|);
    }
  }

  lemma PrivateKeyMeaning(t: string)
    ensures MatchesSomewhere(PrivateKey(), t) <==> HasPrivateKey(t)
  {
    hide Matches;
    hide MaybeSpace;
    hide KEY_KINDS;
    hide Kinds;
    PrivateKeyShape();
    var front := Lit("-----BEGIN").Then(Opt(OneOf(Space))).Then(Opt(Kinds())).Then(Opt(OneOf(Space)));
    forall i: nat, j: nat | Matches(PrivateKey(), t, i, j) ensures HasPrivateKey(t) {
      LitEnd(front, "PRIVATE KEY-----", t, i, j);
      PemFront(t, i, j - 16);
      var kind, a :| PemFrontAt(t, i, kind, a, j - 16);
      assert PemAt(t, i, kind, a, j - 16);
    }
    forall i, kind, a, b | PemAt(t, i, kind, a, b) ensures MatchesSomewhere(PrivateKey(), t) {
      PemPlaces(t, i, kind, a, b);
      assert PemFrontAt(t, i, kind, a, b);
      PemFront(t, i, b);
      LitEnd(front, "PRIVATE KEY-----", t, i, b + 16);
    }
  }

  lemma PrivateKeyShape()
    ensures PrivateKey() == Lit("-----BEGIN").Then(Opt(OneOf(Space))).Then(Opt(Kinds())).Then(Opt(OneOf(Space)))
      .Then(Lit("PRIVATE KEY-----"))
  {}

  lemma PemPlaces(t: string, i: int, kind: string, a: int, b: int)
    requires PemAt(t, i, kind, a, b)
    ensures 0 <= i <= a && a + |kind| <= b
  {}

  // ----- the generic assignment -----

  function SecretNames(): Regex {
    LitI("api").Then(Opt(OneOf(Chars("_-")))).Then(LitI("key")).Or(LitI("apikey")).Or(LitI("secret"))
    .Or(LitI("token")).Or(LitI("passwd")).Or(LitI("password"))
  }

  /** `api`, perhaps `_` or `-`. */
  lemma ApiMark(t: string, i: nat, j: nat)
    ensures Matches(LitI("api").Then(Opt(OneOf(Chars("_-")))), t, i, j)
      <==> NameAt(t, "api", i) && j <= |t| && (j == i + 3 || (j == i + 4 && (t[i + 3] == '_' || t[i + 3] == '-')))
  {
    hide Matches;
    var marked := LitI("api").Then(Opt(OneOf(Chars("_-"))));
    forall k: nat ensures Matches(Opt(OneOf(Chars("_-"))), t, k, j)
      <==> j <= |t| && (k == j || (j == k + 1 && (t[k] == '_' || t[k] == '-')))
    {
      OptMeaning(OneOf(Chars("_-")), t, k, j);
      CharMeaning(Chars("_-"), t, k, j);
    }
    NameMeaning("api", t, i, i + 3);
    if Matches(marked, t, i, j) {
      var k := CatParts(marked, t, i, j);
      NameMeaning("api", t, i, k);
    }
    if NameAt(t, "api", i) && Matches(Opt(OneOf(Chars("_-"))), t, i + 3, j) { CatOf(marked, t, i, i + 3, j); }
  }

  /** The mark in the middle of a name. */
  lemma ApiKeySplits(t: string, mark: string, i: nat)
    requires mark == "_" || mark == "-"
    ensures NameAt(t, "api" + mark + "key", i)
      <==> NameAt(t, "api", i) && i + 3 < |t| && t[i + 3] == mark[0] && NameAt(t, "key", i + 4)
  {
    NameSplits(t, "api" + mark, "key", i);
    NameSplits(t, "api", mark, i);
    UnfoldedMark(t, mark, i + 3);
    hide NameAt;
    assert OccursAt(t, mark, i + 3) <==> i + 3 < |t| && t[i + 3] == mark[0];
  }

  /** `api`, perhaps `_` or `-`, and `key`. */
  lemma ApiKeyNames(t: string, i: nat, j: nat)
    ensures Matches(LitI("api").Then(Opt(OneOf(Chars("_-")))).Then(LitI("key")), t, i, j)
      <==> (j == i + 6 && NameAt(t, "apikey", i)) || (j == i + 7 && (NameAt(t, "api_key", i) || NameAt(t, "api-key", i)))
  {
    hide Matches;
    NameSplits(t, "api", "key", i);
    assert "api" + "key" == "apikey" && "api" + "_" + "key" == "api_key" && "api" + "-" + "key" == "api-key";
    ApiKeySplits(t, "_", i);
    ApiKeySplits(t, "-", i);
    NameEnd(LitI("api").Then(Opt(OneOf(Chars("_-")))), "key", t, i, j);
    if j >= 3 {
      ApiMark(t, i, j - 3);
      if NameAt(t, "key", j - 3) { NamePlace(t, "key", j - 3); }
    }
  }

  lemma SecretWords(t: string, i: nat, j: nat)
    ensures Matches(SecretNames(), t, i, j) <==> exists s :: s in SECRET_WORDS && j == i + |s| && NameAt(t, s, i)
  {
    hide Matches;
    var a := LitI("api").Then(Opt(OneOf(Chars("_-")))).Then(LitI("key"));
    var b := a.Or(LitI("apikey"));
    var c := b.Or(LitI("secret"));
    var d := c.Or(LitI("token"));
    var e := d.Or(LitI("passwd"));
    OrMeaning(e, LitI("password"), t, i, j);
    OrMeaning(d, LitI("passwd"), t, i, j);
    OrMeaning(c, LitI("token"), t, i, j);
    OrMeaning(b, LitI("secret"), t, i, j);
    OrMeaning(a, LitI("apikey"), t, i, j);
    ApiKeyNames(t, i, j);
    NameMeaning("apikey", t, i, j);
    NameMeaning("secret", t, i, j);
    NameMeaning("token", t, i, j);
    NameMeaning("passwd", t, i, j);
    NameMeaning("password", t, i, j);
    assert SECRET_WORDS[0] == "apikey" && SECRET_WORDS[1] == "api_key" && SECRET_WORDS[2] == "api-key"
      && SECRET_WORDS[3] == "secret" && SECRET_WORDS[4] == "token" && SECRET_WORDS[5] == "passwd"
      && SECRET_WORDS[6] == "password" && |SECRET_WORDS| == 7;
  }

  /** The quoted value after a sign. */
  lemma QuotedMeaning(r: Regex, t: string, i: nat, j: nat)
    ensures Matches(r.Then(OneOf(QUOTE)).Then(AtLeast(Either(ALNUM, Chars("-_/+=")), 16)).Then(OneOf(QUOTE)), t, i, j)
      <==> j > 0 && exists b: nat :: Matches(r, t, i, b) && QuotedAt(t, b, j - 1)
  {
    hide Matches;
    hide SameClass;
    Classes();
    AlnumClasses();
    var code := Either(ALNUM, Chars("-_/+="));
    var quoted := r.Then(OneOf(QUOTE));
    var filled := quoted.Then(AtLeast(code, 16));
    CharEnd(filled, QUOTE, IsQuote, t, i, j);
    if Matches(filled.Then(OneOf(QUOTE)), t, i, j) {
      var q := RunBack(quoted, code, IsSecretChar, 16, None, t, i, j - 1);
      CharEnd(r, QUOTE, IsQuote, t, i, q);
      assert Matches(r, t, i, q - 1) && QuotedAt(t, q - 1, j - 1);
    }
    forall b: nat | j > 0 && Matches(r, t, i, b) && QuotedAt(t, b, j - 1)
      ensures Matches(filled.Then(OneOf(QUOTE)), t, i, j)
    {
      CharEnd(r, QUOTE, IsQuote, t, i, b + 1);
      RunOn(quoted, code, IsSecretChar, 16, None, t, i, b + 1, j - 1);
    }
  }

  lemma GenericMeaning(t: string)
    ensures MatchesSomewhere(GenericAssignment(), t) <==> HasGenericAssignment(t)
  {
    hide Matches;
    hide SignAt;
    hide NameAt;
    hide QuotedAt;
    hide SECRET_WORDS;
    hide SecretNames;
    hide Signed;
    GenericShape();
    forall i: nat, j: nat | Matches(GenericAssignment(), t, i, j) ensures HasGenericAssignment(t) {
      QuotedMeaning(Signed(SecretNames()), t, i, j);
      var b: nat :| Matches(Signed(SecretNames()), t, i, b) && QuotedAt(t, b, j - 1);
      var k, a := SignBack(SecretNames(), t, i, b);
      SecretWords(t, i, k);
      var s :| s in SECRET_WORDS && k == i + |s| && NameAt(t, s, i);
      assert SignAt(t, i + |s|, a, b) && QuotedAt(t, b, j - 1);
    }
    if HasGenericAssignment(t) {
      var i, s :| s in SECRET_WORDS && NameAt(t, s, i) && QuotedFollows(t, i + |s|);
      var a, b, c :| SignAt(t, i + |s|, a, b) && QuotedAt(t, b, c);
      SignPlaces(t, i + |s|, a, b);
      NamePlace(t, s, i);
      QuotePlaces(t, b, c);
      SecretWords(t, i, i + |s|);
      SignOn(SecretNames(), t, i, i + |s|, a, b);
      QuotedMeaning(Signed(SecretNames()), t, i, c + 1);
    }
  }

  lemma GenericShape()
    ensures GenericAssignment() == Signed(SecretNames()).Then(OneOf(QUOTE))
      .Then(AtLeast(Either(ALNUM, Chars("-_/+=")), 16)).Then(OneOf(QUOTE))
  {}

  lemma QuotePlaces(t: string, b: int, c: int)
    requires QuotedAt(t, b, c)
    ensures 0 <= b < c < |t|
  {}

  lemma SignPlaces(t: string, j: int, a: int, b: int)
    requires SignAt(t, j, a, b)
    ensures 0 <= j <= a < b
  {}
}
