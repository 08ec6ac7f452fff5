/** JSON values and dicts; their text as `json.dumps` writes it with its default settings
    (`ensure_ascii`, separators `", "` and `": "`); and a reader for texts as RFC 8259 describes
    them, in two steps: `Lex` cuts the text into tokens, `ReadValue` reads a value off them. */
module Json {
  import opened Text

  /** A JSON-native value. A `Float` is the token that is written for it; an `Obj` is a dict
      in insertion order. */
  datatype Json =
    | Null
    | Bool(flag: bool)
    | Int(n: int)
    | Float(token: string)
    | Str(s: string)
    | Arr(items: seq<Json>)
    | Obj(fields: seq<Field>)

  datatype Field = Field(key: string, value: Json)

  // ----- well-formed values -----

  predicate HasKey(fields: seq<Field>, key: string) {
    fields != [] && (fields[0].key == key || HasKey(fields[1..], key))
  }

  predicate UniqueKeys(fields: seq<Field>) {
    fields == [] || (!HasKey(fields[1..], fields[0].key) && UniqueKeys(fields[1..]))
  }

  predicate IsNumberChar(c: char) {
    IsDigit(c) || c == '+' || c == '-' || c == '.' || IsExponentMark(c)
  }

  predicate IsExponentMark(c: char) { c == 'e' || c == 'E' }

  predicate IsSign(c: char) { c == '+' || c == '-' }

  predicate AllDigits(s: string) { forall k :: 0 <= k < |s| ==> IsDigit(s[k]) }

  predicate IntToken(s: string) {
    s != [] && s != "-" && AllDigits(if s[0] == '-' then s[1..] else s)
  }

  function DigitRun(s: string): (n: nat)
    ensures n <= |s| && AllDigits(s[..n])
  {
    if s != [] && IsDigit(s[0]) then 1 + DigitRun(s[1..]) else 0
  }

  /** The number grammar of section 6 of RFC 8259, for a token that is not an integer. */
  predicate FloatToken(s: string) {
    var t := if s != [] && s[0] == '-' then s[1..] else s;
    DigitRun(t) > 0 && FractionToken(t[DigitRun(t)..]) && !IntToken(s)
  }

  predicate FractionToken(s: string) {
    if s != [] && s[0] == '.' then DigitRun(s[1..]) > 0 && ExponentToken(s[1..][DigitRun(s[1..])..])
    else ExponentToken(s)
  }

  predicate ExponentToken(s: string) {
    if s == [] then true
    else
      var t := if |s| > 1 && IsSign(s[1]) then s[2..] else s[1..];
      IsExponentMark(s[0]) && t != [] && AllDigits(t)
  }

  /** Dict keys are unique, and a float is written as a number token. */
  predicate WellFormed(v: Json)
    decreases v, 1
  {
    match v
    case Float(token) => FloatToken(token)
    case Arr(items) => AllWellFormed(items)
    case Obj(fields) => UniqueKeys(fields) && FieldsWellFormed(fields)
    case _ => true
  }

  predicate AllWellFormed(items: seq<Json>)
    decreases items, 0
  {
    items == [] || (WellFormed(items[0]) && AllWellFormed(items[1..]))
  }

  predicate FieldsWellFormed(fields: seq<Field>)
    decreases fields, 0
  {
    fields == [] || (WellFormed(fields[0].value) && FieldsWellFormed(fields[1..]))
  }

  // ----- dicts -----

  /** `d[key]`; among equal keys, the first. */
  function Get(fields: seq<Field>, key: string): Json
    requires HasKey(fields, key)
  {
    if fields[0].key == key then fields[0].value else Get(fields[1..], key)
  }

  /** `d.get(key, default)` */
  function GetOr(fields: seq<Field>, key: string, default: Json): Json {
    if HasKey(fields, key) then Get(fields, key) else default
  }

  /** `d[key] = value` */
  function Put(fields: seq<Field>, key: string, value: Json): seq<Field> {
    if fields == [] then [Field(key, value)]
    else if fields[0].key == key then [Field(key, value)] + fields[1..]
    else [fields[0]] + Put(fields[1..], key, value)
  }

  function Without(fields: seq<Field>, key: string): seq<Field> {
    if fields == [] then []
    else if fields[0].key == key then Without(fields[1..], key)
    else [fields[0]] + Without(fields[1..], key)
  }

  function Strings(xs: seq<string>): seq<Json> { seq(|xs|, k requires 0 <= k < |xs| => Str(xs[k])) }

  /** Assigning a key changes that key and no other. */
  lemma {:induction false} PutGet(fields: seq<Field>, key: string, value: Json, other: string)
    ensures HasKey(Put(fields, key, value), key) && Get(Put(fields, key, value), key) == value
    ensures other != key ==> (HasKey(Put(fields, key, value), other) <==> HasKey(fields, other))
    ensures other != key && HasKey(fields, other) ==> Get(Put(fields, key, value), other) == Get(fields, other)
  {
    if fields != [] && fields[0].key != key { PutGet(fields[1..], key, value, other); }
  }

  lemma OtherKey(fields: seq<Field>, key: string, value: Json, other: string)
    requires other != key
    ensures GetOr(Put(fields, key, value), other, Null) == GetOr(fields, other, Null)
  {
    hide Put;
    PutGet(fields, key, value, other);
  }

  lemma {:induction false} PutWellFormed(fields: seq<Field>, key: string, value: Json)
    requires UniqueKeys(fields) && FieldsWellFormed(fields) && WellFormed(value)
    ensures UniqueKeys(Put(fields, key, value)) && FieldsWellFormed(Put(fields, key, value))
  {
    if fields != [] && fields[0].key != key {
      PutWellFormed(fields[1..], key, value);
      PutGet(fields[1..], key, value, fields[0].key);
    }
  }

  // ----- writing -----

  function DigitChar(d: nat): char
    requires d < 16
  {
    if d < 10 then (48 + d) as char else (87 + d) as char
  }

  function Decimal(n: nat): string {
    if n < 10 then [DigitChar(n)] else Decimal(n / 10) + [DigitChar(n % 10)]
  }

  function IntText(n: int): string { if n < 0 then "-" + Decimal(-n) else Decimal(n) }

  function Hex4(n: nat): string
    requires n < 0x10000
  {
    [DigitChar(n / 4096), DigitChar(n / 256 % 16), DigitChar(n / 16 % 16), DigitChar(n % 16)]
  }

  function UnicodeEscape(n: nat): string
    requires n < 0x10000
  {
    "\\u" + Hex4(n)
  }

  /** Section 7 of RFC 8259, with everything outside printable ASCII escaped; a character
      beyond the basic plane becomes a surrogate pair. */
  function EscapeChar(c: char): string {
    if c == '"' then "\\\"" else if c == '\\' then "\\\\"
    else if c == '\n' then "\\n" else if c == '\r' then "\\r" else if c == '\t' then "\\t"
    else if c as int == 8 then "\\b" else if c as int == 12 then "\\f"
    else if ' ' <= c <= '~' then [c]
    else if (c as int) < 0x10000 then UnicodeEscape(c as int)
    else UnicodeEscape(HighSurrogate(c)) + UnicodeEscape(LowSurrogate(c))
  }

  function Escape(s: string): string {
    if s == [] then [] else EscapeChar(s[0]) + Escape(s[1..])
  }

  function Quote(s: string): string { "\"" + Escape(s) + "\"" }

  /** `json.dumps(v)` */
  function Dumps(v: Json): string
    decreases v, 1
  {
    match v
    case Null => "null"
    case Bool(flag) => if flag then "true" else "false"
    case Int(n) => IntText(n)
    case Float(token) => token
    case Str(s) => Quote(s)
    case Arr(items) => if items == [] then "[]" else "[" + ItemsText(items)
    case Obj(fields) => if fields == [] then "{}" else "{" + FieldsText(fields)
  }

  function ItemsText(items: seq<Json>): string
    requires items != []
    decreases items, 0
  {
    Dumps(items[0]) + if |items| == 1 then "]" else ", " + ItemsText(items[1..])
  }

  function FieldsText(fields: seq<Field>): string
    requires fields != []
    decreases fields, 0
  {
    Quote(fields[0].key)
    + (": " + (Dumps(fields[0].value) + if |fields| == 1 then "}" else ", " + FieldsText(fields[1..])))
  }

  // ----- reading -----

  datatype Parsed<T> = Parsed(value: T, rest: string)

  /** The white space of section 2 of RFC 8259. */
  predicate IsJsonSpace(c: char) { c == ' ' || c == '\t' || c == '\n' || c == '\r' }

  predicate IsHex(c: char) { IsDigit(c) || 'a' <= c <= 'f' || 'A' <= c <= 'F' }

  function HexValue(c: char): (n: nat)
    requires IsHex(c)
    ensures n < 16
  {
    if IsDigit(c) then c as int - 48 else if 'a' <= c then c as int - 87 else c as int - 55
  }

  /** A `\uXXXX` escape at the head of `s`. */
  function ReadUnit(s: string): (r: Option<nat>)
    ensures r.Some? ==> |s| >= 6 && r.value < 0x10000
  {
    if |s| >= 6 && s[0] == '\\' && s[1] == 'u' && IsHex(s[2]) && IsHex(s[3]) && IsHex(s[4]) && IsHex(s[5])
    then Some(HexValue(s[2]) * 4096 + HexValue(s[3]) * 256 + HexValue(s[4]) * 16 + HexValue(s[5]))
    else None
  }

  /** A `\uXXXX` escape, or a surrogate pair of them; a lone surrogate is no character. */
  function ReadUnicode(s: string): (r: Option<Parsed<char>>)
    ensures r.Some? ==> |r.value.rest| < |s|
  {
    match ReadUnit(s)
    case None => None
    case Some(n) =>
      if n < 0xD800 || n >= 0xE000 then Some(Parsed(n as char, s[6..]))
      else if n >= 0xDC00 then None
      else
        match ReadUnit(s[6..])
        case None => None
        case Some(m) =>
          if 0xDC00 <= m < 0xE000 then
            Some(Parsed((0x10000 + (n - 0xD800) * 0x400 + (m - 0xDC00)) as char, s[12..]))
          else None
  }

  /** One character of a string body, escaped or plain. */
  function ReadChar(s: string): (r: Option<Parsed<char>>)
    ensures r.Some? ==> |r.value.rest| < |s|
  {
    if s == [] then None
    else if s[0] != '\\' then (if s[0] < ' ' then None else Some(Parsed(s[0], s[1..])))
    else if |s| == 1 then None
    else
      match s[1]
      case '"' => Some(Parsed('"', s[2..]))
      case '\\' => Some(Parsed('\\', s[2..]))
      case '/' => Some(Parsed('/', s[2..]))
      case 'b' => Some(Parsed(8 as char, s[2..]))
      case 'f' => Some(Parsed(12 as char, s[2..]))
      case 'n' => Some(Parsed('\n', s[2..]))
      case 'r' => Some(Parsed('\r', s[2..]))
      case 't' => Some(Parsed('\t', s[2..]))
      case _ => ReadUnicode(s)
  }

  /** A string body up to its closing quote. */
  function ReadString(s: string): (r: Option<Parsed<string>>)
    ensures r.Some? ==> |r.value.rest| < |s|
    decreases |s|
  {
    if s == [] then None
    else if s[0] == '"' then Some(Parsed([], s[1..]))
    else
      match ReadChar(s)
      case None => None
      case Some(p) =>
        match ReadString(p.rest)
        case None => None
        case Some(q) => Some(Parsed([p.value] + q.value, q.rest))
  }

  function NumberEnd(s: string): (n: nat)
    ensures n <= |s|
  {
    if s != [] && IsNumberChar(s[0]) then 1 + NumberEnd(s[1..]) else 0
  }

  function DecimalValue(s: string): int {
    if s == [] then 0 else DecimalValue(s[..|s| - 1]) * 10 + (s[|s| - 1] as int - 48)
  }

  function IntValue(s: string): int
    requires IntToken(s)
  {
    if s[0] == '-' then -DecimalValue(s[1..]) else DecimalValue(s)
  }

  function ReadNumber(s: string): (r: Option<Parsed<Json>>)
    ensures r.Some? ==> |r.value.rest| < |s|
  {
    var n := NumberEnd(s);
    var token := s[..n];
    if n == 0 then None
    else if IntToken(token) then Some(Parsed(Int(IntValue(token)), s[n..]))
    else if FloatToken(token) then Some(Parsed(Float(token), s[n..]))
    else None
  }

  /** `null`, `true` or `false`. */
  function ReadWord(s: string): (r: Option<Parsed<Json>>)
    ensures r.Some? ==> |r.value.rest| < |s|
  {
    if OccursAt(s, "null", 0) then Some(Parsed(Null, s[4..]))
    else if OccursAt(s, "true", 0) then Some(Parsed(Bool(true), s[4..]))
    else if OccursAt(s, "false", 0) then Some(Parsed(Bool(false), s[5..]))
    else None
  }

  /** The tokens of section 2 of RFC 8259: brackets, separators, and the values that hold no
      other. */
  datatype Token = Mark(c: char) | Scalar(v: Json)

  predicate IsMark(c: char) { c == '[' || c == ']' || c == '{' || c == '}' || c == ',' || c == ':' }

  function AsToken(p: Option<Parsed<Json>>): Option<Parsed<Token>> {
    if p.None? then None else Some(Parsed(Scalar(p.value.value), p.value.rest))
  }

  function AsStr(p: Option<Parsed<string>>): Option<Parsed<Json>> {
    if p.None? then None else Some(Parsed(Str(p.value.value), p.value.rest))
  }

  function LexOne(s: string): (r: Option<Parsed<Token>>)
    requires s != []
    ensures r.Some? ==> |r.value.rest| < |s|
  {
    if IsMark(s[0]) then Some(Parsed(Mark(s[0]), s[1..]))
    else if s[0] == '"' then AsToken(AsStr(ReadString(s[1..])))
    else if IsLower(s[0]) then AsToken(ReadWord(s))
    else AsToken(ReadNumber(s))
  }

  function Lex(s: string): Option<seq<Token>>
    decreases |s|
  {
    if s == [] then Some([])
    else if IsJsonSpace(s[0]) then Lex(s[1..])
    else
      match LexOne(s)
      case None => None
      case Some(p) => Ahead([p.value], Lex(p.rest))
  }

  function Ahead(first: seq<Token>, rest: Option<seq<Token>>): Option<seq<Token>> {
    if rest.None? then None else Some(first + rest.value)
  }

  /** A dict whose first insertion is `key`: a later value for the same key replaces the
      first, which keeps its place. */
  function PutFirst(key: string, value: Json, rest: seq<Field>): seq<Field> {
    if HasKey(rest, key) then [Field(key, Get(rest, key))] + Without(rest, key)
    else [Field(key, value)] + rest
  }

  datatype Read<T> = Read(value: T, rest: seq<Token>)

  predicate StartsWith(ts: seq<Token>, c: char) { ts != [] && ts[0] == Mark(c) }

  function ReadValue(ts: seq<Token>): (r: Option<Read<Json>>)
    ensures r.Some? ==> |r.value.rest| < |ts|
    decreases |ts|, 1
  {
    if ts == [] then None
    else if ts[0].Scalar? then Some(Read(ts[0].v, ts[1..]))
    else if StartsWith(ts, '[') then
      if StartsWith(ts[1..], ']') then Some(Read(Arr([]), ts[2..]))
      else (match ReadItems(ts[1..]) case None => None case Some(p) => Some(Read(Arr(p.value), p.rest)))
    else if StartsWith(ts, '{') then
      if StartsWith(ts[1..], '}') then Some(Read(Obj([]), ts[2..]))
      else (match ReadFields(ts[1..]) case None => None case Some(p) => Some(Read(Obj(p.value), p.rest)))
    else None
  }

  function ReadItems(ts: seq<Token>): (r: Option<Read<seq<Json>>>)
    ensures r.Some? ==> |r.value.rest| < |ts|
    decreases |ts|, 2
  {
    match ReadValue(ts)
    case None => None
    case Some(p) =>
      if StartsWith(p.rest, ']') then Some(Read([p.value], p.rest[1..]))
      else if !StartsWith(p.rest, ',') then None
      else
        match ReadItems(p.rest[1..])
        case None => None
        case Some(q) => Some(Read([p.value] + q.value, q.rest))
  }

  function ReadFields(ts: seq<Token>): (r: Option<Read<seq<Field>>>)
    ensures r.Some? ==> |r.value.rest| < |ts|
    decreases |ts|, 2
  {
    if ts == [] || !(ts[0].Scalar? && ts[0].v.Str?) || !StartsWith(ts[1..], ':') then None
    else
      match ReadValue(ts[2..])
      case None => None
      case Some(p) =>
        var key := ts[0].v.s;
        if StartsWith(p.rest, '}') then Some(Read([Field(key, p.value)], p.rest[1..]))
        else if !StartsWith(p.rest, ',') then None
        else
          match ReadFields(p.rest[1..])
          case None => None
          case Some(q) => Some(Read(PutFirst(key, p.value, q.value), q.rest))
  }

  /** `json.loads(s)` */
  function Loads(s: string): Option<Json> {
    match Lex(s)
    case None => None
    case Some(ts) =>
      match ReadValue(ts)
      case None => None
      case Some(p) => if p.rest == [] then Some(p.value) else None
  }

  // ----- the round trip -----

  /** `json.loads(json.dumps(v)) == v` */
  lemma RoundTrip(v: Json)
    requires WellFormed(v)
    ensures Loads(Dumps(v)) == Some(v)
  {
    LexValue(v);
    LexWhole(Dumps(v), Tokens(v));
    ValueRoundTrip(v, []);
    assert Tokens(v) + [] == Tokens(v);
  }

  // ----- one line, printable -----

  ghost predicate Printable(s: string) { forall k :: 0 <= k < |s| ==> ' ' <= s[k] <= '~' }

  lemma EscapeCharPrintable(c: char)
    ensures Printable(EscapeChar(c))
  {}

  lemma {:induction false} EscapePrintable(s: string)
    ensures Printable(Escape(s))
  {
    if s != [] {
      EscapeCharPrintable(s[0]);
      EscapePrintable(s[1..]);
    }
  }

  /** A value is written on one line of printable ASCII, whatever its strings hold. */
  lemma {:induction false} DumpsPrintable(v: Json)
    requires WellFormed(v)
    ensures Printable(Dumps(v))
    decreases v, 1
  {
    hide UniqueKeys;
    match v
    case Null =>
    case Bool(_) =>
    case Int(n) => IntTextShape(n);
    case Float(token) => FloatShape(token);
    case Str(s) => EscapePrintable(s);
    case Arr(items) => if items != [] { ItemsPrintable(items); }
    case Obj(fields) => if fields != [] { FieldsPrintable(fields); }
  }

  lemma {:induction false} ItemsPrintable(items: seq<Json>)
    requires items != [] && AllWellFormed(items)
    ensures Printable(ItemsText(items))
    decreases items, 0
  {
    DumpsPrintable(items[0]);
    if |items| > 1 { ItemsPrintable(items[1..]); }
  }

  lemma {:induction false} FieldsPrintable(fields: seq<Field>)
    requires fields != [] && FieldsWellFormed(fields)
    ensures Printable(FieldsText(fields))
    decreases fields, 0
  {
    hide Escape;
    hide Dumps;
    EscapePrintable(fields[0].key);
    DumpsPrintable(fields[0].value);
    if |fields| > 1 { FieldsPrintable(fields[1..]); }
  }

  // ----- numbers survive -----

  lemma {:induction false} DecimalShape(n: nat)
    ensures Decimal(n) != [] && AllDigits(Decimal(n)) && DecimalValue(Decimal(n)) == n
  {
    var d := Decimal(n);
    if n >= 10 {
      DecimalShape(n / 10);
      assert d[..|d| - 1] == Decimal(n / 10);
    }
  }

  lemma IntTextShape(n: int)
    ensures IntToken(IntText(n)) && IntValue(IntText(n)) == n
    ensures NumberChars(IntText(n)) && (IsDigit(IntText(n)[0]) || IntText(n)[0] == '-')
  {
    DecimalShape(if n < 0 then -n else n);
    if n < 0 {
      assert IntText(n)[1..] == Decimal(-n);
      Appended(IntText(n), 1);
    }
  }

  ghost predicate NumberChars(s: string) { forall k :: 0 <= k < |s| ==> IsNumberChar(s[k]) }

  lemma Appended(s: string, n: nat)
    requires n <= |s| && NumberChars(s[..n]) && NumberChars(s[n..])
    ensures NumberChars(s)
  {
    forall k | 0 <= k < |s| ensures IsNumberChar(s[k]) {
      assert s[k] == if k < n then s[..n][k] else s[n..][k - n];
    }
  }

  lemma FloatShape(s: string)
    requires FloatToken(s)
    ensures s != [] && NumberChars(s) && (IsDigit(s[0]) || s[0] == '-')
  {
    var t := if s != [] && s[0] == '-' then s[1..] else s;
    var f := t[DigitRun(t)..];
    var e := if f != [] && f[0] == '.' then f[1..][DigitRun(f[1..])..] else f;
    ExponentShape(e);
    if f != [] && f[0] == '.' {
      Appended(f[1..], DigitRun(f[1..]));
      Appended(f, 1);
    }
    Appended(t, DigitRun(t));
    if s[0] == '-' { Appended(s, 1); }
  }

  lemma ExponentShape(s: string)
    requires ExponentToken(s)
    ensures NumberChars(s)
  {
    if s != [] {
      var n := if |s| > 1 && IsSign(s[1]) then 2 else 1;
      Appended(s, n);
    }
  }

  /** What may follow a value: not another character of a number. */
  predicate EndsNumber(rest: string) { rest == [] || !IsNumberChar(rest[0]) }

  lemma {:induction false} NumberEndOf(token: string, rest: string)
    requires NumberChars(token)
    requires EndsNumber(rest)
    ensures NumberEnd(token + rest) == |token|
  {
    if token == [] {
      assert token + rest == rest;
    } else {
      assert (token + rest)[1..] == token[1..] + rest;
      NumberEndOf(token[1..], rest);
    }
  }

  lemma NumberRoundTrip(token: string, rest: string)
    requires IntToken(token) || FloatToken(token)
    requires NumberChars(token)
    requires token != [] && EndsNumber(rest)
    ensures ReadNumber(token + rest)
      == Some(Parsed(if IntToken(token) then Int(IntValue(token)) else Float(token), rest))
  {
    NumberEndOf(token, rest);
    assert (token + rest)[..|token|] == token && (token + rest)[|token|..] == rest;
  }

  // ----- strings survive -----

  lemma HexRoundTrip(d: nat)
    requires d < 16
    ensures IsHex(DigitChar(d)) && HexValue(DigitChar(d)) == d
  {}

  lemma UnitRoundTrip(n: nat, rest: string)
    requires n < 0x10000
    ensures ReadUnit(UnicodeEscape(n) + rest) == Some(n)
    ensures (UnicodeEscape(n) + rest)[6..] == rest
  {
    HexRoundTrip(n / 4096);
    HexRoundTrip(n / 256 % 16);
    HexRoundTrip(n / 16 % 16);
    HexRoundTrip(n % 16);
    HexDigits(n);
  }

  lemma HexDigits(n: nat)
    requires n < 0x10000
    ensures n / 4096 * 4096 + n / 256 % 16 * 256 + n / 16 % 16 * 16 + n % 16 == n
  {
    DividedTwice(n, n / 16, n / 16 / 16);
    DividedTwice(n / 16, n / 16 / 16, n / 16 / 16 / 16);
    var a, b, c := n / 16, n / 16 / 16, n / 16 / 16 / 16;
    assert n / 256 == b && n / 4096 == c by { DividedThrice(n, a, b, c); }
    assert a == 16 * b + a % 16 && b == 16 * c + b % 16 && n == 16 * a + n % 16;
  }

  lemma DividedTwice(n: nat, a: nat, b: nat)
    requires a == n / 16 && b == a / 16
    ensures n / 256 == b
  {}

  lemma DividedThrice(n: nat, a: nat, b: nat, c: nat)
    requires a == n / 16 && b == a / 16 && c == b / 16
    ensures n / 256 == b && n / 4096 == c
  {
    DividedTwice(n, a, b);
  }

  lemma UnicodeRoundTrip(c: char, rest: string)
    requires (c as int) < 0x10000
    ensures ReadUnicode(UnicodeEscape(c as int) + rest) == Some(Parsed(c, rest))
  {
    UnitRoundTrip(c as int, rest);
  }

  function HighSurrogate(c: char): (n: nat)
    requires (c as int) >= 0x10000
    ensures 0xD800 <= n < 0xDC00
  {
    0xD800 + (c as int - 0x10000) / 0x400
  }

  function LowSurrogate(c: char): (n: nat)
    requires (c as int) >= 0x10000
    ensures 0xDC00 <= n < 0xE000
    ensures 0x10000 + (HighSurrogate(c) - 0xD800) * 0x400 + (n - 0xDC00) == c as int
  {
    0xDC00 + (c as int - 0x10000) % 0x400
  }

  lemma SurrogateRoundTrip(c: char, rest: string)
    requires (c as int) >= 0x10000
    ensures ReadUnicode(UnicodeEscape(HighSurrogate(c)) + UnicodeEscape(LowSurrogate(c)) + rest) == Some(Parsed(c, rest))
  {
    var high, low := UnicodeEscape(HighSurrogate(c)), UnicodeEscape(LowSurrogate(c));
    UnitRoundTrip(HighSurrogate(c), low + rest);
    UnitRoundTrip(LowSurrogate(c), rest);
    var s := high + low + rest;
    assert s == high + (low + rest);
    assert s[6..] == low + rest;
    assert s[12..] == rest;
  }

  lemma CharRoundTrip(c: char, rest: string)
    ensures EscapeChar(c)[0] != '"'
    ensures ReadChar(EscapeChar(c) + rest) == Some(Parsed(c, rest))
  {
    hide ReadUnicode;
    hide DigitChar;
    var s := EscapeChar(c) + rest;
    if ' ' <= c <= '~' && c != '"' && c != '\\' {
      assert s[1..] == rest;
    } else if |EscapeChar(c)| == 2 {
      assert s[2..] == rest;
    } else {
      if (c as int) < 0x10000 { UnicodeRoundTrip(c, rest); } else { SurrogateRoundTrip(c, rest); }
      assert s[0] == '\\' && s[1] == 'u';
    }
  }

  lemma {:induction false} StringRoundTrip(s: string, rest: string)
    ensures ReadString(Escape(s) + "\"" + rest) == Some(Parsed(s, rest))
  {
    hide EscapeChar;
    hide ReadChar;
    var text := Escape(s) + "\"" + rest;
    if s == [] {
      assert text == "\"" + rest;
    } else {
      var tail := Escape(s[1..]) + "\"" + rest;
      assert text == EscapeChar(s[0]) + tail;
      CharRoundTrip(s[0], tail);
      StringRoundTrip(s[1..], rest);
      assert text[0] == EscapeChar(s[0])[0];
      assert s == [s[0]] + s[1..];
    }
  }

  // ----- tokens survive -----

  /** The tokens of a value's text. */
  function Tokens(v: Json): seq<Token>
    decreases v, 1
  {
    match v
    case Arr(items) => if items == [] then [Mark('['), Mark(']')] else [Mark('[')] + ItemTokens(items)
    case Obj(fields) => if fields == [] then [Mark('{'), Mark('}')] else [Mark('{')] + FieldTokens(fields)
    case _ => [Scalar(v)]
  }

  function ItemTokens(items: seq<Json>): seq<Token>
    requires items != []
    decreases items, 0
  {
    Tokens(items[0]) + if |items| == 1 then [Mark(']')] else [Mark(',')] + ItemTokens(items[1..])
  }

  function FieldTokens(fields: seq<Field>): seq<Token>
    requires fields != []
    decreases fields, 0
  {
    [Scalar(Str(fields[0].key)), Mark(':')]
    + (Tokens(fields[0].value) + if |fields| == 1 then [Mark('}')] else [Mark(',')] + FieldTokens(fields[1..]))
  }

  /** `text` reads as `ts`, whatever follows it. */
  ghost predicate LexesTo(text: string, ts: seq<Token>) {
    forall rest :: EndsNumber(rest) ==> Lex(text + rest) == Ahead(ts, Lex(rest))
  }

  lemma LexStep(s: string, p: Parsed<Token>)
    requires s != [] && !IsJsonSpace(s[0]) && LexOne(s) == Some(p)
    ensures Lex(s) == Ahead([p.value], Lex(p.rest))
  {
    hide LexOne;
  }

  lemma WordAt(word: string, rest: string, other: string)
    ensures OccursAt(word + rest, word, 0) && (word + rest)[|word|..] == rest
    ensures word != [] && other != [] && word[0] != other[0] ==> !OccursAt(word + rest, other, 0)
  {
    assert (word + rest)[0..|word|] == word;
    if word != [] && other != [] && |other| <= |word + rest| {
      assert (word + rest)[0..|other|][0] == word[0];
    }
  }

  lemma WordReads(v: Json, rest: string)
    requires v.Null? || v.Bool?
    ensures ReadWord(Dumps(v) + rest) == Some(Parsed(v, rest))
  {
    hide OccursAt;
    WordAt(Dumps(v), rest, "null");
    WordAt(Dumps(v), rest, "true");
    WordAt(Dumps(v), rest, "false");
  }

  lemma LexWord(v: Json)
    requires v.Null? || v.Bool?
    ensures LexesTo(Dumps(v), [Scalar(v)])
  {
    hide Ahead;
    hide Lex;
    hide ReadWord;
    hide ReadString;
    hide ReadNumber;
    forall rest | EndsNumber(rest) ensures Lex(Dumps(v) + rest) == Ahead([Scalar(v)], Lex(rest)) {
      var s := Dumps(v) + rest;
      assert s[0] == Dumps(v)[0];
      WordReads(v, rest);
      LexStep(s, Parsed(Scalar(v), rest));
    }
  }

  lemma LexNumber(token: string)
    requires IntToken(token) || FloatToken(token)
    requires token != [] && NumberChars(token) && (IsDigit(token[0]) || token[0] == '-')
    ensures LexesTo(token, [Scalar(if IntToken(token) then Int(IntValue(token)) else Float(token))])
  {
    hide Ahead;
    hide Lex;
    hide ReadWord;
    hide ReadString;
    hide ReadNumber;
    hide IntToken;
    hide FloatToken;
    hide IntValue;
    var v := if IntToken(token) then Int(IntValue(token)) else Float(token);
    forall rest | EndsNumber(rest) ensures Lex(token + rest) == Ahead([Scalar(v)], Lex(rest)) {
      NumberRoundTrip(token, rest);
      assert (token + rest)[0] == token[0];
      LexStep(token + rest, Parsed(Scalar(v), rest));
    }
  }

  lemma LexString(text: string)
    ensures LexesTo(Quote(text), [Scalar(Str(text))])
  {
    hide ReadString;
    hide Escape;
    hide Lex;
    hide Ahead;
    hide ReadWord;
    hide ReadNumber;
    forall rest | EndsNumber(rest) ensures Lex(Quote(text) + rest) == Ahead([Scalar(Str(text))], Lex(rest)) {
      var s := Quote(text) + rest;
      assert s[1..] == Escape(text) + "\"" + rest;
      StringRoundTrip(text, rest);
      LexStep(s, Parsed(Scalar(Str(text)), rest));
    }
  }

  lemma LexMark(c: char, rest: string)
    requires IsMark(c)
    ensures EndsNumber([c] + rest) && Lex([c] + rest) == Ahead([Mark(c)], Lex(rest))
  {
    assert ([c] + rest)[1..] == rest;
  }

  lemma LexSpacedMark(c: char, rest: string)
    requires IsMark(c)
    ensures EndsNumber([c] + " " + rest) && Lex([c] + " " + rest) == Ahead([Mark(c)], Lex(rest))
  {
    assert [c] + " " + rest == [c] + (" " + rest);
    LexMark(c, " " + rest);
    assert (" " + rest)[1..] == rest;
  }

  lemma AheadTwice(a: seq<Token>, b: seq<Token>, rest: Option<seq<Token>>)
    ensures Ahead(a, Ahead(b, rest)) == Ahead(a + b, rest)
  {
    if rest.Some? { assert a + (b + rest.value) == (a + b) + rest.value; }
  }

  /** A text, then another one that cannot continue a number. */
  lemma LexJoin(text: string, ts: seq<Token>, rest: string, more: seq<Token>, end: string)
    requires LexesTo(text, ts) && EndsNumber(rest) && Lex(rest) == Ahead(more, Lex(end))
    ensures Lex(text + rest) == Ahead(ts + more, Lex(end))
  {
    AheadTwice(ts, more, Lex(end));
  }

  /** A value's text reads as the value's tokens. */
  lemma {:induction false} LexValue(v: Json)
    requires WellFormed(v)
    ensures LexesTo(Dumps(v), Tokens(v))
    decreases v, 1
  {
    match v
    case Null => LexWord(v);
    case Bool(_) => LexWord(v);
    case Int(n) =>
      IntTextShape(n);
      LexNumber(IntText(n));
    case Float(token) =>
      FloatShape(token);
      LexNumber(token);
    case Str(text) => LexString(text);
    case Arr(items) =>
      if items == [] { LexEmpty("[]", '[', ']'); } else { LexArr(items); }
    case Obj(fields) =>
      if fields == [] { LexEmpty("{}", '{', '}'); } else { LexObj(fields); }
  }

  lemma LexEmpty(text: string, open: char, close: char)
    requires text == [open, close] && IsMark(open) && IsMark(close)
    ensures LexesTo(text, [Mark(open), Mark(close)])
  {
    forall rest | EndsNumber(rest) ensures Lex(text + rest) == Ahead([Mark(open), Mark(close)], Lex(rest)) {
      assert text + rest == [open] + ([close] + rest);
      LexMark(open, [close] + rest);
      LexMark(close, rest);
      AheadTwice([Mark(open)], [Mark(close)], Lex(rest));
      assert [Mark(open)] + [Mark(close)] == [Mark(open), Mark(close)];
    }
  }

  lemma {:induction false} LexArr(items: seq<Json>)
    requires items != [] && AllWellFormed(items)
    ensures LexesTo("[" + ItemsText(items), [Mark('[')] + ItemTokens(items))
    decreases items, 1
  {
    forall rest | EndsNumber(rest)
      ensures Lex("[" + ItemsText(items) + rest) == Ahead([Mark('[')] + ItemTokens(items), Lex(rest))
    {
      LexItems(items, rest);
      assert "[" + ItemsText(items) + rest == "[" + (ItemsText(items) + rest);
      LexMark('[', ItemsText(items) + rest);
      AheadTwice([Mark('[')], ItemTokens(items), Lex(rest));
    }
  }

  lemma {:induction false} LexObj(fields: seq<Field>)
    requires fields != [] && FieldsWellFormed(fields)
    ensures LexesTo("{" + FieldsText(fields), [Mark('{')] + FieldTokens(fields))
    decreases fields, 1
  {
    forall rest | EndsNumber(rest)
      ensures Lex("{" + FieldsText(fields) + rest) == Ahead([Mark('{')] + FieldTokens(fields), Lex(rest))
    {
      LexFields(fields, rest);
      assert "{" + FieldsText(fields) + rest == "{" + (FieldsText(fields) + rest);
      LexMark('{', FieldsText(fields) + rest);
      AheadTwice([Mark('{')], FieldTokens(fields), Lex(rest));
    }
  }

  lemma Regroup3<T>(a: seq<T>, b: seq<T>, rest: seq<T>)
    ensures (a + b) + rest == a + (b + rest)
  {}

  lemma Regroup4<T>(a: seq<T>, b: seq<T>, c: seq<T>, rest: seq<T>)
    ensures (a + (b + c)) + rest == a + (b + (c + rest))
  {}

  lemma Regroup5<T>(a: seq<T>, b: seq<T>, c: seq<T>, d: seq<T>, rest: seq<T>)
    ensures (a + (b + (c + d))) + rest == a + (b + (c + (d + rest)))
  {
    Regroup4(b, c, d, rest);
    Regroup3(a, b + (c + d), rest);
  }

  lemma Regroup6<T>(a: seq<T>, b: seq<T>, c: seq<T>, d: seq<T>, e: seq<T>, rest: seq<T>)
    ensures (a + (b + (c + (d + e)))) + rest == a + (b + (c + (d + (e + rest))))
  {
    Regroup5(b, c, d, e, rest);
    Regroup3(a, b + (c + (d + e)), rest);
  }

  /** A value's text and the bracket that closes its container. */
  lemma LexLast(text: string, ts: seq<Token>, close: char, rest: string)
    requires LexesTo(text, ts) && IsMark(close)
    ensures Lex(text + ([close] + rest)) == Ahead(ts + [Mark(close)], Lex(rest))
  {
    LexMark(close, rest);
    LexJoin(text, ts, [close] + rest, [Mark(close)], rest);
  }

  /** A value's text, a comma, and more. */
  lemma LexMore(text: string, ts: seq<Token>, tail: string, more: seq<Token>, end: string)
    requires LexesTo(text, ts) && Lex(tail) == Ahead(more, Lex(end))
    ensures Lex(text + (", " + tail)) == Ahead(ts + ([Mark(',')] + more), Lex(end))
  {
    LexSpacedMark(',', tail);
    assert "," + " " + tail == ", " + tail;
    AheadTwice([Mark(',')], more, Lex(end));
    LexJoin(text, ts, ", " + tail, [Mark(',')] + more, end);
  }

  lemma {:induction false} LexItems(items: seq<Json>, rest: string)
    requires items != [] && AllWellFormed(items)
    ensures Lex(ItemsText(items) + rest) == Ahead(ItemTokens(items), Lex(rest))
    decreases items, 0
  {
    LexValue(items[0]);
    var text, ts := Dumps(items[0]), Tokens(items[0]);
    if |items| == 1 {
      LexLast(text, ts, ']', rest);
      Regroup3(text, "]", rest);
    } else {
      var tail := ItemsText(items[1..]) + rest;
      LexItems(items[1..], rest);
      LexMore(text, ts, tail, ItemTokens(items[1..]), rest);
      Regroup4(text, ", ", ItemsText(items[1..]), rest);
    }
  }

  lemma {:induction false} LexFields(fields: seq<Field>, rest: string)
    requires fields != [] && FieldsWellFormed(fields)
    ensures Lex(FieldsText(fields) + rest) == Ahead(FieldTokens(fields), Lex(rest))
    decreases fields, 0
  {
    var key, value := fields[0].key, fields[0].value;
    var text, ts := Dumps(value), Tokens(value);
    LexString(key);
    LexValue(value);
    if |fields| == 1 {
      LexLast(text, ts, '}', rest);
      LexField(key, text + ("}" + rest), ts + [Mark('}')], rest);
      Regroup5(Quote(key), ": ", text, "}", rest);
    } else {
      var tail, more := FieldsText(fields[1..]) + rest, FieldTokens(fields[1..]);
      LexFields(fields[1..], rest);
      LexMore(text, ts, tail, more, rest);
      LexField(key, text + (", " + tail), ts + ([Mark(',')] + more), rest);
      Regroup6(Quote(key), ": ", text, ", ", FieldsText(fields[1..]), rest);
    }
  }

  lemma LexField(key: string, text: string, ts: seq<Token>, rest: string)
    requires LexesTo(Quote(key), [Scalar(Str(key))]) && Lex(text) == Ahead(ts, Lex(rest))
    ensures Lex(Quote(key) + (": " + text)) == Ahead([Scalar(Str(key)), Mark(':')] + ts, Lex(rest))
  {
    LexSpacedMark(':', text);
    assert ":" + " " + text == ": " + text;
    AheadTwice([Mark(':')], ts, Lex(rest));
    LexJoin(Quote(key), [Scalar(Str(key))], ": " + text, [Mark(':')] + ts, rest);
    assert [Scalar(Str(key))] + ([Mark(':')] + ts) == [Scalar(Str(key)), Mark(':')] + ts;
  }

  // ----- values survive -----

  lemma TokensStart(v: Json)
    ensures Tokens(v) != [] && !StartsWith(Tokens(v), ']') && !StartsWith(Tokens(v), '}')
  {}

  lemma EmptyReads(ts: seq<Token>, rest: seq<Token>)
    ensures |ts| >= 2 && ts[0] == Mark('[') && ts[1] == Mark(']') && ts[2..] == rest ==> ReadValue(ts) == Some(Read(Arr([]), rest))
    ensures |ts| >= 2 && ts[0] == Mark('{') && ts[1] == Mark('}') && ts[2..] == rest ==> ReadValue(ts) == Some(Read(Obj([]), rest))
  {
    hide ReadItems;
    hide ReadFields;
    if |ts| >= 2 { assert ts[1..][0] == ts[1]; }
  }

  lemma ArrReads(inner: seq<Token>, items: seq<Json>, rest: seq<Token>)
    requires inner != [] && !StartsWith(inner, ']') && ReadItems(inner) == Some(Read(items, rest))
    ensures ReadValue([Mark('[')] + inner) == Some(Read(Arr(items), rest))
  {
    hide ReadItems;
    hide ReadFields;
    assert ([Mark('[')] + inner)[1..] == inner;
  }

  lemma ObjReads(inner: seq<Token>, fields: seq<Field>, rest: seq<Token>)
    requires inner != [] && !StartsWith(inner, '}') && ReadFields(inner) == Some(Read(fields, rest))
    ensures ReadValue([Mark('{')] + inner) == Some(Read(Obj(fields), rest))
  {
    hide ReadItems;
    hide ReadFields;
    assert ([Mark('{')] + inner)[1..] == inner;
  }

  lemma ItemsStart(items: seq<Json>, rest: seq<Token>)
    requires items != []
    ensures ItemTokens(items) + rest != [] && !StartsWith(ItemTokens(items) + rest, ']')
  {
    TokensStart(items[0]);
  }

  lemma FieldsStart(fields: seq<Field>, rest: seq<Token>)
    requires fields != []
    ensures FieldTokens(fields) + rest != [] && !StartsWith(FieldTokens(fields) + rest, '}')
  {}

  lemma ScalarReads(v: Json, rest: seq<Token>)
    ensures ReadValue([Scalar(v)] + rest) == Some(Read(v, rest))
  {
    assert ([Scalar(v)] + rest)[1..] == rest;
  }

  /** Reading a value's tokens, whatever follows, gives the value and what follows. */
  lemma {:induction false} ValueRoundTrip(v: Json, rest: seq<Token>)
    requires WellFormed(v)
    ensures ReadValue(Tokens(v) + rest) == Some(Read(v, rest))
    decreases v, 1
  {
    hide UniqueKeys;
    hide FloatToken;
    hide ReadValue;
    hide ReadItems;
    hide ReadFields;
    hide ItemTokens;
    hide FieldTokens;
    hide StartsWith;
    hide AllWellFormed;
    hide FieldsWellFormed;
    match v
    case Arr(items) =>
      if items == [] {
        EmptyReads([Mark('['), Mark(']')] + rest, rest);
      } else {
        ItemsRoundTrip(items, rest);
        ItemsStart(items, rest);
        ArrReads(ItemTokens(items) + rest, items, rest);
        assert Tokens(v) + rest == [Mark('[')] + (ItemTokens(items) + rest);
      }
    case Obj(fields) =>
      if fields == [] {
        EmptyReads([Mark('{'), Mark('}')] + rest, rest);
      } else {
        FieldsRoundTrip(fields, rest);
        FieldsStart(fields, rest);
        ObjReads(FieldTokens(fields) + rest, fields, rest);
        assert Tokens(v) + rest == [Mark('{')] + (FieldTokens(fields) + rest);
      }
    case _ => ScalarReads(v, rest);
  }

  lemma LastItem(ts: seq<Token>, value: Json, rest: seq<Token>)
    requires ReadValue(ts + ([Mark(']')] + rest)) == Some(Read(value, [Mark(']')] + rest))
    ensures ReadItems(ts + ([Mark(']')] + rest)) == Some(Read([value], rest))
  {
    assert ([Mark(']')] + rest)[1..] == rest;
  }

  lemma MoreItems(ts: seq<Token>, value: Json, tail: seq<Token>, more: seq<Json>, rest: seq<Token>)
    requires ReadValue(ts + ([Mark(',')] + tail)) == Some(Read(value, [Mark(',')] + tail))
    requires ReadItems(tail) == Some(Read(more, rest))
    ensures ReadItems(ts + ([Mark(',')] + tail)) == Some(Read([value] + more, rest))
  {
    assert ([Mark(',')] + tail)[1..] == tail;
  }

  lemma {:induction false} ItemsRoundTrip(items: seq<Json>, rest: seq<Token>)
    requires items != [] && AllWellFormed(items)
    ensures ReadItems(ItemTokens(items) + rest) == Some(Read(items, rest))
    decreases items, 0
  {
    var ts := Tokens(items[0]);
    if |items| == 1 {
      ValueRoundTrip(items[0], [Mark(']')] + rest);
      LastItem(ts, items[0], rest);
      Regroup3(ts, [Mark(']')], rest);
      assert items == [items[0]];
    } else {
      var tail := ItemTokens(items[1..]) + rest;
      ValueRoundTrip(items[0], [Mark(',')] + tail);
      ItemsRoundTrip(items[1..], rest);
      MoreItems(ts, items[0], tail, items[1..], rest);
      Regroup4(ts, [Mark(',')], ItemTokens(items[1..]), rest);
      assert items == [items[0]] + items[1..];
    }
  }

  lemma LastField(key: string, ts: seq<Token>, value: Json, rest: seq<Token>)
    requires ReadValue(ts + ([Mark('}')] + rest)) == Some(Read(value, [Mark('}')] + rest))
    ensures ReadFields([Scalar(Str(key)), Mark(':')] + (ts + ([Mark('}')] + rest))) == Some(Read([Field(key, value)], rest))
  {
    var all := [Scalar(Str(key)), Mark(':')] + (ts + ([Mark('}')] + rest));
    assert all[1..][0] == Mark(':') && all[2..] == ts + ([Mark('}')] + rest);
    assert ([Mark('}')] + rest)[1..] == rest;
  }

  lemma MoreFields(key: string, ts: seq<Token>, value: Json, tail: seq<Token>, more: seq<Field>, rest: seq<Token>)
    requires ReadValue(ts + ([Mark(',')] + tail)) == Some(Read(value, [Mark(',')] + tail))
    requires ReadFields(tail) == Some(Read(more, rest)) && !HasKey(more, key)
    ensures ReadFields([Scalar(Str(key)), Mark(':')] + (ts + ([Mark(',')] + tail)))
      == Some(Read([Field(key, value)] + more, rest))
  {
    hide ReadValue;
    var all := [Scalar(Str(key)), Mark(':')] + (ts + ([Mark(',')] + tail));
    assert all[1..][0] == Mark(':') && all[2..] == ts + ([Mark(',')] + tail);
    assert ([Mark(',')] + tail)[1..] == tail;
  }

  lemma {:induction false} FieldsRoundTrip(fields: seq<Field>, rest: seq<Token>)
    requires fields != [] && UniqueKeys(fields) && FieldsWellFormed(fields)
    ensures ReadFields(FieldTokens(fields) + rest) == Some(Read(fields, rest))
    decreases fields, 0
  {
    var key, value := fields[0].key, fields[0].value;
    var ts := Tokens(value);
    if |fields| == 1 {
      ValueRoundTrip(value, [Mark('}')] + rest);
      LastField(key, ts, value, rest);
      Regroup4([Scalar(Str(key)), Mark(':')], ts, [Mark('}')], rest);
      assert fields == [Field(key, value)];
    } else {
      var tail := FieldTokens(fields[1..]) + rest;
      ValueRoundTrip(value, [Mark(',')] + tail);
      FieldsRoundTrip(fields[1..], rest);
      MoreFields(key, ts, value, tail, fields[1..], rest);
      Regroup5([Scalar(Str(key)), Mark(':')], ts, [Mark(',')], FieldTokens(fields[1..]), rest);
      assert fields == [Field(key, value)] + fields[1..];
    }
  }

  lemma LexWhole(text: string, ts: seq<Token>)
    requires LexesTo(text, ts)
    ensures Lex(text) == Some(ts)
  {
    assert text + [] == text;
    assert EndsNumber([]) && Lex(text + []) == Ahead(ts, Lex([]));
    assert ts + [] == ts;
  }
}
