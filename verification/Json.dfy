/**
 * The subset of serde_json that the wire codecs rest on (RFC 8259): a lexer, a parser for
 * JSON trees, a renderer, and string escaping. A text is a sequence of Unicode scalar values.
 * String tokens keep their raw (still escaped) text, because serde_json does not decode the
 * strings of a field it ignores.
 */
module Json {
  import opened Wrappers

  datatype Token =
    | LBrace | RBrace | LBracket | RBracket | Colon | Comma
    | True | False | Null
    | Num(lexeme: string)
    | Str(raw: string)

  datatype Json =
    | JNull
    | JBool(b: bool)
    | JNumber(lexeme: string)
    | JString(raw: string)
    | JArray(items: seq<Json>)
    | JObject(members: seq<Member>)

  datatype Member = Member(key: string, value: Json)

  // ---------------------------------------------------------------- characters

  predicate IsSpace(c: char) { c == ' ' || c == '\n' || c == '\t' || c == '\r' }

  predicate IsDigit(c: char) { '0' <= c <= '9' }

  predicate IsHex(c: char) { IsDigit(c) || 'a' <= c <= 'f' || 'A' <= c <= 'F' }

  predicate IsSimpleEscape(c: char) { c in "\"\\/bfnrt" }

  function HexValue(c: char): (v: nat)
    requires IsHex(c)
    ensures v < 16
  {
    if IsDigit(c) then c as int - '0' as int
    else if 'a' <= c <= 'f' then c as int - 'a' as int + 10
    else c as int - 'A' as int + 10
  }

  function HexDigit(v: nat): (c: char)
    requires v < 16
    ensures IsHex(c) && HexValue(c) == v
  {
    if v < 10 then ('0' as int + v) as char else ('a' as int + (v - 10)) as char
  }

  predicate StartsWithHex4(s: string) {
    |s| >= 4 && IsHex(s[0]) && IsHex(s[1]) && IsHex(s[2]) && IsHex(s[3])
  }

  function Hex4(s: string): (v: nat)
    requires StartsWithHex4(s)
    ensures v < 0x1_0000
  {
    ((HexValue(s[0]) * 16 + HexValue(s[1])) * 16 + HexValue(s[2])) * 16 + HexValue(s[3])
  }

  // ---------------------------------------------------------------- string escapes

  /** How serde_json writes one character inside a string literal. */
  function EscapeChar(c: char): string {
    if c == '\"' then "\\\""
    else if c == '\\' then "\\\\"
    else if c == 8 as char then "\\b"
    else if c == 9 as char then "\\t"
    else if c == 10 as char then "\\n"
    else if c == 12 as char then "\\f"
    else if c == 13 as char then "\\r"
    else if c < ' ' then
      var n := c as int;
      "\\u00" + [HexDigit(n / 16), HexDigit(n % 16)]
    else [c]
  }

  function Escape(s: string): string {
    if s == "" then "" else EscapeChar(s[0]) + Escape(s[1..])
  }

  function SimpleEscapeValue(c: char): char {
    if c == 'b' then 8 as char
    else if c == 'f' then 12 as char
    else if c == 'n' then 10 as char
    else if c == 'r' then 13 as char
    else if c == 't' then 9 as char
    else c
  }

  /** Decodes the text between the quotes of a string literal; lone surrogates are errors. */
  function Unescape(raw: string): Option<string> {
    if raw == "" then Some("")
    else if raw[0] == '\"' || raw[0] < ' ' then None
    else if raw[0] != '\\' then Prepend(raw[0], Unescape(raw[1..]))
    else if |raw| < 2 then None
    else if IsSimpleEscape(raw[1]) then Prepend(SimpleEscapeValue(raw[1]), Unescape(raw[2..]))
    else if raw[1] != 'u' || !StartsWithHex4(raw[2..]) then None
    else
      var n := Hex4(raw[2..]);
      if n < 0xD800 || 0xE000 <= n then Prepend(n as char, Unescape(raw[6..]))
      else if 0xDC00 <= n || |raw| < 12 || raw[6] != '\\' || raw[7] != 'u' || !StartsWithHex4(raw[8..]) then None
      else
        var low := Hex4(raw[8..]);
        if low < 0xDC00 || 0xDFFF < low then None
        else Prepend((0x1_0000 + (n - 0xD800) * 0x400 + (low - 0xDC00)) as char, Unescape(raw[12..]))
  }

  function Prepend(c: char, tail: Option<string>): Option<string> {
    match tail
    case None => None
    case Some(t) => Some([c] + t)
  }

  // ---------------------------------------------------------------- lexer

  /** The length of the raw text of a string literal whose opening quote has been read. */
  function RawLength(s: string): (n: Option<nat>)
    ensures n.Some? ==> n.value < |s| && s[n.value] == '\"'
  {
    if s == "" then None
    else if s[0] == '\"' then Some(0)
    else if s[0] < ' ' then None
    else if s[0] != '\\' then Shift(1, RawLength(s[1..]))
    else if |s| < 2 then None
    else if IsSimpleEscape(s[1]) then Shift(2, RawLength(s[2..]))
    else if s[1] == 'u' && StartsWithHex4(s[2..]) then Shift(6, RawLength(s[6..]))
    else None
  }

  function Shift(k: nat, n: Option<nat>): Option<nat> {
    match n
    case None => None
    case Some(v) => Some(k + v)
  }

  function DigitCount(s: string): (n: nat)
    ensures n <= |s|
    ensures forall i :: 0 <= i < n ==> IsDigit(s[i])
    ensures n < |s| ==> !IsDigit(s[n])
  {
    if s != "" && IsDigit(s[0]) then 1 + DigitCount(s[1..]) else 0
  }

  function SignLength(s: string): nat {
    if s != "" && s[0] == '-' then 1 else 0
  }

  /** Where the integer part of a number ends; a leading zero stands alone. */
  function IntegerEnd(s: string): (n: nat)
    requires DigitCount(s[SignLength(s)..]) > 0
    ensures SignLength(s) < n <= |s|
  {
    SignLength(s) + if s[SignLength(s)] == '0' then 1 else DigitCount(s[SignLength(s)..])
  }

  /** The length of the number at the head of s: an optional minus, an integer part without
      superfluous leading zero, an optional fraction, an optional exponent. */
  function NumberLength(s: string): (n: Option<nat>)
    ensures n.Some? ==> 0 < n.value <= |s|
  {
    if DigitCount(s[SignLength(s)..]) == 0 then None
    else Shift(IntegerEnd(s), FractionAndExponentLength(s[IntegerEnd(s)..]))
  }

  function FractionAndExponentLength(s: string): (n: Option<nat>)
    ensures n.Some? ==> n.value <= |s|
  {
    match FractionLength(s)
    case None => None
    case Some(fraction) => Shift(fraction, ExponentLength(s[fraction..]))
  }

  function FractionLength(s: string): (n: Option<nat>)
    ensures n.Some? ==> n.value <= |s|
  {
    if s == "" || s[0] != '.' then Some(0)
    else
      var digits := DigitCount(s[1..]);
      if digits == 0 then None else Some(1 + digits)
  }

  function ExponentLength(s: string): (n: Option<nat>)
    ensures n.Some? ==> n.value <= |s|
  {
    if s == "" || (s[0] != 'e' && s[0] != 'E') then Some(0)
    else
      var sign := if |s| > 1 && (s[1] == '+' || s[1] == '-') then 1 else 0;
      var digits := DigitCount(s[1 + sign..]);
      if digits == 0 then None else Some(1 + sign + digits)
  }

  function Punctuation(c: char): Option<Token> {
    match c
    case '{' => Some(LBrace)
    case '}' => Some(RBrace)
    case '[' => Some(LBracket)
    case ']' => Some(RBracket)
    case ':' => Some(Colon)
    case ',' => Some(Comma)
    case _ => None
  }

  /** The first token of a text that does not start with white space, and its length. */
  function FirstToken(s: string): (r: Option<(Token, nat)>)
    requires s != ""
    ensures r.Some? ==> 0 < r.value.1 <= |s|
  {
    if Punctuation(s[0]).Some? then Some((Punctuation(s[0]).value, 1))
    else if s[0] == '\"' then
      match RawLength(s[1..])
      case None => None
      case Some(n) => Some((Str(s[1..1 + n]), n + 2))
    else if s[0] == '-' || IsDigit(s[0]) then
      match NumberLength(s)
      case None => None
      case Some(n) => Some((Num(s[..n]), n))
    else if "true" <= s then Some((True, 4))
    else if "false" <= s then Some((False, 5))
    else if "null" <= s then Some((Null, 4))
    else None
  }

  function Lex(s: string): Option<seq<Token>>
    decreases |s|
  {
    if s == "" then Some([])
    else if IsSpace(s[0]) then Lex(s[1..])
    else
      match FirstToken(s)
      case None => None
      case Some((token, n)) =>
        match Lex(s[n..])
        case None => None
        case Some(tokens) => Some([token] + tokens)
  }

  // ---------------------------------------------------------------- parser

  /** Parses one value from the head of ts and returns it with the tokens that follow. */
  function ParseValue(ts: seq<Token>): (r: Option<(Json, seq<Token>)>)
    ensures r.Some? ==> |r.value.1| < |ts|
    decreases |ts|, 0
  {
    if ts == [] then None
    else
      match ts[0]
      case Null => Some((JNull, ts[1..]))
      case True => Some((JBool(true), ts[1..]))
      case False => Some((JBool(false), ts[1..]))
      case Num(lexeme) => Some((JNumber(lexeme), ts[1..]))
      case Str(raw) => Some((JString(raw), ts[1..]))
      case LBracket =>
        if |ts| > 1 && ts[1] == RBracket then Some((JArray([]), ts[2..]))
        else
          (match ParseItems(ts[1..])
           case None => None
           case Some((items, rest)) => Some((JArray(items), rest)))
      case LBrace =>
        if |ts| > 1 && ts[1] == RBrace then Some((JObject([]), ts[2..]))
        else
          (match ParseMembers(ts[1..])
           case None => None
           case Some((members, rest)) => Some((JObject(members), rest)))
      case _ => None
  }

  /** One or more values separated by commas, up to and including the closing bracket. */
  function ParseItems(ts: seq<Token>): (r: Option<(seq<Json>, seq<Token>)>)
    ensures r.Some? ==> |r.value.1| < |ts|
    decreases |ts|, 1
  {
    match ParseValue(ts)
    case None => None
    case Some((item, rest)) =>
      if rest == [] then None
      else if rest[0] == RBracket then Some(([item], rest[1..]))
      else if rest[0] == Comma then
        (match ParseItems(rest[1..])
         case None => None
         case Some((items, rest')) => Some(([item] + items, rest')))
      else None
  }

  /** One or more members separated by commas, up to and including the closing brace. */
  function ParseMembers(ts: seq<Token>): (r: Option<(seq<Member>, seq<Token>)>)
    ensures r.Some? ==> |r.value.1| < |ts|
    decreases |ts|, 1
  {
    if |ts| < 2 || !ts[0].Str? || ts[1] != Colon then None
    else
      match ParseValue(ts[2..])
      case None => None
      case Some((value, rest)) =>
        if rest == [] then None
        else if rest[0] == RBrace then Some(([Member(ts[0].raw, value)], rest[1..]))
        else if rest[0] == Comma then
          (match ParseMembers(rest[1..])
           case None => None
           case Some((members, rest')) => Some(([Member(ts[0].raw, value)] + members, rest')))
        else None
  }

  /** A whole text: one value and nothing but white space after it. */
  function Parse(s: string): Option<Json> {
    match Lex(s)
    case None => None
    case Some(ts) =>
      match ParseValue(ts)
      case None => None
      case Some((value, rest)) => if rest == [] then Some(value) else None
  }

  // ---------------------------------------------------------------- rendering

  function TokenText(t: Token): string {
    match t
    case LBrace => "{"
    case RBrace => "}"
    case LBracket => "["
    case RBracket => "]"
    case Colon => ":"
    case Comma => ","
    case True => "true"
    case False => "false"
    case Null => "null"
    case Num(lexeme) => lexeme
    case Str(raw) => "\"" + raw + "\""
  }

  function Tokens(j: Json): seq<Token>
    decreases j, 0
  {
    match j
    case JNull => [Null]
    case JBool(b) => [if b then True else False]
    case JNumber(lexeme) => [Num(lexeme)]
    case JString(raw) => [Str(raw)]
    case JArray(items) => [LBracket] + ItemTokens(items) + [RBracket]
    case JObject(members) => [LBrace] + MemberTokens(members) + [RBrace]
  }

  function ItemTokens(items: seq<Json>): seq<Token>
    decreases items, 1
  {
    if items == [] then []
    else Tokens(items[0]) + (if |items| == 1 then [] else [Comma] + ItemTokens(items[1..]))
  }

  function MemberTokens(members: seq<Member>): seq<Token>
    decreases members, 1
  {
    if members == [] then []
    else
      [Str(members[0].key), Colon] + Tokens(members[0].value)
      + (if |members| == 1 then [] else [Comma] + MemberTokens(members[1..]))
  }

  /** A token with the white space a printer writes before it. */
  datatype Piece = Piece(space: string, token: Token)

  function Render(ps: seq<Piece>): string {
    if ps == [] then "" else ps[0].space + TokenText(ps[0].token) + Render(ps[1..])
  }

  function TokensOf(ps: seq<Piece>): (ts: seq<Token>)
    ensures |ts| == |ps|
    ensures forall i :: 0 <= i < |ps| ==> ts[i] == ps[i].token
  {
    if ps == [] then [] else [ps[0].token] + TokensOf(ps[1..])
  }

  function Unspaced(ts: seq<Token>): (ps: seq<Piece>)
    ensures |ps| == |ts|
    ensures forall i :: 0 <= i < |ts| ==> ps[i] == Piece("", ts[i])
  {
    seq(|ts|, i requires 0 <= i < |ts| => Piece("", ts[i]))
  }

  /** What serde_json::to_vec writes: no white space at all. */
  function Compact(j: Json): string {
    Render(Unspaced(Tokens(j)))
  }
}
