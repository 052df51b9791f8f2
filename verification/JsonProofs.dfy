/** Rendering then parsing gives the same tree back, for every JSON tree and every spacing. */
module JsonProofs {
  import opened Wrappers
  import opened Json

  // ---------------------------------------------------------------- string literals

  lemma {:induction false} UnescapePrefix(c: char, tail: string)
    ensures Unescape(EscapeChar(c) + tail) == Prepend(c, Unescape(tail))
  {
    var raw := EscapeChar(c) + tail;
    if |EscapeChar(c)| == 2 {
      assert raw[2..] == tail;
    } else if |EscapeChar(c)| == 6 {
      assert raw[6..] == tail;
      assert raw[2..][0] == '0' && raw[2..][1] == '0';
      assert raw[2..][2] == HexDigit(c as int / 16) && raw[2..][3] == HexDigit(c as int % 16);
      assert Hex4(raw[2..]) == c as int;
    } else {
      assert raw[1..] == tail;
    }
  }

  /** Every string survives escaping and unescaping. */
  lemma {:induction false} UnescapeEscape(s: string)
    ensures Unescape(Escape(s)) == Some(s)
  {
    if s == "" {
    } else {
      UnescapePrefix(s[0], Escape(s[1..]));
      UnescapeEscape(s[1..]);
      assert [s[0]] + s[1..] == s;
    }
  }

  lemma {:induction false} RawLengthPrefix(c: char, tail: string)
    ensures RawLength(EscapeChar(c) + tail) == Shift(|EscapeChar(c)|, RawLength(tail))
  {
    var raw := EscapeChar(c) + tail;
    if |EscapeChar(c)| == 2 {
      assert raw[2..] == tail;
    } else if |EscapeChar(c)| == 6 {
      assert raw[6..] == tail;
      assert raw[2..][0] == '0' && raw[2..][1] == '0';
      assert raw[2..][2] == HexDigit(c as int / 16) && raw[2..][3] == HexDigit(c as int % 16);
    } else {
      assert raw[1..] == tail;
    }
  }

  predicate ValidRaw(raw: string) {
    RawLength(raw + "\"") == Some(|raw|)
  }

  /** Escaped text never contains an unescaped quote or control character. */
  lemma {:induction false} EscapeIsValidRaw(s: string)
    ensures ValidRaw(Escape(s))
  {
    if s == "" {
    } else {
      RawLengthPrefix(s[0], Escape(s[1..]) + "\"");
      assert Escape(s) + "\"" == EscapeChar(s[0]) + (Escape(s[1..]) + "\"");
      EscapeIsValidRaw(s[1..]);
    }
  }

  lemma {:induction false} RawLengthExtends(s: string, rest: string)
    requires RawLength(s).Some?
    ensures RawLength(s + rest) == RawLength(s)
    decreases |s|
  {
    if s[0] == '\"' {
    } else if s[0] != '\\' {
      assert (s + rest)[1..] == s[1..] + rest;
      RawLengthExtends(s[1..], rest);
    } else if IsSimpleEscape(s[1]) {
      assert (s + rest)[2..] == s[2..] + rest;
      RawLengthExtends(s[2..], rest);
    } else {
      assert (s + rest)[2..] == s[2..] + rest;
      assert (s + rest)[6..] == s[6..] + rest;
      RawLengthExtends(s[6..], rest);
    }
  }

  // ---------------------------------------------------------------- numbers

  predicate ValidNumber(lexeme: string) {
    NumberLength(lexeme) == Some(|lexeme|)
  }

  predicate ContinuesNumber(s: string) {
    s != "" && (IsDigit(s[0]) || s[0] == '.' || s[0] == 'e' || s[0] == 'E')
  }

  lemma {:induction false} DigitCountExtends(s: string, rest: string)
    requires DigitCount(s) == |s| ==> rest == "" || !IsDigit(rest[0])
    ensures DigitCount(s + rest) == DigitCount(s)
  {
    if s == "" || !IsDigit(s[0]) {
      assert s == "" ==> s + rest == rest;
    } else {
      assert (s + rest)[1..] == s[1..] + rest;
      DigitCountExtends(s[1..], rest);
    }
  }

  lemma {:induction false} FractionExtends(s: string, rest: string)
    requires FractionLength(s).Some? && !ContinuesNumber(rest)
    ensures FractionLength(s + rest) == FractionLength(s)
  {
    if s == "" {
      assert s + rest == rest;
    } else if s[0] == '.' {
      assert (s + rest)[1..] == s[1..] + rest;
      DigitCountExtends(s[1..], rest);
    }
  }

  lemma {:induction false} ExponentExtends(s: string, rest: string)
    requires ExponentLength(s).Some? && !ContinuesNumber(rest)
    ensures ExponentLength(s + rest) == ExponentLength(s)
  {
    if s == "" {
      assert s + rest == rest;
    } else if s[0] == 'e' || s[0] == 'E' {
      var sign := if |s| > 1 && (s[1] == '+' || s[1] == '-') then 1 else 0;
      assert (s + rest)[1 + sign..] == s[1 + sign..] + rest;
      assert |s| > 1;
      DigitCountExtends(s[1 + sign..], rest);
    }
  }

  lemma {:induction false} IntegerEndExtends(s: string, rest: string)
    requires !ContinuesNumber(rest) && DigitCount(s[SignLength(s)..]) > 0
    ensures SignLength(s + rest) == SignLength(s)
    ensures DigitCount((s + rest)[SignLength(s)..]) > 0
    ensures IntegerEnd(s + rest) == IntegerEnd(s)
  {
    var sign := SignLength(s);
    assert (s + rest)[sign..] == s[sign..] + rest;
    DigitCountExtends(s[sign..], rest);
  }

  lemma {:induction false} FractionAndExponentExtends(s: string, rest: string)
    requires FractionAndExponentLength(s).Some? && !ContinuesNumber(rest)
    ensures FractionAndExponentLength(s + rest) == FractionAndExponentLength(s)
  {
    FractionExtends(s, rest);
    var fraction := FractionLength(s).value;
    assert (s + rest)[fraction..] == s[fraction..] + rest;
    ExponentExtends(s[fraction..], rest);
  }

  lemma {:induction false} NumberExtends(s: string, rest: string)
    requires ValidNumber(s) && !ContinuesNumber(rest)
    ensures NumberLength(s + rest) == Some(|s|)
  {
    hide IntegerEnd, FractionAndExponentLength, ContinuesNumber;
    IntegerEndExtends(s, rest);
    assert (s + rest)[IntegerEnd(s)..] == s[IntegerEnd(s)..] + rest;
    FractionAndExponentExtends(s[IntegerEnd(s)..], rest);
  }

  // ---------------------------------------------------------------- lexing rendered pieces

  predicate ValidToken(t: Token) {
    (t.Str? ==> ValidRaw(t.raw)) && (t.Num? ==> ValidNumber(t.lexeme))
  }

  /** White space only between tokens, and some of it between two numbers. */
  predicate Lexable(ps: seq<Piece>) {
    && (forall i :: 0 <= i < |ps| ==> ValidToken(ps[i].token) && forall j :: 0 <= j < |ps[i].space| ==> IsSpace(ps[i].space[j]))
    && (forall i :: 0 < i < |ps| && ps[i - 1].token.Num? ==> ps[i].space != "" || !ps[i].token.Num?)
  }

  lemma {:induction false} LexSpace(space: string, rest: string)
    requires forall j :: 0 <= j < |space| ==> IsSpace(space[j])
    ensures Lex(space + rest) == Lex(rest)
  {
    if space == "" {
      assert space + rest == rest;
    } else {
      assert (space + rest)[1..] == space[1..] + rest;
      LexSpace(space[1..], rest);
    }
  }

  lemma {:induction false} FirstTokenString(raw: string, rest: string)
    requires ValidRaw(raw)
    ensures FirstToken("\"" + raw + "\"" + rest) == Some((Str(raw), |raw| + 2))
  {
    var s := "\"" + raw + "\"" + rest;
    RawLengthExtends(raw + "\"", rest);
    assert s[1..] == raw + "\"" + rest;
    assert s[1..1 + |raw|] == raw;
  }

  lemma NumberStart(lexeme: string)
    requires ValidNumber(lexeme)
    ensures lexeme != "" && (lexeme[0] == '-' || IsDigit(lexeme[0]))
    ensures Punctuation(lexeme[0]).None? && lexeme[0] != '\"'
  {
    assert DigitCount(lexeme[SignLength(lexeme)..]) > 0;
  }

  lemma {:induction false} FirstTokenNumber(lexeme: string, rest: string)
    requires ValidNumber(lexeme) && !ContinuesNumber(rest)
    ensures lexeme != "" && (lexeme[0] == '-' || IsDigit(lexeme[0]))
    ensures FirstToken(lexeme + rest) == Some((Num(lexeme), |lexeme|))
  {
    NumberStart(lexeme);
    NumberExtends(lexeme, rest);
    hide NumberLength, ContinuesNumber, ValidNumber, IsDigit, Punctuation, RawLength;
    var s := lexeme + rest;
    assert s[..|lexeme|] == lexeme;
    assert s[0] == lexeme[0];
  }

  lemma FirstTokenWord(t: Token, rest: string)
    requires t in [True, False, Null]
    ensures FirstToken(TokenText(t) + rest) == Some((t, |TokenText(t)|))
  {
    var s := TokenText(t) + rest;
    assert s[0] == TokenText(t)[0];
    if t == False {
      assert !("true" <= s) by { assert "true"[0] != s[0]; }
    } else if t == Null {
      assert !("true" <= s) && !("false" <= s) by { assert "true"[0] != s[0] && "false"[0] != s[0]; }
    }
  }

  lemma {:induction false} FirstTokenText(t: Token, rest: string)
    requires ValidToken(t)
    requires t.Num? ==> !ContinuesNumber(rest)
    ensures TokenText(t) != "" && !IsSpace(TokenText(t)[0])
    ensures !t.Num? ==> !ContinuesNumber(TokenText(t))
    ensures FirstToken(TokenText(t) + rest) == Some((t, |TokenText(t)|))
  {
    match t {
      case Str(raw) => FirstTokenString(raw, rest);
      case Num(lexeme) => FirstTokenNumber(lexeme, rest);
      case True => FirstTokenWord(t, rest);
      case False => FirstTokenWord(t, rest);
      case Null => FirstTokenWord(t, rest);
      case _ =>
    }
  }

  lemma {:induction false} RenderStart(ps: seq<Piece>)
    requires Lexable(ps)
    requires ps != [] ==> ps[0].space != "" || !ps[0].token.Num?
    ensures !ContinuesNumber(Render(ps))
  {
    if ps != [] {
      var piece := ps[0];
      assert Render(ps) == piece.space + (TokenText(piece.token) + Render(ps[1..]));
      if piece.space != "" {
        assert Render(ps)[0] == piece.space[0];
      } else {
        FirstTokenText(piece.token, "");
        assert Render(ps)[0] == TokenText(piece.token)[0];
      }
    }
  }

  /** Lexing what a printer wrote gives its tokens back, whatever white space it chose. */
  lemma {:induction false} LexRender(ps: seq<Piece>)
    requires Lexable(ps)
    ensures Lex(Render(ps)) == Some(TokensOf(ps))
  {
    hide ValidToken, TokenText, FirstToken;
    if ps == [] {
    } else {
      var t, tail := ps[0].token, Render(ps[1..]);
      LexRender(ps[1..]);
      if t.Num? {
        RenderStart(ps[1..]);
      }
      FirstTokenText(t, tail);
      LexSpace(ps[0].space, TokenText(t) + tail);
      assert Render(ps) == ps[0].space + (TokenText(t) + tail);
      assert (TokenText(t) + tail)[|TokenText(t)|..] == tail;
    }
  }

  // ---------------------------------------------------------------- parsing rendered trees

  lemma NoTokens()
    ensures ItemTokens([]) == [] && MemberTokens([]) == []
  {
  }

  lemma {:induction false} ParseTokens(j: Json, rest: seq<Token>)
    ensures ParseValue(Tokens(j) + rest) == Some((j, rest))
    ensures Tokens(j) != [] && Tokens(j)[0] !in [RBracket, RBrace, Comma, Colon]
    decreases j, 0
  {
    hide ParseItems, ParseMembers, ItemTokens, MemberTokens;
    NoTokens();
    var ts := Tokens(j) + rest;
    match j {
      case JArray(items) =>
        assert ts[1..] == ItemTokens(items) + [RBracket] + rest;
        if items == [] {
          assert ts[2..] == rest;
        } else {
          ParseItemTokens(items, rest);
          assert ts[1] != RBracket;
        }
      case JObject(members) =>
        assert ts[1..] == MemberTokens(members) + [RBrace] + rest;
        if members == [] {
          assert ts[2..] == rest;
        } else {
          ParseMemberTokens(members, rest);
          assert ts[1] != RBrace;
        }
      case _ =>
        assert ts[1..] == rest;
    }
  }

  lemma ItemTokensShape(items: seq<Json>, rest: seq<Token>)
    requires items != []
    ensures |items| == 1 ==> ItemTokens(items) + [RBracket] + rest == Tokens(items[0]) + ([RBracket] + rest)
    ensures |items| > 1 ==>
              ItemTokens(items) + [RBracket] + rest == Tokens(items[0]) + ([Comma] + (ItemTokens(items[1..]) + [RBracket] + rest))
  {
    hide Tokens;
    if |items| == 1 {
      assert ItemTokens(items) == Tokens(items[0]);
    } else {
      assert ItemTokens(items) == Tokens(items[0]) + ([Comma] + ItemTokens(items[1..]));
      Reassociate(Tokens(items[0]), [Comma], ItemTokens(items[1..]), [RBracket], rest);
    }
  }

  lemma ParseFirstItem(first: Json, after: seq<Token>)
    requires ParseValue(Tokens(first) + after) == Some((first, after)) && after != []
    ensures after[0] == RBracket ==> ParseItems(Tokens(first) + after) == Some(([first], after[1..]))
    ensures after[0] == Comma && ParseItems(after[1..]).Some? ==>
              ParseItems(Tokens(first) + after) == Some(([first] + ParseItems(after[1..]).value.0, ParseItems(after[1..]).value.1))
  {
    hide ParseValue, Tokens;
  }

  lemma ItemTokensStart(items: seq<Json>)
    requires items != [] && Tokens(items[0]) != []
    ensures ItemTokens(items) != [] && ItemTokens(items)[0] == Tokens(items[0])[0]
  {
    hide Tokens;
  }

  lemma {:induction false} ParseItemTokens(items: seq<Json>, rest: seq<Token>)
    requires items != []
    ensures ParseItems(ItemTokens(items) + [RBracket] + rest) == Some((items, rest))
    ensures ItemTokens(items) != [] && ItemTokens(items)[0] != RBracket
    decreases items, 1
  {
    hide ParseValue, ParseItems, Tokens, ItemTokens;
    ItemTokensShape(items, rest);
    var first := items[0];
    if |items| == 1 {
      var after := [RBracket] + rest;
      ParseTokens(first, after);
      ParseFirstItem(first, after);
      assert after[1..] == rest;
      assert items == [first];
    } else {
      var tail := ItemTokens(items[1..]) + [RBracket] + rest;
      var after := [Comma] + tail;
      ParseTokens(first, after);
      assert after[1..] == tail;
      ParseItemTokens(items[1..], rest);
      ParseFirstItem(first, after);
      assert items == [first] + items[1..];
    }
    ItemTokensStart(items);
  }

  lemma {:induction false} ParseFirstMember(first: Member, after: seq<Token>)
    requires ParseValue(Tokens(first.value) + after) == Some((first.value, after)) && after != []
    ensures after[0] == RBrace ==>
              ParseMembers([Str(first.key), Colon] + Tokens(first.value) + after) == Some(([first], after[1..]))
    ensures after[0] == Comma && ParseMembers(after[1..]).Some? ==>
              ParseMembers([Str(first.key), Colon] + Tokens(first.value) + after)
              == Some(([first] + ParseMembers(after[1..]).value.0, ParseMembers(after[1..]).value.1))
  {
    var ts := [Str(first.key), Colon] + Tokens(first.value) + after;
    assert ts[2..] == Tokens(first.value) + after;
    assert first == Member(first.key, first.value);
  }

  function MemberHead(first: Member): seq<Token> {
    [Str(first.key), Colon] + Tokens(first.value)
  }

  lemma Reassociate(head: seq<Token>, comma: seq<Token>, tail: seq<Token>, close: seq<Token>, rest: seq<Token>)
    ensures head + (comma + tail) + close + rest == head + (comma + (tail + close + rest))
  {
  }

  lemma MemberTokensShape(members: seq<Member>, rest: seq<Token>)
    requires members != []
    ensures |members| == 1 ==> MemberTokens(members) + [RBrace] + rest == MemberHead(members[0]) + ([RBrace] + rest)
    ensures |members| > 1 ==>
              MemberTokens(members) + [RBrace] + rest
              == MemberHead(members[0]) + ([Comma] + (MemberTokens(members[1..]) + [RBrace] + rest))
  {
    if |members| == 1 {
      assert MemberTokens(members) == MemberHead(members[0]);
    } else {
      assert MemberTokens(members) == MemberHead(members[0]) + ([Comma] + MemberTokens(members[1..]));
      Reassociate(MemberHead(members[0]), [Comma], MemberTokens(members[1..]), [RBrace], rest);
    }
  }

  lemma {:induction false} ParseMemberTokens(members: seq<Member>, rest: seq<Token>)
    requires members != []
    ensures ParseMembers(MemberTokens(members) + [RBrace] + rest) == Some((members, rest))
    ensures MemberTokens(members) != [] && MemberTokens(members)[0].Str?
    decreases members, 1
  {
    hide ParseValue, Tokens;
    MemberTokensShape(members, rest);
    var first := members[0];
    if |members| == 1 {
      var after := [RBrace] + rest;
      ParseTokens(first.value, after);
      ParseFirstMember(first, after);
      assert after[1..] == rest;
      assert members == [first];
    } else {
      var tail := MemberTokens(members[1..]) + [RBrace] + rest;
      var after := [Comma] + tail;
      ParseTokens(first.value, after);
      assert after[1..] == tail;
      ParseMemberTokens(members[1..], rest);
      ParseFirstMember(first, after);
      assert members == [first] + members[1..];
    }
  }

  // ---------------------------------------------------------------- whole texts

  predicate ValidJson(j: Json)
    decreases j, 0
  {
    match j
    case JNumber(lexeme) => ValidNumber(lexeme)
    case JString(raw) => ValidRaw(raw)
    case JArray(items) => forall i :: 0 <= i < |items| ==> ValidJson(items[i])
    case JObject(members) => forall i :: 0 <= i < |members| ==> ValidRaw(members[i].key) && ValidJson(members[i].value)
    case _ => true
  }

  /** Valid tokens, no two numbers adjacent. */
  predicate Printable(ts: seq<Token>) {
    && (forall i :: 0 <= i < |ts| ==> ValidToken(ts[i]))
    && (forall i :: 0 < i < |ts| && ts[i].Num? ==> !ts[i - 1].Num?)
  }

  lemma PrintableConcat(a: seq<Token>, separator: Token, b: seq<Token>)
    requires Printable(a) && Printable(b) && ValidToken(separator) && !separator.Num?
    ensures Printable(a + [separator] + b)
  {
    var ts := a + [separator] + b;
    forall i | 0 <= i < |ts| ensures ValidToken(ts[i]) && (0 < i && ts[i].Num? ==> !ts[i - 1].Num?) {
      assert ts[i] == if i < |a| then a[i] else if i == |a| then separator else b[i - |a| - 1];
      assert i > 0 ==> ts[i - 1] == if i - 1 < |a| then a[i - 1] else if i - 1 == |a| then separator else b[i - |a| - 2];
    }
  }

  lemma PrintableBracketed(open: Token, ts: seq<Token>, close: Token)
    requires Printable(ts) && !open.Num? && !open.Str? && !close.Num? && !close.Str?
    ensures Printable([open] + ts + [close])
  {
    PrintableConcat([], open, ts);
    assert [] + [open] + ts == [open] + ts;
    PrintableConcat([open] + ts, close, []);
    assert [open] + ts + [close] + [] == [open] + ts + [close];
  }

  lemma {:induction false} TokensPrintable(j: Json)
    requires ValidJson(j)
    ensures Printable(Tokens(j))
    decreases j, 0
  {
    match j {
      case JArray(items) =>
        ItemTokensPrintable(items);
        PrintableBracketed(LBracket, ItemTokens(items), RBracket);
      case JObject(members) =>
        MemberTokensPrintable(members);
        PrintableBracketed(LBrace, MemberTokens(members), RBrace);
      case _ =>
    }
  }

  lemma {:induction false} ItemTokensPrintable(items: seq<Json>)
    requires forall i :: 0 <= i < |items| ==> ValidJson(items[i])
    ensures Printable(ItemTokens(items))
    decreases items, 1
  {
    if items != [] {
      TokensPrintable(items[0]);
      if |items| == 1 {
        assert ItemTokens(items) == Tokens(items[0]);
      } else {
        ItemTokensPrintable(items[1..]);
        PrintableConcat(Tokens(items[0]), Comma, ItemTokens(items[1..]));
        assert ItemTokens(items) == Tokens(items[0]) + [Comma] + ItemTokens(items[1..]);
      }
    }
  }

  lemma NothingPrintable()
    ensures Printable([])
  {
  }

  lemma KeyPrintable(key: string)
    requires ValidRaw(key)
    ensures Printable([Str(key)])
  {
  }

  lemma {:induction false} MemberTokensPrintable(members: seq<Member>)
    requires forall i :: 0 <= i < |members| ==> ValidRaw(members[i].key) && ValidJson(members[i].value)
    ensures Printable(MemberTokens(members))
    decreases members, 1
  {
    hide ValidJson, ValidRaw, Printable, Tokens;
    NothingPrintable();
    if members != [] {
      var first := members[0];
      TokensPrintable(first.value);
      KeyPrintable(first.key);
      PrintableConcat([Str(first.key)], Colon, Tokens(first.value));
      var head := [Str(first.key)] + [Colon] + Tokens(first.value);
      if |members| == 1 {
        assert MemberTokens(members) == head;
      } else {
        MemberTokensPrintable(members[1..]);
        PrintableConcat(head, Comma, MemberTokens(members[1..]));
        assert MemberTokens(members) == head + [Comma] + MemberTokens(members[1..]);
      }
    }
  }

  /** Parsing any spacing of a tree's tokens gives the tree back. */
  lemma {:induction false} ParseRender(j: Json, ps: seq<Piece>)
    requires Lexable(ps) && TokensOf(ps) == Tokens(j)
    ensures Parse(Render(ps)) == Some(j)
  {
    LexRender(ps);
    ParseTokens(j, []);
    assert Tokens(j) + [] == Tokens(j);
  }

  /** Parsing the compact text of any JSON tree gives the tree back. */
  lemma {:induction false} ParseCompact(j: Json)
    requires ValidJson(j)
    ensures Parse(Compact(j)) == Some(j)
  {
    TokensPrintable(j);
    var ps := Unspaced(Tokens(j));
    assert TokensOf(ps) == Tokens(j);
    ParseRender(j, ps);
  }
}
