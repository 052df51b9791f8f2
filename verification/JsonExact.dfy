/** The parser accepts exactly the JSON texts (sections 2 to 7 of RFC 8259): any white space between
    the tokens of a value, and nothing else. */
module JsonExact {
  import opened Wrappers
  import opened Json
  import opened JsonProofs

  predicate Blank(s: string) {
    forall i :: 0 <= i < |s| ==> IsSpace(s[i])
  }

  /** The text spells the value: its tokens in order, with white space before, between and after. */
  predicate Spells(text: string, j: Json, ps: seq<Piece>, trail: string) {
    Lexable(ps) && TokensOf(ps) == Tokens(j) && Blank(trail) && text == Render(ps) + trail
  }

  ghost predicate IsTextOf(text: string, j: Json) {
    exists ps: seq<Piece>, trail: string :: Spells(text, j, ps, trail)
  }

  /** White space is exactly space, line feed, tab and carriage return. */
  lemma WhiteSpace(c: char)
    ensures IsSpace(c) <==> c in " \n\t\r"
  {
  }

  // ---------------------------------------------------------------- every spelling is read

  lemma {:induction false} LexBlank(trail: string)
    requires Blank(trail)
    ensures Lex(trail) == Some([])
  {
    LexSpace(trail, "");
    assert trail + "" == trail;
  }

  lemma StartsBlank(ps: seq<Piece>, trail: string)
    requires Lexable(ps) && Blank(trail) && (ps != [] ==> ps[0].space != "" || !ps[0].token.Num?)
    ensures !ContinuesNumber(Render(ps) + trail)
  {
    RenderStart(ps);
    if ps != [] {
      FirstTokenText(ps[0].token, " ");
      assert Render(ps) != "";
      assert (Render(ps) + trail)[0] == Render(ps)[0];
    }
  }

  lemma {:induction false} LexSpelled(ps: seq<Piece>, trail: string)
    requires Lexable(ps) && Blank(trail)
    ensures Lex(Render(ps) + trail) == Some(TokensOf(ps))
  {
    hide ValidToken, TokenText, FirstToken, ContinuesNumber;
    if ps == [] {
      LexBlank(trail);
      assert Render(ps) + trail == trail;
    } else {
      var t, tail := ps[0].token, Render(ps[1..]) + trail;
      LexSpelled(ps[1..], trail);
      if t.Num? {
        StartsBlank(ps[1..], trail);
      }
      FirstTokenText(t, tail);
      LexSpace(ps[0].space, TokenText(t) + tail);
      assert Render(ps) + trail == ps[0].space + (TokenText(t) + tail);
      assert (TokenText(t) + tail)[|TokenText(t)|..] == tail;
    }
  }

  // ---------------------------------------------------------------- nothing else is read

  lemma {:induction false} RawLengthCut(s: string)
    requires RawLength(s).Some?
    ensures RawLength(s[..RawLength(s).value + 1]) == RawLength(s)
    decreases |s|
  {
    var n := RawLength(s).value + 1;
    if s[0] == '\"' {
    } else {
      var k := if s[0] != '\\' then 1 else if IsSimpleEscape(s[1]) then 2 else 6;
      RawLengthCut(s[k..]);
      assert s[..n][k..] == s[k..][..n - k];
      if k == 6 {
        assert s[..n][2..][..4] == s[2..][..4];
      }
    }
  }

  lemma {:induction false} DigitCountCut(s: string, n: nat)
    requires DigitCount(s) <= n <= |s|
    ensures DigitCount(s[..n]) == DigitCount(s)
  {
    if n > 0 && IsDigit(s[0]) {
      DigitCountCut(s[1..], n - 1);
      assert s[..n][1..] == s[1..][..n - 1];
    }
  }

  lemma FractionCut(s: string, n: nat)
    requires FractionLength(s).Some? && FractionLength(s).value <= n <= |s|
    ensures FractionLength(s[..n]) == FractionLength(s)
  {
    if s != "" && s[0] == '.' {
      DigitCountCut(s[1..], n - 1);
      assert s[..n][1..] == s[1..][..n - 1];
    }
  }

  lemma ExponentCut(s: string)
    requires ExponentLength(s).Some?
    ensures ExponentLength(s[..ExponentLength(s).value]) == ExponentLength(s)
  {
    var n := ExponentLength(s).value;
    if s != "" && (s[0] == 'e' || s[0] == 'E') {
      var sign := if |s| > 1 && (s[1] == '+' || s[1] == '-') then 1 else 0;
      DigitCountCut(s[1 + sign..], n - 1 - sign);
      assert s[..n][1 + sign..] == s[1 + sign..][..n - 1 - sign];
    }
  }

  lemma StartsWithDigit(s: string)
    requires s != "" && IsDigit(s[0])
    ensures DigitCount(s) > 0
  {
  }

  lemma CutSlice(s: string, a: nat, n: nat)
    requires a <= n <= |s|
    ensures s[..n][a..] == s[a..][..n - a]
  {
  }

  lemma WholeCut(s: string, n: nat)
    requires DigitCount(s[SignLength(s)..]) > 0 && IntegerEnd(s) <= n <= |s|
    ensures SignLength(s[..n]) == SignLength(s) && DigitCount(s[..n][SignLength(s)..]) > 0 && IntegerEnd(s[..n]) == IntegerEnd(s)
  {
    var sign, cut := SignLength(s), s[..n];
    assert cut[0] == s[0] && cut[sign] == s[sign];
    CutSlice(s, sign, n);
    if s[sign] == '0' {
      StartsWithDigit(cut[sign..]);
    } else {
      DigitCountCut(s[sign..], n - sign);
    }
  }

  lemma NumberSplits(s: string)
    requires NumberLength(s).Some?
    ensures DigitCount(s[SignLength(s)..]) > 0 && FractionLength(s[IntegerEnd(s)..]).Some?
    ensures var tail, fraction := s[IntegerEnd(s)..], FractionLength(s[IntegerEnd(s)..]).value;
            && ExponentLength(tail[fraction..]).Some?
            && NumberLength(s) == Some(IntegerEnd(s) + fraction + ExponentLength(tail[fraction..]).value)
  {
    hide DigitCount, FractionLength, ExponentLength, IntegerEnd, SignLength;
  }

  lemma NumberCut(s: string)
    requires NumberLength(s).Some?
    ensures ValidNumber(s[..NumberLength(s).value])
  {
    hide DigitCount, FractionLength, ExponentLength, IntegerEnd, SignLength, NumberLength, ValidNumber;
    NumberSplits(s);
    var n, whole := NumberLength(s).value, IntegerEnd(s);
    var tail, cut := s[whole..], s[..n];
    var fraction := FractionLength(tail).value;
    var exponent := ExponentLength(tail[fraction..]).value;
    WholeCut(s, n);
    CutSlice(s, whole, n);
    FractionCut(tail, n - whole);
    ExponentCut(tail[fraction..]);
    CutSlice(tail, fraction, n - whole);
    LengthOfParts(cut, cut[whole..], fraction, exponent);
  }

  lemma FirstTokenSound(s: string)
    requires s != "" && FirstToken(s).Some?
    ensures var (t, n) := FirstToken(s).value; TokenText(t) == s[..n] && ValidToken(t)
  {
    hide RawLength, NumberLength;
    if Punctuation(s[0]).Some? {
    } else if s[0] == '\"' {
      var n := RawLength(s[1..]).value;
      RawLengthCut(s[1..]);
      assert s[1..][..n + 1] == s[1..1 + n] + "\"";
      assert "\"" + s[1..1 + n] + "\"" == s[..n + 2];
    } else if s[0] == '-' || IsDigit(s[0]) {
      NumberCut(s);
    }
  }

  /** The text is these pieces and some white space, and every piece is a valid token. */
  predicate Reads(s: string, ps: seq<Piece>, trail: string, ts: seq<Token>) {
    && s == Render(ps) + trail && TokensOf(ps) == ts && Blank(trail)
    && forall i :: 0 <= i < |ps| ==> ValidToken(ps[i].token) && Blank(ps[i].space)
  }

  lemma ReadsSpace(s: string, c: char, ps: seq<Piece>, trail: string, ts: seq<Token>) returns (ps': seq<Piece>, trail': string)
    requires IsSpace(c) && Reads(s, ps, trail, ts)
    ensures Reads([c] + s, ps', trail', ts)
  {
    hide ValidToken, TokenText;
    if ps == [] {
      ps', trail' := [], [c] + trail;
    } else {
      var first := Piece([c] + ps[0].space, ps[0].token);
      ps', trail' := [first] + ps[1..], trail;
      assert ps'[1..] == ps[1..];
      assert Render(ps') == [c] + Render(ps);
    }
  }

  lemma ReadsToken(s: string, t: Token, ps: seq<Piece>, trail: string, ts: seq<Token>) returns (ps': seq<Piece>)
    requires ValidToken(t) && Reads(s, ps, trail, ts)
    ensures Reads(TokenText(t) + s, ps', trail, [t] + ts)
  {
    hide ValidToken, TokenText;
    ps' := [Piece("", t)] + ps;
    assert ps'[1..] == ps;
    assert Render(ps') == TokenText(t) + Render(ps);
  }

  lemma {:induction false} LexSound(s: string) returns (ps: seq<Piece>, trail: string)
    requires Lex(s).Some?
    ensures Reads(s, ps, trail, Lex(s).value)
    decreases |s|
  {
    hide FirstToken, TokenText, ValidToken, Reads;
    if s == "" {
      ps, trail := [], "";
      ReadsNothing();
    } else if IsSpace(s[0]) {
      ps, trail := LexSound(s[1..]);
      ps, trail := ReadsSpace(s[1..], s[0], ps, trail, Lex(s).value);
      assert s == [s[0]] + s[1..];
    } else {
      var (t, n) := FirstToken(s).value;
      FirstTokenSound(s);
      ps, trail := LexSound(s[n..]);
      ps := ReadsToken(s[n..], t, ps, trail, Lex(s[n..]).value);
      assert s == s[..n] + s[n..];
    }
  }

  lemma ReadsNothing()
    ensures Reads("", [], "", [])
  {
  }

  lemma {:induction false} ParseSound(ts: seq<Token>)
    requires ParseValue(ts).Some?
    ensures ts == Tokens(ParseValue(ts).value.0) + ParseValue(ts).value.1
    decreases |ts|, 0
  {
    hide ParseItems, ParseMembers, ItemTokens, MemberTokens;
    NoTokens();
    if ts[0] == LBracket && !(|ts| > 1 && ts[1] == RBracket) {
      ParseItemsSound(ts[1..]);
    } else if ts[0] == LBrace && !(|ts| > 1 && ts[1] == RBrace) {
      ParseMembersSound(ts[1..]);
    }
  }

  lemma {:induction false} ParseItemsSound(ts: seq<Token>)
    requires ParseItems(ts).Some?
    ensures ts == ItemTokens(ParseItems(ts).value.0) + [RBracket] + ParseItems(ts).value.1
    decreases |ts|, 1
  {
    hide ParseValue, Tokens;
    ParseSound(ts);
    var (item, rest) := ParseValue(ts).value;
    if rest[0] == Comma {
      ParseItemsSound(rest[1..]);
    }
  }

  lemma {:induction false} ParseMembersSound(ts: seq<Token>)
    requires ParseMembers(ts).Some?
    ensures ts == MemberTokens(ParseMembers(ts).value.0) + [RBrace] + ParseMembers(ts).value.1
    decreases |ts|, 1
  {
    hide ParseValue, Tokens;
    ParseSound(ts[2..]);
    var (value, rest) := ParseValue(ts[2..]).value;
    if rest[0] == Comma {
      ParseMembersSound(rest[1..]);
    }
  }

  // ---------------------------------------------------------------- both halves

  predicate AllValid(ts: seq<Token>) {
    forall i :: 0 <= i < |ts| ==> ValidToken(ts[i])
  }

  lemma InnerValid(open: Token, ts: seq<Token>, close: Token)
    requires AllValid([open] + ts + [close])
    ensures AllValid(ts)
  {
    hide ValidToken;
    forall i | 0 <= i < |ts| ensures ValidToken(ts[i]) {
      assert ([open] + ts + [close])[i + 1] == ts[i];
    }
  }

  lemma {:induction false} ValidValue(j: Json)
    requires AllValid(Tokens(j))
    ensures ValidJson(j)
    decreases j, 0
  {
    hide ItemTokens, MemberTokens, ValidRaw, ValidNumber;
    match j {
      case JNumber(lexeme) => assert ValidToken(Tokens(j)[0]);
      case JString(raw) => assert ValidToken(Tokens(j)[0]);
      case JArray(items) =>
        InnerValid(LBracket, ItemTokens(items), RBracket);
        ValidItems(items);
      case JObject(members) =>
        InnerValid(LBrace, MemberTokens(members), RBrace);
        ValidMembers(members);
      case _ =>
    }
  }

  lemma {:induction false} ValidItems(items: seq<Json>)
    requires AllValid(ItemTokens(items))
    ensures forall i :: 0 <= i < |items| ==> ValidJson(items[i])
    decreases items, 1
  {
    hide ValidToken, ValidJson, Tokens;
    if items != [] {
      var ts, first := ItemTokens(items), Tokens(items[0]);
      forall i | 0 <= i < |first| ensures ValidToken(first[i]) {
        assert first[i] == ts[i];
      }
      ValidValue(items[0]);
      if |items| > 1 {
        var rest := ItemTokens(items[1..]);
        forall i | 0 <= i < |rest| ensures ValidToken(rest[i]) {
          assert rest[i] == ts[|first| + 1 + i];
        }
        ValidItems(items[1..]);
      }
    }
  }

  lemma {:induction false} ValidMembers(members: seq<Member>)
    requires AllValid(MemberTokens(members))
    ensures forall i :: 0 <= i < |members| ==> ValidRaw(members[i].key) && ValidJson(members[i].value)
    decreases members, 1
  {
    hide ValidRaw, ValidJson, Tokens, ValidNumber;
    if members != [] {
      var ts, first := MemberTokens(members), Tokens(members[0].value);
      assert ts[0] == Str(members[0].key) && ValidToken(ts[0]);
      forall i | 0 <= i < |first| ensures ValidToken(first[i]) {
        assert first[i] == ts[2 + i];
      }
      ValidValue(members[0].value);
      if |members| > 1 {
        var rest := MemberTokens(members[1..]);
        forall i | 0 <= i < |rest| ensures ValidToken(rest[i]) {
          assert rest[i] == ts[|first| + 3 + i];
        }
        ValidMembers(members[1..]);
      }
    }
  }

  lemma ReadsSpells(s: string, j: Json, ps: seq<Piece>, trail: string)
    requires Reads(s, ps, trail, Tokens(j))
    ensures Spells(s, j, ps, trail)
  {
    hide ValidToken, Render;
    forall i | 0 <= i < |Tokens(j)| ensures ValidToken(Tokens(j)[i]) {
      assert TokensOf(ps)[i] == ps[i].token;
    }
    ValidValue(j);
    TokensPrintable(j);
  }

  /** A text is read as a value exactly when it spells that value. */
  lemma ParseExactly(text: string, j: Json)
    ensures Parse(text) == Some(j) <==> IsTextOf(text, j)
  {
    hide Lex, ParseValue, Tokens, Render, Spells;
    if Parse(text) == Some(j) {
      var ps, trail := LexSound(text);
      ParseSound(Lex(text).value);
      assert Tokens(j) + [] == Tokens(j);
      ReadsSpells(text, j, ps, trail);
    }
    if IsTextOf(text, j) {
      var ps, trail :| Spells(text, j, ps, trail);
      SpelledIsRead(text, j, ps, trail);
    }
  }

  lemma SpelledIsRead(text: string, j: Json, ps: seq<Piece>, trail: string)
    requires Spells(text, j, ps, trail)
    ensures Parse(text) == Some(j)
  {
    hide Lex, ParseValue, Tokens, Render, Lexable;
    LexSpelled(ps, trail);
    ParseTokens(j, []);
    assert Tokens(j) + [] == Tokens(j);
  }

  /** The three literal names. */
  lemma LiteralsSpelled()
    ensures Parse("true") == Some(JBool(true)) && Parse("false") == Some(JBool(false)) && Parse("null") == Some(JNull)
  {
    hide Lex;
    LiteralRead("true", JBool(true), True);
    LiteralRead("false", JBool(false), False);
    LiteralRead("null", JNull, Null);
  }

  lemma LiteralRead(text: string, j: Json, t: Token)
    requires Tokens(j) == [t] && TokenText(t) == text && ValidJson(j)
    ensures Parse(text) == Some(j)
  {
    hide Parse, TokenText, Tokens;
    var ps := [Piece("", t)];
    assert ps[1..] == [] && "" + text + "" == text;
    assert Render([]) == "" && Render(ps) == text;
    TokensPrintable(j);
    assert ValidToken(Tokens(j)[0]);
    ParseRender(j, ps);
  }

  // ---------------------------------------------------------------- numbers

  predicate AllDigit(s: string) {
    s != "" && forall i :: 0 <= i < |s| ==> '0' <= s[i] <= '9'
  }

  /** The parts of a number in section 6 of RFC 8259. */
  predicate NumberParts(sign: string, whole: string, fraction: string, exponent: string) {
    && (sign == "" || sign == "-")
    && AllDigit(whole) && (whole[0] != '0' || whole == "0")
    && (fraction == "" || (fraction[0] == '.' && AllDigit(fraction[1..])))
    && (exponent == ""
        || (|exponent| > 1 && (exponent[0] == 'e' || exponent[0] == 'E')
            && AllDigit(if exponent[1] == '+' || exponent[1] == '-' then exponent[2..] else exponent[1..])))
  }

  lemma {:induction false} CountsAll(s: string, rest: string)
    requires AllDigit(s) && (rest == "" || !IsDigit(rest[0]))
    ensures DigitCount(s + rest) == |s|
  {
    if |s| > 1 {
      assert (s + rest)[1..] == s[1..] + rest;
      CountsAll(s[1..], rest);
    } else {
      assert (s + rest)[1..] == rest;
    }
  }

  lemma FractionSpelled(fraction: string, exponent: string)
    requires NumberParts("", "0", fraction, exponent)
    ensures FractionLength(fraction + exponent) == Some(|fraction|)
  {
    if fraction != "" {
      CountsAll(fraction[1..], exponent);
      assert (fraction + exponent)[1..] == fraction[1..] + exponent;
    } else {
      assert fraction + exponent == exponent;
    }
  }

  lemma ExponentSpelled(exponent: string)
    requires NumberParts("", "0", "", exponent)
    ensures ExponentLength(exponent) == Some(|exponent|)
  {
    if exponent != "" {
      var sign := if exponent[1] == '+' || exponent[1] == '-' then 1 else 0;
      CountsAll(exponent[1 + sign..], "");
      assert exponent[1 + sign..] + "" == exponent[1 + sign..];
    }
  }

  predicate WholeNumber(whole: string) {
    AllDigit(whole) && (whole[0] != '0' || whole == "0")
  }

  lemma WholeSpelled(sign: string, whole: string, tail: string)
    requires (sign == "" || sign == "-") && WholeNumber(whole) && (tail == "" || !IsDigit(tail[0]))
    ensures var s := sign + (whole + tail);
            && SignLength(s) == |sign| && s[|sign|..] == whole + tail && DigitCount(s[|sign|..]) > 0
            && IntegerEnd(s) == |sign| + |whole| && s[|sign| + |whole|..] == tail
  {
    var s := sign + (whole + tail);
    assert s[|sign|] == whole[0];
    assert s[|sign|..] == whole + tail;
    if whole == "0" {
      StartsWithDigit(whole + tail);
    } else {
      CountsAll(whole, tail);
    }
    hide DigitCount;
    assert (whole + tail)[|whole|..] == tail;
    assert s[|sign| + |whole|..] == s[|sign|..][|whole|..];
  }

  lemma LengthOfParts(s: string, tail: string, f: nat, e: nat)
    requires DigitCount(s[SignLength(s)..]) > 0 && tail == s[IntegerEnd(s)..]
    requires FractionLength(tail) == Some(f) && ExponentLength(tail[f..]) == Some(e) && f + e == |tail|
    ensures ValidNumber(s)
  {
    hide DigitCount, FractionLength, ExponentLength, IntegerEnd, SignLength;
  }

  /** Numbers are exactly what the grammar says. */
  lemma NumberSpelled(sign: string, whole: string, fraction: string, exponent: string)
    requires NumberParts(sign, whole, fraction, exponent)
    ensures ValidNumber(sign + whole + fraction + exponent)
  {
    TailStarts(sign, whole, fraction, exponent);
    hide DigitCount, FractionLength, ExponentLength, IntegerEnd, SignLength, NumberParts, NumberLength, WholeNumber, ValidNumber;
    var tail := fraction + exponent;
    WholeSpelled(sign, whole, tail);
    FractionSpelled(fraction, exponent);
    TwoParts(fraction, exponent);
    ExponentSpelled(exponent);
    LengthOfParts(sign + (whole + tail), tail, |fraction|, |exponent|);
    FourParts(sign, whole, fraction, exponent);
  }

  lemma TwoParts(a: string, b: string)
    ensures (a + b)[|a|..] == b && |a + b| == |a| + |b|
  {
  }

  lemma TailStarts(sign: string, whole: string, fraction: string, exponent: string)
    requires NumberParts(sign, whole, fraction, exponent)
    ensures (sign == "" || sign == "-") && WholeNumber(whole)
    ensures fraction + exponent == "" || !IsDigit((fraction + exponent)[0])
    ensures NumberParts("", "0", fraction, exponent) && NumberParts("", "0", "", exponent)
  {
    assert fraction == "" ==> fraction + exponent == exponent;
  }

  lemma WholeIsSpelled(s: string)
    requires DigitCount(s[SignLength(s)..]) > 0
    ensures (s[..SignLength(s)] == "" || s[..SignLength(s)] == "-") && WholeNumber(s[SignLength(s)..IntegerEnd(s)])
  {
    var a, b := SignLength(s), IntegerEnd(s);
    var whole, digits := s[a..b], s[a..];
    assert whole == digits[..b - a];
    assert whole[0] == s[a];
    if s[a] == '0' {
      assert whole == "0";
    }
  }

  lemma NumberIsSpelled(s: string) returns (sign: string, whole: string, fraction: string, exponent: string)
    requires ValidNumber(s)
    ensures s == sign + whole + fraction + exponent && NumberParts(sign, whole, fraction, exponent)
  {
    hide DigitCount, FractionLength, ExponentLength, IntegerEnd, SignLength, WholeNumber, AllDigit;
    var a, b := SignLength(s), IntegerEnd(s);
    var tail := s[b..];
    var c := FractionLength(tail).value;
    sign, whole, fraction, exponent := s[..a], s[a..b], tail[..c], tail[c..];
    WholeIsSpelled(s);
    FractionIsSpelled(tail);
    ExponentIsSpelled(exponent);
    PartsTogether(sign, whole, fraction, exponent);
    ThreeSlices(s, a, b);
    ThreeSlices(tail, c, c);
    FourParts(sign, whole, fraction, exponent);
  }

  lemma ThreeSlices(s: string, a: nat, b: nat)
    requires a <= b <= |s|
    ensures s == s[..a] + (s[a..b] + s[b..]) && s == s[..b] + s[b..]
  {
  }

  lemma FourParts(a: string, b: string, c: string, d: string)
    ensures a + b + c + d == a + (b + (c + d))
  {
    assert a + b + c + d == a + b + (c + d);
    assert a + b + (c + d) == a + (b + (c + d));
  }

  lemma PartsTogether(sign: string, whole: string, fraction: string, exponent: string)
    requires (sign == "" || sign == "-") && WholeNumber(whole) && NumberParts("", "0", "", exponent)
    requires fraction == "" || (fraction[0] == '.' && AllDigit(fraction[1..]))
    ensures NumberParts(sign, whole, fraction, exponent)
  {
  }

  lemma FractionIsSpelled(s: string)
    requires FractionLength(s).Some?
    ensures var fraction := s[..FractionLength(s).value]; fraction == "" || (fraction[0] == '.' && AllDigit(fraction[1..]))
  {
    if FractionLength(s).value > 0 {
      assert s[..FractionLength(s).value][1..] == s[1..][..DigitCount(s[1..])];
    }
  }

  lemma ExponentIsSpelled(s: string)
    requires ExponentLength(s) == Some(|s|)
    ensures NumberParts("", "0", "", s)
  {
    if s != "" {
      var sign := if |s| > 1 && (s[1] == '+' || s[1] == '-') then 1 else 0;
      assert s[1 + sign..][..DigitCount(s[1 + sign..])] == s[1 + sign..];
    }
  }
}
