/** The character classes and tables that the formats rest on, spelled out. */
module Alphabets {
  import opened Wrappers
  import opened Json
  import opened JsonProofs
  import Wire
  import opened Base64Url

  function Upper(): string { "ABCDEFGHIJKLMNOPQRSTUVWXYZ" }
  function Lower(): string { "abcdefghijklmnopqrstuvwxyz" }
  function Digits(): string { "0123456789" }

  // ---------------------------------------------------------------- names and key texts

  lemma UpperLetters(c: char)
    ensures 'A' <= c <= 'Z' <==> c in Upper()
  {
  }

  lemma LowerLetters(c: char)
    ensures 'a' <= c <= 'z' <==> c in Lower()
  {
  }

  lemma DigitChars(c: char)
    ensures '0' <= c <= '9' <==> c in Digits()
  {
  }

  lemma Alphanumeric(c: char)
    ensures Wire.IsAlphanumeric(c) <==> c in Upper() || c in Lower() || c in Digits()
  {
    hide Upper, Lower, Digits;
    UpperLetters(c);
    LowerLetters(c);
    DigitChars(c);
  }

  /** A username is 1 to 64 ASCII letters, digits, hyphens, underscores and dots, and nothing else. */
  lemma UsernameSpelled(username: string)
    ensures Wire.IsValidUsername(username) <==>
            1 <= |username| <= 64 && forall i :: 0 <= i < |username| ==> username[i] in Upper() || username[i] in Lower() || username[i] in Digits() || username[i] in "-_."
  {
    hide Wire.IsAlphanumeric, Upper, Lower, Digits;
    forall i | 0 <= i < |username| ensures Wire.IsAlphanumeric(username[i]) <==> username[i] in Upper() || username[i] in Lower() || username[i] in Digits() {
      Alphanumeric(username[i]);
    }
  }

  /** A key text is 43 ASCII letters, digits, hyphens and underscores. */
  lemma KeyTextSpelled(text: string)
    ensures Wire.IsValidKeyText(text) <==>
            |text| == 43 && forall i :: 0 <= i < |text| ==> text[i] in Upper() || text[i] in Lower() || text[i] in Digits() || text[i] in "-_"
  {
    hide Wire.IsAlphanumeric, Upper, Lower, Digits;
    forall i | 0 <= i < |text| ensures Wire.IsAlphanumeric(text[i]) <==> text[i] in Upper() || text[i] in Lower() || text[i] in Digits() {
      Alphanumeric(text[i]);
    }
  }

  // ---------------------------------------------------------------- base64url

  /** The alphabet of table 2 of RFC 4648. */
  function Base64UrlAlphabet(): string { Upper() + Lower() + Digits() + "-_" }

  lemma Base64Alphabet(v: nat)
    requires v < 64
    ensures |Base64UrlAlphabet()| == 64 && Symbol(v) == Base64UrlAlphabet()[v]
  {
    hide Symbol, Upper, Lower, Digits;
    UpperSymbol(if v < 26 then v else 0);
    LowerSymbol(if 26 <= v < 52 then v - 26 else 0);
    DigitSymbol(if 52 <= v < 62 then v - 52 else 0);
    LastSymbols();
  }

  lemma UpperSymbol(v: nat)
    requires v < 26
    ensures |Upper()| == 26 && Symbol(v) == Upper()[v]
  {
  }

  lemma LowerSymbol(v: nat)
    requires v < 26
    ensures |Lower()| == 26 && Symbol(v + 26) == Lower()[v]
  {
  }

  lemma DigitSymbol(v: nat)
    requires v < 10
    ensures |Digits()| == 10 && Symbol(v + 52) == Digits()[v]
  {
  }

  lemma LastSymbols()
    ensures Symbol(62) == '-' && Symbol(63) == '_'
  {
  }

  /** The symbols of up to three bytes, read as digits to the base 64, are those bytes read as digits
      to the base 256, with zero bits after the last; longer byte strings go three by three. */
  lemma Base64Bits(b0: byte, b1: byte, b2: byte, rest: Bytes)
    ensures var t := Encode([b0]);
            |t| == 2 && Value(t[0]) * 64 + Value(t[1]) == b0 as int * 16
    ensures var t := Encode([b0, b1]);
            |t| == 3 && (Value(t[0]) * 64 + Value(t[1])) * 64 + Value(t[2]) == (b0 as int * 256 + b1 as int) * 4
    ensures var t := Encode([b0, b1, b2]);
            |t| == 4 && ((Value(t[0]) * 64 + Value(t[1])) * 64 + Value(t[2])) * 64 + Value(t[3]) == (b0 as int * 256 + b1 as int) * 256 + b2 as int
    ensures Encode([]) == "" && Encode([b0, b1, b2] + rest) == Encode([b0, b1, b2]) + Encode(rest)
  {
    hide Symbol, Value, IsSymbol, Sextet0, Sextet1, Sextet2, Sextet3;
    SextetBits(b0, b1, b2);
    SextetBits(b0, b1, 0);
    SextetBits(b0, 0, 0);
    if rest == [] {
      assert [b0, b1, b2] + rest == [b0, b1, b2];
    } else {
      assert ([b0, b1, b2] + rest)[..3] == [b0, b1, b2] && ([b0, b1, b2] + rest)[3..] == rest;
    }
  }

  lemma SextetBits(b0: byte, b1: byte, b2: byte)
    ensures ((Sextet0(b0) * 64 + Sextet1(b0, b1)) * 64 + Sextet2(b1, b2)) * 64 + Sextet3(b2) == (b0 as int * 256 + b1 as int) * 256 + b2 as int
    ensures (Sextet0(b0) * 64 + Sextet1(b0, b1)) * 64 + Sextet2(b1, 0) == (b0 as int * 256 + b1 as int) * 4
    ensures Sextet0(b0) * 64 + Sextet1(b0, 0) == b0 as int * 16
  {
  }

  // ---------------------------------------------------------------- JSON strings

  /** Quotes, backslashes and control characters are escaped, and nothing else is. */
  lemma EscapesSpelled(c: char)
    ensures Escape("\"") == "\\\"" && Escape("\\") == "\\\\" && Escape("\n") == "\\n" && Escape("\r") == "\\r" && Escape("\t") == "\\t"
    ensures Escape([8 as char]) == "\\b" && Escape([12 as char]) == "\\f"
    ensures Escape([0 as char]) == "\\u0000" && Escape([11 as char]) == "\\u000b" && Escape([31 as char]) == "\\u001f"
    ensures c >= ' ' && c != '\"' && c != '\\' ==> Escape([c]) == [c]
    ensures c < ' ' ==> |Escape([c])| == 2 || (|Escape([c])| == 6 && Escape([c])[..4] == "\\u00")
  {
    assert Escape("") == "";
  }

  /** What each escape of section 7 of RFC 8259 stands for. */
  lemma UnescapesSpelled(rest: string)
    ensures Unescape("\\\"" + rest) == Prepend('\"', Unescape(rest)) && Unescape("\\\\" + rest) == Prepend('\\', Unescape(rest))
    ensures Unescape("\\/" + rest) == Prepend('/', Unescape(rest))
    ensures Unescape("\\b" + rest) == Prepend(8 as char, Unescape(rest)) && Unescape("\\f" + rest) == Prepend(12 as char, Unescape(rest))
    ensures Unescape("\\n" + rest) == Prepend('\n', Unescape(rest)) && Unescape("\\r" + rest) == Prepend('\r', Unescape(rest))
    ensures Unescape("\\t" + rest) == Prepend('\t', Unescape(rest))
  {
    hide Unescape, Prepend;
    TwoCharEscape('\"', rest);
    TwoCharEscape('\\', rest);
    TwoCharEscape('/', rest);
    TwoCharEscape('b', rest);
    TwoCharEscape('f', rest);
    TwoCharEscape('n', rest);
    TwoCharEscape('r', rest);
    TwoCharEscape('t', rest);
  }

  lemma TwoCharEscape(c: char, rest: string)
    requires IsSimpleEscape(c)
    ensures Unescape(['\\', c] + rest) == Prepend(SimpleEscapeValue(c), Unescape(rest))
  {
    assert (['\\', c] + rest)[2..] == rest;
  }

  lemma HexDigits(v: nat)
    requires v < 16
    ensures |"0123456789abcdef"| == 16 && IsHex("0123456789abcdef"[v]) && HexValue("0123456789abcdef"[v]) == v
    ensures |"0123456789ABCDEF"| == 16 && IsHex("0123456789ABCDEF"[v]) && HexValue("0123456789ABCDEF"[v]) == v
  {
  }

  /** An escape of four hexadecimal digits stands for that code point. */
  lemma UnicodeEscape(a: char, b: char, c: char, d: char, rest: string)
    requires IsHex(a) && IsHex(b) && IsHex(c) && IsHex(d)
    ensures var n := ((HexValue(a) * 16 + HexValue(b)) * 16 + HexValue(c)) * 16 + HexValue(d);
            n < 0xD800 || 0xE000 <= n < 0x1_0000 ==> Unescape(['\\', 'u', a, b, c, d] + rest) == Prepend(n as char, Unescape(rest))
  {
    hide HexValue, IsHex;
    var raw := ['\\', 'u', a, b, c, d] + rest;
    assert raw[2..][..4] == [a, b, c, d] && raw[6..] == rest;
  }

  /** Two such escapes that are a high and a low surrogate stand for one code point; a high surrogate
      that nothing follows, and a low one, stand for nothing. */
  lemma SurrogateEscapes(a: char, b: char, c: char, d: char, e: char, f: char, g: char, h: char, rest: string)
    requires IsHex(a) && IsHex(b) && IsHex(c) && IsHex(d) && IsHex(e) && IsHex(f) && IsHex(g) && IsHex(h)
    ensures var n := ((HexValue(a) * 16 + HexValue(b)) * 16 + HexValue(c)) * 16 + HexValue(d);
            var m := ((HexValue(e) * 16 + HexValue(f)) * 16 + HexValue(g)) * 16 + HexValue(h);
            && (0xD800 <= n < 0xDC00 && 0xDC00 <= m < 0xE000 ==>
                  Unescape(['\\', 'u', a, b, c, d, '\\', 'u', e, f, g, h] + rest)
                  == Prepend((0x1_0000 + (n - 0xD800) * 0x400 + (m - 0xDC00)) as char, Unescape(rest)))
            && (0xD800 <= n < 0xDC00 ==> Unescape(['\\', 'u', a, b, c, d]) == None)
            && (0xDC00 <= n < 0xE000 ==> Unescape(['\\', 'u', a, b, c, d] + rest) == None)
  {
    hide HexValue, IsHex;
    var pair := ['\\', 'u', a, b, c, d, '\\', 'u', e, f, g, h] + rest;
    assert pair[2..][..4] == [a, b, c, d] && pair[8..][..4] == [e, f, g, h] && pair[12..] == rest;
    assert pair[2..][0] == a && pair[2..][3] == d && pair[8..][0] == e && pair[8..][3] == h;
    var lone := ['\\', 'u', a, b, c, d] + rest;
    assert lone[2..][..4] == [a, b, c, d] && lone[2..][0] == a && lone[2..][3] == d;
    var last := ['\\', 'u', a, b, c, d];
    assert last[2..] == [a, b, c, d];
  }
}
