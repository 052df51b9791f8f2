/** The texts of the wire records and of the client's files, spelled out to the last character. */
module WireTexts {
  import opened Wrappers
  import opened Json
  import opened JsonProofs
  import opened PrettyJson
  import opened Wire
  import opened WireProofs
  import Contacts
  import ContactsProofs
  import Identity
  import IdentityProofs

  // ---------------------------------------------------------------- rendering, piece by piece

  lemma {:induction false} RenderConcat(a: seq<Piece>, b: seq<Piece>)
    ensures Render(a + b) == Render(a) + Render(b)
  {
    if a == [] {
      assert a + b == b;
    } else {
      assert (a + b)[1..] == a[1..] + b;
      RenderConcat(a[1..], b);
    }
  }

  function Text(ts: seq<Token>): string { Render(Unspaced(ts)) }

  lemma TextConcat(a: seq<Token>, b: seq<Token>)
    ensures Text(a + b) == Text(a) + Text(b)
  {
    assert Unspaced(a + b) == Unspaced(a) + Unspaced(b);
    RenderConcat(Unspaced(a), Unspaced(b));
  }

  lemma RenderOne(space: string, t: Token)
    ensures Render([Piece(space, t)]) == space + TokenText(t)
  {
    assert Render([]) == "";
  }

  lemma TextOne(t: Token)
    ensures Text([t]) == TokenText(t) && Text([]) == ""
  {
    assert Unspaced([t]) == [Piece("", t)] && Unspaced([]) == [];
    RenderOne("", t);
  }

  predicate Plain(s: string) {
    forall i :: 0 <= i < |s| ==> EscapeChar(s[i]) == [s[i]]
  }

  lemma {:induction false} EscapePlain(s: string)
    requires Plain(s)
    ensures Escape(s) == s
  {
    if s != "" {
      EscapePlain(s[1..]);
      assert s == [s[0]] + s[1..];
    }
  }

  lemma Assoc(a: string, b: string, c: string)
    ensures a + b + c == a + (b + c)
  {
  }

  // ---------------------------------------------------------------- compact structs

  function Key(name: string): string { "\"" + name + "\":" }

  function Quoted(s: string): string { "\"" + Escape(s) + "\"" }

  /** The members of an object in the compact layout. */
  function Listed(names: seq<string>, values: seq<Json>): string
    requires |names| == |values|
  {
    if names == [] then ""
    else Key(names[0]) + (Compact(values[0]) + (if |names| == 1 then "" else "," + Listed(names[1..], values[1..])))
  }

  /** The same, appended member by member. */
  function ListedFrom(prefix: string, separator: string, names: seq<string>, values: seq<Json>): string
    requires |names| == |values|
    decreases |names|
  {
    if names == [] then prefix
    else ListedFrom(prefix + (separator + Key(names[0])) + Compact(values[0]), ",", names[1..], values[1..])
  }

  lemma {:induction false} ListedFromIs(prefix: string, separator: string, names: seq<string>, values: seq<Json>)
    requires |names| == |values| && names != []
    ensures ListedFrom(prefix, separator, names, values) == prefix + (separator + Listed(names, values))
    decreases |names|
  {
    hide Compact, Key;
    var k, v := Key(names[0]), Compact(values[0]);
    var head := prefix + (separator + k) + v;
    Assoc(prefix, separator + k, v);
    Assoc(separator, k, v);
    if |names| == 1 {
      assert ListedFrom(head, ",", names[1..], values[1..]) == head;
      assert v + "" == v;
    } else {
      var tail := "," + Listed(names[1..], values[1..]);
      ListedFromIs(head, ",", names[1..], values[1..]);
      Assoc(prefix, separator + (k + v), tail);
      Assoc(separator, k + v, tail);
      Assoc(k, v, tail);
    }
  }

  lemma ListedCons(prefix: string, separator: string, name: string, names: seq<string>, value: Json, values: seq<Json>)
    requires |names| == |values|
    ensures ListedFrom(prefix, separator, [name] + names, [value] + values)
         == ListedFrom(prefix + (separator + Key(name)) + Compact(value), ",", names, values)
  {
    hide Compact, Key;
    assert ([name] + names)[1..] == names && ([value] + values)[1..] == values;
  }

  lemma ListedNone(prefix: string)
    ensures ListedFrom(prefix, ",", [], []) == prefix
  {
  }

  lemma KeyText(name: string)
    requires Plain(name)
    ensures Text([Str(Escape(name)), Colon]) == Key(name)
  {
    hide Escape, Plain;
    EscapePlain(name);
    TextOne(Str(name));
    TextOne(Colon);
    TextConcat([Str(name)], [Colon]);
    assert [Str(name)] + [Colon] == [Str(name), Colon];
  }

  lemma {:induction false} MembersText(names: seq<string>, values: seq<Json>)
    requires |names| == |values| && names != [] && forall i :: 0 <= i < |names| ==> Plain(names[i])
    ensures Text(MemberTokens(Struct(names, values).members)) == Listed(names, values)
    decreases |names|
  {
    hide Text, Plain, Key, Escape, Tokens;
    var members := Struct(names, values).members;
    var head, value := [Str(Escape(names[0])), Colon], Tokens(values[0]);
    KeyText(names[0]);
    CompactIs(values[0]);
    TextConcat(head, value);
    if |names| == 1 {
      assert MemberTokens(members) == head + value;
      assert Compact(values[0]) + "" == Compact(values[0]);
    } else {
      var tail := MemberTokens(members[1..]);
      assert members[1..] == Struct(names[1..], values[1..]).members;
      MembersText(names[1..], values[1..]);
      TextOne(Comma);
      TextConcat([Comma], tail);
      TextConcat(head + value, [Comma] + tail);
      assert MemberTokens(members) == head + value + ([Comma] + tail);
      Assoc(Key(names[0]), Compact(values[0]), "," + Listed(names[1..], values[1..]));
    }
  }

  lemma CompactIs(j: Json)
    ensures Compact(j) == Text(Tokens(j))
  {
  }

  lemma StructText(names: seq<string>, values: seq<Json>)
    requires |names| == |values| && names != [] && forall i :: 0 <= i < |names| ==> Plain(names[i])
    ensures Compact(Struct(names, values)) == ListedFrom("", "{", names, values) + "}"
  {
    hide Listed, ListedFrom, Text, Compact, Plain, Escape;
    var members := MemberTokens(Struct(names, values).members);
    MembersText(names, values);
    TextOne(LBrace);
    TextOne(RBrace);
    TextConcat([LBrace], members);
    TextConcat([LBrace] + members, [RBrace]);
    CompactIs(Struct(names, values));
    ListedFromIs("", "{", names, values);
    assert "" + ("{" + Listed(names, values)) == "{" + Listed(names, values);
  }

  lemma StringText(s: string)
    ensures Compact(StringJson(s)) == Quoted(s)
  {
    hide Escape;
    CompactIs(StringJson(s));
    TextOne(Str(Escape(s)));
  }

  lemma NumberText(n: u8)
    ensures Compact(U8Json(n)) == Decimal(n)
  {
    hide Decimal;
    CompactIs(U8Json(n));
    TextOne(Num(Decimal(n)));
  }

  lemma LowerPlain(name: string)
    requires forall i :: 0 <= i < |name| ==> 'a' <= name[i] <= 'z' || name[i] == '_'
    ensures Plain(name)
  {
  }

  lemma Object3(a: string, b: string, c: string, x: Json, y: Json, z: Json)
    requires Plain(a) && Plain(b) && Plain(c)
    ensures Compact(Struct([a, b, c], [x, y, z]))
         == ("{" + Key(a)) + Compact(x) + ("," + Key(b)) + Compact(y) + ("," + Key(c)) + Compact(z) + "}"
  {
    hide Compact, Plain, Key, Struct;
    StructText([a, b, c], [x, y, z]);
    hide ListedFrom;
    assert [a] + [b, c] == [a, b, c] && [b] + [c] == [b, c] && [c] + [] == [c];
    assert [x] + [y, z] == [x, y, z] && [y] + [z] == [y, z] && [z] + [] == [z];
    var p0 := "{" + Key(a);
    assert "" + p0 == p0;
    var p1 := p0 + Compact(x);
    var p2 := p1 + ("," + Key(b)) + Compact(y);
    ListedCons("", "{", a, [b, c], x, [y, z]);
    ListedCons(p1, ",", b, [c], y, [z]);
    ListedCons(p2, ",", c, [], z, []);
    ListedNone(p2 + ("," + Key(c)) + Compact(z));
  }

  lemma Object4(a: string, b: string, c: string, d: string, w: Json, x: Json, y: Json, z: Json)
    requires Plain(a) && Plain(b) && Plain(c) && Plain(d)
    ensures Compact(Struct([a, b, c, d], [w, x, y, z]))
         == ("{" + Key(a)) + Compact(w) + ("," + Key(b)) + Compact(x) + ("," + Key(c)) + Compact(y) + ("," + Key(d)) + Compact(z) + "}"
  {
    hide Compact, Plain, Key, Struct;
    StructText([a, b, c, d], [w, x, y, z]);
    hide ListedFrom;
    assert [a] + [b, c, d] == [a, b, c, d] && [b] + [c, d] == [b, c, d] && [c] + [d] == [c, d] && [d] + [] == [d];
    assert [w] + [x, y, z] == [w, x, y, z] && [x] + [y, z] == [x, y, z] && [y] + [z] == [y, z] && [z] + [] == [z];
    var p0 := "{" + Key(a);
    assert "" + p0 == p0;
    var p1 := p0 + Compact(w);
    var p2 := p1 + ("," + Key(b)) + Compact(x);
    var p3 := p2 + ("," + Key(c)) + Compact(y);
    ListedCons("", "{", a, [b, c, d], w, [x, y, z]);
    ListedCons(p1, ",", b, [c, d], x, [y, z]);
    ListedCons(p2, ",", c, [d], y, [z]);
    ListedCons(p3, ",", d, [], z, []);
    ListedNone(p3 + ("," + Key(d)) + Compact(z));
  }

  // ---------------------------------------------------------------- the wire records

  /** A plaintext message on the wire. */
  lemma PlaintextText(m: Plaintext)
    ensures var text := "{\"from\":" + Quoted(m.from) + ",\"to\":" + Quoted(m.to) + ",\"body\":" + Quoted(m.body) + "}";
            EncodePlaintext(m) == text && DecodePlaintext(text) == Some(m)
  {
    hide Compact, Plain, Struct, DecodePlaintext, Quoted;
    LowerPlain("from");
    LowerPlain("to");
    LowerPlain("body");
    Object3("from", "to", "body", StringJson(m.from), StringJson(m.to), StringJson(m.body));
    assert "{" + Key("from") == "{\"from\":" && "," + Key("to") == ",\"to\":" && "," + Key("body") == ",\"body\":";
    StringText(m.from);
    StringText(m.to);
    StringText(m.body);
    PlaintextRoundTrip(m);
  }

  /** An envelope on the wire. */
  lemma EncryptedText(e: Encrypted)
    ensures var text := "{\"version\":" + Decimal(e.version) + ",\"sender_encryption_public_key\":" + Quoted(e.senderKey)
                        + ",\"nonce\":" + Quoted(e.nonce) + ",\"ciphertext\":" + Quoted(e.ciphertext) + "}";
            EncodeEncrypted(e) == text && DecodeEncrypted(text) == Some(e)
  {
    hide Compact, Plain, Struct, DecodeEncrypted, Quoted, Decimal;
    LowerPlain("version");
    LowerPlain("sender_encryption_public_key");
    LowerPlain("nonce");
    LowerPlain("ciphertext");
    Object4("version", "sender_encryption_public_key", "nonce", "ciphertext",
            U8Json(e.version), StringJson(e.senderKey), StringJson(e.nonce), StringJson(e.ciphertext));
    EnvelopeKeys();
    SenderKey();
    NumberText(e.version);
    StringText(e.senderKey);
    StringText(e.nonce);
    StringText(e.ciphertext);
    EncryptedRoundTrip(e);
  }

  lemma EnvelopeKeys()
    ensures "{" + Key("version") == "{\"version\":" && "," + Key("nonce") == ",\"nonce\":" && "," + Key("ciphertext") == ",\"ciphertext\":"
  {
  }

  lemma SenderKey()
    ensures "," + Key("sender_encryption_public_key") == ",\"sender_encryption_public_key\":"
  {
    hide Key;
    LongKey("sender_encryption_public_key");
  }

  lemma LongKey(name: string)
    ensures "," + Key(name) == ",\"" + name + "\":"
  {
  }

  /** A frame on its way to the relay. */
  lemma RoutedText(f: string, t: string, e: Encrypted)
    ensures var text := "{\"from\":" + Quoted(f) + ",\"to\":" + Quoted(t) + ",\"encrypted\":" + EncodeEncrypted(e) + "}";
            EncodeRouted(Routed(f, t, e)) == text && DecodeRouted(text) == Some(Routed(f, t, e))
  {
    hide Compact, Plain, Struct, DecodeRouted, Quoted, EncryptedJson;
    LowerPlain("from");
    LowerPlain("to");
    LowerPlain("encrypted");
    Object3("from", "to", "encrypted", StringJson(f), StringJson(t), EncryptedJson(e));
    assert "{" + Key("from") == "{\"from\":" && "," + Key("to") == ",\"to\":" && "," + Key("encrypted") == ",\"encrypted\":";
    StringText(f);
    StringText(t);
    RoutedRoundTrip(Routed(f, t, e));
  }

  /** Version numbers are written in decimal. */
  lemma DecimalTexts()
    ensures Decimal(0) == "0" && Decimal(1) == "1" && Decimal(10) == "10"
  {
  }

  // ---------------------------------------------------------------- indented objects of strings

  function Line(separator: string, name: string, depth: nat): string {
    separator + NewLine(depth) + "\"" + name + "\": "
  }

  /** The members of an object whose values are strings, in the indented layout, appended one by one. */
  function StringLines(prefix: string, separator: string, names: seq<string>, texts: seq<string>, depth: nat): string
    requires |names| == |texts|
    decreases |names|
  {
    if names == [] then prefix
    else StringLines(prefix + Line(separator, names[0], depth) + Quoted(texts[0]), ",", names[1..], texts[1..], depth)
  }

  function StringValues(texts: seq<string>): (values: seq<Json>)
    ensures |values| == |texts| && forall i :: 0 <= i < |texts| ==> values[i] == StringJson(texts[i])
  {
    seq(|texts|, i requires 0 <= i < |texts| => StringJson(texts[i]))
  }

  /** One member of an indented object. */
  lemma MemberText(name: string, value: Json, depth: nat)
    requires Plain(name)
    ensures Render([Piece(NewLine(depth), Str(Escape(name))), Piece("", Colon)] + Pieces(value, " ", depth))
         == NewLine(depth) + "\"" + name + "\":" + Render(Pieces(value, " ", depth))
  {
    hide Escape, Plain, Pieces, NewLine, Render;
    EscapePlain(name);
    var k, c := Piece(NewLine(depth), Str(name)), Piece("", Colon);
    RenderOne(NewLine(depth), Str(name));
    RenderOne("", Colon);
    RenderConcat([k], [c]);
    assert [k] + [c] == [k, c];
    RenderConcat([k, c], Pieces(value, " ", depth));
    assert NewLine(depth) + ("\"" + name + "\"") + ":" == NewLine(depth) + "\"" + name + "\":";
  }

  lemma StringValue(text: string, depth: nat)
    ensures Render(Pieces(StringJson(text), " ", depth)) == " " + Quoted(text)
  {
    hide Escape;
    RenderOne(" ", Str(Escape(text)));
  }

  lemma StringMember(separator: string, name: string, text: string, depth: nat)
    requires Plain(name)
    ensures separator + Render([Piece(NewLine(depth), Str(Escape(name))), Piece("", Colon)] + Pieces(StringJson(text), " ", depth))
         == Line(separator, name, depth) + Quoted(text)
  {
    hide Escape, Plain, Quoted, Pieces, NewLine;
    MemberText(name, StringJson(text), depth);
    StringValue(text, depth);
    var start, value := NewLine(depth) + "\"" + name, Quoted(text);
    Assoc(start, "\":", " " + value);
    assert "\":" + (" " + value) == "\": " + value;
    Assoc(start, "\": ", value);
    Assoc(separator, start + "\": ", value);
    Assoc(separator, NewLine(depth) + "\"" + name, "\": ");
    Assoc(separator, NewLine(depth) + "\"", name);
    Assoc(separator, NewLine(depth), "\"");
  }

  lemma StringStructCons(names: seq<string>, texts: seq<string>)
    requires |names| == |texts| && names != []
    ensures Struct(names, StringValues(texts)).members
         == [Member(Escape(names[0]), StringJson(texts[0]))] + Struct(names[1..], StringValues(texts[1..])).members
  {
    hide Escape, StringJson;
  }

  lemma StringLinesStep(prefix: string, separator: string, names: seq<string>, texts: seq<string>, depth: nat)
    requires |names| == |texts| && names != []
    ensures StringLines(prefix, separator, names, texts, depth)
         == StringLines(prefix + Line(separator, names[0], depth) + Quoted(texts[0]), ",", names[1..], texts[1..], depth)
    ensures |names| == 1 ==> StringLines(prefix, separator, names, texts, depth) == prefix + Line(separator, names[0], depth) + Quoted(texts[0])
  {
    hide Line, Quoted;
  }

  lemma {:induction false} StringMembers(prefix: string, separator: string, names: seq<string>, texts: seq<string>, depth: nat)
    requires |names| == |texts| && names != [] && forall i :: 0 <= i < |names| ==> Plain(names[i])
    ensures prefix + (separator + Render(MemberPieces(Struct(names, StringValues(texts)).members, depth)))
         == StringLines(prefix, separator, names, texts, depth)
    decreases |names|
  {
    hide Escape, Plain, Quoted, Pieces, NewLine, Line, Render, MemberPieces, StringLines, StringValues, StringJson;
    var first := [Piece(NewLine(depth), Str(Escape(names[0]))), Piece("", Colon)] + Pieces(StringJson(texts[0]), " ", depth);
    var head := Line(separator, names[0], depth) + Quoted(texts[0]);
    var rest := Struct(names[1..], StringValues(texts[1..])).members;
    StringStructCons(names, texts);
    MemberPiecesCons(Member(Escape(names[0]), StringJson(texts[0])), rest, depth);
    StringMember(separator, names[0], texts[0], depth);
    StringLinesStep(prefix, separator, names, texts, depth);
    Assoc(prefix, Line(separator, names[0], depth), Quoted(texts[0]));
    RestCount(names, texts);
    if |names| == 1 {
      assert first + [] == first;
    } else {
      var tail := MemberPieces(rest, depth);
      StringMembers(prefix + head, ",", names[1..], texts[1..], depth);
      RenderOne("", Comma);
      assert "" + "," == ",";
      RenderConcat([Piece("", Comma)], tail);
      RenderConcat(first, [Piece("", Comma)] + tail);
      Assoc(separator, Render(first), "," + Render(tail));
      Assoc(prefix, head, "," + Render(tail));
    }
  }

  lemma RestCount(names: seq<string>, texts: seq<string>)
    requires |names| == |texts| && names != []
    ensures |Struct(names[1..], StringValues(texts[1..])).members| == |names| - 1
  {
  }

  lemma StringObject(lead: string, names: seq<string>, texts: seq<string>, depth: nat)
    requires |names| == |texts| && names != [] && forall i :: 0 <= i < |names| ==> Plain(names[i])
    ensures Render(Pieces(Struct(names, StringValues(texts)), lead, depth))
         == StringLines(lead + "{", "", names, texts, depth + 1) + (NewLine(depth) + "}")
  {
    hide StringLines, MemberPieces, NewLine, Plain, Escape;
    var members := Struct(names, StringValues(texts)).members;
    var open, body, close := [Piece(lead, LBrace)], MemberPieces(members, depth + 1), [Piece(NewLine(depth), RBrace)];
    RenderOne(lead, LBrace);
    RenderOne(NewLine(depth), RBrace);
    RenderConcat(open, body);
    RenderConcat(open + body, close);
    StringMembers(lead + "{", "", names, texts, depth + 1);
    assert "" + Render(body) == Render(body);
  }

  lemma StringLinesCons(prefix: string, separator: string, name: string, names: seq<string>, text: string, texts: seq<string>, depth: nat)
    requires |names| == |texts|
    ensures StringLines(prefix, separator, [name] + names, [text] + texts, depth)
         == StringLines(prefix + Line(separator, name, depth) + Quoted(text), ",", names, texts, depth)
    ensures StringLines(prefix, separator, [], [], depth) == prefix
  {
    hide Line, Quoted;
    assert ([name] + names)[1..] == names && ([text] + texts)[1..] == texts;
  }

  lemma Indents()
    ensures NewLine(0) == "\n" && NewLine(1) == "\n  " && NewLine(2) == "\n    " && NewLine(3) == "\n      "
  {
    assert Indent(1) == "  ";
    assert Indent(2) == "    ";
    assert Indent(3) == "      ";
  }

  lemma LineStart(separator: string, name: string)
    ensures Line(separator, name, 1) == separator + ("\n  \"" + name + "\": ")
    ensures Line(separator, name, 3) == separator + ("\n      \"" + name + "\": ")
  {
    hide NewLine;
    Indents();
    LineAssoc(separator, "\n  ", name);
    LineAssoc(separator, "\n      ", name);
    assert "\n  " + "\"" == "\n  \"" && "\n      " + "\"" == "\n      \"";
  }

  lemma LineAssoc(separator: string, line: string, name: string)
    ensures separator + line + "\"" + name + "\": " == separator + ((line + "\"") + name + "\": ")
  {
    Assoc(separator, line, "\"");
    Assoc(separator, line + "\"", name);
    Assoc(separator, line + "\"" + name, "\": ");
  }

  // ---------------------------------------------------------------- the identity file

  lemma NextLine(name: string)
    ensures Line(",", name, 1) == ",\n  \"" + name + "\": " && Line(",", name, 3) == ",\n      \"" + name + "\": "
    ensures "{" + Line("", name, 1) == "{\n  \"" + name + "\": " && " {" + Line("", name, 3) == " {\n      \"" + name + "\": "
  {
    hide Line;
    LineStart(",", name);
    LineStart("", name);
  }

  lemma KeyNames()
    ensures Plain("identity_public_key") && Plain("identity_secret_key") && Plain("encryption_public_key") && Plain("encryption_secret_key")
  {
    hide Plain;
    LowerPlain("identity_public_key");
    LowerPlain("identity_secret_key");
    LowerPlain("encryption_public_key");
    LowerPlain("encryption_secret_key");
  }

  lemma FirstIdentityPublicKey()
    ensures "{" + Line("", "identity_public_key", 1) == "{\n  \"identity_public_key\": "
  {
    hide Line;
    NextLine("identity_public_key");
  }

  lemma NextIdentityPublicKey()
    ensures Line(",", "identity_public_key", 3) == ",\n      \"identity_public_key\": "
  {
    hide Line;
    NextLine("identity_public_key");
  }

  lemma NextIdentitySecretKey()
    ensures Line(",", "identity_secret_key", 1) == ",\n  \"identity_secret_key\": "
  {
    hide Line;
    NextLine("identity_secret_key");
  }

  lemma NextEncryptionPublicKey()
    ensures Line(",", "encryption_public_key", 1) == ",\n  \"encryption_public_key\": "
  {
    hide Line;
    NextLine("encryption_public_key");
  }

  lemma InnerEncryptionPublicKey()
    ensures Line(",", "encryption_public_key", 3) == ",\n      \"encryption_public_key\": "
  {
    hide Line;
    NextLine("encryption_public_key");
  }

  lemma NextEncryptionSecretKey()
    ensures Line(",", "encryption_secret_key", 1) == ",\n  \"encryption_secret_key\": "
  {
    hide Line;
    NextLine("encryption_secret_key");
  }

  lemma Strings4(lead: string, a: string, b: string, c: string, d: string, w: string, x: string, y: string, z: string, depth: nat)
    requires Plain(a) && Plain(b) && Plain(c) && Plain(d)
    ensures Render(Pieces(Struct([a, b, c, d], StringValues([w, x, y, z])), lead, depth))
         == lead + "{" + Line("", a, depth + 1) + Quoted(w) + Line(",", b, depth + 1) + Quoted(x) + Line(",", c, depth + 1) + Quoted(y)
            + Line(",", d, depth + 1) + Quoted(z) + (NewLine(depth) + "}")
  {
    hide Plain, Line, Quoted, StringLines, Struct, StringValues, NewLine;
    StringObject(lead, [a, b, c, d], [w, x, y, z], depth);
    var p0 := lead + "{";
    var p1 := p0 + Line("", a, depth + 1) + Quoted(w);
    var p2 := p1 + Line(",", b, depth + 1) + Quoted(x);
    var p3 := p2 + Line(",", c, depth + 1) + Quoted(y);
    var p4 := p3 + Line(",", d, depth + 1) + Quoted(z);
    assert [a] + [b, c, d] == [a, b, c, d] && [b] + [c, d] == [b, c, d] && [c] + [d] == [c, d] && [d] + [] == [d];
    assert [w] + [x, y, z] == [w, x, y, z] && [x] + [y, z] == [x, y, z] && [y] + [z] == [y, z] && [z] + [] == [z];
    StringLinesCons(p0, "", a, [b, c, d], w, [x, y, z], depth + 1);
    StringLinesCons(p1, ",", b, [c, d], x, [y, z], depth + 1);
    StringLinesCons(p2, ",", c, [d], y, [z], depth + 1);
    StringLinesCons(p3, ",", d, [], z, [], depth + 1);
    StringLinesCons(p4, ",", d, [], z, [], depth + 1);
  }

  /** The identity file. */
  lemma IdentityText(s: Identity.Stored)
    ensures var text := "{\n  \"identity_public_key\": " + Quoted(s.identityKey) + ",\n  \"identity_secret_key\": " + Quoted(s.identitySecret)
                        + ",\n  \"encryption_public_key\": " + Quoted(s.encryptionKey) + ",\n  \"encryption_secret_key\": " + Quoted(s.encryptionSecret) + "\n}";
            Identity.StoredText(s) == text && Identity.ReadIdentity(text) == Some(Identity.Current(s))
  {
    hide Plain, Line, Quoted, Struct, Pieces, Render, Identity.ReadIdentity;
    var texts := [s.identityKey, s.identitySecret, s.encryptionKey, s.encryptionSecret];
    KeyNames();
    FirstIdentityPublicKey();
    NextIdentitySecretKey();
    NextEncryptionPublicKey();
    NextEncryptionSecretKey();
    Strings4("", "identity_public_key", "identity_secret_key", "encryption_public_key", "encryption_secret_key",
             s.identityKey, s.identitySecret, s.encryptionKey, s.encryptionSecret, 0);
    Indents();
    assert "" + "{" == "{" && NewLine(0) + "}" == "\n}";
    assert StringValues(texts) == [StringJson(s.identityKey), StringJson(s.identitySecret), StringJson(s.encryptionKey), StringJson(s.encryptionSecret)];
    IdentityProofs.StoredReads(s);
  }

  // ---------------------------------------------------------------- the contacts file

  lemma Strings3(lead: string, a: string, b: string, c: string, x: string, y: string, z: string, depth: nat)
    requires Plain(a) && Plain(b) && Plain(c)
    ensures Render(Pieces(Struct([a, b, c], StringValues([x, y, z])), lead, depth))
         == lead + "{" + Line("", a, depth + 1) + Quoted(x) + Line(",", b, depth + 1) + Quoted(y) + Line(",", c, depth + 1) + Quoted(z) + (NewLine(depth) + "}")
  {
    hide Plain, Line, Quoted, StringLines, Struct, StringValues, NewLine;
    StringObject(lead, [a, b, c], [x, y, z], depth);
    var p0 := lead + "{";
    var p1 := p0 + Line("", a, depth + 1) + Quoted(x);
    var p2 := p1 + Line(",", b, depth + 1) + Quoted(y);
    var p3 := p2 + Line(",", c, depth + 1) + Quoted(z);
    assert [a] + [b, c] == [a, b, c] && [b] + [c] == [b, c] && [c] + [] == [c];
    assert [x] + [y, z] == [x, y, z] && [y] + [z] == [y, z] && [z] + [] == [z];
    StringLinesCons(p0, "", a, [b, c], x, [y, z], depth + 1);
    StringLinesCons(p1, ",", b, [c], y, [z], depth + 1);
    StringLinesCons(p2, ",", c, [], z, [], depth + 1);
    StringLinesCons(p3, ",", c, [], z, [], depth + 1);
  }

  /** One contact in the file, after its indentation. */
  function ContactText(name: string, e: Entry): string {
    Quoted(name) + ": {\n      \"username\": " + Quoted(e.username) + ",\n      \"identity_public_key\": " + Quoted(e.identityKey)
    + ",\n      \"encryption_public_key\": " + Quoted(e.encryptionKey) + "\n    }"
  }

  function ContactLines(contacts: map<string, Entry>, names: seq<string>): string
    requires forall name :: name in names ==> name in contacts
  {
    if names == [] then ""
    else "\n    " + ContactText(names[0], contacts[names[0]]) + (if |names| == 1 then "" else "," + ContactLines(contacts, names[1..]))
  }

  lemma Username()
    ensures Plain("username") && ":" + (" " + "{" + Line("", "username", 3)) == ": {\n      \"username\": "
  {
    hide Line, Plain;
    LowerPlain("username");
    NextLine("username");
    assert " " + "{" == " {";
  }

  lemma EntryText(name: string, e: Entry)
    ensures Render([Piece(NewLine(2), Str(Escape(name))), Piece("", Colon)] + Pieces(Contacts.EntryJson(e), " ", 2)) == "\n    " + ContactText(name, e)
  {
    hide Plain, Line, Quoted, Struct, Pieces, NewLine;
    Username();
    KeyNames();
    NextIdentityPublicKey();
    InnerEncryptionPublicKey();
    Indents();
    assert NewLine(2) + "}" == "\n    }";
    Strings3(" ", "username", "identity_public_key", "encryption_public_key", e.username, e.identityKey, e.encryptionKey, 2);
    assert StringValues([e.username, e.identityKey, e.encryptionKey]) == [StringJson(e.username), StringJson(e.identityKey), StringJson(e.encryptionKey)];
    KeyPieces(name, Contacts.EntryJson(e));
    ContactAssoc(Quoted(name), " " + "{" + Line("", "username", 3), Quoted(e.username), Line(",", "identity_public_key", 3), Quoted(e.identityKey),
                 Line(",", "encryption_public_key", 3), Quoted(e.encryptionKey), NewLine(2) + "}");
  }

  lemma KeyPieces(name: string, value: Json)
    ensures Render([Piece(NewLine(2), Str(Escape(name))), Piece("", Colon)] + Pieces(value, " ", 2))
         == NewLine(2) + (Quoted(name) + (":" + Render(Pieces(value, " ", 2))))
  {
    hide Escape, Pieces, NewLine;
    var k, c := Piece(NewLine(2), Str(Escape(name))), Piece("", Colon);
    RenderOne(NewLine(2), Str(Escape(name)));
    RenderOne("", Colon);
    RenderConcat([k], [c]);
    assert [k] + [c] == [k, c];
    RenderConcat([k, c], Pieces(value, " ", 2));
    assert "" + ":" == ":";
    Assoc(NewLine(2) + Quoted(name), ":", Render(Pieces(value, " ", 2)));
    Assoc(NewLine(2), Quoted(name), ":" + Render(Pieces(value, " ", 2)));
  }

  lemma ContactAssoc(n: string, a: string, b: string, c: string, d: string, e: string, f: string, g: string)
    ensures n + (":" + (a + b + c + d + e + f + g)) == n + (":" + a) + b + c + d + e + f + g
  {
    Assoc(":", a, b);
    Assoc(":", a + b, c);
    Assoc(":", a + b + c, d);
    Assoc(":", a + b + c + d, e);
    Assoc(":", a + b + c + d + e, f);
    Assoc(":", a + b + c + d + e + f, g);
    var m := ":" + a;
    Assoc(n, m, b);
    Assoc(n, m + b, c);
    Assoc(n, m + b + c, d);
    Assoc(n, m + b + c + d, e);
    Assoc(n, m + b + c + d + e, f);
    Assoc(n, m + b + c + d + e + f, g);
  }

  lemma MemberPiecesCons(first: Member, rest: seq<Member>, depth: nat)
    ensures MemberPieces([first] + rest, depth)
         == [Piece(NewLine(depth), Str(first.key)), Piece("", Colon)] + Pieces(first.value, " ", depth)
            + (if rest == [] then [] else [Piece("", Comma)] + MemberPieces(rest, depth))
  {
    hide Pieces, NewLine;
    assert ([first] + rest)[1..] == rest;
  }

  lemma MapMembersCons(contacts: map<string, Entry>, names: seq<string>)
    requires names != [] && forall name :: name in names ==> name in contacts
    ensures Contacts.MapMembers(contacts, names)
         == [Member(Escape(names[0]), Contacts.EntryJson(contacts[names[0]]))] + Contacts.MapMembers(contacts, names[1..])
  {
    hide Escape, Contacts.EntryJson;
  }

  lemma ContactLinesCons(contacts: map<string, Entry>, names: seq<string>)
    requires names != [] && forall name :: name in names ==> name in contacts
    ensures ContactLines(contacts, names)
         == "\n    " + ContactText(names[0], contacts[names[0]]) + (if |names| == 1 then "" else "," + ContactLines(contacts, names[1..]))
  {
    hide ContactText;
  }

  lemma {:induction false} ContactMembers(contacts: map<string, Entry>, names: seq<string>)
    requires names != [] && forall name :: name in names ==> name in contacts
    ensures Render(MemberPieces(Contacts.MapMembers(contacts, names), 2)) == ContactLines(contacts, names)
  {
    hide Escape, Pieces, NewLine, Contacts.EntryJson, ContactText, Render, MemberPieces, ContactLines, Contacts.MapMembers;
    var value := Contacts.EntryJson(contacts[names[0]]);
    var first := [Piece(NewLine(2), Str(Escape(names[0]))), Piece("", Colon)] + Pieces(value, " ", 2);
    MapMembersCons(contacts, names);
    MemberPiecesCons(Member(Escape(names[0]), value), Contacts.MapMembers(contacts, names[1..]), 2);
    ContactLinesCons(contacts, names);
    EntryText(names[0], contacts[names[0]]);
    if |names| == 1 {
      assert first + [] == first && Render(first) + "" == Render(first);
    } else {
      var tail := MemberPieces(Contacts.MapMembers(contacts, names[1..]), 2);
      ContactMembers(contacts, names[1..]);
      RenderOne("", Comma);
      assert "" + "," == ",";
      RenderConcat([Piece("", Comma)], tail);
      RenderConcat(first, [Piece("", Comma)] + tail);
    }
  }

  lemma ObjectText(members: seq<Member>, lead: string, depth: nat)
    ensures Render(Pieces(JObject(members), lead, depth))
         == lead + "{" + Render(MemberPieces(members, depth + 1)) + ((if members == [] then "" else NewLine(depth)) + "}")
  {
    hide MemberPieces, Render, NewLine;
    var open, close := [Piece(lead, LBrace)], [Piece(if members == [] then "" else NewLine(depth), RBrace)];
    RenderOne(lead, LBrace);
    RenderOne(if members == [] then "" else NewLine(depth), RBrace);
    RenderConcat(open, MemberPieces(members, depth + 1));
    RenderConcat(open + MemberPieces(members, depth + 1), close);
  }

  lemma NoMembers(depth: nat)
    ensures Render(MemberPieces([], depth)) == ""
  {
  }

  /** The object of all contacts, after the space that precedes it. */
  lemma ContactsObject(contacts: map<string, Entry>)
    ensures var names := Contacts.Sorted(contacts.Keys);
            Render(Pieces(JObject(Contacts.MapMembers(contacts, names)), " ", 1))
            == " {" + (if names == [] then "" else ContactLines(contacts, names) + "\n  ") + "}"
  {
    hide Contacts.EntryJson, ContactLines, NewLine, Pieces, MemberPieces, Render, Contacts.MapMembers, Contacts.Sorted;
    var names := Contacts.Sorted(contacts.Keys);
    var members := Contacts.MapMembers(contacts, names);
    Indents();
    ObjectText(members, " ", 1);
    assert " " + "{" == " {";
    if names != [] {
      ContactMembers(contacts, names);
      Assoc(" {" + ContactLines(contacts, names), "\n  ", "}");
      Assoc(" {", ContactLines(contacts, names), "\n  ");
    } else {
      NoMembers(2);
      assert members == [] && " {" + "" == " {" && "" + "}" == "}";
    }
  }

  /** The contacts file: every contact under its name, in the order of the names. */
  lemma ContactsFileText(contacts: map<string, Entry>)
    ensures var names := Contacts.Sorted(contacts.Keys);
            var text := "{\n  \"contacts\": {" + (if names == [] then "" else ContactLines(contacts, names) + "\n  ") + "}\n}";
            Contacts.ContactsText(contacts) == text && Contacts.ReadContacts(text) == Some(contacts)
  {
    hide Pieces, NewLine, ContactLines, Contacts.ReadContacts, Escape;
    var names := Contacts.Sorted(contacts.Keys);
    var value := JObject(Contacts.MapMembers(contacts, names));
    ContactsObject(contacts);
    OneMember(value);
    ContactsProofs.SavedContactsLoad(contacts);
    var inner := if names == [] then "" else ContactLines(contacts, names) + "\n  ";
    Assoc("{\n  \"contacts\":", " {" + inner, "}");
    Assoc("{\n  \"contacts\":", " {", inner);
    assert "{\n  \"contacts\":" + " {" == "{\n  \"contacts\": {";
    Assoc("{\n  \"contacts\": {" + inner, "}", "\n}");
    assert "}" + "\n}" == "}\n}";
  }

  lemma OneMemberObject(name: string, value: Json)
    requires Plain(name)
    ensures Pretty(Struct([name], [value])) == "{" + (NewLine(1) + "\"" + name + "\":" + Render(Pieces(value, " ", 1))) + (NewLine(0) + "}")
  {
    hide NewLine, Plain, Escape, Render;
    MemberText(name, value, 1);
    var j := Struct([name], [value]);
    var member := [Piece(NewLine(1), Str(Escape(name))), Piece("", Colon)] + Pieces(value, " ", 1);
    OneMemberPieces(name, value);
    RenderOne("", LBrace);
    RenderOne(NewLine(0), RBrace);
    RenderConcat([Piece("", LBrace)], member);
    RenderConcat([Piece("", LBrace)] + member, [Piece(NewLine(0), RBrace)]);
    assert "" + "{" == "{";
  }

  lemma OneMemberPieces(name: string, value: Json)
    ensures var j, member := Struct([name], [value]), [Piece(NewLine(1), Str(Escape(name))), Piece("", Colon)] + Pieces(value, " ", 1);
            Pieces(j, "", 0) == [Piece("", LBrace)] + member + [Piece(NewLine(0), RBrace)]
  {
    hide NewLine, Escape;
    var j, member := Struct([name], [value]), [Piece(NewLine(1), Str(Escape(name))), Piece("", Colon)] + Pieces(value, " ", 1);
    assert MemberPieces(j.members, 1) == member + [] == member;
  }

  lemma ContactsKey()
    ensures Plain("contacts") && "{" + ("\n  " + "\"" + "contacts" + "\":") == "{\n  \"contacts\":" && "\n" + "}" == "\n}"
  {
    hide Plain;
    LowerPlain("contacts");
  }

  lemma OneMember(value: Json)
    ensures Pretty(Struct(["contacts"], [value])) == "{\n  \"contacts\":" + Render(Pieces(value, " ", 1)) + "\n}"
  {
    hide NewLine, Plain, Pieces, Render, Pretty, Struct;
    ContactsKey();
    OneMemberObject("contacts", value);
    Indents();
    Assoc("{", "\n  " + "\"" + "contacts" + "\":", Render(Pieces(value, " ", 1)));
  }
}
