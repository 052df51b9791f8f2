/** serde_json::to_string_pretty: the layout of the files that the clients keep. */
module PrettyJson {
  import opened Wrappers
  import opened Json
  import opened JsonProofs

  function Indent(depth: nat): (space: string)
    ensures forall j :: 0 <= j < |space| ==> IsSpace(space[j])
  {
    if depth == 0 then "" else "  " + Indent(depth - 1)
  }

  /** A new line, indented by two spaces for every open bracket. */
  function NewLine(depth: nat): (space: string)
    ensures forall j :: 0 <= j < |space| ==> IsSpace(space[j])
  {
    "\n" + Indent(depth)
  }

  predicate Spaced(ps: seq<Piece>) {
    forall i :: 0 <= i < |ps| ==> forall j :: 0 <= j < |ps[i].space| ==> IsSpace(ps[i].space[j])
  }

  /** A value with `lead` before its first token; an empty array or object stays on one line. */
  function Pieces(j: Json, lead: string, depth: nat): (ps: seq<Piece>)
    decreases j, 0
  {
    match j
    case JNull => [Piece(lead, Null)]
    case JBool(b) => [Piece(lead, if b then True else False)]
    case JNumber(lexeme) => [Piece(lead, Num(lexeme))]
    case JString(raw) => [Piece(lead, Str(raw))]
    case JArray(items) =>
      [Piece(lead, LBracket)] + ItemPieces(items, depth + 1) + [Piece(if items == [] then "" else NewLine(depth), RBracket)]
    case JObject(members) =>
      [Piece(lead, LBrace)] + MemberPieces(members, depth + 1) + [Piece(if members == [] then "" else NewLine(depth), RBrace)]
  }

  function ItemPieces(items: seq<Json>, depth: nat): seq<Piece>
    decreases items, 1
  {
    if items == [] then []
    else Pieces(items[0], NewLine(depth), depth)
         + (if |items| == 1 then [] else [Piece("", Comma)] + ItemPieces(items[1..], depth))
  }

  function MemberPieces(members: seq<Member>, depth: nat): seq<Piece>
    decreases members, 1
  {
    if members == [] then []
    else
      [Piece(NewLine(depth), Str(members[0].key)), Piece("", Colon)] + Pieces(members[0].value, " ", depth)
      + (if |members| == 1 then [] else [Piece("", Comma)] + MemberPieces(members[1..], depth))
  }

  function Pretty(j: Json): string {
    Render(Pieces(j, "", 0))
  }

  lemma {:induction false} TokensConcat(a: seq<Piece>, b: seq<Piece>)
    ensures TokensOf(a + b) == TokensOf(a) + TokensOf(b)
  {
  }

  /** ps spells ts with only white space added. */
  predicate Spells(ps: seq<Piece>, ts: seq<Token>) {
    Spaced(ps) && TokensOf(ps) == ts
  }

  lemma SpellsConcat(a: seq<Piece>, s: seq<Token>, b: seq<Piece>, t: seq<Token>)
    requires Spells(a, s) && Spells(b, t)
    ensures Spells(a + b, s + t)
  {
    TokensConcat(a, b);
  }

  lemma SpellsOne(space: string, token: Token)
    requires forall j :: 0 <= j < |space| ==> IsSpace(space[j])
    ensures Spells([Piece(space, token)], [token])
  {
  }

  lemma {:induction false} SpellsValue(j: Json, lead: string, depth: nat)
    requires forall i :: 0 <= i < |lead| ==> IsSpace(lead[i])
    ensures Spells(Pieces(j, lead, depth), Tokens(j))
    decreases j, 0
  {
    hide Spells;
    match j {
      case JArray(items) =>
        SpellsOne(lead, LBracket);
        SpellsItems(items, depth + 1);
        SpellsConcat([Piece(lead, LBracket)], [LBracket], ItemPieces(items, depth + 1), ItemTokens(items));
        SpellsOne(if items == [] then "" else NewLine(depth), RBracket);
        SpellsConcat([Piece(lead, LBracket)] + ItemPieces(items, depth + 1), [LBracket] + ItemTokens(items),
                     [Piece(if items == [] then "" else NewLine(depth), RBracket)], [RBracket]);
      case JObject(members) =>
        SpellsOne(lead, LBrace);
        SpellsMembers(members, depth + 1);
        SpellsConcat([Piece(lead, LBrace)], [LBrace], MemberPieces(members, depth + 1), MemberTokens(members));
        SpellsOne(if members == [] then "" else NewLine(depth), RBrace);
        SpellsConcat([Piece(lead, LBrace)] + MemberPieces(members, depth + 1), [LBrace] + MemberTokens(members),
                     [Piece(if members == [] then "" else NewLine(depth), RBrace)], [RBrace]);
      case _ => SpellsOne(lead, Tokens(j)[0]);
    }
  }

  lemma {:induction false} SpellsItems(items: seq<Json>, depth: nat)
    ensures Spells(ItemPieces(items, depth), ItemTokens(items))
    decreases items, 1
  {
    if items != [] {
      SpellsValue(items[0], NewLine(depth), depth);
      if |items| > 1 {
        SpellsItems(items[1..], depth);
        SpellsOne("", Comma);
        SpellsConcat([Piece("", Comma)], [Comma], ItemPieces(items[1..], depth), ItemTokens(items[1..]));
        SpellsConcat(Pieces(items[0], NewLine(depth), depth), Tokens(items[0]),
                     [Piece("", Comma)] + ItemPieces(items[1..], depth), [Comma] + ItemTokens(items[1..]));
      } else {
        assert ItemPieces(items, depth) == Pieces(items[0], NewLine(depth), depth) && ItemTokens(items) == Tokens(items[0]);
      }
    }
  }

  lemma SpellsHead(first: Member, depth: nat)
    requires Spells(Pieces(first.value, " ", depth), Tokens(first.value))
    ensures Spells([Piece(NewLine(depth), Str(first.key)), Piece("", Colon)] + Pieces(first.value, " ", depth),
                   [Str(first.key), Colon] + Tokens(first.value))
  {
    hide Spells;
    SpellsOne(NewLine(depth), Str(first.key));
    SpellsOne("", Colon);
    SpellsConcat([Piece(NewLine(depth), Str(first.key))], [Str(first.key)], [Piece("", Colon)], [Colon]);
    assert [Piece(NewLine(depth), Str(first.key))] + [Piece("", Colon)] == [Piece(NewLine(depth), Str(first.key)), Piece("", Colon)];
    assert [Str(first.key)] + [Colon] == [Str(first.key), Colon];
    SpellsConcat([Piece(NewLine(depth), Str(first.key)), Piece("", Colon)], [Str(first.key), Colon],
                 Pieces(first.value, " ", depth), Tokens(first.value));
  }

  lemma {:induction false} SpellsMembers(members: seq<Member>, depth: nat)
    ensures Spells(MemberPieces(members, depth), MemberTokens(members))
    decreases members, 1
  {
    if members != [] {
      hide Spells;
      var first := members[0];
      SpellsValue(first.value, " ", depth);
      SpellsHead(first, depth);
      var head := [Piece(NewLine(depth), Str(first.key)), Piece("", Colon)] + Pieces(first.value, " ", depth);
      var headTokens := [Str(first.key), Colon] + Tokens(first.value);
      if |members| > 1 {
        SpellsMembers(members[1..], depth);
        SpellsOne("", Comma);
        SpellsConcat([Piece("", Comma)], [Comma], MemberPieces(members[1..], depth), MemberTokens(members[1..]));
        SpellsConcat(head, headTokens, [Piece("", Comma)] + MemberPieces(members[1..], depth), [Comma] + MemberTokens(members[1..]));
      } else {
        assert MemberPieces(members, depth) == head && MemberTokens(members) == headTokens;
      }
    } else {
      assert Spells([], []);
    }
  }

  /** A JSON tree written with indentation parses back to the tree. */
  lemma ParsePretty(j: Json)
    requires ValidJson(j)
    ensures Parse(Pretty(j)) == Some(j)
  {
    hide Parse, Render;
    var ps := Pieces(j, "", 0);
    SpellsValue(j, "", 0);
    TokensPrintable(j);
    forall i | 0 <= i < |ps| ensures ps[i].token == Tokens(j)[i] {
    }
    ParseRender(j, ps);
  }
}
