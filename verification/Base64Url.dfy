/**
 * base64url without padding and with strict trailing bits (sections 3.5 and 5 of RFC 4648): the
 * engine the clients use for keys, nonces and ciphertexts. Keys are compared as texts, so that
 * every text that decodes is the only text of its bytes carries weight.
 */
module Base64Url {
  import opened Wrappers
  import Wire

  type byte = b: int | 0 <= b < 256
  type Bytes = seq<byte>

  // ---------------------------------------------------------------- symbols

  predicate IsSymbol(c: char) {
    Wire.IsAlphanumeric(c) || c == '-' || c == '_'
  }

  function Value(c: char): (v: nat)
    requires IsSymbol(c)
    ensures v < 64
  {
    if 'A' <= c <= 'Z' then c as int - 'A' as int
    else if 'a' <= c <= 'z' then c as int - 'a' as int + 26
    else if '0' <= c <= '9' then c as int - '0' as int + 52
    else if c == '-' then 62 else 63
  }

  function Symbol(v: nat): (c: char)
    requires v < 64
    ensures IsSymbol(c) && Value(c) == v
  {
    if v < 26 then ('A' as int + v) as char
    else if v < 52 then ('a' as int + (v - 26)) as char
    else if v < 62 then ('0' as int + (v - 52)) as char
    else if v == 62 then '-' else '_'
  }

  lemma SymbolOfValue(c: char)
    requires IsSymbol(c)
    ensures Symbol(Value(c)) == c
  {
  }

  predicate AllSymbols(text: string) {
    forall i :: 0 <= i < |text| ==> IsSymbol(text[i])
  }

  // ---------------------------------------------------------------- the codec

  /** The four six-bit values of three bytes, and the three bytes of four six-bit values. */
  function Sextet0(b0: byte): (v: nat) ensures v < 64 { b0 / 4 }
  function Sextet1(b0: byte, b1: byte): (v: nat) ensures v < 64 { b0 % 4 * 16 + b1 / 16 }
  function Sextet2(b1: byte, b2: byte): (v: nat) ensures v < 64 { b1 % 16 * 4 + b2 / 64 }
  function Sextet3(b2: byte): (v: nat) ensures v < 64 { b2 % 64 }

  function Byte0(v0: nat, v1: nat): byte requires v0 < 64 && v1 < 64 { v0 * 4 + v1 / 16 }
  function Byte1(v1: nat, v2: nat): byte requires v1 < 64 && v2 < 64 { v1 % 16 * 16 + v2 / 4 }
  function Byte2(v2: nat, v3: nat): byte requires v2 < 64 && v3 < 64 { v2 % 4 * 64 + v3 }

  /** Up to three bytes: two, three or four symbols. */
  function EncodeGroup(bs: Bytes): (text: string)
    requires |bs| <= 3
    ensures |text| == if bs == [] then 0 else |bs| + 1
    ensures AllSymbols(text)
  {
    match |bs|
    case 0 => ""
    case 1 => [Symbol(Sextet0(bs[0])), Symbol(Sextet1(bs[0], 0))]
    case 2 => [Symbol(Sextet0(bs[0])), Symbol(Sextet1(bs[0], bs[1])), Symbol(Sextet2(bs[1], 0))]
    case _ => [Symbol(Sextet0(bs[0])), Symbol(Sextet1(bs[0], bs[1])), Symbol(Sextet2(bs[1], bs[2])), Symbol(Sextet3(bs[2]))]
  }

  /** None for a foreign symbol, a dangling symbol, or a nonzero bit after the last whole byte. */
  function DecodeGroup(text: string): (bs: Option<Bytes>)
    requires |text| <= 4
    ensures bs.Some? ==> |text| != 1 && |bs.value| == if text == "" then 0 else |text| - 1
  {
    if !AllSymbols(text) then None
    else
      match |text|
      case 0 => Some([])
      case 1 => None
      case 2 => if Value(text[1]) % 16 != 0 then None else Some([Byte0(Value(text[0]), Value(text[1]))])
      case 3 =>
        if Value(text[2]) % 4 != 0 then None
        else Some([Byte0(Value(text[0]), Value(text[1])), Byte1(Value(text[1]), Value(text[2]))])
      case _ =>
        Some([Byte0(Value(text[0]), Value(text[1])), Byte1(Value(text[1]), Value(text[2])), Byte2(Value(text[2]), Value(text[3]))])
  }

  function Encode(bs: Bytes): string {
    if |bs| <= 3 then EncodeGroup(bs) else EncodeGroup(bs[..3]) + Encode(bs[3..])
  }

  function Decode(text: string): Option<Bytes> {
    if |text| <= 4 then DecodeGroup(text)
    else
      match (DecodeGroup(text[..4]), Decode(text[4..]))
      case (Some(group), Some(rest)) => Some(group + rest)
      case _ => None
  }

  lemma Ungroup(b0: byte, b1: byte, b2: byte)
    ensures Byte0(Sextet0(b0), Sextet1(b0, b1)) == b0 && Byte1(Sextet1(b0, b1), Sextet2(b1, b2)) == b1
    ensures Byte2(Sextet2(b1, b2), Sextet3(b2)) == b2
    ensures Sextet1(b0, 0) % 16 == 0 && Sextet2(b1, 0) % 4 == 0
  {
  }

  lemma DecodeEncodeGroup(bs: Bytes)
    requires |bs| <= 3
    ensures DecodeGroup(EncodeGroup(bs)) == Some(bs)
  {
    hide Symbol, Value, IsSymbol, Sextet0, Sextet1, Sextet2, Sextet3, Byte0, Byte1, Byte2;
    if bs != [] {
      Ungroup(bs[0], if |bs| > 1 then bs[1] else 0, if |bs| > 2 then bs[2] else 0);
      var again := DecodeGroup(EncodeGroup(bs));
      assert again.Some? && |again.value| == |bs| && again.value[0] == bs[0];
      assert |bs| > 1 ==> again.value[1] == bs[1];
      assert |bs| > 2 ==> again.value[2] == bs[2];
      assert again.value == bs;
    }
  }

  lemma Regroup(v0: nat, v1: nat, v2: nat, v3: nat)
    requires v0 < 64 && v1 < 64 && v2 < 64 && v3 < 64
    ensures Sextet0(Byte0(v0, v1)) == v0 && Sextet1(Byte0(v0, v1), Byte1(v1, v2)) == v1
    ensures Sextet2(Byte1(v1, v2), Byte2(v2, v3)) == v2 && Sextet3(Byte2(v2, v3)) == v3
    ensures v1 % 16 == 0 ==> Sextet1(Byte0(v0, v1), 0) == v1
    ensures v2 % 4 == 0 ==> Sextet2(Byte1(v1, v2), 0) == v2
  {
  }

  lemma EncodeDecodeGroup(text: string)
    requires |text| <= 4 && DecodeGroup(text).Some?
    ensures EncodeGroup(DecodeGroup(text).value) == text
  {
    hide Symbol, Value, IsSymbol, Sextet0, Sextet1, Sextet2, Sextet3, Byte0, Byte1, Byte2;
    if text != "" {
      forall i | 0 <= i < |text| ensures IsSymbol(text[i]) && Symbol(Value(text[i])) == text[i] {
        SymbolOfValue(text[i]);
      }
      Regroup(Value(text[0]), Value(text[1]), if |text| > 2 then Value(text[2]) else 0, if |text| > 3 then Value(text[3]) else 0);
    }
  }

  /** Decoding what was encoded gives the bytes back, for every byte string. */
  lemma {:induction false} DecodeEncode(bs: Bytes)
    ensures Decode(Encode(bs)) == Some(bs)
    ensures bs != [] ==> |Encode(bs)| > 1
  {
    hide EncodeGroup, DecodeGroup, AllSymbols;
    if |bs| <= 3 {
      DecodeEncodeGroup(bs);
    } else {
      DecodeEncodeGroup(bs[..3]);
      DecodeEncode(bs[3..]);
      var text := Encode(bs);
      assert text[..4] == EncodeGroup(bs[..3]) && text[4..] == Encode(bs[3..]);
      assert bs == bs[..3] + bs[3..];
    }
  }

  /** Encoding what was decoded gives the text back: every decodable text is canonical. */
  lemma {:induction false} EncodeDecode(text: string)
    requires Decode(text).Some?
    ensures Encode(Decode(text).value) == text
    ensures text != "" ==> Decode(text).value != []
  {
    hide EncodeGroup, DecodeGroup, AllSymbols;
    if |text| <= 4 {
      EncodeDecodeGroup(text);
    } else {
      EncodeDecodeGroup(text[..4]);
      EncodeDecode(text[4..]);
      var bs := Decode(text).value;
      assert bs[..3] == DecodeGroup(text[..4]).value && bs[3..] == Decode(text[4..]).value;
      assert text == text[..4] + text[4..];
    }
  }

  /** Two decodable texts are equal exactly when their bytes are. */
  lemma TextEqualsBytes(a: string, b: string)
    requires Decode(a).Some? && Decode(b).Some?
    ensures a == b <==> Decode(a) == Decode(b)
  {
    EncodeDecode(a);
    EncodeDecode(b);
  }

  // ---------------------------------------------------------------- which texts decode

  /** The bits after the last whole byte are zero, and no symbol dangles. */
  predicate ProperTail(text: string)
    requires AllSymbols(text)
  {
    match |text| % 4
    case 0 => true
    case 1 => false
    case 2 => Value(text[|text| - 1]) % 16 == 0
    case _ => Value(text[|text| - 1]) % 4 == 0
  }

  /** Exactly the symbol texts with a proper tail decode, three bytes for every four symbols. */
  lemma {:induction false} DecodesExactly(text: string)
    ensures Decode(text).Some? <==> AllSymbols(text) && ProperTail(text)
    ensures Decode(text).Some? ==> |Decode(text).value| == |text| * 3 / 4
  {
    if |text| > 4 {
      hide ProperTail;
      var head, tail := text[..4], text[4..];
      DecodesExactly(tail);
      assert DecodeGroup(head).Some? <==> AllSymbols(head);
      assert AllSymbols(text) <==> AllSymbols(head) && AllSymbols(tail) by {
        assert text == head + tail;
      }
      assert AllSymbols(text) ==> (ProperTail(text) <==> ProperTail(tail)) by {
        SameTail(text, tail);
      }
    }
  }

  lemma SameTail(text: string, tail: string)
    requires |text| > 4 && tail == text[4..]
    ensures AllSymbols(text) ==> AllSymbols(tail) && (ProperTail(text) <==> ProperTail(tail))
  {
    assert tail[|tail| - 1] == text[|text| - 1];
    assert |tail| % 4 == |text| % 4;
  }

  lemma EncodeLength(bs: Bytes)
    ensures |Encode(bs)| == (|bs| * 4 + 2) / 3 && AllSymbols(Encode(bs))
  {
    DecodeEncode(bs);
    DecodesExactly(Encode(bs));
  }

  // ---------------------------------------------------------------- keys and nonces

  /** decode_fixed_key and decode_key: a text of exactly 32 bytes. */
  function DecodeKey(text: string): (key: Option<Bytes>)
    ensures key.Some? ==> |key.value| == 32
  {
    match Decode(text)
    case Some(bs) => if |bs| == 32 then Some(bs) else None
    case None => None
  }

  /** decode_nonce: a text of exactly 24 bytes. */
  function DecodeNonce(text: string): (nonce: Option<Bytes>)
    ensures nonce.Some? ==> |nonce.value| == 24
  {
    match Decode(text)
    case Some(bs) => if |bs| == 24 then Some(bs) else None
    case None => None
  }

  lemma KeyTextAlphabet(text: string)
    ensures Wire.IsValidKeyText(text) <==> |text| == 43 && AllSymbols(text)
  {
  }

  /** Every 32-byte key encodes to a text the server's validators accept, and decodes back. */
  lemma KeyRoundTrip(key: Bytes)
    requires |key| == 32
    ensures Wire.IsValidKeyText(Encode(key)) && DecodeKey(Encode(key)) == Some(key)
  {
    DecodeEncode(key);
    EncodeLength(key);
    KeyTextAlphabet(Encode(key));
  }

  /** A text decodes to a key exactly when the validators accept it and its last symbol has no
      spare bits set; the validators alone also accept texts no client can decode. */
  lemma KeyTextArithmetic(text: string)
    ensures DecodeKey(text).Some? <==> Wire.IsValidKeyText(text) && Value(text[42]) % 4 == 0
  {
    DecodesExactly(text);
    KeyTextAlphabet(text);
  }

  lemma SpareBitSet()
    ensures IsSymbol('B') && Value('B') == 1
  {
  }

  /** An accepted key text that no client can use. */
  lemma AcceptedButUndecodable()
    ensures exists text :: Wire.IsValidKeyText(text) && DecodeKey(text).None?
  {
    hide Wire.IsValidKeyText, Decode, DecodeKey, Value, IsSymbol;
    var text := seq(43, i => 'B');
    assert forall i :: 0 <= i < 43 ==> text[i] == 'B';
    SpareBitSet();
    KeyTextAlphabet(text);
    KeyTextArithmetic(text);
  }

  /** Every 24-byte nonce is exactly 32 symbols, and every 32 symbols are a nonce. */
  lemma NonceText(nonce: Bytes, text: string)
    ensures |nonce| == 24 ==> |Encode(nonce)| == 32 && AllSymbols(Encode(nonce)) && DecodeNonce(Encode(nonce)) == Some(nonce)
    ensures DecodeNonce(text).Some? <==> |text| == 32 && AllSymbols(text)
  {
    DecodeEncode(nonce);
    EncodeLength(nonce);
    DecodesExactly(text);
  }

  /** The receiver's comparison of key texts is a comparison of keys. */
  lemma KeyTextComparison(a: string, b: string)
    requires DecodeKey(a).Some? && DecodeKey(b).Some?
    ensures a == b <==> DecodeKey(a) == DecodeKey(b)
  {
    TextEqualsBytes(a, b);
  }
}
