/** Every wire record survives encoding and decoding, also through the relay. */
module WireProofs {
  import opened Wrappers
  import opened Json
  import opened JsonProofs
  import opened Wire

  predicate Distinct(names: seq<string>) {
    forall i, j :: 0 <= i < j < |names| ==> names[i] != names[j]
  }

  lemma {:induction false} DecodeKeysStruct(members: seq<Member>, names: seq<string>)
    requires |members| == |names| && forall i :: 0 <= i < |names| ==> members[i].key == Escape(names[i])
    ensures DecodeKeys(members) == Some(names)
  {
    if names != [] {
      UnescapeEscape(names[0]);
      DecodeKeysStruct(members[1..], names[1..]);
      assert names == [names[0]] + names[1..];
    }
  }

  lemma {:induction false} FindFieldAt(names: seq<string>, i: nat)
    requires Distinct(names) && i < |names|
    ensures FindField(names, names[i]) == Some(i)
  {
    if i > 0 {
      FindFieldAt(names[1..], i - 1);
    }
  }

  /** A derived Deserialize finds exactly the values the derived Serialize wrote. */
  lemma {:induction false} FieldsStruct(names: seq<string>, values: seq<Json>)
    requires Distinct(names) && |names| == |values|
    ensures Fields(Struct(names, values), names) == Some(values)
  {
    var members := Struct(names, values).members;
    DecodeKeysStruct(members, names);
    forall i | 0 <= i < |names| ensures FindField(names, names[i]) == Some(i) {
      FindFieldAt(names, i);
    }
    assert seq(|names|, i requires 0 <= i < |names| => members[FindField(names, names[i]).value].value) == values;
  }

  lemma StructValid(names: seq<string>, values: seq<Json>)
    requires |names| == |values| && forall i :: 0 <= i < |values| ==> ValidJson(values[i])
    ensures ValidJson(Struct(names, values))
  {
    forall i | 0 <= i < |names| ensures ValidRaw(Escape(names[i])) {
      EscapeIsValidRaw(names[i]);
    }
  }

  lemma StringRoundTrip(s: string)
    ensures DecodeString(StringJson(s)) == Some(s) && ValidJson(StringJson(s))
  {
    UnescapeEscape(s);
    EscapeIsValidRaw(s);
  }

  lemma PlainNumber(lexeme: string)
    requires lexeme != "" && forall i :: 0 <= i < |lexeme| ==> IsDigit(lexeme[i])
    requires lexeme[0] != '0' || |lexeme| == 1
    ensures ValidNumber(lexeme)
  {
    AllDigits(lexeme);
    assert lexeme[0..] == lexeme;
    assert IntegerEnd(lexeme) == |lexeme|;
    assert lexeme[|lexeme|..] == "";
  }

  lemma DecimalSnoc(digits: string, d: nat)
    requires d < 10 && forall i :: 0 <= i < |digits| ==> IsDigit(digits[i])
    ensures forall i :: 0 <= i <= |digits| ==> IsDigit((digits + [Digit(d)])[i])
    ensures DecimalValue(digits + [Digit(d)]) == DecimalValue(digits) * 10 + d
  {
    var all := digits + [Digit(d)];
    assert all[..|all| - 1] == digits;
  }

  lemma {:induction false} DecimalRoundTrip(n: nat)
    ensures Decimal(n) != "" && forall i :: 0 <= i < |Decimal(n)| ==> IsDigit(Decimal(n)[i])
    ensures Decimal(n)[0] != '0' || |Decimal(n)| == 1
    ensures n > 0 ==> Decimal(n)[0] != '0'
    ensures DecimalValue(Decimal(n)) == n
  {
    if n < 10 {
      DecimalSnoc("", n);
      assert Decimal(n) == "" + [Digit(n)];
    } else {
      DecimalRoundTrip(n / 10);
      DecimalSnoc(Decimal(n / 10), n % 10);
    }
  }

  lemma U8RoundTrip(n: u8)
    ensures DecodeU8(U8Json(n)) == Some(n) && ValidJson(U8Json(n))
  {
    DecimalRoundTrip(n);
    PlainNumber(Decimal(n));
  }

  lemma {:induction false} AllDigits(s: string)
    requires forall i :: 0 <= i < |s| ==> IsDigit(s[i])
    ensures DigitCount(s) == |s|
  {
    if s != "" {
      AllDigits(s[1..]);
    }
  }

  lemma FieldNamesDistinct()
    ensures Distinct(PLAINTEXT_FIELDS) && Distinct(ENCRYPTED_FIELDS) && Distinct(ROUTED_FIELDS)
  {
  }

  lemma PlaintextJsonRoundTrip(m: Plaintext)
    ensures DecodePlaintextJson(PlaintextJson(m)) == Some(m) && ValidJson(PlaintextJson(m))
  {
    hide StringJson, DecodeString, ValidJson, Struct, Fields;
    StringRoundTrip(m.from);
    StringRoundTrip(m.to);
    StringRoundTrip(m.body);
    var values := [StringJson(m.from), StringJson(m.to), StringJson(m.body)];
    FieldNamesDistinct();
    FieldsStruct(PLAINTEXT_FIELDS, values);
    StructValid(PLAINTEXT_FIELDS, values);
  }

  lemma PlaintextRoundTrip(m: Plaintext)
    ensures DecodePlaintext(EncodePlaintext(m)) == Some(m)
  {
    hide PlaintextJson, DecodePlaintextJson, ValidJson, Parse, Compact;
    PlaintextJsonRoundTrip(m);
    ParseCompact(PlaintextJson(m));
  }

  lemma EncryptedValuesRoundTrip(m: Encrypted, values: seq<Json>)
    requires values == [U8Json(m.version), StringJson(m.senderKey), StringJson(m.nonce), StringJson(m.ciphertext)]
    ensures forall i :: 0 <= i < |values| ==> ValidJson(values[i])
    ensures DecodeU8(values[0]) == Some(m.version) && DecodeString(values[1]) == Some(m.senderKey)
    ensures DecodeString(values[2]) == Some(m.nonce) && DecodeString(values[3]) == Some(m.ciphertext)
  {
    hide Escape, Unescape, U8Json, DecodeU8, ValidJson;
    U8RoundTrip(m.version);
    StringRoundTrip(m.senderKey);
    StringRoundTrip(m.nonce);
    StringRoundTrip(m.ciphertext);
  }

  lemma EncryptedJsonRoundTrip(m: Encrypted)
    ensures DecodeEncryptedJson(EncryptedJson(m)) == Some(m) && ValidJson(EncryptedJson(m))
  {
    hide StringJson, DecodeString, U8Json, DecodeU8, ValidJson, Struct, Fields;
    var values := [U8Json(m.version), StringJson(m.senderKey), StringJson(m.nonce), StringJson(m.ciphertext)];
    EncryptedValuesRoundTrip(m, values);
    FieldNamesDistinct();
    FieldsStruct(ENCRYPTED_FIELDS, values);
    StructValid(ENCRYPTED_FIELDS, values);
  }

  lemma EncryptedRoundTrip(m: Encrypted)
    ensures DecodeEncrypted(EncodeEncrypted(m)) == Some(m)
  {
    hide EncryptedJson, DecodeEncryptedJson, ValidJson, Parse, Compact;
    EncryptedJsonRoundTrip(m);
    ParseCompact(EncryptedJson(m));
  }

  lemma RoutedJsonRoundTrip(m: Routed)
    ensures DecodeRoutedJson(RoutedJson(m)) == Some(m) && ValidJson(RoutedJson(m))
  {
    hide StringJson, DecodeString, EncryptedJson, DecodeEncryptedJson, ValidJson, Struct, Fields;
    var values := [StringJson(m.from), StringJson(m.to), EncryptedJson(m.encrypted)];
    StringRoundTrip(m.from);
    StringRoundTrip(m.to);
    EncryptedJsonRoundTrip(m.encrypted);
    FieldNamesDistinct();
    FieldsStruct(ROUTED_FIELDS, values);
    StructValid(ROUTED_FIELDS, values);
  }

  lemma RoutedRoundTrip(m: Routed)
    ensures DecodeRouted(EncodeRouted(m)) == Some(m)
  {
    hide RoutedJson, DecodeRoutedJson, ValidJson, Parse, Compact;
    RoutedJsonRoundTrip(m);
    ParseCompact(RoutedJson(m));
  }

  /** What the relay forwards for a frame: the re-encoded envelope only. */
  function Forwarded(frame: string): Option<string> {
    match DecodeRouted(frame)
    case None => None
    case Some(routed) => Some(EncodeEncrypted(routed.encrypted))
  }

  /** Through the relay: whatever a client routes, the recipient decodes the same envelope,
      and every frame the relay can parse (however spaced or ordered) forwards its envelope unchanged. */
  lemma RelayPreservesEnvelope(m: Routed, frame: string)
    ensures Forwarded(EncodeRouted(m)).Some?
    ensures DecodeEncrypted(Forwarded(EncodeRouted(m)).value) == Some(m.encrypted)
    ensures Forwarded(frame).Some? <==> DecodeRouted(frame).Some?
    ensures Forwarded(frame).Some? ==>
              DecodeEncrypted(Forwarded(frame).value) == Some(DecodeRouted(frame).value.encrypted)
  {
    RoutedRoundTrip(m);
    EncryptedRoundTrip(m.encrypted);
    if DecodeRouted(frame).Some? {
      EncryptedRoundTrip(DecodeRouted(frame).value.encrypted);
    }
  }

  // ---------------------------------------------------------------- what a derived struct accepts

  /** The name occurs at this position and nowhere else. */
  predicate OnlyAt(keys: seq<string>, name: string, i: nat) {
    i < |keys| && keys[i] == name && forall k :: 0 <= k < |keys| && keys[k] == name ==> k == i
  }

  lemma {:induction false} FindFieldExactly(keys: seq<string>, name: string, i: nat)
    ensures FindField(keys, name) == Some(i) <==> OnlyAt(keys, name, i)
    decreases |keys|
  {
    if keys != [] {
      if keys[0] == name {
        assert name in keys[1..] <==> exists k :: 0 < k < |keys| && keys[k] == name;
      } else if i > 0 {
        FindFieldExactly(keys[1..], name, i - 1);
        assert OnlyAt(keys, name, i) <==> OnlyAt(keys[1..], name, i - 1) by { OnlyAtTail(keys, name, i); }
      }
    }
  }

  lemma OnlyAtTail(keys: seq<string>, name: string, i: nat)
    requires keys != [] && keys[0] != name && i > 0
    ensures OnlyAt(keys, name, i) <==> OnlyAt(keys[1..], name, i - 1)
  {
    if OnlyAt(keys[1..], name, i - 1) {
      forall k | 0 <= k < |keys| && keys[k] == name ensures k == i {
        assert keys[1..][k - 1] == name;
      }
    }
    if OnlyAt(keys, name, i) {
      forall k | 0 <= k < |keys[1..]| && keys[1..][k] == name ensures k == i - 1 {
        assert keys[k + 1] == name;
      }
    }
  }

  /** From an object, a struct is read exactly when each of its fields occurs once, whatever the order
      and whatever else is there; from an array, exactly when it has as many items as fields; and
      from nothing else. */
  lemma FieldsExactly(j: Json, names: seq<string>, keys: seq<string>)
    ensures j.JObject? && DecodeKeys(j.members) == Some(keys) ==>
              (Fields(j, names).Some? <==> forall n :: 0 <= n < |names| ==> Found(keys, names[n]))
    ensures j.JArray? ==> Fields(j, names) == if |j.items| == |names| then Some(j.items) else None
    ensures !j.JObject? && !j.JArray? ==> Fields(j, names) == None
  {
    hide Unescape, FindField, Found;
    forall n | 0 <= n < |names| ensures Found(keys, names[n]) <==> FindField(keys, names[n]).Some? {
      FoundExactly(keys, names[n]);
    }
  }

  /** And then each field has the value that stands under its name. */
  lemma FieldValue(members: seq<Member>, names: seq<string>, keys: seq<string>, n: nat, i: nat)
    requires DecodeKeys(members) == Some(keys) && Fields(JObject(members), names).Some? && n < |names| && OnlyAt(keys, names[n], i)
    ensures i < |members| && Fields(JObject(members), names).value[n] == members[i].value
  {
    hide Unescape, FindField;
    FindFieldExactly(keys, names[n], i);
  }

  /** The name occurs exactly once. */
  ghost predicate Found(keys: seq<string>, name: string) {
    exists i: nat :: OnlyAt(keys, name, i)
  }

  lemma FoundExactly(keys: seq<string>, name: string)
    ensures Found(keys, name) <==> FindField(keys, name).Some?
  {
    hide FindField, OnlyAt;
    if FindField(keys, name).Some? {
      FindFieldExactly(keys, name, FindField(keys, name).value);
    }
    if i: nat :| OnlyAt(keys, name, i) {
      FindFieldExactly(keys, name, i);
    }
  }

  lemma DivideByTen(w: nat, d: nat)
    requires d < 10
    ensures (w * 10 + d) / 10 == w && (w * 10 + d) % 10 == d
  {
  }

  lemma DigitOfValue(c: char)
    requires IsDigit(c)
    ensures HexValue(c) < 10 && Digit(HexValue(c)) == c && (c != '0' ==> HexValue(c) > 0)
  {
  }

  lemma {:induction false} DecimalUnique(digits: string)
    requires digits != "" && (forall i :: 0 <= i < |digits| ==> IsDigit(digits[i])) && (digits[0] != '0' || |digits| == 1)
    ensures Decimal(DecimalValue(digits)) == digits && (digits[0] != '0' ==> DecimalValue(digits) > 0)
  {
    hide IsDigit, HexValue, Digit;
    var last := |digits| - 1;
    var before, d := DecimalValue(digits[..last]), HexValue(digits[last]);
    assert digits == digits[..last] + [digits[last]];
    DigitOfValue(digits[last]);
    DivideByTen(before, d);
    if last > 0 {
      DecimalUnique(digits[..last]);
    } else {
      assert digits[..last] == "";
    }
  }

  /** Only a plain decimal number from 0 to 255 is read as a version: no sign, fraction or exponent. */
  lemma VersionExactly(lexeme: string, n: u8)
    requires lexeme != "" && (lexeme[0] == '0' ==> |lexeme| == 1 || !IsDigit(lexeme[1]))
    ensures DecodeU8(JNumber(lexeme)) == Some(n) <==> lexeme == Decimal(n)
  {
    hide Decimal;
    U8RoundTrip(n);
    if DecodeU8(JNumber(lexeme)) == Some(n) {
      DecimalUnique(lexeme);
    }
  }
}
