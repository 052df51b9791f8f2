/** shared/src/lib.rs: the wire records, their serde_json codecs and the text validators. */
module Wire {
  import opened Wrappers
  import opened Json

  type u8 = n: int | 0 <= n < 256

  datatype Plaintext = Plaintext(from: string, to: string, body: string)
  datatype Encrypted = Encrypted(version: u8, senderKey: string, nonce: string, ciphertext: string)
  datatype Routed = Routed(from: string, to: string, encrypted: Encrypted)
  datatype Entry = Entry(username: string, identityKey: string, encryptionKey: string)

  // ---------------------------------------------------------------- validators

  const KEY_TEXT_LEN := 43
  const MAX_USERNAME_LEN := 64

  predicate IsAlphanumeric(c: char) {
    'a' <= c <= 'z' || 'A' <= c <= 'Z' || '0' <= c <= '9'
  }

  predicate IsValidUsername(username: string) {
    && username != ""
    && |username| <= MAX_USERNAME_LEN
    && forall i :: 0 <= i < |username| ==> IsAlphanumeric(username[i]) || username[i] in "-_."
  }

  /** Both key validators of the source; they differ only in name. */
  predicate IsValidKeyText(key: string) {
    |key| == KEY_TEXT_LEN && forall i :: 0 <= i < |key| ==> IsAlphanumeric(key[i]) || key[i] in "-_"
  }

  // ---------------------------------------------------------------- derived struct codecs

  /** The object serde_json writes for a struct: its fields in declaration order. */
  function Struct(names: seq<string>, values: seq<Json>): Json
    requires |names| == |values|
  {
    JObject(seq(|names|, i requires 0 <= i < |names| => Member(Escape(names[i]), values[i])))
  }

  function DecodeKeys(members: seq<Member>): (keys: Option<seq<string>>)
    ensures keys.Some? ==> |keys.value| == |members|
  {
    if members == [] then Some([])
    else
      match (Unescape(members[0].key), DecodeKeys(members[1..]))
      case (Some(key), Some(keys)) => Some([key] + keys)
      case _ => None
  }

  /** The position of a name that occurs exactly once; a repeated field is an error. */
  function FindField(keys: seq<string>, name: string): (i: Option<nat>)
    ensures i.Some? ==> i.value < |keys| && keys[i.value] == name
  {
    if keys == [] then None
    else if keys[0] == name then if name in keys[1..] then None else Some(0)
    else Shift(1, FindField(keys[1..], name))
  }

  predicate HasFields(keys: seq<string>, names: seq<string>) {
    forall i :: 0 <= i < |names| ==> FindField(keys, names[i]).Some?
  }

  /** The field values a derived Deserialize collects: from an object with every field exactly
      once (others are ignored), or from an array that lists exactly the fields in order. */
  function Fields(j: Json, names: seq<string>): (values: Option<seq<Json>>)
    ensures values.Some? ==> |values.value| == |names|
  {
    match j
    case JArray(items) => if |items| == |names| then Some(items) else None
    case JObject(members) =>
      (match DecodeKeys(members)
       case None => None
       case Some(keys) =>
         if HasFields(keys, names) then
           Some(seq(|names|, i requires 0 <= i < |names| => members[FindField(keys, names[i]).value].value))
         else None)
    case _ => None
  }

  function StringJson(s: string): Json { JString(Escape(s)) }

  function DecodeString(j: Json): Option<string> {
    if j.JString? then Unescape(j.raw) else None
  }

  function Digit(n: nat): char
    requires n < 10
  {
    ('0' as int + n) as char
  }

  function Decimal(n: nat): string {
    if n < 10 then [Digit(n)] else Decimal(n / 10) + [Digit(n % 10)]
  }

  function U8Json(n: u8): Json { JNumber(Decimal(n)) }

  function DecimalValue(digits: string): nat
    requires forall i :: 0 <= i < |digits| ==> IsDigit(digits[i])
  {
    if digits == "" then 0
    else DecimalValue(digits[..|digits| - 1]) * 10 + HexValue(digits[|digits| - 1])
  }

  function DecodeU8(j: Json): Option<u8> {
    if !j.JNumber? || exists i :: 0 <= i < |j.lexeme| && !IsDigit(j.lexeme[i]) then None
    else if DecimalValue(j.lexeme) < 256 then Some(DecimalValue(j.lexeme)) else None
  }

  const PLAINTEXT_FIELDS := ["from", "to", "body"]
  const ENCRYPTED_FIELDS := ["version", "sender_encryption_public_key", "nonce", "ciphertext"]
  const ROUTED_FIELDS := ["from", "to", "encrypted"]

  function PlaintextJson(m: Plaintext): Json {
    Struct(PLAINTEXT_FIELDS, [StringJson(m.from), StringJson(m.to), StringJson(m.body)])
  }

  function DecodePlaintextJson(j: Json): Option<Plaintext> {
    match Fields(j, PLAINTEXT_FIELDS)
    case None => None
    case Some(v) =>
      match (DecodeString(v[0]), DecodeString(v[1]), DecodeString(v[2]))
      case (Some(from), Some(to), Some(body)) => Some(Plaintext(from, to, body))
      case _ => None
  }

  function EncryptedJson(m: Encrypted): Json {
    Struct(ENCRYPTED_FIELDS,
           [U8Json(m.version), StringJson(m.senderKey), StringJson(m.nonce), StringJson(m.ciphertext)])
  }

  function DecodeEncryptedJson(j: Json): Option<Encrypted> {
    match Fields(j, ENCRYPTED_FIELDS)
    case None => None
    case Some(v) =>
      match (DecodeU8(v[0]), DecodeString(v[1]), DecodeString(v[2]), DecodeString(v[3]))
      case (Some(version), Some(senderKey), Some(nonce), Some(ciphertext)) =>
        Some(Encrypted(version, senderKey, nonce, ciphertext))
      case _ => None
  }

  function RoutedJson(m: Routed): Json {
    Struct(ROUTED_FIELDS, [StringJson(m.from), StringJson(m.to), EncryptedJson(m.encrypted)])
  }

  function DecodeRoutedJson(j: Json): Option<Routed> {
    match Fields(j, ROUTED_FIELDS)
    case None => None
    case Some(v) =>
      match (DecodeString(v[0]), DecodeString(v[1]), DecodeEncryptedJson(v[2]))
      case (Some(from), Some(to), Some(encrypted)) => Some(Routed(from, to, encrypted))
      case _ => None
  }

  function EncodePlaintext(m: Plaintext): string { Compact(PlaintextJson(m)) }

  function EncodeEncrypted(m: Encrypted): string { Compact(EncryptedJson(m)) }

  function EncodeRouted(m: Routed): string { Compact(RoutedJson(m)) }

  function DecodePlaintext(wire: string): Option<Plaintext> {
    match Parse(wire)
    case None => None
    case Some(j) => DecodePlaintextJson(j)
  }

  function DecodeEncrypted(wire: string): Option<Encrypted> {
    match Parse(wire)
    case None => None
    case Some(j) => DecodeEncryptedJson(j)
  }

  function DecodeRouted(wire: string): Option<Routed> {
    match Parse(wire)
    case None => None
    case Some(j) => DecodeRoutedJson(j)
  }
}
