/** client/src/identity.rs: a name's key pairs, kept in one file per name. */
module Identity {
  import opened Wrappers
  import opened Json
  import opened PrettyJson
  import opened Wire
  import opened Base64Url
  import Crypto
  import opened ClientFiles

  type Key = Crypto.Key

  /** Ed25519: the public key of a secret, and which 32 bytes are a public key at all. */
  datatype Signatures = Signatures(verifying: Key -> Key, isPoint: Key -> bool)

  ghost predicate LawfulSignatures(sig: Signatures) {
    forall secret: Key :: sig.isPoint(sig.verifying(secret))
  }

  datatype Stored = Stored(identityKey: string, identitySecret: string, encryptionKey: string, encryptionSecret: string)
  datatype Legacy = Legacy(publicKey: string, secretKey: string)
  datatype Content = Current(stored: Stored) | Outdated(legacy: Legacy)
  datatype Identity = Identity(identityKey: string, encryptionKey: string, encryptionSecret: Key, path: string, wasCreated: bool)

  // ---------------------------------------------------------------- the file

  const STORED_FIELDS := ["identity_public_key", "identity_secret_key", "encryption_public_key", "encryption_secret_key"]
  const LEGACY_FIELDS := ["public_key", "secret_key"]

  function StoredJson(s: Stored): Json {
    Struct(STORED_FIELDS,
           [StringJson(s.identityKey), StringJson(s.identitySecret), StringJson(s.encryptionKey), StringJson(s.encryptionSecret)])
  }

  function StoredText(s: Stored): string {
    Pretty(StoredJson(s))
  }

  /** Reading into a serde_json::Value decodes every string, also those that nothing asks for. */
  predicate TextsDecode(j: Json)
    decreases j, 0
  {
    match j
    case JString(raw) => Unescape(raw).Some?
    case JArray(items) => forall i :: 0 <= i < |items| ==> TextsDecode(items[i])
    case JObject(members) => forall i :: 0 <= i < |members| ==> Unescape(members[i].key).Some? && TextsDecode(members[i].value)
    case _ => true
  }

  /** Value::get on an object: of a repeated key the last value stays. */
  function LastField(members: seq<Member>, name: string): Option<Json> {
    if members == [] then None
    else
      var last := members[|members| - 1];
      if Unescape(last.key) == Some(name) then Some(last.value) else LastField(members[..|members| - 1], name)
  }

  /** What from_value collects for a struct. */
  function ValueFields(j: Json, names: seq<string>): (values: Option<seq<Json>>)
    ensures values.Some? ==> |values.value| == |names|
  {
    match j
    case JArray(items) => if |items| == |names| then Some(items) else None
    case JObject(members) =>
      if forall i :: 0 <= i < |names| ==> LastField(members, names[i]).Some? then
        Some(seq(|names|, i requires 0 <= i < |names| => LastField(members, names[i]).value))
      else None
    case _ => None
  }

  function DecodeStored(j: Json): Option<Stored> {
    match ValueFields(j, STORED_FIELDS)
    case None => None
    case Some(v) =>
      match (DecodeString(v[0]), DecodeString(v[1]), DecodeString(v[2]), DecodeString(v[3]))
      case (Some(a), Some(b), Some(c), Some(d)) => Some(Stored(a, b, c, d))
      case _ => None
  }

  function DecodeLegacy(j: Json): Option<Legacy> {
    match ValueFields(j, LEGACY_FIELDS)
    case None => None
    case Some(v) =>
      match (DecodeString(v[0]), DecodeString(v[1]))
      case (Some(a), Some(b)) => Some(Legacy(a, b))
      case _ => None
  }

  function ReadIdentity(text: string): Option<Content> {
    match Parse(text)
    case None => None
    case Some(j) =>
      if !TextsDecode(j) then None
      else if j.JObject? && LastField(j.members, "identity_public_key").Some? then
        match DecodeStored(j)
        case None => None
        case Some(stored) => Some(Current(stored))
      else
        match DecodeLegacy(j)
        case None => None
        case Some(legacy) => Some(Outdated(legacy))
  }

  function IdentityPath(username: string): string {
    "identities/" + username + ".json"
  }

  // ---------------------------------------------------------------- keys

  predicate SigningPair(sig: Signatures, secretText: string, publicText: string) {
    match (DecodeKey(secretText), DecodeKey(publicText))
    case (Some(secret), Some(public)) => sig.isPoint(public) && sig.verifying(secret) == public
    case _ => false
  }

  predicate EncryptionPair(p: Crypto.Suite, secretText: string, publicText: string) {
    match (DecodeKey(secretText), DecodeKey(publicText))
    case (Some(secret), Some(public)) => p.publicKey(secret) == public
    case _ => false
  }

  /** validate_stored_identity. */
  predicate Validates(sig: Signatures, p: Crypto.Suite, s: Stored) {
    SigningPair(sig, s.identitySecret, s.identityKey) && EncryptionPair(p, s.encryptionSecret, s.encryptionKey)
  }

  function WithEncryptionKeys(p: Crypto.Suite, identityKey: string, identitySecret: string, secret: Key): Stored {
    Stored(identityKey, identitySecret, Encode(p.publicKey(secret)), Encode(secret))
  }

  // ---------------------------------------------------------------- what a call does

  /** What a call meets: failures the operating system chooses, fresh secrets from the random
      generator, and a file that another process may put in place meanwhile. */
  datatype Chances = Chances(readFails: bool, createFails: bool, writeFails: bool, signing: Key, encryption: Key, rival: Option<string>)

  /** The accepted content of the file, and the text of the file afterwards. */
  datatype Loaded = Loaded(stored: Option<Stored>, text: string)

  /** The identity, if any, and all files afterwards. */
  datatype Outcome = Outcome(identity: Option<Identity>, texts: map<string, string>)

  function UpgradeLegacy(sig: Signatures, p: Crypto.Suite, text: string, legacy: Legacy, c: Chances): Loaded {
    if !SigningPair(sig, legacy.secretKey, legacy.publicKey) || c.writeFails then Loaded(None, text)
    else
      var stored := WithEncryptionKeys(p, legacy.publicKey, legacy.secretKey, c.encryption);
      Loaded(Some(stored), StoredText(stored))
  }

  function Validated(sig: Signatures, p: Crypto.Suite, loaded: Loaded): Loaded {
    if loaded.stored.Some? && Validates(sig, p, loaded.stored.value) then loaded else loaded.(stored := None)
  }

  function LoadFile(sig: Signatures, p: Crypto.Suite, text: string, c: Chances): Loaded {
    if c.readFails then Loaded(None, text)
    else
      match ReadIdentity(text)
      case None => Loaded(None, text)
      case Some(Current(stored)) => Validated(sig, p, Loaded(Some(stored), text))
      case Some(Outdated(legacy)) => Validated(sig, p, UpgradeLegacy(sig, p, text, legacy, c))
  }

  function IdentityOf(s: Stored, path: string): Option<Identity> {
    match DecodeKey(s.encryptionSecret)
    case None => None
    case Some(secret) => Some(Identity(s.identityKey, s.encryptionKey, secret, path, false))
  }

  function Created(sig: Signatures, p: Crypto.Suite, c: Chances): Stored {
    WithEncryptionKeys(p, Encode(sig.verifying(c.signing)), Encode(c.signing), c.encryption)
  }

  function WithRival(texts: map<string, string>, path: string, c: Chances): map<string, string> {
    if c.rival.Some? then texts[path := c.rival.value] else texts
  }

  function LoadOrCreate(sig: Signatures, p: Crypto.Suite, texts: map<string, string>, username: string, c: Chances): Outcome {
    var path := IdentityPath(username);
    if !IsValidUsername(username) then Outcome(None, texts)
    else if path in texts then
      var loaded := LoadFile(sig, p, texts[path], c);
      Outcome(if loaded.stored.None? then None else IdentityOf(loaded.stored.value, path), texts[path := loaded.text])
    else if c.createFails then Outcome(None, texts)
    else
      var texts' := WithRival(texts, path, c);
      if c.writeFails || path in texts' then Outcome(None, texts')
      else
        var stored := Created(sig, p, c);
        Outcome(Some(Identity(stored.identityKey, stored.encryptionKey, c.encryption, path, true)), texts'[path := StoredText(stored)])
  }

  // ---------------------------------------------------------------- the code

  method UpgradeLegacyIdentity(sig: Signatures, p: Crypto.Suite, files: Files, path: string, legacy: Legacy, c: Chances)
    returns (stored: Option<Stored>)
    requires path in files.texts
    modifies files
    ensures var after := UpgradeLegacy(sig, p, old(files.texts)[path], legacy, c);
            stored == after.stored && files.texts == old(files.texts)[path := after.text]
  {
    hide Pretty, StoredJson, DecodeKey;
    var secret := DecodeKey(legacy.secretKey);
    var public := DecodeKey(legacy.publicKey);
    if secret.None? || public.None? || !sig.isPoint(public.value) || sig.verifying(secret.value) != public.value {
      return None;
    }
    var upgraded := Stored(legacy.publicKey, legacy.secretKey, Encode(p.publicKey(c.encryption)), Encode(c.encryption));
    var ok := files.Write(path, StoredText(upgraded), c.writeFails);
    return if ok then Some(upgraded) else None;
  }

  method LoadIdentityFile(sig: Signatures, p: Crypto.Suite, files: Files, path: string, c: Chances) returns (stored: Option<Stored>)
    requires path in files.texts
    modifies files
    ensures var after := LoadFile(sig, p, old(files.texts)[path], c);
            stored == after.stored && files.texts == old(files.texts)[path := after.text]
  {
    hide ReadIdentity, UpgradeLegacy, Validates;
    if c.readFails {
      return None;
    }
    match ReadIdentity(files.texts[path]) {
      case None =>
        return None;
      case Some(Current(s)) =>
        stored := Some(s);
      case Some(Outdated(legacy)) =>
        stored := UpgradeLegacyIdentity(sig, p, files, path, legacy, c);
    }
    if stored.Some? && !Validates(sig, p, stored.value) {
      return None;
    }
  }

  /** load_or_create_in. */
  method LoadOrCreateIn(sig: Signatures, p: Crypto.Suite, files: Files, username: string, c: Chances) returns (identity: Option<Identity>)
    modifies files
    ensures Outcome(identity, files.texts) == LoadOrCreate(sig, p, old(files.texts), username, c)
  {
    hide LoadFile, IsValidUsername, StoredText, IdentityPath;
    if !IsValidUsername(username) {
      return None;
    }
    var path := IdentityPath(username);
    if path in files.texts {
      var stored := LoadIdentityFile(sig, p, files, path, c);
      if stored.None? {
        return None;
      }
      var secret := DecodeKey(stored.value.encryptionSecret);
      if secret.None? {
        return None;
      }
      return Some(Identity(stored.value.identityKey, stored.value.encryptionKey, secret.value, path, false));
    }
    if c.createFails {
      return None;
    }
    var stored := Created(sig, p, c);
    if c.rival.Some? {
      files.texts := files.texts[path := c.rival.value];
    }
    var ok := files.CreateNew(path, StoredText(stored), c.writeFails);
    if !ok {
      return None;
    }
    return Some(Identity(stored.identityKey, stored.encryptionKey, c.encryption, path, true));
  }
}
